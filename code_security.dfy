/**
 * The static screen applied to generated code before it is displayed: it
 * collects one issue per dangerous import, per dangerous function that is
 * called, per file-operation marker and per network marker, and rates the
 * code HIGH risk when anything was found. Matching is case-insensitive
 * over ASCII.
 */
module CodeSecurity {
  import opened Wrappers
  import opened Text
  import Scan

  const DangerousImports: set<string> := {
    "os", "subprocess", "sys", "eval", "exec", "compile", "open", "__import__",
    "globals", "locals", "vars", "getattr", "setattr", "delattr", "hasattr"}

  /** The dangerous function names, in the order the model checks them (Python iterates its set in hash order). */
  const DangerousFunctions: seq<string> :=
    ["eval", "exec", "compile", "input", "raw_input", "file", "execfile", "reload", "__import__"]

  /** `module.lower() in DANGEROUS_IMPORTS` */
  predicate DangerousModule(m: string) { Lower(m) in DangerousImports }

  const FileOps: seq<string> := ["open(", "file(", "with open"]
  const NetworkPatterns: seq<string> := ["urllib", "requests", "socket", "http", "ftp", "smtp", "telnet"]

  /** The keyword `kw` (lower case) at `i`, ignoring case, then white space, then a word: the word and where the match ends. */
  function KeywordImport(code: string, i: nat, kw: string): (r: Option<(string, nat)>)
    ensures r.Some? ==> i < r.value.1 <= |code| && r.value.0 != [] && forall k :: 0 <= k < |r.value.0| ==> IsWordChar(r.value.0[k])
  {
    if i + |kw| > |code| || kw == [] || Lower(code[i..i + |kw|]) != kw then None
    else
      var s := Scan.Run(code[i + |kw|..], IsSpace);
      var at := i + |kw| + s;
      var w := Scan.Run(code[at..], IsWordChar);
      if s == 0 || w == 0 then None
      else
        var word := code[at..at + w];
        assert forall k :: 0 <= k < w ==> word[k] == code[at..][k];
        Some((word, at + w))
  }

  /** A match of `(?:from\s+(\w+)|import\s+(\w+))` starting at `i`: the `from` branch is tried first. */
  function ImportAt(code: string, i: nat): (r: Option<(string, nat)>)
    ensures r.Some? ==> i < r.value.1 <= |code| && r.value.0 != []
  {
    match KeywordImport(code, i, "from")
    case Some(m) => Some(m)
    case None => KeywordImport(code, i, "import")
  }

  /** `re.findall(import_pattern, code, re.IGNORECASE)` from position `i`: the module names, left to right, matches not overlapping. */
  function ImportedModules(code: string, i: nat): (ms: seq<string>)
    ensures forall k :: 0 <= k < |ms| ==> ms[k] != []
    decreases |code| - i
  {
    if i >= |code| then []
    else match ImportAt(code, i)
      case Some((m, e)) => [m] + ImportedModules(code, e)
      case None => ImportedModules(code, i + 1)
  }

  /** `\bname\s*\(` at `i`, ignoring case. */
  predicate CallAt(code: string, name: string, i: nat)
  {
    && i + |name| <= |code|
    && (i == 0 || !IsWordChar(code[i - 1]))
    && Lower(code[i..i + |name|]) == name
    && var j := i + |name| + Scan.Run(code[i + |name|..], IsSpace);
       j < |code| && code[j] == '('
  }

  /** `re.search(rf'\b{name}\s*\(', code, re.IGNORECASE)` from position `i`. */
  predicate CallFrom(code: string, name: string, i: nat)
    decreases |code| - i
  {
    i <= |code| && (CallAt(code, name, i) || CallFrom(code, name, i + 1))
  }

  lemma {:induction false} CallFromIff(code: string, name: string, i: nat)
    ensures CallFrom(code, name, i) <==> exists j :: i <= j <= |code| && CallAt(code, name, j)
    decreases |code| - i
  {
    if i <= |code| {
      CallFromIff(code, name, i + 1);
    }
  }

  /** The issue text for each item of `items` that `flag` accepts, in order. */
  function Flagged(items: seq<string>, flag: string -> bool, prefix: string): (issues: seq<string>)
    ensures |issues| <= |items|
    ensures issues == [] <==> forall k :: 0 <= k < |items| ==> !flag(items[k])
  {
    if items == [] then []
    else
      var init := items[..|items| - 1];
      var last := items[|items| - 1];
      assert forall k :: 0 <= k < |init| ==> init[k] == items[k];
      Flagged(init, flag, prefix) + (if flag(last) then [prefix + last] else [])
  }

  /** The import issues of a list of imported module names. */
  function ModuleIssues(ms: seq<string>): (r: seq<string>)
    ensures r == [] <==> forall k :: 0 <= k < |ms| ==> !DangerousModule(ms[k])
  {
    Flagged(ms, m => DangerousModule(m), "Dangerous import detected: ")
  }

  function ImportIssues(code: string): seq<string>
  {
    ModuleIssues(ImportedModules(code, 0))
  }

  function CallIssues(code: string): (r: seq<string>)
    ensures r == [] <==> forall k :: 0 <= k < |DangerousFunctions| ==> !CallFrom(code, DangerousFunctions[k], 0)
  {
    Flagged(DangerousFunctions, f => CallFrom(code, f, 0), "Dangerous function call: ")
  }

  function FileIssues(code: string): (r: seq<string>)
    ensures r == [] <==> forall k :: 0 <= k < |FileOps| ==> !Contains(Lower(code), FileOps[k])
  {
    Flagged(FileOps, op => Contains(Lower(code), op), "File operation detected: ")
  }

  function NetworkIssues(code: string): (r: seq<string>)
    ensures r == [] <==> forall k :: 0 <= k < |NetworkPatterns| ==> !Contains(Lower(code), NetworkPatterns[k])
  {
    Flagged(NetworkPatterns, p => Contains(Lower(code), p), "Network operation detected: ")
  }

  /** The issues in the order the four checks append them. */
  function Issues(code: string): seq<string>
  {
    ImportIssues(code) + CallIssues(code) + FileIssues(code) + NetworkIssues(code)
  }

  datatype SafetyReport = SafetyReport(isSafe: bool, issues: seq<string>, riskLevel: string)

  /** `validate_code_safety`: the four checks in turn, each appending to `issues`. */
  method ValidateCodeSafety(code: string) returns (report: SafetyReport)
    ensures report.issues == Issues(code)
    ensures report.isSafe <==> report.issues == []
    ensures report.riskLevel == (if report.issues == [] then "LOW" else "HIGH")
  {
    var issues: seq<string> := [];
    var modules := ImportedModules(code, 0);
    for k := 0 to |modules|
      invariant issues == ModuleIssues(modules[..k])
    {
      assert modules[..k + 1][..k] == modules[..k];
      if DangerousModule(modules[k]) {
        issues := issues + ["Dangerous import detected: " + modules[k]];
      }
    }
    assert modules[..|modules|] == modules;
    issues := AppendFlagged(issues, DangerousFunctions, f => CallFrom(code, f, 0), "Dangerous function call: ");
    issues := AppendFlagged(issues, FileOps, op => Contains(Lower(code), op), "File operation detected: ");
    issues := AppendFlagged(issues, NetworkPatterns, p => Contains(Lower(code), p), "Network operation detected: ");
    report := SafetyReport(|issues| == 0, issues, if |issues| > 0 then "HIGH" else "LOW");
  }

  /** One `for` loop of the screen: append an issue for every item the check flags. */
  method AppendFlagged(issues: seq<string>, items: seq<string>, flag: string -> bool, prefix: string)
    returns (out: seq<string>)
    ensures out == issues + Flagged(items, flag, prefix)
  {
    out := issues;
    for k := 0 to |items|
      invariant out == issues + Flagged(items[..k], flag, prefix)
    {
      assert items[..k + 1][..k] == items[..k];
      if flag(items[k]) {
        out := out + [prefix + items[k]];
      }
    }
    assert items[..|items|] == items;
  }

  /**
   * The code is rated safe exactly when each of the four checks finds
   * nothing; what "nothing" means for each is the `ensures` of that check.
   */
  lemma SafeIffNothingFound(code: string)
    ensures Issues(code) == [] <==>
      ImportIssues(code) == [] && CallIssues(code) == [] && FileIssues(code) == [] && NetworkIssues(code) == []
  {
    var a, b, c, d := ImportIssues(code), CallIssues(code), FileIssues(code), NetworkIssues(code);
    assert |Issues(code)| == |a| + |b| + |c| + |d|;
  }

  /** A call of a dangerous function anywhere in the code makes it unsafe. */
  lemma DangerousCallUnsafe(code: string, k: nat, j: nat)
    requires k < |DangerousFunctions| && j <= |code| && CallAt(code, DangerousFunctions[k], j)
    ensures Issues(code) != []
  {
    CallFromIff(code, DangerousFunctions[k], 0);
    SafeIffNothingFound(code);
  }

  const DisplayWarning: string :=
    "# WARNING: This is generated code for DISPLAY ONLY\n"
    + "# DO NOT EXECUTE without proper security review\n"
    + "# Review all imports and function calls before use\n\n"

  /** `sanitize_code_display`: empty code stays empty; anything else gets the warning header in front, unchanged after it. */
  function SanitizeCodeDisplay(code: string): (r: string)
    ensures code == [] ==> r == []
    ensures code != [] ==> StartsWith(r, DisplayWarning) && r[|DisplayWarning|..] == code
  {
    if code == [] then [] else DisplayWarning + code
  }
}
