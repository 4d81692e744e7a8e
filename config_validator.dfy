/**
 * Input and configuration validation: formulas, queries and relative paths
 * supplied by the user, the interpreter path used to launch the tool
 * server, and the Cognito settings. Each validator raises (Err) or returns
 * the cleaned input (Ok). Character classes are ASCII.
 */
module ConfigValidator {
  import opened Wrappers
  import opened Errors
  import opened Text

  const MaxFormulaLength: nat := 100
  const MaxQueryLength: nat := 5000
  /** The longest tag body `<[^>]{0,200}>` removes. */
  const MaxTagBody: nat := 200

  /** `[A-Za-z0-9\-\(\)\s]` */
  predicate FormulaChar(c: char) { IsAlnum(c) || c == '-' || c == '(' || c == ')' || IsSpace(c) }

  predicate AllChars(s: string, cls: char -> bool) { forall i :: 0 <= i < |s| ==> cls(s[i]) }

  /**
   * `re.match('^C+$', s)`: one or more class characters, where `$` also
   * matches just before a final newline.
   */
  predicate FullMatch(s: string, cls: char -> bool)
  {
    (|s| > 0 && AllChars(s, cls))
    || (|s| > 1 && s[|s| - 1] == '\n' && AllChars(s[..|s| - 1], cls))
  }

  /** `validate_formula` */
  function ValidateFormula(formula: string): (r: Result<string, Exc>)
    ensures r.Ok? <==> 0 < |formula| <= MaxFormulaLength && Strip(formula) != [] && AllChars(Strip(formula), FormulaChar)
    ensures r.Ok? ==> r.value == Strip(formula) && 0 < |r.value| <= MaxFormulaLength
    ensures formula == [] || |formula| > MaxFormulaLength ==> r == Err(ValueError("Invalid formula length (max 100 characters)"))
  {
    if formula == [] || |formula| > MaxFormulaLength then Err(ValueError("Invalid formula length (max 100 characters)"))
    else
      var s := Strip(formula);
      if !FullMatch(s, FormulaChar) then Err(ValueError("Invalid formula characters"))
      else Ok(s)
  }

  /** A tag that `<[^>]{0,200}>` matches starts at `i`: the first `>` after it is at most 201 places on. */
  predicate TagAt(q: string, i: int)
  {
    0 <= i < |q| && q[i] == '<' && TagEnd(q, i + 1, 0).Some?
  }

  /** Position of the `>` closing a tag whose body began at `j - n`, with `n` body characters read so far. */
  function TagEnd(q: string, j: nat, n: nat): (r: Option<nat>)
    ensures r.Some? ==> j <= r.value < |q| && q[r.value] == '>' && n + r.value - j <= MaxTagBody
    ensures r.Some? ==> forall k :: j <= k < r.value ==> q[k] != '>'
    decreases |q| - j
  {
    if j >= |q| || n > MaxTagBody then None
    else if q[j] == '>' then Some(j)
    else TagEnd(q, j + 1, n + 1)
  }

  /** `re.sub(r'<[^>]{0,200}>', '', q)`: scanning left to right, every matched tag is dropped. */
  function RemoveTags(q: string): (r: string)
    ensures |r| <= |q|
    decreases |q|
  {
    if q == [] then []
    else if TagAt(q, 0) then
      var e := TagEnd(q, 1, 0).value;
      RemoveTags(q[e + 1..])
    else [q[0]] + RemoveTags(q[1..])
  }

  ghost predicate HasTag(q: string) { exists i :: TagAt(q, i) }

  lemma {:induction false} TagEndShift(q: string, j: nat, n: nat)
    requires 1 <= j && q != []
    ensures TagEnd(q, j, n).Some? <==> TagEnd(q[1..], j - 1, n).Some?
    decreases |q| - j
  {
    if j < |q| && n <= MaxTagBody {
      assert q[1..][j - 1] == q[j];
      if q[j] != '>' {
        TagEndShift(q, j + 1, n + 1);
      }
    }
  }

  /** The substitution changes the length exactly when the query holds a tag. */
  lemma {:induction false} RemoveTagsShortens(q: string)
    ensures |RemoveTags(q)| < |q| <==> HasTag(q)
    decreases |q|
  {
    if q != [] && !TagAt(q, 0) {
      RemoveTagsShortens(q[1..]);
      forall i | 1 <= i < |q| ensures TagAt(q, i) <==> TagAt(q[1..], i - 1) {
        TagEndShift(q, i + 1, 0);
      }
      if HasTag(q[1..]) {
        var i :| TagAt(q[1..], i);
        assert TagAt(q, i + 1);
      }
      if HasTag(q) {
        var i :| TagAt(q, i);
        assert TagAt(q[1..], i - 1);
      }
    } else if q != [] {
      assert TagAt(q, 0);
    }
  }

  /** `validate_query`: a length check, then a refusal of any tag the substitution would remove. */
  function ValidateQuery(query: string): (r: Result<string, Exc>)
    ensures query == [] || |query| > MaxQueryLength ==> r == Err(ValueError("Invalid query length (max 5000 characters)"))
    ensures r.Ok? ==> r.value == Strip(query) && |RemoveTags(query)| == |query|
  {
    if query == [] || |query| > MaxQueryLength then Err(ValueError("Invalid query length (max 5000 characters)"))
    else if |RemoveTags(query)| != |query| then Err(ValueError("HTML/XML tags not allowed in queries"))
    else Ok(Strip(query))
  }

  /** A query of acceptable length is refused exactly when some `<` is followed by a `>` within 201 characters with no `>` between. */
  lemma QueryRefusedIffTag(query: string)
    requires 0 < |query| <= MaxQueryLength
    ensures ValidateQuery(query).Err? <==> HasTag(query)
    ensures ValidateQuery(query).Ok? ==> ValidateQuery(query).value == Strip(query)
  {
    RemoveTagsShortens(query);
  }

  /** A concrete refusal: a script tag. */
  lemma ScriptTagRefused()
    ensures ValidateQuery("<script>").Err?
  {
    assert TagEnd("<script>", 1, 0) == Some(7);
    assert TagAt("<script>", 0);
    RemoveTagsShortens("<script>");
  }

  /** The checks `validate_file_path` makes before resolving against the base directory. */
  function PathPrecheck(path: string): (r: Result<string, Exc>)
    ensures r.Ok? <==> path != [] && !Contains(path, "..") && !StartsWith(path, "/")
    ensures r.Ok? ==> r.value == path
  {
    if path == [] || Contains(path, "..") || StartsWith(path, "/") then Err(ValueError("Invalid path format"))
    else Ok(path)
  }

  /** `[a-zA-Z0-9._/\\:-]` */
  predicate ExecutableChar(c: char) { IsAlnum(c) || c in "._/\\:-" }

  /**
   * `validate_python_executable`: the character check, then
   * `shutil.which`, whose answer is `onPath`.
   */
  function ValidatePythonExecutable(path: string, onPath: bool): (r: Result<string, Exc>)
    ensures r.Ok? <==> FullMatch(path, ExecutableChar) && onPath
    ensures r.Ok? ==> r.value == path
    ensures !FullMatch(path, ExecutableChar) ==> r == Err(ConfigurationError("Invalid Python executable path: " + path))
  {
    if !FullMatch(path, ExecutableChar) then Err(ConfigurationError("Invalid Python executable path: " + path))
    else if !onPath then Err(ConfigurationError("Python executable not found: " + path))
    else Ok(path)
  }

  /** A path with a space or a `;` never reaches the shell. */
  lemma ExecutableRejectsShellChars(path: string, onPath: bool, i: nat)
    requires i < |path| && (path[i] == ' ' || path[i] == ';' || path[i] == '&' || path[i] == '|')
    ensures ValidatePythonExecutable(path, onPath).Err?
  {
    if |path| > 1 && path[|path| - 1] == '\n' && i < |path| - 1 {
      assert path[..|path| - 1][i] == path[i];
    }
  }

  /** `not v or v.strip() == ''` */
  predicate Missing(v: Option<string>) { v.None? || Strip(v.value) == [] }

  /** The names of the missing settings, in the order pool id, client id, client secret. */
  function MissingNames(poolId: Option<string>, clientId: Option<string>, clientSecret: Option<string>): (names: seq<string>)
    ensures |names| <= 3
    ensures "COGNITO_POOL_ID" in names <==> Missing(poolId)
    ensures "COGNITO_APP_CLIENT_ID" in names <==> Missing(clientId)
    ensures "COGNITO_APP_CLIENT_SECRET" in names <==> Missing(clientSecret)
  {
    SettingNamesDistinct();
    var tail := MissingClientNames(clientId, clientSecret);
    if Missing(poolId) then ["COGNITO_POOL_ID"] + tail else tail
  }

  /** The missing client settings, client id before client secret. */
  function MissingClientNames(clientId: Option<string>, clientSecret: Option<string>): (names: seq<string>)
    ensures |names| <= 2 && "COGNITO_POOL_ID" !in names
    ensures "COGNITO_APP_CLIENT_ID" in names <==> Missing(clientId)
    ensures "COGNITO_APP_CLIENT_SECRET" in names <==> Missing(clientSecret)
  {
    SettingNamesDistinct();
    var tail := if Missing(clientSecret) then ["COGNITO_APP_CLIENT_SECRET"] else [];
    if Missing(clientId) then ["COGNITO_APP_CLIENT_ID"] + tail else tail
  }

  lemma SettingNamesDistinct()
    ensures "COGNITO_POOL_ID" != "COGNITO_APP_CLIENT_ID"
    ensures "COGNITO_POOL_ID" != "COGNITO_APP_CLIENT_SECRET"
    ensures "COGNITO_APP_CLIENT_ID" != "COGNITO_APP_CLIENT_SECRET"
  {
    assert |"COGNITO_POOL_ID"| == 15 && |"COGNITO_APP_CLIENT_ID"| == 21 && |"COGNITO_APP_CLIENT_SECRET"| == 25;
  }

  /**
   * `validate_cognito_config` over the values it reads: `AUTH_MODE`,
   * `REQUIRE_COGNITO_CONFIG` and the three settings as found in the
   * environment or the parameter store.
   */
  function ValidateCognitoConfig(authMode: Option<string>, requireCognito: Option<string>,
                                 poolId: Option<string>, clientId: Option<string>, clientSecret: Option<string>)
    : (r: Result<map<string, string>, Exc>)
    ensures !(authMode == Some("cognito") && Lower(requireCognito.GetOr("false")) == "true") ==> r == Ok(map[])
    ensures r.Err? ==> authMode == Some("cognito") && MissingNames(poolId, clientId, clientSecret) != []
    ensures r.Ok? && r.value != map[] ==>
              && !Missing(poolId) && !Missing(clientId) && !Missing(clientSecret)
              && r.value == map["COGNITO_POOL_ID" := Strip(poolId.value),
                                 "COGNITO_APP_CLIENT_ID" := Strip(clientId.value),
                                 "COGNITO_APP_CLIENT_SECRET" := Strip(clientSecret.value)]
  {
    if authMode.GetOr("") == "cognito" && Lower(requireCognito.GetOr("false")) == "true" then
      var missing := MissingNames(poolId, clientId, clientSecret);
      if missing != [] then
        Err(ConfigurationError("Missing required Cognito configuration: " + Join(missing, ", ")
                               + ". Set these in environment variables or AWS Systems Manager Parameter Store."))
      else
        Ok(map["COGNITO_POOL_ID" := Strip(poolId.value),
               "COGNITO_APP_CLIENT_ID" := Strip(clientId.value),
               "COGNITO_APP_CLIENT_SECRET" := Strip(clientSecret.value)])
    else Ok(map[])
  }
}
