/**
 * The model-independent part of the Qiskit code generators: turning text
 * into a Python identifier, reading the user's intent off the query, and
 * deciding whether code is wanted at all. (The POSCAR formula reader of the
 * same class is `PoscarFormula.ExtractFormulaForCode`.)
 */
module BaseModel {
  import opened Wrappers
  import opened Text
  import opened Scan
  import Structures
  import Supervisor

  // ---------------------------------------------------------------- identifiers

  /** The letters and digits of `s`, in order. */
  function Alnums(s: string): (r: string)
    ensures |r| <= |s|
  {
    if s == [] then [] else (if IsAlnum(s[0]) then [s[0]] else []) + Alnums(s[1..])
  }

  lemma {:induction false} AlnumsConcat(a: string, b: string)
    ensures Alnums(a + b) == Alnums(a) + Alnums(b)
    decreases |a|
  {
    if a != [] {
      assert a + b != [] && (a + b)[0] == a[0];
      assert (a + b)[1..] == a[1..] + b;
      AlnumsConcat(a[1..], b);
      var h: string := if IsAlnum(a[0]) then [a[0]] else [];
      assert Alnums(a + b) == h + Alnums(a[1..] + b);
      assert Alnums(a) == h + Alnums(a[1..]);
    } else {
      assert a + b == b;
    }
  }

  lemma {:induction false} AlnumsLower(s: string)
    ensures Alnums(Lower(s)) == Lower(Alnums(s))
    decreases |s|
  {
    if s != [] {
      assert Lower(s)[1..] == Lower(s[1..]);
      AlnumsLower(s[1..]);
      AlnumsConcat(if IsAlnum(s[0]) then [s[0]] else [], Alnums(s[1..]));
      assert Lower([s[0]] + s[1..]) == [LowerChar(s[0])] + Lower(s[1..]);
      var head: string := if IsAlnum(s[0]) then [s[0]] else [];
      assert Lower(head + Alnums(s[1..])) == Lower(head) + Lower(Alnums(s[1..])) by {
        LowerConcat(head, Alnums(s[1..]));
      }
    }
  }

  lemma LowerConcat(a: string, b: string)
    ensures Lower(a + b) == Lower(a) + Lower(b)
  {
    assert forall i :: 0 <= i < |a + b| ==> Lower(a + b)[i] == (Lower(a) + Lower(b))[i];
  }

  /** Only letters, digits and `_`. */
  predicate WordChars(s: string)
  {
    forall i :: 0 <= i < |s| ==> IsWordChar(s[i])
  }

  /** No two `_` in a row. */
  predicate NoDoubleUnderscore(s: string)
  {
    forall i :: 0 <= i < |s| - 1 ==> !(s[i] == '_' && s[i + 1] == '_')
  }

  /** `re.sub(r'[^0-9a-zA-Z_]+', '_', s)`; `inRun` when the previous character was already replaced. */
  function ReplaceInvalid(s: string, inRun: bool): (r: string)
    ensures WordChars(r)
    ensures Alnums(r) == Alnums(s)
    decreases |s|
  {
    if s == [] then []
    else
      var rest := ReplaceInvalid(s[1..], !IsWordChar(s[0]));
      var r := if !IsWordChar(s[0]) then (if inRun then rest else "_" + rest) else [s[0]] + rest;
      assert Alnums(r) == Alnums(s) by {
        assert s == [s[0]] + s[1..];
        AlnumsConcat([s[0]], s[1..]);
        if !IsWordChar(s[0]) && !inRun { AlnumsConcat("_", rest); }
        if IsWordChar(s[0]) { AlnumsConcat([s[0]], rest); }
      }
      r
  }

  /** `re.sub(r'_+', '_', s)`; `prev` when the last character kept was `_`. */
  function Collapse(s: string, prev: bool): (r: string)
    ensures NoDoubleUnderscore(r)
    ensures prev ==> r == [] || r[0] != '_'
    ensures WordChars(s) ==> WordChars(r)
    ensures Alnums(r) == Alnums(s)
    decreases |s|
  {
    if s == [] then []
    else
      var rest := Collapse(s[1..], s[0] == '_');
      var r := if s[0] == '_' then (if prev then rest else "_" + rest) else [s[0]] + rest;
      assert Alnums(r) == Alnums(s) by {
        assert s == [s[0]] + s[1..];
        AlnumsConcat([s[0]], s[1..]);
        if s[0] == '_' && !prev { AlnumsConcat("_", rest); }
        if s[0] != '_' { AlnumsConcat([s[0]], rest); }
      }
      assert WordChars(s) ==> WordChars(s[1..]);
      r
  }

  /** `s.lstrip('_')` */
  function StripLeading(s: string): (r: string)
    ensures r == [] || r[0] != '_'
    ensures |r| <= |s| && r == s[|s| - |r|..]
    ensures Alnums(r) == Alnums(s)
    decreases |s|
  {
    if s != [] && s[0] == '_' then
      assert s == "_" + s[1..];
      AlnumsConcat("_", s[1..]);
      StripLeading(s[1..])
    else s
  }

  /** `s.rstrip('_')` */
  function StripTrailing(s: string): (r: string)
    ensures r == [] || r[|r| - 1] != '_'
    ensures |r| <= |s| && r == s[..|r|]
    ensures Alnums(r) == Alnums(s)
    decreases |s|
  {
    if s != [] && s[|s| - 1] == '_' then
      assert s == s[..|s| - 1] + "_";
      AlnumsConcat(s[..|s| - 1], "_");
      StripTrailing(s[..|s| - 1])
    else s
  }

  /** A piece cut out of `s` keeps its character set and its lack of double `_`. */
  lemma SliceKeeps(s: string, a: nat, b: nat)
    requires a <= b <= |s|
    ensures WordChars(s) ==> WordChars(s[a..b])
    ensures NoDoubleUnderscore(s) ==> NoDoubleUnderscore(s[a..b])
  {
    if NoDoubleUnderscore(s) {
      forall i | 0 <= i < |s[a..b]| - 1 ensures !(s[a..b][i] == '_' && s[a..b][i + 1] == '_') {
        assert s[a..b][i] == s[a + i] && s[a..b][i + 1] == s[a + i + 1];
      }
    }
  }

  /** The text after both substitutions. */
  function Collapsed(text: string): (c: string)
    ensures WordChars(c) && NoDoubleUnderscore(c) && Alnums(c) == Alnums(text)
  {
    Collapse(ReplaceInvalid(text, false), false)
  }

  /** `s.strip('_')` keeps the character set, the lack of `__` and the letters and digits, and leaves no `_` at either end. */
  lemma StripKeeps(c: string)
    ensures var t := StripTrailing(StripLeading(c));
            && (WordChars(c) ==> WordChars(t))
            && (NoDoubleUnderscore(c) ==> NoDoubleUnderscore(t))
            && Alnums(t) == Alnums(c)
            && (t == [] || (t[0] != '_' && t[|t| - 1] != '_'))
  {
    var l := StripLeading(c);
    var t := StripTrailing(l);
    SuffixKeeps(c, l);
    PrefixKeeps(l, t);
    assert t != [] ==> t[0] == l[0];
  }

  lemma SuffixKeeps(s: string, r: string)
    requires |r| <= |s| && r == s[|s| - |r|..]
    ensures WordChars(s) ==> WordChars(r)
    ensures NoDoubleUnderscore(s) ==> NoDoubleUnderscore(r)
  {
    assert r == s[|s| - |r|..|s|];
    SliceKeeps(s, |s| - |r|, |s|);
  }

  lemma PrefixKeeps(s: string, r: string)
    requires |r| <= |s| && r == s[..|r|]
    ensures WordChars(s) ==> WordChars(r)
    ensures NoDoubleUnderscore(s) ==> NoDoubleUnderscore(r)
  {
    assert r == s[0..|r|];
    SliceKeeps(s, 0, |r|);
  }

  /** The collapsed and stripped text, before the `obj` and digit rules. */
  function Trimmed(text: string): (s: string)
    ensures WordChars(s) && NoDoubleUnderscore(s) && Alnums(s) == Alnums(text)
    ensures s == [] || (s[0] != '_' && s[|s| - 1] != '_')
  {
    var c := Collapsed(text);
    StripKeeps(c);
    StripTrailing(StripLeading(c))
  }

  /** A non-empty text of word characters without `_` at either end has a letter or digit. */
  lemma HasAlnum(s: string)
    requires WordChars(s) && (s == [] || s[0] != '_')
    ensures s != [] ==> Alnums(s) != []
  {
    if s != [] {
      assert s == [s[0]] + s[1..];
      AlnumsConcat([s[0]], s[1..]);
    }
  }

  /** Putting `_` in front of a text that starts with a letter or digit keeps it a clean identifier body. */
  lemma UnderscoreFront(t: string)
    requires t != [] && WordChars(t) && NoDoubleUnderscore(t) && t[0] != '_'
    ensures WordChars("_" + t) && NoDoubleUnderscore("_" + t) && Alnums("_" + t) == Alnums(t)
  {
    var u := "_" + t;
    forall i | 0 <= i < |u| - 1 ensures !(u[i] == '_' && u[i + 1] == '_') {
      assert u[i + 1] == t[i];
      if i > 0 { assert u[i] == t[i - 1]; }
    }
    AlnumsConcat("_", t);
  }

  lemma ObjIsClean()
    ensures WordChars("obj") && NoDoubleUnderscore("obj") && !IsDigit("obj"[0])
  {
  }

  /** `_sanitize_ident` before the final `lower()`: "obj" for nothing left, `_` in front of a leading digit. */
  function Unlowered(text: string): (u: string)
    ensures u != [] && WordChars(u) && NoDoubleUnderscore(u) && !IsDigit(u[0])
    ensures Alnums(text) != [] ==> Alnums(u) == Alnums(text)
    ensures Alnums(text) == [] ==> u == "obj"
  {
    var s := Trimmed(text);
    HasAlnum(s);
    ObjIsClean();
    var t := if s == [] then "obj" else s;
    if IsDigit(t[0]) then
      UnderscoreFront(t);
      "_" + t
    else t
  }

  /** `_sanitize_ident` */
  function SanitizeIdent(text: string): string
  {
    Lower(Unlowered(text))
  }

  /** Lower-casing keeps `_` where it was and turns word characters into lower-case letters, digits and `_`. */
  lemma LowerKeeps(u: string)
    requires u != [] && WordChars(u) && NoDoubleUnderscore(u) && !IsDigit(u[0])
    ensures var r := Lower(u);
            && r != []
            && (forall i :: 0 <= i < |r| ==> IsLower(r[i]) || IsDigit(r[i]) || r[i] == '_')
            && !IsDigit(r[0])
            && NoDoubleUnderscore(r)
            && Alnums(r) == Lower(Alnums(u))
  {
    var r := Lower(u);
    assert NoDoubleUnderscore(r) by {
      forall i | 0 <= i < |r| - 1 ensures !(r[i] == '_' && r[i + 1] == '_') {
        assert r[i] == LowerChar(u[i]) && r[i + 1] == LowerChar(u[i + 1]);
      }
    }
    AlnumsLower(u);
  }

  /**
   * The identifier is non-empty, made of lower-case letters, digits and
   * `_`, does not start with a digit and has no `__`. It holds the letters
   * and digits of the text in order, lower-cased, and is "obj" when the
   * text has none.
   */
  lemma SanitizedIsIdentifier(text: string)
    ensures var r := SanitizeIdent(text);
            && r != []
            && (forall i :: 0 <= i < |r| ==> IsLower(r[i]) || IsDigit(r[i]) || r[i] == '_')
            && !IsDigit(r[0])
            && NoDoubleUnderscore(r)
            && (Alnums(text) != [] ==> Alnums(r) == Lower(Alnums(text)))
            && (Alnums(text) == [] ==> r == "obj")
  {
    LowerKeeps(Unlowered(text));
  }

  // ---------------------------------------------------------------- intent

  /** What the query asks for; `supercell` is the scaling matrix. */
  datatype Intent = Intent(
    task: Option<string>,
    ansatzFamily: Option<string>,
    mapping: Option<string>,
    layers: Option<nat>,
    entanglement: Option<string>,
    rotations: Option<string>,
    activeSpace: Option<nat>,
    requirements: seq<string>,
    supercell: Option<seq<seq<int>>>)

  /** The leftmost position at or after `from` where `here` reads something. */
  function FirstAt<X>(s: string, here: string -> Option<X>, from: nat): (r: Option<nat>)
    ensures r.Some? ==> from <= r.value <= |s| && here(s[r.value..]).Some?
    decreases |s| - from
  {
    if from > |s| then None
    else if here(s[from..]).Some? then Some(from)
    else FirstAt(s, here, from + 1)
  }

  /** No position before the one found reads anything, and none at all when nothing is found. */
  lemma {:induction false} FirstAtIsLeftmost<X>(s: string, here: string -> Option<X>, from: nat, j: nat)
    requires from <= j <= |s|
    requires FirstAt(s, here, from).None? || j < FirstAt(s, here, from).value
    ensures here(s[j..]).None?
    decreases |s| - from
  {
    if j > from {
      FirstAtIsLeftmost(s, here, from + 1, j);
    }
  }

  /** `re.search` with an anchored matcher `here`: what it reads at the leftmost position where it reads anything. */
  function SearchFrom<X>(s: string, here: string -> Option<X>): (r: Option<X>)
    ensures r.Some? <==> FirstAt(s, here, 0).Some?
  {
    match FirstAt(s, here, 0)
    case None => None
    case Some(j) => here(s[j..])
  }

  /** `(\d+)\s*layers` anchored at the start. */
  function LayersHere(s: string): Option<nat>
  {
    var a := DigitRun(s);
    if a == 0 then None
    else
      var rest := s[a..];
      if StartsWith(rest[Run(rest, IsSpace)..], "layers") then Some(DigitsValue(s[..a])) else None
  }

  /** `(\d+)[ -]?orbital` anchored at the start. */
  function OrbitalsHere(s: string): Option<nat>
  {
    var a := DigitRun(s);
    if a == 0 then None
    else
      var rest := s[a..];
      if StartsWith(rest, "orbital") || (|rest| > 0 && (rest[0] == ' ' || rest[0] == '-') && StartsWith(rest[1..], "orbital"))
      then Some(DigitsValue(s[..a]))
      else None
  }

  /** `(\d+)x(\d+)x(\d+)\s*supercell` anchored at the start. */
  function SupercellHere(s: string): Option<(nat, nat, nat)>
  {
    var a := DigitRun(s);
    if a == 0 || a == |s| || s[a] != 'x' then None
    else
      var s2 := s[a + 1..];
      var b := DigitRun(s2);
      if b == 0 || b == |s2| || s2[b] != 'x' then None
      else
        var s3 := s2[b + 1..];
        var c := DigitRun(s3);
        var rest := s3[c..];
        if c == 0 || !StartsWith(rest[Run(rest, IsSpace)..], "supercell") then None
        else Some((DigitsValue(s[..a]), DigitsValue(s2[..b]), DigitsValue(s3[..c])))
  }

  /** The scaling matrix of a supercell request: diag(A, B, C) from the first `AxBxC supercell`, else diag(2, 2, 2). */
  function SupercellMatrix(q: string): (m: seq<seq<int>>)
    ensures SearchFrom<(nat, nat, nat)>(q, SupercellHere).None? ==> m == Structures.DefaultScaling
    ensures SearchFrom<(nat, nat, nat)>(q, SupercellHere).Some? ==>
              var d := SearchFrom<(nat, nat, nat)>(q, SupercellHere).value;
              m == Supervisor.Diagonal(d.0, d.1, d.2)
  {
    var d := SearchFrom<(nat, nat, nat)>(q, SupercellHere);
    if d.None? then Structures.DefaultScaling else Supervisor.Diagonal(d.value.0, d.value.1, d.value.2)
  }

  /** `w` occurs in `q` as a whole word, with no letter or digit on either side. */
  predicate MentionsWord(q: string, w: string)
  {
    exists i :: 0 <= i <= |q| - |w| && OccursAt(q, w, i) &&
      (i == 0 || !IsAlnum(q[i - 1])) && (i + |w| == |q| || !IsAlnum(q[i + |w|]))
  }

  /** The ansatz family, given whether the query names the hardware-efficient ("he") ansatz; later checks win. */
  function FamilyGiven(q: string, he: bool): Option<string>
  {
    if Contains(q, "adapt") then Some("adapt")
    else if Contains(q, "k-upccg") || Contains(q, "upccg") then Some("k-upccgsd")
    else if he || Contains(q, "hardware-efficient") || Contains(q, "two-local") then Some("two_local")
    else if Contains(q, "uccsd") || Contains(q, "ucc") then Some("uccsd")
    else None
  }

  /** As written: `"he" in q`, which also fires inside "the", "when", "hermitian". */
  function AnsatzFamilyAsWritten(q: string): Option<string>
  {
    FamilyGiven(q, Contains(q, "he"))
  }

  /** With "he" read as a word of its own. */
  function AnsatzFamily(q: string): Option<string>
  {
    FamilyGiven(q, MentionsWord(q, "he"))
  }

  /** A request for UCCSD that also contains "the". */
  const UccsdRequest: string := "the uccsd"

  /** As written, no query containing "the" can get the UCCSD family, even when it asks for UCCSD. */
  lemma TheNeverGetsUccsd(q: string)
    requires Contains(q, "the")
    ensures AnsatzFamilyAsWritten(q) != Some("uccsd")
    ensures Contains(q, "uccsd") && !Contains(q, "adapt") && !Contains(q, "k-upccg") && !Contains(q, "upccg") ==>
              AnsatzFamilyAsWritten(q) == Some("two_local")
  {
    ContainsIffOccurs(q, "the");
    var i :| OccursAt(q, "the", i);
    assert q[i + 1..i + 3] == q[i..i + 3][1..];
    assert OccursAt(q, "he", i + 1);
    ContainsIffOccurs(q, "he");
  }

  /** With "he" read as a word, the same request gets UCCSD. */
  lemma UccsdRequestGetsUccsd()
    ensures Contains(UccsdRequest, "the")
    ensures AnsatzFamily(UccsdRequest) == Some("uccsd")
  {
    var q := UccsdRequest;
    assert OccursAt(q, "the", 0);
    ContainsIffOccurs(q, "the");
    assert OccursAt(q, "uccsd", 4);
    ContainsIffOccurs(q, "uccsd");
    AbsentFamilies();
    HeIsNoWordThere();
  }

  /** In the example request "he" occurs only inside "the". */
  lemma HeIsNoWordThere()
    ensures !MentionsWord(UccsdRequest, "he")
  {
    var q := UccsdRequest;
    forall i | 0 <= i <= |q| - 2 ensures OccursAt(q, "he", i) ==> i == 1 {
      assert q[i..i + 2][0] == q[i];
    }
    assert IsAlnum(q[0]);
  }

  /** No other family word occurs in the example request. */
  lemma AbsentFamilies()
    ensures !Contains(UccsdRequest, "adapt") && !Contains(UccsdRequest, "k-upccg") && !Contains(UccsdRequest, "upccg")
    ensures !Contains(UccsdRequest, "hardware-efficient") && !Contains(UccsdRequest, "two-local")
  {
    Absent(UccsdRequest, "adapt");
    Absent(UccsdRequest, "k-upccg");
    Absent(UccsdRequest, "upccg");
    Absent(UccsdRequest, "hardware-efficient");
    Absent(UccsdRequest, "two-local");
  }

  /** `p` is absent from the example request: nowhere do its first two characters follow each other there. */
  lemma Absent(q: string, p: string)
    requires q == UccsdRequest && p in ["adapt", "k-upccg", "upccg", "hardware-efficient", "two-local"]
    ensures !Contains(q, p)
  {
    forall i | 0 <= i && i + |p| <= |q| ensures !OccursAt(q, p, i) {
      assert q[i..i + |p|][0] == q[i] && q[i..i + |p|][1] == q[i + 1];
      assert q[i] != p[0] || q[i + 1] != p[1];
    }
    ContainsIffOccurs(q, p);
  }

  /** The task keywords: the first to fire is kept, and a supercell mention overrides all of them. */
  function TaskOf(q: string): Option<string>
  {
    if Contains(q, "supercell") then Some("supercell_vqe")
    else if Contains(q, "vqe") || Contains(q, "ground state") || Contains(q, "variational") then Some("vqe")
    else if Contains(q, "initial state") || Contains(q, "initial-state") then Some("initial_state")
    else if Contains(q, "ansatz") || Contains(q, "two-local") || Contains(q, "uccsd") then Some("ansatz")
    else None
  }

  function MappingOf(q: string): Option<string>
  {
    if Contains(q, "jordan") then Some("jordan_wigner")
    else if Contains(q, "parity") then Some("parity")
    else if Contains(q, "bravyi") then Some("bravyi_kitaev")
    else None
  }

  function EntanglementOf(q: string): Option<string>
  {
    if Contains(q, "circular") || Contains(q, "ring") then Some("circular")
    else if Contains(q, "linear entanglement") then Some("linear")
    else None
  }

  function RotationsOf(q: string): Option<string>
  {
    if Contains(q, "rz") then Some("rz")
    else if Contains(q, "rx") then Some("rx")
    else if Contains(q, "ry") then Some("ry")
    else None
  }

  /** The task checks: a later check only fills the task when none is set yet. */
  method DetectTask(q: string) returns (task: Option<string>)
    ensures Contains(q, "supercell") ==> task == Some("supercell_vqe")
    ensures !Contains(q, "supercell") ==> task == TaskOf(q)
  {
    task := None;
    if Contains(q, "vqe") || Contains(q, "ground state") || Contains(q, "variational") {
      task := Some("vqe");
    }
    if Contains(q, "initial state") || Contains(q, "initial-state") {
      if task.None? { task := Some("initial_state"); }
    }
    if Contains(q, "ansatz") || Contains(q, "two-local") || Contains(q, "uccsd") {
      if task.None? { task := Some("ansatz"); }
    }
    if Contains(q, "supercell") {
      task := Some("supercell_vqe");
    }
  }

  /** The ansatz family checks: each one that fires overwrites the last. */
  method DetectFamily(q: string) returns (family: Option<string>)
    ensures family == AnsatzFamilyAsWritten(q)
  {
    family := None;
    if Contains(q, "uccsd") || Contains(q, "ucc") { family := Some("uccsd"); }
    if Contains(q, "he") || Contains(q, "hardware-efficient") || Contains(q, "two-local") { family := Some("two_local"); }
    if Contains(q, "k-upccg") || Contains(q, "upccg") { family := Some("k-upccgsd"); }
    if Contains(q, "adapt") { family := Some("adapt"); }
  }

  /** The mapping, entanglement and rotation checks: each one that fires overwrites the last. */
  method DetectCircuitChoices(q: string) returns (mapping: Option<string>, entanglement: Option<string>, rotations: Option<string>)
    ensures mapping == MappingOf(q) && entanglement == EntanglementOf(q) && rotations == RotationsOf(q)
  {
    mapping := None;
    if Contains(q, "bravyi") { mapping := Some("bravyi_kitaev"); }
    if Contains(q, "parity") { mapping := Some("parity"); }
    if Contains(q, "jordan") { mapping := Some("jordan_wigner"); }

    entanglement := None;
    if Contains(q, "linear entanglement") { entanglement := Some("linear"); }
    if Contains(q, "circular") || Contains(q, "ring") { entanglement := Some("circular"); }

    rotations := None;
    if Contains(q, "ry") { rotations := Some("ry"); }
    if Contains(q, "rx") { rotations := Some("rx"); }
    if Contains(q, "rz") { rotations := Some("rz"); }
  }

  /** The requirement checks append in order. */
  method DetectRequirements(q: string) returns (requirements: seq<string>)
    ensures "device-agnostic" in requirements <==> Contains(q, "device-agnostic")
    ensures "print_parameters" in requirements <==> Contains(q, "print parameter") || Contains(q, "parameter count")
    ensures "print_depth" in requirements <==> Contains(q, "circuit depth") || Contains(q, "depth")
    ensures |requirements| <= 3
    ensures requirements ==
              (if Contains(q, "device-agnostic") then ["device-agnostic"] else []) +
              (if Contains(q, "print parameter") || Contains(q, "parameter count") then ["print_parameters"] else []) +
              (if Contains(q, "circuit depth") || Contains(q, "depth") then ["print_depth"] else [])
  {
    requirements := [];
    if Contains(q, "device-agnostic") { requirements := requirements + ["device-agnostic"]; }
    if Contains(q, "print parameter") || Contains(q, "parameter count") { requirements := requirements + ["print_parameters"]; }
    if Contains(q, "circuit depth") || Contains(q, "depth") { requirements := requirements + ["print_depth"]; }
  }

  /** The supercell check: the matched size, else 2x2x2, whenever "supercell" is mentioned. */
  method DetectSupercell(q: string) returns (supercell: Option<seq<seq<int>>>)
    ensures Contains(q, "supercell") <==> supercell.Some?
    ensures supercell.Some? ==> supercell.value == SupercellMatrix(q)
  {
    supercell := None;
    var dims := SearchFrom<(nat, nat, nat)>(q, SupercellHere);
    if dims.Some? {
      SupercellMatchMentionsSupercell(q);
    }
    if dims.Some? || Contains(q, "supercell") {
      if dims.Some? {
        supercell := Some(Supervisor.Diagonal(dims.value.0, dims.value.1, dims.value.2));
      } else {
        supercell := Some(Structures.DefaultScaling);
      }
    }
  }

  /** `_detect_intent`: the query lower-cased, then each group of checks in turn. */
  method DetectIntent(query: string) returns (intent: Intent)
    ensures var q := Lower(query);
            && intent.task == TaskOf(q)
            && intent.ansatzFamily == AnsatzFamilyAsWritten(q)
            && intent.mapping == MappingOf(q)
            && intent.layers == SearchFrom(q, LayersHere)
            && intent.entanglement == EntanglementOf(q)
            && intent.rotations == RotationsOf(q)
            && intent.activeSpace == SearchFrom(q, OrbitalsHere)
            && (Contains(q, "supercell") <==> intent.supercell.Some?)
            && (intent.supercell.Some? ==> intent.supercell.value == SupercellMatrix(q))
    ensures var q := Lower(query);
            && ("device-agnostic" in intent.requirements <==> Contains(q, "device-agnostic"))
            && ("print_parameters" in intent.requirements <==> Contains(q, "print parameter") || Contains(q, "parameter count"))
            && ("print_depth" in intent.requirements <==> Contains(q, "circuit depth") || Contains(q, "depth"))
            && |intent.requirements| <= 3
            && intent.requirements ==
                 (if Contains(q, "device-agnostic") then ["device-agnostic"] else []) +
                 (if Contains(q, "print parameter") || Contains(q, "parameter count") then ["print_parameters"] else []) +
                 (if Contains(q, "circuit depth") || Contains(q, "depth") then ["print_depth"] else [])
  {
    var q := Lower(query);
    var task := DetectTask(q);
    var family := DetectFamily(q);
    var mapping, entanglement, rotations := DetectCircuitChoices(q);
    var requirements := DetectRequirements(q);
    var supercell := DetectSupercell(q);
    intent := Intent(task, family, mapping, SearchFrom(q, LayersHere), entanglement, rotations,
                     SearchFrom(q, OrbitalsHere), requirements, supercell);
  }

  /** A matched `AxBxC supercell` is a mention of "supercell". */
  lemma SupercellMatchMentionsSupercell(q: string)
    requires SearchFrom<(nat, nat, nat)>(q, SupercellHere).Some?
    ensures Contains(q, "supercell")
  {
    var j := FirstAt(q, SupercellHere, 0).value;
    var at := SupercellEnd(q[j..]);
    assert q[j + at..][..9] == q[j..][at..][..9];
    assert OccursAt(q, "supercell", j + at);
    ContainsIffOccurs(q, "supercell");
  }

  /** Where "supercell" starts in an anchored match. */
  function SupercellEnd(s: string): (at: nat)
    requires SupercellHere(s).Some?
    ensures at + 9 <= |s| && s[at..][..9] == "supercell"
  {
    var a := DigitRun(s);
    assert a < |s|;
    var s2 := s[a + 1..];
    var b := DigitRun(s2);
    assert b < |s2|;
    var s3 := s2[b + 1..];
    var c := DigitRun(s3);
    var rest := s3[c..];
    var w := Run(rest, IsSpace);
    assert StartsWith(rest[w..], "supercell");
    DropDrop(s, a + 1, b + 1);
    DropDrop(s, a + 1 + b + 1, c);
    DropDrop(s, a + 1 + b + 1 + c, w);
    a + 1 + b + 1 + c + w
  }

  /** Dropping `i` then `j` elements drops `i + j`. */
  lemma DropDrop(s: string, i: nat, j: nat)
    requires i + j <= |s|
    ensures s[i..][j..] == s[i + j..]
  {
  }

  // ---------------------------------------------------------------- code gate

  const CodeKeywords: seq<string> := ["code", "generate", "vqe", "ansatz", "circuit", "qiskit", "hamiltonian", "quantum"]
  const ListingKeywords: seq<string> := ["show me", "list", "available", "options", "materials", "find"]

  /** A task was detected (`intent.get("task")` is truthy). */
  predicate HasTask(task: Option<string>)
  {
    task.Some? && task.value != ""
  }

  /** The gate of `generate_base_code`: false where it returns None before generating. */
  function WantsCode(originalQuery: string, task: Option<string>): (generate: bool)
    ensures var q := Lower(originalQuery);
            generate <==> ContainsAny(q, CodeKeywords) || (HasTask(task) && !ContainsAny(q, ListingKeywords))
  {
    var q := Lower(originalQuery);
    var wantsCode := ContainsAny(q, CodeKeywords);
    var wantsListing := ContainsAny(q, ListingKeywords);
    if wantsListing && !wantsCode then false
    else if !HasTask(task) && !wantsCode then false
    else true
  }

  /** Asking for a listing without any code word never generates code, whatever the task. */
  lemma ListingWithoutCodeSkips(originalQuery: string, task: Option<string>)
    requires ContainsAny(Lower(originalQuery), ListingKeywords) && !ContainsAny(Lower(originalQuery), CodeKeywords)
    ensures !WantsCode(originalQuery, task)
  {
  }

  /** A detected supercell task with no listing word generates code. */
  lemma SupercellTaskGenerates(query: string)
    requires Contains(Lower(query), "supercell") && !ContainsAny(Lower(query), ListingKeywords)
    ensures WantsCode(query, TaskOf(Lower(query)))
  {
  }
}
