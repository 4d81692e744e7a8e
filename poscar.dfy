/**
 * `_poscar_to_geometry`, shared word for word by both tool clients: the
 * POSCAR text becomes the `"El x y z; El x y z"` geometry string handed to
 * the quantum-chemistry code. The element symbols come from the first
 * element line among the first seven lines, the atoms from up to four lines
 * starting at line 8. Reading a coordinate token as a float, scaling it by
 * 5.43 and printing it with three decimals is the `coord` parameter, None
 * when `float` raises.
 */
module Poscar {
  import opened Wrappers
  import opened Text
  import opened Arith

  /** The geometry returned when no atom line qualifies or a coordinate cannot be read. */
  const DefaultGeometry: string := "Si 0.0 0.0 0.0; Si 1.932 1.932 1.932"
  const CoordStart: nat := 8
  const MaxAtomLines: nat := 4
  const ElementSearchLines: nat := 7

  /** `[A-Z][a-z]?` */
  predicate IsSymbol(w: string)
  {
    (|w| == 1 && IsUpper(w[0])) || (|w| == 2 && IsUpper(w[0]) && IsLower(w[1]))
  }

  /** `re.match(r'^[A-Z][a-z]?(?:\s+[A-Z][a-z]?)*$', line.strip())`: white-space separated symbols only. */
  predicate IsElementLine(line: string)
  {
    var ws := Words(Strip(line));
    ws != [] && forall k :: 0 <= k < |ws| ==> IsSymbol(ws[k])
  }

  /** Index of the first line among `lines[..n]` satisfying `p`. */
  function FirstWhere(lines: seq<string>, p: string -> bool, n: nat): (r: Option<nat>)
    requires n <= |lines|
    ensures r.Some? ==> r.value < n && p(lines[r.value])
    ensures r.Some? ==> forall j :: 0 <= j < r.value ==> !p(lines[j])
    ensures r.None? ==> forall j :: 0 <= j < n ==> !p(lines[j])
  {
    if n == 0 then None
    else match FirstWhere(lines, p, n - 1)
      case Some(k) => Some(k)
      case None => if p(lines[n - 1]) then Some(n - 1) else None
  }

  /** Index of the element line the conversion uses, if one of the first seven lines is one. */
  function ElementLineIndex(lines: seq<string>): (r: Option<nat>)
    ensures r.Some? ==> r.value < ElementSearchLines && r.value < |lines| && IsElementLine(lines[r.value])
    ensures r.Some? ==> forall j :: 0 <= j < r.value ==> !IsElementLine(lines[j])
    ensures r.None? ==> forall j :: 0 <= j < ElementSearchLines && j < |lines| ==> !IsElementLine(lines[j])
  {
    FirstWhere(lines, IsElementLine, MinInt(ElementSearchLines, |lines|))
  }

  /** The element symbols: those of the first element line in the first seven lines, else `["Si"]`. */
  function ElementSymbols(lines: seq<string>): (elems: seq<string>)
    ensures |elems| >= 1
    ensures ElementLineIndex(lines).None? ==> elems == ["Si"]
    ensures ElementLineIndex(lines).Some? ==> elems == Words(Strip(lines[ElementLineIndex(lines).value]))
  {
    match ElementLineIndex(lines)
    case None => ["Si"]
    case Some(k) => Words(Strip(lines[k]))
  }

  /** What one coordinate line contributes. */
  datatype AtomStep = Skip | Atom(text: string) | Fails

  /** A line with at least three tokens after stripping. */
  predicate Qualifies(line: string)
  {
    |Words(Strip(line))| >= 3
  }

  /** The contribution of one coordinate line, given the element it is mapped to. */
  function AtomAt(line: string, element: string, coord: string -> Option<string>): (r: AtomStep)
    ensures r.Skip? <==> !Qualifies(line)
    ensures r.Atom? ==> StartsWith(r.text, element + " ")
    ensures r.Fails? ==> exists k :: 0 <= k < 3 && coord(Words(Strip(line))[k]).None?
  {
    var cs := Words(Strip(line));
    if |cs| < 3 then Skip
    else
      var x, y, z := coord(cs[0]), coord(cs[1]), coord(cs[2]);
      if x.None? || y.None? || z.None? then Fails
      else
        var text := element + " " + x.value + " " + y.value + " " + z.value;
        assert text[..|element + " "|] == element + " ";
        Atom(text)
  }

  /** What each coordinate row contributes, the i-th mapped to element `elems[i % |elems|]`. */
  function Steps(rows: seq<string>, elems: seq<string>, coord: string -> Option<string>): (steps: seq<AtomStep>)
    requires |elems| >= 1
    ensures |steps| == |rows|
    ensures forall i :: 0 <= i < |rows| ==> steps[i] == AtomAt(rows[i], elems[i % |elems|], coord)
  {
    seq(|rows|, i requires 0 <= i < |rows| => AtomAt(rows[i], elems[i % |elems|], coord))
  }

  /** Number of rows among the first `n` steps that produce an atom or fail, i.e. that qualify. */
  function CountQualifying(steps: seq<AtomStep>, n: nat): nat
    requires n <= |steps|
  {
    if n == 0 then 0 else CountQualifying(steps, n - 1) + (if steps[n - 1].Skip? then 0 else 1)
  }

  /** The atoms produced by the first `n` steps, or None once a coordinate cannot be read. */
  function AtomsUpTo(steps: seq<AtomStep>, n: nat): (r: Option<seq<string>>)
    requires n <= |steps|
    ensures r.Some? ==> |r.value| == CountQualifying(steps, n) && |r.value| <= n
    ensures r.Some? ==> forall i :: 0 <= i < n ==> !steps[i].Fails?
    ensures r.None? ==> exists i :: 0 <= i < n && steps[i].Fails?
  {
    if n == 0 then Some([])
    else match AtomsUpTo(steps, n - 1)
      case None => None
      case Some(atoms) =>
        match steps[n - 1]
        case Skip => Some(atoms)
        case Atom(a) => Some(atoms + [a])
        case Fails => None
  }

  /** The coordinate lines: at most four, starting at line 8. */
  function CoordinateRows(lines: seq<string>): (rows: seq<string>)
    requires |lines| >= CoordStart
    ensures |rows| <= MaxAtomLines
    ensures forall i :: 0 <= i < |rows| ==> CoordStart + i < |lines| && rows[i] == lines[CoordStart + i]
  {
    lines[CoordStart..MinInt(CoordStart + MaxAtomLines, |lines|)]
  }

  /** The whole conversion as a function of the POSCAR text. */
  function Geometry(poscar: string, coord: string -> Option<string>): (g: string)
  {
    var lines := Split(Strip(poscar), '\n');
    if |lines| < CoordStart then ""
    else
      var rows := CoordinateRows(lines);
      match AtomsUpTo(Steps(rows, ElementSymbols(lines), coord), |rows|)
      case None => DefaultGeometry
      case Some(atoms) => if atoms == [] then DefaultGeometry else Join(atoms, "; ")
  }

  /** The conversion as the clients perform it: a search for the element line, then a loop over the coordinate lines. */
  method PoscarToGeometry(poscar: string, coord: string -> Option<string>) returns (g: string)
    ensures g == Geometry(poscar, coord)
  {
    var lines := Split(Strip(poscar), '\n');
    if |lines| < CoordStart {
      return "";
    }
    var elementLine := FindElementLine(lines);
    var rows := CoordinateRows(lines);
    var atoms := CollectAtoms(rows, elementLine, coord);
    match atoms
    case None =>
      g := DefaultGeometry;
    case Some(a) =>
      g := if a == [] then DefaultGeometry else Join(a, "; ");
  }

  /** The `for ... break` search for the element line among the first seven lines. */
  method FindElementLine(lines: seq<string>) returns (elementLine: seq<string>)
    ensures elementLine == ElementSymbols(lines)
  {
    var n := MinInt(ElementSearchLines, |lines|);
    var i := 0;
    while i < n && !IsElementLine(lines[i])
      invariant i <= n
      invariant forall j :: 0 <= j < i ==> !IsElementLine(lines[j])
    {
      i := i + 1;
    }
    if i < n {
      FirstIs(lines, i);
      elementLine := Words(Strip(lines[i]));
    } else {
      NoneFound(lines);
      elementLine := ["Si"];
    }
  }

  lemma FirstIs(lines: seq<string>, i: nat)
    requires i < ElementSearchLines && i < |lines| && IsElementLine(lines[i])
    requires forall j :: 0 <= j < i ==> !IsElementLine(lines[j])
    ensures ElementLineIndex(lines) == Some(i)
    ensures ElementSymbols(lines) == Words(Strip(lines[i]))
  {
  }

  lemma NoneFound(lines: seq<string>)
    requires forall j :: 0 <= j < ElementSearchLines && j < |lines| ==> !IsElementLine(lines[j])
    ensures ElementLineIndex(lines).None?
    ensures ElementSymbols(lines) == ["Si"]
  {
  }

  /** The loop over the coordinate rows, stopping at the first unreadable coordinate. */
  method CollectAtoms(rows: seq<string>, elems: seq<string>, coord: string -> Option<string>) returns (r: Option<seq<string>>)
    requires |elems| >= 1
    ensures r == AtomsUpTo(Steps(rows, elems, coord), |rows|)
  {
    ghost var steps := Steps(rows, elems, coord);
    var atoms: seq<string> := [];
    for k := 0 to |rows|
      invariant AtomsUpTo(steps, k) == Some(atoms)
    {
      var step := AtomAt(rows[k], elems[k % |elems|], coord);
      assert step == steps[k];
      match step
      case Skip =>
      case Atom(a) =>
        atoms := atoms + [a];
      case Fails =>
        AtomsFailStay(steps, k + 1, |rows|);
        return None;
    }
    return Some(atoms);
  }

  /** Once a coordinate fails, every longer prefix fails too. */
  lemma {:induction false} AtomsFailStay(steps: seq<AtomStep>, n: nat, m: nat)
    requires n <= m <= |steps| && AtomsUpTo(steps, n).None?
    ensures AtomsUpTo(steps, m).None?
    decreases m - n
  {
    if m > n {
      AtomsFailStay(steps, n, m - 1);
    }
  }

  /** Fewer than eight lines give the empty geometry. */
  lemma ShortPoscarIsEmpty(poscar: string, coord: string -> Option<string>)
    requires |Split(Strip(poscar), '\n')| < CoordStart
    ensures Geometry(poscar, coord) == ""
  {
  }

  /**
   * Otherwise the geometry is never empty: it is the default pair when no
   * coordinate line qualifies or one cannot be read, and the atoms joined
   * with "; " otherwise, one per qualifying line and so at most four.
   */
  lemma GeometryShape(poscar: string, coord: string -> Option<string>)
    requires |Split(Strip(poscar), '\n')| >= CoordStart
    ensures var lines := Split(Strip(poscar), '\n');
            var steps := Steps(CoordinateRows(lines), ElementSymbols(lines), coord);
            var atoms := AtomsUpTo(steps, |steps|);
            && (atoms.None? || CountQualifying(steps, |steps|) == 0 ==> Geometry(poscar, coord) == DefaultGeometry)
            && (atoms.Some? && CountQualifying(steps, |steps|) > 0 ==>
                  Geometry(poscar, coord) == Join(atoms.value, "; ") && 1 <= |atoms.value| <= MaxAtomLines)
  {
  }

  /** The atom of row `i` is labelled with element `i mod n` of the element line, and only qualifying rows count. */
  lemma AtomElementCycles(rows: seq<string>, elems: seq<string>, coord: string -> Option<string>, i: nat)
    requires i < |rows| && |elems| >= 1
    ensures Steps(rows, elems, coord)[i].Skip? <==> !Qualifies(rows[i])
    ensures Steps(rows, elems, coord)[i].Atom? ==> StartsWith(Steps(rows, elems, coord)[i].text, elems[i % |elems|] + " ")
  {
  }
}
