/**
 * The chemical formula the agents read off a POSCAR text. The supervisor,
 * the Strands supervisor and the base code generator scan the first ten
 * lines for an element line; when the next line holds one count per
 * element the formula is the elements with their counts (a count of 1 is
 * left out), otherwise the first element. Without an element line the
 * supervisors answer "Si" and the code generator first tries the leading
 * symbol of line 1. The coordinator keeps only the first element.
 */
module PoscarFormula {
  import opened Wrappers
  import opened Text
  import opened Arith
  import opened Formulas
  import Poscar

  const FormulaSearchLines: nat := 10
  const DefaultFormula: string := "Si"

  /** `re.match(r'^\d+(?:\s+\d+)*$', line)` on the stripped line: white-space separated digit runs only. */
  predicate IsCountLine(line: string)
  {
    var ws := Words(Strip(line));
    ws != [] && forall k :: 0 <= k < |ws| ==> IsDigitString(ws[k])
  }

  /** One element with its count; a count of "1" is not written. */
  function Part(elem: string, count: string): (p: string)
    ensures count == "1" ==> p == elem
    ensures count != "1" ==> p == elem + count
  {
    if count == "1" then elem else elem + count
  }

  /** `''.join(formula_parts)` after the loop over `zip(elements, counts)`. */
  function Parts(elems: seq<string>, counts: seq<string>): string
    requires |elems| == |counts|
  {
    if elems == [] then ""
    else Parts(elems[..|elems| - 1], counts[..|counts| - 1]) + Part(elems[|elems| - 1], counts[|counts| - 1])
  }

  /** The loop that builds the formula, one part per element. */
  method BuildFormula(elems: seq<string>, counts: seq<string>) returns (formula: string)
    requires |elems| == |counts|
    ensures formula == Parts(elems, counts)
  {
    formula := "";
    for k := 0 to |elems|
      invariant formula == Parts(elems[..k], counts[..k])
    {
      assert elems[..k + 1][..k] == elems[..k] && counts[..k + 1][..k] == counts[..k];
      formula := formula + Part(elems[k], counts[k]);
    }
    assert elems[..|elems|] == elems && counts[..|counts|] == counts;
  }

  /** A string without capital letters holds no symbol. */
  lemma {:induction false} NoCapitalsNoSymbols(s: string)
    requires forall i :: 0 <= i < |s| ==> !IsUpper(s[i])
    ensures ElementSymbols(s) == []
    decreases |s|
  {
    if s != [] {
      NoCapitalsNoSymbols(s[1..]);
    }
  }

  /** A symbol scans as itself. */
  lemma SymbolScansAsItself(elem: string)
    requires Poscar.IsSymbol(elem)
    ensures ElementSymbols(elem) == [elem]
  {
    if |elem| == 1 {
      LoneCapital(elem, "");
      assert elem + "" == elem;
    } else {
      assert elem[..2] == elem && elem[2..] == [];
    }
  }

  /** A part scans as its element: the count adds no symbol. */
  lemma PartScansAsElement(elem: string, count: string)
    requires Poscar.IsSymbol(elem) && IsDigitString(count)
    ensures ElementSymbols(Part(elem, count)) == [elem]
  {
    SymbolScansAsItself(elem);
    if count != "1" {
      SymbolsOfConcat(elem, count);
      NoCapitalsNoSymbols(count);
    }
  }

  /** Appending a part to a formula appends its element to the symbols read. */
  lemma AppendPart(init: string, elem: string, count: string)
    requires Poscar.IsSymbol(elem) && IsDigitString(count)
    ensures ElementSymbols(init + Part(elem, count)) == ElementSymbols(init) + [elem]
  {
    var last := Part(elem, count);
    PartScansAsElement(elem, count);
    assert IsUpper(last[0]);
    SymbolsOfConcat(init, last);
  }

  /** The formula names exactly the elements of the element line, in order. */
  lemma {:induction false} FormulaNamesElements(elems: seq<string>, counts: seq<string>)
    requires |elems| == |counts|
    requires forall k :: 0 <= k < |elems| ==> Poscar.IsSymbol(elems[k])
    requires forall k :: 0 <= k < |counts| ==> IsDigitString(counts[k])
    ensures ElementSymbols(Parts(elems, counts)) == elems
    decreases |elems|
  {
    if elems != [] {
      var n := |elems| - 1;
      FormulaNamesElements(elems[..n], counts[..n]);
      AppendPart(Parts(elems[..n], counts[..n]), elems[n], counts[n]);
      assert elems[..n] + [elems[n]] == elems;
    }
  }

  /** The formula read from the element line at `i`. */
  function LineFormula(lines: seq<string>, i: nat): (f: string)
    requires i < |lines| && Poscar.IsElementLine(lines[i])
  {
    var elems := Words(Strip(lines[i]));
    if i + 1 < |lines| && IsCountLine(lines[i + 1]) && |Words(Strip(lines[i + 1]))| == |elems| then
      Parts(elems, Words(Strip(lines[i + 1])))
    else elems[0]
  }

  /** `poscar_text.strip().split('\n')` */
  function Lines(poscar: string): (lines: seq<string>)
    ensures |lines| >= 1
  {
    Split(Strip(poscar), '\n')
  }

  /** Index of the first element line among the first ten lines. */
  function ElementLineAt(lines: seq<string>): (r: Option<nat>)
    ensures r.Some? ==> r.value < FormulaSearchLines && r.value < |lines| && Poscar.IsElementLine(lines[r.value])
    ensures r.Some? ==> forall j :: 0 <= j < r.value ==> !Poscar.IsElementLine(lines[j])
    ensures r.None? ==> forall j :: 0 <= j < FormulaSearchLines && j < |lines| ==> !Poscar.IsElementLine(lines[j])
  {
    Poscar.FirstWhere(lines, Poscar.IsElementLine, MinInt(FormulaSearchLines, |lines|))
  }

  /** What the scan of the first ten lines finds: the formula of the first element line, if any. */
  function ScanFormula(lines: seq<string>): Option<string>
  {
    match ElementLineAt(lines)
    case None => None
    case Some(i) => Some(LineFormula(lines, i))
  }

  /** The element line at `i` decides once no earlier line is one. */
  lemma FirstElementLine(lines: seq<string>, i: nat)
    requires i < FormulaSearchLines && i < |lines| && Poscar.IsElementLine(lines[i])
    requires forall j :: 0 <= j < i ==> !Poscar.IsElementLine(lines[j])
    ensures ElementLineAt(lines) == Some(i)
    ensures ScanFormula(lines) == Some(LineFormula(lines, i))
  {
  }

  /** No element line among the first ten lines: the scan finds nothing. */
  lemma NoElementLine(lines: seq<string>)
    requires forall j :: 0 <= j < MinInt(FormulaSearchLines, |lines|) ==> !Poscar.IsElementLine(lines[j])
    ensures ElementLineAt(lines).None?
    ensures ScanFormula(lines) == None
  {
  }

  /** The body of the scan once an element line is found. */
  method FormulaAt(lines: seq<string>, i: nat) returns (formula: string)
    requires i < |lines| && Poscar.IsElementLine(lines[i])
    ensures formula == LineFormula(lines, i)
  {
    var elems := Words(Strip(lines[i]));
    if i + 1 < |lines| {
      var countLine := lines[i + 1];
      if IsCountLine(countLine) {
        var counts := Words(Strip(countLine));
        if |elems| == |counts| {
          formula := BuildFormula(elems, counts);
          return;
        }
      }
    }
    formula := elems[0];
  }

  /** The `for i, line in enumerate(lines[:10])` scan with its early return. */
  method ScanElementLines(lines: seq<string>) returns (found: Option<string>)
    ensures found == ScanFormula(lines)
  {
    var n := MinInt(FormulaSearchLines, |lines|);
    for i := 0 to n
      invariant forall j :: 0 <= j < i ==> !Poscar.IsElementLine(lines[j])
    {
      if Poscar.IsElementLine(lines[i]) {
        FirstElementLine(lines, i);
        var formula := FormulaAt(lines, i);
        return Some(formula);
      }
    }
    NoElementLine(lines);
    return None;
  }

  /** The supervisors' formula: the scan's, else "Si". */
  function SupervisorFormula(poscar: string): string
  {
    match ScanFormula(Lines(poscar))
    case Some(f) => f
    case None => DefaultFormula
  }

  /** `SupervisorAgent._extract_formula_from_poscar` (the Strands supervisor's is the same code). */
  method ExtractFormulaFromPoscar(poscar: string) returns (formula: string)
    ensures ScanFormula(Lines(poscar)).Some? ==> formula == ScanFormula(Lines(poscar)).value
    ensures ScanFormula(Lines(poscar)).None? ==> formula == DefaultFormula
    ensures formula == SupervisorFormula(poscar)
  {
    var found := ScanElementLines(Lines(poscar));
    formula := if found.Some? then found.value else DefaultFormula;
  }

  /** `re.match(r'^[A-Z][a-z]?', line)` */
  function LeadingSymbol(line: string): (r: Option<string>)
    ensures r.Some? <==> |line| > 0 && IsUpper(line[0])
    ensures r.Some? ==> StartsWith(line, r.value) && Poscar.IsSymbol(r.value)
    ensures r.Some? ==> (|r.value| == 1 <==> (|line| == 1 || !IsLower(line[1])))
  {
    if |line| > 0 && IsUpper(line[0]) then
      Some(if |line| > 1 && IsLower(line[1]) then line[..2] else line[..1])
    else None
  }

  /** The leading symbol is the first symbol a full scan of the line finds. */
  lemma LeadingSymbolIsFirstScanned(line: string)
    requires LeadingSymbol(line).Some?
    ensures ElementSymbols(line) != [] && ElementSymbols(line)[0] == LeadingSymbol(line).value
  {
  }

  /** `BaseQiskitGenerator._extract_formula_from_poscar`: the supervisors' scan, then the leading symbol of line 1, then "Si". */
  method ExtractFormulaForCode(poscar: string) returns (formula: string)
    ensures ScanFormula(Lines(poscar)).Some? ==> formula == ScanFormula(Lines(poscar)).value
    ensures ScanFormula(Lines(poscar)).None? && LeadingSymbol(Strip(Lines(poscar)[0])).Some? ==>
              formula == LeadingSymbol(Strip(Lines(poscar)[0])).value
    ensures ScanFormula(Lines(poscar)).None? && LeadingSymbol(Strip(Lines(poscar)[0])).None? ==> formula == DefaultFormula
  {
    var lines := Lines(poscar);
    var found := ScanElementLines(lines);
    if found.Some? {
      return found.value;
    }
    var lead := LeadingSymbol(Strip(lines[0]));
    formula := if lead.Some? then lead.value else DefaultFormula;
  }

  /** `StrandsCoordinator._extract_formula`: the first symbol of the first element line, else "Si". */
  function FirstElement(poscar: string): (f: string)
    ensures ElementLineAt(Lines(poscar)).None? ==> f == DefaultFormula
    ensures ElementLineAt(Lines(poscar)).Some? ==> Poscar.IsSymbol(f)
  {
    var lines := Lines(poscar);
    match ElementLineAt(lines)
    case None => DefaultFormula
    case Some(i) => Words(Strip(lines[i]))[0]
  }

  /**
   * The coordinator and the supervisors read the same element line: the
   * coordinator's formula is the first symbol of the supervisors' formula.
   */
  lemma CoordinatorAgreesWithSupervisor(poscar: string)
    requires ScanFormula(Lines(poscar)).Some?
    ensures ElementSymbols(ScanFormula(Lines(poscar)).value) != []
    ensures ElementSymbols(ScanFormula(Lines(poscar)).value)[0] == FirstElement(poscar)
  {
    var lines := Lines(poscar);
    var i := ElementLineAt(lines).value;
    var elems := Words(Strip(lines[i]));
    if i + 1 < |lines| && IsCountLine(lines[i + 1]) && |Words(Strip(lines[i + 1]))| == |elems| {
      FormulaNamesElements(elems, Words(Strip(lines[i + 1])));
    } else {
      SymbolScansAsItself(elems[0]);
    }
  }
}
