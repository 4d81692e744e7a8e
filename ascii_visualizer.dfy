/**
 * Text pictures of circuits and measurement results for the Braket MCP
 * server: one wire per qubit with a column per gate, the circuit-kind
 * checks behind its description, and a histogram of the counts with the
 * Bell and GHZ count patterns.
 */
module AsciiVisualizer {
  import opened Wrappers
  import opened Text
  import opened BraketModels

  /** The message of the ValueError `max()` raises on a circuit with no qubits. */
  const NoQubits: string := "max() arg is an empty sequence"
  /** The message of the ZeroDivisionError of a histogram whose largest or total count is zero. */
  const DivisionByZero: string := "division by zero"

  const MaxBarLength: nat := 40

  /** How numbers are printed: `f"{x:.2f}"` and `str(x)`. */
  datatype NumberFormat = NumberFormat(fixed2: real -> string, plain: real -> string)

  function Dashes(k: nat): (r: string)
    ensures |r| == k
  {
    seq(k, _ => '─')
  }

  /** `f"q{i}: "` */
  function Label(i: nat): string
  {
    "q" + NatToString(i) + ": "
  }

  /** `max(len(f"q{i}: ") for i in range(n))` */
  function LabelWidth(n: nat): (w: nat)
    requires n >= 1
    ensures forall i :: 0 <= i < n ==> |Label(i)| <= w
  {
    if n == 1 then |Label(0)|
    else if |Label(n - 1)| <= LabelWidth(n - 1) then LabelWidth(n - 1) else |Label(n - 1)|
  }

  /** Line i after the padding: its label and wire up to the widest label. */
  function Padded(i: nat, n: nat): (r: string)
    requires i < n
    ensures |r| == LabelWidth(n)
  {
    Label(i) + Dashes(LabelWidth(n) - |Label(i)|)
  }

  // ---------------------------------------------------------------------
  // One column per gate
  // ---------------------------------------------------------------------

  predicate IsSingleQubit(name: string) { name in {"h", "x", "y", "z", "s", "t"} }
  predicate IsRotation(name: string) { name in {"rx", "ry", "rz"} }

  /** `gate.qubits[k] if len(gate.qubits) > k else default` */
  function QubitOr(g: Gate, k: nat, default: int): int
  {
    if |g.qubits| > k then g.qubits[k] else default
  }

  /** The rotation's parameter as printed in its column: `(0.79)` for a number, `(theta_0_1)` for a name, `(0.00)` when there is none. */
  function ParamLabel(g: Gate, fmt: NumberFormat): string
  {
    if g.params.Some? && g.params.value != [] then
      match g.params.value[0]
      case Angle(r) => "(" + fmt.fixed2(r) + ")"
      case Symbol(s) => "(" + s + ")"
    else "(" + fmt.fixed2(0.0) + ")"
  }

  /** The parameter as `str(param)` prints it in the gate's description. */
  function ParamText(g: Gate, fmt: NumberFormat): string
  {
    if g.params.Some? && g.params.value != [] then
      match g.params.value[0]
      case Angle(r) => fmt.plain(r)
      case Symbol(s) => s
    else "0"
  }

  /** The text drawn on the gate's own qubit line. */
  function Symbol(g: Gate, fmt: NumberFormat): string
  {
    if IsSingleQubit(g.name) || IsRotation(g.name) then
      var symbol := Upper(g.name);
      if IsRotation(g.name) then symbol + ParamLabel(g, fmt) else symbol
    else
      var upper := Upper(g.name);
      if |upper| <= 3 then upper else upper[..3]
  }

  /** Every line gets the same number of characters for a gate. */
  function Width(g: Gate, fmt: NumberFormat): nat
  {
    if g.name in {"measure_all", "cx", "swap"} then 3 else |Symbol(g, fmt)| + 2
  }

  /** The qubits a generic gate is drawn on: its own, or qubit 0 when it names none. */
  function Affected(g: Gate): seq<int>
  {
    if g.qubits == [] then [0] else g.qubits
  }

  /** What line i gets for the gate. */
  function Segment(g: Gate, i: int, fmt: NumberFormat): (r: string)
    ensures |r| == Width(g, fmt)
  {
    if g.name == "measure_all" then "─M─"
    else if IsSingleQubit(g.name) || IsRotation(g.name) then
      if i == QubitOr(g, 0, 0) then "─" + Symbol(g, fmt) + "─" else Dashes(|Symbol(g, fmt)| + 2)
    else if g.name == "cx" then
      if i == QubitOr(g, 0, 0) then "─●─" else if i == QubitOr(g, 1, 1) then "─X─" else "─│─"
    else if g.name == "swap" then
      if i == QubitOr(g, 0, 0) || i == QubitOr(g, 1, 1) then "─x─" else "─│─"
    else
      if i in Affected(g) then "─" + Symbol(g, fmt) + "─" else Dashes(|Symbol(g, fmt)| + 2)
  }

  /** `str(list)` for a list of ints. */
  function IntListText(xs: seq<int>): string
  {
    "[" + Join(seq(|xs|, k requires 0 <= k < |xs| => IntToString(xs[k])), ", ") + "]"
  }

  /** The gate's entry in `gate_sequence`. */
  function Describe(g: Gate, fmt: NumberFormat): string
  {
    if g.name == "measure_all" then "Measure all qubits"
    else if IsSingleQubit(g.name) then Symbol(g, fmt) + " gate on qubit " + IntToString(QubitOr(g, 0, 0))
    else if IsRotation(g.name) then
      Upper(g.name) + " rotation gate on qubit " + IntToString(QubitOr(g, 0, 0)) + " with parameter " + ParamText(g, fmt)
    else if g.name == "cx" then
      "CNOT gate: control qubit " + IntToString(QubitOr(g, 0, 0)) + ", target qubit " + IntToString(QubitOr(g, 1, 1))
    else if g.name == "swap" then
      "SWAP gate between qubits " + IntToString(QubitOr(g, 0, 0)) + " and " + IntToString(QubitOr(g, 1, 1))
    else g.name + " gate on qubits " + IntListText(Affected(g))
  }

  function TotalWidth(gates: seq<Gate>, fmt: NumberFormat): nat
  {
    if gates == [] then 0 else TotalWidth(gates[..|gates| - 1], fmt) + Width(gates[|gates| - 1], fmt)
  }

  /** What line i has gained from the gates, one column after another. */
  function Row(gates: seq<Gate>, i: int, fmt: NumberFormat): (r: string)
    ensures |r| == TotalWidth(gates, fmt)
  {
    if gates == [] then "" else Row(gates[..|gates| - 1], i, fmt) + Segment(gates[|gates| - 1], i, fmt)
  }

  function CircuitLines(c: QuantumCircuit, fmt: NumberFormat): (lines: seq<string>)
    requires c.numQubits >= 1
    ensures |lines| == c.numQubits
  {
    seq(c.numQubits, i requires 0 <= i < c.numQubits => Padded(i, c.numQubits) + Row(c.gates, i, fmt))
  }

  function GateSequence(gates: seq<Gate>, fmt: NumberFormat): (r: seq<string>)
    ensures |r| == |gates|
  {
    seq(|gates|, k requires 0 <= k < |gates| => Describe(gates[k], fmt))
  }

  // ---------------------------------------------------------------------
  // Circuit kinds and the description
  // ---------------------------------------------------------------------

  /** The gate names without the measure_all gates, in order. */
  function NamesBesidesMeasureAll(gates: seq<Gate>): seq<string>
  {
    if gates == [] then []
    else (if gates[0].name == "measure_all" then [] else [gates[0].name]) + NamesBesidesMeasureAll(gates[1..])
  }

  predicate IsBellPair(c: QuantumCircuit)
  {
    c.numQubits == 2 && NamesBesidesMeasureAll(c.gates) == ["h", "cx"]
  }

  function Repeat(s: string, k: nat): (r: seq<string>)
    ensures |r| == k && forall i :: 0 <= i < k ==> r[i] == s
  {
    seq(k, _ => s)
  }

  predicate IsGhzState(c: QuantumCircuit)
  {
    c.numQubits >= 3 && NamesBesidesMeasureAll(c.gates) == ["h"] + Repeat("cx", c.numQubits - 1)
  }

  predicate HasGateNamed(gates: seq<Gate>, names: set<string>)
  {
    exists k :: 0 <= k < |gates| && gates[k].name in names
  }

  /** `s.capitalize()`: the first character upper-cased and the rest lower-cased. */
  function Capitalize(s: string): string
  {
    if s == [] then [] else [UpperChar(s[0])] + Lower(s[1..])
  }

  /** The effects the description lists, in this order, or "applies quantum operations" when there are none. */
  function Effects(gates: seq<Gate>): (r: seq<string>)
    ensures r != []
  {
    var found := (if HasGateNamed(gates, {"h"}) then ["creates superposition"] else [])
      + (if HasGateNamed(gates, {"cx", "cy", "cz"}) then ["creates entanglement"] else [])
      + (if HasGateNamed(gates, {"measure", "measure_all"}) then ["includes measurements"] else []);
    if found == [] then ["applies quantum operations"] else found
  }

  function CircuitDescription(c: QuantumCircuit): string
  {
    var base := IntToString(c.numQubits) + "-qubit circuit that " + Join(Effects(c.gates), ", ");
    if IsBellPair(c) then "Bell pair circuit: " + base
    else if IsGhzState(c) then "GHZ state circuit: " + base
    else if HasGateNamed(c.gates, {"qft"}) then "Quantum Fourier Transform: " + base
    else Capitalize(base)
  }

  datatype AsciiCircuit = AsciiCircuit(
    asciiCircuit: string,
    gateSequence: seq<string>,
    numQubits: int,
    numGates: nat,
    description: string)

  /** The labelled lines, each padded with wire up to the widest label. */
  method LabelledLines(n: nat) returns (lines: array<string>)
    requires n >= 1
    ensures fresh(lines) && lines.Length == n
    ensures forall j :: 0 <= j < n ==> lines[j] == Padded(j, n)
  {
    lines := new string[n];
    var maxPos := 0;
    for i := 0 to n
      invariant forall j :: 0 <= j < i ==> lines[j] == Label(j)
      invariant i == 0 ==> maxPos == 0
      invariant i >= 1 ==> maxPos == LabelWidth(i)
    {
      lines[i] := Label(i);
      if i == 0 || maxPos < |Label(i)| {
        maxPos := |Label(i)|;
      }
    }
    for i := 0 to n
      invariant forall j :: 0 <= j < i ==> lines[j] == Padded(j, n)
      invariant forall j :: i <= j < n ==> lines[j] == Label(j)
    {
      lines[i] := lines[i] + Dashes(maxPos - |Label(i)|);
    }
  }

  /** Appends the gate's column to every line. */
  method AppendColumn(lines: array<string>, g: Gate, fmt: NumberFormat)
    modifies lines
    ensures forall j :: 0 <= j < lines.Length ==> lines[j] == old(lines[j]) + Segment(g, j, fmt)
  {
    for i := 0 to lines.Length
      invariant forall j :: 0 <= j < i ==> lines[j] == old(lines[j]) + Segment(g, j, fmt)
      invariant forall j :: i <= j < lines.Length ==> lines[j] == old(lines[j])
    {
      lines[i] := lines[i] + Segment(g, i, fmt);
    }
  }

  lemma RowStep(gates: seq<Gate>, k: nat, i: int, fmt: NumberFormat)
    requires k < |gates|
    ensures Row(gates[..k + 1], i, fmt) == Row(gates[..k], i, fmt) + Segment(gates[k], i, fmt)
  {
    assert gates[..k + 1][..k] == gates[..k];
  }

  /** Every line of `base` followed by its row of the gates `gs`. */
  function Drawn(base: seq<string>, gs: seq<Gate>, fmt: NumberFormat): (lines: seq<string>)
    ensures |lines| == |base|
  {
    seq(|base|, j requires 0 <= j < |base| => base[j] + Row(gs, j, fmt))
  }

  /** Appending gate `k`'s column to the lines drawn with the first `k` gates draws the first `k + 1`. */
  lemma DrawnStep(base: seq<string>, before: seq<string>, after: seq<string>, gates: seq<Gate>, k: nat, fmt: NumberFormat)
    requires k < |gates| && before == Drawn(base, gates[..k], fmt) && |after| == |before|
    requires forall j :: 0 <= j < |after| ==> after[j] == before[j] + Segment(gates[k], j, fmt)
    ensures after == Drawn(base, gates[..k + 1], fmt)
  {
    forall j | 0 <= j < |after| ensures after[j] == Drawn(base, gates[..k + 1], fmt)[j] {
      RowStep(gates, k, j, fmt);
    }
  }

  /** The gate loop of `circuit_to_ascii`: each gate's column appended to every line, and its description collected. */
  method DrawGates(lines: array<string>, gates: seq<Gate>, fmt: NumberFormat) returns (descriptions: seq<string>)
    modifies lines
    ensures |descriptions| == |gates| && forall j :: 0 <= j < |gates| ==> descriptions[j] == Describe(gates[j], fmt)
    ensures lines[..] == Drawn(old(lines[..]), gates, fmt)
  {
    descriptions := [];
    ghost var start := lines[..];
    assert start == Drawn(start, gates[..0], fmt) by {
      assert gates[..0] == [];
      forall j | 0 <= j < |start| ensures Drawn(start, [], fmt)[j] == start[j] {
        assert start[j] + "" == start[j];
      }
    }
    for k := 0 to |gates|
      invariant |descriptions| == k
      invariant forall j :: 0 <= j < k ==> descriptions[j] == Describe(gates[j], fmt)
      invariant lines[..] == Drawn(start, gates[..k], fmt)
    {
      ghost var before := lines[..];
      AppendColumn(lines, gates[k], fmt);
      DrawnStep(start, before, lines[..], gates, k, fmt);
      descriptions := descriptions + [Describe(gates[k], fmt)];
    }
    assert gates[..|gates|] == gates;
  }

  /**
   * `circuit_to_ascii`: label and pad every line, then append each gate's
   * column to every line; a circuit without qubits raises in `max()`.
   */
  method CircuitToAscii(c: QuantumCircuit, fmt: NumberFormat) returns (r: Result<AsciiCircuit, string>)
    ensures c.numQubits <= 0 ==> r == Err(NoQubits)
    ensures c.numQubits >= 1 ==> r == Ok(AsciiCircuit(Join(CircuitLines(c, fmt), "\n"), GateSequence(c.gates, fmt),
                                                      c.numQubits, |c.gates|, CircuitDescription(c)))
  {
    var n := c.numQubits;
    if n <= 0 {
      return Err(NoQubits);
    }
    var lines := LabelledLines(n);
    ghost var padded := lines[..];
    var descriptions := DrawGates(lines, c.gates, fmt);
    assert descriptions == GateSequence(c.gates, fmt);
    assert lines[..] == CircuitLines(c, fmt) by {
      forall j | 0 <= j < n ensures lines[..][j] == CircuitLines(c, fmt)[j] {
        assert padded[j] == Padded(j, n);
      }
    }
    r := Ok(AsciiCircuit(Join(lines[..], "\n"), descriptions, n, |c.gates|, CircuitDescription(c)));
  }


  /** After the padding and after every gate all lines are equally long: the widest label plus every gate's column. */
  lemma LinesEqualLength(c: QuantumCircuit, fmt: NumberFormat)
    requires c.numQubits >= 1
    ensures forall i :: 0 <= i < c.numQubits ==>
      |CircuitLines(c, fmt)[i]| == LabelWidth(c.numQubits) + TotalWidth(c.gates, fmt)
  {
  }

  /** In a cx column the control line gets a dot, the target line an X, every other line a vertical bar. */
  lemma CnotColumn(g: Gate, i: int, fmt: NumberFormat)
    requires g.name == "cx" && |g.qubits| >= 2
    ensures i == g.qubits[0] ==> Segment(g, i, fmt) == "─●─"
    ensures i != g.qubits[0] && i == g.qubits[1] ==> Segment(g, i, fmt) == "─X─"
    ensures i != g.qubits[0] && i != g.qubits[1] ==> Segment(g, i, fmt) == "─│─"
  {
  }

  /** A measure_all gate puts the same M on every line. */
  lemma MeasureAllColumn(g: Gate, i: int, j: int, fmt: NumberFormat)
    requires g.name == "measure_all"
    ensures Segment(g, i, fmt) == Segment(g, j, fmt) == "─M─"
  {
  }

  // ---------------------------------------------------------------------
  // Results: histogram and count patterns
  // ---------------------------------------------------------------------

  /** Python's `<` on strings: code point by code point, a proper prefix first. */
  predicate LexLess(a: string, b: string)
    decreases |a|
  {
    (a == [] && b != []) || (a != [] && b != [] && (a[0] < b[0] || (a[0] == b[0] && LexLess(a[1..], b[1..]))))
  }

  lemma {:induction false} LexLessTransitive(a: string, b: string, c: string)
    requires LexLess(a, b) && LexLess(b, c)
    ensures LexLess(a, c)
    decreases |a|
  {
    if a != [] && a[0] == b[0] && b[0] == c[0] {
      LexLessTransitive(a[1..], b[1..], c[1..]);
    }
  }

  lemma {:induction false} LexLessTotal(a: string, b: string)
    requires a != b
    ensures LexLess(a, b) || LexLess(b, a)
    decreases |a|
  {
    if a != [] && b != [] && a[0] == b[0] {
      assert a == [a[0]] + a[1..];
      assert b == [b[0]] + b[1..];
      LexLessTotal(a[1..], b[1..]);
    }
  }

  lemma {:induction false} LexLessIrreflexive(a: string)
    ensures !LexLess(a, a)
    decreases |a|
  {
    if a != [] {
      LexLessIrreflexive(a[1..]);
    }
  }

  /** The smallest string of a non-empty set. */
  ghost function Least(s: set<string>): (m: string)
    requires s != {}
    ensures m in s && forall x :: x in s && x != m ==> LexLess(m, x)
    decreases |s|
  {
    var x :| x in s;
    if s == {x} then x
    else
      var m := Least(s - {x});
      if LexLess(x, m) then
        assert forall y :: y in s && y != x ==> LexLess(x, y) by {
          forall y | y in s && y != x ensures LexLess(x, y) {
            if y != m {
              LexLessTransitive(x, m, y);
            }
          }
        }
        x
      else
        LexLessTotal(x, m);
        m
  }

  /** `sorted(keys)` */
  ghost function Sorted(s: set<string>): (r: seq<string>)
    ensures |r| == |s|
    ensures forall k :: 0 <= k < |r| ==> r[k] in s
    ensures forall x :: x in s ==> x in r
    decreases |s|
  {
    if s == {} then []
    else
      var m := Least(s);
      [m] + Sorted(s - {m})
  }

  /** Each sorted state comes strictly before the next, so none comes twice. */
  lemma {:induction false} SortedIncreasing(s: set<string>)
    ensures forall i :: 0 <= i < |Sorted(s)| - 1 ==> LexLess(Sorted(s)[i], Sorted(s)[i + 1])
    decreases |s|
  {
    if s != {} {
      var m := Least(s);
      var rest := Sorted(s - {m});
      SortedIncreasing(s - {m});
      var r := Sorted(s);
      assert r == [m] + rest;
      forall i | 0 <= i < |r| - 1 ensures LexLess(r[i], r[i + 1]) {
        if i == 0 {
          assert r[1] == rest[0] && rest[0] in s - {m};
        } else {
          assert r[i] == rest[i - 1] && r[i + 1] == rest[i];
        }
      }
    }
  }

  /** `int(x)` of a rational `a / b`: truncation toward zero. */
  function TruncDiv(a: int, b: int): int
    requires b != 0
  {
    var q := (if a < 0 then -a else a) / (if b < 0 then -b else b);
    if (a < 0) == (b < 0) || a == 0 then q else -q
  }

  /** `int((count / max_count) * 40)` */
  function BarLength(count: int, maxCount: int): int
    requires maxCount != 0
  {
    TruncDiv(count * MaxBarLength, maxCount)
  }

  /** A count between zero and the largest count gets a bar of at most 40 blocks, the largest exactly 40. */
  lemma BarLengthBounded(count: int, maxCount: int)
    requires 0 <= count <= maxCount && maxCount > 0
    ensures 0 <= BarLength(count, maxCount) <= MaxBarLength
    ensures count == maxCount ==> BarLength(count, maxCount) == MaxBarLength
  {
    var a: nat := count * MaxBarLength;
    assert BarLength(count, maxCount) == a / maxCount;
    DivBounded(a, maxCount, MaxBarLength);
    if count == maxCount {
      DivExact(maxCount, MaxBarLength);
    }
  }

  lemma DivBounded(a: nat, b: nat, bound: nat)
    requires b > 0 && a <= b * bound
    ensures 0 <= a / b <= bound
  {
  }

  lemma DivExact(b: nat, k: nat)
    requires b > 0
    ensures (b * k) / b == k
  {
    var q := (b * k) / b;
    assert b * k == b * q + (b * k) % b;
    if q < k {
      MulMonotone(b, q, k - 1);
      assert false;
    } else if q > k {
      MulMonotone(b, k + 1, q);
      assert false;
    }
  }

  lemma MulMonotone(b: nat, x: int, y: int)
    requires x <= y
    ensures b * x <= b * y
  {
    assert b * y - b * x == b * (y - x);
  }

  /** `max(counts.values())` over the given states. */
  function MaxOf(states: seq<string>, counts: map<string, int>): (m: int)
    requires states != [] && forall k :: 0 <= k < |states| ==> states[k] in counts
    ensures (exists k :: 0 <= k < |states| && counts[states[k]] == m)
    ensures forall k :: 0 <= k < |states| ==> counts[states[k]] <= m
  {
    if |states| == 1 then counts[states[0]]
    else
      var m := MaxOf(states[1..], counts);
      assert forall k :: 1 <= k < |states| ==> states[k] == states[1..][k - 1];
      if counts[states[0]] >= m then counts[states[0]] else m
  }

  function SumCounts(states: seq<string>, counts: map<string, int>): int
    requires forall k :: 0 <= k < |states| ==> states[k] in counts
  {
    if states == [] then 0 else counts[states[0]] + SumCounts(states[1..], counts)
  }

  /** One histogram line: the state, its bar of full blocks, and its count. */
  datatype BarLine = BarLine(state: string, bar: string, count: int)

  datatype Histogram =
    | NoMeasurementData
    | Bars(lines: seq<BarLine>, totalShots: int)

  function Bar(count: int, maxCount: int): string
    requires maxCount != 0
  {
    var len := BarLength(count, maxCount);
    seq(if len < 0 then 0 else len, _ => '█')
  }

  function BarLines(states: seq<string>, counts: map<string, int>, maxCount: int): (r: seq<BarLine>)
    requires maxCount != 0 && forall k :: 0 <= k < |states| ==> states[k] in counts
    ensures |r| == |states|
    ensures forall k :: 0 <= k < |r| ==> r[k] == BarLine(states[k], Bar(counts[states[k]], maxCount), counts[states[k]])
  {
    seq(|states|, k requires 0 <= k < |states| => BarLine(states[k], Bar(counts[states[k]], maxCount), counts[states[k]]))
  }

  /**
   * `results_to_ascii`, without the percentages and padding of each line:
   * no counts gives the "No measurement data available" message, and the
   * lines follow the states in sorted order.
   */
  ghost function ResultsToAscii(result: TaskResult): (r: Result<Histogram, string>)
    ensures (result.counts.None? || result.counts.value == map[]) ==> r == Ok(NoMeasurementData)
  {
    if result.counts.None? || result.counts.value == map[] then Ok(NoMeasurementData)
    else
      var counts := result.counts.value;
      var states := Sorted(counts.Keys);
      var total := SumCounts(states, counts);
      var maxCount := MaxOf(states, counts);
      if maxCount == 0 || total == 0 then Err(DivisionByZero)
      else Ok(Bars(BarLines(states, counts, maxCount), total))
  }

  lemma {:induction false} SumPositive(states: seq<string>, counts: map<string, int>, k0: nat)
    requires forall k :: 0 <= k < |states| ==> states[k] in counts && counts[states[k]] >= 0
    requires k0 < |states| && counts[states[k0]] > 0
    ensures SumCounts(states, counts) > 0
  {
    if k0 > 0 {
      assert states[1..][k0 - 1] == states[k0];
      SumPositive(states[1..], counts, k0 - 1);
    } else {
      SumAtLeastZero(states[1..], counts);
    }
  }

  lemma {:induction false} SumAtLeastZero(states: seq<string>, counts: map<string, int>)
    requires forall k :: 0 <= k < |states| ==> states[k] in counts && counts[states[k]] >= 0
    ensures SumCounts(states, counts) >= 0
  {
    if states != [] {
      SumAtLeastZero(states[1..], counts);
    }
  }

  /** For shot counts, not all zero: one line per state, every bar at most 40 blocks, the largest count's bar exactly 40. */
  lemma {:induction false} BarsBounded(result: TaskResult)
    requires result.counts.Some? && result.counts.value != map[]
    requires forall k :: k in result.counts.value ==> result.counts.value[k] >= 0
    requires exists k :: k in result.counts.value && result.counts.value[k] > 0
    ensures ResultsToAscii(result).Ok? && ResultsToAscii(result).value.Bars?
    ensures var h := ResultsToAscii(result).value;
      && |h.lines| == |result.counts.value|
      && (forall i :: 0 <= i < |h.lines| ==> |h.lines[i].bar| <= MaxBarLength)
      && (forall i :: 0 <= i < |h.lines| && h.lines[i].count == MaxOf(Sorted(result.counts.value.Keys), result.counts.value) ==>
            |h.lines[i].bar| == MaxBarLength)
  {
    var counts := result.counts.value;
    var states := Sorted(counts.Keys);
    var m := MaxOf(states, counts);
    var s0 :| s0 in counts && counts[s0] > 0;
    var k0 :| 0 <= k0 < |states| && states[k0] == s0;
    assert m > 0;
    SumPositive(states, counts, k0);
    var lines := BarLines(states, counts, m);
    assert ResultsToAscii(result) == Ok(Bars(lines, SumCounts(states, counts)));
    forall i | 0 <= i < |lines|
      ensures |lines[i].bar| <= MaxBarLength
      ensures lines[i].count == m ==> |lines[i].bar| == MaxBarLength
    {
      BarLengthBounded(counts[states[i]], m);
    }
  }

  /** `_detect_bell_pair_pattern`: at most the states 00 and 11, and two of them. */
  predicate BellPairPattern(counts: map<string, int>)
  {
    counts.Keys <= {"00", "11"} && |counts.Keys| == 2
  }

  lemma BellPairPatternExactly(counts: map<string, int>)
    ensures BellPairPattern(counts) <==> counts.Keys == {"00", "11"}
  {
    if counts.Keys == {"00", "11"} {
      assert |counts.Keys| == 2;
    }
    if BellPairPattern(counts) {
      if "00" !in counts.Keys {
        SubsetSize(counts.Keys, {"11"});
      }
      if "11" !in counts.Keys {
        SubsetSize(counts.Keys, {"00"});
      }
    }
  }

  lemma SubsetSize(a: set<string>, b: set<string>)
    requires a <= b
    ensures |a| <= |b|
  {
    assert b == a + (b - a);
  }

  /** `set(s) == {c}`: the string is non-empty and made of c only. */
  predicate OnlyChar(s: string, c: char)
  {
    s != [] && forall i :: 0 <= i < |s| ==> s[i] == c
  }

  /** `_detect_ghz_pattern`: two states of one length, one all zeros and the other all ones. */
  ghost predicate GhzPattern(counts: map<string, int>)
  {
    |counts.Keys| == 2 &&
    var states := Sorted(counts.Keys);
    |states[0]| == |states[1]| &&
    ((OnlyChar(states[0], '0') && OnlyChar(states[1], '1')) || (OnlyChar(states[0], '1') && OnlyChar(states[1], '0')))
  }

  function Ones(k: nat): string { seq(k, _ => '1') }
  function Zeros(k: nat): string { seq(k, _ => '0') }

  /** A two-element set sorts into its two elements, different from each other. */
  lemma TwoSorted(s: set<string>)
    requires |s| == 2
    ensures var r := Sorted(s); r[0] != r[1] && s == {r[0], r[1]} && LexLess(r[0], r[1])
  {
    var r := Sorted(s);
    SortedIncreasing(s);
    LexLessIrreflexive(r[0]);
    forall x | x in s ensures x == r[0] || x == r[1] {
      var k :| 0 <= k < |r| && r[k] == x;
    }
  }

  /** The GHZ pattern holds exactly when the states are k zeros and k ones for some k of at least one. */
  lemma GhzPatternExactly(counts: map<string, int>)
    ensures GhzPattern(counts) <==> exists k :: k >= 1 && counts.Keys == {Zeros(k), Ones(k)}
  {
    if GhzPattern(counts) {
      GhzPatternStates(counts);
    }
    if exists k :: k >= 1 && counts.Keys == {Zeros(k), Ones(k)} {
      var k :| k >= 1 && counts.Keys == {Zeros(k), Ones(k)};
      StatesAreGhz(counts, k);
    }
  }

  lemma GhzPatternStates(counts: map<string, int>)
    requires GhzPattern(counts)
    ensures exists k :: k >= 1 && counts.Keys == {Zeros(k), Ones(k)}
  {
    TwoSorted(counts.Keys);
    var r := Sorted(counts.Keys);
    var k := |r[0]|;
    if OnlyChar(r[0], '0') {
      assert r[0] == Zeros(k) && r[1] == Ones(k);
    } else {
      assert false;
    }
    assert counts.Keys == {Zeros(k), Ones(k)};
  }

  lemma StatesAreGhz(counts: map<string, int>, k: nat)
    requires k >= 1 && counts.Keys == {Zeros(k), Ones(k)}
    ensures GhzPattern(counts)
  {
    assert Zeros(k)[0] != Ones(k)[0];
    assert |counts.Keys| == 2;
    TwoSorted(counts.Keys);
    var r := Sorted(counts.Keys);
    assert r[0] in {Zeros(k), Ones(k)} && r[1] in {Zeros(k), Ones(k)};
  }
}
