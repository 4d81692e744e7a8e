/**
 * The human-readable circuit description of the Braket MCP server: a
 * one-line summary, the structure (gate kinds and counts), a step-by-step
 * gate sequence, the expected behaviour and a complexity rating.
 */
module VisualizationUtils {
  import opened Wrappers
  import opened Text
  import opened BraketModels
  import AsciiVisualizer

  /** The message of the IndexError of `gate.qubits[k]` on a list that is too short. */
  const IndexOutOfRange: string := "list index out of range"

  function Names(gates: seq<Gate>): (r: seq<string>)
    ensures |r| == |gates| && forall k :: 0 <= k < |gates| ==> r[k] == gates[k].name
  {
    seq(|gates|, k requires 0 <= k < |gates| => gates[k].name)
  }

  // ---------------------------------------------------------------------
  // Summary
  // ---------------------------------------------------------------------

  const BellPairSummary: string := "Bell pair circuit creating quantum entanglement between 2 qubits"

  predicate AllHadamard(names: seq<string>)
  {
    forall k :: 0 <= k < |names| ==> names[k] == "h"
  }

  /** The five summaries, in the order the rules are tried. */
  datatype SummaryKind = BellPairKind | GhzKind | QftKind | SuperpositionKind | CustomKind

  /**
   * `_generate_circuit_summary`'s rules: the first that applies wins — h
   * and cx in at most four gates (Bell pair on two qubits, GHZ otherwise),
   * then a qft gate, then Hadamard gates only, then a custom circuit.
   */
  function SummaryKindOf(c: QuantumCircuit): (k: SummaryKind)
    ensures k == BellPairKind <==> "h" in Names(c.gates) && "cx" in Names(c.gates) && |c.gates| <= 4 && c.numQubits == 2
    ensures k == SuperpositionKind <==> |c.gates| >= 1 && AllHadamard(Names(c.gates))
    ensures k == CustomKind <==>
      !("h" in Names(c.gates) && "cx" in Names(c.gates) && |c.gates| <= 4) && "qft" !in Names(c.gates)
      && !(|c.gates| >= 1 && AllHadamard(Names(c.gates)))
  {
    var names := Names(c.gates);
    if "h" in names && "cx" in names && |c.gates| <= 4 then
      if c.numQubits == 2 then BellPairKind else GhzKind
    else if "qft" in names then QftKind
    else if |names| >= 1 && AllHadamard(names) then SuperpositionKind
    else CustomKind
  }

  /** The sentence of a summary kind, for the given qubit and gate numbers. */
  function Sentence(k: SummaryKind, qubits: string, gates: string): string
  {
    match k
    case BellPairKind => BellPairSummary
    case GhzKind => "GHZ state circuit creating multi-qubit entanglement across " + qubits + " qubits"
    case QftKind => "Quantum Fourier Transform circuit on " + qubits + " qubits"
    case SuperpositionKind => "Superposition circuit applying Hadamard gates to " + qubits + " qubits"
    case CustomKind => "Custom quantum circuit with " + gates + " gates on " + qubits + " qubits"
  }

  /** `_generate_circuit_summary`: the sentence of the circuit's kind. */
  function Summary(c: QuantumCircuit): string
  {
    Sentence(SummaryKindOf(c), IntToString(c.numQubits), NatToString(|c.gates|))
  }

  /** A Bell-pair circuit (two qubits, h then cx besides measurements) of at most four gates is summarised as a Bell pair. */
  lemma {:induction false} BellPairSummarised(c: QuantumCircuit)
    requires AsciiVisualizer.IsBellPair(c) && |c.gates| <= 4
    ensures SummaryKindOf(c) == BellPairKind && Summary(c) == BellPairSummary
  {
    KeptNamesOccur(c.gates, 0);
    KeptNamesOccur(c.gates, 1);
  }

  /** Every name kept by the measure_all filter is the name of some gate. */
  lemma {:induction false} KeptNamesOccur(gates: seq<Gate>, i: nat)
    requires i < |AsciiVisualizer.NamesBesidesMeasureAll(gates)|
    ensures AsciiVisualizer.NamesBesidesMeasureAll(gates)[i] in Names(gates)
  {
    var rest := AsciiVisualizer.NamesBesidesMeasureAll(gates[1..]);
    if gates[0].name == "measure_all" || i > 0 {
      var j := if gates[0].name == "measure_all" then i else i - 1;
      KeptNamesOccur(gates[1..], j);
      var k :| 0 <= k < |gates[1..]| && gates[1..][k].name == rest[j];
      assert gates[k + 1].name == rest[j];
    } else {
      assert gates[0].name == Names(gates)[0];
    }
  }

  // ---------------------------------------------------------------------
  // Structure
  // ---------------------------------------------------------------------

  /** The distinct names, in the order they first occur (the keys of the counting dict). */
  function FirstOccurrences(names: seq<string>): (r: seq<string>)
    ensures forall x :: x in r <==> x in names
  {
    if names == [] then []
    else
      var d := FirstOccurrences(names[..|names| - 1]);
      if names[|names| - 1] in d then d else d + [names[|names| - 1]]
  }

  predicate NoDuplicates(s: seq<string>)
  {
    forall i, j :: 0 <= i < j < |s| ==> s[i] != s[j]
  }

  lemma {:induction false} FirstOccurrencesDistinct(names: seq<string>)
    ensures NoDuplicates(FirstOccurrences(names))
  {
    if names != [] {
      FirstOccurrencesDistinct(names[..|names| - 1]);
    }
  }

  /** How many times x occurs. */
  function CountOf(names: seq<string>, x: string): nat
  {
    if names == [] then 0
    else CountOf(names[..|names| - 1], x) + (if names[|names| - 1] == x then 1 else 0)
  }

  lemma CountOfAbsent(names: seq<string>, x: string)
    requires x !in names
    ensures CountOf(names, x) == 0
  {
  }

  /** The sum of the counts of the given names. */
  function SumOfCounts(keys: seq<string>, names: seq<string>): nat
  {
    if keys == [] then 0 else SumOfCounts(keys[..|keys| - 1], names) + CountOf(names, keys[|keys| - 1])
  }

  /** Adding one more occurrence of y adds one to the sum when y is among the (distinct) keys, and nothing otherwise. */
  lemma {:induction false} SumOfCountsStep(keys: seq<string>, names: seq<string>, y: string)
    requires NoDuplicates(keys)
    ensures SumOfCounts(keys, names + [y]) == SumOfCounts(keys, names) + (if y in keys then 1 else 0)
  {
    assert (names + [y])[..|names|] == names;
    if keys != [] {
      var init := keys[..|keys| - 1];
      assert y in keys <==> y in init || y == keys[|keys| - 1];
      assert y == keys[|keys| - 1] ==> y !in init;
      SumOfCountsStep(init, names, y);
    }
  }

  /** The counts of the distinct names add up to the number of gates. */
  lemma {:induction false} CountsSumToTotal(names: seq<string>)
    ensures SumOfCounts(FirstOccurrences(names), names) == |names|
  {
    if names != [] {
      var init := names[..|names| - 1];
      var y := names[|names| - 1];
      assert names == init + [y];
      var d := FirstOccurrences(init);
      CountsSumToTotal(init);
      FirstOccurrencesDistinct(init);
      SumOfCountsStep(d, init, y);
      if y !in d {
        CountOfAbsent(init, y);
        assert (d + [y])[..|d|] == d;
      }
    }
  }

  datatype Structure = Structure(
    totalGates: nat,
    gateTypes: seq<string>,
    gateCounts: map<string, nat>,
    qubitsUsed: int,
    hasMeasurements: bool,
    hasEntanglingGates: bool)

  predicate HasMeasurement(names: seq<string>)
  {
    exists k :: 0 <= k < |names| && StartsWith(names[k], "measure")
  }

  predicate HasEntanglingGate(names: seq<string>)
  {
    exists k :: 0 <= k < |names| && names[k] in {"cx", "cy", "cz", "ccx"}
  }

  lemma CountOfStep(names: seq<string>, y: string, x: string)
    ensures CountOf(names + [y], x) == CountOf(names, x) + (if y == x then 1 else 0)
  {
    assert (names + [y])[..|names|] == names;
  }

  /** The counting loop: each name's count goes up by one, a new name is appended to the keys. */
  method CountNames(names: seq<string>) returns (types: seq<string>, counts: map<string, nat>)
    ensures types == FirstOccurrences(names)
    ensures forall x :: x in counts <==> x in names
    ensures forall x :: x in counts ==> counts[x] == CountOf(names, x)
  {
    types := [];
    counts := map[];
    for k := 0 to |names|
      invariant types == FirstOccurrences(names[..k])
      invariant forall x :: x in counts <==> x in names[..k]
      invariant forall x :: x in counts ==> counts[x] == CountOf(names[..k], x)
    {
      var name := names[k];
      assert names[..k + 1] == names[..k] + [name];
      assert names[..k + 1][..k] == names[..k];
      if name !in counts {
        types := types + [name];
      }
      var previous := counts;
      counts := counts[name := (if name in counts then counts[name] else 0) + 1];
      forall x | x in counts ensures counts[x] == CountOf(names[..k + 1], x) {
        CountOfStep(names[..k], name, x);
        if x == name && name !in previous {
          CountOfAbsent(names[..k], name);
        }
      }
    }
    assert names[..|names|] == names;
  }

  /** `s` is the structure of `c`: gate total, names in first-occurrence order, each name's count, width and the two flags. */
  ghost predicate StructureOf(s: Structure, c: QuantumCircuit)
  {
    && s.totalGates == |c.gates| && s.qubitsUsed == c.numQubits
    && s.gateTypes == FirstOccurrences(Names(c.gates))
    && (forall x :: x in s.gateCounts <==> x in Names(c.gates))
    && (forall x :: x in s.gateCounts ==> s.gateCounts[x] == CountOf(Names(c.gates), x))
    && (s.hasMeasurements <==> HasMeasurement(Names(c.gates)))
    && (s.hasEntanglingGates <==> HasEntanglingGate(Names(c.gates)))
  }

  /** A circuit has one structure: whatever satisfies `StructureOf` is the analysis's result. */
  lemma StructureOfUnique(s1: Structure, s2: Structure, c: QuantumCircuit)
    requires StructureOf(s1, c) && StructureOf(s2, c)
    ensures s1 == s2
  {
    assert s1.gateCounts.Keys == s2.gateCounts.Keys;
  }

  /**
   * `_analyze_circuit_structure`: counts every gate name into a dict whose
   * keys keep first-occurrence order; the counts add up to the number of gates.
   */
  method AnalyzeCircuitStructure(c: QuantumCircuit) returns (s: Structure)
    ensures StructureOf(s, c)
    ensures NoDuplicates(s.gateTypes)
    ensures forall x :: x in s.gateCounts ==> s.gateCounts[x] >= 1
    ensures SumOfCounts(s.gateTypes, Names(c.gates)) == s.totalGates
  {
    var names := Names(c.gates);
    var types, counts := CountNames(names);
    forall x | x in counts ensures counts[x] >= 1 {
      CountOfPresent(names, x);
    }
    FirstOccurrencesDistinct(names);
    CountsSumToTotal(names);
    s := Structure(|c.gates|, types, counts, c.numQubits, HasMeasurement(names), HasEntanglingGate(names));
  }

  lemma {:induction false} CountOfPresent(names: seq<string>, x: string)
    requires x in names
    ensures CountOf(names, x) >= 1
  {
    var init := names[..|names| - 1];
    if names[|names| - 1] != x {
      assert names == init + [names[|names| - 1]];
      CountOfPresent(init, x);
    }
  }

  // ---------------------------------------------------------------------
  // Gate sequence
  // ---------------------------------------------------------------------

  /** The description of the gate at position i (counted from 0), or the IndexError its qubit lookup raises. */
  function Step(i: nat, g: Gate): (r: Result<string, string>)
    ensures r.Ok? ==> StartsWith(r.value, "Step " + NatToString(i + 1) + ": ")
    ensures r.Err? <==> (g.name in {"h", "x"} && |g.qubits| < 1) || (g.name == "cx" && |g.qubits| < 2)
  {
    var prefix := "Step " + NatToString(i + 1) + ": ";
    if g.name == "h" then
      if |g.qubits| < 1 then Err(IndexOutOfRange)
      else Ok(prefix + "Apply Hadamard gate to qubit " + IntToString(g.qubits[0]) + " (creates superposition)")
    else if g.name == "x" then
      if |g.qubits| < 1 then Err(IndexOutOfRange)
      else Ok(prefix + "Apply Pauli-X gate to qubit " + IntToString(g.qubits[0]) + " (bit flip)")
    else if g.name == "cx" then
      if |g.qubits| < 2 then Err(IndexOutOfRange)
      else Ok(prefix + "Apply CNOT gate from qubit " + IntToString(g.qubits[0]) + " to qubit " + IntToString(g.qubits[1])
              + " (creates entanglement)")
    else if g.name == "measure_all" then Ok(prefix + "Measure all qubits")
    else if StartsWith(g.name, "measure") then
      Ok(prefix + "Measure qubit " + (if g.qubits != [] then IntToString(g.qubits[0]) else "unknown"))
    else Ok(prefix + "Apply " + Upper(g.name) + " gate to qubit(s) " + AsciiVisualizer.IntListText(g.qubits))
  }

  /** Whether every gate has the qubits its description reads. */
  predicate Describable(gates: seq<Gate>)
  {
    forall k :: 0 <= k < |gates| ==> Step(k, gates[k]).Ok?
  }

  /**
   * `_describe_gate_sequence`: one numbered step per gate, in order; the
   * first gate without the qubits its description reads raises.
   */
  method DescribeGateSequence(c: QuantumCircuit) returns (r: Result<seq<string>, string>)
    ensures r.Err? <==> !Describable(c.gates)
    ensures r.Err? ==> r.error == IndexOutOfRange
    ensures r.Ok? ==> |r.value| == |c.gates| && forall k :: 0 <= k < |c.gates| ==> r.value[k] == Step(k, c.gates[k]).value
  {
    var descriptions: seq<string> := [];
    for k := 0 to |c.gates|
      invariant |descriptions| == k
      invariant forall j :: 0 <= j < k ==> Step(j, c.gates[j]).Ok? && descriptions[j] == Step(j, c.gates[j]).value
    {
      var step := Step(k, c.gates[k]);
      if step.Err? {
        return Err(step.error);
      }
      descriptions := descriptions + [step.value];
    }
    return Ok(descriptions);
  }

  // ---------------------------------------------------------------------
  // Expected behaviour and complexity
  // ---------------------------------------------------------------------

  const EqualSuperposition: string := "Creates equal superposition of all computational basis states"

  /** Whether every gate other than measure_all is a Hadamard gate. */
  predicate OnlyHadamardBesidesMeasureAll(names: seq<string>)
  {
    forall k :: 0 <= k < |names| ==> names[k] == "measure_all" || names[k] == "h"
  }

  /** `_predict_circuit_behavior`: h with cx, then qft, then Hadamard gates only, then custom. */
  function PredictBehavior(c: QuantumCircuit): (r: string)
    ensures r == EqualSuperposition <==>
      !("h" in Names(c.gates) && "cx" in Names(c.gates)) && "qft" !in Names(c.gates) && OnlyHadamardBesidesMeasureAll(Names(c.gates))
  {
    var names := Names(c.gates);
    if "h" in names && "cx" in names then
      if c.numQubits == 2 then "Creates Bell state |00⟩ + |11⟩, showing perfect correlation in measurements"
      else "Creates GHZ state with " + IntToString(c.numQubits) + " qubits showing multi-party entanglement"
    else if "qft" in names then "Performs quantum Fourier transform, useful for period finding and Shor's algorithm"
    else if OnlyHadamardBesidesMeasureAll(names) then EqualSuperposition
    else "Custom quantum computation with specific gate sequence"
  }

  /** A circuit without gates, or with measure_all gates only, is predicted to create an equal superposition. */
  lemma NoGatesPredictsSuperposition(c: QuantumCircuit)
    requires forall k :: 0 <= k < |c.gates| ==> c.gates[k].name == "measure_all"
    ensures PredictBehavior(c) == EqualSuperposition
  {
  }

  datatype Complexity = Complexity(depth: nat, width: int, level: string, runtime: string)

  function LevelOf(gates: nat): string
  {
    if gates <= 5 then "low" else if gates <= 20 then "medium" else "high"
  }

  function RuntimeOf(gates: nat): string
  {
    if gates <= 10 then "fast" else if gates <= 50 then "moderate" else "slow"
  }

  function Rank(rating: string): nat
  {
    if rating in {"low", "fast"} then 0 else if rating in {"medium", "moderate"} then 1 else 2
  }

  /** `_assess_circuit_complexity`: depth is the number of gates and width the number of qubits. */
  function AssessComplexity(c: QuantumCircuit): (r: Complexity)
    ensures r.depth == |c.gates| && r.width == c.numQubits
    ensures r.level == "low" <==> |c.gates| <= 5
    ensures r.level == "high" <==> |c.gates| > 20
    ensures r.runtime == "fast" <==> |c.gates| <= 10
    ensures r.runtime == "slow" <==> |c.gates| > 50
  {
    Complexity(|c.gates|, c.numQubits, LevelOf(|c.gates|), RuntimeOf(|c.gates|))
  }

  /** More gates never rate a circuit as less complex or faster. */
  lemma ComplexityMonotone(c: QuantumCircuit, d: QuantumCircuit)
    requires |c.gates| <= |d.gates|
    ensures Rank(AssessComplexity(c).level) <= Rank(AssessComplexity(d).level)
    ensures Rank(AssessComplexity(c).runtime) <= Rank(AssessComplexity(d).runtime)
  {
  }

  // ---------------------------------------------------------------------
  // The description
  // ---------------------------------------------------------------------

  datatype Description =
    | Described(summary: string, details: Structure, gateSequence: seq<string>, expectedBehavior: string, complexity: Complexity)
    | DescribeFailed(error: string)

  /**
   * `describe_circuit`: the five parts, or {"error": "Failed to describe
   * circuit: …"} when describing a step raises.
   */
  method DescribeCircuit(c: QuantumCircuit) returns (d: Description)
    ensures d.DescribeFailed? <==> !Describable(c.gates)
    ensures d.DescribeFailed? ==> d.error == "Failed to describe circuit: " + IndexOutOfRange
    ensures d.Described? ==> (d.summary == Summary(c) && d.expectedBehavior == PredictBehavior(c)
      && d.complexity == AssessComplexity(c) && |d.gateSequence| == |c.gates|
      && StructureOf(d.details, c)
      && forall k :: 0 <= k < |c.gates| ==> Step(k, c.gates[k]) == Ok(d.gateSequence[k]))
  {
    var details := AnalyzeCircuitStructure(c);
    var steps := DescribeGateSequence(c);
    if steps.Err? {
      return DescribeFailed("Failed to describe circuit: " + steps.error);
    }
    d := Described(Summary(c), details, steps.value, PredictBehavior(c), AssessComplexity(c));
  }

  /** An h gate without qubits makes the description an error instead of raising. */
  lemma HadamardWithoutQubitFails(c: QuantumCircuit, k: nat)
    requires k < |c.gates| && c.gates[k].name == "h" && c.gates[k].qubits == []
    ensures !Describable(c.gates)
  {
    assert Step(k, c.gates[k]).Err?;
  }
}
