/**
 * The app's Braket integration: a service handle that may be missing, the
 * Bell and GHZ circuits, and VQE ansatz circuits chosen from a material's
 * formula and band gap.
 */
module BraketIntegration {
  import opened Wrappers
  import opened Values
  import opened Text
  import opened BraketModels
  import BraketService
  import BraketServer

  const NotAvailable: string := "Braket service not available"
  /** The TypeError a formula that is not a string raises when its characters are read. */
  const NotIterable: string := "object is not iterable"
  /** The TypeError of assigning a key on a response that is not a dict. */
  const NoItemAssignment: string := "object does not support item assignment"

  function Unavailable(): (v: Value)
    ensures v == BraketServer.ErrorReply(NotAvailable)
  {
    BraketServer.ErrorReply(NotAvailable)
  }

  // ---------------------------------------------------------------------
  // Qubits and ansatz for a material
  // ---------------------------------------------------------------------

  /** The qubits of the materials the integration knows by name. */
  const QubitTable: map<string, nat> := map[
    "H2" := 4, "H" := 2, "He" := 2,
    "Li" := 6, "Be" := 6, "B" := 8, "C" := 8, "N" := 8, "O" := 8, "F" := 8,
    "graphene" := 8, "diamond" := 10,
    "TiO2" := 12, "SiO2" := 10, "Al2O3" := 14]

  /** The number of upper-case letters of `s`, which stands for its atom count. */
  function CountUpper(s: string): (k: nat)
    ensures k <= |s|
    ensures (forall i :: 0 <= i < |s| ==> !IsUpper(s[i])) ==> k == 0
  {
    if s == [] then 0 else CountUpper(s[..|s| - 1]) + (if IsUpper(s[|s| - 1]) then 1 else 0)
  }

  /** `_calculate_qubits_for_material`: the table's entry, or twice the atom count clamped to [4, 16]. */
  function QubitsForMaterial(formula: string): (n: nat)
    ensures formula in QubitTable ==> n == QubitTable[formula]
    ensures formula !in QubitTable ==> 4 <= n <= 16
    ensures formula !in QubitTable && 2 <= CountUpper(formula) <= 8 ==> n == 2 * CountUpper(formula)
  {
    if formula in QubitTable then QubitTable[formula]
    else
      var base := if 2 * CountUpper(formula) > 4 then 2 * CountUpper(formula) else 4;
      if base < 16 then base else 16
  }

  /** Every material gets between 2 and 16 qubits; only H and He get fewer than 4. */
  lemma QubitsBounded(formula: string)
    ensures 2 <= QubitsForMaterial(formula) <= 16
    ensures QubitsForMaterial(formula) < 4 <==> formula == "H" || formula == "He"
  {
    if formula in QubitTable {
      assert formula in QubitTable.Keys;
    }
  }

  /** `_select_ansatz_type`: hardware-efficient above a 5 eV gap, UCCSD above 0.1 eV, adaptive otherwise or when the gap is no number. */
  function SelectAnsatz(bandGap: Value): (ansatz: string)
    ensures ansatz == "hardware_efficient" <==> Numeric(bandGap).Some? && Numeric(bandGap).value > 5.0
    ensures ansatz == "uccsd" <==> Numeric(bandGap).Some? && 0.1 < Numeric(bandGap).value <= 5.0
    ensures ansatz == "adaptive" <==> Numeric(bandGap).None? || Numeric(bandGap).value <= 0.1
  {
    match Numeric(bandGap)
    case Some(gap) => if gap > 5.0 then "hardware_efficient" else if gap > 0.1 then "uccsd" else "adaptive"
    case None => "adaptive"
  }

  /** A larger gap never selects a less constrained ansatz: adaptive, then UCCSD, then hardware-efficient. */
  lemma AnsatzMonotone(g1: real, g2: real)
    requires g1 <= g2
    ensures AnsatzRank(SelectAnsatz(Num(g1))) <= AnsatzRank(SelectAnsatz(Num(g2)))
  {
  }

  function AnsatzRank(ansatz: string): nat
  {
    if ansatz == "hardware_efficient" then 2 else if ansatz == "uccsd" then 1 else 0
  }

  // ---------------------------------------------------------------------
  // VQE ansatz gates
  // ---------------------------------------------------------------------

  function Nat(n: int): nat { if n < 0 then 0 else n }

  /** The symbolic angle `<name>_<layer>_<i>`. */
  function Angle(name: string, layer: nat, i: nat): Param
  {
    Symbol(name + "_" + NatToString(layer) + "_" + NatToString(i))
  }

  function X(q: int): Gate { Gate("x", [q], None) }
  function Ry(layer: nat, q: nat): Gate { Gate("ry", [q], Some([Angle("theta", layer, q)])) }
  function Rz(layer: nat, q: nat): Gate { Gate("rz", [q], Some([Angle("phi", layer, q)])) }

  /** How many of range(0, min(n, 4), 2) there are. */
  function XCount(n: int): nat
  {
    if n <= 0 then 0 else ((if n < 4 then n else 4) + 1) / 2
  }

  /** The UCCSD reference state: x on qubits 0 and 2 (as far as there are qubits). */
  function UccsdX(n: int): (gates: seq<Gate>)
    ensures |gates| == XCount(n) && forall j :: 0 <= j < |gates| ==> gates[j] == X(2 * j)
  {
    seq(XCount(n), j => X(2 * j))
  }

  /** How many of range(0, n - 1, 2) there are. */
  function PairCount(n: int): nat
  {
    if n <= 1 then 0 else n / 2
  }

  /** ry with angle theta_<layer>_<i> on every qubit i. */
  function RyLayer(layer: nat, n: int): (gates: seq<Gate>)
    ensures |gates| == Nat(n) && forall i :: 0 <= i < |gates| ==> gates[i] == Ry(layer, i)
  {
    seq(Nat(n), i requires 0 <= i => Ry(layer, i))
  }

  /** cx on the disjoint neighbouring pairs (0, 1), (2, 3), … */
  function PairCx(n: int): (gates: seq<Gate>)
    ensures |gates| == PairCount(n) && forall j :: 0 <= j < |gates| ==> gates[j] == BraketServer.Cx(2 * j, 2 * j + 1)
  {
    seq(PairCount(n), j => BraketServer.Cx(2 * j, 2 * j + 1))
  }

  /** The first k UCCSD layers. */
  function UccsdLayers(k: nat, n: int): (gates: seq<Gate>)
  {
    if k == 0 then [] else UccsdLayers(k - 1, n) + RyLayer(k - 1, n) + PairCx(n)
  }

  /** ry then rz on every qubit, with angles theta_<layer>_<i> and phi_<layer>_<i>. */
  function RotationPairs(layer: nat, n: int): (gates: seq<Gate>)
    ensures |gates| == 2 * Nat(n)
    ensures forall i :: 0 <= i < Nat(n) ==> gates[2 * i] == Ry(layer, i) && gates[2 * i + 1] == Rz(layer, i)
  {
    var gates := seq(2 * Nat(n), k requires 0 <= k => Rotation(layer, k));
    assert forall i :: 0 <= i < Nat(n) ==> gates[2 * i] == Ry(layer, i) && gates[2 * i + 1] == Rz(layer, i) by {
      forall i | 0 <= i < Nat(n) {
        RotationPair(layer, i);
      }
    }
    gates
  }

  /** Gate k of a rotation layer: ry on qubit k / 2 at even k, rz at odd k. */
  function Rotation(layer: nat, k: nat): Gate
  {
    if k % 2 == 0 then Ry(layer, k / 2) else Rz(layer, k / 2)
  }

  lemma RotationPair(layer: nat, i: nat)
    ensures Rotation(layer, 2 * i) == Ry(layer, i) && Rotation(layer, 2 * i + 1) == Rz(layer, i)
  {
    assert (2 * i) % 2 == 0 && (2 * i) / 2 == i;
    assert (2 * i + 1) % 2 == 1 && (2 * i + 1) / 2 == i;
  }

  /** cx from every qubit to the next, the last one wrapping round to qubit 0. */
  function RingCx(n: int): (gates: seq<Gate>)
    ensures |gates| == Nat(n) && forall i :: 0 <= i < |gates| ==> gates[i] == BraketServer.Cx(i, (i + 1) % n)
  {
    seq(Nat(n), i requires 0 <= i < Nat(n) => BraketServer.Cx(i, (i + 1) % n))
  }

  /** The first k hardware-efficient layers. */
  function HardwareLayers(k: nat, n: int): (gates: seq<Gate>)
  {
    if k == 0 then [] else HardwareLayers(k - 1, n) + RotationPairs(k - 1, n) + RingCx(n)
  }

  /** h on every qubit. */
  function Hadamards(n: int): (gates: seq<Gate>)
    ensures |gates| == Nat(n) && forall i :: 0 <= i < |gates| ==> gates[i] == BraketServer.H(i)
  {
    seq(Nat(n), i => BraketServer.H(i))
  }

  /** cx from every qubit to the next, without wrapping. */
  function Chain(n: int): (gates: seq<Gate>)
    ensures |gates| == Nat(n - 1) && forall i :: 0 <= i < |gates| ==> gates[i] == BraketServer.Cx(i, i + 1)
  {
    seq(Nat(n - 1), i => BraketServer.Cx(i, i + 1))
  }

  /** The ansatz, before the final measurement. */
  function AnsatzGates(n: int, ansatz: string): seq<Gate>
  {
    if ansatz == "uccsd" then UccsdX(n) + UccsdLayers(2, n)
    else if ansatz == "hardware_efficient" then HardwareLayers(3, n)
    else Hadamards(n) + Chain(n)
  }

  /** The gates `_generate_vqe_gates` returns: the ansatz, then measure_all. */
  function VqeGates(n: int, ansatz: string): (gates: seq<Gate>)
    ensures |gates| >= 1 && gates[|gates| - 1] == BraketServer.MeasureAllGate()
  {
    AnsatzGates(n, ansatz) + [BraketServer.MeasureAllGate()]
  }

  /** `for i in range(0, min(n, 4), 2)`: x gates on the even qubits among the first four. */
  method AppendXGates(gates: seq<Gate>, n: int) returns (r: seq<Gate>)
    ensures r == gates + UccsdX(n)
  {
    r := gates;
    var m := if n < 4 then n else 4;
    var i := 0;
    while i < m
      invariant 0 <= i && i % 2 == 0 && (i == 0 || i <= m + 1)
      invariant r == gates + UccsdX(n)[..i / 2]
      decreases m - i
    {
      assert UccsdX(n)[..i / 2 + 1] == UccsdX(n)[..i / 2] + [X(i)];
      r := r + [X(i)];
      i := i + 2;
    }
    assert UccsdX(n)[..i / 2] == UccsdX(n);
  }

  /** `for i in range(n)`: an ry on every qubit. */
  method AppendRyLayer(gates: seq<Gate>, layer: nat, n: int) returns (r: seq<Gate>)
    ensures r == gates + RyLayer(layer, n)
  {
    r := gates;
    for i := 0 to Nat(n)
      invariant r == gates + RyLayer(layer, n)[..i]
    {
      assert RyLayer(layer, n)[..i + 1] == RyLayer(layer, n)[..i] + [Ry(layer, i)];
      r := r + [Ry(layer, i)];
    }
    assert RyLayer(layer, n)[..Nat(n)] == RyLayer(layer, n);
  }

  /** `for i in range(0, n - 1, 2)`: cx on each neighbouring pair. */
  method AppendPairCx(gates: seq<Gate>, n: int) returns (r: seq<Gate>)
    ensures r == gates + PairCx(n)
  {
    r := gates;
    var i := 0;
    while i < n - 1
      invariant 0 <= i && i % 2 == 0 && (i == 0 || i <= n)
      invariant r == gates + PairCx(n)[..i / 2]
      decreases n - i
    {
      assert PairCx(n)[..i / 2 + 1] == PairCx(n)[..i / 2] + [BraketServer.Cx(i, i + 1)];
      r := r + [BraketServer.Cx(i, i + 1)];
      i := i + 2;
    }
    assert PairCx(n)[..i / 2] == PairCx(n);
  }

  /** `for i in range(n)`: ry then rz on every qubit. */
  method AppendRotationPairs(gates: seq<Gate>, layer: nat, n: int) returns (r: seq<Gate>)
    ensures r == gates + RotationPairs(layer, n)
  {
    ghost var pairs := RotationPairs(layer, n);
    r := gates;
    for i := 0 to Nat(n)
      invariant r == gates + pairs[..2 * i]
    {
      NextPair(layer, n, i);
      r := r + [Ry(layer, i)];
      r := r + [Rz(layer, i)];
    }
    assert pairs[..2 * Nat(n)] == pairs;
  }

  /** The rotation layer cut after qubit i ends in that qubit's ry and rz. */
  lemma NextPair(layer: nat, n: int, i: nat)
    requires i < Nat(n)
    ensures RotationPairs(layer, n)[..2 * (i + 1)] == RotationPairs(layer, n)[..2 * i] + [Ry(layer, i), Rz(layer, i)]
  {
    var s := RotationPairs(layer, n);
    assert s[2 * i] == Ry(layer, i) && s[2 * i + 1] == Rz(layer, i);
    assert s[..2 * i + 2] == s[..2 * i] + [s[2 * i], s[2 * i + 1]];
  }

  /** `for i in range(n)`: cx from qubit i to qubit (i + 1) mod n. */
  method AppendRingCx(gates: seq<Gate>, n: int) returns (r: seq<Gate>)
    ensures r == gates + RingCx(n)
  {
    r := gates;
    for i := 0 to Nat(n)
      invariant r == gates + RingCx(n)[..i]
    {
      assert RingCx(n)[..i + 1] == RingCx(n)[..i] + [BraketServer.Cx(i, (i + 1) % n)];
      r := r + [BraketServer.Cx(i, (i + 1) % n)];
    }
    assert RingCx(n)[..Nat(n)] == RingCx(n);
  }

  /** `for i in range(n)`: h on every qubit. */
  method AppendHadamards(gates: seq<Gate>, n: int) returns (r: seq<Gate>)
    ensures r == gates + Hadamards(n)
  {
    r := gates;
    for i := 0 to Nat(n)
      invariant r == gates + Hadamards(n)[..i]
    {
      assert Hadamards(n)[..i + 1] == Hadamards(n)[..i] + [BraketServer.H(i)];
      r := r + [BraketServer.H(i)];
    }
    assert Hadamards(n)[..Nat(n)] == Hadamards(n);
  }

  /** `for i in range(n - 1)`: cx from every qubit to the next. */
  method AppendChain(gates: seq<Gate>, n: int) returns (r: seq<Gate>)
    ensures r == gates + Chain(n)
  {
    r := gates;
    for i := 0 to Nat(n - 1)
      invariant r == gates + Chain(n)[..i]
    {
      assert Chain(n)[..i + 1] == Chain(n)[..i] + [BraketServer.Cx(i, i + 1)];
      r := r + [BraketServer.Cx(i, i + 1)];
    }
    assert Chain(n)[..Nat(n - 1)] == Chain(n);
  }

  /**
   * `_generate_vqe_gates`: the UCCSD ansatz (x reference gates, then two
   * layers of ry and paired cx), the hardware-efficient one (three layers
   * of ry/rz pairs and a cx ring) or the adaptive one (h on every qubit and
   * a cx chain), then measure_all.
   */
  method GenerateVqeGates(n: int, ansatz: string) returns (gates: seq<Gate>)
    ensures gates == VqeGates(n, ansatz)
  {
    if ansatz == "uccsd" {
      gates := UccsdGates(n);
    } else if ansatz == "hardware_efficient" {
      gates := HardwareEfficientGates(n);
    } else {
      gates := AppendHadamards([], n);
      gates := AppendChain(gates, n);
    }
    gates := gates + [BraketServer.MeasureAllGate()];
  }

  /** The UCCSD branch of `_generate_vqe_gates`, before measure_all. */
  method UccsdGates(n: int) returns (gates: seq<Gate>)
    ensures gates == UccsdX(n) + UccsdLayers(2, n)
  {
    gates := AppendXGates([], n);
    for layer := 0 to 2
      invariant gates == UccsdX(n) + UccsdLayers(layer, n)
    {
      gates := AppendRyLayer(gates, layer, n);
      gates := AppendPairCx(gates, n);
      assert UccsdLayers(layer + 1, n) == UccsdLayers(layer, n) + RyLayer(layer, n) + PairCx(n);
    }
  }

  /** The hardware-efficient branch of `_generate_vqe_gates`, before measure_all. */
  method HardwareEfficientGates(n: int) returns (gates: seq<Gate>)
    ensures gates == HardwareLayers(3, n)
  {
    gates := [];
    for layer := 0 to 3
      invariant gates == HardwareLayers(layer, n)
    {
      gates := AppendRotationPairs(gates, layer, n);
      gates := AppendRingCx(gates, n);
      assert HardwareLayers(layer + 1, n) == HardwareLayers(layer, n) + RotationPairs(layer, n) + RingCx(n);
    }
  }

  lemma {:induction false} HardwareLayersLength(k: nat, n: int)
    ensures |HardwareLayers(k, n)| == 3 * k * Nat(n)
  {
    if k > 0 {
      HardwareLayersLength(k - 1, n);
    }
  }

  lemma {:induction false} UccsdLayersLength(k: nat, n: int)
    ensures |UccsdLayers(k, n)| == k * (Nat(n) + PairCount(n))
  {
    if k > 0 {
      UccsdLayersLength(k - 1, n);
    }
  }

  /** How many gates each ansatz has on n qubits: 9n + 1 hardware-efficient, 2n adaptive, and the UCCSD count. */
  lemma VqeGateCounts(n: nat)
    ensures |VqeGates(n, "hardware_efficient")| == 9 * n + 1
    ensures n >= 1 ==> |VqeGates(n, "adaptive")| == 2 * n
    ensures |VqeGates(n, "uccsd")| == XCount(n) + 2 * (n + PairCount(n)) + 1
  {
    HardwareLayersLength(3, n);
    UccsdLayersLength(2, n);
  }

  /** Every qubit a gate names lies in [0, n). */
  ghost predicate QubitsWithin(gates: seq<Gate>, n: int)
  {
    forall k, j :: 0 <= k < |gates| && 0 <= j < |gates[k].qubits| ==> 0 <= gates[k].qubits[j] < n
  }

  lemma QubitsWithinAppend(a: seq<Gate>, b: seq<Gate>, n: int)
    requires QubitsWithin(a, n) && QubitsWithin(b, n)
    ensures QubitsWithin(a + b, n)
  {
    forall k, j | 0 <= k < |a + b| && 0 <= j < |(a + b)[k].qubits|
      ensures 0 <= (a + b)[k].qubits[j] < n
    {
      if k < |a| {
        assert (a + b)[k] == a[k];
      } else {
        assert (a + b)[k] == b[k - |a|];
      }
    }
  }

  lemma {:induction false} UccsdLayersWithin(k: nat, n: int)
    ensures QubitsWithin(UccsdLayers(k, n), n)
  {
    if k > 0 {
      UccsdLayersWithin(k - 1, n);
      QubitsWithinAppend(UccsdLayers(k - 1, n), RyLayer(k - 1, n), n);
      QubitsWithinAppend(UccsdLayers(k - 1, n) + RyLayer(k - 1, n), PairCx(n), n);
    }
  }

  lemma {:induction false} HardwareLayersWithin(k: nat, n: int)
    ensures QubitsWithin(HardwareLayers(k, n), n)
  {
    if k > 0 {
      HardwareLayersWithin(k - 1, n);
      var pairs := RotationPairs(k - 1, n);
      assert QubitsWithin(pairs, n) by {
        forall m | 0 <= m < |pairs|
          ensures pairs[m].qubits == [m / 2] && m / 2 < n
        {
          assert pairs[m] == pairs[2 * (m / 2) + m % 2];
        }
      }
      QubitsWithinAppend(HardwareLayers(k - 1, n), pairs, n);
      QubitsWithinAppend(HardwareLayers(k - 1, n) + pairs, RingCx(n), n);
    }
  }

  /** Every ansatz acts only on the circuit's own qubits, the ring's wrap-around included. */
  lemma VqeQubitsInRange(n: int, ansatz: string)
    ensures QubitsWithin(VqeGates(n, ansatz), n)
  {
    var measure := [BraketServer.MeasureAllGate()];
    if ansatz == "uccsd" {
      var xs := UccsdX(n);
      assert QubitsWithin(xs, n) by {
        forall j | 0 <= j < |xs| ensures 2 * j < n {
        }
      }
      UccsdLayersWithin(2, n);
      QubitsWithinAppend(xs, UccsdLayers(2, n), n);
    } else if ansatz == "hardware_efficient" {
      HardwareLayersWithin(3, n);
    } else {
      QubitsWithinAppend(Hadamards(n), Chain(n), n);
    }
    QubitsWithinAppend(AnsatzGates(n, ansatz), measure, n);
  }

  /**
   * The UCCSD and hardware-efficient ansätze carry symbolic angles, which
   * the circuit model's float parameters refuse; only the adaptive one is
   * a valid circuit.
   */
  lemma SymbolicAnsatzRefused(n: int, ansatz: string)
    requires n >= 1
    ensures !NumericCircuit(Circuit(n, VqeGates(n, ansatz))) <==> ansatz == "uccsd" || ansatz == "hardware_efficient"
  {
    if ansatz == "uccsd" {
      UccsdSymbolic(n);
    } else if ansatz == "hardware_efficient" {
      HardwareSymbolic(n);
    } else {
      AdaptiveNumeric(n, ansatz);
    }
  }

  lemma UccsdSymbolic(n: int)
    requires n >= 1
    ensures !NumericParams(VqeGates(n, "uccsd")[XCount(n)])
  {
    var layers := UccsdLayers(2, n);
    assert layers == UccsdLayers(1, n) + RyLayer(1, n) + PairCx(n);
    assert UccsdLayers(1, n) == [] + RyLayer(0, n) + PairCx(n);
    assert layers[0] == Ry(0, 0);
    var gates := VqeGates(n, "uccsd");
    assert gates == UccsdX(n) + layers + [BraketServer.MeasureAllGate()];
    assert gates[XCount(n)] == Ry(0, 0);
    assert Ry(0, 0).params.value[0].Symbol?;
  }

  lemma HardwareSymbolic(n: int)
    requires n >= 1
    ensures !NumericParams(VqeGates(n, "hardware_efficient")[0])
  {
    var layers := HardwareLayers(3, n);
    assert HardwareLayers(1, n) == [] + RotationPairs(0, n) + RingCx(n);
    assert HardwareLayers(1, n)[0] == Ry(0, 0);
    assert HardwareLayers(2, n)[0] == HardwareLayers(1, n)[0];
    assert layers[0] == HardwareLayers(2, n)[0];
    assert VqeGates(n, "hardware_efficient")[0] == Ry(0, 0);
    assert Ry(0, 0).params.value[0].Symbol?;
  }

  /** The adaptive ansatz always compiles: h gates, a cx chain with two qubits each, and measure_all. */
  lemma AdaptiveCompiles(n: int)
    ensures BraketService.CompileGates(VqeGates(n, "adaptive")).Ok?
  {
    var gates := VqeGates(n, "adaptive");
    forall k | 0 <= k < |gates|
      ensures gates[k].name == "qft" || (BraketService.Accepted(gates[k].name) && BraketService.HasOperands(gates[k]))
    {
      var hs := Hadamards(n);
      if k < |hs| {
        assert gates[k] == BraketServer.H(k);
      } else if k < |hs| + |Chain(n)| {
        assert gates[k] == BraketServer.Cx(k - |hs|, k - |hs| + 1);
      } else {
        assert gates[k] == BraketServer.MeasureAllGate();
      }
    }
    BraketService.CompilesIffWellFormed(gates);
  }

  lemma AdaptiveNumeric(n: int, ansatz: string)
    requires ansatz != "uccsd" && ansatz != "hardware_efficient"
    ensures NumericCircuit(Circuit(n, VqeGates(n, ansatz)))
  {
    var gates := VqeGates(n, ansatz);
    forall k | 0 <= k < |gates| ensures gates[k].params.None? {
      if k < Nat(n) {
        assert gates[k] == Hadamards(n)[k];
      } else if k < |gates| - 1 {
        assert gates[k] == Chain(n)[k - Nat(n)];
      }
    }
  }

  // ---------------------------------------------------------------------
  // The integration object
  // ---------------------------------------------------------------------

  /** The service handle: the real one with its region and workspace, or the mock built without them. */
  datatype Service = Service(region: Option<string>, workspaceDir: Option<string>)

  class Integration {
    var available: bool
    var service: Option<Service>

    /**
     * Availability is whether the Braket modules imported. When they did,
     * a service is made for AWS_REGION (default us-east-1) and
     * BRAKET_WORKSPACE_DIR (default ~/quantum_workspace); if that fails,
     * a bare service is made instead.
     */
    constructor (imported: bool, region: Option<string>, workspaceDir: Option<string>, home: string, init: Result<(), string>)
      ensures available == imported
      ensures !imported ==> service.None?
      ensures imported && init.Ok? ==>
        service == Some(Service(Some(if region.Some? then region.value else "us-east-1"),
                                Some(if workspaceDir.Some? then workspaceDir.value else home + "/quantum_workspace")))
      ensures imported && init.Err? ==> service == Some(Service(None, None))
    {
      available := imported;
      if imported {
        if init.Ok? {
          service := Some(Service(Some(if region.Some? then region.value else "us-east-1"),
                                  Some(if workspaceDir.Some? then workspaceDir.value else home + "/quantum_workspace")));
        } else {
          service := Some(Service(None, None));
        }
      } else {
        service := None;
      }
    }

    /** `is_available` */
    predicate IsAvailable()
      reads this
    {
      available && service.Some?
    }

    /** `create_bell_pair_circuit` */
    method CreateBellPairCircuit(backend: BraketServer.Backend) returns (reply: Value)
      ensures !IsAvailable() ==> reply == Unavailable()
      ensures IsAvailable() ==>
        var c := BraketServer.BellCircuit();
        BraketService.CompileGates(c.gates).Ok? &&
        var drawn := backend.draw(BraketService.QiskitCircuit(2, 0, BraketService.CompileGates(c.gates).value));
        reply == (if drawn.Ok? then backend.respond(c, drawn.value, "bell_pair")
                  else BraketServer.ErrorReply("Error creating circuit visualization: " + drawn.error))
    {
      if !IsAvailable() {
        return Unavailable();
      }
      var c := BraketServer.BellCircuit();
      BraketService.CompilesIffWellFormed(c.gates);
      reply := BraketServer.VisualizeToolCircuit(c, "bell_pair", backend);
    }

    /** `create_ghz_circuit`: the same gates as the server's GHZ tool. */
    method CreateGhzCircuit(n: int, backend: BraketServer.Backend) returns (reply: Value)
      ensures !IsAvailable() ==> reply == Unavailable()
      ensures IsAvailable() ==>
        var gates := BraketServer.GhzToolGates(n);
        BraketService.CompileGates(gates).Ok? &&
        var drawn := backend.draw(BraketService.QiskitCircuit(n, 0, BraketService.CompileGates(gates).value));
        reply == (if drawn.Ok? then backend.respond(Circuit(n, gates), drawn.value, "ghz")
                  else BraketServer.ErrorReply("Error creating circuit visualization: " + drawn.error))
    {
      if !IsAvailable() {
        return Unavailable();
      }
      reply := BraketServer.CreateGhzCircuitTool(n, backend);
    }

    /** `create_custom_circuit`: the gate dicts read as by the server's circuit tool. */
    method CreateCustomCircuit(n: int, gateDicts: seq<Value>, backend: BraketServer.Backend) returns (reply: Value)
      ensures !IsAvailable() ==> reply == Unavailable()
      ensures IsAvailable() && GatesOf(gateDicts).Err? ==> reply == BraketServer.ErrorReply(GatesOf(gateDicts).error)
      ensures IsAvailable() && GatesOf(gateDicts).Ok? && BraketService.CompileGates(GatesOf(gateDicts).value).Err? ==>
        reply == BraketServer.ErrorReply("Error creating circuit visualization: "
                                         + (BraketService.CreationPrefix + BraketService.CompileGates(GatesOf(gateDicts).value).error))
      ensures IsAvailable() && GatesOf(gateDicts).Ok? && BraketService.CompileGates(GatesOf(gateDicts).value).Ok? ==>
        var drawn := backend.draw(BraketService.QiskitCircuit(n, 0, BraketService.CompileGates(GatesOf(gateDicts).value).value));
        reply == (if drawn.Ok? then backend.respond(Circuit(n, GatesOf(gateDicts).value), drawn.value, "custom")
                  else BraketServer.ErrorReply("Error creating circuit visualization: " + drawn.error))
    {
      if !IsAvailable() {
        return Unavailable();
      }
      reply := BraketServer.CreateQuantumCircuitTool(n, gateDicts, backend);
    }

    /**
     * `create_vqe_circuit`: qubits from the formula (default H2), the
     * ansatz from the band gap (default 0.0), the ansatz circuit's
     * visualisation, and the material context added to the response.
     */
    method CreateVqeCircuit(material: map<string, Value>, backend: BraketServer.Backend) returns (reply: Value)
      ensures !IsAvailable() ==> reply == Unavailable()
      ensures IsAvailable() && !FormulaOf(material).Str? ==> reply == BraketServer.ErrorReply(NotIterable)
      ensures IsAvailable() && FormulaOf(material).Str? && SelectAnsatz(BandGapOf(material)) != "adaptive" ==>
        reply == BraketServer.ErrorReply(ValidationError)
      ensures IsAvailable() && FormulaOf(material).Str? && SelectAnsatz(BandGapOf(material)) == "adaptive" ==>
        var n := QubitsForMaterial(FormulaOf(material).s);
        var gates := VqeGates(n, "adaptive");
        BraketService.CompileGates(gates).Ok? &&
        var drawn := backend.draw(BraketService.QiskitCircuit(n, 0, BraketService.CompileGates(gates).value));
        reply == (if drawn.Err? then BraketServer.ErrorReply("Error creating circuit visualization: " + drawn.error)
                  else match backend.respond(Circuit(n, gates), drawn.value, "vqe_" + FormulaOf(material).s)
                       case Dict(fields) => Dict(fields["material_context" := MaterialContext(material, "adaptive")])
                       case _ => BraketServer.ErrorReply(NoItemAssignment))
      ensures IsAvailable() && reply.Dict? && "material_context" in reply.fields ==>
        FormulaOf(material).Str? && SelectAnsatz(BandGapOf(material)) == "adaptive"
        && reply.fields["material_context"] == MaterialContext(material, "adaptive")
    {
      if !IsAvailable() {
        return Unavailable();
      }
      var formula := FormulaOf(material);
      if !formula.Str? {
        return BraketServer.ErrorReply(NotIterable);
      }
      var n := QubitsForMaterial(formula.s);
      var ansatz := SelectAnsatz(BandGapOf(material));
      var gates := GenerateVqeGates(n, ansatz);
      if n >= 1 {
        SymbolicAnsatzRefused(n, ansatz);
      }
      QubitsBounded(formula.s);
      if ansatz == "adaptive" {
        AdaptiveCompiles(n);
      }
      if !NumericCircuit(Circuit(n, gates)) {
        return BraketServer.ErrorReply(ValidationError);
      }
      var r := BraketService.CreateCircuitVisualization(Circuit(n, gates), "vqe_" + formula.s, backend.draw, backend.respond);
      if r.Err? {
        return BraketServer.ErrorReply(r.error);
      }
      if !r.value.Dict? {
        return BraketServer.ErrorReply(NoItemAssignment);
      }
      reply := Dict(r.value.fields["material_context" := MaterialContext(material, ansatz)]);
    }

    /** `get_braket_status`: the capabilities and supported circuits exist only while the service is available. */
    function GetBraketStatus(): (status: Value)
      reads this
      ensures status.Dict? && status.fields.Keys == {"available", "service_initialized", "capabilities", "supported_circuits"}
      ensures status.fields["available"] == Bool(IsAvailable())
      ensures status.fields["service_initialized"] == Bool(service.Some?)
      ensures IsAvailable() ==> status.fields["capabilities"].List? && |status.fields["capabilities"].items| == 7
      ensures IsAvailable() ==> status.fields["supported_circuits"].List? && |status.fields["supported_circuits"].items| == 5
      ensures !IsAvailable() ==> status.fields["capabilities"] == List([]) && status.fields["supported_circuits"] == List([])
    {
      Dict(map[
        "available" := Bool(IsAvailable()),
        "service_initialized" := Bool(service.Some?),
        "capabilities" := if IsAvailable() then List(Capabilities) else List([]),
        "supported_circuits" := if IsAvailable() then List(SupportedCircuits) else List([])])
    }
  }

  const Capabilities: seq<Value> := [
    Str("Circuit Creation"), Str("ASCII Visualization"), Str("Device Listing"), Str("Local Simulation"),
    Str("AWS Simulator Access"), Str("VQE Circuit Generation"), Str("Material-Specific Circuits")]

  const SupportedCircuits: seq<Value> := [
    Str("Bell Pair"), Str("GHZ State"), Str("Custom Circuits"), Str("VQE Ansatz"), Str("Material-Based Circuits")]

  /** `material_data.get('formula', 'H2')` */
  function FormulaOf(material: map<string, Value>): Value
  {
    if "formula" in material then material["formula"] else Str("H2")
  }

  /** `material_data.get('band_gap', 0.0)` */
  function BandGapOf(material: map<string, Value>): Value
  {
    if "band_gap" in material then material["band_gap"] else Num(0.0)
  }

  /** The material context added to a VQE response. */
  function MaterialContext(material: map<string, Value>, ansatz: string): Value
  {
    Dict(map[
      "formula" := FormulaOf(material),
      "band_gap" := BandGapOf(material),
      "formation_energy" := if "formation_energy" in material then material["formation_energy"] else Num(0.0),
      "ansatz_type" := Str(ansatz),
      "qubit_mapping" := Str("Jordan-Wigner")])
  }
}
