/**
 * The Braket service of the Braket MCP server: the translation of a circuit
 * definition into Qiskit instructions, the GHZ and QFT circuit builders, the
 * task-status mapping, the search filters and the task runner. Qiskit, the
 * Braket SDK and boto3 are parameters.
 */
module BraketService {
  import opened Wrappers
  import opened Values
  import opened BraketModels

  /** The message of the TypeError of `None[0]`. */
  const NotSubscriptable: string := "'NoneType' object is not subscriptable"
  /** The message of the IndexError of `xs[k]` on a list that is too short. */
  const IndexOutOfRange: string := "list index out of range"

  /** The start of the TypeError of `a - b` on a non-number; Python goes on to name the two operand types. */
  const UnsupportedMinus: string := "unsupported operand type(s) for -"

  const CreationPrefix: string := "Error creating Qiskit circuit: "

  /** One Qiskit instruction; `ControlledPhase(k, c, t)` is `cp(pi / 2**k, c, t)`. */
  datatype Instr =
    | Apply(name: string, qubits: seq<int>)
    | Rotate(name: string, angle: Param, qubit: int)
    | ControlledPhase(exponent: nat, control: int, target: int)
    | Measure(qubit: int, clbit: int)
    | MeasureAll

  datatype QiskitCircuit = QiskitCircuit(numQubits: int, numClbits: int, instrs: seq<Instr>)

  predicate IsSingleQubitName(name: string) { name in {"h", "x", "y", "z", "s", "t"} }
  predicate IsRotationName(name: string) { name in {"rx", "ry", "rz"} }
  predicate IsTwoQubitName(name: string) { name in {"cx", "cnot", "cy", "cz", "swap"} }
  predicate IsThreeQubitName(name: string) { name in {"ccx", "toffoli"} }

  /** The names `create_qiskit_circuit` dispatches on. */
  predicate Accepted(name: string)
  {
    IsSingleQubitName(name) || IsRotationName(name) || IsTwoQubitName(name) || IsThreeQubitName(name)
    || name == "measure" || name == "measure_all"
  }

  /** Whether the gate has what its branch reads: a parameter and a qubit for a rotation, two or three qubits for a controlled gate. */
  predicate HasOperands(g: Gate)
  {
    && (IsRotationName(g.name) ==> g.params.Some? && g.params.value != [] && g.qubits != [])
    && (IsTwoQubitName(g.name) ==> |g.qubits| >= 2)
    && (IsThreeQubitName(g.name) ==> |g.qubits| >= 3)
  }

  /** `measure` on the listed qubits: qubit q into classical bit q, or every qubit when none is listed. */
  function MeasureInstrs(qubits: seq<int>): (r: seq<Instr>)
    ensures qubits == [] ==> r == [MeasureAll]
    ensures qubits != [] ==> |r| == |qubits| && forall k :: 0 <= k < |qubits| ==> r[k] == Measure(qubits[k], qubits[k])
  {
    if qubits == [] then [MeasureAll] else seq(|qubits|, k requires 0 <= k < |qubits| => Measure(qubits[k], qubits[k]))
  }

  /**
   * One branch of the dispatch in `create_qiskit_circuit`, as written: a
   * name it does not list raises "Unsupported gate: <name>", and a branch
   * that reads a missing parameter or qubit raises as Python does.
   */
  function GateInstrsAsWritten(g: Gate): (r: Result<seq<Instr>, string>)
    ensures r.Ok? <==> Accepted(g.name) && HasOperands(g)
    ensures !Accepted(g.name) ==> r == Err("Unsupported gate: " + g.name)
  {
    if IsSingleQubitName(g.name) then Ok([Apply(g.name, g.qubits)])
    else if IsRotationName(g.name) then
      if g.params.None? then Err(NotSubscriptable)
      else if g.params.value == [] || g.qubits == [] then Err(IndexOutOfRange)
      else Ok([Rotate(g.name, g.params.value[0], g.qubits[0])])
    else if IsTwoQubitName(g.name) then
      if |g.qubits| < 2 then Err(IndexOutOfRange)
      else Ok([Apply(if g.name == "cnot" then "cx" else g.name, g.qubits[..2])])
    else if IsThreeQubitName(g.name) then
      if |g.qubits| < 3 then Err(IndexOutOfRange)
      else Ok([Apply("ccx", g.qubits[..3])])
    else if g.name == "measure" then Ok(MeasureInstrs(g.qubits))
    else if g.name == "measure_all" then Ok([MeasureAll])
    else Err("Unsupported gate: " + g.name)
  }

  // ---------------------------------------------------------------------
  // The quantum Fourier transform
  // ---------------------------------------------------------------------

  /** Layer i of the transform: h on qubit i, then a controlled phase pi/2^(j-i) from qubit i to every later qubit j. */
  function QftLayer(qs: seq<int>, i: nat): (r: seq<Instr>)
    requires i < |qs|
    ensures |r| == |qs| - i
    ensures r[0] == Apply("h", [qs[i]])
    ensures forall d :: 1 <= d < |r| ==> r[d] == ControlledPhase(d, qs[i], qs[i + d])
  {
    [Apply("h", [qs[i]])] + seq(|qs| - i - 1, d requires 0 <= d < |qs| - i - 1 => ControlledPhase(d + 1, qs[i], qs[i + d + 1]))
  }

  /** The first k layers, one after another. */
  function QftLayers(qs: seq<int>, k: nat): seq<Instr>
    requires k <= |qs|
  {
    if k == 0 then [] else QftLayers(qs, k - 1) + QftLayer(qs, k - 1)
  }

  /** The closing swaps: qubit i with qubit m-1-i for i below m div 2. */
  function QftSwaps(qs: seq<int>): (r: seq<Instr>)
    ensures |r| == |qs| / 2
    ensures forall i :: 0 <= i < |r| ==> r[i] == Apply("swap", [qs[i], qs[|qs| - 1 - i]])
  {
    seq(|qs| / 2, i requires 0 <= i < |qs| / 2 => Apply("swap", [qs[i], qs[|qs| - 1 - i]]))
  }

  /** The transform on the listed qubits, without measurement. */
  function QftInstrs(qs: seq<int>): seq<Instr>
  {
    QftLayers(qs, |qs|) + QftSwaps(qs)
  }

  /** k layers of m qubits hold k*m - k*(k-1)/2 instructions. */
  lemma {:induction false} QftLayersLength(qs: seq<int>, k: nat)
    requires k <= |qs|
    ensures 2 * |QftLayers(qs, k)| == 2 * k * |qs| - k * (k - 1)
  {
    if k > 0 {
      var j, m := k - 1, |qs|;
      QftLayersLength(qs, j);
      assert |QftLayers(qs, k)| == |QftLayers(qs, j)| + (m - j);
      assert k * (k - 1) == j * j + j;
      assert (k - 1) * (k - 2) == j * j - j;
      assert 2 * k * m == 2 * j * m + 2 * m;
    }
  }

  /** The transform on m qubits has m(m+1)/2 gates and m div 2 swaps. */
  lemma QftSize(qs: seq<int>)
    ensures 2 * |QftInstrs(qs)| == |qs| * (|qs| + 1) + 2 * (|qs| / 2)
  {
    QftLayersLength(qs, |qs|);
  }

  /** The swapped pairs are disjoint: no qubit is swapped twice. */
  lemma QftSwapsDisjoint(m: nat, i: nat, j: nat)
    requires i < j < m / 2
    ensures i != m - 1 - j && j != m - 1 - i && m - 1 - i != m - 1 - j && i != m - 1 - i
  {
  }

  /**
   * The dispatch with the branch the QFT tool relies on: a qft gate stands
   * for the transform on its qubits; every other name is dispatched as
   * written.
   */
  function GateInstrs(g: Gate): (r: Result<seq<Instr>, string>)
    ensures g.name == "qft" ==> r == Ok(QftInstrs(g.qubits))
    ensures g.name != "qft" ==> r == GateInstrsAsWritten(g)
  {
    if g.name == "qft" then Ok(QftInstrs(g.qubits)) else GateInstrsAsWritten(g)
  }

  /** A qft gate names no branch of the dispatch as written. */
  lemma QftUnsupportedAsWritten(g: Gate)
    requires g.name == "qft"
    ensures GateInstrsAsWritten(g) == Err("Unsupported gate: " + g.name)
  {
  }

  // ---------------------------------------------------------------------
  // create_qiskit_circuit
  // ---------------------------------------------------------------------

  /** The gates' instructions in order, or the error of the first gate that raises. */
  function CompileWith(dispatch: Gate -> Result<seq<Instr>, string>, gates: seq<Gate>): Result<seq<Instr>, string>
  {
    if gates == [] then Ok([])
    else match CompileWith(dispatch, gates[..|gates| - 1])
      case Err(e) => Err(e)
      case Ok(prefix) =>
        match dispatch(gates[|gates| - 1])
        case Err(e) => Err(e)
        case Ok(instrs) => Ok(prefix + instrs)
  }

  /** The compilation `create_qiskit_circuit` performs: the dispatch as written, with no qft branch. */
  function CompileGates(gates: seq<Gate>): Result<seq<Instr>, string>
  {
    CompileWith(GateInstrsAsWritten, gates)
  }

  /** The compilation the QFT tool relies on: the dispatch with the qft branch. */
  function CompileGatesWithQft(gates: seq<Gate>): Result<seq<Instr>, string>
  {
    CompileWith(GateInstrs, gates)
  }

  /** Compiling succeeds exactly when every gate's branch does. */
  lemma {:induction false} CompilesIffEveryGate(dispatch: Gate -> Result<seq<Instr>, string>, gates: seq<Gate>)
    ensures CompileWith(dispatch, gates).Ok? <==> forall k :: 0 <= k < |gates| ==> dispatch(gates[k]).Ok?
  {
    if gates != [] {
      var init := gates[..|gates| - 1];
      CompilesIffEveryGate(dispatch, init);
      assert forall k :: 0 <= k < |init| ==> init[k] == gates[k];
    }
  }

  /** The error reported is that of the first gate that raises. */
  lemma {:induction false} FirstFailureReported(dispatch: Gate -> Result<seq<Instr>, string>, gates: seq<Gate>, k: nat)
    requires k < |gates| && dispatch(gates[k]).Err?
    requires forall j :: 0 <= j < k ==> dispatch(gates[j]).Ok?
    ensures CompileWith(dispatch, gates) == Err(dispatch(gates[k]).error)
  {
    var init := gates[..|gates| - 1];
    if k < |gates| - 1 {
      assert init[k] == gates[k];
      assert forall j :: 0 <= j < k ==> init[j] == gates[j];
      FirstFailureReported(dispatch, init, k);
    } else {
      assert forall j :: 0 <= j < |init| ==> init[j] == gates[j];
      CompilesIffEveryGate(dispatch, init);
    }
  }

  /** The instructions of the gates in order: what the first k gates produce is a prefix of what all produce. */
  lemma {:induction false} CompileAppend(dispatch: Gate -> Result<seq<Instr>, string>, gates: seq<Gate>, k: nat)
    requires k < |gates|
    ensures CompileWith(dispatch, gates[..k + 1]) ==
      match CompileWith(dispatch, gates[..k])
      case Err(e) => Err(e)
      case Ok(prefix) => (match dispatch(gates[k]) case Err(e) => Err(e) case Ok(instrs) => Ok(prefix + instrs))
  {
    assert gates[..k + 1][..k] == gates[..k];
  }

  /**
   * `create_qiskit_circuit`: a circuit of the requested width with each
   * gate's instructions appended in order; the first gate that raises
   * makes the whole call raise "Error creating Qiskit circuit: …".
   */
  method CreateQiskitCircuit(c: QuantumCircuit) returns (r: Result<QiskitCircuit, string>)
    ensures CompileGates(c.gates).Ok? ==> r == Ok(QiskitCircuit(c.numQubits, 0, CompileGates(c.gates).value))
    ensures CompileGates(c.gates).Err? ==> r == Err(CreationPrefix + CompileGates(c.gates).error)
  {
    var instrs: seq<Instr> := [];
    for k := 0 to |c.gates|
      invariant CompileGates(c.gates[..k]) == Ok(instrs)
    {
      CompileAppend(GateInstrsAsWritten, c.gates, k);
      var step := GateInstrsAsWritten(c.gates[k]);
      if step.Err? {
        assert CompileGates(c.gates[..k + 1]) == Err(step.error);
        FirstFailureReported(GateInstrsAsWritten, c.gates, k) by {
          CompilesIffEveryGate(GateInstrsAsWritten, c.gates[..k]);
          assert forall j :: 0 <= j < k ==> c.gates[..k][j] == c.gates[j];
        }
        return Err(CreationPrefix + step.error);
      }
      instrs := instrs + step.value;
    }
    assert c.gates[..|c.gates|] == c.gates;
    r := Ok(QiskitCircuit(c.numQubits, 0, instrs));
  }

  /** A circuit compiles exactly when every gate is dispatchable: an accepted name with the operands its branch reads. */
  lemma CompilesIffWellFormed(gates: seq<Gate>)
    ensures CompileGates(gates).Ok? <==>
      forall k :: 0 <= k < |gates| ==> Accepted(gates[k].name) && HasOperands(gates[k])
  {
    CompilesIffEveryGate(GateInstrsAsWritten, gates);
  }

  /** With the qft branch, a qft gate is dispatchable as well. */
  lemma CompilesWithQftIffWellFormed(gates: seq<Gate>)
    ensures CompileGatesWithQft(gates).Ok? <==>
      forall k :: 0 <= k < |gates| ==> gates[k].name == "qft" || (Accepted(gates[k].name) && HasOperands(gates[k]))
  {
    CompilesIffEveryGate(GateInstrs, gates);
  }

  // ---------------------------------------------------------------------
  // GHZ and QFT circuits
  // ---------------------------------------------------------------------

  /** `circuit.measure(range(n), range(n))` */
  function MeasureRange(n: nat): (r: seq<Instr>)
    ensures |r| == n && forall i :: 0 <= i < n ==> r[i] == Measure(i, i)
  {
    seq(n, i => Measure(i, i))
  }

  /** cx from every qubit to the next. */
  function CxChain(n: nat): (r: seq<Instr>)
    ensures |r| == (if n == 0 then 0 else n - 1)
    ensures forall i :: 0 <= i < |r| ==> r[i] == Apply("cx", [i, i + 1])
  {
    if n <= 1 then [] else seq(n - 1, i => Apply("cx", [i, i + 1]))
  }

  function Range(n: nat): (r: seq<int>)
    ensures |r| == n && forall i :: 0 <= i < n ==> r[i] == i
  {
    seq(n, i => i)
  }

  /** The GHZ instructions on n qubits: h on qubit 0, cx from qubit i-1 to qubit i for every later i, then every qubit measured. */
  function GhzInstrs(n: nat): (r: seq<Instr>)
    requires n >= 1
    ensures |r| == 2 * n && r[0] == Apply("h", [0])
    ensures forall i :: 1 <= i < n ==> r[i] == Apply("cx", [i - 1, i])
    ensures forall i :: n <= i < 2 * n ==> r[i] == Measure(i - n, i - n)
  {
    [Apply("h", [0])] + CxChain(n) + MeasureRange(n)
  }

  /**
   * `create_ghz_circuit`: h on qubit 0, cx from each qubit to the next,
   * then every qubit measured into its own bit; `circuitError` is what
   * Qiskit raises for h(0) on a circuit without qubits.
   */
  method CreateGhzCircuit(n: int, circuitError: string) returns (r: Result<QiskitCircuit, string>)
    ensures n < 1 ==> r == Err("Error creating GHZ circuit: " + circuitError)
    ensures n >= 1 ==> r.Ok? && r.value.numQubits == n && r.value.numClbits == n
    ensures n >= 1 ==> r.value.instrs == GhzInstrs(n)
  {
    if n < 1 {
      return Err("Error creating GHZ circuit: " + circuitError);
    }
    var instrs := [Apply("h", [0])];
    for i := 0 to n - 1
      invariant instrs == [Apply("h", [0])] + CxChain(i + 1)
    {
      instrs := instrs + [Apply("cx", [i, i + 1])];
    }
    instrs := AppendMeasurements(instrs, n);
    r := Ok(QiskitCircuit(n, n, instrs));
  }

  /** `create_bell_pair_circuit`: h(0), cx(0, 1), then both qubits measured; the same circuit as the two-qubit GHZ circuit. */
  function BellPairCircuit(): (c: QiskitCircuit)
    ensures c == QiskitCircuit(2, 2, GhzInstrs(2))
  {
    QiskitCircuit(2, 2, [Apply("h", [0]), Apply("cx", [0, 1]), Measure(0, 0), Measure(1, 1)])
  }

  /** Appends `measure(range(n), range(n))`. */
  method AppendMeasurements(instrs: seq<Instr>, n: nat) returns (out: seq<Instr>)
    ensures out == instrs + MeasureRange(n)
  {
    out := instrs;
    for i := 0 to n
      invariant out == instrs + MeasureRange(i)
    {
      out := out + [Measure(i, i)];
    }
  }

  /** Layer i of the transform on qubits 0..n-1: h(i), then cp(pi/2^(j-i), i, j) for every later j. */
  method BuildQftLayer(n: nat, i: nat) returns (layer: seq<Instr>)
    requires i < n
    ensures layer == QftLayer(Range(n), i)
  {
    ghost var spec := QftLayer(Range(n), i);
    layer := [Apply("h", [i])];
    for j := i + 1 to n
      invariant layer == spec[..j - i]
    {
      assert spec[..j - i + 1] == spec[..j - i] + [ControlledPhase(j - i, i, j)];
      layer := layer + [ControlledPhase(j - i, i, j)];
    }
    assert spec[..n - i] == spec;
  }

  /** The swaps of qubit i with qubit n-1-i for i below n div 2. */
  method BuildQftSwaps(n: nat) returns (swaps: seq<Instr>)
    ensures swaps == QftSwaps(Range(n))
  {
    ghost var spec := QftSwaps(Range(n));
    swaps := [];
    for i := 0 to n / 2
      invariant swaps == spec[..i]
    {
      assert spec[..i + 1] == spec[..i] + [Apply("swap", [i, n - i - 1])];
      swaps := swaps + [Apply("swap", [i, n - i - 1])];
    }
    assert spec[..n / 2] == spec;
  }

  /**
   * `create_qft_circuit`: for each qubit i, h(i) and a controlled phase
   * pi/2^(j-i) to every later qubit j; then the swaps; then every qubit
   * measured into its own bit. `circuitError` is what Qiskit raises for a
   * negative width.
   */
  method CreateQftCircuit(n: int, circuitError: string) returns (r: Result<QiskitCircuit, string>)
    ensures n < 0 ==> r == Err("Error creating QFT circuit: " + circuitError)
    ensures n >= 0 ==> r == Ok(QiskitCircuit(n, n, QftInstrs(Range(n)) + MeasureRange(n)))
  {
    if n < 0 {
      return Err("Error creating QFT circuit: " + circuitError);
    }
    var instrs: seq<Instr> := [];
    for i := 0 to n
      invariant instrs == QftLayers(Range(n), i)
    {
      var layer := BuildQftLayer(n, i);
      instrs := instrs + layer;
    }
    var swaps := BuildQftSwaps(n);
    instrs := AppendMeasurements(instrs + swaps, n);
    r := Ok(QiskitCircuit(n, n, instrs));
  }

  // ---------------------------------------------------------------------
  // Running tasks and reading their results
  // ---------------------------------------------------------------------

  /** A Braket circuit, as produced by the Qiskit-to-Braket conversion. */
  datatype BraketCircuit = BraketCircuit(instrs: seq<Instr>)

  /** What `run_quantum_task` may be handed: its three circuit types, or anything else (by its type name). */
  datatype CircuitInput =
    | Definition(definition: QuantumCircuit)
    | Qiskit(qiskit: QiskitCircuit)
    | Braket(braket: BraketCircuit)
    | Other(typeName: string)

  /** The S3 destination passed to the device: the (bucket, prefix) pair only when both are non-empty. */
  function S3Destination(bucket: Option<string>, prefix: Option<string>): (r: Option<(string, string)>)
    ensures r.Some? <==> bucket.Some? && bucket.value != [] && prefix.Some? && prefix.value != []
    ensures r.Some? ==> r.value == (bucket.value, prefix.value)
  {
    if bucket.Some? && bucket.value != [] && prefix.Some? && prefix.value != [] then Some((bucket.value, prefix.value))
    else None
  }

  /** The Braket circuit a task input becomes: a definition compiled then converted, a Qiskit circuit converted, a Braket circuit as it is. */
  function ToBraket(circuit: CircuitInput, convert: QiskitCircuit -> Result<BraketCircuit, string>): Result<BraketCircuit, string>
  {
    match circuit
    case Definition(d) =>
      (match CompileGates(d.gates)
       case Err(e) => Err(CreationPrefix + e)
       case Ok(instrs) => convert(QiskitCircuit(d.numQubits, 0, instrs)))
    case Qiskit(q) => convert(q)
    case Braket(b) => Ok(b)
    case Other(t) => Err("Unsupported circuit type: <class '" + t + "'>")
  }

  /** What `run_quantum_task` returns: the id of the started task, or the conversion's or the device's error, prefixed. */
  function RunOutcome(circuit: CircuitInput, deviceArn: string, shots: int, bucket: Option<string>, prefix: Option<string>,
                      convert: QiskitCircuit -> Result<BraketCircuit, string>,
                      run: (string, BraketCircuit, int, Option<(string, string)>) -> Result<string, string>): Result<string, string>
  {
    match ToBraket(circuit, convert)
    case Err(e) => Err("Error running quantum task: " + e)
    case Ok(b) =>
      match run(deviceArn, b, shots, S3Destination(bucket, prefix))
      case Ok(id) => Ok(id)
      case Err(e) => Err("Error running quantum task: " + e)
  }

  /**
   * `run_quantum_task`: compile a definition and convert a Qiskit circuit;
   * any other input is refused before a device is contacted; errors come
   * back as "Error running quantum task: …".
   */
  method RunQuantumTask(circuit: CircuitInput, deviceArn: string, shots: int, bucket: Option<string>, prefix: Option<string>,
                        convert: QiskitCircuit -> Result<BraketCircuit, string>,
                        run: (string, BraketCircuit, int, Option<(string, string)>) -> Result<string, string>)
    returns (r: Result<string, string>)
    ensures circuit.Other? ==> r.Err?
    ensures r == RunOutcome(circuit, deviceArn, shots, bucket, prefix, convert, run)
  {
    var braket: Result<BraketCircuit, string>;
    match circuit {
      case Definition(d) =>
        var q := CreateQiskitCircuit(d);
        braket := if q.Err? then Err(q.error) else convert(q.value);
      case Qiskit(q) =>
        braket := convert(q);
      case Braket(b) =>
        braket := Ok(b);
      case Other(t) =>
        braket := Err("Unsupported circuit type: <class '" + t + "'>");
    }
    if braket.Err? {
      return Err("Error running quantum task: " + braket.error);
    }
    var id := run(deviceArn, braket.value, shots, S3Destination(bucket, prefix));
    if id.Err? {
      return Err("Error running quantum task: " + id.error);
    }
    r := Ok(id.value);
  }

  /**
   * The status lookup in `get_task_result`: the six known names map to
   * their status and anything else to FAILED; a list or dict cannot be
   * looked up and raises.
   */
  function MapStatus(v: Value): (r: Result<TaskStatus, string>)
    ensures v.Str? && ParseStatus(v.s).Some? ==> r == Ok(ParseStatus(v.s).value)
    ensures !(v.Str? && ParseStatus(v.s).Some?) && !v.List? && !v.Dict? ==> r == Ok(FAILED)
    ensures v.List? || v.Dict? ==> r.Err?
  {
    match v
    case List(_) => Err("unhashable type: 'list'")
    case Dict(_) => Err("unhashable type: 'dict'")
    case Str(s) => Ok(if ParseStatus(s).Some? then ParseStatus(s).value else FAILED)
    case _ => Ok(FAILED)
  }

  /** Every status reads back as itself. */
  lemma MapStatusRoundTrip(t: TaskStatus)
    ensures MapStatus(Str(StatusName(t))) == Ok(t)
  {
    StatusesEnumerated();
  }

  /** What the finished task reports. */
  datatype Outcome = Outcome(measurements: Option<seq<seq<int>>>, counts: Option<map<string, int>>)

  /** `endedAt - startedAt` when both are set, over numeric timestamps. */
  function ExecutionTime(metadata: Value): Result<Option<real>, string>
  {
    var started := GetOr(metadata, "startedAt", Null);
    var ended := GetOr(metadata, "endedAt", Null);
    if !(Truthy(started) && Truthy(ended)) then Ok(None)
    else if Numeric(started).None? || Numeric(ended).None? then Err(UnsupportedMinus)
    else Ok(Some(Numeric(ended).value - Numeric(started).value))
  }

  /**
   * `get_task_result`: the status through the map; the outcome and the
   * execution time only for a completed task; device and shots default to
   * "" and 0; errors come back as "Error getting task result: …".
   */
  function GetTaskResult(taskId: string, metadata: Value, outcome: Result<Outcome, string>): (r: Result<TaskResult, string>)
    ensures !metadata.Dict? ==> r == Err("Error getting task result: " + NoGet)
    ensures r.Ok? ==> r.value.taskId == taskId && r.value.metadata == Some(metadata.fields)
    ensures r.Ok? ==> MapStatus(GetOr(metadata, "status", Null)) == Ok(r.value.status)
    ensures r.Ok? && r.value.status != COMPLETED ==>
      r.value.measurements.None? && r.value.counts.None? && r.value.executionTime.None?
    ensures r.Ok? && r.value.executionTime.Some? ==> TruthyKey(metadata, "startedAt") && TruthyKey(metadata, "endedAt")
  {
    if !metadata.Dict? then Err("Error getting task result: " + NoGet)
    else match MapStatus(GetOr(metadata, "status", Null))
      case Err(e) => Err("Error getting task result: " + e)
      case Ok(status) =>
        var fetched: Result<(Outcome, Option<real>), string> :=
          if status != COMPLETED then Ok((Outcome(None, None), None))
          else if outcome.Err? then Err(outcome.error)
          else match ExecutionTime(metadata)
            case Err(e) => Err(e)
            case Ok(t) => Ok((outcome.value, t));
        var device := GetOr(metadata, "deviceArn", Str(""));
        var shots := GetOr(metadata, "shots", Int(0));
        if fetched.Err? then Err("Error getting task result: " + fetched.error)
        else if !device.Str? || !shots.Int? then Err("Error getting task result: " + ValidationError)
        else
          var (o, t) := fetched.value;
          Ok(TaskResult(taskId, status, o.measurements, o.counts, device.s, shots.i, t, Some(metadata.fields)))
  }

  /** A task whose status is not one of the six names is reported as FAILED, without measurements. */
  lemma UnknownStatusFails(taskId: string, metadata: Value, outcome: Result<Outcome, string>, s: string)
    requires metadata.Dict? && GetOr(metadata, "status", Null) == Str(s) && ParseStatus(s).None?
    requires GetOr(metadata, "deviceArn", Str("")).Str? && GetOr(metadata, "shots", Int(0)).Int?
    ensures GetTaskResult(taskId, metadata, outcome).Ok?
    ensures GetTaskResult(taskId, metadata, outcome).value.status == FAILED
    ensures GetTaskResult(taskId, metadata, outcome).value.measurements.None?
  {
  }

  // ---------------------------------------------------------------------
  // Searching tasks
  // ---------------------------------------------------------------------

  datatype Filter = Filter(name: string, operator: string, values: seq<string>)

  /** `if x:` for an optional string. */
  predicate Given(x: Option<string>)
  {
    x.Some? && x.value != []
  }

  /** Where each kind of filter stands in the request. */
  function FilterRank(f: Filter): nat
  {
    if f.name == "deviceArn" then 0
    else if f.name == "status" then 1
    else if f.operator == "GREATER_THAN" then 2
    else 3
  }

  /**
   * The filter list of `search_quantum_tasks`: device, state, created
   * after, created before, each only when given (a time, once given, is
   * always truthy).
   */
  function FiltersFor(deviceArn: Option<string>, state: Option<string>, createdAfter: Option<string>, createdBefore: Option<string>): seq<Filter>
  {
    (if Given(deviceArn) then [Filter("deviceArn", "EQUAL", [deviceArn.value])] else [])
    + (if Given(state) then [Filter("status", "EQUAL", [state.value])] else [])
    + (if createdAfter.Some? then [Filter("createdAt", "GREATER_THAN", [createdAfter.value])] else [])
    + (if createdBefore.Some? then [Filter("createdAt", "LESS_THAN", [createdBefore.value])] else [])
  }

  /** One filter per given argument, and in device, state, after, before order. */
  lemma FiltersForShape(deviceArn: Option<string>, state: Option<string>, createdAfter: Option<string>, createdBefore: Option<string>)
    ensures var filters := FiltersFor(deviceArn, state, createdAfter, createdBefore);
      && |filters| == (if Given(deviceArn) then 1 else 0) + (if Given(state) then 1 else 0)
         + (if createdAfter.Some? then 1 else 0) + (if createdBefore.Some? then 1 else 0)
      && forall i, j :: 0 <= i < j < |filters| ==> FilterRank(filters[i]) < FilterRank(filters[j])
  {
  }

  /** Each given argument has its filter, and an absent device or state has none. */
  lemma FiltersForMembers(deviceArn: Option<string>, state: Option<string>, createdAfter: Option<string>, createdBefore: Option<string>)
    ensures var filters := FiltersFor(deviceArn, state, createdAfter, createdBefore);
      && (Given(deviceArn) ==> Filter("deviceArn", "EQUAL", [deviceArn.value]) in filters)
      && (Given(state) ==> Filter("status", "EQUAL", [state.value]) in filters)
      && (createdAfter.Some? ==> Filter("createdAt", "GREATER_THAN", [createdAfter.value]) in filters)
      && (createdBefore.Some? ==> Filter("createdAt", "LESS_THAN", [createdBefore.value]) in filters)
      && (!Given(deviceArn) ==> forall k :: 0 <= k < |filters| ==> filters[k].name != "deviceArn")
      && (!Given(state) ==> forall k :: 0 <= k < |filters| ==> filters[k].name != "status")
  {
    assert "deviceArn" != "status" && "createdAt" != "status" by {
      assert |"status"| == 6 && |"deviceArn"| == 9 && |"createdAt"| == 9;
    }
    assert "createdAt" != "deviceArn" by {
      assert "createdAt"[0] == 'c' && "deviceArn"[0] == 'd';
    }
    var a := if Given(deviceArn) then [Filter("deviceArn", "EQUAL", [deviceArn.value])] else [];
    var b := if Given(state) then [Filter("status", "EQUAL", [state.value])] else [];
    var c := if createdAfter.Some? then [Filter("createdAt", "GREATER_THAN", [createdAfter.value])] else [];
    var d := if createdBefore.Some? then [Filter("createdAt", "LESS_THAN", [createdBefore.value])] else [];
    var filters := FiltersFor(deviceArn, state, createdAfter, createdBefore);
    assert filters == a + b + c + d;
    assert forall k :: 0 <= k < |a| ==> a[k].name == "deviceArn";
    assert forall k :: 0 <= k < |b| ==> b[k].name == "status";
    assert forall k :: 0 <= k < |c + d| ==> (c + d)[k].name == "createdAt";
    if Given(deviceArn) {
      assert filters[0] == a[0];
    }
    if Given(state) {
      assert filters[|a|] == b[0];
    }
    if createdAfter.Some? {
      assert filters[|a| + |b|] == c[0];
    }
    if createdBefore.Some? {
      assert filters[|a| + |b| + |c|] == d[0];
    }
    forall k | 0 <= k < |filters|
      ensures filters[k].name == "deviceArn" || filters[k].name == "status" || filters[k].name == "createdAt"
      ensures filters[k].name == "deviceArn" ==> Given(deviceArn)
      ensures filters[k].name == "status" ==> Given(state)
    {
      if k < |a| {
        assert filters[k] == a[k];
      } else if k < |a| + |b| {
        assert filters[k] == b[k - |a|];
      } else {
        assert filters[k] == (c + d)[k - |a| - |b|];
      }
    }
  }

  /** The filters appended one by one, as the method builds them. */
  method BuildFilters(deviceArn: Option<string>, state: Option<string>, createdAfter: Option<string>, createdBefore: Option<string>)
    returns (filters: seq<Filter>)
    ensures filters == FiltersFor(deviceArn, state, createdAfter, createdBefore)
  {
    filters := [];
    if Given(deviceArn) {
      filters := filters + [Filter("deviceArn", "EQUAL", [deviceArn.value])];
    }
    if Given(state) {
      filters := filters + [Filter("status", "EQUAL", [state.value])];
    }
    if createdAfter.Some? {
      filters := filters + [Filter("createdAt", "GREATER_THAN", [createdAfter.value])];
    }
    if createdBefore.Some? {
      filters := filters + [Filter("createdAt", "LESS_THAN", [createdBefore.value])];
    }
  }

  /**
   * `search_quantum_tasks`: the client's `quantumTasks`, or [] when the
   * response has none; errors come back as "Error searching quantum tasks: …".
   */
  method SearchQuantumTasks(deviceArn: Option<string>, state: Option<string>, maxResults: int,
                            createdAfter: Option<string>, createdBefore: Option<string>,
                            search: (seq<Filter>, int) -> Result<Value, string>)
    returns (r: Result<Value, string>)
    ensures var response := search(FiltersFor(deviceArn, state, createdAfter, createdBefore), maxResults);
      r.Ok? <==> response.Ok? && response.value.Dict?
    ensures var response := search(FiltersFor(deviceArn, state, createdAfter, createdBefore), maxResults);
      r.Ok? ==> r.value == GetOr(response.value, "quantumTasks", List([]))
    ensures r.Err? ==> StartsWith("Error searching quantum tasks: ", r.error)
  {
    var filters := BuildFilters(deviceArn, state, createdAfter, createdBefore);
    var response := search(filters, maxResults);
    if response.Err? {
      return Err("Error searching quantum tasks: " + response.error);
    }
    if !response.value.Dict? {
      return Err("Error searching quantum tasks: " + NoGet);
    }
    r := Ok(GetOr(response.value, "quantumTasks", List([])));
  }

  predicate StartsWith(p: string, s: string)
  {
    |p| <= |s| && s[..|p|] == p
  }

  // ---------------------------------------------------------------------
  // Circuit visualisation
  // ---------------------------------------------------------------------

  /**
   * `create_circuit_visualization`: compile the circuit, draw it, and hand
   * both to the response builder; a failure comes back as "Error creating
   * circuit visualization: …".
   */
  method CreateCircuitVisualization(c: QuantumCircuit, circuitType: string,
                                    draw: QiskitCircuit -> Result<string, string>,
                                    respond: (QuantumCircuit, string, string) -> Value)
    returns (r: Result<Value, string>)
    ensures CompileGates(c.gates).Err? ==>
      r == Err("Error creating circuit visualization: " + (CreationPrefix + CompileGates(c.gates).error))
    ensures CompileGates(c.gates).Ok? ==>
      var drawn := draw(QiskitCircuit(c.numQubits, 0, CompileGates(c.gates).value));
      r == (if drawn.Ok? then Ok(respond(c, drawn.value, circuitType)) else Err("Error creating circuit visualization: " + drawn.error))
  {
    var q := CreateQiskitCircuit(c);
    if q.Err? {
      return Err("Error creating circuit visualization: " + q.error);
    }
    var image := draw(q.value);
    if image.Err? {
      return Err("Error creating circuit visualization: " + image.error);
    }
    r := Ok(respond(c, image.value, circuitType));
  }
}
