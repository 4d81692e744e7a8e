/**
 * The Braket MCP server's data model: gate names, gates, circuit
 * definitions, task statuses and results, device descriptions. The
 * dictionaries the tools receive are turned into these records the way the
 * pydantic models validate them, and `model_dump` turns them back.
 */
module BraketModels {
  import opened Wrappers
  import opened Values

  /** The message of a pydantic validation failure. */
  const ValidationError: string := "validation error"

  // ---------------------------------------------------------------------
  // Gate names
  // ---------------------------------------------------------------------

  datatype GateType =
    | H | X | Y | Z | S | T | RX | RY | RZ
    | CX | CY | CZ | SWAP
    | CCX
    | MEASURE | MEASURE_ALL

  function GateTypeName(g: GateType): string
  {
    match g
    case H => "h"
    case X => "x"
    case Y => "y"
    case Z => "z"
    case S => "s"
    case T => "t"
    case RX => "rx"
    case RY => "ry"
    case RZ => "rz"
    case CX => "cx"
    case CY => "cy"
    case CZ => "cz"
    case SWAP => "swap"
    case CCX => "ccx"
    case MEASURE => "measure"
    case MEASURE_ALL => "measure_all"
  }

  const AllGateTypes: seq<GateType> :=
    [H, X, Y, Z, S, T, RX, RY, RZ, CX, CY, CZ, SWAP, CCX, MEASURE, MEASURE_ALL]

  /** `GateType(name)`: the member whose value is `name`. */
  function ParseGateType(name: string): (r: Option<GateType>)
    ensures r.Some? ==> GateTypeName(r.value) == name
  {
    if name == "h" then Some(H) else if name == "x" then Some(X)
    else if name == "y" then Some(Y) else if name == "z" then Some(Z)
    else if name == "s" then Some(S) else if name == "t" then Some(T)
    else if name == "rx" then Some(RX) else if name == "ry" then Some(RY)
    else if name == "rz" then Some(RZ) else if name == "cx" then Some(CX)
    else if name == "cy" then Some(CY) else if name == "cz" then Some(CZ)
    else if name == "swap" then Some(SWAP) else if name == "ccx" then Some(CCX)
    else if name == "measure" then Some(MEASURE) else if name == "measure_all" then Some(MEASURE_ALL)
    else None
  }

  /** Every gate name parses back to its member, so no two members share a name. */
  lemma {:induction false} GateTypeNamesRoundTrip()
    ensures forall g: GateType :: ParseGateType(GateTypeName(g)) == Some(g)
    ensures forall g1: GateType, g2: GateType :: GateTypeName(g1) == GateTypeName(g2) ==> g1 == g2
  {
    forall g: GateType ensures ParseGateType(GateTypeName(g)) == Some(g) {
      match g
      case H => case X => case Y => case Z => case S => case T =>
      case RX => case RY => case RZ => case CX => case CY => case CZ =>
      case SWAP => case CCX => case MEASURE => case MEASURE_ALL =>
    }
  }

  /** The enumeration lists each of the sixteen members once; with the round trip above, sixteen different names. */
  lemma {:induction false} SixteenGateTypes()
    ensures |AllGateTypes| == 16
    ensures forall g: GateType :: g in AllGateTypes
    ensures forall i, j :: 0 <= i < j < |AllGateTypes| ==> AllGateTypes[i] != AllGateTypes[j]
  {
    forall g: GateType ensures g in AllGateTypes {
      match g
      case H => case X => case Y => case Z => case S => case T =>
      case RX => case RY => case RZ => case CX => case CY => case CZ =>
      case SWAP => case CCX => case MEASURE => case MEASURE_ALL =>
    }
  }

  // ---------------------------------------------------------------------
  // Gates and circuits
  // ---------------------------------------------------------------------

  /** A gate parameter: a number, or a symbolic angle name such as "theta_0_1". */
  datatype Param = Angle(r: real) | Symbol(s: string)

  datatype Gate = Gate(name: string, qubits: seq<int>, params: Option<seq<Param>>)

  /** `Gate(name=name)`: no qubits and no parameters. */
  function NamedGate(name: string): (g: Gate)
    ensures g.name == name && g.qubits == [] && g.params == None
  {
    Gate(name, [], None)
  }

  datatype QuantumCircuit = QuantumCircuit(numQubits: int, gates: seq<Gate>, metadata: Option<map<string, Value>>)

  /** `QuantumCircuit(num_qubits=n, gates=gates)`: no metadata. */
  function Circuit(numQubits: int, gates: seq<Gate>): (c: QuantumCircuit)
    ensures c.numQubits == numQubits && c.gates == gates && c.metadata == None
  {
    QuantumCircuit(numQubits, gates, None)
  }

  /** What pydantic accepts for `params: Optional[List[float]]`: None, or numbers only. */
  predicate NumericParams(g: Gate)
  {
    g.params.None? || forall k :: 0 <= k < |g.params.value| ==> g.params.value[k].Angle?
  }

  predicate NumericCircuit(c: QuantumCircuit)
  {
    forall k :: 0 <= k < |c.gates| ==> NumericParams(c.gates[k])
  }

  /** A list of ints, as `List[int]` validates it. */
  function IntsOf(v: Value): (r: Option<seq<int>>)
    ensures r.Some? ==> v.List? && |r.value| == |v.items|
  {
    if v.List? && forall k :: 0 <= k < |v.items| ==> v.items[k].Int? then
      Some(seq(|v.items|, k requires 0 <= k < |v.items| => v.items[k].i))
    else None
  }

  function IntsValue(xs: seq<int>): (v: Value)
    ensures v.List? && |v.items| == |xs|
  {
    List(seq(|xs|, k requires 0 <= k < |xs| => Int(xs[k])))
  }

  lemma IntsRoundTrip(xs: seq<int>)
    ensures IntsOf(IntsValue(xs)) == Some(xs)
  {
    var v := IntsValue(xs);
    assert forall k :: 0 <= k < |v.items| ==> v.items[k] == Int(xs[k]);
    assert seq(|v.items|, k requires 0 <= k < |v.items| => v.items[k].i) == xs;
  }

  /** `Optional[List[float]]`: None stays None; ints and floats become angles. */
  function ParamsOf(v: Value): (r: Result<Option<seq<Param>>, string>)
    ensures r.Ok? && r.value.Some? ==> forall k :: 0 <= k < |r.value.value| ==> r.value.value[k].Angle?
  {
    if v.Null? then Ok(None)
    else if v.List? && forall k :: 0 <= k < |v.items| ==> v.items[k].Int? || v.items[k].Num? then
      Ok(Some(seq(|v.items|, k requires 0 <= k < |v.items| =>
        if v.items[k].Int? then Angle(v.items[k].i as real) else Angle(v.items[k].r))))
    else Err(ValidationError)
  }

  function ParamsValue(ps: Option<seq<Param>>): Value
  {
    match ps
    case None => Null
    case Some(xs) => List(seq(|xs|, k requires 0 <= k < |xs| =>
      match xs[k] case Angle(r) => Num(r) case Symbol(s) => Str(s)))
  }

  /** `Gate(name=d.get('name'), qubits=d.get('qubits', []), params=d.get('params'))` */
  function GateOf(d: Value): (r: Result<Gate, string>)
    ensures r.Ok? ==> NumericParams(r.value)
    ensures !d.Dict? ==> r == Err(NoGet)
    ensures r.Ok? ==> Get(d, "name") == Some(Str(r.value.name))
  {
    if !d.Dict? then Err(NoGet)
    else
      var name := GetOr(d, "name", Null);
      var qubits := IntsOf(GetOr(d, "qubits", List([])));
      var params := ParamsOf(GetOr(d, "params", Null));
      if !name.Str? || qubits.None? || params.Err? then Err(ValidationError)
      else Ok(Gate(name.s, qubits.value, params.value))
  }

  /** `gate.model_dump()` */
  function GateValue(g: Gate): (v: Value)
    ensures v.Dict? && v.fields.Keys == {"name", "qubits", "params"}
  {
    Dict(map["name" := Str(g.name), "qubits" := IntsValue(g.qubits), "params" := ParamsValue(g.params)])
  }

  /** A dumped gate validates back to itself exactly when its parameters are numbers. */
  lemma GateRoundTrip(g: Gate)
    ensures GateOf(GateValue(g)) == Ok(g) <==> NumericParams(g)
  {
    IntsRoundTrip(g.qubits);
    if NumericParams(g) {
      match g.params
      case None =>
      case Some(xs) =>
        var v := ParamsValue(g.params);
        assert forall k :: 0 <= k < |v.items| ==> v.items[k] == Num(xs[k].r);
        var back := seq(|v.items|, k requires 0 <= k < |v.items| =>
          if v.items[k].Int? then Angle(v.items[k].i as real) else Angle(v.items[k].r));
        assert forall k :: 0 <= k < |xs| ==> back[k] == xs[k];
        assert back == xs;
    }
  }

  /** `[Gate(...) for gate_dict in gates]`: the first dict that does not validate stops the conversion. */
  function GatesOf(ds: seq<Value>): (r: Result<seq<Gate>, string>)
    ensures r.Ok? ==> |r.value| == |ds| && forall k :: 0 <= k < |ds| ==> GateOf(ds[k]) == Ok(r.value[k])
    ensures r.Err? ==> exists k :: 0 <= k < |ds| && GateOf(ds[k]).Err?
  {
    if ds == [] then Ok([])
    else match GateOf(ds[0])
      case Err(e) => Err(e)
      case Ok(g) =>
        match GatesOf(ds[1..])
        case Err(e) =>
          var k :| 0 <= k < |ds[1..]| && GateOf(ds[1..][k]).Err?;
          assert GateOf(ds[k + 1]).Err?;
          Err(e)
        case Ok(gs) => Ok([g] + gs)
  }

  function GatesValue(gs: seq<Gate>): (v: Value)
    ensures v.List? && |v.items| == |gs|
  {
    List(seq(|gs|, k requires 0 <= k < |gs| => GateValue(gs[k])))
  }

  lemma {:induction false} GatesRoundTrip(gs: seq<Gate>)
    requires forall k :: 0 <= k < |gs| ==> NumericParams(gs[k])
    ensures GatesOf(GatesValue(gs).items) == Ok(gs)
  {
    if gs != [] {
      GateRoundTrip(gs[0]);
      assert GatesValue(gs).items[1..] == GatesValue(gs[1..]).items;
      GatesRoundTrip(gs[1..]);
      assert [gs[0]] + gs[1..] == gs;
    }
  }

  /** `circuit.model_dump()` */
  function CircuitValue(c: QuantumCircuit): (v: Value)
    ensures v.Dict? && v.fields.Keys == {"num_qubits", "gates", "metadata"}
  {
    Dict(map["num_qubits" := Int(c.numQubits), "gates" := GatesValue(c.gates),
             "metadata" := if c.metadata.Some? then Dict(c.metadata.value) else Null])
  }

  /** `circuit.get('gates', [])` as a list of gate dicts; anything else is not a list of gates. */
  function GateDicts(d: Value): Option<seq<Value>>
  {
    var gs := GetOr(d, "gates", List([]));
    if gs.List? then Some(gs.items) else None
  }

  /**
   * `QuantumCircuit(num_qubits=d.get('num_qubits'), gates=[...],
   * metadata=d.get('metadata'))`, with the gate list already converted.
   */
  function CircuitFrom(d: Value, gates: seq<Gate>): (r: Result<QuantumCircuit, string>)
    ensures r.Ok? ==> r.value.gates == gates
  {
    var n := GetOr(d, "num_qubits", Null);
    var m := GetOr(d, "metadata", Null);
    if !n.Int? || !(m.Null? || m.Dict?) then Err(ValidationError)
    else Ok(QuantumCircuit(n.i, gates, if m.Dict? then Some(m.fields) else None))
  }

  /** The whole conversion of a circuit dict. */
  function CircuitOf(d: Value): (r: Result<QuantumCircuit, string>)
    ensures !d.Dict? ==> r == Err(NoGet)
  {
    if !d.Dict? then Err(NoGet)
    else match GateDicts(d)
      case None => Err(ValidationError)
      case Some(ds) =>
        match GatesOf(ds)
        case Err(e) => Err(e)
        case Ok(gates) => CircuitFrom(d, gates)
  }

  /** A dumped circuit with numeric parameters converts back to itself. */
  lemma CircuitRoundTrip(c: QuantumCircuit)
    requires NumericCircuit(c)
    ensures CircuitOf(CircuitValue(c)) == Ok(c)
  {
    GatesRoundTrip(c.gates);
  }

  // ---------------------------------------------------------------------
  // Tasks and devices
  // ---------------------------------------------------------------------

  datatype TaskStatus = CREATED | QUEUED | RUNNING | COMPLETED | FAILED | CANCELLED

  function StatusName(s: TaskStatus): string
  {
    match s
    case CREATED => "CREATED"
    case QUEUED => "QUEUED"
    case RUNNING => "RUNNING"
    case COMPLETED => "COMPLETED"
    case FAILED => "FAILED"
    case CANCELLED => "CANCELLED"
  }

  function ParseStatus(name: string): (r: Option<TaskStatus>)
    ensures r.Some? ==> StatusName(r.value) == name
  {
    if name == "CREATED" then Some(CREATED)
    else if name == "QUEUED" then Some(QUEUED)
    else if name == "RUNNING" then Some(RUNNING)
    else if name == "COMPLETED" then Some(COMPLETED)
    else if name == "FAILED" then Some(FAILED)
    else if name == "CANCELLED" then Some(CANCELLED)
    else None
  }

  /** Exactly six statuses, each named by its own string. */
  lemma StatusesEnumerated()
    ensures forall s: TaskStatus :: ParseStatus(StatusName(s)) == Some(s)
    ensures forall name :: ParseStatus(name).Some? <==>
      name in {"CREATED", "QUEUED", "RUNNING", "COMPLETED", "FAILED", "CANCELLED"}
  {
    forall s: TaskStatus ensures ParseStatus(StatusName(s)) == Some(s) {
      match s
      case CREATED => case QUEUED => case RUNNING => case COMPLETED => case FAILED => case CANCELLED =>
    }
  }

  datatype TaskResult = TaskResult(
    taskId: string,
    status: TaskStatus,
    measurements: Option<seq<seq<int>>>,
    counts: Option<map<string, int>>,
    device: string,
    shots: int,
    executionTime: Option<real>,
    metadata: Option<map<string, Value>>)

  /** `TaskResult(task_id, status, device, shots)`: every optional field None. */
  function NewTaskResult(taskId: string, status: TaskStatus, device: string, shots: int): (r: TaskResult)
    ensures r.taskId == taskId && r.status == status && r.device == device && r.shots == shots
    ensures r.measurements == None && r.counts == None && r.executionTime == None && r.metadata == None
  {
    TaskResult(taskId, status, None, None, device, shots, None, None)
  }

  function MeasurementsOf(v: Value): Option<seq<seq<int>>>
  {
    if v.List? && forall k :: 0 <= k < |v.items| ==> IntsOf(v.items[k]).Some? then
      Some(seq(|v.items|, k requires 0 <= k < |v.items| => IntsOf(v.items[k]).value))
    else None
  }

  function CountsOf(v: Value): Option<map<string, int>>
  {
    if v.Dict? && forall k :: k in v.fields ==> v.fields[k].Int? then
      Some(map k | k in v.fields :: v.fields[k].i)
    else None
  }

  function MeasurementsValue(ms: seq<seq<int>>): Value
  {
    List(seq(|ms|, k requires 0 <= k < |ms| => IntsValue(ms[k])))
  }

  lemma MeasurementsRoundTrip(ms: seq<seq<int>>)
    ensures MeasurementsOf(MeasurementsValue(ms)) == Some(ms)
  {
    var v := MeasurementsValue(ms);
    forall k | 0 <= k < |ms| ensures IntsOf(v.items[k]) == Some(ms[k]) {
      IntsRoundTrip(ms[k]);
    }
    var back := seq(|v.items|, k requires 0 <= k < |v.items| => IntsOf(v.items[k]).value);
    assert forall k :: 0 <= k < |ms| ==> back[k] == ms[k];
    assert back == ms;
  }

  function CountsValue(cs: map<string, int>): Value
  {
    Dict(map k | k in cs :: Int(cs[k]))
  }

  lemma CountsRoundTrip(cs: map<string, int>)
    ensures CountsOf(CountsValue(cs)) == Some(cs)
  {
    var v := CountsValue(cs);
    var back := map k | k in v.fields :: v.fields[k].i;
    assert back.Keys == cs.Keys;
    assert back == cs;
  }

  /** `TaskResult(task_id=d.get('task_id'), status=d.get('status'), ...)`, validated field by field. */
  function TaskResultOf(d: Value): (r: Result<TaskResult, string>)
    ensures !d.Dict? ==> r == Err(NoGet)
    ensures r.Ok? ==> (Get(d, "task_id") == Some(Str(r.value.taskId))
      && Get(d, "status") == Some(Str(StatusName(r.value.status))))
  {
    if !d.Dict? then Err(NoGet)
    else
      var id := GetOr(d, "task_id", Null);
      var status := GetOr(d, "status", Null);
      var ms := GetOr(d, "measurements", Null);
      var cs := GetOr(d, "counts", Null);
      var device := GetOr(d, "device", Null);
      var shots := GetOr(d, "shots", Null);
      var time := GetOr(d, "execution_time", Null);
      var meta := GetOr(d, "metadata", Null);
      if !id.Str? || !status.Str? || ParseStatus(status.s).None? || !device.Str? || !shots.Int? then Err(ValidationError)
      else if !(ms.Null? || MeasurementsOf(ms).Some?) || !(cs.Null? || CountsOf(cs).Some?) then Err(ValidationError)
      else if !(time.Null? || time.Int? || time.Num?) || !(meta.Null? || meta.Dict?) then Err(ValidationError)
      else Ok(TaskResult(id.s, ParseStatus(status.s).value,
        if ms.Null? then None else MeasurementsOf(ms),
        if cs.Null? then None else CountsOf(cs),
        device.s, shots.i,
        if time.Int? then Some(time.i as real) else if time.Num? then Some(time.r) else None,
        if meta.Dict? then Some(meta.fields) else None))
  }

  /** `result.model_dump()` */
  function TaskResultValue(t: TaskResult): (v: Value)
    ensures v.Dict?
  {
    Dict(map[
      "task_id" := Str(t.taskId),
      "status" := Str(StatusName(t.status)),
      "measurements" := if t.measurements.Some? then MeasurementsValue(t.measurements.value) else Null,
      "counts" := if t.counts.Some? then CountsValue(t.counts.value) else Null,
      "device" := Str(t.device),
      "shots" := Int(t.shots),
      "execution_time" := if t.executionTime.Some? then Num(t.executionTime.value) else Null,
      "metadata" := if t.metadata.Some? then Dict(t.metadata.value) else Null])
  }

  /** A dumped task result validates back to itself. */
  lemma TaskResultRoundTrip(t: TaskResult)
    ensures TaskResultOf(TaskResultValue(t)) == Ok(t)
  {
    var d := TaskResultValue(t);
    assert "status" != "counts" && "status" != "device" && "counts" != "device" by {
      assert "status"[0] == 's' && "counts"[0] == 'c' && "device"[0] == 'd';
    }
    assert d.fields["task_id"] == Str(t.taskId) && d.fields["status"] == Str(StatusName(t.status));
    assert d.fields["device"] == Str(t.device) && d.fields["shots"] == Int(t.shots);
    StatusesEnumerated();
    if t.measurements.Some? {
      MeasurementsRoundTrip(t.measurements.value);
    }
    if t.counts.Some? {
      CountsRoundTrip(t.counts.value);
    }
  }

  datatype DeviceType = QPU | SIMULATOR

  datatype DeviceInfo = DeviceInfo(
    deviceArn: string,
    deviceName: string,
    deviceType: DeviceType,
    providerName: string,
    status: string,
    qubits: int,
    connectivity: Option<string>,
    paradigm: string,
    maxShots: int,
    supportedGates: seq<string>)
}
