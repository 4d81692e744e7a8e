/**
 * The MCP tools of the Braket server: the lazily created service, the
 * default device, the circuits the Bell, GHZ and QFT tools build, the
 * conversion of tool arguments into circuit definitions, the error replies
 * and the dispatch of `describe_visualization`.
 */
module BraketServer {
  import opened Wrappers
  import opened Values
  import opened Text
  import opened BraketModels
  import BraketService
  import AsciiVisualizer
  import VisualizationUtils

  const Sv1Arn: string := "arn:aws:braket:::device/quantum-simulator/amazon/sv1"

  /** `get_default_device_arn`: the stripped BRAKET_DEFAULT_DEVICE_ARN, or the SV1 simulator when that is unset or blank. */
  function DefaultDeviceArn(env: Option<string>): (arn: string)
    ensures arn != []
    ensures env.None? ==> arn == Sv1Arn
    ensures env.Some? && !IsBlank(env.value) ==> arn == Strip(env.value)
    ensures env.Some? && IsBlank(env.value) ==> arn == Sv1Arn
  {
    var stripped := Strip(if env.Some? then env.value else "");
    StripEmptyIffBlank(if env.Some? then env.value else "");
    if stripped == [] then Sv1Arn else stripped
  }

  /** The settings a service is created with: AWS_REGION (or none) and BRAKET_WORKSPACE_DIR (or the working directory). */
  datatype ServiceConfig = ServiceConfig(region: Option<string>, workspaceDir: string)

  /** The module-level `_braket_service`, created on first use. */
  class ServiceHolder {
    var service: Option<ServiceConfig>
    /** How many services have been constructed. */
    var constructed: nat

    predicate Valid()
      reads this
    {
      constructed == (if service.Some? then 1 else 0)
    }

    constructor ()
      ensures Valid() && service.None?
    {
      service := None;
      constructed := 0;
    }

    /** `get_braket_service`: the existing service, or a new one from the environment when there is none yet. */
    method GetService(region: Option<string>, workspaceDir: Option<string>, cwd: string) returns (s: ServiceConfig)
      requires Valid()
      modifies this
      ensures Valid() && service == Some(s) && constructed <= 1
      ensures old(service).Some? ==> s == old(service).value && constructed == old(constructed)
      ensures old(service).None? ==> s == ServiceConfig(region, if workspaceDir.Some? then workspaceDir.value else cwd)
    {
      if service.None? {
        service := Some(ServiceConfig(region, if workspaceDir.Some? then workspaceDir.value else cwd));
        constructed := constructed + 1;
      }
      s := service.value;
    }
  }

  /** However often it is asked for, the service is constructed once and stays the same. */
  method GetServiceTwice(holder: ServiceHolder, region: Option<string>, workspaceDir: Option<string>, cwd: string)
    returns (first: ServiceConfig, second: ServiceConfig)
    requires holder.Valid()
    modifies holder
    ensures first == second && holder.constructed == 1
  {
    first := holder.GetService(region, workspaceDir, cwd);
    second := holder.GetService(region, workspaceDir, cwd);
  }

  /** `{'error': msg}` */
  function ErrorReply(msg: string): (v: Value)
    ensures v.Dict? && v.fields.Keys == {"error"} && v.fields["error"] == Str(msg)
  {
    Dict(map["error" := Str(msg)])
  }

  /** `[{'error': msg}]`, the error reply of a tool that returns a list. */
  function ErrorListReply(msg: string): (v: Value)
    ensures v.List? && |v.items| == 1 && v.items[0] == ErrorReply(msg)
  {
    List([ErrorReply(msg)])
  }

  /** A tool's reply: the service's value, or the error message in an error dict. */
  function Reply(r: Result<Value, string>): (v: Value)
    ensures r.Ok? ==> v == r.value
    ensures r.Err? ==> v == ErrorReply(r.error)
  {
    if r.Ok? then r.value else ErrorReply(r.error)
  }

  // ---------------------------------------------------------------------
  // The circuits of the three circuit tools
  // ---------------------------------------------------------------------

  function H(q: int): Gate { Gate("h", [q], None) }
  function Cx(c: int, t: int): Gate { Gate("cx", [c, t], None) }
  function MeasureAllGate(): Gate { Gate("measure_all", [], None) }

  /** The Bell tool's circuit: h(0), cx(0, 1), measure_all on two qubits. */
  function BellCircuit(): (c: QuantumCircuit)
    ensures c.numQubits == 2 && c.gates == [H(0), Cx(0, 1), MeasureAllGate()]
  {
    Circuit(2, [H(0), Cx(0, 1), MeasureAllGate()])
  }

  /** The Bell tool's circuit is what the visualiser calls a Bell pair, and is summarised as one. */
  lemma BellCircuitIsBellPair()
    ensures AsciiVisualizer.IsBellPair(BellCircuit())
    ensures VisualizationUtils.Summary(BellCircuit()) == VisualizationUtils.BellPairSummary
  {
    var gates := BellCircuit().gates;
    assert gates[1..][1..][1..] == [];
    assert AsciiVisualizer.NamesBesidesMeasureAll(gates) == ["h", "cx"];
    VisualizationUtils.BellPairSummarised(BellCircuit());
  }

  /** The GHZ tool's gates: h(0), cx(i, i+1) for every i below n-1, then measure_all. */
  function GhzToolGates(n: int): (gates: seq<Gate>)
    ensures |gates| == (if n <= 1 then 2 else n + 1)
    ensures gates[0] == H(0) && gates[|gates| - 1] == MeasureAllGate()
    ensures forall i :: 1 <= i < |gates| - 1 ==> gates[i] == Cx(i - 1, i)
  {
    [H(0)] + seq(if n <= 1 then 0 else n - 1, i => Cx(i, i + 1)) + [MeasureAllGate()]
  }

  /** The gate list of `create_ghz_circuit`, built as the tool builds it. */
  method BuildGhzGates(n: int) returns (gates: seq<Gate>)
    ensures gates == GhzToolGates(n)
  {
    gates := [H(0)];
    var k := if n <= 1 then 0 else n - 1;
    for i := 0 to k
      invariant |gates| == i + 1 && gates[0] == H(0)
      invariant forall j :: 1 <= j <= i ==> gates[j] == Cx(j - 1, j)
    {
      gates := gates + [Cx(i, i + 1)];
    }
    gates := gates + [MeasureAllGate()];
  }

  /** For three or more qubits, the GHZ tool's circuit is what the visualiser calls a GHZ state. */
  lemma {:induction false} GhzToolCircuitIsGhzState(n: int)
    requires n >= 3
    ensures AsciiVisualizer.IsGhzState(Circuit(n, GhzToolGates(n)))
  {
    var gates := GhzToolGates(n);
    KeptNames(gates[1..|gates| - 1]);
    assert gates == [H(0)] + gates[1..|gates| - 1] + [MeasureAllGate()];
    NamesBesidesMeasureAllAppend([H(0)] + gates[1..|gates| - 1], [MeasureAllGate()]);
    NamesBesidesMeasureAllAppend([H(0)], gates[1..|gates| - 1]);
  }

  /** A run of cx gates keeps every name. */
  lemma {:induction false} KeptNames(gates: seq<Gate>)
    requires forall i :: 0 <= i < |gates| ==> gates[i].name == "cx"
    ensures AsciiVisualizer.NamesBesidesMeasureAll(gates) == AsciiVisualizer.Repeat("cx", |gates|)
  {
    if gates != [] {
      KeptNames(gates[1..]);
      assert AsciiVisualizer.Repeat("cx", |gates|) == ["cx"] + AsciiVisualizer.Repeat("cx", |gates| - 1);
    }
  }

  lemma {:induction false} NamesBesidesMeasureAllAppend(a: seq<Gate>, b: seq<Gate>)
    ensures AsciiVisualizer.NamesBesidesMeasureAll(a + b)
      == AsciiVisualizer.NamesBesidesMeasureAll(a) + AsciiVisualizer.NamesBesidesMeasureAll(b)
  {
    if a != [] {
      assert (a + b)[1..] == a[1..] + b;
      NamesBesidesMeasureAllAppend(a[1..], b);
    } else {
      assert a + b == b;
    }
  }

  /** `list(range(n))`, which is empty for a negative n. */
  function QubitRange(n: int): (qs: seq<int>)
    ensures |qs| == (if n < 0 then 0 else n) && forall i :: 0 <= i < |qs| ==> qs[i] == i
  {
    if n < 0 then [] else BraketService.Range(n)
  }

  /** The QFT tool's circuit: one qft gate on every qubit, then measure_all, with a description in the metadata. */
  function QftToolCircuit(n: int): (c: QuantumCircuit)
    ensures c.numQubits == n && c.gates == [Gate("qft", QubitRange(n), None), MeasureAllGate()]
  {
    QuantumCircuit(n, [Gate("qft", QubitRange(n), None), MeasureAllGate()],
                   Some(map["description" := Str("Quantum Fourier Transform")]))
  }

  /** With the dispatch as written the QFT tool's circuit never compiles: qft is not a gate it knows. */
  lemma QftToolFailsAsWritten(n: int)
    ensures BraketService.CompileGates(QftToolCircuit(n).gates) == Err("Unsupported gate: qft")
  {
    var gates := QftToolCircuit(n).gates;
    BraketService.QftUnsupportedAsWritten(gates[0]);
    assert "Unsupported gate: " + gates[0].name == "Unsupported gate: qft";
    BraketService.FirstFailureReported(BraketService.GateInstrsAsWritten, gates, 0);
  }

  /** With the qft branch it compiles, on every width, into the transform followed by a measurement of all qubits. */
  lemma QftToolCompiles(n: int)
    ensures BraketService.CompileGatesWithQft(QftToolCircuit(n).gates)
      == Ok(BraketService.QftInstrs(QubitRange(n)) + [BraketService.MeasureAll])
  {
    var gates := QftToolCircuit(n).gates;
    var qft := BraketService.QftInstrs(QubitRange(n));
    assert gates[..|gates| - 1] == [gates[0]] && [gates[0]][..0] == [];
    assert BraketService.GateInstrs(gates[0]) == Ok(qft);
    assert BraketService.CompileWith(BraketService.GateInstrs, [gates[0]]) == Ok([] + qft);
    assert BraketService.GateInstrs(gates[1]) == Ok([BraketService.MeasureAll]);
    assert [] + qft == qft;
    assert BraketService.CompileWith(BraketService.GateInstrs, gates) == Ok(qft + [BraketService.MeasureAll]);
  }

  // ---------------------------------------------------------------------
  // Tools
  // ---------------------------------------------------------------------

  /** The drawing, the response builder and the device client the tools reach through the service. */
  datatype Backend = Backend(
    draw: BraketService.QiskitCircuit -> Result<string, string>,
    respond: (QuantumCircuit, string, string) -> Value,
    convert: BraketService.QiskitCircuit -> Result<BraketService.BraketCircuit, string>,
    run: (string, BraketService.BraketCircuit, int, Option<(string, string)>) -> Result<string, string>)

  /** `create_bell_pair_circuit`, `create_ghz_circuit`, `create_qft_circuit`: the circuit's visualisation, or an error dict. */
  method VisualizeToolCircuit(c: QuantumCircuit, circuitType: string, backend: Backend) returns (reply: Value)
    ensures BraketService.CompileGates(c.gates).Err? ==>
      reply == ErrorReply("Error creating circuit visualization: " + (BraketService.CreationPrefix + BraketService.CompileGates(c.gates).error))
    ensures BraketService.CompileGates(c.gates).Ok? ==>
      var drawn := backend.draw(BraketService.QiskitCircuit(c.numQubits, 0, BraketService.CompileGates(c.gates).value));
      reply == (if drawn.Ok? then backend.respond(c, drawn.value, circuitType)
                else ErrorReply("Error creating circuit visualization: " + drawn.error))
  {
    var r := BraketService.CreateCircuitVisualization(c, circuitType, backend.draw, backend.respond);
    reply := Reply(r);
  }

  /** `create_qft_circuit`: as written, every width ends in the error dict naming the unsupported qft gate. */
  method CreateQftCircuitTool(n: int, backend: Backend) returns (reply: Value)
    ensures reply == ErrorReply("Error creating circuit visualization: " + (BraketService.CreationPrefix + "Unsupported gate: qft"))
  {
    QftToolFailsAsWritten(n);
    reply := VisualizeToolCircuit(QftToolCircuit(n), "qft", backend);
  }

  /** `create_ghz_circuit` */
  method CreateGhzCircuitTool(n: int, backend: Backend) returns (reply: Value)
    ensures BraketService.CompileGates(GhzToolGates(n)).Ok?
    ensures var drawn := backend.draw(BraketService.QiskitCircuit(n, 0, BraketService.CompileGates(GhzToolGates(n)).value));
      reply == (if drawn.Ok? then backend.respond(Circuit(n, GhzToolGates(n)), drawn.value, "ghz")
                else ErrorReply("Error creating circuit visualization: " + drawn.error))
  {
    var gates := BuildGhzGates(n);
    BraketService.CompilesIffWellFormed(gates);
    reply := VisualizeToolCircuit(Circuit(n, gates), "ghz", backend);
  }

  /**
   * `create_quantum_circuit`: the gate dicts become gates (a name is
   * required, qubits default to [] and params to None), and the circuit's
   * visualisation is returned; any failure becomes an error dict.
   */
  method CreateQuantumCircuitTool(numQubits: int, gateDicts: seq<Value>, backend: Backend) returns (reply: Value)
    ensures GatesOf(gateDicts).Err? ==> reply == ErrorReply(GatesOf(gateDicts).error)
    ensures GatesOf(gateDicts).Ok? && BraketService.CompileGates(GatesOf(gateDicts).value).Err? ==>
      reply == ErrorReply("Error creating circuit visualization: "
                          + (BraketService.CreationPrefix + BraketService.CompileGates(GatesOf(gateDicts).value).error))
    ensures GatesOf(gateDicts).Ok? && BraketService.CompileGates(GatesOf(gateDicts).value).Ok? ==>
      var drawn := backend.draw(BraketService.QiskitCircuit(numQubits, 0, BraketService.CompileGates(GatesOf(gateDicts).value).value));
      reply == (if drawn.Ok? then backend.respond(Circuit(numQubits, GatesOf(gateDicts).value), drawn.value, "custom")
                else ErrorReply("Error creating circuit visualization: " + drawn.error))
  {
    var gates := GatesOf(gateDicts);
    if gates.Err? {
      return ErrorReply(gates.error);
    }
    reply := VisualizeToolCircuit(Circuit(numQubits, gates.value), "custom", backend);
  }

  /** The device a task runs on: the one named, or the default. */
  function UsedArn(deviceArn: Option<string>, env: Option<string>): (arn: string)
    ensures deviceArn.Some? ==> arn == deviceArn.value
    ensures deviceArn.None? ==> arn == DefaultDeviceArn(env) && arn != []
  {
    if deviceArn.Some? then deviceArn.value else DefaultDeviceArn(env)
  }

  /** The reply of a started task. */
  function TaskStarted(taskId: string, deviceArn: string, shots: int): Value
  {
    Dict(map["task_id" := Str(taskId), "status" := Str("CREATED"), "device_arn" := Str(deviceArn), "shots" := Int(shots)])
  }

  /** The part of `run_quantum_task` after the circuit dict has been read. */
  method RunCircuit(c: QuantumCircuit, arn: string, shots: int, bucket: Option<string>, prefix: Option<string>, backend: Backend)
    returns (reply: Value)
    ensures var id := BraketService.RunOutcome(BraketService.Definition(c), arn, shots, bucket, prefix, backend.convert, backend.run);
      reply == (if id.Ok? then TaskStarted(id.value, arn, shots) else ErrorReply(id.error))
  {
    var id := BraketService.RunQuantumTask(BraketService.Definition(c), arn, shots, bucket, prefix, backend.convert, backend.run);
    if id.Err? {
      return ErrorReply(id.error);
    }
    reply := TaskStarted(id.value, arn, shots);
  }

  /**
   * `run_quantum_task`: the default device when none is named, the circuit
   * dict read as a definition, and a CREATED reply with the task id, device
   * and shots; any failure becomes an error dict.
   */
  method RunQuantumTaskTool(circuit: Value, deviceArn: Option<string>, shots: int, bucket: Option<string>, prefix: Option<string>,
                            env: Option<string>, backend: Backend)
    returns (reply: Value)
    ensures CircuitOf(circuit).Err? ==> reply == ErrorReply(CircuitOf(circuit).error)
    ensures CircuitOf(circuit).Ok? ==>
      var arn := UsedArn(deviceArn, env);
      var id := BraketService.RunOutcome(BraketService.Definition(CircuitOf(circuit).value), arn, shots, bucket, prefix,
                                         backend.convert, backend.run);
      reply == (if id.Ok? then TaskStarted(id.value, arn, shots) else ErrorReply(id.error))
  {
    var arn := UsedArn(deviceArn, env);
    var c := CircuitOf(circuit);
    if c.Err? {
      return ErrorReply(c.error);
    }
    reply := RunCircuit(c.value, arn, shots, bucket, prefix, backend);
  }

  /** `get_task_result`: the result as a dict, or an error dict. */
  function GetTaskResultTool(taskId: string, metadata: Value, outcome: Result<BraketService.Outcome, string>): (reply: Value)
    ensures BraketService.GetTaskResult(taskId, metadata, outcome).Ok? ==>
      TaskResultOf(reply) == Ok(BraketService.GetTaskResult(taskId, metadata, outcome).value)
    ensures BraketService.GetTaskResult(taskId, metadata, outcome).Err? ==>
      reply == ErrorReply(BraketService.GetTaskResult(taskId, metadata, outcome).error)
  {
    match BraketService.GetTaskResult(taskId, metadata, outcome)
    case Ok(t) => TaskResultRoundTrip(t); TaskResultValue(t)
    case Err(e) => ErrorReply(e)
  }

  /** `list_devices`: the devices as dicts, or a one-element list holding an error dict. */
  function ListDevicesTool(devices: Result<seq<Value>, string>): (reply: Value)
    ensures devices.Ok? ==> reply == List(devices.value)
    ensures devices.Err? ==> reply == ErrorListReply(devices.error)
  {
    if devices.Ok? then List(devices.value) else ErrorListReply(devices.error)
  }

  /**
   * `search_quantum_tasks`: `days_ago` becomes a created-after time (the
   * clock and the date formatting are parameters) and no created-before
   * filter is ever sent; a failure becomes a one-element list holding an
   * error dict.
   */
  method SearchQuantumTasksTool(deviceArn: Option<string>, state: Option<string>, maxResults: int, daysAgo: Option<int>,
                                daysAgoToIso: int -> string, search: (seq<BraketService.Filter>, int) -> Result<Value, string>)
    returns (reply: Value)
    ensures var after := if daysAgo.Some? then Some(daysAgoToIso(daysAgo.value)) else None;
      var response := search(BraketService.FiltersFor(deviceArn, state, after, None), maxResults);
      if response.Ok? && response.value.Dict? then reply == GetOr(response.value, "quantumTasks", List([]))
      else exists e :: reply == ErrorListReply(e) && BraketService.StartsWith("Error searching quantum tasks: ", e)
  {
    var after := if daysAgo.Some? then Some(daysAgoToIso(daysAgo.value)) else None;
    var r := BraketService.SearchQuantumTasks(deviceArn, state, maxResults, after, None, search);
    if r.Err? {
      return ErrorListReply(r.error);
    }
    reply := r.value;
  }

  // ---------------------------------------------------------------------
  // describe_visualization
  // ---------------------------------------------------------------------

  const UnknownFormat: string := "Unknown visualization data format. Expected circuit_def or result fields."

  datatype DescribeReply =
    | CircuitDescription(circuit: QuantumCircuit, description: VisualizationUtils.Description)
    | ResultsDescription(result: TaskResult)
    | DescribeError(error: string)

  /**
   * `describe_visualization`: a circuit_def is read back as a circuit and
   * described; otherwise a result is read back as a task result; otherwise
   * the data is refused. A circuit_def key wins over a result key.
   */
  method DescribeVisualization(data: map<string, Value>) returns (reply: DescribeReply)
    ensures "circuit_def" in data && CircuitOf(data["circuit_def"]).Ok? ==>
      reply.CircuitDescription? && reply.circuit == CircuitOf(data["circuit_def"]).value
    ensures "circuit_def" in data && CircuitOf(data["circuit_def"]).Err? ==>
      reply == DescribeError(CircuitOf(data["circuit_def"]).error)
    ensures "circuit_def" !in data && "result" in data ==>
      reply == (match TaskResultOf(data["result"]) case Ok(t) => ResultsDescription(t) case Err(e) => DescribeError(e))
    ensures "circuit_def" !in data && "result" !in data ==> reply == DescribeError(UnknownFormat)
    ensures reply.CircuitDescription? ==>
      (reply.description.DescribeFailed? <==> !VisualizationUtils.Describable(reply.circuit.gates))
  {
    if "circuit_def" in data {
      var c := CircuitOf(data["circuit_def"]);
      if c.Err? {
        return DescribeError(c.error);
      }
      var d := VisualizationUtils.DescribeCircuit(c.value);
      return CircuitDescription(c.value, d);
    } else if "result" in data {
      var t := TaskResultOf(data["result"]);
      if t.Err? {
        return DescribeError(t.error);
      }
      return ResultsDescription(t.value);
    }
    reply := DescribeError(UnknownFormat);
  }

  /** Describing the circuit_def of a numeric circuit describes that same circuit. */
  method DescribeCircuitDef(c: QuantumCircuit) returns (reply: DescribeReply)
    requires NumericCircuit(c)
    ensures reply.CircuitDescription? && reply.circuit == c
  {
    CircuitRoundTrip(c);
    reply := DescribeVisualization(map["circuit_def" := CircuitValue(c)]);
  }
}
