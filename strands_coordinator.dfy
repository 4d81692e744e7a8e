/**
 * The Strands coordinator's POSCAR workflow. The coordinator model's answer
 * is read as a JSON plan (a default plan when it holds none); the three
 * canonical tasks are kept in their order when the plan names their agent;
 * the tasks run through the dependency loop of the Workflow module; and the
 * `${agent.field}` strings in a task's inputs are resolved against the
 * results of earlier tasks. The model's answers and the specialists' calls
 * are parameters.
 */
module StrandsCoordinator {
  import opened Wrappers
  import opened Values
  import opened Text
  import opened Replies
  import opened Workflow
  import PoscarFormula

  const StructureMatcher: string := "structure_matcher"
  const DftExtractor: string := "dft_extractor"
  const QuantumSimulator: string := "quantum_simulator"

  /** The input references of the DFT and quantum tasks. */
  const MaterialIdRef: string := RefText(StructureMatcher, "material_id")
  const MpDataRef: string := RefText(StructureMatcher, "mp_data")
  const ParametersRef: string := RefText(DftExtractor, "parameters")

  /** The material id used when a task has none. */
  const FallbackMaterialId: string := "mp-149"

  const NotADict: string := "workflow plan has no attribute 'get'"
  const NotIterable: string := "requested agents are not iterable"
  const Unhashable: string := "unhashable type"

  /** A Python list of strings. */
  function StrList(ss: seq<string>): (v: Value)
    ensures v.List? && |v.items| == |ss|
    ensures forall k :: 0 <= k < |ss| ==> v.items[k] == Str(ss[k])
  {
    List(seq(|ss|, k requires 0 <= k < |ss| => Str(ss[k])))
  }

  // ---------------------------------------------------------------- the plan

  const DefaultAgents: seq<string> := ["structure", "dft", "quantum"]

  const DefaultPlan: Value :=
    Dict(map["agents" := StrList(DefaultAgents),
             "sequence" := Str("sequential"),
             "reasoning" := Str("Standard POSCAR analysis pipeline")])

  /** `_parse_workflow_plan`: the decoded brace span of the answer, else the default plan. */
  function ParseWorkflowPlan(response: string, decode: string -> Option<Value>): (plan: Value)
    ensures ReadReply(response, decode).Parsed? ==> plan == ReadReply(response, decode).value
    ensures !ReadReply(response, decode).Parsed? ==> plan == DefaultPlan
  {
    match ReadReply(response, decode)
    case Parsed(v) => v
    case _ => DefaultPlan
  }

  /** An answer without any `{` gives the default plan. */
  lemma AnswerWithoutJsonGivesDefaultPlan(response: string, decode: string -> Option<Value>)
    requires '{' !in response
    ensures ParseWorkflowPlan(response, decode) == DefaultPlan
  {
    NoBraceNoJson(response, decode);
  }

  /** The plan's "sequence" is "parallel". */
  predicate Parallel(plan: Value)
  {
    Get(plan, "sequence") == Some(Str("parallel"))
  }

  /** The keys `_execute_workflow` sets from the plan's sequence. */
  function ModeFields(plan: Value): (m: map<string, Value>)
    ensures "execution_mode" in m
    ensures m["execution_mode"] == Str("parallel_batch") <==> Parallel(plan)
    ensures m["execution_mode"] == Str("sequential") <==> !Parallel(plan)
    ensures "performance" in m <==> Parallel(plan)
  {
    if Parallel(plan) then map["execution_mode" := Str("parallel_batch"), "performance" := Str("optimized")]
    else map["execution_mode" := Str("sequential")]
  }

  // ---------------------------------------------------------------- task definitions

  /** `agent_mapping.get(name)` */
  function Mapped(name: string): (r: Option<string>)
    ensures r.Some? ==> |name| >= 3
  {
    if name == "structure" then Some(StructureMatcher)
    else if name == "dft" then Some(DftExtractor)
    else if name == "quantum" then Some(QuantumSimulator)
    else None
  }

  function StructureTask(poscar: string, formula: string): Task
  {
    Task(StructureMatcher, "match_poscar_to_mp", [("poscar_text", Str(poscar)), ("formula", Str(formula))], [])
  }

  const DftTask: Task := Task(DftExtractor, "extract_parameters", [("material_id", Str(MaterialIdRef))], [StructureMatcher])

  function QuantumTask(poscar: string): Task
  {
    Task(QuantumSimulator, "generate_simulation",
         [("poscar_text", Str(poscar)), ("material_data", Str(MpDataRef)), ("dft_parameters", Str(ParametersRef))],
         [StructureMatcher, DftExtractor])
  }

  /** The three tasks in their canonical order, with their inputs and dependencies. */
  function CanonicalTasks(poscar: string, formula: string): seq<Task>
  {
    [StructureTask(poscar, formula), DftTask, QuantumTask(poscar)]
  }

  /** Position of an agent in the canonical order; 3 for any other name. */
  function Rank(agent: string): nat
  {
    if agent == StructureMatcher then 0
    else if agent == DftExtractor then 1
    else if agent == QuantumSimulator then 2
    else 3
  }

  predicate RankOrdered(ts: seq<Task>)
  {
    forall i, j :: 0 <= i < j < |ts| ==> Rank(ts[i].agent) < Rank(ts[j].agent)
  }

  /** The canonical tasks are in canonical order and each depends only on tasks ranked before it. */
  lemma CanonicalShape(poscar: string, formula: string)
    ensures RankOrdered(CanonicalTasks(poscar, formula))
    ensures forall t, d :: t in CanonicalTasks(poscar, formula) && d in t.deps ==> Rank(d) < Rank(t.agent)
  {
  }

  /** The iteration of a string: its characters, each a one-character string. */
  function Chars(s: string): (r: seq<Value>)
    ensures |r| == |s|
    ensures forall k :: 0 <= k < |s| ==> r[k] == Str([s[k]])
  {
    seq(|s|, k requires 0 <= k < |s| => Str([s[k]]))
  }

  /**
   * The inner `for req_agent in requested_agents` loop for one task: true at
   * the first name that maps to the task's agent, an error at an unhashable
   * name met before that, false at the end.
   */
  function Requests(items: seq<Value>, agent: string): (r: Result<bool, string>)
    ensures (forall k :: 0 <= k < |items| ==> items[k].Str?) ==>
              r.Ok? && (r.value <==> exists k :: 0 <= k < |items| && Mapped(items[k].s) == Some(agent))
    ensures r.Err? ==> exists k :: 0 <= k < |items| && (items[k].List? || items[k].Dict?)
    decreases |items|
  {
    if items == [] then Ok(false)
    else if items[0].List? || items[0].Dict? then Err(Unhashable)
    else if items[0].Str? && Mapped(items[0].s) == Some(agent) then Ok(true)
    else Requests(items[1..], agent)
  }

  /** Whether the requested agents keep the task of `agent`, or the error the loop raises. */
  function Keeps(requested: Value, agent: string): Result<bool, string>
  {
    match requested
    case List(items) => Requests(items, agent)
    case Str(s) => Requests(Chars(s), agent)
    case Dict(fields) => Ok(exists k :: k in fields && Mapped(k) == Some(agent))
    case _ => Err(NotIterable)
  }

  /** Iterating a string goes over characters, and no single character names an agent. */
  lemma StringRequestsNothing(s: string, agent: string)
    ensures Keeps(Str(s), agent) == Ok(false)
  {
  }

  /** The outer loop: the tasks kept, in their order, or the first error. */
  function Filter(tasks: seq<Task>, requested: Value): (r: Result<seq<Task>, string>)
    ensures r.Ok? <==> forall k :: 0 <= k < |tasks| ==> Keeps(requested, tasks[k].agent).Ok?
    ensures r.Ok? ==> forall t :: t in r.value <==> t in tasks && Keeps(requested, t.agent) == Ok(true)
    decreases |tasks|
  {
    if tasks == [] then Ok([])
    else
      match Keeps(requested, tasks[0].agent)
      case Err(e) => Err(e)
      case Ok(keep) =>
        match Filter(tasks[1..], requested)
        case Err(e) => Err(e)
        case Ok(rest) => Ok(if keep then [tasks[0]] + rest else rest)
  }

  /** Filtering keeps the canonical order. */
  lemma {:induction false} FilterKeepsOrder(tasks: seq<Task>, requested: Value)
    requires RankOrdered(tasks) && Filter(tasks, requested).Ok?
    ensures RankOrdered(Filter(tasks, requested).value)
    decreases |tasks|
  {
    if tasks != [] {
      var rest := Filter(tasks[1..], requested).value;
      FilterKeepsOrder(tasks[1..], requested);
      forall t | t in rest ensures Rank(tasks[0].agent) < Rank(t.agent) {
        var j :| 0 <= j < |tasks[1..]| && tasks[1..][j] == t;
        assert tasks[j + 1] == t;
      }
    }
  }

  /** Agents in strictly increasing rank are distinct. */
  lemma RankOrderedDistinct(ts: seq<Task>)
    requires RankOrdered(ts)
    ensures DistinctAgents(ts)
  {
  }

  /** `plan.get("agents", [...])` on a dict plan. */
  function RequestedAgents(plan: Value): Value
  {
    GetOr(plan, "agents", StrList(DefaultAgents))
  }

  /** `_create_task_definitions`: the canonical tasks the plan requests, or the error it raises. */
  function TaskDefinitions(plan: Value, poscar: string): (r: Result<seq<Task>, string>)
    ensures !plan.Dict? ==> r == Err(NotADict)
    ensures r.Ok? ==> RankOrdered(r.value) && DistinctAgents(r.value)
    ensures r.Ok? ==> forall t :: t in r.value ==> t in CanonicalTasks(poscar, PoscarFormula.FirstElement(poscar))
  {
    if !plan.Dict? then Err(NotADict)
    else
      var tasks := CanonicalTasks(poscar, PoscarFormula.FirstElement(poscar));
      CanonicalShape(poscar, PoscarFormula.FirstElement(poscar));
      var r := Filter(tasks, RequestedAgents(plan));
      if r.Ok? then
        FilterKeepsOrder(tasks, RequestedAgents(plan));
        RankOrderedDistinct(r.value);
        r
      else r
  }

  /** The inner loop with its `break`. */
  method RequestedBy(requested: Value, agent: string) returns (r: Result<bool, string>)
    ensures r == Keeps(requested, agent)
  {
    var items: seq<Value>;
    match requested {
      case List(xs) => items := xs;
      case Str(s) => items := Chars(s);
      case Dict(fields) => return Ok(exists k :: k in fields && Mapped(k) == Some(agent));
      case _ => return Err(NotIterable);
    }
    for j := 0 to |items|
      invariant Requests(items[j..], agent) == Requests(items, agent)
    {
      assert items[j..][1..] == items[j + 1..];
      var req := items[j];
      if req.List? || req.Dict? {
        return Err(Unhashable);
      }
      if req.Str? && Mapped(req.s) == Some(agent) {
        return Ok(true);
      }
    }
    return Ok(false);
  }

  /** The tasks kept so far before what the rest of the loop gives. */
  function Prefixed(kept: seq<Task>, rest: Result<seq<Task>, string>): Result<seq<Task>, string>
  {
    if rest.Ok? then Ok(kept + rest.value) else rest
  }

  /** One turn of the outer loop, as `Filter` sees it. */
  lemma FilterStep(tasks: seq<Task>, i: nat, requested: Value)
    requires i < |tasks|
    ensures Keeps(requested, tasks[i].agent).Err? ==> Filter(tasks[i..], requested) == Err(Keeps(requested, tasks[i].agent).error)
    ensures Keeps(requested, tasks[i].agent) == Ok(true) ==>
              Filter(tasks[i..], requested) == Prefixed([tasks[i]], Filter(tasks[i + 1..], requested))
    ensures Keeps(requested, tasks[i].agent) == Ok(false) ==>
              Filter(tasks[i..], requested) == Filter(tasks[i + 1..], requested)
  {
    assert tasks[i..][1..] == tasks[i + 1..];
  }

  /** Keeping one more task moves it from the rest to the kept prefix. */
  lemma PrefixedAppend(kept: seq<Task>, t: Task, rest: Result<seq<Task>, string>)
    ensures Prefixed(kept, Prefixed([t], rest)) == Prefixed(kept + [t], rest)
  {
    if rest.Ok? {
      assert kept + ([t] + rest.value) == kept + [t] + rest.value;
    }
  }

  /** The outer `for task in tasks` loop, appending each kept task. */
  method FilterTasks(tasks: seq<Task>, requested: Value) returns (r: Result<seq<Task>, string>)
    ensures r == Filter(tasks, requested)
  {
    var filtered: seq<Task> := [];
    assert tasks[0..] == tasks;
    assert Filter(tasks, requested).Ok? ==> [] + Filter(tasks, requested).value == Filter(tasks, requested).value;
    for i := 0 to |tasks|
      invariant Filter(tasks, requested) == Prefixed(filtered, Filter(tasks[i..], requested))
    {
      FilterStep(tasks, i, requested);
      var keep := RequestedBy(requested, tasks[i].agent);
      if keep.Err? {
        assert Filter(tasks[i..], requested) == Err(keep.error);
        return Err(keep.error);
      }
      var rest := Filter(tasks[i + 1..], requested);
      if keep.value {
        PrefixedAppend(filtered, tasks[i], rest);
        filtered := filtered + [tasks[i]];
      } else {
        assert Filter(tasks[i..], requested) == rest;
      }
    }
    assert tasks[|tasks|..] == [];
    assert filtered + [] == filtered;
    return Ok(filtered);
  }

  /** `_create_task_definitions` */
  method CreateTaskDefinitions(plan: Value, poscar: string) returns (r: Result<seq<Task>, string>)
    ensures r == TaskDefinitions(plan, poscar)
  {
    if !plan.Dict? {
      return Err(NotADict);
    }
    var formula := PoscarFormula.FirstElement(poscar);
    var tasks := CanonicalTasks(poscar, formula);
    r := FilterTasks(tasks, RequestedAgents(plan));
  }

  // ---------------------------------------------------------------- input references

  /** `value[2:-1]` */
  function RefBody(s: string): string
  {
    if |s| >= 3 then s[2..|s| - 1] else ""
  }

  /** The `(agent, field)` a string names: it starts with "${" and its body splits on '.' into exactly two parts. */
  function Reference(s: string): (r: Option<(string, string)>)
    ensures r.Some? ==> StartsWith(s, "${") && '.' !in r.value.0 && '.' !in r.value.1
    ensures !StartsWith(s, "${") ==> r.None?
  {
    var parts := Split(RefBody(s), '.');
    if StartsWith(s, "${") && |parts| == 2 then Some((parts[0], parts[1])) else None
  }

  /** The reference text `${agent.field}`. */
  function RefText(agent: string, field: string): string
  {
    "${" + agent + "." + field + "}"
  }

  /** A reference text names its agent and field back. */
  lemma ReferenceRoundTrip(agent: string, field: string)
    requires '.' !in agent && '.' !in field
    ensures Reference(RefText(agent, field)) == Some((agent, field))
  {
    var s := RefText(agent, field);
    assert RefBody(s) == agent + ['.'] + field;
    SplitAtSep(agent, field, '.');
    SplitNoSep(field, '.');
  }

  /** The resolution of one input value against the results so far. */
  function ResolveValue(v: Value, context: map<string, Record>): Value
  {
    if v.Str? && Reference(v.s).Some? then
      var (agent, field) := Reference(v.s).value;
      if agent in context && field in context[agent] then context[agent][field] else v
    else v
  }

  /** `${agent.field}` becomes the recorded field when the agent's result has it, and stays as written otherwise. */
  lemma ResolveReference(agent: string, field: string, context: map<string, Record>)
    requires '.' !in agent && '.' !in field
    ensures agent in context && field in context[agent] ==>
              ResolveValue(Str(RefText(agent, field)), context) == context[agent][field]
    ensures !(agent in context && field in context[agent]) ==>
              ResolveValue(Str(RefText(agent, field)), context) == Str(RefText(agent, field))
  {
    ReferenceRoundTrip(agent, field);
  }

  /** Values that are not strings starting with "${", and references without exactly two parts, stay as they are. */
  lemma NonReferenceUnchanged(v: Value, context: map<string, Record>)
    requires !v.Str? || !StartsWith(v.s, "${") || |Split(RefBody(v.s), '.')| != 2
    ensures ResolveValue(v, context) == v
  {
  }

  /** A dict literal from its key-value pairs; a later pair wins. */
  function InputsMap(inputs: seq<(string, Value)>): (m: map<string, Value>)
    ensures forall k :: k in m <==> exists i :: 0 <= i < |inputs| && inputs[i].0 == k
    decreases |inputs|
  {
    if inputs == [] then map[]
    else
      var n := |inputs| - 1;
      var m := InputsMap(inputs[..n]);
      assert forall i :: 0 <= i < n ==> inputs[..n][i] == inputs[i];
      m[inputs[n].0 := inputs[n].1]
  }

  /** Each key of the literal maps to its value, when no later pair repeats the key. */
  lemma {:induction false} InputsMapLookup(inputs: seq<(string, Value)>, i: nat)
    requires i < |inputs|
    requires forall j :: i < j < |inputs| ==> inputs[j].0 != inputs[i].0
    ensures inputs[i].0 in InputsMap(inputs) && InputsMap(inputs)[inputs[i].0] == inputs[i].1
    decreases |inputs|
  {
    var n := |inputs| - 1;
    if i < n {
      InputsMapLookup(inputs[..n], i);
    }
  }

  /** The pairs with every value resolved. */
  function ResolveAll(inputs: seq<(string, Value)>, context: map<string, Record>): (r: seq<(string, Value)>)
    ensures |r| == |inputs|
    ensures forall k :: 0 <= k < |inputs| ==> r[k] == (inputs[k].0, ResolveValue(inputs[k].1, context))
  {
    seq(|inputs|, k requires 0 <= k < |inputs| => (inputs[k].0, ResolveValue(inputs[k].1, context)))
  }

  /** `_resolve_inputs`: the inputs with every reference resolved. */
  method ResolveInputs(inputs: seq<(string, Value)>, context: map<string, Record>) returns (resolved: map<string, Value>)
    ensures resolved == InputsMap(ResolveAll(inputs, context))
    ensures resolved.Keys == InputsMap(inputs).Keys
  {
    resolved := map[];
    for i := 0 to |inputs|
      invariant resolved == InputsMap(ResolveAll(inputs[..i], context))
    {
      assert ResolveAll(inputs[..i + 1], context)[..i] == ResolveAll(inputs[..i], context);
      var (key, value) := inputs[i];
      resolved := resolved[key := ResolveValue(value, context)];
    }
    assert inputs[..|inputs|] == inputs;
  }

  // ---------------------------------------------------------------- running a task

  /** The specialists and the coordinator model, as the calls they make. */
  datatype Specialists = Specialists(
    matchPoscar: (string, Value) -> Record,
    extractDft: (Value, Value) -> Record,
    generateCode: (Value, Value, Value) -> Result<string, string>,
    show: Value -> string)

  /** `_generate_quantum_code`: the model's code with the parameters and id it was given, or the error. */
  function GenerateQuantumCode(materialId: Value, mpData: Value, dftParams: Value, sp: Specialists): (r: Record)
    ensures "status" in r && (r["status"] == Str("success") <==> sp.generateCode(materialId, mpData, dftParams).Ok?)
    ensures sp.generateCode(materialId, mpData, dftParams).Ok? ==>
              "parameters_used" in r && r["parameters_used"] == dftParams &&
              "material_id" in r && r["material_id"] == materialId
  {
    match sp.generateCode(materialId, mpData, dftParams)
    case Ok(code) =>
      map["status" := Str("success"), "code" := Str(code), "parameters_used" := dftParams, "material_id" := materialId]
    case Err(e) => map["status" := Str("error"), "message" := Str(e)]
  }

  /** `resolved.get(key, default)` */
  function InputOr(resolved: map<string, Value>, key: string, default: Value): Value
  {
    if key in resolved then resolved[key] else default
  }

  /** `context.get("structure_matcher", {}).get("structure_analysis", {}).get("mp_data", {})` */
  function MatchedMpData(context: map<string, Record>): Value
  {
    var matched := if StructureMatcher in context then Dict(context[StructureMatcher]) else Dict(map[]);
    var analysis := GetOr(matched, "structure_analysis", Dict(map[]));
    GetOr(analysis, "mp_data", Dict(map[]))
  }

  /** The key each agent's result is recorded under. */
  function ResultKey(agent: string): string
  {
    if agent == StructureMatcher then "structure_analysis"
    else if agent == DftExtractor then "dft_parameters"
    else "quantum_simulation"
  }

  /**
   * One task, its references resolved against `lookup`: the structure
   * match, the DFT extraction, the code generation, or a bare completion
   * for any other agent.
   */
  function RunTask(task: Task, context: map<string, Record>, lookup: map<string, Record>, sp: Specialists): (r: Record)
    ensures task.agent !in {StructureMatcher, DftExtractor, QuantumSimulator} ==> r == map["status" := Str("completed")]
    ensures task.agent in {StructureMatcher, DftExtractor, QuantumSimulator} ==>
              r.Keys == {ResultKey(task.agent)} && r[ResultKey(task.agent)].Dict?
  {
    var resolved := InputsMap(ResolveAll(task.inputs, lookup));
    if task.agent == StructureMatcher then
      var poscar := InputOr(resolved, "poscar_text", Null);
      var text := if poscar.Str? then poscar.s else sp.show(poscar);
      map["structure_analysis" := Dict(sp.matchPoscar(text, InputOr(resolved, "formula", Null)))]
    else if task.agent == DftExtractor then
      var materialId := InputOr(resolved, "material_id", Str(FallbackMaterialId));
      map["dft_parameters" := Dict(sp.extractDft(materialId, MatchedMpData(context)))]
    else if task.agent == QuantumSimulator then
      var materialId := InputOr(resolved, "material_id", Str(FallbackMaterialId));
      var mpData := InputOr(resolved, "material_data", Dict(map[]));
      var dftParams := InputOr(resolved, "dft_parameters", Dict(map[]));
      map["quantum_simulation" := Dict(GenerateQuantumCode(materialId, mpData, dftParams, sp))]
    else map["status" := Str("completed")]
  }

  /** `_execute_task` as written: references resolved against the recorded results themselves. */
  function ExecuteTaskAsWritten(task: Task, context: map<string, Record>, sp: Specialists): Record
  {
    RunTask(task, context, context, sp)
  }

  /** The recorded results with each agent's result taken out of the key it is recorded under. */
  function Unwrapped(context: map<string, Record>): (u: map<string, Record>)
    ensures u.Keys == context.Keys
  {
    map a | a in context ::
      if ResultKey(a) in context[a] && context[a][ResultKey(a)].Dict? then context[a][ResultKey(a)].fields
      else context[a]
  }

  /** `_execute_task` with references resolved against the agents' own results. */
  function ExecuteTask(task: Task, context: map<string, Record>, sp: Specialists): Record
  {
    RunTask(task, context, Unwrapped(context), sp)
  }

  /**
   * As written, the DFT task never sees the matched material id: the
   * structure result is recorded under "structure_analysis", so
   * `${structure_matcher.material_id}` finds no "material_id" and the
   * extractor receives the reference text itself.
   */
  lemma DftGetsReferenceText(poscar: string, formula: string, context: map<string, Record>, sp: Specialists)
    requires StructureMatcher in context ==> "material_id" !in context[StructureMatcher]
    ensures ExecuteTaskAsWritten(CanonicalTasks(poscar, formula)[1], context, sp) ==
              map["dft_parameters" := Dict(sp.extractDft(Str(MaterialIdRef), MatchedMpData(context)))]
  {
    var task := CanonicalTasks(poscar, formula)[1];
    ResolveReference(StructureMatcher, "material_id", context);
    InputsMapLookup(ResolveAll(task.inputs, context), 0);
  }

  /** Every record the structure task leaves has "structure_analysis" as its only key, so the premise above always holds. */
  lemma StructureRecordHasNoMaterialId(task: Task, context: map<string, Record>, sp: Specialists)
    requires task.agent == StructureMatcher
    ensures "material_id" !in ExecuteTaskAsWritten(task, context, sp)
    ensures "material_id" !in ExecuteTask(task, context, sp)
  {
  }

  /** With references resolved against the agents' own results, the DFT task gets the matched material id. */
  lemma DftGetsMatchedId(poscar: string, formula: string, context: map<string, Record>, sp: Specialists, matched: map<string, Value>)
    requires StructureMatcher in context && context[StructureMatcher] == map["structure_analysis" := Dict(matched)]
    requires "material_id" in matched
    ensures ExecuteTask(CanonicalTasks(poscar, formula)[1], context, sp) ==
              map["dft_parameters" := Dict(sp.extractDft(matched["material_id"], MatchedMpData(context)))]
  {
    var task := CanonicalTasks(poscar, formula)[1];
    var u := Unwrapped(context);
    assert u[StructureMatcher] == matched;
    ResolveReference(StructureMatcher, "material_id", u);
    InputsMapLookup(ResolveAll(task.inputs, u), 0);
  }

  // ---------------------------------------------------------------- the workflow

  /** How `_execute_workflow` ends: its results, an exception's message, or a loop that never ends. */
  datatype Run = Completed(results: Record) | Raised(message: string) | Spins(state: State)

  /** A task as the dict it is listed as under "tasks". */
  function TaskValue(t: Task): Value
  {
    Dict(map["agent" := Str(t.agent), "action" := Str(t.action),
             "inputs" := Dict(InputsMap(t.inputs)), "dependencies" := StrList(t.deps)])
  }

  /** The workflow's results: id, plan, tasks, each agent's result, then the execution mode. */
  function Results(plan: Value, tasks: seq<Task>, hash: int, taskResults: map<string, Record>): Record
  {
    var listed := List(seq(|tasks|, k requires 0 <= k < |tasks| => TaskValue(tasks[k])));
    var head := map["workflow_id" := Str("poscar_analysis_" + IntToString(hash % 10000)),
                    "workflow_plan" := plan, "tasks" := listed];
    head + (map a | a in taskResults :: Dict(taskResults[a])) + ModeFields(plan)
  }

  /** The task executor the loop is given: `_execute_task` as written. */
  function Executor(sp: Specialists): (Task, map<string, Record>) -> Record
  {
    (t: Task, context: map<string, Record>) => ExecuteTaskAsWritten(t, context, sp)
  }

  /** `_execute_workflow` from the plan; `hash` is `hash(poscar_text)`. */
  function WorkflowRun(plan: Value, poscar: string, hash: int, sp: Specialists): Run
  {
    match TaskDefinitions(plan, poscar)
    case Err(e) => Raised(e)
    case Ok(tasks) =>
      StartValid(tasks);
      match Schedule(tasks, Start, Executor(sp))
      case Stuck(s) => Spins(s)
      case Finished(s) => Completed(Results(plan, tasks, hash, s.results))
  }

  /** `_execute_workflow` */
  method ExecuteWorkflow(plan: Value, poscar: string, hash: int, sp: Specialists) returns (r: Run)
    ensures r == WorkflowRun(plan, poscar, hash, sp)
  {
    var defined := CreateTaskDefinitions(plan, poscar);
    if defined.Err? {
      return Raised(defined.error);
    }
    var tasks := defined.value;
    var o := Workflow.ExecuteWorkflow(tasks, Executor(sp));
    StartValid(tasks);
    if o.Stuck? {
      return Spins(o.state);
    }
    r := Completed(Results(plan, tasks, hash, o.state.results));
  }

  /** What `execute_poscar_workflow` returns, or that it never returns. */
  datatype Reply = Returns(value: Record) | NeverReturns(state: State)

  function ErrorRecord(message: string): Record
  {
    map["status" := Str("error"), "message" := Str(message)]
  }

  /** `execute_poscar_workflow`: `answer` is the coordinator model's reply to the planning prompt, or its exception. */
  function PoscarWorkflow(poscar: string, answer: Result<string, string>, decode: string -> Option<Value>,
                          hash: int, sp: Specialists): (r: Reply)
    ensures answer.Err? ==> r == Returns(ErrorRecord(answer.error))
    ensures answer.Ok? ==>
              var run := WorkflowRun(ParseWorkflowPlan(answer.value, decode), poscar, hash, sp);
              && (run.Completed? ==> r == Returns(run.results))
              && (run.Raised? ==> r == Returns(ErrorRecord(run.message)))
              && (run.Spins? ==> r == NeverReturns(run.state))
  {
    match answer
    case Err(e) => Returns(ErrorRecord(e))
    case Ok(response) =>
      match WorkflowRun(ParseWorkflowPlan(response, decode), poscar, hash, sp)
      case Completed(results) => Returns(results)
      case Raised(e) => Returns(ErrorRecord(e))
      case Spins(s) => NeverReturns(s)
  }

  // ---------------------------------------------------------------- which plans finish

  /** In a list in canonical order whose dependencies rank lower and are all listed, each dependency comes earlier. */
  lemma RankedDepsEarlier(tasks: seq<Task>)
    requires RankOrdered(tasks)
    requires forall t, d :: t in tasks && d in t.deps ==> Rank(d) < Rank(t.agent)
    requires forall t, d :: t in tasks && d in t.deps ==> d in AgentsOf(tasks)
    ensures DepsEarlier(tasks)
  {
    forall i | 0 <= i < |tasks| ensures DepsBefore(tasks, i) {
      forall d | d in tasks[i].deps ensures d in AgentsOf(tasks[..i]) {
        assert tasks[i] in tasks;
        assert d in AgentsOf(tasks) && Rank(d) < Rank(tasks[i].agent);
        var k :| 0 <= k < |tasks| && tasks[k].agent == d;
        assert k < i;
        assert tasks[..i][k] == tasks[k];
      }
    }
  }

  /** The tasks a plan keeps finish exactly when every dependency is among them. */
  lemma KeptTasksFinishIff(plan: Value, poscar: string, exec: (Task, map<string, Record>) -> Record)
    requires TaskDefinitions(plan, poscar).Ok?
    ensures var tasks := TaskDefinitions(plan, poscar).value;
            Schedule(tasks, Start, exec).Finished? <==>
              forall t, d :: t in tasks && d in t.deps ==> d in AgentsOf(tasks)
  {
    var tasks := TaskDefinitions(plan, poscar).value;
    StartValid(tasks);
    if Schedule(tasks, Start, exec).Finished? {
      FinishedDepsListed(tasks, exec);
    } else if forall t, d :: t in tasks && d in t.deps ==> d in AgentsOf(tasks) {
      CanonicalShape(poscar, PoscarFormula.FirstElement(poscar));
      RankedDepsEarlier(tasks);
      OrderedFinishes(tasks, exec);
    }
  }

  /** The default agent list keeps every canonical task. */
  lemma DefaultAgentsKeepAll(poscar: string, formula: string)
    ensures Filter(CanonicalTasks(poscar, formula), StrList(DefaultAgents)) == Ok(CanonicalTasks(poscar, formula))
  {
    var c := CanonicalTasks(poscar, formula);
    var requested := StrList(DefaultAgents);
    var items := requested.items;
    assert Mapped(items[0].s) == Some(StructureMatcher);
    assert Mapped(items[1].s) == Some(DftExtractor);
    assert Mapped(items[2].s) == Some(QuantumSimulator);
    assert Keeps(requested, c[0].agent) == Ok(true);
    assert Keeps(requested, c[1].agent) == Ok(true);
    assert Keeps(requested, c[2].agent) == Ok(true);
    assert c[3..] == [] && c[0..] == c;
    FilterStep(c, 2, requested);
    FilterStep(c, 1, requested);
    FilterStep(c, 0, requested);
    assert [c[0]] + ([c[1]] + ([c[2]] + [])) == c;
  }

  /** The default plan keeps all three tasks. */
  lemma DefaultPlanKeepsAll(poscar: string)
    ensures TaskDefinitions(DefaultPlan, poscar) == Ok(CanonicalTasks(poscar, PoscarFormula.FirstElement(poscar)))
  {
    assert RequestedAgents(DefaultPlan) == StrList(DefaultAgents);
    DefaultAgentsKeepAll(poscar, PoscarFormula.FirstElement(poscar));
  }

  /** The canonical tasks run in their order. */
  lemma CanonicalDepsEarlier(poscar: string, formula: string)
    ensures DistinctAgents(CanonicalTasks(poscar, formula)) && DepsEarlier(CanonicalTasks(poscar, formula))
  {
    var tasks := CanonicalTasks(poscar, formula);
    CanonicalShape(poscar, formula);
    assert tasks[..1][0].agent == StructureMatcher;
    assert StructureMatcher in AgentsOf(tasks[..1]);
    assert DepsBefore(tasks, 1);
    assert tasks[..2][0].agent == StructureMatcher && tasks[..2][1].agent == DftExtractor;
    assert StructureMatcher in AgentsOf(tasks[..2]) && DftExtractor in AgentsOf(tasks[..2]);
    assert DepsBefore(tasks, 2);
    assert DepsBefore(tasks, 0);
  }

  /** An answer without a plan runs all three tasks, in canonical order, to completion. */
  lemma DefaultPlanCompletes(poscar: string, response: string, decode: string -> Option<Value>, hash: int, sp: Specialists)
    requires '{' !in response
    ensures PoscarWorkflow(poscar, Ok(response), decode, hash, sp).Returns?
    ensures var tasks := CanonicalTasks(poscar, PoscarFormula.FirstElement(poscar));
            Schedule(tasks, Start, Executor(sp)).Finished? &&
            Schedule(tasks, Start, Executor(sp)).state.trace == tasks
  {
    AnswerWithoutJsonGivesDefaultPlan(response, decode);
    DefaultPlanKeepsAll(poscar);
    var tasks := CanonicalTasks(poscar, PoscarFormula.FirstElement(poscar));
    CanonicalDepsEarlier(poscar, PoscarFormula.FirstElement(poscar));
    OrderedFinishes(tasks, Executor(sp));
  }

  /** The agent list ["dft"] keeps the DFT task alone. */
  lemma DftAloneKeepsDftTask(poscar: string, formula: string)
    ensures Filter(CanonicalTasks(poscar, formula), StrList(["dft"])) == Ok([DftTask])
  {
    var c := CanonicalTasks(poscar, formula);
    var requested := StrList(["dft"]);
    assert Mapped(requested.items[0].s) == Some(DftExtractor);
    assert Keeps(requested, c[0].agent) == Ok(false);
    assert Keeps(requested, c[1].agent) == Ok(true);
    assert Keeps(requested, c[2].agent) == Ok(false);
    assert c[3..] == [] && c[0..] == c;
    FilterStep(c, 2, requested);
    FilterStep(c, 1, requested);
    FilterStep(c, 0, requested);
    assert [c[1]] + [] == [DftTask];
  }

  /** A plan asking for the DFT agent alone keeps a task whose dependency was dropped: the loop never ends. */
  lemma DftOnlyPlanSpins(poscar: string, hash: int, sp: Specialists)
    ensures WorkflowRun(Dict(map["agents" := StrList(["dft"])]), poscar, hash, sp).Spins?
  {
    var plan := Dict(map["agents" := StrList(["dft"])]);
    assert RequestedAgents(plan) == StrList(["dft"]);
    DftAloneKeepsDftTask(poscar, PoscarFormula.FirstElement(poscar));
    assert TaskDefinitions(plan, poscar) == Ok([DftTask]);
    assert AgentsOf([DftTask]) == {DftExtractor};
    StartValid([DftTask]);
    UnlistedDependencyIsStuck([DftTask], Executor(sp), 0, StructureMatcher);
  }

  /** `execution_mode` is "parallel_batch" exactly when the plan's sequence is "parallel". */
  lemma ExecutionModeIff(plan: Value, poscar: string, hash: int, sp: Specialists)
    requires WorkflowRun(plan, poscar, hash, sp).Completed?
    ensures var results := WorkflowRun(plan, poscar, hash, sp).results;
            "execution_mode" in results &&
            (results["execution_mode"] == Str("parallel_batch") <==> Parallel(plan)) &&
            (results["execution_mode"] == Str("sequential") <==> !Parallel(plan))
  {
  }
}
