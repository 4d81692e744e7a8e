/**
 * The agentic refinement loop: at most five rounds, each asking the model
 * for a decision, carrying the decided action out with one of the agents or
 * MCP tools, recording the round, and either stopping (solved, or an
 * exception) or refining the query for the next round. The model, the
 * agents and the tools are parameters.
 */
module AgenticLoop {
  import opened Wrappers
  import opened Values
  import opened Text
  import opened Replies

  const MaxIterations: nat := 5

  const NoIndex: string := "list index out of range"
  const NotIterable: string := "object is not iterable"

  function ErrorRecord(message: string): Value
  {
    Dict(map["status" := Str("error"), "message" := Str(message)])
  }

  /** A Python list of strings. */
  function StrList(ss: seq<string>): (v: Value)
    ensures v.List? && |v.items| == |ss|
  {
    List(seq(|ss|, k requires 0 <= k < |ss| => Str(ss[k])))
  }

  /** `str(v)` inside an f-string: a string as itself, anything else as `show` renders it. */
  function Format(v: Value, show: Value -> string): string
  {
    if v.Str? then v.s else show(v)
  }

  // ---------------------------------------------------------------- the decision

  const FallbackDecision: Value :=
    Dict(map["solved" := Bool(false), "next_action" := Str("search"), "mcp_tool" := Str("search"),
             "params" := Dict(map[]), "reasoning" := Str("Fallback decision")])

  /** `_parse_decision`: the decoded brace span of the answer, else the fallback decision. */
  function ParseDecision(response: string, decode: string -> Option<Value>): (d: Value)
    ensures ReadReply(response, decode).Parsed? ==> d == ReadReply(response, decode).value
    ensures !ReadReply(response, decode).Parsed? ==> d == FallbackDecision
  {
    match ReadReply(response, decode)
    case Parsed(v) => v
    case _ => FallbackDecision
  }

  /** An answer without JSON gives an unsolved decision. */
  lemma UnparsedAnswerIsUnsolved(response: string, decode: string -> Option<Value>)
    requires '{' !in response
    ensures ParseDecision(response, decode) == FallbackDecision
    ensures !TruthyKey(ParseDecision(response, decode), "solved")
  {
    NoBraceNoJson(response, decode);
  }

  // ---------------------------------------------------------------- single MCP actions

  /** The MCP tool calls the loop makes. */
  datatype McpCall =
    | Search(formula: Value)
    | Moire(uri: Value, spacing: Value, maxAtoms: int, twist: Value, vacuum: real)
    | Plot(uri: Value, dims: Value)
    | Supercell(uri: Value, params: Value)

  const DefaultDims: Value := List([Int(1), Int(1), Int(1)])

  const DefaultScaling: Value :=
    List([List([Int(2), Int(0), Int(0)]), List([Int(0), Int(2), Int(0)]), List([Int(0), Int(0), Int(2)])])

  /** The call a single action makes: none when a structure tool has no structure URI, an error when the parameters are not a dict. */
  function SingleCall(toolName: Value, params: Value): (r: Result<Option<McpCall>, string>)
    ensures r.Err? ==> !params.Dict?
    ensures toolName !in {Str("search"), Str("moire_homobilayer"), Str("plot_structure"), Str("build_supercell")} ==>
              r == Ok(None)
    ensures r.Ok? && r.value.Some? && !r.value.value.Search? ==> TruthyKey(params, "structure_uri")
  {
    if toolName == Str("search") then
      if params.Dict? then Ok(Some(Search(GetOr(params, "formula", Str("Si"))))) else Err(NoGet)
    else if toolName == Str("moire_homobilayer") then
      if !params.Dict? then Err(NoGet)
      else
        var uri := GetOr(params, "structure_uri", Null);
        if Truthy(uri) then
          Ok(Some(Moire(uri, GetOr(params, "interlayer_spacing", Num(3.4)), 10, GetOr(params, "twist_angle", Num(1.1)), 15.0)))
        else Ok(None)
    else if toolName == Str("plot_structure") then
      if !params.Dict? then Err(NoGet)
      else
        var uri := GetOr(params, "structure_uri", Null);
        if Truthy(uri) then Ok(Some(Plot(uri, GetOr(params, "dimensions", DefaultDims)))) else Ok(None)
    else if toolName == Str("build_supercell") then
      if !params.Dict? then Err(NoGet)
      else
        var uri := GetOr(params, "structure_uri", Null);
        if Truthy(uri) then
          Ok(Some(Supercell(uri, Dict(map["scaling_matrix" := GetOr(params, "scaling_matrix", DefaultScaling)]))))
        else Ok(None)
    else Ok(None)
  }

  function ActionExecuted(toolName: Value): Value
  {
    Dict(map["status" := Str("action_executed"), "tool" := toolName])
  }

  /** `_execute_single_mcp_action`: the tool's answer, "action_executed" when no call is made, or the error. */
  function ExecuteSingleMcpAction(toolName: Value, params: Value, mcp: McpCall -> Result<Value, string>): Value
  {
    match SingleCall(toolName, params)
    case Err(e) => ErrorRecord(e)
    case Ok(None) => ActionExecuted(toolName)
    case Ok(Some(call)) =>
      match mcp(call)
      case Ok(v) => v
      case Err(e) => ErrorRecord(e)
  }

  /** A structure tool without a structure URI calls nothing and reports the action as executed. */
  lemma NoUriNoCall(toolName: Value, params: Value, mcp: McpCall -> Result<Value, string>)
    requires toolName in {Str("moire_homobilayer"), Str("plot_structure"), Str("build_supercell")}
    requires params.Dict? && !TruthyKey(params, "structure_uri")
    ensures SingleCall(toolName, params) == Ok(None)
    ensures ExecuteSingleMcpAction(toolName, params, mcp) ==
              Dict(map["status" := Str("action_executed"), "tool" := toolName])
  {
  }

  // ---------------------------------------------------------------- batch MCP actions

  /** What `for material in materials` goes over: list items or characters; None where Python cannot iterate. */
  function Iterated(v: Value): (r: Option<seq<Value>>)
    ensures v.List? ==> r == Some(v.items)
    ensures v.Str? ==> r.Some? && |r.value| == |v.s|
  {
    match v
    case List(items) => Some(items)
    case Str(s) => Some(seq(|s|, k requires 0 <= k < |s| => Str([s[k]])))
    case _ => None
  }

  /** One batch invocation of the materials search. */
  function SearchInvocation(material: Value, show: Value -> string): Value
  {
    Dict(map["name" := Str("use_aws"),
             "arguments" := Dict(map["service_name" := Str("custom"), "operation_name" := Str("mp_search"),
                                     "parameters" := Dict(map["formula" := material]),
                                     "label" := Str("Search " + Format(material, show))])])
  }

  function BatchError(message: string): Value
  {
    Dict(map["status" := Str("batch_error"), "message" := Str(message)])
  }

  /** `_execute_batch_mcp_actions`: one search per material, run as one batch. */
  function ExecuteBatch(decision: Value, params: Value, batch: seq<Value> -> Result<Value, string>,
                        show: Value -> string): (r: Value)
    requires decision.Dict?
    ensures GetOr(decision, "tool_name", Str("search")) != Str("search") && params.Dict? &&
            Iterated(GetOr(params, "materials", StrList(["Si", "C", "GaN"]))).Some? ==>
              r == Dict(map["status" := Str("no_batch_operations"), "message" := Str("No valid batch operations created")])
  {
    if !params.Dict? then BatchError(NoGet)
    else
      var materials := GetOr(params, "materials", StrList(["Si", "C", "GaN"]));
      var toolName := GetOr(decision, "tool_name", Str("search"));
      match Iterated(materials)
      case None => BatchError(NotIterable)
      case Some(items) =>
        var invocations := if toolName == Str("search") then seq(|items|, k requires 0 <= k < |items| => SearchInvocation(items[k], show)) else [];
        if invocations == [] then
          Dict(map["status" := Str("no_batch_operations"), "message" := Str("No valid batch operations created")])
        else
          match batch(invocations)
          case Ok(v) => Dict(map["status" := Str("batch_completed"), "results" := v, "materials" := materials])
          case Err(e) => BatchError(e)
  }

  // ---------------------------------------------------------------- enhanced actions

  /** The agents and tools an action can use. */
  datatype Agents = Agents(
    poscarWorkflow: (Value, string) -> Value,
    extractDft: (Value, Value) -> Record,
    hamiltonian: (Value, Record) -> Result<Value, string>,
    matchPoscar: (Value, Value) -> Value,
    batch: seq<Value> -> Result<Value, string>,
    mcp: McpCall -> Result<Value, string>,
    show: Value -> string)

  type Record = map<string, Value>

  const DefaultPoscar: string :=
    "Si\n1.0\n5.43 0 0\n0 5.43 0\n0 0 5.43\nSi\n2\nDirect\n0.0 0.0 0.0\n0.25 0.25 0.25"

  /** `context.get("iterations", [{}])[-1].get("action_result", {})` as written: the history key always exists, so an empty history raises. */
  function LastActionResultAsWritten(entries: seq<Value>): (r: Result<Value, string>)
    ensures entries == [] ==> r == Err(NoIndex)
  {
    if entries == [] then Err(NoIndex)
    else
      var last := entries[|entries| - 1];
      if last.Dict? then Ok(GetOr(last, "action_result", Dict(map[]))) else Err(NoGet)
  }

  /** The last round's action result, `{}` when there is no earlier round. */
  function LastActionResult(entries: seq<Value>): (r: Result<Value, string>)
    ensures entries == [] ==> r == Ok(Dict(map[]))
    ensures entries != [] ==> r == LastActionResultAsWritten(entries)
  {
    if entries == [] then Ok(Dict(map[])) else LastActionResultAsWritten(entries)
  }

  /** The DFT agent's parameters, with the Hamiltonian code added when the query asks for one. */
  function DftAction(materialId: Value, mpData: Value, query: string, agents: Agents): Value
  {
    var result := agents.extractDft(materialId, mpData);
    if Contains(Lower(query), "hamiltonian") then
      match agents.hamiltonian(materialId, result)
      case Ok(code) => Dict(result["hamiltonian_code" := code])
      case Err(e) => ErrorRecord(e)
    else Dict(result)
  }

  /** `_execute_enhanced_action`, given how the last action result is read; an error only when the decision is not a dict. */
  function EnhancedActionWith(decision: Value, query: string, agents: Agents, last: Result<Value, string>): (r: Result<Value, string>)
    ensures r.Err? <==> !decision.Dict?
  {
    if !decision.Dict? then Err(NoGet)
    else
      var agentType := GetOr(decision, "agent_type", Str("mcp_tool"));
      var toolName := GetOr(decision, "tool_name", Str("search"));
      var params := GetOr(decision, "params", Dict(map[]));
      var useBatch := GetOr(decision, "use_batch", Bool(false));
      Ok(
        if agentType == Str("coordinator") then
          if !Contains(Lower(query), "poscar") then
            Dict(map["status" := Str("coordinator_ready"), "message" := Str("Coordinator available for complex workflows")])
          else if !params.Dict? then ErrorRecord(NoGet)
          else agents.poscarWorkflow(GetOr(params, "poscar_text", Str(DefaultPoscar)), query)
        else if agentType == Str("dft_agent") then
          if !params.Dict? then ErrorRecord(NoGet)
          else
            match last
            case Err(e) => ErrorRecord(e)
            case Ok(mpData) => DftAction(GetOr(params, "material_id", Str("mp-149")), mpData, query, agents)
        else if agentType == Str("structure_agent") then
          if !params.Dict? then ErrorRecord(NoGet)
          else
            var poscar := GetOr(params, "poscar_text", Str(""));
            if Truthy(poscar) then agents.matchPoscar(poscar, GetOr(params, "formula", Str("Si")))
            else ErrorRecord("POSCAR text required for structure matching")
        else if agentType == Str("mcp_tool") then
          if Truthy(useBatch) then ExecuteBatch(decision, params, agents.batch, agents.show)
          else ExecuteSingleMcpAction(toolName, params, agents.mcp)
        else Dict(map["status" := Str("unknown_agent_type"), "agent_type" := agentType]))
  }

  /** `_execute_enhanced_action` as written. */
  function EnhancedActionAsWritten(decision: Value, query: string, entries: seq<Value>, agents: Agents): Result<Value, string>
  {
    EnhancedActionWith(decision, query, agents, LastActionResultAsWritten(entries))
  }

  /** `_execute_enhanced_action` with an empty history read as `{}`. */
  function EnhancedAction(decision: Value, query: string, entries: seq<Value>, agents: Agents): Result<Value, string>
  {
    EnhancedActionWith(decision, query, agents, LastActionResult(entries))
  }

  /** Without agent type, tool name or batch flag, the action is a single materials search. */
  lemma DefaultActionIsSearch(decision: Value, query: string, entries: seq<Value>, agents: Agents)
    requires decision.Dict? && "agent_type" !in decision.fields && "tool_name" !in decision.fields
    requires "use_batch" !in decision.fields
    ensures EnhancedAction(decision, query, entries, agents) ==
              Ok(ExecuteSingleMcpAction(Str("search"), GetOr(decision, "params", Dict(map[])), agents.mcp))
  {
  }

  /** The fallback decision searches for "Si". */
  lemma FallbackSearchesSilicon(query: string, entries: seq<Value>, agents: Agents)
    ensures EnhancedAction(FallbackDecision, query, entries, agents) ==
              Ok(match agents.mcp(Search(Str("Si"))) case Ok(v) => v case Err(e) => ErrorRecord(e))
  {
    DefaultActionIsSearch(FallbackDecision, query, entries, agents);
  }

  /** An agent type none of the branches names is reported back. */
  lemma UnknownAgentType(decision: Value, query: string, entries: seq<Value>, agents: Agents)
    requires decision.Dict? && "agent_type" in decision.fields
    requires decision.fields["agent_type"] !in {Str("coordinator"), Str("dft_agent"), Str("structure_agent"), Str("mcp_tool")}
    ensures EnhancedAction(decision, query, entries, agents) ==
              Ok(Dict(map["status" := Str("unknown_agent_type"), "agent_type" := decision.fields["agent_type"]]))
  {
  }

  /** A DFT decision in the first round. */
  function FirstRoundDft(materialId: Value): Value
  {
    Dict(map["agent_type" := Str("dft_agent"), "params" := Dict(map["material_id" := materialId])])
  }

  /** As written, a DFT decision in the first round always fails: the history is empty and `[-1]` raises. */
  lemma FirstRoundDftFails(materialId: Value, query: string, agents: Agents)
    ensures EnhancedActionAsWritten(FirstRoundDft(materialId), query, [], agents) == Ok(ErrorRecord(NoIndex))
  {
  }

  /** With an empty history read as `{}`, the first-round DFT decision reaches the DFT agent. */
  lemma FirstRoundDftExtracts(materialId: Value, query: string, agents: Agents)
    requires !Contains(Lower(query), "hamiltonian")
    ensures EnhancedAction(FirstRoundDft(materialId), query, [], agents) ==
              Ok(Dict(agents.extractDft(materialId, Dict(map[]))))
  {
  }

  // ---------------------------------------------------------------- the next query

  /**
   * `_generate_next_query`: an error in the action result asks to fix it,
   * then a completed batch asks to analyse it, then DFT parameters ask for
   * the simulation, and otherwise the model's stripped answer; the current
   * query when the model call raises.
   */
  function GenerateNextQuery(actionResult: Value, currentQuery: string, reply: Result<string, string>,
                             show: Value -> string): (q: string)
    ensures reply.Err? ==> q == currentQuery
    ensures reply.Ok? && Contains(show(actionResult), "error") && actionResult.Dict? ==>
              StartsWith(q, "Fix the error in: " + currentQuery)
    ensures reply.Ok? && !Contains(show(actionResult), "error") && Contains(show(actionResult), "batch_completed") ==>
              q == "Analyze batch results for: " + currentQuery
    ensures reply.Ok? && !Contains(show(actionResult), "error") && !Contains(show(actionResult), "batch_completed") &&
            Contains(show(actionResult), "dft_parameters") ==>
              q == "Generate quantum simulation using DFT parameters for: " + currentQuery
    ensures reply.Ok? && !Contains(show(actionResult), "error") && !Contains(show(actionResult), "batch_completed") &&
            !Contains(show(actionResult), "dft_parameters") ==>
              q == Strip(reply.value)
  {
    match reply
    case Err(_) => currentQuery
    case Ok(response) =>
      var text := show(actionResult);
      if Contains(text, "error") then
        if actionResult.Dict? then
          "Fix the error in: " + currentQuery + ". Error: " + Format(GetOr(actionResult, "message", Str("Unknown error")), show)
        else currentQuery
      else if Contains(text, "batch_completed") then "Analyze batch results for: " + currentQuery
      else if Contains(text, "dft_parameters") then "Generate quantum simulation using DFT parameters for: " + currentQuery
      else Strip(response)
  }

  // ---------------------------------------------------------------- the loop

  /** The model and the agents: `decide` answers the decision prompt of a round, `refine` the next-query prompt. */
  datatype Oracles = Oracles(
    decide: (nat, string, seq<Value>) -> Result<string, string>,
    decode: string -> Option<Value>,
    refine: (Value, Value, string) -> Result<string, string>,
    agents: Agents)

  /** The record of one round. */
  function Entry(iteration: nat, decision: Value, actionResult: Value, query: string): (e: Value)
    ensures Get(e, "iteration") == Some(Int(iteration))
  {
    Dict(map["iteration" := Int(iteration), "decision" := decision, "action_result" := actionResult, "query" := Str(query)])
  }

  /** How a round ends: an exception, or its record with whether it solved the problem and the next query. */
  datatype Round = Raised(message: string) | Completed(entry: Value, solved: bool, nextQuery: string)

  /** The body of the `try` for round `iteration`. */
  function RunRound(iteration: nat, query: string, entries: seq<Value>, o: Oracles): (r: Round)
    ensures r.Completed? ==> Get(r.entry, "iteration") == Some(Int(iteration))
  {
    match o.decide(iteration, query, entries)
    case Err(e) => Raised(e)
    case Ok(response) =>
      var decision := ParseDecision(response, o.decode);
      match EnhancedActionAsWritten(decision, query, entries, o.agents)
      case Err(e) => Raised(e)
      case Ok(action) =>
        Completed(Entry(iteration, decision, action, query), TruthyKey(decision, "solved"),
                  GenerateNextQuery(action, query, o.refine(GetOr(decision, "next_action", Null), action, query), o.agents.show))
  }

  /** As written, a first round that decides on the DFT agent records the index error as its action result. */
  lemma FirstRoundDftRecordsError(query: string, o: Oracles, response: string, materialId: Value)
    requires o.decide(1, query, []) == Ok(response)
    requires ParseDecision(response, o.decode) == FirstRoundDft(materialId)
    ensures RunRound(1, query, [], o).Completed?
    ensures Get(RunRound(1, query, [], o).entry, "action_result") == Some(ErrorRecord(NoIndex))
  {
    FirstRoundDftFails(materialId, query, o.agents);
  }

  /** Where the loop stops: the last round's number, the records, and the status and error it set. */
  datatype Outcome = Outcome(iteration: nat, entries: seq<Value>, status: Option<string>, error: Option<string>)

  /** A round, given its number, the current query and the records so far. */
  type RoundFn = (nat, string, seq<Value>) -> Round

  /** The rounds of the loop with these oracles. */
  function Rounds(o: Oracles): RoundFn
  {
    (iteration: nat, query: string, entries: seq<Value>) => RunRound(iteration, query, entries, o)
  }

  /** Every completed round records its own number. */
  ghost predicate NumbersEntries(round: RoundFn)
  {
    forall iteration: nat, query: string, entries: seq<Value> {:trigger round(iteration, query, entries)} ::
      round(iteration, query, entries).Completed? ==>
        Get(round(iteration, query, entries).entry, "iteration") == Some(Int(iteration))
  }

  lemma RoundsNumberEntries(o: Oracles)
    ensures NumbersEntries(Rounds(o))
  {
  }

  /** The `while iteration < self.max_iterations` loop from round `iteration + 1` on. */
  function Loop(iteration: nat, query: string, entries: seq<Value>, round: RoundFn): Outcome
    requires iteration <= MaxIterations
    decreases MaxIterations - iteration
  {
    if iteration >= MaxIterations then Outcome(iteration, entries, None, None)
    else
      var next := iteration + 1;
      match round(next, query, entries)
      case Raised(e) => Outcome(next, entries, Some("error"), Some(e))
      case Completed(entry, solved, nextQuery) =>
        if solved then Outcome(next, entries + [entry], Some("solved"), None)
        else Loop(next, nextQuery, entries + [entry], round)
  }

  /** The returned dict: the records, the status (replaced once the fifth round was reached) and any error. */
  function SolveResults(out: Outcome): map<string, Value>
  {
    var base := map["iterations" := List(out.entries)];
    var withStatus := if out.status.Some? then base["status" := Str(out.status.value)] else base;
    var withError := if out.error.Some? then withStatus["error" := Str(out.error.value)] else withStatus;
    if out.iteration >= MaxIterations then withError["status" := Str("max_iterations_reached")] else withError
  }

  /** Each record carries its round number, 1, 2, … in order. */
  ghost predicate Numbered(entries: seq<Value>)
  {
    forall k :: 0 <= k < |entries| ==> Get(entries[k], "iteration") == Some(Int(k + 1))
  }

  /**
   * The loop runs at most five rounds; the records are numbered from 1;
   * every round that completed left exactly one record (an exception's
   * round leaves none); and a loop that neither solved nor raised ran all
   * five rounds.
   */
  lemma {:induction false} LoopShape(iteration: nat, query: string, entries: seq<Value>, round: RoundFn)
    requires NumbersEntries(round)
    requires iteration <= MaxIterations && |entries| == iteration && Numbered(entries)
    ensures var out := Loop(iteration, query, entries, round);
            && iteration <= out.iteration <= MaxIterations
            && Numbered(out.entries)
            && (out.status == Some("error") ==> |out.entries| == out.iteration - 1 && out.error.Some?)
            && (out.status != Some("error") ==> |out.entries| == out.iteration && out.error.None?)
            && (out.status.None? ==> out.iteration == MaxIterations)
            && (out.status.Some? ==> out.status.value in {"error", "solved"})
    decreases MaxIterations - iteration
  {
    if iteration < MaxIterations {
      var next := iteration + 1;
      var r := round(next, query, entries);
      if r.Completed? {
        var e2 := entries + [r.entry];
        assert Numbered(e2) by {
          forall k | 0 <= k < |e2| ensures Get(e2[k], "iteration") == Some(Int(k + 1)) {
            if k < |entries| { assert e2[k] == entries[k]; }
          }
        }
        if !r.solved {
          LoopShape(next, r.nextQuery, e2, round);
        }
      }
    }
  }

  /** The whole loop, from the first round with the initial query. */
  function Solve(initialQuery: string, o: Oracles): Outcome
  {
    Loop(0, initialQuery, [], Rounds(o))
  }

  /** The returned dict always has a status; an error round adds the error. */
  lemma ResultsShape(out: Outcome)
    requires out.status.None? ==> out.iteration == MaxIterations
    requires out.status == Some("error") ==> out.error.Some?
    ensures "status" in SolveResults(out)
    ensures SolveResults(out)["iterations"] == List(out.entries)
    ensures out.error.Some? ==> SolveResults(out)["error"] == Str(out.error.value)
  {
  }

  /** The loop from the first round, for any rounds that number their records. */
  lemma LoopFromStart(initialQuery: string, round: RoundFn)
    requires NumbersEntries(round)
    ensures var out := Loop(0, initialQuery, [], round);
            var results := SolveResults(out);
            && 1 <= out.iteration <= MaxIterations
            && |out.entries| <= MaxIterations
            && Numbered(out.entries)
            && "status" in results
            && results["iterations"] == List(out.entries)
            && (out.status == Some("error") ==> "error" in results && |out.entries| == out.iteration - 1)
  {
    var out := Loop(0, initialQuery, [], round);
    LoopShape(0, initialQuery, [], round);
    ResultsShape(out);
  }

  /** `iterative_solve` ends with a status, and a record per completed round, at most five. */
  lemma SolveShape(initialQuery: string, o: Oracles)
    ensures var out := Solve(initialQuery, o);
            var results := SolveResults(out);
            && 1 <= out.iteration <= MaxIterations
            && |out.entries| <= MaxIterations
            && Numbered(out.entries)
            && "status" in results
            && results["iterations"] == List(out.entries)
            && (out.status == Some("error") ==> "error" in results && |out.entries| == out.iteration - 1)
  {
    RoundsNumberEntries(o);
    LoopFromStart(initialQuery, Rounds(o));
  }

  /** One more round of the loop, unfolded. */
  lemma LoopStep(iteration: nat, query: string, entries: seq<Value>, rounds: RoundFn)
    requires iteration < MaxIterations
    ensures var round := rounds(iteration + 1, query, entries);
            Loop(iteration, query, entries, rounds) ==
              if round.Raised? then Outcome(iteration + 1, entries, Some("error"), Some(round.message))
              else if round.solved then Outcome(iteration + 1, entries + [round.entry], Some("solved"), None)
              else Loop(iteration + 1, round.nextQuery, entries + [round.entry], rounds)
  {
  }

  /** A problem solved in the fifth round is reported as "max_iterations_reached". */
  lemma SolvedInLastRoundReportsMax(out: Outcome)
    requires out.status == Some("solved") && out.iteration == MaxIterations
    ensures SolveResults(out)["status"] == Str("max_iterations_reached")
  {
  }

  /** A problem solved before the fifth round is reported as "solved". */
  lemma SolvedEarlyReportsSolved(out: Outcome)
    requires out.status == Some("solved") && out.iteration < MaxIterations
    ensures SolveResults(out)["status"] == Str("solved")
  {
  }

  /** The loop of `iterative_solve`, for the given rounds. */
  method SolveLoop(initialQuery: string, rounds: RoundFn) returns (results: map<string, Value>)
    ensures results == SolveResults(Loop(0, initialQuery, [], rounds))
  {
    var currentQuery := initialQuery;
    var iteration: nat := 0;
    var entries: seq<Value> := [];
    results := map["iterations" := List([])];
    while iteration < MaxIterations
      invariant iteration <= MaxIterations
      invariant Loop(iteration, currentQuery, entries, rounds) == Loop(0, initialQuery, [], rounds)
      invariant results == map["iterations" := List(entries)]
      decreases MaxIterations - iteration
    {
      LoopStep(iteration, currentQuery, entries, rounds);
      iteration := iteration + 1;
      var round := rounds(iteration, currentQuery, entries);
      if round.Raised? {
        results := results["status" := Str("error")]["error" := Str(round.message)];
        break;
      }
      entries := entries + [round.entry];
      results := results["iterations" := List(entries)];
      if round.solved {
        results := results["status" := Str("solved")];
        break;
      }
      currentQuery := round.nextQuery;
    }
    if iteration >= MaxIterations {
      results := results["status" := Str("max_iterations_reached")];
    }
  }

  /** `iterative_solve` */
  method IterativeSolve(initialQuery: string, o: Oracles) returns (results: map<string, Value>)
    ensures results == SolveResults(Solve(initialQuery, o))
    ensures "status" in results && "iterations" in results
    ensures results["iterations"].List? && |results["iterations"].items| <= MaxIterations
    ensures Numbered(results["iterations"].items)
  {
    results := SolveLoop(initialQuery, Rounds(o));
    SolveShape(initialQuery, o);
  }
}
