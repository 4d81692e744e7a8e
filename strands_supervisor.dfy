/**
 * The Strands supervisor: the language model's reply is read into an action
 * record, the action is dispatched to one of five handlers, and each handler
 * goes from a formula search to a material id, its detailed data and at most
 * one structure tool call. The Materials Project agent is a record of
 * oracles; each of its methods answers or raises (Err). The model's replies
 * are plain strings, and `decode` stands for `json.loads`.
 */
module StrandsSupervisor {
  import opened Wrappers
  import opened Values
  import opened Text
  import opened Scan
  import opened Replies
  import Structures
  import BaseAgent
  import Supervisor

  /** The Materials Project agent's methods the handlers call, and `str` on its answers. */
  datatype McpAgent = McpAgent(
    searchByFormula: string -> Result<Value, string>,
    search: string -> Result<Value, string>,
    selectById: string -> Result<Value, string>,
    tool: Supervisor.ToolCall -> Result<Value, string>,
    show: Value -> string)

  /** The dict a handler returns. */
  datatype Reply =
    | Success(mpData: Value, actions: seq<string>, moireParams: Option<(real, real)>, plotResult: Option<Value>)
    | Error(message: string)

  /** A reply with the tool calls made on the way. */
  datatype Handled = Handled(reply: Reply, calls: seq<Supervisor.ToolCall>)

  // ---------------------------------------------------------------- reading the model's reply

  /** `{"action": name, "params": {}}` */
  function ActionRecord(name: string): (v: Value)
    ensures Get(v, "action") == Some(Str(name))
  {
    Dict(map["action" := Str(name), "params" := Dict(map[])])
  }

  /** The keyword fallback for a reply without a `{...}` span. */
  function KeywordAction(response: string): (name: string)
    ensures ContainsAny(Lower(response), ["moire", "bilayer"]) ==> name == "moire_homobilayer"
    ensures name == "search" <==>
              !ContainsAny(Lower(response), ["moire", "bilayer"]) && !Contains(Lower(response), "supercell")
              && !ContainsAny(Lower(response), ["plot", "visualiz"]) && !Contains(Lower(response), "search")
  {
    var r := Lower(response);
    if ContainsAny(r, ["moire", "bilayer"]) then "moire_homobilayer"
    else if Contains(r, "supercell") then "build_supercell"
    else if ContainsAny(r, ["plot", "visualiz"]) then "plot_structure"
    else if Contains(r, "search") then "search_materials_by_formula"
    else "search"
  }

  /** `_parse_agent_response`: the decoded span, else the keyword fallback; an undecodable span means "search". */
  function ParseAgentResponse(response: string, decode: string -> Option<Value>): (v: Value)
    ensures BraceSpan(response).None? ==> v == ActionRecord(KeywordAction(response))
    ensures ReadReply(response, decode).Undecodable? ==> v == ActionRecord("search")
    ensures ReadReply(response, decode).Parsed? ==> v == ReadReply(response, decode).value
  {
    match ReadReply(response, decode)
    case NoSpan => ActionRecord(KeywordAction(response))
    case Undecodable => ActionRecord("search")
    case Parsed(d) => d
  }

  // ---------------------------------------------------------------- handlers

  const NotFound: string := "Material not found"
  const NoMaterialId: string := "No material ID found"
  const DetailActions: seq<string> := ["search_materials_by_formula", "select_material_by_id", "get_structure_data"]

  /** The URI the handlers build: `f"structure://mp_{material_id}"`. */
  function HandlerUri(materialId: string): (uri: string)
    ensures StartsWith(uri, Structures.UriScheme + "mp_")
    ensures uri[|Structures.UriScheme + "mp_"|..] == materialId
  {
    Structures.Uri("mp_" + materialId)
  }

  /** The id scraped from `str(search_results)`. */
  function ResultsId(results: Value, mp: McpAgent): Option<string>
  {
    BaseAgent.ExtractMaterialIdFromResults(results, mp.show)
  }

  /**
   * The shared first half of the structure handlers: the formula search, the
   * truthiness check, the scraped id and the detailed data of that id.
   */
  function Locate(formula: string, mp: McpAgent): (r: Result<(string, Value), string>)
    ensures mp.searchByFormula(formula).Ok? && !Truthy(mp.searchByFormula(formula).value) ==> r == Err(NotFound)
    ensures (mp.searchByFormula(formula).Ok? && Truthy(mp.searchByFormula(formula).value)
             && ResultsId(mp.searchByFormula(formula).value, mp).None?) ==> r == Err(NoMaterialId)
    ensures r.Ok? <==> && mp.searchByFormula(formula).Ok? && Truthy(mp.searchByFormula(formula).value)
                       && ResultsId(mp.searchByFormula(formula).value, mp).Some?
                       && mp.selectById(ResultsId(mp.searchByFormula(formula).value, mp).value).Ok?
    ensures r.Ok? ==> && Some(r.value.0) == ResultsId(mp.searchByFormula(formula).value, mp)
                      && StartsWith(r.value.0, "mp-")
                      && mp.selectById(r.value.0) == Ok(r.value.1)
  {
    match mp.searchByFormula(formula)
    case Err(e) => Err(e)
    case Ok(results) =>
      if !Truthy(results) then Err(NotFound)
      else match ResultsId(results, mp)
        case None => Err(NoMaterialId)
        case Some(id) =>
          match mp.selectById(id)
          case Err(e) => Err(e)
          case Ok(detailed) => Ok((id, detailed))
  }

  /** A structure handler: locate the material, then call the tool on its URI. */
  function WithTool(formula: string, mp: McpAgent, call: string -> Supervisor.ToolCall, tool: string,
                    moire: Option<(real, real)>, keepResult: bool): (h: Handled)
    ensures Locate(formula, mp).Err? ==> h == Handled(Error(Locate(formula, mp).error), [])
    ensures Locate(formula, mp).Ok? ==> h.calls == [call(HandlerUri(Locate(formula, mp).value.0))]
    ensures h.reply.Success? <==> Locate(formula, mp).Ok? && mp.tool(call(HandlerUri(Locate(formula, mp).value.0))).Ok?
    ensures h.reply.Success? ==> && h.reply.mpData == Locate(formula, mp).value.1
                                 && h.reply.actions == DetailActions + [tool]
                                 && h.reply.moireParams == moire
                                 && h.reply.plotResult == (if keepResult then Some(mp.tool(h.calls[0]).value) else None)
  {
    match Locate(formula, mp)
    case Err(e) => Handled(Error(e), [])
    case Ok((id, detailed)) =>
      var c := call(HandlerUri(id));
      match mp.tool(c)
      case Err(e) => Handled(Error(e), [c])
      case Ok(v) => Handled(Success(detailed, DetailActions + [tool], moire, if keepResult then Some(v) else None), [c])
  }

  /**
   * `_handle_moire`: the formula override of the rule-based supervisor, then
   * the moire tool with 10 atoms and 15 Å of vacuum. `angle` and `spacing`
   * are the numbers the two regular expressions read from the query, if any.
   */
  function HandleMoire(formula: string, query: string, angle: Option<real>, spacing: Option<real>, mp: McpAgent): (h: Handled)
    ensures var t := if angle.Some? then angle.value else Supervisor.DefaultTwistAngle;
            var d := if spacing.Some? then spacing.value else Supervisor.DefaultSpacing;
            && (h.reply.Success? ==> h.reply.moireParams == Some((t, d)))
            && (h.calls != [] ==>
                  && Locate(Supervisor.MoireFormula(formula, query), mp).Ok?
                  && h.calls == [Supervisor.MoireHomobilayer(Str(HandlerUri(Locate(Supervisor.MoireFormula(formula, query), mp).value.0)),
                                                              d, Supervisor.MoireMaxAtoms, t, Supervisor.MoireVacuum)])
    ensures h.reply.Success? ==> mp.searchByFormula(Supervisor.MoireFormula(formula, query)).Ok?
  {
    var t := if angle.Some? then angle.value else Supervisor.DefaultTwistAngle;
    var d := if spacing.Some? then spacing.value else Supervisor.DefaultSpacing;
    WithTool(Supervisor.MoireFormula(formula, query), mp,
             uri => Supervisor.MoireHomobilayer(Str(uri), d, Supervisor.MoireMaxAtoms, t, Supervisor.MoireVacuum),
             "moire_homobilayer", Some((t, d)), false)
  }

  /** `_handle_supercell`: always the 2x2x2 scaling, whatever the query asks for. */
  function HandleSupercell(formula: string, mp: McpAgent): (h: Handled)
    ensures forall k :: 0 <= k < |h.calls| ==> h.calls[k].BuildSupercell? && h.calls[k].scaling == Structures.DefaultScaling
    ensures |h.calls| <= 1
    ensures h.reply.Success? ==> h.reply.actions == DetailActions + ["build_supercell"]
  {
    WithTool(formula, mp, uri => Supervisor.BuildSupercell(Str(uri), Structures.DefaultScaling), "build_supercell", None, false)
  }

  /** `_handle_visualization`: the plot at size [1, 1, 1], whose result the reply keeps. */
  function HandleVisualization(formula: string, mp: McpAgent): (h: Handled)
    ensures forall k :: 0 <= k < |h.calls| ==> h.calls[k].PlotStructure? && h.calls[k].size == [1, 1, 1]
    ensures h.reply.Success? ==> h.calls != [] && mp.tool(h.calls[0]).Ok? && h.reply.plotResult == Some(mp.tool(h.calls[0]).value)
  {
    WithTool(formula, mp, uri => Supervisor.PlotStructure(Str(uri), [1, 1, 1]), "plot_structure", None, true)
  }

  /** `_handle_formula_search`: the detailed data of the scraped id, else the raw results. */
  function HandleFormulaSearch(formula: string, mp: McpAgent): (h: Handled)
    ensures h.calls == []
    ensures mp.searchByFormula(formula).Err? ==> h.reply == Error(mp.searchByFormula(formula).error)
    ensures (mp.searchByFormula(formula).Ok? && (!Truthy(mp.searchByFormula(formula).value)
                                                 || ResultsId(mp.searchByFormula(formula).value, mp).None?)) ==>
              h.reply == Success(mp.searchByFormula(formula).value, ["search_materials_by_formula"], None, None)
    ensures Locate(formula, mp).Ok? ==> h.reply == Success(Locate(formula, mp).value.1, DetailActions, None, None)
  {
    match mp.searchByFormula(formula)
    case Err(e) => Handled(Error(e), [])
    case Ok(results) =>
      if Truthy(results) && ResultsId(results, mp).Some? then
        match mp.selectById(ResultsId(results, mp).value)
        case Err(e) => Handled(Error(e), [])
        case Ok(detailed) => Handled(Success(detailed, DetailActions, None, None), [])
      else Handled(Success(results, ["search_materials_by_formula"], None, None), [])
  }

  /** `len(v)` where it exists. */
  function PyLen(v: Value): (n: Option<nat>)
    ensures v.List? ==> n == Some(|v.items|)
  {
    match v
    case List(items) => Some(|items|)
    case Str(s) => Some(|s|)
    case Dict(fields) => Some(|fields|)
    case _ => None
  }

  /** The mp_data of a formula search that found nothing. */
  function NoResults(formula: string): Value
  {
    Dict(map["formula" := Str(formula), "error" := Str("no_results")])
  }

  /** `_handle_standard_lookup`: a direct id lookup for `mp-` formulas, else the formula search. */
  function HandleStandardLookup(formula: string, mp: McpAgent, raised: string): (h: Handled)
    ensures h.calls == []
    ensures StartsWith(formula, "mp-") ==>
              (h.reply.Success? <==> && mp.search(formula).Ok? && Truthy(mp.search(formula).value)
                                     && PyContains(mp.search(formula).value, "error") == Some(false))
    ensures StartsWith(formula, "mp-") && mp.search(formula).Ok? && !Truthy(mp.search(formula).value) ==>
              h.reply == Error("Material " + formula + " not found")
    ensures !StartsWith(formula, "mp-") && mp.searchByFormula(formula).Ok? && !Truthy(mp.searchByFormula(formula).value) ==>
              h.reply == Success(NoResults(formula), ["search_materials_by_formula"], None, None)
    ensures !StartsWith(formula, "mp-") && Locate(formula, mp).Ok? ==>
              h.reply == Success(Locate(formula, mp).value.1, DetailActions, None, None)
  {
    if StartsWith(formula, "mp-") then
      match mp.search(formula)
      case Err(e) => Handled(Error(e), [])
      case Ok(detailed) =>
        if !Truthy(detailed) then Handled(Error("Material " + formula + " not found"), [])
        else match PyContains(detailed, "error")
          case None => Handled(Error(raised), [])
          case Some(true) => Handled(Error("Material " + formula + " not found"), [])
          case Some(false) => Handled(Success(detailed, ["search", "select_material_by_id", "get_structure_data"], None, None), [])
    else
      match mp.searchByFormula(formula)
      case Err(e) => Handled(Error(e), [])
      case Ok(results) =>
        if !Truthy(results) then Handled(Success(NoResults(formula), ["search_materials_by_formula"], None, None), [])
        else if ResultsId(results, mp).Some? then
          match mp.selectById(ResultsId(results, mp).value)
          case Err(e) => Handled(Error(e), [])
          case Ok(detailed) => Handled(Success(detailed, DetailActions, None, None), [])
        else match PyLen(results)
          case None => Handled(Error(raised), [])
          case Some(n) =>
            Handled(Success(Dict(map["results" := results, "formula" := Str(formula), "count" := Int(n)]),
                            ["search_materials_by_formula"], None, None), [])
  }

  /** `_execute_mcp_action`: dispatch on `action_data.get("action", "search")`; a non-dict raises. */
  function ExecuteMcpAction(actionData: Value, formula: string, query: string, angle: Option<real>, spacing: Option<real>,
                            mp: McpAgent, raised: string): (h: Handled)
    ensures !actionData.Dict? ==> h == Handled(Error(raised), [])
    ensures (actionData.Dict? && GetOr(actionData, "action", Str("search")) !in
             [Str("moire_homobilayer"), Str("build_supercell"), Str("plot_structure"), Str("search_materials_by_formula")]) ==>
              h == HandleStandardLookup(formula, mp, raised)
    ensures actionData == ActionRecord("moire_homobilayer") ==> h == HandleMoire(formula, query, angle, spacing, mp)
    ensures actionData == ActionRecord("build_supercell") ==> h == HandleSupercell(formula, mp)
    ensures actionData == ActionRecord("plot_structure") ==> h == HandleVisualization(formula, mp)
    ensures actionData == ActionRecord("search_materials_by_formula") ==> h == HandleFormulaSearch(formula, mp)
  {
    if !actionData.Dict? then Handled(Error(raised), [])
    else
      var action := GetOr(actionData, "action", Str("search"));
      if action == Str("moire_homobilayer") then HandleMoire(formula, query, angle, spacing, mp)
      else if action == Str("build_supercell") then HandleSupercell(formula, mp)
      else if action == Str("plot_structure") then HandleVisualization(formula, mp)
      else if action == Str("search_materials_by_formula") then HandleFormulaSearch(formula, mp)
      else HandleStandardLookup(formula, mp, raised)
  }

  /** A span that does not decode sends the query to the standard lookup, whatever the reply's words say. */
  lemma UndecodableReplyLooksUp(response: string, decode: string -> Option<Value>, formula: string, query: string,
                                angle: Option<real>, spacing: Option<real>, mp: McpAgent, raised: string)
    requires ReadReply(response, decode).Undecodable?
    ensures ExecuteMcpAction(ParseAgentResponse(response, decode), formula, query, angle, spacing, mp, raised)
            == HandleStandardLookup(formula, mp, raised)
  {
    assert GetOr(ActionRecord("search"), "action", Str("search")) == Str("search");
  }

  // ---------------------------------------------------------------- formulas in a query

  /** The material names a query may mention, in the table's insertion order. */
  const QueryMaterials: seq<(string, string)> := [
    ("graphene", "C"), ("carbon", "C"), ("diamond", "C"), ("silicon", "Si"), ("germanium", "Ge"),
    ("h2", "H2"), ("hydrogen", "H2"), ("water", "H2O"), ("methane", "CH4"),
    ("mos2", "MoS2"), ("ws2", "WS2"), ("bn", "BN"), ("gan", "GaN"), ("gaas", "GaAs"), ("inp", "InP"),
    ("tio2", "TiO2"), ("sio2", "SiO2"), ("al2o3", "Al2O3")]

  /** The words the English-word filter means to drop. */
  const Jargon: seq<string> := ["VQE", "UCCSD", "DFT", "MP"]

  const MaxFormulaLength: nat := 10
  const DefaultFormula: string := "Si"

  /**
   * A whole word matched by `[A-Z][a-z]?(?:\d+)?(?:[A-Z][a-z]?\d*)*`: a
   * capital first, then capitals and digits, where each lower-case letter
   * directly follows a capital.
   */
  predicate IsFormulaWord(w: string)
  {
    |w| > 0 && IsUpper(w[0]) && forall i :: 0 <= i < |w| ==> FormulaCharAt(w, i)
  }

  /** The character at `i` may stand there in a formula word. */
  predicate FormulaCharAt(w: string, i: nat)
    requires i < |w|
  {
    IsUpper(w[i]) || IsDigit(w[i]) || (IsLower(w[i]) && 0 < i && IsUpper(w[i - 1]))
  }

  /**
   * `re.findall(r'\b[A-Z][a-z]?(?:\d+)?(?:[A-Z][a-z]?\d*)*\b', s)`: the `\b`
   * on both sides means a match is a whole word, so the result is the words
   * (runs of `[A-Za-z0-9_]`) in the formula shape, in order.
   */
  function FormulaWords(s: string): (r: seq<string>)
    ensures forall w :: w in r ==> IsFormulaWord(w)
    decreases |s|
  {
    if s == [] then []
    else if !IsWordChar(s[0]) then FormulaWords(s[1..])
    else
      var n := Run(s, IsWordChar);
      (if IsFormulaWord(s[..n]) then [s[..n]] else []) + FormulaWords(s[n..])
  }

  /** A formula word standing alone is found as itself. */
  lemma LoneFormulaWord(w: string)
    requires IsFormulaWord(w)
    ensures FormulaWords(w) == [w]
  {
    forall i | 0 <= i < |w|
      ensures IsWordChar(w[i])
    {
      assert FormulaCharAt(w, i);
    }
    assert Run(w, IsWordChar) == |w|;
    assert w[..|w|] == w && w[|w|..] == [];
  }

  /** Every formula of the query table starts with a capital and is not a jargon word. */
  lemma TableFormulas()
    ensures forall j :: 0 <= j < |QueryMaterials| ==> QueryMaterials[j].1 != [] && IsUpper(QueryMaterials[j].1[0])
    ensures forall j :: 0 <= j < |QueryMaterials| ==> QueryMaterials[j].1 !in Jargon
  {
  }

  /** The filter as written: `len(m) <= 10 and not m.lower() in ['VQE', 'UCCSD', 'DFT', 'MP']`. */
  function CandidatesAsWritten(ms: seq<string>): (r: seq<string>)
  {
    if ms == [] then []
    else (if |ms[0]| <= MaxFormulaLength && Lower(ms[0]) !in Jargon then [ms[0]] else []) + CandidatesAsWritten(ms[1..])
  }

  /** The filter as intended: short matches that are not one of the jargon words. */
  function Candidates(ms: seq<string>): (r: seq<string>)
    ensures forall k :: 0 <= k < |r| ==> r[k] !in Jargon && |r[k]| <= MaxFormulaLength && r[k] in ms
  {
    if ms == [] then []
    else (if |ms[0]| <= MaxFormulaLength && ms[0] !in Jargon then [ms[0]] else []) + Candidates(ms[1..])
  }

  /** A lower-cased word is never one of the upper-case jargon words. */
  lemma LowerIsNeverJargon(m: string)
    ensures Lower(m) !in Jargon
  {
    LowerHasNoUpper(m);
    if Lower(m) in Jargon {
      assert IsUpper(Lower(m)[0]);
    }
  }

  /** The filter as written keeps every short match: it drops nothing but long ones. */
  lemma {:induction false} FilterAsWrittenKeepsJargon(ms: seq<string>)
    ensures CandidatesAsWritten(ms) == Shorts(ms)
    decreases |ms|
  {
    if ms != [] {
      LowerIsNeverJargon(ms[0]);
      FilterAsWrittenKeepsJargon(ms[1..]);
    }
  }

  /** The matches of at most ten characters. */
  function Shorts(ms: seq<string>): seq<string>
  {
    if ms == [] then [] else (if |ms[0]| <= MaxFormulaLength then [ms[0]] else []) + Shorts(ms[1..])
  }

  /** `_extract_formula_from_query` around a given candidate list: id, then table, then candidate, then "Si". */
  function QueryFormula(query: string, candidates: seq<string>): (f: string)
    ensures SearchMpId(Lower(query), "").Some? ==> f == SearchMpId(Lower(query), "").value
    ensures (SearchMpId(Lower(query), "").None? && Supervisor.FirstMaterial(Lower(query), QueryMaterials).Some?) ==>
              f == QueryMaterials[Supervisor.FirstMaterial(Lower(query), QueryMaterials).value].1
    ensures (SearchMpId(Lower(query), "").None? && Supervisor.FirstMaterial(Lower(query), QueryMaterials).None?) ==>
              f == (if candidates != [] then candidates[0] else DefaultFormula)
  {
    match SearchMpId(Lower(query), "")
    case Some(id) => id
    case None =>
      match Supervisor.FirstMaterial(Lower(query), QueryMaterials)
      case Some(k) => QueryMaterials[k].1
      case None => if candidates != [] then candidates[0] else DefaultFormula
  }

  /** With capitalised candidates outside the jargon, the formula is a non-blank non-jargon word. */
  lemma QueryFormulaShape(query: string, candidates: seq<string>)
    requires candidates != [] ==> IsFormulaWord(candidates[0]) && candidates[0] !in Jargon
    ensures QueryFormula(query, candidates) !in Jargon && !IsBlank(QueryFormula(query, candidates))
  {
    var f := QueryFormula(query, candidates);
    TableFormulas();
    assert f != [] && (f[0] == 'm' || IsUpper(f[0]));
    assert !IsSpace(f[0]);
  }

  /** `_extract_formula_from_query` as written, with its filter that never drops a jargon word. */
  function ExtractFormulaFromQueryAsWritten(query: string): string
  {
    QueryFormula(query, CandidatesAsWritten(FormulaWords(query)))
  }

  /** `_extract_formula_from_query` with the jargon filter working as intended. */
  function ExtractFormulaFromQuery(query: string): (f: string)
    ensures f !in Jargon
    ensures !IsBlank(f)
  {
    var c := Candidates(FormulaWords(query));
    assert c != [] ==> c[0] in FormulaWords(query);
    QueryFormulaShape(query, c);
    QueryFormula(query, c)
  }

  /** No `mp-<digits>` id occurs in "vqe". */
  lemma NoIdIn(q: string)
    requires q == "vqe"
    ensures SearchMpId(q, "").None?
  {
  }

  /** No name of the query table occurs in "vqe". */
  lemma NoTableNameIn(q: string)
    requires q == "vqe"
    ensures Supervisor.FirstMaterial(q, QueryMaterials).None?
  {
    forall j | 0 <= j < |QueryMaterials|
      ensures !Contains(q, QueryMaterials[j].0)
    {
      var name := QueryMaterials[j].0;
      assert name[0] !in q;
      if Contains(q, name) {
        ContainsFirstChar(q, name);
      }
    }
  }

  /** A string contains the first character of everything it contains. */
  lemma ContainsFirstChar(s: string, p: string)
    requires Contains(s, p) && p != []
    ensures p[0] in s
  {
    ContainsIffOccurs(s, p);
    var i :| OccursAt(s, p, i);
    assert s[i] == s[i..i + |p|][0];
  }

  /** "VQE" is a formula word, kept by the filter as written and dropped by the intended one. */
  lemma VqeCandidates()
    ensures CandidatesAsWritten(FormulaWords("VQE")) == ["VQE"]
    ensures Candidates(FormulaWords("VQE")) == []
  {
    assert FormulaCharAt("VQE", 0) && FormulaCharAt("VQE", 1) && FormulaCharAt("VQE", 2);
    LoneFormulaWord("VQE");
    LowerIsNeverJargon("VQE");
  }

  /**
   * "VQE" names no material, yet the filter as written lets it through, so
   * `process_query` acts on "VQE"; the intended filter falls back to "Si".
   */
  lemma JargonSlipsThrough()
    ensures ExtractFormulaFromQueryAsWritten("VQE") == "VQE"
    ensures ExtractFormulaFromQuery("VQE") == DefaultFormula
    ensures QueryFormulaFor("VQE", "") == "VQE"
  {
    assert Lower("VQE") == "vqe";
    NoIdIn("vqe");
    NoTableNameIn("vqe");
    VqeCandidates();
  }

  // ---------------------------------------------------------------- queries and workflows

  /** The formula `process_query` works with: the given one, else the one read from the query as written; "Si" when blank. */
  function QueryFormulaFor(query: string, formula: string): (f: string)
    ensures !IsBlank(f)
    ensures !IsBlank(formula) ==> f == formula
    ensures formula == [] && !IsBlank(ExtractFormulaFromQueryAsWritten(query)) ==> f == ExtractFormulaFromQueryAsWritten(query)
  {
    var f := if formula == [] then ExtractFormulaFromQueryAsWritten(query) else formula;
    assert IsUpper(DefaultFormula[0]);
    if IsBlank(f) then DefaultFormula else f
  }

  /**
   * `process_query`: the model's reply (Err when the call raised) is read
   * into an action, which is executed on the formula.
   */
  function ProcessQuery(query: string, formula: string, reply: Result<string, string>, decode: string -> Option<Value>,
                        angle: Option<real>, spacing: Option<real>, mp: McpAgent, raised: string): (h: Handled)
    ensures reply.Err? ==> h == Handled(Error(reply.error), [])
    ensures reply.Ok? ==> h == ExecuteMcpAction(ParseAgentResponse(reply.value, decode), QueryFormulaFor(query, formula),
                                                query, angle, spacing, mp, raised)
  {
    match reply
    case Err(e) => Handled(Error(e), [])
    case Ok(text) =>
      ExecuteMcpAction(ParseAgentResponse(text, decode), QueryFormulaFor(query, formula), query, angle, spacing, mp, raised)
  }

  /** The three workflows the dispatcher chooses between. */
  datatype Workflow = PoscarAnalysis | ComplexQuery | SimpleQuery

  function WorkflowName(w: Workflow): string
  {
    match w
    case PoscarAnalysis => "POSCAR Analysis"
    case ComplexQuery => "Complex Query (Iterative)"
    case SimpleQuery => "Simple Query"
  }

  /** The complexity verdict: a decoded dict whose `complex` is truthy; anything else (or a raised call) is simple. */
  predicate IsComplex(complexityReply: Option<string>, decode: string -> Option<Value>)
  {
    && complexityReply.Some?
    && ReadReply(complexityReply.value, decode).Parsed?
    && ReadReply(complexityReply.value, decode).value.Dict?
    && TruthyKey(ReadReply(complexityReply.value, decode).value, "complex")
  }

  /** Which workflow `intelligent_workflow_dispatch` takes. */
  function ChooseWorkflow(poscarText: Option<string>, complexityReply: Option<string>, decode: string -> Option<Value>): (w: Workflow)
    ensures w == PoscarAnalysis <==> poscarText.Some? && !IsBlank(poscarText.value)
    ensures w == ComplexQuery <==> !(poscarText.Some? && !IsBlank(poscarText.value)) && IsComplex(complexityReply, decode)
  {
    if poscarText.Some? && !IsBlank(poscarText.value) then PoscarAnalysis
    else if IsComplex(complexityReply, decode) then ComplexQuery
    else SimpleQuery
  }

  /**
   * `intelligent_workflow_dispatch`: the chosen workflow's result dict with
   * `workflow_used` set; a result that is not a dict makes the assignment
   * raise, which gives the error dict.
   */
  function IntelligentWorkflowDispatch(poscarText: Option<string>, complexityReply: Option<string>, decode: string -> Option<Value>,
                                       poscarResult: Value, complexResult: Value, simpleResult: Value, raised: string): (r: Value)
    ensures r.Dict? && "workflow_used" in r.fields
    ensures var w := ChooseWorkflow(poscarText, complexityReply, decode);
            var chosen := match w case PoscarAnalysis => poscarResult case ComplexQuery => complexResult case SimpleQuery => simpleResult;
            && (chosen.Dict? ==> r == Dict(chosen.fields["workflow_used" := Str(WorkflowName(w))]))
            && (!chosen.Dict? ==> r.fields["workflow_used"] == Str("Error"))
  {
    var w := ChooseWorkflow(poscarText, complexityReply, decode);
    var chosen := match w case PoscarAnalysis => poscarResult case ComplexQuery => complexResult case SimpleQuery => simpleResult;
    if chosen.Dict? then Dict(chosen.fields["workflow_used" := Str(WorkflowName(w))])
    else Dict(map["status" := Str("error"), "message" := Str(raised), "workflow_used" := Str("Error")])
  }
}
