/**
 * The rule-based supervisor: keyword routing of a query to one of six
 * handlers, the handlers themselves (a Materials Project lookup followed by
 * at most one structure tool call) and the POSCAR workflow. The Materials
 * Project agent is an oracle: `search` and `searchByFormula` answer or
 * raise (Err), and `raises` says whether a tool call raised. The structure
 * matcher of the POSCAR workflow is an oracle too; the DFT agent is the
 * modelled one. `raised` stands for the text of an exception the handler
 * catches.
 */
module Supervisor {
  import opened Wrappers
  import opened Values
  import opened Text
  import opened Scan
  import Structures
  import PoscarFormula
  import Dft

  datatype Route = MoireRoute | FormulaSearchRoute | CreationRoute | VisualizationRoute | SupercellRoute | LookupRoute

  const MoireTerms: seq<string> := ["moire", "bilayer", "twist"]
  const SearchTerms: seq<string> := ["search", "find materials", "available", "list"]
  const FileTerms: seq<string> := ["poscar", "cif"]
  const CreateTerms: seq<string> := ["create", "from"]
  const PlotTerms: seq<string> := ["3d", "plot", "visualiz", "structure plot"]

  /** `process_query`: the first rule whose keywords occur in the lower-cased query. */
  function ProcessQueryRoute(query: string, formula: string): (r: Route)
    ensures r == MoireRoute <==> ContainsAny(Lower(query), MoireTerms)
    ensures r == FormulaSearchRoute ==> !StartsWith(formula, "mp-") && ContainsAny(Lower(query), SearchTerms)
    ensures r == LookupRoute <==>
              && !ContainsAny(Lower(query), MoireTerms)
              && !(ContainsAny(Lower(query), SearchTerms) && !StartsWith(formula, "mp-"))
              && !(ContainsAny(Lower(query), FileTerms) && ContainsAny(Lower(query), CreateTerms))
              && !ContainsAny(Lower(query), PlotTerms)
              && !Contains(Lower(query), "supercell")
  {
    var q := Lower(query);
    if ContainsAny(q, MoireTerms) then MoireRoute
    else if ContainsAny(q, SearchTerms) && !StartsWith(formula, "mp-") then FormulaSearchRoute
    else if ContainsAny(q, FileTerms) && ContainsAny(q, CreateTerms) then CreationRoute
    else if ContainsAny(q, PlotTerms) then VisualizationRoute
    else if Contains(q, "supercell") then SupercellRoute
    else LookupRoute
  }

  /** Routing ignores case. */
  lemma RouteIgnoresCase(query: string, formula: string)
    ensures ProcessQueryRoute(Lower(query), formula) == ProcessQueryRoute(query, formula)
  {
    LowerIdempotent(query);
  }

  /** An id formula never takes the formula-search route, whatever the query says. */
  lemma IdsAreLookedUp(query: string, formula: string)
    requires StartsWith(formula, "mp-")
    requires !ContainsAny(Lower(query), MoireTerms) && !ContainsAny(Lower(query), FileTerms)
    requires !ContainsAny(Lower(query), PlotTerms) && !Contains(Lower(query), "supercell")
    ensures ProcessQueryRoute(query, formula) == LookupRoute
  {
  }

  // ---------------------------------------------------------------- handler results

  /** A structure tool call made by a handler, with the arguments it passes. */
  datatype ToolCall =
    | PlotStructure(uri: Value, size: seq<int>)
    | BuildSupercell(uri: Value, scaling: seq<seq<int>>)
    | MoireHomobilayer(uri: Value, spacing: real, maxAtoms: int, twistAngle: real, vacuum: real)
    | CreateFromPoscar(poscar: string)

  /** The dict a handler returns: success with the material data and the tool names, or an error message. */
  datatype Reply =
    | Success(mpData: Value, actions: seq<string>, moireParams: Option<(real, real)>)
    | Error(message: string)

  /** A reply together with the tool calls the handler made on the way. */
  datatype Handled = Handled(reply: Reply, calls: seq<ToolCall>)

  const NotFound: string := "Material not found"
  const NoUri: string := "No structure URI available"
  const LookupActions: seq<string> := ["select_material_by_id", "get_structure_data"]

  /**
   * `mp_data = self.mp_agent.search(formula)` and its check: a raised
   * exception, a falsy answer or one with an error are failures, and an
   * answer that is not a dict raises on `.get`.
   */
  function Lookup(formula: string, search: string -> Result<Value, string>, raised: string): (r: Result<Value, string>)
    ensures r.Ok? <==> search(formula).Ok? && Usable(search(formula).value)
    ensures r.Ok? ==> r.value == search(formula).value
    ensures search(formula).Ok? && !Truthy(search(formula).value) ==> r == Err(NotFound)
    ensures search(formula).Ok? && search(formula).value.Dict? && TruthyKey(search(formula).value, "error") ==> r == Err(NotFound)
  {
    match search(formula)
    case Err(e) => Err(e)
    case Ok(d) =>
      if !Truthy(d) then Err(NotFound)
      else if !d.Dict? then Err(raised)
      else if TruthyKey(d, "error") then Err(NotFound)
      else Ok(d)
  }

  /** The common shape of the three structure handlers: lookup, then the tool call on a truthy URI. */
  function WithStructure(found: Result<Value, string>, call: Value -> ToolCall, actions: seq<string>,
                         moire: Option<(real, real)>, raises: ToolCall -> Option<string>): (h: Handled)
    ensures found.Err? ==> h == Handled(Error(found.error), [])
    ensures h.reply.Success? ==> found.Ok? && h.reply.mpData == found.value && TruthyKey(found.value, "structure_uri")
    ensures found.Ok? && !TruthyKey(found.value, "structure_uri") ==> h == Handled(Error(NoUri), [])
    ensures found.Ok? && TruthyKey(found.value, "structure_uri") ==>
              var c := call(found.value.fields["structure_uri"]);
              h.calls == [c] && h.reply == (if raises(c).Some? then Error(raises(c).value) else Success(found.value, actions, moire))
  {
    match found
    case Err(e) => Handled(Error(e), [])
    case Ok(d) =>
      if !TruthyKey(d, "structure_uri") then Handled(Error(NoUri), [])
      else
        var c := call(d.fields["structure_uri"]);
        match raises(c)
        case Some(e) => Handled(Error(e), [c])
        case None => Handled(Success(d, actions, moire), [c])
  }

  /** `_handle_visualization_request`: plot the structure at size [1, 1, 1]. */
  function HandleVisualization(formula: string, search: string -> Result<Value, string>,
                               raises: ToolCall -> Option<string>, raised: string): (h: Handled)
    ensures h.reply.Success? ==> h.calls != [] && h.calls[0].PlotStructure? && h.calls[0].size == [1, 1, 1]
    ensures h.reply.Success? ==> h.reply.actions == LookupActions + ["plot_structure"]
    ensures h.reply.Success? <==> Lookup(formula, search, raised).Ok? && TruthyKey(Lookup(formula, search, raised).value, "structure_uri")
                                  && raises(PlotStructure(Lookup(formula, search, raised).value.fields["structure_uri"], [1, 1, 1])).None?
  {
    WithStructure(Lookup(formula, search, raised), uri => PlotStructure(uri, [1, 1, 1]),
                  LookupActions + ["plot_structure"], None, raises)
  }

  // ---------------------------------------------------------------- supercell dimensions

  /** `(\d+)x(\d+)x(\d+)` anchored at the start of `s`: the three numbers, if the pattern matches there. */
  function DimsHere(s: string): Option<(nat, nat, nat)>
  {
    var a := Run(s, IsDigit);
    if a == 0 || a == |s| || s[a] != 'x' then None
    else
      var s2 := s[a + 1..];
      var b := Run(s2, IsDigit);
      if b == 0 || b == |s2| || s2[b] != 'x' then None
      else
        var s3 := s2[b + 1..];
        var c := Run(s3, IsDigit);
        if c == 0 then None
        else Some((DigitsValue(s[..a]), DigitsValue(s2[..b]), DigitsValue(s3[..c])))
  }

  /** `re.search(r'(\d+)x(\d+)x(\d+)', s)` from position `from`: the leftmost match. */
  function DimsFrom(s: string, from: nat): (r: Option<(nat, nat, nat)>)
    ensures r.None? ==> forall j :: from <= j <= |s| ==> DimsHere(s[j..]).None?
    decreases |s| - from
  {
    if from > |s| then None
    else if DimsHere(s[from..]).Some? then DimsHere(s[from..])
    else DimsFrom(s, from + 1)
  }

  /** The diagonal scaling matrix diag(a, b, c). */
  function Diagonal(a: int, b: int, c: int): (m: seq<seq<int>>)
    ensures |m| == 3 && forall i :: 0 <= i < 3 ==> |m[i]| == 3
    ensures m[0][0] == a && m[1][1] == b && m[2][2] == c
    ensures forall i, j :: 0 <= i < 3 && 0 <= j < 3 && i != j ==> m[i][j] == 0
  {
    [[a, 0, 0], [0, b, 0], [0, 0, c]]
  }

  /** The scaling matrix of `_handle_supercell_request`: the first `AxBxC` of the query, else diag(2, 2, 2). */
  function SupercellScaling(query: string): (m: seq<seq<int>>)
    ensures DimsFrom(Lower(query), 0).None? ==> m == Structures.DefaultScaling
    ensures DimsFrom(Lower(query), 0).Some? ==>
              var d := DimsFrom(Lower(query), 0).value; m == Diagonal(d.0, d.1, d.2)
  {
    match DimsFrom(Lower(query), 0)
    case None => Structures.DefaultScaling
    case Some((a, b, c)) => Diagonal(a, b, c)
  }

  /** A digit run followed by a non-digit is read whole. */
  lemma {:induction false} RunOfDigits(d: string, rest: string)
    requires IsDigitString(d) && (rest == [] || !IsDigit(rest[0]))
    ensures Run(d + rest, IsDigit) == |d| && (d + rest)[..|d|] == d
    decreases |d|
  {
    if |d| > 1 {
      assert (d + rest)[1..] == d[1..] + rest;
      RunOfDigits(d[1..], rest);
    } else {
      assert (d + rest)[1..] == rest;
    }
  }

  /** A digit run, an `x` and the rest: the run is read whole and the scan resumes after the `x`. */
  lemma DigitsThenX(d: string, t: string)
    requires IsDigitString(d)
    ensures var s := d + "x" + t; Run(s, IsDigit) == |d| && s[..|d|] == d && s[|d|] == 'x' && s[|d| + 1..] == t
  {
    assert d + "x" + t == d + ("x" + t);
    RunOfDigits(d, "x" + t);
  }

  /** A query that starts with `AxBxC` asks for diag(A, B, C). */
  lemma DimsOfWrittenSize(da: string, db: string, dc: string, rest: string)
    requires IsDigitString(da) && IsDigitString(db) && IsDigitString(dc)
    requires rest == [] || !IsDigit(rest[0])
    ensures DimsHere(da + "x" + db + "x" + dc + rest) == Some((DigitsValue(da), DigitsValue(db), DigitsValue(dc)))
  {
    var t3 := dc + rest;
    var t2 := db + "x" + t3;
    assert da + "x" + db + "x" + dc + rest == da + "x" + t2;
    DigitsThenX(da, t2);
    DigitsThenX(db, t3);
    RunOfDigits(dc, rest);
  }

  /** `_handle_supercell_request` */
  function HandleSupercell(formula: string, query: string, search: string -> Result<Value, string>,
                           raises: ToolCall -> Option<string>, raised: string): (h: Handled)
    ensures h.reply.Success? ==>
              TruthyKey(h.reply.mpData, "structure_uri") && h.calls == [BuildSupercell(h.reply.mpData.fields["structure_uri"], SupercellScaling(query))]
    ensures h.reply.Success? ==> h.reply.actions == LookupActions + ["build_supercell"]
    ensures Lookup(formula, search, raised).Err? ==> h == Handled(Error(Lookup(formula, search, raised).error), [])
  {
    WithStructure(Lookup(formula, search, raised), uri => BuildSupercell(uri, SupercellScaling(query)),
                  LookupActions + ["build_supercell"], None, raises)
  }

  // ---------------------------------------------------------------- moire

  /** The 2D materials a moire query may name, in the table's insertion order. */
  const MoireMaterials: seq<(string, string)> := [
    ("graphene", "C"), ("bn", "BN"), ("boron nitride", "BN"), ("h-bn", "BN"),
    ("mos2", "MoS2"), ("molybdenum disulfide", "MoS2"), ("ws2", "WS2"), ("tungsten disulfide", "WS2"),
    ("mose2", "MoSe2"), ("molybdenum diselenide", "MoSe2"), ("wse2", "WSe2"), ("tungsten diselenide", "WSe2"),
    ("phosphorene", "P"), ("black phosphorus", "P"), ("silicene", "Si"), ("germanene", "Ge"),
    ("stanene", "Sn"), ("plumbene", "Pb")]

  /** Index of the first table entry whose name occurs in `q`. */
  function FirstMaterial(q: string, table: seq<(string, string)>): (r: Option<nat>)
    ensures r.Some? ==> r.value < |table| && Contains(q, table[r.value].0)
    ensures r.Some? ==> forall j :: 0 <= j < r.value ==> !Contains(q, table[j].0)
    ensures r.None? ==> forall j :: 0 <= j < |table| ==> !Contains(q, table[j].0)
  {
    if table == [] then None
    else if Contains(q, table[0].0) then Some(0)
    else match FirstMaterial(q, table[1..])
      case None => None
      case Some(k) => Some(k + 1)
  }

  /** No formula of the table is "H2" or "H". */
  lemma TableAvoidsHydrogen()
    ensures forall j :: 0 <= j < |MoireMaterials| ==> MoireMaterials[j].1 != "H2" && MoireMaterials[j].1 != "H"
  {
  }

  /**
   * The formula override of `_handle_moire_request`: the first material named
   * in the query, else graphene for a hydrogen formula, else the formula.
   */
  function MoireFormula(formula: string, query: string): (f: string)
    ensures FirstMaterial(Lower(query), MoireMaterials).Some? ==> f == MoireMaterials[FirstMaterial(Lower(query), MoireMaterials).value].1
    ensures FirstMaterial(Lower(query), MoireMaterials).None? && (formula == "H2" || formula == "H") ==> f == "C"
    ensures FirstMaterial(Lower(query), MoireMaterials).None? && formula != "H2" && formula != "H" ==> f == formula
  {
    TableAvoidsHydrogen();
    var overridden := match FirstMaterial(Lower(query), MoireMaterials)
      case Some(k) => MoireMaterials[k].1
      case None => formula;
    if overridden == formula && (formula == "H2" || formula == "H") then "C" else overridden
  }

  const DefaultTwistAngle: real := 1.1
  const DefaultSpacing: real := 3.4
  const MoireMaxAtoms: int := 10
  const MoireVacuum: real := 15.0

  /**
   * `_handle_moire_request`; `angle` and `spacing` are the numbers the two
   * regular expressions read from the query, if any.
   */
  function HandleMoire(formula: string, query: string, angle: Option<real>, spacing: Option<real>,
                       search: string -> Result<Value, string>, raises: ToolCall -> Option<string>, raised: string): (h: Handled)
    ensures var t := if angle.Some? then angle.value else DefaultTwistAngle;
            var d := if spacing.Some? then spacing.value else DefaultSpacing;
            && (h.reply.Success? ==> h.reply.moireParams == Some((t, d)))
            && (h.reply.Success? ==> TruthyKey(h.reply.mpData, "structure_uri")
                                     && h.calls == [MoireHomobilayer(h.reply.mpData.fields["structure_uri"], d, MoireMaxAtoms, t, MoireVacuum)])
    ensures h.reply.Success? ==> search(MoireFormula(formula, query)).Ok? && h.reply.mpData == search(MoireFormula(formula, query)).value
    ensures Lookup(MoireFormula(formula, query), search, raised).Err? ==>
              h == Handled(Error(Lookup(MoireFormula(formula, query), search, raised).error), [])
  {
    var t := if angle.Some? then angle.value else DefaultTwistAngle;
    var d := if spacing.Some? then spacing.value else DefaultSpacing;
    WithStructure(Lookup(MoireFormula(formula, query), search, raised),
                  uri => MoireHomobilayer(uri, d, MoireMaxAtoms, t, MoireVacuum),
                  LookupActions + ["moire_homobilayer"], Some((t, d)), raises)
  }

  // ---------------------------------------------------------------- the other handlers

  /** `len(v)` for the values that have one. */
  function Len(v: Value): (n: Option<nat>)
    ensures v.List? ==> n == Some(|v.items|)
    ensures !(v.List? || v.Str? || v.Dict?) ==> n.None?
  {
    match v
    case List(items) => Some(|items|)
    case Str(s) => Some(|s|)
    case Dict(fields) => Some(|fields|)
    case _ => None
  }

  /** `_handle_formula_search`: the results with their count. */
  function HandleFormulaSearch(formula: string, searchByFormula: string -> Result<Value, string>, raised: string): (h: Handled)
    ensures h.calls == []
    ensures searchByFormula(formula).Err? ==> h.reply == Error(searchByFormula(formula).error)
    ensures searchByFormula(formula).Ok? && searchByFormula(formula).value.List? ==>
              var results := searchByFormula(formula).value;
              h.reply == Success(Dict(map["formula" := Str(formula), "results" := results, "count" := Int(|results.items|)]),
                                 ["search_materials_by_formula"], None)
  {
    match searchByFormula(formula)
    case Err(e) => Handled(Error(e), [])
    case Ok(results) =>
      match Len(results)
      case None => Handled(Error(raised), [])
      case Some(n) =>
        Handled(Success(Dict(map["formula" := Str(formula), "results" := results, "count" := Int(n)]),
                        ["search_materials_by_formula"], None), [])
  }

  /** The fixed silicon POSCAR the creation handler sends. */
  const SamplePoscar: string := "Si\n1.0\n5.43 0 0\n0 5.43 0\n0 0 5.43\nSi\n2\nDirect\n0.0 0.0 0.0\n0.25 0.25 0.25"

  /** `_handle_structure_creation`: a POSCAR query sends the sample structure; a CIF query calls nothing. */
  function HandleStructureCreation(query: string, raises: ToolCall -> Option<string>): (h: Handled)
    ensures Contains(Lower(query), "poscar") ==> h.calls == [CreateFromPoscar(SamplePoscar)]
    ensures !Contains(Lower(query), "poscar") ==>
              h == Handled(Success(Dict(map["created" := Bool(true)]), ["create_structure_from_cif"], None), [])
    ensures h.reply.Success? ==> h.reply.mpData == Dict(map["created" := Bool(true)])
  {
    if Contains(Lower(query), "poscar") then
      var c := CreateFromPoscar(SamplePoscar);
      match raises(c)
      case Some(e) => Handled(Error(e), [c])
      case None => Handled(Success(Dict(map["created" := Bool(true)]), ["create_structure_from_poscar"], None), [c])
    else Handled(Success(Dict(map["created" := Bool(true)]), ["create_structure_from_cif"], None), [])
  }

  /** `_handle_standard_lookup` */
  function HandleStandardLookup(formula: string, search: string -> Result<Value, string>, raised: string): (h: Handled)
    ensures h.calls == []
    ensures h.reply.Success? <==> search(formula).Ok? && Usable(search(formula).value)
    ensures h.reply.Success? ==> h.reply == Success(search(formula).value, LookupActions, None)
  {
    match Lookup(formula, search, raised)
    case Err(e) => Handled(Error(e), [])
    case Ok(d) => Handled(Success(d, LookupActions, None), [])
  }

  /** `process_query`: the handler the route names. */
  function ProcessQuery(query: string, formula: string, angle: Option<real>, spacing: Option<real>,
                        search: string -> Result<Value, string>, searchByFormula: string -> Result<Value, string>,
                        raises: ToolCall -> Option<string>, raised: string): (h: Handled)
    ensures ProcessQueryRoute(query, formula) == LookupRoute ==> h == HandleStandardLookup(formula, search, raised)
    ensures ProcessQueryRoute(query, formula) == MoireRoute ==> h == HandleMoire(formula, query, angle, spacing, search, raises, raised)
    ensures ProcessQueryRoute(query, formula) == FormulaSearchRoute ==> h == HandleFormulaSearch(formula, searchByFormula, raised)
    ensures ProcessQueryRoute(query, formula) == CreationRoute ==> h == HandleStructureCreation(query, raises)
    ensures ProcessQueryRoute(query, formula) == VisualizationRoute ==> h == HandleVisualization(formula, search, raises, raised)
    ensures ProcessQueryRoute(query, formula) == SupercellRoute ==> h == HandleSupercell(formula, query, search, raises, raised)
  {
    match ProcessQueryRoute(query, formula)
    case MoireRoute => HandleMoire(formula, query, angle, spacing, search, raises, raised)
    case FormulaSearchRoute => HandleFormulaSearch(formula, searchByFormula, raised)
    case CreationRoute => HandleStructureCreation(query, raises)
    case VisualizationRoute => HandleVisualization(formula, search, raises, raised)
    case SupercellRoute => HandleSupercell(formula, query, search, raises, raised)
    case LookupRoute => HandleStandardLookup(formula, search, raised)
  }

  /** Every handler that looks the material up reports an error when the answer is missing or carries an error. */
  lemma MissingMaterialIsError(formula: string, query: string, angle: Option<real>, spacing: Option<real>,
                               search: string -> Result<Value, string>, raises: ToolCall -> Option<string>, raised: string)
    requires search(formula).Ok? && !Usable(search(formula).value)
    requires search(MoireFormula(formula, query)).Ok? && !Usable(search(MoireFormula(formula, query)).value)
    ensures HandleVisualization(formula, search, raises, raised).reply.Error?
    ensures HandleSupercell(formula, query, search, raises, raised).reply.Error?
    ensures HandleMoire(formula, query, angle, spacing, search, raises, raised).reply.Error?
    ensures HandleStandardLookup(formula, search, raised).reply.Error?
    ensures HandleVisualization(formula, search, raises, raised).calls == []
  {
  }

  // ---------------------------------------------------------------- the POSCAR workflow

  /** What `process_poscar_query` returns; `Raises` when a key the workflow reads is missing or not a number. */
  datatype PoscarReply =
    | NoMatch(formula: string)
    | Matched(formula: string, materialId: Value, matchScore: real, mpData: Value, dftParameters: Value,
              rmsDistance: Value, confidence: string, parametersValid: bool)
    | Raises

  /** A literature id only when the matched id is a string. */
  function IdText(id: Value): string
  {
    if id.Str? then id.s else ""
  }

  /** What the workflow does with the matcher's result for the extracted formula. */
  function PoscarReplyFor(formula: string, matchResult: Value): (r: PoscarReply)
    ensures !Truthy(matchResult) ==> r == NoMatch(formula)
    ensures r.Matched? ==> r.formula == formula && (r.confidence == "high" <==> r.matchScore > 0.9)
    ensures r.Matched? ==> r.dftParameters == Dft.ExtractDftParameters(IdText(r.materialId), r.mpData)
    ensures r.Matched? ==> r.parametersValid == Dft.ValidateParameters(r.dftParameters)
    ensures (Truthy(matchResult) && matchResult.Dict? && "match_score" in matchResult.fields
             && Numeric(matchResult.fields["match_score"]).Some?
             && "material_id" in matchResult.fields && "mp_data" in matchResult.fields) ==> r.Matched?
  {
    if !Truthy(matchResult) then NoMatch(formula)
    else if !matchResult.Dict? || "match_score" !in matchResult.fields || "material_id" !in matchResult.fields
            || "mp_data" !in matchResult.fields then Raises
    else match Numeric(matchResult.fields["match_score"])
      case None => Raises
      case Some(score) =>
        var id := matchResult.fields["material_id"];
        var mpData := matchResult.fields["mp_data"];
        var params := Dft.ExtractDftParameters(IdText(id), mpData);
        Matched(formula, id, score, mpData, params, GetOr(matchResult, "rms_distance", Null),
                if score > 0.9 then "high" else "medium", Dft.ValidateParameters(params))
  }

  /**
   * `process_poscar_query`: the formula is read from the POSCAR text, and
   * `matcher` stands for the structure agent's `match_poscar_to_mp`.
   */
  method ProcessPoscarQuery(query: string, poscar: string, matcher: (string, string) -> Value) returns (r: PoscarReply)
    ensures r == PoscarReplyFor(PoscarFormula.SupervisorFormula(poscar), matcher(poscar, PoscarFormula.SupervisorFormula(poscar)))
  {
    var formula := PoscarFormula.ExtractFormulaFromPoscar(poscar);
    var matchResult := matcher(poscar, formula);
    r := PoscarReplyFor(formula, matchResult);
  }

  /** A match to a literature material always carries parameters the DFT agent accepts. */
  lemma LiteratureMatchIsValid(formula: string, matchResult: Value)
    requires PoscarReplyFor(formula, matchResult).Matched?
    requires IdText(PoscarReplyFor(formula, matchResult).materialId) in Dft.LiteratureTable
    ensures PoscarReplyFor(formula, matchResult).parametersValid
  {
    var r := PoscarReplyFor(formula, matchResult);
    Dft.KnownMaterialPlausible(IdText(r.materialId), r.mpData);
  }
}
