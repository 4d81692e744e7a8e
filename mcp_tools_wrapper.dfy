/**
 * The MCP tools wrapper that Strands agents call: each method asks the
 * Materials Project agent for one thing and folds the answer (or the
 * exception) into a status record tagged with the MCP action it stands for.
 * The agent's methods are parameters; an `Err` is the message of the
 * exception they raise.
 */
module McpToolsWrapper {
  import opened Wrappers
  import opened Values

  /** The Materials Project agent's tool methods, as the wrapper sees them. */
  datatype MpAgent = MpAgent(
    search: string -> Result<Value, string>,
    selectById: string -> Result<Value, string>,
    plotStructure: (string, Value) -> Result<Value, string>,
    buildSupercell: (string, Value) -> Result<Value, string>,
    moireHomobilayer: (string, real, int, real, real) -> Result<Value, string>,
    structureData: (string, string) -> Result<Value, string>,
    fromPoscar: string -> Result<Value, string>,
    fromCif: string -> Result<Value, string>)

  /** A wrapper instance holds nothing but the agent it was built around. */
  datatype Wrapper = Wrapper(agent: MpAgent)

  /** The message of the TypeError that `len(v)` raises on a value without a length. */
  const NoLen: string := "object has no len()"

  const MoireMaxAtoms: int := 10
  const MoireVacuum: real := 15.0

  /** `f"structure://mp_{material_id}"` */
  function StructureUri(materialId: string): (uri: string)
    ensures |uri| == |materialId| + 15
    ensures uri[..15] == "structure://mp_" && uri[15..] == materialId
  {
    "structure://mp_" + materialId
  }

  /** `[[2,0,0],[0,2,0],[0,0,2]]` */
  function DoubleEachAxis(): Value
  {
    List([List([Int(2), Int(0), Int(0)]), List([Int(0), Int(2), Int(0)]), List([Int(0), Int(0), Int(2)])])
  }

  /** A status record: `status`, the method's `mcp_action` tag, and the extra fields. */
  function Reply(status: string, action: string, extra: map<string, Value>): (r: Value)
    requires "status" !in extra && "mcp_action" !in extra
    ensures r.Dict? && r.fields.Keys == extra.Keys + {"status", "mcp_action"}
    ensures Status(r) == status && Tagged(r, action)
    ensures forall k :: k in extra ==> r.fields[k] == extra[k]
  {
    Dict(extra + map["status" := Str(status), "mcp_action" := Str(action)])
  }

  function Success(action: string, data: Value): (r: Value)
    ensures Status(r) == "success" && Tagged(r, action)
  {
    Reply("success", action, map["data" := data])
  }

  function Message(status: string, action: string, message: string): (r: Value)
    ensures Status(r) == status && Tagged(r, action)
  {
    Reply(status, action, map["message" := Str(message)])
  }

  /** The `status` of a record, or "" when it has none. */
  function Status(r: Value): string
  {
    if HasKey(r, "status") && r.fields["status"].Str? then r.fields["status"].s else ""
  }

  predicate Tagged(r: Value, action: string)
  {
    HasKey(r, "mcp_action") && r.fields["mcp_action"] == Str(action)
  }

  /**
   * `result and not result.get('error')`: Ok(true) for a usable answer,
   * Ok(false) for a falsy one or one with a truthy error, and the
   * AttributeError for a truthy answer that is not a dict.
   */
  function Accepted(result: Value): (r: Result<bool, string>)
    ensures r == Ok(true) <==> Usable(result)
    ensures r.Err? <==> Truthy(result) && !result.Dict?
    ensures r.Err? ==> r.error == NoGet
  {
    if !Truthy(result) then Ok(false)
    else if !result.Dict? then Err(NoGet)
    else Ok(!TruthyKey(result, "error"))
  }

  /** `len(result)` is defined: strings, lists and dicts. */
  predicate HasLen(v: Value)
  {
    v.Str? || v.List? || v.Dict?
  }

  /** The shared shape of search_material and get_material_details. */
  function Lookup(answer: Result<Value, string>, action: string, missing: string): (r: Value)
    ensures Tagged(r, action)
  {
    match answer
    case Err(e) => Message("error", action, e)
    case Ok(result) =>
      match Accepted(result)
      case Err(e) => Message("error", action, e)
      case Ok(found) => if found then Success(action, result) else Message("not_found", action, missing)
  }

  function SearchMaterial(w: Wrapper, formula: string): Value
  {
    Lookup(w.agent.search(formula), "search_materials_by_formula", "No materials found for " + formula)
  }

  function GetMaterialDetails(w: Wrapper, materialId: string): Value
  {
    Lookup(w.agent.selectById(materialId), "select_material_by_id", "Material " + materialId + " not found")
  }

  /**
   * The selection every structure tool makes first: None when the material
   * is loaded, otherwise the record the method returns straight away.
   */
  function Unselected(w: Wrapper, materialId: string, action: string): (r: Option<Value>)
    ensures r.None? <==> w.agent.selectById(materialId).Ok? && Usable(w.agent.selectById(materialId).value)
    ensures r.Some? ==> Tagged(r.value, action) && Status(r.value) != "success"
  {
    match w.agent.selectById(materialId)
    case Err(e) => Some(Message("error", action, e))
    case Ok(selected) =>
      match Accepted(selected)
      case Err(e) => Some(Message("error", action, e))
      case Ok(found) => if found then None else Some(Message("not_found", action, "Material " + materialId + " not found"))
  }

  /** The record of a tool call whose answer is returned as is. */
  function Called(answer: Result<Value, string>, action: string): (r: Value)
    ensures Tagged(r, action)
  {
    match answer
    case Err(e) => Message("error", action, e)
    case Ok(result) => Success(action, result)
  }

  function CreateVisualization(w: Wrapper, materialId: string): Value
  {
    match Unselected(w, materialId, "plot_structure")
    case Some(early) => early
    case None => Called(w.agent.plotStructure(StructureUri(materialId), List([Int(1), Int(1), Int(1)])), "plot_structure")
  }

  /** `scaling_matrix` is None when the caller gives none. */
  function CreateSupercell(w: Wrapper, materialId: string, scalingMatrix: Value): Value
  {
    match Unselected(w, materialId, "build_supercell")
    case Some(early) => early
    case None =>
      var scaling := if Truthy(scalingMatrix) then scalingMatrix else DoubleEachAxis();
      Called(w.agent.buildSupercell(StructureUri(materialId), Dict(map["scaling_matrix" := scaling])), "build_supercell")
  }

  function CreateMoireBilayer(w: Wrapper, materialId: string, twistAngle: real, interlayerSpacing: real): Value
  {
    match Unselected(w, materialId, "moire_homobilayer")
    case Some(early) => early
    case None =>
      match w.agent.moireHomobilayer(StructureUri(materialId), interlayerSpacing, MoireMaxAtoms, twistAngle, MoireVacuum)
      case Err(e) => Message("error", "moire_homobilayer", e)
      case Ok(result) =>
        Reply("success", "moire_homobilayer", map[
          "data" := result,
          "parameters" := Dict(map["twist_angle" := Num(twistAngle), "interlayer_spacing" := Num(interlayerSpacing)])])
  }

  function GetStructureData(w: Wrapper, structureUri: string, format: string): Value
  {
    match w.agent.structureData(structureUri, format)
    case Err(e) => Message("error", "get_structure_data", e)
    case Ok(result) =>
      if !Truthy(result) then Message("not_found", "get_structure_data", "No " + format + " data available")
      else if !HasLen(result) then Message("error", "get_structure_data", NoLen)
      else Reply("success", "get_structure_data", map["data" := result, "format" := Str(format)])
  }

  /** The shared shape of the two create_structure_from_* methods. */
  function Created(answer: Result<Value, string>, action: string, kind: string): (r: Value)
    ensures Tagged(r, action)
  {
    match answer
    case Err(e) => Message("error", action, e)
    case Ok(result) =>
      if Truthy(result) then Success(action, result)
      else Message("failed", action, "Could not create structure from " + kind)
  }

  function CreateStructureFromPoscar(w: Wrapper, poscar: string): Value
  {
    Created(w.agent.fromPoscar(poscar), "create_structure_from_poscar", "POSCAR")
  }

  function CreateStructureFromCif(w: Wrapper, cif: string): Value
  {
    Created(w.agent.fromCif(cif), "create_structure_from_cif", "CIF")
  }

  function GetStructure(w: Wrapper, materialId: string, format: string): Value
  {
    match Unselected(w, materialId, "get_structure")
    case Some(early) => early
    case None =>
      match w.agent.structureData(StructureUri(materialId), format)
      case Err(e) => Message("error", "get_structure", e)
      case Ok(result) =>
        if Truthy(result) then
          Reply("success", "get_structure", map["data" := result, "material_id" := Str(materialId), "format" := Str(format)])
        else Message("not_found", "get_structure", "No " + format + " structure for " + materialId)
  }

  /** The tools the wrapper offers, with their descriptions. */
  function AvailableTools(): map<string, string>
  {
    map[
      "search_material" := "Search for materials by formula",
      "get_material_details" := "Get detailed material data by ID",
      "create_visualization" := "Create structure visualization",
      "create_supercell" := "Create supercell structure",
      "create_moire_bilayer" := "Create moire bilayer structure",
      "get_structure_data" := "Get structure data (POSCAR/CIF)",
      "create_structure_from_poscar" := "Create structure from POSCAR",
      "create_structure_from_cif" := "Create structure from CIF",
      "get_structure" := "Get structure for material ID (convenience)"]
  }

  // ---------------------------------------------------------------------
  // Properties
  // ---------------------------------------------------------------------

  /** search_material: success with the answer exactly when it is usable, not_found for any other answer, error when the search raises. */
  lemma SearchOutcome(w: Wrapper, formula: string)
    ensures var r := SearchMaterial(w, formula);
      var answer := w.agent.search(formula);
      && Tagged(r, "search_materials_by_formula")
      && (Status(r) == "success" <==> answer.Ok? && Usable(answer.value))
      && (Status(r) == "success" ==> r.fields["data"] == answer.value)
      && (Status(r) == "not_found" <==> answer.Ok? && (!Truthy(answer.value) || (answer.value.Dict? && TruthyKey(answer.value, "error"))))
      && (Status(r) == "error" <==> answer.Err? || (Truthy(answer.value) && !answer.value.Dict?))
      && (answer.Err? ==> r.fields["message"] == Str(answer.error))
  {
  }

  /** get_material_details follows the same mapping over the selection's answer. */
  lemma DetailsOutcome(w: Wrapper, materialId: string)
    ensures var r := GetMaterialDetails(w, materialId);
      var answer := w.agent.selectById(materialId);
      && Tagged(r, "select_material_by_id")
      && (Status(r) == "success" <==> answer.Ok? && Usable(answer.value))
      && (Status(r) == "not_found" ==> r.fields["message"] == Str("Material " + materialId + " not found"))
      && (Status(r) == "error" <==> answer.Err? || (Truthy(answer.value) && !answer.value.Dict?))
  {
  }

  /** Every method tags every outcome, success or not, with its own MCP action. */
  lemma EveryOutcomeTagged(w: Wrapper, id: string, formula: string, scaling: Value, twist: real, spacing: real,
                           uri: string, format: string, text: string)
    ensures Tagged(SearchMaterial(w, formula), "search_materials_by_formula")
    ensures Tagged(GetMaterialDetails(w, id), "select_material_by_id")
    ensures Tagged(CreateVisualization(w, id), "plot_structure")
    ensures Tagged(CreateSupercell(w, id, scaling), "build_supercell")
    ensures Tagged(CreateMoireBilayer(w, id, twist, spacing), "moire_homobilayer")
    ensures Tagged(GetStructureData(w, uri, format), "get_structure_data")
    ensures Tagged(CreateStructureFromPoscar(w, text), "create_structure_from_poscar")
    ensures Tagged(CreateStructureFromCif(w, text), "create_structure_from_cif")
    ensures Tagged(GetStructure(w, id, format), "get_structure")
  {
    assert Tagged(SearchMaterial(w, formula), "search_materials_by_formula");
    assert Tagged(GetMaterialDetails(w, id), "select_material_by_id");
    assert Tagged(CreateVisualization(w, id), "plot_structure");
    assert Tagged(CreateSupercell(w, id, scaling), "build_supercell");
    assert Tagged(CreateMoireBilayer(w, id, twist, spacing), "moire_homobilayer");
    assert Tagged(GetStructureData(w, uri, format), "get_structure_data");
    assert Tagged(CreateStructureFromPoscar(w, text), "create_structure_from_poscar");
    assert Tagged(CreateStructureFromCif(w, text), "create_structure_from_cif");
  }

  /**
   * When the material cannot be selected the structure tools answer
   * not_found (or error, when the selection raises) and never reach their
   * tool: replacing the tool changes nothing.
   */
  lemma UnselectedSkipsTool(w: Wrapper, id: string, scaling: Value, twist: real, spacing: real, format: string,
                            other: MpAgent)
    requires !(w.agent.selectById(id).Ok? && Usable(w.agent.selectById(id).value))
    ensures var a := w.agent.(plotStructure := other.plotStructure, buildSupercell := other.buildSupercell,
                              moireHomobilayer := other.moireHomobilayer, structureData := other.structureData);
      && CreateVisualization(Wrapper(a), id) == CreateVisualization(w, id)
      && CreateSupercell(Wrapper(a), id, scaling) == CreateSupercell(w, id, scaling)
      && CreateMoireBilayer(Wrapper(a), id, twist, spacing) == CreateMoireBilayer(w, id, twist, spacing)
      && GetStructure(Wrapper(a), id, format) == GetStructure(w, id, format)
    ensures Status(CreateVisualization(w, id)) != "success"
    ensures Status(CreateSupercell(w, id, scaling)) != "success"
    ensures Status(CreateMoireBilayer(w, id, twist, spacing)) != "success"
    ensures Status(GetStructure(w, id, format)) != "success"
    ensures w.agent.selectById(id).Ok? && !Truthy(w.agent.selectById(id).value) ==>
      CreateVisualization(w, id) == Message("not_found", "plot_structure", "Material " + id + " not found")
  {
  }

  /** Once the material is selected, each tool is called on the structure URI of the material with its fixed arguments, and its answer is the data. */
  lemma SelectedCallsTool(w: Wrapper, id: string, scaling: Value, twist: real, spacing: real)
    requires w.agent.selectById(id).Ok? && Usable(w.agent.selectById(id).value)
    ensures CreateVisualization(w, id) == Called(w.agent.plotStructure("structure://mp_" + id, List([Int(1), Int(1), Int(1)])), "plot_structure")
    ensures !Truthy(scaling) ==>
      CreateSupercell(w, id, scaling) == Called(w.agent.buildSupercell("structure://mp_" + id, Dict(map["scaling_matrix" := DoubleEachAxis()])), "build_supercell")
    ensures Truthy(scaling) ==>
      CreateSupercell(w, id, scaling) == Called(w.agent.buildSupercell("structure://mp_" + id, Dict(map["scaling_matrix" := scaling])), "build_supercell")
    ensures var answer := w.agent.moireHomobilayer("structure://mp_" + id, spacing, 10, twist, 15.0);
      var r := CreateMoireBilayer(w, id, twist, spacing);
      && (answer.Err? ==> r == Message("error", "moire_homobilayer", answer.error))
      && (answer.Ok? ==> Status(r) == "success" && r.fields["data"] == answer.value
                         && r.fields["parameters"] == Dict(map["twist_angle" := Num(twist), "interlayer_spacing" := Num(spacing)]))
  {
  }

  /** get_structure reads the data of the material's structure URI; success carries the id and format back. */
  lemma GetStructureReadsUri(w: Wrapper, id: string, format: string)
    requires w.agent.selectById(id).Ok? && Usable(w.agent.selectById(id).value)
    ensures var answer := w.agent.structureData("structure://mp_" + id, format);
      var r := GetStructure(w, id, format);
      && (Status(r) == "success" <==> answer.Ok? && Truthy(answer.value))
      && (Status(r) == "success" ==> r.fields["data"] == answer.value && r.fields["material_id"] == Str(id) && r.fields["format"] == Str(format))
      && (answer.Ok? && !Truthy(answer.value) ==> r == Message("not_found", "get_structure", "No " + format + " structure for " + id))
  {
  }

  /** get_structure_data: success iff the answer is truthy and has a length; not_found for a falsy answer. */
  lemma StructureDataOutcome(w: Wrapper, uri: string, format: string)
    ensures var answer := w.agent.structureData(uri, format);
      var r := GetStructureData(w, uri, format);
      && (Status(r) == "success" <==> answer.Ok? && Truthy(answer.value) && HasLen(answer.value))
      && (Status(r) == "not_found" <==> answer.Ok? && !Truthy(answer.value))
      && (Status(r) == "success" ==> r.fields["format"] == Str(format))
  {
  }

  /** A falsy answer from a create_structure_from_* call is "failed", never "not_found". */
  lemma CreateFromTextOutcome(w: Wrapper, text: string)
    ensures var answer := w.agent.fromPoscar(text);
      (Status(CreateStructureFromPoscar(w, text)) == "failed" <==> answer.Ok? && !Truthy(answer.value))
    ensures var answer := w.agent.fromCif(text);
      (Status(CreateStructureFromCif(w, text)) == "failed" <==> answer.Ok? && !Truthy(answer.value))
    ensures Status(CreateStructureFromCif(w, text)) in {"success", "failed", "error"}
  {
  }

  /** The wrapper lists exactly nine tools, one per method. */
  lemma NineTools()
    ensures |AvailableTools().Keys| == 9
    ensures AvailableTools().Keys == {"search_material", "get_material_details", "create_visualization",
                                      "create_supercell", "create_moire_bilayer", "get_structure_data",
                                      "create_structure_from_poscar", "create_structure_from_cif", "get_structure"}
  {
  }

  /** The module-level `mcp_wrapper`, None until the application initializes it. */
  class Registry {
    var current: Option<Wrapper>

    constructor ()
      ensures current == None
    {
      current := None;
    }

    /** initialize_mcp_wrapper: builds a wrapper around the agent and publishes it. */
    method Initialize(agent: MpAgent)
      modifies this
      ensures current == Some(Wrapper(agent))
    {
      current := Some(Wrapper(agent));
    }

    /** get_mcp_wrapper */
    method Get() returns (w: Option<Wrapper>)
      ensures w == current
    {
      w := current;
    }
  }

  /** After initialize_mcp_wrapper(a), get_mcp_wrapper hands back a wrapper around a. */
  method InitializeThenGet(registry: Registry, agent: MpAgent) returns (w: Option<Wrapper>)
    modifies registry
    ensures w.Some? && w.value.agent == agent
  {
    registry.Initialize(agent);
    w := registry.Get();
  }
}
