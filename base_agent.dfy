/**
 * What every agent inherits: the guarded call into the Materials Project
 * agent, the material-id check and the id scraped from a result's text.
 * The agent's methods are an oracle: `call` is the outcome of the named
 * method, None when the agent has no such method.
 */
module BaseAgent {
  import opened Wrappers
  import opened Values
  import opened Errors
  import opened Text
  import opened Scan
  import Decorators
  import MaterialSelector

  /** `safe_mcp_call`, decorated with `mcp_error_handler`. */
  function SafeMcpCall(hasAgent: bool, methodName: string, call: Option<Result<Value, Exc>>): (r: Result<Value, Exc>)
    ensures !hasAgent ==> r == Err(ServiceUnavailable("MCP agent not available"))
    ensures hasAgent && call.None? ==> r == Err(ValidationError("MCP method '" + methodName + "' not found"))
    ensures hasAgent && call.Some? ==> r == Decorators.HandleError(call.value)
    ensures hasAgent && call.Some? && call.value.Ok? ==> r == call.value
    ensures r.Err? ==> !r.error.ConnectionError? && !r.error.ValueError?
  {
    Decorators.HandleError(
      if !hasAgent then Err(ServiceUnavailable("MCP agent not available"))
      else if call.None? then Err(ValidationError("MCP method '" + methodName + "' not found"))
      else call.value)
  }

  /** A ValueError raised inside the delegated method reaches the caller as a ValidationError. */
  lemma ValueErrorBecomesValidation(methodName: string, msg: string)
    ensures SafeMcpCall(true, methodName, Some(Err(ValueError(msg)))) == Err(ValidationError("Invalid input: " + msg))
  {
  }

  /** `validate_material_id`: the stripped id, which must start with `mp-`. */
  function ValidateMaterialId(materialId: string): (r: Result<string, Exc>)
    ensures r.Ok? <==> !IsBlank(materialId) && StartsWith(Strip(materialId), "mp-")
    ensures r.Ok? ==> r.value == Strip(materialId)
    ensures IsBlank(materialId) ==> r == Err(ValidationError("Material ID cannot be empty"))
    ensures !IsBlank(materialId) && !StartsWith(Strip(materialId), "mp-") ==>
              r == Err(ValidationError("Invalid material ID format: " + Strip(materialId)))
  {
    StripEmptyIffBlank(materialId);
    var stripped := Strip(materialId);
    if stripped == [] then Err(ValidationError("Material ID cannot be empty"))
    else if !StartsWith(stripped, "mp-") then Err(ValidationError("Invalid material ID format: " + stripped))
    else Ok(stripped)
  }

  /** A validated id passes the check again unchanged. */
  lemma {:induction false} ValidateIdempotent(materialId: string)
    requires ValidateMaterialId(materialId).Ok?
    ensures ValidateMaterialId(ValidateMaterialId(materialId).value) == ValidateMaterialId(materialId)
  {
    var s := Strip(materialId);
    StripIdempotent(materialId);
    StripEmptyIffBlank(s);
  }

  const IdLabel: string := "Material ID: "

  /** `extract_material_id_from_results`: the first `Material ID: mp-<digits>` in `str(results)`. */
  function ExtractMaterialIdFromResults(results: Value, show: Value -> string): (r: Option<string>)
    ensures r.Some? ==> StartsWith(r.value, "mp-") && IsDigitString(r.value[3..])
    ensures r.Some? <==> Search(show(results), IdLabel + "mp-", IsDigit).Some?
  {
    SearchMpId(show(results), IdLabel)
  }

  /** The id found is really written after `Material ID: ` in the text. */
  lemma {:induction false} ExtractedIdOccurs(results: Value, show: Value -> string)
    requires ExtractMaterialIdFromResults(results, show).Some?
    ensures Contains(show(results), IdLabel + ExtractMaterialIdFromResults(results, show).value)
  {
    var text := show(results);
    var lead := IdLabel + "mp-";
    var d := Search(text, lead, IsDigit).value;
    var p := MatchPos(text, lead, IsDigit, 0).value;
    assert text[p..p + |lead|] == lead;
    assert text[p + |lead|..p + |lead| + |d|] == d;
    assert text[p..p + |lead| + |d|] == lead + d;
    assert IdLabel + ("mp-" + d) == lead + d;
    assert OccursAt(text, lead + d, p);
    ContainsIffOccurs(text, lead + d);
  }

  /** The agent scrapes the same id as the material selector's parser does. */
  lemma AgreesWithSelector(text: string, show: Value -> string)
    requires show(Str(text)) == text
    requires MaterialSelector.ParseMaterialResult(text).Some?
    ensures ExtractMaterialIdFromResults(Str(text), show) == Some(MaterialSelector.ParseMaterialResult(text).value.materialId)
  {
  }
}
