/**
 * The Strands structure-matching agent without its pymatgen loop: how a
 * pymatgen result and the model's analysis are combined, how the model's
 * answer is read and checked against the Materials Project, the element
 * comparison of two formulas, the formula-search fallback and the quality
 * gate on a match. Results are the dicts the agent returns. The Materials
 * Project agent's `search` is an oracle (Err when it raises); `raised`
 * stands for the text of an exception that escapes.
 */
module StructureAgent {
  import opened Wrappers
  import opened Values
  import opened Text
  import opened Scan
  import Replies
  import opened Formulas

  // ---------------------------------------------------------------- formulas

  /** `_compare_formulas`: the two formulas name the same set of elements. */
  function CompareFormulas(poscarFormula: string, mpFormula: string): (same: bool)
    ensures same <==> forall t :: t in ElementSymbols(poscarFormula) <==> t in ElementSymbols(mpFormula)
  {
    var mine := set t | t in ElementSymbols(poscarFormula);
    var theirs := set t | t in ElementSymbols(mpFormula);
    assert forall t :: t in mine <==> t in ElementSymbols(poscarFormula);
    assert forall t :: t in theirs <==> t in ElementSymbols(mpFormula);
    assert mine == theirs <==> forall t :: t in mine <==> t in theirs;
    mine == theirs
  }

  /** Swapping two closed element blocks does not change the comparison: "SiO2" and "O2Si" match. */
  lemma BlockOrderIgnored(a: string, b: string, other: string)
    requires ClosedBlock(a) && ClosedBlock(b)
    ensures CompareFormulas(a + b, other) == CompareFormulas(b + a, other)
  {
    SymbolsOfConcat(a, b);
    SymbolsOfConcat(b, a);
    assert forall t :: t in ElementSymbols(a + b) <==> t in ElementSymbols(b + a);
  }

  // ---------------------------------------------------------------- Materials Project answers

  /** `_fallback_search`: a usable answer to the formula search is a 0.6 match; anything else is no match. */
  function FallbackSearch(formula: string, search: Value -> Result<Value, string>): (r: Value)
    ensures search(Str(formula)).Ok? && Usable(search(Str(formula)).value) ==>
              && Get(r, "status") == Some(Str("success"))
              && Get(r, "match_score") == Some(Num(0.6))
              && Get(r, "material_id") == Some(GetOr(search(Str(formula)).value, "material_id", Str("unknown")))
    ensures !(search(Str(formula)).Ok? && Usable(search(Str(formula)).value)) ==>
              Get(r, "status") == Some(Str("no_match")) && !HasKey(r, "match_score")
  {
    var found := search(Str(formula));
    if found.Ok? && Usable(found.value) then
      Dict(map["status" := Str("success"), "material_id" := GetOr(found.value, "material_id", Str("unknown")),
               "match_score" := Num(0.6), "mp_data" := found.value, "reasoning" := Str("Fallback formula search")])
    else
      Dict(map["status" := Str("no_match"), "message" := Str("No structure match found for " + formula),
               "reasoning" := Str("Search failed")])
  }

  // ---------------------------------------------------------------- the model's answer

  const DefaultMatchId: string := "mp-149"

  /**
   * `_parse_match_result`: the decoded JSON span; else the first `mp-<digits>`
   * with confidence 0.7; else mp-149 with confidence 0.5.
   */
  function ParseMatchResult(response: string, decode: string -> Option<Value>): (r: Value)
    ensures Replies.ReadReply(response, decode).Parsed? ==> r == Replies.ReadReply(response, decode).value
    ensures !Replies.ReadReply(response, decode).Parsed? && SearchMpId(response, "").Some? ==>
              Get(r, "material_id") == Some(Str(SearchMpId(response, "").value)) && Get(r, "confidence") == Some(Num(0.7))
    ensures !Replies.ReadReply(response, decode).Parsed? && SearchMpId(response, "").None? ==>
              Get(r, "material_id") == Some(Str(DefaultMatchId)) && Get(r, "confidence") == Some(Num(0.5))
  {
    match Replies.ReadReply(response, decode)
    case Parsed(v) => v
    case _ =>
      match SearchMpId(response, "")
      case Some(id) =>
        Dict(map["material_id" := Str(id), "confidence" := Num(0.7), "reasoning" := Str("Pattern match from response")])
      case None =>
        Dict(map["material_id" := Str(DefaultMatchId), "confidence" := Num(0.5), "reasoning" := Str("Default fallback")])
  }

  /** The formula match of a usable answer: a `formula` that is not a string makes the comparison fail. */
  function FormulaMatches(formula: string, mpData: Value): bool
  {
    match GetOr(mpData, "formula", Str(""))
    case Str(f) => CompareFormulas(formula, f)
    case _ => false
  }

  /**
   * `_validate_with_mp`: None when the match data is not a dict (the lookup
   * of its id raises past the handler). A usable answer scales the
   * confidence by 0.9 for a matching formula and 0.6 otherwise; a missing
   * answer or a confidence that is not a number falls back to the formula
   * search.
   */
  function ValidateWithMp(matchData: Value, formula: string, search: Value -> Result<Value, string>): (r: Option<Value>)
    ensures !matchData.Dict? ==> r.None?
    ensures matchData.Dict? ==> r.Some?
    ensures matchData.Dict? ==>
      var id := GetOr(matchData, "material_id", Str(DefaultMatchId));
      var c := NumberOr(matchData, "confidence", 0.7);
      && (search(id).Ok? && Usable(search(id).value) && c.Some? ==>
            && Get(r.value, "material_id") == Some(id)
            && Get(r.value, "match_score") == Some(Num(c.value * (if FormulaMatches(formula, search(id).value) then 0.9 else 0.6)))
            && Get(r.value, "formula_match") == Some(Bool(FormulaMatches(formula, search(id).value))))
      && (!(search(id).Ok? && Usable(search(id).value) && c.Some?) ==> r.value == FallbackSearch(formula, search))
  {
    if !matchData.Dict? then None
    else
      var id := GetOr(matchData, "material_id", Str(DefaultMatchId));
      var found := search(id);
      var c := NumberOr(matchData, "confidence", 0.7);
      if found.Ok? && Usable(found.value) && c.Some? then
        var same := FormulaMatches(formula, found.value);
        Some(Dict(map["status" := Str("success"), "material_id" := id,
                      "match_score" := Num(c.value * (if same then 0.9 else 0.6)),
                      "mp_data" := found.value, "formula_match" := Bool(same),
                      "reasoning" := GetOr(matchData, "reasoning", Str("Strands analysis"))]))
      else Some(FallbackSearch(formula, search))
  }

  /** An error record: `{"status": "error", "message": str(e)}`. */
  function ErrorRecord(raised: string): (r: Value)
    ensures Get(r, "status") == Some(Str("error")) && Truthy(r)
  {
    Dict(map["status" := Str("error"), "message" := Str(raised)])
  }

  /** `_strands_analysis_match`: `response` is None when the model call raised. */
  function AnalysisMatch(response: Option<string>, formula: string, decode: string -> Option<Value>,
                         search: Value -> Result<Value, string>, raised: string): (r: Value)
    ensures response.None? ==> r == ErrorRecord(raised)
    ensures response.Some? && ValidateWithMp(ParseMatchResult(response.value, decode), formula, search).Some? ==>
              r == ValidateWithMp(ParseMatchResult(response.value, decode), formula, search).value
    ensures Truthy(r)
  {
    if response.None? then ErrorRecord(raised)
    else
      match ValidateWithMp(ParseMatchResult(response.value, decode), formula, search)
      case Some(v) => v
      case None => ErrorRecord(raised)
  }

  /** A fully confident answer whose formula does not match scores only 0.6. */
  lemma MismatchCapsScore(matchData: Value, formula: string, search: Value -> Result<Value, string>)
    requires matchData.Dict?
    requires var id := GetOr(matchData, "material_id", Str(DefaultMatchId));
             search(id).Ok? && Usable(search(id).value) && !FormulaMatches(formula, search(id).value)
    requires NumberOr(matchData, "confidence", 0.7) == Some(1.0)
    ensures NumberOr(ValidateWithMp(matchData, formula, search).value, "match_score", 0.0) == Some(0.6)
  {
  }

  // ---------------------------------------------------------------- combination and quality

  /**
   * `match_poscar_to_mp` given the pymatgen result (Null for None) and the
   * analysis of the model's answer: a pymatgen score above 0.8 is returned
   * as it is; two results are averaged, with pymatgen's id and data
   * preferred; otherwise the analysis, then pymatgen, then the fallback.
   * A score that is not a number raises, giving an error record.
   */
  function MatchPoscarToMp(pymatgen: Value, analysis: Value, fallback: Value, raised: string): (r: Value)
    ensures Truthy(pymatgen) && NumberOr(pymatgen, "match_score", 0.0).Some? && NumberOr(pymatgen, "match_score", 0.0).value > 0.8 ==>
              r == pymatgen
    ensures Truthy(pymatgen) && NumberOr(pymatgen, "match_score", 0.0).Some? && NumberOr(pymatgen, "match_score", 0.0).value <= 0.8
            && Truthy(analysis) && NumberOr(analysis, "match_score", 0.0).Some? ==>
              && Get(r, "match_score") == Some(Num((NumberOr(pymatgen, "match_score", 0.0).value + NumberOr(analysis, "match_score", 0.0).value) / 2.0))
              && Get(r, "material_id") == Some(GetOr(pymatgen, "material_id", GetOr(analysis, "material_id", Null)))
              && Get(r, "mp_data") == Some(GetOr(pymatgen, "mp_data", GetOr(analysis, "mp_data", Null)))
    ensures !Truthy(pymatgen) ==> r == (if Truthy(analysis) then analysis else fallback)
  {
    if !Truthy(pymatgen) then (if Truthy(analysis) then analysis else fallback)
    else
      var p := NumberOr(pymatgen, "match_score", 0.0);
      if p.None? then ErrorRecord(raised)
      else if p.value > 0.8 then pymatgen
      else if !Truthy(analysis) then pymatgen
      else
        var a := NumberOr(analysis, "match_score", 0.0);
        if a.None? then ErrorRecord(raised)
        else
          Dict(map["status" := Str("success"),
                   "material_id" := GetOr(pymatgen, "material_id", GetOr(analysis, "material_id", Null)),
                   "match_score" := Num((p.value + a.value) / 2.0),
                   "mp_data" := GetOr(pymatgen, "mp_data", GetOr(analysis, "mp_data", Null)),
                   "rms_distance" := GetOr(pymatgen, "rms_distance", Null),
                   "reasoning" := Str("Combined pymatgen + Strands analysis")])
  }

  /** A combined score lies between its two parts. */
  lemma CombinedScoreBetween(pymatgen: Value, analysis: Value, fallback: Value, raised: string)
    requires Truthy(pymatgen) && Truthy(analysis)
    requires NumberOr(pymatgen, "match_score", 0.0).Some? && NumberOr(pymatgen, "match_score", 0.0).value <= 0.8
    requires NumberOr(analysis, "match_score", 0.0).Some?
    ensures var p := NumberOr(pymatgen, "match_score", 0.0).value;
            var a := NumberOr(analysis, "match_score", 0.0).value;
            var c := NumberOr(MatchPoscarToMp(pymatgen, analysis, fallback, raised), "match_score", 0.0).value;
            (p <= c <= a) || (a <= c <= p)
  {
  }

  /**
   * `validate_structure_match`: a score above 0.9, or above 0.7 with a
   * truthy RMS distance below 0.2. A value that cannot be compared fails.
   */
  function ValidateStructureMatch(matchResult: Value): (ok: bool)
    ensures ok ==> NumberOr(matchResult, "match_score", 0.0).Some?
    ensures ok <==>
      var s := NumberOr(matchResult, "match_score", 0.0);
      var rms := GetOr(matchResult, "rms_distance", Null);
      s.Some? && (s.value > 0.9 || (s.value > 0.7 && Truthy(rms) && Numeric(rms).Some? && Numeric(rms).value < 0.2))
  {
    var s := NumberOr(matchResult, "match_score", 0.0);
    var rms := GetOr(matchResult, "rms_distance", Null);
    if s.None? then false
    else if s.value > 0.9 then true
    else s.value > 0.7 && Truthy(rms) && Numeric(rms).Some? && Numeric(rms).value < 0.2
  }

  /** An RMS distance of exactly 0 is falsy, so it does not help a score of at most 0.9. */
  lemma ZeroRmsDoesNotHelp(matchResult: Value)
    requires matchResult.Dict? && "rms_distance" in matchResult.fields && matchResult.fields["rms_distance"] == Num(0.0)
    requires NumberOr(matchResult, "match_score", 0.0).Some? && NumberOr(matchResult, "match_score", 0.0).value <= 0.9
    ensures !ValidateStructureMatch(matchResult)
  {
  }

  /** A match found only by the formula-search fallback never passes the quality gate. */
  lemma FallbackNeverValidates(formula: string, search: Value -> Result<Value, string>)
    ensures !ValidateStructureMatch(FallbackSearch(formula, search))
  {
  }

  /** A model answer with confidence at most 1 passes the gate only when its formula matches. */
  lemma MismatchNeverValidates(matchData: Value, formula: string, search: Value -> Result<Value, string>)
    requires matchData.Dict?
    requires var id := GetOr(matchData, "material_id", Str(DefaultMatchId));
             search(id).Ok? && Usable(search(id).value) && !FormulaMatches(formula, search(id).value)
    requires var c := NumberOr(matchData, "confidence", 0.7); c.Some? && c.value <= 1.0
    ensures !ValidateStructureMatch(ValidateWithMp(matchData, formula, search).value)
  {
  }
}
