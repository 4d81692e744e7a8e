/**
 * The two DFT parameter agents: a literature table for three materials, an
 * estimate of the hopping `t` and the on-site interaction `U` from the
 * Materials Project band gap and formation energy, and the physical
 * plausibility checks. Parameters travel as dicts; reading a key that holds
 * no number raises, which the checks turn into False. Rounding to two
 * decimals is not modelled.
 */
module Dft {
  import opened Wrappers
  import opened Values
  import Replies

  /** The bounds of `validate_parameters`. */
  predicate Plausible(t: real, u: real)
  {
    0.0 < t <= 10.0 && 0.0 <= u <= 5.0 && u <= 2.0 * t
  }

  /** The bounds of the Strands agent's own `_validate_parameters`: strict at the top. */
  predicate StrictlyPlausible(t: real, u: real)
  {
    0.0 < t < 10.0 && 0.0 <= u < 5.0 && u <= 2.0 * t
  }

  /** `validate_parameters` of both agents: missing keys read as 0, anything unreadable fails. */
  function ValidateParameters(params: Value): (ok: bool)
    ensures ok <==> NumberOr(params, "t_hopping", 0.0).Some? && NumberOr(params, "U_onsite", 0.0).Some?
                    && Plausible(NumberOr(params, "t_hopping", 0.0).value, NumberOr(params, "U_onsite", 0.0).value)
  {
    var t := NumberOr(params, "t_hopping", 0.0);
    var u := NumberOr(params, "U_onsite", 0.0);
    t.Some? && u.Some? && Plausible(t.value, u.value)
  }

  /** `StrandsDFTAgent._validate_parameters` */
  function StrictValidate(params: Value): (ok: bool)
    ensures ok <==> NumberOr(params, "t_hopping", 0.0).Some? && NumberOr(params, "U_onsite", 0.0).Some?
                    && StrictlyPlausible(NumberOr(params, "t_hopping", 0.0).value, NumberOr(params, "U_onsite", 0.0).value)
  {
    var t := NumberOr(params, "t_hopping", 0.0);
    var u := NumberOr(params, "U_onsite", 0.0);
    t.Some? && u.Some? && StrictlyPlausible(t.value, u.value)
  }

  /** The strict check implies the lenient one, and they part only at t = 10 or U = 5. */
  lemma StrictIsNarrower(params: Value)
    ensures StrictValidate(params) ==> ValidateParameters(params)
    ensures ValidateParameters(params) && !StrictValidate(params) ==>
              NumberOr(params, "t_hopping", 0.0) == Some(10.0) || NumberOr(params, "U_onsite", 0.0) == Some(5.0)
  {
  }

  /** A missing key reads as 0, so a dict without `t_hopping` never passes. */
  lemma MissingHoppingFails(params: Value)
    requires params.Dict? && "t_hopping" !in params.fields
    ensures !ValidateParameters(params) && !StrictValidate(params)
  {
  }

  // ---------------------------------------------------------------- literature

  datatype Literature = Literature(t: real, u: real, bandGap: real, latticeConstant: real)

  const LiteratureTable: map<string, Literature> := map[
    "mp-149" := Literature(2.8, 0.5, 0.61, 5.43),
    "mp-66" := Literature(3.2, 0.8, 5.5, 3.57),
    "mp-72" := Literature(2.4, 0.4, 0.74, 5.66)]

  /** A table entry as the dict it is, with the given `source`. */
  function LiteratureDict(l: Literature, source: string): (v: Value)
    ensures NumberOr(v, "t_hopping", 0.0) == Some(l.t) && NumberOr(v, "U_onsite", 0.0) == Some(l.u)
    ensures Get(v, "source") == Some(Str(source))
  {
    Dict(map["t_hopping" := Num(l.t), "U_onsite" := Num(l.u), "band_gap_dft" := Num(l.bandGap),
             "lattice_constant" := Num(l.latticeConstant), "source" := Str(source)])
  }

  /** Every literature entry passes both checks. */
  lemma LiteraturePlausible(id: string, source: string)
    requires id in LiteratureTable
    ensures ValidateParameters(LiteratureDict(LiteratureTable[id], source))
    ensures StrictValidate(LiteratureDict(LiteratureTable[id], source))
  {
    var l := LiteratureTable[id];
    assert StrictlyPlausible(l.t, l.u);
  }

  // ---------------------------------------------------------------- estimates

  /** The empirical correlations: `t` from the band gap, `U` from the formation energy. */
  function Estimate(bandGap: real, formationEnergy: real): (p: (real, real))
    ensures bandGap > 0.1 ==> p.0 == (if 4.5 * bandGap > 1.0 then 4.5 * bandGap else 1.0)
    ensures bandGap <= 0.1 ==> p.0 == 3.0
    ensures var a := if formationEnergy < 0.0 then -formationEnergy else formationEnergy;
            p.1 == (if 0.3 * a > 0.2 then 0.3 * a else 0.2)
  {
    var t := if bandGap > 0.1 then (if 4.5 * bandGap > 1.0 then 4.5 * bandGap else 1.0) else 3.0;
    var a := if formationEnergy < 0.0 then -formationEnergy else formationEnergy;
    (t, if 0.3 * a > 0.2 then 0.3 * a else 0.2)
  }

  /** Estimated values are bounded below: `t` at least 1 and `U` at least 0.2. */
  lemma EstimateLowerBounds(bandGap: real, formationEnergy: real)
    ensures Estimate(bandGap, formationEnergy).0 >= 1.0
    ensures Estimate(bandGap, formationEnergy).1 >= 0.2
  {
  }

  /** Moderate inputs give plausible parameters: a gap up to 2 eV and a formation energy within 6 eV/atom. */
  lemma ModerateEstimatePlausible(bandGap: real, formationEnergy: real)
    requires bandGap <= 2.0 && -6.0 <= formationEnergy <= 6.0
    ensures Plausible(Estimate(bandGap, formationEnergy).0, Estimate(bandGap, formationEnergy).1)
  {
  }

  /** `DFTParameterAgent._estimate_from_mp_data`: an unreadable input gives the default 2.0 / 1.0. */
  function EstimateFromMpData(mpData: Value): (v: Value)
    ensures var bg := NumberOr(mpData, "band_gap", 0.0);
            var fe := NumberOr(mpData, "formation_energy", 0.0);
            && (bg.Some? && fe.Some? ==>
                  NumberOr(v, "t_hopping", 0.0) == Some(Estimate(bg.value, fe.value).0)
                  && NumberOr(v, "U_onsite", 0.0) == Some(Estimate(bg.value, fe.value).1)
                  && Get(v, "source") == Some(Str("MP_estimated")))
            && (bg.None? || fe.None? ==> v == Dict(map["t_hopping" := Num(2.0), "U_onsite" := Num(1.0), "source" := Str("default_fallback")]))
  {
    var bg := NumberOr(mpData, "band_gap", 0.0);
    var fe := NumberOr(mpData, "formation_energy", 0.0);
    if bg.None? || fe.None? then Dict(map["t_hopping" := Num(2.0), "U_onsite" := Num(1.0), "source" := Str("default_fallback")])
    else
      var p := Estimate(bg.value, fe.value);
      Dict(map["t_hopping" := Num(p.0), "U_onsite" := Num(p.1), "band_gap_mp" := Num(bg.value),
               "formation_energy_mp" := Num(fe.value), "source" := Str("MP_estimated")])
  }

  /** `DFTParameterAgent.extract_dft_parameters`: a copy of the literature entry, else the estimate. */
  function ExtractDftParameters(materialId: string, mpData: Value): (v: Value)
    ensures materialId in LiteratureTable ==> v == LiteratureDict(LiteratureTable[materialId], "DFT_literature")
    ensures materialId !in LiteratureTable ==> v == EstimateFromMpData(mpData)
  {
    if materialId in LiteratureTable then LiteratureDict(LiteratureTable[materialId], "DFT_literature")
    else EstimateFromMpData(mpData)
  }

  /** A known material always gets plausible parameters. */
  lemma KnownMaterialPlausible(materialId: string, mpData: Value)
    requires materialId in LiteratureTable
    ensures ValidateParameters(ExtractDftParameters(materialId, mpData))
  {
    LiteraturePlausible(materialId, "DFT_literature");
  }

  // ---------------------------------------------------------------- the Strands agent

  /** `_parse_parameters` when no JSON is found or it does not decode. */
  const ParseFallback: Value := Dict(map["t_hopping" := Num(2.0), "U_onsite" := Num(1.0),
                                         "band_gap_dft" := Num(1.0), "source" := Str("fallback")])

  /** `StrandsDFTAgent._parse_parameters` */
  function ParseParameters(reply: string, decode: string -> Option<Value>): (v: Value)
    ensures Replies.ReadReply(reply, decode).Parsed? ==> v == Replies.ReadReply(reply, decode).value
    ensures !Replies.ReadReply(reply, decode).Parsed? ==> v == ParseFallback
  {
    match Replies.ReadReply(reply, decode)
    case Parsed(v) => v
    case _ => ParseFallback
  }

  /**
   * `StrandsDFTAgent._fallback_parameters`: the literature entry relabelled
   * "literature", else the estimate with a band gap defaulting to 1.0. None
   * where Python raises on an unreadable number.
   */
  function FallbackParameters(materialId: string, mpData: Value): (r: Option<Value>)
    ensures materialId in LiteratureTable ==> r == Some(LiteratureDict(LiteratureTable[materialId], "literature"))
    ensures materialId !in LiteratureTable ==>
              var bg := NumberOr(mpData, "band_gap", 1.0);
              var fe := NumberOr(mpData, "formation_energy", 0.0);
              && (r.Some? <==> bg.Some? && fe.Some?)
              && (r.Some? ==> NumberOr(r.value, "t_hopping", 0.0) == Some(Estimate(bg.value, fe.value).0)
                              && NumberOr(r.value, "U_onsite", 0.0) == Some(Estimate(bg.value, fe.value).1)
                              && Get(r.value, "source") == Some(Str("MP_estimated")))
  {
    if materialId in LiteratureTable then Some(LiteratureDict(LiteratureTable[materialId], "literature"))
    else
      var bg := NumberOr(mpData, "band_gap", 1.0);
      var fe := NumberOr(mpData, "formation_energy", 0.0);
      if bg.None? || fe.None? then None
      else
        var p := Estimate(bg.value, fe.value);
        Some(Dict(map["t_hopping" := Num(p.0), "U_onsite" := Num(p.1), "band_gap_dft" := Num(bg.value),
                      "band_gap_mp" := Num(bg.value), "formation_energy_mp" := Num(fe.value),
                      "lattice_constant" := GetOr(mpData, "lattice_constant", Num(5.0)),
                      "source" := Str("MP_estimated")]))
  }

  /**
   * `StrandsDFTAgent.extract_dft_parameters`: `reply` is the model's answer,
   * None when the call raised. Parameters that pass the strict check are
   * kept; everything else gets the fallback.
   */
  function StrandsExtract(materialId: string, mpData: Value, reply: Option<string>, decode: string -> Option<Value>): (r: Option<Value>)
    ensures reply.Some? && StrictValidate(ParseParameters(reply.value, decode)) ==> r == Some(ParseParameters(reply.value, decode))
    ensures reply.None? || !StrictValidate(ParseParameters(reply.value, decode)) ==> r == FallbackParameters(materialId, mpData)
  {
    if reply.Some? && StrictValidate(ParseParameters(reply.value, decode)) then Some(ParseParameters(reply.value, decode))
    else FallbackParameters(materialId, mpData)
  }

  /**
   * What the Strands agent returns is accepted by `validate_parameters`
   * whenever it came from the model or from the literature.
   */
  lemma StrandsResultPlausible(materialId: string, mpData: Value, reply: Option<string>, decode: string -> Option<Value>)
    requires (reply.Some? && StrictValidate(ParseParameters(reply.value, decode))) || materialId in LiteratureTable
    ensures StrandsExtract(materialId, mpData, reply, decode).Some?
    ensures ValidateParameters(StrandsExtract(materialId, mpData, reply, decode).value)
  {
    if reply.Some? && StrictValidate(ParseParameters(reply.value, decode)) {
      StrictIsNarrower(ParseParameters(reply.value, decode));
    } else {
      LiteraturePlausible(materialId, "literature");
    }
  }

  /** The parse fallback itself passes the strict check, so a reply without JSON is answered with t = 2, U = 1. */
  lemma NoJsonKeepsParseFallback(materialId: string, mpData: Value, reply: string, decode: string -> Option<Value>)
    requires !Replies.ReadReply(reply, decode).Parsed?
    ensures StrandsExtract(materialId, mpData, Some(reply), decode) == Some(ParseFallback)
  {
    assert StrictlyPlausible(2.0, 1.0);
  }
}
