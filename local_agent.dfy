/**
 * The agent half of the local client file: `search_materials`,
 * `EnhancedMCPAgent.search`, `select_material_by_id` and the generated
 * fallback record. The wire and the server are behind `call_tool`, whose
 * content arrives as a parameter; `get_material_by_id` is an oracle.
 * The formula path of the search is the one the AWS agent shares.
 */
module LocalAgent {
  import opened Wrappers
  import opened Values
  import opened Text
  import opened Scan
  import MaterialSelector
  import AwsClient
  import Structures

  /**
   * `search_materials`: nothing without a server process; otherwise the
   * texts of the reply, emptied by any server-side error.
   */
  method SearchMaterials(running: bool, content: Option<Value>, show: Value -> string) returns (materials: seq<string>)
    ensures !running ==> materials == []
    ensures running ==> materials == AwsClient.MaterialTexts(content, show)
  {
    if !running || content.None? || !content.value.List? {
      return [];
    }
    materials := AwsClient.CollectTexts(content.value.items, show);
  }

  /** The id an id query names: `mp-<digits>` found anywhere in the lower-cased query. */
  function QueryId(query: string): (r: Option<string>)
    ensures r.Some? ==> StartsWith(r.value, "mp-") && IsDigitString(r.value[3..])
  {
    SearchMpId(Lower(query), "")
  }

  /** `get_material_by_id(id)` read as the stable-phase lookup sees it: a missing record is falsy. */
  function AsLookup(getMaterial: (string, Option<seq<string>>) -> Result<Option<Value>, string>): string -> Result<Value, string>
  {
    id => match getMaterial(id, None)
          case Err(e) => Err(e)
          case Ok(None) => Ok(Null)
          case Ok(Some(v)) => Ok(v)
  }

  /**
   * `EnhancedMCPAgent.search`: an id anywhere in the query is looked up;
   * otherwise a known stable phase wins; otherwise the formula search.
   */
  function AgentSearch(query: string, searchResults: seq<string>,
                  getMaterial: (string, Option<seq<string>>) -> Result<Option<Value>, string>): (r: AwsClient.SearchReply<Value>)
    ensures QueryId(query).Some? ==> r == AwsClient.IdSearch(QueryId(query).value, getMaterial)
    ensures QueryId(query).None? && MaterialSelector.KnownStablePhase(query, AsLookup(getMaterial)).Some? ==>
              r == AwsClient.Found(MaterialSelector.KnownStablePhase(query, AsLookup(getMaterial)).value, None)
    ensures QueryId(query).None? && MaterialSelector.KnownStablePhase(query, AsLookup(getMaterial)).None? ==>
              r == AwsClient.FormulaSearch(query, searchResults, getMaterial)
  {
    match QueryId(query)
    case Some(id) => AwsClient.IdSearch(id, getMaterial)
    case None =>
      match MaterialSelector.KnownStablePhase(query, AsLookup(getMaterial))
      case Some(stable) => AwsClient.Found(stable, None)
      case None => AwsClient.FormulaSearch(query, searchResults, getMaterial)
  }

  /** A known stable phase is answered from its table id, whatever the formula search would have found. */
  lemma StablePhaseWins(query: string, r1: seq<string>, r2: seq<string>,
                        getMaterial: (string, Option<seq<string>>) -> Result<Option<Value>, string>)
    requires QueryId(query).None? && query in MaterialSelector.StablePhases
    requires getMaterial(MaterialSelector.StablePhases[query], None).Ok?
    requires var found := getMaterial(MaterialSelector.StablePhases[query], None).value;
             found.Some? && Truthy(found.value)
    ensures AgentSearch(query, r1, getMaterial) == AgentSearch(query, r2, getMaterial)
    ensures AgentSearch(query, r1, getMaterial) == AwsClient.Found(getMaterial(MaterialSelector.StablePhases[query], None).value.value, None)
  {
  }

  /** A formula that is not in the stable-phase table goes to the formula search. */
  lemma UnknownFormulaSearches(query: string, searchResults: seq<string>,
                               getMaterial: (string, Option<seq<string>>) -> Result<Option<Value>, string>)
    requires QueryId(query).None? && query !in MaterialSelector.StablePhases
    ensures AgentSearch(query, searchResults, getMaterial) == AwsClient.FormulaSearch(query, searchResults, getMaterial)
  {
  }

  // ---------------------------------------------------------------- fallback records

  const BandGaps: seq<real> := [0.0, 0.5, 1.17, 1.781, 2.3, 3.2, 4.1, 5.5]
  const CrystalSystems: seq<string> := ["cubic", "tetragonal", "hexagonal", "orthorhombic", "monoclinic"]
  const Elements: seq<string> := ["Si", "Ti", "Al", "Fe", "Cu", "Zn", "Ga", "Ge", "As", "Se"]
  const Oxides: seq<string> := ["O", "O2", "O3"]
  const CommonFormulas: map<string, string> := map[
    "mp-48" := "C", "mp-149" := "Si", "mp-2657" := "TiO2", "mp-1" := "Cs", "mp-2" := "K",
    "mp-13" := "Al", "mp-23" := "Fe", "mp-30" := "Cu", "mp-72" := "Li", "mp-81" := "Na"]
  const FallbackSource: string := "Enhanced MCP Server (universal fallback)"

  datatype Fallback = Fallback(
    materialId: string,
    formula: string,
    bandGap: real,
    formationEnergy: real,
    crystalSystem: string,
    structureUri: string,
    source: string,
    geometry: string,
    description: string,
    error: Option<string>)

  /**
   * The seed of the generated values: the digits after the first `mp-`,
   * else Python's `hash(material_id) % 10000`, with `hash` given.
   */
  function Seed(materialId: string, hash: int): (seed: nat)
    ensures Search(materialId, "mp-", IsDigit).Some? ==> seed == DigitsValue(Search(materialId, "mp-", IsDigit).value)
    ensures Search(materialId, "mp-", IsDigit).None? ==> seed == hash % 10000 && seed < 10000
  {
    match Search(materialId, "mp-", IsDigit)
    case Some(digits) => DigitsValue(digits)
    case None => hash % 10000
  }

  /** The formula: the fixed table wins; otherwise an element, or an oxide of it when the seed is not a multiple of 3. */
  function FallbackFormula(materialId: string, seed: nat): (f: string)
    ensures materialId in CommonFormulas ==> f == CommonFormulas[materialId]
    ensures materialId !in CommonFormulas && seed % 3 == 0 ==> f == Elements[seed % |Elements|]
    ensures materialId !in CommonFormulas && seed % 3 != 0 ==>
              f == Elements[seed % |Elements|] + Oxides[seed % |Oxides|]
  {
    if materialId in CommonFormulas then CommonFormulas[materialId]
    else if seed % 3 == 0 then Elements[seed % |Elements|]
    else Elements[seed % |Elements|] + Oxides[seed % |Oxides|]
  }

  /** The two-atom geometry: the first two characters of the formula, placed by crystal system. */
  function FallbackGeometry(formula: string, crystalSystem: string): (g: string)
    ensures StartsWith(g, Structures.PyPrefix(formula, 2) + " 0.0 0.0 0.0; ")
  {
    var symbol := Structures.PyPrefix(formula, 2);
    var second :=
      if crystalSystem == "cubic" then " 1.357 1.357 1.357"
      else if crystalSystem == "hexagonal" then " 0.0 0.0 3.35"
      else " 2.1 1.8 1.5";
    var g := symbol + " 0.0 0.0 0.0; " + symbol + second;
    assert g == (symbol + " 0.0 0.0 0.0; ") + (symbol + second);
    g
  }

  /** `_get_fallback_material_data`: an error message is recorded only when it is not empty. */
  function FallbackData(materialId: string, error: Option<string>, hash: int): (d: Fallback)
    ensures var seed := Seed(materialId, hash);
      && d.materialId == materialId
      && d.bandGap == BandGaps[seed % 8] && d.bandGap in BandGaps
      && d.crystalSystem == CrystalSystems[seed % 5] && d.crystalSystem in CrystalSystems
      && -5.4 <= d.formationEnergy <= -0.5
      && d.formula == FallbackFormula(materialId, seed)
      && d.structureUri == Structures.Uri(materialId)
      && (error.Some? && error.value != "" ==> d.error == error && d.source == FallbackSource + " - API timeout")
      && (error.None? || error.value == "" ==> d.error.None? && d.source == FallbackSource)
  {
    var seed := Seed(materialId, hash);
    var formula := FallbackFormula(materialId, seed);
    var system := CrystalSystems[seed % 5];
    var energy := -0.5 - (seed % 50) as real / 10.0;
    var raised := error.Some? && error.value != "";
    Fallback(materialId, formula, BandGaps[seed % 8], energy, system, Structures.Uri(materialId),
             if raised then FallbackSource + " - API timeout" else FallbackSource,
             FallbackGeometry(formula, system),
             formula + " - " + system + " structure (fallback data)", if raised then error else None)
  }

  /** The same id gives the same record: the hash matters only for ids without `mp-<digits>`. */
  lemma FallbackIgnoresHashForMpIds(materialId: string, error: Option<string>, h1: int, h2: int)
    requires Search(materialId, "mp-", IsDigit).Some?
    ensures FallbackData(materialId, error, h1) == FallbackData(materialId, error, h2)
  {
  }

  /** The seed of `mp-<n>` is `n`. */
  lemma SeedOfMpId(digits: string, hash: int)
    requires IsDigitString(digits)
    ensures Seed("mp-" + digits, hash) == DigitsValue(digits)
  {
    var id := "mp-" + digits;
    assert MatchesAt(id, "mp-", IsDigit, 0) by {
      assert id[..3] == "mp-";
      assert id[3] == digits[0];
    }
    assert MatchPos(id, "mp-", IsDigit, 0) == Some(0);
    var rest := id[3..];
    assert rest == digits;
    assert Run(rest, IsDigit) == |digits|;
    assert rest[..|digits|] == digits;
  }

  /** What `select_material_by_id` returns. */
  datatype Selected = Structured(data: Value) | Generated(fallback: Fallback)

  /**
   * `select_material_by_id`: a dict of more than two keys is kept; anything
   * less becomes the fallback record, which also carries the message of an
   * exception when that message is not empty.
   */
  function SelectMaterialById(materialId: string, found: Result<Option<Value>, string>, hash: int): (r: Selected)
    ensures r.Structured? <==> found.Ok? && found.value.Some? && found.value.value.Dict? && |found.value.value.fields| > 2
    ensures r.Structured? ==> r.data == found.value.value
    ensures r.Generated? && found.Ok? ==> r.fallback == FallbackData(materialId, None, hash)
    ensures found.Err? ==> r == Generated(FallbackData(materialId, Some(found.error), hash))
    ensures found.Err? ==> (r.fallback.error == Some(found.error) <==> found.error != "")
    ensures r.Generated? && (found.Ok? || found.error == "") ==> r.fallback.error.None?
  {
    match found
    case Err(e) => Generated(FallbackData(materialId, Some(e), hash))
    case Ok(v) =>
      if v.Some? && v.value.Dict? && |v.value.fields| > 2 then Structured(v.value)
      else Generated(FallbackData(materialId, None, hash))
  }
}
