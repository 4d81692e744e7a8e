/**
 * Choosing the right phase among Materials Project search hits: each hit's
 * text is scraped into a small record, and a priority-ordered rule system
 * picks one id (preferred space group, then preferred crystal system, then
 * lowest formation energy, then highest symmetry, then the first hit).
 */
module MaterialSelector {
  import opened Wrappers
  import opened Text
  import opened Values
  import opened Scan

  datatype Material = Material(
    materialId: string,
    spaceGroup: Option<string>,
    crystalSystem: Option<string>,
    formationEnergy: Option<real>)

  datatype Preference = Preference(spaceGroups: seq<string>, crystalSystem: string)

  /** The known stable phases of common materials in selection form. */
  const PreferredPhases: map<string, Preference> := map[
    "Si" := Preference(["Fd-3m", "227"], "Cubic"),
    "C" := Preference(["Fd-3m", "227"], "Cubic"),
    "Ge" := Preference(["Fd-3m", "227"], "Cubic"),
    "GaAs" := Preference(["F-43m", "216"], "Cubic"),
    "TiO2" := Preference(["P42/mnm", "136"], "Tetragonal"),
    "Al2O3" := Preference(["R-3c", "167"], "Trigonal")]

  const SymmetryOrder: seq<string> :=
    ["Cubic", "Tetragonal", "Hexagonal", "Trigonal", "Orthorhombic", "Monoclinic", "Triclinic"]

  /** A stripped `[^\n]+` field after `lead`. */
  function LineField(text: string, lead: string): (r: Option<string>)
    ensures r.Some? <==> Search(text, lead, NotNewline).Some?
    ensures r.Some? ==> r.value == Strip(Search(text, lead, NotNewline).value)
  {
    match Search(text, lead, NotNewline)
    case None => None
    case Some(v) => Some(Strip(v))
  }

  /**
   * `parse_material_result`: None without a `Material ID: mp-<digits>`;
   * a formation energy that `float` rejects raises inside the `try` and so
   * also gives None.
   */
  function ParseMaterialResult(text: string): (r: Option<Material>)
    ensures r.Some? ==> Some(r.value.materialId) == SearchMpId(text, "Material ID: ")
    ensures r.Some? ==> r.value.spaceGroup == LineField(text, "Space Group: ")
    ensures r.Some? ==> r.value.crystalSystem == LineField(text, "Crystal System: ")
    ensures SearchMpId(text, "Material ID: ").None? ==> r.None?
    ensures r.None? && SearchMpId(text, "Material ID: ").Some? ==>
              var fe := Search(text, "Formation Energy: ", SignedDecimalChar);
              fe.Some? && ParseDecimal(fe.value).None?
  {
    var fe := Search(text, "Formation Energy: ", SignedDecimalChar);
    var energy := if fe.Some? then ParseDecimal(fe.value) else None;
    if fe.Some? && energy.None? then None
    else match SearchMpId(text, "Material ID: ")
      case None => None
      case Some(id) => Some(Material(id, LineField(text, "Space Group: "), LineField(text, "Crystal System: "), energy))
  }

  /** The parsed hits in input order, unparsable ones dropped. */
  function ParseAll(results: seq<string>): (ms: seq<Material>)
    ensures |ms| <= |results|
    ensures forall m :: m in ms ==> exists k :: 0 <= k < |results| && ParseMaterialResult(results[k]) == Some(m)
    ensures ms == [] <==> forall k :: 0 <= k < |results| ==> ParseMaterialResult(results[k]).None?
  {
    if results == [] then []
    else
      var rest := ParseAll(results[1..]);
      assert forall k :: 1 <= k < |results| ==> results[1..][k - 1] == results[k];
      match ParseMaterialResult(results[0])
      case None => rest
      case Some(m) => [m] + rest
  }

  /** `material.get(key, "")` for the optional text fields. */
  function OrEmpty(o: Option<string>): string
  {
    if o.Some? then o.value else ""
  }

  predicate SpaceGroupMatches(m: Material, p: Preference)
  {
    ContainsAny(OrEmpty(m.spaceGroup), p.spaceGroups)
  }

  predicate SystemMatches(m: Material, system: string)
  {
    Contains(OrEmpty(m.crystalSystem), system)
  }

  /** Index of the first material whose space group contains a preferred token. */
  function FirstBySpaceGroup(ms: seq<Material>, p: Preference): (r: Option<nat>)
    ensures r.Some? ==> r.value < |ms| && SpaceGroupMatches(ms[r.value], p)
    ensures r.Some? ==> forall j :: 0 <= j < r.value ==> !SpaceGroupMatches(ms[j], p)
    ensures r.None? ==> forall j :: 0 <= j < |ms| ==> !SpaceGroupMatches(ms[j], p)
  {
    if ms == [] then None
    else if SpaceGroupMatches(ms[0], p) then Some(0)
    else match FirstBySpaceGroup(ms[1..], p)
      case None => None
      case Some(k) => Some(k + 1)
  }

  /** Index of the first material whose crystal system contains `system`. */
  function FirstBySystem(ms: seq<Material>, system: string): (r: Option<nat>)
    ensures r.Some? ==> r.value < |ms| && SystemMatches(ms[r.value], system)
    ensures r.Some? ==> forall j :: 0 <= j < r.value ==> !SystemMatches(ms[j], system)
    ensures r.None? ==> forall j :: 0 <= j < |ms| ==> !SystemMatches(ms[j], system)
  {
    if ms == [] then None
    else if SystemMatches(ms[0], system) then Some(0)
    else match FirstBySystem(ms[1..], system)
      case None => None
      case Some(k) => Some(k + 1)
  }

  /** `min(..., key=formation_energy)` over the materials that have one: the first minimal entry. */
  function MostStable(ms: seq<Material>): (r: Option<nat>)
    ensures r.Some? ==> r.value < |ms| && ms[r.value].formationEnergy.Some?
    ensures r.Some? ==> forall j :: 0 <= j < |ms| && ms[j].formationEnergy.Some? ==>
                          ms[r.value].formationEnergy.value <= ms[j].formationEnergy.value
    ensures r.Some? ==> forall j :: 0 <= j < r.value && ms[j].formationEnergy.Some? ==>
                          ms[r.value].formationEnergy.value < ms[j].formationEnergy.value
    ensures r.None? ==> forall j :: 0 <= j < |ms| ==> ms[j].formationEnergy.None?
  {
    if ms == [] then None
    else
      var rest := MostStable(ms[1..]);
      if ms[0].formationEnergy.None? then
        if rest.Some? then Some(rest.value + 1) else None
      else if rest.Some? && ms[rest.value + 1].formationEnergy.value < ms[0].formationEnergy.value then
        Some(rest.value + 1)
      else Some(0)
  }

  /** `ms[k]` is the first material of system `order[i]`, and no material has an earlier system of `order`. */
  ghost predicate FirstOfFirstSystem(ms: seq<Material>, order: seq<string>, k: nat, i: nat)
  {
    && k < |ms| && i < |order| && SystemMatches(ms[k], order[i])
    && (forall j :: 0 <= j < k ==> !SystemMatches(ms[j], order[i]))
    && (forall i', j :: 0 <= i' < i && 0 <= j < |ms| ==> !SystemMatches(ms[j], order[i']))
  }

  /** The first material of the first system in `order` that any material has. */
  function BySymmetry(ms: seq<Material>, order: seq<string>): (r: Option<nat>)
    ensures r.Some? ==> r.value < |ms| && exists i :: 0 <= i < |order| && FirstOfFirstSystem(ms, order, r.value, i)
    ensures r.None? <==> forall s, j :: s in order && 0 <= j < |ms| ==> !SystemMatches(ms[j], s)
  {
    if order == [] then None
    else match FirstBySystem(ms, order[0])
      case Some(k) =>
        assert FirstOfFirstSystem(ms, order, k, 0);
        assert order[0] in order;
        Some(k)
      case None =>
        var r := BySymmetry(ms, order[1..]);
        LaterSystemFirst(ms, order, r);
        r
  }

  /** A pick among the later systems, when the first system has no material, is a pick among all of them. */
  lemma LaterSystemFirst(ms: seq<Material>, order: seq<string>, r: Option<nat>)
    requires order != [] && FirstBySystem(ms, order[0]).None?
    requires r.Some? ==> r.value < |ms| && exists i :: 0 <= i < |order[1..]| && FirstOfFirstSystem(ms, order[1..], r.value, i)
    requires r.None? <==> forall s, j :: s in order[1..] && 0 <= j < |ms| ==> !SystemMatches(ms[j], s)
    ensures r.Some? ==> exists i :: 0 <= i < |order| && FirstOfFirstSystem(ms, order, r.value, i)
    ensures r.None? <==> forall s, j :: s in order && 0 <= j < |ms| ==> !SystemMatches(ms[j], s)
  {
    assert forall s :: s in order ==> s == order[0] || s in order[1..];
    if r.Some? {
      var i :| 0 <= i < |order[1..]| && FirstOfFirstSystem(ms, order[1..], r.value, i);
      forall i', j | 0 <= i' < i + 1 && 0 <= j < |ms| ensures !SystemMatches(ms[j], order[i']) {
        if i' > 0 { assert order[i'] == order[1..][i' - 1]; }
      }
      assert FirstOfFirstSystem(ms, order, r.value, i + 1);
      assert order[i + 1] in order;
    }
  }

  /** Priorities 1 and 2, which apply only to a formula with a known preferred phase. */
  function PreferredIndex(ms: seq<Material>, formula: string): (r: Option<nat>)
    ensures r.Some? ==> formula in PreferredPhases && r.value < |ms|
    ensures r.None? <==> formula !in PreferredPhases || NoPreferredHit(ms, PreferredPhases[formula])
  {
    if formula in PreferredPhases then
      var p := PreferredPhases[formula];
      match FirstBySpaceGroup(ms, p)
      case Some(k) => Some(k)
      case None => FirstBySystem(ms, p.crystalSystem)
    else None
  }

  /** No hit matches a preferred space-group token or the preferred crystal system. */
  predicate NoPreferredHit(ms: seq<Material>, p: Preference)
  {
    forall j :: 0 <= j < |ms| ==> !SpaceGroupMatches(ms[j], p) && !SystemMatches(ms[j], p.crystalSystem)
  }

  /** Index of the chosen material, by the four priorities and the first-result fallback. */
  function Choose(ms: seq<Material>, formula: string): (r: nat)
    requires ms != []
    ensures r < |ms|
  {
    var preferred := PreferredIndex(ms, formula);
    if preferred.Some? then preferred.value
    else if MostStable(ms).Some? then MostStable(ms).value
    else if BySymmetry(ms, SymmetryOrder).Some? then BySymmetry(ms, SymmetryOrder).value
    else 0
  }

  /** `select_best_material_match` */
  function SelectBestMatch(results: seq<string>, formula: string): (r: Option<string>)
    ensures r.None? <==> ParseAll(results) == []
    ensures r.Some? ==> r.value == ParseAll(results)[Choose(ParseAll(results), formula)].materialId
  {
    var ms := ParseAll(results);
    if ms == [] then None else Some(ms[Choose(ms, formula)].materialId)
  }

  /** The chosen id is the id of a hit that parsed, and it has the `mp-<digits>` form. */
  lemma SelectedIdComesFromInput(results: seq<string>, formula: string)
    ensures SelectBestMatch(results, formula).None? <==> forall k :: 0 <= k < |results| ==> ParseMaterialResult(results[k]).None?
    ensures SelectBestMatch(results, formula).Some? ==>
              exists k :: 0 <= k < |results| && ParseMaterialResult(results[k]).Some?
                          && ParseMaterialResult(results[k]).value.materialId == SelectBestMatch(results, formula).value
    ensures SelectBestMatch(results, formula).Some? ==> StartsWith(SelectBestMatch(results, formula).value, "mp-")
  {
    var ms := ParseAll(results);
    if ms != [] {
      var m := ms[Choose(ms, formula)];
      assert m in ms;
      var k :| 0 <= k < |results| && ParseMaterialResult(results[k]) == Some(m);
    }
  }

  /** Priority 1: for a preferred formula, the first hit with a preferred space-group token wins. */
  lemma PreferredSpaceGroupWins(ms: seq<Material>, formula: string, i: nat)
    requires formula in PreferredPhases && i < |ms|
    requires SpaceGroupMatches(ms[i], PreferredPhases[formula])
    requires forall j :: 0 <= j < i ==> !SpaceGroupMatches(ms[j], PreferredPhases[formula])
    ensures Choose(ms, formula) == i
  {
    var r := FirstBySpaceGroup(ms, PreferredPhases[formula]);
    assert r.Some? && r.value == i;
  }

  /** Priority 2: with no space-group hit, the first hit in the preferred crystal system wins. */
  lemma PreferredSystemWins(ms: seq<Material>, formula: string, i: nat)
    requires formula in PreferredPhases && i < |ms|
    requires forall j :: 0 <= j < |ms| ==> !SpaceGroupMatches(ms[j], PreferredPhases[formula])
    requires SystemMatches(ms[i], PreferredPhases[formula].crystalSystem)
    requires forall j :: 0 <= j < i ==> !SystemMatches(ms[j], PreferredPhases[formula].crystalSystem)
    ensures Choose(ms, formula) == i
  {
    var r := FirstBySystem(ms, PreferredPhases[formula].crystalSystem);
    assert r.Some? && r.value == i;
  }

  /** Priority 3: when no preferred rule fires, the first hit of least formation energy wins. */
  lemma MostStableWins(ms: seq<Material>, formula: string, i: nat)
    requires i < |ms| && ms[i].formationEnergy.Some?
    requires formula in PreferredPhases ==> NoPreferredHit(ms, PreferredPhases[formula])
    requires forall j :: 0 <= j < |ms| && ms[j].formationEnergy.Some? ==> ms[i].formationEnergy.value <= ms[j].formationEnergy.value
    requires forall j :: 0 <= j < i && ms[j].formationEnergy.Some? ==> ms[i].formationEnergy.value < ms[j].formationEnergy.value
    ensures Choose(ms, formula) == i
  {
    var r := MostStable(ms);
    assert r.Some?;
  }

  /** Priority 4: without preferred hits or energies, the first system of the symmetry order that occurs decides. */
  lemma SymmetryDecides(ms: seq<Material>, formula: string)
    requires ms != []
    requires formula in PreferredPhases ==> NoPreferredHit(ms, PreferredPhases[formula])
    requires forall j :: 0 <= j < |ms| ==> ms[j].formationEnergy.None?
    ensures var b := BySymmetry(ms, SymmetryOrder); b.Some? ==> Choose(ms, formula) == b.value
  {
    NoPreferredHitNone(ms, formula);
    NoEnergyNoneStable(ms);
    ChooseAfterPreferredAndStable(ms, formula);
  }

  /** No preferred hit (or no table entry): the preferred rule does not fire. */
  lemma NoPreferredHitNone(ms: seq<Material>, formula: string)
    requires formula in PreferredPhases ==> NoPreferredHit(ms, PreferredPhases[formula])
    ensures PreferredIndex(ms, formula).None?
  {
  }

  /** With no preferred hit and no energy, the choice is the symmetry rule's, else the first hit. */
  lemma ChooseAfterPreferredAndStable(ms: seq<Material>, formula: string)
    requires ms != [] && PreferredIndex(ms, formula).None? && MostStable(ms).None?
    ensures var b := BySymmetry(ms, SymmetryOrder);
      Choose(ms, formula) == if b.Some? then b.value else 0
  {
  }

  /** Without any formation energy there is no most stable hit. */
  lemma {:induction false} NoEnergyNoneStable(ms: seq<Material>)
    requires forall j :: 0 <= j < |ms| ==> ms[j].formationEnergy.None?
    ensures MostStable(ms).None?
  {
    if ms != [] {
      NoEnergyNoneStable(ms[1..]);
    }
  }

  /** The fallback: when no rule fires, the first parsed hit is chosen. */
  lemma FirstHitOtherwise(ms: seq<Material>, formula: string)
    requires ms != []
    requires formula in PreferredPhases ==> NoPreferredHit(ms, PreferredPhases[formula])
    requires forall j :: 0 <= j < |ms| ==> ms[j].formationEnergy.None?
    requires forall s, j :: s in SymmetryOrder && 0 <= j < |ms| ==> !SystemMatches(ms[j], s)
    ensures Choose(ms, formula) == 0
  {
    assert PreferredIndex(ms, formula).None?;
    assert MostStable(ms).None?;
  }

  /** Known stable Materials Project ids of seven common formulas. */
  const StablePhases: map<string, string> := map[
    "Si" := "mp-149", "C" := "mp-66", "Ge" := "mp-32", "GaAs" := "mp-2534",
    "TiO2" := "mp-2657", "Al2O3" := "mp-1143", "SiO2" := "mp-6930"]

  /**
   * `get_known_stable_phase`: only the seven table formulas are looked up;
   * `lookup(id)` is `mp_client.get_material_by_id(id)`, Err when it raises.
   */
  function KnownStablePhase(formula: string, lookup: string -> Result<Value, string>): (r: Option<Value>)
    ensures formula !in StablePhases ==> r.None?
    ensures formula in StablePhases ==>
              (r.Some? <==> lookup(StablePhases[formula]).Ok? && Truthy(lookup(StablePhases[formula]).value))
    ensures r.Some? ==> r.value == lookup(StablePhases[formula]).value
  {
    if formula in StablePhases then
      match lookup(StablePhases[formula])
      case Ok(v) => if Truthy(v) then Some(v) else None
      case Err(_) => None
    else None
  }
}
