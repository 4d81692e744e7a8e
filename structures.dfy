/**
 * What the three structure servers share: structures as lists of sites,
 * the `structure://` URIs that name stored entries, Python's `xs[:k]`
 * slice, the site truncation of the moire tools, and the contents a tool
 * returns. Coordinates, lattices and formatted numbers belong to the
 * crystallography library and are not modelled: a site keeps its species
 * and the layer it came from.
 */
module Structures {
  import opened Wrappers
  import opened Text

  datatype Site = Site(species: string, layer: nat)

  datatype Structure = Structure(sites: seq<Site>)

  /** One item of a tool's reply; descriptions, files and images are named by the entry they show. */
  datatype Content =
    | Text(text: string)
    | Description(structureId: string)
    | StructureFile(structureId: string, format: string)
    | Image(empty: bool)

  const UriScheme: string := "structure://"

  /** How many search results a server stores and describes. */
  const SearchLimit: nat := 10
  const NoApiKey: string := "Error: MP_API_KEY environment variable not set"
  /** The phrase the servers put in a moire reply, which `aws_client.py` looks for (`enhanced_mcp_client.py` looks for "Moire structure created"). */
  const MoireSuccess: string := "Moire structure is created"
  const MoireCreated: string := MoireSuccess + " with the structure uri: "

  function Uri(id: string): (r: string)
    ensures StartsWith(r, UriScheme)
  {
    UriScheme + id
  }

  /** `structure_uri.replace("structure://", "")` */
  function StructureKey(uri: string): string
  {
    ReplaceAll(uri, UriScheme, "")
  }

  /** A URI made from an id gives the id back, unless the id itself spells the scheme. */
  lemma UriRoundTrip(id: string)
    requires !Contains(id, UriScheme)
    ensures StructureKey(Uri(id)) == id
  {
    var u := Uri(id);
    assert u[..|UriScheme|] == UriScheme;
    assert u[|UriScheme|..] == id;
    ReplaceAbsent(id, UriScheme, "");
  }

  /** Where Python's `xs[:k]` stops: a negative bound counts from the end. */
  function SliceStop(n: nat, k: int): (r: nat)
    ensures r <= n
    ensures k >= 0 ==> r == if k < n then k else n
    ensures k < 0 ==> r == if n + k > 0 then n + k else 0
  {
    if k >= 0 then (if k < n then k else n) else (if n + k > 0 then n + k else 0)
  }

  /** Python's `xs[:k]`. */
  function PyPrefix<T>(xs: seq<T>, k: int): (r: seq<T>)
    ensures |r| <= |xs| && r == xs[..|r|]
    ensures k >= 0 ==> |r| <= k
  {
    xs[..SliceStop(|xs|, k)]
  }

  /** Every site moved into layer `l`. */
  function Layer(sites: seq<Site>, l: nat): (r: seq<Site>)
    ensures |r| == |sites|
    ensures forall i :: 0 <= i < |r| ==> r[i] == Site(sites[i].species, l)
  {
    if sites == [] then []
    else [Site(sites[0].species, l)] + Layer(sites[1..], l)
  }

  /** `if len(sites) > max_num_atoms: sites = sites[:max_num_atoms]` */
  function Truncate(sites: seq<Site>, maxAtoms: int): (r: seq<Site>)
    ensures |r| <= |sites| && r == sites[..|r|]
    ensures maxAtoms >= 0 ==> |r| <= maxAtoms
    ensures |sites| <= maxAtoms ==> r == sites
  {
    if |sites| > maxAtoms then PyPrefix(sites, maxAtoms) else sites
  }

  /** Both layers of the simple bilayer, bottom layer first, cut to the atom limit. */
  function StackedBilayer(bulk: Structure, maxAtoms: int): (r: Structure)
    ensures maxAtoms >= 0 ==> |r.sites| <= maxAtoms
    ensures |r.sites| <= 2 * |bulk.sites|
  {
    Structure(Truncate(Layer(bulk.sites, 0) + Layer(bulk.sites, 1), maxAtoms))
  }

  /** The stacked bilayer keeps the bottom layer first: the sites kept are the first ones of layer 0, then of layer 1. */
  lemma StackedBilayerOrder(bulk: Structure, maxAtoms: int, i: nat)
    requires i < |StackedBilayer(bulk, maxAtoms).sites|
    ensures StackedBilayer(bulk, maxAtoms).sites[i]
      == if i < |bulk.sites| then Site(bulk.sites[i].species, 0) else Site(bulk.sites[i - |bulk.sites|].species, 1)
  {
    var all := Layer(bulk.sites, 0) + Layer(bulk.sites, 1);
    assert StackedBilayer(bulk, maxAtoms).sites[i] == all[i];
  }

  /** The default `scaling_matrix` of the supercell tools. */
  const DefaultScaling: seq<seq<int>> := [[2, 0, 0], [0, 2, 0], [0, 0, 2]]

  /** `supercell_parameters.get("scaling_matrix", [[2,0,0],[0,2,0],[0,0,2]])` */
  function ScalingMatrix(given: Option<seq<seq<int>>>): (m: seq<seq<int>>)
    ensures given.None? ==> m == DefaultScaling
    ensures given.Some? ==> m == given.value
  {
    if given.Some? then given.value else DefaultScaling
  }

  /** A Materials Project id as the API returns it: never empty. */
  type MaterialId = s: string | |s| > 0 witness "mp-149"

  datatype Material = Material(materialId: MaterialId)

  /** The dict stored per id: `material_id` and `structure` (the properties are not modelled). */
  datatype Record = Record(materialId: Option<string>, structure: Option<Structure>)

  /** `if not structure`: a missing structure and one without sites are both falsy. */
  predicate HasStructure(r: Record)
  {
    r.structure.Some? && |r.structure.value.sites| > 0
  }

  /**
   * The structure id rule of the local server's `generate_structure_id` and
   * of `StructureData._generate_id`: a truthy material id is prefixed with
   * `mp_`; otherwise the 8-character digest of the structure stands in.
   */
  function StructureDataId(materialId: Option<string>, digest: string): (id: string)
    ensures materialId.Some? && materialId.value != [] ==> StartsWith(id, "mp_") && id[3..] == materialId.value
    ensures materialId.None? || materialId.value == [] ==> id == digest
  {
    if materialId.Some? && materialId.value != [] then "mp_" + materialId.value else digest
  }

  /**
   * `StructureData.description` of the packaged server: a record without a
   * structure describes itself as having none.
   */
  function DataDescription(id: string, r: Record): (c: Content)
    ensures c.Description? <==> HasStructure(r)
    ensures !HasStructure(r) ==> c == Text("Structure " + id + ": No structure data")
  {
    if HasStructure(r) then Description(id) else Text("Structure " + id + ": No structure data")
  }

  /** `StructureData.poscar_str` of the packaged server: empty without a structure. */
  function PoscarText(id: string, r: Record): (c: Content)
    ensures c.StructureFile? <==> HasStructure(r)
    ensures !HasStructure(r) ==> c == Text("")
  {
    if HasStructure(r) then StructureFile(id, "poscar") else Text("")
  }

  /** Fetching a stored entry as POSCAR yields a file exactly when the entry's own POSCAR text is not empty. */
  lemma FetchAgreesWithPoscar(storage: map<string, Record>, id: string)
    requires id in storage && !Contains(id, UriScheme)
    ensures Fetch(storage, Uri(id), "poscar") == [PoscarText(id, storage[id])] || PoscarText(id, storage[id]) == Text("")
    ensures PoscarText(id, storage[id]) == Text("") <==> Fetch(storage, Uri(id), "poscar") == [Text("No structure data available")]
  {
    UriRoundTrip(id);
  }

  /** The key a search stores a material under. */
  function SearchKey(m: Material): string
  {
    StructureDataId(Some(m.materialId), "")
  }

  /** The table after the search loop has stored a structure-less record for each material, in order. */
  function StoreSearch(storage: map<string, Record>, ms: seq<Material>): (r: map<string, Record>)
    ensures forall k :: 0 <= k < |ms| ==> SearchKey(ms[k]) in r && r[SearchKey(ms[k])] == Record(Some(ms[k].materialId), None)
  {
    if ms == [] then storage
    else
      var init := ms[..|ms| - 1];
      var last := ms[|ms| - 1];
      var before := StoreSearch(storage, init);
      assert forall k :: 0 <= k < |init| ==> init[k] == ms[k];
      KeyDeterminesId(init, last);
      before[SearchKey(last) := Record(Some(last.materialId), None)]
  }

  /** The search adds no key but those of its materials, and leaves every other record as it was. */
  lemma {:induction false} StoreSearchFrame(storage: map<string, Record>, ms: seq<Material>, key: string)
    ensures key in StoreSearch(storage, ms) ==> key in storage || exists k :: 0 <= k < |ms| && key == SearchKey(ms[k])
    ensures key in storage && (forall k :: 0 <= k < |ms| ==> key != SearchKey(ms[k])) ==>
      key in StoreSearch(storage, ms) && StoreSearch(storage, ms)[key] == storage[key]
  {
    if ms != [] {
      var init := ms[..|ms| - 1];
      assert forall k :: 0 <= k < |init| ==> init[k] == ms[k];
      StoreSearchFrame(storage, init, key);
      if key in StoreSearch(storage, ms) && key !in storage && key != SearchKey(ms[|ms| - 1]) {
        var k :| 0 <= k < |init| && key == SearchKey(init[k]);
        assert key == SearchKey(ms[k]);
      }
    }
  }

  /** One more material stores one more record. */
  lemma StoreSearchStep(storage: map<string, Record>, ms: seq<Material>, m: Material)
    ensures StoreSearch(storage, ms + [m]) == StoreSearch(storage, ms)[SearchKey(m) := Record(Some(m.materialId), None)]
  {
    assert (ms + [m])[..|ms|] == ms;
  }

  /** Two materials with the same search key have the same id. */
  lemma KeyDeterminesId(ms: seq<Material>, m: Material)
    ensures forall k :: 0 <= k < |ms| && SearchKey(ms[k]) == SearchKey(m) ==> ms[k].materialId == m.materialId
  {
    forall k | 0 <= k < |ms| && SearchKey(ms[k]) == SearchKey(m)
      ensures ms[k].materialId == m.materialId
    {
      assert SearchKey(ms[k])[3..] == ms[k].materialId;
    }
  }

  /** `get_structure_data` over a given table: the key is the URI without its scheme. */
  function Fetch(storage: map<string, Record>, uri: string, format: string): (r: seq<Content>)
    ensures |r| == 1
    ensures StructureKey(uri) !in storage ==> r == [Text("Structure not found")]
    ensures StructureKey(uri) in storage && !HasStructure(storage[StructureKey(uri)]) ==> r == [Text("No structure data available")]
    ensures r[0].StructureFile? <==> StructureKey(uri) in storage && HasStructure(storage[StructureKey(uri)])
  {
    var key := StructureKey(uri);
    if key !in storage then [Text("Structure not found")]
    else if !HasStructure(storage[key]) then [Text("No structure data available")]
    else [StructureFile(key, if format == "cif" then "cif" else "poscar")]
  }

  /** A record stored by a search can be found by its URI, but holds no structure yet. */
  lemma {:induction false} SearchedHasNoData(storage: map<string, Record>, ms: seq<Material>, k: nat, format: string)
    requires k < |ms| && !Contains(SearchKey(ms[k]), UriScheme)
    ensures Fetch(StoreSearch(storage, ms), Uri(SearchKey(ms[k])), format) == [Text("No structure data available")]
  {
    UriRoundTrip(SearchKey(ms[k]));
  }

  /** A select after a search replaces the structure-less record with one that can be fetched. */
  lemma SelectAfterSearchFetches(storage: map<string, Record>, ms: seq<Material>, k: nat, s: Structure, format: string)
    requires k < |ms| && |s.sites| > 0 && !Contains(SearchKey(ms[k]), UriScheme)
    ensures var after := StoreSearch(storage, ms)[SearchKey(ms[k]) := Record(Some(ms[k].materialId), Some(s))];
      Fetch(after, Uri(SearchKey(ms[k])), format) == [StructureFile(SearchKey(ms[k]), if format == "cif" then "cif" else "poscar")]
  {
    UriRoundTrip(SearchKey(ms[k]));
  }
}
