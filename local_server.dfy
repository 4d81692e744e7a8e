/**
 * The local structure server: a table of records keyed by structure id,
 * filled by the search, select, create, supercell and moire tools and read
 * by the fetch and plot tools. The Materials Project lookups, the structure
 * parsers, the supercell builder and the hash of a new structure are
 * oracles: their outcomes arrive as parameters.
 */
module LocalServer {
  import opened Wrappers
  import opened Text
  import opened Structures

  class Server {
    /** `structure_storage` */
    var storage: map<string, Record>

    constructor()
      ensures storage == map[]
    {
      storage := map[];
    }

    /**
     * `search_materials_by_formula`: with a key and at least one result, the
     * first ten results are stored without structure and described in order.
     */
    method SearchMaterialsByFormula(formula: string, apiKey: string, results: Result<seq<Material>, string>)
      returns (out: seq<Content>)
      modifies this
      ensures apiKey == [] ==> out == [Text(NoApiKey)] && storage == old(storage)
      ensures apiKey != [] && results.Err? ==> out == [Text("Error searching materials: " + results.error)] && storage == old(storage)
      ensures apiKey != [] && results == Ok([]) ==> out == [Text("No materials found for formula: " + formula)] && storage == old(storage)
      ensures apiKey != [] && results.Ok? && results.value != [] ==>
        var kept := PyPrefix(results.value, SearchLimit);
        && storage == StoreSearch(old(storage), kept)
        && |out| == |kept| <= SearchLimit
        && forall k :: 0 <= k < |out| ==> out[k] == Description(SearchKey(kept[k]))
    {
      if apiKey == [] {
        return [Text(NoApiKey)];
      }
      if results.Err? {
        return [Text("Error searching materials: " + results.error)];
      }
      if results.value == [] {
        return [Text("No materials found for formula: " + formula)];
      }
      var kept := PyPrefix(results.value, SearchLimit);
      out := [];
      for k := 0 to |kept|
        invariant storage == StoreSearch(old(storage), kept[..k])
        invariant |out| == k && forall i :: 0 <= i < k ==> out[i] == Description(SearchKey(kept[i]))
      {
        assert kept[..k + 1] == kept[..k] + [kept[k]];
        StoreSearchStep(old(storage), kept[..k], kept[k]);
        var id := SearchKey(kept[k]);
        storage := storage[id := Record(Some(kept[k].materialId), None)];
        out := out + [Description(id)];
      }
      assert kept[..|kept|] == kept;
    }

    /**
     * `select_material_by_id`: a structure found for the id is stored under
     * `mp_<id>`, overwriting what a search stored there.
     */
    method SelectMaterialById(materialId: string, apiKey: string, found: Result<Option<Structure>, string>, digest: string)
      returns (out: seq<Content>)
      modifies this
      ensures apiKey == [] ==> out == [Text(NoApiKey)] && storage == old(storage)
      ensures apiKey != [] && found.Err? ==> out == [Text("Error getting material: " + found.error)] && storage == old(storage)
      ensures apiKey != [] && found.Ok? && !HasStructure(Record(None, found.value)) ==>
        out == [Text("Material not found: " + materialId)] && storage == old(storage)
      ensures apiKey != [] && found.Ok? && HasStructure(Record(None, found.value)) ==>
        var id := StructureDataId(Some(materialId), digest);
        && storage == old(storage)[id := Record(Some(materialId), found.value)]
        && out == [Description(id), Text("structure uri: " + Uri(id))]
    {
      if apiKey == [] {
        return [Text(NoApiKey)];
      }
      if found.Err? {
        return [Text("Error getting material: " + found.error)];
      }
      if !HasStructure(Record(None, found.value)) {
        return [Text("Material not found: " + materialId)];
      }
      var id := StructureDataId(Some(materialId), digest);
      storage := storage[id := Record(Some(materialId), found.value)];
      out := [Description(id), Text("structure uri: " + Uri(id))];
    }

    /** `get_structure_data` */
    function GetStructureData(uri: string, format: string): (r: seq<Content>)
      reads this
      ensures r == Fetch(storage, uri, format)
    {
      Fetch(storage, uri, format)
    }

    /** The two create tools: a parsed structure is stored under its digest, with no material id. */
    method CreateStructure(parsed: Result<Structure, string>, digest: string) returns (out: seq<Content>)
      modifies this
      ensures parsed.Err? ==> out == [Text("Error creating structure: " + parsed.error)] && storage == old(storage)
      ensures parsed.Ok? ==>
        && storage == old(storage)[digest := Record(None, Some(parsed.value))]
        && out == [Text("A new structure is created with the structure uri: " + Uri(digest)), Description(digest)]
    {
      if parsed.Err? {
        return [Text("Error creating structure: " + parsed.error)];
      }
      storage := storage[digest := Record(None, Some(parsed.value))];
      out := [Text("A new structure is created with the structure uri: " + Uri(digest)), Description(digest)];
    }

    /** `plot_structure`: an empty image unless the URI names a stored structure. */
    function PlotStructure(uri: string): (r: seq<Content>)
      reads this
      ensures r == [Image(!(StructureKey(uri) in storage && HasStructure(storage[StructureKey(uri)])))]
    {
      var key := StructureKey(uri);
      if key !in storage || !HasStructure(storage[key]) then [Image(true)] else [Image(false)]
    }

    /**
     * `build_supercell`: the builder is given the requested scaling matrix or
     * diag(2,2,2), and the supercell is stored under its digest.
     */
    method BuildSupercell(uri: string, scaling: Option<seq<seq<int>>>,
                          makeSupercell: (Structure, seq<seq<int>>) -> Result<Structure, string>, digest: string)
      returns (out: seq<Content>)
      modifies this
      ensures StructureKey(uri) !in old(storage) ==> out == [Text("Bulk structure not found")] && storage == old(storage)
      ensures StructureKey(uri) in old(storage) && !HasStructure(old(storage)[StructureKey(uri)]) ==>
        out == [Text("No bulk structure data available")] && storage == old(storage)
      ensures StructureKey(uri) in old(storage) && HasStructure(old(storage)[StructureKey(uri)]) ==>
        var made := makeSupercell(old(storage)[StructureKey(uri)].structure.value, ScalingMatrix(scaling));
        && (made.Err? ==> out == [Text("Error building supercell: " + made.error)] && storage == old(storage))
        && (made.Ok? ==> storage == old(storage)[digest := Record(None, Some(made.value))]
                         && out == [Text("Supercell created with URI: " + Uri(digest)), Description(digest)])
    {
      var key := StructureKey(uri);
      if key !in storage {
        return [Text("Bulk structure not found")];
      }
      if !HasStructure(storage[key]) {
        return [Text("No bulk structure data available")];
      }
      var made := makeSupercell(storage[key].structure.value, ScalingMatrix(scaling));
      if made.Err? {
        return [Text("Error building supercell: " + made.error)];
      }
      storage := storage[digest := Record(None, Some(made.value))];
      out := [Text("Supercell created with URI: " + Uri(digest)), Description(digest)];
    }

    /**
     * `moire_homobilayer`: both layers of the bulk structure, bottom first,
     * cut to `max_num_atoms` sites, stored under the digest.
     */
    method MoireHomobilayer(uri: string, maxNumAtoms: int, digest: string) returns (out: seq<Content>)
      modifies this
      ensures StructureKey(uri) !in old(storage) ==> out == [Text("Bulk structure not found")] && storage == old(storage)
      ensures StructureKey(uri) in old(storage) && !HasStructure(old(storage)[StructureKey(uri)]) ==>
        out == [Text("No bulk structure data available")] && storage == old(storage)
      ensures StructureKey(uri) in old(storage) && HasStructure(old(storage)[StructureKey(uri)]) ==>
        && storage == old(storage)[digest := Record(None, Some(StackedBilayer(old(storage)[StructureKey(uri)].structure.value, maxNumAtoms)))]
        && out == [Text(MoireCreated + Uri(digest))]
    {
      var key := StructureKey(uri);
      if key !in storage {
        return [Text("Bulk structure not found")];
      }
      if !HasStructure(storage[key]) {
        return [Text("No bulk structure data available")];
      }
      var moire := StackedBilayer(storage[key].structure.value, maxNumAtoms);
      storage := storage[digest := Record(None, Some(moire))];
      out := [Text(MoireCreated + Uri(digest))];
    }
  }
}
