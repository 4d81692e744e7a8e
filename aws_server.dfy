/**
 * The structure server deployed on AWS. It keeps the same `structure://`
 * table as the local server, but normalises Materials Project ids to the
 * `mp-` form, reloads a missing `mp_` entry from the Materials Project, lists
 * the available keys when a supercell's bulk structure is missing, and builds
 * moire bilayers along up to three routes, reporting which one ran.
 * Materials Project answers, external generators and hashes are oracles that
 * arrive as parameters.
 */
module AwsServer {
  import opened Wrappers
  import opened Text
  import opened Structures

  /** What a Materials Project request answered: a value, an API failure, or an exception around it. */
  datatype Lookup<T> = Found(value: T) | ApiError(message: string) | Crashed(message: string)

  /** `generate_structure_id`: every `mp-` is removed from the id and one is put back in front. */
  function GenerateStructureId(materialId: Option<string>, digest: string): (id: string)
    ensures materialId.Some? && materialId.value != [] ==> StartsWith(id, "mp-") && |id| <= 3 + |materialId.value|
    ensures materialId.None? || materialId.value == [] ==> id == digest
  {
    if materialId.Some? && materialId.value != [] then "mp-" + ReplaceAll(materialId.value, "mp-", "") else digest
  }

  /** A numeric id names the same structure id with or without its `mp-` prefix. */
  lemma GenerateStructureIdIgnoresPrefix(n: string, digest: string)
    requires IsDigitString(n)
    ensures GenerateStructureId(Some(n), digest) == "mp-" + n
    ensures GenerateStructureId(Some("mp-" + n), digest) == "mp-" + n
  {
    DigitsLack(n, 'm');
    ReplaceMissingChar(n, "mp-", "", 0);
    ReplaceLeading(n, "mp-", "");
    assert "" + n == n;
  }

  /** `select_material_by_id` puts `mp-` in front of an id that lacks it. */
  function NormalizeMaterialId(materialId: string): (m: string)
    ensures StartsWith(m, "mp-")
    ensures StartsWith(materialId, "mp-") ==> m == materialId
    ensures !StartsWith(materialId, "mp-") ==> m[3..] == materialId
  {
    if StartsWith(materialId, "mp-") then materialId else "mp-" + materialId
  }

  /** Normalising twice is normalising once, and a bare id and its prefixed form normalise alike. */
  lemma {:induction false} NormalizeIdempotent(materialId: string)
    ensures NormalizeMaterialId(NormalizeMaterialId(materialId)) == NormalizeMaterialId(materialId)
    ensures !StartsWith(materialId, "mp-") ==> NormalizeMaterialId("mp-" + materialId) == NormalizeMaterialId(materialId)
  {
    var p := "mp-" + materialId;
    assert p[..3] == "mp-";
  }

  /** The table key of a selected material: `StructureData` prefixes `mp_` to the normalised id. */
  function SelectKey(materialId: string): (key: string)
    ensures StartsWith(key, "mp_") && key[3..] == NormalizeMaterialId(materialId)
  {
    StructureDataId(Some(NormalizeMaterialId(materialId)), "")
  }

  /**
   * The Materials Project id `get_structure_data` reloads a missing `mp_`
   * entry from, as written: `structure_id.replace("mp_", "mp-")`.
   */
  function ReloadIdAsWritten(key: string): string
  {
    ReplaceAll(key, "mp_", "mp-")
  }

  /**
   * As written, the reload asks for the wrong id: the key of a selected
   * `mp-<n>` is `mp_mp-<n>`, which turns into `mp-mp-<n>`.
   */
  lemma ReloadAsWrittenMisnames(n: string)
    requires IsDigitString(n)
    ensures ReloadIdAsWritten(SelectKey(n)) == "mp-mp-" + n
    ensures ReloadIdAsWritten(SelectKey(n)) != NormalizeMaterialId(n)
  {
    BareDigitsNormalize(n);
    var key := SelectKey(n);
    assert key == key[..3] + key[3..];
    DigitsLack(n, '_');
    ReloadOfPrefixed("mp-" + n);
  }

  /** A digit string does not start with `mp-`, so normalising prefixes it. */
  lemma BareDigitsNormalize(n: string)
    requires IsDigitString(n)
    ensures NormalizeMaterialId(n) == "mp-" + n
  {
    DigitsLack(n, 'm');
    if |n| >= 3 {
      assert n[..3][0] == n[0];
    }
  }

  /** The as-written reload of `mp_<rest>`, when `rest` holds no underscore, is `mp-<rest>`. */
  lemma ReloadOfPrefixed(rest: string)
    requires '_' !in rest
    ensures ReloadIdAsWritten("mp_" + rest) == "mp-" + rest
  {
    ReplaceMissingChar(rest, "mp_", "mp-", 2);
    ReplaceLeading(rest, "mp_", "mp-");
  }

  /** The id a missing `mp_` key was evidently meant to be reloaded from: the key without its `mp_` prefix. */
  function ReloadId(key: string): (m: string)
    ensures StartsWith(key, "mp_") ==> "mp_" + m == key
  {
    if StartsWith(key, "mp_") then key[3..] else key
  }

  /** Reloading the key of a selected material asks for the very id that was selected. */
  lemma ReloadIdRoundTrip(materialId: string)
    ensures ReloadId(SelectKey(materialId)) == NormalizeMaterialId(materialId)
  {
  }

  /**
   * The table after `get_structure_data`'s reload step, for a given way
   * `idOf` of turning the key into a material id: a missing `mp_` key is
   * filled from the Materials Project when an API key is set and the lookup
   * finds a structure with sites; everything else leaves the table as it
   * was. The server as written reloads with `ReloadIdAsWritten`.
   */
  function Reload(idOf: string -> string, storage: map<string, Record>, key: string, apiKey: string,
                  lookup: string -> Lookup<Option<Structure>>): (r: map<string, Record>)
    ensures key in storage ==> r == storage
    ensures r.Keys == storage.Keys || r.Keys == storage.Keys + {key}
    ensures forall k :: k in storage ==> k in r && r[k] == storage[k]
    ensures key !in storage && key in r ==>
      && StartsWith(key, "mp_") && apiKey != []
      && lookup(idOf(key)).Found? && lookup(idOf(key)).value.Some?
      && r[key] == Record(Some(idOf(key)), lookup(idOf(key)).value)
  {
    if key in storage || !StartsWith(key, "mp_") || apiKey == [] then storage
    else
      match lookup(idOf(key))
      case Found(Some(s)) =>
        if |s.sites| > 0 then storage[key := Record(Some(idOf(key)), Some(s))] else storage
      case _ => storage
  }

  /**
   * As written, a restart loses a selected material: the emptied table is
   * refilled from `mp-mp-<n>`, which the Materials Project does not know, so
   * the URI handed out by the selection finds nothing.
   */
  lemma RestartedServerLosesSelection(n: string, apiKey: string, lookup: string -> Lookup<Option<Structure>>, format: string)
    requires IsDigitString(n) && !Contains(SelectKey(n), UriScheme)
    requires !lookup("mp-mp-" + n).Found? || lookup("mp-mp-" + n).value.None?
    ensures var key := SelectKey(n);
      Fetch(Reload(ReloadIdAsWritten, map[], key, apiKey, lookup), Uri(key), format) == [Text("Structure not found")]
  {
    var key := SelectKey(n);
    UriRoundTrip(key);
    ReloadAsWrittenMisnames(n);
  }

  /**
   * With the evidently intended id, the URI of a selected material still
   * yields its structure file after a restart has emptied the table,
   * provided the Materials Project finds it again.
   */
  lemma RestartedServerReloads(materialId: string, apiKey: string, lookup: string -> Lookup<Option<Structure>>, format: string)
    requires apiKey != [] && !Contains(SelectKey(materialId), UriScheme)
    requires lookup(NormalizeMaterialId(materialId)).Found? && lookup(NormalizeMaterialId(materialId)).value.Some?
    requires |lookup(NormalizeMaterialId(materialId)).value.value.sites| > 0
    ensures var key := SelectKey(materialId);
      Fetch(Reload(ReloadId, map[], key, apiKey, lookup), Uri(key), format)
        == [StructureFile(key, if format == "cif" then "cif" else "poscar")]
  {
    var key := SelectKey(materialId);
    UriRoundTrip(key);
    ReloadIdRoundTrip(materialId);
  }

  /** A key that is not an `mp_` key is never reloaded. */
  lemma {:induction false} ForeignKeyNotFound(storage: map<string, Record>, uri: string, apiKey: string,
                                             lookup: string -> Lookup<Option<Structure>>, format: string)
    requires StructureKey(uri) !in storage && !StartsWith(StructureKey(uri), "mp_")
    ensures Fetch(Reload(ReloadIdAsWritten, storage, StructureKey(uri), apiKey, lookup), uri, format) == [Text("Structure not found")]
  {
  }

  /** At most `max // 2` sites of each layer: bottom-layer sites first, then the same number from the top layer. */
  function UltraFastSites(sites: seq<Site>, maxAtoms: int): (r: seq<Site>)
    ensures var k := SliceStop(|sites|, maxAtoms / 2);
      && |r| == 2 * k
      && (forall i :: 0 <= i < k ==> r[i] == Site(sites[i].species, 0))
      && (forall i :: 0 <= i < k ==> r[k + i] == Site(sites[i].species, 1))
    ensures maxAtoms >= 0 ==> |r| <= maxAtoms
  {
    PyPrefix(Layer(sites, 0), maxAtoms / 2) + PyPrefix(Layer(sites, 1), maxAtoms / 2)
  }

  /** How `generate_enhanced_moire_bilayer` ran: the ultra-fast stacking, its basic fallback, or a failure of both. */
  datatype BuiltInRun = UltraFast | BasicFallback(error: string, trace: string) | Raised(message: string)

  const UltraFastMode: string := "ULTRA-FAST MODE"
  const FallbackMode: string := "BASIC FALLBACK MODE"
  const UnknownMode: string := "UNKNOWN"

  /** The structure the built-in generator returns. */
  function BuiltInMoire(bulk: Structure, maxAtoms: int, run: BuiltInRun): (s: Structure)
    requires !run.Raised?
    ensures run.UltraFast? ==> s.sites == UltraFastSites(bulk.sites, maxAtoms)
    ensures run.BasicFallback? ==> s == StackedBilayer(bulk, maxAtoms)
    ensures maxAtoms >= 0 ==> |s.sites| <= maxAtoms
  {
    if run.UltraFast? then Structure(UltraFastSites(bulk.sites, maxAtoms)) else StackedBilayer(bulk, maxAtoms)
  }

  /**
   * The diagnostic lines of the built-in generator: two ultra-fast lines are
   * written before the attempt, then either the ultra-fast completion line or
   * three fallback lines. The twist angle in the second line is not modelled.
   */
  function Diagnostics(bulkAtoms: nat, finalAtoms: nat, run: BuiltInRun): (lines: seq<string>)
    requires !run.Raised?
    ensures run.UltraFast? ==> |lines| == 3
    ensures run.BasicFallback? ==> |lines| == 5
    ensures forall i :: 0 <= i < |lines| ==> StartsWith(lines[i], UltraFastMode) || StartsWith(lines[i], FallbackMode)
  {
    var opening := [UltraFastMode + ": Minimal moire generation", UltraFastMode + ": " + NatToString(bulkAtoms) + " atoms"];
    var completed := ": Completed - " + NatToString(finalAtoms) + " atoms";
    if run.UltraFast? then opening + [UltraFastMode + completed]
    else opening + [FallbackMode + ": Enhanced generation failed: " + run.error,
                    FallbackMode + ": Full error trace: " + run.trace,
                    FallbackMode + completed]
  }

  /** The method type as written: the ultra-fast marker is looked for first in the joined diagnostics. */
  function MethodTypeAsWritten(diagnostics: string): (t: string)
    ensures t in {UltraFastMode, FallbackMode, UnknownMode}
    ensures Contains(diagnostics, UltraFastMode) ==> t == UltraFastMode
  {
    if Contains(diagnostics, UltraFastMode) then UltraFastMode
    else if Contains(diagnostics, FallbackMode) then FallbackMode
    else UnknownMode
  }

  /**
   * As written, the method type is ultra-fast whichever route ran, because
   * the fallback keeps the two ultra-fast lines written before it.
   */
  lemma MethodTypeAsWrittenAlwaysUltraFast(bulkAtoms: nat, finalAtoms: nat, run: BuiltInRun)
    requires !run.Raised?
    ensures MethodTypeAsWritten(Join(Diagnostics(bulkAtoms, finalAtoms, run), "\n")) == UltraFastMode
  {
    var lines := Diagnostics(bulkAtoms, finalAtoms, run);
    var first := lines[0];
    assert Join(lines, "\n") == first + "\n" + Join(lines[1..], "\n");
    var joined := Join(lines, "\n");
    assert StartsWith(first, UltraFastMode);
    assert joined[..|UltraFastMode|] == first[..|UltraFastMode|];
    assert StartsWith(joined, UltraFastMode);
  }

  predicate SomeLineStarts(lines: seq<string>, marker: string)
  {
    exists i :: 0 <= i < |lines| && StartsWith(lines[i], marker)
  }

  /** The method type the diagnostics evidently mean to report: a fallback line wins over the ultra-fast lines. */
  function MethodType(lines: seq<string>): (t: string)
    ensures t == FallbackMode <==> SomeLineStarts(lines, FallbackMode)
    ensures t == UltraFastMode <==> !SomeLineStarts(lines, FallbackMode) && SomeLineStarts(lines, UltraFastMode)
  {
    if SomeLineStarts(lines, FallbackMode) then FallbackMode
    else if SomeLineStarts(lines, UltraFastMode) then UltraFastMode
    else UnknownMode
  }

  /** The corrected method type names the route that actually ran. */
  lemma MethodTypeNamesRoute(bulkAtoms: nat, finalAtoms: nat, run: BuiltInRun)
    requires !run.Raised?
    ensures MethodType(Diagnostics(bulkAtoms, finalAtoms, run)) == if run.UltraFast? then UltraFastMode else FallbackMode
  {
    var lines := Diagnostics(bulkAtoms, finalAtoms, run);
    if run.UltraFast? {
      forall i | 0 <= i < |lines| ensures !StartsWith(lines[i], FallbackMode) {
        assert StartsWith(lines[i], UltraFastMode);
        assert lines[i][0] == UltraFastMode[0];
      }
      assert StartsWith(lines[0], UltraFastMode);
    } else {
      assert StartsWith(lines[4], FallbackMode);
    }
  }

  class Server {
    /** `structure_storage` */
    var storage: map<string, Record>

    constructor()
      ensures storage == map[]
    {
      storage := map[];
    }

    /**
     * `search_materials_by_formula`: the first ten results are stored without
     * structure; a failure of the legacy query is reported as an API error.
     */
    method SearchMaterialsByFormula(formula: string, apiKey: string, results: Lookup<seq<Material>>)
      returns (out: seq<Content>)
      modifies this
      ensures apiKey == [] ==> out == [Text(NoApiKey)] && storage == old(storage)
      ensures apiKey != [] && results.ApiError? ==> out == [Text("API Error: " + results.message)] && storage == old(storage)
      ensures apiKey != [] && results.Crashed? ==> out == [Text("Error searching materials: " + results.message)] && storage == old(storage)
      ensures apiKey != [] && results == Found([]) ==> out == [Text("No materials found for formula: " + formula)] && storage == old(storage)
      ensures apiKey != [] && results.Found? && results.value != [] ==>
        var kept := PyPrefix(results.value, SearchLimit);
        && storage == StoreSearch(old(storage), kept)
        && |out| == |kept| <= SearchLimit
        && forall k :: 0 <= k < |out| ==> out[k] == Description(SearchKey(kept[k]))
    {
      if apiKey == [] {
        return [Text(NoApiKey)];
      }
      if results.ApiError? {
        return [Text("API Error: " + results.message)];
      }
      if results.Crashed? {
        return [Text("Error searching materials: " + results.message)];
      }
      if results.value == [] {
        return [Text("No materials found for formula: " + formula)];
      }
      var kept := PyPrefix(results.value, SearchLimit);
      out := [];
      for k := 0 to |kept|
        invariant storage == StoreSearch(old(storage), kept[..k])
        invariant |out| == k && forall i :: 0 <= i < k ==> out[i] == Description(SearchKey(kept[i]))
      {
        assert kept[..k + 1] == kept[..k] + [kept[k]];
        StoreSearchStep(old(storage), kept[..k], kept[k]);
        var id := SearchKey(kept[k]);
        storage := storage[id := Record(Some(kept[k].materialId), None)];
        out := out + [Description(id)];
      }
      assert kept[..|kept|] == kept;
    }

    /**
     * `select_material_by_id`: the normalised id's structure is stored under
     * `mp_<id>`. The description is titled with `generate_structure_id`.
     */
    method SelectMaterialById(materialId: string, apiKey: string, found: Lookup<Option<Structure>>)
      returns (out: seq<Content>)
      modifies this
      ensures var m := NormalizeMaterialId(materialId);
        && (apiKey == [] ==> out == [Text(NoApiKey)] && storage == old(storage))
        && (apiKey != [] && found.ApiError? ==>
              out == [Text("Error getting structure for " + m + ": " + found.message)] && storage == old(storage))
        && (apiKey != [] && found.Crashed? ==> out == [Text("Error getting material: " + found.message)] && storage == old(storage))
        && (apiKey != [] && found.Found? && !HasStructure(Record(None, found.value)) ==>
              out == [Text("Material not found: " + m)] && storage == old(storage))
        && (apiKey != [] && found.Found? && HasStructure(Record(None, found.value)) ==>
              && storage == old(storage)[SelectKey(materialId) := Record(Some(m), found.value)]
              && out == [Description(GenerateStructureId(Some(m), "")), Text("structure uri: " + Uri(SelectKey(materialId)))])
    {
      var m := NormalizeMaterialId(materialId);
      if apiKey == [] {
        return [Text(NoApiKey)];
      }
      match found
      case ApiError(e) => return [Text("Error getting structure for " + m + ": " + e)];
      case Crashed(e) => return [Text("Error getting material: " + e)];
      case Found(s) =>
        if !HasStructure(Record(None, s)) {
          return [Text("Material not found: " + m)];
        }
        var key := StructureDataId(Some(m), "");
        storage := storage[key := Record(Some(m), s)];
        out := [Description(GenerateStructureId(Some(m), "")), Text("structure uri: " + Uri(key))];
    }

    /**
     * `get_structure_data`: a missing `mp_` entry is first reloaded from the
     * Materials Project, then the entry is fetched as on the local server.
     */
    method GetStructureData(uri: string, format: string, apiKey: string,
                            lookup: string -> Lookup<Option<Structure>>) returns (out: seq<Content>)
      modifies this
      ensures storage == Reload(ReloadIdAsWritten, old(storage), StructureKey(uri), apiKey, lookup)
      ensures out == Fetch(storage, uri, format)
    {
      var key := StructureKey(uri);
      if key !in storage && StartsWith(key, "mp_") && apiKey != [] {
        var answer := lookup(ReloadIdAsWritten(key));
        if answer.Found? && answer.value.Some? && |answer.value.value.sites| > 0 {
          storage := storage[key := Record(Some(ReloadIdAsWritten(key)), answer.value)];
        }
      }
      out := Fetch(storage, uri, format);
    }

    /**
     * `build_supercell`: a missing bulk entry is reported together with the
     * keys that are available (their order and rendering are not modelled).
     */
    method BuildSupercell(uri: string, scaling: Option<seq<seq<int>>>,
                          makeSupercell: (Structure, seq<seq<int>>) -> Result<Structure, string>, digest: string)
      returns (out: seq<Content>, available: set<string>)
      modifies this
      ensures var key := StructureKey(uri);
        && (key !in old(storage) ==>
              out == [Text("Bulk structure " + key + " not found. Available: ")] && available == old(storage).Keys
              && storage == old(storage))
        && (key in old(storage) && !HasStructure(old(storage)[key]) ==>
              out == [Text("No bulk structure data available")] && storage == old(storage))
        && (key in old(storage) && HasStructure(old(storage)[key]) ==>
              var made := makeSupercell(old(storage)[key].structure.value, ScalingMatrix(scaling));
              && (made.Err? ==> out == [Text("Error building supercell: " + made.error)] && storage == old(storage))
              && (made.Ok? ==> storage == old(storage)[digest := Record(None, Some(made.value))]
                               && out == [Text("Supercell created with URI: " + Uri(digest)), Description(digest)]))
    {
      var key := StructureKey(uri);
      available := {};
      if key !in storage {
        available := storage.Keys;
        return [Text("Bulk structure " + key + " not found. Available: ")], available;
      }
      if !HasStructure(storage[key]) {
        return [Text("No bulk structure data available")], available;
      }
      var made := makeSupercell(storage[key].structure.value, ScalingMatrix(scaling));
      if made.Err? {
        return [Text("Error building supercell: " + made.error)], available;
      }
      storage := storage[digest := Record(None, Some(made.value))];
      out := [Text("Supercell created with URI: " + Uri(digest)), Description(digest)];
    }

    /**
     * `moire_homobilayer`: an external generator's structure, when one ran,
     * is stored and announced as on the local server; otherwise the built-in
     * generator runs, and its reply starts with the route it took.
     */
    method MoireHomobilayer(uri: string, maxNumAtoms: int, external: Option<Structure>, run: BuiltInRun, digest: string)
      returns (out: seq<Content>)
      modifies this
      ensures var key := StructureKey(uri);
        && (key !in old(storage) ==> out == [Text("Bulk structure not found")] && storage == old(storage))
        && (key in old(storage) && !HasStructure(old(storage)[key]) ==>
              out == [Text("No bulk structure data available")] && storage == old(storage))
        && (key in old(storage) && HasStructure(old(storage)[key]) && external.Some? ==>
              storage == old(storage)[digest := Record(None, external)] && out == [Text(MoireCreated + Uri(digest))])
        && (key in old(storage) && HasStructure(old(storage)[key]) && external.None? && run.Raised? ==>
              out == [Text("Error generating moire bilayer: " + run.message)] && storage == old(storage))
        && (key in old(storage) && HasStructure(old(storage)[key]) && external.None? && !run.Raised? ==>
              var bulk := old(storage)[key].structure.value;
              var moire := BuiltInMoire(bulk, maxNumAtoms, run);
              var lines := Diagnostics(|bulk.sites|, |moire.sites|, run);
              && storage == old(storage)[digest := Record(None, Some(moire))]
              && out == [Text(MethodTypeAsWritten(Join(lines, "\n")) + ": Moire structure created with URI: " + Uri(digest)),
                         Description(digest), StructureFile(digest, "poscar"),
                         Text("FULL DIAGNOSTICS:\n" + Join(lines, "\n"))])
    {
      var key := StructureKey(uri);
      if key !in storage {
        return [Text("Bulk structure not found")];
      }
      if !HasStructure(storage[key]) {
        return [Text("No bulk structure data available")];
      }
      if external.Some? {
        storage := storage[digest := Record(None, external)];
        return [Text(MoireCreated + Uri(digest))];
      }
      if run.Raised? {
        return [Text("Error generating moire bilayer: " + run.message)];
      }
      var bulk := storage[key].structure.value;
      var moire := BuiltInMoire(bulk, maxNumAtoms, run);
      var lines := Diagnostics(|bulk.sites|, |moire.sites|, run);
      storage := storage[digest := Record(None, Some(moire))];
      out := [Text(MethodTypeAsWritten(Join(lines, "\n")) + ": Moire structure created with URI: " + Uri(digest)),
              Description(digest), StructureFile(digest, "poscar"),
              Text("FULL DIAGNOSTICS:\n" + Join(lines, "\n"))];
    }
  }
}
