/**
 * The tool client of the AWS build (`EnhancedMCPClient` and
 * `EnhancedMCPAgent` of the AWS client file). Unlike the local client it
 * keeps no failure counters: it performs the `initialize` handshake once,
 * writes one `tools/call` request per call and reads one reply line.
 *
 * What the client learns from the process arrives as parameters: the
 * handshake's successive polls, each call's exchange, `decode` for
 * `json.loads` (None for a decoding error) and `show` for `str(...)` of a
 * value.
 */
module AwsClient {
  import opened Wrappers
  import opened Values
  import opened Text
  import opened Scan
  import JsonRpc
  import LocalClient
  import Poscar
  import MaterialSelector
  import Structures

  const ClientName: string := "enhanced-mcp-client-aws"
  /** Seconds the handshake waits for the server's answer. */
  const HandshakeTimeout: real := 15.0
  const Source: string := "MCP Materials Project Server (AWS)"
  const DefaultBandGap: real := 0.0
  const DefaultFormationEnergy: real := -3.0
  /** Stands for the exception raised on a reply item that has no string text. */
  const NoText: string := "reply item has no text"

  // ---------------------------------------------------------------- handshake

  /**
   * One turn of the handshake loop: the seconds elapsed since the request was
   * written, whether `poll()` found the process exited, and the line
   * `readline` returned (None when it raised).
   */
  datatype Poll = Poll(elapsed: real, exited: bool, line: Option<string>)

  datatype Handshake = Ready | Refused | Died | TimedOut

  /** The value a handshake line decodes to: None for a blank line, a failed read or a decoding error. */
  function Decoded(line: Option<string>, decode: string -> Option<Value>): Option<Value>
  {
    if line.None? || Strip(line.value) == [] then None else decode(line.value)
  }

  /**
   * What a line tells the handshake: Some(true) for a `result`, Some(false)
   * for an `error`, None to keep polling. `"result" in response` is Python's
   * `in` on whatever the line decodes to, so a decoded string holding the
   * word "result" also ends the handshake in success. Where `in` or the
   * logging of `response['error']` raises, the loop's `except` keeps polling.
   */
  function LineVerdict(line: Option<string>, decode: string -> Option<Value>): (v: Option<bool>)
    ensures v.Some? ==> Decoded(line, decode).Some?
    ensures v == Some(true) <==> Decoded(line, decode).Some? && PyContains(Decoded(line, decode).value, "result") == Some(true)
    ensures v == Some(false) <==> Decoded(line, decode).Some? && Decoded(line, decode).value.Dict?
                                  && !HasKey(Decoded(line, decode).value, "result") && HasKey(Decoded(line, decode).value, "error")
  {
    match Decoded(line, decode)
    case None => None
    case Some(reply) =>
      match PyContains(reply, "result")
      case None => None
      case Some(true) => Some(true)
      case Some(false) => if HasKey(reply, "error") then Some(false) else None
  }

  /** A poll that lets the loop go on: before the deadline, the process alive, and nothing decisive read. */
  predicate Quiet(p: Poll, decode: string -> Option<Value>)
  {
    p.elapsed < HandshakeTimeout && !p.exited && LineVerdict(p.line, decode).None?
  }

  /**
   * The handshake's end over the polls in order. Running out of polls means
   * the clock passed the deadline.
   */
  function HandshakeEnd(polls: seq<Poll>, decode: string -> Option<Value>): Handshake
  {
    if polls == [] then TimedOut
    else
      var p := polls[0];
      if p.elapsed >= HandshakeTimeout then TimedOut
      else if p.exited then Died
      else match LineVerdict(p.line, decode)
        case Some(ok) => if ok then Ready else Refused
        case None => HandshakeEnd(polls[1..], decode)
  }

  /** The poll at `i` is the first decisive one, and it carries a `result`. */
  predicate ReadyAt(polls: seq<Poll>, i: int, decode: string -> Option<Value>)
  {
    && 0 <= i < |polls|
    && (forall j :: 0 <= j < i ==> Quiet(polls[j], decode))
    && polls[i].elapsed < HandshakeTimeout && !polls[i].exited
    && LineVerdict(polls[i].line, decode) == Some(true)
  }

  /** A quiet first poll is skipped. */
  lemma QuietStep(polls: seq<Poll>, decode: string -> Option<Value>)
    requires polls != [] && Quiet(polls[0], decode)
    ensures HandshakeEnd(polls, decode) == HandshakeEnd(polls[1..], decode)
  {
  }

  lemma {:induction false} ReadyAtGivesReady(polls: seq<Poll>, i: int, decode: string -> Option<Value>)
    requires ReadyAt(polls, i, decode)
    ensures HandshakeEnd(polls, decode) == Ready
    decreases i
  {
    if i > 0 {
      assert Quiet(polls[0], decode);
      QuietStep(polls, decode);
      forall j | 0 <= j < i - 1
        ensures Quiet(polls[1..][j], decode)
      {
        assert polls[1..][j] == polls[j + 1];
      }
      assert ReadyAt(polls[1..], i - 1, decode);
      ReadyAtGivesReady(polls[1..], i - 1, decode);
    }
  }

  lemma {:induction false} ReadyHasReadyAt(polls: seq<Poll>, decode: string -> Option<Value>) returns (i: int)
    requires HandshakeEnd(polls, decode) == Ready
    ensures ReadyAt(polls, i, decode)
    decreases |polls|
  {
    if Quiet(polls[0], decode) {
      QuietStep(polls, decode);
      var k := ReadyHasReadyAt(polls[1..], decode);
      i := k + 1;
      forall j | 0 <= j < i
        ensures Quiet(polls[j], decode)
      {
        if j > 0 {
          assert polls[j] == polls[1..][j - 1];
        }
      }
    } else {
      i := 0;
    }
  }

  /** The handshake succeeds exactly when, before the deadline and while the process lives, the first decisive line is a `result`. */
  lemma HandshakeReadyIff(polls: seq<Poll>, decode: string -> Option<Value>)
    ensures HandshakeEnd(polls, decode) == Ready <==> exists i :: ReadyAt(polls, i, decode)
  {
    if HandshakeEnd(polls, decode) == Ready {
      var i := ReadyHasReadyAt(polls, decode);
    }
    if i :| ReadyAt(polls, i, decode) {
      ReadyAtGivesReady(polls, i, decode);
    }
  }

  /** Blank, undecodable or undecided lines read while waiting change nothing. */
  lemma {:induction false} NoiseIsSkipped(noise: seq<Poll>, rest: seq<Poll>, decode: string -> Option<Value>)
    requires forall j :: 0 <= j < |noise| ==> Quiet(noise[j], decode)
    ensures HandshakeEnd(noise + rest, decode) == HandshakeEnd(rest, decode)
    decreases |noise|
  {
    if noise != [] {
      assert (noise + rest)[0] == noise[0];
      assert (noise + rest)[1..] == noise[1..] + rest;
      QuietStep(noise + rest, decode);
      NoiseIsSkipped(noise[1..], rest, decode);
    } else {
      assert noise + rest == rest;
    }
  }

  // ---------------------------------------------------------------- tool calls

  /**
   * What reading a tool reply produced: a line (possibly empty), or no
   * line at all, because `select` found nothing within 5 seconds or
   * `readline` raised. Both platforms turn the latter into None.
   */
  datatype Read = Got(line: string) | NoLine

  datatype ToolExchange = ToolExchange(written: bool, read: Read)

  /**
   * The content `call_tool` returns for one exchange with a running server.
   * A reply that decodes to a JSON object is classified as the local client
   * classifies it. On any other decoded value Python's `in` decides: it
   * raises on a number, a bool or null, and `response['error']` or
   * `response["result"]` raises on a string or list holding that word; the
   * `except` around the exchange turns each of these into None. A string or
   * list holding neither word is a reply without `result`: the empty list.
   */
  function ToolResult(x: ToolExchange, decode: string -> Option<Value>): (r: Option<Value>)
    ensures r.Some? ==> x.written && x.read.Got? && x.read.line != [] && decode(x.read.line).Some?
    ensures r.Some? ==> r == JsonRpc.ClassifyReply(decode(x.read.line).value)
    ensures r.Some? <==> x.written && x.read.Got? && x.read.line != [] && decode(x.read.line).Some? &&
                         var reply := decode(x.read.line).value;
                         if reply.Dict? then !HasKey(reply, "error")
                         else PyContains(reply, "error") == Some(false) && PyContains(reply, "result") == Some(false)
  {
    if !x.written then None
    else match x.read
      case NoLine => None
      case Got(line) =>
        if line == [] then None
        else match decode(line)
          case None => None
          case Some(reply) =>
            if reply.Dict? then JsonRpc.ClassifyReply(reply)
            else if PyContains(reply, "error") == Some(false) && PyContains(reply, "result") == Some(false) then Some(List([]))
            else None
  }

  /**
   * A reply that decodes to a JSON object is read exactly as the local
   * client reads it, and so is every reply the AWS client accepts.
   */
  lemma AgreesWithLocalClient(s: LocalClient.ClientState, line: string, decode: string -> Option<Value>)
    requires line != []
    ensures LocalClient.ParseMain(s, line, decode).Finished?
    ensures decode(line).None? || decode(line).value.Dict? ==>
              LocalClient.ParseMain(s, line, decode).result == ToolResult(ToolExchange(true, Got(line)), decode)
    ensures ToolResult(ToolExchange(true, Got(line)), decode).Some? ==>
              LocalClient.ParseMain(s, line, decode).result == ToolResult(ToolExchange(true, Got(line)), decode)
  {
  }

  /** A decoded number, or a decoded string naming an error, makes `call_tool` return None. */
  lemma NonObjectRepliesFail(line: string, decode: string -> Option<Value>, n: int)
    requires line != [] && decode(line) == Some(Int(n))
    ensures ToolResult(ToolExchange(true, Got(line)), decode).None?
    ensures JsonRpc.ClassifyReply(decode(line).value) == Some(List([]))
  {
  }

  /**
   * `item.get("text", "")` as `get_material_by_id` uses it: None where
   * Python raises, because the item is not a dict or its text not a string.
   */
  function TextOf(item: Value): (t: Option<string>)
    ensures t.Some? <==> item.Dict? && (HasKey(item, "text") ==> item.fields["text"].Str?)
    ensures t.Some? && HasKey(item, "text") ==> t.value == item.fields["text"].s
    ensures t.Some? && !HasKey(item, "text") ==> t.value == []
  {
    if !item.Dict? then None
    else if !HasKey(item, "text") then Some([])
    else if item.fields["text"].Str? then Some(item.fields["text"].s)
    else None
  }

  /** The text of a reply item as the other wrappers take it: a dict's `text` (default ""), else `str(item)`. */
  function ItemString(item: Value, show: Value -> string): (t: string)
    ensures HasKey(item, "text") && item.fields["text"].Str? ==> t == item.fields["text"].s
    ensures item.Dict? && !HasKey(item, "text") ==> t == []
    ensures !item.Dict? ==> t == show(item)
  {
    if !item.Dict? then show(item)
    else if !HasKey(item, "text") then []
    else if item.fields["text"].Str? then item.fields["text"].s
    else show(item.fields["text"])
  }

  /** The text `search_materials` takes from one content item. */
  function ItemText(item: Value, show: Value -> string): (t: string)
    ensures item.Str? ==> t == item.s
    ensures HasKey(item, "text") && item.fields["text"].Str? ==> t == item.fields["text"].s
  {
    if item.Str? then item.s
    else if HasKey(item, "text") then (if item.fields["text"].Str? then item.fields["text"].s else show(item.fields["text"]))
    else show(item)
  }

  /** A search reply that reports a server-side failure. */
  predicate IsServerError(text: string)
  {
    Contains(text, "Error searching materials") || Contains(text, "invalid fields requested")
  }

  function Texts(items: seq<Value>, show: Value -> string): (ts: seq<string>)
    ensures |ts| == |items| && forall i :: 0 <= i < |items| ==> ts[i] == ItemText(items[i], show)
  {
    if items == [] then [] else Texts(items[..|items| - 1], show) + [ItemText(items[|items| - 1], show)]
  }

  /**
   * `search_materials` over the content of its call: one text per item, in
   * order, unless some item reports a server error, which empties the list.
   */
  function MaterialTexts(content: Option<Value>, show: Value -> string): (r: seq<string>)
    ensures content.None? || !content.value.List? ==> r == []
    ensures content.Some? && content.value.List? ==>
      var ts := Texts(content.value.items, show);
      (r == [] || r == ts) && (r == ts <==> forall i :: 0 <= i < |ts| ==> !IsServerError(ts[i]))
  {
    if content.None? || !content.value.List? then []
    else
      var ts := Texts(content.value.items, show);
      if exists i :: 0 <= i < |ts| && IsServerError(ts[i]) then [] else ts
  }

  /** The loop of `search_materials` over the items of a list reply. */
  method CollectTexts(items: seq<Value>, show: Value -> string) returns (materials: seq<string>)
    ensures materials == MaterialTexts(Some(List(items)), show)
  {
    materials := [];
    for i := 0 to |items|
      invariant materials == Texts(items[..i], show)
      invariant forall j :: 0 <= j < i ==> !IsServerError(ItemText(items[j], show))
    {
      var text := ItemText(items[i], show);
      if IsServerError(text) {
        assert Texts(items, show)[i] == text;
        return [];
      }
      assert items[..i + 1] == items[..i] + [items[i]];
      materials := materials + [text];
    }
    assert items[..|items|] == items;
  }

  // ---------------------------------------------------------------- material records

  /** The structured record `get_material_by_id` returns. */
  datatype MaterialData = MaterialData(
    materialId: string,
    structureUri: string,
    source: string,
    formula: Option<string>,
    bandGap: real,
    formationEnergy: real,
    crystalSystem: Option<string>,
    geometry: Option<string>)

  /** The first search result mentioning the id (`for ... if material_id in result: ... break`). */
  function FirstContaining(results: seq<string>, id: string): (r: Option<nat>)
    ensures r.Some? ==> r.value < |results| && Contains(results[r.value], id)
    ensures r.Some? ==> forall j :: 0 <= j < r.value ==> !Contains(results[j], id)
    ensures r.None? ==> forall j :: 0 <= j < |results| ==> !Contains(results[j], id)
  {
    if results == [] then None
    else if Contains(results[0], id) then Some(0)
    else match FirstContaining(results[1..], id)
      case None => None
      case Some(k) => Some(k + 1)
  }

  /** The search-result loop of the description parser. */
  method FindSearchData(results: seq<string>, id: string) returns (found: Option<string>)
    ensures found.Some? <==> FirstContaining(results, id).Some?
    ensures found.Some? ==> found.value == results[FirstContaining(results, id).value]
  {
    found := None;
    var i := 0;
    while i < |results|
      invariant 0 <= i <= |results|
      invariant forall j :: 0 <= j < i ==> !Contains(results[j], id)
      invariant found.None?
    {
      if Contains(results[i], id) {
        assert FirstContaining(results, id) == Some(i);
        return Some(results[i]);
      }
      i := i + 1;
    }
  }

  /** A stripped `[^\n]+` field, kept only when not empty (`if not formula`). */
  function TextField(text: string, lead: string): (r: Option<string>)
    ensures r.Some? ==> r.value != [] && Some(r.value) == MaterialSelector.LineField(text, lead)
  {
    var f := MaterialSelector.LineField(text, lead);
    if f.Some? && f.value != [] then f else None
  }

  /** A text field from the search result, else from the description. */
  function PreferredText(searchData: Option<string>, description: string, lead: string): (r: Option<string>)
    ensures searchData.Some? && TextField(searchData.value, lead).Some? ==> r == TextField(searchData.value, lead)
    ensures searchData.None? || TextField(searchData.value, lead).None? ==> r == TextField(description, lead)
  {
    var first := if searchData.Some? then TextField(searchData.value, lead) else None;
    if first.Some? then first else TextField(description, lead)
  }

  /** A numeric field: absent, read, or a group that `float` rejects, which raises. */
  datatype Reading = Absent | Read(x: real) | Raises(group: string)

  function ReadNumber(text: string, lead: string, cls: char -> bool): (r: Reading)
    ensures r.Absent? <==> Search(text, lead, cls).None?
    ensures r.Read? ==> Some(r.x) == ParseDecimal(Search(text, lead, cls).value)
  {
    match Search(text, lead, cls)
    case None => Absent
    case Some(g) =>
      match ParseDecimal(g)
      case None => Raises(g)
      case Some(x) => Read(x)
  }

  /** A numeric field from the search result when it has one, else from the description. */
  function PreferredNumber(searchData: Option<string>, description: string, lead: string, cls: char -> bool): (r: Reading)
    ensures searchData.Some? && !ReadNumber(searchData.value, lead, cls).Absent? ==> r == ReadNumber(searchData.value, lead, cls)
    ensures searchData.None? || ReadNumber(searchData.value, lead, cls).Absent? ==> r == ReadNumber(description, lead, cls)
  {
    var first := if searchData.Some? then ReadNumber(searchData.value, lead, cls) else Absent;
    if first.Absent? then ReadNumber(description, lead, cls) else first
  }

  function ValueOr(r: Reading, default: real): real
    requires !r.Raises?
  {
    if r.Read? then r.x else default
  }

  /**
   * `_parse_material_description_client` once the search result is known:
   * Err carries the group `float` could not read.
   */
  function DescriptionData(description: string, materialId: string, uri: string, searchData: Option<string>): (r: Result<MaterialData, string>)
    ensures r.Ok? ==> r.value.materialId == materialId && r.value.structureUri == uri && r.value.source == Source
    ensures r.Ok? ==> r.value.formula == PreferredText(searchData, description, "Formula: ")
    ensures r.Ok? ==> r.value.crystalSystem == PreferredText(searchData, description, "Crystal System: ")
    ensures r.Ok? ==> r.value.geometry.None?
    ensures var bg := PreferredNumber(searchData, description, "Band Gap: ", DecimalChar);
            var fe := PreferredNumber(searchData, description, "Formation Energy: ", SignedDecimalChar);
            (r.Ok? <==> !bg.Raises? && !fe.Raises?)
            && (r.Ok? ==> r.value.bandGap == (if bg.Read? then bg.x else DefaultBandGap)
                          && r.value.formationEnergy == (if fe.Read? then fe.x else DefaultFormationEnergy))
  {
    var bg := PreferredNumber(searchData, description, "Band Gap: ", DecimalChar);
    var fe := PreferredNumber(searchData, description, "Formation Energy: ", SignedDecimalChar);
    if bg.Raises? then Err(bg.group)
    else if fe.Raises? then Err(fe.group)
    else Ok(MaterialData(materialId, uri, Source,
                         PreferredText(searchData, description, "Formula: "),
                         ValueOr(bg, DefaultBandGap), ValueOr(fe, DefaultFormationEnergy),
                         PreferredText(searchData, description, "Crystal System: "), None))
  }

  /** The search result the description parser draws on: the first one mentioning the id, if any. */
  function SearchDataFor(searchResults: Option<seq<string>>, materialId: string): (d: Option<string>)
    ensures d.Some? ==> searchResults.Some? && d.value in searchResults.value && Contains(d.value, materialId)
    ensures d.None? && searchResults.Some? ==> forall j :: 0 <= j < |searchResults.value| ==> !Contains(searchResults.value[j], materialId)
  {
    if searchResults.None? || FirstContaining(searchResults.value, materialId).None? then None
    else Some(searchResults.value[FirstContaining(searchResults.value, materialId).value])
  }

  /** `_parse_material_description_client`. */
  method ParseMaterialDescription(description: string, materialId: string, uri: string, searchResults: Option<seq<string>>)
    returns (r: Result<MaterialData, string>)
    ensures r == DescriptionData(description, materialId, uri, SearchDataFor(searchResults, materialId))
  {
    var searchData := None;
    if searchResults.Some? {
      searchData := FindSearchData(searchResults.value, materialId);
    }
    r := DescriptionData(description, materialId, uri, searchData);
  }

  /** A field the search result supplies wins over the description's. */
  lemma SearchResultTakesPrecedence(description: string, materialId: string, uri: string, searchData: string)
    requires TextField(searchData, "Formula: ").Some?
    requires ReadNumber(searchData, "Band Gap: ", DecimalChar).Read?
    requires !PreferredNumber(Some(searchData), description, "Formation Energy: ", SignedDecimalChar).Raises?
    ensures DescriptionData(description, materialId, uri, Some(searchData)).Ok?
    ensures DescriptionData(description, materialId, uri, Some(searchData)).value.formula == TextField(searchData, "Formula: ")
    ensures DescriptionData(description, materialId, uri, Some(searchData)).value.bandGap
            == ReadNumber(searchData, "Band Gap: ", DecimalChar).x
  {
  }

  /** Without any readable numbers the defaults 0.0 and -3.0 apply, and the optional fields stay absent. */
  lemma DefaultsWhenAbsent(description: string, materialId: string, uri: string)
    requires Search(description, "Band Gap: ", DecimalChar).None?
    requires Search(description, "Formation Energy: ", SignedDecimalChar).None?
    ensures DescriptionData(description, materialId, uri, None).Ok?
    ensures DescriptionData(description, materialId, uri, None).value.bandGap == DefaultBandGap
    ensures DescriptionData(description, materialId, uri, None).value.formationEnergy == DefaultFormationEnergy
  {
  }

  /** The text of the first item of a reply, as `get_structure_data` and `moire_homobilayer` take it. */
  function FirstText(content: Option<Value>, show: Value -> string): (r: Option<string>)
    ensures r.Some? <==> content.Some? && content.value.List? && |content.value.items| > 0
    ensures r.Some? ==> r.value == ItemString(content.value.items[0], show)
  {
    if content.None? || !content.value.List? || |content.value.items| == 0 then None
    else Some(ItemString(content.value.items[0], show))
  }

  /**
   * The create and supercell wrappers: a reply of at least two items gives
   * the texts of the first two (the URI line, then the description).
   */
  function PairReply(content: Option<Value>, show: Value -> string): (r: Option<(string, string)>)
    ensures r.Some? <==> content.Some? && content.value.List? && |content.value.items| >= 2
    ensures r.Some? ==> r.value == (ItemString(content.value.items[0], show), ItemString(content.value.items[1], show))
  {
    if content.None? || !content.value.List? || |content.value.items| < 2 then None
    else Some((ItemString(content.value.items[0], show), ItemString(content.value.items[1], show)))
  }

  // ---------------------------------------------------------------- moire

  datatype MoireData = MoireData(moireUri: string, description: string)

  const UnknownMoireUri: string := "structure://unknown"

  /**
   * `moire_homobilayer` on the client: only a reply whose first text says
   * "Moire structure is created" counts, and the first hexadecimal
   * `structure://` URI in it is kept.
   */
  function MoireReply(content: Option<Value>, show: Value -> string): (r: Option<MoireData>)
    ensures r.Some? <==> FirstText(content, show).Some? && Contains(FirstText(content, show).value, Structures.MoireSuccess)
    ensures r.Some? ==> r.value.description == FirstText(content, show).value
    ensures r.Some? ==> StartsWith(r.value.moireUri, Structures.UriScheme)
    ensures r.Some? && r.value.moireUri != UnknownMoireUri ==>
              var h := r.value.moireUri[|Structures.UriScheme|..];
              h != [] && forall i :: 0 <= i < |h| ==> HexChar(h[i])
  {
    match FirstText(content, show)
    case None => None
    case Some(text) =>
      if !Contains(text, Structures.MoireSuccess) then None
      else
        var uri := match Search(text, Structures.UriScheme, HexChar)
          case None => UnknownMoireUri
          case Some(h) => Structures.UriScheme + h;
        Some(MoireData(uri, text))
  }

  /** The reply of the local server's moire tool is accepted. */
  lemma LocalMoireReplyAccepted(digest: string, show: Value -> string)
    ensures MoireReply(Some(List([Dict(map["text" := Str(Structures.MoireCreated + Structures.Uri(digest))])])), show).Some?
  {
    var text := Structures.MoireCreated + Structures.Uri(digest);
    assert text == Structures.MoireSuccess + (" with the structure uri: " + Structures.Uri(digest));
    assert StartsWith(text, Structures.MoireSuccess);
  }

  // ---------------------------------------------------------------- the client object

  class McpClient {
    /** Whether `server_process` is set. */
    var running: bool

    constructor()
      ensures !running
    {
      running := false;
    }

    /** The polling loop of `_initialize_mcp_session`, after the `initialize` request was written. */
    method InitializeSession(polls: seq<Poll>, decode: string -> Option<Value>) returns (ok: bool)
      ensures ok <==> HandshakeEnd(polls, decode) == Ready
    {
      var i := 0;
      while i < |polls|
        invariant 0 <= i <= |polls|
        invariant HandshakeEnd(polls, decode) == HandshakeEnd(polls[i..], decode)
      {
        assert polls[i..][1..] == polls[i + 1..];
        var p := polls[i];
        if p.elapsed >= HandshakeTimeout {
          return false;
        }
        if p.exited {
          return false;
        }
        var verdict := LineVerdict(p.line, decode);
        if verdict.Some? {
          return verdict.value;
        }
        i := i + 1;
      }
      return false;
    }

    /**
     * `start_server`: when the launch succeeds the process is kept whether
     * or not the handshake then succeeds; a failed launch changes nothing.
     */
    method StartServer(launched: bool, polls: seq<Poll>, decode: string -> Option<Value>) returns (ok: bool)
      modifies this
      ensures launched ==> running && (ok <==> HandshakeEnd(polls, decode) == Ready)
      ensures !launched ==> !ok && running == old(running)
    {
      if !launched {
        return false;
      }
      running := true;
      ok := InitializeSession(polls, decode);
    }

    /** `stop_server` */
    method StopServer()
      modifies this
      ensures !running
    {
      running := false;
    }

    /**
     * `call_tool`: without a process nothing is written and None is
     * returned; otherwise one `tools/call` request with id 1 is written and
     * its reply classified.
     */
    method CallTool(tool: string, arguments: Value, x: ToolExchange, decode: string -> Option<Value>)
      returns (request: Option<Value>, content: Option<Value>)
      ensures !running ==> request.None? && content.None?
      ensures running ==> request == Some(JsonRpc.ToolsCallRequest(tool, arguments)) && content == ToolResult(x, decode)
    {
      if !running {
        return None, None;
      }
      request := Some(JsonRpc.ToolsCallRequest(tool, arguments));
      content := ToolResult(x, decode);
    }

    /** `search_materials` */
    method SearchMaterials(formula: string, x: ToolExchange, decode: string -> Option<Value>, show: Value -> string)
      returns (materials: seq<string>)
      ensures !running ==> materials == []
      ensures running ==> materials == MaterialTexts(ToolResult(x, decode), show)
    {
      var _, content := CallTool("search_materials_by_formula", Dict(map["chemical_formula" := Str(formula)]), x, decode);
      if content.None? || !content.value.List? {
        return [];
      }
      materials := CollectTexts(content.value.items, show);
    }

    /**
     * `get_material_by_id`: a select reply of at least two items is parsed,
     * then the POSCAR of its URI, when one comes back, is turned into a
     * geometry. Err is an exception that escapes: `float` rejecting a
     * number, or an item without string text.
     */
    method GetMaterialById(materialId: string, searchResults: Option<seq<string>>,
                           select: ToolExchange, fetch: ToolExchange, decode: string -> Option<Value>,
                           show: Value -> string, coord: string -> Option<string>)
      returns (r: Result<Option<MaterialData>, string>)
      ensures var content := if running then ToolResult(select, decode) else None;
        && (content.None? || !content.value.List? || |content.value.items| < 2 ==> r == Ok(None))
        && (content.Some? && content.value.List? && |content.value.items| >= 2 ==>
              var items := content.value.items;
              && (TextOf(items[0]).None? || TextOf(items[1]).None? ==> r == Err(NoText))
              && (r.Ok? ==>
                    && TextOf(items[0]).Some? && TextOf(items[1]).Some?
                    && r.value.Some?
                    && r.value.value.materialId == materialId
                    && r.value.value.structureUri == ReplaceAll(TextOf(items[1]).value, "structure uri: ", "")
                    && r.value.value.source == Source)
              && (TextOf(items[0]).Some? && TextOf(items[1]).Some? ==>
                    var uri := ReplaceAll(TextOf(items[1]).value, "structure uri: ", "");
                    var parsed := DescriptionData(TextOf(items[0]).value, materialId, uri, SearchDataFor(searchResults, materialId));
                    var poscar := FirstText(ToolResult(fetch, decode), show);
                    && (parsed.Err? ==> r == Err(parsed.error))
                    && (parsed.Ok? && (poscar.None? || poscar.value == []) ==> r == Ok(Some(parsed.value)))
                    && (parsed.Ok? && poscar.Some? && poscar.value != [] ==>
                          r == Ok(Some(parsed.value.(geometry := Some(Poscar.Geometry(poscar.value, coord))))))))
    {
      var _, content := CallTool("select_material_by_id", Dict(map["material_id" := Str(materialId)]), select, decode);
      if content.None? || !content.value.List? || |content.value.items| < 2 {
        return Ok(None);
      }
      var items := content.value.items;
      var first := TextOf(items[0]);
      var second := TextOf(items[1]);
      if first.None? || second.None? {
        return Err(NoText);
      }
      var description := first.value;
      var uri := ReplaceAll(second.value, "structure uri: ", "");
      var parsed := ParseMaterialDescription(description, materialId, uri, searchResults);
      if parsed.Err? {
        return Err(parsed.error);
      }
      var data := parsed.value;
      var _, poscarContent := CallTool("get_structure_data", Dict(map["structure_uri" := Str(uri), "format" := Str("poscar")]), fetch, decode);
      var poscar := FirstText(poscarContent, show);
      if poscar.Some? && poscar.value != [] {
        var g := Poscar.PoscarToGeometry(poscar.value, coord);
        data := data.(geometry := Some(g));
      }
      return Ok(Some(data));
    }
  }

  // ---------------------------------------------------------------- the agent

  /** What `EnhancedMCPAgent.search` returns. */
  datatype SearchReply<T> =
    | Found(data: T, searchResults: Option<seq<string>>)
    | Listing(formula: string, results: seq<string>, showAll: bool)
    | Failed(error: string)

  /** The phrases that ask for every option rather than one analysed material. */
  const ListingPhrases: seq<string> := ["show me", "available options", "list", "all materials", "options", "available"]

  /** A query for a material id: the record `get_material_by_id` finds, or an error. */
  function IdSearch<T>(query: string, getMaterial: (string, Option<seq<string>>) -> Result<Option<T>, string>): (r: SearchReply<T>)
    ensures r.Found? <==> getMaterial(query, None).Ok? && getMaterial(query, None).value.Some?
    ensures r.Found? ==> r == Found(getMaterial(query, None).value.value, None)
    ensures getMaterial(query, None) == Ok(None) ==> r == Failed("Material " + query + " not found")
  {
    match getMaterial(query, None)
    case Err(e) => Failed(e)
    case Ok(None) => Failed("Material " + query + " not found")
    case Ok(Some(d)) => Found(d, None)
  }

  /** The smart-selection step: the record of the selector's pick, else the plain listing. */
  function SelectedSearch<T>(query: string, searchResults: seq<string>,
                             getMaterial: (string, Option<seq<string>>) -> Result<Option<T>, string>): (r: SearchReply<T>)
    ensures r.Found? ==>
              var best := MaterialSelector.SelectBestMatch(searchResults, query);
              best.Some? && r.searchResults == Some(searchResults) && getMaterial(best.value, Some(searchResults)) == Ok(Some(r.data))
    ensures r.Listing? ==> r == Listing(query, searchResults, false)
  {
    match MaterialSelector.SelectBestMatch(searchResults, query)
    case None => Listing(query, searchResults, false)
    case Some(best) =>
      match getMaterial(best, Some(searchResults))
      case Err(e) => Failed(e)
      case Ok(None) => Listing(query, searchResults, false)
      case Ok(Some(d)) => Found(d, Some(searchResults))
  }

  /** A formula query over the results of `search_materials`. */
  function FormulaSearch<T>(query: string, searchResults: seq<string>,
                            getMaterial: (string, Option<seq<string>>) -> Result<Option<T>, string>): (r: SearchReply<T>)
    ensures searchResults == [] ==> r == Failed("No materials found")
    ensures r.Listing? ==> r.formula == query && r.results == searchResults && searchResults != []
    ensures r.Found? ==> r == SelectedSearch(query, searchResults, getMaterial)
    ensures (r.Listing? && r.showAll) <==>
              (&& searchResults != []
               && !Contains(searchResults[0], "Error searching materials") && !Contains(searchResults[0], "invalid fields")
               && ContainsAny(Lower(query), ListingPhrases))
  {
    if searchResults == [] then Failed("No materials found")
    else if Contains(searchResults[0], "Error searching materials") || Contains(searchResults[0], "invalid fields") then
      Failed("MCP server configuration error - invalid API fields")
    else if ContainsAny(Lower(query), ListingPhrases) then Listing(query, searchResults, true)
    else SelectedSearch(query, searchResults, getMaterial)
  }

  /**
   * `EnhancedMCPAgent.search` over the client's answers: `searchResults`
   * is what `search_materials(query)` returns and `getMaterial(id, results)`
   * what `get_material_by_id` returns (Err for an escaping exception).
   */
  function AgentSearch(query: string, searchResults: seq<string>,
                       getMaterial: (string, Option<seq<string>>) -> Result<Option<MaterialData>, string>): (r: SearchReply<MaterialData>)
    ensures StartsWith(Lower(query), "mp-") ==> r == IdSearch(query, getMaterial)
    ensures !StartsWith(Lower(query), "mp-") ==> r == FormulaSearch(query, searchResults, getMaterial)
  {
    if StartsWith(Lower(query), "mp-") then IdSearch(query, getMaterial)
    else FormulaSearch(query, searchResults, getMaterial)
  }

  /**
   * A material found by a formula query is the one the selector picked from
   * a result that parsed, and it comes back with those results attached.
   */
  lemma FormulaQueryFindsSelected(query: string, searchResults: seq<string>,
                                  getMaterial: (string, Option<seq<string>>) -> Result<Option<MaterialData>, string>)
    requires !StartsWith(Lower(query), "mp-")
    requires AgentSearch(query, searchResults, getMaterial).Found?
    ensures var best := MaterialSelector.SelectBestMatch(searchResults, query);
            var r := AgentSearch(query, searchResults, getMaterial);
      && best.Some?
      && StartsWith(best.value, "mp-")
      && r.searchResults == Some(searchResults)
      && getMaterial(best.value, Some(searchResults)) == Ok(Some(r.data))
      && exists k :: 0 <= k < |searchResults| && MaterialSelector.ParseMaterialResult(searchResults[k]).Some?
                     && MaterialSelector.ParseMaterialResult(searchResults[k]).value.materialId == best.value
  {
    MaterialSelector.SelectedIdComesFromInput(searchResults, query);
  }

  /** An id query never consults the formula search: its reply is the same whatever the search would have returned. */
  lemma IdQueryIgnoresSearch(query: string, r1: seq<string>, r2: seq<string>,
                             getMaterial: (string, Option<seq<string>>) -> Result<Option<MaterialData>, string>)
    requires StartsWith(Lower(query), "mp-")
    ensures AgentSearch(query, r1, getMaterial) == AgentSearch(query, r2, getMaterial)
    ensures AgentSearch(query, r1, getMaterial).Found? ==> AgentSearch(query, r1, getMaterial).searchResults.None?
  {
  }
}
