/**
 * How the agents read a language model's reply: the span from the first
 * `{` to the last `}` (`re.search(r'\{.*\}', reply, re.DOTALL)`) is decoded
 * as JSON. `decode` stands for `json.loads` (None when it raises).
 */
module Replies {
  import opened Wrappers
  import opened Values

  /** The first index of `c` in `s`. */
  function IndexOf(s: string, c: char): (r: Option<nat>)
    ensures r.Some? ==> r.value < |s| && s[r.value] == c && c !in s[..r.value]
    ensures r.None? ==> c !in s
  {
    if s == [] then None
    else if s[0] == c then Some(0)
    else match IndexOf(s[1..], c)
      case None => None
      case Some(k) =>
        assert s[..k + 1] == [s[0]] + s[1..][..k];
        Some(k + 1)
  }

  /** The last index of `c` in `s`. */
  function LastIndexOf(s: string, c: char): (r: Option<nat>)
    ensures r.Some? ==> r.value < |s| && s[r.value] == c && c !in s[r.value + 1..]
    ensures r.None? ==> c !in s
  {
    if s == [] then None
    else if s[|s| - 1] == c then Some(|s| - 1)
    else match LastIndexOf(s[..|s| - 1], c)
      case None => None
      case Some(k) =>
        assert s[k + 1..] == s[..|s| - 1][k + 1..] + [s[|s| - 1]];
        Some(k)
  }

  /**
   * The greedy `\{.*\}` match: it exists exactly when some `{` comes before
   * some `}`, and it runs from the first `{` to the last `}`.
   */
  function BraceSpan(s: string): (r: Option<string>)
    ensures r.Some? ==> |r.value| >= 2 && r.value[0] == '{' && r.value[|r.value| - 1] == '}'
    ensures r.Some? <==> exists i, j :: 0 <= i < j < |s| && s[i] == '{' && s[j] == '}'
  {
    var i := IndexOf(s, '{');
    var j := LastIndexOf(s, '}');
    if i.Some? && j.Some? && i.value < j.value then Some(s[i.value..j.value + 1])
    else None
  }

  /** How a reply read: without a brace span, with one that does not decode, or decoded. */
  datatype Reading = NoSpan | Undecodable | Parsed(value: Value)

  function ReadReply(reply: string, decode: string -> Option<Value>): (r: Reading)
    ensures r.NoSpan? <==> BraceSpan(reply).None?
    ensures r.Undecodable? <==> BraceSpan(reply).Some? && decode(BraceSpan(reply).value).None?
    ensures r.Parsed? ==> Some(r.value) == decode(BraceSpan(reply).value)
  {
    match BraceSpan(reply)
    case None => NoSpan
    case Some(span) =>
      match decode(span)
      case None => Undecodable
      case Some(v) => Parsed(v)
  }

  /** A reply without any `{` never parses, whatever it says. */
  lemma NoBraceNoJson(reply: string, decode: string -> Option<Value>)
    requires '{' !in reply
    ensures ReadReply(reply, decode) == NoSpan
  {
  }
}
