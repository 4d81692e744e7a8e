/**
 * The regular-expression shape the text scrapers use throughout:
 * `re.search(lead + "(C+)", text).group(1)` for a literal text `lead` and a
 * character class C. The match is the leftmost position where `lead` is
 * followed by at least one class character, and the group is the maximal run
 * of class characters after it.
 */
module Scan {
  import opened Wrappers
  import opened Text

  /** Length of the leading run of characters in class `cls`. */
  function Run(s: string, cls: char -> bool): (k: nat)
    ensures k <= |s|
    ensures forall i :: 0 <= i < k ==> cls(s[i])
    ensures k == |s| || !cls(s[k])
  {
    if s == [] || !cls(s[0]) then 0 else 1 + Run(s[1..], cls)
  }

  /** `lead` occurs at `i` and is followed by a character of the class. */
  predicate MatchesAt(text: string, lead: string, cls: char -> bool, i: int)
  {
    OccursAt(text, lead, i) && i + |lead| < |text| && cls(text[i + |lead|])
  }

  /** The leftmost match position at or after `from`. */
  function MatchPos(text: string, lead: string, cls: char -> bool, from: nat): (r: Option<nat>)
    ensures r.Some? ==> from <= r.value && MatchesAt(text, lead, cls, r.value)
    ensures r.Some? ==> forall j :: from <= j < r.value ==> !MatchesAt(text, lead, cls, j)
    ensures r.None? ==> forall j :: from <= j ==> !MatchesAt(text, lead, cls, j)
    decreases |text| - from
  {
    if from >= |text| then None
    else if MatchesAt(text, lead, cls, from) then Some(from)
    else MatchPos(text, lead, cls, from + 1)
  }

  /** The captured group of the leftmost match, or None when the pattern does not match. */
  function Search(text: string, lead: string, cls: char -> bool): (r: Option<string>)
    ensures r.Some? <==> exists i :: MatchesAt(text, lead, cls, i)
    ensures r.Some? ==> r.value != [] && forall i :: 0 <= i < |r.value| ==> cls(r.value[i])
    ensures r.Some? ==>
              var start := MatchPos(text, lead, cls, 0).value + |lead|;
              && start + |r.value| <= |text|
              && text[start..start + |r.value|] == r.value
              && (start + |r.value| == |text| || !cls(text[start + |r.value|]))
  {
    match MatchPos(text, lead, cls, 0)
    case None => None
    case Some(p) =>
      var rest := text[p + |lead|..];
      Some(rest[..Run(rest, cls)])
  }

  /** `[^\n]` */
  predicate NotNewline(c: char) { c != '\n' }
  /** `[\d.]` */
  predicate DecimalChar(c: char) { IsDigit(c) || c == '.' }
  /** `[-\d.]` */
  predicate SignedDecimalChar(c: char) { IsDigit(c) || c == '.' || c == '-' }
  /** `[a-f0-9]` */
  predicate HexChar(c: char) { IsDigit(c) || 'a' <= c <= 'f' }

  /** `re.search(r"mp-(\d+)", text)` read as the whole id `mp-<digits>`. */
  function SearchMpId(text: string, lead: string): (r: Option<string>)
    ensures r.Some? ==> StartsWith(r.value, "mp-") && IsDigitString(r.value[3..])
    ensures r.Some? <==> Search(text, lead + "mp-", IsDigit).Some?
  {
    match Search(text, lead + "mp-", IsDigit)
    case None => None
    case Some(d) => Some("mp-" + d)
  }
}
