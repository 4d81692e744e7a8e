/**
 * Element symbols in a chemical formula as the agents scan them with
 * `re.findall(r'[A-Z][a-z]?', formula)`.
 */
module Formulas {
  import opened Text

  /** `re.findall(r'[A-Z][a-z]?', s)`: each capital letter, with the small letter after it if any. */
  function ElementSymbols(s: string): (r: seq<string>)
    ensures forall k :: 0 <= k < |r| ==> 1 <= |r[k]| <= 2 && IsUpper(r[k][0]) && (|r[k]| == 2 ==> IsLower(r[k][1]))
  {
    if s == [] then []
    else if !IsUpper(s[0]) then ElementSymbols(s[1..])
    else if |s| > 1 && IsLower(s[1]) then [s[..2]] + ElementSymbols(s[2..])
    else [s[..1]] + ElementSymbols(s[1..])
  }

  /** A formula whose last character is not a capital letter ends a symbol where it ends. */
  predicate ClosedBlock(s: string)
  {
    s == [] || !IsUpper(s[|s| - 1])
  }

  /** A lone capital letter followed by something that is not a small letter is a symbol on its own. */
  lemma LoneCapital(a: string, b: string)
    requires |a| == 1 && IsUpper(a[0]) && (b == [] || !IsLower(b[0]))
    ensures ElementSymbols(a + b) == [a] + ElementSymbols(b)
    ensures ElementSymbols(a) == [a]
  {
    assert a[..1] == a && a[1..] == [];
    if b != [] {
      assert (a + b)[1] == b[0];
      assert (a + b)[..1] == a;
      assert (a + b)[1..] == b;
    } else {
      assert a + b == a;
    }
  }

  /** What scanning a string that starts with a capital letter does with its first two characters. */
  lemma CapitalStep(a: string, b: string)
    requires |a| > 1 && IsUpper(a[0])
    ensures IsLower(a[1]) ==>
              ElementSymbols(a + b) == [a[..2]] + ElementSymbols(a[2..] + b) && ElementSymbols(a) == [a[..2]] + ElementSymbols(a[2..])
    ensures !IsLower(a[1]) ==>
              ElementSymbols(a + b) == [a[..1]] + ElementSymbols(a[1..] + b) && ElementSymbols(a) == [a[..1]] + ElementSymbols(a[1..])
  {
    assert (a + b)[1] == a[1];
    assert (a + b)[..2] == a[..2];
    assert (a + b)[2..] == a[2..] + b;
    assert (a + b)[..1] == a[..1];
    assert (a + b)[1..] == a[1..] + b;
  }

  /**
   * Scanning a concatenation scans each half, unless the first half ends in a
   * capital letter that the second half's small letter would complete.
   */
  lemma {:induction false} SymbolsOfConcat(a: string, b: string)
    requires ClosedBlock(a) || b == [] || !IsLower(b[0])
    ensures ElementSymbols(a + b) == ElementSymbols(a) + ElementSymbols(b)
    decreases |a|
  {
    if a == [] {
      assert a + b == b;
    } else if !IsUpper(a[0]) {
      assert (a + b)[1..] == a[1..] + b;
      SymbolsOfConcat(a[1..], b);
    } else if |a| == 1 {
      LoneCapital(a, b);
    } else {
      CapitalStep(a, b);
      if IsLower(a[1]) {
        SymbolsOfConcat(a[2..], b);
      } else {
        SymbolsOfConcat(a[1..], b);
      }
    }
  }
}
