/**
 * Python's `str.strip()` with no argument, applied to the text the speech
 * engine returns (app/main.py).
 */
module Whitespace {

  /** The characters for which Python's `str.isspace()` holds. */
  predicate IsSpace(c: char)
  {
    c == ' ' || ('\t' <= c <= '\r') || ('\U{1c}' <= c <= '\U{1f}')
    || c == '\U{85}' || c == '\U{a0}' || c == '\U{1680}'
    || ('\U{2000}' <= c <= '\U{200a}') || c == '\U{2028}' || c == '\U{2029}'
    || c == '\U{202f}' || c == '\U{205f}' || c == '\U{3000}'
  }

  predicate AllSpace(s: string)
  {
    forall i :: 0 <= i < |s| ==> IsSpace(s[i])
  }

  /** Drop leading whitespace. */
  function TrimStart(s: string): string
  {
    if |s| > 0 && IsSpace(s[0]) then TrimStart(s[1..]) else s
  }

  /** Drop trailing whitespace. */
  function TrimEnd(s: string): string
  {
    if |s| > 0 && IsSpace(s[|s| - 1]) then TrimEnd(s[..|s| - 1]) else s
  }

  function Strip(s: string): string
  {
    TrimEnd(TrimStart(s))
  }

  lemma {:induction false} TrimStartSplits(s: string) returns (i: nat)
    ensures i <= |s| && TrimStart(s) == s[i..] && AllSpace(s[..i])
    ensures TrimStart(s) == [] || !IsSpace(TrimStart(s)[0])
  {
    if |s| > 0 && IsSpace(s[0]) {
      var k := TrimStartSplits(s[1..]);
      i := k + 1;
      assert s[1..][k..] == s[i..];
      assert forall j :: 0 <= j < k ==> s[1..][..k][j] == s[..i][j + 1];
    } else {
      i := 0;
    }
  }

  lemma {:induction false} TrimEndSplits(s: string) returns (j: nat)
    ensures j <= |s| && TrimEnd(s) == s[..j] && AllSpace(s[j..])
    ensures TrimEnd(s) == [] || !IsSpace(TrimEnd(s)[|TrimEnd(s)| - 1])
  {
    if |s| > 0 && IsSpace(s[|s| - 1]) {
      var t := s[..|s| - 1];
      j := TrimEndSplits(t);
      assert t[..j] == s[..j];
      assert forall k :: j <= k < |s| - 1 ==> t[j..][k - j] == s[k];
    } else {
      j := |s|;
    }
  }

  /** The stripped text is a contiguous slice of the input, with only whitespace cut on either side. */
  lemma StripSplits(s: string) returns (i: nat, j: nat)
    ensures i <= j <= |s| && Strip(s) == s[i..j]
    ensures AllSpace(s[..i]) && AllSpace(s[j..])
  {
    i := TrimStartSplits(s);
    var k := TrimEndSplits(s[i..]);
    j := i + k;
    assert s[i..][..k] == s[i..j];
    assert forall m :: j <= m < |s| ==> s[i..][k..][m - j] == s[m];
  }

  /** The stripped text neither starts nor ends with whitespace. */
  lemma StripEdges(s: string)
    ensures var r := Strip(s); r == [] || (!IsSpace(r[0]) && !IsSpace(r[|r| - 1]))
  {
    var i := TrimStartSplits(s);
    var j := TrimEndSplits(TrimStart(s));
    var r := Strip(s);
    if r != [] {
      assert r == TrimStart(s)[..j] && r[0] == TrimStart(s)[0];
    }
  }

  /** Text made only of whitespace strips to the empty string, and nothing else does. */
  lemma StripEmptyIff(s: string)
    ensures Strip(s) == [] <==> AllSpace(s)
  {
    var i, j := StripSplits(s);
    if Strip(s) == [] {
      assert i == j;
      assert forall k :: 0 <= k < |s| ==> (k < i ==> s[k] == s[..i][k]) && (k >= j ==> s[k] == s[j..][k - j]);
    } else if AllSpace(s) {
      assert Strip(s)[0] == s[i];
      StripEdges(s);
      assert false;
    }
  }

  /** Stripping twice is stripping once. */
  lemma StripIdempotent(s: string)
    ensures Strip(Strip(s)) == Strip(s)
  {
    StripEdges(s);
    var r := Strip(s);
    NoEdgeSpaceIsFixed(r);
  }

  lemma NoEdgeSpaceIsFixed(r: string)
    requires r == [] || (!IsSpace(r[0]) && !IsSpace(r[|r| - 1]))
    ensures Strip(r) == r
  {
  }
}
