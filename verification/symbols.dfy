/**
 * Normalisation of a ticker symbol typed into the trade form (routes.py:159): the
 * field, empty when missing, upper-cased and then stripped of surrounding white space.
 */
module Symbols {

  /** The characters Python's `str.strip()` removes (those for which `str.isspace()` holds). */
  predicate IsSpace(c: char) {
    || c == ' '
    || '\t' <= c <= '\r'
    || '\U{1C}' <= c <= '\U{1F}'
    || c == '\U{85}'
    || c == '\U{A0}'
    || c == '\U{1680}'
    || '\U{2000}' <= c <= '\U{200A}'
    || c == '\U{2028}'
    || c == '\U{2029}'
    || c == '\U{202F}'
    || c == '\U{205F}'
    || c == '\U{3000}'
  }

  predicate IsAsciiLower(c: char) {
    'a' <= c <= 'z'
  }

  /** `str.upper()` on one character, restricted to the ASCII letters. */
  function UpperChar(c: char): (u: char)
    ensures !IsAsciiLower(u)
    ensures IsAsciiLower(c) ==> u as int == c as int - 32
    ensures !IsAsciiLower(c) ==> u == c
  {
    if IsAsciiLower(c) then (c as int - 32) as char else c
  }

  function Upper(s: string): (r: string)
    ensures |r| == |s|
    ensures forall i :: 0 <= i < |s| ==> r[i] == UpperChar(s[i])
  {
    seq(|s|, i requires 0 <= i < |s| => UpperChar(s[i]))
  }

  /** The index of the first character at or after `i` that is not white space, or `|s|`. */
  function SkipSpaces(s: string, i: nat): (n: nat)
    requires i <= |s|
    ensures i <= n <= |s| && (n == |s| || !IsSpace(s[n]))
    ensures forall j :: i <= j < n ==> IsSpace(s[j])
    decreases |s| - i
  {
    if i == |s| || !IsSpace(s[i]) then i else SkipSpaces(s, i + 1)
  }

  /** The end of `s[..n]` once its trailing white space is dropped. */
  function BackSpaces(s: string, n: nat): (e: nat)
    requires n <= |s|
    ensures e <= n && (e == 0 || !IsSpace(s[e - 1]))
    ensures forall j :: e <= j < n ==> IsSpace(s[j])
  {
    if n == 0 || !IsSpace(s[n - 1]) then n else BackSpaces(s, n - 1)
  }

  /** `str.lstrip()`: drops the leading white space and nothing else. */
  function TrimLeft(s: string): (r: string)
    ensures |r| <= |s| && r == s[|s| - |r|..]
    ensures r == [] || !IsSpace(r[0])
    ensures forall i :: 0 <= i < |s| - |r| ==> IsSpace(s[i])
  {
    s[SkipSpaces(s, 0)..]
  }

  /** `str.rstrip()`: drops the trailing white space and nothing else. */
  function TrimRight(s: string): (r: string)
    ensures |r| <= |s| && r == s[..|r|]
    ensures r == [] || !IsSpace(r[|r| - 1])
    ensures forall i :: |r| <= i < |s| ==> IsSpace(s[i])
  {
    s[..BackSpaces(s, |s|)]
  }

  /** `str.strip()`. */
  function Strip(s: string): string {
    TrimRight(TrimLeft(s))
  }

  /**
   * What `Strip` keeps: the piece of the input from its first to its last
   * non-white-space character; everything cut off on either side is white space.
   */
  lemma StripSpec(s: string)
    ensures var r, k := Strip(s), |s| - |TrimLeft(s)|;
      && k + |r| <= |s| && r == s[k..k + |r|]
      && (forall i :: 0 <= i < k ==> IsSpace(s[i]))
      && (forall i :: k + |r| <= i < |s| ==> IsSpace(s[i]))
      && (r == [] || (!IsSpace(r[0]) && !IsSpace(r[|r| - 1])))
  {
    Framed(s, TrimLeft(s), Strip(s), |s| - |TrimLeft(s)|);
  }

  /**
   * A prefix `r` of the suffix `l == s[k..]` sits at `k` in `s`; when what `r` leaves of
   * `l` is white space and `l` starts with a non-space, so does `r`, and `s` ends in space.
   */
  lemma Framed(s: string, l: string, r: string, k: int)
    requires 0 <= k <= |s| && l == s[k..] && |r| <= |l| && r == l[..|r|]
    requires forall i :: |r| <= i < |l| ==> IsSpace(l[i])
    requires l == [] || !IsSpace(l[0])
    requires r == [] || !IsSpace(r[|r| - 1])
    ensures k + |r| <= |s| && r == s[k..k + |r|]
    ensures forall i :: k + |r| <= i < |s| ==> IsSpace(s[i])
    ensures r == [] || (!IsSpace(r[0]) && !IsSpace(r[|r| - 1]))
  {
    forall i | k + |r| <= i < |s| ensures IsSpace(s[i]) {
      assert s[i] == l[i - k];
    }
    if r != [] {
      assert r[0] == l[0];
    }
  }

  /** The symbol as routes.py stores it: upper-cased, then stripped. */
  function NormalizeSymbol(raw: string): (r: string)
    ensures |r| <= |raw|
    ensures r == [] <==> forall i :: 0 <= i < |raw| ==> IsSpace(raw[i])
  {
    Strip(Upper(raw))
  }

  /** A normalised symbol has no lower-case ASCII letter. */
  lemma NormalizedUpper(raw: string)
    ensures var r := NormalizeSymbol(raw); forall i :: 0 <= i < |r| ==> !IsAsciiLower(r[i])
  {
    var u := Upper(raw);
    UpperNoLower(raw);
    StripSpec(u);
    SliceNoLower(u, Strip(u), |u| - |TrimLeft(u)|);
  }

  /** A normalised symbol neither starts nor ends with white space. */
  lemma NormalizedTrimmed(raw: string)
    ensures var r := NormalizeSymbol(raw); r == [] || (!IsSpace(r[0]) && !IsSpace(r[|r| - 1]))
  {
    StripSpec(Upper(raw));
  }

  /** An upper-cased string has no lower-case ASCII letter. */
  lemma UpperNoLower(s: string)
    ensures forall i :: 0 <= i < |Upper(s)| ==> !IsAsciiLower(Upper(s)[i])
  {
    var u := Upper(s);
    forall i | 0 <= i < |u| ensures !IsAsciiLower(u[i]) {
      assert u[i] == UpperChar(s[i]);
    }
  }

  /** A slice of a string without lower-case ASCII letters has none either. */
  lemma SliceNoLower(u: string, r: string, k: int)
    requires 0 <= k && k + |r| <= |u| && r == u[k..k + |r|]
    requires forall i :: 0 <= i < |u| ==> !IsAsciiLower(u[i])
    ensures forall i :: 0 <= i < |r| ==> !IsAsciiLower(r[i])
  {
    forall i | 0 <= i < |r| ensures !IsAsciiLower(r[i]) {
      assert r[i] == u[k + i];
    }
  }

  /** Normalising a symbol twice is the same as normalising it once. */
  lemma NormalizeIdempotent(raw: string)
    ensures NormalizeSymbol(NormalizeSymbol(raw)) == NormalizeSymbol(raw)
  {
    var r := NormalizeSymbol(raw);
    NormalizedUpper(raw);
    NormalizedTrimmed(raw);
    var u := Upper(r);
    assert u == r by {
      assert |u| == |r|;
      forall i | 0 <= i < |r| ensures u[i] == r[i] {
        assert u[i] == UpperChar(r[i]);
      }
    }
    assert TrimLeft(r) == r;
    assert TrimRight(r) == r;
  }
}
