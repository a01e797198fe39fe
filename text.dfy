/** Python `str` operations the source relies on, written out character by
    character: `isspace`, `lower`, `strip`, `split()`, `splitlines`, `in`,
    `count`, `rfind`, slicing with clamped and negative bounds, and `join`. */
module Text {

  /** `c.isspace()`: the characters Python treats as whitespace, which are also
      the ones `\s` matches in a `str` pattern and the ones `split()` and
      `strip()` remove. */
  predicate IsSpace(c: char) {
    ('\t' <= c <= '\r') || ('\U{1C}' <= c <= ' ') || c == '\U{85}' || c == '\U{A0}'
    || c == '\U{1680}' || ('\U{2000}' <= c <= '\U{200A}') || c == '\U{2028}' || c == '\U{2029}'
    || c == '\U{202F}' || c == '\U{205F}' || c == '\U{3000}'
  }

  /** The characters at which `str.splitlines` ends a line. */
  predicate IsLineBoundary(c: char) {
    c == '\n' || c == '\r' || c == '\U{0B}' || c == '\U{0C}' || ('\U{1C}' <= c <= '\U{1E}')
    || c == '\U{85}' || c == '\U{2028}' || c == '\U{2029}'
  }

  lemma LineBoundaryIsSpace(c: char)
    requires IsLineBoundary(c)
    ensures IsSpace(c)
  {
  }

  /** `c.lower()`. ASCII capitals map to small letters; U+0130 (capital I with
      dot above) maps to the two characters "i" U+0307 and U+212A (Kelvin sign)
      to "k", the two non-ASCII capitals whose lower case holds an ASCII
      letter. Other characters are kept. */
  function LowerChar(c: char): (r: string)
    ensures 1 <= |r| <= 2
  {
    if 'A' <= c <= 'Z' then [(c as int + 32) as char]
    else if c == '\U{0130}' then ['i', '\U{0307}']
    else if c == '\U{212A}' then ['k']
    else [c]
  }

  /** `s.lower()` */
  function Lower(s: string): (r: string)
    ensures |r| >= |s|
  {
    if s == [] then [] else LowerChar(s[0]) + Lower(s[1..])
  }

  lemma {:induction false} LowerAppend(a: string, b: string)
    ensures Lower(a + b) == Lower(a) + Lower(b)
  {
    if a == [] {
      assert a + b == b;
    } else {
      assert (a + b)[0] == a[0] && (a + b)[1..] == a[1..] + b;
      LowerAppend(a[1..], b);
      calc {
        Lower(a + b);
        LowerChar(a[0]) + Lower(a[1..] + b);
        LowerChar(a[0]) + (Lower(a[1..]) + Lower(b));
        (LowerChar(a[0]) + Lower(a[1..])) + Lower(b);
      }
    }
  }

  /** A text none of whose characters is a capital letter or U+0130 or U+212A
      is its own lower case. */
  predicate IsLowerFixed(s: string) {
    forall i :: 0 <= i < |s| ==> !('A' <= s[i] <= 'Z') && s[i] != '\U{0130}' && s[i] != '\U{212A}'
  }

  lemma {:induction false} LowerOfFixed(s: string)
    requires IsLowerFixed(s)
    ensures Lower(s) == s
  {
    if s != [] {
      LowerOfFixed(s[1..]);
    }
  }

  /** No U+0130, the one character whose lower case is two characters long. */
  predicate NoDottedCapitalI(s: string) {
    forall i :: 0 <= i < |s| ==> s[i] != '\U{0130}'
  }

  /** Without U+0130, lowering keeps every character at its position: a
      slice of the lowered text is the lowered slice. */
  lemma LowerSlice(s: string, i: int, j: int)
    requires NoDottedCapitalI(s) && 0 <= i <= j <= |s|
    ensures |Lower(s)| == |s|
    ensures Lower(s)[i..j] == Lower(s[i..j])
  {
    var pre, mid, post := s[..i], s[i..j], s[j..];
    assert s == pre + mid + post;
    LowerAppend(pre + mid, post);
    LowerAppend(pre, mid);
    LowerKeepsPositionsLength(s);
    LowerKeepsPositionsLength(pre);
    LowerKeepsPositionsLength(mid);
  }

  lemma {:induction false} LowerKeepsPositionsLength(s: string)
    requires NoDottedCapitalI(s)
    ensures |Lower(s)| == |s|
  {
    if s != [] {
      LowerKeepsPositionsLength(s[1..]);
    }
  }

  /** `s[i:i+len(pat)] == pat` */
  predicate StartsAt(s: string, i: int, pat: string) {
    0 <= i && i + |pat| <= |s| && s[i..i + |pat|] == pat
  }

  /** `pat in s` */
  predicate Contains(s: string, pat: string) {
    exists i :: 0 <= i <= |s| && StartsAt(s, i, pat)
  }

  /** An occurrence of a lower-case-fixed pattern survives lowering. */
  lemma LowerKeepsOccurrence(s: string, pat: string, i: int)
    requires IsLowerFixed(pat) && StartsAt(s, i, pat)
    ensures Contains(Lower(s), pat)
  {
    var pre, post := s[..i], s[i + |pat|..];
    assert s == pre + pat + post;
    LowerAppend(pre + pat, post);
    LowerAppend(pre, pat);
    LowerOfFixed(pat);
    var j := |Lower(pre)|;
    assert Lower(s) == Lower(pre) + pat + Lower(post);
    assert StartsAt(Lower(s), j, pat);
  }

  /** `s.count(pat)`: occurrences counted left to right without overlap. */
  function Count(s: string, pat: string): nat
    requires |pat| > 0
    decreases |s|
  {
    if |s| < |pat| then 0
    else if s[..|pat|] == pat then 1 + Count(s[|pat|..], pat)
    else Count(s[1..], pat)
  }

  lemma {:induction false} CountPositiveIffContains(s: string, pat: string)
    requires |pat| > 0
    ensures Count(s, pat) > 0 <==> Contains(s, pat)
    decreases |s|
  {
    if |s| < |pat| {
    } else if s[..|pat|] == pat {
      assert StartsAt(s, 0, pat);
    } else {
      CountPositiveIffContains(s[1..], pat);
      if Contains(s, pat) {
        var i :| 0 <= i <= |s| && StartsAt(s, i, pat);
        assert i != 0;
        assert StartsAt(s[1..], i - 1, pat) by {
          assert s[1..][i - 1..i - 1 + |pat|] == s[i..i + |pat|];
        }
      }
      if Contains(s[1..], pat) {
        var i :| 0 <= i <= |s[1..]| && StartsAt(s[1..], i, pat);
        assert s[1..][i..i + |pat|] == s[i + 1..i + 1 + |pat|];
        assert StartsAt(s, i + 1, pat);
      }
    }
  }

  /** The largest `i < bound` at which `pat` starts, or -1. */
  function RFindBelow(s: string, pat: string, bound: int): (r: int)
    decreases bound
    ensures -1 <= r < bound || (r == -1 && bound <= 0)
    ensures r >= 0 ==> StartsAt(s, r, pat)
    ensures forall j :: r < j < bound ==> !StartsAt(s, j, pat)
  {
    if bound <= 0 then -1
    else if StartsAt(s, bound - 1, pat) then bound - 1
    else RFindBelow(s, pat, bound - 1)
  }

  /** `s.rfind(pat)` */
  function RFind(s: string, pat: string): (r: int)
    ensures r >= 0 ==> StartsAt(s, r, pat)
    ensures r >= 0 <==> Contains(s, pat)
    ensures forall j :: r < j <= |s| ==> !StartsAt(s, j, pat)
  {
    RFindBelow(s, pat, |s| + 1)
  }

  /** Python's normalisation of a slice bound against a length `n`. */
  function SliceBound(i: int, n: nat): (r: nat)
    ensures r <= n
  {
    if i < 0 then (if i + n < 0 then 0 else i + n) else if i > n then n else i
  }

  /** `s[:i]` */
  function Head(s: string, i: int): (r: string)
    ensures r == s[..SliceBound(i, |s|)]
  {
    s[..SliceBound(i, |s|)]
  }

  /** `s[i:]` */
  function Tail(s: string, i: int): (r: string)
    ensures r == s[SliceBound(i, |s|)..]
  {
    s[SliceBound(i, |s|)..]
  }

  /** Number of leading whitespace characters of `s`. */
  function LeadingSpaces(s: string): (n: nat)
    ensures n <= |s|
    ensures forall i :: 0 <= i < n ==> IsSpace(s[i])
    ensures n < |s| ==> !IsSpace(s[n])
  {
    if s == [] || !IsSpace(s[0]) then 0 else 1 + LeadingSpaces(s[1..])
  }

  /** Length of `s` without its trailing whitespace. */
  function TrimmedLength(s: string): (n: nat)
    ensures n <= |s|
    ensures forall i :: n <= i < |s| ==> IsSpace(s[i])
    ensures n > 0 ==> !IsSpace(s[n - 1])
  {
    if s == [] || !IsSpace(s[|s| - 1]) then |s| else TrimmedLength(s[..|s| - 1])
  }

  /** `s.lstrip()` */
  function LStrip(s: string): string {
    s[LeadingSpaces(s)..]
  }

  /** `s.rstrip()` */
  function RStrip(s: string): string {
    s[..TrimmedLength(s)]
  }

  /** `s.strip()` */
  function Strip(s: string): string {
    RStrip(LStrip(s))
  }

  /** Number of leading characters of `s` that are not whitespace. */
  function WordLen(s: string): (n: nat)
    ensures n <= |s|
    ensures forall i :: 0 <= i < n ==> !IsSpace(s[i])
    ensures n < |s| ==> IsSpace(s[n])
  {
    if s == [] || IsSpace(s[0]) then 0 else 1 + WordLen(s[1..])
  }

  /** `s.split()`: the maximal runs of non-whitespace characters, in order. */
  function Split(s: string): (r: seq<string>)
    decreases |s|
    ensures forall k :: 0 <= k < |r| ==> r[k] != [] && forall i :: 0 <= i < |r[k]| ==> !IsSpace(r[k][i])
  {
    var t := LStrip(s);
    if t == [] then []
    else
      var n := WordLen(t);
      [t[..n]] + Split(t[n..])
  }

  /** Number of leading characters of `s` that do not end a line. */
  function LineLen(s: string): (n: nat)
    ensures n <= |s|
    ensures forall i :: 0 <= i < n ==> !IsLineBoundary(s[i])
    ensures n < |s| ==> IsLineBoundary(s[n])
  {
    if s == [] || IsLineBoundary(s[0]) then 0 else 1 + LineLen(s[1..])
  }

  /** `s.splitlines()`: "\r\n" ends one line, and a final line break does not
      start an empty last line. */
  function SplitLines(s: string): seq<string>
    decreases |s|
  {
    if s == [] then []
    else
      var n := LineLen(s);
      if n == |s| then [s]
      else
        var skip := if s[n] == '\r' && n + 1 < |s| && s[n + 1] == '\n' then 2 else 1;
        [s[..n]] + SplitLines(s[n + skip..])
  }

  /** `sep.join(parts)` */
  function Join(sep: string, parts: seq<string>): string {
    if parts == [] then []
    else if |parts| == 1 then parts[0]
    else parts[0] + sep + Join(sep, parts[1..])
  }

  /** `str(n)` for a natural number: its decimal digits. */
  function NatToString(n: nat): (r: string)
    ensures |r| > 0
  {
    var d := ['0', '1', '2', '3', '4', '5', '6', '7', '8', '9'];
    if n < 10 then [d[n]] else NatToString(n / 10) + [d[n % 10]]
  }
}
