/** `eesizer/sim/netlist_builders.py`: removing `.control ... .endc` blocks
    from a netlist and inserting a fresh block that runs one analysis and
    writes the chosen signals with `wrdata`. */
module NetlistBuilders {
  import opened Wrappers
  import opened Text

  // The pattern `^\s*\.control[\s\S]*?\.endc\s*$` under MULTILINE, matched
  // at absolute positions of the netlist text.

  /** `^`: the start of the text or just after a "\n". */
  predicate LineStartAt(s: string, p: nat)
    requires p <= |s|
  {
    p == 0 || s[p - 1] == '\n'
  }

  /** `$`: the end of the text or just before a "\n". */
  predicate DollarAt(s: string, j: nat)
    requires j <= |s|
  {
    j == |s| || s[j] == '\n'
  }

  /** End of the run of whitespace starting at `i` (what a greedy `\s*` takes). */
  function WsEnd(s: string, i: nat): (j: nat)
    requires i <= |s|
    ensures i <= j <= |s|
    ensures forall k :: i <= k < j ==> IsSpace(s[k])
    ensures j < |s| ==> !IsSpace(s[j])
    decreases |s| - i
  {
    if i < |s| && IsSpace(s[i]) then WsEnd(s, i + 1) else i
  }

  /** Backtracking of a greedy `\s*$` that has taken `lo..hi`: the largest
      `j` in that range where `$` holds. */
  function DollarBack(s: string, lo: nat, hi: nat): (r: Option<nat>)
    requires lo <= hi <= |s|
    ensures r.Some? ==> lo <= r.value <= hi && DollarAt(s, r.value)
    ensures r.Some? ==> forall j :: r.value < j <= hi ==> !DollarAt(s, j)
    ensures r.None? ==> forall j :: lo <= j <= hi ==> !DollarAt(s, j)
    decreases hi - lo
  {
    if DollarAt(s, hi) then Some(hi)
    else if hi == lo then None
    else DollarBack(s, lo, hi - 1)
  }

  /** End of a match of `\.endc\s*$` at `k`, if there is one. */
  function EndcAt(s: string, k: nat): (r: Option<nat>)
    requires k <= |s|
    ensures r.Some? ==> StartsAt(s, k, ".endc") && k + 5 <= r.value <= |s| && DollarAt(s, r.value)
  {
    if StartsAt(s, k, ".endc") then DollarBack(s, k + 5, WsEnd(s, k + 5)) else None
  }

  /** Lazy `[\s\S]*?\.endc\s*$` from `k`: the first `k' >= k` where the rest
      matches, and where that match ends. */
  function LazyEnd(s: string, k: nat): (r: Option<nat>)
    requires k <= |s|
    ensures r.Some? ==> k + 5 <= r.value <= |s| && DollarAt(s, r.value)
    decreases |s| - k
  {
    if EndcAt(s, k).Some? then EndcAt(s, k)
    else if k == |s| then None
    else LazyEnd(s, k + 1)
  }

  /** End of the match of the control-block pattern starting at `p`, if any.
      `\s*` must stop at the end of the whitespace run, since "." is not
      whitespace. */
  function MatchAt(s: string, p: nat): (r: Option<nat>)
    requires p <= |s|
    ensures r.Some? ==> p + 13 <= r.value <= |s| && DollarAt(s, r.value)
    ensures r.Some? ==> LineStartAt(s, p) && StartsAt(s, WsEnd(s, p), ".control")
  {
    if !LineStartAt(s, p) then None
    else
      var q := WsEnd(s, p);
      if StartsAt(s, q, ".control") then LazyEnd(s, q + 8) else None
  }

  /** `re.sub` from position `p` on: a match is dropped and the scan resumes
      at its end; elsewhere one character is kept. */
  function StripFrom(s: string, p: nat): string
    requires p <= |s|
    decreases |s| - p
  {
    if p == |s| then []
    else
      match MatchAt(s, p)
      case Some(e) => StripFrom(s, e)
      case None => [s[p]] + StripFrom(s, p + 1)
  }

  /** `strip_control_blocks(netlist_text)` */
  function StripControlBlocks(netlistText: string): string {
    StripFrom(netlistText, 0)
  }

  lemma {:induction false} StripFromShorter(s: string, p: nat)
    requires p <= |s|
    ensures |StripFrom(s, p)| <= |s| - p
    decreases |s| - p
  {
    if p < |s| {
      match MatchAt(s, p)
      case Some(e) => StripFromShorter(s, e);
      case None => StripFromShorter(s, p + 1);
    }
  }

  lemma {:induction false} StripFromWithoutControl(s: string, p: nat)
    requires p <= |s|
    requires !Contains(s, ".control")
    ensures StripFrom(s, p) == s[p..]
    decreases |s| - p
  {
    if p < |s| {
      assert !StartsAt(s, WsEnd(s, p), ".control");
      StripFromWithoutControl(s, p + 1);
      assert s[p..] == [s[p]] + s[p + 1..];
    }
  }

  /** Stripping never lengthens the netlist, and a netlist without ".control"
      comes back unchanged. */
  lemma StripBounds(s: string)
    ensures |StripControlBlocks(s)| <= |s|
    ensures !Contains(s, ".control") ==> StripControlBlocks(s) == s
  {
    StripFromShorter(s, 0);
    if !Contains(s, ".control") {
      StripFromWithoutControl(s, 0);
    }
  }

  // Idempotence of strip_control_blocks: a stripped text holds no match of
  // the pattern, and a text without a match is stripped to itself.

  /** Every character of `s[i..j]` is whitespace. */
  predicate AllSpace(s: string, i: nat, j: nat)
    requires i <= j <= |s|
  {
    forall m :: i <= m < j ==> IsSpace(s[m])
  }

  /** A match of the control-block pattern in parts: the line starts at `p`,
      whitespace runs up to ".control" at `q`, ".endc" sits at `k`, and
      whitespace runs from its end to a line end at `j`. */
  predicate BlockAt(s: string, p: nat, q: nat, k: nat, j: nat) {
    && p <= q && q + 8 <= k && k + 5 <= j <= |s|
    && LineStartAt(s, p) && AllSpace(s, p, q) && StartsAt(s, q, ".control")
    && StartsAt(s, k, ".endc") && AllSpace(s, k + 5, j) && DollarAt(s, j)
  }

  lemma {:induction false} WsEndOver(s: string, i: nat, j: nat)
    requires i <= j < |s| && AllSpace(s, i, j) && !IsSpace(s[j])
    ensures WsEnd(s, i) == j
    decreases j - i
  {
    if i < j {
      WsEndOver(s, i + 1, j);
    }
  }

  lemma {:induction false} WsEndPast(s: string, i: nat, j: nat)
    requires i <= j <= |s| && AllSpace(s, i, j)
    ensures j <= WsEnd(s, i)
    decreases j - i
  {
    if i < j {
      WsEndPast(s, i + 1, j);
    }
  }

  lemma {:induction false} LazyEndWitness(s: string, k0: nat) returns (k: nat)
    requires k0 <= |s| && LazyEnd(s, k0).Some?
    ensures k0 <= k <= |s| && EndcAt(s, k).Some?
    decreases |s| - k0
  {
    if EndcAt(s, k0).Some? {
      k := k0;
    } else {
      k := LazyEndWitness(s, k0 + 1);
    }
  }

  lemma {:induction false} LazyEndReaches(s: string, k0: nat, k: nat)
    requires k0 <= k <= |s| && EndcAt(s, k).Some?
    ensures LazyEnd(s, k0).Some?
    decreases k - k0
  {
    if k0 < k && EndcAt(s, k0).None? {
      LazyEndReaches(s, k0 + 1, k);
    }
  }

  /** A match found by the scanner has the parts of `BlockAt`. */
  lemma MatchIsBlock(s: string, p: nat) returns (q: nat, k: nat, j: nat)
    requires p <= |s| && MatchAt(s, p).Some?
    ensures BlockAt(s, p, q, k, j)
  {
    q := WsEnd(s, p);
    k := LazyEndWitness(s, q + 8);
    j := DollarBack(s, k + 5, WsEnd(s, k + 5)).value;
  }

  /** Conversely, the parts of `BlockAt` make the scanner find a match. */
  lemma BlockIsMatch(s: string, p: nat, q: nat, k: nat, j: nat)
    requires BlockAt(s, p, q, k, j)
    ensures MatchAt(s, p).Some?
  {
    assert s[q] == ".control"[0];
    WsEndOver(s, p, q);
    WsEndPast(s, k + 5, j);
    assert DollarBack(s, k + 5, WsEnd(s, k + 5)).Some?;
    assert EndcAt(s, k).Some?;
    LazyEndReaches(s, q + 8, k);
    assert LazyEnd(s, WsEnd(s, p) + 8).Some?;
  }

  /** The positions of `s` whose characters the scan from `p` keeps. */
  ghost function KeptFrom(s: string, p: nat): (K: seq<nat>)
    requires p <= |s|
    ensures forall i :: 0 <= i < |K| ==> p <= K[i] < |s|
    decreases |s| - p
  {
    if p == |s| then []
    else
      match MatchAt(s, p)
      case Some(e) => KeptFrom(s, e)
      case None => [p] + KeptFrom(s, p + 1)
  }

  /** `t` is made of the characters of `s` at the increasing positions `K`;
      each stretch of `s` left out between two kept characters, or after the
      last one, has a "\n" on both kept sides. */
  ghost predicate Tracks(s: string, t: string, K: seq<nat>) {
    && |K| == |t|
    && (forall i :: 0 <= i < |K| ==> K[i] < |s| && t[i] == s[K[i]])
    && (forall i, i' :: 0 <= i < i' < |K| ==> K[i] < K[i'])
    && (forall i :: 0 < i < |K| && K[i - 1] + 1 < K[i] ==> s[K[i - 1]] == '\n' && s[K[i]] == '\n')
    && (0 < |K| && K[|K| - 1] + 1 < |s| ==> s[K[|K| - 1]] == '\n')
  }

  /** Keeping one more character in front preserves `Tracks`, when a
      stretch left out right after it starts a new line. */
  lemma TracksCons(s: string, t: string, K: seq<nat>, p: nat)
    requires Tracks(s, t, K) && p < |s|
    requires forall i :: 0 <= i < |K| ==> p < K[i]
    requires K != [] && p + 1 < K[0] ==> s[p] == '\n' && s[K[0]] == '\n'
    requires K == [] && p + 1 < |s| ==> s[p] == '\n'
    ensures Tracks(s, [s[p]] + t, [p] + K)
  {
    var K1, t1 := [p] + K, [s[p]] + t;
    forall i, i' | 0 <= i < i' < |K1|
      ensures K1[i] < K1[i']
    {
      if i > 0 {
        assert K1[i] == K[i - 1] && K1[i'] == K[i' - 1];
      }
    }
    forall i | 0 < i < |K1| && K1[i - 1] + 1 < K1[i]
      ensures s[K1[i - 1]] == '\n' && s[K1[i]] == '\n'
    {
      if i > 1 {
        assert K1[i - 1] == K[i - 2] && K1[i] == K[i - 1];
      }
    }
  }

  /** The scan keeps only positions where no match starts. */
  lemma {:induction false} KeptUnmatched(s: string, p: nat)
    requires p <= |s|
    ensures forall i :: 0 <= i < |KeptFrom(s, p)| ==> MatchAt(s, KeptFrom(s, p)[i]).None?
    decreases |s| - p
  {
    if p < |s| {
      match MatchAt(s, p)
      case Some(e) =>
        KeptUnmatched(s, e);
      case None =>
        KeptUnmatched(s, p + 1);
        assert KeptFrom(s, p) == [p] + KeptFrom(s, p + 1);
    }
  }

  /** When the scan does not keep the character at `p`, a match starts there,
      so a line starts there, and the first character kept after the match
      is "\n". */
  lemma {:induction false} KeptFirst(s: string, p: nat)
    requires p <= |s|
    ensures p < |s| && (KeptFrom(s, p) == [] || p < KeptFrom(s, p)[0]) ==> LineStartAt(s, p)
    ensures KeptFrom(s, p) != [] && p < KeptFrom(s, p)[0] < |s| ==> s[KeptFrom(s, p)[0]] == '\n'
    decreases |s| - p
  {
    if p < |s| {
      match MatchAt(s, p)
      case Some(e) =>
        KeptFirst(s, e);
      case None =>
    }
  }

  /** Where no match starts, the scan keeps one character and moves on. */
  lemma KeptStep(s: string, p: nat)
    requires p < |s| && MatchAt(s, p).None?
    ensures KeptFrom(s, p) == [p] + KeptFrom(s, p + 1)
    ensures StripFrom(s, p) == [s[p]] + StripFrom(s, p + 1)
  {
  }

  lemma TracksStep(s: string, p: nat)
    requires p < |s| && MatchAt(s, p).None?
    requires Tracks(s, StripFrom(s, p + 1), KeptFrom(s, p + 1))
    ensures Tracks(s, StripFrom(s, p), KeptFrom(s, p))
  {
    KeptFirst(s, p + 1);
    KeptStep(s, p);
    TracksCons(s, StripFrom(s, p + 1), KeptFrom(s, p + 1), p);
  }

  /** The stripped text tracks the original at the kept positions. */
  lemma {:induction false} KeptFacts(s: string, p: nat)
    requires p <= |s|
    ensures Tracks(s, StripFrom(s, p), KeptFrom(s, p))
    decreases |s| - p
  {
    if p < |s| {
      match MatchAt(s, p)
      case Some(e) =>
        KeptFacts(s, e);
      case None =>
        KeptFacts(s, p + 1);
        TracksStep(s, p);
    }
  }

  /** Positions kept around characters other than "\n" are consecutive. */
  lemma {:induction false} KeptRun(s: string, t: string, K: seq<nat>, a: nat, b: nat)
    requires Tracks(s, t, K) && a <= b < |t|
    requires forall m :: a <= m < b ==> t[m] != '\n'
    ensures forall m :: a <= m <= b ==> K[m] == K[a] + (m - a)
    decreases b - a
  {
    if a < b {
      KeptRun(s, t, K, a, b - 1);
      assert K[b - 1] < K[b] && t[b - 1] == s[K[b - 1]];
    }
  }

  lemma StartsAtKept(s: string, t: string, K: seq<nat>, a: nat, w: string)
    requires Tracks(s, t, K) && StartsAt(t, a, w) && |w| > 0
    requires forall m :: a <= m < a + |w| ==> K[m] == K[a] + (m - a)
    ensures StartsAt(s, K[a], w)
  {
    forall m | 0 <= m < |w|
      ensures K[a] + m < |s| && s[K[a] + m] == w[m]
    {
      assert K[a + m] == K[a] + m;
      assert t[a + m] == t[a..a + |w|][m];
    }
    assert K[a + (|w| - 1)] == K[a] + (|w| - 1) && K[a + (|w| - 1)] < |s|;
    assert s[K[a]..K[a] + |w|] == w;
  }

  /** Going back from ".control" over whitespace in the stripped text, a kept
      position of the original text is found where a line starts and from
      which only whitespace leads to ".control". */
  lemma {:induction false} LineStartBack(s: string, t: string, K: seq<nat>, p: nat, q: nat, i: nat) returns (h: nat)
    requires Tracks(s, t, K) && (0 < |K| && 0 < K[0] ==> s[K[0]] == '\n')
    requires p <= i <= q < |t| && LineStartAt(t, p) && AllSpace(t, p, q) && t[q] == '.'
    requires forall m :: i <= m <= q ==> K[m] == K[i] + (m - i)
    ensures h <= q && K[h] <= K[q] <= |s| && LineStartAt(s, K[h]) && AllSpace(s, K[h], K[q])
    decreases i
  {
    if i == 0 && K[0] == 0 {
      h := 0;
    } else if i == 0 || K[i - 1] + 1 < K[i] {
      h := i + 1;
    } else if i == p {
      h := i;
    } else {
      h := LineStartBack(s, t, K, p, q, i - 1);
      return;
    }
    forall m | K[h] <= m < K[q]
      ensures IsSpace(s[m])
    {
      assert K[h + (m - K[h])] == m;
    }
  }

  /** Going forward from ".endc" over whitespace in the stripped text, a line
      end of the original text is found with only whitespace before it. */
  lemma {:induction false} TailForward(s: string, t: string, K: seq<nat>, k: nat, j: nat, i: nat) returns (e: nat)
    requires Tracks(s, t, K)
    requires k + 5 <= j <= |t| && StartsAt(t, k, ".endc") && AllSpace(t, k + 5, j) && DollarAt(t, j)
    requires k + 4 <= i < |t| && i <= j
    requires forall m :: k + 4 <= m <= i ==> K[m] == K[k + 4] + (m - (k + 4))
    ensures K[k + 4] + 1 <= e <= |s| && AllSpace(s, K[k + 4] + 1, e) && DollarAt(s, e)
    decreases |t| - i
  {
    assert t[k + 4] == t[k..k + 5][4];
    if i < j && i + 1 < |t| && K[i] + 1 == K[i + 1] {
      e := TailForward(s, t, K, k, j, i + 1);
      return;
    } else if i < j && i + 1 == |t| && K[i] + 1 == |s| {
      e := |s|;
    } else {
      e := K[i];
    }
    forall m | K[k + 4] + 1 <= m < e
      ensures IsSpace(s[m])
    {
      assert K[k + 4 + (m - K[k + 4])] == m;
    }
  }

  lemma NoNewlineIn(t: string, a: nat, w: string)
    requires StartsAt(t, a, w) && '\n' !in w
    ensures forall m :: a <= m < a + |w| ==> t[m] != '\n'
  {
    forall m | a <= m < a + |w|
      ensures t[m] != '\n'
    {
      assert t[m] == t[a..a + |w|][m - a] && w[m - a] in w;
    }
  }

  /** A block in a text that tracks `s` leads back to a match of `s` at one of
      the tracked positions, since ".control" and ".endc" hold no "\n". */
  lemma BlockBack(s: string, t: string, K: seq<nat>, p: nat, q: nat, k: nat, j: nat) returns (h: nat)
    requires Tracks(s, t, K) && (0 < |K| && 0 < K[0] ==> s[K[0]] == '\n')
    requires BlockAt(t, p, q, k, j)
    ensures h < |K| && MatchAt(s, K[h]).Some?
  {
    assert t[q] == t[q..q + 8][0];
    NoNewlineIn(t, q, ".control");
    NoNewlineIn(t, k, ".endc");
    KeptRun(s, t, K, q, q + 7);
    KeptRun(s, t, K, k, k + 4);
    StartsAtKept(s, t, K, q, ".control");
    StartsAtKept(s, t, K, k, ".endc");
    assert K[q + 7] < K[k];
    h := LineStartBack(s, t, K, p, q, q);
    var e := TailForward(s, t, K, k, j, k + 4);
    BlockIsMatch(s, K[h], K[q], K[k], e);
  }

  /** No match of the pattern starts anywhere in a stripped text: it would
      lead back to a match at a position the scan kept. */
  lemma StrippedHasNoBlock(s: string, p: nat)
    requires p <= |StripControlBlocks(s)|
    ensures MatchAt(StripControlBlocks(s), p).None?
  {
    var t, K := StripFrom(s, 0), KeptFrom(s, 0);
    KeptFacts(s, 0);
    KeptUnmatched(s, 0);
    KeptFirst(s, 0);
    if MatchAt(t, p).Some? {
      var q, k, j := MatchIsBlock(t, p);
      var h := BlockBack(s, t, K, p, q, k, j);
      assert false;
    }
  }

  lemma {:induction false} CleanIsFixed(t: string, p: nat)
    requires p <= |t|
    requires forall p' :: p <= p' < |t| ==> MatchAt(t, p').None?
    ensures StripFrom(t, p) == t[p..]
    decreases |t| - p
  {
    if p < |t| {
      CleanIsFixed(t, p + 1);
      assert t[p..] == [t[p]] + t[p + 1..];
    }
  }

  /** `strip_control_blocks` is idempotent, as its documentation says. */
  lemma StripIdempotent(s: string)
    ensures StripControlBlocks(StripControlBlocks(s)) == StripControlBlocks(s)
  {
    var t := StripControlBlocks(s);
    forall p | 0 <= p < |t|
      ensures MatchAt(t, p).None?
    {
      StrippedHasNoBlock(s, p);
    }
    CleanIsFixed(t, 0);
  }

  // append_control_block

  const MissingEnd := "Netlist missing .end terminator"

  /** `append_control_block(netlist_text, control_block)` as written: the
      position of the last ".end" is searched in the lower-cased text and used
      to cut the original text. */
  function AppendControlBlockAsWritten(netlistText: string, controlBlock: string): Result<string, string> {
    if !Contains(netlistText, ".end") then Failure(MissingEnd)
    else
      var endIdx := RFind(Lower(netlistText), ".end");
      Success(Head(netlistText, endIdx) + controlBlock + Tail(netlistText, endIdx))
  }

  /** ".end" in any letter case at position `i` of the original text. */
  predicate EndAt(s: string, i: int) {
    0 <= i && i + 4 <= |s| && Lower(s[i..i + 4]) == ".end"
  }

  /** The largest `i < bound` with `EndAt(s, i)`, or -1. */
  function LastEndBelow(s: string, bound: int): (r: int)
    ensures -1 <= r && (r < bound || r == -1)
    ensures r >= 0 ==> EndAt(s, r)
    ensures forall j :: r < j < bound ==> !EndAt(s, j)
    decreases bound
  {
    if bound <= 0 then -1
    else if EndAt(s, bound - 1) then bound - 1
    else LastEndBelow(s, bound - 1)
  }

  function LastEnd(s: string): int {
    LastEndBelow(s, |s| + 1)
  }

  /** `append_control_block` as intended: the block goes right before the last
      ".end" of the text in any letter case, with positions taken in the text
      itself. */
  function AppendControlBlock(netlistText: string, controlBlock: string): Result<string, string> {
    if !Contains(netlistText, ".end") then Failure(MissingEnd)
    else
      var endIdx := LastEnd(netlistText);
      Success(Head(netlistText, endIdx) + controlBlock + Tail(netlistText, endIdx))
  }

  lemma EndIsEndAt(s: string, i: int)
    requires StartsAt(s, i, ".end")
    ensures EndAt(s, i)
  {
    assert IsLowerFixed(".end");
    LowerOfFixed(".end");
  }

  /** The insertion fails exactly when the text has no ".end" (in lower case
      letters). Otherwise the text is cut at a case-insensitive ".end" after
      which no other one starts: the text before the cut, then the block, then
      the ".end" and the rest, so that taking the block out gives the text
      back. */
  lemma AppendControlBlockPlacement(netlistText: string, controlBlock: string)
    ensures AppendControlBlock(netlistText, controlBlock).Failure? <==> !Contains(netlistText, ".end")
    ensures AppendControlBlock(netlistText, controlBlock).Failure? ==>
      AppendControlBlock(netlistText, controlBlock).error == MissingEnd
    ensures AppendControlBlock(netlistText, controlBlock).Success? ==>
      exists i :: 0 <= i <= |netlistText|
        && EndAt(netlistText, i)
        && (forall j :: i < j <= |netlistText| ==> !EndAt(netlistText, j))
        && AppendControlBlock(netlistText, controlBlock).value == netlistText[..i] + controlBlock + netlistText[i..]
  {
    if Contains(netlistText, ".end") {
      var k :| 0 <= k <= |netlistText| && StartsAt(netlistText, k, ".end");
      EndIsEndAt(netlistText, k);
      var i := LastEnd(netlistText);
      assert i >= k;
      assert AppendControlBlock(netlistText, controlBlock).value == netlistText[..i] + controlBlock + netlistText[i..];
    }
  }

  /** The presence check is case-sensitive although the search is not, so a
      netlist ending in ".END" is refused. */
  lemma UpperCaseEndRejected(netlistText: string, controlBlock: string)
    requires netlistText == "R1 a b 1k\n.END\n"
    ensures AppendControlBlock(netlistText, controlBlock) == Failure(MissingEnd)
    ensures AppendControlBlockAsWritten(netlistText, controlBlock) == Failure(MissingEnd)
  {
    assert 'e' !in netlistText;
    forall i | 0 <= i <= |netlistText|
      ensures !StartsAt(netlistText, i, ".end")
    {
      if i + 4 <= |netlistText| {
        assert netlistText[i..i + 4][1] == netlistText[i + 1] && netlistText[i + 1] in netlistText;
      }
    }
  }

  /** For a text without U+0130 the source's cut position is the intended
      one, so both definitions agree. */
  lemma AppendAsWrittenAgrees(netlistText: string, controlBlock: string)
    requires NoDottedCapitalI(netlistText)
    ensures AppendControlBlockAsWritten(netlistText, controlBlock) == AppendControlBlock(netlistText, controlBlock)
  {
    var s := netlistText;
    if Contains(s, ".end") {
      LoweredCutIsLastEnd(s);
    }
  }

  /** Without U+0130 the last ".end" of the lowered text sits where the last
      case-insensitive ".end" of the text does. */
  lemma LoweredCutIsLastEnd(s: string)
    requires NoDottedCapitalI(s)
    ensures RFind(Lower(s), ".end") == LastEnd(s)
  {
    var low := Lower(s);
    LowerKeepsPositionsLength(s);
    var a, b := RFind(low, ".end"), LastEnd(s);
    if a >= 0 {
      LoweredEndAt(s, a);
      assert a <= b;
    }
    if b >= 0 {
      LoweredEndAt(s, b);
      assert b <= a;
    }
  }

  lemma LoweredEndAt(s: string, j: int)
    requires NoDottedCapitalI(s) && 0 <= j <= |s|
    ensures StartsAt(Lower(s), j, ".end") <==> EndAt(s, j)
  {
    if j + 4 <= |s| {
      LowerSlice(s, j, j + 4);
    } else {
      LowerKeepsPositionsLength(s);
    }
  }

  /** The source's cut goes wrong once a U+0130 precedes the ".end": the
      lowered text is one character longer, the cut lands one character too
      late, and the block splits ".end" into "." and "end". */
  lemma AppendAsWrittenSplitsEnd(netlistText: string, controlBlock: string)
    requires netlistText == "\U{0130}\n.end"
    ensures AppendControlBlockAsWritten(netlistText, controlBlock) == Success("\U{0130}\n." + controlBlock + "end")
    ensures AppendControlBlock(netlistText, controlBlock) == Success("\U{0130}\n" + controlBlock + ".end")
  {
    var s := netlistText;
    assert StartsAt(s, 2, ".end");
    LoweredCutIsLate(s);
    LastEndOfExample(s);
    assert s[..3] == "\U{0130}\n." && s[3..] == "end";
    assert s[..2] == "\U{0130}\n" && s[2..] == ".end";
  }

  lemma LoweredCutIsLate(s: string)
    requires s == "\U{0130}\n.end"
    ensures RFind(Lower(s), ".end") == 3
  {
    LowerOfExample(s);
    assert StartsAt(Lower(s), 3, ".end");
  }

  lemma LowerOfExample(s: string)
    requires s == "\U{0130}\n.end"
    ensures Lower(s) == "i\U{0307}\n.end"
  {
    var capital, rest: string := ['\U{0130}'], "\n.end";
    assert s == capital + rest;
    LowerAppend(capital, rest);
    assert Lower(capital) == ['i', '\U{0307}'] by {
      assert capital[1..] == [];
    }
    assert IsLowerFixed(rest);
    LowerOfFixed(rest);
  }

  lemma LastEndOfExample(s: string)
    requires s == "\U{0130}\n.end"
    ensures LastEnd(s) == 2
  {
    assert StartsAt(s, 2, ".end");
    EndIsEndAt(s, 2);
  }

  // Building the simulation netlists.

  /** `_signals_to_str(signals)`: the non-empty signal names joined by " ". */
  function NonEmpty(signals: seq<string>): (r: seq<string>)
    ensures forall k :: 0 <= k < |r| ==> r[k] != []
    ensures |r| <= |signals|
  {
    if signals == [] then []
    else if signals[0] == [] then NonEmpty(signals[1..])
    else [signals[0]] + NonEmpty(signals[1..])
  }

  function SignalsToStr(signals: seq<string>): string {
    Join(" ", NonEmpty(signals))
  }

  predicate NoSpace(w: string) {
    forall i :: 0 <= i < |w| ==> !IsSpace(w[i])
  }

  lemma {:induction false} WordLenOfWord(w: string, rest: string)
    requires NoSpace(w)
    requires rest != [] && IsSpace(rest[0])
    ensures WordLen(w + rest) == |w|
  {
    if w != [] {
      assert (w + rest)[1..] == w[1..] + rest;
      WordLenOfWord(w[1..], rest);
    } else {
      assert w + rest == rest;
    }
  }

  lemma SplitSkipsSpace(r: string)
    ensures Split(" " + r) == Split(r)
  {
    assert (" " + r)[1..] == r;
    assert LStrip(" " + r) == LStrip(r);
  }

  lemma SplitOneWord(w: string)
    requires w != [] && NoSpace(w)
    ensures Split(w) == [w]
  {
    assert LStrip(w) == w;
    WordLenAll(w);
    assert w[..|w|] == w && w[|w|..] == [];
    assert Split([]) == [];
  }

  lemma SplitWordThen(w: string, rest: string)
    requires w != [] && NoSpace(w)
    ensures Split(w + " " + rest) == [w] + Split(rest)
  {
    var t := w + (" " + rest);
    assert w + " " + rest == t;
    WordLenOfWord(w, " " + rest);
    SplitAtWord(t, |w|);
    assert t[..|w|] == w;
    assert t[|w|..] == " " + rest;
    SplitSkipsSpace(rest);
  }

  /** A text that starts with a word of length `n` splits into that word and
      the split of what follows it. */
  lemma SplitAtWord(t: string, n: nat)
    requires t != [] && !IsSpace(t[0]) && WordLen(t) == n
    ensures Split(t) == [t[..n]] + Split(t[n..])
  {
    assert LeadingSpaces(t) == 0;
    assert LStrip(t) == t;
  }

  /** Splitting names joined by single spaces gives the names back, when
      every name is non-empty and holds no whitespace. */
  lemma {:induction false} SplitJoin(words: seq<string>)
    requires forall k :: 0 <= k < |words| ==> words[k] != [] && NoSpace(words[k])
    ensures Split(Join(" ", words)) == words
  {
    if words == [] {
    } else if |words| == 1 {
      assert Join(" ", words) == words[0];
      SplitOneWord(words[0]);
    } else {
      var w, rest := words[0], words[1..];
      assert Join(" ", words) == w + " " + Join(" ", rest);
      SplitWordThen(w, Join(" ", rest));
      SplitJoin(rest);
      assert [w] + rest == words;
    }
  }

  lemma {:induction false} WordLenAll(w: string)
    requires NoSpace(w)
    ensures WordLen(w) == |w|
  {
    if w != [] {
      WordLenAll(w[1..]);
    }
  }

  /** ngspice reads back the names the source wrote: the `wrdata` argument
      splits into exactly the non-empty signal names, in order, when no name
      holds whitespace. */
  lemma SignalsRoundTrip(signals: seq<string>)
    requires forall k :: 0 <= k < |signals| ==> NoSpace(signals[k])
    ensures Split(SignalsToStr(signals)) == NonEmpty(signals)
  {
    NonEmptyKeeps(signals);
    SplitJoin(NonEmpty(signals));
  }

  lemma {:induction false} NonEmptyKeeps(signals: seq<string>)
    ensures forall k :: 0 <= k < |NonEmpty(signals)| ==> NonEmpty(signals)[k] in signals
  {
    if signals != [] {
      NonEmptyKeeps(signals[1..]);
    }
  }

  /** The block the three builders insert. */
  function ControlBlock(cmd: string, outfile: string, sigs: string): string {
    "\n    .control\n      " + cmd + "\n      wrdata " + outfile + " " + sigs + "\n    .endc\n    "
  }

  /** Strip the old blocks, then insert one running `cmd`. */
  function BuildNetlist(baseNetlist: string, signals: seq<string>, outfile: string, cmd: string): Result<string, string> {
    AppendControlBlock(StripControlBlocks(baseNetlist), ControlBlock(cmd, outfile, SignalsToStr(signals)))
  }

  /** The build as the source writes it: on the insertion as written. */
  function BuildNetlistAsWritten(baseNetlist: string, signals: seq<string>, outfile: string, cmd: string): Result<string, string> {
    AppendControlBlockAsWritten(StripControlBlocks(baseNetlist), ControlBlock(cmd, outfile, SignalsToStr(signals)))
  }

  const AcOutfile := "output_ac.dat"
  const AcCmd := "ac dec 10 1 1e9"
  const TranOutfile := "output_tran.dat"
  const TranCmd := "tran 50n 500u"
  const DcOutfile := "output_dc.dat"
  const DcSweep := "dc Vcm 0 1.2 0.001"

  /** `build_ac_netlist(base_netlist, signals, outfile, ac_cmd)` */
  function BuildAcNetlist(baseNetlist: string, signals: seq<string>, outfile: string, acCmd: string): Result<string, string> {
    BuildNetlist(baseNetlist, signals, outfile, acCmd)
  }

  /** `build_tran_netlist(base_netlist, signals, outfile, tran_cmd)` */
  function BuildTranNetlist(baseNetlist: string, signals: seq<string>, outfile: string, tranCmd: string): Result<string, string> {
    BuildNetlist(baseNetlist, signals, outfile, tranCmd)
  }

  /** `build_dc_netlist(base_netlist, sweep_cmd, signals, outfile)`; a missing
      or empty signal list writes no signal. */
  function BuildDcNetlist(baseNetlist: string, sweepCmd: string, signals: Option<seq<string>>, outfile: string): Result<string, string> {
    var sigs := if signals.Some? then signals.value else [];
    BuildNetlist(baseNetlist, sigs, outfile, sweepCmd)
  }

  /** A build fails exactly when the netlist without its old blocks has no
      ".end"; otherwise the result is that netlist with the new block
      (command, output file, signals) placed just before its last ".end". */
  lemma BuildNetlistShape(baseNetlist: string, signals: seq<string>, outfile: string, cmd: string)
    ensures var clean := StripControlBlocks(baseNetlist);
      var r := BuildNetlist(baseNetlist, signals, outfile, cmd);
      && (r.Failure? <==> !Contains(clean, ".end"))
      && (r.Failure? ==> r.error == MissingEnd)
      && (r.Success? ==>
            exists i :: 0 <= i <= |clean| && EndAt(clean, i)
              && (forall j :: i < j <= |clean| ==> !EndAt(clean, j))
              && r.value == clean[..i] + ControlBlock(cmd, outfile, SignalsToStr(signals)) + clean[i..])
    ensures var clean := StripControlBlocks(baseNetlist);
      var w := BuildNetlistAsWritten(baseNetlist, signals, outfile, cmd);
      && (w.Failure? <==> !Contains(clean, ".end"))
      && (NoDottedCapitalI(clean) ==> w == BuildNetlist(baseNetlist, signals, outfile, cmd))
  {
    var clean, block := StripControlBlocks(baseNetlist), ControlBlock(cmd, outfile, SignalsToStr(signals));
    AppendControlBlockPlacement(clean, block);
    if NoDottedCapitalI(clean) {
      AppendAsWrittenAgrees(clean, block);
    }
  }

  /** The source's build splits the ".end" of "\U{0130}\n.end", which holds
      no control block, while the corrected build keeps it whole. */
  lemma BuildAsWrittenSplitsEnd(baseNetlist: string, signals: seq<string>, outfile: string, cmd: string)
    requires baseNetlist == "\U{0130}\n.end"
    ensures var block := ControlBlock(cmd, outfile, SignalsToStr(signals));
      && BuildNetlistAsWritten(baseNetlist, signals, outfile, cmd) == Success("\U{0130}\n." + block + "end")
      && BuildNetlist(baseNetlist, signals, outfile, cmd) == Success("\U{0130}\n" + block + ".end")
  {
    StripBounds(baseNetlist);
    AppendAsWrittenSplitsEnd(baseNetlist, ControlBlock(cmd, outfile, SignalsToStr(signals)));
  }

  /** The lazy search for ".endc" passes over text without ".". */
  lemma {:induction false} LazyEndSkips(s: string, k0: nat, k: nat)
    requires k0 <= k <= |s|
    requires forall m :: k0 <= m < k ==> s[m] != '.'
    ensures LazyEnd(s, k0) == LazyEnd(s, k)
    decreases k - k0
  {
    if k0 < k {
      assert !StartsAt(s, k0, ".endc") by {
        if k0 + 5 <= |s| {
          assert s[k0..k0 + 5][0] == s[k0];
        }
      }
      LazyEndSkips(s, k0 + 1, k);
    }
  }

  // A build is not idempotent: a netlist built once, and the result built
  // again.

  lemma BuildOnce(x: string, signals: seq<string>, outfile: string, cmd: string)
    requires x == "\n.end"
    ensures BuildNetlist(x, signals, outfile, cmd)
      == Success("\n" + ControlBlock(cmd, outfile, SignalsToStr(signals)) + ".end")
  {
    StripBounds(x);
    assert StartsAt(x, 1, ".end");
    EndIsEndAt(x, 1);
    assert !EndAt(x, 2) && !EndAt(x, 3) && !EndAt(x, 4) && !EndAt(x, 5);
    assert LastEnd(x) == 1;
    assert x[..1] == "\n" && x[1..] == ".end";
  }

  /** The layout of "\n" + block + ".end" whose block body, between ".control"
      and ".endc", is `n` characters without a ".". */
  predicate BuiltShape(y: string, n: nat) {
    && |y| == n + 28 && y[..6] == "\n\n    " && y[6..14] == ".control"
    && (forall m :: 14 <= m < n + 14 ==> y[m] != '.')
    && y[n + 14..n + 19] == ".endc" && y[n + 19..] == "\n    .end"
  }

  lemma ShapeOf(a: string, b: string, mid: string, d: string, e: string)
    requires a == "\n\n    " && b == ".control" && '.' !in mid
    requires d == ".endc" && e == "\n    .end"
    ensures BuiltShape(a + b + mid + d + e, |mid|)
  {
    var y := a + b + mid + d + e;
    var n := |mid|;
    assert y[..6] == a && y[6..14] == b;
    forall m | 14 <= m < n + 14 ensures y[m] != '.' {
      assert y[m] == mid[m - 14];
    }
    assert y[n + 14..n + 19] == d && y[n + 19..] == e;
  }

  lemma ShapeHead(y: string, n: nat)
    requires BuiltShape(y, n)
    ensures WsEnd(y, 0) == 6 && StartsAt(y, 6, ".control")
  {
    assert forall m :: 0 <= m < 6 ==> y[m] == y[..6][m];
    assert y[6] == y[6..14][0];
    WsEndOver(y, 0, 6);
  }

  lemma ShapeTail(y: string, n: nat)
    requires BuiltShape(y, n)
    ensures EndcAt(y, n + 14) == Some(n + 19)
  {
    assert StartsAt(y, n + 14, ".endc");
    forall m | n + 19 <= m < n + 28 ensures y[m] == y[n + 19..][m - (n + 19)] {}
    assert AllSpace(y, n + 19, n + 24);
    WsEndOver(y, n + 19, n + 24);
    assert DollarAt(y, n + 19);
    assert forall j :: n + 19 < j <= n + 24 ==> !DollarAt(y, j);
  }

  /** Stripping the built shape removes the block with the newline in front
      of it, and keeps the indentation that follows it. */
  lemma StripShape(y: string, n: nat)
    requires BuiltShape(y, n)
    ensures StripControlBlocks(y) == y[n + 19..]
  {
    ShapeHead(y, n);
    LazyEndSkips(y, 14, n + 14);
    ShapeTail(y, n);
    assert LazyEnd(y, n + 14) == Some(n + 19);
    assert MatchAt(y, 0) == Some(n + 19);
    CleanIsFixed(y, n + 19);
  }

  lemma AppendAtIndent(z: string, b: string)
    requires z == "\n    .end"
    ensures AppendControlBlock(z, b) == Success("\n    " + b + ".end")
  {
    assert StartsAt(z, 5, ".end");
    EndIsEndAt(z, 5);
    assert LastEnd(z) == 5;
    assert z[..5] == "\n    " && z[5..] == ".end";
  }

  lemma Regroup(nl: string, i1: string, ctl: string, i2: string, body: string,
                i3: string, endc: string, i4: string, fin: string)
    ensures nl + (i1 + ctl + i2 + body + i3 + endc + i4) + fin
         == (nl + i1) + ctl + (i2 + body + i3) + endc + (i4 + fin)
  {
  }

  lemma BlockPieces(cmd: string, outfile: string, sigs: string)
    ensures ControlBlock(cmd, outfile, sigs)
         == "\n    " + ".control" + "\n      " + (cmd + "\n      wrdata " + outfile + " " + sigs)
            + "\n    " + ".endc" + "\n    "
  {
    assert "\n    .control\n      " == "\n    " + ".control" + "\n      ";
    assert "\n    .endc\n    " == "\n    " + ".endc" + "\n    ";
  }

  /** A built netlist, laid out by its control block. */
  lemma BlockShape(cmd: string, outfile: string, sigs: string)
    requires '.' !in cmd && '.' !in outfile && '.' !in sigs
    ensures BuiltShape("\n" + ControlBlock(cmd, outfile, sigs) + ".end",
                       |cmd| + |outfile| + |sigs| + 27)
  {
    var body := cmd + "\n      wrdata " + outfile + " " + sigs;
    var mid := "\n      " + body + "\n    ";
    assert '.' !in body;
    assert '.' !in mid;
    BlockPieces(cmd, outfile, sigs);
    Regroup("\n", "\n    ", ".control", "\n      ", body, "\n    ", ".endc", "\n    ", ".end");
    assert "\n" + "\n    " == "\n\n    " && "\n    " + ".end" == "\n    .end";
    ShapeOf("\n\n    ", ".control", mid, ".endc", "\n    .end");
  }

  /** Building twice is not building once: the second build strips the first
      block but leaves "\n    " in front of ".end", so the text before the new
      block differs. */
  lemma BuildTwiceDiffers(x: string, signals: seq<string>, outfile: string, cmd: string)
    requires x == "\n.end"
    requires '.' !in cmd && '.' !in outfile && '.' !in SignalsToStr(signals)
    ensures var b := ControlBlock(cmd, outfile, SignalsToStr(signals));
      && BuildNetlist(x, signals, outfile, cmd) == Success("\n" + b + ".end")
      && BuildNetlist("\n" + b + ".end", signals, outfile, cmd) == Success("\n    " + b + ".end")
  {
    var sigs := SignalsToStr(signals);
    var b := ControlBlock(cmd, outfile, sigs);
    var n := |cmd| + |outfile| + |sigs| + 27;
    BuildOnce(x, signals, outfile, cmd);
    BlockShape(cmd, outfile, sigs);
    StripShape("\n" + b + ".end", n);
    AppendAtIndent(("\n" + b + ".end")[n + 19..], b);
  }
}
