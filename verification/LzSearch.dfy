/**
 The match search of the LZ77 coder (libgfx/host-tools/lz.c): the brute-force scan over all
 offsets, the chain of equal symbol pairs of the fast coder, and the greedy parse both drive.
 */
module LzSearch {
  import opened Bytes
  import opened LzFormat

  const MAX_OFFSET: nat := 100000   // LZ_MAX_OFFSET

  predicate Same(s: seq<byte>, p: nat, q: nat, i: nat) { p + i < |s| && q + i < |s| && s[p + i] == s[q + i] }

  // _LZ_StringCompare
  function Match(s: seq<byte>, p: nat, q: nat, len: nat, max: nat): (r: nat)
    requires p + max <= |s| && q + max <= |s|
    ensures len <= max ==> len <= r <= max
    ensures len > max ==> r == len
    decreases max - len
  {
    if len < max && s[p + len] == s[q + len] then Match(s, p, q, len + 1, max) else len
  }

  lemma {:induction false} MatchFacts(s: seq<byte>, p: nat, q: nat, len: nat, max: nat)
    requires p + max <= |s| && q + max <= |s|
    ensures var r := Match(s, p, q, len, max);
            (forall i | len <= i < r :: Same(s, p, q, i)) && (r < max ==> !Same(s, p, q, r))
    decreases max - len
  {
    if len < max && s[p + len] == s[q + len] { MatchFacts(s, p, q, len + 1, max); }
  }

  // Whatever agrees up to len is part of the match.
  lemma {:induction false} MatchReaches(s: seq<byte>, p: nat, q: nat, k: nat, len: nat, max: nat)
    requires p + max <= |s| && q + max <= |s| && k <= len <= max && (forall i | k <= i < len :: Same(s, p, q, i))
    ensures Match(s, p, q, k, max) == Match(s, p, q, len, max)
    decreases len - k
  {
    if k < len {
      assert Same(s, p, q, k);
      MatchReaches(s, p, q, k + 1, len, max);
    }
  }

  function Limit(s: seq<byte>, pos: nat, off: nat): nat
    requires pos <= |s|
  {
    if |s| - pos < off then |s| - pos else off
  }

  // The length of the match at distance off; a match never overlaps the current position.
  function MatchAt(s: seq<byte>, pos: nat, off: nat): (r: nat)
    requires off <= pos <= |s|
    ensures r <= off && r <= |s| - pos
  {
    Match(s, pos, pos - off, 0, Limit(s, pos, off))
  }

  datatype Best = Best(len: nat, off: nat)

  function Better(b: Best, len: nat, off: nat): Best { if len > b.len then Best(len, off) else b }

  // Every offset from o to hi, nearest first.
  function Scan(s: seq<byte>, pos: nat, o: nat, hi: nat, b: Best): Best
    requires hi <= pos <= |s|
    decreases hi + 1 - o
  {
    if o > hi then b else Scan(s, pos, o + 1, hi, Better(b, MatchAt(s, pos, o), o))
  }

  function Window(pos: nat, w: nat): nat { if pos > w then w else pos }

  function Longest(s: seq<byte>, pos: nat, w: nat): Best
    requires pos <= |s|
  {
    Scan(s, pos, 3, Window(pos, w), Best(3, 0))
  }

  // ---- what the scan finds ----

  // b is the longest match over 3 bytes among the offsets below o, the nearest one on ties.
  ghost predicate IsLongest(s: seq<byte>, pos: nat, o: nat, b: Best)
    requires pos <= |s|
  {
    && b.len >= 3
    && (b.len == 3 ==> b.off == 0)
    && (b.len > 3 ==> 3 <= b.off < o && b.off <= pos && MatchAt(s, pos, b.off) == b.len)
    && (forall i | 3 <= i < o && i <= pos :: MatchAt(s, pos, i) <= b.len)
    && (forall i | 3 <= i < b.off && i <= pos :: MatchAt(s, pos, i) < b.len)
  }

  lemma {:induction false} ScanFinds(s: seq<byte>, pos: nat, o: nat, hi: nat, b: Best)
    requires hi <= pos <= |s| && 3 <= o && IsLongest(s, pos, o, b)
    ensures IsLongest(s, pos, if o > hi + 1 then o else hi + 1, Scan(s, pos, o, hi, b))
    decreases hi + 1 - o
  {
    hide MatchAt;
    if o <= hi {
      var c := Better(b, MatchAt(s, pos, o), o);
      assert IsLongest(s, pos, o + 1, c);
      ScanFinds(s, pos, o + 1, hi, c);
    }
  }

  lemma LongestFinds(s: seq<byte>, pos: nat, w: nat)
    requires pos <= |s|
    ensures IsLongest(s, pos, if Window(pos, w) < 2 then 3 else Window(pos, w) + 1, Longest(s, pos, w))
  {
    ScanFinds(s, pos, 3, Window(pos, w), Best(3, 0));
  }

  // ---- the two quick tests ----

  // The byte at i, or any byte at all one past the end.
  function At(s: seq<byte>, i: nat, past: byte): byte { if i < |s| then s[i] else past }

  // The quick test of the brute-force loop never discards an improving match.
  lemma SlowRejects(s: seq<byte>, pos: nat, off: nat, b: Best, past: byte)
    requires 3 <= off <= pos < |s| && b.len <= |s| - pos
    ensures !(s[pos] == s[pos - off] && At(s, pos + b.len, past) == At(s, pos - off + b.len, past)) ==>
              Better(b, MatchAt(s, pos, off), off) == b
  {
    MatchFacts(s, pos, pos - off, 0, Limit(s, pos, off));
    if MatchAt(s, pos, off) > b.len {
      assert Same(s, pos, pos - off, 0);
      assert Same(s, pos, pos - off, b.len);
    }
  }

  // ---- the chain of equal symbol pairs ----

  predicate SamePair(s: seq<byte>, i: nat, j: nat)
    requires i + 1 < |s| && j + 1 < |s|
  {
    s[i] == s[j] && s[i + 1] == s[j + 1]
  }

  // The last position below j whose symbol pair is the one at i, or -1.
  function Before(s: seq<byte>, i: nat, j: nat): (r: int)
    requires i + 1 < |s| && j <= i
    ensures -1 <= r < j
    ensures r >= 0 ==> SamePair(s, r, i)
    ensures forall k: nat | r < k < j :: !SamePair(s, k, i)
  {
    if j == 0 then -1 else if SamePair(s, j - 1, i) then j - 1 else Before(s, i, j - 1)
  }

  // The search loop of the fast coder, from candidate index c on.
  function Chase(s: seq<byte>, pos: nat, c: int, w: nat, b: Best): Best
    requires pos + 1 < |s| && -1 <= c < pos && (c >= 0 ==> SamePair(s, c, pos))
    decreases c + 1
  {
    if c < 0 || pos - c > w then b
    else Chase(s, pos, Before(s, c, c), w, Better(b, Match(s, pos, c, 2, Limit(s, pos, pos - c)), pos - c))
  }

  // The same pair reaches further back from every position on the chain.
  lemma {:induction false} BeforeSame(s: seq<byte>, i: nat, k: nat, j: nat)
    requires i + 1 < |s| && k + 1 < |s| && j <= k && j <= i && SamePair(s, k, i)
    ensures Before(s, k, j) == Before(s, i, j)
    decreases j
  {
    if j > 0 { BeforeSame(s, i, k, j - 1); }
  }

  lemma {:induction false} ScanSkips(s: seq<byte>, pos: nat, o: nat, p: nat, hi: nat, b: Best)
    requires hi <= pos <= |s| && o <= p
    requires forall i | o <= i < p && i <= hi :: MatchAt(s, pos, i) <= b.len
    ensures Scan(s, pos, o, hi, b) == if p <= hi then Scan(s, pos, p, hi, b) else b
    decreases p - o
  {
    if o < p && o <= hi { ScanSkips(s, pos, o + 1, p, hi, b); }
  }

  // Without the pair, at most one byte matches.
  lemma NoPair(s: seq<byte>, pos: nat, k: nat)
    requires k < pos && pos + 1 < |s| && !SamePair(s, k, pos)
    ensures MatchAt(s, pos, pos - k) <= 1
  {
    MatchFacts(s, pos, k, 0, Limit(s, pos, pos - k));
    assert !Same(s, pos, k, 0) || !Same(s, pos, k, 1);
  }

  // With the pair, comparing from the third byte on finds the same match, or one too short to count.
  lemma PairMatch(s: seq<byte>, pos: nat, k: nat)
    requires k < pos && pos + 1 < |s| && SamePair(s, k, pos)
    ensures var m := Match(s, pos, k, 2, Limit(s, pos, pos - k));
            m == MatchAt(s, pos, pos - k) || (m == 2 && MatchAt(s, pos, pos - k) <= 2)
  {
    if Limit(s, pos, pos - k) >= 2 { MatchReaches(s, pos, k, 0, 2, Limit(s, pos, pos - k)); }
  }

  lemma {:induction false} ChaseIsScan(s: seq<byte>, pos: nat, j: nat, w: nat, b: Best)
    requires pos + 1 < |s| && j <= pos && b.len >= 3
    ensures Chase(s, pos, Before(s, pos, j), w, b) == Scan(s, pos, pos - j + 1, Window(pos, w), b)
    decreases j
  {
    hide Match, MatchAt, Limit;
    var c := Before(s, pos, j);
    hide Before;
    var hi := Window(pos, w);
    forall i | pos - j + 1 <= i < pos - c && i <= hi ensures MatchAt(s, pos, i) <= b.len { NoPair(s, pos, pos - i); }
    if c < 0 {
      ScanSkips(s, pos, pos - j + 1, pos + 1, hi, b);
    } else {
      ScanSkips(s, pos, pos - j + 1, pos - c, hi, b);
      if pos - c <= w {
        PairMatch(s, pos, c);
        BeforeSame(s, pos, c, c);
        var d := Better(b, MatchAt(s, pos, pos - c), pos - c);
        ChaseIsScan(s, pos, c, w, d);
      }
    }
  }

  // The chain search finds what the scan finds.
  lemma ChaseFinds(s: seq<byte>, pos: nat, w: nat)
    requires pos + 1 < |s|
    ensures Chase(s, pos, Before(s, pos, pos), w, Best(3, 0)) == Longest(s, pos, w)
  {
    ChaseIsScan(s, pos, pos, w, Best(3, 0));
    ScanSkips(s, pos, 1, 3, Window(pos, w), Best(3, 0));
  }

  // ---- the greedy parse ----

  // A reference is emitted when it is shorter than what it replaces.
  predicate Good(b: Best) {
    b.len >= 8 || (b.len == 4 && b.off <= 0x7f) || (b.len == 5 && b.off <= 0x3fff)
    || (b.len == 6 && b.off <= 0x1f_ffff) || (b.len == 7 && b.off <= 0xfff_ffff)
  }

  function NextToken(s: seq<byte>, pos: nat, w: nat): (t: Token)
    requires pos < |s|
    ensures t.Ref? ==> 4 <= t.len <= |s| - pos && t.len <= t.off <= pos && MatchAt(s, pos, t.off) == t.len && Good(Best(t.len, t.off))
    ensures t.Lit? ==> t.b == s[pos]
  {
    var b := Longest(s, pos, w);
    LongestFinds(s, pos, w);
    if Good(b) then Ref(b.len, b.off) else Lit(s[pos])
  }

  function Width(t: Token): nat { if t.Lit? then 1 else t.len }

  function Parse(s: seq<byte>, pos: nat, w: nat): seq<Token>
    requires pos <= |s|
    decreases |s| - pos
  {
    if pos == |s| then []
    else
      var t := NextToken(s, pos, w);
      [t] + Parse(s, pos + Width(t), w)
  }

  // With at most three bytes left, or before the fifth byte, there is nothing to refer to.
  lemma FewLeft(s: seq<byte>, pos: nat, w: nat)
    requires pos < |s| && (|s| - pos <= 3 || pos <= 3)
    ensures NextToken(s, pos, w) == Lit(s[pos])
  {
  }

  ghost predicate Agree(s: seq<byte>, p: nat, q: nat, len: nat) { forall i: nat | i < len :: Same(s, p, q, i) }

  lemma Shifted(s: seq<byte>, p: nat, q: nat, len: nat)
    requires len > 0 && Agree(s, p, q, len)
    ensures Agree(s, p + 1, q + 1, len - 1)
  {
    var a, b := p + 1, q + 1;
    forall i: nat | i < len - 1 ensures Same(s, a, b, i) { assert Same(s, p, q, i + 1); }
  }

  lemma {:induction false} CopyMatches(s: seq<byte>, pos: nat, len: nat, off: nat)
    requires 0 < off <= pos && pos + len <= |s| && Agree(s, pos, pos - off, len)
    ensures Copy(s[..pos], len, off) == s[..pos + len]
    decreases len
  {
    if len > 0 {
      assert Same(s, pos, pos - off, 0);
      assert s[..pos] + [s[pos - off]] == s[..pos + 1];
      Shifted(s, pos, pos - off, len);
      CopyMatches(s, pos + 1, len - 1, off);
    }
  }

  lemma ParseStep(s: seq<byte>, pos: nat, w: nat) returns (t: Token, rest: seq<Token>)
    requires pos < |s|
    ensures t == NextToken(s, pos, w) && 0 < Width(t) <= |s| - pos && rest == Parse(s, pos + Width(t), w)
    ensures Parse(s, pos, w) == [t] + rest && ([t] + rest)[0] == t && ([t] + rest)[1..] == rest
    ensures t.Lit? ==> t.b == s[pos]
    ensures t.Ref? ==> t.len <= t.off <= pos && MatchAt(s, pos, t.off) == t.len && Good(Best(t.len, t.off)) && 4 <= t.len
  {
    t := NextToken(s, pos, w);
    rest := Parse(s, pos + Width(t), w);
  }

  // The tokens mean the input.
  lemma {:induction false} ParseExpands(s: seq<byte>, pos: nat, w: nat)
    requires pos <= |s| < WORD
    ensures Expand(Parse(s, pos, w), s[..pos]) == Some(s)
    decreases |s| - pos
  {
    hide Parse, NextToken, Longest, MatchAt, Agree, Copy, Good;
    if pos == |s| {
      assert s[..pos] == s;
      ParseEnd(s, w);
    } else {
      var t, rest := ParseStep(s, pos, w);
      ParseExpands(s, pos + Width(t), w);
      if t.Lit? {
        assert s[..pos] + [s[pos]] == s[..pos + 1];
      } else {
        RefMatches(s, pos, t.len, t.off);
        CopyMatches(s, pos, t.len, t.off);
      }
    }
  }

  lemma ParseEnd(s: seq<byte>, w: nat)
    ensures Parse(s, |s|, w) == []
  {
  }

  lemma RefMatches(s: seq<byte>, pos: nat, len: nat, off: nat)
    requires off <= pos <= |s| && MatchAt(s, pos, off) == len
    ensures pos + len <= |s| && Agree(s, pos, pos - off, len)
  {
    MatchFacts(s, pos, pos - off, 0, Limit(s, pos, off));
  }

  lemma SameToken(s: seq<byte>, pos: nat, v: nat, w: nat)
    requires pos < |s| && pos <= v <= w
    ensures NextToken(s, pos, v) == NextToken(s, pos, w)
  {
    hide Scan;
  }

  lemma {:induction false} ScanLast(s: seq<byte>, pos: nat, o: nat, hi: nat, b: Best)
    requires hi + 1 <= pos <= |s| && o <= hi + 1
    ensures Scan(s, pos, o, hi + 1, b) == Better(Scan(s, pos, o, hi, b), MatchAt(s, pos, hi + 1), hi + 1)
    decreases hi + 1 - o
  {
    hide MatchAt, Better;
    if o <= hi {
      ScanLast(s, pos, o + 1, hi, Better(b, MatchAt(s, pos, o), o));
    } else {
      assert Scan(s, pos, o + 1, hi + 1, Better(b, MatchAt(s, pos, o), o)) == Better(b, MatchAt(s, pos, o), o);
    }
  }

  // One step past the window with four bytes left: a match of four bytes that far back is
  // never worth a reference.
  lemma LastToken(s: seq<byte>, v: nat, w: nat)
    requires 0x7f <= v < w && v + 5 == |s|
    ensures NextToken(s, v + 1, v) == NextToken(s, v + 1, w)
  {
    hide MatchAt, Scan;
    ScanLast(s, v + 1, 3, v, Best(3, 0));
    LongestFinds(s, v + 1, v);
  }

  // A smaller window makes no difference while the input reaches at most five bytes past it.
  lemma {:induction false} WindowFits(s: seq<byte>, pos: nat, v: nat, w: nat)
    requires pos <= |s| <= v + 5 && 0x7f <= v < w
    ensures Parse(s, pos, v) == Parse(s, pos, w)
    decreases |s| - pos
  {
    hide Parse, NextToken, MatchAt, Good;
    if pos == |s| {
      ParseEnd(s, v);
      ParseEnd(s, w);
    } else {
      if |s| - pos <= 3 {
        FewLeft(s, pos, v);
        FewLeft(s, pos, w);
      } else if pos <= v {
        SameToken(s, pos, v, w);
      } else {
        LastToken(s, v, w);
      }
      var t, rest := ParseStep(s, pos, v);
      var u, more := ParseStep(s, pos, w);
      WindowFits(s, pos + Width(t), v, w);
    }
  }
}
