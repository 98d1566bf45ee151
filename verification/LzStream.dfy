/**
 The compressed stream of the LZ77 coder (libgfx/host-tools/lz.c): the marker, the round
 trip, and the bound on its size.
 */
module LzStream {
  import opened Bytes
  import opened LzFormat
  import opened LzSearch

  // ---- the marker ----

  function Count(s: seq<byte>, b: byte): nat {
    if s == [] then 0 else (if s[0] == b then 1 else 0) + Count(s[1..], b)
  }

  // The least common byte, the smallest one on ties.
  function Rarest(s: seq<byte>, i: nat, m: byte): byte
    requires i <= 256
    decreases 256 - i
  {
    if i == 256 then m else Rarest(s, i + 1, if Count(s, i) < Count(s, m) then i else m)
  }

  function Marker(s: seq<byte>): byte { Rarest(s, 1, 0) }

  lemma {:induction false} RarestFacts(s: seq<byte>, i: nat, m: byte)
    requires i <= 256 && m < i && (forall b: byte | b < i :: Count(s, m) <= Count(s, b))
    ensures forall b: byte :: Count(s, Rarest(s, i, m)) <= Count(s, b)
    decreases 256 - i
  {
    if i < 256 { RarestFacts(s, i + 1, if Count(s, i) < Count(s, m) then i else m); }
  }

  // The counts of the bytes below n.
  function Total(s: seq<byte>, n: nat): nat
    requires n <= 256
  {
    if n == 0 then 0 else Total(s, n - 1) + Count(s, n - 1)
  }

  lemma {:induction false} TotalStep(s: seq<byte>, n: nat)
    requires n <= 256 && s != []
    ensures Total(s, n) == Total(s[1..], n) + (if s[0] < n then 1 else 0)
  {
    if n > 0 { TotalStep(s, n - 1); }
  }

  lemma {:induction false} TotalNothing(n: nat)
    requires n <= 256
    ensures Total([], n) == 0
  {
    if n > 0 { TotalNothing(n - 1); }
  }

  // Every byte is counted once.
  lemma {:induction false} TotalIsSize(s: seq<byte>)
    ensures Total(s, 256) == |s|
  {
    if s == [] { TotalNothing(256); } else { TotalStep(s, 256); TotalIsSize(s[1..]); }
  }

  lemma {:induction false} TotalAtLeast(s: seq<byte>, n: nat, c: nat)
    requires n <= 256 && (forall b: byte :: c <= Count(s, b))
    ensures n * c <= Total(s, n)
  {
    if n > 0 { TotalAtLeast(s, n - 1, c); }
  }

  // Among 256 byte values the rarest occurs at most once in 256 bytes.
  lemma MarkerRare(s: seq<byte>)
    ensures Count(s, Marker(s)) * 256 <= |s|
  {
    RarestFacts(s, 1, 0);
    TotalIsSize(s);
    TotalAtLeast(s, 256, Count(s, Marker(s)));
  }

  // ---- the stream ----

  function Compressed(s: seq<byte>, w: nat): seq<byte> {
    if s == [] then [] else [Marker(s)] + EmitAll(Parse(s, 0, w), Marker(s))
  }

  // Decompressing gives the input back, whatever the window.
  lemma RoundTrip(s: seq<byte>, w: nat)
    requires |s| < WORD
    ensures Uncompress(Compressed(s, w)) == Some(s)
  {
    if s != [] {
      var m := Marker(s);
      var ts := Parse(s, 0, w);
      ParseExpands(s, 0, w);
      assert s[..0] == [];
      DecodeEmit(ts, m, []);
      var z := Compressed(s, w);
      assert z[1..] == EmitAll(ts, m);
      SomethingEmitted(s, w, m);
    }
  }

  lemma SomethingEmitted(s: seq<byte>, w: nat, m: byte)
    requires s != []
    ensures |EmitAll(Parse(s, 0, w), m)| > 0
  {
    FewLeft(s, 0, w);
    hide NextToken;
    assert Parse(s, 0, w)[0] == Lit(s[0]);
  }

  // Up to five bytes more than its window the fast coder loses nothing.
  lemma FastIsSlow(s: seq<byte>)
    requires |s| <= MAX_OFFSET + 4
    ensures Compressed(s, MAX_OFFSET - 1) == Compressed(s, MAX_OFFSET)
  {
    WindowFits(s, 0, MAX_OFFSET - 1, MAX_OFFSET);
  }

  // ---- size ----

  // The number of base-128 digits.
  lemma OffsetSize(off: nat)
    requires off < WORD
    ensures 1 <= |VarSize(off)| <= 5
    ensures |VarSize(off)| <= 1 <==> off <= 0x7f
    ensures |VarSize(off)| <= 2 <==> off <= 0x3fff
    ensures |VarSize(off)| <= 3 <==> off <= 0x1f_ffff
    ensures |VarSize(off)| <= 4 <==> off <= 0xfff_ffff
  {
    hide VarSize;
    assert Pow128(1) == 128 && Pow128(2) == 0x4000 && Pow128(3) == 0x20_0000 && Pow128(4) == 0x1000_0000;
    assert Pow128(5) == 128 * Pow128(4);
    hide Pow128;
    VarSizeBytes(off, 5);
    if off <= 0x7f { VarSizeBytes(off, 1); } else { VarSizeAtLeast(off, 1); }
    if off <= 0x3fff { VarSizeBytes(off, 2); } else { VarSizeAtLeast(off, 2); }
    if off <= 0x1f_ffff { VarSizeBytes(off, 3); } else { VarSizeAtLeast(off, 3); }
    if off <= 0xfff_ffff { VarSizeBytes(off, 4); } else { VarSizeAtLeast(off, 4); }
  }

  // The test of the coder: the marker, the length and the offset take fewer bytes than the match.
  lemma RefShorter(len: nat, off: nat, m: byte)
    requires 4 <= len < WORD && off < WORD
    ensures Good(Best(len, off)) <==> 1 + |VarSize(len)| + |VarSize(off)| < len
    ensures |Emit(Ref(len, off), m)| == 1 + |VarSize(len)| + |VarSize(off)| >= 3
  {
    OffsetSize(off);
    OffsetSize(len);
    hide VarSize;
  }

  // The longest match of at least 4 bytes, the nearest one on ties, is written as a reference
  // exactly when that is shorter.
  lemma RefIffShorter(s: seq<byte>, pos: nat, w: nat, len: nat, off: nat)
    requires pos < |s| < WORD && 4 <= len && 1 <= off <= Window(pos, w) && MatchAt(s, pos, off) == len
    requires forall i | 1 <= i <= Window(pos, w) :: MatchAt(s, pos, i) <= len && (i < off ==> MatchAt(s, pos, i) < len)
    ensures NextToken(s, pos, w) == if 1 + |VarSize(len)| + |VarSize(off)| < len then Ref(len, off) else Lit(s[pos])
  {
    hide MatchAt, VarSize, Good;
    LongestFinds(s, pos, w);
    var b := Longest(s, pos, w);
    assert b == Best(len, off);
    RefShorter(len, off, 0);
  }

  lemma EmitLit(b: byte, m: byte)
    ensures |Emit(Lit(b), m)| == if b == m then 2 else 1
  {
  }

  lemma CountSplit(s: seq<byte>, pos: nat, n: nat, b: byte)
    requires pos + n <= |s|
    ensures Count(s[pos..], b) >= Count(s[pos + n..], b)
    decreases n
  {
    if n > 0 {
      assert s[pos..][1..] == s[pos + 1..];
      CountSplit(s, pos + 1, n - 1, b);
    }
  }

  lemma {:induction false} ParseSize(s: seq<byte>, pos: nat, w: nat, m: byte)
    requires pos <= |s| < WORD
    ensures |EmitAll(Parse(s, pos, w), m)| <= |s| - pos + Count(s[pos..], m)
    decreases |s| - pos
  {
    hide Good, MatchAt, Parse, NextToken, Emit;
    if pos == |s| {
      ParseEnd(s, w);
    } else {
      var t, rest := ParseStep(s, pos, w);
      ParseSize(s, pos + Width(t), w, m);
      EmitLit(s[pos], m);
      CountSplit(s, pos, Width(t), m);
      if t.Ref? { RefShorter(t.len, t.off, m); } else { assert s[pos..][1..] == s[pos + 1..]; }
    }
  }

  // The size promised to the caller, who provides the buffer.
  lemma SizeBound(s: seq<byte>, w: nat)
    requires |s| < WORD
    ensures |Compressed(s, w)| <= |s| + |s| / 256 + 1
  {
    if s != [] {
      MarkerRare(s);
      ParseSize(s, 0, w, Marker(s));
      assert s[0..] == s;
    }
  }

  // ---- what repeats is cheap ----

  // Without a match of 4 bytes a byte is written as it is.
  lemma LitOtherwise(s: seq<byte>, pos: nat, w: nat)
    requires pos < |s| && (forall i | 1 <= i <= Window(pos, w) :: MatchAt(s, pos, i) < 4)
    ensures NextToken(s, pos, w) == Lit(s[pos])
  {
    hide MatchAt;
    LongestFinds(s, pos, w);
  }

  // All of s from n on occurs off bytes earlier, before n.
  ghost predicate Repeats(s: seq<byte>, n: nat, off: nat) {
    off <= n <= |s| <= n + off && Agree(s, n, n - off, |s| - n)
  }

  // At least 8 bytes that all occur earlier are one reference.
  lemma RestIsRef(s: seq<byte>, pos: nat, n: nat, off: nat, w: nat)
    requires Repeats(s, n, off) && off <= w && n <= pos && pos + 8 <= |s|
    ensures var t := NextToken(s, pos, w); t.Ref? && t.len == |s| - pos
  {
    hide Good;
    var len := |s| - pos;
    var q := pos - off;
    forall i: nat | i < len ensures Same(s, pos, q, i) { assert Same(s, n, n - off, pos - n + i); }
    MatchReaches(s, pos, q, 0, len, Limit(s, pos, off));
    assert MatchAt(s, pos, off) == len;
    hide MatchAt;
    LongestFinds(s, pos, w);
    LongIsGood(Longest(s, pos, w));
  }

  lemma LongIsGood(b: Best)
    requires b.len >= 8
    ensures Good(b)
  {
  }

  lemma RefSmall(t: Token, m: byte)
    requires t.Ref? && t.len < WORD && t.off < WORD
    ensures |Emit(t, m)| <= 11
  {
    OffsetSize(t.off);
    OffsetSize(t.len);
    hide VarSize;
  }

  lemma {:induction false} CountAtMost(s: seq<byte>, b: byte)
    ensures Count(s, b) <= |s|
  {
    if s != [] { CountAtMost(s[1..], b); }
  }

  // The rest from any place at or after n.
  lemma RestSize(s: seq<byte>, pos: nat, n: nat, off: nat, w: nat, m: byte)
    requires |s| < WORD && Repeats(s, n, off) && off <= w && n <= pos <= |s|
    ensures |EmitAll(Parse(s, pos, w), m)| <= 14
  {
    hide Parse, NextToken, Emit, MatchAt, Good;
    if pos + 8 <= |s| {
      var t, rest := ParseStep(s, pos, w);
      RestIsRef(s, pos, n, off, w);
      ParseEnd(s, w);
      RefSmall(t, m);
    } else {
      ParseSize(s, pos, w, m);
      CountAtMost(s[pos..], m);
    }
  }

  lemma {:induction false} RepeatSize(s: seq<byte>, pos: nat, n: nat, off: nat, w: nat, m: byte)
    requires |s| < WORD && Repeats(s, n, off) && off <= w && pos <= n
    ensures |EmitAll(Parse(s, pos, w), m)| <= n - pos + Count(s[pos..], m) + 25
    decreases n - pos
  {
    hide Good, MatchAt, Parse, NextToken, Emit, Agree;
    if pos == n {
      RestSize(s, pos, n, off, w, m);
    } else {
      var t, rest := ParseStep(s, pos, w);
      EmitLit(s[pos], m);
      CountSplit(s, pos, Width(t), m);
      if pos + Width(t) <= n {
        RepeatSize(s, pos + Width(t), n, off, w, m);
        if t.Ref? { RefShorter(t.len, t.off, m); } else { assert s[pos..][1..] == s[pos + 1..]; }
      } else {
        RestSize(s, pos + Width(t), n, off, w, m);
        RefSmall(t, m);
      }
    }
  }

  // What occurs again costs at most 25 bytes, however long it is.
  lemma RepeatCheap(a: seq<byte>, x: seq<byte>, b: seq<byte>, w: nat)
    requires |a + x + b + x| < WORD && |x + b| <= w
    ensures |Compressed(a + x + b + x, w)| <= |a + x + b| + |a + x + b + x| / 256 + 26
  {
    var s := a + x + b + x;
    if s != [] {
      var n, off := |a + x + b|, |x + b|;
      var q := n - off;
      forall i: nat | i < |x| ensures Same(s, n, q, i) { assert s[n + i] == x[i] == s[q + i]; }
      MarkerRare(s);
      RepeatSize(s, 0, n, off, w, Marker(s));
      assert s[0..] == s;
    }
  }

  // Three bytes of input need at least four bytes of output.
  lemma {:induction false} ParseNotSmall(s: seq<byte>, pos: nat, w: nat, m: byte)
    requires pos <= |s| < WORD
    ensures |EmitAll(Parse(s, pos, w), m)| >= if |s| - pos < 3 then |s| - pos else 3
    decreases |s| - pos
  {
    hide Good, MatchAt, Parse, NextToken, Emit;
    if pos == |s| {
      ParseEnd(s, w);
    } else {
      var t, rest := ParseStep(s, pos, w);
      ParseNotSmall(s, pos + Width(t), w, m);
      EmitLit(s[pos], m);
      if t.Ref? { RefShorter(t.len, t.off, m); }
    }
  }

  lemma NotSmall(s: seq<byte>, w: nat)
    requires 3 <= |s| < WORD
    ensures |Compressed(s, w)| >= 4
  {
    ParseNotSmall(s, 0, w, Marker(s));
  }
}
