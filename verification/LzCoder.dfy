/**
 The LZ77 coder as the C code runs it (libgfx/host-tools/lz.c): loops over byte buffers, a
 histogram, and for the fast form a table of previous symbol pairs.  The output buffer is
 only as large as the size bound promises.
 */
module LzCoder {
  import opened Bytes
  import opened LzFormat
  import opened LzSearch
  import opened LzStream

  // ---- variable-size integers ----

  // The digits from the left: digit j of n is that of weight 128^(n-1-j).
  lemma {:induction false} DigitAt(y: nat, j: nat)
    requires j < |Digits(y)|
    ensures Pow128(|Digits(y)| - 1 - j) > 0
    ensures Digits(y)[j] == 128 + y / Pow128(|Digits(y)| - 1 - j) % 128
    decreases y
  {
    var n := |Digits(y)|;
    PowPositive(n - 1 - j);
    if y < 128 {
    } else if j < n - 1 {
      DigitAt(y / 128, j);
      DivTwice(y, Pow128(n - 2 - j));
    }
  }

  lemma {:induction false} PowPositive(n: nat)
    ensures Pow128(n) > 0
  {
    if n > 0 { PowPositive(n - 1); }
  }

  lemma DivTwice(x: nat, p: nat)
    requires p > 0
    ensures x / 128 / p == x / (128 * p)
  {
    var q, r := x / 128, x % 128;
    var a, b := q / p, q % p;
    assert x == 128 * (a * p + b) + r;
    assert x == a * (128 * p) + (128 * b + r) && 0 <= 128 * b + r < 128 * p;
    Quotient(x, 128 * p, a, 128 * b + r);
  }

  lemma {:induction false} MulLess(a: nat, b: nat, d: nat)
    ensures a < b ==> a * d + d <= b * d
    decreases b
  {
    if a < b {
      assert b * d == (b - 1) * d + d;
      if a + 1 < b { MulLess(a, b - 1, d); }
    }
  }

  lemma Quotient(x: nat, d: nat, q: nat, r: nat)
    requires d > 0 && x == q * d + r && r < d
    ensures x / d == q
  {
    var e := x / d;
    assert x == e * d + x % d;
    MulLess(e, q, d);
    MulLess(q, e, d);
  }

  lemma VarSizeAt(x: nat, j: nat)
    requires j < |VarSize(x)|
    ensures Pow128(|VarSize(x)| - 1 - j) > 0
    ensures VarSize(x)[j] == x / Pow128(|VarSize(x)| - 1 - j) % 128 + if j < |VarSize(x)| - 1 then 128 else 0
  {
    var n := |VarSize(x)|;
    PowPositive(n - 1 - j);
    if x >= 128 && j < n - 1 {
      DigitAt(x / 128, j);
      DivTwice(x, Pow128(n - 2 - j));
    }
  }

  // How many digits: the loop of _LZ_WriteVarSize shifts the number left until one of its top
  // seven bits is set.
  method NumBytes(x: nat) returns (n: nat)
    requires x < WORD
    ensures n == |VarSize(x)|
  {
    var y := x / 8;
    n := 5;
    while n >= 2 && y < 0x200_0000
      invariant 1 <= n <= 5
      invariant n == 5 ==> y == x / 8
      invariant n == 4 ==> y == x / 8 * 128 && x < 0x1000_0000
      invariant n == 3 ==> y == x / 8 * 0x4000 && x < 0x20_0000
      invariant n == 2 ==> y == x / 8 * 0x20_0000 && x < 0x4000
      invariant n == 1 ==> x < 128
    {
      y := y * 128;
      n := n - 1;
    }
    VarSizeCount(x);
  }

  lemma VarSizeCount(x: nat)
    requires x < WORD
    ensures |VarSize(x)| == if x < 128 then 1 else if x < 0x4000 then 2 else if x < 0x20_0000 then 3 else if x < 0x1000_0000 then 4 else 5
  {
    if x >= 128 {
      var a := x / 128;
      assert |Digits(a)| == if a < 128 then 1 else 1 + |Digits(a / 128)|;
      var b := a / 128;
      assert |Digits(b)| == if b < 128 then 1 else 1 + |Digits(b / 128)|;
      var c := b / 128;
      assert |Digits(c)| == if c < 128 then 1 else 1 + |Digits(c / 128)|;
      var d := c / 128;
      assert d < 128 && |Digits(d)| == 1;
    }
  }

  // The bytes x written at position at.
  function Splice(s: seq<byte>, at: nat, x: seq<byte>): seq<byte>
    requires at + |x| <= |s|
  {
    s[..at] + x + s[at + |x|..]
  }

  lemma SpliceTwice(s: seq<byte>, at: nat, x: seq<byte>, y: seq<byte>)
    requires at + |x| + |y| <= |s|
    ensures Splice(Splice(s, at, x), at + |x|, y) == Splice(s, at, x + y)
  {
  }

  method WriteVarSize(x: nat, out: array<byte>, at: nat) returns (n: nat)
    requires x < WORD && at + |VarSize(x)| <= out.Length
    modifies out
    ensures n == |VarSize(x)| && out[..] == Splice(old(out[..]), at, VarSize(x))
  {
    hide VarSize;
    n := NumBytes(x);
    var i := n;
    while i > 0
      invariant 0 <= i <= n
      invariant forall k | 0 <= k < at || at + n <= k < out.Length :: out[k] == old(out[k])
      invariant forall k | 0 <= k < n - i :: out[at + k] == VarSize(x)[k]
    {
      i := i - 1;
      VarSizeAt(x, n - 1 - i);
      var b := x / Pow128(i) % 128;
      out[at + (n - 1 - i)] := if i > 0 then 128 + b else b;
    }
  }

  method ReadVarSize(buf: array<byte>, at: nat, end: nat) returns (x: nat, n: nat)
    requires at <= end <= buf.Length && ReadVar(buf[at..end], 0).Got?
    ensures at + n <= end && ReadVar(buf[at..end], 0) == Got(x, buf[at + n..end])
  {
    x, n := 0, 0;
    var more := true;
    while more
      invariant at + n <= end
      invariant more ==> ReadVar(buf[at + n..end], x) == ReadVar(buf[at..end], 0)
      invariant !more ==> ReadVar(buf[at..end], 0) == Got(x, buf[at + n..end])
      decreases end - at - n, more
    {
      var b := buf[at + n];
      assert buf[at + n..end][1..] == buf[at + n + 1..end];
      x := (x * 128 + b % 128) % WORD;
      n := n + 1;
      more := b >= 128;
    }
  }

  // ---- the marker ----

  lemma {:induction false} CountEnd(s: seq<byte>, x: byte, b: byte)
    ensures Count(s + [x], b) == Count(s, b) + if x == b then 1 else 0
  {
    if s == [] {
      assert s + [x] == [x] && [x][1..] == [];
    } else {
      assert (s + [x])[1..] == s[1..] + [x];
      CountEnd(s[1..], x, b);
    }
  }

  method Histogram(inp: array<byte>) returns (h: array<nat>)
    ensures h.Length == 256 && fresh(h) && (forall b: byte :: h[b] == Count(inp[..], b))
  {
    h := new nat[256](_ => 0);
    var i := 0;
    while i < inp.Length
      invariant i <= inp.Length && (forall b: byte :: h[b] == Count(inp[..i], b))
    {
      assert inp[..i + 1] == inp[..i] + [inp[i]];
      forall b: byte { CountEnd(inp[..i], inp[i], b); }
      h[inp[i]] := h[inp[i]] + 1;
      i := i + 1;
    }
    assert inp[..i] == inp[..];
  }

  method FindMarker(inp: array<byte>) returns (m: byte)
    ensures m == Marker(inp[..])
  {
    hide Count;
    var h := Histogram(inp);
    m := 0;
    var i := 1;
    while i < 256
      invariant 1 <= i <= 256 && Rarest(inp[..], i, m) == Marker(inp[..])
    {
      if h[i] < h[m] { m := i; }
      i := i + 1;
    }
  }

  // ---- searching ----

  method StringCompare(inp: array<byte>, p: nat, q: nat, minlen: nat, maxlen: nat) returns (len: nat)
    requires p + maxlen <= inp.Length && q + maxlen <= inp.Length
    ensures len == Match(inp[..], p, q, minlen, maxlen)
  {
    len := minlen;
    while len < maxlen && inp[p + len] == inp[q + len]
      invariant Match(inp[..], p, q, len, maxlen) == Match(inp[..], p, q, minlen, maxlen)
    {
      len := len + 1;
    }
  }

  // Every offset in the window; past is whatever lies behind the input.
  method BruteForce(inp: array<byte>, pos: nat, past: byte) returns (b: Best)
    requires pos < inp.Length && (pos == 0 || inp.Length - pos >= 3)
    ensures b == Longest(inp[..], pos, MAX_OFFSET)
  {
    hide MatchAt, Match;
    ghost var s := inp[..];
    var hi := if pos > MAX_OFFSET then MAX_OFFSET else pos;
    b := Best(3, 0);
    var o := 3;
    while o <= hi
      invariant 3 <= o && b.len >= 3 && (o <= hi ==> b.len <= inp.Length - pos)
      invariant Scan(s, pos, o, hi, b) == Longest(s, pos, MAX_OFFSET)
    {
      SlowRejects(s, pos, o, b, past);
      var c1 := if pos + b.len < inp.Length then inp[pos + b.len] else past;
      var c2 := if pos - o + b.len < inp.Length then inp[pos - o + b.len] else past;
      var m := 0;
      if inp[pos] == inp[pos - o] && c1 == c2 {
        var maxlength := if inp.Length - pos < o then inp.Length - pos else o;
        m := StringCompare(inp, pos, pos - o, 0, maxlength);
        MatchIs(s, pos, o);
      }
      assert Better(b, m, o) == Better(b, MatchAt(s, pos, o), o);
      if m > b.len { b := Best(m, o); }
      o := o + 1;
    }
  }

  lemma MatchIs(s: seq<byte>, pos: nat, off: nat)
    requires off <= pos <= |s|
    ensures MatchAt(s, pos, off) == Match(s, pos, pos - off, 0, Limit(s, pos, off))
  {
  }

  // ---- writing ----

  method WriteRef(len: nat, off: nat, m: byte, out: array<byte>, at: nat) returns (n: nat)
    requires len < WORD && off < WORD && at + |Emit(Ref(len, off), m)| <= out.Length
    modifies out
    ensures n == |Emit(Ref(len, off), m)| && out[..] == Splice(old(out[..]), at, Emit(Ref(len, off), m))
  {
    hide VarSize;
    ghost var s := out[..];
    out[at] := m;
    assert out[..] == Splice(s, at, [m]);
    hide Splice;
    var k := WriteVarSize(len, out, at + 1);
    SpliceTwice(s, at, [m], VarSize(len));
    var l := WriteVarSize(off, out, at + 1 + k);
    SpliceTwice(s, at, [m] + VarSize(len), VarSize(off));
    n := 1 + k + l;
  }

  method WriteToken(t: Token, m: byte, out: array<byte>, at: nat) returns (n: nat)
    requires (t.Ref? ==> t.len < WORD && t.off < WORD) && at + |Emit(t, m)| <= out.Length
    modifies out
    ensures n == |Emit(t, m)| && out[..] == Splice(old(out[..]), at, Emit(t, m))
  {
    hide VarSize;
    match t {
      case Lit(b) =>
        out[at] := b;
        n := 1;
        if b == m {
          out[at + 1] := 0;
          n := 2;
        }
      case Ref(len, off) => n := WriteRef(len, off, m, out, at);
    }
  }

  // One token has been written behind the stream so far.
  lemma Written(s: seq<byte>, pos: nat, w: nat, m: byte, z: seq<byte>, before: seq<byte>, after: seq<byte>)
    requires pos < |s| && z == before + EmitAll(Parse(s, pos, w), m)
    requires after == before + Emit(NextToken(s, pos, w), m)
    ensures z == after + EmitAll(Parse(s, pos + Width(NextToken(s, pos, w)), w), m)
  {
    hide Parse, NextToken, Emit;
    var t, rest := ParseStep(s, pos, w);
    assert EmitAll([t] + rest, m) == Emit(t, m) + EmitAll(rest, m);
  }

  lemma Room(s: seq<byte>, pos: nat, w: nat, m: byte, before: seq<byte>)
    requires pos < |s| < WORD && Compressed(s, w) == before + EmitAll(Parse(s, pos, w), m)
    ensures |before| + |Emit(NextToken(s, pos, w), m)| <= |s| + |s| / 256 + 1
  {
    hide Parse, NextToken, Emit, Compressed;
    SizeBound(s, w);
    var t, rest := ParseStep(s, pos, w);
    assert EmitAll([t] + rest, m) == Emit(t, m) + EmitAll(rest, m);
  }

  method Step(inp: array<byte>, out: array<byte>, pos: nat, at: nat, m: byte, t: Token, ghost w: nat) returns (n: nat)
    requires inp != out && pos < inp.Length < WORD && out.Length >= inp.Length + inp.Length / 256 + 1 && at <= out.Length
    requires t == NextToken(inp[..], pos, w) && Compressed(inp[..], w) == out[..at] + EmitAll(Parse(inp[..], pos, w), m)
    modifies out
    ensures at + n <= out.Length && Compressed(inp[..], w) == out[..at + n] + EmitAll(Parse(inp[..], pos + Width(t), w), m)
  {
    hide Parse, NextToken, Emit, Compressed, EmitAll, MatchAt, Good;
    ghost var s, before := inp[..], out[..at];
    Room(s, pos, w, m, before);
    ghost var u, rest := ParseStep(s, pos, w);
    n := WriteToken(t, m, out, at);
    assert out[..at + n] == out[..][..at + n] == before + Emit(t, m);
    Written(s, pos, w, m, Compressed(s, w), before, out[..at + n]);
  }

  // ---- LZ_Compress ----

  method SlowToken(inp: array<byte>, pos: nat, past: byte) returns (t: Token)
    requires pos < inp.Length && (pos == 0 || inp.Length - pos > 3)
    ensures t == NextToken(inp[..], pos, MAX_OFFSET) && 0 < Width(t) <= inp.Length - pos
  {
    hide Longest, Good, MatchAt;
    var b := BruteForce(inp, pos, past);
    t := if Good(b) then Ref(b.len, b.off) else Lit(inp[pos]);
  }

  // The main loop.
  method SlowPass(inp: array<byte>, out: array<byte>, m: byte, past: byte) returns (pos: nat, n: nat)
    requires inp != out && 0 < inp.Length < WORD / 2 && out.Length >= inp.Length + inp.Length / 256 + 1
    requires out[0] == m == Marker(inp[..])
    modifies out
    ensures n <= out.Length && inp.Length - 3 <= pos <= inp.Length
    ensures Compressed(inp[..], MAX_OFFSET) == out[..n] + EmitAll(Parse(inp[..], pos, MAX_OFFSET), m)
  {
    hide Parse, EmitAll, NextToken, Marker;
    n, pos := 1, 0;
    ghost var w, s := MAX_OFFSET, inp[..];
    assert out[..1] == [m] && |s| == inp.Length;
    assert Compressed(s, w) == out[..n] + EmitAll(Parse(s, pos, w), m);
    hide Compressed;
    while true
      invariant pos < inp.Length && n <= out.Length && (pos > 0 ==> inp.Length - pos > 3) && inp[..] == s
      invariant Compressed(s, w) == out[..n] + EmitAll(Parse(s, pos, w), m)
      decreases inp.Length - pos
    {
      var t := SlowToken(inp, pos, past);
      var k := Step(inp, out, pos, n, m, t, w);
      n := n + k;
      pos := pos + Width(t);
      if inp.Length - pos <= 3 { break; }
    }
  }

  // past stands for the byte behind the input that the search may look at.
  method Compress(inp: array<byte>, out: array<byte>, past: byte) returns (n: nat)
    requires inp != out && inp.Length < WORD / 2 && out.Length >= inp.Length + inp.Length / 256 + 1
    modifies out
    ensures n <= out.Length && out[..n] == Compressed(inp[..], MAX_OFFSET)
  {
    if inp.Length < 1 { return 0; }
    hide Parse, EmitAll, Marker, Compressed;
    var m := FindMarker(inp);
    out[0] := m;
    var pos;
    pos, n := SlowPass(inp, out, m, past);
    n := Dump(inp, out, pos, n, m, MAX_OFFSET);
  }

  // The last bytes, for which no search is made.
  method Dump(inp: array<byte>, out: array<byte>, from: nat, at: nat, m: byte, ghost w: nat) returns (n: nat)
    requires inp != out && inp.Length < WORD && out.Length >= inp.Length + inp.Length / 256 + 1 && at <= out.Length
    requires inp.Length - 3 <= from <= inp.Length && Compressed(inp[..], w) == out[..at] + EmitAll(Parse(inp[..], from, w), m)
    modifies out
    ensures n <= out.Length && out[..n] == Compressed(inp[..], w)
  {
    hide Parse, Emit, NextToken, Compressed;
    n := at;
    var pos := from;
    while pos < inp.Length
      invariant from <= pos <= inp.Length && n <= out.Length
      invariant Compressed(inp[..], w) == out[..n] + EmitAll(Parse(inp[..], pos, w), m)
    {
      FewLeft(inp[..], pos, w);
      var k := Step(inp, out, pos, n, m, Lit(inp[pos]), w);
      n := n + k;
      pos := pos + 1;
    }
    ParseEnd(inp[..], w);
  }

  // ---- LZ_CompressFast ----

  const PAIRS: nat := 65536
  const NONE: nat := 0xffff_ffff

  function Code(s: seq<byte>, i: nat): nat
    requires i + 1 < |s|
  {
    (s[i] as int) * 256 + s[i + 1] as int
  }

  function Word(c: int): nat
    requires c >= -1
  {
    if c < 0 then NONE else c
  }

  // The last position below i whose pair has the given code, or -1.
  function LastOf(s: seq<byte>, i: nat, code: nat): (r: int)
    requires i < |s|
    ensures -1 <= r < i
  {
    if i == 0 then -1 else if Code(s, i - 1) == code then i - 1 else LastOf(s, i - 1, code)
  }

  lemma {:induction false} LastIsBefore(s: seq<byte>, i: nat, j: nat)
    requires i + 1 < |s| && j <= i
    ensures LastOf(s, j, Code(s, i)) == Before(s, i, j)
    decreases j
  {
    if j > 0 {
      assert Code(s, j - 1) == Code(s, i) <==> SamePair(s, j - 1, i);
      LastIsBefore(s, i, j - 1);
    }
  }

  // The table after the first i positions: the last index of every pair, then the chain.
  ghost predicate Table(s: seq<byte>, work: seq<nat>, i: nat) {
    && i < |s| && PAIRS + |s| <= |work|
    && (forall c | 0 <= c < PAIRS :: work[c] == Word(LastOf(s, i, c)))
    && (forall k | 0 <= k < i :: work[PAIRS + k] == Word(Before(s, k, k)))
  }

  // The jump table: every position points to the previous one with the same pair.
  ghost predicate Chain(s: seq<byte>, work: seq<nat>) {
    && 0 < |s| < WORD / 2 && PAIRS + |s| <= |work| && work[PAIRS + |s| - 1] == NONE
    && (forall k | 0 <= k < |s| - 1 :: work[PAIRS + k] == Word(Before(s, k, k)))
  }

  method BuildJumpTable(inp: array<byte>, work: array<nat>)
    requires 0 < inp.Length < WORD / 2 && work.Length >= inp.Length + PAIRS
    modifies work
    ensures Chain(inp[..], work[..])
  {
    ghost var s := inp[..];
    var i := 0;
    while i < PAIRS
      invariant i <= PAIRS && (forall c | 0 <= c < i :: work[c] == NONE)
    {
      work[i] := NONE;
      i := i + 1;
    }
    i := 0;
    while i < inp.Length - 1
      invariant i < inp.Length && Table(s, work[..], i)
    {
      var code := (inp[i] as int) * 256 + inp[i + 1] as int;
      var index := work[code];
      LastIsBefore(s, i, i);
      work[code] := i;
      work[PAIRS + i] := index;
      i := i + 1;
    }
    work[PAIRS + inp.Length - 1] := NONE;
  }

  // The quick test of the chain search never discards an improving match.
  lemma FastRejects(s: seq<byte>, pos: nat, c: nat, b: Best, past: byte)
    requires c < pos && pos + 1 < |s| && SamePair(s, c, pos) && 3 <= b.len <= |s| - pos
    ensures At(s, c + b.len, past) != At(s, pos + b.len, past) ==>
              Better(b, Match(s, pos, c, 2, Limit(s, pos, pos - c)), pos - c) == b
  {
    MatchFacts(s, pos, c, 2, Limit(s, pos, pos - c));
    assert At(s, c + b.len, past) != At(s, pos + b.len, past) && pos + b.len < |s| ==> !Same(s, pos, c, b.len);
  }

  method ChainSearch(inp: array<byte>, work: array<nat>, pos: nat, past: byte) returns (b: Best)
    requires Chain(inp[..], work[..])
    requires pos < inp.Length && (pos == 0 || inp.Length - pos > 3)
    ensures b == Longest(inp[..], pos, MAX_OFFSET - 1)
  {
    hide Match, MatchAt, Before, Longest;
    ghost var s := inp[..];
    b := Best(3, 0);
    if pos == inp.Length - 1 {
      NothingBehind(s);
      return;
    }
    ChaseFinds(s, pos, MAX_OFFSET - 1);
    var index := work[PAIRS + pos];
    ghost var c := Before(s, pos, pos);
    if index == NONE { ChaseEnds(s, pos, MAX_OFFSET - 1, b); }
    while index != NONE && pos - index < MAX_OFFSET
      invariant -1 <= c < pos && index == Word(c) && (c >= 0 ==> SamePair(s, c, pos)) && b.len >= 3
      invariant index != NONE ==> b.len <= inp.Length - pos
      invariant Chase(s, pos, c, MAX_OFFSET - 1, b) == Longest(s, pos, MAX_OFFSET - 1)
      decreases c + 1
    {
      FastRejects(s, pos, index, b, past);
      var c1 := if pos + b.len < inp.Length then inp[pos + b.len] else past;
      var c2 := if index + b.len < inp.Length then inp[index + b.len] else past;
      var m := 0;
      if c2 == c1 {
        var offset := pos - index;
        var maxlength := if inp.Length - pos < offset then inp.Length - pos else offset;
        m := StringCompare(inp, pos, index, 2, maxlength);
      }
      assert Better(b, m, pos - index) == Better(b, Match(s, pos, index, 2, Limit(s, pos, pos - index)), pos - index);
      if m > b.len { b := Best(m, pos - index); }
      c := Before(s, index, index);
      BeforeSame(s, pos, index, index);
      index := work[PAIRS + index];
    }
  }

  lemma NothingBehind(s: seq<byte>)
    requires |s| == 1
    ensures Longest(s, 0, MAX_OFFSET - 1) == Best(3, 0)
  {
  }

  lemma ChaseEnds(s: seq<byte>, pos: nat, w: nat, b: Best)
    requires pos + 1 < |s| < WORD / 2
    ensures Word(Before(s, pos, pos)) == NONE ==> Chase(s, pos, Before(s, pos, pos), w, b) == b
  {
  }

  method FastToken(inp: array<byte>, work: array<nat>, pos: nat, past: byte) returns (t: Token)
    requires Chain(inp[..], work[..]) && pos < inp.Length && (pos == 0 || inp.Length - pos > 3)
    ensures t == NextToken(inp[..], pos, MAX_OFFSET - 1) && 0 < Width(t) <= inp.Length - pos
  {
    hide Longest, Good, MatchAt, Chain;
    var b := ChainSearch(inp, work, pos, past);
    t := if Good(b) then Ref(b.len, b.off) else Lit(inp[pos]);
  }

  // The main loop of the fast coder, with the jump table in place.
  method FastPass(inp: array<byte>, out: array<byte>, work: array<nat>, m: byte, past: byte) returns (pos: nat, n: nat)
    requires inp != out && Chain(inp[..], work[..]) && out.Length >= inp.Length + inp.Length / 256 + 1
    requires out[0] == m == Marker(inp[..])
    modifies out
    ensures n <= out.Length && inp.Length - 3 <= pos <= inp.Length
    ensures Compressed(inp[..], MAX_OFFSET - 1) == out[..n] + EmitAll(Parse(inp[..], pos, MAX_OFFSET - 1), m)
  {
    hide Parse, EmitAll, NextToken, Marker;
    n, pos := 1, 0;
    ghost var w, s, table := MAX_OFFSET - 1, inp[..], work[..];
    assert out[..1] == [m] && |s| == inp.Length && 0 < |s| < WORD;
    assert Compressed(s, w) == out[..n] + EmitAll(Parse(s, pos, w), m);
    hide Compressed, Chain;
    while true
      invariant pos < inp.Length && n <= out.Length && (pos > 0 ==> inp.Length - pos > 3)
      invariant inp[..] == s && work[..] == table
      invariant Compressed(s, w) == out[..n] + EmitAll(Parse(s, pos, w), m)
      decreases inp.Length - pos
    {
      var t := FastToken(inp, work, pos, past);
      var k := Step(inp, out, pos, n, m, t, w);
      n := n + k;
      pos := pos + Width(t);
      if inp.Length - pos <= 3 { break; }
    }
  }

  method CompressFast(inp: array<byte>, out: array<byte>, work: array<nat>, past: byte) returns (n: nat)
    requires inp != out && inp.Length < WORD / 2 && out.Length >= inp.Length + inp.Length / 256 + 1
    requires work.Length >= inp.Length + PAIRS
    modifies out, work
    ensures n <= out.Length && out[..n] == Compressed(inp[..], MAX_OFFSET - 1)
    ensures inp.Length <= MAX_OFFSET + 4 ==> out[..n] == Compressed(inp[..], MAX_OFFSET)
  {
    if inp.Length < 1 { return 0; }
    hide Parse, EmitAll, Marker, Chain, Compressed;
    if inp.Length <= MAX_OFFSET + 4 { FastIsSlow(inp[..]); }
    BuildJumpTable(inp, work);
    var m := FindMarker(inp);
    out[0] := m;
    var pos;
    pos, n := FastPass(inp, out, work, m, past);
    n := Dump(inp, out, pos, n, m, MAX_OFFSET - 1);
  }

  // ---- LZ_Uncompress ----

  lemma {:induction false} CopyEnd(out: seq<byte>, len: nat, off: nat)
    requires 0 < off <= |out| && len > 0
    ensures Copy(out, len, off) == Copy(out, len - 1, off) + [Copy(out, len - 1, off)[|out| + len - 1 - off]]
    decreases len
  {
    if len > 1 { CopyEnd(out + [out[|out| - off]], len - 1, off); }
  }

  lemma {:induction false} DecodeGrows(s: seq<byte>, m: byte, out: seq<byte>)
    requires Decode(s, m, out).Some?
    ensures |Decode(s, m, out).value| >= |out|
    decreases |s|
  {
    hide Copy;
    if s == [] {
    } else if s[0] != m {
      DecodeGrows(s[1..], m, out + [s[0]]);
    } else if s[1] == 0 {
      DecodeGrows(s[2..], m, out + [m]);
    } else {
      var l := ReadVar(s[1..], 0);
      var o := ReadVar(l.rest, 0);
      ReadShorter(s[1..], 0);
      ReadShorter(l.rest, 0);
      DecodeGrows(o.rest, m, Copy(out, l.x, o.x));
    }
  }

  // The copy loop of the decoder.
  method CopyBack(out: array<byte>, at: nat, len: nat, off: nat)
    requires 0 < off <= at && at + len <= out.Length
    modifies out
    ensures out[..at + len] == Copy(old(out[..at]), len, off) && out[at + len..] == old(out[at + len..])
  {
    ghost var before := out[..at];
    var i := 0;
    while i < len
      invariant i <= len && out[..at + i] == Copy(before, i, off) && out[at + len..] == old(out[at + len..])
    {
      CopyEnd(before, i + 1, off);
      ghost var now := out[..at + i];
      out[at + i] := out[at + i - off];
      assert out[..at + i + 1] == now + [out[at + i]];
      i := i + 1;
    }
  }

  // One reference: length, offset, and the copy, as far as there is room.
  method CopyRef(inp: array<byte>, pos: nat, end: nat, out: array<byte>, n: nat) returns (fits: bool, next: nat, len: nat)
    requires inp != out && pos < end <= inp.Length && n <= out.Length && ReadVar(inp[pos..end], 0).Got?
    requires var l := ReadVar(inp[pos..end], 0); var o := ReadVar(l.rest, 0); o.Got? && 0 < o.x <= n
    modifies out
    ensures var l := ReadVar(inp[pos..end], 0); var o := ReadVar(l.rest, 0);
            && pos <= next <= end && len == l.x && o.rest == inp[next..end] && (fits <==> n + len <= out.Length)
            && (if fits then out[..n + len] == Copy(old(out[..n]), len, o.x) else out[..] == Copy(old(out[..n]), out.Length - n, o.x))
  {
    hide Copy, ReadVar;
    var k;
    len, k := ReadVarSize(inp, pos, end);
    var off, l := ReadVarSize(inp, pos + k, end);
    next := pos + k + l;
    fits := n + len <= out.Length;
    CopyBack(out, n, if fits then len else out.Length - n, off);
    assert !fits ==> out[..] == out[..n + (out.Length - n)];
  }

  // What the decoder does at position pos of a well-formed stream.
  lemma DecodeStep(z: seq<byte>, pos: nat, m: byte, out: seq<byte>)
    requires pos < |z| && Decode(z[pos..], m, out).Some?
    ensures z[pos] != m ==> Decode(z[pos..], m, out) == Decode(z[pos + 1..], m, out + [z[pos]])
    ensures z[pos] == m ==> pos + 1 < |z|
    ensures z[pos] == m && z[pos + 1] == 0 ==> Decode(z[pos..], m, out) == Decode(z[pos + 2..], m, out + [m])
    ensures z[pos] == m && z[pos + 1] != 0 ==>
              var l := ReadVar(z[pos + 1..], 0);
              l.Got? && var o := ReadVar(l.rest, 0);
                        o.Got? && 0 < o.x <= |out| && Decode(z[pos..], m, out) == Decode(o.rest, m, Copy(out, l.x, o.x))
  {
    hide Copy, ReadVar;
    assert z[pos..][1..] == z[pos + 1..];
    if pos + 2 <= |z| { assert z[pos..][2..] == z[pos + 2..]; }
  }

  // One turn of the decoder's loop.
  method DecodeOne(inp: array<byte>, out: array<byte>, pos: nat, n: nat, m: byte) returns (next: nat, k: nat)
    requires inp != out && pos < inp.Length && n <= out.Length
    requires Decode(inp[pos..], m, out[..n]).Some? && |Decode(inp[pos..], m, out[..n]).value| <= out.Length
    modifies out
    ensures pos < next <= inp.Length && k <= out.Length && Decode(inp[next..], m, out[..k]) == Decode(inp[pos..], m, old(out[..n]))
  {
    hide Copy, ReadVar, Decode;
    ghost var z, now := inp[..], out[..n];
    assert z[pos..] == inp[pos..];
    DecodeStep(z, pos, m, now);
    if inp[pos] != m {
      DecodeGrows(z[pos + 1..], m, now + [inp[pos]]);
      out[n] := inp[pos];
      next, k := pos + 1, n + 1;
      assert out[..k] == now + [inp[pos]];
    } else if inp[pos + 1] == 0 {
      DecodeGrows(z[pos + 2..], m, now + [m]);
      out[n] := m;
      next, k := pos + 2, n + 1;
      assert out[..k] == now + [m];
    } else {
      assert z[pos + 1..] == inp[pos + 1..inp.Length];
      ghost var l := ReadVar(z[pos + 1..], 0);
      ghost var o := ReadVar(l.rest, 0);
      DecodeGrows(o.rest, m, Copy(now, l.x, o.x));
      var fits, len;
      fits, next, len := CopyRef(inp, pos + 1, inp.Length, out, n);
      k := n + len;
      assert inp[next..] == inp[next..inp.Length];
    }
    assert z[next..] == inp[next..];
  }

  method UncompressInto(inp: array<byte>, out: array<byte>) returns (n: nat)
    requires inp != out && Uncompress(inp[..]).Some? && |Uncompress(inp[..]).value| <= out.Length
    modifies out
    ensures n == |Uncompress(inp[..]).value| && out[..n] == Uncompress(inp[..]).value
  {
    hide Decode;
    n := 0;
    if inp.Length < 1 { return; }
    var m, pos := inp[0], 1;
    assert inp[..][1..] == inp[1..];
    while true
      invariant 1 <= pos < inp.Length && n <= out.Length && Decode(inp[pos..], m, out[..n]) == Uncompress(inp[..])
      decreases inp.Length - pos
    {
      pos, n := DecodeOne(inp, out, pos, n, m);
      if pos >= inp.Length { break; }
    }
    assert inp[pos..] == [];
    DecodeNothing(m, out[..n]);
  }
}
