/**
 MD5 as a stream (libfoundation/src/algo/md5sum.cpp).  The block transformation is a fixed
 function; what is modelled is the buffering, the two-word bit counter, and the padding of
 sections 3.1 and 3.2 of RFC 1321.
 */
module Md5 {
  import opened Bytes

  const WORD: nat := 0x1_0000_0000   // uint4 and size_type are 32 bits wide
  const BLOCK: nat := 64

  type Words = seq<nat>
  type Transform = (Words, seq<byte>) -> Words

  // ---- the message digest of RFC 1321 ----

  function Fold(f: Transform, s: Words, m: seq<byte>): Words
    requires |m| % BLOCK == 0
    decreases |m|
  {
    if m == [] then s else Fold(f, f(s, m[..BLOCK]), m[BLOCK..])
  }

  // The low-order byte first.
  function LowBytes(x: nat, n: nat): seq<byte>
    decreases n
  {
    if n == 0 then [] else [x % 256] + LowBytes(x / 256, n - 1)
  }

  function Encode(ws: Words): seq<byte> {
    if ws == [] then [] else LowBytes(ws[0], 4) + Encode(ws[1..])
  }

  function Zeros(n: nat): seq<byte> { seq(n, _ => 0) }

  // Zero bytes up to eight before the end of a block.
  function PadLen(n: nat): nat { if n % BLOCK < 56 then 56 - n % BLOCK else 120 - n % BLOCK }

  // The message, one bit, zeros, and its length in bits as 64 bits, low-order word first.
  function Padded(m: seq<byte>): seq<byte> {
    m + ([0x80] + Zeros(PadLen(|m|) - 1)) + LowBytes(8 * |m| % (WORD * WORD), 8)
  }

  const INIT: Words := [0x67452301, 0xefcdab89, 0x98badcfe, 0x10325476]

  lemma LowBytesSize(x: nat, n: nat)
    ensures |LowBytes(x, n)| == n
  {
  }

  lemma PadFits(n: nat)
    ensures (n + PadLen(n) + 8) % BLOCK == 0 && 0 < PadLen(n) <= BLOCK
  {
    var q, r := n / BLOCK, n % BLOCK;
    assert n + PadLen(n) + 8 == (if r < 56 then q + 1 else q + 2) * BLOCK;
  }

  lemma PaddedSize(m: seq<byte>)
    ensures |Padded(m)| % BLOCK == 0
  {
    hide LowBytes, PadLen;
    PadFits(|m|);
    LowBytesSize(8 * |m| % (WORD * WORD), 8);
    assert |Padded(m)| == |m| + PadLen(|m|) + 8;
  }

  // The number that bytes encode, the low-order byte first.
  function LowValue(s: seq<byte>): nat { if s == [] then 0 else s[0] + 256 * LowValue(s[1..]) }

  lemma {:induction false} LowBytesValue(x: nat, n: nat)
    requires x < Pow256(n)
    ensures LowValue(LowBytes(x, n)) == x
  {
    if n > 0 {
      assert LowBytes(x, n)[1..] == LowBytes(x / 256, n - 1);
      LowBytesValue(x / 256, n - 1);
    }
  }

  lemma EightBytes(x: nat)
    requires x < WORD * WORD
    ensures x < Pow256(8)
  {
    assert Pow256(2) == 0x1_0000 && Pow256(4) == 0x1_0000_0000;
    assert Pow256(6) == 0x1_0000 * Pow256(4) && Pow256(8) == 0x1_0000 * Pow256(6);
  }

  // Sections 3.1 and 3.2 of RFC 1321: after the message a single 1 bit, then 0 bits up to 64 bits
  // short of a multiple of 512, at most 512 bits in all; then the length of the message in bits,
  // modulo 2^64.
  lemma PaddedIs(m: seq<byte>)
    ensures var p := Padded(m);
            && |p| % BLOCK == 0 && |m| + 9 <= |p| <= |m| + 72 && p[..|m|] == m && p[|m|] == 0x80
            && (forall i | |m| < i < |p| - 8 :: p[i] == 0) && LowValue(p[|p| - 8..]) == 8 * |m| % (WORD * WORD)
  {
    PaddedSize(m);
    PadFits(|m|);
    var n := 8 * |m| % (WORD * WORD);
    LowBytesSize(n, 8);
    EightBytes(n);
    LowBytesValue(n, 8);
    hide LowBytes, PadLen, LowValue, Pow256;
    var p := Padded(m);
    assert p[|p| - 8..] == LowBytes(n, 8);
  }

  lemma FourBytes(a: byte, b: byte, c: byte, d: byte)
    ensures LowBytes(a + 256 * b + 0x1_0000 * c + 0x100_0000 * d, 4) == [a, b, c, d]
  {
    var x := a + 256 * b + 0x1_0000 * c + 0x100_0000 * d;
    assert x / 256 == b + 256 * c + 0x1_0000 * d && x / 256 / 256 == c + 256 * d && x / 256 / 256 / 256 == d;
    assert LowBytes(d, 1) == [d] && LowBytes(c + 256 * d, 2) == [c, d] && LowBytes(b + 256 * c + 0x1_0000 * d, 3) == [b, c, d];
  }

  // Section 3.3 of RFC 1321: the four words of the start, as it writes them, byte by byte.
  lemma InitIs()
    ensures Encode(INIT) == [0x01, 0x23, 0x45, 0x67, 0x89, 0xab, 0xcd, 0xef, 0xfe, 0xdc, 0xba, 0x98, 0x76, 0x54, 0x32, 0x10]
  {
    hide LowBytes;
    FourBytes(0x01, 0x23, 0x45, 0x67);
    FourBytes(0x89, 0xab, 0xcd, 0xef);
    FourBytes(0xfe, 0xdc, 0xba, 0x98);
    FourBytes(0x76, 0x54, 0x32, 0x10);
    var w, x, y, z := 0x67452301, 0xefcdab89, 0x98badcfe, 0x10325476;
    assert INIT[1..] == [x, y, z] && [x, y, z][1..] == [y, z] && [y, z][1..] == [z] && [z][1..] == [];
    assert Encode([z]) == LowBytes(z, 4) + [] && Encode([y, z]) == LowBytes(y, 4) + Encode([z]) && Encode([x, y, z]) == LowBytes(x, 4) + Encode([y, z]);
  }

  function Digest(f: Transform, m: seq<byte>): seq<byte> {
    PaddedSize(m);
    Encode(Fold(f, INIT, Padded(m)))
  }

  lemma {:induction false} FoldMore(f: Transform, s: Words, a: seq<byte>, b: seq<byte>)
    requires |a| % BLOCK == 0 && |b| == BLOCK
    ensures |a + b| % BLOCK == 0 && Fold(f, s, a + b) == f(Fold(f, s, a), b)
    decreases |a|
  {
    if a == [] {
      assert a + b == b && b[..BLOCK] == b && b[BLOCK..] == [];
    } else {
      assert (a + b)[..BLOCK] == a[..BLOCK] && (a + b)[BLOCK..] == a[BLOCK..] + b;
      FoldMore(f, f(s, a[..BLOCK]), a[BLOCK..], b);
    }
  }

  // ---- the bit counter ----

  // The two words hold the number of bits modulo 2^64.
  predicate Counts(c0: nat, c1: nat, n: nat) {
    c0 == 8 * n % WORD && c1 == 8 * n / WORD % WORD
  }

  lemma CountsBytes(c0: nat, c1: nat, n: nat)
    requires Counts(c0, c1, n)
    ensures c0 / 8 % BLOCK == n % BLOCK
  {
    var q := 8 * n / WORD;
    assert 8 * n == q * WORD + c0;
    Multiple(q * 0x80_0000, c0 / 8, n);
  }

  lemma Multiple(k: nat, r: nat, n: nat)
    requires n == k * BLOCK + r
    ensures n % BLOCK == r % BLOCK
  {
  }

  // The carry of the low word is found by comparing the sum with the addend.
  lemma CountsAdd(c0: nat, c1: nat, n: nat, len: nat)
    requires Counts(c0, c1, n) && len < WORD
    ensures var low := len * 8 % WORD; var d0 := (c0 + low) % WORD;
            Counts(d0, ((if d0 < low then c1 + 1 else c1) + len / 0x2000_0000) % WORD, n + len)
  {
    var low, high := len * 8 % WORD, len / 0x2000_0000;
    var b, q := 8 * n, 8 * n / WORD;
    assert len * 8 == high * WORD + low;
    var carry := if c0 + low >= WORD then 1 else 0;
    var d0 := c0 + low - carry * WORD;
    assert 8 * (n + len) == (q + high + carry) * WORD + d0;
    assert 8 * (n + len) / WORD == q + high + carry && 8 * (n + len) % WORD == d0;
    ModSum(q, high + carry);
  }

  lemma ModSum(a: nat, b: nat)
    ensures (a % WORD + b) % WORD == (a + b) % WORD
  {
  }

  function Pow256(n: nat): nat { if n == 0 then 1 else 256 * Pow256(n - 1) }

  lemma {:induction false} LowBytesSplit(lo: nat, hi: nat, n: nat, k: nat)
    requires lo < Pow256(n)
    ensures LowBytes(lo + Pow256(n) * hi, n + k) == LowBytes(lo, n) + LowBytes(hi, k)
    decreases n
  {
    if n == 0 {
      assert lo + Pow256(0) * hi == hi && LowBytes(lo, 0) + LowBytes(hi, k) == LowBytes(hi, k);
    } else {
      var p := Pow256(n - 1);
      var x := lo + Pow256(n) * hi;
      assert Pow256(n) * hi == 256 * (p * hi);
      Byte(lo, p * hi);
      LowBytesSplit(lo / 256, hi, n - 1, k);
    }
  }

  lemma Byte(lo: nat, h: nat)
    ensures (lo + 256 * h) % 256 == lo % 256 && (lo + 256 * h) / 256 == lo / 256 + h
  {
  }

  lemma TwoWords(b: nat)
    ensures b % (WORD * WORD) == b % WORD + WORD * (b / WORD % WORD)
  {
    var q, c0 := b / WORD, b % WORD;
    var k, c1 := q / WORD, q % WORD;
    assert b == k * (WORD * WORD) + (c1 * WORD + c0);
  }

  // The length field is the two words of the counter, low-order byte first.
  lemma LengthField(c0: nat, c1: nat, n: nat)
    requires Counts(c0, c1, n)
    ensures Encode([c0, c1]) == LowBytes(8 * n % (WORD * WORD), 8)
  {
    hide LowBytes;
    TwoWords(8 * n);
    assert Pow256(4) == WORD;
    LowBytesSplit(c0, c1, 4, 4);
    assert [c0, c1][1..] == [c1] && [c1][1..] == [];
    assert Encode([c1]) == LowBytes(c1, 4) + [] == LowBytes(c1, 4);
  }

  // ---- the stream ----

  // The bytes of n that fill whole blocks.
  function Whole(n: nat): nat { n - n % BLOCK }

  // The state after a message: whole blocks are transformed, the rest is in the buffer.
  ghost predicate Holds(f: Transform, state: Words, buffer: seq<byte>, m: seq<byte>) {
    && |buffer| == BLOCK && Whole(|m|) % BLOCK == 0
    && state == Fold(f, INIT, m[..Whole(|m|)]) && buffer[..|m| % BLOCK] == m[Whole(|m|)..]
  }

  lemma WholeBlocks(n: nat)
    ensures Whole(n) % BLOCK == 0 && n - Whole(n) == n % BLOCK
  {
    assert n == n / BLOCK * BLOCK + n % BLOCK;
    Multiple(n / BLOCK, 0, Whole(n));
  }

  lemma FoldBlock(f: Transform, m: seq<byte>, k: nat)
    requires k % BLOCK == 0 && k + BLOCK <= |m|
    ensures (k + BLOCK) % BLOCK == 0 && Fold(f, INIT, m[..k + BLOCK]) == f(Fold(f, INIT, m[..k]), m[k..k + BLOCK])
  {
    assert m[..k] + m[k..k + BLOCK] == m[..k + BLOCK];
    FoldMore(f, INIT, m[..k], m[k..k + BLOCK]);
  }

  // The start of the last turn of the block loop for len bytes after n.
  function LastStart(n: nat, len: nat): nat
    requires BLOCK - n % BLOCK <= len
  {
    var first := BLOCK - n % BLOCK;
    first + (len - first) / BLOCK * BLOCK
  }

  // The block loop tests i + 64 <= length in 32 bits.
  predicate LoopGoesOn(i: nat, len: nat) { (i + BLOCK) % WORD <= len }

  predicate Stops(n: nat, len: nat) { BLOCK - n % BLOCK <= len ==> LastStart(n, len) + BLOCK < WORD }

  // The loop ends where it should if and only if the test does not wrap there.
  lemma LoopEnds(n: nat, len: nat)
    requires len < WORD && BLOCK - n % BLOCK <= len
    ensures LastStart(n, len) <= len < LastStart(n, len) + BLOCK
    ensures !LoopGoesOn(LastStart(n, len), len) <==> Stops(n, len)
  {
    var first := BLOCK - n % BLOCK;
    assert len - first == (len - first) / BLOCK * BLOCK + (len - first) % BLOCK;
  }

  // Anything up to 2^32 - 65 bytes is fine; the last 64 lengths are not always.
  lemma ShortEnough(n: nat, len: nat)
    requires len + BLOCK < WORD
    ensures Stops(n, len)
  {
    if BLOCK - n % BLOCK <= len { LoopEnds(n, len); }
  }

  // An input of 2^32 - 64 bytes to a fresh context: the index takes whole blocks only, wraps to
  // zero behind the last one, and the loop goes on from every index it can have.
  lemma WrapExample(i: nat)
    requires i < WORD && i % BLOCK == 0
    ensures !Stops(0, WORD - BLOCK) && LastStart(0, WORD - BLOCK) == WORD - BLOCK
    ensures LoopGoesOn(i, WORD - BLOCK) && (i + BLOCK) % WORD % BLOCK == 0
    ensures i == LastStart(0, WORD - BLOCK) ==> (i + BLOCK) % WORD == 0
  {
    if i + BLOCK < WORD { assert (i + BLOCK) % WORD == i + BLOCK; }
  }

  class MD5 {
    const f: Transform
    const buffer: array<byte>
    var state: Words
    var c0: nat
    var c1: nat
    var digest: seq<byte>
    var finalized: bool
    ghost var message: seq<byte>

    ghost predicate Valid()
      reads this, buffer
    {
      buffer.Length == BLOCK && (!finalized ==> Counts(c0, c1, |message|) && Holds(f, state, buffer[..], message))
    }

    constructor (transform: Transform)
      ensures Valid() && !finalized && message == [] && f == transform && fresh(buffer)
    {
      f := transform;
      buffer := new byte[BLOCK];
      state, c0, c1, digest, finalized, message := INIT, 0, 0, [], false, [];
    }

    // memcpy into the buffer
    method Fill(at: nat, bytes: seq<byte>)
      requires buffer.Length == BLOCK && at + |bytes| <= BLOCK
      modifies buffer
      ensures buffer[..at + |bytes|] == old(buffer[..at]) + bytes
    {
      var k := 0;
      while k < |bytes|
        invariant 0 <= k <= |bytes| && buffer[..at] == old(buffer[..at]) && buffer[at..at + k] == bytes[..k]
      {
        buffer[at + k] := bytes[k];
        assert buffer[at..at + k + 1] == buffer[at..at + k] + [bytes[k]];
        k := k + 1;
      }
      assert bytes[..k] == bytes;
    }

    // transform over the whole blocks of the input, from the end of the first one on
    method Blocks(input: seq<byte>, from: nat, ghost m: seq<byte>, ghost n: nat) returns (i: nat)
      requires |input| < WORD && n <= |m| && m == m[..n] + input && from == BLOCK - n % BLOCK <= |input| && Stops(n, |input|)
      requires (n + from) % BLOCK == 0 && state == Fold(f, INIT, m[..n + from])
      modifies this`state
      ensures from <= i <= |input| < i + BLOCK && (n + i) % BLOCK == 0 && state == Fold(f, INIT, m[..n + i])
    {
      LoopEnds(n, |input|);
      i := from;
      ghost var j := 0;
      while (i + BLOCK) % WORD <= |input|
        invariant i == from + j * BLOCK <= LastStart(n, |input|) && (n + i) % BLOCK == 0 && state == Fold(f, INIT, m[..n + i])
        decreases |input| - i
      {
        Turn(n, |input|, i, j);
        FoldBlock(f, m, n + i);
        BehindPrefix(m, n, input, i);
        state := f(state, input[i..i + BLOCK]);
        i := i + BLOCK;
        j := j + 1;
      }
      NoMore(n, |input|, i, j);
    }

    // the two-word counter
    method CountBits(len: nat, ghost n: nat)
      requires len < WORD && Counts(c0, c1, n)
      modifies this`c0, this`c1
      ensures Counts(c0, c1, n + len)
    {
      hide Counts;
      CountsAdd(c0, c1, n, len);
      var low := len * 8 % WORD;
      c0 := (c0 + low) % WORD;
      if c0 < low { c1 := c1 + 1; }
      c1 := (c1 + len / 0x2000_0000) % WORD;
    }

    // the first block, with what was in the buffer, and the whole blocks behind it
    method Absorb(input: seq<byte>, index: nat) returns (i: nat)
      requires buffer.Length == BLOCK && Holds(f, state, buffer[..], message) && |input| < WORD && Stops(|message|, |input|)
      requires index == |message| % BLOCK && BLOCK - index <= |input|
      modifies this`state, buffer
      ensures var m := message + input; var n := |message|;
              0 < i <= |input| < i + BLOCK && (n + i) % BLOCK == 0 && state == Fold(f, INIT, m[..n + i])
    {
      hide Stops, Fold;
      var first := BLOCK - index;
      ghost var n, m := |message|, message + input;
      WholeBlocks(n);
      Fill(index, input[..first]);
      assert buffer[..] == buffer[..index + first];
      FirstBlock(message, input, buffer[..]);
      FoldBlock(f, m, Whole(n));
      assert m[..Whole(n)] == message[..Whole(n)] && m[..n] == message;
      state := f(state, buffer[..]);
      i := Blocks(input, first, m, n);
    }

    method Update(input: seq<byte>)
      requires Valid() && !finalized && |input| < WORD && Stops(|message|, |input|)
      modifies this`state, this`c0, this`c1, this`message, buffer
      ensures Valid() && message == old(message) + input && !finalized
    {
      hide Counts, Stops, Fold;
      ghost var n, m, before := |message|, message + input, buffer[..];
      CountsBytes(c0, c1, n);
      var index := c0 / 8 % BLOCK;
      CountBits(|input|, n);
      WholeBlocks(n);
      WholeBlocks(|m|);
      var i := 0;
      if |input| >= BLOCK - index {
        i := Absorb(input, index);
        index := 0;
      }
      Fill(index, input[i..]);
      LastBytes(message, input, index, i, buffer[..], before);
      if i == 0 { assert m[..Whole(n)] == message[..Whole(n)]; }
      message := m;
    }

    // The digest is that of the whole message, however it was cut into updates.
    method Finalize()
      requires Valid()
      modifies this, buffer
      ensures Valid() && finalized && digest == if old(finalized) then old(digest) else Digest(f, old(message))
      ensures !old(finalized) ==> buffer[..] == Zeros(BLOCK) && c0 == c1 == 0
    {
      hide Counts, Fold, Encode, LowBytes, Stops;
      if finalized { return; }
      ghost var m, n := message, |message|;
      CountsBytes(c0, c1, n);
      LengthField(c0, c1, n);
      var bits := Encode([c0, c1]);
      LowBytesSize(8 * n % (WORD * WORD), 8);
      var index := c0 / 8 % BLOCK;
      var padLen := if index < 56 then 56 - index else 120 - index;
      PadFits(n);
      ShortEnough(n, padLen);
      Update([0x80] + Zeros(padLen - 1));
      ShortEnough(n + padLen, 8);
      Update(bits);
      PaddedSize(m);
      assert message == Padded(m) && Whole(|message|) == |message| && message[..|message|] == message;
      digest := Encode(state);
      Fill(0, Zeros(BLOCK));
      assert buffer[..] == buffer[..0 + BLOCK];
      c0, c1, finalized := 0, 0, true;
    }
  }

  function Flatten(pieces: seq<seq<byte>>): seq<byte> {
    if pieces == [] then [] else pieces[0] + Flatten(pieces[1..])
  }

  lemma {:induction false} FlattenEnd(pieces: seq<seq<byte>>, p: seq<byte>)
    ensures Flatten(pieces + [p]) == Flatten(pieces) + p
  {
    if pieces == [] {
      assert pieces + [p] == [p] && [p][1..] == [] && p + [] == p;
    } else {
      assert (pieces + [p])[1..] == pieces[1..] + [p];
      FlattenEnd(pieces[1..], p);
    }
  }

  // Hashing a message in pieces gives its one-shot digest.
  method HashPieces(f: Transform, pieces: seq<seq<byte>>) returns (d: seq<byte>)
    requires forall i | 0 <= i < |pieces| :: |pieces[i]| < WORD && Stops(|Flatten(pieces[..i])|, |pieces[i]|)
    ensures d == Digest(f, Flatten(pieces))
  {
    hide Digest, Stops;
    var h := new MD5(f);
    var i := 0;
    while i < |pieces|
      invariant i <= |pieces| && h.Valid() && !h.finalized && h.f == f && h.message == Flatten(pieces[..i]) && fresh(h) && fresh(h.buffer)
    {
      FlattenEnd(pieces[..i], pieces[i]);
      assert pieces[..i + 1] == pieces[..i] + [pieces[i]];
      h.Update(pieces[i]);
      i := i + 1;
    }
    assert pieces[..i] == pieces;
    h.Finalize();
    d := h.digest;
  }

  lemma BehindPrefix(m: seq<byte>, n: nat, input: seq<byte>, i: nat)
    requires n <= |m| && m == m[..n] + input && i + BLOCK <= |input|
    ensures m[n + i..n + i + BLOCK] == input[i..i + BLOCK]
  {
    assert m[n..] == input;
    assert m[n + i..n + i + BLOCK] == m[n..][i..i + BLOCK];
  }

  lemma Turn(n: nat, len: nat, i: nat, j: nat)
    requires len < WORD && BLOCK - n % BLOCK <= len && Stops(n, len) && i == BLOCK - n % BLOCK + j * BLOCK <= LastStart(n, len)
    requires (i + BLOCK) % WORD <= len
    ensures i + BLOCK <= len && i + BLOCK <= LastStart(n, len) && i + BLOCK == BLOCK - n % BLOCK + (j + 1) * BLOCK
  {
    LoopEnds(n, len);
    var first := BLOCK - n % BLOCK;
    var k := (len - first) / BLOCK;
    assert (j + 1) * BLOCK == j * BLOCK + BLOCK;
    assert j < k;
  }

  lemma NoMore(n: nat, len: nat, i: nat, j: nat)
    requires len < WORD && BLOCK - n % BLOCK <= len && Stops(n, len) && i == BLOCK - n % BLOCK + j * BLOCK <= LastStart(n, len)
    requires (i + BLOCK) % WORD > len
    ensures i <= len < i + BLOCK
  {
    LoopEnds(n, len);
  }

  lemma FirstBlock(m: seq<byte>, input: seq<byte>, buffer: seq<byte>)
    requires BLOCK - |m| % BLOCK <= |input| && |buffer| == BLOCK
    requires buffer == m[Whole(|m|)..] + input[..BLOCK - |m| % BLOCK]
    ensures Whole(|m|) + BLOCK <= |m + input| && buffer == (m + input)[Whole(|m|)..Whole(|m|) + BLOCK]
    ensures Whole(|m|) + BLOCK == |m| + (BLOCK - |m| % BLOCK)
  {
  }

  lemma LastBytes(m: seq<byte>, input: seq<byte>, index: nat, i: nat, buffer: seq<byte>, before: seq<byte>)
    requires |buffer| == |before| == BLOCK && before[..|m| % BLOCK] == m[Whole(|m|)..] && i <= |input| && index + |input| - i <= BLOCK
    requires buffer[..index + |input| - i] == (if i == 0 then before[..index] else []) + input[i..]
    requires if i == 0 then index == |m| % BLOCK && |input| < BLOCK - index else index == 0 && (|m| + i) % BLOCK == 0 && |input| < i + BLOCK
    ensures var k := |m + input|; buffer[..k % BLOCK] == (m + input)[Whole(k)..] && Whole(k) == if i == 0 then Whole(|m|) else |m| + i
  {
    var k := |m + input|;
    if i == 0 {
      SameBlock(|m|, |input|);
    } else {
      SameBlock(|m| + i, |input| - i);
    }
  }

  lemma SameBlock(n: nat, d: nat)
    requires n % BLOCK + d < BLOCK
    ensures (n + d) % BLOCK == n % BLOCK + d && Whole(n + d) == Whole(n)
  {
    Multiple(n / BLOCK, n % BLOCK + d, n + d);
  }
}
