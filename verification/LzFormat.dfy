/**
 The stream format of the LZ77 coder (libgfx/host-tools/lz.c): a marker byte, then literals
 and references.  A literal marker is followed by zero; a reference is the marker followed by
 length and offset in base 128.  Decoding is modelled on byte sequences, with None where the C
 code would read outside a buffer.
 */
module LzFormat {
  import opened Bytes

  const WORD: nat := 0x1_0000_0000   // unsigned int is 32 bits wide

  datatype Option<T> = None | Some(value: T)

  // ---- variable-size integers ----

  // All digits but the last carry bit 7.
  function Digits(y: nat): seq<byte> {
    if y < 128 then [128 + y] else Digits(y / 128) + [128 + y % 128]
  }

  function VarSize(x: nat): seq<byte> {
    if x < 128 then [x] else Digits(x / 128) + [x % 128]
  }

  datatype Read = Short | Got(x: nat, rest: seq<byte>)

  // _LZ_ReadVarSize, continued with y; the shifts drop bits beyond 32
  function ReadVar(s: seq<byte>, y: nat): Read {
    if s == [] then Short
    else
      var z := (y * 128 + s[0] % 128) % WORD;
      if s[0] < 128 then Got(z, s[1..]) else ReadVar(s[1..], z)
  }

  lemma Joined(y: nat)
    requires y < WORD
    ensures (y / 128 * 128 + (128 + y % 128) % 128) % WORD == y
    ensures (y / 128 * 128 + (y % 128) % 128) % WORD == y
  {
    var q, r := y / 128, y % 128;
    assert y == q * 128 + r && (128 + r) % 128 == r && r % 128 == r;
  }

  lemma {:induction false} ReadDigits(y: nat, rest: seq<byte>)
    requires y < WORD
    ensures ReadVar(Digits(y) + rest, 0) == ReadVar(rest, y)
  {
    if y < 128 {
      assert (Digits(y) + rest)[1..] == rest;
    } else {
      var last: byte := 128 + y % 128;
      ReadDigits(y / 128, [last] + rest);
      assert Digits(y) + rest == Digits(y / 128) + ([last] + rest);
      assert ([last] + rest)[1..] == rest;
      Joined(y);
    }
  }

  lemma ReadVarSize(x: nat, rest: seq<byte>)
    requires x < WORD
    ensures ReadVar(VarSize(x) + rest, 0) == Got(x, rest)
  {
    if x < 128 {
      assert (VarSize(x) + rest)[1..] == rest;
    } else {
      var last: byte := x % 128;
      ReadDigits(x / 128, [last] + rest);
      assert VarSize(x) + rest == Digits(x / 128) + ([last] + rest);
      ReadLast(x / 128, last, rest);
      Joined(x);
    }
  }

  lemma ReadLast(y: nat, last: byte, rest: seq<byte>)
    requires last < 128
    ensures ReadVar([last] + rest, y) == Got((y * 128 + last % 128) % WORD, rest)
  {
    assert ([last] + rest)[1..] == rest;
  }

  lemma {:induction false} ReadShorter(s: seq<byte>, y: nat)
    ensures ReadVar(s, y).Got? ==> |ReadVar(s, y).rest| < |s| && ReadVar(s, y).x < WORD
    ensures ReadVar(s, y).Got? ==> s == s[..|s| - |ReadVar(s, y).rest|] + ReadVar(s, y).rest
  {
    if s != [] && s[0] >= 128 {
      var z := (y * 128 + s[0] % 128) % WORD;
      ReadShorter(s[1..], z);
    }
  }

  lemma {:induction false} DigitsSize(y: nat, n: nat)
    requires n > 0 && y < Pow128(n)
    ensures 0 < |Digits(y)| <= n && Digits(y)[0] >= 128
  {
    if y >= 128 { DigitsSize(y / 128, n - 1); }
  }

  function Pow128(n: nat): nat { if n == 0 then 1 else 128 * Pow128(n - 1) }

  // The length of the first byte's field, and that it is zero only for zero.
  lemma VarSizeBytes(x: nat, n: nat)
    requires n > 0 && x < Pow128(n)
    ensures 0 < |VarSize(x)| <= n && (VarSize(x)[0] == 0 <==> x == 0)
  {
    if x >= 128 { DigitsSize(x / 128, n - 1); }
  }

  lemma {:induction false} DigitsAtLeast(y: nat, n: nat)
    requires y >= Pow128(n)
    ensures |Digits(y)| > n
    decreases n
  {
    if n > 0 {
      assert y / 128 >= Pow128(n - 1);
      DigitsAtLeast(y / 128, n - 1);
    }
  }

  lemma VarSizeAtLeast(x: nat, n: nat)
    requires x >= Pow128(n)
    ensures |VarSize(x)| > n
  {
    if n > 0 {
      assert x / 128 >= Pow128(n - 1);
      DigitsAtLeast(x / 128, n - 1);
    }
  }

  // ---- tokens ----

  datatype Token = Lit(b: byte) | Ref(len: nat, off: nat)

  function Emit(t: Token, m: byte): seq<byte> {
    match t
    case Lit(b) => if b == m then [m, 0] else [b]
    case Ref(len, off) => [m] + VarSize(len) + VarSize(off)
  }

  function EmitAll(ts: seq<Token>, m: byte): seq<byte> {
    if ts == [] then [] else Emit(ts[0], m) + EmitAll(ts[1..], m)
  }

  // The byte-by-byte copy of the decoder; it may read what it has just written.
  function Copy(out: seq<byte>, len: nat, off: nat): (r: seq<byte>)
    requires 0 < off <= |out|
    ensures |r| == |out| + len
    decreases len
  {
    if len == 0 then out else Copy(out + [out[|out| - off]], len - 1, off)
  }

  // What a token means after the bytes out; a reference reaches back inside out.
  predicate Fits(t: Token, out: seq<byte>) {
    t.Ref? ==> 0 < t.len < WORD && 0 < t.off <= |out| && t.off < WORD
  }

  function Expand(ts: seq<Token>, out: seq<byte>): Option<seq<byte>> {
    if ts == [] then Some(out)
    else if !Fits(ts[0], out) then None
    else match ts[0]
      case Lit(b) => Expand(ts[1..], out + [b])
      case Ref(len, off) => Expand(ts[1..], Copy(out, len, off))
  }

  // ---- decoding ----

  // The loop of LZ_Uncompress on the bytes after the marker.
  function Decode(s: seq<byte>, m: byte, out: seq<byte>): Option<seq<byte>>
    decreases |s|
  {
    if s == [] then Some(out)
    else if s[0] != m then Decode(s[1..], m, out + [s[0]])
    else if |s| == 1 then None
    else if s[1] == 0 then Decode(s[2..], m, out + [m])
    else
      var l := ReadVar(s[1..], 0);
      if l.Short? then None
      else
        var o := ReadVar(l.rest, 0);
        ReadShorter(s[1..], 0);
        ReadShorter(l.rest, 0);
        if o.Short? || o.x == 0 || o.x > |out| then None
        else Decode(o.rest, m, Copy(out, l.x, o.x))
  }

  function Uncompress(z: seq<byte>): Option<seq<byte>> {
    if z == [] then Some([]) else if |z| == 1 then None else Decode(z[1..], z[0], [])
  }

  lemma DecodeLit(b: byte, m: byte, rest: seq<byte>, out: seq<byte>)
    ensures Decode(Emit(Lit(b), m) + rest, m, out) == Decode(rest, m, out + [b])
  {
    var s := Emit(Lit(b), m) + rest;
    if b == m { assert s[2..] == rest; } else { assert s[1..] == rest; }
  }

  lemma DecodeRef(len: nat, off: nat, m: byte, rest: seq<byte>, out: seq<byte>)
    requires Fits(Ref(len, off), out)
    ensures Decode(Emit(Ref(len, off), m) + rest, m, out) == Decode(rest, m, Copy(out, len, off))
  {
    hide VarSize, ReadVar, Copy;
    var s := Emit(Ref(len, off), m) + rest;
    FirstByte(len);
    assert s[1..] == VarSize(len) + (VarSize(off) + rest);
    ReadVarSize(len, VarSize(off) + rest);
    ReadVarSize(off, rest);
  }

  // Decoding what was emitted gives the meaning of the tokens.
  lemma {:induction false} DecodeEmit(ts: seq<Token>, m: byte, out: seq<byte>)
    requires Expand(ts, out).Some?
    ensures Decode(EmitAll(ts, m), m, out) == Expand(ts, out)
    decreases |ts|
  {
    hide Decode, Emit, Copy;
    if ts == [] {
      DecodeNothing(m, out);
    } else {
      match ts[0]
      case Lit(b) =>
        DecodeLit(b, m, EmitAll(ts[1..], m), out);
        DecodeEmit(ts[1..], m, out + [b]);
      case Ref(len, off) =>
        DecodeRef(len, off, m, EmitAll(ts[1..], m), out);
        DecodeEmit(ts[1..], m, Copy(out, len, off));
    }
  }

  lemma DecodeNothing(m: byte, out: seq<byte>)
    ensures Decode([], m, out) == Some(out)
  {
  }

  lemma {:induction false} FirstByte(x: nat)
    requires x > 0
    ensures VarSize(x) != [] && VarSize(x)[0] != 0
  {
    if x >= 128 { FirstDigit(x / 128); }
  }

  lemma {:induction false} FirstDigit(y: nat)
    ensures Digits(y) != [] && Digits(y)[0] >= 128
  {
    if y >= 128 { FirstDigit(y / 128); }
  }
}
