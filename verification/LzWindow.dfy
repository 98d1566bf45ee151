/**
 The fast coder of libgfx/host-tools/lz.c looks one byte less far back than the other one.
 Here is the exact size of input up to which that makes no difference.
 */
module LzWindow {
  import opened Bytes
  import opened LzFormat
  import opened LzSearch
  import opened LzStream

  // ---- inputs on which the two coders differ ----

  // Five bytes that return after exactly MAX_OFFSET bytes, four of them also five bytes before.
  function Far(k: nat): (s: seq<byte>)
    ensures |s| == MAX_OFFSET + 5 + k
    ensures forall i | 0 <= i < |s| :: s[i] == FarAt(i)
  {
    seq(MAX_OFFSET + 5 + k, i requires 0 <= i => FarAt(i))
  }

  function FarAt(i: nat): byte {
    if i < 5 then i + 1
    else if i < MAX_OFFSET - 5 then 0
    else if i < MAX_OFFSET - 1 then i - (MAX_OFFSET - 6)
    else if i == MAX_OFFSET - 1 then 6
    else if i < MAX_OFFSET + 5 then i - (MAX_OFFSET - 1)
    else 9
  }

  // The six occurs once, so that no reference covers it, and a token ends behind it.
  lemma TokenEnds(k: nat, pos: nat, w: nat)
    requires pos < MAX_OFFSET
    ensures pos + Width(NextToken(Far(k), pos, w)) <= MAX_OFFSET
  {
    hide Far, Longest, MatchAt, Good;
    var s := Far(k);
    var t := NextToken(s, pos, w);
    if t.Ref? {
      RefMatches(s, pos, t.len, t.off);
      var i := MAX_OFFSET - 1 - pos;
      assert !Same(s, pos, pos - t.off, i);
    }
  }

  // At MAX_OFFSET four bytes match five back, five match MAX_OFFSET back, and none elsewhere.
  lemma FarMatches(k: nat, off: nat)
    requires 3 <= off <= MAX_OFFSET
    ensures MatchAt(Far(k), MAX_OFFSET, off) == if off == 5 then 4 else if off == MAX_OFFSET then 5 else 0
  {
    hide Far;
    var s, pos := Far(k), MAX_OFFSET;
    var q, max := pos - off, Limit(s, pos, off);
    MatchFacts(s, pos, q, 0, max);
    if off == 5 {
      MatchReaches(s, pos, q, 0, 4, max);
      assert !Same(s, pos, q, 4);
    } else if off == MAX_OFFSET {
      MatchReaches(s, pos, q, 0, 5, max);
      assert max >= 6 ==> !Same(s, pos, q, 5);
    } else {
      assert !Same(s, pos, q, 0);
    }
  }

  lemma FarTokens(k: nat)
    ensures NextToken(Far(k), MAX_OFFSET, MAX_OFFSET - 1) == Ref(4, 5)
    ensures NextToken(Far(k), MAX_OFFSET, MAX_OFFSET) == Lit(1)
  {
    hide Far, MatchAt, Longest;
    var s, pos := Far(k), MAX_OFFSET;
    LongestFinds(s, pos, pos - 1);
    LongestFinds(s, pos, pos);
    FarMatches(k, 5);
    FarMatches(k, pos);
    var b, c := Longest(s, pos, pos - 1), Longest(s, pos, pos);
    assert MatchAt(s, pos, 5) <= b.len && MatchAt(s, pos, pos) <= c.len;
    FarMatches(k, b.off);
    FarMatches(k, c.off);
  }

  lemma {:induction false} StreamsDiffer(k: nat, pos: nat, m: byte)
    requires pos <= MAX_OFFSET
    ensures EmitAll(Parse(Far(k), pos, MAX_OFFSET - 1), m) != EmitAll(Parse(Far(k), pos, MAX_OFFSET), m)
    decreases MAX_OFFSET - pos
  {
    hide Far, NextToken, MatchAt, Parse, Good, Emit;
    var s := Far(k);
    var t, rest := ParseStep(s, pos, MAX_OFFSET - 1);
    var u, more := ParseStep(s, pos, MAX_OFFSET);
    if pos == MAX_OFFSET {
      FarTokens(k);
      RefOrLit(m, EmitAll(rest, m), EmitAll(more, m));
    } else {
      SameToken(s, pos, MAX_OFFSET - 1, MAX_OFFSET);
      TokenEnds(k, pos, MAX_OFFSET);
      StreamsDiffer(k, pos + Width(t), m);
      Cancel(Emit(t, m), EmitAll(rest, m), EmitAll(more, m));
    }
  }

  lemma Cancel(a: seq<byte>, b: seq<byte>, c: seq<byte>)
    requires b != c
    ensures a + b != a + c
  {
    assert (a + b)[|a|..] == b && (a + c)[|a|..] == c;
  }

  lemma RefOrLit(m: byte, a: seq<byte>, b: seq<byte>)
    ensures Emit(Ref(4, 5), m) + a != Emit(Lit(1), m) + b
  {
    var x, y := Emit(Ref(4, 5), m) + a, Emit(Lit(1), m) + b;
    assert x[0] == m && x[1] == 4;
    assert if m == 1 then y[1] == 0 else y[0] == 1;
  }

  // ---- the exact size ----

  ghost predicate CodersAgree(n: nat) {
    forall s: seq<byte> | |s| == n :: Compressed(s, MAX_OFFSET - 1) == Compressed(s, MAX_OFFSET)
  }

  // The two coders give the same output for all inputs of a size exactly up to MAX_OFFSET + 4.
  lemma AgreeUpTo(n: nat)
    ensures CodersAgree(n) <==> n <= MAX_OFFSET + 4
  {
    hide Compressed, Far;
    if n <= MAX_OFFSET + 4 {
      forall s: seq<byte> | |s| == n ensures Compressed(s, MAX_OFFSET - 1) == Compressed(s, MAX_OFFSET) { FastIsSlow(s); }
    } else {
      FarDiffers(n - (MAX_OFFSET + 5));
    }
  }

  lemma FarDiffers(k: nat)
    ensures Compressed(Far(k), MAX_OFFSET - 1) != Compressed(Far(k), MAX_OFFSET)
  {
    hide Far, Parse, EmitAll, Marker;
    var s := Far(k);
    var m := Marker(s);
    StreamsDiffer(k, 0, m);
    Cancel([m], EmitAll(Parse(s, 0, MAX_OFFSET - 1), m), EmitAll(Parse(s, 0, MAX_OFFSET), m));
  }
}
