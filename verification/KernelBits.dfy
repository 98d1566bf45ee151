/**
 Event bits, one by one.  The masks of libisix/kernel/events.c say what they should about every
 single bit position.
 */
module KernelBits {
  import opened KernelCalls

  predicate Bit(w: bv32, i: bv32) { i < 32 && (w >> i) & 1 == 1 }

  // The condition of a wait for the bits asked of a group with the bits cur: for all of them, or
  // for any.
  ghost predicate Fulfils(cur: bv32, asked: bv32, all: bool) {
    if all then forall i | Bit(asked, i) :: Bit(cur, i) else exists i :: Bit(asked, i) && Bit(cur, i)
  }

  // The same for the word that a waiting task has stored: bit 31 says that it waits for all of
  // the bits 0 to 29 in it.
  ghost predicate Met(cur: bv32, w: bv32) {
    if Bit(w, 31) then forall i: bv32 | i < 30 && Bit(w, i) :: Bit(cur, i) else exists i: bv32 :: i < 30 && Bit(w, i) && Bit(cur, i)
  }

  lemma AndBit(a: bv32, b: bv32, i: bv32)
    ensures Bit(a & b, i) <==> Bit(a, i) && Bit(b, i)
  {
  }

  lemma OrBit(a: bv32, b: bv32, i: bv32)
    ensures Bit(a | b, i) <==> Bit(a, i) || Bit(b, i)
  {
  }

  lemma AndNotBit(a: bv32, b: bv32, i: bv32)
    ensures Bit(a & !b, i) <==> Bit(a, i) && !Bit(b, i)
  {
  }

  lemma XorBit(a: bv32, b: bv32, i: bv32)
    ensures Bit(a ^ b, i) <==> Bit(a, i) != Bit(b, i)
  {
  }

  lemma WithBit(a: bv32, b: bv32, i: bv32)
    ensures Bit(With(a, b), i) <==> Bit(a, i) || Bit(b, i)
  {
    hide Bit;
    OrBit(a, b, i);
  }

  lemma WithoutBit(a: bv32, b: bv32, i: bv32)
    ensures Bit(Without(a, b), i) <==> Bit(a, i) && !Bit(b, i)
  {
    hide Bit;
    AndNotBit(a, b, i);
  }

  // cur has the bits of was, but for those of less.
  ghost predicate Minus(was: bv32, less: bv32, cur: bv32) { forall i :: Bit(cur, i) <==> Bit(was, i) && !Bit(less, i) }

  // A word that is not zero has a bit.
  lemma SomeBit(w: bv32) returns (i: bv32)
    requires w != 0
    ensures Bit(w, i)
  {
    i := 0;
    if w & 0xFFFF == 0 { i := 16; }
    if (w >> i) & 0xFF == 0 { i := i + 8; }
    if (w >> i) & 0xF == 0 { i := i + 4; }
    if (w >> i) & 0x3 == 0 { i := i + 2; }
    if (w >> i) & 0x1 == 0 { i := i + 1; }
  }

  lemma MinusIs(was: bv32, less: bv32)
    ensures Minus(was, less, Without(was, less))
  {
    hide Bit, Without;
    forall i ensures Bit(Without(was, less), i) <==> Bit(was, i) && !Bit(less, i) { WithoutBit(was, less, i); }
  }

  // No bit is in both.
  ghost predicate Apart(a: bv32, b: bv32) { forall i | Bit(a, i) :: !Bit(b, i) }

  lemma NoBit(i: bv32)
    ensures !Bit(0, i)
  {
  }

  function And(a: bv32, b: bv32): bv32 { a & b }

  lemma InBoth(a: bv32, b: bv32, i: bv32)
    ensures Bit(And(a, b), i) <==> Bit(a, i) && Bit(b, i)
  {
    hide Bit;
    AndBit(a, b, i);
  }

  lemma AnyIs(a: bv32, b: bv32)
    ensures And(a, b) != 0 <==> exists i :: Bit(a, i) && Bit(b, i)
  {
    hide Bit, And;
    if And(a, b) != 0 {
      var i := SomeBit(And(a, b));
      InBoth(a, b, i);
    } else if i :| Bit(a, i) && Bit(b, i) {
      InBoth(a, b, i);
      NoBit(i);
    }
  }

  lemma Different(a: bv32, b: bv32) returns (i: bv32)
    requires a != b
    ensures Bit(a, i) != Bit(b, i)
  {
    hide Bit;
    assert a ^ b != 0;
    i := SomeBit(a ^ b);
    XorBit(a, b, i);
  }

  lemma AllIs(a: bv32, b: bv32)
    ensures And(a, b) == b <==> forall i | Bit(b, i) :: Bit(a, i)
  {
    hide Bit, And;
    var c := And(a, b);
    forall i ensures Bit(c, i) <==> Bit(a, i) && Bit(b, i) { InBoth(a, b, i); }
    if c != b { var i := Different(c, b); }
  }

  // check_cond
  lemma CondIs(cur: bv32, asked: bv32, all: bool)
    ensures CheckCond(cur, asked, all) <==> Fulfils(cur, asked, all)
  {
    hide Bit;
    AllIs(cur, asked);
    AnyIs(cur, asked);
    assert And(cur, asked) == cur & asked;
  }

  lemma Control(w: bv32, i: bv32)
    ensures Bit(w & EVBITS, i) <==> i < 30 && Bit(w, i)
  {
  }

  lemma WantsAll(w: bv32)
    ensures w & ALL_FLAG != 0 <==> Bit(w, 31)
  {
  }

  lemma FlagBit(w: bv32)
    ensures w & CLEAR_FLAG != 0 <==> Bit(w, 30)
  {
  }

  // check_cond2
  lemma Cond2Is(cur: bv32, w: bv32)
    ensures CheckCond2(cur, w) <==> Met(cur, w)
  {
    hide Bit, CheckCond;
    var asked := w & EVBITS;
    CondIs(cur, asked, w & ALL_FLAG != 0);
    WantsAll(w);
    forall i ensures Bit(asked, i) <==> i < 30 && Bit(w, i) { Control(w, i); }
    if i :| Bit(asked, i) && Bit(cur, i) { assert i < 30 && Bit(w, i); }
    if i: bv32 :| i < 30 && Bit(w, i) && Bit(cur, i) { assert Bit(asked, i); }
  }

  // The stored word has the bits asked for, and says how they were asked for.
  lemma WordIs(bits: bv32, clear: bool, all: bool, i: bv32)
    requires Plain(bits)
    ensures var w := EvWord(bits, clear, all); (Bit(w, 31) <==> all) && (Bit(w, 30) <==> clear) && (i < 30 ==> (Bit(w, i) <==> Bit(bits, i)))
  {
  }
}
