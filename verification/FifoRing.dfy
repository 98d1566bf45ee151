/**
 The memory of the queue as libisix/kernel/fifo.c keeps it: a byte buffer of n elements of
 equal size and two byte positions that wrap at its end.  Copying an element in or out is the
 step WriteCopy or ReadCopy of the queue model.
 */
module FifoRing {
  import opened Bytes
  import opened Fifo

  lemma {:induction false} Before(i: nat, j: nat, e: nat)
    ensures i < j ==> i * e + e <= j * e
    decreases j
  {
    if i + 1 < j {
      Before(i, j - 1, e);
      assert j * e == (j - 1) * e + e;
    }
  }

  method Memcpy(mem: array<byte>, at: nat, item: seq<byte>)
    requires at + |item| <= mem.Length
    modifies mem
    ensures forall j | 0 <= j < mem.Length :: mem[j] == if at <= j < at + |item| then item[j - at] else old(mem[j])
  {
    var k := 0;
    while k < |item|
      invariant 0 <= k <= |item| && (forall j | 0 <= j < mem.Length :: mem[j] == if at <= j < at + k then item[j - at] else old(mem[j]))
    {
      mem[at + k] := item[k];
      k := k + 1;
    }
  }

  class Ring {
    const mem: array<byte>
    const size: nat          // bytes in an element
    ghost const n: nat       // elements
    var tx: nat
    var rx: nat
    ghost var ti: nat
    ghost var ri: nat

    constructor (elements: nat, bytes: nat)
      requires elements > 0 && bytes > 0
      ensures Valid() && n == elements && size == bytes && fresh(mem) && Holds(Create(Slots()))
    {
      mem := new byte[elements * bytes];
      size, n := bytes, elements;
      tx, rx, ti, ri := 0, 0, 0, 0;
    }

    ghost predicate Valid()
      reads this
    {
      && size > 0 && n > 0 && mem.Length == n * size
      && ti < n && ri < n && tx == ti * size && rx == ri * size
    }

    ghost function Slots(): (s: seq<seq<byte>>)
      requires Valid()
      reads this, mem
    {
      SlotsOf(mem[..], n, size)
    }

    // The bytes and positions are those of the queue f.
    ghost predicate Holds(f: Fifo<seq<byte>>)
      reads this, mem
    {
      Valid() && f.mem == Slots() && f.tx == ti && f.rx == ri
    }

    // The memory part of the step WriteCopy by the operation t.
    method CopyIn(item: seq<byte>, ghost f: Fifo<seq<byte>>, ghost t: nat)
      requires Holds(f) && |item| == size && t in f.writing && f.writing[t] == item
      modifies mem, this`tx, this`ti
      ensures Holds(Apply(f, WriteCopy(t)))
    {
      Before(ti, n, size);
      Memcpy(mem, tx, item);
      SlotSet(old(mem[..]), mem[..], ti, n, size, item);
      Wraps(ti, n, size);
      tx := tx + size;
      if tx >= mem.Length { tx := 0; }
      ti := Next(ti, n);
      assert Slots() == old(Slots())[old(ti) := item];
    }

    // The memory part of the step ReadCopy by the operation t.
    method CopyOut(ghost f: Fifo<seq<byte>>, ghost t: nat) returns (item: seq<byte>)
      requires Holds(f) && t in f.reading
      modifies this`rx, this`ri
      ensures Holds(Apply(f, ReadCopy(t))) && Apply(f, ReadCopy(t)).got == f.got + [item]
    {
      Before(ri, n, size);
      item := mem[rx..rx + size];
      Wraps(ri, n, size);
      rx := rx + size;
      if rx >= mem.Length { rx := 0; }
      ri := Next(ri, n);
      assert Slots() == f.mem;
    }
  }

  ghost function SlotOf(s: seq<byte>, i: nat, n: nat, e: nat): seq<byte>
    requires i < n && |s| == n * e
  {
    Before(i, n, e);
    s[i * e..i * e + e]
  }

  ghost function SlotsOf(s: seq<byte>, n: nat, e: nat): seq<seq<byte>>
    requires |s| == n * e
  {
    seq(n, i requires 0 <= i < n => SlotOf(s, i, n, e))
  }

  lemma SlotSet(s: seq<byte>, d: seq<byte>, t: nat, n: nat, e: nat, item: seq<byte>)
    requires t < n && |s| == |d| == n * e && |item| == e
    requires forall j | 0 <= j < |d| :: d[j] == if t * e <= j < t * e + e then item[j - t * e] else s[j]
    ensures SlotOf(d, t, n, e) == item && (forall i: nat | i < n && i != t :: SlotOf(d, i, n, e) == SlotOf(s, i, n, e))
  {
    forall i: nat | i < n && i != t ensures SlotOf(d, i, n, e) == SlotOf(s, i, n, e) {
      Before(i, n, e);
      Before(i, t, e);
      Before(t, i, e);
    }
    Before(t, n, e);
  }

  // The byte position wraps exactly when the slot number does.
  lemma Wraps(i: nat, n: nat, e: nat)
    requires i < n && e > 0
    ensures Next(i, n) * e == if i * e + e >= n * e then 0 else i * e + e
  {
    Before(i, n, e);
    Before(i + 1, n, e);
    assert (i + 1) * e == i * e + e;
  }
}
