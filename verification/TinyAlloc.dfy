/**
 The first-fit allocator of libfoundation/src/sys/tiny_alloc.c.  The heap is a row of blocks,
 each a header and its bytes.  Addresses and sizes are those of a 32-bit machine.
 */
module TinyAlloc {
  const HEADER: nat := 8            // sizeof(struct header)
  const WORD: nat := 0x1_0000_0000  // size_t is 32 bits wide

  datatype Block = Block(addr: nat, size: nat, free: bool)

  function Limit(b: Block): nat { b.addr + HEADER + b.size }

  // ALIGN_SIZE: up to a multiple of four, modulo 2^32
  function Align(size: nat): nat { (size + 3) % WORD / 4 * 4 }

  // An aligned request is at least the request, except for the last three values.
  lemma AlignEnough(size: nat)
    requires size < WORD
    ensures Align(size) >= size <==> size <= WORD - 4
    ensures size > WORD - 4 ==> Align(size) == 0
  {
  }

  // ---- the row of blocks ----

  // The blocks lie side by side from lo to hi.
  predicate Tiles(bs: seq<Block>, lo: nat, hi: nat) {
    if bs == [] then lo == hi else bs[0].addr == lo && Limit(bs[0]) <= hi && Tiles(bs[1..], Limit(bs[0]), hi)
  }

  // No two free blocks lie side by side.
  predicate Merged(bs: seq<Block>) { forall i | 0 <= i < |bs| - 1 :: !(bs[i].free && bs[i + 1].free) }

  ghost predicate Good(bs: seq<Block>, lo: nat, hi: nat) { Tiles(bs, lo, hi) && Merged(bs) }

  function Init(lo: nat, hi: nat): seq<Block>
    requires lo + HEADER <= hi
  {
    [Block(lo, hi - lo - HEADER, true)]
  }

  // ---- tiny_alloc ----

  // The first free block that is large enough; |bs| when there is none.
  function FirstFit(bs: seq<Block>, n: nat): (i: nat)
    ensures i <= |bs|
    ensures i < |bs| ==> bs[i].free && bs[i].size >= n
    ensures forall k | 0 <= k < i :: !(bs[k].free && bs[k].size >= n)
  {
    if bs == [] || (bs[0].free && bs[0].size >= n) then 0 else 1 + FirstFit(bs[1..], n)
  }

  function Carve(b: Block, n: nat): seq<Block>
    requires b.size >= n
  {
    if b.size < n + HEADER then [b.(free := false)]
    else [Block(b.addr, n, false), Block(b.addr + HEADER + n, b.size - HEADER - n, true)]
  }

  function Alloc(bs: seq<Block>, n: nat): seq<Block> {
    var i := FirstFit(bs, n);
    if i == |bs| then bs else bs[..i] + Carve(bs[i], n) + bs[i + 1..]
  }

  lemma BlockFits(bs: seq<Block>, i: nat, lo: nat, hi: nat)
    requires Tiles(bs, lo, hi) && i < |bs|
    ensures Limit(bs[i]) <= hi
  {
    var mid := TilesSplit(bs, i, lo, hi);
    assert bs[i..][0] == bs[i];
  }

  // The block given out.  It has room for the request if and only if the aligned size did not
  // wrap, that is, if the request is at most 2^32 - 4.
  lemma AllocEnough(bs: seq<Block>, request: nat, lo: nat, hi: nat)
    requires Good(bs, lo, hi) && hi < WORD && request < WORD && FirstFit(bs, Align(request)) < |bs|
    ensures var i := FirstFit(bs, Align(request)); var d := Alloc(bs, Align(request));
            i < |d| && d[i].addr == bs[i].addr && !d[i].free && (d[i].size >= request <==> request <= WORD - 4) && d[i].size < Align(request) + HEADER
  {
    AlignEnough(request);
    var n, i := Align(request), FirstFit(bs, Align(request));
    BlockFits(bs, i, lo, hi);
    hide Align, FirstFit;
    assert Alloc(bs, n)[i] == Carve(bs[i], n)[0];
  }

  // A request for 2^32 - 1 bytes succeeds on every fresh heap, with a block of at most 7 bytes.
  lemma HugeRequest(lo: nat, hi: nat)
    requires lo + HEADER <= hi < WORD
    ensures var d := Alloc(Init(lo, hi), Align(WORD - 1)); d != [] && d[0].addr == lo && !d[0].free && d[0].size < HEADER
  {
  }

  // ---- tiny_free ----

  function Join(a: Block, b: Block): Block { a.(size := a.size + b.size + HEADER) }

  // Block i is given back and merged with a free block behind it and before it.
  function Free(bs: seq<Block>, i: nat): seq<Block>
    requires i < |bs|
  {
    var b := bs[i].(free := true);
    var next := i + 1 < |bs| && bs[i + 1].free;
    var c := if next then Join(b, bs[i + 1]) else b;
    var rest := if next then bs[i + 2..] else bs[i + 1..];
    if i > 0 && bs[i - 1].free then bs[..i - 1] + [Join(bs[i - 1], c)] + rest else bs[..i] + [c] + rest
  }

  // ---- tiling ----

  lemma {:induction false} TilesJoin(a: seq<Block>, b: seq<Block>, lo: nat, mid: nat, hi: nat)
    requires Tiles(a, lo, mid) && Tiles(b, mid, hi)
    ensures Tiles(a + b, lo, hi) && lo <= mid <= hi
  {
    TilesRange(b, mid, hi);
    if a == [] {
      assert a + b == b;
    } else {
      assert (a + b)[1..] == a[1..] + b;
      TilesJoin(a[1..], b, Limit(a[0]), mid, hi);
    }
  }

  lemma {:induction false} TilesRange(bs: seq<Block>, lo: nat, hi: nat)
    requires Tiles(bs, lo, hi)
    ensures lo <= hi
  {
  }

  lemma {:induction false} TilesSplit(bs: seq<Block>, i: nat, lo: nat, hi: nat) returns (mid: nat)
    requires Tiles(bs, lo, hi) && i <= |bs|
    ensures Tiles(bs[..i], lo, mid) && Tiles(bs[i..], mid, hi)
    ensures i < |bs| ==> mid == bs[i].addr
    ensures i == |bs| ==> mid == hi
  {
    if i == 0 {
      mid := lo;
      assert bs[0..] == bs;
    } else {
      mid := TilesSplit(bs[1..], i - 1, Limit(bs[0]), hi);
      assert bs[1..][..i - 1] == bs[..i][1..] && bs[1..][i - 1..] == bs[i..];
      if i < |bs| { assert bs[1..][i - 1] == bs[i]; }
      TilesRange(bs[i..], mid, hi);
    }
  }

  // A row with one stretch replaced by another of the same extent.
  lemma TilesReplace(bs: seq<Block>, i: nat, j: nat, mid: seq<Block>, lo: nat, hi: nat)
    requires Tiles(bs, lo, hi) && i < j <= |bs| && Tiles(mid, bs[i].addr, Limit(bs[j - 1]))
    ensures Tiles(bs[..i] + mid + bs[j..], lo, hi)
  {
    var p := TilesSplit(bs, i, lo, hi);
    var q := TilesSplit(bs, j, lo, hi);
    var r := TilesSplit(bs, j - 1, lo, hi);
    assert bs[j - 1..][0] == bs[j - 1] && bs[j - 1..][1..] == bs[j..];
    TilesSame(bs[j..], Limit(bs[j - 1]), q, hi);
    TilesJoin(bs[..i], mid, lo, p, Limit(bs[j - 1]));
    TilesJoin(bs[..i] + mid, bs[j..], lo, Limit(bs[j - 1]), hi);
  }

  lemma TilesSame(bs: seq<Block>, a: nat, b: nat, hi: nat)
    requires Tiles(bs, a, hi) && Tiles(bs, b, hi)
    ensures a == b
  {
  }

  lemma NextAddress(bs: seq<Block>, i: nat, lo: nat, hi: nat)
    requires Tiles(bs, lo, hi) && i + 1 < |bs|
    ensures bs[i + 1].addr == Limit(bs[i])
  {
    var p := TilesSplit(bs, i, lo, hi);
    assert bs[i..][0] == bs[i] && bs[i..][1..] == bs[i + 1..] && bs[i + 1..][0] == bs[i + 1];
  }

  // ---- what allocation keeps ----

  lemma AllocGood(bs: seq<Block>, n: nat, lo: nat, hi: nat)
    requires Good(bs, lo, hi)
    ensures Good(Alloc(bs, n), lo, hi)
  {
    var i := FirstFit(bs, n);
    if i < |bs| {
      var c := Carve(bs[i], n);
      if |c| == 2 { assert c[1..] == [c[1]] && c[1..][1..] == []; }
      assert Tiles(c, bs[i].addr, Limit(bs[i]));
      TilesReplace(bs, i, i + 1, c, lo, hi);
      var d := bs[..i] + c + bs[i + 1..];
      forall k | 0 <= k < |d| - 1 ensures !(d[k].free && d[k + 1].free) {
        if k + 1 < i {
          assert d[k] == bs[k] && d[k + 1] == bs[k + 1];
        } else if k >= i + |c| {
          assert d[k] == bs[k - |c| + 1] && d[k + 1] == bs[k + 1 - |c| + 1];
        } else if |c| == 2 && k == i + 1 {
          assert d[k + 1] == bs[i + 1] && !bs[i + 1].free by { assert !(bs[i].free && bs[i + 1].free); }
        }
      }
    }
  }

  // Allocation fails exactly when no free block is large enough.
  lemma AllocFails(bs: seq<Block>, n: nat)
    ensures FirstFit(bs, n) == |bs| <==> forall k | 0 <= k < |bs| :: !(bs[k].free && bs[k].size >= n)
  {
  }

  // The blocks in use.
  function InUse(bs: seq<Block>): set<Block> { set b | b in bs && !b.free }

  // Only the block handed out is new; all others stay where they are.
  lemma AllocHolds(bs: seq<Block>, n: nat)
    requires FirstFit(bs, n) < |bs|
    ensures var i := FirstFit(bs, n); i < |Alloc(bs, n)| && InUse(Alloc(bs, n)) == InUse(bs) + {Alloc(bs, n)[i]}
  {
    hide FirstFit;
    var i := FirstFit(bs, n);
    var c, d := Carve(bs[i], n), Alloc(bs, n);
    Stretch(bs, i, i + 1, c, d);
    assert d[i] == c[0];
    assert forall b :: b in c && !b.free <==> b == c[0];
    assert bs[i..i + 1] == [bs[i]];
    assert forall b :: b in bs <==> b in bs[..i] || b in bs[i..i + 1] || b in bs[i + 1..] by { assert bs == bs[..i] + bs[i..i + 1] + bs[i + 1..]; }
  }

  lemma Stretch(bs: seq<Block>, a: nat, z: nat, c: seq<Block>, d: seq<Block>)
    requires a <= z <= |bs| && d == bs[..a] + c + bs[z..]
    ensures forall b :: b in d <==> b in bs[..a] || b in c || b in bs[z..]
    ensures forall b :: b in bs <==> b in bs[..a] || b in bs[a..z] || b in bs[z..]
  {
    assert bs == bs[..a] + bs[a..z] + bs[z..];
  }

  // Only the block given back is gone.
  lemma FreeHolds(bs: seq<Block>, i: nat, lo: nat, hi: nat)
    requires Tiles(bs, lo, hi) && i < |bs| && !bs[i].free
    ensures InUse(Free(bs, i)) == InUse(bs) - {bs[i]}
  {
    var next := i + 1 < |bs| && bs[i + 1].free;
    var prev := i > 0 && bs[i - 1].free;
    var a := if prev then i - 1 else i;
    var z := if next then i + 2 else i + 1;
    var b := bs[i].(free := true);
    var c := if next then Join(b, bs[i + 1]) else b;
    var one := if prev then Join(bs[i - 1], c) else c;
    Apart(bs, i, lo, hi);
    Dropped(bs, a, i, z, one, Free(bs, i));
  }

  lemma Dropped(bs: seq<Block>, a: nat, i: nat, z: nat, one: Block, d: seq<Block>)
    requires a <= i < z <= |bs| && d == bs[..a] + [one] + bs[z..] && one.free && !bs[i].free
    requires forall j | 0 <= j < |bs| && j != i :: bs[j] != bs[i] && (a <= j < z ==> bs[j].free)
    ensures InUse(d) == InUse(bs) - {bs[i]}
  {
    Stretch(bs, a, z, [one], d);
    forall x | x in bs[a..z] ensures x.free || x == bs[i] { var j :| a <= j < z && bs[j] == x; }
    assert bs[a..z][i - a] == bs[i];
  }

  // No block occurs twice in a tiling.
  lemma Apart(bs: seq<Block>, i: nat, lo: nat, hi: nat)
    requires Tiles(bs, lo, hi) && i < |bs|
    ensures forall j | 0 <= j < |bs| && j != i :: bs[j] != bs[i]
  {
    forall j | 0 <= j < |bs| && j != i ensures bs[j] != bs[i] {
      if j < i { Later(bs, j, i, lo, hi); } else { Later(bs, i, j, lo, hi); }
    }
  }

  lemma {:induction false} Later(bs: seq<Block>, i: nat, j: nat, lo: nat, hi: nat)
    requires Tiles(bs, lo, hi) && i < j < |bs|
    ensures lo <= bs[i].addr && Limit(bs[i]) <= bs[j].addr
    decreases j
  {
    if i == 0 {
      From(bs[1..], j - 1, Limit(bs[0]), hi);
    } else {
      Later(bs[1..], i - 1, j - 1, Limit(bs[0]), hi);
    }
  }

  lemma {:induction false} From(bs: seq<Block>, j: nat, lo: nat, hi: nat)
    requires Tiles(bs, lo, hi) && j < |bs|
    ensures lo <= bs[j].addr
    decreases j
  {
    if j > 0 { From(bs[1..], j - 1, Limit(bs[0]), hi); }
  }

  // ---- what freeing keeps ----

  // The blocks that are replaced, and by what.
  lemma FreeGood(bs: seq<Block>, i: nat, lo: nat, hi: nat)
    requires Good(bs, lo, hi) && i < |bs| && !bs[i].free
    ensures Good(Free(bs, i), lo, hi)
  {
    var next := i + 1 < |bs| && bs[i + 1].free;
    var prev := i > 0 && bs[i - 1].free;
    var a := if prev then i - 1 else i;
    var z := if next then i + 2 else i + 1;
    if next { NextAddress(bs, i, lo, hi); }
    if prev { NextAddress(bs, i - 1, lo, hi); }
    var b := bs[i].(free := true);
    var c := if next then Join(b, bs[i + 1]) else b;
    var one := if prev then Join(bs[i - 1], c) else c;
    assert Tiles([one], bs[a].addr, Limit(bs[z - 1])) by { assert [one][1..] == []; }
    TilesReplace(bs, a, z, [one], lo, hi);
    var d := bs[..a] + [one] + bs[z..];
    assert Free(bs, i) == d;
    forall k | 0 <= k < |d| - 1 ensures !(d[k].free && d[k + 1].free) {
      if k + 1 < a {
        assert d[k] == bs[k] && d[k + 1] == bs[k + 1];
      } else if k + 1 == a {
        assert d[k] == bs[k] && (prev ==> bs[k + 1].free);
      } else if k == a {
        assert d[k + 1] == bs[z] && !(bs[z - 1].free && bs[z].free);
      } else {
        assert d[k] == bs[k - a - 1 + z] && d[k + 1] == bs[k + 1 - a - 1 + z];
      }
    }
  }

  // ---- whole runs ----

  datatype Op = Get(n: nat) | Release(i: nat)

  // A release names a block that is in use; requests are those of tiny_alloc after rounding.
  predicate Enabled(bs: seq<Block>, op: Op) { op.Release? ==> op.i < |bs| && !bs[op.i].free }

  function Apply(bs: seq<Block>, op: Op): seq<Block>
    requires Enabled(bs, op)
  {
    match op case Get(n) => Alloc(bs, n) case Release(i) => Free(bs, i)
  }

  ghost predicate Lawful(bs: seq<Block>, ops: seq<Op>)
    decreases |ops|
  {
    ops == [] || (Enabled(bs, ops[0]) && Lawful(Apply(bs, ops[0]), ops[1..]))
  }

  ghost function Final(bs: seq<Block>, ops: seq<Op>): seq<Block>
    requires Lawful(bs, ops)
    decreases |ops|
  {
    if ops == [] then bs else Final(Apply(bs, ops[0]), ops[1..])
  }

  lemma {:induction false} RunGood(bs: seq<Block>, ops: seq<Op>, lo: nat, hi: nat)
    requires Good(bs, lo, hi) && Lawful(bs, ops)
    ensures Good(Final(bs, ops), lo, hi)
    decreases |ops|
  {
    if ops != [] {
      match ops[0] {
        case Get(n) => AllocGood(bs, n, lo, hi);
        case Release(i) => FreeGood(bs, i, lo, hi);
      }
      RunGood(Apply(bs, ops[0]), ops[1..], lo, hi);
    }
  }

  lemma InitGood(lo: nat, hi: nat)
    requires lo + HEADER <= hi
    ensures Good(Init(lo, hi), lo, hi)
  {
    assert Init(lo, hi)[1..] == [];
  }

  lemma NotMerged(bs: seq<Block>)
    requires |bs| > 1 && (forall i | 0 <= i < |bs| :: bs[i].free)
    ensures !Merged(bs)
  {
    assert bs[0].free && bs[0 + 1].free;
  }

  // However the blocks were given out and back, when all are back the heap is as it was.
  lemma AllReleased(lo: nat, hi: nat, ops: seq<Op>)
    requires lo + HEADER <= hi && Lawful(Init(lo, hi), ops)
    requires forall i | 0 <= i < |Final(Init(lo, hi), ops)| :: Final(Init(lo, hi), ops)[i].free
    ensures Final(Init(lo, hi), ops) == Init(lo, hi)
  {
    InitGood(lo, hi);
    RunGood(Init(lo, hi), ops, lo, hi);
    hide Merged;
    var bs := Final(Init(lo, hi), ops);
    if |bs| > 1 { NotMerged(bs); }
    assert bs[1..] == [] && bs == [bs[0]];
    assert Tiles(bs[1..], Limit(bs[0]), hi) && bs[0] == Block(lo, hi - lo - HEADER, true);
  }
}
