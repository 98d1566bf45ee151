/**
 The allocator's memory as libfoundation/src/sys/tiny_alloc.c keeps it: headers linked into a
 list of free blocks by their addresses.  The methods walk and rewrite that list and are
 proved to do to the row of blocks what the model in TinyAlloc does.
 */
module TinyHeap {
  import opened TinyAlloc

  const MAGIC: nat := 0x19790822

  // ---- the free blocks in address order ----

  function FreeOf(b: Block): seq<nat> { if b.free then [b.addr] else [] }

  function Frees(bs: seq<Block>): seq<nat> {
    if bs == [] then [] else FreeOf(bs[0]) + Frees(bs[1..])
  }

  lemma Assoc<T>(a: seq<T>, b: seq<T>, c: seq<T>)
    ensures a + b + c == a + (b + c)
  {
  }

  lemma FreesCons(b: Block, bs: seq<Block>)
    ensures Frees([b] + bs) == FreeOf(b) + Frees(bs)
  {
    hide FreeOf;
    assert ([b] + bs)[1..] == bs;
  }

  lemma {:induction false} FreesJoin(a: seq<Block>, b: seq<Block>)
    ensures Frees(a + b) == Frees(a) + Frees(b)
  {
    hide FreeOf, Frees;
    if a == [] {
      FreesNone(a);
      assert a + b == b && Frees(a) + Frees(b) == Frees(b);
    } else {
      var b0, rest := a[0], a[1..];
      assert a == [b0] + rest;
      Assoc([b0], rest, b);
      FreesJoin(rest, b);
      FreesCons(b0, rest + b);
      FreesCons(b0, rest);
      Assoc(FreeOf(b0), Frees(rest), Frees(b));
    }
  }

  lemma FreesNone(bs: seq<Block>)
    requires bs == []
    ensures Frees(bs) == []
  {
  }

  ghost predicate Ascending(fs: seq<nat>, lo: nat, hi: nat) {
    && (forall i | 0 <= i < |fs| :: lo <= fs[i] < hi)
    && (forall i, j | 0 <= i < j < |fs| :: fs[i] < fs[j])
  }

  lemma {:induction false} FreesAscend(bs: seq<Block>, lo: nat, hi: nat)
    requires Tiles(bs, lo, hi)
    ensures Ascending(Frees(bs), lo, hi)
  {
    if bs != [] {
      FreesAscend(bs[1..], Limit(bs[0]), hi);
      TilesRange(bs[1..], Limit(bs[0]), hi);
    }
  }

  // The first free block of a row, and the blocks in use before it.
  lemma {:induction false} NextFree(bs: seq<Block>) returns (i: nat)
    requires Frees(bs) != []
    ensures i < |bs| && bs[i].free && bs[i].addr == Frees(bs)[0]
    ensures Frees(bs[..i]) == [] && Frees(bs[i + 1..]) == Frees(bs)[1..]
    ensures forall k | 0 <= k < i :: !bs[k].free
  {
    if bs[0].free {
      i := 0;
    } else {
      var j := NextFree(bs[1..]);
      i := j + 1;
      assert bs[..i][1..] == bs[1..][..j] && bs[1..][j + 1..] == bs[i + 1..];
    }
  }

  lemma FirstFitIs(bs: seq<Block>, n: nat, i: nat)
    requires i < |bs| && bs[i].free && bs[i].size >= n && (forall k | 0 <= k < i :: !(bs[k].free && bs[k].size >= n))
    ensures FirstFit(bs, n) == i
  {
    var f := FirstFit(bs, n);
    assert f >= i && f <= i;
  }

  // ---- the list ----

  function Node(root: nat, fs: seq<nat>, k: nat): nat
    requires k <= |fs|
  {
    if k == 0 then root else fs[k - 1]
  }

  function Succ(fs: seq<nat>, k: nat): nat
    requires k <= |fs|
  {
    if k < |fs| then fs[k] else 0
  }

  ghost predicate Linked(next: map<nat, nat>, root: nat, fs: seq<nat>) {
    && root !in fs && 0 !in fs
    && (forall i, j | 0 <= i < j < |fs| :: fs[i] != fs[j])
    && (forall k | 0 <= k <= |fs| :: Node(root, fs, k) in next && next[Node(root, fs, k)] == Succ(fs, k))
  }

  // Element k leaves the list.
  lemma LinkedDrop(next: map<nat, nat>, root: nat, fs: seq<nat>, k: nat, m: nat)
    requires Linked(next, root, fs) && k < |fs|
    ensures fs[k] in next && Node(root, fs, k) in next
    ensures Linked(next[Node(root, fs, k) := next[fs[k]]][fs[k] := m], root, fs[..k] + fs[k + 1..])
    ensures Linked(next[Node(root, fs, k) := next[fs[k]]], root, fs[..k] + fs[k + 1..])
  {
    assert Node(root, fs, k + 1) == fs[k];
    var d := fs[..k] + fs[k + 1..];
    var a := next[Node(root, fs, k) := next[fs[k]]];
    var b := a[fs[k] := m];
    forall j | 0 <= j <= |d| ensures Node(root, d, j) in a && a[Node(root, d, j)] == Succ(d, j) && Node(root, d, j) != fs[k] {
      var o := if j <= k then j else j + 1;
      assert Node(root, d, j) == Node(root, fs, o);
      assert j < k ==> Succ(d, j) == Succ(fs, j);
      assert j >= k ==> Succ(d, j) == Succ(fs, j + 1);
      if j != k { assert Node(root, fs, o) != Node(root, fs, k); }
    }
  }

  // A new element f between elements k - 1 and k.
  lemma LinkedAdd(next: map<nat, nat>, root: nat, fs: seq<nat>, k: nat, f: nat)
    requires Linked(next, root, fs) && k <= |fs| && f !in fs && f != root && f != 0
    ensures Node(root, fs, k) in next
    ensures Linked(next[f := next[Node(root, fs, k)]][Node(root, fs, k) := f], root, fs[..k] + [f] + fs[k..])
  {
    var d := fs[..k] + [f] + fs[k..];
    var q := Node(root, fs, k);
    var a := next[f := next[q]][q := f];
    forall j | 0 <= j <= |d| ensures Node(root, d, j) in a && a[Node(root, d, j)] == Succ(d, j) {
      if j < k {
        assert Node(root, d, j) == Node(root, fs, j) != q && Succ(d, j) == Succ(fs, j);
      } else if j == k {
        assert Node(root, d, j) == q;
      } else if j == k + 1 {
        assert Node(root, d, j) == f && Succ(d, j) == Succ(fs, k);
      } else {
        assert Node(root, d, j) == Node(root, fs, j - 1) != q && Succ(d, j) == Succ(fs, j - 1);
      }
    }
  }

  ghost predicate Sized(size: map<nat, nat>, bs: seq<Block>) {
    forall i | 0 <= i < |bs| :: bs[i].addr in size && size[bs[i].addr] == bs[i].size
  }

  lemma {:induction false} AddressesDiffer(bs: seq<Block>, i: nat, j: nat, lo: nat, hi: nat)
    requires Tiles(bs, lo, hi) && i < j < |bs|
    ensures Limit(bs[i]) <= bs[j].addr && lo <= bs[i].addr && Limit(bs[j]) <= hi
  {
    if i == 0 {
      InRow(bs[1..], j - 1, Limit(bs[0]), hi);
    } else {
      AddressesDiffer(bs[1..], i - 1, j - 1, Limit(bs[0]), hi);
    }
  }

  lemma {:induction false} InRow(bs: seq<Block>, i: nat, lo: nat, hi: nat)
    requires Tiles(bs, lo, hi) && i < |bs|
    ensures lo <= bs[i].addr && Limit(bs[i]) <= hi
  {
    if i > 0 { InRow(bs[1..], i - 1, Limit(bs[0]), hi); }
  }

  // ---- one allocation, on the list and the sizes ----

  lemma FreesOne(b: Block)
    ensures Frees([b]) == FreeOf(b)
  {
    assert [b][1..] == [];
  }

  lemma Cut<T>(s: seq<T>, i: nat)
    requires i < |s|
    ensures s == s[..i] + [s[i]] + s[i + 1..]
  {
  }

  // The row splits into the blocks before i, block i, and the blocks behind it.
  lemma FreesAt(bs: seq<Block>, i: nat)
    requires i < |bs|
    ensures Frees(bs) == Frees(bs[..i]) + FreeOf(bs[i]) + Frees(bs[i + 1..])
  {
    hide Frees, FreeOf;
    var a, mid, c := bs[..i], [bs[i]], bs[i + 1..];
    Cut(bs, i);
    FreesReplaced(a, mid, c);
    FreesOne(bs[i]);
  }

  lemma FreesReplaced(a: seq<Block>, mid: seq<Block>, c: seq<Block>)
    ensures Frees(a + mid + c) == Frees(a) + Frees(mid) + Frees(c)
  {
    hide Frees;
    FreesJoin(a + mid, c);
    FreesJoin(a, mid);
  }

  // The list head lies outside the heap and not next to it.
  predicate Outside(root: nat, lo: nat, hi: nat) { root + HEADER < lo || hi < root }

  ghost predicate Valid(bs: seq<Block>, next: map<nat, nat>, size: map<nat, nat>, root: nat, lo: nat, hi: nat) {
    && Good(bs, lo, hi) && 0 < root && 0 < lo && Outside(root, lo, hi)
    && Linked(next, root, Frees(bs)) && Sized(size, bs) && root in size && size[root] == 0
  }

  // A free block's place in the list of free blocks.
  lemma KthFree(bs: seq<Block>, i: nat)
    requires i < |bs| && bs[i].free
    ensures var fs, k := Frees(bs), |Frees(bs[..i])|;
            && k < |fs| && fs[k] == bs[i].addr && fs[..k] == Frees(bs[..i]) && fs[k + 1..] == Frees(bs[i + 1..])
  {
    hide Frees;
    FreesAt(bs, i);
  }

  lemma FreesOfUsed(b: Block)
    ensures Frees([b.(free := false)]) == []
  {
    FreesOne(b.(free := false));
  }

  lemma FreesOfSplit(a: Block, b: Block)
    requires !a.free && b.free
    ensures Frees([a, b]) == [b.addr]
  {
    assert [a, b][1..] == [b] && [b][1..] == [];
    assert Frees([b]) == [b.addr];
  }

  // Block i is the first that fits and is given out whole.
  lemma TakeWhole(bs: seq<Block>, next: map<nat, nat>, size: map<nat, nat>, root: nat, lo: nat, hi: nat, i: nat, k: nat, n: nat)
    requires Valid(bs, next, size, root, lo, hi) && i < |bs| && FirstFit(bs, n) == i && bs[i].size < n + HEADER
    requires k == |Frees(bs[..i])| < |Frees(bs)|
    ensures Node(root, Frees(bs), k) in next && bs[i].addr in next
    ensures Valid(Alloc(bs, n), next[Node(root, Frees(bs), k) := next[bs[i].addr]][bs[i].addr := MAGIC], size, root, lo, hi)
  {
    hide Linked, Good, Sized, Frees, FirstFit;
    var fs := Frees(bs);
    KthFree(bs, i);
    LinkedDrop(next, root, fs, k, MAGIC);
    AllocGood(bs, n, lo, hi);
    FreesReplaced(bs[..i], Carve(bs[i], n), bs[i + 1..]);
    FreesOfUsed(bs[i]);
    assert fs[..k] + [] + fs[k + 1..] == fs[..k] + fs[k + 1..];
    WholeSizes(bs, size, i, n);
  }

  lemma WholeSizes(bs: seq<Block>, size: map<nat, nat>, i: nat, n: nat)
    requires Sized(size, bs) && i < |bs| && FirstFit(bs, n) == i && bs[i].size < n + HEADER
    ensures Sized(size, Alloc(bs, n))
  {
    hide FirstFit;
    var d := Alloc(bs, n);
    forall j | 0 <= j < |d| ensures d[j].addr in size && size[d[j].addr] == d[j].size { assert d[j].addr == bs[j].addr && d[j].size == bs[j].size; }
  }

  // The list of free blocks after a split.
  lemma SplitFrees(bs: seq<Block>, i: nat, k: nat, n: nat)
    requires i < |bs| && FirstFit(bs, n) == i && bs[i].size >= n + HEADER && k == |Frees(bs[..i])|
    ensures k < |Frees(bs)| && Frees(bs)[k] == bs[i].addr
    ensures Frees(Alloc(bs, n)) == Frees(bs)[..k] + [bs[i].addr + HEADER + n] + Frees(bs)[k + 1..]
  {
    hide Frees, FirstFit;
    KthFree(bs, i);
    FreesReplaced(bs[..i], Carve(bs[i], n), bs[i + 1..]);
    FreesOfSplit(Block(bs[i].addr, n, false), Block(bs[i].addr + HEADER + n, bs[i].size - HEADER - n, true));
  }

  // Block i is the first that fits and is split; the rest gets a header at f.
  lemma TakeSplit(bs: seq<Block>, next: map<nat, nat>, size: map<nat, nat>, root: nat, lo: nat, hi: nat, i: nat, k: nat, n: nat)
    requires Valid(bs, next, size, root, lo, hi) && i < |bs| && FirstFit(bs, n) == i && bs[i].size >= n + HEADER
    requires k == |Frees(bs[..i])| < |Frees(bs)|
    ensures Node(root, Frees(bs), k) in next && bs[i].addr in next
    ensures var h := bs[i].addr; var f := h + HEADER + n; var q := Node(root, Frees(bs), k);
            Valid(Alloc(bs, n), next[f := next[h]][q := f][h := MAGIC], size[f := bs[i].size - HEADER - n][h := n], root, lo, hi)
  {
    hide Linked, Good, Sized, Frees, FirstFit, Tiles, Alloc, Carve;
    GoodTiles(bs, lo, hi);
    var f := bs[i].addr + HEADER + n;
    SplitFrees(bs, i, k, n);
    InRow(bs, i, lo, hi);
    NotAnAddress(bs, i, f, lo, hi);
    SplitLinks(next, root, Frees(bs), k, f);
    AllocGood(bs, n, lo, hi);
    SplitSizes(bs, size, i, n, lo, hi);
  }

  lemma GoodTiles(bs: seq<Block>, lo: nat, hi: nat)
    requires Good(bs, lo, hi)
    ensures Tiles(bs, lo, hi)
  {
  }

  lemma SplitSizes(bs: seq<Block>, size: map<nat, nat>, i: nat, n: nat, lo: nat, hi: nat)
    requires Tiles(bs, lo, hi) && Sized(size, bs) && i < |bs| && FirstFit(bs, n) == i && bs[i].size >= n + HEADER
    ensures Sized(size[bs[i].addr + HEADER + n := bs[i].size - HEADER - n][bs[i].addr := n], Alloc(bs, n))
  {
    hide Tiles, FirstFit, Alloc;
    var d, h, f := Alloc(bs, n), bs[i].addr, bs[i].addr + HEADER + n;
    var z := size[f := bs[i].size - HEADER - n][h := n];
    NotAnAddress(bs, i, f, lo, hi);
    SplitRow(bs, i, n);
    forall j | 0 <= j < |d| ensures d[j].addr in z && z[d[j].addr] == d[j].size {
      if j < i {
        AddressesDiffer(bs, j, i, lo, hi);
      } else if j > i + 1 {
        AddressesDiffer(bs, i, j - 1, lo, hi);
      }
    }
  }

  lemma SplitRow(bs: seq<Block>, i: nat, n: nat)
    requires i < |bs| && FirstFit(bs, n) == i && bs[i].size >= n + HEADER
    ensures var d := Alloc(bs, n);
            && |d| == |bs| + 1 && d[i] == Block(bs[i].addr, n, false)
            && d[i + 1] == Block(bs[i].addr + HEADER + n, bs[i].size - HEADER - n, true)
            && (forall j | 0 <= j < i :: d[j] == bs[j]) && (forall j | i + 1 < j < |d| :: d[j] == bs[j - 1])
  {
    hide FirstFit;
    var two := Carve(bs[i], n);
    Patched(bs, i, two, i + 1, Alloc(bs, n));
    assert two[0] == Block(bs[i].addr, n, false) && two[1] == Block(bs[i].addr + HEADER + n, bs[i].size - HEADER - n, true);
  }

  // A row with the stretch from a to z replaced.
  lemma Patched<T>(s: seq<T>, a: nat, mid: seq<T>, z: nat, d: seq<T>)
    requires a <= z <= |s| && |mid| > 0 && d == s[..a] + mid + s[z..]
    ensures |d| == a + |mid| + |s| - z && d[a] == mid[0] && (|mid| > 1 ==> d[a + 1] == mid[1])
    ensures (forall j | 0 <= j < a :: d[j] == s[j]) && (forall j | a + |mid| <= j < |d| :: d[j] == s[j - a - |mid| + z])
  {
  }

  // The place of the new header lies inside block i.
  lemma NotAnAddress(bs: seq<Block>, i: nat, f: nat, lo: nat, hi: nat)
    requires Tiles(bs, lo, hi) && i < |bs| && bs[i].addr < f < Limit(bs[i])
    ensures lo < f < hi && f !in Frees(bs) && forall j | 0 <= j < |bs| :: bs[j].addr != f
  {
    InRow(bs, i, lo, hi);
    forall j | 0 <= j < |bs| ensures bs[j].addr != f {
      if j < i { AddressesDiffer(bs, j, i, lo, hi); } else if i < j { AddressesDiffer(bs, i, j, lo, hi); }
    }
    FreesAreAddresses(bs, f);
  }

  lemma {:induction false} FreesAreAddresses(bs: seq<Block>, f: nat)
    ensures f in Frees(bs) ==> exists j :: 0 <= j < |bs| && bs[j].addr == f
  {
    if bs != [] {
      FreesAreAddresses(bs[1..], f);
      if f in Frees(bs[1..]) {
        var j :| 0 <= j < |bs[1..]| && bs[1..][j].addr == f;
        assert bs[j + 1].addr == f;
      } else if f in Frees(bs) {
        assert bs[0].addr == f;
      }
    }
  }

  lemma SplitLinks(next: map<nat, nat>, root: nat, fs: seq<nat>, k: nat, f: nat)
    requires Linked(next, root, fs) && k < |fs| && f !in fs && f != root && f != 0
    ensures var h := fs[k]; var q := Node(root, fs, k);
            h in next && q in next && Linked(next[f := next[h]][q := f][h := MAGIC], root, fs[..k] + [f] + fs[k + 1..])
  {
    var h, q := fs[k], Node(root, fs, k);
    var d := fs[..k] + [f] + fs[k + 1..];
    assert Node(root, fs, k + 1) == h;
    var a := next[f := next[h]][q := f][h := MAGIC];
    forall j | 0 <= j <= |d| ensures Node(root, d, j) in a && a[Node(root, d, j)] == Succ(d, j) {
      if j < k {
        assert Node(root, d, j) == Node(root, fs, j) != q && Succ(d, j) == Succ(fs, j);
      } else if j == k {
        assert Node(root, d, j) == q;
      } else if j == k + 1 {
        assert Node(root, d, j) == f && Succ(d, j) == Succ(fs, k + 1);
      } else {
        assert Node(root, d, j) == Node(root, fs, j) != q && Succ(d, j) == Succ(fs, j);
      }
    }
  }

  // ---- one release, on the list and the sizes ----

  // Where a block in use belongs in the list of free blocks.
  lemma PlaceOf(bs: seq<Block>, i: nat, k: nat, lo: nat, hi: nat)
    requires Tiles(bs, lo, hi) && i < |bs| && !bs[i].free && k <= |Frees(bs)|
    requires forall j | 0 <= j < k :: Frees(bs)[j] < bs[i].addr
    requires k < |Frees(bs)| ==> bs[i].addr < Frees(bs)[k]
    ensures Frees(bs)[..k] == Frees(bs[..i]) && Frees(bs)[k..] == Frees(bs[i + 1..])
  {
    hide Frees;
    var fs, a, c := Frees(bs), Frees(bs[..i]), Frees(bs[i + 1..]);
    FreesAt(bs, i);
    assert a + [] + c == a + c;
    var mid := TilesSplit(bs, i, lo, hi);
    FreesAscend(bs[..i], lo, mid);
    var end := TilesSplit(bs, i + 1, lo, hi);
    FreesAscend(bs[i + 1..], end, hi);
    BehindBlock(bs, i, end, lo, hi);
    hide Tiles;
    if k < |a| { InFront(fs, a, c, k, lo, mid); } else if k > |a| { AtBack(fs, a, c, end, hi); }
  }

  lemma InFront(fs: seq<nat>, a: seq<nat>, c: seq<nat>, k: nat, lo: nat, mid: nat)
    requires fs == a + c && k < |a| && Ascending(a, lo, mid)
    ensures fs[k] < mid
  {
  }

  lemma AtBack(fs: seq<nat>, a: seq<nat>, c: seq<nat>, end: nat, hi: nat)
    requires fs == a + c && |a| < |fs| && Ascending(c, end, hi)
    ensures fs[|a|] >= end
  {
    assert fs[|a|] == c[0];
  }

  lemma BehindBlock(bs: seq<Block>, i: nat, end: nat, lo: nat, hi: nat)
    requires Tiles(bs, lo, hi) && i < |bs| && Tiles(bs[i + 1..], end, hi)
    ensures bs[i].addr < end
  {
    var p := TilesSplit(bs, i, lo, hi);
    assert bs[i..][0] == bs[i] && bs[i..][1..] == bs[i + 1..];
    TilesSame(bs[i + 1..], Limit(bs[i]), end, hi);
  }

  // The block behind i is free exactly when the next free block starts at its end.
  lemma NextTouches(bs: seq<Block>, i: nat, lo: nat, hi: nat)
    requires Tiles(bs, lo, hi) && i < |bs|
    ensures (i + 1 < |bs| && bs[i + 1].free) <==> Frees(bs[i + 1..]) != [] && Frees(bs[i + 1..])[0] == Limit(bs[i])
    ensures i + 1 < |bs| && bs[i + 1].free ==> Frees(bs[i + 1..])[1..] == Frees(bs[i + 2..])
  {
    if i + 1 < |bs| {
      NextAddress(bs, i, lo, hi);
      var rest := bs[i + 1..];
      assert rest[0] == bs[i + 1] && rest[1..] == bs[i + 2..];
      if !bs[i + 1].free && Frees(rest) != [] {
        var mid := TilesSplit(bs, i + 1, lo, hi);
        FreesAscend(bs[i + 2..], Limit(bs[i + 1]), hi);
        assert Frees(rest) == Frees(bs[i + 2..]);
      }
    }
  }

  // The block before i is free exactly when the last free block before it ends there.
  lemma PrevTouches(bs: seq<Block>, i: nat, lo: nat, hi: nat)
    requires Tiles(bs, lo, hi) && i < |bs|
    ensures i > 0 && bs[i - 1].free ==>
              Frees(bs[..i]) != [] && Frees(bs[..i])[|Frees(bs[..i])| - 1] == bs[i - 1].addr
              && Frees(bs[..i])[..|Frees(bs[..i])| - 1] == Frees(bs[..i - 1])
    ensures forall j | 0 <= j < i && bs[j].free && Limit(bs[j]) == bs[i].addr :: j == i - 1
  {
    if i > 0 {
      assert bs[..i] == bs[..i - 1] + [bs[i - 1]];
      FreesJoin(bs[..i - 1], [bs[i - 1]]);
      assert [bs[i - 1]][1..] == [];
    }
    forall j | 0 <= j < i && bs[j].free && Limit(bs[j]) == bs[i].addr ensures j == i - 1 {
      if j < i - 1 {
        AddressesDiffer(bs, j, i - 1, lo, hi);
        NextAddress(bs, i - 1, lo, hi);
      }
    }
  }

  lemma OnlyAscending(bs: seq<Block>, i: nat, lo: nat, hi: nat)
    requires Tiles(bs, lo, hi) && i < |bs| && !bs[i].free
    ensures bs[i].addr !in Frees(bs)
  {
    hide Frees;
    FreesAt(bs, i);
    var mid := TilesSplit(bs, i, lo, hi);
    FreesAscend(bs[..i], lo, mid);
    var end := TilesSplit(bs, i + 1, lo, hi);
    FreesAscend(bs[i + 1..], end, hi);
    BehindBlock(bs, i, end, lo, hi);
  }

  // The blocks of a release and their free list.
  lemma FreesAfter(bs: seq<Block>, i: nat, k: nat, lo: nat, hi: nat)
    requires Good(bs, lo, hi) && i < |bs| && !bs[i].free && k <= |Frees(bs)|
    requires Frees(bs)[..k] == Frees(bs[..i]) && Frees(bs)[k..] == Frees(bs[i + 1..])
    ensures var fs := Frees(bs); var h := bs[i].addr;
            var next := i + 1 < |bs| && bs[i + 1].free; var prev := i > 0 && bs[i - 1].free;
            && (next ==> k < |fs|) && (prev ==> k > 0)
            && Frees(Free(bs, i)) == (if prev then fs[..k] else fs[..k] + [h]) + (if next then fs[k + 1..] else fs[k..])
  {
    hide Frees, Good, Free;
    GoodTiles(bs, lo, hi);
    hide Tiles;
    ListBehind(bs, i, k, lo, hi);
    ListBefore(bs, i, k, lo, hi);
    FreedRow(bs, i);
  }

  lemma ListBehind(bs: seq<Block>, i: nat, k: nat, lo: nat, hi: nat)
    requires Tiles(bs, lo, hi) && i < |bs| && k <= |Frees(bs)| && Frees(bs)[k..] == Frees(bs[i + 1..])
    ensures var fs := Frees(bs); var next := i + 1 < |bs| && bs[i + 1].free;
            && (next ==> k < |fs|)
            && (if next then Frees(bs[i + 2..]) == fs[k + 1..] else Frees(bs[i + 1..]) == fs[k..])
  {
    hide Frees, Tiles;
    NextTouches(bs, i, lo, hi);
    if i + 1 < |bs| && bs[i + 1].free { assert Frees(bs)[k..][1..] == Frees(bs)[k + 1..]; }
  }

  lemma ListBefore(bs: seq<Block>, i: nat, k: nat, lo: nat, hi: nat)
    requires Tiles(bs, lo, hi) && i < |bs| && k <= |Frees(bs)| && Frees(bs)[..k] == Frees(bs[..i])
    ensures i > 0 && bs[i - 1].free ==> k > 0 && Frees(bs)[..k] == Frees(bs[..i - 1]) + [bs[i - 1].addr]
  {
    hide Frees, Tiles;
    PrevTouches(bs, i, lo, hi);
    if i > 0 && bs[i - 1].free {
      var p := Frees(bs[..i]);
      assert p == p[..|p| - 1] + [p[|p| - 1]];
    }
  }

  // The free blocks after block i is given back: those before, the merged block, those behind.
  lemma FreedRow(bs: seq<Block>, i: nat)
    requires i < |bs|
    ensures var next := i + 1 < |bs| && bs[i + 1].free; var tail := Frees(bs[if next then i + 2 else i + 1..]);
            Frees(Free(bs, i)) == (if i > 0 && bs[i - 1].free then Frees(bs[..i - 1]) + [bs[i - 1].addr]
                                   else Frees(bs[..i]) + [bs[i].addr]) + tail
  {
    hide Frees;
    var next := i + 1 < |bs| && bs[i + 1].free;
    var b := bs[i].(free := true);
    var c := if next then Join(b, bs[i + 1]) else b;
    var tail := bs[if next then i + 2 else i + 1..];
    if i > 0 && bs[i - 1].free {
      FreesReplaced(bs[..i - 1], [Join(bs[i - 1], c)], tail);
      FreesOne(Join(bs[i - 1], c));
    } else {
      FreesReplaced(bs[..i], [c], tail);
      FreesOne(c);
    }
  }

  // The list after the insertion of h behind element k - 1 and a merge with element k.
  lemma InsertLinks(next: map<nat, nat>, root: nat, fs: seq<nat>, k: nat, h: nat, behind: bool)
    requires Linked(next, root, fs) && k <= |fs| && h !in fs && h != root && h != 0 && (behind ==> k < |fs|)
    ensures var q := Node(root, fs, k);
            q in next && q != h &&
            var n1 := next[h := next[q]][q := h];
            n1[h] == Succ(fs, k) && (behind ==> fs[k] in n1) &&
            Linked(if behind then n1[h := n1[fs[k]]] else n1, root, fs[..k] + [h] + (if behind then fs[k + 1..] else fs[k..]))
  {
    LinkAt(next, root, fs, k);
    NodeApart(root, fs, k, h);
    LinkedAdd(next, root, fs, k, h);
    hide Linked;
    var q := Node(root, fs, k);
    var n1 := next[h := next[q]][q := h];
    var f1 := fs[..k] + [h] + fs[k..];
    if behind {
      assert f1[k + 1] == fs[k] && Node(root, f1, k + 1) == h;
      LinkedDrop(n1, root, f1, k + 1, 0);
      assert f1[..k + 1] + f1[k + 2..] == fs[..k] + [h] + fs[k + 1..];
    }
  }

  lemma NodeApart(root: nat, fs: seq<nat>, k: nat, h: nat)
    requires k <= |fs| && h !in fs && h != root
    ensures Node(root, fs, k) != h
  {
  }

  // And after a merge with element k - 1.
  lemma ReleaseLinks(next: map<nat, nat>, root: nat, fs: seq<nat>, k: nat, h: nat, behind: bool, before: bool)
    requires Linked(next, root, fs) && k <= |fs| && h !in fs && h != root && h != 0 && (behind ==> k < |fs|) && (before ==> k > 0)
    ensures var q := Node(root, fs, k);
            q in next &&
            var n1 := next[h := next[q]][q := h];
            n1[h] == Succ(fs, k) && (behind ==> fs[k] in n1) &&
            var n2 := if behind then n1[h := n1[fs[k]]] else n1;
            var n3 := if before then n2[q := n2[h]] else n2;
            Linked(n3, root, (if before then fs[..k] else fs[..k] + [h]) + (if behind then fs[k + 1..] else fs[k..]))
  {
    hide Linked;
    InsertLinks(next, root, fs, k, h, behind);
    var q := Node(root, fs, k);
    var n1 := next[h := next[q]][q := h];
    var n2 := if behind then n1[h := n1[fs[k]]] else n1;
    var tail := if behind then fs[k + 1..] else fs[k..];
    var f2 := fs[..k] + [h] + tail;
    if before {
      assert f2[k] == h && Node(root, f2, k) == q;
      LinkedDrop(n2, root, f2, k, 0);
      assert f2[..k] + f2[k + 1..] == fs[..k] + tail;
    }
  }

  lemma Distinct(bs: seq<Block>, i: nat, j: nat, lo: nat, hi: nat)
    requires Good(bs, lo, hi) && i < j < |bs|
    ensures bs[i].addr != bs[j].addr
  {
    AddressesDiffer(bs, i, j, lo, hi);
  }

  lemma ReleaseSizes(bs: seq<Block>, size: map<nat, nat>, i: nat, lo: nat, hi: nat)
    requires Good(bs, lo, hi) && Sized(size, bs) && i < |bs| && !bs[i].free
    ensures var h := bs[i].addr; var behind := i + 1 < |bs| && bs[i + 1].free; var before := i > 0 && bs[i - 1].free;
            && h in size && (behind ==> bs[i + 1].addr in size) && (before ==> bs[i - 1].addr in size) &&
            var s1 := if behind then size[h := size[h] + size[bs[i + 1].addr] + HEADER] else size;
            var s2 := if before then s1[bs[i - 1].addr := s1[bs[i - 1].addr] + s1[h] + HEADER] else s1;
            Sized(s2, Free(bs, i))
  {
    hide Good, Tiles, Free;
    var h, behind, before := bs[i].addr, i + 1 < |bs| && bs[i + 1].free, i > 0 && bs[i - 1].free;
    var s1 := if behind then size[h := size[h] + size[bs[i + 1].addr] + HEADER] else size;
    if before { Distinct(bs, i - 1, i, lo, hi); }
    var s2 := if before then s1[bs[i - 1].addr := s1[bs[i - 1].addr] + s1[h] + HEADER] else s1;
    var d := Free(bs, i);
    var a := if before then i - 1 else i;
    var z := if behind then i + 2 else i + 1;
    FreeRow(bs, i, a, z);
    forall j | 0 <= j < |d| ensures d[j].addr in s2 && s2[d[j].addr] == d[j].size {
      if j < a {
        Distinct(bs, j, i, lo, hi);
        if before { Distinct(bs, j, i - 1, lo, hi); }
      } else if j > a {
        Distinct(bs, i, j - a - 1 + z, lo, hi);
        if before { Distinct(bs, i - 1, j - a - 1 + z, lo, hi); }
      }
    }
  }

  lemma FreeRow(bs: seq<Block>, i: nat, a: nat, z: nat)
    requires i < |bs| && a == (if i > 0 && bs[i - 1].free then i - 1 else i)
    requires z == if i + 1 < |bs| && bs[i + 1].free then i + 2 else i + 1
    ensures var d := Free(bs, i);
            && |d| == a + 1 + |bs| - z && d[a].addr == bs[a].addr
            && d[a].size == bs[i].size + (if a < i then bs[a].size + HEADER else 0)
                            + (if z > i + 1 then bs[i + 1].size + HEADER else 0)
            && (forall j | 0 <= j < a :: d[j] == bs[j]) && (forall j | a < j < |d| :: d[j] == bs[j - a - 1 + z])
  {
    var b := bs[i].(free := true);
    var c := if z > i + 1 then Join(b, bs[i + 1]) else b;
    var one := [if a < i then Join(bs[a], c) else c];
    Patched(bs, a, one, z, Free(bs, i));
  }

  lemma NoneFree(bs: seq<Block>)
    requires Frees(bs) == []
    ensures forall j | 0 <= j < |bs| :: !bs[j].free
  {
    hide Frees;
    forall j | 0 <= j < |bs| ensures !bs[j].free { FreesAt(bs, j); }
  }

  class Heap {
    const root: nat   // the list head outside the heap
    ghost const lo: nat
    ghost const hi: nat
    var next: map<nat, nat>
    var size: map<nat, nat>
    ghost var blocks: seq<Block>

    ghost predicate Ok()
      reads this
    {
      Valid(blocks, next, size, root, lo, hi) && hi < WORD
    }

    // tiny_alloc_init
    constructor (root: nat, start: nat, end: nat)
      requires 0 < root && Outside(root, start, end) && start > 0 && start + HEADER <= end < WORD
      ensures Ok() && blocks == Init(start, end) && lo == start && hi == end
    {
      this.root, lo, hi := root, start, end;
      next := map[start := 0, root := start];
      size := map[start := end - start - HEADER, root := 0];
      blocks := Init(start, end);
      new;
      InitGood(start, end);
      assert blocks[1..] == [];
      assert Frees(blocks) == [start];
    }

    // The first free header with room for n bytes, its predecessor and its place.
    method Search(n: nat) returns (q: nat, h: nat, ghost i: nat, ghost k: nat)
      requires Ok()
      ensures h == 0 ==> FirstFit(blocks, n) == |blocks|
      ensures h != 0 ==> i < |blocks| && FirstFit(blocks, n) == i && h == blocks[i].addr
                         && k == |Frees(blocks[..i])| < |Frees(blocks)| && q == Node(root, Frees(blocks), k)
    {
      hide Frees, FirstFit, Good;
      ghost var fs := Frees(blocks);
      ghost var pre := 0;
      q, k, i := root, 0, 0;
      SearchStart(blocks);
      LinkAt(next, root, fs, 0);
      while next[q] != 0
        invariant 0 <= k <= |fs| && q == Node(root, fs, k) && q in next && next[q] == Succ(fs, k) && 0 <= pre <= |blocks|
        invariant Frees(blocks[..pre]) == fs[..k] && Frees(blocks[pre..]) == fs[k..]
        invariant forall j | 0 <= j < pre :: !(blocks[j].free && blocks[j].size >= n)
        decreases |fs| - k
      {
        h := next[q];
        i := SearchStep(blocks, fs, pre, k);
        if size[h] >= n {
          FirstFitIs(blocks, n, i);
          return;
        }
        LinkAt(next, root, fs, k + 1);
        q, k, pre := h, k + 1, i + 1;
      }
      h := 0;
      LinkAt(next, root, fs, k);
      SearchEnd(blocks, pre, n);
    }

    method Allocate(request: nat) returns (p: nat)
      requires Ok() && request < WORD
      modifies this`next, this`size, this`blocks
      ensures Ok() && blocks == TinyAlloc.Alloc(old(blocks), Align(request))
      ensures var i := FirstFit(old(blocks), Align(request)); p == if i == |old(blocks)| then 0 else old(blocks)[i].addr + HEADER
      ensures p != 0 ==> var i := FirstFit(old(blocks), Align(request));
                         i < |blocks| && blocks[i].addr + HEADER == p && !blocks[i].free && (blocks[i].size >= request <==> request <= WORD - 4)
    {
      hide Frees, FirstFit, Good, Linked, Sized, Carve;
      var n := Align(request);
      var q: nat, h: nat;
      ghost var i: nat, k: nat;
      q, h, i, k := Search(n);
      if h == 0 { return 0; }
      AllocEnough(blocks, request, lo, hi);
      SizeOf(blocks, size, i);
      if size[h] < n + HEADER {
        TakeWhole(blocks, next, size, root, lo, hi, i, k, n);
        next := next[q := next[h]];
      } else {
        TakeSplit(blocks, next, size, root, lo, hi, i, k, n);
        var f := h + HEADER + n;
        next := next[f := next[h]][q := f];
        size := size[f := size[h] - HEADER - n][h := n];
      }
      next := next[h := MAGIC];
      blocks := TinyAlloc.Alloc(blocks, n);
      return h + HEADER;
    }

    // The place of header h in the address order.
    method FindPlace(h: nat, ghost i: nat) returns (q: nat, ghost k: nat)
      requires Ok() && i < |blocks| && !blocks[i].free && h == blocks[i].addr
      ensures k <= |Frees(blocks)| && q == Node(root, Frees(blocks), k)
      ensures Frees(blocks)[..k] == Frees(blocks[..i]) && Frees(blocks)[k..] == Frees(blocks[i + 1..])
    {
      hide Frees, Good, Tiles;
      ghost var fs := Frees(blocks);
      q, k := root, 0;
      LinkAt(next, root, fs, 0);
      NotRoot(blocks, root, h, i, lo, hi);
      while !((q == root || h > q) && (next[q] == 0 || h < next[q]))
        invariant 0 <= k <= |fs| && q == Node(root, fs, k) && q in next && next[q] == Succ(fs, k)
        invariant forall j | 0 <= j < k :: fs[j] < h
        decreases |fs| - k
      {
        LinkAt(next, root, fs, k + 1);
        q, k := next[q], k + 1;
      }
      PlaceOf(blocks, i, k, lo, hi);
    }

    // tiny_free of the bytes of block i
    method Release(p: nat, ghost i: nat)
      requires Ok() && i < |blocks| && !blocks[i].free && p == blocks[i].addr + HEADER
      modifies this`next, this`size, this`blocks
      ensures Ok() && blocks == TinyAlloc.Free(old(blocks), i)
    {
      hide Frees, FirstFit, Good, Linked, Sized, Tiles;
      var h: nat := p - HEADER;
      var q: nat;
      ghost var k;
      q, k := FindPlace(h, i);
      Merges(blocks, next, size, root, lo, hi, i, k);
      next := next[h := next[q]][q := h];
      if h + HEADER + size[h] == next[h] {
        size := size[h := size[h] + size[next[h]] + HEADER];
        next := next[h := next[next[h]]];
      }
      if q + HEADER + size[q] == h {
        size := size[q := size[q] + size[h] + HEADER];
        next := next[q := next[h]];
      }
      blocks := TinyAlloc.Free(blocks, i);
    }
  }

  lemma SearchStart(bs: seq<Block>)
    ensures Frees(bs[..0]) == Frees(bs)[..0] && Frees(bs[0..]) == Frees(bs)[0..]
  {
    assert bs[0..] == bs;
  }

  lemma LinkAt(next: map<nat, nat>, root: nat, fs: seq<nat>, k: nat)
    requires Linked(next, root, fs) && k <= |fs|
    ensures Node(root, fs, k) in next && next[Node(root, fs, k)] == Succ(fs, k) && (Succ(fs, k) == 0 <==> k == |fs|)
  {
  }

  lemma SearchStep(bs: seq<Block>, fs: seq<nat>, pre: nat, k: nat) returns (i: nat)
    requires pre <= |bs| && k < |fs| && Frees(bs[..pre]) == fs[..k] && Frees(bs[pre..]) == fs[k..]
    ensures pre <= i < |bs| && bs[i].free && bs[i].addr == fs[k] && (forall j | pre <= j < i :: !bs[j].free)
    ensures Frees(bs[..i]) == fs[..k] && Frees(bs[..i + 1]) == fs[..k + 1] && Frees(bs[i + 1..]) == fs[k + 1..]
  {
    hide Frees;
    assert fs[k..] != [];
    var j := NextFree(bs[pre..]);
    i := pre + j;
    Advance(bs, pre, i);
    Onward(bs, pre, j);
    Onward(fs, k, 0);
    FreesJoin(bs[..pre], bs[pre..][..j]);
    FreesJoin(bs[..i], [bs[i]]);
    FreesOne(bs[i]);
  }

  lemma Onward<T>(s: seq<T>, i: nat, j: nat)
    requires i + j < |s|
    ensures s[i..][j] == s[i + j] && s[i..][j + 1..] == s[i + j + 1..]
    ensures s[..i + j] == s[..i] + s[i..][..j] && s[..i + j + 1] == s[..i + j] + [s[i + j]]
  {
  }

  lemma SearchEnd(bs: seq<Block>, pre: nat, n: nat)
    requires pre <= |bs| && Frees(bs[pre..]) == [] && (forall j | 0 <= j < pre :: !(bs[j].free && bs[j].size >= n))
    ensures FirstFit(bs, n) == |bs|
  {
    NoneFree(bs[pre..]);
    forall j | 0 <= j < |bs| ensures !(bs[j].free && bs[j].size >= n) { if j >= pre { assert bs[j] == bs[pre..][j - pre]; } }
    AllocFails(bs, n);
  }

  lemma SizeOf(bs: seq<Block>, size: map<nat, nat>, i: nat)
    requires Sized(size, bs) && i < |bs|
    ensures bs[i].addr in size && size[bs[i].addr] == bs[i].size
  {
  }

  lemma NotRoot(bs: seq<Block>, root: nat, h: nat, i: nat, lo: nat, hi: nat)
    requires Good(bs, lo, hi) && Outside(root, lo, hi) && i < |bs| && !bs[i].free && h == bs[i].addr
    ensures Tiles(bs, lo, hi) && lo <= h && h != root && h !in Frees(bs) && root !in Frees(bs) && (forall j | 0 <= j < |Frees(bs)| :: Frees(bs)[j] != h && Frees(bs)[j] != root)
  {
    InRow(bs, i, lo, hi);
    OnlyAscending(bs, i, lo, hi);
    FreesAscend(bs, lo, hi);
  }

  // The tests of tiny_free find the free neighbours, and the merges keep the heap valid.
  lemma Merges(bs: seq<Block>, next: map<nat, nat>, size: map<nat, nat>, root: nat, lo: nat, hi: nat, i: nat, k: nat)
    requires Valid(bs, next, size, root, lo, hi) && i < |bs| && !bs[i].free && k <= |Frees(bs)|
    requires Frees(bs)[..k] == Frees(bs[..i]) && Frees(bs)[k..] == Frees(bs[i + 1..])
    ensures var h := bs[i].addr; var fs := Frees(bs); var q := Node(root, fs, k);
            var behind := i + 1 < |bs| && bs[i + 1].free; var before := i > 0 && bs[i - 1].free;
            && q in next && q in size && h in size && h != q && size[h] == bs[i].size && (behind ==> k < |fs|)
            && (h + HEADER + size[h] == Succ(fs, k) <==> behind)
            && (q + HEADER + size[q] == h <==> before)
            && (behind ==> fs[k] == bs[i + 1].addr && fs[k] in size && fs[k] in next && fs[k] != h && fs[k] != q)
            && (before ==> q == bs[i - 1].addr)
            && var n1 := next[h := next[q]][q := h];
               n1[h] == Succ(fs, k) &&
               var n2 := if behind then n1[h := n1[fs[k]]] else n1;
               var n3 := if before then n2[q := n2[h]] else n2;
               var s1 := if behind then size[h := size[h] + size[fs[k]] + HEADER] else size;
               var s2 := if before then s1[q := s1[q] + s1[h] + HEADER] else s1;
               Valid(Free(bs, i), n3, s2, root, lo, hi)
  {
    hide Linked, Sized, Frees, Tiles, Good;
    NotRoot(bs, root, bs[i].addr, i, lo, hi);
    Neighbours(bs, size, root, lo, hi, i, k);
    FreesAfter(bs, i, k, lo, hi);
    FreeGood(bs, i, lo, hi);
    ReleaseLinks(next, root, Frees(bs), k, bs[i].addr, i + 1 < |bs| && bs[i + 1].free, i > 0 && bs[i - 1].free);
    ReleaseSizes(bs, size, i, lo, hi);
  }

  lemma Neighbours(bs: seq<Block>, size: map<nat, nat>, root: nat, lo: nat, hi: nat, i: nat, k: nat)
    requires Good(bs, lo, hi) && Sized(size, bs) && root in size && size[root] == 0 && Outside(root, lo, hi)
    requires i < |bs| && !bs[i].free && k <= |Frees(bs)|
    requires Frees(bs)[..k] == Frees(bs[..i]) && Frees(bs)[k..] == Frees(bs[i + 1..])
    ensures var h := bs[i].addr; var fs := Frees(bs); var q := Node(root, fs, k);
            var behind := i + 1 < |bs| && bs[i + 1].free; var before := i > 0 && bs[i - 1].free;
            && h in size && size[h] == bs[i].size && q in size && q != h && (k > 0 ==> q < h)
            && (behind ==> k < |fs| && fs[k] == bs[i + 1].addr && fs[k] in size && h < fs[k])
            && (before ==> k > 0 && q == bs[i - 1].addr)
            && (h + HEADER + size[h] == Succ(fs, k) <==> behind)
            && (q + HEADER + size[q] == h <==> before)
  {
    var h, fs := bs[i].addr, Frees(bs);
    InRow(bs, i, lo, hi);
    NextTouches(bs, i, lo, hi);
    PrevTouches(bs, i, lo, hi);
    Predecessor(bs, fs, root, lo, hi, i, k);
    assert Frees(bs[i + 1..]) != [] ==> fs[k..][0] == fs[k];
    if i + 1 < |bs| && bs[i + 1].free { NextAddress(bs, i, lo, hi); }
    if i > 0 && bs[i - 1].free { NextAddress(bs, i - 1, lo, hi); }
    hide Good, Frees;
  }

  // The last free block before block i has a lower address.
  lemma Predecessor(bs: seq<Block>, fs: seq<nat>, root: nat, lo: nat, hi: nat, i: nat, k: nat)
    requires Good(bs, lo, hi) && Outside(root, lo, hi) && i < |bs| && 0 <= k <= |fs| && fs[..k] == Frees(bs[..i])
    ensures k > 0 ==> exists j: nat :: j < i && bs[j].free && bs[j].addr == Node(root, fs, k)
    ensures k > 0 ==> Node(root, fs, k) < bs[i].addr
    ensures k == 0 ==> root != bs[i].addr && root + HEADER != bs[i].addr
  {
    InRow(bs, i, lo, hi);
    if k > 0 {
      var q := Node(root, fs, k);
      assert fs[..k][k - 1] == q;
      var j := FreeAmong(bs[..i], q);
      assert bs[..i][j] == bs[j];
      AddressesDiffer(bs, j, i, lo, hi);
    }
  }

  lemma {:induction false} FreeAmong(bs: seq<Block>, f: nat) returns (j: nat)
    requires f in Frees(bs)
    ensures j < |bs| && bs[j].free && bs[j].addr == f
  {
    if bs[0].free && bs[0].addr == f {
      j := 0;
    } else {
      j := FreeAmong(bs[1..], f);
      j := j + 1;
    }
  }

  lemma Advance(bs: seq<Block>, pre: nat, i: nat)
    requires pre <= i < |bs| && (forall k | 0 <= k < i - pre :: !bs[pre..][k].free)
    ensures forall j | pre <= j < i :: !bs[j].free
  {
    forall j | pre <= j < i ensures !bs[j].free { assert bs[j] == bs[pre..][j - pre]; }
  }
}
