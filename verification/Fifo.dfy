/**
 The queue of libisix/kernel/fifo.c under any interleaving of writers, readers and interrupt
 forms.  An operation has three atomic steps: its wait on one semaphore returns EOK, it copies
 one element under the lock, and it signals the other semaphore.  A wait that fails takes no
 step.  The queue trusts the EOK; a forged one comes without a token of the semaphore.
 */
module Fifo {
  // The ring of slots, the write and read positions, and the stored tokens of the two
  // semaphores (the number of waiting tasks is not part of this model).  Operations between
  // their steps: writers that hold a free slot and the element they bring, writers that have
  // copied, readers that hold an element, readers that have copied.  `put` and `got` are the
  // elements copied in and out since the creation, in order.
  datatype Fifo<T> = Fifo(mem: seq<T>, tx: nat, rx: nat, space: nat, items: nat,
                          writing: map<nat, T>, wrote: set<nat>, reading: set<nat>, read: set<nat>,
                          put: seq<T>, got: seq<T>)

  datatype Step<T> = WriteGrant(t: nat, item: T) | WriteForged(t: nat, item: T) | WriteCopy(t: nat) | WriteSignal(t: nat)
                   | ReadGrant(t: nat) | ReadForged(t: nat) | ReadCopy(t: nat) | ReadSignal(t: nat)

  predicate Idle<T>(f: Fifo<T>, t: nat) {
    t !in f.writing && t !in f.wrote && t !in f.reading && t !in f.read
  }

  function Next(p: nat, n: nat): nat { if p + 1 >= n then 0 else p + 1 }

  predicate Enabled<T>(f: Fifo<T>, s: Step<T>) {
    match s
    case WriteGrant(t, _) => Idle(f, t) && f.space > 0
    case WriteForged(t, _) => Idle(f, t)
    case WriteCopy(t) => t in f.writing
    case WriteSignal(t) => t in f.wrote
    case ReadGrant(t) => Idle(f, t) && f.items > 0
    case ReadForged(t) => Idle(f, t)
    case ReadCopy(t) => t in f.reading
    case ReadSignal(t) => t in f.read
  }

  function Apply<T>(f: Fifo<T>, s: Step<T>): Fifo<T>
    requires Enabled(f, s) && f.tx < |f.mem| && f.rx < |f.mem|
  {
    match s
    case WriteGrant(t, item) => f.(space := f.space - 1, writing := f.writing[t := item])
    case WriteForged(t, item) => f.(writing := f.writing[t := item])
    case WriteCopy(t) =>
      f.(mem := f.mem[f.tx := f.writing[t]], tx := Next(f.tx, |f.mem|), put := f.put + [f.writing[t]],
         writing := f.writing - {t}, wrote := f.wrote + {t})
    case WriteSignal(t) => f.(items := f.items + 1, wrote := f.wrote - {t})
    case ReadGrant(t) => f.(items := f.items - 1, reading := f.reading + {t})
    case ReadForged(t) => f.(reading := f.reading + {t})
    case ReadCopy(t) =>
      f.(rx := Next(f.rx, |f.mem|), got := f.got + [f.mem[f.rx]], reading := f.reading - {t}, read := f.read + {t})
    case ReadSignal(t) => f.(space := f.space + 1, read := f.read - {t})
  }

  // isix_fifo_create_ex
  function Create<T>(mem: seq<T>): Fifo<T> { Fifo(mem, 0, 0, |mem|, 0, map[], {}, {}, {}, [], []) }

  // isix_fifo_count
  function Counted<T>(f: Fifo<T>): nat { f.items }

  // ---- the invariant ----

  // The account of the slots, with a forged grants to writers and b to readers.
  predicate Account<T>(f: Fifo<T>, a: nat, b: nat) {
    && |f.put| + f.space + |f.writing| + |f.read| == |f.got| + |f.mem| + a
    && |f.put| + b == |f.got| + f.items + |f.wrote| + |f.reading|
  }

  predicate Positions<T>(f: Fifo<T>) {
    && |f.mem| > 0 && f.tx == |f.put| % |f.mem| && f.rx == |f.got| % |f.mem|
  }

  // The k-th element waits in slot k modulo the size until it is copied out.
  ghost predicate Contents<T(!new)>(f: Fifo<T>)
    requires |f.mem| > 0
  {
    forall k | |f.got| <= k < |f.put| :: f.mem[k % |f.mem|] == f.put[k]
  }

  // An operation is between two of its steps at most once.
  ghost predicate Once<T>(f: Fifo<T>) {
    && (forall t | t in f.writing :: t !in f.wrote && t !in f.reading && t !in f.read)
    && (forall t | t in f.wrote :: t !in f.reading && t !in f.read)
    && (forall t | t in f.reading :: t !in f.read)
  }

  // What holds with forged grants too.
  ghost predicate Loose<T>(f: Fifo<T>, a: nat, b: nat) { Account(f, a, b) && Positions(f) && Once(f) }

  ghost predicate Inv<T(!new)>(f: Fifo<T>) {
    && Loose(f, 0, 0) && Contents(f)
    && f.got <= f.put
  }

  lemma CreateInv<T(!new)>(mem: seq<T>)
    requires mem != []
    ensures Inv(Create(mem))
  {
  }

  // ---- the positions ----

  lemma NextPosition(k: nat, n: nat)
    requires n > 0
    ensures Next(k % n, n) == (k + 1) % n
  {
    var q, r := k / n, k % n;
    assert k + 1 == q * n + (r + 1);
    if r + 1 == n {
      assert k + 1 == (q + 1) * n;
      Multiple(q + 1, 0, n);
    } else {
      Multiple(q, r + 1, n);
    }
  }

  lemma {:induction false} Multiple(q: nat, r: nat, n: nat)
    requires n > 0 && r < n
    ensures (q * n + r) % n == r
    decreases q
  {
    if q > 0 {
      Multiple(q - 1, r, n);
      assert q * n + r == ((q - 1) * n + r) + n;
      AddOnce((q - 1) * n + r, n);
    }
  }

  lemma AddOnce(x: nat, n: nat)
    requires n > 0
    ensures (x + n) % n == x % n
  {
    var q, r := x / n, x % n;
    assert x + n == (q + 1) * n + r;
    assert (x + n) / n * n + (x + n) % n == x + n;
    Unique((x + n) / n, (x + n) % n, q + 1, r, n);
  }

  lemma Unique(a: nat, b: nat, c: nat, d: nat, n: nat)
    requires b < n && d < n && a * n + b == c * n + d
    ensures b == d
  {
    Apart(a, c, n);
    Apart(c, a, n);
  }

  lemma {:induction false} Apart(a: nat, c: nat, n: nat)
    ensures a < c ==> a * n + n <= c * n
    decreases c
  {
    if a + 1 < c {
      Apart(a, c - 1, n);
      assert c * n == (c - 1) * n + n;
    }
  }

  lemma Remainders(j: nat, k: nat, n: nat, a: nat, b: nat, x: nat, y: nat)
    requires j == a * n + x && k == b * n + y && x < n && y < n && j < k < j + n
    ensures x != y
  {
    Apart(a, b, n);
    Apart(b, a, n);
  }

  // Fewer than n consecutive numbers differ modulo n.
  lemma DifferentSlots(j: nat, k: nat, n: nat)
    requires n > 0 && j < k < j + n
    ensures j % n != k % n
  {
    Remainders(j, k, n, j / n, k / n, j % n, k % n);
  }

  // ---- every step ----

  lemma Smaller<T(!new)>(m: map<nat, T>, t: nat)
    requires t in m
    ensures |m| == |m - {t}| + 1
  {
    assert m == (m - {t})[t := m[t]];
  }

  lemma Larger<T(!new)>(m: map<nat, T>, t: nat, x: T)
    requires t !in m
    ensures |m[t := x]| == |m| + 1
  {
    assert m == m[t := x] - {t};
    Smaller(m[t := x], t);
  }

  lemma Fewer(a: set<nat>, t: nat)
    requires t in a
    ensures |a - {t}| == |a| - 1
  {
  }

  lemma More(a: set<nat>, t: nat)
    requires t !in a
    ensures |a + {t}| == |a| + 1
  {
  }

  lemma InRange<T>(f: Fifo<T>)
    requires Positions(f)
    ensures f.tx < |f.mem| && f.rx < |f.mem|
  {
  }

  function InCount<T>(s: Step<T>): nat { if s.WriteForged? then 1 else 0 }
  function OutCount<T>(s: Step<T>): nat { if s.ReadForged? then 1 else 0 }

  lemma StepLoose<T(!new)>(f: Fifo<T>, s: Step<T>, a: nat, b: nat)
    requires Loose(f, a, b) && Enabled(f, s)
    ensures f.tx < |f.mem| && f.rx < |f.mem| && |Apply(f, s).mem| == |f.mem|
    ensures Loose(Apply(f, s), a + InCount(s), b + OutCount(s))
  {
    hide Once, Positions, Account;
    InRange(f);
    var d := Apply(f, s);
    StepAccount(f, d, s, a, b);
    StepOnce(f, d, s);
    StepPositions(f, d, s);
  }

  lemma StepAccount<T(!new)>(f: Fifo<T>, d: Fifo<T>, s: Step<T>, a: nat, b: nat)
    requires Account(f, a, b) && Once(f) && f.tx < |f.mem| && f.rx < |f.mem| && Enabled(f, s) && d == Apply(f, s)
    ensures Account(d, a + InCount(s), b + OutCount(s))
  {
    match s {
      case WriteGrant(t, item) => Larger(f.writing, t, item);
      case WriteForged(t, item) => Larger(f.writing, t, item);
      case WriteCopy(t) => Smaller(f.writing, t); More(f.wrote, t);
      case WriteSignal(t) => Fewer(f.wrote, t);
      case ReadGrant(t) => More(f.reading, t);
      case ReadForged(t) => More(f.reading, t);
      case ReadCopy(t) => Fewer(f.reading, t); More(f.read, t);
      case ReadSignal(t) => Fewer(f.read, t);
    }
  }

  lemma StepOnce<T(!new)>(f: Fifo<T>, d: Fifo<T>, s: Step<T>)
    requires Once(f) && f.tx < |f.mem| && f.rx < |f.mem| && Enabled(f, s) && d == Apply(f, s)
    ensures Once(d)
  {
    match s
    case WriteGrant(t, item) =>
    case WriteForged(t, item) =>
    case WriteCopy(t) =>
    case WriteSignal(t) =>
    case ReadGrant(t) =>
    case ReadForged(t) =>
    case ReadCopy(t) =>
    case ReadSignal(t) =>
  }

  lemma StepPositions<T(!new)>(f: Fifo<T>, d: Fifo<T>, s: Step<T>)
    requires Positions(f) && Enabled(f, s) && d == Apply(f, s)
    ensures Positions(d)
  {
    NextPosition(|f.put|, |f.mem|);
    NextPosition(|f.got|, |f.mem|);
  }

  predicate IsForged<T>(s: Step<T>) { s.WriteForged? || s.ReadForged? }

  // A write that was granted a slot overwrites no unread element.
  lemma WriteCopyInv<T(!new)>(f: Fifo<T>, t: nat)
    requires Inv(f) && t in f.writing
    ensures Inv(Apply(f, WriteCopy(t)))
    ensures forall k | |f.got| <= k < |f.put| :: Apply(f, WriteCopy(t)).mem[k % |f.mem|] == f.mem[k % |f.mem|]
  {
    StepLoose(f, WriteCopy(t), 0, 0);
    Smaller(f.writing, t);
    hide Once;
    var d := Apply(f, WriteCopy(t));
    var n, w := |f.mem|, |f.put|;
    forall k | |f.got| <= k < w ensures d.mem[k % n] == f.mem[k % n] { DifferentSlots(k, w, n); }
    forall k | |d.got| <= k < |d.put| ensures d.mem[k % n] == d.put[k] { if k < w { DifferentSlots(k, w, n); } }
  }

  // The slot to read holds the next element.
  lemma NextElement<T(!new)>(f: Fifo<T>)
    requires Positions(f) && Contents(f) && |f.got| < |f.put|
    ensures f.mem[f.rx] == f.put[|f.got|]
  {
  }

  lemma FewerContents<T(!new)>(f: Fifo<T>, d: Fifo<T>)
    requires |f.mem| > 0 && Contents(f) && d.mem == f.mem && d.put == f.put && |d.got| == |f.got| + 1
    ensures Contents(d)
  {
  }

  lemma Unread<T(!new)>(f: Fifo<T>, t: nat)
    requires Account(f, 0, 0) && t in f.reading
    ensures |f.got| < |f.put|
  {
    Fewer(f.reading, t);
  }

  // A read that was granted an element gets the oldest unread one.
  lemma ReadCopyInv<T(!new)>(f: Fifo<T>, t: nat)
    requires Inv(f) && t in f.reading
    ensures Inv(Apply(f, ReadCopy(t)))
    ensures |f.got| < |f.put| && Apply(f, ReadCopy(t)).got == f.got + [f.put[|f.got|]]
  {
    hide Contents, Positions, Once, Account;
    StepLoose(f, ReadCopy(t), 0, 0);
    Unread(f, t);
    var d := Apply(f, ReadCopy(t));
    NextElement(f);
    assert f.put[..|f.got| + 1] == f.got + [f.put[|f.got|]];
    FewerContents(f, d);
  }

  lemma StepInv<T(!new)>(f: Fifo<T>, s: Step<T>)
    requires Inv(f) && Enabled(f, s) && !IsForged(s)
    ensures Inv(Apply(f, s)) && |Apply(f, s).mem| == |f.mem|
  {
    hide Once;
    if s.WriteCopy? {
      WriteCopyInv(f, s.t);
    } else if s.ReadCopy? {
      ReadCopyInv(f, s.t);
    } else {
      StepLoose(f, s, 0, 0);
    }
  }

  // ---- runs ----

  ghost predicate Lawful<T(!new)>(f: Fifo<T>, ss: seq<Step<T>>)
    decreases |ss|
  {
    ss == [] || (Enabled(f, ss[0]) && f.tx < |f.mem| && f.rx < |f.mem| && Lawful(Apply(f, ss[0]), ss[1..]))
  }

  ghost function Final<T(!new)>(f: Fifo<T>, ss: seq<Step<T>>): Fifo<T>
    requires Lawful(f, ss)
    decreases |ss|
  {
    if ss == [] then f else Final(Apply(f, ss[0]), ss[1..])
  }

  // The forged grants of a run, to writers and to readers.
  function ForgedIn<T>(ss: seq<Step<T>>): nat { if ss == [] then 0 else InCount(ss[0]) + ForgedIn(ss[1..]) }
  function ForgedOut<T>(ss: seq<Step<T>>): nat { if ss == [] then 0 else OutCount(ss[0]) + ForgedOut(ss[1..]) }

  predicate NoForged<T>(ss: seq<Step<T>>) { ForgedIn(ss) == 0 && ForgedOut(ss) == 0 }

  lemma {:induction false} RunLoose<T(!new)>(f: Fifo<T>, ss: seq<Step<T>>, a: nat, b: nat)
    requires Loose(f, a, b) && Lawful(f, ss)
    ensures Loose(Final(f, ss), a + ForgedIn(ss), b + ForgedOut(ss)) && |Final(f, ss).mem| == |f.mem|
    decreases |ss|
  {
    hide Loose, Enabled;
    if ss != [] {
      StepLoose(f, ss[0], a, b);
      RunLoose(Apply(f, ss[0]), ss[1..], a + InCount(ss[0]), b + OutCount(ss[0]));
    }
  }

  lemma {:induction false} RunInv<T(!new)>(f: Fifo<T>, ss: seq<Step<T>>)
    requires Inv(f) && Lawful(f, ss) && NoForged(ss)
    ensures Inv(Final(f, ss)) && |Final(f, ss).mem| == |f.mem|
    decreases |ss|
  {
    if ss != [] {
      StepInv(f, ss[0]);
      RunInv(Apply(f, ss[0]), ss[1..]);
    }
  }

  // In every interleaving without a forged grant the k-th element out is the k-th element in,
  // at most the capacity is unread, and the count is the number of unread elements, but for those
  // that a writer has not signalled yet or a reader is about to copy.
  lemma FirstInFirstOut<T(!new)>(mem: seq<T>, ss: seq<Step<T>>)
    requires mem != [] && Lawful(Create(mem), ss) && NoForged(ss)
    ensures var f := Final(Create(mem), ss);
            && |f.mem| == |mem| && f.got <= f.put && |f.put| - |f.got| <= |mem| && Counted(f) + |f.wrote| + |f.reading| == |f.put| - |f.got|
            && (forall k | |f.got| <= k < |f.put| :: f.mem[k % |mem|] == f.put[k])
  {
    CreateInv(mem);
    RunInv(Create(mem), ss);
    hide Lawful, Final;
  }

  // Free tokens, stored tokens and operations in flight make up the capacity exactly in the
  // runs without a forged grant.
  lemma TokensMakeCapacity<T(!new)>(mem: seq<T>, ss: seq<Step<T>>)
    requires mem != [] && Lawful(Create(mem), ss)
    ensures var f := Final(Create(mem), ss);
            f.space + f.items + |f.writing| + |f.wrote| + |f.reading| + |f.read| == |mem| <==> NoForged(ss)
  {
    CreateInv(mem);
    RunLoose(Create(mem), ss, 0, 0);
    hide Lawful, Final;
  }

  // Progress of the data: what a completed write put in, some completed read gets out.
  lemma Drained<T(!new)>(mem: seq<T>, ss: seq<Step<T>>)
    requires mem != [] && Lawful(Create(mem), ss) && NoForged(ss)
    requires var f := Final(Create(mem), ss); f.items == 0 && f.wrote == {} && f.reading == {}
    ensures Final(Create(mem), ss).got == Final(Create(mem), ss).put
  {
    CreateInv(mem);
    RunInv(Create(mem), ss);
  }

  // ---- with a forged grant ----

  // No more is copied out than was copied in, and no more is unread than there are slots.
  predicate Bounded<T>(f: Fifo<T>) { |f.got| <= |f.put| <= |f.got| + |f.mem| }

  // At the bounds both positions meet: a write there replaces the oldest unread element, and a
  // read there gets what no write left for it.
  lemma PositionsMeet<T(!new)>(f: Fifo<T>)
    requires Positions(f) && (|f.put| == |f.got| || |f.put| == |f.got| + |f.mem|)
    ensures f.tx == f.rx
  {
    AddOnce(|f.got|, |f.mem|);
  }

  predicate Quiet<T>(f: Fifo<T>) { f.writing == map[] && f.wrote == {} && f.reading == {} && f.read == {} }

  lemma OneMore<T(!new)>(f: Fifo<T>, s: Step<T>, ss: seq<Step<T>>)
    requires Enabled(f, s) && f.tx < |f.mem| && f.rx < |f.mem| && Lawful(Apply(f, s), ss)
    ensures Lawful(f, [s] + ss) && Final(f, [s] + ss) == Final(Apply(f, s), ss) && (NoForged([s] + ss) <==> !IsForged(s) && NoForged(ss))
  {
    assert ([s] + ss)[1..] == ss;
  }

  // Operations in flight can be finished,
  lemma {:induction false} Finish<T(!new)>(f: Fifo<T>, a: nat, b: nat) returns (ss: seq<Step<T>>)
    requires Loose(f, a, b)
    ensures Lawful(f, ss) && NoForged(ss) && Quiet(Final(f, ss))
    decreases 2 * |f.writing| + |f.wrote| + 2 * |f.reading| + |f.read|
  {
    hide Loose, Lawful, Final;
    if Quiet(f) {
      ss := [];
      NoMore(f);
    } else {
      var s := Pending(f);
      StepLoose(f, s, a, b);
      var rest := Finish(Apply(f, s), a, b);
      ss := [s] + rest;
      OneMore(f, s, rest);
    }
  }

  lemma NoMore<T(!new)>(f: Fifo<T>)
    ensures Lawful(f, []) && Final(f, []) == f && NoForged<T>([])
  {
  }

  // Some step of an operation in flight.
  lemma Pending<T(!new)>(f: Fifo<T>) returns (s: Step<T>)
    requires !Quiet(f)
    ensures Enabled(f, s) && (s.WriteCopy? || s.WriteSignal? || s.ReadCopy? || s.ReadSignal?)
    ensures f.tx < |f.mem| && f.rx < |f.mem| ==>
              var d := Apply(f, s);
              2 * |d.writing| + |d.wrote| + 2 * |d.reading| + |d.read| < 2 * |f.writing| + |f.wrote| + 2 * |f.reading| + |f.read|
  {
    if f.writing != map[] {
      var t :| t in f.writing;
      s := WriteCopy(t);
      Smaller(f.writing, t);
      AtMostOne(f.wrote, t);
    } else if f.wrote != {} {
      var t :| t in f.wrote;
      s := WriteSignal(t);
      Fewer(f.wrote, t);
    } else if f.reading != {} {
      var t :| t in f.reading;
      s := ReadCopy(t);
      Fewer(f.reading, t);
      AtMostOne(f.read, t);
    } else {
      var t :| t in f.read;
      s := ReadSignal(t);
      Fewer(f.read, t);
    }
  }

  lemma AtMostOne(a: set<nat>, t: nat)
    ensures |a + {t}| <= |a| + 1
  {
    if t in a { assert a + {t} == a; } else { More(a, t); }
  }

  // all free slots can be written,
  lemma {:induction false} Fill<T(!new)>(f: Fifo<T>, x: T, a: nat, b: nat) returns (ss: seq<Step<T>>)
    requires Loose(f, a, b) && Quiet(f)
    ensures Lawful(f, ss) && NoForged(ss) && Quiet(Final(f, ss)) && Final(f, ss).space == 0
    decreases f.space
  {
    hide Loose, Lawful, Final;
    if f.space == 0 {
      ss := [];
      NoMore(f);
    } else {
      var g, c, d := WriteGrant(0, x), WriteCopy(0), WriteSignal(0);
      StepLoose(f, g, a, b);
      var f1 := Apply(f, g);
      StepLoose(f1, c, a, b);
      var f2 := Apply(f1, c);
      StepLoose(f2, d, a, b);
      var f3 := Apply(f2, d);
      assert f3.writing == map[];
      var rest := Fill(f3, x, a, b);
      OneMore(f2, d, rest);
      OneMore(f1, c, [d] + rest);
      OneMore(f, g, [c] + ([d] + rest));
      ss := [g] + ([c] + ([d] + rest));
    }
  }

  // and all stored elements read.
  lemma {:induction false} Drain<T(!new)>(f: Fifo<T>, a: nat, b: nat) returns (ss: seq<Step<T>>)
    requires Loose(f, a, b) && Quiet(f)
    ensures Lawful(f, ss) && NoForged(ss) && Quiet(Final(f, ss)) && Final(f, ss).items == 0
    decreases f.items
  {
    hide Loose, Lawful, Final;
    if f.items == 0 {
      ss := [];
      NoMore(f);
    } else {
      var g, c, d: Step<T> := ReadGrant(0), ReadCopy(0), ReadSignal(0);
      StepLoose(f, g, a, b);
      var f1 := Apply(f, g);
      StepLoose(f1, c, a, b);
      var f2 := Apply(f1, c);
      StepLoose(f2, d, a, b);
      var f3 := Apply(f2, d);
      var rest := Drain(f3, a, b);
      OneMore(f2, d, rest);
      OneMore(f1, c, [d] + rest);
      OneMore(f, g, [c] + ([d] + rest));
      ss := [g] + ([c] + ([d] + rest));
    }
  }

  lemma {:induction false} Append<T(!new)>(f: Fifo<T>, ss: seq<Step<T>>, more: seq<Step<T>>)
    requires Lawful(f, ss) && Lawful(Final(f, ss), more)
    ensures Lawful(f, ss + more) && Final(f, ss + more) == Final(Final(f, ss), more)
    ensures ForgedIn(ss + more) == ForgedIn(ss) + ForgedIn(more) && ForgedOut(ss + more) == ForgedOut(ss) + ForgedOut(more)
    decreases |ss|
  {
    if ss == [] {
      assert ss + more == more;
    } else {
      assert (ss + more)[0] == ss[0] && (ss + more)[1..] == ss[1..] + more;
      Append(Apply(f, ss[0]), ss[1..], more);
    }
  }

  // One forged grant is enough: honest steps alone can then take the queue out of its bounds.
  lemma ForgedBreaks<T(!new)>(mem: seq<T>, ss: seq<Step<T>>) returns (more: seq<Step<T>>)
    requires mem != [] && Lawful(Create(mem), ss) && !NoForged(ss)
    ensures Lawful(Create(mem), ss + more) && NoForged(more) && !Bounded(Final(Create(mem), ss + more))
  {
    hide Lawful, Final, Loose, ForgedIn, ForgedOut;
    var a, b := ForgedIn(ss), ForgedOut(ss);
    CreateInv(mem);
    RunLoose(Create(mem), ss, 0, 0);
    var f := Final(Create(mem), ss);
    var done := Finish(f, a, b);
    RunLoose(f, done, a, b);
    var d := Final(f, done);
    var last: seq<Step<T>>;
    if a > 0 { last := Fill(d, mem[0], a, b); } else { last := Drain(d, a, b); }
    RunLoose(d, last, a, b);
    OutOfBounds(Final(d, last), a, b);
    more := done + last;
    Append(f, done, last);
    Append(Create(mem), ss, more);
  }

  lemma OutOfBounds<T(!new)>(f: Fifo<T>, a: nat, b: nat)
    requires Loose(f, a, b) && Quiet(f) && ((a > 0 && f.space == 0) || (a == 0 && b > 0 && f.items == 0))
    ensures !Bounded(f)
  {
  }

  // Whatever honest steps follow, the queue stays in its bounds.
  ghost predicate StaysBounded<T(!new)>(mem: seq<T>, ss: seq<Step<T>>) {
    forall more | NoForged(more) && Lawful(Create(mem), ss + more) :: Bounded(Final(Create(mem), ss + more))
  }

  // The exact condition: no grant was forged.
  lemma BoundedIffHonest<T(!new)>(mem: seq<T>, ss: seq<Step<T>>)
    requires mem != [] && Lawful(Create(mem), ss)
    ensures StaysBounded(mem, ss) <==> NoForged(ss)
  {
    hide Lawful, Final, ForgedIn, ForgedOut;
    if NoForged(ss) {
      forall more | NoForged(more) && Lawful(Create(mem), ss + more) ensures Bounded(Final(Create(mem), ss + more)) {
        Split(Create(mem), ss, more);
        FirstInFirstOut(mem, ss + more);
        CreateInv(mem);
        RunInv(Create(mem), ss + more);
      }
    } else {
      var more := ForgedBreaks(mem, ss);
    }
  }

  lemma {:induction false} Split<T(!new)>(f: Fifo<T>, ss: seq<Step<T>>, more: seq<Step<T>>)
    requires Lawful(f, ss + more)
    ensures ForgedIn(ss + more) == ForgedIn(ss) + ForgedIn(more) && ForgedOut(ss + more) == ForgedOut(ss) + ForgedOut(more)
    decreases |ss|
  {
    if ss == [] {
      assert ss + more == more;
    } else {
      assert (ss + more)[0] == ss[0] && (ss + more)[1..] == ss[1..] + more;
      Split(Apply(f, ss[0]), ss[1..], more);
    }
  }

  // A forged write into a full queue of one slot: the element it overwrote is never read.
  lemma ForgedWrite(x: nat, y: nat, z: nat)
    ensures var ss := [WriteGrant(1, y), WriteCopy(1), WriteSignal(1), WriteForged(2, z), WriteCopy(2), ReadGrant(3), ReadCopy(3)];
            Lawful(Create([x]), ss) && Final(Create([x]), ss).put == [y, z] && Final(Create([x]), ss).got == [z]
            && (y != z ==> !(Final(Create([x]), ss).got <= Final(Create([x]), ss).put))
  {
    hide Lawful, Final;
    var s1 := [WriteGrant(1, y), WriteCopy(1), WriteSignal(1)];
    var s2 := [WriteForged(2, z), WriteCopy(2), ReadGrant(3), ReadCopy(3)];
    FirstHalf(x, y);
    SecondHalf(y, z);
    Append(Create([x]), s1, s2);
    assert [z][0] == z && [y, z][0] == y;
    assert s1 + s2 == [WriteGrant(1, y), WriteCopy(1), WriteSignal(1), WriteForged(2, z), WriteCopy(2), ReadGrant(3), ReadCopy(3)];
  }

  lemma FirstHalf(x: nat, y: nat)
    ensures var ss := [WriteGrant(1, y), WriteCopy(1), WriteSignal(1)];
            Lawful(Create([x]), ss) && Final(Create([x]), ss) == Fifo([y], 0, 0, 0, 1, map[], {}, {}, {}, [y], [])
  {
    hide Lawful, Final;
    var f := Create([x]);
    var a := Apply(f, WriteGrant(1, y));
    var b := Apply(a, WriteCopy(1));
    var c := Apply(b, WriteSignal(1));
    NoMore(c);
    var s2, s3: seq<Step<nat>> := [WriteCopy(1), WriteSignal(1)], [WriteSignal(1)];
    OneMore(b, WriteSignal(1), []);
    assert [WriteSignal(1)] + [] == s3;
    OneMore(a, WriteCopy(1), s3);
    assert [WriteCopy(1)] + s3 == s2;
    OneMore(f, WriteGrant(1, y), s2);
    assert c == Fifo([y], 0, 0, 0, 1, map[], {}, {}, {}, [y], []);
    assert [WriteGrant(1, y)] + s2 == [WriteGrant(1, y), WriteCopy(1), WriteSignal(1)];
  }

  lemma SecondHalf(y: nat, z: nat)
    ensures var f := Fifo([y], 0, 0, 0, 1, map[], {}, {}, {}, [y], []); var ss := [WriteForged(2, z), WriteCopy(2), ReadGrant(3), ReadCopy(3)];
            Lawful(f, ss) && Final(f, ss) == Fifo([z], 0, 0, 0, 0, map[], {2}, {}, {3}, [y, z], [z])
  {
    hide Lawful, Final;
    var f := Fifo([y], 0, 0, 0, 1, map[], {}, {}, {}, [y], []);
    var a := Apply(f, WriteForged(2, z));
    var b := Apply(a, WriteCopy(2));
    var c := Apply(b, ReadGrant(3));
    var d := Apply(c, ReadCopy(3));
    NoMore(d);
    var s2, s3, s4: seq<Step<nat>> := [WriteCopy(2), ReadGrant(3), ReadCopy(3)], [ReadGrant(3), ReadCopy(3)], [ReadCopy(3)];
    OneMore(c, ReadCopy(3), []);
    assert [ReadCopy(3)] + [] == s4;
    OneMore(b, ReadGrant(3), s4);
    assert [ReadGrant(3)] + s4 == s3;
    OneMore(a, WriteCopy(2), s3);
    assert [WriteCopy(2)] + s3 == s2;
    OneMore(f, WriteForged(2, z), s2);
    assert d == Fifo([z], 0, 0, 0, 0, map[], {2}, {}, {3}, [y, z], [z]);
    assert [WriteForged(2, z)] + s2 == [WriteForged(2, z), WriteCopy(2), ReadGrant(3), ReadCopy(3)];
  }

  // A forged read from an empty queue: it gets what nobody wrote.
  lemma ForgedRead(x: nat)
    ensures var ss: seq<Step<nat>> := [ReadForged(1), ReadCopy(1)];
            Lawful(Create([x]), ss) && Final(Create([x]), ss).put == [] && Final(Create([x]), ss).got == [x]
  {
  }
}
