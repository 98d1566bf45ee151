/**
 The queue on top of the kernel.  libisix/kernel/fifo.c waits on two semaphores that nobody
 else uses.  Here its steps are read off a run of the kernel: a wait on the first semaphore
 that returns EOK is a grant to a writer, one on the second a grant to a reader, and a signal
 ends an operation.  In every run the grants are covered by tokens, but for those the kernel
 forged; so the order of the queue depends on the same condition as the result of a wait.
 */
module FifoKernel {
  import opened KernelState
  import opened KernelCalls
  import opened KernelInv
  import opened KernelRun
  import opened KernelTokens
  import opened KernelHonest
  import opened KernelAccounts
  import opened KernelProgram
  import opened KernelForged
  import Fifo

  // A step of the kernel, for the operation o when it concerns the queue, or a copy under the
  // lock of the queue.
  datatype Move<T> = Kernel(op: Op, o: nat, item: T) | CopyIn(o: nat) | CopyOut(o: nat)

  // The step of the queue that a move is, if any.
  function Seen<T>(k: K, mv: Move<T>, tx: nat, rx: nat): seq<Fifo.Step<T>> {
    match mv
    case CopyIn(o) => [Fifo.WriteCopy(o)]
    case CopyOut(o) => [Fifo.ReadCopy(o)]
    case Kernel(op, o, item) =>
      if Returns(k, op, tx) then [if Forges(k, op) then Fifo.WriteForged(o, item) else Fifo.WriteGrant(o, item)]
      else if Returns(k, op, rx) then [if Forges(k, op) then Fifo.ReadForged(o) else Fifo.ReadGrant(o)]
      else if op == OfSem(Give(rx)) then [Fifo.WriteSignal(o)]
      else if op == OfSem(Give(tx)) then [Fifo.ReadSignal(o)]
      else []
  }

  function After<T>(k: K, mv: Move<T>): K {
    match mv
    case Kernel(op, _, _) => Apply(k, op).k
    case _ => k
  }

  // The steps of the queue in a run.
  function Trace<T>(k: K, mvs: seq<Move<T>>, tx: nat, rx: nat): seq<Fifo.Step<T>>
    decreases |mvs|
  {
    if mvs == [] then [] else Seen(k, mvs[0], tx, rx) + Trace(After(k, mvs[0]), mvs[1..], tx, rx)
  }

  // The order of the steps in the code of one operation.  Nothing is asked of the tokens.
  predicate InOrder<T>(f: Fifo.Fifo<T>, s: Fifo.Step<T>) {
    match s
    case WriteCopy(t) => t in f.writing
    case WriteSignal(t) => t in f.wrote
    case ReadCopy(t) => t in f.reading
    case ReadSignal(t) => t in f.read
    case _ => Fifo.Idle(f, s.t)
  }

  ghost predicate MoveOk<T>(k: K, mv: Move<T>, tx: nat, rx: nat) {
    mv.Kernel? ==> Enabled(k, mv.op) && Leaves(mv.op, tx) && Leaves(mv.op, rx)
  }

  // A lawful run of the kernel whose users of the two semaphores are operations of the queue.
  ghost predicate Coupled<T(!new)>(k: K, f: Fifo.Fifo<T>, mvs: seq<Move<T>>, tx: nat, rx: nat)
    decreases |mvs|
  {
    mvs == [] || (
      && MoveOk(k, mvs[0], tx, rx)
      && var ss := Seen(k, mvs[0], tx, rx);
         if ss == [] then Coupled(After(k, mvs[0]), f, mvs[1..], tx, rx)
         else
           && InOrder(f, ss[0])
           && (Fifo.Enabled(f, ss[0]) && f.tx < |f.mem| && f.rx < |f.mem|
               ==> Coupled(After(k, mvs[0]), Fifo.Apply(f, ss[0]), mvs[1..], tx, rx)))
  }

  // ---- the coupling ----

  // The free slots and the stored elements are the tokens that no operation returned with yet;
  // w waits of writers and r of readers did.
  ghost predicate Joint<T>(k: K, f: Fifo.Fifo<T>, tx: nat, rx: nat, w: nat, r: nat) {
    && tx != rx && Covered(k, tx, w) && Covered(k, rx, r)
    && f.space + w == Total(k.sems[tx]) && f.items + r == Total(k.sems[rx])
  }

  function Plus(n: nat, b: bool): nat { if b then n + 1 else n }

  predicate OneEnabled<T>(f: Fifo.Fifo<T>, ss: seq<Fifo.Step<T>>) { |ss| == 1 && Fifo.Enabled(f, ss[0]) }

  // The queue after the step in ss, if any.
  function Moved<T>(f: Fifo.Fifo<T>, ss: seq<Fifo.Step<T>>): Fifo.Fifo<T> {
    if OneEnabled(f, ss) && f.tx < |f.mem| && f.rx < |f.mem| then Fifo.Apply(f, ss[0]) else f
  }

  predicate AllInOrder<T>(f: Fifo.Fifo<T>, ss: seq<Fifo.Step<T>>) { ss != [] ==> InOrder(f, ss[0]) }

  // A move of the kernel is a lawful step of the queue, or none.
  lemma KernelMove<T(!new)>(k: K, f: Fifo.Fifo<T>, op: Op, o: nat, item: T, tx: nat, rx: nat, w: nat, r: nat)
    requires Inv(k) && Joint(k, f, tx, rx, w, r) && MoveOk(k, Kernel(op, o, item), tx, rx) && f.tx < |f.mem| && f.rx < |f.mem|
    requires AllInOrder(f, Seen(k, Kernel(op, o, item), tx, rx))
    ensures var mv := Kernel(op, o, item); var ss := Seen(k, mv, tx, rx); var d := After(k, mv);
            && Inv(d) && (ss != [] ==> OneEnabled(f, ss))
            && Joint(d, Moved(f, ss), tx, rx, Plus(w, Grants(k, op, tx)), Plus(r, Grants(k, op, rx)))
  {
    hide InvBut, Enabled, Apply, Covered, Total, Inside;
    StepInv(k, op);
    StepCovered(k, op, tx, w);
    StepCovered(k, op, rx, r);
    NotBoth(k, op, tx, rx);
  }

  predicate Gives(op: Op) { op.OfSem? && op.sop.Give? }

  lemma NotBoth(k: K, op: Op, i: nat, j: nat)
    requires i != j
    ensures Returns(k, op, i) ==> !Returns(k, op, j) && !Gives(op)
  {
    hide Apply;
  }

  // A copy touches no token.
  lemma CopyMove<T(!new)>(k: K, f: Fifo.Fifo<T>, s: Fifo.Step<T>, tx: nat, rx: nat, w: nat, r: nat)
    requires Joint(k, f, tx, rx, w, r) && (s.WriteCopy? || s.ReadCopy?) && InOrder(f, s) && f.tx < |f.mem| && f.rx < |f.mem|
    ensures Fifo.Enabled(f, s) && Joint(k, Fifo.Apply(f, s), tx, rx, w, r)
  {
    hide Covered, Total;
  }

  // ---- runs ----

  // Every run of the kernel is a lawful run of the queue.
  lemma {:induction false} CoupledRun<T(!new)>(k: K, f: Fifo.Fifo<T>, mvs: seq<Move<T>>, tx: nat, rx: nat, w: nat, r: nat, a: nat, b: nat)
    requires Inv(k) && Joint(k, f, tx, rx, w, r) && Fifo.Loose(f, a, b) && Coupled(k, f, mvs, tx, rx)
    ensures Fifo.Lawful(f, Trace(k, mvs, tx, rx))
    decreases |mvs|
  {
    hide InvBut, Joint, Seen, MoveOk, Fifo.Lawful, Fifo.Loose, Fifo.Once, Fifo.Account, Apply, Grants, InOrder, Fifo.Enabled;
    if mvs == [] {
      Fifo.NoMore(f);
    } else {
      var mv, rest := mvs[0], mvs[1..];
      var d, ss := After(k, mv), Seen(k, mv, tx, rx);
      LooseRange(f, a, b);
      var w2, r2 := w, r;
      if mv.Kernel? {
        KernelMove(k, f, mv.op, mv.o, mv.item, tx, rx, w, r);
        w2, r2 := Plus(w, Grants(k, mv.op, tx)), Plus(r, Grants(k, mv.op, rx));
      } else {
        SeenCopy(k, mv, tx, rx);
        CopyMove(k, f, ss[0], tx, rx, w, r);
      }
      if ss == [] {
        CoupledRun(d, f, rest, tx, rx, w2, r2, a, b);
        assert Trace(k, mvs, tx, rx) == Trace(d, rest, tx, rx);
      } else {
        var s := ss[0];
        Fifo.StepLoose(f, s, a, b);
        CoupledRun(d, Fifo.Apply(f, s), rest, tx, rx, w2, r2, a + Fifo.InCount(s), b + Fifo.OutCount(s));
        Fifo.OneMore(f, s, Trace(d, rest, tx, rx));
        assert ss == [s];
      }
    }
  }

  lemma LooseRange<T(!new)>(f: Fifo.Fifo<T>, a: nat, b: nat)
    requires Fifo.Loose(f, a, b)
    ensures f.tx < |f.mem| && f.rx < |f.mem|
  {
    Fifo.InRange(f);
  }

  predicate IsCopy<T>(ss: seq<Fifo.Step<T>>) { |ss| == 1 && (ss[0].WriteCopy? || ss[0].ReadCopy?) }

  lemma SeenCopy<T(!new)>(k: K, mv: Move<T>, tx: nat, rx: nat)
    requires !mv.Kernel?
    ensures IsCopy(Seen(k, mv, tx, rx))
  {
    hide Apply;
  }

  // Two fresh semaphores as isix_fifo_create_ex makes them for the memory mem.
  ghost predicate Started<T>(k: K, tx: nat, rx: nat, mem: seq<T>) {
    && tx != rx && tx in k.sems && rx in k.sems
    && k.sems[tx] == Semaphore(|mem|, 0, |mem|, 0, 0) && k.sems[rx] == Semaphore(0, 0, 0, 0, 0)
    && (forall t | t in k.s.tasks :: !(k.s.tasks[t].call.InSem? && (k.s.tasks[t].call.s == tx || k.s.tasks[t].call.s == rx)))
  }

  lemma StartJoint<T(!new)>(k: K, mem: seq<T>, tx: nat, rx: nat)
    requires Started(k, tx, rx, mem) && mem != []
    ensures Joint(k, Fifo.Create(mem), tx, rx, 0, 0) && Fifo.Loose(Fifo.Create(mem), 0, 0)
  {
    Fifo.CreateInv(mem);
    assert Pending(k, tx) == {} && Pending(k, rx) == {};
  }

  function Ops<T>(mvs: seq<Move<T>>): seq<Op>
    decreases |mvs|
  {
    if mvs == [] then [] else (if mvs[0].Kernel? then [mvs[0].op] else []) + Ops(mvs[1..])
  }

  // A run without the two kinds of steps that forge or lose a result forges no grant.
  lemma {:induction false} HonestTrace<T(!new)>(k: K, mvs: seq<Move<T>>, tx: nat, rx: nat)
    requires Inv(k) && Clean(k) && HonestRun(k, Ops(mvs))
    ensures Fifo.NoForged(Trace(k, mvs, tx, rx))
    decreases |mvs|
  {
    hide InvBut, Clean, Apply, Enabled, Honest, Seen;
    if mvs != [] {
      var mv, rest := mvs[0], mvs[1..];
      var ss := Seen(k, mv, tx, rx);
      SeenClean(k, mv, tx, rx);
      if mv.Kernel? {
        assert Ops(mvs) == [mv.op] + Ops(rest);
        assert Ops(mvs)[1..] == Ops(rest);
        StepInv(k, mv.op);
        CleanStep(k, mv.op);
      } else {
        assert Ops(mvs) == Ops(rest);
      }
      HonestTrace(After(k, mv), rest, tx, rx);
      var more := Trace(After(k, mv), rest, tx, rx);
      if ss == [] { assert ss + more == more; } else { assert (ss + more)[0] == ss[0] && (ss + more)[1..] == more; }
    }
  }

  predicate NoneForged<T>(ss: seq<Fifo.Step<T>>) { |ss| <= 1 && (ss != [] ==> !Fifo.IsForged(ss[0])) }

  lemma SeenClean<T(!new)>(k: K, mv: Move<T>, tx: nat, rx: nat)
    requires Clean(k)
    ensures NoneForged(Seen(k, mv, tx, rx))
  {
    hide Returns;
  }

  // The queue over every run of the kernel: its steps are lawful, and it stays in its bounds,
  // whatever honest steps follow, exactly when no wait on its semaphores returned a forged EOK.
  lemma QueueOnKernel<T(!new)>(ops: seq<Op>, mem: seq<T>, mvs: seq<Move<T>>, tx: nat, rx: nat)
    requires Lawful(Boot(), ops) && mem != []
    requires var k := Final(Boot(), ops); Started(k, tx, rx, mem) && Coupled(k, Fifo.Create(mem), mvs, tx, rx)
    ensures var ss := Trace(Final(Boot(), ops), mvs, tx, rx);
            Fifo.Lawful(Fifo.Create(mem), ss) && (Fifo.StaysBounded(mem, ss) <==> Fifo.NoForged(ss))
  {
    hide InvBut, Boot, Lawful, Final, Joint, Fifo.Lawful, Fifo.Loose, Started, Coupled, Trace, Fifo.ForgedIn, Fifo.ForgedOut, Fifo.StaysBounded;
    EveryRunIsSafe(ops);
    var k := Final(Boot(), ops);
    StartJoint(k, mem, tx, rx);
    CoupledRun(k, Fifo.Create(mem), mvs, tx, rx, 0, 0, 0, 0);
    Fifo.BoundedIffHonest(mem, Trace(k, mvs, tx, rx));
  }

  // What was read is the beginning of what was written, and the rest fits into the queue.
  ghost predicate Ordered<T(!new)>(mem: seq<T>, ss: seq<Fifo.Step<T>>) {
    Fifo.Lawful(Fifo.Create(mem), ss) && var f := Fifo.Final(Fifo.Create(mem), ss); f.got <= f.put && |f.put| - |f.got| <= |mem|
  }

  // In every run of the kernel in which no task is resumed whose wait ended otherwise, and no
  // mutex is taken back, the queue is first in, first out.
  lemma FirstInFirstOut<T(!new)>(ops: seq<Op>, mem: seq<T>, mvs: seq<Move<T>>, tx: nat, rx: nat)
    requires Lawful(Boot(), ops) && HonestRun(Boot(), ops) && mem != []
    requires var k := Final(Boot(), ops);
             Started(k, tx, rx, mem) && Coupled(k, Fifo.Create(mem), mvs, tx, rx) && HonestRun(k, Ops(mvs))
    ensures Ordered(mem, Trace(Final(Boot(), ops), mvs, tx, rx))
  {
    hide InvBut, Boot, Lawful, Final, Fifo.Lawful, Fifo.Final, Started, Coupled, Trace, Fifo.ForgedIn, Fifo.ForgedOut, Clean, HonestRun, Fifo.StaysBounded;
    QueueOnKernel(ops, mem, mvs, tx, rx);
    BootInv();
    BootClean();
    HonestFrom(Boot(), ops);
    var k := Final(Boot(), ops);
    HonestTrace(k, mvs, tx, rx);
    Fifo.FirstInFirstOut(mem, Trace(k, mvs, tx, rx));
  }

  // ---- a program whose queue breaks ----

  function Lift(ops: seq<Op>): seq<Move<nat>> { seq(|ops|, i requires 0 <= i < |ops| => Other(ops[i])) }

  function Other(op: Op): Move<nat> { Kernel(op, 0, 0) }

  lemma SilentMove(k: K, op: Op, tx: nat, rx: nat)
    requires Enabled(k, op) && Silent(k, op)
    ensures MoveOk(k, Other(op), tx, rx) && Seen(k, Other(op), tx, rx) == []
  {
    hide Enabled, Apply, SemStep;
    if op.OfSem? { BySem(k, op.sop); }
  }

  // Steps that end no wait on a semaphore and signal none are no steps of the queue.
  lemma {:induction false} SilentRun(k: K, f: Fifo.Fifo<nat>, ops: seq<Op>, mvs: seq<Move<nat>>, tx: nat, rx: nat)
    requires Lawful(k, ops) && AllSilent(k, ops) && Coupled(Final(k, ops), f, mvs, tx, rx)
    ensures Coupled(k, f, Lift(ops) + mvs, tx, rx) && Trace(k, Lift(ops) + mvs, tx, rx) == Trace(Final(k, ops), mvs, tx, rx)
    decreases |ops|
  {
    hide Apply, Enabled, Silent, Seen, MoveOk, InOrder;
    if ops == [] {
      assert Lift(ops) + mvs == mvs;
    } else {
      var all := Lift(ops) + mvs;
      SilentMove(k, ops[0], tx, rx);
      assert all[0] == Other(ops[0]) && all[1..] == Lift(ops[1..]) + mvs;
      SilentRun(Apply(k, ops[0]).k, f, ops[1..], mvs, tx, rx);
    }
  }

  // The semaphores of a queue of one element, and a read of it that is about to return.
  const TX: nat := 0
  const RX: nat := 1
  const SEMS: map<nat, Semaphore> := map[0 := Semaphore(1, 0, 1, 0, 0), 1 := Semaphore(0, 0, 0, 0, 0)]
  const LAST: seq<Move<nat>> := [Kernel(Resumed, 1, 0), CopyOut(1)]
  const FORGED: seq<Fifo.Step<nat>> := [Fifo.ReadForged(1), Fifo.ReadCopy(1)]

  // The wait of a reader is about to return a forged EOK; it copies one element out.
  lemma ForgedEnd(k: K, x: nat)
    requires NoTokenEver(k, RX)
    ensures Coupled(k, Fifo.Create([x]), LAST, TX, RX) && Trace(k, LAST, TX, RX) == FORGED
  {
    hide Apply, Enabled, Acts;
    Acting(k);
    var mvs := LAST;
    assert mvs[1..] == [CopyOut(1)] && mvs[1..][1..] == [];
    assert Seen(k, mvs[0], 0, 1) == [Fifo.ReadForged(1)];
    var d := After(k, mvs[0]);
    assert Trace(d, mvs[1..], 0, 1) == [Fifo.ReadCopy(1)];
  }

  // x was read from the queue, and nothing was written.
  ghost predicate ReadUnwritten(x: nat, ss: seq<Fifo.Step<nat>>) {
    Fifo.Lawful(Fifo.Create([x]), ss) && var f := Fifo.Final(Fifo.Create([x]), ss); f.put == [] && f.got == [x]
  }

  // A program with a queue of one element: a reader times out, is suspended and resumed by a more
  // urgent task, and reads an element that nobody wrote.
  lemma BrokenQueue(x: nat) returns (ops: seq<Op>, since: seq<Op>, mvs: seq<Move<nat>>)
    ensures Lawful(Boot(), ops + since) && Genuine(Boot(), ops + since, true) && Lawful(Boot(), ops)
    ensures var k := Final(Boot(), ops);
            && Started(k, TX, RX, [x]) && Coupled(k, Fifo.Create([x]), mvs, TX, RX) && Ops(mvs) == since + [Resumed]
            && ReadUnwritten(x, Trace(k, mvs, TX, RX))
  {
    hide Boot, Apply, Enabled, Lawful, Final, Genuine, AllSilent, Coupled, Trace, Fresh, NoTokenEver, Fifo.Lawful, Fifo.Final;
    var k, d;
    ops, k := MakesQueue();
    since, d := ToForgedWait(k, RX);
    Whole(ops, k, since, d);
    FreshStarted(k, x);
    ForgedEnd(d, x);
    SilentRun(k, Fifo.Create([x]), since, LAST, TX, RX);
    mvs := Lift(since) + LAST;
    OpsOf(since);
    Fifo.ForgedRead(x);
  }

  // main creates the two semaphores of the queue and two tasks.
  lemma MakesQueue() returns (ops: seq<Op>, k: K)
    ensures Reached(ops, k, true) && Fresh(k, DUO)
    ensures k.sems == SEMS
  {
    hide Boot, Apply, Enabled, Reached, Fresh;
    Starts();
    NewSemaphore(Boot(), ALONE, 0, 1);
    ops, k := Then([], Boot(), OfSem(NewSem(0, 1, 0)), true);
    NewSemaphore(k, ALONE, 1, 0);
    ops, k := Then(ops, k, OfSem(NewSem(1, 0, 0)), true);
    ops, k := MakesDuo(ops, k);
  }

  lemma FreshStarted(k: K, x: nat)
    requires Fresh(k, DUO) && k.sems == SEMS
    ensures Started(k, TX, RX, [x])
  {
    hide Fresh, InvBut;
    FreshInv(k, DUO);
  }

  lemma {:induction false} OpsOf(ops: seq<Op>)
    ensures Ops(Lift(ops) + LAST) == ops + [Resumed]
    decreases |ops|
  {
    var last := LAST;
    if ops == [] {
      assert Lift(ops) + last == last && last[1..] == [CopyOut(1)] && last[1..][1..] == [];
    } else {
      assert (Lift(ops) + last)[1..] == Lift(ops[1..]) + last;
      OpsOf(ops[1..]);
    }
  }
}
