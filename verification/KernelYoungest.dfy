/**
 A run in which a condition wait does not release the oldest mutex of its caller, as
 libisix/include/isix/condvar.h promises: a task locks the mutexes 1, 2 and 3 and unlocks 1;
 the head of its list is then 3.
 */
module KernelYoungest {
  import opened Lists
  import opened KernelState
  import opened KernelCalls
  import opened KernelLists
  import opened KernelInv
  import opened KernelWake
  import opened KernelMutex
  import opened KernelObjects
  import opened KernelTasks
  import opened KernelSched
  import opened KernelRun
  import opened KernelEffects
  import opened KernelOrder
  import opened KernelProgram
  import opened KernelForged

  const COND: Qid := CondQ(0)
  const ZERO: nat := 0
  const THREE: nat := 3
  const NEW_COND: Op := OfCond(NewCond(0))
  const CREATE: Op := OfTask(Create(1, 1, false, false))
  const UNLOCK1: Op := OfMutex(Unlock(1))
  const LOCKED: seq<nat> := [1, 3, 2]
  const LEFT: seq<nat> := [3, 2]
  const SOLO: map<Tid, nat> := map[IDLE := PRIOS, 1 := 1]

  // When each mutex got its owner, in the run ops.
  function Stamped(ops: seq<Op>): map<nat, nat> { Stamps(Boot(), ops, map[], 0) }

  // n has its owner since later than m.
  predicate Younger(st: map<nat, nat>, m: nat, n: nat) { m in st && n in st && st[m] < st[n] }

  // The current task owns the younger mutex n and the older mutex m; its condition wait gives
  // up n and keeps m.
  ghost predicate GivesUpYoungest(k: K, st: map<nat, nat>, c: nat, m: nat, n: nat) {
    && Acts(k) && MayBlock(k, INFINITE) && CondQ(c) in k.s.queues && Owned(k.s, k.current) == [n, m] && Younger(st, m, n)
    && Released(k, c, m, n)
  }

  // The condition wait gives up n and keeps m.
  predicate Released(k: K, c: nat, m: nat, n: nat) {
    var d := CondWait(k, c, INFINITE).k; OwnerOf(d, n) == Free && OwnerOf(d, m) == Held(k.current)
  }

  // ---- the steps ----

  // Task 1 runs and owns ms.
  ghost predicate Owns(k: K, ms: seq<nat>) {
    && Crew(k, SOLO, ONE) && Acts(k) && At(k, ONE).call.NoCall? && At(k, ONE).owned == ms && COND in k.s.queues
    && k.mtx.Keys == {1, 2, 3} && (forall m | m in k.mtx :: k.mtx[m] == if m in ms then Mutex(1, Held(1)) else Mutex(0, Free))
  }

  lemma NewCnd(k: K)
    requires Fresh(k, SOLO) && COND !in k.s.queues
    ensures var op := NEW_COND; var d := Apply(k, op).k; Enabled(k, op) && Fresh(d, SOLO) && COND in d.s.queues && d.mtx == k.mtx
  {
    hide InvBut, Fresh;
    FreshInv(k, SOLO);
    StepInv(k, OfCond(NewCond(0)));
    Still(k, SOLO, Apply(k, OfCond(NewCond(0))).k);
  }

  lemma CreateKeeps(k: K, q: Qid)
    requires Fresh(k, ALONE) && q.CondQ?
    ensures q in Apply(k, CREATE).k.s.queues <==> q in k.s.queues
  {
    hide Apply, Enabled, InvBut, Core, States, Only, AddReady;
    ByTask(k, Create(1, 1, false, false));
    CoreOf(k, k.sems, k.mtx);
    var r := NewTask(1, false, false);
    NoExit(k, 1);
    AddedCore(k.s, 1, r);
    var a := Added(k.s, 1, r);
    AwakeOk(a, 1, Msg(EOK));
    HasQueue(a, Awake(a, 1, Msg(EOK)), 1, q);
  }

  lemma SwitchKeepsQueues(k: K, q: Qid)
    requires Inv(k) && q.CondQ?
    ensures q in Apply(k, Preempt).k.s.queues <==> q in k.s.queues
  {
    hide Core, States, InvBut, Only, Rotate, Switch;
    CoreOf(k, k.sems, k.mtx);
    CurrentThere(k);
    RotateOk(k.s, k.current);
    HasQueue(k.s, Rotate(k.s, k.current), k.current, q);
    SwitchIs(k);
  }

  lemma First1(k: K)
    requires Fresh(k, SOLO) && COND in k.s.queues && k.mtx == map[1 := Mutex(0, Free), 2 := Mutex(0, Free), 3 := Mutex(0, Free)]
    ensures Enabled(k, Preempt) && Owns(Apply(k, Preempt).k, [])
  {
    hide InvBut, Apply;
    To(k, SOLO, 1);
    SwitchKeepsQueues(k, CondQ(0));
  }

  lemma LocksMore(k: K, ms: seq<nat>, m: nat)
    requires Owns(k, ms) && m in k.mtx && m !in ms
    ensures var op := OfMutex(Lock(m)); Enabled(k, op) && Owns(Apply(k, op).k, InsertFirst(ms, m))
  {
    hide InvBut, Apply, InsertFirst;
    Takes(k, SOLO, m);
    InsertFirstFacts(ms, m);
  }

  lemma NobodyQueued(k: K, m: nat)
    requires Crew(k, SOLO, ONE) && Runnable(k.s, ONE)
    ensures Queue(k.s, MtxQ(m)) == []
  {
    hide InvBut, Core, States;
    IdleReady(k, SOLO);
    NotListed(k, IDLE, MtxQ(m));
    NotListed(k, 1, MtxQ(m));
    CoreOf(k, k.sems, k.mtx);
    if Queue(k.s, MtxQ(m)) != [] { OnList(k.s, Queue(k.s, MtxQ(m))[0], MtxQ(m)); }
  }

  lemma Unlocks1(k: K)
    requires Owns(k, LOCKED)
    ensures var op := UNLOCK1; Enabled(k, op) && Owns(Apply(k, op).k, LEFT)
  {
    hide Apply, Enabled, InvBut;
    ByMutex(k, Unlock(1));
    StepInv(k, OfMutex(Unlock(1)));
    NobodyQueued(k, 1);
    assert Remove([1, 3, 2], 1) == [3, 2];
    assert Queue(k.s, MtxQ(1)) == [];
  }

  lemma WaitGivesUp(k: K)
    requires Owns(k, LEFT)
    ensures Released(k, ZERO, TWO, THREE)
  {
    hide InvBut, BlockOnCond, Detach;
    NobodyQueued(k, 3);
    BlockedKeeps(MutexUnlock(k, 3).k, 0, 3);
  }

  lemma BlockedKeeps(k: K, c: nat, m: nat)
    ensures BlockOnCond(k, c, m, INFINITE).mtx == k.mtx
  {
  }

  predicate SameOwner(k: K, d: K, m: nat) { m in k.mtx && m in d.mtx && k.mtx[m].owner == d.mtx[m].owner }

  predicate SameStamp(st: map<nat, nat>, su: map<nat, nat>, m: nat) { m in st && m in su && su[m] == st[m] }

  // A mutex whose owner stays keeps its stamp.
  lemma StampKept(ops: seq<Op>, op: Op, m: nat)
    requires var k := Final(Boot(), ops); SameOwner(k, Apply(k, op).k, m) && m in Stamped(ops)
    ensures SameStamp(Stamped(ops), Stamped(ops + [op]), m)
  {
    hide Boot, Final, Apply, Stamps;
    StampsMore(Boot(), ops, op, map[], 0);
  }

  // ---- the run ----

  lemma ToOwns() returns (ops: seq<Op>, k: K)
    ensures Reached(ops, k, false) && Owns(k, [])
  {
    hide Boot, Apply, Enabled, Reached, Fresh, InvBut;
    Starts();
    NewMtx(Boot(), ALONE, 1);
    ops, k := Then([], Boot(), OfMutex(NewMutex(1)), true);
    NewMtx(k, ALONE, 2);
    ops, k := Then(ops, k, OfMutex(NewMutex(2)), true);
    NewMtx(k, ALONE, 3);
    ops, k := Then(ops, k, OfMutex(NewMutex(3)), true);
    Made(k, ALONE, 1, 1, false);
    CreateKeeps(k, CondQ(0));
    ops, k := Then(ops, k, OfTask(Create(1, 1, false, false)), true);
    assert ALONE[1 := 1] == SOLO;
    NewCnd(k);
    ops, k := Then(ops, k, OfCond(NewCond(0)), true);
    First1(k);
    ops, k := Then(ops, k, Preempt, true);
  }

  // Task 1 has locked 1 and 2, then 3.
  lemma ToThree() returns (ops: seq<Op>, k: K)
    ensures Reached(ops, k, false) && Owns(k, LOCKED)
    ensures Younger(Stamped(ops), TWO, THREE)
  {
    hide Boot, Apply, Enabled, Lawful, Final, Genuine, InvBut, Stamps, InsertFirst, Crew;
    ops, k := ToOwns();
    LocksMore(k, [], 1);
    Insertions();
    ops, k := Then(ops, k, OfMutex(Lock(1)), false);
    LocksMore(k, [1], 2);
    ops, k := Then(ops, k, OfMutex(Lock(2)), false);
    LocksMore(k, [1, 2], 3);
    JustGot(ops, OfMutex(Lock(3)), 3, 1);
    ops, k := Then(ops, k, OfMutex(Lock(3)), false);
  }

  lemma Insertions()
    ensures InsertFirst<nat>([], 1) == [1] && InsertFirst<nat>([1], 2) == [1, 2] && InsertFirst<nat>([1, 2], 3) == [1, 3, 2]
  {
  }

  lemma YoungestReleased() returns (ops: seq<Op>)
    ensures Lawful(Boot(), ops) && Genuine(Boot(), ops, true) && GivesUpYoungest(Final(Boot(), ops), Stamped(ops), ZERO, TWO, THREE)
  {
    hide Boot, Apply, Enabled, Lawful, Final, Genuine, InvBut, Stamps, CondWait;
    var k;
    ops, k := ToThree();
    Unlocks1(k);
    StampKept(ops, OfMutex(Unlock(1)), 2);
    StampKept(ops, OfMutex(Unlock(1)), 3);
    ops, k := Then(ops, k, OfMutex(Unlock(1)), false);
    WaitGivesUp(k);
  }
}
