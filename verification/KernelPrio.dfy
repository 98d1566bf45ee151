/**
 When isix_task_change_prio (libisix/kernel/task.c) keeps priority inheritance exact.  It does
 not look at the waiters: it moves a task that runs at its base priority to the new one, and
 it does not tell the owner of the mutex that the task waits for.
 */
module KernelPrio {
  import opened Lists
  import opened KernelState
  import opened KernelCalls
  import opened KernelLists
  import opened KernelInv
  import opened KernelWake
  import opened KernelMutex
  import opened KernelTasks
  import opened KernelEffects
  import opened KernelExact
  import opened KernelSched
  import opened KernelRun
  import opened KernelProgram
  import opened KernelForged

  lemma WaitsIs(k: K, m: nat, w: Tid)
    requires Inv(k)
    ensures Waits(k.s, m, w) <==> w in k.s.tasks && k.s.tasks[w].inode == In(MtxQ(m))
  {
    hide InvBut, Core, States;
    CoreOf(k, k.sems, k.mtx);
    CoreLinks(k.s);
  }

  // Who waits for a mutex has the state for it, so the mutex is known from the record.
  lemma MutexPlace(k: K, m: nat, w: Tid)
    requires Inv(k) && Waits(k.s, m, w)
    ensures !Runnable(k.s, w)
  {
    hide InvBut, Core, States, Waits;
    WaitsIs(k, m, w);
    StateOf(k, w, k.sems, k.mtx);
  }

  lemma OwnerWaitsNot(k: K, t: Tid, m: nat)
    requires Inv(k) && t in k.s.tasks && m in k.s.tasks[t].owned
    ensures !Waits(k.s, m, t)
  {
    hide InvBut;
    OwnedHeld(k, t, m);
    HeldFacts(k, m, k.sems, k.mtx);
  }

  // Who waits for what does not change, and of the waiters only t can get another priority.
  lemma SameWaiters(k: K, t: Tid, p: nat, m: nat, w: Tid)
    requires Inv(k) && t in k.s.tasks && p < PRIOS
    ensures var d := ChangePrio(k, t, p).k.s;
            && (Waits(d, m, w) <==> Waits(k.s, m, w))
            && (Waits(k.s, m, w) ==> d.tasks[w].prio == if w == t then NewPrio(k.s.tasks[t], p) else k.s.tasks[w].prio)
  {
    hide InvBut, ChangePrio, Waits, States, Core;
    var d := ChangePrio(k, t, p).k;
    ChangePrioInv(k, t, p);
    ChangePrioIs(k, t, p);
    WaitsIs(k, m, w);
    WaitsIs(d, m, w);
    if Waits(k.s, m, w) { MutexPlace(k, m, w); }
    if Waits(d.s, m, w) { MutexPlace(d, m, w); }
  }

  // Nobody who waits for one of the mutexes ms is more urgent than p.
  ghost predicate NoneAbove(s: S, ms: seq<nat>, p: nat) {
    forall m, w | m in ms && Waits(s, m, w) :: p <= s.tasks[w].prio
  }

  // The task itself stays exact if it inherits a priority, or if nobody waits for its mutexes
  // who is more urgent than the new base priority; else it loses the urgency it is owed.
  lemma ChangeKeepsExact(k: K, t: Tid, p: nat)
    requires Inv(k) && t in k.s.tasks && p < PRIOS && Exact(k.s, t)
    ensures var d, r := ChangePrio(k, t, p).k.s, k.s.tasks[t];
            t in d.tasks && (Exact(d, t) <==> r.base == p || r.prio < r.base || NoneAbove(k.s, r.owned, p))
  {
    hide InvBut, ChangePrio, Queue, States, Core;
    ChangePrioIs(k, t, p);
    var s, d, r := k.s, ChangePrio(k, t, p).k.s, k.s.tasks[t];
    forall m, w | m in r.owned
      ensures Waits(d, m, w) <==> Waits(s, m, w)
      ensures Waits(s, m, w) ==> w in d.tasks && w in s.tasks && d.tasks[w].prio == s.tasks[w].prio
    {
      SameWaiters(k, t, p, m, w);
      OwnerWaitsNot(k, t, m);
    }
    SameBestPrio(s, d, r.owned, p, NewPrio(r, p));
    BestOfNew(s, r, p);
  }

  // The same waiters with the same priorities make the same priority the best one.
  lemma SameBestPrio(s: S, d: S, ms: seq<nat>, b: nat, p: nat)
    requires forall m, w | m in ms :: Waits(d, m, w) <==> Waits(s, m, w)
    requires forall m, w | m in ms && Waits(s, m, w) && Waits(d, m, w) :: d.tasks[w].prio == s.tasks[w].prio
    ensures IsBest(d, ms, b, p) <==> IsBest(s, ms, b, p)
  {
    hide Queue;
    if IsBest(s, ms, b, p) { SameBest(s, d, ms, b, p); }
    if IsBest(d, ms, b, p) { SameBest(d, s, ms, b, p); }
  }

  lemma BestOfNew(s: S, r: Task, p: nat)
    requires IsBest(s, r.owned, r.base, r.prio)
    ensures IsBest(s, r.owned, p, NewPrio(r, p)) <==> r.base == p || r.prio < r.base || NoneAbove(s, r.owned, p)
  {
    hide Queue;
    if r.base != p && r.prio < r.base {
      var m, w :| m in r.owned && Waits(s, m, w) && s.tasks[w].prio == r.prio;
    }
  }

  // Another task whose mutexes t does not wait for stays exact.
  lemma ChangeKeepsOthers(k: K, t: Tid, p: nat, x: Tid)
    requires Inv(k) && t in k.s.tasks && p < PRIOS && x in k.s.tasks && x != t && Exact(k.s, x)
    requires forall m | m in k.s.tasks[x].owned :: !Waits(k.s, m, t)
    ensures x in ChangePrio(k, t, p).k.s.tasks && Exact(ChangePrio(k, t, p).k.s, x)
  {
    hide InvBut, ChangePrio, Queue, States, Core;
    ChangePrioIs(k, t, p);
    var s, d, r := k.s, ChangePrio(k, t, p).k.s, k.s.tasks[x];
    forall m, w | m in r.owned
      ensures Waits(d, m, w) <==> Waits(s, m, w)
      ensures Waits(s, m, w) ==> w in d.tasks && w in s.tasks && d.tasks[w].prio == s.tasks[w].prio
    {
      SameWaiters(k, t, p, m, w);
    }
    SameBestPrio(s, d, r.owned, r.base, r.prio);
  }

  // The owner x of the mutex t waits for stays exact if t does not become more urgent than x,
  // and t was not the one and only waiter whose urgency x runs at, or still has it.
  lemma ChangeKeepsOwner(k: K, t: Tid, p: nat, x: Tid, n: nat)
    requires Inv(k) && t in k.s.tasks && p < PRIOS && x in k.s.tasks && x != t && Exact(k.s, x)
    requires n in k.s.tasks[x].owned && Waits(k.s, n, t)
    ensures var d, r, q := ChangePrio(k, t, p).k.s, k.s.tasks[x], NewPrio(k.s.tasks[t], p);
            x in d.tasks && (Exact(d, x) <==>
              r.prio <= q && (r.prio == r.base || q == r.prio
                || exists m, w :: m in r.owned && Waits(k.s, m, w) && w != t && k.s.tasks[w].prio == r.prio))
  {
    hide InvBut, ChangePrio, Queue, States, Core;
    ChangePrioIs(k, t, p);
    var s, d, r, q := k.s, ChangePrio(k, t, p).k.s, k.s.tasks[x], NewPrio(k.s.tasks[t], p);
    forall m, w | m in r.owned
      ensures Waits(d, m, w) <==> Waits(s, m, w)
      ensures Waits(s, m, w) ==> w in d.tasks && w in s.tasks && d.tasks[w].prio == if w == t then q else s.tasks[w].prio
    {
      SameWaiters(k, t, p, m, w);
    }
    OneMoved(s, d, r, t, q, n);
  }

  lemma OneMoved(s: S, d: S, r: Task, t: Tid, q: nat, n: nat)
    requires IsBest(s, r.owned, r.base, r.prio) && n in r.owned && Waits(s, n, t)
    requires forall m, w | m in r.owned :: Waits(d, m, w) <==> Waits(s, m, w)
    requires forall m, w | m in r.owned && Waits(s, m, w) && Waits(d, m, w) :: d.tasks[w].prio == if w == t then q else s.tasks[w].prio
    ensures IsBest(d, r.owned, r.base, r.prio) <==>
              r.prio <= q && (r.prio == r.base || q == r.prio
                || exists m, w :: m in r.owned && Waits(s, m, w) && w != t && s.tasks[w].prio == r.prio)
  {
    hide Queue;
    assert Waits(d, n, t) && d.tasks[t].prio == q;
    if r.prio != r.base && q != r.prio {
      if m, w :| m in r.owned && Waits(s, m, w) && w != t && s.tasks[w].prio == r.prio {
        assert Waits(d, m, w);
      }
      if m, w :| m in r.owned && Waits(d, m, w) && d.tasks[w].prio == r.prio {
        assert Waits(s, m, w);
      }
    }
  }

  // The owner t of a mutex runs at a priority that neither it nor a waiter has.
  ghost predicate TooUrgent(k: K, t: Tid) {
    t in k.s.tasks && k.s.tasks[t].prio < k.s.tasks[t].base
    && (forall m, w | m in k.s.tasks[t].owned && Waits(k.s, m, w) :: k.s.tasks[t].prio < k.s.tasks[w].prio)
  }

  const LOWER: Op := OfTask(SetPriority(2, 5))

  // A run: task 1 has a mutex, the more urgent task 2 waits for it, task 1 then makes task 2
  // less urgent, and keeps the priority it was lent.
  lemma PriorityStays() returns (ops: seq<Op>)
    ensures Lawful(Boot(), ops) && Genuine(Boot(), ops, true) && TooUrgent(Final(Boot(), ops), ONE)
  {
    hide Boot, Apply, Enabled, Lawful, Final, InvBut, Leads, SemBlocks, Genuine, Fresh, TooUrgent, Lends, Acts;
    Starts();
    var k, d, more;
    NewMtx(Boot(), ALONE, 0);
    ops, k := Then([], Boot(), OfMutex(NewMutex(0)), true);
    ops, k := MakesDuo(ops, k);
    more, d := ToLends(k);
    LendsOn(d);
    more, d := Next(k, more, d, OfTask(SetPriority(2, 5)));
    Whole(ops, k, more, d);
    ops := ops + more;
  }

  // Task 1 runs with the mutex 0 and the priority of task 2, which waits for it.
  ghost predicate Lends(k: K) {
    && Inv(k) && k.current == 1 && Acts(k) && k.s.tasks.Keys == DUO.Keys
    && At(k, ONE).owned == [0] && At(k, ONE).base == 1 && At(k, ONE).prio == 0 && At(k, TWO).base == 0 && At(k, TWO).prio == 0
    && !Runnable(k.s, TWO)
  }

  lemma ToLends(k: K) returns (ops: seq<Op>, d: K)
    requires Fresh(k, DUO) && k.mtx == map[MTX := Mutex(0, Free)]
    ensures Leads(k, ops, d) && Lends(d)
  {
    hide Apply, Enabled, Leads, SemBlocks, InvBut, Acts;
    var a, b, c;
    ops, a := Begins(k, DUO);
    ops, b := SleepFirst(k, ops, a, DUO);
    Takes(b, DUO, MTX);
    ops, c := Next(k, ops, b, LOCK);
    Acting(c);
    ops, d := LendsNext(k, ops, c);
  }

  // Task 1 has the mutex; the tick wakes task 2, which asks for it.
  lemma LendsNext(k0: K, ops: seq<Op>, k: K) returns (more: seq<Op>, d: K)
    requires Leads(k0, ops, k) && Crew(k, DUO, ONE) && Runnable(k.s, ONE) && At(k, ONE).owned == [0] && k.mtx == HeldBy(ONE)
    requires At(k, TWO).state.Sleeping? && At(k, TWO).call.InWait? && k.clock == NAP
    ensures Leads(k0, more, d) && Lends(d)
  {
    hide Apply, Enabled, Leads, SemBlocks, InvBut, Acts;
    var c, e;
    assert k.clock.cur == [2] + [];
    Rises(k, DUO, 1, 2, []);
    more, c := Next(k0, ops, k, Tick(1));
    more, e := RunSecond(k0, more, c, DUO);
    Borrows(e);
    more, c := Next(k0, more, e, LOCK);
    BackTo1(c);
    more, d := Next(k0, more, c, Preempt);
  }

  // Task 2 waits, and task 1 has its priority.
  ghost predicate Borrowed(k: K) {
    && Inv(k) && k.current == 2 && k.s.tasks.Keys == DUO.Keys && Runnable(k.s, ONE) && !Runnable(k.s, TWO)
    && At(k, ONE).owned == [0] && At(k, ONE).base == 1 && At(k, ONE).prio == 0 && At(k, TWO).base == 0 && At(k, TWO).prio == 0
    && At(k, IDLE).prio == PRIOS
  }

  lemma Borrows(k: K)
    requires Crew(k, DUO, TWO) && Acts(k) && At(k, TWO).call.NoCall? && Runnable(k.s, ONE) && At(k, ONE).owned == [0]
    requires k.mtx == HeldBy(ONE)
    ensures var op := LOCK; Enabled(k, op) && Silent(k, op) && Borrowed(Apply(k, op).k)
  {
    hide Apply, Enabled, InvBut, MutexLock;
    ByMutex(k, Lock(MTX));
    StepInv(k, OfMutex(Lock(0)));
    LockBlocks(k, 0);
  }

  lemma BackTo1(k: K)
    requires Borrowed(k)
    ensures Enabled(k, Preempt) && Silent(k, Preempt) && Lends(Apply(k, Preempt).k)
  {
    hide InvBut, Switch, Tame, MostUrgent;
    SwitchInv(k);
    SwitchKeeps(k);
    SwitchTo(k, 1);
  }

  lemma LendsOn(k: K)
    requires Lends(k)
    ensures var op := LOWER; Enabled(k, op) && Silent(k, op) && Acts(k) && TooUrgent(Apply(k, op).k, ONE)
  {
    hide Apply, Enabled, InvBut, ChangePrio, Waits, Acts;
    ByTask(k, SetPriority(2, 5));
    ChangePrioIs(k, 2, 5);
    var d := ChangePrio(k, 2, 5).k;
    forall m, w | m in d.s.tasks[1].owned && Waits(d.s, m, w) ensures w in d.s.tasks && d.s.tasks[1].prio < d.s.tasks[w].prio {
      SameWaiters(k, 2, 5, m, w);
      OwnerWaitsNot(k, 1, m);
      IsTask(k, m, w);
      MutexPlace(k, m, w);
      IdleRuns(k);
    }
  }

  lemma IsTask(k: K, m: nat, w: Tid)
    requires Waits(k.s, m, w)
    ensures w in k.s.tasks
  {
  }
}
