/**
 In what order a task's mutexes stand on its owned list, and so which of them a condition wait
 releases.  Every mutex carries, in the history of the run, the number of the step in which its
 owner got it.
 */
module KernelOrder {
  import opened Lists
  import opened KernelState
  import opened KernelCalls
  import opened KernelLists
  import opened KernelTime
  import opened KernelInv
  import opened KernelWake
  import opened KernelMutex
  import opened KernelCommute
  import opened KernelObjects
  import opened KernelEvents
  import opened KernelTasks
  import opened KernelSched
  import opened KernelRun
  import opened KernelEffects
  import opened KernelExact
  import opened KernelHonest

  // ---- the owned lists over one step ----

  // A list stays, is emptied, loses one mutex or gets a new one where list_insert_first puts it.
  ghost predicate Fed(a: seq<nat>, b: seq<nat>) {
    b == a || b == [] || (exists m :: m in a && b == Remove(a, m)) || (exists m :: m !in a && b == InsertFirst(a, m))
  }

  ghost predicate AllFed(s: S, d: S) { forall t | t in d.tasks :: Fed(Owned(s, t), d.tasks[t].owned) }

  ghost predicate SameOwned(s: S, d: S) { forall t | t in d.tasks :: d.tasks[t].owned == Owned(s, t) }

  lemma SameFed(s: S, d: S)
    requires SameOwned(s, d)
    ensures AllFed(s, d)
  {
  }

  lemma FedThenSame(s: S, d: S, e: S)
    requires AllFed(s, d) && SameOwned(d, e)
    ensures AllFed(s, e)
  {
    forall t | t in e.tasks ensures Fed(Owned(s, t), e.tasks[t].owned) { if t in d.tasks { assert Fed(Owned(s, t), d.tasks[t].owned); } }
  }

  lemma SameThenFed(s: S, d: S, e: S)
    requires SameOwned(s, d) && AllFed(d, e) && d.tasks.Keys == s.tasks.Keys
    ensures AllFed(s, e)
  {
    forall t | t in e.tasks ensures Fed(Owned(s, t), e.tasks[t].owned) { assert Fed(Owned(d, t), e.tasks[t].owned); }
  }

  lemma TameSame(s: S, d: S)
    requires Tame(s, d)
    ensures SameOwned(s, d)
  {
  }

  lemma TameFed(s: S, d: S)
    requires Tame(s, d)
    ensures AllFed(s, d)
  {
    hide Tame;
    TameSame(s, d);
    SameFed(s, d);
  }

  lemma SelfFed(s: S)
    ensures AllFed(s, s)
  {
  }

  lemma Gets(a: seq<nat>, m: nat)
    requires m !in a
    ensures Fed(a, InsertFirst(a, m))
  {
  }

  lemma Loses(a: seq<nat>, m: nat)
    ensures Fed(a, Remove(a, m))
  {
    if m !in a { RemoveNone(a, m); }
  }

  // ---- locking ----

  lemma TakeFed(k: K, m: nat)
    requires Inv(k) && m in k.mtx && k.mtx[m].owner.Free?
    ensures AllFed(k.s, TakeMutex(k, m).s)
  {
    hide InvBut, InsertFirst, Fed;
    FreeNotOwned(k, m, k.current);
    Gets(Owned(k.s, k.current), m);
    forall t ensures Fed(Owned(k.s, t), Owned(k.s, t)) { FedSelf(Owned(k.s, t)); }
  }

  lemma FedSelf(a: seq<nat>)
    ensures Fed(a, a)
  {
  }

  lemma FreeNotOwned(k: K, m: nat, t: Tid)
    requires Inv(k) && m in k.mtx && k.mtx[m].owner.Free?
    ensures m !in Owned(k.s, t)
  {
    hide InvBut;
    if t in k.s.tasks && m in k.s.tasks[t].owned { OwnedHeld(k, t, m); }
  }

  lemma LockFed(k: K, m: nat)
    requires Inv(k) && Runnable(k.s, k.current) && k.current != IDLE
    ensures AllFed(k.s, MutexLock(k, m).k.s)
  {
    hide InvBut, TakeMutex, AllFed, BlockOnMutex, Inherit;
    SelfFed(k.s);
    if m in k.mtx {
      if k.mtx[m].owner.Free? {
        TakeFed(k, m);
      } else {
        HeldFacts(k, m, k.sems, k.mtx);
        if k.mtx[m].owner.t != k.current {
          LockBlocks(k, m);
          Unmoved(k.s, MutexLock(k, m).k.s);
        }
      }
    }
  }

  lemma Unmoved(s: S, d: S)
    requires forall t | t in d.tasks :: t in s.tasks && d.tasks[t].owned == s.tasks[t].owned
    ensures AllFed(s, d) && SameOwned(s, d)
  {
  }

  lemma TrylockFed(k: K, m: nat)
    requires Inv(k)
    ensures AllFed(k.s, MutexTrylock(k, m).k.s)
  {
    hide InvBut, TakeMutex, AllFed;
    SelfFed(k.s);
    if m in k.mtx {
      if k.mtx[m].owner.Free? { TakeFed(k, m); } else { HeldFacts(k, m, k.sems, k.mtx); }
    }
  }

  // ---- unlocking ----

  lemma DetachFed(k: K, o: Owner, m: nat)
    ensures AllFed(k.s, Detach(k.s, o, m))
  {
    hide Fed, Remove;
    if o.Held? { Loses(Owned(k.s, o.t), m); }
    forall t ensures Fed(Owned(k.s, t), Owned(k.s, t)) { FedSelf(Owned(k.s, t)); }
  }

  lemma UnlockFed(k: K, m: nat)
    requires Inv(k) && Calling(k)
    ensures AllFed(k.s, MutexUnlock(k, m).k.s)
  {
    hide InvBut, AllFed, Detach, Transfer, Realloc, CalcInherited;
    SelfFed(k.s);
    if m in k.mtx && k.mtx[m].owner.Held? {
      HeldFacts(k, m, k.sems, k.mtx);
      if k.mtx[m].count == 1 && k.mtx[m].owner.t == k.current {
        if Queue(k.s, MtxQ(m)) == [] { DetachFed(k, Held(k.current), m); } else { ReleaseFed(k, m); }
      }
    }
  }

  lemma ReleaseFed(k: K, m: nat)
    requires Inv(k) && Calling(k) && m in k.mtx && k.mtx[m] == Mutex(1, Held(k.current)) && Queue(k.s, MtxQ(m)) != []
    ensures AllFed(k.s, MutexUnlock(k, m).k.s)
  {
    hide InvBut, MutexUnlock, Fed, Remove, InsertFirst, CalcInherited, Detach;
    UnlockHands(k, m);
    var n := Queue(k.s, MtxQ(m))[0];
    Loses(k.s.tasks[k.current].owned, m);
    NotTheirs(k, m, n);
    Gets(k.s.tasks[n].owned, m);
    forall t ensures Fed(Owned(k.s, t), Owned(k.s, t)) { FedSelf(Owned(k.s, t)); }
  }

  lemma NotTheirs(k: K, m: nat, n: Tid)
    requires Inv(k) && n in k.s.tasks && m in k.mtx && k.mtx[m].owner != Held(n)
    ensures m !in k.s.tasks[n].owned
  {
    hide InvBut;
    if m in k.s.tasks[n].owned { OwnedHeld(k, n, m); }
  }

  // One turn of the loop over all mutexes of u: a waiter gets the mutex and waits no more.
  ghost predicate Served(s: S, d: S, x: Tid) {
    && x in s.tasks && x in d.tasks
    && (d.tasks[x].owned == s.tasks[x].owned
        || (s.tasks[x].state.WtMtx? && !d.tasks[x].state.WtMtx? && exists m :: m !in s.tasks[x].owned && d.tasks[x].owned == InsertFirst(s.tasks[x].owned, m)))
    && (!s.tasks[x].state.WtMtx? ==> d.tasks[x] == s.tasks[x])
  }

  lemma OneServed(k: K, u: Tid, m: nat, x: Tid)
    requires Inv(k) && u in k.s.tasks && NoReturn(k.s.tasks[u]) && m in k.mtx && k.mtx[m].owner == Held(u) && x in k.s.tasks && x != u
    ensures var d := if Queue(k.s, MtxQ(m)) != [] then Transfer(k, m)
                     else k.(s := Detach(k.s, k.mtx[m].owner, m), mtx := k.mtx[m := Mutex(0, Free)]);
            Served(k.s, d.s, x)
  {
    hide Core, States, InvBut, Only, Own, Detach, NoClaims, Pass, Remove, InsertFirst;
    HeldFacts(k, m, k.sems, k.mtx);
    DetachInv(k, m);
    var d := Detach(k.s, k.mtx[m].owner, m);
    var k1 := k.(s := d);
    OnlyHas(k.s, d, u);
    OnlyKeys(k.s, d, u);
    NobodyElse(d, m, u);
    CoreOf(k, k.sems, k.mtx);
    CoreOf(k1, k.sems, k.mtx - {m});
    NotIn(k.s, u, MtxQ(m));
    SameQueue(k.s, d, u, MtxQ(m));
    NotTheirs(k, m, x);
    if Queue(k.s, MtxQ(m)) != [] {
      PassInv(k1, m);
      var n := Queue(d, MtxQ(m))[0];
      WaiterFacts(k1, m, n);
      OnlyKeys(d, Pass(k1, m).s, n);
    }
  }

  lemma ServedTwice(s: S, d: S, e: S, x: Tid)
    requires Served(s, d, x) && Served(d, e, x)
    ensures Served(s, e, x)
  {
    hide InsertFirst;
  }

  lemma {:induction false} AllServed(k: K, u: Tid, ms: seq<nat>, x: Tid)
    requires Inv(k) && u in k.s.tasks && NoReturn(k.s.tasks[u]) && k.s.tasks[u].owned == ms && x in k.s.tasks && x != u
    ensures Served(k.s, ReleaseEach(k, ms).s, x)
    decreases |ms|
  {
    hide InvBut, Transfer, Detach, Served;
    if ms == [] {
      ServedSelf(k.s, x);
    } else {
      var m := ms[0];
      assert m in ms;
      OwnedHeld(k, u, m);
      ReleaseOne(k, u, m);
      OneServed(k, u, m, x);
      var d := if Queue(k.s, MtxQ(m)) != [] then Transfer(k, m)
               else k.(s := Detach(k.s, k.mtx[m].owner, m), mtx := k.mtx[m := Mutex(0, Free)]);
      ServedHas(k.s, d.s, x);
      AllServed(d, u, ms[1..], x);
      ServedTwice(k.s, d.s, ReleaseEach(k, ms).s, x);
    }
  }

  lemma ServedSelf(s: S, x: Tid)
    requires x in s.tasks
    ensures Served(s, s, x)
  {
  }

  lemma ServedHas(s: S, d: S, x: Tid)
    requires Served(s, d, x)
    ensures x in d.tasks && Fed(s.tasks[x].owned, d.tasks[x].owned)
  {
  }

  lemma UnlockAllFed(k: K, u: Tid)
    requires Inv(k) && u in k.s.tasks && NoReturn(k.s.tasks[u])
    ensures AllFed(k.s, UnlockAllIn(k, u).s)
  {
    hide InvBut, ReleaseEach, Reinherit, Repositioned, Fed, Served, CalcInherited;
    var ms := k.s.tasks[u].owned;
    ReleaseEachInv(k, u, ms);
    var d := ReleaseEach(k, ms);
    KeysKept(k, u, ms);
    forall t | t in d.s.tasks ensures Fed(Owned(k.s, t), d.s.tasks[t].owned) {
      if t == u { Emptied0(ms); } else { AllServed(k, u, ms, t); ServedHas(k.s, d.s, t); }
    }
    if u == k.current { ReinheritSame(d, u); FedThenSame(k.s, d.s, Reinherit(d.s, u)); }
  }

  lemma Emptied0(a: seq<nat>)
    ensures Fed(a, [])
  {
  }

  lemma ReinheritSame(k: K, u: Tid)
    requires Inv(k) && u in k.s.tasks
    ensures SameOwned(k.s, Reinherit(k.s, u))
  {
    hide InvBut, Reinherit, Repositioned, CalcInherited;
    ReinheritInv(k, u, k.sems, k.mtx);
    ReinheritFrame(k.s, Reinherit(k.s, u), u, CalcInherited(k.s, u));
    SameBut(k.s, Reinherit(k.s, u), u, CalcInherited(k.s, u));
  }

  lemma OneKeys(k: K, u: Tid, m: nat)
    requires Inv(k) && u in k.s.tasks && NoReturn(k.s.tasks[u]) && m in k.mtx && k.mtx[m].owner == Held(u)
    ensures var d := if Queue(k.s, MtxQ(m)) != [] then Transfer(k, m)
                     else k.(s := Detach(k.s, k.mtx[m].owner, m), mtx := k.mtx[m := Mutex(0, Free)]);
            d.s.tasks.Keys == k.s.tasks.Keys
  {
    hide Core, States, InvBut, Only, Own, Detach, NoClaims, Pass, Remove, InsertFirst;
    HeldFacts(k, m, k.sems, k.mtx);
    DetachInv(k, m);
    var d := Detach(k.s, k.mtx[m].owner, m);
    var k1 := k.(s := d);
    OnlyHas(k.s, d, u);
    OnlyKeys(k.s, d, u);
    NobodyElse(d, m, u);
    CoreOf(k, k.sems, k.mtx);
    CoreOf(k1, k.sems, k.mtx - {m});
    NotIn(k.s, u, MtxQ(m));
    SameQueue(k.s, d, u, MtxQ(m));
    if Queue(k.s, MtxQ(m)) != [] {
      PassInv(k1, m);
      OnlyKeys(d, Pass(k1, m).s, Queue(d, MtxQ(m))[0]);
    }
  }

  lemma {:induction false} KeysKept(k: K, u: Tid, ms: seq<nat>)
    requires Inv(k) && u in k.s.tasks && NoReturn(k.s.tasks[u]) && k.s.tasks[u].owned == ms
    ensures ReleaseEach(k, ms).s.tasks.Keys == k.s.tasks.Keys
    decreases |ms|
  {
    hide InvBut, Transfer, Detach;
    if ms != [] {
      var m := ms[0];
      assert m in ms;
      OwnedHeld(k, u, m);
      ReleaseOne(k, u, m);
      OneKeys(k, u, m);
      KeysKept(if Queue(k.s, MtxQ(m)) != [] then Transfer(k, m)
               else k.(s := Detach(k.s, k.mtx[m].owner, m), mtx := k.mtx[m := Mutex(0, Free)]), u, ms[1..]);
    }
  }

  lemma DestroyFed(k: K, m: nat)
    requires Inv(k) && m in k.mtx
    ensures AllFed(k.s, MutexDestroy(k, m).k.s)
  {
    hide InvBut, MutexDestroy, Fed, Remove, Emptied, CalcInherited;
    DestroyTells(k, m);
    DestroyKeys(k, m);
    var o := k.mtx[m].owner;
    if o.Held? { Loses(Owned(k.s, o.t), m); }
    forall t ensures Fed(Owned(k.s, t), Owned(k.s, t)) { FedSelf(Owned(k.s, t)); }
  }

  // ---- the other calls ----

  lemma CondFed(k: K, op: CondOp)
    requires Inv(k) && CondEnabled(k, op)
    ensures AllFed(k.s, CondStep(k, op).k.s)
  {
    hide InvBut, Tame, CondSignal, CondWait, WakeAll, NewQueue, DropQueue, AllFed, Woken;
    SelfFed(k.s);
    match op
    case NewCond(c) => NewQueueTame(k, CondQ(c)); TameFed(k.s, NewQueue(k, CondQ(c)).s);
    case Wait(c, timeout) => CondWaitFed(k, c, timeout);
    case Signal(c) => CondSignalInv(k, c); TameFed(k.s, CondSignal(k, c).k.s);
    case Broadcast(c) =>
      if CondQ(c) in k.s.queues { DropsTame(k, CondQ(c), Msg(EOK), k.sems); TameFed(k.s, CondBroadcast(k, c).k.s); }
    case DestroyCond(c) =>
      if CondQ(c) in k.s.queues { DropsTame(k, CondQ(c), Msg(EDESTROY), k.sems); TameFed(k.s, CondDestroy(k, c).k.s); }
  }

  lemma CondWaitFed(k: K, c: nat, timeout: nat)
    requires Inv(k) && Calling(k) && k.current != IDLE && timeout < TICKS
    ensures AllFed(k.s, CondWait(k, c, timeout).k.s)
  {
    hide InvBut, MutexUnlock, BlockOnCond, SameConds, AllFed, SameOwned, Tame;
    SelfFed(k.s);
    if CondQ(c) in k.s.queues && timeout != DONTWAIT && Owned(k.s, k.current) != [] {
      var m := Owned(k.s, k.current)[0];
      UnlockInv(k, m);
      UnlockFed(k, m);
      assert m in Owned(k.s, k.current);
      var u := MutexUnlock(k, m).k;
      CondsAt(k.s, u.s, c);
      BlockCondInv(u, c, m, timeout);
      TameSame(u.s, BlockOnCond(u, c, m, timeout).s);
      FedThenSame(k.s, u.s, BlockOnCond(u, c, m, timeout).s);
    }
  }

  lemma SuspendSame(k: K, t: Tid)
    requires Inv(k) && t in k.s.tasks && t != IDLE && !Finished(k.s, t)
    ensures SameOwned(k.s, KillOrSuspend(k, t, true).s) && KillOrSuspend(k, t, true).s.tasks.Keys == k.s.tasks.Keys
  {
    hide Core, States, InvBut, Only, KillOrSuspend, OffList, TimeDelete, Reinherit, ReturnToken, CalcInherited, Tame, Repositioned;
    SuspendInv(k, t);
    SuspendIs(k, t);
    ParkInv(k, t);
    var k1 := Park(k, t);
    OnlyKeys(k.s, k1.s, t);
    var r := k.s.tasks[t];
    if r.state.WtMtx? { ReinheritSame(k1, k.mtx[r.obj.m].owner.t); }
  }

  lemma BurySame(s: S, t: Tid, a: bool)
    requires t in s.tasks
    ensures SameOwned(s, Bury(s, t, a))
  {
    hide Insert;
  }

  lemma EndSame(k: K, t: Tid)
    requires Inv(k) && t in k.s.tasks && t != IDLE && !Finished(k.s, t)
    ensures SameOwned(k.s, KillOrSuspend(k, t, false).s)
  {
    hide Core, States, InvBut, Only, LeaveQueue, Bury, TimeDelete, ReturnToken;
    SuspendInv(k, t);
    SuspendSame(k, t);
    LeaveHas(k.s, k.mtx, t);
    KillIs(k, t);
    var d := KillOrSuspend(k, t, true).s;
    BurySame(d, t, !Retries(k.s.tasks[t].state) && d.tasks[t].aborted);
  }

  lemma KillFed(k: K, t: Tid)
    requires Inv(k) && t in k.s.tasks && t != IDLE
    ensures AllFed(k.s, Kill(k, t).s)
  {
    hide Core, InvBut, Abandon, UnlockAllIn, WakeAll, AllWoken, KillOrSuspend, AllFed, SameOwned, Tame;
    SelfFed(k.s);
    if !Finished(k.s, t) {
      AbandonInv(k, t);
      var k1 := k.(s := Abandon(k.s, t));
      TameSame(k.s, k1.s);
      TameKeys(k.s, k1.s);
      UnlockAllInv(k1, t);
      UnlockAllFed(k1, t);
      var u := UnlockAllIn(k1, t);
      SameThenFed(k.s, k1.s, u.s);
      var o := Msg(if t == k.current then EOK else EDESTROY);
      var ts := Queue(u.s, ExitQ(t));
      ExitList(u, t);
      WakeAllInv(u, ExitQ(t), ts, o, u.sems, u.mtx);
      var w := WakeAll(u, ts, o);
      WokenRest(u, w, ts, o);
      WokenTask(u, w, t, ts, o);
      TameSame(u.s, w.s);
      FedThenSame(k.s, u.s, w.s);
      EndSame(w, t);
      FedThenSame(k.s, w.s, KillOrSuspend(w, t, false).s);
    }
  }

  lemma TameKeys(s: S, d: S)
    requires Tame(s, d)
    ensures d.tasks.Keys == s.tasks.Keys
  {
  }

  lemma CleanupFed(k: K)
    ensures AllFed(k.s, Cleanup(k).s)
  {
    hide Fed, Remove;
    forall t ensures Fed(Owned(k.s, t), Owned(k.s, t)) { FedSelf(Owned(k.s, t)); }
  }

  lemma ChangeFed(k: K, t: Tid, p: nat)
    requires Inv(k) && t in k.s.tasks
    ensures AllFed(k.s, ChangePrio(k, t, p).k.s)
  {
    hide InvBut, ChangePrio, AllFed;
    if p < PRIOS {
      ChangePrioIs(k, t, p);
      Unmoved(k.s, ChangePrio(k, t, p).k.s);
    } else {
      NoChange(k, t, p);
      SelfFed(k.s);
    }
  }

  lemma NoChange(k: K, t: Tid, p: nat)
    requires p >= PRIOS
    ensures ChangePrio(k, t, p).k == k
  {
  }

  lemma CreateFed(k: K, t: Tid, prio: nat, suspended: bool, ref: bool)
    requires Inv(k) && t !in k.s.tasks
    ensures AllFed(k.s, TaskCreate(k, t, prio, suspended, ref).s)
  {
    hide InvBut, TaskCreate, Fed;
    CreateMakes(k, t, prio, suspended, ref);
    forall x ensures Fed(Owned(k.s, x), Owned(k.s, x)) { FedSelf(Owned(k.s, x)); }
  }

  lemma TaskFed(k: K, op: TaskOp)
    requires Inv(k) && TaskEnabled(k, op)
    ensures AllFed(k.s, TaskStep(k, op).k.s)
  {
    hide InvBut, Tame, AllFed, SameOwned, TaskCreate, Kill, KillOrSuspend, Resume, WaitFor, Sleep, Cleanup, ChangePrio;
    SelfFed(k.s);
    match op
    case Create(t, prio, suspended, ref) => CreateFed(k, t, prio, suspended, ref);
    case SetPriority(t, prio) => ChangeFed(k, t, prio);
    case KillTask(t) => KillFed(k, t);
    case Pause(t) => if !Finished(k.s, t) { SuspendSame(k, t); SameFed(k.s, KillOrSuspend(k, t, true).s); }
    case Unpause(t) => ResumeInv(k, t); TameFed(k.s, Resume(k, t).k.s);
    case Join(t) => WaitForInv(k, t); TameFed(k.s, WaitFor(k, t).k.s);
    case Delay(timeout) => SleepInv(k, timeout); TameFed(k.s, Sleep(k, timeout).k.s);
    case Reap => CleanupFed(k);
  }

  lemma MutexFed(k: K, op: MutexOp)
    requires Inv(k) && MutexEnabled(k, op)
    ensures AllFed(k.s, MutexStep(k, op).k.s)
  {
    hide InvBut, AllFed, Tame, Unclaimed, MutexLock, MutexTrylock, MutexUnlock, UnlockAllIn, MutexDestroy, NewQueue;
    match op
    case NewMutex(m) => NoQueue(k, MtxQ(m)); NewQueueTame(k, MtxQ(m)); TameFed(k.s, NewQueue(k, MtxQ(m)).s);
    case Lock(m) => LockFed(k, m);
    case Trylock(m) => TrylockFed(k, m);
    case Unlock(m) => UnlockFed(k, m);
    case UnlockAll => UnlockAllFed(k, k.current);
    case DestroyMutex(m) => if m in k.mtx { DestroyFed(k, m); } else { NoMutex(k, m); SelfFed(k.s); }
  }

  lemma ContinueFed(k: K)
    requires Inv(k) && Runnable(k.s, k.current) && k.current != IDLE && CanRetry(k)
    ensures AllFed(k.s, Continue(k).k.s)
  {
    hide InvBut, CallOk, MutexLock, SemTake, WaitFor, EventTake, EventWait, SetCall, Elapsed, StateOk, Plain, AllFed, SameOwned, Tame;
    DoneInv(k);
    var r := k.s.tasks[k.current];
    StateOf(k, k.current, k.sems, k.mtx);
    ArgsOf(r, k.current, k.mtx);
    var done := k.(s := SetCall(k.s, k.current, NoCall));
    SelfFed(k.s);
    TameFed(k.s, done.s);
    TameSame(k.s, done.s);
    TameKeys(k.s, done.s);
    match r.call
    case NoCall =>
    case InWait =>
    case InLock(m) => LockFed(done, m); SameThenFed(k.s, done.s, MutexLock(done, m).k.s);
    case InCond(m) => LockFed(done, m); SameThenFed(k.s, done.s, MutexLock(done, m).k.s);
    case InExit(t) => WaitForInv(done, t); TameFed(done.s, WaitFor(done, t).k.s); SameThenFed(k.s, done.s, WaitFor(done, t).k.s);
    case InSem(i, start, timeout) =>
      if r.aborted { SemTakeInv(k, i, start, timeout); TameFed(k.s, SemTake(k, i, start, timeout).k.s); }
    case InEvent(e, bits, clear, all, start, timeout) =>
      if r.aborted {
        EventTakeInv(k, e, bits, clear, all, start, timeout);
        TameFed(k.s, EventTake(k, e, bits, clear, all, start, timeout).k.s);
      }
    case InSync(e, bits, start, timeout) =>
      var elapsed := Elapsed(k.clock, start);
      if timeout == INFINITE || elapsed < timeout {
        var left := if timeout == INFINITE then INFINITE else timeout - elapsed;
        EventWaitInv(done, e, bits, true, true, left);
        TameFed(done.s, EventWait(done, e, bits, true, true, left).k.s);
        SameThenFed(k.s, done.s, EventWait(done, e, bits, true, true, left).k.s);
      }
  }

  lemma StepFed(k: K, op: Op)
    requires Inv(k) && Enabled(k, op)
    ensures AllFed(k.s, Apply(k, op).k.s)
  {
    hide InvBut, Tame, AllFed, MutexEnabled, CondEnabled, SemEnabled, EventEnabled, TaskEnabled,
         MutexStep, CondStep, SemStep, EventStep, TaskStep, Continue, Switch, Advance, CanRetry, MostUrgent;
    match op
    case OfMutex(o) => MutexFed(k, o);
    case OfCond(o) => CondFed(k, o);
    case OfSem(o) => SemStepTame(k, o); TameFed(k.s, SemStep(k, o).k.s);
    case OfEvent(o) => EventStepTame(k, o); TameFed(k.s, EventStep(k, o).k.s);
    case OfTask(o) => TaskFed(k, o);
    case Resumed => ContinueFed(k);
    case Preempt => SwitchInv(k); TameFed(k.s, Switch(k).s);
    case Tick(n) => AdvanceInv(k, n); TameFed(k.s, Advance(k, n).s);
  }

  // ---- when each mutex was got ----

  // The step in which a mutex got its present owner.
  function Stamped(k: K, d: K, st: map<nat, nat>, now: nat): map<nat, nat> {
    map m | m in d.mtx :: if m in k.mtx && m in st && k.mtx[m].owner == d.mtx[m].owner then st[m] else now
  }

  function Stamps(k: K, ops: seq<Op>, st: map<nat, nat>, now: nat): map<nat, nat>
    decreases |ops|
  {
    if ops == [] then st else var d := Apply(k, ops[0]).k; Stamps(d, ops[1..], Stamped(k, d, st, now), now + 1)
  }

  // All but the head of an owned list stand in the order in which they were got, latest first.
  ghost predicate LatestFirst(ms: seq<nat>, st: map<nat, nat>) {
    (forall i | 0 <= i < |ms| :: ms[i] in st) && (forall i, j | 1 <= i < j < |ms| :: st[ms[i]] > st[ms[j]])
  }

  ghost predicate Ordered(k: K, st: map<nat, nat>, now: nat) {
    && (forall m | m in k.mtx :: m in st && st[m] < now)
    && (forall t | t in k.s.tasks :: LatestFirst(k.s.tasks[t].owned, st))
  }

  lemma FedOrdered(a: seq<nat>, b: seq<nat>, st: map<nat, nat>, su: map<nat, nat>, now: nat)
    requires LatestFirst(a, st) && NoDup(a) && Fed(a, b) && (forall m | m in a :: m in st && st[m] < now)
    requires forall m | m in b :: m in su && (if m in a then su[m] == st[m] else su[m] == now)
    ensures LatestFirst(b, su)
  {
    if b == a || b == [] {
      forall i, j | 1 <= i < j < |b| ensures su[b[i]] > su[b[j]] { assert b[i] in b && b[j] in b; }
    } else if m :| m in a && b == Remove(a, m) {
      RemoveFacts(a, m);
      RemoveOrdered(a, m, st, su);
    } else {
      var m :| m !in a && b == InsertFirst(a, m);
      InsertOrdered(a, m, st, su, now);
    }
  }

  lemma RemoveOrdered(a: seq<nat>, m: nat, st: map<nat, nat>, su: map<nat, nat>)
    requires LatestFirst(a, st) && NoDup(a) && m in a
    requires forall x | x in Remove(a, m) :: x in su && x in st && su[x] == st[x]
    ensures LatestFirst(Remove(a, m), su)
  {
    var i := RemoveAt(a, m);
    hide Remove;
    var b := Remove(a, m);
    forall j | 0 <= j < |b| ensures b[j] in su && b[j] == (if j < i then a[j] else a[j + 1]) && su[b[j]] == st[b[j]] { assert b[j] in b; }
  }

  lemma InsertOrdered(a: seq<nat>, m: nat, st: map<nat, nat>, su: map<nat, nat>, now: nat)
    requires LatestFirst(a, st) && m !in a && (forall x | x in a :: x in st && st[x] < now)
    requires forall x | x in InsertFirst(a, m) :: x in su && (if x in a then su[x] == st[x] else su[x] == now)
    ensures LatestFirst(InsertFirst(a, m), su)
  {
    var b := InsertFirst(a, m);
    forall j | 0 <= j < |b|
      ensures b[j] in su && b[j] == (if a == [] || j == 1 then m else if j == 0 then a[0] else a[j - 1])
      ensures su[b[j]] == if b[j] == m then now else st[b[j]]
    {
      assert b[j] in b;
    }
  }

  lemma OrderedStep(k: K, op: Op, st: map<nat, nat>, now: nat)
    requires Inv(k) && Enabled(k, op) && Ordered(k, st, now)
    ensures var d := Apply(k, op).k; Ordered(d, Stamped(k, d, st, now), now + 1)
  {
    hide InvBut, Apply, Enabled, Fed, LatestFirst, NoDup;
    var d := Apply(k, op).k;
    var su := Stamped(k, d, st, now);
    StepInv(k, op);
    StepFed(k, op);
    forall t | t in d.s.tasks ensures LatestFirst(d.s.tasks[t].owned, su) { TaskOrdered(k, d, t, st, now); }
  }

  lemma TaskOrdered(k: K, d: K, t: Tid, st: map<nat, nat>, now: nat)
    requires Inv(k) && Inv(d) && t in d.s.tasks && Ordered(k, st, now) && Fed(Owned(k.s, t), d.s.tasks[t].owned)
    ensures LatestFirst(d.s.tasks[t].owned, Stamped(k, d, st, now))
  {
    hide InvBut, Fed, LatestFirst, NoDup;
    var a, b, su := Owned(k.s, t), d.s.tasks[t].owned, Stamped(k, d, st, now);
    OwnedOnce(k, t);
    forall m | m in a ensures m in st && st[m] < now { OwnedHeld(k, t, m); }
    forall m | m in b ensures m in su && (if m in a then su[m] == st[m] else su[m] == now) {
      OwnedHeld(d, t, m);
      if m in a { OwnedHeld(k, t, m); } else if m in k.mtx { NotOwner(k, t, m); }
    }
    NothingOrdered(st);
    FedOrdered(a, b, st, su, now);
  }

  lemma NothingOrdered(st: map<nat, nat>)
    ensures LatestFirst([], st)
  {
  }

  lemma OwnedOnce(k: K, t: Tid)
    requires Inv(k)
    ensures NoDup(Owned(k.s, t))
  {
    hide Core, States, TimeInv, TimeStates, Objects, OneRunning, Sems, Events, Calls, Exits;
  }

  lemma NotOwner(k: K, t: Tid, m: nat)
    requires Inv(k) && m in k.mtx && m !in Owned(k.s, t)
    ensures k.mtx[m].owner != Held(t)
  {
    hide InvBut;
    if k.mtx[m].owner == Held(t) { HeldFacts(k, m, k.sems, k.mtx); }
  }

  lemma {:induction false} OrderedFrom(k: K, ops: seq<Op>, st: map<nat, nat>, now: nat)
    requires Inv(k) && Lawful(k, ops) && Ordered(k, st, now)
    ensures Ordered(Final(k, ops), Stamps(k, ops, st, now), now + |ops|) && Inv(Final(k, ops))
    decreases |ops|
  {
    hide InvBut, Apply, Enabled, Ordered, Stamped;
    if ops != [] {
      var d := Apply(k, ops[0]).k;
      StepInv(k, ops[0]);
      OrderedStep(k, ops[0], st, now);
      OrderedFrom(d, ops[1..], Stamped(k, d, st, now), now + 1);
    }
  }

  lemma BootOrdered()
    ensures Ordered(Boot(), map[], 0)
  {
    hide InvBut, Core, States, Awake, Pool, IsPool, Added;
    PoolFacts(PRIOS + 1);
    IdleAlone(Pool(PRIOS + 1), NewTask(PRIOS, false, false));
  }

  // m was got after every other mutex of the list.
  predicate LockedLast(ms: seq<nat>, st: map<nat, nat>, m: nat) {
    forall i | 0 <= i < |ms| && ms[i] != m :: m in st && ms[i] in st && st[ms[i]] < st[m]
  }

  // m was got before every other mutex of the list.
  predicate LockedFirst(ms: seq<nat>, st: map<nat, nat>, m: nat) {
    forall i | 0 <= i < |ms| && ms[i] != m :: m in st && ms[i] in st && st[m] < st[ms[i]]
  }

  // In every run: the mutex a condition wait releases is the head of the owned list.  It is the
  // oldest, as promised, exactly when it is the only one or older than the last of the list; it
  // is the youngest exactly when it is the only one or younger than the second.
  lemma CondWaitOrder(ops: seq<Op>, c: nat, timeout: nat)
    requires Lawful(Boot(), ops)
    requires var k := Final(Boot(), ops); MayBlock(k, timeout) && CondQ(c) in k.s.queues && timeout != DONTWAIT && Owned(k.s, k.current) != []
    ensures var k := Final(Boot(), ops); var st := Stamps(Boot(), ops, map[], 0); var ms := Owned(k.s, k.current); var o := CondWait(k, c, timeout);
            && o.ret == Blocked && k.current in o.k.s.tasks && o.k.s.tasks[k.current].call == InCond(ms[0])
            && (forall i | 0 <= i < |ms| :: ms[i] in st)
            && (LockedFirst(ms, st, ms[0]) <==> |ms| == 1 || st[ms[0]] < st[ms[|ms| - 1]])
            && (LockedLast(ms, st, ms[0]) <==> |ms| == 1 || st[ms[0]] > st[ms[1]])
  {
    hide InvBut, Boot, Lawful, Final, Ordered, CondWait, Stamps, LatestFirst, LockedLast, LockedFirst;
    BootInv();
    BootOrdered();
    OrderedFrom(Boot(), ops, map[], 0);
    var k := Final(Boot(), ops);
    CondWaitReleases(k, c, timeout);
    OwnedOnce(k, k.current);
    OrderedAt(k, Stamps(Boot(), ops, map[], 0), |ops|, k.current);
    HeadLast(Owned(k.s, k.current), Stamps(Boot(), ops, map[], 0));
    HeadFirst(Owned(k.s, k.current), Stamps(Boot(), ops, map[], 0));
  }

  lemma OrderedAt(k: K, st: map<nat, nat>, now: nat, t: Tid)
    requires Ordered(k, st, now) && t in k.s.tasks
    ensures LatestFirst(k.s.tasks[t].owned, st)
  {
  }

  lemma HeadLast(ms: seq<nat>, st: map<nat, nat>)
    requires LatestFirst(ms, st) && NoDup(ms) && ms != []
    ensures (forall i | 0 <= i < |ms| :: ms[i] in st) && (LockedLast(ms, st, ms[0]) <==> |ms| == 1 || st[ms[0]] > st[ms[1]])
  {
  }

  lemma HeadFirst(ms: seq<nat>, st: map<nat, nat>)
    requires LatestFirst(ms, st) && NoDup(ms) && ms != []
    ensures (forall i | 0 <= i < |ms| :: ms[i] in st) && (LockedFirst(ms, st, ms[0]) <==> |ms| == 1 || st[ms[0]] < st[ms[|ms| - 1]])
  {
    var n := |ms| - 1;
    if n > 0 && st[ms[0]] < st[ms[n]] {
      forall i | 0 <= i < |ms| && ms[i] != ms[0] ensures st[ms[0]] < st[ms[i]] { if i < n { assert st[ms[i]] > st[ms[n]]; } }
    }
  }

  lemma {:induction false} StampsMore(k: K, ops: seq<Op>, op: Op, st: map<nat, nat>, now: nat)
    ensures var d := Final(k, ops);
            Stamps(k, ops + [op], st, now) == Stamped(d, Apply(d, op).k, Stamps(k, ops, st, now), now + |ops|)
    decreases |ops|
  {
    hide Apply, Stamped;
    if ops == [] {
      assert ops + [op] == [op] && [op][1..] == [];
    } else {
      var d := Apply(k, ops[0]).k;
      assert (ops + [op])[0] == ops[0] && (ops + [op])[1..] == ops[1..] + [op];
      StampsMore(d, ops[1..], op, Stamped(k, d, st, now), now + 1);
    }
  }

  // A mutex that is got in the last step of a run is the one locked last.
  lemma JustGot(ops: seq<Op>, op: Op, m: nat, t: Tid)
    requires Lawful(Boot(), ops) && Enabled(Final(Boot(), ops), op)
    requires var k := Final(Boot(), ops); var d := Apply(k, op).k;
             m in k.mtx && k.mtx[m].owner != Held(t) && m in d.mtx && d.mtx[m].owner == Held(t)
    ensures var k := Final(Boot(), ops); var d := Apply(k, op).k; var su := Stamps(Boot(), ops + [op], map[], 0);
            m in su && (forall x | x in k.mtx && x in d.mtx && d.mtx[x].owner == k.mtx[x].owner :: x in su && su[x] < su[m])
  {
    hide InvBut, Boot, Lawful, Final, Apply, Enabled, Ordered, Stamps;
    BootInv();
    BootOrdered();
    OrderedFrom(Boot(), ops, map[], 0);
    StampsMore(Boot(), ops, op, map[], 0);
    Before(Final(Boot(), ops), Stamps(Boot(), ops, map[], 0), |ops|);
  }

  lemma Before(k: K, st: map<nat, nat>, now: nat)
    requires Ordered(k, st, now)
    ensures forall m | m in k.mtx :: m in st && st[m] < now
  {
  }
}
