/**
 The account of one semaphore over a step of the kernel: what was signalled, what was granted,
 and the tokens on their way to tasks that were granted one but have not returned from their
 wait yet.
 */
module KernelAccounts {
  import opened Lists
  import opened KernelState
  import opened KernelCalls
  import opened KernelLists
  import opened KernelInv
  import opened KernelWake
  import opened KernelMutex
  import opened KernelObjects
  import opened KernelTasks
  import opened KernelRun
  import opened KernelEffects
  import opened KernelTokens
  import opened KernelHonest

  // ---- tokens on their way ----

  // No token of a semaphore is new.
  ghost predicate Kept(s: S, d: S) {
    forall t | t in d.tasks && d.tasks[t].token.Granted? ::
      t in s.tasks && s.tasks[t].token.Granted? && s.tasks[t].call == d.tasks[t].call
  }

  lemma TidyKept(s: S, d: S, ms: set<nat>)
    requires Tokens(s, d, ms)
    ensures Kept(s, d)
  {
  }

  lemma ResumeKept(k: K, t: Tid)
    ensures Kept(k.s, Resume(k, t).k.s)
  {
    hide SetObj, AddReady, TimeDelete;
    if t in k.s.tasks {
      TidyAwake(Forge(k.s, t), t, Msg(EOK));
      TidyKept(Forge(k.s, t), AddReady(SetObj(Forge(k.s, t), t, Msg(EOK)), t), {});
    }
  }

  lemma DestroyKept(k: K, m: nat)
    ensures Kept(k.s, MutexDestroy(k, m).k.s)
  {
    hide DestroyWaiters, Forsake, Reinherit, Tokens, Timing;
    if m in k.mtx {
      var o := k.mtx[m].owner;
      ForsakeKept(k.s, o, m);
      var a := k.(s := Forsake(k.s, o, m), mtx := k.mtx[m := Mutex(0, Free)]);
      var d := DestroyWaiters(a, Queue(k.s, MtxQ(m)));
      DestroyWaitersTidy(a, Queue(k.s, MtxQ(m)));
      TidyKept(a.s, d.s, {});
      if o.Held? {
        TidyReinherit(d.s, o.t);
        TidyKept(d.s, Reinherit(d.s, o.t), {});
      }
    }
  }

  lemma ForsakeKept(s: S, o: Owner, m: nat)
    ensures Kept(s, Forsake(s, o, m))
  {
    hide Remove;
  }

  lemma StepKept(k: K, op: Op)
    requires !(op.OfSem? && op.sop.Give?) && k.current in k.s.tasks
    ensures Kept(k.s, Apply(k, op).k.s)
  {
    hide Kept, Tokens, Begun, Resume, MutexDestroy, Overwritten, MutexLock, MutexTrylock, MutexUnlock,
         UnlockAllIn, TaskCreate, ChangePrio, Kill, SuspendTask, WaitFor, Sleep, Cleanup, CondStep, SemStep, EventStep, Continue, Switch, Advance, NewQueue;
    if op.OfMutex? && op.mop.DestroyMutex? {
      DestroyKept(k, op.mop.m);
    } else if op.OfTask? && op.top.Unpause? {
      ResumeKept(k, op.top.t);
    } else {
      StepTidy(k, op);
      TidyKept(k.s, Apply(k, op).k.s, Apply(k, op).k.mtx.Keys);
    }
  }

  // ---- the account of one semaphore ----

  predicate SameAccount(a: map<nat, Semaphore>, b: map<nat, Semaphore>, i: nat) {
    i in a ==> i in b && b[i] == a[i].(value := b[i].value)
  }

  lemma ReturnSame(sems: map<nat, Semaphore>, r: Task, i: nat)
    ensures SameAccount(sems, ReturnToken(sems, r), i)
  {
  }

  lemma {:induction false} WakeAllSems(k: K, ts: seq<Tid>, o: Obj)
    ensures WakeAll(k, ts, o).sems == k.sems
    decreases |ts|
  {
    if ts != [] { WakeAllSems(WakeUp(k.(s := ListDelete(k.s, ts[0])), ts[0], o), ts[1..], o); }
  }

  lemma {:induction false} ReleaseEachSems(k: K, ms: seq<nat>)
    ensures ReleaseEach(k, ms).sems == k.sems
    decreases |ms|
  {
    if ms != [] && ms[0] in k.mtx {
      var m := ms[0];
      ReleaseEachSems(if Queue(k.s, MtxQ(m)) != [] then Transfer(k, m)
                      else k.(s := Detach(k.s, k.mtx[m].owner, m), mtx := k.mtx[m := Mutex(0, Free)]), ms[1..]);
    }
  }

  lemma {:induction false} DestroyWaitersSems(k: K, ts: seq<Tid>)
    ensures DestroyWaiters(k, ts).sems == k.sems
    decreases |ts|
  {
    if ts != [] {
      var l := ListDelete(k.s, ts[0]);
      DestroyWaitersSems(WakeUp(k.(s := SetPrio(l, ts[0], CalcInherited(l, ts[0]))), ts[0], Msg(EDESTROY)), ts[1..]);
    }
  }

  lemma {:induction false} SetLoopSems(k: K, ts: seq<Tid>, bits: bv32)
    ensures SetLoop(k, ts, bits).sems == k.sems
    decreases |ts|
  {
    hide Satisfied, ListDelete;
    if ts != [] {
      SetLoopSems(WakeUp(k.(s := ListDelete(k.s, ts[0])), ts[0], Bits(bits)), ts[1..], bits);
      SetLoopSems(k, ts[1..], bits);
    }
  }

  lemma {:induction false} ExpireSems(k: K, now: nat, i: nat)
    ensures SameAccount(k.sems, Expire(k, now).sems, i)
    decreases |k.clock.cur|
  {
    hide ReturnToken, AddReady, TimedOut;
    var cur := k.clock.cur;
    if cur != [] && !(cur[0] in k.clock.due && now < k.clock.due[cur[0]]) {
      if cur[0] in k.s.tasks { ReturnSame(k.sems, k.s.tasks[cur[0]], i); }
      ExpireSems(SetCur(WakeTimedOut(k, cur[0]), cur[1..]), now, i);
    }
  }

  lemma {:induction false} AdvanceSems(k: K, n: nat, i: nat)
    ensures SameAccount(k.sems, Advance(k, n).sems, i)
    decreases n
  {
    hide Expire;
    if n > 0 && k.clock.jiffies < TICKS {
      var j := k.clock.jiffies;
      ExpireSems(SetJiffies(k, j + n), j + n, i);
      if n >= TICKS - j {
        var a := SetJiffies(k, TICKS - 1);
        var d := if TICKS - j > 1 then Expire(a, TICKS - 1) else k;
        ExpireSems(a, TICKS - 1, i);
        ExpireSems(Wrap(d), 0, i);
        AdvanceSems(Expire(Wrap(d), 0), n - (TICKS - j), i);
      }
    }
  }

  lemma MutexSems(k: K, op: MutexOp)
    ensures MutexStep(k, op).k.sems == k.sems
  {
    hide ReleaseEach, DestroyWaiters, Reinherit, CalcInherited, Realloc, Detach, SetOwned;
    match op {
      case NewMutex(m) =>
      case Lock(m) => LockSems(k, m);
      case Trylock(m) =>
      case Unlock(m) => UnlockSems(k, m);
      case UnlockAll => ReleaseEachSems(k, Owned(k.s, k.current));
      case DestroyMutex(m) =>
        if m in k.mtx {
          DestroyWaitersSems(k.(s := Forsake(k.s, k.mtx[m].owner, m), mtx := k.mtx[m := Mutex(0, Free)]), Queue(k.s, MtxQ(m)));
        }
    }
  }

  lemma LockSems(k: K, m: nat)
    ensures MutexLock(k, m).k.sems == k.sems
  {
    hide Realloc, SetSleep, AddToPrioQueue, Inherit;
  }

  lemma UnlockSems(k: K, m: nat)
    ensures MutexUnlock(k, m).k.sems == k.sems
  {
    hide Realloc, CalcInherited, Detach, ListDelete, AddReady;
  }

  lemma CondSems(k: K, op: CondOp)
    ensures CondStep(k, op).k.sems == k.sems
  {
    hide WakeAll, MutexUnlock, SetSleep, AddToPrioQueue, ListDelete, AddReady;
    match op {
      case NewCond(c) =>
      case Wait(c, timeout) => if Owned(k.s, k.current) != [] { UnlockSems(k, Owned(k.s, k.current)[0]); }
      case Signal(c) =>
      case Broadcast(c) => WakeAllSems(k, Queue(k.s, CondQ(c)), Msg(EOK));
      case DestroyCond(c) => WakeAllSems(k, Queue(k.s, CondQ(c)), Msg(EDESTROY));
    }
  }

  lemma EventSems(k: K, op: EventOp)
    ensures EventStep(k, op).k.sems == k.sems
  {
    hide WakeAll, SetLoop, ClearMask, SetSleep, InsertEnd, Plain, With, Without, CheckCond, EvWord, HasAll, Elapsed;
    match op {
      case NewEvent(e) =>
      case WaitBits(e, bits, clear, all, timeout) =>
      case ClearBits(e, bits) =>
      case PutBits(e, bits) => if e in k.evts { SetLoopSems(k, Queue(k.s, EvtQ(e)), With(k.evts[e], bits)); }
      case Sync(e, bits, wanted, timeout) => if e in k.evts { SetLoopSems(k, Queue(k.s, EvtQ(e)), With(k.evts[e], bits)); }
      case DestroyEvent(e) => WakeAllSems(k, Queue(k.s, EvtQ(e)), Msg(EDESTROY));
    }
  }

  lemma TaskSems(k: K, op: TaskOp, i: nat)
    ensures SameAccount(k.sems, TaskStep(k, op).k.sems, i)
  {
    hide UnlockAllIn, WakeAll, Realloc, LeaveQueue, ListDelete, AddReady, ReturnToken, SetSleep, InsertEnd, Forge;
    match op {
      case KillTask(t) => if t in k.s.tasks { KillSems(k, t, i); }
      case Pause(t) => if t in k.s.tasks { ReturnSame(k.sems, k.s.tasks[t], i); }
      case _ =>
    }
  }

  lemma KillSems(k: K, t: Tid, i: nat)
    requires t in k.s.tasks
    ensures SameAccount(k.sems, Kill(k, t).sems, i)
  {
    hide ReleaseEach, Reinherit, WakeAll, LeaveQueue, ReturnToken, InsertEnd;
    var a := k.(s := Abandon(k.s, t));
    ReleaseEachSems(a, Owned(a.s, t));
    var u := UnlockAllIn(a, t);
    var o := Msg(if t == k.current then EOK else EDESTROY);
    var w := WakeAll(u, Queue(u.s, ExitQ(t)), o);
    WakeAllSems(u, Queue(u.s, ExitQ(t)), o);
    if t in w.s.tasks { ReturnSame(w.sems, w.s.tasks[t], i); }
  }

  // The rest of a call on another object.
  lemma ContinueSems(k: K, i: nat)
    requires k.current in k.s.tasks && !(k.s.tasks[k.current].call.InSem? && k.s.tasks[k.current].call.s == i)
    ensures SameAccount(k.sems, Continue(k).k.sems, i)
  {
    hide MutexLock, EventTake, EventWait, WaitFor, BlockOnSem, Elapsed, Return;
    var r := k.s.tasks[k.current];
    var done := k.(s := SetCall(k.s, k.current, NoCall));
    match r.call {
      case NoCall =>
      case InWait =>
      case InLock(m) => LockSems(done, m);
      case InCond(m) => LockSems(done, m);
      case InExit(t) => WaitForSems(done, t);
      case InSem(j, start, timeout) => OtherTakeSems(k, j, start, timeout, i);
      case InEvent(e, bits, clear, all, start, timeout) => EventTakeSems(k, e, bits, clear, all, start, timeout);
      case InSync(e, bits, start, timeout) =>
        var el := Elapsed(k.clock, start);
        EventWaitSems(done, e, bits, if timeout == INFINITE || el >= timeout then INFINITE else timeout - el);
    }
    ReturnSems(k, r.obj);
    ReturnSems(k, Msg(ETIMEOUT));
  }

  lemma ReturnSems(k: K, o: Obj)
    ensures Return(k, o).k.sems == k.sems
  {
  }

  lemma WaitForSems(k: K, t: Tid)
    ensures WaitFor(k, t).k.sems == k.sems
  {
    hide SetSleep, InsertEnd;
  }

  lemma OtherTakeSems(k: K, j: nat, start: nat, timeout: nat, i: nat)
    requires i != j
    ensures SameAccount(k.sems, SemTake(k, j, start, timeout).k.sems, i)
  {
    hide SetSleep, AddToPrioQueue, Elapsed;
  }

  lemma EventTakeSems(k: K, e: nat, bits: bv32, clear: bool, all: bool, start: nat, timeout: nat)
    ensures EventTake(k, e, bits, clear, all, start, timeout).k.sems == k.sems
  {
    hide SetSleep, InsertEnd, CheckCond, EvWord, Without, Elapsed;
  }

  lemma EventWaitSems(k: K, e: nat, bits: bv32, timeout: nat)
    ensures EventWait(k, e, bits, true, true, timeout).k.sems == k.sems
  {
    hide EventTake, Plain;
    EventTakeSems(k, e, bits, true, true, k.clock.jiffies, timeout);
  }

  lemma OtherSemSems(k: K, op: SemOp, i: nat)
    requires op.i != i
    ensures SameAccount(k.sems, SemStep(k, op).k.sems, i)
  {
    hide SemTake, WakeAll, WakeUp, ListDelete, SemInc, ResetValue;
    match op {
      case NewSem(j, value, limit) =>
      case Take(j, timeout) => OtherTakeSems(k, j, k.clock.jiffies, timeout, i);
      case TryTake(j) =>
      case Give(j) => OtherGiveSems(k, j, i);
      case ResetSem(j, val) =>
        if j in k.sems {
          var l := k.sems[j].limit;
          WakeAllSems(k.(sems := k.sems[j := Semaphore(ResetValue(l, val), l, ResetValue(l, val), 0, 0)]), Queue(k.s, SemQ(j)), Msg(ERESET));
        }
      case DestroySem(j) => WakeAllSems(k, Queue(k.s, SemQ(j)), Msg(EDESTROY));
    }
  }

  lemma OtherGiveSems(k: K, j: nat, i: nat)
    requires i != j
    ensures SameAccount(k.sems, SemSignal(k, j).k.sems, i)
  {
    hide ListDelete, AddReady, SemInc;
  }

  // The current task is inside a wait on i.
  predicate Inside(k: K, i: nat) { k.current in k.s.tasks && k.s.tasks[k.current].call.InSem? && k.s.tasks[k.current].call.s == i }

  lemma StepSems(k: K, op: Op, i: nat)
    requires op.OfSem? ==> op.sop.i != i
    requires op.Resumed? ==> !Inside(k, i)
    ensures SameAccount(k.sems, Apply(k, op).k.sems, i)
  {
    hide MutexStep, CondStep, SemStep, EventStep, TaskStep, Continue, Switch, Advance;
    match op {
      case OfMutex(o) => MutexSems(k, o);
      case OfCond(o) => CondSems(k, o);
      case OfSem(o) => OtherSemSems(k, o, i);
      case OfEvent(o) => EventSems(k, o);
      case OfTask(o) => TaskSems(k, o, i);
      case Resumed => if k.current in k.s.tasks { ContinueSems(k, i); } else { assert Continue(k).k.sems == k.sems by { NoCurrentSems(k); } }
      case Preempt => SwitchSems(k);
      case Tick(n) => AdvanceSems(k, n, i);
    }
  }

  lemma NoCurrentSems(k: K)
    requires k.current !in k.s.tasks
    ensures Continue(k).k.sems == k.sems
  {
  }

  lemma SwitchSems(k: K)
    ensures Switch(k).sems == k.sems
  {
    hide Rotate, SetState;
  }

  // ---- tokens on their way ----

  // The tasks that were granted a token of i and have not returned from their wait.
  function Pending(k: K, i: nat): set<Tid> {
    set t | t in k.s.tasks && k.s.tasks[t].token.Granted? && k.s.tasks[t].call.InSem? && k.s.tasks[t].call.s == i
  }

  lemma KeptPending(k: K, d: K, i: nat)
    requires Kept(k.s, d.s)
    ensures Pending(d, i) <= Pending(k, i) && |Pending(d, i)| <= |Pending(k, i)|
  {
    Subset(Pending(d, i), Pending(k, i));
  }

  lemma {:induction false} Subset(a: set<nat>, b: set<nat>)
    requires a <= b
    ensures |a| <= |b|
    decreases |a|
  {
    if a != {} {
      var t :| t in a;
      Subset(a - {t}, b - {t});
    }
  }

  // ---- returns ----

  // The step ends a wait on i with EOK.
  predicate Returns(k: K, op: Op, i: nat) { WaitsOn(k, op, i) && Apply(k, op).ret == Code(EOK) }

  predicate WaitsOn(k: K, op: Op, i: nat) {
    (op.OfSem? && (op.sop.Take? || op.sop.TryTake?) && op.sop.i == i) || (op.Resumed? && Inside(k, i))
  }

  // The EOK of a wait that the task did not start again was forged.
  predicate Forges(k: K, op: Op) {
    op.Resumed? && k.current in k.s.tasks && !k.s.tasks[k.current].aborted && k.s.tasks[k.current].token.Forged?
  }

  predicate Grants(k: K, op: Op, i: nat) { Returns(k, op, i) && !Forges(k, op) }

  // The semaphore i has no limit, and w of its tokens have been returned with.
  ghost predicate Covered(k: K, i: nat, w: nat) {
    i in k.sems && k.sems[i].limit == 0 && w + |Pending(k, i)| <= k.sems[i].grants
  }

  // No step but the operations above ends or starts the account of i.
  predicate Leaves(op: Op, i: nat) {
    op.OfSem? && (op.sop.NewSem? || op.sop.ResetSem? || op.sop.DestroySem?) ==> op.sop.i != i
  }

  function Total(v: Semaphore): int { v.initial + v.signals }

  // After a step: g more waits returned with a token, which was there, and the total grew by n.
  ghost predicate Settled(k: K, d: K, i: nat, w: nat, g: nat, n: nat) {
    && i in k.sems && Covered(d, i, w + g) && (g > 0 ==> w < Total(k.sems[i]))
    && Total(d.sems[i]) == Total(k.sems[i]) + n
  }

  // A token that a wait returned with was there from the start or signalled.
  lemma StillThere(k: K, i: nat, w: nat)
    requires Inv(k) && Covered(k, i, w)
    ensures w + |Pending(k, i)| + (if k.sems[i].value > 0 then k.sems[i].value else 0) <= Total(k.sems[i])
  {
    hide InvBut, Pending;
    SemOf(k, i, k.mtx);
  }

  lemma TakeAccount(k: K, i: nat, start: nat, timeout: nat)
    requires i in k.sems
    ensures var o := SemTake(k, i, start, timeout); var g := if o.ret == Code(EOK) then 1 else 0;
            i in o.k.sems && o.k.sems[i] == k.sems[i].(value := o.k.sems[i].value, grants := k.sems[i].grants + g)
            && (o.ret == Code(EOK) ==> k.sems[i].value > 0)
  {
    hide SetSleep, AddToPrioQueue, Elapsed, SetCall;
  }

  // The account over one wait that starts, or starts again, on i.
  lemma TakeCovered(k: K, op: Op, i: nat, w: nat)
    requires Inv(k) && Covered(k, i, w) && Enabled(k, op)
    requires (op.OfSem? && (op.sop.Take? || op.sop.TryTake?) && op.sop.i == i) || (op.Resumed? && Inside(k, i) && k.s.tasks[k.current].aborted)
    ensures Settled(k, Apply(k, op).k, i, w, if Returns(k, op, i) then 1 else 0, 0)
  {
    hide InvBut, Enabled, SemTake, Pending;
    CurrentThere(k);
    StepKept(k, op);
    KeptPending(k, Apply(k, op).k, i);
    StillThere(k, i, w);
    if op.OfSem? {
      if op.sop.Take? { TakeAccount(k, i, k.clock.jiffies, op.sop.timeout); }
    } else {
      var c := k.s.tasks[k.current].call;
      TakeAccount(k, i, c.start, c.timeout);
    }
  }

  // The account over the return from a blocked wait.
  lemma ReturnCovered(k: K, i: nat, w: nat)
    requires Inv(k) && Covered(k, i, w) && Inside(k, i) && Runnable(k.s, k.current) && !k.s.tasks[k.current].aborted
    ensures Settled(k, Apply(k, Resumed).k, i, w, if Grants(k, Resumed, i) then 1 else 0, 0)
  {
    hide InvBut, Enabled, Continue, BitsOk;
    ReturnsResult(k);
    CurrentThere(k);
    StepKept(k, Resumed);
    KeptPending(k, Apply(k, Resumed).k, i);
    StillThere(k, i, w);
    StateOf(k, k.current, k.sems, k.mtx);
    if Grants(k, Resumed, i) {
      assert k.current in Pending(k, i);
      CurrentDone(k);
      Subset(Pending(Apply(k, Resumed).k, i), Pending(k, i) - {k.current});
    }
  }

  lemma CurrentDone(k: K)
    requires k.current in k.s.tasks && k.s.tasks[k.current].call.InSem? && !k.s.tasks[k.current].aborted
    ensures var d := Continue(k).k.s; k.current in d.tasks && d.tasks[k.current].token.NoToken?
  {
  }

  // The account over a signal.
  lemma GiveCovered(k: K, i: nat, w: nat)
    requires Inv(k) && Covered(k, i, w)
    ensures Settled(k, SemSignal(k, i).k, i, w, 0, 1)
  {
    hide InvBut, SemSignal, Tokens, Timing;
    SignalTidy(k, i);
    GiveAccount(k, i);
    var s := if Wakes(k, i) then SetToken(k.s, k.s.queues[SemQ(i)][0], Granted) else k.s;
    var m := k.(s := s);
    TidyKept(s, SemSignal(k, i).k.s, {});
    KeptPending(m, SemSignal(k, i).k, i);
    if Wakes(k, i) { MarkedPending(k, k.s.queues[SemQ(i)][0], i); }
  }

  lemma GiveAccount(k: K, i: nat)
    requires Inv(k) && i in k.sems && k.sems[i].limit == 0
    ensures var d := SemSignal(k, i).k; var v := k.sems[i]; var g := if Wakes(k, i) then 1 else 0;
            i in d.sems && d.sems[i] == v.(value := d.sems[i].value, signals := v.signals + 1, grants := v.grants + g)
  {
    hide InvBut, ListDelete, AddReady, SetObj, TimeDelete;
    if Queue(k.s, SemQ(i)) != [] { DeleteKeeps(k.s, k.s.queues[SemQ(i)][0]); }
  }

  lemma MarkedPending(k: K, t: Tid, i: nat)
    requires t in k.s.tasks
    ensures |Pending(k.(s := SetToken(k.s, t, Granted)), i)| <= |Pending(k, i)| + 1
  {
    var a, b := Pending(k.(s := SetToken(k.s, t, Granted)), i), Pending(k, i);
    assert a <= b + {t};
    Subset(a, b + {t});
    assert |b + {t}| <= |b| + 1;
  }

  // The account over a signal of another semaphore: the task it wakes waits for that one.
  lemma OtherGiveCovered(k: K, j: nat, i: nat, w: nat)
    requires Inv(k) && Covered(k, i, w) && i != j
    ensures Settled(k, SemSignal(k, j).k, i, w, 0, 0)
  {
    hide InvBut, SemSignal, Tokens, Timing;
    SignalTidy(k, j);
    OtherGiveSems(k, j, i);
    var s := if Wakes(k, j) then SetToken(k.s, k.s.queues[SemQ(j)][0], Granted) else k.s;
    var m := k.(s := s);
    TidyKept(s, SemSignal(k, j).k.s, {});
    KeptPending(m, SemSignal(k, j).k, i);
    if Wakes(k, j) {
      var t := k.s.queues[SemQ(j)][0];
      WaiterCall(k, j, t);
      assert Pending(m, i) == Pending(k, i);
    }
  }

  lemma WaiterCall(k: K, j: nat, t: Tid)
    requires Inv(k) && SemQ(j) in k.s.queues && t in k.s.queues[SemQ(j)]
    ensures t in k.s.tasks && k.s.tasks[t].call.InSem? && k.s.tasks[t].call.s == j
  {
    hide InvBut, Core, BitsOk, TokenOk;
    CoreOf(k, k.sems, k.mtx);
    CoreLinks(k.s);
    StateOf(k, t, k.sems, k.mtx);
  }

  // Every step: what waits on i returned with stays within what i was given.
  lemma StepCovered(k: K, op: Op, i: nat, w: nat)
    requires Inv(k) && Covered(k, i, w) && Enabled(k, op) && Leaves(op, i)
    ensures Settled(k, Apply(k, op).k, i, w, if Grants(k, op, i) then 1 else 0, if op == OfSem(Give(i)) then 1 else 0)
  {
    hide InvBut, Pending, MutexStep, CondStep, SemTake, SemTrywait, SemSignal, EventStep, TaskStep, Continue, Switch, Advance;
    if op.OfSem? && op.sop.Give? {
      if op.sop.i == i { GiveCovered(k, i, w); } else { OtherGiveCovered(k, op.sop.i, i, w); }
    } else if op.OfSem? && op.sop.i == i {
      TakeCovered(k, op, i, w);
    } else if op.Resumed? && Inside(k, i) {
      if k.s.tasks[k.current].aborted { TakeCovered(k, op, i, w); } else { ReturnCovered(k, i, w); }
    } else {
      CurrentThere(k);
    StepKept(k, op);
      KeptPending(k, Apply(k, op).k, i);
      StepSems(k, op, i);
    }
  }
}
