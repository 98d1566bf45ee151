/**
 When the waits of a run began.  A blocked wait on a semaphore or an event group remembers its
 start in the 32 bits of the tick counter; here the absolute time of that start is followed
 through every run, however often the wait is cut short and taken up again.
 */
module KernelStarts {
  import opened Lists
  import opened KernelState
  import opened KernelCalls
  import opened KernelBits
  import opened KernelLists
  import opened KernelTime
  import opened KernelInv
  import opened KernelWake
  import opened KernelMutex
  import opened KernelObjects
  import opened KernelTasks
  import opened KernelSched
  import opened KernelRun
  import opened KernelEffects
  import opened KernelTokens
  import opened KernelHonest

  // ---- time goes forward, and few steps touch the mutexes ----

  predicate SameTime(k: K, d: K) { d.clock.epoch == k.clock.epoch && d.clock.jiffies == k.clock.jiffies }

  // Nor does a mutex change.
  predicate Steady(k: K, d: K) { SameTime(k, d) && d.mtx == k.mtx }

  lemma {:induction false} WakeAllTime(k: K, ts: seq<Tid>, o: Obj)
    ensures Steady(k, WakeAll(k, ts, o))
    decreases |ts|
  {
    if ts != [] { WakeAllTime(WakeUp(k.(s := ListDelete(k.s, ts[0])), ts[0], o), ts[1..], o); }
  }

  lemma {:induction false} ReleaseEachTime(k: K, ms: seq<nat>)
    ensures SameTime(k, ReleaseEach(k, ms))
    decreases |ms|
  {
    if ms != [] && ms[0] in k.mtx {
      var m := ms[0];
      ReleaseEachTime(if Queue(k.s, MtxQ(m)) != [] then Transfer(k, m)
                      else k.(s := Detach(k.s, k.mtx[m].owner, m), mtx := k.mtx[m := Mutex(0, Free)]), ms[1..]);
    }
  }

  lemma {:induction false} DestroyWaitersTime(k: K, ts: seq<Tid>)
    ensures Steady(k, DestroyWaiters(k, ts))
    decreases |ts|
  {
    if ts != [] {
      var l := ListDelete(k.s, ts[0]);
      DestroyWaitersTime(WakeUp(k.(s := SetPrio(l, ts[0], CalcInherited(l, ts[0]))), ts[0], Msg(EDESTROY)), ts[1..]);
    }
  }

  lemma {:induction false} SetLoopTime(k: K, ts: seq<Tid>, bits: bv32)
    ensures Steady(k, SetLoop(k, ts, bits))
    decreases |ts|
  {
    hide Satisfied, ListDelete;
    if ts != [] {
      SetLoopTime(WakeUp(k.(s := ListDelete(k.s, ts[0])), ts[0], Bits(bits)), ts[1..], bits);
      SetLoopTime(k, ts[1..], bits);
    }
  }

  lemma {:induction false} ExpireTime(k: K, now: nat)
    ensures Steady(k, Expire(k, now))
    decreases |k.clock.cur|
  {
    hide ReturnToken, AddReady, TimedOut;
    var cur := k.clock.cur;
    if cur != [] && !(cur[0] in k.clock.due && now < k.clock.due[cur[0]]) { ExpireTime(SetCur(WakeTimedOut(k, cur[0]), cur[1..]), now); }
  }

  lemma {:induction false} AdvanceTime(k: K, n: nat)
    ensures Now(k.clock) <= Now(Advance(k, n).clock) && Advance(k, n).mtx == k.mtx
    decreases n
  {
    hide Expire;
    if n > 0 && k.clock.jiffies < TICKS {
      var j := k.clock.jiffies;
      ExpireTime(SetJiffies(k, j + n), j + n);
      if n >= TICKS - j {
        var a := SetJiffies(k, TICKS - 1);
        var d := if TICKS - j > 1 then Expire(a, TICKS - 1) else k;
        ExpireTime(a, TICKS - 1);
        ExpireTime(Wrap(d), 0);
        AdvanceTime(Expire(Wrap(d), 0), n - (TICKS - j));
      }
    }
  }

  lemma MutexTime(k: K, op: MutexOp)
    ensures SameTime(k, MutexStep(k, op).k)
  {
    hide ReleaseEach, DestroyWaiters, Reinherit, CalcInherited, Realloc, Detach, SetOwned;
    match op {
      case NewMutex(m) =>
      case Lock(m) => LockTime(k, m);
      case Trylock(m) =>
      case Unlock(m) => UnlockTime(k, m);
      case UnlockAll => ReleaseEachTime(k, Owned(k.s, k.current));
      case DestroyMutex(m) =>
        if m in k.mtx {
          DestroyWaitersTime(k.(s := Forsake(k.s, k.mtx[m].owner, m), mtx := k.mtx[m := Mutex(0, Free)]), Queue(k.s, MtxQ(m)));
        }
    }
  }

  lemma LockTime(k: K, m: nat)
    ensures SameTime(k, MutexLock(k, m).k)
  {
    hide Realloc, SetSleep, AddToPrioQueue, Inherit;
  }

  lemma UnlockTime(k: K, m: nat)
    ensures SameTime(k, MutexUnlock(k, m).k)
  {
    hide Realloc, CalcInherited, Detach, ListDelete, AddReady;
  }

  lemma TimeoutTime(c: Clock, t: Tid, timeout: nat)
    ensures var d := SetTimeout(c, t, timeout); d.epoch == c.epoch && d.jiffies == c.jiffies
  {
    hide TimePos;
  }

  lemma CondTime(k: K, op: CondOp)
    ensures SameTime(k, CondStep(k, op).k) && (!op.Wait? ==> Steady(k, CondStep(k, op).k))
  {
    hide WakeAll, MutexUnlock, SetSleep, AddToPrioQueue, ListDelete, AddReady, SetTimeout;
    match op {
      case NewCond(c) =>
      case Wait(c, timeout) =>
        if Owned(k.s, k.current) != [] {
          var u := MutexUnlock(k, Owned(k.s, k.current)[0]).k;
          UnlockTime(k, Owned(k.s, k.current)[0]);
          TimeoutTime(u.clock, u.current, timeout);
        }
      case Signal(c) =>
      case Broadcast(c) => WakeAllTime(k, Queue(k.s, CondQ(c)), Msg(EOK));
      case DestroyCond(c) => WakeAllTime(k, Queue(k.s, CondQ(c)), Msg(EDESTROY));
    }
  }

  lemma TakeTime(k: K, i: nat, start: nat, timeout: nat)
    ensures Steady(k, SemTake(k, i, start, timeout).k)
  {
    hide SetSleep, AddToPrioQueue, SetTimeout, Elapsed;
    var e := Elapsed(k.clock, start);
    TimeoutTime(k.clock, k.current, if timeout == INFINITE || e >= timeout then INFINITE else timeout - e);
  }

  lemma SemTime(k: K, op: SemOp)
    ensures Steady(k, SemStep(k, op).k)
  {
    hide SemTake, WakeAll, ListDelete, AddReady, SemInc, ResetValue;
    match op {
      case NewSem(i, value, limit) =>
      case Take(i, timeout) => TakeTime(k, i, k.clock.jiffies, timeout);
      case TryTake(i) =>
      case Give(i) =>
      case ResetSem(i, val) =>
        if i in k.sems {
          var l := k.sems[i].limit;
          WakeAllTime(k.(sems := k.sems[i := Semaphore(ResetValue(l, val), l, ResetValue(l, val), 0, 0)]), Queue(k.s, SemQ(i)), Msg(ERESET));
        }
      case DestroySem(i) => WakeAllTime(k, Queue(k.s, SemQ(i)), Msg(EDESTROY));
    }
  }

  lemma EventTakeTime(k: K, e: nat, bits: bv32, clear: bool, all: bool, start: nat, timeout: nat)
    ensures Steady(k, EventTake(k, e, bits, clear, all, start, timeout).k)
  {
    hide SetSleep, InsertEnd, SetTimeout, CheckCond, EvWord, Without, Elapsed;
    var el := Elapsed(k.clock, start);
    TimeoutTime(k.clock, k.current, if timeout == INFINITE || el >= timeout then INFINITE else timeout - el);
  }

  lemma EventWaitTime(k: K, e: nat, bits: bv32, clear: bool, all: bool, timeout: nat)
    ensures Steady(k, EventWait(k, e, bits, clear, all, timeout).k)
  {
    hide EventTake, Plain;
    EventTakeTime(k, e, bits, clear, all, k.clock.jiffies, timeout);
  }

  lemma EventTime(k: K, op: EventOp)
    ensures Steady(k, EventStep(k, op).k)
  {
    hide WakeAll, SetLoop, ClearMask, SetSleep, InsertEnd, Plain, With, Without, EvWord, HasAll, EventWait, SetTimeout;
    match op {
      case NewEvent(e) =>
      case WaitBits(e, bits, clear, all, timeout) => EventWaitTime(k, e, bits, clear, all, timeout);
      case ClearBits(e, bits) =>
      case PutBits(e, bits) => if e in k.evts { SetLoopTime(k, Queue(k.s, EvtQ(e)), With(k.evts[e], bits)); }
      case Sync(e, bits, wanted, timeout) =>
        if e in k.evts {
          var d := SetLoop(k, Queue(k.s, EvtQ(e)), With(k.evts[e], bits));
          SetLoopTime(k, Queue(k.s, EvtQ(e)), With(k.evts[e], bits));
          TimeoutTime(d.clock, d.current, timeout);
        }
      case DestroyEvent(e) => WakeAllTime(k, Queue(k.s, EvtQ(e)), Msg(EDESTROY));
    }
  }

  lemma TaskTime(k: K, op: TaskOp)
    ensures SameTime(k, TaskStep(k, op).k) && (!op.KillTask? ==> Steady(k, TaskStep(k, op).k))
  {
    hide Kill, Realloc, LeaveQueue, AddReady, ReturnToken, SetSleep, InsertEnd, Forge, SetTimeout;
    match op {
      case KillTask(t) => KillTime(k, t);
      case Delay(timeout) => TimeoutTime(k.clock, k.current, timeout);
      case _ =>
    }
  }

  lemma KillTime(k: K, t: Tid)
    ensures SameTime(k, Kill(k, t))
  {
    hide ReleaseEach, Reinherit, WakeAll, LeaveQueue, ReturnToken, InsertEnd;
    if t in k.s.tasks {
      var a := k.(s := Abandon(k.s, t));
      ReleaseEachTime(a, Owned(a.s, t));
      var u := UnlockAllIn(a, t);
      WakeAllTime(u, Queue(u.s, ExitQ(t)), Msg(if t == k.current then EOK else EDESTROY));
    }
  }

  lemma ContinueTime(k: K)
    ensures SameTime(k, Continue(k).k) && (k.current in k.s.tasks && !k.s.tasks[k.current].call.InLock? && !k.s.tasks[k.current].call.InCond? ==> Steady(k, Continue(k).k))
  {
    hide MutexLock, SemTake, EventTake, EventWait, SetSleep, InsertEnd, Elapsed;
    if k.current in k.s.tasks {
      var done := k.(s := SetCall(k.s, k.current, NoCall));
      match k.s.tasks[k.current].call {
        case InLock(m) => LockTime(done, m);
        case InCond(m) => LockTime(done, m);
        case InSem(i, start, timeout) => TakeTime(k, i, start, timeout);
        case InEvent(e, bits, clear, all, start, timeout) => EventTakeTime(k, e, bits, clear, all, start, timeout);
        case InSync(e, bits, start, timeout) =>
          var el := Elapsed(k.clock, start);
          EventWaitTime(done, e, bits, true, true, if timeout == INFINITE || el >= timeout then INFINITE else timeout - el);
        case _ =>
      }
    }
  }

  lemma StepTime(k: K, op: Op)
    ensures Now(k.clock) <= Now(Apply(k, op).k.clock)
  {
    hide MutexStep, CondStep, SemStep, EventStep, TaskStep, Continue, Switch, Advance;
    match op {
      case OfMutex(o) => MutexTime(k, o);
      case OfCond(o) => CondTime(k, o);
      case OfSem(o) => SemTime(k, o);
      case OfEvent(o) => EventTime(k, o);
      case OfTask(o) => TaskTime(k, o);
      case Resumed => ContinueTime(k);
      case Preempt => assert Steady(k, Switch(k)) by { SwitchTime(k); }
      case Tick(n) => AdvanceTime(k, n);
    }
  }

  lemma SwitchTime(k: K)
    ensures Steady(k, Switch(k))
  {
    hide Rotate, SetState;
  }

  // ---- no wait begins but now ----

  // Every wait goes on, or is one of the current task that begins now.
  ghost predicate GoesOn(k: K, d: K) {
    forall t | t in d.s.tasks && Clocked(d.s.tasks[t].call) ::
      (t in k.s.tasks && k.s.tasks[t].call == d.s.tasks[t].call) || d.s.tasks[t].call.start == k.clock.jiffies
  }

  lemma BegunGoesOn(k: K, d: K, c: Call)
    requires Begun(k, d, c) && (Clocked(c) ==> c.start == k.clock.jiffies)
    ensures GoesOn(k, d)
  {
  }

  lemma TimingGoesOn(k: K, d: K)
    requires Timing(k.s, d.s)
    ensures GoesOn(k, d)
  {
  }

  lemma NewNow(k: K, op: Op)
    ensures Clocked(NewCall(k, op)) ==> NewCall(k, op).start == k.clock.jiffies
  {
    hide Elapsed;
  }

  lemma ResumeTiming(k: K, t: Tid)
    ensures Timing(k.s, Resume(k, t).k.s)
  {
    hide SetObj, AddReady, TimeDelete, Tokens;
    if t in k.s.tasks { TidyAwake(Forge(k.s, t), t, Msg(EOK)); }
  }

  lemma DestroyTiming(k: K, m: nat)
    ensures Timing(k.s, MutexDestroy(k, m).k.s)
  {
    hide DestroyWaiters, Forsake, Reinherit, Tokens;
    if m in k.mtx {
      var o := k.mtx[m].owner;
      ForsakeTiming(k.s, o, m);
      var a := k.(s := Forsake(k.s, o, m), mtx := k.mtx[m := Mutex(0, Free)]);
      DestroyWaitersTidy(a, Queue(k.s, MtxQ(m)));
      if o.Held? { TidyReinherit(DestroyWaiters(a, Queue(k.s, MtxQ(m))).s, o.t); }
    }
  }

  lemma ForsakeTiming(s: S, o: Owner, m: nat)
    ensures Timing(s, Forsake(s, o, m))
  {
    hide Remove;
  }

  lemma StepGoesOn(k: K, op: Op)
    requires k.current in k.s.tasks
    ensures GoesOn(k, Apply(k, op).k)
  {
    hide GoesOn, Timing, Tokens, Begun, TokenStep, NewCall, Resume, MutexDestroy, Overwritten, MutexLock, MutexTrylock, MutexUnlock, SemSignal,
         UnlockAllIn, TaskCreate, ChangePrio, Kill, SuspendTask, WaitFor, Sleep, Cleanup, CondStep, EventStep, Continue, Switch, Advance, NewQueue;
    if op.OfMutex? && op.mop.DestroyMutex? {
      DestroyTiming(k, op.mop.m);
      TimingGoesOn(k, Apply(k, op).k);
    } else if op.OfTask? && op.top.Unpause? {
      ResumeTiming(k, op.top.t);
      TimingGoesOn(k, Apply(k, op).k);
    } else if op.OfSem? && op.sop.Give? {
      SignalTiming(k, op.sop.i);
      TimingGoesOn(k, Apply(k, op).k);
    } else {
      StepTidy(k, op);
      NewNow(k, op);
      BegunGoesOn(k, Apply(k, op).k, NewCall(k, op));
    }
  }

  lemma SignalTiming(k: K, i: nat)
    ensures Timing(k.s, SemSignal(k, i).k.s)
  {
    hide SemSignal, Tokens;
    SignalTidy(k, i);
  }

  // ---- runs ----

  // The absolute time at which the wait of each task began, or its call changed.
  function Marked(k: K, d: K, st: map<Tid, nat>): map<Tid, nat> {
    map t | t in d.s.tasks :: if t in k.s.tasks && t in st && k.s.tasks[t].call == d.s.tasks[t].call then st[t] else Now(k.clock)
  }

  function Marks(k: K, ops: seq<Op>, st: map<Tid, nat>): map<Tid, nat>
    decreases |ops|
  {
    if ops == [] then st else var d := Apply(k, ops[0]).k; Marks(d, ops[1..], Marked(k, d, st))
  }

  // Every wait remembers the start that it had, in the bits of the counter.
  ghost predicate Remembered(k: K, st: map<Tid, nat>) {
    forall t | t in k.s.tasks && Clocked(k.s.tasks[t].call) ::
      t in st && st[t] <= Now(k.clock) && k.s.tasks[t].call.start == st[t] % TICKS
  }

  lemma RememberedStep(k: K, op: Op, st: map<Tid, nat>)
    requires Inv(k) && Remembered(k, st)
    ensures Remembered(Apply(k, op).k, Marked(k, Apply(k, op).k, st))
  {
    hide InvBut, Apply, Clocked;
    CurrentThere(k);
    StepTime(k, op);
    StepGoesOn(k, op);
    JiffiesOf(k);
    NowBits(k.clock);
  }

  lemma NowBits(c: Clock)
    requires c.jiffies < TICKS
    ensures Now(c) % TICKS == c.jiffies
  {
    Remains(c.epoch, c.jiffies);
  }

  lemma {:induction false} RememberedFrom(k: K, ops: seq<Op>, st: map<Tid, nat>)
    requires Inv(k) && Lawful(k, ops) && Remembered(k, st)
    ensures Inv(Final(k, ops)) && Remembered(Final(k, ops), Marks(k, ops, st))
    decreases |ops|
  {
    hide InvBut, Apply, Enabled, Remembered, Marked;
    if ops != [] {
      StepInv(k, ops[0]);
      RememberedStep(k, ops[0], st);
      var d := Apply(k, ops[0]).k;
      RememberedFrom(d, ops[1..], Marked(k, d, st));
    }
  }

  lemma BootRemembers()
    ensures Remembered(Boot(), map[])
  {
    hide InvBut, Core, States, Awake, Pool, IsPool, Added;
    PoolFacts(PRIOS + 1);
    IdleAlone(Pool(PRIOS + 1), NewTask(PRIOS, false, false));
  }

  // The current task takes up a wait on a semaphore that was cut short.
  ghost predicate TakesUp(k: K) {
    Enabled(k, Resumed) && k.current in k.s.tasks && k.s.tasks[k.current].call.InSem? && k.s.tasks[k.current].aborted
  }

  ghost predicate Retried(k: K, st: map<Tid, nat>) {
    && TakesUp(k) && k.current in st && var c := k.s.tasks[k.current].call; var o := Continue(k); var start := st[k.current];
       && start <= Now(k.clock) && c.s in k.sems && var end := EndOf(k.clock, start, c.timeout);
          && (o.ret == Code(EOK) <==> k.sems[c.s].value > 0)
          && (o.ret == Code(ETIMEOUT) <==> k.sems[c.s].value <= 0 && c.timeout != INFINITE && end <= Now(k.clock))
          && (end == start + c.timeout <==> Now(k.clock) < start + TICKS)
  }

  // In every run: a wait on a semaphore that was cut short and is taken up again has a token iff
  // one is there, and else times out iff its time has come.  That is the timeout after it began,
  // as promised, iff less than a wrap of the counter has passed since; else whole wraps later.
  lemma RetryInEveryRun(ops: seq<Op>)
    requires Lawful(Boot(), ops)
    requires TakesUp(Final(Boot(), ops))
    ensures Retried(Final(Boot(), ops), Marks(Boot(), ops, map[]))
  {
    hide InvBut, Boot, Lawful, Final, Marks, Remembered, Retried, TakesUp;
    BootInv();
    BootRemembers();
    RememberedFrom(Boot(), ops, map[]);
    RetriesOn(Final(Boot(), ops), Marks(Boot(), ops, map[]));
  }

  // The same for an event wait; a rendezvous times out whatever bits are set.
  ghost predicate EventTakesUp(k: K) {
    && Enabled(k, Resumed) && k.current in k.s.tasks && EventCall(k.s.tasks[k.current].call) && k.s.tasks[k.current].aborted
    && k.s.tasks[k.current].call.e in k.evts
  }

  ghost predicate EventRetried(k: K, st: map<Tid, nat>) {
    && EventTakesUp(k) && k.current in st && var c := k.s.tasks[k.current].call; var o := Continue(k); var start := st[k.current];
       && start <= Now(k.clock) && var end := EndOf(k.clock, start, c.timeout);
          var ok := Fulfils(k.evts[c.e], c.bits, c.InSync? || c.all); var late := c.timeout != INFINITE && end <= Now(k.clock);
          && (o.ret.Mask? <==> ok && !(c.InSync? && late)) && (o.ret.Mask? ==> o.ret.b == k.evts[c.e])
          && (o.ret == Code(ETIMEOUT) <==> late && !(c.InEvent? && ok))
          && (o.ret == Blocked <==> !ok && !late)
          && (o.ret == Blocked && c.timeout != INFINITE ==> k.current in o.k.clock.due && k.current in Sleepers(o.k.clock) && Deadline(o.k.clock, k.current) == end)
          && (end == start + c.timeout <==> Now(k.clock) < start + TICKS)
  }

  lemma EventRetryInEveryRun(ops: seq<Op>)
    requires Lawful(Boot(), ops)
    requires EventTakesUp(Final(Boot(), ops))
    ensures EventRetried(Final(Boot(), ops), Marks(Boot(), ops, map[]))
  {
    hide InvBut, Boot, Lawful, Final, Marks, Remembered, EventRetried, EventTakesUp;
    BootInv();
    BootRemembers();
    RememberedFrom(Boot(), ops, map[]);
    EventRetriesOn(Final(Boot(), ops), Marks(Boot(), ops, map[]));
  }

  lemma EventRetriesOn(k: K, st: map<Tid, nat>)
    requires Inv(k) && Remembered(k, st) && EventTakesUp(k)
    ensures EventRetried(k, st)
  {
    hide InvBut, EventTake, EventWait, EndOf, BitsOk, TokenOk, Fulfils, Plain, Elapsed, Deadline, Sleepers, Minus;
    var c := k.s.tasks[k.current].call;
    StateOf(k, k.current, k.sems, k.mtx);
    if c.InEvent? {
      EventWaitUntil(k, c.e, c.bits, c.clear, c.all, st[k.current], c.timeout);
    } else {
      SyncRetries(k, c, st[k.current]);
    }
  }

  lemma SyncRetries(k: K, c: Call, start: nat)
    requires Inv(k) && Runnable(k.s, k.current) && k.s.tasks[k.current].call == c && c.InSync? && k.s.tasks[k.current].aborted
    requires c.e in k.evts && CallArgs(c) && start <= Now(k.clock) && c.start == start % TICKS
    ensures var o := Continue(k); var end := EndOf(k.clock, start, c.timeout);
            var ok := Fulfils(k.evts[c.e], c.bits, true); var late := c.timeout != INFINITE && end <= Now(k.clock);
            && (o.ret.Mask? <==> ok && !late) && (o.ret.Mask? ==> o.ret.b == k.evts[c.e])
            && (o.ret == Code(ETIMEOUT) <==> late) && (o.ret == Blocked <==> !ok && !late)
            && (o.ret == Blocked && c.timeout != INFINITE ==> k.current in o.k.clock.due && k.current in Sleepers(o.k.clock) && Deadline(o.k.clock, k.current) == end)
            && (end == start + c.timeout <==> Now(k.clock) < start + TICKS)
  {
    hide InvBut, EventTake, EndOf, Fulfils, Plain, Elapsed, Deadline, Sleepers, Minus, SetCall;
    JiffiesOf(k);
    ElapsedIs(k.clock, start);
    EndIs(k.clock, start, c.timeout);
    NowBits(k.clock);
    var x := (Now(k.clock) - start) % TICKS;
    if c.timeout == INFINITE || x < c.timeout {
      var rest := if c.timeout == INFINITE then INFINITE else c.timeout - x;
      DoneInv(k);
      var done := k.(s := SetCall(k.s, k.current, NoCall));
      EndIs(done.clock, Now(k.clock), rest);
      EventWaitUntil(done, c.e, c.bits, true, true, Now(k.clock), rest);
    }
  }

  lemma RetriesOn(k: K, st: map<Tid, nat>)
    requires Inv(k) && Remembered(k, st) && TakesUp(k)
    ensures Retried(k, st)
  {
    hide InvBut, SemTake, EndOf, BitsOk, TokenOk;
    var c := k.s.tasks[k.current].call;
    StateOf(k, k.current, k.sems, k.mtx);
    SemWaitUntil(k, c.s, st[k.current], c.timeout);
  }
}
