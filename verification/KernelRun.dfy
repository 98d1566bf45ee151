/**
 The kernel as a state machine: its steps are the system calls, the continuation of
 blocked calls, task switches and ticks.  Every run from the start of the scheduler keeps
 the invariant.
 */
module KernelRun {
  import opened Lists
  import opened KernelState
  import opened KernelCalls
  import opened KernelLists
  import opened KernelTime
  import opened KernelInv
  import opened KernelWake
  import opened KernelMutex
  import opened KernelObjects
  import opened KernelEvents
  import opened KernelTasks
  import opened KernelSched

  datatype MutexOp = NewMutex(m: nat) | Lock(m: nat) | Trylock(m: nat) | Unlock(m: nat) | UnlockAll | DestroyMutex(m: nat)

  datatype CondOp = NewCond(c: nat) | Wait(c: nat, timeout: nat) | Signal(c: nat) | Broadcast(c: nat) | DestroyCond(c: nat)

  datatype SemOp = NewSem(i: nat, value: nat, limit: nat) | Take(i: nat, timeout: nat) | TryTake(i: nat) | Give(i: nat)
                 | ResetSem(i: nat, val: int) | DestroySem(i: nat)

  datatype EventOp = NewEvent(e: nat) | WaitBits(e: nat, bits: bv32, clear: bool, all: bool, timeout: nat) | ClearBits(e: nat, bits: bv32)
                   | PutBits(e: nat, bits: bv32) | Sync(e: nat, bits: bv32, wanted: bv32, timeout: nat) | DestroyEvent(e: nat)

  datatype TaskOp = Create(t: Tid, prio: nat, suspended: bool, ref: bool) | SetPriority(t: Tid, prio: nat) | KillTask(t: Tid)
                  | Pause(t: Tid) | Unpause(t: Tid) | Join(t: Tid) | Delay(timeout: nat) | Reap

  // The kernel's own steps: the rest of a blocked call, a task switch, and n ticks.
  datatype Op = OfMutex(mop: MutexOp) | OfCond(cop: CondOp) | OfSem(sop: SemOp) | OfEvent(eop: EventOp) | OfTask(top: TaskOp)
              | Resumed | Preempt | Tick(n: nat)

  function NewQueue(k: K, q: Qid): K { k.(s := k.s.(queues := k.s.queues[q := []])) }

  function MutexStep(k: K, op: MutexOp): Out {
    match op
    case NewMutex(m) => Out(NewQueue(k, MtxQ(m)).(mtx := k.mtx[m := Mutex(0, Free)]), Code(EOK))
    case Lock(m) => MutexLock(k, m)
    case Trylock(m) => MutexTrylock(k, m)
    case Unlock(m) => MutexUnlock(k, m)
    case UnlockAll => Out(UnlockAllIn(k, k.current), Code(EOK))
    case DestroyMutex(m) => MutexDestroy(k, m)
  }

  function CondStep(k: K, op: CondOp): Out {
    match op
    case NewCond(c) => Out(NewQueue(k, CondQ(c)), Code(EOK))
    case Wait(c, timeout) => CondWait(k, c, timeout)
    case Signal(c) => CondSignal(k, c)
    case Broadcast(c) => CondBroadcast(k, c)
    case DestroyCond(c) => CondDestroy(k, c)
  }

  function SemStep(k: K, op: SemOp): Out {
    match op
    case NewSem(i, value, limit) => Out(NewQueue(k, SemQ(i)).(sems := k.sems[i := Semaphore(value, limit, value, 0, 0)]), Code(EOK))
    case Take(i, timeout) => SemWait(k, i, timeout)
    case TryTake(i) => SemTrywait(k, i, EBUSY)
    case Give(i) => SemSignal(k, i)
    case ResetSem(i, val) => SemReset(k, i, val)
    case DestroySem(i) => SemDestroy(k, i)
  }

  function EventStep(k: K, op: EventOp): Out {
    match op
    case NewEvent(e) => Out(NewQueue(k, EvtQ(e)).(evts := k.evts[e := 0]), Code(EOK))
    case WaitBits(e, bits, clear, all, timeout) => EventWait(k, e, bits, clear, all, timeout)
    case ClearBits(e, bits) => EventClear(k, e, bits)
    case PutBits(e, bits) => EventSet(k, e, bits)
    case Sync(e, bits, wanted, timeout) => EventSync(k, e, bits, wanted, timeout)
    case DestroyEvent(e) => EventDestroy(k, e)
  }

  function TaskStep(k: K, op: TaskOp): Out {
    match op
    case Create(t, prio, suspended, ref) => Out(TaskCreate(k, t, prio, suspended, ref), Code(EOK))
    case SetPriority(t, prio) => ChangePrio(k, t, prio)
    case KillTask(t) => Out(Kill(k, t), Blocked)
    case Pause(t) => Out(SuspendTask(k, t), Blocked)
    case Unpause(t) => Resume(k, t)
    case Join(t) => WaitFor(k, t)
    case Delay(timeout) => Sleep(k, timeout)
    case Reap => Out(Cleanup(k), Blocked)
  }

  function Apply(k: K, op: Op): Out {
    match op
    case OfMutex(o) => MutexStep(k, o)
    case OfCond(o) => CondStep(k, o)
    case OfSem(o) => SemStep(k, o)
    case OfEvent(o) => EventStep(k, o)
    case OfTask(o) => TaskStep(k, o)
    case Resumed => Continue(k)
    case Preempt => Out(Switch(k), Blocked)
    case Tick(n) => Out(Advance(k, n), Blocked)
  }

  // ---- what the callers owe ----

  // The current task runs its own code and not the rest of a blocked call.
  predicate Calling(k: K) { Runnable(k.s, k.current) && k.s.tasks[k.current].call == NoCall }

  // The idle task never blocks.
  predicate MayBlock(k: K, timeout: nat) { Calling(k) && k.current != IDLE && timeout < TICKS }

  // A fresh mutex must not be mistaken for a destroyed one that somebody is coming back for.
  ghost predicate Unclaimed(s: S, m: nat) { forall t | t in s.tasks :: s.tasks[t].call != InLock(m) }

  ghost predicate MutexEnabled(k: K, op: MutexOp) {
    match op
    case NewMutex(m) => m !in k.mtx && Unclaimed(k.s, m)
    case Lock(_) => MayBlock(k, INFINITE)
    case DestroyMutex(_) => true
    case _ => Calling(k)
  }

  predicate CondEnabled(k: K, op: CondOp) {
    match op
    case NewCond(c) => CondQ(c) !in k.s.queues
    case Wait(_, timeout) => MayBlock(k, timeout)
    case _ => true
  }

  predicate SemEnabled(k: K, op: SemOp) {
    match op
    case NewSem(i, _, _) => i !in k.sems
    case Take(_, timeout) => MayBlock(k, timeout)
    case _ => true
  }

  predicate EventEnabled(k: K, op: EventOp) {
    match op
    case NewEvent(e) => e !in k.evts
    case WaitBits(_, _, _, _, timeout) => MayBlock(k, timeout)
    case Sync(_, _, _, timeout) => MayBlock(k, timeout)
    case _ => true
  }

  // The idle task is never killed or suspended.
  predicate TaskEnabled(k: K, op: TaskOp) {
    match op
    case Create(t, _, _, _) => t !in k.s.tasks
    case SetPriority(t, _) => t in k.s.tasks
    case KillTask(t) => t in k.s.tasks && t != IDLE
    case Pause(t) => t in k.s.tasks && t != IDLE
    case Unpause(_) => true
    case Join(_) => MayBlock(k, INFINITE)
    case Delay(timeout) => MayBlock(k, timeout)
    case Reap => Runnable(k.s, k.current)
  }

  // Ticks, switches and the calls with an interrupt form can come at any time.
  ghost predicate Enabled(k: K, op: Op) {
    match op
    case OfMutex(o) => MutexEnabled(k, o)
    case OfCond(o) => CondEnabled(k, o)
    case OfSem(o) => SemEnabled(k, o)
    case OfEvent(o) => EventEnabled(k, o)
    case OfTask(o) => TaskEnabled(k, o)
    case Resumed => Runnable(k.s, k.current) && k.current != IDLE && CanRetry(k)
    case Preempt => true
    case Tick(_) => true
  }

  // A step is the call it stands for.
  lemma ByMutex(k: K, op: MutexOp)
    ensures Apply(k, OfMutex(op)) == MutexStep(k, op) && (Enabled(k, OfMutex(op)) <==> MutexEnabled(k, op))
  {
  }

  lemma ByTask(k: K, op: TaskOp)
    ensures Apply(k, OfTask(op)) == TaskStep(k, op) && (Enabled(k, OfTask(op)) <==> TaskEnabled(k, op))
  {
  }

  lemma BySem(k: K, op: SemOp)
    ensures Apply(k, OfSem(op)) == SemStep(k, op)
  {
  }

  lemma ByEvent(k: K, op: EventOp)
    ensures Apply(k, OfEvent(op)) == EventStep(k, op) && (Enabled(k, OfEvent(op)) <==> EventEnabled(k, op))
  {
  }

  lemma ByCond(k: K, op: CondOp)
    ensures Apply(k, OfCond(op)) == CondStep(k, op)
  {
  }

  // ---- new objects ----

  lemma NewQueueOk(s: S, q: Qid)
    requires Core(s) && States(s, {}) && q !in s.queues && !q.Node?
    ensures var d := s.(queues := s.queues[q := []]); Core(d) && States(d, {})
  {
    hide NoDup, StateOk, Ascending, InLine;
    var d := s.(queues := s.queues[q := []]);
    LineKept(s, d);
    NoDupEmpty();
    assert NodePrio(d);
    forall p | p in d.queues && PrioQ(p) ensures Sorted(d, d.queues[p]) { if p != q { assert Sorted(s, s.queues[p]); } }
  }

  lemma NewQueueParts(k: K, q: Qid)
    requires Inv(k) && q !in k.s.queues && !q.ExitQ?
    ensures var d := NewQueue(k, q).s;
            Own(d, k.mtx) && Sems(d, k.sems) && Events(d, k.evts) && Exits(d) && Calls(d, k.mtx) && TimeStates(d, k.clock) && OneRunning(d, k.current)
  {
    hide CheckCond2, SemOk, Plain, Core, States, CallOk, Sleepy;
    var d := NewQueue(k, q).s;
    forall m | m in k.mtx ensures OwnerOk(d, m, k.mtx[m]) { assert OwnerOk(k.s, m, k.mtx[m]); }
    forall e | e in k.evts ensures EventOk(d, e, k.evts[e]) { assert EventOk(k.s, e, k.evts[e]); }
  }

  lemma NewMutexInv(k: K, m: nat)
    requires Inv(k) && m !in k.mtx && Unclaimed(k.s, m)
    ensures Inv(MutexStep(k, NewMutex(m)).k)
  {
    hide Core, States, TimeInv, TimeStates, OneRunning, Own, Sems, Events, Calls, Exits;
    NewQueueOk(k.s, MtxQ(m));
    NewQueueParts(k, MtxQ(m));
    NewMutexParts(NewQueue(k, MtxQ(m)).s, k.mtx, m);
  }

  lemma NewMutexParts(s: S, mtx: map<nat, Mutex>, m: nat)
    requires Own(s, mtx) && Calls(s, mtx) && m !in mtx && Unclaimed(s, m) && MtxQ(m) in s.queues && s.queues[MtxQ(m)] == []
    ensures Own(s, mtx[m := Mutex(0, Free)]) && Calls(s, mtx[m := Mutex(0, Free)])
  {
    hide NoDup, CallArgs;
    var e := mtx[m := Mutex(0, Free)];
    forall i | i in e ensures OwnerOk(s, i, e[i]) { if i != m { assert OwnerOk(s, i, mtx[i]); } }
    forall t | t in s.tasks ensures CallOk(s.tasks[t], t, e) { assert CallOk(s.tasks[t], t, mtx); }
  }

  lemma NewCondInv(k: K, c: nat)
    requires Inv(k) && CondQ(c) !in k.s.queues
    ensures Inv(CondStep(k, NewCond(c)).k)
  {
    hide Core, States, TimeInv, TimeStates, OneRunning, Own, Sems, Events, Calls, Exits;
    NewQueueOk(k.s, CondQ(c));
    NewQueueParts(k, CondQ(c));
  }

  lemma NewSemInv(k: K, i: nat, value: nat, limit: nat)
    requires Inv(k) && i !in k.sems
    ensures Inv(SemStep(k, NewSem(i, value, limit)).k)
  {
    hide Core, States, TimeInv, TimeStates, OneRunning, Own, Events, Calls, Exits;
    NewQueueOk(k.s, SemQ(i));
    NewQueueParts(k, SemQ(i));
  }

  lemma NewEventInv(k: K, e: nat)
    requires Inv(k) && e !in k.evts
    ensures Inv(EventStep(k, NewEvent(e)).k)
  {
    hide Core, States, TimeInv, TimeStates, OneRunning, Own, Sems, Calls, Exits, CheckCond2;
    NewQueueOk(k.s, EvtQ(e));
    NewQueueParts(k, EvtQ(e));
  }

  // ---- one step ----

  lemma MutexStepInv(k: K, op: MutexOp)
    requires Inv(k) && MutexEnabled(k, op)
    ensures Inv(MutexStep(k, op).k)
  {
    hide InvBut, Unclaimed, MutexLock, MutexTrylock, MutexUnlock, UnlockAllIn, MutexDestroy, NewQueue;
    match op
    case NewMutex(m) => NewMutexInv(k, m);
    case Lock(m) => LockInv(k, m);
    case Trylock(m) => TrylockInv(k, m);
    case Unlock(m) => UnlockInv(k, m);
    case UnlockAll => UnlockAllInv(k, k.current);
    case DestroyMutex(m) => if m in k.mtx { DestroyMutexInv(k, m); } else { NoMutex(k, m); }
  }

  lemma CondStepInv(k: K, op: CondOp)
    requires Inv(k) && CondEnabled(k, op)
    ensures Inv(CondStep(k, op).k)
  {
    hide InvBut, CondWait, CondSignal, CondBroadcast, CondDestroy, NewQueue, Tame, AllWoken, Woken;
    match op
    case NewCond(c) => NewCondInv(k, c);
    case Wait(c, timeout) => CondWaitInv(k, c, timeout);
    case Signal(c) => CondSignalInv(k, c);
    case Broadcast(c) => CondBroadcastInv(k, c);
    case DestroyCond(c) => CondDestroyInv(k, c);
  }

  lemma SemStepInv(k: K, op: SemOp)
    requires Inv(k) && SemEnabled(k, op)
    ensures Inv(SemStep(k, op).k)
  {
    hide InvBut, SemWait, SemTrywait, SemSignal, SemReset, SemDestroy, NewQueue, Tame, Signalled, WasReset;
    match op
    case NewSem(i, value, limit) => NewSemInv(k, i, value, limit);
    case Take(i, timeout) => SemWaitInv(k, i, timeout);
    case TryTake(i) => SemTrywaitInv(k, i, EBUSY);
    case Give(i) => SemSignalInv(k, i);
    case ResetSem(i, val) => SemResetInv(k, i, val);
    case DestroySem(i) => SemDestroyInv(k, i);
  }

  lemma EventStepInv(k: K, op: EventOp)
    requires Inv(k) && EventEnabled(k, op)
    ensures Inv(EventStep(k, op).k)
  {
    hide InvBut, EventWait, EventClear, EventSet, EventSync, EventDestroy, NewQueue, Tame;
    match op
    case NewEvent(e) => NewEventInv(k, e);
    case WaitBits(e, bits, clear, all, timeout) => EventWaitInv(k, e, bits, clear, all, timeout);
    case ClearBits(e, bits) => EventClearInv(k, e, bits);
    case PutBits(e, bits) => EventSetInv(k, e, bits);
    case Sync(e, bits, wanted, timeout) => EventSyncInv(k, e, bits, wanted, timeout);
    case DestroyEvent(e) => EventDestroyInv(k, e);
  }

  lemma TaskStepInv(k: K, op: TaskOp)
    requires Inv(k) && TaskEnabled(k, op)
    ensures Inv(TaskStep(k, op).k)
  {
    hide InvBut, TaskCreate, ChangePrio, Kill, KillOrSuspend, Resume, WaitFor, Sleep, Cleanup, Tame;
    match op
    case Create(t, prio, suspended, ref) => CreateInv(k, t, prio, suspended, ref);
    case SetPriority(t, prio) => ChangePrioInv(k, t, prio);
    case KillTask(t) => KillInv(k, t);
    case Pause(t) => if !Finished(k.s, t) { SuspendInv(k, t); }
    case Unpause(t) => ResumeInv(k, t);
    case Join(t) => WaitForInv(k, t);
    case Delay(timeout) => SleepInv(k, timeout);
    case Reap => CleanupInv(k);
  }

  lemma StepInv(k: K, op: Op)
    requires Inv(k) && Enabled(k, op)
    ensures Inv(Apply(k, op).k)
  {
    hide InvBut, MutexEnabled, CondEnabled, SemEnabled, EventEnabled, TaskEnabled, MutexStep, CondStep, SemStep, EventStep, TaskStep,
         Continue, Switch, Advance, CanRetry, Tame, MostUrgent;
    match op
    case OfMutex(o) => MutexStepInv(k, o);
    case OfCond(o) => CondStepInv(k, o);
    case OfSem(o) => SemStepInv(k, o);
    case OfEvent(o) => EventStepInv(k, o);
    case OfTask(o) => TaskStepInv(k, o);
    case Resumed => ContinueInv(k);
    case Preempt => SwitchInv(k);
    case Tick(n) => AdvanceInv(k, n);
  }

  lemma NoMutex(k: K, m: nat)
    requires m !in k.mtx
    ensures MutexDestroy(k, m).k == k
  {
  }

  // ---- runs ----

  function Final(k: K, ops: seq<Op>): K
    decreases |ops|
  {
    if ops == [] then k else Final(Apply(k, ops[0]).k, ops[1..])
  }

  ghost predicate Lawful(k: K, ops: seq<Op>)
    decreases |ops|
  {
    ops == [] || (Enabled(k, ops[0]) && Lawful(Apply(k, ops[0]).k, ops[1..]))
  }

  // The free list of n priority nodes, and no tasks.
  function Pool(n: nat): S {
    if n == 0 then S(map[], map[Zombies := []], [], [], map[], false, Line(map[], 0))
    else var s := Pool(n - 1);
         s.(queues := s.queues[Node(n - 1) := []], free := s.free + [n - 1], nprio := s.nprio[n - 1 := 0])
  }

  // The scheduler has started: only the idle task exists, with the least urgent priority.
  function Boot(): K {
    K(Awake(Added(Pool(PRIOS + 1), IDLE, NewTask(PRIOS, false, false)), IDLE, Msg(EOK)), Clock(0, 0, [], [], map[]), IDLE,
      map[], map[], map[], 0)
  }

  ghost predicate IsPool(s: S, n: nat) {
    && s.tasks == map[] && s.ready == [] && !s.bug && |s.free| == n && (forall i | 0 <= i < n :: s.free[i] == i)
    && (forall q: Qid :: q in s.queues <==> q == Zombies || (q.Node? && q.n < n))
    && (forall q | q in s.queues :: s.queues[q] == [])
    && (forall i: nat :: i in s.nprio <==> i < n)
  }

  lemma {:induction false} PoolFacts(n: nat)
    ensures IsPool(Pool(n), n)
  {
    if n > 0 { PoolFacts(n - 1); }
  }

  lemma PoolCore(s: S)
    requires IsPool(s, PRIOS + 1)
    ensures Core(s) && States(s, {})
  {
    forall n: nat | n <= PRIOS ensures n in s.free { assert s.free[n] == n; }
  }

  // The idle task alone on a fresh pool.
  lemma IdleAlone(e: S, r: Task)
    requires IsPool(e, PRIOS + 1) && r == NewTask(PRIOS, false, false)
    ensures var a := Added(e, IDLE, r); var d := Awake(a, IDLE, Msg(EOK));
            && Core(d) && States(d, {}) && d.tasks.Keys == {IDLE} && d.tasks[IDLE].state.Ready?
            && d.tasks[IDLE] == r.(obj := Msg(EOK), state := Ready, elem := d.tasks[IDLE].elem, inode := d.tasks[IDLE].inode)
            && (forall q: Qid | !q.Node? :: q in d.queues <==> q == Zombies || q == ExitQ(IDLE))
            && d.queues[Zombies] == []
  {
    hide Core, States, Only, Awake, IsPool;
    PoolCore(e);
    PoolLists(e);
    AddedCore(e, IDLE, r);
    var a := Added(e, IDLE, r);
    AwakeOk(a, IDLE, Msg(EOK));
    var d := Awake(a, IDLE, Msg(EOK));
    OnlyKeys(a, d, IDLE);
    OnlyQueues(a, d, IDLE);
    QueueLength(a, d, IDLE, Zombies);
  }

  lemma PoolLists(e: S)
    requires IsPool(e, PRIOS + 1)
    ensures e.tasks == map[] && (forall q: Qid | !q.Node? :: q in e.queues <==> q == Zombies) && e.queues[Zombies] == []
  {
  }

  lemma BootInv()
    ensures Inv(Boot())
  {
    hide Core, States, Awake, Pool, IsPool, Added;
    PoolFacts(PRIOS + 1);
    IdleAlone(Pool(PRIOS + 1), NewTask(PRIOS, false, false));
  }

  lemma {:induction false} RunInvFrom(k: K, ops: seq<Op>)
    requires Inv(k) && Lawful(k, ops)
    ensures Inv(Final(k, ops))
    decreases |ops|
  {
    hide InvBut, Apply, Enabled;
    if ops != [] {
      StepInv(k, ops[0]);
      RunInvFrom(Apply(k, ops[0]).k, ops[1..]);
    }
  }

  // In every run, whatever the calls, the invariant holds and no panic is reached.
  lemma EveryRunIsSafe(ops: seq<Op>)
    requires Lawful(Boot(), ops)
    ensures Inv(Final(Boot(), ops)) && !Final(Boot(), ops).s.bug
  {
    hide InvBut, Boot, Lawful, Final, Core, States;
    BootInv();
    RunInvFrom(Boot(), ops);
    var d := Final(Boot(), ops);
    CoreOf(d, d.sems, d.mtx);
    CoreLinks(d.s);
  }
}
