/**
 Runs of the kernel as programs make them, step by step.  First main creates objects and tasks;
 then the scheduler runs.  The idle task makes no calls: its code only removes dead tasks.  A
 task makes a call only while no more urgent task can run.
 */
module KernelProgram {
  import opened Lists
  import opened KernelState
  import opened KernelCalls
  import opened KernelLists
  import opened KernelTime
  import opened KernelInv
  import opened KernelWake
  import opened KernelMutex
  import opened KernelTasks
  import opened KernelSched
  import opened KernelRun
  import opened KernelEffects
  import opened KernelHonest

  // The record of t.
  function At(k: K, t: Tid): Task { if t in k.s.tasks then k.s.tasks[t] else NewTask(PRIOS, false, false) }

  predicate Creates(op: Op) {
    match op
    case OfMutex(o) => o.NewMutex?
    case OfCond(o) => o.NewCond?
    case OfSem(o) => o.NewSem?
    case OfEvent(o) => o.NewEvent?
    case OfTask(o) => o.Create?
    case _ => false
  }

  // The kernel's own steps and those of idle_task.
  predicate OfKernel(op: Op) { op.Preempt? || op.Tick? || op == OfTask(Reap) }

  // The current task runs code of the program, and no more urgent task can run.
  ghost predicate Acts(k: K) {
    k.current != IDLE && Runnable(k.s, k.current) && forall x | Runnable(k.s, x) :: k.s.tasks[k.current].prio <= k.s.tasks[x].prio
  }

  ghost predicate Genuine(k: K, ops: seq<Op>, setup: bool)
    decreases |ops|
  {
    ops == [] || (
      var creating := setup && Creates(ops[0]);
      && (creating || OfKernel(ops[0]) || Acts(k))
      && Genuine(Apply(k, ops[0]).k, ops[1..], creating))
  }

  predicate AllCreate(ops: seq<Op>) { forall i | 0 <= i < |ops| :: Creates(ops[i]) }

  // The run ops is one of a program and leads to k; while setup, main still creates.
  ghost predicate Reached(ops: seq<Op>, k: K, setup: bool) {
    Lawful(Boot(), ops) && Final(Boot(), ops) == k && Genuine(Boot(), ops, true) && (setup ==> AllCreate(ops))
  }

  lemma {:induction false} OneMore(k: K, ops: seq<Op>, op: Op, setup: bool)
    requires Lawful(k, ops) && Enabled(Final(k, ops), op) && Genuine(k, ops, setup)
    requires (setup && AllCreate(ops) && Creates(op)) || OfKernel(op) || Acts(Final(k, ops))
    ensures Lawful(k, ops + [op]) && Final(k, ops + [op]) == Apply(Final(k, ops), op).k && Genuine(k, ops + [op], setup)
    decreases |ops|
  {
    hide Apply, Enabled, Acts;
    if ops == [] {
      assert ops + [op] == [op] && [op][1..] == [];
    } else {
      assert (ops + [op])[0] == ops[0] && (ops + [op])[1..] == ops[1..] + [op];
      OneMore(Apply(k, ops[0]).k, ops[1..], op, setup && Creates(ops[0]));
    }
  }

  lemma Then(ops: seq<Op>, k: K, op: Op, setup: bool) returns (more: seq<Op>, d: K)
    requires Reached(ops, k, setup) && Enabled(k, op) && ((setup && Creates(op)) || OfKernel(op) || Acts(k))
    ensures more == ops + [op] && d == Apply(k, op).k && Reached(more, d, setup && Creates(op))
  {
    hide Boot, Apply, Enabled, Lawful, Final, Acts, Genuine;
    OneMore(Boot(), ops, op, true);
    more, d := ops + [op], Apply(k, op).k;
  }

  // ---- after the start ----

  // Not the end of a wait on a semaphore, nor a signal.
  predicate Silent(k: K, op: Op) {
    && (op.OfSem? ==> SemBlocks(k, op.sop))
    && (op.Resumed? ==> k.current in k.s.tasks && !k.s.tasks[k.current].call.InSem?)
  }

  // A wait on a semaphore starts.
  predicate SemBlocks(k: K, op: SemOp) { op.Take? && SemStep(k, op).ret == Blocked }

  ghost predicate AllSilent(k: K, ops: seq<Op>)
    decreases |ops|
  {
    ops == [] || (Silent(k, ops[0]) && AllSilent(Apply(k, ops[0]).k, ops[1..]))
  }

  // The run ops of a program leads from k to d without the end of a wait on a semaphore.
  ghost predicate Leads(k: K, ops: seq<Op>, d: K) {
    Lawful(k, ops) && Final(k, ops) == d && Genuine(k, ops, false) && AllSilent(k, ops)
  }

  lemma Stays(k: K)
    ensures Leads(k, [], k)
  {
  }

  lemma {:induction false} SilentMore(k: K, ops: seq<Op>, op: Op)
    requires Lawful(k, ops) && AllSilent(k, ops) && Silent(Final(k, ops), op)
    ensures AllSilent(k, ops + [op])
    decreases |ops|
  {
    hide Apply, Enabled, Silent;
    if ops == [] {
      assert ops + [op] == [op] && [op][1..] == [];
    } else {
      assert (ops + [op])[0] == ops[0] && (ops + [op])[1..] == ops[1..] + [op];
      SilentMore(Apply(k, ops[0]).k, ops[1..], op);
    }
  }

  lemma Next(k0: K, ops: seq<Op>, k: K, op: Op) returns (more: seq<Op>, d: K)
    requires Leads(k0, ops, k) && Enabled(k, op) && (OfKernel(op) || Acts(k)) && Silent(k, op)
    ensures more == ops + [op] && d == Apply(k, op).k && Leads(k0, more, d)
  {
    hide Apply, Enabled, Lawful, Final, Acts, Genuine, AllSilent, Silent;
    OneMore(k0, ops, op, false);
    SilentMore(k0, ops, op);
    more, d := ops + [op], Apply(k, op).k;
  }

  // What main created, and what came of it.
  lemma {:induction false} Joined(k: K, a: seq<Op>, b: seq<Op>, setup: bool)
    requires Lawful(k, a) && Genuine(k, a, setup) && Lawful(Final(k, a), b) && Genuine(Final(k, a), b, false)
    ensures Lawful(k, a + b) && Final(k, a + b) == Final(Final(k, a), b) && Genuine(k, a + b, setup)
    decreases |a|
  {
    hide Apply, Enabled, Acts;
    if a == [] {
      assert a + b == b;
      Later(k, b, setup);
    } else {
      assert (a + b)[0] == a[0] && (a + b)[1..] == a[1..] + b;
      Joined(Apply(k, a[0]).k, a[1..], b, setup && Creates(a[0]));
    }
  }

  lemma {:induction false} Later(k: K, ops: seq<Op>, setup: bool)
    requires Genuine(k, ops, false)
    ensures Genuine(k, ops, setup)
    decreases |ops|
  {
    hide Apply, Acts;
    if ops != [] { Later(Apply(k, ops[0]).k, ops[1..], setup && Creates(ops[0])); }
  }

  lemma Whole(a: seq<Op>, k: K, b: seq<Op>, d: K)
    requires Reached(a, k, true) && Leads(k, b, d)
    ensures Reached(a + b, d, false)
  {
    hide Boot, Apply, Enabled, Lawful, Final, Genuine, AllSilent;
    Joined(Boot(), a, b, true);
  }

  // ---- the tasks ----

  // The tasks of b, with these base priorities and nothing inherited.
  ghost predicate Crew(k: K, b: map<Tid, nat>, current: Tid) {
    && Inv(k) && k.current == current && k.s.tasks.Keys == b.Keys && IDLE in b
    && (forall t | t in b :: k.s.tasks[t].base == b[t] && k.s.tasks[t].prio == b[t])
  }

  // The same objects.
  predicate Same(k: K, d: K) { d.sems == k.sems && d.mtx == k.mtx && d.evts == k.evts }

  // ---- the switch ----

  // t can run and is more urgent than all others that can.
  ghost predicate First(k: K, t: Tid) {
    Runnable(k.s, t) && forall x | Runnable(k.s, x) && x != t :: k.s.tasks[t].prio < k.s.tasks[x].prio
  }

  ghost predicate Switched(k: K, d: K) {
    && d == k.(s := d.s, current := d.current) && d.s.tasks.Keys == k.s.tasks.Keys
    && (forall x | x in k.s.tasks :: d.s.tasks[x] == k.s.tasks[x].(state := d.s.tasks[x].state) && (Runnable(d.s, x) <==> Runnable(k.s, x)))
    && (forall x | x in k.s.tasks && !Runnable(k.s, x) :: d.s.tasks[x] == k.s.tasks[x])
  }

  lemma To(k: K, b: map<Tid, nat>, t: Tid)
    requires Crew(k, b, k.current) && First(k, t)
    ensures var d := Apply(k, Preempt).k;
            Enabled(k, Preempt) && Crew(d, b, t) && Runnable(d.s, t) && Switched(k, d) && (t != IDLE ==> Acts(d))
  {
    hide InvBut, Switch, Tame, MostUrgent;
    SwitchInv(k);
    SwitchKeeps(k);
    SwitchTo(k, t);
    SwitchFrame(k);
  }

  lemma SwitchFrame(k: K)
    ensures Switch(k) == k.(s := Switch(k).s, current := Switch(k).current)
  {
    hide Rotate, SetState;
  }

  // ---- sleeping and waking ----

  // The record of a task that sleeps, and of one that is woken from that by the tick.
  function Napping(r: Task): Task { r.(call := InWait, token := NoToken, state := Sleeping, inode := Off) }

  lemma Naps(k: K, b: map<Tid, nat>, n: nat)
    requires Crew(k, b, k.current) && Acts(k) && At(k, k.current).call.NoCall? && n < TICKS
    ensures var op := OfTask(Delay(n)); var d := Apply(k, op).k; var c := k.current;
            && Enabled(k, op) && Crew(d, b, c) && d.s.tasks == k.s.tasks[c := Napping(At(k, c))]
            && d == k.(s := d.s, clock := SetTimeout(k.clock, c, n))
  {
    hide Apply, Enabled, InvBut, Core, States, Only, SetSleep, SetTimeout, Tame;
    ByTask(k, Delay(n));
    var c := k.current;
    SleepInv(k, n);
    CoreOf(k, k.sems, k.mtx);
    var r := k.s.tasks[c].(call := InWait, token := NoToken);
    AsleepOk(k.s, c, r, Sleeping);
    var d := SetSleep(Put(k.s, c, r), c, Sleeping);
    OnlyKeys(k.s, d, c);
    assert d.tasks == k.s.tasks[c := Napping(k.s.tasks[c])];
  }

  // The rest of the sleep.
  lemma Awakes(k: K, b: map<Tid, nat>)
    requires Crew(k, b, k.current) && Acts(k) && At(k, k.current).call.InWait?
    ensures var d := Apply(k, Resumed).k; var c := k.current;
            && Enabled(k, Resumed) && Crew(d, b, c) && d == k.(s := d.s) && d.s.tasks == k.s.tasks[c := At(k, c).(call := NoCall, token := NoToken)] && Acts(d)
  {
    hide InvBut;
    StepInv(k, Resumed);
    assert Apply(k, Resumed).k.s.tasks.Keys == k.s.tasks.Keys;
  }

  // The clock n ticks later, with the sleepers rest.
  function Elapses(c: Clock, n: nat, rest: seq<Tid>): Clock { c.(jiffies := c.jiffies + n, cur := rest) }

  // n ticks end exactly one wait, that of the first sleeper t.
  ghost predicate OneDue(k: K, n: nat, t: Tid, rest: seq<Tid>) {
    var c := k.clock;
    && n > 0 && c.cur == [t] + rest && c.jiffies + n < TICKS && t in c.due && c.due[t] <= c.jiffies + n
    && (rest != [] ==> rest[0] in c.due && c.jiffies + n < c.due[rest[0]])
  }

  lemma OneExpires(k: K, n: nat, t: Tid, rest: seq<Tid>)
    requires OneDue(k, n, t, rest)
    ensures Advance(k, n) == SetCur(WakeTimedOut(SetJiffies(k, k.clock.jiffies + n), t), rest)
  {
    hide WakeTimedOut;
    var j := SetJiffies(k, k.clock.jiffies + n);
    assert j.clock.cur[0] == t && j.clock.cur[1..] == rest;
    var w := SetCur(WakeTimedOut(j, t), rest);
    WakeKeepsDue(j, t);
    assert Expire(j, k.clock.jiffies + n) == Expire(w, k.clock.jiffies + n) == w;
  }

  lemma WakeKeepsDue(k: K, t: Tid)
    ensures WakeTimedOut(k, t).clock == k.clock
  {
  }

  function TimedOutRecord(r: Task): Task { if r.state.Sleeping? then r else r.(obj := Msg(ETIMEOUT)) }

  // The ticks wake the task t from its sleep or its wait on a semaphore.
  lemma Rises(k: K, b: map<Tid, nat>, n: nat, t: Tid, rest: seq<Tid>)
    requires Crew(k, b, k.current) && OneDue(k, n, t, rest) && t in b && (At(k, t).state.Sleeping? || At(k, t).state.WtSem?)
    ensures var d := Apply(k, Tick(n)).k; var r := At(k, t);
            && Enabled(k, Tick(n)) && Crew(d, b, k.current) && d.mtx == k.mtx && d.evts == k.evts && d.sems == ReturnToken(k.sems, r)
            && d.clock == Elapses(k.clock, n, rest)
            && d.s.tasks == k.s.tasks[t := TimedOutRecord(r).(state := Ready, elem := At(d, t).elem, inode := At(d, t).inode)]
  {
    hide InvBut, WakeTimedOut, Tame, Advance;
    AdvanceInv(k, n);
    OneExpires(k, n, t, rest);
    OneWakes(k, SetJiffies(k, k.clock.jiffies + n), t);
  }

  lemma OneWakes(k: K, j: K, t: Tid)
    requires Inv(k) && j == k.(clock := j.clock) && t in k.s.tasks && (At(k, t).state.Sleeping? || At(k, t).state.WtSem?)
    ensures var d := WakeTimedOut(j, t); var r := At(k, t);
            && d == j.(s := d.s, sems := ReturnToken(k.sems, r)) && t in d.s.tasks
            && d.s.tasks == k.s.tasks[t := TimedOutRecord(r).(state := Ready, elem := At(d, t).elem, inode := At(d, t).inode)]
  {
    hide InvBut, Core, States, Only, AddReady, TimedOut, ReturnToken;
    CoreOf(k, k.sems, k.mtx);
    TimedOutOk(k.s, t);
    OnlyKeys(k.s, AddReady(TimedOut(k.s, t), t), t);
  }

  // ---- suspend and resume of a task whose wait has ended otherwise ----

  lemma Paused(k: K, b: map<Tid, nat>, t: Tid)
    requires Crew(k, b, k.current) && Acts(k) && t in b && t != IDLE && t != k.current && Runnable(k.s, t)
    ensures var op := OfTask(Pause(t)); var a := Apply(k, op).k;
            && Enabled(k, op) && Crew(a, b, k.current) && a.s.tasks == k.s.tasks[t := At(k, t).(inode := Off, state := Suspend)]
            && Same(k, a) && Acts(a) && a.clock == TimeDelete(k.clock, t)
  {
    hide Apply, Enabled, InvBut, KillOrSuspend, OffList, TimeDelete, Only, Core, States, Tame;
    ByTask(k, Pause(t));
    SuspendInv(k, t);
    SuspendIs(k, t);
    ParkInv(k, t);
    OnlyKeys(k.s, Park(k, t).s, t);
  }

  lemma Unpaused(k: K, b: map<Tid, nat>, t: Tid)
    requires Crew(k, b, k.current) && Acts(k) && t in b && t != k.current && At(k, t).state.Suspend? && At(k, k.current).prio < At(k, t).prio
    ensures var op := OfTask(Unpause(t)); var d := Apply(k, op).k; var r := At(k, t);
            && Enabled(k, op) && Crew(d, b, k.current) && Same(k, d) && Acts(d) && Runnable(d.s, t)
            && d.s.tasks == k.s.tasks[t := r.(obj := Msg(EOK), state := Ready, elem := At(d, t).elem, inode := At(d, t).inode,
                                              token := if EndedOtherwise(r) then Forged else r.token)]
            && d.clock == TimeDelete(k.clock, t) && (Honest(k, op) <==> !EndedOtherwise(r))
  {
    hide Apply, Enabled, InvBut, Resume, EndedOtherwise, TimeDelete;
    ByTask(k, Unpause(t));
    var op := OfTask(Unpause(t));
    StepInv(k, op);
    ResumeForges(k, t);
    var d := Apply(k, op).k;
    assert d.s.tasks == k.s.tasks[t := d.s.tasks[t]];
    ResumeClock(k, t);
  }

  lemma ResumeClock(k: K, t: Tid)
    requires t in k.s.tasks && t != k.current && At(k, t).state.Suspend?
    ensures Resume(k, t).k.clock == TimeDelete(k.clock, t)
  {
    hide AddReady, Forge, SetObj;
  }

  // ---- mutexes ----

  predicate FreeMutex(k: K, m: nat) { m in k.mtx && k.mtx[m].owner.Free? }

  lemma Takes(k: K, b: map<Tid, nat>, m: nat)
    requires Crew(k, b, k.current) && Acts(k) && At(k, k.current).call.NoCall? && FreeMutex(k, m)
    ensures var op := OfMutex(Lock(m)); var d := Apply(k, op).k; var c := k.current;
            && Enabled(k, op) && Crew(d, b, c) && Acts(d) && d == k.(s := d.s, mtx := k.mtx[m := Mutex(1, Held(c))]) && d.s.queues == k.s.queues
            && d.s.tasks == k.s.tasks[c := At(k, c).(owned := InsertFirst(At(k, c).owned, m))]
  {
    hide Apply, Enabled, InvBut, InsertFirst;
    ByMutex(k, Lock(m));
    StepInv(k, OfMutex(Lock(m)));
    FreeCount(k, m);
  }

  // ---- the start ----

  const EMPTY: Clock := Clock(0, 0, [], [], map[])
  const ALONE: map<Tid, nat> := map[IDLE := PRIOS]

  // Before the first switch: all tasks can run and wait for nothing.
  ghost predicate Fresh(k: K, b: map<Tid, nat>) {
    && Crew(k, b, IDLE) && k.clock == EMPTY
    && (forall t | t in b :: Runnable(k.s, t) && k.s.tasks[t].call.NoCall? && k.s.tasks[t].owned == [])
  }

  lemma Starts()
    ensures Fresh(Boot(), ALONE) && Reached([], Boot(), true) && Boot().sems == map[] && Boot().mtx == map[] && Boot().evts == map[]
    ensures forall c: nat :: CondQ(c) !in Boot().s.queues
  {
    hide InvBut, Core, States, Awake, Pool, IsPool, Added;
    BootInv();
    PoolFacts(PRIOS + 1);
    IdleAlone(Pool(PRIOS + 1), NewTask(PRIOS, false, false));
  }

  lemma Made(k: K, b: map<Tid, nat>, t: Tid, prio: nat, ref: bool)
    requires Fresh(k, b) && t !in b && prio < PRIOS
    ensures var op := OfTask(Create(t, prio, false, ref)); var d := Apply(k, op).k;
            Enabled(k, op) && Fresh(d, b[t := prio]) && Same(k, d) && At(d, t).refcnt == if ref then 1 else 0
  {
    hide Apply, Enabled, InvBut, TaskCreate;
    ByTask(k, Create(t, prio, false, ref));
    var op := OfTask(Create(t, prio, false, ref));
    StepInv(k, op);
    CreateMakes(k, t, prio, false, ref);
    assert TimeDelete(k.clock, t) == k.clock;
  }

  // A new object changes nothing about the tasks.
  lemma Still(k: K, b: map<Tid, nat>, d: K)
    requires Fresh(k, b) && Inv(d) && d.s.tasks == k.s.tasks && d.current == k.current && d.clock == k.clock
    ensures Fresh(d, b)
  {
    hide InvBut;
  }

  function MakeSem(i: nat, value: nat): Op { OfSem(NewSem(i, value, 0)) }

  function Unused(value: nat): Semaphore { Semaphore(value, 0, value, 0, 0) }

  lemma NewSemaphore(k: K, b: map<Tid, nat>, i: nat, value: nat)
    requires Fresh(k, b) && i !in k.sems
    ensures var op := MakeSem(i, value); var d := Apply(k, op).k;
            Enabled(k, op) && Fresh(d, b) && d.sems == k.sems[i := Unused(value)] && d.mtx == k.mtx && d.evts == k.evts
  {
    hide InvBut, Fresh;
    FreshInv(k, b);
    StepInv(k, OfSem(NewSem(i, value, 0)));
    Still(k, b, Apply(k, OfSem(NewSem(i, value, 0))).k);
  }

  ghost predicate NoCalls(s: S) { forall t | t in s.tasks :: s.tasks[t].call.NoCall? }

  lemma FreshInv(k: K, b: map<Tid, nat>)
    requires Fresh(k, b)
    ensures Inv(k) && k.current == IDLE && NoCalls(k.s)
  {
  }

  lemma NewMtx(k: K, b: map<Tid, nat>, m: nat)
    requires Fresh(k, b) && m !in k.mtx
    ensures var op := OfMutex(NewMutex(m)); var d := Apply(k, op).k;
            && Enabled(k, op) && Fresh(d, b) && d.mtx == k.mtx[m := Mutex(0, Free)] && d.sems == k.sems && d.evts == k.evts
            && (forall q: Qid | !q.MtxQ? :: q in d.s.queues <==> q in k.s.queues)
  {
    hide InvBut, Fresh;
    FreshInv(k, b);
    StepInv(k, OfMutex(NewMutex(m)));
    Still(k, b, Apply(k, OfMutex(NewMutex(m))).k);
  }

  const NEW_EVENT: Op := OfEvent(NewEvent(0))

  lemma NewEvt(k: K, b: map<Tid, nat>)
    requires Fresh(k, b) && k.evts == map[]
    ensures var op := NEW_EVENT; var d := Apply(k, op).k; Enabled(k, op) && Fresh(d, b) && d.evts == map[0 := 0] && d.mtx == k.mtx && d.sems == k.sems
  {
    hide InvBut, Fresh;
    FreshInv(k, b);
    StepInv(k, OfEvent(NewEvent(0)));
    Still(k, b, Apply(k, OfEvent(NewEvent(0))).k);
  }
}
