/**
 Runs of programs in which a blocked call returns EOK although it did not get what it waited
 for.  Task 1 waits.  Task 2 is more urgent: it sleeps for a tick, so that task 1 can start to
 wait, and then does the rest.
 */
module KernelForged {
  import opened Lists
  import opened KernelState
  import opened KernelCalls
  import opened KernelBits
  import opened KernelLists
  import opened KernelTime
  import opened KernelInv
  import opened KernelWake
  import opened KernelMutex
  import opened KernelObjects
  import opened KernelEvents
  import opened KernelTasks
  import opened KernelSched
  import opened KernelRun
  import opened KernelEffects
  import opened KernelHonest
  import opened KernelProgram

  const ONE: Tid := 1
  const TWO: Tid := 2
  const DUO: map<Tid, nat> := map[IDLE := PRIOS, 1 := 1, 2 := 0]

  // Task 2 sleeps for a tick; task 1 also waits, for 5 ticks; task 2 is awake.
  const NAP: Clock := Clock(0, 0, [2], [], map[2 := 1])
  const NAP_AND_WAIT: Clock := Clock(0, 0, [2, 1], [], map[2 := 1, 1 := 5])
  const WAIT: Clock := Clock(0, 1, [1], [], map[2 := 1, 1 := 5])

  // A semaphore that never had a token, without and with a waiter.
  const NO_TOKEN: Semaphore := Semaphore(0, 0, 0, 0, 0)
  const WAITED: Semaphore := Semaphore(-1, 0, 0, 0, 0)

  const TIMEOUT: nat := 5

  function Wait5(i: nat): Call { InSem(i, 0, TIMEOUT) }

  // The one mutex, its waiters, a task in the call that locks it, and the calls.
  const MTX: nat := 0
  const WAITERS: Qid := MtxQ(MTX)
  const IN_LOCK: Call := InLock(MTX)
  const LOCK: Op := OfMutex(Lock(MTX))
  const UNLOCK: Op := OfMutex(Unlock(MTX))
  const DESTROY: Op := OfMutex(DestroyMutex(MTX))

  function HeldBy(t: Tid): map<nat, Mutex> { map[MTX := Mutex(1, Held(t))] }

  // The one event, and the calls for its bit 0.
  const EVT: nat := 0
  const WAIT_BIT: Op := OfEvent(WaitBits(EVT, 1, true, false, INFINITE))
  const SET_BIT: Op := OfEvent(PutBits(EVT, 1))

  // ---- the parts that all runs share ----

  // Task 2 is the most urgent of the tasks in b, and task 1 the next.
  predicate Pair(b: map<Tid, nat>) {
    IDLE in b && 1 in b && 2 in b && b[2] < b[1] && forall x | x in b && x != 1 && x != 2 :: b[1] < b[x]
  }

  // The tasks other than 2 are as before, but for who of them runs.
  ghost predicate Kept(k: K, d: K, b: map<Tid, nat>) {
    forall x | x in b && x != 2 :: x in k.s.tasks && x in d.s.tasks && SameBut(k.s.tasks[x], d.s.tasks[x]) && (Runnable(d.s, x) <==> Runnable(k.s, x))
  }

  predicate SameBut(r: Task, q: Task) { q == r.(state := q.state) }

  // All can run, wait for nothing and own nothing.
  ghost predicate Rested(k: K, d: K, b: map<Tid, nat>) {
    forall x | x in b :: x in k.s.tasks && x in d.s.tasks && SameBut(k.s.tasks[x], d.s.tasks[x]) && Runnable(d.s, x) && d.s.tasks[x].call.NoCall? && d.s.tasks[x].owned == []
  }

  // After main: task 2 runs.
  lemma Begins(k: K, b: map<Tid, nat>) returns (ops: seq<Op>, d: K)
    requires Fresh(k, b) && Pair(b)
    ensures Leads(k, ops, d) && Crew(d, b, TWO) && Acts(d) && Same(k, d) && d.clock == EMPTY && Runnable(d.s, ONE) && Rested(k, d, b)
  {
    hide Apply, Enabled, Leads, SemBlocks, InvBut;
    Stays(k);
    To(k, b, 2);
    ops, d := Next(k, [], k, Preempt);
  }

  // Task 2 sleeps and task 1 runs.
  ghost predicate Sleeps2(k: K, d: K, b: map<Tid, nat>) {
    && Crew(d, b, ONE) && Acts(d) && Same(k, d) && d.clock == NAP
    && At(d, TWO) == Napping(At(k, TWO)) && k.s.tasks.Keys == b.Keys
    && Kept(k, d, b)
  }

  lemma SleepFirst(k0: K, ops: seq<Op>, k: K, b: map<Tid, nat>) returns (more: seq<Op>, d: K)
    requires Pair(b) && Leads(k0, ops, k) && Crew(k, b, TWO) && Acts(k) && k.clock == EMPTY && At(k, TWO).call.NoCall? && Runnable(k.s, ONE)
    ensures Leads(k0, more, d) && Sleeps2(k, d, b)
  {
    hide Apply, Enabled, Leads, SemBlocks, InvBut;
    Naps(k, b, 1);
    var a;
    more, a := Next(k0, ops, k, OfTask(Delay(1)));
    assert SetTimeout(EMPTY, 2, 1) == NAP;
    To(a, b, 1);
    more, d := Next(k0, more, a, Preempt);
  }

  // Task 2 is awake again after a tick, and nothing has happened to task 1.
  ghost predicate Awake2(k: K, d: K, b: map<Tid, nat>, rest: seq<Tid>) {
    && Crew(d, b, TWO) && Acts(d) && Same(k, d) && d.clock == Tick1(k.clock, rest) && At(d, ONE) == At(k, ONE)
    && At(d, TWO).call.NoCall? && At(d, TWO).owned == At(k, TWO).owned && k.s.tasks.Keys == b.Keys
    && Kept(k, d, b)
  }

  function Tick1(c: Clock, rest: seq<Tid>): Clock { c.(jiffies := 1, cur := rest) }

  ghost predicate Due2(k: K, rest: seq<Tid>) { OneDue(k, 1, 2, rest) }

  lemma WakeSecond(k0: K, ops: seq<Op>, k: K, b: map<Tid, nat>, t: Tid, rest: seq<Tid>) returns (more: seq<Op>, d: K)
    requires Pair(b) && Leads(k0, ops, k) && Crew(k, b, ONE) && !Runnable(k.s, ONE) && At(k, TWO).state.Sleeping? && At(k, TWO).call.InWait?
    requires k.clock.jiffies == 0 && Due2(k, rest) && First(k, t)
    ensures Leads(k0, more, d) && Awake2(k, d, b, rest)
  {
    hide Apply, Enabled, Leads, SemBlocks, InvBut, OneDue;
    var c;
    more, c := TickSecond(k0, ops, k, b, t, rest);
    more, d := RunSecond(k0, more, c, b);
  }

  // The least urgent task t runs until the tick wakes task 2.
  lemma TickSecond(k0: K, ops: seq<Op>, k: K, b: map<Tid, nat>, t: Tid, rest: seq<Tid>) returns (more: seq<Op>, d: K)
    requires Pair(b) && Leads(k0, ops, k) && Crew(k, b, ONE) && !Runnable(k.s, ONE) && At(k, TWO).state.Sleeping? && At(k, TWO).call.InWait?
    requires k.clock.jiffies == 0 && Due2(k, rest) && First(k, t)
    ensures Leads(k0, more, d) && Crew(d, b, d.current) && Same(k, d) && d.clock == Tick1(k.clock, rest)
    ensures Runnable(d.s, TWO) && At(d, TWO).call.InWait? && At(d, TWO).owned == At(k, TWO).owned && At(d, ONE) == At(k, ONE)
    ensures Kept(k, d, b)
  {
    hide Apply, Enabled, Leads, SemBlocks, InvBut, OneDue, First;
    To(k, b, t);
    var a;
    more, a := Next(k0, ops, k, Preempt);
    SameDue(k, a, rest);
    Rises(a, b, 1, 2, rest);
    more, d := Next(k0, more, a, Tick(1));
  }

  lemma SameDue(k: K, d: K, rest: seq<Tid>)
    requires Due2(k, rest) && d.clock == k.clock
    ensures Due2(d, rest)
  {
  }

  // Task 2 has been woken and takes over.
  lemma RunSecond(k0: K, ops: seq<Op>, k: K, b: map<Tid, nat>) returns (more: seq<Op>, d: K)
    requires Pair(b) && Leads(k0, ops, k) && Crew(k, b, k.current) && Runnable(k.s, TWO) && At(k, TWO).call.InWait?
    ensures Leads(k0, more, d) && Crew(d, b, TWO) && Acts(d) && Same(k, d) && d.clock == k.clock
    ensures Kept(k, d, b)
    ensures !Runnable(k.s, ONE) ==> At(d, ONE) == At(k, ONE)
    ensures At(d, TWO).call.NoCall? && At(d, TWO).owned == At(k, TWO).owned
  {
    hide Apply, Enabled, Leads, SemBlocks, InvBut;
    To(k, b, 2);
    var a;
    more, a := Next(k0, ops, k, Preempt);
    Awakes(a, b);
    more, d := Next(k0, more, a, Resumed);
  }

  // Task 1 is back in its call, and the call returns EOK.
  ghost predicate Back(k: K, d: K, b: map<Tid, nat>) {
    && Crew(d, b, ONE) && Acts(d) && Same(k, d) && At(d, ONE).call == At(k, ONE).call && Enabled(d, Resumed) && Apply(d, Resumed).ret == Code(EOK)
    && At(d, ONE).token == At(k, ONE).token && !At(d, ONE).aborted && Others(k, d, b)
  }

  // Nothing has happened to a task besides 1 and 2 that cannot run.
  ghost predicate Others(k: K, d: K, b: map<Tid, nat>) {
    forall x | x in b && x != 1 && x != 2 && x in k.s.tasks && !Runnable(k.s, x) :: x in d.s.tasks && d.s.tasks[x] == k.s.tasks[x]
  }

  lemma Returns1(k0: K, ops: seq<Op>, k: K, b: map<Tid, nat>) returns (more: seq<Op>, d: K)
    requires Pair(b) && Leads(k0, ops, k) && Crew(k, b, TWO) && Acts(k) && At(k, TWO).call.NoCall? && Runnable(k.s, ONE)
    requires Answers(At(k, ONE).call) && !At(k, ONE).aborted && At(k, ONE).obj == Msg(EOK)
    ensures Leads(k0, more, d) && Back(k, d, b)
  {
    hide Apply, Enabled, Leads, SemBlocks, InvBut, SetTimeout;
    Naps(k, b, 1);
    var a;
    more, a := Next(k0, ops, k, OfTask(Delay(1)));
    To(a, b, 1);
    more, d := Next(k0, more, a, Preempt);
    WillReturn(d);
  }

  lemma WillReturn(k: K)
    requires Inv(k) && Acts(k) && Answers(At(k, k.current).call) && !At(k, k.current).aborted && At(k, k.current).obj == Msg(EOK)
    ensures Enabled(k, Resumed) && Apply(k, Resumed).ret == Code(EOK)
  {
    hide InvBut, Continue;
    ReturnsResult(k);
  }

  // The wait of task 1 has ended otherwise: task 2 suspends and resumes it, and it returns EOK.
  lemma Overwrites1(k0: K, ops: seq<Op>, k: K, b: map<Tid, nat>) returns (more: seq<Op>, d: K)
    requires Pair(b) && Leads(k0, ops, k) && Crew(k, b, TWO) && Acts(k) && At(k, TWO).call.NoCall? && Runnable(k.s, ONE) && EndedOtherwise(At(k, ONE))
    ensures Leads(k0, more, d) && Crew(d, b, ONE) && Acts(d) && Same(k, d) && At(d, ONE).call == At(k, ONE).call && !At(d, ONE).aborted
    ensures At(d, ONE).token.Forged? && Enabled(d, Resumed) && Apply(d, Resumed).ret == Code(EOK) && Others(k, d, b)
  {
    hide Apply, Enabled, Leads, SemBlocks, InvBut, TimeDelete;
    Paused(k, b, 1);
    var a, c;
    more, a := Next(k0, ops, k, OfTask(Pause(1)));
    Unpaused(a, b, 1);
    more, c := Next(k0, more, a, OfTask(Unpause(1)));
    more, d := Returns1(k0, more, c, b);
  }

  // ---- a semaphore wait without a token ----

  // A wait on a semaphore that never had a token is about to return EOK.
  ghost predicate NoTokenEver(k: K, i: nat) {
    && Acts(k) && Enabled(k, Resumed) && At(k, k.current).call == Wait5(i) && Apply(k, Resumed).ret == Code(EOK)
    && NeverSignalled(k, i) && !At(k, k.current).aborted && At(k, k.current).token.Forged?
  }

  predicate NeverSignalled(k: K, i: nat) { i in k.sems && k.sems[i] == NO_TOKEN }

  // Task 1 waits for a token of i for 5 ticks.
  ghost predicate Blocks5(k: K, d: K, i: nat) {
    && Crew(d, DUO, ONE) && At(d, ONE).state.WtSem? && At(d, ONE).call == Wait5(i)
    && !At(d, ONE).aborted && At(d, ONE).obj == Sem(i) && 2 in k.s.tasks && At(d, TWO) == At(k, TWO)
    && d.clock == NAP_AND_WAIT && d.sems == k.sems[i := WAITED]
  }

  lemma Blocks(k: K, i: nat, n: nat)
    requires n == 5 && 1 in k.s.tasks && Crew(k, DUO, ONE) && Acts(k) && At(k, ONE).call.NoCall? && k.clock == NAP
    requires NeverSignalled(k, i)
    ensures var op := OfSem(Take(i, n)); Enabled(k, op) && Silent(k, op) && Blocks5(k, Apply(k, op).k, i)
  {
    hide InvBut, BlockOnSem, Acts, SemTake, Elapsed;
    Acting(k);
    StepInv(k, OfSem(Take(i, n)));
    var v := k.(sems := k.sems[i := WAITED]);
    NoneThere(k, v, i);
    Blocked1(k, v, i);
  }

  lemma NoneThere(k: K, v: K, i: nat)
    requires k.clock.jiffies == 0 && NeverSignalled(k, i) && v == k.(sems := k.sems[i := WAITED])
    ensures SemTake(k, i, 0, TIMEOUT) == Out(BlockOnSem(v, i, Wait5(i), TIMEOUT), Blocked)
  {
    hide BlockOnSem;
    assert Elapsed(k.clock, 0) == 0;
  }

  lemma Acting(k: K)
    requires Acts(k)
    ensures k.current != IDLE && Runnable(k.s, k.current)
  {
  }

  lemma Blocked1(k: K, v: K, i: nat)
    requires Inv(k) && k.current == 1 && Runnable(k.s, ONE) && k.clock == NAP && i in k.sems && v == k.(sems := v.sems)
    ensures var d := BlockOnSem(v, i, Wait5(i), TIMEOUT);
            && d == v.(s := d.s, clock := NAP_AND_WAIT) && 1 in d.s.tasks && d.s.tasks == k.s.tasks[ONE := At(d, ONE)]
            && At(d, ONE) == At(k, ONE).(call := Wait5(i), token := NoToken, obj := Sem(i), aborted := false, state := WtSem, inode := In(SemQ(i)))
  {
    hide InvBut, SetSleep, AddToPrioQueue;
    BlockedIs(k, i, Wait5(i), TIMEOUT);
    assert BlockOnSem(v, i, Wait5(i), TIMEOUT).s == BlockOnSem(k, i, Wait5(i), TIMEOUT).s;
    Sleep5();
  }

  lemma Sleep5()
    ensures SetTimeout(NAP, ONE, TIMEOUT) == NAP_AND_WAIT
  {
    var c := NAP;
    assert TimePos(c.due, [2], 5) == 1 + TimePos(c.due, [], 5);
    assert Insert([2], 1, 1) == [2, 1];
  }

  // Task 1 waits for a token, and task 2 is awake at tick 1.
  ghost predicate Waiting1(k: K, i: nat) {
    && Crew(k, DUO, TWO) && Acts(k) && At(k, TWO).call.NoCall? && At(k, ONE).state.WtSem? && At(k, ONE).call == Wait5(i)
    && !At(k, ONE).aborted && At(k, ONE).obj == Sem(i) && k.clock == WAIT
    && i in k.sems && k.sems[i] == WAITED
  }

  lemma ToWaiting1(k: K, i: nat) returns (ops: seq<Op>, d: K)
    requires Fresh(k, DUO) && NeverSignalled(k, i)
    ensures Leads(k, ops, d) && Waiting1(d, i) && d.sems == k.sems[i := WAITED]
  {
    hide Apply, Enabled, Leads, SemBlocks, InvBut, Crew, Acts, OneDue, Blocks5, Waiting1;
    var a, b;
    ops, a := ToFirst(k);
    Blocks(a, i, 5);
    ops, b := Next(k, ops, a, OfSem(Take(i, 5)));
    BlockedDue(a, b, i);
    ops, d := Wakes(k, ops, b, [1]);
    StillWaiting(a, b, d, i);
  }

  lemma BlockedDue(a: K, k: K, i: nat)
    requires Blocks5(a, k, i) && At(a, TWO).state.Sleeping? && At(a, TWO).call.InWait?
    ensures Crew(k, DUO, ONE) && 1 in k.s.tasks && 2 in k.s.tasks && !Runnable(k.s, ONE) && At(k, TWO).state.Sleeping? && At(k, TWO).call.InWait?
    ensures k.clock.jiffies == 0 && Due2(k, [1]) && k.sems == a.sems[i := WAITED]
  {
    hide InvBut;
    assert [2, 1] == [2] + [1];
  }

  lemma StillWaiting(a: K, k: K, d: K, i: nat)
    requires 1 in k.s.tasks && 2 in k.s.tasks && Blocks5(a, k, i) && Awake2(k, d, DUO, [1])
    ensures Waiting1(d, i) && d.sems == k.sems
  {
    hide InvBut, Acts;
  }

  // Task 2 has gone to sleep and task 1 runs.
  lemma ToFirst(k: K) returns (ops: seq<Op>, d: K)
    requires Fresh(k, DUO)
    ensures Leads(k, ops, d) && 1 in d.s.tasks && 2 in d.s.tasks && Crew(d, DUO, ONE) && Acts(d) && Same(k, d) && d.clock == NAP
    ensures At(d, ONE).call.NoCall? && At(d, TWO).state.Sleeping? && At(d, TWO).call.InWait?
  {
    hide Apply, Enabled, Leads, SemBlocks, InvBut;
    var a;
    ops, a := Begins(k, DUO);
    ops, d := SleepFirst(k, ops, a, DUO);
  }

  // The idle task runs until the tick wakes task 2.
  lemma Wakes(k0: K, ops: seq<Op>, k: K, rest: seq<Tid>) returns (more: seq<Op>, d: K)
    requires 1 in k.s.tasks && 2 in k.s.tasks && Leads(k0, ops, k) && Crew(k, DUO, ONE) && !Runnable(k.s, ONE)
    requires At(k, TWO).state.Sleeping? && At(k, TWO).call.InWait? && k.clock.jiffies == 0 && Due2(k, rest)
    ensures Leads(k0, more, d) && Awake2(k, d, DUO, rest)
  {
    hide Apply, Enabled, Leads, SemBlocks, InvBut, OneDue, Awake2;
    IdleReady(k, DUO);
    more, d := WakeSecond(k0, ops, k, DUO, IDLE, rest);
  }

  lemma IdleReady(k: K, b: map<Tid, nat>)
    requires Crew(k, b, k.current)
    ensures Runnable(k.s, IDLE)
  {
    hide InvBut;
    IdleRuns(k);
  }

  // The wait of task 1 has timed out.
  ghost predicate TimedOut5(k: K, d: K, i: nat) {
    && Crew(d, DUO, TWO) && Acts(d) && 2 in k.s.tasks && At(d, TWO) == At(k, TWO) && Runnable(d.s, ONE) && EndedOtherwise(At(d, ONE))
    && At(d, ONE).call == Wait5(i) && d.sems == k.sems[i := NO_TOKEN]
  }

  lemma TimesOut(k: K, i: nat, n: nat)
    requires n == 4 && Waiting1(k, i)
    ensures Enabled(k, Tick(n)) && TimedOut5(k, Apply(k, Tick(n)).k, i)
  {
    hide InvBut, Advance;
    assert [1] == [1] + [];
    Rises(k, DUO, n, 1, []);
  }

  // From any state after main: the run of the wait that gets EOK for its timeout.
  lemma ToForgedWait(k: K, i: nat) returns (ops: seq<Op>, d: K)
    requires Fresh(k, DUO) && NeverSignalled(k, i)
    ensures Leads(k, ops, d) && NoTokenEver(d, i)
  {
    hide Apply, Enabled, Leads, SemBlocks, InvBut, EndedOtherwise;
    var a, b;
    ops, a := ToWaiting1(k, i);
    TimesOut(a, i, 4);
    ops, b := Next(k, ops, a, Tick(4));
    ops, d := Overwrites1(k, ops, b, DUO);
  }

  lemma EokWithoutToken() returns (ops: seq<Op>)
    ensures Lawful(Boot(), ops) && Genuine(Boot(), ops, true) && NoTokenEver(Final(Boot(), ops), 0)
  {
    hide Boot, Apply, Enabled, Lawful, Final, InvBut, Leads, SemBlocks, NoTokenEver, Genuine, Fresh;
    Starts();
    var k, d, more;
    NewSemaphore(Boot(), ALONE, 0, 0);
    ops, k := Then([], Boot(), OfSem(NewSem(0, 0, 0)), true);
    ops, k := MakesDuo(ops, k);
    more, d := ToForgedWait(k, 0);
    Whole(ops, k, more, d);
    ops := ops + more;
  }

  // main creates the two tasks.
  lemma MakesDuo(ops: seq<Op>, k: K) returns (more: seq<Op>, d: K)
    requires Reached(ops, k, true) && Fresh(k, ALONE)
    ensures Reached(more, d, true) && Fresh(d, DUO) && Same(k, d)
  {
    hide Apply, Enabled, Reached, Fresh;
    Made(k, ALONE, 1, 1, false);
    more, d := Then(ops, k, OfTask(Create(1, 1, false, false)), true);
    var e := d;
    Made(d, ALONE[1 := 1], 2, 0, false);
    more, d := Then(more, d, OfTask(Create(2, 0, false, false)), true);
    assert ALONE[1 := 1][2 := 0] == DUO;
  }

  // ---- a lock without the mutex ----

  // A lock is about to return EOK for a mutex that does not exist.
  ghost predicate NoSuchMutex(k: K) {
    && Acts(k) && Enabled(k, Resumed) && At(k, k.current).call.InLock? && At(k, k.current).call.m !in k.mtx
    && Apply(k, Resumed).ret == Code(EOK)
  }

  // Task 1 waits for mutex 0, and task 2 has it and is awake.
  ghost predicate Held2(k: K) {
    && Crew(k, DUO, TWO) && Acts(k) && At(k, TWO).call.NoCall? && At(k, TWO).owned == [0] && k.mtx == HeldBy(TWO)
    && At(k, ONE).call == IN_LOCK && !At(k, ONE).aborted && At(k, ONE).inode == In(WAITERS) && At(k, ONE).owned == []
  }

  lemma LocksOut(k: K)
    requires Crew(k, DUO, ONE) && Acts(k) && At(k, ONE).call.NoCall? && k.mtx == HeldBy(TWO)
    ensures var op := LOCK; var d := Apply(k, op).k;
            && Enabled(k, op) && Silent(k, op) && Crew(d, DUO, ONE) && Same(k, d) && d.clock == k.clock && At(d, TWO) == At(k, TWO) && !Runnable(d.s, ONE)
            && At(d, ONE).call == IN_LOCK && !At(d, ONE).aborted && At(d, ONE).inode == In(WAITERS) && At(d, ONE).owned == At(k, ONE).owned
  {
    hide Apply, Enabled, InvBut, MutexLock;
    ByMutex(k, Lock(MTX));
    StepInv(k, LOCK);
    LockBlocks(k, 0);
  }

  lemma ToHeld2(k: K) returns (ops: seq<Op>, d: K)
    requires Fresh(k, DUO) && k.mtx == map[0 := Mutex(0, Free)]
    ensures Leads(k, ops, d) && Held2(d)
  {
    hide Apply, Enabled, Leads, SemBlocks, InvBut;
    var a, b;
    ops, a := Begins(k, DUO);
    Takes(a, DUO, 0);
    ops, b := Next(k, ops, a, LOCK);
    ops, d := WaitsOut(k, ops, b);
  }

  lemma WaitsOut(k0: K, ops: seq<Op>, k: K) returns (more: seq<Op>, d: K)
    requires Leads(k0, ops, k) && Crew(k, DUO, TWO) && Acts(k) && k.clock == EMPTY && At(k, TWO).call.NoCall? && Runnable(k.s, ONE)
    requires At(k, ONE).call.NoCall? && At(k, ONE).owned == [] && At(k, TWO).owned == [0] && k.mtx == HeldBy(TWO)
    ensures Leads(k0, more, d) && Held2(d)
  {
    hide Apply, Enabled, Leads, SemBlocks, InvBut, Acts;
    var a, b;
    more, a := SleepFirst(k0, ops, k, DUO);
    LocksOut(a);
    more, b := Next(k0, more, a, LOCK);
    assert [2] == [2] + [];
    more, d := Wakes(k0, more, b, []);
  }

  lemma Queued(k: K, t: Tid)
    requires Inv(k) && t in k.s.tasks && At(k, t).inode == In(WAITERS)
    ensures t in Queue(k.s, WAITERS)
  {
    hide InvBut, Core, States;
    CoreOf(k, k.sems, k.mtx);
    CoreLinked(k.s, t);
  }

  // Who can run waits for nothing.
  lemma NotListed(k: K, t: Tid, q: Qid)
    requires Inv(k) && Runnable(k.s, t) && !q.Node?
    ensures t !in Queue(k.s, q)
  {
    hide InvBut, Core, States;
    CoreOf(k, k.sems, k.mtx);
    StateOf(k, t, k.sems, k.mtx);
    if t in Queue(k.s, q) { OnList(k.s, t, q); }
  }

  lemma Destroys(k: K)
    requires Held2(k)
    ensures var op := DESTROY; var d := Apply(k, op).k;
            && Enabled(k, op) && Crew(d, DUO, TWO) && Acts(d) && d.mtx == map[] && At(d, TWO).call.NoCall?
            && Runnable(d.s, ONE) && EndedOtherwise(At(d, ONE)) && At(d, ONE).call == IN_LOCK
  {
    hide Apply, Enabled, InvBut, MutexDestroy, EndedOtherwise, CalcInherited, Emptied;
    ByMutex(k, DestroyMutex(MTX));
    StepInv(k, DESTROY);
    DestroyKeys(k, 0);
    DestroyTells(k, 0);
    Queued(k, 1);
    IdleReady(k, DUO);
    NotListed(k, IDLE, WAITERS);
    assert k.mtx - {0} == map[];
    OwnPrio(k);
    Dismissed1(k);
  }

  lemma OwnPrio(k: K)
    requires Held2(k)
    ensures CalcInherited(Emptied(k, MTX).s, TWO) == 0
  {
    hide InvBut, DestroyWaiters, Forsake, Told;
    EmptiedIs(k, 0);
    assert Remove([0], 0) == [];
  }

  lemma Dismissed1(k: K)
    requires Held2(k)
    ensures var d := MutexDestroy(k, MTX).k; 1 in d.s.tasks && EndedOtherwise(At(d, ONE)) && At(d, ONE).prio == 1
  {
    hide InvBut, MutexDestroy, CalcInherited, Emptied;
    DestroyTells(k, 0);
    Queued(k, 1);
  }

  // Destroyed while waiting, suspended and resumed.
  lemma EokWithoutMutex() returns (ops: seq<Op>)
    ensures Lawful(Boot(), ops) && Genuine(Boot(), ops, true) && NoSuchMutex(Final(Boot(), ops))
  {
    hide Boot, Apply, Enabled, Lawful, Final, InvBut, EndedOtherwise, Leads, SemBlocks, Genuine, Fresh, Held2, Crew, Acts;
    var k, a, d, more;
    ops, k := MakesLock();
    more, a := ToHeld2(k);
    Destroys(a);
    Held2Acts(a);
    more, d := Next(k, more, a, DESTROY);
    more, a := Overwrites1(k, more, d, DUO);
    CrewAt(a, 1);
    Whole(ops, k, more, a);
    ops := ops + more;
  }

  lemma Held2Acts(k: K)
    requires Held2(k)
    ensures Acts(k)
  {
  }

  lemma CrewAt(k: K, t: Tid)
    requires Crew(k, DUO, t)
    ensures k.current == t
  {
  }

  // main creates the mutex and the tasks.
  lemma MakesLock() returns (ops: seq<Op>, k: K)
    ensures Reached(ops, k, true) && Fresh(k, DUO) && k.mtx == map[0 := Mutex(0, Free)]
  {
    hide Boot, Apply, Enabled, Reached, Fresh, InvBut;
    Starts();
    NewMtx(Boot(), ALONE, 0);
    ops, k := Then([], Boot(), OfMutex(NewMutex(0)), true);
    ops, k := MakesDuo(ops, k);
  }

  lemma HandsOver(k: K)
    requires Held2(k)
    ensures var op := UNLOCK; var d := Apply(k, op).k;
            && Enabled(k, op) && Crew(d, DUO, TWO) && Acts(d) && d.mtx == HeldBy(ONE) && Runnable(d.s, ONE) && At(d, TWO).call.NoCall?
            && At(d, ONE).call == IN_LOCK && !At(d, ONE).aborted && At(d, ONE).obj == Msg(EOK) && At(d, ONE).owned == [0]
  {
    hide Apply, Enabled, InvBut, MutexUnlock, CalcInherited, Detach, Remove;
    ByMutex(k, Unlock(MTX));
    StepInv(k, UNLOCK);
    assert Queue(k.s, WAITERS) == [1] by { OnlyListed(k, DUO, WAITERS); }
    UnlockHands(k, 0);
    Drops(k);
  }

  lemma Drops(k: K)
    requires Held2(k)
    ensures CalcInherited(Detach(k.s, Held(TWO), MTX), TWO) == 0
  {
    hide InvBut;
    assert Remove([0], 0) == [];
  }

  lemma TakesIt(k: K)
    requires Crew(k, DUO, TWO) && Acts(k) && k.mtx == HeldBy(ONE) && Runnable(k.s, ONE) && At(k, TWO).call.NoCall?
    requires At(k, ONE).call == IN_LOCK && !At(k, ONE).aborted && At(k, ONE).obj == Msg(EOK) && At(k, ONE).owned == [0]
    ensures var op := DESTROY; var d := Apply(k, op).k;
            && Enabled(k, op) && !Honest(k, op) && Crew(d, DUO, TWO) && Acts(d) && d.mtx == map[] && Runnable(d.s, ONE) && At(d, TWO).call.NoCall?
            && At(d, ONE).call == IN_LOCK && !At(d, ONE).aborted && At(d, ONE).obj == Msg(EOK)
  {
    hide Apply, Enabled, InvBut, MutexDestroy, Remove, CalcInherited, Emptied;
    ByMutex(k, DestroyMutex(MTX));
    StepInv(k, DESTROY);
    DestroyKeys(k, 0);
    assert k.mtx - {0} == map[];
    Lost1(k);
  }

  lemma Lost1(k: K)
    requires Crew(k, DUO, TWO) && Runnable(k.s, TWO) && k.mtx == HeldBy(ONE) && Runnable(k.s, ONE) && At(k, ONE).owned == [0]
    ensures var d := MutexDestroy(k, MTX).k; var r := At(k, ONE);
            && IDLE in d.s.tasks && At(d, IDLE) == At(k, IDLE) && 2 in d.s.tasks && At(d, TWO) == At(k, TWO) && 1 in d.s.tasks && Runnable(d.s, ONE)
            && At(d, ONE) == r.(owned := [], token := At(d, ONE).token, state := At(d, ONE).state, elem := At(d, ONE).elem, inode := At(d, ONE).inode)
  {
    hide InvBut, MutexDestroy, CalcInherited, Emptied;
    DestroyTells(k, 0);
    IdleReady(k, DUO);
    NotListed(k, IDLE, WAITERS);
    NotListed(k, 2, WAITERS);
    NotListed(k, 1, WAITERS);
    LostPrio(k);
    assert Remove([0], 0) == [];
  }

  lemma LostPrio(k: K)
    requires Crew(k, DUO, TWO) && k.mtx == HeldBy(ONE) && At(k, ONE).owned == [0]
    ensures CalcInherited(Emptied(k, MTX).s, ONE) == 1
  {
    hide InvBut, DestroyWaiters, Forsake, Told;
    EmptiedIs(k, 0);
    assert Remove([0], 0) == [];
  }

  // Handed over, and destroyed before the new owner runs.
  lemma EokAfterDestroy() returns (ops: seq<Op>)
    ensures Lawful(Boot(), ops) && Genuine(Boot(), ops, true) && NoSuchMutex(Final(Boot(), ops))
  {
    hide Boot, Apply, Enabled, Lawful, Final, InvBut, Leads, SemBlocks, Genuine, Fresh, Held2, Acts;
    var k, a, d, more;
    ops, k := MakesLock();
    more, a := ToHeld2(k);
    HandsOver(a);
    Held2Acts(a);
    more, d := Next(k, more, a, UNLOCK);
    TakesIt(d);
    more, a := Next(k, more, d, DESTROY);
    more, d := Returns1(k, more, a, DUO);
    Whole(ops, k, more, d);
    ops := ops + more;
  }

  // ---- an event wait without bits ----

  // A wait for bit 0 is about to return EOK.  The bit was set for it and is gone.
  ghost predicate NoBits(k: K) {
    Acts(k) && Enabled(k, Resumed) && At(k, k.current).call.InEvent? && Apply(k, Resumed).ret == Code(EOK) && k.evts == map[0 := 0]
  }

  const WAIT0: Call := InEvent(0, 1, true, false, 0, INFINITE)

  // Task 1 waits for bit 0.
  ghost predicate WaitsBit(k: K) {
    && 1 in k.s.tasks && At(k, ONE).call == WAIT0 && !At(k, ONE).aborted && At(k, ONE).inode == In(EvtQ(EVT))
    && At(k, ONE).obj == Bits(0x4000_0001) && k.evts == map[0 := 0]
  }

  lemma BlocksForBit(k: K)
    requires Crew(k, DUO, ONE) && Acts(k) && At(k, ONE).call.NoCall? && k.clock.jiffies == 0 && k.evts == map[0 := 0]
    ensures var op := WAIT_BIT; var d := Apply(k, op).k;
            && Enabled(k, op) && Crew(d, DUO, ONE) && d == k.(s := d.s) && d.s.tasks == k.s.tasks[ONE := At(d, ONE)] && WaitsBit(d) && !Runnable(d.s, ONE)
  {
    hide Apply, Enabled, InvBut, BlockOnEvent;
    ByEvent(k, WaitBits(EVT, 1, true, false, INFINITE));
    StepInv(k, WAIT_BIT);
    BlockedEvent(k, 0, WAIT0, EvWord(1, true, false), INFINITE);
  }

  lemma SetsBit(k: K)
    requires Crew(k, DUO, TWO) && Acts(k) && At(k, TWO).call.NoCall? && WaitsBit(k)
    ensures var op := SET_BIT; var d := Apply(k, op).k;
            && Enabled(k, op) && Crew(d, DUO, TWO) && Acts(d) && At(d, TWO).call.NoCall? && Runnable(d.s, ONE) && EndedOtherwise(At(d, ONE))
            && At(d, ONE).call == WAIT0 && d.evts == map[0 := 0]
  {
    hide Apply, Enabled, InvBut, SetBits, Core, States, Tame, ListSettled, TasksSettled, EndedOtherwise;
    ByEvent(k, PutBits(EVT, 1));
    StepInv(k, SET_BIT);
    IdleReady(k, DUO);
    BitWakes(k);
    SetBitsInv(k, 0, 1);
    BitTaken(k);
    SamePrio(k.s, SetBits(k, EVT, 1).s);
    Bit0();
  }

  // The set wakes task 1 and leaves the others as they are.
  lemma BitWakes(k: K)
    requires Crew(k, DUO, TWO) && Runnable(k.s, TWO) && Runnable(k.s, IDLE) && WaitsBit(k)
    ensures var d := SetBits(k, EVT, 1);
            && d.s.tasks.Keys == k.s.tasks.Keys && At(d, ONE).state.Ready? && At(d, ONE).obj == Bits(1) && EndedOtherwise(At(d, ONE))
            && At(d, ONE).call == WAIT0 && At(d, TWO) == At(k, TWO) && At(d, IDLE) == At(k, IDLE)
  {
    hide InvBut, SetBits, Core, States, Tame, ListSettled, TasksSettled, Met;
    CoreOf(k, k.sems, k.mtx);
    CoreLinked(k.s, 1);
    WokenBySet(k, 0, 1, 1);
    NotListed(k, 2, EvtQ(EVT));
    NotListed(k, IDLE, EvtQ(EVT));
    SetBitsInv(k, 0, 1);
    Unsettled(k.s, SetBits(k, EVT, 1).s, Queue(k.s, EvtQ(EVT)), With(0, 1));
    SamePrio(k.s, SetBits(k, EVT, 1).s);
    Bit0();
  }

  lemma Unsettled(s: S, d: S, ts: seq<Tid>, bits: bv32)
    requires TasksSettled(s, d, ts, bits)
    ensures forall x | x in s.tasks && x !in ts :: x in d.tasks && d.tasks[x] == s.tasks[x]
  {
    hide Satisfied;
    forall x | x in s.tasks && x !in ts ensures x in d.tasks && d.tasks[x] == s.tasks[x] { assert SettledTask(s.tasks[x], d.tasks[x], false, bits); }
  }

  lemma Bit0()
    ensures Plain(1) && With(0, 1) == 1 && Without(1, 1) == 0 && CheckCond2(1, 0x4000_0001) && Met(1, 0x4000_0001)
  {
    hide Met;
    Cond2Is(1, 0x4000_0001);
  }

  lemma SamePrio(s: S, d: S)
    requires Tame(s, d)
    ensures d.tasks.Keys == s.tasks.Keys && (forall t | t in s.tasks :: d.tasks[t].prio == s.tasks[t].prio && d.tasks[t].base == s.tasks[t].base)
  {
  }

  lemma BitTaken(k: K)
    requires Crew(k, DUO, TWO) && Runnable(k.s, TWO) && WaitsBit(k)
    ensures ClearMask(k.s, Queue(k.s, EvtQ(EVT)), 1) == 1
  {
    hide InvBut, Core, States, NoDup;
    OnlyListed(k, DUO, EvtQ(EVT));
    var ts := Queue(k.s, EvtQ(EVT));
    assert ts == [1] && ts[1..] == [];
    assert Satisfied(k.s, 1, 1) && WantsClear(0x4000_0001) && Asked(0x4000_0001) == 1;
  }

  ghost predicate RestRuns(k: K, b: map<Tid, nat>) { forall x | x in b && x != ONE && x != IDLE :: Runnable(k.s, x) }

  lemma OnlyListed(k: K, b: map<Tid, nat>, q: Qid)
    requires Crew(k, b, TWO) && 1 in b && At(k, ONE).inode == In(q) && !q.Node? && RestRuns(k, b)
    ensures Queue(k.s, q) == [1]
  {
    hide InvBut, Core, States;
    IdleReady(k, b);
    CoreOf(k, k.sems, k.mtx);
    CoreLinked(k.s, 1);
    QueueNoDup(k.s, q);
    var ts := Queue(k.s, q);
    forall i | 0 <= i < |ts| ensures ts[i] == 1 {
      OnList(k.s, ts[i], q);
      if ts[i] != 1 { NotListed(k, ts[i], q); }
    }
    OnlyOne(ts);
  }

  lemma OnlyOne(ts: seq<Tid>)
    requires NoDup(ts) && ts != [] && (forall i | 0 <= i < |ts| :: ts[i] == 1)
    ensures ts == [1]
  {
    assert ts[|ts| - 1] == ts[0];
  }

  // Woken with its bits, suspended and resumed.
  lemma EokForBits() returns (ops: seq<Op>)
    ensures Lawful(Boot(), ops) && Genuine(Boot(), ops, true) && NoBits(Final(Boot(), ops))
  {
    hide Boot, Apply, Enabled, Lawful, Final, InvBut, EndedOtherwise, Leads, SemBlocks, Genuine, Fresh;
    Starts();
    var k, d, more;
    NewEvt(Boot(), ALONE);
    ops, k := Then([], Boot(), OfEvent(NewEvent(0)), true);
    ops, k := MakesDuo(ops, k);
    more, d := ToBit(k);
    SetsBit(d);
    more, d := Next(k, more, d, SET_BIT);
    more, d := Overwrites1(k, more, d, DUO);
    Whole(ops, k, more, d);
    ops := ops + more;
  }

  lemma ToBit(k: K) returns (ops: seq<Op>, d: K)
    requires Fresh(k, DUO) && k.evts == map[0 := 0]
    ensures Leads(k, ops, d) && Crew(d, DUO, TWO) && Acts(d) && At(d, TWO).call.NoCall? && WaitsBit(d)
  {
    hide Apply, Enabled, Leads, SemBlocks, InvBut, Acts;
    var a, b;
    ops, a := ToFirst(k);
    BlocksForBit(a);
    ops, b := Next(k, ops, a, WAIT_BIT);
    assert [2] == [2] + [];
    ops, d := Wakes(k, ops, b, []);
  }
}
