/**
 A run in which a task waits for the end of another one, which is killed, and is told that it
 ended itself.  Besides the tasks 1 and 2 there is task 3, the least urgent.
 */
module KernelJoin {
  import opened Lists
  import opened KernelState
  import opened KernelCalls
  import opened KernelLists
  import opened KernelTime
  import opened KernelInv
  import opened KernelWake
  import opened KernelMutex
  import opened KernelObjects
  import opened KernelEvents
  import opened KernelTasks
  import opened KernelSched
  import opened KernelRun
  import opened KernelEffects
  import opened KernelHonest
  import opened KernelProgram
  import opened KernelForged

  const THREE: Tid := 3
  const IN_JOIN: Call := InExit(THREE)
  const JOINERS: Qid := ExitQ(THREE)
  const JOIN: Op := OfTask(Join(THREE))
  const KILL: Op := OfTask(KillTask(THREE))
  const TRIO: map<Tid, nat> := map[IDLE := PRIOS, 1 := 1, 2 := 0, 3 := 2]

  // A wait for the end of task 3, which was killed, is about to return EOK.
  ghost predicate ToldWrong(k: K) {
    && Acts(k) && Enabled(k, Resumed) && At(k, k.current).call == IN_JOIN && Apply(k, Resumed).ret == Code(EOK)
    && 3 in k.s.tasks && At(k, THREE).state.Zombie?
  }

  // ---- the wait ----

  lemma JoinIs(k: K, t: Tid)
    requires Inv(k) && Runnable(k.s, k.current) && k.current != IDLE && t in k.s.tasks && t != k.current && At(k, t).refcnt > 0 && !Finished(k.s, t)
    ensures var o := WaitFor(k, t); var d := o.k; var c := k.current;
            && o.ret == Blocked && d == k.(s := d.s) && d.s.tasks == k.s.tasks[c := At(d, c)]
            && At(d, c) == At(k, c).(call := InExit(t), token := NoToken, aborted := false, state := WtExit, inode := In(ExitQ(t)))
  {
    hide InvBut, Core, States, Only, SetSleep, InsertEnd;
    var c := k.current;
    CoreOf(k, k.sems, k.mtx);
    var r := k.s.tasks[c].(call := InExit(t), token := NoToken, aborted := false);
    AsleepOk(k.s, c, r, WtExit);
    var l := SetSleep(Put(k.s, c, r), c, WtExit);
    assert SetAborted(SetCall(k.s, c, InExit(t)), c, false) == Put(k.s, c, r);
    ExitList(k, t);
    OnlyHas(k.s, l, c);
    HasQueue(k.s, l, c, ExitQ(t));
    InsertEndOk(l, ExitQ(t), c);
    OnlyKeys(k.s, l, c);
    OnlyKeys(l, InsertEnd(l, ExitQ(t), c), c);
    assert InsertEnd(l, ExitQ(t), c).tasks == k.s.tasks[c := InsertEnd(l, ExitQ(t), c).tasks[c]];
  }

  lemma Joins(k: K)
    requires Crew(k, TRIO, ONE) && Acts(k) && At(k, ONE).call.NoCall? && At(k, THREE).refcnt == 1 && Runnable(k.s, THREE)
    ensures var op := JOIN; var d := Apply(k, op).k;
            && Enabled(k, op) && Crew(d, TRIO, ONE) && d == k.(s := d.s) && d.s.tasks == k.s.tasks[ONE := At(d, ONE)] && !Runnable(d.s, ONE)
            && At(d, ONE).call == IN_JOIN && !At(d, ONE).aborted && At(d, ONE).inode == In(JOINERS)
  {
    hide Apply, Enabled, InvBut, WaitFor;
    ByTask(k, Join(THREE));
    StepInv(k, OfTask(Join(3)));
    JoinIs(k, 3);
  }

  // ---- the kill ----

  // Task 1 waits for the end of task 3, and task 2 is awake.
  ghost predicate Joining(k: K) {
    && Crew(k, TRIO, TWO) && Acts(k) && At(k, TWO).call.NoCall? && Runnable(k.s, THREE) && At(k, THREE).call.NoCall? && At(k, THREE).owned == []
    && At(k, ONE).call == IN_JOIN && !At(k, ONE).aborted && At(k, ONE).inode == In(JOINERS)
  }

  // A task that owns nothing and is in no call leaves nothing behind.
  lemma LeavesNothing(k: K)
    requires Joining(k)
    ensures UnlockAllIn(k.(s := Abandon(k.s, THREE)), THREE) == k
  {
    hide InvBut;
    StateOf(k, 3, k.sems, k.mtx);
    assert k.s.tasks[3] == k.s.tasks[3].(call := NoCall, token := NoToken);
    assert k.s.tasks[3 := k.s.tasks[3]] == k.s.tasks;
  }

  // No task but t has changed.
  ghost predicate OnlyOf(s: S, d: S, t: Tid) { d.tasks.Keys == s.tasks.Keys && (forall x | x in s.tasks && x != t :: d.tasks[x] == s.tasks[x]) }

  // The end of a task that can run changes no other.
  lemma EndFrame(k: K, t: Tid)
    requires Inv(k) && t in k.s.tasks && t != IDLE && Runnable(k.s, t)
    ensures var d := KillOrSuspend(k, t, false);
            && OnlyOf(k.s, d.s, t)
            && At(d, t).base == At(k, t).base && At(d, t).prio == At(k, t).prio && d.current == k.current
  {
    hide Core, InvBut, LeaveQueue, TimeDelete, ReturnToken, Only, States, OffList, Tame, Bury, Retries;
    SuspendIs(k, t);
    ParkInv(k, t);
    var e := Park(k, t);
    OnlyKeys(k.s, e.s, t);
    LeaveHas(k.s, k.mtx, t);
    KillIs(k, t);
    BuryFrame(e.s, t, !Retries(k.s.tasks[t].state) && e.s.tasks[t].aborted);
  }

  lemma BuryFrame(s: S, t: Tid, a: bool)
    requires t in s.tasks
    ensures var d := Bury(s, t, a);
            && OnlyOf(s, d, t)
            && d.tasks[t].base == s.tasks[t].base && d.tasks[t].prio == s.tasks[t].prio
  {
    hide Insert;
  }

  lemma Kills(k: K)
    requires Joining(k)
    ensures var op := KILL; var d := Apply(k, op).k;
            && Enabled(k, op) && Crew(d, TRIO, TWO) && Acts(d) && At(d, TWO).call.NoCall? && Runnable(d.s, ONE)
            && EndedOtherwise(At(d, ONE)) && At(d, ONE).call == IN_JOIN && At(d, THREE).state.Zombie?
  {
    hide Apply, Enabled, InvBut, Kill, EndedOtherwise;
    ByTask(k, KillTask(THREE));
    StepInv(k, OfTask(KillTask(3)));
    KillEnds(k, 3);
    Killed(k);
  }

  lemma Killed(k: K)
    requires Joining(k)
    ensures var d := Kill(k, THREE); var r := At(k, ONE);
            && d.current == 2 && d.s.tasks.Keys == k.s.tasks.Keys && At(d, TWO) == At(k, TWO) && At(d, IDLE) == At(k, IDLE)
            && At(d, THREE).base == 2 && At(d, THREE).prio == 2
            && At(d, ONE) == r.(obj := Msg(EDESTROY), state := Ready, elem := At(d, ONE).elem, inode := At(d, ONE).inode)
            && EndedOtherwise(At(d, ONE))
  {
    hide InvBut, Abandon, UnlockAllIn, WakeAll, KillOrSuspend, Core, States, Tame;
    LeavesNothing(k);
    assert Queue(k.s, JOINERS) == [1] by { OnlyListed(k, TRIO, JOINERS); }
    var o := Msg(EDESTROY);
    ExitList(k, 3);
    WakeAllInv(k, ExitQ(3), [1], o, k.sems, k.mtx);
    var w := WakeAll(k, [1], o);
    KernelForged.SamePrio(k.s, w.s);
    EndFrame(w, 3);
  }

  // ---- the run ----

  lemma ToJoining(k: K) returns (ops: seq<Op>, d: K)
    requires Fresh(k, TRIO) && At(k, THREE).refcnt == 1
    ensures Leads(k, ops, d) && Joining(d)
  {
    hide Apply, Enabled, Leads, SemBlocks, InvBut;
    var a, b;
    ops, a := Begins(k, TRIO);
    ops, b := SleepFirst(k, ops, a, TRIO);
    ops, d := WaitsForEnd(k, ops, b);
  }

  lemma WaitsForEnd(k0: K, ops: seq<Op>, k: K) returns (more: seq<Op>, d: K)
    requires Leads(k0, ops, k) && Crew(k, TRIO, ONE) && Acts(k) && At(k, ONE).call.NoCall? && k.clock == NAP
    requires At(k, TWO).state.Sleeping? && At(k, TWO).call.InWait? && At(k, THREE).refcnt == 1 && Runnable(k.s, THREE) && At(k, THREE).call.NoCall? && At(k, THREE).owned == []
    ensures Leads(k0, more, d) && Joining(d)
  {
    hide Apply, Enabled, Leads, SemBlocks, InvBut, Acts;
    Joins(k);
    var a;
    more, a := Next(k0, ops, k, OfTask(Join(3)));
    FirstThird(a);
    hide Crew, First, OneDue, Awake2;
    more, d := WakeSecond(k0, more, a, TRIO, 3, []);
    Waked(a, d);
  }

  lemma FirstThird(k: K)
    requires Crew(k, TRIO, ONE) && !Runnable(k.s, ONE) && At(k, TWO).state.Sleeping? && Runnable(k.s, THREE) && k.clock == NAP
    ensures First(k, THREE) && Due2(k, [])
  {
    hide InvBut;
    assert [2] == [2] + [];
  }

  lemma Waked(k: K, d: K)
    requires Crew(k, TRIO, ONE) && Runnable(k.s, THREE) && At(k, THREE).call.NoCall? && At(k, THREE).owned == []
    requires At(k, ONE).call == IN_JOIN && !At(k, ONE).aborted && At(k, ONE).inode == In(JOINERS) && Awake2(k, d, TRIO, [])
    ensures Joining(d)
  {
    hide InvBut, Acts;
  }

  lemma EokForKilled() returns (ops: seq<Op>)
    ensures Lawful(Boot(), ops) && Genuine(Boot(), ops, true) && ToldWrong(Final(Boot(), ops))
  {
    hide Boot, Apply, Enabled, Lawful, Final, InvBut, EndedOtherwise, Leads, SemBlocks, Genuine, Fresh, Acts;
    Starts();
    var k, d, more;
    ops, k := MakesDuo([], Boot());
    Made(k, DUO, 3, 2, true);
    assert DUO[3 := 2] == TRIO;
    ops, k := Then(ops, k, OfTask(Create(3, 2, false, true)), true);
    more, d := ToJoining(k);
    Kills(d);
    more, d := Next(k, more, d, OfTask(KillTask(3)));
    more, d := Overwrites1(k, more, d, TRIO);
    Whole(ops, k, more, d);
    ops := ops + more;
  }
}
