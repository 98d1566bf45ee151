/**
 The task switch, the tick and the continuation of blocked calls keep the kernel invariant
 (libisix/kernel/scheduler.c).
 */
module KernelSched {
  import opened Lists
  import opened KernelState
  import opened KernelCalls
  import opened KernelLists
  import opened KernelTime
  import opened KernelInv
  import opened KernelWake
  import opened KernelMutex
  import opened KernelObjects
  import opened KernelEvents
  import opened KernelTasks

  // ---- _isixp_schedule ----

  // The list of one node in another order.
  lemma Reordered(s: S, d: S, t: Tid, n: nat)
    requires Core(s) && t in s.tasks && s.tasks[t].inode == In(Node(n)) && Node(n) in s.queues && Node(n) in d.queues
    requires d == s.(tasks := s.tasks[t := s.tasks[t].(state := Ready)], queues := s.queues[Node(n) := d.queues[Node(n)]], line := d.line)
    requires InLine(d) && NoDup(d.queues[Node(n)]) && (forall x :: x in d.queues[Node(n)] <==> x in s.queues[Node(n)])
    ensures Core(d) && Only(s, d, t)
  {
    hide NoDup, Ascending, Remove, InLine;
    assert Links(d);
    assert t in s.queues[Node(n)];
    assert NodeOrder(d);
    assert NodePrio(d);
    forall q | q in d.queues && PrioQ(q) ensures Sorted(d, d.queues[q]) { assert Sorted(s, s.queues[q]); }
  }

  lemma RotateIs(s: S, t: Tid)
    requires Core(s) && t in s.tasks && s.tasks[t].state.Running? && StateOk(s.tasks[t])
    ensures var d := Rotate(s, t); var n := s.tasks[t].elem;
            Node(n) in s.queues && d == s.(tasks := s.tasks[t := s.tasks[t].(state := Ready)], queues := d.queues, line := Came(s.line, t))
            && d.queues == s.queues[Node(n) := Insert(Remove(s.queues[Node(n)], t), |Remove(s.queues[Node(n)], t)|, t)]
  {
    hide NodeOrder, NodePrio, QueuesSorted, Prios, Remove, Insert, InLine, NoDup;
    assert t in s.queues[Node(s.tasks[t].elem)];
  }

  lemma RotateLine(s: S, t: Tid)
    requires Core(s) && t in s.tasks && s.tasks[t].state.Running? && StateOk(s.tasks[t])
    ensures InLine(Rotate(s, t))
  {
    hide NodeOrder, NodePrio, QueuesSorted, Prios, Remove, Insert, InLine, NoDup;
    var l := ListDelete(s, t);
    assert t in s.queues[Node(s.tasks[t].elem)];
    LinksDelete(s, t);
    LineDelete(s, t);
    var q := Node(s.tasks[t].elem);
    LinksInsert(l, q, |l.queues[q]|, t);
    LineInsert(l, q, |l.queues[q]|, t);
    var e := InsertEnd(l, q, t);
    hide Links;
    LinePut(e, t, e.tasks[t].(state := Ready));
  }

  lemma RotateOk(s: S, t: Tid)
    requires Core(s) && States(s, {}) && t in s.tasks
    ensures var d := Rotate(s, t);
            Core(d) && States(d, {}) && Only(s, d, t)
            && d.tasks[t] == if s.tasks[t].state.Running? then s.tasks[t].(state := Ready) else s.tasks[t]
  {
    hide Core, States, Only, Rotate, Insert, Remove;
    StateAt(s, t);
    if s.tasks[t].state.Running? {
      RotateIs(s, t);
      RotateLine(s, t);
      var n := s.tasks[t].elem;
      var q := s.queues[Node(n)];
      QueueNoDup(s, Node(n));
      CoreLinked(s, t);
      RemoveFacts(q, t);
      InsertFacts(Remove(q, t), |Remove(q, t)|, t);
      Reordered(s, Rotate(s, t), t, n);
      KeepStates(s, Rotate(s, t), t, {});
      assert {} - {t} == {};
    } else {
      NoRotate(s, t);
    }
  }

  lemma NoRotate(s: S, t: Tid)
    requires t in s.tasks && !s.tasks[t].state.Running?
    ensures Rotate(s, t) == s && Only(s, s, t)
  {
    OnlyPut(s, t, s.tasks[t]);
    assert Put(s, t, s.tasks[t]) == s;
  }

  lemma SwitchTame(s: S, d: S, t: Tid)
    requires Core(s) && Core(d) && Only(s, d, t) && s.tasks[t].prio == d.tasks[t].prio && s.tasks[t].base == d.tasks[t].base
    requires s.tasks[t].owned == d.tasks[t].owned && !OnMutex(s.tasks[t]) && !OnMutex(d.tasks[t]) && Runnable(s, t) && Runnable(d, t)
    ensures Tame(s, d)
  {
    hide Core, Only, Tame, Links;
    CoreLinks(s);
    CoreLinks(d);
    TameOnly(s, d, t);
  }

  // Nobody is marked running once the current task has been rotated.
  lemma RotateInv(k: K)
    requires Inv(k)
    ensures Inv(k.(s := Rotate(k.s, k.current))) && (forall x | x in Rotate(k.s, k.current).tasks :: !Rotate(k.s, k.current).tasks[x].state.Running?)
    ensures Tame(k.s, Rotate(k.s, k.current))
  {
    hide Core, States, InvBut, Only, Rotate, Timed, CheckCond2, CallArgs, Tame;
    var c := k.current;
    CurrentThere(k);
    CoreOf(k, k.sems, k.mtx);
    RotateOk(k.s, c);
    StateOf(k, c, k.sems, k.mtx);
    OnlyHas(k.s, Rotate(k.s, c), c);
    QuietOk(k, Rotate(k.s, c), c, k.sems, k.mtx);
    if k.s.tasks[c].state.Running? { SwitchTame(k.s, Rotate(k.s, c), c); } else { NoRotate(k.s, c); TameSelf(k.s); }
    forall x | x in Rotate(k.s, c).tasks ensures !Rotate(k.s, c).tasks[x].state.Running? {
      OneRunningOf(k.(s := Rotate(k.s, c)), x, k.sems, k.mtx);
    }
  }

  // The idle task keeps the ready list from being empty.
  lemma HeadThere(s: S)
    requires Core(s) && States(s, {}) && Runnable(s, IDLE)
    ensures s.ready != [] && Node(s.ready[0]) in s.queues && s.queues[Node(s.ready[0])] != []
    ensures var t := s.queues[Node(s.ready[0])][0];
            t in s.tasks && s.ready[0] in s.nprio && s.tasks[t].prio == s.nprio[s.ready[0]] && Runnable(s, t)
  {
    hide Ascending, QueuesSorted, Prios, NoDup;
    assert StateOk(s.tasks[IDLE]);
    var e := s.tasks[IDLE].elem;
    assert IDLE in s.queues[Node(e)];
    assert e in s.ready;
    assert s.ready[0] in s.ready;
    var t := s.queues[Node(s.ready[0])][0];
    assert t in s.queues[Node(s.ready[0])];
    assert StateOk(s.tasks[t]);
  }

  lemma HeadMostUrgent(s: S, x: Tid)
    requires Core(s) && States(s, {}) && Runnable(s, x) && s.ready != []
    ensures s.ready[0] in s.nprio && s.nprio[s.ready[0]] <= s.tasks[x].prio
  {
    hide QueuesSorted, Prios, NoDup;
    assert StateOk(s.tasks[x]);
    var e := s.tasks[x].elem;
    assert x in s.queues[Node(e)];
    assert e in s.ready;
    var i :| 0 <= i < |s.ready| && s.ready[i] == e;
  }

  lemma RunInv(k: K, t: Tid)
    requires Inv(k) && t in k.s.tasks && k.s.tasks[t].state.Ready? && (forall x | x in k.s.tasks :: !k.s.tasks[x].state.Running?)
    ensures Inv(k.(s := SetState(k.s, t, Running), current := t)) && Tame(k.s, SetState(k.s, t, Running))
  {
    hide Tame, Core, States, InvBut, Only, Timed, CheckCond2, CallArgs;
    var r := k.s.tasks[t].(state := Running);
    CoreOf(k, k.sems, k.mtx);
    StateOf(k, t, k.sems, k.mtx);
    CorePrios(k.s, t);
    CoreSameLinks(k.s, t, r);
    OnlyPut(k.s, t, r);
    KeepStates(k.s, Put(k.s, t, r), t, {});
    assert {} - {t} == {};
    SetCurrent(k, t);
    QuietOk(k.(current := t), Put(k.s, t, r), t, k.sems, k.mtx);
    SwitchTame(k.s, Put(k.s, t, r), t);
  }

  lemma SetCurrent(k: K, t: Tid)
    requires Inv(k) && t in k.s.tasks && (forall x | x in k.s.tasks :: !k.s.tasks[x].state.Running?)
    ensures Inv(k.(current := t))
  {
    hide Core, States, TimeInv, TimeStates, Objects, Own, Sems, Events, Calls, Exits;
  }

  ghost predicate MostUrgent(s: S, t: Tid) {
    t in s.tasks && (forall x | Runnable(s, x) :: s.tasks[t].prio <= s.tasks[x].prio)
  }

  // The switch never hits a panic and runs a most urgent task.
  lemma SwitchInv(k: K)
    requires Inv(k)
    ensures var d := Switch(k);
            Inv(d) && d == k.(s := d.s, current := d.current) && MostUrgent(d.s, d.current) && d.s.tasks[d.current].state.Running?
            && Tame(k.s, d.s)
  {
    hide Tame, Core, States, InvBut, Only, Rotate;
    RotateInv(k);
    var d := Rotate(k.s, k.current);
    var k1 := k.(s := d);
    CoreOf(k1, k.sems, k.mtx);
    CurrentThere(k1);
    IdleRuns(k1);
    HeadThere(d);
    var t := d.queues[Node(d.ready[0])][0];
    assert d.tasks[t].state.Ready?;
    RunInv(k1, t);
    TameTwice(k.s, d, SetState(d, t, Running));
    forall x | Runnable(SetState(d, t, Running), x) ensures d.tasks[t].prio <= SetState(d, t, Running).tasks[x].prio {
      HeadMostUrgent(d, x);
    }
  }

  lemma IdleRuns(k: K)
    requires Inv(k)
    ensures Runnable(k.s, IDLE)
  {
  }

  // ---- the tick ----

  lemma TimedOutOk(s: S, t: Tid)
    requires Core(s) && States(s, {}) && t in s.tasks && Sleepy(s.tasks[t].state)
    ensures var d := AddReady(TimedOut(s, t), t);
            Core(d) && States(d, {}) && Only(s, d, t)
            && d.tasks[t] == s.tasks[t].(obj := if s.tasks[t].state.Sleeping? then s.tasks[t].obj else Msg(ETIMEOUT), state := Ready,
                                         elem := d.tasks[t].elem, inode := In(Node(d.tasks[t].elem)))
  {
    hide Core, States, Only, AddReady, ListDelete;
    StateAt(s, t);
    if s.tasks[t].state.Sleeping? {
      StatesBut(s, t);
      AwakeOk(s, t, s.tasks[t].obj);
      assert SetObj(s, t, s.tasks[t].obj) == s;
    } else {
      PulledOk(s, t, Msg(ETIMEOUT));
    }
  }

  lemma TimedOutCall(r: Task, t: Tid, mtx: map<nat, Mutex>)
    requires CallOk(r, t, mtx) && StateOk(r) && Sleepy(r.state)
    ensures CallOk(r.(obj := if r.state.Sleeping? then r.obj else Msg(ETIMEOUT), state := Ready), t, mtx)
  {
    hide CallArgs;
  }

  lemma WakeTimedOutInv(k: K, t: Tid)
    requires Inv(k) && t in k.s.tasks && Sleepy(k.s.tasks[t].state)
    ensures var d := WakeTimedOut(k, t);
            Inv(d.(clock := TimeDelete(k.clock, t))) && Only(k.s, d.s, t) && d == k.(s := d.s, sems := d.sems) && Tame(k.s, d.s)
  {
    hide Tame, Core, States, InvBut, Only, AddReady, TimedOut, TimeDelete, Timed, CallOk, StateOk, CheckCond2, ReturnToken;
    var r := k.s.tasks[t];
    var sems := Left(k.sems, r);
    CoreOf(k, k.sems, k.mtx);
    StateOf(k, t, k.sems, k.mtx);
    TimedOutOk(k.s, t);
    TimedOutCall(r, t, k.mtx);
    LeftInv(k, r);
    LeftQueues(r, k.sems);
    NotBuried(r);
    ClockDelete(k, t, sems, k.mtx);
    var d := AddReady(TimedOut(k.s, t), t);
    OnlyHas(k.s, d, t);
    CallPlace(d.tasks[t], r.(obj := if r.state.Sleeping? then r.obj else Msg(ETIMEOUT), state := Ready), t, k.mtx);
    var k1 := k.(clock := TimeDelete(k.clock, t));
    QuietOk(k1, d, t, sems, k.mtx);
    ReturnInv(k, k1.(s := d), t);
    OffTame(k.s, d, t);
  }

  lemma CallPlace(r: Task, q: Task, t: Tid, mtx: map<nat, Mutex>)
    requires CallOk(q, t, mtx) && r == q.(elem := r.elem, inode := r.inode)
    ensures CallOk(r, t, mtx)
  {
    hide CallArgs;
  }

  function DeleteAll(c: Clock, ts: seq<Tid>): Clock
    decreases |ts|
  {
    if ts == [] then c else DeleteAll(TimeDelete(c, ts[0]), ts[1..])
  }

  lemma {:induction false} WakeEachInv(k: K, ts: seq<Tid>)
    requires Inv(k) && NoDup(ts) && (forall t | t in ts :: t in k.s.tasks && Sleepy(k.s.tasks[t].state))
    ensures var d := WakeEach(k, ts);
            Inv(d.(clock := DeleteAll(k.clock, ts))) && d.s.tasks.Keys == k.s.tasks.Keys && Tame(k.s, d.s)
            && (forall x | x in k.s.tasks && x !in ts :: d.s.tasks[x] == k.s.tasks[x])
    decreases |ts|
  {
    hide InvBut, WakeTimedOut, Only, TimeDelete, Sleepy, Tame;
    TameSelf(k.s);
    if ts != [] {
      var t := ts[0];
      assert t in ts && t !in ts[1..] && NoDup(ts[1..]);
      WakeTimedOutInv(k, t);
      var d := WakeTimedOut(k, t);
      var c := TimeDelete(k.clock, t);
      OnlyKeys(k.s, d.s, t);
      WakeEachInv(d.(clock := c), ts[1..]);
      WakeEachClock(d, ts[1..], c);
      TameTwice(k.s, d.s, WakeEach(k, ts).s);
    }
  }

  // Any lawful clock whose sleepers still sleep will do.
  lemma ClockInv(k: K, c: Clock)
    requires Inv(k) && TimeInv(c) && TimeStates(k.s, c)
    ensures Inv(k.(clock := c))
  {
    hide Core, States, TimeInv, TimeStates, Objects, OneRunning, Own, Sems, Events, Calls, Exits;
  }

  lemma AsleepAll(k: K)
    requires Inv(k)
    ensures forall t | t in Sleepers(k.clock) :: t in k.s.tasks && Sleepy(k.s.tasks[t].state)
    ensures NoDup(Sleepers(k.clock))
  {
    hide Core, States, Objects, OneRunning, Own, Sems, Events, Calls, Exits, Sleepy, Deadline;
    SleepersOrdered(k.clock);
    forall t | t in Sleepers(k.clock) ensures t in k.s.tasks && Sleepy(k.s.tasks[t].state) { assert Timed(k.clock, t); }
  }

  lemma StillAsleep(k: K, d: K, i: nat)
    requires i <= |Sleepers(k.clock)| && Sleepers(d.clock) == Sleepers(k.clock)[i..] && NoDup(Sleepers(k.clock))
    requires forall t | t in Sleepers(k.clock) :: t in k.s.tasks && Sleepy(k.s.tasks[t].state)
    requires d.s.tasks.Keys == k.s.tasks.Keys
    requires forall x | x in k.s.tasks && x !in Sleepers(k.clock)[..i] :: d.s.tasks[x] == k.s.tasks[x]
    ensures TimeStates(d.s, d.clock)
  {
    hide Sleepy;
    var q := Sleepers(k.clock);
    forall t | Timed(d.clock, t) ensures t in d.s.tasks && Sleepy(d.s.tasks[t].state) {
      assert t in Sleepers(d.clock);
      var j :| i <= j < |q| && q[j] == t;
      assert t !in q[..i];
      assert t in q;
    }
  }

  lemma AdvanceInv(k: K, n: nat)
    requires Inv(k)
    ensures Inv(Advance(k, n)) && Tame(k.s, Advance(k, n).s)
  {
    hide InvBut, Tame, Advance, WakeEach, Core, States, Sleepers, DeleteAll;
    CoreOf(k, k.sems, k.mtx);
    var i := AdvanceWakes(k, n);
    var d := Advance(k, n);
    var q := Sleepers(k.clock);
    AsleepAll(k);
    Prefix(q, i);
    WakeEachInv(k, q[..i]);
    var w := WakeEach(k, q[..i]).(clock := DeleteAll(k.clock, q[..i]));
    StillAsleep(k, d, i);
    ClockInv(w, d.clock);
  }

  lemma Prefix(q: seq<Tid>, i: nat)
    requires i <= |q| && NoDup(q)
    ensures NoDup(q[..i]) && (forall x | x in q[..i] :: x in q)
  {
  }

  // ---- the rest of a blocked call ----

  // A call that starts over finds its object; using a destroyed object is the caller's error.
  predicate CanRetry(k: K) {
    k.current in k.s.tasks &&
    var r := k.s.tasks[k.current];
    match r.call
    case InSem(i, _, _) => r.aborted ==> i in k.sems
    case InEvent(e, _, _, _, _, _) => r.aborted ==> e in k.evts
    case _ => true
  }

  lemma ContinueInv(k: K)
    requires Inv(k) && Runnable(k.s, k.current) && k.current != IDLE && CanRetry(k)
    ensures Inv(Continue(k).k)
  {
    hide InvBut, CallOk, MutexLock, SemTake, WaitFor, EventTake, EventWait, SetCall, Elapsed, StateOk, Plain;
    DoneInv(k);
    var r := k.s.tasks[k.current];
    StateOf(k, k.current, k.sems, k.mtx);
    ArgsOf(r, k.current, k.mtx);
    var done := k.(s := SetCall(k.s, k.current, NoCall));
    match r.call
    case NoCall =>
    case InWait =>
    case InLock(m) => LockInv(done, m);
    case InCond(m) => LockInv(done, m);
    case InExit(t) => WaitForInv(done, t);
    case InSem(i, start, timeout) => if r.aborted { SemTakeInv(k, i, start, timeout); }
    case InEvent(e, bits, clear, all, start, timeout) => if r.aborted { EventTakeInv(k, e, bits, clear, all, start, timeout); }
    case InSync(e, bits, start, timeout) =>
      var elapsed := Elapsed(k.clock, start);
      if timeout == INFINITE || elapsed < timeout {
        EventWaitInv(done, e, bits, true, true, if timeout == INFINITE then INFINITE else timeout - elapsed);
      }
  }

  lemma ArgsOf(r: Task, t: Tid, mtx: map<nat, Mutex>)
    requires CallOk(r, t, mtx)
    ensures CallArgs(r.call)
  {
  }

  // A lock call that had to wait and returns EOK: one that was cut short and tried again, or
  // that follows a condition wait, owns its mutex; one that was not owns it if it still exists.
  lemma LockedOnReturn(k: K)
    requires Inv(k) && Runnable(k.s, k.current) && k.current != IDLE
    ensures var r := k.s.tasks[k.current]; var o := Continue(k);
            && ((r.call.InCond? || (r.call.InLock? && r.aborted)) && o.ret == Code(EOK) ==> OwnerOf(o.k, r.call.m) == Held(k.current))
            && (r.call.InLock? && o.ret == Code(EOK) ==> (OwnerOf(o.k, r.call.m) == Held(k.current) <==> r.call.m in o.k.mtx))
  {
    hide InvBut, MutexLock, SemTake, WaitFor, EventTake, EventWait, SetCall, StateOk, BitsOk;
    DoneInv(k);
    var r := k.s.tasks[k.current];
    StateOf(k, k.current, k.sems, k.mtx);
    var done := k.(s := SetCall(k.s, k.current, NoCall));
    if r.call.InLock? || r.call.InCond? { LockInv(done, r.call.m); }
  }
}
