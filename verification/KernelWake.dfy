/**
 Waking and blocking tasks keeps the kernel invariant.
 */
module KernelWake {
  import opened Lists
  import opened KernelState
  import opened KernelCalls
  import opened KernelLists
  import opened KernelTime
  import opened KernelInv

  // ---- on the task lists ----

  function Awake(s: S, t: Tid, o: Obj): S { AddReady(SetObj(s, t, o), t) }

  // wakeup_task for a task that is on no list
  lemma AwakeOk(s: S, t: Tid, o: Obj)
    requires Core(s) && States(s, {t}) && t in s.tasks && s.tasks[t].inode.Off?
    requires !s.tasks[t].state.Ready? && !s.tasks[t].state.Zombie?
    ensures var d := Awake(s, t, o);
            Core(d) && States(d, {}) && Only(s, d, t) && d.tasks[t] == s.tasks[t].(obj := o, state := Ready, elem := d.tasks[t].elem, inode := In(Node(d.tasks[t].elem)))
  {
    hide Core, Only, AddReady;
    CorePrios(s, t);
    var u := SetObj(s, t, o);
    CoreFloating(s, t, s.tasks[t].(obj := o));
    OnlyPut(s, t, s.tasks[t].(obj := o));
    AddReadyOk(u, t);
    var d := AddReady(u, t);
    OnlyTwice(s, u, d, t);
    KeepStates(s, d, t, {t});
    assert {t} - {t} == {};
  }

  // A task leaves the list of the object it waits for and becomes ready.
  lemma PulledOk(s: S, t: Tid, o: Obj)
    requires Core(s) && States(s, {}) && t in s.tasks && s.tasks[t].inode.In? && !s.tasks[t].inode.q.Node?
    requires !s.tasks[t].state.Ready? && !s.tasks[t].state.Zombie?
    ensures var d := Awake(ListDelete(s, t), t, o);
            Core(d) && States(d, {}) && Only(s, d, t) && d.tasks[t] == s.tasks[t].(obj := o, state := Ready, elem := d.tasks[t].elem, inode := In(Node(d.tasks[t].elem)))
  {
    hide Core, Only, AddReady, ListDelete, Awake;
    DeleteOk(s, t);
    var l := ListDelete(s, t);
    KeepStates(s, l, t, {});
    assert {} + {t} == {t};
    AwakeOk(l, t, o);
    OnlyTwice(s, l, Awake(l, t, o), t);
  }

  // ---- on the time lists ----

  lemma {:induction false} RemoveSorted(due: map<Tid, nat>, ts: seq<Tid>, t: Tid)
    requires TimeSorted(due, ts)
    ensures TimeSorted(due, Remove(ts, t)) && t !in Remove(ts, t)
    ensures forall x | x in Remove(ts, t) :: x in ts
    ensures forall x | x in ts && x != t :: x in Remove(ts, t)
  {
    assert NoDup(ts);
    RemoveFacts(ts, t);
    if t in ts {
      var i := RemoveAt(ts, t);
      var r := Remove(ts, t);
      hide Remove;
      assert forall a | 0 <= a < |r| :: r[a] == ts[if a < i then a else a + 1];
    } else {
      RemoveNone(ts, t);
    }
  }

  lemma TimeDeleteOk(c: Clock, t: Tid)
    requires TimeInv(c)
    ensures TimeInv(TimeDelete(c, t)) && !Timed(TimeDelete(c, t), t)
    ensures forall x | x != t :: Timed(TimeDelete(c, t), x) <==> Timed(c, x)
  {
    RemoveSorted(c.due, c.cur, t);
    RemoveSorted(c.due, c.ovf, t);
    hide Remove;
    var d := TimeDelete(c, t);
    forall i | 0 <= i < |d.cur| ensures d.cur[i] !in d.ovf && d.jiffies < d.due[d.cur[i]] < TICKS { assert d.cur[i] in c.cur; }
    forall i | 0 <= i < |d.ovf| ensures d.due[d.ovf[i]] < d.jiffies { assert d.ovf[i] in c.ovf; }
  }

  // ---- on the whole state ----

  // A change to one task that fits the accounts of the objects: it keeps its mutexes, may
  // start to wait for a mutex held by somebody else or for event bits that are not there.
  ghost predicate Quiet(s: S, d: S, t: Tid, sems: map<nat, Semaphore>, mtx: map<nat, Mutex>, evts: map<nat, bv32>) {
    && Only(s, d, t)
    && d.tasks[t].owned == s.tasks[t].owned
    && (d.tasks[t].owned != [] ==> !d.tasks[t].state.Zombie? && !d.tasks[t].state.Exited?)
    && (Finished(d, t) ==> Finished(s, t))
    && (d.tasks[t].inode != s.tasks[t].inode && d.tasks[t].inode.In? && d.tasks[t].inode.q.ExitQ? ==> !Finished(d, d.tasks[t].inode.q.t))
    && (d.tasks[t].inode.In? && d.tasks[t].inode.q.MtxQ? && d.tasks[t].inode != s.tasks[t].inode ==>
          var m := d.tasks[t].inode.q.m; m in mtx && mtx[m].owner.Held? && mtx[m].owner.t != t)
    && (d.tasks[t].inode.In? && d.tasks[t].inode.q.EvtQ? ==>
          || (d.tasks[t].inode == s.tasks[t].inode && d.tasks[t].obj == s.tasks[t].obj)
          || (d.tasks[t].obj.Bits? && (d.tasks[t].inode.q.e in evts ==> !CheckCond2(evts[d.tasks[t].inode.q.e], d.tasks[t].obj.b))))
    && (s.tasks[t].inode == In(Zombies) <==> d.tasks[t].inode == In(Zombies))
    && (forall i | i in sems :: s.tasks[t].inode == In(SemQ(i)) <==> d.tasks[t].inode == In(SemQ(i)))
    && CallOk(d.tasks[t], t, mtx)
  }

  lemma CoreLinks(s: S)
    requires Core(s)
    ensures Links(s) && !s.bug
  {
  }

  lemma ZombieList(k: K, sems: map<nat, Semaphore>, mtx: map<nat, Mutex>)
    requires InvBut(k, sems, mtx)
    ensures Zombies in k.s.queues
  {
  }

  lemma StateOf(k: K, t: Tid, sems: map<nat, Semaphore>, mtx: map<nat, Mutex>)
    requires InvBut(k, sems, mtx) && t in k.s.tasks
    ensures StateOk(k.s.tasks[t]) && CallOk(k.s.tasks[t], t, mtx)
    ensures t == IDLE ==> Runnable(k.s, t)
    ensures Timed(k.clock, t) ==> Sleepy(k.s.tasks[t].state)
    ensures k.s.tasks[t].owned != [] ==> !k.s.tasks[t].state.Zombie? && !k.s.tasks[t].state.Exited?
  {
    if k.s.tasks[t].owned != [] {
      var m := k.s.tasks[t].owned[0];
      assert m in k.s.tasks[t].owned;
      assert OwnerOk(k.s, m, mtx[m]);
    }
  }

  // The parts of the invariant that do not speak of mutexes, semaphores and pending calls.
  lemma Rebuild(k: K, d: S, t: Tid, sems0: map<nat, Semaphore>, mtx0: map<nat, Mutex>, sems: map<nat, Semaphore>, mtx: map<nat, Mutex>)
    requires InvBut(k, sems0, mtx0) && Core(d) && States(d, {}) && Only(k.s, d, t)
    requires Own(d, mtx) && Sems(d, sems) && Calls(d, mtx)
    requires d.tasks[t].state.Running? ==> t == k.current
    requires t == IDLE ==> Runnable(d, t)
    requires Timed(k.clock, t) ==> Sleepy(d.tasks[t].state)
    requires Finished(d, t) ==> Finished(k.s, t) || Queue(d, ExitQ(t)) == []
    requires d.tasks[t].inode != k.s.tasks[t].inode && d.tasks[t].inode.In? && d.tasks[t].inode.q.ExitQ? ==> !Finished(d, d.tasks[t].inode.q.t)
    requires d.tasks[t].inode.In? && d.tasks[t].inode.q.EvtQ? ==>
               || (d.tasks[t].inode == k.s.tasks[t].inode && d.tasks[t].obj == k.s.tasks[t].obj)
               || (d.tasks[t].obj.Bits? && (d.tasks[t].inode.q.e in k.evts ==> !CheckCond2(k.evts[d.tasks[t].inode.q.e], d.tasks[t].obj.b)))
    ensures InvBut(k.(s := d, deleted := |Queue(d, Zombies)|), sems, mtx)
    ensures (k.s.tasks[t].inode == In(Zombies) <==> d.tasks[t].inode == In(Zombies)) ==> |Queue(d, Zombies)| == k.deleted
  {
    hide Core, States, TimeInv, TimeStates, Objects, OneRunning, Own, Sems, Events, Calls, Exits, Only, Links, CallOk, CheckCond2;
    ZombieList(k, sems0, mtx0);
    OnlyHas(k.s, d, t);
    CoreLinks(k.s);
    CoreLinks(d);
    KeepObjects(k.s, d, t, k.sems, k.mtx, k.evts);
    KeepEvents(k.s, d, t, k.evts);
    KeepRunning(k.s, d, t, k.current);
    KeepTimes(k.s, d, t, k.clock);
    KeepExits(k.s, d, t);
    if k.s.tasks[t].inode == In(Zombies) <==> d.tasks[t].inode == In(Zombies) { KeepZombies(k.s, d, t); }
  }

  lemma QuietOk(k: K, d: S, t: Tid, sems: map<nat, Semaphore>, mtx: map<nat, Mutex>)
    requires InvBut(k, sems, mtx) && Quiet(k.s, d, t, sems, mtx, k.evts) && Core(d) && States(d, {})
    requires d.tasks[t].state.Running? ==> t == k.current
    requires t == IDLE ==> Runnable(d, t)
    requires Timed(k.clock, t) ==> Sleepy(d.tasks[t].state)
    ensures InvBut(k.(s := d), sems, mtx)
  {
    hide Core, States, TimeInv, TimeStates, Objects, OneRunning, Own, Sems, Events, Calls, Exits, Only, Links, CallOk, CheckCond2;
    CoreLinks(k.s);
    CoreLinks(d);
    KeepOwn(k.s, d, t, mtx);
    KeepSems(k.s, d, t, sems);
    KeepCalls(k.s, d, t, mtx);
    Rebuild(k, d, t, sems, mtx, sems, mtx);
  }

  // The result of waking t from a wait list with message o.
  ghost predicate Woken(k: K, d: K, t: Tid, o: Obj) {
    && Only(k.s, d.s, t) && d == k.(s := d.s, clock := TimeDelete(k.clock, t))
    && d.s.tasks[t] == k.s.tasks[t].(obj := o, state := Ready, elem := d.s.tasks[t].elem, inode := In(Node(d.s.tasks[t].elem)))
  }

  lemma WakeOne(k: K, t: Tid, o: Obj, sems: map<nat, Semaphore>, mtx: map<nat, Mutex>)
    requires InvBut(k, sems, mtx) && t in k.s.tasks && k.s.tasks[t].inode.In?
    requires !k.s.tasks[t].inode.q.Node? && k.s.tasks[t].inode.q != Zombies
    requires k.s.tasks[t].inode.q.SemQ? ==> k.s.tasks[t].inode.q.s !in sems
    requires CallOk(k.s.tasks[t].(obj := o, state := Ready), t, mtx)
    ensures var d := WakeUp(k.(s := ListDelete(k.s, t)), t, o); InvBut(d, sems, mtx) && Woken(k, d, t, o)
  {
    hide ListDelete, AddReady, SetObj, Core, States, Only, TimeDelete, InvBut, Timed;
    StateOf(k, t, sems, mtx);
    CoreOf(k, sems, mtx);
    PulledOk(k.s, t, o);
    ClockDelete(k, t, sems, mtx);
    QuietOk(k.(clock := TimeDelete(k.clock, t)), Awake(ListDelete(k.s, t), t, o), t, sems, mtx);
  }

  lemma CoreOf(k: K, sems: map<nat, Semaphore>, mtx: map<nat, Mutex>)
    requires InvBut(k, sems, mtx)
    ensures Core(k.s) && States(k.s, {}) && TimeInv(k.clock)
  {
  }

  lemma ClockDelete(k: K, t: Tid, sems: map<nat, Semaphore>, mtx: map<nat, Mutex>)
    requires InvBut(k, sems, mtx)
    ensures InvBut(k.(clock := TimeDelete(k.clock, t)), sems, mtx) && !Timed(TimeDelete(k.clock, t), t)
  {
    TimeDeleteOk(k.clock, t);
    hide Core, States, TimeInv, Objects, OneRunning, Own, Sems, Events, Calls, Exits, TimeDelete;
  }

  // ---- blocking the current task ----

  // _isixp_set_sleep after some fields of the task were set
  lemma AsleepOk(s: S, t: Tid, r: Task, st: State)
    requires Core(s) && States(s, {}) && Runnable(s, t)
    requires r == s.tasks[t].(call := r.call, aborted := r.aborted, token := r.token, obj := r.obj)
    ensures var d := SetSleep(Put(s, t, r), t, st);
            Core(d) && States(d, {t}) && Only(s, d, t) && d.tasks[t] == r.(state := st, inode := Off)
  {
    hide Core, States, Only, DelReady;
    CorePrios(s, t);
    var u := Put(s, t, r);
    CoreSameLinks(s, t, r);
    OnlyPut(s, t, r);
    ReadyLinked(s, t);
    DelReadyOk(u, t);
    var l := DelReady(u, t);
    CoreFloating(l, t, l.tasks[t].(state := st));
    OnlyPut(l, t, l.tasks[t].(state := st));
    var d := SetState(l, t, st);
    OnlyTwice(s, u, l, t);
    OnlyTwice(s, l, d, t);
    KeepStates(s, d, t, {});
    assert {} + {t} == {t};
  }

  lemma ReadyLinked(s: S, t: Tid)
    requires States(s, {}) && Runnable(s, t)
    ensures s.tasks[t].inode == In(Node(s.tasks[t].elem))
  {
    assert StateOk(s.tasks[t]);
  }

  // The task joins the list q; afterwards obj is set.
  lemma JoinedOk(s: S, l: S, t: Tid, q: Qid, o: Obj)
    requires Core(l) && States(l, {t}) && Only(s, l, t) && l.tasks[t].inode.Off? && q in l.queues && !q.Node?
    requires StateOk(l.tasks[t].(inode := In(q), obj := o))
    ensures var d := SetObj(if PrioQ(q) then AddToPrioQueue(l, q, t) else InsertEnd(l, q, t), t, o);
            Core(d) && States(d, {}) && Only(s, d, t) && d.tasks[t] == l.tasks[t].(inode := In(q), obj := o)
  {
    hide Core, States, Only, AddToPrioQueue, InsertEnd;
    var e := if PrioQ(q) then AddToPrioQueue(l, q, t) else InsertEnd(l, q, t);
    OnlyHas(s, l, t);
    if PrioQ(q) { AddToPrioQueueOk(l, q, t); } else { InsertEndOk(l, q, t); }
    CorePrios(e, t);
    CoreSameLinks(e, t, e.tasks[t].(obj := o));
    OnlyPut(e, t, e.tasks[t].(obj := o));
    var d := SetObj(e, t, o);
    OnlyTwice(s, l, e, t);
    OnlyTwice(s, e, d, t);
    OnlyTwice(l, e, d, t);
    KeepStates(l, d, t, {t});
    assert {t} - {t} == {};
  }

  lemma OnlyHas(s: S, d: S, t: Tid)
    requires Only(s, d, t)
    ensures t in s.tasks && t in d.tasks
  {
  }

  lemma HasQueue(s: S, d: S, t: Tid, q: Qid)
    requires Only(s, d, t) && !q.Node?
    ensures q in d.queues <==> q in s.queues
  {
  }

  lemma FinishedKept(s: S, d: S, t: Tid, x: Tid)
    requires Only(s, d, t)
    ensures x != t ==> (Finished(d, x) <==> Finished(s, x))
  {
    OnlyKeys(s, d, t);
    hide Only;
  }

  lemma ClockAdd(k: K, t: Tid, timeout: nat, sems: map<nat, Semaphore>, mtx: map<nat, Mutex>)
    requires InvBut(k, sems, mtx) && t in k.s.tasks && Sleepy(k.s.tasks[t].state) && !Timed(k.clock, t) && timeout < TICKS
    ensures InvBut(k.(clock := SetTimeout(k.clock, t, timeout)), sems, mtx)
  {
    hide Core, States, TimeInv, Objects, OneRunning, Own, Sems, Events, Calls, Exits, AddWaiting, TimePos;
    if timeout != INFINITE {
      var i := AddWaitingFacts(k.clock, t, timeout);
      TimedAfter(k.clock, AddWaiting(k.clock, t, timeout), t, timeout, i);
    }
  }

  lemma TimedAfter(c: Clock, d: Clock, t: Tid, timeout: nat, i: nat)
    requires PutToSleep(c, d, t, timeout, i)
    ensures forall x :: Timed(d, x) ==> x == t || Timed(c, x)
  {
    InsertFacts(Sleepers(c), i, t);
    hide Insert, Deadline;
    forall x | Timed(d, x) ensures x == t || Timed(c, x) { assert x in Sleepers(d); }
  }

  lemma JoinQuiet(s: S, d: S, c: Tid, r: Task, q: Qid, sems: map<nat, Semaphore>, mtx: map<nat, Mutex>, evts: map<nat, bv32>)
    requires Only(s, d, c) && s.tasks[c].inode.In? && s.tasks[c].inode.q.Node? && d.tasks[c] == r && r.owned == s.tasks[c].owned
    requires r.inode == In(q) && !q.Node? && q != Zombies && CallOk(r, c, mtx) && !r.state.Zombie? && !r.state.Exited?
    requires q.SemQ? ==> q.s !in sems
    requires q.MtxQ? ==> q.m in mtx && mtx[q.m].owner.Held? && mtx[q.m].owner.t != c
    requires q.ExitQ? ==> !Finished(s, q.t)
    requires q.EvtQ? ==> r.obj.Bits? && (q.e in evts ==> !CheckCond2(evts[q.e], r.obj.b))
    ensures Quiet(s, d, c, sems, mtx, evts)
  {
    hide Only, CallOk, CheckCond2;
    if q.ExitQ? { FinishedKept(s, d, c, q.t); }
  }

  lemma BlockTame(s: S, d: S, c: Tid)
    requires Core(s) && States(s, {}) && Core(d) && Only(s, d, c) && Runnable(s, c) && !OnMutex(d.tasks[c]) && !d.tasks[c].state.WtMtx?
    requires d.tasks[c].prio == s.tasks[c].prio && d.tasks[c].base == s.tasks[c].base && d.tasks[c].owned == s.tasks[c].owned
    ensures Tame(s, d)
  {
    hide Core, Only, Tame, States, Links;
    ReadyLinked(s, c);
    CoreLinks(s);
    CoreLinks(d);
    TameOnly(s, d, c);
  }

  // The current task blocks on the list q, with an optional timeout.
  lemma BlockInv(k: K, r: Task, st: State, q: Qid, o: Obj, timeout: nat, sems: map<nat, Semaphore>, mtx: map<nat, Mutex>)
    requires InvBut(k, sems, mtx) && Runnable(k.s, k.current) && k.current != IDLE && timeout < TICKS
    requires r == k.s.tasks[k.current].(call := r.call, aborted := r.aborted, token := r.token, obj := r.obj)
    requires q in k.s.queues && !q.Node? && q != Zombies
    requires StateOk(r.(state := st, inode := In(q), obj := o)) && CallOk(r.(state := st, inode := In(q), obj := o), k.current, mtx)
    requires !st.Zombie? && !st.Exited? && !st.Running? && (Sleepy(st) || timeout == INFINITE)
    requires q.SemQ? ==> q.s !in sems
    requires q.MtxQ? ==> q.m in mtx && mtx[q.m].owner.Held? && mtx[q.m].owner.t != k.current
    requires q.ExitQ? ==> !Finished(k.s, q.t)
    requires q.EvtQ? ==> o.Bits? && (q.e in k.evts ==> !CheckCond2(k.evts[q.e], o.b))
    ensures var l := SetSleep(Put(k.s, k.current, r), k.current, st);
            var d := SetObj(if PrioQ(q) then AddToPrioQueue(l, q, k.current) else InsertEnd(l, q, k.current), k.current, o);
            InvBut(k.(s := d, clock := SetTimeout(k.clock, k.current, timeout)), sems, mtx)
            && Only(k.s, d, k.current) && d.tasks[k.current] == r.(state := st, inode := In(q), obj := o)
            && (!q.MtxQ? && !st.WtMtx? ==> Tame(k.s, d))
  {
    hide Core, States, Only, InvBut, SetSleep, AddToPrioQueue, InsertEnd, SetObj, StateOk, CallOk, CheckCond2, Timed, Quiet, Tame;
    var c := k.current;
    CoreOf(k, sems, mtx);
    AsleepOk(k.s, c, r, st);
    var l := SetSleep(Put(k.s, c, r), c, st);
    HasQueue(k.s, l, c, q);
    JoinedOk(k.s, l, c, q, o);
    var d := SetObj(if PrioQ(q) then AddToPrioQueue(l, q, c) else InsertEnd(l, q, c), c, o);
    ReadyLinked(k.s, c);
    StateOf(k, c, sems, mtx);
    JoinQuiet(k.s, d, c, r.(state := st, inode := In(q), obj := o), q, sems, mtx, k.evts);
    QuietOk(k.(clock := k.clock), d, c, sems, mtx);
    OnlyHas(k.s, d, c);
    if !q.MtxQ? && !st.WtMtx? { BlockTame(k.s, d, c); }
    if timeout != INFINITE { ClockAdd(k.(s := d), c, timeout, sems, mtx); }
  }
}
