/**
 Task calls keep the kernel invariant: suspend, resume, kill, create, change of priority,
 waiting for a task's end, sleeping, and the clean-up of ended tasks (libisix/kernel/task.c
 and the kill and suspend part of scheduler.c).
 */
module KernelTasks {
  import opened Lists
  import opened KernelState
  import opened KernelCalls
  import opened KernelLists
  import opened KernelTime
  import opened KernelInv
  import opened KernelWake
  import opened KernelMutex
  import opened KernelObjects
  import opened KernelCommute

  // ---- taking a task off its list ----

  function OffList(s: S, t: Tid): S {
    if t in s.tasks && (s.tasks[t].state.Ready? || s.tasks[t].state.Running?) then DelReady(s, t)
    else if t in s.tasks && s.tasks[t].inode.In? then ListDelete(s, t)
    else s
  }

  lemma OffListOk(s: S, t: Tid)
    requires Core(s) && t in s.tasks && StateOk(s.tasks[t])
    ensures var d := OffList(s, t); Core(d) && Only(s, d, t) && d.tasks[t] == s.tasks[t].(inode := Off)
  {
    hide Core, Only, DelReady, ListDelete;
    if s.tasks[t].state.Ready? || s.tasks[t].state.Running? {
      DelReadyOk(s, t);
    } else if s.tasks[t].inode.In? {
      DeleteOk(s, t);
    } else {
      OnlyPut(s, t, s.tasks[t]);
      assert Put(s, t, s.tasks[t]).tasks == s.tasks;
    }
  }

  predicate Retries(st: State) { st.WtEvt? || st.WtSem? || st.WtExit? || st.WtMtx? }

  function Parked(r: Task): Task {
    r.(inode := Off, state := Suspend, aborted := Retries(r.state) || r.aborted)
  }

  lemma ParkedCall(r: Task, t: Tid, mtx: map<nat, Mutex>)
    requires CallOk(r, t, mtx) && StateOk(r) && !r.state.Zombie? && !r.state.Exited?
    ensures CallOk(Parked(r), t, mtx) && StateOk(Parked(r))
  {
    hide CallArgs;
  }

  lemma ParkOk(s: S, t: Tid)
    requires Core(s) && States(s, {}) && t in s.tasks
    ensures var d := Put(OffList(s, t), t, Parked(s.tasks[t])); Core(d) && States(d, {}) && Only(s, d, t)
  {
    hide Core, Only, OffList, States;
    var r := Parked(s.tasks[t]);
    StateAt(s, t);
    OffListOk(s, t);
    var l := OffList(s, t);
    OnlyHas(s, l, t);
    CorePrios(s, t);
    CoreFloating(l, t, r);
    OnlyPut(l, t, r);
    OnlyTwice(s, l, Put(l, t, r), t);
    KeepStates(s, Put(l, t, r), t, {});
    assert {} - {t} == {};
  }

  lemma StateAt(s: S, t: Tid)
    requires States(s, {}) && t in s.tasks
    ensures StateOk(s.tasks[t])
  {
  }

  // The semaphore whose account a task leaves when it stops waiting.
  function Left(sems: map<nat, Semaphore>, r: Task): map<nat, Semaphore> {
    if r.state.WtSem? && r.obj.Sem? then sems - {r.obj.s} else sems
  }

  lemma LeftInv(k: K, r: Task)
    requires Inv(k)
    ensures InvBut(k, Left(k.sems, r), k.mtx)
  {
    hide InvBut;
    if r.state.WtSem? && r.obj.Sem? { SemsFewer(k, r.obj.s, k.mtx); }
  }

  lemma LeftQueues(r: Task, sems: map<nat, Semaphore>)
    requires StateOk(r)
    ensures forall i | i in Left(sems, r) :: r.inode != In(SemQ(i))
  {
  }

  // A task on no list any more: its token goes back to the semaphore it waited for.
  lemma ReturnInv(k: K, d: K, t: Tid)
    requires Inv(k) && t in k.s.tasks && Only(k.s, d.s, t) && d.sems == k.sems && d.mtx == k.mtx
    requires InvBut(d, Left(k.sems, k.s.tasks[t]), k.mtx)
    requires !(d.s.tasks[t].inode.In? && d.s.tasks[t].inode.q.SemQ?)
    ensures Inv(d.(sems := ReturnToken(k.sems, k.s.tasks[t])))
  {
    hide InvBut, Core, States, Only;
    var r := k.s.tasks[t];
    if r.state.WtSem? {
      StateOf(k, t, k.sems, k.mtx);
      var i := r.obj.s;
      CoreOf(k, k.sems, k.mtx);
      CoreOf(d, Left(k.sems, r), k.mtx);
      SemThere(k, t, i);
      SemOf(k, i, k.mtx);
      QueueLength(k.s, d.s, t, SemQ(i));
      SemClose(d, i, SemInc(k.sems[i]), k.mtx);
    }
  }

  lemma SemThere(k: K, t: Tid, i: nat)
    requires Inv(k) && t in k.s.tasks && k.s.tasks[t].inode == In(SemQ(i))
    ensures i in k.sems && |Queue(k.s, SemQ(i))| > 0
  {
    hide States, TimeInv, TimeStates, OneRunning, Own, Sems, Events, Calls, Exits;
    assert t in k.s.queues[SemQ(i)];
  }

  lemma ParkInv(k: K, t: Tid)
    requires Inv(k) && t in k.s.tasks && t != IDLE && !Finished(k.s, t)
    ensures var r := k.s.tasks[t]; var d := Put(OffList(k.s, t), t, Parked(r));
            Inv(k.(s := d, clock := TimeDelete(k.clock, t), sems := ReturnToken(k.sems, r))) && Only(k.s, d, t)
            && (!r.state.WtMtx? ==> Tame(k.s, d))
  {
    hide Core, States, InvBut, Only, OffList, TimeDelete, Timed, CallOk, StateOk, CheckCond2, ReturnToken, Tame;
    var r := k.s.tasks[t];
    var sems := Left(k.sems, r);
    CoreOf(k, k.sems, k.mtx);
    StateOf(k, t, k.sems, k.mtx);
    ParkOk(k.s, t);
    ParkedCall(r, t, k.mtx);
    LeftInv(k, r);
    LeftQueues(r, k.sems);
    ClockDelete(k, t, sems, k.mtx);
    var d := Put(OffList(k.s, t), t, Parked(r));
    NotBuried(r);
    var k1 := k.(clock := TimeDelete(k.clock, t));
    QuietOk(k1, d, t, sems, k.mtx);
    ReturnInv(k, k1.(s := d), t);
    if !r.state.WtMtx? { OffTame(k.s, d, t); }
  }

  lemma OffTame(s: S, d: S, t: Tid)
    requires Core(s) && Core(d) && Only(s, d, t) && StateOk(s.tasks[t]) && !s.tasks[t].state.WtMtx? && !OnMutex(d.tasks[t])
    requires SameInherit(s.tasks[t], d.tasks[t])
    ensures Tame(s, d)
  {
    hide Core, Only, Tame, Links;
    CoreLinks(s);
    CoreLinks(d);
    TameOnly(s, d, t);
  }

  lemma NotBuried(r: Task)
    requires StateOk(r) && !r.state.Zombie?
    ensures r.inode != In(Zombies)
  {
  }

  // ---- isix_task_suspend ----

  lemma MutexOwner(k: K, t: Tid, m: nat)
    requires Inv(k) && t in k.s.tasks && k.s.tasks[t].inode == In(MtxQ(m))
    ensures m in k.mtx && k.mtx[m].owner.Held? && k.mtx[m].owner.t != t && k.mtx[m].owner.t in k.s.tasks
  {
    hide States, TimeInv, TimeStates, OneRunning, Sems, Events, Calls, Exits, NodeOrder, NodePrio, QueuesSorted, Prios;
    assert t in k.s.queues[MtxQ(m)];
    assert OwnerOk(k.s, m, k.mtx[m]);
  }

  // The fields of the task are set after it has left its list; what it left behind is the same.
  lemma LeaveIs(s: S, mtx: map<nat, Mutex>, t: Tid)
    requires t in s.tasks && StateOk(s.tasks[t]) && !s.tasks[t].state.WtMtx? && !Finished(s, t)
    requires t in OffList(s, t).tasks && OffList(s, t).tasks[t] == s.tasks[t].(inode := Off)
    ensures SetState(LeaveQueue(s, mtx, t, true), t, Suspend) == Put(OffList(s, t), t, Parked(s.tasks[t]))
  {
    hide DelReady, ListDelete;
  }

  lemma LeaveMutexIs(s: S, mtx: map<nat, Mutex>, t: Tid, o: Tid)
    requires t in s.tasks && StateOk(s.tasks[t]) && s.tasks[t].state.WtMtx? && o != t
    requires s.tasks[t].obj.m in mtx && mtx[s.tasks[t].obj.m].owner == Held(o)
    requires t in OffList(s, t).tasks && OffList(s, t).tasks[t] == s.tasks[t].(inode := Off) && o in OffList(s, t).tasks
    ensures SetState(LeaveQueue(s, mtx, t, true), t, Suspend) == Reinherit(Put(OffList(s, t), t, Parked(s.tasks[t])), o)
  {
    hide DelReady, ListDelete, Reinherit;
    var l := OffList(s, t);
    ReinheritKeeps(l, t, o);
    ReinheritOther(l, t, Parked(s.tasks[t]), o);
  }

  // The state between leaving the list and the owner's new priority.
  function Park(k: K, t: Tid): K
    requires t in k.s.tasks
  {
    k.(s := Put(OffList(k.s, t), t, Parked(k.s.tasks[t])), clock := TimeDelete(k.clock, t), sems := ReturnToken(k.sems, k.s.tasks[t]))
  }

  lemma SuspendIs(k: K, t: Tid)
    requires Inv(k) && t in k.s.tasks && t != IDLE && !Finished(k.s, t)
    ensures var r := k.s.tasks[t]; var e := Park(k, t).s;
            && e.tasks.Keys == k.s.tasks.Keys && e.tasks[t] == Parked(r)
            && (!r.state.WtMtx? ==> KillOrSuspend(k, t, true) == Park(k, t))
            && (r.state.WtMtx? ==> r.obj.Mtx? && r.inode == In(MtxQ(r.obj.m)) && r.obj.m in k.mtx && k.mtx[r.obj.m].owner.Held?
                                   && var o := k.mtx[r.obj.m].owner.t;
                                      o != t && o in k.s.tasks && KillOrSuspend(k, t, true) == Park(k, t).(s := Reinherit(e, o)))
  {
    hide Core, States, InvBut, Only, LeaveQueue, OffList, TimeDelete, Reinherit, ReturnToken, Parked, SetState, CallOk;
    var r := k.s.tasks[t];
    StateOf(k, t, k.sems, k.mtx);
    CoreOf(k, k.sems, k.mtx);
    OffListOk(k.s, t);
    ParkInv(k, t);
    OnlyKeys(k.s, Park(k, t).s, t);
    OnlyKeys(k.s, OffList(k.s, t), t);
    if r.state.WtMtx? {
      MutexOwner(k, t, r.obj.m);
      LeaveMutexIs(k.s, k.mtx, t, k.mtx[r.obj.m].owner.t);
    } else {
      LeaveIs(k.s, k.mtx, t);
    }
  }

  lemma SuspendInv(k: K, t: Tid)
    requires Inv(k) && t in k.s.tasks && t != IDLE && !Finished(k.s, t)
    ensures var d := KillOrSuspend(k, t, true);
            Inv(d) && d.s.tasks.Keys == k.s.tasks.Keys && d.s.tasks[t] == Parked(k.s.tasks[t])
            && d == k.(s := d.s, clock := d.clock, sems := d.sems)
  {
    hide InvBut, Only, KillOrSuspend, OffList, TimeDelete, Reinherit, ReturnToken, Parked, CalcInherited, Tame;
    var r := k.s.tasks[t];
    ParkInv(k, t);
    SuspendIs(k, t);
    if r.state.WtMtx? {
      var k1 := Park(k, t);
      var o := k.mtx[r.obj.m].owner.t;
      ReinheritInv(k1, o, k1.sems, k1.mtx);
      ReinheritFrame(k1.s, Reinherit(k1.s, o), o, CalcInherited(k1.s, o));
    }
  }

  lemma ReinheritFrame(s: S, d: S, o: Tid, p: nat)
    requires o in s.tasks && Repositioned(s, d, o, p)
    ensures d.tasks.Keys == s.tasks.Keys
    ensures forall x | x in s.tasks && x != o :: d.tasks[x] == s.tasks[x]
  {
    hide Only;
  }

  // ---- isix_task_kill ----

  lemma AbandonInv(k: K, t: Tid)
    requires Inv(k) && t in k.s.tasks
    ensures var d := Abandon(k.s, t);
            Inv(k.(s := d)) && t in d.tasks && NoReturn(d.tasks[t]) && d.tasks[t].token.NoToken? && d.queues == k.s.queues && (Finished(d, t) <==> Finished(k.s, t))
            && Tame(k.s, d)
  {
    hide Core, States, InvBut, Only, Timed, CheckCond2, Tame;
    TameSelf(k.s);
    StateOf(k, t, k.sems, k.mtx);
    if !k.s.tasks[t].state.WtMtx? && !k.s.tasks[t].state.WtSem? { LeaveCallInv(k, t); }
  }

  lemma LeaveCallInv(k: K, t: Tid)
    requires Inv(k) && t in k.s.tasks && !k.s.tasks[t].state.WtMtx? && !k.s.tasks[t].state.WtSem?
    ensures var d := Put(k.s, t, k.s.tasks[t].(call := NoCall, token := NoToken)); Inv(k.(s := d)) && Tame(k.s, d)
  {
    hide Core, States, InvBut, Only, Timed, CheckCond2, Tame;
    var r := k.s.tasks[t].(call := NoCall, token := NoToken);
    CoreOf(k, k.sems, k.mtx);
    StateOf(k, t, k.sems, k.mtx);
    CorePrios(k.s, t);
    CoreSameLinks(k.s, t, r);
    OnlyPut(k.s, t, r);
    KeepStates(k.s, Put(k.s, t, r), t, {});
    assert {} - {t} == {};
    OneRunningOf(k, t, k.sems, k.mtx);
    QuietOk(k, Put(k.s, t, r), t, k.sems, k.mtx);
    OffTame(k.s, Put(k.s, t, r), t);
  }

  function Bury(s: S, t: Tid, a: bool): S
    requires t in s.tasks
  {
    InsertEnd(Put(s, t, s.tasks[t].(aborted := a, state := Zombie)), Zombies, t)
  }

  lemma BuryInv(k: K, t: Tid, a: bool)
    requires Inv(k) && t in k.s.tasks && k.s.tasks[t].state.Suspend? && t != IDLE && k.s.tasks[t].owned == []
    requires Queue(k.s, ExitQ(t)) == []
    requires k.s.tasks[t].token.NoToken? && (a == k.s.tasks[t].aborted || !(Earns(k.s.tasks[t].call) && k.s.tasks[t].obj == Msg(EOK)))
    ensures Inv(k.(s := Bury(k.s, t, a), deleted := k.deleted + 1))
  {
    hide Core, States, InvBut, Only, Timed, InsertEnd, Own, Sems, Calls, Events, Objects, Links, CheckCond2;
    var r := k.s.tasks[t].(aborted := a, state := Zombie);
    StateOf(k, t, k.sems, k.mtx);
    PartsOf(k, k.sems, k.mtx);
    ZombieList(k, k.sems, k.mtx);
    CorePrios(k.s, t);
    CoreFloating(k.s, t, r);
    OnlyPut(k.s, t, r);
    var u := Put(k.s, t, r);
    InsertEndOk(u, Zombies, t);
    var d := InsertEnd(u, Zombies, t);
    OnlyTwice(k.s, u, d, t);
    KeepStates(k.s, d, t, {});
    assert {} - {t} == {};
    CoreLinks(k.s);
    CoreLinks(d);
    KeepOwn(k.s, d, t, k.mtx);
    KeepSems(k.s, d, t, k.sems);
    KeepCalls(k.s, d, t, k.mtx);
    QueueLength(k.s, d, t, Zombies);
    QueueLength(k.s, d, t, ExitQ(t));
    Deleted(k);
    Rebuild(k, d, t, k.sems, k.mtx, k.sems, k.mtx);
  }

  lemma Deleted(k: K)
    requires Inv(k)
    ensures k.deleted == |Queue(k.s, Zombies)|
  {
  }

  lemma LeaveFlag(s: S, mtx: map<nat, Mutex>, t: Tid)
    requires t in s.tasks && t in LeaveQueue(s, mtx, t, true).tasks
    ensures t in LeaveQueue(s, mtx, t, false).tasks
    ensures var l := LeaveQueue(s, mtx, t, true);
            Retries(s.tasks[t].state) ==> LeaveQueue(s, mtx, t, false) == SetAborted(l, t, false)
    ensures !Retries(s.tasks[t].state) ==> LeaveQueue(s, mtx, t, false) == LeaveQueue(s, mtx, t, true)
  {
    hide DelReady, ListDelete, WaiterRemoved, SetAborted;
    var st := s.tasks[t].state;
    if st.WtEvt? || st.WtSem? || st.WtExit? {
      AbortedTwice(ListDelete(s, t), t);
    } else if st.WtMtx? {
      var o := s.tasks[t].obj;
      AbortedTwice(if o.Mtx? then WaiterRemoved(ListDelete(s, t), mtx, o.m) else Fail(s), t);
    }
  }

  lemma AbortedTwice(s: S, t: Tid)
    ensures SetAborted(SetAborted(s, t, true), t, false) == SetAborted(s, t, false)
    ensures t in SetAborted(s, t, true).tasks ==> t in SetAborted(s, t, false).tasks
  {
  }

  // Killing is suspending, then burying.
  lemma KillIs(k: K, t: Tid)
    requires t in k.s.tasks && t in LeaveQueue(k.s, k.mtx, t, true).tasks
    ensures var d := KillOrSuspend(k, t, true); var a := !Retries(k.s.tasks[t].state) && d.s.tasks[t].aborted;
            KillOrSuspend(k, t, false) == d.(s := Bury(d.s, t, a), deleted := d.deleted + 1)
  {
    hide LeaveQueue, InsertEnd, Retries, TimeDelete, ReturnToken;
    LeaveFlag(k.s, k.mtx, t);
    var l := LeaveQueue(k.s, k.mtx, t, true);
    var d := SetState(l, t, Suspend);
    var a := !Retries(k.s.tasks[t].state) && d.tasks[t].aborted;
    var r := d.tasks[t].(aborted := a, state := Zombie);
    assert SetState(LeaveQueue(k.s, k.mtx, t, false), t, Zombie).tasks == l.tasks[t := r];
    assert Put(d, t, r).tasks == l.tasks[t := r];
  }

  lemma LeaveHas(s: S, mtx: map<nat, Mutex>, t: Tid)
    requires t in s.tasks && t in SetState(LeaveQueue(s, mtx, t, true), t, Suspend).tasks
    ensures t in LeaveQueue(s, mtx, t, true).tasks
  {
    hide LeaveQueue;
  }

  lemma EndInv(k: K, t: Tid)
    requires Inv(k) && t in k.s.tasks && t != IDLE && !Finished(k.s, t) && k.s.tasks[t].owned == [] && Queue(k.s, ExitQ(t)) == []
    requires k.s.tasks[t].token.NoToken?
    ensures Inv(KillOrSuspend(k, t, false))
  {
    hide Core, InvBut, LeaveQueue, Bury, TimeDelete, ReturnToken, Only, States;
    SuspendInv(k, t);
    var d := KillOrSuspend(k, t, true);
    LeaveHas(k.s, k.mtx, t);
    KillIs(k, t);
    ExitKept(k, t);
    StateOf(k, t, k.sems, k.mtx);
    BuryInv(d, t, !Retries(k.s.tasks[t].state) && d.s.tasks[t].aborted);
  }

  // No step of suspending puts anybody on the list of those who wait for t.
  lemma ExitKept(k: K, t: Tid)
    requires Inv(k) && t in k.s.tasks && t != IDLE && !Finished(k.s, t) && Queue(k.s, ExitQ(t)) == []
    ensures Queue(KillOrSuspend(k, t, true).s, ExitQ(t)) == []
  {
    hide Core, States, InvBut, Only, KillOrSuspend, OffList, TimeDelete, Reinherit, ReturnToken, CalcInherited, Tame;
    var r := k.s.tasks[t];
    CoreOf(k, k.sems, k.mtx);
    ParkInv(k, t);
    SuspendIs(k, t);
    var k1 := Park(k, t);
    CoreOf(k1, k1.sems, k1.mtx);
    QueueLength(k.s, k1.s, t, ExitQ(t));
    if r.state.WtMtx? {
      var o := k.mtx[r.obj.m].owner.t;
      ReinheritInv(k1, o, k1.sems, k1.mtx);
      CoreOf(k1.(s := Reinherit(k1.s, o)), k1.sems, k1.mtx);
      StillEmpty(k1.s, Reinherit(k1.s, o), o, ExitQ(t), CalcInherited(k1.s, o));
    }
  }

  lemma KillInv(k: K, t: Tid)
    requires Inv(k) && t in k.s.tasks && t != IDLE
    ensures Inv(Kill(k, t))
  {
    hide Core, InvBut, Abandon, UnlockAllIn, WakeAll, AllWoken, KillOrSuspend;
    if !Finished(k.s, t) {
      AbandonInv(k, t);
      var k1 := k.(s := Abandon(k.s, t));
      UnlockAllInv(k1, t);
      var u := UnlockAllIn(k1, t);
      var o := Msg(if t == k.current then EOK else EDESTROY);
      var ts := Queue(u.s, ExitQ(t));
      ExitList(u, t);
      WakeAllInv(u, ExitQ(t), ts, o, u.sems, u.mtx);
      var w := WakeAll(u, ts, o);
      WokenRest(u, w, ts, o);
      WokenTask(u, w, t, ts, o);
      EndInv(w, t);
    }
  }

  lemma ExitList(k: K, t: Tid)
    requires Inv(k) && t in k.s.tasks
    ensures ExitQ(t) in k.s.queues
  {
  }

  lemma WokenTask(k: K, d: K, t: Tid, ts: seq<Tid>, o: Obj)
    requires AllWoken(k, d, ts, o) && t in k.s.tasks
    ensures t in d.s.tasks && d.s.tasks[t].owned == k.s.tasks[t].owned && d.s.tasks[t].token == k.s.tasks[t].token && (Finished(d.s, t) ==> Finished(k.s, t))
  {
  }

  // ---- isix_task_resume ----

  lemma ForgeInv(k: K, t: Tid)
    requires Inv(k) && t in k.s.tasks && k.s.tasks[t].state.Suspend?
    ensures var u := Forge(k.s, t);
            && Core(u) && States(u, {t}) && Only(k.s, u, t)
            && u.tasks[t] == k.s.tasks[t].(token := if Overwritten(k.s.tasks[t]) then Forged else k.s.tasks[t].token)
  {
    hide Core, States, InvBut, Only;
    CoreOf(k, k.sems, k.mtx);
    CorePrios(k.s, t);
    var r := k.s.tasks[t].(token := if Overwritten(k.s.tasks[t]) then Forged else k.s.tasks[t].token);
    CoreSameLinks(k.s, t, r);
    OnlyPut(k.s, t, r);
    KeepStates(k.s, Put(k.s, t, r), t, {});
    assert {} + {t} == {t};
    assert Forge(k.s, t).tasks == Put(k.s, t, r).tasks;
  }

  lemma ResumeInv(k: K, t: Tid)
    requires Inv(k)
    ensures Inv(Resume(k, t).k) && Tame(k.s, Resume(k, t).k.s)
  {
    TameSelf(k.s);
    hide Core, States, InvBut, Only, Tame, Timed, CheckCond2, AddReady, SetObj, TimeDelete, CallArgs, Forge;
    if t != k.current && t in k.s.tasks && k.s.tasks[t].state.Suspend? {
      StateOf(k, t, k.sems, k.mtx);
      ClockDelete(k, t, k.sems, k.mtx);
      ForgeInv(k, t);
      var u := Forge(k.s, t);
      OnlyHas(k.s, u, t);
      AwakeOk(u, t, Msg(EOK));
      var d := Awake(u, t, Msg(EOK));
      OnlyTwice(k.s, u, d, t);
      QuietOk(k.(clock := TimeDelete(k.clock, t)), d, t, k.sems, k.mtx);
      CoreOf(k, k.sems, k.mtx);
      OffTame(k.s, d, t);
    }
  }

  lemma StatesBut(s: S, t: Tid)
    requires States(s, {})
    ensures States(s, {t})
  {
  }

  // ---- isix_task_create ----

  function Added(s: S, t: Tid, r: Task): S { Put(s, t, r).(queues := s.queues[ExitQ(t) := []]) }

  lemma AddedCore(s: S, t: Tid, r: Task)
    requires Core(s) && States(s, {}) && t !in s.tasks && ExitQ(t) !in s.queues
    requires r.inode.Off? && r.prio <= r.base <= PRIOS
    ensures Core(Added(s, t, r)) && States(Added(s, t, r), {t}) && (StateOk(r) ==> States(Added(s, t, r), {}))
  {
    hide NoDup, StateOk, Ascending, InLine;
    var d := Added(s, t, r);
    LineKept(s, d);
    forall q | q in d.queues && PrioQ(q) ensures Sorted(d, d.queues[q]) {
      assert Sorted(s, s.queues[q]);
      assert d.queues[q] == s.queues[q];
    }
    assert NodePrio(d);
    assert NoDup<Tid>([]) by { NoDupEmpty(); }
  }

  lemma NoDupEmpty()
    ensures NoDup<Tid>([])
  {
  }

  lemma AddedParts(s: S, t: Tid, r: Task, sems: map<nat, Semaphore>, mtx: map<nat, Mutex>, evts: map<nat, bv32>)
    requires t !in s.tasks && r.owned == [] && CallOk(r, t, mtx) && !r.state.Zombie? && !r.state.Exited?
    requires Own(s, mtx) && Sems(s, sems) && Events(s, evts) && Calls(s, mtx) && Exits(s)
    ensures var d := Added(s, t, r); Own(d, mtx) && Sems(d, sems) && Events(d, evts) && Calls(d, mtx) && Exits(d)
  {
    hide Own, Events, Exits, SemOk, CallOk;
    AddedOwn(s, t, r, mtx);
    AddedEvents(s, t, r, evts);
    AddedExits(s, t, r);
  }

  lemma AddedOwn(s: S, t: Tid, r: Task, mtx: map<nat, Mutex>)
    requires t !in s.tasks && r.owned == [] && Own(s, mtx)
    ensures Own(Added(s, t, r), mtx)
  {
    var d := Added(s, t, r);
    forall m | m in mtx ensures OwnerOk(d, m, mtx[m]) { assert OwnerOk(s, m, mtx[m]); }
  }

  lemma AddedEvents(s: S, t: Tid, r: Task, evts: map<nat, bv32>)
    requires t !in s.tasks && Events(s, evts)
    ensures Events(Added(s, t, r), evts)
  {
    hide CheckCond2, Plain;
    forall e | e in evts ensures EventOk(Added(s, t, r), e, evts[e]) { assert EventOk(s, e, evts[e]); }
  }

  lemma AddedExits(s: S, t: Tid, r: Task)
    requires t !in s.tasks && !r.state.Zombie? && !r.state.Exited? && Exits(s)
    ensures Exits(Added(s, t, r))
  {
    var d := Added(s, t, r);
    forall u: Tid | Finished(d, u) ensures Queue(d, ExitQ(u)) == [] { assert Finished(s, u); }
  }

  lemma AddedInv(k: K, t: Tid, r: Task)
    requires Inv(k) && t !in k.s.tasks && r.inode.Off? && r.prio <= r.base <= PRIOS && r.state.Suspend?
    requires r.owned == [] && r.call == NoCall && r.token.NoToken?
    ensures Inv(k.(s := Added(k.s, t, r)))
  {
    hide Core, States, TimeInv, Own, Sems, Events, Calls, Exits;
    AddedCore(k.s, t, r);
    AddedParts(k.s, t, r, k.sems, k.mtx, k.evts);
  }

  lemma StartInv(k: K, t: Tid, r: Task)
    requires Inv(k) && t in k.s.tasks && k.s.tasks[t].state.Suspend? && r == k.s.tasks[t].(state := Created)
    requires k.s.tasks[t].call == NoCall && k.s.tasks[t].token.NoToken?
    ensures Inv(WakeUp(k.(s := Put(k.s, t, r)), t, Msg(EOK))) && Tame(k.s, WakeUp(k.(s := Put(k.s, t, r)), t, Msg(EOK)).s)
  {
    hide Tame, Core, States, InvBut, Only, Timed, CheckCond2, AddReady, SetObj, TimeDelete, CallArgs;
    CoreOf(k, k.sems, k.mtx);
    StateOf(k, t, k.sems, k.mtx);
    ClockDelete(k, t, k.sems, k.mtx);
    var u := Put(k.s, t, r);
    CorePrios(k.s, t);
    CoreFloating(k.s, t, r);
    OnlyPut(k.s, t, r);
    KeepStates(k.s, u, t, {});
    assert {} + {t} == {t};
    AwakeOk(u, t, Msg(EOK));
    var d := Awake(u, t, Msg(EOK));
    OnlyTwice(k.s, u, d, t);
    QuietOk(k.(clock := TimeDelete(k.clock, t)), d, t, k.sems, k.mtx);
    OffTame(k.s, d, t);
  }

  lemma CreateInv(k: K, t: Tid, prio: nat, suspended: bool, ref: bool)
    requires Inv(k) && t !in k.s.tasks
    ensures Inv(TaskCreate(k, t, prio, suspended, ref))
  {
    hide InvBut, WakeUp, Tame;
    if prio <= PRIOS {
      var b := NewTask(prio, true, ref);
      AddedInv(k, t, b);
      if !suspended {
        var a := NewTask(prio, false, ref);
        StartInv(k.(s := Added(k.s, t, b)), t, a);
        assert Put(Added(k.s, t, b), t, a) == Added(k.s, t, a);
      }
    }
  }

  lemma CurrentThere(k: K)
    requires Inv(k)
    ensures k.current in k.s.tasks && IDLE in k.s.tasks
  {
  }

  // ---- isix_task_change_prio ----

  lemma BaseInv(k: K, t: Tid, b: nat)
    requires Inv(k) && t in k.s.tasks && k.s.tasks[t].prio <= b <= PRIOS
    ensures Inv(k.(s := SetBase(k.s, t, b)))
  {
    hide Core, States, InvBut, Only, Timed, CheckCond2, CallArgs;
    var r := k.s.tasks[t].(base := b);
    CoreOf(k, k.sems, k.mtx);
    StateOf(k, t, k.sems, k.mtx);
    CoreSameLinks(k.s, t, r);
    OnlyPut(k.s, t, r);
    KeepStates(k.s, Put(k.s, t, r), t, {});
    assert {} - {t} == {};
    OneRunningOf(k, t, k.sems, k.mtx);
    QuietOk(k, Put(k.s, t, r), t, k.sems, k.mtx);
  }

  lemma ChangePrioInv(k: K, t: Tid, p: nat)
    requires Inv(k) && t in k.s.tasks
    ensures Inv(ChangePrio(k, t, p).k)
  {
    hide InvBut, Core, Only, Realloc, States;
    if p < PRIOS && k.s.tasks[t].base != p {
      var r := k.s.tasks[t];
      CoreOf(k, k.sems, k.mtx);
      CorePrios(k.s, t);
      var d := SetBase(k.s, t, p);
      if p < r.base && (r.prio == r.base || p < r.prio) {
        ReallocInv(k, t, p, k.sems, k.mtx);
        ReallocBase(k.s, t, p, p);
        BaseInv(k.(s := Realloc(k.s, t, p)), t, p);
      } else {
        BaseInv(k, t, p);
        if r.prio == r.base { ReallocInv(k.(s := d), t, p, k.sems, k.mtx); }
      }
    }
  }

  // ---- isix_task_wait_for ----

  lemma WaitForInv(k: K, t: Tid)
    requires Inv(k) && Runnable(k.s, k.current) && k.current != IDLE
    ensures Inv(WaitFor(k, t).k) && Tame(k.s, WaitFor(k, t).k.s)
    ensures var o := WaitFor(k, t); var other := t in k.s.tasks && t != k.current;
            && (o.ret == Code(EINVARG) <==> !other) && (o.ret == Code(ENOREF) <==> other && k.s.tasks[t].refcnt == 0)
            && (o.ret == Code(EOK) <==> other && k.s.tasks[t].refcnt > 0 && Finished(k.s, t))
            && (o.ret == Blocked <==> other && k.s.tasks[t].refcnt > 0 && !Finished(k.s, t))
  {
    TameSelf(k.s);
    hide InvBut, Tame, Core, States, Only, SetSleep, AddToPrioQueue, InsertEnd, AddWaiting;
    var c := k.current;
    DoneInv(k);
    CoreOf(k, k.sems, k.mtx);
    if t != c && t in k.s.tasks && k.s.tasks[t].refcnt > 0 && !Finished(k.s, t) {
      var r := k.s.tasks[c].(call := InExit(t), token := NoToken, aborted := false);
      ExitList(k, t);
      BlockInv(k, r, WtExit, ExitQ(t), r.obj, INFINITE, k.sems, k.mtx);
      assert SetAborted(SetCall(k.s, c, InExit(t)), c, false) == Put(k.s, c, r);
      ExitObj(k.s, r, c, ExitQ(t));
    }
  }

  lemma ExitObj(s: S, r: Task, c: Tid, q: Qid)
    requires Core(s) && States(s, {}) && Runnable(s, c) && q in s.queues && q.ExitQ?
    requires r == s.tasks[c].(call := r.call, aborted := r.aborted, token := r.token, obj := r.obj)
    ensures var e := InsertEnd(SetSleep(Put(s, c, r), c, WtExit), q, c); SetObj(e, c, r.obj) == e
  {
    hide Core, States, Only, SetSleep, InsertEnd;
    AsleepOk(s, c, r, WtExit);
    var l := SetSleep(Put(s, c, r), c, WtExit);
    OnlyHas(s, l, c);
    HasQueue(s, l, c, q);
    InsertEndOk(l, q, c);
    var e := InsertEnd(l, q, c);
    assert e.tasks[c := e.tasks[c]] == e.tasks;
  }

  // ---- isix_wait ----

  lemma SleepInv(k: K, timeout: nat)
    requires Inv(k) && Runnable(k.s, k.current) && k.current != IDLE && timeout < TICKS
    ensures Inv(Sleep(k, timeout).k) && Tame(k.s, Sleep(k, timeout).k.s)
  {
    hide InvBut, Tame, Core, States, Only, SetSleep, SetTimeout, Timed, CheckCond2;
    var c := k.current;
    var r := k.s.tasks[c].(call := InWait, token := NoToken);
    CoreOf(k, k.sems, k.mtx);
    StateOf(k, c, k.sems, k.mtx);
    AsleepOk(k.s, c, r, Sleeping);
    var d := SetSleep(Put(k.s, c, r), c, Sleeping);
    OnlyHas(k.s, d, c);
    KeepStates(k.s, d, c, {});
    assert {} - {c} == {};
    QuietOk(k, d, c, k.sems, k.mtx);
    ClockAdd(k.(s := d), c, timeout, k.sems, k.mtx);
    BlockTame(k.s, d, c);
  }

  // ---- cleanup_tasks ----

  lemma ExitedInv(k: K, t: Tid)
    requires Inv(k) && t in Queue(k.s, Zombies)
    ensures var d := SetState(ListDelete(k.s, t), t, Exited);
            t in d.tasks && k.deleted > 0 && Inv(k.(s := d, deleted := k.deleted - 1)) && d.tasks[t].state.Exited? && Tame(k.s, d)
  {
    hide Tame, Core, States, InvBut, Only, Timed, ListDelete, Own, Sems, Calls, Events, Objects, Links, CheckCond2;
    PartsOf(k, k.sems, k.mtx);
    OnList(k.s, t, Zombies);
    StateOf(k, t, k.sems, k.mtx);
    DeleteOk(k.s, t);
    var l := ListDelete(k.s, t);
    OnlyHas(k.s, l, t);
    CorePrios(l, t);
    var r := l.tasks[t].(state := Exited);
    CoreFloating(l, t, r);
    OnlyPut(l, t, r);
    var d := Put(l, t, r);
    OnlyTwice(k.s, l, d, t);
    KeepStates(k.s, d, t, {});
    assert {} - {t} == {};
    CoreLinks(k.s);
    CoreLinks(d);
    KeepOwn(k.s, d, t, k.mtx);
    KeepSems(k.s, d, t, k.sems);
    KeepCalls(k.s, d, t, k.mtx);
    QueueLength(k.s, d, t, Zombies);
    Deleted(k);
    Rebuild(k, d, t, k.sems, k.mtx, k.sems, k.mtx);
    OffTame(k.s, d, t);
  }

  function Dropped(s: S, t: Tid): S { DropQueue(s.(tasks := s.tasks - {t}), ExitQ(t)) }

  lemma DroppedCore(s: S, t: Tid)
    requires Core(s) && States(s, {}) && t in s.tasks && s.tasks[t].inode.Off? && ExitQ(t) in s.queues && s.queues[ExitQ(t)] == []
    ensures Core(Dropped(s, t)) && States(Dropped(s, t), {})
  {
    hide NoDup, StateOk, Ascending, InLine;
    var d := Dropped(s, t);
    LineKept(s, d);
    forall q | q in d.queues && PrioQ(q) ensures Sorted(d, d.queues[q]) {
      assert Sorted(s, s.queues[q]);
      forall i | 0 <= i < |d.queues[q]| ensures d.queues[q][i] in d.tasks { assert d.queues[q][i] in s.queues[q]; }
    }
    assert NodePrio(d);
  }

  lemma DroppedParts(s: S, t: Tid, sems: map<nat, Semaphore>, mtx: map<nat, Mutex>, evts: map<nat, bv32>)
    requires Links(s) && t in s.tasks && s.tasks[t].inode.Off? && Finished(s, t)
    requires Own(s, mtx) && Sems(s, sems) && Events(s, evts) && Calls(s, mtx) && Exits(s)
    ensures var d := Dropped(s, t); Own(d, mtx) && Sems(d, sems) && Events(d, evts) && Calls(d, mtx) && Exits(d)
  {
    hide CheckCond2, CallOk, SemOk, Plain;
    var d := Dropped(s, t);
    forall m | m in mtx ensures OwnerOk(d, m, mtx[m]) { assert OwnerOk(s, m, mtx[m]); }
    forall e | e in evts ensures EventOk(d, e, evts[e]) { assert EventOk(s, e, evts[e]); }
  }

  lemma DroppedInv(k: K, t: Tid)
    requires Inv(k) && t in k.s.tasks && k.s.tasks[t].state.Exited? && t != k.current
    ensures Inv(k.(s := Dropped(k.s, t)))
  {
    hide Core, States, TimeInv, Own, Sems, Events, Calls, Links, SemOk;
    StateOf(k, t, k.sems, k.mtx);
    CoreLinks(k.s);
    DroppedCore(k.s, t);
    DroppedParts(k.s, t, k.sems, k.mtx, k.evts);
  }

  // The dead task t is gone, or kept as long as others have a reference to it.
  ghost predicate Reaped(k: K, d: K, t: Tid) {
    && k.deleted > 0 && Queue(k.s, Zombies) != [] && d == k.(s := d.s, deleted := k.deleted - 1) && Queue(d.s, Zombies) == Queue(k.s, Zombies)[1..]
    && t in k.s.tasks && (forall x | x in k.s.tasks && x != t :: x in d.s.tasks && d.s.tasks[x] == k.s.tasks[x])
    && if k.s.tasks[t].refcnt == 0 then t !in d.s.tasks && ExitQ(t) !in d.s.queues
       else t in d.s.tasks && d.s.tasks[t] == k.s.tasks[t].(state := Exited, inode := Off)
  }

  lemma ZombiesCounted(k: K)
    requires Inv(k)
    ensures k.deleted == |Queue(k.s, Zombies)| && Zombies in k.s.queues
  {
    hide Core, States, TimeInv, TimeStates, OneRunning, Own, Sems, Events, Calls, Exits;
  }

  // The first task leaves its list.
  lemma DeleteFirst(s: S, t: Tid)
    requires Core(s) && States(s, {}) && Zombies in s.queues && s.queues[Zombies] != [] && s.queues[Zombies][0] == t
    ensures var d := ListDelete(s, t);
            t in s.tasks && d.tasks == s.tasks[t := s.tasks[t].(inode := Off)] && d.queues == s.queues[Zombies := s.queues[Zombies][1..]]
  {
    hide Core, States;
    OnList(s, t, Zombies);
  }

  lemma CleanupInv(k: K)
    requires Inv(k) && Runnable(k.s, k.current)
    ensures Inv(Cleanup(k)) && if Queue(k.s, Zombies) == [] then Cleanup(k) == k else Reaped(k, Cleanup(k), Queue(k.s, Zombies)[0])
  {
    hide InvBut, ListDelete, Core, States;
    ZombiesCounted(k);
    if Queue(k.s, Zombies) != [] {
      var t := k.s.queues[Zombies][0];
      assert t in Queue(k.s, Zombies);
      CoreOf(k, k.sems, k.mtx);
      DeleteFirst(k.s, t);
      OnList(k.s, t, Zombies);
      ExitedInv(k, t);
      var d := SetState(ListDelete(k.s, t), t, Exited);
      DroppedInv(k.(s := d, deleted := k.deleted - 1), t);
    }
  }
}
