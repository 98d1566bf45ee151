/**
 The kernel as one object that the calls update in place.  Its fields are the immutable values
 the state is made of, and most methods repeat the step functions field by field; what they add
 are the loops of scheduler.c, mutex.c, semaphore.c and events.c over the lists.  Every method
 is proved to do the corresponding step.
 */
module KernelSystem {
  import opened Lists
  import opened KernelState
  import opened KernelCalls
  import opened KernelTime
  import opened KernelInv
  import opened KernelRun

  // ---- the loops, one turn at a time ----

  lemma PrioPosStep(tasks: map<Tid, Task>, ts: seq<Tid>, p: nat, i: nat)
    requires i < |ts|
    ensures PrioPos(tasks, ts[i..], p) == if ts[i] in tasks && p < tasks[ts[i]].prio then 0 else 1 + PrioPos(tasks, ts[i + 1..], p)
  {
    assert ts[i..][1..] == ts[i + 1..];
  }

  lemma NodePosStep(nprio: map<nat, nat>, ready: seq<nat>, p: nat, i: nat)
    requires i < |ready|
    ensures NodePos(nprio, ready[i..], p) == if ready[i] in nprio && p <= nprio[ready[i]] then 0 else 1 + NodePos(nprio, ready[i + 1..], p)
  {
    assert ready[i..][1..] == ready[i + 1..];
  }

  lemma TimePosStep(due: map<Tid, nat>, ts: seq<Tid>, j: nat, i: nat)
    requires i < |ts|
    ensures TimePos(due, ts[i..], j) == if ts[i] in due && j < due[ts[i]] then 0 else 1 + TimePos(due, ts[i + 1..], j)
  {
    assert ts[i..][1..] == ts[i + 1..];
  }

  // The walk of _isixp_add_to_prio_queue: past every waiter at least as urgent as p.
  method PrioPlace(tasks: map<Tid, Task>, ts: seq<Tid>, p: nat) returns (i: nat)
    ensures i == PrioPos(tasks, ts, p)
  {
    i := 0;
    assert ts[0..] == ts;
    while i < |ts| && !(ts[i] in tasks && p < tasks[ts[i]].prio)
      invariant i <= |ts| && PrioPos(tasks, ts, p) == i + PrioPos(tasks, ts[i..], p)
    {
      PrioPosStep(tasks, ts, p, i);
      i := i + 1;
    }
    if i < |ts| { PrioPosStep(tasks, ts, p, i); }
  }

  // The walk of add_ready_list: to the node of priority p or the first less urgent one.
  method NodePlace(nprio: map<nat, nat>, ready: seq<nat>, p: nat) returns (i: nat)
    ensures i == NodePos(nprio, ready, p)
  {
    i := 0;
    assert ready[0..] == ready;
    while i < |ready| && !(ready[i] in nprio && p <= nprio[ready[i]])
      invariant i <= |ready| && NodePos(nprio, ready, p) == i + NodePos(nprio, ready[i..], p)
    {
      NodePosStep(nprio, ready, p, i);
      i := i + 1;
    }
    if i < |ready| { NodePosStep(nprio, ready, p, i); }
  }

  // The walk of add_task_to_waiting_list: past every deadline up to j.
  method TimePlace(due: map<Tid, nat>, ts: seq<Tid>, j: nat) returns (i: nat)
    ensures i == TimePos(due, ts, j)
  {
    i := 0;
    assert ts[0..] == ts;
    while i < |ts| && !(ts[i] in due && j < due[ts[i]])
      invariant i <= |ts| && TimePos(due, ts, j) == i + TimePos(due, ts[i..], j)
    {
      TimePosStep(due, ts, j, i);
      i := i + 1;
    }
    if i < |ts| { TimePosStep(due, ts, j, i); }
  }

  class System {
    var lists: S
    var clock: Clock
    var current: Tid
    var sems: map<nat, Semaphore>
    var mtx: map<nat, Mutex>
    var evts: map<nat, bv32>
    var deleted: nat

    function View(): K
      reads this
    {
      K(lists, clock, current, sems, mtx, evts, deleted)
    }

    // isix_init and the start of the scheduler: the free priority nodes and the idle task.
    constructor ()
      ensures View() == Boot() && Inv(View())
    {
      lists := S(map[], map[Zombies := []], [], [], map[], false, Line(map[], 0));
      clock, current, deleted := Clock(0, 0, [], [], map[]), IDLE, 0;
      sems, mtx, evts := map[], map[], map[];
      new;
      FillPool();
      label Filled:
      CreateTask(IDLE, PRIOS, false, false);
      BootIs(old@Filled(View()), View());
    }

    method FillPool()
      requires lists == Pool(0)
      modifies this`lists
      ensures lists == Pool(PRIOS + 1)
    {
      for i := 0 to PRIOS + 1
        invariant lists == Pool(i)
      {
        lists := lists.(queues := lists.queues[Node(i) := []], free := lists.free + [i], nprio := lists.nprio[i := 0]);
      }
    }

    // ---- lists ----

    method Unlink(t: Tid)
      modifies this`lists
      ensures lists == ListDelete(old(lists), t)
    {
      if t in lists.tasks && lists.tasks[t].inode.In? && lists.tasks[t].inode.q in lists.queues {
        var q := lists.tasks[t].inode.q;
        lists := lists.(queues := lists.queues[q := Remove(lists.queues[q], t)]);
        lists := lists.(tasks := lists.tasks[t := lists.tasks[t].(inode := Off)]);
      } else {
        lists := Fail(lists);
      }
    }

    method LinkAt(q: Qid, i: nat, t: Tid)
      modifies this`lists
      ensures lists == ListInsert(old(lists), q, i, t)
    {
      if t in lists.tasks && lists.tasks[t].inode.Off? && q in lists.queues && i <= |lists.queues[q]| {
        lists := lists.(queues := lists.queues[q := Insert(lists.queues[q], i, t)]);
        lists := lists.(tasks := lists.tasks[t := lists.tasks[t].(inode := In(q))]);
        lists := lists.(line := Came(lists.line, t));
      } else {
        lists := Fail(lists);
      }
    }

    method LinkEnd(q: Qid, t: Tid)
      modifies this`lists
      ensures lists == InsertEnd(old(lists), q, t)
    {
      if q in lists.queues { LinkAt(q, |lists.queues[q]|, t); } else { lists := Fail(lists); }
    }

    method AddToPrioQueue(q: Qid, t: Tid)
      modifies this`lists
      ensures lists == KernelState.AddToPrioQueue(old(lists), q, t)
    {
      if t !in lists.tasks || q !in lists.queues { lists := Fail(lists); return; }
      var i := PrioPlace(lists.tasks, lists.queues[q], lists.tasks[t].prio);
      LinkAt(q, i, t);
    }

    method AddReadyList(t: Tid)
      modifies this`lists
      ensures lists == AddReady(old(lists), t)
    {
      if t !in lists.tasks || lists.tasks[t].prio > PRIOS || lists.tasks[t].state.Ready? || lists.tasks[t].state.Zombie? {
        lists := Fail(lists);
        return;
      }
      var p := lists.tasks[t].prio;
      var i := NodePlace(lists.nprio, lists.ready, p);
      if i < |lists.ready| && lists.ready[i] in lists.nprio && lists.nprio[lists.ready[i]] == p {
        lists := lists.(tasks := lists.tasks[t := lists.tasks[t].(state := Ready, elem := lists.ready[i])]);
        LinkEnd(Node(lists.ready[i]), t);
      } else if lists.free == [] {
        lists := Fail(lists);
      } else {
        var n := lists.free[0];
        lists := lists.(free := lists.free[1..]);
        lists := lists.(nprio := lists.nprio[n := p]);
        lists := lists.(tasks := lists.tasks[t := lists.tasks[t].(state := Ready, elem := n)]);
        lists := lists.(queues := lists.queues[Node(n) := []]);
        lists := lists.(ready := Insert(lists.ready, i, n));
        LinkEnd(Node(n), t);
      }
    }

    method DeleteFromReadyList(t: Tid)
      modifies this`lists
      ensures lists == DelReady(old(lists), t)
    {
      Unlink(t);
      if t in lists.tasks && Node(lists.tasks[t].elem) in lists.queues && lists.queues[Node(lists.tasks[t].elem)] == [] {
        var n := lists.tasks[t].elem;
        if n in lists.ready {
          lists := lists.(ready := Remove(lists.ready, n), free := lists.free + [n]);
        } else {
          lists := Fail(lists);
        }
      }
    }

    // ---- time ----

    method AddTaskToWaitingList(t: Tid, timeout: nat)
      modifies this`clock
      ensures clock == AddWaiting(old(clock), t, timeout)
    {
      var j := (clock.jiffies + timeout) % TICKS;
      if j < clock.jiffies {
        var i := TimePlace(clock.due, clock.ovf, j);
        clock := clock.(ovf := Insert(clock.ovf, i, t));
      } else {
        var i := TimePlace(clock.due, clock.cur, j);
        clock := clock.(cur := Insert(clock.cur, i, t));
      }
      clock := clock.(due := clock.due[t := j]);
    }

    method LeaveTimeLists(t: Tid)
      modifies this`clock
      ensures clock == TimeDelete(old(clock), t)
    {
      clock := clock.(cur := Remove(clock.cur, t), ovf := Remove(clock.ovf, t));
    }

    method SleepIn(st: State)
      modifies this`lists
      ensures lists == SetSleep(old(lists), current, st)
    {
      DeleteFromReadyList(current);
      lists := SetState(lists, current, st);
    }

    method Timeout(timeout: nat)
      modifies this`clock
      ensures clock == SetTimeout(old(clock), current, timeout)
    {
      if timeout != INFINITE { AddTaskToWaitingList(current, timeout); }
    }

    method WakeupTask(t: Tid, o: Obj)
      modifies this`lists, this`clock
      ensures lists == AddReady(SetObj(old(lists), t, o), t) && clock == TimeDelete(old(clock), t)
      ensures View() == WakeUp(old(View()), t, o)
    {
      hide AddReady, SetObj, TimeDelete;
      lists := SetObj(lists, t, o);
      LeaveTimeLists(t);
      AddReadyList(t);
    }

    // ---- priorities ----

    method MoveInQueue(q: Qid, t: Tid, p: nat)
      modifies this`lists
      ensures lists == Requeue(old(lists), q, t, p)
    {
      Unlink(t);
      lists := SetPrio(lists, t, p);
      AddToPrioQueue(q, t);
    }

    method ReallocatePriority(t: Tid, p: nat)
      modifies this`lists
      ensures lists == Realloc(old(lists), t, p)
    {
      if t !in lists.tasks { lists := Fail(lists); return; }
      var r := lists.tasks[t];
      if r.state.Ready? || r.state.Running? {
        DeleteFromReadyList(t);
        lists := SetPrio(lists, t, p);
        lists := SetState(lists, t, Schedule);
        AddReadyList(t);
      } else if r.state.WtSem? && r.obj.Sem? {
        MoveInQueue(SemQ(r.obj.s), t, p);
      } else if r.state.WtMtx? && r.obj.Mtx? {
        MoveInQueue(MtxQ(r.obj.m), t, p);
      } else if r.state.WtCond? && r.obj.Cond? {
        MoveInQueue(CondQ(r.obj.c), t, p);
      } else {
        lists := SetPrio(lists, t, p);
      }
    }

    method CalcInheritedPriority(t: Tid) returns (p: nat)
      requires t in lists.tasks
      ensures p == CalcInherited(lists, t)
    {
      var ms, i := lists.tasks[t].owned, 0;
      p := lists.tasks[t].base;
      assert ms[0..] == ms;
      while i < |ms|
        invariant i <= |ms| && Inherited(lists, ms, lists.tasks[t].base) == Inherited(lists, ms[i..], p)
      {
        var w := if MtxQ(ms[i]) in lists.queues then lists.queues[MtxQ(ms[i])] else [];
        assert ms[i..][1..] == ms[i + 1..];
        if w != [] && w[0] in lists.tasks && lists.tasks[w[0]].prio < p { p := lists.tasks[w[0]].prio; }
        i := i + 1;
      }
    }

    method InheritAgain(t: Tid)
      modifies this`lists
      ensures lists == Reinherit(old(lists), t)
    {
      if t !in lists.tasks { lists := Fail(lists); return; }
      var p := CalcInheritedPriority(t);
      if p != lists.tasks[t].prio { ReallocatePriority(t, p); }
    }

    // ---- kill and suspend ----

    // _isixp_sem_fast_signal for a task that stops waiting for a semaphore
    method GiveBack(r: Task)
      modifies this`sems
      ensures sems == ReturnToken(old(sems), r)
    {
      if r.state.WtSem? && r.obj.Sem? && r.obj.s in sems { sems := sems[r.obj.s := SemInc(sems[r.obj.s])]; }
    }

    method MutexWaiterRemoved(m: nat)
      modifies this`lists
      ensures lists == WaiterRemoved(old(lists), mtx, m)
    {
      if m !in mtx { lists := Fail(lists); } else if mtx[m].owner.Held? { InheritAgain(mtx[m].owner.t); }
    }

    method LeaveList(t: Tid, suspend: bool)
      modifies this`lists
      ensures lists == LeaveQueue(old(lists), mtx, t, suspend)
    {
      hide DelReady, ListDelete, WaiterRemoved, SetAborted;
      if t !in lists.tasks { lists := Fail(lists); return; }
      var r := lists.tasks[t];
      match r.state {
        case Ready => DeleteFromReadyList(t);
        case Running => DeleteFromReadyList(t);
        case WtEvt => Unlink(t); lists := SetAborted(lists, t, suspend);
        case WtSem => Unlink(t); lists := SetAborted(lists, t, suspend);
        case WtCond => Unlink(t);
        case WtMtx =>
          if r.obj.Mtx? { Unlink(t); MutexWaiterRemoved(r.obj.m); } else { lists := Fail(lists); }
          lists := SetAborted(lists, t, suspend);
        case WtExit => Unlink(t); lists := SetAborted(lists, t, suspend);
        case _ =>
      }
    }

    method AddKillOrSetSuspend(t: Tid, suspend: bool)
      modifies this`lists, this`clock, this`sems, this`deleted
      ensures View() == KillOrSuspend(old(View()), t, suspend)
    {
      hide LeaveQueue, TimeDelete, ReturnToken, InsertEnd, SetState;
      LeaveTimeLists(t);
      if t in lists.tasks { GiveBack(lists.tasks[t]); }
      LeaveList(t, suspend);
      if suspend {
        lists := SetState(lists, t, Suspend);
      } else {
        lists := SetState(lists, t, Zombie);
        LinkEnd(Zombies, t);
        deleted := deleted + 1;
      }
    }

    // The loops that empty a wait list: semaphore reset and destroy, condition variable
    // broadcast, event group destroy, and the waiters for the end of a task.
    method WakeupAll(ts: seq<Tid>, o: Obj)
      modifies this`lists, this`clock
      ensures View() == WakeAll(old(View()), ts, o)
    {
      hide WakeUp, ListDelete;
      var i := 0;
      assert ts[0..] == ts;
      while i < |ts|
        invariant i <= |ts| && WakeAll(View(), ts[i..], o) == WakeAll(old(View()), ts, o)
        invariant sems == old(sems) && mtx == old(mtx) && evts == old(evts) && deleted == old(deleted)
      {
        assert ts[i..][1..] == ts[i + 1..];
        ghost var was := View();
        Unlink(ts[i]);
        assert View() == was.(s := ListDelete(was.s, ts[i]));
        WakeupTask(ts[i], o);
        i := i + 1;
      }
    }

    // ---- mutex.c ----

    method SetOwnershipToCurrent(m: nat)
      modifies this`lists, this`mtx
      ensures View() == TakeMutex(old(View()), m)
    {
      if m !in mtx || mtx[m].count != 0 { lists := Fail(lists); return; }
      lists := SetOwned(lists, current, InsertFirst(Owned(lists, current), m));
      mtx := mtx[m := Mutex(1, Held(current))];
    }

    method DetachFromOwner(o: Owner, m: nat)
      modifies this`lists
      ensures lists == Detach(old(lists), o, m)
    {
      if o.Held? && m in Owned(lists, o.t) { lists := SetOwned(lists, o.t, Remove(Owned(lists, o.t), m)); }
    }

    // transfer_mtx_ownership_to_next_waiting_task, and the wake up of that task
    method TransferOwnership(m: nat)
      modifies this`lists, this`clock, this`mtx
      ensures View() == Transfer(old(View()), m)
    {
      hide Detach, ListDelete, SetOwned, SetToken, WakeUp, InsertFirst;
      if m in mtx { DetachFromOwner(mtx[m].owner, m); }
      if m !in mtx || Queue(lists, MtxQ(m)) == [] { lists := Fail(lists); return; }
      var n := lists.queues[MtxQ(m)][0];
      ghost var was := View();
      var ms := Owned(lists, n);
      Unlink(n);
      lists := SetOwned(lists, n, InsertFirst(ms, m));
      lists := SetToken(lists, n, Handed(m));
      mtx := mtx[m := Mutex(1, Held(n))];
      assert View() == was.(s := SetToken(SetOwned(ListDelete(was.s, n), n, InsertFirst(Owned(was.s, n), m)), n, Handed(m)), mtx := was.mtx[m := Mutex(1, Held(n))]);
      WakeupTask(n, Msg(EOK));
    }

    method WaitForMutex(m: nat)
      modifies this`lists
      ensures View() == BlockOnMutex(old(View()), m)
    {
      hide SetCall, SetAborted, SetSleep, KernelState.AddToPrioQueue, SetObj;
      lists := SetCall(lists, current, InLock(m));
      lists := SetAborted(lists, current, false);
      SleepIn(WtMtx);
      AddToPrioQueue(MtxQ(m), current);
      lists := SetObj(lists, current, Mtx(m));
    }

    method LockMutex(m: nat) returns (r: Ret)
      modifies this`lists, this`mtx
      ensures Out(View(), r) == MutexLock(old(View()), m)
    {
      hide TakeMutex, BlockOnMutex, Realloc;
      if m !in mtx { return Code(EINVARG); }
      if mtx[m].owner.Free? { SetOwnershipToCurrent(m); return Code(EOK); }
      if mtx[m].count < 1 || current !in lists.tasks { lists := Fail(lists); return Blocked; }
      if mtx[m].owner.t == current {
        mtx := mtx[m := Mutex(mtx[m].count + 1, Held(current))];
        return Code(EOK);
      }
      var o := mtx[m].owner.t;
      if o in lists.tasks && lists.tasks[current].prio < lists.tasks[o].prio { ReallocatePriority(o, lists.tasks[current].prio); }
      WaitForMutex(m);
      return Blocked;
    }

    method TrylockMutex(m: nat) returns (r: Ret)
      modifies this`lists, this`mtx
      ensures Out(View(), r) == MutexTrylock(old(View()), m)
    {
      hide TakeMutex;
      if m !in mtx { return Code(EINVARG); }
      if mtx[m].owner.Free? { SetOwnershipToCurrent(m); return Code(EOK); }
      if mtx[m].count < 1 { lists := Fail(lists); return Blocked; }
      if mtx[m].owner.t != current { return Code(EPERM); }
      mtx := mtx[m := Mutex(mtx[m].count + 1, Held(current))];
      return Code(EOK);
    }

    method UnlockMutex(m: nat) returns (r: Ret)
      modifies this`lists, this`clock, this`mtx
      ensures Out(View(), r) == MutexUnlock(old(View()), m)
    {
      hide Detach, Realloc, CalcInherited, Transfer;
      if m !in mtx { return Code(EINVARG); }
      if mtx[m].owner.Free? { return Code(ENOTLOCKED); }
      if mtx[m].count < 1 { lists := Fail(lists); return Blocked; }
      if mtx[m].owner.t != current { return Code(EPERM); }
      if mtx[m].count > 1 {
        mtx := mtx[m := Mutex(mtx[m].count - 1, Held(current))];
        return Code(EOK);
      }
      if m !in Owned(lists, current) { lists := Fail(lists); return Blocked; }
      var waiters := Queue(lists, MtxQ(m)) != [];
      DetachFromOwner(Held(current), m);
      DetachedHas(old(lists), current, m);
      if waiters {
        ghost var was := View();
        var p := CalcInheritedPriority(current);
        ReallocatePriority(current, p);
        assert View() == was.(s := Realloc(was.s, current, p));
        TransferOwnership(m);
      } else {
        mtx := mtx[m := Mutex(0, Free)];
      }
      return Code(EOK);
    }

    method UnlockAllInTask(u: Tid)
      modifies this`lists, this`clock, this`mtx
      ensures View() == UnlockAllIn(old(View()), u)
    {
      hide Transfer, Detach, Reinherit;
      var ms, i := Owned(lists, u), 0;
      assert ms[0..] == ms;
      while i < |ms|
        invariant i <= |ms| && ReleaseEach(View(), ms[i..]) == ReleaseEach(old(View()), ms)
        invariant sems == old(sems) && evts == old(evts) && deleted == old(deleted)
      {
        assert ms[i..][1..] == ms[i + 1..];
        var m := ms[i];
        if m !in mtx {
          lists := Fail(lists);
          i := |ms|;
        } else if Queue(lists, MtxQ(m)) != [] {
          TransferOwnership(m);
          i := i + 1;
        } else {
          DetachFromOwner(mtx[m].owner, m);
          mtx := mtx[m := Mutex(0, Free)];
          i := i + 1;
        }
      }
      if u == current { InheritAgain(u); }
    }

    method DestroyMutex(m: nat) returns (r: Ret)
      modifies this`lists, this`clock, this`mtx
      ensures Out(View(), r) == MutexDestroy(old(View()), m)
    {
      hide Detach, SetToken, DestroyWaiters, Reinherit;
      if m !in mtx { return Code(EINVARG); }
      var o, ts := mtx[m].owner, Queue(lists, MtxQ(m));
      var lost := HandedTo(lists, o, m);
      DetachFromOwner(o, m);
      if lost { lists := SetToken(lists, o.t, Lost); }
      mtx := mtx[m := Mutex(0, Free)];
      DismissWaiters(ts);
      if o.Held? { InheritAgain(o.t); }
      lists := lists.(queues := lists.queues - {MtxQ(m)});
      mtx := mtx - {m};
      return Code(EOK);
    }

    // Every waiter leaves with the priority it inherits through the mutexes it owns.
    method DismissWaiters(ts: seq<Tid>)
      modifies this`lists, this`clock
      ensures View() == DestroyWaiters(old(View()), ts)
    {
      hide WakeUp, ListDelete, SetPrio;
      var i := 0;
      assert ts[0..] == ts;
      while i < |ts|
        invariant i <= |ts| && DestroyWaiters(View(), ts[i..]) == DestroyWaiters(old(View()), ts)
        invariant sems == old(sems) && mtx == old(mtx) && evts == old(evts) && deleted == old(deleted)
      {
        assert ts[i..][1..] == ts[i + 1..];
        ghost var was := View();
        Unlink(ts[i]);
        var p := 0;
        if ts[i] in lists.tasks { p := CalcInheritedPriority(ts[i]); }
        lists := SetPrio(lists, ts[i], p);
        assert View() == was.(s := SetPrio(ListDelete(was.s, ts[i]), ts[i], CalcInherited(ListDelete(was.s, ts[i]), ts[i])));
        WakeupTask(ts[i], Msg(EDESTROY));
        i := i + 1;
      }
    }

    // ---- condvar.c ----

    method WaitForCond(c: nat, m: nat, timeout: nat)
      modifies this`lists, this`clock
      ensures View() == BlockOnCond(old(View()), c, m, timeout)
    {
      hide SetCall, SetSleep, KernelState.AddToPrioQueue, SetObj, SetTimeout;
      lists := SetCall(lists, current, InCond(m));
      SleepIn(WtCond);
      Timeout(timeout);
      AddToPrioQueue(CondQ(c), current);
      lists := SetObj(lists, current, Cond(c));
    }

    method WaitCond(c: nat, timeout: nat) returns (r: Ret)
      modifies this`lists, this`clock, this`mtx
      ensures Out(View(), r) == CondWait(old(View()), c, timeout)
    {
      hide MutexUnlock, BlockOnCond;
      if CondQ(c) !in lists.queues || timeout == DONTWAIT { return Code(EINVARG); }
      if Owned(lists, current) == [] { return Code(EINVARG); }
      var m := Owned(lists, current)[0];
      r := UnlockMutex(m);
      if r != Code(EOK) { return; }
      WaitForCond(c, m, timeout);
      return Blocked;
    }

    method SignalCond(c: nat) returns (r: Ret)
      modifies this`lists, this`clock
      ensures Out(View(), r) == CondSignal(old(View()), c)
    {
      hide ListDelete, WakeUp;
      if CondQ(c) !in lists.queues { return Code(EINVARG); }
      if lists.queues[CondQ(c)] == [] { return Code(EOK); }
      var t := lists.queues[CondQ(c)][0];
      if t !in lists.tasks || !lists.tasks[t].state.WtCond? { lists := Fail(lists); return Blocked; }
      Unlink(t);
      WakeupTask(t, Msg(EOK));
      return Code(EOK);
    }

    method BroadcastCond(c: nat) returns (r: Ret)
      modifies this`lists, this`clock
      ensures Out(View(), r) == CondBroadcast(old(View()), c)
    {
      hide WakeAll;
      if CondQ(c) !in lists.queues { return Code(EINVARG); }
      WakeupAll(lists.queues[CondQ(c)], Msg(EOK));
      return Code(EOK);
    }

    method DestroyCond(c: nat) returns (r: Ret)
      modifies this`lists, this`clock
      ensures Out(View(), r) == CondDestroy(old(View()), c)
    {
      hide WakeAll;
      if CondQ(c) !in lists.queues { return Code(EINVARG); }
      WakeupAll(lists.queues[CondQ(c)], Msg(EDESTROY));
      lists := DropQueue(lists, CondQ(c));
      return Code(EOK);
    }

    // ---- semaphore.c ----

    method TrywaitSem(i: nat, fail: int) returns (r: Ret)
      modifies this`sems
      ensures Out(View(), r) == SemTrywait(old(View()), i, fail)
    {
      if i !in sems { return Code(EINVARG); }
      if sems[i].value <= 0 { return Code(fail); }
      sems := sems[i := Grant(sems[i].(value := sems[i].value - 1))];
      return Code(EOK);
    }

    method WaitForSem(i: nat, call: Call, timeout: nat)
      modifies this`lists, this`clock
      ensures View() == BlockOnSem(old(View()), i, call, timeout)
    {
      hide SetCall, SetObj, SetAborted, SetSleep, KernelState.AddToPrioQueue, SetTimeout;
      lists := SetAborted(SetObj(SetCall(lists, current, call), current, Sem(i)), current, false);
      SleepIn(WtSem);
      Timeout(timeout);
      AddToPrioQueue(SemQ(i), current);
    }

    // One turn of the loop in isix_sem_wait: the value drops first, the token is then taken,
    // the value restored, or the task blocked.
    method TakeSem(i: nat, start: nat, timeout: nat) returns (r: Ret)
      modifies this`lists, this`clock, this`sems
      ensures Out(View(), r) == SemTake(old(View()), i, start, timeout)
    {
      hide BlockOnSem, Elapsed, SetCall;
      if i !in sems { lists := Fail(lists); return Blocked; }
      sems := sems[i := sems[i].(value := sems[i].value - 1)];
      if sems[i].value >= 0 {
        sems := sems[i := Grant(sems[i])];
        lists := SetCall(lists, current, NoCall);
        return Code(EOK);
      }
      var left := timeout;
      if timeout != INFINITE {
        var elapsed := Elapsed(clock, start);
        if elapsed >= timeout {
          sems := sems[i := SemInc(sems[i])];
          lists := SetCall(lists, current, NoCall);
          return Code(ETIMEOUT);
        }
        left := timeout - elapsed;
      }
      WaitForSem(i, InSem(i, start, timeout), left);
      return Blocked;
    }

    method WaitSem(i: nat, timeout: nat) returns (r: Ret)
      modifies this`lists, this`clock, this`sems
      ensures Out(View(), r) == SemWait(old(View()), i, timeout)
    {
      hide SemTake, SemTrywait;
      if i !in sems { return Code(EINVARG); }
      if timeout == DONTWAIT { r := TrywaitSem(i, ETIMEOUT); } else { r := TakeSem(i, clock.jiffies, timeout); }
    }

    method SignalSem(i: nat) returns (r: Ret)
      modifies this`lists, this`clock, this`sems
      ensures Out(View(), r) == SemSignal(old(View()), i)
    {
      hide ListDelete, WakeUp;
      if i !in sems { return Code(EINVARG); }
      sems := sems[i := SemInc(sems[i]).(signals := sems[i].signals + 1)];
      if sems[i].value <= 0 && Queue(lists, SemQ(i)) != [] {
        var t := lists.queues[SemQ(i)][0];
        Unlink(t);
        if t in lists.tasks && lists.tasks[t].state.WtSem? {
          assert sems[i := Grant(sems[i])] == old(sems)[i := Grant(sems[i])];
          sems := sems[i := Grant(sems[i])];
          lists := Put(lists, t, lists.tasks[t].(token := Granted));
          WakeupTask(t, Msg(EOK));
        }
      }
      return Code(EOK);
    }

    method ResetSem(i: nat, val: int) returns (r: Ret)
      modifies this`lists, this`clock, this`sems
      ensures Out(View(), r) == SemReset(old(View()), i, val)
    {
      hide WakeAll, ResetValue;
      if i !in sems { return Code(EINVARG); }
      var v := ResetValue(sems[i].limit, val);
      sems := sems[i := Semaphore(v, sems[i].limit, v, 0, 0)];
      WakeupAll(Queue(lists, SemQ(i)), Msg(ERESET));
      return Code(EOK);
    }

    method DestroySem(i: nat) returns (r: Ret)
      modifies this`lists, this`clock, this`sems
      ensures Out(View(), r) == SemDestroy(old(View()), i)
    {
      hide WakeAll;
      if i !in sems { return Code(EINVARG); }
      WakeupAll(Queue(lists, SemQ(i)), Msg(EDESTROY));
      lists := DropQueue(lists, SemQ(i));
      sems := sems - {i};
      return Code(EOK);
    }

    // ---- events.c ----

    method WaitForEvent(e: nat, call: Call, w: bv32, timeout: nat)
      modifies this`lists, this`clock
      ensures View() == BlockOnEvent(old(View()), e, call, w, timeout)
    {
      hide SetCall, SetObj, SetAborted, SetSleep, InsertEnd, SetTimeout;
      lists := SetAborted(SetCall(lists, current, call), current, false);
      SleepIn(WtEvt);
      Timeout(timeout);
      LinkEnd(EvtQ(e), current);
      lists := SetObj(lists, current, Bits(w));
    }

    // One turn of the loop in isix_event_wait.
    method TakeEvent(e: nat, bits: bv32, clear: bool, all: bool, start: nat, timeout: nat) returns (r: Ret)
      modifies this`lists, this`clock, this`evts
      ensures Out(View(), r) == EventTake(old(View()), e, bits, clear, all, start, timeout)
    {
      hide BlockOnEvent, Elapsed, SetCall, CheckCond, Without, EvWord;
      if e !in evts { lists := Fail(lists); return Blocked; }
      var b := evts[e];
      if CheckCond(b, bits, all) {
        if clear { evts := evts[e := Without(b, bits)]; }
        lists := SetCall(lists, current, NoCall);
        return Mask(b);
      }
      if timeout == DONTWAIT {
        lists := SetCall(lists, current, NoCall);
        return Mask(b);
      }
      var left := timeout;
      if timeout != INFINITE {
        var elapsed := Elapsed(clock, start);
        if elapsed >= timeout {
          lists := SetCall(lists, current, NoCall);
          return Code(ETIMEOUT);
        }
        left := timeout - elapsed;
      }
      WaitForEvent(e, InEvent(e, bits, clear, all, start, timeout), EvWord(bits, clear, all), left);
      return Blocked;
    }

    method WaitEvent(e: nat, bits: bv32, clear: bool, all: bool, timeout: nat) returns (r: Ret)
      modifies this`lists, this`clock, this`evts
      ensures Out(View(), r) == EventWait(old(View()), e, bits, clear, all, timeout)
    {
      hide EventTake, Plain;
      if e !in evts || bits == 0 || !Plain(bits) { return Code(EINVARG); }
      r := TakeEvent(e, bits, clear, all, clock.jiffies, timeout);
    }

    method ClearEvent(e: nat, bits: bv32) returns (r: Ret)
      modifies this`evts
      ensures Out(View(), r) == EventClear(old(View()), e, bits)
    {
      hide Plain, Without;
      if e !in evts || !Plain(bits) { return Code(EINVARG); }
      r := Mask(evts[e]);
      evts := evts[e := Without(evts[e], bits)];
    }

    // event_set: one pass over the waiters wakes those whose condition holds and collects
    // the bits they asked to clear.
    method SetEventBits(e: nat, bits: bv32)
      requires e in evts
      modifies this`lists, this`clock, this`evts
      ensures View() == SetBits(old(View()), e, bits)
    {
      hide WakeUp, ListDelete, CheckCond2, With, Without;
      var b := With(evts[e], bits);
      var ts := Queue(lists, EvtQ(e));
      var mask := ClearBitsOf(ts, b);
      var i := 0;
      assert ts[0..] == ts;
      while i < |ts|
        invariant i <= |ts| && SetLoop(View(), ts[i..], b) == SetLoop(old(View()), ts, b)
        invariant sems == old(sems) && mtx == old(mtx) && evts == old(evts) && deleted == old(deleted) && current == old(current)
      {
        assert ts[i..][1..] == ts[i + 1..];
        if Satisfied(lists, ts[i], b) {
          Unlink(ts[i]);
          WakeupTask(ts[i], Bits(b));
        }
        i := i + 1;
      }
      evts := evts[e := Without(b, mask)];
    }

    method ClearBitsOf(ts: seq<Tid>, bits: bv32) returns (mask: bv32)
      ensures mask == ClearMask(lists, ts, bits)
    {
      hide CheckCond2, With, WantsClear, Asked;
      mask := 0;
      var i: nat := 0;
      assert ts[0..] == ts;
      WithLaws(0, 0, ClearMask(lists, ts, bits));
      while i < |ts|
        invariant i <= |ts| && With(mask, ClearMask(lists, ts[i..], bits)) == ClearMask(lists, ts, bits)
      {
        assert ts[i..][1..] == ts[i + 1..];
        if Satisfied(lists, ts[i], bits) && WantsClear(lists.tasks[ts[i]].obj.b) {
          WithLaws(mask, Asked(lists.tasks[ts[i]].obj.b), ClearMask(lists, ts[i + 1..], bits));
          mask := With(mask, Asked(lists.tasks[ts[i]].obj.b));
        }
        i := i + 1;
      }
      WithLaws(mask, 0, 0);
    }

    method SetEvent(e: nat, bits: bv32) returns (r: Ret)
      modifies this`lists, this`clock, this`evts
      ensures Out(View(), r) == EventSet(old(View()), e, bits)
    {
      hide SetBits, Plain;
      if e !in evts || !Plain(bits) { return Code(EINVARG); }
      SetEventBits(e, bits);
      SetHas(old(View()), e, bits);
      return Mask(evts[e]);
    }

    method SyncEvent(e: nat, toSet: bv32, toWait: bv32, timeout: nat) returns (r: Ret)
      modifies this`lists, this`clock, this`evts
      ensures Out(View(), r) == EventSync(old(View()), e, toSet, toWait, timeout)
    {
      hide SetBits, Plain, With, Without, HasAll, BlockOnEvent, EvWord;
      if e !in evts || !Plain(toSet) || toWait == 0 || !Plain(toWait) { return Code(EINVARG); }
      var org, start := With(evts[e], toSet), clock.jiffies;
      SetEventBits(e, toSet);
      SetHas(old(View()), e, toSet);
      if HasAll(org, toWait) {
        evts := evts[e := Without(evts[e], toWait)];
        return Mask(org);
      }
      if timeout == DONTWAIT { return Mask(evts[e]); }
      WaitForEvent(e, InSync(e, toWait, start, timeout), EvWord(toWait, true, true), timeout);
      return Blocked;
    }

    method DestroyEvent(e: nat) returns (r: Ret)
      modifies this`lists, this`clock, this`evts
      ensures Out(View(), r) == EventDestroy(old(View()), e)
    {
      hide WakeAll;
      if e !in evts { return Code(EINVARG); }
      WakeupAll(Queue(lists, EvtQ(e)), Msg(EDESTROY));
      lists := DropQueue(lists, EvtQ(e));
      evts := evts - {e};
      return Code(EOK);
    }

    // ---- task.c ----

    method CreateTask(t: Tid, prio: nat, suspended: bool, ref: bool)
      modifies this`lists, this`clock
      ensures View() == TaskCreate(old(View()), t, prio, suspended, ref)
    {
      hide WakeUp;
      if prio > PRIOS { return; }
      lists := Put(lists, t, NewTask(prio, suspended, ref)).(queues := lists.queues[ExitQ(t) := []]);
      if !suspended { WakeupTask(t, Msg(EOK)); }
    }

    method ChangeTaskPrio(t: Tid, p: nat) returns (r: Ret)
      modifies this`lists
      ensures Out(View(), r) == ChangePrio(old(View()), t, p)
    {
      hide Realloc;
      if p > PRIOS - 1 { return Code(ENOPRIO); }
      if t !in lists.tasks { lists := Fail(lists); return Blocked; }
      var q := lists.tasks[t];
      if q.base == p { return Code(EOK); }
      lists := Put(lists, t, q.(base := p));
      if q.prio == q.base || p < q.prio { ReallocatePriority(t, p); }
      return Code(q.base);
    }

    method KillTask(t: Tid)
      modifies this`lists, this`clock, this`mtx, this`sems, this`deleted
      ensures View() == Kill(old(View()), t)
    {
      hide Abandon, UnlockAllIn, WakeAll, KillOrSuspend;
      if t !in lists.tasks { lists := Fail(lists); return; }
      if Finished(lists, t) { return; }
      var o := Msg(if t == current then EOK else EDESTROY);
      lists := Abandon(lists, t);
      UnlockAllInTask(t);
      WakeupAll(Queue(lists, ExitQ(t)), o);
      AddKillOrSetSuspend(t, false);
    }

    method SuspendTask(t: Tid)
      modifies this`lists, this`clock, this`sems, this`deleted
      ensures View() == KernelCalls.SuspendTask(old(View()), t)
    {
      hide KillOrSuspend;
      if t !in lists.tasks { lists := Fail(lists); return; }
      if !Finished(lists, t) && !lists.tasks[t].state.Suspend? { AddKillOrSetSuspend(t, true); }
    }

    method ResumeTask(t: Tid) returns (r: Ret)
      modifies this`lists, this`clock
      ensures Out(View(), r) == Resume(old(View()), t)
    {
      hide Forge, WakeUp;
      if t == current || t !in lists.tasks { return Code(EINVARG); }
      if !lists.tasks[t].state.Suspend? { return Code(ESTATE); }
      lists := Forge(lists, t);
      WakeupTask(t, Msg(EOK));
      return Code(EOK);
    }

    method WaitForTask(t: Tid) returns (r: Ret)
      modifies this`lists
      ensures Out(View(), r) == WaitFor(old(View()), t)
    {
      hide SetCall, SetAborted, SetSleep, InsertEnd;
      if t == current || t !in lists.tasks { return Code(EINVARG); }
      if lists.tasks[t].refcnt == 0 { lists := SetCall(lists, current, NoCall); return Code(ENOREF); }
      if Finished(lists, t) { lists := SetCall(lists, current, NoCall); return Code(EOK); }
      lists := SetAborted(SetCall(lists, current, InExit(t)), current, false);
      SleepIn(WtExit);
      LinkEnd(ExitQ(t), current);
      return Blocked;
    }

    method Wait(timeout: nat) returns (r: Ret)
      modifies this`lists, this`clock
      ensures Out(View(), r) == Sleep(old(View()), timeout)
    {
      hide SetCall, SetSleep, SetTimeout;
      lists := SetCall(lists, current, InWait);
      SleepIn(Sleeping);
      Timeout(timeout);
      return Blocked;
    }

    method CleanupTasks()
      modifies this`lists, this`deleted
      ensures View() == Cleanup(old(View()))
    {
      hide ListDelete, SetState;
      if deleted == 0 || Queue(lists, Zombies) == [] { return; }
      var t := lists.queues[Zombies][0];
      Unlink(t);
      lists := SetState(lists, t, Exited);
      deleted := deleted - 1;
      if t in lists.tasks && lists.tasks[t].refcnt == 0 { lists := DropQueue(lists.(tasks := lists.tasks - {t}), ExitQ(t)); }
    }

    // ---- the rest of a blocked call ----

    method Continued() returns (r: Ret)
      modifies this`lists, this`clock, this`sems, this`mtx, this`evts
      ensures Out(View(), r) == Continue(old(View()))
    {
      hide MutexLock, SemTake, WaitFor, EventTake, EventWait, SetCall, Elapsed;
      if current !in lists.tasks { lists := Fail(lists); return Blocked; }
      var q := lists.tasks[current];
      var result := if q.obj.Msg? then Code(q.obj.code) else if q.obj.Bits? then Mask(q.obj.b) else Blocked;
      match q.call {
        case NoCall => return Blocked;
        case InWait =>
          lists := SetCall(lists, current, NoCall);
          return Code(EOK);
        case InSem(i, start, timeout) =>
          if q.aborted { r := TakeSem(i, start, timeout); return; }
        case InEvent(e, bits, clear, all, start, timeout) =>
          if q.aborted { r := TakeEvent(e, bits, clear, all, start, timeout); return; }
        case InLock(m) =>
          if q.aborted { lists := SetCall(lists, current, NoCall); r := LockMutex(m); return; }
        case InCond(m) =>
          if q.obj == Msg(EOK) { lists := SetCall(lists, current, NoCall); r := LockMutex(m); return; }
        case InExit(t) =>
          if q.aborted { lists := SetCall(lists, current, NoCall); r := WaitForTask(t); return; }
        case InSync(e, bits, start, timeout) =>
          if q.aborted {
            var elapsed := Elapsed(clock, start);
            lists := SetCall(lists, current, NoCall);
            if timeout != INFINITE && elapsed >= timeout { return Code(ETIMEOUT); }
            r := WaitEvent(e, bits, true, true, if timeout == INFINITE then INFINITE else timeout - elapsed);
            return;
          }
      }
      lists := SetCall(lists, current, NoCall);
      return result;
    }

    // ---- the switch and the tick ----

    method SwitchTask()
      modifies this`lists, this`current
      ensures View() == Switch(old(View()))
    {
      hide ListDelete, InsertEnd, SetState;
      var before := lists;
      if current in lists.tasks && lists.tasks[current].state.Running? {
        var n := lists.tasks[current].elem;
        Unlink(current);
        LinkEnd(Node(n), current);
        lists := SetState(lists, current, Ready);
      }
      if lists.ready == [] || Queue(lists, Node(lists.ready[0])) == [] { lists := Fail(before); return; }
      var n := lists.ready[0];
      var t := lists.queues[Node(n)][0];
      if t !in lists.tasks || !lists.tasks[t].state.Ready? || n !in lists.nprio || lists.tasks[t].prio != lists.nprio[n] {
        lists := Fail(before);
        return;
      }
      current := t;
      lists := SetState(lists, t, Running);
    }

    method ExpireWaitingTasks(now: nat)
      modifies this`lists, this`clock, this`sems
      ensures View() == Expire(old(View()), now)
    {
      hide WakeTimedOut;
      while clock.cur != [] && !(clock.cur[0] in clock.due && now < clock.due[clock.cur[0]])
        invariant Expire(View(), now) == Expire(old(View()), now)
        invariant current == old(current) && mtx == old(mtx) && evts == old(evts) && deleted == old(deleted)
        decreases |clock.cur|
      {
        var t := clock.cur[0];
        ghost var was := View();
        TimedOutTask(t);
        clock := clock.(cur := clock.cur[1..]);
        assert View() == SetCur(WakeTimedOut(was, t), was.clock.cur[1..]);
      }
    }

    method TimedOutTask(t: Tid)
      modifies this`lists, this`sems
      ensures View() == WakeTimedOut(old(View()), t)
    {
      hide ListDelete, SetObj, AddReady, ReturnToken;
      if t in lists.tasks {
        var r := lists.tasks[t];
        GiveBack(r);
        if r.state.WtSem? || r.state.WtEvt? || r.state.WtCond? {
          Unlink(t);
          lists := SetObj(lists, t, Msg(ETIMEOUT));
        }
      }
      AddReadyList(t);
    }

    method AdvanceJiffies(ticks: nat)
      requires clock.jiffies < TICKS
      modifies this`lists, this`clock, this`sems
      ensures View() == Advance(old(View()), ticks)
    {
      hide Expire;
      var left: nat := ticks;
      while left > 0
        invariant clock.jiffies < TICKS && Advance(View(), left) == Advance(old(View()), ticks)
        invariant current == old(current) && mtx == old(mtx) && evts == old(evts) && deleted == old(deleted)
      {
        var j := clock.jiffies;
        var toWrap := TICKS - j;
        if left < toWrap {
          clock := clock.(jiffies := j + left);
          ExpireWaitingTasks(j + left);
          return;
        }
        if toWrap > 1 {
          clock := clock.(jiffies := TICKS - 1);
          ExpireWaitingTasks(TICKS - 1);
        }
        clock := Clock(clock.epoch + 1, 0, clock.ovf, clock.cur, clock.due);
        ExpireJiffies(View(), 0);
        ExpireWaitingTasks(0);
        left := left - toWrap;
      }
    }

    method CalculateNextTimeout(vtd: nat) returns (r: int)
      ensures r == NextTimeout(clock, vtd)
    {
      var j := clock.jiffies;
      var wrap := if TICKS - j > TICKS - 1 then TICKS - 1 else TICKS - j;
      r := TICKS - 1;
      if clock.cur != [] && clock.cur[0] in clock.due && clock.due[clock.cur[0]] >= j { r := clock.due[clock.cur[0]] - j; }
      if vtd < r { r := vtd; }
      if wrap < r { r := wrap - 1; }
      if r == 0 { r := 1; }
    }

    // ---- every step of the state machine ----

    method DoMutex(op: MutexOp) returns (r: Ret)
      modifies this
      ensures Out(View(), r) == MutexStep(old(View()), op)
    {
      hide MutexLock, MutexTrylock, MutexUnlock, UnlockAllIn, MutexDestroy;
      match op {
        case NewMutex(m) =>
          lists := lists.(queues := lists.queues[MtxQ(m) := []]);
          mtx := mtx[m := Mutex(0, Free)];
          r := Code(EOK);
        case Lock(m) => r := LockMutex(m);
        case Trylock(m) => r := TrylockMutex(m);
        case Unlock(m) => r := UnlockMutex(m);
        case UnlockAll => UnlockAllInTask(current); r := Code(EOK);
        case DestroyMutex(m) => r := this.DestroyMutex(m);
      }
    }

    method DoCond(op: CondOp) returns (r: Ret)
      modifies this
      ensures Out(View(), r) == CondStep(old(View()), op)
    {
      hide CondWait, CondSignal, CondBroadcast, CondDestroy;
      match op {
        case NewCond(c) => lists := lists.(queues := lists.queues[CondQ(c) := []]); r := Code(EOK);
        case Wait(c, timeout) => r := WaitCond(c, timeout);
        case Signal(c) => r := SignalCond(c);
        case Broadcast(c) => r := BroadcastCond(c);
        case DestroyCond(c) => r := this.DestroyCond(c);
      }
    }

    method DoSem(op: SemOp) returns (r: Ret)
      modifies this
      ensures Out(View(), r) == SemStep(old(View()), op)
    {
      hide SemWait, SemTrywait, SemSignal, SemReset, SemDestroy;
      match op {
        case NewSem(i, value, limit) =>
          lists := lists.(queues := lists.queues[SemQ(i) := []]);
          sems := sems[i := Semaphore(value, limit, value, 0, 0)];
          r := Code(EOK);
        case Take(i, timeout) => r := WaitSem(i, timeout);
        case TryTake(i) => r := TrywaitSem(i, EBUSY);
        case Give(i) => r := SignalSem(i);
        case ResetSem(i, val) => r := this.ResetSem(i, val);
        case DestroySem(i) => r := this.DestroySem(i);
      }
    }

    method DoEvent(op: EventOp) returns (r: Ret)
      modifies this
      ensures Out(View(), r) == EventStep(old(View()), op)
    {
      hide EventWait, EventClear, EventSet, EventSync, EventDestroy;
      match op {
        case NewEvent(e) =>
          lists := lists.(queues := lists.queues[EvtQ(e) := []]);
          evts := evts[e := 0];
          r := Code(EOK);
        case WaitBits(e, bits, clear, all, timeout) => r := WaitEvent(e, bits, clear, all, timeout);
        case ClearBits(e, bits) => r := ClearEvent(e, bits);
        case PutBits(e, bits) => r := SetEvent(e, bits);
        case Sync(e, bits, wanted, timeout) => r := SyncEvent(e, bits, wanted, timeout);
        case DestroyEvent(e) => r := this.DestroyEvent(e);
      }
    }

    method DoTask(op: TaskOp) returns (r: Ret)
      modifies this
      ensures Out(View(), r) == TaskStep(old(View()), op)
    {
      hide TaskCreate, ChangePrio, Kill, KernelCalls.SuspendTask, Resume, WaitFor, Sleep, Cleanup;
      match op {
        case Create(t, prio, suspended, ref) => CreateTask(t, prio, suspended, ref); r := Code(EOK);
        case SetPriority(t, prio) => r := ChangeTaskPrio(t, prio);
        case KillTask(t) => this.KillTask(t); r := Blocked;
        case Pause(t) => this.SuspendTask(t); r := Blocked;
        case Unpause(t) => r := ResumeTask(t);
        case Join(t) => r := WaitForTask(t);
        case Delay(timeout) => r := this.Wait(timeout);
        case Reap => CleanupTasks(); r := Blocked;
      }
    }

    // Whatever the callers and the interrupts do, the object stays in a good state.
    method Perform(op: Op) returns (r: Ret)
      requires Inv(View()) && Enabled(View(), op)
      modifies this
      ensures Out(View(), r) == Apply(old(View()), op) && Inv(View()) && !lists.bug
    {
      hide InvBut, Enabled, MutexStep, CondStep, SemStep, EventStep, TaskStep, Continue, Switch, Advance;
      StepInv(View(), op);
      TickInRange(View());
      match op {
        case OfMutex(o) => r := DoMutex(o);
        case OfCond(o) => r := DoCond(o);
        case OfSem(o) => r := DoSem(o);
        case OfEvent(o) => r := DoEvent(o);
        case OfTask(o) => r := DoTask(o);
        case Resumed => r := Continued();
        case Preempt => SwitchTask(); r := Blocked;
        case Tick(n) => AdvanceJiffies(n); r := Blocked;
      }
      TickInRange(View());
    }
  }

  lemma BootIs(k: K, d: K)
    requires k == K(Pool(PRIOS + 1), Clock(0, 0, [], [], map[]), IDLE, map[], map[], map[], 0) && d == TaskCreate(k, IDLE, PRIOS, false, false)
    ensures d == Boot() && Inv(d)
  {
    hide InvBut, Pool, AddReady;
    assert TimeDelete(k.clock, IDLE) == k.clock;
    BootInv();
  }

  lemma TickInRange(k: K)
    requires Inv(k)
    ensures k.clock.jiffies < TICKS && !k.s.bug
  {
  }

  lemma WithLaws(a: bv32, b: bv32, c: bv32)
    ensures With(With(a, b), c) == With(a, With(b, c)) && With(a, 0) == a && With(0, a) == a && With(0, c) == c
  {
  }

  lemma SetHas(k: K, e: nat, bits: bv32)
    requires e in k.evts
    ensures e in SetBits(k, e, bits).evts
  {
    hide SetLoop, ClearMask, With, Without;
  }

  lemma DetachedHas(s: S, t: Tid, m: nat)
    requires m in Owned(s, t)
    ensures t in Detach(s, Held(t), m).tasks
  {
  }
}
