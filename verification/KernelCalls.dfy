/**
 The system calls of libisix/kernel: mutex.c, semaphore.c, events.c, condvar.c,
 task.c, ostime.c, and the scheduler and tick entry points of scheduler.c.  Each call
 runs inside one critical section, so it is one step on the state.  A call that blocks
 stops at `isix_yield` and records where it continues; `Continue` is the rest of it.
 */
module KernelCalls {
  import opened Lists
  import opened KernelState

  // What a call returns to its caller, or that the caller is now blocked.
  datatype Ret = Blocked | Code(c: int) | Mask(b: bv32)
  datatype Out = Out(k: K, ret: Ret)

  function Queue(s: S, q: Qid): seq<Tid> { if q in s.queues then s.queues[q] else [] }

  // ---- waking every waiter of a list, in list order ----

  function WakeAll(k: K, ts: seq<Tid>, o: Obj): K
    decreases |ts|
  {
    if ts == [] then k else WakeAll(WakeUp(k.(s := ListDelete(k.s, ts[0])), ts[0], o), ts[1..], o)
  }

  // ---- mutex.c ----

  function Owned(s: S, t: Tid): seq<nat> { if t in s.tasks then s.tasks[t].owned else [] }

  // set_ownership_to_current
  function TakeMutex(k: K, m: nat): K {
    if m !in k.mtx || k.mtx[m].count != 0 then Bug(k)
    else k.(s := SetOwned(k.s, k.current, InsertFirst(Owned(k.s, k.current), m)),
            mtx := k.mtx[m := Mutex(1, Held(k.current))])
  }

  // Take the mutex out of its owner's list when it is still there.
  function Detach(s: S, o: Owner, m: nat): S {
    if o.Held? && m in Owned(s, o.t) then SetOwned(s, o.t, Remove(Owned(s, o.t), m)) else s
  }

  // The first waiter becomes the owner and is woken.
  function Pass(k: K, m: nat): K {
    if m !in k.mtx || Queue(k.s, MtxQ(m)) == [] then Bug(k)
    else
      var n := k.s.queues[MtxQ(m)][0];
      WakeUp(k.(s := SetToken(SetOwned(ListDelete(k.s, n), n, InsertFirst(Owned(k.s, n), m)), n, Handed(m)),
                mtx := k.mtx[m := Mutex(1, Held(n))]), n, Msg(EOK))
  }

  // transfer_mtx_ownership_to_next_waiting_task, then the wake up of that task
  function Transfer(k: K, m: nat): K {
    Pass(if m in k.mtx then k.(s := Detach(k.s, k.mtx[m].owner, m)) else k, m)
  }

  function BlockOnMutex(k: K, m: nat): K {
    var c := k.current;
    var d := SetSleep(SetAborted(SetCall(k.s, c, InLock(m)), c, false), c, WtMtx);
    k.(s := SetObj(AddToPrioQueue(d, MtxQ(m), c), c, Mtx(m)))
  }

  // The priority inheritance step of isix_mutex_lock: the owner becomes at least as urgent.
  function Inherit(s: S, owner: Tid, p: nat): S {
    if owner in s.tasks && p < s.tasks[owner].prio then Realloc(s, owner, p) else s
  }

  function MutexLock(k: K, m: nat): Out {
    if m !in k.mtx then Out(k, Code(EINVARG))
    else if k.mtx[m].owner.Free? then Out(TakeMutex(k, m), Code(EOK))
    else if k.mtx[m].count < 1 || k.current !in k.s.tasks then Out(Bug(k), Blocked)
    else if k.mtx[m].owner.t == k.current then
      Out(k.(mtx := k.mtx[m := Mutex(k.mtx[m].count + 1, Held(k.current))]), Code(EOK))
    else
      Out(BlockOnMutex(k.(s := Inherit(k.s, k.mtx[m].owner.t, k.s.tasks[k.current].prio)), m), Blocked)
  }

  function MutexTrylock(k: K, m: nat): Out {
    if m !in k.mtx then Out(k, Code(EINVARG))
    else if k.mtx[m].owner.Free? then Out(TakeMutex(k, m), Code(EOK))
    else if k.mtx[m].count < 1 then Out(Bug(k), Blocked)
    else if k.mtx[m].owner.t == k.current then
      Out(k.(mtx := k.mtx[m := Mutex(k.mtx[m].count + 1, Held(k.current))]), Code(EOK))
    else Out(k, Code(EPERM))
  }

  // The last unlock: the first waiter becomes the owner, or the mutex is free.
  function Release(k: K, m: nat): K {
    var d := Detach(k.s, Held(k.current), m);
    if Queue(k.s, MtxQ(m)) != []
    then Transfer(k.(s := Realloc(d, k.current, CalcInherited(d, k.current))), m)
    else k.(s := d, mtx := k.mtx[m := Mutex(0, Free)])
  }

  function MutexUnlock(k: K, m: nat): Out {
    if m !in k.mtx then Out(k, Code(EINVARG))
    else if k.mtx[m].owner.Free? then Out(k, Code(ENOTLOCKED))
    else if k.mtx[m].count < 1 then Out(Bug(k), Blocked)
    else if k.mtx[m].owner.t != k.current then Out(k, Code(EPERM))
    else if k.mtx[m].count > 1 then
      Out(k.(mtx := k.mtx[m := Mutex(k.mtx[m].count - 1, Held(k.current))]), Code(EOK))
    else if m !in Owned(k.s, k.current) then Out(Bug(k), Blocked)
    else Out(Release(k, m), Code(EOK))
  }

  // The loop of _isixp_mutex_unlock_all_in_task over the owned mutexes.
  function ReleaseEach(k: K, ms: seq<nat>): K
    decreases |ms|
  {
    if ms == [] then k
    else if ms[0] !in k.mtx then Bug(k)
    else if Queue(k.s, MtxQ(ms[0])) != [] then ReleaseEach(Transfer(k, ms[0]), ms[1..])
    else ReleaseEach(k.(s := Detach(k.s, k.mtx[ms[0]].owner, ms[0]), mtx := k.mtx[ms[0] := Mutex(0, Free)]), ms[1..])
  }

  function UnlockAllIn(k: K, u: Tid): K {
    var d := ReleaseEach(k, Owned(k.s, u));
    if u == k.current then d.(s := Reinherit(d.s, u)) else d
  }

  // The waiters of a destroyed mutex, woken in list order.
  function DestroyWaiters(k: K, ts: seq<Tid>): K
    decreases |ts|
  {
    if ts == [] then k
    else
      var d := ListDelete(k.s, ts[0]);
      DestroyWaiters(WakeUp(k.(s := SetPrio(d, ts[0], CalcInherited(d, ts[0]))), ts[0], Msg(EDESTROY)), ts[1..])
  }

  function DropQueue(s: S, q: Qid): S { s.(queues := s.queues - {q}) }

  // The owner was handed the mutex and has not run since.
  predicate HandedTo(s: S, o: Owner, m: nat) { o.Held? && o.t in s.tasks && s.tasks[o.t].token == Handed(m) }

  // The mutex leaves its owner's list because it is destroyed.
  function Forsake(s: S, o: Owner, m: nat): S {
    if HandedTo(s, o, m) then SetToken(Detach(s, o, m), o.t, Lost) else Detach(s, o, m)
  }

  function MutexDestroy(k: K, m: nat): Out {
    if m !in k.mtx then Out(k, Code(EINVARG))
    else
      var o := k.mtx[m].owner;
      var d := DestroyWaiters(k.(s := Forsake(k.s, o, m), mtx := k.mtx[m := Mutex(0, Free)]), Queue(k.s, MtxQ(m)));
      var s := if o.Held? then Reinherit(d.s, o.t) else d.s;
      Out(d.(s := DropQueue(s, MtxQ(m)), mtx := d.mtx - {m}), Code(EOK))
  }

  // ---- condvar.c ----

  // _isixp_get_top_currt_mutex picks the head of the owned list.
  function CondWait(k: K, c: nat, timeout: nat): Out {
    if CondQ(c) !in k.s.queues || timeout == DONTWAIT then Out(k, Code(EINVARG))
    else if Owned(k.s, k.current) == [] then Out(k, Code(EINVARG))
    else
      var m := Owned(k.s, k.current)[0];
      var u := MutexUnlock(k, m);
      if u.ret != Code(EOK) then u else Out(BlockOnCond(u.k, c, m, timeout), Blocked)
  }

  function BlockOnCond(k: K, c: nat, m: nat, timeout: nat): K {
    var d := SetSleep(SetCall(k.s, k.current, InCond(m)), k.current, WtCond);
    k.(s := SetObj(AddToPrioQueue(d, CondQ(c), k.current), k.current, Cond(c)),
       clock := SetTimeout(k.clock, k.current, timeout))
  }

  function CondSignal(k: K, c: nat): Out {
    if CondQ(c) !in k.s.queues then Out(k, Code(EINVARG))
    else if k.s.queues[CondQ(c)] == [] then Out(k, Code(EOK))
    else
      var t := k.s.queues[CondQ(c)][0];
      if t in k.s.tasks && k.s.tasks[t].state.WtCond?
      then Out(WakeUp(k.(s := ListDelete(k.s, t)), t, Msg(EOK)), Code(EOK)) else Out(Bug(k), Blocked)
  }

  function CondBroadcast(k: K, c: nat): Out {
    if CondQ(c) !in k.s.queues then Out(k, Code(EINVARG))
    else Out(WakeAll(k, k.s.queues[CondQ(c)], Msg(EOK)), Code(EOK))
  }

  function CondDestroy(k: K, c: nat): Out {
    if CondQ(c) !in k.s.queues then Out(k, Code(EINVARG))
    else
      var d := WakeAll(k, k.s.queues[CondQ(c)], Msg(EDESTROY));
      Out(d.(s := DropQueue(d.s, CondQ(c))), Code(EOK))
  }

  // ---- semaphore.c ----

  function Grant(v: Semaphore): Semaphore { v.(grants := v.grants + 1) }

  // isix_sem_trywait, and isix_sem_wait with ISIX_TIME_DONTWAIT
  function SemTrywait(k: K, s: nat, fail: int): Out {
    if s !in k.sems then Out(k, Code(EINVARG))
    else
      var v := k.sems[s];
      if v.value > 0 then Out(k.(sems := k.sems[s := Grant(v.(value := v.value - 1))]), Code(EOK))
      else Out(k, Code(fail))
  }

  // Ticks since start, modulo 2^32.
  function Elapsed(c: Clock, start: nat): nat { (c.jiffies + TICKS - start % TICKS) % TICKS }

  function BlockOnSem(k: K, s: nat, call: Call, timeout: nat): K {
    var c := k.current;
    var d := SetSleep(SetAborted(SetObj(SetCall(k.s, c, call), c, Sem(s)), c, false), c, WtSem);
    k.(s := AddToPrioQueue(d, SemQ(s), c), clock := SetTimeout(k.clock, c, timeout))
  }

  // One turn of the loop in isix_sem_wait.
  function SemTake(k: K, s: nat, start: nat, timeout: nat): Out {
    if s !in k.sems then Out(Bug(k), Blocked)
    else
      var v := k.sems[s].(value := k.sems[s].value - 1);
      var elapsed := Elapsed(k.clock, start);
      if v.value >= 0 then
        Out(k.(s := SetCall(k.s, k.current, NoCall), sems := k.sems[s := Grant(v)]), Code(EOK))
      else if timeout != INFINITE && elapsed >= timeout then
        Out(k.(s := SetCall(k.s, k.current, NoCall), sems := k.sems[s := SemInc(v)]), Code(ETIMEOUT))
      else
        Out(BlockOnSem(k.(sems := k.sems[s := v]), s, InSem(s, start, timeout),
                       if timeout == INFINITE then INFINITE else timeout - elapsed), Blocked)
  }

  function SemWait(k: K, s: nat, timeout: nat): Out {
    if s !in k.sems then Out(k, Code(EINVARG))
    else if timeout == DONTWAIT then SemTrywait(k, s, ETIMEOUT)
    else SemTake(k, s, k.clock.jiffies, timeout)
  }

  // _isixp_sem_signal; the waiter taken off the list receives the token.
  function SemSignal(k: K, s: nat): Out {
    if s !in k.sems then Out(k, Code(EINVARG))
    else
      var v := SemInc(k.sems[s]).(signals := k.sems[s].signals + 1);
      if v.value <= 0 && Queue(k.s, SemQ(s)) != [] then
        var t := k.s.queues[SemQ(s)][0];
        var d := ListDelete(k.s, t);
        if t in d.tasks && d.tasks[t].state.WtSem? then
          Out(WakeUp(k.(s := Put(d, t, d.tasks[t].(token := Granted)), sems := k.sems[s := Grant(v)]), t, Msg(EOK)), Code(EOK))
        else Out(k.(s := d, sems := k.sems[s := v]), Code(EOK))
      else Out(k.(sems := k.sems[s := v]), Code(EOK))
  }

  // The value _isix_port_atomic_sem_write_val stores.
  function ResetValue(limit: nat, val: int): nat {
    var v := if 0 < limit < val then limit else val;
    if v < 0 then 0 else v
  }

  // _isixp_sem_reset; the history counters start again from the new value.
  function SemReset(k: K, s: nat, val: int): Out {
    if s !in k.sems then Out(k, Code(EINVARG))
    else
      var l := k.sems[s].limit;
      var v := Semaphore(ResetValue(l, val), l, ResetValue(l, val), 0, 0);
      Out(WakeAll(k.(sems := k.sems[s := v]), Queue(k.s, SemQ(s)), Msg(ERESET)), Code(EOK))
  }

  function SemDestroy(k: K, s: nat): Out {
    if s !in k.sems then Out(k, Code(EINVARG))
    else
      var d := WakeAll(k, Queue(k.s, SemQ(s)), Msg(EDESTROY));
      Out(d.(s := DropQueue(d.s, SemQ(s)), sems := d.sems - {s}), Code(EOK))
  }

  // ---- events.c ----

  const ALL_FLAG: bv32 := 0x8000_0000
  const CLEAR_FLAG: bv32 := 0x4000_0000
  const CTRL: bv32 := 0xC000_0000
  const EVBITS: bv32 := 0x3FFF_FFFF

  predicate Plain(bits: bv32) { bits & CTRL == 0 }
  predicate HasAll(bits: bv32, w: bv32) { bits & w == w }
  function With(bits: bv32, more: bv32): bv32 { bits | more }
  function Without(bits: bv32, mask: bv32): bv32 { bits & !mask }

  predicate CheckCond(bits: bv32, waitFor: bv32, all: bool) {
    if all then HasAll(bits, waitFor) else bits & waitFor != 0
  }

  predicate CheckCond2(bits: bv32, w: bv32) { CheckCond(bits, w & EVBITS, w & ALL_FLAG != 0) }

  function EvWord(bits: bv32, clear: bool, all: bool): bv32 {
    bits | (if all then ALL_FLAG else 0) | (if clear then CLEAR_FLAG else 0)
  }

  function BlockOnEvent(k: K, e: nat, call: Call, w: bv32, timeout: nat): K {
    var c := k.current;
    var d := SetSleep(SetAborted(SetCall(k.s, c, call), c, false), c, WtEvt);
    k.(s := SetObj(InsertEnd(d, EvtQ(e), c), c, Bits(w)), clock := SetTimeout(k.clock, c, timeout))
  }

  // One turn of the loop in isix_event_wait.
  function EventTake(k: K, e: nat, bits: bv32, clear: bool, all: bool, start: nat, timeout: nat): Out {
    if e !in k.evts then Out(Bug(k), Blocked)
    else
      var cur := k.evts[e];
      var done := k.(s := SetCall(k.s, k.current, NoCall));
      var elapsed := Elapsed(k.clock, start);
      if CheckCond(cur, bits, all) then
        Out(if clear then done.(evts := k.evts[e := Without(cur, bits)]) else done, Mask(cur))
      else if timeout == DONTWAIT then Out(done, Mask(cur))
      else if timeout != INFINITE && elapsed >= timeout then Out(done, Code(ETIMEOUT))
      else
        Out(BlockOnEvent(k, e, InEvent(e, bits, clear, all, start, timeout), EvWord(bits, clear, all),
                         if timeout == INFINITE then INFINITE else timeout - elapsed), Blocked)
  }

  function EventWait(k: K, e: nat, bits: bv32, clear: bool, all: bool, timeout: nat): Out {
    if e !in k.evts || bits == 0 || !Plain(bits) then Out(k, Code(EINVARG))
    else EventTake(k, e, bits, clear, all, k.clock.jiffies, timeout)
  }

  function EventClear(k: K, e: nat, bits: bv32): Out {
    if e !in k.evts || !Plain(bits) then Out(k, Code(EINVARG))
    else Out(k.(evts := k.evts[e := Without(k.evts[e], bits)]), Mask(k.evts[e]))
  }

  predicate Satisfied(s: S, t: Tid, bits: bv32) {
    t in s.tasks && s.tasks[t].obj.Bits? && CheckCond2(bits, s.tasks[t].obj.b)
  }

  predicate WantsClear(w: bv32) { w & CLEAR_FLAG != 0 }
  function Asked(w: bv32): bv32 { w & EVBITS }

  // The loop of event_set: every waiter whose condition holds is woken with the bits.
  function SetLoop(k: K, ts: seq<Tid>, bits: bv32): K
    decreases |ts|
  {
    if ts == [] then k
    else if Satisfied(k.s, ts[0], bits)
    then SetLoop(WakeUp(k.(s := ListDelete(k.s, ts[0])), ts[0], Bits(bits)), ts[1..], bits)
    else SetLoop(k, ts[1..], bits)
  }

  // The bits that the woken waiters asked to clear, collected by the same loop.
  function ClearMask(s: S, ts: seq<Tid>, bits: bv32): bv32 {
    if ts == [] then 0
    else if Satisfied(s, ts[0], bits) && WantsClear(s.tasks[ts[0]].obj.b)
    then With(Asked(s.tasks[ts[0]].obj.b), ClearMask(s, ts[1..], bits))
    else ClearMask(s, ts[1..], bits)
  }

  // event_set
  function SetBits(k: K, e: nat, bits: bv32): K
    requires e in k.evts
  {
    var b := With(k.evts[e], bits);
    var ts := Queue(k.s, EvtQ(e));
    SetLoop(k, ts, b).(evts := k.evts[e := Without(b, ClearMask(k.s, ts, b))])
  }

  function EventSet(k: K, e: nat, bits: bv32): Out {
    if e !in k.evts || !Plain(bits) then Out(k, Code(EINVARG))
    else Out(SetBits(k, e, bits), Mask(SetBits(k, e, bits).evts[e]))
  }

  function EventSync(k: K, e: nat, toSet: bv32, toWait: bv32, timeout: nat): Out {
    if e !in k.evts || !Plain(toSet) || toWait == 0 || !Plain(toWait) then Out(k, Code(EINVARG))
    else
      var org := With(k.evts[e], toSet);
      var d := SetBits(k, e, toSet);
      if HasAll(org, toWait) then Out(d.(evts := d.evts[e := Without(d.evts[e], toWait)]), Mask(org))
      else if timeout == DONTWAIT then Out(d, Mask(d.evts[e]))
      else
        Out(BlockOnEvent(d, e, InSync(e, toWait, k.clock.jiffies, timeout), EvWord(toWait, true, true), timeout), Blocked)
  }

  function EventDestroy(k: K, e: nat): Out {
    if e !in k.evts then Out(k, Code(EINVARG))
    else
      var d := WakeAll(k, Queue(k.s, EvtQ(e)), Msg(EDESTROY));
      Out(d.(s := DropQueue(d.s, EvtQ(e)), evts := d.evts - {e}), Code(EOK))
  }

  // ---- task.c and ostime.c ----

  function NewTask(prio: nat, suspended: bool, ref: bool): Task {
    Task(prio, prio, if ref then 1 else 0, [], if suspended then Suspend else Created, false, 0, NoObj, Off, NoCall, NoToken)
  }

  // isix_task_create; t is the identity of the new task.  The idle priority is accepted too.
  function TaskCreate(k: K, t: Tid, prio: nat, suspended: bool, ref: bool): K {
    if prio > PRIOS then k
    else
      var d := k.(s := Put(k.s, t, NewTask(prio, suspended, ref)).(queues := k.s.queues[ExitQ(t) := []]));
      if suspended then d else WakeUp(d, t, Msg(EOK))
  }

  // isix_task_change_prio
  function ChangePrio(k: K, t: Tid, p: nat): Out {
    if p > PRIOS - 1 then Out(k, Code(ENOPRIO))
    else if t !in k.s.tasks then Out(Bug(k), Blocked)
    else
      var r := k.s.tasks[t];
      if r.base == p then Out(k, Code(EOK))
      else
        var d := Put(k.s, t, r.(base := p));
        Out(k.(s := if r.prio == r.base || p < r.prio then Realloc(d, t, p) else d), Code(r.base))
  }

  predicate Finished(s: S, t: Tid) {
    t in s.tasks && (s.tasks[t].state.Zombie? || s.tasks[t].state.Exited?)
  }

  // A killed task will not continue the call it is in; what it waits for is settled below.
  function Abandon(s: S, t: Tid): S {
    if t in s.tasks && (s.tasks[t].state.WtMtx? || s.tasks[t].state.WtSem?) then s else SetCall(s, t, NoCall)
  }

  // isix_task_kill
  function Kill(k: K, t: Tid): K {
    if t !in k.s.tasks then Bug(k)
    else if Finished(k.s, t) then k
    else
      var u := UnlockAllIn(k.(s := Abandon(k.s, t)), t);
      KillOrSuspend(WakeAll(u, Queue(u.s, ExitQ(t)), Msg(if t == k.current then EOK else EDESTROY)), t, false)
  }

  // isix_task_suspend
  function SuspendTask(k: K, t: Tid): K {
    if t !in k.s.tasks then Bug(k)
    else if Finished(k.s, t) || k.s.tasks[t].state.Suspend? then k
    else KillOrSuspend(k, t, true)
  }

  // The waits whose result says whether they got what they waited for.
  predicate Earns(c: Call) { c.InSem? || c.InLock? || c.InEvent? || c.InSync? }

  // Those, and the wait for the end of a task, whose result says how it ended.
  predicate Answers(c: Call) { Earns(c) || c.InExit? }

  // The wake up below replaces the result of a wait that ended before the task was suspended.
  predicate Overwritten(r: Task) { !r.aborted && if r.call.InExit? then r.obj != Msg(EOK) else Earns(r.call) && r.token.NoToken? }

  function Forge(s: S, t: Tid): S {
    if t in s.tasks && Overwritten(s.tasks[t]) then Put(s, t, s.tasks[t].(token := Forged)) else s
  }

  // isix_task_resume
  function Resume(k: K, t: Tid): Out {
    if t == k.current || t !in k.s.tasks then Out(k, Code(EINVARG))
    else if k.s.tasks[t].state.Suspend? then Out(WakeUp(k.(s := Forge(k.s, t)), t, Msg(EOK)), Code(EOK))
    else Out(k, Code(ESTATE))
  }

  // One turn of the loop in isix_task_wait_for.
  function WaitFor(k: K, t: Tid): Out {
    var c := k.current;
    if t == c || t !in k.s.tasks then Out(k, Code(EINVARG))
    else if k.s.tasks[t].refcnt == 0 then Out(k.(s := SetCall(k.s, c, NoCall)), Code(ENOREF))
    else if Finished(k.s, t) then Out(k.(s := SetCall(k.s, c, NoCall)), Code(EOK))
    else
      var d := SetSleep(SetAborted(SetCall(k.s, c, InExit(t)), c, false), c, WtExit);
      Out(k.(s := InsertEnd(d, ExitQ(t), c)), Blocked)
  }

  // isix_wait
  function Sleep(k: K, timeout: nat): Out {
    Out(k.(s := SetSleep(SetCall(k.s, k.current, InWait), k.current, Sleeping),
           clock := SetTimeout(k.clock, k.current, timeout)), Blocked)
  }

  // cleanup_tasks, run by the idle task
  function Cleanup(k: K): K {
    if k.deleted == 0 || Queue(k.s, Zombies) == [] then k
    else
      var t := k.s.queues[Zombies][0];
      var d := SetState(ListDelete(k.s, t), t, Exited);
      k.(deleted := k.deleted - 1,
         s := if t in d.tasks && d.tasks[t].refcnt == 0 then DropQueue(d.(tasks := d.tasks - {t}), ExitQ(t)) else d)
  }

  // ---- the rest of a blocked call, after isix_yield ----

  function Return(k: K, o: Obj): Out {
    Out(k.(s := SetCall(k.s, k.current, NoCall)),
        if o.Msg? then Code(o.code) else if o.Bits? then Mask(o.b) else Blocked)
  }

  function Continue(k: K): Out {
    if k.current !in k.s.tasks then Out(Bug(k), Blocked)
    else
      var r := k.s.tasks[k.current];
      var done := k.(s := SetCall(k.s, k.current, NoCall));
      match r.call
      case NoCall => Out(k, Blocked)
      case InWait => Out(done, Code(EOK))
      case InLock(m) => if r.aborted then MutexLock(done, m) else Return(k, r.obj)
      case InSem(s, start, timeout) => if r.aborted then SemTake(k, s, start, timeout) else Return(k, r.obj)
      case InExit(t) => if r.aborted then WaitFor(done, t) else Return(k, r.obj)
      case InEvent(e, bits, clear, all, start, timeout) =>
        if r.aborted then EventTake(k, e, bits, clear, all, start, timeout) else Return(k, r.obj)
      case InSync(e, bits, start, timeout) =>
        var elapsed := Elapsed(k.clock, start);
        if !r.aborted then Return(k, r.obj)
        else if timeout != INFINITE && elapsed >= timeout then Return(k, Msg(ETIMEOUT))
        else EventWait(done, e, bits, true, true, if timeout == INFINITE then INFINITE else timeout - elapsed)
      case InCond(m) => if r.obj == Msg(EOK) then MutexLock(done, m) else Return(k, r.obj)
  }

  // ---- scheduler.c: the switch ----

  // The running task goes to the end of its node's list.
  function Rotate(s: S, t: Tid): S {
    if t in s.tasks && s.tasks[t].state.Running?
    then SetState(InsertEnd(ListDelete(s, t), Node(s.tasks[t].elem), t), t, Ready) else s
  }

  // _isixp_schedule
  function Switch(k: K): K {
    var d := Rotate(k.s, k.current);
    if d.ready == [] || Queue(d, Node(d.ready[0])) == [] then Bug(k)
    else
      var t := d.queues[Node(d.ready[0])][0];
      if t !in d.tasks || !d.tasks[t].state.Ready? || d.ready[0] !in d.nprio || d.tasks[t].prio != d.nprio[d.ready[0]]
      then Bug(k)
      else k.(s := SetState(d, t, Running), current := t)
  }

  // ---- scheduler.c: time ----

  // A task whose deadline has passed leaves the list of the object it waits for.
  function TimedOut(s: S, t: Tid): S {
    if t in s.tasks && (s.tasks[t].state.WtSem? || s.tasks[t].state.WtEvt? || s.tasks[t].state.WtCond?)
    then SetObj(ListDelete(s, t), t, Msg(ETIMEOUT)) else s
  }

  function WakeTimedOut(k: K, t: Tid): K {
    k.(s := AddReady(TimedOut(k.s, t), t),
       sems := if t in k.s.tasks then ReturnToken(k.sems, k.s.tasks[t]) else k.sems)
  }

  function SetCur(k: K, cur: seq<Tid>): K { k.(clock := k.clock.(cur := cur)) }

  // expire_waiting_tasks
  function Expire(k: K, now: nat): K
    decreases |k.clock.cur|
  {
    var cur := k.clock.cur;
    if cur == [] || (cur[0] in k.clock.due && now < k.clock.due[cur[0]]) then k
    else Expire(SetCur(WakeTimedOut(k, cur[0]), cur[1..]), now)
  }

  function SetJiffies(k: K, j: nat): K { k.(clock := k.clock.(jiffies := j)) }

  // The counter wraps to zero and the two wait lists change places.
  function Wrap(k: K): K {
    k.(clock := Clock(k.clock.epoch + 1, 0, k.clock.ovf, k.clock.cur, k.clock.due))
  }

  // advance_jiffies, with the scheduler running
  function Advance(k: K, ticks: nat): K
    decreases ticks
  {
    if ticks == 0 || k.clock.jiffies >= TICKS then k
    else
      var j := k.clock.jiffies;
      var toWrap := TICKS - j;
      if ticks < toWrap then Expire(SetJiffies(k, j + ticks), j + ticks)
      else
        var d := if toWrap > 1 then Expire(SetJiffies(k, TICKS - 1), TICKS - 1) else k;
        Advance(Expire(Wrap(d), 0), ticks - toWrap)
  }

  // calculate_next_timeout; vtd is what _isixp_vtimers_next_timeout_delta returns
  function NextTimeout(c: Clock, vtd: nat): int {
    var wrap := if TICKS - c.jiffies > TICKS - 1 then TICKS - 1 else TICKS - c.jiffies;
    var until := if c.cur != [] && c.cur[0] in c.due && c.due[c.cur[0]] >= c.jiffies
                 then c.due[c.cur[0]] - c.jiffies else TICKS - 1;
    var u := if vtd < until then vtd else until;
    var v := if wrap < u then wrap - 1 else u;
    if v == 0 then 1 else v
  }
}
