/**
 The state of the ISIX kernel (struct isix_system and the objects reachable from
 it) and the list and priority primitives of libisix/kernel/scheduler.c.

 Tasks, semaphores, mutexes, condition variables and event groups are named by
 natural numbers.  The link fields of a task (`inode`, `inode_time`) say which list
 holds it, so that `list_delete` can be modelled without pointers.  Every function
 is total: `isix_bug`, and a list operation on an element that is not linked as the
 operation needs, set `bug`.
 */
module KernelState {
  import opened Lists

  type Tid = nat

  const TICKS: nat := 0x1_0000_0000   // ostick_t is 32 bits wide
  const PRIOS: nat := 16              // CONFIG_ISIX_NUMBER_OF_PRIORITIES
  const IDLE: Tid := 0                // the idle task, created first by isix_init
  const INFINITE: nat := 0
  const DONTWAIT: nat := 0xFFFF_FFFF

  const EOK: int := 0
  const ETIMEOUT: int := -3
  const EINVARG: int := -4
  const EBUSY: int := -6
  const ENOPRIO: int := -7
  const ERESET: int := -9
  const EDESTROY: int := -10
  const ESTATE: int := -11
  const EPERM: int := -12
  const ENOTLOCKED: int := -14
  const ENOREF: int := -15

  // The task lists: one per priority node, one per kernel object, and the zombies.
  datatype Qid = Node(n: nat) | SemQ(s: nat) | MtxQ(m: nat) | CondQ(c: nat)
               | EvtQ(e: nat) | ExitQ(t: Tid) | Zombies

  datatype Link = Off | In(q: Qid)

  datatype State = Ready | Running | Created | Sleeping | WtSem | Zombie | Schedule
                 | WtEvt | Suspend | WtMtx | WtCond | WtExit | Exited

  // The union task->obj.
  datatype Obj = NoObj | Sem(s: nat) | Mtx(m: nat) | Cond(c: nat) | Bits(b: bv32) | Msg(code: int)

  // Where a task that has blocked inside a system call continues.
  datatype Call = NoCall
                | InLock(m: nat)
                | InSem(s: nat, start: nat, timeout: nat)
                | InEvent(e: nat, bits: bv32, clear: bool, all: bool, start: nat, timeout: nat)
                | InSync(e: nat, bits: bv32, start: nat, timeout: nat)
                | InCond(m: nat)
                | InExit(t: Tid)
                | InWait

  // Whether the pending wait was given what it waits for: a token of the semaphore, or the
  // mutex m.  Forged: the wait had ended otherwise, but resuming the suspended task wrote EOK
  // over its result.  Lost: the mutex was destroyed before its new owner ran.  History; no
  // operation reads this.
  datatype Token = NoToken | Granted | Handed(m: nat) | Forged | Lost

  datatype Task = Task(prio: nat, base: nat, refcnt: nat, owned: seq<nat>, state: State, aborted: bool,
                       elem: nat, obj: Obj, inode: Link, call: Call, token: Token)

  // The tasks and the lists that link them: the priority nodes in urgency order, the free
  // nodes, the priority of each node, and the content of every task list.
  datatype S = S(tasks: map<Tid, Task>, queues: map<Qid, seq<Tid>>,
                 ready: seq<nat>, free: seq<nat>, nprio: map<nat, nat>, bug: bool, line: Line)

  // How many times a task was put on a task list, and for each task the number of its last
  // time.  History; no operation reads this.
  datatype Line = Line(since: map<Tid, nat>, turn: nat)

  function Came(l: Line, t: Tid): Line { Line(l.since[t := l.turn], l.turn + 1) }

  // The tick counter, split into wraps and jiffies, the two wait lists, and task->jiffies.
  datatype Clock = Clock(epoch: nat, jiffies: nat, cur: seq<Tid>, ovf: seq<Tid>, due: map<Tid, nat>)

  // The history counters `initial`, `signals` and `grants` are not read by any operation.
  datatype Semaphore = Semaphore(value: int, limit: nat, initial: int, signals: nat, grants: nat)

  datatype Owner = Free | Held(t: Tid)
  datatype Mutex = Mutex(count: int, owner: Owner)

  datatype K = K(s: S, clock: Clock, current: Tid, sems: map<nat, Semaphore>,
                 mtx: map<nat, Mutex>, evts: map<nat, bv32>, deleted: nat)

  function Fail(s: S): S { s.(bug := true) }

  function Put(s: S, t: Tid, r: Task): S { s.(tasks := s.tasks[t := r]) }

  // ---- task lists (prv/list.h) ----

  function ListDelete(s: S, t: Tid): S {
    if t in s.tasks && s.tasks[t].inode.In? && s.tasks[t].inode.q in s.queues then
      var q := s.tasks[t].inode.q;
      s.(tasks := s.tasks[t := s.tasks[t].(inode := Off)], queues := s.queues[q := Remove(s.queues[q], t)])
    else Fail(s)
  }

  function ListInsert(s: S, q: Qid, i: nat, t: Tid): S {
    if t in s.tasks && s.tasks[t].inode.Off? && q in s.queues && i <= |s.queues[q]| then
      s.(tasks := s.tasks[t := s.tasks[t].(inode := In(q))], queues := s.queues[q := Insert(s.queues[q], i, t)], line := Came(s.line, t))
    else Fail(s)
  }

  function InsertEnd(s: S, q: Qid, t: Tid): S {
    if q in s.queues then ListInsert(s, q, |s.queues[q]|, t) else Fail(s)
  }

  // The first waiter that is less urgent than p; smaller numbers are more urgent.
  function PrioPos(tasks: map<Tid, Task>, ts: seq<Tid>, p: nat): (i: nat)
    ensures i <= |ts|
  {
    if ts == [] || (ts[0] in tasks && p < tasks[ts[0]].prio) then 0 else 1 + PrioPos(tasks, ts[1..], p)
  }

  // _isixp_add_to_prio_queue
  function AddToPrioQueue(s: S, q: Qid, t: Tid): S {
    if t in s.tasks && q in s.queues
    then ListInsert(s, q, PrioPos(s.tasks, s.queues[q], s.tasks[t].prio), t)
    else Fail(s)
  }

  // ---- the ready list ----

  // The first node whose priority is equal to or less urgent than p.
  function NodePos(nprio: map<nat, nat>, ready: seq<nat>, p: nat): (i: nat)
    ensures i <= |ready|
  {
    if ready == [] || (ready[0] in nprio && p <= nprio[ready[0]]) then 0
    else 1 + NodePos(nprio, ready[1..], p)
  }

  // alloc_task_ready_t: the first free node n becomes the node of priority p at place i.
  function Opened(s: S, n: nat, i: nat, p: nat): S
    requires s.free != [] && i <= |s.ready|
  {
    s.(queues := s.queues[Node(n) := []], ready := Insert(s.ready, i, n), free := s.free[1..], nprio := s.nprio[n := p])
  }

  // add_ready_list
  function AddReady(s: S, t: Tid): S {
    if t !in s.tasks || s.tasks[t].prio > PRIOS || s.tasks[t].state.Ready? || s.tasks[t].state.Zombie? then Fail(s)
    else
      var p := s.tasks[t].prio;
      var i := NodePos(s.nprio, s.ready, p);
      if i < |s.ready| && s.ready[i] in s.nprio && s.nprio[s.ready[i]] == p then
        InsertEnd(Put(s, t, s.tasks[t].(state := Ready, elem := s.ready[i])), Node(s.ready[i]), t)
      else if s.free == [] then Fail(s)
      else
        var n := s.free[0];
        InsertEnd(Opened(Put(s, t, s.tasks[t].(state := Ready, elem := n)), n, i, p), Node(n), t)
  }

  // delete_from_ready_list
  function DelReady(s: S, t: Tid): S {
    var d := ListDelete(s, t);
    if t in s.tasks && Node(s.tasks[t].elem) in d.queues && d.queues[Node(s.tasks[t].elem)] == [] then
      var n := s.tasks[t].elem;
      if n in d.ready then d.(ready := Remove(d.ready, n), free := d.free + [n]) else Fail(d)
    else d
  }

  // ---- fields of one task ----

  function SetState(s: S, t: Tid, st: State): S {
    if t in s.tasks then Put(s, t, s.tasks[t].(state := st)) else Fail(s)
  }

  function SetObj(s: S, t: Tid, o: Obj): S {
    if t in s.tasks then Put(s, t, s.tasks[t].(obj := o)) else Fail(s)
  }

  function SetPrio(s: S, t: Tid, p: nat): S {
    if t in s.tasks then Put(s, t, s.tasks[t].(prio := p)) else Fail(s)
  }

  function SetCall(s: S, t: Tid, c: Call): S {
    if t in s.tasks then Put(s, t, s.tasks[t].(call := c, token := NoToken)) else Fail(s)
  }

  function SetToken(s: S, t: Tid, x: Token): S {
    if t in s.tasks then Put(s, t, s.tasks[t].(token := x)) else Fail(s)
  }

  function SetAborted(s: S, t: Tid, a: bool): S {
    if t in s.tasks then Put(s, t, s.tasks[t].(aborted := a)) else Fail(s)
  }

  function SetOwned(s: S, t: Tid, ms: seq<nat>): S {
    if t in s.tasks then Put(s, t, s.tasks[t].(owned := ms)) else Fail(s)
  }

  // ---- changing priority ----

  // A task that waits in a prio queue moves to the place of its new priority.
  function Requeue(s: S, q: Qid, t: Tid, p: nat): S {
    AddToPrioQueue(SetPrio(ListDelete(s, t), t, p), q, t)
  }

  // _isixp_reallocate_priority
  function Realloc(s: S, t: Tid, p: nat): S {
    if t !in s.tasks then Fail(s)
    else
      var r := s.tasks[t];
      if r.state.Ready? || r.state.Running? then AddReady(SetState(SetPrio(DelReady(s, t), t, p), t, Schedule), t)
      else if r.state.WtSem? && r.obj.Sem? then Requeue(s, SemQ(r.obj.s), t, p)
      else if r.state.WtMtx? && r.obj.Mtx? then Requeue(s, MtxQ(r.obj.m), t, p)
      else if r.state.WtCond? && r.obj.Cond? then Requeue(s, CondQ(r.obj.c), t, p)
      else SetPrio(s, t, p)
  }

  // calc_inherited_priority: the loop over the owned mutexes
  function Inherited(s: S, owned: seq<nat>, p: nat): (q: nat)
    ensures q <= p
  {
    if owned == [] then p
    else
      var w := if MtxQ(owned[0]) in s.queues then s.queues[MtxQ(owned[0])] else [];
      Inherited(s, owned[1..], if w != [] && w[0] in s.tasks && s.tasks[w[0]].prio < p then s.tasks[w[0]].prio else p)
  }

  function CalcInherited(s: S, t: Tid): nat {
    if t in s.tasks then Inherited(s, s.tasks[t].owned, s.tasks[t].base) else 0
  }

  // Recompute a task's priority and move it when it changed.
  function Reinherit(s: S, t: Tid): S {
    if t !in s.tasks then Fail(s)
    else if CalcInherited(s, t) != s.tasks[t].prio then Realloc(s, t, CalcInherited(s, t)) else s
  }

  // ---- the time-ordered wait lists ----

  predicate Timed(c: Clock, t: Tid) { t in c.cur || t in c.ovf }

  function TimePos(due: map<Tid, nat>, ts: seq<Tid>, j: nat): (i: nat)
    ensures i <= |ts|
  {
    if ts == [] || (ts[0] in due && j < due[ts[0]]) then 0 else 1 + TimePos(due, ts[1..], j)
  }

  // add_task_to_waiting_list
  function AddWaiting(c: Clock, t: Tid, timeout: nat): Clock {
    var j := (c.jiffies + timeout) % TICKS;
    if j < c.jiffies
    then c.(due := c.due[t := j], ovf := Insert(c.ovf, TimePos(c.due, c.ovf, j), t))
    else c.(due := c.due[t := j], cur := Insert(c.cur, TimePos(c.due, c.cur, j), t))
  }

  // list_delete of task->inode_time, when it is linked
  function TimeDelete(c: Clock, t: Tid): Clock {
    c.(cur := Remove(c.cur, t), ovf := Remove(c.ovf, t))
  }

  // ---- sleeping and waking ----

  function Bug(k: K): K { k.(s := Fail(k.s)) }

  // _isixp_set_sleep, for the current task t
  function SetSleep(s: S, t: Tid, st: State): S { SetState(DelReady(s, t), t, st) }

  // the time part of _isixp_set_sleep_timeout
  function SetTimeout(c: Clock, t: Tid, timeout: nat): Clock {
    if timeout == INFINITE then c else AddWaiting(c, t, timeout)
  }

  // wakeup_task
  function WakeUp(k: K, t: Tid, o: Obj): K {
    k.(s := AddReady(SetObj(k.s, t, o), t), clock := TimeDelete(k.clock, t))
  }

  // ---- semaphore counters (arch/sem_atomic.h) ----

  function SemInc(v: Semaphore): Semaphore {
    v.(value := if 0 < v.limit < v.value + 1 then v.limit else v.value + 1)
  }

  // _isixp_sem_fast_signal for a task that stops waiting for a semaphore without a token
  function ReturnToken(sems: map<nat, Semaphore>, r: Task): map<nat, Semaphore> {
    if r.state.WtSem? && r.obj.Sem? && r.obj.s in sems then sems[r.obj.s := SemInc(sems[r.obj.s])] else sems
  }

  // ---- kill and suspend ----

  // _isixp_mutex_waiter_removed
  function WaiterRemoved(s: S, mtx: map<nat, Mutex>, m: nat): S {
    if m !in mtx then Fail(s) else if mtx[m].owner.Free? then s else Reinherit(s, mtx[m].owner.t)
  }

  // The list a task leaves when it is killed or suspended.
  function LeaveQueue(s: S, mtx: map<nat, Mutex>, t: Tid, suspend: bool): S {
    if t !in s.tasks then Fail(s)
    else
      match s.tasks[t].state
      case Ready => DelReady(s, t)
      case Running => DelReady(s, t)
      case WtEvt => SetAborted(ListDelete(s, t), t, suspend)
      case WtSem => SetAborted(ListDelete(s, t), t, suspend)
      case WtCond => ListDelete(s, t)
      case WtMtx =>
        var o := s.tasks[t].obj;
        SetAborted(if o.Mtx? then WaiterRemoved(ListDelete(s, t), mtx, o.m) else Fail(s), t, suspend)
      case WtExit => SetAborted(ListDelete(s, t), t, suspend)
      case _ => s
  }

  // _isixp_add_kill_or_set_suspend
  function KillOrSuspend(k: K, t: Tid, suspend: bool): K {
    var l := LeaveQueue(k.s, k.mtx, t, suspend);
    k.(s := if suspend then SetState(l, t, Suspend) else InsertEnd(SetState(l, t, Zombie), Zombies, t),
       clock := TimeDelete(k.clock, t),
       sems := if t in k.s.tasks then ReturnToken(k.sems, k.s.tasks[t]) else k.sems,
       deleted := if suspend then k.deleted else k.deleted + 1)
  }
}
