/**
 The invariant of the kernel.  Every system call, tick and task switch keeps it
 (KernelRun), so it holds in every reachable state.
 */
module KernelInv {
  import opened Lists
  import opened KernelState
  import opened KernelCalls
  import opened KernelLists
  import opened KernelTime

  // Every kernel object has its wait list, and every task the list of those waiting for its end.
  ghost predicate Objects(s: S, sems: map<nat, Semaphore>, mtx: map<nat, Mutex>, evts: map<nat, bv32>) {
    && (forall i: nat :: SemQ(i) in s.queues <==> i in sems)
    && (forall i: nat :: MtxQ(i) in s.queues <==> i in mtx)
    && (forall i: nat :: EvtQ(i) in s.queues <==> i in evts)
    && (forall t: Tid :: ExitQ(t) in s.queues <==> t in s.tasks)
    && Zombies in s.queues
  }

  predicate Sleepy(st: State) { st.Sleeping? || st.WtSem? || st.WtEvt? || st.WtCond? }

  // Only a sleeping or waiting task is on a time list.
  ghost predicate TimeStates(s: S, c: Clock) {
    forall t | Timed(c, t) :: t in s.tasks && Sleepy(s.tasks[t].state)
  }

  predicate Runnable(s: S, t: Tid) {
    t in s.tasks && (s.tasks[t].state.Ready? || s.tasks[t].state.Running?)
  }

  // At most the current task is marked running, and the idle task can always run.
  ghost predicate OneRunning(s: S, current: Tid) {
    && current in s.tasks && Runnable(s, IDLE)
    && (forall t | t in s.tasks && s.tasks[t].state.Running? :: t == current)
  }

  // ---- mutexes ----

  ghost predicate OwnerOk(s: S, m: nat, v: Mutex) {
    && MtxQ(m) in s.queues
    && match v.owner
       case Free => v.count == 0 && s.queues[MtxQ(m)] == []
       case Held(t) => v.count >= 1 && t in s.tasks && m in s.tasks[t].owned && t !in s.queues[MtxQ(m)] && !Finished(s, t)
  }

  // A mutex is on a task's owned list exactly when that task is its owner; a free mutex has
  // no waiters; the owner is alive and does not wait for what it owns.
  ghost predicate Own(s: S, mtx: map<nat, Mutex>) {
    && (forall m {:trigger OwnerOk(s, m, mtx[m])} | m in mtx :: OwnerOk(s, m, mtx[m]))
    && (forall t, m {:trigger m in s.tasks[t].owned} | t in s.tasks && m in s.tasks[t].owned :: m in mtx && mtx[m].owner == Held(t))
    && (forall t {:trigger NoDup(s.tasks[t].owned)} | t in s.tasks :: NoDup(s.tasks[t].owned))
  }

  // ---- semaphores ----

  // A negative value counts the blocked tasks.  Without a limit every token that was there
  // at the start or was signalled has been granted or is still stored.
  predicate SemOk(v: Semaphore, blocked: nat) {
    && blocked == (if v.value < 0 then -v.value else 0)
    && (v.limit == 0 ==> v.initial + v.signals == v.grants + (if v.value > 0 then v.value else 0))
  }

  ghost predicate Sems(s: S, sems: map<nat, Semaphore>) {
    forall i | i in sems :: SemQ(i) in s.queues && SemOk(sems[i], |s.queues[SemQ(i)]|)
  }

  // ---- events ----

  // No waiter's condition holds, and the group has no control bits set.
  ghost predicate EventOk(s: S, e: nat, bits: bv32) {
    && Plain(bits) && EvtQ(e) in s.queues
    && (forall t | t in s.queues[EvtQ(e)] :: t in s.tasks && s.tasks[t].obj.Bits? && !CheckCond2(bits, s.tasks[t].obj.b))
  }

  ghost predicate Events(s: S, evts: map<nat, bv32>) {
    forall e {:trigger EventOk(s, e, evts[e])} | e in evts :: EventOk(s, e, evts[e])
  }

  // Nobody waits for the end of a task that has ended.
  ghost predicate Exits(s: S) {
    forall t: Tid | Finished(s, t) :: Queue(s, ExitQ(t)) == []
  }

  // ---- pending calls ----

  // The arguments a blocked call was made with.
  predicate CallArgs(c: Call) {
    match c
    case InSem(_, _, timeout) => timeout < TICKS
    case InEvent(_, bits, _, _, _, timeout) => timeout < DONTWAIT && Plain(bits) && bits != 0
    case InSync(_, bits, _, timeout) => timeout < DONTWAIT && Plain(bits) && bits != 0
    case _ => true
  }

  predicate EventCall(c: Call) { c.InEvent? || c.InSync? }

  // The word a blocked event wait has stored.
  function WordOf(c: Call): bv32
    requires EventCall(c)
  {
    if c.InEvent? then EvWord(c.bits, c.clear, c.all) else EvWord(c.bits, true, true)
  }

  // A token says what the wait was for, and stands for the result EOK.  Of a wait for the end
  // of a task it says that the result was replaced.
  predicate TokenOk(r: Task) {
    && (!r.call.InExit? ==> (!r.token.NoToken? <==> Earns(r.call) && !r.aborted && r.obj == Msg(EOK)))
    && (r.call.InExit? && !r.token.NoToken? ==> r.token.Forged? && !r.aborted && r.obj == Msg(EOK) && !r.state.WtExit?)
    && (r.token.Granted? ==> r.call.InSem?)
    && (r.token.Handed? ==> r.call == InLock(r.token.m))
    && (r.token.Lost? ==> r.call.InLock?)
    && (r.state.Zombie? || r.state.Exited? ==> r.token.NoToken?)
  }

  // An event wait has stored its condition; one that has ended was given bits that satisfy it,
  // or a message.
  predicate BitsOk(r: Task) {
    EventCall(r.call) && !r.state.Zombie? && !r.state.Exited? ==>
      if r.state.WtEvt? then r.obj == Bits(WordOf(r.call))
      else r.aborted || r.obj.Msg? || (r.obj.Bits? && CheckCond2(r.obj.b, WordOf(r.call)))
  }

  // What the rest of a blocked call will find.  A task that came back from waiting for a
  // mutex was handed it and owns it, unless the wait was cut short or the mutex is gone.
  predicate CallOk(r: Task, t: Tid, mtx: map<nat, Mutex>) {
    && CallArgs(r.call)
    && (r.state.WtMtx? ==> !r.aborted && r.obj.Mtx? && r.call == InLock(r.obj.m))
    && (r.state.WtSem? ==> !r.aborted && r.obj.Sem? && r.call.InSem? && r.call.s == r.obj.s)
    && TokenOk(r) && BitsOk(r)
    && (r.state.WtEvt? ==> !r.call.InSem?)
    && (r.state.WtCond? || r.state.WtExit? || r.state.Sleeping? ==> !Earns(r.call))
    && (r.call.InLock? ==> !Sleepy(r.state) && !r.state.WtExit?)
    && (r.call.InLock? && !r.aborted && !r.state.WtMtx? && !r.state.Zombie? && !r.state.Exited? && r.call.m in mtx
        ==> mtx[r.call.m].owner == Held(t) && r.token == Handed(r.call.m))
  }

  ghost predicate Calls(s: S, mtx: map<nat, Mutex>) {
    forall t {:trigger CallOk(s.tasks[t], t, mtx)} | t in s.tasks :: CallOk(s.tasks[t], t, mtx)
  }

  // The invariant, with the accounts of some semaphores and mutexes left open: while a
  // semaphore is reset or a mutex destroyed, its own waiters do not match its value.
  ghost predicate InvBut(k: K, sems: map<nat, Semaphore>, mtx: map<nat, Mutex>) {
    && Core(k.s) && States(k.s, {}) && TimeInv(k.clock) && TimeStates(k.s, k.clock)
    && Objects(k.s, k.sems, k.mtx, k.evts) && OneRunning(k.s, k.current)
    && k.deleted == |Queue(k.s, Zombies)|
    && Own(k.s, mtx) && Sems(k.s, sems) && Events(k.s, k.evts) && Calls(k.s, mtx) && Exits(k.s)
  }

  ghost predicate Inv(k: K) { InvBut(k, k.sems, k.mtx) }

  // ---- what a change to one task does to each part ----

  lemma KeepObjects(s: S, d: S, t: Tid, sems: map<nat, Semaphore>, mtx: map<nat, Mutex>, evts: map<nat, bv32>)
    requires Objects(s, sems, mtx, evts) && Only(s, d, t)
    ensures Objects(d, sems, mtx, evts)
  {
    OnlyQueues(s, d, t);
    hide Only;
    assert d.tasks.Keys == s.tasks.Keys by { OnlyKeys(s, d, t); }
  }

  lemma OnlyKeys(s: S, d: S, t: Tid)
    requires Only(s, d, t)
    ensures d.tasks.Keys == s.tasks.Keys && t in s.tasks
    ensures forall x | x in s.tasks && x != t :: d.tasks[x] == s.tasks[x]
  {
    hide Remove;
  }

  // t keeps its mutexes and does not start to wait for one it may not wait for.
  lemma KeepOwn(s: S, d: S, t: Tid, mtx: map<nat, Mutex>)
    requires Links(s) && Links(d) && Only(s, d, t) && Own(s, mtx)
    requires d.tasks[t].owned == s.tasks[t].owned
    requires d.tasks[t].owned != [] ==> !d.tasks[t].state.Zombie? && !d.tasks[t].state.Exited?
    requires d.tasks[t].inode != s.tasks[t].inode && d.tasks[t].inode.In? && d.tasks[t].inode.q.MtxQ? ==>
               var m := d.tasks[t].inode.q.m; m in mtx && mtx[m].owner.Held? && mtx[m].owner.t != t
    ensures Own(d, mtx)
  {
    OnlyElsewhere(s, d, t);
    OnlyQueues(s, d, t);
    OnlyKeys(s, d, t);
    hide Only, NoDup;
    forall m | m in mtx ensures OwnerOk(d, m, mtx[m]) {
      assert OwnerOk(s, m, mtx[m]);
      var q := MtxQ(m);
      assert |d.queues[q]| + (if s.tasks[t].inode == In(q) then 1 else 0) == |s.queues[q]| + (if d.tasks[t].inode == In(q) then 1 else 0);
    }
  }

  lemma KeepSems(s: S, d: S, t: Tid, sems: map<nat, Semaphore>)
    requires Links(s) && Links(d) && Only(s, d, t) && Sems(s, sems)
    requires forall i | i in sems :: s.tasks[t].inode == In(SemQ(i)) <==> d.tasks[t].inode == In(SemQ(i))
    ensures Sems(d, sems)
  {
    OnlyElsewhere(s, d, t);
    OnlyQueues(s, d, t);
    hide Only, Links;
    forall i | i in sems ensures SemQ(i) in d.queues && SemOk(sems[i], |d.queues[SemQ(i)]|) {
      assert SemOk(sems[i], |s.queues[SemQ(i)]|);
    }
  }

  lemma KeepZombies(s: S, d: S, t: Tid)
    requires Links(s) && Links(d) && Only(s, d, t) && Zombies in s.queues
    requires s.tasks[t].inode == In(Zombies) <==> d.tasks[t].inode == In(Zombies)
    ensures |Queue(d, Zombies)| == |Queue(s, Zombies)|
  {
    OnlyElsewhere(s, d, t);
    OnlyQueues(s, d, t);
    hide Only, Links;
  }

  // t leaves an event list, stays as it was, or joins one whose bits do not satisfy it.
  lemma KeepEvents(s: S, d: S, t: Tid, evts: map<nat, bv32>)
    requires Links(s) && Links(d) && Only(s, d, t) && Events(s, evts)
    requires d.tasks[t].inode.In? && d.tasks[t].inode.q.EvtQ? ==>
               || (d.tasks[t].inode == s.tasks[t].inode && d.tasks[t].obj == s.tasks[t].obj)
               || (d.tasks[t].obj.Bits? && (d.tasks[t].inode.q.e in evts ==> !CheckCond2(evts[d.tasks[t].inode.q.e], d.tasks[t].obj.b)))
    ensures Events(d, evts)
  {
    OnlyElsewhere(s, d, t);
    OnlyQueues(s, d, t);
    OnlyKeys(s, d, t);
    hide Only, NoDup, CheckCond2;
    forall e | e in evts ensures EventOk(d, e, evts[e]) { assert EventOk(s, e, evts[e]); }
  }

  lemma KeepExits(s: S, d: S, t: Tid)
    requires Links(s) && Links(d) && Only(s, d, t) && Exits(s)
    requires Finished(d, t) ==> Finished(s, t) || Queue(d, ExitQ(t)) == []
    requires d.tasks[t].inode != s.tasks[t].inode && d.tasks[t].inode.In? && d.tasks[t].inode.q.ExitQ? ==> !Finished(d, d.tasks[t].inode.q.t)
    ensures Exits(d)
  {
    OnlyElsewhere(s, d, t);
    OnlyQueues(s, d, t);
    OnlyKeys(s, d, t);
    hide Only, Links;
    forall x: Tid | Finished(d, x) ensures Queue(d, ExitQ(x)) == [] {
      var q := ExitQ(x);
      if q in d.queues {
        assert |d.queues[q]| + (if s.tasks[t].inode == In(q) then 1 else 0) == |s.queues[q]| + (if d.tasks[t].inode == In(q) then 1 else 0);
      }
    }
  }

  lemma KeepRunning(s: S, d: S, t: Tid, current: Tid)
    requires OneRunning(s, current) && Only(s, d, t)
    requires d.tasks[t].state.Running? ==> t == current
    requires t == IDLE ==> Runnable(d, t)
    ensures OneRunning(d, current)
  {
    OnlyKeys(s, d, t);
    hide Only;
  }

  lemma KeepCalls(s: S, d: S, t: Tid, mtx: map<nat, Mutex>)
    requires Calls(s, mtx) && Only(s, d, t) && CallOk(d.tasks[t], t, mtx)
    ensures Calls(d, mtx)
  {
    OnlyKeys(s, d, t);
    hide Only, CallOk;
  }

  lemma KeepStates(s: S, d: S, t: Tid, f: set<Tid>)
    requires States(s, f) && Only(s, d, t)
    ensures States(d, f + {t})
    ensures StateOk(d.tasks[t]) ==> States(d, f - {t})
  {
    OnlyKeys(s, d, t);
    hide Only, StateOk;
  }

  lemma KeepTimes(s: S, d: S, t: Tid, c: Clock)
    requires TimeStates(s, c) && Only(s, d, t)
    requires Timed(c, t) ==> Sleepy(d.tasks[t].state)
    ensures TimeStates(d, c)
  {
    OnlyKeys(s, d, t);
    hide Only;
  }

  // ---- what priority inheritance depends on ----

  predicate Done(r: Task) { r.state.Zombie? || r.state.Exited? }

  predicate SameInherit(r: Task, q: Task) {
    && q.prio == r.prio && q.base == r.base && q.owned == r.owned
    && (q.state.WtMtx? <==> r.state.WtMtx?) && (Done(r) ==> Done(q))
  }

  // A change that leaves priorities, ownership and the mutex queues alone.
  ghost predicate Tame(s: S, d: S) {
    && d.tasks.Keys == s.tasks.Keys
    && (forall t | t in s.tasks :: SameInherit(s.tasks[t], d.tasks[t]))
    && (forall m: nat :: Queue(d, MtxQ(m)) == Queue(s, MtxQ(m)))
  }

  predicate OnMutex(r: Task) { r.inode.In? && r.inode.q.MtxQ? }

  lemma TameOnly(s: S, d: S, t: Tid)
    requires Links(s) && Links(d) && Only(s, d, t) && SameInherit(s.tasks[t], d.tasks[t])
    requires !OnMutex(s.tasks[t]) && !OnMutex(d.tasks[t])
    ensures Tame(s, d)
  {
    OnlyKeys(s, d, t);
    OnlyQueues(s, d, t);
    OnlyElsewhere(s, d, t);
    hide Only, Links;
  }

  lemma TameTwice(s: S, d: S, e: S)
    requires Tame(s, d) && Tame(d, e)
    ensures Tame(s, e)
  {
  }

  lemma TameSelf(s: S)
    ensures Tame(s, s)
  {
  }
}
