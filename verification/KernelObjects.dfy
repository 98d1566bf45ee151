/**
 Condition variables, semaphores and event groups keep the kernel invariant.
 */
module KernelObjects {
  import opened Lists
  import opened KernelState
  import opened KernelCalls
  import opened KernelLists
  import opened KernelTime
  import opened KernelInv
  import opened KernelWake
  import opened KernelMutex

  // ---- waking every waiter of a list ----

  predicate Waiting(st: State) { st.WtSem? || st.WtEvt? || st.WtCond? || st.WtExit? }

  lemma WokenCall(r: Task, t: Tid, mtx: map<nat, Mutex>, o: Obj)
    requires CallOk(r, t, mtx) && StateOk(r) && Waiting(r.state) && (r.state.WtSem? ==> o != Msg(EOK))
    requires r.state.WtEvt? ==> o != Msg(EOK) && (o.Msg? || (o.Bits? && r.obj.Bits? && CheckCond2(o.b, r.obj.b)))
    ensures CallOk(r.(obj := o, state := Ready), t, mtx) && r.token.NoToken?
  {
    hide CallArgs, CheckCond2, EvWord;
  }

  // The lists that are emptied at once; waiters of a semaphore leave without a token.
  predicate WakeList(q: Qid, o: Obj, sems: map<nat, Semaphore>) {
    q.CondQ? || q.ExitQ? || (q.EvtQ? && o != Msg(EOK) && (o.Msg? || o.Bits?)) || (q.SemQ? && q.s !in sems && o != Msg(EOK))
  }

  // Who is on the list of an object waits for that kind of object.
  lemma OnList(s: S, t: Tid, q: Qid)
    requires Core(s) && States(s, {}) && q in s.queues && t in s.queues[q]
    ensures t in s.tasks && s.tasks[t].inode == In(q) && StateOk(s.tasks[t])
    ensures q.CondQ? || q.EvtQ? || q.ExitQ? || q.SemQ? ==> Waiting(s.tasks[t].state)
    ensures q.SemQ? ==> s.tasks[t].state.WtSem? && s.tasks[t].obj == Sem(q.s)
    ensures q.EvtQ? ==> s.tasks[t].state.WtEvt?
    ensures q.CondQ? ==> s.tasks[t].state.WtCond?
    ensures q.MtxQ? ==> s.tasks[t].state.WtMtx?
    ensures q == Zombies ==> s.tasks[t].state.Zombie?
    ensures q.Node? ==> s.tasks[t].state.Ready? || s.tasks[t].state.Running?
  {
  }

  lemma WakeFrom(k: K, t: Tid, q: Qid, o: Obj, sems: map<nat, Semaphore>, mtx: map<nat, Mutex>)
    requires InvBut(k, sems, mtx) && t in Queue(k.s, q) && WakeList(q, o, sems) && (q.EvtQ? && o.Bits? ==> Satisfied(k.s, t, o.b))
    ensures var d := WakeUp(k.(s := ListDelete(k.s, t)), t, o);
            InvBut(d, sems, mtx) && t in k.s.tasks && k.s.tasks[t].inode == In(q) && Woken(k, d, t, o) && Waiting(k.s.tasks[t].state)
            && d == k.(s := d.s, clock := d.clock) && Tame(k.s, d.s)
  {
    hide InvBut, Core, States, CallOk, WakeUp, ListDelete, Woken, Tame, CheckCond2;
    CoreOf(k, sems, mtx);
    OnList(k.s, t, q);
    StateOf(k, t, sems, mtx);
    WokenCall(k.s.tasks[t], t, mtx, o);
    WakeOne(k, t, o, sems, mtx);
    var d := WakeUp(k.(s := ListDelete(k.s, t)), t, o);
    WokenFacts(k, d, t, o);
    CoreOf(d, sems, mtx);
    WokenTame(k, d, t, o);
  }

  lemma WokenTame(k: K, d: K, t: Tid, o: Obj)
    requires t in k.s.tasks && Woken(k, d, t, o) && Core(k.s) && Core(d.s) && !OnMutex(k.s.tasks[t]) && Waiting(k.s.tasks[t].state)
    ensures Tame(k.s, d.s)
  {
    hide Core, Only, Tame, Links;
    CoreLinks(k.s);
    CoreLinks(d.s);
    TameOnly(k.s, d.s, t);
  }

  // What waking the tasks ts with message o does to a task.
  ghost predicate AllWoken(k: K, d: K, ts: seq<Tid>, o: Obj) {
    && d == k.(s := d.s, clock := d.clock) && Tame(k.s, d.s)
    && (forall q: Qid | !q.Node? :: q in d.s.queues <==> q in k.s.queues)
    && (forall x | x in k.s.tasks && x !in ts :: d.s.tasks[x] == k.s.tasks[x])
    && (forall x | x in k.s.tasks && x in ts :: d.s.tasks[x] == Woke(k.s.tasks[x], d.s.tasks[x], o))
  }

  // The record of a task that was woken: besides the message, its place may be new.
  function Woke(r: Task, q: Task, o: Obj): Task { r.(prio := q.prio, obj := o, state := Ready, elem := q.elem, inode := q.inode) }

  lemma AllWokenStep(k: K, m: K, d: K, t: Tid, ts: seq<Tid>, o: Obj)
    requires t in k.s.tasks && Woken(k, m, t, o) && AllWoken(m, d, ts, o) && t !in ts && Tame(k.s, m.s)
    ensures AllWoken(k, d, [t] + ts, o)
  {
    TameTwice(k.s, m.s, d.s);
    OnlyKeys(k.s, m.s, t);
    OnlyQueues(k.s, m.s, t);
    hide Only;
  }

  lemma {:induction false} WakeAllInv(k: K, q: Qid, ts: seq<Tid>, o: Obj, sems: map<nat, Semaphore>, mtx: map<nat, Mutex>)
    requires InvBut(k, sems, mtx) && WakeList(q, o, sems) && (q.EvtQ? ==> o.Msg?) && q in k.s.queues && k.s.queues[q] == ts
    ensures var d := WakeAll(k, ts, o); InvBut(d, sems, mtx) && Queue(d.s, q) == [] && AllWoken(k, d, ts, o)
    decreases |ts|
  {
    hide InvBut, Core, States, WakeUp, ListDelete, Woken, AllWoken, Only, Tame;
    if ts == [] {
      NoneWoken(k, o);
    } else {
      var t := ts[0];
      WakeFrom(k, t, q, o, sems, mtx);
      var d := WakeUp(k.(s := ListDelete(k.s, t)), t, o);
      CoreOf(k, sems, mtx);
      CoreOf(d, sems, mtx);
      WokenFacts(k, d, t, o);
      HeadGone(k.s, d.s, t, q);
      HasQueue(k.s, d.s, t, q);
      NoHead(k.s, q);
      WakeAllInv(d, q, ts[1..], o, sems, mtx);
      AllWokenStep(k, d, WakeAll(d, ts[1..], o), t, ts[1..], o);
      assert [t] + ts[1..] == ts;
    }
  }

  lemma NoneWoken(k: K, o: Obj)
    ensures AllWoken(k, k, [], o)
  {
    TameSelf(k.s);
  }

  lemma WokenFacts(k: K, d: K, t: Tid, o: Obj)
    requires t in k.s.tasks && Woken(k, d, t, o)
    ensures d == k.(s := d.s, clock := d.clock)
    ensures Only(k.s, d.s, t) && t in d.s.tasks && d.s.tasks[t].inode.In? && d.s.tasks[t].inode.q.Node?
  {
  }

  lemma NoHead(s: S, q: Qid)
    requires Core(s) && q in s.queues && s.queues[q] != []
    ensures s.queues[q][0] !in s.queues[q][1..]
  {
    assert NoDup(s.queues[q]);
  }

  // ---- condvar.c ----

  // The waits end with a message that is not a semaphore grant, so CallOk does not depend on it.
  lemma CondWaitInv(k: K, c: nat, timeout: nat)
    requires Inv(k) && Runnable(k.s, k.current) && k.current != IDLE && k.s.tasks[k.current].call == NoCall && timeout < TICKS
    ensures Inv(CondWait(k, c, timeout).k)
  {
    hide InvBut, MutexUnlock, BlockOnCond, SameConds;
    if CondQ(c) in k.s.queues && timeout != DONTWAIT && Owned(k.s, k.current) != [] {
      var m := Owned(k.s, k.current)[0];
      UnlockInv(k, m);
      assert m in Owned(k.s, k.current);
      var u := MutexUnlock(k, m).k;
      CondsAt(k.s, u.s, c);
      BlockCondInv(u, c, m, timeout);
    }
  }

  lemma CondsAt(s: S, d: S, c: nat)
    requires SameConds(s, d)
    ensures CondQ(c) in d.queues <==> CondQ(c) in s.queues
  {
  }

  lemma BlockCondInv(k: K, c: nat, m: nat, timeout: nat)
    requires Inv(k) && Runnable(k.s, k.current) && k.current != IDLE && CondQ(c) in k.s.queues && timeout < TICKS
    ensures Inv(BlockOnCond(k, c, m, timeout)) && Tame(k.s, BlockOnCond(k, c, m, timeout).s)
  {
    hide InvBut, Tame, Core, States, Only, SetSleep, AddToPrioQueue, SetObj, InsertEnd;
    var r := k.s.tasks[k.current].(call := InCond(m), token := NoToken);
    BlockInv(k, r, WtCond, CondQ(c), Cond(c), timeout, k.sems, k.mtx);
  }

  lemma CondSignalInv(k: K, c: nat)
    requires Inv(k)
    ensures Inv(CondSignal(k, c).k)
    ensures Tame(k.s, CondSignal(k, c).k.s)
    ensures CondQ(c) in k.s.queues && k.s.queues[CondQ(c)] != [] ==>
              var t := k.s.queues[CondQ(c)][0]; t in k.s.tasks && Woken(k, CondSignal(k, c).k, t, Msg(EOK))
  {
    hide InvBut, Core, States, WakeUp, ListDelete, Woken, Tame;
    TameSelf(k.s);
    if CondQ(c) in k.s.queues && k.s.queues[CondQ(c)] != [] {
      var t := k.s.queues[CondQ(c)][0];
      CoreOf(k, k.sems, k.mtx);
      OnList(k.s, t, CondQ(c));
      WakeFrom(k, t, CondQ(c), Msg(EOK), k.sems, k.mtx);
    }
  }

  lemma CondBroadcastInv(k: K, c: nat)
    requires Inv(k)
    ensures Inv(CondBroadcast(k, c).k)
    ensures CondQ(c) in k.s.queues ==> Queue(CondBroadcast(k, c).k.s, CondQ(c)) == []
                                       && AllWoken(k, CondBroadcast(k, c).k, k.s.queues[CondQ(c)], Msg(EOK))
  {
    hide InvBut, WakeAll, AllWoken;
    if CondQ(c) in k.s.queues { WakeAllInv(k, CondQ(c), k.s.queues[CondQ(c)], Msg(EOK), k.sems, k.mtx); WokenRest(k, CondBroadcast(k, c).k, k.s.queues[CondQ(c)], Msg(EOK)); }
  }

  // Every waiter of a destroyed object can run again and finds the given result; nothing
  // happens to the other tasks.
  ghost predicate Dismissed(s: S, d: S, ts: seq<Tid>, o: Obj) {
    forall x | x in s.tasks ::
      x in d.tasks && d.tasks[x] == if x in ts then Woke(s.tasks[x], d.tasks[x], o) else s.tasks[x]
  }

  lemma WokenDismissed(k: K, d: K, ts: seq<Tid>, o: Obj, q: Qid)
    requires AllWoken(k, d, ts, o)
    ensures Dismissed(k.s, DropQueue(d.s, q), ts, o)
  {
    forall x | x in k.s.tasks ensures x in d.s.tasks {
      if x in ts { assert d.s.tasks[x].obj == o; } else { assert d.s.tasks[x] == k.s.tasks[x]; }
    }
  }

  lemma WokenRest(k: K, d: K, ts: seq<Tid>, o: Obj)
    requires AllWoken(k, d, ts, o)
    ensures d == k.(s := d.s, clock := d.clock) && Tame(k.s, d.s)
    ensures forall q: Qid | !q.Node? :: q in d.s.queues <==> q in k.s.queues
  {
  }

  lemma CondDestroyInv(k: K, c: nat)
    requires Inv(k)
    ensures Inv(CondDestroy(k, c).k) && Dismissed(k.s, CondDestroy(k, c).k.s, Queue(k.s, CondQ(c)), Msg(EDESTROY))
  {
    hide InvBut, WakeAll, AllWoken, DropQueue;
    if CondQ(c) in k.s.queues {
      var ts := k.s.queues[CondQ(c)];
      WakeAllInv(k, CondQ(c), ts, Msg(EDESTROY), k.sems, k.mtx);
      var d := WakeAll(k, ts, Msg(EDESTROY));
      WokenRest(k, d, ts, Msg(EDESTROY));
      WokenDismissed(k, d, ts, Msg(EDESTROY), CondQ(c));
      DropCond(d, c);
    }
  }

  lemma DropCond(k: K, c: nat)
    requires Inv(k) && CondQ(c) in k.s.queues && Queue(k.s, CondQ(c)) == []
    ensures Inv(k.(s := DropQueue(k.s, CondQ(c))))
  {
    hide Core, States, TimeInv, Own, Sems, Events, Exits;
    DropOk(k.s, CondQ(c));
    DropParts(k.s, CondQ(c), k.sems, k.mtx, k.evts);
  }

  // ---- semaphore.c ----

  lemma SemsFewer(k: K, i: nat, mtx: map<nat, Mutex>)
    requires InvBut(k, k.sems, mtx)
    ensures InvBut(k, k.sems - {i}, mtx)
  {
    hide Core, States, TimeInv, TimeStates, Objects, OneRunning, Own, Events, Calls, Exits, SemOk;
  }

  // The account of semaphore i is closed again with value v.
  lemma SemClose(k: K, i: nat, v: Semaphore, mtx: map<nat, Mutex>)
    requires InvBut(k, k.sems - {i}, mtx) && i in k.sems && SemOk(v, |Queue(k.s, SemQ(i))|)
    ensures InvBut(k.(sems := k.sems[i := v]), k.sems[i := v], mtx)
  {
    hide Core, States, TimeInv, TimeStates, OneRunning, Own, Events, Calls, Exits, SemOk;
    var e := k.sems[i := v];
    forall j | j in e ensures SemQ(j) in k.s.queues && SemOk(e[j], |k.s.queues[SemQ(j)]|) {
      if j != i { assert SemOk((k.sems - {i})[j], |k.s.queues[SemQ(j)]|); }
    }
  }

  lemma SemOf(k: K, i: nat, mtx: map<nat, Mutex>)
    requires InvBut(k, k.sems, mtx) && i in k.sems
    ensures SemQ(i) in k.s.queues && SemOk(k.sems[i], |Queue(k.s, SemQ(i))|)
  {
  }

  lemma SemPut(k: K, i: nat, v: Semaphore)
    requires Inv(k) && i in k.sems && SemOk(v, |Queue(k.s, SemQ(i))|)
    ensures Inv(k.(sems := k.sems[i := v]))
  {
    hide InvBut, SemOk;
    SemsFewer(k, i, k.mtx);
    SemClose(k, i, v, k.mtx);
  }

  // The current task's call is over.
  lemma DoneInv(k: K)
    requires Inv(k) && Runnable(k.s, k.current)
    ensures var d := SetCall(k.s, k.current, NoCall);
            Inv(k.(s := d)) && Runnable(d, k.current) && d.tasks[k.current] == k.s.tasks[k.current].(call := NoCall, token := NoToken)
            && Tame(k.s, d)
  {
    hide Core, States, InvBut, Only, Timed, CheckCond2, Tame;
    var c := k.current;
    var r := k.s.tasks[c].(call := NoCall, token := NoToken);
    CoreOf(k, k.sems, k.mtx);
    StateOf(k, c, k.sems, k.mtx);
    CorePrios(k.s, c);
    CoreSameLinks(k.s, c, r);
    OnlyPut(k.s, c, r);
    KeepStates(k.s, Put(k.s, c, r), c, {});
    assert {} - {c} == {};
    QuietOk(k, Put(k.s, c, r), c, k.sems, k.mtx);
    BlockTame(k.s, Put(k.s, c, r), c);
  }

  // One token less is stored, and one more has been granted.
  predicate TookToken(k: K, d: K, i: nat) {
    && i in k.sems && i in d.sems && d == k.(sems := k.sems[i := d.sems[i]]) && d.sems[i].value == k.sems[i].value - 1 >= 0
    && d.sems[i] == k.sems[i].(value := d.sems[i].value, grants := k.sems[i].grants + 1)
  }

  lemma SemTrywaitInv(k: K, i: nat, fail: int)
    requires Inv(k)
    ensures Inv(SemTrywait(k, i, fail).k) && SemTrywait(k, i, fail).k.s == k.s
    ensures var o := SemTrywait(k, i, fail); if i in k.sems && k.sems[i].value > 0 then o.ret == Code(EOK) && TookToken(k, o.k, i)
                                             else o == Out(k, Code(if i in k.sems then fail else EINVARG))
  {
    hide InvBut;
    if i in k.sems && k.sems[i].value > 0 {
      SemOf(k, i, k.mtx);
      SemPut(k, i, Grant(k.sems[i].(value := k.sems[i].value - 1)));
    }
  }

  lemma QueueLength(s: S, d: S, t: Tid, q: Qid)
    requires Core(s) && Core(d) && Only(s, d, t) && !q.Node?
    ensures |Queue(d, q)| + (if s.tasks[t].inode == In(q) then 1 else 0) == |Queue(s, q)| + (if d.tasks[t].inode == In(q) then 1 else 0)
  {
    OnlyElsewhere(s, d, t);
    OnlyQueues(s, d, t);
    hide Only, NodeOrder, NodePrio, QueuesSorted, Prios;
  }

  // The current task joins the waiters: the value drops below zero by one more.
  lemma BlockSemInv(k: K, i: nat, call: Call, timeout: nat)
    requires Inv(k) && Runnable(k.s, k.current) && k.current != IDLE && i in k.sems && k.sems[i].value <= 0 && timeout < TICKS
    requires call.InSem? && call.s == i && CallArgs(call)
    ensures Inv(BlockOnSem(k.(sems := k.sems[i := k.sems[i].(value := k.sems[i].value - 1)]), i, call, timeout))
    ensures Tame(k.s, BlockOnSem(k.(sems := k.sems[i := k.sems[i].(value := k.sems[i].value - 1)]), i, call, timeout).s)
  {
    hide InvBut, Core, States, Only, SetSleep, AddToPrioQueue, InsertEnd, SetTimeout, CallArgs, Tame;
    var c := k.current;
    var r := k.s.tasks[c].(call := call, token := NoToken, obj := Sem(i), aborted := false);
    SemOf(k, i, k.mtx);
    SemsFewer(k, i, k.mtx);
    BlockInv(k, r, WtSem, SemQ(i), Sem(i), timeout, k.sems - {i}, k.mtx);
    var l := SetSleep(Put(k.s, c, r), c, WtSem);
    var d := SetObj(AddToPrioQueue(l, SemQ(i), c), c, Sem(i));
    CoreOf(k, k.sems, k.mtx);
    ReadyLinked(k.s, c);
    var k1 := k.(s := d, clock := SetTimeout(k.clock, c, timeout));
    CoreOf(k1, k.sems - {i}, k.mtx);
    QueueLength(k.s, d, c, SemQ(i));
    SemClose(k1, i, k.sems[i].(value := k.sems[i].value - 1), k.mtx);
    SameObj(k.s, r, c, SemQ(i));
    assert SetAborted(SetObj(SetCall(k.s, c, call), c, Sem(i)), c, false) == Put(k.s, c, r);
  }

  // isix_sem_wait sets obj before the task joins the list; the list does not depend on it.
  lemma SameObj(s: S, r: Task, c: Tid, q: Qid)
    requires Core(s) && States(s, {}) && Runnable(s, c) && q in s.queues && PrioQ(q)
    requires r == s.tasks[c].(call := r.call, aborted := r.aborted, token := r.token, obj := r.obj)
    ensures var e := AddToPrioQueue(SetSleep(Put(s, c, r), c, WtSem), q, c); SetObj(e, c, r.obj) == e
  {
    hide Core, States, Only, SetSleep, AddToPrioQueue;
    AsleepOk(s, c, r, WtSem);
    var l := SetSleep(Put(s, c, r), c, WtSem);
    OnlyHas(s, l, c);
    HasQueue(s, l, c, q);
    AddToPrioQueueOk(l, q, c);
    var e := AddToPrioQueue(l, q, c);
    assert e.tasks[c := e.tasks[c]] == e.tasks;
  }

  lemma SemTakeInv(k: K, i: nat, start: nat, timeout: nat)
    requires Inv(k) && Runnable(k.s, k.current) && k.current != IDLE && i in k.sems && timeout < TICKS
    ensures Inv(SemTake(k, i, start, timeout).k) && Tame(k.s, SemTake(k, i, start, timeout).k.s)
  {
    hide InvBut, BlockOnSem, Tame;
    var v := k.sems[i].(value := k.sems[i].value - 1);
    var elapsed := Elapsed(k.clock, start);
    hide Elapsed;
    SemOf(k, i, k.mtx);
    DoneInv(k);
    var done := k.(s := SetCall(k.s, k.current, NoCall));
    if v.value >= 0 {
      SemPut(done, i, Grant(v));
    } else if timeout != INFINITE && elapsed >= timeout {
      SemPut(done, i, SemInc(v));
    } else {
      BlockSemInv(k, i, InSem(i, start, timeout), if timeout == INFINITE then INFINITE else timeout - elapsed);
    }
  }

  lemma SemWaitInv(k: K, i: nat, timeout: nat)
    requires Inv(k) && Runnable(k.s, k.current) && k.current != IDLE && timeout < TICKS
    ensures Inv(SemWait(k, i, timeout).k) && Tame(k.s, SemWait(k, i, timeout).k.s)
    ensures var o := SemWait(k, i, timeout);
            && (i !in k.sems ==> o == Out(k, Code(EINVARG)))
            && (i in k.sems && timeout == DONTWAIT ==> if k.sems[i].value > 0 then o.ret == Code(EOK) && TookToken(k, o.k, i) else o == Out(k, Code(ETIMEOUT)))
  {
    hide InvBut, SemTake, SemTrywait, Tame, TookToken;
    TameSelf(k.s);
    if i in k.sems {
      if timeout == DONTWAIT { SemTrywaitInv(k, i, ETIMEOUT); } else { SemTakeInv(k, i, k.clock.jiffies, timeout); }
    }
  }

  // The first waiter leaves with a token.
  lemma GrantInv(k: K, i: nat, t: Tid, sems: map<nat, Semaphore>)
    requires InvBut(k, sems, k.mtx) && i !in sems && t in Queue(k.s, SemQ(i))
    ensures var l := ListDelete(k.s, t);
            t in k.s.tasks && k.s.tasks[t].inode == In(SemQ(i)) && t in l.tasks && l.tasks[t].state.WtSem? &&
            var d := WakeUp(k.(s := Put(l, t, l.tasks[t].(token := Granted))), t, Msg(EOK));
            InvBut(d, sems, k.mtx) && Only(k.s, d.s, t) && d == k.(s := d.s, clock := d.clock) && Tame(k.s, d.s)
            && d.s.tasks[t] == k.s.tasks[t].(token := Granted, obj := Msg(EOK), state := Ready,
                                             elem := d.s.tasks[t].elem, inode := In(Node(d.s.tasks[t].elem)))
  {
    hide Core, States, InvBut, Only, ListDelete, AddReady, TimeDelete, Timed, SetObj, CallArgs, Tame, Links;
    CoreOf(k, sems, k.mtx);
    OnList(k.s, t, SemQ(i));
    StateOf(k, t, sems, k.mtx);
    CorePrios(k.s, t);
    PassedOk(k.s, t, k.s.tasks[t].(inode := Off, token := Granted), Msg(EOK));
    var l := ListDelete(k.s, t);
    ClockDelete(k, t, sems, k.mtx);
    QuietOk(k.(clock := TimeDelete(k.clock, t)), Awake(Put(l, t, l.tasks[t].(token := Granted)), t, Msg(EOK)), t, sems, k.mtx);
    var d := Awake(Put(l, t, l.tasks[t].(token := Granted)), t, Msg(EOK));
    CoreLinks(k.s);
    CoreLinks(d);
    TameOnly(k.s, d, t);
  }

  // A token goes straight to the first waiter; only without waiters is it stored.
  ghost predicate Signalled(k: K, d: K, i: nat) {
    && i in k.sems && i in d.sems && d.sems[i].signals == k.sems[i].signals + 1 && Tame(k.s, d.s)
    && if Queue(k.s, SemQ(i)) == [] then
         && d.s == k.s && d.sems[i].grants == k.sems[i].grants
         && d.sems[i].value == if 0 < k.sems[i].limit <= k.sems[i].value then k.sems[i].limit else k.sems[i].value + 1
       else
         var t := Queue(k.s, SemQ(i))[0];
         && t in d.s.tasks && d.s.tasks[t].token.Granted? && d.s.tasks[t].state.Ready? && d.s.tasks[t].obj == Msg(EOK)
         && d.sems[i].grants == k.sems[i].grants + 1 && d.sems[i].value == k.sems[i].value + 1
  }

  lemma SemSignalInv(k: K, i: nat)
    requires Inv(k)
    ensures Inv(SemSignal(k, i).k) && (i in k.sems ==> Signalled(k, SemSignal(k, i).k, i))
  {
    hide InvBut, ListDelete, WakeUp, Only, Core, States, Tame;
    TameSelf(k.s);
    if i in k.sems {
      SemOf(k, i, k.mtx);
      var v := SemInc(k.sems[i]).(signals := k.sems[i].signals + 1);
      if Queue(k.s, SemQ(i)) == [] {
        SemPut(k, i, v);
      } else {
        var t := Queue(k.s, SemQ(i))[0];
        SemsFewer(k, i, k.mtx);
        GrantInv(k, i, t, k.sems - {i});
        var l := ListDelete(k.s, t);
        var d := WakeUp(k.(s := Put(l, t, l.tasks[t].(token := Granted))), t, Msg(EOK));
        CoreOf(k, k.sems, k.mtx);
        CoreOf(d, k.sems - {i}, k.mtx);
        OnlyHas(k.s, d.s, t);
        QueueLength(k.s, d.s, t, SemQ(i));
        SemClose(d, i, Grant(v), k.mtx);
        WakeIgnoresSems(k.(s := Put(l, t, l.tasks[t].(token := Granted))), k.sems[i := Grant(v)], t, Msg(EOK));
      }
    }
  }

  lemma WakeIgnoresSems(k: K, sems: map<nat, Semaphore>, t: Tid, o: Obj)
    ensures WakeUp(k.(sems := sems), t, o) == WakeUp(k, t, o).(sems := sems)
  {
  }

  // v is val, or the nearest value that the semaphore can store.
  predicate Nearest(limit: nat, val: int, v: int) {
    if val < 0 then v == 0 else if limit > 0 && val > limit then v == limit else v == val
  }

  ghost predicate WasReset(k: K, d: K, i: nat, val: int) {
    && i in k.sems && i in d.sems && Queue(d.s, SemQ(i)) == [] && Nearest(k.sems[i].limit, val, d.sems[i].value) && d.sems[i].limit == k.sems[i].limit
    && AllWoken(k.(sems := d.sems), d, Queue(k.s, SemQ(i)), Msg(ERESET))
  }

  lemma SemResetInv(k: K, i: nat, val: int)
    requires Inv(k)
    ensures Inv(SemReset(k, i, val).k)
    ensures i in k.sems ==> WasReset(k, SemReset(k, i, val).k, i, val)
  {
    hide InvBut, WakeAll, AllWoken;
    if i in k.sems {
      var l := k.sems[i].limit;
      var v := Semaphore(ResetValue(l, val), l, ResetValue(l, val), 0, 0);
      var e := k.sems[i := v];
      SemOf(k, i, k.mtx);
      SemOpen(k, i, v);
      WakeAllInv(k.(sems := e), SemQ(i), Queue(k.s, SemQ(i)), Msg(ERESET), e - {i}, k.mtx);
      var d := WakeAll(k.(sems := e), Queue(k.s, SemQ(i)), Msg(ERESET));
      WokenRest(k.(sems := e), d, Queue(k.s, SemQ(i)), Msg(ERESET));
      SemClose(d, i, v, k.mtx);
      assert d.sems[i := v] == d.sems;
    }
  }

  lemma SemOpen(k: K, i: nat, v: Semaphore)
    requires Inv(k) && i in k.sems
    ensures InvBut(k.(sems := k.sems[i := v]), k.sems[i := v] - {i}, k.mtx)
  {
    hide Core, States, TimeInv, TimeStates, OneRunning, Own, Events, Calls, Exits, SemOk;
    assert k.sems[i := v] - {i} == k.sems - {i};
  }

  lemma SemDestroyInv(k: K, i: nat)
    requires Inv(k)
    ensures Inv(SemDestroy(k, i).k) && (i in k.sems ==> Dismissed(k.s, SemDestroy(k, i).k.s, Queue(k.s, SemQ(i)), Msg(EDESTROY)))
  {
    hide InvBut, WakeAll, AllWoken, DropQueue;
    if i in k.sems {
      var ts := Queue(k.s, SemQ(i));
      SemOf(k, i, k.mtx);
      SemsFewer(k, i, k.mtx);
      WakeAllInv(k, SemQ(i), ts, Msg(EDESTROY), k.sems - {i}, k.mtx);
      var d := WakeAll(k, ts, Msg(EDESTROY));
      WokenRest(k, d, ts, Msg(EDESTROY));
      WokenDismissed(k, d, ts, Msg(EDESTROY), SemQ(i));
      DropSem(d, i);
    }
  }

  lemma DropSem(k: K, i: nat)
    requires InvBut(k, k.sems - {i}, k.mtx) && SemQ(i) in k.s.queues && Queue(k.s, SemQ(i)) == []
    ensures Inv(k.(s := DropQueue(k.s, SemQ(i)), sems := k.sems - {i}))
  {
    hide Core, States, TimeInv, Own, Sems, Events, Exits;
    DropOk(k.s, SemQ(i));
    DropParts(k.s, SemQ(i), k.sems - {i}, k.mtx, k.evts);
  }
}
