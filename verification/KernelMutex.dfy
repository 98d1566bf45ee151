/**
 The mutex calls keep the kernel invariant: ownership stays coherent, ownership is handed
 directly to the first waiter.
 */
module KernelMutex {
  import opened Lists
  import opened KernelState
  import opened KernelCalls
  import opened KernelLists
  import opened KernelTime
  import opened KernelInv
  import opened KernelWake

  function OwnerOf(k: K, m: nat): Owner { if m in k.mtx then k.mtx[m].owner else Free }

  // ---- taking ----

  lemma OwnTake(s: S, d: S, t: Tid, m: nat, mtx: map<nat, Mutex>)
    requires Links(s) && Links(d) && Own(s, mtx - {m}) && Only(s, d, t) && !Finished(d, t)
    requires MtxQ(m) in d.queues && t !in d.queues[MtxQ(m)]
    requires d.tasks[t].owned == InsertFirst(s.tasks[t].owned, m)
    requires d.tasks[t].inode == s.tasks[t].inode || !d.tasks[t].inode.In? || !d.tasks[t].inode.q.MtxQ?
    ensures Own(d, mtx[m := Mutex(1, Held(t))])
  {
    OnlyElsewhere(s, d, t);
    OnlyQueues(s, d, t);
    OnlyKeys(s, d, t);
    InsertFirstFacts(s.tasks[t].owned, m);
    hide Only, NoDup, InsertFirst, Links;
    var e := mtx[m := Mutex(1, Held(t))];
    assert m !in s.tasks[t].owned;
    forall i | i in e ensures OwnerOk(d, i, e[i]) {
      if i != m {
        assert OwnerOk(s, i, (mtx - {m})[i]);
        var q := MtxQ(i);
        assert |d.queues[q]| + (if s.tasks[t].inode == In(q) then 1 else 0) == |s.queues[q]| + (if d.tasks[t].inode == In(q) then 1 else 0);
      }
    }
  }

  // t came back from waiting for m and has not continued yet.
  predicate Claims(r: Task, m: nat) {
    r.call == InLock(m) && !r.aborted && !r.state.WtMtx? && !r.state.Zombie? && !r.state.Exited?
  }

  ghost predicate NoClaims(s: S, m: nat, but: set<Tid>) {
    forall x | x in s.tasks && Claims(s.tasks[x], m) :: x in but
  }

  lemma CallsNewOwner(s: S, mtx: map<nat, Mutex>, m: nat, v: Mutex, but: set<Tid>)
    requires Calls(s, mtx - {m}) && NoClaims(s, m, but) && (forall x | x in but :: v.owner == Held(x))
    requires forall x | x in but :: x in s.tasks && s.tasks[x].token == Handed(m)
    ensures Calls(s, mtx[m := v])
  {
    hide CheckCond2, EvWord, CallArgs;
    forall x | x in s.tasks ensures CallOk(s.tasks[x], x, mtx[m := v]) { assert CallOk(s.tasks[x], x, mtx - {m}); }
  }

  lemma CallsFewer(s: S, mtx: map<nat, Mutex>, m: nat)
    requires Calls(s, mtx)
    ensures Calls(s, mtx - {m})
    ensures m in mtx && mtx[m].owner.Free? ==> NoClaims(s, m, {})
    ensures m in mtx && mtx[m].owner.Held? ==> NoClaims(s, m, {mtx[m].owner.t})
  {
    forall x | x in s.tasks
      ensures CallOk(s.tasks[x], x, mtx - {m})
      ensures m in mtx && Claims(s.tasks[x], m) ==> mtx[m].owner == Held(x)
    {
      assert CallOk(s.tasks[x], x, mtx);
    }
  }

  lemma ClaimsKept(s: S, d: S, t: Tid, m: nat, but: set<Tid>)
    requires NoClaims(s, m, but) && Only(s, d, t)
    ensures NoClaims(d, m, but + {t})
    ensures !Claims(d.tasks[t], m) ==> NoClaims(d, m, but - {t})
  {
    OnlyKeys(s, d, t);
    hide Only;
  }

  // A mutex whose owned-list entry is gone is out of the account.
  lemma OwnFewer(s: S, mtx: map<nat, Mutex>, m: nat)
    requires Own(s, mtx) && m in mtx && mtx[m].owner.Free?
    ensures Own(s, mtx - {m})
  {
    forall i | i in mtx - {m} ensures OwnerOk(s, i, (mtx - {m})[i]) { assert OwnerOk(s, i, mtx[i]); }
  }

  // isix_mutex_lock and isix_mutex_trylock on a free mutex
  lemma TakeInv(k: K, m: nat)
    requires Inv(k) && m in k.mtx && k.mtx[m].owner.Free? && Runnable(k.s, k.current)
    ensures Inv(TakeMutex(k, m)) && OwnerOf(TakeMutex(k, m), m) == Held(k.current)
  {
    hide Core, States, TimeInv, TimeStates, Objects, OneRunning, Own, Sems, Events, Calls, Exits, Only, Links, StateOk, CallOk, InsertFirst, NoClaims;
    var c := k.current;
    var r := k.s.tasks[c].(owned := InsertFirst(k.s.tasks[c].owned, m));
    var d := Put(k.s, c, r);
    FreeCount(k, m);
    StateOf(k, c, k.sems, k.mtx);
    ReadyLinked(k.s, c);
    CorePrios(k.s, c);
    CoreSameLinks(k.s, c, r);
    OnlyPut(k.s, c, r);
    KeepStates(k.s, d, c, {});
    StateIgnoresOwned(r, k.s.tasks[c]);
    assert {} - {c} == {};
    CoreLinks(k.s);
    CoreLinks(d);
    OwnFewer(k.s, k.mtx, m);
    OwnTake(k.s, d, c, m, k.mtx);
    KeepSems(k.s, d, c, k.sems);
    CallsFewer(k.s, k.mtx, m);
    CallIgnoresOwned(r, k.s.tasks[c], c, k.mtx - {m});
    KeepCalls(k.s, d, c, k.mtx - {m});
    FreeClaims(k.s, d, c, m);
    var e := k.mtx[m := Mutex(1, Held(c))];
    CallsNewOwner(d, k.mtx, m, e[m], {});
    Rebuild(k, d, c, k.sems, k.mtx, k.sems, e);
    MtxKeys(k.(s := d), k.sems, e, m);
  }

  lemma FreeClaims(s: S, d: S, t: Tid, m: nat)
    requires NoClaims(s, m, {}) && Only(s, d, t) && t in d.tasks && t in s.tasks && (Claims(d.tasks[t], m) <==> Claims(s.tasks[t], m))
    ensures NoClaims(d, m, {})
  {
    OnlyKeys(s, d, t);
    hide Only;
  }

  lemma StateIgnoresOwned(r: Task, q: Task)
    requires StateOk(q) && r == q.(owned := r.owned)
    ensures StateOk(r)
  {
  }

  lemma CallIgnoresOwned(r: Task, q: Task, t: Tid, mtx: map<nat, Mutex>)
    requires r == q.(owned := r.owned)
    ensures CallOk(r, t, mtx) <==> CallOk(q, t, mtx)
    ensures forall m :: Claims(r, m) <==> Claims(q, m)
  {
  }

  lemma FreeCount(k: K, m: nat)
    requires Inv(k) && m in k.mtx && k.mtx[m].owner.Free?
    ensures k.mtx[m].count == 0 && MtxQ(m) in k.s.queues && k.s.queues[MtxQ(m)] == []
  {
    assert OwnerOk(k.s, m, k.mtx[m]);
  }

  // Only the set of existing mutexes matters to the wait lists.
  lemma MtxKeys(k: K, sems: map<nat, Semaphore>, mtx: map<nat, Mutex>, m: nat)
    requires InvBut(k, sems, mtx) && m in k.mtx && mtx.Keys == k.mtx.Keys
    ensures InvBut(k.(mtx := mtx), sems, mtx)
  {
    hide Core, States, TimeInv, TimeStates, OneRunning, Own, Sems, Events, Calls;
  }

  // ---- changing a priority ----

  lemma MovedTask(q: Task, r: Task, t: Tid, p: nat, mtx: map<nat, Mutex>)
    requires StateOk(q) && CallOk(q, t, mtx)
    requires r == if q.state.Ready? || q.state.Running? then q.(prio := p, state := Ready, elem := r.elem, inode := In(Node(r.elem)))
                  else q.(prio := p)
    ensures StateOk(r) && CallOk(r, t, mtx)
    ensures !r.state.Running? && (Sleepy(q.state) ==> r.state == q.state)
    ensures r.inode == q.inode || (q.inode == In(Node(q.elem)) && r.inode == In(Node(r.elem)))
  {
  }

  lemma ReallocInv(k: K, t: Tid, p: nat, sems: map<nat, Semaphore>, mtx: map<nat, Mutex>)
    requires InvBut(k, sems, mtx) && t in k.s.tasks && p <= k.s.tasks[t].base
    ensures var d := Realloc(k.s, t, p); InvBut(k.(s := d), sems, mtx) && Moved(k.s, d, t, p)
  {
    hide Core, States, InvBut, Only, Realloc, CheckCond2, Timed, StateOk, CallOk;
    CoreOf(k, sems, mtx);
    StateOf(k, t, sems, mtx);
    ReallocOk(k.s, t, p);
    var d := Realloc(k.s, t, p);
    MovedTask(k.s.tasks[t], d.tasks[t], t, p, mtx);
    KeepStates(k.s, d, t, {});
    assert {} - {t} == {};
    QuietOk(k, d, t, sems, mtx);
  }

  lemma CalcBound(s: S, t: Tid)
    requires t in s.tasks
    ensures CalcInherited(s, t) <= s.tasks[t].base
  {
  }

  // Realloc to the computed priority, or nothing when it is already that.
  lemma ReinheritInv(k: K, t: Tid, sems: map<nat, Semaphore>, mtx: map<nat, Mutex>)
    requires InvBut(k, sems, mtx) && t in k.s.tasks
    ensures var d := Reinherit(k.s, t); InvBut(k.(s := d), sems, mtx) && Repositioned(k.s, d, t, CalcInherited(k.s, t))
  {
    hide Core, States, InvBut, Only, Realloc, CalcInherited;
    CalcBound(k.s, t);
    ReallocInv(k, t, CalcInherited(k.s, t), sems, mtx);
  }

  ghost predicate Repositioned(s: S, d: S, t: Tid, p: nat) {
    if t in s.tasks && s.tasks[t].prio == p then d == s else Moved(s, d, t, p)
  }

  // ---- isix_mutex_lock ----

  lemma CountInv(k: K, m: nat, n: int)
    requires Inv(k) && m in k.mtx && k.mtx[m].owner.Held? && n >= 1
    ensures Inv(k.(mtx := k.mtx[m := Mutex(n, k.mtx[m].owner)]))
  {
    hide Core, States, TimeInv, TimeStates, OneRunning, Sems, Events, NoDup;
    var e := k.mtx[m := Mutex(n, k.mtx[m].owner)];
    forall i | i in e ensures OwnerOk(k.s, i, e[i]) { assert OwnerOk(k.s, i, k.mtx[i]); }
    forall x | x in k.s.tasks ensures CallOk(k.s.tasks[x], x, e) { assert CallOk(k.s.tasks[x], x, k.mtx); }
  }

  lemma HeldFacts(k: K, m: nat, sems: map<nat, Semaphore>, mtx: map<nat, Mutex>)
    requires InvBut(k, sems, mtx) && m in mtx && mtx[m].owner.Held?
    ensures mtx[m].count >= 1 && mtx[m].owner.t in k.s.tasks && m in k.s.tasks[mtx[m].owner.t].owned
    ensures MtxQ(m) in k.s.queues && mtx[m].owner.t !in k.s.queues[MtxQ(m)] && !Finished(k.s, mtx[m].owner.t)
  {
    assert OwnerOk(k.s, m, mtx[m]);
  }

  lemma PutTwice(s: S, t: Tid, a: Task, b: Task)
    ensures Put(Put(s, t, a), t, b) == Put(s, t, b)
  {
    assert s.tasks[t := a][t := b] == s.tasks[t := b];
  }

  lemma BlockMutexInv(k: K, m: nat)
    requires Inv(k) && Runnable(k.s, k.current) && k.current != IDLE
    requires m in k.mtx && k.mtx[m].owner.Held? && k.mtx[m].owner.t != k.current
    ensures var d := BlockOnMutex(k, m);
            Inv(d) && Only(k.s, d.s, k.current) && d == k.(s := d.s)
            && d.s.tasks[k.current] == k.s.tasks[k.current].(call := InLock(m), token := NoToken, aborted := false,
                                         state := WtMtx, inode := In(MtxQ(m)), obj := Mtx(m))
  {
    hide Core, States, InvBut, Only, SetSleep, AddToPrioQueue, InsertEnd, SetObj;
    var c := k.current;
    HeldFacts(k, m, k.sems, k.mtx);
    var a := k.s.tasks[c].(call := InLock(m), token := NoToken);
    var r := a.(aborted := false);
    PutTwice(k.s, c, a, r);
    BlockInv(k, r, WtMtx, MtxQ(m), Mtx(m), INFINITE, k.sems, k.mtx);
  }

  lemma InheritInv(k: K, o: Tid, p: nat)
    requires Inv(k)
    ensures Inv(k.(s := Inherit(k.s, o, p)))
    ensures forall x | x in k.s.tasks && x != o :: x in Inherit(k.s, o, p).tasks && Inherit(k.s, o, p).tasks[x] == k.s.tasks[x]
  {
    hide InvBut, Only, Realloc, Core;
    if o in k.s.tasks && p < k.s.tasks[o].prio {
      CoreOf(k, k.sems, k.mtx);
      CorePrios(k.s, o);
      ReallocInv(k, o, p, k.sems, k.mtx);
      OnlyKeys(k.s, Realloc(k.s, o, p), o);
    }
  }

  lemma LockInv(k: K, m: nat)
    requires Inv(k) && Runnable(k.s, k.current) && k.current != IDLE
    ensures Inv(MutexLock(k, m).k)
    ensures MutexLock(k, m).ret == Code(EOK) ==> OwnerOf(MutexLock(k, m).k, m) == Held(k.current)
  {
    hide InvBut, TakeMutex, BlockOnMutex, Inherit;
    if m in k.mtx {
      if k.mtx[m].owner.Free? {
        TakeInv(k, m);
      } else {
        HeldFacts(k, m, k.sems, k.mtx);
        if k.mtx[m].owner.t == k.current {
          CountInv(k, m, k.mtx[m].count + 1);
        } else {
          var p := k.s.tasks[k.current].prio;
          InheritInv(k, k.mtx[m].owner.t, p);
          BlockMutexInv(k.(s := Inherit(k.s, k.mtx[m].owner.t, p)), m);
        }
      }
    }
  }

  lemma TrylockInv(k: K, m: nat)
    requires Inv(k) && Runnable(k.s, k.current)
    ensures Inv(MutexTrylock(k, m).k)
    ensures MutexTrylock(k, m).ret == Code(EOK) ==> OwnerOf(MutexTrylock(k, m).k, m) == Held(k.current)
  {
    hide InvBut, TakeMutex;
    if m in k.mtx {
      if k.mtx[m].owner.Free? {
        TakeInv(k, m);
      } else {
        HeldFacts(k, m, k.sems, k.mtx);
        CountInv(k, m, k.mtx[m].count + 1);
      }
    }
  }

  // ---- releasing ----

  lemma OwnDetach(s: S, o: Tid, m: nat, mtx: map<nat, Mutex>)
    requires Own(s, mtx) && m in mtx && mtx[m].owner == Held(o)
    ensures o in s.tasks && Own(Put(s, o, s.tasks[o].(owned := Remove(s.tasks[o].owned, m))), mtx - {m})
  {
    assert OwnerOk(s, m, mtx[m]);
    RemoveFacts(s.tasks[o].owned, m);
    hide NoDup, Remove;
    var d := Put(s, o, s.tasks[o].(owned := Remove(s.tasks[o].owned, m)));
    forall i | i in mtx - {m} ensures OwnerOk(d, i, (mtx - {m})[i]) { assert OwnerOk(s, i, mtx[i]); }
  }

  // The mutex leaves its owner's list; its account is open until it has a new owner.
  lemma DetachInv(k: K, m: nat)
    requires Inv(k) && m in k.mtx && k.mtx[m].owner.Held?
    ensures var o := k.mtx[m].owner.t; var d := Detach(k.s, k.mtx[m].owner, m);
            InvBut(k.(s := d), k.sems, k.mtx - {m}) && NoClaims(d, m, {o})
            && Only(k.s, d, o) && d.tasks[o] == k.s.tasks[o].(owned := Remove(k.s.tasks[o].owned, m))
  {
    hide Core, States, TimeInv, TimeStates, Objects, OneRunning, Own, Sems, Events, Calls, Exits, Only, Links, StateOk, CallOk, NoClaims, Remove;
    var o := k.mtx[m].owner.t;
    HeldFacts(k, m, k.sems, k.mtx);
    var r := k.s.tasks[o].(owned := Remove(k.s.tasks[o].owned, m));
    var d := Put(k.s, o, r);
    StateOf(k, o, k.sems, k.mtx);
    CorePrios(k.s, o);
    CoreSameLinks(k.s, o, r);
    OnlyPut(k.s, o, r);
    KeepStates(k.s, d, o, {});
    StateIgnoresOwned(r, k.s.tasks[o]);
    assert {} - {o} == {};
    CoreLinks(k.s);
    CoreLinks(d);
    OwnDetach(k.s, o, m, k.mtx);
    KeepSems(k.s, d, o, k.sems);
    CallsFewer(k.s, k.mtx, m);
    CallIgnoresOwned(r, k.s.tasks[o], o, k.mtx - {m});
    KeepCalls(k.s, d, o, k.mtx - {m});
    ClaimsKept(k.s, d, o, m, {o});
    assert {o} + {o} == {o};
    OneRunningOf(k, o, k.sems, k.mtx);
    Rebuild(k, d, o, k.sems, k.mtx, k.sems, k.mtx - {m});
  }

  lemma OneRunningOf(k: K, t: Tid, sems: map<nat, Semaphore>, mtx: map<nat, Mutex>)
    requires InvBut(k, sems, mtx) && t in k.s.tasks
    ensures k.s.tasks[t].state.Running? ==> t == k.current
  {
  }

  // The mutex has no waiters and becomes free.
  lemma FreeInv(k: K, m: nat)
    requires InvBut(k, k.sems, k.mtx - {m}) && m in k.mtx && Queue(k.s, MtxQ(m)) == [] && NoClaims(k.s, m, {})
    ensures Inv(k.(mtx := k.mtx[m := Mutex(0, Free)]))
  {
    hide Core, States, TimeInv, TimeStates, OneRunning, Sems, Events, Calls, NoClaims, NoDup;
    var e := k.mtx[m := Mutex(0, Free)];
    CallsNewOwner(k.s, k.mtx, m, e[m], {});
    forall i | i in e ensures OwnerOk(k.s, i, e[i]) {
      if i != m { assert OwnerOk(k.s, i, (k.mtx - {m})[i]); }
    }
  }

  // On the task lists: the first waiter n is taken off, given the mutex and woken.
  lemma PassedOk(s: S, n: Tid, r: Task, o: Obj)
    requires Core(s) && States(s, {}) && n in s.tasks && s.tasks[n].inode.In? && !s.tasks[n].inode.q.Node?
    requires !s.tasks[n].state.Ready? && !s.tasks[n].state.Zombie?
    requires r == s.tasks[n].(inode := Off, owned := r.owned, prio := r.prio, token := r.token) && r.prio <= r.base
    ensures var l := ListDelete(s, n);
            n in l.tasks && l.tasks[n] == s.tasks[n].(inode := Off) &&
            var d := Awake(Put(l, n, r), n, o);
            Core(d) && States(d, {}) && Only(s, d, n)
            && d.tasks[n] == r.(obj := o, state := Ready, elem := d.tasks[n].elem, inode := In(Node(d.tasks[n].elem)))
  {
    hide Core, States, Only, ListDelete, Awake;
    DeleteOk(s, n);
    CorePrios(s, n);
    var l := ListDelete(s, n);
    OnlyHas(s, l, n);
    KeepStates(s, l, n, {});
    assert {} + {n} == {n};
    var u := Put(l, n, r);
    CoreFloating(l, n, r);
    OnlyPut(l, n, r);
    KeepStates(l, u, n, {n});
    assert {n} + {n} == {n};
    AwakeOk(u, n, o);
    var d := Awake(u, n, o);
    OnlyTwice(s, l, u, n);
    OnlyTwice(s, u, d, n);
  }

  lemma WaiterFacts(k: K, m: nat, n: Tid)
    requires InvBut(k, k.sems, k.mtx - {m}) && m in k.mtx && n in Queue(k.s, MtxQ(m))
    ensures n in k.s.tasks && k.s.tasks[n].inode == In(MtxQ(m)) && k.s.tasks[n].state.WtMtx?
    ensures k.s.tasks[n].call == InLock(m) && !k.s.tasks[n].aborted && n != IDLE
    ensures k.s.tasks[n].prio <= k.s.tasks[n].base && k.s.tasks[n].token.NoToken?
  {
    assert StateOk(k.s.tasks[n]) && CallOk(k.s.tasks[n], n, k.mtx - {m});
  }

  lemma PassRest(k: K, m: nat, n: Tid, d: S)
    requires InvBut(k, k.sems, k.mtx - {m}) && m in k.mtx && n in Queue(k.s, MtxQ(m)) && NoClaims(k.s, m, {})
    requires Core(d) && States(d, {}) && Only(k.s, d, n)
    requires d.tasks[n] == k.s.tasks[n].(owned := InsertFirst(k.s.tasks[n].owned, m), token := Handed(m), obj := Msg(EOK), state := Ready,
                                         elem := d.tasks[n].elem, inode := In(Node(d.tasks[n].elem)))
    ensures Inv(k.(s := d, clock := TimeDelete(k.clock, n), mtx := k.mtx[m := Mutex(1, Held(n))]))
  {
    hide Core, States, TimeInv, TimeStates, Objects, OneRunning, Own, Sems, Events, Calls, Exits, Only, Links, NoClaims, InsertFirst, TimeDelete, InvBut, CallOk;
    var sems, mtx := k.sems, k.mtx - {m};
    WaiterFacts(k, m, n);
    PartsOf(k, sems, mtx);
    CoreLinks(k.s);
    CoreLinks(d);
    OnlyHas(k.s, d, n);
    NotQueued(d, n, MtxQ(m));
    OnlyQueues(k.s, d, n);
    OwnTake(k.s, d, n, m, k.mtx);
    KeepSems(k.s, d, n, sems);
    PassedCall(k.s.tasks[n], d.tasks[n], n, m, mtx);
    KeepCalls(k.s, d, n, mtx);
    ClaimsKept(k.s, d, n, m, {});
    assert {} + {n} == {n};
    var e := k.mtx[m := Mutex(1, Held(n))];
    CallsNewOwner(d, k.mtx, m, e[m], {n});
    ClockDelete(k, n, sems, mtx);
    Rebuild(k.(clock := TimeDelete(k.clock, n)), d, n, sems, mtx, sems, e);
    MtxKeys(k.(s := d, clock := TimeDelete(k.clock, n)), sems, e, m);
  }

  lemma PartsOf(k: K, sems: map<nat, Semaphore>, mtx: map<nat, Mutex>)
    requires InvBut(k, sems, mtx)
    ensures Core(k.s) && Own(k.s, mtx) && Sems(k.s, sems) && Calls(k.s, mtx) && Events(k.s, k.evts)
    ensures Objects(k.s, k.sems, k.mtx, k.evts) && States(k.s, {})
  {
  }

  lemma NotQueued(d: S, n: Tid, q: Qid)
    requires Links(d) && n in d.tasks && d.tasks[n].inode != In(q)
    ensures q in d.queues ==> n !in d.queues[q]
  {
  }

  lemma PassedCall(q: Task, r: Task, n: Tid, m: nat, mtx: map<nat, Mutex>)
    requires CallOk(q, n, mtx) && q.state.WtMtx? && m !in mtx && q.call == InLock(m)
    requires r == q.(owned := r.owned, token := Handed(m), obj := Msg(EOK), state := Ready, elem := r.elem, inode := r.inode)
    ensures CallOk(r, n, mtx)
  {
    hide CheckCond2, EvWord;
  }

  // The first waiter of m, which nobody else claims, becomes its owner.
  lemma PassInv(k: K, m: nat)
    requires InvBut(k, k.sems, k.mtx - {m}) && m in k.mtx && Queue(k.s, MtxQ(m)) != [] && NoClaims(k.s, m, {})
    ensures var n := k.s.queues[MtxQ(m)][0]; var d := Pass(k, m);
            n in k.s.tasks && Inv(d) && OwnerOf(d, m) == Held(n) && Only(k.s, d.s, n) && d.current == k.current
            && d.sems == k.sems && d.evts == k.evts && d.mtx == k.mtx[m := Mutex(1, Held(n))]
            && d.s.tasks[n] == k.s.tasks[n].(owned := InsertFirst(k.s.tasks[n].owned, m), token := Handed(m), obj := Msg(EOK), state := Ready,
                                             elem := d.s.tasks[n].elem, inode := In(Node(d.s.tasks[n].elem)))
            && k.s.tasks[n].call == InLock(m)
  {
    hide Core, States, TimeInv, TimeStates, Objects, OneRunning, Own, Sems, Events, Calls, Exits, Only, Links, NoClaims, ListDelete, InsertFirst, TimeDelete, AddReady, SetObj, InvBut;
    var sems, mtx := k.sems, k.mtx - {m};
    var n := k.s.queues[MtxQ(m)][0];
    WaiterFacts(k, m, n);
    CoreOf(k, sems, mtx);
    var ms := InsertFirst(k.s.tasks[n].owned, m);
    PassedOk(k.s, n, k.s.tasks[n].(inode := Off, owned := ms, token := Handed(m)), Msg(EOK));
    var l := ListDelete(k.s, n);
    PutTwice(l, n, l.tasks[n].(owned := ms), k.s.tasks[n].(inode := Off, owned := ms, token := Handed(m)));
    CorePrios(k.s, n);
    ClockDelete(k, n, sems, mtx);
    PassRest(k, m, n, Pass(k, m).s);
  }

  // The task has not come back from waiting for a mutex.
  predicate NoReturn(r: Task) { r.call.InLock? ==> r.state.WtMtx? }

  lemma NobodyElse(s: S, m: nat, t: Tid)
    requires NoClaims(s, m, {t}) && (t in s.tasks ==> NoReturn(s.tasks[t]))
    ensures NoClaims(s, m, {})
  {
  }

  lemma NotOwned(s: S, mtx: map<nat, Mutex>, m: nat, t: Tid)
    requires Own(s, mtx - {m})
    ensures m !in Owned(s, t)
  {
  }

  lemma SameQueue(s: S, d: S, t: Tid, q: Qid)
    requires Core(s) && Core(d) && Only(s, d, t) && s.tasks[t].inode != In(q) && d.tasks[t].inode != In(q) && !q.Node?
    ensures Queue(d, q) == Queue(s, q)
  {
    hide Core, Only, Links;
    CoreLinks(s);
    CoreLinks(d);
    OnlyElsewhere(s, d, t);
    OnlyQueues(s, d, t);
  }

  // The current task gives up m: it drops to the priority its other mutexes give it, and the
  // first waiter owns m.
  lemma ReleaseInv(k: K, m: nat)
    requires Inv(k) && Runnable(k.s, k.current) && k.s.tasks[k.current].call == NoCall
    requires m in k.mtx && k.mtx[m].owner == Held(k.current)
    ensures var d := Release(k, m);
            && Inv(d) && d.current == k.current && Runnable(d.s, k.current) && d.s.tasks[k.current].call == NoCall
            && d.evts == k.evts && d.sems == k.sems && SameConds(k.s, d.s)
            && OwnerOf(d, m) == if Queue(k.s, MtxQ(m)) == [] then Free else Held(Queue(k.s, MtxQ(m))[0])
  {
    hide Core, States, InvBut, Only, Own, Detach, Realloc, CalcInherited, NoClaims, Pass, Remove, SameConds;
    var c := k.current;
    ReadyOnNode(k, c);
    DetachInv(k, m);
    var d := Detach(k.s, k.mtx[m].owner, m);
    SameCondsSelf(k.s);
    CondsKept(k.s, k.s, d, c);
    var k1 := k.(s := d);
    OnlyHas(k.s, d, c);
    NobodyElse(d, m, c);
    CoreOf(k, k.sems, k.mtx);
    CoreOf(k1, k.sems, k.mtx - {m});
    SameQueue(k.s, d, c, MtxQ(m));
    if Queue(k.s, MtxQ(m)) == [] {
      FreeInv(k1, m);
    } else {
      var p := CalcInherited(d, c);
      CalcBound(d, c);
      ReallocInv(k1, c, p, k.sems, k.mtx - {m});
      var k2 := k1.(s := Realloc(d, c, p));
      CoreOf(k2, k.sems, k.mtx - {m});
      SameQueue(d, k2.s, c, MtxQ(m));
      ClaimsKept(d, k2.s, c, m, {});
      assert {} - {c} == {};
      PartsOf(k2, k.sems, k.mtx - {m});
      NotOwned(k2.s, k.mtx, m, c);
      DetachNothing(k2.s, Held(c), m);
      PassInv(k2, m);
      HeldFacts(k, m, k.sems, k.mtx);
      PassOthers(k2, m, c);
      CondsKept(k.s, d, k2.s, c);
      CondsKept(k.s, k2.s, Pass(k2, m).s, k2.s.queues[MtxQ(m)][0]);
    }
  }

  lemma SameCondsSelf(s: S)
    ensures SameConds(s, s)
  {
  }

  lemma CondsKept(s: S, d: S, e: S, t: Tid)
    requires SameConds(s, d) && Only(d, e, t)
    ensures SameConds(s, e)
  {
    OnlyQueues(d, e, t);
    hide Only;
  }

  ghost predicate SameConds(s: S, d: S) { forall c: nat :: CondQ(c) in d.queues <==> CondQ(c) in s.queues }

  lemma DetachNothing(s: S, o: Owner, m: nat)
    requires o.Held? ==> m !in Owned(s, o.t)
    ensures Detach(s, o, m) == s
  {
  }

  lemma ReadyOnNode(k: K, t: Tid)
    requires Inv(k) && Runnable(k.s, t)
    ensures k.s.tasks[t].inode == In(Node(k.s.tasks[t].elem))
  {
    assert StateOk(k.s.tasks[t]);
  }

  // Everybody but the new owner is left as they were.
  lemma PassOthers(k: K, m: nat, c: Tid)
    requires m in k.mtx && Queue(k.s, MtxQ(m)) != [] && c in k.s.tasks && c !in Queue(k.s, MtxQ(m))
    requires var n := k.s.queues[MtxQ(m)][0]; n in k.s.tasks && Only(k.s, Pass(k, m).s, n)
    ensures c in Pass(k, m).s.tasks && Pass(k, m).s.tasks[c] == k.s.tasks[c]
  {
    hide Only, Pass;
    var n := k.s.queues[MtxQ(m)][0];
    assert n in Queue(k.s, MtxQ(m));
    OnlyKeys(k.s, Pass(k, m).s, n);
  }

  lemma UnlockInv(k: K, m: nat)
    requires Inv(k) && Runnable(k.s, k.current) && k.s.tasks[k.current].call == NoCall
    ensures Inv(MutexUnlock(k, m).k)
    ensures var d := MutexUnlock(k, m).k; d.current == k.current && Runnable(d.s, k.current) && d.s.tasks[k.current].call == NoCall && d.evts == k.evts && SameConds(k.s, d.s)
    ensures m in Owned(k.s, k.current) ==> MutexUnlock(k, m).ret == Code(EOK)
    ensures m in k.mtx && k.mtx[m] == Mutex(1, Held(k.current)) ==>
              OwnerOf(MutexUnlock(k, m).k, m) == if Queue(k.s, MtxQ(m)) == [] then Free else Held(Queue(k.s, MtxQ(m))[0])
  {
    hide InvBut, Release;
    if m in Owned(k.s, k.current) { OwnedHeld(k, k.current, m); }
    if m in k.mtx && k.mtx[m].owner.Held? {
      HeldFacts(k, m, k.sems, k.mtx);
      if k.mtx[m].owner.t == k.current {
        if k.mtx[m].count > 1 { CountInv(k, m, k.mtx[m].count - 1); } else { ReleaseInv(k, m); }
      }
    }
  }

  lemma OwnedHeld(k: K, t: Tid, m: nat)
    requires Inv(k) && t in k.s.tasks && m in k.s.tasks[t].owned
    ensures m in k.mtx && k.mtx[m].owner == Held(t)
  {
  }

  // ---- _isixp_mutex_unlock_all_in_task ----

  // One turn of the loop: m passes to its first waiter, or becomes free.
  lemma ReleaseOne(k: K, u: Tid, m: nat)
    requires Inv(k) && u in k.s.tasks && NoReturn(k.s.tasks[u]) && m in k.mtx && k.mtx[m].owner == Held(u)
    ensures var d := if Queue(k.s, MtxQ(m)) != [] then Transfer(k, m)
                     else k.(s := Detach(k.s, k.mtx[m].owner, m), mtx := k.mtx[m := Mutex(0, Free)]);
            && Inv(d) && d.current == k.current && d.evts == k.evts && d.sems == k.sems
            && u in d.s.tasks && d.s.tasks[u] == k.s.tasks[u].(owned := Remove(k.s.tasks[u].owned, m))
  {
    hide Core, States, InvBut, Only, Own, Detach, NoClaims, Pass, Remove;
    HeldFacts(k, m, k.sems, k.mtx);
    DetachInv(k, m);
    var d := Detach(k.s, k.mtx[m].owner, m);
    var k1 := k.(s := d);
    OnlyHas(k.s, d, u);
    NobodyElse(d, m, u);
    CoreOf(k, k.sems, k.mtx);
    CoreOf(k1, k.sems, k.mtx - {m});
    NotIn(k.s, u, MtxQ(m));
    SameQueue(k.s, d, u, MtxQ(m));
    if Queue(k.s, MtxQ(m)) == [] {
      FreeInv(k1, m);
    } else {
      PassInv(k1, m);
      PassOthers(k1, m, u);
    }
  }

  lemma NotIn(s: S, t: Tid, q: Qid)
    requires Core(s) && t in s.tasks && q in s.queues && t !in s.queues[q]
    ensures s.tasks[t].inode != In(q)
  {
  }

  lemma {:induction false} ReleaseEachInv(k: K, u: Tid, ms: seq<nat>)
    requires Inv(k) && u in k.s.tasks && NoReturn(k.s.tasks[u]) && k.s.tasks[u].owned == ms
    ensures var d := ReleaseEach(k, ms);
            && Inv(d) && d.current == k.current && d.evts == k.evts && d.sems == k.sems
            && u in d.s.tasks && d.s.tasks[u] == k.s.tasks[u].(owned := [])
    decreases |ms|
  {
    hide InvBut, Transfer, Detach;
    if ms != [] {
      var m := ms[0];
      assert m in ms;
      OwnedHeld(k, u, m);
      ReleaseOne(k, u, m);
      var d := if Queue(k.s, MtxQ(m)) != [] then Transfer(k, m)
               else k.(s := Detach(k.s, k.mtx[m].owner, m), mtx := k.mtx[m := Mutex(0, Free)]);
      ReleaseEachInv(d, u, ms[1..]);
    }
  }

  lemma UnlockAllInv(k: K, u: Tid)
    requires Inv(k) && u in k.s.tasks && NoReturn(k.s.tasks[u])
    ensures var d := UnlockAllIn(k, u);
            && Inv(d) && d.current == k.current && d.evts == k.evts && d.sems == k.sems
            && u in d.s.tasks && d.s.tasks[u].owned == [] && d.s.tasks[u].token == k.s.tasks[u].token
            && (u != k.current ==> d.s.tasks[u].state == k.s.tasks[u].state)
            && (Finished(d.s, u) <==> Finished(k.s, u))
  {
    hide InvBut, ReleaseEach, Reinherit, Only;
    ReleaseEachInv(k, u, k.s.tasks[u].owned);
    var d := ReleaseEach(k, k.s.tasks[u].owned);
    if u == k.current {
      ReinheritInv(d, u, d.sems, d.mtx);
    }
  }

  // ---- isix_mutex_destroy ----

  // A list without tasks can go.
  lemma DropOk(s: S, q: Qid)
    requires Core(s) && States(s, {}) && q in s.queues && s.queues[q] == [] && !q.Node?
    ensures Core(DropQueue(s, q)) && States(DropQueue(s, q), {})
  {
    hide NoDup, StateOk, Ascending, InLine;
    var d := DropQueue(s, q);
    LineKept(s, d);
    forall p | p in d.queues && PrioQ(p) ensures Sorted(d, d.queues[p]) { assert Sorted(s, s.queues[p]); }
  }

  lemma DropParts(s: S, q: Qid, sems: map<nat, Semaphore>, mtx: map<nat, Mutex>, evts: map<nat, bv32>)
    requires q in s.queues && Own(s, mtx) && Sems(s, sems) && Events(s, evts)
    requires (q.MtxQ? ==> q.m !in mtx) && (q.SemQ? ==> q.s !in sems) && (q.EvtQ? ==> q.e !in evts)
    requires Exits(s) && !q.ExitQ?
    ensures Own(DropQueue(s, q), mtx) && Sems(DropQueue(s, q), sems) && Events(DropQueue(s, q), evts) && Exits(DropQueue(s, q))
  {
    hide NoDup, CheckCond2;
    var d := DropQueue(s, q);
    forall m | m in mtx ensures OwnerOk(d, m, mtx[m]) { assert OwnerOk(s, m, mtx[m]); }
    forall e | e in evts ensures EventOk(d, e, evts[e]) { assert EventOk(s, e, evts[e]); }
  }

  lemma DropMutex(k: K, m: nat)
    requires InvBut(k, k.sems, k.mtx - {m}) && m in k.mtx && Queue(k.s, MtxQ(m)) == []
    ensures Inv(k.(s := DropQueue(k.s, MtxQ(m)), mtx := k.mtx - {m}))
  {
    hide Core, States, TimeInv, Own, Sems, Events, Exits;
    DropOk(k.s, MtxQ(m));
    DropParts(k.s, MtxQ(m), k.sems, k.mtx - {m}, k.evts);
  }

  // A waiter leaves the list of the mutex under destruction, with the priority it keeps.
  lemma DismissInv(k: K, m: nat, t: Tid)
    requires InvBut(k, k.sems, k.mtx - {m}) && m in k.mtx && t in Queue(k.s, MtxQ(m))
    ensures var l := ListDelete(k.s, t);
            var d := WakeUp(k.(s := SetPrio(l, t, CalcInherited(l, t))), t, Msg(EDESTROY));
            && InvBut(d, k.sems, k.mtx - {m}) && Only(k.s, d.s, t) && d == k.(s := d.s, clock := d.clock)
            && d.s.tasks[t] == k.s.tasks[t].(prio := CalcInherited(l, t), obj := Msg(EDESTROY), state := Ready,
                                             elem := d.s.tasks[t].elem, inode := In(Node(d.s.tasks[t].elem)))
  {
    hide Core, States, InvBut, Only, ListDelete, CalcInherited, AddReady, SetObj, TimeDelete, Timed;
    var sems, mtx := k.sems, k.mtx - {m};
    WaiterFacts(k, m, t);
    CoreOf(k, sems, mtx);
    var l := ListDelete(k.s, t);
    var p := CalcInherited(l, t);
    SameBase(k.s, t);
    CalcBound(l, t);
    PassedOk(k.s, t, k.s.tasks[t].(inode := Off, prio := p), Msg(EDESTROY));
    ClockDelete(k, t, sems, mtx);
    StateOf(k, t, sems, mtx);
    QuietOk(k.(clock := TimeDelete(k.clock, t)), Awake(SetPrio(l, t, p), t, Msg(EDESTROY)), t, sems, mtx);
  }

  lemma SameBase(s: S, t: Tid)
    requires t in s.tasks
    ensures t in ListDelete(s, t).tasks && ListDelete(s, t).tasks[t].base == s.tasks[t].base
  {
  }

  lemma HeadGone(s: S, d: S, t: Tid, q: Qid)
    requires Core(s) && Core(d) && Only(s, d, t) && q in s.queues && !q.Node? && s.queues[q] != [] && s.queues[q][0] == t
    requires d.tasks[t].inode != In(q)
    ensures Queue(d, q) == s.queues[q][1..]
  {
    assert t !in d.queues[q];
    RemoveNone(d.queues[q], t);
  }

  lemma {:induction false} DestroyWaitersInv(k: K, m: nat, ts: seq<Tid>)
    requires InvBut(k, k.sems, k.mtx - {m}) && m in k.mtx && MtxQ(m) in k.s.queues && k.s.queues[MtxQ(m)] == ts
    ensures var d := DestroyWaiters(k, ts);
            InvBut(d, k.sems, k.mtx - {m}) && Queue(d.s, MtxQ(m)) == [] && d == k.(s := d.s, clock := d.clock)
            && d.s.tasks.Keys == k.s.tasks.Keys
    decreases |ts|
  {
    hide Core, States, InvBut, Only, ListDelete, CalcInherited, WakeUp, SetPrio;
    if ts != [] {
      var t := ts[0];
      DismissInv(k, m, t);
      var l := ListDelete(k.s, t);
      var d := WakeUp(k.(s := SetPrio(l, t, CalcInherited(l, t))), t, Msg(EDESTROY));
      CoreOf(k, k.sems, k.mtx - {m});
      CoreOf(d, k.sems, k.mtx - {m});
      OnlyKeys(k.s, d.s, t);
      HeadGone(k.s, d.s, t, MtxQ(m));
      OnlyQueues(k.s, d.s, t);
      DestroyWaitersInv(d, m, ts[1..]);
    }
  }

  lemma DestroyMutexInv(k: K, m: nat)
    requires Inv(k) && m in k.mtx
    ensures Inv(MutexDestroy(k, m).k)
  {
    hide Core, States, InvBut, Only, Forsake, DestroyWaiters, Reinherit, DropQueue, NoClaims, Remove, CalcInherited;
    var o := k.mtx[m].owner;
    var e := k.mtx[m := Mutex(0, Free)];
    var k1 := k.(s := Forsake(k.s, o, m), mtx := e);
    OpenAccount(k, m);
    var ts := Queue(k.s, MtxQ(m));
    assert e - {m} == k.mtx - {m};
    DestroyWaitersInv(k1, m, ts);
    var d := DestroyWaiters(k1, ts);
    if o.Held? {
      HeldFacts(k, m, k.sems, k.mtx);
      ForsakeKeys(k.s, o, m);
      ReinheritInv(d, o.t, k.sems, k.mtx - {m});
      CoreOf(d, k.sems, k.mtx - {m});
      CoreOf(d.(s := Reinherit(d.s, o.t)), k.sems, k.mtx - {m});
      StillEmpty(d.s, Reinherit(d.s, o.t), o.t, MtxQ(m), CalcInherited(d.s, o.t));
      DropMutex(d.(s := Reinherit(d.s, o.t)), m);
    } else {
      DropMutex(d, m);
    }
  }

  lemma DetachKeys(s: S, o: Owner, m: nat)
    ensures Detach(s, o, m).tasks.Keys == s.tasks.Keys && Detach(s, o, m).queues == s.queues
  {
  }

  lemma ForsakeKeys(s: S, o: Owner, m: nat)
    ensures Forsake(s, o, m).tasks.Keys == s.tasks.Keys && Forsake(s, o, m).queues == s.queues
  {
    hide Detach;
    DetachKeys(s, o, m);
  }

  lemma StillEmpty(s: S, d: S, t: Tid, q: Qid, p: nat)
    requires Core(s) && Core(d) && Queue(s, q) == [] && !q.Node? && t in s.tasks && Repositioned(s, d, t, p)
    ensures Queue(d, q) == []
  {
    hide Core, Only, Links;
    if d != s {
      CoreLinks(s);
      CoreLinks(d);
      OnlyElsewhere(s, d, t);
      OnlyQueues(s, d, t);
    }
  }

  lemma OpenAccount(k: K, m: nat)
    requires Inv(k) && m in k.mtx
    ensures var e := k.mtx[m := Mutex(0, Free)]; var d := Forsake(k.s, k.mtx[m].owner, m);
            InvBut(k.(s := d, mtx := e), k.sems, k.mtx - {m}) && MtxQ(m) in d.queues && d.queues[MtxQ(m)] == Queue(k.s, MtxQ(m))
  {
    hide InvBut, Detach, NoClaims, Only, Remove;
    var o := k.mtx[m].owner;
    DetachKeys(k.s, o, m);
    if o.Held? {
      HeldFacts(k, m, k.sems, k.mtx);
      DetachInv(k, m);
      if HandedTo(k.s, o, m) { LoseInv(k.(s := Detach(k.s, o, m)), m, o.t); }
    } else {
      FreeOpen(k, m);
      DetachNothing(k.s, o, m);
    }
    OpenKeys(k.(s := Forsake(k.s, o, m)), m);
  }

  lemma FreeOpen(k: K, m: nat)
    requires Inv(k) && m in k.mtx && k.mtx[m].owner.Free?
    ensures InvBut(k, k.sems, k.mtx - {m}) && MtxQ(m) in k.s.queues
  {
    hide Core, States, TimeInv, TimeStates, OneRunning, Own, Sems, Events, Calls, Exits, NoClaims;
    FreeCount(k, m);
    OwnFewer(k.s, k.mtx, m);
    CallsFewer(k.s, k.mtx, m);
  }

  lemma OpenKeys(k: K, m: nat)
    requires InvBut(k, k.sems, k.mtx - {m}) && m in k.mtx
    ensures InvBut(k.(mtx := k.mtx[m := Mutex(0, Free)]), k.sems, k.mtx - {m})
  {
    hide Core, States, TimeInv, TimeStates, OneRunning, Own, Sems, Events, Calls, Exits;
  }

  // The mutex the task was handed is about to be destroyed.
  lemma LoseInv(k: K, m: nat, t: Tid)
    requires InvBut(k, k.sems, k.mtx - {m}) && t in k.s.tasks && k.s.tasks[t].token == Handed(m)
    ensures InvBut(k.(s := SetToken(k.s, t, Lost)), k.sems, k.mtx - {m})
    ensures SetToken(k.s, t, Lost).queues == k.s.queues
  {
    hide Core, States, InvBut, Only, Timed, CheckCond2, EvWord;
    var sems, mtx := k.sems, k.mtx - {m};
    var r := k.s.tasks[t].(token := Lost);
    CoreOf(k, sems, mtx);
    StateOf(k, t, sems, mtx);
    CorePrios(k.s, t);
    CoreSameLinks(k.s, t, r);
    OnlyPut(k.s, t, r);
    KeepStates(k.s, Put(k.s, t, r), t, {});
    assert {} - {t} == {};
    OneRunningOf(k, t, sems, mtx);
    QuietOk(k, Put(k.s, t, r), t, sems, mtx);
  }
}
