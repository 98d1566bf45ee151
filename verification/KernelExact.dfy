/**
 Priority inheritance (libisix/kernel/mutex.c) is exact.  In runs with fixed base priorities
 in which a task that blocks on a mutex owns none, every live task runs at the most urgent
 of its base priority and the priorities of all waiters on the mutexes it owns.
 */
module KernelExact {
  import opened Lists
  import opened KernelState
  import opened KernelCalls
  import opened KernelLists
  import opened KernelTime
  import opened KernelInv
  import opened KernelWake
  import opened KernelMutex
  import opened KernelObjects
  import opened KernelEvents
  import opened KernelTasks
  import opened KernelSched
  import opened KernelRun

  ghost predicate Waits(s: S, m: nat, w: Tid) { w in s.tasks && w in Queue(s, MtxQ(m)) }

  // p is the most urgent of b and the priorities of all who wait for a mutex in ms.
  ghost predicate IsBest(s: S, ms: seq<nat>, b: nat, p: nat) {
    && p <= b
    && (forall m, w | m in ms && Waits(s, m, w) :: p <= s.tasks[w].prio)
    && (p == b || exists m, w :: m in ms && Waits(s, m, w) && s.tasks[w].prio == p)
  }

  ghost predicate Exact(s: S, t: Tid)
    requires t in s.tasks
  {
    IsBest(s, s.tasks[t].owned, s.tasks[t].base, s.tasks[t].prio)
  }

  ghost predicate Exacts(s: S, but: set<Tid>) {
    forall t | t in s.tasks && t !in but && !Done(s.tasks[t]) :: Exact(s, t)
  }

  // A task that waits for a mutex owns none.
  ghost predicate Flat(s: S) {
    forall t | t in s.tasks && s.tasks[t].state.WtMtx? :: s.tasks[t].owned == []
  }

  // ---- the priority that the code computes ----

  lemma HeadBest(s: S, m: nat)
    requires Core(s)
    ensures var q := Queue(s, MtxQ(m)); q != [] ==> Waits(s, m, q[0]) && forall w | Waits(s, m, w) :: s.tasks[q[0]].prio <= s.tasks[w].prio
  {
    hide Links, NodeOrder, NodePrio, Prios;
    var q := Queue(s, MtxQ(m));
    if q != [] {
      assert Sorted(s, q);
      forall w | Waits(s, m, w) ensures s.tasks[q[0]].prio <= s.tasks[w].prio {
        var i :| 0 <= i < |q| && q[i] == w;
      }
    }
  }

  lemma {:induction false} InheritedBest(s: S, ms: seq<nat>, b: nat)
    requires Core(s)
    ensures IsBest(s, ms, b, Inherited(s, ms, b))
    decreases |ms|
  {
    hide Core;
    if ms != [] {
      var m := ms[0];
      HeadBest(s, m);
      var q := Queue(s, MtxQ(m));
      var c := if q != [] && q[0] in s.tasks && s.tasks[q[0]].prio < b then s.tasks[q[0]].prio else b;
      InheritedBest(s, ms[1..], c);
      var p := Inherited(s, ms[1..], c);
      WaiterThere(s, m);
      forall x, w | x in ms && Waits(s, x, w) ensures p <= s.tasks[w].prio { if x != m { assert x in ms[1..]; } }
      if p != b {
        if p == c {
          assert m in ms && Waits(s, m, q[0]) && s.tasks[q[0]].prio == p;
        } else {
          var x, w :| x in ms[1..] && Waits(s, x, w) && s.tasks[w].prio == p;
          assert x in ms;
        }
      }
    }
  }

  lemma WaiterThere(s: S, m: nat)
    ensures Queue(s, MtxQ(m)) == [] ==> forall w :: !Waits(s, m, w)
  {
  }

  lemma CalcExact(s: S, t: Tid)
    requires Core(s) && t in s.tasks
    ensures IsBest(s, s.tasks[t].owned, s.tasks[t].base, CalcInherited(s, t))
  {
    hide Core;
    InheritedBest(s, s.tasks[t].owned, s.tasks[t].base);
  }

  // ---- frames ----

  lemma SameBest(s: S, d: S, ms: seq<nat>, b: nat, p: nat)
    requires IsBest(s, ms, b, p)
    requires forall m, w | m in ms :: Waits(s, m, w) <==> Waits(d, m, w)
    requires forall m, w | m in ms && Waits(s, m, w) && Waits(d, m, w) :: d.tasks[w].prio == s.tasks[w].prio
    ensures IsBest(d, ms, b, p)
  {
    if p != b {
      var m, w :| m in ms && Waits(s, m, w) && s.tasks[w].prio == p;
      assert Waits(d, m, w);
    }
  }

  lemma TameExact(s: S, d: S, but: set<Tid>)
    requires Tame(s, d) && Exacts(s, but) && Flat(s)
    ensures Exacts(d, but) && Flat(d)
  {
    forall t | t in d.tasks && t !in but && !Done(d.tasks[t]) ensures Exact(d, t) {
      assert Exact(s, t);
      SameBest(s, d, s.tasks[t].owned, s.tasks[t].base, s.tasks[t].prio);
    }
  }

  // A task whose mutexes have other waiters than n does not notice a change of n.
  lemma OtherExact(s: S, d: S, n: Tid, t: Tid)
    requires Links(s) && Links(d) && Only(s, d, n) && t != n && t in s.tasks && Exact(s, t)
    requires forall m | m in s.tasks[t].owned :: s.tasks[n].inode != In(MtxQ(m)) && d.tasks[n].inode != In(MtxQ(m))
    ensures t in d.tasks && Exact(d, t)
  {
    OnlyKeys(s, d, n);
    OnlyQueues(s, d, n);
    OnlyElsewhere(s, d, n);
    forall m, w | m in s.tasks[t].owned && (Waits(s, m, w) || Waits(d, m, w))
      ensures Waits(s, m, w) && Waits(d, m, w) && d.tasks[w].prio == s.tasks[w].prio
    {
      NotQueued(s, n, MtxQ(m));
      NotQueued(d, n, MtxQ(m));
    }
    hide Only, Links, Waits;
    SameBest(s, d, s.tasks[t].owned, s.tasks[t].base, s.tasks[t].prio);
  }

  // The mutex n leaves or joins is not on anybody's list, or its owner is excepted.
  lemma OthersExact(s: S, d: S, n: Tid, but: set<Tid>)
    requires Links(s) && Links(d) && Only(s, d, n) && Exacts(s, but) && n in but
    requires forall t, m | t in s.tasks && t !in but && m in s.tasks[t].owned ::
               s.tasks[n].inode != In(MtxQ(m)) && d.tasks[n].inode != In(MtxQ(m))
    ensures Exacts(d, but)
  {
    OnlyKeys(s, d, n);
    forall t | t in d.tasks && t !in but && !Done(d.tasks[t]) ensures Exact(d, t) {
      OtherExact(s, d, n, t);
    }
  }

  lemma AddExact(s: S, but: set<Tid>, n: Tid)
    requires Exacts(s, but + {n}) && (n in s.tasks && !Done(s.tasks[n]) && n !in but ==> Exact(s, n))
    ensures Exacts(s, but)
  {
  }

  lemma FewerExact(s: S, but: set<Tid>, n: Tid)
    requires Exacts(s, but)
    ensures Exacts(s, but + {n})
  {
  }

  // Only n's record changes, and n is on no mutex list.
  lemma AloneExact(s: S, d: S, n: Tid, but: set<Tid>)
    requires Links(s) && Links(d) && Only(s, d, n) && Exacts(s, but + {n}) && !OnMutex(s.tasks[n]) && !OnMutex(d.tasks[n])
    ensures Exacts(d, but + {n})
    ensures IsBest(s, d.tasks[n].owned, d.tasks[n].base, d.tasks[n].prio) || Done(d.tasks[n]) || n in but ==> Exacts(d, but)
  {
    hide IsBest, Only, Links;
    OthersExact(s, d, n, but + {n});
    OnlyHas(s, d, n);
    if IsBest(s, d.tasks[n].owned, d.tasks[n].base, d.tasks[n].prio) {
      AloneBest(s, d, n, d.tasks[n].owned, d.tasks[n].base, d.tasks[n].prio);
    }
    if IsBest(s, d.tasks[n].owned, d.tasks[n].base, d.tasks[n].prio) || Done(d.tasks[n]) || n in but { AddExact(d, but, n); }
  }

  lemma AloneBest(s: S, d: S, n: Tid, ms: seq<nat>, b: nat, p: nat)
    requires Links(s) && Links(d) && Only(s, d, n) && !OnMutex(s.tasks[n]) && !OnMutex(d.tasks[n]) && IsBest(s, ms, b, p)
    ensures IsBest(d, ms, b, p)
  {
    OnlyKeys(s, d, n);
    OnlyQueues(s, d, n);
    OnlyElsewhere(s, d, n);
    forall m, w | m in ms && (Waits(s, m, w) || Waits(d, m, w))
      ensures Waits(s, m, w) && Waits(d, m, w) && d.tasks[w].prio == s.tasks[w].prio
    {
      NotQueued(s, n, MtxQ(m));
      NotQueued(d, n, MtxQ(m));
    }
    hide Only, Links, Waits;
    SameBest(s, d, ms, b, p);
  }

  lemma FlatOnly(s: S, d: S, n: Tid)
    requires Only(s, d, n) && Flat(s) && (d.tasks[n].state.WtMtx? ==> d.tasks[n].owned == [])
    ensures Flat(d)
  {
    OnlyKeys(s, d, n);
    hide Only;
  }

  // ---- recomputing a priority ----

  lemma ReinheritExact(k: K, o: Tid, but: set<Tid>, sems: map<nat, Semaphore>, mtx: map<nat, Mutex>)
    requires InvBut(k, sems, mtx) && o in k.s.tasks && Exacts(k.s, but + {o}) && Flat(k.s) && !k.s.tasks[o].state.WtMtx?
    ensures Exacts(Reinherit(k.s, o), but) && Flat(Reinherit(k.s, o))
  {
    hide Core, States, InvBut, Only, Realloc, CalcInherited, IsBest, Exacts, Flat, Links, StateOk, CallOk;
    CoreOf(k, sems, mtx);
    StateOf(k, o, sems, mtx);
    OffMutex(k.s.tasks[o]);
    CalcExact(k.s, o);
    var p := CalcInherited(k.s, o);
    if p != k.s.tasks[o].prio {
      CalcBound(k.s, o);
      ReallocInv(k, o, p, sems, mtx);
      var d := Realloc(k.s, o, p);
      CoreOf(k.(s := d), sems, mtx);
      CoreLinks(k.s);
      CoreLinks(d);
      AloneExact(k.s, d, o, but);
      FlatAt(k.s, o);
      FlatOnly(k.s, d, o);
    } else {
      ExactAgain(k.s, but, o);
    }
  }

  lemma ExactAgain(s: S, but: set<Tid>, o: Tid)
    requires o in s.tasks && Exacts(s, but + {o}) && IsBest(s, s.tasks[o].owned, s.tasks[o].base, s.tasks[o].prio)
    ensures Exacts(s, but)
  {
    hide IsBest;
  }

  lemma OffMutex(r: Task)
    requires StateOk(r) && !r.state.WtMtx?
    ensures !OnMutex(r)
  {
  }

  lemma FlatAt(s: S, t: Tid)
    requires Flat(s) && t in s.tasks
    ensures s.tasks[t].state.WtMtx? ==> s.tasks[t].owned == []
  {
  }

  lemma ExactAt(s: S, but: set<Tid>, t: Tid)
    requires Exacts(s, but) && t in s.tasks && t !in but && !Done(s.tasks[t])
    ensures Exact(s, t)
    ensures s.tasks[t].owned == [] ==> s.tasks[t].prio == s.tasks[t].base
  {
  }

  lemma OwnsNothing(s: S, b: nat)
    ensures IsBest(s, [], b, b)
  {
  }

  // ---- a mutex nobody waits for does not count ----

  lemma FreeCounts(s: S, ms: seq<nat>, more: seq<nat>, m: nat, b: nat, p: nat)
    requires IsBest(s, ms, b, p) && Queue(s, MtxQ(m)) == []
    requires forall x | x != m :: x in more <==> x in ms
    ensures IsBest(s, more, b, p)
  {
    WaiterThere(s, m);
    if p != b {
      var x, w :| x in ms && Waits(s, x, w) && s.tasks[w].prio == p;
      assert x in more;
    }
  }

  lemma TakeExact(k: K, m: nat)
    requires Inv(k) && m in k.mtx && k.mtx[m].owner.Free? && Runnable(k.s, k.current) && Exacts(k.s, {}) && Flat(k.s)
    ensures Exacts(TakeMutex(k, m).s, {}) && Flat(TakeMutex(k, m).s)
  {
    hide Core, States, InvBut, IsBest, Exacts, Flat, Links, InsertFirst, Only, StateOk, CallOk, Inv;
    var c := k.current;
    FreeCount(k, m);
    TakeInv(k, m);
    var d := TakeMutex(k, m).s;
    LinksOf(k);
    LinksOf(TakeMutex(k, m));
    OnlyPut(k.s, c, k.s.tasks[c].(owned := InsertFirst(k.s.tasks[c].owned, m)));
    StateNow(k, c);
    InsertFirstHas(k.s.tasks[c].owned, m);
    ExactAt(k.s, {}, c);
    FreeCounts(k.s, k.s.tasks[c].owned, InsertFirst(k.s.tasks[c].owned, m), m, k.s.tasks[c].base, k.s.tasks[c].prio);
    FewerExact(k.s, {}, c);
    AloneExact(k.s, d, c, {});
    FlatOnly(k.s, d, c);
  }

  lemma LinksOf(k: K)
    requires Inv(k)
    ensures Links(k.s) && Core(k.s) && States(k.s, {})
  {
  }

  lemma StateNow(k: K, t: Tid)
    requires Inv(k) && t in k.s.tasks
    ensures !k.s.tasks[t].state.WtMtx? ==> !OnMutex(k.s.tasks[t])
    ensures StateOk(k.s.tasks[t])
  {
    assert StateOk(k.s.tasks[t]);
  }

  lemma {:induction false} InsertFirstHas(ms: seq<nat>, m: nat)
    ensures forall x | x != m :: x in InsertFirst(ms, m) <==> x in ms
    ensures m in InsertFirst(ms, m)
    ensures ms == [] ==> InsertFirst(ms, m) == [m]
  {
  }

  // ---- letting go of a mutex ----

  lemma DetachExact(k: K, m: nat, but: set<Tid>)
    requires Inv(k) && m in k.mtx && k.mtx[m].owner.Held? && Exacts(k.s, but) && Flat(k.s)
    ensures var o := k.mtx[m].owner.t; var d := Detach(k.s, k.mtx[m].owner, m);
            && Exacts(d, but + {o}) && Flat(d) && (Queue(k.s, MtxQ(m)) == [] ==> Exacts(d, but))
            && o in k.s.tasks && !k.s.tasks[o].state.WtMtx? && !Done(k.s.tasks[o])
  {
    hide Core, States, InvBut, IsBest, Exacts, Flat, Links, Remove, Only, StateOk, CallOk, Detach, NoClaims, Inv;
    var o := k.mtx[m].owner.t;
    var d := Detach(k.s, k.mtx[m].owner, m);
    HeldNow(k, m);
    FlatAt(k.s, o);
    StateNow(k, o);
    DetachNow(k, m);
    LinksOf(k);
    RemoveMembers(k.s.tasks[o].owned, m);
    FewerExact(k.s, but, o);
    AloneExact(k.s, d, o, but);
    FlatOnly(k.s, d, o);
    if Queue(k.s, MtxQ(m)) == [] {
      if o in but {
      } else {
        ExactAt(k.s, but, o);
        FreeCounts(k.s, k.s.tasks[o].owned, Remove(k.s.tasks[o].owned, m), m, k.s.tasks[o].base, k.s.tasks[o].prio);
      }
    }
  }

  lemma HeldNow(k: K, m: nat)
    requires Inv(k) && m in k.mtx && k.mtx[m].owner.Held?
    ensures var o := k.mtx[m].owner.t; o in k.s.tasks && m in k.s.tasks[o].owned && !Done(k.s.tasks[o])
  {
    hide InvBut;
    HeldFacts(k, m, k.sems, k.mtx);
  }

  lemma DetachNow(k: K, m: nat)
    requires Inv(k) && m in k.mtx && k.mtx[m].owner.Held?
    ensures var o := k.mtx[m].owner.t; var d := Detach(k.s, k.mtx[m].owner, m);
            Links(d) && Only(k.s, d, o) && d.tasks[o] == k.s.tasks[o].(owned := Remove(k.s.tasks[o].owned, m))
  {
    hide InvBut, Core, States, Only, Detach, NoClaims, Remove, Links;
    DetachInv(k, m);
    CoreOf(k.(s := Detach(k.s, k.mtx[m].owner, m)), k.sems, k.mtx - {m});
    CoreLinks(Detach(k.s, k.mtx[m].owner, m));
  }

  lemma {:induction false} RemoveMembers(ms: seq<nat>, m: nat)
    ensures forall x | x != m :: x in Remove(ms, m) <==> x in ms
  {
    if ms != [] { RemoveMembers(ms[1..], m); assert forall x :: x in ms <==> x == ms[0] || x in ms[1..]; }
  }

  // The first waiter is the most urgent one, so it needs nothing from the others.
  lemma PassExact(k: K, m: nat, but: set<Tid>)
    requires InvBut(k, k.sems, k.mtx - {m}) && m in k.mtx && Queue(k.s, MtxQ(m)) != [] && NoClaims(k.s, m, {})
    requires Exacts(k.s, but) && Flat(k.s) && Queue(k.s, MtxQ(m))[0] !in but
    ensures Exacts(Pass(k, m).s, but) && Flat(Pass(k, m).s)
  {
    hide Core, States, InvBut, Exacts, Flat, Links, InsertFirst, Only, StateOk, CallOk, Pass, NoClaims, Own, Sems, Calls, Events, Objects;
    var n := k.s.queues[MtxQ(m)][0];
    PassInv(k, m);
    var d := Pass(k, m);
    CoreOf(k, k.sems, k.mtx - {m});
    CoreOf(d, d.sems, d.mtx);
    CoreLinks(k.s);
    CoreLinks(d.s);
    OnlyHas(k.s, d.s, n);
    WaiterFacts(k, m, n);
    FlatAt(k.s, n);
    ExactAt(k.s, but, n);
    FewerExact(k.s, but, n);
    PartsOf(k, k.sems, k.mtx - {m});
    forall t | t in k.s.tasks ensures m !in k.s.tasks[t].owned { NotOwned(k.s, k.mtx, m, t); }
    OthersExact(k.s, d.s, n, but + {n});
    InsertFirstHas(k.s.tasks[n].owned, m);
    HeadBest(k.s, m);
    FewerWaiters(k.s, d.s, n, m);
    assert IsBest(d.s, d.s.tasks[n].owned, d.s.tasks[n].base, d.s.tasks[n].prio);
    ExactAgain(d.s, but, n);
    FlatOnly(k.s, d.s, n);
  }

  lemma FewerWaiters(s: S, d: S, n: Tid, m: nat)
    requires Links(s) && Links(d) && Only(s, d, n) && d.tasks[n].inode != In(MtxQ(m))
    ensures forall w | Waits(d, m, w) :: Waits(s, m, w) && w != n && d.tasks[w].prio == s.tasks[w].prio
  {
    LeftList(s, d, n, MtxQ(m));
    OnlyKeys(s, d, n);
    hide Links, Only;
  }

  lemma ReleaseExact(k: K, m: nat)
    requires Inv(k) && Runnable(k.s, k.current) && k.s.tasks[k.current].call == NoCall && m in k.mtx && k.mtx[m].owner == Held(k.current)
    requires Exacts(k.s, {}) && Flat(k.s)
    ensures Exacts(Release(k, m).s, {}) && Flat(Release(k, m).s)
  {
    hide Core, States, InvBut, Only, Own, Detach, Realloc, CalcInherited, NoClaims, Pass, Remove, Exacts, Flat, IsBest, Links, Sems, Calls, Events, Objects;
    var c := k.current;
    DetachExact(k, m, {});
    if Queue(k.s, MtxQ(m)) != [] {
      DetachInv(k, m);
      var d := Detach(k.s, Held(c), m);
      var k1 := k.(s := d);
      LinksOf(k);
      OnlyHas(k.s, d, c);
      CoreOf(k1, k.sems, k.mtx - {m});
      ReadyOnNode(k, c);
      SameQueue(k.s, d, c, MtxQ(m));
      NobodyElse(d, m, c);
      var p := CalcInherited(d, c);
      CalcBound(d, c);
      CalcExact(d, c);
      ReallocInv(k1, c, p, k.sems, k.mtx - {m});
      var k2 := k1.(s := Realloc(d, c, p));
      CoreOf(k2, k.sems, k.mtx - {m});
      CoreLinks(d);
      CoreLinks(k2.s);
      AloneExact(d, k2.s, c, {});
      FlatOnly(d, k2.s, c);
      SameQueue(d, k2.s, c, MtxQ(m));
      ClaimsKept(d, k2.s, c, m, {});
      assert {} - {c} == {};
      PartsOf(k2, k.sems, k.mtx - {m});
      NotOwned(k2.s, k.mtx, m, c);
      DetachNothing(k2.s, Held(c), m);
      PassExact(k2, m, {});
    }
  }

  lemma UnlockExact(k: K, m: nat)
    requires Inv(k) && Calling(k) && Exacts(k.s, {}) && Flat(k.s)
    ensures Exacts(MutexUnlock(k, m).k.s, {}) && Flat(MutexUnlock(k, m).k.s)
  {
    hide InvBut, Release, Exacts, Flat;
    if m in k.mtx && k.mtx[m].owner.Held? {
      HeldFacts(k, m, k.sems, k.mtx);
      if k.mtx[m].owner.t == k.current && k.mtx[m].count == 1 { ReleaseExact(k, m); }
    }
  }

  lemma ReleaseOneExact(k: K, u: Tid, m: nat)
    requires Inv(k) && u in k.s.tasks && NoReturn(k.s.tasks[u]) && m in k.mtx && k.mtx[m].owner == Held(u)
    requires Exacts(k.s, {u}) && Flat(k.s)
    ensures var d := if Queue(k.s, MtxQ(m)) != [] then Transfer(k, m)
                     else k.(s := Detach(k.s, k.mtx[m].owner, m), mtx := k.mtx[m := Mutex(0, Free)]);
            Exacts(d.s, {u}) && Flat(d.s)
  {
    hide Core, States, InvBut, Only, Own, Detach, NoClaims, Pass, Remove, Exacts, Flat;
    DetachExact(k, m, {u});
    assert {u} + {u} == {u};
    if Queue(k.s, MtxQ(m)) != [] {
      HeldFacts(k, m, k.sems, k.mtx);
      DetachInv(k, m);
      var d := Detach(k.s, k.mtx[m].owner, m);
      var k1 := k.(s := d);
      OnlyHas(k.s, d, u);
      NobodyElse(d, m, u);
      CoreOf(k, k.sems, k.mtx);
      CoreOf(k1, k.sems, k.mtx - {m});
      NotIn(k.s, u, MtxQ(m));
      SameQueue(k.s, d, u, MtxQ(m));
      assert Queue(k.s, MtxQ(m))[0] in Queue(k.s, MtxQ(m));
      PassExact(k1, m, {u});
    }
  }

  lemma {:induction false} ReleaseEachExact(k: K, u: Tid, ms: seq<nat>)
    requires Inv(k) && u in k.s.tasks && NoReturn(k.s.tasks[u]) && k.s.tasks[u].owned == ms && Exacts(k.s, {u}) && Flat(k.s)
    ensures Exacts(ReleaseEach(k, ms).s, {u}) && Flat(ReleaseEach(k, ms).s)
    decreases |ms|
  {
    hide InvBut, Transfer, Detach, Exacts, Flat;
    if ms != [] {
      var m := ms[0];
      assert m in ms;
      OwnedHeld(k, u, m);
      ReleaseOne(k, u, m);
      ReleaseOneExact(k, u, m);
      var d := if Queue(k.s, MtxQ(m)) != [] then Transfer(k, m)
               else k.(s := Detach(k.s, k.mtx[m].owner, m), mtx := k.mtx[m := Mutex(0, Free)]);
      ReleaseEachExact(d, u, ms[1..]);
    }
  }

  lemma UnlockAllExact(k: K, u: Tid)
    requires Inv(k) && u in k.s.tasks && NoReturn(k.s.tasks[u]) && Exacts(k.s, {}) && Flat(k.s) && !Finished(k.s, u)
    ensures var d := UnlockAllIn(k, u).s; Exacts(d, if u == k.current then {} else {u}) && Flat(d)
  {
    hide InvBut, ReleaseEach, Reinherit, Exacts, Flat, IsBest;
    FewerExact(k.s, {}, u);
    assert {} + {u} == {u};
    ReleaseEachInv(k, u, k.s.tasks[u].owned);
    ReleaseEachExact(k, u, k.s.tasks[u].owned);
    var d := ReleaseEach(k, k.s.tasks[u].owned);
    if u == k.current {
      if k.s.tasks[u].state.WtMtx? {
        FlatAt(k.s, u);
        ExactAt(k.s, {}, u);
        OwnsNothing(d.s, d.s.tasks[u].base);
        ExactAgain(d.s, {}, u);
        NothingToInherit(d.s, u);
      } else {
        ReinheritExact(d, u, {}, d.sems, d.mtx);
      }
    }
  }

  lemma NothingToInherit(s: S, t: Tid)
    requires t in s.tasks && s.tasks[t].owned == [] && s.tasks[t].prio == s.tasks[t].base
    ensures Reinherit(s, t) == s
  {
  }

  // ---- isix_mutex_destroy ----

  lemma CalcNothing(s: S, t: Tid)
    requires t in s.tasks && s.tasks[t].owned == []
    ensures CalcInherited(ListDelete(s, t), t) == s.tasks[t].base
  {
  }

  lemma DismissExact(k: K, m: nat, t: Tid, but: set<Tid>)
    requires InvBut(k, k.sems, k.mtx - {m}) && m in k.mtx && t in Queue(k.s, MtxQ(m)) && Exacts(k.s, but) && Flat(k.s) && t !in but
    ensures var l := ListDelete(k.s, t);
            var d := WakeUp(k.(s := SetPrio(l, t, CalcInherited(l, t))), t, Msg(EDESTROY)).s;
            Exacts(d, but) && Flat(d)
  {
    hide Core, States, InvBut, Exacts, Flat, Links, Only, StateOk, CallOk, ListDelete, CalcInherited, WakeUp, IsBest, Own, Sems, Calls, Events, Objects;
    DismissInv(k, m, t);
    var l := ListDelete(k.s, t);
    var d := WakeUp(k.(s := SetPrio(l, t, CalcInherited(l, t))), t, Msg(EDESTROY));
    CoreOf(k, k.sems, k.mtx - {m});
    CoreOf(d, k.sems, k.mtx - {m});
    CoreLinks(k.s);
    CoreLinks(d.s);
    OnlyHas(k.s, d.s, t);
    WaiterFacts(k, m, t);
    FlatAt(k.s, t);
    CalcNothing(k.s, t);
    FewerExact(k.s, but, t);
    PartsOf(k, k.sems, k.mtx - {m});
    forall x | x in k.s.tasks ensures m !in k.s.tasks[x].owned { NotOwned(k.s, k.mtx, m, x); }
    OthersExact(k.s, d.s, t, but + {t});
    OwnsNothing(d.s, d.s.tasks[t].base);
    ExactAgain(d.s, but, t);
    FlatOnly(k.s, d.s, t);
  }

  lemma {:induction false} DestroyWaitersExact(k: K, m: nat, ts: seq<Tid>, but: set<Tid>)
    requires InvBut(k, k.sems, k.mtx - {m}) && m in k.mtx && MtxQ(m) in k.s.queues && k.s.queues[MtxQ(m)] == ts
    requires Exacts(k.s, but) && Flat(k.s) && (forall o | o in but :: o in k.s.tasks && !k.s.tasks[o].state.WtMtx?)
    ensures var d := DestroyWaiters(k, ts).s;
            Exacts(d, but) && Flat(d) && (forall o | o in but :: o in d.tasks && !d.tasks[o].state.WtMtx?)
    decreases |ts|
  {
    hide Core, States, InvBut, Only, ListDelete, CalcInherited, WakeUp, SetPrio, Exacts, Flat;
    if ts != [] {
      var t := ts[0];
      WaiterFacts(k, m, t);
      DismissInv(k, m, t);
      DismissExact(k, m, t, but);
      var l := ListDelete(k.s, t);
      var d := WakeUp(k.(s := SetPrio(l, t, CalcInherited(l, t))), t, Msg(EDESTROY));
      CoreOf(k, k.sems, k.mtx - {m});
      CoreOf(d, k.sems, k.mtx - {m});
      OnlyKeys(k.s, d.s, t);
      HeadGone(k.s, d.s, t, MtxQ(m));
      HasQueue(k.s, d.s, t, MtxQ(m));
      DestroyWaitersExact(d, m, ts[1..], but);
    }
  }

  lemma DropTame(s: S, q: Qid)
    requires Queue(s, q) == []
    ensures Tame(s, DropQueue(s, q))
  {
  }

  lemma DestroyExact(k: K, m: nat)
    requires Inv(k) && m in k.mtx && Exacts(k.s, {}) && Flat(k.s)
    ensures var d := MutexDestroy(k, m).k.s; Exacts(d, {}) && Flat(d)
  {
    hide Core, States, InvBut, Only, Detach, Forsake, DestroyWaiters, Reinherit, DropQueue, CalcInherited, Exacts, Flat, Tame;
    var o := k.mtx[m].owner;
    var e := k.mtx[m := Mutex(0, Free)];
    var k1 := k.(s := Forsake(k.s, o, m), mtx := e);
    OpenAccount(k, m);
    var ts := Queue(k.s, MtxQ(m));
    assert e - {m} == k.mtx - {m};
    DestroyWaitersInv(k1, m, ts);
    var d := DestroyWaiters(k1, ts);
    ForsakeKeys(k.s, o, m);
    if o.Held? {
      DetachExact(k, m, {});
      assert {} + {o.t} == {o.t};
      ForsakeTame(k.s, o, m);
      TameExact(Detach(k.s, o, m), k1.s, {o.t});
      ForsakeState(k.s, o, m, o.t);
      DestroyWaitersExact(k1, m, ts, {o.t});
      ReinheritExact(d, o.t, {}, k.sems, k.mtx - {m});
      ReinheritInv(d, o.t, k.sems, k.mtx - {m});
      CoreOf(d, k.sems, k.mtx - {m});
      CoreOf(d.(s := Reinherit(d.s, o.t)), k.sems, k.mtx - {m});
      StillEmpty(d.s, Reinherit(d.s, o.t), o.t, MtxQ(m), CalcInherited(d.s, o.t));
      DropTame(Reinherit(d.s, o.t), MtxQ(m));
      TameExact(Reinherit(d.s, o.t), DropQueue(Reinherit(d.s, o.t), MtxQ(m)), {});
    } else {
      DetachFree(k.s, m);
      DestroyWaitersExact(k1, m, ts, {});
      DropTame(d.s, MtxQ(m));
      TameExact(d.s, DropQueue(d.s, MtxQ(m)), {});
    }
  }

  lemma DetachFree(s: S, m: nat)
    ensures Forsake(s, Free, m) == s
  {
  }

  lemma ForsakeState(s: S, o: Owner, m: nat, t: Tid)
    requires t in s.tasks
    ensures t in Forsake(s, o, m).tasks && Forsake(s, o, m).tasks[t].state == s.tasks[t].state
  {
  }

  lemma ForsakeTame(s: S, o: Owner, m: nat)
    ensures Tame(Detach(s, o, m), Forsake(s, o, m))
  {
    hide Detach;
    DetachKeys(s, o, m);
  }

  // ---- isix_mutex_lock, when it blocks ----

  predicate WouldBlock(k: K, m: nat) { m in k.mtx && k.mtx[m].owner.Held? && k.mtx[m].owner.t != k.current }

  // One more waiter c, and its owner o at least as urgent as c.
  lemma OneMoreBest(s: S, d: S, ms: seq<nat>, m: nat, c: Tid, b: nat, p: nat)
    requires IsBest(s, ms, b, p) && m in ms && Waits(d, m, c) && d.tasks[c].prio <= b
    requires forall x, w | x in ms && Waits(s, x, w) :: Waits(d, x, w) && d.tasks[w].prio == s.tasks[w].prio
    requires forall x, w | x in ms && Waits(d, x, w) :: w == c || Waits(s, x, w)
    ensures IsBest(d, ms, b, if d.tasks[c].prio < p then d.tasks[c].prio else p)
  {
    if p <= d.tasks[c].prio && p != b {
      var x, w :| x in ms && Waits(s, x, w) && s.tasks[w].prio == p;
      assert Waits(d, x, w) && d.tasks[w].prio == p;
    }
  }

  // The queues seen by the owner before the lock, after its new priority and after c has joined.
  lemma WaitersAfter(s: S, u: S, d: S, o: Tid, c: Tid, m: nat, ms: seq<nat>)
    requires Links(s) && Links(u) && Links(d) && (u == s || Only(s, u, o)) && Only(u, d, c) && o != c
    requires o in s.tasks && c in s.tasks && o in u.tasks && c in u.tasks
    requires !OnMutex(s.tasks[o]) && !OnMutex(u.tasks[o]) && !OnMutex(u.tasks[c]) && d.tasks[c].inode == In(MtxQ(m)) && d.tasks[c].prio == u.tasks[c].prio
    ensures Waits(d, m, c)
    ensures forall x, w | x in ms && Waits(s, x, w) :: Waits(d, x, w) && d.tasks[w].prio == s.tasks[w].prio
    ensures forall x, w | x in ms && Waits(d, x, w) :: w == c || Waits(s, x, w)
  {
    if u != s { MidWaiters(s, u, o); }
    JoinWaiters(u, d, c, m);
    hide Only, Links, Waits;
  }

  lemma MidWaiters(s: S, u: S, o: Tid)
    requires Links(s) && Links(u) && Only(s, u, o) && !OnMutex(s.tasks[o]) && !OnMutex(u.tasks[o])
    ensures forall x, w :: Waits(s, x, w) <==> Waits(u, x, w)
    ensures forall x, w | Waits(s, x, w) && Waits(u, x, w) :: u.tasks[w].prio == s.tasks[w].prio
  {
    OnlyKeys(s, u, o);
    OnlyQueues(s, u, o);
    OnlyElsewhere(s, u, o);
    forall x, w | Waits(s, x, w) || Waits(u, x, w) ensures Waits(s, x, w) && Waits(u, x, w) && u.tasks[w].prio == s.tasks[w].prio {
      NotQueued(s, o, MtxQ(x));
      NotQueued(u, o, MtxQ(x));
    }
  }

  lemma JoinWaiters(u: S, d: S, c: Tid, m: nat)
    requires Links(u) && Links(d) && Only(u, d, c) && !OnMutex(u.tasks[c]) && d.tasks[c].inode == In(MtxQ(m)) && d.tasks[c].prio == u.tasks[c].prio
    ensures Waits(d, m, c)
    ensures forall x, w | Waits(u, x, w) :: Waits(d, x, w) && d.tasks[w].prio == u.tasks[w].prio
    ensures forall x, w | Waits(d, x, w) :: w == c || Waits(u, x, w)
  {
    OnlyKeys(u, d, c);
    OnlyQueues(u, d, c);
    OnlyElsewhere(u, d, c);
    hide Only;
    forall x, w | Waits(u, x, w) ensures Waits(d, x, w) && d.tasks[w].prio == u.tasks[w].prio { NotQueued(u, c, MtxQ(x)); }
  }

  lemma LockExact(k: K, m: nat)
    requires Inv(k) && Runnable(k.s, k.current) && k.current != IDLE && Exacts(k.s, {}) && Flat(k.s)
    requires WouldBlock(k, m) ==> Owned(k.s, k.current) == []
    ensures Exacts(MutexLock(k, m).k.s, {}) && Flat(MutexLock(k, m).k.s)
  {
    hide InvBut, Inherit, BlockOnMutex, TakeMutex, Exacts, Flat;
    if m in k.mtx {
      if k.mtx[m].owner.Free? {
        TakeExact(k, m);
      } else {
        HeldFacts(k, m, k.sems, k.mtx);
        if k.mtx[m].owner.t != k.current { BlockExact(k, m, k.mtx[m].owner.t); }
      }
    }
  }

  // What isix_mutex_lock does to the owner of a held mutex.
  lemma InheritMoves(k: K, o: Tid, p: nat)
    requires Inv(k) && o in k.s.tasks
    ensures var u := Inherit(k.s, o, p);
            && Inv(k.(s := u)) && o in u.tasks
            && (if p < k.s.tasks[o].prio then Moved(k.s, u, o, p) else u == k.s)
  {
    hide InvBut, Core, States, Only, Realloc;
    CoreOf(k, k.sems, k.mtx);
    CorePrios(k.s, o);
    if p < k.s.tasks[o].prio { ReallocInv(k, o, p, k.sems, k.mtx); }
  }

  lemma BlockExact(k: K, m: nat, o: Tid)
    requires Inv(k) && Runnable(k.s, k.current) && k.current != IDLE && Exacts(k.s, {}) && Flat(k.s)
    requires m in k.mtx && k.mtx[m].owner == Held(o) && o != k.current && Owned(k.s, k.current) == []
    ensures var d := BlockOnMutex(k.(s := Inherit(k.s, o, k.s.tasks[k.current].prio)), m).s; Exacts(d, {}) && Flat(d)
  {
    hide InvBut, Core, States, Only, Inherit, BlockOnMutex, Exacts, Flat, Links, Waits, StateOk, IsBest, Inv;
    var c := k.current;
    var s := k.s;
    var p := s.tasks[c].prio;
    var u := Inherit(s, o, p);
    HeldNow(k, m);
    InheritMoves(k, o, p);
    InheritNow(k, o, p, c);
    var k1 := k.(s := u);
    BlockMutexNow(k1, m);
    var d := BlockOnMutex(k1, m).s;
    LinksOf(k);
    LinksOf(k1);
    LinksOf(BlockOnMutex(k1, m));
    StateNow(k, c);
    StateNow(k, o);
    StateNow(k1, o);
    StateNow(k1, c);
    FlatAt(s, o);
    ExactAt(s, {}, o);
    ExactAt(s, {}, c);
    OnlyHas(u, d, c);
    WaitersAfter(s, u, d, o, c, m, s.tasks[o].owned);
    OwnerAfter(u, d, c, o);
    BlockedOwner(s, d, o, c, m);
    BlockedRest(k, u, d, o, c, m);
  }

  lemma OwnerAfter(u: S, d: S, c: Tid, o: Tid)
    requires Only(u, d, c) && o in u.tasks && o != c
    ensures o in d.tasks && d.tasks[o] == u.tasks[o]
  {
    OnlyKeys(u, d, c);
    hide Only;
  }

  // The owner's priority after the lock is exact.
  lemma BlockedOwner(s: S, d: S, o: Tid, c: Tid, m: nat)
    requires o in s.tasks && Exact(s, o) && m in s.tasks[o].owned && o in d.tasks && Waits(d, m, c) && c in s.tasks
    requires d.tasks[c].prio == s.tasks[c].prio
    requires d.tasks[o].owned == s.tasks[o].owned && d.tasks[o].base == s.tasks[o].base
    requires d.tasks[o].prio == if s.tasks[c].prio < s.tasks[o].prio then s.tasks[c].prio else s.tasks[o].prio
    requires forall x, w | x in s.tasks[o].owned && Waits(s, x, w) :: Waits(d, x, w) && d.tasks[w].prio == s.tasks[w].prio
    requires forall x, w | x in s.tasks[o].owned && Waits(d, x, w) :: w == c || Waits(s, x, w)
    ensures Exact(d, o)
  {
    if d.tasks[c].prio <= s.tasks[o].base {
      OneMoreBest(s, d, s.tasks[o].owned, m, c, s.tasks[o].base, s.tasks[o].prio);
    } else if s.tasks[o].prio != s.tasks[o].base {
      var x, w :| x in s.tasks[o].owned && Waits(s, x, w) && s.tasks[w].prio == s.tasks[o].prio;
      assert Waits(d, x, w);
    }
  }

  lemma InheritNow(k: K, o: Tid, p: nat, c: Tid)
    requires Inv(k) && c in k.s.tasks && c != o
    ensures var u := Inherit(k.s, o, p); c in u.tasks && u.tasks[c] == k.s.tasks[c]
  {
    hide InvBut, Inherit;
    InheritInv(k, o, p);
  }

  lemma BlockMutexNow(k: K, m: nat)
    requires Inv(k) && Runnable(k.s, k.current) && k.current != IDLE && m in k.mtx && k.mtx[m].owner.Held? && k.mtx[m].owner.t != k.current
    ensures var d := BlockOnMutex(k, m);
            && Inv(d) && Only(k.s, d.s, k.current)
            && d.s.tasks[k.current] == k.s.tasks[k.current].(call := InLock(m), token := NoToken, aborted := false,
                                         state := WtMtx, inode := In(MtxQ(m)), obj := Mtx(m))
  {
    hide InvBut, BlockOnMutex, Only;
    BlockMutexInv(k, m);
  }

  lemma BlockedRest(k: K, u: S, d: S, o: Tid, c: Tid, m: nat)
    requires Inv(k) && m in k.mtx && k.mtx[m].owner == Held(o) && o in k.s.tasks && c in k.s.tasks && o != c
    requires Links(u) && Links(d) && (u == k.s || Only(k.s, u, o)) && o in u.tasks && c in u.tasks && u.tasks[c] == k.s.tasks[c]
    requires !OnMutex(k.s.tasks[o]) && !OnMutex(u.tasks[o]) && !OnMutex(u.tasks[c]) && !k.s.tasks[o].state.WtMtx? && !u.tasks[o].state.WtMtx?
    requires Only(u, d, c) && d.tasks[c].inode == In(MtxQ(m)) && d.tasks[c].owned == [] && d.tasks[c].prio == d.tasks[c].base
    requires Exacts(k.s, {}) && Flat(k.s) && o in d.tasks && Exact(d, o)
    ensures Exacts(d, {}) && Flat(d)
  {
    hide Core, States, InvBut, Only, Links, IsBest, Exacts, Flat, Own, Sems, Calls, Events, Objects;
    PartsOf(k, k.sems, k.mtx);
    CoreLinks(k.s);
    FewerExact(k.s, {}, o);
    if u != k.s {
      AloneExact(k.s, u, o, {});
      FlatOnly(k.s, u, o);
    }
    assert {} + {o} == {o};
    FewerExact(u, {o}, c);
    forall t | t in u.tasks && t != o && t != c ensures m !in u.tasks[t].owned { OnlyOwner(k, u, o, m, t); }
    OthersExact(u, d, c, {o} + {c});
    OnlyHas(u, d, c);
    OwnsNothing(d, d.tasks[c].base);
    ExactAgain(d, {o}, c);
    ExactAgain(d, {}, o);
    FlatOnly(u, d, c);
  }

  lemma OnlyOwner(k: K, u: S, o: Tid, m: nat, t: Tid)
    requires Own(k.s, k.mtx) && m in k.mtx && k.mtx[m].owner == Held(o) && (u == k.s || Only(k.s, u, o)) && t in u.tasks && t != o
    ensures m !in u.tasks[t].owned
  {
    if u != k.s { OnlyKeys(k.s, u, o); }
    hide Only;
  }

  // ---- suspend and kill ----

  lemma SuspendExact(k: K, t: Tid, but: set<Tid>)
    requires Inv(k) && t in k.s.tasks && t != IDLE && !Finished(k.s, t) && Exacts(k.s, but) && Flat(k.s) && (forall x | x in but :: x == t)
    ensures var d := KillOrSuspend(k, t, true).s; Exacts(d, but) && Flat(d)
  {
    hide Core, States, InvBut, Only, KillOrSuspend, OffList, TimeDelete, Reinherit, ReturnToken, Exacts, Flat, Tame, Links, IsBest, Inv, StateOk;
    var r := k.s.tasks[t];
    ParkInv(k, t);
    SuspendIs(k, t);
    var k1 := Park(k, t);
    if !r.state.WtMtx? {
      TameExact(k.s, k1.s, but);
    } else {
      var m := r.obj.m;
      var o := k.mtx[m].owner.t;
      LinksOf(k);
      LinksOf(k1);
      HeldNow(k, m);
      FlatAt(k.s, t);
      FlatAt(k.s, o);
      OwnerAfter(k.s, k1.s, t, o);
      FewerExact(k.s, but, o);
      FewerExact(k.s, but + {o}, t);
      forall x | x in k.s.tasks && x != o ensures m !in k.s.tasks[x].owned { OwnedOnce(k, o, m, x); }
      OthersExact(k.s, k1.s, t, but + {o} + {t});
      if t !in but {
        ExactAt(k.s, but, t);
        OwnsNothing(k1.s, r.base);
        ExactAgain(k1.s, but + {o}, t);
      } else {
        assert but + {o} + {t} == but + {o};
      }
      FlatOnly(k.s, k1.s, t);
      ReinheritAgain(k1, o, but);
    }
  }

  lemma ReinheritAgain(k: K, o: Tid, but: set<Tid>)
    requires Inv(k) && o in k.s.tasks && Exacts(k.s, but + {o}) && Flat(k.s) && !k.s.tasks[o].state.WtMtx?
    ensures Exacts(Reinherit(k.s, o), but) && Flat(Reinherit(k.s, o))
  {
    hide InvBut, Exacts, Flat, Reinherit;
    ReinheritExact(k, o, but, k.sems, k.mtx);
  }

  lemma OwnedOnce(k: K, o: Tid, m: nat, t: Tid)
    requires Inv(k) && m in k.mtx && k.mtx[m].owner == Held(o) && t in k.s.tasks && t != o
    ensures m !in k.s.tasks[t].owned
  {
    hide InvBut;
    if m in k.s.tasks[t].owned { OwnedHeld(k, t, m); }
  }

  lemma BuryExact(k: K, t: Tid, a: bool)
    requires Inv(k) && t in k.s.tasks && k.s.tasks[t].state.Suspend? && Exacts(k.s, {t}) && Flat(k.s)
    requires Inv(k.(s := Bury(k.s, t, a), deleted := k.deleted + 1)) && Zombies in k.s.queues
    ensures Exacts(Bury(k.s, t, a), {}) && Flat(Bury(k.s, t, a))
  {
    hide Core, States, InvBut, Only, Exacts, Flat, Links, IsBest, Inv, StateOk, InsertEnd;
    var r := k.s.tasks[t].(aborted := a, state := Zombie);
    LinksOf(k);
    LinksOf(k.(s := Bury(k.s, t, a), deleted := k.deleted + 1));
    StateNow(k, t);
    SuspendOff(k.s.tasks[t]);
    CorePrios(k.s, t);
    var u := Put(k.s, t, r);
    CoreFloating(k.s, t, r);
    OnlyPut(k.s, t, r);
    InsertEndOk(u, Zombies, t);
    OnlyTwice(k.s, u, Bury(k.s, t, a), t);
    assert {} + {t} == {t};
    AloneExact(k.s, Bury(k.s, t, a), t, {});
    FlatOnly(k.s, Bury(k.s, t, a), t);
  }

  lemma SuspendOff(r: Task)
    requires StateOk(r) && r.state.Suspend?
    ensures r.inode.Off?
  {
  }

  lemma EndExact(k: K, t: Tid)
    requires Inv(k) && t in k.s.tasks && t != IDLE && !Finished(k.s, t) && k.s.tasks[t].owned == [] && Queue(k.s, ExitQ(t)) == []
    requires Exacts(k.s, {t}) && Flat(k.s) && k.s.tasks[t].token.NoToken?
    ensures Exacts(KillOrSuspend(k, t, false).s, {}) && Flat(KillOrSuspend(k, t, false).s)
  {
    hide Core, InvBut, LeaveQueue, Bury, TimeDelete, ReturnToken, Only, States, Exacts, Flat;
    SuspendInv(k, t);
    SuspendExact(k, t, {t});
    var d := KillOrSuspend(k, t, true);
    LeaveHas(k.s, k.mtx, t);
    KillIs(k, t);
    EndInv(k, t);
    ZombieList(d, d.sems, d.mtx);
    BuryExact(d, t, !Retries(k.s.tasks[t].state) && d.s.tasks[t].aborted);
  }

  lemma KillExact(k: K, t: Tid)
    requires Inv(k) && t in k.s.tasks && t != IDLE && Exacts(k.s, {}) && Flat(k.s)
    ensures Exacts(Kill(k, t).s, {}) && Flat(Kill(k, t).s)
  {
    hide Core, InvBut, Abandon, UnlockAllIn, WakeAll, AllWoken, KillOrSuspend, Exacts, Flat, Tame;
    if !Finished(k.s, t) {
      AbandonInv(k, t);
      var k1 := k.(s := Abandon(k.s, t));
      TameExact(k.s, k1.s, {});
      UnlockAllInv(k1, t);
      UnlockAllExact(k1, t);
      var u := UnlockAllIn(k1, t);
      if t == k.current { FewerExact(u.s, {}, t); assert {} + {t} == {t}; }
      var o := Msg(if t == k.current then EOK else EDESTROY);
      var ts := Queue(u.s, ExitQ(t));
      ExitList(u, t);
      WakeAllInv(u, ExitQ(t), ts, o, u.sems, u.mtx);
      var w := WakeAll(u, ts, o);
      WokenRest(u, w, ts, o);
      WokenTask(u, w, t, ts, o);
      TameExact(u.s, w.s, {t});
      EndExact(w, t);
    }
  }

  // ---- tasks that come and go ----

  lemma AddedExact(s: S, t: Tid, r: Task)
    requires t !in s.tasks && r.owned == [] && r.prio == r.base && !r.state.WtMtx? && Exacts(s, {}) && Flat(s) && Links(s)
    ensures Exacts(Added(s, t, r), {}) && Flat(Added(s, t, r))
  {
    var d := Added(s, t, r);
    forall x | x in d.tasks && !Done(d.tasks[x]) ensures Exact(d, x) {
      if x == t {
        OwnsNothing(d, r.base);
      } else {
        assert Exact(s, x);
        forall m, w ensures Waits(s, m, w) <==> Waits(d, m, w) { if w in Queue(s, MtxQ(m)) { assert w in s.tasks; } }
        SameBest(s, d, s.tasks[x].owned, s.tasks[x].base, s.tasks[x].prio);
      }
    }
  }

  lemma CreateExact(k: K, t: Tid, prio: nat, suspended: bool, ref: bool)
    requires Inv(k) && t !in k.s.tasks && Exacts(k.s, {}) && Flat(k.s)
    ensures var d := TaskCreate(k, t, prio, suspended, ref).s; Exacts(d, {}) && Flat(d)
  {
    hide InvBut, WakeUp, Exacts, Flat, Tame, Links, Core, States;
    if prio <= PRIOS {
      LinksOf(k);
      var b := NewTask(prio, true, ref);
      AddedInv(k, t, b);
      AddedExact(k.s, t, b);
      if !suspended {
        var a := NewTask(prio, false, ref);
        var k1 := k.(s := Added(k.s, t, b));
        StartInv(k1, t, a);
        assert Put(Added(k.s, t, b), t, a) == Added(k.s, t, a);
        TameExact(k1.s, TaskCreate(k, t, prio, suspended, ref).s, {});
      }
    }
  }

  lemma DroppedExact(s: S, t: Tid)
    requires t in s.tasks && s.tasks[t].inode.Off? && Exacts(s, {}) && Flat(s) && Links(s)
    ensures Exacts(Dropped(s, t), {}) && Flat(Dropped(s, t))
  {
    var d := Dropped(s, t);
    forall x | x in d.tasks && !Done(d.tasks[x]) ensures Exact(d, x) {
      assert Exact(s, x);
      forall m, w ensures Waits(s, m, w) <==> Waits(d, m, w) { if w in Queue(s, MtxQ(m)) { assert w in s.tasks && s.tasks[w].inode == In(MtxQ(m)); } }
      SameBest(s, d, s.tasks[x].owned, s.tasks[x].base, s.tasks[x].prio);
    }
  }

  lemma CleanupExact(k: K)
    requires Inv(k) && Runnable(k.s, k.current) && Exacts(k.s, {}) && Flat(k.s)
    ensures Exacts(Cleanup(k).s, {}) && Flat(Cleanup(k).s)
  {
    hide InvBut, ListDelete, Core, States, Exacts, Flat, Tame, Links;
    if k.deleted != 0 && Queue(k.s, Zombies) != [] {
      var t := k.s.queues[Zombies][0];
      CoreOf(k, k.sems, k.mtx);
      OnList(k.s, t, Zombies);
      ExitedInv(k, t);
      var d := SetState(ListDelete(k.s, t), t, Exited);
      var k1 := k.(s := d, deleted := k.deleted - 1);
      TameExact(k.s, d, {});
      LinksOf(k1);
      StateOf(k1, t, k1.sems, k1.mtx);
      DroppedExact(d, t);
    }
  }

  // ---- every step ----

  // Coming back from a condition variable or a suspend, the task may wait for its mutex.
  predicate RetryPlainly(k: K) {
    k.current in k.s.tasks &&
    var r := k.s.tasks[k.current];
    (r.call.InLock? || r.call.InCond?) && WouldBlock(k, r.call.m) ==> r.owned == []
  }

  // The runs the property speaks of: base priorities stay fixed, and who has to wait for a
  // mutex owns no other.
  predicate Plainly(k: K, op: Op) {
    match op
    case OfMutex(o) => o.Lock? && WouldBlock(k, o.m) ==> Owned(k.s, k.current) == []
    case OfTask(o) => !o.SetPriority?
    case Resumed => RetryPlainly(k)
    case _ => true
  }

  lemma ContinueExact(k: K)
    requires Inv(k) && Runnable(k.s, k.current) && k.current != IDLE && CanRetry(k) && RetryPlainly(k) && Exacts(k.s, {}) && Flat(k.s)
    ensures Exacts(Continue(k).k.s, {}) && Flat(Continue(k).k.s)
  {
    hide InvBut, CallOk, MutexLock, SemTake, WaitFor, EventTake, EventWait, SetCall, Elapsed, StateOk, Plain, Exacts, Flat, Tame;
    DoneInv(k);
    var r := k.s.tasks[k.current];
    StateOf(k, k.current, k.sems, k.mtx);
    ArgsOf(r, k.current, k.mtx);
    var done := k.(s := SetCall(k.s, k.current, NoCall));
    TameExact(k.s, done.s, {});
    match r.call
    case NoCall =>
    case InWait =>
    case InLock(m) => LockExact(done, m);
    case InCond(m) => LockExact(done, m);
    case InExit(t) => WaitForInv(done, t); TameExact(done.s, WaitFor(done, t).k.s, {});
    case InSem(i, start, timeout) =>
      if r.aborted { SemTakeInv(k, i, start, timeout); TameExact(k.s, SemTake(k, i, start, timeout).k.s, {}); }
    case InEvent(e, bits, clear, all, start, timeout) =>
      if r.aborted {
        EventTakeInv(k, e, bits, clear, all, start, timeout);
        TameExact(k.s, EventTake(k, e, bits, clear, all, start, timeout).k.s, {});
      }
    case InSync(e, bits, start, timeout) =>
      var elapsed := Elapsed(k.clock, start);
      if timeout == INFINITE || elapsed < timeout {
        var left := if timeout == INFINITE then INFINITE else timeout - elapsed;
        EventWaitInv(done, e, bits, true, true, left);
        TameExact(done.s, EventWait(done, e, bits, true, true, left).k.s, {});
      }
  }

  lemma CondWaitExact(k: K, c: nat, timeout: nat)
    requires Inv(k) && Calling(k) && k.current != IDLE && timeout < TICKS && Exacts(k.s, {}) && Flat(k.s)
    ensures Exacts(CondWait(k, c, timeout).k.s, {}) && Flat(CondWait(k, c, timeout).k.s)
  {
    hide InvBut, MutexUnlock, BlockOnCond, SameConds, Exacts, Flat, Tame;
    if CondQ(c) in k.s.queues && timeout != DONTWAIT && Owned(k.s, k.current) != [] {
      var m := Owned(k.s, k.current)[0];
      UnlockInv(k, m);
      UnlockExact(k, m);
      assert m in Owned(k.s, k.current);
      var u := MutexUnlock(k, m).k;
      CondsAt(k.s, u.s, c);
      BlockCondInv(u, c, m, timeout);
      TameExact(u.s, BlockOnCond(u, c, m, timeout).s, {});
    }
  }

  lemma TrylockExact(k: K, m: nat)
    requires Inv(k) && Runnable(k.s, k.current) && Exacts(k.s, {}) && Flat(k.s)
    ensures Exacts(MutexTrylock(k, m).k.s, {}) && Flat(MutexTrylock(k, m).k.s)
  {
    hide InvBut, TakeMutex, Exacts, Flat;
    if m in k.mtx {
      if k.mtx[m].owner.Free? { TakeExact(k, m); } else { HeldFacts(k, m, k.sems, k.mtx); }
    }
  }

  lemma NewQueueTame(k: K, q: Qid)
    requires q !in k.s.queues
    ensures Tame(k.s, NewQueue(k, q).s)
  {
  }

  lemma DropsTame(k: K, q: Qid, o: Obj, sems: map<nat, Semaphore>)
    requires InvBut(k, sems, k.mtx) && q in k.s.queues && WakeList(q, o, sems) && (q.EvtQ? ==> o.Msg?)
    ensures Tame(k.s, WakeAll(k, k.s.queues[q], o).s) && Tame(k.s, DropQueue(WakeAll(k, k.s.queues[q], o).s, q))
  {
    hide InvBut, Tame, WakeAll, AllWoken, DropQueue;
    var ts := k.s.queues[q];
    WakeAllInv(k, q, ts, o, sems, k.mtx);
    var d := WakeAll(k, ts, o);
    WokenRest(k, d, ts, o);
    DropTame(d.s, q);
    TameTwice(k.s, d.s, DropQueue(d.s, q));
  }

  lemma SemStepTame(k: K, op: SemOp)
    requires Inv(k) && SemEnabled(k, op)
    ensures Tame(k.s, SemStep(k, op).k.s)
  {
    hide InvBut, Tame, SemWait, SemTrywait, SemSignal, WakeAll, AllWoken, NewQueue, DropQueue, SemReset, Signalled, WasReset;
    TameSelf(k.s);
    match op
    case NewSem(i, _, _) => NoQueue(k, SemQ(i)); NewQueueTame(k, SemQ(i));
    case Take(i, timeout) => SemWaitInv(k, i, timeout);
    case TryTake(i) => SemTrywaitInv(k, i, EBUSY);
    case Give(i) => SemSignalInv(k, i); GiveTame(k, i);
    case ResetSem(i, val) => SemResetInv(k, i, val); ResetTame(k, i, val);
    case DestroySem(i) =>
      if i in k.sems { SemOf(k, i, k.mtx); SemsFewer(k, i, k.mtx); DropsTame(k, SemQ(i), Msg(EDESTROY), k.sems - {i}); }
  }

  lemma NoQueue(k: K, q: Qid)
    requires Inv(k) && ((q.SemQ? && q.s !in k.sems) || (q.EvtQ? && q.e !in k.evts) || (q.MtxQ? && q.m !in k.mtx))
    ensures q !in k.s.queues
  {
  }

  lemma GiveTame(k: K, i: nat)
    requires i in k.sems ==> Signalled(k, SemSignal(k, i).k, i)
    ensures Tame(k.s, SemSignal(k, i).k.s)
  {
    TameSelf(k.s);
    hide Tame;
  }

  lemma ResetTame(k: K, i: nat, val: int)
    requires i in k.sems ==> WasReset(k, SemReset(k, i, val).k, i, val)
    ensures Tame(k.s, SemReset(k, i, val).k.s)
  {
    TameSelf(k.s);
    hide Tame, WakeAll;
  }

  lemma EventStepTame(k: K, op: EventOp)
    requires Inv(k) && EventEnabled(k, op)
    ensures Tame(k.s, EventStep(k, op).k.s)
  {
    hide InvBut, Tame, EventWait, EventClear, EventSet, EventSync, EventDestroy, WakeAll, NewQueue, DropQueue;
    TameSelf(k.s);
    match op
    case NewEvent(e) => NoQueue(k, EvtQ(e)); NewQueueTame(k, EvtQ(e));
    case WaitBits(e, bits, clear, all, timeout) => EventWaitInv(k, e, bits, clear, all, timeout);
    case ClearBits(e, bits) => ClearTame(k, e, bits);
    case PutBits(e, bits) => EventSetInv(k, e, bits);
    case Sync(e, bits, wanted, timeout) => EventSyncInv(k, e, bits, wanted, timeout);
    case DestroyEvent(e) => DestroyEventTame(k, e);
  }

  lemma ClearTame(k: K, e: nat, bits: bv32)
    ensures Tame(k.s, EventClear(k, e, bits).k.s)
  {
    hide Plain, Without;
    TameSelf(k.s);
  }

  lemma DestroyEventTame(k: K, e: nat)
    requires Inv(k)
    ensures Tame(k.s, EventDestroy(k, e).k.s)
  {
    hide InvBut, Tame, WakeAll, DropQueue;
    TameSelf(k.s);
    if e in k.evts { EventQueue(k, e); DropsTame(k, EvtQ(e), Msg(EDESTROY), k.sems); }
  }

  lemma CondStepExact(k: K, op: CondOp)
    requires Inv(k) && CondEnabled(k, op) && Exacts(k.s, {}) && Flat(k.s)
    ensures Exacts(CondStep(k, op).k.s, {}) && Flat(CondStep(k, op).k.s)
  {
    hide InvBut, Tame, CondSignal, CondWait, WakeAll, NewQueue, DropQueue, Exacts, Flat, Woken;
    TameSelf(k.s);
    match op
    case NewCond(c) => NewQueueTame(k, CondQ(c)); TameExact(k.s, NewQueue(k, CondQ(c)).s, {});
    case Wait(c, timeout) => CondWaitExact(k, c, timeout);
    case Signal(c) => CondSignalInv(k, c); TameExact(k.s, CondSignal(k, c).k.s, {});
    case Broadcast(c) =>
      if CondQ(c) in k.s.queues { DropsTame(k, CondQ(c), Msg(EOK), k.sems); TameExact(k.s, CondBroadcast(k, c).k.s, {}); }
    case DestroyCond(c) =>
      if CondQ(c) in k.s.queues { DropsTame(k, CondQ(c), Msg(EDESTROY), k.sems); TameExact(k.s, CondDestroy(k, c).k.s, {}); }
  }

  lemma MutexStepExact(k: K, op: MutexOp)
    requires Inv(k) && MutexEnabled(k, op) && Plainly(k, OfMutex(op)) && Exacts(k.s, {}) && Flat(k.s)
    ensures Exacts(MutexStep(k, op).k.s, {}) && Flat(MutexStep(k, op).k.s)
  {
    hide InvBut, Tame, Exacts, Flat, Unclaimed, MutexLock, MutexTrylock, MutexUnlock, UnlockAllIn, MutexDestroy, NewQueue;
    match op
    case NewMutex(m) => NoQueue(k, MtxQ(m)); NewQueueTame(k, MtxQ(m)); TameExact(k.s, NewQueue(k, MtxQ(m)).s, {});
    case Lock(m) => LockExact(k, m);
    case Trylock(m) => TrylockExact(k, m);
    case Unlock(m) => UnlockExact(k, m);
    case UnlockAll => UnlockAllExact(k, k.current);
    case DestroyMutex(m) => if m in k.mtx { DestroyExact(k, m); } else { NoMutex(k, m); }
  }

  lemma TaskStepExact(k: K, op: TaskOp)
    requires Inv(k) && TaskEnabled(k, op) && !op.SetPriority? && Exacts(k.s, {}) && Flat(k.s)
    ensures Exacts(TaskStep(k, op).k.s, {}) && Flat(TaskStep(k, op).k.s)
  {
    hide InvBut, Tame, Exacts, Flat, TaskCreate, Kill, KillOrSuspend, Resume, WaitFor, Sleep, Cleanup;
    match op
    case Create(t, prio, suspended, ref) => CreateExact(k, t, prio, suspended, ref);
    case KillTask(t) => KillExact(k, t);
    case Pause(t) => if !Finished(k.s, t) { SuspendExact(k, t, {}); }
    case Unpause(t) => ResumeInv(k, t); TameExact(k.s, Resume(k, t).k.s, {});
    case Join(t) => WaitForInv(k, t); TameExact(k.s, WaitFor(k, t).k.s, {});
    case Delay(timeout) => SleepInv(k, timeout); TameExact(k.s, Sleep(k, timeout).k.s, {});
    case Reap => CleanupExact(k);
  }

  lemma ExactStep(k: K, op: Op)
    requires Inv(k) && Enabled(k, op) && Plainly(k, op) && Exacts(k.s, {}) && Flat(k.s)
    ensures Exacts(Apply(k, op).k.s, {}) && Flat(Apply(k, op).k.s)
  {
    hide InvBut, Tame, Exacts, Flat, MutexEnabled, CondEnabled, SemEnabled, EventEnabled, TaskEnabled,
         MutexStep, CondStep, SemStep, EventStep, TaskStep, Continue, Switch, Advance, CanRetry, RetryPlainly, WouldBlock, MostUrgent;
    match op
    case OfMutex(o) => MutexStepExact(k, o);
    case OfCond(o) => CondStepExact(k, o);
    case OfSem(o) => SemStepTame(k, o); TameExact(k.s, SemStep(k, o).k.s, {});
    case OfEvent(o) => EventStepTame(k, o); TameExact(k.s, EventStep(k, o).k.s, {});
    case OfTask(o) => TaskStepExact(k, o);
    case Resumed => ContinueExact(k);
    case Preempt => SwitchInv(k); TameExact(k.s, Switch(k).s, {});
    case Tick(n) => AdvanceInv(k, n); TameExact(k.s, Advance(k, n).s, {});
  }

  ghost predicate PlainRun(k: K, ops: seq<Op>)
    decreases |ops|
  {
    ops == [] || (Enabled(k, ops[0]) && Plainly(k, ops[0]) && PlainRun(Apply(k, ops[0]).k, ops[1..]))
  }

  lemma {:induction false} ExactFrom(k: K, ops: seq<Op>)
    requires Inv(k) && PlainRun(k, ops) && Exacts(k.s, {}) && Flat(k.s)
    ensures Exacts(Final(k, ops).s, {}) && Inv(Final(k, ops))
    decreases |ops|
  {
    hide InvBut, Apply, Enabled, Plainly, Exacts, Flat;
    if ops != [] {
      StepInv(k, ops[0]);
      ExactStep(k, ops[0]);
      ExactFrom(Apply(k, ops[0]).k, ops[1..]);
    }
  }

  lemma BootExact()
    ensures Exacts(Boot().s, {}) && Flat(Boot().s)
  {
    hide Core, States, Awake, Pool, IsPool, Added;
    PoolFacts(PRIOS + 1);
    IdleAlone(Pool(PRIOS + 1), NewTask(PRIOS, false, false));
    OwnsNothing(Boot().s, PRIOS);
  }

  // In every such run each live task has exactly the priority inheritance asks for.
  lemma InheritanceIsExact(ops: seq<Op>, t: Tid)
    requires PlainRun(Boot(), ops) && t in Final(Boot(), ops).s.tasks && !Finished(Final(Boot(), ops).s, t)
    ensures Exact(Final(Boot(), ops).s, t)
  {
    hide InvBut, Boot, PlainRun, Final, Flat;
    BootInv();
    BootExact();
    ExactFrom(Boot(), ops);
  }
}
