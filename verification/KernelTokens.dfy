/**
 Where tokens come from.  No step of the kernel makes a forged or lost token but resuming a
 task whose wait had ended and destroying a mutex just handed over.  The functions here are
 total and the lemmas need no invariant: they follow the code.
 */
module KernelTokens {
  import opened Lists
  import opened KernelState
  import opened KernelCalls
  import opened KernelRun
  import KernelCommute

  // Every token is one that was there before in the same call, none, or one of the mutexes ms.
  ghost predicate Tokens(s: S, d: S, ms: set<nat>) {
    forall t | t in d.tasks ::
      var x := d.tasks[t].token;
      x.NoToken? || (x.Handed? && x.m in ms) || (t in s.tasks && s.tasks[t].token == x && s.tasks[t].call == d.tasks[t].call)
  }

  // The waits that remember when they began.
  predicate Clocked(c: Call) { c.InSem? || c.InEvent? || c.InSync? }

  // No such wait is new.
  ghost predicate Timing(s: S, d: S) {
    forall t | t in d.tasks && Clocked(d.tasks[t].call) :: t in s.tasks && s.tasks[t].call == d.tasks[t].call
  }

  ghost predicate Tidy(s: S, d: S, ms: set<nat>) { Tokens(s, d, ms) && Timing(s, d) }

  ghost predicate TidyStep(k: K, d: K) { k.mtx.Keys <= d.mtx.Keys && Tidy(k.s, d.s, d.mtx.Keys) }

  // The same, but for the current task, which may have begun the wait c.
  ghost predicate Begun(k: K, d: K, c: Call) { TidyStep(k, d) || (k.current in k.s.tasks && TidyStep(Calling(k, c), d)) }

  function Calling(k: K, c: Call): K { k.(s := SetCall(k.s, k.current, c)) }

  ghost predicate TokenStep(k: K, d: K) { k.mtx.Keys <= d.mtx.Keys && Tokens(k.s, d.s, d.mtx.Keys) }

  lemma BegunTokens(k: K, d: K, c: Call)
    requires Begun(k, d, c)
    ensures TokenStep(k, d)
  {
  }

  // Going on with the call that the task is in begins nothing.
  lemma SameCall(k: K, d: K, c: Call)
    requires k.current in k.s.tasks && k.s.tasks[k.current].call == c && Begun(k, d, c)
    ensures TidyStep(k, d)
  {
    if !TidyStep(k, d) {
      var m := Calling(k, c);
      TidyMore(k.s, m.s, {}, d.mtx.Keys);
      TidyTwice(k.s, m.s, d.s, d.mtx.Keys);
    }
  }

  // What happened before the wait began.
  lemma BegunLater(k: K, m: K, d: K, c: Call)
    requires TidyStep(k, m) && m.current == k.current && (m.current in m.s.tasks ==> k.current in k.s.tasks) && Begun(m, d, c)
    ensures Begun(k, d, c)
  {
    if TidyStep(m, d) {
      StepTwice(k, m, d);
    } else {
      assert TidyStep(Calling(k, c), Calling(m, c));
      StepTwice(Calling(k, c), Calling(m, c), d);
    }
  }

  lemma TidySelf(s: S, ms: set<nat>)
    ensures Tidy(s, s, ms)
  {
  }

  lemma TidyTwice(s: S, d: S, e: S, ms: set<nat>)
    requires Tidy(s, d, ms) && Tidy(d, e, ms)
    ensures Tidy(s, e, ms)
  {
  }

  lemma TidyMore(s: S, d: S, ms: set<nat>, ns: set<nat>)
    requires Tidy(s, d, ms) && ms <= ns
    ensures Tidy(s, d, ns)
  {
  }

  lemma StepTwice(k: K, d: K, e: K)
    requires TidyStep(k, d) && TidyStep(d, e)
    ensures TidyStep(k, e)
  {
    TidyMore(k.s, d.s, d.mtx.Keys, e.mtx.Keys);
    TidyTwice(k.s, d.s, e.s, e.mtx.Keys);
  }

  // Only the tasks change, in one of the ways above.
  lemma StepS(k: K, d: K)
    requires d.mtx == k.mtx && Tidy(k.s, d.s, {})
    ensures TidyStep(k, d)
  {
    TidyMore(k.s, d.s, {}, d.mtx.Keys);
  }

  // ---- lists and fields ----

  lemma TidyDelete(s: S, t: Tid)
    ensures Tidy(s, ListDelete(s, t), {})
  {
    hide Remove;
  }

  lemma TidyEnd(s: S, q: Qid, t: Tid)
    ensures Tidy(s, InsertEnd(s, q, t), {})
  {
    hide Insert;
  }

  lemma TidyAddToPrio(s: S, q: Qid, t: Tid)
    ensures Tidy(s, AddToPrioQueue(s, q, t), {})
  {
    hide Insert, PrioPos;
  }

  lemma TidyAddReady(s: S, t: Tid)
    ensures Tidy(s, AddReady(s, t), {})
  {
    hide AddReady;
    KernelCommute.ReadyRecord(s, t);
  }

  lemma TidyDelReady(s: S, t: Tid)
    ensures Tidy(s, DelReady(s, t), {})
  {
    hide Remove;
  }

  lemma TidyPut(s: S, t: Tid, r: Task)
    requires t in s.tasks && (r.token.NoToken? || (r.token == s.tasks[t].token && r.call == s.tasks[t].call))
    requires Clocked(r.call) ==> r.call == s.tasks[t].call
    ensures Tidy(s, Put(s, t, r), {})
  {
  }

  lemma TidyState(s: S, t: Tid, st: State)
    ensures Tidy(s, SetState(s, t, st), {})
  {
    hide Tidy, Put;
    TidyFail(s);
    if t in s.tasks { TidyPut(s, t, s.tasks[t].(state := st)); }
  }

  lemma TidyObj(s: S, t: Tid, o: Obj)
    ensures Tidy(s, SetObj(s, t, o), {})
  {
    hide Tidy, Put;
    TidyFail(s);
    if t in s.tasks { TidyPut(s, t, s.tasks[t].(obj := o)); }
  }

  lemma TidyPrio(s: S, t: Tid, p: nat)
    ensures Tidy(s, SetPrio(s, t, p), {})
  {
    hide Tidy, Put;
    TidyFail(s);
    if t in s.tasks { TidyPut(s, t, s.tasks[t].(prio := p)); }
  }

  lemma TidyAborted(s: S, t: Tid, a: bool)
    ensures Tidy(s, SetAborted(s, t, a), {})
  {
    hide Tidy, Put;
    TidyFail(s);
    if t in s.tasks { TidyPut(s, t, s.tasks[t].(aborted := a)); }
  }

  lemma TidyOwned(s: S, t: Tid, ms: seq<nat>)
    ensures Tidy(s, SetOwned(s, t, ms), {})
  {
    hide Tidy, Put;
    TidyFail(s);
    if t in s.tasks { TidyPut(s, t, s.tasks[t].(owned := ms)); }
  }

  lemma TidyCall(s: S, t: Tid, c: Call)
    requires !Clocked(c)
    ensures Tidy(s, SetCall(s, t, c), {})
  {
    hide Tidy, Put;
    TidyFail(s);
    if t in s.tasks { TidyPut(s, t, s.tasks[t].(call := c, token := NoToken)); }
  }

  lemma TidySleep(s: S, t: Tid, st: State)
    ensures Tidy(s, SetSleep(s, t, st), {})
  {
    hide Tidy, DelReady, SetState;
    TidyDelReady(s, t);
    TidyState(DelReady(s, t), t, st);
    TidyTwice(s, DelReady(s, t), SetSleep(s, t, st), {});
  }

  lemma TidyAwake(s: S, t: Tid, o: Obj)
    ensures Tidy(s, AddReady(SetObj(s, t, o), t), {})
  {
    hide Tidy, SetObj, AddReady;
    TidyObj(s, t, o);
    TidyAddReady(SetObj(s, t, o), t);
    TidyTwice(s, SetObj(s, t, o), AddReady(SetObj(s, t, o), t), {});
  }

  // ---- priorities ----

  lemma TidyRequeue(s: S, q: Qid, t: Tid, p: nat)
    ensures Tidy(s, Requeue(s, q, t, p), {})
  {
    hide Tidy, ListDelete, SetPrio, AddToPrioQueue;
    var l := ListDelete(s, t);
    TidyDelete(s, t);
    TidyPrio(l, t, p);
    TidyAddToPrio(SetPrio(l, t, p), q, t);
    TidyTwice(s, l, SetPrio(l, t, p), {});
    TidyTwice(s, SetPrio(l, t, p), Requeue(s, q, t, p), {});
  }

  lemma TidyRealloc(s: S, t: Tid, p: nat)
    ensures Tidy(s, Realloc(s, t, p), {})
  {
    hide Tidy, DelReady, SetPrio, SetState, AddReady, Requeue;
    TidySelf(s, {});
    if t in s.tasks {
      var r := s.tasks[t];
      var l := DelReady(s, t);
      TidyDelReady(s, t);
      TidyPrio(l, t, p);
      TidyPrio(s, t, p);
      var m := SetPrio(l, t, p);
      TidyState(m, t, Schedule);
      TidyAddReady(SetState(m, t, Schedule), t);
      TidyTwice(s, l, m, {});
      TidyTwice(s, m, SetState(m, t, Schedule), {});
      TidyTwice(s, SetState(m, t, Schedule), AddReady(SetState(m, t, Schedule), t), {});
      if r.obj.Sem? { TidyRequeue(s, SemQ(r.obj.s), t, p); }
      if r.obj.Mtx? { TidyRequeue(s, MtxQ(r.obj.m), t, p); }
      if r.obj.Cond? { TidyRequeue(s, CondQ(r.obj.c), t, p); }
    } else {
      TidyFail(s);
    }
  }

  lemma TidyFail(s: S)
    ensures Tidy(s, Fail(s), {})
  {
  }

  lemma TidyReinherit(s: S, t: Tid)
    ensures Tidy(s, Reinherit(s, t), {})
  {
    hide Tidy, Realloc, CalcInherited;
    TidySelf(s, {});
    TidyFail(s);
    TidyRealloc(s, t, CalcInherited(s, t));
  }

  // ---- waking ----

  lemma WakeTidy(k: K, t: Tid, o: Obj)
    ensures TidyStep(k, WakeUp(k, t, o))
  {
    hide Tidy, SetObj, AddReady, TimeDelete;
    TidyAwake(k.s, t, o);
    StepS(k, WakeUp(k, t, o));
  }

  lemma PulledTidy(k: K, t: Tid, o: Obj)
    ensures TidyStep(k, WakeUp(k.(s := ListDelete(k.s, t)), t, o))
  {
    hide TidyStep, ListDelete, WakeUp, Tidy;
    var l := k.(s := ListDelete(k.s, t));
    TidyDelete(k.s, t);
    StepS(k, l);
    WakeTidy(l, t, o);
    StepTwice(k, l, WakeUp(l, t, o));
  }

  lemma SelfTidy(k: K, d: K)
    requires d.s == k.s && d.mtx == k.mtx
    ensures TidyStep(k, d)
  {
  }

  lemma {:induction false} WakeAllTidy(k: K, ts: seq<Tid>, o: Obj)
    ensures TidyStep(k, WakeAll(k, ts, o))
    decreases |ts|
  {
    hide TidyStep, ListDelete, WakeUp;
    if ts == [] {
      SelfTidy(k, k);
    } else {
      var d := WakeUp(k.(s := ListDelete(k.s, ts[0])), ts[0], o);
      PulledTidy(k, ts[0], o);
      WakeAllTidy(d, ts[1..], o);
      StepTwice(k, d, WakeAll(k, ts, o));
    }
  }

  // ---- mutexes ----

  lemma TidyDetach(s: S, o: Owner, m: nat)
    ensures Tidy(s, Detach(s, o, m), {})
  {
    hide Tidy, SetOwned;
    TidySelf(s, {});
    if o.Held? { TidyOwned(s, o.t, Remove(Owned(s, o.t), m)); }
  }

  // The first waiter is handed m, which exists.
  lemma PassTidy(k: K, m: nat)
    ensures TidyStep(k, Pass(k, m))
  {
    hide Tidy, TidyStep, ListDelete, SetOwned, SetToken, WakeUp, InsertFirst;
    if m !in k.mtx || Queue(k.s, MtxQ(m)) == [] {
      TidyFail(k.s);
      StepS(k, Bug(k));
    } else {
      var n := k.s.queues[MtxQ(m)][0];
      var ms := InsertFirst(Owned(k.s, n), m);
      var l := ListDelete(k.s, n);
      var o := SetOwned(l, n, ms);
      var d := k.(s := SetToken(o, n, Handed(m)), mtx := k.mtx[m := Mutex(1, Held(n))]);
      TidyDelete(k.s, n);
      TidyOwned(l, n, ms);
      TidyTwice(k.s, l, o, {});
      TidyMore(k.s, o, {}, d.mtx.Keys);
      TidyHanded(o, n, m, d.mtx.Keys);
      TidyTwice(k.s, o, d.s, d.mtx.Keys);
      Grown(k, d);
      WakeTidy(d, n, Msg(EOK));
      StepTwice(k, d, Pass(k, m));
    }
  }

  lemma TidyHanded(s: S, t: Tid, m: nat, ms: set<nat>)
    requires m in ms
    ensures Tidy(s, SetToken(s, t, Handed(m)), ms)
  {
  }

  lemma Grown(k: K, d: K)
    requires k.mtx.Keys <= d.mtx.Keys && Tidy(k.s, d.s, d.mtx.Keys)
    ensures TidyStep(k, d)
  {
  }

  lemma DetachTidy(k: K, o: Owner, m: nat)
    ensures TidyStep(k, k.(s := Detach(k.s, o, m)))
    ensures m in k.mtx ==> TidyStep(k, k.(s := Detach(k.s, o, m), mtx := k.mtx[m := Mutex(0, Free)]))
  {
    hide Tidy, Detach;
    TidyDetach(k.s, o, m);
    TidyMore(k.s, Detach(k.s, o, m), {}, k.mtx.Keys);
    if m in k.mtx { TidyMore(k.s, Detach(k.s, o, m), {}, k.mtx[m := Mutex(0, Free)].Keys); }
  }

  lemma TransferTidy(k: K, m: nat)
    ensures TidyStep(k, Transfer(k, m))
  {
    hide TidyStep, Detach, Pass;
    SelfTidy(k, k);
    var d := if m in k.mtx then k.(s := Detach(k.s, k.mtx[m].owner, m)) else k;
    if m in k.mtx { DetachTidy(k, k.mtx[m].owner, m); }
    PassTidy(d, m);
    StepTwice(k, d, Transfer(k, m));
  }

  lemma TakeTidy(k: K, m: nat)
    ensures TidyStep(k, TakeMutex(k, m))
  {
    hide Tidy, SetOwned, InsertFirst;
    TidyFail(k.s);
    StepS(k, Bug(k));
    TidyOwned(k.s, k.current, InsertFirst(Owned(k.s, k.current), m));
    if m in k.mtx { TidyMore(k.s, SetOwned(k.s, k.current, InsertFirst(Owned(k.s, k.current), m)), {}, TakeMutex(k, m).mtx.Keys); }
  }

  lemma BugTidy(k: K)
    ensures TidyStep(k, Bug(k))
  {
    TidyFail(k.s);
    StepS(k, Bug(k));
  }

  lemma BlockMutexTidy(k: K, m: nat)
    ensures TidyStep(k, BlockOnMutex(k, m))
  {
    hide Tidy, SetCall, SetAborted, SetSleep, AddToPrioQueue, SetObj;
    var c := k.current;
    var a := SetCall(k.s, c, InLock(m));
    var b := SetAborted(a, c, false);
    var d := SetSleep(b, c, WtMtx);
    var e := AddToPrioQueue(d, MtxQ(m), c);
    TidyCall(k.s, c, InLock(m));
    TidyAborted(a, c, false);
    TidySleep(b, c, WtMtx);
    TidyAddToPrio(d, MtxQ(m), c);
    TidyObj(e, c, Mtx(m));
    TidyTwice(k.s, a, b, {});
    TidyTwice(k.s, b, d, {});
    TidyTwice(k.s, d, e, {});
    TidyTwice(k.s, e, SetObj(e, c, Mtx(m)), {});
    StepS(k, BlockOnMutex(k, m));
  }

  lemma CountTidy(k: K, m: nat, v: Mutex)
    requires m in k.mtx
    ensures TidyStep(k, k.(mtx := k.mtx[m := v]))
  {
  }

  lemma LockTidy(k: K, m: nat)
    ensures TidyStep(k, MutexLock(k, m).k)
  {
    hide TidyStep, Tidy, TakeMutex, BlockOnMutex, Realloc;
    SelfTidy(k, k);
    BugTidy(k);
    TakeTidy(k, m);
    if m in k.mtx && k.mtx[m].owner.Held? && k.mtx[m].count >= 1 && k.current in k.s.tasks {
      if k.mtx[m].owner.t == k.current {
        CountTidy(k, m, Mutex(k.mtx[m].count + 1, Held(k.current)));
      } else {
        var o, p := k.mtx[m].owner.t, k.s.tasks[k.current].prio;
        var d := k.(s := Inherit(k.s, o, p));
        TidySelf(k.s, {});
        TidyRealloc(k.s, o, p);
        StepS(k, d);
        BlockMutexTidy(d, m);
        StepTwice(k, d, BlockOnMutex(d, m));
      }
    }
  }

  lemma TrylockTidy(k: K, m: nat)
    ensures TidyStep(k, MutexTrylock(k, m).k)
  {
    hide TidyStep, TakeMutex;
    SelfTidy(k, k);
    BugTidy(k);
    TakeTidy(k, m);
    if m in k.mtx && k.mtx[m].owner == Held(k.current) { CountTidy(k, m, Mutex(k.mtx[m].count + 1, Held(k.current))); }
  }

  lemma ReleaseTidy(k: K, m: nat)
    requires m in k.mtx
    ensures TidyStep(k, Release(k, m))
  {
    hide TidyStep, Tidy, Detach, Realloc, CalcInherited, Transfer;
    DetachTidy(k, Held(k.current), m);
    var d := Detach(k.s, Held(k.current), m);
    var k1 := k.(s := d);
    var k2 := k.(s := Realloc(d, k.current, CalcInherited(d, k.current)));
    TidyRealloc(d, k.current, CalcInherited(d, k.current));
    StepS(k1, k2);
    StepTwice(k, k1, k2);
    TransferTidy(k2, m);
    StepTwice(k, k2, Transfer(k2, m));
  }

  lemma UnlockTidy(k: K, m: nat)
    ensures TidyStep(k, MutexUnlock(k, m).k)
  {
    hide TidyStep, Release;
    SelfTidy(k, k);
    BugTidy(k);
    if m in k.mtx {
      ReleaseTidy(k, m);
      CountTidy(k, m, Mutex(k.mtx[m].count - 1, Held(k.current)));
    }
  }

  lemma {:induction false} ReleaseEachTidy(k: K, ms: seq<nat>)
    ensures TidyStep(k, ReleaseEach(k, ms))
    decreases |ms|
  {
    hide TidyStep, Transfer, Detach;
    SelfTidy(k, k);
    BugTidy(k);
    if ms != [] && ms[0] in k.mtx {
      var m := ms[0];
      TransferTidy(k, m);
      DetachTidy(k, k.mtx[m].owner, m);
      var d := if Queue(k.s, MtxQ(m)) != [] then Transfer(k, m)
               else k.(s := Detach(k.s, k.mtx[m].owner, m), mtx := k.mtx[m := Mutex(0, Free)]);
      ReleaseEachTidy(d, ms[1..]);
      StepTwice(k, d, ReleaseEach(k, ms));
    }
  }

  lemma UnlockAllTidy(k: K, u: Tid)
    ensures TidyStep(k, UnlockAllIn(k, u))
  {
    hide TidyStep, Tidy, ReleaseEach, Reinherit;
    var d := ReleaseEach(k, Owned(k.s, u));
    ReleaseEachTidy(k, Owned(k.s, u));
    TidyReinherit(d.s, u);
    StepS(d, d.(s := Reinherit(d.s, u)));
    StepTwice(k, d, d.(s := Reinherit(d.s, u)));
  }

  lemma {:induction false} DestroyWaitersTidy(k: K, ts: seq<Tid>)
    ensures Tidy(k.s, DestroyWaiters(k, ts).s, {})
    decreases |ts|
  {
    hide Tidy, ListDelete, SetPrio, CalcInherited, SetObj, AddReady, TimeDelete;
    if ts == [] {
      TidySelf(k.s, {});
    } else {
      var t := ts[0];
      var l := ListDelete(k.s, t);
      var p := SetPrio(l, t, CalcInherited(l, t));
      var d := WakeUp(k.(s := p), t, Msg(EDESTROY));
      TidyDelete(k.s, t);
      TidyPrio(l, t, CalcInherited(l, t));
      TidyAwake(p, t, Msg(EDESTROY));
      TidyTwice(k.s, l, p, {});
      TidyTwice(k.s, p, d.s, {});
      DestroyWaitersTidy(d, ts[1..]);
      TidyTwice(k.s, d.s, DestroyWaiters(k, ts).s, {});
    }
  }

  // ---- condition variables, semaphores and events ----

  lemma BlockCondTidy(k: K, c: nat, m: nat, timeout: nat)
    ensures TidyStep(k, BlockOnCond(k, c, m, timeout))
  {
    hide Tidy, SetCall, SetSleep, AddToPrioQueue, SetObj, SetTimeout;
    var t := k.current;
    var a := SetCall(k.s, t, InCond(m));
    var d := SetSleep(a, t, WtCond);
    var e := AddToPrioQueue(d, CondQ(c), t);
    TidyCall(k.s, t, InCond(m));
    TidySleep(a, t, WtCond);
    TidyAddToPrio(d, CondQ(c), t);
    TidyObj(e, t, Cond(c));
    TidyTwice(k.s, a, d, {});
    TidyTwice(k.s, d, e, {});
    TidyTwice(k.s, e, SetObj(e, t, Cond(c)), {});
    StepS(k, BlockOnCond(k, c, m, timeout));
  }

  lemma DropTidy(k: K, d: K, q: Qid)
    requires TidyStep(k, d)
    ensures TidyStep(k, d.(s := DropQueue(d.s, q)))
  {
  }

  lemma CondTidy(k: K, op: CondOp)
    ensures TidyStep(k, CondStep(k, op).k)
  {
    hide TidyStep, WakeAll, WakeUp, ListDelete, MutexUnlock, BlockOnCond, DropQueue;
    SelfTidy(k, k);
    BugTidy(k);
    match op {
      case NewCond(c) => NewTidy(k, CondQ(c));
      case Wait(c, timeout) =>
        if Owned(k.s, k.current) != [] {
          var m := Owned(k.s, k.current)[0];
          var u := MutexUnlock(k, m).k;
          UnlockTidy(k, m);
          BlockCondTidy(u, c, m, timeout);
          StepTwice(k, u, BlockOnCond(u, c, m, timeout));
        }
      case Signal(c) => if Queue(k.s, CondQ(c)) != [] { PulledTidy(k, Queue(k.s, CondQ(c))[0], Msg(EOK)); }
      case Broadcast(c) => WakeAllTidy(k, Queue(k.s, CondQ(c)), Msg(EOK));
      case DestroyCond(c) =>
        WakeAllTidy(k, Queue(k.s, CondQ(c)), Msg(EDESTROY));
        DropTidy(k, WakeAll(k, Queue(k.s, CondQ(c)), Msg(EDESTROY)), CondQ(c));
    }
  }

  lemma NewTidy(k: K, q: Qid)
    ensures TidyStep(k, NewQueue(k, q))
  {
  }

  lemma BlockSemTidy(k: K, i: nat, call: Call, timeout: nat)
    ensures TidyStep(Calling(k, call), BlockOnSem(k, i, call, timeout))
  {
    hide Tidy, SetCall, SetSleep, AddToPrioQueue, SetObj, SetAborted, SetTimeout;
    var t := k.current;
    var a := SetCall(k.s, t, call);
    var b := SetObj(a, t, Sem(i));
    var c := SetAborted(b, t, false);
    var d := SetSleep(c, t, WtSem);
    TidyObj(a, t, Sem(i));
    TidyAborted(b, t, false);
    TidySleep(c, t, WtSem);
    TidyAddToPrio(d, SemQ(i), t);
    TidyTwice(a, b, c, {});
    TidyTwice(a, c, d, {});
    TidyTwice(a, d, AddToPrioQueue(d, SemQ(i), t), {});
    StepS(Calling(k, call), BlockOnSem(k, i, call, timeout));
  }

  lemma DoneTidy(k: K, d: K, c: Call)
    requires d.s == SetCall(k.s, k.current, c) && d.mtx == k.mtx && !Clocked(c)
    ensures TidyStep(k, d)
  {
    hide Tidy, SetCall;
    TidyCall(k.s, k.current, c);
    StepS(k, d);
  }

  lemma SemTakeTidy(k: K, i: nat, start: nat, timeout: nat)
    requires k.current in k.s.tasks
    ensures Begun(k, SemTake(k, i, start, timeout).k, InSem(i, start, timeout))
  {
    hide TidyStep, SetCall, BlockOnSem, Elapsed;
    BugTidy(k);
    if i in k.sems {
      var v := k.sems[i].(value := k.sems[i].value - 1);
      DoneTidy(k, k.(s := SetCall(k.s, k.current, NoCall), sems := k.sems[i := Grant(v)]), NoCall);
      DoneTidy(k, k.(s := SetCall(k.s, k.current, NoCall), sems := k.sems[i := SemInc(v)]), NoCall);
      var d := k.(sems := k.sems[i := v]);
      var rest := if timeout == INFINITE || Elapsed(k.clock, start) >= timeout then INFINITE else timeout - Elapsed(k.clock, start);
      var c := InSem(i, start, timeout);
      BlockSemTidy(d, i, c, rest);
      SameStart(Calling(d, c), Calling(k, c), BlockOnSem(d, i, c, rest));
    }
  }

  lemma SameStart(k: K, m: K, d: K)
    requires TidyStep(k, d) && m.s == k.s && m.mtx == k.mtx
    ensures TidyStep(m, d)
  {
  }

  // The waiter that a signal wakes, if it wakes one.
  predicate Wakes(k: K, i: nat) {
    i in k.sems && SemInc(k.sems[i]).value <= 0 && Queue(k.s, SemQ(i)) != []
    && var t := k.s.queues[SemQ(i)][0]; t in k.s.tasks && k.s.tasks[t].state.WtSem?
  }

  // A signal makes a token for the waiter it wakes, and no other.
  lemma SignalTidy(k: K, i: nat)
    ensures Tidy(if Wakes(k, i) then SetToken(k.s, k.s.queues[SemQ(i)][0], Granted) else k.s, SemSignal(k, i).k.s, {})
    ensures SemSignal(k, i).k.mtx == k.mtx
  {
    hide Tidy, ListDelete, SetObj, AddReady, TimeDelete;
    TidySelf(k.s, {});
    if i in k.sems && Queue(k.s, SemQ(i)) != [] {
      var t := k.s.queues[SemQ(i)][0];
      TidyDelete(k.s, t);
      DeleteKeeps(k.s, t);
      if Wakes(k, i) {
        var l := ListDelete(k.s, t);
        var g := Put(l, t, l.tasks[t].(token := Granted));
        var m := SetToken(k.s, t, Granted);
        GrantedTidy(k.s, t);
        TidyAwake(g, t, Msg(EOK));
        TidyTwice(m, g, AddReady(SetObj(g, t, Msg(EOK)), t), {});
      }
    }
  }

  lemma DeleteKeeps(s: S, t: Tid)
    ensures var l := ListDelete(s, t); l.tasks.Keys == s.tasks.Keys && (t in s.tasks ==> l.tasks[t].state == s.tasks[t].state)
  {
  }

  lemma GrantedTidy(s: S, t: Tid)
    requires t in s.tasks
    ensures var l := ListDelete(s, t); t in l.tasks && Tidy(SetToken(s, t, Granted), Put(l, t, l.tasks[t].(token := Granted)), {})
  {
    hide Remove;
  }

  lemma SemTidy(k: K, op: SemOp)
    requires !op.Give? && k.current in k.s.tasks
    ensures Begun(k, SemStep(k, op).k, NewCall(k, OfSem(op))) && (!op.Take? ==> TidyStep(k, SemStep(k, op).k))
  {
    hide TidyStep, SemTake, SemSignal, WakeAll, DropQueue, NewQueue;
    SelfTidy(k, k);
    match op {
      case NewSem(i, value, limit) =>
        NewTidy(k, SemQ(i));
        SameStep(k, NewQueue(k, SemQ(i)), SemStep(k, op).k);
      case Take(i, timeout) => TrywaitTidy(k, i, ETIMEOUT); SemTakeTidy(k, i, k.clock.jiffies, timeout);
      case TryTake(i) => TrywaitTidy(k, i, EBUSY);
      case ResetSem(i, val) =>
        if i in k.sems {
          var l := k.sems[i].limit;
          var d := k.(sems := k.sems[i := Semaphore(ResetValue(l, val), l, ResetValue(l, val), 0, 0)]);
          SelfTidy(k, d);
          WakeAllTidy(d, Queue(k.s, SemQ(i)), Msg(ERESET));
          StepTwice(k, d, WakeAll(d, Queue(k.s, SemQ(i)), Msg(ERESET)));
        }
      case DestroySem(i) =>
        var d := WakeAll(k, Queue(k.s, SemQ(i)), Msg(EDESTROY));
        WakeAllTidy(k, Queue(k.s, SemQ(i)), Msg(EDESTROY));
        DropTidy(k, d, SemQ(i));
        if i in k.sems { SameStep(k, d.(s := DropQueue(d.s, SemQ(i))), SemStep(k, op).k); }
    }
  }

  lemma SameStep(k: K, d: K, e: K)
    requires TidyStep(k, d) && e.s == d.s && e.mtx == d.mtx
    ensures TidyStep(k, e)
  {
  }

  lemma TrywaitTidy(k: K, i: nat, fail: int)
    ensures TidyStep(k, SemTrywait(k, i, fail).k)
  {
  }

  lemma BlockEventTidy(k: K, e: nat, call: Call, w: bv32, timeout: nat)
    ensures TidyStep(Calling(k, call), BlockOnEvent(k, e, call, w, timeout))
  {
    hide Tidy, SetCall, SetSleep, InsertEnd, SetObj, SetAborted, SetTimeout;
    var t := k.current;
    var a := SetCall(k.s, t, call);
    var c := SetAborted(a, t, false);
    var d := SetSleep(c, t, WtEvt);
    var f := InsertEnd(d, EvtQ(e), t);
    TidyAborted(a, t, false);
    TidySleep(c, t, WtEvt);
    TidyEnd(d, EvtQ(e), t);
    TidyObj(f, t, Bits(w));
    TidyTwice(a, c, d, {});
    TidyTwice(a, d, f, {});
    TidyTwice(a, f, SetObj(f, t, Bits(w)), {});
    StepS(Calling(k, call), BlockOnEvent(k, e, call, w, timeout));
  }

  lemma EventTakeTidy(k: K, e: nat, bits: bv32, clear: bool, all: bool, start: nat, timeout: nat)
    requires k.current in k.s.tasks
    ensures Begun(k, EventTake(k, e, bits, clear, all, start, timeout).k, InEvent(e, bits, clear, all, start, timeout))
  {
    hide TidyStep, SetCall, BlockOnEvent, Elapsed, CheckCond, EvWord, Without;
    BugTidy(k);
    if e in k.evts {
      var done := k.(s := SetCall(k.s, k.current, NoCall));
      DoneTidy(k, done, NoCall);
      DoneTidy(k, done.(evts := k.evts[e := Without(k.evts[e], bits)]), NoCall);
      var rest := if timeout == INFINITE || Elapsed(k.clock, start) >= timeout then INFINITE else timeout - Elapsed(k.clock, start);
      BlockEventTidy(k, e, InEvent(e, bits, clear, all, start, timeout), EvWord(bits, clear, all), rest);
    }
  }

  lemma EventWaitTidy(k: K, e: nat, bits: bv32, clear: bool, all: bool, timeout: nat)
    requires k.current in k.s.tasks
    ensures Begun(k, EventWait(k, e, bits, clear, all, timeout).k, InEvent(e, bits, clear, all, k.clock.jiffies, timeout))
  {
    hide TidyStep, EventTake, Plain;
    SelfTidy(k, k);
    EventTakeTidy(k, e, bits, clear, all, k.clock.jiffies, timeout);
  }

  lemma {:induction false} SetLoopTidy(k: K, ts: seq<Tid>, bits: bv32)
    ensures TidyStep(k, SetLoop(k, ts, bits))
    decreases |ts|
  {
    hide TidyStep, ListDelete, WakeUp, Satisfied;
    if ts == [] {
      SelfTidy(k, k);
    } else if Satisfied(k.s, ts[0], bits) {
      var d := WakeUp(k.(s := ListDelete(k.s, ts[0])), ts[0], Bits(bits));
      PulledTidy(k, ts[0], Bits(bits));
      SetLoopTidy(d, ts[1..], bits);
      StepTwice(k, d, SetLoop(d, ts[1..], bits));
    } else {
      SetLoopTidy(k, ts[1..], bits);
    }
  }

  lemma SetBitsTidy(k: K, e: nat, bits: bv32)
    requires e in k.evts
    ensures TidyStep(k, SetBits(k, e, bits)) && e in SetBits(k, e, bits).evts
  {
    hide TidyStep, SetLoop, ClearMask, With, Without;
    var b := With(k.evts[e], bits);
    SetLoopTidy(k, Queue(k.s, EvtQ(e)), b);
    SameStep(k, SetLoop(k, Queue(k.s, EvtQ(e)), b), SetBits(k, e, bits));
  }

  lemma {:induction false} SetLoopFrame(k: K, ts: seq<Tid>, bits: bv32)
    ensures var d := SetLoop(k, ts, bits); d.current == k.current && (k.current in k.s.tasks <==> k.current in d.s.tasks)
    decreases |ts|
  {
    hide Satisfied;
    if ts != [] {
      var l := ListDelete(k.s, ts[0]);
      WakeFrame(k, ts[0], Bits(bits));
      hide ListDelete, WakeUp;
      SetLoopFrame(WakeUp(k.(s := l), ts[0], Bits(bits)), ts[1..], bits);
      SetLoopFrame(k, ts[1..], bits);
    }
  }

  lemma WakeFrame(k: K, t: Tid, o: Obj)
    ensures var d := WakeUp(k.(s := ListDelete(k.s, t)), t, o); d.current == k.current && d.s.tasks.Keys == k.s.tasks.Keys
  {
    hide AddReady, Remove;
    ReadyFrame(SetObj(ListDelete(k.s, t), t, o), t);
  }

  lemma ReadyFrame(s: S, t: Tid)
    ensures AddReady(s, t).tasks.Keys == s.tasks.Keys
  {
    hide AddReady;
    KernelCommute.ReadyRecord(s, t);
  }

  lemma SetBitsFrame(k: K, e: nat, bits: bv32)
    requires e in k.evts
    ensures var d := SetBits(k, e, bits); d.current == k.current && (k.current in k.s.tasks <==> k.current in d.s.tasks)
  {
    hide SetLoop, ClearMask, With, Without;
    SetLoopFrame(k, Queue(k.s, EvtQ(e)), With(k.evts[e], bits));
  }

  lemma SyncTidy(k: K, e: nat, toSet: bv32, toWait: bv32, timeout: nat)
    requires k.current in k.s.tasks
    ensures Begun(k, EventSync(k, e, toSet, toWait, timeout).k, InSync(e, toWait, k.clock.jiffies, timeout))
  {
    hide TidyStep, SetBits, BlockOnEvent, Plain, HasAll, With, Without, EvWord;
    SelfTidy(k, k);
    if e in k.evts {
      var d := SetBits(k, e, toSet);
      SetBitsTidy(k, e, toSet);
      var call := InSync(e, toWait, k.clock.jiffies, timeout);
      BlockEventTidy(d, e, call, EvWord(toWait, true, true), timeout);
      SetBitsFrame(k, e, toSet);
      BegunLater(k, d, BlockOnEvent(d, e, call, EvWord(toWait, true, true), timeout), call);
      if e in d.evts { SameStep(k, d, d.(evts := d.evts[e := Without(d.evts[e], toWait)])); }
    }
  }

  lemma EventTidy(k: K, op: EventOp)
    requires k.current in k.s.tasks
    ensures Begun(k, EventStep(k, op).k, NewCall(k, OfEvent(op)))
  {
    hide TidyStep, EventWait, SetBits, EventSync, WakeAll, DropQueue, NewQueue, Plain, Without;
    SelfTidy(k, k);
    match op {
      case NewEvent(e) =>
        NewTidy(k, EvtQ(e));
        SameStep(k, NewQueue(k, EvtQ(e)), EventStep(k, op).k);
      case WaitBits(e, bits, clear, all, timeout) => EventWaitTidy(k, e, bits, clear, all, timeout);
      case ClearBits(e, bits) => SameStep(k, k, EventStep(k, op).k);
      case PutBits(e, bits) => if e in k.evts { SetBitsTidy(k, e, bits); }
      case Sync(e, bits, wanted, timeout) => SyncTidy(k, e, bits, wanted, timeout);
      case DestroyEvent(e) =>
        var d := WakeAll(k, Queue(k.s, EvtQ(e)), Msg(EDESTROY));
        WakeAllTidy(k, Queue(k.s, EvtQ(e)), Msg(EDESTROY));
        DropTidy(k, d, EvtQ(e));
        if e in k.evts { SameStep(k, d.(s := DropQueue(d.s, EvtQ(e))), EventStep(k, op).k); }
    }
  }

  // ---- tasks ----

  lemma CreateTidy(k: K, t: Tid, prio: nat, suspended: bool, ref: bool)
    ensures TidyStep(k, TaskCreate(k, t, prio, suspended, ref))
  {
    hide WakeUp;
    if prio <= PRIOS {
      var d := k.(s := Put(k.s, t, NewTask(prio, suspended, ref)).(queues := k.s.queues[ExitQ(t) := []]));
      assert TidyStep(k, d);
      WakeTidy(d, t, Msg(EOK));
      StepTwice(k, d, WakeUp(d, t, Msg(EOK)));
    }
  }

  lemma ChangeTidy(k: K, t: Tid, p: nat)
    ensures TidyStep(k, ChangePrio(k, t, p).k)
  {
    hide TidyStep, Tidy, Realloc, Put;
    SelfTidy(k, k);
    BugTidy(k);
    if t in k.s.tasks {
      var d := Put(k.s, t, k.s.tasks[t].(base := p));
      TidyPut(k.s, t, k.s.tasks[t].(base := p));
      TidyRealloc(d, t, p);
      TidyTwice(k.s, d, Realloc(d, t, p), {});
      StepS(k, k.(s := d));
      StepS(k, k.(s := Realloc(d, t, p)));
    }
  }

  lemma TidyLeave(s: S, mtx: map<nat, Mutex>, t: Tid, suspend: bool)
    ensures Tidy(s, LeaveQueue(s, mtx, t, suspend), {})
  {
    hide Tidy, DelReady, ListDelete, SetAborted, WaiterRemoved;
    TidySelf(s, {});
    TidyFail(s);
    if t in s.tasks {
      TidyDelReady(s, t);
      var l := ListDelete(s, t);
      TidyDelete(s, t);
      TidyAborted(l, t, suspend);
      TidyTwice(s, l, SetAborted(l, t, suspend), {});
      var o := s.tasks[t].obj;
      var w := if o.Mtx? then WaiterRemoved(l, mtx, o.m) else Fail(s);
      if o.Mtx? { TidyRemoved(l, mtx, o.m); TidyTwice(s, l, w, {}); }
      TidyAborted(w, t, suspend);
      TidyTwice(s, w, SetAborted(w, t, suspend), {});
    }
  }

  lemma TidyRemoved(s: S, mtx: map<nat, Mutex>, m: nat)
    ensures Tidy(s, WaiterRemoved(s, mtx, m), {})
  {
    hide Tidy, Reinherit;
    TidySelf(s, {});
    TidyFail(s);
    if m in mtx && mtx[m].owner.Held? { TidyReinherit(s, mtx[m].owner.t); }
  }

  lemma KillOrSuspendTidy(k: K, t: Tid, suspend: bool)
    ensures TidyStep(k, KillOrSuspend(k, t, suspend))
  {
    hide Tidy, LeaveQueue, SetState, InsertEnd, TimeDelete, ReturnToken;
    var l := LeaveQueue(k.s, k.mtx, t, suspend);
    TidyLeave(k.s, k.mtx, t, suspend);
    TidyState(l, t, Suspend);
    TidyState(l, t, Zombie);
    TidyEnd(SetState(l, t, Zombie), Zombies, t);
    TidyTwice(k.s, l, SetState(l, t, Suspend), {});
    TidyTwice(k.s, l, SetState(l, t, Zombie), {});
    TidyTwice(k.s, SetState(l, t, Zombie), InsertEnd(SetState(l, t, Zombie), Zombies, t), {});
    StepS(k, KillOrSuspend(k, t, suspend));
  }

  lemma KillTidy(k: K, t: Tid)
    ensures TidyStep(k, Kill(k, t))
  {
    hide TidyStep, Tidy, SetCall, UnlockAllIn, WakeAll, KillOrSuspend;
    SelfTidy(k, k);
    BugTidy(k);
    if t in k.s.tasks {
      var a := k.(s := Abandon(k.s, t));
      TidySelf(k.s, {});
      TidyCall(k.s, t, NoCall);
      StepS(k, a);
      UnlockAllTidy(a, t);
      var u := UnlockAllIn(a, t);
      StepTwice(k, a, u);
      var o := Msg(if t == k.current then EOK else EDESTROY);
      var w := WakeAll(u, Queue(u.s, ExitQ(t)), o);
      WakeAllTidy(u, Queue(u.s, ExitQ(t)), o);
      StepTwice(k, u, w);
      KillOrSuspendTidy(w, t, false);
      StepTwice(k, w, KillOrSuspend(w, t, false));
    }
  }

  lemma SuspendTidy(k: K, t: Tid)
    ensures TidyStep(k, SuspendTask(k, t))
  {
    hide TidyStep, KillOrSuspend;
    SelfTidy(k, k);
    BugTidy(k);
    KillOrSuspendTidy(k, t, true);
  }

  // A resume that finds nothing to overwrite.
  lemma ResumeTidy(k: K, t: Tid)
    requires t in k.s.tasks && t != k.current && k.s.tasks[t].state.Suspend? ==> !Overwritten(k.s.tasks[t])
    ensures TidyStep(k, Resume(k, t).k)
  {
    hide TidyStep, WakeUp;
    SelfTidy(k, k);
    if t in k.s.tasks && t != k.current && k.s.tasks[t].state.Suspend? {
      assert k.(s := Forge(k.s, t)) == k;
      WakeTidy(k, t, Msg(EOK));
    }
  }

  lemma WaitForTidy(k: K, t: Tid)
    ensures TidyStep(k, WaitFor(k, t).k)
  {
    hide Tidy, TidyStep, SetCall, SetAborted, SetSleep, InsertEnd;
    SelfTidy(k, k);
    var c := k.current;
    DoneTidy(k, k.(s := SetCall(k.s, c, NoCall)), NoCall);
    var a := SetCall(k.s, c, InExit(t));
    var b := SetAborted(a, c, false);
    var d := SetSleep(b, c, WtExit);
    TidyCall(k.s, c, InExit(t));
    TidyAborted(a, c, false);
    TidySleep(b, c, WtExit);
    TidyEnd(d, ExitQ(t), c);
    TidyTwice(k.s, a, b, {});
    TidyTwice(k.s, b, d, {});
    TidyTwice(k.s, d, InsertEnd(d, ExitQ(t), c), {});
    StepS(k, k.(s := InsertEnd(d, ExitQ(t), c)));
  }

  lemma SleepTidy(k: K, timeout: nat)
    ensures TidyStep(k, Sleep(k, timeout).k)
  {
    hide Tidy, SetCall, SetSleep, SetTimeout;
    var a := SetCall(k.s, k.current, InWait);
    TidyCall(k.s, k.current, InWait);
    TidySleep(a, k.current, Sleeping);
    TidyTwice(k.s, a, SetSleep(a, k.current, Sleeping), {});
    StepS(k, Sleep(k, timeout).k);
  }

  lemma CleanupTidy(k: K)
    ensures TidyStep(k, Cleanup(k))
  {
    hide TidyStep, Tidy, ListDelete, SetState;
    SelfTidy(k, k);
    if k.deleted > 0 && Queue(k.s, Zombies) != [] {
      var t := k.s.queues[Zombies][0];
      var l := ListDelete(k.s, t);
      var d := SetState(l, t, Exited);
      TidyDelete(k.s, t);
      TidyState(l, t, Exited);
      TidyTwice(k.s, l, d, {});
      TidyGone(k.s, d, t);
      StepS(k, Cleanup(k));
    }
  }

  lemma TidyGone(s: S, d: S, t: Tid)
    requires Tidy(s, d, {})
    ensures Tidy(s, DropQueue(d.(tasks := d.tasks - {t}), ExitQ(t)), {})
  {
  }

  // ---- the rest of a blocked call, the switch and the tick ----

  lemma CallKeys(s: S, t: Tid, c: Call)
    ensures SetCall(s, t, c).tasks.Keys == s.tasks.Keys
  {
  }

  lemma ContinueTidy(k: K)
    ensures k.current in k.s.tasks ==> Begun(k, Continue(k).k, NewCall(k, Resumed))
    ensures k.current !in k.s.tasks ==> TidyStep(k, Continue(k).k)
  {
    hide TidyStep, MutexLock, SemTake, WaitFor, EventTake, EventWait, SetCall, Elapsed;
    SelfTidy(k, k);
    BugTidy(k);
    if k.current in k.s.tasks {
      var r := k.s.tasks[k.current];
      var done := k.(s := SetCall(k.s, k.current, NoCall));
      DoneTidy(k, done, NoCall);
      match r.call {
        case NoCall =>
        case InWait =>
        case InLock(m) => LockTidy(done, m); StepTwice(k, done, MutexLock(done, m).k);
        case InCond(m) => LockTidy(done, m); StepTwice(k, done, MutexLock(done, m).k);
        case InExit(t) => WaitForTidy(done, t); StepTwice(k, done, WaitFor(done, t).k);
        case InSem(i, start, timeout) =>
          SemTakeTidy(k, i, start, timeout);
          SameCall(k, SemTake(k, i, start, timeout).k, r.call);
        case InEvent(e, bits, clear, all, start, timeout) =>
          EventTakeTidy(k, e, bits, clear, all, start, timeout);
          SameCall(k, EventTake(k, e, bits, clear, all, start, timeout).k, r.call);
        case InSync(e, bits, start, timeout) =>
          var el := Elapsed(k.clock, start);
          var rest := if timeout == INFINITE || el >= timeout then INFINITE else timeout - el;
          CallKeys(k.s, k.current, NoCall);
          EventWaitTidy(done, e, bits, true, true, rest);
          BegunLater(k, done, EventWait(done, e, bits, true, true, rest).k, InEvent(e, bits, true, true, k.clock.jiffies, rest));
      }
    }
  }

  lemma SwitchTidy(k: K)
    ensures TidyStep(k, Switch(k))
  {
    hide TidyStep, Tidy, Rotate, SetState;
    BugTidy(k);
    var d := Rotate(k.s, k.current);
    TidyRotate(k.s, k.current);
    var t := Switch(k).current;
    TidyState(d, t, Running);
    TidyTwice(k.s, d, SetState(d, t, Running), {});
    StepS(k, k.(s := SetState(d, t, Running), current := t));
  }

  lemma TidyRotate(s: S, t: Tid)
    ensures Tidy(s, Rotate(s, t), {})
  {
    hide Tidy, ListDelete, InsertEnd, SetState;
    TidySelf(s, {});
    if t in s.tasks {
      var l := ListDelete(s, t);
      var q := Node(s.tasks[t].elem);
      TidyDelete(s, t);
      TidyEnd(l, q, t);
      TidyState(InsertEnd(l, q, t), t, Ready);
      TidyTwice(s, l, InsertEnd(l, q, t), {});
      TidyTwice(s, InsertEnd(l, q, t), SetState(InsertEnd(l, q, t), t, Ready), {});
    }
  }

  lemma TimedOutTidy(k: K, t: Tid)
    ensures TidyStep(k, WakeTimedOut(k, t))
  {
    hide Tidy, ListDelete, SetObj, AddReady, ReturnToken;
    var l := ListDelete(k.s, t);
    TidySelf(k.s, {});
    TidyDelete(k.s, t);
    TidyObj(l, t, Msg(ETIMEOUT));
    TidyTwice(k.s, l, SetObj(l, t, Msg(ETIMEOUT)), {});
    var d := TimedOut(k.s, t);
    TidyAddReady(d, t);
    TidyTwice(k.s, d, AddReady(d, t), {});
    StepS(k, WakeTimedOut(k, t));
  }

  lemma {:induction false} ExpireTidy(k: K, now: nat)
    ensures TidyStep(k, Expire(k, now))
    decreases |k.clock.cur|
  {
    hide TidyStep, WakeTimedOut;
    SelfTidy(k, k);
    var cur := k.clock.cur;
    if cur != [] && !(cur[0] in k.clock.due && now < k.clock.due[cur[0]]) {
      var w := WakeTimedOut(k, cur[0]);
      var d := SetCur(w, cur[1..]);
      TimedOutTidy(k, cur[0]);
      SameStep(k, w, d);
      ExpireTidy(d, now);
      StepTwice(k, d, Expire(d, now));
    }
  }

  lemma {:induction false} AdvanceTidy(k: K, n: nat)
    ensures TidyStep(k, Advance(k, n))
    decreases n
  {
    hide TidyStep, Expire;
    SelfTidy(k, k);
    if n > 0 && k.clock.jiffies < TICKS {
      var j := k.clock.jiffies;
      SelfTidy(k, SetJiffies(k, j + n));
      ExpireTidy(SetJiffies(k, j + n), j + n);
      StepTwice(k, SetJiffies(k, j + n), Expire(SetJiffies(k, j + n), j + n));
      if n >= TICKS - j {
        var a := SetJiffies(k, TICKS - 1);
        var d := if TICKS - j > 1 then Expire(a, TICKS - 1) else k;
        SelfTidy(k, a);
        ExpireTidy(a, TICKS - 1);
        StepTwice(k, a, Expire(a, TICKS - 1));
        SelfTidy(d, Wrap(d));
        StepTwice(k, d, Wrap(d));
        var e := Expire(Wrap(d), 0);
        ExpireTidy(Wrap(d), 0);
        StepTwice(k, Wrap(d), e);
        AdvanceTidy(e, n - (TICKS - j));
        StepTwice(k, e, Advance(k, n));
      }
    }
  }

  // ---- every step ----

  // Neither an overwriting resume, nor a destruction, nor a signal.
  predicate Harmless(k: K, op: Op) {
    match op
    case OfTask(o) => o.Unpause? && o.t in k.s.tasks && o.t != k.current && k.s.tasks[o.t].state.Suspend? ==> !Overwritten(k.s.tasks[o.t])
    case OfMutex(o) => !o.DestroyMutex?
    case OfSem(o) => !o.Give?
    case _ => true
  }

  // The wait that the step can begin; one begins now.
  function NewCall(k: K, op: Op): Call {
    match op
    case OfSem(Take(i, timeout)) => InSem(i, k.clock.jiffies, timeout)
    case OfEvent(WaitBits(e, bits, clear, all, timeout)) => InEvent(e, bits, clear, all, k.clock.jiffies, timeout)
    case OfEvent(Sync(e, _, wanted, timeout)) => InSync(e, wanted, k.clock.jiffies, timeout)
    case Resumed =>
      if k.current in k.s.tasks && k.s.tasks[k.current].call.InSync? then
        var c := k.s.tasks[k.current].call;
        var el := Elapsed(k.clock, c.start);
        InEvent(c.e, c.bits, true, true, k.clock.jiffies, if c.timeout == INFINITE || el >= c.timeout then INFINITE else c.timeout - el)
      else NoCall
    case _ => NoCall
  }

  lemma MutexTidy(k: K, op: MutexOp)
    requires !op.DestroyMutex?
    ensures TidyStep(k, MutexStep(k, op).k)
  {
    hide TidyStep, MutexLock, MutexTrylock, MutexUnlock, UnlockAllIn;
    match op {
      case NewMutex(m) =>
        NewTidy(k, MtxQ(m));
        MoreMutexes(k, NewQueue(k, MtxQ(m)), MutexStep(k, op).k);
      case Lock(m) => LockTidy(k, m);
      case Trylock(m) => TrylockTidy(k, m);
      case Unlock(m) => UnlockTidy(k, m);
      case UnlockAll => UnlockAllTidy(k, k.current);
    }
  }

  lemma MoreMutexes(k: K, d: K, e: K)
    requires TidyStep(k, d) && e.s == d.s && d.mtx.Keys <= e.mtx.Keys
    ensures TidyStep(k, e)
  {
    TidyMore(k.s, d.s, d.mtx.Keys, e.mtx.Keys);
  }

  lemma TaskTidy(k: K, op: TaskOp)
    requires Harmless(k, OfTask(op))
    ensures TidyStep(k, TaskStep(k, op).k)
  {
    hide TidyStep, TaskCreate, ChangePrio, Kill, SuspendTask, Resume, WaitFor, Sleep, Cleanup, Overwritten;
    match op {
      case Create(t, prio, suspended, ref) => CreateTidy(k, t, prio, suspended, ref);
      case SetPriority(t, prio) => ChangeTidy(k, t, prio);
      case KillTask(t) => KillTidy(k, t);
      case Pause(t) => SuspendTidy(k, t);
      case Unpause(t) => ResumeTidy(k, t);
      case Join(t) => WaitForTidy(k, t);
      case Delay(timeout) => SleepTidy(k, timeout);
      case Reap => CleanupTidy(k);
    }
  }

  lemma StepTidy(k: K, op: Op)
    requires Harmless(k, op) && k.current in k.s.tasks
    ensures TokenStep(k, Apply(k, op).k) && Begun(k, Apply(k, op).k, NewCall(k, op))
  {
    hide TidyStep, MutexStep, CondStep, SemStep, EventStep, TaskStep, Continue, Switch, Advance, Overwritten, NewCall, TokenStep;
    match op {
      case OfMutex(o) => MutexTidy(k, o);
      case OfCond(o) => CondTidy(k, o);
      case OfSem(o) => SemTidy(k, o);
      case OfEvent(o) => EventTidy(k, o);
      case OfTask(o) => TaskTidy(k, o);
      case Resumed => ContinueTidy(k);
      case Preempt => SwitchTidy(k);
      case Tick(n) => AdvanceTidy(k, n);
    }
    BegunTokens(k, Apply(k, op).k, NewCall(k, op));
  }
}
