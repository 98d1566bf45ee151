/**
 The list operations on one task do not look at most fields of the others, nor at a task's
 own base priority.  So a change to such a field may be made before or after them.
 */
module KernelCommute {
  import opened Lists
  import opened KernelState

  // ---- another task's record, priority and mutexes unchanged ----

  lemma {:induction false} PrioPosSame(a: map<Tid, Task>, b: map<Tid, Task>, ts: seq<Tid>, p: nat)
    requires forall x :: (x in a <==> x in b) && (x in a ==> a[x].prio == b[x].prio)
    ensures PrioPos(a, ts, p) == PrioPos(b, ts, p)
  {
    if ts != [] { PrioPosSame(a, b, ts[1..], p); }
  }

  lemma DeleteOther(s: S, t: Tid, r: Task, o: Tid)
    requires t in s.tasks && t != o
    ensures ListDelete(Put(s, t, r), o) == Put(ListDelete(s, o), t, r)
  {
    hide Remove;
  }

  lemma DelReadyOther(s: S, t: Tid, r: Task, o: Tid)
    requires t in s.tasks && t != o
    ensures DelReady(Put(s, t, r), o) == Put(DelReady(s, o), t, r)
  {
    DeleteOther(s, t, r, o);
    hide ListDelete, Remove;
  }

  lemma InsertOther(s: S, q: Qid, i: nat, t: Tid, r: Task, o: Tid)
    requires t in s.tasks && t != o
    ensures ListInsert(Put(s, t, r), q, i, o) == Put(ListInsert(s, q, i, o), t, r)
  {
    hide Insert;
  }

  lemma InsertEndOther(s: S, q: Qid, t: Tid, r: Task, o: Tid)
    requires t in s.tasks && t != o
    ensures InsertEnd(Put(s, t, r), q, o) == Put(InsertEnd(s, q, o), t, r)
  {
    hide ListInsert;
    if q in s.queues { InsertOther(s, q, |s.queues[q]|, t, r, o); }
  }

  lemma PutTwice(s: S, t: Tid, r: Task, o: Tid, u: Task)
    requires t != o
    ensures Put(Put(s, t, r), o, u) == Put(Put(s, o, u), t, r)
  {
  }

  // A node is found, or opened, for the task o.
  lemma JoinOther(s: S, t: Tid, r: Task, o: Tid, u: Task, n: nat)
    requires t in s.tasks && t != o
    ensures InsertEnd(Put(Put(s, t, r), o, u), Node(n), o) == Put(InsertEnd(Put(s, o, u), Node(n), o), t, r)
  {
    hide InsertEnd;
    PutTwice(s, t, r, o, u);
    InsertEndOther(Put(s, o, u), Node(n), t, r, o);
  }

  lemma OpenOther(s: S, t: Tid, r: Task, o: Tid, u: Task, n: nat, i: nat, p: nat)
    requires t in s.tasks && t != o && s.free != [] && i <= |s.ready|
    ensures InsertEnd(Opened(Put(Put(s, t, r), o, u), n, i, p), Node(n), o) == Put(InsertEnd(Opened(Put(s, o, u), n, i, p), Node(n), o), t, r)
  {
    hide InsertEnd, Insert;
    PutTwice(s, t, r, o, u);
    InsertEndOther(Opened(Put(s, o, u), n, i, p), Node(n), t, r, o);
  }

  lemma AddReadyOther(s: S, t: Tid, r: Task, o: Tid)
    requires t in s.tasks && t != o
    ensures AddReady(Put(s, t, r), o) == Put(AddReady(s, o), t, r)
  {
    hide InsertEnd, NodePos, Opened;
    if o in s.tasks {
      var p := s.tasks[o].prio;
      var i := NodePos(s.nprio, s.ready, p);
      if i < |s.ready| { JoinOther(s, t, r, o, s.tasks[o].(state := Ready, elem := s.ready[i]), s.ready[i]); }
      if s.free != [] { OpenOther(s, t, r, o, s.tasks[o].(state := Ready, elem := s.free[0]), s.free[0], i, p); }
    }
  }

  // What the insertion does to the record.
  lemma EndRecord(s: S, q: Qid, t: Tid)
    ensures var d := InsertEnd(s, q, t); d.tasks == s.tasks || (t in s.tasks && d.tasks == s.tasks[t := s.tasks[t].(inode := In(q))])
  {
    hide Insert, Came;
  }

  lemma ReadyRecord(s: S, t: Tid)
    ensures var d := AddReady(s, t);
            d.tasks == s.tasks || (t in s.tasks && t in d.tasks && d.tasks == s.tasks[t := s.tasks[t].(state := Ready, elem := d.tasks[t].elem, inode := d.tasks[t].inode)])
  {
    hide InsertEnd, NodePos, Insert;
    if t in s.tasks {
      var i := NodePos(s.nprio, s.ready, s.tasks[t].prio);
      if i < |s.ready| { EndRecord(Put(s, t, s.tasks[t].(state := Ready, elem := s.ready[i])), Node(s.ready[i]), t); }
      if s.free != [] {
        var n := s.free[0];
        EndRecord(Opened(Put(s, t, s.tasks[t].(state := Ready, elem := n)), n, i, s.tasks[t].prio), Node(n), t);
      }
    }
  }

  lemma AddToPrioQueueOther(s: S, q: Qid, t: Tid, r: Task, o: Tid)
    requires t in s.tasks && t != o && r.prio == s.tasks[t].prio
    ensures AddToPrioQueue(Put(s, t, r), q, o) == Put(AddToPrioQueue(s, q, o), t, r)
  {
    hide ListInsert;
    if o in s.tasks && q in s.queues {
      PrioPosSame(s.tasks, Put(s, t, r).tasks, s.queues[q], s.tasks[o].prio);
      InsertOther(s, q, PrioPos(s.tasks, s.queues[q], s.tasks[o].prio), t, r, o);
    }
  }

  lemma DeleteKeeps(s: S, t: Tid, o: Tid)
    requires t in s.tasks && t != o
    ensures t in ListDelete(s, o).tasks && ListDelete(s, o).tasks[t] == s.tasks[t]
    ensures t in DelReady(s, o).tasks && DelReady(s, o).tasks[t] == s.tasks[t]
  {
  }

  lemma SetOther(s: S, t: Tid, r: Task, o: Tid, p: nat, st: State)
    requires t in s.tasks && t != o
    ensures SetPrio(Put(s, t, r), o, p) == Put(SetPrio(s, o, p), t, r)
    ensures SetState(Put(s, t, r), o, st) == Put(SetState(s, o, st), t, r)
    ensures t in SetPrio(s, o, p).tasks && SetPrio(s, o, p).tasks[t] == s.tasks[t]
  {
    if o in s.tasks {
      assert s.tasks[t := r][o := s.tasks[o].(prio := p)] == s.tasks[o := s.tasks[o].(prio := p)][t := r];
      assert s.tasks[t := r][o := s.tasks[o].(state := st)] == s.tasks[o := s.tasks[o].(state := st)][t := r];
    }
  }

  lemma RequeueOther(s: S, q: Qid, t: Tid, r: Task, o: Tid, p: nat)
    requires t in s.tasks && t != o && r.prio == s.tasks[t].prio
    ensures Requeue(Put(s, t, r), q, o, p) == Put(Requeue(s, q, o, p), t, r)
  {
    hide ListDelete, AddToPrioQueue, SetPrio;
    DeleteOther(s, t, r, o);
    DeleteKeeps(s, t, o);
    SetOther(ListDelete(s, o), t, r, o, p, Schedule);
    AddToPrioQueueOther(SetPrio(ListDelete(s, o), o, p), q, t, r, o);
  }

  lemma ReadyOther(s: S, t: Tid, r: Task, o: Tid, p: nat)
    requires t in s.tasks && t != o
    ensures AddReady(SetState(SetPrio(DelReady(Put(s, t, r), o), o, p), o, Schedule), o)
            == Put(AddReady(SetState(SetPrio(DelReady(s, o), o, p), o, Schedule), o), t, r)
  {
    hide DelReady, AddReady, SetPrio, SetState;
    DelReadyOther(s, t, r, o);
    DeleteKeeps(s, t, o);
    var d := DelReady(s, o);
    SetOther(d, t, r, o, p, Schedule);
    var e := SetPrio(d, o, p);
    SetOther(e, t, r, o, p, Schedule);
    StateKeeps(e, t, o, Schedule);
    AddReadyOther(SetState(e, o, Schedule), t, r, o);
  }

  lemma StateKeeps(s: S, t: Tid, o: Tid, st: State)
    requires t in s.tasks
    ensures t in SetState(s, o, st).tasks
  {
  }

  lemma ReallocOther(s: S, t: Tid, r: Task, o: Tid, p: nat)
    requires t in s.tasks && o in s.tasks && t != o && r.prio == s.tasks[t].prio
    ensures Realloc(Put(s, t, r), o, p) == Put(Realloc(s, o, p), t, r)
  {
    hide DelReady, AddReady, SetPrio, SetState, Requeue;
    ReadyOther(s, t, r, o, p);
    SetOther(s, t, r, o, p, Schedule);
    var b := s.tasks[o];
    if b.obj.Sem? { RequeueOther(s, SemQ(b.obj.s), t, r, o, p); }
    if b.obj.Mtx? { RequeueOther(s, MtxQ(b.obj.m), t, r, o, p); }
    if b.obj.Cond? { RequeueOther(s, CondQ(b.obj.c), t, r, o, p); }
  }

  lemma {:induction false} InheritedOther(s: S, t: Tid, r: Task, ms: seq<nat>, p: nat)
    requires t in s.tasks && r.prio == s.tasks[t].prio
    ensures Inherited(Put(s, t, r), ms, p) == Inherited(s, ms, p)
  {
    if ms != [] {
      var w := if MtxQ(ms[0]) in s.queues then s.queues[MtxQ(ms[0])] else [];
      InheritedOther(s, t, r, ms[1..], if w != [] && w[0] in s.tasks && s.tasks[w[0]].prio < p then s.tasks[w[0]].prio else p);
    }
  }

  lemma ReinheritOther(s: S, t: Tid, r: Task, o: Tid)
    requires t in s.tasks && o in s.tasks && t != o && r.prio == s.tasks[t].prio
    ensures Reinherit(Put(s, t, r), o) == Put(Reinherit(s, o), t, r)
  {
    hide Realloc, Inherited;
    InheritedOther(s, t, r, s.tasks[o].owned, s.tasks[o].base);
    ReallocOther(s, t, r, o, CalcInherited(s, o));
  }

  lemma ReinheritKeeps(s: S, t: Tid, o: Tid)
    requires t in s.tasks && o in s.tasks && t != o
    ensures t in Reinherit(s, o).tasks && Reinherit(s, o).tasks[t] == s.tasks[t]
  {
    hide Reinherit;
    assert Put(s, t, s.tasks[t]).tasks == s.tasks;
    ReinheritOther(s, t, s.tasks[t], o);
  }

  // ---- the task's own base priority ----

  function SetBase(s: S, t: Tid, b: nat): S {
    if t in s.tasks then Put(s, t, s.tasks[t].(base := b)) else s
  }

  // Writing the record of t, then its base priority.
  lemma BasePut(s: S, t: Tid, r: Task, b: nat)
    ensures SetBase(Put(s, t, r), t, b) == Put(s, t, r.(base := b))
    ensures Put(SetBase(s, t, b), t, r) == Put(s, t, r)
  {
  }

  lemma BaseFrame(s: S, t: Tid, b: nat)
    ensures SetBase(s, t, b) == s.(tasks := SetBase(s, t, b).tasks) && SetBase(s, t, b).tasks.Keys == s.tasks.Keys
    ensures t in s.tasks ==> SetBase(s, t, b).tasks[t] == s.tasks[t].(base := b)
    ensures forall x | x in s.tasks :: SetBase(s, t, b).tasks[x].prio == s.tasks[x].prio
  {
  }

  lemma DeleteBase(s: S, t: Tid, b: nat)
    ensures ListDelete(SetBase(s, t, b), t) == SetBase(ListDelete(s, t), t, b)
  {
    hide Remove;
  }

  lemma DelReadyBase(s: S, t: Tid, b: nat)
    ensures DelReady(SetBase(s, t, b), t) == SetBase(DelReady(s, t), t, b)
  {
    hide ListDelete, Remove, SetBase;
    var d := ListDelete(s, t);
    DeleteBase(s, t, b);
    BaseFrame(s, t, b);
    BaseFrame(d, t, b);
    FailBase(d, t, b);
    if t in s.tasks { NodesBase(d, t, b, Remove(d.ready, s.tasks[t].elem), d.free + [s.tasks[t].elem]); }
  }

  lemma NodesBase(s: S, t: Tid, b: nat, ready: seq<nat>, free: seq<nat>)
    ensures SetBase(s.(ready := ready, free := free), t, b) == SetBase(s, t, b).(ready := ready, free := free)
  {
  }

  lemma InsertBase(s: S, q: Qid, i: nat, t: Tid, b: nat)
    ensures ListInsert(SetBase(s, t, b), q, i, t) == SetBase(ListInsert(s, q, i, t), t, b)
  {
    hide Insert;
  }

  lemma InsertEndBase(s: S, q: Qid, t: Tid, b: nat)
    ensures InsertEnd(SetBase(s, t, b), q, t) == SetBase(InsertEnd(s, q, t), t, b)
  {
    BaseFrame(s, t, b);
    hide ListInsert, SetBase;
    if q in s.queues { InsertBase(s, q, |s.queues[q]|, t, b); } else { BaseFrame(Fail(s), t, b); FailBase(s, t, b); }
  }

  lemma FailBase(s: S, t: Tid, b: nat)
    ensures Fail(SetBase(s, t, b)) == SetBase(Fail(s), t, b)
  {
  }

  // A new node and the record of t, then its base priority.
  lemma NodeBase(s: S, t: Tid, u: Task, n: nat, i: nat, p: nat, b: nat)
    requires i <= |s.ready| && s.free != []
    ensures SetBase(Opened(Put(s, t, u), n, i, p), t, b) == Opened(Put(SetBase(s, t, b), t, u.(base := b)), n, i, p)
  {
    hide Insert;
  }

  lemma AddReadyBase(s: S, t: Tid, b: nat)
    ensures AddReady(SetBase(s, t, b), t) == SetBase(AddReady(s, t), t, b)
  {
    hide Insert, InsertEnd, NodePos, SetBase, Opened;
    BaseFrame(s, t, b);
    FailBase(s, t, b);
    if t in s.tasks && s.tasks[t].prio <= PRIOS && !s.tasks[t].state.Ready? && !s.tasks[t].state.Zombie? {
      var p := s.tasks[t].prio;
      var i := NodePos(s.nprio, s.ready, p);
      if i < |s.ready| && s.ready[i] in s.nprio && s.nprio[s.ready[i]] == p {
        var u := s.tasks[t].(state := Ready, elem := s.ready[i]);
        InsertEndBase(Put(s, t, u), Node(s.ready[i]), t, b);
        BasePut(s, t, u, b);
        BasePut(s, t, u.(base := b), b);
      } else if s.free != [] {
        var n := s.free[0];
        var u := s.tasks[t].(state := Ready, elem := n);
        InsertEndBase(Opened(Put(s, t, u), n, i, p), Node(n), t, b);
        NodeBase(s, t, u, n, i, p, b);
      }
    }
  }

  lemma PrioBase(s: S, t: Tid, p: nat, st: State, b: nat)
    ensures SetPrio(SetBase(s, t, b), t, p) == SetBase(SetPrio(s, t, p), t, b)
    ensures SetState(SetBase(s, t, b), t, st) == SetBase(SetState(s, t, st), t, b)
  {
  }

  lemma AddToPrioQueueBase(s: S, q: Qid, t: Tid, b: nat)
    ensures AddToPrioQueue(SetBase(s, t, b), q, t) == SetBase(AddToPrioQueue(s, q, t), t, b)
  {
    BaseFrame(s, t, b);
    FailBase(s, t, b);
    hide ListInsert, SetBase;
    if t in s.tasks && q in s.queues {
      PrioPosSame(s.tasks, SetBase(s, t, b).tasks, s.queues[q], s.tasks[t].prio);
      InsertBase(s, q, PrioPos(s.tasks, s.queues[q], s.tasks[t].prio), t, b);
    }
  }

  lemma RequeueBase(s: S, q: Qid, t: Tid, p: nat, b: nat)
    ensures Requeue(SetBase(s, t, b), q, t, p) == SetBase(Requeue(s, q, t, p), t, b)
  {
    hide ListDelete, SetBase, SetPrio, AddToPrioQueue;
    DeleteBase(s, t, b);
    PrioBase(ListDelete(s, t), t, p, Schedule, b);
    AddToPrioQueueBase(SetPrio(ListDelete(s, t), t, p), q, t, b);
  }

  lemma ReallocBase(s: S, t: Tid, p: nat, b: nat)
    requires t in s.tasks
    ensures Realloc(SetBase(s, t, b), t, p) == SetBase(Realloc(s, t, p), t, b)
  {
    hide DelReady, AddReady, Requeue, SetBase, SetPrio, SetState;
    BaseFrame(s, t, b);
    DelReadyBase(s, t, b);
    var d := DelReady(s, t);
    PrioBase(d, t, p, Schedule, b);
    PrioBase(SetPrio(d, t, p), t, p, Schedule, b);
    AddReadyBase(SetState(SetPrio(d, t, p), t, Schedule), t, b);
    PrioBase(s, t, p, Schedule, b);
    var r := s.tasks[t];
    if r.obj.Sem? { RequeueBase(s, SemQ(r.obj.s), t, p, b); }
    if r.obj.Mtx? { RequeueBase(s, MtxQ(r.obj.m), t, p, b); }
    if r.obj.Cond? { RequeueBase(s, CondQ(r.obj.c), t, p, b); }
  }
}
