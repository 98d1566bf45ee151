/**
 What the invariant says about every reachable state of the kernel, in the terms of its
 callers.  A reachable state is Final(Boot(), ops) for a lawful run ops.
 */
module KernelResults {
  import opened Lists
  import opened KernelState
  import opened KernelCalls
  import opened KernelBits
  import opened KernelLists
  import opened KernelTime
  import opened KernelInv
  import opened KernelWake
  import opened KernelMutex
  import opened KernelObjects
  import opened KernelEvents
  import opened KernelTasks
  import opened KernelSched
  import opened KernelRun

  // ---- lists ----

  predicate OnAList(st: State) {
    st.Ready? || st.Running? || st.WtSem? || st.WtMtx? || st.WtCond? || st.WtEvt? || st.WtExit? || st.Zombie?
  }

  // The list a task may be on, by its state.
  predicate Belongs(r: Task, q: Qid) {
    && (r.state.Ready? || r.state.Running? ==> q == Node(r.elem))
    && (r.state.WtSem? ==> q.SemQ? && r.obj == Sem(q.s))
    && (r.state.WtMtx? ==> q.MtxQ? && r.obj == Mtx(q.m))
    && (r.state.WtCond? ==> q.CondQ? && r.obj == Cond(q.c))
    && (r.state.WtEvt? ==> q.EvtQ?)
    && (r.state.WtExit? ==> q.ExitQ?)
    && (r.state.Zombie? ==> q == Zombies)
  }

  // A task is on at most one task list, once, and on one exactly when its state says so; only
  // a sleeping or waiting task is on a time list.
  lemma ListsMatchStates(ops: seq<Op>, t: Tid)
    requires Lawful(Boot(), ops) && t in Final(Boot(), ops).s.tasks
    ensures var s := Final(Boot(), ops).s;
            && (forall q | q in s.queues && t in s.queues[q] :: Belongs(s.tasks[t], q))
            && (forall p, q | p in s.queues && t in s.queues[p] && q in s.queues && t in s.queues[q] :: p == q)
            && (forall q, i, j | q in s.queues && 0 <= i < j < |s.queues[q]| :: s.queues[q][i] != s.queues[q][j])
            && ((exists q :: q in s.queues && t in s.queues[q]) <==> OnAList(s.tasks[t].state))
            && (t in Sleepers(Final(Boot(), ops).clock) ==> Sleepy(s.tasks[t].state))
  {
    hide InvBut, Boot, Lawful, Final;
    EveryRunIsSafe(ops);
    PlaceOf(Final(Boot(), ops), t);
  }

  lemma PlaceOf(k: K, t: Tid)
    requires Inv(k) && t in k.s.tasks
    ensures var s := k.s;
            && (forall q | q in s.queues && t in s.queues[q] :: Belongs(s.tasks[t], q))
            && (forall p, q | p in s.queues && t in s.queues[p] && q in s.queues && t in s.queues[q] :: p == q)
            && (forall q, i, j | q in s.queues && 0 <= i < j < |s.queues[q]| :: s.queues[q][i] != s.queues[q][j])
            && ((exists q :: q in s.queues && t in s.queues[q]) <==> OnAList(s.tasks[t].state))
            && (t in Sleepers(k.clock) ==> Sleepy(s.tasks[t].state))
  {
    hide TimeInv, Objects, OneRunning, Own, Sems, Events, Calls, Exits, NodeOrder, NodePrio, QueuesSorted, Prios;
    var s := k.s;
    assert StateOk(s.tasks[t]);
    assert t in Sleepers(k.clock) ==> Timed(k.clock, t);
    forall q | q in s.queues && t in s.queues[q] ensures Belongs(s.tasks[t], q) && OnAList(s.tasks[t].state) { assert s.tasks[t].inode == In(q); }
    forall q, i, j | q in s.queues && 0 <= i < j < |s.queues[q]| ensures s.queues[q][i] != s.queues[q][j] { assert NoDup(s.queues[q]); }
    if OnAList(s.tasks[t].state) {
      var q := s.tasks[t].inode.q;
      assert q in s.queues && t in s.queues[q];
    }
  }

  // The ready list: strictly ordered by urgency, no empty node, every task on the node of its
  // own priority, every node of the pool used or free, and the idle task on one of them.
  lemma ReadyListOrdered(ops: seq<Op>)
    requires Lawful(Boot(), ops)
    ensures var s := Final(Boot(), ops).s;
            && s.ready != [] && |s.ready| + |s.free| == PRIOS + 1
            && (forall i | 0 <= i < |s.ready| :: s.ready[i] in s.nprio && Node(s.ready[i]) in s.queues && s.queues[Node(s.ready[i])] != [])
            && (forall i, j | 0 <= i < j < |s.ready| :: s.nprio[s.ready[i]] < s.nprio[s.ready[j]])
            && (forall i, t | 0 <= i < |s.ready| && t in s.queues[Node(s.ready[i])] :: t in s.tasks && s.tasks[t].prio == s.nprio[s.ready[i]])
  {
    hide InvBut, Boot, Lawful, Final;
    EveryRunIsSafe(ops);
    ReadyOf(Final(Boot(), ops));
  }

  lemma ReadyOf(k: K)
    requires Inv(k)
    ensures var s := k.s;
            && s.ready != [] && |s.ready| + |s.free| == PRIOS + 1
            && (forall i | 0 <= i < |s.ready| :: s.ready[i] in s.nprio && Node(s.ready[i]) in s.queues && s.queues[Node(s.ready[i])] != [])
            && (forall i, j | 0 <= i < j < |s.ready| :: s.nprio[s.ready[i]] < s.nprio[s.ready[j]])
            && (forall i, t | 0 <= i < |s.ready| && t in s.queues[Node(s.ready[i])] :: t in s.tasks && s.tasks[t].prio == s.nprio[s.ready[i]])
  {
    hide TimeInv, TimeStates, Objects, OneRunning, Own, Sems, Events, Calls, Exits, QueuesSorted, Prios, NoDup, Links;
    IdleRuns(k);
    HeadThere(k.s);
    forall i | 0 <= i < |k.s.ready| ensures k.s.ready[i] in k.s.nprio && Node(k.s.ready[i]) in k.s.queues && k.s.queues[Node(k.s.ready[i])] != [] {
      assert k.s.ready[i] in k.s.ready;
    }
  }

  // ---- priorities ----

  // Every wait queue of a semaphore, mutex or condition variable is sorted by the current
  // effective priorities, and no task runs below its base priority.  Equally urgent tasks there,
  // and all tasks on any other list, stand in the order in which they came.
  lemma QueuesByUrgency(ops: seq<Op>, q: Qid, i: nat, j: nat)
    requires Lawful(Boot(), ops)
    ensures var s := Final(Boot(), ops).s;
            && (q in s.queues && PrioQ(q) && i < j < |s.queues[q]| ==>
                  s.queues[q][i] in s.tasks && s.queues[q][j] in s.tasks && s.tasks[s.queues[q][i]].prio <= s.tasks[s.queues[q][j]].prio)
            && (forall t | t in s.tasks :: s.tasks[t].prio <= s.tasks[t].base)
            && (q in s.queues && i < j < |s.queues[q]| && (PrioQ(q) ==> SameUrgency(s, s.queues[q][i], s.queues[q][j])) ==> CameBefore(s.line, s.queues[q][i], s.queues[q][j]))
  {
    hide InvBut, Boot, Lawful, Final, Links, NodeOrder, NodePrio, States;
    EveryRunIsSafe(ops);
    var k := Final(Boot(), ops);
    CoreOf(k, k.sems, k.mtx);
    if q in k.s.queues && PrioQ(q) { assert Sorted(k.s, k.s.queues[q]); }
    if q in k.s.queues { assert Waited(k.s, q, k.s.queues[q]); }
  }

  // ---- mutexes ----

  lemma MutexCoherent(ops: seq<Op>, t: Tid, m: nat)
    requires Lawful(Boot(), ops)
    ensures var k := Final(Boot(), ops);
            && (t in k.s.tasks && m in k.s.tasks[t].owned <==> m in k.mtx && k.mtx[m].owner == Held(t))
            && (m in k.mtx ==> (k.mtx[m].count >= 1 <==> k.mtx[m].owner.Held?))
            && (m in k.mtx && Queue(k.s, MtxQ(m)) != [] ==> k.mtx[m].owner.Held? && k.mtx[m].owner.t !in Queue(k.s, MtxQ(m)))
  {
    hide InvBut, Boot, Lawful, Final, Core, States;
    EveryRunIsSafe(ops);
    var k := Final(Boot(), ops);
    PartsOf(k, k.sems, k.mtx);
    if m in k.mtx { assert OwnerOk(k.s, m, k.mtx[m]); }
  }

  // ---- semaphores ----

  // Since its creation or last reset, an unlimited semaphore has handed out exactly the
  // tokens it started with and was given, less those it still stores; a negative value
  // counts the tasks that wait.
  lemma TokensConserved(ops: seq<Op>, i: nat)
    requires Lawful(Boot(), ops)
    ensures var k := Final(Boot(), ops);
            i in k.sems ==>
              && |Queue(k.s, SemQ(i))| == (if k.sems[i].value < 0 then -k.sems[i].value else 0)
              && (k.sems[i].limit == 0 ==> k.sems[i].initial + k.sems[i].signals == k.sems[i].grants + (if k.sems[i].value > 0 then k.sems[i].value else 0))
  {
    hide InvBut, Boot, Lawful, Final;
    EveryRunIsSafe(ops);
    var k := Final(Boot(), ops);
    if i in k.sems { SemOf(k, i, k.mtx); }
  }

  // ---- events ----

  lemma NoLostWakeup(ops: seq<Op>, e: nat, t: Tid)
    requires Lawful(Boot(), ops)
    ensures var k := Final(Boot(), ops);
            e in k.evts && t in Queue(k.s, EvtQ(e)) ==> t in k.s.tasks && k.s.tasks[t].obj.Bits? && !Met(k.evts[e], k.s.tasks[t].obj.b)
  {
    hide InvBut, Boot, Lawful, Final, CheckCond2, Met;
    EveryRunIsSafe(ops);
    var k := Final(Boot(), ops);
    if e in k.evts {
      EventOf(k, e);
      if t in k.s.tasks && k.s.tasks[t].obj.Bits? { Cond2Is(k.evts[e], k.s.tasks[t].obj.b); }
    }
  }

  // ---- sleeping ----

  // Tickless sleep: the next timer event comes no later than the first deadline, and no earlier
  // than something wants it.
  lemma SleepPassesNoDeadline(ops: seq<Op>, vtd: nat)
    requires Lawful(Boot(), ops) && vtd < TICKS
    ensures var c := Final(Boot(), ops).clock;
            && 1 <= NextTimeout(c, vtd) < TICKS
            && (forall t | t in Sleepers(c) :: t in c.due && Now(c) + NextTimeout(c, vtd) <= Deadline(c, t))
            && (vtd > 0 ==> NextTimeout(c, vtd) <= vtd)
            && (Awaited(c, vtd, NextTimeout(c, vtd)) || (NextTimeout(c, vtd) == 1 && Awaited(c, vtd, 0)))
  {
    hide InvBut, Boot, Lawful, Final, NextTimeout, Core, States, Awaited;
    EveryRunIsSafe(ops);
    var k := Final(Boot(), ops);
    CoreOf(k, k.sems, k.mtx);
    NextTimeoutSafe(k.clock, vtd);
    NextTimeoutWanted(k.clock, vtd);
  }

  // n ticks at once or one by one, across any number of wraps: the same state, and the tasks
  // woken are exactly those whose deadline has come, in the order of the queue of sleepers.
  lemma TicksWakeInOrder(ops: seq<Op>, n: nat) returns (i: nat)
    requires Lawful(Boot(), ops)
    ensures var k := Final(Boot(), ops); Advance(k, n) == Ticks(k, n) && Slept(k, Advance(k, n), n, i)
  {
    hide InvBut, Boot, Lawful, Final, Core, States, Advance, Ticks, Slept;
    EveryRunIsSafe(ops);
    var k := Final(Boot(), ops);
    CoreOf(k, k.sems, k.mtx);
    InRange(k.clock);
    AdvanceIsTicks(k, n);
    i := AdvanceWakes(k, n);
  }

  // That queue is ordered by deadline, and nobody on it is overdue.
  lemma SleepersByDeadline(ops: seq<Op>, a: nat, b: nat)
    requires Lawful(Boot(), ops) && a < b < |Sleepers(Final(Boot(), ops).clock)|
    ensures var c := Final(Boot(), ops).clock; var x, y := Sleepers(c)[a], Sleepers(c)[b];
            x != y && x in c.due && y in c.due && Now(c) < Deadline(c, x) <= Deadline(c, y) < Now(c) + TICKS
  {
    hide InvBut, Boot, Lawful, Final, Core, States, Deadline;
    EveryRunIsSafe(ops);
    var k := Final(Boot(), ops);
    CoreOf(k, k.sems, k.mtx);
    SleepersOrdered(k.clock);
    assert Sleepers(k.clock)[a] in Sleepers(k.clock) && Sleepers(k.clock)[b] in Sleepers(k.clock);
  }

  lemma InRange(c: Clock)
    requires TimeInv(c)
    ensures c.jiffies < TICKS
  {
  }
}
