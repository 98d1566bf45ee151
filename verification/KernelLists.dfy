/**
 The list structure that every kernel step keeps: each task is linked on exactly the
 list its link field names, the ready list is strictly ordered by priority and has no
 empty node, the wait queues are sorted by current priority.
 */
module KernelLists {
  import opened Lists
  import opened KernelState
  import opened KernelCalls

  ghost predicate Links(s: S) {
    && (forall q, t {:trigger t in s.queues[q]} | q in s.queues && t in s.queues[q] :: t in s.tasks && s.tasks[t].inode == In(q))
    && (forall t | t in s.tasks && s.tasks[t].inode.In? ::
          s.tasks[t].inode.q in s.queues && t in s.queues[s.tasks[t].inode.q])
    && (forall q {:trigger NoDup(s.queues[q])} | q in s.queues :: NoDup(s.queues[q]))
  }

  predicate Ascending(nprio: map<nat, nat>, ready: seq<nat>) {
    && (forall i | 0 <= i < |ready| :: ready[i] in nprio && nprio[ready[i]] <= PRIOS)
    && (forall i, j | 0 <= i < j < |ready| :: nprio[ready[i]] < nprio[ready[j]])
  }

  // The 17 priority nodes: each is on the ready list or free, the ready list is strictly
  // ordered, its nodes are not empty, the free ones are.
  ghost predicate NodeOrder(s: S) {
    && (forall n: nat :: n in s.nprio <==> n <= PRIOS)
    && (forall n: nat :: Node(n) in s.queues <==> n <= PRIOS)
    && NoDup(s.ready) && NoDup(s.free)
    && (forall n | n in s.ready :: n <= PRIOS && n !in s.free && s.queues[Node(n)] != [])
    && (forall n | n in s.free :: n <= PRIOS && s.queues[Node(n)] == [])
    && (forall n: nat | n <= PRIOS :: n in s.ready || n in s.free)
    && |s.ready| + |s.free| == PRIOS + 1
    && Ascending(s.nprio, s.ready)
  }

  // A task on a node has the node's priority.
  ghost predicate NodePrio(s: S) {
    forall n: nat, t: Tid {:trigger t in s.queues[Node(n)]} | Node(n) in s.queues && t in s.queues[Node(n)] ::
      t in s.tasks && n in s.nprio && s.tasks[t].prio == s.nprio[n] && s.tasks[t].elem == n
  }

  predicate PrioQ(q: Qid) { q.SemQ? || q.MtxQ? || q.CondQ? }

  ghost predicate Sorted(s: S, ts: seq<Tid>) {
    && (forall i | 0 <= i < |ts| :: ts[i] in s.tasks)
    && (forall i, j | 0 <= i < j < |ts| :: s.tasks[ts[i]].prio <= s.tasks[ts[j]].prio)
  }

  ghost predicate QueuesSorted(s: S) {
    forall q {:trigger Sorted(s, s.queues[q])} | q in s.queues && PrioQ(q) :: Sorted(s, s.queues[q])
  }

  // Each list is in the order in which its tasks came; a wait queue is so among tasks of equal
  // priority.
  ghost predicate Waited(s: S, q: Qid, ts: seq<Tid>) {
    && (forall i {:trigger Counted(s.line, ts[i])} | 0 <= i < |ts| :: Counted(s.line, ts[i]))
    && (forall i, j {:trigger CameBefore(s.line, ts[i], ts[j])} | 0 <= i < j < |ts| && (PrioQ(q) ==> SameUrgency(s, ts[i], ts[j])) ::
          CameBefore(s.line, ts[i], ts[j]))
  }

  predicate Counted(l: Line, x: Tid) { x in l.since && l.since[x] < l.turn }

  predicate CameBefore(l: Line, x: Tid, y: Tid) { x in l.since && y in l.since && l.since[x] < l.since[y] }

  predicate SameUrgency(s: S, x: Tid, y: Tid) { x in s.tasks && y in s.tasks && s.tasks[x].prio == s.tasks[y].prio }

  ghost predicate InLine(s: S) { forall q {:trigger Waited(s, q, s.queues[q])} | q in s.queues :: Waited(s, q, s.queues[q]) }

  // The effective priority is never less urgent than the base priority.
  ghost predicate Prios(s: S) {
    forall t | t in s.tasks :: s.tasks[t].prio <= s.tasks[t].base <= PRIOS
  }

  ghost predicate Core(s: S) {
    !s.bug && Links(s) && NodeOrder(s) && NodePrio(s) && QueuesSorted(s) && Prios(s) && InLine(s)
  }

  // The list a task must be on, by its state.
  predicate StateOk(r: Task) {
    match r.state
    case Ready => r.inode == In(Node(r.elem))
    case Running => r.inode == In(Node(r.elem))
    case WtSem => r.obj.Sem? && r.inode == In(SemQ(r.obj.s))
    case WtMtx => r.obj.Mtx? && r.inode == In(MtxQ(r.obj.m))
    case WtCond => r.obj.Cond? && r.inode == In(CondQ(r.obj.c))
    case WtEvt => r.obj.Bits? && r.inode.In? && r.inode.q.EvtQ?
    case WtExit => r.inode.In? && r.inode.q.ExitQ?
    case Zombie => r.inode == In(Zombies)
    case Sleeping => r.inode == Off
    case Suspend => r.inode == Off
    case Exited => r.inode == Off
    case Created => false
    case Schedule => false
  }

  ghost predicate States(s: S, f: set<Tid>) {
    forall t {:trigger StateOk(s.tasks[t])} | t in s.tasks && t !in f :: StateOk(s.tasks[t])
  }

  // ---- deleting from and inserting into one list ----

  lemma LinksDelete(s: S, t: Tid)
    requires Links(s) && t in s.tasks && s.tasks[t].inode.In?
    ensures Links(ListDelete(s, t))
  {
    var q := s.tasks[t].inode.q;
    RemoveFacts(s.queues[q], t);
    hide Remove, NoDup;
  }

  lemma LinksInsert(s: S, q: Qid, i: nat, t: Tid)
    requires Links(s) && t in s.tasks && s.tasks[t].inode.Off? && q in s.queues && i <= |s.queues[q]|
    ensures Links(ListInsert(s, q, i, t))
  {
    InsertFacts(s.queues[q], i, t);
    hide Insert, NoDup;
  }

  lemma WaitedRemove(s: S, q: Qid, ts: seq<Tid>, t: Tid)
    requires Waited(s, q, ts) && t in ts
    ensures Waited(s, q, Remove(ts, t))
  {
    hide SameUrgency, Remove, Counted, CameBefore;
    var i := RemoveAt(ts, t);
    var r := Remove(ts, t);
    forall a | 0 <= a < |r| ensures Counted(s.line, r[a]) { assert r[a] == ts[if a < i then a else a + 1]; }
    forall a, b | 0 <= a < b < |r| && (PrioQ(q) ==> SameUrgency(s, r[a], r[b])) ensures CameBefore(s.line, r[a], r[b]) {
      var x, y := if a < i then a else a + 1, if b < i then b else b + 1;
      assert r[a] == ts[x] && r[b] == ts[y];
      assert CameBefore(s.line, ts[x], ts[y]);
    }
  }

  // It stands before those that are less urgent only.
  lemma WaitedInsert(s: S, q: Qid, ts: seq<Tid>, i: nat, t: Tid)
    requires Waited(s, q, ts) && t !in ts && i <= |ts|
    requires if PrioQ(q) then forall j | i <= j < |ts| :: !SameUrgency(s, t, ts[j]) else i == |ts|
    ensures Waited(s.(line := Came(s.line, t)), q, Insert(ts, i, t))
  {
    hide Insert, SameUrgency;
    var e, r := s.(line := Came(s.line, t)), Insert(ts, i, t);
    forall a | 0 <= a < |r| ensures Counted(e.line, r[a]) {
      assert r[a] == if a < i then ts[a] else if a == i then t else ts[a - 1];
      assert a != i ==> Counted(s.line, ts[if a < i then a else a - 1]);
    }
    forall a, b | 0 <= a < b < |r| && (PrioQ(q) ==> SameUrgency(e, r[a], r[b])) ensures CameBefore(e.line, r[a], r[b]) {
      SameUrgent(s, e, r[a], r[b]);
      var x, y := if a < i then a else a - 1, if b < i then b else b - 1;
      assert a != i ==> r[a] == ts[x] && Counted(s.line, ts[x]);
      assert b != i ==> r[b] == ts[y] && Counted(s.line, ts[y]);
      assert a != i && b != i ==> CameBefore(s.line, ts[x], ts[y]);
    }
  }

  lemma SameUrgent(s: S, d: S, x: Tid, y: Tid)
    requires d.tasks == s.tasks
    ensures SameUrgency(d, x, y) == SameUrgency(s, x, y)
  {
  }

  lemma WaitedKept(s: S, d: S, q: Qid, ts: seq<Tid>)
    requires Waited(s, q, ts) && s.line.turn <= d.line.turn && (forall x | x in ts && x in s.line.since :: x in d.line.since && d.line.since[x] == s.line.since[x])
    requires PrioQ(q) ==> forall x | x in ts && x in d.tasks :: x in s.tasks && d.tasks[x].prio == s.tasks[x].prio
    ensures Waited(d, q, ts)
  {
    forall a | 0 <= a < |ts| ensures Counted(d.line, ts[a]) { assert Counted(s.line, ts[a]); }
    forall a, b | 0 <= a < b < |ts| && (PrioQ(q) ==> SameUrgency(d, ts[a], ts[b])) ensures CameBefore(d.line, ts[a], ts[b]) {
      assert CameBefore(s.line, ts[a], ts[b]);
    }
  }

  // A task leaves its list.
  lemma LineDelete(s: S, t: Tid)
    requires Links(s) && InLine(s) && t in s.tasks && s.tasks[t].inode.In?
    ensures InLine(ListDelete(s, t))
  {
    hide NoDup, Remove, Waited;
    var d := ListDelete(s, t);
    forall q | q in d.queues ensures Waited(d, q, d.queues[q]) {
      if In(q) == s.tasks[t].inode { WaitedRemove(s, q, s.queues[q], t); }
      WaitedKept(s, d, q, d.queues[q]);
    }
  }

  // A task comes.
  lemma LineInsert(s: S, q: Qid, i: nat, t: Tid)
    requires Links(s) && InLine(s) && t in s.tasks && s.tasks[t].inode.Off? && q in s.queues && i <= |s.queues[q]|
    requires if PrioQ(q) then forall j | i <= j < |s.queues[q]| :: !SameUrgency(s, t, s.queues[q][j]) else i == |s.queues[q]|
    ensures InLine(ListInsert(s, q, i, t))
  {
    hide NoDup, Insert, Waited, SameUrgency;
    var d := ListInsert(s, q, i, t);
    var e := s.(line := Came(s.line, t));
    forall p | p in d.queues ensures Waited(d, p, d.queues[p]) {
      if p == q { WaitedInsert(s, p, s.queues[p], i, t); } else { WaitedKept(s, e, p, s.queues[p]); }
      WaitedKept(e, d, p, d.queues[p]);
    }
  }

  // The lists are the same, or empty, and so are the priorities on the wait queues.
  lemma LineKept(s: S, d: S)
    requires InLine(s) && d.line == s.line
    requires forall q | q in d.queues :: d.queues[q] == [] || (q in s.queues && d.queues[q] == s.queues[q])
    requires forall q, x {:trigger x in d.queues[q]} | q in d.queues && x in d.queues[q] && PrioQ(q) && x in d.tasks :: x in s.tasks && d.tasks[x].prio == s.tasks[x].prio
    ensures InLine(d)
  {
    hide Waited;
    forall q | q in d.queues ensures Waited(d, q, d.queues[q]) {
      if d.queues[q] == [] { WaitedNone(d, q); } else { WaitedKept(s, d, q, d.queues[q]); }
    }
  }

  lemma WaitedNone(s: S, q: Qid)
    ensures Waited(s, q, [])
  {
  }

  lemma LinePut(s: S, t: Tid, r: Task)
    requires Links(s) && InLine(s) && t in s.tasks
    requires s.tasks[t].inode.In? && PrioQ(s.tasks[t].inode.q) ==> r.prio == s.tasks[t].prio
    ensures InLine(Put(s, t, r))
  {
    hide NoDup, InLine;
    LineKept(s, Put(s, t, r));
  }

  // Changing fields of a task other than its links and its priority touches no list.
  lemma CoreSameLinks(s: S, t: Tid, r: Task)
    requires Core(s) && t in s.tasks
    requires r.inode == s.tasks[t].inode && r.prio == s.tasks[t].prio && r.elem == s.tasks[t].elem
    requires r.prio <= r.base <= PRIOS
    ensures Core(Put(s, t, r))
  {
    hide NoDup, InLine;
    var d := Put(s, t, r);
    assert forall q | q in d.queues && PrioQ(q) :: Sorted(s, s.queues[q]) ==> Sorted(d, d.queues[q]);
    LinePut(s, t, r);
  }

  // ---- prio queues ----

  lemma {:induction false} PrioPosFacts(s: S, ts: seq<Tid>, p: nat)
    requires Sorted(s, ts)
    ensures forall i | 0 <= i < PrioPos(s.tasks, ts, p) :: ts[i] in s.tasks && s.tasks[ts[i]].prio <= p
    ensures forall i | PrioPos(s.tasks, ts, p) <= i < |ts| :: ts[i] in s.tasks && p < s.tasks[ts[i]].prio
  {
    if ts != [] && s.tasks[ts[0]].prio <= p {
      assert Sorted(s, ts[1..]);
      PrioPosFacts(s, ts[1..], p);
      var n := PrioPos(s.tasks, ts[1..], p);
      forall i | 0 <= i < n + 1 ensures s.tasks[ts[i]].prio <= p { if i > 0 { assert ts[i] == ts[1..][i - 1]; } }
      forall i | n + 1 <= i < |ts| ensures p < s.tasks[ts[i]].prio { assert ts[i] == ts[1..][i - 1]; }
    }
  }

  lemma {:induction false} NodePosFacts(nprio: map<nat, nat>, ready: seq<nat>, p: nat)
    requires Ascending(nprio, ready)
    ensures forall i | 0 <= i < NodePos(nprio, ready, p) :: nprio[ready[i]] < p
    ensures forall i | NodePos(nprio, ready, p) <= i < |ready| :: p <= nprio[ready[i]]
  {
    if ready != [] && nprio[ready[0]] < p {
      var rest := ready[1..];
      assert forall i | 0 <= i < |rest| :: rest[i] == ready[i + 1];
      NodePosFacts(nprio, rest, p);
      var n := NodePos(nprio, rest, p);
      forall i | 0 <= i < n + 1 ensures nprio[ready[i]] < p { if i > 0 { assert ready[i] == rest[i - 1]; } }
      forall i | n + 1 <= i < |ready| ensures p <= nprio[ready[i]] { assert ready[i] == rest[i - 1]; }
    }
  }

  // Seventeen nodes in strictly ascending order carry every priority: node i has priority i.
  lemma {:induction false} AllPrioritiesPresent(nprio: map<nat, nat>, ready: seq<nat>, i: nat)
    requires Ascending(nprio, ready) && |ready| == PRIOS + 1 && i <= PRIOS
    ensures nprio[ready[i]] == i
  {
    Climb(nprio, ready, i);
    ClimbDown(nprio, ready, i);
  }

  lemma {:induction false} Climb(nprio: map<nat, nat>, ready: seq<nat>, i: nat)
    requires Ascending(nprio, ready) && i < |ready|
    ensures nprio[ready[i]] >= i
  {
    if i > 0 { Climb(nprio, ready, i - 1); }
  }

  lemma {:induction false} ClimbDown(nprio: map<nat, nat>, ready: seq<nat>, i: nat)
    requires Ascending(nprio, ready) && |ready| == PRIOS + 1 && i <= PRIOS
    ensures nprio[ready[i]] <= i
    decreases PRIOS - i
  {
    if i < PRIOS { ClimbDown(nprio, ready, i + 1); }
  }

  // ---- what the primitives leave alone ----

  // Only task t and its places in the lists outside the ready list differ.
  ghost predicate Only(s: S, d: S, t: Tid) {
    && t in s.tasks && t in d.tasks && d.tasks == s.tasks[t := d.tasks[t]]
    && (forall q | q in s.queues && !q.Node? :: q in d.queues && Remove(d.queues[q], t) == Remove(s.queues[q], t))
    && (forall q | q in d.queues && !q.Node? :: q in s.queues)
  }

  lemma OnlyTwice(s: S, d: S, e: S, t: Tid)
    requires Only(s, d, t) && Only(d, e, t)
    ensures Only(s, e, t)
  {
    hide Remove;
  }

  lemma OnlyPut(s: S, t: Tid, r: Task)
    requires t in s.tasks
    ensures Only(s, Put(s, t, r), t)
  {
    hide Remove;
  }

  // Lists that hold t neither before nor after are the same; the others have the same others.
  lemma OnlyElsewhere(s: S, d: S, t: Tid)
    requires Links(s) && Links(d) && Only(s, d, t)
    ensures forall q | q in s.queues && q in d.queues && !q.Node? && s.tasks[t].inode != In(q) && d.tasks[t].inode != In(q) ::
              d.queues[q] == s.queues[q]
    ensures forall q, x {:trigger x in d.queues[q]} {:trigger x in s.queues[q]} | q in s.queues && q in d.queues && !q.Node? && x != t ::
              x in d.queues[q] <==> x in s.queues[q]
    ensures forall q | q in s.queues && q in d.queues && !q.Node? ::
              |d.queues[q]| + (if s.tasks[t].inode == In(q) then 1 else 0)
              == |s.queues[q]| + (if d.tasks[t].inode == In(q) then 1 else 0)
  {
    forall q | q in s.queues && q in d.queues && !q.Node?
      ensures s.tasks[t].inode != In(q) && d.tasks[t].inode != In(q) ==> d.queues[q] == s.queues[q]
      ensures forall x | x != t :: x in d.queues[q] <==> x in s.queues[q]
      ensures |d.queues[q]| + (if s.tasks[t].inode == In(q) then 1 else 0)
              == |s.queues[q]| + (if d.tasks[t].inode == In(q) then 1 else 0)
    {
      RemoveFacts(s.queues[q], t);
      RemoveFacts(d.queues[q], t);
      if t !in s.queues[q] { RemoveNone(s.queues[q], t); }
      if t !in d.queues[q] { RemoveNone(d.queues[q], t); }
    }
  }

  ghost predicate SameQueues(s: S, d: S) {
    && (forall q | q in s.queues && !q.Node? :: q in d.queues && d.queues[q] == s.queues[q])
    && (forall q | q in d.queues && !q.Node? :: q in s.queues)
  }

  ghost predicate SamePrio(s: S, d: S) {
    && d.tasks.Keys == s.tasks.Keys
    && (forall t | t in s.tasks :: d.tasks[t].prio == s.tasks[t].prio && d.tasks[t].base == s.tasks[t].base)
  }

  lemma SortedKept(s: S, d: S)
    requires QueuesSorted(s) && Prios(s) && SameQueues(s, d) && SamePrio(s, d)
    ensures QueuesSorted(d) && Prios(d)
  {
    forall q | q in d.queues && PrioQ(q) ensures Sorted(d, d.queues[q]) {
      assert Sorted(s, s.queues[q]);
    }
  }

  // ---- the ready list ----

  // t became ready and is linked on some node; nothing else changed for any task.
  ghost predicate Readied(s: S, d: S, t: Tid) {
    && t in s.tasks && t in d.tasks
    && d.tasks == s.tasks[t := s.tasks[t].(state := Ready, elem := d.tasks[t].elem, inode := In(Node(d.tasks[t].elem)))]
    && Only(s, d, t)
  }

  // t is put on the list of node n, which has its priority and is on the ready list of d.
  ghost predicate PutOnNode(s: S, d: S, t: Tid, n: nat, i: nat) {
    && t in s.tasks && s.tasks[t].inode.Off? && Node(n) in s.queues && i <= |s.queues[Node(n)]|
    && d.tasks == s.tasks[t := s.tasks[t].(state := Ready, elem := n, inode := In(Node(n)))]
    && d.queues == s.queues[Node(n) := Insert(s.queues[Node(n)], i, t)]
    && d.bug == s.bug && n in d.nprio && d.nprio[n] == s.tasks[t].prio
    && i == |s.queues[Node(n)]| && d.line == Came(s.line, t)
  }

  lemma PutOnNodeLine(s: S, d: S, t: Tid, n: nat, i: nat)
    requires Links(s) && InLine(s) && PutOnNode(s, d, t, n, i)
    ensures InLine(d)
  {
    hide Insert, InLine, Links, NoDup;
    var e := ListInsert(s, Node(n), i, t);
    LineInsert(s, Node(n), i, t);
    LineKept(e, d);
  }

  lemma PutOnNodeLinks(s: S, d: S, t: Tid, n: nat, i: nat)
    requires Links(s) && PutOnNode(s, d, t, n, i)
    ensures Links(d)
  {
    InsertFacts(s.queues[Node(n)], i, t);
    hide Insert, NoDup;
  }

  lemma PutOnNodePrio(s: S, d: S, t: Tid, n: nat, i: nat)
    requires Links(s) && NodePrio(s) && PutOnNode(s, d, t, n, i)
    requires forall m | m != n && m in s.nprio :: m in d.nprio && d.nprio[m] == s.nprio[m]
    requires s.queues[Node(n)] != [] ==> n in s.nprio && s.nprio[n] == d.nprio[n]
    ensures NodePrio(d)
  {
    InsertFacts(s.queues[Node(n)], i, t);
    hide Insert, NoDup;
  }

  lemma PutOnNodeRest(s: S, d: S, t: Tid, n: nat, i: nat)
    requires QueuesSorted(s) && Prios(s) && PutOnNode(s, d, t, n, i)
    ensures QueuesSorted(d) && Prios(d) && Readied(s, d, t)
  {
    hide Insert, QueuesSorted, Prios, Sorted;
    assert SameQueues(s, d) && SamePrio(s, d);
    SortedKept(s, d);
  }

  lemma JoinNode(s: S, t: Tid, n: nat)
    requires Core(s) && t in s.tasks && s.tasks[t].inode.Off? && n in s.ready && s.nprio[n] == s.tasks[t].prio
    ensures var d := InsertEnd(Put(s, t, s.tasks[t].(state := Ready, elem := n)), Node(n), t);
            Core(d) && Readied(s, d, t)
  {
    hide NoDup, Links, NodePrio, QueuesSorted, Prios, Readied, Ascending, Insert, InLine;
    var d := InsertEnd(Put(s, t, s.tasks[t].(state := Ready, elem := n)), Node(n), t);
    var i := |s.queues[Node(n)]|;
    assert PutOnNode(s, d, t, n, i);
    PutOnNodeLinks(s, d, t, n, i);
    PutOnNodePrio(s, d, t, n, i);
    PutOnNodeRest(s, d, t, n, i);
    PutOnNodeLine(s, d, t, n, i);
    assert NodeOrder(d) by { assert d.queues[Node(n)] != []; }
  }

  lemma OpenNode(s: S, t: Tid, n: nat, i: nat)
    requires Core(s) && t in s.tasks && s.tasks[t].inode.Off? && s.tasks[t].prio <= PRIOS
    requires s.free != [] && n == s.free[0] && i <= |s.ready|
    requires forall j | 0 <= j < i :: s.nprio[s.ready[j]] < s.tasks[t].prio
    requires forall j | i <= j < |s.ready| :: s.tasks[t].prio < s.nprio[s.ready[j]]
    ensures var d := InsertEnd(Opened(Put(s, t, s.tasks[t].(state := Ready, elem := n)), n, i, s.tasks[t].prio), Node(n), t);
            Core(d) && Readied(s, d, t)
  {
    var p := s.tasks[t].prio;
    NewNodeOrder(s, p, n, i);
    hide NoDup, Links, NodePrio, QueuesSorted, Prios, Readied, Ascending, Insert, InLine;
    assert n in s.free;
    assert s.queues[Node(n) := []] == s.queues;
    var d := InsertEnd(Opened(Put(s, t, s.tasks[t].(state := Ready, elem := n)), n, i, p), Node(n), t);
    assert PutOnNode(s, d, t, n, 0);
    NodeOpened(s, d, t, n);
    hide NodeOrder;
    PutOnNodeLinks(s, d, t, n, 0);
    PutOnNodePrio(s, d, t, n, 0);
    PutOnNodeRest(s, d, t, n, 0);
    PutOnNodeLine(s, d, t, n, 0);
  }

  lemma NodeOpened(s: S, d: S, t: Tid, n: nat)
    requires NodeOrder(s) && s.free != [] && n == s.free[0] && PutOnNode(s, d, t, n, 0)
    requires d.free == s.free[1..] && d.nprio.Keys == s.nprio.Keys
    requires NoDup(d.ready) && NoDup(d.free) && Ascending(d.nprio, d.ready) && |d.ready| == |s.ready| + 1
    requires forall m :: m in d.ready <==> m == n || m in s.ready
    requires forall m :: m in d.free <==> m in s.free && m != n
    ensures NodeOrder(d)
  {
    hide NoDup, Ascending, Insert;
    assert n in s.free;
    assert d.queues[Node(n)] != [];
    assert forall m: nat | m != n && Node(m) in s.queues :: d.queues[Node(m)] == s.queues[Node(m)];
  }

  lemma NewNodeOrder(s: S, p: nat, n: nat, i: nat)
    requires NodeOrder(s) && p <= PRIOS && s.free != [] && n == s.free[0] && i <= |s.ready|
    requires forall j | 0 <= j < i :: s.nprio[s.ready[j]] < p
    requires forall j | i <= j < |s.ready| :: p < s.nprio[s.ready[j]]
    ensures NoDup(Insert(s.ready, i, n)) && NoDup(s.free[1..])
    ensures Ascending(s.nprio[n := p], Insert(s.ready, i, n))
    ensures forall m :: m in Insert(s.ready, i, n) <==> m == n || m in s.ready
    ensures forall m :: m in s.free[1..] <==> m in s.free && m != n
  {
    InsertFacts(s.ready, i, n);
    assert n !in s.ready;
    var r := Insert(s.ready, i, n);
    hide Insert;
    forall j | 0 <= j < |r| ensures r[j] == if j < i then s.ready[j] else if j == i then n else s.ready[j - 1] {}
    assert forall m :: m in s.free <==> m == n || m in s.free[1..] by { assert s.free == [n] + s.free[1..]; }
  }

  // add_ready_list never runs out of nodes: when none is free, every priority has its node.
  lemma AddReadyOk(s: S, t: Tid)
    requires Core(s) && t in s.tasks && s.tasks[t].inode.Off?
    requires !s.tasks[t].state.Ready? && !s.tasks[t].state.Zombie?
    ensures Core(AddReady(s, t)) && Readied(s, AddReady(s, t), t)
  {
    var p := s.tasks[t].prio;
    var i := NodePos(s.nprio, s.ready, p);
    NodePosFacts(s.nprio, s.ready, p);
    if i < |s.ready| && s.nprio[s.ready[i]] == p {
      JoinNode(s, t, s.ready[i]);
    } else {
      if s.free == [] { AllPrioritiesPresent(s.nprio, s.ready, p); }
      assert s.free != [];
      OpenNode(s, t, s.free[0], i);
    }
  }

  // ---- leaving a list ----

  // t is linked nowhere in d.
  ghost predicate Unlinked(s: S, d: S, t: Tid) {
    t in s.tasks && d.tasks == s.tasks[t := s.tasks[t].(inode := Off)] && Only(s, d, t)
  }

  lemma OnlyDelete(s: S, t: Tid)
    requires Links(s) && t in s.tasks && s.tasks[t].inode.In?
    ensures Only(s, ListDelete(s, t), t)
  {
    var q := s.tasks[t].inode.q;
    RemoveFacts(s.queues[q], t);
    RemoveNone(Remove(s.queues[q], t), t);
  }

  lemma SortedRemove(s: S, ts: seq<Tid>, t: Tid)
    requires Sorted(s, ts) && t in ts
    ensures Sorted(s, Remove(ts, t))
  {
    var i := RemoveAt(ts, t);
    var r := Remove(ts, t);
    hide Remove;
    forall a | 0 <= a < |r| ensures r[a] in s.tasks { assert r[a] == ts[if a < i then a else a + 1]; }
    forall a, b | 0 <= a < b < |r| ensures s.tasks[r[a]].prio <= s.tasks[r[b]].prio {
      assert r[a] == ts[if a < i then a else a + 1] && r[b] == ts[if b < i then b else b + 1];
    }
  }

  lemma DeleteSorted(s: S, t: Tid)
    requires Links(s) && QueuesSorted(s) && Prios(s) && t in s.tasks && s.tasks[t].inode.In?
    ensures QueuesSorted(ListDelete(s, t)) && Prios(ListDelete(s, t))
  {
    hide NoDup, Remove;
    var d := ListDelete(s, t);
    forall q | q in d.queues && PrioQ(q) ensures Sorted(d, d.queues[q]) {
      assert Sorted(s, s.queues[q]);
      if In(q) == s.tasks[t].inode { SortedRemove(s, s.queues[q], t); }
      assert Sorted(s, d.queues[q]);
    }
  }

  lemma DeletePrio(s: S, t: Tid)
    requires Links(s) && NodePrio(s) && t in s.tasks && s.tasks[t].inode.In?
    ensures NodePrio(ListDelete(s, t))
  {
    RemoveFacts(s.queues[s.tasks[t].inode.q], t);
    hide NoDup, Remove;
  }

  // list_delete of a task that is not on the ready list
  lemma DeleteOk(s: S, t: Tid)
    requires Core(s) && t in s.tasks && s.tasks[t].inode.In? && !s.tasks[t].inode.q.Node?
    ensures Core(ListDelete(s, t)) && Unlinked(s, ListDelete(s, t), t)
  {
    LinksDelete(s, t);
    DeleteSorted(s, t);
    DeletePrio(s, t);
    OnlyDelete(s, t);
    LineDelete(s, t);
    hide NoDup, Ascending, NodePrio, QueuesSorted, Prios, Remove, Only, InLine;
  }

  lemma EmptyNode(s: S, n: nat)
    requires NodeOrder(s) && n in s.ready
    ensures NoDup(Remove(s.ready, n)) && NoDup(s.free + [n]) && Ascending(s.nprio, Remove(s.ready, n))
    ensures forall m :: m in Remove(s.ready, n) <==> m in s.ready && m != n
    ensures |Remove(s.ready, n)| == |s.ready| - 1
  {
    RemoveFacts(s.ready, n);
    var i := RemoveAt(s.ready, n);
    var r := Remove(s.ready, n);
    hide Remove;
    forall j | 0 <= j < |r| ensures r[j] == s.ready[if j < i then j else j + 1] {}
  }

  // The node lists alone do not matter to the task lists.
  lemma SameLists(s: S, d: S)
    requires d == s.(ready := d.ready, free := d.free)
    requires Links(s) && NodePrio(s) && QueuesSorted(s) && Prios(s) && InLine(s)
    ensures Links(d) && NodePrio(d) && QueuesSorted(d) && Prios(d) && InLine(d)
  {
    hide NoDup, InLine;
    assert InLine(d) by { LineKept(s, d); }
    assert forall q | q in d.queues && PrioQ(q) :: Sorted(s, s.queues[q]) ==> Sorted(d, d.queues[q]);
  }

  lemma {:induction false} DelReadyNode(s: S, t: Tid)
    requires Links(s) && NodeOrder(s) && t in s.tasks && s.tasks[t].inode == In(Node(s.tasks[t].elem))
    ensures NodeOrder(DelReady(s, t)) && DelReady(s, t).bug == s.bug
  {
    var n := s.tasks[t].elem;
    assert n in s.ready;
    EmptyNode(s, n);
    hide NoDup, Ascending, Remove;
  }

  // delete_from_ready_list
  lemma DelReadyOk(s: S, t: Tid)
    requires Core(s) && t in s.tasks && s.tasks[t].inode == In(Node(s.tasks[t].elem))
    ensures Core(DelReady(s, t)) && Unlinked(s, DelReady(s, t), t)
  {
    var n := s.tasks[t].elem;
    var l := ListDelete(s, t);
    LinksDelete(s, t);
    DeleteSorted(s, t);
    DeletePrio(s, t);
    DelReadyNode(s, t);
    OnlyDelete(s, t);
    LineDelete(s, t);
    hide NoDup, Ascending, NodePrio, QueuesSorted, Prios, Remove, Links, NodeOrder, Sorted, InLine;
    var d := DelReady(s, t);
    SameLists(l, d);
  }

  // ---- joining a wait queue ----

  // t was put on the list q.
  ghost predicate Enqueued(s: S, d: S, q: Qid, t: Tid) {
    t in s.tasks && d.tasks == s.tasks[t := s.tasks[t].(inode := In(q))] && Only(s, d, t)
  }

  lemma SortedInsert(s: S, ts: seq<Tid>, i: nat, t: Tid)
    requires Sorted(s, ts) && t in s.tasks && i <= |ts|
    requires forall j | 0 <= j < |ts| :: j < i <==> s.tasks[ts[j]].prio <= s.tasks[t].prio
    ensures Sorted(s, Insert(ts, i, t))
  {
    var r := Insert(ts, i, t);
    hide Insert;
    forall a | 0 <= a < |r| ensures r[a] in s.tasks {
      assert r[a] == if a < i then ts[a] else if a == i then t else ts[a - 1];
    }
    forall a, b | 0 <= a < b < |r| ensures s.tasks[r[a]].prio <= s.tasks[r[b]].prio {
      assert r[a] == if a < i then ts[a] else if a == i then t else ts[a - 1];
      assert r[b] == if b < i then ts[b] else if b == i then t else ts[b - 1];
    }
  }

  lemma InsertOk(s: S, q: Qid, i: nat, t: Tid)
    requires Core(s) && t in s.tasks && s.tasks[t].inode.Off? && q in s.queues && !q.Node? && i <= |s.queues[q]|
    requires PrioQ(q) ==> Sorted(s, Insert(s.queues[q], i, t))
    requires if PrioQ(q) then forall j | i <= j < |s.queues[q]| :: !SameUrgency(s, t, s.queues[q][j]) else i == |s.queues[q]|
    ensures Core(ListInsert(s, q, i, t)) && Enqueued(s, ListInsert(s, q, i, t), q, t)
  {
    hide Links, NoDup, Ascending, Insert, Remove, QueuesSorted, Only, InLine;
    LineInsert(s, q, i, t);
    LinksInsert(s, q, i, t);
    InsertSorted(s, q, i, t);
    InsertOnly(s, q, i, t);
  }

  lemma InsertSorted(s: S, q: Qid, i: nat, t: Tid)
    requires QueuesSorted(s) && t in s.tasks && q in s.queues && i <= |s.queues[q]|
    requires PrioQ(q) ==> Sorted(s, Insert(s.queues[q], i, t))
    ensures QueuesSorted(ListInsert(s, q, i, t))
  {
    hide NoDup, Insert, Remove;
    var d := ListInsert(s, q, i, t);
    forall p | p in d.queues && PrioQ(p) ensures Sorted(d, d.queues[p]) {
      assert p != q ==> Sorted(s, s.queues[p]);
      assert Sorted(s, d.queues[p]);
    }
  }

  lemma InsertOnly(s: S, q: Qid, i: nat, t: Tid)
    requires Links(s) && t in s.tasks && s.tasks[t].inode.Off? && q in s.queues && i <= |s.queues[q]|
    ensures Only(s, ListInsert(s, q, i, t), t)
  {
    RemoveInsert(s.queues[q], i, t);
    RemoveNone(s.queues[q], t);
    hide Insert, Remove;
  }

  // _isixp_add_to_prio_queue keeps the queue sorted.
  lemma AddToPrioQueueOk(s: S, q: Qid, t: Tid)
    requires Core(s) && t in s.tasks && s.tasks[t].inode.Off? && q in s.queues && PrioQ(q)
    ensures Core(AddToPrioQueue(s, q, t)) && Enqueued(s, AddToPrioQueue(s, q, t), q, t)
  {
    var ts := s.queues[q];
    var i := PrioPos(s.tasks, ts, s.tasks[t].prio);
    assert Sorted(s, ts);
    PrioPosFacts(s, ts, s.tasks[t].prio);
    SortedInsert(s, ts, i, t);
    InsertOk(s, q, i, t);
  }

  lemma InsertEndOk(s: S, q: Qid, t: Tid)
    requires Core(s) && t in s.tasks && s.tasks[t].inode.Off? && q in s.queues && !q.Node? && !PrioQ(q)
    ensures Core(InsertEnd(s, q, t)) && Enqueued(s, InsertEnd(s, q, t), q, t)
  {
    InsertOk(s, q, |s.queues[q]|, t);
  }

  // A task on no list that depends on it may change its fields, and its priority.
  lemma CoreFloating(s: S, t: Tid, r: Task)
    requires Core(s) && t in s.tasks && r.inode == s.tasks[t].inode && (r.inode.In? ==> !r.inode.q.Node? && !PrioQ(r.inode.q))
    requires r.prio <= r.base <= PRIOS
    ensures Core(Put(s, t, r))
  {
    hide NoDup, InLine;
    var d := Put(s, t, r);
    LinePut(s, t, r);
    forall q | q in d.queues && PrioQ(q) ensures Sorted(d, d.queues[q]) {
      assert Sorted(s, s.queues[q]);
      forall i | 0 <= i < |s.queues[q]| ensures s.queues[q][i] != t { assert s.queues[q][i] in s.queues[q]; }
    }
  }

  // ---- _isixp_reallocate_priority ----

  // t has priority p; it is ready when it was ready or running, and in its old queue otherwise.
  ghost predicate Moved(s: S, d: S, t: Tid, p: nat) {
    && t in s.tasks && t in d.tasks
    && d.tasks == s.tasks[t := d.tasks[t]]
    && d.tasks[t] == (if s.tasks[t].state.Ready? || s.tasks[t].state.Running?
                      then s.tasks[t].(prio := p, state := Ready, elem := d.tasks[t].elem, inode := In(Node(d.tasks[t].elem)))
                      else s.tasks[t].(prio := p))
    && Only(s, d, t)
  }

  lemma ReallocReady(s: S, t: Tid, p: nat)
    requires Core(s) && t in s.tasks && p <= s.tasks[t].base && StateOk(s.tasks[t])
    requires s.tasks[t].state.Ready? || s.tasks[t].state.Running?
    ensures Core(Realloc(s, t, p)) && Moved(s, Realloc(s, t, p), t, p)
  {
    hide Core, DelReady, AddReady;
    assert s.tasks[t].base <= PRIOS by { CorePrios(s, t); }
    DelReadyOk(s, t);
    var l := DelReady(s, t);
    var u := SetState(SetPrio(l, t, p), t, Schedule);
    assert u == Put(l, t, l.tasks[t].(prio := p, state := Schedule));
    CoreFloating(l, t, l.tasks[t].(prio := p, state := Schedule));
    AddReadyOk(u, t);
    hide Only;
    OnlyPut(l, t, l.tasks[t].(prio := p, state := Schedule));
    OnlyTwice(s, l, u, t);
    OnlyTwice(s, u, AddReady(u, t), t);
  }

  lemma CorePrios(s: S, t: Tid)
    requires Core(s) && t in s.tasks
    ensures s.tasks[t].prio <= s.tasks[t].base <= PRIOS && !s.bug
  {
  }

  lemma RequeueOk(s: S, q: Qid, t: Tid, p: nat)
    requires Core(s) && t in s.tasks && p <= s.tasks[t].base && s.tasks[t].inode == In(q) && PrioQ(q) && q in s.queues
    requires !s.tasks[t].state.Ready? && !s.tasks[t].state.Running?
    ensures Core(Requeue(s, q, t, p)) && Moved(s, Requeue(s, q, t, p), t, p)
  {
    hide Core, ListDelete, AddToPrioQueue, Only;
    CorePrios(s, t);
    CoreLinked(s, t);
    DeleteOk(s, t);
    var l := ListDelete(s, t);
    var u := SetPrio(l, t, p);
    CoreFloating(l, t, l.tasks[t].(prio := p));
    OnlyQueues(s, l, t);
    AddToPrioQueueOk(u, q, t);
    OnlyPut(l, t, l.tasks[t].(prio := p));
    OnlyTwice(s, l, u, t);
    OnlyTwice(s, u, AddToPrioQueue(u, q, t), t);
  }

  lemma OnlyQueues(s: S, d: S, t: Tid)
    requires Only(s, d, t)
    ensures forall q: Qid | !q.Node? :: q in d.queues <==> q in s.queues
  {
    hide Remove;
  }

  lemma CoreLinked(s: S, t: Tid)
    requires Core(s) && t in s.tasks && s.tasks[t].inode.In?
    ensures s.tasks[t].inode.q in s.queues && t in s.queues[s.tasks[t].inode.q]
  {
  }

  lemma SetPrioOk(s: S, t: Tid, p: nat)
    requires Core(s) && t in s.tasks && p <= s.tasks[t].base
    requires s.tasks[t].inode.In? ==> !s.tasks[t].inode.q.Node? && !PrioQ(s.tasks[t].inode.q)
    requires !s.tasks[t].state.Ready? && !s.tasks[t].state.Running?
    ensures Core(SetPrio(s, t, p)) && Moved(s, SetPrio(s, t, p), t, p)
  {
    hide Core, Only;
    CorePrios(s, t);
    CoreFloating(s, t, s.tasks[t].(prio := p));
    OnlyPut(s, t, s.tasks[t].(prio := p));
  }

  lemma ReallocOk(s: S, t: Tid, p: nat)
    requires Core(s) && t in s.tasks && p <= s.tasks[t].base && StateOk(s.tasks[t])
    ensures Core(Realloc(s, t, p)) && Moved(s, Realloc(s, t, p), t, p)
  {
    hide Core, Moved, Requeue, SetPrio;
    var r := s.tasks[t];
    if r.state.Ready? || r.state.Running? {
      ReallocReady(s, t, p);
    } else if r.state.WtSem? || r.state.WtMtx? || r.state.WtCond? {
      CoreLinked(s, t);
      RequeueOk(s, r.inode.q, t, p);
    } else {
      SetPrioOk(s, t, p);
    }
  }
}
