/**
 Which of several equally urgent tasks runs next.  _isixp_schedule (libisix/kernel/scheduler.c)
 puts the running task behind the others of its node and takes the first one, so the task that
 has waited longest runs, and every one of them has its turn.
 */
module KernelFair {
  import opened Lists
  import opened KernelState
  import opened KernelCalls
  import opened KernelLists
  import opened KernelInv
  import opened KernelWake
  import opened KernelObjects
  import opened KernelEvents
  import opened KernelTasks
  import opened KernelSched
  import opened KernelRun

  // The tasks that can run and are as urgent as any of those.
  ghost function Urgent(s: S): set<Tid> { set t | t in s.tasks && Runnable(s, t) && MostUrgent(s, t) }

  // The list of the first node.
  function Head(s: S): seq<Tid> { if s.ready == [] then [] else Queue(s, Node(s.ready[0])) }

  lemma HeadRuns(s: S, t: Tid)
    requires Core(s) && States(s, {}) && s.ready != [] && t in Head(s)
    ensures t in s.tasks && Runnable(s, t) && s.ready[0] in s.nprio && s.tasks[t].prio == s.nprio[s.ready[0]]
  {
    hide NodeOrder, QueuesSorted, Prios, NoDup, InLine;
    assert t in s.queues[Node(s.ready[0])];
    assert StateOk(s.tasks[t]);
  }

  lemma UrgentAtHead(s: S, t: Tid)
    requires Core(s) && States(s, {}) && Runnable(s, IDLE) && Runnable(s, t) && MostUrgent(s, t)
    ensures t in Head(s)
  {
    hide QueuesSorted, Prios, NoDup, InLine;
    HeadThere(s);
    assert StateOk(s.tasks[t]);
    var e := s.tasks[t].elem;
    assert t in s.queues[Node(e)];
    assert e in s.ready;
    var i :| 0 <= i < |s.ready| && s.ready[i] == e;
  }

  lemma HeadIsUrgent(k: K)
    requires Inv(k)
    ensures Head(k.s) != [] && NoDup(Head(k.s)) && (forall t :: t in Head(k.s) <==> t in Urgent(k.s))
  {
    hide InvBut, Core, States, NoDup, MostUrgent, Head;
    CoreOf(k, k.sems, k.mtx);
    IdleRuns(k);
    FirstNode(k.s);
    forall t | t in Head(k.s) ensures t in Urgent(k.s) {
      HeadRuns(k.s, t);
      HeadUrgent(k.s, t);
    }
    forall t | t in Urgent(k.s) ensures t in Head(k.s) { UrgentAtHead(k.s, t); }
  }

  lemma FirstNode(s: S)
    requires Core(s) && States(s, {}) && Runnable(s, IDLE)
    ensures s.ready != [] && Node(s.ready[0]) in s.queues && Head(s) == s.queues[Node(s.ready[0])] != [] && NoDup(Head(s))
  {
    hide Core, States, NoDup;
    HeadThere(s);
    QueueNoDup(s, Node(s.ready[0]));
  }

  lemma HeadUrgent(s: S, t: Tid)
    requires Core(s) && States(s, {}) && s.ready != [] && s.ready[0] in s.nprio && t in s.tasks && s.tasks[t].prio == s.nprio[s.ready[0]]
    ensures MostUrgent(s, t)
  {
    hide Core, States;
    forall x | Runnable(s, x) ensures s.tasks[t].prio <= s.tasks[x].prio { HeadMostUrgent(s, x); }
  }

  // ---- one switch ----

  // The first of the node runs, and the node stays as it is.
  lemma SwitchHead(k: K)
    requires Inv(k)
    ensures var r := Rotate(k.s, k.current); var d := Switch(k); Head(r) != [] && d.current == Head(r)[0] && Head(d.s) == Head(r)
  {
    hide InvBut, Core, States, Rotate, Tame, MostUrgent;
    RotateInv(k);
    var r := Rotate(k.s, k.current);
    var k1 := k.(s := r);
    CoreOf(k1, k1.sems, k1.mtx);
    IdleRuns(k1);
    HeadThere(r);
  }

  // The running task of the node goes to its end.
  lemma RotateHead(k: K)
    requires Inv(k) && k.current in k.s.tasks && k.s.tasks[k.current].state.Running? && Head(k.s) != [] && Head(k.s)[0] == k.current
    ensures Head(Rotate(k.s, k.current)) == Head(k.s)[1..] + [k.current]
  {
    hide InvBut, Core, States, Rotate, Insert;
    CoreOf(k, k.sems, k.mtx);
    StateOf(k, k.current, k.sems, k.mtx);
    RotateIs(k.s, k.current);
    HeadRuns(k.s, k.current);
    OnList(k.s, k.current, Node(k.s.ready[0]));
    assert Remove(Head(k.s), k.current) == Head(k.s)[1..];
  }

  // ---- who has waited longest ----

  // The number of the insertion that put x on its list.
  function Since(s: S, x: Tid): nat { if x in s.line.since then s.line.since[x] else 0 }

  lemma HeadWaited(s: S, i: nat)
    requires Core(s) && 0 < i < |Head(s)|
    ensures Since(s, Head(s)[0]) < Since(s, Head(s)[i]) < s.line.turn
  {
    hide Links, NodeOrder, NodePrio, QueuesSorted, Prios;
    assert Waited(s, Node(s.ready[0]), Head(s));
    assert CameBefore(s.line, Head(s)[0], Head(s)[i]) && Counted(s.line, Head(s)[i]);
  }

  lemma RotateSince(k: K, x: Tid)
    requires Inv(k) && k.current in k.s.tasks
    ensures var r := Rotate(k.s, k.current);
            if k.s.tasks[k.current].state.Running?
            then r.line.turn == k.s.line.turn + 1 && Since(r, x) == if x == k.current then k.s.line.turn else Since(k.s, x)
            else r == k.s
  {
    hide InvBut, Core, States, Rotate;
    CoreOf(k, k.sems, k.mtx);
    StateOf(k, k.current, k.sems, k.mtx);
    if k.s.tasks[k.current].state.Running? { RotateIs(k.s, k.current); } else { NoRotate(k.s, k.current); }
  }

  lemma RotateUrgent(k: K)
    requires Inv(k)
    ensures Urgent(Rotate(k.s, k.current)) == Urgent(k.s)
  {
    hide InvBut, Core, States, Rotate, Tame;
    RotateInv(k);
    CurrentThere(k);
    CoreOf(k, k.sems, k.mtx);
    RotateOk(k.s, k.current);
    SameUrgent(k.s, Rotate(k.s, k.current), k.current);
  }

  lemma SameUrgent(s: S, d: S, t: Tid)
    requires Only(s, d, t) && d.tasks[t].prio == s.tasks[t].prio && (Runnable(d, t) <==> Runnable(s, t))
    ensures Urgent(d) == Urgent(s)
  {
    hide Remove;
    assert forall x :: Runnable(d, x) <==> Runnable(s, x);
    assert forall x | x in s.tasks :: d.tasks[x].prio == s.tasks[x].prio;
  }

  // Of the most urgent tasks the one that has waited longest is the next to run; the running
  // task has waited least, and runs again only when it is alone.
  lemma LongestWaiting(k: K)
    requires Inv(k)
    ensures var t := Switch(k).current; var c := k.current;
            && c in k.s.tasks && t in Urgent(k.s)
            && (forall y | y in Urgent(k.s) && y != t && !(y == c && k.s.tasks[c].state.Running?) :: Since(k.s, t) < Since(k.s, y))
            && (t == c && k.s.tasks[c].state.Running? ==> Urgent(k.s) == {c})
  {
    hide InvBut, Core, States, Rotate, Switch, Urgent, Head, NoDup, Since;
    CurrentThere(k);
    RotateInv(k);
    var r := Rotate(k.s, k.current);
    var k1 := k.(s := r);
    HeadIsUrgent(k1);
    RotateUrgent(k);
    SwitchHead(k);
    CoreOf(k1, k1.sems, k1.mtx);
    var t := Head(r)[0];
    assert t in Head(r);
    RotateSince(k, t);
    forall y | y in Urgent(k.s) && y != t
      ensures Since(r, t) < Since(r, y) < r.line.turn && (y != k.current ==> Since(r, y) == Since(k.s, y))
    {
      var i :| 0 <= i < |Head(r)| && Head(r)[i] == y;
      HeadWaited(r, i);
      RotateSince(k, y);
    }
  }

  // ---- a round of switches ----

  function Turns(n: nat): seq<Op> { seq(n, _ => Preempt) }

  lemma FirstTurn(k: K, n: nat)
    ensures Final(k, Turns(n + 1)) == Final(Switch(k), Turns(n))
  {
    hide Switch;
    assert Turns(n + 1)[1..] == Turns(n);
  }

  lemma {:induction false} TurnOf(k: K, i: nat)
    requires Inv(k) && i < |Head(Switch(k).s)|
    ensures Final(k, Turns(i + 1)).current == Head(Switch(k).s)[i]
    decreases i
  {
    hide InvBut, Switch, Head, Rotate, Final, Turns, Tame, MostUrgent;
    SwitchInv(k);
    SwitchHead(k);
    var d := Switch(k);
    FirstTurn(k, i);
    if i == 0 {
      NoTurn(d);
    } else {
      CurrentThere(d);
      RotateHead(d);
      SwitchHead(d);
      TurnOf(d, i - 1);
    }
  }

  lemma NoTurn(k: K)
    ensures Final(k, Turns(0)) == k
  {
  }

  lemma {:induction false} TurnsLawful(k: K, n: nat)
    ensures Lawful(k, Turns(n))
    decreases n
  {
    hide Apply;
    if n > 0 {
      assert Turns(n)[1..] == Turns(n - 1);
      TurnsLawful(Apply(k, Preempt).k, n - 1);
    }
  }

  lemma SwitchUrgent(k: K)
    requires Inv(k)
    ensures var q := Head(Switch(k).s); NoDup(q) && (forall t :: t in q <==> t in Urgent(k.s))
  {
    hide InvBut, Switch, Head, Rotate, Urgent, Tame, NoDup;
    RotateInv(k);
    HeadIsUrgent(k.(s := Rotate(k.s, k.current)));
    RotateUrgent(k);
    SwitchHead(k);
  }

  lemma {:induction false} AsMany(q: seq<Tid>, u: set<Tid>)
    requires NoDup(q) && (forall t :: t in q <==> t in u)
    ensures |q| == |u|
    decreases |q|
  {
    if q != [] {
      var t := q[0];
      forall x ensures x in q[1..] <==> x in u - {t} { assert x in q <==> x == t || x in q[1..]; }
      AsMany(q[1..], u - {t});
    } else {
      assert u == {};
    }
  }

  // In every run: when n tasks are as urgent as any that can run, n switches without another
  // step run each of them, once.
  lemma EachRunsOnce(ops: seq<Op>)
    requires Lawful(Boot(), ops)
    ensures var k := Final(Boot(), ops); var n := |Urgent(k.s)|;
            && n > 0 && Lawful(k, Turns(n))
            && (forall i | 1 <= i <= n :: Final(k, Turns(i)).current in Urgent(k.s))
            && (forall t | t in Urgent(k.s) :: exists i :: 1 <= i <= n && Final(k, Turns(i)).current == t)
            && (forall i, j | 1 <= i < j <= n :: Final(k, Turns(i)).current != Final(k, Turns(j)).current)
  {
    hide InvBut, Boot, Lawful, Final, Turns, Switch, Head, Urgent;
    EveryRunIsSafe(ops);
    var k := Final(Boot(), ops);
    var q := Head(Switch(k).s);
    SwitchUrgent(k);
    AsMany(q, Urgent(k.s));
    SwitchHead(k);
    TurnsLawful(k, |q|);
    forall i | 1 <= i <= |q| ensures Final(k, Turns(i)).current == q[i - 1] { TurnOf(k, i - 1); }
    forall t | t in Urgent(k.s) ensures exists i :: 1 <= i <= |q| && Final(k, Turns(i)).current == t {
      var i :| 0 <= i < |q| && q[i] == t;
      assert Final(k, Turns(i + 1)).current == t;
    }
  }
}
