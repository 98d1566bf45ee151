/**
 The circular doubly linked lists of libisix/include/isix/prv/list.h, as nodes in the heap.
 Each operation on the links is the operation on sequences that the kernel model uses.
 */
module ListNodes {
  import opened Lists
  import opened KernelState

  // A list_t inside a task, or the head of a list.
  class Node {
    const id: Tid
    var next: Node?
    var prev: Node?

    constructor (id: Tid)
      ensures this.id == id && next == null && prev == null
    {
      this.id := id;
      next, prev := null, null;
    }
  }

  // The i-th node around the ring, which starts and ends at the head.
  ghost function At(head: Node, xs: seq<Node>, i: nat): Node { if 1 <= i <= |xs| then xs[i - 1] else head }

  ghost predicate Linked(a: Node, b: Node)
    reads a, b
  {
    a.next == b && b.prev == a
  }

  // The nodes xs are linked in this order behind head.
  ghost predicate Ring(head: Node, xs: seq<Node>)
    reads head, xs
  {
    && head !in xs && NoDup(xs)
    && (forall i | 0 <= i <= |xs| :: Linked(At(head, xs, i), At(head, xs, i + 1)))
  }

  // list_init
  method Init(head: Node)
    modifies head
    ensures Ring(head, [])
  {
    head.next := head;
    head.prev := head;
  }

  // list_isempty
  method IsEmpty(head: Node, ghost xs: seq<Node>) returns (b: bool)
    requires Ring(head, xs)
    ensures b <==> xs == []
  {
    assert Linked(At(head, xs, 0), At(head, xs, 1));
    b := head.next == head;
  }

  // list_insert_between, for two neighbours
  method InsertBetween(a: Node, b: Node, e: Node, ghost head: Node, ghost xs: seq<Node>, ghost i: nat)
    requires Ring(head, xs) && i <= |xs| && a == At(head, xs, i) && b == At(head, xs, i + 1) && e != head && e !in xs
    modifies a, b, e
    ensures Ring(head, Insert(xs, i, e))
  {
    b.prev := e;
    a.next := e;
    e.prev := a;
    e.next := b;
    ghost var ys := Insert(xs, i, e);
    InsertFacts(xs, i, e);
    Places(head, xs, e);
    hide Insert, NoDup, At;
    forall j | 0 <= j <= |ys| ensures Linked(At(head, ys, j), At(head, ys, j + 1)) {
      InsertedAt(head, xs, i, e, j);
      InsertedAt(head, xs, i, e, j + 1);
      if j < i {
        assert old(Linked(At(head, xs, j), At(head, xs, j + 1)));
        Apart(head, xs, j, i);
      } else if j > i + 1 {
        assert old(Linked(At(head, xs, j - 1), At(head, xs, j)));
        Apart(head, xs, i, j - 1);
      }
    }
  }

  lemma Places(head: Node, xs: seq<Node>, e: Node)
    requires e != head && e !in xs
    ensures forall j: nat :: At(head, xs, j) != e
  {
  }

  lemma InsertedAt(head: Node, xs: seq<Node>, i: nat, e: Node, j: nat)
    requires i <= |xs| && j <= |xs| + 2
    ensures At(head, Insert(xs, i, e), j) == if j <= i then At(head, xs, j) else if j == i + 1 then e else At(head, xs, j - 1)
  {
  }

  lemma RemovedAt(head: Node, xs: seq<Node>, i: nat, j: nat)
    requires i < |xs| && j <= |xs|
    ensures At(head, xs[..i] + xs[i + 1..], j) == if j <= i then At(head, xs, j) else At(head, xs, j + 1)
  {
  }

  // Two links of a ring leave different nodes and reach different nodes.
  lemma Apart(head: Node, xs: seq<Node>, i: nat, j: nat)
    requires head !in xs && NoDup(xs) && i < j <= |xs|
    ensures At(head, xs, i) != At(head, xs, j) && At(head, xs, i + 1) != At(head, xs, j + 1)
  {
  }

  // list_insert_before
  method InsertBefore(before: Node, e: Node, ghost head: Node, ghost xs: seq<Node>, ghost i: nat)
    requires Ring(head, xs) && i <= |xs| && before == At(head, xs, i + 1) && e != head && e !in xs
    modifies before, At(head, xs, i), e
    ensures Ring(head, Insert(xs, i, e))
  {
    assert Linked(At(head, xs, i), At(head, xs, i + 1));
    InsertBetween(before.prev, before, e, head, xs, i);
  }

  // list_insert_end
  method InsertEnd(head: Node, e: Node, ghost xs: seq<Node>)
    requires Ring(head, xs) && e != head && e !in xs
    modifies head, xs, e
    ensures Ring(head, xs + [e])
  {
    assert Linked(At(head, xs, |xs|), At(head, xs, |xs| + 1));
    var after := head.prev;
    InsertBetween(after, after.next, e, head, xs, |xs|);
    assert Insert(xs, |xs|, e) == xs + [e];
  }

  // list_insert_first: it links the element behind the first one.
  method InsertSecond(head: Node, e: Node, ghost xs: seq<Node>)
    requires Ring(head, xs) && e != head && e !in xs
    modifies head, xs, e
    ensures Ring(head, InsertFirst(xs, e))
  {
    assert Linked(At(head, xs, 0), At(head, xs, 1));
    var after := head.next;
    if after == head {
      InsertBetween(after, after.next, e, head, xs, 0);
      assert Insert(xs, 0, e) == [e];
    } else {
      assert Linked(At(head, xs, 1), At(head, xs, 2));
      InsertBetween(after, after.next, e, head, xs, 1);
    }
  }

  // list_delete
  method Delete(e: Node, ghost head: Node, ghost xs: seq<Node>)
    requires Ring(head, xs) && e in xs
    modifies head, xs
    ensures Ring(head, Remove(xs, e)) && e.next == null && e.prev == null
  {
    ghost var i := RemoveAt(xs, e);
    assert Linked(At(head, xs, i), At(head, xs, i + 1)) && Linked(At(head, xs, i + 1), At(head, xs, i + 2));
    ghost var a, b := At(head, xs, i), At(head, xs, i + 2);
    e.prev.next := e.next;
    e.next.prev := e.prev;
    e.next := null;
    e.prev := null;
    ghost var ys := xs[..i] + xs[i + 1..];
    RemoveFacts(xs, e);
    hide Remove, NoDup, At;
    forall j | 0 <= j <= |ys| ensures Linked(At(head, ys, j), At(head, ys, j + 1)) {
      RemovedAt(head, xs, i, j);
      RemovedAt(head, xs, i, j + 1);
      if j < i {
        assert old(Linked(At(head, xs, j), At(head, xs, j + 1)));
        Apart(head, xs, j, i);
        Apart(head, xs, j, i + 1);
      } else if j > i {
        assert old(Linked(At(head, xs, j + 1), At(head, xs, j + 2)));
        Apart(head, xs, i, j + 1);
        Apart(head, xs, i + 1, j + 1);
      }
    }
  }

  ghost function Ids(xs: seq<Node>): seq<Tid> { seq(|xs|, i requires 0 <= i < |xs| => xs[i].id) }

  // _isixp_add_to_prio_queue on the nodes: the queue of the model gets the task in its place.
  method AddToPrioQueue(head: Node, e: Node, tasks: map<Tid, Task>, ghost xs: seq<Node>) returns (ghost ys: seq<Node>)
    requires Ring(head, xs) && e != head && e !in xs && e.id in tasks && (forall x | x in xs :: x.id in tasks)
    modifies head, xs, e
    ensures Ring(head, ys) && Ids(ys) == Insert(Ids(xs), PrioPos(tasks, Ids(xs), tasks[e.id].prio), e.id)
  {
    hide PrioPos, Insert;
    var p := tasks[e.id].prio;
    ghost var i := 0;
    assert Linked(At(head, xs, 0), At(head, xs, 1));
    var item := head.next;
    assert Ids(xs)[0..] == Ids(xs);
    while item != head && !(p < tasks[item.id].prio)
      invariant i <= |xs| && item == At(head, xs, i + 1)
      invariant PrioPos(tasks, Ids(xs), p) == i + PrioPos(tasks, Ids(xs)[i..], p)
      modifies {}
      decreases |xs| - i
    {
      ghost var j := i + 1;
      assert i < |xs| && item == xs[i];
      assert Linked(At(head, xs, j), At(head, xs, j + 1));
      PrioNext(tasks, Ids(xs), i, p);
      item := item.next;
      i := i + 1;
    }
    assert i < |xs| ==> item == xs[i] && xs[i] in xs;
    PrioStop(tasks, Ids(xs), i, p);
    InsertBefore(item, e, head, xs, i);
    ys := Insert(xs, i, e);
    InsertedIds(xs, i, e);
  }

  lemma InsertedIds(xs: seq<Node>, i: nat, e: Node)
    requires i <= |xs|
    ensures Ids(Insert(xs, i, e)) == Insert(Ids(xs), i, e.id)
  {
  }

  // The place where the walk stops.
  lemma PrioStop(tasks: map<Tid, Task>, ts: seq<Tid>, i: nat, p: nat)
    requires i <= |ts| && PrioPos(tasks, ts, p) == i + PrioPos(tasks, ts[i..], p)
    requires i == |ts| || (ts[i] in tasks && p < tasks[ts[i]].prio)
    ensures PrioPos(tasks, ts, p) == i
  {
  }

  lemma PrioNext(tasks: map<Tid, Task>, ts: seq<Tid>, i: nat, p: nat)
    requires i < |ts| && ts[i] in tasks && tasks[ts[i]].prio <= p
    ensures PrioPos(tasks, ts[i..], p) == 1 + PrioPos(tasks, ts[i + 1..], p)
  {
    assert ts[i..][1..] == ts[i + 1..];
  }
}
