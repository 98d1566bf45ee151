/**
 Event groups (libisix/kernel/events.c): no step leaves a waiter behind whose condition
 holds, and every task woken by a set receives bits that satisfy its condition.
 */
module KernelEvents {
  import opened Lists
  import opened KernelState
  import opened KernelCalls
  import opened KernelBits
  import opened KernelLists
  import opened KernelTime
  import opened KernelInv
  import opened KernelWake
  import opened KernelMutex
  import opened KernelObjects

  // ---- bits ----

  // Clearing bits never makes a condition true.
  lemma FewerBits(bits: bv32, mask: bv32, w: bv32)
    ensures CheckCond2(Without(bits, mask), w) ==> CheckCond2(bits, w)
    ensures HasAll(Without(bits, mask), w) ==> HasAll(bits, w)
  {
  }

  // The word stored in the task says the same as the arguments of the call.
  lemma StoredWord(cur: bv32, bits: bv32, clear: bool, all: bool)
    requires Plain(bits)
    ensures CheckCond2(cur, EvWord(bits, clear, all)) <==> CheckCond(cur, bits, all)
  {
    hide CheckCond;
    WordParts(bits, clear, all);
  }

  lemma WordParts(bits: bv32, clear: bool, all: bool)
    requires Plain(bits)
    ensures EvWord(bits, clear, all) & EVBITS == bits && (EvWord(bits, clear, all) & ALL_FLAG != 0 <==> all)
    ensures EvWord(bits, clear, all) & CLEAR_FLAG != 0 <==> clear
  {
  }

  lemma PlainBits(a: bv32, b: bv32)
    requires Plain(a)
    ensures Plain(Without(a, b))
    ensures Plain(b) ==> Plain(With(a, b))
  {
  }

  // ---- changing the bits of a group ----

  lemma EventsPut(s: S, evts: map<nat, bv32>, e: nat, bits: bv32)
    requires Events(s, evts) && EventOk(s, e, bits)
    ensures Events(s, evts[e := bits])
  {
    hide EventOk;
  }

  lemma EventPut(k: K, e: nat, bits: bv32)
    requires Inv(k) && e in k.evts && EventOk(k.s, e, bits)
    ensures Inv(k.(evts := k.evts[e := bits]))
  {
    hide Core, States, TimeInv, TimeStates, OneRunning, Own, Sems, Events, Calls, Exits, EventOk;
    EventsPut(k.s, k.evts, e, bits);
  }

  lemma EventOf(k: K, e: nat)
    requires Inv(k) && e in k.evts
    ensures EventOk(k.s, e, k.evts[e])
  {
  }

  lemma ClearOk(s: S, e: nat, bits: bv32, mask: bv32)
    requires EventOk(s, e, bits)
    ensures EventOk(s, e, Without(bits, mask))
  {
    hide CheckCond2, Without, Plain, HasAll;
    PlainBits(bits, mask);
    forall t | t in s.queues[EvtQ(e)] ensures !CheckCond2(Without(bits, mask), s.tasks[t].obj.b) { FewerBits(bits, mask, s.tasks[t].obj.b); }
  }

  lemma ClearInv(k: K, e: nat, mask: bv32)
    requires Inv(k) && e in k.evts
    ensures Inv(k.(evts := k.evts[e := Without(k.evts[e], mask)]))
  {
    hide InvBut, EventOk, Without;
    EventOf(k, e);
    ClearOk(k.s, e, k.evts[e], mask);
    EventPut(k, e, Without(k.evts[e], mask));
  }

  lemma EventClearInv(k: K, e: nat, bits: bv32)
    requires Inv(k)
    ensures var o := EventClear(k, e, bits);
            && Inv(o.k) && (o.ret.Mask? <==> e in k.evts && Plain(bits)) && (!o.ret.Mask? ==> o == Out(k, Code(EINVARG)))
            && (o.ret.Mask? ==> e in o.k.evts && o.ret.b == k.evts[e] && o.k == k.(evts := k.evts[e := o.k.evts[e]]) && Minus(k.evts[e], bits, o.k.evts[e]))
  {
    hide InvBut, Plain, Without, Minus;
    if e in k.evts {
      ClearInv(k, e, bits);
      MinusIs(k.evts[e], bits);
    }
  }

  // ---- isix_event_wait ----

  lemma BlockEventInv(k: K, e: nat, call: Call, w: bv32, timeout: nat)
    requires Inv(k) && Runnable(k.s, k.current) && k.current != IDLE && e in k.evts && timeout < TICKS
    requires EventCall(call) && CallArgs(call) && w == WordOf(call) && !CheckCond2(k.evts[e], w)
    ensures Inv(BlockOnEvent(k, e, call, w, timeout)) && Tame(k.s, BlockOnEvent(k, e, call, w, timeout).s)
  {
    hide InvBut, Tame, Core, States, Only, SetSleep, AddToPrioQueue, InsertEnd, SetObj, SetTimeout, CallArgs, CheckCond2, EvWord;
    var c := k.current;
    var r := k.s.tasks[c].(call := call, token := NoToken, aborted := false);
    EventQueue(k, e);
    BlockInv(k, r, WtEvt, EvtQ(e), Bits(w), timeout, k.sems, k.mtx);
    assert SetAborted(SetCall(k.s, c, call), c, false) == Put(k.s, c, r);
  }

  lemma EventQueue(k: K, e: nat)
    requires Inv(k) && e in k.evts
    ensures EvtQ(e) in k.s.queues
  {
  }

  lemma EventTakeInv(k: K, e: nat, bits: bv32, clear: bool, all: bool, start: nat, timeout: nat)
    requires Inv(k) && Runnable(k.s, k.current) && k.current != IDLE && e in k.evts && timeout < TICKS && Plain(bits) && bits != 0
    ensures Inv(EventTake(k, e, bits, clear, all, start, timeout).k)
    ensures Tame(k.s, EventTake(k, e, bits, clear, all, start, timeout).k.s)
    ensures var o := EventTake(k, e, bits, clear, all, start, timeout);
            if timeout == DONTWAIT then o.ret == Mask(k.evts[e]) && o.k.s == SetCall(k.s, k.current, NoCall) else o.ret.Mask? ==> Fulfils(o.ret.b, bits, all)
  {
    hide InvBut, Tame, BlockOnEvent, Elapsed, CheckCond, CheckCond2, EvWord, Plain, Without, Fulfils;
    CondIs(k.evts[e], bits, all);
    DoneInv(k);
    if CheckCond(k.evts[e], bits, all) {
      if clear { ClearInv(k.(s := SetCall(k.s, k.current, NoCall)), e, bits); }
    } else {
      StoredWord(k.evts[e], bits, clear, all);
      var elapsed := Elapsed(k.clock, start);
      if timeout != DONTWAIT && (timeout == INFINITE || elapsed < timeout) {
        BlockEventInv(k, e, InEvent(e, bits, clear, all, start, timeout), EvWord(bits, clear, all),
                      if timeout == INFINITE then INFINITE else timeout - elapsed);
      }
    }
  }

  lemma EventWaitInv(k: K, e: nat, bits: bv32, clear: bool, all: bool, timeout: nat)
    requires Inv(k) && Runnable(k.s, k.current) && k.current != IDLE && timeout < TICKS
    ensures Inv(EventWait(k, e, bits, clear, all, timeout).k) && Tame(k.s, EventWait(k, e, bits, clear, all, timeout).k.s)
  {
    hide InvBut, EventTake, Plain, Tame;
    TameSelf(k.s);
    if e in k.evts && bits != 0 && Plain(bits) { EventTakeInv(k, e, bits, clear, all, k.clock.jiffies, timeout); }
  }

  // ---- event_set ----

  // The tasks on the list of e that the loop has passed: those left are not satisfied, the
  // others were satisfied and now run with the bits.
  ghost predicate Settled(k: K, d: K, e: nat, ts: seq<Tid>, bits: bv32) {
    && d == k.(s := d.s, clock := d.clock) && Tame(k.s, d.s)
    && (forall q: Qid | !q.Node? :: q in d.s.queues <==> q in k.s.queues)
    && ListSettled(k.s, d.s, e, ts, bits) && TasksSettled(k.s, d.s, ts, bits)
  }

  ghost predicate ListSettled(s: S, d: S, e: nat, ts: seq<Tid>, bits: bv32) {
    forall x | x in Queue(d, EvtQ(e)) :: x in Queue(s, EvtQ(e)) && (x in ts ==> !Satisfied(s, x, bits))
  }

  ghost predicate TasksSettled(s: S, d: S, ts: seq<Tid>, bits: bv32) {
    && d.tasks.Keys == s.tasks.Keys
    && (forall x | x in s.tasks :: SettledTask(s.tasks[x], d.tasks[x], x in ts && Satisfied(s, x, bits), bits))
  }

  predicate SettledTask(r: Task, d: Task, hit: bool, bits: bv32) {
    d == if hit then Woke(r, d, Bits(bits)) else r
  }

  lemma SettleStep(k: K, m: K, d: K, e: nat, t: Tid, ts: seq<Tid>, bits: bv32)
    requires t in k.s.tasks && Woken(k, m, t, Bits(bits)) && Settled(m, d, e, ts, bits) && t !in ts && Satisfied(k.s, t, bits)
    requires Links(k.s) && Links(m.s) && Tame(k.s, m.s)
    ensures Settled(k, d, e, [t] + ts, bits)
  {
    hide Only, Satisfied, Links, TimeDelete, Tame, ListSettled, TasksSettled;
    TameTwice(k.s, m.s, d.s);
    OnlyQueues(k.s, m.s, t);
    ListStep(k.s, m.s, d.s, e, t, ts, bits);
    TasksStep(k.s, m.s, d.s, t, ts, bits);
  }

  lemma ListStep(s: S, m: S, d: S, e: nat, t: Tid, ts: seq<Tid>, bits: bv32)
    requires Only(s, m, t) && Links(s) && Links(m) && ListSettled(m, d, e, ts, bits) && m.tasks[t].inode != In(EvtQ(e))
    ensures ListSettled(s, d, e, [t] + ts, bits)
  {
    LeftList(s, m, t, EvtQ(e));
    SatisfiedKept(s, m, t, bits);
    hide Only, Satisfied, Links;
  }

  lemma TasksStep(s: S, m: S, d: S, t: Tid, ts: seq<Tid>, bits: bv32)
    requires Only(s, m, t) && TasksSettled(m, d, ts, bits) && t !in ts && Satisfied(s, t, bits)
    requires m.tasks[t] == Woke(s.tasks[t], m.tasks[t], Bits(bits))
    ensures TasksSettled(s, d, [t] + ts, bits)
  {
    OnlyKeys(s, m, t);
    SatisfiedKept(s, m, t, bits);
    hide Only, Satisfied;
    assert forall x :: x in [t] + ts <==> x == t || x in ts;
  }

  lemma SatisfiedKept(s: S, d: S, t: Tid, bits: bv32)
    requires Only(s, d, t)
    ensures forall x | x != t :: Satisfied(d, x, bits) <==> Satisfied(s, x, bits)
  {
    OnlyKeys(s, d, t);
    hide Only, CheckCond2;
  }

  lemma LeftList(s: S, d: S, t: Tid, q: Qid)
    requires Links(s) && Links(d) && Only(s, d, t) && d.tasks[t].inode != In(q) && !q.Node?
    ensures forall x | x in Queue(d, q) :: x in Queue(s, q) && x != t
  {
    OnlyElsewhere(s, d, t);
    OnlyQueues(s, d, t);
    NotQueued(d, t, q);
    hide Only, Links;
  }

  lemma SettleSkip(k: K, d: K, e: nat, t: Tid, ts: seq<Tid>, bits: bv32)
    requires Settled(k, d, e, ts, bits) && !Satisfied(k.s, t, bits)
    ensures Settled(k, d, e, [t] + ts, bits)
  {
    hide Satisfied, Tame;
  }

  lemma {:induction false} SetLoopInv(k: K, e: nat, ts: seq<Tid>, bits: bv32)
    requires Inv(k) && e in k.evts && NoDup(ts) && (forall t | t in ts :: t in Queue(k.s, EvtQ(e)))
    ensures Inv(SetLoop(k, ts, bits)) && Settled(k, SetLoop(k, ts, bits), e, ts, bits)
    decreases |ts|
  {
    hide InvBut, Core, WakeUp, ListDelete, Woken, Settled, Only, Satisfied, Links, Tame;
    if ts == [] {
      NothingSettled(k, e, bits);
    } else {
      var t := ts[0];
      assert t !in ts[1..];
      assert NoDup(ts[1..]);
      assert [t] + ts[1..] == ts;
      CoreOf(k, k.sems, k.mtx);
      CoreLinks(k.s);
      if Satisfied(k.s, t, bits) {
        assert t in ts;
        WakeFrom(k, t, EvtQ(e), Bits(bits), k.sems, k.mtx);
        var d := WakeUp(k.(s := ListDelete(k.s, t)), t, Bits(bits));
        CoreOf(d, k.sems, k.mtx);
        CoreLinks(d.s);
        WokenFacts(k, d, t, Bits(bits));
        OthersStay(k.s, d.s, t, e, ts[1..]);
        SetLoopInv(d, e, ts[1..], bits);
        SettleStep(k, d, SetLoop(d, ts[1..], bits), e, t, ts[1..], bits);
      } else {
        SetLoopInv(k, e, ts[1..], bits);
        SettleSkip(k, SetLoop(k, ts[1..], bits), e, t, ts[1..], bits);
      }
    }
  }

  lemma NothingSettled(k: K, e: nat, bits: bv32)
    ensures Settled(k, k, e, [], bits)
  {
    hide Satisfied, Tame;
    TameSelf(k.s);
  }

  lemma OthersStay(s: S, d: S, t: Tid, e: nat, ts: seq<Tid>)
    requires Links(s) && Links(d) && Only(s, d, t) && t !in ts && (forall x | x in ts :: x in Queue(s, EvtQ(e)))
    ensures forall x | x in ts :: x in Queue(d, EvtQ(e))
  {
    OnlyElsewhere(s, d, t);
    OnlyQueues(s, d, t);
    hide Only, Links;
  }

  // After event_set nobody on the list is satisfied by the new bits.
  lemma SettledOk(k: K, d: K, e: nat, bits: bv32, mask: bv32)
    requires Inv(k) && e in k.evts && Settled(k, d, e, Queue(k.s, EvtQ(e)), bits) && Plain(bits)
    ensures EventOk(d.s, e, Without(bits, mask))
  {
    hide InvBut, CheckCond2, Plain, Without, Tame, EventOk, ListSettled, TasksSettled, Satisfied;
    EventOf(k, e);
    SettledList(k.s, d.s, e, k.evts[e], bits);
    ClearOk(d.s, e, bits, mask);
  }

  lemma SettledList(s: S, d: S, e: nat, was: bv32, bits: bv32)
    requires EventOk(s, e, was) && EvtQ(e) in d.queues && Plain(bits)
    requires ListSettled(s, d, e, Queue(s, EvtQ(e)), bits) && TasksSettled(s, d, Queue(s, EvtQ(e)), bits)
    ensures EventOk(d, e, bits)
  {
    hide CheckCond2, Plain;
    forall t | t in d.queues[EvtQ(e)] ensures t in d.tasks && d.tasks[t].obj.Bits? && !CheckCond2(bits, d.tasks[t].obj.b) {
      assert t in Queue(d, EvtQ(e));
      assert !Satisfied(s, t, bits) && d.tasks[t] == s.tasks[t];
    }
  }

  lemma SetBitsInv(k: K, e: nat, bits: bv32)
    requires Inv(k) && e in k.evts && Plain(bits)
    ensures var d := SetBits(k, e, bits); var b := With(k.evts[e], bits); var ts := Queue(k.s, EvtQ(e));
            Inv(d) && d.evts == k.evts[e := Without(b, ClearMask(k.s, ts, b))] && Tame(k.s, d.s)
            && Settled(k.(evts := d.evts), d, e, ts, b)
  {
    hide InvBut, Tame, SetLoop, Settled, EventOk, ClearMask, Core, Without, With, Plain;
    var b := With(k.evts[e], bits);
    var ts := Queue(k.s, EvtQ(e));
    CoreOf(k, k.sems, k.mtx);
    EventQueue(k, e);
    QueueNoDup(k.s, EvtQ(e));
    SetLoopInv(k, e, ts, b);
    EventBits(k, e);
    PlainBits(k.evts[e], bits);
    SettledOk(k, SetLoop(k, ts, b), e, b, ClearMask(k.s, ts, b));
    SettledSame(k, SetLoop(k, ts, b), e, ts, b, k.evts[e := Without(b, ClearMask(k.s, ts, b))]);
    EventPut(SetLoop(k, ts, b), e, Without(b, ClearMask(k.s, ts, b)));
  }

  lemma EventBits(k: K, e: nat)
    requires Inv(k) && e in k.evts
    ensures Plain(k.evts[e])
  {
    assert EventOk(k.s, e, k.evts[e]);
  }

  lemma SettledSame(k: K, d: K, e: nat, ts: seq<Tid>, bits: bv32, evts: map<nat, bv32>)
    requires Settled(k, d, e, ts, bits)
    ensures d.evts == k.evts && Tame(k.s, d.s)
    ensures Settled(k.(evts := evts), d.(evts := evts), e, ts, bits)
  {
    hide Satisfied, Tame;
  }

  lemma QueueNoDup(s: S, q: Qid)
    requires Core(s)
    ensures NoDup(Queue(s, q))
  {
  }

  lemma EventSetInv(k: K, e: nat, bits: bv32)
    requires Inv(k)
    ensures Inv(EventSet(k, e, bits).k) && Tame(k.s, EventSet(k, e, bits).k.s)
  {
    TameSelf(k.s);
    hide InvBut, Tame, SetBits, Plain, With, Without;
    if e in k.evts && Plain(bits) { SetBitsInv(k, e, bits); }
  }

  lemma SetKeepsCurrent(k: K, d: K, e: nat, ts: seq<Tid>, bits: bv32)
    requires Settled(k, d, e, ts, bits) && Runnable(k.s, k.current)
    ensures Runnable(d.s, k.current) && d.current == k.current && Tame(k.s, d.s)
  {
    hide Satisfied, Tame;
  }

  lemma EventSyncInv(k: K, e: nat, toSet: bv32, toWait: bv32, timeout: nat)
    requires Inv(k) && Runnable(k.s, k.current) && k.current != IDLE && timeout < TICKS
    ensures Inv(EventSync(k, e, toSet, toWait, timeout).k) && Tame(k.s, EventSync(k, e, toSet, toWait, timeout).k.s)
  {
    TameSelf(k.s);
    hide InvBut, Tame, SetBits, Settled, ClearMask, BlockOnEvent, CheckCond2, EvWord, Plain, With, Without, HasAll;
    if e in k.evts && Plain(toSet) && toWait != 0 && Plain(toWait) {
      SetBitsInv(k, e, toSet);
      var org := With(k.evts[e], toSet);
      var d := SetBits(k, e, toSet);
      var ts := Queue(k.s, EvtQ(e));
      SetKeepsCurrent(k.(evts := d.evts), d, e, ts, org);
      if HasAll(org, toWait) {
        ClearInv(d, e, toWait);
      } else if timeout != DONTWAIT {
        FewerBits(org, ClearMask(k.s, ts, org), toWait);
        StoredWord(d.evts[e], toWait, true, true);
        BlockEventInv(d, e, InSync(e, toWait, k.clock.jiffies, timeout), EvWord(toWait, true, true), timeout);
        TameTwice(k.s, d.s, EventSync(k, e, toSet, toWait, timeout).k.s);
      }
    }
  }

  lemma EventDestroyInv(k: K, e: nat)
    requires Inv(k)
    ensures Inv(EventDestroy(k, e).k) && (e in k.evts ==> Dismissed(k.s, EventDestroy(k, e).k.s, Queue(k.s, EvtQ(e)), Msg(EDESTROY)))
  {
    hide InvBut, WakeAll, AllWoken, DropQueue;
    if e in k.evts {
      var ts := Queue(k.s, EvtQ(e));
      EventQueue(k, e);
      WakeAllInv(k, EvtQ(e), ts, Msg(EDESTROY), k.sems, k.mtx);
      var d := WakeAll(k, ts, Msg(EDESTROY));
      WokenRest(k, d, ts, Msg(EDESTROY));
      WokenDismissed(k, d, ts, Msg(EDESTROY), EvtQ(e));
      DropEvent(d, e);
    }
  }

  lemma DropEvent(k: K, e: nat)
    requires Inv(k) && e in k.evts && Queue(k.s, EvtQ(e)) == []
    ensures Inv(k.(s := DropQueue(k.s, EvtQ(e)), evts := k.evts - {e}))
  {
    hide Core, States, TimeInv, Own, Sems, Events, Exits;
    EventsFewer(k.s, k.evts, e);
    DropOk(k.s, EvtQ(e));
    DropParts(k.s, EvtQ(e), k.sems, k.mtx, k.evts - {e});
  }

  lemma EventsFewer(s: S, evts: map<nat, bv32>, e: nat)
    requires Events(s, evts)
    ensures Events(s, evts - {e})
  {
    hide EventOk;
  }
}
