/**
 What the system calls do for their callers, beyond keeping the invariant: when a wait ends,
 who is told what when an object or a task goes away, and what becomes of a priority.
 */
module KernelEffects {
  import opened Lists
  import opened KernelState
  import opened KernelCalls
  import opened KernelBits
  import opened KernelLists
  import opened KernelTime
  import opened KernelInv
  import opened KernelWake
  import opened KernelMutex
  import opened KernelCommute
  import opened KernelObjects
  import opened KernelEvents
  import opened KernelTasks
  import opened KernelSched

  // ---- timeouts ----

  lemma TimeoutIs(k: K, timeout: nat)
    requires Inv(k) && Runnable(k.s, k.current) && 0 < timeout < TICKS
    ensures var d := SetTimeout(k.clock, k.current, timeout);
            k.current in d.due && k.current in Sleepers(d) && Deadline(d, k.current) == Now(k.clock) + timeout
  {
    hide Core, States, Objects, Own, Sems, Events, Calls, Exits, AddWaiting, Deadline, Insert;
    var i := AddWaitingFacts(k.clock, k.current, timeout);
    var d := AddWaiting(k.clock, k.current, timeout);
    assert Sleepers(d) == Insert(Sleepers(k.clock), i, k.current);
    InsertFacts(Sleepers(k.clock), i, k.current);
  }

  // How long a call has been waiting, modulo the wraps of the tick counter in between.
  lemma ElapsedIs(c: Clock, started: nat)
    requires c.jiffies < TICKS && started <= Now(c)
    ensures Elapsed(c, started % TICKS) == (Now(c) - started) % TICKS
  {
    var q, r := started / TICKS, started % TICKS;
    assert started == q * TICKS + r && r % TICKS == r;
    assert Now(c) - started == (c.epoch - q) * TICKS + (c.jiffies - r);
    if c.jiffies >= r { Remains(c.epoch - q, c.jiffies - r); } else { Remains(c.epoch - q - 1, c.jiffies - r + TICKS); }
  }

  lemma Remains(q: int, r: nat)
    requires r < TICKS
    ensures (q * TICKS + r) % TICKS == r
  {
  }

  // When a wait that began at `started` is over: at its deadline, or later by the whole wraps
  // the counter has made meanwhile, which it cannot tell.
  function EndOf(c: Clock, started: nat, timeout: nat): nat
    requires started <= Now(c)
  {
    started + timeout + (Now(c) - started) / TICKS * TICKS
  }

  lemma EndIs(c: Clock, started: nat, timeout: nat)
    requires started <= Now(c)
    ensures EndOf(c, started, timeout) == Now(c) + timeout - (Now(c) - started) % TICKS
    ensures EndOf(c, started, timeout) == started + timeout <==> Now(c) < started + TICKS
  {
  }

  // A wait that began at `started` and is taken up now: EOK only with a token, else blocked until
  // its end and ETIMEOUT from then on.  The end is the timeout after the start exactly when less
  // than a wrap of the counter has passed; each wrap moves it by 2^32 ticks.
  lemma SemWaitUntil(k: K, i: nat, started: nat, timeout: nat)
    requires Inv(k) && Runnable(k.s, k.current) && i in k.sems && timeout < TICKS && started <= Now(k.clock)
    ensures var o := SemTake(k, i, started % TICKS, timeout); var end := EndOf(k.clock, started, timeout);
            && (o.ret == Code(EOK) <==> k.sems[i].value > 0)
            && (o.ret == Code(ETIMEOUT) <==> k.sems[i].value <= 0 && timeout != INFINITE && end <= Now(k.clock))
            && (o.ret == Blocked <==> k.sems[i].value <= 0 && (timeout == INFINITE || Now(k.clock) < end))
            && (o.ret == Blocked && timeout == INFINITE ==> o.k.clock == k.clock)
            && (o.ret == Blocked && timeout != INFINITE ==>
                  k.current in o.k.clock.due && k.current in Sleepers(o.k.clock) && Deadline(o.k.clock, k.current) == end)
            && (o.ret == Blocked ==> k.current in o.k.s.tasks && o.k.s.tasks[k.current].call == InSem(i, started % TICKS, timeout))
            && (end == started + timeout <==> Now(k.clock) < started + TICKS)
  {
    hide InvBut, Core, States, SetTimeout, Sleepers, Deadline, Elapsed, BlockOnSem, EndOf;
    JiffiesOf(k);
    ElapsedIs(k.clock, started);
    EndIs(k.clock, started, timeout);
    var e := (Now(k.clock) - started) % TICKS;
    if timeout == INFINITE || e < timeout {
      var rest := if timeout == INFINITE then INFINITE else timeout - e;
      var d := k.(sems := k.sems[i := k.sems[i].(value := k.sems[i].value - 1)]);
      BlockedSem(k, d, i, InSem(i, started % TICKS, timeout), rest);
      if timeout != INFINITE { TimeoutIs(k, rest); } else { NoTimeout(k.clock, k.current); }
    }
  }

  lemma BlockedSem(k: K, d: K, i: nat, call: Call, timeout: nat)
    requires Inv(k) && Runnable(k.s, k.current) && i in k.sems && d == k.(sems := d.sems)
    ensures var b := BlockOnSem(d, i, call, timeout);
            b.clock == SetTimeout(k.clock, k.current, timeout) && k.current in b.s.tasks && b.s.tasks[k.current].call == call
  {
    hide InvBut, SetTimeout, SetSleep, AddToPrioQueue;
    BlockedIs(k, i, call, timeout);
    assert BlockOnSem(d, i, call, timeout).s == BlockOnSem(k, i, call, timeout).s;
  }

  lemma NoTimeout(c: Clock, t: Tid)
    ensures SetTimeout(c, t, INFINITE) == c
  {
  }

  lemma JiffiesOf(k: K)
    requires Inv(k)
    ensures k.clock.jiffies < TICKS
  {
    hide Core, States, Objects, Own, Sems, Events, Calls, Exits;
  }

  // The same for an event wait, which also clears what it was asked to.
  lemma EventWaitUntil(k: K, e: nat, bits: bv32, clear: bool, all: bool, started: nat, timeout: nat)
    requires Inv(k) && Runnable(k.s, k.current) && e in k.evts && timeout < DONTWAIT && started <= Now(k.clock)
    ensures var o := EventTake(k, e, bits, clear, all, started % TICKS, timeout); var end := EndOf(k.clock, started, timeout);
            var ok := Fulfils(k.evts[e], bits, all);
            && (o.ret.Mask? <==> ok)
            && (o.ret.Mask? ==> o.ret.b == k.evts[e] && e in o.k.evts && if clear then Minus(k.evts[e], bits, o.k.evts[e]) else o.k.evts[e] == k.evts[e])
            && (o.ret == Code(ETIMEOUT) <==> !ok && timeout != INFINITE && end <= Now(k.clock))
            && (o.ret == Blocked <==> !ok && (timeout == INFINITE || Now(k.clock) < end))
            && (o.ret == Blocked && timeout == INFINITE ==> o.k.clock == k.clock)
            && (o.ret == Blocked && timeout != INFINITE ==>
                  k.current in o.k.clock.due && k.current in Sleepers(o.k.clock) && Deadline(o.k.clock, k.current) == end)
            && (o.ret == Blocked ==> k.current in o.k.s.tasks && o.k.s.tasks[k.current].call == InEvent(e, bits, clear, all, started % TICKS, timeout))
            && (end == started + timeout <==> Now(k.clock) < started + TICKS)
  {
    hide InvBut, Core, States, SetTimeout, Sleepers, Deadline, Elapsed, BlockOnEvent, CheckCond, Without, EvWord, EndOf, Fulfils, Minus;
    CondIs(k.evts[e], bits, all);
    MinusIs(k.evts[e], bits);
    JiffiesOf(k);
    ElapsedIs(k.clock, started);
    EndIs(k.clock, started, timeout);
    var x := (Now(k.clock) - started) % TICKS;
    if timeout == INFINITE || x < timeout {
      var rest := if timeout == INFINITE then INFINITE else timeout - x;
      BlockedEvent(k, e, InEvent(e, bits, clear, all, started % TICKS, timeout), EvWord(bits, clear, all), rest);
      if timeout != INFINITE { TimeoutIs(k, rest); } else { NoTimeout(k.clock, k.current); }
    }
  }

  // The record of a task that has blocked on a semaphore or an event group.
  lemma BlockedIs(k: K, i: nat, call: Call, timeout: nat)
    requires Inv(k) && Runnable(k.s, k.current) && i in k.sems
    ensures var c := k.current; var d := BlockOnSem(k, i, call, timeout).s;
            && c in d.tasks && d.tasks == k.s.tasks[c := d.tasks[c]]
            && d.tasks[c] == k.s.tasks[c].(call := call, token := NoToken, obj := Sem(i), aborted := false, state := WtSem, inode := In(SemQ(i)))
  {
    hide Core, States, Only, InvBut, SetSleep, AddToPrioQueue;
    CoreOf(k, k.sems, k.mtx);
    var c := k.current;
    var r := k.s.tasks[c].(call := call, token := NoToken, obj := Sem(i), aborted := false);
    AsleepOk(k.s, c, r, WtSem);
    var l := SetSleep(Put(k.s, c, r), c, WtSem);
    assert SetAborted(SetObj(SetCall(k.s, c, call), c, Sem(i)), c, false) == Put(k.s, c, r);
    SemOf(k, i, k.mtx);
    HasQueue(k.s, l, c, SemQ(i));
    OnlyHas(k.s, l, c);
    AddToPrioQueueOk(l, SemQ(i), c);
    OnlyKeys(k.s, l, c);
    var d := AddToPrioQueue(l, SemQ(i), c);
    assert d.tasks == k.s.tasks[c := d.tasks[c]];
  }

  lemma BlockedEvent(k: K, e: nat, call: Call, w: bv32, timeout: nat)
    requires Inv(k) && Runnable(k.s, k.current) && e in k.evts
    ensures var c := k.current; var b := BlockOnEvent(k, e, call, w, timeout); var d := b.s;
            && b == k.(s := d, clock := SetTimeout(k.clock, c, timeout))
            && c in d.tasks && d.tasks == k.s.tasks[c := d.tasks[c]]
            && d.tasks[c] == k.s.tasks[c].(call := call, token := NoToken, obj := Bits(w), aborted := false, state := WtEvt, inode := In(EvtQ(e)))
  {
    hide Core, States, Only, InvBut, SetSleep, InsertEnd, SetTimeout;
    CoreOf(k, k.sems, k.mtx);
    var c := k.current;
    var r := k.s.tasks[c].(call := call, token := NoToken, aborted := false);
    AsleepOk(k.s, c, r, WtEvt);
    var l := SetSleep(Put(k.s, c, r), c, WtEvt);
    assert SetAborted(SetCall(k.s, c, call), c, false) == Put(k.s, c, r);
    EventQueue(k, e);
    HasQueue(k.s, l, c, EvtQ(e));
    OnlyHas(k.s, l, c);
    InsertEndOk(l, EvtQ(e), c);
    OnlyKeys(k.s, l, c);
    var d := SetObj(InsertEnd(l, EvtQ(e), c), c, Bits(w));
    assert d.tasks == k.s.tasks[c := d.tasks[c]];
  }

  // ---- events ----

  // Who was woken by a set has bits that satisfy its condition; who was not satisfied waits on.
  lemma WokenBySet(k: K, e: nat, bits: bv32, t: Tid)
    requires Inv(k) && e in k.evts && Plain(bits) && t in Queue(k.s, EvtQ(e))
    ensures var d := SetBits(k, e, bits); var b := With(k.evts[e], bits);
            && t in k.s.tasks && t in d.s.tasks && k.s.tasks[t].obj.Bits?
            && d.s.tasks[t] == if Met(b, k.s.tasks[t].obj.b) then Woke(k.s.tasks[t], d.s.tasks[t], Bits(b)) else k.s.tasks[t]
  {
    hide InvBut, SetBits, CheckCond2, With, Without, ClearMask, Tame, Plain, ListSettled, Met;
    SetBitsInv(k, e, bits);
    EventOf(k, e);
    Cond2Is(With(k.evts[e], bits), k.s.tasks[t].obj.b);
  }

  // ---- the rendezvous of isix_event_sync ----

  lemma SyncWord(bits: bv32, w: bv32)
    requires Plain(w)
    ensures Met(bits, EvWord(w, true, true)) <==> Fulfils(bits, w, true)
    ensures HasAll(bits, w) <==> Fulfils(bits, w, true)
  {
    hide Met, Fulfils, CheckCond2, EvWord, Plain;
    StoredWord(bits, w, true, true);
    CondIs(bits, w, true);
    Cond2Is(bits, EvWord(w, true, true));
  }

  // Who brings the last bit releases everyone who waits for the same bits, with those bits,
  // returns at once, and leaves none of the bits set.
  lemma SyncReleases(k: K, e: nat, toSet: bv32, toWait: bv32, timeout: nat)
    requires Inv(k) && e in k.evts && Plain(toSet) && Plain(toWait) && toWait != 0 && Fulfils(With(k.evts[e], toSet), toWait, true)
    ensures var o := EventSync(k, e, toSet, toWait, timeout); var b := With(k.evts[e], toSet);
            && o.ret == Mask(b) && e in o.k.evts && Apart(o.k.evts[e], toWait)
            && (forall t | t in Queue(k.s, EvtQ(e)) && t in k.s.tasks && k.s.tasks[t].obj == Bits(EvWord(toWait, true, true)) ::
                  t in o.k.s.tasks && o.k.s.tasks[t].state.Ready? && o.k.s.tasks[t].obj == Bits(b))
  {
    hide InvBut, SetBits, CheckCond2, With, Without, HasAll, EvWord, Tame, Plain, Settled, ClearMask, BlockOnEvent, Met, Fulfils, Bit;
    SetBitsInv(k, e, toSet);
    var d := SetBits(k, e, toSet);
    MinusIs(d.evts[e], toWait);
    SyncWord(With(k.evts[e], toSet), toWait);
    forall t | t in Queue(k.s, EvtQ(e)) && t in k.s.tasks && k.s.tasks[t].obj == Bits(EvWord(toWait, true, true))
      ensures t in d.s.tasks && d.s.tasks[t].state.Ready? && d.s.tasks[t].obj == Bits(With(k.evts[e], toSet))
    {
      WokenBySet(k, e, toSet, t);
    }
  }

  // Who brings not the last bit waits for the same bits, all of them, until the timeout, or
  // learns what is set.
  lemma SyncBlocks(k: K, e: nat, toSet: bv32, toWait: bv32, timeout: nat)
    requires Inv(k) && Runnable(k.s, k.current) && e in k.evts && Plain(toSet) && Plain(toWait) && toWait != 0 && timeout < TICKS
    requires !Fulfils(With(k.evts[e], toSet), toWait, true)
    ensures var o := EventSync(k, e, toSet, toWait, timeout); var c := k.current;
            if timeout == DONTWAIT then o.k == SetBits(k, e, toSet) && o.ret == Mask(o.k.evts[e]) else
            && o.ret == Blocked && c in o.k.s.tasks && o.k.s.tasks[c].call == InSync(e, toWait, k.clock.jiffies, timeout)
            && o.k.s.tasks[c].state.WtEvt? && o.k.s.tasks[c].inode == In(EvtQ(e)) && o.k.s.tasks[c].obj == Bits(EvWord(toWait, true, true))
            && (timeout != INFINITE ==> c in o.k.clock.due && c in Sleepers(o.k.clock) && Deadline(o.k.clock, c) == Now(k.clock) + timeout)
  {
    hide InvBut, SetBits, With, Without, HasAll, EvWord, Tame, Plain, Settled, ClearMask, BlockOnEvent, Fulfils, SetTimeout, Deadline, Sleepers;
    SetBitsInv(k, e, toSet);
    var d := SetBits(k, e, toSet);
    SyncWord(With(k.evts[e], toSet), toWait);
    var ts := Queue(k.s, EvtQ(e));
    SetKeepsCurrent(k.(evts := d.evts), d, e, ts, With(k.evts[e], toSet));
    BlockedEvent(d, e, InSync(e, toWait, k.clock.jiffies, timeout), EvWord(toWait, true, true), timeout);
    if 0 < timeout < DONTWAIT {
      TimeoutIs(d, timeout);
      assert Now(d.clock) == Now(k.clock) by { SetTime(k, e, toSet); }
    }
  }

  lemma SetTime(k: K, e: nat, bits: bv32)
    requires e in k.evts
    ensures Now(SetBits(k, e, bits).clock) == Now(k.clock)
  {
    hide SetLoop, ClearMask, With, Without;
    SetLoopClock(k, Queue(k.s, EvtQ(e)), With(k.evts[e], bits));
  }

  lemma {:induction false} SetLoopClock(k: K, ts: seq<Tid>, bits: bv32)
    ensures var c := SetLoop(k, ts, bits).clock; c.epoch == k.clock.epoch && c.jiffies == k.clock.jiffies
    decreases |ts|
  {
    hide Satisfied, ListDelete;
    if ts != [] {
      SetLoopClock(WakeUp(k.(s := ListDelete(k.s, ts[0])), ts[0], Bits(bits)), ts[1..], bits);
      SetLoopClock(k, ts[1..], bits);
    }
  }

  // A set leaves the bits that were there or were set, but for those that a woken waiter asked
  // for, to be cleared.
  lemma SetLeaves(k: K, e: nat, bits: bv32, i: bv32)
    requires Inv(k) && e in k.evts && Plain(bits)
    ensures var o := EventSet(k, e, bits); var b := With(k.evts[e], bits);
            && e in o.k.evts && o.ret == Mask(o.k.evts[e])
            && (Bit(o.k.evts[e], i) <==> (Bit(k.evts[e], i) || Bit(bits, i)) && !exists t :: t in Queue(k.s, EvtQ(e)) && AsksToClear(k.s, t, b, i))
  {
    hide InvBut, SetLoop, ClearMask, With, Without, Plain, Bit, AsksToClear;
    var b, ts := With(k.evts[e], bits), Queue(k.s, EvtQ(e));
    WithBit(k.evts[e], bits, i);
    WithoutBit(b, ClearMask(k.s, ts, b), i);
    ClearMaskBit(k.s, ts, b, i);
  }

  // The condition of t holds of the group's bits b, and t asked for bit i, to be cleared.
  ghost predicate AsksToClear(s: S, t: Tid, b: bv32, i: bv32) {
    t in s.tasks && s.tasks[t].obj.Bits? && var w := s.tasks[t].obj.b; Met(b, w) && Bit(w, 30) && i < 30 && Bit(w, i)
  }

  lemma ClearsIs(w: bv32, i: bv32)
    ensures (WantsClear(w) <==> Bit(w, 30)) && (Bit(Asked(w), i) <==> i < 30 && Bit(w, i))
  {
    hide Bit;
    Control(w, i);
    FlagBit(w);
  }

  lemma AsksIs(s: S, t: Tid, b: bv32, i: bv32)
    ensures AsksToClear(s, t, b, i) <==> Satisfied(s, t, b) && WantsClear(s.tasks[t].obj.b) && Bit(Asked(s.tasks[t].obj.b), i)
  {
    hide Bit, WantsClear, Asked, Met, CheckCond2;
    if t in s.tasks && s.tasks[t].obj.Bits? {
      Cond2Is(b, s.tasks[t].obj.b);
      ClearsIs(s.tasks[t].obj.b, i);
    }
  }

  lemma {:induction false} ClearMaskBit(s: S, ts: seq<Tid>, b: bv32, i: bv32)
    ensures Bit(ClearMask(s, ts, b), i) <==> exists t :: t in ts && AsksToClear(s, t, b, i)
  {
    hide Bit, With, WantsClear, AsksToClear, Asked, CheckCond2;
    if ts == [] {
      NoBit(i);
    } else {
      ClearMaskBit(s, ts[1..], b, i);
      FirstOrLater(s, ts, b, i);
      AsksIs(s, ts[0], b, i);
      if Satisfied(s, ts[0], b) { WithBit(Asked(s.tasks[ts[0]].obj.b), ClearMask(s, ts[1..], b), i); }
    }
  }

  lemma FirstOrLater(s: S, ts: seq<Tid>, b: bv32, i: bv32)
    requires ts != []
    ensures (exists t :: t in ts && AsksToClear(s, t, b, i)) <==> AsksToClear(s, ts[0], b, i) || exists t :: t in ts[1..] && AsksToClear(s, t, b, i)
  {
    hide AsksToClear;
    assert forall x :: x in ts <==> x == ts[0] || x in ts[1..];
  }

  // ---- condition variables ----

  lemma HeldOnce(k: K, m: nat)
    requires Inv(k) && m in Owned(k.s, k.current)
    ensures m in k.mtx && k.mtx[m].owner == Held(k.current) && k.mtx[m].count >= 1 && k.current !in Queue(k.s, MtxQ(m))
    ensures k.mtx[m].count > 1 ==> OwnerOf(MutexUnlock(k, m).k, m) == Held(k.current)
  {
    hide InvBut, Release;
    OwnedHeld(k, k.current, m);
    HeldFacts(k, m, k.sems, k.mtx);
  }

  lemma BlockedOnCond(k: K, c: nat, m: nat, timeout: nat)
    requires Inv(k) && Runnable(k.s, k.current) && k.current != IDLE && CondQ(c) in k.s.queues && timeout < TICKS
    ensures var d := BlockOnCond(k, c, m, timeout);
            && d.mtx == k.mtx && k.current in d.s.tasks && d.s.tasks[k.current].state.WtCond? && d.s.tasks[k.current].call == InCond(m)
            && k.current in Queue(d.s, CondQ(c)) && d.clock == SetTimeout(k.clock, k.current, timeout)
  {
    hide InvBut, Tame, Core, States, Only, SetSleep, AddToPrioQueue, SetObj, InsertEnd, SetTimeout;
    var r := k.s.tasks[k.current].(call := InCond(m), token := NoToken);
    BlockInv(k, r, WtCond, CondQ(c), Cond(c), timeout, k.sems, k.mtx);
    var d := BlockOnCond(k, c, m, timeout);
    OnlyHas(k.s, d.s, k.current);
    CoreOf(d, k.sems, k.mtx);
    CoreLinked(d.s, k.current);
  }

  lemma {:induction false} UnlockClock(k: K, m: nat)
    ensures var c := MutexUnlock(k, m).k.clock; c.epoch == k.clock.epoch && c.jiffies == k.clock.jiffies
  {
    hide Realloc, CalcInherited, Detach, ListDelete, AddReady;
  }

  // The wait gives up its mutex exactly when it was locked once, and ends at its timeout.
  lemma CondWaitReleases(k: K, c: nat, timeout: nat)
    requires Inv(k) && Runnable(k.s, k.current) && k.current != IDLE && k.s.tasks[k.current].call == NoCall && timeout < TICKS
    requires CondQ(c) in k.s.queues && timeout != DONTWAIT && Owned(k.s, k.current) != []
    ensures var o := CondWait(k, c, timeout); var m := Owned(k.s, k.current)[0];
            && o.ret == Blocked && m in k.mtx
            && (OwnerOf(o.k, m) != Held(k.current) <==> k.mtx[m].count == 1)
            && k.current in o.k.s.tasks && o.k.s.tasks[k.current].state.WtCond? && o.k.s.tasks[k.current].call == InCond(m)
            && k.current in Queue(o.k.s, CondQ(c))
            && (if timeout == INFINITE then k.current !in Sleepers(o.k.clock)
                else k.current in o.k.clock.due && k.current in Sleepers(o.k.clock) && Deadline(o.k.clock, k.current) == Now(k.clock) + timeout)
  {
    hide InvBut, Core, States, Only, MutexUnlock, BlockOnCond, SameConds, SetTimeout, Deadline, Sleepers;
    var m := Owned(k.s, k.current)[0];
    assert m in Owned(k.s, k.current);
    UnlockInv(k, m);
    HeldOnce(k, m);
    var u := MutexUnlock(k, m).k;
    CondsAt(k.s, u.s, c);
    BlockedOnCond(u, c, m, timeout);
    UnlockClock(k, m);
    if timeout == INFINITE {
      NoTimeout(u.clock, u.current);
      RunnerAwake(u);
    } else {
      TimeoutIs(u, timeout);
    }
  }

  lemma RunnerAwake(k: K)
    requires Inv(k) && Runnable(k.s, k.current)
    ensures k.current !in Sleepers(k.clock)
  {
    hide Core, States, TimeInv, Objects, Own, Sems, Events, Calls, Exits;
    assert k.current in Sleepers(k.clock) ==> Timed(k.clock, k.current);
  }

  // ---- what becomes of a destroyed mutex and its waiters ----

  lemma {:induction false} WaitersTold(k: K, m: nat, ts: seq<Tid>)
    requires InvBut(k, k.sems, k.mtx - {m}) && m in k.mtx && MtxQ(m) in k.s.queues && k.s.queues[MtxQ(m)] == ts
    ensures Dismissed(k.s, DestroyWaiters(k, ts).s, ts, Msg(EDESTROY)) && OwnPrios(k.s, DestroyWaiters(k, ts).s, ts)
    decreases |ts|
  {
    hide Core, States, InvBut, Only, ListDelete, CalcInherited, WakeUp, SetPrio, NoDup;
    if ts != [] {
      var t := ts[0];
      DismissInv(k, m, t);
      var l := ListDelete(k.s, t);
      var d := WakeUp(k.(s := SetPrio(l, t, CalcInherited(l, t))), t, Msg(EDESTROY));
      CoreOf(k, k.sems, k.mtx - {m});
      CoreOf(d, k.sems, k.mtx - {m});
      OnlyKeys(k.s, d.s, t);
      HeadGone(k.s, d.s, t, MtxQ(m));
      OnlyQueues(k.s, d.s, t);
      WaitersTold(d, m, ts[1..]);
      QueueNoDup(k.s, MtxQ(m));
      DismissedPrio(k, t);
      ToldOne(k.s, d.s, DestroyWaiters(k, ts).s, t, ts);
    }
  }

  // Who owns no mutex leaves with its base priority.
  ghost predicate OwnPrios(s: S, d: S, ts: seq<Tid>) {
    forall x | x in ts && x in s.tasks && s.tasks[x].owned == [] :: x in d.tasks && d.tasks[x].prio == s.tasks[x].base
  }

  lemma DismissedPrio(k: K, t: Tid)
    requires t in k.s.tasks
    ensures var l := ListDelete(k.s, t); var d := WakeUp(k.(s := SetPrio(l, t, CalcInherited(l, t))), t, Msg(EDESTROY)).s;
            k.s.tasks[t].owned == [] ==> t in d.tasks && d.tasks[t].prio == k.s.tasks[t].base
  {
    hide ListDelete, AddReady, TimeDelete;
    var l := ListDelete(k.s, t);
    DeletedKeeps(k.s, t);
    ReadyKeeps(SetObj(SetPrio(l, t, CalcInherited(l, t)), t, Msg(EDESTROY)), t);
  }

  lemma DeletedKeeps(s: S, t: Tid)
    requires t in s.tasks
    ensures var l := ListDelete(s, t); t in l.tasks && l.tasks[t].owned == s.tasks[t].owned && l.tasks[t].base == s.tasks[t].base
  {
    hide Remove;
  }

  lemma ReadyKeeps(s: S, t: Tid)
    requires t in s.tasks
    ensures var d := AddReady(s, t); t in d.tasks && d.tasks[t].prio == s.tasks[t].prio
  {
    hide AddReady;
    ReadyRecord(s, t);
  }

  lemma ToldOne(s: S, d: S, e: S, t: Tid, ts: seq<Tid>)
    requires t in s.tasks && ts != [] && t == ts[0] && NoDup(ts) && Dismissed(d, e, ts[1..], Msg(EDESTROY)) && d.tasks.Keys == s.tasks.Keys
    requires forall x | x in s.tasks && x != t :: d.tasks[x] == s.tasks[x]
    requires d.tasks[t] == Woke(s.tasks[t], d.tasks[t], Msg(EDESTROY)) && OwnPrios(d, e, ts[1..])
    requires s.tasks[t].owned == [] ==> d.tasks[t].prio == s.tasks[t].base
    ensures Dismissed(s, e, ts, Msg(EDESTROY)) && OwnPrios(s, e, ts)
  {
    assert t !in ts[1..];
    forall x | x in s.tasks ensures x in e.tasks && e.tasks[x] == if x in ts then Woke(s.tasks[x], e.tasks[x], Msg(EDESTROY)) else s.tasks[x] {
      assert x in d.tasks;
      assert x in ts <==> x == t || x in ts[1..];
    }
  }

  // The mutex is off its owner's list and its waiters are told.
  function Emptied(k: K, m: nat): K
    requires m in k.mtx
  {
    DestroyWaiters(k.(s := Forsake(k.s, k.mtx[m].owner, m), mtx := k.mtx[m := Mutex(0, Free)]), Queue(k.s, MtxQ(m)))
  }

  lemma EmptiedIs(k: K, m: nat)
    requires Inv(k) && m in k.mtx
    ensures var d := Emptied(k, m); var o := k.mtx[m].owner; var ts := Queue(k.s, MtxQ(m));
            && InvBut(d, k.sems, k.mtx - {m})
            && (forall w | w in ts :: w in k.s.tasks && w in d.s.tasks && Told(k.s.tasks[w], d.s.tasks[w], m))
            && (forall x | x in k.s.tasks && x !in ts && o != Held(x) :: x in d.s.tasks && d.s.tasks[x] == k.s.tasks[x])
            && (o.Held? ==> o.t !in ts && o.t in k.s.tasks && o.t in d.s.tasks && d.s.tasks[o.t] == Forsaken(k.s.tasks[o.t], m))
  {
    hide Core, States, InvBut, Only, DestroyWaiters, NoClaims, Remove, NoDup;
    var o := k.mtx[m].owner;
    var k1 := k.(s := Forsake(k.s, o, m), mtx := k.mtx[m := Mutex(0, Free)]);
    OpenAccount(k, m);
    var ts := Queue(k.s, MtxQ(m));
    assert k1.mtx - {m} == k.mtx - {m};
    WaitersTold(k1, m, ts);
    DestroyWaitersInv(k1, m, ts);
    if o.Held? { HeldFacts(k, m, k.sems, k.mtx); }
    forall w | w in ts ensures w in k.s.tasks && w in k1.s.tasks && k1.s.tasks[w] == k.s.tasks[w] && k1.s.tasks[w].call == InLock(m) && !k1.s.tasks[w].aborted {
      WaiterFacts(k1, m, w);
    }
  }

  // A waiter of m has been told that m is gone.
  predicate Told(r: Task, q: Task, m: nat) {
    q == Woke(r, q, Msg(EDESTROY)) && r.call == InLock(m) && !r.aborted && (r.owned == [] ==> q.prio == r.base)
  }

  // What the owner is left with.
  function Forsaken(r: Task, m: nat): Task {
    r.(owned := Remove(r.owned, m), token := if r.token == Handed(m) then Lost else r.token)
  }

  lemma SameBut(s: S, d: S, o: Tid, p: nat)
    requires o in s.tasks && Repositioned(s, d, o, p)
    ensures o in d.tasks && d.tasks[o] == s.tasks[o].(prio := p, state := d.tasks[o].state, elem := d.tasks[o].elem, inode := d.tasks[o].inode)
    ensures Runnable(d, o) <==> Runnable(s, o)
    ensures !Runnable(s, o) ==> d.tasks[o] == s.tasks[o].(prio := p)
  {
    hide Only;
  }

  // Every waiter can run again and its lock call will return EDESTROY; the owner, if there is
  // one, has the mutex no longer; nothing happens to the others.
  lemma DestroyTells(k: K, m: nat)
    requires Inv(k) && m in k.mtx
    ensures var d := MutexDestroy(k, m).k.s; var o := k.mtx[m].owner; var ts := Queue(k.s, MtxQ(m));
            && (forall w | w in ts :: w in k.s.tasks && w in d.tasks && Told(k.s.tasks[w], d.tasks[w], m))
            && (forall x | x in k.s.tasks && x !in ts && o != Held(x) :: x in d.tasks && d.tasks[x] == k.s.tasks[x])
            && (o.Held? ==> o.t in k.s.tasks && o.t in d.tasks && (Runnable(d, o.t) <==> Runnable(k.s, o.t))
                            && d.tasks[o.t] == Forsaken(k.s.tasks[o.t], m).(prio := CalcInherited(Emptied(k, m).s, o.t), state := d.tasks[o.t].state,
                                                                            elem := d.tasks[o.t].elem, inode := d.tasks[o.t].inode))
  {
    hide Core, States, InvBut, Only, DestroyWaiters, Reinherit, Remove, CalcInherited, Forsake, Repositioned, Told;
    EmptiedIs(k, m);
    var o := k.mtx[m].owner;
    if o.Held? {
      var d := Emptied(k, m);
      ReinheritInv(d, o.t, k.sems, k.mtx - {m});
      ReinheritFrame(d.s, Reinherit(d.s, o.t), o.t, CalcInherited(d.s, o.t));
      SameBut(d.s, Reinherit(d.s, o.t), o.t, CalcInherited(d.s, o.t));
    }
  }

  // ---- the end of a task ----

  // Giving the mutexes of u away changes, besides u, only tasks that wait for one of them.
  lemma ReleaseOneKeeps(k: K, u: Tid, m: nat, x: Tid)
    requires Inv(k) && u in k.s.tasks && NoReturn(k.s.tasks[u]) && m in k.mtx && k.mtx[m].owner == Held(u)
    requires x in k.s.tasks && x != u && !k.s.tasks[x].state.WtMtx?
    ensures var d := if Queue(k.s, MtxQ(m)) != [] then Transfer(k, m)
                     else k.(s := Detach(k.s, k.mtx[m].owner, m), mtx := k.mtx[m := Mutex(0, Free)]);
            x in d.s.tasks && d.s.tasks[x] == k.s.tasks[x]
  {
    hide Core, States, InvBut, Only, Own, Detach, NoClaims, Pass, Remove;
    HeldFacts(k, m, k.sems, k.mtx);
    DetachInv(k, m);
    var d := Detach(k.s, k.mtx[m].owner, m);
    var k1 := k.(s := d);
    OnlyHas(k.s, d, u);
    OnlyKeys(k.s, d, u);
    NobodyElse(d, m, u);
    CoreOf(k, k.sems, k.mtx);
    CoreOf(k1, k.sems, k.mtx - {m});
    NotIn(k.s, u, MtxQ(m));
    SameQueue(k.s, d, u, MtxQ(m));
    if Queue(k.s, MtxQ(m)) != [] {
      PassInv(k1, m);
      var n := Queue(d, MtxQ(m))[0];
      WaiterFacts(k1, m, n);
      OnlyKeys(d, Pass(k1, m).s, n);
    }
  }

  lemma {:induction false} ReleaseEachKeeps(k: K, u: Tid, ms: seq<nat>, x: Tid)
    requires Inv(k) && u in k.s.tasks && NoReturn(k.s.tasks[u]) && k.s.tasks[u].owned == ms
    requires x in k.s.tasks && x != u && !k.s.tasks[x].state.WtMtx?
    ensures x in ReleaseEach(k, ms).s.tasks && ReleaseEach(k, ms).s.tasks[x] == k.s.tasks[x]
    decreases |ms|
  {
    hide InvBut, Transfer, Detach;
    if ms != [] {
      var m := ms[0];
      assert m in ms;
      OwnedHeld(k, u, m);
      ReleaseOne(k, u, m);
      ReleaseOneKeeps(k, u, m, x);
      var d := if Queue(k.s, MtxQ(m)) != [] then Transfer(k, m)
               else k.(s := Detach(k.s, k.mtx[m].owner, m), mtx := k.mtx[m := Mutex(0, Free)]);
      ReleaseEachKeeps(d, u, ms[1..], x);
    }
  }

  lemma UnlockAllKeeps(k: K, u: Tid, x: Tid)
    requires Inv(k) && u in k.s.tasks && NoReturn(k.s.tasks[u]) && x in k.s.tasks && x != u && !k.s.tasks[x].state.WtMtx?
    ensures x in UnlockAllIn(k, u).s.tasks && UnlockAllIn(k, u).s.tasks[x] == k.s.tasks[x]
  {
    hide InvBut, ReleaseEach, Reinherit, Repositioned;
    var ms := k.s.tasks[u].owned;
    ReleaseEachInv(k, u, ms);
    ReleaseEachKeeps(k, u, ms, x);
    if u == k.current {
      var d := ReleaseEach(k, ms);
      ReinheritInv(d, u, d.sems, d.mtx);
      ReinheritFrame(d.s, Reinherit(d.s, u), u, CalcInherited(d.s, u));
    }
  }

  // What another task has been told survives the removal of t from its lists.
  lemma EndsKeeps(k: K, t: Tid, x: Tid)
    requires Inv(k) && t in k.s.tasks && t != IDLE && !Finished(k.s, t) && x in k.s.tasks && x != t && k.s.tasks[x].state.Ready?
    ensures var d := KillOrSuspend(k, t, false).s;
            x in d.tasks && d.tasks[x].obj == k.s.tasks[x].obj && d.tasks[x].call == k.s.tasks[x].call && d.tasks[x].state.Ready?
  {
    hide Core, States, InvBut, Only, LeaveQueue, Bury, TimeDelete, ReturnToken;
    SuspendInv(k, t);
    SuspendKeeps(k, t, x);
    LeaveHas(k.s, k.mtx, t);
    KillIs(k, t);
    var d := KillOrSuspend(k, t, true).s;
    BuryKeeps(d, t, !Retries(k.s.tasks[t].state) && d.tasks[t].aborted, x);
  }

  lemma BuryKeeps(s: S, t: Tid, a: bool, x: Tid)
    requires t in s.tasks && x in s.tasks && x != t
    ensures x in Bury(s, t, a).tasks && Bury(s, t, a).tasks[x] == s.tasks[x]
  {
  }

  lemma SuspendKeeps(k: K, t: Tid, x: Tid)
    requires Inv(k) && t in k.s.tasks && t != IDLE && !Finished(k.s, t) && x in k.s.tasks && x != t && k.s.tasks[x].state.Ready?
    ensures var d := KillOrSuspend(k, t, true).s;
            x in d.tasks && d.tasks[x].obj == k.s.tasks[x].obj && d.tasks[x].call == k.s.tasks[x].call && d.tasks[x].state.Ready?
  {
    hide Core, States, InvBut, Only, KillOrSuspend, OffList, TimeDelete, Reinherit, ReturnToken, CalcInherited, Tame, Repositioned;
    SuspendIs(k, t);
    ParkInv(k, t);
    var k1 := Park(k, t);
    OnlyKeys(k.s, k1.s, t);
    var r := k.s.tasks[t];
    if r.state.WtMtx? {
      var o := k.mtx[r.obj.m].owner.t;
      ReinheritInv(k1, o, k1.sems, k1.mtx);
      OtherKept(k1.s, Reinherit(k1.s, o), o, CalcInherited(k1.s, o), x);
    }
  }

  lemma OtherKept(s: S, d: S, o: Tid, p: nat, x: Tid)
    requires o in s.tasks && Repositioned(s, d, o, p) && x in s.tasks && s.tasks[x].state.Ready?
    ensures x in d.tasks && d.tasks[x].obj == s.tasks[x].obj && d.tasks[x].call == s.tasks[x].call && d.tasks[x].state.Ready?
  {
    hide Only;
  }

  // A killed task owns nothing, is on the list of zombies, and nobody waits for its end any
  // more: who did can run again and finds EOK if the task ended itself, else EDESTROY.
  lemma KillEnds(k: K, t: Tid)
    requires Inv(k) && t in k.s.tasks && t != IDLE && !Finished(k.s, t)
    ensures var d := Kill(k, t).s;
            && t in d.tasks && d.tasks[t].state.Zombie? && d.tasks[t].owned == [] && t in Queue(d, Zombies) && Queue(d, ExitQ(t)) == []
            && (forall w | w in Queue(k.s, ExitQ(t)) && w != t ::
                  w in d.tasks && d.tasks[w].state.Ready? && d.tasks[w].obj == Msg(if t == k.current then EOK else EDESTROY))
  {
    hide Core, States, InvBut, Abandon, UnlockAllIn, WakeAll, AllWoken, KillOrSuspend;
    AbandonInv(k, t);
    var k1 := k.(s := Abandon(k.s, t));
    UnlockAllInv(k1, t);
    var u := UnlockAllIn(k1, t);
    var o := Msg(if t == k.current then EOK else EDESTROY);
    var ts := Queue(u.s, ExitQ(t));
    ExitList(u, t);
    WakeAllInv(u, ExitQ(t), ts, o, u.sems, u.mtx);
    var w := WakeAll(u, ts, o);
    WokenRest(u, w, ts, o);
    WokenTask(u, w, t, ts, o);
    Ends(w, t);
    KillInv(k, t);
    Ended(Kill(k, t), t);
    forall x | x in Queue(k.s, ExitQ(t)) && x != t
      ensures x in Kill(k, t).s.tasks && Kill(k, t).s.tasks[x].state.Ready? && Kill(k, t).s.tasks[x].obj == o
    {
      WaiterLeft(k, k1, t, x);
      StillWaits(u, t, x);
      WokenWith(u, w, ts, o, x);
      EndsKeeps(w, t, x);
    }
  }

  lemma Ended(k: K, t: Tid)
    requires Inv(k) && t in k.s.tasks && k.s.tasks[t].state.Zombie?
    ensures t in Queue(k.s, Zombies) && Queue(k.s, ExitQ(t)) == []
  {
    hide TimeInv, TimeStates, Objects, OneRunning, Own, Sems, Events, Calls, NodeOrder, NodePrio, QueuesSorted, Prios;
    assert StateOk(k.s.tasks[t]) && Finished(k.s, t);
  }

  // x waits for the end of t, before and after t gave its mutexes away.
  lemma WaiterLeft(k: K, k1: K, t: Tid, x: Tid)
    requires Inv(k) && k1 == k.(s := Abandon(k.s, t)) && Inv(k1) && t in k1.s.tasks && NoReturn(k1.s.tasks[t])
    requires x in Queue(k.s, ExitQ(t)) && x != t
    ensures var u := UnlockAllIn(k1, t).s; x in u.tasks && u.tasks[x].inode == In(ExitQ(t))
  {
    hide TimeInv, TimeStates, Objects, OneRunning, Own, Sems, Events, Calls, NodeOrder, NodePrio, QueuesSorted, Prios, UnlockAllIn;
    assert StateOk(k.s.tasks[x]) && k.s.tasks[x].inode == In(ExitQ(t));
    UnlockAllKeeps(k1, t, x);
  }

  lemma StillWaits(k: K, t: Tid, x: Tid)
    requires Inv(k) && x in k.s.tasks && k.s.tasks[x].inode == In(ExitQ(t))
    ensures x in Queue(k.s, ExitQ(t))
  {
    hide Core, InvBut, States;
    CoreOf(k, k.sems, k.mtx);
    CoreLinked(k.s, x);
  }

  lemma WokenWith(k: K, d: K, ts: seq<Tid>, o: Obj, x: Tid)
    requires AllWoken(k, d, ts, o) && x in k.s.tasks && x in ts
    ensures x in d.s.tasks && d.s.tasks[x].obj == o && d.s.tasks[x].state.Ready?
  {
  }

  lemma Ends(k: K, t: Tid)
    requires Inv(k) && t in k.s.tasks && t != IDLE && !Finished(k.s, t)
    ensures var d := KillOrSuspend(k, t, false);
            t in d.s.tasks && d.s.tasks[t].state.Zombie? && d.s.tasks[t].owned == k.s.tasks[t].owned
  {
    hide Core, InvBut, LeaveQueue, TimeDelete, ReturnToken, Only, States, Insert;
    SuspendInv(k, t);
    LeaveHas(k.s, k.mtx, t);
    KillIs(k, t);
  }

  // ---- isix_task_change_prio ----

  // The base priority is the new one; the effective one follows it unless the task inherits a
  // more urgent one.  No other task changes.
  lemma ChangePrioIs(k: K, t: Tid, p: nat)
    requires Inv(k) && t in k.s.tasks
    ensures var o := ChangePrio(k, t, p); var d := o.k.s; var r := k.s.tasks[t];
            if p >= PRIOS then o == Out(k, Code(ENOPRIO))
            else
              && d.tasks.Keys == k.s.tasks.Keys && (r.base != p ==> o.ret == Code(r.base))
              && d.tasks[t] == r.(base := p, prio := NewPrio(r, p), state := d.tasks[t].state, elem := d.tasks[t].elem, inode := d.tasks[t].inode)
              && NewPrio(r, p) <= p && (Runnable(d, t) <==> Runnable(k.s, t))
              && (!Runnable(d, t) ==> d.tasks[t] == r.(base := p, prio := NewPrio(r, p)))
              && (forall x | x in k.s.tasks && x != t :: d.tasks[x] == k.s.tasks[x])
  {
    hide InvBut, Core, Only, Realloc, States, Put, Rebased;
    CoreOf(k, k.sems, k.mtx);
    CorePrios(k.s, t);
    var r := k.s.tasks[t];
    if p < PRIOS && r.base != p {
      if r.prio == r.base || p < r.prio {
        if p < r.base { MoreUrgent(k, t, p); } else { LessUrgent(k, t, p); }
      } else {
        BaseOnly(k.s, t, p);
      }
      RebasedIs(k.s, ChangePrio(k, t, p).k.s, t, p, NewPrio(r, p));
    }
  }

  // t has a new base priority and effective priority q, and nothing else is new but its place.
  ghost predicate Rebased(s: S, d: S, t: Tid, p: nat, q: nat) {
    && t in s.tasks && t in d.tasks && d.tasks == s.tasks[t := d.tasks[t]] && (Runnable(d, t) <==> Runnable(s, t))
    && d.tasks[t] == s.tasks[t].(base := p, prio := q, state := d.tasks[t].state, elem := d.tasks[t].elem, inode := d.tasks[t].inode)
    && (!Runnable(d, t) ==> d.tasks[t] == s.tasks[t].(base := p, prio := q))
  }

  lemma RebasedIs(s: S, d: S, t: Tid, p: nat, q: nat)
    requires Rebased(s, d, t, p, q)
    ensures d.tasks.Keys == s.tasks.Keys && (Runnable(d, t) <==> Runnable(s, t)) && (forall x | x in s.tasks && x != t :: d.tasks[x] == s.tasks[x])
    ensures d.tasks[t] == s.tasks[t].(base := p, prio := q, state := d.tasks[t].state, elem := d.tasks[t].elem, inode := d.tasks[t].inode)
    ensures !Runnable(d, t) ==> d.tasks[t] == s.tasks[t].(base := p, prio := q)
  {
  }

  lemma BaseOnly(s: S, t: Tid, p: nat)
    requires t in s.tasks
    ensures Rebased(s, Put(s, t, s.tasks[t].(base := p)), t, p, s.tasks[t].prio)
  {
  }

  lemma MoreUrgent(k: K, t: Tid, p: nat)
    requires Inv(k) && t in k.s.tasks && p < k.s.tasks[t].base
    ensures Rebased(k.s, Realloc(Put(k.s, t, k.s.tasks[t].(base := p)), t, p), t, p, p)
  {
    hide InvBut, Core, Only, Realloc, States;
    ReallocInv(k, t, p, k.sems, k.mtx);
    ReallocBase(k.s, t, p, p);
  }

  lemma LessUrgent(k: K, t: Tid, p: nat)
    requires Inv(k) && t in k.s.tasks && k.s.tasks[t].prio <= k.s.tasks[t].base <= p <= PRIOS
    ensures Rebased(k.s, Realloc(Put(k.s, t, k.s.tasks[t].(base := p)), t, p), t, p, p)
  {
    hide InvBut, Core, Only, Realloc, States;
    BaseInv(k, t, p);
    ReallocInv(k.(s := SetBase(k.s, t, p)), t, p, k.sems, k.mtx);
  }

  // The effective priority after a change of the base priority.
  function NewPrio(r: Task, p: nat): nat { if r.base == p || (r.prio < r.base && r.prio <= p) then r.prio else p }

  // ---- creation and the switch ----

  // A new task is ready or suspended at its priority, owns nothing and waits for nothing; no
  // other task changes.  A priority out of range creates nothing.
  lemma CreateMakes(k: K, t: Tid, prio: nat, suspended: bool, ref: bool)
    requires Inv(k) && t !in k.s.tasks
    ensures var d := TaskCreate(k, t, prio, suspended, ref); var r := NewTask(prio, suspended, ref);
            if prio > PRIOS then d == k
            else
              && t in d.s.tasks && d.s.tasks == k.s.tasks[t := d.s.tasks[t]] && d == k.(s := d.s, clock := d.clock)
              && d.clock == (if suspended then k.clock else TimeDelete(k.clock, t))
              && d.s.tasks[t] == if suspended then r else r.(obj := Msg(EOK), state := Ready, elem := d.s.tasks[t].elem, inode := d.s.tasks[t].inode)
  {
    hide Core, States, Only, InvBut, AddReady, TimeDelete;
    if prio <= PRIOS && !suspended {
      CoreOf(k, k.sems, k.mtx);
      var r := NewTask(prio, false, ref);
      NoExit(k, t);
      AddedCore(k.s, t, r);
      var a := Added(k.s, t, r);
      AwakeOk(a, t, Msg(EOK));
      var d := Awake(a, t, Msg(EOK));
      OnlyKeys(a, d, t);
      assert d.tasks == k.s.tasks[t := d.tasks[t]];
    }
  }

  lemma NoExit(k: K, t: Tid)
    requires Inv(k) && t !in k.s.tasks
    ensures ExitQ(t) !in k.s.queues
  {
  }

  // A switch changes no more of a task than whether it is marked running.
  lemma SwitchKeeps(k: K)
    requires Inv(k)
    ensures var d := Switch(k).s;
            d.tasks.Keys == k.s.tasks.Keys
            && (forall x | x in k.s.tasks :: d.tasks[x] == k.s.tasks[x].(state := d.tasks[x].state) && (Runnable(d, x) <==> Runnable(k.s, x)))
            && (forall x | x in k.s.tasks && !Runnable(k.s, x) :: d.tasks[x] == k.s.tasks[x])
  {
    hide Core, States, InvBut, Only, Rotate, Tame, Switch;
    CoreOf(k, k.sems, k.mtx);
    CurrentThere(k);
    RotateOk(k.s, k.current);
    var r := Rotate(k.s, k.current);
    OnlyKeys(k.s, r, k.current);
    SwitchIs(k);
    var d, t := Switch(k).s, Switch(k).current;
    forall x | x in k.s.tasks
      ensures d.tasks[x] == k.s.tasks[x].(state := d.tasks[x].state) && (Runnable(d, x) <==> Runnable(k.s, x))
      ensures !Runnable(k.s, x) ==> d.tasks[x] == k.s.tasks[x]
    {
      assert r.tasks[x] == k.s.tasks[x].(state := r.tasks[x].state) && (Runnable(r, x) <==> Runnable(k.s, x));
    }
  }

  lemma SwitchIs(k: K)
    requires Inv(k)
    ensures var d, t := Rotate(k.s, k.current), Switch(k).current;
            t in d.tasks && d.tasks[t].state.Ready? && Switch(k).s == Put(d, t, d.tasks[t].(state := Running))
  {
    hide Core, States, InvBut, Only, Rotate, Tame;
    SwitchInv(k);
    var d := Switch(k);
    CoreOf(d, d.sems, d.mtx);
    CoreLinks(d.s);
  }

  // A task more urgent than all others that can run is the next to run.
  lemma SwitchTo(k: K, t: Tid)
    requires Inv(k) && Runnable(k.s, t) && (forall x | Runnable(k.s, x) && x != t :: k.s.tasks[t].prio < k.s.tasks[x].prio)
    ensures Switch(k).current == t
  {
    hide InvBut, Switch, Tame;
    SwitchInv(k);
    SwitchKeeps(k);
    assert Runnable(Switch(k).s, t);
  }

  // ---- locking and unlocking, seen from the other task ----

  function Least(a: nat, b: nat): nat { if a < b then a else b }

  // A lock that has to wait: the caller is on the list, its owner at least as urgent.
  lemma LockBlocks(k: K, m: nat)
    requires Inv(k) && Runnable(k.s, k.current) && k.current != IDLE && m in k.mtx && k.mtx[m].owner.Held? && k.mtx[m].owner.t != k.current
    ensures var o := MutexLock(k, m); var d := o.k.s; var c, w := k.current, k.mtx[m].owner.t;
            && o.ret == Blocked && o.k == k.(s := d) && w in k.s.tasks && w in d.tasks && c in d.tasks && d.tasks.Keys == k.s.tasks.Keys
            && d.tasks[c] == k.s.tasks[c].(call := InLock(m), token := NoToken, aborted := false, state := WtMtx, inode := In(MtxQ(m)), obj := Mtx(m))
            && d.tasks[w].prio == Least(k.s.tasks[c].prio, k.s.tasks[w].prio) && (Runnable(d, w) <==> Runnable(k.s, w))
            && d.tasks[w] == k.s.tasks[w].(prio := d.tasks[w].prio, state := d.tasks[w].state, elem := d.tasks[w].elem, inode := d.tasks[w].inode)
            && (k.s.tasks[w].prio <= k.s.tasks[c].prio ==> d.tasks[w] == k.s.tasks[w])
            && (forall x | x in k.s.tasks && x != c && x != w :: d.tasks[x] == k.s.tasks[x])
            && c in Queue(d, MtxQ(m))
  {
    hide InvBut, Core, States, Only, BlockOnMutex, Realloc;
    var c, w := k.current, k.mtx[m].owner.t;
    HeldFacts(k, m, k.sems, k.mtx);
    var p := k.s.tasks[c].prio;
    InheritInv(k, w, p);
    var k1 := k.(s := Inherit(k.s, w, p));
    InheritIs(k, w, p);
    BlockMutexInv(k1, m);
    var d := BlockOnMutex(k1, m);
    OnlyKeys(k1.s, d.s, c);
    CoreOf(d, d.sems, d.mtx);
    CoreLinked(d.s, c);
  }

  lemma InheritIs(k: K, w: Tid, p: nat)
    requires Inv(k) && w in k.s.tasks
    ensures var d := Inherit(k.s, w, p);
            && d.tasks.Keys == k.s.tasks.Keys && d.tasks[w].prio == Least(p, k.s.tasks[w].prio) && (Runnable(d, w) <==> Runnable(k.s, w))
            && d.tasks[w] == k.s.tasks[w].(prio := d.tasks[w].prio, state := d.tasks[w].state, elem := d.tasks[w].elem, inode := d.tasks[w].inode)
  {
    hide InvBut, Only, Realloc, Core, States;
    if p < k.s.tasks[w].prio {
      CoreOf(k, k.sems, k.mtx);
      CorePrios(k.s, w);
      ReallocInv(k, w, p, k.sems, k.mtx);
      OnlyKeys(k.s, Realloc(k.s, w, p), w);
    }
  }

  // The last unlock of a mutex with waiters: the first of them is the owner and can run, the
  // caller keeps the priority its other mutexes give it, and no other task changes.
  lemma UnlockHands(k: K, m: nat)
    requires Inv(k) && Runnable(k.s, k.current) && k.s.tasks[k.current].call == NoCall
    requires m in k.mtx && k.mtx[m] == Mutex(1, Held(k.current)) && Queue(k.s, MtxQ(m)) != []
    ensures var o := MutexUnlock(k, m); var d := o.k.s; var c, n := k.current, Queue(k.s, MtxQ(m))[0];
            && o.ret == Code(EOK) && o.k.current == c && o.k.mtx == k.mtx[m := Mutex(1, Held(n))] && n != c && n in k.s.tasks && n in d.tasks && c in d.tasks
            && d.tasks.Keys == k.s.tasks.Keys && k.s.tasks[n].call == InLock(m)
            && d.tasks[n] == k.s.tasks[n].(owned := InsertFirst(k.s.tasks[n].owned, m), token := Handed(m), obj := Msg(EOK), state := Ready,
                                           elem := d.tasks[n].elem, inode := d.tasks[n].inode)
            && d.tasks[c].state.Ready?
            && d.tasks[c] == k.s.tasks[c].(owned := Remove(k.s.tasks[c].owned, m), prio := CalcInherited(Detach(k.s, Held(c), m), c),
                                           state := d.tasks[c].state, elem := d.tasks[c].elem, inode := d.tasks[c].inode)
            && (forall x | x in k.s.tasks && x != c && x != n :: d.tasks[x] == k.s.tasks[x])
  {
    hide Core, States, InvBut, Only, Own, Detach, Realloc, CalcInherited, NoClaims, Pass, Remove, InsertFirst;
    var c := k.current;
    HeldFacts(k, m, k.sems, k.mtx);
    ReadyOnNode(k, c);
    DetachInv(k, m);
    var d := Detach(k.s, k.mtx[m].owner, m);
    var k1 := k.(s := d);
    OnlyHas(k.s, d, c);
    OnlyKeys(k.s, d, c);
    NobodyElse(d, m, c);
    CoreOf(k, k.sems, k.mtx);
    CoreOf(k1, k.sems, k.mtx - {m});
    SameQueue(k.s, d, c, MtxQ(m));
    var p := CalcInherited(d, c);
    CalcBound(d, c);
    ReallocInv(k1, c, p, k.sems, k.mtx - {m});
    var k2 := k1.(s := Realloc(d, c, p));
    OnlyKeys(d, k2.s, c);
    CoreOf(k2, k.sems, k.mtx - {m});
    SameQueue(d, k2.s, c, MtxQ(m));
    ClaimsKept(d, k2.s, c, m, {});
    assert {} - {c} == {};
    PartsOf(k2, k.sems, k.mtx - {m});
    NotOwned(k2.s, k.mtx, m, c);
    DetachNothing(k2.s, Held(c), m);
    PassInv(k2, m);
    var n := Queue(k2.s, MtxQ(m))[0];
    assert n in Queue(k2.s, MtxQ(m));
    OnlyKeys(k2.s, Pass(k2, m).s, n);
  }
}
