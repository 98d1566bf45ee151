/**
 The software timers of libisix/kernel/softtimers.c, handled by one worker thread.  Callbacks
 do not change the timers.  `start` and `fired` record when a timer was started and how often
 its callback ran; no operation reads them.
 */
module SoftTimers {
  import opened Lists

  const TICKS: nat := 0x1_0000_0000   // ostick_t is 32 bits wide

  datatype Timer = Timer(jiffies: nat, timeout: nat, cyclic: bool, active: bool, start: nat, fired: nat)

  // ---- when callbacks are due ----

  // Periods of the timer that have ended at now.
  function Ended(t: Timer, now: nat): nat
    requires t.timeout > 0 && t.start <= now
  {
    (now - t.start) / t.timeout
  }

  // The timer waits for its next deadline, a whole number of periods after its start.
  predicate Waiting(t: Timer) {
    && t.timeout > 0 && t.active && t.jiffies == t.start + (t.fired + 1) * t.timeout && t.jiffies < TICKS
    && (!t.cyclic ==> t.fired == 0)
  }

  // The first deadline after now fits the tick counter.
  predicate InTime(t: Timer, now: nat)
    requires t.timeout > 0
  {
    t.cyclic && t.start <= now ==> t.start + (Ended(t, now) + 1) * t.timeout < TICKS
  }

  // exec_timer_callback
  function Fired(t: Timer): Timer { t.(fired := t.fired + 1, active := t.cyclic && t.active) }

  // cyclic_reschedule_after_fire, on a counter that does not wrap: one period after the other
  function Rescheduled(t: Timer, now: nat): (r: Timer)
    requires t.timeout > 0
    ensures r == t.(jiffies := r.jiffies, fired := r.fired, active := r.active) && (t.cyclic && t.active ==> r.active)
    decreases now - t.jiffies
  {
    var next := t.jiffies + t.timeout;
    if now >= next then Rescheduled(Fired(t).(jiffies := next), now) else t.(jiffies := next)
  }

  // What handling the time now makes of a listed timer.
  function Handled(t: Timer, now: nat): (r: Timer)
    requires t.timeout > 0
    ensures r == t.(jiffies := r.jiffies, fired := r.fired, active := r.active)
    ensures t.active ==> (r.active <==> t.cyclic || now < t.jiffies)
  {
    if now < t.jiffies then t else if !t.cyclic then Fired(t) else Rescheduled(Fired(t), now)
  }

  // ---- the counting ----

  lemma {:induction false} MulLess(a: nat, b: nat, p: nat)
    ensures a < b ==> a * p + p <= b * p
    ensures a <= b ==> a * p <= b * p
    decreases b
  {
    if a < b {
      assert b * p == (b - 1) * p + p;
      MulLess(a, b - 1, p);
    }
  }

  lemma EndedIs(t: Timer, now: nat, k: nat)
    requires t.timeout > 0 && t.start + k * t.timeout <= now < t.start + (k + 1) * t.timeout
    ensures t.start <= now && Ended(t, now) == k
  {
    var d, p := now - t.start, t.timeout;
    assert (k + 1) * p == k * p + p;
    assert d == d / p * p + d % p;
    MulLess(d / p, k, p);
    MulLess(k, d / p, p);
  }

  lemma EndedFacts(t: Timer, now: nat)
    requires t.timeout > 0 && t.start <= now
    ensures t.start + Ended(t, now) * t.timeout <= now < t.start + (Ended(t, now) + 1) * t.timeout
  {
    var d, p := now - t.start, t.timeout;
    assert d == d / p * p + d % p && (d / p + 1) * p == d / p * p + p;
  }

  lemma {:induction false} RescheduledIs(t: Timer, now: nat)
    requires t.timeout > 0 && t.active && t.cyclic && t.jiffies == t.start + t.fired * t.timeout <= now
    ensures t.start <= now
    ensures Rescheduled(t, now) == t.(fired := Ended(t, now), jiffies := t.start + (Ended(t, now) + 1) * t.timeout)
    decreases now - t.jiffies
  {
    hide Ended;
    OnePeriod(t);
    if now >= t.jiffies + t.timeout {
      var n := Fired(t).(jiffies := t.jiffies + t.timeout);
      RescheduledIs(n, now);
      EndedSame(t, n, now);
    } else {
      EndedIs(t, now, t.fired);
    }
  }

  lemma OnePeriod(t: Timer)
    ensures t.start <= t.start + t.fired * t.timeout && (t.fired + 1) * t.timeout == t.fired * t.timeout + t.timeout
  {
    MulLess(0, t.fired, t.timeout);
  }

  lemma EndedSame(t: Timer, n: Timer, now: nat)
    requires t.timeout > 0 && t.start <= now && n.start == t.start && n.timeout == t.timeout
    ensures Ended(n, now) == Ended(t, now)
  {
  }

  // Once due, a cyclic timer has fired once per ended period and waits for the end of the next.
  lemma HandledIs(t: Timer, now: nat)
    requires Waiting(t) && t.cyclic && t.jiffies <= now
    ensures t.start <= now
    ensures Handled(t, now) == t.(fired := Ended(t, now), jiffies := t.start + (Ended(t, now) + 1) * t.timeout)
  {
    RescheduledIs(Fired(t), now);
  }

  // A waiting timer stays one, is not due any more, and has fired once per ended period.
  lemma HandledWaits(t: Timer, now: nat)
    requires Waiting(t) && InTime(t, now) && t.cyclic
    ensures Waiting(Handled(t, now)) && now < Handled(t, now).jiffies && Handled(t, now).fired >= t.fired
    ensures t.jiffies <= now ==> Handled(t, now).fired == Ended(t, now)
  {
    if t.jiffies <= now {
      HandledIs(t, now);
      EndedFacts(t, now);
      MulLess(Ended(t, now) + 1, t.fired + 1, t.timeout);
    }
  }

  // A timer that has fired as often as it should keeps doing so: by time now a cyclic timer has
  // fired floor((now - start) / period) times, a one-shot once and not before its deadline.
  lemma FiresOnTime(t: Timer, now: nat)
    requires Waiting(t) && t.start + t.fired * t.timeout <= now
    ensures Handled(t, now).fired == if t.cyclic then (now - t.start) / t.timeout else if now < t.start + t.timeout then 0 else 1
  {
    assert (t.fired + 1) * t.timeout == t.fired * t.timeout + t.timeout;
    if t.cyclic {
      if now < t.jiffies { EndedIs(t, now, t.fired); } else { HandledIs(t, now); }
    }
  }

  // Handling at several times is handling at the last one.
  lemma HandledTwice(t: Timer, a: nat, b: nat)
    requires Waiting(t) && a <= b && t.cyclic && t.start <= a && InTime(t, a)
    ensures Handled(Handled(t, a), b) == Handled(t, b)
  {
    var m := Handled(t, a);
    HandledWaits(t, a);
    if a >= t.jiffies {
      HandledIs(t, a);
      HandledIs(t, b);
      EndedFacts(t, a);
      if b < m.jiffies { EndedIs(t, b, Ended(t, a)); } else { HandledIs(m, b); }
    }
  }

  // A timer handled at one time after the other; once inactive it is on no list.
  function Worked(t: Timer, times: seq<nat>): Timer
    requires t.timeout > 0
    decreases |times|
  {
    if times == [] || !t.active then t else Worked(Handled(t, times[0]), times[1..])
  }

  predicate Ascending(times: seq<nat>) { forall i, j | 0 <= i < j < |times| :: times[i] <= times[j] }

  lemma {:induction false} WorkedOnce(t: Timer, times: seq<nat>)
    requires Waiting(t) && times != [] && Ascending(times) && t.start <= times[0] && (forall i | 0 <= i < |times| :: InTime(t, times[i]))
    ensures Worked(t, times) == Handled(t, times[|times| - 1])
    decreases |times|
  {
    var a, last := times[0], times[|times| - 1];
    var m := Handled(t, a);
    var rest := times[1..];
    if rest == [] {
      assert Worked(m, rest) == m;
    } else if !m.active {
      assert !t.cyclic && t.jiffies <= a <= last;
    } else {
      assert rest[|rest| - 1] == last && a <= rest[0];
      if t.cyclic { HandledWaits(t, a); }
      assert forall i | 0 <= i < |rest| :: rest[i] == times[i + 1];
      SameInTime(t, m, rest);
      WorkedOnce(m, rest);
      if t.cyclic { HandledTwice(t, a, last); }
    }
  }

  lemma SameInTime(t: Timer, m: Timer, times: seq<nat>)
    requires t.timeout > 0 && m == t.(jiffies := m.jiffies, fired := m.fired) && (forall i | 0 <= i < |times| :: InTime(t, times[i]))
    ensures forall i | 0 <= i < |times| :: InTime(m, times[i])
  {
    forall i | 0 <= i < |times| ensures InTime(m, times[i]) { assert InTime(t, times[i]); }
  }

  lemma NotBefore(t: Timer)
    ensures t.start <= t.start + t.fired * t.timeout
  {
    MulLess(0, t.fired, t.timeout);
  }

  lemma NotBeforeLast(times: seq<nat>)
    requires times != [] && Ascending(times)
    ensures times[0] <= times[|times| - 1]
  {
  }

  // Whenever the worker ran in between, the callbacks made by the last of the times are right.
  lemma FiresInEveryRun(t: Timer, times: seq<nat>)
    requires Waiting(t) && times != [] && Ascending(times) && t.start + t.fired * t.timeout <= times[0]
    requires forall i | 0 <= i < |times| :: InTime(t, times[i])
    ensures var last := times[|times| - 1];
            Worked(t, times).fired == if t.cyclic then (last - t.start) / t.timeout else if last < t.start + t.timeout then 0 else 1
  {
    hide Worked, Handled, InTime;
    NotBefore(t);
    WorkedOnce(t, times);
    NotBeforeLast(times);
    FiresOnTime(t, times[|times| - 1]);
  }

  // ---- where the catch-up loop goes wrong ----

  // The j-th value of `next` in cyclic_reschedule_after_fire; it wraps at 2^32.
  function NextAt(t: Timer, j: nat): nat { (t.jiffies + (j + 1) * t.timeout) % TICKS }

  lemma Edge(t: Timer, j: nat)
    requires t.jiffies == t.start + (t.fired + 1) * t.timeout
    ensures t.jiffies + (j + 1) * t.timeout == t.start + (t.fired + 2 + j) * t.timeout
  {
    assert (t.fired + 1) * t.timeout + (j + 1) * t.timeout == (t.fired + 2 + j) * t.timeout;
  }

  lemma MissedEdge(t: Timer, now: nat, j: nat)
    requires Waiting(t) && t.start <= now < TICKS && t.fired + 2 + j <= Ended(t, now)
    ensures NextAt(t, j) <= now
  {
    hide Ended;
    Edge(t, j);
    EndedFacts(t, now);
    MulLess(t.fired + 2 + j, Ended(t, now), t.timeout);
    var n := t.jiffies + (j + 1) * t.timeout;
    assert n <= now;
  }

  lemma PeriodFits(t: Timer)
    requires Waiting(t)
    ensures t.timeout < TICKS
  {
    assert (t.fired + 1) * t.timeout == t.fired * t.timeout + t.timeout;
  }

  lemma LastEdge(t: Timer, now: nat, j: nat)
    requires Waiting(t) && t.cyclic && t.start <= now < TICKS && t.fired + 1 + j == Ended(t, now)
    ensures now < NextAt(t, j) <==> InTime(t, now)
  {
    Edge(t, j);
    EndedFacts(t, now);
    PeriodFits(t);
    var n := t.start + (Ended(t, now) + 1) * t.timeout;
    assert (Ended(t, now) + 1) * t.timeout == Ended(t, now) * t.timeout + t.timeout;
    assert n <= now + t.timeout < 2 * TICKS;
  }

  // The loop makes exactly the missed calls if and only if the first deadline after now fits the
  // tick counter.  Otherwise it runs on after the last missed call.
  lemma CatchUpExact(t: Timer, now: nat)
    requires Waiting(t) && t.cyclic && t.jiffies <= now < TICKS
    ensures var k := Ended(t, now) - t.fired - 1;
            && k >= 0 && (forall j | 0 <= j < k :: NextAt(t, j) <= now)
            && (now < NextAt(t, k) <==> InTime(t, now))
  {
    EndedFacts(t, now);
    MulLess(Ended(t, now) + 1, t.fired + 1, t.timeout);
    var k := Ended(t, now) - t.fired - 1;
    hide Ended, NextAt, InTime;
    forall j | 0 <= j < k ensures NextAt(t, j) <= now { MissedEdge(t, now, j); }
    LastEdge(t, now, k);
  }

  // A cyclic timer due at the last tick before the wrap, handled at that tick: no next deadline
  // fits, and the guard of the loop holds at every turn.
  lemma CatchUpForever(t: Timer)
    requires Waiting(t) && t.cyclic && t.jiffies == TICKS - 1
    ensures !InTime(t, TICKS - 1) && forall j: nat :: NextAt(t, j) <= TICKS - 1
  {
    EndedIsNext(t);
  }

  lemma EndedIsNext(t: Timer)
    requires Waiting(t) && t.cyclic && t.jiffies == TICKS - 1
    ensures t.start <= TICKS - 1 && t.start + (Ended(t, TICKS - 1) + 1) * t.timeout >= TICKS
  {
    assert (t.fired + 2) * t.timeout == (t.fired + 1) * t.timeout + t.timeout;
    MulLess(0, t.fired + 1, t.timeout);
    EndedIs(t, TICKS - 1, t.fired + 1);
  }

  // There is such a timer for every period: one started that long before.
  lemma DueAtTheEnd(p: nat)
    requires 0 < p < TICKS
    ensures Waiting(Timer(TICKS - 1, p, true, true, TICKS - 1 - p, 0))
  {
  }

  // ---- a start ----

  // The first deadline: a period after the start, or after now when that has passed.
  function Deadline(now: nat, itime: nat, tout: nat): nat { if itime + tout <= now then now + tout else itime + tout }

  // The record of a timer that is started at itime when the worker gets to it at now.  A late
  // start fires at once and, when cyclic, counts its periods from now on.
  function Armed(now: nat, itime: nat, tout: nat, cyclic: bool): Timer {
    if now < itime + tout then Timer((itime + tout) % TICKS, tout, cyclic, true, itime, 0)
    else if cyclic then Timer((now + tout) % TICKS, tout, true, true, now - tout, 1)
    else Timer(itime, tout, false, false, itime, 1)
  }

  // It waits for its deadline and has fired as often as it should.
  lemma ArmedWaits(now: nat, itime: nat, tout: nat, cyclic: bool)
    requires itime <= now < TICKS && 0 < tout < TICKS && Armed(now, itime, tout, cyclic).active && Deadline(now, itime, tout) < TICKS
    ensures var t := Armed(now, itime, tout, cyclic); Waiting(t) && t.timeout == tout && t.start + t.fired * tout <= now
  {
  }

  // The record t before its timeout is added.
  lemma ArmedIs(now: nat, itime: nat, tout: nat, cyclic: bool, t: Timer)
    requires itime <= now < TICKS && 0 < tout < TICKS
    requires t == if now - itime < tout then Timer(itime, tout, cyclic, true, itime, 0)
                  else if cyclic then Timer(now, tout, true, true, now - tout, 1) else Timer(itime, tout, false, false, itime, 1)
    ensures var a, d := Armed(now, itime, tout, cyclic), t.jiffies + tout;
            && a.active == t.active && t.jiffies <= now && t.timeout == tout && (!t.active ==> a == t)
            && (t.active ==> d == Deadline(now, itime, tout) && now <= d && a == t.(jiffies := if d < TICKS then d else d - TICKS))
            && (t.active && d < TICKS ==> Waiting(t.(jiffies := d)))
  {
  }

  // ---- the worker's lists ----

  predicate ByDeadline(timers: map<nat, Timer>, ids: seq<nat>) {
    && (forall i | 0 <= i < |ids| :: ids[i] in timers)
    && (forall i, j | 0 <= i < j < |ids| :: ids[i] != ids[j] && timers[ids[i]].jiffies <= timers[ids[j]].jiffies)
  }

  predicate AllWaiting(timers: map<nat, Timer>, ids: seq<nat>) {
    forall i | 0 <= i < |ids| :: ids[i] in timers && Waiting(timers[ids[i]])
  }

  predicate AllInTime(timers: map<nat, Timer>, ids: seq<nat>, now: nat)
    requires AllWaiting(timers, ids)
  {
    forall i | 0 <= i < |ids| :: InTime(timers[ids[i]], now)
  }

  // Behind every timer whose deadline is not later.
  lemma InsertByDeadline(timers: map<nat, Timer>, ids: seq<nat>, i: nat, id: nat, t: Timer)
    requires ByDeadline(timers, ids) && id !in ids && i <= |ids|
    requires forall j | 0 <= j < |ids| :: j < i <==> timers[ids[j]].jiffies <= t.jiffies
    ensures ByDeadline(timers[id := t], Insert(ids, i, id))
    ensures forall x :: x in Insert(ids, i, id) <==> x == id || x in ids
  {
    var d, n := Insert(ids, i, id), timers[id := t];
    InsertFacts(ids, i, id);
    forall a, b | 0 <= a < b < |d| ensures d[a] != d[b] && d[a] in n && d[b] in n && n[d[a]].jiffies <= n[d[b]].jiffies {
      PairInOrder(timers, ids, i, id, t, a, b);
    }
    hide Insert;
    forall j | 0 <= j < |d| ensures d[j] in n { assert d[j] in d; }
  }

  lemma PairInOrder(timers: map<nat, Timer>, ids: seq<nat>, i: nat, id: nat, t: Timer, a: nat, b: nat)
    requires ByDeadline(timers, ids) && id !in ids && i <= |ids| && a < b <= |ids|
    requires forall j | 0 <= j < |ids| :: j < i <==> timers[ids[j]].jiffies <= t.jiffies
    ensures var d, n := Insert(ids, i, id), timers[id := t]; d[a] != d[b] && d[a] in n && d[b] in n && n[d[a]].jiffies <= n[d[b]].jiffies
  {
    var d := Insert(ids, i, id);
    hide Insert;
    if b == i {
      assert d[a] == ids[a];
    } else {
      var y := if b < i then b else b - 1;
      assert d[b] == ids[y];
      if a != i {
        var x := if a < i then a else a - 1;
        assert d[a] == ids[x] && x < y;
      }
    }
  }

  class Worker {
    var timers: map<nat, Timer>
    var list: seq<nat>   // deadlines in the current wrap of the tick counter
    var ovf: seq<nat>    // deadlines after the wrap

    ghost predicate Valid()
      reads this
    {
      && ByDeadline(timers, list) && AllWaiting(timers, list)
      && ByDeadline(timers, ovf) && (forall x | x in ovf :: x !in list)
    }

    constructor ()
      ensures Valid() && timers == map[] && list == [] && ovf == []
    {
      timers, list, ovf := map[], [], [];
    }

    // exec_timer_callback
    method Exec(id: nat)
      requires id in timers
      modifies this`timers
      ensures timers == old(timers)[id := old(timers)[id].(fired := old(timers)[id].fired + 1, active := old(timers)[id].cyclic && old(timers)[id].active)]
    {
      var t := timers[id];
      timers := timers[id := t.(fired := t.fired + 1, active := t.cyclic && t.active)];
    }

    // add_list_with_prio
    method Place(ids: seq<nat>, j: nat) returns (i: nat)
      requires ByDeadline(timers, ids)
      ensures i <= |ids| && (forall k | 0 <= k < |ids| :: k < i <==> timers[ids[k]].jiffies <= j)
    {
      i := 0;
      while i < |ids| && !(j < timers[ids[i]].jiffies)
        invariant i <= |ids| && (forall k | 0 <= k < i :: timers[ids[k]].jiffies <= j)
      {
        i := i + 1;
      }
    }

    // add_vtimer_to_list, for a timer whose deadline stays in this wrap
    method Add(now: nat, id: nat)
      requires ByDeadline(timers, list) && AllWaiting(timers, list) && id in timers && id !in list
      requires var t := timers[id]; t.jiffies + t.timeout < TICKS && now <= t.jiffies + t.timeout
      requires var t := timers[id]; Waiting(t.(jiffies := t.jiffies + t.timeout))
      modifies this`timers, this`list
      ensures var t := old(timers)[id]; timers == old(timers)[id := t.(jiffies := t.jiffies + t.timeout)]
      ensures ByDeadline(timers, list) && AllWaiting(timers, list) && (forall x :: x in list <==> x == id || x in old(list))
    {
      var t := timers[id];
      var d := t.(jiffies := (t.jiffies + t.timeout) % TICKS);
      var i := Place(list, d.jiffies);
      InsertByDeadline(timers, list, i, id, d);
      timers := timers[id := d];
      list := Insert(list, i, id);
      forall k | 0 <= k < |list| ensures list[k] in timers && Waiting(timers[list[k]]) { assert list[k] in list; }
    }

    // add_vtimer_to_list for a deadline after the wrap
    method AddAfterWrap(now: nat, id: nat)
      requires ByDeadline(timers, ovf) && id in timers && id !in ovf && now < TICKS
      requires var t := timers[id]; TICKS <= t.jiffies + t.timeout < now + TICKS
      modifies this`timers, this`ovf
      ensures var t := old(timers)[id]; timers == old(timers)[id := t.(jiffies := t.jiffies + t.timeout - TICKS)]
      ensures ByDeadline(timers, ovf) && (forall x :: x in ovf <==> x == id || x in old(ovf))
    {
      var t := timers[id];
      var d := t.(jiffies := (t.jiffies + t.timeout) % TICKS);
      var i := Place(ovf, d.jiffies);
      InsertByDeadline(timers, ovf, i, id, d);
      timers := timers[id := d];
      ovf := Insert(ovf, i, id);
    }

    // add_vtimer_to_list
    method AddVtimer(now: nat, id: nat)
      requires Valid() && id in timers && id !in list && id !in ovf && now < TICKS
      requires var t := timers[id]; t.jiffies <= now <= t.jiffies + t.timeout && t.timeout < TICKS
      requires var t := timers[id]; t.jiffies + t.timeout < TICKS ==> Waiting(t.(jiffies := t.jiffies + t.timeout))
      modifies this
      ensures Valid()
      ensures var t := old(timers)[id]; var d := t.jiffies + t.timeout;
              && timers == old(timers)[id := t.(jiffies := if d < TICKS then d else d - TICKS)]
              && (forall x :: x in list <==> x in old(list) || (x == id && d < TICKS)) && (forall x :: x in ovf <==> x in old(ovf) || (x == id && d >= TICKS))
    {
      hide Waiting;
      var t := timers[id];
      var d := (t.jiffies + t.timeout) % TICKS;
      Elsewhere(timers, list, id, t.(jiffies := d));
      Elsewhere(timers, ovf, id, t.(jiffies := d));
      if t.jiffies + t.timeout < TICKS { Add(now, id); } else { AddAfterWrap(now, id); }
    }

    // handle_cancel, as a start command runs it first
    method HandleCancel(id: nat)
      requires Valid() && id in timers
      modifies this
      ensures Valid() && id in timers && timers == old(timers)[id := old(timers)[id].(active := timers[id].active)]
      ensures (forall x :: x in list <==> x in old(list) && x != id) && (forall x :: x in ovf <==> x in old(ovf) && x != id)
      ensures timers[id].active == (old(timers)[id].active && id !in old(list) && id !in old(ovf))
    {
      var t := timers[id];
      Without(timers, list, id, t.(active := false));
      Without(timers, ovf, id, t.(active := false));
      if id in list || id in ovf {
        list, ovf := Remove(list, id), Remove(ovf, id);
        timers := timers[id := t.(active := false)];
      }
      assert timers == old(timers)[id := timers[id]];
    }

    // handle_add for a timer that is on no list.
    method HandleAdd(now: nat, id: nat, itime: nat, tout: nat, cyclic: bool)
      requires Valid() && id !in list && id !in ovf && itime <= now < TICKS && 0 < tout < TICKS
      modifies this
      ensures Valid() && timers == old(timers)[id := Armed(now, itime, tout, cyclic)]
      ensures forall x :: x in list <==> if x == id then Armed(now, itime, tout, cyclic).active && Deadline(now, itime, tout) < TICKS else x in old(list)
      ensures forall x :: x in ovf <==> if x == id then Armed(now, itime, tout, cyclic).active && Deadline(now, itime, tout) >= TICKS else x in old(ovf)
    {
      hide Waiting, Armed;
      var t := Timer(itime, tout, cyclic, true, itime, 0);
      if now - itime >= tout {
        // the callback runs at once
        t := t.(fired := 1, active := cyclic);
        if cyclic { t := t.(jiffies := now, start := now - tout); }
      }
      ArmedIs(now, itime, tout, cyclic, t);
      Elsewhere(timers, list, id, t);
      Elsewhere(timers, ovf, id, t);
      timers := timers[id := t];
      if t.active { AddVtimer(now, id); }
    }

    // cyclic_reschedule_after_fire: one callback per missed period, then the next deadline
    method CatchUp(id: nat, now: nat, ghost was: Timer)
      requires ByDeadline(timers, list) && AllWaiting(timers, list) && id in timers && id !in list && now < TICKS
      requires Waiting(was) && was.cyclic && was.jiffies <= now && InTime(was, now) && timers[id] == was.(fired := was.fired + 1)
      modifies this`timers, this`list
      ensures timers == old(timers)[id := Handled(was, now)]
      ensures ByDeadline(timers, list) && AllWaiting(timers, list) && (forall x :: x in list <==> x == id || x in old(list))
    {
      hide Handled;
      var next := (timers[id].jiffies + timers[id].timeout) % TICKS;
      FirstEdge(was, now);
      ghost var f := was.fired + 1;
      while now >= next
        invariant f >= was.fired + 1 && next == was.start + (f + 1) * was.timeout < TICKS
        invariant was.start + f * was.timeout <= now
        invariant timers == old(timers)[id := was.(fired := f)] && list == old(list)
        decreases now + was.timeout - next
      {
        NextEdge(was, now, f);
        Exec(id);
        f := f + 1;
        next := (next + timers[id].timeout) % TICKS;
      }
      EndedIs(was, now, f);
      HandledIs(was, now);
      timers := timers[id := timers[id].(jiffies := next - timers[id].timeout)];
      Add(now, id);
    }

    // One due timer: its callback, and for a cyclic timer the missed calls and the next deadline.
    method FireHead(now: nat, ghost timers0: map<nat, Timer>, ghost list0: seq<nat>, ghost todo: set<nat>)
      requires now < TICKS && AllWaiting(timers0, list0) && AllInTime(timers0, list0, now) && Passing(timers, list, timers0, list0, now, todo)
      requires list != [] && list[0] in timers && timers[list[0]].jiffies <= now
      modifies this`timers, this`list
      ensures Passing(timers, list, timers0, list0, now, todo - {old(list)[0]}) && old(list)[0] in todo
    {
      hide Passing, AllInTime, InTime, Handled, Waiting;
      var id := list[0];
      ghost var was := timers[id];
      HeadDue(timers, list, timers0, list0, now, todo);
      DueInTime(timers0, list0, id, now);
      CyclicHandled(was, now);
      Tail(timers, list, was.(fired := was.fired + 1, active := was.cyclic && was.active));
      Exec(id);
      list := list[1..];
      if timers[id].cyclic { CatchUp(id, now, was); }
      PassStep(old(timers), old(list), timers, list, timers0, list0, now, todo);
    }

    // handle_time without a wrap; the result is the time to the next deadline
    method HandleTime(now: nat) returns (wait: nat)
      requires Valid() && now < TICKS && AllInTime(timers, list, now)
      modifies this`timers, this`list
      ensures Valid() && timers.Keys == old(timers).Keys
      ensures forall x | x in timers :: timers[x] == if x in old(list) && old(timers)[x].timeout > 0 then Handled(old(timers)[x], now) else old(timers)[x]
      ensures forall x :: x in list <==> x in old(list) && (old(timers)[x].cyclic || now < old(timers)[x].jiffies)
      ensures forall x | x in list :: now < timers[x].jiffies
      ensures wait == if list == [] then (TICKS - now) % TICKS else timers[list[0]].jiffies - now
    {
      hide Passing, Handled, Waiting, AllInTime, InTime;
      ghost var t0, l0 := timers, list;
      ghost var todo := set x | x in list && timers[x].jiffies <= now;
      PassStart(t0, l0, now, todo);
      while list != [] && now >= timers[list[0]].jiffies
        invariant Passing(timers, list, t0, l0, now, todo) && ByDeadline(timers, list)
        decreases |todo|
      {
        ghost var h := list[0];
        FireHead(now, t0, l0, todo);
        todo := todo - {h};
        PassSorted(timers, list, t0, l0, now, todo);
      }
      PassEnd(timers, list, t0, l0, now, todo);
      OvfKept(t0, l0, timers, list, ovf);
      if list != [] { wait := timers[list[0]].jiffies - now; } else { wait := (TICKS - now) % TICKS; }
    }
  }

  // What a pass over the due timers has done so far; todo are the due timers still listed.
  ghost predicate Passing(timers: map<nat, Timer>, ids: seq<nat>, timers0: map<nat, Timer>, ids0: seq<nat>, now: nat, todo: set<nat>)
    requires AllWaiting(timers0, ids0)
  {
    && ByDeadline(timers, ids) && AllWaiting(timers, ids) && timers.Keys == timers0.Keys
    && (forall x | x in ids :: x in ids0 && (x in todo <==> timers[x].jiffies <= now))
    && (forall x | x in todo :: x in ids && timers[x] == timers0[x])
    && (forall x | x in ids0 && x !in todo :: timers[x] == Handled(timers0[x], now) && (x in ids <==> timers0[x].cyclic || now < timers0[x].jiffies))
    && (forall x | x in timers0 && x !in ids0 :: timers[x] == timers0[x])
  }

  lemma HeadDue(timers: map<nat, Timer>, ids: seq<nat>, timers0: map<nat, Timer>, ids0: seq<nat>, now: nat, todo: set<nat>)
    requires AllWaiting(timers0, ids0) && Passing(timers, ids, timers0, ids0, now, todo)
    requires ids != [] && timers[ids[0]].jiffies <= now
    ensures ids[0] in todo && ids[0] in ids0 && ids[0] in timers0 && timers[ids[0]] == timers0[ids[0]]
    ensures ByDeadline(timers, ids) && AllWaiting(timers, ids)
  {
    assert ids[0] in ids;
  }

  lemma CyclicHandled(t: Timer, now: nat)
    requires Waiting(t) && InTime(t, now) && t.jiffies <= now
    ensures t.timeout > 0 && t.active
    ensures t.cyclic ==> Waiting(Handled(t, now)) && now < Handled(t, now).jiffies
    ensures !t.cyclic ==> Handled(t, now) == t.(fired := t.fired + 1, active := false)
  {
    if t.cyclic { HandledWaits(t, now); }
    MulLess(0, t.fired + 1, t.timeout);
  }

  // The list without its head, which gets a new record.
  lemma Tail(timers: map<nat, Timer>, ids: seq<nat>, t: Timer)
    requires ByDeadline(timers, ids) && AllWaiting(timers, ids) && ids != []
    ensures ByDeadline(timers[ids[0] := t], ids[1..]) && AllWaiting(timers[ids[0] := t], ids[1..])
    ensures ids[0] !in ids[1..] && (forall x :: x in ids <==> x == ids[0] || x in ids[1..])
  {
    hide Waiting;
  }

  lemma PassStep(timers: map<nat, Timer>, ids: seq<nat>, timers1: map<nat, Timer>, ids1: seq<nat>, timers0: map<nat, Timer>, ids0: seq<nat>, now: nat, todo: set<nat>)
    requires AllWaiting(timers0, ids0) && Passing(timers, ids, timers0, ids0, now, todo) && ids != [] && ids[0] in todo
    requires timers1 == timers[ids[0] := Handled(timers0[ids[0]], now)] && ByDeadline(timers1, ids1) && AllWaiting(timers1, ids1)
    requires forall x :: x in ids1 <==> x in ids && (x == ids[0] ==> timers0[x].cyclic)
    requires timers0[ids[0]].jiffies <= now
    requires timers0[ids[0]].cyclic ==> now < timers1[ids[0]].jiffies
    ensures Passing(timers1, ids1, timers0, ids0, now, todo - {ids[0]})
  {
    hide ByDeadline, Handled;
  }

  lemma DueInTime(timers: map<nat, Timer>, ids: seq<nat>, id: nat, now: nat)
    requires AllWaiting(timers, ids) && AllInTime(timers, ids, now) && id in ids
    ensures id in timers && Waiting(timers[id]) && InTime(timers[id], now)
  {
  }

  lemma PassStart(timers: map<nat, Timer>, ids: seq<nat>, now: nat, todo: set<nat>)
    requires ByDeadline(timers, ids) && AllWaiting(timers, ids) && todo == set x | x in ids && timers[x].jiffies <= now
    ensures Passing(timers, ids, timers, ids, now, todo)
  {
  }

  lemma PassSorted(timers: map<nat, Timer>, ids: seq<nat>, timers0: map<nat, Timer>, ids0: seq<nat>, now: nat, todo: set<nat>)
    requires AllWaiting(timers0, ids0) && Passing(timers, ids, timers0, ids0, now, todo)
    ensures ByDeadline(timers, ids) && AllWaiting(timers, ids)
  {
  }

  lemma PassEnd(timers: map<nat, Timer>, ids: seq<nat>, timers0: map<nat, Timer>, ids0: seq<nat>, now: nat, todo: set<nat>)
    requires AllWaiting(timers0, ids0) && Passing(timers, ids, timers0, ids0, now, todo) && (ids != [] ==> now < timers[ids[0]].jiffies)
    ensures ByDeadline(timers, ids) && AllWaiting(timers, ids) && timers.Keys == timers0.Keys
    ensures forall x | x in timers :: timers[x] == if x in ids0 && timers0[x].timeout > 0 then Handled(timers0[x], now) else timers0[x]
    ensures forall x :: x in ids <==> x in ids0 && (timers0[x].cyclic || now < timers0[x].jiffies)
    ensures forall x | x in ids :: now < timers[x].jiffies
  {
    Rest(timers, ids, now);
    assert forall x :: x !in todo;
    hide Handled;
  }

  // The other list is not touched.
  lemma OvfKept(timers0: map<nat, Timer>, ids0: seq<nat>, timers: map<nat, Timer>, ids: seq<nat>, ovf: seq<nat>)
    requires ByDeadline(timers0, ovf) && (forall x | x in ovf :: x !in ids0) && timers.Keys == timers0.Keys
    requires forall x | x in timers && x !in ids0 :: timers[x] == timers0[x]
    requires forall x | x in ids :: x in ids0
    ensures ByDeadline(timers, ovf) && (forall x | x in ovf :: x !in ids)
  {
    forall i | 0 <= i < |ovf| ensures ovf[i] in timers && timers[ovf[i]] == timers0[ovf[i]] { assert ovf[i] in ovf; }
  }

  // When the head is not due, nothing behind it is.
  lemma Rest(timers: map<nat, Timer>, ids: seq<nat>, now: nat)
    requires ByDeadline(timers, ids) && (ids != [] ==> now < timers[ids[0]].jiffies)
    ensures forall x | x in ids :: now < timers[x].jiffies
  {
    forall x | x in ids ensures now < timers[x].jiffies {
      var i :| 0 <= i < |ids| && ids[i] == x;
      if i > 0 { assert timers[ids[0]].jiffies <= timers[ids[i]].jiffies; }
    }
  }

  // A timer on no list may change.
  lemma Elsewhere(timers: map<nat, Timer>, ids: seq<nat>, id: nat, t: Timer)
    requires ByDeadline(timers, ids) && id !in ids
    ensures ByDeadline(timers[id := t], ids) && (AllWaiting(timers, ids) ==> AllWaiting(timers[id := t], ids))
  {
  }

  lemma Without(timers: map<nat, Timer>, ids: seq<nat>, id: nat, t: Timer)
    requires ByDeadline(timers, ids)
    ensures ByDeadline(timers[id := t], Remove(ids, id)) && (AllWaiting(timers, ids) ==> AllWaiting(timers[id := t], Remove(ids, id)))
    ensures forall x :: x in Remove(ids, id) <==> x in ids && x != id
    ensures id !in ids ==> Remove(ids, id) == ids
  {
    hide Waiting, Remove;
    assert NoDup(ids);
    RemoveFacts(ids, id);
    var r := Remove(ids, id);
    var n := |ids|;
    if id in ids { n := RemoveAt(ids, id); } else { RemoveNone(ids, id); }
    forall a | 0 <= a < |r| ensures r[a] != id && r[a] == ids[if a < n then a else a + 1] { assert r[a] in r; }
    forall a, b | 0 <= a < b < |r| ensures r[a] != r[b] && timers[r[a]].jiffies <= timers[r[b]].jiffies {
      var x, y := if a < n then a else a + 1, if b < n then b else b + 1;
      assert ids[x] != ids[y] && timers[ids[x]].jiffies <= timers[ids[y]].jiffies;
    }
  }

  lemma FirstEdge(t: Timer, now: nat)
    requires Waiting(t) && t.cyclic && t.jiffies <= now < TICKS && InTime(t, now)
    ensures t.jiffies + t.timeout == t.start + (t.fired + 2) * t.timeout < TICKS
  {
    EndedFacts(t, now);
    assert (t.fired + 2) * t.timeout == (t.fired + 1) * t.timeout + t.timeout;
    MulLess(Ended(t, now) + 1, t.fired + 2, t.timeout);
    MulLess(t.fired + 2, Ended(t, now) + 1, t.timeout);
  }

  lemma NextEdge(t: Timer, now: nat, f: nat)
    requires t.timeout > 0 && t.cyclic && InTime(t, now) && t.start + (f + 1) * t.timeout <= now
    ensures t.start + (f + 2) * t.timeout == t.start + (f + 1) * t.timeout + t.timeout < TICKS
  {
    EndedFacts(t, now);
    assert (f + 2) * t.timeout == (f + 1) * t.timeout + t.timeout;
    MulLess(Ended(t, now) + 1, f + 1, t.timeout);
    MulLess(f + 2, Ended(t, now) + 1, t.timeout);
  }
}
