/**
 Time in libisix/kernel/scheduler.c.  A sleeping task stores its wake-up tick modulo
 2^32 and sits on the current or on the overflow list.  Here every sleeper gets an
 absolute deadline on an unbounded time line, and the two lists together are one queue
 ordered by that deadline.
 */
module KernelTime {
  import opened Lists
  import opened KernelState
  import opened KernelCalls

  // The time since the start, without wrap-around.
  function Now(c: Clock): nat { c.epoch * TICKS + c.jiffies }

  function Deadline(c: Clock, t: Tid): int
    requires t in c.due
  {
    (if t in c.cur then c.epoch else c.epoch + 1) * TICKS + c.due[t]
  }

  // All sleepers, in the order in which they will be woken.
  function Sleepers(c: Clock): seq<Tid> { c.cur + c.ovf }

  predicate TimeSorted(due: map<Tid, nat>, ts: seq<Tid>) {
    && (forall i | 0 <= i < |ts| :: ts[i] in due)
    && (forall i, j | 0 <= i < j < |ts| :: ts[i] != ts[j] && due[ts[i]] <= due[ts[j]])
  }

  // Deadlines on the current list lie in the rest of this wrap, those on the overflow list
  // in the next one, before the counter has come round again.
  predicate TimeInv(c: Clock) {
    && c.jiffies < TICKS
    && TimeSorted(c.due, c.cur)
    && TimeSorted(c.due, c.ovf)
    && (forall i | 0 <= i < |c.cur| :: c.cur[i] !in c.ovf && c.jiffies < c.due[c.cur[i]] < TICKS)
    && (forall i | 0 <= i < |c.ovf| :: c.due[c.ovf[i]] < c.jiffies)
  }

  // The queue of sleepers is ordered by deadline, nobody is overdue, and no deadline is
  // a whole wrap or more away.
  lemma SleepersOrdered(c: Clock)
    requires TimeInv(c)
    ensures forall t | t in Sleepers(c) :: t in c.due && Now(c) < Deadline(c, t) < Now(c) + TICKS
    ensures forall i, j | 0 <= i < j < |Sleepers(c)| ::
              Sleepers(c)[i] != Sleepers(c)[j] && Deadline(c, Sleepers(c)[i]) <= Deadline(c, Sleepers(c)[j])
  {
    forall i | 0 <= i < |c.ovf| ensures c.ovf[i] !in c.cur {}
    forall i, j | 0 <= i < j < |Sleepers(c)|
      ensures Sleepers(c)[i] != Sleepers(c)[j] && Deadline(c, Sleepers(c)[i]) <= Deadline(c, Sleepers(c)[j])
    {
      if j < |c.cur| {
      } else if i < |c.cur| {
        assert c.ovf[j - |c.cur|] in c.ovf;
      } else {
        assert c.ovf[j - |c.cur|] !in c.cur && c.ovf[i - |c.cur|] !in c.cur;
      }
    }
  }

  // ---- going to sleep ----

  lemma {:induction false} TimePosFacts(due: map<Tid, nat>, ts: seq<Tid>, j: nat)
    requires TimeSorted(due, ts)
    ensures forall i | 0 <= i < TimePos(due, ts, j) :: due[ts[i]] <= j
    ensures forall i | TimePos(due, ts, j) <= i < |ts| :: j < due[ts[i]]
  {
    if ts != [] && due[ts[0]] <= j {
      assert TimeSorted(due, ts[1..]);
      TimePosFacts(due, ts[1..], j);
      var p := TimePos(due, ts[1..], j);
      forall i | 0 <= i < p + 1 ensures due[ts[i]] <= j { if i > 0 { assert ts[i] == ts[1..][i - 1]; } }
      forall i | p + 1 <= i < |ts| ensures j < due[ts[i]] { assert ts[i] == ts[1..][i - 1]; }
    }
  }

  lemma InsertSorted(due: map<Tid, nat>, ts: seq<Tid>, t: Tid, j: nat)
    requires TimeSorted(due, ts) && t !in ts
    ensures TimeSorted(due[t := j], Insert(ts, TimePos(due, ts, j), t))
  {
    TimePosFacts(due, ts, j);
    hide TimePos, Insert;
    var p := TimePos(due, ts, j);
    var r := Insert(ts, p, t);
    var due' := due[t := j];
    forall i | 0 <= i < |r| ensures r[i] in due' {
      assert r[i] == if i < p then ts[i] else if i == p then t else ts[i - 1];
    }
    forall i, l | 0 <= i < l < |r| ensures r[i] != r[l] && due'[r[i]] <= due'[r[l]] {
      assert r[i] == if i < p then ts[i] else if i == p then t else ts[i - 1];
      assert r[l] == if l < p then ts[l] else if l == p then t else ts[l - 1];
    }
  }

  // What it means that t was put to sleep until now + timeout, behind everybody who wakes
  // up earlier or at the same tick.
  ghost predicate PutToSleep(c: Clock, d: Clock, t: Tid, timeout: nat, i: nat) {
    && i <= |Sleepers(c)| && Sleepers(d) == Insert(Sleepers(c), i, t)
    && Now(d) == Now(c) && t in d.due && Deadline(d, t) == Now(c) + timeout
    && (forall n | 0 <= n < |Sleepers(c)| ::
          var u := Sleepers(c)[n];
          u in c.due && u in d.due && Deadline(d, u) == Deadline(c, u)
          && (n < i <==> Deadline(c, u) <= Now(c) + timeout))
  }

  lemma AddToCurOrder(c: Clock, d: Clock, t: Tid, i: nat, j: nat)
    requires TimeInv(c) && !Timed(c, t) && c.jiffies <= j < TICKS && i <= |c.cur|
    requires d == c.(due := c.due[t := j], cur := Insert(c.cur, i, t))
    requires forall n | 0 <= n < |c.cur| :: n < i <==> c.due[c.cur[n]] <= j
    ensures PutToSleep(c, d, t, j - c.jiffies, i)
  {
    InsertFacts(c.cur, i, t);
    assert Sleepers(d) == Insert(Sleepers(c), i, t);
    hide Insert;
    forall n | 0 <= n < |Sleepers(c)| ensures
      var u := Sleepers(c)[n];
      u in c.due && u in d.due && Deadline(d, u) == Deadline(c, u) && (n < i <==> Deadline(c, u) <= Now(c) + j - c.jiffies)
    {
      var u := Sleepers(c)[n];
      if n < |c.cur| {
        assert u == c.cur[n] && u in d.cur;
      } else {
        assert u == c.ovf[n - |c.cur|] && u in c.ovf && u !in c.cur && u !in d.cur;
      }
    }
  }

  lemma AddToCur(c: Clock, t: Tid, timeout: nat) returns (i: nat)
    requires TimeInv(c) && !Timed(c, t) && 0 < timeout && c.jiffies + timeout < TICKS
    ensures TimeInv(AddWaiting(c, t, timeout)) && PutToSleep(c, AddWaiting(c, t, timeout), t, timeout, i)
  {
    hide TimePos, Insert, PutToSleep;
    var d := AddWaiting(c, t, timeout);
    var j := c.jiffies + timeout;
    i := TimePos(c.due, c.cur, j);
    assert d == c.(due := c.due[t := j], cur := Insert(c.cur, i, t));
    TimePosFacts(c.due, c.cur, j);
    AddToCurOrder(c, d, t, i, j);
    InsertSorted(c.due, c.cur, t, j);
    forall n | 0 <= n < |d.cur| ensures d.cur[n] !in d.ovf && d.jiffies < d.due[d.cur[n]] < TICKS {
      assert d.cur[n] == if n < i then c.cur[n] else if n == i then t else c.cur[n - 1];
    }
  }

  lemma AddToOvfOrder(c: Clock, d: Clock, t: Tid, p: nat, j: nat)
    requires TimeInv(c) && !Timed(c, t) && j < c.jiffies && p <= |c.ovf|
    requires d == c.(due := c.due[t := j], ovf := Insert(c.ovf, p, t))
    requires forall n | 0 <= n < |c.ovf| :: n < p <==> c.due[c.ovf[n]] <= j
    ensures PutToSleep(c, d, t, j + TICKS - c.jiffies, |c.cur| + p)
  {
    assert Sleepers(d) == Insert(Sleepers(c), |c.cur| + p, t);
    hide Insert;
    forall n | 0 <= n < |Sleepers(c)| ensures
      var u := Sleepers(c)[n];
      u in c.due && u in d.due && Deadline(d, u) == Deadline(c, u)
      && (n < |c.cur| + p <==> Deadline(c, u) <= Now(c) + j + TICKS - c.jiffies)
    {
      var u := Sleepers(c)[n];
      if n < |c.cur| {
        assert u == c.cur[n] && u in c.cur;
      } else {
        assert u == c.ovf[n - |c.cur|] && u in c.ovf && u !in c.cur;
      }
    }
  }

  lemma AddToOvf(c: Clock, t: Tid, timeout: nat) returns (i: nat)
    requires TimeInv(c) && !Timed(c, t) && timeout < TICKS <= c.jiffies + timeout
    ensures TimeInv(AddWaiting(c, t, timeout)) && PutToSleep(c, AddWaiting(c, t, timeout), t, timeout, i)
  {
    hide TimePos, Insert, PutToSleep;
    var d := AddWaiting(c, t, timeout);
    var j := c.jiffies + timeout - TICKS;
    assert (c.jiffies + timeout) % TICKS == j;
    var p := TimePos(c.due, c.ovf, j);
    i := |c.cur| + p;
    assert d == c.(due := c.due[t := j], ovf := Insert(c.ovf, p, t));
    TimePosFacts(c.due, c.ovf, j);
    AddToOvfOrder(c, d, t, p, j);
    InsertSorted(c.due, c.ovf, t, j);
    InsertFacts(c.ovf, p, t);
    forall n | 0 <= n < |d.ovf| ensures d.due[d.ovf[n]] < d.jiffies {
      assert d.ovf[n] == if n < p then c.ovf[n] else if n == p then t else c.ovf[n - 1];
    }
    forall n | 0 <= n < |d.cur| ensures d.cur[n] !in d.ovf && d.jiffies < d.due[d.cur[n]] < TICKS {
      assert c.cur[n] in c.cur;
    }
  }

  // add_task_to_waiting_list, on either list.
  lemma AddWaitingFacts(c: Clock, t: Tid, timeout: nat) returns (i: nat)
    requires TimeInv(c) && !Timed(c, t) && 0 < timeout < TICKS
    ensures TimeInv(AddWaiting(c, t, timeout)) && PutToSleep(c, AddWaiting(c, t, timeout), t, timeout, i)
  {
    if c.jiffies + timeout < TICKS { i := AddToCur(c, t, timeout); } else { i := AddToOvf(c, t, timeout); }
  }

  // ---- any number of ticks at once, or one by one ----

  function SetTime(k: K, epoch: nat, jiffies: nat, ovf: seq<Tid>): K {
    k.(clock := k.clock.(epoch := epoch, jiffies := jiffies, ovf := ovf))
  }

  lemma {:induction false} ExpireIgnoresTime(k: K, now: nat, e: nat, j: nat, ovf: seq<Tid>)
    ensures Expire(SetTime(k, e, j, ovf), now) == SetTime(Expire(k, now), e, j, ovf)
    decreases |k.clock.cur|
  {
    var cur := k.clock.cur;
    if cur != [] && !(cur[0] in k.clock.due && now < k.clock.due[cur[0]]) {
      WakeIgnoresClock(k, SetTime(k, e, j, ovf).clock, cur[0]);
      ExpireIgnoresTime(SetCur(WakeTimedOut(k, cur[0]), cur[1..]), now, e, j, ovf);
    }
  }

  lemma WakeIgnoresClock(k: K, c: Clock, t: Tid)
    ensures WakeTimedOut(k.(clock := c), t) == WakeTimedOut(k, t).(clock := c)
    ensures WakeTimedOut(k, t).clock == k.clock
  {
  }

  lemma {:induction false} ExpireTwice(k: K, a: nat, b: nat)
    requires a <= b
    ensures Expire(Expire(k, a), b) == Expire(k, b)
    decreases |k.clock.cur|
  {
    var cur := k.clock.cur;
    if cur != [] && !(cur[0] in k.clock.due && a < k.clock.due[cur[0]]) {
      ExpireTwice(SetCur(WakeTimedOut(k, cur[0]), cur[1..]), a, b);
    }
  }

  function Ticks(k: K, n: nat): K
    decreases n
  {
    if n == 0 then k else Ticks(Advance(k, 1), n - 1)
  }

  // The state right after the counter has wrapped to zero.
  function AfterWrap(k: K): K {
    Expire(Wrap(if k.clock.jiffies + 1 < TICKS then Expire(SetJiffies(k, TICKS - 1), TICKS - 1) else k), 0)
  }

  lemma AdvanceUnfold(k: K, n: nat)
    requires k.clock.jiffies < TICKS
    ensures n == 0 ==> Advance(k, n) == k
    ensures var j := k.clock.jiffies;
            0 < n < TICKS - j ==> Advance(k, n) == Expire(SetJiffies(k, j + n), j + n)
    ensures n >= TICKS - k.clock.jiffies ==> Advance(k, n) == Advance(AfterWrap(k), n - (TICKS - k.clock.jiffies))
  {
    hide Expire;
  }

  // Advance in two parts, wherever the counter wraps.
  lemma {:induction false} AdvanceSplit(k: K, a: nat, b: nat)
    requires k.clock.jiffies < TICKS
    ensures Advance(k, a + b) == Advance(Advance(k, a), b)
    decreases a
  {
    hide Expire, Advance, AfterWrap;
    var j := k.clock.jiffies;
    AdvanceUnfold(k, a);
    AdvanceUnfold(k, a + b);
    if a == 0 {
    } else if a < TICKS - j {
      SplitBeforeWrap(k, a, b);
    } else {
      WrapJiffies(k);
      AdvanceSplit(AfterWrap(k), a - (TICKS - j), b);
      assert a + b - (TICKS - j) == a - (TICKS - j) + b;
    }
  }

  lemma SplitBeforeWrap(k: K, a: nat, b: nat)
    requires k.clock.jiffies < TICKS && 0 < a < TICKS - k.clock.jiffies
    ensures Advance(k, a + b) == Advance(Advance(k, a), b)
  {
    hide Expire, Advance;
    var j := k.clock.jiffies;
    var d := Expire(SetJiffies(k, j + a), j + a);
    AdvanceUnfold(k, a);
    AdvanceUnfold(k, a + b);
    ExpireJiffies(SetJiffies(k, j + a), j + a);
    AdvanceUnfold(d, b);
    if j + a + b < TICKS {
      ExpireStages(k, j + a, j + a + b);
    } else {
      ExpireStages(k, j + a, TICKS - 1);
      assert AfterWrap(d) == AfterWrap(k);
    }
  }

  lemma WrapJiffies(k: K)
    ensures AfterWrap(k).clock.jiffies == 0
  {
    ExpireJiffies(Wrap(if k.clock.jiffies + 1 < TICKS then Expire(SetJiffies(k, TICKS - 1), TICKS - 1) else k), 0);
  }

  lemma {:induction false} ExpireJiffies(k: K, now: nat)
    ensures Expire(k, now).clock.jiffies == k.clock.jiffies
    decreases |k.clock.cur|
  {
    var cur := k.clock.cur;
    if cur != [] && !(cur[0] in k.clock.due && now < k.clock.due[cur[0]]) {
      ExpireJiffies(SetCur(WakeTimedOut(k, cur[0]), cur[1..]), now);
    }
  }

  lemma ExpireStages(k: K, a: nat, b: nat)
    requires a <= b
    ensures Expire(SetJiffies(Expire(SetJiffies(k, a), a), b), b) == Expire(SetJiffies(k, b), b)
  {
    var c := k.clock;
    ExpireIgnoresTime(k, a, c.epoch, a, c.ovf);
    ExpireIgnoresTime(k, b, c.epoch, b, c.ovf);
    assert SetTime(k, c.epoch, a, c.ovf) == SetJiffies(k, a);
    assert SetTime(k, c.epoch, b, c.ovf) == SetJiffies(k, b);
    var d := Expire(k, a);
    assert SetJiffies(SetTime(d, c.epoch, a, c.ovf), b) == SetTime(d, c.epoch, b, c.ovf);
    ExpireIgnoresTime(d, b, c.epoch, b, c.ovf);
    ExpireTwice(k, a, b);
  }

  lemma TickJiffies(k: K)
    requires k.clock.jiffies < TICKS
    ensures Advance(k, 1).clock.jiffies == (k.clock.jiffies + 1) % TICKS
  {
    hide Expire, Advance, AfterWrap;
    var j := k.clock.jiffies;
    AdvanceUnfold(k, 1);
    if j + 1 < TICKS {
      ExpireJiffies(SetJiffies(k, j + 1), j + 1);
    } else {
      WrapJiffies(k);
      AdvanceUnfold(AfterWrap(k), 0);
    }
  }

  // advance_jiffies(n) reaches the state of n single ticks, for every n and every start.
  lemma {:induction false} AdvanceIsTicks(k: K, n: nat)
    requires k.clock.jiffies < TICKS
    ensures Advance(k, n) == Ticks(k, n)
    decreases n
  {
    if n > 0 {
      AdvanceSplit(k, 1, n - 1);
      TickJiffies(k);
      AdvanceIsTicks(Advance(k, 1), n - 1);
    }
  }

  // ---- who is woken ----

  function WakeEach(k: K, ts: seq<Tid>): K
    decreases |ts|
  {
    if ts == [] then k else WakeEach(WakeTimedOut(k, ts[0]), ts[1..])
  }

  // The first i sleepers of k were woken, in order, and n ticks have passed.
  ghost predicate Slept(k: K, d: K, n: nat, i: nat) {
    var q := Sleepers(k.clock);
    && TimeInv(d.clock) && Now(d.clock) == Now(k.clock) + n && d.clock.due == k.clock.due
    && i <= |q| && Sleepers(d.clock) == q[i..]
    && d == WakeEach(k, q[..i]).(clock := d.clock)
    && (forall m | 0 <= m < |q| :: q[m] in k.clock.due && (m < i <==> Deadline(k.clock, q[m]) <= Now(k.clock) + n))
    && (forall m | i <= m < |q| :: Deadline(d.clock, q[m]) == Deadline(k.clock, q[m]))
  }

  lemma {:induction false} WakeEachClock(k: K, ts: seq<Tid>, c: Clock)
    ensures WakeEach(k.(clock := c), ts) == WakeEach(k, ts).(clock := c)
    ensures WakeEach(k, ts).clock == k.clock
    decreases |ts|
  {
    if ts != [] {
      hide WakeTimedOut;
      WakeIgnoresClock(k, c, ts[0]);
      WakeEachClock(WakeTimedOut(k, ts[0]), ts[1..], c);
    }
  }

  lemma {:induction false} WakeEachConcat(k: K, a: seq<Tid>, b: seq<Tid>)
    ensures WakeEach(k, a + b) == WakeEach(WakeEach(k, a), b)
    decreases |a|
  {
    if a == [] {
      assert a + b == b;
    } else {
      assert (a + b)[0] == a[0] && (a + b)[1..] == a[1..] + b;
      WakeEachConcat(WakeTimedOut(k, a[0]), a[1..], b);
    }
  }

  // The loop of expire_waiting_tasks wakes the first part of the list.
  lemma {:induction false} ExpireWakes(k: K, now: nat)
    ensures var c := k.clock;
            var p := TimePos(c.due, c.cur, now);
            Expire(k, now) == SetCur(WakeEach(k, c.cur[..p]), c.cur[p..])
    decreases |k.clock.cur|
  {
    var c := k.clock;
    var cur := c.cur;
    var p := TimePos(c.due, cur, now);
    if cur != [] && !(cur[0] in c.due && now < c.due[cur[0]]) {
      var w := WakeTimedOut(k, cur[0]);
      WakeIgnoresClock(k, c, cur[0]);
      ExpireWakes(SetCur(w, cur[1..]), now);
      WakeEachClock(w, cur[1..][..p - 1], c.(cur := cur[1..]));
      assert cur[..p][1..] == cur[1..][..p - 1] && cur[1..][p - 1..] == cur[p..];
      assert cur[..p][0] == cur[0];
    }
  }

  lemma TickBeforeWrap(k: K) returns (i: nat)
    requires TimeInv(k.clock) && k.clock.jiffies + 1 < TICKS
    ensures Slept(k, Advance(k, 1), 1, i)
  {
    hide Expire, TimePos, WakeEach, Advance;
    var c := k.clock;
    var j := c.jiffies + 1;
    var q := Sleepers(c);
    i := TimePos(c.due, c.cur, j);
    AdvanceUnfold(k, 1);
    ExpireWakes(SetJiffies(k, j), j);
    WakeEachClock(k, c.cur[..i], c.(jiffies := j));
    TimePosFacts(c.due, c.cur, j);
    var d := Advance(k, 1);
    assert d.clock == c.(jiffies := j, cur := c.cur[i..]);
    assert Sleepers(d.clock) == q[i..] && q[..i] == c.cur[..i];
    SleptClock(c, d.clock, i);
  }

  lemma SleptClock(c: Clock, d: Clock, i: nat)
    requires TimeInv(c) && c.jiffies + 1 < TICKS && i <= |c.cur|
    requires forall n | 0 <= n < |c.cur| :: n < i <==> c.due[c.cur[n]] <= c.jiffies + 1
    requires d == c.(jiffies := c.jiffies + 1, cur := c.cur[i..])
    ensures TimeInv(d)
    ensures var q := Sleepers(c);
            && (forall m | 0 <= m < |q| :: q[m] in c.due && (m < i <==> Deadline(c, q[m]) <= Now(c) + 1))
            && (forall m | i <= m < |q| :: Deadline(d, q[m]) == Deadline(c, q[m]))
  {
    SleepersOrdered(c);
    var q := Sleepers(c);
    forall m | 0 <= m < |q|
      ensures q[m] in c.due && (m < i <==> Deadline(c, q[m]) <= Now(c) + 1)
      ensures i <= m ==> Deadline(d, q[m]) == Deadline(c, q[m])
    {
      if m < |c.cur| {
        assert q[m] == c.cur[m];
        if i <= m { assert q[m] == d.cur[m - i]; }
      } else {
        assert q[m] == c.ovf[m - |c.cur|] && q[m] in c.ovf;
        assert q[m] !in c.cur && q[m] !in d.cur;
      }
    }
  }

  lemma WrapClock(c: Clock, d: Clock, i: nat)
    requires TimeInv(c) && c.jiffies + 1 == TICKS && c.cur == [] && i <= |c.ovf|
    requires forall n | 0 <= n < |c.ovf| :: n < i <==> c.due[c.ovf[n]] <= 0
    requires d == Clock(c.epoch + 1, 0, c.ovf[i..], [], c.due)
    ensures TimeInv(d) && Now(d) == Now(c) + 1
    ensures Sleepers(c) == c.ovf && Sleepers(d) == c.ovf[i..]
    ensures forall m | 0 <= m < |c.ovf| :: c.ovf[m] in c.due && (m < i <==> Deadline(c, c.ovf[m]) <= Now(c) + 1)
    ensures forall m | i <= m < |c.ovf| :: Deadline(d, c.ovf[m]) == Deadline(c, c.ovf[m])
  {
    forall m | i <= m < |c.ovf| ensures Deadline(d, c.ovf[m]) == Deadline(c, c.ovf[m]) {
      assert c.ovf[m] == d.cur[m - i];
    }
  }

  // A task on the current list wakes up before the counter wraps.
  lemma RoomForCurrent(c: Clock)
    requires TimeInv(c)
    ensures c.cur != [] ==> c.jiffies + 1 < TICKS
  {
    if c.cur != [] { assert c.jiffies < c.due[c.cur[0]] < TICKS; }
  }

  lemma TickThroughWrap(k: K)
    requires k.clock.jiffies + 1 == TICKS
    ensures Advance(k, 1) == Expire(Wrap(k), 0)
  {
    hide Expire, Advance;
    WrapJiffies(k);
    AdvanceUnfold(k, 1);
    AdvanceUnfold(AfterWrap(k), 0);
  }

  lemma TickAtWrap(k: K) returns (i: nat)
    requires TimeInv(k.clock) && k.clock.jiffies + 1 == TICKS
    ensures Slept(k, Advance(k, 1), 1, i)
  {
    hide Expire, TimePos, WakeEach, Advance, Sleepers, Deadline, Now;
    var c := k.clock;
    RoomForCurrent(c);
    i := TimePos(c.due, c.ovf, 0);
    var d := Advance(k, 1);
    TickThroughWrap(k);
    ExpireWakes(Wrap(k), 0);
    WakeEachClock(k, c.ovf[..i], Wrap(k).clock);
    TimePosFacts(c.due, c.ovf, 0);
    hide TimeInv;
    WrapClock(c, d.clock, i);
  }

  lemma OneTick(k: K) returns (i: nat)
    requires TimeInv(k.clock)
    ensures Slept(k, Advance(k, 1), 1, i)
  {
    hide Slept;
    if k.clock.jiffies + 1 < TICKS { i := TickBeforeWrap(k); } else { i := TickAtWrap(k); }
  }

  lemma SleptTwice(k: K, d: K, e: K, a: nat, b: nat, i: nat, j: nat)
    requires TimeInv(k.clock) && Slept(k, d, a, i) && Slept(d, e, b, j)
    ensures Slept(k, e, a + b, i + j)
  {
    hide WakeEach, TimeInv;
    var q := Sleepers(k.clock);
    var r := Sleepers(d.clock);
    assert r[j..] == q[i + j..];
    assert q[..i + j] == q[..i] + r[..j];
    WakeEachConcat(k, q[..i], r[..j]);
    WakeEachClock(WakeEach(k, q[..i]), r[..j], d.clock);
    assert WakeEach(d, r[..j]) == WakeEach(k, q[..i + j]).(clock := d.clock);
    forall m | 0 <= m < |q|
      ensures q[m] in k.clock.due && (m < i + j <==> Deadline(k.clock, q[m]) <= Now(k.clock) + (a + b))
    {
      if i <= m { assert q[m] == r[m - i]; }
    }
    forall m | i + j <= m < |q| ensures Deadline(e.clock, q[m]) == Deadline(k.clock, q[m]) {
      assert q[m] == r[m - i];
    }
  }

  // advance_jiffies(n) wakes exactly the tasks with a deadline in (now, now + n], in deadline
  // order and first come first served on equal deadlines, and leaves every other sleeper.
  lemma {:induction false} AdvanceWakes(k: K, n: nat) returns (i: nat)
    requires TimeInv(k.clock)
    ensures Slept(k, Advance(k, n), n, i)
    decreases n
  {
    hide Slept, Advance;
    if n == 0 {
      i := 0;
      SleptNone(k);
      AdvanceUnfold(k, 0);
    } else {
      AdvanceSplit(k, 1, n - 1);
      var a := OneTick(k);
      assert TimeInv(Advance(k, 1).clock) by { SleptInv(k, Advance(k, 1), 1, a); }
      var b := AdvanceWakes(Advance(k, 1), n - 1);
      SleptTwice(k, Advance(k, 1), Advance(k, n), 1, n - 1, a, b);
      i := a + b;
    }
  }

  lemma SleptNone(k: K)
    requires TimeInv(k.clock)
    ensures Slept(k, k, 0, 0)
  {
    hide TimeInv;
    SleepersOrdered(k.clock);
    var q := Sleepers(k.clock);
    assert q[0..] == q && q[..0] == [];
    assert k == WakeEach(k, []).(clock := k.clock);
    forall m | 0 <= m < |q| ensures q[m] in k.clock.due && Deadline(k.clock, q[m]) > Now(k.clock) + 0 {
      assert q[m] in q;
    }
  }

  lemma SleptInv(k: K, d: K, n: nat, i: nat)
    requires Slept(k, d, n, i)
    ensures TimeInv(d.clock)
  {
  }

  // calculate_next_timeout never sleeps past a deadline, whichever list it is on and
  // wherever the counter stands, nor past the next soft timer.
  lemma NextTimeoutSafe(c: Clock, vtd: nat)
    requires TimeInv(c) && vtd < TICKS
    ensures 1 <= NextTimeout(c, vtd) < TICKS
    ensures vtd > 0 ==> NextTimeout(c, vtd) <= vtd
    ensures forall t | t in Sleepers(c) :: t in c.due && Now(c) + NextTimeout(c, vtd) <= Deadline(c, t)
  {
    SleepersOrdered(c);
    forall t | t in Sleepers(c) ensures Now(c) + NextTimeout(c, vtd) <= Deadline(c, t) {
      if t in c.cur {
        var i :| 0 <= i < |c.cur| && c.cur[i] == t;
        assert c.due[c.cur[0]] <= c.due[t];
      }
    }
  }

  // Something asks for the processor in n ticks: a sleeper, the next soft timer, or the last
  // tick before the counter wraps.
  ghost predicate Awaited(c: Clock, vtd: nat, n: int) {
    (exists t :: t in Sleepers(c) && t in c.due && Deadline(c, t) == Now(c) + n) || vtd == n || c.jiffies + n == TICKS - 1
  }

  // Nor does it sleep less than it may: it wakes for something, and for one tick only when
  // something is at most that far away.
  lemma NextTimeoutWanted(c: Clock, vtd: nat)
    requires TimeInv(c) && vtd < TICKS
    ensures Awaited(c, vtd, NextTimeout(c, vtd)) || (NextTimeout(c, vtd) == 1 && Awaited(c, vtd, 0))
  {
    if c.cur != [] {
      assert c.cur[0] in Sleepers(c);
      assert Deadline(c, c.cur[0]) == Now(c) + (c.due[c.cur[0]] - c.jiffies);
    }
  }
}
