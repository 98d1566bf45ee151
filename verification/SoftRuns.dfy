/**
 The worker thread of libisix/kernel/softtimers.c over whole runs: it takes commands to start,
 cancel and delete timers, and handles the time after each.  Whatever happens to other timers,
 every timer has fired as often as it should.
 */
module SoftRuns {
  import opened Lists
  import opened SoftTimers

  datatype Command = Start(id: nat, itime: nat, tout: nat, cyclic: bool) | Cancel(id: nat) | Delete(id: nat) | Nothing

  // The worker comes to a command, or to the end of its wait, at the tick now.
  datatype Event = At(now: nat, cmd: Command)

  // All timers, those that wait in this wrap of the tick counter, and those that wait for the next.
  datatype Desk = Desk(timers: map<nat, Timer>, listed: set<nat>, later: set<nat>)

  function Cancelled(d: Desk, id: nat): Desk {
    if id in d.timers && (id in d.listed || id in d.later)
    then Desk(d.timers[id := d.timers[id].(active := false)], d.listed - {id}, d.later - {id}) else d
  }

  function Obeyed(d: Desk, now: nat, c: Command): Desk {
    match c
    case Start(id, itime, tout, cyclic) =>
      var t := Armed(now, itime, tout, cyclic);
      var here := t.active && Deadline(now, itime, tout) < TICKS;
      var later := t.active && !here;
      Desk(d.timers[id := t], if here then d.listed + {id} else d.listed - {id}, if later then d.later + {id} else d.later - {id})
    case Cancel(id) => Cancelled(d, id)
    case Delete(id) => var e := Cancelled(d, id); e.(timers := e.timers - {id})
    case Nothing => d
  }

  function Passed(d: Desk, now: nat): Desk {
    var all := map x | x in d.timers :: if x in d.listed && d.timers[x].timeout > 0 then Handled(d.timers[x], now) else d.timers[x];
    var left := set x | x in d.listed && x in d.timers && (d.timers[x].cyclic || now < d.timers[x].jiffies);
    Desk(all, left, d.later)
  }

  // One turn of worker_thread.
  function Turn(d: Desk, e: Event): Desk { Passed(Obeyed(d, e.now, e.cmd), e.now) }

  // ---- what is asked of a run ----

  predicate CommandOk(d: Desk, now: nat, c: Command) {
    match c
    case Start(_, itime, tout, _) => itime <= now && 0 < tout < TICKS
    case Cancel(id) => id in d.timers
    case Delete(id) => id in d.timers
    case Nothing => true
  }

  // Every listed timer waits for its deadline.
  predicate Waits(d: Desk) {
    && (forall x | x in d.listed :: x in d.timers && x !in d.later && Waiting(d.timers[x]))
    && (forall x | x in d.later :: x in d.timers)
  }

  // Of every listed timer the first deadline after now fits the tick counter.
  predicate Fits(d: Desk, now: nat) {
    forall x | x in d.listed && x in d.timers && d.timers[x].timeout > 0 :: InTime(d.timers[x], now)
  }

  // The tick counter does not wrap, and no deadline is lost to its end.
  ghost predicate Lawful(d: Desk, es: seq<Event>, from: nat)
    decreases |es|
  {
    es == [] || (
      && from <= es[0].now < TICKS && CommandOk(d, es[0].now, es[0].cmd) && Fits(Obeyed(d, es[0].now, es[0].cmd), es[0].now)
      && Lawful(Turn(d, es[0]), es[1..], es[0].now))
  }

  function Final(d: Desk, es: seq<Event>): Desk
    decreases |es|
  {
    if es == [] then d else Final(Turn(d, es[0]), es[1..])
  }

  // ---- every turn ----

  lemma ObeyedWaits(d: Desk, now: nat, c: Command)
    requires Waits(d) && CommandOk(d, now, c) && now < TICKS
    ensures Waits(Obeyed(d, now, c))
  {
    hide Waiting, Armed;
    if c.Start? && Armed(now, c.itime, c.tout, c.cyclic).active && Deadline(now, c.itime, c.tout) < TICKS {
      ArmedWaits(now, c.itime, c.tout, c.cyclic);
    }
  }

  lemma PassedWaits(d: Desk, now: nat)
    requires Waits(d) && Fits(d, now)
    ensures Waits(Passed(d, now))
  {
    hide Handled;
    var p := Passed(d, now);
    forall x | x in p.listed ensures x in p.timers && x !in p.later && Waiting(p.timers[x]) {
      StillWaits(d.timers[x], now);
    }
  }

  lemma StillWaits(t: Timer, now: nat)
    requires Waiting(t) && InTime(t, now) && (t.cyclic || now < t.jiffies)
    ensures Waiting(Handled(t, now))
  {
    if t.cyclic { HandledWaits(t, now); }
  }

  lemma TurnWaits(d: Desk, e: Event)
    requires Waits(d) && CommandOk(d, e.now, e.cmd) && e.now < TICKS && Fits(Obeyed(d, e.now, e.cmd), e.now)
    ensures Waits(Turn(d, e))
  {
    hide Waits, Obeyed, Passed;
    ObeyedWaits(d, e.now, e.cmd);
    PassedWaits(Obeyed(d, e.now, e.cmd), e.now);
  }

  // ---- one timer in a run ----

  predicate Touches(c: Command, id: nat) { !c.Nothing? && c.id == id }

  predicate Untouched(es: seq<Event>, id: nat) { forall i | 0 <= i < |es| :: !Touches(es[i].cmd, id) }

  function Times(es: seq<Event>): seq<nat> { seq(|es|, i requires 0 <= i < |es| => es[i].now) }

  lemma TurnUntouched(d: Desk, e: Event, id: nat)
    requires id in d.timers && !Touches(e.cmd, id) && (id in d.listed ==> Waiting(d.timers[id]))
    ensures var n := Turn(d, e);
            && id in n.timers
            && (id in d.listed ==> n.timers[id] == Handled(d.timers[id], e.now) && (id in n.listed <==> n.timers[id].active))
            && (id !in d.listed ==> n.timers[id] == d.timers[id] && id !in n.listed)
  {
    hide Handled, Armed;
  }

  lemma {:induction false} Unlisted(d: Desk, es: seq<Event>, id: nat)
    requires id in d.timers && id !in d.listed && Untouched(es, id)
    ensures id in Final(d, es).timers && Final(d, es).timers[id] == d.timers[id]
    decreases |es|
  {
    hide Turn;
    if es != [] {
      assert !Touches(es[0].cmd, id);
      TurnUntouched(d, es[0], id);
      assert forall i | 0 <= i < |es[1..]| :: es[1..][i] == es[i + 1];
      Unlisted(Turn(d, es[0]), es[1..], id);
    }
  }

  // The commands for other timers do not change what happens to this one.
  lemma {:induction false} OthersDoNotMatter(d: Desk, es: seq<Event>, from: nat, id: nat)
    requires Waits(d) && Lawful(d, es, from) && id in d.listed && Untouched(es, id)
    ensures id in Final(d, es).timers && Final(d, es).timers[id] == Worked(d.timers[id], Times(es))
    decreases |es|
  {
    hide Turn, Handled;
    if es != [] {
      var e, rest := es[0], es[1..];
      var n := Turn(d, e);
      assert !Touches(e.cmd, id);
      TurnUntouched(d, e, id);
      TurnWaits(d, e);
      assert forall i | 0 <= i < |rest| :: rest[i] == es[i + 1];
      assert Times(es)[1..] == Times(rest);
      if id in n.listed {
        OthersDoNotMatter(n, rest, e.now, id);
      } else {
        Unlisted(n, rest, id);
      }
    }
  }

  lemma {:induction false} TimesAscend(d: Desk, es: seq<Event>, from: nat)
    requires Lawful(d, es, from)
    ensures Ascending(Times(es)) && forall i | 0 <= i < |es| :: from <= es[i].now < TICKS
    decreases |es|
  {
    hide Turn, Fits;
    if es != [] {
      TimesAscend(Turn(d, es[0]), es[1..], es[0].now);
      assert forall i | 0 < i < |es| :: es[i] == es[1..][i - 1];
      assert forall i | 0 < i < |es| :: Times(es)[i] == Times(es[1..])[i - 1];
    }
  }

  // While a cyclic timer is listed, its deadlines fit.
  lemma {:induction false} TimesFit(d: Desk, es: seq<Event>, from: nat, id: nat, t: Timer)
    requires Waits(d) && Lawful(d, es, from) && id in d.listed && Untouched(es, id)
    requires d.timers[id] == t.(jiffies := d.timers[id].jiffies, fired := d.timers[id].fired)
    ensures t.timeout > 0 && forall i | 0 <= i < |es| :: InTime(t, es[i].now)
    decreases |es|
  {
    hide Turn, Handled, Obeyed;
    if es != [] {
      var e, rest := es[0], es[1..];
      assert !Touches(e.cmd, id);
      TurnUntouched(d, e, id);
      TurnWaits(d, e);
      ObeyedKeeps(d, e, id);
      assert forall i | 0 < i < |es| :: es[i] == rest[i - 1];
      if t.cyclic { TimesFit(Turn(d, e), rest, e.now, id, t); }
    }
  }

  lemma ObeyedKeeps(d: Desk, e: Event, id: nat)
    requires id in d.timers && id in d.listed && !Touches(e.cmd, id)
    ensures var n := Obeyed(d, e.now, e.cmd); id in n.timers && id in n.listed && n.timers[id] == d.timers[id]
  {
    hide Armed;
  }

  function Due(t: Timer, now: nat): nat
    requires t.timeout > 0 && t.start <= now
  {
    if t.cyclic then (now - t.start) / t.timeout else if now < t.start + t.timeout then 0 else 1
  }

  // r is t after all callbacks that are due at now.
  predicate RightCount(t: Timer, r: Timer, now: nat) { t.timeout > 0 && t.start <= now && r.fired == Due(t, now) }

  // The timer has made no callback before its time.
  predicate OnSchedule(t: Timer, from: nat) { t.start + t.fired * t.timeout <= from }

  // In every run every listed timer that no command names has made by the last turn the
  // callbacks that were due: floor((now - start) / period) if cyclic, one if one-shot.
  lemma FiresInEveryRun(d: Desk, es: seq<Event>, from: nat, id: nat)
    requires Waits(d) && Lawful(d, es, from) && es != [] && id in d.listed && Untouched(es, id)
    requires OnSchedule(d.timers[id], from)
    ensures id in Final(d, es).timers && RightCount(d.timers[id], Final(d, es).timers[id], es[|es| - 1].now)
  {
    hide Lawful, Final, Worked, InTime, Ascending, Turn;
    var t := d.timers[id];
    OthersDoNotMatter(d, es, from, id);
    TimesAscend(d, es, from);
    TimesFit(d, es, from, id, t);
    NotBefore(t);
    SoftTimers.FiresInEveryRun(t, Times(es));
  }

  // The callbacks by the tick last of a timer that was started at itime when the worker got to
  // it at now: from its start on; or, when it was late, one at once and then from now on.  A
  // deadline after the wrap of the counter does not come before it.
  function CallbacksBy(now: nat, itime: nat, tout: nat, cyclic: bool, last: nat): nat
    requires tout > 0 && itime <= now <= last
  {
    var late := itime + tout <= now;
    if Deadline(now, itime, tout) >= TICKS then (if late then 1 else 0)
    else if cyclic then (if late then 1 + (last - now) / tout else (last - itime) / tout)
    else if late || itime + tout <= last then 1 else 0
  }

  // Every timer that a run starts, and does not name again, has made them by the last turn.
  lemma StartedFires(d: Desk, es: seq<Event>, from: nat)
    requires Waits(d) && Lawful(d, es, from) && es != [] && es[0].cmd.Start? && Untouched(es[1..], es[0].cmd.id)
    ensures var c := es[0].cmd; var now, last := es[0].now, es[|es| - 1].now;
            && c.itime <= now <= last && c.tout > 0 && c.id in Final(d, es).timers
            && Final(d, es).timers[c.id].fired == CallbacksBy(now, c.itime, c.tout, c.cyclic, last)
  {
    hide Final, Turn, Worked, InTime, Ascending, Handled, Passed, CallbacksBy, Armed, Deadline;
    var e, c := es[0], es[0].cmd;
    var o := Obeyed(d, e.now, c);
    var again := [At(e.now, Nothing)] + es[1..];
    var last := es[|es| - 1].now;
    TimesAscend(d, es, from);
    TimesEnd(es);
    ObeyedWaits(d, e.now, c);
    TurnNothing(d, e);
    assert again[1..] == es[1..];
    assert Lawful(o, again, e.now);
    assert Untouched(again, c.id);
    SameFinal(d, es, again);
    if c.id in o.listed {
      ArmedWaits(e.now, c.itime, c.tout, c.cyclic);
      FiresInEveryRun(o, again, e.now, c.id);
      ArmedCount(e.now, c.itime, c.tout, c.cyclic, last);
    } else {
      Unlisted(o, again, c.id);
      AwayCount(e.now, c.itime, c.tout, c.cyclic, last);
    }
  }

  lemma TimesEnd(es: seq<Event>)
    requires es != [] && Ascending(Times(es))
    ensures es[0].now <= es[|es| - 1].now
  {
    assert Times(es)[0] == es[0].now && Times(es)[|es| - 1] == es[|es| - 1].now;
  }

  lemma ArmedCount(now: nat, itime: nat, tout: nat, cyclic: bool, last: nat)
    requires 0 < tout < TICKS && itime <= now <= last && now < TICKS && Armed(now, itime, tout, cyclic).active && Deadline(now, itime, tout) < TICKS
    ensures var t := Armed(now, itime, tout, cyclic); t.timeout == tout && t.start <= last && Due(t, last) == CallbacksBy(now, itime, tout, cyclic, last)
  {
    if cyclic && itime + tout <= now { OneEarlier(last - now, tout); }
  }

  lemma OneEarlier(x: nat, p: nat)
    requires p > 0
    ensures (x + p) / p == 1 + x / p
  {
    var t := Timer(0, p, true, true, 0, 0);
    var q, r := x / p, x % p;
    assert x == q * p + r && (q + 1) * p == q * p + p && (q + 2) * p == q * p + p + p;
    EndedIs(t, x + p, q + 1);
  }

  lemma AwayCount(now: nat, itime: nat, tout: nat, cyclic: bool, last: nat)
    requires 0 < tout < TICKS && itime <= now <= last && now < TICKS && !(Armed(now, itime, tout, cyclic).active && Deadline(now, itime, tout) < TICKS)
    ensures Armed(now, itime, tout, cyclic).fired == CallbacksBy(now, itime, tout, cyclic, last)
  {
  }

  lemma TurnNothing(d: Desk, e: Event)
    ensures Turn(Obeyed(d, e.now, e.cmd), At(e.now, Nothing)) == Turn(d, e)
    ensures Obeyed(Obeyed(d, e.now, e.cmd), e.now, Nothing) == Obeyed(d, e.now, e.cmd)
  {
    hide Passed;
  }

  lemma SameFinal(d: Desk, es: seq<Event>, again: seq<Event>)
    requires es != [] && again == [At(es[0].now, Nothing)] + es[1..]
    ensures Final(d, es) == Final(Obeyed(d, es[0].now, es[0].cmd), again) && again[|again| - 1].now == es[|es| - 1].now
  {
    hide Turn, Obeyed;
    TurnNothing(d, es[0]);
    assert again[1..] == es[1..];
  }

  // ---- the worker ----

  ghost function View(w: Worker): Desk
    reads w
  {
    Desk(w.timers, (set x | x in w.list), (set x | x in w.ovf))
  }

  lemma ViewWaits(w: Worker)
    requires w.Valid()
    ensures Waits(View(w))
  {
  }

  // A timer on no list may go.
  lemma Gone(timers: map<nat, Timer>, ids: seq<nat>, id: nat)
    requires ByDeadline(timers, ids) && id !in ids
    ensures ByDeadline(timers - {id}, ids) && (AllWaiting(timers, ids) ==> AllWaiting(timers - {id}, ids))
  {
    hide Waiting;
    forall i | 0 <= i < |ids| ensures ids[i] in timers - {id} { assert ids[i] in ids; }
  }

  // The switch over the commands.
  method Obey(w: Worker, now: nat, c: Command)
    requires w.Valid() && CommandOk(View(w), now, c) && now < TICKS
    modifies w
    ensures w.Valid() && View(w) == Obeyed(old(View(w)), now, c)
  {
    hide Waiting, Armed, Deadline, ByDeadline;
    match c {
      case Start(id, itime, tout, cyclic) =>
        if id in w.timers { w.HandleCancel(id); } else { Known(w, id); }
        w.HandleAdd(now, id, itime, tout, cyclic);
      case Cancel(id) => w.HandleCancel(id);
      case Delete(id) =>
        w.HandleCancel(id);
        Gone(w.timers, w.list, id);
        Gone(w.timers, w.ovf, id);
        w.timers := w.timers - {id};
      case Nothing =>
    }
  }

  lemma Known(w: Worker, id: nat)
    requires w.Valid() && id !in w.timers
    ensures id !in w.list && id !in w.ovf
  {
  }

  // One turn of worker_thread: a command, and the time.
  method TakeTurn(w: Worker, e: Event) returns (wait: nat)
    requires w.Valid() && e.now < TICKS && CommandOk(View(w), e.now, e.cmd) && Fits(Obeyed(View(w), e.now, e.cmd), e.now)
    modifies w
    ensures w.Valid() && View(w) == Turn(old(View(w)), e)
    ensures wait == if w.list == [] then (TICKS - e.now) % TICKS else w.timers[w.list[0]].jiffies - e.now
  {
    Obey(w, e.now, e.cmd);
    hide Obeyed, Handled, Waiting, InTime, ByDeadline;
    ghost var d := View(w);
    AllFit(w, e.now);
    wait := w.HandleTime(e.now);
    assert View(w).timers == Passed(d, e.now).timers;
    assert View(w).listed == Passed(d, e.now).listed;
  }

  lemma AllFit(w: Worker, now: nat)
    requires w.Valid() && Fits(View(w), now)
    ensures AllInTime(w.timers, w.list, now)
  {
    hide InTime;
    forall i | 0 <= i < |w.list| ensures InTime(w.timers[w.list[i]], now) { assert w.list[i] in View(w).listed; }
  }

  lemma AllFire(w: Worker, es: seq<Event>, from: nat)
    requires w.Valid() && Lawful(View(w), es, from)
    ensures forall id | id in w.list && es != [] && Untouched(es, id) && OnSchedule(w.timers[id], from) ::
              var d := Final(View(w), es); id in d.timers && RightCount(w.timers[id], d.timers[id], es[|es| - 1].now)
  {
    hide Lawful, Final, Untouched, OnSchedule, RightCount;
    ViewWaits(w);
    forall id | id in w.list && es != [] && Untouched(es, id) && OnSchedule(w.timers[id], from)
      ensures var d := Final(View(w), es); id in d.timers && RightCount(w.timers[id], d.timers[id], es[|es| - 1].now)
    {
      FiresInEveryRun(View(w), es, from, id);
    }
  }

  // A run of worker_thread does what the theorems above say of it.
  method Serve(w: Worker, es: seq<Event>, ghost from: nat)
    requires w.Valid() && Lawful(View(w), es, from)
    modifies w
    ensures w.Valid() && View(w) == Final(old(View(w)), es)
    ensures forall id | id in old(w.list) && es != [] && Untouched(es, id) && OnSchedule(old(w.timers)[id], from) ::
              id in w.timers && RightCount(old(w.timers)[id], w.timers[id], es[|es| - 1].now)
  {
    hide Turn, Fits, CommandOk, Untouched, OnSchedule, RightCount;
    AllFire(w, es, from);
    ghost var before := from;
    assert es[0..] == es;
    for i := 0 to |es|
      invariant w.Valid() && Lawful(View(w), es[i..], before) && Final(View(w), es[i..]) == Final(old(View(w)), es)
    {
      assert es[i..][0] == es[i] && es[i..][1..] == es[i + 1..];
      var wait := TakeTurn(w, es[i]);
      before := es[i].now;
    }
  }
}
