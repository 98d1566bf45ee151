/**
 A run in which a wait goes on after its timeout: a task is suspended while it waits and
 resumed after the tick counter has wrapped.
 */
module KernelLate {
  import opened Lists
  import opened KernelState
  import opened KernelCalls
  import opened KernelLists
  import opened KernelTime
  import opened KernelInv
  import opened KernelWake
  import opened KernelMutex
  import opened KernelTasks
  import opened KernelSched
  import opened KernelRun
  import opened KernelEffects
  import opened KernelHonest
  import opened KernelProgram
  import opened KernelForged

  const SEM: nat := 0
  const PAUSE: Op := OfTask(Pause(1))
  const UNPAUSE: Op := OfTask(Unpause(1))
  const DELAY: Op := OfTask(Delay(1))

  // Task 2 goes to sleep for a tick.
  function Asleep(c: Clock): Clock { SetTimeout(c, 2, 1) }

  // Task 1 takes its wait up again more than a wrap after it began, and blocks.
  ghost predicate Overslept(k: K) {
    && Acts(k) && k.current == 1 && Enabled(k, Resumed) && At(k, ONE).call == Wait5(SEM) && Now(k.clock) == TICKS + 1
    && Apply(k, Resumed).ret == Blocked
  }

  // Task 1 is suspended in its wait at tick 1.
  ghost predicate Cut(k: K) {
    && Crew(k, DUO, TWO) && Acts(k) && At(k, TWO).call.NoCall? && At(k, ONE).state.Suspend? && At(k, ONE).call == Wait5(SEM)
    && At(k, ONE).aborted && k.clock.jiffies == 1 && k.clock.cur == [] && k.clock.ovf == []
    && NeverSignalled(k, SEM)
  }

  lemma Cuts(k: K)
    requires Waiting1(k, SEM)
    ensures var op := PAUSE; var d := Apply(k, op).k; Enabled(k, op) && Silent(k, op) && Cut(d) && d.clock.epoch == 0
  {
    hide Apply, Enabled, InvBut, KillOrSuspend, OffList, Only, Core, States, Tame;
    ByTask(k, Pause(ONE));
    SuspendInv(k, 1);
    SuspendIs(k, 1);
    ParkInv(k, 1);
    OnlyKeys(k.s, Park(k, 1).s, 1);
    assert Remove([1], 1) == [];
    assert Remove<Tid>([], 1) == [];
  }

  // A whole wrap in which nobody sleeps.
  lemma Wraps(k: K)
    requires k.clock.jiffies == 1 && k.clock.cur == [] && k.clock.ovf == []
    ensures Advance(k, TICKS) == k.(clock := k.clock.(epoch := k.clock.epoch + 1))
  {
    var a := SetJiffies(k, TICKS - 1);
    assert Expire(a, TICKS - 1) == a;
    var w := Wrap(a);
    assert Expire(w, 0) == w;
    var e := SetJiffies(w, 1);
    assert Expire(e, 1) == e;
    assert Advance(w, 1) == e;
  }

  lemma Passes(k: K)
    requires Cut(k)
    ensures var d := Apply(k, Tick(TICKS)).k;
            Enabled(k, Tick(TICKS)) && Silent(k, Tick(TICKS)) && Cut(d) && d.clock.epoch == k.clock.epoch + 1
  {
    hide InvBut, Advance, Tame;
    AdvanceInv(k, TICKS);
    Wraps(k);
  }

  // Task 2 resumes it and sleeps.
  lemma TakesUp(k0: K, ops: seq<Op>, k: K) returns (more: seq<Op>, d: K)
    requires Leads(k0, ops, k) && Cut(k) && k.clock.epoch == 1
    ensures Leads(k0, more, d) && Overslept(d) && more == ops + [UNPAUSE, DELAY, Preempt]
  {
    hide Apply, Enabled, Leads, SemBlocks, InvBut, TimeDelete, SetTimeout, EndedOtherwise, Overslept;
    var a;
    Unpaused(k, DUO, 1);
    more, a := Next(k0, ops, k, OfTask(Unpause(1)));
    more, d := NapsAndYields(k0, more, a);
    Times(k.clock, 1, 2, 1);
    BlocksAgain(d);
  }

  lemma NapsAndYields(k0: K, ops: seq<Op>, k: K) returns (more: seq<Op>, d: K)
    requires Leads(k0, ops, k) && Crew(k, DUO, TWO) && Acts(k) && At(k, TWO).call.NoCall? && Runnable(k.s, ONE)
    ensures Leads(k0, more, d) && Crew(d, DUO, ONE) && Acts(d) && Same(k, d) && d.clock == Asleep(k.clock) && more == ops + [DELAY, Preempt]
    ensures At(d, ONE) == At(k, ONE).(state := At(d, ONE).state)
  {
    hide Apply, Enabled, Leads, SemBlocks, InvBut, SetTimeout;
    Naps(k, DUO, 1);
    var a;
    more, a := Next(k0, ops, k, OfTask(Delay(1)));
    To(a, DUO, 1);
    more, d := Next(k0, more, a, Preempt);
  }

  lemma Times(c: Clock, t: Tid, u: Tid, n: nat)
    ensures var d := SetTimeout(TimeDelete(c, t), u, n); d.epoch == c.epoch && d.jiffies == c.jiffies
  {
    hide TimePos;
  }

  lemma BlocksAgain(k: K)
    requires Crew(k, DUO, ONE) && Acts(k) && At(k, ONE).call == Wait5(SEM) && At(k, ONE).aborted && k.clock.epoch == 1 && k.clock.jiffies == 1
    requires NeverSignalled(k, SEM)
    ensures Overslept(k)
  {
    hide InvBut, BlockOnSem;
    assert Elapsed(k.clock, 0) == 1;
  }

  // At tick 1 of the run, after begun, task 1 waits since tick 0 with a timeout of 5; at tick
  // 2^32 + 1 it is still in that wait and blocks again.
  lemma TimeoutMissed() returns (begun: seq<Op>, ops: seq<Op>)
    ensures Lawful(Boot(), ops) && Genuine(Boot(), ops, true) && begun <= ops && Lawful(Boot(), begun)
    ensures var k := Final(Boot(), begun); 1 in k.s.tasks && At(k, ONE).call == Wait5(SEM) && At(k, ONE).state.WtSem? && Now(k.clock) == 1
    ensures Overslept(Final(Boot(), ops))
  {
    hide Boot, Apply, Enabled, Lawful, Final, InvBut, Leads, SemBlocks, Genuine, Fresh, Overslept, Cut, Acts;
    Starts();
    var k, a, b, more;
    NewSemaphore(Boot(), ALONE, 0, 0);
    ops, k := Then([], Boot(), OfSem(NewSem(0, 0, 0)), true);
    ops, k := MakesDuo(ops, k);
    more, a := ToWaiting1(k, 0);
    Whole(ops, k, more, a);
    begun := ops + more;
    Cuts(a);
    var m2, m3, m4;
    m2, b := Next(k, more, a, OfTask(Pause(1)));
    CutActs(b);
    Passes(b);
    m3, a := Next(k, m2, b, Tick(TICKS));
    m4, b := TakesUp(k, m3, a);
    Whole(ops, k, m4, b);
    ops := ops + m4;
    var rest := [OfTask(Pause(1)), Tick(TICKS), OfTask(Unpause(1)), OfTask(Delay(1)), Preempt];
    assert m4 == more + rest;
    assert ops == begun + rest;
  }

  lemma CutActs(k: K)
    requires Cut(k)
    ensures Acts(k)
  {
  }
}
