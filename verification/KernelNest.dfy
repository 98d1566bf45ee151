/**
 What the lock count of a mutex counts (libisix/kernel/mutex.c).  A task may lock a mutex that it
 owns again; it gives it up with as many unlocks, and no step in between takes it away, but for
 those that are meant to.
 */
module KernelNest {
  import opened Lists
  import opened KernelState
  import opened KernelCalls
  import opened KernelLists
  import opened KernelTime
  import opened KernelInv
  import opened KernelWake
  import opened KernelMutex
  import opened KernelObjects
  import opened KernelTasks
  import opened KernelSched
  import opened KernelRun
  import opened KernelHonest
  import opened KernelStarts

  function CountOf(k: K, m: nat): int { if m in k.mtx then k.mtx[m].count else 0 }

  // ---- the calls ----

  // The current task asks for m: by a lock, a trylock, or the end of a condition wait or of a
  // lock that was cut short.
  predicate Asks(k: K, op: Op, m: nat) {
    || op == OfMutex(Lock(m)) || op == OfMutex(Trylock(m))
    || (op.Resumed? && k.current in k.s.tasks && (k.s.tasks[k.current].call == InCond(m) || (k.s.tasks[k.current].call == InLock(m) && k.s.tasks[k.current].aborted)))
  }

  // It is told that it has locked m.
  predicate Locks(k: K, op: Op, m: nat) { Asks(k, op, m) && Apply(k, op).ret == Code(EOK) }

  // It has unlocked m: by an unlock, or at the start of a condition wait.
  predicate Unlocks(k: K, op: Op, m: nat) {
    || (op == OfMutex(Unlock(m)) && Apply(k, op).ret == Code(EOK))
    || (WaitsWith(k, op, m) && Apply(k, op).ret == Blocked)
  }

  predicate WaitsWith(k: K, op: Op, m: nat) { op.OfCond? && op.cop.Wait? && Owned(k.s, k.current) != [] && Owned(k.s, k.current)[0] == m }

  // The steps that take m from the task t whatever its count.
  predicate TakenAway(k: K, op: Op, m: nat, t: Tid) {
    op == OfMutex(DestroyMutex(m)) || (op == OfMutex(UnlockAll) && k.current == t) || op == OfTask(KillTask(t))
  }

  // ---- what a step does to one mutex ----

  datatype Change = Stays | More | Less | Gone

  // The mutex m in k and in d: as it was; locked or unlocked once more by its owner; or with
  // another owner, who has locked it once, or with none.
  ghost predicate Changed(k: K, d: K, m: nat, c: Change) {
    match c
    case Stays => OwnerOf(d, m) == OwnerOf(k, m) && CountOf(d, m) == CountOf(k, m)
    case More => OwnerOf(d, m) == OwnerOf(k, m) == Held(k.current) && CountOf(d, m) == CountOf(k, m) + 1
    case Less => OwnerOf(d, m) == OwnerOf(k, m) == Held(k.current) && CountOf(d, m) == CountOf(k, m) - 1
    case Gone => OwnerOf(d, m) != OwnerOf(k, m) && CountOf(d, m) == if OwnerOf(d, m).Held? then 1 else 0
  }

  // What the lock returned, and what it did.
  lemma LockChange(k: K, n: nat, m: nat)
    requires Inv(k) && k.current in k.s.tasks
    ensures var o := MutexLock(k, n);
            && (o.ret == Code(EINVARG) <==> n !in k.mtx) && (o.ret == Blocked <==> OwnerOf(k, n).Held? && OwnerOf(k, n).t != k.current) && (n in k.mtx && o.ret != Blocked ==> o.ret == Code(EOK))
            && Changed(k, o.k, m, if n != m || o.ret != Code(EOK) then Stays else if OwnerOf(k, m).Free? then Gone else More)
  {
    hide InvBut, SetOwned, InsertFirst, BlockOnMutex, Inherit;
    if n in k.mtx {
      MutexOf(k, n);
      BlockMtx(k.(s := if k.current in k.s.tasks && k.mtx[n].owner.Held? then Inherit(k.s, k.mtx[n].owner.t, k.s.tasks[k.current].prio) else k.s), n);
    }
  }

  lemma BlockMtx(k: K, m: nat)
    ensures BlockOnMutex(k, m).mtx == k.mtx
  {
  }

  lemma MutexOf(k: K, m: nat)
    requires Inv(k) && m in k.mtx
    ensures if k.mtx[m].owner.Held? then k.mtx[m].count >= 1 && m in Owned(k.s, k.mtx[m].owner.t) && k.mtx[m].owner.t !in Queue(k.s, MtxQ(m)) else k.mtx[m].count == 0
  {
    hide Core, States, TimeInv, TimeStates, Objects, OneRunning, Sems, Events, Calls, Exits;
    assert OwnerOk(k.s, m, k.mtx[m]);
  }

  lemma TrylockChange(k: K, n: nat, m: nat)
    requires Inv(k)
    ensures var o := MutexTrylock(k, n);
            && o.ret == Code(if n !in k.mtx then EINVARG else if OwnerOf(k, n).Free? || OwnerOf(k, n).t == k.current then EOK else EPERM)
            && Changed(k, o.k, m, if n != m || o.ret != Code(EOK) then Stays else if OwnerOf(k, m).Free? then Gone else More)
  {
    hide InvBut, SetOwned, InsertFirst;
    if n in k.mtx { MutexOf(k, n); }
  }

  // v is passed on, becomes free, or stays.
  predicate Passed(v: Mutex, w: Mutex) { w == v || w == Mutex(0, Free) || (w.count == 1 && w.owner.Held?) }

  lemma TransferMtx(k: K, m: nat)
    requires m in k.mtx
    ensures var d := Transfer(k, m); m in d.mtx && d.mtx == k.mtx[m := d.mtx[m]] && Passed(k.mtx[m], d.mtx[m])
  {
    hide Detach, ListDelete, SetOwned, SetToken, SetObj, AddReady, InsertFirst;
  }

  lemma ReleaseMtx(k: K, m: nat)
    requires m in k.mtx
    ensures var d := Release(k, m); m in d.mtx && d.mtx == k.mtx[m := d.mtx[m]] && Passed(k.mtx[m], d.mtx[m])
  {
    hide Detach, Realloc, CalcInherited, Transfer;
    var d := Detach(k.s, Held(k.current), m);
    TransferMtx(k.(s := Realloc(d, k.current, CalcInherited(d, k.current))), m);
  }

  lemma UnlockChange(k: K, n: nat, m: nat)
    requires Inv(k) && Runnable(k.s, k.current) && k.s.tasks[k.current].call == NoCall
    ensures var o := MutexUnlock(k, n);
            && o.ret == Code(if n !in k.mtx then EINVARG else if OwnerOf(k, n).Free? then ENOTLOCKED else if OwnerOf(k, n).t != k.current then EPERM else EOK)
            && Changed(k, o.k, m, if n != m || o.ret != Code(EOK) then Stays else if CountOf(k, m) > 1 then Less else Gone)
  {
    hide InvBut, Release, SameConds;
    UnlockInv(k, n);
    if n in k.mtx {
      MutexOf(k, n);
      ReleaseMtx(k, n);
      if Queue(k.s, MtxQ(n)) != [] { assert Queue(k.s, MtxQ(n))[0] in Queue(k.s, MtxQ(n)); }
    }
  }

  lemma {:induction false} ReleaseEachMtx(k: K, ms: seq<nat>, m: nat)
    ensures var d := ReleaseEach(k, ms); (m in d.mtx <==> m in k.mtx) && (m in k.mtx ==> Passed(k.mtx[m], d.mtx[m]) && (m !in ms ==> d.mtx[m] == k.mtx[m]))
    decreases |ms|
  {
    hide Transfer, Detach;
    if ms != [] && ms[0] in k.mtx {
      var n := ms[0];
      TransferMtx(k, n);
      ReleaseEachMtx(if Queue(k.s, MtxQ(n)) != [] then Transfer(k, n)
                     else k.(s := Detach(k.s, k.mtx[n].owner, n), mtx := k.mtx[n := Mutex(0, Free)]), ms[1..], m);
    }
  }

  // A task gives up all that it owns.
  lemma UnlockAllChange(k: K, u: Tid, m: nat)
    requires Inv(k) && u in k.s.tasks && NoReturn(k.s.tasks[u])
    ensures Changed(k, UnlockAllIn(k, u), m, if OwnerOf(k, m) == Held(u) then Gone else Stays)
  {
    hide InvBut, ReleaseEach, Reinherit;
    ReleaseEachMtx(k, Owned(k.s, u), m);
    UnlockAllInv(k, u);
    var d := UnlockAllIn(k, u);
    if m in k.mtx {
      MutexOf(k, m);
      MutexOf(d, m);
      if m in Owned(k.s, u) { OwnedHeld(k, u, m); }
    }
  }

  lemma KillChange(k: K, t: Tid, m: nat)
    requires Inv(k) && t in k.s.tasks && t != IDLE
    ensures Changed(k, Kill(k, t), m, if OwnerOf(k, m) == Held(t) then Gone else Stays)
  {
    hide InvBut, Abandon, UnlockAllIn, WakeAll, KillOrSuspend;
    if m in k.mtx { MutexOf(k, m); }
    if Finished(k.s, t) {
      if OwnerOf(k, m) == Held(t) { HeldFacts(k, m, k.sems, k.mtx); }
    } else {
      AbandonInv(k, t);
      var a := k.(s := Abandon(k.s, t));
      UnlockAllChange(a, t, m);
      var u := UnlockAllIn(a, t);
      var o := Msg(if t == k.current then EOK else EDESTROY);
      WakeAllTime(u, Queue(u.s, ExitQ(t)), o);
      EndMtx(WakeAll(u, Queue(u.s, ExitQ(t)), o), t);
    }
  }

  lemma EndMtx(k: K, t: Tid)
    ensures KillOrSuspend(k, t, false).mtx == k.mtx
  {
    hide LeaveQueue, ReturnToken, TimeDelete;
  }

  lemma DestroyChange(k: K, n: nat, m: nat)
    requires Inv(k)
    ensures Changed(k, MutexDestroy(k, n).k, m, if n == m && OwnerOf(k, m).Held? then Gone else Stays)
  {
    hide InvBut, MutexDestroy;
    if n in k.mtx {
      MutexOf(k, n);
      DestroyKeys(k, n);
    } else {
      NoMutex(k, n);
    }
  }

  // ---- steps ----

  // The rest of a lock or of a condition wait: it returns its result, or locks.  A condition wait
  // that was not signalled comes back without its mutex.
  lemma ComesBack(k: K)
    requires k.current in k.s.tasks
    ensures Apply(k, Resumed) == Continue(k)
    ensures var c := k.s.tasks[k.current].call; var r := k.s.tasks[k.current];
            c.InLock? || c.InCond? ==>
              if (if c.InLock? then r.aborted else r.obj == Msg(EOK))
              then Continue(k) == MutexLock(k.(s := SetCall(k.s, k.current, NoCall)), c.m)
              else Continue(k).k.mtx == k.mtx && if r.obj.Msg? then Continue(k).ret == Code(r.obj.code) else Continue(k).ret != Code(EOK)
  {
    hide MutexLock, SetCall;
  }

  // A step that leaves the mutexes alone.
  lemma SameMtx(k: K, d: K, e: K, m: nat)
    ensures e.mtx == d.mtx ==> forall c :: Changed(k, d, m, c) <==> Changed(k, e, m, c)
    ensures Changed(k, k, m, Stays)
  {
  }

  lemma CondMtx(k: K, c: nat, m: nat, timeout: nat)
    ensures BlockOnCond(k, c, m, timeout).mtx == k.mtx
  {
  }

  lemma TaskKills(k: K, t: Tid)
    ensures TaskStep(k, KillTask(t)).k == Kill(k, t)
  {
    hide Kill;
  }

  lemma DoneChange(k: K, done: K, d: K, m: nat)
    requires done.mtx == k.mtx && done.current == k.current
    ensures forall c :: Changed(done, d, m, c) <==> Changed(k, d, m, c)
  {
  }

  lemma NewChange(k: K, n: nat, m: nat)
    requires n !in k.mtx
    ensures Changed(k, MutexStep(k, NewMutex(n)).k, m, Stays)
  {
  }

  // What the step does to m: nothing, unless the caller locks or unlocks it or it is taken away.
  ghost function Effect(k: K, op: Op, m: nat): Change {
    if OwnerOf(k, m).Free? then if Locks(k, op, m) then Gone else Stays
    else if TakenAway(k, op, m, OwnerOf(k, m).t) then Gone
    else if Locks(k, op, m) then More
    else if Unlocks(k, op, m) then if CountOf(k, m) > 1 then Less else Gone
    else Stays
  }

  lemma MutexEffect(k: K, op: MutexOp, m: nat)
    requires Inv(k) && MutexEnabled(k, op)
    ensures Changed(k, MutexStep(k, op).k, m, Effect(k, OfMutex(op), m))
  {
    hide InvBut, MutexLock, MutexTrylock, MutexUnlock, MutexDestroy, UnlockAllIn, Changed;
    ByMutex(k, op);
    hide Apply;
    match op {
      case NewMutex(n) => assert Changed(k, MutexStep(k, op).k, m, Stays) by { NewChange(k, n, m); }
      case Lock(n) => LockChange(k, n, m);
      case Trylock(n) => TrylockChange(k, n, m);
      case Unlock(n) => UnlockChange(k, n, m);
      case UnlockAll => UnlockAllChange(k, k.current, m);
      case DestroyMutex(n) => DestroyChange(k, n, m);
    }
  }

  lemma CondEffect(k: K, op: CondOp, m: nat)
    requires Inv(k) && CondEnabled(k, op)
    ensures Changed(k, CondStep(k, op).k, m, Effect(k, OfCond(op), m))
  {
    hide InvBut, MutexUnlock, BlockOnCond, SameConds, Changed;
    ByCond(k, op);
    CondTime(k, op);
    hide Apply;
    SameMtx(k, k, CondStep(k, op).k, m);
    if op.Wait? && Owned(k.s, k.current) != [] {
      var n := Owned(k.s, k.current)[0];
      OwnedHeld(k, k.current, n);
      UnlockChange(k, n, m);
      var u := MutexUnlock(k, n).k;
      CondMtx(u, op.c, n, op.timeout);
      SameMtx(k, u, BlockOnCond(u, op.c, n, op.timeout), m);
    }
  }

  lemma ContinueEffect(k: K, m: nat)
    requires Inv(k) && Runnable(k.s, k.current) && k.current != IDLE && CanRetry(k)
    ensures Changed(k, Continue(k).k, m, Effect(k, Resumed, m))
  {
    hide InvBut, Continue, Changed, SetCall, CanRetry, Apply;
    ComesBack(k);
    ContinueTime(k);
    SameMtx(k, k, Continue(k).k, m);
    var r := k.s.tasks[k.current];
    if r.call.InLock? || r.call.InCond? {
      DoneInv(k);
      var done := k.(s := SetCall(k.s, k.current, NoCall));
      LockChange(done, r.call.m, m);
      DoneChange(k, done, MutexLock(done, r.call.m).k, m);
    }
  }

  // In every state: the lock count grows with every lock of the owner and shrinks with every
  // unlock, the owner changes with the last of them, and nothing else changes either, but for
  // the steps that take the mutex away.
  lemma StepEffect(k: K, op: Op, m: nat)
    requires Inv(k) && Enabled(k, op)
    ensures Changed(k, Apply(k, op).k, m, Effect(k, op, m))
  {
    hide InvBut, Changed, MutexStep, CondStep, SemStep, EventStep, TaskStep, Continue, Switch, Advance, MutexEnabled, CondEnabled, SemEnabled, EventEnabled,
         CanRetry, Kill;
    SameMtx(k, k, Apply(k, op).k, m);
    match op {
      case OfMutex(o) => MutexEffect(k, o, m);
      case OfCond(o) => CondEffect(k, o, m);
      case OfSem(o) => SemTime(k, o);
      case OfEvent(o) => EventTime(k, o);
      case OfTask(o) => TaskTime(k, o); if o.KillTask? { TaskKills(k, o.t); KillChange(k, o.t, m); }
      case Resumed => ContinueEffect(k, m);
      case Preempt => SwitchTime(k);
      case Tick(n) => AdvanceTime(k, n);
    }
  }

  // ---- runs ----

  ghost function Gain(k: K, op: Op, m: nat): int { if Locks(k, op, m) then 1 else if Unlocks(k, op, m) then -1 else 0 }

  // How often the owner of m has locked it since it got it, less its unlocks, told from the owners
  // and the results of the calls alone.  Who gets m has locked it once.
  ghost function Depth(k: K, op: Op, m: nat, n: int): int {
    var o := OwnerOf(Apply(k, op).k, m);
    if o == OwnerOf(k, m) then n + Gain(k, op, m) else if o.Held? then 1 else 0
  }

  ghost function Nested(k: K, ops: seq<Op>, m: nat, n: int): int
    decreases |ops|
  {
    if ops == [] then n else Nested(Apply(k, ops[0]).k, ops[1..], m, Depth(k, ops[0], m, n))
  }

  lemma StepDepth(k: K, op: Op, m: nat)
    requires Inv(k) && Enabled(k, op)
    ensures CountOf(Apply(k, op).k, m) == Depth(k, op, m, CountOf(k, m))
  {
    hide InvBut, Apply, Enabled, Locks, Unlocks;
    StepEffect(k, op, m);
    if Unlocks(k, op, m) { UnlocksOwn(k, op, m); }
  }

  lemma {:induction false} CountsFrom(k: K, ops: seq<Op>, m: nat)
    requires Inv(k) && Lawful(k, ops)
    ensures CountOf(Final(k, ops), m) == Nested(k, ops, m, CountOf(k, m))
    decreases |ops|
  {
    hide InvBut, Apply, Enabled, Depth;
    if ops != [] {
      StepInv(k, ops[0]);
      StepDepth(k, ops[0], m);
      CountsFrom(Apply(k, ops[0]).k, ops[1..], m);
    }
  }

  // The lock count of every run.
  lemma CountIsNesting(ops: seq<Op>, m: nat)
    requires Lawful(Boot(), ops)
    ensures CountOf(Final(Boot(), ops), m) == Nested(Boot(), ops, m, 0)
  {
    hide InvBut, Lawful, Final, Nested;
    BootInv();
    CountsFrom(Boot(), ops, m);
  }

  // The owner t keeps m in a step, unless it is the last unlock or m is taken away.
  lemma KeepsMutex(k: K, op: Op, m: nat, t: Tid)
    requires Inv(k) && Enabled(k, op) && OwnerOf(k, m) == Held(t)
    ensures OwnerOf(Apply(k, op).k, m) == Held(t) <==> !TakenAway(k, op, m, t) && !(Unlocks(k, op, m) && CountOf(k, m) == 1)
    ensures Locks(k, op, m) || Unlocks(k, op, m) ==> k.current == t
  {
    hide InvBut, Apply, Enabled, Locks, Unlocks;
    StepEffect(k, op, m);
    if m in k.mtx { MutexOf(k, m); }
    if Unlocks(k, op, m) { UnlocksOwn(k, op, m); }
    if Locks(k, op, m) { LocksNotTaken(k, op, m, t); }
  }

  lemma LocksNotTaken(k: K, op: Op, m: nat, t: Tid)
    requires Locks(k, op, m)
    ensures !TakenAway(k, op, m, t)
  {
    hide Apply;
  }

  // Only the owner unlocks.
  lemma UnlocksOwn(k: K, op: Op, m: nat)
    requires Inv(k) && Enabled(k, op) && Unlocks(k, op, m)
    ensures OwnerOf(k, m) == Held(k.current) && !Locks(k, op, m) && !TakenAway(k, op, m, k.current)
  {
    hide InvBut, MutexUnlock, CondStep, Changed;
    if op.OfCond? {
      OwnedHeld(k, k.current, m);
    } else {
      UnlockChange(k, m, m);
    }
  }

  // The locks less the unlocks of m in a run, added to n.
  ghost function Balance(k: K, ops: seq<Op>, m: nat, n: int): int
    decreases |ops|
  {
    if ops == [] then n else Balance(Apply(k, ops[0]).k, ops[1..], m, n + Gain(k, ops[0], m))
  }

  // No step of the run takes m away, and the balance stays positive.
  ghost predicate Inside(k: K, ops: seq<Op>, m: nat, t: Tid, n: int)
    decreases |ops|
  {
    n >= 1 && (ops == [] || (!TakenAway(k, ops[0], m, t) && Inside(Apply(k, ops[0]).k, ops[1..], m, t, n + Gain(k, ops[0], m))))
  }

  // However deep the locks are nested: while it has unlocked m less often than it has locked it,
  // t owns m, and the count is the difference.
  lemma {:induction false} OwnsUntilUnlocked(k: K, ops: seq<Op>, m: nat, t: Tid)
    requires Inv(k) && Lawful(k, ops) && OwnerOf(k, m) == Held(t) && Inside(k, ops, m, t, CountOf(k, m))
    ensures OwnerOf(Final(k, ops), m) == Held(t) && CountOf(Final(k, ops), m) == Balance(k, ops, m, CountOf(k, m)) >= 1
    decreases |ops|
  {
    hide InvBut, Apply, Enabled, TakenAway, Locks, Unlocks;
    if ops != [] {
      var op := ops[0];
      StepInv(k, op);
      StepEffect(k, op, m);
      OwnsUntilUnlocked(Apply(k, op).k, ops[1..], m, t);
    }
  }
}
