/**
 When the result EOK of a blocked call can be believed.  A semaphore wait that returns EOK has
 a token, a lock that returns EOK has the mutex, an event wait never returns EOK, and a wait for
 the end of a task returns EOK only if that end said so, in every run without two kinds of
 steps: resuming a task whose wait had already ended otherwise, and destroying a mutex that was
 handed to a task which has not run since.  Each such step breaks the promise.  A condition wait
 is not among them: it may wake up for no reason.
 */
module KernelHonest {
  import opened Lists
  import opened KernelState
  import opened KernelCalls
  import opened KernelBits
  import opened KernelLists
  import opened KernelTime
  import opened KernelInv
  import opened KernelWake
  import opened KernelMutex
  import opened KernelObjects
  import opened KernelEvents
  import opened KernelTasks
  import opened KernelSched
  import opened KernelRun
  import opened KernelEffects
  import opened KernelTokens

  // ---- what a caller can see before the step ----

  // The wait of a task has ended, was not cut short, and did not end with EOK.
  predicate EndedOtherwise(r: Task) { Answers(r.call) && !r.aborted && r.obj != Msg(EOK) }

  // isix_task_resume will put EOK over the result of t's wait.
  predicate Overwrites(k: K, t: Tid) {
    t in k.s.tasks && t != k.current && k.s.tasks[t].state.Suspend? && EndedOtherwise(k.s.tasks[t])
  }

  // The owner of m is still inside the lock call that gave it m.
  predicate TakesBack(k: K, m: nat) {
    m in k.mtx && k.mtx[m].owner.Held? && k.mtx[m].owner.t in k.s.tasks &&
    var r := k.s.tasks[k.mtx[m].owner.t];
    r.call == InLock(m) && !r.aborted && r.obj == Msg(EOK)
  }

  predicate Honest(k: K, op: Op) {
    match op
    case OfTask(o) => o.Unpause? ==> !Overwrites(k, o.t)
    case OfMutex(o) => o.DestroyMutex? ==> !TakesBack(k, o.m)
    case _ => true
  }

  ghost predicate HonestRun(k: K, ops: seq<Op>)
    decreases |ops|
  {
    ops == [] || (Enabled(k, ops[0]) && Honest(k, ops[0]) && HonestRun(Apply(k, ops[0]).k, ops[1..]))
  }

  // ---- tokens ----

  // No token is forged or lost, and every mutex that was handed over exists.
  ghost predicate Clean(k: K) {
    forall t | t in k.s.tasks ::
      !k.s.tasks[t].token.Forged? && !k.s.tasks[t].token.Lost? && (k.s.tasks[t].token.Handed? ==> k.s.tasks[t].token.m in k.mtx)
  }

  lemma TidyClean(k: K, d: K)
    requires Clean(k) && TokenStep(k, d)
    ensures Clean(d)
  {
  }

  lemma OverwrittenIs(k: K, t: Tid)
    requires Inv(k) && t in k.s.tasks
    ensures Overwritten(k.s.tasks[t]) <==> EndedOtherwise(k.s.tasks[t])
  {
    hide InvBut, StateOk, BitsOk;
    StateOf(k, t, k.sems, k.mtx);
  }

  lemma TakesBackIs(k: K, m: nat)
    requires Inv(k) && m in k.mtx
    ensures TakesBack(k, m) <==> HandedTo(k.s, k.mtx[m].owner, m)
  {
    hide InvBut, BitsOk;
    var o := k.mtx[m].owner;
    if o.Held? {
      HeldFacts(k, m, k.sems, k.mtx);
      StateOf(k, o.t, k.sems, k.mtx);
    }
  }

  // Only the owner can have been handed m.
  lemma HandedOwner(k: K, t: Tid, m: nat)
    requires Inv(k) && t in k.s.tasks && k.s.tasks[t].token == Handed(m) && m in k.mtx
    ensures k.mtx[m].owner == Held(t)
  {
    hide InvBut, BitsOk;
    StateOf(k, t, k.sems, k.mtx);
  }

  // ---- the two steps that break the promise, and only they ----

  // Resuming a task whose wait ended otherwise: the call will return EOK.  Otherwise it returns
  // what it would have returned without the suspend.
  lemma ResumeForges(k: K, t: Tid)
    requires Inv(k) && t in k.s.tasks && t != k.current && k.s.tasks[t].state.Suspend?
    ensures var d := Resume(k, t).k; var r := k.s.tasks[t];
            && t in d.s.tasks && Runnable(d.s, t) && d.current == k.current && d.sems == k.sems && d.mtx == k.mtx && d.evts == k.evts
            && d.s.tasks.Keys == k.s.tasks.Keys && (forall x | x in k.s.tasks && x != t :: d.s.tasks[x] == k.s.tasks[x])
            && d.s.tasks[t] == r.(obj := Msg(EOK), state := Ready, elem := d.s.tasks[t].elem, inode := d.s.tasks[t].inode,
                                  token := if EndedOtherwise(r) then Forged else r.token)
  {
    hide Core, States, InvBut, Only, AddReady, SetObj, TimeDelete, Forge, Tame, Overwritten, EndedOtherwise;
    OverwrittenIs(k, t);
    ForgeInv(k, t);
    var u := Forge(k.s, t);
    OnlyHas(k.s, u, t);
    StateOf(k, t, k.sems, k.mtx);
    AwakeOk(u, t, Msg(EOK));
    OnlyHas(u, Awake(u, t, Msg(EOK)), t);
    OnlyKeys(k.s, u, t);
    OnlyKeys(u, Awake(u, t, Msg(EOK)), t);
  }

  // What a blocked call that was not cut short returns, by the result in its task.
  lemma ReturnsResult(k: K)
    requires Inv(k) && Runnable(k.s, k.current) && Answers(k.s.tasks[k.current].call) && !k.s.tasks[k.current].aborted
    ensures var o := Continue(k); var r := k.s.tasks[k.current];
            && (o.ret == Code(EOK) <==> r.obj == Msg(EOK)) && (Earns(r.call) ==> (o.ret == Code(EOK) <==> !r.token.NoToken?))
            && o.k.sems == k.sems && o.k.mtx == k.mtx && o.k.evts == k.evts
  {
    hide InvBut, SemTake, MutexLock, WaitFor, EventTake, EventWait, CallArgs, BitsOk;
    StateOf(k, k.current, k.sems, k.mtx);
  }

  // A destruction makes a token lost exactly when it takes the mutex back from a task that is
  // still inside its lock call.
  lemma DestroyClean(k: K, m: nat)
    requires Inv(k) && Clean(k) && m in k.mtx
    ensures Clean(MutexDestroy(k, m).k) <==> !TakesBack(k, m)
  {
    hide InvBut, Reinherit, DestroyWaiters, Forsake, TakesBack, Told;
    TakesBackIs(k, m);
    DestroyTells(k, m);
    var d := MutexDestroy(k, m).k;
    var o := k.mtx[m].owner;
    DestroyKeys(k, m);
    if !HandedTo(k.s, o, m) {
      forall t | t in d.s.tasks
        ensures !d.s.tasks[t].token.Forged? && !d.s.tasks[t].token.Lost? && (d.s.tasks[t].token.Handed? ==> d.s.tasks[t].token.m in d.mtx)
      {
        TokenKept(k, m, t);
      }
    } else {
      assert d.s.tasks[o.t].token.Lost?;
    }
  }

  lemma DestroyKeys(k: K, m: nat)
    requires Inv(k) && m in k.mtx
    ensures var d := MutexDestroy(k, m).k; d.s.tasks.Keys == k.s.tasks.Keys && d == k.(s := d.s, clock := d.clock, mtx := k.mtx - {m})
  {
    hide InvBut, Reinherit, DestroyWaiters, Forsake, Repositioned, CalcInherited;
    var o := k.mtx[m].owner;
    var k1 := k.(s := Forsake(k.s, o, m), mtx := k.mtx[m := Mutex(0, Free)]);
    OpenAccount(k, m);
    assert k1.mtx - {m} == k.mtx - {m};
    DestroyWaitersInv(k1, m, Queue(k.s, MtxQ(m)));
    ForsakeKeys(k.s, o, m);
    if o.Held? {
      var d := DestroyWaiters(k1, Queue(k.s, MtxQ(m)));
      HeldFacts(k, m, k.sems, k.mtx);
      ReinheritInv(d, o.t, k.sems, k.mtx - {m});
      ReinheritFrame(d.s, Reinherit(d.s, o.t), o.t, CalcInherited(d.s, o.t));
    }
  }

  lemma TokenKept(k: K, m: nat, t: Tid)
    requires Inv(k) && Clean(k) && m in k.mtx && t in k.s.tasks && !HandedTo(k.s, k.mtx[m].owner, m)
    ensures var d := MutexDestroy(k, m).k;
            t in d.s.tasks && !d.s.tasks[t].token.Forged? && !d.s.tasks[t].token.Lost?
            && (d.s.tasks[t].token.Handed? ==> d.s.tasks[t].token.m in d.mtx)
  {
    hide InvBut, Reinherit, DestroyWaiters, Forsake;
    DestroyTells(k, m);
    DestroyKeys(k, m);
    if k.s.tasks[t].token == Handed(m) { HandedOwner(k, t, m); }
  }

  // The exact condition, for every step.
  lemma CleanStep(k: K, op: Op)
    requires Inv(k) && Clean(k) && Enabled(k, op)
    ensures Clean(Apply(k, op).k) <==> Honest(k, op)
  {
    hide InvBut, Clean, TokenStep, Begun, Enabled, Resume, MutexDestroy, Overwritten, EndedOtherwise, TakesBack, MutexLock, MutexTrylock, MutexUnlock,
         UnlockAllIn, TaskCreate, ChangePrio, Kill, SuspendTask, WaitFor, Sleep, Cleanup, CondStep, SemStep, EventStep, Continue, Switch, Advance, NewQueue;
    if op.OfMutex? && op.mop.DestroyMutex? {
      if op.mop.m in k.mtx { DestroyClean(k, op.mop.m); } else { NoMutex(k, op.mop.m); NothingTaken(k, op.mop.m); }
    } else if op.OfTask? && op.top.Unpause? && Overwrites(k, op.top.t) {
      ResumeForges(k, op.top.t);
      NotClean(Resume(k, op.top.t).k, op.top.t);
    } else if op.OfSem? && op.sop.Give? {
      SignalClean(k, op.sop.i);
    } else {
      if op.OfTask? && op.top.Unpause? && op.top.t in k.s.tasks { OverwrittenIs(k, op.top.t); }
      CurrentThere(k);
      StepTidy(k, op);
      TidyClean(k, Apply(k, op).k);
    }
  }

  lemma SignalClean(k: K, i: nat)
    requires Clean(k)
    ensures Clean(SemStep(k, Give(i)).k)
  {
    hide SemSignal;
    SignalTidy(k, i);
  }

  lemma NothingTaken(k: K, m: nat)
    requires m !in k.mtx
    ensures !TakesBack(k, m)
  {
  }

  lemma NotClean(k: K, t: Tid)
    requires t in k.s.tasks && k.s.tasks[t].token.Forged?
    ensures !Clean(k)
  {
  }

  // ---- runs ----

  lemma {:induction false} HonestFrom(k: K, ops: seq<Op>)
    requires Inv(k) && Clean(k) && HonestRun(k, ops)
    ensures Inv(Final(k, ops)) && Clean(Final(k, ops))
    decreases |ops|
  {
    hide InvBut, Clean, Apply, Enabled, Honest;
    if ops != [] {
      StepInv(k, ops[0]);
      CleanStep(k, ops[0]);
      HonestFrom(Apply(k, ops[0]).k, ops[1..]);
    }
  }

  lemma BootClean()
    ensures Clean(Boot())
  {
    hide InvBut, Core, States, Awake, Pool, IsPool, Added;
    PoolFacts(PRIOS + 1);
    IdleAlone(Pool(PRIOS + 1), NewTask(PRIOS, false, false));
  }

  // In every run without such steps: a blocked wait that returns EOK has a token of its
  // semaphore, a blocked lock that returns EOK owns its mutex, which exists, a blocked event wait
  // does not return EOK, and the EOK of a wait for the end of a task is the one it was told.
  lemma EokIsEarned(ops: seq<Op>)
    requires HonestRun(Boot(), ops)
    requires var k := Final(Boot(), ops); Runnable(k.s, k.current) && Answers(k.s.tasks[k.current].call) && !k.s.tasks[k.current].aborted
    ensures var k := Final(Boot(), ops); var r := k.s.tasks[k.current];
            Continue(k).ret == Code(EOK) ==>
              && !EventCall(r.call) && (r.call.InExit? ==> r.token.NoToken?)
              && (r.call.InSem? ==> r.token.Granted?)
              && (r.call.InLock? ==> r.call.m in Continue(k).k.mtx && Continue(k).k.mtx[r.call.m].owner == Held(k.current))
  {
    hide InvBut, Boot, HonestRun, Final, Clean;
    BootInv();
    BootClean();
    HonestFrom(Boot(), ops);
    Earned(Final(Boot(), ops));
  }

  lemma Earned(k: K)
    requires Inv(k) && Clean(k) && Runnable(k.s, k.current) && Answers(k.s.tasks[k.current].call) && !k.s.tasks[k.current].aborted
    ensures var r := k.s.tasks[k.current];
            Continue(k).ret == Code(EOK) ==>
              && !EventCall(r.call) && (r.call.InExit? ==> r.token.NoToken?)
              && (r.call.InSem? ==> r.token.Granted?)
              && (r.call.InLock? ==> r.call.m in Continue(k).k.mtx && Continue(k).k.mtx[r.call.m].owner == Held(k.current))
  {
    hide InvBut, Continue, BitsOk, CallArgs;
    ReturnsResult(k);
    StateOf(k, k.current, k.sems, k.mtx);
  }

  // ---- in every run: what a blocked call returns ----

  ghost predicate HandedThere(k: K) { forall t | t in k.s.tasks && k.s.tasks[t].token.Handed? :: k.s.tasks[t].token.m in k.mtx }

  lemma HandedStep(k: K, op: Op)
    requires Inv(k) && HandedThere(k) && Enabled(k, op)
    ensures HandedThere(Apply(k, op).k)
  {
    hide InvBut, TokenStep, Begun, HandedThere, Enabled, Resume, MutexDestroy, Overwritten, EndedOtherwise, MutexLock, MutexTrylock, MutexUnlock,
         UnlockAllIn, TaskCreate, ChangePrio, Kill, SuspendTask, WaitFor, Sleep, Cleanup, CondStep, SemStep, EventStep, Continue, Switch, Advance, NewQueue;
    if op.OfMutex? && op.mop.DestroyMutex? {
      if op.mop.m in k.mtx { HandedDestroy(k, op.mop.m); } else { NoMutex(k, op.mop.m); }
    } else if op.OfTask? && op.top.Unpause? && Overwrites(k, op.top.t) {
      HandedResume(k, op.top.t);
    } else if op.OfSem? && op.sop.Give? {
      SignalHanded(k, op.sop.i);
    } else {
      if op.OfTask? && op.top.Unpause? && op.top.t in k.s.tasks { OverwrittenIs(k, op.top.t); }
      CurrentThere(k);
      StepTidy(k, op);
      TidyHandedThere(k, Apply(k, op).k);
    }
  }

  lemma SignalHanded(k: K, i: nat)
    requires HandedThere(k)
    ensures HandedThere(SemStep(k, Give(i)).k)
  {
    hide SemSignal;
    SignalTidy(k, i);
  }

  lemma TidyHandedThere(k: K, d: K)
    requires HandedThere(k) && TokenStep(k, d)
    ensures HandedThere(d)
  {
  }

  lemma HandedResume(k: K, t: Tid)
    requires Inv(k) && HandedThere(k) && Overwrites(k, t)
    ensures HandedThere(Resume(k, t).k)
  {
    hide InvBut, Resume;
    ResumeForges(k, t);
  }

  lemma HandedDestroy(k: K, m: nat)
    requires Inv(k) && HandedThere(k) && m in k.mtx
    ensures HandedThere(MutexDestroy(k, m).k)
  {
    hide InvBut, MutexDestroy, Emptied, CalcInherited, Remove;
    DestroyTells(k, m);
    DestroyKeys(k, m);
    var d := MutexDestroy(k, m).k;
    forall t | t in d.s.tasks && d.s.tasks[t].token.Handed? ensures d.s.tasks[t].token.m in d.mtx {
      if k.s.tasks[t].token == Handed(m) { HandedOwner(k, t, m); }
    }
  }

  lemma {:induction false} HandedFrom(k: K, ops: seq<Op>)
    requires Inv(k) && HandedThere(k) && Lawful(k, ops)
    ensures Inv(Final(k, ops)) && HandedThere(Final(k, ops))
    decreases |ops|
  {
    hide InvBut, HandedThere, Apply, Enabled;
    if ops != [] {
      StepInv(k, ops[0]);
      HandedStep(k, ops[0]);
      HandedFrom(Apply(k, ops[0]).k, ops[1..]);
    }
  }

  // In every run, a blocked lock that returns EOK owns its mutex exactly when it was handed it
  // and the mutex was not taken back, and otherwise the mutex does not exist.
  lemma LockReturns(ops: seq<Op>)
    requires Lawful(Boot(), ops)
    requires var k := Final(Boot(), ops); Runnable(k.s, k.current) && k.s.tasks[k.current].call.InLock? && !k.s.tasks[k.current].aborted
    ensures var k := Final(Boot(), ops); var o := Continue(k); var r := k.s.tasks[k.current];
            && (o.ret == Code(EOK) <==> !r.token.NoToken?)
            && (OwnerOf(o.k, r.call.m) == Held(k.current) <==> r.token.Handed?)
            && (r.token.Forged? || r.token.Lost? ==> r.call.m !in o.k.mtx)
  {
    hide InvBut, Boot, Lawful, Final, HandedThere;
    BootInv();
    BootClean();
    CleanHanded(Boot());
    HandedFrom(Boot(), ops);
    LockReturnsIn(Final(Boot(), ops));
  }

  lemma CleanHanded(k: K)
    requires Clean(k)
    ensures HandedThere(k)
  {
  }

  lemma LockReturnsIn(k: K)
    requires Inv(k) && HandedThere(k) && Runnable(k.s, k.current) && k.s.tasks[k.current].call.InLock? && !k.s.tasks[k.current].aborted
    ensures var o := Continue(k); var r := k.s.tasks[k.current];
            && (o.ret == Code(EOK) <==> !r.token.NoToken?)
            && (OwnerOf(o.k, r.call.m) == Held(k.current) <==> r.token.Handed?)
            && (r.token.Forged? || r.token.Lost? ==> r.call.m !in o.k.mtx)
  {
    hide InvBut, Continue, BitsOk, CallArgs;
    ReturnsResult(k);
    StateOf(k, k.current, k.sems, k.mtx);
  }

  // A blocked semaphore wait that was not cut short returns EOK exactly with a token, given or
  // forged, and its return changes no account.
  lemma SemReturns(ops: seq<Op>)
    requires Lawful(Boot(), ops)
    requires var k := Final(Boot(), ops); Runnable(k.s, k.current) && k.s.tasks[k.current].call.InSem? && !k.s.tasks[k.current].aborted
    ensures var k := Final(Boot(), ops); var r := k.s.tasks[k.current];
            && (Continue(k).ret == Code(EOK) <==> r.token.Granted? || r.token.Forged?) && Continue(k).k.sems == k.sems
  {
    hide InvBut, Boot, Lawful, Final, Continue, BitsOk, CallArgs;
    EveryRunIsSafe(ops);
    var k := Final(Boot(), ops);
    ReturnsResult(k);
    StateOf(k, k.current, k.sems, k.mtx);
  }

  // A blocked event wait that was not cut short returns bits that satisfy it, or a code; the
  // code is EOK exactly when it was forged.
  lemma EventReturns(ops: seq<Op>)
    requires Lawful(Boot(), ops)
    requires var k := Final(Boot(), ops); Runnable(k.s, k.current) && EventCall(k.s.tasks[k.current].call) && !k.s.tasks[k.current].aborted
    ensures var k := Final(Boot(), ops); var c := k.s.tasks[k.current].call; var ret := Continue(k).ret;
            && (ret.Mask? || ret.Code?)
            && (ret.Mask? ==> Fulfils(ret.b, c.bits, c.InSync? || c.all))
            && (ret == Code(EOK) <==> k.s.tasks[k.current].token.Forged?)
            && Continue(k).k.evts == k.evts
  {
    hide InvBut, Boot, Lawful, Final;
    EveryRunIsSafe(ops);
    EventReturnsIn(Final(Boot(), ops));
  }

  lemma EventReturnsIn(k: K)
    requires Inv(k) && Runnable(k.s, k.current) && EventCall(k.s.tasks[k.current].call) && !k.s.tasks[k.current].aborted
    ensures var c := k.s.tasks[k.current].call; var ret := Continue(k).ret;
            && (ret.Mask? || ret.Code?)
            && (ret.Mask? ==> Fulfils(ret.b, c.bits, c.InSync? || c.all))
            && (ret == Code(EOK) <==> k.s.tasks[k.current].token.Forged?)
            && Continue(k).k.evts == k.evts
  {
    hide InvBut, SemTake, MutexLock, WaitFor, EventTake, EventWait, CheckCond, CheckCond2, EvWord, Plain, Fulfils;
    var r := k.s.tasks[k.current];
    StateOf(k, k.current, k.sems, k.mtx);
    if r.obj.Bits? { CondIs(r.obj.b, r.call.bits, r.call.InSync? || r.call.all); StoredWord(r.obj.b, r.call.bits, r.call.InSync? || r.call.clear, r.call.InSync? || r.call.all); }
  }
}
