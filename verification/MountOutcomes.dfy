/** How the mount's operations end: who closes the lock, what a stop leaves, and what a cut roll-back breaks. */
module MountOutcomes {
  import opened Wrappers
  import opened Mount
  import opened MountSafety

  // ------------------------------------------------------------------ lock conservation

  predicate BusyIn(s: State, t: TaskId) { t in s.tasks && Busy(s.tasks[t].pc) }

  predicate SameLock(s: State, n: State, t: TaskId)
    requires t in s.tasks
  {
    t in n.tasks && n.lock == s.lock && n.tasks[t].tookLock == s.tasks[t].tookLock && n.tasks[t].job == s.tasks[t].job
  }

  lemma RollBackKeepsTheLock(s: State, t: TaskId, cause: Exc)
    requires t in s.tasks && BusyIn(RollBack(s, t, cause), t)
    ensures SameLock(s, RollBack(s, t, cause), t)
  {
    hide RolledBack;
  }

  lemma TeardownKeepsTheLock(s: State, t: TaskId, why: Why, w: World, from: nat)
    requires t in s.tasks && BusyIn(Teardown(s, t, why, w, from), t)
    ensures SameLock(s, Teardown(s, t, why, w, from), t)
  {
    hide RolledBack;
    hide Demoted;
    hide RollBack;
    if why == ToRebuild && StageFrom(s, from).None? && !w.factoryOk { RollBackKeepsTheLock(s, t, Failed); }
  }

  lemma TeardownFailedKeepsTheLock(s: State, t: TaskId, why: Why, exc: Exc)
    requires t in s.tasks && BusyIn(TeardownFailed(s, t, why, exc), t)
    ensures SameLock(s, TeardownFailed(s, t, why, exc), t)
  {
    hide RolledBack;
    hide Demoted;
    hide RollBack;
    if why == ToRebuild { RollBackKeepsTheLock(s.(teardownRaised := true), t, exc); }
  }

  lemma OwnStepKeepsTheLock(s: State, t: TaskId, o: Outcome, w: World)
    requires BusyIn(s, t) && BusyIn(Run(s, t, o, w), t)
    ensures SameLock(s, Run(s, t, o, w), t)
  {
    if s.tasks[t].pc.Tearing? {
      var stage, why := s.tasks[t].pc.stage, s.tasks[t].pc.why;
      assert Run(s, t, o, w) == TornOn(s, t, stage, why, o, w);
      hide Run;
      TearingStepKeepsTheLock(s, t, stage, why, o, w);
    } else {
      BringUpStepKeepsTheLock(s, t, o, w);
    }
  }

  lemma TearingStepKeepsTheLock(s: State, t: TaskId, stage: Stage, why: Why, o: Outcome, w: World)
    requires t in s.tasks && BusyIn(TornOn(s, t, stage, why, o, w), t)
    ensures SameLock(s, TornOn(s, t, stage, why, o, w), t)
  {
    hide TeardownFailed;
    hide RolledBack;
    match stage
    case Bridge => TeardownKeepsTheLock(s.(bridge := false), t, why, w, 1);
    case StoppingGateway(g) =>
      if o == Returns { TeardownKeepsTheLock(s.(gateway := None, pollers := s.pollers - {g}), t, why, w, 2); }
      else { TeardownFailedKeepsTheLock(s, t, why, Fault(o)); }
    case ClosingStack(k) =>
      if o == Returns { TeardownKeepsTheLock(Emptied(s, k).(stack := None), t, why, w, 2); }
      else { TeardownFailedKeepsTheLock(Emptied(s, k), t, why, Fault(o)); }
  }

  lemma BringUpStepKeepsTheLock(s: State, t: TaskId, o: Outcome, w: World)
    requires t in s.tasks && BringingUp(s.tasks[t].pc) && BusyIn(Run(s, t, o, w), t)
    ensures SameLock(s, Run(s, t, o, w), t)
  {
    if o != Returns {
      assert Run(s, t, o, w) == RollBack(s, t, Fault(o));
      RollBackKeepsTheLock(s, t, Fault(o));
      hide Run;
    } else if s.tasks[t].pc.EnteringHarness? {
      EnteredKeepsTheLock(s, t, w);
    } else {
      BroughtUpKeepsTheLock(s, t, w);
    }
  }

  lemma EnteredKeepsTheLock(s: State, t: TaskId, w: World)
    requires t in s.tasks && s.tasks[t].pc.EnteringHarness? && BusyIn(Run(s, t, Returns, w), t)
    ensures SameLock(s, Run(s, t, Returns, w), t)
  {
    hide RollBack;
    var entered := s.(harnesses := s.harnesses + {s.tasks[t].pc.id});
    if !w.buildOk { RollBackKeepsTheLock(entered, t, Failed); }
  }

  lemma BroughtUpKeepsTheLock(s: State, t: TaskId, w: World)
    requires t in s.tasks && s.tasks[t].pc.StartingGateway? && BusyIn(Run(s, t, Returns, w), t)
    ensures SameLock(s, Run(s, t, Returns, w), t)
  {
    hide RollBack;
    var up := s.(bridge := true);
    if s.tasks[t].job == Restart && !w.endpointOk { RollBackKeepsTheLock(up, t, Failed); }
  }

  /** While `t` works on the runtime, no interleaved step moves the lock. */
  lemma WorkKeepsTheLock(s: State, a: Action, t: TaskId)
    requires Inv(s) && Enabled(s, a) && BusyIn(s, t) && BusyIn(Next(s, a), t)
    ensures SameLock(s, Next(s, a), t)
  {
    assert TaskOk(s, t);
    if a.Resume? {
      assert TaskOk(s, a.task);
      if a.task != t { BystanderKeepsTheLock(s, a, t); }
      else { OwnStepKeepsTheLock(s, t, a.outcome, a.world); }
    }
  }

  lemma BystanderKeepsTheLock(s: State, a: Action, t: TaskId)
    requires Inv(s) && Enabled(s, a) && BusyIn(s, t) && a.Resume? && a.task != t
    ensures Next(s, a).lock == s.lock
    ensures BusyIn(Next(s, a), t) ==> Next(s, a).tasks[t] == s.tasks[t]
  {
    assert TaskOk(s, t) && TaskOk(s, a.task);
  }

  predicate BusyAlong(s: State, run: seq<Action>, t: TaskId)
    requires Valid(s, run)
    decreases |run|
  {
    BusyIn(s, t) && (run != [] ==> BusyAlong(Next(s, run[0]), run[1..], t))
  }

  lemma {:induction false} WorkAlongKeepsTheLock(s: State, run: seq<Action>, t: TaskId)
    requires Inv(s) && Valid(s, run) && BusyAlong(s, run, t) && !After(s, run).watchedCut
    ensures BusyIn(After(s, run), t)
    ensures After(s, run).lock == s.lock && After(s, run).tasks[t].tookLock == s.tasks[t].tookLock
    ensures After(s, run).tasks[t].job == s.tasks[t].job
    decreases |run|
  {
    if run != [] {
      var n := Next(s, run[0]);
      if n.watchedCut {
        CutStaysOnRuns(n, run[1..]);
      } else {
        StepKeepsInv(s, run[0]);
        assert BusyIn(n, t);
        WorkKeepsTheLock(s, run[0], t);
        WorkAlongKeepsTheLock(n, run[1..], t);
      }
    }
  }

  /** A task that enters a bring-up took the lock in that very step exactly when the mount held none. */
  lemma EnteringTakesTheLockOnce(s: State, t: TaskId, w: World)
    requires Inv(s) && t in s.tasks && s.tasks[t].job != Restart && !Busy(s.tasks[t].pc)
    requires Enabled(s, Resume(t, Returns, w)) && BusyIn(Run(s, t, Returns, w), t) && BringingUp(Run(s, t, Returns, w).tasks[t].pc)
    ensures var n := Run(s, t, Returns, w);
            n.tasks[t].tookLock == s.lock.None? && n.tasks[t].job == s.tasks[t].job
            && (s.lock.Some? ==> n.lock == s.lock) && (s.lock.None? ==> n.lock == w.got && w.got.Some?)
  {
    assert TaskOk(s, t);
    if s.tasks[t].pc.WantMutex? {
      if s.tasks[t].job == Stop { StopBringsNothingUp(s, t, w); } else { MutatorTakesTheLockOnce(s, t, w); }
    } else {
      PollTakesTheLockOnce(s, t, w);
    }
  }

  /** What `TryAcquire` does about the lock when it goes on to bring the runtime up. */
  lemma TryAcquireTakesTheLockOnce(s: State, t: TaskId, w: World)
    requires t in s.tasks && BusyIn(TryAcquire(s, t, w), t) && !Busy(s.tasks[t].pc)
    ensures var n := TryAcquire(s, t, w);
            n.tasks[t].tookLock == s.lock.None? && n.tasks[t].job == s.tasks[t].job
            && (s.lock.Some? ==> n.lock == s.lock) && (s.lock.None? ==> n.lock == w.got && w.got.Some?)
  {
    hide NotLive;
    hide LockRaised;
  }

  lemma MutatorTakesTheLockOnce(s: State, t: TaskId, w: World)
    requires t in s.tasks && s.tasks[t].pc == WantMutex && s.tasks[t].job in {Start, Acquire}
    requires BusyIn(Run(s, t, Returns, w), t)
    ensures var n := Run(s, t, Returns, w);
            n.tasks[t].tookLock == s.lock.None? && n.tasks[t].job == s.tasks[t].job
            && (s.lock.Some? ==> n.lock == s.lock) && (s.lock.None? ==> n.lock == w.got && w.got.Some?)
  {
    var m := s.(mutex := Some(t));
    if s.tasks[t].job == Start { TryAcquireTakesTheLockOnce(m.(phase := Starting), t, w); }
    else { TryAcquireTakesTheLockOnce(m, t, w); }
  }

  lemma PollTakesTheLockOnce(s: State, t: TaskId, w: World)
    requires t in s.tasks && s.tasks[t].pc == Sleeping
    requires BusyIn(Run(s, t, Returns, w), t) && BringingUp(Run(s, t, Returns, w).tasks[t].pc)
    ensures var n := Run(s, t, Returns, w);
            n.tasks[t].tookLock == s.lock.None? && n.tasks[t].job == s.tasks[t].job
            && (s.lock.Some? ==> n.lock == s.lock) && (s.lock.None? ==> n.lock == w.got && w.got.Some?)
  {
    if !(s.phase == Live && s.lock.Some? && !w.owned) { TryAcquireTakesTheLockOnce(s, t, w); }
  }

  lemma StopBringsNothingUp(s: State, t: TaskId, w: World)
    requires Inv(s) && t in s.tasks && s.tasks[t].job == Stop && !Busy(s.tasks[t].pc) && Enabled(s, Resume(t, Returns, w))
    ensures BusyIn(Run(s, t, Returns, w), t) ==> !BringingUp(Run(s, t, Returns, w).tasks[t].pc)
  {
    assert TaskOk(s, t);
  }

  /** The step that ends a roll-back, unless it cuts it, closes the lock its own call took, and no other. */
  lemma RollBackEnds(s: State, t: TaskId, o: Outcome, w: World)
    requires Inv(s) && Enabled(s, Resume(t, o, w)) && RollingBack(s.tasks[t].pc)
    requires !CutsRollBack(s, Resume(t, o, w)) && !BusyIn(Run(s, t, o, w), t)
    ensures var n := Run(s, t, o, w); var task := s.tasks[t];
            && n.gateway.None? && n.stack.None? && !n.bridge
            && n.lock == (if task.job != Restart && task.tookLock then None else s.lock)
            && (task.job == Restart ==> n.phase == Standby && n.lock.Some? && n.mutex.None?)
            && (task.job == Start ==> n.phase == Stopped)
  {
    hide Run;
    hide RolledBack;
    EndOfRollBack(s, t, o, w);
    RolledBackIs(Unwound(s, t, o), t, s.tasks[t].pc.why.cause);
    WhileRollingBack(s, t);
    hide Inv;
  }

  /** The mount once the call a roll-back waits for is over. */
  function Unwound(s: State, t: TaskId, o: Outcome): State
    requires t in s.tasks && RollingBack(s.tasks[t].pc)
  {
    match s.tasks[t].pc.stage
    case Bridge => s.(bridge := false)
    case StoppingGateway(g) => if o == Returns then s.(gateway := None, pollers := s.pollers - {g}) else s.(teardownRaised := true)
    case ClosingStack(k) =>
      if o == Returns then Emptied(s, k).(stack := None) else Emptied(s, k).(teardownRaised := true)
  }

  lemma EndOfRollBack(s: State, t: TaskId, o: Outcome, w: World)
    requires Enabled(s, Resume(t, o, w)) && RollingBack(s.tasks[t].pc)
    requires !CutsRollBack(s, Resume(t, o, w)) && !BusyIn(Run(s, t, o, w), t)
    ensures Run(s, t, o, w) == RolledBack(Unwound(s, t, o), t, s.tasks[t].pc.why.cause)
  {
    hide RolledBack;
    hide CutRollBack;
    hide Follows;
    match s.tasks[t].pc.stage
    case Bridge =>
    case StoppingGateway(g) =>
    case ClosingStack(k) =>
  }

  lemma WhileRollingBack(s: State, t: TaskId)
    requires Inv(s) && t in s.tasks && RollingBack(s.tasks[t].pc)
    ensures s.tasks[t].job == Restart ==> s.lock.Some? && s.mutex == Some(t)
    ensures s.tasks[t].pc.stage != Bridge ==> !s.bridge
  {
    BusyIsMid(s, t);
  }

  lemma RolledBackIs(s: State, t: TaskId, cause: Exc)
    requires t in s.tasks
    ensures var n := RolledBack(s, t, cause); var task := s.tasks[t];
            && n.gateway.None? && n.stack.None? && n.bridge == s.bridge
            && n.lock == (if task.job != Restart && task.tookLock then None else s.lock)
            && (task.job == Restart ==> n.phase == Standby && (s.mutex == Some(t) ==> n.mutex.None?))
            && (task.job == Start ==> n.phase == Stopped)
  {
    hide RolledBack;
    match s.tasks[t].job
    case Restart => RestartRolledBackIs(s, t, cause);
    case Start => StartRolledBackIs(s, t, cause);
    case _ => OtherRolledBackIs(s, t, cause);
  }

  lemma RestartRolledBackIs(s: State, t: TaskId, cause: Exc)
    requires t in s.tasks && s.tasks[t].job == Restart
    ensures var n := RolledBack(s, t, cause);
            && n.gateway.None? && n.stack.None? && n.bridge == s.bridge && n.lock == s.lock
            && n.phase == Standby && (s.mutex == Some(t) ==> n.mutex.None?)
  {
  }

  lemma StartRolledBackIs(s: State, t: TaskId, cause: Exc)
    requires t in s.tasks && s.tasks[t].job == Start
    ensures var n := RolledBack(s, t, cause);
            && n.gateway.None? && n.stack.None? && n.bridge == s.bridge && n.phase == Stopped
            && n.lock == if s.tasks[t].tookLock then None else s.lock
  {
  }

  lemma OtherRolledBackIs(s: State, t: TaskId, cause: Exc)
    requires t in s.tasks && s.tasks[t].job !in {Start, Restart}
    ensures var n := RolledBack(s, t, cause);
            && n.gateway.None? && n.stack.None? && n.bridge == s.bridge
            && n.lock == if s.tasks[t].tookLock then None else s.lock
  {
  }

  /** A roll-back that is cut leaves the stack and the lock as they are. */
  lemma CutLeavesTheRest(s: State, t: TaskId, w: World)
    requires Inv(s) && t in s.tasks && RollingBack(s.tasks[t].pc) && Enabled(s, Resume(t, IsCancelled, w))
    ensures var n := Run(s, t, IsCancelled, w);
            n.lock == s.lock && n.lock.Some? && n.stack == s.stack && n.stack.Some? && t !in n.tasks
  {
    assert TaskOk(s, t);
  }

  /**
   A failed start or promotion gives the lock back exactly as it found it and leaves nothing recorded,
   whatever tasks are interleaved between the step that enters the bring-up and the one that ends its
   roll-back, if and only if that roll-back was not cut by a cancellation.
  */
  lemma FailedPromotionRestoresTheLockIff(s: State, t: TaskId, w: World, run: seq<Action>, o: Outcome, w': World)
    requires Inv(s) && t in s.tasks && s.tasks[t].job != Restart && !Busy(s.tasks[t].pc)
    requires Enabled(s, Resume(t, Returns, w))
    requires var n := Run(s, t, Returns, w);
             BusyIn(n, t) && BringingUp(n.tasks[t].pc) && Valid(n, run) && BusyAlong(n, run, t) && !After(n, run).watchedCut
    requires var e := After(Run(s, t, Returns, w), run);
             t in e.tasks && Enabled(e, Resume(t, o, w')) && RollingBack(e.tasks[t].pc) && !BusyIn(Run(e, t, o, w'), t)
    ensures var e := After(Run(s, t, Returns, w), run);
            var f := Run(e, t, o, w');
            (f.lock == s.lock && f.gateway.None? && f.stack.None?) <==> !CutsRollBack(e, Resume(t, o, w'))
  {
    var n := Run(s, t, Returns, w);
    var e := After(n, run);
    EnteringTakesTheLockOnce(s, t, w);
    if n.watchedCut { CutStaysOnRuns(n, run); }
    StepKeepsInv(s, Resume(t, Returns, w));
    WorkAlongKeepsTheLock(n, run, t);
    RunKeepsInv(n, run);
    if CutsRollBack(e, Resume(t, o, w')) { CutLeavesTheRest(e, t, w'); } else { RollBackEnds(e, t, o, w'); }
  }

  /** A failed restart keeps its lock; it ends in standby with nothing recorded if and only if its roll-back was not cut. */
  lemma FailedRestartKeepsTheLock(s: State, t: TaskId, run: seq<Action>, o: Outcome, w: World)
    requires Inv(s) && BusyIn(s, t) && s.tasks[t].job == Restart && Valid(s, run) && BusyAlong(s, run, t) && !After(s, run).watchedCut
    requires var e := After(s, run);
             t in e.tasks && Enabled(e, Resume(t, o, w)) && RollingBack(e.tasks[t].pc) && !BusyIn(Run(e, t, o, w), t)
    ensures var e := After(s, run);
            var f := Run(e, t, o, w);
            && f.lock == s.lock && f.lock.Some? && f.mutex.None?
            && ((f.phase == Standby && f.gateway.None? && f.stack.None?) <==> !CutsRollBack(e, Resume(t, o, w)))
  {
    var e := After(s, run);
    WorkAlongKeepsTheLock(s, run, t);
    RunKeepsInv(s, run);
    BusyIsMid(e, t);
    if CutsRollBack(e, Resume(t, o, w)) { CutLeavesTheRest(e, t, w); } else { RollBackEnds(e, t, o, w); }
  }

  /** From there `acquire` rebuilds: four steps that succeed make the mount live under the same lock. */
  lemma AcquireRebuilds(s: State, w: World)
    requires Inv(s) && s.phase == Standby && s.lock.Some? && s.gateway.None? && s.stack.None? && s.mutex.None?
    requires w.factoryOk && w.buildOk
    ensures var go := Resume(s.nextId, Returns, w);
            var run := [Call(Acquire), go, go, go];
            Valid(s, run) && After(s, run).phase == Live && After(s, run).lock == s.lock
            && After(s, run).gateway == Some(s.nextId + 1) && After(s, run).stack == Some(s.nextId + 1)
  {
    hide Inv;
    hide Run;
    var t := s.nextId;
    var go := Resume(t, Returns, w);
    var s1 := Next(s, Call(Acquire));
    assert s1.tasks[t] == Task(Acquire, WantMutex, false) && s1.nextId == t + 1;
    RebuildSteps(s1, t, w);
    assert [Call(Acquire), go, go, go][1..] == [go, go, go];
  }

  lemma RebuildSteps(s: State, t: TaskId, w: World)
    requires t in s.tasks && s.tasks[t].job == Acquire && s.tasks[t].pc == WantMutex
    requires s.phase == Standby && s.lock.Some? && s.gateway.None? && s.stack.None? && s.mutex.None?
    requires w.factoryOk && w.buildOk
    ensures var go := Resume(t, Returns, w);
            Valid(s, [go, go, go]) && var e := After(s, [go, go, go]);
            e.phase == Live && e.lock == s.lock && e.gateway == Some(s.nextId) && e.stack == Some(s.nextId)
  {
    var go := Resume(t, Returns, w);
    var id := s.nextId;
    var s1 := Next(s, go);
    assert s1.tasks[t] == Task(Acquire, EnteringHarness(id), false) && s1.stack == Some(id) && s1.lock == s.lock;
    var s2 := Next(s1, go);
    assert s2.tasks[t] == Task(Acquire, StartingGateway(id), false) && s2.gateway == Some(id) && s2.stack == Some(id);
    var s3 := Next(s2, go);
    assert s3.phase == Live && s3.lock == s.lock;
    hide Next;
    TwoSteps(s1, go, go);
    OneMoreStep(s, go, [go, go]);
    assert [go] + [go, go] == [go, go, go];
  }

  lemma OneMoreStep(s: State, a: Action, run: seq<Action>)
    requires Enabled(s, a) && Valid(Next(s, a), run)
    ensures Valid(s, [a] + run) && After(s, [a] + run) == After(Next(s, a), run)
  {
    assert ([a] + run)[1..] == run;
  }

  // ------------------------------------------------------------------ stop

  /** Stopped for good: nothing recorded, no lock, no watchdog, no start in flight. */
  ghost predicate Quiet(s: State) {
    && s.phase == Stopped && s.gateway.None? && s.stack.None? && s.lock.None? && !s.bridge
    && (forall t :: t in s.tasks ==> s.tasks[t].pc == WantMutex && s.tasks[t].job != Watchdog)
  }

  /** A stopped mount is quiet unless a start's roll-back was cut and nothing was torn down since. */
  lemma StoppedIsQuietIff(s: State)
    requires Inv(s) && s.phase == Stopped
    ensures (Quiet(s) <==> !s.startCut) && (s.startCut <==> s.lock.Some?) && s.mutex.None?
    ensures Quiet(s) && !s.teardownRaised ==> s.harnesses == {} && s.pollers == {}
  {
    forall t | t in s.tasks ensures s.tasks[t].pc == WantMutex && s.tasks[t].job != Watchdog { assert TaskOk(s, t); }
  }

  /**
   A `stop` that returns leaves a quiet mount if and only if it did not find the mount "stopped" with its
   lock still held, which is to say: unless a start's roll-back was cut since the last teardown.
  */
  lemma StopLeavesQuietIff(s: State, t: TaskId, w: World)
    requires Inv(s) && t in s.tasks && s.tasks[t].job == Stop && Enabled(s, Resume(t, Returns, w))
    requires t !in Run(s, t, Returns, w).tasks
    ensures Inv(Run(s, t, Returns, w))
    ensures Quiet(Run(s, t, Returns, w)) <==> !(s.phase == Stopped && s.lock.Some?)
    ensures s.phase == Stopped ==> (s.lock.Some? <==> s.startCut)
  {
    StopEndsStopped(s, t, w);
    if s.phase == Stopped { StoppedIsQuietIff(s); }
    hide Run;
    hide Inv;
    StepKeepsInv(s, Resume(t, Returns, w));
    StoppedIsQuietIff(Run(s, t, Returns, w));
  }

  lemma StopEndsStopped(s: State, t: TaskId, w: World)
    requires Inv(s) && t in s.tasks && s.tasks[t].job == Stop && t !in Run(s, t, Returns, w).tasks
    ensures var n := Run(s, t, Returns, w);
            n.phase == Stopped && (n.startCut <==> s.phase == Stopped && s.startCut)
  {
    assert TaskOk(s, t);
  }

  /** A `stop` finishes tearing the mount down. */
  predicate TearsDown(s: State, a: Action)
    requires Enabled(s, a)
  {
    a.Resume? && s.tasks[a.task].job == Stop && s.phase != Stopped && Next(s, a).phase == Stopped
  }

  /** What is recorded of a cut start: it is set by the cut and cleared by the next teardown that finishes. */
  lemma StartCutIs(s: State, a: Action)
    requires Inv(s) && Enabled(s, a)
    ensures Next(s, a).startCut <==> (CutsRollBack(s, a) && s.tasks[a.task].job == Start) || (s.startCut && !TearsDown(s, a))
  {
    if a.Resume? {
      assert TaskOk(s, a.task);
      if s.tasks[a.task].job == Stop { StopAndTheCut(s, a.task, a.outcome, a.world); }
      else { OthersAndTheCut(s, a.task, a.outcome, a.world); }
    }
    hide Run;
    hide Inv;
  }

  lemma StopAndTheCut(s: State, t: TaskId, o: Outcome, w: World)
    requires t in s.tasks && TaskOk(s, t) && s.tasks[t].job == Stop && Enabled(s, Resume(t, o, w))
    ensures !RollingBack(s.tasks[t].pc)
    ensures Run(s, t, o, w).startCut <==> s.startCut && !(s.phase != Stopped && Run(s, t, o, w).phase == Stopped)
  {
  }

  lemma OthersAndTheCut(s: State, t: TaskId, o: Outcome, w: World)
    requires t in s.tasks && TaskOk(s, t) && s.tasks[t].job != Stop && Enabled(s, Resume(t, o, w))
    ensures Run(s, t, o, w).startCut <==> s.startCut || (o == IsCancelled && RollingBack(s.tasks[t].pc) && s.tasks[t].job == Start)
  {
    if s.tasks[t].pc.Tearing? {
      var stage, why := s.tasks[t].pc.stage, s.tasks[t].pc.why;
      assert Run(s, t, o, w) == TornOn(s, t, stage, why, o, w);
      hide Run;
      TearingAndTheCut(s, t, stage, why, o, w);
    }
    hide Teardown;
    hide RollBack;
    hide BringUp;
    hide TornOn;
  }

  lemma TearingAndTheCut(s: State, t: TaskId, stage: Stage, why: Why, o: Outcome, w: World)
    requires t in s.tasks && why != ToStop && (o == IsCancelled ==> stage.ClosingStack?)
    ensures TornOn(s, t, stage, why, o, w).startCut <==> s.startCut || (o == IsCancelled && why.ToRollBack? && s.tasks[t].job == Start)
  {
    hide RolledBack;
    hide RollBack;
    hide Demoted;
    hide BringUp;
    hide Follows;
  }

  /**
   The smallest such run: a start enters its harness, fails to build its gateway, and is cancelled while its roll-back
   closes the stack. The mount is "stopped", the next `stop` returns at once, and the flock and the exit stack stay.
  */
  lemma CutStartKeepsTheLock(w: World)
    requires w.factoryOk && w.lockOk && w.got.Some?
    ensures var v := w.(buildOk := false);
            var run := [Call(Start), Resume(0, Returns, w), Resume(0, Returns, v), Resume(0, IsCancelled, w), Call(Stop), Resume(2, Returns, w)];
            Valid(Init, run) && var e := After(Init, run);
            e.phase == Stopped && e.lock == w.got && e.stack == Some(1) && e.tasks == map[] && !Quiet(e)
  {
    var a, b, c, d, f, g := Call(Start), Resume(0, Returns, w), Resume(0, Returns, w.(buildOk := false)), Resume(0, IsCancelled, w), Call(Stop), Resume(2, Returns, w);
    var s1 := Next(Init, a);
    var s2 := Next(s1, b);
    assert s2.tasks == map[0 := Task(Start, EnteringHarness(1), true)] && s2.stack == Some(1) && s2.lock == w.got;
    var s3 := Next(s2, c);
    assert s3.tasks == map[0 := Task(Start, Tearing(ClosingStack(1), ToRollBack(Failed)), true)] && s3.harnesses == {1};
    CutThenStop(s3, w);
    hide Next;
    OneMoreStep(s2, c, [d, f, g]);
    OneMoreStep(s1, b, [c] + [d, f, g]);
    OneMoreStep(Init, a, [b] + ([c] + [d, f, g]));
    assert [a] + ([b] + ([c] + [d, f, g])) == [a, b, c, d, f, g];
  }

  lemma CutThenStop(s: State, w: World)
    requires s.tasks == map[0 := Task(Start, Tearing(ClosingStack(1), ToRollBack(Failed)), true)]
    requires s.stack == Some(1) && s.nextId == 2 && s.mutex == Some(0) && 1 in s.harnesses
    ensures var run := [Resume(0, IsCancelled, w), Call(Stop), Resume(2, Returns, w)];
            Valid(s, run) && var e := After(s, run);
            e.phase == Stopped && e.lock == s.lock && e.stack == Some(1) && e.tasks == map[]
  {
    var d, f, g := Resume(0, IsCancelled, w), Call(Stop), Resume(2, Returns, w);
    var s4 := Next(s, d);
    assert s4.tasks == map[] && s4.phase == Stopped;
    var s6 := Next(Next(s4, f), g);
    assert s6.tasks == map[];
    hide Next;
    TwoSteps(s4, f, g);
    OneMoreStep(s, d, [f, g]);
    assert [d] + [f, g] == [d, f, g];
  }

  predicate NoStart(s: State, run: seq<Action>) {
    Call(Start) !in run && forall t :: t in s.tasks ==> s.tasks[t].job != Start
  }

  /** A task that finds nothing for it to do in this phase: it ends, or sleeps on. */
  lemma DoesNothing(s: State, t: TaskId, o: Outcome, w: World)
    requires s.phase in {Stopped, Starting} && s.mutex.None? && Enabled(s, Resume(t, o, w))
    requires if s.tasks[t].job == Watchdog then s.tasks[t].pc == Sleeping
             else s.tasks[t].pc == WantMutex && s.tasks[t].job != Start && (s.tasks[t].job == Stop ==> s.phase == Stopped)
    ensures Run(s, t, o, w) == s || Run(s, t, o, w) == End(s, t)
  {
    hide TryAcquire;
    hide Teardown;
  }

  lemma QuietStep(s: State, a: Action)
    requires Quiet(s) && s.mutex.None? && Enabled(s, a) && a != Call(Start) && NoStart(s, [])
    ensures var n := Next(s, a); Quiet(n) && n.mutex.None? && NoStart(n, []) && n.pollers == s.pollers && n.harnesses == s.harnesses
  {
    if a.Resume? { DoesNothing(s, a.task, a.outcome, a.world); }
    hide Run;
  }

  /** No queued request, restart, acquire or watchdog step revives a quiet mount: that takes a new `start`. */
  lemma {:induction false} QuietStaysQuiet(s: State, run: seq<Action>)
    requires Quiet(s) && s.mutex.None? && Valid(s, run) && NoStart(s, run)
    ensures Quiet(After(s, run)) && After(s, run).pollers == s.pollers && After(s, run).harnesses == s.harnesses
    decreases |run|
  {
    if run != [] {
      QuietStep(s, run[0]);
      QuietStaysQuiet(Next(s, run[0]), run[1..]);
    }
  }

  // ------------------------------------------------------------------ "starting" left behind

  /**
   A `start` that got the mutex leaves the mount "starting" when it ends if and only if it found it neither live nor
   standby and its workspace factory raised, which is outside the `try` that would have said "stopped".
  */
  lemma StartLeavesStartingIff(s: State, t: TaskId, o: Outcome, w: World)
    requires Inv(s) && t in s.tasks && s.tasks[t].job == Start && Enabled(s, Resume(t, o, w))
    requires t !in Run(s, t, o, w).tasks && (s.tasks[t].pc == WantMutex ==> o == Returns)
    ensures Run(s, t, o, w).phase == Starting <==> s.tasks[t].pc == WantMutex && s.phase !in {Live, Standby} && !w.factoryOk
  {
    assert TaskOk(s, t);
  }

  /** "starting", with no call in progress that could end it. */
  ghost predicate Stranded(s: State) {
    && s.phase == Starting && s.mutex.None?
    && forall t :: t in s.tasks ==> if s.tasks[t].job == Watchdog then s.tasks[t].pc == Sleeping
                                    else s.tasks[t].pc == WantMutex && s.tasks[t].job in {Acquire, Restart}
  }

  /** The shortest way there. */
  lemma FactoryRaises(w: World)
    requires !w.factoryOk
    ensures var run := [Call(Start), Resume(0, Returns, w)];
            Valid(Init, run) && After(Init, run).tasks == map[] && Stranded(After(Init, run))
  {
    var a, b := Call(Start), Resume(0, Returns, w);
    assert Next(Next(Init, a), b).tasks == map[];
    TwoSteps(Init, a, b);
  }

  lemma StrandedStep(s: State, a: Action)
    requires Stranded(s) && Enabled(s, a) && a != Call(Start) && a != Call(Stop)
    ensures var n := Next(s, a); Stranded(n) && n.gateway == s.gateway && n.stack == s.stack && n.lock == s.lock
  {
    if a.Resume? { DoesNothing(s, a.task, a.outcome, a.world); }
    hide Run;
  }

  /** `acquire`, restarts and the watchdog do nothing there, however often they are tried: it takes a `start` or a `stop`. */
  lemma {:induction false} StrandedStays(s: State, run: seq<Action>)
    requires Stranded(s) && Valid(s, run) && Call(Start) !in run && Call(Stop) !in run
    ensures var n := After(s, run); Stranded(n) && n.gateway == s.gateway && n.stack == s.stack && n.lock == s.lock
    decreases |run|
  {
    if run != [] {
      StrandedStep(s, run[0]);
      StrandedStays(Next(s, run[0]), run[1..]);
    }
  }

  /** A `start` does there what it would do to a stopped mount. */
  lemma StartLeadsOut(s: State, t: TaskId, w: World)
    requires t in s.tasks && s.tasks[t] == Task(Start, WantMutex, false) && s.phase == Starting
    ensures Run(s, t, Returns, w) == Run(s.(phase := Stopped), t, Returns, w)
  {
    assert s.(mutex := Some(t)).(phase := Starting) == s.(phase := Stopped).(mutex := Some(t)).(phase := Starting);
  }

  /** And a `stop`, when nothing is recorded, ends in two steps and leaves the mount quiet. */
  lemma StopLeadsOut(s: State, w: World)
    requires Inv(s) && Stranded(s) && s.watchdog.None? && s.gateway.None? && s.stack.None? && !s.bridge
    ensures var run := [Call(Stop), Resume(s.nextId, Returns, w)];
            Valid(s, run) && Quiet(After(s, run)) && After(s, run).tasks == s.tasks
  {
    var a, b := Call(Stop), Resume(s.nextId, Returns, w);
    var n := Next(s, a);
    StepKeepsInv(s, a);
    forall t | t in s.tasks ensures s.tasks[t].job != Watchdog && t != s.nextId { assert TaskOk(s, t); }
    var e := Next(n, b);
    assert e.tasks == s.tasks;
    StopLeavesQuietIff(n, s.nextId, w);
    hide Next;
    TwoSteps(s, a, b);
  }

  // ------------------------------------------------------------------ where the safety argument ends

  /**
   A restart whose roll-back is cut while its watchdog lives leaves the state "restarting" and the stack
   recorded; the next `start` then installs a second watchdog beside the first.
  */
  lemma CutRestartBreeds2Watchdogs(s: State, t: TaskId, w: World)
    requires Inv(s) && Enabled(s, Resume(t, IsCancelled, w)) && CutsWatchedRestart(s, Resume(t, IsCancelled, w))
    requires w.factoryOk
    ensures var run := [Resume(t, IsCancelled, w), Call(Start), Resume(s.nextId, Returns, w)];
            Valid(s, run) && var e := After(s, run);
            s.watchdog.value in e.tasks && e.tasks[s.watchdog.value].job == Watchdog
            && s.nextId + 1 in e.tasks && e.tasks[s.nextId + 1].job == Watchdog && s.nextId + 1 != s.watchdog.value
  {
    hide Run;
    hide Inv;
    var a := Resume(t, IsCancelled, w);
    WhileRestartRollsBack(s, t);
    CutLeavesRestarting(s, t, w);
    StartBreedsAWatchdog(Next(s, a), w, s.watchdog.value);
    var run := [a, Call(Start), Resume(s.nextId, Returns, w)];
    assert run[1..] == [Call(Start), Resume(s.nextId, Returns, w)];
  }

  /**
   The other half of the safety theorem: from every reachable state in which a restart's roll-back is cut
   while its watchdog lives, an unsafe state can be reached. So this cut, and no other, ends the safety.
  */
  lemma WatchedCutIsUnsafe(run: seq<Action>, a: Action)
    requires Valid(Init, run) && !After(Init, run).watchedCut
    requires Enabled(After(Init, run), a) && CutsWatchedRestart(After(Init, run), a)
    ensures exists more :: Valid(Next(After(Init, run), a), more) && !Safe(After(Next(After(Init, run), a), more))
  {
    RunKeepsInv(Init, run);
    var s := After(Init, run);
    var w := World(true, true, None, true, true, true, true);
    var cut := Resume(a.task, IsCancelled, w);
    assert Next(s, a) == Next(s, cut);
    CutRestartBreeds2Watchdogs(s, a.task, w);
    var more := [Call(Start), Resume(s.nextId, Returns, w)];
    assert [cut, Call(Start), Resume(s.nextId, Returns, w)][1..] == more;
    var e := After(Next(s, a), more);
    assert e.watchdog != Some(s.nextId + 1) || e.watchdog != Some(s.watchdog.value);
  }

  lemma WhileRestartRollsBack(s: State, t: TaskId)
    requires Inv(s) && t in s.tasks && s.tasks[t].job == Restart && RollingBack(s.tasks[t].pc)
    requires s.watchdog.Some? && s.watchdog.value in s.tasks
    ensures s.phase == Restarting && s.mutex == Some(t) && s.stack.Some?
    ensures s.watchdog.value < s.nextId && s.tasks[s.watchdog.value].job == Watchdog && s.watchdog.value != t
  {
    assert TaskOk(s, t) && TaskOk(s, s.watchdog.value);
  }

  lemma CutLeavesRestarting(s: State, t: TaskId, w: World)
    requires t in s.tasks && s.tasks[t].job == Restart && RollingBack(s.tasks[t].pc) && s.tasks[t].pc.stage.ClosingStack?
    ensures var r := Run(s, t, IsCancelled, w);
            && r.phase == s.phase && r.stack == s.stack && r.nextId == s.nextId && r.watchdog == s.watchdog
            && r.mutex == (if s.mutex == Some(t) then None else s.mutex)
            && r.tasks == map u | u in s.tasks && u != t :: s.tasks[u]
  {
  }

  lemma SpawnsAWatchdog(s: State, t: TaskId, w: World)
    requires t in s.tasks && s.tasks[t] == Task(Start, WantMutex, false) && s.phase == Restarting && s.stack.Some? && w.factoryOk
    ensures var n := Run(s, t, Returns, w);
            && (forall v :: v in s.tasks && v != t && v != s.nextId ==> v in n.tasks && n.tasks[v] == s.tasks[v])
            && (t < s.nextId ==> s.nextId in n.tasks && n.tasks[s.nextId].job == Watchdog)
  {
    var m := s.(mutex := Some(t)).(phase := Starting);
    assert Run(s, t, Returns, w) == NotLive(m, t);
    hide Run;
  }

  lemma StartBreedsAWatchdog(s: State, w: World, v: TaskId)
    requires s.phase == Restarting && s.mutex.None? && s.stack.Some? && w.factoryOk
    requires v in s.tasks && v < s.nextId && s.tasks[v].job == Watchdog
    ensures var run := [Call(Start), Resume(s.nextId, Returns, w)];
            Valid(s, run) && var e := After(s, run);
            v in e.tasks && e.tasks[v].job == Watchdog && s.nextId + 1 in e.tasks && e.tasks[s.nextId + 1].job == Watchdog
  {
    hide Run;
    hide Valid;
    hide After;
    var b, c := Call(Start), Resume(s.nextId, Returns, w);
    SpawnsAWatchdog(Next(s, b), s.nextId, w);
    TwoSteps(s, b, c);
  }

  lemma TwoSteps(s: State, a: Action, b: Action)
    requires Enabled(s, a) && Enabled(Next(s, a), b)
    ensures Valid(s, [a, b]) && After(s, [a, b]) == Next(Next(s, a), b)
  {
    hide Next;
    hide Enabled;
    assert [a, b][1..] == [b] && [b][1..] == [];
    assert Valid(Next(Next(s, a), b), []) && Valid(Next(s, a), [b]);
    assert After(Next(s, a), [b]) == Next(Next(s, a), b);
  }
}
