/** What every interleaving of the mount's tasks keeps, and where it stops being kept. */
module MountSafety {
  import opened Wrappers
  import opened Mount

  predicate Busy(pc: Pc) { pc.Tearing? || pc.EnteringHarness? || pc.StartingGateway? }

  predicate RollingBack(pc: Pc) { pc.Tearing? && pc.why.ToRollBack? }

  predicate BringingUp(pc: Pc) { pc.EnteringHarness? || pc.StartingGateway? }

  /** The runtime a busy task works on is the recorded one, and the bridge is armed at its own await only. */
  predicate Recorded(s: State, pc: Pc) {
    match pc
    case EnteringHarness(id) => s.stack == Some(id) && s.gateway.None? && !s.bridge
    case StartingGateway(id) => s.stack == Some(id) && s.gateway == Some(id) && !s.bridge
    case Tearing(Bridge, _) => s.bridge && s.gateway.Some?
    case Tearing(StoppingGateway(g), _) => s.gateway == Some(g) && !s.bridge
    case Tearing(ClosingStack(k), _) => s.stack == Some(k) && s.gateway.None? && !s.bridge
    case _ => true
  }

  predicate WatchdogOk(s: State, t: TaskId, pc: Pc) {
    && s.watchdog == Some(t) && s.phase in {Live, Standby, Restarting}
    && (pc == Sleeping || (s.phase == Standby && (BringingUp(pc) || RollingBack(pc) || Teardowns(pc, ToDemote))))
  }

  predicate Teardowns(pc: Pc, why: Why) { pc.Tearing? && pc.why == why }

  /** What a mutator inside the mutex says about the mount's phase. */
  predicate MutatorOk(s: State, task: Task) {
    var pc := task.pc;
    match task.job
    case Start => s.phase == Starting && task.tookLock && (BringingUp(pc) || RollingBack(pc))
    case Acquire => s.phase == Standby && (BringingUp(pc) || RollingBack(pc))
    case Restart => s.phase == Restarting && (BringingUp(pc) || RollingBack(pc) || Teardowns(pc, ToRebuild))
    case Stop => s.phase != Stopped && (pc == AwaitWatchdog || (Teardowns(pc, ToStop) && s.watchdog.None?))
    case Watchdog => false
  }

  predicate JobOk(s: State, t: TaskId)
    requires t in s.tasks
  {
    var task := s.tasks[t];
    if task.job == Watchdog then WatchdogOk(s, t, task.pc)
    else task.pc == WantMutex || (s.mutex == Some(t) && MutatorOk(s, task))
  }

  predicate TaskOk(s: State, t: TaskId)
    requires t in s.tasks
  {
    && t < s.nextId
    && JobOk(s, t)
    && Recorded(s, s.tasks[t].pc)
    && (Busy(s.tasks[t].pc) ==> s.stack.Some? && (s.startCut ==> s.tasks[t].job == Stop))
  }

  predicate FieldsOk(s: State) {
    && (s.gateway.Some? ==> s.stack == s.gateway)
    && (s.bridge ==> s.gateway.Some?)
    && (s.stack.Some? ==> s.lock.Some?)
    && (s.phase == Live ==> s.lock.Some?)
    && (s.stack.Some? ==> s.stack.value < s.nextId)
  }

  /** Who may hold the mutex, and what an idle mount in each phase looks like. */
  predicate PhaseOk(s: State) {
    && (s.mutex.Some? ==> s.mutex.value in s.tasks && s.tasks[s.mutex.value].pc !in {WantMutex, Sleeping}
                          && s.tasks[s.mutex.value].job != Watchdog)
    && (s.watchdog.Some? ==> s.watchdog.value < s.nextId
                             && (s.watchdog.value in s.tasks ==> s.tasks[s.watchdog.value].job == Watchdog))
    && (s.phase == Restarting ==> (s.mutex.Some? && s.tasks[s.mutex.value].job == Restart) || Abandoned(s))
    && (s.phase == Stopped ==> s.gateway.None? && (!s.startCut ==> s.lock.None? && s.stack.None?))
    && (s.phase == Starting && s.lock.Some? && (s.stack.None? || s.gateway.Some?) ==> s.mutex.Some? && s.tasks[s.mutex.value].job == Start)
    && (s.startCut ==> s.stack.Some? && s.gateway.None? && s.phase in {Stopped, Starting, Standby})
  }

  /** What a cut roll-back leaves: a recorded stack, which bars every bring-up, and no watchdog. */
  predicate Abandoned(s: State) { s.stack.Some? && s.gateway.None? && !WatchdogLives(s) }

  predicate BusyTask(s: State, t: Option<TaskId>) { t.Some? && t.value in s.tasks && Busy(s.tasks[t.value].pc) }

  /** The watchdog does not take the mutex, yet it never works on the runtime while a mutator does. */
  predicate Exclusive(s: State) { !(BusyTask(s, s.mutex) && BusyTask(s, s.watchdog)) }

  /** Nothing runs that is not recorded, as long as no teardown call raised. */
  predicate NoLeak(s: State) {
    && s.harnesses <= (if s.stack.Some? then {s.stack.value} else {})
    && s.pollers <= (if s.gateway.Some? then {s.gateway.value} else {})
  }

  predicate Inv(s: State) {
    && FieldsOk(s) && PhaseOk(s) && Exclusive(s)
    && (forall t :: t in s.tasks ==> TaskOk(s, t))
    && !s.clobbered
    && (s.teardownRaised || NoLeak(s))
  }

  // ------------------------------------------------------------------ inside an atomic block

  /** Inside a block of task `t`: everything of `Inv` that does not speak of `t`'s own program counter. */
  predicate Mid(s: State, t: TaskId) {
    && t in s.tasks && t < s.nextId
    && FieldsOk(s) && !s.clobbered && (s.teardownRaised || NoLeak(s))
    && (s.startCut ==> s.tasks[t].job == Stop || s.stack.Some?) && (s.startCut ==> s.gateway.None?)
    && (forall u :: u in s.tasks && u != t ==> TaskOk(s, u) && !Busy(s.tasks[u].pc))
    && (s.watchdog.Some? ==> s.watchdog.value < s.nextId
                             && (s.watchdog.value in s.tasks ==> s.tasks[s.watchdog.value].job == Watchdog))
    && (if s.tasks[t].job == Watchdog then
          s.watchdog == Some(t) && (s.mutex.Some? ==> s.mutex.value in s.tasks && s.tasks[s.mutex.value].job == Stop
                                                      && s.tasks[s.mutex.value].pc == AwaitWatchdog)
        else s.mutex == Some(t))
  }

  /** The phase in which the job of `t` works on the runtime. */
  predicate InPhase(s: State, t: TaskId)
    requires t in s.tasks
  {
    match s.tasks[t].job
    case Start => s.phase == Starting && s.tasks[t].tookLock && !s.startCut
    case Restart => s.phase == Restarting && !s.startCut
    case Stop => s.watchdog.None? && s.phase != Stopped && (s.phase in {Starting, Restarting} ==> s.gateway.None?)
                 && (s.startCut ==> s.phase in {Starting, Standby})
    case _ => s.phase == Standby && !s.startCut
  }

  predicate Serves(job: Job, pc: Pc) {
    match job
    case Stop => Teardowns(pc, ToStop)
    case Restart => BringingUp(pc) || RollingBack(pc) || Teardowns(pc, ToRebuild)
    case Watchdog => BringingUp(pc) || RollingBack(pc) || Teardowns(pc, ToDemote)
    case _ => BringingUp(pc) || RollingBack(pc)
  }

  lemma ParkKeepsInv(s: State, t: TaskId, pc: Pc)
    requires Mid(s, t) && InPhase(s, t) && Serves(s.tasks[t].job, pc) && Recorded(s, pc) && s.stack.Some?
    ensures Inv(Park(s, t, pc))
  {
  }

  lemma EndKeepsInv(s: State, t: TaskId)
    requires Mid(s, t) && (s.phase == Restarting ==> Abandoned(s))
    requires s.phase == Stopped ==> s.gateway.None? && (!s.startCut ==> s.lock.None? && s.stack.None?)
    requires s.phase == Starting ==> s.lock.None? || (s.stack.Some? && s.gateway.None?)
    requires s.startCut ==> s.stack.Some? && s.phase in {Stopped, Starting, Standby}
    ensures Inv(End(s, t))
  {
  }

  lemma SleepKeepsInv(s: State, t: TaskId)
    requires Mid(s, t) && s.tasks[t].job == Watchdog && s.phase in {Live, Standby} && (s.startCut ==> s.phase == Standby)
    ensures Inv(Park(s, t, Sleeping))
  {
  }

  lemma RolledBackKeepsInv(s: State, t: TaskId, cause: Exc)
    requires Mid(s, t) && InPhase(s, t) && s.tasks[t].job != Stop && !s.bridge
    requires s.teardownRaised || (s.gateway.None? && s.stack.None?)
    ensures Inv(RolledBack(s, t, cause))
  {
    hide Inv;
    var task, cleared := s.tasks[t], s.(gateway := None, stack := None);
    if task.job == Restart {
      EndKeepsInv(cleared.(phase := Standby), t);
    } else {
      var m := if task.tookLock then cleared.(lock := None) else cleared;
      if task.job == Start {
        EndKeepsInv(m.(phase := Stopped), t);
      } else if task.job == Watchdog && cause == Failed {
        SleepKeepsInv(m, t);
      } else {
        EndKeepsInv(m, t);
      }
    }
  }

  lemma RollBackKeepsInv(s: State, t: TaskId, cause: Exc)
    requires Mid(s, t) && InPhase(s, t) && s.tasks[t].job != Stop
    ensures Inv(RollBack(s, t, cause))
  {
    match StageFrom(s, 0)
    case Some(stage) => ParkKeepsInv(s, t, Tearing(stage, ToRollBack(cause)));
    case None => RolledBackKeepsInv(s, t, cause);
  }

  lemma BringUpKeepsInv(s: State, t: TaskId)
    requires Mid(s, t) && InPhase(s, t) && s.tasks[t].job != Stop
    requires s.stack.None? && s.lock.Some?
    ensures Inv(BringUp(s, t))
  {
  }

  lemma DemotedKeepsInv(s: State, t: TaskId, exc: Option<Exc>)
    requires Mid(s, t) && s.phase == Standby && s.tasks[t].job == Watchdog && !s.bridge && !s.startCut
    requires s.teardownRaised || (s.gateway.None? && s.stack.None?)
    ensures Inv(Demoted(s, t, exc))
  {
    hide Inv;
    var m := s.(gateway := None, stack := None, lock := None);
    if exc == Some(Cancelled) { EndKeepsInv(m, t); } else { SleepKeepsInv(m, t); }
  }

  predicate ServesFor(job: Job, why: Why) {
    match why
    case ToStop => job == Stop
    case ToRebuild => job == Restart
    case ToDemote => job == Watchdog
    case ToRollBack(_) => job != Stop
  }

  lemma TornDownKeepsInv(s: State, t: TaskId, why: Why, w: World)
    requires Mid(s, t) && InPhase(s, t) && ServesFor(s.tasks[t].job, why)
    requires s.gateway.None? && s.stack.None? && (why == ToRebuild ==> s.lock.Some?)
    ensures Inv(TornDown(s, t, why, w))
  {
    match why
    case ToStop => EndKeepsInv(s.(lock := None, phase := Stopped, startCut := false), t);
    case ToRebuild => if w.factoryOk { BringUpKeepsInv(s, t); } else { RollBackKeepsInv(s, t, Failed); }
    case ToDemote => DemotedKeepsInv(s, t, None);
    case ToRollBack(cause) => RolledBackKeepsInv(s, t, cause);
  }

  lemma TeardownKeepsInv(s: State, t: TaskId, why: Why, w: World, from: nat)
    requires Mid(s, t) && InPhase(s, t) && ServesFor(s.tasks[t].job, why)
    requires (from >= 1 ==> !s.bridge) && (from >= 2 ==> s.gateway.None?) && (why == ToRebuild ==> s.lock.Some?)
    ensures Inv(Teardown(s, t, why, w, from))
  {
    match StageFrom(s, from)
    case Some(stage) => ParkKeepsInv(s, t, Tearing(stage, why));
    case None => TornDownKeepsInv(s, t, why, w);
  }

  lemma TeardownFailedKeepsInv(s: State, t: TaskId, why: Why, exc: Exc)
    requires Mid(s, t) && InPhase(s, t) && ServesFor(s.tasks[t].job, why) && !s.bridge && s.stack.Some?
    requires why.ToRollBack? ==> exc == Failed
    ensures Inv(TeardownFailed(s, t, why, exc))
  {
    var s := s.(teardownRaised := true);
    match why
    case ToStop => EndKeepsInv(s, t);
    case ToRebuild => RollBackKeepsInv(s, t, exc);
    case ToDemote => DemotedKeepsInv(s, t, Some(exc));
    case ToRollBack(cause) => RolledBackKeepsInv(s, t, cause);
  }

  lemma NotLiveKeepsInv(s: State, t: TaskId)
    requires Mid(s, t) && s.tasks[t].job in {Start, Acquire, Watchdog}
    requires if s.tasks[t].job == Start then s.phase == Starting && (s.stack.None? ==> s.lock.None?) else s.phase == Standby
    requires s.tasks[t].job == Start ==> forall u :: u in s.tasks ==> s.tasks[u].job != Watchdog
    ensures Inv(NotLive(s, t))
  {
    match s.tasks[t].job
    case Start => EndKeepsInv(SpawnWatchdog(s.(phase := Standby)), t);
    case Watchdog => SleepKeepsInv(s, t);
    case _ => EndKeepsInv(s, t);
  }

  lemma LockRaisedKeepsInv(s: State, t: TaskId)
    requires Mid(s, t) && s.tasks[t].job in {Start, Acquire, Watchdog}
    requires if s.tasks[t].job == Start then s.phase == Starting && (s.stack.None? ==> s.lock.None?) else s.phase == Standby
    requires s.gateway.None? && s.stack.None? && s.lock.None?
    requires s.tasks[t].job == Start ==> forall u :: u in s.tasks ==> s.tasks[u].job != Watchdog
    ensures Inv(LockRaised(s, t))
  {
    match s.tasks[t].job
    case Start => EndKeepsInv(s.(phase := Stopped), t);
    case Watchdog => SleepKeepsInv(s, t);
    case _ => EndKeepsInv(s, t);
  }

  lemma TryAcquireKeepsInv(s: State, t: TaskId, w: World)
    requires Mid(s, t) && s.tasks[t].job in {Start, Acquire, Watchdog}
    requires if s.tasks[t].job == Start then s.phase == Starting && (s.stack.None? ==> s.lock.None?) else s.phase == Standby
    requires s.tasks[t].job == Start ==> forall u :: u in s.tasks ==> s.tasks[u].job != Watchdog
    ensures Inv(TryAcquire(s, t, w))
  {
    if s.gateway.Some? || s.stack.Some? { NotLiveKeepsInv(s, t); }
    else if s.lock.Some? { BringUpKeepsInv(s.(tasks := s.tasks[t := s.tasks[t].(tookLock := false)]), t); }
    else if !w.lockOk { LockRaisedKeepsInv(s, t); }
    else if w.got.None? { NotLiveKeepsInv(s, t); }
    else { BringUpKeepsInv(s.(tasks := s.tasks[t := s.tasks[t].(tookLock := true)], lock := w.got), t); }
  }

  lemma BroughtUpKeepsInv(s: State, t: TaskId, w: World)
    requires Mid(s, t) && InPhase(s, t) && s.tasks[t].job != Stop && s.gateway.Some?
    requires s.tasks[t].job == Start ==> forall u :: u in s.tasks ==> s.tasks[u].job != Watchdog
    ensures Inv(BroughtUp(s, t, w))
  {
    var s := s.(bridge := true);
    match s.tasks[t].job
    case Start => EndKeepsInv(SpawnWatchdog(s.(phase := Live)), t);
    case Restart => if w.endpointOk { EndKeepsInv(s.(phase := Live), t); } else { RollBackKeepsInv(s, t, Failed); }
    case Watchdog => SleepKeepsInv(s.(phase := Live), t);
    case _ => EndKeepsInv(s.(phase := Live), t);
  }

  // ------------------------------------------------------------------ one step

  lemma AddCallKeepsInv(s: State, job: Job)
    requires Inv(s) && job != Watchdog
    ensures Inv(AddCall(s, job))
  {
    var n := AddCall(s, job);
    assert forall t :: t in s.tasks ==> TaskOk(s, t);
    assert s.nextId !in s.tasks;
    forall t | t in n.tasks ensures TaskOk(n, t) {
      if t != s.nextId { assert TaskOk(s, t); }
    }
  }

  /** A waiting mutator that is granted the mutex starts its block in a `Mid` state, unless the watchdog is busy. */
  lemma GrantIsMid(s: State, t: TaskId)
    requires Inv(s) && t in s.tasks && s.tasks[t].pc == WantMutex && s.mutex.None? && !BusyTask(s, s.watchdog)
    ensures Mid(s.(mutex := Some(t)), t) && s.tasks[t].job != Watchdog
  {
    var m := s.(mutex := Some(t));
    assert TaskOk(s, t);
    forall u | u in m.tasks && u != t ensures TaskOk(m, u) && !Busy(m.tasks[u].pc) { assert TaskOk(s, u); }
  }

  /** A mutator that leaves at once, whatever the watchdog is doing. */
  lemma LeaveKeepsInv(s: State, t: TaskId)
    requires Inv(s) && t in s.tasks && s.tasks[t].pc == WantMutex && s.mutex.None?
    ensures Inv(End(s.(mutex := Some(t)), t))
  {
    var e := End(s.(mutex := Some(t)), t);
    assert TaskOk(s, t);
    forall u | u in e.tasks ensures TaskOk(e, u) { assert TaskOk(s, u); }
  }

  lemma EnterStartKeepsInv(s: State, t: TaskId, w: World)
    requires Inv(s) && t in s.tasks && s.tasks[t] == Task(Start, WantMutex, s.tasks[t].tookLock) && s.mutex.None?
    ensures Inv(Enter(s, t, w))
  {
    if s.phase == Live || s.phase == Standby {
      LeaveKeepsInv(s, t);
    } else {
      forall u | u in s.tasks ensures s.tasks[u].job != Watchdog { assert TaskOk(s, u); }
      GrantIsMid(s, t);
      var m := s.(mutex := Some(t), phase := Starting);
      forall u | u in m.tasks && u != t ensures TaskOk(m, u) { assert TaskOk(s.(mutex := Some(t)), u); }
      if w.factoryOk { TryAcquireKeepsInv(m, t, w); } else { EndKeepsInv(m, t); }
    }
  }

  lemma EnterAcquireKeepsInv(s: State, t: TaskId, w: World)
    requires Inv(s) && t in s.tasks && s.tasks[t].job == Acquire && s.tasks[t].pc == WantMutex && s.mutex.None?
    ensures Inv(Enter(s, t, w))
  {
    if s.phase == Standby && w.factoryOk && s.stack.None? {
      if BusyTask(s, s.watchdog) { BusyHasStack(s, s.watchdog); }
      GrantIsMid(s, t);
      TryAcquireKeepsInv(s.(mutex := Some(t)), t, w);
    } else {
      LeaveKeepsInv(s, t);
    }
  }

  lemma BusyHasStack(s: State, t: Option<TaskId>)
    requires Inv(s) && BusyTask(s, t)
    ensures s.stack.Some?
  {
    assert TaskOk(s, t.value);
  }

  lemma WatchdogWorksInStandby(s: State)
    requires Inv(s)
    ensures BusyTask(s, s.watchdog) ==> s.phase == Standby
  {
    assert s.watchdog.Some? && s.watchdog.value in s.tasks ==> TaskOk(s, s.watchdog.value);
  }

  lemma NoMutatorWorksBesideALiveWatchdog(s: State, t: TaskId)
    requires Inv(s) && s.phase == Live && t in s.tasks && s.tasks[t].job == Watchdog
    ensures !BusyTask(s, s.mutex)
  {
    assert TaskOk(s, t);
    assert s.mutex.Some? ==> TaskOk(s, s.mutex.value);
  }

  lemma EnterRestartKeepsInv(s: State, t: TaskId, w: World)
    requires Inv(s) && t in s.tasks && s.tasks[t].job == Restart && s.tasks[t].pc == WantMutex && s.mutex.None?
    ensures Inv(Enter(s, t, w))
  {
    if s.phase != Live || s.gateway.None? {
      LeaveKeepsInv(s, t);
    } else {
      WatchdogWorksInStandby(s);
      GrantIsMid(s, t);
      var m := s.(mutex := Some(t), phase := Restarting);
      forall u | u in m.tasks && u != t ensures TaskOk(m, u) { assert TaskOk(s.(mutex := Some(t)), u); }
      TeardownKeepsInv(m, t, ToRebuild, w, 0);
    }
  }

  lemma EnterStopKeepsInv(s: State, t: TaskId, w: World)
    requires Inv(s) && t in s.tasks && s.tasks[t].job == Stop && s.tasks[t].pc == WantMutex && s.mutex.None?
    ensures Inv(Enter(s, t, w))
  {
    if s.phase == Stopped {
      LeaveKeepsInv(s, t);
    } else if s.watchdog.Some? {
      StopWaitsKeepsInv(s, t);
    } else {
      GrantIsMid(s, t);
      TeardownKeepsInv(s.(mutex := Some(t)), t, ToStop, w, 0);
    }
  }

  lemma StopWaitsKeepsInv(s: State, t: TaskId)
    requires Inv(s) && t in s.tasks && s.tasks[t].job == Stop && s.tasks[t].pc == WantMutex && s.mutex.None? && s.phase != Stopped
    ensures Inv(Park(s.(mutex := Some(t)), t, AwaitWatchdog))
  {
    var e := Park(s.(mutex := Some(t)), t, AwaitWatchdog);
    forall u | u in e.tasks ensures TaskOk(e, u) { assert TaskOk(s, u); }
  }

  lemma EnterKeepsInv(s: State, t: TaskId, w: World)
    requires Inv(s) && t in s.tasks && s.tasks[t].pc == WantMutex && s.mutex.None?
    ensures Inv(Enter(s, t, w))
  {
    assert TaskOk(s, t);
    match s.tasks[t].job
    case Start => EnterStartKeepsInv(s, t, w);
    case Acquire => EnterAcquireKeepsInv(s, t, w);
    case Restart => EnterRestartKeepsInv(s, t, w);
    case Stop => EnterStopKeepsInv(s, t, w);
  }

  /** A watchdog about to poll, with no mutator busy on the runtime, is in a `Mid` state. */
  lemma PollIsMid(s: State, t: TaskId)
    requires Inv(s) && t in s.tasks && s.tasks[t].pc == Sleeping && s.phase in {Live, Standby} && !BusyTask(s, s.mutex)
    ensures Mid(s, t) && s.tasks[t].job == Watchdog
  {
    assert TaskOk(s, t);
    forall u | u in s.tasks && u != t ensures TaskOk(s, u) && !Busy(s.tasks[u].pc) { assert TaskOk(s, u); }
    if s.mutex.Some? { assert TaskOk(s, s.mutex.value); }
  }

  lemma PollKeepsInv(s: State, t: TaskId, w: World)
    requires Inv(s) && t in s.tasks && s.tasks[t].pc == Sleeping
    ensures Inv(Poll(s, t, w))
  {
    assert TaskOk(s, t);
    if s.phase == Live && s.lock.Some? && !w.owned {
      NoMutatorWorksBesideALiveWatchdog(s, t);
      PollIsMid(s, t);
      var m := s.(phase := Standby);
      forall u | u in m.tasks && u != t ensures TaskOk(m, u) { assert TaskOk(s, u); }
      TeardownKeepsInv(m, t, ToDemote, w, 0);
    } else if s.phase == Standby && w.free && w.factoryOk {
      if s.stack.None? {
        if BusyTask(s, s.mutex) { BusyHasStack(s, s.mutex); }
        PollIsMid(s, t);
        TryAcquireKeepsInv(s, t, w);
      } else {
        assert Park(s, t, Sleeping) == s;
      }
    }
  }

  /** A busy task resumes in a `Mid` state, in its job's phase. */
  lemma BusyIsMid(s: State, t: TaskId)
    requires Inv(s) && t in s.tasks && Busy(s.tasks[t].pc)
    ensures Mid(s, t) && InPhase(s, t) && Serves(s.tasks[t].job, s.tasks[t].pc) && Recorded(s, s.tasks[t].pc) && s.stack.Some?
  {
    assert TaskOk(s, t);
    forall u | u in s.tasks && u != t ensures TaskOk(s, u) && !Busy(s.tasks[u].pc) { assert TaskOk(s, u); }
    if s.tasks[t].job == Watchdog && s.mutex.Some? { assert TaskOk(s, s.mutex.value); }
  }

  /** `Mid` looks at the other tasks through these fields only. */
  lemma MidAfter(s: State, m: State, t: TaskId)
    requires Mid(s, t) && m.tasks == s.tasks && m.phase == s.phase && m.mutex == s.mutex && m.watchdog == s.watchdog
    requires m.nextId == s.nextId && m.clobbered == s.clobbered && m.teardownRaised == s.teardownRaised
    requires FieldsOk(m) && (m.teardownRaised || NoLeak(m))
    requires m.startCut == s.startCut && (m.startCut ==> m.gateway.None? && (m.stack.Some? || m.tasks[t].job == Stop))
    ensures Mid(m, t)
  {
    forall u | u in m.tasks && u != t ensures TaskOk(m, u) && !Busy(m.tasks[u].pc) { assert TaskOk(s, u); }
  }

  lemma TearingKeepsInv(s: State, t: TaskId, o: Outcome, w: World)
    requires Inv(s) && Enabled(s, Resume(t, o, w)) && s.tasks[t].pc.Tearing?
    requires !(o == IsCancelled && s.tasks[t].pc.why.ToRollBack?)
    ensures Inv(Run(s, t, o, w))
  {
    BusyIsMid(s, t);
    var why := s.tasks[t].pc.why;
    match s.tasks[t].pc.stage
    case Bridge =>
      MidAfter(s, s.(bridge := false), t);
      TeardownKeepsInv(s.(bridge := false), t, why, w, 1);
    case StoppingGateway(g) =>
      if o == Returns {
        var m := s.(gateway := None, pollers := s.pollers - {g});
        MidAfter(s, m, t);
        TeardownKeepsInv(m, t, why, w, 2);
      } else {
        TeardownFailedKeepsInv(s, t, why, Fault(o));
      }
    case ClosingStack(k) => ClosingKeepsInv(s, t, o, w, k);
  }

  lemma ClosingKeepsInv(s: State, t: TaskId, o: Outcome, w: World, k: RuntimeId)
    requires Inv(s) && Enabled(s, Resume(t, o, w)) && s.tasks[t].pc.Tearing? && s.tasks[t].pc.stage == ClosingStack(k)
    requires !(o == IsCancelled && s.tasks[t].pc.why.ToRollBack?)
    ensures Inv(Run(s, t, o, w))
  {
    BusyIsMid(s, t);
    var why, m := s.tasks[t].pc.why, Emptied(s, k);
    if o == Returns {
      MidAfter(s, m.(stack := None), t);
      TornDownKeepsInv(m.(stack := None), t, why, w);
      hide Inv;
      hide TornDown;
    } else {
      MidAfter(s, m, t);
      TeardownFailedKeepsInv(m, t, why, Fault(o));
      hide Inv;
      hide TeardownFailed;
    }
  }

  lemma BringingUpKeepsInv(s: State, t: TaskId, o: Outcome, w: World)
    requires Inv(s) && Enabled(s, Resume(t, o, w)) && BringingUp(s.tasks[t].pc)
    ensures Inv(Run(s, t, o, w))
  {
    BusyIsMid(s, t);
    match s.tasks[t].pc
    case EnteringHarness(id) =>
      if o != Returns {
        RollBackKeepsInv(s, t, Fault(o));
      } else {
        var m := s.(harnesses := s.harnesses + {id});
        MidAfter(s, m, t);
        if !w.buildOk {
          RollBackKeepsInv(m, t, Failed);
        } else {
          var g := m.(gateway := Some(id), pollers := m.pollers + {id});
          MidAfter(m, g, t);
          ParkKeepsInv(g, t, StartingGateway(id));
        }
      }
    case StartingGateway(id) =>
      if o == Returns {
        if s.tasks[t].job == Start {
          forall u | u in s.tasks ensures s.tasks[u].job != Watchdog { assert TaskOk(s, u); }
        }
        BroughtUpKeepsInv(s, t, w);
      } else {
        RollBackKeepsInv(s, t, Fault(o));
      }
  }

  /** A task that is not busy can be cancelled at any time. */
  lemma DropKeepsInv(s: State, t: TaskId)
    requires Inv(s) && t in s.tasks && s.tasks[t].pc in {WantMutex, Sleeping}
    ensures Inv(End(s, t))
  {
    var e := End(s, t);
    assert TaskOk(s, t);
    forall u | u in e.tasks ensures TaskOk(e, u) { assert TaskOk(s, u); }
  }

  /** A task is cancelled inside `_roll_back_runtime`, which then skips the rest of its clean-up. */
  predicate CutsRollBack(s: State, a: Action) {
    a.Resume? && a.outcome == IsCancelled && a.task in s.tasks && RollingBack(s.tasks[a.task].pc)
  }

  /** The one action that breaks the invariant: the roll-back of a restart is cut while the watchdog lives. */
  predicate CutsWatchedRestart(s: State, a: Action) {
    CutsRollBack(s, a) && s.tasks[a.task].job == Restart && WatchdogLives(s)
  }

  lemma CutKeepsInv(s: State, t: TaskId)
    requires Inv(s) && t in s.tasks && RollingBack(s.tasks[t].pc) && s.tasks[t].pc.stage.ClosingStack?
    requires !(s.tasks[t].job == Restart && WatchdogLives(s))
    ensures Inv(CutRollBack(Emptied(s, s.tasks[t].pc.stage.stack).(teardownRaised := true), t))
  {
    BusyIsMid(s, t);
    var m := Emptied(s, s.tasks[t].pc.stage.stack).(teardownRaised := true);
    forall u | u in m.tasks && u != t ensures TaskOk(m, u) && !Busy(m.tasks[u].pc) { assert TaskOk(s, u); }
    match s.tasks[t].job
    case Start =>
      forall u | u in s.tasks ensures s.tasks[u].job != Watchdog { assert TaskOk(s, u); }
      var c := m.(startCut := true, phase := Stopped);
      forall u | u in c.tasks && u != t ensures TaskOk(c, u) && !Busy(c.tasks[u].pc) { assert TaskOk(m, u); }
      EndKeepsInv(c, t);
    case _ => EndKeepsInv(m, t);
  }

  lemma CutIs(s: State, t: TaskId, w: World)
    requires Enabled(s, Resume(t, IsCancelled, w)) && RollingBack(s.tasks[t].pc)
    ensures s.tasks[t].pc.stage.ClosingStack?
    ensures Run(s, t, IsCancelled, w) == CutRollBack(Emptied(s, s.tasks[t].pc.stage.stack).(teardownRaised := true), t)
  {
    hide CutRollBack;
  }

  lemma StepKeepsInv(s: State, a: Action)
    requires Inv(s) && Enabled(s, a) && !CutsWatchedRestart(s, a)
    ensures Inv(Next(s, a))
  {
    hide Inv;
    hide Enter;
    hide Poll;
    hide Teardown;
    hide TornDown;
    hide TeardownFailed;
    hide CutRollBack;
    hide BroughtUp;
    hide RollBack;
    match a
    case Call(job) => AddCallKeepsInv(s, job);
    case HttpRestart =>
      if s.phase == Live { AddCallKeepsInv(s, Restart); }
      else if s.phase == Standby && s.lock.Some? { AddCallKeepsInv(s, Acquire); }
    case Resume(t, o, w) =>
      match s.tasks[t].pc
      case WantMutex => if o == Returns { EnterKeepsInv(s, t, w); } else { DropKeepsInv(s, t); }
      case Sleeping => if o == Returns { PollKeepsInv(s, t, w); } else { DropKeepsInv(s, t); }
      case AwaitWatchdog => WatchdogGoneKeepsInv(s, t, w);
      case Tearing(stage, why) => if CutsRollBack(s, a) { CutIs(s, t, w); CutKeepsInv(s, t); } else { TearingKeepsInv(s, t, o, w); }
      case _ => BringingUpKeepsInv(s, t, o, w);
  }

  lemma WatchdogGoneKeepsInv(s: State, t: TaskId, w: World)
    requires Inv(s) && Enabled(s, Resume(t, Returns, w)) && s.tasks[t].pc == AwaitWatchdog
    ensures Inv(Run(s, t, Returns, w))
  {
    assert TaskOk(s, t);
    var m := s.(watchdog := None);
    forall u | u in m.tasks && u != t ensures TaskOk(m, u) && !Busy(m.tasks[u].pc) { assert TaskOk(s, u); }
    TeardownKeepsInv(m, t, ToStop, w, 0);
  }

  // ------------------------------------------------------------------ every run

  lemma CutStays(s: State, a: Action)
    requires Enabled(s, a) && (s.watchedCut || CutsWatchedRestart(s, a))
    ensures Next(s, a).watchedCut
  {
  }

  lemma {:induction false} CutStaysOnRuns(s: State, run: seq<Action>)
    requires Valid(s, run) && s.watchedCut
    ensures After(s, run).watchedCut
    decreases |run|
  {
    if run != [] {
      CutStays(s, run[0]);
      CutStaysOnRuns(Next(s, run[0]), run[1..]);
    }
  }

  lemma {:induction false} RunKeepsInv(s: State, run: seq<Action>)
    requires Inv(s) && Valid(s, run) && !After(s, run).watchedCut
    ensures Inv(After(s, run))
    decreases |run|
  {
    if run != [] {
      var n := Next(s, run[0]);
      if n.watchedCut {
        CutStaysOnRuns(n, run[1..]);
      } else {
        StepKeepsInv(s, run[0]);
        RunKeepsInv(n, run[1..]);
      }
    }
  }

  /** What the mount's comments promise about one mount. */
  ghost predicate Safe(s: State) {
    // no gateway or exit stack was ever assigned over a recorded one
    && !s.clobbered
    // at most one watchdog, and it is the recorded one
    && (forall t :: t in s.tasks && s.tasks[t].job == Watchdog ==> s.watchdog == Some(t))
    // a task in the middle of a bring-up owns the recorded stack, under the mount's lock
    && (forall t :: t in s.tasks && BringingUp(s.tasks[t].pc) ==> s.stack == Some(s.tasks[t].pc.id) && s.lock.Some?)
    // one task at a time works on the runtime, mutators inside the mutex
    && (forall t, u :: t in s.tasks && u in s.tasks && Busy(s.tasks[t].pc) && Busy(s.tasks[u].pc) ==> t == u)
    && (forall t :: t in s.tasks && Busy(s.tasks[t].pc) && s.tasks[t].job != Watchdog ==> s.mutex == Some(t))
    // live means locked, and so does any recorded half of a runtime
    && (s.phase == Live || s.gateway.Some? || s.stack.Some? ==> s.lock.Some?)
    // nothing runs unrecorded unless a teardown call raised
    && (!s.teardownRaised ==> s.harnesses <= (if s.stack.Some? then {s.stack.value} else {})
                              && s.pollers <= (if s.gateway.Some? then {s.gateway.value} else {}))
  }

  /** Every state of every interleaving is safe, as long as no restart's roll-back was cut while its watchdog lived. */
  lemma EveryRunIsSafe(run: seq<Action>)
    requires Valid(Init, run) && !After(Init, run).watchedCut
    ensures Safe(After(Init, run))
  {
    RunKeepsInv(Init, run);
    var s := After(Init, run);
    forall t | t in s.tasks
      ensures s.tasks[t].job == Watchdog ==> s.watchdog == Some(t)
      ensures Busy(s.tasks[t].pc) && s.tasks[t].job != Watchdog ==> s.mutex == Some(t)
      ensures BringingUp(s.tasks[t].pc) ==> s.stack == Some(s.tasks[t].pc.id) && s.lock.Some?
    {
      assert TaskOk(s, t);
    }
  }
}
