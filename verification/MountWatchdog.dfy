/** Both directions of the lock watchdog, and how a runtime is handed from one lock or configuration to the next. */
module MountWatchdog {
  import opened Wrappers
  import opened Mount
  import opened MountSafety
  import opened MountOutcomes
  import opened MountFleet

  predicate AsleepIn(s: State, t: TaskId) { t in s.tasks && s.tasks[t].pc == Sleeping }

  predicate Demoting(s: State, t: TaskId) { t in s.tasks && Teardowns(s.tasks[t].pc, ToDemote) }

  /** Nothing recorded and no lock: what a demotion leaves. */
  predicate StoodDown(s: State) {
    s.phase == Standby && s.lock.None? && s.gateway.None? && s.stack.None? && !s.bridge
  }

  // ------------------------------------------------------------------ a lost lock

  /** A poll of a live mount stands it down if and only if the lock is no longer owned, and otherwise does nothing. */
  lemma PollStandsDownIff(s: State, t: TaskId, w: World)
    requires Inv(s) && AsleepIn(s, t) && s.phase == Live
    ensures var n := Next(s, Resume(t, Returns, w));
            && (if w.owned then n == s else n.phase == Standby && (Demoting(n, t) || (StoodDown(n) && AsleepIn(n, t))))
  {
    assert TaskOk(s, t);
  }

  /** A step of the watchdog inside its demotion goes on with it or leaves the mount stood down, whatever the awaited call did. */
  lemma DemotionStep(s: State, t: TaskId, o: Outcome, w: World)
    requires Inv(s) && Demoting(s, t) && Enabled(s, Resume(t, o, w))
    ensures var n := Next(s, Resume(t, o, w));
            && n.phase == Standby && (Demoting(n, t) || StoodDown(n))
            && (!Demoting(n, t) ==> if o == IsCancelled then t !in n.tasks else AsleepIn(n, t))
  {
    assert TaskOk(s, t);
  }

  /** While the watchdog demotes, no other task's step takes that away, and no restart is there to be cut. */
  lemma DemotionGoesOn(s: State, t: TaskId, a: Action)
    requires Inv(s) && Demoting(s, t) && Enabled(s, a) && BusyIn(Next(s, a), t)
    ensures Inv(Next(s, a)) && Demoting(Next(s, a), t)
  {
    assert TaskOk(s, t);
    if a.Resume? && a.task in s.tasks { assert TaskOk(s, a.task); }
    StepKeepsInv(s, a);
    if a.Resume? {
      if a.task == t { DemotionStep(s, t, a.outcome, a.world); } else { BystanderKeepsTheLock(s, a, t); }
    }
  }

  lemma {:induction false} DemotesAlong(s: State, run: seq<Action>, t: TaskId)
    requires Inv(s) && Demoting(s, t) && Valid(s, run) && BusyAlong(s, run, t)
    ensures Inv(After(s, run)) && Demoting(After(s, run), t)
    decreases |run|
  {
    if run != [] {
      assert BusyAlong(Next(s, run[0]), run[1..], t);
      DemotionGoesOn(s, t, run[0]);
      DemotesAlong(Next(s, run[0]), run[1..], t);
    }
  }

  /**
   A mount that finds its lock lost stands down: at once, or when the demotion this starts is over, whatever is
   interleaved with it and however the calls it awaits end.
  */
  lemma LostLockIsGivenUp(s: State, t: TaskId, w: World, run: seq<Action>, o: Outcome, w': World)
    requires Inv(s) && AsleepIn(s, t) && s.phase == Live && !w.owned
    requires var n := Next(s, Resume(t, Returns, w)); BusyIn(n, t) ==> Valid(n, run) && BusyAlong(n, run, t)
    requires var n := Next(s, Resume(t, Returns, w));
             BusyIn(n, t) ==> Enabled(After(n, run), Resume(t, o, w')) && !BusyIn(Next(After(n, run), Resume(t, o, w')), t)
    ensures var n := Next(s, Resume(t, Returns, w));
            n.phase == Standby && StoodDown(if BusyIn(n, t) then Next(After(n, run), Resume(t, o, w')) else n)
  {
    var n := Next(s, Resume(t, Returns, w));
    PollStandsDownIff(s, t, w);
    if BusyIn(n, t) {
      StepKeepsInv(s, Resume(t, Returns, w));
      DemotesAlong(n, run, t);
      DemotionStep(After(n, run), t, o, w');
    }
  }

  // ------------------------------------------------------------------ a free lock

  /** A poll in standby begins a promotion if and only if the lock is free or its own and no runtime is in the way. */
  lemma PollPromotesIff(s: State, t: TaskId, w: World)
    requires Inv(s) && AsleepIn(s, t) && s.phase == Standby
    ensures var n := Next(s, Resume(t, Returns, w));
            && (n != s <==> BusyIn(n, t))
            && (BusyIn(n, t) <==> !HasRuntime(s) && w.free && w.factoryOk && (s.lock.Some? || (w.lockOk && w.got.Some?)))
            && (BusyIn(n, t) ==> n.phase == Standby && n.lock == (if s.lock.Some? then s.lock else w.got)
                                 && n.tasks[t].pc == EnteringHarness(s.nextId))
  {
    assert TaskOk(s, t);
    assert s.tasks[t := s.tasks[t]] == s.tasks;
  }

  /** And three polls of fortune make it live under that lock, with its watchdog asleep again. */
  lemma FreeLockIsTaken(s: State, t: TaskId, w: World)
    requires Inv(s) && AsleepIn(s, t) && s.phase == Standby && !HasRuntime(s) && s.lock.None?
    requires w.free && w.factoryOk && w.lockOk && w.got.Some? && w.buildOk
    ensures var go := Resume(t, Returns, w);
            Valid(s, [go, go, go]) && var e := After(s, [go, go, go]);
            e.phase == Live && e.lock == w.got && e.gateway == Some(s.nextId) && e.stack == Some(s.nextId) && AsleepIn(e, t)
  {
    PollPromotesIff(s, t, w);
    assert s.tasks[t].job == Watchdog by { assert TaskOk(s, t); }
    hide Inv;
    var go := Resume(t, Returns, w);
    var s1 := Next(s, go);
    assert s1.stack == Some(s.nextId) && s1.tasks[t].job == Watchdog;
    PromotionGoesLive(s1, t, s.nextId, w);
    hide Next;
    OneMoreStep(s, go, [go, go]);
    assert [go] + [go, go] == [go, go, go];
  }

  lemma PromotionGoesLive(s: State, t: TaskId, id: RuntimeId, w: World)
    requires t in s.tasks && s.tasks[t].job == Watchdog && s.tasks[t].pc == EnteringHarness(id) && s.stack == Some(id) && w.buildOk
    ensures var go := Resume(t, Returns, w);
            Valid(s, [go, go]) && var e := After(s, [go, go]);
            e.phase == Live && e.lock == s.lock && e.gateway == Some(id) && e.stack == Some(id) && AsleepIn(e, t)
  {
    var go := Resume(t, Returns, w);
    var s1 := Next(s, go);
    assert s1.tasks[t].pc == StartingGateway(id) && s1.gateway == Some(id) && s1.lock == s.lock;
    var s2 := Next(s1, go);
    assert s2.phase == Live && AsleepIn(s2, t) && s2.lock == s.lock;
    hide Next;
    TwoSteps(s, go, go);
  }

  // ------------------------------------------------------------------ in the fleet

  /** `lock_still_owned` without a failed stat: the handle's inode is the one on disk. */
  predicate Truly(f: Fleet, m: nat, w: World)
    requires m < |f.mounts|
  {
    w.owned <==> f.mounts[m].lock == Some(f.path)
  }

  /** A live mount stays live past such a poll if and only if its handle is for the file on disk. */
  lemma StaysLiveIff(f: Fleet, m: nat, t: TaskId, w: World)
    requires FleetInv(f) && m < |f.mounts| && !f.mounts[m].watchedCut && f.mounts[m].phase == Live && AsleepIn(f.mounts[m], t)
    requires Truly(f, m, w) && Honest(f, w)
    ensures var g := FleetNext(f, Step(m, Resume(t, Returns, w)));
            && FleetInv(g) && g.path == f.path && !g.mounts[m].watchedCut
            && (forall k :: 0 <= k < |f.mounts| && k != m ==> g.mounts[k] == f.mounts[k])
            && (g.mounts[m].phase == Live <==> f.mounts[m].lock == Some(f.path))
            && (g.mounts[m].phase == Live ==> g.mounts[m] == f.mounts[m])
  {
    hide Inv;
    var s := f.mounts[m];
    FleetStepKeepsInv(f, Step(m, Resume(t, Returns, w)));
    PollStandsDownIff(s, t, w);
    PollCutsNothing(s, t, w);
  }

  lemma PollCutsNothing(s: State, t: TaskId, w: World)
    requires AsleepIn(s, t)
    ensures Next(s, Resume(t, Returns, w)).watchedCut == s.watchedCut
  {
  }

  /** So two mounts that a replaced lock file made live beside one another are not both live when each has polled once. */
  lemma OnlyOneStaysLive(f: Fleet, a: nat, t: TaskId, v: World, b: nat, u: TaskId, w: World)
    requires FleetInv(f) && a < |f.mounts| && b < |f.mounts| && a != b
    requires !f.mounts[a].watchedCut && f.mounts[a].phase == Live && AsleepIn(f.mounts[a], t) && Truly(f, a, v) && Honest(f, v)
    requires !f.mounts[b].watchedCut && f.mounts[b].phase == Live && AsleepIn(f.mounts[b], u)
    requires var g := FleetNext(f, Step(a, Resume(t, Returns, v))); Truly(g, b, w) && Honest(g, w)
    ensures var g := FleetNext(f, Step(a, Resume(t, Returns, v)));
            var h := FleetNext(g, Step(b, Resume(u, Returns, w)));
            !(h.mounts[a].phase == Live && h.mounts[b].phase == Live)
  {
    hide Inv;
    hide Next;
    StaysLiveIff(f, a, t, v);
    StaysLiveIff(FleetNext(f, Step(a, Resume(t, Returns, v))), b, u, w);
    hide FleetNext;
  }

  // ------------------------------------------------------------------ start, acquire and restart

  /** The call returns at once: its task is gone and nothing else moved. */
  predicate Leaves(s: State, n: State, t: TaskId) { n == s.(tasks := map u | u in s.tasks && u != t :: s.tasks[u]) }

  /** What a mutator that is granted the mutex finds worth doing. */
  predicate FindsWork(s: State, job: Job, w: World) {
    match job
    case Start => s.phase !in {Live, Standby} && w.factoryOk && !HasRuntime(s) && (s.lock.Some? || (w.lockOk && w.got.Some?))
    case Acquire => s.phase == Standby && w.factoryOk && !HasRuntime(s) && (s.lock.Some? || (w.lockOk && w.got.Some?))
    case Restart => s.phase == Live && s.gateway.Some?
    case _ => false
  }

  /** It sets to work on the runtime exactly then, a start or an acquire by building one; otherwise only a start can change the phase. */
  lemma MutatorWorksIff(s: State, t: TaskId, w: World)
    requires Inv(s) && t in s.tasks && s.tasks[t].pc == WantMutex && s.tasks[t].job != Stop && s.mutex.None?
    ensures var n := Next(s, Resume(t, Returns, w)); var job := s.tasks[t].job;
            && (BusyIn(n, t) <==> FindsWork(s, job, w))
            && (FindsWork(s, job, w) ==> if job == Restart then Teardowns(n.tasks[t].pc, ToRebuild) else BringingUp(n.tasks[t].pc))
            && (!FindsWork(s, job, w) ==> job != Start || s.phase in {Live, Standby} ==> Leaves(s, n, t))
  {
    assert TaskOk(s, t);
    hide Inv;
    hide Follows;
  }

  lemma StartTries(s: State, t: TaskId, w: World)
    requires t in s.tasks && s.tasks[t].job == Start && s.phase == Starting
    ensures var n := TryAcquire(s, t, w);
            && (n.phase == Standby <==> HasRuntime(s) || (s.lock.None? && w.lockOk && w.got.None?))
            && (n.phase == Stopped <==> !HasRuntime(s) && s.lock.None? && !w.lockOk)
            && n.gateway == s.gateway && n.lock == (if !HasRuntime(s) && s.lock.None? && w.lockOk then w.got else s.lock)
  {
    BlocksKeep(t);
    hide Follows;
    hide BringUp;
    hide SpawnWatchdog;
    hide End;
    if HasRuntime(s) || (s.lock.None? && w.lockOk && w.got.None?) {
      assert TryAcquire(s, t, w) == End(SpawnWatchdog(s.(phase := Standby)), t);
      hide TryAcquire;
    } else if s.lock.None? && !w.lockOk {
      assert TryAcquire(s, t, w) == End(s.(phase := Stopped), t);
      hide TryAcquire;
    } else {
      hide NotLive;
      hide LockRaised;
    }
  }

  lemma BlocksKeep(t: TaskId)
    ensures forall m: State {:trigger BringUp(m, t)} :: t in m.tasks ==>
              BringUp(m, t).phase == m.phase && BringUp(m, t).gateway == m.gateway && BringUp(m, t).lock == m.lock
    ensures forall m: State {:trigger SpawnWatchdog(m)} ::
              SpawnWatchdog(m).phase == m.phase && SpawnWatchdog(m).gateway == m.gateway && SpawnWatchdog(m).lock == m.lock
    ensures forall m: State {:trigger End(m, t)} :: End(m, t).phase == m.phase && End(m, t).gateway == m.gateway && End(m, t).lock == m.lock
  {
  }

  /** A start stands by when another holds the lock or a runtime of its own is left, and is stopped when asking for the lock raises. */
  lemma StartStandsByIff(s: State, t: TaskId, w: World)
    requires t in s.tasks && s.tasks[t].pc == WantMutex && s.tasks[t].job == Start && s.mutex.None?
    requires s.phase !in {Live, Standby} && w.factoryOk
    ensures var n := Next(s, Resume(t, Returns, w));
            && (n.phase == Standby <==> HasRuntime(s) || (s.lock.None? && w.lockOk && w.got.None?))
            && (n.phase == Stopped <==> !HasRuntime(s) && s.lock.None? && !w.lockOk)
            && n.gateway == s.gateway && n.lock == (if !HasRuntime(s) && s.lock.None? && w.lockOk then w.got else s.lock)
  {
    StartTries(s.(mutex := Some(t)).(phase := Starting), t, w);
    hide TryAcquire;
    hide Follows;
  }

  /** With a stack recorded, a roll-back has something to wait for. */
  lemma RollBackParks(s: State, t: TaskId, cause: Exc)
    requires t in s.tasks && s.stack.Some?
    ensures var n := RollBack(s, t, cause); t in n.tasks && RollingBack(n.tasks[t].pc) && n.phase == s.phase
  {
    hide RolledBack;
    hide Follows;
  }

  lemma HarnessEntered(s: State, t: TaskId, o: Outcome, w: World)
    requires t in s.tasks && s.tasks[t].pc.EnteringHarness? && s.stack.Some?
    ensures var n := Run(s, t, o, w); var id := s.tasks[t].pc.id;
            && n.phase == s.phase
            && (if o == Returns && w.buildOk then t in n.tasks && n.tasks[t].pc == StartingGateway(id) && n.gateway == Some(id)
                else t in n.tasks && RollingBack(n.tasks[t].pc))
  {
    hide Follows;
    if o != Returns { RollBackParks(s, t, Fault(o)); }
    else if !w.buildOk { RollBackParks(s.(harnesses := s.harnesses + {s.tasks[t].pc.id}), t, Failed); }
    hide RollBack;
  }

  lemma GatewayStarted(s: State, t: TaskId, o: Outcome, w: World)
    requires t in s.tasks && s.tasks[t].pc.StartingGateway? && s.stack.Some?
    ensures var n := Run(s, t, o, w);
            if o == Returns && (s.tasks[t].job == Restart ==> w.endpointOk) then n.phase == Live
            else t in n.tasks && RollingBack(n.tasks[t].pc) && n.phase == s.phase
  {
    hide Follows;
    if o != Returns { RollBackParks(s, t, Fault(o)); }
    else { RollBackParks(s.(bridge := true), t, Failed); }
    hide RollBack;
  }

  /** A bring-up goes live when its gateway started and, for a restart, took the old endpoint; whatever else fails is rolled back. */
  lemma GoesLiveIff(s: State, t: TaskId, o: Outcome, w: World)
    requires Inv(s) && t in s.tasks && BringingUp(s.tasks[t].pc) && Enabled(s, Resume(t, o, w))
    ensures var n := Next(s, Resume(t, o, w)); var task := s.tasks[t];
            var works := o == Returns && if task.pc.EnteringHarness? then w.buildOk else task.job == Restart ==> w.endpointOk;
            && (n.phase == Live <==> works && task.pc.StartingGateway?)
            && (works && task.pc.EnteringHarness? ==> t in n.tasks && n.tasks[t].pc == StartingGateway(task.pc.id) && n.gateway == Some(task.pc.id))
            && (!works ==> t in n.tasks && RollingBack(n.tasks[t].pc))
  {
    BusyIsMid(s, t);
    hide Inv;
    hide Mid;
    hide Run;
    if s.tasks[t].pc.EnteringHarness? { HarnessEntered(s, t, o, w); } else { GatewayStarted(s, t, o, w); }
  }

  /** What becomes of the watchdog that `SpawnWatchdog` adds, in a block that then ends. */
  predicate Watched(n: State) { WatchdogLives(n) && n.tasks[n.watchdog.value] == Task(Watchdog, Sleeping, false) }

  lemma SpawnedIsWatched(s: State, t: TaskId)
    requires t in s.tasks && t < s.nextId
    ensures var n := End(SpawnWatchdog(s), t); n.phase == s.phase && Watched(n)
  {
  }

  lemma StartTryingWatches(s: State, t: TaskId, w: World)
    requires t in s.tasks && t < s.nextId && s.tasks[t].job == Start && s.phase == Starting
    requires t !in TryAcquire(s, t, w).tasks
    ensures var n := TryAcquire(s, t, w); n.phase == Stopped || (n.phase == Standby && Watched(n))
  {
    hide BringUp;
    hide Follows;
    hide SpawnWatchdog;
    hide Watched;
    BringUpIsBusy(s, t, w);
    SpawnedIsWatched(s.(phase := Standby), t);
  }

  lemma BringUpIsBusy(s: State, t: TaskId, w: World)
    requires t in s.tasks
    ensures forall m: State {:trigger BringUp(m, t)} :: t in m.tasks ==> t in BringUp(m, t).tasks
  {
  }

  lemma EnteringStartWatches(s: State, t: TaskId, w: World)
    requires t in s.tasks && t < s.nextId && s.tasks[t].job == Start && s.phase !in {Live, Standby}
    requires t !in Enter(s, t, w).tasks
    ensures var n := Enter(s, t, w); n.phase in {Stopped, Starting} || (n.phase == Standby && Watched(n))
  {
    hide TryAcquire;
    hide Follows;
    hide Watched;
    if w.factoryOk { StartTryingWatches(s.(mutex := Some(t)).(phase := Starting), t, w); }
  }

  lemma WorkingStartWatches(s: State, t: TaskId, o: Outcome, w: World)
    requires Inv(s) && t in s.tasks && s.tasks[t].job == Start && s.tasks[t].pc != WantMutex && Enabled(s, Resume(t, o, w))
    requires t !in Run(s, t, o, w).tasks
    ensures var n := Run(s, t, o, w); n.phase == Stopped || (n.phase == Live && Watched(n))
  {
    BusyIsMid(s, t);
    hide Inv;
    hide Mid;
    hide RolledBack;
    StartRolledBackTo(s, t);
  }

  lemma StartRolledBackTo(s: State, t: TaskId)
    requires t in s.tasks && s.tasks[t].job == Start
    ensures forall m: State, cause: Exc {:trigger RolledBack(m, t, cause)} :: m.tasks == s.tasks ==> RolledBack(m, t, cause).phase == Stopped
  {
  }

  lemma LivingWatchdogWhere(s: State)
    requires Inv(s) && WatchdogLives(s)
    ensures s.phase in {Live, Standby, Restarting}
  {
    assert TaskOk(s, s.watchdog.value);
  }

  /** A `start` that ends leaves a sleeping watchdog, the recorded one, exactly when it leaves the mount live or in standby. */
  lemma StartLeavesAWatchdogIff(s: State, t: TaskId, o: Outcome, w: World)
    requires Inv(s) && t in s.tasks && s.tasks[t].job == Start && s.phase !in {Live, Standby} && Enabled(s, Resume(t, o, w))
    requires t !in Run(s, t, o, w).tasks && (s.tasks[t].pc == WantMutex ==> o == Returns)
    ensures var n := Run(s, t, o, w);
            && (n.phase in {Live, Standby} <==> WatchdogLives(n))
            && (WatchdogLives(n) ==> n.tasks[n.watchdog.value] == Task(Watchdog, Sleeping, false))
  {
    assert TaskOk(s, t);
    var n := Run(s, t, o, w);
    if s.tasks[t].pc == WantMutex { EnteringStartWatches(s, t, w); } else { WorkingStartWatches(s, t, o, w); }
    StepKeepsInv(s, Resume(t, o, w));
    hide Run;
    if WatchdogLives(n) { LivingWatchdogWhere(n); }
    hide Inv;
  }

  /** A request to restart is a restart of a live mount, an acquire of one that kept its lock in standby, and else nothing. */
  lemma RequestIs(s: State)
    ensures var n := Next(s, HttpRestart);
            if s.phase == Live then n == Next(s, Call(Restart))
            else if s.phase == Standby && s.lock.Some? then n == Next(s, Call(Acquire))
            else n == s
  {
  }

  /** The steps in which a live runtime is torn down and rebuilt: its bridge, if it is armed, its gateway, its harness, and the new two. */
  function DownAndUp(bridge: bool, go: Action): seq<Action> {
    (if bridge then [go] else []) + ([go, go] + [go, go])
  }

  /** Requested of a live mount, a restart whose awaited calls return replaces gateway and harness under the same lock. */
  lemma RequestRebuilds(s: State, w: World)
    requires Inv(s) && s.phase == Live && s.gateway.Some? && s.mutex.None? && w.factoryOk && w.buildOk && w.endpointOk
    ensures var go := Resume(s.nextId, Returns, w);
            var run := [HttpRestart] + ([go] + DownAndUp(s.bridge, go));
            Valid(s, run) && Rebuilt(s, s.nextId + 1, s.tasks, After(s, run))
  {
    var t, go := s.nextId, Resume(s.nextId, Returns, w);
    hide *;
    RequestEnters(s, w);
    var s1 := Next(s, HttpRestart);
    TearsDownAndRebuilds(Next(s1, go), s.tasks, t, w);
    RebuiltFrom(s, Next(s1, go), t + 1, s.tasks, After(Next(s1, go), DownAndUp(s.bridge, go)));
    OneMoreStep(s1, go, DownAndUp(s.bridge, go));
    OneMoreStep(s, HttpRestart, [go] + DownAndUp(s.bridge, go));
  }

  lemma RebuiltFrom(s: State, m: State, id: RuntimeId, tasks: map<TaskId, Task>, e: State)
    requires Rebuilt(m, id, tasks, e)
    requires m.gateway == s.gateway && m.stack == s.stack && m.lock == s.lock && m.harnesses == s.harnesses && m.pollers == s.pollers
    ensures Rebuilt(s, id, tasks, e)
  {
  }

  lemma RequestEnters(s: State, w: World)
    requires Inv(s) && s.phase == Live && s.gateway.Some? && s.mutex.None?
    ensures s.stack == s.gateway && Enabled(s, HttpRestart)
    ensures var t := s.nextId;
            var n := Next(s, HttpRestart);
            Enabled(n, Resume(t, Returns, w)) && var e := Next(n, Resume(t, Returns, w));
            && RestartingNow(e, s.tasks, t) && e.gateway == s.gateway && e.stack == s.stack && e.lock == s.lock && e.bridge == s.bridge
            && e.harnesses == s.harnesses && e.pollers == s.pollers && e.nextId == t + 1
  {
    NextIdIsNew(s);
    RestartEnters(s, w);
    hide Inv;
  }

  /** From `s`, the mount went live again with the runtime `id` in the place of the old one, the lock untouched. */
  predicate Rebuilt(s: State, id: RuntimeId, tasks: map<TaskId, Task>, e: State) {
    && s.gateway.Some? && s.stack.Some?
    && e.phase == Live && e.lock == s.lock && e.bridge && e.mutex.None? && e.tasks == tasks
    && e.gateway == Some(id) && e.stack == Some(id)
    && e.harnesses == s.harnesses - {s.stack.value} + {id} && e.pollers == s.pollers - {s.gateway.value} + {id}
  }

  lemma NextIdIsNew(s: State)
    requires Inv(s)
    ensures s.nextId !in s.tasks && (s.gateway.Some? ==> s.stack == s.gateway)
  {
    assert forall t :: t in s.tasks ==> TaskOk(s, t);
  }

  /** A mount inside a restart that is about to stop its gateway, or to wait for its bridge. */
  predicate RestartingNow(s: State, tasks: map<TaskId, Task>, t: TaskId) {
    && s.gateway.Some? && s.stack == s.gateway && s.mutex == Some(t) && t !in tasks
    && s.tasks == tasks[t := Task(Restart, Tearing(if s.bridge then Bridge else StoppingGateway(s.gateway.value), ToRebuild), false)]
  }

  lemma RestartEnters(s: State, w: World)
    requires s.phase == Live && s.gateway.Some? && s.stack == s.gateway && s.mutex.None? && s.nextId !in s.tasks
    ensures var t := s.nextId;
            var n := AddCall(s, Restart);
            Enabled(n, Resume(t, Returns, w)) && var e := Next(n, Resume(t, Returns, w));
            && RestartingNow(e, s.tasks, t) && e.gateway == s.gateway && e.lock == s.lock && e.bridge == s.bridge
            && e.harnesses == s.harnesses && e.pollers == s.pollers && e.nextId == t + 1
  {
  }

  lemma BridgeGoesDown(s: State, tasks: map<TaskId, Task>, t: TaskId, w: World)
    requires RestartingNow(s, tasks, t) && s.bridge
    ensures Enabled(s, Resume(t, Returns, w)) && var e := Next(s, Resume(t, Returns, w));
            && RestartingNow(e, tasks, t) && e.gateway == s.gateway && e.lock == s.lock && !e.bridge
            && e.harnesses == s.harnesses && e.pollers == s.pollers && e.nextId == s.nextId
  {
  }

  lemma TearsDownAndRebuilds(s: State, tasks: map<TaskId, Task>, t: TaskId, w: World)
    requires RestartingNow(s, tasks, t) && w.factoryOk && w.buildOk && w.endpointOk
    ensures var run := DownAndUp(s.bridge, Resume(t, Returns, w));
            Valid(s, run) && Rebuilt(s, s.nextId, tasks, After(s, run))
  {
    hide Next;
    hide Enabled;
    hide Valid;
    hide After;
    var go := Resume(t, Returns, w);
    if s.bridge {
      BridgeGoesDown(s, tasks, t, w);
      Rebuilds(Next(s, go), tasks, t, w);
      OneMoreStep(s, go, [go, go] + [go, go]);
    } else {
      Rebuilds(s, tasks, t, w);
      assert DownAndUp(s.bridge, go) == [go, go] + [go, go];
    }
  }

  lemma TwoDown(s: State, tasks: map<TaskId, Task>, t: TaskId, w: World)
    requires RestartingNow(s, tasks, t) && !s.bridge && w.factoryOk
    ensures var go := Resume(t, Returns, w);
            Enabled(s, go) && Enabled(Next(s, go), go) && var e := Next(Next(s, go), go);
            && e.tasks == tasks[t := Task(Restart, EnteringHarness(s.nextId), false)] && e.lock == s.lock && e.stack == Some(s.nextId)
            && e.gateway.None? && e.harnesses == s.harnesses - {s.stack.value} && e.pollers == s.pollers - {s.gateway.value} && e.mutex == Some(t)
  {
    var s1 := Next(s, Resume(t, Returns, w));
    assert s1.tasks == tasks[t := Task(Restart, Tearing(ClosingStack(s.stack.value), ToRebuild), false)];
  }

  lemma TwoUp(s: State, id: RuntimeId, tasks: map<TaskId, Task>, t: TaskId, w: World)
    requires t !in tasks && s.tasks == tasks[t := Task(Restart, EnteringHarness(id), false)] && s.stack == Some(id)
    requires s.mutex == Some(t) && w.buildOk && w.endpointOk
    ensures var go := Resume(t, Returns, w);
            Enabled(s, go) && Enabled(Next(s, go), go) && var e := Next(Next(s, go), go);
            && e.phase == Live && e.lock == s.lock && e.bridge && e.mutex.None? && e.tasks == tasks && e.gateway == Some(id)
            && e.stack == Some(id) && e.harnesses == s.harnesses + {id} && e.pollers == s.pollers + {id}
  {
    var s1 := Next(s, Resume(t, Returns, w));
    assert s1.tasks == tasks[t := Task(Restart, StartingGateway(id), false)];
  }

  lemma Rebuilds(s: State, tasks: map<TaskId, Task>, t: TaskId, w: World)
    requires RestartingNow(s, tasks, t) && !s.bridge && w.factoryOk && w.buildOk && w.endpointOk
    ensures var go := Resume(t, Returns, w);
            var run := [go, go] + [go, go];
            Valid(s, run) && Rebuilt(s, s.nextId, tasks, After(s, run))
  {
    hide Next;
    hide Enabled;
    hide Valid;
    hide After;
    var go := Resume(t, Returns, w);
    TwoDown(s, tasks, t, w);
    var s2 := Next(Next(s, go), go);
    TwoUp(s2, s.nextId, tasks, t, w);
    TwoSteps(s2, go, go);
    OneMoreStep(Next(s, go), go, [go, go]);
    OneMoreStep(s, go, [go] + [go, go]);
    assert [go] + ([go] + [go, go]) == [go, go] + [go, go];
  }

  // ------------------------------------------------------------------ what is recorded, step by step

  /** What a step's awaited call did. */
  predicate Raised(s: State, a: Action) { a.Resume? && a.task in s.tasks && s.tasks[a.task].pc.Tearing? && a.outcome != Returns }

  predicate Entered(s: State, a: Action) { a.Resume? && a.task in s.tasks && s.tasks[a.task].pc.EnteringHarness? && a.outcome == Returns }

  predicate Closed(s: State, a: Action) { a.Resume? && a.task in s.tasks && s.tasks[a.task].pc.Tearing? && s.tasks[a.task].pc.stage.ClosingStack? }

  predicate Halted(s: State, a: Action) {
    a.Resume? && a.task in s.tasks && s.tasks[a.task].pc.Tearing? && s.tasks[a.task].pc.stage.StoppingGateway? && a.outcome == Returns
  }

  /** A block that starts and ends no harness and no gateway, remembers nothing new, and replaces nothing recorded. */
  predicate Tame(s: State, r: State) {
    && r.watchedCut == s.watchedCut && r.teardownRaised == s.teardownRaised && r.harnesses == s.harnesses && r.pollers == s.pollers
    && (r.gateway.None? || r.gateway == s.gateway) && Replaces(s, r)
  }

  /** What was recorded is recorded still, or nothing is. */
  predicate Replaces(s: State, r: State) {
    && (s.gateway.Some? ==> r.gateway.None? || r.gateway == s.gateway)
    && (s.stack.Some? ==> r.stack.None? || r.stack == s.stack)
  }

  lemma EndIsTame(s: State, t: TaskId)
    ensures Tame(s, End(s, t))
  {
  }

  lemma RolledBackIsTame(s: State, t: TaskId, cause: Exc)
    requires t in s.tasks
    ensures Tame(s, RolledBack(s, t, cause))
  {
    hide Follows;
    hide End;
    hide Park;
    hide Tame;
    var task, m := s.tasks[t], s.(gateway := None, stack := None);
    var n := if task.tookLock then m.(lock := None) else m;
    EndsTame(s, m.(phase := Standby), t);
    EndsTame(s, n.(phase := Stopped), t);
    EndsTame(s, n, t);
  }

  /** A block that cleared what was recorded and then ends or parks. */
  lemma EndsTame(s: State, m: State, t: TaskId)
    requires t in s.tasks && m == s.(gateway := None, stack := None, phase := m.phase, lock := m.lock)
    ensures Tame(s, End(m, t)) && Tame(s, Park(m, t, Sleeping))
  {
  }

  lemma RollBackIsTame(s: State, t: TaskId, cause: Exc)
    requires t in s.tasks
    ensures Tame(s, RollBack(s, t, cause))
  {
    RolledBackIsTame(s, t, cause);
    hide RolledBack;
    hide Follows;
  }

  lemma DemotedIsTame(s: State, t: TaskId, exc: Option<Exc>)
    requires t in s.tasks
    ensures Tame(s, Demoted(s, t, exc))
  {
    hide Follows;
  }

  lemma TornDownIsTame(s: State, t: TaskId, why: Why, w: World)
    requires t in s.tasks && s.stack.None?
    ensures Tame(s, TornDown(s, t, why, w))
  {
    hide Follows;
    hide RolledBack;
    hide RollBack;
    hide Demoted;
    match why
    case ToStop =>
    case ToRebuild => if !w.factoryOk { RollBackIsTame(s, t, Failed); }
    case ToDemote => DemotedIsTame(s, t, None);
    case ToRollBack(cause) => RolledBackIsTame(s, t, cause);
  }

  lemma TeardownIsTame(s: State, t: TaskId, why: Why, w: World, from: nat)
    requires t in s.tasks
    ensures Tame(s, Teardown(s, t, why, w, from))
  {
    hide Follows;
    hide TornDown;
    if StageFrom(s, from).None? { TornDownIsTame(s, t, why, w); }
  }

  lemma TryAcquireIsTame(s: State, t: TaskId, w: World)
    requires t in s.tasks
    ensures Tame(s, TryAcquire(s, t, w))
  {
    hide Follows;
    hide NotLive;
    hide LockRaised;
    NotLiveIsTame(s, t);
  }

  lemma NotLiveIsTame(s: State, t: TaskId)
    requires t in s.tasks
    ensures Tame(s, NotLive(s, t)) && Tame(s, LockRaised(s, t))
  {
    hide Follows;
    hide End;
    hide Park;
    hide SpawnWatchdog;
    hide Tame;
    ParkIsTame(s, t, Sleeping);
    EndIsTame(s, t);
    EndIsTame(s.(phase := Stopped), t);
    ThroughMutex(s, s.(phase := Stopped));
    SpawnIsTame(s, t);
  }

  lemma SpawnIsTame(s: State, t: TaskId)
    ensures Tame(s, End(SpawnWatchdog(s.(phase := Standby)), t))
  {
  }

  lemma BroughtUpIsTame(s: State, t: TaskId, w: World)
    requires t in s.tasks
    ensures Tame(s, BroughtUp(s, t, w))
  {
    hide Follows;
    hide RollBack;
    if s.tasks[t].job == Restart && !w.endpointOk { RollBackIsTame(s.(bridge := true), t, Failed); }
  }

  lemma EnterIsTame(s: State, t: TaskId, w: World)
    requires t in s.tasks
    ensures Tame(s, Enter(s, t, w))
  {
    hide Follows;
    hide TryAcquire;
    hide Teardown;
    hide End;
    hide Tame;
    hide Park;
    var m := s.(mutex := Some(t));
    ThroughMutex(s, m);
    ThroughMutex(s, m.(phase := Starting));
    ThroughMutex(s, m.(phase := Restarting));
    ParkIsTame(m, t, AwaitWatchdog);
    match s.tasks[t].job
    case Start =>
      EndIsTame(m, t);
      EndIsTame(m.(phase := Starting), t);
      TryAcquireIsTame(m.(phase := Starting), t, w);
    case Acquire =>
      EndIsTame(m, t);
      TryAcquireIsTame(m, t, w);
    case Restart =>
      EndIsTame(m, t);
      TeardownIsTame(m.(phase := Restarting), t, ToRebuild, w, 0);
    case Stop =>
      EndIsTame(m, t);
      TeardownIsTame(m, t, ToStop, w, 0);
    case Watchdog => ParkIsTame(m, t, s.tasks[t].pc);
  }

  lemma ParkIsTame(s: State, t: TaskId, pc: Pc)
    requires t in s.tasks
    ensures Tame(s, Park(s, t, pc)) && Tame(s, s)
  {
  }

  /** What is tame from where a block sets mutex and phase is tame from its start. */
  lemma ThroughMutex(s: State, m: State)
    requires m == s.(mutex := m.mutex, phase := m.phase)
    ensures forall r: State {:trigger Tame(m, r)} :: Tame(m, r) ==> Tame(s, r)
  {
  }

  lemma PollIsTame(s: State, t: TaskId, w: World)
    requires t in s.tasks
    ensures Tame(s, Poll(s, t, w))
  {
    hide Follows;
    hide TryAcquire;
    hide Teardown;
    TryAcquireIsTame(s, t, w);
    TeardownIsTame(s.(phase := Standby), t, ToDemote, w, 0);
  }

  /** A teardown call that raises is remembered, and of a roll-back it cuts, whose it was. */
  lemma FailedTeardownIs(s: State, t: TaskId, why: Why, exc: Exc)
    requires t in s.tasks
    ensures var r := TeardownFailed(s, t, why, exc);
            && r.teardownRaised && r.harnesses == s.harnesses && r.pollers == s.pollers && (r.gateway.None? || r.gateway == s.gateway) && Replaces(s, r)
            && (r.watchedCut <==> s.watchedCut || (why.ToRollBack? && exc == Cancelled && s.tasks[t].job == Restart && WatchdogLives(s)))
  {
    hide Follows;
    hide RolledBack;
    hide RollBack;
    hide Demoted;
    var m := s.(teardownRaised := true);
    match why
    case ToStop =>
    case ToRebuild => RollBackIsTame(m, t, exc);
    case ToDemote => DemotedIsTame(m, t, Some(exc));
    case ToRollBack(cause) => if exc == Failed { RolledBackIsTame(m, t, cause); }
  }

  /** All of it for one step. */
  predicate StepIs(s: State, a: Action, n: State)
    requires Enabled(s, a)
  {
    && (n.watchedCut <==> s.watchedCut || CutsWatchedRestart(s, a))
    && (n.teardownRaised <==> s.teardownRaised || Raised(s, a))
    && n.harnesses == s.harnesses + (if Entered(s, a) then {s.tasks[a.task].pc.id} else {})
                                  - (if Closed(s, a) then {s.tasks[a.task].pc.stage.stack} else {})
    && n.pollers == s.pollers + (if Entered(s, a) && a.world.buildOk then {s.tasks[a.task].pc.id} else {})
                              - (if Halted(s, a) then {s.tasks[a.task].pc.stage.gateway} else {})
    && (Replaces(s, n) || (Closed(s, a) && a.outcome == Returns && s.stack == Some(s.tasks[a.task].pc.stage.stack)
                           && (s.gateway.Some? ==> n.gateway.None? || n.gateway == s.gateway)))
  }

  lemma TearingStepIs(s: State, t: TaskId, o: Outcome, w: World)
    requires Enabled(s, Resume(t, o, w)) && s.tasks[t].pc.Tearing? && Recorded(s, s.tasks[t].pc)
    ensures StepIs(s, Resume(t, o, w), Run(s, t, o, w))
  {
    hide Follows;
    hide Teardown;
    hide TornDown;
    hide TeardownFailed;
    var why := s.tasks[t].pc.why;
    match s.tasks[t].pc.stage
    case Bridge => TeardownIsTame(s.(bridge := false), t, why, w, 1);
    case StoppingGateway(g) =>
      if o == Returns { TeardownIsTame(s.(gateway := None, pollers := s.pollers - {g}), t, why, w, 2); }
      else { FailedTeardownIs(s, t, why, Fault(o)); }
    case ClosingStack(k) =>
      if o == Returns { TornDownIsTame(Emptied(s, k).(stack := None), t, why, w); }
      else { FailedTeardownIs(Emptied(s, k), t, why, Fault(o)); }
  }

  lemma EnteringStepIs(s: State, t: TaskId, o: Outcome, w: World)
    requires Enabled(s, Resume(t, o, w)) && s.tasks[t].pc.EnteringHarness? && Recorded(s, s.tasks[t].pc)
    ensures StepIs(s, Resume(t, o, w), Run(s, t, o, w))
  {
    hide Follows;
    hide RollBack;
    if o != Returns { RollBackIsTame(s, t, Fault(o)); }
    else if !w.buildOk { RollBackIsTame(s.(harnesses := s.harnesses + {s.tasks[t].pc.id}), t, Failed); }
  }

  lemma TameStepIs(s: State, a: Action, n: State)
    requires Enabled(s, a) && Tame(s, n) && (a.Resume? ==> !s.tasks[a.task].pc.Tearing? && !s.tasks[a.task].pc.EnteringHarness?)
    ensures StepIs(s, a, n)
  {
  }

  lemma EveryStepIs(s: State, a: Action)
    requires Inv(s) && Enabled(s, a)
    ensures StepIs(s, a, Next(s, a))
  {
    if a.Resume? {
      var t, o, w := a.task, a.outcome, a.world;
      assert TaskOk(s, t);
      hide Inv;
      hide Follows;
      hide Enter;
      hide Poll;
      hide Teardown;
      hide RollBack;
      hide BroughtUp;
      hide End;
      hide TornOn;
      EndIsTame(s, t);
      match s.tasks[t].pc
      case WantMutex => EnterIsTame(s, t, w);
      case Sleeping => PollIsTame(s, t, w);
      case AwaitWatchdog => TeardownIsTame(s.(watchdog := None), t, ToStop, w, 0);
      case Tearing(_, _) => TearingStepIs(s, t, o, w);
      case EnteringHarness(_) => EnteringStepIs(s, t, o, w);
      case StartingGateway(_) => if o == Returns { BroughtUpIsTame(s, t, w); } else { RollBackIsTame(s, t, Fault(o)); }
      hide StepIs;
      if !s.tasks[t].pc.Tearing? && !s.tasks[t].pc.EnteringHarness? { TameStepIs(s, a, Next(s, a)); }
    }
  }

  /** What remembers cuts and raising calls remembers these and nothing else. */
  lemma RememberedIs(s: State, a: Action)
    requires Inv(s) && Enabled(s, a)
    ensures var n := Next(s, a);
            && (n.watchedCut <==> s.watchedCut || CutsWatchedRestart(s, a))
            && (n.teardownRaised <==> s.teardownRaised || Raised(s, a))
  {
    EveryStepIs(s, a);
    hide Inv;
    hide Next;
  }

  /** A harness is open from its entering to the call that closes it, and a gateway polls from its construction to a stop that returns. */
  lemma RunningIs(s: State, a: Action)
    requires Inv(s) && Enabled(s, a)
    ensures var n := Next(s, a);
            && n.harnesses == s.harnesses + (if Entered(s, a) then {s.tasks[a.task].pc.id} else {})
                                          - (if Closed(s, a) then {s.tasks[a.task].pc.stage.stack} else {})
            && n.pollers == s.pollers + (if Entered(s, a) && a.world.buildOk then {s.tasks[a.task].pc.id} else {})
                                      - (if Halted(s, a) then {s.tasks[a.task].pc.stage.gateway} else {})
  {
    EveryStepIs(s, a);
    hide Inv;
    hide Next;
  }

  /** No step puts another gateway or exit stack in the place of a recorded one, but for a stack whose closing has just returned. */
  lemma NothingIsOverwritten(s: State, a: Action)
    requires Inv(s) && Enabled(s, a)
    ensures var n := Next(s, a);
            && (s.gateway.Some? ==> n.gateway.None? || n.gateway == s.gateway)
            && (s.stack.Some? ==> n.stack.None? || n.stack == s.stack
                                  || (Closed(s, a) && a.outcome == Returns && s.tasks[a.task].pc.stage.stack == s.stack.value))
  {
    EveryStepIs(s, a);
    hide Inv;
    hide Next;
  }
}
