/** Why the fleet's safety needs its hypothesis on cut restarts: a watchdog nobody cancels works on after a stop. */
module MountStray {
  import opened Wrappers
  import opened Mount
  import opened MountOutcomes
  import opened MountFleet

  function Granted(path: Inode): World { World(true, true, Some(path), true, true, true, true) }

  const Denied := World(true, true, None, true, true, true, true)

  const Asleep := Task(Watchdog, Sleeping, false)

  function Go(t: TaskId): Action { Resume(t, Returns, Denied) }

  // ------------------------------------------------------------------ one mount

  /** A mount that is live under its lock, with its watchdog asleep. */
  function LiveMount(path: Inode): State {
    State(Live, Some(1), Some(1), Some(path), true, Some(2), None, map[2 := Asleep], 3, {1}, {1}, false, false, false, false)
  }

  lemma GoesLive(path: Inode)
    ensures var run := [Call(Start), Resume(0, Returns, Granted(path)), Go(0), Go(0)];
            Valid(Init, run) && After(Init, run) == LiveMount(path)
  {
    var s0 := Init;
    var s1 := Next(s0, Call(Start));
    var s2 := Next(s1, Resume(0, Returns, Granted(path)));
    assert s2.tasks == map[0 := Task(Start, EnteringHarness(1), true)];
    var s3 := Next(s2, Go(0));
    assert s3.tasks == map[0 := Task(Start, StartingGateway(1), true)];
    var s4 := Next(s3, Go(0));
    assert s4 == LiveMount(path);
    hide Next;
    TwoSteps(s2, Go(0), Go(0));
    var r2 := [Go(0), Go(0)];
    OneMoreStep(s1, Resume(0, Returns, Granted(path)), r2);
    var r1 := [Resume(0, Returns, Granted(path))] + r2;
    OneMoreStep(s0, Call(Start), r1);
    assert [Call(Start)] + r1 == [Call(Start), Resume(0, Returns, Granted(path)), Go(0), Go(0)];
  }

  /** It restarts, and its old runtime is all but down. */
  function RestartingMount(path: Inode): State {
    State(Restarting, None, Some(1), Some(path), false, Some(2), Some(3),
          map[2 := Asleep, 3 := Task(Restart, Tearing(ClosingStack(1), ToRebuild), false)], 4, {1}, {}, false, false, false, false)
  }

  lemma RestartTearsDown(path: Inode)
    ensures var run := [Call(Restart), Go(3), Go(3), Go(3)];
            Valid(LiveMount(path), run) && After(LiveMount(path), run) == RestartingMount(path)
  {
    var s0 := LiveMount(path);
    var s1 := Next(s0, Call(Restart));
    var s2 := Next(s1, Go(3));
    assert s2.tasks == map[2 := Asleep, 3 := Task(Restart, Tearing(Bridge, ToRebuild), false)];
    var s3 := Next(s2, Go(3));
    assert s3.tasks == map[2 := Asleep, 3 := Task(Restart, Tearing(StoppingGateway(1), ToRebuild), false)];
    var s4 := Next(s3, Go(3));
    assert s4 == RestartingMount(path);
    hide Next;
    TwoSteps(s2, Go(3), Go(3));
    var r2 := [Go(3), Go(3)];
    OneMoreStep(s1, Go(3), r2);
    var r1 := [Go(3)] + r2;
    OneMoreStep(s0, Call(Restart), r1);
    assert [Call(Restart)] + r1 == [Call(Restart), Go(3), Go(3), Go(3)];
  }

  /** The rebuild enters its harness and fails, and the roll-back is cut while the harness closes and the watchdog sleeps. */
  function CutMount(path: Inode): State {
    State(Restarting, None, Some(4), Some(path), false, Some(2), None, map[2 := Asleep], 5, {}, {}, false, true, false, true)
  }

  lemma RestartIsCut(path: Inode)
    ensures var run := [Go(3), Resume(3, Returns, Denied.(buildOk := false)), Resume(3, IsCancelled, Denied)];
            Valid(RestartingMount(path), run) && After(RestartingMount(path), run) == CutMount(path)
  {
    var s0 := RestartingMount(path);
    var s1 := Next(s0, Go(3));
    assert s1.tasks == map[2 := Asleep, 3 := Task(Restart, EnteringHarness(4), false)];
    var s2 := Next(s1, Resume(3, Returns, Denied.(buildOk := false)));
    assert s2.tasks == map[2 := Asleep, 3 := Task(Restart, Tearing(ClosingStack(4), ToRollBack(Failed)), false)] && s2.harnesses == {4};
    var s3 := Next(s2, Resume(3, IsCancelled, Denied));
    assert s3 == CutMount(path);
    hide Next;
    TwoSteps(s1, Resume(3, Returns, Denied.(buildOk := false)), Resume(3, IsCancelled, Denied));
    var r1 := [Resume(3, Returns, Denied.(buildOk := false)), Resume(3, IsCancelled, Denied)];
    OneMoreStep(s0, Go(3), r1);
    assert [Go(3)] + r1 == [Go(3), Resume(3, Returns, Denied.(buildOk := false)), Resume(3, IsCancelled, Denied)];
  }

  /** The next start installs a second watchdog. */
  function StrayMount(path: Inode): State {
    State(Standby, None, Some(4), Some(path), false, Some(6), None, map[2 := Asleep, 6 := Asleep], 7, {}, {}, false, true, false, true)
  }

  lemma StartAddsAWatchdog(path: Inode)
    ensures var run := [Call(Start), Go(5)];
            Valid(CutMount(path), run) && After(CutMount(path), run) == StrayMount(path)
  {
    var s0 := CutMount(path);
    var s1 := Next(s0, Call(Start));
    var s2 := Next(s1, Go(5));
    assert s2 == StrayMount(path);
    hide Next;
    TwoSteps(s0, Call(Start), Go(5));
  }

  /** The next stop cancels that one alone. */
  function StoppedMount(): State {
    State(Stopped, None, None, None, false, None, None, map[2 := Asleep], 8, {}, {}, false, true, false, true)
  }

  lemma StopLeavesAStray(path: Inode)
    ensures var run := [Call(Stop), Go(7), Resume(6, IsCancelled, Denied), Go(7), Go(7)];
            Valid(StrayMount(path), run) && After(StrayMount(path), run) == StoppedMount()
  {
    var s0 := StrayMount(path);
    var s1 := Next(s0, Call(Stop));
    var s2 := Next(s1, Go(7));
    assert s2.tasks == map[2 := Asleep, 6 := Asleep, 7 := Task(Stop, AwaitWatchdog, false)];
    var s3 := Next(s2, Resume(6, IsCancelled, Denied));
    assert s3.tasks == map[2 := Asleep, 7 := Task(Stop, AwaitWatchdog, false)];
    var s4 := Next(s3, Go(7));
    assert s4.tasks == map[2 := Asleep, 7 := Task(Stop, Tearing(ClosingStack(4), ToStop), false)];
    var s5 := Next(s4, Go(7));
    assert s5 == StoppedMount();
    hide Next;
    TwoSteps(s3, Go(7), Go(7));
    var r3 := [Go(7), Go(7)];
    OneMoreStep(s2, Resume(6, IsCancelled, Denied), r3);
    var r2 := [Resume(6, IsCancelled, Denied)] + r3;
    OneMoreStep(s1, Go(7), r2);
    var r1 := [Go(7)] + r2;
    OneMoreStep(s0, Call(Stop), r1);
    assert [Call(Stop)] + r1 == [Call(Stop), Go(7), Resume(6, IsCancelled, Denied), Go(7), Go(7)];
  }

  /** A start that finds the lock taken leaves the mount in standby, and there the stray watchdog promotes it. */
  function PromotingMount(path: Inode): State {
    State(Standby, None, Some(10), Some(path), false, Some(9), None, map[2 := Task(Watchdog, EnteringHarness(10), true), 9 := Asleep],
          11, {}, {}, false, true, false, true)
  }

  lemma StrayPromotes(path: Inode)
    ensures var run := [Call(Start), Go(8), Resume(2, Returns, Granted(path))];
            Valid(StoppedMount(), run) && After(StoppedMount(), run) == PromotingMount(path)
  {
    var s0 := StoppedMount();
    var s1 := Next(s0, Call(Start));
    var s2 := Next(s1, Go(8));
    assert s2.tasks == map[2 := Asleep, 9 := Asleep] && s2.phase == Standby;
    var s3 := Next(s2, Resume(2, Returns, Granted(path)));
    assert s3.tasks == map[2 := Task(Watchdog, EnteringHarness(10), true), 9 := Asleep];
    assert s3 == PromotingMount(path);
    hide Next;
    TwoSteps(s1, Go(8), Resume(2, Returns, Granted(path)));
    var r1 := [Go(8), Resume(2, Returns, Granted(path))];
    OneMoreStep(s0, Call(Start), r1);
    assert [Call(Start)] + r1 == [Call(Start), Go(8), Resume(2, Returns, Granted(path))];
  }

  /** A stop closes what it finds and gives up the lock. */
  function AbandonedMount(): State {
    State(Stopped, None, None, None, false, None, None, map[2 := Task(Watchdog, EnteringHarness(10), true)], 12, {}, {}, false, true, false, true)
  }

  lemma StopLeavesAPromotion(path: Inode)
    ensures var run := [Call(Stop), Go(11), Resume(9, IsCancelled, Denied), Go(11), Go(11)];
            Valid(PromotingMount(path), run) && After(PromotingMount(path), run) == AbandonedMount()
  {
    var s0 := PromotingMount(path);
    var s1 := Next(s0, Call(Stop));
    var s2 := Next(s1, Go(11));
    assert s2.tasks == map[2 := Task(Watchdog, EnteringHarness(10), true), 9 := Asleep, 11 := Task(Stop, AwaitWatchdog, false)];
    var s3 := Next(s2, Resume(9, IsCancelled, Denied));
    assert s3.tasks == map[2 := Task(Watchdog, EnteringHarness(10), true), 11 := Task(Stop, AwaitWatchdog, false)];
    var s4 := Next(s3, Go(11));
    assert s4.tasks == map[2 := Task(Watchdog, EnteringHarness(10), true), 11 := Task(Stop, Tearing(ClosingStack(10), ToStop), false)];
    var s5 := Next(s4, Go(11));
    assert s5 == AbandonedMount();
    hide Next;
    TwoSteps(s3, Go(11), Go(11));
    var r3 := [Go(11), Go(11)];
    OneMoreStep(s2, Resume(9, IsCancelled, Denied), r3);
    var r2 := [Resume(9, IsCancelled, Denied)] + r3;
    OneMoreStep(s1, Go(11), r2);
    var r1 := [Go(11)] + r2;
    OneMoreStep(s0, Call(Stop), r1);
    assert [Call(Stop)] + r1 == [Call(Stop), Go(11), Resume(9, IsCancelled, Denied), Go(11), Go(11)];
  }

  /** The promotion goes on, and records a gateway without a lock. */
  function LeakyMount(): State {
    State(Stopped, Some(10), None, None, false, None, None, map[2 := Task(Watchdog, StartingGateway(10), true)],
          12, {10}, {10}, false, true, false, true)
  }

  lemma PromotionGoesOn()
    ensures Valid(AbandonedMount(), [Go(2)]) && After(AbandonedMount(), [Go(2)]) == LeakyMount()
  {
    assert Next(AbandonedMount(), Go(2)) == LeakyMount();
    assert Valid(LeakyMount(), []) && After(LeakyMount(), []) == LeakyMount();
    hide Next;
    OneMoreStep(AbandonedMount(), Go(2), []);
    assert [Go(2)] + [] == [Go(2)];
  }

  // ------------------------------------------------------------------ in a fleet

  /** A fleet in which the first mount alone has done anything. */
  function Lone(size: nat, s: State, path: Inode): Fleet {
    Fleet(seq(size, i => if i == 0 then s else Init), path, if s.lock.Some? then map[path := 0] else map[], false)
  }

  /** A handle comes back only for the file's inode, and only while the mount has none. */
  predicate Honestly(s: State, a: Action, path: Inode) {
    a.Resume? && a.world.got.Some? ==> a.world.got == Some(path) && s.lock.None?
  }

  predicate AllHonest(s: State, run: seq<Action>, path: Inode)
    requires Valid(s, run)
    decreases |run|
  {
    run == [] || (Honestly(s, run[0], path) && AllHonest(Next(s, run[0]), run[1..], path))
  }

  lemma {:induction false} WithoutGrants(s: State, run: seq<Action>, path: Inode)
    requires Valid(s, run) && forall i :: 0 <= i < |run| && run[i].Resume? ==> run[i].world.got.None?
    ensures AllHonest(s, run, path)
    decreases |run|
  {
    hide Next;
    if run != [] { WithoutGrants(Next(s, run[0]), run[1..], path); }
  }

  lemma LoneStep(size: nat, s: State, a: Action, path: Inode)
    requires size > 0 && Enabled(s, a) && Honestly(s, a, path) && s.lock in {None, Some(path)}
    ensures Next(s, a).lock in {None, Some(path)} && Reaches(Lone(size, s, path), Lone(size, Next(s, a), path))
  {
    NextFollows(s, a);
    hide Enabled;
    var n := Next(s, a);
    hide Next;
    var f, g := Lone(size, s, path), Lone(size, n, path);
    assert f.mounts[0 := n] == g.mounts;
    OneStepReaches(f, Step(0, a));
  }

  lemma {:induction false} LoneRun(size: nat, s: State, run: seq<Action>, path: Inode)
    requires size > 0 && Valid(s, run) && AllHonest(s, run, path) && s.lock in {None, Some(path)}
    ensures After(s, run).lock in {None, Some(path)} && Reaches(Lone(size, s, path), Lone(size, After(s, run), path))
    decreases |run|
  {
    hide Next;
    hide Enabled;
    hide Lone;
    if run == [] {
      assert FleetValid(Lone(size, s, path), []) && FleetAfter(Lone(size, s, path), []) == Lone(size, s, path);
    } else {
      var n := Next(s, run[0]);
      LoneStep(size, s, run[0], path);
      LoneRun(size, n, run[1..], path);
      ReachesOn(Lone(size, s, path), Lone(size, n, path), Lone(size, After(s, run), path));
    }
  }

  lemma QuietRun(size: nat, s: State, run: seq<Action>, path: Inode, e: State)
    requires size > 0 && Valid(s, run) && After(s, run) == e && s.lock in {None, Some(path)}
    requires forall i :: 0 <= i < |run| && run[i].Resume? ==> run[i].world.got.None?
    ensures Reaches(Lone(size, s, path), Lone(size, e, path))
  {
    WithoutGrants(s, run, path);
    LoneRun(size, s, run, path);
  }

  lemma ReachesLive(size: nat, path: Inode)
    requires size > 0
    ensures Reaches(Lone(size, Init, path), Lone(size, LiveMount(path), path))
  {
    var a, b := Call(Start), Resume(0, Returns, Granted(path));
    var run := [a, b, Go(0), Go(0)];
    GoesLive(path);
    assert Next(Init, a).lock.None?;
    assert run[1..] == [b, Go(0), Go(0)] && run[1..][1..] == [Go(0), Go(0)];
    hide Next;
    WithoutGrants(Next(Next(Init, a), b), [Go(0), Go(0)], path);
    assert AllHonest(Next(Init, a), [b, Go(0), Go(0)], path);
    LoneRun(size, Init, run, path);
  }

  lemma ReachesPromotion(size: nat, path: Inode)
    requires size > 0
    ensures Reaches(Lone(size, StoppedMount(), path), Lone(size, PromotingMount(path), path))
  {
    var a, b, c := Call(Start), Go(8), Resume(2, Returns, Granted(path));
    var run, s := [a, b, c], StoppedMount();
    StrayPromotes(path);
    assert Next(Next(s, a), b).lock.None?;
    assert run[1..] == [b, c] && run[1..][1..] == [c] && [c][1..] == [];
    hide Next;
    assert AllHonest(Next(Next(s, a), b), [c], path);
    assert AllHonest(Next(s, a), [b, c], path);
    LoneRun(size, s, run, path);
  }

  lemma ReachesStopped(size: nat, path: Inode)
    requires size > 0
    ensures Reaches(Lone(size, Init, path), Lone(size, StoppedMount(), path))
  {
    hide Reaches;
    hide Lone;
    var start := Lone(size, Init, path);
    ReachesLive(size, path);
    RestartTearsDown(path);
    QuietRun(size, LiveMount(path), [Call(Restart), Go(3), Go(3), Go(3)], path, RestartingMount(path));
    ReachesOn(start, Lone(size, LiveMount(path), path), Lone(size, RestartingMount(path), path));
    RestartIsCut(path);
    QuietRun(size, RestartingMount(path), [Go(3), Resume(3, Returns, Denied.(buildOk := false)), Resume(3, IsCancelled, Denied)], path, CutMount(path));
    ReachesOn(start, Lone(size, RestartingMount(path), path), Lone(size, CutMount(path), path));
    StartAddsAWatchdog(path);
    QuietRun(size, CutMount(path), [Call(Start), Go(5)], path, StrayMount(path));
    ReachesOn(start, Lone(size, CutMount(path), path), Lone(size, StrayMount(path), path));
    StopLeavesAStray(path);
    QuietRun(size, StrayMount(path), [Call(Stop), Go(7), Resume(6, IsCancelled, Denied), Go(7), Go(7)], path, StoppedMount());
    ReachesOn(start, Lone(size, StrayMount(path), path), Lone(size, StoppedMount(), path));
  }

  /** From there on no lock is granted but to the stray watchdog. */
  lemma ReachesLeak(size: nat, path: Inode)
    requires size > 0
    ensures Reaches(Lone(size, Init, path), Lone(size, LeakyMount(), path))
  {
    hide Reaches;
    hide Lone;
    var start := Lone(size, Init, path);
    ReachesStopped(size, path);
    ReachesPromotion(size, path);
    ReachesOn(start, Lone(size, StoppedMount(), path), Lone(size, PromotingMount(path), path));
    StopLeavesAPromotion(path);
    QuietRun(size, PromotingMount(path), [Call(Stop), Go(11), Resume(9, IsCancelled, Denied), Go(11), Go(11)], path, AbandonedMount());
    ReachesOn(start, Lone(size, PromotingMount(path), path), Lone(size, AbandonedMount(), path));
    PromotionGoesOn();
    QuietRun(size, AbandonedMount(), [Go(2)], path, LeakyMount());
    ReachesOn(start, Lone(size, AbandonedMount(), path), Lone(size, LeakyMount(), path));
  }

  /**
   The hypothesis on cut restarts is needed: in every fleet of two or more, with the lock file never replaced, one
   restart cut under its watchdog leads to two mounts with a runtime, the first without any lock.
  */
  lemma CutRestartAdmitsTwo(size: nat, path: Inode)
    requires size >= 2
    ensures exists f :: Reaches(FleetInit(size, path), f) && |f.mounts| == size && !f.replaced
              && f.mounts[0].watchedCut && !f.mounts[1].watchedCut && HasRuntime(f.mounts[0]) && HasRuntime(f.mounts[1])
  {
    var f := Lone(size, LeakyMount(), path);
    ReachesLeak(size, path);
    assert Lone(size, Init, path).mounts == FleetInit(size, path).mounts;
    var g := FleetNext(f, Step(1, Call(Start)));
    assert g.mounts[1].tasks == map[0 := Task(Start, WantMutex, false)] && g.holder == map[];
    var go := Step(1, Resume(0, Returns, Granted(path)));
    var h := FleetNext(g, go);
    assert h.mounts[1].stack == Some(1) && h.mounts[0] == LeakyMount();
    OneStepReaches(f, Step(1, Call(Start)));
    OneStepReaches(g, go);
    hide Reaches;
    ReachesOn(FleetInit(size, path), f, g);
    ReachesOn(FleetInit(size, path), g, h);
  }
}
