/** Any number of mounts in different processes, contending for one lock file. */
module MountFleet {
  import opened Wrappers
  import opened Mount
  import opened MountSafety
  import Kernel = SingletonLock

  /**
   `path` is the inode the lock file's name leads to and `holder` says which mount's handle holds the
   flock on an inode. `replaced` remembers that the file was unlinked and created anew.
  */
  datatype Fleet = Fleet(mounts: seq<State>, path: Inode, holder: map<Inode, nat>, replaced: bool)

  datatype FleetAction = Step(mount: nat, action: Action) | ReplaceLockFile(inode: Inode)

  /**
   What the lock file can answer a mount: a handle comes back only for the inode on disk, when nobody
   holds it (`GrantsAreHonest` proves this of the retry loop). A refusal, a failed ownership check
   and a probe's answer are left unconstrained, since a stat or an open may fail spuriously.
  */
  predicate Honest(f: Fleet, w: World) { w.got.Some? ==> w.got == Some(f.path) && f.path !in f.holder }

  /** The fleet sees the lock file as the kernel does, but for the flock that this description holds. */
  predicate Sees(f: Fleet, os: Kernel.Os, fd: Kernel.Fd) {
    os.path == Some(f.path) && f.holder.Keys == set i | i in os.holder && os.holder[i] != fd
  }

  /**
   Whatever other processes do while `acquire_singleton_lock` runs: when it returns a handle, a fleet that sees the kernel
   as it is by then is given an honest answer, and once the mount has taken it, the flock tables are the same.
  */
  method GrantsAreHonest(start: Kernel.Os, held: set<Kernel.Fd>, others: nat -> seq<Kernel.Other>, stats: nat -> bool)
    returns (os: Kernel.Os, handle: Option<Kernel.Fd>, got: Option<Inode>)
    requires Kernel.WellFormed(start) && Kernel.Below(held, start)
    ensures Kernel.WellFormed(os) && (handle.Some? <==> got.Some?)
    ensures handle.Some? ==> Kernel.Holds(os, handle.value) && os.files[handle.value] == got.value
    ensures forall f: Fleet, w: World :: (handle.Some? ==> Sees(f, os, handle.value)) && w.got == got ==> Honest(f, w)
    ensures forall f: Fleet, m: nat :: handle.Some? && Sees(f, os, handle.value) ==> Relock(f.holder, m, None, got).Keys == os.holder.Keys
  {
    hide Kernel.SameFor;
    var refusal, taken;
    os, handle, refusal, taken := Kernel.AcquireSingletonLock(start, held, others, stats);
    got := if handle.Some? then Some(os.files[handle.value]) else None;
    if handle.Some? {
      HeldOnce(os, handle.value);
      forall f: Fleet, m: nat | Sees(f, os, handle.value) ensures Relock(f.holder, m, None, got).Keys == os.holder.Keys {
        assert Relock(f.holder, m, None, got).Keys == f.holder.Keys + {got.value};
      }
    }
  }

  lemma HeldOnce(os: Kernel.Os, fd: Kernel.Fd)
    requires Kernel.WellFormed(os) && Kernel.Holds(os, fd)
    ensures os.holder.Keys == (set i | i in os.holder && os.holder[i] != fd) + {os.files[fd]}
    ensures os.files[fd] !in (set i | i in os.holder && os.holder[i] != fd)
  {
  }

  predicate CanStep(f: Fleet, fa: FleetAction) {
    match fa
    case Step(m, a) => m < |f.mounts| && Enabled(f.mounts[m], a) && (a.Resume? ==> Honest(f, a.world))
    case ReplaceLockFile(i) => i != f.path && i !in f.holder
  }

  /** The kernel's view after a mount's lock field went from `before` to `now`. */
  function Relock(holder: map<Inode, nat>, m: nat, before: Option<Inode>, now: Option<Inode>): map<Inode, nat> {
    if before == now then holder
    else
      var released := if before.Some? then holder - {before.value} else holder;
      if now.Some? then released[now.value := m] else released
  }

  function FleetNext(f: Fleet, fa: FleetAction): Fleet
    requires CanStep(f, fa)
  {
    match fa
    case Step(m, a) =>
      var n := Next(f.mounts[m], a);
      f.(mounts := f.mounts[m := n], holder := Relock(f.holder, m, f.mounts[m].lock, n.lock))
    case ReplaceLockFile(i) => f.(path := i, replaced := true)
  }

  predicate FleetValid(f: Fleet, run: seq<FleetAction>)
    decreases |run|
  {
    run == [] || (CanStep(f, run[0]) && FleetValid(FleetNext(f, run[0]), run[1..]))
  }

  function FleetAfter(f: Fleet, run: seq<FleetAction>): (r: Fleet)
    requires FleetValid(f, run)
    ensures |r.mounts| == |f.mounts|
    decreases |run|
  {
    if run == [] then f else FleetAfter(FleetNext(f, run[0]), run[1..])
  }

  function FleetInit(size: nat, path: Inode): Fleet {
    Fleet(seq(size, _ => Init), path, map[], false)
  }

  /** The flock table and the mounts' handles describe one another. */
  predicate LocksAgree(f: Fleet) {
    && (forall m :: 0 <= m < |f.mounts| && f.mounts[m].lock.Some? ==>
          f.mounts[m].lock.value in f.holder && f.holder[f.mounts[m].lock.value] == m)
    && (forall i :: i in f.holder ==> f.holder[i] < |f.mounts| && f.mounts[f.holder[i]].lock == Some(i))
  }

  predicate FleetInv(f: Fleet) {
    && (forall m :: 0 <= m < |f.mounts| ==> f.mounts[m].watchedCut || Inv(f.mounts[m]))
    && LocksAgree(f)
    && (!f.replaced ==> forall i :: i in f.holder ==> i == f.path)
  }

  lemma NextFollows(s: State, a: Action)
    requires Enabled(s, a)
    ensures Follows(s, Next(s, a), if a.Resume? then a.world.got else None)
  {
  }

  lemma FleetStepKeepsInv(f: Fleet, fa: FleetAction)
    requires FleetInv(f) && CanStep(f, fa)
    ensures FleetInv(FleetNext(f, fa))
  {
    if fa.Step? {
      var s, n := f.mounts[fa.mount], Next(f.mounts[fa.mount], fa.action);
      NextFollows(s, fa.action);
      if !n.watchedCut {
        if CutsWatchedRestart(s, fa.action) { CutStays(s, fa.action); }
        StepKeepsInv(s, fa.action);
      }
      RelockAgrees(f, fa.mount, n, if fa.action.Resume? then fa.action.world.got else None);
    }
  }

  lemma RelockAgrees(f: Fleet, m: nat, n: State, got: Option<Inode>)
    requires LocksAgree(f) && m < |f.mounts| && Follows(f.mounts[m], n, got)
    requires got.Some? ==> got == Some(f.path) && f.path !in f.holder
    requires !f.replaced ==> forall i :: i in f.holder ==> i == f.path
    ensures var r := f.(mounts := f.mounts[m := n], holder := Relock(f.holder, m, f.mounts[m].lock, n.lock));
            LocksAgree(r) && (!r.replaced ==> forall i :: i in r.holder ==> i == r.path)
  {
  }

  lemma {:induction false} FleetRunKeepsInv(f: Fleet, run: seq<FleetAction>)
    requires FleetInv(f) && FleetValid(f, run)
    ensures FleetInv(FleetAfter(f, run))
    decreases |run|
  {
    if run != [] {
      FleetStepKeepsInv(f, run[0]);
      FleetRunKeepsInv(FleetNext(f, run[0]), run[1..]);
    }
  }

  predicate HasRuntime(s: State) { s.gateway.Some? || s.stack.Some? }

  predicate Running(s: State) { s.harnesses != {} || s.pollers != {} }

  /**
   In every interleaving of any number of mounts, at most one of them has a runtime recorded, and at
   most one has anything actually running, provided the lock file's inode was not replaced, the
   mount's teardown calls did not raise, and no restart's roll-back was cut while its watchdog lived.
  */
  lemma AtMostOneRuntime(size: nat, path: Inode, run: seq<FleetAction>, a: nat, b: nat)
    requires FleetValid(FleetInit(size, path), run)
    requires var f := FleetAfter(FleetInit(size, path), run);
             a < |f.mounts| && b < |f.mounts| && !f.replaced && !f.mounts[a].watchedCut && !f.mounts[b].watchedCut
    ensures var f := FleetAfter(FleetInit(size, path), run);
            && (HasRuntime(f.mounts[a]) && HasRuntime(f.mounts[b]) ==> a == b)
            && (!f.mounts[a].teardownRaised && !f.mounts[b].teardownRaised && Running(f.mounts[a]) && Running(f.mounts[b]) ==> a == b)
  {
    FleetRunKeepsInv(FleetInit(size, path), run);
  }

  /** Two mounts never hold one inode, replaced or not. */
  lemma LocksAreExclusive(size: nat, path: Inode, run: seq<FleetAction>, a: nat, b: nat)
    requires FleetValid(FleetInit(size, path), run)
    requires var f := FleetAfter(FleetInit(size, path), run);
             a < |f.mounts| && b < |f.mounts| && f.mounts[a].lock.Some? && f.mounts[a].lock == f.mounts[b].lock
    ensures a == b
  {
    FleetRunKeepsInv(FleetInit(size, path), run);
  }

  ghost predicate Reaches(f: Fleet, g: Fleet) { exists run :: FleetValid(f, run) && FleetAfter(f, run) == g }

  lemma {:induction false} FleetRunsCompose(f: Fleet, first: seq<FleetAction>, second: seq<FleetAction>)
    requires FleetValid(f, first) && FleetValid(FleetAfter(f, first), second)
    ensures FleetValid(f, first + second) && FleetAfter(f, first + second) == FleetAfter(FleetAfter(f, first), second)
    decreases |first|
  {
    hide FleetNext;
    hide CanStep;
    if first == [] {
      assert first + second == second;
    } else {
      assert (first + second)[1..] == first[1..] + second;
      FleetRunsCompose(FleetNext(f, first[0]), first[1..], second);
    }
  }

  lemma ReachesOn(f: Fleet, g: Fleet, h: Fleet)
    requires Reaches(f, g) && Reaches(g, h)
    ensures Reaches(f, h)
  {
    var first :| FleetValid(f, first) && FleetAfter(f, first) == g;
    var second :| FleetValid(g, second) && FleetAfter(g, second) == h;
    FleetRunsCompose(f, first, second);
  }

  lemma OneStepReaches(f: Fleet, fa: FleetAction)
    requires CanStep(f, fa)
    ensures Reaches(f, FleetNext(f, fa))
  {
    hide FleetNext;
    hide CanStep;
    assert [fa][1..] == [] && FleetValid(FleetNext(f, fa), []);
    assert FleetValid(f, [fa]) && FleetAfter(f, [fa]) == FleetNext(f, fa);
  }

  /** A mount with nothing recorded and nobody at work comes up, given the lock: in standby by `acquire`, else by `start`. */
  lemma ComesUp(s: State, w: World)
    requires !HasRuntime(s) && s.lock.None? && s.mutex.None? && s.phase in {Stopped, Starting, Standby}
    requires w.factoryOk && w.lockOk && w.got.Some?
    ensures var job := if s.phase == Standby then Acquire else Start;
            var n := Next(s, Call(job));
            n.lock.None? && Enabled(n, Resume(s.nextId, Returns, w)) && HasRuntime(Next(n, Resume(s.nextId, Returns, w)))
  {
  }

  /** The inode hypothesis is needed: replace the file under a live mount, and any other comes up beside it. */
  lemma ReplacedFileAdmitsTwo(f: Fleet, a: nat, b: nat, inode: Inode)
    requires FleetInv(f) && a < |f.mounts| && b < |f.mounts| && a != b && inode != f.path && inode !in f.holder
    requires HasRuntime(f.mounts[a]) && !HasRuntime(f.mounts[b]) && f.mounts[b].lock.None?
    requires f.mounts[b].mutex.None? && f.mounts[b].phase in {Stopped, Starting, Standby}
    ensures exists g :: Reaches(f, g) && |g.mounts| == |f.mounts| && HasRuntime(g.mounts[a]) && HasRuntime(g.mounts[b])
  {
    var s := f.mounts[b];
    var w := World(true, true, Some(inode), true, true, true, true);
    ComesUp(s, w);
    hide Next;
    hide Enabled;
    hide HasRuntime;
    var replace, call := ReplaceLockFile(inode), Step(b, Call(if s.phase == Standby then Acquire else Start));
    var go := Step(b, Resume(s.nextId, Returns, w));
    var f1 := FleetNext(f, replace);
    var f2 := FleetNext(f1, call);
    assert f2.holder == f.holder && f2.path == inode;
    var f3 := FleetNext(f2, go);
    assert f3.mounts[a] == f.mounts[a] && |f3.mounts| == |f.mounts|;
    OneStepReaches(f, replace);
    OneStepReaches(f1, call);
    OneStepReaches(f2, go);
    hide FleetNext;
    hide Reaches;
    ReachesOn(f, f1, f2);
    ReachesOn(f, f2, f3);
  }
}
