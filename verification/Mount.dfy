/**
 The singleton gateway mount as an interleaved state machine.

 Every stretch of code between two awaits is one atomic step: asyncio switches tasks only at an
 await. A task is therefore a program counter naming the await it is parked at, and `Next` runs one
 task from its await to its next one. What happens at the await (the awaited call returns, raises,
 or its task is cancelled), and everything the outside world answers inside the atomic block (the
 lock file, the configuration), is chosen by the action, so `Next` covers every interleaving.
*/
module Mount {
  import opened Wrappers

  type TaskId = nat
  type RuntimeId = nat
  type Inode = nat

  /** `GatewayMount._state`. */
  datatype Phase = Stopped | Starting | Live | Standby | Restarting

  /** The four public mutators and the watchdog loop. */
  datatype Job = Start | Acquire | Restart | Stop | Watchdog

  /** What is propagating: an `Exception`, or a `CancelledError`, which `except Exception` lets through. */
  datatype Exc = Failed | Cancelled

  /** On whose behalf `_tear_down_runtime` runs; a roll-back remembers what it re-raises. */
  datatype Why = ToStop | ToRebuild | ToDemote | ToRollBack(cause: Exc)

  /** The three awaits of `_tear_down_runtime`, in order. */
  datatype Stage = Bridge | StoppingGateway(gateway: RuntimeId) | ClosingStack(stack: RuntimeId)

  /** The await a task is parked at. */
  datatype Pc =
    | WantMutex
    | Sleeping
    | AwaitWatchdog
    | Tearing(stage: Stage, why: Why)
    | EnteringHarness(id: RuntimeId)
    | StartingGateway(id: RuntimeId)

  /** `tookLock` is the local `took_lock` of `_acquire_and_bring_up`. */
  datatype Task = Task(job: Job, pc: Pc, tookLock: bool)

  /**
   The mount's fields, its tasks, and a record of the world outside: `harnesses` are the exit stacks
   that hold an entered harness, which `aclose` takes out whether or not it returns, and `pollers` the
   gateways started and not stopped. The last four fields only
   remember what happened: an assignment over a recorded gateway or stack; a restart cancelled inside
   its roll-back while the watchdog was alive; a start cancelled inside its roll-back, and nothing torn
   down by a `stop` since; a teardown call that raised.
  */
  datatype State = State(
    phase: Phase,
    gateway: Option<RuntimeId>,
    stack: Option<RuntimeId>,
    lock: Option<Inode>,
    bridge: bool,
    watchdog: Option<TaskId>,
    mutex: Option<TaskId>,
    tasks: map<TaskId, Task>,
    nextId: nat,
    harnesses: set<RuntimeId>,
    pollers: set<RuntimeId>,
    clobbered: bool,
    watchedCut: bool,
    startCut: bool,
    teardownRaised: bool)

  const Init := State(Stopped, None, None, None, false, None, None, map[], 0, {}, {}, false, false, false, false)

  datatype Outcome = Returns | Raises | IsCancelled

  /**
   The answers an atomic block gets from outside: whether the workspace factory returns and its run
   directory can be made, whether `acquire_singleton_lock` returns at all, what it, `lock_still_owned`
   and `lock_is_free` say, whether the Gateway constructor and `set_endpoint` return.
  */
  datatype World = World(factoryOk: bool, lockOk: bool, got: Option<Inode>, owned: bool, free: bool, buildOk: bool, endpointOk: bool)

  datatype Action =
    | Call(job: Job)                                   // the host calls a mutator
    | HttpRestart                                      // POST /api/restart
    | Resume(task: TaskId, outcome: Outcome, world: World)

  // ------------------------------------------------------------------ atomic blocks

  /** What is remembered stays remembered; the lock is kept, closed, or taken by a mount that held none. */
  predicate Follows(s: State, r: State, got: Option<Inode>) {
    && (s.watchedCut ==> r.watchedCut) && (s.teardownRaised ==> r.teardownRaised)
    && (r.lock == s.lock || r.lock.None? || (s.lock.None? && r.lock == got))
  }

  function Park(s: State, t: TaskId, pc: Pc): (r: State)
    requires t in s.tasks
    ensures Follows(s, r, None)
    ensures r.startCut == s.startCut
  {
    s.(tasks := s.tasks[t := s.tasks[t].(pc := pc)])
  }

  /** Task `t` is over; leaving `async with self._mutex` releases the mutex. */
  function End(s: State, t: TaskId): (r: State)
    ensures Follows(s, r, None)
    ensures r.startCut == s.startCut
  {
    s.(tasks := map u | u in s.tasks && u != t :: s.tasks[u], mutex := if s.mutex == Some(t) then None else s.mutex)
  }

  function SpawnWatchdog(s: State): (r: State)
    ensures Follows(s, r, None)
    ensures r.startCut == s.startCut
  {
    s.(tasks := s.tasks[s.nextId := Task(Watchdog, Sleeping, false)], watchdog := Some(s.nextId), nextId := s.nextId + 1)
  }

  /** The first await `_tear_down_runtime` reaches, skipping the first `from` of its three tests. */
  function StageFrom(s: State, from: nat): Option<Stage> {
    if from == 0 && s.bridge then Some(Bridge)
    else if from <= 1 && s.gateway.Some? then Some(StoppingGateway(s.gateway.value))
    else if s.stack.Some? then Some(ClosingStack(s.stack.value))
    else None
  }

  /** The end of `_roll_back_runtime` and of the `except BaseException` around it. */
  function RolledBack(s: State, t: TaskId, cause: Exc): (r: State)
    requires t in s.tasks
    ensures Follows(s, r, None)
    ensures r.startCut == s.startCut && (t in r.tasks ==> r.tasks[t].pc == Sleeping)
  {
    var s := s.(gateway := None, stack := None);
    var task := s.tasks[t];
    if task.job == Restart then End(s.(phase := Standby), t)
    else
      var s := if task.tookLock then s.(lock := None) else s;
      if task.job == Start then End(s.(phase := Stopped), t)
      else if task.job == Watchdog && cause == Failed then Park(s, t, Sleeping)
      else End(s, t)
  }

  function RollBack(s: State, t: TaskId, cause: Exc): (r: State)
    requires t in s.tasks
    ensures Follows(s, r, None)
    ensures r.startCut == s.startCut
  {
    match StageFrom(s, 0)
    case Some(stage) => Park(s, t, Tearing(stage, ToRollBack(cause)))
    case None => RolledBack(s, t, cause)
  }

  predicate WatchdogLives(s: State) { s.watchdog.Some? && s.watchdog.value in s.tasks }

  /** A cancellation escaping `_roll_back_runtime`: nothing after the teardown runs. */
  function CutRollBack(s: State, t: TaskId): (r: State)
    requires t in s.tasks
    ensures Follows(s, r, None)
  {
    match s.tasks[t].job
    case Start => End(s.(startCut := true, phase := Stopped), t)
    case Restart => End(s.(watchedCut := s.watchedCut || WatchdogLives(s)), t)
    case _ => End(s, t)
  }

  /** `_bring_up_runtime` up to its first await. */
  function BringUp(s: State, t: TaskId): (r: State)
    requires t in s.tasks
    ensures Follows(s, r, None)
    ensures r.startCut == s.startCut
  {
    Park(s.(clobbered := s.clobbered || s.stack.Some?, stack := Some(s.nextId), nextId := s.nextId + 1),
         t, EnteringHarness(s.nextId))
  }

  /** The `finally` of the watchdog's demotion, and what the surrounding handlers do with `exc`. */
  function Demoted(s: State, t: TaskId, exc: Option<Exc>): (r: State)
    requires t in s.tasks
    ensures Follows(s, r, None)
    ensures r.startCut == s.startCut && (t in r.tasks ==> r.tasks[t].pc == Sleeping)
  {
    var s := s.(gateway := None, stack := None, lock := None);
    if exc == Some(Cancelled) then End(s, t) else Park(s, t, Sleeping)
  }

  /** What follows a `_tear_down_runtime` that returned. */
  function TornDown(s: State, t: TaskId, why: Why, w: World): (r: State)
    requires t in s.tasks
    ensures Follows(s, r, None)
    ensures why != ToStop ==> r.startCut == s.startCut
  {
    match why
    case ToStop => End(s.(lock := None, phase := Stopped, startCut := false), t)
    case ToRebuild => if w.factoryOk then BringUp(s, t) else RollBack(s, t, Failed)
    case ToDemote => Demoted(s, t, None)
    case ToRollBack(cause) => RolledBack(s, t, cause)
  }

  function Teardown(s: State, t: TaskId, why: Why, w: World, from: nat): (r: State)
    requires t in s.tasks
    ensures Follows(s, r, None)
    ensures why != ToStop ==> r.startCut == s.startCut
  {
    match StageFrom(s, from)
    case Some(stage) => Park(s, t, Tearing(stage, why))
    case None => TornDown(s, t, why, w)
  }

  /** A teardown call raised `exc`. Only a roll-back suppresses exceptions. */
  function TeardownFailed(s: State, t: TaskId, why: Why, exc: Exc): (r: State)
    requires t in s.tasks
    ensures Follows(s, r, None)
    ensures !why.ToRollBack? || exc == Failed ==> r.startCut == s.startCut
  {
    var s := s.(teardownRaised := true);
    match why
    case ToStop => End(s, t)
    case ToRebuild => RollBack(s, t, exc)
    case ToDemote => Demoted(s, t, Some(exc))
    case ToRollBack(cause) => if exc == Failed then RolledBack(s, t, cause) else CutRollBack(s, t)
  }

  /** `_acquire_and_bring_up` returned False. */
  function NotLive(s: State, t: TaskId): (r: State)
    requires t in s.tasks
    ensures Follows(s, r, None)
    ensures r.startCut == s.startCut && (t in r.tasks ==> r.tasks[t].pc == Sleeping)
  {
    match s.tasks[t].job
    case Start => End(SpawnWatchdog(s.(phase := Standby)), t)
    case Watchdog => Park(s, t, Sleeping)
    case _ => End(s, t)
  }

  /** `acquire_singleton_lock` raised, before the `try` of `_acquire_and_bring_up`. */
  function LockRaised(s: State, t: TaskId): (r: State)
    requires t in s.tasks
    ensures Follows(s, r, None)
    ensures r.startCut == s.startCut && (t in r.tasks ==> r.tasks[t].pc == Sleeping)
  {
    match s.tasks[t].job
    case Start => End(s.(phase := Stopped), t)
    case Watchdog => Park(s, t, Sleeping)
    case _ => End(s, t)
  }

  /** `_acquire_and_bring_up` up to its first await, or its return or raise and what the caller does with it. */
  function TryAcquire(s: State, t: TaskId, w: World): (r: State)
    requires t in s.tasks
    ensures Follows(s, r, w.got)
    ensures r.startCut == s.startCut
  {
    if s.gateway.Some? || s.stack.Some? then NotLive(s, t)
    else if s.lock.Some? then BringUp(s.(tasks := s.tasks[t := s.tasks[t].(tookLock := false)]), t)
    else if !w.lockOk then LockRaised(s, t)
    else if w.got.None? then NotLive(s, t)
    else BringUp(s.(tasks := s.tasks[t := s.tasks[t].(tookLock := true)], lock := w.got), t)
  }

  /** After `gateway.start()` returned: the rest of `_bring_up_runtime`, then the caller's success path. */
  function BroughtUp(s: State, t: TaskId, w: World): (r: State)
    requires t in s.tasks
    ensures Follows(s, r, None)
    ensures r.startCut == s.startCut
  {
    var s := s.(bridge := true);
    match s.tasks[t].job
    case Start => End(SpawnWatchdog(s.(phase := Live)), t)
    case Restart => if w.endpointOk then End(s.(phase := Live), t) else RollBack(s, t, Failed)
    case Watchdog => Park(s.(phase := Live), t, Sleeping)
    case _ => End(s.(phase := Live), t)
  }

  /** A mutator got the mutex and runs to its first await inside it. */
  function Enter(s: State, t: TaskId, w: World): (r: State)
    requires t in s.tasks
    ensures Follows(s, r, w.got)
  {
    var s := s.(mutex := Some(t));
    match s.tasks[t].job
    case Start =>
      if s.phase == Live || s.phase == Standby then End(s, t)
      else if !w.factoryOk then End(s.(phase := Starting), t)   // raised outside the try: "starting" stays
      else TryAcquire(s.(phase := Starting), t, w)
    case Acquire =>
      if s.phase != Standby || !w.factoryOk then End(s, t) else TryAcquire(s, t, w)
    case Restart =>
      if s.phase != Live || s.gateway.None? then End(s, t)
      else Teardown(s.(phase := Restarting), t, ToRebuild, w, 0)
    case Stop =>
      if s.phase == Stopped then End(s, t)
      else if s.watchdog.Some? then Park(s, t, AwaitWatchdog)
      else Teardown(s, t, ToStop, w, 0)
    case Watchdog => s
  }

  /** One poll of `_watch_lock`. */
  function Poll(s: State, t: TaskId, w: World): (r: State)
    requires t in s.tasks
    ensures Follows(s, r, w.got)
    ensures r.startCut == s.startCut
  {
    if s.phase == Live && s.lock.Some? && !w.owned then Teardown(s.(phase := Standby), t, ToDemote, w, 0)
    else if s.phase == Standby && w.free && w.factoryOk then TryAcquire(s, t, w)
    else s
  }

  function Fault(o: Outcome): Exc { if o == IsCancelled then Cancelled else Failed }

  /** `aclose` takes the harness out of the exit stack before it waits for it to close. */
  function Emptied(s: State, k: RuntimeId): State { s.(harnesses := s.harnesses - {k}) }

  /** `_tear_down_runtime` from one of its awaits on. */
  function TornOn(s: State, t: TaskId, stage: Stage, why: Why, o: Outcome, w: World): (r: State)
    requires t in s.tasks
    ensures Follows(s, r, None)
  {
    match stage
    case Bridge => Teardown(s.(bridge := false), t, why, w, 1)
    case StoppingGateway(g) =>
      if o == Returns then Teardown(s.(gateway := None, pollers := s.pollers - {g}), t, why, w, 2)
      else TeardownFailed(s, t, why, Fault(o))
    case ClosingStack(k) =>
      if o == Returns then TornDown(Emptied(s, k).(stack := None), t, why, w)
      else TeardownFailed(Emptied(s, k), t, why, Fault(o))
  }

  /** Run task `t` from its await, which ended with `o`, to its next one. */
  function Run(s: State, t: TaskId, o: Outcome, w: World): (r: State)
    requires t in s.tasks
    ensures Follows(s, r, w.got)
  {
    match s.tasks[t].pc
    case WantMutex => if o == Returns then Enter(s, t, w) else End(s, t)
    case Sleeping => if o == Returns then Poll(s, t, w) else End(s, t)
    case AwaitWatchdog => Teardown(s.(watchdog := None), t, ToStop, w, 0)
    case Tearing(stage, why) => TornOn(s, t, stage, why, o, w)
    case EnteringHarness(id) =>
      if o != Returns then RollBack(s, t, Fault(o))
      else
        var s := s.(harnesses := s.harnesses + {id});
        if !w.buildOk then RollBack(s, t, Failed)
        else Park(s.(clobbered := s.clobbered || s.gateway.Some?, gateway := Some(id), pollers := s.pollers + {id}),
                  t, StartingGateway(id))
    case StartingGateway(id) =>
      if o == Returns then BroughtUp(s, t, w) else RollBack(s, t, Fault(o))
  }

  function AddCall(s: State, job: Job): (r: State)
    ensures Follows(s, r, None)
    ensures r.startCut == s.startCut
  {
    s.(tasks := s.tasks[s.nextId := Task(job, WantMutex, false)], nextId := s.nextId + 1)
  }

  function Next(s: State, a: Action): State
    requires Enabled(s, a)
  {
    match a
    case Call(job) => AddCall(s, job)
    case HttpRestart =>
      if s.phase == Live then AddCall(s, Restart)
      else if s.phase == Standby && s.lock.Some? then AddCall(s, Acquire)
      else s
    case Resume(t, o, w) => Run(s, t, o, w)
  }

  /**
   Which outcomes an await can have. The mutex is granted only when free; `stop` goes on only once
   the watchdog task is over; the wait for the shutdown bridge suppresses its CancelledError, and
   `Gateway.stop` swallows the ones delivered to it; closing an exit stack that holds nothing does not wait.
  */
  predicate Enabled(s: State, a: Action) {
    match a
    case Call(job) => job != Watchdog
    case HttpRestart => true
    case Resume(t, o, w) =>
      t in s.tasks &&
      match s.tasks[t].pc
      case WantMutex => o == IsCancelled || (o == Returns && s.mutex.None?)
      case Sleeping => o != Raises
      case AwaitWatchdog => o == Returns && (s.watchdog.Some? ==> s.watchdog.value !in s.tasks)
      case Tearing(Bridge, _) => o == Returns
      case Tearing(StoppingGateway(_), _) => o != IsCancelled
      case Tearing(ClosingStack(k), _) => k in s.harnesses || o == Returns
      case _ => true
  }

  // ------------------------------------------------------------------ runs

  predicate Valid(s: State, run: seq<Action>)
    decreases |run|
  {
    run == [] || (Enabled(s, run[0]) && Valid(Next(s, run[0]), run[1..]))
  }

  function After(s: State, run: seq<Action>): State
    requires Valid(s, run)
    decreases |run|
  {
    if run == [] then s else After(Next(s, run[0]), run[1..])
  }
}
