# Verified model of BOS

BOS runs agents behind a gateway. This project models the five parts of it that hold real state, and proves
what their comments, documentation and callers rely on.

- **The singleton gateway mount** (`Mount`, `MountSafety`, `MountOutcomes`, `MountWatchdog`, `MountFleet`,
  `MountStray`, `SingletonLock`).
  Starting, promoting, restarting and stopping a gateway, interleaved at every await with the lock watchdog and
  with HTTP restart requests; any number of such mounts in different processes contending for one lock file; and
  the retry loop that takes the lock, with other processes running between any two system calls.
- **The agent turn loop** (`Replay`, `ToolRuns`, `AgentTurn`). Model calls, tool batches, interrupts, the
  cooperative stop, the structured-output retries, and the commit that every exit goes through.
- **Config inheritance** (`DeepMerge`, `Inheritance`, `Registration`, `ConfigHeap`, `AgentResolution`). The
  recursive merge as a function on values and as the in-place loop over shared, mutable dicts; the memoised
  resolver with its cycle detection; the registration loop; and the two routes by which an agent gets a parent.
- **The chat store** (`Strings`, `ChatLog`, `ChatHistory`, `JsonLines`, `Encoding`, `ChatSpec`, `ChatReads`,
  `ChatStores`, `Compaction`). The noise filter, the active window, revisions, the in-memory and the JSONL store as one abstract
  table of logs, and compaction racing with commits.
- **Tasks and mail** (`TaskGraph`, `TaskEdges`, `TaskList`, `Slug`, `Mailbox`). Task dependency lists edited in place and when
  their changes are emitted, and the mailbox of byte offsets over append-only files against the in-memory queues.

The mount and compaction are protocols between tasks, so they are state machines whose steps are the stretches
of code between two awaits. The merge, the resolver, the registration loop, the turn, the stores, the list of tasks
and the mail routes are classes and loops, as in the source, each proved against a specification function about
which the laws are then proved. What a model, a tool, an interceptor, a host or another process does is an
arbitrary choice each time it is asked; clocks are parameters.

## What the code does that its comments do not say

The model follows the code in each of these places.

- A cancellation inside `_roll_back_runtime` skips the rest of that roll-back. What this leaves depends on whose it is.
  - A restart stays `restarting` with its stack recorded. If its watchdog is alive, the next `start` installs a
    second one beside it (`MountOutcomes.CutRestartBreeds2Watchdogs`). This one cut ends the safety of the mount
    and no other does: safety holds in every run without it, and from every reachable state in which it happens an
    unsafe state can be reached (`MountSafety.EveryRunIsSafe`, `MountOutcomes.WatchedCutIsUnsafe`); among several mounts
    it can put two runtimes up at once (`MountStray.CutRestartAdmitsTwo`).
  - A start is reported `stopped` with its flock held and its exit stack open, and the next `stop` returns at once
    and leaves them so (`MountOutcomes.CutStartKeepsTheLock`, `MountOutcomes.StopLeavesQuietIff`).
  - A promotion stays in `standby` with flock and stack, and the stack bars every later promotion until a `stop`
    tears it down (`MountOutcomes.CutLeavesTheRest`, `MountOutcomes.FailedPromotionRestoresTheLockIff`).
- `start` leaves `starting` behind when the workspace factory raises, since the factory is called outside the
  `try` (`src/bos/runner/mount.py:157-159`). It does so exactly then (`MountOutcomes.StartLeavesStartingIff`,
  `MountOutcomes.FactoryRaises`). `acquire`, restarts and the watchdog never lead out of that state
  (`MountOutcomes.StrandedStays`); another `start` or a `stop` does (`MountOutcomes.StartLeadsOut`,
  `MountOutcomes.StopLeadsOut`).
- The bounded retry of `acquire_singleton_lock` need not converge. It can be refused with no rival in sight only when
  each of its five attempts is wasted, by an unlink behind its `open` or by a stat that fails, and without rivals it
  is refused exactly then (`SingletonLock.AcquireSingletonLock`, `SingletonLock.FiveUnlinksOrphan`).
  `lock_still_owned` is wrong in one case, a stat that fails while the handle is owned
  (`SingletonLock.StillOwnedIsWrongIff`), and `lock_is_free` answers "free" when it cannot open the file
  (`SingletonLock.LockIsFree`).
- `_deep_merge` is not associative. It associates exactly when no path is dict, non-dict, dict, or the last of
  the three already settles all that the first says there (`DeepMerge.AssociatesIff`).
- `_parent` is not stripped from every resolved spec: a `_parent` in a factory spec leaks into the specs of the
  agents that inherit from it (`Inheritance.ParentStrippedIff`, `Inheritance.FactoryParentLeaks`).
- A stop among the tools leaves a call unanswered when another call with the same id had finished
  (`ToolRuns.StopAnswersAllIff`), which only distinct ids rule out whenever the stop comes
  (`ToolRuns.EveryStopAnswersAllIff`), and an interrupt may deliver a message that no transcript can hold at that
  place (`AgentTurn.AppendIsHarmlessIff`). Neither is made good by what the turn adds behind it
  (`AgentTurn.MixedStopSpoilsIff`, `AgentTurn.InterruptSpoilsIff`), and only these harms make a commit that cannot be
  replayed (`AgentTurn.Turn.Run`). An appended interrupt also shifts the cache hint of the next call
  (`AgentTurn.HintIsExactIff`).
- A turn that commits between the reading and the saving of a compaction is lost to the context and to every
  summary (`Compaction.LostIffInGap`).
- A completed task can gain edges again, by an update of another task (`TaskGraph.CompletedCanBeBlocked`) or by the
  very update that completes it (`TaskGraph.CompletesAndBlocks`); exactly when, `TaskGraph.CompletedStaysBareIff` says.
- The JSONL store reads without the lock it writes under. A read that finds a part of a turn in the file sees the
  turn's revision already, and asking for what is newer than it never gives the rest (`ChatHistory.ReadAmidCommitIff`).
- Tool arguments are not checked against the tool's schema, so an id in a batch of task updates may be a list, whose
  look-up raises. The updates before it stay applied and the version bump is skipped: if nothing was to be emitted
  before, the change is not emitted (`TaskList.RaisingItemHidesAChange`, `TaskList.TaskList.TaskUpdate`). A change made
  while the event sink is awaited is marked as emitted and was in no payload (`TaskList.EmitAround`).
- A chat with an empty id lives in a file named `.jsonl`. The JSONL store reads and writes it, and never lists it: the
  scan takes the whole name for the id and looks for `.jsonl.jsonl` (`ChatStores.AnswersDifferIff`, `ChatStores.Lockstep`).
- The two mail routes differ for addresses that differ only in colons for pluses, which share an inbox file and no
  queue (`Slug.SameInboxIff`, `Mailbox.SendThenDrain`).
- `bind` measures an inbox without its lock, so it may pin an offset inside a line that is being written. The first
  read then decodes the rest of that line, and the reader is in step from there on (`Mailbox.BindsInStepIff`,
  `Mailbox.ReadsTail`).

## Model

| member | source | states |
|---|---|---|
| MountSafety.StepKeepsInv | src/bos/runner/mount.py:153-417 | every atomic step of every task, under every answer of the outside world, a lock call that raises included, keeps the mount's invariant: one watchdog, one task at a time on the runtime, the phase each job needs, nothing recorded without the lock; the one step excepted is a cancellation inside the roll-back of a restart whose watchdog lives |
| MountSafety.RunKeepsInv | src/bos/runner/mount.py:153-417 | so does every interleaved run in which no restart's roll-back is cancelled while its watchdog lives |
| MountSafety.EveryRunIsSafe | src/bos/runner/mount.py:193-222 | in every such run no gateway or exit stack is ever assigned over a recorded one, there is at most one watchdog, every bring-up owns the recorded stack and holds the lock, and nothing runs unrecorded unless a teardown call raised |
| MountWatchdog.NothingIsOverwritten | src/bos/runner/mount.py:193-222 | step by step: no other gateway or exit stack comes into the place of a recorded one, but for a stack whose closing has just returned |
| MountWatchdog.RunningIs | src/bos/runner/mount.py:266-306 | a harness is open from its entering to the call that closes it, and a gateway polls from its construction to a stop that returns |
| MountWatchdog.RememberedIs | src/bos/runner/mount.py:290-306 | what the safety theorems set aside is just that: a roll-back of a restart cut under its living watchdog, and a teardown call that raised |
| MountOutcomes.WatchedCutIsUnsafe | src/bos/runner/mount.py:331-353 | the exception is exact: from every reachable state, that one step leads to a state from which an unsafe one can be reached |
| MountOutcomes.WorkAlongKeepsTheLock | src/bos/runner/mount.py:184-246 | while a task builds or tears down the runtime, no interleaved step of any other task moves the lock |
| MountOutcomes.EnteringTakesTheLockOnce | src/bos/runner/mount.py:223-237 | a task that enters a bring-up took the lock in that very step exactly when the mount held none |
| MountOutcomes.RollBackEnds | src/bos/runner/mount.py:237-264 | the end of a roll-back that is not cut clears gateway and stack and closes the lock its own call took, and no other |
| MountOutcomes.FailedPromotionRestoresTheLockIff | src/bos/runner/mount.py:184-264 | a failed start or promotion, however interleaved, leaves the lock as it found it and nothing recorded if and only if its roll-back was not cut by a cancellation |
| MountOutcomes.CutLeavesTheRest | src/bos/runner/mount.py:233-264 | a roll-back that is cut keeps the lock and the stack as they are, and its task is gone |
| MountOutcomes.FailedRestartKeepsTheLock | src/bos/runner/mount.py:331-353 | a failed restart keeps its lock and frees the mutex; it ends in standby with gateway and stack cleared if and only if its roll-back was not cut |
| MountOutcomes.AcquireRebuilds | src/bos/runner/mount.py:175-246 | from there `acquire` makes the mount live again under the same lock |
| MountOutcomes.StoppedIsQuietIff | src/bos/runner/mount.py:355-373 | a stopped mount has no gateway, stack, lock, bridge or watchdog if and only if no start's roll-back was cut since the last teardown, which shows as a lock still held; without a raising teardown nothing of a quiet mount runs |
| MountOutcomes.StopLeavesQuietIff | src/bos/runner/mount.py:355-373 | a `stop` that returns leaves such a mount if and only if it did not find the mount "stopped" with its lock held, that is, unless a start was cut |
| MountOutcomes.StartCutIs | src/bos/runner/mount.py:153-173 | step by step, what "a start was cut" means: set by a cancellation inside a start's roll-back, cleared by the next stop that finishes its teardown |
| MountOutcomes.CutStartKeepsTheLock | src/bos/runner/mount.py:153-173 | the run of six steps in which a start enters its harness, fails to build its gateway and is cancelled while the harness closes, and a stop then returns with the flock held and the stack open |
| MountOutcomes.QuietStaysQuiet | src/bos/runner/mount.py:355-469 | no queued request, restart, acquire or watchdog step revives it: that takes a new `start` |
| MountOutcomes.StartLeavesStartingIff | src/bos/runner/mount.py:153-173 | a start that got the mutex ends with the mount "starting" if and only if it found it neither live nor standby and the workspace factory raised |
| MountOutcomes.FactoryRaises | src/bos/runner/mount.py:153-160 | the run of two steps that ends there, with no call in progress |
| MountOutcomes.StrandedStays | src/bos/runner/mount.py:175-182 | no run without a new start or stop leads out of it: acquires, restarts, requests and watchdogs change neither the phase nor what is recorded |
| MountOutcomes.StartLeadsOut | src/bos/runner/mount.py:153-173 | a start does there what it does to a stopped mount |
| MountOutcomes.StopLeadsOut | src/bos/runner/mount.py:355-373 | a stop that finds nothing recorded and no watchdog ends in two steps and leaves the mount quiet |
| MountOutcomes.CutRestartBreeds2Watchdogs | src/bos/runner/mount.py:331-353 | a restart cancelled while its roll-back closes the stack, then a start: two watchdogs, from every safe state in which its watchdog lives |
| MountWatchdog.PollStandsDownIff | src/bos/runner/mount.py:375-412 | a poll of a live mount stands it down, at once off "live", if and only if the lock is no longer owned, and otherwise changes nothing |
| MountWatchdog.DemotionStep | src/bos/runner/mount.py:398-417 | a step of the demotion this starts goes on with it or leaves the mount in standby without lock, gateway, stack and bridge, whatever the awaited call did; the watchdog sleeps again unless it was cancelled |
| MountWatchdog.LostLockIsGivenUp | src/bos/runner/mount.py:375-417 | so a mount that finds its lock lost has stood down when its demotion is over, whatever other tasks do in between |
| MountWatchdog.PollPromotesIff | src/bos/runner/mount.py:413-417 | a poll in standby begins a promotion, under the granted lock or its own, if and only if the lock is free, the workspace loads, no runtime is in the way and the lock is granted or held; otherwise it changes nothing |
| MountWatchdog.FreeLockIsTaken | src/bos/runner/mount.py:413-417 | and the run in which it goes live under the granted lock, the watchdog asleep again |
| MountWatchdog.MutatorWorksIff | src/bos/runner/mount.py:153-373 | a start, acquire or restart that got the mutex sets to work exactly when it finds work it may do; any of them that finds none, unless it is a start of a mount neither live nor in standby, leaves everything as it was |
| MountWatchdog.StartStandsByIff | src/bos/runner/mount.py:153-173 | such a start stands by exactly when another holds the lock or a runtime is left over, and is "stopped" exactly when asking for the lock raises |
| MountWatchdog.GoesLiveIff | src/bos/runner/mount.py:231-246 | a bring-up goes live exactly when its gateway started and, in a restart, took the old endpoint; any failure begins the roll-back |
| MountWatchdog.StartLeavesAWatchdogIff | src/bos/runner/mount.py:153-173 | a start that ends leaves a sleeping, recorded watchdog exactly when it leaves the mount live or in standby |
| MountWatchdog.RequestIs | src/bos/runner/mount.py:437-469 | a restart request is a restart of a live mount, an acquire of one that kept its lock in standby, and else nothing |
| MountWatchdog.RequestRebuilds | src/bos/runner/mount.py:331-353 | the run in which a requested restart replaces the gateway and the harness of any live mount under the same lock, closing the old ones |
| MountFleet.FleetStepKeepsInv | src/bos/gateway/state.py:92-122 | with any number of mounts, the flock table and the mounts' handles go on describing each other |
| MountFleet.GrantsAreHonest | src/bos/gateway/state.py:92-122 | what the fleet takes the lock file to answer is what the retry loop does: a handle it returns is for the inode on disk, which nobody else holds, and the flock tables of the two models agree once the mount has it |
| MountFleet.AtMostOneRuntime | src/bos/runner/mount.py:184-246 | at most one mount has a runtime, while the lock file's inode is not replaced and no restart's roll-back is cut under a live watchdog; and at most one has anything running, while its teardown calls do not raise |
| MountFleet.LocksAreExclusive | src/bos/gateway/state.py:92-122 | two mounts never hold one inode, replaced or not |
| MountFleet.ReplacedFileAdmitsTwo | src/bos/gateway/state.py:74-90 | the inode hypothesis is needed: replacing the file under a mount with a runtime lets any other idle one, new or in standby, come up beside it |
| MountWatchdog.StaysLiveIff | src/bos/gateway/state.py:70-90 | in a fleet, a live mount stays live past a poll that is answered truly if and only if its handle is for the file on disk |
| MountWatchdog.OnlyOneStaysLive | src/bos/runner/mount.py:375-412 | so two mounts that a replaced file made live beside each other are not both live once each has polled |
| MountStray.CutRestartAdmitsTwo | src/bos/runner/mount.py:331-373 | so is the hypothesis on cut restarts: in every fleet of two or more one such cut leads to two mounts with a runtime, the file never replaced and the first mount without a lock |
| SingletonLock.AcquireSingletonLock | src/bos/gateway/state.py:92-122 | whatever other processes do in between: a returned handle owns the flock of the inode on disk and comes of an attempt that was not wasted, those before it having been; a refusal leaves no flock of this call's behind and means that a rival holds the flock or that all five attempts were wasted, by an unlink or a failed stat; when nobody else holds or wants a flock it succeeds if and only if some attempt is not wasted; alone it succeeds exactly when the file is free |
| SingletonLock.FiveUnlinksOrphan | src/bos/gateway/state.py:107-122 | from every state with a free file that nobody wants, five unlinks make it refuse |
| SingletonLock.StillOwnedIsWrongIff | src/bos/gateway/state.py:70-90 | of a handle with its flock, the ownership check differs from whether that flock bars whoever opens the file, in one case: it bars them and a stat fails |
| SingletonLock.LockIsFree | src/bos/gateway/state.py:125-155 | whatever other processes do in between, the probe says "held" only of a flock a rival holds and keeps neither file nor flock; alone its answer is exact, but for an open that fails, which reads as free |
| Replay.ReplayableIff | src/bos/core/agent/agent.py:862-876 | reading a transcript strictly from the left accepts exactly the lists in which each advertised call is answered once, before the next other message |
| ToolRuns.ToolCallBatches | src/bos/core/agent/agent.py:937-950 | the batches in order are the calls in order, each is one call or all parallel-safe, and no two safe batches meet |
| ToolRuns.StopAnswersAllIff | src/bos/core/agent/agent.py:819-876 | after a stop among the tools every advertised call has exactly one result if and only if no id belongs to both a finished and an unfinished call |
| ToolRuns.StopKeepsFinishedWork | src/bos/core/agent/agent.py:836-876 | a call that finished before it was abandoned keeps its own result; any call has the interrupted placeholder if and only if no finished call has its id |
| ToolRuns.AllDoneInOrder | src/bos/core/agent/agent.py:840-850 | when every call finished, the results stand in the order of the calls, each with its call's id and text |
| ToolRuns.DistinctIff | src/bos/core/agent/agent.py:819-876 | the ids of a response are distinct if and only if no stop, whenever it comes, finds one on both sides |
| ToolRuns.EveryStopAnswersAllIff | src/bos/core/agent/agent.py:819-876 | so every stop leaves every advertised call answered exactly once if and only if the ids are distinct |
| AgentTurn.AppendIsHarmlessIff | src/bos/core/agent/agent.py:645-647 | a message appended between blocks keeps the transcript replayable exactly when it is no tool result and advertises no call |
| AgentTurn.MergeKeepsPending | src/bos/core/agent/contract.py:347-352 | merging content into the last message changes no call and no answer |
| AgentTurn.HintIsExactIff | src/bos/core/agent/agent.py:542-555 | the cache index is in range, and names the last non-ephemeral message of the previous prompt exactly when no interrupt was appended since |
| AgentTurn.ToolsSettle | src/bos/core/agent/agent.py:809-876 | the call message and what a tool run leaves behind it is replayable, all done or stopped, under the exact condition on ids |
| AgentTurn.MixedStopSpoilsIff | src/bos/core/agent/agent.py:836-876 | the message that closes a stopped turn can stand behind its tools if and only if no id is on both sides; otherwise nothing added later makes the transcript replayable |
| AgentTurn.InterruptSpoilsIff | src/bos/core/agent/agent.py:645-647 | the turn's next message can stand behind an appended interrupt if and only if that is plain; otherwise nothing added later makes the transcript replayable |
| AgentTurn.AddedSaysAll | src/bos/core/agent/contract.py:347-352 | however a message comes in, its content goes behind all there was and under its own role, everything before the last message stays, and a new message is made exactly when none of its role is there to merge into |
| AgentTurn.AddedKeepsPrefix | src/bos/core/agent/contract.py:347-352 | a merged message moves nothing before the last, and the length grows only when it could not merge |
| AgentTurn.ByRoleConcat | src/bos/core/agent/agent.py:557-560 | what is picked out by role is the same however the list is taken apart |
| AgentTurn.Turn.CompleteLlm | src/bos/core/agent/agent.py:404-428 | with the flag set no call starts; otherwise the prompt sent is the system prompt, the history, the turn's messages and the ephemeral tail, it is recorded with its cache hint, and a stop abandons the call |
| AgentTurn.Turn.RunBatch | src/bos/core/agent/agent.py:430-453 | with the flag set no tool body is scheduled and every call is unfinished; without a stop every call is done |
| AgentTurn.Turn.RunTools | src/bos/core/agent/agent.py:809-876 | what stands behind the call message is the results of the finished calls, then after a stop the placeholders of the others; the transcript can then be replayed exactly when nothing did harm, a stop with an id on both sides included |
| AgentTurn.Turn.CheckSchema | src/bos/core/agent/agent.py:772-797 | a retry costs one of the allowed retries and adds one complaint; the schema error comes only of an unusable finish or when no retry is left; a validator that raises anything else fails the turn with nothing added |
| AgentTurn.Turn.CloseWithHandoff | src/bos/core/agent/agent.py:649-680 | a closed turn ends with an assistant message that is the final content and opens with the marker |
| AgentTurn.Turn.Persist | src/bos/core/agent/agent.py:557-594 | what is committed is never empty and starts with the user's message: an aborted turn without a final answer commits its user messages and the aborted marker, any other all its messages; and exactly when each can be replayed |
| AgentTurn.Turn.Run | src/bos/core/agent/agent.py:482-934 | on every exit the committed messages answer each advertised call once and in place if and only if nothing did harm: for a turn that commits all its messages, no appended interrupt was a tool result or advertised a call and no stop among the tools found an id on both sides; for an aborted turn that commits its user messages, no appended user interrupt advertised a call. Good interrupts and distinct call ids are enough for both. Model calls and schema retries stay in their budgets, every prompt extends the one before it under the right cache hint, nothing is scheduled after the stop flag is set, and a completed turn ends with an assistant message without calls that is its output: what the last response, which advertises no call, says when its artefacts are taken out, or if that is nothing the text for its finish; or else, stopped or out of iterations, a text that opens with the marker of that. If only users interrupt, the assistant's messages are what the model answered, in order, its words beside its calls included. An answer given before a cancellation stays; an aborted turn without one ends with the aborted marker, and a failed one with the error; what a turn that returns hands out is its final content, or else the last thing said |
| AgentTurn.AbortedIsReplayableIff | src/bos/core/agent/agent.py:557-572 | a turn's user messages with the aborted marker behind them can be replayed if and only if none of them advertises a call |
| DeepMerge.CoversIff | src/bos/core/_utils.py:56-62 | an override that already says all its base says is left unchanged, exactly then |
| DeepMerge.AssociatesIff | src/bos/core/_utils.py:56-62 | the merge associates on three arguments exactly when they are compatible, which is read off them without merging |
| DeepMerge.OrdersAgreeIff | src/bos/core/_utils.py:56-62 | four terms merged one by one over the first, or the first merged under what the others make together: equal exactly under a condition read off the terms |
| DeepMerge.MergeDoesNotAssociate | src/bos/core/_utils.py:56-62 | dict, non-dict, dict: the smallest arguments on which it does not |
| Inheritance.LengthIsUnique | src/bos/config/workspace.py:463-488 | a parent chain ends in at most one way, so the fold does not depend on how it was found |
| Inheritance.ResolvedStep | src/bos/config/workspace.py:463-484 | a chain ends exactly when its parent's does, or has no parent, or a factory-only one; and one level of the fold |
| Inheritance.CycleNeverEnds | src/bos/config/workspace.py:463-467 | a chain that returns to a name it has passed ends for none of the names on it |
| Inheritance.ParentStrippedIff | src/bos/config/workspace.py:453-484 | `_parent` is gone from a resolved spec exactly when no factory spec on the way up carries one |
| Inheritance.FactoryParentLeaks | src/bos/config/workspace.py:453-484 | one agent and one factory agent with a `_parent` of its own: the smallest tables on which the key comes through |
| Inheritance.AgentNameIsOwn | src/bos/config/workspace.py:479-483 | a resolved spec has an `agent_name` exactly when the agent's own table sets it, and then that one |
| Inheritance.ChildWins | src/bos/config/workspace.py:449-484 | a leaf the child sets wins over everything it inherits |
| Inheritance.FoldAt | src/bos/config/workspace.py:463-484 | a setting of a resolved spec is the agent's own over its parent's resolved one, and that over what a factory of the parent's name says, at every key but the directive and the identity |
| Registration.ByConfigIsBootstrap | src/bos/config/workspace.py:669-700 | the config route is what the resolver and the registration loop do with a table that names a parent |
| AgentResolution.ChildEntryIsByConfig | src/bos/config/workspace.py:655-700 | what bootstrap registers for a table that names a parent is that route |
| Registration.RoutesAgreeIff | src/bos/core/harness.py:169-234 | an agent given its parent by `agent_cfg` equals the one given it by config, at a setting other than identity, description and plugins, if and only if the four terms allow both orders of merging there; the parent may be a factory agent, and `tools` is included |
| Registration.LeavesAgree | src/bos/core/harness.py:169-234 | a setting that the child sets to something else than a dict, or whose default is no dict, always does |
| Registration.RoutesBindTheSamePlugins | src/bos/core/harness.py:123-141 | the plugin lists the harness reads from the two are the same, though one may hold the empty lists registration filled in |
| Registration.ConfigIdentity | src/bos/config/workspace.py:479-483 | by config the child has its own kind, and an `agent_name` from its table or the defaults |
| Registration.AgentCfgIdentity | src/bos/core/harness.py:208-222 | by `agent_cfg` it has its own kind, but an `agent_name` from the defaults is lost |
| Registration.AcceptedMeansTheParentsRuntime | src/bos/core/harness.py:169-234 | an accepted `agent_cfg` runs on its parent's runtime whatever else it says, a reserved kind only on its own; its kind had no lineage and its parent was known |
| Registration.AcceptedIff | src/bos/core/harness.py:169-234 | an `agent_cfg` with a parent is accepted if and only if its kind is not registered, the parent is a reserved runtime or registered, and neither kind nor settings name another runtime than the parent's; the first of these that fails is the error |
| Registration.AcceptedAt | src/bos/core/harness.py:207-234 | a setting of an accepted one is its own value over the parent's, whose identity it does not get |
| ConfigHeap.DeepMergeInto | src/bos/core/_utils.py:56-62 | the in-place loop leaves the base holding the merge, and writes only dicts the base owned before |
| ConfigHeap.DeepCopy | src/bos/config/workspace.py:474-478 | a copy holds the same and shares nothing |
| AgentResolution.AgentResolver.Resolve | src/bos/config/workspace.py:460-484 | the memoised search ends on every finite table, gives the fold up the chain, or names a real cycle or unknown parent on it; it writes the memo and nothing else |
| AgentResolution.ResolveAgentInheritance | src/bos/config/workspace.py:439-488 | it succeeds exactly when every chain ends, every name then gets its fold whatever order they are visited in, and no input is written |
| AgentResolution.Register | src/bos/core/harness.py:122-141 | the stored defaults, or the refusal, with a keyword dict of its own |
| AgentResolution.EntryAt | src/bos/config/workspace.py:676-700 | a setting of any registered agent is what its chain resolved to, over its factory's, over the defaults, of which an externally backed agent sees nothing, with empty lists for tools and plugins nobody sets |
| AgentResolution.EntryRefusedIff | src/bos/core/harness.py:122-141 | registration is refused exactly when what these say of tools is no list, or of plugins no dict |
| AgentResolution.EntryIdentity | src/bos/core/harness.py:122-141 | it is registered under its own kind, with no name, directive or description left among its settings |
| AgentResolution.ExternalStartsFromNothing | src/bos/config/workspace.py:682-691 | an agent backed by another runtime, by its name or its chain, is registered the same whatever the defaults are, and every setting but those registration fills in comes from its factory or its chain |
| AgentResolution.RegisterAll | src/bos/config/workspace.py:676-700 | the registry holds each agent's merged terms, no setting of the defaults reaches an externally backed one, no two agents share a dict at any depth, and nothing given is written |
| AgentResolution.BootstrapAgents | src/bos/config/workspace.py:655-700 | agent registration as a whole: the first two errors exactly when their condition holds, a refusal only with the refusal of some agent's own entry, and otherwise a registry of folds over factory terms over defaults, without the defaults for whatever the folds show to be externally backed |
| ChatLog.FilterToolNoise | src/bos/core/_chat_store_utils.py:48-67 | the loop computes the filter |
| ChatLog.StripConcat | src/bos/core/_chat_store_utils.py:48-67 | the filter distributes over concatenation |
| ChatLog.StripIsIdempotent | src/bos/core/_chat_store_utils.py:48-67 | it changes nothing exactly when there is no tool message and no assistant tool call, hence it is idempotent |
| ChatLog.StripLeavesClean | src/bos/core/_chat_store_utils.py:48-67 | no tool message and no assistant tool call is left |
| ChatLog.StripKeepsOrder | src/bos/core/_chat_store_utils.py:48-67 | its result is exactly the messages that survive, in the order they stood, unchanged but for the calls they advertised |
| ChatLog.FilterCommutesIff | src/bos/core/defaults/jsonl_chat_store.py:116-125 | filtering and taking the active window commute exactly when the latest summary survives or nothing before it does |
| ChatLog.ActiveMessages | src/bos/core/defaults/jsonl_chat_store.py:116-125 | the backward loop gives the latest summary and all behind it |
| ChatReads.KeepMeans | src/bos/core/_chat_store_utils.py:48-67 | the filter drops a tool result, and an assistant's turn that calls tools and says nothing but white space; one that says something keeps it and loses its calls, and any other message stays as it is |
| Strings.StripIs | src/bos/core/_chat_store_utils.py:62-63 | what `strip` leaves is the text between two stretches of white space, and neither begins nor ends with any |
| ChatHistory.RevisionIsTurns | src/bos/core/defaults/jsonl_chat_store.py:88-114 | a chat's revision is the number of its commits, whatever summaries stand between them |
| ChatHistory.SinceIsExact | src/bos/core/defaults/jsonl_chat_store.py:261-263 | for the revision observed at any moment, the messages since it are exactly those committed after that moment, in order |
| ChatHistory.SinceANegativeIsEverything | src/bos/core/defaults/jsonl_chat_store.py:261-263 | for a revision that was never observed the summaries come as well |
| ChatHistory.ReadAmidCommitIff | src/bos/core/defaults/jsonl_chat_store.py:149-171 | a reader that sees the first messages of a turn, and then asks for what is newer than the revision it saw, ends with the whole log if and only if it had seen none of the turn or all of it |
| JsonLines.SplitFramed | src/bos/core/defaults/jsonl_chat_store.py:56-74 | lines without a break come back from the file as they were written |
| JsonLines.SplitsAt | src/bos/core/defaults/jsonl_chat_store.py:56-74 | what a line is in any text: a break ends it, a carriage return takes the newline behind it along, and text without a break is one line |
| ChatSpec.SummaryIsFirst | src/bos/core/defaults/jsonl_chat_store.py:184-202 | if the window holds a summary, its first message is the chat's latest one |
| ChatReads.ContextBeginsAtTheSummary | src/bos/core/defaults/jsonl_chat_store.py:173-202 | unfiltered, the context a store answers with is the chat's latest summary and all that stands behind it, or all there is without one, and says how much it left out |
| ChatReads.ContextIsWhatIsLeft | src/bos/core/defaults/jsonl_chat_store.py:180-202 | filtered, it is exactly what the filter leaves of that stretch, in order |
| ChatReads.ContextGoesOut | src/bos/core/_chat_store_utils.py:70-81 | of each of these its role and content go out, but for a null and an empty list, and the estimate is made of what goes out |
| ChatReads.ReadsAgree | src/bos/core/defaults/jsonl_chat_store.py:204-255 | compaction reads what the context is made of, the summary is the one the context begins with, the active messages are the unfiltered context, all messages the log, and no filter mode is the default one |
| ChatReads.CommitKeepsAll | src/bos/core/defaults/jsonl_chat_store.py:149-171 | a commit puts its messages behind the chat's log with all they say, under the turn's id and one revision on, and touches no other chat |
| ChatReads.SummaryTakesOver | src/bos/core/defaults/jsonl_chat_store.py:229-249 | a saved summary stands behind the log, the text under its heading, and from then on is the context |
| ChatReads.CommitExtendsTheContext | src/bos/core/defaults/jsonl_chat_store.py:149-202 | a turn without summaries goes behind what the context was |
| ChatReads.ListingSays | src/bos/core/defaults/jsonl_chat_store.py:265-294 | the listing of a chat: its size, the time of its last message and of its latest summary, and what its first user said, or else its first message |
| ChatStores.InMemChatStore.Perform | src/bos/extensions/chat_stores/in_memory.py:107-238 | every operation of the in-memory store answers and changes as the abstract table of logs, whose answers `ChatReads` states on the logs |
| ChatStores.JsonlChatStore.Perform | src/bos/core/defaults/jsonl_chat_store.py:149-294 | so does every operation of the JSONL store, but that its listing leaves out the empty id |
| ChatStores.Lockstep | src/bos/core/defaults/jsonl_chat_store.py:149-294 | in any sequence of operations the two give the same answers but for a listing asked for while the chat with the empty id has messages, and there they differ |
| ChatStores.StoreIsItsHistories | src/bos/core/defaults/jsonl_chat_store.py:149-171 | a chat's log is that of its own history: chats do not touch each other |
| ChatStores.StoreCountsCommits | src/bos/core/defaults/jsonl_chat_store.py:257-259 | `get_revision` after any operations on any chats |
| ChatStores.StoreSinceIsExact | src/bos/core/defaults/jsonl_chat_store.py:261-263 | `get_messages_since` for a revision `get_revision` gave earlier |
| ChatStores.AnswersDifferIff | src/bos/core/defaults/jsonl_chat_store.py:265-294 | the specified answers differ exactly at such a listing, and by the empty id alone |
| ChatStores.SomeCodecIsLossless | src/bos/core/defaults/jsonl_chat_store.py:56-87 | there is a lossless codec of messages into lines, so the store theorems have instances |
| Compaction.RunKeepsInv | src/bos/core/agent/agent.py:1024-1043 | in every run the log's summaries are those of the compactions in turn, each behind what it read |
| Compaction.StepsAreCalls | src/bos/core/defaults/jsonl_chat_store.py:149-242 | each step does to the chat's log what its call does to the store's, and nothing to any other chat's |
| Compaction.FailureIsHarmless | src/bos/core/agent/agent.py:1028-1039 | a consolidator that raises loses nothing and lets the next compaction begin |
| Compaction.LostIffInGap | src/bos/core/agent/agent.py:1029-1039 | a message that survives the filter is in the context, or went into the latest summary directly or through earlier ones, if and only if it was not committed between the reading and the saving of a compaction |
| Compaction.QuietCompactionLosesNothing | src/bos/core/agent/agent.py:1029-1039 | without such commits compaction loses nothing |
| Compaction.InInputMeans | src/bos/core/defaults/jsonl_chat_store.py:204-213 | the input a store answers a compaction with is what the filter leaves at known places of the log it read, in order, and being in the input is standing at one of them |
| Compaction.InContextMeans | src/bos/core/defaults/jsonl_chat_store.py:173-202 | so for what `get_context` answers of the chat: being in the context is standing at one of the places its messages come from |
| Compaction.BusyCompactionLosesATurn | src/bos/core/agent/agent.py:1029-1039 | the shortest run that loses a turn |
| Strings.StrIsInjective | src/bos/plugins/task.py:57-60 | different counters give different ids |
| TaskGraph.ApplyKeeps | src/bos/plugins/task.py:75-123 | every update keeps `blocks` and `blocked_by` symmetric in count and every listed id a task's; one that is rejected or raises changes nothing; only a deletion removes a task |
| TaskGraph.ApplyAllKeeps | src/bos/plugins/task.py:392-408 | so does a batch, which goes on past its errors and ends at an item that raises |
| TaskGraph.ApplyAllConcat | src/bos/plugins/task.py:391-408 | a batch is its parts one after the other, each on what the one before left, up to an item that raises |
| TaskGraph.ApplyAllOfOne | src/bos/plugins/task.py:391-405 | a batch of one update is that update, and one of something that is no object an error line |
| TaskGraph.RejectedIff | src/bos/plugins/task.py:86-102 | an update is applied exactly when all it refers to is there; else the first thing that is not decides the answer: an exception, or an error line that names it and the list it stood in |
| TaskGraph.CompletedHasNoEdges | src/bos/plugins/task.py:103-110 | completing a task clears its edges on both sides |
| TaskGraph.CompletedCanBeBlocked | src/bos/plugins/task.py:115-122 | in every book of bare completed tasks, any other task can come to block a completed one |
| TaskGraph.CompletesAndBlocks | src/bos/plugins/task.py:103-122 | in every book, so can a task completed by the very update that adds the edge |
| TaskGraph.CompletedStaysBareIff | src/bos/plugins/task.py:75-123 | an update, applied, rejected, raising or deleting, keeps completed tasks free of edges if and only if it is not accepted or adds no edge to a completed task, both of which can be read off before it |
| TaskEdges.UpdateMeans | src/bos/plugins/task.py:75-123 | after an update that is applied, each task's lists hold what completion leaves of them and exactly the new edges the update names, as often as it names them, from its target to those this is to block and to it from its blockers; the target says what it was told to and the others what they said |
| TaskEdges.DeletionMeans | src/bos/plugins/task.py:90-95 | a deletion takes its target and the edges of that, and nothing else |
| TaskEdges.BlockedByWaits | src/bos/plugins/task.py:119-122 | the direction on the smallest book: told that another blocks it, a task waits for that one |
| TaskList.TaskList.ApplyUpdate | src/bos/plugins/task.py:75-123 | the edits in place are the update on the table of tasks, and leave the texts and the edges, each with its direction, that `UpdateMeans` states |
| TaskList.TaskList.TaskCreate | src/bos/plugins/task.py:316-336 | all of the requests or none, and all exactly when there is one and each has a subject that is not blank, the first that has none being the error; under ids that were never handed out before, even to tasks since deleted |
| TaskList.CreatedAt | src/bos/plugins/task.py:325-332 | each request becomes a task under its own id with the stripped subject and description, pending and without edges |
| TaskList.CreatedKeeps | src/bos/plugins/task.py:325-332 | there are no other new tasks, and those there were stay as they were |
| TaskList.TaskList.TaskUpdate | src/bos/plugins/task.py:382-408 | each update in turn, one version bump exactly when one was applied and none raised; afterwards `needs_emit` tells whether anything is yet to be shown if and only if nothing was applied and it did before, or no item raised, or something was to be emitted already |
| TaskList.TaskList.MarkEmitted | src/bos/plugins/task.py:150-187 | after an emission nothing is to be emitted, rightly so if and only if nothing changed since its payload was taken |
| TaskList.EmitAround | src/bos/plugins/task.py:171-187 | an emission with a batch of updates while the sink is awaited: a change of that batch is marked as emitted |
| TaskList.RaisingItemHidesAChange | src/bos/plugins/task.py:392-408 | from every list with nothing to emit, completing a task with a raising item behind changes what a payload would show and leaves nothing to emit |
| TaskList.Run | src/bos/plugins/task.py:150-408 | over any run of calls without such items, and without calls while the sink is awaited, `needs_emit` holds exactly when something is yet to be shown |
| TaskList.NeverHalts | src/bos/plugins/task.py:392-408 | a batch whose ids can all be looked up never raises, whatever the book |
| Slug.SameInboxIff | src/bos/core/defaults/jsonl_mailbox.py:24-38 | two addresses share an inbox exactly when they are equal byte for byte but for colons in the place of pluses |
| Slug.PlainAddressIsItsSlug | src/bos/core/defaults/jsonl_mailbox.py:24-38 | an address of letters, digits, `-._~@+` and colons is its own file name, but for a plus in the place of each colon |
| Slug.SlugIsAFileName | src/bos/core/defaults/jsonl_mailbox.py:24-38 | whatever the address, its slug holds only characters that are safe in a file name, and no slash |
| Mailbox.ReadsInStep | src/bos/core/defaults/jsonl_mailbox.py:130-153 | from a line boundary the next line is the next unread envelope, there is none exactly when none is unread, and the offset lands on the next boundary |
| Mailbox.StaysInStep | src/bos/core/defaults/jsonl_mailbox.py:110-121 | a delivery at the end moves no reader off its boundary |
| Mailbox.JsonlMailRoute.ReceivedIsAPrefix | src/bos/core/defaults/jsonl_mailbox.py:94-153 | what an address received is a prefix of what its inbox got since the bind, each envelope once and in order, across rebinding |
| Mailbox.JsonlMailRoute.Bind | src/bos/core/defaults/jsonl_mailbox.py:94-128 | a first bind skips what came before, and begins on a whole line if and only if no append has written part of one; a rebind keeps what is unread |
| Mailbox.BindsInStepIff | src/bos/core/defaults/jsonl_mailbox.py:123-128 | the end of a file whose last append is half done is a boundary between lines exactly when that append wrote nothing or all of its line |
| Mailbox.ReadsTail | src/bos/core/defaults/jsonl_mailbox.py:130-153 | a reader bound inside a line gets the rest of that line, and is in step behind it |
| Mailbox.JsonlMailRoute.Deliver | src/bos/core/defaults/jsonl_mailbox.py:110-121 | the envelope goes behind what each reader of that inbox has yet to receive, and to no other; it is written under the inbox's lock, in pieces between which other calls may come |
| Mailbox.JsonlMailRoute.ReceiveNowait | src/bos/core/defaults/jsonl_mailbox.py:130-153 | the oldest unread envelope, or none exactly when there is none; a reader bound inside a line first gets what its rest is taken for, and misses nothing behind it |
| Mailbox.FirstBind | src/bos/core/defaults/jsonl_mailbox.py:94-101 | an address bound for the first time agrees with a queue nothing was put into |
| Mailbox.Lockstep | src/bos/extensions/mailboxes/in_memory.py:53-78 | once the addresses in use are bound and share no inbox, the files give the same envelopes as the queues |
| Mailbox.SendThenDrain | src/bos/extensions/mailboxes/in_memory.py:53-78 | from any state in which the routes agree at an address, a send and as many receives as empty its queue end alike on both if and only if the recipient is that address or has another inbox |
| Mailbox.SomeCodecIsLossless | src/bos/core/defaults/jsonl_mailbox.py:110-121 | there is a lossless codec of envelopes into lines |

## Left out

- The mount as an object with fields: it is a state machine on values, since its methods interleave at their awaits and a method of a class runs to its end.
- Whether `GatewayMount.stop` ever returns while a watchdog is in the middle of a demotion, and all waiting times: these are steps that may be taken, never steps that must be.
- Reads and writes of the state file, the pid file, `status`, `build_app`, the shutdown bridge's own task and the WebSocket dispatch: they move none of the fields the safety argument speaks of.
- Platforms without `fcntl`, where the lock is a no-op.
- `AgentTurn.Turn.Run`: says nothing about token usage, finish reasons, emitted events and the external runtimes, and takes a commit to the chat store as one that succeeds.
- Interceptors are taken not to edit the message list; they may replace the ephemeral tail, stop the turn or be cancelled. The projection of current messages is a function of each message, so prompts are stated on the messages themselves.
- The stripping of reasoning blocks and parroted labels from a reply is any function of its text; what the theorems say of a reply they say of what it leaves.
- Loading and compacting the history at the head of `run`: an exception there ends the call before there is anything to commit.
- Exceptions that are neither `Exception` nor `CancelledError`, such as `SystemExit` out of a tool.
- The content of handoffs, of schema complaints and of aborted markers beyond what the code tests of it.
- `Registration.RoutesAgreeIff`: excludes `agent_name`, `description`, `kind` and `plugins`, which the two routes treat differently; `ConfigIdentity`, `AgentCfgIdentity` and `RoutesBindTheSamePlugins` say how.
- Lists inside a config dict are values: `_deep_merge` replaces them whole, so only dicts are objects. A `_parent` that is neither a string nor null, which the config schema refuses, is read as none.
- The parsing of the configuration, the invocation of agent factories and the mapping to keyword arguments.
- `_resolve_agent_cfg_parent` works on copies, so it is a function on values.
- `AgentResolution.AgentResolver.Child`: copies the factory terms after the parent is resolved, where the source does it before; resolving writes the memo only, so the copy is the same.
- JSON and date encoding: a codec is any pair of functions that is lossless and gives one line of printable ASCII.
- Token counting: an estimate is an arbitrary function of the projected messages, and `estimate_tokens` and the tokenizer's name are left out.
- Chat ids with a slash, for which the JSONL store does not use one file of its own directory; revisions written as digit strings, which no store of this version writes; chat files written by something else.
- `ChatStores.JsonlChatStore.Perform`: takes each operation as one step. Reads take no lock in the source; what a read amid a commit misses is `ChatHistory.ReadAmidCommitIff`, and one that finds half a line fails in `json.loads`.
- The sharing of message objects between a caller and the in-memory store, which stores them as they are while the JSONL store keeps their text.
- `TaskList.Run`: has at most one batch of updates while a sink is awaited. A payload shares its id lists with the tasks, so a later in-place append would show in it; payloads are values here.
- Creation times and the order of listings the tools give, and the text of their answers beyond which outcome they report; the plugin's table of task lists by chat.
- Two consumers of one address, and a writer that dies with a line half written; what `json.loads` makes of the rest of a torn line, an exception included, is whatever the codec says; `JsonlMailRoute.Close`, after which unread envelopes are skipped by the next bind, is modelled but not part of the agreement.
- The chat coordinator, the actor manager, channels, the terminal interface, memory, prompts, the model catalog and process launching.
