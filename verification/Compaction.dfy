/**
 Compaction against concurrent commits. The compaction lock keeps compactions of a chat apart, but a turn
 may still commit between reading the compaction input and saving the summary.
*/
module Compaction {
  import opened Wrappers
  import opened ChatLog
  import opened ChatHistory
  import Store = ChatSpec

  /** A finished compaction: how long the log was when its input was read, and where its summary stands. */
  datatype Compacted = Compacted(read: nat, at: nat)

  datatype State = State(log: seq<Message>, reading: Option<nat>, done: seq<Compacted>)

  /** `Fail`: the consolidator raises, and the lock is released with nothing saved. */
  datatype Step = Commit(messages: seq<Message>, turnId: string) | Read | Save(text: string, at: int) | Fail

  predicate Enabled(s: State, step: Step) {
    match step
    case Commit(messages, _) => messages != [] && forall i :: 0 <= i < |messages| ==> !messages[i].isSummary
    case Read => s.reading.None?
    case Save(_, _) => s.reading.Some?
    case Fail => s.reading.Some?
  }

  function Next(s: State, step: Step): State
    requires Enabled(s, step)
  {
    match step
    case Commit(messages, turnId) => s.(log := s.log + Appended(s.log, Turn(messages, turnId)))
    case Read => s.(reading := Some(|s.log|))
    case Save(text, at) =>
      State(s.log + Appended(s.log, Summary(text, at)), None, s.done + [Compacted(s.reading.value, |s.log|)])
    case Fail => s.(reading := None)
  }

  predicate Legal(steps: seq<Step>)
    decreases |steps|, 0
  {
    steps == [] || (Legal(steps[..|steps| - 1]) && Enabled(Run(steps[..|steps| - 1]), steps[|steps| - 1]))
  }

  /** The chat after a run that began with none of it. */
  function Run(steps: seq<Step>): State
    requires Legal(steps)
    decreases |steps|, 1
  {
    if steps == [] then State([], None, []) else Next(Run(steps[..|steps| - 1]), steps[|steps| - 1])
  }

  /** The call on the chat store that a step is; a failure is none. */
  function CallOf(chat: string, step: Step, mode: Mode): Option<Store.Op> {
    match step
    case Commit(messages, turnId) => Some(Store.CommitTurn(chat, messages, turnId))
    case Read => Some(Store.GetCompactionMessages(chat, Some(mode)))
    case Save(text, at) => Some(Store.SaveSummary(chat, text, at))
    case Fail => None
  }

  /** A step does to the chat's log what its call does to the store's, and nothing to any other chat's. */
  lemma StepsAreCalls(s: State, step: Step, logs: Store.Logs, chat: string, mode: Mode)
    requires Enabled(s, step) && Store.At(logs, chat) == s.log
    ensures var left := if CallOf(chat, step, mode).Some? then Store.After(CallOf(chat, step, mode).value, logs) else logs;
            Store.At(left, chat) == Next(s, step).log && forall other :: other != chat ==> Store.At(left, other) == Store.At(logs, other)
  {
  }

  /** A compaction that has read can fail at any time, which loses nothing and lets another begin. */
  lemma FailureIsHarmless(s: State)
    requires s.reading.Some?
    ensures Enabled(s, Fail) && var f := Next(s, Fail); f.log == s.log && f.done == s.done && Enabled(f, Read)
  {
  }

  // ------------------------------------------------------------------ what every run keeps

  /** The log's summaries are the ones compaction saved, in turn, each behind what it read. */
  ghost predicate Inv(s: State) {
    && (forall k :: 0 <= k < |s.done| ==> s.done[k].read <= s.done[k].at < |s.log|)
    && (forall j, k :: 0 <= j < k < |s.done| ==> s.done[j].at < s.done[k].read)
    && (forall k :: 0 <= k < |s.done| ==> s.log[s.done[k].at].isSummary && s.log[s.done[k].at].role == "system")
    && (forall i :: 0 <= i < |s.log| && s.log[i].isSummary ==> exists k :: 0 <= k < |s.done| && s.done[k].at == i)
    && (s.reading.Some? ==> s.reading.value <= |s.log| && forall k :: 0 <= k < |s.done| ==> s.done[k].at < s.reading.value)
  }

  lemma StepKeepsInv(s: State, step: Step)
    requires Inv(s) && Enabled(s, step)
    ensures Inv(Next(s, step))
  {
    var t := Next(s, step);
    if step.Commit? { CommitAddsNoSummary(s, step); }
    if step.Save? { SavedMessage(s, step); }
    hide Appended;
    forall i | 0 <= i < |t.log| && t.log[i].isSummary ensures exists k :: 0 <= k < |t.done| && t.done[k].at == i {
      if i < |s.log| {
        var k :| 0 <= k < |s.done| && s.done[k].at == i;
        assert t.done[k].at == i;
      } else if step.Save? {
        assert t.done[|s.done|].at == i;
      }
    }
  }

  lemma CommitAddsNoSummary(s: State, step: Step)
    requires Enabled(s, step) && step.Commit?
    ensures var t := Next(s, step);
            |s.log| <= |t.log| && t.log[..|s.log|] == s.log && forall i :: |s.log| <= i < |t.log| ==> !t.log[i].isSummary
  {
    var more := Appended(s.log, Turn(step.messages, step.turnId));
    forall i | |s.log| <= i < |Next(s, step).log| ensures !Next(s, step).log[i].isSummary {
      assert Next(s, step).log[i] == more[i - |s.log|];
    }
  }

  lemma SavedMessage(s: State, step: Step)
    requires Enabled(s, step) && step.Save?
    ensures |Next(s, step).log| == |s.log| + 1 && Next(s, step).log[|s.log|] == SummaryMessage(step.text, step.at)
  {
  }

  lemma {:induction false} RunKeepsInv(steps: seq<Step>)
    requires Legal(steps)
    ensures Inv(Run(steps))
  {
    if steps != [] {
      RunKeepsInv(steps[..|steps| - 1]);
      StepKeepsInv(Run(steps[..|steps| - 1]), steps[|steps| - 1]);
    }
  }

  // ------------------------------------------------------------------ what a summary stands for

  predicate Survives(m: Message, mode: Mode) { mode.KeepAll? || Keep(m).Some? }

  function KeptForm(m: Message, mode: Mode): Message
    requires Survives(m, mode)
  {
    if mode.KeepAll? then m else Keep(m).value
  }

  /** Where the `k`th compaction's input begins: at the summary before it. */
  function Start(s: State, k: nat): nat
    requires k <= |s.done|
  {
    if k == 0 then 0 else s.done[k - 1].at
  }

  /** The message at `i` is part of what the `k`th compaction read. */
  predicate InInput(s: State, i: nat, k: nat, mode: Mode)
    requires k < |s.done| && s.done[k].read <= |s.log| && i < |s.log|
  {
    WindowStart(s.log[..s.done[k].read]) <= i < s.done[k].read && Survives(s.log[i], mode)
  }

  /** It went into the `k`th summary, directly or inside the summary before it. */
  ghost predicate Represented(s: State, i: nat, k: nat, mode: Mode)
    requires Inv(s) && k < |s.done| && i < |s.log|
    decreases k
  {
    InInput(s, i, k, mode) || (k > 0 && InInput(s, s.done[k - 1].at, k, mode) && Represented(s, i, k - 1, mode))
  }

  predicate InContext(s: State, i: nat, mode: Mode)
    requires i < |s.log|
  {
    WindowStart(s.log) <= i && Survives(s.log[i], mode)
  }

  /** Committed while some compaction was between reading and saving. */
  predicate InGap(s: State, i: nat) { exists k :: 0 <= k < |s.done| && s.done[k].read <= i < s.done[k].at }

  /** `ms` are the messages of `log` that stand at `at`, each as the filter leaves it. */
  predicate Stand(log: seq<Message>, at: seq<nat>, ms: seq<Message>, mode: Mode) {
    && |at| == |ms| && (forall i, j :: 0 <= i < j < |at| ==> at[i] < at[j])
    && forall j :: 0 <= j < |at| ==> at[j] < |log| && Survives(log[at[j]], mode) && ms[j] == KeptForm(log[at[j]], mode)
  }

  /** Where in the log the messages of the window that survive the filter stand. */
  function ShownAt(log: seq<Message>, mode: Mode): seq<nat> {
    var n := WindowStart(log);
    if mode.KeepAll? then seq(|log| - n, k requires 0 <= k < |log| - n => n + k) else Shifted(Survivors(log[n..]), n)
  }

  function Shifted(at: seq<nat>, n: nat): seq<nat> { seq(|at|, k requires 0 <= k < |at| => n + at[k]) }

  lemma RestStands(log: seq<Message>, n: nat)
    requires n <= |log|
    ensures Stand(log, Shifted(Survivors(log[n..]), n), StripNoise(log[n..]), StripAll)
  {
    hide StripNoise;
    hide Survivors;
    hide Keep;
    var part, at := log[n..], Shifted(Survivors(log[n..]), n);
    StripKeepsOrder(part);
    forall j | 0 <= j < |at| ensures at[j] < |log| && Keep(log[at[j]]) == Some(StripNoise(part)[j]) {
      assert part[Survivors(part)[j]] == log[at[j]];
    }
  }

  lemma RestStandsIff(log: seq<Message>, n: nat, i: nat)
    requires n <= i < |log|
    ensures i in Shifted(Survivors(log[n..]), n) <==> Keep(log[i]).Some?
  {
    hide Keep;
    SurvivesIff(log[n..], i - n);
    hide Survivors;
    var kept, at := Survivors(log[n..]), Shifted(Survivors(log[n..]), n);
    if i - n in kept {
      var k :| 0 <= k < |kept| && kept[k] == i - n;
      assert at[k] == i;
    }
  }

  lemma RestShown(log: seq<Message>, n: nat)
    requires n <= |log|
    ensures forall i: nat :: i < |log| ==> (i in Shifted(Survivors(log[n..]), n) <==> n <= i && Keep(log[i]).Some?)
  {
    forall i: nat | i < |log| ensures i in Shifted(Survivors(log[n..]), n) <==> n <= i && Keep(log[i]).Some? {
      if n <= i { RestStandsIff(log, n, i); }
    }
    hide Keep;
  }

  lemma AllStand(log: seq<Message>, n: nat)
    requires n <= |log|
    ensures var at: seq<nat> := seq(|log| - n, k requires 0 <= k < |log| - n => n + k);
            Stand(log, at, log[n..], KeepAll) && forall i: nat :: i < |log| ==> (i in at <==> n <= i)
  {
    var at: seq<nat> := seq(|log| - n, k requires 0 <= k < |log| - n => n + k);
    forall i: nat | n <= i < |log| ensures i in at { assert at[i - n] == i; }
  }

  lemma WindowStands(log: seq<Message>, mode: Mode)
    ensures Stand(log, ShownAt(log, mode), Filtered(Active(log), mode), mode)
    ensures forall i: nat :: i < |log| ==> (i in ShownAt(log, mode) <==> WindowStart(log) <= i && Survives(log[i], mode))
  {
    hide StripNoise;
    hide Survivors;
    hide Shifted;
    hide Stand;
    hide Keep;
    hide WindowStart;
    var n := WindowStart(log);
    match mode
    case StripAll =>
      RestStands(log, n);
      RestShown(log, n);
    case KeepAll => AllStand(log, n);
  }

  /**
   `InContext` is about what `get_context` answers of a chat with that log: its messages stand at known places of it, in order,
   and the message at `i` is among them if and only if it is in the context.
  */
  lemma InContextMeans(s: State, i: nat, mode: Mode, logs: Store.Logs, chat: string, default: Mode, estimate: seq<Store.Projected> -> nat)
    requires i < |s.log| && Store.At(logs, chat) == s.log
    ensures var answer := Store.Answers(Store.GetContext(chat, Some(mode)), logs, default, estimate);
            answer.InContext? && Stand(s.log, ShownAt(s.log, mode), answer.context.source, mode)
    ensures InContext(s, i, mode) <==> i in ShownAt(s.log, mode)
  {
    WindowStands(s.log, mode);
    hide ShownAt;
    hide Stand;
  }

  /** And `InInput` about what `get_compaction_messages` answered when the `k`th compaction read. */
  lemma InInputMeans(s: State, i: nat, k: nat, mode: Mode, logs: Store.Logs, chat: string, default: Mode, estimate: seq<Store.Projected> -> nat)
    requires Inv(s) && k < |s.done| && i < s.done[k].read && Store.At(logs, chat) == s.log[..s.done[k].read]
    ensures var answer := Store.Answers(Store.GetCompactionMessages(chat, Some(mode)), logs, default, estimate);
            var part := s.log[..s.done[k].read];
            answer.Messages? && Stand(part, ShownAt(part, mode), answer.messages, mode)
    ensures InInput(s, i, k, mode) <==> i in ShownAt(s.log[..s.done[k].read], mode)
  {
    WindowStands(s.log[..s.done[k].read], mode);
    hide ShownAt;
    hide Stand;
  }

  lemma SummariesAreBehind(s: State, i: nat, k: nat)
    requires Inv(s) && i < |s.log| && s.log[i].isSummary && k <= |s.done| && (k < |s.done| ==> i < s.done[k].read)
    ensures i <= Start(s, k)
  {
    var j :| 0 <= j < |s.done| && s.done[j].at == i;
    SummariesInTurn(s);
    assert j < k;
  }

  lemma SummariesInTurn(s: State)
    requires Inv(s)
    ensures forall j, k :: 0 <= j <= k < |s.done| ==> s.done[j].at <= s.done[k].at
  {
  }

  /** The window a compaction reads begins at the summary before it. */
  lemma WindowAtRead(s: State, k: nat)
    requires Inv(s) && k < |s.done|
    ensures WindowStart(s.log[..s.done[k].read]) == Start(s, k)
  {
    var part := s.log[..s.done[k].read];
    forall i | Start(s, k) < i < |part| ensures !part[i].isSummary {
      if part[i].isSummary { SummariesAreBehind(s, i, k); }
    }
    assert k > 0 ==> s.done[k - 1].at < s.done[k].read;
    WindowIs(part, Start(s, k));
  }

  lemma WindowNow(s: State)
    requires Inv(s)
    ensures WindowStart(s.log) == Start(s, |s.done|)
  {
    forall i | Start(s, |s.done|) < i < |s.log| ensures !s.log[i].isSummary {
      if s.log[i].isSummary { SummariesAreBehind(s, i, |s.done|); }
    }
    WindowIs(s.log, Start(s, |s.done|));
  }

  lemma {:induction false} RepresentedWasRead(s: State, i: nat, k: nat, mode: Mode)
    requires Inv(s) && k < |s.done| && i < |s.log| && Represented(s, i, k, mode)
    ensures i < s.done[k].read
    decreases k
  {
    if !InInput(s, i, k, mode) {
      RepresentedWasRead(s, i, k - 1, mode);
      assert s.done[k - 1].at < s.done[k].read;
    }
  }

  predicate GapUpTo(s: State, i: nat, k: nat)
    requires k < |s.done|
  {
    exists j :: 0 <= j <= k && s.done[j].read <= i < s.done[j].at
  }

  /** The compactions before the `k`th saved what they saved by where its input begins. */
  lemma BehindTheEarlier(s: State, i: nat, k: nat)
    requires Inv(s) && k <= |s.done| && Start(s, k) <= i
    ensures forall j :: 0 <= j < k ==> s.done[j].at <= i
  {
    SummariesInTurn(s);
  }

  lemma Placed(s: State, k: nat)
    requires Inv(s) && k < |s.done|
    ensures Start(s, k) <= s.done[k].read <= s.done[k].at < |s.log|
    ensures k > 0 ==> Start(s, k) < s.done[k].read && s.log[Start(s, k)].role == "system"
  {
  }

  lemma {:induction false} RepresentedIff(s: State, i: nat, k: nat, mode: Mode)
    requires Inv(s) && k < |s.done| && i < s.done[k].at < |s.log| && !s.log[i].isSummary && Survives(s.log[i], mode)
    ensures Represented(s, i, k, mode) <==> !GapUpTo(s, i, k)
    decreases k
  {
    hide Inv;
    hide WindowStart;
    hide Keep;
    WindowAtRead(s, k);
    Placed(s, k);
    if i < Start(s, k) {
      Placed(s, k - 1);
      RepresentedIff(s, i, k - 1, mode);
      SystemSurvives(s.log[s.done[k - 1].at]);
      assert InInput(s, s.done[k - 1].at, k, mode);
      assert GapUpTo(s, i, k) <==> GapUpTo(s, i, k - 1);
    } else {
      BehindTheEarlier(s, i, k);
      if i < s.done[k].read {
        assert InInput(s, i, k, mode);
      } else {
        assert s.done[k].read <= i < s.done[k].at;
        if k > 0 && Represented(s, i, k - 1, mode) {
          RepresentedWasRead(s, i, k - 1, mode);
          Placed(s, k - 1);
        }
      }
    }
  }

  /**
   After any run, a message that survives the filter is in the current context, or went into the latest summary
   directly or through earlier ones, exactly when it was not committed while a compaction was reading.
  */
  lemma LostIffInGap(steps: seq<Step>, i: nat, mode: Mode)
    requires Legal(steps) && i < |Run(steps).log| && !Run(steps).log[i].isSummary && Survives(Run(steps).log[i], mode)
    ensures Inv(Run(steps))
    ensures var s := Run(steps);
            (InContext(s, i, mode) || (s.done != [] && Represented(s, i, |s.done| - 1, mode))) <==> !InGap(s, i)
  {
    hide Run;
    hide Inv;
    RunKeepsInv(steps);
    LostIffInGapNow(Run(steps), i, mode);
  }

  lemma LostIffInGapNow(s: State, i: nat, mode: Mode)
    requires Inv(s) && i < |s.log| && !s.log[i].isSummary && Survives(s.log[i], mode)
    ensures (InContext(s, i, mode) || (s.done != [] && Represented(s, i, |s.done| - 1, mode))) <==> !InGap(s, i)
  {
    hide Inv;
    hide Represented;
    var n := |s.done|;
    WindowNow(s);
    if n > 0 {
      Placed(s, n - 1);
      if i < s.done[n - 1].at {
        RepresentedIff(s, i, n - 1, mode);
        assert GapUpTo(s, i, n - 1) <==> InGap(s, i);
      } else {
        BehindTheEarlier(s, i, n);
      }
    }
  }

  // ------------------------------------------------------------------ quiet compactions

  /** No turn commits between the reading and the saving of a compaction. */
  predicate Quiet(steps: seq<Step>)
    requires Legal(steps)
  {
    steps == [] || (Quiet(steps[..|steps| - 1]) && (steps[|steps| - 1].Commit? ==> Run(steps[..|steps| - 1]).reading.None?))
  }

  lemma {:induction false} QuietLeavesNoGap(steps: seq<Step>)
    requires Legal(steps) && Quiet(steps)
    ensures var s := Run(steps);
            (forall k :: 0 <= k < |s.done| ==> s.done[k].read == s.done[k].at) && (s.reading.Some? ==> s.reading.value == |s.log|)
  {
    if steps != [] { QuietLeavesNoGap(steps[..|steps| - 1]); }
  }

  /** Compaction loses nothing when no turn commits between its two halves. */
  lemma QuietCompactionLosesNothing(steps: seq<Step>, i: nat, mode: Mode)
    requires Legal(steps) && Quiet(steps)
    requires i < |Run(steps).log| && !Run(steps).log[i].isSummary && Survives(Run(steps).log[i], mode)
    ensures Inv(Run(steps))
    ensures var s := Run(steps);
            InContext(s, i, mode) || (s.done != [] && Represented(s, i, |s.done| - 1, mode))
  {
    LostIffInGap(steps, i, mode);
    QuietLeavesNoGap(steps);
  }

  /** A turn that commits in between is in neither: the shortest run that loses a message. */
  lemma BusyCompactionLosesATurn(m: Message, n: Message, text: string, at: int)
    requires m.role == "user" && n.role == "user" && !m.isSummary && !n.isSummary
    ensures var steps := [Commit([m], "a"), Read, Commit([n], "b"), Save(text, at)];
            Legal(steps) && |Run(steps).log| == 3 && Inv(Run(steps)) && Survives(Run(steps).log[1], StripAll)
            && !InContext(Run(steps), 1, StripAll) && !Represented(Run(steps), 1, |Run(steps).done| - 1, StripAll)
  {
    var one := [Stamp(m, "a", Revision([]) + 1)];
    RunMore([], Commit([m], "a"));
    var s1 := [] + [Commit([m], "a")];
    assert Run(s1) == State(one, None, []);
    RunMore(s1, Read);
    RunMore(s1 + [Read], Commit([n], "b"));
    RunMore(s1 + [Read] + [Commit([n], "b")], Save(text, at));
    var steps := s1 + [Read] + [Commit([n], "b")] + [Save(text, at)];
    assert steps == [Commit([m], "a"), Read, Commit([n], "b"), Save(text, at)];
    assert Run(steps).log[1] == Stamp(n, "b", Revision(one) + 1);
    assert Run(steps).done == [Compacted(1, 2)] && Run(steps).done[0].read <= 1 < Run(steps).done[0].at;
    LostIffInGap(steps, 1, StripAll);
  }

  lemma RunMore(steps: seq<Step>, step: Step)
    requires Legal(steps) && Enabled(Run(steps), step)
    ensures Legal(steps + [step]) && Run(steps + [step]) == Next(Run(steps), step)
  {
    assert (steps + [step])[..|steps|] == steps;
  }
}
