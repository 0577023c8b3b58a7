/** One response's tool calls: how they are batched, what becomes of them, and what is recorded for each. */
module ToolRuns {
  import opened Replay

  const INTERRUPTED := "(no result: this tool call was abandoned unfinished when the agent was told to shut down)"

  // ------------------------------------------------------------------ batches

  function Flatten(batches: seq<seq<ToolCall>>): seq<ToolCall> {
    if batches == [] then [] else Flatten(batches[..|batches| - 1]) + batches[|batches| - 1]
  }

  lemma FlattenMore(batches: seq<seq<ToolCall>>, batch: seq<ToolCall>)
    ensures Flatten(batches + [batch]) == Flatten(batches) + batch
  {
    assert (batches + [batch])[..|batches|] == batches;
  }

  predicate AllSafe(calls: seq<ToolCall>, safe: set<string>) { forall i :: 0 <= i < |calls| ==> calls[i].name in safe }

  /** Batches are not empty, and one that holds several calls holds parallel-safe ones only. */
  predicate GoodBatches(batches: seq<seq<ToolCall>>, safe: set<string>) {
    forall b :: 0 <= b < |batches| ==> batches[b] != [] && (|batches[b]| == 1 || AllSafe(batches[b], safe))
  }

  /** No two batches in a row are of parallel-safe calls: as much as may be run together is. */
  predicate Maximal(batches: seq<seq<ToolCall>>, safe: set<string>) {
    forall b :: 0 <= b < |batches| - 1 ==> !(AllSafe(batches[b], safe) && AllSafe(batches[b + 1], safe))
  }

  lemma NoBatches(safe: set<string>)
    ensures Flatten([]) == [] && GoodBatches([], safe) && Maximal([], safe)
  {
  }

  lemma BatchAppended(batches: seq<seq<ToolCall>>, batch: seq<ToolCall>, safe: set<string>)
    requires GoodBatches(batches, safe) && Maximal(batches, safe) && batch != [] && (|batch| == 1 || AllSafe(batch, safe))
    requires batches == [] || !AllSafe(batches[|batches| - 1], safe) || !AllSafe(batch, safe)
    ensures Flatten(batches + [batch]) == Flatten(batches) + batch
    ensures GoodBatches(batches + [batch], safe) && Maximal(batches + [batch], safe)
  {
    hide AllSafe;
    FlattenMore(batches, batch);
    hide Flatten;
    var more := batches + [batch];
    forall b | 0 <= b < |more| ensures more[b] != [] && (|more[b]| == 1 || AllSafe(more[b], safe)) {
      if b < |batches| { assert more[b] == batches[b]; }
    }
    forall b | 0 <= b < |more| - 1 ensures !(AllSafe(more[b], safe) && AllSafe(more[b + 1], safe)) {
      if b + 1 < |batches| { assert more[b] == batches[b] && more[b + 1] == batches[b + 1]; }
    }
  }

  /** `_tool_call_batches`: the batches in order are the calls in order. */
  method ToolCallBatches(calls: seq<ToolCall>, safe: set<string>) returns (batches: seq<seq<ToolCall>>)
    ensures Flatten(batches) == calls
    ensures GoodBatches(batches, safe) && Maximal(batches, safe)
  {
    hide GoodBatches;
    hide Maximal;
    hide Flatten;
    batches := [];
    NoBatches(safe);
    var pendingSafe: seq<ToolCall> := [];
    for i := 0 to |calls|
      invariant Flatten(batches) + pendingSafe == calls[..i]
      invariant GoodBatches(batches, safe) && Maximal(batches, safe) && AllSafe(pendingSafe, safe)
      invariant batches == [] || !AllSafe(batches[|batches| - 1], safe)
    {
      if calls[i].name in safe {
        pendingSafe := pendingSafe + [calls[i]];
        continue;
      }
      if pendingSafe != [] {
        BatchAppended(batches, pendingSafe, safe);
        batches := batches + [pendingSafe];
        pendingSafe := [];
      }
      assert !AllSafe([calls[i]], safe) by { assert [calls[i]][0].name !in safe; }
      BatchAppended(batches, [calls[i]], safe);
      batches := batches + [[calls[i]]];
    }
    if pendingSafe != [] {
      BatchAppended(batches, pendingSafe, safe);
      batches := batches + [pendingSafe];
    }
  }

  // ------------------------------------------------------------------ what is recorded

  /** What became of a call when the wait for its batch ended. */
  datatype Fate = Done(text: string) | Unfinished

  function Results(calls: seq<ToolCall>, fates: seq<Fate>): (ms: seq<Msg>)
    requires |calls| == |fates|
    ensures AllTools(ms)
  {
    if calls == [] then [] else
    var n := |calls| - 1;
    Results(calls[..n], fates[..n]) + if fates[n].Done? then [ToolResult(calls[n], fates[n].text)] else []
  }

  function Answered(calls: seq<ToolCall>, fates: seq<Fate>): set<string>
    requires |calls| == |fates|
  {
    set i | 0 <= i < |calls| && fates[i].Done? :: calls[i].id
  }

  /** The loop over the response's calls that fills in what has no answer. */
  function Placeholders(calls: seq<ToolCall>, answered: set<string>): (ms: seq<Msg>)
    ensures AllTools(ms)
  {
    if calls == [] then [] else
    var n := |calls| - 1;
    Placeholders(calls[..n], answered) + if calls[n].id in answered then [] else [ToolResult(calls[n], INTERRUPTED)]
  }

  /** All that a stop among the tools leaves behind the assistant message. */
  function AfterStop(calls: seq<ToolCall>, fates: seq<Fate>): (ms: seq<Msg>)
    requires |calls| == |fates|
    ensures AllTools(ms)
  {
    Results(calls, fates) + Placeholders(calls, Answered(calls, fates))
  }

  function UnfinishedIds(calls: seq<ToolCall>, fates: seq<Fate>): seq<string>
    requires |calls| == |fates|
  {
    if calls == [] then [] else
    var n := |calls| - 1;
    UnfinishedIds(calls[..n], fates[..n]) + if fates[n].Done? then [] else [calls[n].id]
  }

  /** Every call either has a result or is unfinished. */
  lemma {:induction false} ResultsAndRest(calls: seq<ToolCall>, fates: seq<Fate>)
    requires |calls| == |fates|
    ensures multiset(CallIds(Results(calls, fates))) + multiset(UnfinishedIds(calls, fates)) == multiset(Ids(calls))
  {
    if calls == [] {
      assert CallIds([]) == [] && Ids(calls) == [];
    } else {
      var n := |calls| - 1;
      ResultsAndRest(calls[..n], fates[..n]);
      assert Ids(calls) == Ids(calls[..n]) + [calls[n].id];
      if fates[n].Done? {
        CallIdsMore(Results(calls[..n], fates[..n]), ToolResult(calls[n], fates[n].text));
      } else {
        assert Results(calls, fates) == Results(calls[..n], fates[..n]);
      }
    }
  }

  /** No id belongs to both a finished and an unfinished call; distinct ids are enough for that. */
  predicate NoMixedId(calls: seq<ToolCall>, fates: seq<Fate>)
    requires |calls| == |fates|
  {
    forall i, j :: 0 <= i < |calls| && 0 <= j < |calls| && fates[i].Done? && fates[j].Unfinished? ==> calls[i].id != calls[j].id
  }

  predicate Distinct(calls: seq<ToolCall>) {
    forall i, j :: 0 <= i < j < |calls| ==> calls[i].id != calls[j].id
  }

  /** Distinct ids never mix, whatever becomes of the calls. */
  lemma DistinctNeverMix(calls: seq<ToolCall>, fates: seq<Fate>)
    requires |calls| == |fates| && Distinct(calls)
    ensures NoMixedId(calls, fates)
  {
    forall i, j | 0 <= i < |calls| && 0 <= j < |calls| && fates[i].Done? && fates[j].Unfinished? ensures calls[i].id != calls[j].id {
      assert i != j;
    }
  }

  /** The fates of a stop that comes when the `i`th call has finished and no other has. */
  function OnlyDone(n: nat, i: nat): seq<Fate> { seq(n, k => if k == i then Done("") else Unfinished) }

  /** Distinct ids are what a caller can ask of a response: no stop mixes them, whenever it comes, exactly then. */
  lemma DistinctIff(calls: seq<ToolCall>)
    ensures Distinct(calls) <==> forall fates: seq<Fate> :: |fates| == |calls| ==> NoMixedId(calls, fates)
  {
    if Distinct(calls) {
      forall fates: seq<Fate> | |fates| == |calls| ensures NoMixedId(calls, fates) { DistinctNeverMix(calls, fates); }
    } else {
      var i, j :| 0 <= i < j < |calls| && calls[i].id == calls[j].id;
      var fates := OnlyDone(|calls|, i);
      assert fates[i].Done? && fates[j].Unfinished?;
      assert !NoMixedId(calls, fates);
    }
  }

  lemma {:induction false} PlaceholderIds(calls: seq<ToolCall>, fates: seq<Fate>, answered: set<string>)
    requires |calls| == |fates|
    requires forall i :: 0 <= i < |calls| ==> (fates[i].Done? <==> calls[i].id in answered)
    ensures CallIds(Placeholders(calls, answered)) == UnfinishedIds(calls, fates)
  {
    if calls != [] {
      var n := |calls| - 1;
      PlaceholderIds(calls[..n], fates[..n], answered);
    }
  }

  lemma {:induction false} PlaceholdersSkip(calls: seq<ToolCall>, answered: set<string>, k: nat)
    requires k < |Placeholders(calls, answered)|
    ensures Placeholders(calls, answered)[k].callId !in answered
  {
    var n := |calls| - 1;
    if k < |Placeholders(calls[..n], answered)| { PlaceholdersSkip(calls[..n], answered, k); }
  }

  lemma {:induction false} UnfinishedIsListed(calls: seq<ToolCall>, fates: seq<Fate>, j: nat)
    requires |calls| == |fates| && j < |calls| && fates[j].Unfinished?
    ensures calls[j].id in UnfinishedIds(calls, fates)
  {
    var n := |calls| - 1;
    if j < n { UnfinishedIsListed(calls[..n], fates[..n], j); }
  }

  lemma MixedIdIsMissed(calls: seq<ToolCall>, fates: seq<Fate>, i: nat, j: nat)
    requires |calls| == |fates| && i < |calls| && j < |calls|
    requires fates[i].Done? && fates[j].Unfinished? && calls[i].id == calls[j].id
    ensures multiset(CallIds(Placeholders(calls, Answered(calls, fates)))) != multiset(UnfinishedIds(calls, fates))
  {
    var fill := CallIds(Placeholders(calls, Answered(calls, fates)));
    UnfinishedIsListed(calls, fates, j);
    forall k | 0 <= k < |fill| ensures fill[k] != calls[j].id { PlaceholdersSkip(calls, Answered(calls, fates), k); }
    assert calls[j].id in multiset(UnfinishedIds(calls, fates)) && calls[j].id !in multiset(fill);
  }

  lemma Cancels(a: multiset<string>, x: multiset<string>, y: multiset<string>)
    ensures a <= a + y && (a + x == a + y <==> x == y)
  {
    if a + x == a + y {
      forall k: string ensures x[k] == y[k] { assert (a + x)[k] == (a + y)[k]; }
    }
  }

  /** A stop among the tools answers every advertised call once exactly when no id is on both sides. */
  lemma StopAnswersAllIff(calls: seq<ToolCall>, fates: seq<Fate>)
    requires |calls| == |fates|
    ensures multiset(CallIds(AfterStop(calls, fates))) == multiset(Ids(calls)) <==> NoMixedId(calls, fates)
    ensures multiset(CallIds(Results(calls, fates))) <= multiset(Ids(calls))
  {
    var answered := Answered(calls, fates);
    var fill := CallIds(Placeholders(calls, answered));
    ResultsAndRest(calls, fates);
    AfterStopIds(calls, fates);
    Cancels(multiset(CallIds(Results(calls, fates))), multiset(fill), multiset(UnfinishedIds(calls, fates)));
    hide Results;
    hide Placeholders;
    hide UnfinishedIds;
    hide CallIds;
    hide Ids;
    hide AfterStop;
    if NoMixedId(calls, fates) {
      hide NoMixedId;
      RestIsUnanswered(calls, fates);
    } else {
      var i, j :| 0 <= i < |calls| && 0 <= j < |calls| && fates[i].Done? && fates[j].Unfinished? && calls[i].id == calls[j].id;
      MixedIdIsMissed(calls, fates, i, j);
    }
  }

  lemma AfterStopIds(calls: seq<ToolCall>, fates: seq<Fate>)
    requires |calls| == |fates|
    ensures multiset(CallIds(AfterStop(calls, fates)))
         == multiset(CallIds(Results(calls, fates))) + multiset(CallIds(Placeholders(calls, Answered(calls, fates))))
  {
    IdsOfBoth(Results(calls, fates), Placeholders(calls, Answered(calls, fates)));
    hide Results;
    hide Placeholders;
    hide CallIds;
  }

  lemma IdsOfBoth(a: seq<Msg>, b: seq<Msg>)
    ensures multiset(CallIds(a + b)) == multiset(CallIds(a)) + multiset(CallIds(b))
  {
    assert CallIds(a + b) == CallIds(a) + CallIds(b);
  }

  lemma RestIsUnanswered(calls: seq<ToolCall>, fates: seq<Fate>)
    requires |calls| == |fates| && NoMixedId(calls, fates)
    ensures CallIds(Placeholders(calls, Answered(calls, fates))) == UnfinishedIds(calls, fates)
  {
    var answered := Answered(calls, fates);
    forall i | 0 <= i < |calls| ensures fates[i].Done? <==> calls[i].id in answered {}
    PlaceholderIds(calls, fates, answered);
  }

  /** Whatever the stop, all calls are answered, exactly when the response's ids are distinct. */
  lemma EveryStopAnswersAllIff(calls: seq<ToolCall>)
    ensures Distinct(calls) <==>
              forall fates: seq<Fate> :: |fates| == |calls| ==> multiset(CallIds(AfterStop(calls, fates))) == multiset(Ids(calls))
  {
    DistinctIff(calls);
    forall fates: seq<Fate> | |fates| == |calls|
      ensures multiset(CallIds(AfterStop(calls, fates))) == multiset(Ids(calls)) <==> NoMixedId(calls, fates)
    {
      StopAnswersAllIff(calls, fates);
    }
  }

  /** When every call finished, every call has its result, whatever the ids. */
  lemma AllDoneAnswersAll(calls: seq<ToolCall>, fates: seq<Fate>)
    requires |calls| == |fates| && forall i :: 0 <= i < |fates| ==> fates[i].Done?
    ensures multiset(CallIds(Results(calls, fates))) == multiset(Ids(calls))
  {
    AllDoneLeavesNone(calls, fates);
    ResultsAndRest(calls, fates);
  }

  /** And then the results stand in the order of the calls, each under its call's id. */
  lemma {:induction false} AllDoneInOrder(calls: seq<ToolCall>, fates: seq<Fate>)
    requires |calls| == |fates| && forall i :: 0 <= i < |fates| ==> fates[i].Done?
    ensures var ms := Results(calls, fates);
            |ms| == |calls| && forall i :: 0 <= i < |ms| ==> ms[i] == Msg(TOOL, [fates[i].text], [], calls[i].id)
  {
    if calls != [] { AllDoneInOrder(calls[..|calls| - 1], fates[..|calls| - 1]); }
  }

  lemma {:induction false} AllDoneLeavesNone(calls: seq<ToolCall>, fates: seq<Fate>)
    requires |calls| == |fates| && forall i :: 0 <= i < |fates| ==> fates[i].Done?
    ensures UnfinishedIds(calls, fates) == []
  {
    if calls != [] { AllDoneLeavesNone(calls[..|calls| - 1], fates[..|calls| - 1]); }
  }

  lemma {:induction false} DoneIsRecorded(calls: seq<ToolCall>, fates: seq<Fate>, i: nat)
    requires |calls| == |fates| && i < |calls| && fates[i].Done?
    ensures ToolResult(calls[i], fates[i].text) in Results(calls, fates)
  {
    var n := |calls| - 1;
    if i < n { DoneIsRecorded(calls[..n], fates[..n], i); }
  }

  lemma {:induction false} RestIsFilled(calls: seq<ToolCall>, answered: set<string>, i: nat)
    requires i < |calls| && calls[i].id !in answered
    ensures ToolResult(calls[i], INTERRUPTED) in Placeholders(calls, answered)
  {
    var n := |calls| - 1;
    if i < n { RestIsFilled(calls[..n], answered, i); }
  }

  lemma {:induction false} FilledOnlyIf(calls: seq<ToolCall>, answered: set<string>, id: string)
    ensures id in CallIds(Placeholders(calls, answered)) ==> id !in answered
  {
    if id in CallIds(Placeholders(calls, answered)) {
      var k :| 0 <= k < |Placeholders(calls, answered)| && Placeholders(calls, answered)[k].callId == id;
      PlaceholdersSkip(calls, answered, k);
    }
  }

  /** A call that finished keeps its own result, and any call has a placeholder under its id exactly when that id has no result. */
  lemma StopKeepsFinishedWork(calls: seq<ToolCall>, fates: seq<Fate>, i: nat)
    requires |calls| == |fates| && i < |calls|
    ensures AfterStop(calls, fates) == Results(calls, fates) + Placeholders(calls, Answered(calls, fates))
    ensures fates[i].Done? ==> ToolResult(calls[i], fates[i].text) in Results(calls, fates)
    ensures ToolResult(calls[i], INTERRUPTED) in Placeholders(calls, Answered(calls, fates)) <==> calls[i].id !in Answered(calls, fates)
    ensures calls[i].id in Answered(calls, fates) <==> calls[i].id in CallIds(Results(calls, fates))
  {
    var answered := Answered(calls, fates);
    if fates[i].Done? { DoneIsRecorded(calls, fates, i); }
    if calls[i].id !in answered { RestIsFilled(calls, answered, i); }
    FilledOnlyIf(calls, answered, calls[i].id);
    var fill := Placeholders(calls, answered);
    if ToolResult(calls[i], INTERRUPTED) in fill {
      var k :| 0 <= k < |fill| && fill[k] == ToolResult(calls[i], INTERRUPTED);
      assert CallIds(fill)[k] == calls[i].id;
    }
    AnsweredHaveResults(calls, fates, calls[i].id);
  }

  lemma {:induction false} AnsweredHaveResults(calls: seq<ToolCall>, fates: seq<Fate>, id: string)
    requires |calls| == |fates|
    ensures id in Answered(calls, fates) <==> id in CallIds(Results(calls, fates))
  {
    if calls != [] {
      var n := |calls| - 1;
      AnsweredHaveResults(calls[..n], fates[..n], id);
      assert Answered(calls, fates) == Answered(calls[..n], fates[..n]) + if fates[n].Done? then {calls[n].id} else {};
      if fates[n].Done? {
        assert CallIds(Results(calls, fates)) == CallIds(Results(calls[..n], fates[..n])) + [calls[n].id];
      } else {
        assert Results(calls, fates) == Results(calls[..n], fates[..n]);
      }
    }
  }
}
