/** Message lists a model provider accepts: every advertised tool call is answered before the conversation goes on. */
module Replay {
  import opened Wrappers

  datatype ToolCall = ToolCall(id: string, name: string)

  /** An LLM message; its content is a list of parts, a plain text being one part. */
  datatype Msg = Msg(role: string, content: seq<string>, calls: seq<ToolCall>, callId: string)

  const USER := "user"
  const ASSISTANT := "assistant"
  const TOOL := "tool"

  function Text(role: string, text: string): Msg { Msg(role, [text], [], "") }
  function ToolResult(call: ToolCall, text: string): Msg { Msg(TOOL, [text], [], call.id) }

  function Ids(calls: seq<ToolCall>): seq<string> { seq(|calls|, i requires 0 <= i < |calls| => calls[i].id) }
  function CallIds(ms: seq<Msg>): seq<string> { seq(|ms|, i requires 0 <= i < |ms| => ms[i].callId) }

  predicate AllTools(ms: seq<Msg>) { forall i :: 0 <= i < |ms| ==> ms[i].role == TOOL }

  /**
   The calls still unanswered after `ms`, read strictly: a tool message must answer a pending call, and any
   other message must find nothing pending. `None` when that fails somewhere.
  */
  function Pending(ms: seq<Msg>): Option<multiset<string>> {
    if ms == [] then Some(multiset{}) else
    var m, before := ms[|ms| - 1], Pending(ms[..|ms| - 1]);
    if before.None? then None
    else if m.role == TOOL then
      if m.callId in before.value then Some(before.value - multiset{m.callId}) else None
    else if before.value == multiset{} then Some(multiset(Ids(m.calls))) else None
  }

  predicate Sound(ms: seq<Msg>) { Pending(ms).Some? }
  predicate Replayable(ms: seq<Msg>) { Pending(ms) == Some(multiset{}) }

  // ------------------------------------------------------------------ an independent reading

  /** The end of the run of tool messages that starts at `i`. */
  function RunEnd(ms: seq<Msg>, i: nat): (e: nat)
    requires i <= |ms|
    ensures i <= e <= |ms| && AllTools(ms[i..e]) && (e < |ms| ==> ms[e].role != TOOL)
    decreases |ms| - i
  {
    if i == |ms| || ms[i].role != TOOL then i else
    var e := RunEnd(ms, i + 1);
    assert ms[i..e] == [ms[i]] + ms[i + 1..e];
    e
  }

  /** Each message other than a tool result is followed by exactly one result for each call it advertises. */
  predicate EachCallAnsweredOnce(ms: seq<Msg>) {
    && RunEnd(ms, 0) == 0
    && forall i :: 0 <= i < |ms| && ms[i].role != TOOL ==>
         multiset(CallIds(ms[i + 1..RunEnd(ms, i + 1)])) == multiset(Ids(ms[i].calls))
  }

  lemma {:induction false} PendingPrefix(ms: seq<Msg>, n: nat)
    requires n <= |ms| && Sound(ms)
    ensures Sound(ms[..n])
    decreases |ms| - n
  {
    if n < |ms| {
      assert ms[..|ms| - 1][..n] == ms[..n];
      PendingPrefix(ms[..|ms| - 1], n);
    } else {
      assert ms[..n] == ms;
    }
  }

  lemma PendingOne(ms: seq<Msg>, m: Msg)
    ensures Pending(ms + [m]) ==
              if Pending(ms).None? then None
              else if m.role == TOOL then
                (if m.callId in Pending(ms).value then Some(Pending(ms).value - multiset{m.callId}) else None)
              else if Pending(ms).value == multiset{} then Some(multiset(Ids(m.calls))) else None
  {
    assert (ms + [m])[..|ms|] == ms;
  }

  lemma TakeOne(p: multiset<string>, taken: multiset<string>, x: string)
    ensures taken + multiset{x} <= p <==> taken <= p && x in p - taken
    ensures p - taken - multiset{x} == p - (taken + multiset{x})
  {
    if taken + multiset{x} <= p { assert (taken + multiset{x})[x] <= p[x]; }
  }

  lemma CallIdsMore(tools: seq<Msg>, m: Msg)
    ensures multiset(CallIds(tools + [m])) == multiset(CallIds(tools)) + multiset{m.callId}
  {
    assert CallIds(tools + [m]) == CallIds(tools) + [m.callId];
  }

  lemma NoCallIds()
    ensures multiset(CallIds([])) == multiset{}
  {
    assert CallIds([]) == [];
  }

  /** A run of tool messages is accepted exactly when it names pending calls only, each as often as pending. */
  lemma {:induction false} PendingTools(ms: seq<Msg>, tools: seq<Msg>)
    requires Sound(ms) && AllTools(tools)
    ensures var taken := multiset(CallIds(tools));
            Pending(ms + tools) == if taken <= Pending(ms).value then Some(Pending(ms).value - taken) else None
    decreases |tools|
  {
    hide Pending;
    hide CallIds;
    var p := Pending(ms).value;
    if tools == [] {
      assert ms + tools == ms && p - multiset{} == p;
      NoCallIds();
    } else {
      var init, last := tools[..|tools| - 1], tools[|tools| - 1];
      assert tools == init + [last] && last.role == TOOL && ms + tools == (ms + init) + [last];
      PendingTools(ms, init);
      PendingOne(ms + init, last);
      CallIdsMore(init, last);
      TakeOne(p, multiset(CallIds(init)), last.callId);
    }
  }

  /** One message and the run of tool results behind it. */
  lemma PendingBlock(ms: seq<Msg>, m: Msg, tools: seq<Msg>)
    requires m.role != TOOL && AllTools(tools) && Replayable(ms)
    ensures Replayable(ms + [m] + tools) <==> multiset(CallIds(tools)) == multiset(Ids(m.calls))
    ensures Sound(ms + [m] + tools) <==> multiset(CallIds(tools)) <= multiset(Ids(m.calls))
  {
    PendingOne(ms, m);
    PendingTools(ms + [m], tools);
  }

  predicate Boundary(ms: seq<Msg>, n: nat) { n <= |ms| && (n == |ms| || ms[n].role != TOOL) }

  lemma RunEndIs(ms: seq<Msg>, i: nat, e: nat)
    requires i <= e && Boundary(ms, e) && AllTools(ms[i..e])
    ensures RunEnd(ms, i) == e
    decreases e - i
  {
    if i < e {
      assert ms[i] == ms[i..e][0] && ms[i + 1..e] == ms[i..e][1..];
      RunEndIs(ms, i + 1, e);
    }
  }

  lemma SettledAtBoundaries(ms: seq<Msg>, n: nat)
    requires Replayable(ms) && Boundary(ms, n)
    ensures Replayable(ms[..n])
  {
    if n == |ms| {
      assert ms[..n] == ms;
    } else {
      PendingPrefix(ms, n + 1);
      assert ms[..n + 1] == ms[..n] + [ms[n]];
      PendingOne(ms[..n], ms[n]);
    }
  }

  lemma BlockAnswered(ms: seq<Msg>, i: nat)
    requires i < |ms| && ms[i].role != TOOL && Replayable(ms[..i])
    ensures Replayable(ms[..RunEnd(ms, i + 1)]) <==>
              multiset(CallIds(ms[i + 1..RunEnd(ms, i + 1)])) == multiset(Ids(ms[i].calls))
  {
    var e := RunEnd(ms, i + 1);
    assert ms[..e] == ms[..i] + [ms[i]] + ms[i + 1..e];
    PendingBlock(ms[..i], ms[i], ms[i + 1..e]);
  }

  /** The message whose results end at `n`. */
  lemma LastBlock(ms: seq<Msg>, n: nat) returns (i: nat)
    requires 0 < n && Boundary(ms, n) && RunEnd(ms, 0) == 0
    ensures i < n && ms[i].role != TOOL && RunEnd(ms, i + 1) == n
  {
    i := n - 1;
    while ms[i].role == TOOL
      invariant i < n && AllTools(ms[i + 1..n])
      decreases i
    {
      assert ms[i..n] == [ms[i]] + ms[i + 1..n];
      assert i > 0;
      i := i - 1;
    }
    RunEndIs(ms, i + 1, n);
  }

  lemma {:induction false} AnsweredUpTo(ms: seq<Msg>, n: nat)
    requires EachCallAnsweredOnce(ms) && Boundary(ms, n)
    ensures Replayable(ms[..n])
    decreases n
  {
    if n > 0 {
      var i := LastBlock(ms, n);
      AnsweredUpTo(ms, i);
      BlockAnswered(ms, i);
    }
  }

  /** Reading strictly from the left accepts exactly the lists in which each call is answered once, in place. */
  lemma ReplayableIff(ms: seq<Msg>)
    ensures Replayable(ms) <==> EachCallAnsweredOnce(ms)
  {
    if EachCallAnsweredOnce(ms) {
      AnsweredUpTo(ms, |ms|);
      assert ms[..|ms|] == ms;
    }
    if Replayable(ms) {
      var first := RunEnd(ms, 0);
      SettledAtBoundaries(ms, first);
      assert ms[0..first] == ms[..first] == [] + ms[..first];
      PendingTools([], ms[..first]);
      assert |CallIds(ms[..first])| == |multiset(CallIds(ms[..first]))| == 0;
      forall i | 0 <= i < |ms| && ms[i].role != TOOL
        ensures multiset(CallIds(ms[i + 1..RunEnd(ms, i + 1)])) == multiset(Ids(ms[i].calls))
      {
        SettledAtBoundaries(ms, i);
        SettledAtBoundaries(ms, RunEnd(ms, i + 1));
        BlockAnswered(ms, i);
      }
    }
  }
}
