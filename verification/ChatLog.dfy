/** One chat as a list of messages: revisions, the active window, and the tool-noise filter. */
module ChatLog {
  import opened Strings
  import opened Wrappers

  datatype Content = Text(text: string) | Parts(parts: seq<string>) | Null

  /** A stored message. `extra` is what its LLM message holds besides role, content and tool calls; `meta` its metadata besides the revision. */
  datatype Message = Message(role: string, content: Content, calls: seq<string>, extra: string,
                             createdAt: int, turnId: Option<string>, isSummary: bool, revision: Option<int>, meta: string)

  // ------------------------------------------------------------------ filter_tool_noise

  datatype Mode = StripAll | KeepAll

  predicate Blank(c: Content) { c.Null? || (c.Parts? && c.parts == []) || (c.Text? && Strip(c.text) == "") }

  /** What `strip_all` makes of one message. */
  function Keep(m: Message): Option<Message> {
    if m.role == "tool" then None
    else if m.role == "assistant" && m.calls != [] then
      if Blank(m.content) then None else Some(m.(calls := [], extra := ""))
    else Some(m)
  }

  function Strip1(m: Message): seq<Message> { if Keep(m).Some? then [Keep(m).value] else [] }

  function StripNoise(ms: seq<Message>): seq<Message> {
    if ms == [] then [] else StripNoise(ms[..|ms| - 1]) + Strip1(ms[|ms| - 1])
  }

  function Filtered(ms: seq<Message>, mode: Mode): seq<Message> { if mode.KeepAll? then ms else StripNoise(ms) }

  method FilterToolNoise(ms: seq<Message>, mode: Mode) returns (result: seq<Message>)
    ensures result == Filtered(ms, mode)
  {
    if mode.KeepAll? { return ms; }
    result := [];
    for i := 0 to |ms|
      invariant result == StripNoise(ms[..i])
    {
      assert ms[..i + 1][..i] == ms[..i];
      if ms[i].role == "tool" { continue; }
      if ms[i].role == "assistant" && ms[i].calls != [] {
        if Blank(ms[i].content) { continue; }
        result := result + [ms[i].(calls := [], extra := "")];
      } else {
        result := result + [ms[i]];
      }
    }
    assert ms[..|ms|] == ms;
  }

  lemma {:induction false} StripConcat(a: seq<Message>, b: seq<Message>)
    ensures StripNoise(a + b) == StripNoise(a) + StripNoise(b)
    decreases |b|
  {
    if b == [] {
      assert a + b == a;
    } else {
      var n := |b| - 1;
      assert (a + b)[..|a + b| - 1] == a + b[..n];
      StripConcat(a, b[..n]);
    }
  }

  /** No tool result and no assistant tool call is left. */
  predicate Clean(ms: seq<Message>) {
    forall i :: 0 <= i < |ms| ==> ms[i].role != "tool" && (ms[i].role == "assistant" ==> ms[i].calls == [])
  }

  lemma {:induction false} StripLeavesClean(ms: seq<Message>)
    ensures Clean(StripNoise(ms))
  {
    if ms != [] { StripLeavesClean(ms[..|ms| - 1]); }
  }

  lemma QuietIsKept(m: Message)
    requires m.role != "tool" && (m.role == "assistant" ==> m.calls == [])
    ensures Strip1(m) == [m]
  {
  }

  lemma LastOfClean(ms: seq<Message>)
    requires ms != []
    ensures Clean(ms) ==> Clean(ms[..|ms| - 1]) && Strip1(ms[|ms| - 1]) == [ms[|ms| - 1]]
    ensures StripNoise(ms) == StripNoise(ms[..|ms| - 1]) + Strip1(ms[|ms| - 1])
  {
    if Clean(ms) { QuietIsKept(ms[|ms| - 1]); }
    hide Strip1;
  }

  lemma {:induction false} CleanIsKept(ms: seq<Message>)
    ensures Clean(ms) ==> StripNoise(ms) == ms
  {
    if ms != [] {
      hide StripNoise;
      hide Strip1;
      hide Clean;
      var n := |ms| - 1;
      LastOfClean(ms);
      CleanIsKept(ms[..n]);
      assert ms[..n] + [ms[n]] == ms;
    }
  }

  /** The filter changes nothing exactly when there is no noise; hence it is idempotent. */
  lemma StripIsIdempotent(ms: seq<Message>)
    ensures StripNoise(ms) == ms <==> Clean(ms)
    ensures StripNoise(StripNoise(ms)) == StripNoise(ms)
  {
    StripLeavesClean(ms);
    CleanIsKept(ms);
    CleanIsKept(StripNoise(ms));
  }

  /** Where the messages that survive stood. */
  function Survivors(ms: seq<Message>): (at: seq<nat>)
    ensures forall i :: 0 <= i < |at| ==> at[i] < |ms|
  {
    if ms == [] then [] else
    var n := |ms| - 1;
    Survivors(ms[..n]) + if Keep(ms[n]).Some? then [n] else []
  }

  /** The filter's result is what is left of its survivors: exactly the messages it keeps, in the order they stood. */
  lemma StripKeepsOrder(ms: seq<Message>)
    ensures |StripNoise(ms)| == |Survivors(ms)|
    ensures forall i :: 0 <= i < |Survivors(ms)| ==> Keep(ms[Survivors(ms)[i]]) == Some(StripNoise(ms)[i])
    ensures forall n :: 0 <= n < |ms| ==> (n in Survivors(ms) <==> Keep(ms[n]).Some?)
    ensures forall i, j :: 0 <= i < j < |Survivors(ms)| ==> Survivors(ms)[i] < Survivors(ms)[j]
  {
    KeptForms(ms);
    forall n | 0 <= n < |ms| ensures n in Survivors(ms) <==> Keep(ms[n]).Some? { SurvivesIff(ms, n); }
    SurvivorsInOrder(ms);
  }

  lemma {:induction false} KeptForms(ms: seq<Message>)
    ensures |StripNoise(ms)| == |Survivors(ms)|
    ensures forall i :: 0 <= i < |Survivors(ms)| ==> Keep(ms[Survivors(ms)[i]]) == Some(StripNoise(ms)[i])
  {
    if ms != [] {
      var n := |ms| - 1;
      KeptForms(ms[..n]);
      forall i | 0 <= i < |Survivors(ms)| ensures Keep(ms[Survivors(ms)[i]]) == Some(StripNoise(ms)[i]) {
        if i < |Survivors(ms[..n])| { assert Keep(ms[..n][Survivors(ms[..n])[i]]) == Some(StripNoise(ms[..n])[i]); }
      }
    }
  }

  lemma {:induction false} SurvivorsInOrder(ms: seq<Message>)
    ensures forall i, j :: 0 <= i < j < |Survivors(ms)| ==> Survivors(ms)[i] < Survivors(ms)[j]
  {
    if ms != [] { SurvivorsInOrder(ms[..|ms| - 1]); }
  }

  lemma {:induction false} SurvivesIff(ms: seq<Message>, i: nat)
    requires i < |ms|
    ensures i in Survivors(ms) <==> Keep(ms[i]).Some?
  {
    var n := |ms| - 1;
    if i < n { SurvivesIff(ms[..n], i); }
  }

  // ------------------------------------------------------------------ the active window

  /** Where the latest summary is, or 0. */
  function WindowStart(ms: seq<Message>): (n: nat)
    ensures n <= |ms|
    ensures forall i :: n < i < |ms| ==> !ms[i].isSummary
    ensures 0 < n ==> n < |ms| && ms[n].isSummary
  {
    if ms == [] then 0
    else if ms[|ms| - 1].isSummary then |ms| - 1
    else WindowStart(ms[..|ms| - 1])
  }

  /** The latest summary, if any, and everything behind it. */
  function Active(ms: seq<Message>): seq<Message> { ms[WindowStart(ms)..] }

  /** `_active_messages`, read from the end. */
  method ActiveMessages(ms: seq<Message>) returns (result: seq<Message>)
    ensures result == Active(ms)
  {
    result := [];
    var i := |ms|;
    while i > 0
      invariant 0 <= i <= |ms| && result == ms[i..]
      invariant forall j :: i <= j < |ms| ==> !ms[j].isSummary
    {
      i := i - 1;
      result := [ms[i]] + result;
      if ms[i].isSummary {
        WindowIs(ms, i);
        return;
      }
    }
    WindowIs(ms, 0);
  }

  lemma {:induction false} WindowIs(ms: seq<Message>, n: nat)
    requires n == 0 || (n < |ms| && ms[n].isSummary)
    requires forall i :: n < i < |ms| ==> !ms[i].isSummary
    ensures WindowStart(ms) == n
  {
    if |ms| > n + 1 {
      var init := ms[..|ms| - 1];
      assert forall i :: n < i < |init| ==> !init[i].isSummary;
      WindowIs(init, n);
    }
  }

  lemma {:induction false} StripAddsNoSummary(ms: seq<Message>)
    requires forall i :: 0 <= i < |ms| ==> !ms[i].isSummary
    ensures forall i :: 0 <= i < |StripNoise(ms)| ==> !StripNoise(ms)[i].isSummary
  {
    if ms != [] { StripAddsNoSummary(ms[..|ms| - 1]); }
  }

  lemma {:induction false} ActiveBehind(a: seq<Message>, b: seq<Message>)
    requires forall i :: 0 <= i < |b| ==> !b[i].isSummary
    ensures Active(a + b) == Active(a) + b
    decreases |b|
  {
    if b == [] {
      assert a + b == a;
    } else {
      var n := |b| - 1;
      assert (a + b)[..|a + b| - 1] == a + b[..n];
      ActiveBehind(a, b[..n]);
    }
  }

  lemma StripParts(a: seq<Message>, m: Message, b: seq<Message>)
    ensures StripNoise(a + [m] + b) == StripNoise(a) + Strip1(m) + StripNoise(b)
  {
    StripConcat(a + [m], b);
    assert (a + [m])[..|a|] == a;
  }

  lemma ActiveOfOne(m: Message)
    ensures Active([m]) == [m]
  {
  }

  lemma ActiveEmptyIff(ms: seq<Message>)
    ensures Active(ms) == [] <==> ms == []
  {
    assert ms != [] ==> WindowStart(ms) < |ms|;
  }

  lemma CancelRight(a: seq<Message>, b: seq<Message>, c: seq<Message>)
    ensures a + c == b + c <==> a == b
  {
    if a + c == b + c {
      assert |a| == |b| && a == (a + c)[..|a|] == (b + c)[..|b|] == b;
    }
  }

  /** Both sides in terms of what is left of the parts around the window's start. */
  lemma AroundTheWindow(ms: seq<Message>, before: seq<Message>, kept: seq<Message>, rest: seq<Message>)
    requires ms != [] && before == StripNoise(ms[..WindowStart(ms)])
    requires kept == Strip1(ms[WindowStart(ms)]) && rest == StripNoise(ms[WindowStart(ms) + 1..])
    ensures StripNoise(Active(ms)) == kept + rest && StripNoise(ms) == before + kept + rest
    ensures forall i :: 0 <= i < |rest| ==> !rest[i].isSummary
    ensures WindowStart(ms) == 0 ==> before == []
  {
    hide StripNoise;
    hide Keep;
    hide WindowStart;
    var n := WindowStart(ms);
    WindowSplits(ms);
    NothingToStrip(ms);
    StripParts(ms[..n], ms[n], ms[n + 1..]);
    StripHead(ms[n], ms[n + 1..]);
    StripAddsNoSummary(ms[n + 1..]);
  }

  lemma NothingToStrip(ms: seq<Message>)
    ensures ms[..0] == [] && StripNoise([]) == []
  {
  }

  lemma WindowSplits(ms: seq<Message>)
    requires ms != []
    ensures var n := WindowStart(ms); ms == ms[..n] + [ms[n]] + ms[n + 1..] && Active(ms) == [ms[n]] + ms[n + 1..]
  {
  }

  lemma StripHead(m: Message, b: seq<Message>)
    ensures StripNoise([m] + b) == Strip1(m) + StripNoise(b)
  {
    StripConcat([m], b);
    assert [m][..0] == [];
  }

  lemma SameWindowIff(before: seq<Message>, kept: seq<Message>, rest: seq<Message>)
    requires |kept| <= 1 && forall i :: 0 <= i < |rest| ==> !rest[i].isSummary
    requires kept != [] && !kept[0].isSummary ==> before == []
    ensures kept + rest == Active(before + kept + rest) <==> kept != [] || before == []
  {
    ActiveBehind(before + kept, rest);
    CancelRight(kept, Active(before + kept), rest);
    if kept == [] {
      assert before + kept == before;
      ActiveEmptyIff(before);
    } else if kept[0].isSummary {
      assert before + kept == before + [kept[0]];
      ActiveFromLast(before, kept[0]);
    } else {
      assert before + kept == [kept[0]];
      ActiveOfOne(kept[0]);
    }
  }

  /** Filtering commutes with taking the window exactly when the latest summary survives, or nothing before it does. */
  lemma FilterCommutesIff(ms: seq<Message>)
    requires ms != []
    ensures var n := WindowStart(ms);
            (StripNoise(Active(ms)) == Active(StripNoise(ms))) <==> (!ms[n].isSummary || Keep(ms[n]).Some? || StripNoise(ms[..n]) == [])
  {
    hide StripNoise;
    hide Active;
    var n := WindowStart(ms);
    var before, kept, rest := StripNoise(ms[..n]), Strip1(ms[n]), StripNoise(ms[n + 1..]);
    AroundTheWindow(ms, before, kept, rest);
    SameWindowIff(before, kept, rest);
  }

  lemma ActiveFromLast(a: seq<Message>, m: Message)
    requires m.isSummary
    ensures Active(a + [m]) == [m]
  {
    WindowIs(a + [m], |a|);
  }

  /** The summaries `save_summary` writes have the system role, so they always survive. */
  lemma SystemSurvives(m: Message)
    requires m.role == "system"
    ensures Keep(m) == Some(m)
  {
  }
}
