/**
 One turn of the agent: the loop over model calls and tool runs, its exits, and the commit all of them
 go through. The model, the tools, the interceptors and the host are arbitrary: what they do is
 chosen freely (`*`) each time they are asked.
*/
module AgentTurn {
  import opened Wrappers
  import opened Replay
  import opened ToolRuns

  /** The opening words of the repository's texts; nothing depends on the rest of them. */
  const ABORTED_CONTENT := "(turn aborted before completion)"
  const UNUSABLE: set<string> := {"length", "content_filter", "error"}

  /** How a step of the turn ends: normally, or by an exception. */
  datatype Signal = Go | StopRequested | Abort | Cancel | SchemaFailed | BadInterrupt | Failed(text: string)

  datatype Status = Running | Completed | Aborted | Error

  datatype Response = Response(content: string, finish: string, calls: seq<ToolCall>)

  datatype Closure = MaxIterations | Shutdown

  const MAX_ITERATIONS_REACHED := "(max iterations reached)"
  const SHUTTING_DOWN := "(interrupted: the agent is shutting down)"

  function Marker(reason: Closure): (s: string)
    ensures s != ""
  {
    match reason
    case MaxIterations => MAX_ITERATIONS_REACHED
    case Shutdown => SHUTTING_DOWN
  }

  /** A started model call: its prompt, how much of it is not ephemeral, and the cache hint it carried. */
  datatype Prompt = Prompt(messages: seq<Msg>, stable: nat, hint: Option<int>, appended: nat)

  // ------------------------------------------------------------------ the context

  function WithContent(m: Msg, content: seq<string>): Msg { m.(content := content) }

  /** `add_message(m, merge=...)` on the turn's own messages. */
  function Added(current: seq<Msg>, m: Msg, merge: bool): seq<Msg> {
    if Merges(current, m, merge) then
      var last := current[|current| - 1];
      current[..|current| - 1] + [WithContent(last, last.content + m.content)]
    else current + [m]
  }

  predicate Merges(current: seq<Msg>, m: Msg, merge: bool) {
    merge && current != [] && current[|current| - 1].role == m.role
  }

  function AllContent(ms: seq<Msg>): seq<string> { if ms == [] then [] else AllContent(ms[..|ms| - 1]) + ms[|ms| - 1].content }

  /**
   However a message comes in, its content goes behind all there was, under its own role; what stood before stays,
   and a message of its own is made exactly when it is not to merge or the last one has another role.
  */
  lemma AddedSaysAll(current: seq<Msg>, m: Msg, merge: bool)
    ensures var r := Added(current, m, merge);
            && AllContent(r) == AllContent(current) + m.content && r != [] && r[|r| - 1].role == m.role
            && |current| <= |r| <= |current| + 1 && (|r| == |current| <==> Merges(current, m, merge))
            && (forall i :: 0 <= i < |r| - 1 ==> r[i] == current[i])
            && (Merges(current, m, merge) ==> r[|r| - 1].calls == current[|r| - 1].calls)
            && (!Merges(current, m, merge) ==> r[|r| - 1] == m)
  {
    var r := Added(current, m, merge);
    if Merges(current, m, merge) {
      var n := |current| - 1;
      assert r[..n] == current[..n];
      assert AllContent(current[..n]) + (current[n].content + m.content) == AllContent(current[..n]) + current[n].content + m.content;
    } else {
      assert r[..|current|] == current;
    }
  }

  /** The messages of one role, in order. */
  function ByRole(ms: seq<Msg>, role: string): seq<Msg> {
    if ms == [] then [] else ByRole(ms[..|ms| - 1], role) + if ms[|ms| - 1].role == role then [ms[|ms| - 1]] else []
  }

  function Spoken(ms: seq<Msg>): seq<Msg> { ByRole(ms, ASSISTANT) }

  function UsersOf(ms: seq<Msg>): seq<Msg> { ByRole(ms, USER) }

  /** Taken apart anywhere, a list gives the same: each message of the role once, in its place, and no other. */
  lemma {:induction false} ByRoleConcat(a: seq<Msg>, b: seq<Msg>, role: string)
    ensures ByRole(a + b, role) == ByRole(a, role) + ByRole(b, role)
    decreases |b|
  {
    if b == [] {
      assert a + b == a;
    } else {
      var n := |b| - 1;
      ByRoleConcat(a, b[..n], role);
      assert (a + b)[..|a| + n] == a + b[..n];
    }
  }

  lemma {:induction false} ByRoleOfOne(ms: seq<Msg>, role: string)
    ensures (forall i :: 0 <= i < |ms| ==> ms[i].role == role) ==> ByRole(ms, role) == ms
    ensures (forall i :: 0 <= i < |ms| ==> ms[i].role != role) ==> ByRole(ms, role) == []
  {
    if ms != [] {
      ByRoleOfOne(ms[..|ms| - 1], role);
      assert ms == ms[..|ms| - 1] + [ms[|ms| - 1]];
    }
  }

  /** One message more, whoever's it is. */
  lemma SpokenMore(ms: seq<Msg>, m: Msg)
    ensures Spoken(ms + [m]) == Spoken(ms) + if m.role == ASSISTANT then [m] else []
    ensures m.role == USER ==> Spoken(Added(ms, m, true)) == Spoken(ms)
  {
    assert (ms + [m])[..|ms|] == ms;
    if Merges(ms, m, true) {
      var r := Added(ms, m, true);
      assert r[..|ms| - 1] == ms[..|ms| - 1];
    }
  }

  predicate FromUsers(ms: seq<Msg>) { forall i :: 0 <= i < |ms| ==> ms[i].role == USER }

  class TurnContext {
    var system: seq<Msg>
    var history: seq<Msg>
    var current: seq<Msg>
    var ephemeral: seq<Msg>
    var finalContent: Option<string>

    constructor (history: seq<Msg>)
      ensures this.history == history && system == [] && current == [] && ephemeral == [] && finalContent.None?
    {
      this.history, system, current, ephemeral, finalContent := history, [], [], [], None;
    }

    method AddMessage(m: Msg, merge: bool)
      modifies this`current
      ensures current == Added(old(current), m, merge)
    {
      if merge && current != [] && current[|current| - 1].role == m.role {
        var last := current[|current| - 1];
        current := current[..|current| - 1] + [last.(content := last.content + m.content)];
      } else {
        current := current + [m];
      }
    }

    /** What is not ephemeral in a prompt. */
    function Stable(): seq<Msg>
      reads this`system, this`history, this`current
    {
      system + history + current
    }

    /** The output of an unstructured turn. */
    function FinalResponse(): seq<string>
      reads this
    {
      if current == [] then ["(no response)"]
      else if finalContent.Some? && finalContent.value != "" then [finalContent.value]
      else current[|current| - 1].content
    }

    function LlmMessages(): seq<Msg>
      reads this
    {
      Stable() + ephemeral
    }
  }

  predicate Plain(m: Msg) { m.role != TOOL && m.calls == [] }

  /** Interrupts are neither tool results nor calls, and the calls of one response have distinct ids. */
  predicate WellBehaved(interrupts: seq<Msg>, responses: seq<Response>) {
    (forall i :: 0 <= i < |interrupts| ==> Plain(interrupts[i])) && forall i :: 0 <= i < |responses| ==> Distinct(responses[i].calls)
  }

  /** A tool run that a stop cut short, and what had become of each call by then. */
  datatype Cut = Cut(calls: seq<ToolCall>, fates: seq<Fate>)

  predicate Unmixed(cut: Cut) { |cut.calls| == |cut.fates| && NoMixedId(cut.calls, cut.fates) }

  /** Every interrupt that became a message is plain, and no stop found an id on both sides. */
  predicate Harmless(strays: seq<Msg>, cuts: seq<Cut>) {
    (forall i :: 0 <= i < |strays| ==> Plain(strays[i])) && forall i :: 0 <= i < |cuts| ==> Unmixed(cuts[i])
  }

  /** They were delivered, and answered with: the one by the callback, the other by the model. */
  predicate Told(interrupts: seq<Msg>, responses: seq<Response>, strays: seq<Msg>, cuts: seq<Cut>) {
    && (forall i :: 0 <= i < |strays| ==> strays[i] in interrupts)
    && forall i :: 0 <= i < |cuts| ==> |cuts[i].fates| == |cuts[i].calls| && Asked(responses, cuts[i].calls)
  }

  predicate Asked(responses: seq<Response>, calls: seq<ToolCall>) { exists i :: 0 <= i < |responses| && responses[i].calls == calls }

  lemma BehavedIsHarmless(interrupts: seq<Msg>, responses: seq<Response>, strays: seq<Msg>, cuts: seq<Cut>)
    requires WellBehaved(interrupts, responses) && Told(interrupts, responses, strays, cuts)
    ensures Harmless(strays, cuts)
  {
    forall i | 0 <= i < |strays| ensures Plain(strays[i]) { assert strays[i] in interrupts; }
    forall i | 0 <= i < |cuts| ensures Unmixed(cuts[i]) {
      assert Asked(responses, cuts[i].calls);
      var k :| 0 <= k < |responses| && responses[k].calls == cuts[i].calls;
      DistinctNeverMix(responses[k].calls, cuts[i].fates);
    }
  }

  lemma ToldMore(interrupts: seq<Msg>, responses: seq<Response>, strays: seq<Msg>, cuts: seq<Cut>, m: Msg, r: Response)
    requires Told(interrupts, responses, strays, cuts)
    ensures Told(interrupts + [m], responses, strays, cuts) && Told(interrupts + [m], responses, strays + [m], cuts)
    ensures Told(interrupts, responses + [r], strays, cuts)
  {
    forall i | 0 <= i < |cuts| ensures Asked(responses + [r], cuts[i].calls) {
      assert Asked(responses, cuts[i].calls);
      var k :| 0 <= k < |responses| && responses[k].calls == cuts[i].calls;
      assert (responses + [r])[k] == responses[k];
    }
  }

  lemma ToldCut(interrupts: seq<Msg>, responses: seq<Response>, strays: seq<Msg>, cuts: seq<Cut>, r: Response, fates: seq<Fate>)
    requires Told(interrupts, responses, strays, cuts) && r in responses && |fates| == |r.calls|
    ensures Told(interrupts, responses, strays, cuts + [Cut(r.calls, fates)])
    ensures Harmless(strays, cuts + [Cut(r.calls, fates)]) <==> Harmless(strays, cuts) && NoMixedId(r.calls, fates)
  {
    hide Plain;
    hide NoMixedId;
    var more := cuts + [Cut(r.calls, fates)];
    assert more[|cuts|] == Cut(r.calls, fates) && forall i :: 0 <= i < |cuts| ==> more[i] == cuts[i];
  }

  lemma UsersPlainMore(ms: seq<Msg>, m: Msg)
    ensures UsersPlain(ms + [m]) <==> UsersPlain(ms) && (m.role == USER ==> m.calls == [])
  {
    assert (ms + [m])[|ms|] == m && forall i :: 0 <= i < |ms| ==> (ms + [m])[i] == ms[i];
  }

  lemma StrayMore(strays: seq<Msg>, cuts: seq<Cut>, m: Msg)
    ensures Harmless(strays + [m], cuts) <==> Harmless(strays, cuts) && Plain(m)
    ensures UsersPlain(strays + [m]) <==> UsersPlain(strays) && (m.role == USER ==> m.calls == [])
  {
    hide Plain;
    hide Unmixed;
    var more := strays + [m];
    assert more[|strays|] == m && forall i :: 0 <= i < |strays| ==> more[i] == strays[i];
  }

  /** User messages advertise no calls. */
  predicate UsersPlain(ms: seq<Msg>) { forall i :: 0 <= i < |ms| && ms[i].role == USER ==> ms[i].calls == [] }

  /** Merging content into the last message changes no call and no answer. */
  lemma MergeKeepsPending(current: seq<Msg>, m: Msg)
    requires Merges(current, m, true)
    ensures Pending(Added(current, m, true)) == Pending(current)
    ensures UsersPlain(current) <==> UsersPlain(Added(current, m, true))
  {
    var n := |current| - 1;
    var r := Added(current, m, true);
    assert r[..n] == current[..n];
    assert r[n].calls == current[n].calls && r[n].role == current[n].role && forall i :: 0 <= i < n ==> r[i] == current[i];
  }

  /** A message appended between blocks is harmless exactly when it is no tool result and advertises no call. */
  lemma AppendIsHarmlessIff(current: seq<Msg>, m: Msg)
    requires Replayable(current)
    ensures Replayable(current + [m]) <==> Plain(m)
    ensures UsersPlain(current) && m.calls == [] ==> UsersPlain(current + [m])
  {
    PendingOne(current, m);
    assert multiset(Ids(m.calls)) == multiset{} <==> m.calls == [] by {
      assert |multiset(Ids(m.calls))| == |m.calls|;
    }
  }

  lemma AddedKeepsPrefix(base: seq<Msg>, current: seq<Msg>, m: Msg, n: nat)
    requires n < |base + current|
    ensures |base + Added(current, m, true)| == |base + current| + if Merges(current, m, true) then 0 else 1
    ensures (base + Added(current, m, true))[..n] == (base + current)[..n]
  {
  }

  // ------------------------------------------------------------------ what every turn keeps

  /**
   Between two calls in a row: the later one's negative cache index is in range and names the last message
   that was not ephemeral in the earlier prompt, moved right by the interrupts appended since; and up to
   there the prompt is unchanged.
  */
  predicate CachesPrefix(earlier: Prompt, later: Prompt) {
    && earlier.stable <= later.stable <= |later.messages| && earlier.stable <= |earlier.messages|
    && later.messages[..earlier.stable] == earlier.messages[..earlier.stable]
    && later.hint.Some? && 0 <= |later.messages| + later.hint.value < later.stable
    && |later.messages| + later.hint.value == earlier.stable - 1 + later.appended
  }

  predicate PromptsCache(prompts: seq<Prompt>) {
    && (prompts != [] ==> prompts[0].hint.None?)
    && forall k :: 0 < k < |prompts| ==> CachesPrefix(prompts[k - 1], prompts[k])
  }

  /** The hint names the last non-ephemeral message of the previous prompt exactly when no interrupt was appended since. */
  lemma HintIsExactIff(prompts: seq<Prompt>, k: nat)
    requires PromptsCache(prompts) && 0 < k < |prompts|
    ensures var earlier, later := prompts[k - 1], prompts[k];
            && later.hint.Some? && 0 <= |later.messages| + later.hint.value < |later.messages|
            && (|later.messages| + later.hint.value == earlier.stable - 1 <==> later.appended == 0)
            && (later.appended == 0 ==> later.messages[|later.messages| + later.hint.value] == earlier.messages[earlier.stable - 1])
  {
    var earlier, later := prompts[k - 1], prompts[k];
    assert CachesPrefix(earlier, later);
    if later.appended == 0 && earlier.stable > 0 {
      assert later.messages[..earlier.stable][earlier.stable - 1] == earlier.messages[..earlier.stable][earlier.stable - 1];
    }
  }

  class Turn {
    const ctx: TurnContext
    const maxIterations: nat
    const maxRetries: nat
    const hasSchema: bool
    const safe: set<string>

    /** What is left of a reply without reasoning blocks and parroted labels (`_strip_reply_artifacts`), "" for nothing. */
    const clean: string -> string

    var cacheIndex: int
    var iteration: nat
    var retries: nat
    var structured: bool
    var stop: bool

    /** Every model call and tool body that was scheduled, and how many when the stop flag was set. */
    ghost var prompts: seq<Prompt>
    ghost var bodies: seq<ToolCall>
    ghost var promptsAtStop: nat
    ghost var bodiesAtStop: nat

    /** What the interrupt callback delivered, and what the model answered. */
    ghost var interrupts: seq<Msg>
    ghost var responses: seq<Response>

    /** The interrupts that became messages of their own, and the tool runs a stop cut short. */
    ghost var strays: seq<Msg>
    ghost var cuts: seq<Cut>

    /** The turn concluded on a reply of the model's own. */
    ghost var answered: bool

    /** Messages added through the counter, and interrupts appended past it, since the last model call. */
    ghost var added: nat
    ghost var appended: nat

    constructor (user: Msg, history: seq<Msg>, ephemeral: seq<Msg>, maxIterations: nat, maxRetries: nat, hasSchema: bool, safe: set<string>,
        clean: string -> string)
      requires user.role == USER && user.calls == []
      ensures Fine() && Cached() && fresh(ctx) && added == 0 && prompts == [] && !stop && iteration == 0 && retries == 0
      ensures Spoke(0) && responses == []
      ensures Clear() && Replayable(ctx.current) && ctx.finalContent.None? && !structured && !answered && strays == [] && cuts == []
      ensures this.maxIterations == maxIterations && this.maxRetries == maxRetries && this.hasSchema == hasSchema && this.clean == clean
    {
      var c := new TurnContext(history);
      c.AddMessage(user, false);
      c.ephemeral := ephemeral;
      ctx := c;
      this.maxIterations, this.maxRetries, this.hasSchema, this.safe, this.clean := maxIterations, maxRetries, hasSchema, safe, clean;
      cacheIndex, iteration, retries, structured, stop := 0, 0, 0, false, false;
      prompts, bodies, promptsAtStop, bodiesAtStop := [], [], 0, 0;
      answered, added, appended, interrupts, responses, strays, cuts := false, 0, 0, [], [], [], [];
      AppendIsHarmlessIff([], user);
      assert [] + [user] == [user];
      SpokenMore([], user);
    }

    /** No interrupt and no stop did harm. */
    ghost predicate Fit()
      reads this`strays, this`cuts
    {
      Harmless(strays, cuts)
    }

    /** The transcript can be replayed exactly when none did; while one waits for the next message, this is all there is to say. */
    ghost predicate Settled()
      reads this`strays, this`cuts, ctx`current
    {
      Fit() <==> Replayable(ctx.current)
    }

    /** And behind a message of the turn's own, a harm done is beyond repair. */
    ghost predicate Clear()
      reads this`strays, this`cuts, ctx`current
    {
      Settled() && (Fit() <==> Sound(ctx.current))
    }

    ghost predicate Fine()
      reads this`stop, this`prompts, this`promptsAtStop, this`bodies, this`bodiesAtStop, this`iteration, this`retries
      reads this`interrupts, this`responses, this`strays, this`cuts, ctx`current
    {
      && Told(interrupts, responses, strays, cuts)
      && (Fit() ==> Sound(ctx.current)) && (UsersPlain(ctx.current) <==> UsersPlain(strays))
      && ctx.current != [] && ctx.current[0].role == USER
      && (stop ==> |prompts| == promptsAtStop && |bodies| == bodiesAtStop)
      && |prompts| <= iteration <= maxIterations && retries <= maxRetries
      && PromptsCache(prompts)
    }

    ghost predicate Cached()
      reads this`cacheIndex, this`prompts, this`added, this`appended, ctx`system, ctx`history, ctx`current
    {
      && cacheIndex == (if prompts == [] then 0 else -1) - added
      && (prompts != [] ==>
            var last := prompts[|prompts| - 1];
            && 0 < last.stable <= |last.messages| && |ctx.Stable()| == last.stable + added + appended
            && ctx.Stable()[..last.stable] == last.messages[..last.stable])
    }

    /** The text is what a response says when all its model leaks is taken out, or says why there is none. */
    predicate Replies(response: Response, text: string) {
      && (clean(response.content) != "" ==> text == clean(response.content))
      && (clean(response.content) == "" && response.finish == "error" ==> text == "(LLM responds error)")
      && (clean(response.content) == "" && response.finish != "error" ==> text == "(empty model response)")
    }

    /** The assistant's message for a response: the calls it asks for with what it says beside them, or its reply. */
    predicate Voices(m: Msg, response: Response) {
      if response.calls != [] then m == Msg(ASSISTANT, [response.content], response.calls, "")
      else |m.content| == 1 && m == Text(ASSISTANT, m.content[0]) && Replies(response, m.content[0])
    }

    predicate Voiced(ms: seq<Msg>, responses: seq<Response>) {
      |ms| == |responses| && forall i :: 0 <= i < |ms| ==> Voices(ms[i], responses[i])
    }

    /** If only users interrupted, the assistant said what the model answered the first `n` times, in order, and nothing else. */
    ghost predicate Spoke(n: int)
      reads this`interrupts, this`responses, ctx`current
    {
      0 <= n <= |responses| && (FromUsers(interrupts) ==> Voiced(Spoken(ctx.current), responses[..n]))
    }

    /** And then one thing more, of its own. */
    ghost predicate SpokeThenClosed()
      reads this`interrupts, this`responses, ctx`current
    {
      FromUsers(interrupts) ==>
        var said := Spoken(ctx.current);
        said != [] && ctx.current != [] && said[|said| - 1] == ctx.current[|ctx.current| - 1] && Voiced(said[..|said| - 1], responses)
    }

    ghost predicate IsLast(response: Response)
      reads this`responses
    {
      responses != [] && responses[|responses| - 1] == response
    }

    lemma SpokeMore(before: seq<Msg>, m: Msg, tools: seq<Msg>)
      requires responses != [] && (FromUsers(interrupts) ==> Voiced(Spoken(before), responses[..|responses| - 1]))
      requires Voices(m, responses[|responses| - 1]) && m.role == ASSISTANT && AllTools(tools)
      ensures FromUsers(interrupts) ==> Voiced(Spoken(before + [m] + tools), responses)
    {
      SpokenMore(before, m);
      ByRoleConcat(before + [m], tools, ASSISTANT);
      ByRoleOfOne(tools, ASSISTANT);
    }

    lemma StillSpoke(before: seq<Msg>, told: seq<Msg>, message: Option<Msg>)
      requires FromUsers(told) ==> Voiced(Spoken(before), responses)
      requires interrupts == told + if message.Some? then [message.value] else []
      ensures FromUsers(interrupts) ==> Voiced(Spoken(if message.Some? then Added(before, message.value, true) else before), responses)
    {
      if FromUsers(interrupts) {
        assert told == interrupts[..|told|];
        if message.Some? {
          assert interrupts[|told|] == message.value;
          SpokenMore(before, message.value);
        }
      }
    }

    lemma ClosedWith(before: seq<Msg>, m: Msg)
      requires (FromUsers(interrupts) ==> Voiced(Spoken(before), responses)) && m.role == ASSISTANT && ctx.current == before + [m]
      ensures SpokeThenClosed()
    {
      SpokenMore(before, m);
      assert (Spoken(before) + [m])[..|Spoken(before)|] == Spoken(before);
    }

    method RaiseStop()
      modifies this`stop, this`promptsAtStop, this`bodiesAtStop
      requires Fine()
      ensures Fine() && stop
    {
      if !stop { stop, promptsAtStop, bodiesAtStop := true, |prompts|, |bodies|; }
    }

    /** The host may set the flag whenever the turn waits; it is never cleared. */
    method HostRuns()
      modifies this`stop, this`promptsAtStop, this`bodiesAtStop
      requires Fine()
      ensures Fine() && (old(stop) ==> stop)
    {
      var asked: bool := *;
      if asked { RaiseStop(); }
    }

    /** An interceptor or an event sink: its own failures are swallowed, an abort or a cancellation is not. */
    method Hook() returns (s: Signal)
      modifies this`stop, this`promptsAtStop, this`bodiesAtStop
      requires Fine()
      ensures Fine() && (old(stop) ==> stop) && (s.Go? || s.Abort? || s.Cancel?)
    {
      HostRuns();
      s := *;
      if !s.Abort? && !s.Cancel? { s := Go; }
    }

    /** `_add_message`. */
    method Add(m: Msg)
      requires Fine() && (Fit() ==> Sound(ctx.current + [m])) && (m.role == USER ==> m.calls == [])
      modifies this`cacheIndex, this`added, ctx`current
      ensures Fine() && (old(Cached()) ==> Cached()) && ctx.current == old(ctx.current) + [m] && added == old(added) + 1
    {
      hide Told;
      hide Harmless;
      hide PromptsCache;
      hide Pending;
      UsersPlainMore(ctx.current, m);
      hide UsersPlain;
      ctx.AddMessage(m, false);
      cacheIndex := cacheIndex - 1;
      added := added + 1;
    }

    method Deliver(m: Msg)
      requires Fine() && Cached() && Clear() && (prompts != [] ==> added > 0)
      modifies this`strays, this`appended, this`interrupts, ctx`current
      ensures interrupts == old(interrupts) + [m] && strays == old(strays) + if Merges(old(ctx.current), m, true) then [] else [m]
      ensures Fine() && Cached() && Settled() && ctx.current == Added(old(ctx.current), m, true)
      ensures appended == old(appended) + if Merges(old(ctx.current), m, true) then 0 else 1
    {
      hide Told;
      hide Harmless;
      hide UsersPlain;
      hide Pending;
      hide PromptsCache;
      ToldMore(interrupts, responses, strays, cuts, m, Response("", "", []));
      if Merges(ctx.current, m, true) {
        MergeKeepsPending(ctx.current, m);
      } else {
        PendingOne(ctx.current, m);
        UsersPlainMore(ctx.current, m);
        StrayMore(strays, cuts, m);
        if Fit() { AppendIsHarmlessIff(ctx.current, m); } else { NeverHeals(ctx.current, [m]); }
        strays := strays + [m];
        appended := appended + 1;
      }
      interrupts := interrupts + [m];
      if prompts != [] { AddedKeepsPrefix(ctx.system + ctx.history, ctx.current, m, prompts[|prompts| - 1].stable); }
      ctx.AddMessage(m, true);
    }

    /** `_interrupt`: a message the callback delivers goes past the counter. */
    method Interrupt() returns (s: Signal, ghost message: Option<Msg>)
      requires Fine() && Cached() && Clear() && (prompts == [] ==> added == 0) && (prompts != [] ==> added > 0)
      modifies this`stop, this`promptsAtStop, this`bodiesAtStop, this`strays, this`appended, this`interrupts, ctx`current
      ensures Fine() && Cached() && Settled() && (old(stop) ==> stop)
      ensures interrupts == old(interrupts) + if message.Some? then [message.value] else []
      ensures strays == old(strays) + if message.Some? && !Merges(old(ctx.current), message.value, true) then [message.value] else []
      ensures !s.StopRequested? && !s.SchemaFailed?
      ensures ctx.current == if message.Some? then Added(old(ctx.current), message.value, true) else old(ctx.current)
      ensures message.Some? ==> s == Go
      ensures appended == old(appended) + if message.Some? && !Merges(old(ctx.current), message.value, true) then 1 else 0
    {
      hide Told;
      hide Harmless;
      HostRuns();
      var delivered: Option<Msg> := *;
      message := delivered;
      if delivered.Some? {
        Deliver(delivered.value);
        return Go, message;
      }
      message := None;
      s := *;
      if s.StopRequested? || s.SchemaFailed? { s := Go; }
    }
  
    /** The cache hint of the next call: the index counts back from the end, past the ephemeral tail. */
    function CacheHint(): Option<int>
      reads this, ctx
    {
      if cacheIndex == 0 then None else Some(cacheIndex - |ctx.ephemeral|)
    }

    /** `_await_or_stop(self._llm.complete(...))`: no call once a stop is requested, and a stop abandons the call. */
    method CompleteLlm() returns (s: Signal, response: Response)
      requires Fine() && Cached() && |prompts| < iteration && (prompts == [] ==> added == 0) && (prompts != [] ==> added > 0)
      modifies this`stop, this`promptsAtStop, this`bodiesAtStop, this`cacheIndex, this`prompts, this`added, this`appended, this`responses
      ensures Fine() && (old(stop) ==> stop)
      ensures responses == old(responses) + if s.Go? then [response] else []
      ensures old(Spoke(|responses|)) ==> Spoke(|old(responses)|) && (s.Go? ==> IsLast(response))
      ensures old(stop) ==> s == StopRequested && prompts == old(prompts)
      ensures !old(stop) ==> prompts == old(prompts + [Prompt(ctx.LlmMessages(), |ctx.Stable()|, CacheHint(), appended)])
      ensures !old(stop) ==> prompts[|prompts| - 1].messages == old(ctx.system + ctx.history + ctx.current + ctx.ephemeral)
      ensures s.Go? ==> Cached() && prompts != [] && added == 0 && appended == 0 && cacheIndex == -1
      ensures s.StopRequested? ==> stop
      ensures s.Go? || s.StopRequested? || s.Cancel? || s.Failed?
    {
      hide Turn.Fine;
      hide Turn.Cached;
      hide Turn.LastIsCurrent;
      hide Turn.Spoke;
      hide Turn.IsLast;
      response := *;
      if stop { return StopRequested, response; }
      StartCall();
      HostRuns();
      s := *;
      if s.Go? {
        EndCall(response);
      } else if s.StopRequested? {
        RaiseStop();
      } else if !s.Failed? {
        s := Cancel;
      }
    }

    /** The last prompt is the context as it stands, but for the ephemeral tail. */
    ghost predicate LastIsCurrent()
      reads this`prompts, ctx`system, ctx`history, ctx`current
    {
      prompts != [] &&
      var last := prompts[|prompts| - 1];
      0 < last.stable == |ctx.Stable()| <= |last.messages| && ctx.Stable() == last.messages[..last.stable]
    }

    method StartCall()
      requires Fine() && Cached() && !stop && |prompts| < iteration && (prompts == [] ==> added == 0) && (prompts != [] ==> added > 0)
      modifies this`prompts
      ensures Fine() && prompts == old(prompts + [Prompt(ctx.LlmMessages(), |ctx.Stable()|, CacheHint(), appended)]) && LastIsCurrent()
    {
      hide Pending;
      hide PromptsCache;
      hide UsersPlain;
      hide Told;
      hide Harmless;
      ghost var call := Prompt(ctx.LlmMessages(), |ctx.Stable()|, CacheHint(), appended);
      OneMorePrompt(call);
      prompts := prompts + [call];
    }

    /** The call returned: its response is recorded, and the count of what is behind its prompt begins anew. */
    method EndCall(response: Response)
      requires Fine() && LastIsCurrent()
      modifies this`cacheIndex, this`added, this`appended, this`responses
      ensures Fine() && Cached() && responses == old(responses) + [response] && added == 0 && appended == 0 && cacheIndex == -1
      ensures old(Spoke(|responses|)) ==> Spoke(|old(responses)|) && IsLast(response)
    {
      hide Spoken;
      hide Turn.Voiced;
      hide FromUsers;
      assert (responses + [response])[..|responses|] == responses[..|responses|];
      hide Pending;
      hide PromptsCache;
      hide UsersPlain;
      hide Told;
      hide Harmless;
      cacheIndex, added, appended := -1, 0, 0;
      ToldMore(interrupts, responses, strays, cuts, Text(USER, ""), response);
      responses := responses + [response];
    }

    lemma OneMorePrompt(call: Prompt)
      requires Fine() && Cached() && (prompts == [] ==> added == 0) && (prompts != [] ==> added > 0)
      requires call == Prompt(ctx.LlmMessages(), |ctx.Stable()|, CacheHint(), appended)
      ensures PromptsCache(prompts + [call])
    {
      if prompts != [] {
        var last := prompts[|prompts| - 1];
        assert call.messages[..last.stable] == ctx.Stable()[..last.stable];
        assert CachesPrefix(last, call);
        var more := prompts + [call];
        forall k | 0 < k < |more| ensures CachesPrefix(more[k - 1], more[k]) {
          if k < |prompts| { assert CachesPrefix(prompts[k - 1], prompts[k]); }
        }
      }
    }

    /** `_close_with_handoff`: the handoff, or the marker alone, becomes the turn's answer. */
    method CloseWithHandoff(reason: Closure) returns (s: Signal)
      requires Fine() && Settled()
      modifies this`stop, this`promptsAtStop, this`bodiesAtStop, this`cacheIndex, this`added, ctx`current, ctx`finalContent
      ensures Fine() && Settled() && (s.Go? ==> Clear()) && (old(stop) ==> stop)
      ensures prompts == old(prompts) && bodies == old(bodies)
      ensures s.Go? ==> EndsWithAnswer() && ctx.finalContent.Some? && Marker(reason) <= ctx.finalContent.value
      ensures s.Go? ==> ctx.current == old(ctx.current) + [Text(ASSISTANT, ctx.finalContent.value)]
      ensures s.Go? && old(Spoke(|responses|)) ==> SpokeThenClosed()
      ensures s.Go? || s.Abort? || s.Cancel?
    {
      hide Turn.Fine;
      hide Turn.Cached;
      hide Turn.Fit;
      hide Turn.SpokeThenClosed;
      hide Spoken;
      hide Turn.Voiced;
      hide FromUsers;
      hide Pending;
      ghost var before := ctx.current;
      HostRuns();
      var cancelled: bool := *;
      if cancelled { return Cancel; }
      var handoff: Option<string> := *;
      var text := if handoff.Some? && handoff.value != "" then Marker(reason) + "\n\n" + handoff.value else Marker(reason);
      AddAnswer(text);
      ctx.finalContent := Some(text);
      if old(Spoke(|responses|)) {
        assert responses[..|responses|] == responses;
        ClosedWith(before, Text(ASSISTANT, text));
      }
      s := Hook();
    }

    /** The last message is an assistant message without tool calls, and is the turn's final content. */
    ghost predicate EndsWithAnswer()
      reads this, ctx
    {
      && ctx.finalContent.Some? && ctx.finalContent.value != "" && ctx.current != []
      && ctx.current[|ctx.current| - 1] == Text(ASSISTANT, ctx.finalContent.value)
    }

    method AddAnswer(text: string)
      requires Fine() && Settled()
      modifies this`cacheIndex, this`added, ctx`current
      ensures Fine() && (old(Cached()) ==> Cached()) && Clear() && added == old(added) + 1
      ensures ctx.current == old(ctx.current) + [Text(ASSISTANT, text)]
    {
      StandsBehind(ctx.current, Text(ASSISTANT, text));
      hide Turn.Fine;
      hide Turn.Fit;
      hide Pending;
      Add(Text(ASSISTANT, text));
    }
  
    // ---------------------------------------------------------------- tools

    method Emit() returns (s: Signal)
      requires Fine()
      modifies this`stop, this`promptsAtStop, this`bodiesAtStop
      ensures Fine() && (old(stop) ==> stop) && (s.Go? || s.Cancel?)
    {
      HostRuns();
      var cancelled: bool := *;
      s := if cancelled then Cancel else Go;
    }

    /** What the tools of a batch make of the time they get. */
    method AnyFates(n: nat) returns (fates: seq<Fate>)
      ensures |fates| == n
    {
      fates := [];
      for i := 0 to n
        invariant |fates| == i
      {
        var fate: Fate := *;
        fates := fates + [fate];
      }
    }

    /**
     Schedule a batch and wait for it (`_await_tasks_or_stop`). With the flag already set the tasks are
     cancelled before they start; otherwise a stop cuts the wait short wherever it finds each of them.
    */
    method RunBatch(batch: seq<ToolCall>) returns (s: Signal, stopped: bool, fates: seq<Fate>)
      requires Fine()
      modifies this`stop, this`promptsAtStop, this`bodiesAtStop, this`bodies
      ensures Fine() && (old(stop) ==> stop) && |fates| == |batch| && (s.Go? || s.Cancel?)
      ensures old(stop) ==> bodies == old(bodies) && stopped && forall i :: 0 <= i < |fates| ==> fates[i].Unfinished?
      ensures stopped ==> stop
      ensures !stopped && s.Go? ==> forall i :: 0 <= i < |fates| ==> fates[i].Done?
    {
      if stop {
        fates, stopped := seq(|batch|, i => Unfinished), true;
        s := Emit();
        return;
      }
      bodies := bodies + batch;
      fates := AnyFates(|batch|);
      HostRuns();
      stopped := *;
      s := *;
      stopped := stopped && stop;
      if !s.Cancel? { s := Go; }
      if !stopped && exists i :: 0 <= i < |fates| && fates[i].Unfinished? { s := Cancel; }
    }

    /** Record one call of a batch if it produced a result. */
    method RecordOne(call: ToolCall, fate: Fate, ghost advertised: seq<Msg>, ghost calls: seq<ToolCall>, ghost fates: seq<Fate>, ghost n: nat)
      returns (s: Signal)
      requires Fine() && Cached() && n < |calls| && n < |fates| && calls[n] == call && fates[n] == fate
      requires Fit() ==> Pending(advertised) == Some(multiset(Ids(calls)))
      requires ctx.current == Recorded(advertised, calls, fates, n)
      modifies this`stop, this`promptsAtStop, this`bodiesAtStop, this`cacheIndex, this`added, ctx`current
      ensures Fine() && Cached() && (old(stop) ==> stop) && added >= old(added) && (s.Go? || s.Abort? || s.Cancel?)
      ensures old(ctx.current) <= ctx.current
      ensures s.Go? ==> ctx.current == Recorded(advertised, calls, fates, n + 1)
    {
      hide Told;
      hide Harmless;
      hide CallIds;
      hide Results;
      hide Recorded;
      hide Pending;
      hide PromptsCache;
      hide UsersPlain;
      RecordedOneMore(advertised, calls, fates, n);
      if fate.Unfinished? { return Go; }
      if Fit() { RecordedIsSound(advertised, calls, fates, n + 1); }
      Add(ToolResult(call, fate.text));
      s := Hook();
      if s.Go? { s := Emit(); }
    }

    /** Record every call of the batch that produced a result, stop or no stop. */
    method RecordBatch(batch: seq<ToolCall>, results: seq<Fate>, ghost advertised: seq<Msg>, ghost calls: seq<ToolCall>, ghost fates: seq<Fate>)
      returns (s: Signal)
      requires Fine() && Cached() && |results| == |batch| <= |fates| <= |calls|
      requires batch == calls[|fates| - |batch|..|fates|] && results == fates[|fates| - |batch|..]
      requires Fit() ==> Pending(advertised) == Some(multiset(Ids(calls)))
      requires ctx.current == Recorded(advertised, calls, fates, |fates| - |batch|)
      modifies this`stop, this`promptsAtStop, this`bodiesAtStop, this`cacheIndex, this`added, ctx`current
      ensures Fine() && Cached() && (old(stop) ==> stop) && added >= old(added) && (s.Go? || s.Abort? || s.Cancel?)
      ensures old(ctx.current) <= ctx.current
      ensures s.Go? ==> ctx.current == Recorded(advertised, calls, fates, |fates|)
    {
      hide Recorded;
      for i := 0 to |batch|
        invariant Fine() && Cached() && (old(stop) ==> stop) && added >= old(added)
        invariant old(ctx.current) <= ctx.current && ctx.current == Recorded(advertised, calls, fates, |fates| - |batch| + i)
      {
        s := RecordOne(batch[i], results[i], advertised, calls, fates, |fates| - |batch| + i);
        if !s.Go? { return; }
      }
      s := Go;
    }

    method Announce(n: nat) returns (s: Signal)
      requires Fine()
      modifies this`stop, this`promptsAtStop, this`bodiesAtStop
      ensures Fine() && (old(stop) ==> stop) && (s.Go? || s.Cancel?)
    {
      for i := 0 to n
        invariant Fine() && (old(stop) ==> stop)
      {
        s := Emit();
        if !s.Go? { return; }
      }
      s := Go;
    }

    /** One batch: announced, run, recorded. */
    method OneBatch(batch: seq<ToolCall>, ghost advertised: seq<Msg>, ghost calls: seq<ToolCall>, ghost earlier: seq<Fate>)
      returns (s: Signal, stopped: bool, results: seq<Fate>)
      requires Fine() && Cached() && |earlier| + |batch| <= |calls| && batch == calls[|earlier|..|earlier| + |batch|]
      requires Fit() ==> Pending(advertised) == Some(multiset(Ids(calls)))
      requires ctx.current == Recorded(advertised, calls, earlier, |earlier|)
      modifies this`stop, this`promptsAtStop, this`bodiesAtStop, this`cacheIndex, this`added, this`bodies, ctx`current
      ensures Fine() && Cached() && (old(stop) ==> stop) && added >= old(added) && (s.Go? || s.Abort? || s.Cancel?)
      ensures old(ctx.current) <= ctx.current
      ensures s.Go? ==> |results| == |batch| && (stopped ==> stop) && (!stopped ==> forall i :: 0 <= i < |results| ==> results[i].Done?)
      ensures s.Go? ==> ctx.current == Recorded(advertised, calls, earlier + results, |earlier| + |batch|)
      ensures old(stop) ==> bodies == old(bodies)
    {
      hide Turn.Fine;
      hide Turn.Cached;
      hide Turn.Fit;
      hide Pending;
      stopped, results := false, [];
      s := Announce(|batch|);
      if !s.Go? { return; }
      s, stopped, results := RunBatch(batch);
      if !s.Go? { return; }
      ghost var fates := earlier + results;
      assert fates[..|earlier|] == earlier[..|earlier|] && fates[|earlier|..] == results;
      assert |fates| - |batch| == |earlier|;
      s := RecordBatch(batch, results, advertised, calls, fates);
    }

    /** The placeholders for the calls a stop left without a result. */
    method FillIn(calls: seq<ToolCall>, answered: set<string>, ghost behind: seq<Msg>)
      requires Fine() && Cached() && ctx.current == behind
      requires Fit() ==> Replayable(behind + Placeholders(calls, answered))
      modifies this`cacheIndex, this`added, ctx`current
      ensures Fine() && Cached() && added >= old(added) && ctx.current == behind + Placeholders(calls, answered)
    {
      hide Told;
      hide Harmless;
      hide Pending;
      hide PromptsCache;
      hide UsersPlain;
      for i := 0 to |calls|
        invariant Fine() && Cached() && added >= old(added)
        invariant ctx.current == behind + Placeholders(calls[..i], answered)
      {
        assert calls[..i + 1][..i] == calls[..i];
        if calls[i].id in answered { continue; }
        if Fit() { FillIsSound(behind, calls, answered, i + 1); }
        assert ctx.current + [ToolResult(calls[i], INTERRUPTED)] == behind + Placeholders(calls[..i + 1], answered);
        Add(ToolResult(calls[i], INTERRUPTED));
      }
      assert calls[..|calls|] == calls;
    }

    /** The calls of one response, batch by batch, until all are answered or a stop cuts them short. */
    method RunBatches(calls: seq<ToolCall>, ghost advertised: seq<Msg>)
      returns (s: Signal, stopped: bool, answered: set<string>, fates: seq<Fate>)
      requires Fine() && Cached() && ctx.current == advertised && (Fit() ==> Pending(advertised) == Some(multiset(Ids(calls))))
      modifies this`stop, this`promptsAtStop, this`bodiesAtStop, this`cacheIndex, this`added, this`bodies, ctx`current
      ensures Fine() && Cached() && (old(stop) ==> stop) && added >= old(added) && (s.Go? || s.Abort? || s.Cancel?)
      ensures advertised <= ctx.current
      ensures s.Go? ==> (stopped ==> stop) && |fates| == |calls| && answered == Answered(calls, fates)
      ensures s.Go? && !stopped ==> forall i :: 0 <= i < |fates| ==> fates[i].Done?
      ensures s.Go? ==> ctx.current == advertised + Results(calls, fates)
      ensures old(stop) ==> bodies == old(bodies)
    {
      hide Turn.Fine;
      hide Turn.Cached;
      hide Turn.Fit;
      hide Pending;
      hide Recorded;
      hide Answered;
      hide Flatten;
      hide GoodBatches;
      hide Maximal;
      var batches := ToolCallBatches(calls, safe);
      s, stopped, answered, fates := Go, false, {}, [];
      NothingRecorded(advertised, calls);
      var b := 0;
      while b < |batches| && !stopped
        invariant 0 <= b <= |batches| && Fine() && Cached() && (old(stop) ==> stop) && added >= old(added)
        invariant |fates| <= |calls| && Flatten(batches[..b]) == calls[..|fates|] && s.Go?
        invariant advertised <= ctx.current && ctx.current == Recorded(advertised, calls, fates, |fates|)
        invariant answered == Answered(calls[..|fates|], fates)
        invariant !stopped ==> forall i :: 0 <= i < |fates| ==> fates[i].Done?
        invariant stopped ==> stop
        invariant old(stop) ==> bodies == old(bodies)
      {
        var batch := batches[b];
        NextBatch(batches, b, calls, |fates|);
        var results;
        s, stopped, results := OneBatch(batch, advertised, calls, fates);
        if !s.Go? { return; }
        answered := answered + Answered(batch, results);
        AnsweredMore(calls, fates, results);
        fates := fates + results;
        b := b + 1;
      }
      ghost var known := |fates|;
      if !stopped { assert batches[..b] == batches && calls[..|fates|] == calls; }
      fates := fates + seq(|calls| - |fates|, i => Unfinished);
      RestIsUnfinished(advertised, calls, fates, known);
    }

    /** The assistant's call message, and what its tools leave behind it. */
    method RunTools(response: Response) returns (s: Signal, stopped: bool, ghost fates: seq<Fate>)
      requires Fine() && Cached() && Settled() && response in responses
      modifies this`stop, this`promptsAtStop, this`bodiesAtStop, this`cacheIndex, this`added, this`bodies, this`cuts, ctx`current
      ensures Fine() && (old(stop) ==> stop && bodies == old(bodies)) && (s.Go? || s.Abort? || s.Cancel?)
      ensures (Replayable(ctx.current) ==> Fit()) && (s.Go? ==> Settled()) && (s.Go? && !stopped ==> Clear())
      ensures s.Go? ==> Cached() && added > 0 && (stopped ==> stop)
      ensures s.Go? ==> |fates| == |response.calls| && (stopped || forall i :: 0 <= i < |fates| ==> fates[i].Done?)
      ensures s.Go? ==> ctx.current == old(ctx.current) + [Advertisement(response)]
                                       + if stopped then AfterStop(response.calls, fates) else Results(response.calls, fates)
      ensures cuts == old(cuts) + if s.Go? && stopped then [Cut(response.calls, fates)] else []
    {
      hide Turn.Fine;
      hide Turn.Cached;
      hide Turn.Fit;
      hide Results;
      hide Placeholders;
      hide NoMixedId;
      hide CallIds;
      hide Pending;
      ghost var before := ctx.current;
      PendingOne(before, Advertisement(response));
      Add(Advertisement(response));
      ghost var advertised := ctx.current;
      var answered, reached;
      s, stopped, answered, reached := RunBatches(response.calls, advertised);
      fates := reached;
      if !Fit() { Spoilt(before, Advertisement(response), ctx.current); }
      if !s.Go? { return; }
      if Fit() { ToolsSettle(before, response, fates); }
      if stopped {
        CheckIds(response, fates);
        ghost var behind := ctx.current;
        assert behind + Placeholders(response.calls, answered) == advertised + AfterStop(response.calls, fates);
        FillIn(response.calls, answered, behind);
        if !old(Fit()) { Spoilt(before, Advertisement(response), ctx.current); }
      }
    }

    ghost method CheckIds(response: Response, fates: seq<Fate>)
      requires Fine() && response in responses && |fates| == |response.calls|
      modifies this`cuts
      ensures Fine() && cuts == old(cuts) + [Cut(response.calls, fates)]
      ensures Fit() <==> old(Fit()) && NoMixedId(response.calls, fates)
    {
      hide NoMixedId;
      hide Told;
      hide Harmless;
      hide Pending;
      hide PromptsCache;
      hide UsersPlain;
      ToldCut(interrupts, responses, strays, cuts, response, fates);
      cuts := cuts + [Cut(response.calls, fates)];
    }

    // ---------------------------------------------------------------- the loop

    /** A structured turn: is the reply usable, and if not, may the model try again? */
    method CheckSchema(response: Response) returns (s: Signal, again: bool)
      requires Fine() && Clear() && hasSchema && !structured
      modifies this`cacheIndex, this`added, this`retries, this`structured, ctx`current
      ensures Fine() && (old(Cached()) ==> Cached()) && Clear() && (s.Go? || s.SchemaFailed? || s.Failed?)
      ensures s.Go? && again ==> added == old(added) + 1 && retries == old(retries) + 1 <= maxRetries && !structured
      ensures s.Go? && !again ==> structured && ctx.current == old(ctx.current)
      ensures s.Go? && again ==> Spoken(ctx.current) == Spoken(old(ctx.current))
      ensures old(ctx.current) <= ctx.current
      ensures response.finish in UNUSABLE ==> s.SchemaFailed?
      ensures s.SchemaFailed? ==> response.finish in UNUSABLE || old(retries) >= maxRetries
      ensures s.Failed? ==> !structured && retries == old(retries) && ctx.current == old(ctx.current)
    {
      hide Told;
      hide Harmless;
      hide PromptsCache;
      hide Pending;
      hide UsersPlain;
      hide Spoken;
      if response.finish in UNUSABLE { return SchemaFailed, false; }
      structured := *;
      if structured { return Go, false; }
      var broken: bool := *;
      if broken { return Failed("the validator raised"), false; }
      if retries >= maxRetries { return SchemaFailed, false; }
      retries := retries + 1;
      var complaint: string := *;
      StandsBehind(ctx.current, Text(USER, complaint));
      SpokenMore(ctx.current, Text(USER, complaint));
      Add(Text(USER, complaint));
      return Go, true;
    }

    /** The final content is set, and the interceptors hear of it. */
    method Conclude(text: string) returns (s: Signal)
      requires Fine() && text != "" && ctx.current[|ctx.current| - 1] == Text(ASSISTANT, text)
      modifies this`stop, this`promptsAtStop, this`bodiesAtStop, this`answered, ctx`finalContent
      ensures answered && ctx.finalContent == Some(text)
      ensures Fine() && EndsWithAnswer() && (old(stop) ==> stop) && (s.Go? || s.Abort? || s.Cancel?)
    {
      hide Told;
      hide Harmless;
      hide Pending;
      hide PromptsCache;
      hide UsersPlain;
      ctx.finalContent := Some(text);
      answered := true;
      s := Hook();
      if s.Go? { s := Emit(); }
    }

    /** The turn's final content is the last response's reply, or else opens with the marker of what closed it. */
    ghost predicate Concluded()
      reads this`answered, this`responses, this`stop, this`iteration, ctx`finalContent
    {
      && ctx.finalContent.Some?
      && if answered then responses != [] && var last := responses[|responses| - 1]; last.calls == [] && Replies(last, ctx.finalContent.value)
         else (stop && SHUTTING_DOWN <= ctx.finalContent.value) || (iteration == maxIterations && MAX_ITERATIONS_REACHED <= ctx.finalContent.value)
    }

    /** A response without tool calls: the final answer, unless the schema asks for another try. */
    method Answer(response: Response) returns (s: Signal, again: bool)
      requires Fine() && Cached() && Settled() && IsLast(response) && response.calls == [] && Spoke(|responses| - 1)
      modifies this`stop, this`promptsAtStop, this`bodiesAtStop, this`cacheIndex, this`added, this`retries, this`structured, this`answered
      modifies ctx`current, ctx`finalContent
      ensures Fine() && Clear() && (old(stop) ==> stop)
      ensures s.Go? ==> Spoke(|responses|)
      ensures s.Go? && again ==> Cached() && added > 0 && retries == old(retries) + 1 && hasSchema && answered == old(answered)
      ensures answered ==> old(answered) || (EndsWithAnswer() && ctx.finalContent.Some? && Replies(response, ctx.finalContent.value))
      ensures s.Go? && !again ==> EndsWithAnswer() && answered && ctx.finalContent.Some? && Replies(response, ctx.finalContent.value) && (hasSchema ==> structured)
      ensures s.SchemaFailed? ==> hasSchema && (response.finish in UNUSABLE || old(retries) >= maxRetries)
      ensures !s.StopRequested? && !s.BadInterrupt?
    {
      hide Turn.Fine;
      hide Turn.Cached;
      hide Turn.Fit;
      hide Turn.Settled;
      hide Turn.Clear;
      hide Pending;
      again := false;
      var text := Reply(clean(response.content), response.finish);
      SpokeMore(ctx.current, Text(ASSISTANT, text), []);
      assert ctx.current + [Text(ASSISTANT, text)] + [] == ctx.current + [Text(ASSISTANT, text)];
      hide Turn.Spoke;
      AddAnswer(text);
      if hasSchema && !structured {
        s, again := CheckSchema(response);
        if !s.Go? || again { return; }
      }
      s := Conclude(text);
    }

    /** An interceptor before the call: it may refresh the ephemeral tail. */
    method BeforeLlm() returns (s: Signal)
      requires Fine()
      modifies this`stop, this`promptsAtStop, this`bodiesAtStop, ctx`ephemeral
      ensures Fine() && (old(stop) ==> stop) && (s.Go? || s.Abort? || s.Cancel?)
    {
      s := Hook();
      ctx.ephemeral := *;
      if s.Go? { s := Emit(); }
    }

    method Count()
      requires Fine() && iteration < maxIterations
      modifies this`iteration
      ensures Fine() && iteration == old(iteration) + 1 && |prompts| < iteration && (old(Cached()) ==> Cached())
    {
      iteration := iteration + 1;
    }

    /** `_interrupt`, and what it does to what the assistant said. */
    method Listen() returns (s: Signal)
      requires Fine() && Cached() && Clear() && (prompts == [] ==> added == 0) && (prompts != [] ==> added > 0) && Spoke(|responses|)
      modifies this`stop, this`promptsAtStop, this`bodiesAtStop, this`strays, this`appended, this`interrupts, ctx`current
      ensures Fine() && Cached() && Settled() && (old(stop) ==> stop) && !s.StopRequested? && Spoke(|responses|)
    {
      hide Turn.Fine;
      hide Turn.Cached;
      hide Turn.Settled;
      hide Turn.Clear;
      hide Turn.Voiced;
      hide Spoken;
      hide FromUsers;
      assert responses[..|responses|] == responses;
      ghost var before, told, message := ctx.current, interrupts, None;
      s, message := Interrupt();
      StillSpoke(before, told, message);
    }

    /** The first half of an iteration: the interrupts, the interceptors and the model. */
    method AskModel() returns (s: Signal, response: Response)
      requires Fine() && Cached() && Clear() && |prompts| < iteration
      requires (prompts == [] ==> added == 0) && (prompts != [] ==> added > 0) && Spoke(|responses|)
      modifies this`stop, this`promptsAtStop, this`bodiesAtStop, this`cacheIndex, this`prompts, this`added, this`appended, this`strays
      modifies this`interrupts, this`responses, ctx`current, ctx`ephemeral
      ensures Fine() && Settled() && (old(stop) ==> stop)
      ensures s.Go? ==> Cached() && prompts != [] && IsLast(response) && responses != [] && Spoke(|responses| - 1)
      ensures s.StopRequested? ==> Spoke(|responses|)
      ensures s.StopRequested? ==> stop
      ensures |prompts| <= |old(prompts)| + 1 && (s.Go? ==> |prompts| == |old(prompts)| + 1)
    {
      hide Turn.Fine;
      hide Turn.Cached;
      hide Turn.Fit;
      hide Turn.Settled;
      hide Turn.Clear;
      hide Plain;
      hide Pending;
      hide Turn.Spoke;
      hide Turn.IsLast;
      response := *;
      s := Listen();
      if !s.Go? { return; }
      s := BeforeLlm();
      if !s.Go? { return; }
      s, response := CompleteLlm();
      if !s.Go? { return; }
      s := Hook();
      if s.Go? { s := Emit(); }
    }

    /** The second half: an answer, or the tools. */
    method Act(response: Response) returns (s: Signal, done: bool)
      requires Fine() && Cached() && Settled() && IsLast(response) && Spoke(|responses| - 1) && prompts != [] && !answered
      modifies this`stop, this`promptsAtStop, this`bodiesAtStop, this`cacheIndex, this`added, this`bodies, this`cuts, this`retries
      modifies this`structured, this`answered, ctx`current, ctx`finalContent
      ensures Fine() && (old(stop) ==> stop)
      ensures (Replayable(ctx.current) ==> Fit()) && (!s.Abort? && !s.Cancel? ==> Settled()) && (s.Go? ==> Clear())
      ensures s.Go? && !done ==> Cached() && added > 0 && !answered && Spoke(|responses|)
      ensures s.Go? && done ==> EndsWithAnswer() && Concluded() && (if answered then Spoke(|responses|) else SpokeThenClosed())
      ensures answered ==> EndsWithAnswer() && Concluded()
      ensures !s.StopRequested?
    {
      hide Told;
      hide Harmless;
      hide Turn.Fine;
      hide Turn.Spoke;
      hide Turn.EndsWithAnswer;
      hide Turn.SpokeThenClosed;
      hide Pending;
      if response.calls == [] {
        var again;
        s, again := Answer(response);
        done := !again;
      } else {
        s, done := UseTools(response);
        if s.Go? && done { s := CloseWithHandoff(Shutdown); }
      }
    }

    method UseTools(response: Response) returns (s: Signal, stopped: bool)
      requires Fine() && Cached() && Settled() && IsLast(response) && response.calls != [] && Spoke(|responses| - 1)
      modifies this`stop, this`promptsAtStop, this`bodiesAtStop, this`cacheIndex, this`added, this`bodies, this`cuts, ctx`current
      ensures Fine() && (old(stop) ==> stop) && (s.Go? || s.Abort? || s.Cancel?)
      ensures (Replayable(ctx.current) ==> Fit()) && (s.Go? ==> Settled()) && (s.Go? && !stopped ==> Clear())
      ensures s.Go? ==> Cached() && added > 0 && (stopped ==> stop) && Spoke(|responses|)
    {
      hide Told;
      hide Harmless;
      hide Turn.Fine;
      hide Turn.Fit;
      hide Turn.Cached;
      hide Turn.Settled;
      hide Turn.Clear;
      hide Turn.Voiced;
      hide Spoken;
      hide FromUsers;
      hide Pending;
      hide Results;
      hide Placeholders;
      ghost var before, fates := ctx.current, [];
      s, stopped, fates := RunTools(response);
      if s.Go? {
        SpokeMore(before, Advertisement(response), if stopped then AfterStop(response.calls, fates) else Results(response.calls, fates));
        assert responses[..|responses|] == responses;
      }
    }

    /** One turn of the loop, past the two checks at its top. */
    method Iterate() returns (s: Signal, done: bool)
      requires Fine() && Cached() && Clear() && iteration < maxIterations && !answered && Spoke(|responses|)
      requires (prompts == [] ==> added == 0) && (prompts != [] ==> added > 0)
      modifies this, ctx`current, ctx`finalContent, ctx`ephemeral
      ensures Fine() && iteration == old(iteration) + 1 && (old(stop) ==> stop)
      ensures (Replayable(ctx.current) ==> Fit()) && (!s.Abort? && !s.Cancel? ==> Settled()) && (s.Go? ==> Clear())
      ensures s.Go? && !done ==> Cached() && prompts != [] && added > 0 && !answered && Spoke(|responses|)
      ensures s.Go? && done ==> EndsWithAnswer() && Concluded() && (if answered then Spoke(|responses|) else SpokeThenClosed())
      ensures answered ==> EndsWithAnswer() && Concluded()
      ensures s.StopRequested? ==> stop && !answered && Spoke(|responses|)
    {
      hide Told;
      hide Harmless;
      hide Turn.Fine;
      hide Turn.Spoke;
      hide Turn.EndsWithAnswer;
      hide Turn.Concluded;
      hide Turn.SpokeThenClosed;
      hide Pending;
      done := false;
      Count();
      var response;
      s, response := AskModel();
      if s.Go? { s, done := Act(response); }
    }

    method Loop() returns (s: Signal)
      requires Fine() && Cached() && Clear() && prompts == [] && added == 0 && !answered && Spoke(|responses|)
      modifies this, ctx
      ensures Fine()
      ensures (Replayable(ctx.current) ==> Fit()) && (!s.Abort? && !s.Cancel? ==> Settled())
      ensures s.Go? ==> EndsWithAnswer() && Concluded() && (if answered then Spoke(|responses|) else SpokeThenClosed())
      ensures answered ==> EndsWithAnswer() && Concluded()
      ensures s.StopRequested? ==> stop && !answered && Spoke(|responses|)
    {
      hide Told;
      hide Harmless;
      hide Pending;
      hide PromptsCache;
      hide UsersPlain;
      s := Hook();
      if !s.Go? { return; }
      var built: Option<Msg> := *;
      if !built.Some? { return Failed("no system prompt"); }
      ctx.system := [built.value];
      s := Emit();
      if !s.Go? { return; }
      while true
        invariant Fine() && Cached() && Clear() && !answered && Spoke(|responses|)
        invariant (prompts == [] ==> added == 0) && (prompts != [] ==> added > 0)
        decreases maxIterations - iteration
      {
        if iteration >= maxIterations {
          s := CloseWithHandoff(MaxIterations);
          return;
        }
        if stop {
          s := CloseWithHandoff(Shutdown);
          return;
        }
        var done;
        s, done := Iterate();
        if !s.Go? || done { return; }
      }
    }

    // ---------------------------------------------------------------- the exits

    /** `_has_final_assistant_response`. */
    predicate HasFinalAnswer()
      reads this, ctx
    {
      && ctx.finalContent.Some? && ctx.current != []
      && var last := ctx.current[|ctx.current| - 1];
         last.role == ASSISTANT && last.calls == [] && last.content == [ctx.finalContent.value]
    }

    /** `_persist_turn`: the messages the turn commits. */
    method Persist(status: Status) returns (messages: seq<Msg>)
      requires Fine() && (Replayable(ctx.current) ==> Fit()) && (status != Aborted ==> Settled())
      ensures messages != [] && messages[0].role == USER
      ensures status != Aborted || HasFinalAnswer() ==> messages == ctx.current && (Replayable(messages) <==> Fit())
      ensures status == Aborted && !HasFinalAnswer() ==>
                messages == UsersOf(ctx.current) + [Text(ASSISTANT, ABORTED_CONTENT)] && (Replayable(messages) <==> UsersPlain(strays))
    {
      if status == Aborted && !HasFinalAnswer() {
        FirstUserStays(ctx.current);
        AbortedIsReplayableIff(ctx.current);
        messages := UsersOf(ctx.current) + [Text(ASSISTANT, ABORTED_CONTENT)];
      } else {
        if status == Aborted && Fit() { AnsweredMeansSettled(ctx.current); }
        messages := ctx.current;
      }
    }

    /**
     `run`: the loop, the exception handlers, and the commit every exit goes through. `raised` is the
     exception that leaves the turn, `Go` when it returns.
    */
    method Run() returns (status: Status, raised: Signal, committed: seq<Msg>)
      requires Fine() && Cached() && Clear() && prompts == [] && added == 0 && !answered && Spoke(|responses|)
      modifies this, ctx
      ensures committed != [] && committed[0].role == USER && Told(interrupts, responses, strays, cuts)
      ensures status != Aborted || HasFinalAnswer() ==> (EachCallAnsweredOnce(committed) <==> Harmless(strays, cuts))
      ensures status == Aborted && !HasFinalAnswer() ==> (EachCallAnsweredOnce(committed) <==> UsersPlain(strays))
      ensures WellBehaved(interrupts, responses) ==> EachCallAnsweredOnce(committed)
      ensures |prompts| <= iteration <= maxIterations && retries <= maxRetries
      ensures PromptsCache(prompts)
      ensures stop ==> |prompts| == promptsAtStop && |bodies| == bodiesAtStop
      ensures status == Completed ==> raised == Go && committed[|committed| - 1] == Msg(ASSISTANT, ctx.FinalResponse(), [], "")
      ensures answered && (status == Completed || (status == Aborted && raised.Cancel?)) ==>
                responses != [] && var last := responses[|responses| - 1];
                && last.calls == []
                && (clean(last.content) != "" ==> committed[|committed| - 1].content == [clean(last.content)])
                && (clean(last.content) == "" ==>
                      committed[|committed| - 1].content == [if last.finish == "error" then "(LLM responds error)" else "(empty model response)"])
      ensures status == Completed && !answered ==>
                |committed[|committed| - 1].content| == 1 && var text := committed[|committed| - 1].content[0];
                (stop && SHUTTING_DOWN <= text) || (iteration == maxIterations && MAX_ITERATIONS_REACHED <= text)
      ensures status == Completed && FromUsers(interrupts) ==>
                var said := Spoken(committed);
                if answered then Voiced(said, responses)
                else said != [] && said[|said| - 1] == committed[|committed| - 1] && Voiced(said[..|said| - 1], responses)
      ensures status == Running ==> raised in {Abort, Cancel}
      ensures raised.Go? && ctx.finalContent.Some? && ctx.finalContent.value != "" ==> ctx.FinalResponse() == [ctx.finalContent.value]
      ensures raised.Go? && ctx.finalContent.None? && committed == ctx.current ==> ctx.FinalResponse() == committed[|committed| - 1].content
      ensures status == Error && raised !in {SchemaFailed, BadInterrupt} ==>
                |committed[|committed| - 1].content| == 1 && "(error: " <= committed[|committed| - 1].content[0]
      ensures status == Aborted ==> raised in {Go, Cancel} && (raised.Go? ==> ctx.finalContent == Some(ABORTED_CONTENT))
      ensures status == Aborted && (raised.Go? || ctx.finalContent.None?) ==>
                var last := committed[|committed| - 1]; last.role == ASSISTANT && last.content == [ABORTED_CONTENT] && last.calls == []
      ensures status == Aborted && !HasFinalAnswer() ==> committed == UsersOf(ctx.current) + [Text(ASSISTANT, ABORTED_CONTENT)]
      ensures status != Aborted || HasFinalAnswer() ==> committed == ctx.current
    {
      hide Told;
      hide Harmless;
      hide WellBehaved;
      hide UsersPlain;
      hide PromptsCache;
      hide Replayable;
      hide Turn.Fine;
      hide Turn.Cached;
      hide Turn.EndsWithAnswer;
      hide Turn.HasFinalAnswer;
      hide Turn.Settled;
      hide Turn.Clear;
      hide Turn.Concluded;
      hide Turn.Replies;
      hide TurnContext.FinalResponse;
      hide EachCallAnsweredOnce;
      hide UsersOf;
      hide Spoken;
      hide Turn.Voiced;
      hide FromUsers;
      var s := Loop();
      status, raised := Leave(s);
      committed := Persist(status);
      ReplayableIff(committed);
      FineSays();
      if status == Completed || (status == Aborted && raised.Cancel? && answered) { AnswerIsTheOutput(); }
      if status == Aborted { FinalMeans(); }
      if raised.Go? { OutputIs(); }
      assert responses[..|responses|] == responses;
    }

    /** What the exception handlers make of the way the loop ended. */
    method Leave(s: Signal) returns (status: Status, raised: Signal)
      requires Fine() && (Replayable(ctx.current) ==> Fit()) && (!s.Abort? && !s.Cancel? ==> Settled())
      requires s.Go? ==> EndsWithAnswer() && Concluded() && (if answered then Spoke(|responses|) else SpokeThenClosed())
      requires answered ==> EndsWithAnswer() && Concluded()
      requires s.StopRequested? ==> stop && !answered && Spoke(|responses|)
      modifies this, ctx
      ensures Fine() && (Replayable(ctx.current) ==> Fit()) && (status != Aborted ==> Settled())
      ensures status == Completed ==> raised == Go && EndsWithAnswer() && Concluded()
      ensures status == Completed ==> if answered then Spoke(|responses|) else SpokeThenClosed()
      ensures status == Aborted && raised.Cancel? && answered ==> EndsWithAnswer() && Concluded()
      ensures status == Error ==> raised in {SchemaFailed, BadInterrupt} || EndsWithError()
      ensures status == Running ==> raised in {Abort, Cancel}
      ensures status == Aborted ==> raised in {Go, Cancel} && (raised.Go? ==> ctx.finalContent == Some(ABORTED_CONTENT))
    {
      hide Told;
      hide Harmless;
      hide Replayable;
      hide Turn.Fine;
      hide Turn.EndsWithAnswer;
      raised := Go;
      match s {
        case Go => status := Completed;
        case StopRequested =>
          raised := CloseWithHandoff(Shutdown);
          status := if raised.Go? then Completed else Running;
        case Abort =>
          status := Aborted;
          ctx.finalContent := Some(ABORTED_CONTENT);
        case Cancel => status, raised := Aborted, Cancel;
        case SchemaFailed => status, raised := Error, s;
        case BadInterrupt => status, raised := Error, s;
        case Failed(text) =>
          status := Error;
          ReportError(text);
          raised := Hook();
          if raised.Go? { raised := Emit(); }
      }
    }

    lemma AnswerIsTheOutput()
      requires EndsWithAnswer() && Concluded()
      ensures ctx.current != [] && ctx.current[|ctx.current| - 1] == Msg(ASSISTANT, ctx.FinalResponse(), [], "")
      ensures answered ==>
                responses != [] && var last := responses[|responses| - 1];
                && last.calls == []
                && (clean(last.content) != "" ==> ctx.FinalResponse() == [clean(last.content)])
                && (clean(last.content) == "" ==>
                      ctx.FinalResponse() == [if last.finish == "error" then "(LLM responds error)" else "(empty model response)"])
      ensures !answered ==> |ctx.FinalResponse()| == 1 && var text := ctx.FinalResponse()[0];
                            (stop && SHUTTING_DOWN <= text) || (iteration == maxIterations && MAX_ITERATIONS_REACHED <= text)
    {
    }

    /** What a turn that returns hands out: its final content, or the last thing said. */
    lemma OutputIs()
      requires Fine()
      ensures ctx.finalContent.Some? && ctx.finalContent.value != "" ==> ctx.FinalResponse() == [ctx.finalContent.value]
      ensures ctx.finalContent.None? && ctx.current != [] ==> ctx.FinalResponse() == ctx.current[|ctx.current| - 1].content
    {
    }

    lemma FinalMeans()
      ensures EndsWithAnswer() ==> HasFinalAnswer()
      ensures HasFinalAnswer() ==> ctx.current != [] && ctx.finalContent.Some?
                                   && ctx.current[|ctx.current| - 1].role == ASSISTANT && ctx.current[|ctx.current| - 1].calls == []
                                   && ctx.current[|ctx.current| - 1].content == [ctx.finalContent.value]
    {
    }

    /** The generic handler's message stands last. */
    ghost predicate EndsWithError()
      reads ctx`current
    {
      ctx.current != [] && var last := ctx.current[|ctx.current| - 1]; |last.content| == 1 && "(error: " <= last.content[0]
    }

    lemma FineSays()
      requires Fine()
      ensures Told(interrupts, responses, strays, cuts) && (WellBehaved(interrupts, responses) ==> Fit() && UsersPlain(strays))
      ensures |prompts| <= iteration <= maxIterations && retries <= maxRetries && PromptsCache(prompts)
      ensures stop ==> |prompts| == promptsAtStop && |bodies| == bodiesAtStop
    {
      if WellBehaved(interrupts, responses) { BehavedIsHarmless(interrupts, responses, strays, cuts); }
    }

    /** The generic handler's message goes past the counter. */
    method ReportError(text: string)
      requires Fine() && Settled()
      modifies ctx`current
      ensures Fine() && Settled() && EndsWithError()
    {
      hide PromptsCache;
      hide Told;
      hide Harmless;
      hide UsersPlain;
      var m := Text(ASSISTANT, "(error: " + text + ")");
      StandsBehind(ctx.current, m);
      UsersPlainMore(ctx.current, m);
      ctx.AddMessage(m, false);
    }
  }

  lemma {:induction false} FirstUserStays(ms: seq<Msg>)
    requires ms != [] && ms[0].role == USER
    ensures UsersOf(ms) != [] && UsersOf(ms)[0] == ms[0]
  {
    var n := |ms| - 1;
    if n > 0 { FirstUserStays(ms[..n]); }
    assert UsersOf(ms) == UsersOf(ms[..n]) + if ms[n].role == USER then [ms[n]] else [];
  }

  /** User messages in a row can be replayed exactly when none advertises a call. */
  lemma {:induction false} UsersReplayIff(ms: seq<Msg>)
    ensures Replayable(UsersOf(ms)) <==> UsersPlain(ms)
  {
    if ms != [] {
      var n := |ms| - 1;
      UsersReplayIff(ms[..n]);
      UsersPlainMore(ms[..n], ms[n]);
      assert ms[..n] + [ms[n]] == ms;
      if ms[n].role == USER {
        PendingOne(UsersOf(ms[..n]), ms[n]);
        if Replayable(UsersOf(ms[..n])) { AppendIsHarmlessIff(UsersOf(ms[..n]), ms[n]); }
      } else {
        assert UsersOf(ms) == UsersOf(ms[..n]);
      }
    }
  }

  /** What an aborted turn commits. */
  lemma AbortedIsReplayableIff(ms: seq<Msg>)
    ensures Replayable(UsersOf(ms) + [Text(ASSISTANT, ABORTED_CONTENT)]) <==> UsersPlain(ms)
  {
    UsersReplayIff(ms);
    StandsBehind(UsersOf(ms), Text(ASSISTANT, ABORTED_CONTENT));
  }

  /** Behind a message that advertises nothing, nothing is pending. */
  lemma AnsweredMeansSettled(ms: seq<Msg>)
    requires Sound(ms) && ms != [] && ms[|ms| - 1].role != TOOL && ms[|ms| - 1].calls == []
    ensures Replayable(ms)
  {
    assert Ids(ms[|ms| - 1].calls) == [];
  }

  /** The text of a final answer, which is never empty. */
  function Reply(content: string, finish: string): (s: string)
    ensures s != ""
  {
    if content != "" then content
    else if finish == "error" then "(LLM responds error)" else "(empty model response)"
  }

  function Advertisement(response: Response): Msg { Msg(ASSISTANT, [response.content], response.calls, "") }

  lemma ToolsSettle(before: seq<Msg>, response: Response, fates: seq<Fate>)
    requires Replayable(before) && |fates| == |response.calls|
    ensures Replayable(before + [Advertisement(response)] + AfterStop(response.calls, fates)) <==> NoMixedId(response.calls, fates)
    ensures (forall i :: 0 <= i < |fates| ==> fates[i].Done?) ==>
              Replayable(before + [Advertisement(response)] + Results(response.calls, fates))
  {
    PendingBlock(before, Advertisement(response), AfterStop(response.calls, fates));
    StopAnswersAllIff(response.calls, fates);
    if forall i :: 0 <= i < |fates| ==> fates[i].Done? {
      AllDoneAnswersAll(response.calls, fates);
      PendingBlock(before, Advertisement(response), Results(response.calls, fates));
    }
  }

  /** What cannot be read so far is not made readable by what follows. */
  lemma NeverHeals(ms: seq<Msg>, rest: seq<Msg>)
    ensures Sound(ms + rest) ==> Sound(ms)
  {
    if Sound(ms + rest) {
      PendingPrefix(ms + rest, |ms|);
      assert (ms + rest)[..|ms|] == ms;
    }
  }

  /** A message delivered between blocks spoils the turn for good exactly when it is not plain, if no tool result follows it. */
  lemma InterruptSpoilsIff(current: seq<Msg>, m: Msg, rest: seq<Msg>)
    requires Replayable(current) && rest != [] && rest[0].role != TOOL
    ensures Sound(current + [m] + rest[..1]) <==> Plain(m)
    ensures !Plain(m) ==> !Replayable(current + [m] + rest)
  {
    AppendIsHarmlessIff(current, m);
    PendingOne(current + [m], rest[0]);
    assert rest[..1] == [rest[0]];
    if !Plain(m) {
      NeverHeals(current + [m] + rest[..1], rest[1..]);
      assert current + [m] + rest == current + [m] + rest[..1] + rest[1..];
    }
  }

  /** An id on both sides of a stop spoils it too: the handoff that closes the turn stands behind an unanswered call. */
  lemma MixedStopSpoilsIff(before: seq<Msg>, response: Response, fates: seq<Fate>, rest: seq<Msg>)
    requires Replayable(before) && |fates| == |response.calls| && rest != [] && rest[0].role != TOOL
    ensures var block := before + [Advertisement(response)] + AfterStop(response.calls, fates);
            && (Sound(block + rest[..1]) <==> NoMixedId(response.calls, fates))
            && (!NoMixedId(response.calls, fates) ==> !Replayable(block + rest))
  {
    hide AfterStop;
    hide NoMixedId;
    hide Pending;
    var block := before + [Advertisement(response)] + AfterStop(response.calls, fates);
    ToolsSettle(before, response, fates);
    PendingOne(block, rest[0]);
    assert rest[..1] == [rest[0]];
    if !NoMixedId(response.calls, fates) {
      NeverHeals(block + rest[..1], rest[1..]);
      assert block + rest == block + rest[..1] + rest[1..];
    }
  }

  /** A message of the turn's own stands exactly where all before it is answered; elsewhere it seals the harm. */
  lemma StandsBehind(ms: seq<Msg>, m: Msg)
    requires m.role != TOOL && m.calls == []
    ensures Replayable(ms + [m]) <==> Replayable(ms)
    ensures Sound(ms + [m]) <==> Replayable(ms)
  {
    PendingOne(ms, m);
    assert Ids(m.calls) == [];
  }

  lemma Spoilt(ms: seq<Msg>, m: Msg, now: seq<Msg>)
    requires !Replayable(ms) && m.role != TOOL && ms + [m] <= now
    ensures !Sound(now) && !Replayable(now)
  {
    PendingOne(ms, m);
    NeverHeals(ms + [m], now[|ms + [m]|..]);
    assert ms + [m] + now[|ms + [m]|..] == now;
  }

  /** What stands in the context once the first `n` calls are recorded. */
  function Recorded(advertised: seq<Msg>, calls: seq<ToolCall>, fates: seq<Fate>, n: nat): seq<Msg>
    requires n <= |calls| && n <= |fates|
  {
    advertised + Results(calls[..n], fates[..n])
  }

  lemma RecordedOneMore(advertised: seq<Msg>, calls: seq<ToolCall>, fates: seq<Fate>, n: nat)
    requires n < |calls| && n < |fates|
    ensures Recorded(advertised, calls, fates, n + 1)
         == Recorded(advertised, calls, fates, n) + if fates[n].Done? then [ToolResult(calls[n], fates[n].text)] else []
  {
    assert calls[..n + 1][..n] == calls[..n] && fates[..n + 1][..n] == fates[..n];
  }

  lemma RecordedIsSound(advertised: seq<Msg>, calls: seq<ToolCall>, fates: seq<Fate>, n: nat)
    requires n <= |calls| && n <= |fates| && Pending(advertised) == Some(multiset(Ids(calls)))
    ensures Sound(Recorded(advertised, calls, fates, n))
  {
    ResultsAreSound(advertised, calls, n, fates[..n]);
  }

  /** Results recorded so far answer advertised calls only. */
  lemma ResultsAreSound(advertised: seq<Msg>, calls: seq<ToolCall>, n: nat, fates: seq<Fate>)
    requires n <= |calls| && |fates| == n && Pending(advertised) == Some(multiset(Ids(calls)))
    ensures Sound(advertised + Results(calls[..n], fates))
  {
    hide Results;
    hide Pending;
    hide CallIds;
    hide NoMixedId;
    hide AfterStop;
    StopAnswersAllIff(calls[..n], fates);
    assert Ids(calls) == Ids(calls[..n]) + Ids(calls[n..]);
    PendingTools(advertised, Results(calls[..n], fates));
  }

  lemma NothingRecorded(advertised: seq<Msg>, calls: seq<ToolCall>)
    ensures Recorded(advertised, calls, [], 0) == advertised && Answered(calls[..0], []) == {} && Flatten([]) == []
  {
  }

  lemma {:induction false} FlattenSplits(batches: seq<seq<ToolCall>>, b: nat)
    requires b <= |batches|
    ensures Flatten(batches[..b]) <= Flatten(batches)
    decreases |batches| - b
  {
    if b < |batches| {
      assert batches[..b + 1][..b] == batches[..b];
      FlattenSplits(batches, b + 1);
    } else {
      assert batches[..b] == batches;
    }
  }

  /** The next batch is the next stretch of the calls. */
  lemma NextBatch(batches: seq<seq<ToolCall>>, b: nat, calls: seq<ToolCall>, n: nat)
    requires b < |batches| && Flatten(batches) == calls && n <= |calls| && Flatten(batches[..b]) == calls[..n]
    ensures n + |batches[b]| <= |calls| && batches[b] == calls[n..n + |batches[b]|]
    ensures Flatten(batches[..b + 1]) == calls[..n + |batches[b]|]
  {
    assert batches[..b + 1][..b] == batches[..b];
    FlattenSplits(batches, b + 1);
    var upTo := Flatten(batches[..b + 1]);
    assert upTo == calls[..n] + batches[b];
    hide Flatten;
    assert upTo == calls[..|upTo|] && upTo[n..] == batches[b];
  }

  lemma AnsweredMore(calls: seq<ToolCall>, fates: seq<Fate>, results: seq<Fate>)
    requires |fates| + |results| <= |calls|
    ensures var n, m := |fates|, |results|;
            Answered(calls[..n + m], fates + results) == Answered(calls[..n], fates) + Answered(calls[n..n + m], results)
  {
    var n, m := |fates|, |results|;
    var both := Answered(calls[..n + m], fates + results);
    forall i | 0 <= i < m && results[i].Done? ensures calls[n..n + m][i].id in both {
      assert (fates + results)[n + i].Done? && calls[..n + m][n + i].id == calls[n..n + m][i].id;
    }
    forall i | 0 <= i < n && fates[i].Done? ensures calls[..n][i].id in both {
      assert (fates + results)[i].Done?;
    }
    forall i | 0 <= i < n + m && (fates + results)[i].Done?
      ensures calls[..n + m][i].id in Answered(calls[..n], fates) + Answered(calls[n..n + m], results)
    {
      if i < n {
        assert fates[i].Done? && calls[..n][i].id == calls[..n + m][i].id;
      } else {
        assert results[i - n].Done? && calls[n..n + m][i - n].id == calls[..n + m][i].id;
      }
    }
  }

  /** The calls behind the cut have no result. */
  lemma {:induction false} RestIsUnfinished(advertised: seq<Msg>, calls: seq<ToolCall>, fates: seq<Fate>, known: nat)
    requires known <= |calls| == |fates| && forall i :: known <= i < |fates| ==> fates[i].Unfinished?
    ensures Recorded(advertised, calls, fates[..known], known) == advertised + Results(calls, fates)
    ensures Answered(calls[..known], fates[..known]) == Answered(calls, fates)
    decreases |calls|
  {
    if known == |calls| {
      assert calls[..known] == calls && fates[..known] == fates;
    } else {
      var n := |calls| - 1;
      RestIsUnfinished(advertised, calls[..n], fates[..n], known);
      assert calls[..n][..known] == calls[..known] && fates[..n][..known] == fates[..known];
    }
  }

  lemma {:induction false} PlaceholdersGrow(calls: seq<ToolCall>, answered: set<string>, n: nat)
    requires n <= |calls|
    ensures Placeholders(calls[..n], answered) <= Placeholders(calls, answered)
    decreases |calls|
  {
    if n < |calls| {
      PlaceholdersGrow(calls[..|calls| - 1], answered, n);
      assert calls[..|calls| - 1][..n] == calls[..n];
    } else {
      assert calls[..n] == calls;
    }
  }

  lemma FillIsSound(behind: seq<Msg>, calls: seq<ToolCall>, answered: set<string>, n: nat)
    requires n <= |calls| && Replayable(behind + Placeholders(calls, answered))
    ensures Sound(behind + Placeholders(calls[..n], answered))
  {
    PlaceholdersGrow(calls, answered, n);
    var part, whole := behind + Placeholders(calls[..n], answered), behind + Placeholders(calls, answered);
    assert part == whole[..|part|];
    PendingPrefix(whole, |part|);
  }
}
