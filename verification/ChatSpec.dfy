/** The chat store's operations on an abstract table of logs. */
module ChatSpec {
  import opened Wrappers
  import opened ChatLog
  import opened ChatHistory

  type Logs = map<string, seq<Message>>

  function At(logs: Logs, chat: string): seq<Message> { if chat in logs then logs[chat] else [] }

  datatype Projected = Projected(role: string, content: Option<Content>, isSummary: bool)

  /** `project_message`: null and empty lists are left out, an empty text is not, and tool calls never go out. */
  function Project(m: Message): Projected {
    Projected(m.role, if m.content.Null? || m.content == Parts([]) then None else Some(m.content), m.isSummary)
  }

  function ProjectAll(ms: seq<Message>): seq<Projected> { seq(|ms|, i requires 0 <= i < |ms| => Project(ms[i])) }

  datatype Context = Context(messages: seq<Projected>, source: seq<Message>, estimated: nat,
                             summaryApplied: bool, excluded: int, latestSummary: Option<Message>)

  datatype Meta = Meta(count: nat, lastActivity: int, hasSummary: bool, latestSummaryAt: Option<int>, described: Content)

  predicate HasSummary(ms: seq<Message>) { exists i :: 0 <= i < |ms| && ms[i].isSummary }

  /** The summary the active window starts with, if there is any. */
  function LatestSummary(ms: seq<Message>): Option<Message> {
    if ms != [] && ms[WindowStart(ms)].isSummary then Some(ms[WindowStart(ms)]) else None
  }

  function FirstUser(ms: seq<Message>): Option<Message> {
    if ms == [] then None else if ms[0].role == "user" then Some(ms[0]) else FirstUser(ms[1..])
  }

  function MetaOf(ms: seq<Message>): Meta
    requires ms != []
  {
    Meta(|ms|, ms[|ms| - 1].createdAt, HasSummary(ms),
         if LatestSummary(ms).Some? then Some(LatestSummary(ms).value.createdAt) else None,
         if FirstUser(ms).Some? then FirstUser(ms).value.content else ms[0].content)
  }

  datatype Commit = Commit(revision: int, messages: seq<Message>)

  datatype Op =
    | CommitTurn(chat: string, messages: seq<Message>, turnId: string)
    | SaveSummary(chat: string, text: string, at: int)
    | GetContext(chat: string, mode: Option<Mode>)
    | GetCompactionMessages(chat: string, mode: Option<Mode>)
    | GetSummary(chat: string)
    | GetMessages(chat: string, activeOnly: bool)
    | GetRevision(chat: string)
    | GetMessagesSince(chat: string, revision: int)
    | ListChats

  datatype Answer =
    | EmptyTurn
    | Committed(commit: Commit)
    | Saved
    | InContext(context: Context)
    | Found(summary: Option<Message>)
    | Messages(messages: seq<Message>)
    | AtRevision(revision: int)
    | Listing(chats: map<string, Meta>)

  function Resolve(mode: Option<Mode>, default: Mode): Mode { if mode.Some? then mode.value else default }

  function ContextOf(ms: seq<Message>, mode: Mode, estimate: seq<Projected> -> nat): Context {
    var filtered := Filtered(Active(ms), mode);
    Context(ProjectAll(filtered), filtered, estimate(ProjectAll(filtered)), HasSummary(Active(ms)), |ms| - |Active(ms)|, LatestSummary(ms))
  }

  /** What an operation leaves. */
  function After(op: Op, logs: Logs): Logs {
    match op
    case CommitTurn(chat, messages, turnId) =>
      if messages == [] then logs else logs[chat := At(logs, chat) + Appended(At(logs, chat), Turn(messages, turnId))]
    case SaveSummary(chat, text, at) => logs[chat := At(logs, chat) + Appended(At(logs, chat), Summary(text, at))]
    case _ => logs
  }

  /** What an operation answers. */
  function Answers(op: Op, logs: Logs, default: Mode, estimate: seq<Projected> -> nat): Answer {
    match op
    case CommitTurn(chat, messages, turnId) =>
      if messages == [] then EmptyTurn
      else Committed(Commit(Revision(At(logs, chat)) + 1, Appended(At(logs, chat), Turn(messages, turnId))))
    case SaveSummary(_, _, _) => Saved
    case GetContext(chat, mode) => InContext(ContextOf(At(logs, chat), Resolve(mode, default), estimate))
    case GetCompactionMessages(chat, mode) => Messages(Filtered(Active(At(logs, chat)), Resolve(mode, default)))
    case GetSummary(chat) => Found(LatestSummary(At(logs, chat)))
    case GetMessages(chat, activeOnly) => Messages(if activeOnly then Active(At(logs, chat)) else At(logs, chat))
    case GetRevision(chat) => AtRevision(Revision(At(logs, chat)))
    case GetMessagesSince(chat, revision) => Messages(Since(At(logs, chat), revision))
    case ListChats => Listing(map c | c in logs && logs[c] != [] :: MetaOf(logs[c]))
  }

  // ------------------------------------------------------------------ the reading code both stores carry

  method Assemble(all: seq<Message>, mode: Mode, estimate: seq<Projected> -> nat) returns (context: Context)
    ensures context == ContextOf(all, mode, estimate)
  {
    var active := ActiveMessages(all);
    var filtered := FilterToolNoise(active, mode);
    var projected := ProjectAll(filtered);
    var summaryApplied := exists i :: 0 <= i < |active| && active[i].isSummary;
    SummaryIsFirst(all);
    context := Context(projected, filtered, estimate(projected), summaryApplied, |all| - |active|,
                       if summaryApplied then Some(active[0]) else None);
  }

  /** If any message of the window is a summary, the first one is, and it is the latest summary of the chat. */
  lemma SummaryIsFirst(ms: seq<Message>)
    ensures HasSummary(Active(ms)) <==> LatestSummary(ms).Some?
    ensures HasSummary(ms) <==> LatestSummary(ms).Some?
    ensures LatestSummary(ms).Some? ==> Active(ms)[0] == LatestSummary(ms).value
  {
    if i :| 0 <= i < |ms| && ms[i].isSummary {
      assert i <= WindowStart(ms);
      assert Active(ms)[0].isSummary;
    }
    if LatestSummary(ms).Some? { assert Active(ms)[0].isSummary; }
  }

  method FindSummary(ms: seq<Message>) returns (found: Option<Message>)
    ensures found == LatestSummary(ms)
  {
    var i := |ms|;
    while i > 0
      invariant 0 <= i <= |ms| && forall j :: i <= j < |ms| ==> !ms[j].isSummary
    {
      i := i - 1;
      if ms[i].isSummary {
        WindowIs(ms, i);
        return Some(ms[i]);
      }
    }
    found := None;
  }

  method MessagesSince(ms: seq<Message>, revision: int) returns (newer: seq<Message>)
    ensures newer == Since(ms, revision)
  {
    newer := [];
    for i := 0 to |ms|
      invariant newer == Since(ms[..i], revision)
    {
      assert ms[..i + 1][..i] == ms[..i];
      if RevisionOf(ms[i]) > revision { newer := newer + [ms[i]]; }
    }
    assert ms[..|ms|] == ms;
  }

  method Describe(ms: seq<Message>) returns (meta: Meta)
    requires ms != []
    ensures meta == MetaOf(ms)
  {
    var user := None;
    var i := 0;
    while i < |ms| && user.None?
      invariant 0 <= i <= |ms|
      invariant FirstUser(ms) == if user.Some? then user else FirstUser(ms[i..])
    {
      if ms[i].role == "user" { user := Some(ms[i]); }
      i := i + 1;
    }
    var latest := FindSummary(ms);
    SummaryIsFirst(ms);
    meta := Meta(|ms|, ms[|ms| - 1].createdAt, exists j :: 0 <= j < |ms| && ms[j].isSummary,
                 if latest.Some? then Some(latest.value.createdAt) else None,
                 if user.Some? then user.value.content else ms[0].content);
  }
}
