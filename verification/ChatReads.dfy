/** What the chat store's answers say about a chat's log, stated on the log itself. */
module ChatReads {
  import opened Strings
  import opened Wrappers
  import opened ChatLog
  import opened ChatHistory
  import opened ChatSpec

  type Estimate = seq<Projected> -> nat

  /** The latest summary stands at `n`, or there is none and `n` is 0. */
  predicate BeginsAt(log: seq<Message>, n: nat) {
    && (n == 0 || n < |log|) && (0 < n ==> log[n].isSummary)
    && forall i :: n < i < |log| ==> !log[i].isSummary
  }

  // ------------------------------------------------------------------ the filter

  /** Nothing but white space, or nothing at all. */
  predicate SaysNothing(c: Content) {
    match c
    case Text(text) => forall i :: 0 <= i < |text| ==> text[i] in WHITESPACE
    case Parts(parts) => parts == []
    case Null => true
  }

  /**
   What the filter does to one message: a tool result goes, and so does an assistant's turn that calls tools and says
   nothing; one that says something loses its calls and keeps what it says; any other message stays as it is.
  */
  lemma KeepMeans(m: Message)
    ensures Keep(m).None? <==> m.role == "tool" || (m.role == "assistant" && m.calls != [] && SaysNothing(m.content))
    ensures Keep(m).Some? ==> var k := Keep(m).value;
              && k.role == m.role && k.content == m.content && k.createdAt == m.createdAt && k.turnId == m.turnId
              && k.isSummary == m.isSummary && k.revision == m.revision && k.meta == m.meta
              && (if m.role == "assistant" && m.calls != [] then k.calls == [] && k.extra == "" else k == m)
  {
    if m.content.Text? { StripsToNothingIff(m.content.text); }
  }

  // ------------------------------------------------------------------ what the context holds

  /** The context without its filter is the latest summary, if there is one, and all that stands behind it. */
  lemma ContextBeginsAtTheSummary(logs: Logs, chat: string, n: nat, default: Mode, estimate: Estimate)
    requires BeginsAt(At(logs, chat), n)
    ensures var log := At(logs, chat);
            var answer := Answers(Op.GetContext(chat, Some(KeepAll)), logs, default, estimate);
            && answer.InContext? && answer.context.source == log[n..]
            && answer.context.excluded == n
            && (answer.context.summaryApplied <==> n < |log| && log[n].isSummary)
            && answer.context.latestSummary == (if n < |log| && log[n].isSummary then Some(log[n]) else None)
  {
    WindowIs(At(logs, chat), n);
    SummaryIsFirst(At(logs, chat));
  }

  lemma SourceIs(logs: Logs, chat: string, mode: Option<Mode>, default: Mode, estimate: Estimate)
    ensures var answer := Answers(Op.GetContext(chat, mode), logs, default, estimate);
            && answer.InContext? && answer.context.source == Filtered(Active(At(logs, chat)), Resolve(mode, default))
            && answer.context.excluded == |At(logs, chat)| - |Active(At(logs, chat))|
            && answer.context.summaryApplied == HasSummary(Active(At(logs, chat))) && answer.context.latestSummary == LatestSummary(At(logs, chat))
    ensures Answers(Op.GetSummary(chat), logs, default, estimate) == Found(LatestSummary(At(logs, chat)))
  {
  }

  /** Under the filter it is what is left of that stretch: each message it keeps, in its order, and the same of the rest. */
  lemma ContextIsWhatIsLeft(logs: Logs, chat: string, n: nat, default: Mode, estimate: Estimate)
    requires BeginsAt(At(logs, chat), n)
    ensures var log := At(logs, chat);
            var answer := Answers(Op.GetContext(chat, Some(StripAll)), logs, default, estimate);
            var whole := Answers(Op.GetContext(chat, Some(KeepAll)), logs, default, estimate);
            && answer.InContext? && whole.InContext?
            && LeftOf(log, n, Survivors(log[n..]), answer.context.source)
            && answer.context.excluded == whole.context.excluded && answer.context.summaryApplied == whole.context.summaryApplied
            && answer.context.latestSummary == whole.context.latestSummary
  {
    hide Answers;
    hide Filtered;
    hide LeftOf;
    hide Survivors;
    hide HasSummary;
    hide LatestSummary;
    WindowIs(At(logs, chat), n);
    SourceIs(logs, chat, Some(StripAll), default, estimate);
    SourceIs(logs, chat, Some(KeepAll), default, estimate);
    FilterLeaves(At(logs, chat), n);
  }

  /** `ms` is what the filter makes of the messages of `log` behind `n` that it keeps; `at` says where behind `n` these stand. */
  predicate LeftOf(log: seq<Message>, n: nat, at: seq<nat>, ms: seq<Message>)
    requires n <= |log|
  {
    && |ms| == |at| && (forall i :: 0 <= i < |at| ==> at[i] < |log| - n && Keep(log[n + at[i]]) == Some(ms[i]))
    && (forall i, j :: 0 <= i < j < |at| ==> at[i] < at[j])
    && forall k :: 0 <= k < |log| - n ==> (k in at <==> Keep(log[n + k]).Some?)
  }

  lemma FilterLeaves(log: seq<Message>, n: nat)
    requires n <= |log|
    ensures LeftOf(log, n, Survivors(log[n..]), Filtered(log[n..], StripAll))
  {
    hide StripNoise;
    hide Survivors;
    hide Keep;
    StripKeepsOrder(log[n..]);
    forall i | 0 <= i < |log| - n ensures log[n..][i] == log[n + i] {}
  }

  /** What goes out of each message is its role and its content, but for a null and an empty list of parts; the estimate is made of that. */
  lemma ContextGoesOut(logs: Logs, chat: string, mode: Option<Mode>, default: Mode, estimate: Estimate)
    ensures var c := Answers(Op.GetContext(chat, mode), logs, default, estimate).context;
            && |c.messages| == |c.source| && c.estimated == estimate(c.messages)
            && forall i :: 0 <= i < |c.messages| ==>
                 && c.messages[i].role == c.source[i].role && c.messages[i].isSummary == c.source[i].isSummary
                 && (c.source[i].content in {Null, Parts([])} <==> c.messages[i].content.None?)
                 && (c.messages[i].content.Some? ==> c.messages[i].content.value == c.source[i].content)
  {
  }

  /**
   The other reads of a chat, by the same window: compaction reads what the context is made of, the summary is the one it
   begins with, the active messages are the context without a filter, and all of them the log; no mode is the default one.
  */
  lemma ReadsAgree(logs: Logs, chat: string, mode: Option<Mode>, default: Mode, estimate: Estimate)
    ensures var c := Answers(Op.GetContext(chat, mode), logs, default, estimate).context;
            && Answers(Op.GetCompactionMessages(chat, mode), logs, default, estimate) == Messages(c.source)
            && Answers(Op.GetSummary(chat), logs, default, estimate) == Found(c.latestSummary)
    ensures Answers(Op.GetMessages(chat, true), logs, default, estimate)
         == Messages(Answers(Op.GetContext(chat, Some(KeepAll)), logs, default, estimate).context.source)
    ensures Answers(Op.GetMessages(chat, false), logs, default, estimate) == Messages(if chat in logs then logs[chat] else [])
    ensures Answers(Op.GetContext(chat, None), logs, default, estimate) == Answers(Op.GetContext(chat, Some(default)), logs, default, estimate)
  {
    hide Active;
  }

  // ------------------------------------------------------------------ what is written

  /** A stored message is the one that was committed, under the turn's id and revision. */
  predicate Carries(stored: Message, m: Message, turnId: string, revision: int) {
    && stored.role == m.role && stored.content == m.content && stored.calls == m.calls && stored.extra == m.extra
    && stored.createdAt == m.createdAt && stored.isSummary == m.isSummary && stored.meta == m.meta
    && stored.turnId == Some(turnId) && stored.revision == Some(revision)
  }

  /** A commit puts its messages behind the chat's log, each with all it says, one revision on, and touches no other chat. */
  lemma CommitKeepsAll(logs: Logs, chat: string, ms: seq<Message>, turnId: string, default: Mode, estimate: Estimate)
    requires ms != []
    ensures var op := Op.CommitTurn(chat, ms, turnId);
            var answer := Answers(op, logs, default, estimate);
            && answer.Committed? && answer.commit.revision == Answers(Op.GetRevision(chat), logs, default, estimate).revision + 1
            && |answer.commit.messages| == |ms|
            && (forall i :: 0 <= i < |ms| ==> Carries(answer.commit.messages[i], ms[i], turnId, answer.commit.revision))
            && After(op, logs) == logs[chat := At(logs, chat) + answer.commit.messages]
  {
  }

  /** A message of the system's with the summary's text under its heading. */
  predicate Summarizes(m: Message, text: string, at: int) {
    && m.role == "system" && m.content == Text("Chat summary:\n" + text) && m.isSummary && m.createdAt == at
    && m.calls == [] && m.turnId.None? && m.revision.None?
  }

  lemma WindowOfSummary(log: seq<Message>, m: Message, mode: Mode)
    requires m.isSummary && m.role == "system"
    ensures Active(log + [m]) == [m] && Filtered([m], mode) == [m] && LatestSummary(log + [m]) == Some(m)
  {
    ActiveFromLast(log, m);
    WindowIs(log + [m], |log|);
    SystemSurvives(m);
    LastOfClean([m]);
    assert [m][..0] == [];
  }

  /** A summary goes behind the chat's log, touches no other chat, and is what the context is from then on. */
  lemma SummaryTakesOver(logs: Logs, chat: string, text: string, at: int, mode: Option<Mode>, default: Mode, estimate: Estimate)
    ensures var saved := After(Op.SaveSummary(chat, text, at), logs);
            exists m :: Summarizes(m, text, at) && saved == logs[chat := At(logs, chat) + [m]]
              && Answers(Op.GetContext(chat, mode), saved, default, estimate).context.source == [m]
              && Answers(Op.GetContext(chat, mode), saved, default, estimate).context.excluded == |At(logs, chat)|
              && Answers(Op.GetSummary(chat), saved, default, estimate) == Found(Some(m))
  {
    var m := SummaryMessage(text, at);
    var saved := After(Op.SaveSummary(chat, text, at), logs);
    assert Summarizes(m, text, at) && saved == logs[chat := At(logs, chat) + [m]];
    hide After;
    hide Answers;
    hide Active;
    hide Filtered;
    hide LatestSummary;
    hide HasSummary;
    hide SummaryMessage;
    SourceIs(saved, chat, mode, default, estimate);
    WindowOfSummary(At(logs, chat), m, Resolve(mode, default));
  }

  /** A turn without summaries goes behind what the context was, under any filter as much of it as the filter leaves. */
  lemma CommitExtendsTheContext(logs: Logs, chat: string, ms: seq<Message>, turnId: string, commit: Commit,
                                mode: Option<Mode>, default: Mode, estimate: Estimate)
    requires ms != [] && forall i :: 0 <= i < |ms| ==> !ms[i].isSummary
    requires Answers(Op.CommitTurn(chat, ms, turnId), logs, default, estimate) == Committed(commit)
    ensures var grown := After(Op.CommitTurn(chat, ms, turnId), logs);
            Answers(Op.GetContext(chat, mode), grown, default, estimate).context.source
            == Answers(Op.GetContext(chat, mode), logs, default, estimate).context.source + Filtered(commit.messages, Resolve(mode, default))
  {
    var log, op := At(logs, chat), Op.CommitTurn(chat, ms, turnId);
    CommitKeepsAll(logs, chat, ms, turnId, default, estimate);
    SourceIs(logs, chat, mode, default, estimate);
    SourceIs(After(op, logs), chat, mode, default, estimate);
    hide Answers;
    hide After;
    hide LatestSummary;
    hide HasSummary;
    forall i | 0 <= i < |commit.messages| ensures !commit.messages[i].isSummary {
      assert Carries(commit.messages[i], ms[i], turnId, commit.revision);
    }
    ActiveBehind(log, commit.messages);
    hide Carries;
    hide Active;
    hide StripNoise;
    StripConcat(Active(log), commit.messages);
  }

  // ------------------------------------------------------------------ the listing

  /** What the listing says of a chat: its size, its last message's time, its latest summary's, and what its first user said, or else its first message. */
  lemma ListingSays(logs: Logs, chat: string, n: nat, default: Mode, estimate: Estimate)
    requires BeginsAt(At(logs, chat), n)
    ensures var chats := Answers(Op.ListChats, logs, default, estimate).chats;
            var log := At(logs, chat);
            && (chat in chats <==> log != [])
            && (log != [] ==>
                  && chats[chat].count == |log| && chats[chat].lastActivity == log[|log| - 1].createdAt
                  && (chats[chat].hasSummary <==> log[n].isSummary)
                  && chats[chat].latestSummaryAt == (if log[n].isSummary then Some(log[n].createdAt) else None)
                  && (forall k :: FirstFrom(log, k, "user") ==> chats[chat].described == log[k].content)
                  && ((forall k :: 0 <= k < |log| ==> log[k].role != "user") ==> chats[chat].described == log[0].content))
  {
    var log := At(logs, chat);
    WindowIs(log, n);
    SummaryIsFirst(log);
    FirstUserIs(log);
  }

  predicate FirstFrom(log: seq<Message>, k: int, role: string) {
    0 <= k < |log| && log[k].role == role && forall j :: 0 <= j < k ==> log[j].role != role
  }

  lemma {:induction false} FirstUserIs(log: seq<Message>)
    ensures forall k :: FirstFrom(log, k, "user") ==> FirstUser(log) == Some(log[k])
    ensures (forall k :: 0 <= k < |log| ==> log[k].role != "user") ==> FirstUser(log).None?
  {
    if log != [] {
      FirstUserIs(log[1..]);
      forall k | FirstFrom(log, k, "user") ensures FirstUser(log) == Some(log[k]) {
        if k > 0 { assert log[0].role != "user" && FirstFrom(log[1..], k - 1, "user"); }
      }
    }
  }
}
