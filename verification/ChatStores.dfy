/** The in-memory and the JSONL chat store, each proved to be the same table of logs. */
module ChatStores {
  import opened Wrappers
  import opened ChatLog
  import opened ChatHistory
  import opened Encoding
  import opened JsonLines
  import opened Strings
  import opened ChatSpec

  // ------------------------------------------------------------------ in memory

  class InMemChatStore {
    const default: Mode
    const estimate: seq<Projected> -> nat
    var messages: map<string, seq<Message>>

    constructor (default: Mode, estimate: seq<Projected> -> nat)
      ensures messages == map[] && this.default == default && this.estimate == estimate
    {
      this.default, this.estimate, messages := default, estimate, map[];
    }

    function Read(chat: string): seq<Message>
      reads this
    {
      At(messages, chat)
    }

    method Extend(chat: string, more: seq<Message>)
      modifies this
      ensures messages == old(messages)[chat := At(old(messages), chat) + more]
    {
      if chat !in messages { messages := messages[chat := []]; }
      messages := messages[chat := messages[chat] + more];
    }

    method CommitTurn(chat: string, pending: seq<Message>, turnId: string) returns (answer: Answer)
      modifies this
      ensures var op := Op.CommitTurn(chat, pending, turnId);
              messages == After(op, old(messages)) && answer == Answers(op, old(messages), default, estimate)
    {
      if pending == [] { return EmptyTurn; }
      var revision := ChatRevision(Read(chat));
      var committed := CommitMessages(pending, turnId, revision + 1);
      Extend(chat, committed);
      answer := Committed(Commit(revision + 1, committed));
    }

    method SaveSummary(chat: string, text: string, at: int) returns (answer: Answer)
      modifies this
      ensures messages == After(Op.SaveSummary(chat, text, at), old(messages)) && answer == Saved
    {
      Extend(chat, [SummaryMessage(text, at)]);
      answer := Saved;
    }

    method ListChats() returns (chats: map<string, Meta>)
      ensures Listing(chats) == Answers(Op.ListChats, messages, default, estimate)
    {
      hide MetaOf;
      chats := map[];
      var todo := messages.Keys;
      while todo != {}
        invariant todo <= messages.Keys
        invariant chats == map c | c in messages && c !in todo && messages[c] != [] :: MetaOf(messages[c])
        decreases todo
      {
        var chat :| chat in todo;
        todo := todo - {chat};
        if messages[chat] == [] { continue; }
        var meta := Describe(messages[chat]);
        chats := chats[chat := meta];
      }
    }

    /** Any operation of the protocol. */
    method Perform(op: Op) returns (answer: Answer)
      modifies this
      ensures messages == After(op, old(messages)) && answer == Answers(op, old(messages), default, estimate)
    {
      match op
      case CommitTurn(chat, pending, turnId) => answer := CommitTurn(chat, pending, turnId);
      case SaveSummary(chat, text, at) => answer := SaveSummary(chat, text, at);
      case ListChats =>
        var chats := ListChats();
        answer := Listing(chats);
      case GetContext(chat, mode) => answer := Answered(op, Read(chat), default, estimate);
      case GetCompactionMessages(chat, mode) => answer := Answered(op, Read(chat), default, estimate);
      case GetSummary(chat) => answer := Answered(op, Read(chat), default, estimate);
      case GetMessages(chat, activeOnly) => answer := Answered(op, Read(chat), default, estimate);
      case GetRevision(chat) => answer := Answered(op, Read(chat), default, estimate);
      case GetMessagesSince(chat, revision) => answer := Answered(op, Read(chat), default, estimate);
    }
  }

  predicate Reads(op: Op) { !op.CommitTurn? && !op.SaveSummary? && !op.ListChats? }

  /** The reading operations, on the messages the store has loaded. */
  method Answered(op: Op, all: seq<Message>, default: Mode, estimate: seq<Projected> -> nat) returns (answer: Answer)
    requires Reads(op)
    ensures forall logs: Logs :: At(logs, op.chat) == all ==> answer == Answers(op, logs, default, estimate)
  {
    match op
    case GetContext(chat, mode) =>
      var context := Assemble(all, Resolve(mode, default), estimate);
      answer := InContext(context);
    case GetCompactionMessages(chat, mode) =>
      var active := ActiveMessages(all);
      var filtered := FilterToolNoise(active, Resolve(mode, default));
      answer := Messages(filtered);
    case GetSummary(chat) =>
      var found := FindSummary(all);
      answer := Found(found);
    case GetMessages(chat, activeOnly) =>
      if activeOnly {
        var active := ActiveMessages(all);
        answer := Messages(active);
      } else {
        answer := Messages(all);
      }
    case GetRevision(chat) =>
      var revision := ChatRevision(all);
      answer := AtRevision(revision);
    case GetMessagesSince(chat, revision) =>
      var newer := MessagesSince(all, revision);
      answer := Messages(newer);
  }

  // ------------------------------------------------------------------ JSONL

  /** How a message is written and read: `json.dumps` gives one object in printable ASCII, and `json.loads` undoes it. */
  datatype Codec = Codec(encode: Message -> string, decode: string -> Message)

  predicate IsLine(s: string) { s != "" && s[0] == '{' && s[|s| - 1] == '}' && forall i :: 0 <= i < |s| ==> ' ' <= s[i] <= '~' }

  ghost predicate Lossless(codec: Codec) {
    forall m: Message :: IsLine(codec.encode(m)) && codec.decode(codec.encode(m)) == m
  }

  /** A message as lists of texts, nothing left out. */
  function Fields(m: Message): seq<seq<string>> {
    [[m.role],
     match m.content case Text(t) => ["t", t] case Parts(ps) => ["p"] + ps case Null => ["n"],
     m.calls, [m.extra], [IntText(m.createdAt)],
     if m.turnId.Some? then [m.turnId.value] else [],
     if m.isSummary then [""] else [],
     if m.revision.Some? then [IntText(m.revision.value)] else [],
     [m.meta]]
  }

  lemma FieldsAreInjective(m: Message, n: Message)
    requires Fields(m) == Fields(n)
    ensures m == n
  {
    var x, y := Fields(m), Fields(n);
    assert x[0] == y[0] && x[0][0] == y[0][0];
    assert x[1] == y[1] && x[1][0] == y[1][0];
    if m.content.Text? { assert x[1][1] == y[1][1]; }
    if m.content.Parts? { assert m.content.parts == x[1][1..] == y[1][1..] == n.content.parts; }
    assert x[2] == y[2];
    assert x[3] == y[3] && x[3][0] == y[3][0];
    assert x[4] == y[4] && x[4][0] == y[4][0];
    IntTextIsInjective(m.createdAt, n.createdAt);
    assert x[5] == y[5] && x[6] == y[6] && x[7] == y[7];
    if m.turnId.Some? { assert x[5][0] == y[5][0]; }
    if m.revision.Some? {
      assert x[7][0] == y[7][0];
      IntTextIsInjective(m.revision.value, n.revision.value);
    }
    assert x[8] == y[8] && x[8][0] == y[8][0];
  }

  function Encode(m: Message): string { Line(ListCode(StringsCode())(Fields(m))) }

  lemma EncodeIsInjective(m: Message, n: Message)
    requires Encode(m) == Encode(n)
    ensures m == n
  {
    var code := ListCode(StringsCode());
    StringsArePrefixFree();
    ListsArePrefixFree(StringsCode());
    LinesAreInjective(code(Fields(m)), code(Fields(n)));
    assert code(Fields(m)) + [] == code(Fields(n)) + [];
    FieldsAreInjective(m, n);
  }

  ghost function Decode(s: string): Message {
    if m: Message :| Encode(m) == s then m else Message("", Null, [], "", 0, None, false, None, "")
  }

  /** There is such a codec, so what is proved of the store is not empty. */
  lemma SomeCodecIsLossless()
    ensures exists codec :: Lossless(codec)
  {
    var codec := Codec(Encode, s => Decode(s));
    forall m: Message ensures IsLine(codec.encode(m)) && codec.decode(codec.encode(m)) == m {
      LineIsALine(ListCode(StringsCode())(Fields(m)));
      EncodeIsInjective(Decode(Encode(m)), m);
    }
    assert Lossless(codec);
  }

  const SUFFIX := ".jsonl"

  function Path(chat: string): string { chat + SUFFIX }

  /** The chat a file is named after. */
  function Owner(name: string): string { if |name| >= |SUFFIX| then name[..|name| - |SUFFIX|] else "" }

  /** `Path.stem`: a name that is nothing but the suffix has none, and stays whole. */
  function Stem(name: string): string {
    if |name| > |SUFFIX| && name[|name| - |SUFFIX|..] == SUFFIX then name[..|name| - |SUFFIX|] else name
  }

  /** A chat id that names one file of the directory itself. The empty id does. */
  predicate Plain(chat: string) { '/' !in chat }

  lemma OwnerOfPath(chat: string)
    ensures Owner(Path(chat)) == chat
    ensures Stem(Path(chat)) == if chat == "" then SUFFIX else chat
  {
    assert Path(chat)[|chat|..] == SUFFIX && Path(chat)[..|chat|] == chat;
  }

  lemma SuffixIsPlain()
    ensures Plain(SUFFIX) && SUFFIX != ""
  {
  }

  function Encoded(codec: Codec, ms: seq<Message>): seq<string> { seq(|ms|, i requires 0 <= i < |ms| => codec.encode(ms[i])) }

  /** The listing of the chats seen so far. */
  function Listed(logs: Logs, seen: set<string>): map<string, Meta> {
    map c | c in logs && c in seen && logs[c] != [] :: MetaOf(logs[c])
  }

  lemma ListedMore(logs: Logs, seen: set<string>, chat: string)
    ensures Listed(logs, seen + {chat}) == if At(logs, chat) == [] then Listed(logs, seen) else Listed(logs, seen)[chat := MetaOf(logs[chat])]
  {
    hide MetaOf;
  }

  /** What the JSONL store lists: the chat with the empty id is missed, as its file's stem is not its id. */
  function DiskListing(logs: Logs): map<string, Meta> { map c | c in logs && c != "" && logs[c] != [] :: MetaOf(logs[c]) }

  function DiskAnswers(op: Op, logs: Logs, default: Mode, estimate: seq<Projected> -> nat): Answer {
    if op.ListChats? then Listing(DiskListing(logs)) else Answers(op, logs, default, estimate)
  }

  /** The one question the two stores answer differently: which chats there are, when the empty id is one. */
  predicate MissesOne(op: Op, logs: Logs) { op.ListChats? && At(logs, "") != [] }

  /** The two stores' answers to one question about the same logs are the same unless it is a listing and the empty id has messages. */
  lemma AnswersDifferIff(op: Op, logs: Logs, default: Mode, estimate: seq<Projected> -> nat)
    ensures DiskAnswers(op, logs, default, estimate) == Answers(op, logs, default, estimate) <==> !MissesOne(op, logs)
    ensures op.ListChats? ==> DiskListing(logs) == Answers(op, logs, default, estimate).chats - {""}
  {
    hide MetaOf;
    if op.ListChats? {
      var all := Answers(op, logs, default, estimate).chats;
      assert "" in all <==> At(logs, "") != [];
      assert "" !in DiskListing(logs);
      assert "" !in all ==> DiskListing(logs) == all;
    }
  }

  lemma AllSeen(logs: Logs, seen: set<string>)
    requires "" !in seen && forall c :: c in logs && c != "" ==> c in seen
    ensures Listed(logs, seen) == DiskListing(logs)
  {
    hide MetaOf;
  }

  class JsonlChatStore {
    const default: Mode
    const estimate: seq<Projected> -> nat
    const codec: Codec

    /** The directory's files and their texts. */
    var files: map<string, string>
    ghost var logs: Logs

    constructor (default: Mode, estimate: seq<Projected> -> nat, codec: Codec)
      requires Lossless(codec)
      ensures Valid() && logs == map[] && this.default == default && this.estimate == estimate
    {
      this.default, this.estimate, this.codec, files, logs := default, estimate, codec, map[], map[];
    }

    /** Each chat is one file that holds its messages line by line, and there is no other file. */
    ghost predicate Valid()
      reads this
    {
      && Lossless(codec)
      && (forall c :: c in logs ==> Plain(c) && Path(c) in files && files[Path(c)] == Framed(Encoded(codec, logs[c])))
      && (forall p :: p in files ==> Owner(p) in logs && p == Path(Owner(p)))
    }

    lemma FileOf(chat: string)
      requires Valid() && Plain(chat)
      ensures Path(chat) in files <==> chat in logs
      ensures chat in logs ==> files[Path(chat)] == Framed(Encoded(codec, logs[chat]))
      ensures Lossless(codec)
    {
      OwnerOfPath(chat);
    }

    lemma StemOf(path: string)
      requires Valid() && path in files
      ensures Plain(Stem(path)) && Stem(path) != "" && Owner(path) in logs && path == Path(Owner(path))
      ensures Owner(path) != "" ==> Stem(path) == Owner(path)
    {
      hide Path;
      hide Stem;
      hide Owner;
      hide Framed;
      hide Encoded;
      hide Lossless;
      hide Plain;
      OwnerOfPath(Owner(path));
      SuffixIsPlain();
    }

    /** `_read_messages_sync`. */
    method ReadMessages(chat: string) returns (messages: seq<Message>)
      requires Valid() && Plain(chat)
      ensures messages == At(logs, chat)
    {
      hide Valid;
      hide Lossless;
      FileOf(chat);
      messages := [];
      if Path(chat) !in files { return; }
      ghost var all := logs[chat];
      EncodedReads(codec, all);
      var lines := SplitLines(files[Path(chat)]);
      for i := 0 to |lines|
        invariant messages == all[..i]
      {
        LineReads(codec, all[i]);
        var line := Strip(lines[i]);
        if line != "" { messages := messages + [codec.decode(line)]; }
      }
      assert all[..|lines|] == all;
    }

    /** Appending lines to the chat's file, which is made if it is not there. */
    method Append(chat: string, more: seq<Message>)
      requires Valid() && Plain(chat)
      modifies this
      ensures Valid() && logs == old(logs)[chat := At(old(logs), chat) + more]
    {
      hide Lossless;
      hide Encoded;
      hide Framed;
      hide Owner;
      hide Path;
      hide Plain;
      FileOf(chat);
      OwnerOfPath(chat);
      forall c | c in logs && c != chat ensures Path(c) != Path(chat) { OtherFile(c, chat); }
      var text := if Path(chat) in files then files[Path(chat)] else "";
      NothingFramed(codec);
      FramedMore(codec, At(logs, chat), more);
      files := files[Path(chat) := text + Framed(Encoded(codec, more))];
      logs := logs[chat := At(logs, chat) + more];
    }

    method CommitTurn(chat: string, pending: seq<Message>, turnId: string) returns (answer: Answer)
      requires Valid() && Plain(chat)
      modifies this
      ensures var op := Op.CommitTurn(chat, pending, turnId);
              Valid() && logs == After(op, old(logs)) && answer == Answers(op, old(logs), default, estimate)
    {
      hide Valid;
      if pending == [] { return EmptyTurn; }
      var existing := ReadMessages(chat);
      var revision := ChatRevision(existing);
      var committed := CommitMessages(pending, turnId, revision + 1);
      Append(chat, committed);
      answer := Committed(Commit(revision + 1, committed));
    }

    method SaveSummary(chat: string, text: string, at: int) returns (answer: Answer)
      requires Valid() && Plain(chat)
      modifies this
      ensures Valid() && logs == After(Op.SaveSummary(chat, text, at), old(logs)) && answer == Saved
    {
      Append(chat, [SummaryMessage(text, at)]);
      answer := Saved;
    }

    /** One entry per file, under the file's stem and with the messages of the chat of that name. */
    method ListChats() returns (chats: map<string, Meta>)
      requires Valid()
      ensures chats == DiskListing(logs)
    {
      hide Valid;
      hide Stem;
      hide MetaOf;
      hide HasSummary;
      hide LatestSummary;
      chats := map[];
      var todo := files.Keys;
      ghost var seen: set<string> := {};
      NoneSeen();
      while todo != {}
        invariant todo <= files.Keys && chats == Listed(logs, seen) && "" !in seen
        invariant forall c :: c in logs && c != "" && Path(c) !in todo ==> c in seen
        decreases todo
      {
        var path :| path in todo;
        StemOf(path);
        var chat := Stem(path);
        forall c | c in logs && c != "" && Path(c) == path ensures c == chat { OwnerOfPath(c); }
        todo := todo - {path};
        ListedMore(logs, seen, chat);
        seen := seen + {chat};
        var messages := ReadMessages(chat);
        if messages == [] { continue; }
        var meta := Describe(messages);
        chats := chats[chat := meta];
      }
      AllSeen(logs, seen);
    }

    lemma NoneSeen()
      requires Valid()
      ensures Listed(logs, {}) == map[] && forall c :: c in logs ==> Path(c) in files
    {
    }

    lemma OtherFile(c: string, chat: string)
      requires c != chat
      ensures Path(c) != Path(chat)
    {
      OwnerOfPath(c);
      OwnerOfPath(chat);
    }

    method Perform(op: Op) returns (answer: Answer)
      requires Valid() && (op.ListChats? || Plain(op.chat))
      modifies this
      ensures Valid() && logs == After(op, old(logs)) && answer == DiskAnswers(op, old(logs), default, estimate)
    {
      match op
      case CommitTurn(chat, pending, turnId) => answer := CommitTurn(chat, pending, turnId);
      case SaveSummary(chat, text, at) => answer := SaveSummary(chat, text, at);
      case ListChats =>
        var chats := ListChats();
        answer := Listing(chats);
      case _ =>
        assert Reads(op);
        var all := ReadMessages(op.chat);
        answer := Answered(op, all, default, estimate);
    }
  }

  lemma NothingFramed(codec: Codec)
    ensures Framed(Encoded(codec, [])) == ""
  {
  }

  lemma FramedMore(codec: Codec, ms: seq<Message>, more: seq<Message>)
    ensures Framed(Encoded(codec, ms + more)) == Framed(Encoded(codec, ms)) + Framed(Encoded(codec, more))
  {
    FramedConcat(Encoded(codec, ms), Encoded(codec, more));
    assert Encoded(codec, ms + more) == Encoded(codec, ms) + Encoded(codec, more);
  }

  lemma LineReads(codec: Codec, m: Message)
    requires Lossless(codec)
    ensures var line := codec.encode(m); line != "" && Strip(line) == line && codec.decode(line) == m
  {
    assert IsLine(codec.encode(m));
  }

  lemma EncodedReads(codec: Codec, ms: seq<Message>)
    requires Lossless(codec)
    ensures SplitLines(Framed(Encoded(codec, ms))) == Encoded(codec, ms)
  {
    forall i | 0 <= i < |ms| ensures NoBreak(Encoded(codec, ms)[i]) { assert IsLine(codec.encode(ms[i])); }
    SplitFramed(Encoded(codec, ms));
  }

  // ------------------------------------------------------------------ operations and histories

  /** The entry an operation adds to its chat. */
  function EntryOf(op: Op, chat: string): seq<Entry> {
    match op
    case CommitTurn(c, messages, turnId) => if c == chat && messages != [] then [Turn(messages, turnId)] else []
    case SaveSummary(c, text, at) => if c == chat then [Summary(text, at)] else []
    case _ => []
  }

  function HistoryOf(ops: seq<Op>, chat: string): seq<Entry> {
    if ops == [] then [] else HistoryOf(ops[..|ops| - 1], chat) + EntryOf(ops[|ops| - 1], chat)
  }

  function AfterAll(ops: seq<Op>, logs: Logs): Logs {
    if ops == [] then logs else After(ops[|ops| - 1], AfterAll(ops[..|ops| - 1], logs))
  }

  /** One operation adds its entry to its own chat's history, and nothing to any other. */
  lemma OperationIsItsEntry(op: Op, logs: Logs, chat: string, h: seq<Entry>)
    requires At(logs, chat) == Log(h) && Legal(h)
    ensures At(After(op, logs), chat) == Log(h + EntryOf(op, chat)) && Legal(h + EntryOf(op, chat))
  {
    hide Appended;
    hide Log;
    var e := EntryOf(op, chat);
    if e == [] {
      assert h + e == h;
    } else {
      LogMore(h, e[0]);
      assert h + e == h + [e[0]];
    }
  }

  lemma LogMore(h: seq<Entry>, e: Entry)
    ensures Log(h + [e]) == Log(h) + Appended(Log(h), e)
  {
    hide Appended;
    assert (h + [e])[..|h|] == h;
  }

  /** A store that began empty holds, under each chat, the log of that chat's history: chats do not touch each other. */
  lemma {:induction false} StoreIsItsHistories(ops: seq<Op>, chat: string)
    ensures Legal(HistoryOf(ops, chat))
    ensures At(AfterAll(ops, map[]), chat) == Log(HistoryOf(ops, chat))
  {
    if ops != [] {
      hide After;
      hide EntryOf;
      hide Legal;
      hide Log;
      var n := |ops| - 1;
      StoreIsItsHistories(ops[..n], chat);
      OperationIsItsEntry(ops[n], AfterAll(ops[..n], map[]), chat, HistoryOf(ops[..n], chat));
    }
  }

  lemma {:induction false} HistoryGrows(ops: seq<Op>, chat: string, n: nat)
    requires n <= |ops|
    ensures HistoryOf(ops[..n], chat) <= HistoryOf(ops, chat)
    decreases |ops|
  {
    if n < |ops| {
      assert ops[..|ops| - 1][..n] == ops[..n];
      HistoryGrows(ops[..|ops| - 1], chat, n);
    } else {
      assert ops[..n] == ops;
    }
  }

  /** `get_revision` after any operations: the number of turns the chat was given. */
  lemma StoreCountsCommits(ops: seq<Op>, chat: string, default: Mode, estimate: seq<Projected> -> nat)
    ensures Answers(Op.GetRevision(chat), AfterAll(ops, map[]), default, estimate) == AtRevision(Turns(HistoryOf(ops, chat)))
  {
    hide Log;
    hide Revision;
    hide Turns;
    hide AfterAll;
    StoreIsItsHistories(ops, chat);
    RevisionIsTurns(HistoryOf(ops, chat));
  }

  /**
   `get_messages_since` for the revision `get_revision` gave after the first `n` operations: what the later
   turns of that chat committed, in order, whatever else was asked of the store.
  */
  lemma StoreSinceIsExact(ops: seq<Op>, n: nat, chat: string, default: Mode, estimate: seq<Projected> -> nat)
    requires n <= |ops|
    ensures var r := Answers(Op.GetRevision(chat), AfterAll(ops[..n], map[]), default, estimate);
            && r.AtRevision? && |HistoryOf(ops[..n], chat)| <= |HistoryOf(ops, chat)|
            && Answers(Op.GetMessagesSince(chat, r.revision), AfterAll(ops, map[]), default, estimate)
            == Messages(CommittedFrom(HistoryOf(ops, chat), |HistoryOf(ops[..n], chat)|))
  {
    hide Log;
    hide Since;
    hide Revision;
    var h, early := HistoryOf(ops, chat), HistoryOf(ops[..n], chat);
    HistoryGrows(ops, chat, n);
    assert h[..|early|] == early;
    StoreIsItsHistories(ops, chat);
    StoreIsItsHistories(ops[..n], chat);
    SinceIsExact(h, |early|);
  }

  // ------------------------------------------------------------------ the two agree

  /** Two rows of answers to `ops`, asked of the logs `start` on, differ exactly at the listings that miss a chat. */
  predicate DifferWhereOneIsMissed(ops: seq<Op>, a: seq<Answer>, b: seq<Answer>, start: Logs)
    requires |a| == |b| <= |ops|
  {
    forall i :: 0 <= i < |a| ==> (a[i] == b[i] <==> !MissesOne(ops[i], AfterAll(ops[..i], start)))
  }

  lemma DifferOneMore(ops: seq<Op>, a: seq<Answer>, b: seq<Answer>, start: Logs, x: Answer, y: Answer)
    requires |a| == |b| < |ops| && DifferWhereOneIsMissed(ops, a, b, start)
    requires x == y <==> !MissesOne(ops[|a|], AfterAll(ops[..|a|], start))
    ensures DifferWhereOneIsMissed(ops, a + [x], b + [y], start)
  {
    hide MissesOne;
    hide AfterAll;
  }

  /**
   Whatever is asked of them, in whatever order, the two stores keep the same logs and give the same answer to
   everything but a listing while the chat with the empty id has messages, and then a different one.
  */
  method Lockstep(ops: seq<Op>, memory: InMemChatStore, disk: JsonlChatStore) returns (fromMemory: seq<Answer>, fromDisk: seq<Answer>)
    requires disk.Valid() && disk.logs == memory.messages
    requires memory.default == disk.default && memory.estimate == disk.estimate
    requires forall i :: 0 <= i < |ops| ==> ops[i].ListChats? || Plain(ops[i].chat)
    modifies memory, disk
    ensures |fromMemory| == |fromDisk| == |ops| && DifferWhereOneIsMissed(ops, fromMemory, fromDisk, old(disk.logs))
    ensures disk.Valid() && disk.logs == memory.messages == AfterAll(ops, old(disk.logs))
  {
    ghost var start := disk.logs;
    fromMemory, fromDisk := [], [];
    for i := 0 to |ops|
      invariant disk.Valid() && disk.logs == memory.messages == AfterAll(ops[..i], start)
      invariant |fromMemory| == |fromDisk| == i && DifferWhereOneIsMissed(ops, fromMemory, fromDisk, start)
    {
      hide JsonlChatStore.Valid;
      hide AfterAll;
      hide After;
      hide MissesOne;
      hide DifferWhereOneIsMissed;
      AfterOneMore(ops, i, start);
      var a, b := Both(ops[i], memory, disk);
      DifferOneMore(ops, fromMemory, fromDisk, start, a, b);
      fromMemory, fromDisk := fromMemory + [a], fromDisk + [b];
    }
    assert ops[..|ops|] == ops;
  }

  method Both(op: Op, memory: InMemChatStore, disk: JsonlChatStore) returns (a: Answer, b: Answer)
    requires disk.Valid() && disk.logs == memory.messages && (op.ListChats? || Plain(op.chat))
    requires memory.default == disk.default && memory.estimate == disk.estimate
    modifies memory, disk
    ensures a == b <==> !MissesOne(op, old(disk.logs))
    ensures disk.Valid() && disk.logs == memory.messages == After(op, old(disk.logs))
  {
    hide JsonlChatStore.Valid;
    hide Answers;
    hide DiskAnswers;
    hide After;
    hide MissesOne;
    AnswersDifferIff(op, disk.logs, disk.default, disk.estimate);
    a := memory.Perform(op);
    b := disk.Perform(op);
  }

  lemma AfterOneMore(ops: seq<Op>, i: nat, logs: Logs)
    requires i < |ops|
    ensures AfterAll(ops[..i + 1], logs) == After(ops[i], AfterAll(ops[..i], logs))
  {
    assert ops[..i + 1][..i] == ops[..i];
  }
}
