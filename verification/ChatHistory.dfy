/** What a chat's history of commits and summaries makes of its log: revisions, and what was committed since one. */
module ChatHistory {
  import opened Wrappers
  import opened ChatLog

  function Max(a: int, b: int): int { if a < b then b else a }

  function RevisionOf(m: Message): int { if m.revision.Some? then m.revision.value else 0 }

  /** The highest revision any message carries. */
  function Revision(ms: seq<Message>): (r: int)
    ensures 0 <= r && forall i :: 0 <= i < |ms| ==> RevisionOf(ms[i]) <= r
  {
    if ms == [] then 0 else
    var last := ms[|ms| - 1];
    Max(Revision(ms[..|ms| - 1]), RevisionOf(last))
  }

  /** `_chat_revision`. */
  method ChatRevision(ms: seq<Message>) returns (revision: int)
    ensures revision == Revision(ms)
  {
    revision := 0;
    for i := 0 to |ms|
      invariant revision == Revision(ms[..i])
    {
      assert ms[..i + 1][..i] == ms[..i];
      if ms[i].revision.Some? { revision := Max(revision, ms[i].revision.value); }
    }
    assert ms[..|ms|] == ms;
  }

  function Stamp(m: Message, turnId: string, revision: int): Message { m.(turnId := Some(turnId), revision := Some(revision)) }

  function Stamped(ms: seq<Message>, turnId: string, revision: int): seq<Message> {
    seq(|ms|, i requires 0 <= i < |ms| => Stamp(ms[i], turnId, revision))
  }

  /** `_commit_messages`. */
  method CommitMessages(ms: seq<Message>, turnId: string, revision: int) returns (committed: seq<Message>)
    ensures committed == Stamped(ms, turnId, revision)
  {
    committed := [];
    for i := 0 to |ms|
      invariant committed == Stamped(ms[..i], turnId, revision)
    {
      committed := committed + [Stamp(ms[i], turnId, revision)];
    }
    assert ms[..|ms|] == ms;
  }

  /** The messages newer than a revision. */
  function Since(ms: seq<Message>, revision: int): seq<Message> {
    if ms == [] then [] else
    var last := ms[|ms| - 1];
    Since(ms[..|ms| - 1], revision) + if RevisionOf(last) > revision then [last] else []
  }

  function SummaryMessage(text: string, at: int): Message {
    Message("system", Text("Chat summary:\n" + text), [], "", at, None, true, None, "")
  }

  lemma {:induction false} SinceConcat(a: seq<Message>, b: seq<Message>, revision: int)
    ensures Since(a + b, revision) == Since(a, revision) + Since(b, revision)
    decreases |b|
  {
    if b == [] {
      assert a + b == a;
    } else {
      assert (a + b)[..|a + b| - 1] == a + b[..|b| - 1];
      SinceConcat(a, b[..|b| - 1], revision);
    }
  }

  lemma {:induction false} RevisionConcat(a: seq<Message>, b: seq<Message>)
    ensures Revision(a + b) == Max(Revision(a), Revision(b))
    decreases |b|
  {
    if b == [] {
      assert a + b == a;
    } else {
      assert (a + b)[..|a + b| - 1] == a + b[..|b| - 1];
      RevisionConcat(a, b[..|b| - 1]);
    }
  }

  lemma {:induction false} RevisionOfStamped(ms: seq<Message>, turnId: string, revision: int)
    requires ms != [] && revision >= 0
    ensures Revision(Stamped(ms, turnId, revision)) == revision
  {
    var n := |ms| - 1;
    assert Stamped(ms, turnId, revision)[..n] == Stamped(ms[..n], turnId, revision);
    if n > 0 { RevisionOfStamped(ms[..n], turnId, revision); }
  }

  lemma {:induction false} AllOrNothingSince(ms: seq<Message>, revision: int)
    ensures (forall i :: 0 <= i < |ms| ==> RevisionOf(ms[i]) > revision) ==> Since(ms, revision) == ms
    ensures (forall i :: 0 <= i < |ms| ==> RevisionOf(ms[i]) <= revision) ==> Since(ms, revision) == []
  {
    if ms != [] { AllOrNothingSince(ms[..|ms| - 1], revision); }
  }

  // ------------------------------------------------------------------ histories

  datatype Entry = Turn(messages: seq<Message>, turnId: string) | Summary(text: string, at: int)

  /** `commit_turn` refuses an empty turn, so no history holds one. */
  predicate Legal(h: seq<Entry>) { forall i :: 0 <= i < |h| && h[i].Turn? ==> h[i].messages != [] }

  function Turns(h: seq<Entry>): nat {
    if h == [] then 0 else Turns(h[..|h| - 1]) + if h[|h| - 1].Turn? then 1 else 0
  }

  /** What one entry appends behind `log`. */
  function Appended(log: seq<Message>, e: Entry): seq<Message> {
    match e
    case Turn(messages, turnId) => Stamped(messages, turnId, Revision(log) + 1)
    case Summary(text, at) => [SummaryMessage(text, at)]
  }

  /** The log a history leaves in a chat that was empty. */
  function Log(h: seq<Entry>): seq<Message> {
    if h == [] then [] else var log := Log(h[..|h| - 1]); log + Appended(log, h[|h| - 1])
  }

  /** Exactly what the turns of `h`, from its `n`th entry on, committed. */
  function CommittedFrom(h: seq<Entry>, n: nat): seq<Message>
    requires n <= |h|
    decreases |h|
  {
    if n == |h| then [] else
    var init, last := h[..|h| - 1], h[|h| - 1];
    CommittedFrom(init, n) + if last.Turn? then Appended(Log(init), last) else []
  }

  /** The revision is the number of commits, whatever summaries stand between them. */
  lemma {:induction false} RevisionIsTurns(h: seq<Entry>)
    requires Legal(h)
    ensures Revision(Log(h)) == Turns(h)
  {
    if h != [] {
      var init, last := h[..|h| - 1], h[|h| - 1];
      RevisionIsTurns(init);
      RevisionConcat(Log(init), Appended(Log(init), last));
      match last
      case Turn(messages, turnId) => RevisionOfStamped(messages, turnId, Revision(Log(init)) + 1);
      case Summary(text, at) => assert [SummaryMessage(text, at)][..0] == [];
    }
  }

  lemma AppendedSince(log: seq<Message>, e: Entry, revision: int)
    requires 0 <= revision <= Revision(log)
    ensures Since(Appended(log, e), revision) == if e.Turn? then Appended(log, e) else []
  {
    AllOrNothingSince(Appended(log, e), revision);
  }

  /**
   For the revision observed at any moment, `get_messages_since` gives exactly what was committed after that
   moment, in order and without the summaries.
  */
  lemma {:induction false} SinceIsExact(h: seq<Entry>, n: nat)
    requires Legal(h) && n <= |h|
    ensures Since(Log(h), Revision(Log(h[..n]))) == CommittedFrom(h, n)
    decreases |h|
  {
    var revision := Revision(Log(h[..n]));
    if n == |h| {
      assert h[..n] == h;
      AllOrNothingSince(Log(h), revision);
    } else {
      var init, last := h[..|h| - 1], h[|h| - 1];
      assert init[..n] == h[..n];
      SinceIsExact(init, n);
      hide Since;
      hide Revision;
      hide Appended;
      SinceConcat(Log(init), Appended(Log(init), last), revision);
      RevisionOnlyGrows(init, n);
      AppendedSince(Log(init), last, revision);
    }
  }

  lemma {:induction false} RevisionOnlyGrows(h: seq<Entry>, n: nat)
    requires n <= |h|
    ensures Revision(Log(h[..n])) <= Revision(Log(h))
    decreases |h|
  {
    if n == |h| {
      assert h[..n] == h;
    } else {
      var init := h[..|h| - 1];
      assert init[..n] == h[..n];
      RevisionOnlyGrows(init, n);
      RevisionConcat(Log(init), Appended(Log(init), h[|h| - 1]));
    }
  }

  /** All of the new messages are one above the revision before: from there on, or none at all. */
  lemma SinceAmid(log: seq<Message>, all: seq<Message>, before: int, up: nat)
    requires up <= 1 && (forall i :: 0 <= i < |all| ==> RevisionOf(all[i]) == before + 1) && forall i :: 0 <= i < |log| ==> RevisionOf(log[i]) <= before
    ensures Since(log + all, before + up) == if up == 0 then all else []
  {
    SinceConcat(log, all, before + up);
    AllOrNothingSince(log, before + up);
    AllOrNothingSince(all, before + up);
    hide Since;
    hide RevisionOf;
  }

  lemma SeenAndSince(log: seq<Message>, all: seq<Message>, k: nat, since: seq<Message>)
    requires k <= |all| && since == if k == 0 then all else []
    ensures log + all[..k] + since == log + all <==> k == 0 || k == |all|
  {
    if k == 0 {
      assert log + all[..k] + since == log + all;
    } else {
      assert log + all[..k] + since == log + all[..k] && |log + all[..k]| == |log| + k && |log + all| == |log| + |all|;
      if k == |all| { assert all[..k] == all; }
    }
  }

  /** The revision goes up with the first message of a turn, and no further. */
  lemma RevisionAmid(log: seq<Message>, turn: Entry, k: nat)
    requires turn.Turn? && k <= |Appended(log, turn)|
    ensures var all := Appended(log, turn);
            && Revision(log + all[..k]) == Revision(log) + (if k == 0 then 0 else 1)
            && (forall i :: 0 <= i < |all| ==> RevisionOf(all[i]) == Revision(log) + 1)
            && forall i :: 0 <= i < |log| ==> RevisionOf(log[i]) <= Revision(log)
  {
    hide Revision;
    var next := Revision(log) + 1;
    if k == 0 {
      assert log + Appended(log, turn)[..k] == log;
    } else {
      RevisionConcat(log, Appended(log, turn)[..k]);
      RevisionOfStamped(turn.messages[..k], turn.turnId, next);
      assert Appended(log, turn)[..k] == Stamped(turn.messages[..k], turn.turnId, next);
    }
  }

  /**
   The file is read without the lock it is written under, so a read may find `k` messages of a commit in it. What the
   reader then asks for by the revision it saw completes what it has, exactly when it found none of the turn or all.
  */
  lemma ReadAmidCommitIff(log: seq<Message>, turn: Entry, k: nat)
    requires turn.Turn? && k <= |Appended(log, turn)|
    ensures var all := Appended(log, turn); var seen := log + all[..k];
            && Since(log + all, Revision(seen)) == (if k == 0 then all else [])
            && (seen + Since(log + all, Revision(seen)) == log + all <==> k == 0 || k == |all|)
  {
    hide Appended;
    hide Revision;
    hide Since;
    hide RevisionOf;
    var all := Appended(log, turn);
    RevisionAmid(log, turn, k);
    SinceAmid(log, all, Revision(log), if k == 0 then 0 else 1);
    SeenAndSince(log, all, k, Since(log + all, Revision(log + all[..k])));
  }

  lemma NoRevisionIsNegative(log: seq<Message>, e: Entry)
    ensures forall i :: 0 <= i < |Appended(log, e)| ==> RevisionOf(Appended(log, e)[i]) >= 0
  {
    hide Revision;
  }

  /** A negative revision was never observed: it gives the summaries as well. */
  lemma {:induction false} SinceANegativeIsEverything(h: seq<Entry>, revision: int)
    requires Legal(h) && revision < 0
    ensures Since(Log(h), revision) == Log(h)
  {
    if h != [] {
      var init, last := h[..|h| - 1], h[|h| - 1];
      SinceANegativeIsEverything(init, revision);
      assert Log(h) == Log(init) + Appended(Log(init), last);
      NoRevisionIsNegative(Log(init), last);
      hide Log;
      hide Appended;
      hide Since;
      hide RevisionOf;
      SinceConcat(Log(init), Appended(Log(init), last), revision);
      AllOrNothingSince(Appended(Log(init), last), revision);
    }
  }
}
