/** A list of tasks as the source keeps it: task objects with lists that are edited in place. */
module TaskList {
  import opened Wrappers
  import opened Strings
  import opened TaskGraph
  import opened TaskEdges

  class Task {
    const id: string
    var subject: string
    var description: string
    var status: string
    var blockedBy: seq<string>
    var blocks: seq<string>

    constructor (id: string, subject: string, description: string)
      ensures this.id == id && Value() == Info(subject, description, "pending", [], [])
    {
      this.id, this.subject, this.description := id, subject, description;
      status, blockedBy, blocks := "pending", [], [];
    }

    function Value(): Info
      reads this
    {
      Info(subject, description, status, blockedBy, blocks)
    }
  }

  /** A requested task; `NoTask` is an item that is no object. */
  datatype Request = NoTask | ATask(subject: string, description: string)

  datatype CreateError = NothingToCreate | NoSubject(index: nat)

  predicate Creatable(r: Request) { r.ATask? && Strip(r.subject) != "" }

  /** It is an object, and its subject says something. */
  ghost predicate HasSubject(r: Request) { r.ATask? && exists i :: 0 <= i < |r.subject| && r.subject[i] !in WHITESPACE }

  lemma CreatableIff(r: Request)
    ensures Creatable(r) <==> HasSubject(r)
  {
    if r.ATask? { StripsToNothingIff(r.subject); }
  }

  function NewInfo(r: Request): Info
    requires Creatable(r)
  {
    Info(Strip(r.subject), Strip(r.description), "pending", [], [])
  }

  /** The ids `next_id` hands out from `first` on. */
  function IdsFrom(first: nat, n: nat): seq<string> { seq(n, i requires 0 <= i < n => Str(first + i)) }

  /** The book with new tasks under the ids from `first` on. */
  function Created(book: Book, first: nat, requests: seq<Request>): Book
    requires forall i :: 0 <= i < |requests| ==> Creatable(requests[i])
  {
    if requests == [] then book else
    var n := |requests| - 1;
    Created(book, first, requests[..n])[Str(first + n) := NewInfo(requests[n])]
  }

  lemma DropNone(book: Book, x: string)
    ensures DropIn(book, x, {}) == book
  {
  }

  lemma DropOneMore(book: Book, x: string, done: set<string>, k: string)
    requires k in book && k !in done
    ensures var b := DropIn(book, x, done);
            DropIn(book, x, done + {k}) == b[k := b[k].(blockedBy := Drop(b[k].blockedBy, x), blocks := Drop(b[k].blocks, x))]
  {
  }

  class TaskList {
    var tasks: map<string, Task>
    var version: int
    var emittedVersion: int
    var nextId: nat

    /** Every id ever handed out. */
    ghost var issued: seq<string>

    /** How many changes there have been, and how many of them the last payload that reached the sink was behind; -1 for none. */
    ghost var changes: nat
    ghost var shown: int

    constructor ()
      ensures Valid() && tasks == map[] && View() == map[] && issued == [] && changes == 0 && shown == -1
    {
      tasks, version, emittedVersion, nextId := map[], 0, -1, 1;
      issued, changes, shown := [], 0, -1;
    }

    /** Each id has its own task object. */
    predicate Shape()
      reads this, tasks.Values
    {
      && (forall k :: k in tasks ==> tasks[k].id == k)
      && forall j, k :: j in tasks && k in tasks && j != k ==> tasks[j] != tasks[k]
    }

    function View(): (book: Book)
      reads this, tasks.Values
      ensures book.Keys == tasks.Keys
    {
      map k | k in tasks :: tasks[k].Value()
    }

    ghost predicate Valid()
      reads this, tasks.Values
    {
      && Shape() && Symmetric(View()) && Closed(View())
      && nextId >= 1 && issued == IdsFrom(1, nextId - 1) && (forall k :: k in tasks ==> k in issued)
      && 0 <= version - emittedVersion <= changes - shown
    }

    function NeedsEmit(): bool
      reads this
    {
      version != emittedVersion
    }

    /** What `needs_emit` is for: it holds exactly when something changed since the last payload, or none was emitted. */
    ghost predicate Tracks()
      reads this
    {
      NeedsEmit() <==> changes != shown
    }

    // ---------------------------------------------------------------- edits in place

    /** One task's lists are replaced. */
    method SetLists(id: string, blockedBy: seq<string>, blocks: seq<string>)
      requires Shape() && id in tasks
      modifies tasks.Values
      ensures Shape() && View() == old(View())[id := old(View())[id].(blockedBy := blockedBy, blocks := blocks)]
    {
      tasks[id].blockedBy, tasks[id].blocks := blockedBy, blocks;
    }

    /** One task's texts are replaced. */
    method SetTexts(id: string, subject: string, description: string, status: string)
      requires Shape() && id in tasks
      modifies tasks.Values
      ensures Shape()
      ensures View() == old(View())[id := old(View())[id].(subject := subject, description := description, status := status)]
    {
      tasks[id].subject, tasks[id].description, tasks[id].status := subject, description, status;
    }

    lemma ViewAt(id: string)
      requires id in tasks
      ensures View()[id] == tasks[id].Value()
    {
    }

    /** `x` taken out of both lists of every task. */
    method DropEdges(x: string)
      requires Shape()
      modifies tasks.Values
      ensures Shape() && View() == DropIn(old(View()), x, tasks.Keys)
    {
      hide View;
      hide Shape;
      hide Drop;
      ghost var book := View();
      var todo, done := tasks.Keys, {};
      DropNone(book, x);
      while todo != {}
        invariant todo !! done && todo + done == tasks.Keys && Shape()
        invariant View() == DropIn(book, x, done)
        decreases todo
      {
        var k :| k in todo;
        ViewAt(k);
        DropOneMore(book, x, done, k);
        SetLists(k, Drop(tasks[k].blockedBy, x), Drop(tasks[k].blocks, x));
        todo, done := todo - {k}, done + {k};
      }
    }

    method BlockAll(ids: seq<string>, x: string)
      requires Shape() && forall i :: 0 <= i < |ids| ==> ids[i] in tasks
      modifies tasks.Values
      ensures Shape() && View() == Block(old(View()), ids, x)
    {
      hide View;
      hide Shape;
      ghost var book := View();
      for i := 0 to |ids|
        invariant Shape() && View() == Block(book, ids[..i], x)
      {
        assert ids[..i + 1][..i] == ids[..i];
        ViewAt(ids[i]);
        SetLists(ids[i], tasks[ids[i]].blockedBy + [x], tasks[ids[i]].blocks);
      }
      assert ids[..|ids|] == ids;
    }

    method BlockAllBy(ids: seq<string>, x: string)
      requires Shape() && forall i :: 0 <= i < |ids| ==> ids[i] in tasks
      modifies tasks.Values
      ensures Shape() && View() == BlockBy(old(View()), ids, x)
    {
      hide View;
      hide Shape;
      ghost var book := View();
      for i := 0 to |ids|
        invariant Shape() && View() == BlockBy(book, ids[..i], x)
      {
        assert ids[..i + 1][..i] == ids[..i];
        ViewAt(ids[i]);
        SetLists(ids[i], tasks[ids[i]].blockedBy, tasks[ids[i]].blocks + [x]);
      }
      assert ids[..|ids|] == ids;
    }

    method SetStatus(id: string, status: Maybe)
      requires Shape() && id in tasks
      modifies tasks.Values
      ensures Shape() && View() == WithStatus(old(View()), id, status)
    {
      hide View;
      hide Shape;
      hide DropIn;
      if status.Unset? { return; }
      ViewAt(id);
      SetTexts(id, tasks[id].subject, tasks[id].description, status.text);
      if status.text == "completed" {
        DropEdges(id);
        SetLists(id, [], []);
      }
    }

    method Rename(id: string, subject: Maybe, description: Maybe)
      requires Shape() && id in tasks
      modifies tasks.Values
      ensures Shape() && View() == Renamed(old(View()), id, subject, description)
    {
      hide View;
      hide Shape;
      ViewAt(id);
      var task := tasks[id];
      SetTexts(id, if subject.Set? then subject.text else task.subject,
               if description.Set? then description.text else task.description, task.status);
    }

    method AddEdges(id: string, addBlocks: seq<string>, addBlockedBy: seq<string>)
      requires Shape() && id in tasks
      requires forall i :: 0 <= i < |addBlocks| ==> addBlocks[i] in tasks
      requires forall i :: 0 <= i < |addBlockedBy| ==> addBlockedBy[i] in tasks
      modifies tasks.Values
      ensures Shape() && View() == AddBlockedBy(AddBlocks(old(View()), id, addBlocks), id, addBlockedBy)
    {
      hide View;
      hide Shape;
      ViewAt(id);
      SetLists(id, tasks[id].blockedBy, tasks[id].blocks + addBlocks);
      BlockAll(addBlocks, id);
      ViewAt(id);
      SetLists(id, tasks[id].blockedBy + addBlockedBy, tasks[id].blocks);
      BlockAllBy(addBlockedBy, id);
    }

    method Delete(id: string)
      requires Shape() && id in tasks
      modifies this`tasks
      ensures Shape() && View() == old(View()) - {id} && tasks == old(tasks) - {id}
    {
      tasks := tasks - {id};
    }

    /** `_apply_task_update`: the dependency ids are checked before anything is touched. */
    method ApplyUpdate(u: Update) returns (outcome: Outcome)
      requires Shape()
      modifies this`tasks, tasks.Values
      ensures Shape() && (View(), outcome) == Apply(old(View()), u)
      ensures outcome.Updated? ==> u.taskId in old(View()) && u.taskId in View() && TextsAre(old(View()), View(), u)
      ensures outcome.Updated? ==>
                EdgesAre(old(View()), View(), u.taskId, u.status == Set("completed"), IdsOf(u.addBlocks), IdsOf(u.addBlockedBy))
      ensures tasks.Keys <= old(tasks.Keys) && tasks.Values <= old(tasks.Values)
    {
      hide View;
      hide Shape;
      hide DropIn;
      hide AddBlocks;
      hide AddBlockedBy;
      hide WithStatus;
      hide Renamed;
      hide EdgesAre;
      hide TextsAre;
      hide IdsOf;
      ghost var book := View();
      if u.taskId !in tasks { return NotFound(u.taskId); }
      if u.status == Set("deleted") {
        DropEdges(u.taskId);
        Delete(u.taskId);
        return Deleted(u.taskId);
      }
      var blocked := CheckAll(View(), u.addBlocks);
      if blocked.Raises? { return Raised; }
      if blocked.Missing? { return BlockedNotFound(blocked.shown); }
      var blockers := CheckAll(View(), u.addBlockedBy);
      if blockers.Raises? { return Raised; }
      if blockers.Missing? { return BlockerNotFound(blockers.shown); }
      AcceptedLists(book, u.addBlocks);
      AcceptedLists(book, u.addBlockedBy);
      SetStatus(u.taskId, u.status);
      Rename(u.taskId, u.subject, u.description);
      AddEdges(u.taskId, IdsOf(u.addBlocks), IdsOf(u.addBlockedBy));
      ViewAt(u.taskId);
      outcome := Updated(u.taskId, tasks[u.taskId].status);
      UpdateMeans(book, u);
    }
  
    // ---------------------------------------------------------------- the tools

    /** A new task object under a new id. */
    method Store(id: string, request: Request)
      requires Shape() && Creatable(request) && id !in tasks
      modifies this`tasks
      ensures Shape() && View() == old(View())[id := NewInfo(request)] && fresh(tasks.Values - old(tasks.Values))
    {
      var task := new Task(id, Strip(request.subject), Strip(request.description));
      tasks := tasks[id := task];
    }

    method NextId() returns (id: string)
      requires Valid()
      modifies this`nextId, this`issued
      ensures Valid() && View() == old(View()) && nextId == old(nextId) + 1
      ensures id == Str(old(nextId)) && id !in old(issued) && issued == old(issued) + [id]
    {
      hide Symmetric;
      hide Closed;
      hide IdsFrom;
      hide Str;
      ghost var book := View();
      NewIdIsNew(nextId);
      IdsMore(nextId);
      id := Str(nextId);
      nextId := nextId + 1;
      issued := issued + [id];
      assert View() == book;
    }

    /** The next id, and the new task stored under it. */
    method CreateOne(request: Request) returns (id: string)
      requires Valid() && Creatable(request)
      modifies this`tasks, this`nextId, this`issued
      ensures Valid() && fresh(tasks.Values - old(tasks.Values)) && nextId == old(nextId) + 1
      ensures id == Str(old(nextId)) && id !in old(issued) && issued == old(issued) + [id]
      ensures View() == old(View())[id := NewInfo(request)]
    {
      hide Symmetric;
      hide Closed;
      hide View;
      hide Shape;
      ghost var book := View();
      id := NextId();
      NewTaskKeeps(book, id, NewInfo(request));
      Store(id, request);
    }

    /** `bump`, at the end of a call that changed something. */
    method Bump()
      requires Valid() && version - emittedVersion < changes - shown
      modifies this`version
      ensures Valid() && View() == old(View()) && version == old(version) + 1
    {
      hide Symmetric;
      hide Closed;
      ghost var book := View();
      version := version + 1;
      assert View() == book;
    }

    ghost method NoteChange()
      requires Valid()
      modifies this`changes
      ensures Valid() && View() == old(View()) && changes == old(changes) + 1
    {
      hide Symmetric;
      hide Closed;
      ghost var book := View();
      changes := changes + 1;
      assert View() == book;
    }

    /** An emission begins with the payload of the moment; then the event sink is awaited, and other calls may run. */
    method ToPayload() returns (payload: map<string, Line>, ghost at: nat)
      requires Valid()
      ensures payload == Payload(View()) && at == changes
    {
      payload := Payload(View());
      at := changes;
    }

    /** It ends with `mark_emitted`, which marks the version as it is by then. */
    method MarkEmitted(ghost at: nat)
      requires Valid() && at <= changes
      modifies this`emittedVersion, this`shown
      ensures Valid() && View() == old(View()) && shown == at
      ensures !NeedsEmit() && (Tracks() <==> at == changes)
    {
      hide Symmetric;
      hide Closed;
      ghost var book := View();
      emittedVersion := version;
      shown := at;
      assert View() == book;
    }

    /** `task_create`: all of the requests, or none of them; the ids are new for good. */
    method TaskCreate(requests: seq<Request>) returns (r: Result<seq<string>, CreateError>)
      requires Valid()
      modifies this
      ensures Valid() && fresh(tasks.Values - old(tasks.Values))
      ensures r == if requests == [] then Err(NothingToCreate)
                   else if BadRequest(requests) < |requests| then Err(NoSubject(BadRequest(requests)))
                   else Ok(IdsFrom(old(nextId), |requests|))
      ensures r.Ok? <==> requests != [] && forall i :: 0 <= i < |requests| ==> HasSubject(requests[i])
      ensures r.Err? && r.error.NoSubject? ==> var k := r.error.index;
                k < |requests| && !HasSubject(requests[k]) && forall i :: 0 <= i < k ==> HasSubject(requests[i])
      ensures emittedVersion == old(emittedVersion) && shown == old(shown)
      ensures r.Err? ==> View() == old(View()) && version == old(version) && issued == old(issued) && changes == old(changes)
      ensures r.Ok? ==> View() == Created(old(View()), old(nextId), requests)
      ensures r.Ok? ==> version == old(version) + 1 && changes == old(changes) + 1 && NeedsEmit() && Tracks()
      ensures r.Ok? ==> issued == old(issued) + r.value && forall id :: id in r.value ==> id !in old(issued)
    {
      hide Symmetric;
      hide Closed;
      hide View;
      hide Shape;
      hide Str;
      hide Created;
      hide IdsFrom;
      hide HasSubject;
      hide Creatable;
      FirstBlank(requests);
      NoneCreated(View(), nextId);
      if requests == [] { return Err(NothingToCreate); }
      var bad := BadRequest(requests);
      if bad < |requests| { return Err(NoSubject(bad)); }
      ghost var book, first, before := View(), nextId, issued;
      var ids := [];
      assert requests[..0] == [] && before + ids == before;
      for i := 0 to |requests|
        invariant Valid() && fresh(tasks.Values - old(tasks.Values)) && nextId == first + i
        invariant View() == Created(book, first, requests[..i]) && ids == IdsFrom(first, i)
        invariant issued == before + ids && forall id :: id in ids ==> id !in before
        invariant version == old(version) && changes == old(changes)
        invariant emittedVersion == old(emittedVersion) && shown == old(shown)
      {
        CreatedMore(book, first, requests, i);
        IdsFromMore(first, i);
        var id := CreateOne(requests[i]);
        ids := ids + [id];
      }
      assert requests[..|requests|] == requests;
      NoteChange();
      Bump();
      r := Ok(ids);
    }

    lemma Margins()
      requires Valid()
      ensures 0 <= version - emittedVersion <= changes - shown
    {
    }

    /**
     `task_update`: each update in turn, past those that are rejected; at the end one bump if any was applied, which
     an item that raises skips.
    */
    method TaskUpdate(items: seq<Item>) returns (outcomes: seq<Outcome>)
      requires Valid()
      modifies this, tasks.Values
      ensures Valid() && (View(), outcomes) == ApplyAll(old(View()), items) && tasks.Values <= old(tasks.Values)
      ensures issued == old(issued) && nextId == old(nextId)
      ensures version == old(version) + if AnyApplied(outcomes) && !Halted(outcomes) then 1 else 0
      ensures emittedVersion == old(emittedVersion) && shown == old(shown) && changes == old(changes) + Successes(outcomes)
      ensures Tracks() <==> if !AnyApplied(outcomes) then old(Tracks()) else !Halted(outcomes) || old(NeedsEmit())
    {
      hide Valid;
      hide View;
      hide Successes;
      hide ApplyAll;
      hide AnyApplied;
      Margins();
      var changed: bool;
      outcomes, changed := ApplyEach(items);
      SomeSuccessIff(outcomes);
      if changed && !Halted(outcomes) { Bump(); }
    }

    /** The loop of `task_update`, left early when an item raises. */
    method ApplyEach(items: seq<Item>) returns (outcomes: seq<Outcome>, changed: bool)
      requires Valid()
      modifies this`tasks, this`changes, tasks.Values
      ensures Valid() && (View(), outcomes) == ApplyAll(old(View()), items) && tasks.Values <= old(tasks.Values)
      ensures changes == old(changes) + Successes(outcomes) && (changed <==> AnyApplied(outcomes))
    {
      hide Valid;
      hide View;
      hide Halted;
      hide Successes;
      hide ApplyAll;
      hide ApplyItem;
      hide AnyApplied;
      ghost var book := View();
      outcomes, changed := [], false;
      NoOutcomes();
      NoItems(book, items);
      for i := 0 to |items|
        invariant Valid() && (View(), outcomes) == ApplyAll(book, items[..i]) && tasks.Values <= old(tasks.Values)
        invariant changes == old(changes) + Successes(outcomes) && (changed <==> AnyApplied(outcomes)) && !Halted(outcomes)
      {
        var outcome := UpdateOne(items[i]);
        AnyAppliedMore(outcomes, outcome);
        OneMoreOutcome(outcomes, outcome);
        ApplyOneMore(book, items, i);
        outcomes := outcomes + [outcome];
        changed := changed || Applied(outcome);
        if outcome.Raised? {
          AllIsHalted(book, items, i + 1);
          return;
        }
      }
      assert items[..|items|] == items;
    }

    method UpdateOne(item: Item) returns (outcome: Outcome)
      requires Valid()
      modifies this`tasks, this`changes, tasks.Values
      ensures Valid() && (View(), outcome) == ApplyItem(old(View()), item) && tasks.Values <= old(tasks.Values)
      ensures changes == old(changes) + if Applied(outcome) then 1 else 0
    {
      hide Symmetric;
      hide Closed;
      hide View;
      hide Shape;
      hide Apply;
      hide IdsOf;
      hide EdgesAre;
      hide TextsAre;
      hide IdsFrom;
      if item.NoObject? { return NotAnObject; }
      ApplyKeeps(View(), item.update);
      outcome := ApplyUpdate(item.update);
      if Applied(outcome) { NoteChange(); }
    }
  }

  /** What a payload shows of a task. */
  datatype Line = Line(subject: string, status: string, blockedBy: seq<string>, blocks: seq<string>)

  function Payload(book: Book): map<string, Line> {
    map k | k in book :: Line(book[k].subject, book[k].status, book[k].blockedBy, book[k].blocks)
  }

  function Successes(outcomes: seq<Outcome>): nat {
    if outcomes == [] then 0 else Successes(outcomes[..|outcomes| - 1]) + if Applied(outcomes[|outcomes| - 1]) then 1 else 0
  }

  lemma NoItems(book: Book, items: seq<Item>)
    ensures ApplyAll(book, items[..0]) == (book, [])
  {
  }

  lemma NoOutcomes()
    ensures Successes([]) == 0 && !Halted([]) && !AnyApplied([])
  {
  }

  lemma OneMoreOutcome(outcomes: seq<Outcome>, o: Outcome)
    ensures Successes(outcomes + [o]) == Successes(outcomes) + if Applied(o) then 1 else 0
    ensures Halted(outcomes + [o]) <==> o.Raised?
  {
    assert (outcomes + [o])[..|outcomes|] == outcomes;
  }

  lemma ApplyOneMore(book: Book, items: seq<Item>, i: nat)
    requires i < |items| && !Halted(ApplyAll(book, items[..i]).1)
    ensures var (b, outcomes), (c, o) := ApplyAll(book, items[..i]), ApplyItem(ApplyAll(book, items[..i]).0, items[i]);
            ApplyAll(book, items[..i + 1]) == (c, outcomes + [o])
  {
    hide ApplyItem;
    hide Halted;
    assert items[..i + 1][..i] == items[..i];
  }

  lemma {:induction false} SomeSuccessIff(outcomes: seq<Outcome>)
    ensures Successes(outcomes) > 0 <==> AnyApplied(outcomes)
  {
    if outcomes != [] {
      var n := |outcomes| - 1;
      SomeSuccessIff(outcomes[..n]);
      AnyAppliedMore(outcomes[..n], outcomes[n]);
      assert outcomes[..n] + [outcomes[n]] == outcomes;
    }
  }

  lemma {:induction false} AllIsHalted(book: Book, items: seq<Item>, i: nat)
    requires i <= |items| && Halted(ApplyAll(book, items[..i]).1)
    ensures ApplyAll(book, items) == ApplyAll(book, items[..i])
    decreases |items|
  {
    if i == |items| {
      assert items[..i] == items;
    } else {
      assert items[..|items| - 1][..i] == items[..i];
      AllIsHalted(book, items[..|items| - 1], i);
    }
  }

  // ------------------------------------------------------------------ whole runs

  /** A call of a tool, or an emission, if one is due, with a call made while the event sink is awaited. */
  datatype Call = Create(requests: seq<Request>) | Change(items: seq<Item>) | Emission(meanwhile: seq<Item>)

  /** Whatever the book, no look-up for the item raises. */
  predicate Plain(item: Item) { item.An? ==> forall i :: 0 <= i < |AllRefs(item.update)| ==> !AllRefs(item.update)[i].Unhashable? }

  predicate AllPlain(items: seq<Item>) { forall i :: 0 <= i < |items| ==> Plain(items[i]) }

  /** No item of the call can raise, and none comes while the sink is awaited. */
  predicate Sound(call: Call) {
    match call case Create(_) => true case Change(items) => AllPlain(items) case Emission(meanwhile) => meanwhile == []
  }

  /** Over any run of such calls, `needs_emit` holds exactly when something is yet to be shown. */
  method Run(tl: TaskList, calls: seq<Call>)
    requires tl.Valid() && tl.Tracks()
    modifies tl, tl.tasks.Values
    ensures tl.Valid() && fresh(tl.tasks.Values - old(tl.tasks.Values))
    ensures (forall i :: 0 <= i < |calls| ==> Sound(calls[i])) ==> tl.Tracks()
  {
    hide TaskList.Valid;
    hide TaskList.View;
    hide TaskList.Shape;
    hide AllPlain;
    hide Halted;
    ghost var sound := true;
    for i := 0 to |calls|
      invariant tl.Valid() && fresh(tl.tasks.Values - old(tl.tasks.Values)) && (sound ==> tl.Tracks())
      invariant (forall j :: 0 <= j < i ==> Sound(calls[j])) ==> sound
    {
      ghost var book := tl.View();
      match calls[i] {
        case Create(requests) =>
          var _ := tl.TaskCreate(requests);
        case Change(items) =>
          if AllPlain(items) { NeverHalts(book, items); }
          var _ := tl.TaskUpdate(items);
        case Emission(meanwhile) =>
          NothingApplied(book);
          if tl.NeedsEmit() { var _ := EmitAround(tl, meanwhile); }
      }
      sound := sound && Sound(calls[i]);
    }
  }

  lemma NothingApplied(book: Book)
    ensures ApplyAll(book, []).1 == [] && !AnyApplied([])
  {
  }

  lemma {:induction false} NeverHalts(book: Book, items: seq<Item>)
    requires AllPlain(items)
    ensures !Halted(ApplyAll(book, items).1)
  {
    if items != [] {
      var n := |items| - 1;
      NeverHalts(book, items[..n]);
      var b := ApplyAll(book, items[..n]).0;
      assert Plain(items[n]);
      if items[n].An? { NeverRaises(b, items[n].update); }
    }
  }

  lemma NeverRaises(book: Book, u: Update)
    requires Plain(An(u))
    ensures !Apply(book, u).1.Raised?
  {
    RejectedIff(book, u);
    if Apply(book, u).1.Raised? { FirstOddIs(book, AllRefs(u)); }
  }

  lemma {:induction false} FirstOddIs(book: Book, refs: seq<Ref>)
    requires exists i :: 0 <= i < |refs| && !There(book, refs[i])
    ensures exists k: nat :: FirstOdd(book, refs, k)
  {
    if There(book, refs[0]) {
      var i :| 0 <= i < |refs| && !There(book, refs[i]);
      assert !There(book, refs[1..][i - 1]);
      FirstOddIs(book, refs[1..]);
      var k: nat :| FirstOdd(book, refs[1..], k);
      forall j | 0 <= j < k + 1 ensures There(book, refs[j]) { if j > 0 { assert refs[j] == refs[1..][j - 1]; } }
      assert FirstOdd(book, refs, k + 1);
    } else {
      assert FirstOdd(book, refs, 0);
    }
  }

  /** An emission during which a call is made: a change of that call is marked as emitted, and was not in the payload. */
  method EmitAround(tl: TaskList, meanwhile: seq<Item>) returns (outcomes: seq<Outcome>)
    requires tl.Valid()
    modifies tl, tl.tasks.Values
    ensures tl.Valid() && tl.tasks.Values <= old(tl.tasks.Values)
    ensures !tl.NeedsEmit() && (tl.Tracks() <==> !AnyApplied(outcomes))
    ensures (tl.View(), outcomes) == ApplyAll(old(tl.View()), meanwhile)
  {
    hide TaskList.Valid;
    hide TaskList.View;
    hide ApplyAll;
    var payload, at := tl.ToPayload();
    outcomes := tl.TaskUpdate(meanwhile);
    SomeSuccessIff(outcomes);
    tl.MarkEmitted(at);
  }

  /** Whatever the list, once all is emitted: a task is completed, the next item raises, and nothing is to be emitted. */
  method RaisingItemHidesAChange(tl: TaskList, id: string)
    requires tl.Valid() && !tl.NeedsEmit() && id in tl.View() && tl.View()[id].status != "completed"
    modifies tl, tl.tasks.Values
    ensures tl.Valid() && Payload(tl.View()) != old(Payload(tl.View())) && !tl.NeedsEmit() && !tl.Tracks()
  {
    hide TaskList.Valid;
    hide TaskList.View;
    ghost var book := tl.View();
    var items := [An(Update(id, Set("completed"), Unset, Unset, Many([]), Many([]))),
                  An(Update(id, Unset, Unset, Unset, Many([Unhashable]), Many([])))];
    CompleteThenRaise(book, id);
    var outcomes := tl.TaskUpdate(items);
    assert Applied(outcomes[0]) && Halted(outcomes);
    assert Payload(tl.View())[id].status == "completed";
  }

  lemma CompleteThenRaise(book: Book, id: string)
    requires id in book
    ensures var items := [An(Update(id, Set("completed"), Unset, Unset, Many([]), Many([]))),
                          An(Update(id, Unset, Unset, Unset, Many([Unhashable]), Many([])))];
            var (r, outcomes) := ApplyAll(book, items);
            && outcomes == [Updated(id, "completed"), Raised]
            && id in r && r[id].status == "completed"
  {
    var u := Update(id, Set("completed"), Unset, Unset, Many([]), Many([]));
    var v := Update(id, Unset, Unset, Unset, Many([Unhashable]), Many([]));
    Completes(book, u);
    Raising(Apply(book, u).0, v);
    hide Apply;
    hide ApplyAll;
    TwoItems(book, An(u), An(v));
  }

  lemma Completes(book: Book, u: Update)
    requires u.taskId in book && u == Update(u.taskId, Set("completed"), Unset, Unset, Many([]), Many([]))
    ensures var (r, o) := Apply(book, u); o == Updated(u.taskId, "completed") && u.taskId in r && r[u.taskId].status == "completed"
  {
    assert IdsOf(u.addBlocks) == [] && IdsOf(u.addBlockedBy) == [];
    assert u.addBlocks.refs == [] && CheckAll(book, u.addBlocks).AllThere? && CheckAll(book, u.addBlockedBy).AllThere?;
  }

  lemma Raising(book: Book, u: Update)
    requires u.taskId in book && u.status.Unset? && u.addBlocks == Many([Unhashable])
    ensures Apply(book, u) == (book, Raised)
  {
  }

  lemma TwoItems(book: Book, x: Item, y: Item)
    ensures var (b, o) := ApplyItem(book, x);
            !o.Raised? ==> ApplyAll(book, [x, y]) == (ApplyItem(b, y).0, [o, ApplyItem(b, y).1])
  {
    hide ApplyItem;
    var (b, o) := ApplyItem(book, x);
    assert [x, y][..0] == [] && [x, y][..1] == [x] && [x, y][..2] == [x, y];
    ApplyOneMore(book, [x, y], 0);
    assert [] + [o] == [o] && [o] + [ApplyItem(b, y).1] == [o, ApplyItem(b, y).1];
    if !o.Raised? { ApplyOneMore(book, [x, y], 1); }
  }

  predicate AnyApplied(outcomes: seq<Outcome>) { exists i :: 0 <= i < |outcomes| && Applied(outcomes[i]) }

  lemma AnyAppliedMore(outcomes: seq<Outcome>, o: Outcome)
    ensures AnyApplied(outcomes + [o]) <==> AnyApplied(outcomes) || Applied(o)
  {
    var more := outcomes + [o];
    if AnyApplied(outcomes) {
      var i :| 0 <= i < |outcomes| && Applied(outcomes[i]);
      assert more[i] == outcomes[i];
    }
    assert more[|outcomes|] == o;
  }

  lemma NoneCreated(book: Book, first: nat)
    ensures Created(book, first, []) == book && IdsFrom(first, 0) == []
  {
  }

  lemma CreatedMore(book: Book, first: nat, requests: seq<Request>, i: nat)
    requires i < |requests| && forall j :: 0 <= j < |requests| ==> Creatable(requests[j])
    ensures Created(book, first, requests[..i + 1]) == Created(book, first, requests[..i])[Str(first + i) := NewInfo(requests[i])]
  {
    assert requests[..i + 1][..i] == requests[..i];
  }

  /** What is asked for, but for white space around it, pending and without edges. */
  predicate Asked(request: Request, info: Info)
    requires request.ATask?
  {
    info == Info(Strip(request.subject), Strip(request.description), "pending", [], [])
  }

  /** Each request becomes a task under its own id that says what was asked for. */
  lemma {:induction false} CreatedAt(book: Book, first: nat, requests: seq<Request>, i: nat)
    requires i < |requests| && forall j :: 0 <= j < |requests| ==> Creatable(requests[j])
    ensures Str(first + i) in Created(book, first, requests) && Asked(requests[i], Created(book, first, requests)[Str(first + i)])
  {
    hide Str;
    hide Strip;
    var n := |requests| - 1;
    if i < n {
      CreatedAt(book, first, requests[..n], i);
      if Str(first + i) == Str(first + n) { StrIsInjective(first + i, first + n); }
    }
  }

  /** There are no other new tasks, and those there were stay as they were. */
  lemma {:induction false} CreatedKeeps(book: Book, first: nat, requests: seq<Request>)
    requires forall i :: 0 <= i < |requests| ==> Creatable(requests[i])
    ensures var r, ids := Created(book, first, requests), IdsFrom(first, |requests|);
            && (forall k :: k in r <==> k in book || k in ids)
            && (forall k :: k in book && k !in ids ==> r[k] == book[k])
  {
    hide Str;
    hide NewInfo;
    if requests != [] {
      var n := |requests| - 1;
      CreatedKeeps(book, first, requests[..n]);
      IdsFromMore(first, n);
      hide IdsFrom;
    }
  }

  lemma IdsFromMore(first: nat, i: nat)
    ensures IdsFrom(first, i + 1) == IdsFrom(first, i) + [Str(first + i)]
  {
    hide Str;
  }

  /** The first request that is no object or has no subject. */
  function BadRequest(requests: seq<Request>): (i: nat)
    ensures i <= |requests| && (forall j :: 0 <= j < i ==> Creatable(requests[j])) && (i < |requests| ==> !Creatable(requests[i]))
  {
    if requests == [] || !Creatable(requests[0]) then 0 else
    var i := BadRequest(requests[1..]) + 1;
    assert forall j :: 0 <= j < i ==> requests[j] == if j == 0 then requests[0] else requests[1..][j - 1];
    i
  }

  lemma FirstBlank(requests: seq<Request>)
    ensures var k := BadRequest(requests);
            && (k == |requests| <==> forall i :: 0 <= i < |requests| ==> HasSubject(requests[i]))
            && (k < |requests| ==> !HasSubject(requests[k]) && forall i :: 0 <= i < k ==> HasSubject(requests[i]))
  {
    forall i | 0 <= i < |requests| ensures Creatable(requests[i]) <==> HasSubject(requests[i]) { CreatableIff(requests[i]); }
    hide Creatable;
    hide HasSubject;
  }

  lemma IdsMore(next: nat)
    requires next >= 1
    ensures IdsFrom(1, next) == IdsFrom(1, next - 1) + [Str(next)]
  {
    hide Str;
  }

  /** The next id was never handed out. */
  lemma NewIdIsNew(next: nat)
    requires next >= 1
    ensures Str(next) !in IdsFrom(1, next - 1)
  {
    if Str(next) in IdsFrom(1, next - 1) {
      var i :| 0 <= i < next - 1 && IdsFrom(1, next - 1)[i] == Str(next);
      StrIsInjective(1 + i, next);
    }
  }
}
