/** A list of tasks as a table: what an update does to it, and what every update keeps. */
module TaskGraph {
  import opened Strings

  datatype Info = Info(subject: string, description: string, status: string, blockedBy: seq<string>, blocks: seq<string>)

  type Book = map<string, Info>

  datatype Update = Update(taskId: string, status: Maybe, subject: Maybe, description: Maybe, addBlocks: Refs, addBlockedBy: Refs)
  datatype Maybe = Unset | Set(text: string)

  /**
   A dependency list as the model sends it, for nothing checks the arguments of a tool: what is iterated, or a
   value that cannot be. An element is a text, another value that can be looked up and is no task's id, or one
   whose look-up raises, as a list's does.
  */
  datatype Refs = Many(refs: seq<Ref>) | NotIterable
  datatype Ref = Id(text: string) | Other(shown: string) | Unhashable

  /** The result line of one update, or that it raised. */
  datatype Outcome = NotFound(id: string) | Deleted(id: string) | BlockedNotFound(id: string) | BlockerNotFound(id: string)
                   | Updated(id: string, status: string) | NotAnObject | Raised

  predicate Applied(o: Outcome) { o.Deleted? || o.Updated? }

  // ------------------------------------------------------------------ edges

  function Drop(s: seq<string>, x: string): (r: seq<string>) {
    if s == [] then [] else Drop(s[..|s| - 1], x) + if s[|s| - 1] == x then [] else [s[|s| - 1]]
  }

  function Count(s: seq<string>, x: string): nat {
    if s == [] then 0 else Count(s[..|s| - 1], x) + if s[|s| - 1] == x then 1 else 0
  }

  /** The edges of `x` taken out of the tasks in `among`. */
  function DropIn(book: Book, x: string, among: set<string>): Book {
    map k | k in book ::
      if k in among then book[k].(blockedBy := Drop(book[k].blockedBy, x), blocks := Drop(book[k].blocks, x)) else book[k]
  }

  /** `x` appended to the `blocked_by` of each listed task in turn. */
  function Block(book: Book, ids: seq<string>, x: string): (r: Book)
    requires forall i :: 0 <= i < |ids| ==> ids[i] in book
    ensures r.Keys == book.Keys
  {
    if ids == [] then book else
    var b := Block(book, ids[..|ids| - 1], x);
    var id := ids[|ids| - 1];
    b[id := b[id].(blockedBy := b[id].blockedBy + [x])]
  }

  /** `x` appended to the `blocks` of each listed task in turn. */
  function BlockBy(book: Book, ids: seq<string>, x: string): (r: Book)
    requires forall i :: 0 <= i < |ids| ==> ids[i] in book
    ensures r.Keys == book.Keys
  {
    if ids == [] then book else
    var b := BlockBy(book, ids[..|ids| - 1], x);
    var id := ids[|ids| - 1];
    b[id := b[id].(blocks := b[id].blocks + [x])]
  }

  function AddBlocks(book: Book, a: string, ids: seq<string>): (r: Book)
    requires a in book && forall i :: 0 <= i < |ids| ==> ids[i] in book
    ensures r.Keys == book.Keys
  {
    Block(book[a := book[a].(blocks := book[a].blocks + ids)], ids, a)
  }

  function AddBlockedBy(book: Book, a: string, ids: seq<string>): (r: Book)
    requires a in book && forall i :: 0 <= i < |ids| ==> ids[i] in book
    ensures r.Keys == book.Keys
  {
    BlockBy(book[a := book[a].(blockedBy := book[a].blockedBy + ids)], ids, a)
  }

  // ------------------------------------------------------------------ one update

  function Or(m: Maybe, s: string): string { if m.Set? then m.text else s }

  function WithStatus(book: Book, a: string, status: Maybe): (r: Book)
    requires a in book
    ensures r.Keys == book.Keys
  {
    if status.Unset? then book else
    var b := book[a := book[a].(status := status.text)];
    if status.text != "completed" then b else
    var c := DropIn(b, a, b.Keys);
    c[a := c[a].(blockedBy := [], blocks := [])]
  }

  /** What the look-up of the ids of a list comes to, in order, before anything is touched. */
  datatype Check = AllThere | Missing(shown: string) | Raises

  function CheckRefs(book: Book, refs: seq<Ref>): (r: Check)
    ensures r.AllThere? <==> forall i :: 0 <= i < |refs| ==> There(book, refs[i])
  {
    if refs == [] then AllThere
    else if refs[0].Unhashable? then Raises
    else if !There(book, refs[0]) then Missing(if refs[0].Id? then refs[0].text else refs[0].shown)
    else
      assert forall i :: 1 <= i < |refs| ==> refs[i] == refs[1..][i - 1];
      CheckRefs(book, refs[1..])
  }

  predicate There(book: Book, ref: Ref) { ref.Id? && ref.text in book }

  function CheckAll(book: Book, refs: Refs): Check { if refs.NotIterable? then Raises else CheckRefs(book, refs.refs) }

  function IdsOf(refs: Refs): seq<string> {
    if refs.NotIterable? then [] else seq(|refs.refs|, i requires 0 <= i < |refs.refs| => if refs.refs[i].Id? then refs.refs[i].text else "")
  }

  /** `_apply_task_update`: a rejected update leaves the book as it was, and so does one that raises. */
  function Apply(book: Book, u: Update): (Book, Outcome) {
    var a := u.taskId;
    if a !in book then (book, NotFound(a))
    else if u.status == Set("deleted") then (DropIn(book, a, book.Keys) - {a}, Deleted(a))
    else match CheckAll(book, u.addBlocks)
      case Raises => (book, Raised)
      case Missing(id) => (book, BlockedNotFound(id))
      case AllThere =>
        match CheckAll(book, u.addBlockedBy)
        case Raises => (book, Raised)
        case Missing(id) => (book, BlockerNotFound(id))
        case AllThere => (Edited(book, u), Updated(a, Edited(book, u)[a].status))
  }

  function Renamed(book: Book, a: string, subject: Maybe, description: Maybe): (r: Book)
    requires a in book
    ensures r.Keys == book.Keys
  {
    book[a := book[a].(subject := Or(subject, book[a].subject), description := Or(description, book[a].description))]
  }

  /** The accepted update: the status first, with what completion takes away, then the texts, then the new edges. */
  function Edited(book: Book, u: Update): (r: Book)
    requires u.taskId in book && CheckAll(book, u.addBlocks).AllThere? && CheckAll(book, u.addBlockedBy).AllThere?
    ensures r.Keys == book.Keys
  {
    var named := Renamed(WithStatus(book, u.taskId, u.status), u.taskId, u.subject, u.description);
    AddBlockedBy(AddBlocks(named, u.taskId, IdsOf(u.addBlocks)), u.taskId, IdsOf(u.addBlockedBy))
  }

  /** The updates of one call; `NoObject` is an item that is no object. */
  datatype Item = NoObject | An(update: Update)

  function ApplyItem(book: Book, item: Item): (Book, Outcome) { if item.NoObject? then (book, NotAnObject) else Apply(book, item.update) }

  /** An item raised, and the call with it. */
  predicate Halted(outcomes: seq<Outcome>) { outcomes != [] && outcomes[|outcomes| - 1].Raised? }

  /** Each item in turn, past those that are rejected but not past one that raises. */
  function ApplyAll(book: Book, items: seq<Item>): (Book, seq<Outcome>) {
    if items == [] then (book, []) else
    var (b, outcomes) := ApplyAll(book, items[..|items| - 1]);
    if Halted(outcomes) then (b, outcomes) else
    var (c, o) := ApplyItem(b, items[|items| - 1]);
    (c, outcomes + [o])
  }

  // ------------------------------------------------------------------ what every update keeps

  /** `a` lists `b` among those it blocks exactly as often as `b` lists `a` among its blockers. */
  ghost predicate Symmetric(book: Book) {
    forall a, b :: a in book && b in book ==> Count(book[a].blocks, b) == Count(book[b].blockedBy, a)
  }

  /** Every listed id is a task's. */
  ghost predicate Closed(book: Book) {
    forall a, x :: a in book && (x in book[a].blocks || x in book[a].blockedBy) ==> x in book
  }

  lemma {:induction false} DropCounts(s: seq<string>, x: string, y: string)
    ensures Count(Drop(s, x), y) == if x == y then 0 else Count(s, y)
  {
    if s != [] {
      var n := |s| - 1;
      DropCounts(s[..n], x, y);
      assert Drop(s, x)[..|Drop(s, x)|] == Drop(s, x);
      if s[n] != x { CountOne(Drop(s[..n], x), s[n], y); }
    }
  }

  lemma CountOne(s: seq<string>, z: string, y: string)
    ensures Count(s + [z], y) == Count(s, y) + if z == y then 1 else 0
  {
    assert (s + [z])[..|s|] == s;
  }

  lemma {:induction false} CountConcat(s: seq<string>, t: seq<string>, y: string)
    ensures Count(s + t, y) == Count(s, y) + Count(t, y)
  {
    if t == [] {
      assert s + t == s;
    } else {
      assert (s + t)[..|s + t| - 1] == s + t[..|t| - 1];
      CountConcat(s, t[..|t| - 1], y);
    }
  }

  lemma {:induction false} DropMembers(s: seq<string>, x: string, y: string)
    ensures y in Drop(s, x) <==> y in s && y != x
  {
    if s != [] { DropMembers(s[..|s| - 1], x, y); }
  }

  lemma NoneCounted()
    ensures forall y :: Count([], y) == 0
  {
  }

  /** Whether `x` goes or merely loses its edges, the rest stays symmetric and closed. */
  lemma DropKeeps(book: Book, x: string, r: Book)
    requires Symmetric(book) && Closed(book) && x in book
    requires r.Keys == book.Keys || r.Keys == book.Keys - {x}
    requires forall k :: k in r && k != x ==> r[k].blocks == Drop(book[k].blocks, x) && r[k].blockedBy == Drop(book[k].blockedBy, x)
    requires x in r ==> r[x].blocks == [] && r[x].blockedBy == []
    ensures Symmetric(r) && Closed(r)
  {
    hide Drop;
    hide Count;
    NoneCounted();
    forall a, b | a in r && b in r ensures Count(r[a].blocks, b) == Count(r[b].blockedBy, a) {
      DropCounts(book[a].blocks, x, b);
      DropCounts(book[b].blockedBy, x, a);
    }
    forall a, y | a in r && (y in r[a].blocks || y in r[a].blockedBy) ensures y in r {
      DropMembers(book[a].blocks, x, y);
      DropMembers(book[a].blockedBy, x, y);
    }
  }

  /** What `Block` adds to one task: `x`, as often as that one is listed; nothing else changes. */
  lemma {:induction false} BlockCounts(book: Book, ids: seq<string>, x: string, b: string, y: string)
    requires (forall i :: 0 <= i < |ids| ==> ids[i] in book) && b in book
    ensures var r := Block(book, ids, x);
            && r[b].blocks == book[b].blocks
            && Count(r[b].blockedBy, y) == Count(book[b].blockedBy, y) + (if y == x then Count(ids, b) else 0)
            && (y in r[b].blockedBy <==> y in book[b].blockedBy || (y == x && b in ids))
  {
    if ids != [] {
      var n := |ids| - 1;
      BlockCounts(book, ids[..n], x, b, y);
      if ids[n] == b { CountOne(Block(book, ids[..n], x)[b].blockedBy, x, y); }
    }
  }

  lemma {:induction false} BlockByCounts(book: Book, ids: seq<string>, x: string, b: string, y: string)
    requires (forall i :: 0 <= i < |ids| ==> ids[i] in book) && b in book
    ensures var r := BlockBy(book, ids, x);
            && r[b].blockedBy == book[b].blockedBy
            && Count(r[b].blocks, y) == Count(book[b].blocks, y) + (if y == x then Count(ids, b) else 0)
            && (y in r[b].blocks <==> y in book[b].blocks || (y == x && b in ids))
  {
    if ids != [] {
      var n := |ids| - 1;
      BlockByCounts(book, ids[..n], x, b, y);
      if ids[n] == b { CountOne(BlockBy(book, ids[..n], x)[b].blocks, x, y); }
    }
  }

  lemma AddBlocksKeeps(book: Book, x: string, ids: seq<string>)
    requires Symmetric(book) && Closed(book) && x in book && forall i :: 0 <= i < |ids| ==> ids[i] in book
    ensures Symmetric(AddBlocks(book, x, ids)) && Closed(AddBlocks(book, x, ids))
  {
    var m := book[x := book[x].(blocks := book[x].blocks + ids)];
    var r := AddBlocks(book, x, ids);
    forall a, b | a in r && b in r ensures Count(r[a].blocks, b) == Count(r[b].blockedBy, a) {
      BlockCounts(m, ids, x, a, b);
      BlockCounts(m, ids, x, b, a);
      CountConcat(book[x].blocks, ids, b);
    }
    forall a, y | a in r && (y in r[a].blocks || y in r[a].blockedBy) ensures y in r { BlockCounts(m, ids, x, a, y); }
  }

  lemma AddBlockedByKeeps(book: Book, x: string, ids: seq<string>)
    requires Symmetric(book) && Closed(book) && x in book && forall i :: 0 <= i < |ids| ==> ids[i] in book
    ensures Symmetric(AddBlockedBy(book, x, ids)) && Closed(AddBlockedBy(book, x, ids))
  {
    var m := book[x := book[x].(blockedBy := book[x].blockedBy + ids)];
    var r := AddBlockedBy(book, x, ids);
    forall a, b | a in r && b in r ensures Count(r[a].blocks, b) == Count(r[b].blockedBy, a) {
      BlockByCounts(m, ids, x, a, b);
      BlockByCounts(m, ids, x, b, a);
      CountConcat(book[x].blockedBy, ids, a);
    }
    forall a, y | a in r && (y in r[a].blocks || y in r[a].blockedBy) ensures y in r { BlockByCounts(m, ids, x, a, y); }
  }

  /** The same edges. */
  predicate SameEdges(b: Book, c: Book) {
    b.Keys == c.Keys && forall k :: k in b ==> b[k].blocks == c[k].blocks && b[k].blockedBy == c[k].blockedBy
  }

  lemma SameEdgesKeep(b: Book, c: Book)
    requires Symmetric(b) && Closed(b) && SameEdges(b, c)
    ensures Symmetric(c) && Closed(c)
  {
  }

  lemma WithStatusKeeps(book: Book, a: string, status: Maybe)
    requires Symmetric(book) && Closed(book) && a in book
    ensures Symmetric(WithStatus(book, a, status)) && Closed(WithStatus(book, a, status))
  {
    var r := WithStatus(book, a, status);
    if status == Set("completed") {
      DropKeeps(book, a, r);
    } else {
      SameEdgesKeep(book, r);
    }
  }

  lemma EditedKeeps(book: Book, u: Update)
    requires Symmetric(book) && Closed(book)
    requires u.taskId in book && CheckAll(book, u.addBlocks).AllThere? && CheckAll(book, u.addBlockedBy).AllThere?
    ensures Symmetric(Edited(book, u)) && Closed(Edited(book, u))
  {
    hide Symmetric;
    hide Closed;
    hide Renamed;
    hide WithStatus;
    hide AddBlocks;
    hide AddBlockedBy;
    hide CheckAll;
    hide IdsOf;
    var a := u.taskId;
    var b := WithStatus(book, a, u.status);
    var c := Renamed(b, a, u.subject, u.description);
    RenamedSameEdges(b, a, u.subject, u.description);
    IdsAreThere(book, u.addBlocks);
    IdsAreThere(book, u.addBlockedBy);
    WithStatusKeeps(book, a, u.status);
    SameEdgesKeep(b, c);
    AddBlocksKeeps(c, a, IdsOf(u.addBlocks));
    AddBlockedByKeeps(AddBlocks(c, a, IdsOf(u.addBlocks)), a, IdsOf(u.addBlockedBy));
  }

  lemma RenamedSameEdges(book: Book, a: string, subject: Maybe, description: Maybe)
    requires a in book
    ensures SameEdges(book, Renamed(book, a, subject, description))
  {
  }

  lemma IdsAreThere(book: Book, refs: Refs)
    requires CheckAll(book, refs).AllThere?
    ensures forall i :: 0 <= i < |IdsOf(refs)| ==> IdsOf(refs)[i] in book
  {
  }

  /** Every update keeps the graph symmetric and closed; one rejected or raising changes nothing; only a deletion removes a task. */
  lemma ApplyKeeps(book: Book, u: Update)
    requires Symmetric(book) && Closed(book)
    ensures var (r, o) := Apply(book, u);
            && Symmetric(r) && Closed(r) && (!Applied(o) ==> r == book)
            && (r.Keys == if o.Deleted? then book.Keys - {u.taskId} else book.Keys)
  {
    hide Edited;
    hide Symmetric;
    hide Closed;
    var (r, o) := Apply(book, u);
    if o.Deleted? {
      DropKeeps(book, u.taskId, r);
    } else if o.Updated? {
      EditedKeeps(book, u);
    }
  }

  /** The elements the look-ups come to, in order. */
  function AllRefs(u: Update): seq<Ref> {
    Refs1(u.addBlocks) + Refs1(u.addBlockedBy)
  }

  function Refs1(refs: Refs): seq<Ref> { if refs.NotIterable? then [Unhashable] else refs.refs }

  /** What an error line shows of an element that can be looked up. */
  function ShownAs(ref: Ref): string
    requires !ref.Unhashable?
  {
    if ref.Id? then ref.text else ref.shown
  }

  lemma {:induction false} CheckConcat(book: Book, s: seq<Ref>, t: seq<Ref>)
    ensures CheckRefs(book, s + t) == if CheckRefs(book, s).AllThere? then CheckRefs(book, t) else CheckRefs(book, s)
  {
    if s == [] {
      assert s + t == t;
    } else {
      assert (s + t)[1..] == s[1..] + t;
      CheckConcat(book, s[1..], t);
    }
  }

  /** The first element that is no task's id. */
  ghost predicate FirstOdd(book: Book, refs: seq<Ref>, k: nat) {
    k < |refs| && !There(book, refs[k]) && forall i :: 0 <= i < k ==> There(book, refs[i])
  }

  lemma {:induction false} CheckFindsFirst(book: Book, refs: seq<Ref>, k: nat)
    requires FirstOdd(book, refs, k)
    ensures CheckRefs(book, refs) == if refs[k].Unhashable? then Raises else Missing(ShownAs(refs[k]))
  {
    if k > 0 {
      assert There(book, refs[0]);
      assert forall i :: 1 <= i < |refs| ==> refs[i] == refs[1..][i - 1];
      CheckFindsFirst(book, refs[1..], k - 1);
    }
  }

  /**
   An update of a task that is there and not to be deleted is applied exactly when all it refers to is there;
   else the first thing that is not decides between a rejection and an exception.
  */
  lemma RejectedIff(book: Book, u: Update)
    ensures var o, refs := Apply(book, u).1, AllRefs(u);
            if u.taskId !in book then o == NotFound(u.taskId)
            else if u.status == Set("deleted") then o == Deleted(u.taskId)
            else
              && (Applied(o) <==> forall i :: 0 <= i < |refs| ==> There(book, refs[i]))
              && forall k: nat :: FirstOdd(book, refs, k) ==>
                   o == if refs[k].Unhashable? then Raised
                        else if k < |Refs1(u.addBlocks)| then BlockedNotFound(ShownAs(refs[k])) else BlockerNotFound(ShownAs(refs[k]))
  {
    var s, t := Refs1(u.addBlocks), Refs1(u.addBlockedBy);
    CheckConcat(book, s, t);
    assert AllRefs(u) == s + t && (CheckRefs(book, AllRefs(u)).AllThere? <==> CheckRefs(book, s).AllThere? && CheckRefs(book, t).AllThere?);
    assert CheckRefs(book, s) == CheckAll(book, u.addBlocks) && CheckRefs(book, t) == CheckAll(book, u.addBlockedBy);
    forall k: nat | FirstOdd(book, s + t, k)
      ensures CheckRefs(book, s + t) == (if (s + t)[k].Unhashable? then Raises else Missing(ShownAs((s + t)[k])))
      ensures CheckRefs(book, s).AllThere? <==> k >= |s|
    {
      CheckFindsFirst(book, s + t, k);
      assert forall i :: 0 <= i < |s| ==> (s + t)[i] == s[i];
    }
  }

  lemma {:induction false} ApplyAllKeeps(book: Book, items: seq<Item>)
    requires Symmetric(book) && Closed(book)
    ensures var (r, outcomes) := ApplyAll(book, items);
            && Symmetric(r) && Closed(r) && r.Keys <= book.Keys
            && (if Halted(outcomes) then |outcomes| <= |items| else |outcomes| == |items|)
            && (forall i :: 0 <= i < |outcomes| - 1 ==> !outcomes[i].Raised?)
            && ((forall i :: 0 <= i < |outcomes| ==> !Applied(outcomes[i])) ==> r == book)
  {
    hide Symmetric;
    hide Closed;
    if items != [] {
      var n := |items| - 1;
      ApplyAllKeeps(book, items[..n]);
      var (b, outcomes) := ApplyAll(book, items[..n]);
      if !Halted(outcomes) {
        var (c, o) := ApplyItem(b, items[n]);
        if items[n].An? { ApplyKeeps(b, items[n].update); }
        if forall i :: 0 <= i < |outcomes + [o]| ==> !Applied((outcomes + [o])[i]) {
          assert forall i :: 0 <= i < |outcomes| ==> outcomes[i] == (outcomes + [o])[i];
          assert (outcomes + [o])[|outcomes|] == o;
        }
      }
    }
  }

  /** A batch is its parts one after the other, each on the book the one before left, up to an item that raises. */
  lemma {:induction false} ApplyAllConcat(book: Book, first: seq<Item>, rest: seq<Item>)
    ensures var (b, outcomes) := ApplyAll(book, first); var (c, more) := ApplyAll(b, rest);
            ApplyAll(book, first + rest) == if Halted(outcomes) then (b, outcomes) else (c, outcomes + more)
    decreases |rest|
  {
    hide ApplyItem;
    if rest == [] {
      assert first + rest == first && ApplyAll(book, first).1 + [] == ApplyAll(book, first).1;
    } else {
      var n := |rest| - 1;
      assert (first + rest)[..|first + rest| - 1] == first + rest[..n];
      ApplyAllConcat(book, first, rest[..n]);
      var (b, outcomes) := ApplyAll(book, first);
      var (c, more) := ApplyAll(b, rest[..n]);
      var o := ApplyItem(c, rest[n]).1;
      assert outcomes + more + [o] == outcomes + (more + [o]);
      if more != [] { assert (outcomes + more)[|outcomes + more| - 1] == more[|more| - 1]; } else { assert outcomes + more == outcomes; }
    }
  }

  lemma ApplyAllOfOne(book: Book, item: Item)
    ensures ApplyAll(book, [item]) == (ApplyItem(book, item).0, [ApplyItem(book, item).1])
    ensures ApplyItem(book, item) == match item case NoObject => (book, NotAnObject) case An(update) => Apply(book, update)
  {
    assert [item][..0] == [] && ApplyAll(book, []) == (book, []);
    assert [] + [ApplyItem(book, item).1] == [ApplyItem(book, item).1];
    hide Apply;
  }

  /** Completing a task clears its edges, on both sides. */
  lemma CompletedHasNoEdges(book: Book, a: string, b: string)
    requires a in book && b in book && Closed(book)
    ensures var r := WithStatus(book, a, Set("completed"));
            r[a].blocks == [] && r[a].blockedBy == [] && a !in r[b].blocks && a !in r[b].blockedBy
  {
    DropMembers(book[b].blocks, a, a);
    DropMembers(book[b].blockedBy, a, a);
  }

  /** What a reader of the docs expects: a completed task has no edges. */
  ghost predicate Bare(book: Book) { forall k :: k in book && book[k].status == "completed" ==> NoEdges(book[k]) }

  predicate NoEdges(info: Info) { info.blocks == [] && info.blockedBy == [] }

  /** The ids an update would add edges to. */
  function Listed(u: Update): seq<string> { IdsOf(u.addBlocks) + IdsOf(u.addBlockedBy) }

  /** Everything the update refers to is there, and it is no deletion. */
  predicate Accepted(book: Book, u: Update) {
    u.taskId in book && u.status != Set("deleted") && forall i :: 0 <= i < |AllRefs(u)| ==> There(book, AllRefs(u)[i])
  }

  /** It adds an edge to a completed task: its own, completed before or by this very update, or another it lists. */
  predicate Touches(book: Book, u: Update)
    requires u.taskId in book
  {
    && Listed(u) != []
    && (Or(u.status, book[u.taskId].status) == "completed"
        || exists k :: k in Listed(u) && k != u.taskId && k in book && book[k].status == "completed")
  }

  /** An update keeps completed tasks free of edges, exactly when it is not accepted or touches none of them. */
  lemma CompletedStaysBareIff(book: Book, u: Update)
    requires Bare(book)
    ensures Bare(Apply(book, u).0) <==> !(Accepted(book, u) && Touches(book, u))
  {
    hide Edited;
    RejectedIff(book, u);
    var (r, o) := Apply(book, u);
    assert Accepted(book, u) <==> o.Updated?;
    if o.Deleted? { DropStaysBare(book, u.taskId, book.Keys); }
    if o.Updated? { EditedIsBareIff(book, u); }
  }

  lemma DropStaysBare(book: Book, x: string, among: set<string>)
    requires Bare(book)
    ensures Bare(DropIn(book, x, among))
  {
  }

  lemma EditedIsBareIff(book: Book, u: Update)
    requires Bare(book)
    requires u.taskId in book && CheckAll(book, u.addBlocks).AllThere? && CheckAll(book, u.addBlockedBy).AllThere?
    ensures Bare(Edited(book, u)) <==> !Touches(book, u)
  {
    var a, xs, ys := u.taskId, IdsOf(u.addBlocks), IdsOf(u.addBlockedBy);
    var named := Renamed(WithStatus(book, a, u.status), a, u.subject, u.description);
    NamedIsBare(book, u);
    IdsAreThere(book, u.addBlocks);
    IdsAreThere(book, u.addBlockedBy);
    var r := Edited(book, u);
    hide Edited;
    hide WithStatus;
    hide Renamed;
    hide NoEdges;
    hide IdsOf;
    forall b | b in r ensures r[b].status == named[b].status
      ensures NoEdges(r[b]) <==> NoEdges(named[b]) && b !in xs + ys && (b == a ==> xs + ys == [])
    {
      AddsEdgesIff(named, a, xs, ys, b);
    }
    hide AddBlocks;
    hide AddBlockedBy;
    if Touches(book, u) {
      if named[a].status == "completed" {
        assert !NoEdges(r[a]);
      } else {
        var k :| k in Listed(u) && k != a && k in book && book[k].status == "completed";
        assert !NoEdges(r[k]);
      }
    }
  }

  lemma NamedIsBare(book: Book, u: Update)
    requires Bare(book) && u.taskId in book
    ensures var r := Renamed(WithStatus(book, u.taskId, u.status), u.taskId, u.subject, u.description);
            && Bare(r) && r[u.taskId].status == Or(u.status, book[u.taskId].status)
            && forall k :: k in book && k != u.taskId ==> r[k].status == book[k].status
  {
    WithStatusIsBare(book, u.taskId, u.status);
    hide WithStatus;
  }

  /** Up to the adding of edges, the update keeps completed tasks free of them. */
  lemma WithStatusIsBare(book: Book, a: string, status: Maybe)
    requires Bare(book) && a in book
    ensures var r := WithStatus(book, a, status);
            && Bare(r) && r[a].status == Or(status, book[a].status)
            && forall k :: k in book && k != a ==> r[k].status == book[k].status
  {
    if status == Set("completed") { DropStaysBare(book, a, book.Keys); }
  }

  /** What the adding of edges does to one task. */
  lemma AddsEdgesIff(book: Book, a: string, xs: seq<string>, ys: seq<string>, b: string)
    requires a in book && b in book && (forall i :: 0 <= i < |xs| ==> xs[i] in book) && forall i :: 0 <= i < |ys| ==> ys[i] in book
    ensures var r := AddBlockedBy(AddBlocks(book, a, xs), a, ys);
            && r[b].status == book[b].status
            && (NoEdges(r[b]) <==> NoEdges(book[b]) && b !in xs + ys && (b == a ==> xs + ys == []))
  {
    var m := book[a := book[a].(blocks := book[a].blocks + xs)];
    var c := AddBlocks(book, a, xs);
    var n := c[a := c[a].(blockedBy := c[a].blockedBy + ys)];
    BlocksWhom(m, xs, a, b);
    BlocksByWhom(n, ys, a, b);
  }

  lemma {:induction false} BlocksWhom(book: Book, ids: seq<string>, x: string, b: string)
    requires (forall i :: 0 <= i < |ids| ==> ids[i] in book) && b in book
    ensures var r := Block(book, ids, x);
            r[b].status == book[b].status && r[b].blocks == book[b].blocks && (r[b].blockedBy == [] <==> book[b].blockedBy == [] && b !in ids)
  {
    if ids != [] { BlocksWhom(book, ids[..|ids| - 1], x, b); }
  }

  lemma {:induction false} BlocksByWhom(book: Book, ids: seq<string>, x: string, b: string)
    requires (forall i :: 0 <= i < |ids| ==> ids[i] in book) && b in book
    ensures var r := BlockBy(book, ids, x);
            r[b].status == book[b].status && r[b].blockedBy == book[b].blockedBy && (r[b].blocks == [] <==> book[b].blocks == [] && b !in ids)
  {
    if ids != [] { BlocksByWhom(book, ids[..|ids| - 1], x, b); }
  }

  /** Any other task can come to block a completed one. */
  lemma CompletedCanBeBlocked(book: Book, a: string, b: string)
    requires Bare(book) && a in book && b in book && a != b && book[a].status == "completed"
    ensures var (r, o) := Apply(book, Update(b, Unset, Unset, Unset, Many([Id(a)]), Many([])));
            Applied(o) && a in r && r[a].status == "completed" && r[a].blockedBy == [b] && !Bare(r)
  {
    var u := Update(b, Unset, Unset, Unset, Many([Id(a)]), Many([]));
    assert IdsOf(u.addBlocks) == [a] && IdsOf(u.addBlockedBy) == [];
    var named := Renamed(book, b, Unset, Unset);
    BlocksOne(named[b := named[b].(blocks := named[b].blocks + [a])], a, b);
  }

  lemma BlocksOne(book: Book, a: string, b: string)
    requires a in book
    ensures Block(book, [a], b) == book[a := book[a].(blockedBy := book[a].blockedBy + [b])]
  {
    assert [a][..0] == [];
  }

  /** One update that completes a task and adds an edge to it: the edge goes in after the status took the others away. */
  lemma CompletesAndBlocks(book: Book, a: string, b: string)
    requires Bare(book) && a in book && b in book
    ensures var u := Update(a, Set("completed"), Unset, Unset, Many([Id(b)]), Many([]));
            Accepted(book, u) && !Bare(Apply(book, u).0)
  {
    var u := Update(a, Set("completed"), Unset, Unset, Many([Id(b)]), Many([]));
    assert AllRefs(u) == [Id(b)] && Listed(u) == [b];
    CompletedStaysBareIff(book, u);
  }

  lemma {:induction false} CountZeroIff(s: seq<string>, x: string)
    ensures Count(s, x) == 0 <==> x !in s
  {
    if s != [] { CountZeroIff(s[..|s| - 1], x); }
  }

  /** A new task under a new id, with no edges, disturbs nothing. */
  lemma NewTaskKeeps(book: Book, id: string, info: Info)
    requires Symmetric(book) && Closed(book) && id !in book && info.blocks == [] && info.blockedBy == []
    ensures Symmetric(book[id := info]) && Closed(book[id := info])
  {
    var r := book[id := info];
    forall a, b | a in r && b in r ensures Count(r[a].blocks, b) == Count(r[b].blockedBy, a) {
      CountZeroIff(r[a].blocks, b);
      CountZeroIff(r[b].blockedBy, a);
    }
  }
}
