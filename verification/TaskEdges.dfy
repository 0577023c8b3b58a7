/** What an update does to each task, read off the update itself: its texts, and its edges one by one. */
module TaskEdges {
  import opened Strings
  import opened TaskGraph

  /** The ids a dependency list gives, when every element of it is one. */
  predicate Lists(refs: Refs, ids: seq<string>) {
    refs.Many? && |ids| == |refs.refs| && forall i :: 0 <= i < |ids| ==> refs.refs[i] == Id(ids[i])
  }

  lemma AcceptedLists(book: Book, refs: Refs)
    requires CheckAll(book, refs).AllThere?
    ensures Lists(refs, IdsOf(refs)) && forall i :: 0 <= i < |IdsOf(refs)| ==> IdsOf(refs)[i] in book
  {
  }

  /** How often an id stands in a list. */
  lemma {:induction false} CountIs(s: seq<string>, x: string)
    ensures Count(s, x) == multiset(s)[x]
  {
    if s != [] {
      CountIs(s[..|s| - 1], x);
      assert s == s[..|s| - 1] + [s[|s| - 1]];
    }
  }

  /** What completion leaves of a list of `b`'s, of an edge between `b` and `y`, when `a` is the updated task. */
  function Left(edges: seq<string>, b: string, y: string, a: string, completes: bool): nat {
    if completes && (b == a || y == a) then 0 else multiset(edges)[y]
  }

  lemma StatusLists(book: Book, a: string, status: Maybe, b: string)
    requires a in book && b in book
    ensures var r := WithStatus(book, a, status)[b];
            if status != Set("completed") then r.blocks == book[b].blocks && r.blockedBy == book[b].blockedBy
            else if b == a then r.blocks == [] && r.blockedBy == []
            else r.blocks == Drop(book[b].blocks, a) && r.blockedBy == Drop(book[b].blockedBy, a)
  {
    hide Drop;
  }

  lemma LeftOf(edges: seq<string>, b: string, y: string, a: string)
    requires b != a
    ensures Count(Drop(edges, a), y) == Left(edges, b, y, a, true) && Count(edges, y) == Left(edges, b, y, a, false)
  {
    CountIs(edges, y);
    DropCounts(edges, a, y);
    hide Drop;
    hide Count;
  }

  lemma StatusEdges(book: Book, a: string, status: Maybe, b: string, y: string)
    requires a in book && b in book
    ensures var r := WithStatus(book, a, status); var completes := status == Set("completed");
            && Count(r[b].blocks, y) == Left(book[b].blocks, b, y, a, completes)
            && Count(r[b].blockedBy, y) == Left(book[b].blockedBy, b, y, a, completes)
  {
    StatusLists(book, a, status, b);
    hide WithStatus;
    hide Drop;
    if b != a {
      LeftOf(book[b].blocks, b, y, a);
      LeftOf(book[b].blockedBy, b, y, a);
      hide Left;
      hide Count;
    } else {
      CountIs(book[b].blocks, y);
      CountIs(book[b].blockedBy, y);
    }
  }

  lemma {:induction false} BlockTexts(book: Book, ids: seq<string>, x: string, b: string)
    requires (forall i :: 0 <= i < |ids| ==> ids[i] in book) && b in book
    ensures SameTexts(book[b], Block(book, ids, x)[b]) && SameTexts(book[b], BlockBy(book, ids, x)[b])
  {
    if ids != [] { BlockTexts(book, ids[..|ids| - 1], x, b); }
  }

  predicate SameTexts(i: Info, j: Info) { i.subject == j.subject && i.description == j.description && i.status == j.status }

  /** New edges of `a`'s: `xs` it blocks, and `ys` it is blocked by, at task `b`. */
  lemma NewEdges(book: Book, a: string, xs: seq<string>, ys: seq<string>, b: string, y: string)
    requires a in book && b in book && (forall i :: 0 <= i < |xs| ==> xs[i] in book) && forall i :: 0 <= i < |ys| ==> ys[i] in book
    ensures var r := AddBlockedBy(AddBlocks(book, a, xs), a, ys);
            && Count(r[b].blocks, y) == Count(book[b].blocks, y) + (if b == a then Count(xs, y) else 0) + (if y == a then Count(ys, b) else 0)
            && Count(r[b].blockedBy, y) == Count(book[b].blockedBy, y) + (if y == a then Count(xs, b) else 0) + (if b == a then Count(ys, y) else 0)
            && SameTexts(book[b], r[b])
  {
    hide Count;
    hide Block;
    hide BlockBy;
    var m := book[a := book[a].(blocks := book[a].blocks + xs)];
    var c := Block(m, xs, a);
    var n := c[a := c[a].(blockedBy := c[a].blockedBy + ys)];
    BlockCounts(m, xs, a, b, y);
    BlockByCounts(n, ys, a, b, y);
    BlockTexts(m, xs, a, b);
    BlockTexts(n, ys, a, b);
    CountConcat(book[a].blocks, xs, y);
    CountConcat(c[a].blockedBy, ys, y);
  }

  /**
   What stands of `y` in the lists of `b` after an accepted update of `a`: what completion leaves, and of the new edges exactly
   those the update names, each as often and on both its sides, from `a` to what it is to block and to `a` from its blockers.
  */
  predicate EdgeAt(before: Info, now: Info, b: string, y: string, a: string, completes: bool, xs: seq<string>, ys: seq<string>) {
    && multiset(now.blocks)[y]
       == Left(before.blocks, b, y, a, completes) + (if b == a then multiset(xs)[y] else 0) + (if y == a then multiset(ys)[b] else 0)
    && multiset(now.blockedBy)[y]
       == Left(before.blockedBy, b, y, a, completes) + (if y == a then multiset(xs)[b] else 0) + (if b == a then multiset(ys)[y] else 0)
  }

  ghost predicate EdgesAre(book: Book, r: Book, a: string, completes: bool, xs: seq<string>, ys: seq<string>) {
    r.Keys == book.Keys && forall b, y :: b in book ==> EdgeAt(book[b], r[b], b, y, a, completes, xs, ys)
  }

  /** The updated task says what it is told to, and otherwise what it said; the others say what they said. */
  predicate TextsAre(book: Book, r: Book, u: Update)
    requires u.taskId in book && u.taskId in r
  {
    var before, now := book[u.taskId], r[u.taskId];
    && now.subject == (if u.subject.Set? then u.subject.text else before.subject)
    && now.description == (if u.description.Set? then u.description.text else before.description)
    && now.status == (if u.status.Set? then u.status.text else before.status)
    && forall b :: b in book && b in r && b != u.taskId ==> SameTexts(book[b], r[b])
  }

  lemma EditedMeans(book: Book, u: Update)
    requires u.taskId in book && CheckAll(book, u.addBlocks).AllThere? && CheckAll(book, u.addBlockedBy).AllThere?
    ensures EdgesAre(book, Edited(book, u), u.taskId, u.status == Set("completed"), IdsOf(u.addBlocks), IdsOf(u.addBlockedBy))
  {
    hide EdgeAt;
    var r, completes, xs, ys := Edited(book, u), u.status == Set("completed"), IdsOf(u.addBlocks), IdsOf(u.addBlockedBy);
    assert r.Keys == book.Keys;
    hide Edited;
    hide IdsOf;
    hide CheckAll;
    forall b, y | b in book ensures EdgeAt(book[b], r[b], b, y, u.taskId, completes, xs, ys) {
      EditedAt(book, u, b, y);
    }
  }

  lemma TextsAt(book: Book, u: Update, b: string)
    requires u.taskId in book && CheckAll(book, u.addBlocks).AllThere? && CheckAll(book, u.addBlockedBy).AllThere? && b in book
    ensures SameTexts(Renamed(WithStatus(book, u.taskId, u.status), u.taskId, u.subject, u.description)[b], Edited(book, u)[b])
  {
    hide WithStatus;
    hide Renamed;
    hide AddBlocks;
    hide AddBlockedBy;
    hide IdsOf;
    AcceptedLists(book, u.addBlocks);
    AcceptedLists(book, u.addBlockedBy);
    hide CheckAll;
    var named := Renamed(WithStatus(book, u.taskId, u.status), u.taskId, u.subject, u.description);
    NewEdges(named, u.taskId, IdsOf(u.addBlocks), IdsOf(u.addBlockedBy), b, "");
  }

  lemma EditedSays(book: Book, u: Update)
    requires u.taskId in book && CheckAll(book, u.addBlocks).AllThere? && CheckAll(book, u.addBlockedBy).AllThere?
    ensures TextsAre(book, Edited(book, u), u)
  {
    hide WithStatus;
    hide CheckAll;
    var r := Edited(book, u);
    assert r.Keys == book.Keys;
    hide Edited;
    StatusTexts(book, u.taskId, u.status);
    forall b | b in book
      ensures SameTexts(Renamed(WithStatus(book, u.taskId, u.status), u.taskId, u.subject, u.description)[b], r[b])
    {
      TextsAt(book, u, b);
    }
  }

  lemma StatusTexts(book: Book, a: string, status: Maybe)
    requires a in book
    ensures var r := WithStatus(book, a, status);
            forall b :: b in book ==> r[b].subject == book[b].subject && r[b].description == book[b].description
                                      && r[b].status == (if b == a && status.Set? then status.text else book[b].status)
  {
  }

  lemma EditedAt(book: Book, u: Update, b: string, y: string)
    requires u.taskId in book && CheckAll(book, u.addBlocks).AllThere? && CheckAll(book, u.addBlockedBy).AllThere? && b in book
    ensures EdgeAt(book[b], Edited(book, u)[b], b, y, u.taskId, u.status == Set("completed"), IdsOf(u.addBlocks), IdsOf(u.addBlockedBy))
  {
    hide IdsOf;
    hide WithStatus;
    hide AddBlocks;
    hide AddBlockedBy;
    hide Count;
    hide Left;
    var a, xs, ys, r := u.taskId, IdsOf(u.addBlocks), IdsOf(u.addBlockedBy), Edited(book, u);
    AcceptedLists(book, u.addBlocks);
    AcceptedLists(book, u.addBlockedBy);
    hide CheckAll;
    var staged := WithStatus(book, a, u.status);
    var named := Renamed(staged, a, u.subject, u.description);
    StatusEdges(book, a, u.status, b, y);
    assert named[b].blocks == staged[b].blocks && named[b].blockedBy == staged[b].blockedBy;
    assert r == AddBlockedBy(AddBlocks(named, a, xs), a, ys);
    hide Edited;
    hide Renamed;
    NewEdges(named, a, xs, ys, b, y);
    CountIs(r[b].blocks, y);
    CountIs(r[b].blockedBy, y);
    CountIs(xs, y);
    CountIs(ys, b);
    CountIs(xs, b);
    CountIs(ys, y);
  }

  /** An update that is applied and deletes nothing does this and reports the status it leaves. */
  lemma UpdateMeans(book: Book, u: Update)
    requires Apply(book, u).1.Updated?
    ensures var (r, o) := Apply(book, u);
            && r.Keys == book.Keys && u.taskId in book && o == Updated(u.taskId, r[u.taskId].status)
            && Lists(u.addBlocks, IdsOf(u.addBlocks)) && Lists(u.addBlockedBy, IdsOf(u.addBlockedBy))
            && EdgesAre(book, r, u.taskId, u.status == Set("completed"), IdsOf(u.addBlocks), IdsOf(u.addBlockedBy))
            && TextsAre(book, r, u)
  {
    hide Edited;
    hide EdgesAre;
    hide TextsAre;
    AcceptedLists(book, u.addBlocks);
    AcceptedLists(book, u.addBlockedBy);
    EditedMeans(book, u);
    EditedSays(book, u);
  }

  /** A deletion takes its target, and the edges of that out of the others, and nothing else. */
  lemma DeletionMeans(book: Book, u: Update)
    requires u.taskId in book && u.status == Set("deleted")
    ensures var (r, o) := Apply(book, u); var a := u.taskId;
            && o == Deleted(a) && r.Keys == book.Keys - {a}
            && forall b :: b in r ==>
                 && SameTexts(book[b], r[b])
                 && multiset(r[b].blocks) == multiset(book[b].blocks)[a := 0] && multiset(r[b].blockedBy) == multiset(book[b].blockedBy)[a := 0]
  {
    var r, a := Apply(book, u).0, u.taskId;
    forall b | b in r
      ensures multiset(r[b].blocks) == multiset(book[b].blocks)[a := 0] && multiset(r[b].blockedBy) == multiset(book[b].blockedBy)[a := 0]
    {
      DroppedIs(book[b].blocks, a);
      DroppedIs(book[b].blockedBy, a);
    }
    hide Drop;
  }

  lemma DroppedIs(s: seq<string>, x: string)
    ensures multiset(Drop(s, x)) == multiset(s)[x := 0]
  {
    forall y ensures multiset(Drop(s, x))[y] == multiset(s)[x := 0][y] {
      DropCounts(s, x, y);
      CountIs(s, y);
      CountIs(Drop(s, x), y);
    }
  }

  /** The direction, on the smallest book: told that the first task blocks it, the second waits for the first. */
  lemma BlockedByWaits(book: Book, first: string, second: string)
    requires first != second && first in book && second in book && NoEdges(book[first]) && NoEdges(book[second])
    ensures var (r, o) := Apply(book, Update(second, Unset, Unset, Unset, Many([]), Many([Id(first)])));
            && o.Updated? && first in r && second in r
            && r[second].blockedBy == [first] && r[second].blocks == []
            && r[first].blocks == [second] && r[first].blockedBy == []
  {
    var u := Update(second, Unset, Unset, Unset, Many([]), Many([Id(first)]));
    assert IdsOf(u.addBlocks) == [] && IdsOf(u.addBlockedBy) == [first];
    assert There(book, u.addBlockedBy.refs[0]) && CheckAll(book, u.addBlocks).AllThere? && CheckAll(book, u.addBlockedBy).AllThere?;
    UpdateMeans(book, u);
    var r := Apply(book, u).0;
    hide Apply;
    forall y
      ensures multiset(r[second].blockedBy)[y] == (if y == first then 1 else 0) && multiset(r[second].blocks)[y] == 0
      ensures multiset(r[first].blocks)[y] == (if y == second then 1 else 0) && multiset(r[first].blockedBy)[y] == 0
    {
      assert EdgeAt(book[second], r[second], second, y, second, false, [], [first]);
      assert EdgeAt(book[first], r[first], first, y, second, false, [], [first]);
    }
    OnlyOne(r[second].blockedBy, first);
    OnlyOne(r[first].blocks, second);
    NoneOfAny(r[second].blocks);
    NoneOfAny(r[first].blockedBy);
  }

  lemma OnlyOne(s: seq<string>, x: string)
    requires forall y :: multiset(s)[y] == if y == x then 1 else 0
    ensures s == [x]
  {
    assert multiset(s) == multiset{x};
    assert |multiset(s)| == 1;
    assert s[0] in multiset(s);
  }

  lemma NoneOfAny(s: seq<string>)
    requires forall y :: multiset(s)[y] == 0
    ensures s == []
  {
    assert multiset(s) == multiset{};
    assert |multiset(s)| == 0;
  }
}
