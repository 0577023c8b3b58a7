/**
 The retry loop behind the singleton lock: `flock` binds to an inode, the lock file's name may come to
 lead to another one, and other processes run between any two system calls.
*/
module SingletonLock {
  import opened Wrappers

  type Inode = nat
  type Fd = nat // an open file description, of any process

  /** `path` is the inode the lock file's name leads to; `holder` the description holding an inode's flock. */
  datatype Os = Os(path: Option<Inode>, files: map<Fd, Inode>, holder: map<Inode, Fd>, nextInode: nat, nextFd: nat)

  predicate WellFormed(os: Os) {
    && (forall fd :: fd in os.files ==> fd < os.nextFd && os.files[fd] < os.nextInode)
    && (forall i :: i in os.holder ==> os.holder[i] in os.files && os.files[os.holder[i]] == i)
    && (os.path.Some? ==> os.path.value < os.nextInode)
  }

  // ------------------------------------------------------------------ system calls

  /** `lock_file.open("w")` creates the file when it is missing. */
  function Create(os: Os): Os {
    if os.path.Some? then os else os.(path := Some(os.nextInode), nextInode := os.nextInode + 1)
  }

  function Open(os: Os): Os {
    var os := Create(os);
    os.(files := os.files[os.nextFd := os.path.value], nextFd := os.nextFd + 1)
  }

  function Flock(os: Os, fd: Fd): Os
    requires fd in os.files
  {
    if os.files[fd] in os.holder then os else os.(holder := os.holder[os.files[fd] := fd])
  }

  predicate Holds(os: Os, fd: Fd) { fd in os.files && os.files[fd] in os.holder && os.holder[os.files[fd]] == fd }

  /** `lock_still_owned`, with a stat that may fail. */
  predicate StillOwned(os: Os, fd: Fd, statOk: bool)
    requires fd in os.files
  {
    statOk && os.path == Some(os.files[fd])
  }

  function Close(os: Os, fd: Fd): Os {
    os.(files := map f | f in os.files && f != fd :: os.files[f],
        holder := map i | i in os.holder && os.holder[i] != fd :: os.holder[i])
  }

  // ------------------------------------------------------------------ other processes

  datatype Other = Unlink | Starts | Locks(fd: Fd) | Ends(fd: Fd)

  /** What another process does; it never touches the descriptions in `ours`. */
  function Act(os: Os, other: Other, ours: set<Fd>): Os {
    match other
    case Unlink => os.(path := None)
    case Starts => Open(os)
    case Locks(fd) => if fd in os.files && fd !in ours then Flock(os, fd) else os
    case Ends(fd) => if fd !in ours then Close(os, fd) else os
  }

  function ActAll(os: Os, others: seq<Other>, ours: set<Fd>): Os
    decreases |others|
  {
    if others == [] then os else ActAll(Act(os, others[0], ours), others[1..], ours)
  }

  function OpenBy(os: Os, ours: set<Fd>): map<Fd, Inode> { map fd | fd in os.files && fd in ours :: os.files[fd] }

  function HeldBy(os: Os, ours: set<Fd>): map<Inode, Fd> { map i | i in os.holder && os.holder[i] in ours :: os.holder[i] }

  /** Our descriptions, and what they hold, are the same in both. */
  predicate SameFor(os: Os, now: Os, ours: set<Fd>) {
    OpenBy(os, ours) == OpenBy(now, ours) && HeldBy(os, ours) == HeldBy(now, ours)
  }

  lemma SameForFewer(os: Os, now: Os, ours: set<Fd>, fewer: set<Fd>)
    requires SameFor(os, now, ours) && fewer <= ours
    ensures SameFor(os, now, fewer)
  {
    assert forall w: Os :: OpenBy(w, fewer) == map fd | fd in OpenBy(w, ours) && fd in fewer :: OpenBy(w, ours)[fd];
    assert forall w: Os :: HeldBy(w, fewer) == map i | i in HeldBy(w, ours) && HeldBy(w, ours)[i] in fewer :: HeldBy(w, ours)[i];
  }

  lemma SameForOurs(os: Os, now: Os, ours: set<Fd>, fd: Fd)
    requires SameFor(os, now, ours) && fd in ours
    ensures fd in os.files <==> fd in now.files
    ensures fd in os.files ==> os.files[fd] == now.files[fd]
    ensures Holds(os, fd) <==> Holds(now, fd)
  {
    assert fd in os.files <==> fd in OpenBy(os, ours);
    assert fd in now.files <==> fd in OpenBy(now, ours);
    assert forall w: Os, i: Inode :: (i in w.holder && w.holder[i] == fd) <==> (i in HeldBy(w, ours) && HeldBy(w, ours)[i] == fd);
  }

  lemma OpenKeeps(os: Os, ours: set<Fd>)
    requires WellFormed(os) && Below(ours, os)
    ensures WellFormed(Open(os)) && SameFor(os, Open(os), ours) && Below(ours, Open(os))
  {
  }

  lemma FlockKeeps(os: Os, fd: Fd, ours: set<Fd>)
    requires WellFormed(os) && fd in os.files && fd !in ours
    ensures WellFormed(Flock(os, fd)) && SameFor(os, Flock(os, fd), ours)
  {
  }

  lemma CloseKeeps(os: Os, fd: Fd, ours: set<Fd>)
    requires WellFormed(os) && fd !in ours
    ensures WellFormed(Close(os, fd)) && SameFor(os, Close(os, fd), ours)
  {
  }

  lemma {:induction false} OthersKeepOurs(os: Os, others: seq<Other>, ours: set<Fd>)
    requires WellFormed(os) && Below(ours, os)
    ensures var now := ActAll(os, others, ours);
            WellFormed(now) && SameFor(os, now, ours) && os.nextFd <= now.nextFd
    decreases |others|
  {
    if others != [] {
      ActKeeps(os, others[0], ours);
      OthersKeepOurs(Act(os, others[0], ours), others[1..], ours);
    }
  }

  lemma ActKeeps(os: Os, other: Other, ours: set<Fd>)
    requires WellFormed(os) && Below(ours, os)
    ensures var now := Act(os, other, ours);
            WellFormed(now) && SameFor(os, now, ours) && os.nextFd <= now.nextFd
  {
    match other
    case Unlink =>
    case Starts => OpenKeeps(os, ours);
    case Locks(fd) => if fd in os.files && fd !in ours { FlockKeeps(os, fd, ours); }
    case Ends(fd) => if fd !in ours { CloseKeeps(os, fd, ours); }
  }

  predicate NoLocks(others: seq<Other>) { forall o :: o in others ==> !o.Locks? }

  /**
   The lock file between two moments: a name that has left an inode never leads back to it, and an unlink is what
   makes it leave.
  */
  predicate SameName(os: Os, now: Os, others: seq<Other>) {
    && os.nextInode <= now.nextInode
    && (now.path.Some? && now.path.value < os.nextInode ==> now.path == os.path)
    && (os.path.Some? && os.path.value < os.nextInode ==> (now.path == os.path <==> Unlink !in others))
  }

  /** And those who take no flock only make flocks fewer. */
  predicate Moved(os: Os, now: Os, others: seq<Other>) {
    && SameName(os, now, others)
    && (NoLocks(others) ==> forall i :: i in now.holder ==> i in os.holder && os.holder[i] == now.holder[i])
  }

  lemma {:induction false} OthersMove(os: Os, others: seq<Other>, ours: set<Fd>)
    ensures Moved(os, ActAll(os, others, ours), others)
    decreases |others|
  {
    if others != [] { OthersMove(Act(os, others[0], ours), others[1..], ours); }
  }

  /** No process but the one with these descriptions holds the flock of the inode on disk. */
  predicate FreeFor(os: Os, mine: set<Fd>) { os.path.Some? && os.path.value in os.holder ==> os.holder[os.path.value] in mine }

  predicate FileIsFree(os: Os) { os.path.None? || os.path.value !in os.holder }

  lemma StaysFree(os: Os, now: Os, others: seq<Other>, mine: set<Fd>)
    requires WellFormed(os) && Moved(os, now, others) && NoLocks(others) && FreeFor(os, mine)
    ensures FreeFor(now, mine)
  {
  }

  predicate Below(fds: set<Fd>, os: Os) { forall fd :: fd in fds ==> fd < os.nextFd }

  // ------------------------------------------------------------------ acquire_singleton_lock

  /** Why no handle came back: somebody holds the flock, or every attempt locked an orphaned inode. */
  datatype Refusal = Taken(inode: Inode, rival: Fd) | Orphaned

  const ATTEMPTS := 5

  /** The `i`-th attempt is wasted: the file it opens is unlinked before it asks whose the inode is, or it cannot ask. */
  predicate Swapped(others: nat -> seq<Other>, stats: nat -> bool, i: nat) {
    !stats(i) || Unlink in others(3 * i + 1) || Unlink in others(3 * i + 2)
  }

  /** Every attempt is. */
  predicate AllSwapped(others: nat -> seq<Other>, stats: nat -> bool, attempts: nat) {
    forall i :: 0 <= i < attempts ==> Swapped(others, stats, i)
  }

  /** No other process asks for a flock while the call runs. */
  ghost predicate NoneAsks(others: nat -> seq<Other>) { forall k: nat :: NoLocks(others(k)) }

  /** No other process does anything, and the ownership check can stat. */
  ghost predicate Alone(others: nat -> seq<Other>, stats: nat -> bool) { (forall k: nat :: others(k) == []) && forall i: nat :: stats(i) }

  /** One turn of the loop. `ours` are this process's earlier descriptions, open or closed. */
  method Attempt(start: Os, ours: set<Fd>, others: nat -> seq<Other>, i: nat, stats: nat -> bool)
    returns (os: Os, fd: Fd, locked: bool, refusal: Option<Refusal>)
    requires WellFormed(start) && Below(ours, start)
    ensures WellFormed(os) && SameFor(start, os, ours) && start.nextFd <= fd < os.nextFd
    ensures locked ==> refusal.None? && Holds(os, fd) && os.path == Some(os.files[fd])
    ensures !locked ==> fd !in os.files
    ensures refusal.Some? ==> refusal.value.Taken? && refusal.value.rival != fd
                              && refusal.value.inode in os.holder && os.holder[refusal.value.inode] == refusal.value.rival
    ensures refusal.None? ==> (locked <==> !Swapped(others, stats, i))
    ensures Alone(others, stats) ==> (locked <==> FileIsFree(start)) && (locked || refusal.Some?)
    ensures NoneAsks(others) && FileIsFree(start) ==> refusal.None? && (!locked ==> FileIsFree(os))
  {
    hide SameFor;
    hide Holds;
    hide FileIsFree;
    hide FreeFor;
    hide WellFormed;
    hide Close;
    os, fd := OpenAmid(start, ours, others(3 * i));
    ghost var atOpen := os;
    var rival;
    os, rival := AskForFlock(start, os, ours, fd, others(3 * i + 1));
    if rival.Some? {
      refusal := Some(Taken(os.files[fd], rival.value));
      os := Drop(start, os, ours, fd);
      return os, fd, false, refusal;
    }
    ghost var asked := os;
    os := Interleave(start, os, others(3 * i + 2), ours, fd);
    OwnedIff(atOpen, asked, os, others, stats, i);
    if StillOwned(os, fd, stats(i)) {
      return os, fd, true, None;
    }
    if NoneAsks(others) && FileIsFree(start) { StaysFree(asked, os, others(3 * i + 2), {fd}); }
    os := Drop(start, os, ours, fd);
    return os, fd, false, None;
  }

  /** The file opened, for a description of our own. */
  method OpenAmid(start: Os, ours: set<Fd>, others: seq<Other>) returns (os: Os, fd: Fd)
    requires WellFormed(start) && Below(ours, start)
    ensures WellFormed(os) && SameFor(start, os, ours) && start.nextFd <= fd < os.nextFd && fd !in ours && Below(ours + {fd}, os)
    ensures fd in os.files && os.path == Some(os.files[fd]) && os.files[fd] < os.nextInode && !Holds(os, fd)
    ensures others == [] ==> (FileIsFree(os) <==> FileIsFree(start))
    ensures NoLocks(others) && FileIsFree(start) ==> FileIsFree(os)
  {
    OthersKeepOurs(start, others, ours);
    OthersMove(start, others, ours);
    os := ActAll(start, others, ours);
    if NoLocks(others) && FileIsFree(start) { StaysFree(start, os, others, {}); }
    OpenKeeps(os, ours);
    SameForOn(start, os, Open(os), ours);
    fd := os.nextFd;
    os := Open(os);
  }

  /** The flock asked for, amid other processes: granted, or a rival has it. */
  method AskForFlock(start: Os, before: Os, ours: set<Fd>, fd: Fd, others: seq<Other>) returns (os: Os, rival: Option<Fd>)
    requires WellFormed(before) && Below(ours + {fd}, before) && SameFor(start, before, ours) && fd !in ours
    requires fd in before.files && before.path == Some(before.files[fd]) && !Holds(before, fd)
    ensures WellFormed(os) && SameFor(start, os, ours) && Below(ours + {fd}, os) && before.nextFd <= os.nextFd
    ensures fd in os.files && os.files[fd] == before.files[fd] && SameName(before, os, others)
    ensures if rival.None? then Holds(os, fd)
            else rival.value != fd && os.files[fd] in os.holder && os.holder[os.files[fd]] == rival.value
    ensures others == [] ==> (rival.None? <==> FileIsFree(before))
    ensures NoLocks(others) && FileIsFree(before) ==> rival.None? && FreeFor(os, {fd})
  {
    hide SameFor;
    os := Interleave(start, before, others, ours, fd);
    var inode := os.files[fd];
    if inode in os.holder { return os, Some(os.holder[inode]); }
    if NoLocks(others) && FileIsFree(before) { StaysFree(before, os, others, {}); }
    FlockKeeps(os, fd, ours);
    SameForOn(start, os, Flock(os, fd), ours);
    return Flock(os, fd), None;
  }

  /** `handle.close()`: the description goes, and with it any flock it held. */
  method Drop(start: Os, before: Os, ours: set<Fd>, fd: Fd) returns (os: Os)
    requires WellFormed(before) && SameFor(start, before, ours) && fd !in ours
    ensures WellFormed(os) && SameFor(start, os, ours) && fd !in os.files && os.nextFd == before.nextFd
    ensures forall i :: i in before.holder && before.holder[i] != fd ==> i in os.holder && os.holder[i] == before.holder[i]
    ensures FreeFor(before, {fd}) ==> FileIsFree(os)
  {
    CloseKeeps(before, fd, ours);
    SameForOn(start, before, Close(before, fd), ours);
    os := Close(before, fd);
  }

  lemma SameForOn(start: Os, os: Os, now: Os, ours: set<Fd>)
    requires SameFor(start, os, ours) && SameFor(os, now, ours)
    ensures SameFor(start, now, ours)
  {
  }

  /** The inode the attempt opened is still the one on disk exactly when no unlink came between. */
  lemma OwnedIff(atOpen: Os, asked: Os, now: Os, others: nat -> seq<Other>, stats: nat -> bool, i: nat)
    requires atOpen.path.Some? && atOpen.path.value < atOpen.nextInode
    requires SameName(atOpen, asked, others(3 * i + 1)) && SameName(asked, now, others(3 * i + 2))
    ensures (stats(i) && now.path == atOpen.path) <==> !Swapped(others, stats, i)
  {
  }

  /** Other processes run while `fd` is ours too. */
  method Interleave(start: Os, before: Os, others: seq<Other>, ours: set<Fd>, fd: Fd) returns (os: Os)
    requires WellFormed(before) && Below(ours + {fd}, before) && SameFor(start, before, ours) && fd in before.files && fd !in ours
    ensures WellFormed(os) && SameFor(start, os, ours) && before.nextFd <= os.nextFd
    ensures fd in os.files && os.files[fd] == before.files[fd] && (Holds(os, fd) <==> Holds(before, fd))
    ensures Moved(before, os, others) && (others == [] ==> os == before)
  {
    OthersKeepOurs(before, others, ours + {fd});
    OthersMove(before, others, ours + {fd});
    os := ActAll(before, others, ours + {fd});
    SameForFewer(before, os, ours + {fd}, ours);
    SameForOurs(before, os, ours + {fd}, fd);
  }

  /**
   `others(k)` is what other processes do before the call's k-th system call and `stats(i)` whether
   the i-th ownership check can stat. `held` are this process's descriptions from before the call.
   `taken` are the descriptions the call atOpen, one for each attempt.
  */
  method AcquireSingletonLock(start: Os, held: set<Fd>, others: nat -> seq<Other>, stats: nat -> bool)
    returns (os: Os, handle: Option<Fd>, refusal: Option<Refusal>, taken: set<Fd>)
    requires WellFormed(start) && Below(held, start)
    ensures WellFormed(os) && SameFor(start, os, held) && held !! taken
    ensures handle.Some? <==> refusal.None?
    // a handle locks the inode on disk, and is the only thing the call leaves behind
    ensures handle.Some? ==> handle.value in taken && Holds(os, handle.value) && os.path == Some(os.files[handle.value])
    ensures forall fd :: fd in taken && handle != Some(fd) ==> fd !in os.files && !Holds(os, fd)
    // a refusal means a competitor holds the flock, or that every attempt was wasted
    ensures refusal.Some? && refusal.value.Taken? ==>
              refusal.value.inode in os.holder && os.holder[refusal.value.inode] == refusal.value.rival && refusal.value.rival !in taken
    // an attempt is made only when those before it were wasted, and a handle comes of one that was not
    ensures 1 <= |taken| <= ATTEMPTS && AllSwapped(others, stats, |taken| - 1)
    ensures handle.Some? ==> !Swapped(others, stats, |taken| - 1)
    ensures refusal == Some(Orphaned) ==> |taken| == ATTEMPTS && AllSwapped(others, stats, ATTEMPTS)
    // without rivals the retry converges if and only if some attempt is not wasted
    ensures FileIsFree(start) && NoneAsks(others) ==>
              refusal == (if AllSwapped(others, stats, ATTEMPTS) then Some(Orphaned) else None)
    // alone on the machine, the call succeeds exactly when nobody holds the file
    ensures Alone(others, stats) ==> (handle.Some? <==> FileIsFree(start))
  {
    hide Swapped;
    hide Holds;
    hide FileIsFree;
    hide NoneAsks;
    hide Alone;
    hide SameFor;
    hide WellFormed;
    hide Between;
    os, handle, refusal, taken := start, None, None, {};
    NothingTaken(start, held);
    var attempt := 0;
    while attempt < ATTEMPTS
      invariant 0 <= attempt <= ATTEMPTS && |taken| == attempt && refusal.None? && handle.None?
      invariant Between(start, os, held, taken) && AllSwapped(others, stats, attempt)
      invariant FileIsFree(start) && NoneAsks(others) ==> FileIsFree(os)
      invariant attempt == 0 ==> os == start
      invariant Alone(others, stats) ==> attempt == 0
    {
      var fd, locked;
      os, fd, locked, refusal := Retry(start, os, held, taken, others, attempt, stats);
      taken := taken + {fd};
      if locked {
        handle := Some(fd);
        return;
      }
      if refusal.Some? {
        BetweenMeans(start, os, held, taken);
        return;
      }
      attempt := attempt + 1;
    }
    BetweenMeans(start, os, held, taken);
    refusal := Some(Orphaned);
  }

  lemma NothingTaken(start: Os, held: set<Fd>)
    requires WellFormed(start) && Below(held, start)
    ensures Between(start, start, held, {})
  {
  }

  lemma BetweenMeans(start: Os, os: Os, held: set<Fd>, taken: set<Fd>)
    requires Between(start, os, held, taken)
    ensures WellFormed(os) && SameFor(start, os, held) && held !! taken
    ensures forall fd :: fd in taken ==> fd !in os.files && !Holds(os, fd)
  {
  }

  /** Between two attempts: nothing this process held before has changed, and nothing the call opened is left open. */
  predicate Between(start: Os, os: Os, held: set<Fd>, taken: set<Fd>) {
    && WellFormed(os) && Below(held + taken, os) && SameFor(start, os, held) && held !! taken
    && forall fd :: fd in taken ==> fd !in os.files
  }

  method Retry(start: Os, before: Os, held: set<Fd>, taken: set<Fd>, others: nat -> seq<Other>, i: nat, stats: nat -> bool)
    returns (os: Os, fd: Fd, locked: bool, refusal: Option<Refusal>)
    requires WellFormed(start) && Between(start, before, held, taken)
    ensures fd !in held + taken && held !! taken && WellFormed(os) && SameFor(start, os, held)
    ensures forall other :: other in taken ==> other !in os.files && !Holds(os, other)
    ensures if locked then refusal.None? && Holds(os, fd) && os.path == Some(os.files[fd]) else Between(start, os, held, taken + {fd})
    ensures refusal.Some? ==> refusal.value.Taken? && refusal.value.rival !in taken + {fd}
                              && refusal.value.inode in os.holder && os.holder[refusal.value.inode] == refusal.value.rival
    ensures refusal.None? ==> (locked <==> !Swapped(others, stats, i))
    ensures Alone(others, stats) ==> (locked <==> FileIsFree(before)) && (locked || refusal.Some?)
    ensures NoneAsks(others) && FileIsFree(before) ==> refusal.None? && (!locked ==> FileIsFree(os))
  {
    hide SameFor;
    hide Swapped;
    hide NoneAsks;
    hide Alone;
    hide FileIsFree;
    os, fd, locked, refusal := Attempt(before, held + taken, others, i, stats);
    SameForFewer(before, os, held + taken, held);
    SameForOn(start, before, os, held);
    forall other | other in taken ensures other !in os.files { SameForOurs(before, os, held + taken, other); }
  }

  /** Another process unlinks the file each time the call is about to ask whose the inode is, and does nothing else; every stat succeeds. */
  ghost predicate UnlinksBeforeChecks(others: nat -> seq<Other>, stats: nat -> bool) {
    (forall k: nat :: others(k) == if k % 3 == 2 then [Unlink] else []) && forall i: nat :: stats(i)
  }

  /** Five unlinks, and a free file that nobody else wants is refused: the bound is met before the retry converges. */
  method FiveUnlinksOrphan(start: Os, held: set<Fd>, others: nat -> seq<Other>, stats: nat -> bool) returns (os: Os, refusal: Option<Refusal>)
    requires WellFormed(start) && Below(held, start) && FileIsFree(start) && UnlinksBeforeChecks(others, stats)
    ensures WellFormed(os) && SameFor(start, os, held) && refusal == Some(Orphaned)
  {
    forall i: nat ensures Swapped(others, stats, i) { assert (3 * i + 2) % 3 == 2; }
    var handle, taken;
    os, handle, refusal, taken := AcquireSingletonLock(start, held, others, stats);
  }

  // ------------------------------------------------------------------ lock_still_owned

  /** Whoever opens the lock file now and asks for its flock finds this description in the way. */
  predicate BarsNewcomers(os: Os, fd: Fd) {
    var newcomer := os.nextFd;
    var os := Open(os);
    os.files[newcomer] in os.holder && os.holder[os.files[newcomer]] == fd
  }

  /** Of a handle with its flock, the check is wrong in one case: it cannot stat, and says "lost" of what is owned. */
  lemma StillOwnedIsWrongIff(os: Os, fd: Fd, statOk: bool)
    requires WellFormed(os) && Holds(os, fd)
    ensures StillOwned(os, fd, statOk) != BarsNewcomers(os, fd) <==> BarsNewcomers(os, fd) && !statOk
  {
    if os.path.None? { assert os.nextInode !in os.holder; }
  }

  // ------------------------------------------------------------------ lock_is_free

  /**
   The probe, with other processes running before it opens the file, before it asks for the flock and before
   it closes again. It says "not free" only of a flock a rival holds, "free" when the file cannot be opened
   or the flock was granted, and keeps neither the file nor the flock.
  */
  method LockIsFree(start: Os, held: set<Fd>, others: nat -> seq<Other>, openOk: bool)
    returns (os: Os, free: bool, fd: Fd, rival: Option<Fd>)
    requires WellFormed(start) && Below(held, start)
    ensures WellFormed(os) && SameFor(start, os, held) && fd !in held
    ensures fd !in os.files && !Holds(os, fd)
    ensures !free <==> rival.Some?
    ensures rival.Some? ==> openOk && rival.value != fd && exists i :: i in os.holder && os.holder[i] == rival.value
    ensures !openOk ==> free
    // alone on the machine, the answer is exact
    ensures (forall k :: others(k) == []) && openOk ==> (free <==> start.path.None? || start.path.value !in start.holder)
  {
    OthersKeepOurs(start, others(0), held);
    os := ActAll(start, others(0), held);
    fd, rival := os.nextFd, None;
    if !openOk { return os, true, fd, None; }
    OpenKeeps(os, held);
    os := Open(os);
    os := Interleave(start, os, others(1), held, fd);
    var inode := os.files[fd];
    if inode in os.holder {
      rival, free := Some(os.holder[inode]), false;
      assert (Close(os, fd)).holder[inode] == os.holder[inode];
    } else {
      FlockKeeps(os, fd, held);
      os := Flock(os, fd);
      os := Interleave(start, os, others(2), held, fd);
      free := true;
    }
    CloseKeeps(os, fd, held);
    os := Close(os, fd);
  }
}
