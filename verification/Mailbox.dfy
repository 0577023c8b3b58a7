/** The mailbox over append-only files with one byte offset per bound address, against the in-memory queues. */
module Mailbox {
  import opened Wrappers
  import opened JsonLines
  import opened Slug
  import opened Encoding

  datatype Envelope = Envelope(sender: Address, recipient: Address, content: string)

  /** `json.dumps` of an envelope is one line of printable ASCII, and reading it gives the envelope back. */
  datatype Codec = Codec(encode: Envelope -> string, decode: string -> Envelope)

  predicate IsLine(s: string) { s != "" && forall i :: 0 <= i < |s| ==> ' ' <= s[i] <= '~' }

  ghost predicate Lossless(codec: Codec) {
    forall e: Envelope :: IsLine(codec.encode(e)) && codec.decode(codec.encode(e)) == e
  }

  /** An envelope as a line of numbers, nothing left out. */
  function Encode(e: Envelope): string {
    Line(AddressCode()(e.sender) + (AddressCode()(e.recipient) + StringCode()(e.content)))
  }

  function ByteCode(): Byte -> seq<nat> { (b: Byte) => [b as nat] }

  function AddressCode(): Address -> seq<nat> { ListCode(ByteCode()) }

  lemma AddressesArePrefixFree()
    ensures PrefixFree(AddressCode())
  {
    forall x: Byte, y: Byte, r: seq<nat>, s: seq<nat> | ByteCode()(x) + r == ByteCode()(y) + s ensures x == y && r == s {
      var a, b := ByteCode()(x) + r, ByteCode()(y) + s;
      assert a[0] == x as nat && b[0] == y as nat && a[1..] == r && b[1..] == s;
    }
    ListsArePrefixFree(ByteCode());
  }

  lemma EncodeIsInjective(d: Envelope, e: Envelope)
    requires Encode(d) == Encode(e)
    ensures d == e
  {
    AddressesArePrefixFree();
    StringsArePrefixFree();
    var c, t := AddressCode(), StringCode();
    var x, y := c(d.recipient) + t(d.content), c(e.recipient) + t(e.content);
    LinesAreInjective(c(d.sender) + x, c(e.sender) + y);
    assert c(d.recipient) + t(d.content) == c(e.recipient) + t(e.content);
    assert t(d.content) + [] == t(e.content) + [];
  }

  ghost function Decode(s: string): Envelope {
    if e: Envelope :| Encode(e) == s then e else Envelope([], [], "")
  }

  /** There is such a codec, so what is proved of the files is not empty. */
  lemma SomeCodecIsLossless()
    ensures exists codec :: Lossless(codec)
  {
    var codec := Codec(Encode, s => Decode(s));
    forall e: Envelope ensures IsLine(codec.encode(e)) && codec.decode(codec.encode(e)) == e {
      LineIsALine(AddressCode()(e.sender) + (AddressCode()(e.recipient) + StringCode()(e.content)));
      EncodeIsInjective(Decode(Encode(e)), e);
    }
    assert Lossless(codec);
  }

  function Encoded(codec: Codec, es: seq<Envelope>): seq<string> { seq(|es|, i requires 0 <= i < |es| => codec.encode(es[i])) }

  /** The bytes of an inbox, one for each character as all are ASCII. */
  function Bytes(codec: Codec, es: seq<Envelope>): string { Framed(Encoded(codec, es)) }

  /** `readline` from an offset: up to and with the next newline, or the rest. */
  function ReadLine(text: string, offset: nat): string
    requires offset <= |text|
  {
    var rest := text[offset..];
    var n := NewlineAt(rest);
    if n < |rest| then rest[..n + 1] else rest
  }

  function NewlineAt(s: string): (n: nat)
    ensures n <= |s| && (n < |s| ==> s[n] == '\n') && forall i :: 0 <= i < n ==> s[i] != '\n'
  {
    if s == "" || s[0] == '\n' then 0 else
    var n := NewlineAt(s[1..]) + 1;
    assert forall i :: 0 < i < n ==> s[i] == s[1..][i - 1];
    n
  }

  function SentTo(sent: map<string, seq<Envelope>>, path: string): seq<Envelope> { if path in sent then sent[path] else [] }

  lemma BytesMore(codec: Codec, es: seq<Envelope>, more: seq<Envelope>)
    ensures Bytes(codec, es + more) == Bytes(codec, es) + Bytes(codec, more)
  {
    assert Encoded(codec, es + more) == Encoded(codec, es) + Encoded(codec, more);
    FramedConcat(Encoded(codec, es), Encoded(codec, more));
  }

  lemma NoBytes(codec: Codec)
    ensures Bytes(codec, []) == ""
  {
  }

  lemma BytesOfOne(codec: Codec, e: Envelope)
    ensures Bytes(codec, [e]) == codec.encode(e) + "\n"
  {
    assert Encoded(codec, [e]) == [codec.encode(e)];
    assert Framed([codec.encode(e)][1..]) == "";
  }

  /** From a line boundary, the next line is the next envelope, and behind it is the next boundary. */
  lemma NextLine(codec: Codec, all: seq<Envelope>, n: nat)
    requires Lossless(codec) && n < |all|
    ensures var text, offset := Bytes(codec, all), |Bytes(codec, all[..n])|;
            && offset <= |text| && ReadLine(text, offset) == codec.encode(all[n]) + "\n"
            && |Bytes(codec, all[..n + 1])| == offset + |codec.encode(all[n])| + 1
  {
    var line := codec.encode(all[n]);
    assert IsLine(line);
    assert all == all[..n] + ([all[n]] + all[n + 1..]) && all[..n + 1] == all[..n] + [all[n]];
    BytesMore(codec, all[..n], [all[n]] + all[n + 1..]);
    BytesMore(codec, [all[n]], all[n + 1..]);
    BytesMore(codec, all[..n], [all[n]]);
    BytesOfOne(codec, all[n]);
    var text, offset := Bytes(codec, all), |Bytes(codec, all[..n])|;
    var rest := text[offset..];
    assert rest == line + "\n" + Bytes(codec, all[n + 1..]);
    assert rest[|line|] == '\n' && forall i :: 0 <= i < |line| ==> rest[i] == line[i];
    assert NewlineAt(rest) == |line|;
  }

  /**
   A reader that began behind the first `start` envelopes of an inbox and has received `got`: a prefix of what
   came since, each envelope once and in order; its offset is the line boundary behind it.
  */
  predicate InStep(codec: Codec, inbox: seq<Envelope>, start: nat, got: seq<Envelope>, offset: nat) {
    && start <= |inbox| && got <= inbox[start..] && offset == |Bytes(codec, inbox[..start + |got|])|
  }

  /** What the reader has yet to receive. */
  function Unread(inbox: seq<Envelope>, start: nat, got: seq<Envelope>): seq<Envelope> {
    if start + |got| <= |inbox| then inbox[start + |got|..] else []
  }

  lemma StaysInStep(codec: Codec, inbox: seq<Envelope>, start: nat, got: seq<Envelope>, offset: nat, e: Envelope)
    requires InStep(codec, inbox, start, got, offset)
    ensures InStep(codec, inbox + [e], start, got, offset)
    ensures Unread(inbox + [e], start, got) == Unread(inbox, start, got) + [e]
  {
    assert (inbox + [e])[..start + |got|] == inbox[..start + |got|];
    assert (inbox + [e])[start..] == inbox[start..] + [e];
  }

  /** Reading a line takes the first unread envelope, and there is no whole line exactly when none is unread. */
  lemma ReadsInStep(codec: Codec, inbox: seq<Envelope>, start: nat, got: seq<Envelope>, offset: nat)
    requires Lossless(codec) && InStep(codec, inbox, start, got, offset)
    ensures offset <= |Bytes(codec, inbox)|
    ensures var line, q := ReadLine(Bytes(codec, inbox), offset), Unread(inbox, start, got);
            if q == [] then line == ""
            else
              && line != "" && line[|line| - 1] == '\n' && codec.decode(line[..|line| - 1]) == q[0]
              && InStep(codec, inbox, start, got + [q[0]], offset + |line|) && Unread(inbox, start, got + [q[0]]) == q[1..]
  {
    hide Bytes;
    hide ReadLine;
    hide Lossless;
    var n := start + |got|;
    if n < |inbox| {
      NextLine(codec, inbox, n);
      LineDecodes(codec, inbox[n]);
      TakesNext(inbox, start, got);
    } else {
      assert inbox[..n] == inbox;
      NothingAtTheEnd(Bytes(codec, inbox));
    }
  }

  lemma NothingAtTheEnd(text: string)
    ensures ReadLine(text, |text|) == ""
  {
  }

  lemma LineDecodes(codec: Codec, e: Envelope)
    requires Lossless(codec)
    ensures var line := codec.encode(e) + "\n"; codec.decode(line[..|line| - 1]) == e
  {
    var line := codec.encode(e) + "\n";
    assert line[..|line| - 1] == codec.encode(e);
  }

  lemma TakesNext(inbox: seq<Envelope>, start: nat, got: seq<Envelope>)
    requires start + |got| < |inbox| && got <= inbox[start..]
    ensures var q, n := Unread(inbox, start, got), start + |got|;
            q != [] && q[0] == inbox[n] && got + [inbox[n]] <= inbox[start..] && Unread(inbox, start, got + [q[0]]) == q[1..]
  {
    assert got + [inbox[start + |got|]] == inbox[start..][..|got| + 1];
  }

  // ------------------------------------------------------------------ an append half done

  /** `file` holds an inbox but for what its last append has yet to write, at most one line. */
  ghost predicate HalfWritten(codec: Codec, inbox: seq<Envelope>, file: string, pending: string) {
    && file + pending == Bytes(codec, inbox)
    && (pending != "" ==> inbox != [] && |pending| <= |codec.encode(inbox[|inbox| - 1])| + 1)
  }

  /** The file ends at a line's end: its last append has written its line, or nothing of it. */
  predicate WholeLines(codec: Codec, inbox: seq<Envelope>, pending: string) {
    pending == "" || (inbox != [] && |pending| == |codec.encode(inbox[|inbox| - 1])| + 1)
  }

  /** The offset is inside the line of envelope `start - 1`. */
  predicate Torn(codec: Codec, inbox: seq<Envelope>, start: nat, offset: nat) {
    1 <= start <= |inbox| && |Bytes(codec, inbox[..start - 1])| < offset < |Bytes(codec, inbox[..start])|
  }

  /** How many envelopes are before the end of the file, or begin before it. */
  function BehindEnd(codec: Codec, inbox: seq<Envelope>, pending: string): nat {
    if pending != "" && WholeLines(codec, inbox, pending) then |inbox| - 1 else |inbox|
  }

  lemma LastLine(codec: Codec, inbox: seq<Envelope>)
    requires inbox != []
    ensures var n := |inbox| - 1; Bytes(codec, inbox) == Bytes(codec, inbox[..n]) + codec.encode(inbox[n]) + "\n"
  {
    var n := |inbox| - 1;
    assert inbox == inbox[..n] + [inbox[n]];
    BytesMore(codec, inbox[..n], [inbox[n]]);
    BytesOfOne(codec, inbox[n]);
  }

  /** Where the end of a half-written file is, among the lines. */
  lemma EndOfFile(codec: Codec, inbox: seq<Envelope>, file: string, pending: string)
    requires HalfWritten(codec, inbox, file, pending)
    ensures var start := BehindEnd(codec, inbox, pending);
            if WholeLines(codec, inbox, pending) then InStep(codec, inbox, start, [], |file|)
            else start == |inbox| && Torn(codec, inbox, start, |file|)
  {
    hide Bytes;
    assert |file| + |pending| == |file + pending| == |Bytes(codec, inbox)| && inbox[..|inbox|] == inbox;
    if pending != "" { LastLine(codec, inbox); }
  }

  lemma BytesGrow(codec: Codec, inbox: seq<Envelope>, m: nat, n: nat)
    requires m <= n <= |inbox|
    ensures |Bytes(codec, inbox[..m])| <= |Bytes(codec, inbox[..n])|
  {
    assert inbox[..n] == inbox[..m] + inbox[m..n];
    BytesMore(codec, inbox[..m], inbox[m..n]);
  }

  /** A reader bound at the end of a file begins on a line exactly when no append has written part of one. */
  lemma BindsInStepIff(codec: Codec, inbox: seq<Envelope>, file: string, pending: string)
    requires HalfWritten(codec, inbox, file, pending)
    ensures (exists start: nat :: InStep(codec, inbox, start, [], |file|)) <==> WholeLines(codec, inbox, pending)
  {
    hide Bytes;
    hide WholeLines;
    hide HalfWritten;
    EndOfFile(codec, inbox, file, pending);
    if Torn(codec, inbox, |inbox|, |file|) {
      forall start: nat ensures !InStep(codec, inbox, start, [], |file|) {
        if start < |inbox| { BytesGrow(codec, inbox, start, |inbox| - 1); }
        if start <= |inbox| && |inbox| <= start { assert inbox[..start] == inbox[..|inbox|]; }
      }
    }
  }

  /** A reader inside a line gets the rest of that line, and is in step behind it. */
  lemma ReadsTail(codec: Codec, inbox: seq<Envelope>, start: nat, offset: nat)
    requires Lossless(codec) && Torn(codec, inbox, start, offset)
    ensures offset <= |Bytes(codec, inbox)|
    ensures var line, whole := ReadLine(Bytes(codec, inbox), offset), codec.encode(inbox[start - 1]) + "\n";
            && line != "" && line[|line| - 1] == '\n' && |line| < |whole| && line == whole[|whole| - |line|..]
            && InStep(codec, inbox, start, [], offset + |line|)
  {
    hide Bytes;
    hide ReadLine;
    var n, text := start - 1, Bytes(codec, inbox);
    var line := codec.encode(inbox[n]);
    assert IsLine(line);
    NextLine(codec, inbox, n);
    BytesGrow(codec, inbox, n + 1, |inbox|);
    assert inbox[..|inbox|] == inbox;
    var from := |Bytes(codec, inbox[..n])|;
    TailOf(text, from, line, offset - from);
  }

  lemma TailOf(text: string, from: nat, line: string, k: nat)
    requires IsLine(line) && k <= |line| && from + k <= |text| && ReadLine(text, from) == line + "\n"
    ensures ReadLine(text, from + k) == (line + "\n")[k..]
  {
    var rest, whole := text[from..], line + "\n";
    assert |whole| <= |rest| && rest[..|whole|] == whole;
    var tail := text[from + k..];
    assert tail == rest[k..] && tail[..|whole| - k] == whole[k..];
    assert forall i :: 0 <= i < |line| - k ==> tail[i] == line[k + i];
    assert tail[|line| - k] == whole[|line|] == '\n';
    assert NewlineAt(tail) == |line| - k;
  }

  lemma StaysTorn(codec: Codec, inbox: seq<Envelope>, start: nat, offset: nat, e: Envelope)
    requires Torn(codec, inbox, start, offset)
    ensures Torn(codec, inbox + [e], start, offset)
  {
    assert (inbox + [e])[..start] == inbox[..start] && (inbox + [e])[..start - 1] == inbox[..start - 1];
  }

  /** Opening an inbox to append to it, with nothing written yet. */
  lemma AppendBegins(codec: Codec, inbox: seq<Envelope>, file: string, e: Envelope)
    requires HalfWritten(codec, inbox, file, "")
    ensures HalfWritten(codec, inbox + [e], file, codec.encode(e) + "\n")
  {
    BytesMore(codec, inbox, [e]);
    BytesOfOne(codec, e);
    assert file + "" == file;
  }

  lemma AppendGoesOn(codec: Codec, inbox: seq<Envelope>, file: string, pending: string, n: nat)
    requires HalfWritten(codec, inbox, file, pending) && n <= |pending|
    ensures HalfWritten(codec, inbox, file + pending[..n], pending[n..])
  {
    assert file + pending[..n] + pending[n..] == file + pending;
  }

  lemma AppendEnds(codec: Codec, inbox: seq<Envelope>, file: string)
    requires HalfWritten(codec, inbox, file, "")
    ensures file == Bytes(codec, inbox) && WholeLines(codec, inbox, "")
  {
    assert file + "" == file;
  }

  lemma NoFile(codec: Codec)
    ensures HalfWritten(codec, [], "", "") && WholeLines(codec, [], "") && BehindEnd(codec, [], "") == 0
  {
    NoBytes(codec);
  }

  /** Where a reader is: inside a line, with nothing received, or in step. */
  predicate Stands(codec: Codec, inbox: seq<Envelope>, start: nat, got: seq<Envelope>, offset: nat, cut: bool) {
    if cut then got == [] && Torn(codec, inbox, start, offset) else InStep(codec, inbox, start, got, offset)
  }

  lemma BeginsToStand(codec: Codec, inbox: seq<Envelope>, file: string, pending: string)
    requires HalfWritten(codec, inbox, file, pending)
    ensures Stands(codec, inbox, BehindEnd(codec, inbox, pending), [], |file|, !WholeLines(codec, inbox, pending))
    ensures pending == "" ==> WholeLines(codec, inbox, "") && Unread(inbox, BehindEnd(codec, inbox, pending), []) == []
  {
    hide HalfWritten;
    hide InStep;
    hide Torn;
    EndOfFile(codec, inbox, file, pending);
  }

  lemma StillStands(codec: Codec, inbox: seq<Envelope>, start: nat, got: seq<Envelope>, offset: nat, cut: bool, e: Envelope)
    requires Stands(codec, inbox, start, got, offset, cut)
    ensures Stands(codec, inbox + [e], start, got, offset, cut)
    ensures Unread(inbox + [e], start, got) == Unread(inbox, start, got) + [e]
  {
    if cut {
      StaysTorn(codec, inbox, start, offset, e);
    } else {
      StaysInStep(codec, inbox, start, got, offset, e);
    }
  }

  /** What is left to a reader is the end of what came from its start on. */
  lemma StandsBehind(codec: Codec, inbox: seq<Envelope>, start: nat, got: seq<Envelope>, offset: nat, cut: bool)
    requires Stands(codec, inbox, start, got, offset, cut)
    ensures start <= |inbox| && got <= inbox[start..] && got + Unread(inbox, start, got) == inbox[start..]
  {
    hide Bytes;
  }

  predicate Ended(line: string) { line != "" && line[|line| - 1] == '\n' }

  /** A read by a reader: nothing when nothing is unread, the rest of its line, or the first unread envelope. */
  lemma ReadsOn(codec: Codec, inbox: seq<Envelope>, file: string, start: nat, got: seq<Envelope>, offset: nat, cut: bool)
    requires Lossless(codec) && HalfWritten(codec, inbox, file, "") && Stands(codec, inbox, start, got, offset, cut)
    ensures offset <= |file|
    ensures var line, q := ReadLine(file, offset), Unread(inbox, start, got);
            if !Ended(line) then !cut && q == []
            else if cut then Stands(codec, inbox, start, got, offset + |line|, false)
            else
              && q != [] && codec.decode(line[..|line| - 1]) == q[0] && Unread(inbox, start, got + [q[0]]) == q[1..]
              && Stands(codec, inbox, start, got + [q[0]], offset + |line|, false)
  {
    hide Bytes;
    hide ReadLine;
    hide Lossless;
    hide Torn;
    hide InStep;
    hide Unread;
    AppendEnds(codec, inbox, file);
    if cut {
      ReadsTail(codec, inbox, start, offset);
    } else {
      ReadsInStep(codec, inbox, start, got, offset);
    }
  }

  // ------------------------------------------------------------------ the files

  /** A receive takes the first of what is unread, or finds nothing unread. */
  predicate Received(r: Option<Envelope>, q: seq<Envelope>, got: seq<Envelope>, q': seq<Envelope>, got': seq<Envelope>) {
    if q == [] then r.None? && q' == [] && got' == got else r == Some(q[0]) && q' == q[1..] && got' == got + [q[0]]
  }

  class JsonlMailRoute {
    const codec: Codec

    /** The inbox files by name, and how far each bound address has read. */
    var files: map<string, string>
    var byteOffsets: map<Address, nat>

    /** For each inbox whose lock an append holds, what that append has yet to write. */
    var pending: map<string, string>

    /** The envelopes in each inbox, how many there were when an address was bound, and what it has received since. */
    ghost var sent: map<string, seq<Envelope>>
    ghost var boundAt: map<Address, nat>
    ghost var received: map<Address, seq<Envelope>>

    /** The addresses bound inside a line, until they have read the rest of it. */
    ghost var torn: set<Address>

    constructor (codec: Codec)
      requires Lossless(codec)
      ensures Valid() && sent == map[] && received == map[] && pending == map[] && torn == {}
    {
      this.codec, files, byteOffsets, sent, boundAt, received := codec, map[], map[], map[], map[], map[];
      pending, torn := map[], {};
    }

    function InboxPath(address: Address): string { Slugify(address) + ".jsonl" }

    function File(path: string): string
      reads this`files
    {
      if path in files then files[path] else ""
    }

    function Pending(path: string): string
      reads this`pending
    {
      if path in pending then pending[path] else ""
    }

    ghost function Inbox(address: Address): seq<Envelope>
      reads this`sent
    {
      SentTo(sent, InboxPath(address))
    }

    /** No append is at work on the inbox of the address. */
    predicate Unlocked(address: Address)
      reads this`pending
    {
      InboxPath(address) !in pending
    }

    /** No append has written part of a line to the inbox of the address. */
    ghost predicate OnWholeLine(address: Address)
      reads this`sent, this`pending
    {
      WholeLines(codec, Inbox(address), Pending(InboxPath(address)))
    }

    ghost predicate FilesValid()
      reads this`files, this`pending, this`sent
    {
      && files.Keys == sent.Keys && pending.Keys <= files.Keys
      && (forall p :: p in files ==> HalfWritten(codec, sent[p], files[p], Pending(p)))
      && forall p :: p in sent ==> forall e :: e in sent[p] ==> InboxPath(e.recipient) == p
    }

    ghost predicate Reader(address: Address)
      requires address in byteOffsets && address in boundAt && address in received
      reads this`sent, this`byteOffsets, this`boundAt, this`received, this`torn
    {
      Stands(codec, Inbox(address), boundAt[address], received[address], byteOffsets[address], address in torn)
    }

    ghost predicate ReadersValid()
      reads this`sent, this`byteOffsets, this`boundAt, this`received, this`torn
    {
      && byteOffsets.Keys == boundAt.Keys == received.Keys && torn <= byteOffsets.Keys
      && forall a :: a in byteOffsets ==> Reader(a)
    }

    ghost predicate Valid()
      reads this
    {
      Lossless(codec) && FilesValid() && ReadersValid()
    }

    /** What the address has yet to receive. */
    ghost function Queue(address: Address): seq<Envelope>
      requires address in boundAt && address in received
      reads this`sent, this`boundAt, this`received
    {
      Unread(Inbox(address), boundAt[address], received[address])
    }

    lemma InboxIs(path: string)
      requires Valid()
      ensures HalfWritten(codec, SentTo(sent, path), File(path), Pending(path))
    {
      hide Stands;
      hide Bytes;
      NoFile(codec);
    }

    /** `_init_offset`: to the end of the file as it is, past what came before. It does not wait for the lock. */
    method InitOffset(address: Address)
      requires Valid() && address !in byteOffsets
      modifies this`byteOffsets, this`boundAt, this`received, this`torn
      ensures Valid() && byteOffsets.Keys == old(byteOffsets.Keys) + {address}
      ensures received[address] == [] && byteOffsets[address] == |File(InboxPath(address))|
      ensures torn == if OnWholeLine(address) then old(torn) else old(torn) + {address}
      ensures Unlocked(address) ==> OnWholeLine(address) && Queue(address) == []
      ensures forall a :: a in old(byteOffsets) ==> a in byteOffsets && received[a] == old(received[a]) && Queue(a) == old(Queue(a))
    {
      hide Stands;
      hide FilesValid;
      hide ReadersValid;
      hide Unread;
      hide Lossless;
      hide Slugify;
      hide HalfWritten;
      hide WholeLines;
      hide BehindEnd;
      var path := InboxPath(address);
      InboxIs(path);
      ghost var inbox, ahead := Inbox(address), Pending(path);
      BeginsToStand(codec, inbox, File(path), ahead);
      AddReader(address, |File(path)|, BehindEnd(codec, inbox, ahead), !WholeLines(codec, inbox, ahead));
    }

    method AddReader(address: Address, offset: nat, ghost start: nat, ghost cut: bool)
      requires ReadersValid() && address !in byteOffsets && Stands(codec, Inbox(address), start, [], offset, cut)
      modifies this`byteOffsets, this`boundAt, this`received, this`torn
      ensures ReadersValid() && byteOffsets == old(byteOffsets)[address := offset]
      ensures boundAt == old(boundAt)[address := start] && received == old(received)[address := []]
      ensures torn == if cut then old(torn) + {address} else old(torn)
    {
      hide Stands;
      hide SentTo;
      hide Slugify;
      byteOffsets := byteOffsets[address := offset];
      boundAt := boundAt[address := start];
      received := received[address := []];
      torn := if cut then torn + {address} else torn;
    }

    /** `bind`: a rebind keeps the offset, so unread envelopes survive it. */
    method Bind(address: Address)
      requires Valid()
      modifies this`byteOffsets, this`boundAt, this`received, this`torn
      ensures Valid() && byteOffsets.Keys == old(byteOffsets.Keys) + {address}
      ensures address !in old(byteOffsets) ==> received[address] == [] && (address in torn <==> !OnWholeLine(address))
      ensures address !in old(byteOffsets) && Unlocked(address) ==> OnWholeLine(address) && Queue(address) == []
      ensures forall a :: a in old(byteOffsets) ==> received[a] == old(received[a]) && Queue(a) == old(Queue(a))
      ensures forall a :: a != address || a in old(byteOffsets) ==> (a in torn <==> a in old(torn))
    {
      hide Stands;
      hide FilesValid;
      hide OnWholeLine;
      hide Queue;
      if address !in byteOffsets { InitOffset(address); }
    }

    /** The append of `deliver` takes the inbox's lock, in this process or any other that shares the directory. */
    method Lock(e: Envelope)
      requires Valid() && Unlocked(e.recipient)
      modifies this`files, this`sent, this`pending
      ensures Valid() && pending == old(pending)[InboxPath(e.recipient) := codec.encode(e) + "\n"]
      ensures forall a :: a in byteOffsets ==>
                Queue(a) == old(Queue(a)) + if InboxPath(a) == InboxPath(e.recipient) then [e] else []
    {
      hide ReadersValid;
      hide Queue;
      hide Bytes;
      hide Lossless;
      hide Slugify;
      hide HalfWritten;
      var path := InboxPath(e.recipient);
      InboxIs(path);
      AppendBegins(codec, SentTo(sent, path), File(path), e);
      files := files[path := File(path)];
      pending := pending[path := codec.encode(e) + "\n"];
      AddToInbox(e);
    }

    ghost method AddToInbox(e: Envelope)
      requires ReadersValid()
      modifies this`sent
      ensures ReadersValid() && sent == old(sent)[InboxPath(e.recipient) := old(Inbox(e.recipient)) + [e]]
      ensures forall a :: a in byteOffsets ==>
                Queue(a) == old(Queue(a)) + if InboxPath(a) == InboxPath(e.recipient) then [e] else []
    {
      hide Stands;
      hide Unread;
      hide Slugify;
      forall a | a in byteOffsets && InboxPath(a) == InboxPath(e.recipient)
        ensures Stands(codec, Inbox(a) + [e], boundAt[a], received[a], byteOffsets[a], a in torn)
        ensures Unread(Inbox(a) + [e], boundAt[a], received[a]) == Queue(a) + [e]
      {
        assert Reader(a);
        StillStands(codec, Inbox(a), boundAt[a], received[a], byteOffsets[a], a in torn, e);
      }
      sent := sent[InboxPath(e.recipient) := Inbox(e.recipient) + [e]];
    }

    /** The append writes some more of its line. */
    method Write(path: string, n: nat)
      requires Valid() && path in pending && n <= |pending[path]|
      modifies this`files, this`pending
      ensures Valid() && files == old(files[path := files[path] + pending[path][..n]])
      ensures pending == old(pending[path := pending[path][n..]])
    {
      hide Stands;
      hide ReadersValid;
      hide Bytes;
      hide Queue;
      hide Lossless;
      hide Slugify;
      hide HalfWritten;
      var rest := pending[path];
      AppendGoesOn(codec, sent[path], files[path], rest, n);
      files := files[path := files[path] + rest[..n]];
      pending := pending[path := rest[n..]];
    }

    /** The append is done and gives the lock back. */
    method Unlock(path: string)
      requires Valid() && path in pending && pending[path] == ""
      modifies this`pending
      ensures Valid() && pending == old(pending) - {path}
    {
      hide Stands;
      hide ReadersValid;
      hide Bytes;
      hide Queue;
      hide Lossless;
      hide Slugify;
      hide HalfWritten;
      pending := pending - {path};
    }

    /** `deliver`, by this process or any other that shares the directory: one whole line goes to the end. */
    method Deliver(e: Envelope)
      requires Valid() && Unlocked(e.recipient)
      modifies this`files, this`sent, this`pending
      ensures Valid() && pending == old(pending)
      ensures forall a :: a in byteOffsets ==>
                Queue(a) == old(Queue(a)) + if InboxPath(a) == InboxPath(e.recipient) then [e] else []
    {
      hide Valid;
      hide Queue;
      hide Slugify;
      var path := InboxPath(e.recipient);
      Lock(e);
      Write(path, |pending[path]|);
      Unlock(path);
    }

    /** `receive_nowait`: the next complete line, if there is one. */
    method ReceiveNowait(address: Address) returns (r: Option<Envelope>)
      requires Valid() && Unlocked(address)
      modifies this`byteOffsets, this`boundAt, this`received, this`torn
      ensures Valid() && byteOffsets.Keys == old(byteOffsets.Keys) + {address} && torn == old(torn) - {address}
      ensures address !in old(byteOffsets) ==> r.None? && Queue(address) == []
      ensures address in old(torn) ==> r.Some? && Queue(address) == old(Queue(address)) && received[address] == []
      ensures address in old(byteOffsets) && address !in old(torn) ==>
                Received(r, old(Queue(address)), old(received[address]), Queue(address), received[address])
      ensures forall a :: a in old(byteOffsets) && a != address ==> received[a] == old(received[a]) && Queue(a) == old(Queue(a))
    {
      hide Valid;
      hide Queue;
      hide OnWholeLine;
      if address in torn { TornHasNothing(address); }
      if address !in byteOffsets { InitOffset(address); }
      r := ReadNext(address);
    }

    lemma TornHasNothing(address: Address)
      requires Valid() && address in torn
      ensures address in byteOffsets && address in received && received[address] == []
    {
    }

    /** A reader bound inside a line first gets whatever the rest of that line is taken for. */
    method ReadNext(address: Address) returns (r: Option<Envelope>)
      requires Valid() && address in byteOffsets && Unlocked(address)
      modifies this`byteOffsets, this`received, this`torn
      ensures Valid() && byteOffsets.Keys == old(byteOffsets.Keys) && torn == old(torn) - {address}
      ensures if address in old(torn) then r.Some? && received == old(received) && Queue(address) == old(Queue(address))
              else Received(r, old(Queue(address)), old(received[address]), Queue(address), received[address])
      ensures forall a :: a in old(byteOffsets) && a != address ==> received[a] == old(received[a]) && Queue(a) == old(Queue(a))
    {
      hide Stands;
      hide FilesValid;
      hide Unread;
      hide Lossless;
      hide Slugify;
      hide HalfWritten;
      hide ReadLine;
      var path, offset := InboxPath(address), byteOffsets[address];
      ghost var cut := address in torn;
      assert Reader(address);
      InboxIs(path);
      ReadsOn(codec, Inbox(address), File(path), boundAt[address], received[address], offset, cut);
      if path !in files {
        NothingAtTheEnd("");
        return None;
      }
      var line := ReadLine(files[path], offset);
      if line == "" || line[|line| - 1] != '\n' { return None; }
      var e := codec.decode(line[..|line| - 1]);
      MoveReader(address, offset + |line|, if cut then received[address] else received[address] + [e]);
      r := Some(e);
    }

    method MoveReader(address: Address, offset: nat, ghost got: seq<Envelope>)
      requires ReadersValid() && address in byteOffsets && Stands(codec, Inbox(address), boundAt[address], got, offset, false)
      modifies this`byteOffsets, this`received, this`torn
      ensures ReadersValid() && byteOffsets == old(byteOffsets)[address := offset]
      ensures received == old(received)[address := got] && torn == old(torn) - {address}
    {
      hide Stands;
      hide SentTo;
      hide Slugify;
      byteOffsets := byteOffsets[address := offset];
      received := received[address := got];
      torn := torn - {address};
    }

    /** `aclose`: every offset is forgotten, and with it what was unread. */
    method Close()
      requires Valid()
      modifies this`byteOffsets, this`boundAt, this`received, this`torn
      ensures Valid() && byteOffsets == map[]
    {
      byteOffsets, boundAt, received, torn := map[], map[], map[], {};
    }

    /** What a reader has is a prefix of what its inbox got since the bind, and was meant for it up to colons for pluses. */
    lemma ReceivedIsAPrefix(address: Address)
      requires Valid() && address in byteOffsets
      ensures boundAt[address] <= |Inbox(address)| && received[address] <= Inbox(address)[boundAt[address]..]
      ensures received[address] + Queue(address) == Inbox(address)[boundAt[address]..]
      ensures forall e :: e in received[address] ==> OneInbox(e.recipient, address)
    {
      hide Stands;
      hide Unread;
      hide Bytes;
      hide Lossless;
      hide OneInbox;
      hide Slugify;
      assert Reader(address);
      StandsBehind(codec, Inbox(address), boundAt[address], received[address], byteOffsets[address], address in torn);
      forall e | e in received[address] ensures OneInbox(e.recipient, address) {
        var i :| 0 <= i < |received[address]| && received[address][i] == e;
        assert e == Inbox(address)[boundAt[address]..][i];
        SamePathIff(e.recipient, address);
      }
    }

    lemma SamePathIff(a: Address, b: Address)
      ensures InboxPath(a) == InboxPath(b) <==> OneInbox(a, b)
    {
      SameInboxIff(a, b);
      var x, y := InboxPath(a), InboxPath(b);
      if x == y {
        assert |Slugify(a)| == |Slugify(b)|;
        assert Slugify(a) == x[..|Slugify(a)|] == y[..|Slugify(b)|] == Slugify(b);
      }
    }
  }

  // ------------------------------------------------------------------ in memory

  /** One first-in first-out queue per address; binding does nothing. */
  class InMemMailRoute {
    var queues: map<Address, seq<Envelope>>

    constructor ()
      ensures queues == map[]
    {
      queues := map[];
    }

    function Waiting(address: Address): seq<Envelope>
      reads this
    {
      if address in queues then queues[address] else []
    }

    method Deliver(e: Envelope)
      modifies this
      ensures forall a :: Waiting(a) == old(Waiting(a)) + if a == e.recipient then [e] else []
    {
      queues := queues[e.recipient := Waiting(e.recipient) + [e]];
    }

    method ReceiveNowait(address: Address) returns (r: Option<Envelope>)
      modifies this
      ensures var q := old(Waiting(address));
              if q == [] then r.None? && Waiting(address) == [] else r == Some(q[0]) && Waiting(address) == q[1..]
      ensures forall a :: a != address ==> Waiting(a) == old(Waiting(a))
    {
      var q := Waiting(address);
      if q == [] {
        queues := queues[address := []];
        return None;
      }
      queues := queues[address := q[1..]];
      r := Some(q[0]);
    }
  }

  // ------------------------------------------------------------------ the two agree

  datatype MailOp = Rebind(address: Address) | Send(e: Envelope) | Receive(address: Address)

  predicate Among(op: MailOp, addresses: set<Address>) {
    match op case Rebind(a) => a in addresses case Send(e) => e.recipient in addresses case Receive(a) => a in addresses
  }

  /** No two of the addresses share an inbox. */
  predicate OwnInboxes(addresses: set<Address>) {
    forall a, b :: a in addresses && b in addresses && OneInbox(a, b) ==> a == b
  }

  /** The address is bound at a whole line, no append is at work, and these are unread. */
  ghost predicate Waits(disk: JsonlMailRoute, address: Address, q: seq<Envelope>)
    reads disk
  {
    && disk.Valid() && disk.pending == map[]
    && address in disk.byteOffsets && address !in disk.torn && disk.Queue(address) == q
  }

  ghost predicate Agree(disk: JsonlMailRoute, memory: InMemMailRoute, addresses: set<Address>)
    reads disk, memory
  {
    && disk.Valid() && disk.pending == map[] && disk.torn !! addresses
    && forall a :: a in addresses ==> a in disk.byteOffsets && disk.Queue(a) == memory.Waiting(a)
  }

  /**
   Once the addresses in use are bound, no two of them sharing an inbox, the files behave as the queues do,
   across any sends, receives and rebinds.
  */
  method Lockstep(ops: seq<MailOp>, addresses: set<Address>, disk: JsonlMailRoute, memory: InMemMailRoute)
    returns (fromDisk: seq<Option<Envelope>>, fromMemory: seq<Option<Envelope>>)
    requires Agree(disk, memory, addresses)
    requires forall i :: 0 <= i < |ops| ==> Among(ops[i], addresses)
    requires OwnInboxes(addresses)
    modifies disk, memory
    ensures fromDisk == fromMemory && Agree(disk, memory, addresses)
  {
    fromDisk, fromMemory := [], [];
    for i := 0 to |ops|
      invariant fromDisk == fromMemory && Agree(disk, memory, addresses)
    {
      assert Among(ops[i], addresses);
      var x, y := Both(ops[i], addresses, disk, memory);
      fromDisk, fromMemory := fromDisk + [x], fromMemory + [y];
    }
  }

  method Both(op: MailOp, addresses: set<Address>, disk: JsonlMailRoute, memory: InMemMailRoute)
    returns (x: Option<Envelope>, y: Option<Envelope>)
    requires Agree(disk, memory, addresses) && Among(op, addresses)
    requires OwnInboxes(addresses)
    modifies disk, memory
    ensures x == y && Agree(disk, memory, addresses)
  {
    hide JsonlMailRoute.Valid;
    hide JsonlMailRoute.Queue;
    hide JsonlMailRoute.InboxPath;
    hide InMemMailRoute.Waiting;
    hide OneInbox;
    x, y := None, None;
    match op
    case Rebind(a) => disk.Bind(a);
    case Send(e) =>
      forall a | a in addresses ensures disk.InboxPath(a) == disk.InboxPath(e.recipient) <==> a == e.recipient {
        disk.SamePathIff(a, e.recipient);
      }
      disk.Deliver(e);
      memory.Deliver(e);
    case Receive(a) =>
      x := disk.ReceiveNowait(a);
      y := memory.ReceiveNowait(a);
  }

  /** An address bound for the first time has nothing waiting, as its fresh queue has. */
  method FirstBind(address: Address, disk: JsonlMailRoute, memory: InMemMailRoute)
    requires disk.Valid() && disk.pending == map[] && address !in disk.byteOffsets && memory.Waiting(address) == []
    modifies disk
    ensures Agree(disk, memory, {address})
  {
    hide JsonlMailRoute.Queue;
    hide JsonlMailRoute.ReadersValid;
    hide JsonlMailRoute.FilesValid;
    disk.Bind(address);
  }

  /**
   A send to any recipient, then as many receives at one address as empty its queue: the last of them gets the
   envelope from the files when the two addresses differ at most in colons for pluses, and from memory only when
   they are the same.
  */
  method SendThenDrain(e: Envelope, y: Address, disk: JsonlMailRoute, memory: InMemMailRoute)
    returns (fromDisk: Option<Envelope>, fromMemory: Option<Envelope>)
    requires Agree(disk, memory, {y})
    modifies disk, memory
    ensures fromDisk == if OneInbox(e.recipient, y) then Some(e) else None
    ensures fromMemory == if e.recipient == y then Some(e) else None
    ensures fromDisk == fromMemory <==> (OneInbox(e.recipient, y) ==> e.recipient == y)
  {
    hide JsonlMailRoute.Valid;
    hide JsonlMailRoute.Queue;
    hide JsonlMailRoute.InboxPath;
    hide JsonlMailRoute.OnWholeLine;
    hide InMemMailRoute.Waiting;
    hide OneInbox;
    assert y in {y};
    disk.SamePathIff(e.recipient, y);
    var q := memory.Waiting(y);
    ghost var onDisk := if OneInbox(e.recipient, y) then [e] else [];
    ghost var inMemory := if e.recipient == y then [e] else [];
    disk.Deliver(e);
    memory.Deliver(e);
    for i := 0 to |q|
      invariant Waits(disk, y, q[i..] + onDisk) && memory.Waiting(y) == q[i..] + inMemory
    {
      fromDisk := disk.ReceiveNowait(y);
      fromMemory := memory.ReceiveNowait(y);
      assert (q[i..] + onDisk)[1..] == q[i + 1..] + onDisk && (q[i..] + inMemory)[1..] == q[i + 1..] + inMemory;
    }
    fromDisk := disk.ReceiveNowait(y);
    fromMemory := memory.ReceiveNowait(y);
  }
}
