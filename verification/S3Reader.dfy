/** The lazy ranged reader over an S3 object (internal/store/s3.go:57-178). The bytes it holds are
    fixed; the server may answer every ranged request with a response that is truncated, empty or
    broken off, in chunks of any size. `size` is what Stat reported and may exceed what is there. */
module S3Reader {
  import opened Wrappers

  newtype byte = x | 0 <= x < 256

  datatype Error = EndOfFile | Closed | Shrunk | Transport | BadSeek

  datatype Whence = Start | Current | End | Invalid

  /** `body` is the position where the open ranged response ends, if one is open. */
  datatype Reader = Reader(size: nat, pos: nat, body: Option<nat>, closed: bool, emptyReads: nat)

  /** How one `body.Read` ends: with nil, with io.EOF, or with a transport error. */
  datatype Ending = More | Eof | Fault

  /** What the server does during one Read: refuses the request, or sends `n` bytes of a
      response that reaches up to `until`. */
  datatype Reply = Refused | Chunk(until: nat, n: nat, ending: Ending)

  datatype Outcome = Outcome(reader: Reader, data: seq<byte>, err: Option<Error>)

  function Opened(size: nat): Reader {
    Reader(size, 0, None, false, 0)
  }

  /** The reader is about to talk to the server. */
  predicate Fetches(r: Reader) {
    !r.closed && r.pos < r.size
  }

  /** The open response lies within the content and the requested range, at or after the position. */
  predicate ValidBody(r: Reader, content: seq<byte>) {
    r.body.Some? ==> r.pos <= r.body.value <= r.size && r.body.value <= |content|
  }

  /** What a server holding `content` and an `io.Reader` filling a buffer of `cap` bytes may do. An
      already open response keeps its end, and a chunk of no bytes ends the response unless the
      buffer was empty. */
  predicate Possible(r: Reader, content: seq<byte>, cap: nat, reply: Reply) {
    match reply
    case Refused => r.body.None?
    case Chunk(until, n, ending) =>
      && (r.body.Some? ==> until == r.body.value)
      && r.pos + n <= until <= r.size && until <= |content| && n <= cap
      && (ending.Eof? ==> r.pos + n == until)
      && (n == 0 && cap > 0 ==> !ending.More?)
  }

  function Read(r: Reader, content: seq<byte>, cap: nat, reply: Reply): Outcome
    requires Fetches(r) ==> Possible(r, content, cap, reply)
  {
    if r.closed then Outcome(r, [], Some(Closed))
    else if r.pos >= r.size then Outcome(r, [], Some(EndOfFile))
    else
      match reply
      case Refused => Outcome(r, [], Some(Transport))
      case Chunk(until, n, ending) =>
        var data := content[r.pos..r.pos + n];
        var moved := r.(pos := r.pos + n);
        if ending.Eof? then
          if moved.pos >= r.size then Outcome(moved.(body := None), data, Some(EndOfFile))
          else if r.emptyReads + 1 > 3 then
            Outcome(moved.(body := None, emptyReads := r.emptyReads + 1), [], Some(Shrunk))
          else Outcome(moved.(body := None, emptyReads := r.emptyReads + 1), data, None)
        else
          Outcome(moved.(body := Some(until), emptyReads := 0), data, if ending.Fault? then Some(Transport) else None)
  }

  function Target(r: Reader, offset: int, whence: Whence): int {
    match whence
    case Start => offset
    case Current => r.pos + offset
    case End => r.size + offset
    case Invalid => -1
  }

  function Seek(r: Reader, offset: int, whence: Whence): Outcome {
    if r.closed then Outcome(r, [], Some(Closed))
    else if Target(r, offset, whence) < 0 then Outcome(r, [], Some(BadSeek))
    else Outcome(r.(pos := Target(r, offset, whence), body := None), [], None)
  }

  /* ---- One call ---- */

  /** A Read hands over exactly the bytes it moves past, except when it reports a shrunken object;
      end of file is reported only at or past the end, and no byte beyond the end is delivered. */
  lemma ReadDelivers(r: Reader, content: seq<byte>, cap: nat, reply: Reply)
    requires ValidBody(r, content) && (Fetches(r) ==> Possible(r, content, cap, reply))
    ensures var o := Read(r, content, cap, reply);
      && ValidBody(o.reader, content) && |o.data| <= cap && o.reader.size == r.size
      && r.pos <= o.reader.pos && (r.pos <= r.size && r.pos <= |content| ==> o.reader.pos <= r.size && o.reader.pos <= |content|)
      && (o.err != Some(Shrunk) && r.pos <= |content| ==> o.data == content[r.pos..o.reader.pos])
      && (o.err == Some(EndOfFile) ==> o.reader.pos >= r.size)
      && (Fetches(r) && reply.Chunk? && reply.ending.Eof? ==> o.reader.body.None?)
      && (o.err.None? && cap > 0 && Fetches(r) ==> Measure(o.reader, Measure0(r)))
  {
  }

  /** The lexicographic measure of a drain: bytes to go, then ended responses still tolerated. */
  function Measure0(r: Reader): (int, int) {
    (r.size - r.pos, 4 - r.emptyReads)
  }

  predicate Measure(r: Reader, was: (int, int)) {
    r.size - r.pos < was.0 || (r.size - r.pos == was.0 && 4 - r.emptyReads < was.1)
  }

  /* ---- Any mix of Seek and Read ---- */

  datatype Call = ReadCall(cap: nat, reply: Reply) | SeekCall(offset: int, whence: Whence)

  predicate Allowed(r: Reader, content: seq<byte>, call: Call) {
    call.ReadCall? && Fetches(r) ==> Possible(r, content, call.cap, call.reply)
  }

  function Perform(r: Reader, content: seq<byte>, call: Call): Outcome
    requires Allowed(r, content, call)
  {
    match call
    case ReadCall(cap, reply) => Read(r, content, cap, reply)
    case SeekCall(offset, whence) => Seek(r, offset, whence)
  }

  ghost predicate Run(r: Reader, content: seq<byte>, calls: seq<Call>)
    decreases |calls|
  {
    calls == [] || (Allowed(r, content, calls[0]) && Run(Perform(r, content, calls[0]).reader, content, calls[1..]))
  }

  /** A plain byte array with a cursor, told how many bytes each read returned. */
  datatype Cursor = Cursor(pos: nat)

  ghost predicate ArrayAgrees(c: Cursor, size: nat, content: seq<byte>, call: Call, o: Outcome) {
    match call
    case SeekCall(offset, whence) =>
      var target := match whence
        case Start => offset
        case Current => c.pos + offset
        case End => size + offset
        case Invalid => -1;
      if target < 0 then o.err == Some(BadSeek) else o.err.None?
    case ReadCall(cap, reply) =>
      if c.pos >= size then
        o.err == Some(EndOfFile) && o.data == []
      else (
        && c.pos + |o.data| <= size
        && (o.data != [] ==> c.pos + |o.data| <= |content| && o.data == content[c.pos..c.pos + |o.data|])
        && (o.err == Some(EndOfFile) ==> c.pos + |o.data| == size))
  }

  ghost function CursorAfter(c: Cursor, size: nat, call: Call, o: Outcome): Cursor {
    match call
    case ReadCall(_, _) => Cursor(c.pos + |o.data|)
    case SeekCall(offset, whence) =>
      if o.err.Some? then c
      else match whence
        case Start => if offset >= 0 then Cursor(offset) else c
        case Current => if c.pos + offset >= 0 then Cursor(c.pos + offset) else c
        case End => if size + offset >= 0 then Cursor(size + offset) else c
        case Invalid => c
  }

  /** Every call of the run answers like the plain array, up to the first shrunken-object error. */
  ghost predicate LikeArray(r: Reader, c: Cursor, content: seq<byte>, calls: seq<Call>)
    requires Run(r, content, calls)
    decreases |calls|
  {
    calls == [] ||
      var o := Perform(r, content, calls[0]);
      o.err == Some(Shrunk) ||
        (ArrayAgrees(c, r.size, content, calls[0], o)
         && LikeArray(o.reader, CursorAfter(c, r.size, calls[0], o), content, calls[1..]))
  }

  /** For any truncated or empty responses and any mix of Seek and Read, the reader behaves as a plain
      byte array with a cursor at its own position. */
  lemma {:induction false} ReaderIsByteArray(r: Reader, content: seq<byte>, calls: seq<Call>)
    requires !r.closed && ValidBody(r, content) && Run(r, content, calls)
    ensures LikeArray(r, Cursor(r.pos), content, calls)
    decreases |calls|
  {
    if calls != [] {
      var o := Perform(r, content, calls[0]);
      if calls[0].ReadCall? { ReadDelivers(r, content, calls[0].cap, calls[0].reply); }
      if o.err != Some(Shrunk) {
        assert CursorAfter(Cursor(r.pos), r.size, calls[0], o) == Cursor(o.reader.pos);
        ReaderIsByteArray(o.reader, content, calls[1..]);
      }
    }
  }

  /* ---- When the object is reported as shrunken ---- */

  /** What a call shows of the responses: one that ended before the end of the object, one that is still open or
      broke off, or neither (a seek, a refused request, a read at or up to the end of the object). */
  datatype Mark = EarlyEnd | Progress | Neither

  function MarkOf(r: Reader, call: Call): Mark {
    if !call.ReadCall? || !Fetches(r) || call.reply.Refused? then Neither
    else if !call.reply.ending.Eof? then Progress
    else if r.pos + call.reply.n < r.size then EarlyEnd
    else Neither
  }

  ghost function After(r: Reader, content: seq<byte>, calls: seq<Call>): Reader
    requires Run(r, content, calls)
    decreases |calls|
  {
    if calls == [] then r else After(Perform(r, content, calls[0]).reader, content, calls[1..])
  }

  ghost function Marks(r: Reader, content: seq<byte>, calls: seq<Call>): seq<Mark>
    requires Run(r, content, calls)
    decreases |calls|
  {
    if calls == [] then []
    else [MarkOf(r, calls[0])] + Marks(Perform(r, content, calls[0]).reader, content, calls[1..])
  }

  function EarlyEnds(marks: seq<Mark>): nat {
    if marks == [] then 0 else (if marks[0].EarlyEnd? then 1 else 0) + EarlyEnds(marks[1..])
  }

  /** How many responses ended early since the last one that did not end. */
  function EndsSinceProgress(marks: seq<Mark>): nat {
    EarlyEnds(marks[LastProgress(marks)..])
  }

  /** The position after the last Progress. */
  function LastProgress(marks: seq<Mark>): (p: nat)
    ensures p <= |marks| && Progress !in marks[p..] && (p > 0 ==> marks[p - 1] == Progress)
  {
    if Progress !in marks then 0 else 1 + LastProgress(marks[1..])
  }

  lemma {:induction false} OneMoreMark(marks: seq<Mark>, m: Mark)
    ensures EndsSinceProgress([m] + marks) == EndsSinceProgress(marks)
      + (if Progress !in marks && m == EarlyEnd then 1 else 0)
  {
    var all := [m] + marks;
    assert all[1..] == marks;
    if Progress in all {
      assert all[LastProgress(all)..] == marks[LastProgress(all) - 1..];
      if Progress !in marks { assert LastProgress(marks[0..]) == 0 && marks[0..] == marks; }
    } else {
      assert all[0..] == all && marks[0..] == marks;
    }
  }

  /** The counter holds, in every reachable state, the number of early ends since the last response that did not
      end, on top of what it was before when there was none. */
  lemma {:induction false} CounterIsEndsSinceProgress(r: Reader, content: seq<byte>, calls: seq<Call>)
    requires Run(r, content, calls)
    ensures var marks := Marks(r, content, calls);
      After(r, content, calls).emptyReads ==
        EndsSinceProgress(marks) + (if Progress in marks then 0 else r.emptyReads)
    decreases |calls|
  {
    if calls != [] {
      var next := Perform(r, content, calls[0]).reader;
      CounterIsEndsSinceProgress(next, content, calls[1..]);
      OneMoreMark(Marks(next, content, calls[1..]), MarkOf(r, calls[0]));
    }
  }

  /** Over every run of a fresh reader: a call reports a shrunken object if and only if its response ends early and
      at least three others did since the last response that did not end. Seeks and reads up to the end of the
      object in between make no difference. The bytes that came with the fatal end are dropped. */
  lemma ShrunkExactly(size: nat, content: seq<byte>, calls: seq<Call>, call: Call)
    requires Run(Opened(size), content, calls) && Allowed(After(Opened(size), content, calls), content, call)
    ensures var r := After(Opened(size), content, calls);
      var o := Perform(r, content, call);
      && (o.err == Some(Shrunk) <==>
            MarkOf(r, call) == EarlyEnd && EndsSinceProgress(Marks(Opened(size), content, calls)) >= 3)
      && (o.err == Some(Shrunk) ==> o.data == [] && o.reader.pos == r.pos + call.reply.n)
  {
    CounterIsEndsSinceProgress(Opened(size), content, calls);
  }

  /** Four responses of one byte each, each byte arriving together with the end of its response: the
      reader makes progress every time, still reports a shrunken object, and drops the fourth byte. */
  lemma ProgressIsCountedAsEmpty(content: seq<byte>)
    requires |content| == 5
    ensures var r0 := Opened(5);
      var r1 := Read(r0, content, 8, Chunk(1, 1, Eof));
      var r2 := Read(r1.reader, content, 8, Chunk(2, 1, Eof));
      var r3 := Read(r2.reader, content, 8, Chunk(3, 1, Eof));
      var r4 := Read(r3.reader, content, 8, Chunk(4, 1, Eof));
      && r1.data + r2.data + r3.data == content[..3]
      && r4.err == Some(Shrunk) && r4.data == [] && r4.reader.pos == 4
  {
  }

  /** Reading to the end and starting over does not clear the counter: three early ends, a read that delivers the
      rest of the object, a seek to the start and one more early end are reported as a shrunken object. */
  lemma RereadIsReportedShrunk(content: seq<byte>)
    requires |content| == 5
    ensures var r1 := Read(Opened(5), content, 8, Chunk(1, 1, Eof));
      var r2 := Read(r1.reader, content, 8, Chunk(2, 1, Eof));
      var r3 := Read(r2.reader, content, 8, Chunk(3, 1, Eof));
      var r4 := Read(r3.reader, content, 8, Chunk(5, 2, Eof));
      var r5 := Seek(r4.reader, 0, Start);
      var r6 := Read(r5.reader, content, 8, Chunk(1, 1, Eof));
      && r1.data + r2.data + r3.data + r4.data == content && r4.err == Some(EndOfFile)
      && r5.err.None? && r6.err == Some(Shrunk) && r6.data == []
  {
  }

  /** What a sequence of successful Reads hands over, and the reader it leaves; None if one of them fails. */
  ghost function Pull(r: Reader, content: seq<byte>, calls: seq<Call>): Option<(Reader, seq<byte>)> {
    if calls == [] then Some((r, []))
    else
      var call := calls[|calls| - 1];
      match Pull(r, content, calls[..|calls| - 1])
      case None => None
      case Some((m, data)) =>
        if call.ReadCall? && Allowed(m, content, call) && Perform(m, content, call).err.None?
        then Some((Perform(m, content, call).reader, data + Perform(m, content, call).data))
        else None
  }

  lemma PullOneMore(r: Reader, content: seq<byte>, calls: seq<Call>, call: Call, m: Reader, data: seq<byte>)
    requires Pull(r, content, calls) == Some((m, data))
    requires call.ReadCall? && Allowed(m, content, call) && Perform(m, content, call).err.None?
    ensures Pull(r, content, calls + [call])
      == Some((Perform(m, content, call).reader, data + Perform(m, content, call).data))
  {
    assert (calls + [call])[..|calls|] == calls;
  }

  /** Reads that succeed, then `last` with the error: together they have handed over `all` and left reader `now`. */
  ghost predicate Drained(r: Reader, content: seq<byte>, calls: seq<Call>, last: Call, now: Reader, all: seq<byte>, err: Error) {
    match Pull(r, content, calls)
    case None => false
    case Some((m, data)) =>
      last.ReadCall? && Allowed(m, content, last)
      && var o := Perform(m, content, last);
         o.err == Some(err) && o.reader == now && all == data + o.data
  }

  lemma LastPull(r: Reader, content: seq<byte>, calls: seq<Call>, last: Call, m: Reader, data: seq<byte>, now: Reader,
    more: seq<byte>, err: Error)
    requires Pull(r, content, calls) == Some((m, data)) && last.ReadCall? && Allowed(m, content, last)
    requires Perform(m, content, last) == Outcome(now, more, Some(err))
    ensures Drained(r, content, calls, last, now, data + more, err)
  {
  }

  lemma Adjacent(content: seq<byte>, a: nat, b: nat, c: nat)
    requires a <= b <= c <= |content|
    ensures content[a..b] + content[b..c] == content[a..c]
  {
  }

  /* ---- The reader ---- */

  class S3Object {
    const content: seq<byte>
    const size: nat
    var pos: nat
    var body: Option<nat>
    var closed: bool
    var emptyReads: nat

    ghost function View(): Reader
      reads this
    {
      Reader(size, pos, body, closed, emptyReads)
    }

    ghost predicate Valid()
      reads this
    {
      ValidBody(View(), content) && (closed ==> body.None?)
    }

    constructor (content: seq<byte>, size: nat)
      ensures Valid() && View() == Opened(size) && this.content == content
    {
      this.content, this.size := content, size;
      pos, body, closed, emptyReads := 0, None, false, 0;
    }

    method ReadInto(cap: nat, reply: Reply) returns (data: seq<byte>, err: Option<Error>)
      requires Valid() && (Fetches(View()) ==> Possible(View(), content, cap, reply))
      modifies this
      ensures Valid()
      ensures Outcome(View(), data, err) == Read(old(View()), content, cap, reply)
    {
      if closed { return [], Some(Closed); }
      if pos >= size { return [], Some(EndOfFile); }
      if body.None? {
        if reply.Refused? { return [], Some(Transport); }
        body := Some(reply.until);
      }
      var n := reply.n;
      data := content[pos..pos + n];
      pos := pos + n;
      if reply.ending.Eof? {
        CloseBody();
        if pos >= size { return data, Some(EndOfFile); }
        emptyReads := emptyReads + 1;
        if emptyReads > 3 { return [], Some(Shrunk); }
        return data, None;
      }
      emptyReads := 0;
      return data, if reply.ending.Fault? then Some(Transport) else None;
    }

    method CloseBody()
      modifies this`body
      ensures body.None?
    {
      if body.Some? { body := None; }
    }

    method SeekTo(offset: int, whence: Whence) returns (next: int, err: Option<Error>)
      requires Valid()
      modifies this
      ensures Valid()
      ensures View() == Seek(old(View()), offset, whence).reader && err == Seek(old(View()), offset, whence).err
      ensures err.None? ==> next == pos
    {
      if closed { return 0, Some(Closed); }
      match whence {
        case Start => next := offset;
        case Current => next := pos + offset;
        case End => next := size + offset;
        case Invalid => return 0, Some(BadSeek);
      }
      if next < 0 { return 0, Some(BadSeek); }
      pos := next;
      CloseBody();
      return next, None;
    }

    method Close()
      requires Valid()
      modifies this
      ensures Valid() && closed && body.None?
      ensures old(closed) ==> View() == old(View())
    {
      if closed { return; }
      closed := true;
      CloseBody();
    }

    /** Reading to the end with a buffer of `cap` bytes, whatever the server does: it terminates, and
        has delivered everything up to the end or stopped at an error after a prefix. What it returns is what its
        Reads, `calls` and then `last`, have handed over, and the error is that of the first Read that has one. */
    method Drain(cap: nat) returns (all: seq<byte>, err: Error, ghost calls: seq<Call>, ghost last: Call)
      requires Valid() && !closed && cap > 0 && pos <= size && pos <= |content|
      modifies this
      ensures Valid() && old(pos) + |all| <= pos <= |content|
      ensures all == content[old(pos)..old(pos) + |all|]
      ensures err == EndOfFile ==> pos == size && old(pos) + |all| == size
      ensures err != EndOfFile ==> err == Transport || err == Shrunk
      ensures Drained(old(View()), content, calls, last, View(), all, err)
    {
      all, calls := [], [];
      while true
        invariant Valid() && !closed && old(pos) <= pos <= size && pos <= |content|
        invariant all == content[old(pos)..pos]
        invariant Pull(old(View()), content, calls) == Some((View(), all))
        decreases size - pos, 4 - emptyReads
      {
        ghost var was, had := View(), all;
        var data, e;
        data, e, last := Fetch(cap);
        if e.Some? { LastPull(old(View()), content, calls, last, was, had, View(), data, e.value); }
        if e == Some(Shrunk) { return all + data, Shrunk, calls, last; }
        Adjacent(content, old(pos), was.pos, pos);
        all := all + data;
        if e.Some? { return all, e.value, calls, last; }
        PullOneMore(old(View()), content, calls, last, was, had);
        calls := calls + [last];
      }
    }

    /** One Read of an open reader that is not past the end. */
    method Fetch(cap: nat) returns (data: seq<byte>, err: Option<Error>, ghost call: Call)
      requires Valid() && !closed && cap > 0 && pos <= size && pos <= |content|
      modifies this
      ensures Valid() && !closed && old(pos) <= pos <= size && pos <= |content|
      ensures call.ReadCall? && call.cap == cap && Allowed(old(View()), content, call)
      ensures Perform(old(View()), content, call) == Outcome(View(), data, err)
      ensures if err == Some(Shrunk) then data == [] else data == content[old(pos)..pos]
      ensures err == Some(EndOfFile) ==> pos == size
      ensures err.Some? ==> err.value == EndOfFile || err.value == Transport || err.value == Shrunk
      ensures err.None? ==> Measure(View(), old(Measure0(View())))
    {
      var reply := AnyReply(cap);
      ReadDelivers(View(), content, cap, reply);
      call := ReadCall(cap, reply);
      data, err := ReadInto(cap, reply);
    }

    /** An arbitrary choice of the server. */
    method AnyReply(cap: nat) returns (reply: Reply)
      requires Valid()
      ensures Fetches(View()) ==> Possible(View(), content, cap, reply)
    {
      if body.Some? {
        assert Possible(View(), content, cap, Chunk(body.value, 0, Fault));
      } else {
        assert Possible(View(), content, cap, Refused);
      }
      reply :| Possible(Reader(size, pos, body, closed, emptyReads), content, cap, reply);
    }
  }
}
