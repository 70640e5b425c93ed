/** The resumable newline-delimited JSON codec (crates/rmcp/src/transport/async_rw.rs).

    `CodecSpec` says what any prefix of a stream determines; `Codec` is the
    buffer-scanning decoder and encoder, proved against it.
  */
module CodecSpec {
  import opened Framing

  const USIZE_MAX: nat := 0xFFFF_FFFF_FFFF_FFFF

  /** What a prefix of a stream determines before its end is known: the events
      it completes, whether the line it ends in is already known to be too long,
      and otherwise the bytes of that line. */
  datatype Summary<T> = Summary(events: seq<Event<T>>, discarding: bool, pending: Bytes)

  function Scan<T>(maxLength: nat, parse: Bytes -> ParseResult<T>, discarding: bool, s: Bytes): Summary<T>
    decreases |s|
  {
    var n := FirstNewline(s);
    if n < |s| then
      var rest := Scan(maxLength, parse, false, s[n + 1..]);
      rest.(events := (if discarding then [] else [LineEvent(maxLength, parse, s[..n])]) + rest.events)
    else if discarding then Summary([], true, [])
    else if |s| > maxLength then Summary([MaxLineLengthExceeded], true, [])
    else Summary([], false, s)
  }

  function Prepend<T>(events: seq<Event<T>>, s: Summary<T>): Summary<T> {
    s.(events := events + s.events)
  }

  /** Everything observed from here on when nothing more arrives. */
  function ToEnd<T>(maxLength: nat, parse: Bytes -> ParseResult<T>, discarding: bool, s: Bytes): seq<Event<T>> {
    var sum := Scan(maxLength, parse, discarding, s);
    sum.events + if sum.discarding then [] else TailEvents(maxLength, parse, sum.pending)
  }

  /** The summary of a prefix, in terms of its lines and its tail. */
  function SummaryOf<T>(maxLength: nat, parse: Bytes -> ParseResult<T>, f: Framed): Summary<T> {
    var oversize := |f.tail| > maxLength;
    Summary(LineEvents(maxLength, parse, f.lines) + if oversize then [MaxLineLengthExceeded] else [],
            oversize, if oversize then [] else f.tail)
  }

  lemma {:induction false} ScanSplits<T>(maxLength: nat, parse: Bytes -> ParseResult<T>, s: Bytes)
    ensures Scan(maxLength, parse, false, s) == SummaryOf(maxLength, parse, SplitLines(s))
    decreases |s|
  {
    var n := FirstNewline(s);
    if n < |s| {
      ScanSplits(maxLength, parse, s[n + 1..]);
      SummaryOfCons(maxLength, parse, s[..n], SplitLines(s[n + 1..]));
    }
  }

  lemma SummaryOfCons<T>(maxLength: nat, parse: Bytes -> ParseResult<T>, line: Bytes, f: Framed)
    ensures SummaryOf(maxLength, parse, Framed([line] + f.lines, f.tail))
         == Prepend([LineEvent(maxLength, parse, line)], SummaryOf(maxLength, parse, f))
  {
    LineEventsCons(maxLength, parse, line, f.lines);
  }

  lemma LineEventsCons<T>(maxLength: nat, parse: Bytes -> ParseResult<T>, line: Bytes, lines: seq<Bytes>)
    ensures LineEvents(maxLength, parse, [line] + lines)
         == [LineEvent(maxLength, parse, line)] + LineEvents(maxLength, parse, lines)
  {
  }

  /** Reading a stream prefix by prefix and then its end is the one-shot reading. */
  lemma ToEndIsOneShot<T>(maxLength: nat, parse: Bytes -> ParseResult<T>, s: Bytes)
    ensures ToEnd(maxLength, parse, false, s) == OneShot(maxLength, parse, s)
  {
    ScanSplits(maxLength, parse, s);
  }

  /** Scanning the whole is scanning the prefix, and then the rest behind what it left pending. */
  ghost predicate Resumes<T>(maxLength: nat, parse: Bytes -> ParseResult<T>, discarding: bool, s: Bytes, more: Bytes) {
    var sum := Scan(maxLength, parse, discarding, s);
    Scan(maxLength, parse, discarding, s + more)
      == Prepend(sum.events, Scan(maxLength, parse, sum.discarding, sum.pending + more))
  }

  /** A prefix is remembered completely by its summary: scanning can stop
      anywhere and be taken up again from what was pending. */
  lemma {:induction false} ScanResumes<T>(
    maxLength: nat, parse: Bytes -> ParseResult<T>, discarding: bool, s: Bytes, more: Bytes)
    ensures Resumes(maxLength, parse, discarding, s, more)
    decreases |s|
  {
    var n := FirstNewline(s);
    if n < |s| {
      ScanResumes(maxLength, parse, false, s[n + 1..], more);
      ScanResumesLine(maxLength, parse, discarding, s, more);
    } else {
      ScanResumesTail(maxLength, parse, discarding, s, more);
    }
  }

  /** What the line before the first newline yields. */
  function FirstEvent<T>(maxLength: nat, parse: Bytes -> ParseResult<T>, discarding: bool, line: Bytes): seq<Event<T>> {
    if discarding then [] else [LineEvent(maxLength, parse, line)]
  }

  lemma ScanFirst<T>(maxLength: nat, parse: Bytes -> ParseResult<T>, discarding: bool, s: Bytes, n: nat)
    requires n == FirstNewline(s) < |s|
    ensures Scan(maxLength, parse, discarding, s)
         == Prepend(FirstEvent(maxLength, parse, discarding, s[..n]), Scan(maxLength, parse, false, s[n + 1..]))
  {
  }

  lemma ScanFirstGrown<T>(maxLength: nat, parse: Bytes -> ParseResult<T>, discarding: bool, s: Bytes, more: Bytes)
    requires FirstNewline(s) < |s|
    ensures
      var n := FirstNewline(s);
      Scan(maxLength, parse, discarding, s + more)
        == Prepend(FirstEvent(maxLength, parse, discarding, s[..n]), Scan(maxLength, parse, false, s[n + 1..] + more))
  {
    var n := FirstNewline(s);
    FirstNewlineGrows(s, more);
    ScanFirst(maxLength, parse, discarding, s + more, n);
    assert (s + more)[..n] == s[..n] && (s + more)[n + 1..] == s[n + 1..] + more;
  }

  lemma ScanResumesLine<T>(maxLength: nat, parse: Bytes -> ParseResult<T>, discarding: bool, s: Bytes, more: Bytes)
    requires FirstNewline(s) < |s|
    requires Resumes(maxLength, parse, false, s[FirstNewline(s) + 1..], more)
    ensures Resumes(maxLength, parse, discarding, s, more)
  {
    var n := FirstNewline(s);
    var rest := Scan(maxLength, parse, false, s[n + 1..]);
    ScanFirst(maxLength, parse, discarding, s, n);
    ScanFirstGrown(maxLength, parse, discarding, s, more);
    PrependPrepend(FirstEvent(maxLength, parse, discarding, s[..n]), rest.events,
                   Scan(maxLength, parse, rest.discarding, rest.pending + more));
  }

  lemma ScanResumesTail<T>(maxLength: nat, parse: Bytes -> ParseResult<T>, discarding: bool, s: Bytes, more: Bytes)
    requires FirstNewline(s) == |s|
    ensures Resumes(maxLength, parse, discarding, s, more)
  {
    FirstNewlineGrows(s, more);
    PrependPrepend([], [], Scan(maxLength, parse, discarding, s + more));
    if discarding || |s| > maxLength {
      assert [] + more == more == (s + more)[|s|..];
      SkipOversize(maxLength, parse, s + more, |s|);
      if !discarding {
        ReportOversize(maxLength, parse, s + more);
      }
    }
  }

  lemma PrependPrepend<T>(e0: seq<Event<T>>, e1: seq<Event<T>>, s: Summary<T>)
    ensures Prepend(e0, Prepend(e1, s)) == Prepend(e0 + e1, s)
    ensures Prepend([], s) == s
  {
    assert e0 + (e1 + s.events) == (e0 + e1) + s.events;
  }

  /** The rest of an oversize line ends in the buffer. */
  lemma EndOversize<T>(maxLength: nat, parse: Bytes -> ParseResult<T>, s: Bytes, n: nat)
    requires n == FirstNewline(s) < |s|
    ensures Scan(maxLength, parse, true, s) == Scan(maxLength, parse, false, s[n + 1..])
  {
    PrependPrepend([], [], Scan(maxLength, parse, false, s[n + 1..]));
  }

  lemma NoEndOversize<T>(maxLength: nat, parse: Bytes -> ParseResult<T>, s: Bytes)
    requires FirstNewline(s) == |s|
    ensures Scan(maxLength, parse, true, s) == Summary([], true, [])
  {
  }

  lemma DropDrop<T>(s: seq<T>, n: nat, k: nat)
    requires n + k <= |s|
    ensures s[n..][k..] == s[n + k..]
  {
  }

  /** Two oversize lines with the same bytes behind them. */
  lemma SameAfterLine<T>(maxLength: nat, parse: Bytes -> ParseResult<T>, s: Bytes, m: nat, t: Bytes, k: nat)
    requires m == FirstNewline(s) < |s| && k == FirstNewline(t) < |t| && s[m + 1..] == t[k + 1..]
    ensures Scan(maxLength, parse, true, s) == Scan(maxLength, parse, true, t)
  {
    EndOversize(maxLength, parse, s, m);
    EndOversize(maxLength, parse, t, k);
  }

  lemma SameWithoutLine<T>(maxLength: nat, parse: Bytes -> ParseResult<T>, s: Bytes, t: Bytes)
    requires FirstNewline(s) == |s| && FirstNewline(t) == |t|
    ensures Scan(maxLength, parse, true, s) == Scan(maxLength, parse, true, t)
  {
    NoEndOversize(maxLength, parse, s);
    NoEndOversize(maxLength, parse, t);
  }

  /** Bytes of an oversize line are dropped without a trace. */
  lemma SkipOversize<T>(maxLength: nat, parse: Bytes -> ParseResult<T>, s: Bytes, n: nat)
    requires n <= FirstNewline(s)
    ensures Scan(maxLength, parse, true, s) == Scan(maxLength, parse, true, s[n..])
  {
    FirstNewlineFrom(s, n);
    var m := FirstNewline(s);
    if m < |s| {
      DropDrop(s, n, m - n + 1);
      SameAfterLine(maxLength, parse, s, m, s[n..], m - n);
    } else {
      SameWithoutLine(maxLength, parse, s, s[n..]);
    }
  }

  /** Dropping bytes of an oversize line, with or without its newline. */
  lemma DropOversize<T>(maxLength: nat, parse: Bytes -> ParseResult<T>, s: Bytes, n: nat, lineEnds: bool)
    requires n <= |s| && if lineEnds then n == FirstNewline(s) + 1 else n <= FirstNewline(s)
    ensures Scan(maxLength, parse, !lineEnds, s[n..]) == Scan(maxLength, parse, true, s)
  {
    if lineEnds {
      EndOversize(maxLength, parse, s, n - 1);
    } else {
      SkipOversize(maxLength, parse, s, n);
    }
  }

  /** A line already longer than allowed is reported once and then discarded. */
  lemma ReportOversize<T>(maxLength: nat, parse: Bytes -> ParseResult<T>, s: Bytes)
    requires FirstNewline(s) > maxLength
    ensures Scan(maxLength, parse, false, s) == Prepend([MaxLineLengthExceeded], Scan(maxLength, parse, true, s))
  {
  }

  /** A line that ends in the buffer is yielded. */
  lemma TakeLine<T>(maxLength: nat, parse: Bytes -> ParseResult<T>, s: Bytes, n: nat)
    requires n == FirstNewline(s) < |s|
    ensures Scan(maxLength, parse, false, s)
         == Prepend([LineEvent(maxLength, parse, s[..n])], Scan(maxLength, parse, false, s[n + 1..]))
  {
  }

  /** The state in which `decode` answers "need more": nothing is left to yield. */
  ghost predicate Drained(maxLength: nat, discarding: bool, buf: Bytes) {
    if discarding then buf == [] else FirstNewline(buf) == |buf| <= maxLength
  }

  /** Yielding `events` on the way does not change what the end of the stream brings. */
  lemma ToEndAfter<T>(maxLength: nat, parse: Bytes -> ParseResult<T>,
                      d0: bool, b0: Bytes, events: seq<Event<T>>, d1: bool, b1: Bytes)
    requires Scan(maxLength, parse, d0, b0) == Prepend(events, Scan(maxLength, parse, d1, b1))
    ensures ToEnd(maxLength, parse, d0, b0) == events + ToEnd(maxLength, parse, d1, b1)
  {
  }

  lemma ToEndOfSummary<T>(maxLength: nat, parse: Bytes -> ParseResult<T>, s: Bytes)
    ensures
      var sum := Scan(maxLength, parse, false, s);
      ToEnd(maxLength, parse, false, s) == sum.events + ToEnd(maxLength, parse, sum.discarding, sum.pending)
  {
    ScanResumes(maxLength, parse, false, s, []);
    var sum := Scan(maxLength, parse, false, s);
    assert s + [] == s && sum.pending + [] == sum.pending;
    ToEndAfter(maxLength, parse, false, s, sum.events, sum.discarding, sum.pending);
  }

  lemma ToEndDrained<T>(maxLength: nat, parse: Bytes -> ParseResult<T>, discarding: bool, buf: Bytes)
    requires Drained(maxLength, discarding, buf)
    ensures Scan(maxLength, parse, discarding, buf) == Summary([], discarding, buf)
    ensures ToEnd(maxLength, parse, discarding, buf) == if discarding then [] else TailEvents(maxLength, parse, buf)
  {
  }

  /** The stream that carries `items`, one serialization and a newline each. */
  function Encoded<T>(ser: T -> Bytes, items: seq<T>): Bytes {
    Join(seq(|items|, k requires 0 <= k < |items| => ser(items[k])))
  }

  /** What a serialization must satisfy for its line to come back. */
  ghost predicate Framable<T>(maxLength: nat, parse: Bytes -> ParseResult<T>, ser: T -> Bytes, item: T) {
    var s := ser(item);
    && NoNewline(s)
    && |s| <= maxLength
    && (s != [] ==> s[|s| - 1] != CARRIAGE_RETURN)
    && parse(s) == Parsed(item)
  }

  /** Encoding and then decoding is the identity, and leaves the decoder as it was. */
  lemma RoundTrip<T>(maxLength: nat, parse: Bytes -> ParseResult<T>, ser: T -> Bytes, items: seq<T>)
    requires forall k :: 0 <= k < |items| ==> Framable(maxLength, parse, ser, items[k])
    ensures
      var events := seq(|items|, k requires 0 <= k < |items| => Item(items[k]));
      && Scan(maxLength, parse, false, Encoded(ser, items)) == Summary(events, false, [])
      && OneShot(maxLength, parse, Encoded(ser, items)) == events
  {
    var lines := seq(|items|, k requires 0 <= k < |items| => ser(items[k]));
    var s := Encoded(ser, items);
    assert Join(lines) + [] == s;
    SplitLinesUnique(lines, []);
    ScanSplits(maxLength, parse, s);
    LineEventsOfItems(maxLength, parse, ser, items, lines);
  }

  lemma LineEventsOfItems<T>(
    maxLength: nat, parse: Bytes -> ParseResult<T>, ser: T -> Bytes, items: seq<T>, lines: seq<Bytes>)
    requires forall k :: 0 <= k < |items| ==> Framable(maxLength, parse, ser, items[k])
    requires lines == seq(|items|, k requires 0 <= k < |items| => ser(items[k]))
    ensures LineEvents(maxLength, parse, lines) == seq(|items|, k requires 0 <= k < |items| => Item(items[k]))
  {
    forall k | 0 <= k < |items|
      ensures LineEvent(maxLength, parse, lines[k]) == Item(items[k])
    {
      assert Framable(maxLength, parse, ser, items[k]);
    }
  }

  /** The stream that carries these texts as lines ended by carriage return and newline. */
  function Crlf(texts: seq<Bytes>): Bytes {
    Join(seq(|texts|, k requires 0 <= k < |texts| => texts[k] + [CARRIAGE_RETURN]))
  }

  lemma CrlfEvent<T>(maxLength: nat, parse: Bytes -> ParseResult<T>, text: Bytes)
    requires |text| + 1 <= maxLength
    ensures LineEvent(maxLength, parse, text + [CARRIAGE_RETURN]) == EventOf(parse(text))
  {
    assert (text + [CARRIAGE_RETURN])[..|text|] == text;
  }

  /** Lines ended by carriage return and newline are parsed without either. */
  lemma CrlfLines<T>(maxLength: nat, parse: Bytes -> ParseResult<T>, texts: seq<Bytes>)
    requires forall k :: 0 <= k < |texts| ==> NoNewline(texts[k]) && |texts[k]| + 1 <= maxLength
    ensures Scan(maxLength, parse, false, Crlf(texts))
         == Summary(seq(|texts|, k requires 0 <= k < |texts| => EventOf(parse(texts[k]))), false, [])
  {
    var lines := seq(|texts|, k requires 0 <= k < |texts| => texts[k] + [CARRIAGE_RETURN]);
    assert Join(lines) + [] == Crlf(texts);
    SplitLinesUnique(lines, []);
    ScanSplits(maxLength, parse, Crlf(texts));
    CrlfEvents(maxLength, parse, texts, lines);
  }

  lemma CrlfEvents<T>(maxLength: nat, parse: Bytes -> ParseResult<T>, texts: seq<Bytes>, lines: seq<Bytes>)
    requires forall k :: 0 <= k < |texts| ==> |texts[k]| + 1 <= maxLength
    requires lines == seq(|texts|, k requires 0 <= k < |texts| => texts[k] + [CARRIAGE_RETURN])
    ensures LineEvents(maxLength, parse, lines) == seq(|texts|, k requires 0 <= k < |texts| => EventOf(parse(texts[k])))
  {
    forall k | 0 <= k < |texts|
      ensures LineEvent(maxLength, parse, lines[k]) == EventOf(parse(texts[k]))
    {
      CrlfEvent(maxLength, parse, texts[k]);
    }
  }
}

module Codec {
  import opened Framing
  import opened CodecSpec

  /** The growable byte buffer the codec consumes from the front. */
  class BytesMut {
    var data: Bytes

    constructor ()
      ensures data == []
    {
      data := [];
    }

    method Advance(count: nat)
      requires count <= |data|
      modifies this
      ensures data == old(data)[count..]
    {
      data := data[count..];
    }

    method SplitTo(at: nat) returns (front: Bytes)
      requires at <= |data|
      modifies this
      ensures front == old(data)[..at] && data == old(data)[at..]
    {
      front, data := data[..at], data[at..];
    }

    method Put(bytes: Bytes)
      modifies this
      ensures data == old(data) + bytes
    {
      data := data + bytes;
    }
  }

  /** `Result<Option<T>, JsonRpcMessageCodecError>` */
  datatype Decoded<T> = NeedMore | Frame(item: T) | Failed(event: Event<T>)
  {
    function Events(): seq<Event<T>> {
      if NeedMore? then [] else [if Frame? then Item(item) else event]
    }
  }

  function DecodedOf<T>(p: ParseResult<T>): (r: Decoded<T>)
    ensures r.Events() == [EventOf(p)]
  {
    match p
    case Parsed(v) => Frame(v)
    case Malformed(e) => Failed(SerdeError(e))
  }

  /** A search that starts at or before the first newline, and stops early, finds it or nothing. */
  lemma SearchResumes(s: Bytes, start: nat, end: nat)
    requires start <= end <= |s| && start <= FirstNewline(s)
    ensures start + FirstNewline(s[start..end]) == if FirstNewline(s) < end then FirstNewline(s) else end
  {
    FirstNewlineFrom(s, start);
    assert s[start..] == s[start..end] + s[end..];
    FirstNewlineGrows(s[start..end], s[end..]);
  }

  /** Serialization straight into the buffer can fail after part of it was written. */
  datatype Serialized = Written(bytes: Bytes) | Interrupted(partial: Bytes, error: string)

  /** The scan for a newline; `steps` counts the bytes it looks at. */
  method Position(s: Bytes) returns (offset: nat, ghost steps: nat)
    ensures offset == FirstNewline(s)
    ensures steps == if offset < |s| then offset + 1 else |s|
  {
    offset, steps := 0, 0;
    while offset < |s|
      invariant offset <= |s| && steps == offset
      invariant FirstNewline(s) == NewlineFrom(s, offset)
    {
      steps := steps + 1;
      if s[offset] == NEWLINE {
        return;
      }
      offset := offset + 1;
    }
  }

  class JsonRpcMessageCodec<T> {
    const parse: Bytes -> ParseResult<T>
    const maxLength: nat
    var nextIndex: nat
    var isDiscarding: bool
    /** Bytes looked at by newline searches so far. */
    ghost var scanned: nat
    /** Set while the buffer starts with the oversize prefix that was just reported. */
    ghost var reported: bool

    constructor (maxLength: nat, parse: Bytes -> ParseResult<T>)
      requires maxLength <= USIZE_MAX
      ensures this.maxLength == maxLength && this.parse == parse
      ensures nextIndex == 0 && !isDiscarding && scanned == 0 && !reported
    {
      this.maxLength := maxLength;
      this.parse := parse;
      nextIndex, isDiscarding := 0, false;
      scanned, reported := 0, false;
    }

    /** `self.max_length.saturating_add(1)`, capped by the buffer. */
    function ReadLimit(len: nat): (r: nat) {
      var limit := if maxLength == USIZE_MAX then USIZE_MAX else maxLength + 1;
      if limit < len then limit else len
    }

    /** A buffer is never longer than a `usize` can say. */
    predicate Fits(len: nat) {
      maxLength <= USIZE_MAX && (maxLength == USIZE_MAX ==> len <= USIZE_MAX)
    }

    /** The remembered offset stays inside the search window and no newline lies before it. */
    ghost predicate Valid(buf: BytesMut)
      reads this, buf
    {
      && Fits(|buf.data|)
      && nextIndex <= ReadLimit(|buf.data|)
      && nextIndex <= FirstNewline(buf.data)
      && (reported ==> isDiscarding && FirstNewline(buf.data) > maxLength)
      && (isDiscarding && !reported ==> nextIndex == 0)
    }

    /** Bytes already looked at plus two looks for each byte still buffered, less
        the looks those bytes have had: one, before the remembered offset or in an
        oversize prefix. Never rising means no byte is looked at more than twice. */
    ghost function Looks(buf: BytesMut): int
      reads this, buf
    {
      scanned + 2 * |buf.data| - if reported then maxLength + 1 else nextIndex
    }

    /** More bytes behind a drained buffer leave the remembered offset right. */
    lemma StaysValid(buf: BytesMut, before: Bytes, chunk: Bytes)
      requires buf.data == before + chunk && Fits(|buf.data|)
      requires Drained(maxLength, isDiscarding, before) && nextIndex == |before| && !reported
      ensures Valid(buf)
    {
      FirstNewlineGrows(before, chunk);
    }

    /** What strictly decreases with every frame or error `decode` yields. */
    ghost function Backlog(buf: BytesMut): nat
      reads this, buf
    {
      2 * |buf.data| + if isDiscarding then 0 else 1
    }

    /** Looks for a newline from the remembered offset to the search limit. */
    method Search(buf: BytesMut) returns (readTo: nat, newline: nat)
      requires Valid(buf)
      modifies this`scanned
      ensures readTo == ReadLimit(|buf.data|)
      ensures newline == if FirstNewline(buf.data) < readTo then FirstNewline(buf.data) else readTo
      ensures scanned == old(scanned) + (if newline < readTo then newline + 1 else readTo) - nextIndex
    {
      readTo := ReadLimit(|buf.data|);
      SearchResumes(buf.data, nextIndex, readTo);
      var offset, steps := Position(buf.data[nextIndex..readTo]);
      scanned := scanned + steps;
      newline := offset + nextIndex;
    }

    /** Drops the first `count` bytes, all of them part of an oversize line. */
    method Discard(buf: BytesMut, count: nat, lineEnds: bool)
      requires Valid(buf) && isDiscarding && count <= |buf.data|
      requires if lineEnds then count == FirstNewline(buf.data) + 1 else count <= FirstNewline(buf.data)
      modifies this`isDiscarding, this`reported, this`nextIndex, buf
      ensures isDiscarding == !lineEnds && !reported && nextIndex == 0
      ensures Valid(buf) && |buf.data| == old(|buf.data|) - count
      ensures Scan(maxLength, parse, isDiscarding, buf.data) == Scan(maxLength, parse, true, old(buf.data))
    {
      DropOversize(maxLength, parse, buf.data, count, lineEnds);
      buf.Advance(count);
      isDiscarding, reported, nextIndex := !lineEnds, false, 0;
    }

    /** Splits off the first line and parses it. */
    method TakeFrame(buf: BytesMut, newlineIndex: nat) returns (r: Decoded<T>)
      requires Valid(buf) && !isDiscarding && newlineIndex == FirstNewline(buf.data) < |buf.data|
      requires newlineIndex <= maxLength
      modifies this`nextIndex, buf
      ensures nextIndex == 0
      ensures Valid(buf) && |buf.data| == old(|buf.data|) - newlineIndex - 1
      ensures !r.NeedMore?
      ensures Scan(maxLength, parse, false, old(buf.data))
           == Prepend(r.Events(), Scan(maxLength, parse, false, buf.data))
    {
      ghost var before := buf.data;
      TakeLine(maxLength, parse, before, newlineIndex);
      nextIndex := 0;
      var line := buf.SplitTo(newlineIndex + 1);
      line := line[..|line| - 1];
      assert line == before[..newlineIndex];
      r := DecodedOf(parse(WithoutCarriageReturn(line)));
      assert r.Events() == [LineEvent(maxLength, parse, line)];
    }

    /** Reports the line at the front as too long; its bytes go in the next call. */
    method Report(buf: BytesMut) returns (r: Decoded<T>)
      requires Valid(buf) && !isDiscarding && FirstNewline(buf.data) > maxLength
      modifies this`isDiscarding, this`reported
      ensures isDiscarding && reported && Valid(buf)
      ensures r == Failed(MaxLineLengthExceeded)
      ensures Scan(maxLength, parse, false, buf.data) == Prepend(r.Events(), Scan(maxLength, parse, true, buf.data))
    {
      ReportOversize(maxLength, parse, buf.data);
      isDiscarding, reported := true, true;
      r := Failed(MaxLineLengthExceeded);
      assert r.Events() == [MaxLineLengthExceeded];
    }

    method Decode(buf: BytesMut) returns (r: Decoded<T>)
      requires Valid(buf)
      modifies this, buf
      ensures Valid(buf)
      ensures Scan(maxLength, parse, old(isDiscarding), old(buf.data))
           == Prepend(r.Events(), Scan(maxLength, parse, isDiscarding, buf.data))
      ensures r.NeedMore? ==> Drained(maxLength, isDiscarding, buf.data) && nextIndex == |buf.data|
      ensures !r.NeedMore? ==> Backlog(buf) < old(Backlog(buf))
      ensures Looks(buf) <= old(Looks(buf))
    {
      ghost var whole := Scan(maxLength, parse, isDiscarding, buf.data);
      ghost var backlog, looks := Backlog(buf), Looks(buf);
      PrependPrepend([], [], whole);
      while true
        invariant Valid(buf)
        invariant Scan(maxLength, parse, isDiscarding, buf.data) == whole
        invariant Backlog(buf) <= backlog && Looks(buf) <= looks
        decreases Backlog(buf)
      {
        var readTo, newline := Search(buf);
        if isDiscarding && newline < readTo {
          Discard(buf, newline + 1, true);
        } else if isDiscarding {
          Discard(buf, readTo, false);
          if buf.data == [] {
            return NeedMore;
          }
        } else if newline < readTo {
          r := TakeFrame(buf, newline);
          return;
        } else if |buf.data| > maxLength {
          r := Report(buf);
          return;
        } else {
          nextIndex := readTo;
          return NeedMore;
        }
      }
    }

    method DecodeEof(buf: BytesMut) returns (r: Decoded<T>)
      requires Valid(buf)
      modifies this, buf
      ensures Valid(buf)
      ensures ToEnd(maxLength, parse, old(isDiscarding), old(buf.data))
           == r.Events() + ToEnd(maxLength, parse, isDiscarding, buf.data)
      ensures r.NeedMore? ==> ToEnd(maxLength, parse, isDiscarding, buf.data) == []
      ensures r.NeedMore? ==> buf.data == [] || (buf.data == [CARRIAGE_RETURN] && !isDiscarding)
      ensures !r.NeedMore? ==> Backlog(buf) < old(Backlog(buf))
    {
      ghost var d0, b0 := isDiscarding, buf.data;
      r := Decode(buf);
      ToEndAfter(maxLength, parse, d0, b0, r.Events(), isDiscarding, buf.data);
      if r.NeedMore? {
        ToEndDrained(maxLength, parse, isDiscarding, buf.data);
        nextIndex := 0;
        if buf.data != [] && buf.data != [CARRIAGE_RETURN] {
          r := TakeTail(buf);
        }
      }
    }

    /** Parses what is left when there is no terminating newline. */
    method TakeTail(buf: BytesMut) returns (r: Decoded<T>)
      requires Fits(|buf.data|) && nextIndex == 0 && !reported && !isDiscarding
      requires buf.data != [] && buf.data != [CARRIAGE_RETURN] && |buf.data| <= maxLength
      modifies buf
      ensures Valid(buf) && buf.data == []
      ensures !r.NeedMore?
      ensures r.Events() == TailEvents(maxLength, parse, old(buf.data))
      ensures ToEnd(maxLength, parse, false, buf.data) == []
    {
      var line := buf.SplitTo(|buf.data|);
      assert line == old(buf.data);
      ToEndDrained(maxLength, parse, false, buf.data);
      r := DecodedOf(parse(WithoutCarriageReturn(line)));
    }
  }

  /** Calls `decode` until it needs more. */
  method DecodeAvailable<T>(codec: JsonRpcMessageCodec<T>, buf: BytesMut) returns (events: seq<Event<T>>)
    requires codec.Valid(buf)
    modifies codec, buf
    ensures codec.Valid(buf)
    ensures Scan(codec.maxLength, codec.parse, old(codec.isDiscarding), old(buf.data))
         == Summary(events, codec.isDiscarding, buf.data)
    ensures Drained(codec.maxLength, codec.isDiscarding, buf.data) && codec.nextIndex == |buf.data|
    ensures codec.Looks(buf) <= old(codec.Looks(buf))
  {
    events := [];
    ghost var whole := Scan(codec.maxLength, codec.parse, codec.isDiscarding, buf.data);
    PrependPrepend([], [], whole);
    while true
      invariant codec.Valid(buf)
      invariant whole == Prepend(events, Scan(codec.maxLength, codec.parse, codec.isDiscarding, buf.data))
      invariant codec.Looks(buf) <= old(codec.Looks(buf))
      decreases codec.Backlog(buf)
    {
      var r := codec.Decode(buf);
      PrependPrepend(events, r.Events(), Scan(codec.maxLength, codec.parse, codec.isDiscarding, buf.data));
      events := events + r.Events();
      if r.NeedMore? {
        ToEndDrained(codec.maxLength, codec.parse, codec.isDiscarding, buf.data);
        assert events + [] == events;
        return;
      }
    }
  }

  /** No chunk ever grows the buffer past what a `usize` can count. */
  ghost predicate ChunksFit<T>(maxLength: nat, parse: Bytes -> ParseResult<T>, chunks: seq<Bytes>) {
    maxLength == USIZE_MAX ==>
      forall k :: 0 <= k < |chunks| ==>
        |Scan(maxLength, parse, false, Flatten(chunks[..k])).pending + chunks[k]| <= USIZE_MAX
  }

  /** After any chunking of a prefix the decoder's output and its whole state
      depend on the prefix alone, and each byte was looked at twice at most. */
  method DecodeChunks<T>(
    codec: JsonRpcMessageCodec<T>, buf: BytesMut, chunks: seq<Bytes>) returns (events: seq<Event<T>>)
    requires buf.data == [] && codec.nextIndex == 0 && !codec.isDiscarding && !codec.reported && codec.scanned == 0
    requires codec.maxLength <= USIZE_MAX && ChunksFit(codec.maxLength, codec.parse, chunks)
    modifies codec, buf
    ensures codec.Valid(buf) && codec.nextIndex == |buf.data|
    ensures Scan(codec.maxLength, codec.parse, false, Flatten(chunks))
         == Summary(events, codec.isDiscarding, buf.data)
    ensures codec.scanned <= 2 * |Flatten(chunks)|
  {
    events := [];
    for k := 0 to |chunks|
      invariant codec.Valid(buf) && codec.nextIndex == |buf.data|
      invariant Drained(codec.maxLength, codec.isDiscarding, buf.data)
      invariant Scan(codec.maxLength, codec.parse, false, Flatten(chunks[..k]))
             == Summary(events, codec.isDiscarding, buf.data)
      invariant codec.Looks(buf) <= 2 * |Flatten(chunks[..k])|
    {
      FlattenPrefix(chunks, k);
      ScanResumes(codec.maxLength, codec.parse, false, Flatten(chunks[..k]), chunks[k]);
      ghost var before := buf.data;
      buf.Put(chunks[k]);
      codec.StaysValid(buf, before, chunks[k]);
      var more := DecodeAvailable(codec, buf);
      events := events + more;
    }
    assert chunks[..|chunks|] == chunks;
  }

  /** Calls `decode_eof` until it has nothing left. */
  method DecodeToEnd<T>(codec: JsonRpcMessageCodec<T>, buf: BytesMut) returns (events: seq<Event<T>>)
    requires codec.Valid(buf)
    modifies codec, buf
    ensures codec.Valid(buf)
    ensures events == ToEnd(codec.maxLength, codec.parse, old(codec.isDiscarding), old(buf.data))
    ensures buf.data == [] || buf.data == [CARRIAGE_RETURN]
  {
    events := [];
    ghost var all := ToEnd(codec.maxLength, codec.parse, codec.isDiscarding, buf.data);
    while true
      invariant codec.Valid(buf)
      invariant all == events + ToEnd(codec.maxLength, codec.parse, codec.isDiscarding, buf.data)
      decreases codec.Backlog(buf)
    {
      var r := codec.DecodeEof(buf);
      events := events + r.Events();
      if r.NeedMore? {
        return;
      }
    }
  }

  /** Any chunking of any stream, read to its end, is the one-shot reading. */
  method DecodeStream<T>(
    maxLength: nat, parse: Bytes -> ParseResult<T>, chunks: seq<Bytes>) returns (events: seq<Event<T>>)
    requires maxLength <= USIZE_MAX && ChunksFit(maxLength, parse, chunks)
    ensures events == OneShot(maxLength, parse, Flatten(chunks))
    ensures forall f: Framed :: Reads(f, Flatten(chunks)) ==> StreamYields(maxLength, parse, f, events)
  {
    OneShotYields(maxLength, parse, Flatten(chunks));
    var codec := new JsonRpcMessageCodec(maxLength, parse);
    var buf := new BytesMut();
    events := DecodeChunks(codec, buf, chunks);
    var rest := DecodeToEnd(codec, buf);
    events := events + rest;
    ToEndIsOneShot(maxLength, parse, Flatten(chunks));
    ToEndOfSummary(maxLength, parse, Flatten(chunks));
  }

  /** A stream of encoded items, however it is cut into chunks, comes back as those
      items and leaves the buffer empty, without waiting for the end of the stream. */
  method DecodeEncoded<T>(
    maxLength: nat, parse: Bytes -> ParseResult<T>, ser: T -> Bytes, items: seq<T>, chunks: seq<Bytes>)
    returns (events: seq<Event<T>>, left: Bytes)
    requires maxLength <= USIZE_MAX && ChunksFit(maxLength, parse, chunks)
    requires Flatten(chunks) == Encoded(ser, items)
    requires forall k :: 0 <= k < |items| ==> Framable(maxLength, parse, ser, items[k])
    ensures events == seq(|items|, k requires 0 <= k < |items| => Item(items[k]))
    ensures left == []
  {
    var codec := new JsonRpcMessageCodec(maxLength, parse);
    var buf := new BytesMut();
    events := DecodeChunks(codec, buf, chunks);
    RoundTrip(maxLength, parse, ser, items);
    left := buf.data;
  }

  /** Texts in lines ended by carriage return and newline are parsed without either,
      however the stream is cut into chunks, and leave the buffer empty. */
  method DecodeCrlf<T>(maxLength: nat, parse: Bytes -> ParseResult<T>, texts: seq<Bytes>, chunks: seq<Bytes>)
    returns (events: seq<Event<T>>, left: Bytes)
    requires maxLength <= USIZE_MAX && ChunksFit(maxLength, parse, chunks)
    requires Flatten(chunks) == Crlf(texts)
    requires forall k :: 0 <= k < |texts| ==> NoNewline(texts[k]) && |texts[k]| + 1 <= maxLength
    ensures events == seq(|texts|, k requires 0 <= k < |texts| => EventOf(parse(texts[k])))
    ensures left == []
  {
    var codec := new JsonRpcMessageCodec(maxLength, parse);
    var buf := new BytesMut();
    events := DecodeChunks(codec, buf, chunks);
    CrlfLines(maxLength, parse, texts);
    left := buf.data;
  }

  /** Appends one item and a newline; a serialization error leaves what was
      already written, without a newline. */
  method Encode<T>(ser: T -> Serialized, item: T, buf: BytesMut) returns (ok: bool)
    modifies buf
    ensures ok == ser(item).Written?
    ensures ok ==> buf.data == old(buf.data) + ser(item).bytes + [NEWLINE]
    ensures !ok ==> buf.data == old(buf.data) + ser(item).partial
  {
    match ser(item)
    case Written(bytes) =>
      buf.Put(bytes);
      buf.Put([NEWLINE]);
      ok := true;
    case Interrupted(partial, _) =>
      buf.Put(partial);
      ok := false;
  }

  /** Encoding a list of items writes exactly the stream that carries them. */
  method EncodeAll<T>(ser: T -> Bytes, items: seq<T>, buf: BytesMut)
    modifies buf
    ensures buf.data == old(buf.data) + Encoded(ser, items)
  {
    for k := 0 to |items|
      invariant buf.data == old(buf.data) + Encoded(ser, items[..k])
    {
      EncodedSnoc(ser, items, k);
      var ok := Encode((item: T) => Written(ser(item)), items[k], buf);
    }
    assert items[..|items|] == items;
  }

  lemma EncodedSnoc<T>(ser: T -> Bytes, items: seq<T>, k: nat)
    requires k < |items|
    ensures Encoded(ser, items[..k + 1]) == Encoded(ser, items[..k]) + ser(items[k]) + [NEWLINE]
  {
    var lines := seq(k, i requires 0 <= i < k => ser(items[..k][i]));
    JoinSnoc(lines, ser(items[k]));
    assert seq(k + 1, i requires 0 <= i < k + 1 => ser(items[..k + 1][i])) == lines + [ser(items[k])];
  }
}
