/** What a newline-delimited byte stream means, said without buffers, offsets or chunks. */
module Framing {

  newtype byte = b: int | 0 <= b < 256

  type Bytes = seq<byte>

  const NEWLINE: byte := 10

  const CARRIAGE_RETURN: byte := 13

  /** The outcome of deserializing one line. */
  datatype ParseResult<+T> = Parsed(value: T) | Malformed(error: string)

  /** What a reader of the stream observes. */
  datatype Event<+T> =
    | Item(value: T)
    | SerdeError(error: string)
    | MaxLineLengthExceeded

  /** The complete lines of a stream and the unterminated rest. */
  datatype Framed = Framed(lines: seq<Bytes>, tail: Bytes)

  ghost predicate NoNewline(s: Bytes) {
    NEWLINE !in s
  }

  /** The index of the first newline, or the length of `s` when there is none. */
  function FirstNewline(s: Bytes): (r: nat)
    ensures r <= |s|
    ensures r < |s| ==> s[r] == NEWLINE
  {
    NewlineFrom(s, 0)
  }

  function NewlineFrom(s: Bytes, i: nat): (r: nat)
    requires i <= |s|
    ensures i <= r <= |s|
    ensures r < |s| ==> s[r] == NEWLINE
    decreases |s| - i
  {
    if i == |s| || s[i] == NEWLINE then i else NewlineFrom(s, i + 1)
  }

  lemma {:induction false} NewlineFromFirst(s: Bytes, i: nat)
    requires i <= |s|
    ensures forall k :: i <= k < NewlineFrom(s, i) ==> s[k] != NEWLINE
    decreases |s| - i
  {
    if i < |s| && s[i] != NEWLINE {
      NewlineFromFirst(s, i + 1);
    }
  }

  lemma NoNewlineBeforeFirst(s: Bytes)
    ensures forall k :: 0 <= k < FirstNewline(s) ==> s[k] != NEWLINE
    ensures NoNewline(s[..FirstNewline(s)])
  {
    NewlineFromFirst(s, 0);
  }

  function SplitLines(s: Bytes): Framed
    decreases |s|
  {
    var n := FirstNewline(s);
    if n == |s| then Framed([], s)
    else
      var rest := SplitLines(s[n + 1..]);
      Framed([s[..n]] + rest.lines, rest.tail)
  }

  /** Splitting loses no byte, */
  lemma {:induction false} SplitLinesJoins(s: Bytes)
    ensures Join(SplitLines(s).lines) + SplitLines(s).tail == s
    decreases |s|
  {
    var n := FirstNewline(s);
    if n < |s| {
      var rest := SplitLines(s[n + 1..]);
      SplitLinesJoins(s[n + 1..]);
      JoinCons(s[..n], rest.lines, rest.tail, s[n + 1..]);
      SplitAround(s, n);
    }
  }

  /** and leaves no newline in a line or in the tail. */
  lemma {:induction false} SplitLinesAreLines(s: Bytes)
    ensures NoNewline(SplitLines(s).tail)
    ensures forall k :: 0 <= k < |SplitLines(s).lines| ==> NoNewline(SplitLines(s).lines[k])
    decreases |s|
  {
    var n := FirstNewline(s);
    NoNewlineBeforeFirst(s);
    if n < |s| {
      SplitLinesAreLines(s[n + 1..]);
    } else {
      assert s[..n] == s;
    }
  }

  /** The stream that carries the given lines, each terminated by a newline. */
  function Join(lines: seq<Bytes>): Bytes {
    if lines == [] then [] else lines[0] + [NEWLINE] + Join(lines[1..])
  }

  lemma SplitAround(s: Bytes, n: nat)
    requires n < |s| && s[n] == NEWLINE
    ensures s == s[..n] + ([NEWLINE] + s[n + 1..])
  {
  }

  lemma JoinCons(line: Bytes, lines: seq<Bytes>, tail: Bytes, s: Bytes)
    requires Join(lines) + tail == s
    ensures Join([line] + lines) + tail == line + ([NEWLINE] + s)
  {
    assert ([line] + lines)[1..] == lines;
  }

  lemma {:induction false} JoinSnoc(lines: seq<Bytes>, line: Bytes)
    ensures Join(lines + [line]) == Join(lines) + line + [NEWLINE]
  {
    if lines != [] {
      assert (lines + [line])[1..] == lines[1..] + [line];
      JoinSnoc(lines[1..], line);
    }
  }

  lemma FirstNewlineAt(s: Bytes, n: nat)
    requires n <= |s| && (n < |s| ==> s[n] == NEWLINE)
    requires forall k :: 0 <= k < n ==> s[k] != NEWLINE
    ensures FirstNewline(s) == n
  {
    NoNewlineBeforeFirst(s);
  }

  lemma FirstNewlineUnique(s: Bytes, n: nat)
    requires n <= |s| && NoNewline(s[..n]) && (n < |s| ==> s[n] == NEWLINE)
    ensures FirstNewline(s) == n
  {
    NoneBefore(s, n);
    FirstNewlineAt(s, n);
  }

  lemma NoneBefore(s: Bytes, n: nat)
    requires n <= |s| && NoNewline(s[..n])
    ensures forall k :: 0 <= k < n ==> s[k] != NEWLINE
  {
    forall k | 0 <= k < n ensures s[k] != NEWLINE {
      assert s[..n][k] in s[..n];
    }
  }

  lemma {:induction false} SplitLinesUnique(lines: seq<Bytes>, tail: Bytes)
    requires NoNewline(tail)
    requires forall k :: 0 <= k < |lines| ==> NoNewline(lines[k])
    ensures SplitLines(Join(lines) + tail) == Framed(lines, tail)
  {
    var s := Join(lines) + tail;
    if lines == [] {
      assert s == tail && s[..|s|] == s;
      FirstNewlineUnique(s, |s|);
    } else {
      var n := |lines[0]|;
      assert s == lines[0] + [NEWLINE] + (Join(lines[1..]) + tail);
      assert s[..n] == lines[0] && s[n] == NEWLINE;
      FirstNewlineUnique(s, n);
      assert s[n + 1..] == Join(lines[1..]) + tail;
      SplitLinesUnique(lines[1..], tail);
    }
  }

  /** These lines and this tail are a reading of the stream. */
  ghost predicate Reads(f: Framed, s: Bytes) {
    && NoNewline(f.tail) && (forall k :: 0 <= k < |f.lines| ==> NoNewline(f.lines[k]))
    && Join(f.lines) + f.tail == s
  }

  /** Every stream has exactly one reading as newline-free lines and a tail. */
  lemma OneReading(s: Bytes)
    ensures forall f: Framed :: Reads(f, s) <==> f == SplitLines(s)
  {
    SplitLinesJoins(s);
    SplitLinesAreLines(s);
    forall f: Framed | Reads(f, s) ensures f == SplitLines(s) {
      SplitLinesUnique(f.lines, f.tail);
    }
  }

  /** Bytes that arrive later move the first newline only if there was none. */
  lemma FirstNewlineGrows(s: Bytes, more: Bytes)
    ensures FirstNewline(s + more) == if FirstNewline(s) < |s| then FirstNewline(s) else |s| + FirstNewline(more)
  {
    NoNewlineBeforeFirst(s);
    NoNewlineBeforeFirst(more);
    var n := if FirstNewline(s) < |s| then FirstNewline(s) else |s| + FirstNewline(more);
    FirstNewlineAt(s + more, n);
  }

  /** Skipping bytes before the first newline does not lose it. */
  lemma FirstNewlineFrom(s: Bytes, n: nat)
    requires n <= FirstNewline(s)
    ensures FirstNewline(s[n..]) == FirstNewline(s) - n
  {
    NoNewlineBeforeFirst(s);
    FirstNewlineAt(s[n..], FirstNewline(s) - n);
  }

  /** A line without its trailing carriage return. */
  function WithoutCarriageReturn(line: Bytes): (r: Bytes)
    ensures r == line || line == r + [CARRIAGE_RETURN]
    ensures r == line <==> line == [] || line[|line| - 1] != CARRIAGE_RETURN
  {
    if |line| > 0 && line[|line| - 1] == CARRIAGE_RETURN then line[..|line| - 1] else line
  }

  function EventOf<T>(p: ParseResult<T>): Event<T> {
    match p
    case Parsed(v) => Item(v)
    case Malformed(e) => SerdeError(e)
  }

  /** One terminated line: too long, or its parse with one carriage return stripped. */
  function LineEvent<T>(maxLength: nat, parse: Bytes -> ParseResult<T>, line: Bytes): Event<T> {
    if |line| > maxLength then MaxLineLengthExceeded else EventOf(parse(WithoutCarriageReturn(line)))
  }

  function LineEvents<T>(maxLength: nat, parse: Bytes -> ParseResult<T>, lines: seq<Bytes>): seq<Event<T>> {
    seq(|lines|, k requires 0 <= k < |lines| => LineEvent(maxLength, parse, lines[k]))
  }

  /** What the end of the stream makes of an unterminated tail. */
  function TailEvents<T>(maxLength: nat, parse: Bytes -> ParseResult<T>, tail: Bytes): seq<Event<T>> {
    if |tail| > maxLength then [MaxLineLengthExceeded]
    else if tail == [] || tail == [CARRIAGE_RETURN] then []
    else [EventOf(parse(WithoutCarriageReturn(tail)))]
  }

  /** The reading of a whole stream in one pass. */
  function OneShot<T>(maxLength: nat, parse: Bytes -> ParseResult<T>, s: Bytes): seq<Event<T>> {
    var f := SplitLines(s);
    LineEvents(maxLength, parse, f.lines) + TailEvents(maxLength, parse, f.tail)
  }

  /** The event tells the outcome of the parse. */
  ghost predicate Tells<T>(p: ParseResult<T>, event: Event<T>) {
    match p
    case Parsed(v) => event == Item(v)
    case Malformed(e) => event == SerdeError(e)
  }

  /** What these bytes must yield as a line: too long, or parsed without the one
      carriage return they may end in. */
  ghost predicate Yields<T>(maxLength: nat, parse: Bytes -> ParseResult<T>, line: Bytes, event: Event<T>) {
    if |line| > maxLength then event == MaxLineLengthExceeded
    else if exists body :: line == body + [CARRIAGE_RETURN] then
      exists body :: line == body + [CARRIAGE_RETURN] && Tells(parse(body), event)
    else Tells(parse(line), event)
  }

  /** What a stream read as these lines and this tail must yield: one event per line,
      and one for the tail unless it is empty or a lone carriage return that fits. */
  ghost predicate StreamYields<T>(maxLength: nat, parse: Bytes -> ParseResult<T>, f: Framed, events: seq<Event<T>>) {
    var silent := |f.tail| <= maxLength && (f.tail == [] || f.tail == [CARRIAGE_RETURN]);
    && |events| == |f.lines| + (if silent then 0 else 1)
    && (forall k :: 0 <= k < |f.lines| ==> Yields(maxLength, parse, f.lines[k], events[k]))
    && (!silent ==> Yields(maxLength, parse, f.tail, events[|f.lines|]))
  }

  lemma LineYields<T>(maxLength: nat, parse: Bytes -> ParseResult<T>, line: Bytes)
    ensures Yields(maxLength, parse, line, LineEvent(maxLength, parse, line))
  {
    var body := WithoutCarriageReturn(line);
    if body == line {
      forall b: Bytes ensures line != b + [CARRIAGE_RETURN] {
        assert (b + [CARRIAGE_RETURN])[|b|] == CARRIAGE_RETURN;
      }
    } else {
      assert line == body + [CARRIAGE_RETURN];
    }
  }

  /** The one-pass reading yields what the lines and the tail of the stream must. */
  lemma OneShotYields<T>(maxLength: nat, parse: Bytes -> ParseResult<T>, s: Bytes)
    ensures forall f: Framed :: Reads(f, s) ==> StreamYields(maxLength, parse, f, OneShot(maxLength, parse, s))
  {
    OneReading(s);
    var f := SplitLines(s);
    forall k | 0 <= k < |f.lines|
      ensures Yields(maxLength, parse, f.lines[k], OneShot(maxLength, parse, s)[k])
    {
      LineYields(maxLength, parse, f.lines[k]);
    }
    LineYields(maxLength, parse, f.tail);
  }

  /** The concatenation of the chunks a stream arrives in. */
  function Flatten(chunks: seq<Bytes>): Bytes {
    if chunks == [] then [] else Flatten(chunks[..|chunks| - 1]) + chunks[|chunks| - 1]
  }

  lemma FlattenPrefix(chunks: seq<Bytes>, k: nat)
    requires k < |chunks|
    ensures Flatten(chunks[..k + 1]) == Flatten(chunks[..k]) + chunks[k]
  {
    assert chunks[..k + 1][..k] == chunks[..k];
  }
}
