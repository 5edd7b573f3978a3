/**
 * Log decoding (internal/inventory/logs.go): a byte-at-a-time writer per stream cuts logical lines
 * into bounded chunks, and finite snapshots put the lines together again.
 */
module Logs {
  import opened Strings
  import opened Utf8

  const NL: byte := 10
  const CR: byte := 13
  const SPACE: byte := 32
  const MAX_LINE := 64 * 1024
  const MAX_PAGE := 4 * 1024 * 1024
  const RUNE_MAX := 4

  datatype Stream = Stdout | Stderr | Combined

  datatype LogEvent = LogEvent(stream: Stream, text: seq<byte>, timestamp: seq<byte>, continuation: bool, lineEnd: bool)

  datatype LogLine = LogLine(stream: Stream, text: seq<byte>)

  /** What a writer is made with; `isStamp` tells RFC 3339 timestamps. */
  datatype Channel = Channel(stream: Stream, isStamp: seq<byte> -> bool)

  /** The fields of `eventWriter`. */
  datatype Writer = Writer(buffer: seq<byte>, continued: bool, timestamp: seq<byte>)

  const FRESH := Writer([], false, [])

  // ---- One writer, one byte --------------------------------------------------

  function TrimCR(s: seq<byte>): seq<byte> {
    if s != [] && s[|s| - 1] == CR then s[..|s| - 1] else s
  }

  /** The text before the first space. */
  function BeforeSpace(s: seq<byte>): Option<seq<byte>> {
    if s == [] then None
    else if s[0] == SPACE then Some([])
    else match BeforeSpace(s[1..])
      case None => None
      case Some(rest) => Some([s[0]] + rest)
  }

  function StampOf(c: Channel, text: seq<byte>): seq<byte> {
    match BeforeSpace(text)
    case Some(stamp) => if c.isStamp(stamp) then stamp else []
    case None => []
  }

  function EventOf(c: Channel, w: Writer, end: bool): LogEvent {
    var text := if end then TrimCR(w.buffer) else w.buffer;
    LogEvent(c.stream, text, if w.continued then w.timestamp else StampOf(c, text), w.continued, end)
  }

  function Flushed(c: Channel, w: Writer, end: bool): Writer {
    Writer([], !end, if end then [] else EventOf(c, w, end).timestamp)
  }

  predicate Full(buffer: seq<byte>) {
    |buffer| >= MAX_LINE && (Valid(buffer) || |buffer| >= MAX_LINE + RUNE_MAX)
  }

  datatype Fed = Fed(writer: Writer, events: seq<LogEvent>)

  function Step(c: Channel, w: Writer, b: byte): (r: Fed)
    ensures |r.events| <= 1
  {
    if b == NL then Fed(Flushed(c, w, true), [EventOf(c, w, true)])
    else
      var w1 := w.(buffer := w.buffer + [b]);
      if Full(w1.buffer) then Fed(Flushed(c, w1, false), [EventOf(c, w1, false)]) else Fed(w1, [])
  }

  function Feed(c: Channel, w: Writer, bytes: seq<byte>): Fed
    decreases |bytes|
  {
    if bytes == [] then Fed(w, [])
    else
      var first := Step(c, w, bytes[0]);
      var rest := Feed(c, first.writer, bytes[1..]);
      Fed(rest.writer, first.events + rest.events)
  }

  /** How the bytes arrive does not matter: one write of `a + b` is a write of `a` and a write of `b`. */
  lemma {:induction false} FeedAppend(c: Channel, w: Writer, a: seq<byte>, b: seq<byte>)
    ensures var x := Feed(c, w, a); var y := Feed(c, x.writer, b);
            Feed(c, w, a + b) == Fed(y.writer, x.events + y.events)
    decreases |a|
  {
    hide Step;
    if a == [] {
      assert a + b == b;
    } else {
      assert (a + b)[1..] == a[1..] + b;
      FeedAppend(c, Step(c, w, a[0]).writer, a[1..], b);
    }
  }

  // ---- Bounded chunks that respect runes ---------------------------------------

  /** The buffer has not yet passed a place where it could have been cut. */
  ghost predicate NoBoundary(buffer: seq<byte>) {
    forall m :: MAX_LINE <= m <= |buffer| ==> !Valid(buffer[..m])
  }

  lemma {:induction false} ChunksRespectRunes(c: Channel, w: Writer, s: seq<byte>)
    requires NL !in s && Valid(w.buffer + s) && NoBoundary(w.buffer)
    ensures var fed := Feed(c, w, s);
            && (forall e :: e in fed.events ==> Valid(e.text) && MAX_LINE <= |e.text| <= MAX_LINE + 3 && !e.lineEnd)
            && Valid(fed.writer.buffer) && |fed.writer.buffer| < MAX_LINE
    decreases |s|
  {
    hide Valid;
    if s == [] {
      assert w.buffer + s == w.buffer && w.buffer[..|w.buffer|] == w.buffer;
    } else {
      var w1 := w.(buffer := w.buffer + [s[0]]);
      assert w1.buffer + s[1..] == w.buffer + s;
      if Full(w1.buffer) {
        CutIsBoundary(w.buffer, s);
        ValidRemainder(w1.buffer, s[1..]);
        assert [] + s[1..] == s[1..];
      } else {
        forall m | MAX_LINE <= m <= |w1.buffer| ensures !Valid(w1.buffer[..m]) {
          if m == |w1.buffer| {
            assert w1.buffer[..m] == w1.buffer;
          } else {
            assert w1.buffer[..m] == w.buffer[..m];
          }
        }
      }
      ChunksRespectRunes(c, Step(c, w, s[0]).writer, s[1..]);
    }
  }

  lemma PrefixOfConcat(a: seq<byte>, b: seq<byte>, m: nat)
    requires m <= |a|
    ensures (a + b)[..m] == a[..m]
  {
  }

  /** In valid text the forced cut never fires. */
  lemma CutIsBoundary(buffer: seq<byte>, s: seq<byte>)
    requires s != [] && Valid(buffer + s) && NoBoundary(buffer) && Full(buffer + [s[0]])
    ensures Valid(buffer + [s[0]]) && |buffer| + 1 <= MAX_LINE + 3
  {
    hide Valid;
    var m := BoundaryAhead(buffer + s, MAX_LINE);
    if m <= |buffer| {
      PrefixOfConcat(buffer, s, m);
      assert false;
    }
    if m == |buffer| + 1 {
      assert (buffer + s)[..m] == buffer + [s[0]];
    }
  }

  /** A line of valid text is delivered as valid text only, in bounded pieces. */
  lemma ValidLineStaysValid(c: Channel, line: seq<byte>)
    requires NL !in line && Valid(line)
    ensures forall e :: e in Feed(c, FRESH, line + [NL]).events ==> Valid(e.text) && |e.text| <= MAX_LINE + 3
  {
    hide Valid;
    assert FRESH.buffer + line == line;
    ChunksRespectRunes(c, FRESH, line);
    FeedAppend(c, FRESH, line, [NL]);
    var w := Feed(c, FRESH, line).writer;
    if w.buffer != [] && w.buffer[|w.buffer| - 1] == CR {
      ValidWithoutLast(w.buffer);
    }
    assert Feed(c, w, [NL]).events == [EventOf(c, w, true)];
  }

  /** Arbitrary bytes are delivered in chunks of at most 65540 bytes. */
  lemma {:induction false} ChunksAreBounded(c: Channel, w: Writer, s: seq<byte>)
    requires |w.buffer| < MAX_LINE + RUNE_MAX
    ensures var fed := Feed(c, w, s);
            (forall e :: e in fed.events ==> |e.text| <= MAX_LINE + RUNE_MAX) && |fed.writer.buffer| < MAX_LINE + RUNE_MAX
    decreases |s|
  {
    hide Valid;
    if s != [] {
      ChunksAreBounded(c, Step(c, w, s[0]).writer, s[1..]);
    }
  }

  lemma {:induction false} StampIsShort(c: Channel, text: seq<byte>)
    ensures |StampOf(c, text)| <= |text|
  {
    PieceIsShort(text);
  }

  lemma {:induction false} PieceIsShort(text: seq<byte>)
    ensures BeforeSpace(text).Some? ==> |BeforeSpace(text).value| < |text|
  {
    if text != [] {
      PieceIsShort(text[1..]);
    }
  }

  /** Texts and stamps of all events are bounded, whatever the bytes. */
  lemma {:induction false} EventsAreBounded(c: Channel, w: Writer, s: seq<byte>)
    requires |w.buffer| < MAX_LINE + RUNE_MAX && |w.timestamp| <= MAX_LINE + RUNE_MAX
    ensures var fed := Feed(c, w, s);
            && (forall e :: e in fed.events + LastEvents(c, fed.writer) ==>
                              |e.text| <= MAX_LINE + RUNE_MAX && |e.timestamp| <= MAX_LINE + RUNE_MAX)
            && |fed.writer.buffer| < MAX_LINE + RUNE_MAX && |fed.writer.timestamp| <= MAX_LINE + RUNE_MAX
    decreases |s|
  {
    hide Valid, StampOf;
    if s == [] {
      StampIsShort(c, w.buffer);
    } else {
      var w1 := w.(buffer := w.buffer + [s[0]]);
      StampIsShort(c, w1.buffer);
      StampIsShort(c, TrimCR(w.buffer));
      EventsAreBounded(c, Step(c, w, s[0]).writer, s[1..]);
    }
  }

  // ---- Reassembly ---------------------------------------------------------------

  /** The text between newlines; the last part is what follows the last newline. */
  function SplitLines(s: seq<byte>): (parts: seq<seq<byte>>)
    ensures |parts| >= 1
    ensures forall part :: part in parts ==> NL !in part
  {
    if s == [] then [[]]
    else if s[0] == NL then [[]] + SplitLines(s[1..])
    else
      var rest := SplitLines(s[1..]);
      [[s[0]] + rest[0]] + rest[1..]
  }

  datatype Gathered = Gathered(lines: seq<seq<byte>>, pending: seq<byte>)

  /** Complete records of one stream, and the text waiting for its end. */
  function Gather(pending: seq<byte>, events: seq<LogEvent>): Gathered
    decreases |events|
  {
    if events == [] then Gathered([], pending)
    else
      var text := pending + events[0].text;
      if events[0].lineEnd then
        var rest := Gather([], events[1..]);
        Gathered([text] + rest.lines, rest.pending)
      else Gather(text, events[1..])
  }

  lemma {:induction false} GatherAppend(pending: seq<byte>, a: seq<LogEvent>, b: seq<LogEvent>)
    ensures var x := Gather(pending, a); var y := Gather(x.pending, b);
            Gather(pending, a + b) == Gathered(x.lines + y.lines, y.pending)
    decreases |a|
  {
    if a == [] {
      assert a + b == b;
    } else {
      assert (a + b)[1..] == a[1..] + b;
      GatherAppend(if a[0].lineEnd then [] else pending + a[0].text, a[1..], b);
    }
  }

  /** Every piece of text held while gathering stays within `limit`. */
  predicate Fits(pending: seq<byte>, events: seq<LogEvent>, limit: nat)
    decreases |events|
  {
    events == []
    || (|pending| + |events[0].text| <= limit
        && Fits(if events[0].lineEnd then [] else pending + events[0].text, events[1..], limit))
  }

  lemma {:induction false} FitsAppend(pending: seq<byte>, a: seq<LogEvent>, b: seq<LogEvent>, limit: nat)
    ensures Fits(pending, a + b, limit) <==> Fits(pending, a, limit) && Fits(Gather(pending, a).pending, b, limit)
    decreases |a|
  {
    if a == [] {
      assert a + b == b;
    } else {
      assert (a + b)[1..] == a[1..] + b;
      FitsAppend(if a[0].lineEnd then [] else pending + a[0].text, a[1..], b, limit);
    }
  }

  /** A byte of text is buffered, and sent if it fills the buffer. */
  lemma TextStep(c: Channel, w: Writer, b: byte)
    requires b != NL
    ensures var step, text := Step(c, w, b), w.buffer + [b];
            if Full(text) then
              step.writer.buffer == [] && |step.events| == 1 && step.events[0].text == text && !step.events[0].lineEnd
            else step == Fed(w.(buffer := text), [])
  {
    hide Full;
  }

  /** Chunking a piece of a line loses nothing. */
  lemma {:induction false} SegmentIsKept(c: Channel, w: Writer, pending: seq<byte>, s: seq<byte>, limit: nat)
    requires NL !in s
    ensures var fed := Feed(c, w, s); var g := Gather(pending, fed.events);
            && g.lines == [] && g.pending + fed.writer.buffer == pending + w.buffer + s
            && |pending| <= |g.pending|
            && (|pending| <= limit ==> (Fits(pending, fed.events, limit) <==> |g.pending| <= limit))
    decreases |s|
  {
    hide Full, Step;
    if s == [] {
      assert pending + w.buffer + s == pending + w.buffer;
    } else {
      var first, text := Step(c, w, s[0]), w.buffer + [s[0]];
      TextStep(c, w, s[0]);
      assert pending + w.buffer + s == pending + text + s[1..];
      if Full(text) {
        assert Feed(c, w, s).events[1..] == Feed(c, first.writer, s[1..]).events;
        SegmentIsKept(c, first.writer, pending + text, s[1..], limit);
        assert pending + text + [] + s[1..] == pending + text + s[1..];
      } else {
        SegmentIsKept(c, first.writer, pending, s[1..], limit);
        assert Feed(c, w, s).events == Feed(c, first.writer, s[1..]).events;
      }
    }
  }

  // ---- Where a line is cut --------------------------------------------------------

  /** The length of the shortest full prefix: the first place at which the text is cut. */
  function FirstCut(s: seq<byte>, from: nat): (r: Option<nat>)
    requires from <= |s|
    ensures r.Some? ==> from <= r.value <= |s| && MAX_LINE <= r.value && Full(s[..r.value])
    ensures forall k :: from <= k <= |s| && (r.Some? ==> k < r.value) ==> !Full(s[..k])
    decreases |s| - from
  {
    if Full(s[..from]) then Some(from)
    else if from == |s| then None
    else FirstCut(s, from + 1)
  }

  /** A text without newline as the chunks cut from it, and what is left over. */
  function Pieces(s: seq<byte>): seq<seq<byte>>
    decreases |s|
  {
    match FirstCut(s, 0)
    case None => []
    case Some(n) => [s[..n]] + Pieces(s[n..])
  }

  function Rest(s: seq<byte>): seq<byte>
    decreases |s|
  {
    match FirstCut(s, 0)
    case None => s
    case Some(n) => Rest(s[n..])
  }

  function TextsOf(events: seq<LogEvent>): seq<seq<byte>> {
    if events == [] then [] else [events[0].text] + TextsOf(events[1..])
  }

  lemma {:induction false} TextsOfAppend(a: seq<LogEvent>, b: seq<LogEvent>)
    ensures TextsOf(a + b) == TextsOf(a) + TextsOf(b)
  {
    if a == [] {
      assert a + b == b;
    } else {
      assert (a + b)[1..] == a[1..] + b;
      TextsOfAppend(a[1..], b);
    }
  }

  /** Bytes that fill no prefix are only buffered. */
  lemma {:induction false} NothingCut(c: Channel, w: Writer, s: seq<byte>)
    requires NL !in s && forall k :: |w.buffer| < k <= |w.buffer + s| ==> !Full((w.buffer + s)[..k])
    ensures Feed(c, w, s) == Fed(w.(buffer := w.buffer + s), [])
    decreases |s|
  {
    hide Full;
    if s == [] {
      assert w.buffer + s == w.buffer;
    } else {
      var w1 := w.(buffer := w.buffer + [s[0]]);
      assert w1.buffer + s[1..] == w.buffer + s;
      assert (w.buffer + s)[..|w1.buffer|] == w1.buffer;
      NothingCut(c, w1, s[1..]);
    }
  }

  /** The shortest full prefix is one event. */
  lemma PrefixIsCut(c: Channel, w: Writer, piece: seq<byte>)
    requires w.buffer == [] && NL !in piece && Full(piece)
    requires forall k :: 0 <= k < |piece| ==> !Full(piece[..k])
    ensures var fed := Feed(c, w, piece); fed.writer.buffer == [] && |fed.events| == 1 && fed.events[0].text == piece
  {
    hide Feed, Full;
    NotEmpty(piece);
    var head, last := piece[..|piece| - 1], piece[|piece| - 1];
    assert piece == head + [last];
    HeadIsBuffered(c, w, piece, head);
    FeedAppend(c, w, head, [last]);
    FillingByte(c, w.(buffer := head), last);
    var filled := Feed(c, w.(buffer := head), [last]);
    assert [] + filled.events == filled.events;
  }

  lemma NotEmpty(piece: seq<byte>)
    requires Full(piece)
    ensures |piece| > 0
  {
  }

  lemma HeadIsBuffered(c: Channel, w: Writer, piece: seq<byte>, head: seq<byte>)
    requires w.buffer == [] && NL !in piece && piece != [] && head == piece[..|piece| - 1]
    requires forall k :: 0 <= k < |piece| ==> !Full(piece[..k])
    ensures Feed(c, w, head) == Fed(w.(buffer := head), [])
  {
    hide Feed, Full;
    assert [] + head == head;
    forall k | 0 < k <= |head| ensures !Full(head[..k]) {
      assert head[..k] == piece[..k];
    }
    NothingCut(c, w, head);
  }

  /** The byte that fills the buffer sends it. */
  lemma FillingByte(c: Channel, w: Writer, last: byte)
    requires last != NL && Full(w.buffer + [last])
    ensures var fed := Feed(c, w, [last]);
            fed.writer.buffer == [] && |fed.events| == 1 && fed.events[0].text == w.buffer + [last]
  {
    hide Full;
    assert [last][1..] == [];
    assert Feed(c, w, [last]) == Step(c, w, last);
  }

  /** The writer cuts a line exactly at its shortest full prefixes. */
  lemma {:induction false} LineIsCut(c: Channel, w: Writer, s: seq<byte>)
    requires w.buffer == [] && NL !in s
    ensures TextsOf(Feed(c, w, s).events) == Pieces(s) && Feed(c, w, s).writer.buffer == Rest(s)
    decreases |s|
  {
    hide Full, Feed;
    assert [] + s == s;
    match FirstCut(s, 0) {
      case None =>
        NothingCut(c, w, s);
      case Some(n) =>
        var piece, tail := s[..n], s[n..];
        assert s == piece + tail;
        forall k | 0 <= k < n ensures !Full(piece[..k]) {
          assert piece[..k] == s[..k];
        }
        PrefixIsCut(c, w, piece);
        var first := Feed(c, w, piece);
        FeedAppend(c, w, piece, tail);
        LineIsCut(c, first.writer, tail);
        assert first.events[1..] == [];
        TextsOfAppend(first.events, Feed(c, first.writer, tail).events);
    }
  }

  // ---- Lines as they are delivered ---------------------------------------------------

  /** The line's last byte completed a chunk. */
  predicate EndsInCut(line: seq<byte>) {
    line != [] && Rest(line) == []
  }

  /** What a complete line is delivered as: a CR that completes a full chunk has already been sent. */
  function Record(line: seq<byte>): seq<byte> {
    if EndsInCut(line) then line else TrimCR(line)
  }

  predicate Ascii(s: seq<byte>) {
    forall i :: 0 <= i < |s| ==> s[i] < 0x80
  }

  lemma {:induction false} AsciiIsValid(s: seq<byte>)
    requires Ascii(s)
    ensures Valid(s)
  {
    if s != [] {
      assert RuneLength(s) == 1;
      AsciiIsValid(s[1..]);
    }
  }

  /** ASCII text is cut every 65536 bytes. */
  lemma {:induction false} AsciiRest(s: seq<byte>)
    requires Ascii(s)
    ensures |Rest(s)| == |s| % MAX_LINE
    decreases |s|
  {
    AsciiCut(s);
    LineLess(|s|);
    hide FirstCut, Full, Valid;
    if |s| >= MAX_LINE {
      var tail := s[MAX_LINE..];
      assert Rest(s) == Rest(tail);
      AsciiRest(tail);
    } else {
      assert Rest(s) == s;
    }
  }

  lemma LineLess(n: nat)
    ensures n % MAX_LINE == if n < MAX_LINE then n else (n - MAX_LINE) % MAX_LINE
  {
  }

  /** ASCII text is cut as soon as it is long enough. */
  lemma AsciiCut(s: seq<byte>)
    requires Ascii(s)
    ensures FirstCut(s, 0) == if |s| >= MAX_LINE then Some(MAX_LINE) else None
  {
    hide Valid;
    if |s| >= MAX_LINE {
      AsciiIsValid(s[..MAX_LINE]);
    }
  }

  /** So an ASCII line loses its CR unless its length is a positive multiple of 65536. */
  lemma AsciiKeepsCRIff(line: seq<byte>)
    requires Ascii(line) && line != [] && line[|line| - 1] == CR
    ensures Record(line) != TrimCR(line) <==> |line| % MAX_LINE == 0
  {
    AsciiRest(line);
  }

  /** No line below 65536 bytes keeps a CR, whatever its bytes. */
  lemma ShortLinesAreTrimmed(line: seq<byte>)
    requires |line| < MAX_LINE
    ensures Record(line) == TrimCR(line)
  {
    hide Valid;
    assert FirstCut(line, 0) == None;
  }

  /** The first cut of valid text is its first rune boundary from 65536 on, so every piece is valid. */
  lemma {:induction false} ValidTextIsCutAtBoundaries(s: seq<byte>)
    requires Valid(s)
    ensures forall piece :: piece in Pieces(s) ==> Valid(piece) && MAX_LINE <= |piece| <= MAX_LINE + 3
    ensures Valid(Rest(s)) && |Rest(s)| < MAX_LINE
    decreases |s|
  {
    hide Valid;
    match FirstCut(s, 0) {
      case None =>
        assert s[..|s|] == s;
      case Some(n) =>
        var m := BoundaryAhead(s, MAX_LINE);
        assert n <= m;
        assert s == s[..n] + s[n..];
        ValidRemainder(s[..n], s[n..]);
        ValidTextIsCutAtBoundaries(s[n..]);
    }
  }

  /** A line of 65536 bytes that keeps its CR. */
  lemma LongLineKeepsCR()
    ensures var line := seq(MAX_LINE - 1, _ => SPACE) + [CR]; Record(line) == line != TrimCR(line)
  {
    var line := seq(MAX_LINE - 1, _ => SPACE) + [CR];
    AsciiKeepsCRIff(line);
  }

  function Records(parts: seq<seq<byte>>): seq<seq<byte>>
    requires |parts| >= 1
  {
    if |parts| == 1 then (if parts[0] == [] then [] else [parts[0]])
    else [Record(parts[0])] + Records(parts[1..])
  }

  /** The final flush of a stream that ends inside a line. */
  function LastEvents(c: Channel, w: Writer): seq<LogEvent> {
    if w.buffer == [] then [] else [EventOf(c, w, false)]
  }

  function StreamEvents(c: Channel, bytes: seq<byte>): seq<LogEvent> {
    var fed := Feed(c, FRESH, bytes);
    fed.events + LastEvents(c, fed.writer)
  }

  function Delivered(g: Gathered): seq<seq<byte>> {
    g.lines + if g.pending == [] then [] else [g.pending]
  }

  lemma {:induction false} SplitFirst(s: seq<byte>)
    requires |SplitLines(s)| > 1
    ensures var parts := SplitLines(s);
            && |parts[0]| < |s| && s == parts[0] + [NL] + s[|parts[0]| + 1..]
            && SplitLines(s[|parts[0]| + 1..]) == parts[1..]
  {
    if s[0] == NL {
      assert s == [] + [NL] + s[1..];
    } else {
      SplitFirst(s[1..]);
      var parts := SplitLines(s[1..]);
      assert s == [s[0]] + s[1..];
      assert s[1..][|parts[0]| + 1..] == s[|parts[0]| + 2..];
      assert SplitLines(s) == [[s[0]] + parts[0]] + parts[1..];
      hide SplitLines;
    }
  }

  lemma SplitOnly(s: seq<byte>)
    requires |SplitLines(s)| == 1
    ensures SplitLines(s) == [s]
  {
    if s == [] {
    } else if s[0] != NL {
      SplitOnly(s[1..]);
      assert [s[0]] + s[1..] == s;
    }
  }

  lemma OneEvent(pending: seq<byte>, e: LogEvent, limit: nat)
    ensures Gather(pending, [e]) == if e.lineEnd then Gathered([pending + e.text], []) else Gathered([], pending + e.text)
    ensures Fits(pending, [e], limit) <==> |pending + e.text| <= limit
  {
    assert [e][1..] == [];
  }

  lemma EmptyHasNoRest()
    ensures Rest([]) == []
  {
  }

  /** One complete line through the writer. */
  /** The end of a line sends what is left of it. */
  lemma NewlineFed(c: Channel, w: Writer)
    ensures Feed(c, w, [NL]) == Fed(FRESH, [EventOf(c, w, true)])
    ensures EventOf(c, w, true).text == TrimCR(w.buffer) && EventOf(c, w, true).lineEnd
  {
    assert [NL][1..] == [];
    assert Feed(c, w, [NL]) == Step(c, w, NL);
  }

  lemma LineIsDelivered(c: Channel, line: seq<byte>, limit: nat)
    requires NL !in line
    ensures var fed := Feed(c, FRESH, line + [NL]);
            && fed.writer == FRESH
            && Gather([], fed.events) == Gathered([Record(line)], [])
            && (Fits([], fed.events, limit) <==> |Record(line)| <= limit)
  {
    hide Feed, Gather, Fits, Record, EventOf, TrimCR;
    LineIsHeld(c, line, limit);
    var body := Feed(c, FRESH, line);
    FeedAppend(c, FRESH, line, [NL]);
    NewlineFed(c, body.writer);
    var g, last := Gather([], body.events), EventOf(c, body.writer, true);
    GatherAppend([], body.events, [last]);
    FitsAppend([], body.events, [last], limit);
    OneEvent(g.pending, last, limit);
    assert [] + [Record(line)] == [Record(line)];
  }

  /** A line before its end: what has been sent of it, and what the buffer holds. */
  lemma LineIsHeld(c: Channel, line: seq<byte>, limit: nat)
    requires NL !in line
    ensures var body := Feed(c, FRESH, line); var g := Gather([], body.events);
            && g.lines == [] && g.pending + TrimCR(body.writer.buffer) == Record(line)
            && |g.pending| <= |Record(line)| && (Fits([], body.events, limit) <==> |g.pending| <= limit)
  {
    hide Feed, Gather, Fits, Pieces, TrimCR;
    SegmentIsKept(c, FRESH, [], line, limit);
    LineIsCut(c, FRESH, line);
    EmptyHasNoRest();
    hide Rest;
    var body := Feed(c, FRESH, line);
    assert [] + [] + line == line;
    TrimBehind(Gather([], body.events).pending, body.writer.buffer);
  }

  lemma TrimBehind(a: seq<byte>, b: seq<byte>)
    ensures if b == [] then a + TrimCR(b) == a + b == a else TrimCR(a + b) == a + TrimCR(b)
    ensures |a| <= |a + TrimCR(b)|
  {
  }

  // ---- The timestamp of a record --------------------------------------------------------

  /**
   * The events of one record: all bear its timestamp, all but the first continue it, and the last, if the
   * record is whole, ends it.
   */
  ghost predicate OneRecord(c: Channel, es: seq<LogEvent>, stamp: seq<byte>, whole: bool) {
    forall i :: 0 <= i < |es| ==>
      && es[i].stream == c.stream && es[i].timestamp == stamp
      && (es[i].continuation <==> i > 0) && (es[i].lineEnd <==> whole && i == |es| - 1)
  }

  /** The stamp that the writer goes on with when it has sent these events of a piece of a line. */
  function StampAfter(c: Channel, w: Writer, es: seq<LogEvent>): seq<byte> {
    if w.continued || es == [] then w.timestamp else StampOf(c, es[0].text)
  }

  /** Within a line every chunk continues the one before and bears its stamp. */
  lemma {:induction false} SegmentIsMarked(c: Channel, w: Writer, s: seq<byte>)
    requires NL !in s
    ensures var fed := Feed(c, w, s);
            && fed.writer.continued == (w.continued || fed.events != []) && fed.writer.timestamp == StampAfter(c, w, fed.events)
            && forall i :: 0 <= i < |fed.events| ==>
                 && fed.events[i].stream == c.stream && fed.events[i].timestamp == fed.writer.timestamp
                 && (fed.events[i].continuation <==> w.continued || i > 0) && !fed.events[i].lineEnd
    decreases |s|
  {
    hide Full, StampOf;
    if s != [] {
      var first := Step(c, w, s[0]);
      SegmentIsMarked(c, first.writer, s[1..]);
      var rest := Feed(c, first.writer, s[1..]);
      assert Feed(c, w, s) == Fed(rest.writer, first.events + rest.events);
      hide Feed;
    }
  }

  /** The text of the first event of a complete line. */
  function FirstPiece(line: seq<byte>): seq<byte> {
    match FirstCut(line, 0)
    case None => TrimCR(line)
    case Some(n) => line[..n]
  }

  /** A complete line is one record: every event bears the timestamp of the first piece, and the last one ends it. */
  lemma LineIsOneRecord(c: Channel, line: seq<byte>)
    requires NL !in line
    ensures var es := Feed(c, FRESH, line + [NL]).events;
            es != [] && es[0].text == FirstPiece(line) && OneRecord(c, es, StampOf(c, FirstPiece(line)), true)
  {
    hide Feed, StampOf, Pieces, Rest, TrimCR, FirstCut;
    var body := Feed(c, FRESH, line);
    SegmentIsMarked(c, FRESH, line);
    FeedAppend(c, FRESH, line, [NL]);
    NewlineFed(c, body.writer);
    FirstIsPiece(c, line);
    var last := EventOf(c, body.writer, true);
    assert Feed(c, FRESH, line + [NL]).events == body.events + [last];
  }

  lemma FirstIsPiece(c: Channel, line: seq<byte>)
    requires NL !in line
    ensures var body := Feed(c, FRESH, line);
            FirstPiece(line) == if body.events == [] then TrimCR(body.writer.buffer) else body.events[0].text
  {
    hide Feed, Full;
    LineIsCut(c, FRESH, line);
    var texts := TextsOf(Feed(c, FRESH, line).events);
    assert texts != [] ==> texts[0] == Feed(c, FRESH, line).events[0].text;
  }

  /** And so is what there is of a line without its end. */
  lemma RestIsOneRecord(c: Channel, line: seq<byte>)
    requires NL !in line
    ensures var es := StreamEvents(c, line); es != [] ==> OneRecord(c, es, StampOf(c, es[0].text), false)
  {
    hide Feed, StampOf;
    SegmentIsMarked(c, FRESH, line);
  }

  /** The line begins with a timestamp that fits before any cut. */
  ghost predicate IsStamped(c: Channel, line: seq<byte>) {
    exists t: seq<byte> :: BeginsWith(c, line, t)
  }

  ghost predicate BeginsWith(c: Channel, line: seq<byte>, t: seq<byte>) {
    t != [] && c.isStamp(t) && SPACE !in t && |t| < MAX_LINE && t + [SPACE] <= line
  }

  lemma {:induction false} StampBefore(t: seq<byte>, rest: seq<byte>)
    requires SPACE !in t
    ensures BeforeSpace(t + [SPACE] + rest) == Some(t)
  {
    var text := t + [SPACE] + rest;
    if t != [] {
      assert text[1..] == t[1..] + [SPACE] + rest;
      StampBefore(t[1..], rest);
      assert [t[0]] + t[1..] == t;
    }
  }

  lemma {:induction false} CutAtSpace(s: seq<byte>)
    ensures match BeforeSpace(s)
            case Some(t) => SPACE !in t && t + [SPACE] <= s
            case None => SPACE !in s
  {
    if s != [] && s[0] != SPACE {
      CutAtSpace(s[1..]);
      assert s == [s[0]] + s[1..];
    }
  }

  /** A piece of text is stamped with what stands before its first space, if that parses. */
  lemma StampIsFirstField(c: Channel, text: seq<byte>, t: seq<byte>)
    requires t != []
    ensures StampOf(c, text) == t <==> c.isStamp(t) && SPACE !in t && t + [SPACE] <= text
  {
    CutAtSpace(text);
    if SPACE !in t && t + [SPACE] <= text {
      StampBefore(t, text[|t| + 1..]);
      assert text == t + [SPACE] + text[|t| + 1..];
    }
  }

  lemma StampOfPiece(c: Channel, t: seq<byte>, text: seq<byte>)
    requires BeginsWith(c, text, t)
    ensures StampOf(c, text) == t
  {
    StampBefore(t, text[|t| + 1..]);
    assert text == t + [SPACE] + text[|t| + 1..];
  }

  /** All events of a record that begins with a timestamp bear it, however long the record is. */
  lemma StampedRecord(c: Channel, line: seq<byte>, t: seq<byte>)
    requires NL !in line && BeginsWith(c, line, t)
    ensures OneRecord(c, Feed(c, FRESH, line + [NL]).events, t, true)
    ensures OneRecord(c, StreamEvents(c, line), t, false)
  {
    hide Feed, StampOf, Full;
    LineIsOneRecord(c, line);
    RestIsOneRecord(c, line);
    StampOfPiece(c, t, FirstPiece(line));
    FirstIsHead(c, line);
    if StreamEvents(c, line) != [] {
      StampOfPiece(c, t, StreamEvents(c, line)[0].text);
    }
  }

  /** The first event of an unfinished line holds the line or a full chunk of it. */
  lemma FirstIsHead(c: Channel, line: seq<byte>)
    requires NL !in line
    ensures var es := StreamEvents(c, line); es != [] ==> es[0].text <= line && (es[0].text == line || |es[0].text| >= MAX_LINE)
  {
    hide Feed, Full;
    LineIsCut(c, FRESH, line);
    var fed := Feed(c, FRESH, line);
    assert fed.events != [] ==> TextsOf(fed.events)[0] == fed.events[0].text;
  }

  /** Every complete line is stamped, and so is what follows the last of them. */
  ghost predicate AllStamped(c: Channel, bytes: seq<byte>) {
    var parts := SplitLines(bytes);
    forall i :: 0 <= i < |parts| ==> IsStamped(c, parts[i]) || (i == |parts| - 1 && parts[i] == [])
  }

  /** Every event of such a stream has a timestamp. */
  lemma {:induction false} StampedStream(c: Channel, bytes: seq<byte>)
    requires AllStamped(c, bytes)
    ensures forall e :: e in StreamEvents(c, bytes) ==> e.timestamp != []
    decreases |bytes|
  {
    hide Feed, SplitLines, StreamEvents, BeginsWith;
    var parts := SplitLines(bytes);
    if |parts| == 1 {
      SplitOnly(bytes);
      if bytes == [] {
        NothingDecoded(c);
      } else {
        var t: seq<byte> :| BeginsWith(c, parts[0], t);
        StampedRecord(c, bytes, t);
        StampIsThere(c, bytes, t);
      }
    } else {
      SplitFirst(bytes);
      var line, rest := parts[0], bytes[|parts[0]| + 1..];
      var t: seq<byte> :| BeginsWith(c, line, t);
      LineIsDelivered(c, line, 0);
      StreamEventsAppend(c, line, rest);
      StampedRecord(c, line, t);
      StampIsThere(c, line, t);
      assert forall i :: 0 <= i < |parts[1..]| ==> parts[1..][i] == parts[i + 1];
      StampedStream(c, rest);
    }
  }

  lemma NothingDecoded(c: Channel)
    ensures StreamEvents(c, []) == []
  {
  }

  lemma StampIsThere(c: Channel, line: seq<byte>, t: seq<byte>)
    requires BeginsWith(c, line, t)
    ensures t != []
  {
  }

  /**
   * Decoding and putting together again gives the newline split of the stream, each complete line
   * as its record, and exactly the streams whose records all fit within the limit get through.
   */
  lemma {:induction false} ReassemblyIsExact(c: Channel, bytes: seq<byte>, limit: nat)
    ensures Delivered(Gather([], StreamEvents(c, bytes))) == Records(SplitLines(bytes))
    ensures Fits([], StreamEvents(c, bytes), limit) <==>
            forall r :: r in Records(SplitLines(bytes)) ==> |r| <= limit
    decreases |bytes|
  {
    hide Feed, Record, Gather, Fits, SplitLines, StreamEvents;
    var parts := SplitLines(bytes);
    if |parts| == 1 {
      SplitOnly(bytes);
      LastLineIsDelivered(c, bytes, limit);
    } else {
      SplitFirst(bytes);
      var line, rest := parts[0], bytes[|parts[0]| + 1..];
      var head, tail := Feed(c, FRESH, line + [NL]).events, StreamEvents(c, rest);
      LineIsDelivered(c, line, limit);
      StreamEventsAppend(c, line, rest);
      ReassemblyIsExact(c, rest, limit);
      GatherAppend([], head, tail);
      FitsAppend([], head, tail, limit);
      assert Delivered(Gather([], head + tail)) == [Record(line)] + Delivered(Gather([], tail));
    }
  }

  /** What is still pending at the end is the text behind the last newline. */
  lemma {:induction false} PendingIsLast(c: Channel, bytes: seq<byte>)
    ensures var parts := SplitLines(bytes); Gather([], StreamEvents(c, bytes)).pending == parts[|parts| - 1]
    decreases |bytes|
  {
    hide Feed, Record, Gather, Fits, SplitLines, StreamEvents;
    var parts := SplitLines(bytes);
    if |parts| == 1 {
      SplitOnly(bytes);
      LastLineIsDelivered(c, bytes, 0);
    } else {
      SplitFirst(bytes);
      var line, rest := parts[0], bytes[|parts[0]| + 1..];
      LineIsDelivered(c, line, 0);
      StreamEventsAppend(c, line, rest);
      PendingIsLast(c, rest);
      GatherAppend([], Feed(c, FRESH, line + [NL]).events, StreamEvents(c, rest));
    }
  }

  lemma StreamEventsAppend(c: Channel, line: seq<byte>, rest: seq<byte>)
    requires Feed(c, FRESH, line + [NL]).writer == FRESH
    ensures StreamEvents(c, line + [NL] + rest) == Feed(c, FRESH, line + [NL]).events + StreamEvents(c, rest)
  {
    hide Feed;
    FeedAppend(c, FRESH, line + [NL], rest);
  }

  lemma LastLineIsDelivered(c: Channel, s: seq<byte>, limit: nat)
    requires NL !in s
    ensures var es := StreamEvents(c, s);
            && Gather([], es) == Gathered([], s) && Delivered(Gather([], es)) == (if s == [] then [] else [s])
            && (Fits([], es, limit) <==> |s| <= limit || s == [])
  {
    var fed := Feed(c, FRESH, s);
    var last := LastEvents(c, fed.writer);
    SegmentIsKept(c, FRESH, [], s, limit);
    assert [] + [] + s == s;
    var g := Gather([], fed.events);
    GatherAppend([], fed.events, last);
    FitsAppend([], fed.events, last, limit);
    if last == [] {
      assert g.pending == s;
    } else {
      assert last[1..] == [];
      assert Gather(g.pending, last).pending == s;
    }
  }

  // ---- The writer as the source has it -----------------------------------------

  /** The callback that receives events: it is offered them in order and may refuse any of them. */
  class Sink {
    const accepts: nat -> bool
    var offered: seq<LogEvent>

    constructor (accepts: nat -> bool)
      ensures this.accepts == accepts && offered == []
    {
      this.accepts, this.offered := accepts, [];
    }

    method Emit(event: LogEvent) returns (ok: bool)
      modifies this
      ensures offered == old(offered) + [event] && ok == accepts(|old(offered)|)
    {
      ok := accepts(|offered|);
      offered := offered + [event];
    }
  }

  /** A run of a writer against a callback: what was offered, and whether the last offer was refused. */
  datatype Run = Run(writer: Writer, offered: seq<LogEvent>, refused: bool)

  /** The writer when its flush has been refused: the byte is kept, unless it was a newline. */
  function Blocked(c: Channel, w: Writer, b: byte): Writer {
    if b == NL then w.(timestamp := EventOf(c, w, true).timestamp)
    else
      var w1 := w.(buffer := w.buffer + [b]);
      w1.(timestamp := EventOf(c, w1, false).timestamp)
  }

  function Pump(c: Channel, w: Writer, bytes: seq<byte>, accepts: nat -> bool, n: nat): Run
    decreases |bytes|
  {
    if bytes == [] then Run(w, [], false)
    else
      var first := Step(c, w, bytes[0]);
      if first.events != [] && !accepts(n) then Run(Blocked(c, w, bytes[0]), first.events, true)
      else
        var rest := Pump(c, first.writer, bytes[1..], accepts, n + |first.events|);
        rest.(offered := first.events + rest.offered)
  }

  /** Until the first refusal the writer does what `Feed` says; after it, nothing more. */
  lemma {:induction false} PumpFollowsFeed(c: Channel, w: Writer, bytes: seq<byte>, accepts: nat -> bool, n: nat)
    ensures var run, fed := Pump(c, w, bytes, accepts, n), Feed(c, w, bytes);
            && run.offered <= fed.events
            && (!run.refused ==> run.writer == fed.writer && run.offered == fed.events)
            && (run.refused ==> run.offered != [] && !accepts(n + |run.offered| - 1))
            && (forall k :: n <= k < n + |run.offered| - (if run.refused then 1 else 0) ==> accepts(k))
    decreases |bytes|
  {
    hide Step, Blocked;
    if bytes != [] {
      var first := Step(c, w, bytes[0]);
      if first.events == [] || accepts(n) {
        PumpFollowsFeed(c, first.writer, bytes[1..], accepts, n + |first.events|);
      }
    }
  }

  lemma PumpUnfolds(c: Channel, w: Writer, bytes: seq<byte>, accepts: nat -> bool, n: nat)
    ensures bytes == [] ==> Pump(c, w, bytes, accepts, n) == Run(w, [], false)
    ensures bytes != [] ==>
              var first := Step(c, w, bytes[0]);
              Pump(c, w, bytes, accepts, n) ==
              if first.events != [] && !accepts(n) then Run(Blocked(c, w, bytes[0]), first.events, true)
              else
                var rest := Pump(c, first.writer, bytes[1..], accepts, n + |first.events|);
                rest.(offered := first.events + rest.offered)
  {
  }

  lemma {:induction false} PumpAppend(c: Channel, w: Writer, a: seq<byte>, b: seq<byte>, accepts: nat -> bool, n: nat)
    ensures var x := Pump(c, w, a, accepts, n);
            var y := Pump(c, x.writer, b, accepts, n + |x.offered|);
            Pump(c, w, a + b, accepts, n) == if x.refused then x else y.(offered := x.offered + y.offered)
    decreases |a|
  {
    hide Step, Blocked, Pump;
    PumpUnfolds(c, w, a, accepts, n);
    PumpUnfolds(c, w, a + b, accepts, n);
    if a == [] {
      assert a + b == b;
    } else {
      assert (a + b)[1..] == a[1..] + b;
      var first := Step(c, w, a[0]);
      if first.events == [] || accepts(n) {
        PumpAppend(c, first.writer, a[1..], b, accepts, n + |first.events|);
        var x := Pump(c, first.writer, a[1..], accepts, n + |first.events|);
        var y := Pump(c, x.writer, b, accepts, n + |first.events| + |x.offered|);
        assert first.events + (x.offered + y.offered) == first.events + x.offered + y.offered;
        assert n + |first.events| + |x.offered| == n + |first.events + x.offered|;
      }
    }
  }

  class EventWriter {
    const channel: Channel
    const sink: Sink
    var buffer: seq<byte>
    var continued: bool
    var timestamp: seq<byte>

    ghost function State(): Writer
      reads this
    {
      Writer(buffer, continued, timestamp)
    }

    constructor (channel: Channel, sink: Sink)
      ensures this.channel == channel && this.sink == sink && State() == FRESH
    {
      this.channel, this.sink := channel, sink;
      this.buffer, this.continued, this.timestamp := [], false, [];
    }

    method Flush(end: bool) returns (ok: bool)
      modifies this, sink
      ensures old(buffer) == [] && !end ==> ok && sink.offered == old(sink.offered) && State() == old(State())
      ensures old(buffer) != [] || end ==>
                && sink.offered == old(sink.offered) + [EventOf(channel, old(State()), end)]
                && ok == sink.accepts(|old(sink.offered)|)
                && State() == if ok then Flushed(channel, old(State()), end)
                              else old(State()).(timestamp := EventOf(channel, old(State()), end).timestamp)
    {
      if buffer == [] && !end {
        return true;
      }
      var text := buffer;
      if end {
        text := TrimCR(text);
      }
      if !continued {
        timestamp := StampOf(channel, text);
      }
      ok := sink.Emit(LogEvent(channel.stream, text, timestamp, continued, end));
      if !ok {
        return;
      }
      buffer := [];
      continued := !end;
      if end {
        timestamp := [];
      }
    }

    method Write(p: seq<byte>) returns (ok: bool)
      modifies this, sink
      ensures var run := Pump(channel, old(State()), p, sink.accepts, |old(sink.offered)|);
              ok == !run.refused && State() == run.writer && sink.offered == old(sink.offered) + run.offered
    {
      hide Step, Blocked, Pump;
      ghost var n := |sink.offered|;
      ghost var w := State();
      NothingPumped(channel, w, sink.accepts, n);
      for i := 0 to |p|
        invariant var run := Pump(channel, w, p[..i], sink.accepts, n);
                  !run.refused && State() == run.writer && sink.offered == old(sink.offered) + run.offered
      {
        PumpAppend(channel, w, p[..i], [p[i]], sink.accepts, n);
        PumpAppend(channel, w, p[..i + 1], p[i + 1..], sink.accepts, n);
        assert p[..i + 1] == p[..i] + [p[i]] && p == p[..i + 1] + p[i + 1..];
        ok := Put(p[i]);
        if !ok {
          return;
        }
      }
      assert p[..|p|] == p;
      return true;
    }

    /** The loop body of `Write`. */
    method Put(b: byte) returns (ok: bool)
      modifies this, sink
      ensures var run := Pump(channel, old(State()), [b], sink.accepts, |old(sink.offered)|);
              ok == !run.refused && State() == run.writer && sink.offered == old(sink.offered) + run.offered
    {
      hide Pump;
      PumpOne(channel, State(), b, sink.accepts, |sink.offered|);
      if b == NL {
        ok := Flush(true);
        return;
      }
      buffer := buffer + [b];
      if |buffer| >= MAX_LINE && (Valid(buffer) || |buffer| >= MAX_LINE + RUNE_MAX) {
        ok := Flush(false);
        return;
      }
      return true;
    }
  }

  lemma NothingPumped(c: Channel, w: Writer, accepts: nat -> bool, n: nat)
    ensures Pump(c, w, [], accepts, n) == Run(w, [], false)
  {
  }

  lemma PumpOne(c: Channel, w: Writer, b: byte, accepts: nat -> bool, n: nat)
    ensures var first := Step(c, w, b);
            Pump(c, w, [b], accepts, n) ==
            if first.events != [] && !accepts(n) then Run(Blocked(c, w, b), first.events, true)
            else Run(first.writer, first.events, false)
  {
    assert [b][1..] == [];
  }
}
