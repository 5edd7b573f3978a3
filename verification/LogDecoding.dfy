/**
 * Decoding of a whole container log: two writers behind one multiplexed stream, and the
 * reassembly of complete records from their events (internal/inventory/logs.go).
 */
module LogDecoding {
  import opened Strings
  import opened Utf8
  import opened Logs

  /** One frame of Docker's multiplexed stream; a terminal stream is raw and has no second channel. */
  datatype Frame = Frame(stderr: bool, bytes: seq<byte>)

  datatype Source = Source(tty: bool, isStamp: seq<byte> -> bool, frames: seq<Frame>)

  function Out(s: Source): Channel { Channel(if s.tty then Combined else Stdout, s.isStamp) }

  function Err(s: Source): Channel { Channel(Stderr, s.isStamp) }

  predicate ToErr(s: Source, f: Frame) { f.stderr && !s.tty }

  datatype Pair = Pair(out: Writer, err: Writer, offered: seq<LogEvent>, refused: bool)

  const START := Pair(FRESH, FRESH, [], false)

  function PumpFrame(s: Source, p: Pair, f: Frame, accepts: nat -> bool): Pair {
    if p.refused then p
    else if ToErr(s, f) then
      var run := Pump(Err(s), p.err, f.bytes, accepts, |p.offered|);
      p.(err := run.writer, offered := p.offered + run.offered, refused := run.refused)
    else
      var run := Pump(Out(s), p.out, f.bytes, accepts, |p.offered|);
      p.(out := run.writer, offered := p.offered + run.offered, refused := run.refused)
  }

  function PumpFrames(s: Source, n: nat, accepts: nat -> bool): Pair
    requires n <= |s.frames|
  {
    if n == 0 then START else PumpFrame(s, PumpFrames(s, n - 1, accepts), s.frames[n - 1], accepts)
  }

  /** After the frames, or after a refusal, both writers still offer what they hold. */
  function Residue(s: Source, p: Pair): seq<LogEvent> {
    LastEvents(Out(s), p.out) + LastEvents(Err(s), p.err)
  }

  function Offered(s: Source, accepts: nat -> bool): seq<LogEvent> {
    var p := PumpFrames(s, |s.frames|, accepts);
    p.offered + Residue(s, p)
  }

  /** Both closing flushes, whatever the first comes to. */
  method FlushBoth(s: Source, stdout: EventWriter, stderr: EventWriter) returns (ok: bool)
    requires stdout.channel == Out(s) && stderr.channel == Err(s) && stdout != stderr && stdout.sink == stderr.sink
    modifies stdout, stderr, stdout.sink
    ensures stdout.sink.offered ==
            old(stdout.sink.offered) + LastEvents(Out(s), old(stdout.State())) + LastEvents(Err(s), old(stderr.State()))
    ensures ok <==> forall k :: |old(stdout.sink.offered)| <= k < |stdout.sink.offered| ==> stdout.sink.accepts(k)
  {
    hide EventOf, Flushed;
    var outOk := stdout.Flush(false);
    var errOk := stderr.Flush(false);
    ok := outOk && errOk;
  }

  /** `DecodeLogEvents` of the source: everything that is offered to the callback, in order. */
  method DecodeLogEvents(s: Source, sink: Sink) returns (ok: bool)
    requires sink.offered == []
    modifies sink
    ensures sink.offered == Offered(s, sink.accepts)
    ensures ok <==> forall k :: 0 <= k < |sink.offered| ==> sink.accepts(k)
  {
    hide Pump;
    var stdout := new EventWriter(Out(s), sink);
    var stderr := new EventWriter(Err(s), sink);
    ok := true;
    ghost var w := START;
    var i := 0;
    while i < |s.frames| && ok
      invariant 0 <= i <= |s.frames|
      invariant w == PumpFrames(s, i, sink.accepts) && w.refused == !ok
      invariant stdout.channel == Out(s) && stderr.channel == Err(s) && stdout.sink == sink && stderr.sink == sink
      invariant fresh(stdout) && fresh(stderr) && stdout != stderr
      invariant stdout.State() == w.out && stderr.State() == w.err && sink.offered == w.offered
      invariant ok ==> forall k :: 0 <= k < |sink.offered| ==> sink.accepts(k)
      invariant !ok ==> exists k :: 0 <= k < |sink.offered| && !sink.accepts(k)
    {
      ghost var n := |sink.offered|;
      PumpFollowsFeed(if ToErr(s, s.frames[i]) then Err(s) else Out(s), if ToErr(s, s.frames[i]) then w.err else w.out,
                      s.frames[i].bytes, sink.accepts, n);
      w := PumpFrame(s, w, s.frames[i], sink.accepts);
      if ToErr(s, s.frames[i]) {
        ok := stderr.Write(s.frames[i].bytes);
      } else {
        ok := stdout.Write(s.frames[i].bytes);
      }
      i := i + 1;
    }
    RefusalStops(s, i, sink.accepts);
    var flushed := FlushBoth(s, stdout, stderr);
    ok := ok && flushed;
  }

  lemma {:induction false} RefusalStops(s: Source, i: nat, accepts: nat -> bool)
    requires i <= |s.frames| && (PumpFrames(s, i, accepts).refused || i == |s.frames|)
    ensures PumpFrames(s, |s.frames|, accepts) == PumpFrames(s, i, accepts)
    decreases |s.frames| - i
  {
    if i < |s.frames| {
      RefusalStops(s, i + 1, accepts);
    }
  }

  // ---- One channel of the decoded stream ----------------------------------------

  function OfStream(events: seq<LogEvent>, stream: Stream): seq<LogEvent> {
    if events == [] then []
    else (if events[0].stream == stream then [events[0]] else []) + OfStream(events[1..], stream)
  }

  lemma {:induction false} OfStreamAppend(a: seq<LogEvent>, b: seq<LogEvent>, stream: Stream)
    ensures OfStream(a + b, stream) == OfStream(a, stream) + OfStream(b, stream)
  {
    if a == [] {
      assert a + b == b;
    } else {
      assert (a + b)[1..] == a[1..] + b && (a + b)[0] == a[0];
      OfStreamAppend(a[1..], b, stream);
      var first := if a[0].stream == stream then [a[0]] else [];
      assert first + (OfStream(a[1..], stream) + OfStream(b, stream)) == first + OfStream(a[1..], stream) + OfStream(b, stream);
    }
  }

  lemma {:induction false} OfOwnStream(events: seq<LogEvent>, own: Stream, stream: Stream)
    requires forall e :: e in events ==> e.stream == own
    ensures OfStream(events, stream) == if own == stream then events else []
  {
    if events != [] {
      OfOwnStream(events[1..], own, stream);
      assert [events[0]] + events[1..] == events;
    }
  }

  lemma {:induction false} FedIsOwn(c: Channel, w: Writer, bytes: seq<byte>)
    ensures forall e :: e in Feed(c, w, bytes).events ==> e.stream == c.stream
    decreases |bytes|
  {
    if bytes != [] {
      FedIsOwn(c, Step(c, w, bytes[0]).writer, bytes[1..]);
    }
  }

  /** All bytes of one channel, in order. */
  function ChannelBytes(s: Source, toErr: bool, n: nat): seq<byte>
    requires n <= |s.frames|
  {
    if n == 0 then []
    else ChannelBytes(s, toErr, n - 1) + if ToErr(s, s.frames[n - 1]) == toErr then s.frames[n - 1].bytes else []
  }

  /** The channel's writer and events are those of a writer that was fed these bytes alone. */
  ghost predicate AsAlone(s: Source, p: Pair, toErr: bool, bytes: seq<byte>) {
    var c := if toErr then Err(s) else Out(s);
    var alone := Feed(c, FRESH, bytes);
    !p.refused && (if toErr then p.err else p.out) == alone.writer && OfStream(p.offered, c.stream) == alone.events
  }

  lemma {:induction false} ChannelIsAlone(s: Source, n: nat, toErr: bool, accepts: nat -> bool)
    requires n <= |s.frames| && forall k :: accepts(k)
    ensures AsAlone(s, PumpFrames(s, n, accepts), toErr, ChannelBytes(s, toErr, n))
  {
    hide Pump, Feed, PumpFrame;
    if n == 0 {
      NothingFed(if toErr then Err(s) else Out(s));
    } else {
      hide AsAlone;
      ChannelIsAlone(s, n - 1, toErr, accepts);
      OneFrameMore(s, PumpFrames(s, n - 1, accepts), s.frames[n - 1], toErr, ChannelBytes(s, toErr, n - 1), accepts);
    }
  }

  lemma OneFrameMore(s: Source, p: Pair, f: Frame, toErr: bool, bytes: seq<byte>, accepts: nat -> bool)
    requires AsAlone(s, p, toErr, bytes) && forall k :: accepts(k)
    ensures AsAlone(s, PumpFrame(s, p, f, accepts), toErr, bytes + if ToErr(s, f) == toErr then f.bytes else [])
  {
    hide Pump, Feed;
    var c := if toErr then Err(s) else Out(s);
    var d, w := if ToErr(s, f) then Err(s) else Out(s), if ToErr(s, f) then p.err else p.out;
    PumpFollowsFeed(d, w, f.bytes, accepts, |p.offered|);
    var more := Feed(d, w, f.bytes).events;
    FedIsOwn(d, w, f.bytes);
    OfStreamAppend(p.offered, more, c.stream);
    OfOwnStream(more, d.stream, c.stream);
    hide OfStream;
    if ToErr(s, f) == toErr {
      FeedAppend(c, FRESH, bytes, f.bytes);
    } else {
      assert bytes + [] == bytes && OfStream(p.offered, c.stream) + [] == OfStream(p.offered, c.stream);
    }
  }

  /** When nothing is refused, each channel is decoded as if it were alone. */
  lemma ChannelsAreIndependent(s: Source, n: nat, accepts: nat -> bool)
    requires n <= |s.frames| && forall k :: accepts(k)
    ensures var p := PumpFrames(s, n, accepts);
            var out := Feed(Out(s), FRESH, ChannelBytes(s, false, n));
            var err := Feed(Err(s), FRESH, ChannelBytes(s, true, n));
            && !p.refused && p.out == out.writer && p.err == err.writer
            && OfStream(p.offered, Out(s).stream) == out.events
            && OfStream(p.offered, Stderr) == err.events
  {
    hide Feed, PumpFrames;
    ChannelIsAlone(s, n, false, accepts);
    ChannelIsAlone(s, n, true, accepts);
  }

  lemma NothingFed(c: Channel)
    ensures Feed(c, FRESH, []) == Fed(FRESH, [])
  {
  }

  /** The complete event sequence of one channel. */
  lemma OfferedPerChannel(s: Source, accepts: nat -> bool)
    requires forall k :: accepts(k)
    ensures OfStream(Offered(s, accepts), Out(s).stream) == StreamEvents(Out(s), ChannelBytes(s, false, |s.frames|))
    ensures OfStream(Offered(s, accepts), Stderr) == StreamEvents(Err(s), ChannelBytes(s, true, |s.frames|))
  {
    hide Pump, Feed;
    var p := PumpFrames(s, |s.frames|, accepts);
    ChannelsAreIndependent(s, |s.frames|, accepts);
    var a, b := LastEvents(Out(s), p.out), LastEvents(Err(s), p.err);
    assert p.offered + (a + b) == p.offered + a + b;
    forall stream | stream == Out(s).stream || stream == Stderr
      ensures OfStream(Offered(s, accepts), stream) == OfStream(p.offered, stream) + OfStream(a, stream) + OfStream(b, stream)
    {
      OfStreamAppend(p.offered + a, b, stream);
      OfStreamAppend(p.offered, a, stream);
    }
    OfOwnStream(a, Out(s).stream, Stderr);
    OfOwnStream(a, Out(s).stream, Out(s).stream);
    OfOwnStream(b, Stderr, Stderr);
    OfOwnStream(b, Stderr, Out(s).stream);
    assert forall es: seq<LogEvent> :: es + [] == es && [] + es == es;
  }

  // ---- Complete records ------------------------------------------------------------

  function Texts(lines: seq<LogLine>, stream: Stream): seq<seq<byte>> {
    if lines == [] then []
    else (if lines[0].stream == stream then [lines[0].text] else []) + Texts(lines[1..], stream)
  }

  lemma {:induction false} TextsSnoc(lines: seq<LogLine>, line: LogLine, stream: Stream)
    ensures Texts(lines + [line], stream) == Texts(lines, stream) + if line.stream == stream then [line.text] else []
  {
    if lines == [] {
      assert ([line])[1..] == [];
    } else {
      assert (lines + [line])[1..] == lines[1..] + [line] && (lines + [line])[0] == lines[0];
      TextsSnoc(lines[1..], line, stream);
      var first := if lines[0].stream == stream then [lines[0].text] else [];
      var last := if line.stream == stream then [line.text] else [];
      assert first + (Texts(lines[1..], stream) + last) == first + Texts(lines[1..], stream) + last;
    }
  }

  /** The streams of the lines, in order. */
  function StreamsOf(lines: seq<LogLine>): seq<Stream> {
    if lines == [] then [] else StreamsOf(lines[..|lines| - 1]) + [lines[|lines| - 1].stream]
  }

  /** The streams whose records end, in the order in which they do. */
  function Ends(events: seq<LogEvent>): seq<Stream> {
    if events == [] then []
    else
      var last := events[|events| - 1];
      Ends(events[..|events| - 1]) + if last.lineEnd then [last.stream] else []
  }

  /** Lines are told by the order of their streams and the texts of each stream. */
  lemma {:induction false} LinesAreTold(a: seq<LogLine>, b: seq<LogLine>)
    requires StreamsOf(a) == StreamsOf(b) && forall stream :: Texts(a, stream) == Texts(b, stream)
    ensures a == b
    decreases |a|
  {
    if a != [] && b != [] {
      var x, y := a[|a| - 1], b[|b| - 1];
      var a1, b1 := a[..|a| - 1], b[..|b| - 1];
      assert a == a1 + [x] && b == b1 + [y];
      assert StreamsOf(a1) + [x.stream] == StreamsOf(b1) + [y.stream];
      assert (StreamsOf(a1) + [x.stream])[|StreamsOf(a1)|] == x.stream;
      assert (StreamsOf(a1) + [x.stream])[..|StreamsOf(a1)|] == StreamsOf(a1);
      assert (StreamsOf(b1) + [y.stream])[..|StreamsOf(b1)|] == StreamsOf(b1);
      forall stream ensures Texts(a1, stream) == Texts(b1, stream) {
        TextsSnoc(a1, x, stream);
        TextsSnoc(b1, y, stream);
        LastIsSame(Texts(a1, stream), Texts(b1, stream), x.text, y.text, stream == x.stream);
      }
      TextsSnoc(a1, x, x.stream);
      TextsSnoc(b1, y, x.stream);
      LastIsSame(Texts(a1, x.stream), Texts(b1, x.stream), x.text, y.text, true);
      hide StreamsOf, Texts;
      LinesAreTold(a1, b1);
    }
  }

  lemma LastIsSame(s: seq<seq<byte>>, t: seq<seq<byte>>, x: seq<byte>, y: seq<byte>, both: bool)
    requires s + (if both then [x] else []) == t + if both then [y] else []
    ensures s == t && (both ==> x == y)
  {
    if both {
      assert (s + [x])[|s|] == x && (s + [x])[..|s|] == s && (t + [y])[..|t|] == t && |s + [x]| == |t + [y]|;
    } else {
      assert s + [] == s && t + [] == t;
    }
  }

  const KEYS := [Stdout, Stderr, Combined]

  /** The streams that hold text, in the order in which it is delivered. */
  function Holding(pending: map<Stream, seq<byte>>, keys: seq<Stream>): seq<Stream> {
    if keys == [] then []
    else
      var last := keys[|keys| - 1];
      Holding(pending, keys[..|keys| - 1]) + if Held(pending, last) != [] then [last] else []
  }

  /** The streams of the source whose last line has no end. */
  function Unended(s: Source, keys: seq<Stream>): seq<Stream> {
    if keys == [] then []
    else
      var last := keys[|keys| - 1];
      Unended(s, keys[..|keys| - 1])
      + if (last == Out(s).stream && IsOpen(ChannelBytes(s, false, |s.frames|)))
           || (last == Stderr && IsOpen(ChannelBytes(s, true, |s.frames|)))
        then [last] else []
  }

  predicate IsOpen(bytes: seq<byte>) {
    var parts := SplitLines(bytes);
    parts[|parts| - 1] != []
  }

  lemma {:induction false} HoldingIsUnended(s: Source, pending: map<Stream, seq<byte>>, keys: seq<Stream>)
    requires forall k :: k in pending ==> k == Out(s).stream || k == Stderr
    requires Held(pending, Out(s).stream) != [] <==> IsOpen(ChannelBytes(s, false, |s.frames|))
    requires Held(pending, Stderr) != [] <==> IsOpen(ChannelBytes(s, true, |s.frames|))
    ensures Holding(pending, keys) == Unended(s, keys)
  {
    hide IsOpen;
    if keys != [] {
      HoldingIsUnended(s, pending, keys[..|keys| - 1]);
    }
  }

  function Held(pending: map<Stream, seq<byte>>, stream: Stream): seq<byte> {
    if stream in pending then pending[stream] else []
  }

  /** What has been put together so far from the first events. */
  ghost predicate Assembled(events: seq<LogEvent>, lines: seq<LogLine>, pending: map<Stream, seq<byte>>, stream: Stream) {
    var g := Gather([], OfStream(events, stream));
    Texts(lines, stream) == g.lines && Held(pending, stream) == g.pending && Fits([], OfStream(events, stream), MAX_PAGE)
  }

  function Collected(lines: seq<LogLine>, text: seq<byte>, event: LogEvent): seq<LogLine> {
    if event.lineEnd then lines + [LogLine(event.stream, text)] else lines
  }

  function Kept(pending: map<Stream, seq<byte>>, text: seq<byte>, event: LogEvent): map<Stream, seq<byte>> {
    if event.lineEnd then pending - {event.stream} else pending[event.stream := text]
  }

  /** An event of another channel leaves this one as it is. */
  lemma OtherIsAssembled(events: seq<LogEvent>, event: LogEvent, lines: seq<LogLine>,
                         pending: map<Stream, seq<byte>>, text: seq<byte>, stream: Stream)
    requires Assembled(events, lines, pending, stream) && event.stream != stream
    ensures Assembled(events + [event], Collected(lines, text, event), Kept(pending, text, event), stream)
  {
    OfStreamAppend(events, [event], stream);
    assert OfStream([event], stream) == [];
    hide OfStream, Texts;
    TextsSnoc(lines, LogLine(event.stream, text), stream);
    assert OfStream(events, stream) + [] == OfStream(events, stream);
    assert Texts(lines, stream) + [] == Texts(lines, stream);
  }

  lemma EventIsAssembled(events: seq<LogEvent>, event: LogEvent, lines: seq<LogLine>,
                         pending: map<Stream, seq<byte>>, stream: Stream)
    requires Assembled(events, lines, pending, stream)
    ensures var text := Held(pending, event.stream) + event.text;
            if event.stream == stream && |text| > MAX_PAGE then !Fits([], OfStream(events + [event], stream), MAX_PAGE)
            else Assembled(events + [event], Collected(lines, text, event), Kept(pending, text, event), stream)
  {
    var text := Held(pending, event.stream) + event.text;
    if event.stream != stream {
      OtherIsAssembled(events, event, lines, pending, text, stream);
    } else {
      var before := OfStream(events, stream);
      OfStreamAppend(events, [event], stream);
      OfOwnStream([event], stream, stream);
      hide OfStream, Texts, Gather, Fits;
      GatherAppend([], before, [event]);
      FitsAppend([], before, [event], MAX_PAGE);
      OneEvent(Gather([], before).pending, event, MAX_PAGE);
      TextsSnoc(lines, LogLine(event.stream, text), stream);
      assert Gather([], before).lines + [] == Gather([], before).lines;
    }
  }

  lemma TooLong(events: seq<LogEvent>, n: nat, stream: Stream)
    requires n <= |events| && !Fits([], OfStream(events[..n], stream), MAX_PAGE)
    ensures !Fits([], OfStream(events, stream), MAX_PAGE)
  {
    assert events == events[..n] + events[n..];
    OfStreamAppend(events[..n], events[n..], stream);
    FitsAppend([], OfStream(events[..n], stream), OfStream(events[n..], stream), MAX_PAGE);
  }

  predicate AllWithin(records: seq<seq<byte>>, limit: nat) {
    forall r :: r in records ==> |r| <= limit
  }

  function ChannelRecords(s: Source, toErr: bool): seq<seq<byte>> {
    Records(SplitLines(ChannelBytes(s, toErr, |s.frames|)))
  }

  lemma RecordsPerChannel(s: Source, accepts: nat -> bool, toErr: bool)
    requires forall k :: accepts(k)
    ensures var stream := if toErr then Stderr else Out(s).stream;
            var es := OfStream(Offered(s, accepts), stream);
            && Delivered(Gather([], es)) == ChannelRecords(s, toErr)
            && (Fits([], es, MAX_PAGE) <==> AllWithin(ChannelRecords(s, toErr), MAX_PAGE))
            && (Gather([], es).pending != [] <==> IsOpen(ChannelBytes(s, toErr, |s.frames|)))
  {
    hide Offered, StreamEvents, Gather, Fits, Records, SplitLines;
    OfferedPerChannel(s, accepts);
    PendingIsLast(if toErr then Err(s) else Out(s), ChannelBytes(s, toErr, |s.frames|));
    ReassemblyIsExact(if toErr then Err(s) else Out(s), ChannelBytes(s, toErr, |s.frames|), MAX_PAGE);
  }

  /**
   * `DecodeLogs` of the source: it succeeds exactly when every record fits the snapshot limit. Then each
   * channel's lines are the newline split of that channel's bytes, and all lines are in the order in
   * which their records ended, unterminated ones last.
   */
  method DecodeLogs(s: Source) returns (r: Option<seq<LogLine>>)
    ensures r.Some? <==> AllWithin(ChannelRecords(s, false), MAX_PAGE) && AllWithin(ChannelRecords(s, true), MAX_PAGE)
    ensures r.Some? ==> Texts(r.value, Out(s).stream) == ChannelRecords(s, false)
    ensures r.Some? ==> Texts(r.value, Stderr) == ChannelRecords(s, true)
    ensures r.Some? ==> StreamsOf(r.value) == Ends(Offered(s, (_: nat) => true)) + Unended(s, KEYS)
  {
    hide ChannelRecords, Gather, Fits, Offered, OfStream, Texts, Unended, Holding, IsOpen, StreamsOf, Ends, Assembled;
    var accepts := (_: nat) => true;
    var sink := new Sink(accepts);
    var _ := DecodeLogEvents(s, sink);
    var events := sink.offered;
    var pending: map<Stream, seq<byte>> := map[];
    var lines: seq<LogLine> := [];
    NothingCollected(s);
    for i := 0 to |events|
      invariant CollectedSoFar(s, events[..i], lines, pending)
    {
      var event := events[i];
      var text := Held(pending, event.stream) + event.text;
      assert events[..i + 1] == events[..i] + [event];
      EventsAreOfChannels(s, accepts, i);
      EventIsCollected(s, events[..i], event, lines, pending);
      if |text| > MAX_PAGE {
        RecordsPerChannel(s, accepts, event.stream == Stderr);
        TooLong(events, i + 1, event.stream);
        return None;
      }
      lines := Collected(lines, text, event);
      pending := Kept(pending, text, event);
    }
    assert events[..|events|] == events;
    EndIsDelivered(s, accepts, lines, pending);
    lines := EmitHeld(lines, pending);
    return Some(lines);
  }

  /** Both channels are assembled, the lines are in the order of their ends, and no other stream holds text. */
  ghost predicate CollectedSoFar(s: Source, events: seq<LogEvent>, lines: seq<LogLine>, pending: map<Stream, seq<byte>>) {
    && Assembled(events, lines, pending, Out(s).stream) && Assembled(events, lines, pending, Stderr)
    && StreamsOf(lines) == Ends(events)
    && forall k :: k in pending ==> k == Out(s).stream || k == Stderr
  }

  lemma NothingCollected(s: Source)
    ensures CollectedSoFar(s, [], [], map[])
  {
    NothingAssembled(Out(s).stream);
    NothingAssembled(Stderr);
  }

  lemma EventIsCollected(s: Source, events: seq<LogEvent>, event: LogEvent, lines: seq<LogLine>, pending: map<Stream, seq<byte>>)
    requires CollectedSoFar(s, events, lines, pending) && (event.stream == Out(s).stream || event.stream == Stderr)
    ensures var text := Held(pending, event.stream) + event.text;
            if |text| > MAX_PAGE then !Fits([], OfStream(events + [event], event.stream), MAX_PAGE)
            else CollectedSoFar(s, events + [event], Collected(lines, text, event), Kept(pending, text, event))
  {
    hide Assembled;
    EventIsAssembled(events, event, lines, pending, Out(s).stream);
    EventIsAssembled(events, event, lines, pending, Stderr);
    OneMoreEnds(events, event, lines, Held(pending, event.stream) + event.text);
    hide StreamsOf, Ends, Collected;
  }

  /** What all events come to, once the text that is still held is delivered. */
  lemma EndIsDelivered(s: Source, accepts: nat -> bool, lines: seq<LogLine>, pending: map<Stream, seq<byte>>)
    requires (forall k :: accepts(k)) && CollectedSoFar(s, Offered(s, accepts), lines, pending)
    ensures AllWithin(ChannelRecords(s, false), MAX_PAGE) && AllWithin(ChannelRecords(s, true), MAX_PAGE)
    ensures forall toErr ::
              var k := if toErr then Stderr else Out(s).stream;
              Texts(lines, k) + (if Held(pending, k) == [] then [] else [Held(pending, k)]) == ChannelRecords(s, toErr)
    ensures Holding(pending, KEYS) == Unended(s, KEYS)
  {
    hide ChannelRecords, Gather, Fits, Offered, OfStream, Texts, Unended, Holding, IsOpen, Held;
    RecordsPerChannel(s, accepts, false);
    RecordsPerChannel(s, accepts, true);
    forall toErr ensures
      var k := if toErr then Stderr else Out(s).stream;
      Texts(lines, k) + (if Held(pending, k) == [] then [] else [Held(pending, k)]) == ChannelRecords(s, toErr)
    {
      var k := if toErr then Stderr else Out(s).stream;
      assert Assembled(Offered(s, accepts), lines, pending, k);
      assert Texts(lines, k) + [] == Texts(lines, k);
    }
    HoldingIsUnended(s, pending, KEYS);
  }

  lemma OneMoreEnds(events: seq<LogEvent>, event: LogEvent, lines: seq<LogLine>, text: seq<byte>)
    requires StreamsOf(lines) == Ends(events)
    ensures StreamsOf(Collected(lines, text, event)) == Ends(events + [event])
  {
    assert (events + [event])[..|events|] == events;
    assert (lines + [LogLine(event.stream, text)])[..|lines|] == lines;
  }

  /** Unterminated records come last, channel by channel. */
  method EmitHeld(complete: seq<LogLine>, pending: map<Stream, seq<byte>>) returns (lines: seq<LogLine>)
    ensures forall stream :: Texts(lines, stream) ==
                             Texts(complete, stream) + if Held(pending, stream) == [] then [] else [Held(pending, stream)]
    ensures StreamsOf(lines) == StreamsOf(complete) + Holding(pending, KEYS)
  {
    hide Emitted, Held;
    lines := complete;
    var keys := KEYS;
    NothingEmitted(complete, pending);
    for k := 0 to |keys|
      invariant Emitted(complete, pending, keys[..k], lines)
    {
      var text := Held(pending, keys[k]);
      assert keys[..k + 1] == keys[..k] + [keys[k]] && keys[k] !in keys[..k];
      OneMoreEmitted(complete, pending, keys[..k], keys[k], lines);
      if text != [] {
        lines := lines + [LogLine(keys[k], text)];
      }
    }
    assert keys[..|keys|] == keys;
    AllEmitted(complete, pending, lines);
  }

  /** The text held for these streams has been delivered, in their order. */
  ghost predicate Emitted(complete: seq<LogLine>, pending: map<Stream, seq<byte>>, keys: seq<Stream>, lines: seq<LogLine>) {
    && StreamsOf(lines) == StreamsOf(complete) + Holding(pending, keys)
    && forall stream :: Texts(lines, stream) == Late(complete, pending, keys, stream)
  }

  lemma NothingEmitted(complete: seq<LogLine>, pending: map<Stream, seq<byte>>)
    ensures Emitted(complete, pending, [], complete)
  {
    assert StreamsOf(complete) + [] == StreamsOf(complete);
    forall stream ensures Texts(complete, stream) == Late(complete, pending, [], stream) {
    }
  }

  function Late(complete: seq<LogLine>, pending: map<Stream, seq<byte>>, keys: seq<Stream>, stream: Stream): seq<seq<byte>> {
    Texts(complete, stream) + if stream in keys && Held(pending, stream) != [] then [Held(pending, stream)] else []
  }

  lemma OneMoreEmitted(complete: seq<LogLine>, pending: map<Stream, seq<byte>>, keys: seq<Stream>, key: Stream, lines: seq<LogLine>)
    requires Emitted(complete, pending, keys, lines) && key !in keys
    ensures var text := Held(pending, key);
            Emitted(complete, pending, keys + [key], if text != [] then lines + [LogLine(key, text)] else lines)
  {
    hide Texts, Held, StreamsOf;
    var text := Held(pending, key);
    assert (keys + [key])[..|keys|] == keys;
    StreamsSnoc(lines, LogLine(key, text));
    forall stream
      ensures Texts(if text != [] then lines + [LogLine(key, text)] else lines, stream) == Late(complete, pending, keys + [key], stream)
    {
      TextsSnoc(lines, LogLine(key, text), stream);
      LateByKey(complete, pending, keys, key, stream);
    }
    hide Late;
  }

  lemma LateByKey(complete: seq<LogLine>, pending: map<Stream, seq<byte>>, keys: seq<Stream>, key: Stream, stream: Stream)
    requires key !in keys
    ensures Late(complete, pending, keys + [key], stream) ==
            Late(complete, pending, keys, stream) + if stream == key && Held(pending, key) != [] then [Held(pending, key)] else []
    ensures Late(complete, pending, keys, stream) + [] == Late(complete, pending, keys, stream)
  {
    hide Texts, Held;
  }

  lemma AllEmitted(complete: seq<LogLine>, pending: map<Stream, seq<byte>>, lines: seq<LogLine>)
    requires Emitted(complete, pending, KEYS, lines)
    ensures StreamsOf(lines) == StreamsOf(complete) + Holding(pending, KEYS)
    ensures forall stream :: Texts(lines, stream) ==
                             Texts(complete, stream) + if Held(pending, stream) == [] then [] else [Held(pending, stream)]
  {
    forall stream: Stream ensures stream in KEYS {
      match stream
      case Stdout => assert KEYS[0] == Stdout;
      case Stderr => assert KEYS[1] == Stderr;
      case Combined => assert KEYS[2] == Combined;
    }
    hide StreamsOf, Texts, Held, Holding;
  }

  lemma StreamsSnoc(lines: seq<LogLine>, line: LogLine)
    ensures StreamsOf(lines + [line]) == StreamsOf(lines) + [line.stream]
  {
    assert (lines + [line])[..|lines|] == lines;
  }

  lemma NothingAssembled(stream: Stream)
    ensures Assembled([], [], map[], stream)
  {
  }

  lemma {:induction false} EventsAreOfChannels(s: Source, accepts: nat -> bool, i: nat)
    requires (forall k :: accepts(k)) && i < |Offered(s, accepts)|
    ensures var e := Offered(s, accepts)[i]; e.stream == Out(s).stream || e.stream == Stderr
  {
    var p := PumpFrames(s, |s.frames|, accepts);
    FramesAreOfChannels(s, |s.frames|, accepts);
  }

  lemma {:induction false} FramesAreOfChannels(s: Source, n: nat, accepts: nat -> bool)
    requires n <= |s.frames|
    ensures forall e :: e in PumpFrames(s, n, accepts).offered ==> e.stream == Out(s).stream || e.stream == Stderr
  {
    hide Pump, Feed;
    if n > 0 {
      FramesAreOfChannels(s, n - 1, accepts);
      var p, f := PumpFrames(s, n - 1, accepts), s.frames[n - 1];
      var c, w := if ToErr(s, f) then Err(s) else Out(s), if ToErr(s, f) then p.err else p.out;
      PumpFollowsFeed(c, w, f.bytes, accepts, |p.offered|);
      FedIsOwn(c, w, f.bytes);
      var run := Pump(c, w, f.bytes, accepts, |p.offered|);
      forall e | e in run.offered ensures e.stream == c.stream {
        assert e in Feed(c, w, f.bytes).events;
      }
    }
  }
}
