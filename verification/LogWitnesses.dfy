/**
 * Logs on which paging goes wrong, each decoded from a stream that a container can write: what
 * `LogPaging` and `LogHistory` exclude does happen, whatever timestamps there are.
 */
module LogWitnesses {
  import opened Strings
  import opened Utf8
  import opened Logs
  import opened LogDecoding
  import opened LogHistory
  import opened LogPaging

  /** A timestamp: what parses as one, up to 40 printing ASCII characters, as RFC 3339 has them. */
  ghost predicate IsStamp(isStamp: seq<byte> -> bool, t: seq<byte>) {
    isStamp(t) && 0 < |t| <= 40 && forall i :: 0 <= i < |t| ==> SPACE < t[i] < 0x80
  }

  /** The event for a stamped text that does not end in a CR. */
  lemma StampedEvent(c: Channel, t: seq<byte>, rest: seq<byte>, end: bool)
    requires IsStamp(c.isStamp, t) && (rest != [] ==> rest[|rest| - 1] != CR)
    ensures EventOf(c, Writer(t + [SPACE] + rest, false, []), end) == LogEvent(c.stream, t + [SPACE] + rest, t, false, end)
  {
    StampBefore(t, rest);
  }

  // ---- Logs of short lines ------------------------------------------------------------

  datatype Line = Line(err: bool, text: seq<byte>)

  function FrameOf(line: Line): Frame { Frame(line.err, line.text + [NL]) }

  /** One frame to a line. */
  function Lines(isStamp: seq<byte> -> bool, lines: seq<Line>): Source {
    Source(false, isStamp, seq(|lines|, i requires 0 <= i < |lines| => FrameOf(lines[i])))
  }

  function EventFor(s: Source, line: Line): LogEvent {
    EventOf(ChannelOf(s, line.err), Writer(line.text, false, []), true)
  }

  predicate Short(line: Line) { NL !in line.text && |line.text| < MAX_LINE }

  /** A short line is one event, whoever listens. */
  lemma ShortLineFed(c: Channel, w: Writer, text: seq<byte>)
    requires NL !in text && |w.buffer + text| < MAX_LINE && !w.continued && w.timestamp == []
    ensures Feed(c, w, text + [NL]) == Fed(FRESH, [EventOf(c, Writer(w.buffer + text, false, []), true)])
  {
    NothingCut(c, w, text);
    FeedAppend(c, w, text, [NL]);
    assert [NL][1..] == [];
    assert Feed(c, w.(buffer := w.buffer + text), [NL]) == Step(c, w.(buffer := w.buffer + text), NL);
  }

  function EventsFor(s: Source, lines: seq<Line>, n: nat): seq<LogEvent>
    requires n <= |lines|
  {
    seq(n, i requires 0 <= i < n => EventFor(s, lines[i]))
  }

  lemma {:induction false} LinesPumped(isStamp: seq<byte> -> bool, lines: seq<Line>, n: nat)
    requires n <= |lines| && forall i :: 0 <= i < |lines| ==> Short(lines[i])
    ensures var s := Lines(isStamp, lines); PumpFrames(s, n, Always()) == Pair(FRESH, FRESH, EventsFor(s, lines, n), false)
  {
    hide Pump, Feed, EventFor;
    var s := Lines(isStamp, lines);
    if n > 0 {
      LinesPumped(isStamp, lines, n - 1);
      NeverRefused(s, n);
      LinePumped(s, lines[n - 1], n - 1);
      assert EventsFor(s, lines, n) == EventsFor(s, lines, n - 1) + [EventFor(s, lines[n - 1])];
    }
  }

  lemma LinePumped(s: Source, line: Line, n: nat)
    requires Short(line)
    ensures var run := Pump(ChannelOf(s, line.err), FRESH, line.text + [NL], Always(), n);
            !run.refused ==> run.writer == FRESH && run.offered == [EventFor(s, line)]
  {
    hide Pump, Feed, EventOf;
    var c := ChannelOf(s, line.err);
    ShortLineFed(c, FRESH, line.text);
    PumpFollowsFeed(c, FRESH, line.text + [NL], Always(), n);
    assert [] + line.text == line.text;
  }

  /** A line that consists of its timestamp. */
  datatype Mark = Mark(err: bool, stamp: seq<byte>)

  function BareLines(marks: seq<Mark>): seq<Line> {
    seq(|marks|, i requires 0 <= i < |marks| => Line(marks[i].err, marks[i].stamp + [SPACE]))
  }

  function StreamOf(err: bool): Stream { if err then Stderr else Stdout }

  function BareEvent(m: Mark): LogEvent { LogEvent(StreamOf(m.err), m.stamp + [SPACE], m.stamp, false, true) }

  lemma BareIsSmall(s: Source, m: Mark)
    requires !s.tty && IsStamp(s.isStamp, m.stamp)
    ensures var line := Line(m.err, m.stamp + [SPACE]); Short(line) && EventFor(s, line) == BareEvent(m)
    ensures JsonSize(BareEvent(m)) < SMALL
  {
    hide JsonLength;
    StampedEvent(ChannelOf(s, m.err), m.stamp, [], true);
    assert m.stamp + [SPACE] + [] == m.stamp + [SPACE];
  }

  /** The same log, whenever it is opened. */
  function EnvOf(when: seq<byte> -> int, s: Source): Env {
    Env(when, (e: LogEvent) => JsonSize(e), (_: seq<byte>) => Log(s))
  }

  function BareSource(isStamp: seq<byte> -> bool, marks: seq<Mark>): Source { Lines(isStamp, BareLines(marks)) }

  /** Logs of bare lines, event by event. */
  lemma BareLog(when: seq<byte> -> int, isStamp: seq<byte> -> bool, marks: seq<Mark>)
    requires forall m :: m in marks ==> IsStamp(isStamp, m.stamp)
    ensures var s := BareSource(isStamp, marks);
            var all := Log(s).events;
            && SameLog(EnvOf(when, s), all) && |all| == |marks|
            && forall i :: 0 <= i < |all| ==> all[i] == BareEvent(marks[i])
  {
    hide PumpFrames, JsonSize, EventFor, BareEvent;
    var s, lines := BareSource(isStamp, marks), BareLines(marks);
    forall i | 0 <= i < |marks|
      ensures Short(lines[i]) && EventFor(s, lines[i]) == BareEvent(marks[i]) && JsonSize(BareEvent(marks[i])) < SMALL
    {
      assert marks[i] in marks;
      BareIsSmall(s, marks[i]);
    }
    LinesPumped(isStamp, lines, |lines|);
    var all := Log(s).events;
    forall i | 0 <= i < |all| ensures all[i] == BareEvent(marks[i]) && all[i].timestamp != [] {
      assert marks[i] in marks && BareEvent(marks[i]).timestamp == marks[i].stamp by {
        StampOfBare(marks[i]);
      }
    }
    SmallEvents(EnvOf(when, s), all);
  }

  lemma StampOfBare(m: Mark)
    ensures BareEvent(m).timestamp == m.stamp && BareEvent(m).stream == StreamOf(m.err)
  {
  }

  lemma SmallEvents(env: Env, all: seq<LogEvent>)
    requires forall i :: 0 <= i < |all| ==> env.size(all[i]) < SMALL && all[i].timestamp != []
    ensures Small(env, all) && Stamped(all)
  {
    forall e | e in all ensures env.size(e) < SMALL && e.timestamp != [] {
      var i :| 0 <= i < |all| && all[i] == e;
    }
  }

  // ---- Pages of small events -------------------------------------------------------------

  const SMALL := 600

  ghost predicate Small(env: Env, es: seq<LogEvent>) {
    forall e :: e in es ==> env.size(e) < SMALL
  }

  lemma {:induction false} SmallWeight(env: Env, es: seq<LogEvent>)
    requires Small(env, es)
    ensures Weight(env, es) <= SMALL * |es|
  {
    if es != [] {
      SmallWeight(env, es[..|es| - 1]);
      assert es[|es| - 1] in es;
    }
  }

  /** A page of small events is full when it has 1000 of them, and not before. */
  lemma RoomForLines(env: Env, es: seq<LogEvent>, e: LogEvent)
    requires Small(env, es) && env.size(e) < SMALL
    ensures NoRoom(env, es, e) <==> |es| >= MAX_LINES
  {
    SmallWeight(env, es);
  }

  ghost predicate SameLog(env: Env, all: seq<LogEvent>) {
    && Small(env, all) && Stamped(all)
    && forall stamp :: env.open(stamp).events == all
  }

  lemma RoomInLog(env: Env, all: seq<LogEvent>, k: nat)
    requires Small(env, all) && k <= |all|
    ensures forall j :: k <= j < |all| ==> (NoRoom(env, all[k..j], all[j]) <==> j - k >= MAX_LINES)
  {
    hide NoRoom;
    forall j | k <= j < |all| ensures NoRoom(env, all[k..j], all[j]) <==> j - k >= MAX_LINES {
      assert all[j] in all && forall e :: e in all[k..j] ==> e in all;
      RoomForLines(env, all[k..j], all[j]);
    }
  }

  lemma OpensWhole(env: Env, all: seq<LogEvent>, stamp: seq<byte>)
    requires SameLog(env, all)
    ensures OpensAt(env, all, stamp, 0) && all[0..] == all
  {
  }

  lemma ReadingOfPage(env: Env, all: seq<LogEvent>, k: nat, c: Cursor, a: nat, b: Building)
    requires k <= a < |all| && Stamped(all) && Reading(env, all, k, c, a, b) && Judge(env, c, b, all[a]) == Full
    ensures b.lines == all[k..a] && b.next == Advanced(c, b.lines) && Denotes(env, all, a, b.next)
    ensures NoRoom(env, all[k..a], all[a])
  {
    FullPage(env, all, k, c, a, b, []);
  }

  lemma ScanOfCleanPage(env: Env, all: seq<LogEvent>, k: nat, c: Cursor) returns (b: Building)
    requires SameLog(env, all) && k + MAX_LINES < |all| && Denotes(env, all, k, c) && CleanCut(env, all, k)
    ensures Scan(env, c, all, 0, Begin(c)) == (b, FullAt(k + MAX_LINES))
    ensures b.lines == all[k..k + MAX_LINES] && b.next == Advanced(c, b.lines) && Denotes(env, all, k + MAX_LINES, b.next)
  {
    hide Denotes, CleanCut, NoRoom, Resumed, Scan, Judge, Reading, OpensAt, ResumesExactly;
    OpensWhole(env, all, c.stamp);
    ExactIffClean(env, all, k);
    ReadingStarts(env, all, k, c, 0);
    ScanIsExact(env, all, k, c, 0, 0, Begin(c));
    RoomInLog(env, all, k);
    var stop := Scan(env, c, all, 0, Begin(c)).1;
    b := Scan(env, c, all, 0, Begin(c)).0;
    assert NoRoom(env, all[k..k + MAX_LINES], all[k + MAX_LINES]);
    if stop.FullAt? {
      ReadingOfPage(env, all, k, c, stop.i, b);
    }
  }

  /** At a clean cut a page takes the next 1000 events, if there are more. */
  lemma CleanPage(env: Env, all: seq<LogEvent>, k: nat, c: Cursor)
    requires SameLog(env, all) && k + MAX_LINES < |all| && Denotes(env, all, k, c) && CleanCut(env, all, k)
    ensures PageOf(env, c) == Some(Page(all[k..k + MAX_LINES], Some(Advanced(c, all[k..k + MAX_LINES]))))
    ensures Denotes(env, all, k + MAX_LINES, Advanced(c, all[k..k + MAX_LINES]))
  {
    hide Denotes, CleanCut, Scan, Advanced;
    var b := ScanOfCleanPage(env, all, k, c);
    LongPageStays(env, c, b, env.open(c.stamp).tail(k + MAX_LINES));
  }

  // ---- A timestamp that goes back -----------------------------------------------------

  lemma {:induction false} CountUniform(env: Env, all: seq<LogEvent>, n: nat, at: int, s: Stream)
    requires n <= |all| && forall j :: 0 <= j < n ==> env.when(all[j].timestamp) == at && all[j].stream == s
    ensures forall t :: Count(env, all, n, at, t) == if t == s then n else 0
  {
    if n > 0 {
      CountUniform(env, all, n - 1, at, s);
    }
  }

  lemma {:induction false} SkippedOver(env: Env, all: seq<LogEvent>, k: nat, m: nat, n: nat)
    requires k <= |all| && m <= n <= |all| && forall j: nat :: m <= j < n ==> !Resumed(env, all, k, j)
    ensures Deliveries(env, all, k, n) == Deliveries(env, all, k, m)
    decreases n
  {
    hide Resumed;
    if m < n {
      SkippedOver(env, all, k, m, n - 1);
    }
  }

  lemma {:induction false} AllDelivered(env: Env, all: seq<LogEvent>, k: nat, n: nat)
    requires k <= |all| && n <= |all| && forall j: nat :: j < n ==> Resumed(env, all, k, j)
    ensures Deliveries(env, all, k, n) == all[..n]
  {
    hide Resumed;
    if n > 0 {
      AllDelivered(env, all, k, n - 1);
      assert all[..n] == all[..n - 1] + [all[n - 1]];
    }
  }

  /** 1000 events of one instant on one stream, and one of an earlier instant behind them. */
  ghost predicate Backward(env: Env, all: seq<LogEvent>, early: seq<byte>, late: seq<byte>, s: Stream) {
    && SameLog(env, all) && |all| == MAX_LINES + 1 && env.when(early) < env.when(late)
    && (forall i :: 0 <= i < MAX_LINES ==> all[i].stream == s && all[i].timestamp == late)
    && all[MAX_LINES].timestamp == early
  }

  /** After the 1000 events, reading on passes over them and over the earlier one behind them. */
  lemma NothingBehind(env: Env, all: seq<LogEvent>, early: seq<byte>, late: seq<byte>, s: Stream, c: Cursor)
    requires Backward(env, all, early, late, s) && Denotes(env, all, MAX_LINES, c)
    ensures PageOf(env, c) == Some(Page([], None))
  {
    hide Denotes, Scan, NoRoom, Roomy;
    assert RunStart(all, MAX_LINES) == 0;
    forall j: nat | j <= |all| - 1 ensures !Resumed(env, all, MAX_LINES, j) {
      if j < MAX_LINES {
        CountUniform(env, all, j, env.when(late), s);
        CountUniform(env, all, MAX_LINES, env.when(late), s);
      }
    }
    hide Resumed, Delivering;
    OpensWhole(env, all, c.stamp);
    DeliveringStarts(env, all, MAX_LINES, c, 0);
    ScanDelivers(env, all, MAX_LINES, c, 0, 0, Begin(c));
    SkippedOver(env, all, MAX_LINES, 0, |all|);
  }

  lemma BackwardIsLost(env: Env, all: seq<LogEvent>, early: seq<byte>, late: seq<byte>, s: Stream)
    requires Backward(env, all, early, late, s)
    ensures Chain(env, BEGINNING, 2) == Some(all[..MAX_LINES])
  {
    hide PageOf, Denotes, Advanced;
    assert Denotes(env, all, 0, BEGINNING) by {
      AtBeginning(env, all);
    }
    CleanPage(env, all, 0, BEGINNING);
    var c := Advanced(BEGINNING, all[0..MAX_LINES]);
    NothingBehind(env, all, early, late, s, c);
    assert Chain(env, c, 1) == Some([]);
    assert all[0..MAX_LINES] + [] == all[..MAX_LINES];
  }

  lemma AtBeginning(env: Env, all: seq<LogEvent>)
    ensures Denotes(env, all, 0, BEGINNING) && CleanCut(env, all, 0)
  {
  }

  /** 1000 lines of one instant, and a line of an earlier one. */
  function BackwardLines(isStamp: seq<byte> -> bool, early: seq<byte>, late: seq<byte>): Source {
    BareSource(isStamp, seq(MAX_LINES, _ => Mark(false, late)) + [Mark(false, early)])
  }

  /** A timestamp that goes back: the chain of pages ends, and the last event is in none of them. */
  lemma EarlierEventIsLost(isStamp: seq<byte> -> bool, when: seq<byte> -> int, early: seq<byte>, late: seq<byte>)
    requires IsStamp(isStamp, early) && IsStamp(isStamp, late) && when(early) < when(late)
    ensures var s := BackwardLines(isStamp, early, late);
            |Log(s).events| == MAX_LINES + 1 && Chain(EnvOf(when, s), BEGINNING, 2) == Some(Log(s).events[..MAX_LINES])
  {
    hide Log, Chain;
    var s := BackwardLines(isStamp, early, late);
    BareLog(when, isStamp, seq(MAX_LINES, _ => Mark(false, late)) + [Mark(false, early)]);
    BackwardIsLost(EnvOf(when, s), Log(s).events, early, late, Stdout);
  }

  // ---- Two spellings of one instant -----------------------------------------------------

  function SpelledMarks(one: seq<byte>, other: seq<byte>, later: seq<byte>): seq<Mark> {
    seq(MAX_LINES, _ => Mark(false, one)) + seq(MAX_LINES, _ => Mark(true, other)) + [Mark(false, later)]
  }

  /** 1000 lines on one stream, 1000 on the other with the other spelling, and one more. */
  function TwoSpellings(isStamp: seq<byte> -> bool, one: seq<byte>, other: seq<byte>, later: seq<byte>): Source {
    BareSource(isStamp, SpelledMarks(one, other, later))
  }

  ghost predicate Spelled(env: Env, all: seq<LogEvent>, one: seq<byte>, other: seq<byte>, later: seq<byte>) {
    && SameLog(env, all) && |all| == 2 * MAX_LINES + 1
    && one != other && env.when(one) == env.when(other) < env.when(later)
    && (forall i :: 0 <= i < MAX_LINES ==> all[i].stream == Stdout && all[i].timestamp == one)
    && (forall i :: MAX_LINES <= i < 2 * MAX_LINES ==> all[i].stream == Stderr && all[i].timestamp == other)
    && all[2 * MAX_LINES].stream == Stdout && all[2 * MAX_LINES].timestamp == later
  }

  lemma SpelledLog(isStamp: seq<byte> -> bool, when: seq<byte> -> int, one: seq<byte>, other: seq<byte>, later: seq<byte>)
    requires IsStamp(isStamp, one) && IsStamp(isStamp, other) && IsStamp(isStamp, later)
    requires one != other && when(one) == when(other) < when(later)
    ensures var s := TwoSpellings(isStamp, one, other, later); Spelled(EnvOf(when, s), Log(s).events, one, other, later)
  {
    hide Log, SameLog;
    BareLog(when, isStamp, SpelledMarks(one, other, later));
  }

  /** What the cursor behind both thousands makes of the events: it takes the first thousand for new ones. */
  lemma {:induction false} CountSecond(env: Env, all: seq<LogEvent>, one: seq<byte>, other: seq<byte>, later: seq<byte>, n: nat)
    requires Spelled(env, all, one, other, later) && MAX_LINES <= n <= 2 * MAX_LINES
    ensures Count(env, all, n, env.when(one), Stdout) == MAX_LINES && Count(env, all, n, env.when(one), Stderr) == n - MAX_LINES
    decreases n
  {
    if n == MAX_LINES {
      CountUniform(env, all, n, env.when(one), Stdout);
    } else {
      CountSecond(env, all, one, other, later, n - 1);
    }
  }

  lemma SecondResumes(env: Env, all: seq<LogEvent>, one: seq<byte>, other: seq<byte>, later: seq<byte>)
    requires Spelled(env, all, one, other, later)
    ensures forall j: nat :: j < |all| ==> (Resumed(env, all, 2 * MAX_LINES, j) <==> j < MAX_LINES || j == 2 * MAX_LINES)
  {
    var start := RunStart(all, 2 * MAX_LINES);
    assert all[MAX_LINES - 1].timestamp == one && all[2 * MAX_LINES - 1].timestamp == other;
    assert start >= MAX_LINES;
    assert start == MAX_LINES;
    CountSecond(env, all, one, other, later, MAX_LINES);
    CountSecond(env, all, one, other, later, 2 * MAX_LINES);
    forall j: nat | j < |all| ensures Resumed(env, all, 2 * MAX_LINES, j) <==> j < MAX_LINES || j == 2 * MAX_LINES {
      if MAX_LINES <= j < 2 * MAX_LINES {
        CountSecond(env, all, one, other, later, j);
      }
    }
  }

  /** Cursors with other stamps are forgotten with the first new event. */
  lemma {:induction false} AdvancedForgets(c: Cursor, d: Cursor, lines: seq<LogEvent>)
    requires lines != [] && c.stamp != lines[0].timestamp && d.stamp != lines[0].timestamp
    ensures Advanced(c, lines) == Advanced(d, lines)
  {
    var before := lines[..|lines| - 1];
    if before != [] {
      AdvancedForgets(c, d, before);
    }
  }

  lemma RepeatedPage(env: Env, all: seq<LogEvent>, one: seq<byte>, other: seq<byte>, later: seq<byte>, c: Cursor)
    requires Spelled(env, all, one, other, later) && Denotes(env, all, 2 * MAX_LINES, c)
    ensures PageOf(env, c) == Some(Page(all[..MAX_LINES], Some(Advanced(c, all[..MAX_LINES]))))
  {
    hide Denotes, Scan, NoRoom, Resumed, Delivering, Advanced;
    var k := 2 * MAX_LINES;
    SecondResumes(env, all, one, other, later);
    OpensWhole(env, all, c.stamp);
    DeliveringStarts(env, all, k, c, 0);
    ScanDelivers(env, all, k, c, 0, 0, Begin(c));
    var (b, stop) := Scan(env, c, all, 0, Begin(c));
    RoomInLog(env, all, 0);
    forall n: nat | n <= MAX_LINES ensures Deliveries(env, all, k, n) == all[..n] == all[0..n] {
      AllDelivered(env, all, k, n);
    }
    SkippedOver(env, all, k, MAX_LINES, k);
    assert NoRoom(env, all[..MAX_LINES], all[k]) by {
      assert all[k] in all && forall e :: e in all[..MAX_LINES] ==> e in all;
      RoomForLines(env, all[..MAX_LINES], all[k]);
    }
    assert !Roomy(env, all, k, 0, k + 1);
    if stop.FullAt? {
      assert stop.i == k;
      LongPageStays(env, c, b, env.open(c.stamp).tail(k));
    }
  }

  /** Two spellings of one instant on two streams: the reader is sent round in a circle, and the chain never ends. */
  lemma {:induction false} OtherSpellingIsRepeated(isStamp: seq<byte> -> bool, when: seq<byte> -> int,
                                                   one: seq<byte>, other: seq<byte>, later: seq<byte>, pages: nat)
    requires IsStamp(isStamp, one) && IsStamp(isStamp, other) && IsStamp(isStamp, later)
    requires one != other && when(one) == when(other) < when(later)
    ensures var s := TwoSpellings(isStamp, one, other, later);
            var env, all := EnvOf(when, s), Log(s).events;
            |all| == 2 * MAX_LINES + 1
            && var first := Advanced(BEGINNING, all[..MAX_LINES]);
            && Chain(env, BEGINNING, pages) == None && Chain(env, first, pages) == None
            && Chain(env, Advanced(first, all[MAX_LINES..2 * MAX_LINES]), pages) == None
  {
    hide Log, PageOf, Denotes, TwoSpellings, Advanced, CleanCut;
    SpelledLog(isStamp, when, one, other, later);
    if pages > 0 {
      var s := TwoSpellings(isStamp, one, other, later);
      CirclePages(EnvOf(when, s), Log(s).events, one, other, later);
      OtherSpellingIsRepeated(isStamp, when, one, other, later, pages - 1);
    }
  }

  lemma CirclePages(env: Env, all: seq<LogEvent>, one: seq<byte>, other: seq<byte>, later: seq<byte>)
    requires Spelled(env, all, one, other, later)
    ensures var first := Advanced(BEGINNING, all[..MAX_LINES]);
            var second := Advanced(first, all[MAX_LINES..2 * MAX_LINES]);
            && PageOf(env, BEGINNING) == Some(Page(all[..MAX_LINES], Some(first)))
            && PageOf(env, first) == Some(Page(all[MAX_LINES..2 * MAX_LINES], Some(second)))
            && PageOf(env, second) == Some(Page(all[..MAX_LINES], Some(first)))
  {
    hide PageOf, Denotes, Advanced, CleanCut;
    AtBeginning(env, all);
    CleanPage(env, all, 0, BEGINNING);
    assert all[0..MAX_LINES] == all[..MAX_LINES];
    var first := Advanced(BEGINNING, all[..MAX_LINES]);
    FirstCutIsClean(env, all, one, other, later);
    CleanPage(env, all, MAX_LINES, first);
    var second := Advanced(first, all[MAX_LINES..2 * MAX_LINES]);
    RepeatedPage(env, all, one, other, later, second);
    CursorStamp(env, all, 2 * MAX_LINES, second);
    AdvancedForgets(second, BEGINNING, all[..MAX_LINES]);
  }

  lemma FirstCutIsClean(env: Env, all: seq<LogEvent>, one: seq<byte>, other: seq<byte>, later: seq<byte>)
    requires Spelled(env, all, one, other, later)
    ensures CleanCut(env, all, MAX_LINES)
  {
    assert RunStart(all, MAX_LINES) == 0;
  }

  // ---- A record that is begun and ended later -------------------------------------------

  /** A record begun on one stream, `n` lines on the other, and the record's end. */
  function Begun(isStamp: seq<byte> -> bool, err: bool, first: seq<byte>, text: seq<byte>, n: nat): Source {
    Source(false, isStamp, [Frame(err, first)] + seq(n, _ => Frame(!err, text + [NL])) + [Frame(err, [NL])])
  }

  ghost predicate BothShort(first: seq<byte>, text: seq<byte>) {
    NL !in first && 0 < |first| < MAX_LINE && NL !in text && |text| < MAX_LINE
  }

  function Between(isStamp: seq<byte> -> bool, err: bool, text: seq<byte>): LogEvent {
    EventOf(Channel(StreamOf(!err), isStamp), Writer(text, false, []), true)
  }

  /** The record as it is before and after its end. */
  function Around(isStamp: seq<byte> -> bool, err: bool, first: seq<byte>, end: bool): LogEvent {
    EventOf(Channel(StreamOf(err), isStamp), Writer(first, false, []), end)
  }

  function Waiting(err: bool, first: seq<byte>, offered: seq<LogEvent>): Pair {
    var begun := Writer(first, false, []);
    if err then Pair(FRESH, begun, offered, false) else Pair(begun, FRESH, offered, false)
  }

  /** The events up to a refusal, while the record begun in the first frame waits for its end. */
  lemma {:induction false} BegunFrames(isStamp: seq<byte> -> bool, err: bool, first: seq<byte>, text: seq<byte>, n: nat, k: nat,
                                       accepts: nat -> bool)
    requires BothShort(first, text) && k <= n && forall j :: 0 <= j < k ==> accepts(j)
    ensures PumpFrames(Begun(isStamp, err, first, text, n), k + 1, accepts) ==
            Waiting(err, first, seq(k, _ => Between(isStamp, err, text)))
  {
    hide Feed, Pump, EventOf;
    var s := Begun(isStamp, err, first, text, n);
    if k == 0 {
      FirstFrame(isStamp, err, first, text, n, accepts);
    } else {
      BegunFrames(isStamp, err, first, text, n, k - 1, accepts);
      var c := ChannelOf(s, !err);
      ShortLineFed(c, FRESH, text);
      assert [] + text == text;
      PumpFollowsFeed(c, FRESH, text + [NL], accepts, k - 1);
      assert s.frames[k] == Frame(!err, text + [NL]);
      assert seq(k, _ => Between(isStamp, err, text)) ==
             seq(k - 1, _ => Between(isStamp, err, text)) + [Between(isStamp, err, text)];
    }
  }

  lemma FirstFrame(isStamp: seq<byte> -> bool, err: bool, first: seq<byte>, text: seq<byte>, n: nat, accepts: nat -> bool)
    requires BothShort(first, text)
    ensures PumpFrames(Begun(isStamp, err, first, text, n), 1, accepts) == Waiting(err, first, [])
  {
    hide Feed, Pump;
    var s := Begun(isStamp, err, first, text, n);
    var c := ChannelOf(s, err);
    NothingCut(c, FRESH, first);
    PumpFollowsFeed(c, FRESH, first, accepts, 0);
    assert [] + first == first;
    assert PumpFrames(s, 0, accepts) == START;
  }

  lemma BegunLog(isStamp: seq<byte> -> bool, err: bool, first: seq<byte>, text: seq<byte>, n: nat)
    requires BothShort(first, text)
    ensures Log(Begun(isStamp, err, first, text, n)).events ==
            seq(n, _ => Between(isStamp, err, text)) + [Around(isStamp, err, first, true)]
  {
    hide Feed, Pump, EventOf;
    var s := Begun(isStamp, err, first, text, n);
    BegunFrames(isStamp, err, first, text, n, n, Always());
    var c, w := ChannelOf(s, err), Writer(first, false, []);
    assert first + [] == first;
    ShortLineFed(c, w, []);
    assert [] + [NL] == [NL];
    PumpFollowsFeed(c, w, [NL], Always(), n);
    NeverRefused(s, n + 2);
    assert s.frames[n + 1] == Frame(err, [NL]);
  }

  lemma BegunUnfinished(isStamp: seq<byte> -> bool, err: bool, first: seq<byte>, text: seq<byte>, n: nat, k: nat)
    requires BothShort(first, text) && k < n
    ensures Unfinished(Begun(isStamp, err, first, text, n), k) == [Around(isStamp, err, first, false)]
  {
    hide Feed, Pump, EventOf;
    var s := Begun(isStamp, err, first, text, n);
    BegunFrames(isStamp, err, first, text, n, k, Until(k));
    var c := ChannelOf(s, !err);
    ShortLineFed(c, FRESH, text);
    assert [] + text == text;
    PumpFollowsFeed(c, FRESH, text + [NL], Until(k), k);
    assert s.frames[k + 1] == Frame(!err, text + [NL]);
    assert !Until(k)(k);
    assert PumpFrames(s, k + 2, Until(k)).refused;
    FirstRefusal(s, Until(k), |s.frames|, k + 1);
    ChannelsAreIndependent(s, k + 1, Always());
    BegunFrames(isStamp, err, first, text, n, k, Always());
  }

  lemma {:induction false} FirstRefusal(s: Source, accepts: nat -> bool, n: nat, f: nat)
    requires f < n <= |s.frames| && !PumpFrames(s, f, accepts).refused && PumpFrames(s, f + 1, accepts).refused
    ensures RefusedIn(s, accepts, n) == Some(f)
  {
    hide Pump;
    if n > f + 1 {
      StaysRefused(s, accepts, f + 1, n - 1);
      FirstRefusal(s, accepts, n - 1, f);
    }
  }

  lemma {:induction false} StaysRefused(s: Source, accepts: nat -> bool, m: nat, n: nat)
    requires m <= n <= |s.frames| && PumpFrames(s, m, accepts).refused
    ensures PumpFrames(s, n, accepts).refused
    decreases n
  {
    hide Pump;
    if m < n {
      StaysRefused(s, accepts, m, n - 1);
    }
  }

  // ---- Records that other lines overtake --------------------------------------------------

  /** A record begun on stdout, 1000 later lines on stderr, and the end of the record. */
  function Overtaken(isStamp: seq<byte> -> bool, early: seq<byte>, late: seq<byte>): Source {
    Begun(isStamp, false, early + [SPACE], late + [SPACE], MAX_LINES)
  }

  /** Frames in the order of their time, and still the chain of pages ends without the record. */
  lemma OvertakenRecordIsLost(isStamp: seq<byte> -> bool, when: seq<byte> -> int, early: seq<byte>, late: seq<byte>)
    requires IsStamp(isStamp, early) && IsStamp(isStamp, late) && when(early) < when(late)
    ensures var s := Overtaken(isStamp, early, late);
            |Log(s).events| == MAX_LINES + 1 && Chain(EnvOf(when, s), BEGINNING, 2) == Some(Log(s).events[..MAX_LINES])
  {
    hide Log, Chain, JsonSize, EventOf;
    var s := Overtaken(isStamp, early, late);
    BegunLog(isStamp, false, early + [SPACE], late + [SPACE], MAX_LINES);
    BareIsSmall(s, Mark(true, late));
    BareIsSmall(s, Mark(false, early));
    SmallEvents(EnvOf(when, s), Log(s).events);
    BackwardIsLost(EnvOf(when, s), Log(s).events, early, late, Stderr);
  }

  // ---- A line left unfinished ---------------------------------------------------------

  /** A line of 65000 bytes that JSON escapes with six each, behind its timestamp. */
  function LongText(stamp: seq<byte>): seq<byte> { stamp + [SPACE] + seq(65000, _ => 1) }

  /** An error line in two frames, and eleven long lines in between. */
  function Interrupted(isStamp: seq<byte> -> bool, stamp: seq<byte>): Source {
    Begun(isStamp, true, stamp + [SPACE], LongText(stamp), 11)
  }

  function LongEvent(stamp: seq<byte>): LogEvent { LogEvent(Stdout, LongText(stamp), stamp, false, true) }

  /** The error line before and after its end. */
  function Partial(stamp: seq<byte>, end: bool): LogEvent { LogEvent(Stderr, stamp + [SPACE], stamp, false, end) }

  lemma {:induction false} EscapedLength(s: seq<byte>)
    requires forall i :: 0 <= i < |s| ==> s[i] == 1
    ensures JsonLength(s) == 6 * |s|
  {
    if s != [] {
      EscapedLength(s[1..]);
    }
  }

  /** ASCII text in front makes no encoding shorter. */
  lemma {:induction false} LongerBehind(s: seq<byte>, rest: seq<byte>)
    requires forall i :: 0 <= i < |s| ==> s[i] < 0x80
    ensures JsonLength(s + rest) >= JsonLength(rest)
  {
    if s == [] {
      assert s + rest == rest;
    } else {
      assert (s + rest)[1..] == s[1..] + rest;
      LongerBehind(s[1..], rest);
    }
  }

  lemma LongSizes(isStamp: seq<byte> -> bool, stamp: seq<byte>)
    requires IsStamp(isStamp, stamp)
    ensures 390000 <= JsonSize(LongEvent(stamp)) <= 390600
    ensures JsonSize(Partial(stamp, false)) < SMALL && JsonSize(Partial(stamp, true)) < SMALL
  {
    var body: seq<byte> := seq(65000, _ => 1);
    EscapedLength(body);
    LongerBehind(stamp + [SPACE], body);
    hide JsonLength;
    assert |LongText(stamp)| <= 65041;
  }

  ghost predicate IsInterrupted(env: Env, all: seq<LogEvent>, stamp: seq<byte>) {
    && (forall t :: env.open(t).events == all) && stamp != []
    && all == seq(11, _ => LongEvent(stamp)) + [Partial(stamp, true)]
    && 390000 <= env.size(LongEvent(stamp)) <= 390600
    && env.size(Partial(stamp, true)) < SMALL && env.size(Partial(stamp, false)) < SMALL
  }

  lemma InterruptedIs(isStamp: seq<byte> -> bool, when: seq<byte> -> int, stamp: seq<byte>)
    requires IsStamp(isStamp, stamp)
    ensures var s := Interrupted(isStamp, stamp);
            && IsInterrupted(EnvOf(when, s), Log(s).events, stamp)
            && Unfinished(s, 10) == [Partial(stamp, false)]
  {
    hide Log, JsonSize, Unfinished, EventOf;
    var s, first, text := Interrupted(isStamp, stamp), stamp + [SPACE], LongText(stamp);
    BegunLog(isStamp, true, first, text, 11);
    BegunUnfinished(isStamp, true, first, text, 11, 10);
    StampedEvent(Channel(Stdout, isStamp), stamp, seq(65000, _ => 1), true);
    StampedEvent(Channel(Stderr, isStamp), stamp, [], true);
    StampedEvent(Channel(Stderr, isStamp), stamp, [], false);
    assert first + [] == first;
    LongSizes(isStamp, stamp);
  }

  lemma InterruptedOrderly(env: Env, all: seq<LogEvent>, stamp: seq<byte>)
    requires IsInterrupted(env, all, stamp)
    ensures Orderly(env, all) && EventsFit(env, all)
  {
    hide LongText;
    forall t ensures Opens(env, all, t) {
      assert all[0..] == all && OpensAt(env, all, t, 0);
    }
    forall i | 0 <= i < |all| ensures all[i].timestamp == stamp && env.size(all[i]) <= 390600 {
    }
  }

  lemma {:induction false} LongWeight(env: Env, all: seq<LogEvent>, stamp: seq<byte>, n: nat)
    requires IsInterrupted(env, all, stamp) && n <= 11
    ensures n * 390001 <= Weight(env, all[0..n]) <= n * 390601
  {
    hide LongText;
    if n > 0 {
      LongWeight(env, all, stamp, n - 1);
      assert all[0..n][..n - 1] == all[0..n - 1] && all[0..n][n - 1] == LongEvent(stamp);
    }
  }

  lemma InterruptedCut(env: Env, all: seq<LogEvent>, stamp: seq<byte>)
    requires IsInterrupted(env, all, stamp)
    ensures CutAfter(env, all, 0, 0) == Some(10) && SlipsOnto(env, all, 0, 10, Partial(stamp, false))
  {
    hide LongText, Weight;
    forall n | 0 <= n <= 10 ensures NoRoom(env, all[0..n], all[n]) <==> n == 10 {
      LongWeight(env, all, stamp, n);
    }
    LongWeight(env, all, stamp, 10);
  }

  /** What the page and the chain theorems need of this log. */
  lemma InterruptedFacts(isStamp: seq<byte> -> bool, when: seq<byte> -> int, stamp: seq<byte>)
    requires IsStamp(isStamp, stamp)
    ensures var s := Interrupted(isStamp, stamp);
            var env, all := EnvOf(when, s), Log(s).events;
            && DecodedEnv(env, (_: seq<byte>) => s) && Orderly(env, all) && EventsFit(env, all)
            && CutAfter(env, all, 0, 0) == Some(10) && Denotes(env, all, 0, BEGINNING)
            && Unfinished(s, 10) == [Partial(stamp, false)] && SlipsOnto(env, all, 0, 10, Partial(stamp, false))
            && |all| == Max(1, |all| - 0) == 12 && StampAt(all, 0) == [] && env.open([]) == Log(s)
  {
    hide Log, JsonSize, LongText, Unfinished, Orderly, EventsFit, CutAfter, SlipsOnto;
    var s := Interrupted(isStamp, stamp);
    var env, all := EnvOf(when, s), Log(s).events;
    InterruptedIs(isStamp, when, stamp);
    InterruptedOrderly(env, all, stamp);
    InterruptedCut(env, all, stamp);
    AtBeginning(env, all);
  }

  /**
   * Ten long lines fill a page, and half of the error line gets onto it although its end comes later: the
   * first page is no piece of the log.
   */
  lemma PartialLineOnFullPage(isStamp: seq<byte> -> bool, when: seq<byte> -> int, stamp: seq<byte>)
    requires IsStamp(isStamp, stamp)
    ensures var s := Interrupted(isStamp, stamp);
            var env, all := EnvOf(when, s), Log(s).events;
            && PageOf(env, BEGINNING).Some?
            && forall m :: 0 <= m <= |all| ==> PageOf(env, BEGINNING).value.lines != all[0..m]
  {
    hide *;
    InterruptedFacts(isStamp, when, stamp);
    var s := Interrupted(isStamp, stamp);
    var env, all := EnvOf(when, s), Log(s).events;
    DecodedPageIsExactIff(env, (_: seq<byte>) => s, all, 0, 10, BEGINNING);
    assert Partial(stamp, false) in Unfinished(s, 10);
  }

  /** So no chain of pages, however long, gives the log. */
  lemma InterruptedLogIsNeverPaged(isStamp: seq<byte> -> bool, when: seq<byte> -> int, stamp: seq<byte>, pages: nat)
    requires IsStamp(isStamp, stamp) && pages >= |Log(Interrupted(isStamp, stamp)).events|
    ensures var s := Interrupted(isStamp, stamp); Chain(EnvOf(when, s), BEGINNING, pages) != Some(Log(s).events)
  {
    hide *;
    InterruptedFacts(isStamp, when, stamp);
    var s := Interrupted(isStamp, stamp);
    var env, all := EnvOf(when, s), Log(s).events;
    assert !NothingSlips(env, all, 0) by {
      SlippingLine(env, s, all, stamp);
    }
    ChainIsExactIff(env, all, 0, BEGINNING, pages);
    assert all[0..] == all;
  }

  lemma SlippingLine(env: Env, s: Source, all: seq<LogEvent>, stamp: seq<byte>)
    requires DecodedEnv(env, (_: seq<byte>) => s) && Orderly(env, all) && |all| == 12 && all == Log(s).events
    requires CutAfter(env, all, 0, 0) == Some(10)
    requires Partial(stamp, false) in Unfinished(s, 10) && SlipsOnto(env, all, 0, 10, Partial(stamp, false))
    ensures !NothingSlips(env, all, 0)
  {
    hide Log, JsonSize, Unfinished, Orderly, CutAfter, SlipsOnto, OfferedBehind, DecodedEnv;
    BehindIsUnfinished(env, (_: seq<byte>) => s, all, 0, 10);
  }
}
