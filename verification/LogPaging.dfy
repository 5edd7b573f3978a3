/**
 * Paging through a decoded log: events always fit on a page, a chain of pages ends, and the pages
 * of one log add up to it (internal/inventory/log_history.go, internal/inventory/logs.go).
 */
module LogPaging {
  import opened Strings
  import opened Utf8
  import opened Logs
  import opened LogDecoding
  import opened LogHistory

  // ---- Encoded sizes -----------------------------------------------------------

  /** Bytes a JSON string takes: escapes of section 7 of RFC 8259, and U+FFFD for invalid bytes. */
  function JsonLength(s: seq<byte>): (n: nat)
    ensures n <= 6 * |s|
    decreases |s|
  {
    if s == [] then 0
    else if s[0] < 0x80 then
      (if s[0] == 0x22 || s[0] == 0x5C || s[0] == 8 || s[0] == 9 || s[0] == 10 || s[0] == 12 || s[0] == 13 then 2
       else if s[0] < 0x20 || s[0] == 0x3C || s[0] == 0x3E || s[0] == 0x26 then 6
       else 1) + JsonLength(s[1..])
    else
      var n := RuneLength(s);
      if n == 0 then 6 + JsonLength(s[1..])
      else (if n == 3 && s[0] == 0xE2 && s[1] == 0x80 && (s[2] == 0xA8 || s[2] == 0xA9) then 6 else n) + JsonLength(s[n..])
  }

  function StreamName(s: Stream): nat {
    match s
    case Stdout => 6
    case Stderr => 6
    case Combined => 8
  }

  /** Length of the encoded event: its member names, punctuation and values. */
  function JsonSize(e: LogEvent): nat {
    11 + StreamName(e.stream) + 10 + JsonLength(e.text) + 1
    + (if e.timestamp == [] then 0 else 14 + JsonLength(e.timestamp) + 1)
    + (if e.continuation then 20 else 0)
    + 11 + (if e.lineEnd then 4 else 5) + 1
  }

  predicate FitsAPage(e: LogEvent) {
    ALLOWANCE + JsonSize(e) + 1 <= MAX_PAGE
  }

  /** Whatever a container writes, each of its events fits on an empty page. */
  lemma DecodedEventsFit(s: Source, accepts: nat -> bool)
    requires forall k :: accepts(k)
    ensures forall e :: e in Offered(s, accepts) ==> FitsAPage(e)
  {
    hide Offered, StreamEvents, FitsAPage, Pump, Feed;
    OfferedPerChannel(s, accepts);
    forall e | e in Offered(s, accepts) ensures FitsAPage(e) {
      var i :| 0 <= i < |Offered(s, accepts)| && Offered(s, accepts)[i] == e;
      EventsAreOfChannels(s, accepts, i);
      InOwnStream(Offered(s, accepts), e);
      if e.stream == Stderr {
        ChannelEventFits(Err(s), ChannelBytes(s, true, |s.frames|), e);
      } else {
        ChannelEventFits(Out(s), ChannelBytes(s, false, |s.frames|), e);
      }
    }
  }

  lemma {:induction false} InOwnStream(events: seq<LogEvent>, e: LogEvent)
    requires e in events
    ensures e in OfStream(events, e.stream)
  {
    if events[0] != e {
      InOwnStream(events[1..], e);
    }
  }

  lemma ChannelEventFits(c: Channel, bytes: seq<byte>, e: LogEvent)
    requires e in StreamEvents(c, bytes)
    ensures FitsAPage(e)
  {
    hide Feed;
    EventsAreBounded(c, FRESH, bytes);
  }

  // ---- A chain of pages ----------------------------------------------------------

  /** Follow `next` for at most `pages` pages; nothing when that does not end the chain. */
  function Chain(env: Env, c: Cursor, pages: nat): Option<seq<LogEvent>>
    decreases pages
  {
    if pages == 0 then None
    else
      match PageOf(env, c)
      case None => None
      case Some(page) =>
        if page.next.None? then Some(page.lines)
        else
          match Chain(env, page.next.value, pages - 1)
          case None => None
          case Some(rest) => Some(page.lines + rest)
  }

  /** A stable log whose events are stamped in order, one spelling per instant. */
  ghost predicate Orderly(env: Env, all: seq<LogEvent>) {
    Stable(env, all) && Stamped(all) && Ordered(env, all) && OneSpelling(env, all)
  }

  ghost predicate EventsFit(env: Env, all: seq<LogEvent>) {
    forall e :: e in all ==> ALLOWANCE + env.size(e) + 1 <= MAX_PAGE
  }

  /** Where a page that starts at position `k` is cut: the first event without room. */
  function CutAfter(env: Env, all: seq<LogEvent>, k: nat, n: nat): (r: Option<nat>)
    requires k <= n <= |all|
    ensures r.Some? ==> n <= r.value < |all| && NoRoom(env, all[k..r.value], all[r.value])
    ensures forall j :: n <= j < (if r.Some? then r.value else |all|) ==> !NoRoom(env, all[k..j], all[j])
    decreases |all| - n
  {
    if n == |all| then None
    else if NoRoom(env, all[k..n], all[n]) then Some(n)
    else CutAfter(env, all, k, n + 1)
  }

  function StampAt(all: seq<LogEvent>, k: nat): seq<byte>
    requires k <= |all|
  {
    if k == 0 then [] else all[k - 1].timestamp
  }

  /** An event that may slip onto a full page that began at position `k` and was cut at `n`. */
  ghost predicate SlipsOnto(env: Env, all: seq<LogEvent>, k: nat, n: nat, e: LogEvent)
    requires k <= n <= |all|
  {
    && e.timestamp != []
    && (k == 0 || env.when(e.timestamp) >= env.when(StampAt(all, k)))
    && !NoRoom(env, all[k..n], e)
  }

  /** What is still offered when the log, opened for the page that begins at `k`, is refused at position `n`. */
  function OfferedBehind(env: Env, all: seq<LogEvent>, k: nat, n: nat): seq<LogEvent>
    requires k <= n <= |all|
  {
    var log := env.open(StampAt(all, k));
    if |all| <= n + |log.events| then log.tail(n + |log.events| - |all|) else []
  }

  /** Cut after cut, nothing that is still offered slips onto the full page. */
  ghost predicate NothingSlips(env: Env, all: seq<LogEvent>, k: nat)
    requires k <= |all|
    decreases |all| - k
  {
    match CutAfter(env, all, k, k)
    case None => true
    case Some(n) =>
      && n > k
      && (forall e :: e in OfferedBehind(env, all, k, n) ==> !SlipsOnto(env, all, k, n, e))
      && NothingSlips(env, all, n)
  }

  /** The first page of the rest, told from the log alone. */
  lemma FirstPage(env: Env, all: seq<LogEvent>, k: nat, c: Cursor)
    requires Orderly(env, all) && EventsFit(env, all) && k <= |all| && Denotes(env, all, k, c)
    ensures match CutAfter(env, all, k, k)
            case None => PageOf(env, c) == Some(Page(all[k..], None))
            case Some(n) =>
              && k < n && PageOf(env, c).Some? && PageOf(env, c).value.next.Some?
              && var page := PageOf(env, c).value;
              && if forall e :: e in OfferedBehind(env, all, k, n) ==> !SlipsOnto(env, all, k, n, e)
                 then page.lines == all[k..n] && Denotes(env, all, n, page.next.value)
                 else forall m :: k <= m <= |all| ==> page.lines != all[k..m]
  {
    hide CleanCut, PageOf, Ordered, OneSpelling, Stamped, NoRoom, Scan, Slips, SlipsOnto, CutAfter, Denotes, OpensAt;
    CursorStamp(env, all, k, c);
    assert Opens(env, all, c.stamp);
    var d: nat :| OpensAt(env, all, c.stamp, d);
    OpenedEvents(env, all, c.stamp, d);
    OrderedCutsAreClean(env, all, k);
    PageIsExact(env, all, k, c, d);
    var stop, cut := Scan(env, c, all[d..], 0, Begin(c)).1, CutAfter(env, all, k, k);
    if stop.FullAt? {
      var n := d + stop.i;
      assert cut == Some(n);
      if n == k {
        FitsEmptyPage(env, all, k);
      }
      assert OfferedBehind(env, all, k, n) == env.open(c.stamp).tail(stop.i);
      forall e ensures SlipsOnto(env, all, k, n, e) <==> Slips(env, c, all[k..n], e) {
        SameSlips(env, all, k, c, n, e);
      }
    }
  }

  lemma SameSlips(env: Env, all: seq<LogEvent>, k: nat, c: Cursor, n: nat, e: LogEvent)
    requires k <= n <= |all| && Denotes(env, all, k, c) && Stamped(all)
    ensures SlipsOnto(env, all, k, n, e) <==> Slips(env, c, all[k..n], e)
  {
    StampedCursor(env, all, k, c);
    CursorStamp(env, all, k, c);
  }

  lemma CursorStamp(env: Env, all: seq<LogEvent>, k: nat, c: Cursor)
    requires k <= |all| && Denotes(env, all, k, c)
    ensures c.stamp == StampAt(all, k)
  {
  }

  lemma StampedCursor(env: Env, all: seq<LogEvent>, k: nat, c: Cursor)
    requires k <= |all| && Denotes(env, all, k, c) && Stamped(all)
    ensures c.stamp == [] <==> k == 0
  {
    if k > 0 {
      assert all[k - 1] in all;
    }
  }

  lemma FitsEmptyPage(env: Env, all: seq<LogEvent>, k: nat)
    requires EventsFit(env, all) && k < |all|
    ensures !NoRoom(env, all[k..k], all[k])
  {
    assert all[k] in all && all[k..k] == [];
  }

  lemma PiecesOfRest(all: seq<LogEvent>, k: nat, lines: seq<LogEvent>, rest: seq<LogEvent>)
    requires k <= |all|
    ensures lines + rest == all[k..] ==> exists m :: k <= m <= |all| && lines == all[k..m]
  {
    if lines + rest == all[k..] {
      assert lines == (lines + rest)[..|lines|] == all[k..k + |lines|];
    }
  }

  /**
   * Paging is exact if and only if nothing slips: from any position the chain yields the whole rest of
   * the log, every event once, and it ends within as many pages as there are events left.
   */
  lemma {:induction false} ChainIsExactIff(env: Env, all: seq<LogEvent>, k: nat, c: Cursor, pages: nat)
    requires Orderly(env, all) && EventsFit(env, all)
    requires k <= |all| && Denotes(env, all, k, c) && pages >= Max(1, |all| - k)
    ensures Chain(env, c, pages) == Some(all[k..]) <==> NothingSlips(env, all, k)
    decreases |all| - k
  {
    hide Denotes, PageOf, Orderly, EventsFit, SlipsOnto, OfferedBehind, NoRoom, CutAfter;
    FirstPage(env, all, k, c);
    var cut := CutAfter(env, all, k, k);
    if cut.Some? {
      var n, page := cut.value, PageOf(env, c).value;
      var rest := Chain(env, page.next.value, pages - 1);
      if page.lines == all[k..n] && Denotes(env, all, n, page.next.value) {
        ChainIsExactIff(env, all, n, page.next.value, pages - 1);
        assert all[k..] == all[k..n] + all[n..];
        if rest.Some? {
          assert rest.value == (page.lines + rest.value)[n - k..] && all[n..] == all[k..][n - k..];
        }
      } else if rest.Some? {
        PiecesOfRest(all, k, page.lines, rest.value);
      }
    }
  }

  // ---- Decoded logs ------------------------------------------------------------------

  function Always(): nat -> bool { (_: nat) => true }

  function Until(i: nat): nat -> bool { (k: nat) => k < i }

  /** A container's log as the pager meets it: its events, and what follows a refusal of event `i`. */
  function Log(s: Source): Opened {
    Opened(Offered(s, Always()), (i: nat) =>
      var all := Offered(s, Until(i)); if i + 1 <= |all| then all[i + 1..] else [])
  }

  /** A log whose records all begin with timestamps has only stamped events, however long the records are. */
  lemma StampedLog(s: Source)
    requires AllStamped(Out(s), ChannelBytes(s, false, |s.frames|)) && AllStamped(Err(s), ChannelBytes(s, true, |s.frames|))
    ensures Stamped(Log(s).events)
  {
    hide Offered, StreamEvents, Pump, Feed, AllStamped, ChannelBytes;
    OfferedPerChannel(s, Always());
    StampedStream(Out(s), ChannelBytes(s, false, |s.frames|));
    StampedStream(Err(s), ChannelBytes(s, true, |s.frames|));
    forall e | e in Log(s).events ensures e.timestamp != [] {
      var i :| 0 <= i < |Log(s).events| && Log(s).events[i] == e;
      EventsAreOfChannels(s, Always(), i);
      InOwnStream(Log(s).events, e);
    }
  }

  /** Appending a CR makes the encoding longer. */
  lemma {:induction false} JsonWithCR(s: seq<byte>)
    ensures JsonLength(s + [CR]) == JsonLength(s) + 2
    decreases |s|
  {
    if s == [] {
      assert ([] + [CR])[1..] == [];
    } else {
      var t := s + [CR];
      var n := if s[0] < 0x80 || RuneLength(s) == 0 then 1 else RuneLength(s);
      RuneWithCR(s);
      assert t[n..] == s[n..] + [CR];
      JsonWithCR(s[n..]);
    }
  }

  lemma RuneWithCR(s: seq<byte>)
    requires s != []
    ensures RuneLength(s + [CR]) == RuneLength(s)
  {
  }

  lemma {:induction false} StampWithCR(text: seq<byte>)
    ensures BeforeSpace(text + [CR]) == BeforeSpace(text)
  {
    if text == [] {
      assert ([] + [CR])[1..] == [];
    } else {
      assert (text + [CR])[1..] == text[1..] + [CR];
      StampWithCR(text[1..]);
    }
  }

  /** A blocked writer's closing flush offers at least what was refused. */
  lemma BlockedIsNoSmaller(c: Channel, w: Writer, b: byte)
    requires Step(c, w, b).events != []
    ensures forall e :: e in LastEvents(c, Blocked(c, w, b)) ==> JsonSize(e) >= JsonSize(Step(c, w, b).events[0])
  {
    hide Valid;
    if b == NL && w.buffer != [] && w.buffer[|w.buffer| - 1] == CR {
      var text := TrimCR(w.buffer);
      assert w.buffer == text + [CR];
      JsonWithCR(text);
      StampWithCR(text);
    }
  }

  /** A refused run ends in a blocked writer whose flush was the last offer. */
  lemma {:induction false} RefusedIsBlocked(c: Channel, w: Writer, bytes: seq<byte>, accepts: nat -> bool, n: nat)
    returns (w1: Writer, b: byte)
    requires Pump(c, w, bytes, accepts, n).refused
    ensures var run := Pump(c, w, bytes, accepts, n);
            && run.writer == Blocked(c, w1, b)
            && run.offered != [] && Step(c, w1, b).events == [run.offered[|run.offered| - 1]]
    decreases |bytes|
  {
    hide Blocked, Step;
    var first := Step(c, w, bytes[0]);
    if first.events != [] && !accepts(n) {
      w1, b := w, bytes[0];
    } else {
      w1, b := RefusedIsBlocked(c, first.writer, bytes[1..], accepts, n + |first.events|);
    }
  }

  // ---- What is offered after a refusal -------------------------------------------------

  /** The frame in which an event is first refused. */
  function RefusedIn(s: Source, accepts: nat -> bool, n: nat): (r: Option<nat>)
    requires n <= |s.frames|
    ensures r.Some? <==> PumpFrames(s, n, accepts).refused
    ensures r.Some? ==> r.value < n && !PumpFrames(s, r.value, accepts).refused && PumpFrames(s, r.value + 1, accepts).refused
  {
    if n == 0 then None
    else if PumpFrames(s, n - 1, accepts).refused then RefusedIn(s, accepts, n - 1)
    else if PumpFrames(s, n, accepts).refused then Some(n - 1)
    else None
  }

  function ChannelOf(s: Source, toErr: bool): Channel { if toErr then Err(s) else Out(s) }

  /**
   * What is offered after event `i` has been refused, but for the refused text itself: the unfinished
   * line of the other channel at that moment, or, when the refusal comes with the closing flushes, the
   * events behind it.
   */
  function Unfinished(s: Source, i: nat): seq<LogEvent> {
    match RefusedIn(s, Until(i), |s.frames|)
    case Some(f) =>
      var other := !ToErr(s, s.frames[f]);
      var c := ChannelOf(s, other);
      LastEvents(c, Feed(c, FRESH, ChannelBytes(s, other, f)).writer)
    case None =>
      if i + 1 <= |Log(s).events| then Log(s).events[i + 1..] else []
  }

  /** Until something is refused, the callback's answers make no difference. */
  lemma {:induction false} FramesAgree(s: Source, n: nat, accepts: nat -> bool)
    requires n <= |s.frames|
    ensures !PumpFrames(s, n, accepts).refused ==>
              && PumpFrames(s, n, accepts) == PumpFrames(s, n, Always())
              && forall k :: 0 <= k < |PumpFrames(s, n, accepts).offered| ==> accepts(k)
    ensures PumpFrames(s, n, accepts).offered <= PumpFrames(s, n, Always()).offered
  {
    hide Pump, Feed;
    if n > 0 {
      FramesAgree(s, n - 1, accepts);
      var p, q, f := PumpFrames(s, n - 1, accepts), PumpFrames(s, n - 1, Always()), s.frames[n - 1];
      NeverRefused(s, n - 1);
      var c := ChannelOf(s, ToErr(s, f));
      PumpFollowsFeed(c, if ToErr(s, f) then p.err else p.out, f.bytes, accepts, |p.offered|);
      PumpFollowsFeed(c, if ToErr(s, f) then q.err else q.out, f.bytes, Always(), |q.offered|);
    }
  }

  lemma {:induction false} NeverRefused(s: Source, n: nat)
    requires n <= |s.frames|
    ensures !PumpFrames(s, n, Always()).refused
  {
    ChannelsAreIndependent(s, n, Always());
  }

  /** A refusal inside a frame: the offers up to it are those of the log, and it is the last of them. */
  lemma RefusalIsAt(s: Source, i: nat, f: nat)
    requires RefusedIn(s, Until(i), |s.frames|) == Some(f)
    ensures var p := PumpFrames(s, |s.frames|, Until(i));
            p == PumpFrames(s, f + 1, Until(i)) && |p.offered| == i + 1 && p.offered <= Log(s).events
  {
    hide Pump, Feed, PumpFrame;
    RefusalStops(s, f + 1, Until(i));
    FramesAgree(s, f, Until(i));
    FramesAgree(s, |s.frames|, Until(i));
    RefusalInFrame(s, i, f);
  }

  lemma RefusalInFrame(s: Source, i: nat, f: nat)
    requires f < |s.frames| && !PumpFrames(s, f, Until(i)).refused && PumpFrames(s, f + 1, Until(i)).refused
    ensures |PumpFrames(s, f + 1, Until(i)).offered| == i + 1
  {
    hide Pump, Feed;
    var p, fr := PumpFrames(s, f, Until(i)), s.frames[f];
    FramesAgree(s, f, Until(i));
    var c, w := ChannelOf(s, ToErr(s, fr)), if ToErr(s, fr) then p.err else p.out;
    PumpFollowsFeed(c, w, fr.bytes, Until(i), |p.offered|);
    var run := Pump(c, w, fr.bytes, Until(i), |p.offered|);
    assert !Until(i)(|p.offered| + |run.offered| - 1);
    if |run.offered| >= 2 {
      assert Until(i)(|p.offered| + |run.offered| - 2);
    } else if |p.offered| > 0 {
      assert Until(i)(|p.offered| - 1);
    }
  }

  /** The two writers after a refusal: the refusing one still holds the refused text, the other its unfinished line. */
  lemma WritersAfterRefusal(s: Source, i: nat, f: nat)
    requires RefusedIn(s, Until(i), |s.frames|) == Some(f)
    ensures var p, own := PumpFrames(s, f + 1, Until(i)), ToErr(s, s.frames[f]);
            && LastEvents(ChannelOf(s, !own), if own then p.out else p.err) == Unfinished(s, i)
            && p.offered != []
            && forall e :: e in LastEvents(ChannelOf(s, own), if own then p.err else p.out) ==>
                             JsonSize(e) >= JsonSize(p.offered[|p.offered| - 1])
  {
    hide Pump, Feed, JsonSize, LastEvents, Blocked, Step;
    var p, fr := PumpFrames(s, f, Until(i)), s.frames[f];
    var own := ToErr(s, fr);
    var c, w := ChannelOf(s, own), if own then p.err else p.out;
    FramesAgree(s, f, Until(i));
    ChannelsAreIndependent(s, f, Always());
    var run := Pump(c, w, fr.bytes, Until(i), |p.offered|);
    var w1, b := RefusedIsBlocked(c, w, fr.bytes, Until(i), |p.offered|);
    BlockedIsNoSmaller(c, w1, b);
    assert PumpFrames(s, f + 1, Until(i)).offered == p.offered + run.offered;
  }

  /** So a refusal is followed by the refused text, which is as large as ever, and the other channel's unfinished line. */
  lemma TailIsUnfinished(s: Source, i: nat)
    requires i < |Log(s).events|
    ensures forall e :: e in Unfinished(s, i) ==> e in Log(s).tail(i)
    ensures forall e :: e in Log(s).tail(i) ==> e in Unfinished(s, i) || JsonSize(e) >= JsonSize(Log(s).events[i])
  {
    hide JsonSize, PumpFrames, LastEvents, Log, Unfinished;
    match RefusedIn(s, Until(i), |s.frames|) {
      case Some(f) => RefusedTail(s, i, f);
      case None => FlushedTail(s, i);
    }
  }

  /** A refusal in a frame: both writers are flushed behind it. */
  lemma RefusedTail(s: Source, i: nat, f: nat)
    requires i < |Log(s).events| && RefusedIn(s, Until(i), |s.frames|) == Some(f)
    ensures forall e :: e in Unfinished(s, i) ==> e in Log(s).tail(i)
    ensures forall e :: e in Log(s).tail(i) ==> e in Unfinished(s, i) || JsonSize(e) >= JsonSize(Log(s).events[i])
  {
    hide JsonSize, PumpFrames, LastEvents, Pump, Feed, RefusedIn;
    var all, p := Offered(s, Until(i)), PumpFrames(s, |s.frames|, Until(i));
    RefusalIsAt(s, i, f);
    WritersAfterRefusal(s, i, f);
    assert all[i + 1..] == Residue(s, p);
    assert Log(s).events[i] == p.offered[i];
    hide Unfinished;
  }

  /** A refusal in the closing flushes: only what they still hold is behind it. */
  lemma FlushedTail(s: Source, i: nat)
    requires i < |Log(s).events| && RefusedIn(s, Until(i), |s.frames|).None?
    ensures Log(s).tail(i) == Unfinished(s, i)
  {
    hide JsonSize, PumpFrames, LastEvents, RefusedIn;
    FramesAgree(s, |s.frames|, Until(i));
    assert Offered(s, Until(i)) == Log(s).events;
  }

  // ---- Histories without unfinished lines --------------------------------------------------

  /** Every frame ends its last line, as those of records up to 16 KiB do. */
  ghost predicate WholeLines(s: Source) {
    forall f :: f in s.frames && f.bytes != [] ==> f.bytes[|f.bytes| - 1] == NL
  }

  lemma {:induction false} WholeChannel(s: Source, toErr: bool, n: nat)
    requires n <= |s.frames| && WholeLines(s)
    ensures var bytes := ChannelBytes(s, toErr, n); bytes != [] ==> bytes[|bytes| - 1] == NL
  {
    if n > 0 {
      WholeChannel(s, toErr, n - 1);
      assert s.frames[n - 1] in s.frames;
    }
  }

  /** After a newline a writer holds nothing. */
  lemma NothingHeld(c: Channel, bytes: seq<byte>)
    requires bytes != [] ==> bytes[|bytes| - 1] == NL
    ensures Feed(c, FRESH, bytes).writer == FRESH
  {
    if bytes != [] {
      var body := bytes[..|bytes| - 1];
      assert bytes == body + [NL];
      FeedAppend(c, FRESH, body, [NL]);
      assert [NL][1..] == [];
      assert Feed(c, Feed(c, FRESH, body).writer, [NL]) == Step(c, Feed(c, FRESH, body).writer, NL);
    }
  }

  lemma {:induction false} NoErrorChannel(s: Source, n: nat)
    requires s.tty && n <= |s.frames|
    ensures ChannelBytes(s, true, n) == []
  {
    if n > 0 {
      NoErrorChannel(s, n - 1);
    }
  }

  lemma NothingHeldByChannel(s: Source, toErr: bool, n: nat)
    requires n <= |s.frames| && ((s.tty && toErr) || WholeLines(s))
    ensures LastEvents(ChannelOf(s, toErr), Feed(ChannelOf(s, toErr), FRESH, ChannelBytes(s, toErr, n)).writer) == []
  {
    hide Feed;
    if s.tty && toErr {
      NoErrorChannel(s, n);
    } else {
      WholeChannel(s, toErr, n);
    }
    NothingHeld(ChannelOf(s, toErr), ChannelBytes(s, toErr, n));
  }

  /** On a terminal, and wherever frames end their lines, a refusal leaves no line of the other channel unfinished. */
  lemma NothingUnfinished(s: Source, i: nat)
    requires (s.tty || WholeLines(s)) && i < |Log(s).events|
    ensures Unfinished(s, i) == []
  {
    hide Feed, PumpFrames, LastEvents, WholeLines, ChannelBytes;
    var n := |s.frames|;
    match RefusedIn(s, Until(i), n) {
      case Some(f) =>
        NothingHeldByChannel(s, !ToErr(s, s.frames[f]), f);
      case None =>
        LastOfAll(s, i);
    }
  }

  /** An event that only the closing flushes refuse is the last one. */
  lemma LastOfAll(s: Source, i: nat)
    requires (s.tty || WholeLines(s)) && i < |Log(s).events| && RefusedIn(s, Until(i), |s.frames|).None?
    ensures |Log(s).events| == i + 1
  {
    hide Feed, PumpFrames, WholeLines, ChannelBytes;
    var n := |s.frames|;
    FramesAgree(s, n, Until(i));
    ChannelsAreIndependent(s, n, Always());
    NothingHeldByChannel(s, true, n);
    var p := PumpFrames(s, n, Until(i));
    if |p.offered| > 0 {
      assert Until(i)(|p.offered| - 1);
    }
  }

  /** The environment of a container's log: decoded sources, opened at any instant, with encoded sizes. */
  ghost predicate DecodedEnv(env: Env, sources: seq<byte> -> Source) {
    && (forall e :: env.size(e) == JsonSize(e))
    && forall stamp :: env.open(stamp) == Log(sources(stamp))
  }

  /**
   * One page of a decoded log, on data of the source alone: the page that begins at `k` and is cut at
   * `n` is exact if and only if the other channel's unfinished line, if there is one, is unstamped or
   * too early or finds no room behind the events up to the cut.
   */
  lemma DecodedPageIsExactIff(env: Env, sources: seq<byte> -> Source, all: seq<LogEvent>, k: nat, n: nat, c: Cursor)
    requires DecodedEnv(env, sources) && Orderly(env, all) && EventsFit(env, all)
    requires k <= |all| && Denotes(env, all, k, c) && CutAfter(env, all, k, k) == Some(n)
    ensures var s := sources(StampAt(all, k));
            && |Log(s).events| <= |all| < n + |Log(s).events| + 1
            && PageOf(env, c).Some? && PageOf(env, c).value.next.Some?
            && if forall e :: e in Unfinished(s, n + |Log(s).events| - |all|) ==> !SlipsOnto(env, all, k, n, e)
               then PageOf(env, c).value.lines == all[k..n] && Denotes(env, all, n, PageOf(env, c).value.next.value)
               else forall m :: k <= m <= |all| ==> PageOf(env, c).value.lines != all[k..m]
  {
    hide Log, Unfinished, PageOf, Denotes, JsonSize;
    FirstPage(env, all, k, c);
    BehindIsUnfinished(env, sources, all, k, n);
  }

  lemma BehindIsUnfinished(env: Env, sources: seq<byte> -> Source, all: seq<LogEvent>, k: nat, n: nat)
    requires DecodedEnv(env, sources) && Orderly(env, all) && k <= n < |all| && NoRoom(env, all[k..n], all[n])
    ensures var s := sources(StampAt(all, k));
            && |Log(s).events| <= |all| < n + |Log(s).events| + 1
            && ((forall e :: e in OfferedBehind(env, all, k, n) ==> !SlipsOnto(env, all, k, n, e)) <==>
                (forall e :: e in Unfinished(s, n + |Log(s).events| - |all|) ==> !SlipsOnto(env, all, k, n, e)))
  {
    hide Log, Unfinished, JsonSize;
    var stamp := StampAt(all, k);
    var s := sources(stamp);
    assert Opens(env, all, stamp);
    var d: nat :| OpensAt(env, all, stamp, d);
    OpenedEvents(env, all, stamp, d);
    OpenedBefore(env, all, k, d);
    var i := n - d;
    assert Log(s).events[i] == all[n];
    TailIsUnfinished(s, i);
  }

  /** Opening for a page leaves out nothing from its first event on. */
  lemma OpenedBefore(env: Env, all: seq<LogEvent>, k: nat, d: nat)
    requires Orderly(env, all) && k <= |all| && OpensAt(env, all, StampAt(all, k), d)
    ensures d <= k
  {
    if k > 0 {
      assert all[k - 1] in all;
    }
  }

  /**
   * The history of a container, on one stream or two, is paged exactly wherever no line is left
   * unfinished by a frame: the chain of pages from the beginning is the decoded log, and ends within as
   * many pages as it has events.
   */
  lemma HistoryIsExact(env: Env, sources: seq<byte> -> Source)
    requires DecodedEnv(env, sources) && forall stamp :: sources(stamp).tty || WholeLines(sources(stamp))
    requires Orderly(env, Log(sources([])).events)
    ensures var all := Log(sources([])).events;
            Chain(env, BEGINNING, Max(1, |all|)) == Some(all)
  {
    hide Log, JsonSize, Chain, Orderly, WholeLines;
    var all := Log(sources([])).events;
    forall e | e in all ensures ALLOWANCE + env.size(e) + 1 <= MAX_PAGE {
      LogEventsFit(sources([]), e);
    }
    NothingEverSlips(env, sources, all, 0);
    ChainIsExactIff(env, all, 0, BEGINNING, Max(1, |all|));
    assert all[0..] == all;
  }

  lemma {:induction false} NothingEverSlips(env: Env, sources: seq<byte> -> Source, all: seq<LogEvent>, k: nat)
    requires DecodedEnv(env, sources) && forall stamp :: sources(stamp).tty || WholeLines(sources(stamp))
    requires Orderly(env, all) && EventsFit(env, all) && k <= |all|
    ensures NothingSlips(env, all, k)
    decreases |all| - k
  {
    hide Log, JsonSize, Orderly, WholeLines, SlipsOnto, OfferedBehind, NoRoom, Unfinished;
    var cut := CutAfter(env, all, k, k);
    if cut.Some? {
      var n := cut.value;
      if n == k {
        FitsEmptyPage(env, all, k);
      }
      BehindIsUnfinished(env, sources, all, k, n);
      var s := sources(StampAt(all, k));
      NothingUnfinished(s, n + |Log(s).events| - |all|);
      NothingEverSlips(env, sources, all, n);
    }
  }

  lemma LogEventsFit(s: Source, e: LogEvent)
    requires e in Log(s).events
    ensures FitsAPage(e)
  {
    hide Offered;
    DecodedEventsFit(s, Always());
  }
}
