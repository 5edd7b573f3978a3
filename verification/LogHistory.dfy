/**
 * Cursor pagination of a container's log history (internal/inventory/log_history.go).
 */
module LogHistory {
  import opened Strings
  import opened Utf8
  import opened Logs

  const MAX_LINES := 1000
  const ALLOWANCE := 8192

  /** An opened log: its events, and what closing flushes still offer when event `i` has been refused. */
  datatype Opened = Opened(events: seq<LogEvent>, tail: nat -> seq<LogEvent>)

  /** Parsed instants, encoded sizes, and the log opened from a given instant on (from the start for ""). */
  datatype Env = Env(when: seq<byte> -> int, size: LogEvent -> nat, open: seq<byte> -> Opened)

  /** The position in the log: the last stamp, and how many events bore it, per stream. */
  datatype Cursor = Cursor(stamp: seq<byte>, seen: map<Stream, nat>)

  const BEGINNING := Cursor([], map[])

  datatype Page = Page(lines: seq<LogEvent>, next: Option<Cursor>)

  function Get(m: map<Stream, nat>, s: Stream): nat {
    if s in m then m[s] else 0
  }

  // ---- The callback -----------------------------------------------------------

  datatype Building = Building(skipped: map<Stream, nat>, next: Cursor, bytes: nat, lines: seq<LogEvent>)

  datatype Verdict = Taken | Passed | Skipped | Full | Unstamped

  function Judge(env: Env, cursor: Cursor, b: Building, e: LogEvent): Verdict {
    if e.timestamp == [] then Unstamped
    else if cursor.stamp != [] && env.when(e.timestamp) < env.when(cursor.stamp) then Passed
    else if cursor.stamp != [] && env.when(e.timestamp) == env.when(cursor.stamp)
            && Get(b.skipped, e.stream) < Get(cursor.seen, e.stream) then Skipped
    else if |b.lines| >= MAX_LINES || b.bytes + env.size(e) + 1 > MAX_PAGE then Full
    else Taken
  }

  function Advance(next: Cursor, e: LogEvent): Cursor {
    var seen := if next.stamp != e.timestamp then map[] else next.seen;
    Cursor(e.timestamp, seen[e.stream := Get(seen, e.stream) + 1])
  }

  function After(env: Env, cursor: Cursor, b: Building, e: LogEvent): Building {
    match Judge(env, cursor, b, e)
    case Skipped => b.(skipped := b.skipped[e.stream := Get(b.skipped, e.stream) + 1])
    case Taken => b.(next := Advance(b.next, e), bytes := b.bytes + env.size(e) + 1, lines := b.lines + [e])
    case _ => b
  }

  function Begin(cursor: Cursor): Building { Building(map[], cursor, ALLOWANCE, []) }

  datatype Stop = End | FullAt(i: nat) | UnstampedAt(i: nat)

  function Scan(env: Env, cursor: Cursor, events: seq<LogEvent>, i: nat, b: Building): (Building, Stop)
    requires i <= |events|
    decreases |events| - i
  {
    if i == |events| then (b, End)
    else
      match Judge(env, cursor, b, events[i])
      case Full => (b, FullAt(i))
      case Unstamped => (b, UnstampedAt(i))
      case _ => Scan(env, cursor, events, i + 1, After(env, cursor, b, events[i]))
  }

  /** Events offered after the page is known to be full; their refusals go unnoticed. */
  function Offer(env: Env, cursor: Cursor, b: Building, es: seq<LogEvent>): Building
    decreases |es|
  {
    if es == [] then b else Offer(env, cursor, After(env, cursor, b, es[0]), es[1..])
  }

  /** What one request returns; `None` when Docker gave no timestamps. */
  function PageOf(env: Env, cursor: Cursor): Option<Page> {
    var log := env.open(cursor.stamp);
    var (b, stop) := Scan(env, cursor, log.events, 0, Begin(cursor));
    match stop
    case End => Some(Page(b.lines, None))
    case UnstampedAt(_) => None
    case FullAt(i) =>
      var closed := Offer(env, cursor, b, log.tail(i));
      Some(Page(closed.lines, Some(closed.next)))
  }

  /** The state of the callback closure. */
  class Pager {
    const env: Env
    const cursor: Cursor
    var skipped: map<Stream, nat>
    var next: Cursor
    var bytes: nat
    var lines: seq<LogEvent>

    ghost function State(): Building
      reads this
    {
      Building(skipped, next, bytes, lines)
    }

    constructor (env: Env, cursor: Cursor)
      ensures this.env == env && this.cursor == cursor && State() == Begin(cursor)
    {
      this.env, this.cursor := env, cursor;
      this.skipped, this.next, this.bytes, this.lines := map[], cursor, ALLOWANCE, [];
    }

    method Emit(event: LogEvent) returns (v: Verdict)
      modifies this
      ensures v == Judge(env, cursor, old(State()), event)
      ensures State() == After(env, cursor, old(State()), event)
    {
      if event.timestamp == [] {
        return Unstamped;
      }
      var stamp := env.when(event.timestamp);
      if cursor.stamp != [] {
        var boundary := env.when(cursor.stamp);
        if stamp < boundary {
          return Passed;
        }
        if stamp == boundary && Get(skipped, event.stream) < Get(cursor.seen, event.stream) {
          skipped := skipped[event.stream := Get(skipped, event.stream) + 1];
          return Skipped;
        }
      }
      var encoded := env.size(event);
      if |lines| >= MAX_LINES || bytes + encoded + 1 > MAX_PAGE {
        return Full;
      }
      bytes := bytes + encoded + 1;
      lines := lines + [event];
      if next.stamp != event.timestamp {
        next := Cursor(event.timestamp, map[]);
      }
      next := next.(seen := next.seen[event.stream := Get(next.seen, event.stream) + 1]);
      return Taken;
    }
  }

  /** `ReadLogPage` of the source, from the opened log on. */
  method ReadLogPage(env: Env, cursor: Cursor) returns (r: Option<Page>)
    ensures r == PageOf(env, cursor)
    ensures var es := env.open(cursor.stamp).events;
            && (r.None? <==> exists n: nat :: LacksStamp(env, cursor, es, n))
            && (r.Some? && r.value.next.None? <==> Clear(env, cursor, es, |es|))
            && (r.Some? && r.value.next.None? ==> r.value.lines == Chosen(env, cursor, es, |es|))
  {
    PageOfAny(env, cursor);
    hide LacksStamp, Clear, Chosen;
    var log := env.open(cursor.stamp);
    var pager := new Pager(env, cursor);
    for i := 0 to |log.events|
      invariant pager.env == env && pager.cursor == cursor && fresh(pager)
      invariant Scan(env, cursor, log.events, 0, Begin(cursor)) == Scan(env, cursor, log.events, i, pager.State())
    {
      var v := pager.Emit(log.events[i]);
      if v == Unstamped {
        return None;
      }
      if v == Full {
        var tail := log.tail(i);
        ghost var b := pager.State();
        for j := 0 to |tail|
          invariant pager.env == env && pager.cursor == cursor && fresh(pager)
          invariant Offer(env, cursor, b, tail) == Offer(env, cursor, pager.State(), tail[j..])
        {
          var _ := pager.Emit(tail[j]);
          assert tail[j..][1..] == tail[j + 1..];
        }
        return Some(Page(pager.lines, Some(pager.next)));
      }
    }
    return Some(Page(pager.lines, None));
  }

  // ---- Positions -------------------------------------------------------------

  /** Events of one stream at one instant among the first `n`. */
  function Count(env: Env, all: seq<LogEvent>, n: nat, at: int, s: Stream): nat
    requires n <= |all|
  {
    if n == 0 then 0
    else Count(env, all, n - 1, at, s) + if env.when(all[n - 1].timestamp) == at && all[n - 1].stream == s then 1 else 0
  }

  /** Where the run of equally spelled stamps that ends at `k` starts. */
  function RunStart(all: seq<LogEvent>, k: nat): (r: nat)
    requires 0 < k <= |all|
    ensures r < k && forall i :: r <= i < k ==> all[i].timestamp == all[k - 1].timestamp
    ensures r > 0 ==> all[r - 1].timestamp != all[k - 1].timestamp
  {
    if k >= 2 && all[k - 2].timestamp == all[k - 1].timestamp then RunStart(all, k - 1) else k - 1
  }

  /** The instant of the last event before position `k`. */
  function Boundary(env: Env, all: seq<LogEvent>, k: nat): int
    requires 0 < k <= |all|
  {
    env.when(all[k - 1].timestamp)
  }

  function RunCount(env: Env, all: seq<LogEvent>, k: nat, s: Stream): int
    requires 0 < k <= |all|
  {
    Count(env, all, k, Boundary(env, all, k), s) - Count(env, all, RunStart(all, k), Boundary(env, all, k), s)
  }

  /** The cursor a reader holds after exactly the first `k` events. */
  ghost predicate Denotes(env: Env, all: seq<LogEvent>, k: nat, c: Cursor)
    requires k <= |all|
  {
    if k == 0 then c == BEGINNING
    else c.stamp == all[k - 1].timestamp && forall s :: Get(c.seen, s) == RunCount(env, all, k, s)
  }

  lemma AdvanceDenotes(env: Env, all: seq<LogEvent>, k: nat, c: Cursor)
    requires k < |all| && Denotes(env, all, k, c) && all[k].timestamp != []
    ensures Denotes(env, all, k + 1, Advance(c, all[k]))
  {
    var b := Boundary(env, all, k + 1);
    var next := Advance(c, all[k]);
    forall s ensures Get(next.seen, s) == RunCount(env, all, k + 1, s) {
      if c.stamp == all[k].timestamp {
        assert k > 0 && RunStart(all, k + 1) == RunStart(all, k);
        assert Get(next.seen, s) == Get(c.seen, s) + if s == all[k].stream then 1 else 0;
      } else {
        assert RunStart(all, k + 1) == k;
      }
    }
  }

  // ---- When resuming is exact --------------------------------------------------

  /** Event `j` is delivered when reading resumes at position `k`. */
  ghost predicate Resumed(env: Env, all: seq<LogEvent>, k: nat, j: nat)
    requires k <= |all| && j < |all|
  {
    k == 0
    || env.when(all[j].timestamp) > Boundary(env, all, k)
    || (env.when(all[j].timestamp) == Boundary(env, all, k)
        && Count(env, all, j, Boundary(env, all, k), all[j].stream) >= RunCount(env, all, k, all[j].stream))
  }

  /** What reading from position `k` delivers of the first `n` events. */
  ghost function Deliveries(env: Env, all: seq<LogEvent>, k: nat, n: nat): seq<LogEvent>
    requires k <= |all| && n <= |all|
  {
    if n == 0 then []
    else Deliveries(env, all, k, n - 1) + if Resumed(env, all, k, n - 1) then [all[n - 1]] else []
  }

  /** Resuming at `k` delivers the rest, each event once. */
  ghost predicate ResumesExactly(env: Env, all: seq<LogEvent>, k: nat)
    requires k <= |all|
  {
    forall j: nat :: j < |all| ==> (Resumed(env, all, k, j) <==> j >= k)
  }

  lemma {:induction false} ExactDeliveries(env: Env, all: seq<LogEvent>, k: nat, n: nat)
    requires k <= |all| && n <= |all| && forall j: nat :: j < n ==> (Resumed(env, all, k, j) <==> j >= k)
    ensures Deliveries(env, all, k, n) == all[k..Max(k, n)]
  {
    hide Resumed;
    if n > 0 {
      ExactDeliveries(env, all, k, n - 1);
    }
  }

  /** Nothing read is later, nothing unread is earlier, and the boundary instant was only spelled one way. */
  ghost predicate CleanCut(env: Env, all: seq<LogEvent>, k: nat)
    requires k <= |all|
  {
    k == 0
    || (&& (forall j :: 0 <= j < k ==> env.when(all[j].timestamp) <= Boundary(env, all, k))
        && (forall j :: k <= j < |all| ==> env.when(all[j].timestamp) >= Boundary(env, all, k))
        && (forall j :: 0 <= j < RunStart(all, k) ==> env.when(all[j].timestamp) != Boundary(env, all, k)))
  }

  lemma {:induction false} CountGrows(env: Env, all: seq<LogEvent>, m: nat, n: nat, at: int, s: Stream)
    requires m <= n <= |all|
    ensures Count(env, all, m, at, s) <= Count(env, all, n, at, s)
    decreases n
  {
    if m < n {
      CountGrows(env, all, m, n - 1, at, s);
    }
  }

  lemma {:induction false} CountNone(env: Env, all: seq<LogEvent>, n: nat, at: int, s: Stream)
    requires n <= |all| && forall j :: 0 <= j < n ==> env.when(all[j].timestamp) != at
    ensures Count(env, all, n, at, s) == 0
  {
    if n > 0 {
      CountNone(env, all, n - 1, at, s);
    }
  }

  /** The last counted event has all the others before it. */
  lemma {:induction false} LastCounted(env: Env, all: seq<LogEvent>, n: nat, at: int, s: Stream) returns (j: nat)
    requires n <= |all| && Count(env, all, n, at, s) > 0
    ensures j < n && env.when(all[j].timestamp) == at && all[j].stream == s
    ensures Count(env, all, j, at, s) == Count(env, all, n, at, s) - 1
  {
    if env.when(all[n - 1].timestamp) == at && all[n - 1].stream == s {
      j := n - 1;
    } else {
      j := LastCounted(env, all, n - 1, at, s);
    }
  }

  /** Resuming is exact if and only if the cut is clean. */
  lemma ExactIffClean(env: Env, all: seq<LogEvent>, k: nat)
    requires k <= |all|
    ensures ResumesExactly(env, all, k) <==> CleanCut(env, all, k)
  {
    if k > 0 {
      if CleanCut(env, all, k) {
        CleanCutResumes(env, all, k);
      }
      if ResumesExactly(env, all, k) {
        ExactResumptionIsClean(env, all, k);
      }
    }
  }

  lemma CleanCutResumes(env: Env, all: seq<LogEvent>, k: nat)
    requires 0 < k <= |all| && CleanCut(env, all, k)
    ensures ResumesExactly(env, all, k)
  {
    var b, r := Boundary(env, all, k), RunStart(all, k);
    forall j: nat | j < |all| ensures Resumed(env, all, k, j) <==> j >= k {
      var s := all[j].stream;
      CountNone(env, all, r, b, s);
      if j < k {
        CountGrows(env, all, j + 1, k, b, s);
      } else {
        CountGrows(env, all, k, j, b, s);
      }
    }
  }

  lemma ExactResumptionIsClean(env: Env, all: seq<LogEvent>, k: nat)
    requires 0 < k <= |all| && ResumesExactly(env, all, k)
    ensures CleanCut(env, all, k)
  {
    var b, r := Boundary(env, all, k), RunStart(all, k);
    forall j | 0 <= j < r ensures env.when(all[j].timestamp) != b {
      if env.when(all[j].timestamp) == b {
        var s := all[j].stream;
        CountGrows(env, all, j + 1, r, b, s);
        CountGrows(env, all, r, k, b, s);
        var last := LastCounted(env, all, k, b, s);
        assert Resumed(env, all, k, last);
      }
    }
    forall j: nat | j < |all| ensures (j < k ==> env.when(all[j].timestamp) <= b) && (j >= k ==> env.when(all[j].timestamp) >= b) {
      assert Resumed(env, all, k, j) <==> j >= k;
    }
  }

  ghost predicate Ordered(env: Env, all: seq<LogEvent>) {
    forall i, j :: 0 <= i <= j < |all| ==> env.when(all[i].timestamp) <= env.when(all[j].timestamp)
  }

  ghost predicate OneSpelling(env: Env, all: seq<LogEvent>) {
    forall i, j :: 0 <= i < |all| && 0 <= j < |all| && env.when(all[i].timestamp) == env.when(all[j].timestamp) ==>
                     all[i].timestamp == all[j].timestamp
  }

  /** In an ordered log with one spelling per instant every cut is clean. */
  lemma OrderedCutsAreClean(env: Env, all: seq<LogEvent>, k: nat)
    requires Ordered(env, all) && OneSpelling(env, all) && k <= |all|
    ensures CleanCut(env, all, k)
  {
    if k > 0 {
      var b, r := Boundary(env, all, k), RunStart(all, k);
      forall j | 0 <= j < r ensures env.when(all[j].timestamp) != b {
        assert env.when(all[j].timestamp) <= env.when(all[r - 1].timestamp) <= env.when(all[k - 1].timestamp);
      }
    }
  }

  // ---- One page ----------------------------------------------------------------

  /** Docker's `since` filter: opening at an instant leaves out only events before it. */
  ghost predicate OpensAt(env: Env, all: seq<LogEvent>, stamp: seq<byte>, d: nat) {
    && d <= |all| && env.open(stamp).events == all[d..]
    && (stamp == [] ==> d == 0)
    && forall j :: 0 <= j < d ==> env.when(all[j].timestamp) < env.when(stamp)
  }

  /** The same log, whenever and wherever it is opened. */
  ghost predicate Stable(env: Env, all: seq<LogEvent>) {
    forall stamp :: Opens(env, all, stamp)
  }

  ghost predicate Opens(env: Env, all: seq<LogEvent>, stamp: seq<byte>) {
    exists d :: OpensAt(env, all, stamp, d)
  }

  ghost predicate Stamped(all: seq<LogEvent>) {
    forall e :: e in all ==> e.timestamp != []
  }

  function Max(a: nat, b: nat): nat { if a < b then b else a }

  function Min(a: int, b: int): int { if a < b then a else b }

  /** The encoded size of some lines on a page. */
  function Weight(env: Env, lines: seq<LogEvent>): nat {
    if lines == [] then 0 else Weight(env, lines[..|lines| - 1]) + env.size(lines[|lines| - 1]) + 1
  }

  /** The cursor behind some lines. */
  function Advanced(c: Cursor, lines: seq<LogEvent>): Cursor {
    if lines == [] then c else Advance(Advanced(c, lines[..|lines| - 1]), lines[|lines| - 1])
  }

  /** The callback after the first `a` events of the log, when reading resumed at `k`, wherever the cut is. */
  ghost predicate Delivering(env: Env, all: seq<LogEvent>, k: nat, c: Cursor, a: nat, b: Building)
    requires k <= |all| && a <= |all|
  {
    && b.lines == Deliveries(env, all, k, a)
    && b.bytes == ALLOWANCE + Weight(env, b.lines) && b.next == Advanced(c, b.lines)
    && (k > 0 ==> forall s :: Get(b.skipped, s) == Min(Count(env, all, a, Boundary(env, all, k), s), Get(c.seen, s)))
  }

  /** No more fits on a page with these lines. */
  predicate NoRoom(env: Env, lines: seq<LogEvent>, e: LogEvent) {
    |lines| >= MAX_LINES || ALLOWANCE + Weight(env, lines) + env.size(e) + 1 > MAX_PAGE
  }

  lemma DeliveringStarts(env: Env, all: seq<LogEvent>, k: nat, c: Cursor, d: nat)
    requires k <= |all| && Denotes(env, all, k, c) && OpensAt(env, all, c.stamp, d) && Stamped(all)
    ensures d <= k && Delivering(env, all, k, c, d, Begin(c))
  {
    if k > 0 {
      assert all[k - 1] in all;
      forall s ensures Get(Begin(c).skipped, s) == Min(Count(env, all, d, Boundary(env, all, k), s), Get(c.seen, s)) {
        CountNone(env, all, d, Boundary(env, all, k), s);
        CountGrows(env, all, RunStart(all, k), k, Boundary(env, all, k), s);
      }
      NothingDelivered(env, all, k, d);
    }
  }

  lemma {:induction false} NothingDelivered(env: Env, all: seq<LogEvent>, k: nat, d: nat)
    requires 0 < k <= |all| && d <= |all| && forall j :: 0 <= j < d ==> env.when(all[j].timestamp) < Boundary(env, all, k)
    ensures Deliveries(env, all, k, d) == []
  {
    if d > 0 {
      NothingDelivered(env, all, k, d - 1);
    }
  }

  /** What the callback makes of the next event: it is delivered exactly if it is `Resumed` and there is room. */
  lemma VerdictMeans(env: Env, all: seq<LogEvent>, k: nat, c: Cursor, a: nat, b: Building)
    requires k <= |all| && a < |all| && Denotes(env, all, k, c) && Stamped(all) && Delivering(env, all, k, c, a, b)
    ensures var v := Judge(env, c, b, all[a]);
            if Resumed(env, all, k, a) then v == if NoRoom(env, b.lines, all[a]) then Full else Taken
            else v == Passed || v == Skipped
  {
    assert all[a] in all;
    if k > 0 {
      assert all[k - 1] in all;
      CountGrows(env, all, RunStart(all, k), k, Boundary(env, all, k), all[a].stream);
    }
  }

  lemma DeliveringContinues(env: Env, all: seq<LogEvent>, k: nat, c: Cursor, a: nat, b: Building)
    requires k <= |all| && a < |all| && Denotes(env, all, k, c) && Stamped(all) && Delivering(env, all, k, c, a, b)
    requires Judge(env, c, b, all[a]) != Full
    ensures Delivering(env, all, k, c, a + 1, After(env, c, b, all[a]))
  {
    VerdictMeans(env, all, k, c, a, b);
    LinesContinue(env, c, b, all[a]);
    if k > 0 {
      forall s ensures Get(After(env, c, b, all[a]).skipped, s) == Min(Count(env, all, a + 1, Boundary(env, all, k), s), Get(c.seen, s)) {
        SkipCounts(env, all, k, c, a, b, s);
      }
    }
    hide Resumed, RunStart, Stamped, Denotes, Weight, Advanced, Judge, After, NoRoom, Count, Boundary;
  }

  /** What one event does to the lines of the page, their weight, and the cursor behind them. */
  lemma LinesContinue(env: Env, c: Cursor, b: Building, e: LogEvent)
    requires b.bytes == ALLOWANCE + Weight(env, b.lines) && b.next == Advanced(c, b.lines)
    ensures var b1 := After(env, c, b, e);
            && b1.lines == b.lines + (if Judge(env, c, b, e) == Taken then [e] else [])
            && b1.bytes == ALLOWANCE + Weight(env, b1.lines) && b1.next == Advanced(c, b1.lines)
  {
    hide Judge, Advance;
    assert (b.lines + [e])[..|b.lines|] == b.lines;
  }

  lemma SkipCounts(env: Env, all: seq<LogEvent>, k: nat, c: Cursor, a: nat, b: Building, s: Stream)
    requires 0 < k <= |all| && a < |all| && Denotes(env, all, k, c) && Stamped(all) && Delivering(env, all, k, c, a, b)
    ensures Get(After(env, c, b, all[a]).skipped, s) == Min(Count(env, all, a + 1, Boundary(env, all, k), s), Get(c.seen, s))
  {
    assert all[a] in all && all[k - 1] in all;
    assert Boundary(env, all, k) == env.when(c.stamp);
    hide Delivering, Denotes, Stamped;
    SkippedByJudge(env, c, b, all[a], s);
  }

  /** One event is skipped if it is of the boundary instant and not all of those have been. */
  lemma SkippedByJudge(env: Env, c: Cursor, b: Building, e: LogEvent, s: Stream)
    requires e.timestamp != [] && c.stamp != []
    ensures var passes := env.when(e.timestamp) == env.when(c.stamp) && e.stream == s;
            Get(After(env, c, b, e).skipped, s) ==
            if passes && Get(b.skipped, s) < Get(c.seen, s) then Get(b.skipped, s) + 1 else Get(b.skipped, s)
  {
    hide Advance;
  }

  // ---- Any log at all -----------------------------------------------------------

  /** What the cursor asks for: an event behind its instant, or one of that instant beyond those counted. */
  ghost predicate Wanted(env: Env, c: Cursor, es: seq<LogEvent>, j: nat)
    requires j < |es|
  {
    || c.stamp == []
    || env.when(es[j].timestamp) > env.when(c.stamp)
    || (env.when(es[j].timestamp) == env.when(c.stamp)
        && Count(env, es, j, env.when(c.stamp), es[j].stream) >= Get(c.seen, es[j].stream))
  }

  ghost function Chosen(env: Env, c: Cursor, es: seq<LogEvent>, n: nat): seq<LogEvent>
    requires n <= |es|
  {
    if n == 0 then [] else Chosen(env, c, es, n - 1) + if Wanted(env, c, es, n - 1) then [es[n - 1]] else []
  }

  /** The first `n` events are stamped, and those that are wanted find room. */
  ghost predicate Clear(env: Env, c: Cursor, es: seq<LogEvent>, n: nat)
    requires n <= |es|
  {
    forall j: nat :: j < n ==>
      es[j].timestamp != [] && (Wanted(env, c, es, j) ==> !NoRoom(env, Chosen(env, c, es, j), es[j]))
  }

  /** The callback after the first `a` events. */
  ghost predicate Follows(env: Env, c: Cursor, es: seq<LogEvent>, a: nat, b: Building)
    requires a <= |es|
  {
    && b.lines == Chosen(env, c, es, a)
    && b.bytes == ALLOWANCE + Weight(env, b.lines) && b.next == Advanced(c, b.lines)
    && (c.stamp != [] ==> forall s :: Get(b.skipped, s) == Min(Count(env, es, a, env.when(c.stamp), s), Get(c.seen, s)))
  }

  lemma JudgesByWant(env: Env, c: Cursor, es: seq<LogEvent>, a: nat, b: Building)
    requires a < |es| && Follows(env, c, es, a, b)
    ensures var v := Judge(env, c, b, es[a]);
            if es[a].timestamp == [] then v == Unstamped
            else if Wanted(env, c, es, a) then v == (if NoRoom(env, b.lines, es[a]) then Full else Taken)
            else v == Passed || v == Skipped
  {
  }

  lemma FollowsOn(env: Env, c: Cursor, es: seq<LogEvent>, a: nat, b: Building)
    requires a < |es| && Follows(env, c, es, a, b) && es[a].timestamp != [] && Judge(env, c, b, es[a]) != Full
    ensures Follows(env, c, es, a + 1, After(env, c, b, es[a]))
  {
    JudgesByWant(env, c, es, a, b);
    LinesContinue(env, c, b, es[a]);
    if c.stamp != [] {
      forall s ensures Get(After(env, c, b, es[a]).skipped, s) == Min(Count(env, es, a + 1, env.when(c.stamp), s), Get(c.seen, s)) {
        SkippedByJudge(env, c, b, es[a], s);
      }
    }
    hide Wanted, Weight, Advanced, Judge, After, NoRoom, Count;
  }

  /** A scan stops at the first event that is unstamped or wanted without room, and holds the wanted ones before it. */
  lemma {:induction false} ScanOfAny(env: Env, c: Cursor, es: seq<LogEvent>, i: nat, b: Building)
    requires i <= |es| && Follows(env, c, es, i, b) && Clear(env, c, es, i)
    ensures var (b1, stop) := Scan(env, c, es, i, b);
            match stop
            case End => Clear(env, c, es, |es|) && b1.lines == Chosen(env, c, es, |es|)
            case UnstampedAt(n) => n < |es| && Clear(env, c, es, n) && es[n].timestamp == []
            case FullAt(n) =>
              && n < |es| && Clear(env, c, es, n) && b1.lines == Chosen(env, c, es, n)
              && es[n].timestamp != [] && Wanted(env, c, es, n) && NoRoom(env, b1.lines, es[n])
    decreases |es| - i
  {
    hide Judge, After, Wanted, NoRoom, Weight, Advanced, Chosen;
    if i < |es| {
      JudgesByWant(env, c, es, i, b);
      var v := Judge(env, c, b, es[i]);
      if v != Full && v != Unstamped {
        FollowsOn(env, c, es, i, b);
        ScanOfAny(env, c, es, i + 1, After(env, c, b, es[i]));
      }
    }
  }

  /** The first `n` events are clear and the one behind them is unstamped. */
  ghost predicate LacksStamp(env: Env, c: Cursor, es: seq<LogEvent>, n: nat) {
    n < |es| && es[n].timestamp == [] && Clear(env, c, es, n)
  }

  /**
   * For every log and every cursor: a request fails if and only if an event without timestamp comes before
   * the first wanted one without room; a page without `next` is all that the cursor asks for, and it is
   * returned if and only if everything is stamped and finds room.
   */
  lemma PageOfAny(env: Env, c: Cursor)
    ensures var es := env.open(c.stamp).events;
            && (PageOf(env, c).None? <==> exists n: nat :: LacksStamp(env, c, es, n))
            && (PageOf(env, c).Some? && PageOf(env, c).value.next.None? <==> Clear(env, c, es, |es|))
            && (Clear(env, c, es, |es|) ==> PageOf(env, c).value.lines == Chosen(env, c, es, |es|))
            && (PageOf(env, c).Some? && PageOf(env, c).value.next.Some? ==>
                  exists n: nat :: n <= |es| && Clear(env, c, es, n) && Chosen(env, c, es, n) <= PageOf(env, c).value.lines)
  {
    hide Wanted, NoRoom, Weight, Advanced, Chosen, Judge, Scan;
    var es := env.open(c.stamp).events;
    ScanOfAny(env, c, es, 0, Begin(c)) by {
      NothingFollowed(env, c, es);
    }
    var (b, stop) := Scan(env, c, es, 0, Begin(c));
    match stop {
      case End =>
        assert forall n: nat :: !LacksStamp(env, c, es, n);
      case UnstampedAt(n) =>
        assert LacksStamp(env, c, es, n);
      case FullAt(n) =>
        OfferOnlyAdds(env, c, b, env.open(c.stamp).tail(n));
        forall m: nat ensures !LacksStamp(env, c, es, m) {
        }
        assert !Clear(env, c, es, |es|);
    }
  }

  lemma NothingFollowed(env: Env, c: Cursor, es: seq<LogEvent>)
    ensures Follows(env, c, es, 0, Begin(c)) && Clear(env, c, es, 0)
  {
  }

  /** Every resumed event in this part of the log found room. */
  ghost predicate Roomy(env: Env, all: seq<LogEvent>, k: nat, from: nat, end: nat)
    requires k <= |all| && end <= |all|
  {
    forall j :: from <= j < end && Resumed(env, all, k, j) ==> !NoRoom(env, Deliveries(env, all, k, j), all[j])
  }

  /** Wherever the cut is, a scan holds exactly the events that are `Resumed`, up to the first without room. */
  lemma {:induction false} ScanDelivers(env: Env, all: seq<LogEvent>, k: nat, c: Cursor, d: nat, i: nat, b: Building)
    requires k <= |all| && d + i <= |all| && Denotes(env, all, k, c) && Stamped(all)
    requires Delivering(env, all, k, c, d + i, b)
    ensures var (b1, stop) := Scan(env, c, all[d..], i, b);
            && b1.next == Advanced(c, b1.lines)
            && match stop
               case End => b1.lines == Deliveries(env, all, k, |all|) && Roomy(env, all, k, d + i, |all|)
               case UnstampedAt(_) => false
               case FullAt(n) =>
                 && i <= n && d + n < |all| && b1.lines == Deliveries(env, all, k, d + n)
                 && Resumed(env, all, k, d + n) && NoRoom(env, b1.lines, all[d + n]) && Roomy(env, all, k, d + i, d + n)
    decreases |all| - d - i
  {
    hide Judge, After, Denotes, Resumed, NoRoom, Weight, Advanced, Deliveries;
    if d + i < |all| {
      VerdictMeans(env, all, k, c, d + i, b);
      if Judge(env, c, b, all[d + i]) != Full {
        DeliveringContinues(env, all, k, c, d + i, b);
        ScanDelivers(env, all, k, c, d, i + 1, After(env, c, b, all[d + i]));
      }
    }
  }

  /** No two events of the log are the same. */
  ghost predicate AllDifferent(all: seq<LogEvent>) {
    forall i, j :: 0 <= i < j < |all| ==> all[i] != all[j]
  }

  /**
   * Resumption: a scan that is not stopped by a full page delivers the rest of the log if the cut is
   * clean, and, when no two events are the same, only if it is.
   */
  lemma ResumptionIsExactIffClean(env: Env, all: seq<LogEvent>, k: nat, c: Cursor, d: nat)
    requires k <= |all| && Denotes(env, all, k, c) && Stamped(all) && OpensAt(env, all, c.stamp, d)
    requires Scan(env, c, all[d..], 0, Begin(c)).1.End?
    ensures CleanCut(env, all, k) ==> Scan(env, c, all[d..], 0, Begin(c)).0.lines == all[k..]
    ensures AllDifferent(all) ==>
              (Scan(env, c, all[d..], 0, Begin(c)).0.lines == all[k..] <==> CleanCut(env, all, k))
  {
    hide Denotes, Stamped, CleanCut, Delivering, Scan, Resumed, Roomy, NoRoom;
    DeliveringStarts(env, all, k, c, d);
    ScanDelivers(env, all, k, c, d, 0, Begin(c));
    ExactIffClean(env, all, k);
    if ResumesExactly(env, all, k) {
      ExactDeliveries(env, all, k, |all|);
    } else if AllDifferent(all) {
      var j: nat :| j < |all| && (Resumed(env, all, k, j) <==> j < k);
      DeliveredOnce(env, all, k, |all|, j);
      if all[j] in all[k..] {
        var i :| k <= i < |all| && all[i] == all[j];
        assert i == j;
      }
    }
  }

  /** With all events different, an event is among the deliveries exactly if it is resumed. */
  lemma {:induction false} DeliveredOnce(env: Env, all: seq<LogEvent>, k: nat, n: nat, j: nat)
    requires k <= |all| && n <= |all| && j < |all| && AllDifferent(all)
    ensures all[j] in Deliveries(env, all, k, n) <==> j < n && Resumed(env, all, k, j)
  {
    hide Resumed;
    if n > 0 {
      DeliveredOnce(env, all, k, n - 1, j);
    }
  }

  // ---- Exact reading -----------------------------------------------------------------

  /** The callback after the first `a` events of the log, at a clean cut: its cursor says where it is. */
  ghost predicate Reading(env: Env, all: seq<LogEvent>, k: nat, c: Cursor, a: nat, b: Building)
    requires k <= |all| && a <= |all|
  {
    Delivering(env, all, k, c, a, b) && b.lines == all[k..Max(k, a)] && Denotes(env, all, Max(k, a), b.next)
  }

  lemma ReadingStarts(env: Env, all: seq<LogEvent>, k: nat, c: Cursor, d: nat)
    requires k <= |all| && Denotes(env, all, k, c) && OpensAt(env, all, c.stamp, d) && Stamped(all)
    ensures d <= k && Reading(env, all, k, c, d, Begin(c))
  {
    DeliveringStarts(env, all, k, c, d);
  }

  /** One event: before position `k` it is passed over, from there on it is taken or the page is full. */
  lemma ReadingContinues(env: Env, all: seq<LogEvent>, k: nat, c: Cursor, a: nat, b: Building)
    requires k <= |all| && a < |all| && Denotes(env, all, k, c) && ResumesExactly(env, all, k) && Stamped(all)
    requires Reading(env, all, k, c, a, b)
    ensures var v := Judge(env, c, b, all[a]);
            && v != Unstamped
            && (v == Full ==> a >= k)
            && (v != Full ==> Reading(env, all, k, c, a + 1, After(env, c, b, all[a])))
  {
    hide Delivering, Denotes, Resumed;
    assert all[a] in all && (Resumed(env, all, k, a) <==> a >= k);
    VerdictMeans(env, all, k, c, a, b);
    if Judge(env, c, b, all[a]) != Full {
      DeliveringContinues(env, all, k, c, a, b);
      if a >= k {
        AdvanceDenotes(env, all, a, b.next);
        assert all[k..a + 1] == all[k..a] + [all[a]];
      }
    }
  }

  /** Scanning from any point of the log keeps the reading exact, and stops at the first event without room. */
  lemma {:induction false} ScanIsExact(env: Env, all: seq<LogEvent>, k: nat, c: Cursor, d: nat, i: nat, b: Building)
    requires k <= |all| && d + i <= |all| && Denotes(env, all, k, c) && ResumesExactly(env, all, k) && Stamped(all)
    requires Reading(env, all, k, c, d + i, b)
    ensures var (b1, stop) := Scan(env, c, all[d..], i, b);
            match stop
            case End => b1.lines == all[k..] && HasRoom(env, all, k, Max(k, d + i), |all|)
            case UnstampedAt(_) => false
            case FullAt(n) =>
              && k <= d + n < |all| && Reading(env, all, k, c, d + n, b1) && Judge(env, c, b1, all[d + n]) == Full
              && HasRoom(env, all, k, Max(k, d + i), d + n)
    decreases |all| - d - i
  {
    hide Reading, Judge, After, ResumesExactly, Denotes, NoRoom;
    if d + i < |all| {
      ReadingContinues(env, all, k, c, d + i, b);
      if Judge(env, c, b, all[d + i]) != Full {
        ScanIsExact(env, all, k, c, d, i + 1, After(env, c, b, all[d + i]));
        if d + i >= k {
          TakenHadRoom(env, all, k, c, d + i, b);
        }
      }
    } else {
      ReadingEnds(env, all, k, c, b);
    }
  }

  /** Each of these events fits behind the ones before it. */
  ghost predicate HasRoom(env: Env, all: seq<LogEvent>, k: nat, from: nat, end: nat)
    requires k <= from && end <= |all|
  {
    forall j :: from <= j < end ==> !NoRoom(env, all[k..j], all[j])
  }

  lemma TakenHadRoom(env: Env, all: seq<LogEvent>, k: nat, c: Cursor, a: nat, b: Building)
    requires k <= a < |all| && Denotes(env, all, k, c) && ResumesExactly(env, all, k) && Stamped(all)
    requires Reading(env, all, k, c, a, b) && Judge(env, c, b, all[a]) != Full
    ensures !NoRoom(env, all[k..a], all[a])
  {
    hide Delivering, Denotes, Resumed;
    assert Resumed(env, all, k, a) <==> a >= k;
    VerdictMeans(env, all, k, c, a, b);
  }

  lemma ReadingEnds(env: Env, all: seq<LogEvent>, k: nat, c: Cursor, b: Building)
    requires k <= |all| && Reading(env, all, k, c, |all|, b)
    ensures b.lines == all[k..]
  {
  }

  /** None of the events offered after the page is full gets onto it. */
  predicate Quiet(env: Env, c: Cursor, b: Building, es: seq<LogEvent>)
    decreases |es|
  {
    es == [] || (Judge(env, c, b, es[0]) != Taken && Quiet(env, c, After(env, c, b, es[0]), es[1..]))
  }

  lemma {:induction false} OfferedAfterFull(env: Env, c: Cursor, b: Building, es: seq<LogEvent>)
    ensures var closed := Offer(env, c, b, es);
            if Quiet(env, c, b, es) then closed.lines == b.lines && closed.next == b.next
            else |b.lines| < |closed.lines| && b.lines < closed.lines
                 && |b.lines| < MAX_LINES && b.bytes + env.size(closed.lines[|b.lines|]) + 1 <= MAX_PAGE
    decreases |es|
  {
    if es != [] {
      var v := Judge(env, c, b, es[0]);
      OfferedAfterFull(env, c, After(env, c, b, es[0]), es[1..]);
      if v == Taken {
        OfferOnlyAdds(env, c, After(env, c, b, es[0]), es[1..]);
      }
    }
  }

  lemma {:induction false} OfferOnlyAdds(env: Env, c: Cursor, b: Building, es: seq<LogEvent>)
    ensures b.lines <= Offer(env, c, b, es).lines
    decreases |es|
  {
    if es != [] {
      OfferOnlyAdds(env, c, After(env, c, b, es[0]), es[1..]);
    }
  }

  /** An event that is offered after the page was full gets onto it: it is stamped, not earlier than the cursor, and there is room. */
  ghost predicate Slips(env: Env, c: Cursor, lines: seq<LogEvent>, e: LogEvent) {
    e.timestamp != [] && (c.stamp == [] || env.when(e.timestamp) >= env.when(c.stamp)) && !NoRoom(env, lines, e)
  }

  /** Past the cursor's position nothing is skipped any more. */
  lemma JudgedByRoom(env: Env, all: seq<LogEvent>, k: nat, c: Cursor, a: nat, b: Building, e: LogEvent)
    requires k <= a <= |all| && Denotes(env, all, k, c) && Stamped(all) && Reading(env, all, k, c, a, b)
    ensures Judge(env, c, b, e) != Skipped && (Judge(env, c, b, e) == Taken <==> Slips(env, c, b.lines, e))
  {
    if k > 0 {
      assert all[k - 1] in all;
      var at := Boundary(env, all, k);
      CountGrows(env, all, k, a, at, e.stream);
      CountGrows(env, all, RunStart(all, k), k, at, e.stream);
    }
  }

  lemma {:induction false} QuietIffNothingSlips(env: Env, all: seq<LogEvent>, k: nat, c: Cursor, a: nat, b: Building, es: seq<LogEvent>)
    requires k <= a <= |all| && Denotes(env, all, k, c) && Stamped(all) && Reading(env, all, k, c, a, b)
    ensures Quiet(env, c, b, es) <==> forall e :: e in es ==> !Slips(env, c, b.lines, e)
    decreases |es|
  {
    hide Denotes, Reading, Judge, Slips, Stamped;
    if es != [] {
      JudgedByRoom(env, all, k, c, a, b, es[0]);
      if Judge(env, c, b, es[0]) != Taken {
        QuietIffNothingSlips(env, all, k, c, a, b, es[1..]);
      } else {
        assert es[0] in es;
      }
    }
  }

  /**
   * A page that is not full holds the whole rest of the log. A full page holds the next events and
   * points right after them if and only if none of the events still offered after the cut is stamped,
   * not earlier than the cursor, and small enough for the room that the lines up to the cut leave.
   */
  lemma PageIsExact(env: Env, all: seq<LogEvent>, k: nat, c: Cursor, d: nat)
    requires k <= |all| && Denotes(env, all, k, c) && CleanCut(env, all, k) && Stamped(all) && OpensAt(env, all, c.stamp, d)
    ensures var stop := Scan(env, c, all[d..], 0, Begin(c)).1;
            match stop
            case End => PageOf(env, c) == Some(Page(all[k..], None)) && HasRoom(env, all, k, k, |all|)
            case UnstampedAt(_) => false
            case FullAt(n) =>
              && k <= d + n < |all| && PageOf(env, c).Some? && PageOf(env, c).value.next.Some?
              && HasRoom(env, all, k, k, d + n) && NoRoom(env, all[k..d + n], all[d + n])
              && var page := PageOf(env, c).value;
              && if forall e :: e in env.open(c.stamp).tail(n) ==> !Slips(env, c, all[k..d + n], e)
                 then page.lines == all[k..d + n] && Denotes(env, all, d + n, page.next.value)
                 else forall m :: k <= m <= |all| ==> page.lines != all[k..m]
  {
    hide CleanCut, ResumesExactly, OpensAt, Denotes, Quiet, Reading, Judge, After, Stamped, Slips, NoRoom, Resumed;
    ExactIffClean(env, all, k);
    ReadingStarts(env, all, k, c, d);
    ScanIsExact(env, all, k, c, d, 0, Begin(c));
    OpenedEvents(env, all, c.stamp, d);
    var (b, stop) := Scan(env, c, all[d..], 0, Begin(c));
    if stop.FullAt? {
      var tail := env.open(c.stamp).tail(stop.i);
      OfferedAfterFull(env, c, b, tail);
      QuietIffNothingSlips(env, all, k, c, d + stop.i, b, tail);
      FullPage(env, all, k, c, d + stop.i, b, Offer(env, c, b, tail).lines);
    }
  }

  lemma OpenedEvents(env: Env, all: seq<LogEvent>, stamp: seq<byte>, d: nat)
    requires OpensAt(env, all, stamp, d)
    ensures d <= |all| && env.open(stamp).events == all[d..]
  {
  }

  /** Lines that go past the cut with an event small enough to fit are not the log's. */
  lemma FullMeansNoRoom(env: Env, all: seq<LogEvent>, k: nat, c: Cursor, a: nat, b: Building)
    requires k <= a < |all| && Stamped(all) && Reading(env, all, k, c, a, b)
    ensures b.lines == all[k..a] && Denotes(env, all, a, b.next)
    ensures Judge(env, c, b, all[a]) == Full ==> NoRoom(env, b.lines, all[a])
  {
  }

  lemma FullPage(env: Env, all: seq<LogEvent>, k: nat, c: Cursor, a: nat, b: Building, lines: seq<LogEvent>)
    requires k <= a < |all| && Stamped(all) && Reading(env, all, k, c, a, b) && Judge(env, c, b, all[a]) == Full
    ensures b.lines == all[k..a] && Denotes(env, all, a, b.next) && NoRoom(env, b.lines, all[a])
    ensures |b.lines| < |lines| && |b.lines| < MAX_LINES && b.bytes + env.size(lines[|b.lines|]) + 1 <= MAX_PAGE ==>
              forall m :: k <= m <= |all| ==> lines != all[k..m]
  {
    hide Denotes, Weight, Judge, Stamped;
    FullMeansNoRoom(env, all, k, c, a, b);
    if |b.lines| < |lines| && |b.lines| < MAX_LINES && b.bytes + env.size(lines[|b.lines|]) + 1 <= MAX_PAGE {
      assert |b.lines| == a - k;
    }
  }

  /** A page of 1000 lines takes nothing more, whatever is offered. */
  lemma {:induction false} LongPageStays(env: Env, c: Cursor, b: Building, es: seq<LogEvent>)
    requires |b.lines| >= MAX_LINES
    ensures Offer(env, c, b, es).lines == b.lines && Offer(env, c, b, es).next == b.next
    decreases |es|
  {
    if es != [] {
      LongPageStays(env, c, After(env, c, b, es[0]), es[1..]);
    }
  }
}
