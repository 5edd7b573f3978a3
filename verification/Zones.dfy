/**
 * Time zones as offsets that change at instants, and the civil clock they show. Instants and wall
 * times are in seconds; wall times count from midnight of day 0.
 */
module Zones {

  const DAY := 86400

  /** From instant `at` on, the zone is `offset` ahead of UTC. */
  datatype Change = Change(at: int, offset: int)

  datatype Zone = Zone(initial: int, changes: seq<Change>)

  predicate Whole(o: int) { o % 60 == 0 }

  predicate GoodOffset(o: int) { -DAY < o < DAY && Whole(o) }

  /** Offset before change `i`. */
  function Before(z: Zone, i: nat): int
    requires i < |z.changes|
  {
    if i == 0 then z.initial else z.changes[i - 1].offset
  }

  /** Offsets are whole minutes below a day, jumps are below a day, changes more than two days apart. */
  predicate ValidZone(z: Zone) {
    && GoodOffset(z.initial)
    && (forall i :: 0 <= i < |z.changes| ==> GoodOffset(z.changes[i].offset) && -DAY < z.changes[i].offset - Before(z, i) < DAY)
    && forall i, j :: 0 <= i < j < |z.changes| ==> z.changes[j].at - z.changes[i].at > 2 * DAY
  }

  function Offset(z: Zone, t: int): int
    decreases |z.changes|
  {
    if z.changes == [] then z.initial
    else if z.changes[|z.changes| - 1].at <= t then z.changes[|z.changes| - 1].offset
    else Offset(z.(changes := z.changes[..|z.changes| - 1]), t)
  }

  function Wall(z: Zone, t: int): int { t + Offset(z, t) }

  /** The date a wall time belongs to. */
  function DayOf(w: int): int { w / DAY }

  function Day(z: Zone, t: int): int { DayOf(Wall(z, t)) }

  lemma DayBounds(w: int)
    ensures DayOf(w) * DAY <= w < DayOf(w) * DAY + DAY
  {
  }

  lemma WholeSum(a: int, b: int)
    requires Whole(a) && Whole(b)
    ensures Whole(a + b) && Whole(a - b)
  {
  }

  lemma WholeDay(day: int)
    ensures Whole(day * DAY)
  {
    assert day * DAY == 60 * (1440 * day);
  }

  /** Between `lo` and `hi` the offset is `o1` before `T` and `o2` from `T` on. */
  ghost predicate Looks(z: Zone, lo: int, hi: int, T: int, o1: int, o2: int) {
    && (forall t :: lo <= t <= hi ==> Offset(z, t) == if t < T then o1 else o2)
    && -DAY < o1 < DAY && -DAY < o2 < DAY && -DAY < o2 - o1 < DAY
  }

  lemma {:induction false} OffsetAfterAll(z: Zone, t: int)
    requires ValidZone(z) && (z.changes != [] ==> z.changes[|z.changes| - 1].at <= t)
    ensures Offset(z, t) == if z.changes == [] then z.initial else z.changes[|z.changes| - 1].offset
  {
  }

  lemma ShorterZoneIsValid(z: Zone)
    requires ValidZone(z) && z.changes != []
    ensures ValidZone(z.(changes := z.changes[..|z.changes| - 1]))
  {
    var y := z.(changes := z.changes[..|z.changes| - 1]);
    forall i | 0 <= i < |y.changes| ensures GoodOffset(y.changes[i].offset) && -DAY < y.changes[i].offset - Before(y, i) < DAY {
      assert y.changes[i] == z.changes[i] && Before(y, i) == Before(z, i);
    }
  }

  /** Any two days hold at most one change. */
  lemma {:induction false} AtMostOneChange(z: Zone, lo: int, hi: int) returns (T: int, o1: int, o2: int)
    requires ValidZone(z) && lo <= hi <= lo + 2 * DAY
    ensures Looks(z, lo, hi, T, o1, o2) && lo <= T
    decreases |z.changes|
  {
    if z.changes == [] {
      T, o1, o2 := lo, z.initial, z.initial;
    } else {
      var n := |z.changes| - 1;
      var last, y := z.changes[n], z.(changes := z.changes[..n]);
      ShorterZoneIsValid(z);
      if hi < last.at {
        T, o1, o2 := AtMostOneChange(y, lo, hi);
        assert forall t :: lo <= t <= hi ==> Offset(z, t) == Offset(y, t);
      } else if last.at <= lo {
        T, o1, o2 := lo, last.offset, last.offset;
      } else {
        T, o1, o2 := last.at, Before(z, n), last.offset;
        forall t | lo <= t <= hi ensures Offset(z, t) == if t < T then o1 else o2 {
          if t < T {
            OffsetAfterAll(y, t);
          }
        }
      }
    }
  }

  // ---- Civil times -------------------------------------------------------------

  predicate Shows(z: Zone, w: int, t: int) { Wall(z, t) == w }

  /** At `T` the clock jumps from `o1` to `o2` ahead of UTC. */
  predicate ChangesAt(z: Zone, T: int, o1: int, o2: int) {
    Offset(z, T - 1) == o1 && Offset(z, T) == o2 && o1 != o2
  }

  /** The wall time `w` is skipped by the jump at `T`. */
  predicate SkippedAt(z: Zone, w: int, T: int, o1: int, o2: int) {
    ChangesAt(z, T, o1, o2) && T + o1 <= w < T + o2
  }

  /**
   * What Go's `time.Date` promises for the wall time `w`: an instant that shows it, or in a gap the
   * reading in one of the two zones of the jump, it does not say which.
   */
  ghost predicate IsDate(z: Zone, w: int, u: int) {
    || Shows(z, w, u)
    || exists T, o1, o2 :: SkippedAt(z, w, T, o1, o2) && (u == w - o1 || u == w - o2)
  }

  /**
   * The intended occurrence of a wall time, as in section 3.3.5 of RFC 5545: the first instant that
   * shows it, or in a gap the wall time read with the offset before the gap.
   */
  ghost predicate Occurs(z: Zone, w: int, t: int) {
    || (Shows(z, w, t) && forall u :: Shows(z, w, u) ==> t <= u)
    || exists T, o1, o2 :: SkippedAt(z, w, T, o1, o2) && t == w - o1
  }

  /** A wall time near the only change in its two days: who shows it, and whether it is skipped. */
  lemma LocalCivil(z: Zone, w: int) returns (T: int, o1: int, o2: int)
    requires ValidZone(z)
    ensures Looks(z, w - DAY, w + DAY, T, o1, o2)
    ensures forall u :: Shows(z, w, u) <==> (u == w - o1 && u < T) || (u == w - o2 && u >= T)
    ensures forall S, p1, p2 :: SkippedAt(z, w, S, p1, p2) ==> S == T && p1 == o1 && p2 == o2
    ensures w - o1 >= T && w - o2 < T ==> SkippedAt(z, w, T, o1, o2)
  {
    hide ValidZone, Offset, Whole;
    T, o1, o2 := AtMostOneChange(z, w - DAY, w + DAY);
    forall u ensures Shows(z, w, u) <==> (u == w - o1 && u < T) || (u == w - o2 && u >= T) {
      OffsetIsGood(z, u);
    }
    forall S, p1, p2 | SkippedAt(z, w, S, p1, p2) ensures S == T && p1 == o1 && p2 == o2 {
      OffsetIsGood(z, S - 1);
      OffsetIsGood(z, S);
    }
  }

  lemma {:induction false} OffsetIsGood(z: Zone, t: int)
    requires ValidZone(z)
    ensures GoodOffset(Offset(z, t))
    decreases |z.changes|
  {
    if z.changes != [] {
      ShorterZoneIsValid(z);
      OffsetIsGood(z.(changes := z.changes[..|z.changes| - 1]), t);
    }
  }

  /** Every wall time has an occurrence, and only one. */
  lemma OccurrenceIsUnique(z: Zone, w: int, t: int, u: int)
    requires ValidZone(z) && Occurs(z, w, t) && Occurs(z, w, u)
    ensures t == u
  {
    hide ValidZone, Offset, Looks;
    var T, o1, o2 := LocalCivil(z, w);
  }

  lemma OccurrenceExists(z: Zone, w: int) returns (t: int)
    requires ValidZone(z)
    ensures Occurs(z, w, t)
  {
    hide ValidZone, Offset, Looks;
    var T, o1, o2 := LocalCivil(z, w);
    t := if w - o1 < T then w - o1 else if w - o2 >= T then w - o2 else w - o1;
  }

  /** The offset an occurrence was read with was in force less than a day before it. */
  lemma OccurrenceReading(z: Zone, w: int, t: int) returns (s: int)
    requires ValidZone(z) && Occurs(z, w, t)
    ensures t - DAY < s <= t && t == w - Offset(z, s)
  {
    hide ValidZone, Offset, Whole;
    if Shows(z, w, t) {
      s := t;
    } else {
      var T, o1, o2 :| SkippedAt(z, w, T, o1, o2) && t == w - o1;
      s := T - 1;
      var T', p1, p2 := LocalCivil(z, w);
    }
  }

  /** Occurrences a day or more apart on the clock come in the same order in time. */
  lemma OccurrencesIncrease(z: Zone, w: int, t: int, w2: int, t2: int)
    requires ValidZone(z) && Occurs(z, w, t) && Occurs(z, w2, t2) && w2 >= w + DAY
    ensures t < t2
  {
    hide ValidZone, Offset, Whole, Occurs;
    var s := OccurrenceReading(z, w, t);
    var s2 := OccurrenceReading(z, w2, t2);
    OffsetIsGood(z, s);
    OffsetIsGood(z, s2);
    if t2 <= t {
      var T, o1, o2 := AtMostOneChange(z, t - 2 * DAY, t);
    }
  }

  /** What the two readings of a skipped wall time show. */
  lemma SkippedReads(z: Zone, w: int, T: int, o1: int, o2: int)
    requires ValidZone(z) && SkippedAt(z, w, T, o1, o2)
    ensures o1 < o2 && Wall(z, w - o1) == w + (o2 - o1) && Wall(z, w - o2) == w - (o2 - o1)
  {
    hide Whole, ValidZone, Offset;
    var S, p1, p2 := LocalCivil(z, w);
  }

  /** An occurrence never shows less than the wall time it stands for. */
  lemma OccurrenceShows(z: Zone, w: int, t: int)
    requires ValidZone(z) && Occurs(z, w, t)
    ensures Wall(z, t) >= w
  {
    hide ValidZone, Offset, SkippedAt;
    if !Shows(z, w, t) {
      var T, o1, o2 :| SkippedAt(z, w, T, o1, o2) && t == w - o1;
      SkippedReads(z, w, T, o1, o2);
    }
  }

  /** When the clock has gone back between two instants, one change did it. */
  lemma ClockWentBack(z: Zone, t: int, now: int) returns (T: int, o1: int, o2: int)
    requires ValidZone(z) && t <= now && Wall(z, now) < Wall(z, t)
    ensures ChangesAt(z, T, o1, o2) && o2 < o1 && t < T <= now
    ensures Wall(z, t) == t + o1 && Wall(z, now) == now + o2
  {
    hide Whole, ValidZone, Offset;
    OffsetIsGood(z, t);
    OffsetIsGood(z, now);
    T, o1, o2 := AtMostOneChange(z, now - 2 * DAY, now);
  }

  // ---- Civil times and a moment ----------------------------------------------------

  /** By `now` the clock has gone back from a time past `w`. */
  ghost predicate FoldOver(z: Zone, now: int, w: int) {
    exists T, o1, o2 :: ChangesAt(z, T, o1, o2) && o2 < o1 && T <= now && w < T + o1
  }

  /** The clock skips `w`, and its reading with the offset before the gap lies after `now`. */
  ghost predicate GapAhead(z: Zone, now: int, w: int) {
    exists T, o1, o2 :: SkippedAt(z, w, T, o1, o2) && now < w - o1
  }

  /** A change near a wall time is the change that `LocalCivil` finds. */
  lemma ChangeNearby(z: Zone, w: int, T: int, o1: int, o2: int)
    requires ValidZone(z) && ChangesAt(z, T, o1, o2) && w - DAY < T <= w + DAY
    ensures Shows(z, w, w - o1) <==> w - o1 < T
    ensures !(o2 < o1 && exists S, p1, p2 :: SkippedAt(z, w, S, p1, p2))
  {
    hide ValidZone, Offset, Whole;
    OffsetIsGood(z, T);
    OffsetIsGood(z, T - 1);
    var S, p1, p2 := LocalCivil(z, w);
    assert S == T && p1 == o1 && p2 == o2;
  }

  /** A later clock time is still to come, unless a fold has been over it. */
  lemma LaterUnlessFold(z: Zone, now: int, w: int, t: int)
    requires ValidZone(z) && Occurs(z, w, t) && Wall(z, now) < w
    ensures now < t <==> !FoldOver(z, now, w)
  {
    hide ValidZone, Offset, Whole;
    OffsetIsGood(z, now);
    if FoldOver(z, now, w) {
      var T, o1, o2 :| ChangesAt(z, T, o1, o2) && o2 < o1 && T <= now && w < T + o1;
      OffsetIsGood(z, T - 1);
      ChangeNearby(z, w, T, o1, o2);
    } else if t <= now {
      OccurrenceShows(z, w, t);
      var T, o1, o2 := ClockWentBack(z, t, now);
    }
  }

  /** An earlier clock time has come, unless it was skipped and its reading is still ahead. */
  lemma EarlierUnlessGap(z: Zone, now: int, w: int, t: int)
    requires ValidZone(z) && Occurs(z, w, t) && w < Wall(z, now)
    ensures t <= now <==> !GapAhead(z, now, w)
  {
    hide ValidZone, Offset, Whole;
    if GapAhead(z, now, w) {
      var T, o1, o2 :| SkippedAt(z, w, T, o1, o2) && now < w - o1;
      OccurrenceIsUnique(z, w, t, w - o1);
    } else if now < t {
      var T, o1, o2 := ClockWentBack(z, now, t);
      OffsetIsGood(z, T);
      OffsetIsGood(z, T - 1);
      ChangeNearby(z, w, T, o1, o2);
    }
  }
}
