/**
 * Daily wall-clock occurrences across clock changes (internal/schedule/schedule.go). `date` stands
 * for Go's `time.Date` in the schedule's location: any function that keeps its promise.
 */
module Schedule {
  import opened Zones

  ghost predicate IsDateFunction(z: Zone, date: int -> int) {
    forall w :: IsDate(z, w, date(w))
  }

  /** A time of day as `ParseTime` accepts it: hours and minutes, in seconds. */
  predicate TimeOfDay(clock: int) { 0 <= clock < DAY && Whole(clock) }

  /** A wall time cut to the minute. */
  function Minute(w: int): int { w - w % 60 }

  function DailyAt(z: Zone, date: int -> int, day: int, clock: int): int {
    var want := day * DAY + clock;
    var first := date(want);
    var wall := Minute(Wall(z, first));
    var slot := if wall < want then first + (want - wall) else first;
    var earlier := slot + (Offset(z, slot) - Offset(z, slot - DAY));
    if earlier < slot && Minute(Wall(z, earlier)) == want then earlier else slot
  }

  /** `AddDate(0, 0, n)`: the civil date of the same clock time `n` days away. */
  function DateAfter(z: Zone, date: int -> int, now: int, n: int): int {
    Day(z, date(Wall(z, now) + n * DAY))
  }

  function SlotAt(z: Zone, date: int -> int, now: int, clock: int): int {
    var slot := DailyAt(z, date, Day(z, now), clock);
    if now < slot then DailyAt(z, date, DateAfter(z, date, now, -1), clock) else slot
  }

  function NextAt(z: Zone, date: int -> int, now: int, clock: int): int {
    var slot := DailyAt(z, date, Day(z, now), clock);
    if slot <= now then DailyAt(z, date, DateAfter(z, date, now, 1), clock) else slot
  }

  // ---- The occurrence of one day -------------------------------------------------

  lemma MinuteOfWhole(w: int)
    requires Whole(w)
    ensures Minute(w) == w
  {
  }

  /** `time.Date` of a whole minute is a whole minute. */
  lemma DateIsWhole(z: Zone, w: int, u: int)
    requires ValidZone(z) && Whole(w) && IsDate(z, w, u)
    ensures Whole(u)
  {
    hide Whole, ValidZone, Offset;
    var t := u;
    if !Shows(z, w, u) {
      var T, o1, o2 :| SkippedAt(z, w, T, o1, o2) && (u == w - o1 || u == w - o2);
      t := if u == w - o1 then T - 1 else T;
    }
    OffsetIsGood(z, t);
    WholeSum(w, Offset(z, t));
  }

  /** What a whole minute shows is a whole minute. */
  lemma WallIsWhole(z: Zone, t: int)
    requires ValidZone(z) && Whole(t)
    ensures Whole(Wall(z, t)) && Minute(Wall(z, t)) == Wall(z, t)
  {
    hide Whole, ValidZone, Offset;
    OffsetIsGood(z, t);
    WholeSum(t, Offset(z, t));
    MinuteOfWhole(Wall(z, t));
  }

  /** Whichever instant `time.Date` picks, the result is the intended occurrence. */
  lemma DailyAtIsTheOccurrence(z: Zone, date: int -> int, day: int, clock: int)
    requires ValidZone(z) && IsDateFunction(z, date) && TimeOfDay(clock)
    ensures Occurs(z, day * DAY + clock, DailyAt(z, date, day, clock))
  {
    hide Whole, Minute, Occurs, Looks, ValidZone;
    var want := day * DAY + clock;
    var first := date(want);
    var T, o1, o2 := LocalCivil(z, want);
    assert IsDate(z, want, first);
    WholeDay(day);
    WholeSum(day * DAY, clock);
    DateIsWhole(z, want, first);
    WallIsWhole(z, first);
    var slot := if Wall(z, first) < want then first + (want - Wall(z, first)) else first;
    SlotReadsRight(z, want, first, slot, T, o1, o2);
    FirstOfTwo(z, want, slot, T, o1, o2);
  }

  /** Moving forward over a gap lands on the wall time read with the offset before it. */
  lemma SlotReadsRight(z: Zone, want: int, first: int, slot: int, T: int, o1: int, o2: int)
    requires ValidZone(z) && Looks(z, want - DAY, want + DAY, T, o1, o2) && IsDate(z, want, first)
    requires forall u :: Shows(z, want, u) <==> (u == want - o1 && u < T) || (u == want - o2 && u >= T)
    requires forall S, p1, p2 :: SkippedAt(z, want, S, p1, p2) ==> S == T && p1 == o1 && p2 == o2
    requires slot == if Wall(z, first) < want then first + (want - Wall(z, first)) else first
    ensures Shows(z, want, slot) || (SkippedAt(z, want, T, o1, o2) && slot == want - o1)
  {
    hide ValidZone, Offset;
    if !Shows(z, want, first) {
      assert first == want - o1 || first == want - o2;
    }
  }

  /** Looking one day back finds the first of two occurrences, and nothing else. */
  lemma FirstOfTwo(z: Zone, want: int, slot: int, T: int, o1: int, o2: int)
    requires ValidZone(z) && Looks(z, want - DAY, want + DAY, T, o1, o2) && Whole(want)
    requires forall u :: Shows(z, want, u) <==> (u == want - o1 && u < T) || (u == want - o2 && u >= T)
    requires Shows(z, want, slot) || (SkippedAt(z, want, T, o1, o2) && slot == want - o1)
    ensures var earlier := slot + (Offset(z, slot) - Offset(z, slot - DAY));
            Occurs(z, want, if earlier < slot && Minute(Wall(z, earlier)) == want then earlier else slot)
  {
    hide Whole, Minute, ValidZone, Offset, Looks;
    var earlier := slot + (Offset(z, slot) - Offset(z, slot - DAY));
    EarlierIsWhole(z, want, slot, T, o1, o2);
    if Shows(z, want, slot) && slot == want - o2 && slot >= T && want - o1 < T {
      SecondIsFound(z, want, slot, T, o1, o2);
    }
  }

  lemma EarlierIsWhole(z: Zone, want: int, slot: int, T: int, o1: int, o2: int)
    requires ValidZone(z) && Whole(want)
    requires Shows(z, want, slot) || (SkippedAt(z, want, T, o1, o2) && slot == want - o1)
    ensures var earlier := slot + (Offset(z, slot) - Offset(z, slot - DAY));
            Minute(Wall(z, earlier)) == Wall(z, earlier)
  {
    hide Whole, Minute, ValidZone, Offset, SkippedAt;
    var o, p := Offset(z, slot), Offset(z, slot - DAY);
    DateIsWhole(z, want, slot);
    OffsetIsGood(z, slot);
    OffsetIsGood(z, slot - DAY);
    WholeSum(o, p);
    WholeSum(slot, o - p);
    WallIsWhole(z, slot + (o - p));
  }

  /** From the second occurrence of a repeated time, the day before was read with the first offset. */
  lemma SecondIsFound(z: Zone, want: int, slot: int, T: int, o1: int, o2: int)
    requires ValidZone(z) && Looks(z, want - DAY, want + DAY, T, o1, o2)
    requires slot == want - o2 && slot >= T && want - o1 < T
    ensures o1 != o2 ==> Offset(z, slot) == o2 && Offset(z, slot - DAY) == o1
  {
    hide Whole, ValidZone, Offset;
    if o1 != o2 {
      assert Offset(z, T - 1) == o1 && Offset(z, T) == o2;
      var S, p1, p2 := AtMostOneChange(z, slot - DAY, slot + DAY);
    }
  }

  /** The daily occurrences come in the order of their dates. */
  lemma DailyIncreases(z: Zone, date: int -> int, d: int, e: int, clock: int)
    requires ValidZone(z) && IsDateFunction(z, date) && TimeOfDay(clock) && d < e
    ensures DailyAt(z, date, d, clock) < DailyAt(z, date, e, clock)
  {
    hide DailyAt, Occurs, Whole, ValidZone;
    DailyAtIsTheOccurrence(z, date, d, clock);
    DailyAtIsTheOccurrence(z, date, e, clock);
    OccurrencesIncrease(z, d * DAY + clock, DailyAt(z, date, d, clock), e * DAY + clock, DailyAt(z, date, e, clock));
  }

  // ---- Slots ---------------------------------------------------------------------

  /** No clock change repeats wall times on both sides of a midnight. */
  ghost predicate FoldsClear(z: Zone) {
    forall T, o1, o2 :: ChangesAt(z, T, o1, o2) && o2 < o1 ==> DayOf(T + o2) == DayOf(T + o1 - 1)
  }

  /** No clock change skips a wall time that reads across a midnight with either offset. */
  ghost predicate GapsClear(z: Zone) {
    forall T, o1, o2 :: ChangesAt(z, T, o1, o2) && o1 < o2 ==> DayOf(T + o1 - (o2 - o1)) == DayOf(T + o2 + (o2 - o1) - 1)
  }

  /** With changes clear of midnight no fold reaches another date, and no gap hides yesterday. */
  lemma ClearOfMidnight(z: Zone, now: int, clock: int)
    requires ValidZone(z) && TimeOfDay(clock)
    ensures FoldsClear(z) ==> !FoldOver(z, now, (Day(z, now) + 1) * DAY + clock)
    ensures GapsClear(z) ==> !GapAhead(z, now, (Day(z, now) - 1) * DAY + clock)
  {
    hide Whole, Offset, ValidZone, DayOf;
    var today := Day(z, now);
    DayBounds(Wall(z, now));
    OffsetIsGood(z, now);
    var later, earlier := (today + 1) * DAY + clock, (today - 1) * DAY + clock;
    if FoldOver(z, now, later) && FoldsClear(z) {
      var T, o1, o2 :| ChangesAt(z, T, o1, o2) && o2 < o1 && T <= now && later < T + o1;
      OffsetIsGood(z, T - 1);
      var S, p1, p2 := AtMostOneChange(z, now - 2 * DAY, now);
      assert Offset(z, now) == o2;
      DayBounds(T + o1 - 1);
      DayBounds(T + o2);
    }
    if GapAhead(z, now, earlier) && GapsClear(z) {
      var T, o1, o2 :| SkippedAt(z, earlier, T, o1, o2) && now < earlier - o1;
      GapReadings(T, o1, o2, earlier);
      DayBounds(earlier + (o2 - o1));
      DayBounds(earlier);
      SkippedReads(z, earlier, T, o1, o2);
      var S, p1, p2 := ClockWentBack(z, now, earlier - o1);
      OffsetIsGood(z, T - 1);
      ChangeNearby(z, earlier, S, p1, p2);
    }
  }

  /**
   * The exact condition for the next check: it lies in the future if and only if today's is still to
   * come, or adding a day reaches a later date at whose time no fold has yet been.
   */
  lemma NextIsLaterIff(z: Zone, date: int -> int, now: int, clock: int)
    requires ValidZone(z) && IsDateFunction(z, date) && TimeOfDay(clock)
    ensures var today, landed := Day(z, now), DateAfter(z, date, now, 1);
            NextAt(z, date, now, clock) > now <==>
            now < DailyAt(z, date, today, clock) || (today < landed && !FoldOver(z, now, landed * DAY + clock))
  {
    hide DailyAt, Occurs, Whole, DateAfter, Day, FoldOver, ValidZone;
    var today, landed := Day(z, now), DateAfter(z, date, now, 1);
    if DailyAt(z, date, today, clock) <= now {
      if today < landed {
        DailyAtIsTheOccurrence(z, date, landed, clock);
        DatesApart(z, now, landed, clock);
        LaterUnlessFold(z, now, landed * DAY + clock, DailyAt(z, date, landed, clock));
      } else if landed < today {
        DailyIncreases(z, date, landed, today, clock);
      }
    }
  }

  /** And for the last slot: today's has come, or subtracting a day reaches an earlier date whose time is not in a gap ahead. */
  lemma SlotHasComeIff(z: Zone, date: int -> int, now: int, clock: int)
    requires ValidZone(z) && IsDateFunction(z, date) && TimeOfDay(clock)
    ensures var today, landed := Day(z, now), DateAfter(z, date, now, -1);
            SlotAt(z, date, now, clock) <= now <==>
            DailyAt(z, date, today, clock) <= now || (landed < today && !GapAhead(z, now, landed * DAY + clock))
  {
    hide DailyAt, Occurs, Whole, DateAfter, Day, GapAhead, ValidZone;
    var today, landed := Day(z, now), DateAfter(z, date, now, -1);
    if now < DailyAt(z, date, today, clock) {
      if landed < today {
        DailyAtIsTheOccurrence(z, date, landed, clock);
        DatesApart(z, now, landed, clock);
        EarlierUnlessGap(z, now, landed * DAY + clock, DailyAt(z, date, landed, clock));
      } else if today < landed {
        DailyIncreases(z, date, today, landed, clock);
      }
    }
  }

  /** A time on another date compares with the clock as the dates do. */
  lemma DatesApart(z: Zone, now: int, day: int, clock: int)
    requires TimeOfDay(clock)
    ensures Day(z, now) < day ==> Wall(z, now) < day * DAY + clock
    ensures day < Day(z, now) ==> day * DAY + clock < Wall(z, now)
  {
    hide Whole, Offset;
    DayBounds(Wall(z, now));
  }

  /** Away from midnight, adding or subtracting a day reaches the neighbouring date. */
  lemma NeighbourDate(z: Zone, date: int -> int, now: int, n: int)
    requires ValidZone(z) && IsDateFunction(z, date) && GapsClear(z)
    ensures DateAfter(z, date, now, n) == Day(z, now) + n
  {
    hide Whole, DayOf, Offset, ValidZone;
    var w := Wall(z, now) + n * DAY;
    NextDays(Wall(z, now), n);
    assert IsDate(z, w, date(w));
    if !Shows(z, w, date(w)) {
      var T, o1, o2 :| SkippedAt(z, w, T, o1, o2) && (date(w) == w - o1 || date(w) == w - o2);
      SkippedReads(z, w, T, o1, o2);
      GapReadings(T, o1, o2, w);
    }
  }

  lemma NextDays(w: int, n: int)
    ensures DayOf(w + n * DAY) == DayOf(w) + n
  {
    DayBounds(w);
    DayBounds(w + n * DAY);
  }

  lemma GapReadings(T: int, o1: int, o2: int, w: int)
    requires T + o1 <= w < T + o2 && DayOf(T + o1 - (o2 - o1)) == DayOf(T + o2 + (o2 - o1) - 1)
    ensures DayOf(w + (o2 - o1)) == DayOf(w) && DayOf(w - (o2 - o1)) == DayOf(w)
  {
  }

  /** The last slot and the next one are the occurrences of consecutive dates around `now`. */
  ghost predicate Bracketed(z: Zone, date: int -> int, now: int, clock: int) {
    && SlotAt(z, date, now, clock) <= now < NextAt(z, date, now, clock)
    && exists d :: SlotAt(z, date, now, clock) == DailyAt(z, date, d, clock)
                   && NextAt(z, date, now, clock) == DailyAt(z, date, d + 1, clock)
  }

  /** Between the slots of consecutive dates no date has an occurrence. */
  lemma NothingBetween(z: Zone, date: int -> int, now: int, clock: int)
    requires ValidZone(z) && IsDateFunction(z, date) && TimeOfDay(clock) && Bracketed(z, date, now, clock)
    ensures forall e :: DailyAt(z, date, e, clock) <= SlotAt(z, date, now, clock)
                        || NextAt(z, date, now, clock) <= DailyAt(z, date, e, clock)
  {
    hide DailyAt, SlotAt, NextAt, Whole, ValidZone;
    var d :| SlotAt(z, date, now, clock) == DailyAt(z, date, d, clock)
             && NextAt(z, date, now, clock) == DailyAt(z, date, d + 1, clock);
    forall e ensures DailyAt(z, date, e, clock) <= DailyAt(z, date, d, clock)
                     || DailyAt(z, date, d + 1, clock) <= DailyAt(z, date, e, clock)
    {
      if e < d {
        DailyIncreases(z, date, e, d, clock);
      } else if d + 1 < e {
        DailyIncreases(z, date, d + 1, e, clock);
      }
    }
  }

  lemma SameDailyIsSameDate(z: Zone, date: int -> int, d: int, e: int, clock: int)
    requires ValidZone(z) && IsDateFunction(z, date) && TimeOfDay(clock)
    requires DailyAt(z, date, d, clock) == DailyAt(z, date, e, clock)
    ensures d == e
  {
    if d < e {
      DailyIncreases(z, date, d, e, clock);
    } else if e < d {
      DailyIncreases(z, date, e, d, clock);
    }
  }

  /**
   * The slots bracket `now` exactly when moving one day, in the direction that is needed, reached the
   * neighbouring date, and no fold has been over tomorrow's time, no gap is ahead of yesterday's.
   */
  lemma SlotsBracketNowIff(z: Zone, date: int -> int, now: int, clock: int)
    requires ValidZone(z) && IsDateFunction(z, date) && TimeOfDay(clock)
    ensures var today := Day(z, now);
            Bracketed(z, date, now, clock) <==>
            if now < DailyAt(z, date, today, clock)
            then DateAfter(z, date, now, -1) == today - 1 && !GapAhead(z, now, (today - 1) * DAY + clock)
            else DateAfter(z, date, now, 1) == today + 1 && !FoldOver(z, now, (today + 1) * DAY + clock)
  {
    hide DailyAt, Occurs, Whole, DateAfter, Day, FoldOver, GapAhead, ValidZone;
    var today := Day(z, now);
    var d := if now < DailyAt(z, date, today, clock) then today - 1 else today;
    NextIsLaterIff(z, date, now, clock);
    SlotHasComeIff(z, date, now, clock);
    if Bracketed(z, date, now, clock) {
      var e :| SlotAt(z, date, now, clock) == DailyAt(z, date, e, clock)
               && NextAt(z, date, now, clock) == DailyAt(z, date, e + 1, clock);
      if now < DailyAt(z, date, today, clock) {
        SameDailyIsSameDate(z, date, e + 1, today, clock);
        SameDailyIsSameDate(z, date, e, DateAfter(z, date, now, -1), clock);
      } else {
        SameDailyIsSameDate(z, date, e, today, clock);
        SameDailyIsSameDate(z, date, e + 1, DateAfter(z, date, now, 1), clock);
      }
    }
    assert SlotAt(z, date, now, clock) == DailyAt(z, date, d, clock)
           && NextAt(z, date, now, clock) == DailyAt(z, date, d + 1, clock) ==>
             exists e :: SlotAt(z, date, now, clock) == DailyAt(z, date, e, clock)
                         && NextAt(z, date, now, clock) == DailyAt(z, date, e + 1, clock);
  }

  /**
   * In a zone whose changes keep away from midnight, the last slot is not after `now`, the next one
   * is after it, and no daily occurrence lies between them.
   */
  lemma SlotsBracketNow(z: Zone, date: int -> int, now: int, clock: int)
    requires ValidZone(z) && IsDateFunction(z, date) && FoldsClear(z) && GapsClear(z) && TimeOfDay(clock)
    ensures Bracketed(z, date, now, clock)
    ensures forall e :: DailyAt(z, date, e, clock) <= SlotAt(z, date, now, clock)
                        || NextAt(z, date, now, clock) <= DailyAt(z, date, e, clock)
  {
    hide DailyAt, Occurs, Whole, DateAfter, Day, FoldsClear, GapsClear, ValidZone, SlotAt, NextAt, Bracketed;
    var today := Day(z, now);
    NeighbourDate(z, date, now, 1);
    NeighbourDate(z, date, now, -1);
    ClearOfMidnight(z, now, clock);
    SlotsBracketNowIff(z, date, now, clock);
    NothingBetween(z, date, now, clock);
  }

  /** Half an hour after midnight this clock goes back an hour. */
  const MIDNIGHT_FOLD := Zone(3600, [Change(DAY - 1800, 0)])

  lemma MidnightFoldOffset(t: int)
    ensures Offset(MIDNIGHT_FOLD, t) == if t < DAY - 1800 then 3600 else 0
    ensures ValidZone(MIDNIGHT_FOLD)
  {
    var z := MIDNIGHT_FOLD;
    assert z.changes[..|z.changes| - 1] == [];
    assert Offset(z.(changes := []), t) == 3600;
    assert Before(z, 0) == 3600;
  }

  /**
   * A fold that takes the clock back over midnight: the date comes twice, and during its second half
   * the next check is already over, whatever `time.Date` answers.
   */
  lemma NextAtMidnightFold(date: int -> int)
    requires IsDateFunction(MIDNIGHT_FOLD, date)
    ensures NextAt(MIDNIGHT_FOLD, date, DAY - 900, 600) < DAY - 900
  {
    var z, now := MIDNIGHT_FOLD, DAY - 900;
    forall t ensures Offset(z, t) == if t < DAY - 1800 then 3600 else 0 {
      MidnightFoldOffset(t);
    }
    MidnightFoldOffset(0);
    hide Offset, ValidZone, DailyAt;
    assert Day(z, now) == 0 && Wall(z, now) + DAY == 2 * DAY - 900;
    assert IsDate(z, 2 * DAY - 900, date(2 * DAY - 900));
    assert DateAfter(z, date, now, 1) == 1;
    DailyAtIsTheOccurrence(z, date, 1, 600);
    assert Shows(z, DAY + 600, DAY - 3000);
    DailyAtIsTheOccurrence(z, date, 0, 600);
    assert Shows(z, 600, 600 - 3600);
  }

  /**
   * A gap that starts at midnight: when today's check is over and tomorrow's date at this clock time
   * is skipped, the next check lies in the future exactly when `time.Date` reads the skipped time
   * with the offset before the gap.
   */
  lemma NextAtMidnightGap(z: Zone, date: int -> int, now: int, clock: int, T: int, o1: int, o2: int)
    requires ValidZone(z) && IsDateFunction(z, date) && TimeOfDay(clock)
    requires SkippedAt(z, Wall(z, now) + DAY, T, o1, o2) && T + o1 == (Day(z, now) + 1) * DAY
    requires DailyAt(z, date, Day(z, now), clock) <= now
    ensures NextAt(z, date, now, clock) > now <==> date(Wall(z, now) + DAY) == Wall(z, now) + DAY - o1
  {
    hide Whole, DayOf, Offset, ValidZone, DailyAt;
    var w := Wall(z, now) + DAY;
    NextIsLaterIff(z, date, now, clock);
    assert IsDate(z, w, date(w));
    SkippedReads(z, w, T, o1, o2);
    DayBounds(Wall(z, now));
    NextDays(Wall(z, now), 1);
    DayBounds(w - (o2 - o1));
    DayBounds(w + (o2 - o1));
    SkippedIsUnshown(z, w, T, o1, o2, date(w));
    var landed := DateAfter(z, date, now, 1);
    if Day(z, now) < landed && FoldOver(z, now, landed * DAY + clock) {
      var S, p1, p2 :| ChangesAt(z, S, p1, p2) && p2 < p1 && S <= now && landed * DAY + clock < S + p1;
      OffsetIsGood(z, S - 1);
      OffsetIsGood(z, T - 1);
      OffsetIsGood(z, now);
      var first := if S < T then S - 1 else T - 1;
      assert S - 1 <= first + 2 * DAY - 1 && T - 1 <= first + 2 * DAY - 1;
      var U, q1, q2 := AtMostOneChange(z, first, first + 2 * DAY);
    }
  }

  /** A skipped wall time is shown by nothing, and `time.Date` has only its two readings. */
  lemma SkippedIsUnshown(z: Zone, w: int, T: int, o1: int, o2: int, u: int)
    requires ValidZone(z) && SkippedAt(z, w, T, o1, o2) && IsDate(z, w, u)
    ensures u == w - o1 || u == w - o2
  {
    hide Whole, ValidZone, Offset, Looks;
    var S, p1, p2 := LocalCivil(z, w);
  }

  // Two clocks that go forward an hour: at midnight, and an hour before it.
  const MIDNIGHT_GAP := Zone(0, [Change(DAY, 3600)])
  const LATE_GAP := Zone(0, [Change(DAY - 3600, 3600)])

  /** Reads a skipped time with the offset after the gap in the one zone, before it in the other, as `time.Date` may. */
  function Backward(w: int): int { if w < DAY then w else w - 3600 }

  lemma OneGap(T: int, t: int)
    requires Whole(T)
    ensures var z := Zone(0, [Change(T, 3600)]); ValidZone(z) && Offset(z, t) == if t < T then 0 else 3600
  {
    var z := Zone(0, [Change(T, 3600)]);
    assert z.changes[..|z.changes| - 1] == [];
    assert Before(z, 0) == 0;
  }

  /** A gap at midnight at which adding a day stays on the same date: the next check is already over. */
  lemma NextBehindGap()
    ensures ValidZone(MIDNIGHT_GAP) && IsDateFunction(MIDNIGHT_GAP, Backward)
    ensures NextAt(MIDNIGHT_GAP, Backward, 900, 0) <= 900
  {
    forall t ensures ValidZone(MIDNIGHT_GAP) && Offset(MIDNIGHT_GAP, t) == if t < DAY then 0 else 3600 {
      OneGap(DAY, t);
    }
    hide ValidZone, Offset;
    forall w ensures IsDate(MIDNIGHT_GAP, w, Backward(w)) {
      assert DAY <= w < DAY + 3600 ==> SkippedAt(MIDNIGHT_GAP, w, DAY, 0, 3600);
    }
  }

  /** A gap late in the evening over the time of the check: subtracting a day stays on the same date, and the last check lies ahead. */
  lemma SlotAheadOfNow()
    ensures ValidZone(LATE_GAP) && IsDateFunction(LATE_GAP, Backward)
    ensures SlotAt(LATE_GAP, Backward, 2 * DAY - 5400, DAY - 60) > 2 * DAY - 5400
  {
    forall t ensures ValidZone(LATE_GAP) && Offset(LATE_GAP, t) == if t < DAY - 3600 then 0 else 3600 {
      OneGap(DAY - 3600, t);
    }
    hide ValidZone, Offset;
    forall w ensures IsDate(LATE_GAP, w, Backward(w)) {
      assert DAY - 3600 <= w < DAY ==> SkippedAt(LATE_GAP, w, DAY - 3600, 0, 3600);
    }
  }

  // ---- What a tick records ---------------------------------------------------------

  datatype Occurrence = Occurrence(dueAt: int, nextAt: int)

  /** A due row becomes an occurrence that may lie later than today's slot, after a change of zone. */
  function OccurrenceOf(z: Zone, date: int -> int, now: int, clock: int, rowNextAt: int): Occurrence {
    var slot := SlotAt(z, date, now, clock);
    Occurrence(if slot < rowNextAt then rowNextAt else slot, NextAt(z, date, now, clock))
  }

  /**
   * A due row is recorded as due at the greater of its own time and the latest occurrence that has come,
   * and as due next at the earliest occurrence that has not.
   */
  lemma DueRowMovesOn(z: Zone, date: int -> int, now: int, clock: int, rowNextAt: int)
    requires ValidZone(z) && IsDateFunction(z, date) && FoldsClear(z) && GapsClear(z) && TimeOfDay(clock)
    requires rowNextAt <= now
    ensures var o := OccurrenceOf(z, date, now, clock, rowNextAt);
            && rowNextAt <= o.dueAt <= now < o.nextAt
            && (forall e :: DailyAt(z, date, e, clock) <= now ==> DailyAt(z, date, e, clock) <= o.dueAt)
            && (o.dueAt == rowNextAt || exists e :: o.dueAt == DailyAt(z, date, e, clock))
            && (forall e :: now < DailyAt(z, date, e, clock) ==> o.nextAt <= DailyAt(z, date, e, clock))
            && exists e :: o.nextAt == DailyAt(z, date, e, clock)
  {
    hide DailyAt, ValidZone, DateAfter;
    SlotsBracketNow(z, date, now, clock);
    IsDailyAt(z, date, now, clock);
  }

  lemma IsDailyAt(z: Zone, date: int -> int, now: int, clock: int)
    ensures exists e :: SlotAt(z, date, now, clock) == DailyAt(z, date, e, clock)
    ensures exists e :: NextAt(z, date, now, clock) == DailyAt(z, date, e, clock)
  {
    hide DailyAt, Day, DateAfter;
    var today := Day(z, now);
    assert SlotAt(z, date, now, clock) ==
           DailyAt(z, date, if now < DailyAt(z, date, today, clock) then DateAfter(z, date, now, -1) else today, clock);
    assert NextAt(z, date, now, clock) ==
           DailyAt(z, date, if DailyAt(z, date, today, clock) <= now then DateAfter(z, date, now, 1) else today, clock);
  }
}
