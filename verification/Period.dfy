/**
 Period arithmetic of internal/scheduler/period.go: which candle periods are due, when the zone is
 a fixed offset from UTC.
 */
module Periods {
  import opened Prelude
  import opened Domain
  import opened Arithmetic

  datatype PeriodEngine = PeriodEngine(offset: Minutes, activeFrom: Minutes, activeUntil: Minutes) {
    /** Both bounds were parsed from a clock time "15:04". */
    predicate Valid() {
      0 <= activeFrom < MINUTES_PER_DAY && 0 <= activeUntil < MINUTES_PER_DAY
    }

    /** The UTC minute at which the local day containing t began. */
    function LocalMidnight(t: Minutes): Minutes {
      (t + offset) / MINUTES_PER_DAY * MINUTES_PER_DAY - offset
    }

    /** The period that ended at the minute now falls in, if that minute is due. */
    function GetCurrentPeriod(now: Nanos, interval: Interval): Option<Period> {
      match Duration(interval)
      case None => None
      case Some(length) =>
        var end := now / MINUTE;
        var start := end - length;
        var elapsed := end % MINUTES_PER_DAY;
        if elapsed % length != 0 then None
        else
          var base := LocalMidnight(start);
          if start - base < activeFrom || end - base > activeUntil then None
          else Some(Period(interval, start, end))
    }

    /** Some instant makes GetCurrentPeriod return exactly [start, end). */
    ghost predicate Returned(interval: Interval, start: Minutes, end: Minutes) {
      exists now: Nanos :: GetCurrentPeriod(now, interval) == Some(Period(interval, start, end))
    }

    /** Both ends lie between the opening and the closing minute of one local day. */
    ghost predicate InsideOneWindow(start: Minutes, end: Minutes) {
      exists day: int ::
        && day * MINUTES_PER_DAY + activeFrom <= start + offset
        && end + offset <= day * MINUTES_PER_DAY + activeUntil
    }
  }

  /** [start, end) is one cell of the grid of the given length anchored at UTC midnight. */
  ghost predicate UtcSlot(length: Minutes, start: Minutes, end: Minutes) {
    exists j: int :: start == j * length && end == (j + 1) * length
  }

  lemma SlotIsAligned(length: Minutes, start: Minutes, end: Minutes)
    requires length > 0
    ensures UtcSlot(length, start, end) <==> end == start + length && end % length == 0
  {
    if UtcSlot(length, start, end) {
      var j :| start == j * length && end == (j + 1) * length;
      MultipleMod(j + 1, length);
    }
    if end == start + length && end % length == 0 {
      var j := end / length - 1;
      assert start == j * length && end == (j + 1) * length;
    }
  }

  /** A duration shorter than a day divides it, so the day grid and the absolute grid agree. */
  lemma DayGridIsAbsolute(length: Minutes, end: Minutes)
    requires length in {1, 3, 5, 15, 30, 60, 120, 240, 360, 480, 720, 1440}
    ensures (end % MINUTES_PER_DAY) % length == end % length
  {
    assert length * (1440 / length) == MINUTES_PER_DAY;
    NestedMod(end, length, 1440 / length);
  }

  lemma DueSpelledOut(e: PeriodEngine, now: Nanos, interval: Interval, p: Period)
    requires e.Valid() && e.GetCurrentPeriod(now, interval) == Some(p)
    ensures p.interval == interval && p.end == now / MINUTE
    ensures var length := Duration(interval).value;
            && p.start == p.end - length
            && length < MINUTES_PER_DAY
            && p.end % length == 0
            && e.InsideOneWindow(p.start, p.end)
            && length <= e.activeUntil - e.activeFrom
  {
    var length := Duration(interval).value;
    var day := (p.start + e.offset) / MINUTES_PER_DAY;
    assert day * MINUTES_PER_DAY + e.activeFrom <= p.start + e.offset;
    assert p.end + e.offset <= day * MINUTES_PER_DAY + e.activeUntil;
    DayGridIsAbsolute(length, p.end);
  }

  lemma SlotInWindowIsDue(e: PeriodEngine, interval: Interval, start: Minutes, end: Minutes)
    requires e.Valid() && Duration(interval).Some?
    requires UtcSlot(Duration(interval).value, start, end) && e.InsideOneWindow(start, end)
    ensures e.GetCurrentPeriod(end * MINUTE, interval) == Some(Period(interval, start, end))
  {
    var length := Duration(interval).value;
    SlotIsAligned(length, start, end);
    var day :| && day * MINUTES_PER_DAY + e.activeFrom <= start + e.offset
               && end + e.offset <= day * MINUTES_PER_DAY + e.activeUntil;
    assert length < MINUTES_PER_DAY;
    DayGridIsAbsolute(length, end);
    assert (start + e.offset) / MINUTES_PER_DAY == day;
  }

  /**
   Over all instants, the periods returned are exactly the UTC-aligned slots that lie inside one
   local day's window.
   */
  lemma ExactPeriodSet(e: PeriodEngine, interval: Interval, start: Minutes, end: Minutes)
    requires e.Valid() && Duration(interval).Some?
    ensures e.Returned(interval, start, end) <==>
            UtcSlot(Duration(interval).value, start, end) && e.InsideOneWindow(start, end)
  {
    var length := Duration(interval).value;
    SlotIsAligned(length, start, end);
    if e.Returned(interval, start, end) {
      var now: Nanos :| e.GetCurrentPeriod(now, interval) == Some(Period(interval, start, end));
      DueSpelledOut(e, now, interval, Period(interval, start, end));
    }
    if UtcSlot(length, start, end) && e.InsideOneWindow(start, end) {
      SlotInWindowIsDue(e, interval, start, end);
    }
  }

  /** Two different periods of one interval never overlap. */
  lemma PeriodsAreDisjoint(e: PeriodEngine, interval: Interval, s1: Minutes, t1: Minutes, s2: Minutes, t2: Minutes)
    requires e.Valid()
    requires e.Returned(interval, s1, t1) && e.Returned(interval, s2, t2)
    ensures (s1, t1) == (s2, t2) || t1 <= s2 || t2 <= s1
  {
    var length := Duration(interval).value;
    ExactPeriodSet(e, interval, s1, t1);
    ExactPeriodSet(e, interval, s2, t2);
    var j1 :| s1 == j1 * length && t1 == (j1 + 1) * length;
    var j2 :| s2 == j2 * length && t2 == (j2 + 1) * length;
    if j1 < j2 {
      MulMonotone(j1 + 1, j2, length);
    } else if j2 < j1 {
      MulMonotone(j2 + 1, j1, length);
    }
  }

  /** Nothing is ever due for an interval longer than the window, so never for 1d, 3d or 1w. */
  lemma LongIntervalsAreNeverDue(e: PeriodEngine, now: Nanos, interval: Interval)
    requires e.Valid() && Duration(interval).Some?
    requires Duration(interval).value > e.activeUntil - e.activeFrom || interval in {"1d", "3d", "1w"}
    ensures e.GetCurrentPeriod(now, interval) == None
  {
    if e.GetCurrentPeriod(now, interval).Some? {
      DueSpelledOut(e, now, interval, e.GetCurrentPeriod(now, interval).value);
      assert false;
    }
  }

  /** [start, end) consists of n consecutive returned periods of the interval. */
  ghost predicate ConsistsOf(e: PeriodEngine, interval: Interval, start: Minutes, end: Minutes, n: int)
    requires Duration(interval).Some?
  {
    var d := Duration(interval).value;
    && end == start + n * d
    && forall i: int {:trigger i * d} :: 0 <= i < n ==> e.Returned(interval, start + i * d, start + i * d + d)
  }

  /** Every returned period of the interval that meets [start, end) is one of its n cells. */
  ghost predicate NothingElseMeets(e: PeriodEngine, interval: Interval, start: Minutes, end: Minutes, n: int)
    requires Duration(interval).Some?
  {
    var d := Duration(interval).value;
    forall s: Minutes, t: Minutes :: e.Returned(interval, s, t) && s < end && start < t ==>
      exists i: int {:trigger i * d} :: 0 <= i < n && s == start + i * d && t == s + d
  }

  /**
   When d1 divides d2, a returned d2 period is partitioned by exactly d2/d1 returned d1 periods, and
   no other returned d1 period overlaps it.
   */
  lemma PeriodIsPartitioned(e: PeriodEngine, fine: Interval, coarse: Interval, start: Minutes, end: Minutes)
    requires e.Valid() && Duration(fine).Some? && Duration(coarse).Some?
    requires Duration(coarse).value % Duration(fine).value == 0
    requires e.Returned(coarse, start, end)
    ensures ConsistsOf(e, fine, start, end, Duration(coarse).value / Duration(fine).value)
    ensures NothingElseMeets(e, fine, start, end, Duration(coarse).value / Duration(fine).value)
  {
    var d1, d2 := Duration(fine).value, Duration(coarse).value;
    var n := d2 / d1;
    ExactPeriodSet(e, coarse, start, end);
    var j :| start == j * d2 && end == (j + 1) * d2;
    CoarseCell(d1, d2, j);
    CellsAreReturned(e, fine, start, end, j * n, n);
    forall s: Minutes, t: Minutes | e.Returned(fine, s, t) && s < end && start < t
      ensures exists i: int {:trigger i * d1} :: 0 <= i < n && s == start + i * d1 && t == s + d1
    {
      OverlapIsACell(e, fine, start, end, j * n, n, s, t);
    }
  }

  lemma CellsAreReturned(e: PeriodEngine, fine: Interval, start: Minutes, end: Minutes, base: int, n: int)
    requires e.Valid() && Duration(fine).Some? && e.InsideOneWindow(start, end)
    requires var d1 := Duration(fine).value; start == base * d1 && end == start + n * d1
    ensures ConsistsOf(e, fine, start, end, n)
  {
    var d1 := Duration(fine).value;
    var day :| && day * MINUTES_PER_DAY + e.activeFrom <= start + e.offset
               && end + e.offset <= day * MINUTES_PER_DAY + e.activeUntil;
    forall i: int | 0 <= i < n ensures e.Returned(fine, start + i * d1, start + i * d1 + d1) {
      CellIsReturned(e, fine, start, end, day, base, n, i);
    }
  }

  lemma CoarseCell(d1: int, d2: int, j: int)
    requires d1 > 0 && d2 % d1 == 0
    ensures var n := d2 / d1; j * d2 == (j * n) * d1 && (j + 1) * d2 == j * d2 + n * d1
  {
    var n := d2 / d1;
    assert d2 == n * d1;
    assert j * d2 == (j * n) * d1;
  }

  lemma OverlapIsACell(
    e: PeriodEngine, fine: Interval, start: Minutes, end: Minutes, base: int, n: int, s: Minutes, t: Minutes)
    requires e.Valid() && Duration(fine).Some?
    requires var d1 := Duration(fine).value; start == base * d1 && end == start + n * d1
    requires e.Returned(fine, s, t) && s < end && start < t
    ensures var d1 := Duration(fine).value;
            exists i: int {:trigger i * d1} :: 0 <= i < n && s == start + i * d1 && t == s + d1
  {
    var d1 := Duration(fine).value;
    ExactPeriodSet(e, fine, s, t);
    var k :| s == k * d1 && t == (k + 1) * d1;
    assert end == (base + n) * d1;
    OverlappingCell(d1, base, n, k);
    var i := k - base;
    assert s == start + i * d1 && t == s + d1;
  }

  lemma CellIsReturned(
    e: PeriodEngine, fine: Interval, start: Minutes, end: Minutes, day: int, base: int, n: int, i: int)
    requires e.Valid() && Duration(fine).Some?
    requires var d1 := Duration(fine).value; start == base * d1 && end == start + n * d1
    requires day * MINUTES_PER_DAY + e.activeFrom <= start + e.offset
    requires end + e.offset <= day * MINUTES_PER_DAY + e.activeUntil
    requires 0 <= i < n
    ensures var d1 := Duration(fine).value; e.Returned(fine, start + i * d1, start + i * d1 + d1)
  {
    var d1 := Duration(fine).value;
    var s := start + i * d1;
    assert s == (base + i) * d1 && s + d1 == (base + i + 1) * d1;
    assert i * d1 >= 0 && (n - i - 1) * d1 >= 0;
    assert s + d1 + (n - i - 1) * d1 == end;
    assert e.InsideOneWindow(s, s + d1);
    ExactPeriodSet(e, fine, s, s + d1);
  }

  lemma OverlappingCell(d1: int, base: int, n: int, k: int)
    requires d1 > 0
    requires k * d1 < (base + n) * d1 && base * d1 < (k + 1) * d1
    ensures base <= k < base + n
  {
    if k < base {
      MulMonotone(k + 1, base, d1);
    } else if k >= base + n {
      MulMonotone(base + n, k, d1);
    }
  }
}
