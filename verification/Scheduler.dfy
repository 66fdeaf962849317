/** The cron entry of internal/scheduler/scheduler.go and which due minutes it reaches. */
module Scheduling {
  import opened Prelude
  import opened Domain
  import opened Periods
  import opened Arithmetic

  /** One field of a cron entry: "*", "*" with a step, or the value 0. */
  datatype CronField = Every | Step(n: int) | Zero {
    predicate Matches(value: int) {
      match this
      case Every => true
      case Step(n) => n > 0 && value % n == 0
      case Zero => value == 0
    }
  }

  /** A five-field entry whose day, month and weekday fields are all "*". */
  datatype CronSpec = CronSpec(minute: CronField, hour: CronField) {
    predicate FiresAt(localMinute: Minutes) {
      && minute.Matches(localMinute % 60)
      && hour.Matches(localMinute % MINUTES_PER_DAY / 60)
    }
  }

  function IntervalToCronSpec(interval: Interval): Option<CronSpec> {
    match Duration(interval)
    case None => None
    case Some(minutes) =>
      if minutes < 60 then
        if minutes <= 1 then Some(CronSpec(Every, Every))
        else if 60 % minutes == 0 then Some(CronSpec(Step(minutes), Every))
        else Some(CronSpec(Every, Every))
      else
        var hours := minutes / 60;
        if hours < 24 then
          if hours == 1 then Some(CronSpec(Zero, Every))
          else if 24 % hours == 0 then Some(CronSpec(Zero, Step(hours)))
          else Some(CronSpec(Zero, Every))
        else Some(CronSpec(Zero, Zero))
  }

  /** A tick of at most a day fires exactly at the local minutes it divides; a longer one, daily. */
  lemma CronFiresAtMultiples(tick: Interval, localMinute: Minutes)
    requires Duration(tick).Some?
    ensures var d := Duration(tick).value;
            IntervalToCronSpec(tick).value.FiresAt(localMinute) <==>
            localMinute % (if d < MINUTES_PER_DAY then d else MINUTES_PER_DAY) == 0
  {
    var d := Duration(tick).value;
    var m := localMinute % MINUTES_PER_DAY;
    DayGridIsAbsolute(60, localMinute);
    if d < 60 {
      MinuteStep(d, localMinute);
    } else if d < MINUTES_PER_DAY {
      HourStep(d / 60, localMinute);
    } else {
      assert m % 60 == 0 && m / 60 == 0 <==> m == 0;
    }
  }

  lemma MinuteStep(d: int, t: int)
    requires d in {1, 3, 5, 15, 30}
    ensures (t % 60) % d == t % d
  {
    assert d * (60 / d) == 60;
    NestedMod(t, d, 60 / d);
  }

  lemma HourStep(h: int, t: int)
    requires h in {1, 2, 4, 6, 8, 12}
    ensures t % 60 == 0 && (t % MINUTES_PER_DAY / 60) % h == 0 <==> t % (60 * h) == 0
  {
    var m := t % MINUTES_PER_DAY;
    DayGridIsAbsolute(60, t);
    DayGridIsAbsolute(60 * h, t);
    if m % 60 == 0 {
      var k := m / 60;
      assert m == k / h * (60 * h) + 60 * (k % h);
      DivModUnique(m, 60 * h, k / h, 60 * (k % h));
    } else {
      if m % (60 * h) == 0 { MultipleOfMultiple(m, 60 * h, 60); }
    }
  }

  /**
   When the tick length divides the interval length, every due minute is a firing minute of the cron
   entry if the tick divides the zone offset, and none is otherwise.
   */
  lemma TickCoverage(e: PeriodEngine, tick: Interval, interval: Interval, now: Nanos)
    requires e.Valid() && Duration(tick).Some? && Duration(interval).Some?
    requires Duration(interval).value % Duration(tick).value == 0
    requires e.GetCurrentPeriod(now, interval).Some?
    ensures IntervalToCronSpec(tick).value.FiresAt(now / MINUTE + e.offset) <==>
            e.offset % Duration(tick).value == 0
  {
    var d, length := Duration(tick).value, Duration(interval).value;
    var end := now / MINUTE;
    var p := e.GetCurrentPeriod(now, interval).value;
    DueSpelledOut(e, now, interval, p);
    MultipleOfMultiple(end, length, d);
    ShiftByMultiple(end, e.offset, d);
    TickIsNoLonger(d, length);
    CronFiresAtMultiples(tick, end + e.offset);
  }

  /** The intervals with a period that ends at this instant, in the configured order. */
  function DueAt(e: PeriodEngine, intervals: seq<Interval>, now: Nanos): seq<Interval> {
    if intervals == [] then []
    else
      var n := |intervals| - 1;
      DueAt(e, intervals[..n], now) + (if e.GetCurrentPeriod(now, intervals[n]).Some? then [intervals[n]] else [])
  }

  lemma {:induction false} DueAtContains(e: PeriodEngine, intervals: seq<Interval>, now: Nanos, interval: Interval)
    ensures interval in DueAt(e, intervals, now) <==> interval in intervals && e.GetCurrentPeriod(now, interval).Some?
  {
    if intervals != [] {
      var n := |intervals| - 1;
      DueAtContains(e, intervals[..n], now, interval);
      assert intervals == intervals[..n] + [intervals[n]];
    }
  }

  /** Whether the interval at a position has a period that ends at this instant. */
  function DueThere(e: PeriodEngine, intervals: seq<Interval>, now: Nanos): nat -> bool {
    (i: nat) => i < |intervals| && e.GetCurrentPeriod(now, intervals[i]).Some?
  }

  /** The executions one tick asks for, each position of the list at most once; their errors are dropped. */
  method Tick(e: PeriodEngine, intervals: seq<Interval>, now: Nanos)
    returns (executed: seq<Interval>, ghost at: seq<nat>)
    ensures executed == DueAt(e, intervals, now)
    ensures ListsPositions(at, |intervals|, DueThere(e, intervals, now)) && Picks(intervals, at, executed)
  {
    executed, at := [], [];
    for i := 0 to |intervals|
      invariant executed == DueAt(e, intervals[..i], now)
      invariant ListsPositions(at, i, DueThere(e, intervals, now)) && Picks(intervals, at, executed)
    {
      assert intervals[..i + 1][..i] == intervals[..i];
      PositionsLast(at, i, DueThere(e, intervals, now));
      if e.GetCurrentPeriod(now, intervals[i]).Some? {
        executed, at := executed + [intervals[i]], at + [i];
      } else {
        assert at + [] == at;
      }
    }
    assert intervals[..|intervals|] == intervals;
  }

  /**
   When the tick divides both the interval and the zone offset, every period that can be returned at all
   is executed by the ticks of exactly one minute, the one it ends at, and the entry does fire then.
   */
  lemma EveryPeriodIsTicked(e: PeriodEngine, tick: Interval, intervals: seq<Interval>, p: Period, now: Nanos)
    requires e.Valid() && Duration(tick).Some? && Duration(p.interval).Some? && p.interval in intervals
    requires Duration(p.interval).value % Duration(tick).value == 0 && e.offset % Duration(tick).value == 0
    requires e.Returned(p.interval, p.start, p.end)
    ensures now / MINUTE == p.end
            <==> p.interval in DueAt(e, intervals, now) && e.GetCurrentPeriod(now, p.interval) == Some(p)
    ensures IntervalToCronSpec(tick).value.FiresAt(p.end + e.offset)
  {
    ExactPeriodSet(e, p.interval, p.start, p.end);
    SlotInWindowIsDue(e, p.interval, p.start, p.end);
    assert p.end * MINUTE / MINUTE == p.end;
    DueAtContains(e, intervals, now, p.interval);
    TickCoverage(e, tick, p.interval, p.end * MINUTE);
    if e.GetCurrentPeriod(now, p.interval) == Some(p) { DueSpelledOut(e, now, p.interval, p); }
  }

  /** Open all day, at an offset of five and a half hours. */
  const HALF_HOUR_ZONE := PeriodEngine(330, 0, 1439)

  /** There, an hourly tick never fires in a minute that is due: for one, the hour that ends at 02:00 UTC. */
  lemma HalfHourZoneMissesTheHours(now: Nanos)
    ensures HALF_HOUR_ZONE.GetCurrentPeriod(120 * MINUTE, "1h") == Some(Period("1h", 60, 120))
    ensures !IntervalToCronSpec("1h").value.FiresAt(120 + HALF_HOUR_ZONE.offset)
    ensures HALF_HOUR_ZONE.GetCurrentPeriod(now, "1h").Some? ==>
              !IntervalToCronSpec("1h").value.FiresAt(now / MINUTE + HALF_HOUR_ZONE.offset)
  {
    if HALF_HOUR_ZONE.GetCurrentPeriod(now, "1h").Some? {
      TickCoverage(HALF_HOUR_ZONE, "1h", "1h", now);
    }
  }

  lemma TickIsNoLonger(d: int, length: int)
    requires d > 0 && length > 0 && length % d == 0
    ensures d <= length
  {
    if length < d { DivModUnique(length, d, 0, length); }
  }
}
