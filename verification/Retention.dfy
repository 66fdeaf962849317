/**
 Executions interleaved, statement by statement, with the retention cleanup: the clock of
 internal/repository/postgres.go against the cutoff of internal/scheduler/notification_job_cleanup.go.
 */
module Retention {
  import opened Prelude
  import opened Domain
  import opened Periods
  import opened Jobs

  datatype Settings = Settings(engine: PeriodEngine, retention: Nanos, maxLag: Nanos)

  datatype Stage = Claimed | Messaged | Marked

  datatype HeldJob = HeldJob(id: nat, stage: Stage)

  /** At most one execution runs at a time; it claims all its jobs before it delivers any. */
  datatype Flight = Idle | Busy(now: Nanos, period: Period, delivering: bool, held: map<JobKey, HeldJob>)

  /** recorded and used are histories: the keys ever recorded as sent, and the ids ever drawn. */
  datatype State = State(clock: Nanos, rows: Rows, flight: Flight, recorded: set<JobKey>, used: set<nat>)

  datatype Step =
    | Wait(passed: nat)
    | Begin(now: Nanos, interval: Interval)
    | Create(key: JobKey, id: nat, fault: Fault)
    | Deliver(keys: set<JobKey>)
    | MarkOne(key: JobKey, mark: Mark, lands: bool)
    | End
    | Sweep(at: Nanos, chosen: set<JobKey>)

  function Init(clock: Nanos): State {
    State(clock, map[], Idle, {}, {})
  }

  function PendingRow(id: nat, end: Minutes, clock: Nanos): JobRow {
    JobRow(id, end, Pending, "", None, clock, clock)
  }

  /** What each step needs: maxLag bounds how far a job creation trails its execution's clock reading. */
  ghost predicate Enabled(c: Settings, s: State, step: Step) {
    match step
    case Wait(_) => true
    case Begin(now, interval) => s.flight.Idle? && now <= s.clock && c.engine.GetCurrentPeriod(now, interval).Some?
    case Create(key, id, _) =>
      && s.flight.Busy? && !s.flight.delivering && id !in s.used
      && key.interval == s.flight.period.interval && key.periodStart == s.flight.period.start
      && s.clock - s.flight.now <= c.maxLag
    case Deliver(keys) =>
      && s.flight.Busy? && keys != {}
      && forall k :: k in keys ==> k in s.flight.held && s.flight.held[k].stage == Claimed
    case MarkOne(key, _, _) => s.flight.Busy? && key in s.flight.held && s.flight.held[key].stage == Messaged
    case End => s.flight.Busy?
    case Sweep(at, chosen) => at <= s.clock && chosen <= Stale(s.rows, at - c.retention)
  }

  ghost function Next(c: Settings, s: State, step: Step): State
    requires Enabled(c, s, step)
  {
    match step
    case Wait(passed) => s.(clock := s.clock + passed)
    case Begin(now, interval) => s.(flight := Busy(now, c.engine.GetCurrentPeriod(now, interval).value, false, map[]))
    case Create(key, id, fault) =>
      var row := PendingRow(id, s.flight.period.end, s.clock);
      var answer := CreateAnswer(s.rows, key, row, fault);
      var held := s.flight.held;
      s.(rows := AfterCreate(s.rows, key, row, fault), used := s.used + {id},
         flight := if answer.Ok? && (answer.value.1 || answer.value.0.status != Sent)
                   then s.flight.(held := held[key := HeldJob(answer.value.0.id, Claimed)]) else s.flight)
    case Deliver(keys) =>
      var held := map k | k in s.flight.held :: if k in keys then s.flight.held[k].(stage := Messaged)
        else s.flight.held[k];
      s.(flight := s.flight.(delivering := true, held := held))
    case MarkOne(key, mark, lands) =>
      var job := s.flight.held[key];
      s.(flight := s.flight.(held := s.flight.held[key := job.(stage := Marked)]),
         rows := if lands then AfterMark(s.rows, job.id, mark, s.clock) else s.rows,
         recorded := if lands
           && mark.AsSent? then s.recorded + (set k | k in s.rows && s.rows[k].id == job.id) else s.recorded)
    case End => s.(flight := Idle)
    case Sweep(_, chosen) => s.(rows := s.rows - chosen)
  }

  ghost predicate Feasible(c: Settings, s: State, steps: seq<Step>)
    decreases |steps|
  {
    steps == [] || (Enabled(c, s, steps[0]) && Feasible(c, Next(c, s, steps[0]), steps[1..]))
  }

  ghost function After(c: Settings, s: State, steps: seq<Step>): State
    requires Feasible(c, s, steps)
    decreases |steps|
  {
    if steps == [] then s else After(c, Next(c, s, steps[0]), steps[1..])
  }

  /** The instant a job's period ended. */
  function Ended(key: JobKey): Nanos
    requires Duration(key.interval).Some?
  {
    (key.periodStart + Duration(key.interval).value) * MINUTE
  }

  /** Rows are younger than their periods, and ids identify rows. */
  ghost predicate RowsSound(s: State) {
    && UniqueIds(s.rows)
    && (forall k :: k in s.rows ==> s.rows[k].id in s.used && Duration(k.interval).Some?)
    && (forall k :: k in s.rows ==> Ended(k) <= s.rows[k].updatedAt <= s.clock)
  }

  /** The execution's period is over, and what it holds are its own, not yet recorded, jobs. */
  ghost predicate FlightSound(c: Settings, s: State) {
    s.flight.Busy? ==>
      && s.flight.now <= s.clock
      && c.engine.GetCurrentPeriod(s.flight.now, s.flight.period.interval) == Some(s.flight.period)
      && (forall k :: k in s.flight.held ==> s.flight.held[k].id in s.used)
      && (forall k, held :: held in s.flight.held && k in s.rows && s.rows[k].id == s.flight.held[held].id ==>
           k == held)
      && (forall k :: k in s.flight.held && s.flight.held[k].stage != Marked ==> k !in s.recorded)
  }

  /** A key recorded as sent is still recorded, or too old to be created again. */
  ghost predicate RecordSound(c: Settings, s: State) {
    forall k :: k in s.recorded ==>
      && Duration(k.interval).Some?
      && ((k in s.rows && s.rows[k].status == Sent) || s.clock > Ended(k) + c.retention)
  }

  ghost predicate Inv(c: Settings, s: State) {
    RowsSound(s) && FlightSound(c, s) && RecordSound(c, s)
  }

  /** The largest lag that is safe. */
  ghost predicate SafeLag(c: Settings) {
    c.maxLag <= c.retention - MINUTE + 1
  }

  lemma DueHasEnded(c: Settings, now: Nanos, interval: Interval, key: JobKey)
    requires c.engine.GetCurrentPeriod(now, interval).Some?
    requires key.interval == interval && key.periodStart == c.engine.GetCurrentPeriod(now, interval).value.start
    ensures Duration(interval).Some? && Ended(key) <= now < Ended(key) + MINUTE
  {
  }

  /** What is recorded as sent is not created again: either its row is there, or it is too old. */
  lemma RecordedIsNotReopened(c: Settings, s: State, key: JobKey, id: nat, fault: Fault)
    requires SafeLag(c) && Inv(c, s) && Enabled(c, s, Create(key, id, fault))
    ensures key in s.recorded ==> key in s.rows && s.rows[key].status == Sent
  {
    DueHasEnded(c, s.flight.now, s.flight.period.interval, key);
  }

  lemma CreateKeepsRows(c: Settings, s: State, key: JobKey, id: nat, fault: Fault)
    requires Inv(c, s) && Enabled(c, s, Create(key, id, fault))
    ensures RowsSound(Next(c, s, Create(key, id, fault)))
  {
    DueHasEnded(c, s.flight.now, s.flight.period.interval, key);
  }

  lemma CreateKeepsFlight(c: Settings, s: State, key: JobKey, id: nat, fault: Fault)
    requires SafeLag(c) && Inv(c, s) && Enabled(c, s, Create(key, id, fault))
    ensures FlightSound(c, Next(c, s, Create(key, id, fault)))
  {
    RecordedIsNotReopened(c, s, key, id, fault);
    hide ValidJob;
  }

  lemma CreateKeeps(c: Settings, s: State, key: JobKey, id: nat, fault: Fault)
    requires SafeLag(c) && Inv(c, s) && Enabled(c, s, Create(key, id, fault))
    ensures Inv(c, Next(c, s, Create(key, id, fault)))
  {
    CreateKeepsRows(c, s, key, id, fault);
    CreateKeepsFlight(c, s, key, id, fault);
    hide RowsSound, FlightSound, ValidJob;
  }

  lemma MarkKeepsRows(c: Settings, s: State, key: JobKey, mark: Mark, lands: bool)
    requires Inv(c, s) && Enabled(c, s, MarkOne(key, mark, lands))
    ensures RowsSound(Next(c, s, MarkOne(key, mark, lands)))
  {
    hide FlightSound, RecordSound;
  }

  lemma MarkKeepsFlight(c: Settings, s: State, key: JobKey, mark: Mark, lands: bool)
    requires Inv(c, s) && Enabled(c, s, MarkOne(key, mark, lands))
    ensures FlightSound(c, Next(c, s, MarkOne(key, mark, lands)))
  {
    hide RecordSound;
  }

  lemma MarkKeeps(c: Settings, s: State, key: JobKey, mark: Mark, lands: bool)
    requires Inv(c, s) && Enabled(c, s, MarkOne(key, mark, lands))
    ensures Inv(c, Next(c, s, MarkOne(key, mark, lands)))
  {
    var t := Next(c, s, MarkOne(key, mark, lands));
    MarkKeepsRows(c, s, key, mark, lands);
    MarkKeepsFlight(c, s, key, mark, lands);
    forall k | k in t.recorded && k !in s.recorded ensures k == key && k in t.rows && t.rows[k].status == Sent {
    }
    assert RecordSound(c, t);
    hide RowsSound, FlightSound;
  }

  lemma SweepKeeps(c: Settings, s: State, at: Nanos, chosen: set<JobKey>)
    requires Inv(c, s) && Enabled(c, s, Sweep(at, chosen))
    ensures Inv(c, Next(c, s, Sweep(at, chosen)))
  {
    var t := Next(c, s, Sweep(at, chosen));
    forall k | k in t.recorded ensures (k in t.rows && t.rows[k].status == Sent) || t.clock > Ended(k) + c.retention {
      if k in chosen { assert s.rows[k].updatedAt < at - c.retention; }
    }
  }

  lemma StepKeeps(c: Settings, s: State, step: Step)
    requires SafeLag(c) && Inv(c, s) && Enabled(c, s, step)
    ensures Inv(c, Next(c, s, step))
  {
    match step
    case Wait(_) =>
    case Begin(now, interval) =>
    case Create(key, id, fault) => CreateKeeps(c, s, key, id, fault);
    case Deliver(_) =>
    case MarkOne(key, mark, lands) => MarkKeeps(c, s, key, mark, lands);
    case End =>
    case Sweep(at, chosen) => SweepKeeps(c, s, at, chosen);
  }

  lemma {:induction false} RunKeeps(c: Settings, s: State, steps: seq<Step>)
    requires SafeLag(c) && Inv(c, s) && Feasible(c, s, steps)
    ensures Inv(c, After(c, s, steps))
    decreases |steps|
  {
    if steps != [] {
      StepKeeps(c, s, steps[0]);
      RunKeeps(c, Next(c, s, steps[0]), steps[1..]);
    }
  }

  /** Every row that is sent has been recorded as sent. */
  ghost predicate SentIsRecorded(s: State) {
    forall k :: k in s.rows && s.rows[k].status == Sent ==> k in s.recorded
  }

  lemma StepRecords(c: Settings, s: State, step: Step)
    requires SentIsRecorded(s) && Enabled(c, s, step)
    ensures SentIsRecorded(Next(c, s, step)) && s.recorded <= Next(c, s, step).recorded
  {
    hide PeriodEngine.GetCurrentPeriod, ValidJob, IdTaken;
  }

  /** What was recorded as sent stays recorded, and every sent row is. */
  lemma {:induction false} RunRecords(c: Settings, s: State, steps: seq<Step>)
    requires SentIsRecorded(s) && Feasible(c, s, steps)
    ensures SentIsRecorded(After(c, s, steps)) && s.recorded <= After(c, s, steps).recorded
    decreases |steps|
  {
    if steps != [] {
      StepRecords(c, s, steps[0]);
      RunRecords(c, Next(c, s, steps[0]), steps[1..]);
    }
  }

  /**
   Idempotency survives cleanup: while no job creation trails its execution's clock reading by more
   than the retention less a minute, a message never covers a key that was ever recorded as sent, even
   when cleanup has deleted its row.
   */
  lemma NeverSentAgain(c: Settings, clock: Nanos, steps: seq<Step>, keys: set<JobKey>)
    requires SafeLag(c) && Feasible(c, Init(clock), steps)
    requires Enabled(c, After(c, Init(clock), steps), Deliver(keys))
    ensures keys !! After(c, Init(clock), steps).recorded
  {
    RunKeeps(c, Init(clock), steps);
  }

  // ---------------------------------------------------------------- the bound is exact

  /** A job of a period that is due when it ends. */
  ghost predicate DueJob(c: Settings, key: JobKey) {
    && Duration(key.interval).Some?
    && ValidJob(key, PendingRow(0, Ended(key) / MINUTE, 0))
    && c.engine.GetCurrentPeriod(Ended(key), key.interval)
       == Some(Period(key.interval, key.periodStart, Ended(key) / MINUTE))
  }

  function FirstSteps(key: JobKey): seq<Step>
    requires Duration(key.interval).Some?
  {
    var end := Ended(key);
    [Begin(end, key.interval), Create(key, 0, NoFault), Deliver({key}), MarkOne(key, AsSent(end), true), End]
  }

  /** The job's row is swept as soon as it is stale, and a late execution of its period recreates it. */
  function SecondSteps(key: JobKey, gap: nat): seq<Step>
    requires Duration(key.interval).Some?
  {
    var end := Ended(key);
    [Wait(gap), Sweep(end + gap, {key}), Begin(end + MINUTE - 1, key.interval), Create(key, 1, NoFault)]
  }

  /** After the first execution: the job was created, sent and recorded at the instant its period ended. */
  function Recorded(key: JobKey): State
    requires Duration(key.interval).Some?
  {
    var end := Ended(key);
    State(end, map[key := JobRow(0, end / MINUTE, Sent, "", Some(end), end, end)], Idle, {key}, {0})
  }

  lemma FeasibleStep(c: Settings, s: State, step: Step, rest: seq<Step>)
    requires Enabled(c, s, step) && Feasible(c, Next(c, s, step), rest)
    ensures Feasible(c, s, [step] + rest) && After(c, s, [step] + rest) == After(c, Next(c, s, step), rest)
  {
    assert ([step] + rest)[1..] == rest;
  }

  lemma FirstSend(c: Settings, key: JobKey, rest: seq<Step>)
    requires DueJob(c, key) && c.maxLag >= 0 && Feasible(c, Recorded(key), rest)
    ensures Feasible(c, Init(Ended(key)), FirstSteps(key) + rest)
    ensures After(c, Init(Ended(key)), FirstSteps(key) + rest) == After(c, Recorded(key), rest)
  {
    var end := Ended(key);
    var s0 := Init(end);
    var s1 := Next(c, s0, Begin(end, key.interval));
    var s2 := Next(c, s1, Create(key, 0, NoFault));
    var s3 := Next(c, s2, Deliver({key}));
    var s4 := Next(c, s3, MarkOne(key, AsSent(end), true));
    assert s2.rows == map[key := PendingRow(0, end / MINUTE, end)];
    assert s2.flight.held == map[key := HeldJob(0, Claimed)];
    assert s3.flight.held == map[key := HeldJob(0, Messaged)];
    assert s4.rows == map[key := JobRow(0, end / MINUTE, Sent, "", Some(end), end, end)];
    assert s4.recorded == {key};
    assert Next(c, s4, End) == Recorded(key);
    var r4 := [End] + rest;
    var r3 := [MarkOne(key, AsSent(end), true)] + r4;
    var r2 := [Deliver({key})] + r3;
    var r1 := [Create(key, 0, NoFault)] + r2;
    FeasibleStep(c, s4, End, rest);
    FeasibleStep(c, s3, MarkOne(key, AsSent(end), true), r4);
    FeasibleStep(c, s2, Deliver({key}), r3);
    FeasibleStep(c, s1, Create(key, 0, NoFault), r2);
    FeasibleStep(c, s0, Begin(end, key.interval), r1);
    assert FirstSteps(key) + rest == [Begin(end, key.interval)] + r1;
  }

  lemma SecondSend(c: Settings, key: JobKey, gap: nat)
    requires DueJob(c, key)
    requires gap >= MINUTE - 1 && gap > c.retention && gap - (MINUTE - 1) <= c.maxLag
    ensures Feasible(c, Recorded(key), SecondSteps(key, gap))
    ensures var s := After(c, Recorded(key), SecondSteps(key, gap));
            key in s.recorded && Enabled(c, s, Deliver({key}))
  {
    var end := Ended(key);
    var late := end + MINUTE - 1;
    assert late / MINUTE == end / MINUTE;
    var s5 := Recorded(key);
    var s6 := Next(c, s5, Wait(gap));
    assert Stale(s6.rows, end + gap - c.retention) == {key};
    var s7 := Next(c, s6, Sweep(end + gap, {key}));
    assert s7.rows == map[];
    var s8 := Next(c, s7, Begin(late, key.interval));
    var s9 := Next(c, s8, Create(key, 1, NoFault));
    assert s9.flight.held == map[key := HeldJob(1, Claimed)];
    var r8 := [Create(key, 1, NoFault)];
    var r7 := [Begin(late, key.interval)] + r8;
    var r6 := [Sweep(end + gap, {key})] + r7;
    FeasibleStep(c, s8, Create(key, 1, NoFault), []);
    FeasibleStep(c, s7, Begin(late, key.interval), r8);
    FeasibleStep(c, s6, Sweep(end + gap, {key}), r7);
    FeasibleStep(c, s5, Wait(gap), r6);
    assert r8 == [Create(key, 1, NoFault)] + [];
    assert SecondSteps(key, gap) == [Wait(gap)] + r6;
  }

  /** No run puts a key that was ever recorded as sent into another message. */
  ghost predicate Idempotent(c: Settings) {
    forall clock, steps, keys ::
      Feasible(c, Init(clock), steps) && Enabled(c, After(c, Init(clock), steps), Deliver(keys)) ==>
        keys !! After(c, Init(clock), steps).recorded
  }

  /** The lag bound is exact: some run sends a key twice as soon as one nanosecond more is allowed. */
  lemma IdempotentExactlyWhenLagIsSafe(c: Settings, key: JobKey)
    requires DueJob(c, key) && c.maxLag >= 0
    ensures Idempotent(c) <==> SafeLag(c)
  {
    if SafeLag(c) {
      forall clock, steps, keys | Feasible(c, Init(clock), steps)
        && Enabled(c, After(c, Init(clock), steps), Deliver(keys))
        ensures keys !! After(c, Init(clock), steps).recorded
      {
        NeverSentAgain(c, clock, steps, keys);
      }
    } else {
      var gap: nat := if c.retention + 1 >= MINUTE - 1 then c.retention + 1 else MINUTE - 1;
      SecondSend(c, key, gap);
      FirstSend(c, key, SecondSteps(key, gap));
      var s := After(c, Init(Ended(key)), FirstSteps(key) + SecondSteps(key, gap));
      assert key in {key} && key in s.recorded;
    }
  }
}
