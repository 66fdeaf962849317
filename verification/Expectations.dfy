/**
 What an execution owes its targets, told by the answers of the markets, the rules of the notifiers and the
 clock alone. The functions of Rounds are proved against this, so nothing here mentions how they work.
 */
module Expectations {
  import opened Prelude
  import opened Ordering
  import opened Domain
  import opened Registry
  import opened Messages
  import opened Jobs
  import opened Rounds

  // ---------------------------------------------------------------- what a line says

  /** The candle is valid and lies inside the period, but for one second at its end. */
  predicate Shows(candle: Candle, period: Period) {
    && candle.Valid()
    && period.start * MINUTE <= candle.openTime && candle.closeTime <= period.end * MINUTE + SECOND
  }

  predicate Priced(answer: Option<Candle>, period: Period) {
    answer.Some? && Shows(answer.value, period)
  }

  /** The price line of a candle. */
  function Quote(candle: Candle): Line
    requires candle.Valid()
  {
    PriceLine(PriceChange(candle.symbol, candle.open, candle.close,
                          (candle.close - candle.open) / candle.open * 100.0, candle.volume))
  }

  /** What the message of a target says about a job: what its own provider answered about its symbol. */
  function TargetLine(r: Round): JobKey -> Line {
    (job: JobKey) =>
      var answer := r.env.kline(job.provider, job.symbol);
      if r.resolver.Get(job.provider) && Priced(answer, r.period) then Quote(answer.value)
      else UnavailableLine(job.symbol)
  }

  /** What the legacy message says about a job. */
  function LegacyLine(r: Round): JobKey -> Line {
    (job: JobKey) =>
      var answer := r.env.legacyKline(job.symbol);
      if Priced(answer, r.period) then Quote(answer.value) else UnavailableLine(job.symbol)
  }

  function NamedBy(line: Line): Symbol {
    match line
    case PeriodLine(_, _) => ""
    case UnavailableLine(symbol) => symbol
    case PriceLine(change) => change.symbol
  }

  function ByLine(line: JobKey -> Line): JobKey -> Rank {
    (job: JobKey) => Rank(NamedBy(line(job)), "")
  }

  function Lines(line: JobKey -> Line, jobs: seq<JobKey>): (lines: seq<Line>)
    ensures |lines| == |jobs| && forall i :: 0 <= i < |jobs| ==> lines[i] == line(jobs[i])
  {
    if jobs == [] then [] else [line(jobs[0])] + Lines(line, jobs[1..])
  }

  /** The message about these jobs: the period, then a line for each, ordered by the symbols of the lines. */
  function Telling(period: Period, line: JobKey -> Line, jobs: seq<JobKey>): Message {
    Message(period, [PeriodLine(period.start, period.end)] + Lines(line, InsertionSorted(ByLine(line), jobs)))
  }

  /** These results are those of these jobs. */
  ghost predicate Paired(line: JobKey -> Line, results: seq<PriceResult>, jobs: seq<JobKey>) {
    && |results| == |jobs|
    && forall i :: 0 <= i < |jobs| ==>
         LineFor(results[i]) == line(jobs[i]) && results[i].Symbol() == NamedBy(line(jobs[i]))
  }

  lemma {:induction false} SamePosition(
    line: JobKey -> Line, result: PriceResult, job: JobKey, results: seq<PriceResult>, jobs: seq<JobKey>)
    requires Paired(line, results, jobs) && Paired(line, [result], [job])
    ensures Position(BySymbol, result, results) == Position(ByLine(line), job, jobs)
  {
    assert [result][0] == result && [job][0] == job;
    if results != [] { SamePosition(line, result, job, results[1..], jobs[1..]); }
  }

  lemma InsertsAlike(
    line: JobKey -> Line, result: PriceResult, job: JobKey, results: seq<PriceResult>, jobs: seq<JobKey>)
    requires Paired(line, results, jobs) && Paired(line, [result], [job])
    ensures Paired(line, Insert(BySymbol, result, results), Insert(ByLine(line), job, jobs))
  {
    SamePosition(line, result, job, results, jobs);
    assert [result][0] == result && [job][0] == job;
    hide LineFor, NamedBy, Position, PriceResult.Symbol;
  }

  /** Sorting results by their symbols is sorting their jobs by the symbols of their lines. */
  lemma {:induction false} SortsAlike(line: JobKey -> Line, results: seq<PriceResult>, jobs: seq<JobKey>)
    requires Paired(line, results, jobs)
    ensures Paired(line, InsertionSorted(BySymbol, results), InsertionSorted(ByLine(line), jobs))
  {
    if results != [] {
      var n := |results| - 1;
      SortsAlike(line, results[..n], jobs[..n]);
      assert Paired(line, [results[n]], [jobs[n]]);
      hide Paired, Insert;
      InsertsAlike(line, results[n], jobs[n], InsertionSorted(BySymbol, results[..n]),
                   InsertionSorted(ByLine(line), jobs[..n]));
    }
  }

  /** So the message that is built for paired results is the one that tells about their jobs. */
  lemma BuiltIsTelling(period: Period, line: JobKey -> Line, results: seq<PriceResult>, jobs: seq<JobKey>)
    requires Paired(line, results, jobs) && MessageFor(period, results).Ok?
    ensures MessageFor(period, results).value == Telling(period, line, jobs)
  {
    SortsAlike(line, results, jobs);
    var a, b := InsertionSorted(BySymbol, results), InsertionSorted(ByLine(line), jobs);
    assert LinesFor(a) == Lines(line, b);
  }

  lemma ResultsArePaired(r: Round, pending: seq<PendingJob>)
    ensures Paired(TargetLine(r), r.ResultsFor(pending), Keys(pending))
  {
  }

  lemma LegacyResultsArePaired(r: Round, pending: seq<PendingJob>)
    ensures Paired(LegacyLine(r), r.LegacyResults(pending), Keys(pending))
  {
  }

  /** Telling about jobs is complete: a line for each, and no symbol before a smaller one. */
  lemma TellingIsComplete(period: Period, line: JobKey -> Line, jobs: seq<JobKey>) returns (order: seq<JobKey>)
    ensures Telling(period, line, jobs) == Message(period, [PeriodLine(period.start, period.end)] + Lines(line, order))
    ensures multiset(order) == multiset(jobs)
    ensures forall i, j :: 0 <= i < j < |order| ==> !Before(NamedBy(line(order[j])), NamedBy(line(order[i])))
  {
    order := InsertionSorted(ByLine(line), jobs);
    InsertionSortedCorrect(ByLine(line), jobs);
    forall i, j | 0 <= i < j < |order| ensures !Before(NamedBy(line(order[j])), NamedBy(line(order[i]))) {
      assert !Precedes(ByLine(line)(order[j]), ByLine(line)(order[i]));
      BeforeIrreflexive(NamedBy(line(order[i])));
    }
  }

  // ---------------------------------------------------------------- who is handed a message

  /** A notifier takes the messages of its own chat provider, or of every target if it declares none. */
  predicate Serves(r: Round, i: nat, target: Target)
    requires i < |r.notifiers|
  {
    r.notifiers[i].serves.None? || r.notifiers[i].serves.value == target.chat
  }

  /** From one notifier on, each that serves the target is handed the message once, in order, and no other is. */
  ghost predicate HandsToEach(
    r: Round, from: nat, target: Target, message: Message, covers: seq<JobKey>, sent: seq<Delivery>)
  {
    && (forall d :: d in sent ==> d == Delivery(Some(target), d.notifier, message, covers))
    && (forall d :: d in sent ==> from <= d.notifier < |r.notifiers| && Serves(r, d.notifier, target))
    && (forall i: nat :: from <= i < |r.notifiers| && Serves(r, i, target) ==>
         Delivery(Some(target), i, message, covers) in sent)
    && (forall a, b :: 0 <= a < b < |sent| ==> sent[a].notifier < sent[b].notifier)
  }

  /** From one notifier on, none that serves the target errs. */
  predicate AllAccept(r: Round, from: nat, target: Target, message: Message) {
    forall i: nat :: from <= i < |r.notifiers| && Serves(r, i, target) ==> r.env.sendError(i, target, message).None?
  }

  /** From one notifier on, i is the first of those that serve the target to err. */
  predicate FirstToErr(r: Round, from: nat, i: nat, target: Target, message: Message) {
    && from <= i < |r.notifiers| && Serves(r, i, target) && r.env.sendError(i, target, message).Some?
    && forall j: nat :: from <= j < i && Serves(r, j, target) ==> r.env.sendError(j, target, message).None?
  }

  /** No error if all accept, or else the error of the first to err. */
  ghost predicate FirstErrorCounts(r: Round, from: nat, target: Target, message: Message, error: Option<string>) {
    if AllAccept(r, from, target, message) then error == None
    else exists i: nat :: FirstToErr(r, from, i, target, message) && error == r.env.sendError(i, target, message)
  }

  lemma {:induction false} SendsToEach(r: Round, from: nat, target: Target, message: Message, covers: seq<JobKey>)
    requires from <= |r.notifiers|
    ensures HandsToEach(r, from, target, message, covers, r.SendFrom(from, target, message, covers).0)
    decreases |r.notifiers| - from
  {
    if from < |r.notifiers| {
      SendsToEach(r, from + 1, target, message, covers);
      var rest := r.SendFrom(from + 1, target, message, covers).0;
      var own := Delivery(Some(target), from, message, covers);
      forall d | d in rest ensures from < d.notifier { }
      assert Serves(r, from, target) ==> own in [own] + rest;
    }
  }

  lemma {:induction false} SendErrsFirst(r: Round, from: nat, target: Target, message: Message, covers: seq<JobKey>)
    requires from <= |r.notifiers|
    ensures FirstErrorCounts(r, from, target, message, r.SendFrom(from, target, message, covers).1)
    decreases |r.notifiers| - from
  {
    if from < |r.notifiers| {
      SendErrsFirst(r, from + 1, target, message, covers);
      var later := r.SendFrom(from + 1, target, message, covers).1;
      if Serves(r, from, target) && r.env.sendError(from, target, message).Some? {
        assert FirstToErr(r, from, from, target, message);
      } else if !AllAccept(r, from + 1, target, message) {
        var i: nat :| FirstToErr(r, from + 1, i, target, message) && later == r.env.sendError(i, target, message);
        assert FirstToErr(r, from, i, target, message);
      }
    }
  }

  /** The legacy round claims as if one provider supported everything. */
  function Unchecked(r: Round): Round {
    r.(resolver := Static(true))
  }

  /** Of the first n notifiers, none errs on the legacy message. */
  predicate NoneErrs(r: Round, n: nat, message: Message) {
    forall i: nat :: i < n ==> r.env.broadcastError(i, message).None?
  }

  /** Of the first n notifiers, i is the last to err on the legacy message. */
  predicate LastToErr(r: Round, n: nat, i: nat, message: Message) {
    i < n && r.env.broadcastError(i, message).Some?
    && forall j: nat :: i < j < n ==> r.env.broadcastError(j, message).None?
  }

  /** No error if none errs, or else the error of the last to err. */
  ghost predicate LastErrorCounts(r: Round, n: nat, message: Message, error: Option<string>) {
    if NoneErrs(r, n, message) then error == None
    else exists i: nat :: LastToErr(r, n, i, message) && error == r.env.broadcastError(i, message)
  }

  lemma {:induction false} BroadcastHandsToAll(r: Round, n: nat, message: Message, covers: seq<JobKey>)
    requires n <= |r.notifiers|
    ensures var sent := r.BroadcastTo(n, message, covers).0;
            |sent| == n && forall i :: 0 <= i < n ==> sent[i] == Delivery(None, i, message, covers)
  {
    if n > 0 { BroadcastHandsToAll(r, n - 1, message, covers); }
  }

  lemma {:induction false} BroadcastErrsLast(r: Round, n: nat, message: Message, covers: seq<JobKey>)
    requires n <= |r.notifiers|
    ensures LastErrorCounts(r, n, message, r.BroadcastTo(n, message, covers).1)
  {
    if n > 0 {
      BroadcastErrsLast(r, n - 1, message, covers);
      var earlier := r.BroadcastTo(n - 1, message, covers).1;
      assert r.BroadcastTo(n, message, covers).1
          == if r.env.broadcastError(n - 1, message).Some? then r.env.broadcastError(n - 1, message) else earlier;
      hide Round.BroadcastTo;
      if r.env.broadcastError(n - 1, message).Some? {
        assert LastToErr(r, n, n - 1, message);
      } else if !NoneErrs(r, n - 1, message) {
        var i: nat :| LastToErr(r, n - 1, i, message) && earlier == r.env.broadcastError(i, message);
        assert LastToErr(r, n, i, message);
      }
    }
  }

  /** The legacy message is handed once to each of the first n notifiers, in order, whatever they declare. */
  lemma BroadcastsToAll(r: Round, n: nat, message: Message, covers: seq<JobKey>)
    requires n <= |r.notifiers|
    ensures var (sent, error) := r.BroadcastTo(n, message, covers);
            && |sent| == n && (forall i :: 0 <= i < n ==> sent[i] == Delivery(None, i, message, covers))
            && LastErrorCounts(r, n, message, error)
  {
    BroadcastHandsToAll(r, n, message, covers);
    BroadcastErrsLast(r, n, message, covers);
    hide Round.BroadcastTo, LastErrorCounts;
  }
}
