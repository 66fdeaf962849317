/** The executors of internal/scheduler/target_executor.go and internal/scheduler/executor.go. */
module Executors {
  import opened Prelude
  import opened Ordering
  import opened Domain
  import opened Periods
  import opened Registry
  import opened Messages
  import opened Jobs
  import opened Rounds
  import opened RoundProofs
  import opened DeliveryProofs
  import opened Expectations

  /** What left the process: market requests and messages, in order. */
  class Journal {
    ghost var fetches: seq<FetchKey>
    ghost var sent: seq<Delivery>

    constructor ()
      ensures fetches == [] && sent == []
    {
      fetches, sent := [], [];
    }
  }

  const ByKey: FetchKey -> Rank := (key: FetchKey) => Rank(key.provider, key.symbol)

  /** The keys of a set in ascending order, each once. */
  ghost predicate ListsInOrder(keys: seq<FetchKey>, needed: set<FetchKey>) {
    Elems(keys) == needed && |keys| == |needed| && NoDup(keys) && Ascending(ByKey, keys)
  }

  method SortKeys(needed: set<FetchKey>) returns (keys: seq<FetchKey>)
    ensures ListsInOrder(keys, needed)
  {
    keys := [];
    var rest := needed;
    while rest != {}
      invariant rest <= needed && Elems(keys) == needed - rest
      invariant |keys| + |rest| == |needed|
      invariant Ascending(ByKey, keys)
      decreases rest
    {
      var key :| key in rest;
      InsertElems(ByKey, key, keys);
      InsertAscending(ByKey, key, keys);
      keys := Insert(ByKey, key, keys);
      rest := rest - {key};
    }
    SameSizeNoDup(keys);
  }

  /** The outcome of a key: what its own provider answered about its symbol, or that it is unavailable. */
  predicate Told(r: Round, key: FetchKey, outcome: PriceResult) {
    var answer := r.env.kline(key.provider, key.symbol);
    if r.resolver.Get(key.provider) && Priced(answer, r.period)
    then outcome.Available? && PriceLine(outcome.change) == Quote(answer.value)
    else outcome == Unavailable(key.symbol)
  }

  /** Each row with one of the ids whose mark lands records the outcome of the send; no other row changes. */
  predicate RecordsOutcome(r: Round, before: Rows, ids: set<nat>, sendErr: Option<string>, after: Rows) {
    && after.Keys == before.Keys
    && forall k :: k in before ==>
         var row := before[k];
         after[k] == if row.id !in ids || !r.env.markLands(row.id) then row
                     else if sendErr.None?
                     then row.(status := Sent, error := "", sentAt := Some(r.env.sentAt(row.id)),
                               updatedAt := r.env.markedAt(row.id))
                     else row.(status := JobStatus.Failed, error := sendErr.value, updatedAt := r.env.markedAt(row.id))
  }

  /** The part of a key list that reaches a provider. */
  function Requested(r: Round, keys: seq<FetchKey>): seq<FetchKey> {
    if keys == [] then []
    else (if r.resolver.Get(keys[0].provider) then [keys[0]] else []) + Requested(r, keys[1..])
  }

  lemma {:induction false} AllRequested(r: Round, keys: seq<FetchKey>)
    requires forall k :: k in keys ==> r.resolver.Get(k.provider)
    ensures Requested(r, keys) == keys
  {
    if keys != [] {
      assert keys[0] in keys;
      AllRequested(r, keys[1..]);
    }
  }

  // ---------------------------------------------------------------- one step of each loop

  lemma EligibleStep(r: Round, targets: seq<Target>, i: nat)
    requires i < |targets|
    ensures var one, rest := r.EligibleOne(targets[i]), r.Eligible(targets[i + 1..]);
            && r.Eligible(targets[i..]).0 == one.0 + rest.0
            && FirstOf(r.Eligible(targets[i..]).1) == OrElse(FirstOf(one.1), FirstOf(rest.1))
  {
    assert targets[i..][0] == targets[i] && targets[i..][1..] == targets[i + 1..];
    FirstOfConcat(r.EligibleOne(targets[i]).1, r.Eligible(targets[i + 1..]).1);
  }

  /** What has been claimed so far, followed by the claims still to come, makes up all claims. */
  ghost predicate Claimed(
    all: Claims, rest: Claims, pending: seq<seq<PendingJob>>, dropped: seq<bool>, needed: set<FetchKey>,
        firstErr: Option<RoundError>)
  {
    && |pending| == |dropped|
    && (forall j :: 0 <= j < |dropped| && dropped[j] ==> pending[j] == [])
    && all.rows == rest.rows && all.pending == pending + rest.pending
    && all.needed == needed + rest.needed
    && FirstOf(all.errors) == OrElse(firstErr, FirstOf(rest.errors))
  }

  ghost predicate ClaimFirst(rest: Claims, claim: Claim, kept: seq<PendingJob>, later: Claims) {
    && rest.rows == later.rows && rest.pending == [kept] + later.pending
    && rest.needed == claim.needed + later.needed && rest.errors == claim.errors + later.errors
  }

  lemma ClaimAllStep(r: Round, rows: Rows, ets: seq<EligibleTarget>, i: nat)
    requires i < |ets|
    ensures var claim := r.ClaimTarget(rows, ets[i]);
            ClaimFirst(r.ClaimAll(rows, ets[i..]), claim, r.Kept(claim), r.ClaimAll(claim.rows, ets[i + 1..]))
  {
    assert ets[i..][0] == ets[i] && ets[i..][1..] == ets[i + 1..];
  }

  lemma ClaimedOneMore(
    all: Claims, rest: Claims, pending: seq<seq<PendingJob>>, dropped: seq<bool>, needed: set<FetchKey>,
    firstErr: Option<RoundError>, claim: Claim, kept: seq<PendingJob>, later: Claims)
    requires Claimed(all, rest, pending, dropped, needed, firstErr)
    requires ClaimFirst(rest, claim, kept, later) && (claim.dropped ==> kept == [])
    ensures Claimed(all, later, pending + [kept], dropped + [claim.dropped], needed + claim.needed,
              OrElse(firstErr, FirstOf(claim.errors)))
  {
    FirstOfConcat(claim.errors, later.errors);
    assert pending + ([kept] + later.pending) == (pending + [kept]) + later.pending;
    assert needed + (claim.needed + later.needed) == (needed + claim.needed) + later.needed;
  }

  /** What has been delivered so far, followed by the deliveries still to come, makes up all of them. */
  ghost predicate Delivered(all: Effects, rest: Effects, sent: seq<Delivery>, firstErr: Option<RoundError>) {
    && all.rows == rest.rows && all.deliveries == sent + rest.deliveries
    && FirstOf(all.errors) == OrElse(firstErr, FirstOf(rest.errors))
  }

  ghost predicate DeliverFirst(rest: Effects, d: Effects, later: Effects) {
    && rest.rows == later.rows && rest.deliveries == d.deliveries + later.deliveries
    && rest.errors == d.errors + later.errors
  }

  lemma DeliverAllStep(r: Round, rows: Rows, ets: seq<EligibleTarget>, pending: seq<seq<PendingJob>>, i: nat)
    requires i < |ets| == |pending|
    ensures var d := r.Deliver(rows, ets[i].target, pending[i]);
            DeliverFirst(r.DeliverAll(rows, ets[i..], pending[i..]), d,
                r.DeliverAll(d.rows, ets[i + 1..], pending[i + 1..]))
  {
    assert ets[i..][0] == ets[i] && ets[i..][1..] == ets[i + 1..];
    assert pending[i..][0] == pending[i] && pending[i..][1..] == pending[i + 1..];
  }

  lemma DeliveredOneMore(
    all: Effects, rest: Effects, sent: seq<Delivery>, firstErr: Option<RoundError>, d: Effects, later: Effects)
    requires Delivered(all, rest, sent, firstErr) && DeliverFirst(rest, d, later)
    ensures Delivered(all, later, sent + d.deliveries, OrElse(firstErr, FirstOf(d.errors)))
  {
    FirstOfConcat(d.errors, later.errors);
    assert sent + (d.deliveries + later.deliveries) == (sent + d.deliveries) + later.deliveries;
  }

  /** The shared outcomes are right, and hold the outcome of every one of these jobs. */
  ghost predicate Answers(r: Round, outcomes: map<FetchKey, PriceResult>, pending: seq<PendingJob>) {
    && (forall key :: key in outcomes ==> outcomes[key] == r.Fetched(key))
    && (forall p :: p in pending ==> FetchKey(p.key.provider, p.key.symbol) in outcomes)
  }

  lemma NeededIsEnabled(r: Round, rows: Rows, ets: seq<EligibleTarget>)
    requires WellKeyed(r.env, rows)
    ensures forall key :: key in r.ClaimAll(rows, ets).needed ==> r.resolver.Get(key.provider)
  {
    FetchesExactlyTheWanted(r, rows, ets);
  }

  /** No lookup of phase 3 misses: every kept job's key was fetched. */
  lemma EveryJobIsAnswered(r: Round, rows: Rows, ets: seq<EligibleTarget>, outcomes: map<FetchKey, PriceResult>)
    requires WellKeyed(r.env, rows) && outcomes.Keys == r.ClaimAll(rows, ets).needed
    requires forall key :: key in outcomes ==> outcomes[key] == r.Fetched(key)
    ensures forall i :: 0 <= i < |ets| ==> Answers(r, outcomes, r.ClaimAll(rows, ets).pending[i])
  {
    forall i | 0 <= i < |ets| ensures Answers(r, outcomes, r.ClaimAll(rows, ets).pending[i]) {
      PendingIsFetched(r, rows, ets, i);
    }
  }

  /** A claim is what was gathered so far and what the rest of the symbols will add. */
  ghost predicate ClaimedSoFar(
    all: Claim, rest: Claim, pending: seq<PendingJob>, needed: set<FetchKey>, now: set<FetchKey>)
  {
    && all.rows == rest.rows && needed + all.needed == now + rest.needed
    && all.dropped == rest.dropped && all.errors == rest.errors && all.pending == pending + rest.pending
  }

  lemma ClaimsNothingYet(all: Claim, needed: set<FetchKey>)
    ensures ClaimedSoFar(all, all, [], needed, needed)
  {
  }

  lemma ClaimsOneMore(
    all: Claim, rest: Claim, pending: seq<PendingJob>, needed: set<FetchKey>, now: set<FetchKey>,
    job: PendingJob, key: FetchKey, after: Claim)
    requires ClaimedSoFar(all, rest, pending, needed, now)
    requires rest == after.(pending := [job] + after.pending, needed := {key} + after.needed)
    ensures ClaimedSoFar(all, after, pending + [job], needed, now + {key})
  {
    ConcatAssociative(pending, [job], after.pending);
  }

  /** Where nothing more is claimed, what was gathered is all there is. */
  lemma ClaimEnds(all: Claim, rest: Claim, pending: seq<PendingJob>, needed: set<FetchKey>, now: set<FetchKey>)
    requires ClaimedSoFar(all, rest, pending, needed, now) && rest.pending == [] && rest.needed == {}
    ensures all.rows == rest.rows && now == needed + all.needed && all.dropped == rest.dropped
    ensures all.errors == rest.errors && all.pending == pending
  {
  }

  class TargetExecutor {
    const periods: PeriodEngine
    const resolver: Resolver
    const notifiers: seq<Notifier>
    const jobs: JobTable
    const journal: Journal
    const legacy: LegacyExecutor?

    constructor (
      periods: PeriodEngine, resolver: Resolver, notifiers: seq<Notifier>, jobs: JobTable, journal: Journal,
      legacy: LegacyExecutor?)
      ensures this.periods == periods && this.resolver == resolver && this.notifiers == notifiers
      ensures this.jobs == jobs && this.journal == journal && this.legacy == legacy
    {
      this.periods, this.resolver, this.notifiers := periods, resolver, notifiers;
      this.jobs, this.journal, this.legacy := jobs, journal, legacy;
    }

    /** The filter at the start of a round. */
    method CollectEligible(r: Round, targets: seq<Target>)
      returns (eligible: seq<EligibleTarget>, firstErr: Option<RoundError>)
      ensures eligible == r.Eligible(targets).0
      ensures firstErr == FirstOf(r.Eligible(targets).1)
    {
      eligible, firstErr := [], None;
      for i := 0 to |targets|
        invariant r.Eligible(targets).0 == eligible + r.Eligible(targets[i..]).0
        invariant FirstOf(r.Eligible(targets).1) == OrElse(firstErr, FirstOf(r.Eligible(targets[i..]).1))
      {
        EligibleStep(r, targets, i);
        var one, err := LoadEligible(r, targets[i]);
        eligible := eligible + one;
        firstErr := OrElse(firstErr, err);
      }
    }

    method LoadEligible(r: Round, target: Target) returns (one: seq<EligibleTarget>, err: Option<RoundError>)
      ensures one == r.EligibleOne(target).0 && err == FirstOf(r.EligibleOne(target).1)
    {
      var loaded := r.env.config(target.id);
      if loaded.Err? {
        return [], Some(ConfigLoad(target.id));
      }
      if !loaded.value.enabled || r.period.interval !in loaded.value.intervals {
        return [], None;
      }
      var config := r.Effective(loaded.value);
      if !r.resolver.Supports(config.provider, "", r.period.interval) && !r.resolver.Get(config.provider) {
        return [], Some(ProviderNotEnabled(config.provider));
      }
      return [EligibleTarget(target, config)], None;
    }

    /** Phase 1 for one target: create or look up its rows until one cannot be had. */
    method ClaimJobs(r: Round, et: EligibleTarget, needed: set<FetchKey>)
      returns (pending: seq<PendingJob>, needed': set<FetchKey>, dropped: bool, err: Option<RoundError>)
      requires jobs.Valid()
      modifies jobs
      ensures jobs.Valid()
      ensures var c := r.ClaimTarget(old(jobs.rows), et);
              && jobs.rows == c.rows && needed' == needed + c.needed && dropped == c.dropped
              && err == FirstOf(c.errors) && (!dropped ==> pending == c.pending)
    {
      hide AfterCreate, CreateAnswer, ValidJob, ClaimedSoFar;
      var symbols, provider := et.config.symbols, et.config.provider;
      ghost var all := r.ClaimTarget(jobs.rows, et);
      pending, needed' := [], needed;
      ClaimsNothingYet(all, needed);
      for i := 0 to |symbols|
        invariant jobs.Valid()
        invariant ClaimedSoFar(all, r.ClaimSymbols(jobs.rows, et.target.id, provider, symbols[i..]), pending,
                    needed, needed')
      {
        assert symbols[i..][0] == symbols[i] && symbols[i..][1..] == symbols[i + 1..];
        ghost var rest := r.ClaimSymbols(jobs.rows, et.target.id, provider, symbols[i..]);
        if !r.resolver.Supports(provider, symbols[i], r.period.interval) {
          ClaimEnds(all, rest, pending, needed, needed');
          return pending, needed', true, Some(Unsupported(et.target.id, provider, symbols[i]));
        }
        var key := r.KeyOf(et.target.id, provider, symbols[i]);
        var created := jobs.CreateIfNotExists(key, r.NewRow(key), r.env.createFault(key));
        if created.Err? {
          ClaimEnds(all, rest, pending, needed, needed');
          return pending, needed', true, Some(CreateFailed(key));
        }
        var (row, isNew) := created.value;
        if isNew || row.status != Sent {
          ClaimsOneMore(all, rest, pending, needed, needed', PendingJob(key, row.id), FetchKey(provider, symbols[i]),
                        r.ClaimSymbols(jobs.rows, et.target.id, provider, symbols[i + 1..]));
          pending := pending + [PendingJob(key, row.id)];
          needed' := needed' + {FetchKey(provider, symbols[i])};
        }
      }
      ClaimEnds(all, r.ClaimSymbols(jobs.rows, et.target.id, provider, []), pending, needed, needed');
      return pending, needed', false, None;
    }

    /** Phase 1: the rows of every eligible target, and the union of what they need. */
    method ClaimAllJobs(r: Round, eligible: seq<EligibleTarget>)
      returns (pending: seq<seq<PendingJob>>, dropped: seq<bool>, needed: set<FetchKey>, firstErr: Option<RoundError>)
      requires jobs.Valid()
      modifies jobs
      ensures jobs.Valid()
      ensures |dropped| == |eligible|
      ensures var c := r.ClaimAll(old(jobs.rows), eligible);
              && jobs.rows == c.rows && pending == c.pending && needed == c.needed && firstErr == FirstOf(c.errors)
              && forall i :: 0 <= i < |eligible| && dropped[i] ==> pending[i] == []
    {
      ghost var all := r.ClaimAll(jobs.rows, eligible);
      pending, dropped, needed, firstErr := [], [], {}, None;
      for i := 0 to |eligible|
        invariant jobs.Valid()
        invariant |dropped| == i
        invariant Claimed(all, r.ClaimAll(jobs.rows, eligible[i..]), pending, dropped, needed, firstErr)
      {
        ghost var claim, rest := r.ClaimTarget(jobs.rows, eligible[i]), r.ClaimAll(jobs.rows, eligible[i..]);
        ClaimAllStep(r, jobs.rows, eligible, i);
        ClaimedOneMore(all, rest, pending, dropped, needed, firstErr, claim, r.Kept(claim),
            r.ClaimAll(claim.rows, eligible[i + 1..]));
        var jobsForTarget, more, lost, err := ClaimJobs(r, eligible[i], needed);
        needed := more;
        firstErr := OrElse(firstErr, err);
        dropped := dropped + [lost];
        pending := pending + [if lost then [] else jobsForTarget];
      }
    }

    /** Phase 2: one request per key, in the given order. */
    method FetchAll(r: Round, keys: seq<FetchKey>) returns (outcomes: map<FetchKey, PriceResult>)
      modifies journal`fetches
      ensures outcomes.Keys == Elems(keys)
      ensures forall key :: key in outcomes ==> outcomes[key] == r.Fetched(key) && Told(r, key, outcomes[key])
      ensures journal.fetches == old(journal.fetches) + Requested(r, keys)
    {
      outcomes := map[];
      ghost var before := journal.fetches;
      for i := 0 to |keys|
        invariant outcomes.Keys == Elems(keys[..i])
        invariant forall key :: key in outcomes ==> outcomes[key] == r.Fetched(key)
        invariant before + Requested(r, keys) == journal.fetches + Requested(r, keys[i..])
      {
        var key := keys[i];
        assert keys[i..][0] == key && keys[i..][1..] == keys[i + 1..];
        assert keys[..i + 1] == keys[..i] + [key];
        if !r.resolver.Get(key.provider) {
          outcomes := outcomes[key := Unavailable(key.symbol)];
        } else {
          var candle := r.env.kline(key.provider, key.symbol);
          journal.fetches := journal.fetches + [key];
          if candle.None? {
            outcomes := outcomes[key := Unavailable(key.symbol)];
          } else {
            var change := CalculateChange(candle.value, r.period);
            outcomes := outcomes[key := if change.None? then Unavailable(key.symbol) else Available(change.value)];
          }
        }
      }
      assert keys[..|keys|] == keys;
    }

    /** SendToTarget on every notifier; the first error is kept. */
    method SendToAll(r: Round, target: Target, message: Message, ghost covers: seq<JobKey>)
      returns (sendErr: Option<string>)
      modifies journal`sent
      ensures journal.sent == old(journal.sent) + r.SendFrom(0, target, message, covers).0
      ensures sendErr == r.SendFrom(0, target, message, covers).1
      ensures exists sent ::
                journal.sent == old(journal.sent) + sent && HandsToEach(r, 0, target, message, covers, sent)
      ensures FirstErrorCounts(r, 0, target, message, sendErr)
    {
      SendsToEach(r, 0, target, message, covers);
      SendErrsFirst(r, 0, target, message, covers);
      hide HandsToEach, FirstErrorCounts;
      sendErr := None;
      ghost var before, all := journal.sent, r.SendFrom(0, target, message, covers);
      for i := 0 to |r.notifiers|
        invariant before + all.0 == journal.sent + r.SendFrom(i, target, message, covers).0
        invariant all.1 == OrElse(sendErr, r.SendFrom(i, target, message, covers).1)
      {
        if r.Routed(i, target) {
          var error := r.env.sendError(i, target, message);
          journal.sent := journal.sent + [Delivery(Some(target), i, message, covers)];
          sendErr := OrElse(sendErr, error);
        }
      }
    }

    /** Phase 3 for one target: the results come from the shared outcomes. */
    method DeliverToTarget(r: Round, target: Target, pending: seq<PendingJob>, outcomes: map<FetchKey, PriceResult>)
      returns (err: Option<RoundError>)
      requires jobs.Valid()
      requires Answers(r, outcomes, pending)
      modifies jobs`rows, journal`sent
      ensures jobs.Valid()
      ensures var d := r.Deliver(old(jobs.rows), target, pending);
              && jobs.rows == d.rows && journal.sent == old(journal.sent) + d.deliveries && err == FirstOf(d.errors)
    {
      if pending == [] {
        return None;
      }
      var results := CollectResults(r, pending, outcomes);
      var built := BuildMessage(r.period, results);
      if built.Err? {
        return Some(BuildFailed(built.error));
      }
      var sendErr := SendToAll(r, target, built.value, Keys(pending));
      MarkAll(jobs, r, pending, sendErr);
      return if sendErr.Some? then Some(SendFailed(sendErr.value)) else None;
    }

    /** A fresh slice of the pending jobs' outcomes, in their order; a missing one would be unavailable. */
    method CollectResults(r: Round, pending: seq<PendingJob>, outcomes: map<FetchKey, PriceResult>)
      returns (results: array<PriceResult>)
      requires Answers(r, outcomes, pending)
      ensures fresh(results) && results[..] == r.ResultsFor(pending)
    {
      var items: seq<PriceResult> := [];
      for i := 0 to |pending|
        invariant |items| == i
        invariant forall j :: 0 <= j < i ==>
                    items[j] == r.Fetched(FetchKey(pending[j].key.provider, pending[j].key.symbol))
      {
        var key := FetchKey(pending[i].key.provider, pending[i].key.symbol);
        assert pending[i] in pending;
        items := items + [if key in outcomes then outcomes[key] else Unavailable(key.symbol)];
      }
      results := new PriceResult[|items|](i requires 0 <= i < |items| => items[i]);
      assert results[..] == r.ResultsFor(pending);
    }

    method DeliverUnlessDropped(
      r: Round, target: Target, pending: seq<PendingJob>, dropped: bool, outcomes: map<FetchKey, PriceResult>)
      returns (err: Option<RoundError>)
      requires jobs.Valid() && Answers(r, outcomes, pending) && (dropped ==> pending == [])
      modifies jobs`rows, journal`sent
      ensures jobs.Valid()
      ensures var d := r.Deliver(old(jobs.rows), target, pending);
              && jobs.rows == d.rows && journal.sent == old(journal.sent) + d.deliveries && err == FirstOf(d.errors)
    {
      if dropped {
        return None;
      }
      err := DeliverToTarget(r, target, pending, outcomes);
    }

    /** Phase 3: every target that was not dropped, in order. */
    method DeliverToAll(
      r: Round, eligible: seq<EligibleTarget>, pending: seq<seq<PendingJob>>, dropped: seq<bool>,
      outcomes: map<FetchKey, PriceResult>)
      returns (firstErr: Option<RoundError>)
      requires jobs.Valid() && |eligible| == |pending| == |dropped|
      requires forall i :: 0 <= i < |pending| ==> Answers(r, outcomes, pending[i])
      requires forall i :: 0 <= i < |pending| && dropped[i] ==> pending[i] == []
      modifies jobs`rows, journal`sent
      ensures jobs.Valid()
      ensures var d := r.DeliverAll(old(jobs.rows), eligible, pending);
              && jobs.rows == d.rows && journal.sent == old(journal.sent) + d.deliveries
                 && firstErr == FirstOf(d.errors)
    {
      ghost var before, all := journal.sent, r.DeliverAll(jobs.rows, eligible, pending);
      ghost var sent: seq<Delivery> := [];
      firstErr := None;
      for i := 0 to |eligible|
        invariant jobs.Valid()
        invariant journal.sent == before + sent
        invariant Delivered(all, r.DeliverAll(jobs.rows, eligible[i..], pending[i..]), sent, firstErr)
      {
        ghost var d, rest := r.Deliver(jobs.rows, eligible[i].target, pending[i]),
            r.DeliverAll(jobs.rows, eligible[i..], pending[i..]);
        DeliverAllStep(r, jobs.rows, eligible, pending, i);
        DeliveredOneMore(all, rest, sent, firstErr, d, r.DeliverAll(d.rows, eligible[i + 1..], pending[i + 1..]));
        ConcatAssociative(before, sent, d.deliveries);
        sent := sent + d.deliveries;
        var err := DeliverUnlessDropped(r, eligible[i].target, pending[i], dropped[i], outcomes);
        firstErr := OrElse(firstErr, err);
      }
    }

    /** Phase 2: each needed key once, in ascending order. */
    method FetchNeeded(r: Round, needed: set<FetchKey>) returns (outcomes: map<FetchKey, PriceResult>)
      requires forall key :: key in needed ==> r.resolver.Get(key.provider)
      modifies journal`fetches
      ensures outcomes.Keys == needed
      ensures forall key :: key in outcomes ==> outcomes[key] == r.Fetched(key)
      ensures exists keys :: ListsInOrder(keys, needed) && journal.fetches == old(journal.fetches) + keys
    {
      var keys := SortKeys(needed);
      AllRequested(r, keys);
      outcomes := FetchAll(r, keys);
    }

    /** Phases 1 to 3 for the eligible targets; firstErr is the error of the eligibility filter, if any. */
    method Phases(r: Round, eligible: seq<EligibleTarget>, firstErr: Option<RoundError>)
      returns (err: Option<RoundError>)
      requires jobs.Valid() && WellKeyed(r.env, jobs.rows)
      modifies jobs, journal
      ensures jobs.Valid()
      ensures var e := r.ThreePhases(old(jobs.rows), eligible);
              && jobs.rows == e.rows && journal.sent == old(journal.sent) + e.deliveries
              && err == OrElse(firstErr, FirstOf(e.errors))
      ensures exists keys :: ListsInOrder(keys, r.ClaimAll(old(jobs.rows), eligible).needed)
                          && journal.fetches == old(journal.fetches) + keys
    {
      ghost var claims := r.ClaimAll(jobs.rows, eligible);
      NeededIsEnabled(r, jobs.rows, eligible);
      var pending, dropped, needed, claimErr := ClaimAllJobs(r, eligible);
      err := OrElse(firstErr, claimErr);
      if needed == {} {
        assert ListsInOrder([], needed) && journal.fetches == old(journal.fetches) + [];
        return;
      }
      var outcomes := FetchNeeded(r, needed);
      EveryJobIsAnswered(r, old(jobs.rows), eligible, outcomes);
      FirstOfConcat(claims.errors, r.DeliverAll(claims.rows, eligible, pending).errors);
      var deliverErr := DeliverToAll(r, eligible, pending, dropped, outcomes);
      err := OrElse(err, deliverErr);
    }

    /**
     The three phases over the targets that take part. They leave the rows and the messages the naive
     loop would have left, and request each needed key from its provider exactly once, in key order.
     */
    method RunPhases(r: Round, targets: seq<Target>) returns (err: Option<RoundError>)
      requires jobs.Valid() && FreshFor(r.env, jobs.rows) && DistinctIds(targets)
      modifies jobs, journal
      ensures jobs.Valid()
      ensures var (eligible, failed) := r.Eligible(targets);
              var naive := r.NaiveRound(old(jobs.rows), eligible);
              && jobs.rows == naive.rows
              && journal.sent == old(journal.sent) + naive.deliveries
              && err == FirstOf(failed + r.ThreePhases(old(jobs.rows), eligible).errors)
              && (err.None? <==> failed == [] && naive.errors == [])
      ensures exists keys :: ListsInOrder(keys, r.ClaimAll(old(jobs.rows), r.Eligible(targets).0).needed)
                          && journal.fetches == old(journal.fetches) + keys
    {
      ghost var start := jobs.rows;
      jobs.IndexIsExact(0);
      EligibleAreDistinct(r, targets);
      var eligible, firstErr := CollectEligible(r, targets);
      SharedFetchRefinesNaive(r, start, eligible);
      FirstOfConcat(r.Eligible(targets).1, r.ThreePhases(start, eligible).errors);
      err := Phases(r, eligible, firstErr);
    }

    /** Execute: nothing unless the period is due; the legacy round when no target is enabled. */
    method Execute(env: Env, legacyEnv: Env, listed: Result<seq<Target>>, now: Nanos, interval: Interval)
      returns (err: Option<RoundError>)
      requires jobs.Valid() && FreshFor(env, jobs.rows)
      requires listed.Ok? ==> DistinctIds(listed.value)
      requires legacy != null ==> legacy.jobs == jobs && legacy.journal == journal && legacy.periods == periods
      modifies jobs, journal
      ensures jobs.Valid()
      ensures var due := periods.GetCurrentPeriod(now, interval);
              due.None? || listed.Err? || (listed.value == [] && legacy == null) ==>
                && jobs.rows == old(jobs.rows) && journal.sent == old(journal.sent)
                   && journal.fetches == old(journal.fetches)
                && (err.Some? <==> due.Some? && listed.Err?)
      ensures var due := periods.GetCurrentPeriod(now, interval);
              due.Some? && listed.Ok? && listed.value != [] ==>
                var r := Round(resolver, notifiers, due.value, env);
                var (eligible, failed) := r.Eligible(listed.value);
                var naive := r.NaiveRound(old(jobs.rows), eligible);
                && jobs.rows == naive.rows && journal.sent == old(journal.sent) + naive.deliveries
                && err == FirstOf(failed + r.ThreePhases(old(jobs.rows), eligible).errors)
                && (err.None? <==> failed == [] && naive.errors == [])
                && exists keys :: ListsInOrder(keys, r.ClaimAll(old(jobs.rows), eligible).needed)
                               && journal.fetches == old(journal.fetches) + keys
      ensures var due := periods.GetCurrentPeriod(now, interval);
              due.Some? && listed == Ok([]) && legacy != null ==>
                var alone := Round(Static(true), legacy.notifiers, due.value,
                    legacyEnv).LegacyRound(old(jobs.rows), legacy.symbols);
                && jobs.rows == alone.rows && journal.sent == old(journal.sent) + alone.deliveries
                   && err == FirstOf(alone.errors)
    {
      var due := periods.GetCurrentPeriod(now, interval);
      if due.None? {
        return None;
      }
      if listed.Err? {
        return Some(ListFailed(listed.error));
      }
      if listed.value == [] {
        if legacy == null {
          return None;
        }
        err := legacy.Execute(legacyEnv, now, interval);
        return;
      }
      err := RunPhases(Round(resolver, notifiers, due.value, env), listed.value);
    }
  }

  /** MarkSent or MarkFailed for every listed job; errors are dropped. */
  method MarkAll(jobs: JobTable, r: Round, pending: seq<PendingJob>, sendErr: Option<string>)
    requires jobs.Valid()
    modifies jobs`rows
    ensures jobs.Valid()
    ensures jobs.rows == r.AfterMarks(old(jobs.rows), Ids(pending), sendErr)
    ensures RecordsOutcome(r, old(jobs.rows), Ids(pending), sendErr, jobs.rows)
  {
    ghost var before := jobs.rows;
    assert r.AfterMarks(before, Ids([]), sendErr) == before;
    for i := 0 to |pending|
      invariant jobs.Valid()
      invariant jobs.rows == r.AfterMarks(before, Ids(pending[..i]), sendErr)
    {
      var id := pending[i].id;
      assert Ids(pending[..i + 1]) == Ids(pending[..i]) + {id};
      OneMoreMark(r, before, Ids(pending[..i]), id, sendErr);
      if sendErr.Some? {
        var _ := jobs.MarkFailed(id, sendErr.value, r.env.markedAt(id), r.env.markLands(id));
      } else {
        var _ := jobs.MarkSent(id, r.env.sentAt(id), r.env.markedAt(id), r.env.markLands(id));
      }
    }
    assert pending[..|pending|] == pending;
  }

  class LegacyExecutor {
    const periods: PeriodEngine
    const notifiers: seq<Notifier>
    const symbols: seq<Symbol>
    const jobs: JobTable
    const journal: Journal

    constructor (
      periods: PeriodEngine, notifiers: seq<Notifier>, symbols: seq<Symbol>, jobs: JobTable, journal: Journal)
      ensures this.periods == periods && this.notifiers == notifiers && this.symbols == symbols
      ensures this.jobs == jobs && this.journal == journal
    {
      this.periods, this.notifiers, this.symbols, this.jobs, this.journal := periods, notifiers, symbols, jobs, journal;
    }

    /** Creates and fetches symbol by symbol; the first failing create ends the round. */
    method ClaimAndFetch(r: Round)
      returns (pending: seq<PendingJob>, results: seq<PriceResult>, err: Option<RoundError>)
      requires jobs.Valid()
      modifies jobs
      ensures jobs.Valid()
      ensures var c := r.LegacyClaims(old(jobs.rows), symbols);
              && jobs.rows == c.rows && err == FirstOf(c.errors) && (err.Some? <==> c.dropped)
              && (err.None? ==> pending == c.pending && results == r.LegacyResults(pending))
    {
      var all := r.(resolver := Static(true));
      ghost var claims := r.LegacyClaims(jobs.rows, symbols);
      pending, results := [], [];
      for i := 0 to |symbols|
        invariant jobs.Valid()
        invariant var rest := all.ClaimSymbols(jobs.rows, "", BINANCE, symbols[i..]);
                  && claims.rows == rest.rows && claims.pending == pending + rest.pending
                  && claims.dropped == rest.dropped && claims.errors == rest.errors
        invariant |results| == |pending|
        invariant forall j :: 0 <= j < |pending| ==> results[j] == r.LegacyFetched(pending[j].key.symbol)
      {
        assert symbols[i..][0] == symbols[i] && symbols[i..][1..] == symbols[i + 1..];
        var key := r.KeyOf("", BINANCE, symbols[i]);
        var created := jobs.CreateIfNotExists(key, r.NewRow(key), r.env.createFault(key));
        if created.Err? {
          return pending, results, Some(CreateFailed(key));
        }
        var (row, isNew) := created.value;
        if isNew || row.status != Sent {
          pending := pending + [PendingJob(key, row.id)];
          results := results + [r.LegacyFetched(symbols[i])];
        }
      }
      assert results == r.LegacyResults(pending);
      return pending, results, None;
    }

    /** Send on every notifier; the last error is kept. */
    method Broadcast(r: Round, message: Message, ghost covers: seq<JobKey>) returns (sendErr: Option<string>)
      modifies journal`sent
      ensures journal.sent == old(journal.sent) + r.BroadcastTo(|r.notifiers|, message, covers).0
      ensures sendErr == r.BroadcastTo(|r.notifiers|, message, covers).1
      ensures |journal.sent| == |old(journal.sent)| + |r.notifiers|
      ensures forall i :: 0 <= i < |r.notifiers| ==>
                journal.sent[|old(journal.sent)| + i] == Delivery(None, i, message, covers)
      ensures LastErrorCounts(r, |r.notifiers|, message, sendErr)
    {
      BroadcastsToAll(r, |r.notifiers|, message, covers);
      hide LastErrorCounts;
      sendErr := None;
      ghost var before := journal.sent;
      for i := 0 to |r.notifiers|
        invariant journal.sent == before + r.BroadcastTo(i, message, covers).0
        invariant sendErr == r.BroadcastTo(i, message, covers).1
      {
        ghost var sofar := r.BroadcastTo(i, message, covers).0;
        ConcatAssociative(before, sofar, [Delivery(None, i, message, covers)]);
        var error := r.env.broadcastError(i, message);
        journal.sent := journal.sent + [Delivery(None, i, message, covers)];
        if error.Some? { sendErr := error; }
      }
    }

    method Execute(env: Env, now: Nanos, interval: Interval) returns (err: Option<RoundError>)
      requires jobs.Valid()
      modifies jobs, journal`sent
      ensures jobs.Valid()
      ensures var due := periods.GetCurrentPeriod(now, interval);
              due.None? ==> jobs.rows == old(jobs.rows) && journal.sent == old(journal.sent) && err == None
      ensures var due := periods.GetCurrentPeriod(now, interval);
              due.Some? ==>
                var alone := Round(Static(true), notifiers, due.value, env).LegacyRound(old(jobs.rows), symbols);
                && jobs.rows == alone.rows && journal.sent == old(journal.sent) + alone.deliveries
                   && err == FirstOf(alone.errors)
    {
      var due := periods.GetCurrentPeriod(now, interval);
      if due.None? {
        return None;
      }
      var r := Round(Static(true), notifiers, due.value, env);
      var pending, items, failed := ClaimAndFetch(r);
      if failed.Some? {
        return failed;
      }
      if pending == [] {
        return None;
      }
      var results := new PriceResult[|items|](i requires 0 <= i < |items| => items[i]);
      assert results[..] == items;
      var built := BuildMessage(r.period, results);
      if built.Err? {
        return Some(BuildFailed(built.error));
      }
      var sendErr := Broadcast(r, built.value, Keys(pending));
      MarkAll(jobs, r, pending, sendErr);
      return if sendErr.Some? then Some(SendFailed(sendErr.value)) else None;
    }
  }
}
