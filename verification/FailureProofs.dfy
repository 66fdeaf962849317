/** Which targets take part in a round, and exactly which errors a round reports. */
module FailureProofs {
  import opened Prelude
  import opened Domain
  import opened Messages
  import opened Jobs
  import opened Rounds
  import opened RoundProofs
  import opened IsolationProofs
  import opened DeliveryProofs
  import opened ClaimProofs
  import opened Expectations
  import opened RoundMessages
  import opened RejectionProofs

  // ---------------------------------------------------------------- the filter

  /** An unset provider means Binance. */
  function ProviderOf(config: AlertConfig): MarketProvider {
    if config.provider == "" then BINANCE else config.provider
  }

  /** The target's configuration was loaded, is enabled, and names the round's interval. */
  predicate AsksForIt(r: Round, t: Target) {
    var config := r.env.config(t.id);
    config.Ok? && config.value.enabled && r.period.interval in config.value.intervals
  }

  /** And its provider is enabled: then it takes part. */
  predicate TakesPart(r: Round, t: Target) {
    AsksForIt(r, t) && r.resolver.Get(ProviderOf(r.env.config(t.id).value))
  }

  predicate FailsToTakePart(r: Round, t: Target) {
    r.env.config(t.id).Err? || (AsksForIt(r, t) && !r.resolver.Get(ProviderOf(r.env.config(t.id).value)))
  }

  function WhyNot(r: Round, t: Target): RoundError {
    match r.env.config(t.id)
    case Err(_) => ConfigLoad(t.id)
    case Ok(config) => ProviderNotEnabled(ProviderOf(config))
  }

  /** The target with its configuration as loaded, but for an unset provider. */
  function Taking(r: Round, t: Target): EligibleTarget
    requires r.env.config(t.id).Ok?
  {
    var config := r.env.config(t.id).value;
    EligibleTarget(t, config.(provider := ProviderOf(config)))
  }

  function Takers(r: Round, targets: seq<Target>): nat -> bool {
    (i: nat) => i < |targets| && TakesPart(r, targets[i])
  }

  function Failers(r: Round, targets: seq<Target>): nat -> bool {
    (i: nat) => i < |targets| && FailsToTakePart(r, targets[i])
  }

  lemma OneIsFiltered(r: Round, t: Target)
    ensures r.EligibleOne(t).0 == if TakesPart(r, t) then [Taking(r, t)] else []
    ensures r.EligibleOne(t).1 == if FailsToTakePart(r, t) then [WhyNot(r, t)] else []
  {
  }

  predicate Taken(r: Round, t: Target, et: EligibleTarget) {
    TakesPart(r, t) && et == Taking(r, t)
  }

  /** These are the targets at these positions, with their configurations. */
  ghost predicate TakenAt(r: Round, targets: seq<Target>, at: seq<nat>, ets: seq<EligibleTarget>) {
    |ets| == |at| && forall k :: 0 <= k < |at| ==>
      at[k] < |targets| && Taken(r, targets[at[k]], ets[k])
  }

  /** These are the reasons why the targets at these positions do not take part. */
  ghost predicate FailedAt(r: Round, targets: seq<Target>, at: seq<nat>, errors: seq<RoundError>) {
    |errors| == |at| && forall k :: 0 <= k < |at| ==>
      at[k] < |targets| && errors[k] == WhyNot(r, targets[at[k]])
  }

  lemma TakenInTail(r: Round, targets: seq<Target>, at: seq<nat>, ets: seq<EligibleTarget>)
    requires targets != [] && TakenAt(r, targets[1..], at, ets)
    ensures TakenAt(r, targets, OneOn(at), ets)
  {
    hide Taken;
  }

  lemma TakenFirst(r: Round, targets: seq<Target>, at: seq<nat>, ets: seq<EligibleTarget>)
    requires targets != [] && TakenAt(r, targets, at, ets)
    ensures TakesPart(r, targets[0]) ==> TakenAt(r, targets, [0] + at, [Taking(r, targets[0])] + ets)
  {
    assert TakesPart(r, targets[0]) ==> Taken(r, targets[0], Taking(r, targets[0]));
    hide Taken, TakesPart;
  }

  lemma FailedFirst(r: Round, targets: seq<Target>, at: seq<nat>, errors: seq<RoundError>)
    requires targets != [] && FailedAt(r, targets[1..], at, errors)
    ensures var fails := FailsToTakePart(r, targets[0]);
            FailedAt(r, targets, (if fails then [0] else []) + OneOn(at),
                     (if fails then [WhyNot(r, targets[0])] else []) + errors)
  {
    hide FailsToTakePart, WhyNot;
  }

  lemma FiltersOne(r: Round, targets: seq<Target>)
    requires targets != []
    ensures var (ets, errors), rest := r.Eligible(targets), r.Eligible(targets[1..]);
            && ets == (if TakesPart(r, targets[0]) then [Taking(r, targets[0])] else []) + rest.0
            && errors == (if FailsToTakePart(r, targets[0]) then [WhyNot(r, targets[0])] else []) + rest.1
  {
    OneIsFiltered(r, targets[0]);
    hide TakesPart, FailsToTakePart, Round.EligibleOne, WhyNot;
  }

  /**
   The eligible targets are, in order, exactly the listed ones whose configuration could be loaded, is enabled,
   names the interval and has an enabled provider; the others are skipped, and reported exactly when the load
   failed or the provider of an enabled configuration for the interval is not enabled.
   */
  lemma {:induction false} EligibleExactly(r: Round, targets: seq<Target>)
    returns (at: seq<nat>, failed: seq<nat>)
    ensures ListsPositions(at, |targets|, Takers(r, targets))
    ensures ListsPositions(failed, |targets|, Failers(r, targets))
    ensures TakenAt(r, targets, at, r.Eligible(targets).0) && FailedAt(r, targets, failed, r.Eligible(targets).1)
  {
    at, failed := [], [];
    if targets != [] {
      FiltersOne(r, targets);
      hide TakesPart, FailsToTakePart, Round.Eligible, Round.EligibleOne, TakenAt, FailedAt, ListsPositions, Taking,
          WhyNot;
      var n, rest := |targets| - 1, targets[1..];
      at, failed := EligibleExactly(r, rest);
      TakenInTail(r, targets, at, r.Eligible(rest).0);
      TakenFirst(r, targets, OneOn(at), r.Eligible(rest).0);
      FailedFirst(r, targets, failed, r.Eligible(rest).1);
      PositionsFirst(at, n, Takers(r, targets), Takers(r, rest));
      PositionsFirst(failed, n, Failers(r, targets), Failers(r, rest));
      at := (if TakesPart(r, targets[0]) then [0] else []) + OneOn(at);
      failed := (if FailsToTakePart(r, targets[0]) then [0] else []) + OneOn(failed);
    }
  }

  // ---------------------------------------------------------------- all errors of a round

  /** What goes wrong for one eligible target: its first unclaimable symbol, or the first notifier to err. */
  ghost predicate Reports(r: Round, rows: Rows, et: EligibleTarget, e: RoundError) {
    || (exists i: nat :: FirstUnclaimable(r, et.target.id, et.config.provider, et.config.symbols, i)
                         && e == Complaint(r, et.target.id, et.config.provider, et.config.symbols[i]))
    || (&& Due(r, rows, et)
        && exists i: nat :: FirstToErr(r, 0, i, et.target, OwedMessage(r, rows, et))
                            && e == SendFailed(r.env.sendError(i, et.target, OwedMessage(r, rows, et)).value))
  }

  /** The errors of one target's part of the naive loop. */
  function PartErrors(r: Round, rows: Rows, et: EligibleTarget): seq<RoundError> {
    r.ClaimTarget(rows, et).errors + Part(r, rows, et).errors
  }

  lemma ClaimReports(r: Round, rows: Rows, et: EligibleTarget, e: RoundError)
    requires WellKeyed(r.env, rows)
    ensures e in r.ClaimTarget(rows, et).errors
       <==> exists i: nat :: FirstUnclaimable(r, et.target.id, et.config.provider, et.config.symbols, i)
                             && e == Complaint(r, et.target.id, et.config.provider, et.config.symbols[i])
  {
    var id, provider, symbols := et.target.id, et.config.provider, et.config.symbols;
    DroppedExactly(r, rows, id, provider, symbols);
    hide Round.ClaimSymbols, Complaint, Claimable;
    if r.ClaimTarget(rows, et).dropped {
      var i: nat :| FirstUnclaimable(r, id, provider, symbols, i)
                    && r.ClaimTarget(rows, et).errors == [Complaint(r, id, provider, symbols[i])];
      forall j: nat | FirstUnclaimable(r, id, provider, symbols, j) ensures j == i { }
    }
  }

  lemma DeliverReports(r: Round, rows: Rows, target: Target, pending: seq<PendingJob>, message: Message)
    requires pending != [] && MessageFor(r.period, r.ResultsFor(pending)) == Ok(message)
    ensures var error := r.SendFrom(0, target, message, Keys(pending)).1;
            r.Deliver(rows, target, pending).errors == if error.Some? then [SendFailed(error.value)] else []
  {
    hide MessageFor, Round.ResultsFor, Round.SendFrom, Round.AfterMarks;
  }

  lemma ErrorReports(r: Round, target: Target, message: Message, error: Option<string>, e: RoundError)
    requires FirstErrorCounts(r, 0, target, message, error)
    ensures (exists i: nat :: FirstToErr(r, 0, i, target, message)
                              && e == SendFailed(r.env.sendError(i, target, message).value))
       <==> error.Some? && e == SendFailed(error.value)
  {
    hide Serves;
    if error.Some? {
      var j: nat :| FirstToErr(r, 0, j, target, message) && error == r.env.sendError(j, target, message);
      forall i: nat | FirstToErr(r, 0, i, target, message) ensures i == j { }
    }
  }

  lemma SendReports(r: Round, rows: Rows, et: EligibleTarget, e: RoundError)
    requires WellKeyed(r.env, rows)
    ensures e in Part(r, rows, et).errors
       <==> && Due(r, rows, et)
            && exists i: nat :: FirstToErr(r, 0, i, et.target, OwedMessage(r, rows, et))
                                && e == SendFailed(r.env.sendError(i, et.target, OwedMessage(r, rows, et)).value)
  {
    var claim, message, jobs := r.ClaimTarget(rows, et), OwedMessage(r, rows, et), Owed(r, rows, et);
    ClaimsTheOwed(r, rows, et);
    hide Round.ClaimTarget, Due, OwedMessage, Owed, MessageFor, Round.ResultsFor, WellKeyed, Round.SendFrom,
        FirstToErr, FirstErrorCounts;
    if Due(r, rows, et) {
      BuildsTheOwed(r, rows, et);
      DeliverReports(r, claim.rows, et.target, r.Kept(claim), message);
      SendErrsFirst(r, 0, et.target, message, jobs);
      ErrorReports(r, et.target, message, r.SendFrom(0, et.target, message, jobs).1, e);
    }
  }

  lemma PartReports(r: Round, rows: Rows, et: EligibleTarget, e: RoundError)
    requires WellKeyed(r.env, rows)
    ensures e in PartErrors(r, rows, et) <==> Reports(r, rows, et, e)
  {
    ClaimReports(r, rows, et, e);
    SendReports(r, rows, et, e);
    hide Round.ClaimTarget, Part, Due, OwedMessage, WellKeyed, FirstUnclaimable, FirstToErr, Complaint;
  }

  lemma {:induction false} OwedAlone(
    r: Round, rows: Rows, other: Rows, targetId: string, provider: MarketProvider, symbols: seq<Symbol>, target: string)
    requires AgreeOff(rows, other, target) && RowTarget(targetId) != target
    ensures Unsent(r, rows, targetId, provider, symbols) == Unsent(r, other, targetId, provider, symbols)
  {
    if symbols != [] { OwedAlone(r, rows, other, targetId, provider, symbols[1..], target); }
  }

  lemma ReportsSame(r: Round, rows: Rows, other: Rows, et: EligibleTarget, e: RoundError)
    requires Owed(r, rows, et) == Owed(r, other, et)
    ensures Reports(r, rows, et, e) <==> Reports(r, other, et, e)
  {
    assert Due(r, rows, et) == Due(r, other, et) && OwedMessage(r, rows, et) == OwedMessage(r, other, et);
    hide Due, OwedMessage, FirstToErr, FirstUnclaimable, Complaint;
  }

  lemma ReportsAlone(r: Round, rows: Rows, first: EligibleTarget, et: EligibleTarget, e: RoundError)
    requires WellKeyed(r.env, rows) && RowTarget(et.target.id) != RowTarget(first.target.id)
    ensures Reports(r, Part(r, rows, first).rows, et, e) <==> Reports(r, rows, et, e)
  {
    hide Part, WellKeyed, Unsent, Reports;
    OwnPartStaysOwn(r, rows, first);
    OwedAlone(r, rows, Part(r, rows, first).rows, et.target.id, et.config.provider, et.config.symbols,
              RowTarget(first.target.id));
    ReportsSame(r, Part(r, rows, first).rows, rows, et, e);
  }

  lemma NaiveErrors(r: Round, rows: Rows, ets: seq<EligibleTarget>)
    requires ets != []
    ensures r.NaiveRound(rows, ets).errors
         == PartErrors(r, rows, ets[0]) + r.NaiveRound(Part(r, rows, ets[0]).rows, ets[1..]).errors
  {
    hide Round.ClaimSymbols, Round.Deliver;
  }

  lemma SomeReports(r: Round, rows: Rows, ets: seq<EligibleTarget>, e: RoundError)
    requires WellKeyed(r.env, rows) && DistinctTargets(ets) && ets != []
    ensures (exists et :: et in ets && Reports(r, rows, et, e))
       <==> || Reports(r, rows, ets[0], e)
            || exists et :: et in ets[1..] && Reports(r, Part(r, rows, ets[0]).rows, et, e)
  {
    hide Part, WellKeyed, Reports;
    forall et | et in ets[1..]
      ensures Reports(r, Part(r, rows, ets[0]).rows, et, e) <==> Reports(r, rows, et, e)
    {
      ReportsAlone(r, rows, ets[0], et, e);
    }
    assert ets == [ets[0]] + ets[1..];
  }

  lemma {:induction false} NaiveReports(r: Round, rows: Rows, ets: seq<EligibleTarget>, e: RoundError)
    requires WellKeyed(r.env, rows) && DistinctTargets(ets)
    ensures e in r.NaiveRound(rows, ets).errors <==> exists et :: et in ets && Reports(r, rows, et, e)
    decreases |ets|
  {
    if ets != [] {
      hide Part, WellKeyed, Reports, PartErrors, Round.ClaimSymbols, Round.Deliver;
      var own := Part(r, rows, ets[0]);
      NaiveErrors(r, rows, ets);
      PartReports(r, rows, ets[0], e);
      PartKeepsIds(r, rows, ets[0]);
      NaiveReports(r, own.rows, ets[1..], e);
      SomeReports(r, rows, ets, e);
    }
  }

  /**
   The errors of a round are exactly these: for each listed target whose load failed or whose provider is not
   enabled, that; for each eligible target, its first symbol that is unsupported or whose job cannot be created,
   or else what the first of its notifiers to err said.
   */
  lemma RoundReportsExactly(r: Round, rows: Rows, targets: seq<Target>, e: RoundError)
    requires WellKeyed(r.env, rows) && DistinctIds(targets)
    ensures e in RoundErrors(r, rows, targets)
       <==> || (exists t :: t in targets && FailsToTakePart(r, t) && e == WhyNot(r, t))
            || (exists et :: et in r.Eligible(targets).0 && Reports(r, rows, et, e))
  {
    var ets := r.Eligible(targets).0;
    EligibleAreDistinct(r, targets);
    SharedFetchRefinesNaive(r, rows, ets);
    NaiveReports(r, rows, ets, e);
    SameMembers(r.ThreePhases(rows, ets).errors, r.NaiveRound(rows, ets).errors);
    FilterReports(r, targets, e);
    hide Round.ThreePhases, Round.NaiveRound, Round.Eligible, WellKeyed, Reports;
  }

  lemma FilterReports(r: Round, targets: seq<Target>, e: RoundError)
    ensures e in r.Eligible(targets).1 <==> exists t :: t in targets && FailsToTakePart(r, t) && e == WhyNot(r, t)
  {
    var at, failed := EligibleExactly(r, targets);
    hide Round.Eligible, FailsToTakePart, WhyNot;
    var errors := r.Eligible(targets).1;
    if e in errors {
      var k :| 0 <= k < |errors| && errors[k] == e;
      assert failed[k] in failed;
    }
    forall t | t in targets && FailsToTakePart(r, t) && e == WhyNot(r, t) ensures e in errors {
      var i :| 0 <= i < |targets| && targets[i] == t;
      assert i in failed by { assert Failers(r, targets)(i); }
      var k :| 0 <= k < |failed| && failed[k] == i;
      assert errors[k] == e;
    }
  }
}
