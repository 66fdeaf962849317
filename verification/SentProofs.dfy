/** Sent is absorbing: over every run of rounds, a row recorded as sent never changes again. */
module SentProofs {
  import opened Prelude
  import opened Domain
  import opened Registry
  import opened Messages
  import opened Jobs
  import opened Rounds
  import opened RoundProofs

  /** Every message SendToTarget hands over is this one, for this target, to a notifier that serves it. */
  lemma {:induction false} SentOnlyWhereRouted(r: Round, i: nat, target: Target, message: Message, covers: seq<JobKey>)
    requires i <= |r.notifiers|
    ensures forall d :: d in r.SendFrom(i, target, message, covers).0 ==>
              && d.target == Some(target) && d.message == message && d.covers == covers
              && d.notifier < |r.notifiers|
              && (r.notifiers[d.notifier].serves.None? || r.notifiers[d.notifier].serves.value == target.chat)
    decreases |r.notifiers| - i
  {
    if i < |r.notifiers| { SentOnlyWhereRouted(r, i + 1, target, message, covers); }
  }

  lemma {:induction false} BroadcastsCover(r: Round, i: nat, message: Message, covers: seq<JobKey>)
    requires i <= |r.notifiers|
    ensures forall d :: d in r.BroadcastTo(i, message, covers).0 ==> d.message == message && d.covers == covers
  {
    if i > 0 { BroadcastsCover(r, i - 1, message, covers); }
  }

  /** Rows recorded as sent are untouched, and sent_at still agrees with the status. */
  ghost predicate SentKept(before: Rows, after: Rows) {
    && (forall k :: k in before && before[k].status == Sent ==> k in after && after[k] == before[k])
    && (SentAtAgrees(before) ==> SentAtAgrees(after))
  }

  ghost predicate NoneCoversSent(deliveries: seq<Delivery>, rows: Rows) {
    forall d, k :: d in deliveries && k in d.covers ==> !(k in rows && rows[k].status == Sent)
  }

  lemma GrowthKeepsSent(before: Rows, after: Rows, target: string)
    requires GrowsBy(before, after, target)
    ensures SentKept(before, after)
  {
  }

  lemma MarksKeepSent(r: Round, rows: Rows, pending: seq<PendingJob>, target: string, error: Option<string>)
    requires WellKeyed(r.env, rows) && Held(rows, pending, target)
    ensures SentKept(rows, r.AfterMarks(rows, Ids(pending), error))
  {
    var after := r.AfterMarks(rows, Ids(pending), error);
    forall k | k in rows && rows[k].id in Ids(pending) ensures rows[k].status != Sent {
      var p :| p in pending && p.id == rows[k].id;
      assert p.key == k;
    }
  }

  lemma KeysAreUnsent(rows: Rows, pending: seq<PendingJob>, target: string)
    requires Held(rows, pending, target)
    ensures forall k :: k in Keys(pending) ==> k in rows && rows[k].status != Sent
  {
    forall k | k in Keys(pending) ensures k in rows && rows[k].status != Sent {
      var i :| 0 <= i < |pending| && Keys(pending)[i] == k;
      assert pending[i] in pending;
    }
  }

  lemma DeliverKeepsSent(r: Round, rows: Rows, target: Target, pending: seq<PendingJob>)
    requires WellKeyed(r.env, rows) && Held(rows, pending, RowTarget(target.id))
    ensures var d := r.Deliver(rows, target, pending);
            && WellKeyed(r.env, d.rows) && SentKept(rows, d.rows) && NoneCoversSent(d.deliveries, rows)
  {
    if pending != [] && MessageFor(r.period, r.ResultsFor(pending)).Ok? {
      var message := MessageFor(r.period, r.ResultsFor(pending)).value;
      var error := r.SendFrom(0, target, message, Keys(pending)).1;
      MarksKeepIds(r, rows, Ids(pending), error);
      MarksKeepSent(r, rows, pending, RowTarget(target.id), error);
      SentOnlyWhereRouted(r, 0, target, message, Keys(pending));
      KeysAreUnsent(rows, pending, RowTarget(target.id));
    }
  }

  lemma NoneCoversSentEarlier(deliveries: seq<Delivery>, before: Rows, after: Rows)
    requires SentKept(before, after) && NoneCoversSent(deliveries, after)
    ensures NoneCoversSent(deliveries, before)
  {
  }

  lemma {:induction false} NaiveKeepsSent(r: Round, rows: Rows, ets: seq<EligibleTarget>)
    requires WellKeyed(r.env, rows)
    ensures var e := r.NaiveRound(rows, ets);
            && WellKeyed(r.env, e.rows) && SentKept(rows, e.rows) && NoneCoversSent(e.deliveries, rows)
    decreases |ets|
  {
    if ets != [] {
      var t := ets[0];
      var claim := r.ClaimTarget(rows, t);
      ClaimGrows(r, rows, t.target.id, t.config.provider, t.config.symbols);
      ClaimIsHeld(r, rows, t.target.id, t.config.provider, t.config.symbols);
      GrowthKeepsSent(rows, claim.rows, RowTarget(t.target.id));
      var d := r.Deliver(claim.rows, t.target, r.Kept(claim));
      DeliverKeepsSent(r, claim.rows, t.target, r.Kept(claim));
      NoneCoversSentEarlier(d.deliveries, rows, claim.rows);
      NaiveKeepsSent(r, d.rows, ets[1..]);
      NoneCoversSentEarlier(r.NaiveRound(d.rows, ets[1..]).deliveries, rows, d.rows);
    }
  }

  lemma LegacyKeepsSent(r: Round, rows: Rows, symbols: seq<Symbol>)
    requires WellKeyed(r.env, rows)
    ensures var e := r.LegacyRound(rows, symbols);
            && WellKeyed(r.env, e.rows) && SentKept(rows, e.rows) && NoneCoversSent(e.deliveries, rows)
  {
    var all := r.(resolver := Static(true));
    var claim := r.LegacyClaims(rows, symbols);
    ClaimGrows(all, rows, "", BINANCE, symbols);
    ClaimIsHeld(all, rows, "", BINANCE, symbols);
    GrowthKeepsSent(rows, claim.rows, RowTarget(""));
    if !claim.dropped && claim.pending != [] && MessageFor(r.period, r.LegacyResults(claim.pending)).Ok? {
      var message := MessageFor(r.period, r.LegacyResults(claim.pending)).value;
      var error := r.BroadcastTo(|r.notifiers|, message, Keys(claim.pending)).1;
      MarksKeepIds(r, claim.rows, Ids(claim.pending), error);
      MarksKeepSent(r, claim.rows, claim.pending, RowTarget(""), error);
      BroadcastsCover(r, |r.notifiers|, message, Keys(claim.pending));
      KeysAreUnsent(claim.rows, claim.pending, RowTarget(""));
    }
  }

  // ---------------------------------------------------------------- whole runs

  /** One execution: a target round, or the legacy round used when there are no targets. */
  datatype Execution =
    | OnTargets(round: Round, targets: seq<Target>)
    | OnLegacy(round: Round, symbols: seq<Symbol>)

  function Perform(rows: Rows, execution: Execution): Effects {
    match execution
    case OnTargets(r, targets) => r.ThreePhases(rows, r.Eligible(targets).0)
    case OnLegacy(r, symbols) => r.LegacyRound(rows, symbols)
  }

  function Run(rows: Rows, executions: seq<Execution>): Effects
    decreases |executions|
  {
    if executions == [] then Effects(rows, [], [])
    else
      var first := Perform(rows, executions[0]);
      var rest := Run(first.rows, executions[1..]);
      Effects(rest.rows, first.deliveries + rest.deliveries, first.errors + rest.errors)
  }

  /** Each execution draws fresh ids and lists each target once; everything else is arbitrary. */
  ghost predicate Sound(rows: Rows, executions: seq<Execution>)
    decreases |executions|
  {
    executions == [] ||
    (&& FreshFor(executions[0].round.env, rows)
     && (executions[0].OnTargets? ==> DistinctIds(executions[0].targets))
     && Sound(Perform(rows, executions[0]).rows, executions[1..]))
  }

  lemma PerformKeepsSent(rows: Rows, execution: Execution)
    requires UniqueIds(rows) && Sound(rows, [execution])
    ensures var e := Perform(rows, execution);
            UniqueIds(e.rows) && SentKept(rows, e.rows) && NoneCoversSent(e.deliveries, rows)
  {
    match execution
    case OnTargets(r, targets) =>
      EligibleAreDistinct(r, targets);
      SharedFetchRefinesNaive(r, rows, r.Eligible(targets).0);
      NaiveKeepsSent(r, rows, r.Eligible(targets).0);
    case OnLegacy(r, symbols) =>
      LegacyKeepsSent(r, rows, symbols);
  }

  lemma {:induction false} RunKeepsSent(rows: Rows, executions: seq<Execution>)
    requires UniqueIds(rows) && Sound(rows, executions)
    ensures var e := Run(rows, executions);
            UniqueIds(e.rows) && SentKept(rows, e.rows) && NoneCoversSent(e.deliveries, rows)
    decreases |executions|
  {
    if executions != [] {
      var first := Perform(rows, executions[0]);
      assert Sound(rows, [executions[0]]);
      PerformKeepsSent(rows, executions[0]);
      RunKeepsSent(first.rows, executions[1..]);
      NoneCoversSentEarlier(Run(first.rows, executions[1..]).deliveries, rows, first.rows);
    }
  }

  /**
   Over every run that starts from an empty table: whatever is recorded as sent at some point stays
   exactly as it is through every later execution, is in no later message, and sent_at is set exactly
   on the rows whose status is sent.
   */
  lemma SentIsAbsorbing(earlier: seq<Execution>, later: seq<Execution>)
    requires Sound(map[], earlier) && Sound(Run(map[], earlier).rows, later)
    ensures var mid := Run(map[], earlier).rows;
            var end := Run(mid, later);
            && SentAtAgrees(mid) && SentAtAgrees(end.rows)
            && (forall k :: k in mid && mid[k].status == Sent ==> k in end.rows && end.rows[k] == mid[k])
            && (forall d, k :: d in end.deliveries && k in d.covers ==> !(k in mid && mid[k].status == Sent))
  {
    RunKeepsSent(map[], earlier);
    RunKeepsSent(Run(map[], earlier).rows, later);
  }
}
