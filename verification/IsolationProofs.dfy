/** Failure isolation: what goes wrong for one target does not reach any other target. */
module IsolationProofs {
  import opened Prelude
  import opened Domain
  import opened Messages
  import opened Jobs
  import opened Rounds
  import opened RoundProofs
  import opened SentProofs

  ghost predicate AgreeOff(rows1: Rows, rows2: Rows, target: string) {
    forall k: JobKey :: k.target != target ==>
      (k in rows1 <==> k in rows2) && (k in rows1 ==> rows1[k] == rows2[k])
  }

  /** Two environments alike but for one target's configuration load, job creations and sends. */
  ghost predicate DifferOnlyAt(e1: Env, e2: Env, target: string) {
    && (forall id :: RowTarget(id) != target ==> e1.config(id) == e2.config(id))
    && (forall k: JobKey :: k.target != target ==> e1.createFault(k) == e2.createFault(k))
    && (forall i, t: Target, m :: RowTarget(t.id) != target ==> e1.sendError(i, t, m) == e2.sendError(i, t, m))
    && (forall k :: e1.freshId(k) == e2.freshId(k) && e1.createdAt(k) == e2.createdAt(k))
    && (forall p, s :: e1.kline(p, s) == e2.kline(p, s))
    && (forall id :: e1.markLands(id) == e2.markLands(id))
    && (forall id :: e1.markedAt(id) == e2.markedAt(id) && e1.sentAt(id) == e2.sentAt(id))
  }

  ghost predicate Twins(r1: Round, r2: Round, target: string) {
    && r1.resolver == r2.resolver && r1.notifiers == r2.notifiers && r1.period == r2.period
    && DifferOnlyAt(r1.env, r2.env, target)
  }

  /** The messages of a log that are not for this target. */
  function ForOthers(deliveries: seq<Delivery>, target: string): seq<Delivery> {
    if deliveries == [] then []
    else (if deliveries[0].target.Some?
      && RowTarget(deliveries[0].target.value.id) == target then [] else [deliveries[0]])
         + ForOthers(deliveries[1..], target)
  }

  lemma {:induction false} ForOthersConcat(a: seq<Delivery>, b: seq<Delivery>, target: string)
    ensures ForOthers(a + b, target) == ForOthers(a, target) + ForOthers(b, target)
  {
    if a == [] {
      assert a + b == b;
    } else {
      assert (a + b)[1..] == a[1..] + b;
      ForOthersConcat(a[1..], b, target);
    }
  }

  lemma {:induction false} NoneForOthers(deliveries: seq<Delivery>, target: string)
    requires forall d :: d in deliveries ==> d.target.Some? && RowTarget(d.target.value.id) == target
    ensures ForOthers(deliveries, target) == []
  {
    if deliveries != [] {
      assert deliveries[0] in deliveries;
      NoneForOthers(deliveries[1..], target);
    }
  }

  // ---------------------------------------------------------------- the troubled target itself

  lemma OwnClaimsStayOwn(rows: Rows, after: Rows, target: string)
    requires GrowsBy(rows, after, target)
    ensures AgreeOff(rows, after, target)
  {
  }

  lemma OwnDeliveryStaysOwn(r: Round, rows: Rows, t: Target, pending: seq<PendingJob>)
    requires WellKeyed(r.env, rows) && Held(rows, pending, RowTarget(t.id))
    ensures AgreeOff(rows, r.Deliver(rows, t, pending).rows, RowTarget(t.id))
    ensures ForOthers(r.Deliver(rows, t, pending).deliveries, RowTarget(t.id)) == []
  {
    HeldIsSeparated(r.env, rows, pending, RowTarget(t.id));
    if pending != [] && MessageFor(r.period, r.ResultsFor(pending)).Ok? {
      var message := MessageFor(r.period, r.ResultsFor(pending)).value;
      SentOnlyWhereRouted(r, 0, t, message, Keys(pending));
      NoneForOthers(r.SendFrom(0, t, message, Keys(pending)).0, RowTarget(t.id));
    }
  }

  /** One target's part of the naive round. */
  function Part(r: Round, rows: Rows, et: EligibleTarget): Effects {
    var claim := r.ClaimTarget(rows, et);
    r.Deliver(claim.rows, et.target, r.Kept(claim))
  }

  lemma PartKeepsIds(r: Round, rows: Rows, et: EligibleTarget)
    requires WellKeyed(r.env, rows)
    ensures WellKeyed(r.env, Part(r, rows, et).rows)
  {
    ClaimGrows(r, rows, et.target.id, et.config.provider, et.config.symbols);
    ClaimIsHeld(r, rows, et.target.id, et.config.provider, et.config.symbols);
    DeliverKeepsSent(r, r.ClaimTarget(rows, et).rows, et.target, r.Kept(r.ClaimTarget(rows, et)));
  }

  lemma OwnPartStaysOwn(r: Round, rows: Rows, et: EligibleTarget)
    requires WellKeyed(r.env, rows)
    ensures var target := RowTarget(et.target.id);
            && AgreeOff(rows, Part(r, rows, et).rows, target)
            && ForOthers(Part(r, rows, et).deliveries, target) == []
  {
    var claim := r.ClaimTarget(rows, et);
    ClaimGrows(r, rows, et.target.id, et.config.provider, et.config.symbols);
    ClaimIsHeld(r, rows, et.target.id, et.config.provider, et.config.symbols);
    OwnClaimsStayOwn(rows, claim.rows, RowTarget(et.target.id));
    OwnDeliveryStaysOwn(r, claim.rows, et.target, r.Kept(claim));
  }

  // ---------------------------------------------------------------- every other target

  lemma CreateAgrees(r1: Round, r2: Round, rows1: Rows, rows2: Rows, key: JobKey, target: string)
    requires Twins(r1, r2, target) && AgreeOff(rows1, rows2, target) && key.target != target
    requires WellKeyed(r1.env, rows1) && WellKeyed(r2.env, rows2)
    ensures CreateAnswer(rows1, key, r1.NewRow(key), r1.env.createFault(key))
         == CreateAnswer(rows2, key, r2.NewRow(key), r2.env.createFault(key))
    ensures AgreeOff(AfterCreate(rows1, key, r1.NewRow(key), r1.env.createFault(key)),
                     AfterCreate(rows2, key, r2.NewRow(key), r2.env.createFault(key)), target)
  {
  }

  lemma {:induction false} ClaimAgrees(
    r1: Round, r2: Round, rows1: Rows, rows2: Rows, id: string, provider: MarketProvider, symbols: seq<Symbol>,
        target: string)
    requires Twins(r1, r2, target) && AgreeOff(rows1, rows2, target) && RowTarget(id) != target
    requires WellKeyed(r1.env, rows1) && WellKeyed(r2.env, rows2)
    ensures var c1, c2 := r1.ClaimSymbols(rows1, id, provider, symbols), r2.ClaimSymbols(rows2, id, provider, symbols);
            && AgreeOff(c1.rows, c2.rows, target) && c1 == c2.(rows := c1.rows)
    decreases |symbols|
  {
    if symbols != [] && r1.resolver.Supports(provider, symbols[0], r1.period.interval) {
      var key := r1.KeyOf(id, provider, symbols[0]);
      hide DifferOnlyAt, FreshFor, ValidJob, IdTaken, UniqueIds, AfterCreate;
      CreateAgrees(r1, r2, rows1, rows2, key, target);
      CreateGrows(r1, rows1, key);
      CreateGrows(r2, rows2, key);
      if CreateAnswer(rows1, key, r1.NewRow(key), r1.env.createFault(key)).Ok? {
        ClaimAgrees(r1, r2, AfterCreate(rows1, key, r1.NewRow(key), r1.env.createFault(key)),
                    AfterCreate(rows2, key, r2.NewRow(key), r2.env.createFault(key)), id, provider,
                        symbols[1..], target);
      }
    }
  }

  lemma {:induction false} SendAgrees(
    r1: Round, r2: Round, i: nat, t: Target, message: Message, covers: seq<JobKey>, target: string)
    requires Twins(r1, r2, target) && RowTarget(t.id) != target && i <= |r1.notifiers|
    ensures r1.SendFrom(i, t, message, covers) == r2.SendFrom(i, t, message, covers)
    decreases |r1.notifiers| - i
  {
    if i < |r1.notifiers| { SendAgrees(r1, r2, i + 1, t, message, covers, target); }
  }

  lemma MarksAgree(r1: Round, r2: Round, rows1: Rows, rows2: Rows, ids: set<nat>, error: Option<string>, target: string)
    requires Twins(r1, r2, target) && AgreeOff(rows1, rows2, target)
    ensures AgreeOff(r1.AfterMarks(rows1, ids, error), r2.AfterMarks(rows2, ids, error), target)
  {
    var m1, m2 := r1.AfterMarks(rows1, ids, error), r2.AfterMarks(rows2, ids, error);
    forall k: JobKey | k.target != target && k in m1 ensures m1[k] == m2[k] {
      assert rows1[k] == rows2[k];
    }
  }

  lemma ResultsAgree(r1: Round, r2: Round, pending: seq<PendingJob>, target: string)
    requires Twins(r1, r2, target)
    ensures r1.ResultsFor(pending) == r2.ResultsFor(pending)
  {
    forall i | 0 <= i < |pending| ensures r1.ResultsFor(pending)[i] == r2.ResultsFor(pending)[i] {
      var key := FetchKey(pending[i].key.provider, pending[i].key.symbol);
      assert r1.Fetched(key) == r2.Fetched(key);
    }
  }

  lemma DeliverAgrees(
    r1: Round, r2: Round, rows1: Rows, rows2: Rows, t: Target, pending: seq<PendingJob>, target: string)
    requires Twins(r1, r2, target) && AgreeOff(rows1, rows2, target) && RowTarget(t.id) != target
    ensures var d1, d2 := r1.Deliver(rows1, t, pending), r2.Deliver(rows2, t, pending);
            AgreeOff(d1.rows, d2.rows, target) && d1.deliveries == d2.deliveries
  {
    ResultsAgree(r1, r2, pending, target);
    var built := MessageFor(r1.period, r1.ResultsFor(pending));
    if pending != [] && built.Ok? {
      SendAgrees(r1, r2, 0, t, built.value, Keys(pending), target);
      MarksAgree(r1, r2, rows1, rows2, Ids(pending), r1.SendFrom(0, t, built.value, Keys(pending)).1, target);
    }
  }

  lemma PartAgrees(r1: Round, r2: Round, rows1: Rows, rows2: Rows, et: EligibleTarget, target: string)
    requires Twins(r1, r2, target) && AgreeOff(rows1, rows2, target) && RowTarget(et.target.id) != target
    requires WellKeyed(r1.env, rows1) && WellKeyed(r2.env, rows2)
    ensures var d1, d2 := Part(r1, rows1, et), Part(r2, rows2, et);
            AgreeOff(d1.rows, d2.rows, target) && d1.deliveries == d2.deliveries
  {
    ClaimAgrees(r1, r2, rows1, rows2, et.target.id, et.config.provider, et.config.symbols, target);
    DeliverAgrees(r1, r2, r1.ClaimTarget(rows1, et).rows, r2.ClaimTarget(rows2, et).rows, et.target,
                  r1.Kept(r1.ClaimTarget(rows1, et)), target);
  }

  // ---------------------------------------------------------------- the round

  /** One listed target's part: nothing, if it is not eligible. */
  function PartOf(r: Round, rows: Rows, t: Target): Effects {
    var e := r.EligibleOne(t).0;
    if e == [] then Effects(rows, [], []) else Part(r, rows, e[0])
  }

  lemma NaiveByTarget(r: Round, rows: Rows, targets: seq<Target>)
    requires targets != []
    ensures var e, p := r.NaiveRound(rows, r.Eligible(targets).0), PartOf(r, rows, targets[0]);
            var rest := r.NaiveRound(p.rows, r.Eligible(targets[1..]).0);
            e.rows == rest.rows && e.deliveries == p.deliveries + rest.deliveries
  {
    var rest := r.Eligible(targets[1..]).0;
    var one := r.EligibleOne(targets[0]).0;
    if one == [] {
      assert one + rest == rest;
    } else {
      assert (one + rest)[1..] == rest;
    }
  }

  lemma {:induction false} NaiveIsolates(
    r1: Round, r2: Round, rows1: Rows, rows2: Rows, targets: seq<Target>, target: string)
    requires Twins(r1, r2, target) && AgreeOff(rows1, rows2, target)
    requires WellKeyed(r1.env, rows1) && WellKeyed(r2.env, rows2)
    ensures var e1, e2 := r1.NaiveRound(rows1, r1.Eligible(targets).0), r2.NaiveRound(rows2, r2.Eligible(targets).0);
            AgreeOff(e1.rows, e2.rows, target) && ForOthers(e1.deliveries, target) == ForOthers(e2.deliveries, target)
    decreases |targets|
  {
    if targets != [] {
      var t := targets[0];
      NaiveByTarget(r1, rows1, targets);
      NaiveByTarget(r2, rows2, targets);
      var p1, p2 := PartOf(r1, rows1, t), PartOf(r2, rows2, t);
      PartsIsolate(r1, r2, rows1, rows2, t, target);
      NaiveIsolates(r1, r2, p1.rows, p2.rows, targets[1..], target);
      ForOthersConcat(p1.deliveries, r1.NaiveRound(p1.rows, r1.Eligible(targets[1..]).0).deliveries, target);
      ForOthersConcat(p2.deliveries, r2.NaiveRound(p2.rows, r2.Eligible(targets[1..]).0).deliveries, target);
    }
  }

  lemma PartOfKeepsIds(r: Round, rows: Rows, t: Target)
    requires WellKeyed(r.env, rows)
    ensures WellKeyed(r.env, PartOf(r, rows, t).rows)
  {
    if r.EligibleOne(t).0 != [] { PartKeepsIds(r, rows, r.EligibleOne(t).0[0]); }
  }

  lemma OwnPartOfStaysOwn(r: Round, rows: Rows, t: Target)
    requires WellKeyed(r.env, rows)
    ensures AgreeOff(rows, PartOf(r, rows, t).rows, RowTarget(t.id))
    ensures ForOthers(PartOf(r, rows, t).deliveries, RowTarget(t.id)) == []
  {
    if r.EligibleOne(t).0 != [] { OwnPartStaysOwn(r, rows, r.EligibleOne(t).0[0]); }
  }

  lemma PartsIsolate(r1: Round, r2: Round, rows1: Rows, rows2: Rows, t: Target, target: string)
    requires Twins(r1, r2, target) && AgreeOff(rows1, rows2, target)
    requires WellKeyed(r1.env, rows1) && WellKeyed(r2.env, rows2)
    ensures var p1, p2 := PartOf(r1, rows1, t), PartOf(r2, rows2, t);
            && WellKeyed(r1.env, p1.rows) && WellKeyed(r2.env, p2.rows)
            && AgreeOff(p1.rows, p2.rows, target)
            && ForOthers(p1.deliveries, target) == ForOthers(p2.deliveries, target)
  {
    PartOfKeepsIds(r1, rows1, t);
    PartOfKeepsIds(r2, rows2, t);
    if RowTarget(t.id) == target {
      OwnPartOfStaysOwn(r1, rows1, t);
      OwnPartOfStaysOwn(r2, rows2, t);
    } else {
      assert r1.EligibleOne(t) == r2.EligibleOne(t);
      if r1.EligibleOne(t).0 != [] { PartAgrees(r1, r2, rows1, rows2, r1.EligibleOne(t).0[0], target); }
    }
  }

  /**
   Two rounds from the same rows whose environments differ only in one target's configuration load,
   job creations and sends agree on every other target's job rows and on every other target's messages.
   */
  lemma FailuresAreIsolated(r1: Round, r2: Round, rows: Rows, targets: seq<Target>, target: string)
    requires Twins(r1, r2, target) && DistinctIds(targets)
    requires WellKeyed(r1.env, rows) && WellKeyed(r2.env, rows)
    ensures var e1, e2 := r1.ThreePhases(rows, r1.Eligible(targets).0), r2.ThreePhases(rows, r2.Eligible(targets).0);
            && AgreeOff(e1.rows, e2.rows, target)
            && ForOthers(e1.deliveries, target) == ForOthers(e2.deliveries, target)
  {
    EligibleAreDistinct(r1, targets);
    EligibleAreDistinct(r2, targets);
    SharedFetchRefinesNaive(r1, rows, r1.Eligible(targets).0);
    SharedFetchRefinesNaive(r2, rows, r2.Eligible(targets).0);
    NaiveIsolates(r1, r2, rows, rows, targets, target);
  }
}
