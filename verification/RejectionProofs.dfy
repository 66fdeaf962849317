/** When a round drops a target because its provider does not support one of its symbols. */
module RejectionProofs {
  import opened Prelude
  import opened Domain
  import opened Jobs
  import opened Rounds
  import opened RoundProofs

  /** All errors of a round, the filter's first. */
  function RoundErrors(r: Round, rows: Rows, targets: seq<Target>): seq<RoundError> {
    r.Eligible(targets).1 + r.ThreePhases(rows, r.Eligible(targets).0).errors
  }

  /** One of the errors says that this target was dropped as unsupported. */
  ghost predicate Names(errors: seq<RoundError>, id: string) {
    exists e :: e in errors && e.Unsupported? && e.target == id
  }

  predicate AllSupported(r: Round, provider: MarketProvider, symbols: seq<Symbol>) {
    forall s :: s in symbols ==> r.resolver.Supports(provider, s, r.period.interval)
  }

  predicate Supported(r: Round, et: EligibleTarget) {
    AllSupported(r, et.config.provider, et.config.symbols)
  }

  /** An eligible target with this id has an unsupported symbol. */
  ghost predicate Unsupports(r: Round, ets: seq<EligibleTarget>, id: string) {
    exists et :: et in ets && et.target.id == id && !Supported(r, et)
  }

  /** The database carries out every job creation. */
  ghost predicate CreatesLand(env: Env) {
    forall k: JobKey :: env.createFault(k) == NoFault
  }

  /** The jobs of this target pass validation. */
  predicate Creatable(et: EligibleTarget) {
    KnownProvider(et.config.provider) && "" !in et.config.symbols
  }

  lemma NamesConcat(a: seq<RoundError>, b: seq<RoundError>, id: string)
    ensures Names(a + b, id) <==> Names(a, id) || Names(b, id)
  {
    if Names(a, id) {
      var e :| e in a && e.Unsupported? && e.target == id;
      assert e in a + b;
    }
    if Names(b, id) {
      var e :| e in b && e.Unsupported? && e.target == id;
      assert e in a + b;
    }
  }

  lemma CreateSucceeds(r: Round, rows: Rows, key: JobKey)
    requires WellKeyed(r.env, rows) && CreatesLand(r.env) && ValidJob(key, r.NewRow(key))
    ensures CreateAnswer(rows, key, r.NewRow(key), r.env.createFault(key)).Ok?
  {
  }

  /** One target's claim reports an unsupported symbol exactly when there is one, if its jobs can be created. */
  lemma {:induction false} ClaimNames(
    r: Round, rows: Rows, targetId: string, provider: MarketProvider, symbols: seq<Symbol>, id: string)
    requires WellKeyed(r.env, rows)
    ensures var errors := r.ClaimSymbols(rows, targetId, provider, symbols).errors;
            var bad := targetId == id && !AllSupported(r, provider, symbols);
            && (Names(errors, id) ==> bad)
            && (bad && CreatesLand(r.env) && r.period.Valid() && KnownProvider(provider) && "" !in symbols ==>
                 Names(errors, id))
    decreases |symbols|
  {
    if symbols != [] {
      if !r.resolver.Supports(provider, symbols[0], r.period.interval) {
        assert symbols[0] in symbols;
        assert Unsupported(targetId, provider, symbols[0]) in r.ClaimSymbols(rows, targetId, provider, symbols).errors;
      } else {
        var key := r.KeyOf(targetId, provider, symbols[0]);
        var after := AfterCreate(rows, key, r.NewRow(key), r.env.createFault(key));
        CreateGrows(r, rows, key);
        ClaimNames(r, after, targetId, provider, symbols[1..], id);
        if CreatesLand(r.env) && r.period.Valid() && KnownProvider(provider) && "" !in symbols {
          CreateSucceeds(r, rows, key);
        }
      }
    }
  }

  lemma {:induction false} ClaimAllNames(r: Round, rows: Rows, ets: seq<EligibleTarget>, id: string)
    requires WellKeyed(r.env, rows)
    ensures Names(r.ClaimAll(rows, ets).errors, id) ==> Unsupports(r, ets, id)
    ensures CreatesLand(r.env) && r.period.Valid() && (forall et :: et in ets ==> Creatable(et)) ==>
              (Unsupports(r, ets, id) ==> Names(r.ClaimAll(rows, ets).errors, id))
    decreases |ets|
  {
    if ets != [] {
      var et := ets[0];
      var claim := r.ClaimTarget(rows, et);
      var rest := r.ClaimAll(claim.rows, ets[1..]);
      ClaimGrows(r, rows, et.target.id, et.config.provider, et.config.symbols);
      ClaimNames(r, rows, et.target.id, et.config.provider, et.config.symbols, id);
      ClaimAllNames(r, claim.rows, ets[1..], id);
      NamesConcat(claim.errors, rest.errors, id);
      hide Round.ClaimSymbols, WellKeyed, Names;
      assert Unsupports(r, ets, id) <==> (et.target.id == id && !Supported(r, et)) || Unsupports(r, ets[1..], id);
    }
  }

  lemma {:induction false} DeliveriesNameNone(
    r: Round, rows: Rows, ets: seq<EligibleTarget>, pending: seq<seq<PendingJob>>, id: string)
    requires |ets| == |pending|
    ensures !Names(r.DeliverAll(rows, ets, pending).errors, id)
    decreases |ets|
  {
    if ets != [] {
      var d := r.Deliver(rows, ets[0].target, pending[0]);
      DeliveriesNameNone(r, d.rows, ets[1..], pending[1..], id);
      NamesConcat(d.errors, r.DeliverAll(d.rows, ets[1..], pending[1..]).errors, id);
    }
  }

  /** The filter reports loads and providers, never symbols; and it keeps what EligibleOne keeps. */
  lemma {:induction false} FilterNamesNone(r: Round, targets: seq<Target>, id: string)
    ensures !Names(r.Eligible(targets).1, id)
    ensures forall et :: et in r.Eligible(targets).0 <==> exists t :: t in targets && et in r.EligibleOne(t).0
    decreases |targets|
  {
    if targets != [] {
      var (one, rest) := (r.EligibleOne(targets[0]), r.Eligible(targets[1..]));
      FilterNamesNone(r, targets[1..], id);
      NamesConcat(one.1, rest.1, id);
      assert r.Eligible(targets).0 == one.0 + rest.0;
      forall et | et in r.Eligible(targets).0 ensures exists t :: t in targets && et in r.EligibleOne(t).0 {
        if et in one.0 { assert targets[0] in targets; }
      }
      forall et, t | t in targets && et in r.EligibleOne(t).0 ensures et in r.Eligible(targets).0 {
        if t != targets[0] { assert t in targets[1..]; }
      }
    }
  }

  /**
   A round names a target as unsupported only if the target is eligible with an unsupported symbol; and
   then it does, when the database carries out the job creations.
   */
  lemma RoundNamesExactly(r: Round, rows: Rows, targets: seq<Target>, id: string)
    requires WellKeyed(r.env, rows)
    ensures Names(RoundErrors(r, rows, targets), id) ==> Unsupports(r, r.Eligible(targets).0, id)
    ensures CreatesLand(r.env) && r.period.Valid() && (forall et :: et in r.Eligible(targets).0 ==> Creatable(et)) ==>
              (Unsupports(r, r.Eligible(targets).0, id) ==> Names(RoundErrors(r, rows, targets), id))
  {
    var ets := r.Eligible(targets).0;
    var claims := r.ClaimAll(rows, ets);
    ClaimAllNames(r, rows, ets, id);
    FilterNamesNone(r, targets, id);
    DeliveriesNameNone(r, claims.rows, ets, claims.pending, id);
    NamesConcat(claims.errors, r.DeliverAll(claims.rows, ets, claims.pending).errors, id);
    NamesConcat(r.Eligible(targets).1, r.ThreePhases(rows, ets).errors, id);
    hide Names, Unsupports, Round.ClaimAll, Round.DeliverAll, Round.Eligible, WellKeyed;
  }

  /** The filter and the support check look at a target's id alone. */
  lemma SameIdSameConfig(r: Round, t: Target, u: Target)
    requires t.id == u.id
    ensures |r.EligibleOne(t).0| == |r.EligibleOne(u).0| <= 1
    ensures r.EligibleOne(t).0 != [] ==>
              && r.EligibleOne(t).0[0].target == t && r.EligibleOne(u).0[0].target == u
              && r.EligibleOne(t).0[0].config == r.EligibleOne(u).0[0].config
  {
  }

  lemma UnsupportsOwn(r: Round, targets: seq<Target>, t: Target)
    requires t in targets
    ensures Unsupports(r, r.Eligible(targets).0, t.id)
            <==> r.EligibleOne(t).0 != [] && !Supported(r, r.EligibleOne(t).0[0])
  {
    FilterNamesNone(r, targets, t.id);
    var ets, own := r.Eligible(targets).0, r.EligibleOne(t).0;
    SameIdSameConfig(r, t, t);
    hide Round.EligibleOne, Round.Eligible;
    if own != [] && !Supported(r, own[0]) { assert own[0] in ets; }
    if Unsupports(r, ets, t.id) {
      var et :| et in ets && et.target.id == t.id && !Supported(r, et);
      var u :| u in targets && et in r.EligibleOne(u).0;
      SameIdSameConfig(r, u, u);
      SameIdSameConfig(r, t, u);
    }
  }
}
