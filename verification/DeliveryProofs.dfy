/** What a round fetches, and what the messages it sends say. */
module DeliveryProofs {
  import opened Domain
  import opened Messages
  import opened Jobs
  import opened Rounds
  import opened RoundProofs

  // ---------------------------------------------------------------- which jobs are claimed

  /** The job of a symbol in this round's period; the legacy executor has a target of its own. */
  function JobOf(r: Round, targetId: string, provider: MarketProvider, symbol: Symbol): JobKey {
    JobKey(if targetId == "" then LEGACY_TARGET_ID else targetId, provider, symbol, r.period.interval, r.period.start)
  }

  /** The keys of the listed symbols whose rows are not recorded as sent, in the order of the list. */
  function Unsent(r: Round, rows: Rows, targetId: string, provider: MarketProvider, symbols: seq<Symbol>): seq<JobKey> {
    if symbols == [] then []
    else
      var key := JobOf(r, targetId, provider, symbols[0]);
      (if key in rows && rows[key].status == Sent then [] else [key])
      + Unsent(r, rows, targetId, provider, symbols[1..])
  }

  lemma {:induction false} UnsentIsStable(
    r: Round, before: Rows, after: Rows, targetId: string, provider: MarketProvider, symbols: seq<Symbol>)
    requires forall k :: k in before ==> k in after && after[k] == before[k]
    requires forall k :: k in after && k !in before ==> after[k].status != Sent
    ensures Unsent(r, before, targetId, provider, symbols) == Unsent(r, after, targetId, provider, symbols)
  {
    if symbols != [] { UnsentIsStable(r, before, after, targetId, provider, symbols[1..]); }
  }

  /** A target that is not dropped claims exactly the jobs of its symbols that are not yet sent. */
  lemma {:induction false} ClaimsTheUnsent(
    r: Round, rows: Rows, targetId: string, provider: MarketProvider, symbols: seq<Symbol>)
    requires WellKeyed(r.env, rows)
    ensures var c := r.ClaimSymbols(rows, targetId, provider, symbols);
            && (!c.dropped ==> Keys(c.pending) == Unsent(r, c.rows, targetId, provider, symbols))
            && (forall p :: p in c.pending ==> ValidJob(p.key, r.NewRow(p.key)) && p.key.symbol in symbols)
    decreases |symbols|
  {
    if symbols != [] && r.resolver.Supports(provider, symbols[0], r.period.interval) {
      var key := r.KeyOf(targetId, provider, symbols[0]);
      CreateGrows(r, rows, key);
      if CreateAnswer(rows, key, r.NewRow(key), r.env.createFault(key)).Ok? {
        var after := AfterCreate(rows, key, r.NewRow(key), r.env.createFault(key));
        CreatedRowIsHeld(r, rows, key);
        ClaimsTheUnsent(r, after, targetId, provider, symbols[1..]);
        ClaimGrows(r, after, targetId, provider, symbols[1..]);
      }
    }
  }

  /** A configuration all of whose symbols are supported is never dropped as unsupported. */
  lemma {:induction false} SupportedIsNotRejected(
    r: Round, rows: Rows, targetId: string, provider: MarketProvider, symbols: seq<Symbol>)
    requires forall s :: s in symbols ==> r.resolver.Supports(provider, s, r.period.interval)
    ensures forall e :: e in r.ClaimSymbols(rows, targetId, provider, symbols).errors ==> !e.Unsupported?
    decreases |symbols|
  {
    if symbols != [] {
      var key := r.KeyOf(targetId, provider, symbols[0]);
      SupportedIsNotRejected(r, AfterCreate(rows, key, r.NewRow(key), r.env.createFault(key)), targetId,
          provider, symbols[1..]);
    }
  }

  // ---------------------------------------------------------------- what is fetched

  /** This eligible target asks for the key, and holds a row for it that is not recorded as sent. */
  ghost predicate Wants(r: Round, rows: Rows, et: EligibleTarget, key: FetchKey) {
    && key.provider == et.config.provider && key.symbol in et.config.symbols
    && r.resolver.Supports(key.provider, key.symbol, r.period.interval)
    && var job := r.KeyOf(et.target.id, key.provider, key.symbol);
       job in rows && rows[job].status != Sent
  }

  lemma {:induction false} NeededIsWantedByOne(
    r: Round, rows: Rows, targetId: string, provider: MarketProvider, symbols: seq<Symbol>)
    requires WellKeyed(r.env, rows)
    ensures var c := r.ClaimSymbols(rows, targetId, provider, symbols);
            forall key :: key in c.needed ==>
              && key.provider == provider && key.symbol in symbols
              && r.resolver.Supports(provider, key.symbol, r.period.interval)
              && r.KeyOf(targetId, provider, key.symbol) in c.rows
              && c.rows[r.KeyOf(targetId, provider, key.symbol)].status != Sent
    decreases |symbols|
  {
    if symbols != [] && r.resolver.Supports(provider, symbols[0], r.period.interval) {
      var key := r.KeyOf(targetId, provider, symbols[0]);
      CreateGrows(r, rows, key);
      if CreateAnswer(rows, key, r.NewRow(key), r.env.createFault(key)).Ok? {
        var after := AfterCreate(rows, key, r.NewRow(key), r.env.createFault(key));
        CreatedRowIsHeld(r, rows, key);
        NeededIsWantedByOne(r, after, targetId, provider, symbols[1..]);
        ClaimGrows(r, after, targetId, provider, symbols[1..]);
      }
    }
  }

  lemma {:induction false} ClaimAllGrows(r: Round, rows: Rows, ets: seq<EligibleTarget>)
    requires WellKeyed(r.env, rows)
    ensures forall k :: k in rows ==> k in r.ClaimAll(rows, ets).rows && r.ClaimAll(rows, ets).rows[k] == rows[k]
    decreases |ets|
  {
    if ets != [] {
      var t := ets[0];
      ClaimGrows(r, rows, t.target.id, t.config.provider, t.config.symbols);
      ClaimAllGrows(r, r.ClaimTarget(rows, t).rows, ets[1..]);
    }
  }

  lemma {:induction false} NeededIsWanted(r: Round, rows: Rows, ets: seq<EligibleTarget>, key: FetchKey)
    requires WellKeyed(r.env, rows) && key in r.ClaimAll(rows, ets).needed
    ensures exists et :: et in ets && Wants(r, r.ClaimAll(rows, ets).rows, et, key)
    decreases |ets|
  {
    var t, c := ets[0], r.ClaimAll(rows, ets);
    var claim := r.ClaimTarget(rows, t);
    ClaimGrows(r, rows, t.target.id, t.config.provider, t.config.symbols);
    if key in claim.needed {
      NeededIsWantedByOne(r, rows, t.target.id, t.config.provider, t.config.symbols);
      ClaimAllGrows(r, claim.rows, ets[1..]);
      assert Wants(r, c.rows, t, key);
    } else {
      NeededIsWanted(r, claim.rows, ets[1..], key);
      var et :| et in ets[1..] && Wants(r, c.rows, et, key);
      assert et in ets;
    }
  }

  lemma {:induction false} PendingIsFetched(r: Round, rows: Rows, ets: seq<EligibleTarget>, i: nat)
    requires WellKeyed(r.env, rows) && i < |ets|
    ensures var c := r.ClaimAll(rows, ets);
            forall p :: p in c.pending[i] ==>
              FetchKey(p.key.provider, p.key.symbol) in c.needed && p.key.provider == ets[i].config.provider
    decreases |ets|
  {
    var t := ets[0];
    ClaimGrows(r, rows, t.target.id, t.config.provider, t.config.symbols);
    if i == 0 {
      ClaimIsHeld(r, rows, t.target.id, t.config.provider, t.config.symbols);
    } else {
      PendingIsFetched(r, r.ClaimTarget(rows, t).rows, ets[1..], i - 1);
    }
  }

  /**
   A key is fetched only if some eligible target wants it, from a provider that is enabled; and every
   job kept for delivery has the key of its own target's provider and symbol fetched, so the lookup in
   phase 3 never misses.
   */
  lemma FetchesExactlyTheWanted(r: Round, rows: Rows, ets: seq<EligibleTarget>)
    requires WellKeyed(r.env, rows)
    ensures var c := r.ClaimAll(rows, ets);
            && (forall key :: key in c.needed ==>
                  r.resolver.Get(key.provider) && exists et :: et in ets && Wants(r, c.rows, et, key))
            && (forall i, p :: 0 <= i < |ets| && p in c.pending[i] ==>
                  FetchKey(p.key.provider, p.key.symbol) in c.needed && p.key.provider == ets[i].config.provider)
  {
    forall key | key in r.ClaimAll(rows, ets).needed
      ensures r.resolver.Get(key.provider) && exists et :: et in ets && Wants(r, r.ClaimAll(rows, ets).rows, et, key)
    {
      NeededIsWanted(r, rows, ets, key);
    }
    forall i | 0 <= i < |ets|
      ensures forall p :: p in r.ClaimAll(rows, ets).pending[i] ==>
                FetchKey(p.key.provider, p.key.symbol) in r.ClaimAll(rows, ets).needed
                  && p.key.provider == ets[i].config.provider
    {
      PendingIsFetched(r, rows, ets, i);
    }
  }

  // ---------------------------------------------------------------- what a message says

  /** The market answers about the symbol it was asked for. */
  ghost predicate Honest(r: Round) {
    forall p, s :: r.env.kline(p, s).Some? ==> r.env.kline(p, s).value.symbol == s
  }

  /** No result lacks a symbol: an available one comes from a valid candle, the rest name their job. */
  lemma BuildingNeverFails(r: Round, pending: seq<PendingJob>)
    requires pending != [] && forall p :: p in pending ==>
               ValidJob(p.key, r.NewRow(p.key)) && p.key.interval == r.period.interval
                 && p.key.periodStart == r.period.start
    ensures MessageFor(r.period, r.ResultsFor(pending)).Ok?
  {
    assert pending[0] in pending;
    assert r.period.Valid();
    forall i | 0 <= i < |pending| ensures r.ResultsFor(pending)[i].Symbol() != "" {
      assert pending[i] in pending;
    }
  }
}
