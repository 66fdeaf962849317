/** Exactly which rows the first phase leaves behind, and for which targets it gives up and why. */
module ClaimProofs {
  import opened Prelude
  import opened Domain
  import opened Jobs
  import opened Rounds
  import opened RoundProofs
  import opened DeliveryProofs

  /** The database would take this job. */
  predicate Creatable(r: Round, provider: MarketProvider, symbol: Symbol) {
    symbol != "" && KnownProvider(provider) && r.period.Valid()
  }

  /** The symbol is supported and its job's creation is carried out and answered. */
  predicate Claimable(r: Round, targetId: string, provider: MarketProvider, symbol: Symbol) {
    && r.resolver.Supports(provider, symbol, r.period.interval)
    && Creatable(r, provider, symbol)
    && r.env.createFault(JobOf(r, targetId, provider, symbol)) == NoFault
  }

  predicate AllClaimable(r: Round, targetId: string, provider: MarketProvider, symbols: seq<Symbol>) {
    forall s :: s in symbols ==> Claimable(r, targetId, provider, s)
  }

  /** Every symbol before this one was claimed, and its creation is carried out, answered or not. */
  predicate Reached(r: Round, targetId: string, provider: MarketProvider, symbols: seq<Symbol>, i: nat) {
    && i < |symbols|
    && (forall j :: 0 <= j < i ==> Claimable(r, targetId, provider, symbols[j]))
    && r.resolver.Supports(provider, symbols[i], r.period.interval)
    && Creatable(r, provider, symbols[i])
    && r.env.createFault(JobOf(r, targetId, provider, symbols[i])) != BeforeCommit
  }

  /** The job is that of a symbol the claim reached. */
  ghost predicate Creates(r: Round, targetId: string, provider: MarketProvider, symbols: seq<Symbol>, key: JobKey) {
    exists i: nat :: Reached(r, targetId, provider, symbols, i) && key == JobOf(r, targetId, provider, symbols[i])
  }

  /** A job's row before it is marked: the stored one, or else a new pending one with a fresh id. */
  function Unmarked(r: Round, rows: Rows, key: JobKey): JobRow {
    if key in rows then rows[key]
    else JobRow(r.env.freshId(key), r.period.end, Pending, "", None, r.env.createdAt(key), r.env.createdAt(key))
  }

  /** What a claim that stops at its i-th symbol reports. */
  function Complaint(r: Round, targetId: string, provider: MarketProvider, symbol: Symbol): RoundError {
    if !r.resolver.Supports(provider, symbol, r.period.interval) then Unsupported(targetId, provider, symbol)
    else CreateFailed(JobOf(r, targetId, provider, symbol))
  }

  predicate FirstUnclaimable(r: Round, targetId: string, provider: MarketProvider, symbols: seq<Symbol>, i: nat) {
    && i < |symbols| && !Claimable(r, targetId, provider, symbols[i])
    && forall j :: 0 <= j < i ==> Claimable(r, targetId, provider, symbols[j])
  }

  lemma CreateOutcome(r: Round, rows: Rows, targetId: string, provider: MarketProvider, symbol: Symbol)
    requires WellKeyed(r.env, rows) && r.resolver.Supports(provider, symbol, r.period.interval)
    ensures var key := r.KeyOf(targetId, provider, symbol);
            var row, fault := r.NewRow(key), r.env.createFault(key);
            var after := AfterCreate(rows, key, row, fault);
            && key == JobOf(r, targetId, provider, symbol)
            && (CreateAnswer(rows, key, row, fault).Ok? <==> Claimable(r, targetId, provider, symbol))
            && after == if Creatable(r, provider, symbol) && fault != BeforeCommit && key !in rows
                        then rows[key := Unmarked(r, rows, key)] else rows
  {
  }

  /** The claim of these symbols ended at its first unclaimable one, and reports it. */
  ghost predicate StopsAtFirst(
    r: Round, targetId: string, provider: MarketProvider, symbols: seq<Symbol>, errors: seq<RoundError>)
  {
    exists i: nat :: FirstUnclaimable(r, targetId, provider, symbols, i)
                     && errors == [Complaint(r, targetId, provider, symbols[i])]
  }

  lemma StopsLater(
    r: Round, targetId: string, provider: MarketProvider, symbols: seq<Symbol>, errors: seq<RoundError>)
    requires symbols != [] && Claimable(r, targetId, provider, symbols[0])
    requires StopsAtFirst(r, targetId, provider, symbols[1..], errors)
    ensures StopsAtFirst(r, targetId, provider, symbols, errors)
  {
    var i: nat :| FirstUnclaimable(r, targetId, provider, symbols[1..], i)
                  && errors == [Complaint(r, targetId, provider, symbols[1..][i])];
    assert FirstUnclaimable(r, targetId, provider, symbols, i + 1);
  }

  /** A target is dropped exactly when one of its symbols is unclaimable, and the first such one is reported. */
  lemma {:induction false} DroppedExactly(
    r: Round, rows: Rows, targetId: string, provider: MarketProvider, symbols: seq<Symbol>)
    requires WellKeyed(r.env, rows)
    ensures var c := r.ClaimSymbols(rows, targetId, provider, symbols);
            && (c.dropped <==> !AllClaimable(r, targetId, provider, symbols))
            && (if c.dropped then StopsAtFirst(r, targetId, provider, symbols, c.errors) else c.errors == [])
    decreases |symbols|
  {
    if symbols != [] {
      assert symbols == [symbols[0]] + symbols[1..];
      if !Claimable(r, targetId, provider, symbols[0]) {
        assert FirstUnclaimable(r, targetId, provider, symbols, 0);
      }
      if r.resolver.Supports(provider, symbols[0], r.period.interval) {
        var key := r.KeyOf(targetId, provider, symbols[0]);
        var after := AfterCreate(rows, key, r.NewRow(key), r.env.createFault(key));
        CreateOutcome(r, rows, targetId, provider, symbols[0]);
        CreateGrows(r, rows, key);
        DroppedExactly(r, after, targetId, provider, symbols[1..]);
        hide AfterCreate, CreateAnswer, WellKeyed, Claimable, StopsAtFirst;
        var rest := r.ClaimSymbols(after, targetId, provider, symbols[1..]);
        if Claimable(r, targetId, provider, symbols[0]) && rest.dropped {
          StopsLater(r, targetId, provider, symbols, rest.errors);
        }
      }
    }
  }

  lemma {:induction false} CreatedExactly(
    r: Round, rows: Rows, targetId: string, provider: MarketProvider, symbols: seq<Symbol>, key: JobKey)
    requires WellKeyed(r.env, rows)
    ensures var c := r.ClaimSymbols(rows, targetId, provider, symbols);
            && (key in c.rows <==> key in rows || Creates(r, targetId, provider, symbols, key))
            && (key in c.rows ==> c.rows[key] == Unmarked(r, rows, key))
    decreases |symbols|
  {
    if symbols != [] && r.resolver.Supports(provider, symbols[0], r.period.interval) {
      var first := r.KeyOf(targetId, provider, symbols[0]);
      var after := AfterCreate(rows, first, r.NewRow(first), r.env.createFault(first));
      CreateOutcome(r, rows, targetId, provider, symbols[0]);
      CreateGrows(r, rows, first);
      CreatesFirst(r, targetId, provider, symbols, key);
      hide AfterCreate, CreateAnswer, WellKeyed, Creates;
      CreatedExactly(r, after, targetId, provider, symbols[1..], key);
    }
  }

  lemma CreatesFirst(r: Round, targetId: string, provider: MarketProvider, symbols: seq<Symbol>, key: JobKey)
    requires symbols != []
    ensures Creates(r, targetId, provider, symbols, key)
       <==> || (Reached(r, targetId, provider, symbols, 0) && key == JobOf(r, targetId, provider, symbols[0]))
            || (Claimable(r, targetId, provider, symbols[0]) && Creates(r, targetId, provider, symbols[1..], key))
  {
    hide Claimable, Creatable;
    if Creates(r, targetId, provider, symbols, key) {
      var i: nat :| Reached(r, targetId, provider, symbols, i) && key == JobOf(r, targetId, provider, symbols[i]);
      if i > 0 {
        assert Reached(r, targetId, provider, symbols[1..], i - 1);
      }
    }
    if Claimable(r, targetId, provider, symbols[0]) && Creates(r, targetId, provider, symbols[1..], key) {
      var i: nat :| Reached(r, targetId, provider, symbols[1..], i)
                    && key == JobOf(r, targetId, provider, symbols[1..][i]);
      assert Reached(r, targetId, provider, symbols, i + 1);
    }
  }
}
