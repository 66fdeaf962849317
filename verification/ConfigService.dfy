/** Validation and storage of configurations: internal/service/configuration. */
module ConfigServices {
  import opened Prelude
  import opened Ordering
  import opened Domain
  import opened Registry
  import opened Configs

  /** normalize is TrimSpace then ToUpper; trim is TrimSpace: Unicode tables are not modelled. */
  datatype Settings = Settings(
    defaultSymbols: seq<Symbol>,
    defaultIntervals: seq<Interval>,
    maxSymbols: nat,
    resolver: Resolver,
    defaultProvider: MarketProvider,
    normalize: string -> string,
    trim: string -> string,
    canonical: (MarketProvider, Symbol) -> Option<Symbol>)
  {
    /** NewService accepted these settings. */
    ghost predicate Valid() {
      && defaultSymbols != [] && defaultIntervals != [] && maxSymbols >= 1
      && resolver.Get(defaultProvider)
      && (forall s :: s in defaultSymbols ==> normalize(s) != "")
      && (forall i :: i in defaultIntervals ==> Duration(i).Some?)
      && (forall p :: resolver.Get(p) ==> KnownProvider(p))
    }

    predicate Allowed(symbol: Symbol) {
      exists s :: s in defaultSymbols && normalize(s) == symbol
    }

    function EffectiveProvider(provider: MarketProvider): MarketProvider {
      if resolver.Get(provider) then provider else defaultProvider
    }

    function Normalized(symbols: seq<Symbol>): (r: seq<Symbol>)
      ensures |r| == |symbols| && forall i :: 0 <= i < |r| ==> r[i] == normalize(symbols[i])
    {
      if symbols == [] then [] else [normalize(symbols[0])] + Normalized(symbols[1..])
    }

    /** The stored form of a configuration symbol, where the resolver knows one. */
    function CanonicalSymbols(provider: MarketProvider, symbols: seq<Symbol>): (r: seq<Symbol>)
      ensures |r| == |symbols|
      ensures forall i :: 0 <= i < |r| ==>
                r[i] == match canonical(provider, symbols[i]) case Some(c) => c case None => symbols[i]
    {
      if symbols == [] then []
      else [if canonical(provider, symbols[0]).Some? then canonical(provider, symbols[0]).value else symbols[0]]
           + CanonicalSymbols(provider, symbols[1..])
    }

    predicate AcceptsSymbols(symbols: seq<Symbol>) {
      && 1 <= |symbols| <= maxSymbols
      && (forall s :: s in Normalized(symbols) ==> Allowed(s))
      && NoDup(Normalized(symbols))
    }

    predicate AcceptsIntervals(intervals: seq<Interval>) {
      intervals != [] && (forall i :: i in intervals ==> i in defaultIntervals) && NoDup(intervals)
    }

    /** Every symbol is offered by the provider at every interval. */
    predicate Offered(provider: MarketProvider, symbols: seq<Symbol>, intervals: seq<Interval>) {
      && resolver.Get(provider)
      && forall s, i :: s in symbols && i in intervals ==> resolver.Supports(provider, s, i)
    }

    /** Exactly when a configuration passes every check of ReplaceConfig and CreateConfig. */
    predicate Accepts(provider: MarketProvider, symbols: seq<Symbol>, intervals: seq<Interval>, updatedBy: string) {
      && AcceptsSymbols(symbols) && AcceptsIntervals(intervals)
      && Offered(EffectiveProvider(provider), Normalized(symbols), intervals)
      && trim(updatedBy) != ""
    }

    /** The configuration that is handed to the repository. */
    function Prepared(
      provider: MarketProvider, enabled: bool, symbols: seq<Symbol>, intervals: seq<Interval>, version: nat,
      updatedBy: string): AlertConfig
    {
      AlertConfig(EffectiveProvider(provider), enabled, Normalized(symbols), intervals, version, trim(updatedBy))
    }

    /**
     What every stored configuration satisfies: non-empty, within the symbol limit, from an enabled
     provider, and with every symbol supported at every interval.
     */
    ghost predicate Storable(provider: MarketProvider, symbols: set<Symbol>, intervals: set<Interval>) {
      && resolver.Get(provider)
      && symbols != {} && |symbols| <= maxSymbols && (forall s :: s in symbols ==> Allowed(s))
      && intervals != {}
      && (forall i :: i in intervals ==> i in defaultIntervals)
      && (forall s, i :: s in symbols && i in intervals ==> resolver.Supports(provider, s, i))
    }
  }

  lemma AcceptedIsStorable(
    settings: Settings, provider: MarketProvider, symbols: seq<Symbol>, intervals: seq<Interval>, updatedBy: string)
    requires settings.Accepts(provider, symbols, intervals, updatedBy)
    ensures settings.Storable(settings.EffectiveProvider(provider), Elems(settings.Normalized(symbols)),
              Elems(intervals))
  {
    NoDupSize(settings.Normalized(symbols));
    assert settings.Normalized(symbols)[0] in Elems(settings.Normalized(symbols));
    assert intervals[0] in Elems(intervals);
  }

  lemma AcceptedIsValid(
    settings: Settings, target: string, provider: MarketProvider, enabled: bool, symbols: seq<Symbol>,
    intervals: seq<Interval>, version: nat, updatedBy: string)
    requires settings.Valid() && target != "" && settings.Accepts(provider, symbols, intervals, updatedBy)
    ensures ValidConfig(target, settings.Prepared(provider, enabled, symbols, intervals, version, updatedBy))
  {
    assert !settings.Allowed("");
  }

  /** What is stored passes validation again when it is listed and written back. */
  lemma StoredIsValid(
    settings: Settings, target: string, provider: MarketProvider, enabled: bool, symbols: set<Symbol>,
    intervals: set<Interval>, version: nat, updatedBy: string)
    requires settings.Valid() && settings.Storable(provider, symbols, intervals) && target != "" && updatedBy != ""
    ensures ValidConfig(target,
              AlertConfig(provider, enabled, Listing(symbols), Listing(intervals), version, updatedBy))
  {
    ListingOrdered(symbols);
    ListingOrdered(intervals);
    forall s | s in Listing(symbols) ensures s != "" { assert s in symbols; }
    forall i | i in Listing(intervals) ensures Duration(i).Some? { assert i in intervals; }
  }

  lemma OnlyOne(x: string)
    ensures Listing(Elems([x])) == [x]
  {
    NoDupSize([x]);
    assert Listing(Elems([x]))[0] in Elems([x]);
  }

  /** The default provider offers the second configured symbol but not the first. */
  ghost function SecondOnly(): Settings {
    var offers := map[BINANCE := Capabilities({"B"}, {"1m"})];
    Settings(["A", "B"], ["1m"], 2, Configured(offers), BINANCE, (x: string) => x, (x: string) => x, (p, s) => None)
  }

  /** Under such settings, which the service accepts, a first Configure fails for everyone. */
  lemma FirstConfigureCanFail(actor: string)
    ensures var f := SecondOnly();
            && f.Valid()
            && !f.Accepts(f.defaultProvider, [f.defaultSymbols[0]], [f.defaultIntervals[0]], actor)
            && (actor != "" ==> f.Accepts(f.defaultProvider, ["B"], ["1m"], actor))
  {
    var f := SecondOnly();
    assert f.Normalized(["A"]) == ["A"] && f.Normalized(["B"]) == ["B"];
    assert f.defaultSymbols[1] == "B" && f.Allowed("B");
    assert "A" in f.Normalized(["A"]) && "1m" in [f.defaultIntervals[0]];
    assert !f.Offered(BINANCE, f.Normalized(["A"]), [f.defaultIntervals[0]]);
  }

  class ConfigService {
    const settings: Settings
    const allowedSymbols: set<Symbol>
    const allowedIntervals: set<Interval>
    const tables: ConfigTables

    ghost predicate Ready() {
      && settings.Valid()
      && (forall s :: s in allowedSymbols <==> settings.Allowed(s))
      && (forall i :: i in allowedIntervals <==> i in settings.defaultIntervals)
    }

    constructor (settings: Settings, tables: ConfigTables)
      requires settings.Valid()
      ensures Ready() && this.settings == settings && this.tables == tables
    {
      this.settings, this.tables := settings, tables;
      this.allowedSymbols := set s | s in settings.defaultSymbols :: settings.normalize(s);
      this.allowedIntervals := Elems(settings.defaultIntervals);
    }

    method ValidateSymbols(symbols: seq<Symbol>) returns (r: Result<seq<Symbol>>)
      requires Ready()
      ensures r.Ok? <==> settings.AcceptsSymbols(symbols)
      ensures r.Ok? ==> r.value == settings.Normalized(symbols)
    {
      if symbols == [] || |symbols| > settings.maxSymbols {
        return Err("between one and the maximum number of symbols is required");
      }
      ghost var all := settings.Normalized(symbols);
      var result: seq<Symbol>, seen := [], {};
      for i := 0 to |symbols|
        invariant result == all[..i] && seen == Elems(all[..i]) && NoDup(all[..i])
        invariant forall s :: s in all[..i] ==> settings.Allowed(s)
      {
        var symbol := settings.normalize(symbols[i]);
        assert all[..i + 1] == all[..i] + [symbol];
        if symbol !in allowedSymbols {
          assert all[i] in all;
          return Err("unsupported symbol");
        }
        if symbol in seen {
          Repeated(all, i);
          return Err("duplicate symbol");
        }
        seen := seen + {symbol};
        result := result + [symbol];
      }
      assert all[..|symbols|] == all;
      return Ok(result);
    }

    method ValidateIntervals(intervals: seq<Interval>) returns (r: Result<seq<Interval>>)
      requires Ready()
      ensures r.Ok? <==> settings.AcceptsIntervals(intervals)
      ensures r.Ok? ==> r.value == intervals
    {
      if intervals == [] {
        return Err("at least one interval is required");
      }
      var result: seq<Interval>, seen := [], {};
      for i := 0 to |intervals|
        invariant result == intervals[..i] && seen == Elems(intervals[..i]) && NoDup(intervals[..i])
        invariant forall x :: x in intervals[..i] ==> x in settings.defaultIntervals
      {
        assert intervals[..i + 1] == intervals[..i] + [intervals[i]];
        if intervals[i] !in allowedIntervals {
          assert intervals[i] in intervals;
          return Err("unsupported interval");
        }
        if intervals[i] in seen {
          Repeated(intervals, i);
          return Err("duplicate interval");
        }
        seen := seen + {intervals[i]};
        result := result + [intervals[i]];
      }
      assert intervals[..|intervals|] == intervals;
      return Ok(result);
    }

    method ValidateProviderSelection(provider: MarketProvider, symbols: seq<Symbol>, intervals: seq<Interval>)
      returns (ok: bool)
      ensures ok <==> settings.Offered(provider, symbols, intervals)
    {
      if !settings.resolver.Get(provider) {
        return false;
      }
      for i := 0 to |symbols|
        invariant forall s, x :: s in symbols[..i] && x in intervals ==> settings.resolver.Supports(provider, s, x)
      {
        for j := 0 to |intervals|
          invariant forall x :: x in intervals[..j] ==> settings.resolver.Supports(provider, symbols[i], x)
        {
          if !settings.resolver.Supports(provider, symbols[i], intervals[j]) {
            assert symbols[i] in symbols && intervals[j] in intervals;
            return false;
          }
        }
        assert intervals[..|intervals|] == intervals;
      }
      assert symbols[..|symbols|] == symbols;
      return true;
    }

    /** Every check that ReplaceConfig and CreateConfig share, in their order. */
    method Prepare(
      provider: MarketProvider, enabled: bool, symbols: seq<Symbol>, intervals: seq<Interval>, version: nat,
      updatedBy: string)
      returns (r: Result<AlertConfig>)
      requires Ready()
      ensures r.Ok? <==> settings.Accepts(provider, symbols, intervals, updatedBy)
      ensures r.Ok? ==> r.value == settings.Prepared(provider, enabled, symbols, intervals, version, updatedBy)
    {
      var effective := settings.EffectiveProvider(provider);
      var checkedSymbols := ValidateSymbols(symbols);
      if checkedSymbols.Err? {
        return Err(checkedSymbols.error);
      }
      var checkedIntervals := ValidateIntervals(intervals);
      if checkedIntervals.Err? {
        return Err(checkedIntervals.error);
      }
      var offered := ValidateProviderSelection(effective, checkedSymbols.value, checkedIntervals.value);
      if !offered {
        return Err("market provider does not support the selection");
      }
      if settings.trim(updatedBy) == "" {
        return Err("updated_by is required");
      }
      return Ok(AlertConfig(effective, enabled, checkedSymbols.value, checkedIntervals.value, version,
          settings.trim(updatedBy)));
    }

    method ReplaceConfig(
      target: string, provider: MarketProvider, symbols: seq<Symbol>, intervals: seq<Interval>, enabled: bool,
      updatedBy: string, expected: nat, budget: nat)
      returns (r: Result<AlertConfig>)
      requires Ready() && ChildrenHaveParents(tables.View())
      modifies tables
      ensures ChildrenHaveParents(tables.View())
      ensures r.Ok? <==> settings.Accepts(provider, symbols, intervals, updatedBy) && target != ""
                         && target in old(tables.rows) && old(tables.rows)[target].version == expected
                         && budget >= 3 + |symbols| + |intervals|
      ensures tables.View()
              == if r.Ok? then Written(old(tables.View()), target,
                  settings.Prepared(provider, enabled, symbols, intervals, expected, updatedBy), expected + 1)
                               else old(tables.View())
    {
      var prepared := Prepare(provider, enabled, symbols, intervals, expected, updatedBy);
      if prepared.Err? {
        return Err(prepared.error);
      }
      if target != "" {
        AcceptedIsValid(settings, target, provider, enabled, symbols, intervals, expected, updatedBy);
      }
      r := tables.ReplaceAlertConfig(target, prepared.value, expected, budget);
    }

    method CreateConfig(
      target: string, provider: MarketProvider, symbols: seq<Symbol>, intervals: seq<Interval>, enabled: bool,
      updatedBy: string, budget: nat)
      returns (err: Option<string>)
      requires Ready() && ChildrenHaveParents(tables.View())
      modifies tables
      ensures ChildrenHaveParents(tables.View())
      ensures err.None? <==> settings.Accepts(provider, symbols, intervals, updatedBy) && target != ""
                             && target !in old(tables.rows) && budget > |symbols| + |intervals|
      ensures tables.View()
              == if err.None? then Written(old(tables.View()), target,
                  settings.Prepared(provider, enabled, symbols, intervals, 0, updatedBy), 0)
                               else old(tables.View())
    {
      var prepared := Prepare(provider, enabled, symbols, intervals, 0, updatedBy);
      if prepared.Err? {
        return Some(prepared.error);
      }
      if target != "" {
        AcceptedIsValid(settings, target, provider, enabled, symbols, intervals, 0, updatedBy);
      }
      err := tables.CreateAlertConfig(target, prepared.value, budget);
    }

    /**
     The stored configuration, with its symbols in canonical form, or else a new disabled one made of
     the first allowed symbol and interval. On a target without one this succeeds exactly when the
     default provider offers that pair (and the actor is named, and the database carries it out).
     */
    method GetOrCreateConfig(target: string, updatedBy: string, budget: nat) returns (r: Option<AlertConfig>)
      requires Ready() && ChildrenHaveParents(tables.View())
      modifies tables
      ensures ChildrenHaveParents(tables.View())
      ensures target in old(tables.rows) ==> r.Some? && tables.View() == old(tables.View())
      ensures target in old(tables.rows) ==>
                var row := old(tables.rows)[target];
                var provider := if settings.resolver.Get(row.provider) then row.provider else settings.defaultProvider;
                var symbols := settings.CanonicalSymbols(provider, Listing(Children(old(tables.symbols), target)));
                && r.value.provider == provider && r.value.symbols == symbols
                && r.value.intervals == Listing(Children(old(tables.intervals), target))
                && r.value.version == row.version && r.value.enabled == row.enabled
                && r.value.updatedBy == row.updatedBy
      ensures target !in old(tables.rows) ==>
                var first, every := [settings.defaultSymbols[0]], [settings.defaultIntervals[0]];
                var c := settings.Prepared(settings.defaultProvider, false, first, every, 0, updatedBy);
                var accepted := settings.Accepts(settings.defaultProvider, first, every, updatedBy);
                && (r.Some? <==> accepted && target != "" && budget > 2)
                && tables.View() == (if r.Some? then Written(old(tables.View()), target, c, 0) else old(tables.View()))
                && (r.Some? ==> r.value == c)
    {
      var found := tables.GetAlertConfig(target);
      if found.Some? {
        var provider := settings.EffectiveProvider(found.value.provider);
        return Some(found.value.(provider := provider,
            symbols := settings.CanonicalSymbols(provider, found.value.symbols)));
      }
      var err := CreateConfig(target, settings.defaultProvider, [settings.defaultSymbols[0]],
          [settings.defaultIntervals[0]], false, updatedBy, budget);
      var created := tables.GetAlertConfig(target);
      if created.None? {
        return None;
      }
      if err.None? {
        OnlyOne(settings.Normalized([settings.defaultSymbols[0]])[0]);
        OnlyOne(settings.defaultIntervals[0]);
      }
      return created;
    }
  }
}
