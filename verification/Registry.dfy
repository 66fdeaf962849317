/** Market provider resolution of internal/market/registry.go and internal/market/provider.go. */
module Registry {
  import opened Prelude
  import opened Domain

  datatype Capabilities = Capabilities(symbols: set<Symbol>, intervals: set<Interval>)

  /**
   One provider section of the market configuration: each symbol with the name that Binance knows it
   under, and whether the provider's client can be constructed.
   */
  datatype ProviderSettings = ProviderSettings(enabled: bool, symbols: map<Symbol, string>, buildable: bool)

  datatype MarketSettings = MarketSettings(
    providers: map<MarketProvider, ProviderSettings>,
    intervals: seq<Interval>,
    defaultProvider: MarketProvider)

  /** The two resolvers of the program: the configured registry and the single-provider fallback. */
  datatype Resolver =
    | Configured(capabilities: map<MarketProvider, Capabilities>)
    | Static(available: bool)
  {
    predicate Get(provider: MarketProvider) {
      match this
      case Configured(capabilities) => provider in capabilities
      case Static(available) => available && provider == BINANCE
    }

    predicate Supports(provider: MarketProvider, symbol: Symbol, interval: Interval) {
      match this
      case Configured(capabilities) =>
        && provider in capabilities
        && symbol in capabilities[provider].symbols
        && interval in capabilities[provider].intervals
      case Static(available) => available && provider == BINANCE
    }
  }

  /** Support is a product: a symbol and an interval that are each supported are supported together. */
  lemma SupportIsProductForm(r: Resolver, p: MarketProvider, s1: Symbol, i1: Interval, s2: Symbol, i2: Interval)
    requires r.Supports(p, s1, i1) && r.Supports(p, s2, i2)
    ensures r.Supports(p, s1, i2) && r.Get(p)
  {
  }

  /** Every enabled provider offers the same intervals: those of the market settings. */
  ghost predicate BuiltFrom(r: Resolver, settings: MarketSettings) {
    && r.Configured?
    && (forall p :: p in r.capabilities <==> p in settings.providers && settings.providers[p].enabled)
    && (forall p :: p in r.capabilities ==>
          r.capabilities[p] == Capabilities(settings.providers[p].symbols.Keys, Elems(settings.intervals)))
    && (forall p :: p in r.capabilities ==> KnownProvider(p))
    && settings.defaultProvider in r.capabilities
  }

  /**
   A resolver built from market settings offers exactly the enabled providers, each with its own symbols at the
   common intervals.
   */
  lemma OffersExactly(r: Resolver, settings: MarketSettings, p: MarketProvider, s: Symbol, i: Interval)
    requires BuiltFrom(r, settings)
    ensures r.Get(p) <==> p in settings.providers && settings.providers[p].enabled
    ensures r.Supports(p, s, i) <==> && p in settings.providers && settings.providers[p].enabled
                                     && s in settings.providers[p].symbols && i in settings.intervals
  {
    assert i in settings.intervals <==> i in Elems(settings.intervals);
  }

  /** Whether construction of one enabled provider succeeds. */
  predicate Buildable(settings: MarketSettings, p: MarketProvider)
    requires p in settings.providers
  {
    settings.providers[p].enabled ==> KnownProvider(p) && settings.providers[p].buildable
  }

  /** Each of these symbols is listed under its own name. */
  ghost predicate OwnNamed(table: map<string, Symbol>, among: set<Symbol>, normalize: string -> string) {
    forall s :: s in among ==> normalize(s) in table
  }

  /** Each of these symbols is listed under the name that Binance knows it under. */
  ghost predicate BinanceNamed(
    table: map<string, Symbol>, symbols: map<Symbol, string>, among: set<Symbol>, normalize: string -> string)
  {
    forall s :: s in among && s in symbols ==> normalize(symbols[s]) in table
  }

  /** Nothing else is listed. */
  ghost predicate OnlyNames(
    table: map<string, Symbol>, symbols: map<Symbol, string>, binance: bool, normalize: string -> string)
  {
    forall name :: name in table ==>
      && table[name] in symbols
      && (normalize(table[name]) == name || (binance && normalize(symbols[table[name]]) == name))
  }

  /** What a provider's table of canonical symbols knows, keyed by normalized names. */
  ghost predicate KnowsNames(
    table: map<string, Symbol>, provider: MarketProvider, symbols: map<Symbol, string>, normalize: string -> string)
  {
    && OwnNamed(table, symbols.Keys, normalize)
    && (provider == BINANCE ==> BinanceNamed(table, symbols, symbols.Keys, normalize))
    && OnlyNames(table, symbols, provider == BINANCE, normalize)
  }

  /** A configured symbol in normalized form is its own canonical symbol, unless it also names another one. */
  lemma CanonicalKeepsConfigured(
    table: map<string, Symbol>, provider: MarketProvider, symbols: map<Symbol, string>, normalize: string -> string,
    symbol: Symbol)
    requires KnowsNames(table, provider, symbols, normalize)
    requires symbol in symbols && normalize(symbol) == symbol
    requires forall s :: s in symbols && s != symbol ==>
               normalize(s) != symbol && (provider == BINANCE ==> normalize(symbols[s]) != symbol)
    ensures symbol in table && table[symbol] == symbol
  {
    assert normalize(symbol) in table;
    assert table[symbol] in symbols;
  }

  /** The first pass over the symbols adds each under its own name. */
  method AddOwnNames(symbols: map<Symbol, string>, normalize: string -> string) returns (table: map<string, Symbol>)
    ensures OwnNamed(table, symbols.Keys, normalize) && OnlyNames(table, symbols, false, normalize)
  {
    table := map[];
    var rest := symbols.Keys;
    while rest != {}
      invariant rest <= symbols.Keys && OwnNamed(table, symbols.Keys - rest, normalize)
      invariant OnlyNames(table, symbols, false, normalize)
      decreases rest
    {
      var symbol :| symbol in rest;
      rest := rest - {symbol};
      table := table[normalize(symbol) := symbol];
    }
  }

  lemma OwnNamedStill(
    table: map<string, Symbol>, among: set<Symbol>, normalize: string -> string, name: string, symbol: Symbol)
    requires OwnNamed(table, among, normalize)
    ensures OwnNamed(table[name := symbol], among, normalize)
  {
  }

  lemma BinanceNamedMore(
    table: map<string, Symbol>, symbols: map<Symbol, string>, among: set<Symbol>, normalize: string -> string,
    symbol: Symbol)
    requires symbol in symbols && BinanceNamed(table, symbols, among, normalize)
    ensures BinanceNamed(table[normalize(symbols[symbol]) := symbol], symbols, among + {symbol}, normalize)
  {
  }

  lemma OnlyNamesStill(
    table: map<string, Symbol>, symbols: map<Symbol, string>, normalize: string -> string, symbol: Symbol)
    requires symbol in symbols && OnlyNames(table, symbols, true, normalize)
    ensures OnlyNames(table[normalize(symbols[symbol]) := symbol], symbols, true, normalize)
  {
  }

  lemma OwnNamesAreNames(table: map<string, Symbol>, symbols: map<Symbol, string>, normalize: string -> string)
    requires OnlyNames(table, symbols, false, normalize)
    ensures OnlyNames(table, symbols, true, normalize) && BinanceNamed(table, symbols, {}, normalize)
  {
  }

  /** The second pass, for Binance alone, adds each under its name there. */
  method AddBinanceNames(symbols: map<Symbol, string>, normalize: string -> string, own: map<string, Symbol>)
    returns (table: map<string, Symbol>)
    requires OwnNamed(own, symbols.Keys, normalize) && OnlyNames(own, symbols, false, normalize)
    ensures OwnNamed(table, symbols.Keys, normalize) && BinanceNamed(table, symbols, symbols.Keys, normalize)
    ensures OnlyNames(table, symbols, true, normalize)
  {
    hide OwnNamed, BinanceNamed, OnlyNames;
    OwnNamesAreNames(own, symbols, normalize);
    table := own;
    var rest := symbols.Keys;
    assert symbols.Keys - rest == {};
    while rest != {}
      invariant rest <= symbols.Keys && OwnNamed(table, symbols.Keys, normalize)
      invariant BinanceNamed(table, symbols, symbols.Keys - rest, normalize)
                && OnlyNames(table, symbols, true, normalize)
      decreases rest
    {
      var symbol :| symbol in rest;
      OwnNamedStill(table, symbols.Keys, normalize, normalize(symbols[symbol]), symbol);
      BinanceNamedMore(table, symbols, symbols.Keys - rest, normalize, symbol);
      OnlyNamesStill(table, symbols, normalize, symbol);
      assert symbols.Keys - (rest - {symbol}) == symbols.Keys - rest + {symbol};
      rest := rest - {symbol};
      table := table[normalize(symbols[symbol]) := symbol];
    }
    assert symbols.Keys - {} == symbols.Keys;
  }

  method NewProviderRegistry(settings: MarketSettings, normalize: string -> string)
    returns (r: Result<Resolver>, canonical: map<MarketProvider, map<string, Symbol>>)
    ensures r.Ok? ==> BuiltFrom(r.value, settings) && canonical.Keys == r.value.capabilities.Keys
    ensures r.Ok? ==> forall p :: p in canonical ==>
              KnowsNames(canonical[p], p, settings.providers[p].symbols, normalize)
    ensures r.Ok? <==> && (forall p :: p in settings.providers ==> Buildable(settings, p))
                       && settings.defaultProvider in settings.providers
                       && settings.providers[settings.defaultProvider].enabled
  {
    var capabilities: map<MarketProvider, Capabilities> := map[];
    canonical := map[];
    var rest := settings.providers.Keys;
    while rest != {}
      invariant rest <= settings.providers.Keys
      invariant forall p :: p in settings.providers && p !in rest ==> Buildable(settings, p)
      invariant forall p ::
                  p in capabilities <==> p in settings.providers && p !in rest && settings.providers[p].enabled
      invariant forall p :: p in capabilities ==>
                  && capabilities[p] == Capabilities(settings.providers[p].symbols.Keys, Elems(settings.intervals))
                  && KnownProvider(p)
      invariant canonical.Keys == capabilities.Keys
      invariant forall p :: p in canonical ==> KnowsNames(canonical[p], p, settings.providers[p].symbols, normalize)
      decreases rest
    {
      var name :| name in rest;
      rest := rest - {name};
      var provider := settings.providers[name];
      if provider.enabled {
        var intervals := {};
        for i := 0 to |settings.intervals|
          invariant intervals == Elems(settings.intervals[..i])
        {
          intervals := intervals + {settings.intervals[i]};
        }
        assert settings.intervals[..|settings.intervals|] == settings.intervals;
        if !KnownProvider(name) || !provider.buildable {
          return Err("initialize market provider"), canonical;
        }
        var names := AddOwnNames(provider.symbols, normalize);
        if name == BINANCE {
          names := AddBinanceNames(provider.symbols, normalize, names);
        }
        capabilities := capabilities[name := Capabilities(provider.symbols.Keys, intervals)];
        canonical := canonical[name := names];
      }
    }
    if settings.defaultProvider !in capabilities {
      return Err("default market provider is not enabled"), canonical;
    }
    return Ok(Configured(capabilities)), canonical;
  }
}
