/** The guided selection from the moment Configure opens a session: internal/chat/service.go. */
module GuidedSessions {
  import opened Prelude
  import opened Ordering
  import opened Domain
  import opened Registry
  import opened ConfigServices
  import opened ChatProtocol
  import opened ChatProofs
  import opened ChatTheorems
  import opened Guided

  /** What the keyboard of a session shows. */
  function Shown(session: Session): Selection {
    Selection(session.provider, session.symbols, session.intervals)
  }

  /** The canonical forms of these symbols are distinct symbols that the provider offers. */
  ghost predicate CanonicalFits(settings: Settings, provider: MarketProvider, symbols: set<Symbol>) {
    var canonical := settings.CanonicalSymbols(provider, Listing(symbols));
    NoDup(canonical) && forall s :: s in canonical ==> s in SymbolControls(settings, provider)
  }

  /** Configure is about to open a session on a read that was not torn. */
  ghost predicate Opening(s: State, pid: nat) {
    && pid in s.procs && s.procs[pid].Configuring? && s.procs[pid].read.Done?
    && s.procs[pid].read.intervalsAt == s.procs[pid].read.row.version
  }

  lemma UntornIsStorable(settings: Settings, h: seq<Commit>, read: Read)
    requires read.Done? && ReadSound(h, read) && StorableLine(settings, h) && read.intervalsAt == read.row.version
    ensures settings.Storable(read.row.provider, read.symbols, read.intervals)
  {
    hide Settings.Storable;
    assert StorableContent(settings, h[read.row.version].content);
  }

  /** An untorn read saw one stored version. */
  lemma OpeningReadsStored(settings: Settings, s: State, pid: nat)
    requires Reachable(settings, s) && Opening(s, pid)
    ensures var read := s.procs[pid].read; settings.Storable(read.row.provider, read.symbols, read.intervals)
  {
    ReachableKeeps(settings, s);
    ConfigureReadIsSound(settings, s, pid);
    var h := Past(s.history, s.procs[pid].target);
    assert StorableLine(settings, h);
    hide Reachable, Inv, Settings.Storable, StorableLine, ReadSound, Past;
    UntornIsStorable(settings, h, s.procs[pid].read);
  }

  /**
   A session opened on an untorn read starts from an offerable selection exactly when it was created just
   now, or the canonical forms of the stored symbols are distinct and offered.
   */
  lemma OpenedIsOfferable(settings: Settings, s: State, pid: nat, expiresAt: Nanos)
    requires Reachable(settings, s) && Opening(s, pid) && SymbolsNormalized(settings)
    ensures var p := s.procs[pid];
            Offerable(settings, Shown(Opened(settings, p, expiresAt)))
            <==> p.attempt == Recheck(true) || CanonicalFits(settings, p.read.row.provider, p.read.symbols)
  {
    OpeningReadsStored(settings, s, pid);
    var read := s.procs[pid].read;
    StoredIsOfferable(settings, read.row.provider, read.symbols, read.intervals);
    hide Reachable, SymbolControls, IntervalControls, Settings.CanonicalSymbols, NoDup;
  }

  /** The canonical mapping leaves these symbols alone. */
  predicate CanonicalLeaves(settings: Settings, provider: MarketProvider, symbols: seq<Symbol>) {
    forall s :: s in symbols ==> settings.canonical(provider, s).None? || settings.canonical(provider, s).value == s
  }

  lemma {:induction false} CanonicalUnchanged(settings: Settings, provider: MarketProvider, symbols: seq<Symbol>)
    requires CanonicalLeaves(settings, provider, symbols)
    ensures settings.CanonicalSymbols(provider, symbols) == symbols
  {
    if symbols != [] { CanonicalUnchanged(settings, provider, symbols[1..]); }
  }

  /** Stored symbols that the mapping leaves alone are fit. */
  lemma LeftAloneFits(settings: Settings, s: State, pid: nat)
    requires Reachable(settings, s) && Opening(s, pid) && SymbolsNormalized(settings)
    requires CanonicalLeaves(settings, s.procs[pid].read.row.provider, Listing(s.procs[pid].read.symbols))
    ensures CanonicalFits(settings, s.procs[pid].read.row.provider, s.procs[pid].read.symbols)
  {
    OpeningReadsStored(settings, s, pid);
    var read := s.procs[pid].read;
    StoredIsOfferable(settings, read.row.provider, read.symbols, read.intervals);
    CanonicalUnchanged(settings, read.row.provider, Listing(read.symbols));
  }

  /** The service asks the registry's tables, under the normalized symbol. */
  ghost predicate LooksUp(settings: Settings, tables: map<MarketProvider, map<string, Symbol>>) {
    forall p, s :: settings.canonical(p, s) ==
      if p in tables && settings.normalize(s) in tables[p] then Some(tables[p][settings.normalize(s)]) else None
  }

  /** No configured name of the provider stands for two symbols. */
  ghost predicate DistinctNames(provider: MarketProvider, symbols: map<Symbol, string>, normalize: string -> string) {
    && (forall s :: s in symbols ==> normalize(s) == s)
    && (provider == BINANCE ==> forall s, u :: s in symbols && u in symbols && s != u ==> normalize(symbols[u]) != s)
  }

  /** With distinct names in the market configuration, the mapping leaves a provider's symbols alone. */
  lemma RegistryLeavesConfigured(
    settings: Settings, tables: map<MarketProvider, map<string, Symbol>>, provider: MarketProvider,
    configured: map<Symbol, string>, symbols: seq<Symbol>)
    requires LooksUp(settings, tables) && provider in tables
    requires KnowsNames(tables[provider], provider, configured, settings.normalize)
    requires DistinctNames(provider, configured, settings.normalize)
    requires forall s :: s in symbols ==> s in configured
    ensures CanonicalLeaves(settings, provider, symbols)
  {
    hide KnowsNames;
    forall s | s in symbols ensures settings.canonical(provider, s) == Some(s) {
      CanonicalKeepsConfigured(tables[provider], provider, configured, settings.normalize, s);
    }
  }

  /**
   From the session that Configure opens, any presses on the controls shown lead to a selection that a save
   accepts exactly when it has between one and the maximum number of symbols, an interval and a named actor.
   */
  lemma OpenedSessionsAreSaveable(
    settings: Settings, s: State, pid: nat, expiresAt: Nanos, presses: seq<Press>, actor: string)
    requires Reachable(settings, s) && Opening(s, pid) && SymbolsNormalized(settings)
    requires s.procs[pid].attempt == Recheck(true)
             || CanonicalFits(settings, s.procs[pid].read.row.provider, s.procs[pid].read.symbols)
    requires FollowsKeyboard(settings, Shown(Opened(settings, s.procs[pid], expiresAt)), presses)
    ensures var final := AfterPresses(settings, Shown(Opened(settings, s.procs[pid], expiresAt)), presses);
            settings.Accepts(final.provider, final.symbols, final.intervals, actor)
            <==> 1 <= |final.symbols| <= settings.maxSymbols && final.intervals != [] && settings.trim(actor) != ""
  {
    var start := Shown(Opened(settings, s.procs[pid], expiresAt));
    OpenedIsOfferable(settings, s, pid, expiresAt);
    PressesStay(settings, start, presses);
    OfferableIsAccepted(settings, AfterPresses(settings, start, presses), actor);
  }

  /** The mapping is the registry's, over a market configuration whose names are distinct. */
  ghost predicate NamedByRegistry(
    settings: Settings, market: MarketSettings, tables: map<MarketProvider, map<string, Symbol>>)
  {
    && BuiltFrom(settings.resolver, market) && LooksUp(settings, tables)
    && tables.Keys == settings.resolver.capabilities.Keys
    && forall p :: p in tables ==>
         && KnowsNames(tables[p], p, market.providers[p].symbols, settings.normalize)
         && DistinctNames(p, market.providers[p].symbols, settings.normalize)
  }

  /** The symbols of an untorn opening are configured for its provider. */
  lemma OpeningReadsConfigured(settings: Settings, market: MarketSettings, s: State, pid: nat)
    requires Reachable(settings, s) && Opening(s, pid) && BuiltFrom(settings.resolver, market)
    ensures var read := s.procs[pid].read;
            && read.row.provider in settings.resolver.capabilities
            && forall x :: x in Listing(read.symbols) ==> x in market.providers[read.row.provider].symbols
  {
    OpeningReadsStored(settings, s, pid);
    var read := s.procs[pid].read;
    var interval :| interval in read.intervals;
    forall x | x in Listing(read.symbols) ensures x in market.providers[read.row.provider].symbols {
      assert x in Elems(Listing(read.symbols));
      assert settings.resolver.Supports(read.row.provider, x, interval);
    }
  }

  /**
   With the registry's own mapping and distinct names in the market configuration, every session that
   Configure opens on an untorn read can be edited and saved like this; nothing is asked of the read itself.
   */
  lemma RegistrySessionsAreSaveable(
    settings: Settings, market: MarketSettings, tables: map<MarketProvider, map<string, Symbol>>, s: State, pid: nat,
    expiresAt: Nanos, presses: seq<Press>, actor: string)
    requires Reachable(settings, s) && Opening(s, pid) && SymbolsNormalized(settings)
    requires NamedByRegistry(settings, market, tables)
    requires FollowsKeyboard(settings, Shown(Opened(settings, s.procs[pid], expiresAt)), presses)
    ensures var final := AfterPresses(settings, Shown(Opened(settings, s.procs[pid], expiresAt)), presses);
            settings.Accepts(final.provider, final.symbols, final.intervals, actor)
            <==> 1 <= |final.symbols| <= settings.maxSymbols && final.intervals != [] && settings.trim(actor) != ""
  {
    var read := s.procs[pid].read;
    OpeningReadsConfigured(settings, market, s, pid);
    RegistryLeavesConfigured(settings, tables, read.row.provider, market.providers[read.row.provider].symbols,
                             Listing(read.symbols));
    LeftAloneFits(settings, s, pid);
    OpenedSessionsAreSaveable(settings, s, pid, expiresAt, presses, actor);
  }
}
