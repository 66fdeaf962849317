/**
 What a round makes of configurations that are being edited: its load is three statements too, so it may
 see the provider of one version with the symbols of another.
 */
module TornReads {
  import opened Prelude
  import opened Ordering
  import opened Domain
  import opened Registry
  import opened Configs
  import opened ConfigServices
  import opened ChatProtocol
  import opened ChatProofs
  import opened ChatTheorems
  import opened RejectionProofs
  import opened Rounds
  import opened RoundProofs
  import Jobs

  /** The two resolvers a program runs with. */
  ghost predicate Installed(resolver: Resolver, market: MarketSettings) {
    resolver.Static? || BuiltFrom(resolver, market)
  }

  /** This answer is what a completed read of the target assembled. */
  ghost predicate Loaded(s: State, pid: nat, target: string, answer: Result<AlertConfig>) {
    && pid in s.procs && s.procs[pid].Reading? && s.procs[pid].read.Done? && s.procs[pid].target == target
    && var read := s.procs[pid].read;
       answer == Ok(Assembled(read.row, read.symbols, read.intervals))
  }

  /**
   Every load of the round either failed or is a read of the protocol that has completed. A completed read
   keeps what it saw, so one state holds all loads of a round, whatever was committed between them.
   */
  ghost predicate LoadsFrom(s: State, r: Round, targets: seq<Target>) {
    forall t :: t in targets ==> r.env.config(t.id).Err? || exists pid :: Loaded(s, pid, t.id, r.env.config(t.id))
  }

  /** The row and the symbols were read under the same provider. */
  ghost predicate OneProvider(s: State, pid: nat)
    requires pid in s.procs && s.procs[pid].Reading? && s.procs[pid].read.Done?
  {
    var h, read := Past(s.history, s.procs[pid].target), s.procs[pid].read;
    read.symbolsAt < |h| && h[read.symbolsAt].content.provider == read.row.provider
  }

  /** Every load of the round either failed or is such a read, with its row and symbols under one provider. */
  ghost predicate LoadsUnderOneProvider(s: State, r: Round, targets: seq<Target>) {
    forall t :: t in targets ==>
      r.env.config(t.id).Err? || exists pid :: Loaded(s, pid, t.id, r.env.config(t.id)) && OneProvider(s, pid)
  }

  /** A storable version offers each of its symbols at every interval of any other storable version. */
  lemma IntervalsNeverMatter(
    settings: Settings, market: MarketSettings, a: Content, b: Content, symbol: Symbol, interval: Interval)
    requires Installed(settings.resolver, market)
    requires StorableContent(settings, a) && StorableContent(settings, b)
    requires symbol in a.symbols && interval in b.intervals
    ensures settings.resolver.Supports(a.provider, symbol, interval)
  {
    var i :| i in a.intervals;
    var s :| s in b.symbols;
    assert settings.resolver.Supports(a.provider, symbol, i) && settings.resolver.Supports(b.provider, s, interval);
  }

  /** The versions a completed read saw were all storable. */
  lemma ReadVersionsAreStorable(settings: Settings, s: State, pid: nat)
    requires Reachable(settings, s) && pid in s.procs && s.procs[pid].Reading? && s.procs[pid].read.Done?
    ensures var h, read := Past(s.history, s.procs[pid].target), s.procs[pid].read;
            && ReadSound(h, read)
            && StorableContent(settings, h[read.row.version].content)
            && StorableContent(settings, h[read.symbolsAt].content)
            && StorableContent(settings, h[read.intervalsAt].content)
  {
    ReachableKeeps(settings, s);
    hide Mirrors, Line, StorableContent, OwnedLine;
    assert Sound(s.history, s.born, s.procs[pid]);
    assert StorableLine(settings, Past(s.history, s.procs[pid].target));
  }

  lemma StorableNames(settings: Settings, a: Content, b: Content)
    requires settings.Valid() && StorableContent(settings, a) && StorableContent(settings, b)
    ensures settings.resolver.Get(a.provider) && KnownProvider(a.provider) && a.provider != "" && "" !in b.symbols
  {
    assert !settings.Allowed("");
  }

  /** What the filter makes of a loaded configuration: it is kept, or skipped without an error. */
  lemma LoadIsFiltered(settings: Settings, s: State, pid: nat, r: Round, t: Target)
    requires Reachable(settings, s) && r.resolver == settings.resolver && Loaded(s, pid, t.id, r.env.config(t.id))
    ensures var read := s.procs[pid].read;
            var et := EligibleTarget(t, r.env.config(t.id).value);
            && r.resolver.Get(read.row.provider) && Creatable(et)
            && r.EligibleOne(t) == (if read.row.enabled && r.period.interval in read.intervals then [et] else [], [])
  {
    var read, h := s.procs[pid].read, Past(s.history, s.procs[pid].target);
    ReadVersionsAreStorable(settings, s, pid);
    StorableNames(settings, h[read.row.version].content, h[read.symbolsAt].content);
    hide Reachable, StorableContent, Past, Settings.Valid;
    assert forall x :: x in Listing(read.intervals) <==> x in Elems(Listing(read.intervals));
    assert forall x :: x in Listing(read.symbols) <==> x in Elems(Listing(read.symbols));
  }

  /** Whether a provider is configured with all of these symbols. */
  predicate OffersAll(resolver: Resolver, provider: MarketProvider, symbols: set<Symbol>)
    requires resolver.Get(provider)
  {
    resolver.Static? || symbols <= resolver.capabilities[provider].symbols
  }

  /** A loaded configuration is supported exactly when its provider offers its symbols. */
  lemma OfferedExactlyWhenSupported(settings: Settings, market: MarketSettings, s: State, pid: nat, r: Round, t: Target)
    requires Reachable(settings, s) && Installed(settings.resolver, market) && r.resolver == settings.resolver
    requires Loaded(s, pid, t.id, r.env.config(t.id)) && r.period.interval in s.procs[pid].read.intervals
    requires r.resolver.Get(s.procs[pid].read.row.provider)
    ensures var read := s.procs[pid].read;
            Supported(r, EligibleTarget(t, r.env.config(t.id).value)) <==>
            OffersAll(r.resolver, read.row.provider, read.symbols)
  {
    ReadVersionsAreStorable(settings, s, pid);
    var read, h := s.procs[pid].read, Past(s.history, s.procs[pid].target);
    var own, last := h[read.row.version].content, h[read.intervalsAt].content;
    hide Reachable, Past;
    var some :| some in own.symbols;
    IntervalsNeverMatter(settings, market, own, last, some, r.period.interval);
    assert forall x :: x in Listing(read.symbols) <==> x in Elems(Listing(read.symbols));
  }

  lemma OneProviderIsSupported(settings: Settings, market: MarketSettings, s: State, pid: nat, r: Round, t: Target)
    requires Reachable(settings, s) && Installed(settings.resolver, market) && r.resolver == settings.resolver
    requires Loaded(s, pid, t.id, r.env.config(t.id)) && r.period.interval in s.procs[pid].read.intervals
    requires OneProvider(s, pid)
    ensures Supported(r, EligibleTarget(t, r.env.config(t.id).value))
  {
    ReadVersionsAreStorable(settings, s, pid);
    var read, h := s.procs[pid].read, Past(s.history, s.procs[pid].target);
    var shown, last := h[read.symbolsAt].content, h[read.intervalsAt].content;
    hide Reachable, Past;
    forall symbol | symbol in Listing(read.symbols) ensures r.resolver.Supports(read.row.provider, symbol,
        r.period.interval) {
      assert symbol in Elems(Listing(read.symbols));
      IntervalsNeverMatter(settings, market, shown, last, symbol, r.period.interval);
    }
  }

  /** Every eligible target is one whose load completed. */
  lemma EligibleWereLoaded(settings: Settings, s: State, r: Round, targets: seq<Target>, et: EligibleTarget)
    returns (pid: nat)
    requires Reachable(settings, s) && r.resolver == settings.resolver && LoadsFrom(s, r, targets)
    requires et in r.Eligible(targets).0
    ensures et.target in targets && Loaded(s, pid, et.target.id, r.env.config(et.target.id))
    ensures et == EligibleTarget(et.target, r.env.config(et.target.id).value) && Creatable(et)
    ensures et in r.EligibleOne(et.target).0
    ensures s.procs[pid].read.row.enabled && r.period.interval in s.procs[pid].read.intervals
  {
    FilterNamesNone(r, targets, "");
    var t :| t in targets && et in r.EligibleOne(t).0;
    pid :| Loaded(s, pid, t.id, r.env.config(t.id));
    LoadIsFiltered(settings, s, pid, r, t);
  }

  /** The filter reports nothing about a target whose load completed. */
  lemma {:induction false} FilterReportsOnlyLoads(settings: Settings, s: State, r: Round, targets: seq<Target>)
    requires Reachable(settings, s) && r.resolver == settings.resolver && LoadsFrom(s, r, targets)
    ensures forall e :: e in r.Eligible(targets).1 ==> e.ConfigLoad?
    decreases |targets|
  {
    if targets != [] {
      var t := targets[0];
      FilterReportsOnlyLoads(settings, s, r, targets[1..]);
      if r.env.config(t.id).Ok? {
        var pid :| Loaded(s, pid, t.id, r.env.config(t.id));
        LoadIsFiltered(settings, s, pid, r, t);
      }
    }
  }

  /**
   A round over configurations that the protocol stored never refuses a provider, and never drops a target
   as unsupported, as long as each row and its symbols were read under the same provider. Whatever else is
   committed during the loads, and when the intervals are read, does not matter.
   */
  lemma StoredConfigsAreNeverDropped(
    settings: Settings, market: MarketSettings, s: State, r: Round, rows: Jobs.Rows, targets: seq<Target>)
    requires Reachable(settings, s) && Installed(settings.resolver, market) && r.resolver == settings.resolver
    requires WellKeyed(r.env, rows) && LoadsUnderOneProvider(s, r, targets)
    ensures forall e :: e in RoundErrors(r, rows, targets) ==> !e.Unsupported?
    ensures forall e :: e in r.Eligible(targets).1 ==> e.ConfigLoad?
  {
    FilterReportsOnlyLoads(settings, s, r, targets);
    forall e | e in RoundErrors(r, rows, targets) ensures !e.Unsupported? {
      if e.Unsupported? {
        RoundNamesExactly(r, rows, targets, e.target);
        var et :| et in r.Eligible(targets).0 && et.target.id == e.target && !Supported(r, et);
        var _ := EligibleWereLoaded(settings, s, r, targets, et);
        var pid :| Loaded(s, pid, et.target.id, r.env.config(et.target.id)) && OneProvider(s, pid);
        LoadIsFiltered(settings, s, pid, r, et.target);
        OneProviderIsSupported(settings, market, s, pid, r, et.target);
      }
    }
  }

  /**
   Exactly when a round drops a loaded target as unsupported, when the database carries out the job
   creations: when the row it read is enabled, the interval it read is the round's, and the provider of the
   row does not offer the symbols it read.
   */
  lemma RejectedExactlyWhen(
    settings: Settings, market: MarketSettings, s: State, pid: nat, r: Round, rows: Jobs.Rows, targets: seq<Target>,
    t: Target)
    requires Reachable(settings, s) && Installed(settings.resolver, market) && r.resolver == settings.resolver
    requires WellKeyed(r.env, rows) && CreatesLand(r.env) && r.period.Valid()
    requires LoadsFrom(s, r, targets) && t in targets && Loaded(s, pid, t.id, r.env.config(t.id))
    ensures var read := s.procs[pid].read;
            && r.resolver.Get(read.row.provider)
            && (Names(RoundErrors(r, rows, targets), t.id)
                <==> && read.row.enabled && r.period.interval in read.intervals
                     && !OffersAll(r.resolver, read.row.provider, read.symbols))
  {
    var read := s.procs[pid].read;
    LoadIsFiltered(settings, s, pid, r, t);
    forall et | et in r.Eligible(targets).0 ensures Creatable(et) {
      var _ := EligibleWereLoaded(settings, s, r, targets, et);
    }
    RoundNamesExactly(r, rows, targets, t.id);
    UnsupportsOwn(r, targets, t);
    if read.row.enabled && r.period.interval in read.intervals {
      OfferedExactlyWhenSupported(settings, market, s, pid, r, t);
    }
    hide Reachable, WellKeyed, Names, Unsupports, Round.Eligible, Round.EligibleOne, Supported, OffersAll, LoadsFrom;
  }
}
