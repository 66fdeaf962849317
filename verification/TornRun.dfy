/**
 One run in which a round drops a configuration whose every version is supported: a save that switches
 the provider commits between the first two statements of the round's load.
 */
module TornRun {
  import opened Prelude
  import opened Ordering
  import opened Domain
  import opened Registry
  import opened Configs
  import opened ConfigServices
  import opened ChatProtocol
  import opened ChatProofs
  import opened ChatTheorems
  import opened Rounds
  import opened TornReads
  import Jobs

  /** The read after its three statements saw the same tables. */
  function WholeRead(t: Tables, target: string): Read
    requires target in t.rows
  {
    Done(t.rows[target], Children(t.symbols, target), t.rows[target].version, Children(t.intervals, target),
        t.rows[target].version)
  }

  /** The operation once it has read a configuration without interference. */
  function WithRead(p: Proc, read: Read): Proc
    requires Reads(p)
  {
    match p
    case Reading(target, _) => Reading(target, read)
    case Configuring(target, actor, attempt, _) => Configuring(target, actor, attempt, read)
    case Checking(target, actor, enable, _) => Checking(target, actor, enable, read)
    case Toggling(target, actor, enable, expected, _) => Toggling(target, actor, enable, expected, read)
    case Saving(actor, sid, session, _) => Saving(actor, sid, session, read)
  }

  lemma ReadsOnce(settings: Settings, s: State, pid: nat, p: Proc, read: Read)
    requires settings.Valid() && Reads(p) && ReadTarget(p) in s.tables.rows && !read.Done?
    requires Reachable(settings, Goto(s, pid, WithRead(p, read)))
    ensures Reachable(settings, Goto(s, pid, WithRead(p, ReadNext(s.tables, ReadTarget(p), read))))
  {
    hide Reachable;
    var now := Goto(s, pid, WithRead(p, read));
    ReachesNext(settings, now, Perform(pid));
    assert Next(settings, now, Perform(pid)) == Goto(s, pid, WithRead(p, ReadNext(s.tables, ReadTarget(p), read))) by {
      assert Goto(now, pid, WithRead(p, ReadNext(s.tables, ReadTarget(p), read)))
        == Goto(s, pid, WithRead(p, ReadNext(s.tables, ReadTarget(p), read)));
      hide CreateStep, FetchStep, ReadDone, RowMissing;
    }
  }

  lemma ReadsThrough(settings: Settings, s: State, pid: nat, p: Proc)
    requires settings.Valid() && Reads(p) && ReadTarget(p) in s.tables.rows
    requires Reachable(settings, Goto(s, pid, WithRead(p, NeedRow)))
    ensures Reachable(settings, Goto(s, pid, WithRead(p, WholeRead(s.tables, ReadTarget(p)))))
  {
    hide Reachable, WithRead, Goto;
    var t, target := s.tables, ReadTarget(p);
    ReadsOnce(settings, s, pid, p, NeedRow);
    ReadsOnce(settings, s, pid, p, ReadNext(t, target, NeedRow));
    ReadsOnce(settings, s, pid, p, ReadNext(t, target, ReadNext(t, target, NeedRow)));
  }

  /** Two providers, each offering one of the two allowed symbols. */
  const TWO_PROVIDERS := MarketSettings(
    map[BINANCE := ProviderSettings(true, map["A" := "A"], true),
        COIN_MARKET_CAP := ProviderSettings(true, map["B" := "B"], true)],
    ["1m"], BINANCE)

  ghost function TwoProviders(): Settings {
    var offers := map[BINANCE := Capabilities({"A"}, {"1m"}), COIN_MARKET_CAP := Capabilities({"B"}, {"1m"})];
    Settings(["A", "B"], ["1m"], 1, Configured(offers), BINANCE, (x: string) => x, (x: string) => x, (p, s) => None)
  }

  const OPENED := Session("t", "u", 1, 1, BINANCE, ["A"], ["1m"])
  const EDITED := OPENED.(provider := COIN_MARKET_CAP, symbols := ["B"])
  const CREATED := AlertConfig(BINANCE, false, ["A"], ["1m"], 0, "u")
  const ENABLED := CREATED.(enabled := true)
  const REPLACED := AlertConfig(COIN_MARKET_CAP, true, ["B"], ["1m"], 1, "u")

  lemma SettingsInstalled()
    ensures TwoProviders().Valid() && Installed(TwoProviders().resolver, TWO_PROVIDERS)
    ensures TwoProviders().defaultSymbols != [] && TwoProviders().defaultIntervals != []
  {
    assert Elems(["1m"]) == {"1m"};
  }

  lemma SettingsAccept()
    ensures var f := TwoProviders();
            && f.Accepts(BINANCE, ["A"], ["1m"], "u") && f.Prepared(BINANCE, false, ["A"], ["1m"], 0, "u") == CREATED
            && f.Accepts(COIN_MARKET_CAP, ["B"], ["1m"], "u")
               && f.Prepared(COIN_MARKET_CAP, true, ["B"], ["1m"], 1, "u") == REPLACED
  {
    var f := TwoProviders();
    assert f.Normalized(["A"]) == ["A"] && f.Normalized(["B"]) == ["B"];
    assert f.defaultSymbols[0] == "A" && f.defaultSymbols[1] == "B";
    assert f.Allowed("A") && f.Allowed("B");
  }

  lemma ConfigsFit()
    ensures ValidConfig("t", CREATED) && ValidConfig("t", ENABLED) && ValidConfig("t", REPLACED)
  {
  }

  lemma SettingsFit()
    ensures var f := TwoProviders();
            && f.Valid() && Installed(f.resolver, TWO_PROVIDERS) && f.defaultSymbols != [] && f.defaultIntervals != []
            && f.Accepts(BINANCE, ["A"], ["1m"], "u") && f.Prepared(BINANCE, false, ["A"], ["1m"], 0, "u") == CREATED
            && f.Accepts(COIN_MARKET_CAP, ["B"], ["1m"], "u")
               && f.Prepared(COIN_MARKET_CAP, true, ["B"], ["1m"], 1, "u") == REPLACED
            && ValidConfig("t", CREATED) && ValidConfig("t", ENABLED) && ValidConfig("t", REPLACED)
  {
    hide TwoProviders, Settings.Valid, Installed, Settings.Accepts, Settings.Prepared, ValidConfig;
    SettingsInstalled();
    SettingsAccept();
    ConfigsFit();
  }

  lemma SingleListing(x: string)
    ensures Listing({x}) == [x]
  {
    assert Listing({x})[0] in Elems(Listing({x}));
  }

  // ---------------------------------------------------------------- version 0: created

  lemma FirstRead()
    ensures Reachable(TwoProviders(), Goto(Init(0), 0, Creating("t", "u")))
  {
    var f, s := TwoProviders(), Init(0);
    SettingsFit();
    hide Settings.Valid;
    assert Reachable(f, s) by {
      assert Feasible(f, Init(0), []) && After(f, Init(0), []) == s;
    }
    var p := Configuring("t", "u", First, NeedRow);
    ReachesNext(f, s, Start(0, p));
    ReachesNext(f, Goto(s, 0, p), Perform(0));
    assert Goto(Goto(s, 0, p), 0, Creating("t", "u")) == Goto(s, 0, Creating("t", "u"));
  }

  /** Configure, about to read again what it created. */
  const CONFIGURE := Configuring("t", "u", Recheck(true), NeedRow)

  ghost function Created(): State {
    Committed(Init(0), "t", CREATED, 0, Creation)
  }

  lemma FirstCommit()
    ensures Reachable(TwoProviders(), Goto(Created(), 0, CONFIGURE))
  {
    var f, s := TwoProviders(), Goto(Init(0), 0, Creating("t", "u"));
    FirstRead();
    SettingsFit();
    hide Settings.Valid, Settings.Accepts, Settings.Prepared, ValidConfig, Reachable;
    ReachesNext(f, s, Perform(0));
    assert f.defaultSymbols[0] == "A" && f.defaultIntervals[0] == "1m";
    assert Next(f, s, Perform(0)) == CreateStep(f, s, 0, "t", "u", NoFault);
    assert CreateStep(f, s, 0, "t", "u", NoFault) == Goto(Created(), 0, CONFIGURE);
  }

  // ---------------------------------------------------------------- version 1: enabled

  const CHECK := Checking("t", "u", true, NeedRow)
  const ENABLE := Toggling("t", "u", true, 0, NeedRow)

  lemma EnableChecks()
    ensures Reachable(TwoProviders(), Goto(Goto(Created(), 0, CONFIGURE), 4, ENABLE))
  {
    var f, s := TwoProviders(), Goto(Created(), 0, CONFIGURE);
    FirstCommit();
    SettingsFit();
    assert "t" in s.tables.rows && s.tables.rows["t"] == ConfigRow(BINANCE, false, 0, "u");
    assert s.procs == map[0 := CONFIGURE];
    hide Settings.Valid, Reachable, Created;
    ReachesNext(f, s, Start(4, CHECK));
    ReadsThrough(f, s, 4, CHECK);
    var checked := WithRead(CHECK, WholeRead(s.tables, "t"));
    ReachesNext(f, Goto(s, 4, checked), Perform(4));
    assert Next(f, Goto(s, 4, checked), Perform(4)) == Goto(s, 4, ENABLE);
  }

  ghost function Enabled1(): State {
    Committed(Created(), "t", ENABLED, 1, Toggle(true))
  }

  /** The enable, with what it has read of version 0. */
  ghost function Ready(): State {
    Goto(Goto(Created(), 0, CONFIGURE), 4, WithRead(ENABLE, WholeRead(Created().tables, "t")))
  }

  lemma EnableReads()
    ensures Reachable(TwoProviders(), Ready())
  {
    var f, s := TwoProviders(), Goto(Created(), 0, CONFIGURE);
    EnableChecks();
    SettingsFit();
    assert "t" in s.tables.rows;
    hide Settings.Valid, Reachable, Created;
    ReadsThrough(f, s, 4, ENABLE);
  }

  lemma EnableWrites()
    ensures "t" in Created().tables.rows && Created().tables.rows["t"].version == 0 && Created().procs == map[]
    ensures ToggledConfig(TwoProviders(), WithRead(ENABLE, WholeRead(Created().tables, "t"))) == ENABLED
    ensures ReplaceSucceeds(Created().tables, "t", ENABLED, 0)
  {
    SettingsFit();
    SingleListing("A");
    SingleListing("1m");
    assert Elems(["A"]) == {"A"} && Elems(["1m"]) == {"1m"};
  }

  lemma CommitIgnoresProcs(s: State, a: Proc, b: Proc, target: string, c: AlertConfig, version: nat, cause: Cause)
    requires s.procs == map[]
    ensures Drop(Committed(Goto(Goto(s, 0, a), 4, b), target, c, version, cause), 4)
            == Goto(Committed(s, target, c, version, cause), 0, a)
  {
  }

  lemma ToggleCommitsWhat(f: Settings, s: State, p: Proc, c: AlertConfig)
    requires p.Toggling? && p.read.Done? && f.trim(p.actor) != ""
    requires ToggledConfig(f, p) == c && ReplaceSucceeds(s.tables, p.target, c, p.expected)
    ensures ToggleStep(f, s, 4, p) == Drop(Committed(s, p.target, c, p.expected + 1, Toggle(p.enable)), 4)
  {
    hide ToggledConfig, ReplaceSucceeds, Committed, Drop;
  }

  lemma EnableIsReady()
    ensures "t" in Created().tables.rows
    ensures 4 in Ready().procs && Ready().tables == Created().tables
    ensures Ready().procs[4] == Toggling("t", "u", true, 0, WholeRead(Created().tables, "t"))
  {
    hide Committed, WholeRead;
    assert "t" in Created().tables.rows by { EnableWrites(); }
  }

  lemma EnableSettles()
    ensures 4 in Ready().procs && Ready().procs[4].Toggling? && Ready().procs[4].read.Done?
    ensures ToggleStep(TwoProviders(), Ready(), 4, Ready().procs[4]) == Goto(Enabled1(), 0, CONFIGURE)
  {
    EnableWrites();
    EnableIsReady();
    var f, s, p := TwoProviders(), Ready(), Ready().procs[4];
    assert f.trim("u") != "";
    CommitIgnoresProcs(Created(), CONFIGURE, WithRead(ENABLE, WholeRead(Created().tables, "t")), "t", ENABLED,
        1, Toggle(true));
    hide TwoProviders, Created, Committed, ReplaceSucceeds, ToggledConfig, Drop, ToggleStep;
    ToggleCommitsWhat(f, s, p, ENABLED);
  }

  lemma Enables()
    ensures Reachable(TwoProviders(), Goto(Enabled1(), 0, CONFIGURE))
  {
    var f, s := TwoProviders(), Ready();
    EnableReads();
    EnableSettles();
    SettingsFit();
    hide TwoProviders, Settings.Valid, Reachable, ToggleStep, Ready, Enabled1, PerformStep;
    ToggleIsPerformed(f, s, 4);
    ReachesNext(f, s, Perform(4));
  }

  // ---------------------------------------------------------------- a session on version 1, edited

  /** Configure has opened a session on version 1. */
  ghost function Opening(): State {
    Enabled1().(sessions := map[0 := OPENED], born := map[0 := OPENED])
  }

  lemma EnabledHolds()
    ensures var s := Enabled1();
            && s.procs == map[] && s.clock == 0 && s.sessions == map[] && s.born == map[]
            && "t" in s.tables.rows && s.tables.rows["t"] == ConfigRow(BINANCE, true, 1, "u")
            && Children(s.tables.symbols, "t") == {"A"} && Children(s.tables.intervals, "t") == {"1m"}
  {
    assert Elems(["A"]) == {"A"} && Elems(["1m"]) == {"1m"};
  }

  lemma SessionOpens()
    ensures Reachable(TwoProviders(), Opening())
  {
    var f, s := TwoProviders(), Enabled1();
    Enables();
    SettingsFit();
    EnabledHolds();
    hide Settings.Valid, Settings.Accepts, ValidConfig, Reachable, Enabled1, TwoProviders;
    ReadsThrough(f, s, 0, CONFIGURE);
    var q := WithRead(CONFIGURE, WholeRead(s.tables, "t"));
    assert Opened(f, q, 1) == OPENED by {
      SingleListing("A");
      SingleListing("1m");
    }
    ReachesNext(f, Goto(s, 0, q), OpenSession(0, 0, 1));
    assert Next(f, Goto(s, 0, q), OpenSession(0, 0, 1)) == Opening();
  }

  ghost function Editing(): State {
    Opening().(sessions := map[0 := EDITED])
  }

  const CHOICE := Fetching("t", "u", 0, ToUpdate(COIN_MARKET_CAP, ["B"], ["1m"]))

  /** One step of operation 1 on the session of the opening. */
  lemma EditStep(p: Proc, q: Proc)
    requires p.Fetching? || p.Validating?
    requires Reachable(TwoProviders(), Goto(Opening(), 1, p)) && TwoProviders().Valid()
    requires PerformStep(TwoProviders(), Goto(Opening(), 1, p), 1) == Goto(Opening(), 1, q)
    ensures Reachable(TwoProviders(), Goto(Opening(), 1, q))
  {
    hide Reachable, Settings.Valid, TwoProviders, Opening, PerformStep;
    ReachesNext(TwoProviders(), Goto(Opening(), 1, p), Perform(1));
  }

  lemma SessionIsFetched()
    ensures Reachable(TwoProviders(), Goto(Opening(), 1, Validating(0, EDITED)))
  {
    var f, s := TwoProviders(), Opening();
    SessionOpens();
    SettingsFit();
    EnabledHolds();
    hide Settings.Valid, Reachable, Enabled1, TwoProviders;
    ReachesNext(f, s, Start(1, CHOICE));
    assert PerformStep(f, Goto(s, 1, CHOICE), 1) == Goto(s, 1, Validating(0, EDITED));
    EditStep(CHOICE, Validating(0, EDITED));
  }

  lemma SessionIsEdited()
    ensures Reachable(TwoProviders(), Editing())
  {
    var f, s := TwoProviders(), Opening();
    SessionIsFetched();
    SettingsFit();
    EnabledHolds();
    hide Settings.Valid, Reachable, Enabled1, TwoProviders;
    assert PerformStep(f, Goto(s, 1, Validating(0, EDITED)), 1) == Goto(s, 1, Updating(0, EDITED));
    EditStep(Validating(0, EDITED), Updating(0, EDITED));
    ReachesNext(f, Goto(s, 1, Updating(0, EDITED)), Perform(1));
    assert Next(f, Goto(s, 1, Updating(0, EDITED)), Perform(1)) == Editing();
  }

  // ---------------------------------------------------------------- version 2, between two reads of a round

  const ROW := ConfigRow(BINANCE, true, 1, "u")

  /** A round has read the row of version 1. */
  ghost function Loading(): State {
    Goto(Editing(), 3, Reading("t", NeedSymbols(ROW)))
  }

  lemma RoundReadsTheRow()
    ensures Reachable(TwoProviders(), Loading())
  {
    var f, s := TwoProviders(), Editing();
    SessionIsEdited();
    SettingsFit();
    EnabledHolds();
    hide Settings.Valid, Reachable, Enabled1, TwoProviders;
    var p := Reading("t", NeedRow);
    ReachesNext(f, s, Start(3, p));
    ReachesNext(f, Goto(s, 3, p), Perform(3));
    assert Next(f, Goto(s, 3, p), Perform(3)) == Loading();
  }

  lemma SaveReads()
    ensures "t" in Loading().tables.rows
    ensures Reachable(TwoProviders(), Goto(Loading(), 2, Saving("u", 0, EDITED, WholeRead(Loading().tables, "t"))))
  {
    var f, s := TwoProviders(), Loading();
    RoundReadsTheRow();
    SettingsFit();
    EnabledHolds();
    hide Settings.Valid, Reachable, Enabled1, TwoProviders;
    var p := Fetching("t", "u", 0, ToSave);
    var q := Saving("u", 0, EDITED, NeedRow);
    ReachesNext(f, s, Start(2, p));
    ReachesNext(f, Goto(s, 2, p), Perform(2));
    assert Next(f, Goto(s, 2, p), Perform(2)) == Goto(s, 2, q);
    ReadsThrough(f, s, 2, q);
  }

  ghost function Replaced(): State {
    Goto(Committed(Loading(), "t", REPLACED, 2, Save(0, COIN_MARKET_CAP, {"B"}, {"1m"})), 2, Closing(0))
  }

  lemma SaveSettles()
    ensures var s := Goto(Loading(), 2, Saving("u", 0, EDITED, WholeRead(Loading().tables, "t")));
            SaveStep(TwoProviders(), s, 2, s.procs[2]) == Replaced()
  {
    var f, s := TwoProviders(), Loading();
    SettingsFit();
    var p := Saving("u", 0, EDITED, WholeRead(s.tables, "t"));
    assert s.tables.rows["t"] == ROW;
    hide Settings.Valid, Settings.Accepts, Settings.Prepared, ValidConfig, Committed;
    assert SavedConfig(f, p) == REPLACED;
    assert SaveSucceeds(f, s.tables, p);
    assert Elems(["B"]) == {"B"} && Elems(["1m"]) == {"1m"};
    assert Saved(0, REPLACED) == Save(0, COIN_MARKET_CAP, {"B"}, {"1m"});
    assert Committed(Goto(s, 2, p), "t", REPLACED, 2, Saved(0, REPLACED))
      == Goto(Committed(s, "t", REPLACED, 2, Saved(0, REPLACED)), 2, p);
  }

  lemma SaveReplaces()
    ensures Reachable(TwoProviders(), Replaced())
  {
    var f := TwoProviders();
    var s := Goto(Loading(), 2, Saving("u", 0, EDITED, WholeRead(Loading().tables, "t")));
    SaveReads();
    SaveSettles();
    SettingsFit();
    hide Settings.Valid, Reachable, SaveStep, Replaced, Loading, WholeRead;
    ReachesNext(f, s, Perform(2));
    SaveIsPerformed(f, s, 2);
  }

  /** What the round loaded: the provider of version 1 and the symbol of version 2. */
  const TORN := Done(ROW, {"B"}, 2, {"1m"}, 2)

  /** The state once the round has completed its load. */
  ghost function Torn(): State {
    Goto(Replaced(), 3, Reading("t", TORN))
  }

  lemma RoundReadsTheRest()
    ensures Reachable(TwoProviders(), Torn())
    ensures "t" in Torn().tables.rows
  {
    var f, s := TwoProviders(), Replaced();
    SaveReplaces();
    SettingsFit();
    assert s.procs[3] == Reading("t", NeedSymbols(ROW));
    assert s.tables.rows["t"].version == 2 && s.tables.symbols["t"] == {"B"} && s.tables.intervals["t"] == {"1m"};
    assert s == Goto(s, 3, Reading("t", NeedSymbols(ROW)));
    hide Settings.Valid, Reachable, Replaced;
    ReadsOnce(f, s, 3, Reading("t", NeedRow), NeedSymbols(ROW));
    ReadsOnce(f, s, 3, Reading("t", NeedRow), NeedIntervals(ROW, {"B"}, 2));
  }

  lemma TornProcess(s: State)
    ensures Goto(s, 3, Reading("t", TORN)).procs[3] == Reading("t", TORN)
  {
  }

  // ---------------------------------------------------------------- the round

  lemma UnsupportedFirst(r: Round, rows: Jobs.Rows, target: string, provider: MarketProvider, symbol: Symbol)
    requires !r.resolver.Supports(provider, symbol, r.period.interval)
    ensures r.ClaimSymbols(rows, target, provider, [symbol])
            == Claim(rows, [], {}, true, [Unsupported(target, provider, symbol)])
  {
    hide Jobs.AfterCreate, Jobs.CreateAnswer;
  }

  lemma TornAnswers()
    ensures var f := TwoProviders();
            && f.resolver.Get(BINANCE) && !f.resolver.Supports(BINANCE, "B", "1m")
            && Assembled(TORN.row, TORN.symbols, TORN.intervals) == AlertConfig(BINANCE, true, ["B"], ["1m"], 1, "u")
  {
    SingleListing("B");
    SingleListing("1m");
  }

  lemma OneEligible(r: Round, t: Target, config: AlertConfig)
    requires r.env.config(t.id) == Ok(config) && r.Wanted(config) && config.provider != ""
             && r.resolver.Get(config.provider)
    ensures r.Eligible([t]) == ([EligibleTarget(t, config)], [])
  {
    var none: seq<Target>, one, noMore: seq<EligibleTarget>, noErrors: seq<RoundError> := [],
        [EligibleTarget(t, config)], [], [];
    assert one + noMore == one && noErrors + noErrors == noErrors;
    assert r.EligibleOne(t) == ([EligibleTarget(t, config)], []);
    assert r.Eligible(none) == ([], []);
    assert [t][1..] == none;
  }

  /** A round whose one eligible target has one symbol, and that is not supported. */
  lemma OneDropped(r: Round, rows: Jobs.Rows, et: EligibleTarget, symbol: Symbol)
    requires et.config.symbols == [symbol] && !r.resolver.Supports(et.config.provider, symbol, r.period.interval)
    ensures r.ThreePhases(rows, [et]) == Effects(rows, [], [Unsupported(et.target.id, et.config.provider, symbol)])
  {
    UnsupportedFirst(r, rows, et.target.id, et.config.provider, symbol);
    var none: seq<EligibleTarget> := [];
    assert [et][1..] == none;
    assert r.ClaimAll(rows, none) == Claims(rows, [], {}, []);
  }

  lemma TornIsReached(answer: Result<AlertConfig>)
    requires answer == Ok(Assembled(TORN.row, TORN.symbols, TORN.intervals))
    ensures TwoProviders().Valid() && Installed(TwoProviders().resolver, TWO_PROVIDERS)
    ensures Reachable(TwoProviders(), Torn()) && Loaded(Torn(), 3, "t", answer)
    ensures "t" in Torn().history
    ensures forall i :: 0 <= i < |Torn().history["t"]| ==>
              StorableContent(TwoProviders(), Torn().history["t"][i].content)
  {
    hide Reachable, Replaced, StorableContent, Settings.Valid, Installed, TwoProviders;
    RoundReadsTheRest();
    SettingsFit();
    TornProcess(Replaced());
    StoredConfigsAreSupported(TwoProviders(), Torn(), "t");
  }

  /**
   That a round never drops a target as unsupported is not true of every interleaving. Here a round with
   one listed target loads it while a save that switches the provider commits between the first two
   statements of the load. The round then drops the target and sends nothing, although alerts are enabled
   and every version of the configuration is supported.
   */
  lemma TornLoadIsRejected(r: Round, rows: Jobs.Rows, t: Target)
    requires r.resolver == TwoProviders().resolver && r.period.interval == "1m" && t.id == "t"
    requires r.env.config("t") == Ok(Assembled(TORN.row, TORN.symbols, TORN.intervals))
    ensures TwoProviders().Valid() && Installed(TwoProviders().resolver, TWO_PROVIDERS)
    ensures Reachable(TwoProviders(), Torn()) && Loaded(Torn(), 3, "t", r.env.config("t")) && LoadsFrom(Torn(), r, [t])
    ensures "t" in Torn().history && forall i :: 0 <= i < |Torn().history["t"]| ==>
              StorableContent(TwoProviders(), Torn().history["t"][i].content)
    ensures r.Eligible([t]).1 == []
    ensures r.ThreePhases(rows, r.Eligible([t]).0) == Effects(rows, [], [Unsupported("t", BINANCE, "B")])
  {
    hide Reachable, Replaced, StorableContent, Settings.Valid, Installed;
    TornIsReached(r.env.config("t"));
    var config := AlertConfig(BINANCE, true, ["B"], ["1m"], 1, "u");
    TornAnswers();
    hide TwoProviders, Torn, Round.ThreePhases, Round.Eligible, Resolver.Supports, Resolver.Get, Loaded;
    OneEligible(r, t, config);
    OneDropped(r, rows, EligibleTarget(t, config), "B");
  }
}
