/** Every step of every operation keeps the invariant, and so does every run. */
module ChatRuns {
  import opened Prelude
  import opened Ordering
  import opened Domain
  import opened Configs
  import opened ConfigServices
  import opened ChatProtocol
  import opened ChatProofs

  lemma CreateKeeps(settings: Settings, s: State, pid: nat, target: string, actor: string, fault: Fault)
    requires settings.Valid() && Inv(settings, s)
    ensures var n := CreateStep(settings, s, pid, target, actor, fault); Inv(settings, n) && Later(s, n)
  {
    var symbols, intervals := [settings.defaultSymbols[0]], [settings.defaultIntervals[0]];
    var c := settings.Prepared(settings.defaultProvider, false, symbols, intervals, 0, actor);
    if settings.Accepts(settings.defaultProvider, symbols, intervals, actor)
      && CreateSucceeds(s.tables, target, c) && fault != BeforeCommit {
      AcceptedIsStorable(settings, settings.defaultProvider, symbols, intervals, actor);
      CommittedKeeps(settings, s, target, c, 0, Creation);
      var n := Committed(s, target, c, 0, Creation);
      GotoKeeps(settings, n, pid, Configuring(target, actor, Recheck(fault == NoFault), NeedRow));
    } else {
      GotoKeeps(settings, s, pid, Configuring(target, actor, Recheck(false), NeedRow));
    }
  }

  /** A read that ended at the version it began with saw exactly that version, untorn. */
  lemma ReadIsCurrent(h: seq<Commit>, read: Read, version: nat)
    requires read.Done? && ReadSound(h, read) && version == |h| - 1 && NotBefore(read, version)
    ensures h[version].content == Content(read.row.provider, read.row.enabled, read.symbols, read.intervals)
  {
  }

  lemma ToggleFollows(h: seq<Commit>, read: Read, enable: bool, expected: nat, c: AlertConfig)
    requires read.Done? && ReadSound(h, read) && expected == |h| - 1 && NotBefore(read, expected)
    requires ContentOf(c) == Content(read.row.provider, enable, read.symbols, read.intervals)
    ensures ContentOf(c) == h[expected].content.(enabled := enable)
    ensures Follows(h + [CommitOf(c, expected + 1, Toggle(enable))], expected + 1)
  {
    ReadIsCurrent(h, read, expected);
  }

  lemma SaveFollows(h: seq<Commit>, read: Read, sid: nat, base: nat, c: AlertConfig)
    requires read.Done? && ReadSound(h, read) && base == |h| - 1 && read.row.version == base
    requires c.enabled == read.row.enabled
    ensures Follows(h + [CommitOf(c, base + 1, Saved(sid, c))], base + 1)
  {
    ReadIsCurrent(h, read, base);
  }

  lemma ToggleIsNext(
    settings: Settings, t: Tables, history: map<string, seq<Commit>>, target: string, read: Read, enable: bool,
    expected: nat, c: AlertConfig)
    requires Recorded(t, history) && AllStorable(settings, history)
    requires read.Done? && ReadSound(Past(history, target), read) && NotBefore(read, expected)
    requires ContentOf(c) == Content(read.row.provider, enable, read.symbols, read.intervals)
    requires target in t.rows && t.rows[target].version == expected
    ensures expected + 1 == |Past(history, target)| && target != "" && StorableContent(settings, ContentOf(c))
    ensures Follows(Past(history, target) + [CommitOf(c, expected + 1, Toggle(enable))], expected + 1)
  {
    var h := Past(history, target);
    assert Mirrors(t, target, h) && StorableLine(settings, h);
    ToggleFollows(h, read, enable, expected, c);
    assert StorableContent(settings, h[expected].content);
  }

  lemma SaveIsNext(
    t: Tables, history: map<string, seq<Commit>>, target: string, read: Read, sid: nat, base: nat, c: AlertConfig)
    requires Recorded(t, history)
    requires read.Done? && ReadSound(Past(history, target), read) && c.enabled == read.row.enabled
    requires target in t.rows && t.rows[target].version == base == read.row.version
    ensures base + 1 == |Past(history, target)| && target != ""
    ensures Follows(Past(history, target) + [CommitOf(c, base + 1, Saved(sid, c))], base + 1)
  {
    assert Mirrors(t, target, Past(history, target));
    SaveFollows(Past(history, target), read, sid, base, c);
  }

  lemma ToggleCommits(
    settings: Settings, s: State, target: string, read: Read, enable: bool, expected: nat, c: AlertConfig)
    requires Inv(settings, s) && read.Done? && ReadSound(Past(s.history, target), read) && NotBefore(read, expected)
    requires ContentOf(c) == Content(read.row.provider, enable, read.symbols, read.intervals)
    requires target in s.tables.rows && s.tables.rows[target].version == expected
    ensures var n := Committed(s, target, c, expected + 1, Toggle(enable)); Inv(settings, n) && Later(s, n)
  {
    hide Later, Committed, ReadSound, NotBefore, Past, Follows, StorableContent, ContentOf, CommitOf, Recorded,
        AllStorable, Owned, Kept, AllSound;
    ToggleIsNext(settings, s.tables, s.history, target, read, enable, expected, c);
    CommittedKeeps(settings, s, target, c, expected + 1, Toggle(enable));
  }

  lemma ToggleLands(settings: Settings, s: State, pid: nat, p: Proc)
    requires Inv(settings, s) && Sound(s.history, s.born, p) && p.Toggling? && p.read.Done?
    requires p.target in s.tables.rows && s.tables.rows[p.target].version == p.expected
    ensures var n := Drop(Committed(s, p.target, ToggledConfig(settings, p), p.expected + 1, Toggle(p.enable)), pid);
            Inv(settings, n) && Later(s, n)
  {
    hide Inv, Later, Committed, ReadSound, NotBefore, Past, Listing, Drop;
    var c := ToggledConfig(settings, p);
    var n := Committed(s, p.target, c, p.expected + 1, Toggle(p.enable));
    ToggleCommits(settings, s, p.target, p.read, p.enable, p.expected, c);
    DropKeeps(settings, n, pid);
    LaterTransitive(s, n, Drop(n, pid));
  }

  lemma ToggleKeeps(settings: Settings, s: State, pid: nat, p: Proc)
    requires Inv(settings, s) && Sound(s.history, s.born, p) && p.Toggling? && p.read.Done?
    ensures var n := ToggleStep(settings, s, pid, p); Inv(settings, n) && Later(s, n)
  {
    hide Inv, Later, Committed, Drop, ValidConfig, ToggledConfig;
    if settings.trim(p.actor) != "" && ReplaceSucceeds(s.tables, p.target, ToggledConfig(settings, p), p.expected) {
      ToggleLands(settings, s, pid, p);
    } else {
      DropKeeps(settings, s, pid);
    }
  }

  lemma SaveCommits(settings: Settings, s: State, target: string, sid: nat, base: nat, read: Read, c: AlertConfig)
    requires Inv(settings, s) && read.Done? && ReadSound(Past(s.history, target), read)
    requires sid in s.born && s.born[sid].target == target && s.born[sid].base == base
    requires c.enabled == read.row.enabled && StorableContent(settings, ContentOf(c))
    requires target in s.tables.rows && s.tables.rows[target].version == base == read.row.version
    ensures var n := Committed(s, target, c, base + 1, Saved(sid, c)); Inv(settings, n) && Later(s, n)
  {
    hide Later, Committed, ReadSound, Past, Follows, StorableContent, ContentOf, CommitOf, Recorded,
        AllStorable, Owned, Kept, AllSound;
    SaveIsNext(s.tables, s.history, target, read, sid, base, c);
    CommittedKeeps(settings, s, target, c, base + 1, Saved(sid, c));
  }

  lemma SavedIsStorable(settings: Settings, t: Tables, p: Proc)
    requires p.Saving? && p.read.Done? && SaveSucceeds(settings, t, p)
    ensures StorableContent(settings, ContentOf(SavedConfig(settings, p)))
    ensures SavedConfig(settings, p).enabled == p.read.row.enabled
    ensures p.session.target in t.rows && t.rows[p.session.target].version == p.session.base == p.read.row.version
  {
    AcceptedIsStorable(settings, p.session.provider, p.session.symbols, p.session.intervals, p.actor);
  }

  lemma SaveLands(settings: Settings, s: State, pid: nat, p: Proc)
    requires Inv(settings, s) && Sound(s.history, s.born, p) && p.Saving? && p.read.Done?
    requires SaveSucceeds(settings, s.tables, p)
    ensures var c := SavedConfig(settings, p);
            var n := Goto(Committed(s, p.session.target, c, p.session.base + 1, Saved(p.sid, c)), pid, Closing(p.sid));
            Inv(settings, n) && Later(s, n)
  {
    hide Inv, Later, Committed, SaveSucceeds, StorableContent, ReadSound, Past, SavedConfig;
    var c := SavedConfig(settings, p);
    var n := Committed(s, p.session.target, c, p.session.base + 1, Saved(p.sid, c));
    SavedIsStorable(settings, s.tables, p);
    SaveCommits(settings, s, p.session.target, p.sid, p.session.base, p.read, c);
    GotoKeeps(settings, n, pid, Closing(p.sid));
    LaterTransitive(s, n, Goto(n, pid, Closing(p.sid)));
  }

  lemma SaveKeeps(settings: Settings, s: State, pid: nat, p: Proc)
    requires Inv(settings, s) && Sound(s.history, s.born, p) && p.Saving? && p.read.Done?
    ensures var n := SaveStep(settings, s, pid, p); Inv(settings, n) && Later(s, n)
  {
    hide SaveSucceeds, Inv, Later;
    if SaveSucceeds(settings, s.tables, p) {
      SaveLands(settings, s, pid, p);
    } else {
      DropKeeps(settings, s, pid);
    }
  }

  lemma FetchKeeps(settings: Settings, s: State, pid: nat, p: Proc)
    requires Inv(settings, s) && p.Fetching?
    ensures var n := FetchStep(s, pid, p); Inv(settings, n) && Later(s, n)
  {
    DropKeeps(settings, s, pid);
    if p.sid in s.sessions {
      var session := s.sessions[p.sid];
      if s.clock >= session.expiresAt {
        RemoveKeeps(settings, s, p.sid);
        DropKeeps(settings, Remove(s, p.sid), pid);
      } else {
        GotoKeeps(settings, s, pid, Closing(p.sid));
        GotoKeeps(settings, s, pid, Saving(p.actor, p.sid, session, NeedRow));
        match p.goal {
          case ToUpdate(provider, symbols, intervals) =>
            GotoKeeps(settings, s, pid,
                Validating(p.sid, session.(provider := provider, symbols := symbols, intervals := intervals)));
          case _ =>
        }
      }
    }
  }

  /** The next statement of a read leaves the operation sound, whatever it reads for. */
  lemma AdvancedIsSound(s: State, p: Proc)
    requires Recorded(s.tables, s.history) && Sound(s.history, s.born, p)
    requires Reads(p) && !MissesRow(s.tables, ReadTarget(p), p.read)
    ensures Sound(s.history, s.born, Advanced(s.tables, p))
  {
    var target := ReadTarget(p);
    var h := Past(s.history, target);
    assert h != [] ==> Mirrors(s.tables, target, h);
    ReadStaysSound(s.tables, target, h, p.read);
  }

  lemma AdvanceKeeps(settings: Settings, s: State, pid: nat, p: Proc)
    requires Inv(settings, s) && Sound(s.history, s.born, p)
    requires Reads(p) && !MissesRow(s.tables, ReadTarget(p), p.read)
    ensures var n := Goto(s, pid, Advanced(s.tables, p)); Inv(settings, n) && Later(s, n)
  {
    AdvancedIsSound(s, p);
    GotoKeeps(settings, s, pid, Advanced(s.tables, p));
  }

  lemma StandingStill(s: State)
    ensures Later(s, s)
  {
  }

  lemma ReadKeeps(settings: Settings, s: State, pid: nat, p: Proc)
    requires Inv(settings, s) && Sound(s.history, s.born, p)
    requires Reads(p)
    ensures var n := ReadStep(settings, s, pid, p); Inv(settings, n) && Later(s, n)
  {
    hide ToggleStep, SaveStep, Inv, Later;
    if MissesRow(s.tables, ReadTarget(p), p.read) {
      MissingKeeps(settings, s, pid, p);
    } else if !p.read.Done? {
      AdvanceKeeps(settings, s, pid, p);
    } else {
      match p {
        case Checking(target, actor, enable, read) =>
          GotoKeeps(settings, s, pid, Toggling(target, actor, enable, read.row.version, NeedRow));
        case Toggling(_, _, _, _, _) => ToggleKeeps(settings, s, pid, p);
        case Saving(_, _, _, _) => SaveKeeps(settings, s, pid, p);
        case Reading(_, _) => DropKeeps(settings, s, pid);
        case Configuring(_, _, _, _) => StandingStill(s);
      }
    }
  }

  lemma StoringKeeps(settings: Settings, s: State, pid: nat, p: Proc)
    requires Inv(settings, s) && Sound(s.history, s.born, p) && p.Updating?
    ensures var n := if p.sid in s.sessions then Drop(s.(sessions := s.sessions[p.sid := p.session]), pid)
            else Drop(s, pid);
            Inv(settings, n) && Later(s, n)
  {
    DropKeeps(settings, s, pid);
    if p.sid in s.sessions {
      StoredKeeps(settings, s, p.sid, p.session);
      DropKeeps(settings, s.(sessions := s.sessions[p.sid := p.session]), pid);
    }
  }

  lemma MissingKeeps(settings: Settings, s: State, pid: nat, p: Proc)
    requires Inv(settings, s)
    ensures var n := RowMissing(s, pid, p); Inv(settings, n) && Later(s, n)
  {
    DropKeeps(settings, s, pid);
    if p.Configuring? { GotoKeeps(settings, s, pid, Creating(p.target, p.actor)); }
  }

  lemma PerformKeeps(settings: Settings, s: State, pid: nat)
    requires settings.Valid() && Inv(settings, s) && Enabled(settings, s, Perform(pid))
    ensures var n := PerformStep(settings, s, pid); Inv(settings, n) && Later(s, n)
  {
    var p := s.procs[pid];
    if Reads(p) {
      ReadKeeps(settings, s, pid, p);
    } else {
      match p {
        case Creating(target, actor) => CreateKeeps(settings, s, pid, target, actor, NoFault);
        case Fetching(_, _, _, _) => FetchKeeps(settings, s, pid, p);
        case Validating(sid, session) =>
          DropKeeps(settings, s, pid);
          GotoKeeps(settings, s, pid, Updating(sid, session));
        case Updating(_, _) => StoringKeeps(settings, s, pid, p);
        case Closing(sid) =>
          RemoveKeeps(settings, s, sid);
          DropKeeps(settings, Remove(s, sid), pid);
      }
    }
  }

  lemma OpeningKeeps(settings: Settings, s: State, pid: nat, sid: nat, session: Session)
    requires Inv(settings, s) && sid !in s.born
    ensures var n := Drop(s.(sessions := s.sessions[sid := session], born := s.born[sid := session]), pid);
            Inv(settings, n) && Later(s, n)
  {
    OpenKeeps(settings, s, sid, session);
    DropKeeps(settings, s.(sessions := s.sessions[sid := session], born := s.born[sid := session]), pid);
  }

  lemma TickKeeps(settings: Settings, s: State, passed: nat)
    requires Inv(settings, s)
    ensures var n := s.(clock := s.clock + passed); Inv(settings, n) && Later(s, n)
  {
  }

  lemma NextKeeps(settings: Settings, s: State, step: Step)
    requires settings.Valid() && Inv(settings, s) && Enabled(settings, s, step)
    ensures var n := Next(settings, s, step); Inv(settings, n) && Later(s, n)
  {
    hide PerformStep, Opened, Inv, Later;
    match step {
      case Tick(passed) => TickKeeps(settings, s, passed);
      case Start(pid, proc) => GotoKeeps(settings, s, pid, proc);
      case Perform(pid) => PerformKeeps(settings, s, pid);
      case OpenSession(pid, sid, ttl) => OpeningKeeps(settings, s, pid, sid,
          Opened(settings, s.procs[pid], s.clock + ttl));
      case Falter(pid, fault) => CreateKeeps(settings, s, pid, s.procs[pid].target, s.procs[pid].actor, fault);
      case Abort(pid) => DropKeeps(settings, s, pid);
    }
  }

  lemma {:induction false} RunKeeps(settings: Settings, s: State, steps: seq<Step>)
    requires settings.Valid() && Inv(settings, s) && Feasible(settings, s, steps)
    ensures Inv(settings, After(settings, s, steps)) && Later(s, After(settings, s, steps))
    decreases |steps|
  {
    if steps != [] {
      var n := Next(settings, s, steps[0]);
      NextKeeps(settings, s, steps[0]);
      RunKeeps(settings, n, steps[1..]);
      LaterTransitive(s, n, After(settings, n, steps[1..]));
    }
  }
}
