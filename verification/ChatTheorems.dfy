/**
 The configuration protocol over all runs: every operation that succeeds acts as if it were atomic,
 although its reads are torn, and sessions live and end exactly once.
 */
module ChatTheorems {
  import opened Prelude
  import opened Domain
  import opened Configs
  import opened ConfigServices
  import opened ChatProtocol
  import opened ChatProofs
  import opened ChatRuns

  /** A state some run reaches from empty tables and an empty session store. */
  ghost predicate Reachable(settings: Settings, s: State) {
    && settings.Valid()
    && exists clock, steps :: Feasible(settings, Init(clock), steps) && After(settings, Init(clock), steps) == s
  }

  lemma ReachableKeeps(settings: Settings, s: State)
    requires Reachable(settings, s)
    ensures Inv(settings, s)
  {
    var clock, steps :| Feasible(settings, Init(clock), steps) && After(settings, Init(clock), steps) == s;
    RunKeeps(settings, Init(clock), steps);
  }

  lemma {:induction false} AfterOneMore(settings: Settings, s: State, steps: seq<Step>, step: Step)
    requires settings.Valid() && Feasible(settings, s, steps) && Enabled(settings, After(settings, s, steps), step)
    ensures Feasible(settings, s, steps + [step])
    ensures After(settings, s, steps + [step]) == Next(settings, After(settings, s, steps), step)
    decreases |steps|
  {
    if steps == [] {
      assert (steps + [step])[1..] == [];
    } else {
      AfterOneMore(settings, Next(settings, s, steps[0]), steps[1..], step);
      assert (steps + [step])[1..] == steps[1..] + [step];
    }
  }

  lemma ReachesNext(settings: Settings, s: State, step: Step)
    requires Reachable(settings, s) && Enabled(settings, s, step)
    ensures Reachable(settings, Next(settings, s, step))
  {
    var clock, steps :| Feasible(settings, Init(clock), steps) && After(settings, Init(clock), steps) == s;
    AfterOneMore(settings, Init(clock), steps, step);
  }

  lemma {:induction false} ReachesAfter(settings: Settings, s: State, steps: seq<Step>)
    requires Reachable(settings, s) && Feasible(settings, s, steps)
    ensures Reachable(settings, After(settings, s, steps))
    decreases |steps|
  {
    if steps != [] {
      ReachesNext(settings, s, steps[0]);
      ReachesAfter(settings, Next(settings, s, steps[0]), steps[1..]);
    }
  }

  /**
   No lost updates. The commits of a target are the versions 0, 1, 2, ... without a gap, each made by one
   operation that was based on the version before it and applied to exactly what that version held; the
   tables hold the last one. The first was a create that left alerts disabled.
   */
  lemma CommitsAreALine(settings: Settings, s: State, target: string)
    requires Reachable(settings, s)
    ensures target in s.tables.rows <==> target in s.history
    ensures target in s.history ==>
              var h, row := s.history[target], s.tables.rows[target];
              && |h| == row.version + 1
              && h[0].cause == Creation && !h[0].content.enabled
              && (forall i :: 0 < i < |h| ==>
                   !h[i].cause.Creation? && h[i].base == Some(i - 1)
                     && h[i].content == Apply(h[i].cause, h[i - 1].content))
              && h[row.version].content
                 == Content(row.provider, row.enabled, Children(s.tables.symbols, target),
                     Children(s.tables.intervals, target))
  {
    ReachableKeeps(settings, s);
    if target in s.history {
      var h := s.history[target];
      assert Line(h) && Mirrors(s.tables, target, h);
      forall i | 0 < i < |h| ensures !h[i].cause.Creation? && h[i].base == Some(i - 1)
        && h[i].content == Apply(h[i].cause, h[i - 1].content) {
        assert Follows(h, i);
      }
      assert Follows(h, 0);
    }
  }

  /** The one change an atomic Enable or Pause makes to what is stored. */
  ghost predicate FlagChanged(s: State, n: State, target: string, enable: bool, author: string) {
    && target in s.history && s.history[target] != [] && target in s.tables.rows
    && var h := s.history[target];
       var row := s.tables.rows[target];
       && n.history
          == s.history[target := h + [Commit(h[|h| - 1].content.(enabled := enable), Toggle(enable), Some(|h| - 1))]]
       && n.tables.rows == s.tables.rows[target := ConfigRow(row.provider, enable, row.version + 1, author)]
       && Children(n.tables.symbols, target) == Children(s.tables.symbols, target)
       && Children(n.tables.intervals, target) == Children(s.tables.intervals, target)
  }

  lemma ToggleIsValid(settings: Settings, s: State, p: Proc)
    requires settings.Valid() && Inv(settings, s) && Sound(s.history, s.born, p) && p.Toggling? && p.read.Done?
    requires settings.trim(p.actor) != "" && p.target in s.tables.rows && s.tables.rows[p.target].version == p.expected
    ensures ReplaceSucceeds(s.tables, p.target, ToggledConfig(settings, p), p.expected)
  {
    var h := s.history[p.target];
    ToggleIsNext(settings, s.tables, s.history, p.target, p.read, p.enable, p.expected, ToggledConfig(settings, p));
    StoredIsValid(settings, p.target, p.read.row.provider, p.enable, p.read.symbols, p.read.intervals,
        p.read.row.version, settings.trim(p.actor));
  }

  /** Writing back an untorn read leaves the children as they are. */
  lemma WrittenBack(t: Tables, target: string, h: seq<Commit>, read: Read, expected: nat, c: AlertConfig)
    requires Mirrors(t, target, h) && read.Done? && ReadSound(h, read) && expected == |h| - 1
             && NotBefore(read, expected)
    requires Elems(c.symbols) == read.symbols && Elems(c.intervals) == read.intervals && c.provider == read.row.provider
    ensures var n := Written(t, target, c, expected + 1);
            && Children(n.symbols, target) == Children(t.symbols, target)
            && Children(n.intervals, target) == Children(t.intervals, target)
            && n.rows == t.rows[target := ConfigRow(t.rows[target].provider, c.enabled,
                 t.rows[target].version + 1, c.updatedBy)]
  {
    ReadIsCurrent(h, read, expected);
  }

  lemma FlagIsChanged(settings: Settings, s: State, pid: nat, p: Proc)
    requires Recorded(s.tables, s.history) && Sound(s.history, s.born, p) && p.Toggling? && p.read.Done?
    requires p.target in s.tables.rows && s.tables.rows[p.target].version == p.expected
    ensures FlagChanged(s,
              Drop(Committed(s, p.target, ToggledConfig(settings, p), p.expected + 1, Toggle(p.enable)), pid),
                  p.target, p.enable, settings.trim(p.actor))
  {
    hide Written, Children, Line, ReadSound, Follows;
    var h, c := s.history[p.target], ToggledConfig(settings, p);
    assert Mirrors(s.tables, p.target, h);
    assert h == Past(s.history, p.target);
    assert |h| - 1 == p.expected;
    hide Recorded, Sound, Mirrors, Past, NotBefore;
    ToggleFollows(h, p.read, p.enable, p.expected, c);
    WrittenBack(s.tables, p.target, h, p.read, p.expected, c);
  }

  lemma ToggleIsPerformed(settings: Settings, s: State, pid: nat)
    requires settings.Valid() && pid in s.procs && s.procs[pid].Toggling? && s.procs[pid].read.Done?
    ensures Next(settings, s, Perform(pid)) == ToggleStep(settings, s, pid, s.procs[pid])
  {
    hide ToggleStep, SaveStep, CreateStep, FetchStep;
  }

  lemma ToggleSucceeds(settings: Settings, s: State, pid: nat, p: Proc)
    requires settings.Valid() && Inv(settings, s) && Sound(s.history, s.born, p) && p.Toggling? && p.read.Done?
    requires p.target in s.tables.rows && settings.trim(p.actor) != "" && s.tables.rows[p.target].version == p.expected
    ensures FlagChanged(s, ToggleStep(settings, s, pid, p), p.target, p.enable, settings.trim(p.actor))
  {
    hide Recorded, ReplaceSucceeds, Committed, FlagChanged, ToggledConfig, Sound, Drop, AllSound, Owned, Kept,
        AllStorable;
    ToggleIsValid(settings, s, p);
    FlagIsChanged(settings, s, pid, p);
  }

  lemma ToggleFails(settings: Settings, s: State, pid: nat, p: Proc)
    requires p.Toggling? && p.read.Done? && p.target in s.tables.rows
    requires settings.trim(p.actor) == "" || s.tables.rows[p.target].version != p.expected
    ensures ToggleStep(settings, s, pid, p) == Drop(s, pid)
  {
    hide Committed, ToggledConfig, ValidConfig, Drop;
  }

  lemma ToggleOutcome(settings: Settings, s: State, pid: nat, p: Proc)
    requires settings.Valid() && Inv(settings, s) && Sound(s.history, s.born, p) && p.Toggling? && p.read.Done?
    requires p.target in s.tables.rows
    ensures var n := ToggleStep(settings, s, pid, p);
            if settings.trim(p.actor) != "" && s.tables.rows[p.target].version == p.expected
            then FlagChanged(s, n, p.target, p.enable, settings.trim(p.actor))
            else n == Drop(s, pid)
  {
    hide Inv, FlagChanged, Drop, Sound, ToggleStep;
    if settings.trim(p.actor) != "" && s.tables.rows[p.target].version == p.expected {
      ToggleSucceeds(settings, s, pid, p);
    } else {
      ToggleFails(settings, s, pid, p);
    }
  }

  /** A read that has seen a row is of a target that still has one. */
  lemma TargetOfRead(settings: Settings, s: State, pid: nat)
    requires Inv(settings, s) && pid in s.procs && Reads(s.procs[pid]) && !s.procs[pid].read.NeedRow?
    ensures Sound(s.history, s.born, s.procs[pid]) && ReadTarget(s.procs[pid]) in s.tables.rows
  {
  }

  /**
   Torn reads do not matter to Enable and Pause. Whatever was committed between the statements of its
   reads, one that reaches its transaction succeeds exactly when the version that Handle read first is
   still current, and then it changes the flag of that version and nothing else.
   */
  lemma TogglesAreAtomic(settings: Settings, s: State, pid: nat)
    requires Reachable(settings, s) && pid in s.procs && s.procs[pid].Toggling? && s.procs[pid].read.Done?
    ensures var p, n := s.procs[pid], Next(settings, s, Perform(pid));
            && p.target in s.tables.rows
            && if settings.trim(p.actor) != "" && s.tables.rows[p.target].version == p.expected
               then FlagChanged(s, n, p.target, p.enable, settings.trim(p.actor))
               else n == Drop(s, pid)
  {
    hide PerformStep, Inv, FlagChanged, Sound, ToggleStep, Drop;
    ReachableKeeps(settings, s);
    TargetOfRead(settings, s, pid);
    ToggleIsPerformed(settings, s, pid);
    ToggleOutcome(settings, s, pid, s.procs[pid]);
  }

  /** The one change an atomic save makes: the session's selection, under whatever flag is current. */
  ghost predicate SelectionStored(settings: Settings, s: State, n: State, p: Proc)
    requires p.Saving?
  {
    var target, base := p.session.target, p.session.base;
    var provider := if settings.resolver.Get(p.session.provider) then p.session.provider else settings.defaultProvider;
    var symbols, intervals := Elems(settings.Normalized(p.session.symbols)), Elems(p.session.intervals);
    && target in s.history && |s.history[target]| == base + 1 && target in s.tables.rows
    && var h := s.history[target];
       var enabled := s.tables.rows[target].enabled;
       && h[base].content.enabled == enabled
       && n.history
          == s.history[target := h +
              [Commit(Content(provider, enabled, symbols, intervals), Save(p.sid, provider, symbols, intervals),
                  Some(base))]]
       && n.tables == Tables(s.tables.rows[target := ConfigRow(provider, enabled, base + 1, settings.trim(p.actor))],
                             s.tables.symbols[target := symbols], s.tables.intervals[target := intervals])
  }

  lemma SaveIsPerformed(settings: Settings, s: State, pid: nat)
    requires settings.Valid() && pid in s.procs && s.procs[pid].Saving? && s.procs[pid].read.Done?
    requires s.procs[pid].session.target in s.tables.rows
    ensures Next(settings, s, Perform(pid)) == SaveStep(settings, s, pid, s.procs[pid])
  {
    hide ToggleStep, SaveStep, CreateStep, FetchStep;
  }

  /** What a save needs to succeed, as seen from outside. */
  predicate CanSave(settings: Settings, s: State, p: Proc)
    requires p.Saving? && p.read.Done?
  {
    && p.read.row.version == p.session.base
    && settings.Accepts(p.session.provider, p.session.symbols, p.session.intervals, p.actor)
    && p.session.target in s.tables.rows && s.tables.rows[p.session.target].version == p.session.base
  }

  lemma CanSaveIsEnough(settings: Settings, s: State, p: Proc)
    requires settings.Valid() && Recorded(s.tables, s.history) && p.Saving? && p.read.Done?
    ensures CanSave(settings, s, p) <==> SaveSucceeds(settings, s.tables, p)
  {
    hide ValidConfig, Line, Mirrors;
    var session := p.session;
    if CanSave(settings, s, p) {
      AcceptedIsValid(settings, session.target, session.provider, p.read.row.enabled, session.symbols,
          session.intervals, session.base, p.actor);
    }
  }

  /** A read at the current version saw the current flag. */
  lemma FlagIsCurrent(t: Tables, target: string, h: seq<Commit>, read: Read)
    requires Mirrors(t, target, h) && read.Done? && ReadSound(h, read) && read.row.version == t.rows[target].version
    ensures |h| == t.rows[target].version + 1
    ensures h[|h| - 1].content.enabled == t.rows[target].enabled == read.row.enabled
  {
  }

  lemma SelectionIsStored(settings: Settings, s: State, pid: nat, p: Proc)
    requires Recorded(s.tables, s.history) && Sound(s.history, s.born, p) && p.Saving? && p.read.Done?
    requires CanSave(settings, s, p)
    ensures var c := SavedConfig(settings, p);
            SelectionStored(settings, s,
                Goto(Committed(s, p.session.target, c, p.session.base + 1, Saved(p.sid, c)), pid, Closing(p.sid)), p)
  {
    hide Line, Follows, Mirrors, ReadSound;
    var h := s.history[p.session.target];
    assert Mirrors(s.tables, p.session.target, h);
    FlagIsCurrent(s.tables, p.session.target, h, p.read);
  }

  lemma SaveOutcome(settings: Settings, s: State, pid: nat, p: Proc)
    requires settings.Valid() && Recorded(s.tables, s.history) && Sound(s.history, s.born, p) && p.Saving?
             && p.read.Done?
    ensures var n := SaveStep(settings, s, pid, p);
            if CanSave(settings, s, p) then SelectionStored(settings, s, n, p) else n == Drop(s, pid)
  {
    hide Recorded, Sound, SelectionStored, CanSave, SaveSucceeds, Committed, SavedConfig;
    CanSaveIsEnough(settings, s, p);
    if CanSave(settings, s, p) { SelectionIsStored(settings, s, pid, p); }
  }

  /**
   A save that reaches its transaction succeeds exactly when it read, and still finds, the version its
   session was opened at, and the selection is accepted. It stores the selection and keeps the flag: no
   enable or pause is ever reverted by it.
   */
  lemma SavesAreAtomic(settings: Settings, s: State, pid: nat)
    requires Reachable(settings, s) && pid in s.procs && s.procs[pid].Saving? && s.procs[pid].read.Done?
    ensures var p, n := s.procs[pid], Next(settings, s, Perform(pid));
            if CanSave(settings, s, p) then SelectionStored(settings, s, n, p) else n == Drop(s, pid)
  {
    hide PerformStep, SelectionStored, Sound, SaveStep, CanSave, Drop;
    ReachableKeeps(settings, s);
    TargetOfRead(settings, s, pid);
    SaveIsPerformed(settings, s, pid);
    SaveOutcome(settings, s, pid, s.procs[pid]);
  }

  lemma SaveIsOwned(settings: Settings, s: State, target: string, i: nat)
    requires Reachable(settings, s)
    requires target in s.history && i < |s.history[target]| && s.history[target][i].cause.Save?
    ensures var sid := s.history[target][i].cause.sid;
            sid in s.born && s.born[sid].target == target && i == s.born[sid].base + 1
  {
    hide Reachable, AllStorable, Kept, AllSound, Mirrors;
    ReachableKeeps(settings, s);
    assert OwnedLine(s.born, target, s.history[target]);
    assert SaveOwned(s.born, target, s.history[target], i);
    assert Line(s.history[target]);
    assert Follows(s.history[target], i);
  }

  /** A session commits at most once, and only to its own target on top of the version it was opened at. */
  lemma OneCommitPerSession(settings: Settings, s: State, a: string, i: nat, b: string, j: nat)
    requires Reachable(settings, s)
    requires a in s.history && i < |s.history[a]| && s.history[a][i].cause.Save?
    requires b in s.history && j < |s.history[b]| && s.history[b][j].cause.Save?
    requires s.history[a][i].cause.sid == s.history[b][j].cause.sid
    ensures a == b && i == j
    ensures var sid := s.history[a][i].cause.sid;
            sid in s.born && s.born[sid].target == a && i == s.born[sid].base + 1
  {
    SaveIsOwned(settings, s, a, i);
    SaveIsOwned(settings, s, b, j);
  }

  /** Every stored configuration, in every version it ever had, is one the service would accept. */
  lemma StoredConfigsAreSupported(settings: Settings, s: State, target: string)
    requires Reachable(settings, s) && target in s.tables.rows
    ensures var row := s.tables.rows[target];
            settings.Storable(row.provider, Children(s.tables.symbols, target), Children(s.tables.intervals, target))
    ensures target in s.history && forall i :: 0 <= i < |s.history[target]| ==>
              StorableContent(settings, s.history[target][i].content)
  {
    ReachableKeeps(settings, s);
    var h := s.history[target];
    assert StorableLine(settings, h) && Mirrors(s.tables, target, h);
    assert StorableContent(settings, h[|h| - 1].content);
  }

  /** Nothing that was committed is ever changed or lost later in the run. */
  lemma CommitsAreKept(settings: Settings, s: State, steps: seq<Step>)
    requires Reachable(settings, s) && Feasible(settings, s, steps)
    ensures Extends(s.history, After(settings, s, steps).history)
  {
    ReachableKeeps(settings, s);
    RunKeeps(settings, s, steps);
  }

  lemma FetchOutcome(s: State, pid: nat, p: Proc)
    requires p.Fetching?
    ensures pid in FetchStep(s, pid, p).procs <==>
              && p.sid in s.sessions && s.clock < s.sessions[p.sid].expiresAt
              && s.sessions[p.sid].target == p.target && s.sessions[p.sid].actor == p.actor
  {
  }

  /**
   An operation gets hold of a session, to save, cancel or update it, exactly when the session has not been
   removed or run out and was opened by the same actor for the same target.
   */
  lemma SessionsGoToTheirOwners(settings: Settings, s: State, pid: nat)
    requires Reachable(settings, s) && pid in s.procs && s.procs[pid].Fetching?
    ensures var p, n := s.procs[pid], Next(settings, s, Perform(pid));
            pid in n.procs <==>
              && p.sid in s.born && p.sid !in s.gone && s.clock < s.born[p.sid].expiresAt
              && s.born[p.sid].target == p.target && s.born[p.sid].actor == p.actor
  {
    ReachableKeeps(settings, s);
    hide Recorded, Owned, AllSound, AllStorable, ReadStep, CreateStep, FetchStep;
    FetchOutcome(s, pid, s.procs[pid]);
  }

  lemma FetchFails(s: State, pid: nat, p: Proc)
    requires p.Fetching?
    requires p.sid in s.sessions ==> s.clock >= s.sessions[p.sid].expiresAt
    ensures FetchStep(s, pid, p).procs == s.procs - {pid}
  {
  }

  /**
   Once a session has been removed or its time is over, it is never handed out again, whatever late
   updates still arrive; and its target, actor, base version and expiry never change.
   */
  lemma SessionsEndOnce(settings: Settings, s: State, steps: seq<Step>, sid: nat)
    requires Reachable(settings, s) && Feasible(settings, s, steps) && sid in s.born
    ensures var n := After(settings, s, steps);
            && sid in n.born && n.born[sid] == s.born[sid]
            && (sid in n.sessions ==> SameIdentity(n.sessions[sid], s.born[sid]))
            && (sid !in s.sessions ==> sid !in n.sessions)
            && (sid !in s.sessions || s.clock >= s.born[sid].expiresAt ==>
                  forall pid :: pid in n.procs && n.procs[pid].Fetching? && n.procs[pid].sid == sid ==>
                    Next(settings, n, Perform(pid)).procs == n.procs - {pid})
  {
    var n := After(settings, s, steps);
    ReachableKeeps(settings, s);
    RunKeeps(settings, s, steps);
    hide Recorded, Owned, AllSound, AllStorable, ReadStep, CreateStep, FetchStep, Extends;
    if sid !in s.sessions || s.clock >= s.born[sid].expiresAt {
      forall pid | pid in n.procs && n.procs[pid].Fetching? && n.procs[pid].sid == sid
        ensures Next(settings, n, Perform(pid)).procs == n.procs - {pid}
      {
        FetchFails(n, pid, n.procs[pid]);
      }
    }
  }

  /** Once another operation has committed on top of the version a session was opened at, it never commits. */
  lemma StaleSessionsNeverCommit(settings: Settings, s: State, steps: seq<Step>, sid: nat, target: string, i: nat)
    requires Reachable(settings, s) && Feasible(settings, s, steps)
    requires sid in s.born && s.born[sid].target in s.history
    requires var h, next := s.history[s.born[sid].target], s.born[sid].base + 1;
             next < |h| && !(h[next].cause.Save? && h[next].cause.sid == sid)
    requires target in After(settings, s, steps).history && i < |After(settings, s, steps).history[target]|
    ensures var cause := After(settings, s, steps).history[target][i].cause;
            !(cause.Save? && cause.sid == sid)
  {
    var n := After(settings, s, steps);
    ReachesAfter(settings, s, steps);
    SessionsEndOnce(settings, s, steps, sid);
    CommitsAreKept(settings, s, steps);
    assert s.history[s.born[sid].target] <= n.history[s.born[sid].target];
    if n.history[target][i].cause.Save? && n.history[target][i].cause.sid == sid {
      SaveIsOwned(settings, n, target, i);
    }
  }

  /** What a completed Configure read: its row's version is behind the current one if any of it was newer. */
  lemma ConfigureReadIsSound(settings: Settings, s: State, pid: nat)
    requires Reachable(settings, s) && pid in s.procs && s.procs[pid].Configuring? && s.procs[pid].read.Done?
    ensures ReadSound(Past(s.history, s.procs[pid].target), s.procs[pid].read)
  {
    ReachableKeeps(settings, s);
    assert Sound(s.history, s.born, s.procs[pid]);
  }

  /** Where the read was torn, another operation has already committed on the version of the new session. */
  lemma TornIsBehind(settings: Settings, s: State, pid: nat, sid: nat)
    requires Reachable(settings, s) && pid in s.procs && s.procs[pid].Configuring? && s.procs[pid].read.Done?
    requires sid !in s.born && s.procs[pid].read.row.version < s.procs[pid].read.intervalsAt
    ensures var target, next := s.procs[pid].target, s.procs[pid].read.row.version + 1;
            && target in s.history && next < |s.history[target]|
            && !(s.history[target][next].cause.Save? && s.history[target][next].cause.sid == sid)
  {
    var p := s.procs[pid];
    ConfigureReadIsSound(settings, s, pid);
    var next := p.read.row.version + 1;
    hide Reachable;
    if s.history[p.target][next].cause.Save? { SaveIsOwned(settings, s, p.target, next); }
  }

  lemma OpeningBorn(settings: Settings, s: State, pid: nat, sid: nat, ttl: nat)
    requires settings.Valid() && Enabled(settings, s, OpenSession(pid, sid, ttl))
    ensures var o := Next(settings, s, OpenSession(pid, sid, ttl));
            && o.history == s.history && sid in o.born
            && o.born[sid].target == s.procs[pid].target && o.born[sid].base == s.procs[pid].read.row.version
  {
  }

  /** A session opened on a torn read is behind from the start, and can never be saved. */
  lemma TornSessionsNeverCommit(
    settings: Settings, s: State, pid: nat, sid: nat, ttl: nat, steps: seq<Step>, target: string, i: nat)
    requires Reachable(settings, s) && Enabled(settings, s, OpenSession(pid, sid, ttl))
    requires s.procs[pid].read.row.version < s.procs[pid].read.intervalsAt
    requires Feasible(settings, Next(settings, s, OpenSession(pid, sid, ttl)), steps)
    requires var n := After(settings, Next(settings, s, OpenSession(pid, sid, ttl)), steps);
             target in n.history && i < |n.history[target]|
    ensures var cause := After(settings, Next(settings, s, OpenSession(pid, sid, ttl)), steps).history[target][i].cause;
            !(cause.Save? && cause.sid == sid)
  {
    var o := Next(settings, s, OpenSession(pid, sid, ttl));
    OpeningBorn(settings, s, pid, sid, ttl);
    ReachesNext(settings, s, OpenSession(pid, sid, ttl));
    TornIsBehind(settings, s, pid, sid);
    hide Reachable, Feasible, After, Next;
    StaleSessionsNeverCommit(settings, o, steps, sid, target, i);
  }
}
