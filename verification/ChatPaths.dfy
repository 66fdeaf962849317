/**
 What the operations on a session amount to from beginning to end, whatever is interleaved with their steps:
 internal/chat/service.go.
 */
module ChatPaths {
  import opened Prelude
  import opened Domain
  import opened Configs
  import opened ConfigServices
  import opened ChatProtocol
  import opened ChatProofs
  import opened ChatTheorems

  /** None of these steps is a step of this operation. */
  predicate Apart(steps: seq<Step>, pid: nat) {
    forall step :: step in steps ==> step.Tick? || step.pid != pid
  }

  /** One operation stands where it stood. */
  predicate Unmoved(s: State, n: State, pid: nat) {
    (pid in n.procs <==> pid in s.procs) && (pid in s.procs ==> n.procs[pid] == s.procs[pid])
  }

  lemma CreateOfOthers(
    settings: Settings, s: State, other: nat, target: string, actor: string, fault: Fault, pid: nat)
    requires settings.Valid() && other != pid
    ensures Unmoved(s, CreateStep(settings, s, other, target, actor, fault), pid)
  {
    hide Written, Settings.Prepared, Settings.Accepts, CreateSucceeds;
  }

  lemma ReadOfOthers(settings: Settings, s: State, other: nat, p: Proc, pid: nat)
    requires Reads(p) && other != pid
    ensures Unmoved(s, ReadStep(settings, s, other, p), pid)
  {
    hide Written, ToggledConfig, SavedConfig, SaveSucceeds, ReplaceSucceeds, Advanced;
  }

  lemma PerformOfOthers(settings: Settings, s: State, other: nat, pid: nat)
    requires settings.Valid() && other in s.procs && other != pid
    ensures Unmoved(s, PerformStep(settings, s, other), pid)
  {
    hide ReadStep, CreateStep;
    var p := s.procs[other];
    if Reads(p) {
      ReadOfOthers(settings, s, other, p, pid);
    } else if p.Creating? {
      CreateOfOthers(settings, s, other, p.target, p.actor, NoFault, pid);
    }
  }

  lemma StepsOfOthers(settings: Settings, s: State, step: Step, pid: nat)
    requires settings.Valid() && Enabled(settings, s, step) && (step.Tick? || step.pid != pid)
    ensures Unmoved(s, Next(settings, s, step), pid)
  {
    hide PerformStep, CreateStep, Opened;
    match step {
      case Perform(other) => PerformOfOthers(settings, s, other, pid);
      case Falter(other, fault) =>
        CreateOfOthers(settings, s, other, s.procs[other].target, s.procs[other].actor, fault, pid);
      case _ =>
    }
  }

  /** An operation stands where it is while others proceed. */
  lemma {:induction false} Stands(settings: Settings, s: State, steps: seq<Step>, pid: nat)
    requires settings.Valid() && Feasible(settings, s, steps) && Apart(steps, pid) && pid in s.procs
    ensures var n := After(settings, s, steps); pid in n.procs && n.procs[pid] == s.procs[pid]
    decreases |steps|
  {
    if steps != [] {
      assert steps[0] in steps;
      StepsOfOthers(settings, s, steps[0], pid);
      Stands(settings, Next(settings, s, steps[0]), steps[1..], pid);
    }
  }

  // ---------------------------------------------------------------- what an operation keeps of its request

  predicate SameSelection(v: Session, goal: Goal)
    requires goal.ToUpdate?
  {
    v.provider == goal.provider && v.symbols == goal.symbols && v.intervals == goal.intervals
  }

  /** The row stays once it was read. */
  predicate KeepsRow(read: Read, later: Read) {
    !read.NeedRow? ==> !later.NeedRow? && later.row == read.row
  }

  /** The session an operation works on is its actor's own, with the selection it was given, if any. */
  predicate ForSession(p: Proc, v: Session)
    requires p.Fetching?
  {
    v.target == p.target && v.actor == p.actor && (p.goal.ToUpdate? ==> SameSelection(v, p.goal))
  }

  /** q is p further on: the same request, about the same target or session, by the same actor. */
  predicate Continues(p: Proc, q: Proc) {
    match p
    case Reading(target, read) => q.Reading? && q.target == target && KeepsRow(read, q.read)
    case Configuring(target, actor, _, _) => (q.Configuring? || q.Creating?) && q.target == target && q.actor == actor
    case Creating(target, actor) => (q.Configuring? || q.Creating?) && q.target == target && q.actor == actor
    case Checking(target, actor, enable, read) =>
      && (q.Checking? || q.Toggling?) && q.target == target && q.actor == actor && q.enable == enable
      && (q.Checking? ==> KeepsRow(read, q.read))
      && (q.Toggling? && !read.NeedRow? ==> q.expected == read.row.version)
    case Toggling(target, actor, enable, expected, read) =>
      q.Toggling? && q.target == target && q.actor == actor && q.enable == enable && q.expected == expected
        && KeepsRow(read, q.read)
    case Fetching(_, actor, sid, goal) =>
      || q == p
      || (goal.ToSave? && q.Saving? && q.actor == actor && q.sid == sid && ForSession(p, q.session))
      || (!goal.ToUpdate? && q == Closing(sid))
      || (goal.ToUpdate? && (q.Validating? || q.Updating?) && q.sid == sid && ForSession(p, q.session))
    case Saving(actor, sid, session, read) =>
      || q == Closing(sid)
      || (q.Saving? && q.actor == actor && q.sid == sid && q.session == session && KeepsRow(read, q.read))
    case Validating(sid, session) => q == p || q == Updating(sid, session)
    case Updating(_, _) => q == p
    case Closing(_) => q == p
  }

  lemma ContinuesOn(p: Proc, q: Proc, later: Proc)
    requires Continues(p, q) && Continues(q, later)
    ensures Continues(p, later)
  {
  }

  lemma StandsStill(p: Proc)
    ensures Continues(p, p)
  {
  }

  lemma ReadContinues(settings: Settings, s: State, pid: nat, p: Proc)
    requires Reads(p) && pid in s.procs && s.procs[pid] == p
    ensures var n := ReadStep(settings, s, pid, p); pid in n.procs ==> Continues(p, n.procs[pid])
  {
    hide Written, ToggledConfig, SavedConfig, SaveSucceeds, ReplaceSucceeds;
  }

  lemma FetchContinues(s: State, pid: nat, p: Proc)
    requires p.Fetching?
    ensures pid in FetchStep(s, pid, p).procs ==> Continues(p, FetchStep(s, pid, p).procs[pid])
  {
  }

  lemma PerformContinues(settings: Settings, s: State, pid: nat)
    requires settings.Valid() && pid in s.procs
    ensures var n := PerformStep(settings, s, pid); pid in n.procs ==> Continues(s.procs[pid], n.procs[pid])
  {
    hide ReadStep, FetchStep, Written, Settings.Prepared, Settings.Accepts, CreateSucceeds;
    var p := s.procs[pid];
    if Reads(p) {
      ReadContinues(settings, s, pid, p);
    } else if p.Fetching? {
      FetchContinues(s, pid, p);
    }
  }

  lemma StepContinues(settings: Settings, s: State, step: Step, pid: nat)
    requires settings.Valid() && Enabled(settings, s, step) && pid in s.procs
    ensures var n := Next(settings, s, step); pid in n.procs ==> Continues(s.procs[pid], n.procs[pid])
  {
    if step.Tick? || step.pid != pid {
      StepsOfOthers(settings, s, step, pid);
      StandsStill(s.procs[pid]);
    } else if step.Perform? {
      PerformContinues(settings, s, pid);
    } else {
      hide Written, Settings.Prepared, Settings.Accepts, CreateSucceeds, Opened;
    }
  }

  /** No new operation is started under this number. */
  predicate NotRestarted(steps: seq<Step>, pid: nat) {
    forall step :: step in steps ==> !(step.Start? && step.pid == pid)
  }

  /**
   However its steps are interleaved with others, an operation stays what it was asked to be: its target, its
   actor, the flag it sets, the version it read first, the session it fetched, and the selection it was given.
   */
  lemma {:induction false} OperationsContinue(settings: Settings, s: State, steps: seq<Step>, pid: nat)
    requires settings.Valid() && Feasible(settings, s, steps) && NotRestarted(steps, pid) && pid in s.procs
    ensures var n := After(settings, s, steps); pid in n.procs ==> Continues(s.procs[pid], n.procs[pid])
    decreases |steps|
  {
    StandsStill(s.procs[pid]);
    if steps != [] {
      assert steps[0] in steps;
      var t := Next(settings, s, steps[0]);
      hide Continues, Next, Enabled;
      StepContinues(settings, s, steps[0], pid);
      if pid in t.procs {
        OperationsContinue(settings, t, steps[1..], pid);
        if pid in After(settings, t, steps[1..]).procs {
          ContinuesOn(s.procs[pid], t.procs[pid], After(settings, t, steps[1..]).procs[pid]);
        }
      } else {
        StaysGone(settings, t, steps[1..], pid);
      }
    }
  }

  lemma GoneStep(settings: Settings, s: State, step: Step, pid: nat)
    requires settings.Valid() && Enabled(settings, s, step) && pid !in s.procs && !(step.Start? && step.pid == pid)
    ensures pid !in Next(settings, s, step).procs
  {
    StepsOfOthers(settings, s, step, pid);
  }

  lemma {:induction false} StaysGone(settings: Settings, s: State, steps: seq<Step>, pid: nat)
    requires settings.Valid() && Feasible(settings, s, steps) && NotRestarted(steps, pid) && pid !in s.procs
    ensures pid !in After(settings, s, steps).procs
    decreases |steps|
  {
    if steps != [] {
      assert steps[0] in steps;
      GoneStep(settings, s, steps[0], pid);
      StaysGone(settings, Next(settings, s, steps[0]), steps[1..], pid);
    }
  }

  // ---------------------------------------------------------------- whole operations on a session

  /** The operation can take its next step, and these steps of others can follow. */
  ghost predicate Proceeds(settings: Settings, s: State, pid: nat, others: seq<Step>) {
    && settings.Valid() && pid in s.procs
    && Feasible(settings, Next(settings, s, Perform(pid)), others) && Apart(others, pid)
  }

  /** The next step of the operation, and then these steps of others. */
  ghost function Performed(settings: Settings, s: State, pid: nat, others: seq<Step>): State
    requires Proceeds(settings, s, pid, others)
  {
    After(settings, Next(settings, s, Perform(pid)), others)
  }

  /** The operation is about to fetch a live session of its own actor and target. */
  predicate FetchesOwn(s: State, pid: nat) {
    && pid in s.procs && s.procs[pid].Fetching?
    && var p := s.procs[pid];
       && p.sid in s.born && p.sid !in s.gone && s.clock < s.born[p.sid].expiresAt
       && s.born[p.sid].target == p.target && s.born[p.sid].actor == p.actor
  }

  /** The session as it is now, with this selection. */
  function Selecting(v: Session, provider: MarketProvider, symbols: seq<Symbol>, intervals: seq<Interval>): Session {
    Session(v.target, v.actor, v.base, v.expiresAt, provider, symbols, intervals)
  }

  lemma FetchGoesOn(settings: Settings, s: State, pid: nat)
    requires Reachable(settings, s) && FetchesOwn(s, pid)
    ensures var p, n := s.procs[pid], Next(settings, s, Perform(pid));
            && p.sid in s.sessions && SameIdentity(s.sessions[p.sid], s.born[p.sid])
            && n == s.(procs := s.procs[pid := match p.goal
                 case ToSave => Saving(p.actor, p.sid, s.sessions[p.sid], NeedRow)
                 case ToCancel => Closing(p.sid)
                 case ToUpdate(provider, symbols, intervals) =>
                   Validating(p.sid, Selecting(s.born[p.sid], provider, symbols, intervals))])
  {
    ReachableKeeps(settings, s);
    hide Recorded, Owned, AllSound, AllStorable, ReadStep, CreateStep;
  }

  lemma ValidationGoesOn(settings: Settings, s: State, pid: nat)
    requires settings.Valid() && pid in s.procs && s.procs[pid].Validating?
    requires s.clock < s.procs[pid].session.expiresAt
    ensures Next(settings, s, Perform(pid))
         == s.(procs := s.procs[pid := Updating(s.procs[pid].sid, s.procs[pid].session)])
  {
    hide ReadStep, CreateStep;
  }

  lemma UpdateEnds(settings: Settings, s: State, pid: nat)
    requires settings.Valid() && pid in s.procs && s.procs[pid].Updating?
    ensures var p, n := s.procs[pid], Next(settings, s, Perform(pid));
            var sessions := if p.sid in s.sessions then s.sessions[p.sid := p.session] else s.sessions;
            n == s.(procs := s.procs - {pid}, sessions := sessions)
  {
    hide ReadStep, CreateStep;
  }

  /**
   An update of a session, with anything interleaved: if the session is live and the actor's own when it is
   fetched, and its time has not come when it is validated, then storing it replaces the three selections by
   the given ones and changes nothing else. A session that is gone by then does not come back.
   */
  lemma UpdatesAreStored(settings: Settings, s: State, pid: nat, first: seq<Step>, second: seq<Step>)
    requires Reachable(settings, s) && FetchesOwn(s, pid) && s.procs[pid].goal.ToUpdate?
    requires Proceeds(settings, s, pid, first)
    requires Performed(settings, s, pid, first).clock < s.born[s.procs[pid].sid].expiresAt
    requires Proceeds(settings, Performed(settings, s, pid, first), pid, second)
    ensures var sid, goal := s.procs[pid].sid, s.procs[pid].goal;
            var d := Performed(settings, Performed(settings, s, pid, first), pid, second);
            && pid in d.procs
            && Next(settings, d, Perform(pid))
               == d.(procs := d.procs - {pid},
                     sessions := if sid !in d.sessions then d.sessions
                                 else d.sessions[sid := Selecting(s.born[sid], goal.provider, goal.symbols,
                                                                  goal.intervals)])
  {
    var b := Performed(settings, s, pid, first);
    var d := Performed(settings, b, pid, second);
    hide Next, After, Feasible, Reachable;
    FetchGoesOn(settings, s, pid);
    Stands(settings, Next(settings, s, Perform(pid)), first, pid);
    ValidationGoesOn(settings, b, pid);
    Stands(settings, Next(settings, b, Perform(pid)), second, pid);
    UpdateEnds(settings, d, pid);
  }

  /** An update that is validated too late ends there. */
  lemma LateUpdatesEnd(settings: Settings, s: State, pid: nat, first: seq<Step>)
    requires Reachable(settings, s) && FetchesOwn(s, pid) && s.procs[pid].goal.ToUpdate?
    requires Proceeds(settings, s, pid, first)
    requires Performed(settings, s, pid, first).clock >= s.born[s.procs[pid].sid].expiresAt
    ensures var b := Performed(settings, s, pid, first);
            pid in b.procs && Next(settings, b, Perform(pid)) == b.(procs := b.procs - {pid})
  {
    hide After, Feasible, Reachable, ReadStep, CreateStep, FetchStep;
    FetchGoesOn(settings, s, pid);
    Stands(settings, Next(settings, s, Perform(pid)), first, pid);
  }

  /**
   An operation that asks for a session that is gone, over, or not its actor's own ends there; the one thing it
   may do is to remove the session for good, which it does exactly when its time is over.
   */
  lemma RefusedFetchesEnd(settings: Settings, s: State, pid: nat)
    requires Reachable(settings, s) && pid in s.procs && s.procs[pid].Fetching? && !FetchesOwn(s, pid)
    ensures var sid, n := s.procs[pid].sid, Next(settings, s, Perform(pid));
            if sid in s.sessions && s.sessions[sid].expiresAt <= s.clock
            then n == s.(procs := s.procs - {pid}, sessions := s.sessions - {sid}, gone := s.gone + {sid})
            else n == s.(procs := s.procs - {pid})
  {
    ReachableKeeps(settings, s);
    hide Recorded, Owned, AllSound, AllStorable, ReadStep, CreateStep;
  }

  /** A cancel removes a session of the actor's own for good, and nothing else. */
  lemma CancelsRemove(settings: Settings, s: State, pid: nat, others: seq<Step>)
    requires Reachable(settings, s) && FetchesOwn(s, pid) && s.procs[pid].goal.ToCancel?
    requires Proceeds(settings, s, pid, others)
    ensures var sid, d := s.procs[pid].sid, Performed(settings, s, pid, others);
            && pid in d.procs
            && Next(settings, d, Perform(pid))
               == d.(procs := d.procs - {pid}, sessions := d.sessions - {sid}, gone := d.gone + {sid})
  {
    var d := Performed(settings, s, pid, others);
    var t := Next(settings, s, Perform(pid));
    FetchGoesOn(settings, s, pid);
    ReachesNext(settings, s, Perform(pid));
    ReachesAfter(settings, t, others);
    hide After, Feasible, Reachable;
    Stands(settings, t, others, pid);
    StillBorn(settings, t, others, s.procs[pid].sid);
    ClosingRemoves(settings, d, pid);
  }

  lemma StillBorn(settings: Settings, s: State, steps: seq<Step>, sid: nat)
    requires Reachable(settings, s) && Feasible(settings, s, steps) && sid in s.born
    ensures sid in After(settings, s, steps).born
  {
    SessionsEndOnce(settings, s, steps, sid);
  }

  lemma CloseIsPerformed(settings: Settings, s: State, pid: nat)
    requires settings.Valid() && pid in s.procs && s.procs[pid].Closing?
    ensures Next(settings, s, Perform(pid)) == Drop(Remove(s, s.procs[pid].sid), pid)
  {
    hide ReadStep, CreateStep, FetchStep, Drop, Remove;
  }

  /** Closing removes the session for good: after a save that committed, too. */
  lemma ClosingRemoves(settings: Settings, s: State, pid: nat)
    requires Reachable(settings, s) && pid in s.procs && s.procs[pid].Closing? && s.procs[pid].sid in s.born
    ensures var sid, n := s.procs[pid].sid, Next(settings, s, Perform(pid));
            n == s.(procs := s.procs - {pid}, sessions := s.sessions - {sid}, gone := s.gone + {sid})
  {
    ReachableKeeps(settings, s);
    CloseIsPerformed(settings, s, pid);
    hide Reachable, Recorded, Owned, AllSound, AllStorable, Next;
    var sid := s.procs[pid].sid;
    assert sid in s.sessions || (sid in s.gone && s.gone + {sid} == s.gone && s.sessions - {sid} == s.sessions);
  }

  /** A save works on the session as the store held it when it was fetched. */
  lemma SavesWhatWasFetched(settings: Settings, s: State, steps: seq<Step>, pid: nat)
    requires Reachable(settings, s) && FetchesOwn(s, pid) && s.procs[pid].goal.ToSave?
    requires Feasible(settings, Next(settings, s, Perform(pid)), steps) && NotRestarted(steps, pid)
    requires var n := After(settings, Next(settings, s, Perform(pid)), steps); pid in n.procs && n.procs[pid].Saving?
    ensures var p, q := s.procs[pid], After(settings, Next(settings, s, Perform(pid)), steps).procs[pid];
            && q.actor == p.actor && q.sid == p.sid
            && p.sid in s.sessions && q.session == s.sessions[p.sid]
  {
    FetchGoesOn(settings, s, pid);
    OperationsContinue(settings, Next(settings, s, Perform(pid)), steps, pid);
    hide Next, After, Feasible, Reachable;
  }

  /**
   Enable and Pause act on the version that was read first: once Handle has read its row, whatever happens
   before its transaction, that transaction sets the flag asked for on exactly that version, or does nothing.
   */
  lemma TogglesWhatWasRead(settings: Settings, s: State, steps: seq<Step>, pid: nat)
    requires Reachable(settings, s) && pid in s.procs && s.procs[pid].Checking? && !s.procs[pid].read.NeedRow?
    requires Feasible(settings, s, steps) && NotRestarted(steps, pid)
    requires var n := After(settings, s, steps);
             pid in n.procs && n.procs[pid].Toggling? && n.procs[pid].read.Done?
    ensures var p, n := s.procs[pid], After(settings, s, steps);
            && p.target in n.tables.rows
            && if settings.trim(p.actor) != "" && n.tables.rows[p.target].version == p.read.row.version
               then FlagChanged(n, Next(settings, n, Perform(pid)), p.target, p.enable, settings.trim(p.actor))
               else Next(settings, n, Perform(pid)) == n.(procs := n.procs - {pid})
  {
    ReachesAfter(settings, s, steps);
    OperationsContinue(settings, s, steps, pid);
    hide Next, After, Feasible, Reachable, FlagChanged;
    TogglesAreAtomic(settings, After(settings, s, steps), pid);
  }

  // ---------------------------------------------------------------- the first configuration

  /** The default provider offers the first symbol at the first interval, and the actor and target are named. */
  predicate FirstIsPossible(settings: Settings, s: State, target: string, actor: string)
    requires settings.defaultSymbols != [] && settings.defaultIntervals != []
  {
    && settings.resolver.Supports(settings.defaultProvider, settings.normalize(settings.defaultSymbols[0]),
                                  settings.defaultIntervals[0])
    && settings.trim(actor) != "" && target != "" && target !in s.tables.rows
  }

  /** The one change an atomic first create makes: a disabled version 0 with the first pair of the settings. */
  ghost predicate FirstStored(settings: Settings, s: State, n: State, target: string, actor: string)
    requires settings.defaultSymbols != [] && settings.defaultIntervals != []
  {
    var symbols, intervals := {settings.normalize(settings.defaultSymbols[0])}, {settings.defaultIntervals[0]};
    && n.history
       == s.history[target := [Commit(Content(settings.defaultProvider, false, symbols, intervals), Creation, None)]]
    && n.tables
       == Tables(s.tables.rows[target := ConfigRow(settings.defaultProvider, false, 0, settings.trim(actor))],
                 s.tables.symbols[target := symbols], s.tables.intervals[target := intervals])
    && n.sessions == s.sessions && n.born == s.born && n.gone == s.gone && n.clock == s.clock
  }

  lemma FirstIsAccepted(settings: Settings, actor: string)
    requires settings.Valid()
    ensures var symbols, intervals := [settings.defaultSymbols[0]], [settings.defaultIntervals[0]];
            && settings.Normalized(symbols) == [settings.normalize(settings.defaultSymbols[0])]
            && settings.EffectiveProvider(settings.defaultProvider) == settings.defaultProvider
            && (settings.Accepts(settings.defaultProvider, symbols, intervals, actor)
                <==> && settings.trim(actor) != ""
                     && settings.resolver.Supports(settings.defaultProvider,
                            settings.normalize(settings.defaultSymbols[0]), settings.defaultIntervals[0]))
  {
    var symbols, intervals := [settings.defaultSymbols[0]], [settings.defaultIntervals[0]];
    assert settings.Normalized(symbols) == [settings.normalize(settings.defaultSymbols[0])];
    assert settings.defaultSymbols[0] in settings.defaultSymbols;
    assert settings.Allowed(settings.normalize(settings.defaultSymbols[0]));
    assert settings.normalize(settings.defaultSymbols[0]) in settings.Normalized(symbols) && intervals[0] in intervals;
  }

  /**
   The create transaction succeeds exactly when the first pair of the settings is possible and the database
   carries it out; then it stores that pair, disabled, and nothing else. Whatever the answer, Configure reads
   again, and remembers whether it was told that it had created the configuration.
   */
  lemma CreationsAreAtomic(settings: Settings, s: State, pid: nat, fault: Fault)
    requires Reachable(settings, s) && pid in s.procs && s.procs[pid].Creating?
    ensures var p, n := s.procs[pid], Next(settings, s, Falter(pid, fault));
            var lands := FirstIsPossible(settings, s, p.target, p.actor) && fault != BeforeCommit;
            && n.procs
               == s.procs[pid := Configuring(p.target, p.actor, Recheck(lands && fault == NoFault), NeedRow)]
            && if lands then FirstStored(settings, s, n, p.target, p.actor) else n == s.(procs := n.procs)
    ensures Next(settings, s, Perform(pid)) == Next(settings, s, Falter(pid, NoFault))
  {
    var p := s.procs[pid];
    ReachableKeeps(settings, s);
    FirstIsAccepted(settings, p.actor);
    hide Reachable, AllStorable, Owned, Kept, AllSound, Line, Mirrors, Settings.Accepts, ReadStep, FetchStep;
    CreateLands(settings, s, pid, p.target, p.actor, fault);
  }

  lemma CreateLands(settings: Settings, s: State, pid: nat, target: string, actor: string, fault: Fault)
    requires settings.Valid() && Recorded(s.tables, s.history)
    ensures var n := CreateStep(settings, s, pid, target, actor, fault);
            var lands := FirstIsPossible(settings, s, target, actor) && fault != BeforeCommit;
            && n.procs == s.procs[pid := Configuring(target, actor, Recheck(lands && fault == NoFault), NeedRow)]
            && if lands then FirstStored(settings, s, n, target, actor) else n == s.(procs := n.procs)
  {
    FirstIsAccepted(settings, actor);
    var symbols, intervals := [settings.defaultSymbols[0]], [settings.defaultIntervals[0]];
    var c := settings.Prepared(settings.defaultProvider, false, symbols, intervals, 0, actor);
    hide Settings.Accepts, Line, Mirrors;
    assert Elems(c.symbols) == {settings.normalize(settings.defaultSymbols[0])};
    assert Elems(c.intervals) == {settings.defaultIntervals[0]};
    var lands := FirstIsPossible(settings, s, target, actor) && fault != BeforeCommit;
    var n := CreateStep(settings, s, pid, target, actor, fault);
    if settings.trim(actor) != "" && target != "" { assert ValidConfig(target, c); }
    if lands {
      assert n == Goto(Committed(s, target, c, 0, Creation), pid, n.procs[pid]);
      assert [] + [Commit(ContentOf(c), Creation, None)] == [Commit(ContentOf(c), Creation, None)];
    }
  }

  /** The first Configure of a target goes on to create its configuration; nothing else does. */
  lemma OnlyConfigureCreates(settings: Settings, s: State, pid: nat)
    requires Reachable(settings, s) && pid in s.procs && Reads(s.procs[pid]) && s.procs[pid].read.NeedRow?
    requires ReadTarget(s.procs[pid]) !in s.tables.rows
    ensures var p, n := s.procs[pid], Next(settings, s, Perform(pid));
            n.procs == if p.Configuring? && p.attempt == First then s.procs[pid := Creating(p.target, p.actor)]
                       else s.procs - {pid}
  {
    hide Reachable, ReadDone, Advanced, CreateStep, FetchStep;
  }
}
