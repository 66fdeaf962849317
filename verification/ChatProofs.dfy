/**
 What every interleaving of configuration operations keeps: the committed versions of a target are a
 line of atomic operations, however its configuration was read in between.
 */
module ChatProofs {
  import opened Prelude
  import opened Domain
  import opened Configs
  import opened ConfigServices
  import opened ChatProtocol

  /** What an operation does to the content it finds, executed at once. */
  function Apply(cause: Cause, before: Content): Content {
    match cause
    case Creation => before
    case Toggle(enable) => before.(enabled := enable)
    case Save(_, provider, symbols, intervals) => Content(provider, before.enabled, symbols, intervals)
  }

  function Past(history: map<string, seq<Commit>>, target: string): seq<Commit> {
    if target in history then history[target] else []
  }

  ghost predicate StorableContent(settings: Settings, c: Content) {
    settings.Storable(c.provider, c.symbols, c.intervals)
  }

  /** Version i follows version i - 1 by one atomic operation that was based on it. */
  predicate Follows(h: seq<Commit>, i: nat)
    requires i < |h|
  {
    if i == 0 then h[0].cause == Creation && h[0].base == None && !h[0].content.enabled
    else && !h[i].cause.Creation?
         && h[i].base == Some(i - 1)
         && h[i].content == Apply(h[i].cause, h[i - 1].content)
  }

  ghost predicate Line(h: seq<Commit>) {
    h != [] && forall i :: 0 <= i < |h| ==> Follows(h, i)
  }

  ghost predicate StorableLine(settings: Settings, h: seq<Commit>) {
    forall i :: 0 <= i < |h| ==> StorableContent(settings, h[i].content)
  }

  /** The tables hold the last commit. */
  predicate Mirrors(t: Tables, target: string, h: seq<Commit>) {
    && h != [] && target in t.rows
    && t.rows[target].version == |h| - 1
    && h[|h| - 1].content == Content(t.rows[target].provider, t.rows[target].enabled,
                                     Children(t.symbols, target), Children(t.intervals, target))
  }

  /** A save was made through a session of its target that was opened at the version it replaced. */
  predicate SaveOwned(born: map<nat, Session>, target: string, h: seq<Commit>, i: nat)
    requires i < |h|
  {
    h[i].cause.Save? ==>
      h[i].cause.sid in born && born[h[i].cause.sid].target == target && h[i].base == Some(born[h[i].cause.sid].base)
  }

  ghost predicate Recorded(t: Tables, history: map<string, seq<Commit>>) {
    && (forall target :: target in t.rows <==> target in history)
    && "" !in history
    && forall target :: target in history ==> Line(history[target]) && Mirrors(t, target, history[target])
  }

  ghost predicate AllStorable(settings: Settings, history: map<string, seq<Commit>>) {
    forall target :: target in history ==> StorableLine(settings, history[target])
  }

  ghost predicate OwnedLine(born: map<nat, Session>, target: string, h: seq<Commit>) {
    forall i :: 0 <= i < |h| ==> SaveOwned(born, target, h, i)
  }

  ghost predicate Owned(history: map<string, seq<Commit>>, born: map<nat, Session>) {
    forall target :: target in history ==> OwnedLine(born, target, history[target])
  }

  /** What never changes about a session. */
  predicate SameIdentity(a: Session, b: Session) {
    a.target == b.target && a.actor == b.actor && a.base == b.base && a.expiresAt == b.expiresAt
  }

  predicate Descends(born: map<nat, Session>, sid: nat, session: Session) {
    sid in born && SameIdentity(session, born[sid])
  }

  ghost predicate Kept(sessions: map<nat, Session>, born: map<nat, Session>, gone: set<nat>) {
    && (forall sid :: sid in sessions ==> Descends(born, sid, sessions[sid]) && sid !in gone)
    && (forall sid :: sid in gone ==> sid in born)
    && (forall sid :: sid in born && sid !in gone ==> sid in sessions)
  }

  predicate RowSound(h: seq<Commit>, row: ConfigRow) {
    && row.version < |h|
    && row.provider == h[row.version].content.provider
    && row.enabled == h[row.version].content.enabled
  }

  /** Every statement of a read saw some committed version, and the versions only went up. */
  predicate ReadSound(h: seq<Commit>, read: Read) {
    match read
    case NeedRow => true
    case NeedSymbols(row) => RowSound(h, row)
    case NeedIntervals(row, symbols, symbolsAt) =>
      && RowSound(h, row)
      && row.version <= symbolsAt < |h| && symbols == h[symbolsAt].content.symbols
    case Done(row, symbols, symbolsAt, intervals, intervalsAt) =>
      && RowSound(h, row)
      && row.version <= symbolsAt <= intervalsAt < |h|
      && symbols == h[symbolsAt].content.symbols && intervals == h[intervalsAt].content.intervals
  }

  predicate NotBefore(read: Read, version: nat) {
    !read.NeedRow? ==> read.row.version >= version
  }

  predicate Sound(history: map<string, seq<Commit>>, born: map<nat, Session>, p: Proc) {
    match p
    case Reading(target, read) => ReadSound(Past(history, target), read)
    case Configuring(target, _, _, read) => ReadSound(Past(history, target), read)
    case Checking(target, _, _, read) => ReadSound(Past(history, target), read)
    case Toggling(target, _, _, expected, read) =>
      expected < |Past(history, target)| && ReadSound(Past(history, target), read) && NotBefore(read, expected)
    case Saving(_, sid, session, read) => Descends(born, sid, session) && ReadSound(Past(history, session.target), read)
    case Validating(sid, session) => Descends(born, sid, session)
    case Updating(sid, session) => Descends(born, sid, session)
    case _ => true
  }

  ghost predicate AllSound(history: map<string, seq<Commit>>, born: map<nat, Session>, procs: map<nat, Proc>) {
    forall pid :: pid in procs ==> Sound(history, born, procs[pid])
  }

  ghost predicate Inv(settings: Settings, s: State) {
    && Recorded(s.tables, s.history)
    && AllStorable(settings, s.history)
    && Owned(s.history, s.born)
    && Kept(s.sessions, s.born, s.gone)
    && AllSound(s.history, s.born, s.procs)
  }

  /** Commits are only ever appended, births only added, sessions only removed, the clock only advances. */
  ghost predicate Extends(history: map<string, seq<Commit>>, later: map<string, seq<Commit>>) {
    forall target :: target in history ==> target in later && history[target] <= later[target]
  }

  ghost predicate Later(s: State, t: State) {
    && s.clock <= t.clock
    && Extends(s.history, t.history)
    && (forall sid :: sid in s.born ==> sid in t.born && t.born[sid] == s.born[sid])
    && s.gone <= t.gone
  }

  lemma LaterTransitive(a: State, b: State, c: State)
    requires Later(a, b) && Later(b, c)
    ensures Later(a, c)
  {
    forall target | target in a.history ensures target in c.history && a.history[target] <= c.history[target] {
      assert a.history[target] <= b.history[target] <= c.history[target];
    }
  }

  lemma SoundStays(
    history: map<string, seq<Commit>>, later: map<string, seq<Commit>>, born: map<nat, Session>,
    born': map<nat, Session>, p: Proc)
    requires Sound(history, born, p) && Extends(history, later)
    requires forall sid :: sid in born ==> sid in born' && born'[sid] == born[sid]
    ensures Sound(later, born', p)
  {
  }

  lemma OwnedStays(history: map<string, seq<Commit>>, born: map<nat, Session>, born': map<nat, Session>)
    requires Owned(history, born)
    requires forall sid :: sid in born ==> sid in born' && born'[sid] == born[sid]
    ensures Owned(history, born')
  {
    forall target | target in history ensures OwnedLine(born', target, history[target]) {
      var h := history[target];
      assert OwnedLine(born, target, h);
      forall i | 0 <= i < |h| ensures SaveOwned(born', target, h, i) {
        assert SaveOwned(born, target, h, i);
      }
    }
  }

  /** Each statement of a read is sound when the tables mirror the history. */
  lemma ReadStaysSound(t: Tables, target: string, h: seq<Commit>, read: Read)
    requires target in t.rows <==> h != []
    requires h != [] ==> Mirrors(t, target, h)
    requires ReadSound(h, read) && !MissesRow(t, target, read)
    ensures ReadSound(h, ReadNext(t, target, read))
  {
  }

  /** One more commit at the end of a target's line. */
  lemma LineGrows(h: seq<Commit>, c: Commit)
    requires h == [] || Line(h)
    requires Follows(h + [c], |h|)
    ensures Line(h + [c])
  {
    var g := h + [c];
    forall i | 0 <= i < |g| ensures Follows(g, i) {
      if i < |h| {
        assert Follows(h, i);
        assert g[i] == h[i] && (i > 0 ==> g[i - 1] == h[i - 1]);
      }
    }
  }

  lemma OwnedLineGrows(born: map<nat, Session>, target: string, h: seq<Commit>, c: Commit)
    requires OwnedLine(born, target, h)
    requires c.cause.Save? ==>
               c.cause.sid in born && born[c.cause.sid].target == target && c.base == Some(born[c.cause.sid].base)
    ensures OwnedLine(born, target, h + [c])
  {
    forall i | 0 <= i < |h| ensures SaveOwned(born, target, h + [c], i) {
      assert SaveOwned(born, target, h, i);
    }
  }

  /** The commit that a write of c under a version amounts to, after the commits h. */
  function CommitOf(c: AlertConfig, version: nat, cause: Cause): Commit {
    Commit(ContentOf(c), cause, if version == 0 then None else Some(version - 1))
  }

  lemma WrittenMirrors(t: Tables, target: string, h: seq<Commit>, c: AlertConfig, version: nat, cause: Cause)
    requires |h| == version
    ensures Mirrors(Written(t, target, c, version), target, h + [CommitOf(c, version, cause)])
  {
  }

  lemma OthersMirrorStill(t: Tables, target: string, c: AlertConfig, version: nat, other: string, h: seq<Commit>)
    requires other != target && Mirrors(t, other, h)
    ensures Mirrors(Written(t, target, c, version), other, h)
  {
  }

  /** A committed operation extends one line by one version, and the tables follow. */
  lemma CommitKeeps(
    t: Tables, history: map<string, seq<Commit>>, target: string, c: AlertConfig, version: nat, cause: Cause)
    requires Recorded(t, history) && version == |Past(history, target)| && target != ""
    requires Follows(Past(history, target) + [CommitOf(c, version, cause)], version)
    ensures Recorded(Written(t, target, c, version),
              history[target := Past(history, target) + [CommitOf(c, version, cause)]])
  {
    hide Follows, Line, Mirrors, CommitOf;
    var h, n := Past(history, target), Written(t, target, c, version);
    LineGrows(h, CommitOf(c, version, cause));
    WrittenMirrors(t, target, h, c, version, cause);
    forall other | other in history && other != target ensures Mirrors(n, other, history[other]) {
      OthersMirrorStill(t, target, c, version, other, history[other]);
    }
  }

  lemma GotoKeeps(settings: Settings, s: State, pid: nat, p: Proc)
    requires Inv(settings, s) && Sound(s.history, s.born, p)
    ensures Inv(settings, Goto(s, pid, p)) && Later(s, Goto(s, pid, p))
  {
  }

  lemma DropKeeps(settings: Settings, s: State, pid: nat)
    requires Inv(settings, s)
    ensures Inv(settings, Drop(s, pid)) && Later(s, Drop(s, pid))
  {
  }

  lemma RemoveKeeps(settings: Settings, s: State, sid: nat)
    requires Inv(settings, s)
    ensures Inv(settings, Remove(s, sid)) && Later(s, Remove(s, sid))
  {
  }

  lemma StoredKeeps(settings: Settings, s: State, sid: nat, session: Session)
    requires Inv(settings, s) && sid in s.sessions && Descends(s.born, sid, session)
    ensures var n := s.(sessions := s.sessions[sid := session]); Inv(settings, n) && Later(s, n)
  {
  }

  lemma OpenKeeps(settings: Settings, s: State, sid: nat, session: Session)
    requires Inv(settings, s) && sid !in s.born
    ensures var n := s.(sessions := s.sessions[sid := session], born := s.born[sid := session]);
              Inv(settings, n) && Later(s, n)
  {
    hide Recorded, AllStorable, Sound, OwnedLine;
    var n := s.(sessions := s.sessions[sid := session], born := s.born[sid := session]);
    OwnedStays(s.history, s.born, n.born);
    forall pid | pid in s.procs ensures Sound(s.history, n.born, s.procs[pid]) {
      SoundStays(s.history, s.history, s.born, n.born, s.procs[pid]);
    }
  }

  lemma StorableGrows(settings: Settings, history: map<string, seq<Commit>>, target: string, c: Commit)
    requires AllStorable(settings, history) && StorableContent(settings, c.content)
    ensures AllStorable(settings, history[target := Past(history, target) + [c]])
  {
    var h := Past(history, target);
    forall i | 0 <= i < |h| + 1 ensures StorableContent(settings, (h + [c])[i].content) {
      if i < |h| { assert StorableLine(settings, h); }
    }
  }

  lemma HistoryExtends(history: map<string, seq<Commit>>, target: string, c: Commit)
    ensures Extends(history, history[target := Past(history, target) + [c]])
  {
  }

  lemma CommittedKeeps(settings: Settings, s: State, target: string, c: AlertConfig, version: nat, cause: Cause)
    requires Inv(settings, s) && version == |Past(s.history, target)| && target != ""
    requires Follows(Past(s.history, target) + [CommitOf(c, version, cause)], version)
    requires StorableContent(settings, ContentOf(c))
    requires cause.Save? ==> && cause.sid in s.born && s.born[cause.sid].target == target
                             && s.born[cause.sid].base == version - 1
    ensures var n := Committed(s, target, c, version, cause); Inv(settings, n) && Later(s, n)
  {
    hide Follows, StorableContent, Mirrors, Line, SaveOwned, StorableLine, Sound, Kept, Recorded, AllStorable, Extends;
    var h, commit := Past(s.history, target), CommitOf(c, version, cause);
    var n := Committed(s, target, c, version, cause);
    assert n.history == s.history[target := h + [commit]];
    CommitKeeps(s.tables, s.history, target, c, version, cause);
    StorableGrows(settings, s.history, target, commit);
    HistoryExtends(s.history, target, commit);
    assert OwnedLine(s.born, target, h);
    OwnedLineGrows(s.born, target, h, commit);
    forall pid | pid in s.procs ensures Sound(n.history, n.born, s.procs[pid]) {
      SoundStays(s.history, n.history, s.born, s.born, s.procs[pid]);
    }
  }
}
