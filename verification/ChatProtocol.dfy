/**
 The configuration protocol as a step system: internal/chat/service.go over the session store of
 internal/chat/session.go and the tables of internal/repository/postgres.go. Every database statement
 and every store call is one step; only the create and replace transactions are atomic.
 */
module ChatProtocol {
  import opened Prelude
  import opened Ordering
  import opened Domain
  import opened Configs
  import opened ConfigServices

  datatype Session = Session(
    target: string, actor: string, base: nat, expiresAt: Nanos,
    provider: MarketProvider, symbols: seq<Symbol>, intervals: seq<Interval>)

  /**
   How far a GetAlertConfig has come. Its three statements may see three different versions, so the
   version current when the children were listed is kept beside them (a history variable: no step
   looks at it).
   */
  datatype Read =
    | NeedRow
    | NeedSymbols(row: ConfigRow)
    | NeedIntervals(row: ConfigRow, symbols: set<Symbol>, symbolsAt: nat)
    | Done(row: ConfigRow, symbols: set<Symbol>, symbolsAt: nat, intervals: set<Interval>, intervalsAt: nat)

  /** Whether Configure is on its first read, or reads again after its create succeeded or failed. */
  datatype Attempt = First | Recheck(created: bool)

  /** An operation in progress: where it is and what it remembers. Reading is Show, or a round's load. */
  datatype Proc =
    | Reading(target: string, read: Read)
    | Configuring(target: string, actor: string, attempt: Attempt, read: Read)
    | Creating(target: string, actor: string)
    | Checking(target: string, actor: string, enable: bool, read: Read)
    | Toggling(target: string, actor: string, enable: bool, expected: nat, read: Read)
    | Fetching(target: string, actor: string, sid: nat, goal: Goal)
    | Saving(actor: string, sid: nat, session: Session, read: Read)
    | Validating(sid: nat, session: Session)
    | Updating(sid: nat, session: Session)
    | Closing(sid: nat)

  /** What an operation fetches a session for. */
  datatype Goal = ToSave | ToCancel | ToUpdate(provider: MarketProvider, symbols: seq<Symbol>, intervals: seq<Interval>)

  datatype Content = Content(provider: MarketProvider, enabled: bool, symbols: set<Symbol>, intervals: set<Interval>)

  /** The atomic operation that a commit amounts to. */
  datatype Cause =
    | Creation
    | Toggle(enable: bool)
    | Save(sid: nat, provider: MarketProvider, symbols: set<Symbol>, intervals: set<Interval>)

  /** One committed version: what it holds, what committed it, and the version it was based on. */
  datatype Commit = Commit(content: Content, cause: Cause, base: Option<nat>)

  /** history, born and gone are histories: commits per target, sessions as created, sessions removed. */
  datatype State = State(
    clock: Nanos,
    tables: Tables,
    sessions: map<nat, Session>,
    procs: map<nat, Proc>,
    history: map<string, seq<Commit>>,
    born: map<nat, Session>,
    gone: set<nat>)

  /**
   Falter is a create whose transaction is answered with an error; for the other transactions an error
   without effect is Abort, and a lost answer is Perform followed by Abort.
   */
  datatype Step =
    | Tick(passed: nat)
    | Start(pid: nat, proc: Proc)
    | Perform(pid: nat)
    | Falter(pid: nat, fault: Fault)
    | OpenSession(pid: nat, sid: nat, ttl: nat)
    | Abort(pid: nat)

  function Init(clock: Nanos): State {
    State(clock, Tables(map[], map[], map[]), map[], map[], map[], map[], {})
  }

  predicate Initial(proc: Proc) {
    match proc
    case Configuring(_, _, attempt, read) => attempt == First && read == NeedRow
    case Reading(_, read) => read == NeedRow
    case Checking(_, _, _, read) => read == NeedRow
    case Fetching(_, _, _, _) => true
    case _ => false
  }

  /** One statement of GetAlertConfig; the row statement has found its row. */
  function ReadNext(t: Tables, target: string, read: Read): Read
    requires read.NeedRow? ==> target in t.rows
  {
    match read
    case NeedRow => NeedSymbols(t.rows[target])
    case NeedSymbols(row) => NeedIntervals(row, Children(t.symbols, target), VersionNow(t, target))
    case NeedIntervals(row, symbols, at) => Done(row, symbols, at, Children(t.intervals, target), VersionNow(t, target))
    case Done(_, _, _, _, _) => read
  }

  function VersionNow(t: Tables, target: string): nat {
    if target in t.rows then t.rows[target].version else 0
  }

  function ContentOf(c: AlertConfig): Content {
    Content(c.provider, c.enabled, Elems(c.symbols), Elems(c.intervals))
  }

  function Drop(s: State, pid: nat): State {
    s.(procs := s.procs - {pid})
  }

  function Goto(s: State, pid: nat, proc: Proc): State {
    s.(procs := s.procs[pid := proc])
  }

  function Remove(s: State, sid: nat): State {
    if sid in s.sessions then s.(sessions := s.sessions - {sid}, gone := s.gone + {sid}) else s
  }

  /** A committed write: the tables change and the target's history grows by one. */
  function Committed(s: State, target: string, c: AlertConfig, version: nat, cause: Cause): State {
    var past := if target in s.history then s.history[target] else [];
    s.(tables := Written(s.tables, target, c, version),
       history := s.history[target := past +
           [Commit(ContentOf(c), cause, if version == 0 then None else Some(version - 1))]])
  }

  /** The create transaction of GetOrCreateConfig; whatever its answer, the configuration is read again. */
  function CreateStep(settings: Settings, s: State, pid: nat, target: string, actor: string, fault: Fault): State
    requires settings.defaultSymbols != [] && settings.defaultIntervals != []
  {
    var symbols, intervals := [settings.defaultSymbols[0]], [settings.defaultIntervals[0]];
    var c := settings.Prepared(settings.defaultProvider, false, symbols, intervals, 0, actor);
    var lands := settings.Accepts(settings.defaultProvider, symbols, intervals, actor)
                 && CreateSucceeds(s.tables, target, c) && fault != BeforeCommit;
    var after := if lands then Committed(s, target, c, 0, Creation) else s;
    Goto(after, pid, Configuring(target, actor, Recheck(lands && fault == NoFault), NeedRow))
  }

  /** What SetAlertConfigEnabled writes back: what was read, with the flag changed. */
  ghost function ToggledConfig(settings: Settings, p: Proc): AlertConfig
    requires p.Toggling? && p.read.Done?
  {
    AlertConfig(p.read.row.provider, p.enable, Listing(p.read.symbols), Listing(p.read.intervals),
        p.read.row.version, settings.trim(p.actor))
  }

  /** The replace transaction of SetAlertConfigEnabled. */
  ghost function ToggleStep(settings: Settings, s: State, pid: nat, p: Proc): State
    requires p.Toggling? && p.read.Done?
  {
    var c := ToggledConfig(settings, p);
    if settings.trim(p.actor) != "" && ReplaceSucceeds(s.tables, p.target, c, p.expected)
    then Drop(Committed(s, p.target, c, p.expected + 1, Toggle(p.enable)), pid)
    else Drop(s, pid)
  }

  function Saved(sid: nat, c: AlertConfig): Cause {
    Save(sid, c.provider, Elems(c.symbols), Elems(c.intervals))
  }

  function SavedConfig(settings: Settings, p: Proc): AlertConfig
    requires p.Saving? && p.read.Done?
  {
    var session := p.session;
    settings.Prepared(session.provider, p.read.row.enabled, session.symbols, session.intervals, session.base, p.actor)
  }

  /** The version check of saveSession and every check of ReplaceConfig have passed. */
  predicate SaveSucceeds(settings: Settings, t: Tables, p: Proc)
    requires p.Saving? && p.read.Done?
  {
    var session := p.session;
    && p.read.row.version == session.base
    && settings.Accepts(session.provider, session.symbols, session.intervals, p.actor)
    && ReplaceSucceeds(t, session.target, SavedConfig(settings, p), session.base)
  }

  /** saveSession from its version check on: only a session at the version just read is written. */
  function SaveStep(settings: Settings, s: State, pid: nat, p: Proc): State
    requires p.Saving? && p.read.Done?
  {
    var c := SavedConfig(settings, p);
    if SaveSucceeds(settings, s.tables, p)
    then Goto(Committed(s, p.session.target, c, p.session.base + 1, Saved(p.sid, c)), pid, Closing(p.sid))
    else Drop(s, pid)
  }

  /** sessions.Get and the ownership check: an expired session is purged, a foreign one is refused. */
  function FetchStep(s: State, pid: nat, p: Proc): State
    requires p.Fetching?
  {
    if p.sid !in s.sessions then Drop(s, pid)
    else
      var session := s.sessions[p.sid];
      if s.clock >= session.expiresAt then Drop(Remove(s, p.sid), pid)
      else if session.target != p.target || session.actor != p.actor then Drop(s, pid)
      else
        match p.goal
        case ToSave => Goto(s, pid, Saving(p.actor, p.sid, session, NeedRow))
        case ToCancel => Goto(s, pid, Closing(p.sid))
        case ToUpdate(provider, symbols, intervals) =>
          Goto(s, pid, Validating(p.sid, session.(provider := provider, symbols := symbols, intervals := intervals)))
  }

  predicate MissesRow(t: Tables, target: string, read: Read) {
    read.NeedRow? && target !in t.rows
  }

  predicate Reads(p: Proc) {
    p.Reading? || p.Configuring? || p.Checking? || p.Toggling? || p.Saving?
  }

  function ReadTarget(p: Proc): string
    requires Reads(p)
  {
    if p.Saving? then p.session.target else p.target
  }

  /** The operation after the next statement of its read. */
  function Advanced(t: Tables, p: Proc): Proc
    requires Reads(p) && !MissesRow(t, ReadTarget(p), p.read)
  {
    match p
    case Reading(target, read) => Reading(target, ReadNext(t, target, read))
    case Configuring(target, actor, attempt, read) => Configuring(target, actor, attempt, ReadNext(t, target, read))
    case Checking(target, actor, enable, read) => Checking(target, actor, enable, ReadNext(t, target, read))
    case Toggling(target, actor, enable, expected, read) => Toggling(target, actor, enable, expected,
        ReadNext(t, target, read))
    case Saving(actor, sid, session, read) => Saving(actor, sid, session, ReadNext(t, session.target, read))
  }

  /**
   What follows a completed read. Handle takes the version of its first read to SetAlertConfigEnabled,
   and Configure opens its session in a step of its own.
   */
  ghost function ReadDone(settings: Settings, s: State, pid: nat, p: Proc): State
    requires Reads(p) && p.read.Done?
  {
    match p
    case Reading(_, _) => Drop(s, pid)
    case Configuring(_, _, _, _) => s
    case Checking(target, actor, enable, read) => Goto(s, pid,
        Toggling(target, actor, enable, read.row.version, NeedRow))
    case Toggling(_, _, _, _, _) => ToggleStep(settings, s, pid, p)
    case Saving(_, _, _, _) => SaveStep(settings, s, pid, p)
  }

  /** A missing configuration is created by the first read of Configure and fails every other operation. */
  function RowMissing(s: State, pid: nat, p: Proc): State {
    if p.Configuring? && p.attempt == First then Goto(s, pid, Creating(p.target, p.actor)) else Drop(s, pid)
  }

  /** The next statement of an operation that is reading a configuration. */
  ghost function ReadStep(settings: Settings, s: State, pid: nat, p: Proc): State
    requires Reads(p)
  {
    if MissesRow(s.tables, ReadTarget(p), p.read) then RowMissing(s, pid, p)
    else if p.read.Done? then ReadDone(settings, s, pid, p)
    else Goto(s, pid, Advanced(s.tables, p))
  }

  /** The next statement or store call of one operation. */
  ghost function PerformStep(settings: Settings, s: State, pid: nat): State
    requires pid in s.procs && settings.defaultSymbols != [] && settings.defaultIntervals != []
  {
    var p := s.procs[pid];
    if Reads(p) then ReadStep(settings, s, pid, p)
    else
      match p
      case Creating(target, actor) => CreateStep(settings, s, pid, target, actor, NoFault)
      case Fetching(_, _, _, _) => FetchStep(s, pid, p)
      case Validating(sid, session) =>
        if s.clock >= session.expiresAt then Drop(s, pid) else Goto(s, pid, Updating(sid, session))
      case Updating(sid, session) =>
        if sid in s.sessions then Drop(s.(sessions := s.sessions[sid := session]), pid) else Drop(s, pid)
      case Closing(sid) => Drop(Remove(s, sid), pid)
  }

  /** The session a finished Configure opens; a configuration it did not create is made canonical. */
  ghost function Opened(settings: Settings, p: Proc, expiresAt: Nanos): Session
    requires p.Configuring? && p.read.Done?
  {
    var row := p.read.row;
    var provider := if p.attempt == Recheck(true) then row.provider else settings.EffectiveProvider(row.provider);
    var symbols := if p.attempt == Recheck(true) then Listing(p.read.symbols)
                   else settings.CanonicalSymbols(provider, Listing(p.read.symbols));
    Session(p.target, p.actor, row.version, expiresAt, provider, symbols, Listing(p.read.intervals))
  }

  /** Handle refuses a blank actor before anything else; UpdateSession does not look. */
  predicate Admitted(settings: Settings, proc: Proc) {
    match proc
    case Configuring(_, actor, _, _) => settings.trim(actor) != ""
    case Checking(_, actor, _, _) => settings.trim(actor) != ""
    case Fetching(_, actor, _, goal) => goal.ToUpdate? || settings.trim(actor) != ""
    case _ => true
  }

  /** Session ids are fresh UUIDs; operation numbers name the operations. */
  predicate Enabled(settings: Settings, s: State, step: Step) {
    match step
    case Tick(_) => true
    case Start(pid, proc) => pid !in s.procs && Initial(proc) && Admitted(settings, proc)
    case Perform(pid) => pid in s.procs
    case OpenSession(pid, sid, ttl) =>
      pid in s.procs && s.procs[pid].Configuring? && s.procs[pid].read.Done? && sid !in s.born && ttl > 0
    case Falter(pid, _) => pid in s.procs && s.procs[pid].Creating?
    case Abort(pid) => pid in s.procs
  }

  ghost function Next(settings: Settings, s: State, step: Step): State
    requires Enabled(settings, s, step) && settings.Valid()
  {
    match step
    case Tick(passed) => s.(clock := s.clock + passed)
    case Start(pid, proc) => Goto(s, pid, proc)
    case Perform(pid) => PerformStep(settings, s, pid)
    case OpenSession(pid, sid, ttl) =>
      var session := Opened(settings, s.procs[pid], s.clock + ttl);
      Drop(s.(sessions := s.sessions[sid := session], born := s.born[sid := session]), pid)
    case Falter(pid, fault) => CreateStep(settings, s, pid, s.procs[pid].target, s.procs[pid].actor, fault)
    case Abort(pid) => Drop(s, pid)
  }

  ghost predicate Feasible(settings: Settings, s: State, steps: seq<Step>)
    requires settings.Valid()
    decreases |steps|
  {
    steps == [] || (Enabled(settings, s, steps[0]) && Feasible(settings, Next(settings, s, steps[0]), steps[1..]))
  }

  ghost function After(settings: Settings, s: State, steps: seq<Step>): State
    requires settings.Valid() && Feasible(settings, s, steps)
    decreases |steps|
  {
    if steps == [] then s else After(settings, Next(settings, s, steps[0]), steps[1..])
  }
}
