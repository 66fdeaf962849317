/**
 What one execution round does, as functions of the job rows and the environment: the three phases of
 internal/scheduler/target_executor.go, the naive per-target loop they replace, and the legacy round
 of internal/scheduler/executor.go.
 */
module Rounds {
  import opened Prelude
  import opened Domain
  import opened Registry
  import opened Messages
  import opened Jobs

  datatype FetchKey = FetchKey(provider: MarketProvider, symbol: Symbol)

  /** serves: the chat provider a notifier declares, if any. */
  datatype Notifier = Notifier(serves: Option<ChatProvider>)

  /**
   Everything a round cannot control, as total functions: configuration loads, write faults, fresh
   ids, the market for the round's period, notifier errors, and the clock at each write.
   */
  datatype Env = Env(
    config: string -> Result<AlertConfig>,
    createFault: JobKey -> Fault,
    freshId: JobKey -> nat,
    createdAt: JobKey -> Nanos,
    kline: (MarketProvider, Symbol) -> Option<Candle>,
    legacyKline: Symbol -> Option<Candle>,
    sendError: (nat, Target, Message) -> Option<string>,
    broadcastError: (nat, Message) -> Option<string>,
    markLands: nat -> bool,
    markedAt: nat -> Nanos,
    sentAt: nat -> Nanos)

  datatype EligibleTarget = EligibleTarget(target: Target, config: AlertConfig)

  datatype PendingJob = PendingJob(key: JobKey, id: nat)

  datatype RoundError =
    | ListFailed(reason: string)
    | ConfigLoad(targetId: string)
    | ProviderNotEnabled(provider: MarketProvider)
    | Unsupported(target: string, provider: MarketProvider, symbol: Symbol)
    | CreateFailed(key: JobKey)
    | BuildFailed(reason: string)
    | SendFailed(reason: string)

  /** A message handed to a notifier, with the jobs it reports on. */
  datatype Delivery = Delivery(target: Option<Target>, notifier: nat, message: Message, covers: seq<JobKey>)

  /** What claiming one target's jobs leaves behind. */
  datatype Claim = Claim(rows: Rows, pending: seq<PendingJob>, needed: set<FetchKey>, dropped: bool,
      errors: seq<RoundError>)

  datatype Claims = Claims(rows: Rows, pending: seq<seq<PendingJob>>, needed: set<FetchKey>, errors: seq<RoundError>)

  datatype Effects = Effects(rows: Rows, deliveries: seq<Delivery>, errors: seq<RoundError>)

  function FirstOf(errors: seq<RoundError>): Option<RoundError> {
    if errors == [] then None else Some(errors[0])
  }

  /** The error already seen, or else the new one. */
  function OrElse<T>(seen: Option<T>, next: Option<T>): Option<T> {
    if seen.Some? then seen else next
  }

  lemma FirstOfConcat(a: seq<RoundError>, b: seq<RoundError>)
    ensures FirstOf(a + b) == OrElse(FirstOf(a), FirstOf(b))
  {
  }

  function Keys(pending: seq<PendingJob>): (keys: seq<JobKey>)
    ensures |keys| == |pending| && forall i :: 0 <= i < |pending| ==> keys[i] == pending[i].key
  {
    if pending == [] then [] else [pending[0].key] + Keys(pending[1..])
  }

  function Ids(pending: seq<PendingJob>): set<nat> {
    set p | p in pending :: p.id
  }

  /** One round for one period, against one environment. */
  datatype Round = Round(resolver: Resolver, notifiers: seq<Notifier>, period: Period, env: Env) {

    /** A configuration as the executor uses it: an unset provider means Binance. */
    function Effective(config: AlertConfig): AlertConfig {
      if config.provider == "" then config.(provider := BINANCE) else config
    }

    /** Whether a loaded configuration takes part in this round, once its provider resolves. */
    predicate Wanted(config: AlertConfig) {
      config.enabled && period.interval in config.intervals
    }

    predicate Resolvable(provider: MarketProvider) {
      resolver.Supports(provider, "", period.interval) || resolver.Get(provider)
    }

    function EligibleOne(target: Target): (seq<EligibleTarget>, seq<RoundError>) {
      match env.config(target.id)
      case Err(_) => ([], [ConfigLoad(target.id)])
      case Ok(config) =>
        if !Wanted(config) then ([], [])
        else if !Resolvable(Effective(config).provider) then ([], [ProviderNotEnabled(Effective(config).provider)])
        else ([EligibleTarget(target, Effective(config))], [])
    }

    function Eligible(targets: seq<Target>): (seq<EligibleTarget>, seq<RoundError>) {
      if targets == [] then ([], [])
      else
        var (e1, r1) := EligibleOne(targets[0]);
        var (e2, r2) := Eligible(targets[1..]);
        (e1 + e2, r1 + r2)
    }

    function KeyOf(targetId: string, provider: MarketProvider, symbol: Symbol): JobKey {
      JobKey(RowTarget(targetId), provider, symbol, period.interval, period.start)
    }

    function NewRow(key: JobKey): JobRow {
      JobRow(env.freshId(key), period.end, Pending, "", None, env.createdAt(key), env.createdAt(key))
    }

    /** Phase 1 for one target, over the symbols not yet looked at. */
    function ClaimSymbols(rows: Rows, targetId: string, provider: MarketProvider, symbols: seq<Symbol>): Claim
      decreases |symbols|
    {
      if symbols == [] then Claim(rows, [], {}, false, [])
      else if !resolver.Supports(provider, symbols[0], period.interval) then
        Claim(rows, [], {}, true, [Unsupported(targetId, provider, symbols[0])])
      else
        var key := KeyOf(targetId, provider, symbols[0]);
        var after := AfterCreate(rows, key, NewRow(key), env.createFault(key));
        match CreateAnswer(rows, key, NewRow(key), env.createFault(key))
        case Err(_) => Claim(after, [], {}, true, [CreateFailed(key)])
        case Ok((row, isNew)) =>
          var rest := ClaimSymbols(after, targetId, provider, symbols[1..]);
          if !isNew && row.status == Sent then rest
          else rest.(pending := [PendingJob(key, row.id)] + rest.pending,
                     needed := {FetchKey(provider, symbols[0])} + rest.needed)
    }

    function ClaimTarget(rows: Rows, et: EligibleTarget): Claim {
      ClaimSymbols(rows, et.target.id, et.config.provider, et.config.symbols)
    }

    /** A dropped target delivers nothing, whatever it claimed before it was dropped. */
    function Kept(claim: Claim): seq<PendingJob> {
      if claim.dropped then [] else claim.pending
    }

    /** Phase 1: all targets, in order. */
    function ClaimAll(rows: Rows, ets: seq<EligibleTarget>): (c: Claims)
      ensures |c.pending| == |ets|
      decreases |ets|
    {
      if ets == [] then Claims(rows, [], {}, [])
      else
        var claim := ClaimTarget(rows, ets[0]);
        var rest := ClaimAll(claim.rows, ets[1..]);
        Claims(rest.rows, [Kept(claim)] + rest.pending, claim.needed + rest.needed, claim.errors + rest.errors)
    }

    /** Phase 2 for one key: what fetching it yields. */
    function Fetched(key: FetchKey): PriceResult {
      if !resolver.Get(key.provider) then Unavailable(key.symbol)
      else
        match env.kline(key.provider, key.symbol)
        case None => Unavailable(key.symbol)
        case Some(candle) =>
          match CalculateChange(candle, period)
          case None => Unavailable(key.symbol)
          case Some(change) => Available(change)
    }

    function ResultsFor(pending: seq<PendingJob>): (results: seq<PriceResult>)
      ensures |results| == |pending|
      ensures forall i :: 0 <= i < |pending| ==>
                results[i] == Fetched(FetchKey(pending[i].key.provider, pending[i].key.symbol))
    {
      if pending == [] then []
      else [Fetched(FetchKey(pending[0].key.provider, pending[0].key.symbol))] + ResultsFor(pending[1..])
    }

    /** Whether notifier i takes messages for this target at all. */
    predicate Routed(i: nat, target: Target)
      requires i < |notifiers|
    {
      notifiers[i].serves.None? || notifiers[i].serves.value == target.chat
    }

    /** SendToTarget over the notifiers from index i on: the messages handed over, and the first error. */
    function SendFrom(i: nat, target: Target, message: Message, covers: seq<JobKey>): (seq<Delivery>, Option<string>)
      requires i <= |notifiers|
      decreases |notifiers| - i
    {
      if i == |notifiers| then ([], None)
      else
        var (rest, later) := SendFrom(i + 1, target, message, covers);
        if !Routed(i, target) then (rest, later)
        else
          var error := env.sendError(i, target, message);
          ([Delivery(Some(target), i, message, covers)] + rest, if error.Some? then error else later)
    }

    function MarkFor(id: nat, sendError: Option<string>): Mark {
      match sendError
      case None => AsSent(env.sentAt(id))
      case Some(reason) => AsFailed(reason)
    }

    /** The rows after every listed job was marked, in whatever order: errors are swallowed. */
    function AfterMarks(rows: Rows, ids: set<nat>, sendError: Option<string>): Rows {
      map k | k in rows ::
        if rows[k].id in ids && env.markLands(rows[k].id)
        then Restated(rows[k], MarkFor(rows[k].id, sendError), env.markedAt(rows[k].id))
        else rows[k]
    }

    /** Phase 3 for one target. */
    function Deliver(rows: Rows, target: Target, pending: seq<PendingJob>): Effects {
      if pending == [] then Effects(rows, [], [])
      else
        match MessageFor(period, ResultsFor(pending))
        case Err(e) => Effects(rows, [], [BuildFailed(e)])
        case Ok(message) =>
          var (sent, error) := SendFrom(0, target, message, Keys(pending));
          Effects(AfterMarks(rows, Ids(pending), error), sent,
                  if error.Some? then [SendFailed(error.value)] else [])
    }

    /** Phase 3: all targets, in order. */
    function DeliverAll(rows: Rows, ets: seq<EligibleTarget>, pending: seq<seq<PendingJob>>): Effects
      requires |ets| == |pending|
      decreases |ets|
    {
      if ets == [] then Effects(rows, [], [])
      else
        var d := Deliver(rows, ets[0].target, pending[0]);
        var rest := DeliverAll(d.rows, ets[1..], pending[1..]);
        Effects(rest.rows, d.deliveries + rest.deliveries, d.errors + rest.errors)
    }

    /** The three phases, with the early return when nothing needs fetching. */
    function ThreePhases(rows: Rows, ets: seq<EligibleTarget>): Effects {
      var claims := ClaimAll(rows, ets);
      if claims.needed == {} then Effects(claims.rows, [], claims.errors)
      else
        var d := DeliverAll(claims.rows, ets, claims.pending);
        Effects(d.rows, d.deliveries, claims.errors + d.errors)
    }

    /** The loop the three phases replace: create, fetch, send and mark one target at a time. */
    function NaiveRound(rows: Rows, ets: seq<EligibleTarget>): Effects
      decreases |ets|
    {
      if ets == [] then Effects(rows, [], [])
      else
        var claim := ClaimTarget(rows, ets[0]);
        var d := Deliver(claim.rows, ets[0].target, Kept(claim));
        var rest := NaiveRound(d.rows, ets[1..]);
        Effects(rest.rows, d.deliveries + rest.deliveries, claim.errors + d.errors + rest.errors)
    }

    /** What the legacy executor fetches for one symbol. */
    function LegacyFetched(symbol: Symbol): PriceResult {
      match env.legacyKline(symbol)
      case None => Unavailable(symbol)
      case Some(candle) =>
        match CalculateChange(candle, period)
        case None => Unavailable(symbol)
        case Some(change) => Available(change)
    }

    /**
     The legacy round claims Binance jobs for the legacy target as if Binance supported everything;
     being dropped means that a failing create ended the whole round.
     */
    function LegacyClaims(rows: Rows, symbols: seq<Symbol>): Claim {
      this.(resolver := Static(true)).ClaimSymbols(rows, "", BINANCE, symbols)
    }

    function LegacyResults(pending: seq<PendingJob>): (results: seq<PriceResult>)
      ensures |results| == |pending|
      ensures forall i :: 0 <= i < |pending| ==> results[i] == LegacyFetched(pending[i].key.symbol)
    {
      if pending == [] then [] else [LegacyFetched(pending[0].key.symbol)] + LegacyResults(pending[1..])
    }

    /** Send on the notifiers up to index i: every one is handed the message; the last error counts. */
    function BroadcastTo(i: nat, message: Message, covers: seq<JobKey>): (seq<Delivery>, Option<string>)
      requires i <= |notifiers|
    {
      if i == 0 then ([], None)
      else
        var (before, earlier) := BroadcastTo(i - 1, message, covers);
        var error := env.broadcastError(i - 1, message);
        (before + [Delivery(None, i - 1, message, covers)], if error.Some? then error else earlier)
    }

    function LegacyRound(rows: Rows, symbols: seq<Symbol>): Effects {
      var claim := LegacyClaims(rows, symbols);
      if claim.dropped || claim.pending == [] then Effects(claim.rows, [], claim.errors)
      else
        match MessageFor(period, LegacyResults(claim.pending))
        case Err(e) => Effects(claim.rows, [], [BuildFailed(e)])
        case Ok(message) =>
          var (sent, error) := BroadcastTo(|notifiers|, message, Keys(claim.pending));
          Effects(AfterMarks(claim.rows, Ids(claim.pending), error), sent,
                  if error.Some? then [SendFailed(error.value)] else [])
    }
  }
}
