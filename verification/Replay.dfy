/** An execution, replayed statement by statement as steps of the retention system. */
module Replay {
  import opened Prelude
  import opened Domain
  import opened Messages
  import opened Jobs
  import opened Rounds
  import opened RoundProofs
  import opened SentProofs
  import opened Expectations
  import R = Retention

  // ---------------------------------------------------------------- which jobs an execution creates

  /** The keys CreateIfNotExists is called for, in order, the failing call included. */
  function Attempted(
    r: Round, rows: Rows, targetId: string, provider: MarketProvider, symbols: seq<Symbol>): seq<JobKey>
    decreases |symbols|
  {
    if symbols == [] || !r.resolver.Supports(provider, symbols[0], r.period.interval) then []
    else
      var key := r.KeyOf(targetId, provider, symbols[0]);
      [key] + if CreateAnswer(rows, key, r.NewRow(key), r.env.createFault(key)).Err? then []
              else Attempted(r, AfterCreate(rows, key, r.NewRow(key), r.env.createFault(key)), targetId,
                  provider, symbols[1..])
  }

  function AllAttempted(r: Round, rows: Rows, ets: seq<EligibleTarget>): seq<JobKey>
    decreases |ets|
  {
    if ets == [] then []
    else Attempted(r, rows, ets[0].target.id, ets[0].config.provider, ets[0].config.symbols)
         + AllAttempted(r, r.ClaimTarget(rows, ets[0]).rows, ets[1..])
  }

  function CreatedAll(r: Round, rows: Rows, keys: seq<JobKey>): Rows
    decreases |keys|
  {
    if keys == [] then rows
    else CreatedAll(r, AfterCreate(rows, keys[0], r.NewRow(keys[0]), r.env.createFault(keys[0])), keys[1..])
  }

  /** The jobs held once these creations were answered. */
  function HeldAfter(r: Round, rows: Rows, held: map<JobKey, R.HeldJob>, keys: seq<JobKey>): map<JobKey, R.HeldJob>
    decreases |keys|
  {
    if keys == [] then held
    else
      var key, row, fault := keys[0], r.NewRow(keys[0]), r.env.createFault(keys[0]);
      HeldAfter(r, AfterCreate(rows, key, row, fault), HeldOne(held, key, CreateAnswer(rows, key, row, fault)),
          keys[1..])
  }

  function HeldOne(held: map<JobKey, R.HeldJob>, key: JobKey, answer: Result<(JobRow, bool)>): map<JobKey, R.HeldJob> {
    if answer.Ok?
      && (answer.value.1
         || answer.value.0.status != Sent) then held[key := R.HeldJob(answer.value.0.id, R.Claimed)] else held
  }

  /** Every pending job is held under the id it was claimed with. */
  predicate Holds(held: map<JobKey, R.HeldJob>, pending: seq<PendingJob>) {
    forall p :: p in pending ==> p.key in held && held[p.key] == R.HeldJob(p.id, R.Claimed)
  }

  lemma {:induction false} HeldConcat(
    r: Round, rows: Rows, held: map<JobKey, R.HeldJob>, a: seq<JobKey>, b: seq<JobKey>)
    ensures CreatedAll(r, rows, a + b) == CreatedAll(r, CreatedAll(r, rows, a), b)
    ensures HeldAfter(r, rows, held, a + b) == HeldAfter(r, CreatedAll(r, rows, a), HeldAfter(r, rows, held, a), b)
    decreases |a|
  {
    if a == [] {
      assert a + b == b;
    } else {
      var key, row, fault := a[0], r.NewRow(a[0]), r.env.createFault(a[0]);
      assert (a + b)[1..] == a[1..] + b;
      HeldConcat(r, AfterCreate(rows, key, row, fault), HeldOne(held, key, CreateAnswer(rows, key, row, fault)),
          a[1..], b);
    }
  }

  lemma {:induction false} HeldElsewhere(
    r: Round, rows: Rows, held: map<JobKey, R.HeldJob>, keys: seq<JobKey>, key: JobKey)
    requires key !in keys
    ensures key in HeldAfter(r, rows, held, keys) <==> key in held
    ensures key in held ==> HeldAfter(r, rows, held, keys)[key] == held[key]
    decreases |keys|
  {
    if keys != [] {
      var k, row, fault := keys[0], r.NewRow(keys[0]), r.env.createFault(keys[0]);
      HeldElsewhere(r, AfterCreate(rows, k, row, fault), HeldOne(held, k, CreateAnswer(rows, k, row, fault)),
          keys[1..], key);
    }
  }

  lemma {:induction false} AttemptsAreOwn(
    r: Round, rows: Rows, targetId: string, provider: MarketProvider, symbols: seq<Symbol>)
    ensures forall k :: k in Attempted(r, rows, targetId, provider, symbols) ==>
              k.symbol in symbols && k == r.KeyOf(targetId, provider, k.symbol)
    decreases |symbols|
  {
    if symbols != [] && r.resolver.Supports(provider, symbols[0], r.period.interval) {
      var key := r.KeyOf(targetId, provider, symbols[0]);
      AttemptsAreOwn(r, AfterCreate(rows, key, r.NewRow(key), r.env.createFault(key)), targetId, provider,
          symbols[1..]);
    }
  }

  lemma {:induction false} AttemptsAreDistinct(
    r: Round, rows: Rows, targetId: string, provider: MarketProvider, symbols: seq<Symbol>)
    requires NoDup(symbols)
    ensures NoDup(Attempted(r, rows, targetId, provider, symbols))
    decreases |symbols|
  {
    if symbols != [] && r.resolver.Supports(provider, symbols[0], r.period.interval) {
      var key := r.KeyOf(targetId, provider, symbols[0]);
      var after := AfterCreate(rows, key, r.NewRow(key), r.env.createFault(key));
      AttemptsAreDistinct(r, after, targetId, provider, symbols[1..]);
      AttemptsAreOwn(r, after, targetId, provider, symbols[1..]);
    }
  }

  /** The attempts of a claim are its first one and then those of the rest, if that one was answered. */
  lemma AttemptsUnfold(r: Round, rows: Rows, targetId: string, provider: MarketProvider, symbols: seq<Symbol>)
    requires symbols != [] && r.resolver.Supports(provider, symbols[0], r.period.interval)
    ensures var key := r.KeyOf(targetId, provider, symbols[0]);
            var row, fault := r.NewRow(key), r.env.createFault(key);
            var keys := Attempted(r, rows, targetId, provider, symbols);
            && keys != [] && keys[0] == key
            && keys[1..] == if CreateAnswer(rows, key, row, fault).Err? then []
                            else Attempted(r, AfterCreate(rows, key, row, fault), targetId, provider, symbols[1..])
  {
    hide CreateAnswer, AfterCreate;
  }

  lemma {:induction false} ClaimReplays(
    r: Round, rows: Rows, held: map<JobKey, R.HeldJob>, targetId: string, provider: MarketProvider,
    symbols: seq<Symbol>)
    requires NoDup(symbols)
    ensures var c, keys := r.ClaimSymbols(rows, targetId, provider, symbols),
              Attempted(r, rows, targetId, provider, symbols);
            && NoDup(keys) && CreatedAll(r, rows, keys) == c.rows
            && Holds(HeldAfter(r, rows, held, keys), c.pending) && (forall p :: p in c.pending ==> p.key in keys)
    decreases |symbols|
  {
    AttemptsAreDistinct(r, rows, targetId, provider, symbols);
    if symbols != [] && r.resolver.Supports(provider, symbols[0], r.period.interval) {
      var key := r.KeyOf(targetId, provider, symbols[0]);
      var answer := CreateAnswer(rows, key, r.NewRow(key), r.env.createFault(key));
      var after := AfterCreate(rows, key, r.NewRow(key), r.env.createFault(key));
      var rest := Attempted(r, after, targetId, provider, symbols[1..]);
      ClaimReplays(r, after, HeldOne(held, key, answer), targetId, provider, symbols[1..]);
      AttemptsUnfold(r, rows, targetId, provider, symbols);
      hide AfterCreate, CreateAnswer, Attempted, NoDup;
      if answer.Ok? {
        HeadIsApart(r, targetId, provider, symbols);
        HeldElsewhere(r, after, HeldOne(held, key, answer), rest, key);
      }
    }
  }

  lemma HeadIsApart(r: Round, targetId: string, provider: MarketProvider, symbols: seq<Symbol>)
    requires NoDup(symbols) && symbols != []
    ensures forall after :: r.KeyOf(targetId, provider, symbols[0]) !in Attempted(r, after, targetId, provider,
              symbols[1..])
  {
    forall after ensures r.KeyOf(targetId, provider, symbols[0]) !in Attempted(r, after, targetId, provider,
        symbols[1..]) {
      AttemptsAreOwn(r, after, targetId, provider, symbols[1..]);
    }
  }

  lemma {:induction false} AllAttemptsAreListed(r: Round, rows: Rows, ets: seq<EligibleTarget>, key: JobKey)
    requires key in AllAttempted(r, rows, ets)
    ensures exists et :: et in ets && key.target == RowTarget(et.target.id)
    ensures key.interval == r.period.interval && key.periodStart == r.period.start
    decreases |ets|
  {
    var et := ets[0];
    if key in Attempted(r, rows, et.target.id, et.config.provider, et.config.symbols) {
      AttemptsAreOwn(r, rows, et.target.id, et.config.provider, et.config.symbols);
      assert et in ets;
    } else {
      AllAttemptsAreListed(r, r.ClaimTarget(rows, et).rows, ets[1..], key);
      var other :| other in ets[1..] && key.target == RowTarget(other.target.id);
      assert other in ets;
    }
  }

  predicate SymbolsDistinct(ets: seq<EligibleTarget>) {
    forall et :: et in ets ==> NoDup(et.config.symbols)
  }

  lemma HeldStill(r: Round, rows: Rows, held: map<JobKey, R.HeldJob>, keys: seq<JobKey>, pending: seq<PendingJob>)
    requires Holds(held, pending) && forall p :: p in pending ==> p.key !in keys
    ensures Holds(HeldAfter(r, rows, held, keys), pending)
  {
    forall p | p in pending ensures p.key in HeldAfter(r, rows, held, keys)
      && HeldAfter(r, rows, held, keys)[p.key] == held[p.key] {
      HeldElsewhere(r, rows, held, keys, p.key);
    }
  }

  lemma {:induction false} ClaimAllReplays(r: Round, rows: Rows, held: map<JobKey, R.HeldJob>, ets: seq<EligibleTarget>)
    requires DistinctTargets(ets) && SymbolsDistinct(ets)
    ensures var c, keys := r.ClaimAll(rows, ets), AllAttempted(r, rows, ets);
            && NoDup(keys) && CreatedAll(r, rows, keys) == c.rows
            && forall i :: 0 <= i < |ets| ==> Holds(HeldAfter(r, rows, held, keys), c.pending[i])
    decreases |ets|
  {
    if ets != [] {
      var et := ets[0];
      var claim := r.ClaimTarget(rows, et);
      var own := Attempted(r, rows, et.target.id, et.config.provider, et.config.symbols);
      var rest := AllAttempted(r, claim.rows, ets[1..]);
      ClaimReplays(r, rows, held, et.target.id, et.config.provider, et.config.symbols);
      AttemptsAreOwn(r, rows, et.target.id, et.config.provider, et.config.symbols);
      ClaimAllReplays(r, claim.rows, HeldAfter(r, rows, held, own), ets[1..]);
      HeldConcat(r, rows, held, own, rest);
      forall k | k in rest ensures k !in own {
        AllAttemptsAreListed(r, claim.rows, ets[1..], k);
      }
      hide Attempted, AllAttempted, HeldAfter, CreatedAll, Round.ClaimSymbols, Holds;
      assert AllAttempted(r, rows, ets) == own + rest;
      NoDupConcat(own, rest);
      HeldStill(r, claim.rows, HeldAfter(r, rows, held, own), rest, r.Kept(claim));
    }
  }

  // ---------------------------------------------------------------- creations as steps

  /** The clock is read once for each creation, never backwards, and no later than the limit. */
  predicate CreatedInOrder(r: Round, clock: Nanos, keys: seq<JobKey>, limit: Nanos)
    decreases |keys|
  {
    keys == [] || (clock <= r.env.createdAt(keys[0]) <= limit
      && CreatedInOrder(r, r.env.createdAt(keys[0]), keys[1..], limit))
  }

  function ClockAfterCreates(r: Round, clock: Nanos, keys: seq<JobKey>): Nanos {
    if keys == [] then clock else r.env.createdAt(keys[|keys| - 1])
  }

  function FreshIds(r: Round, keys: seq<JobKey>): set<nat> {
    set k | k in keys :: r.env.freshId(k)
  }

  /** The execution in flight works on the round's period and has not delivered yet. */
  predicate Claiming(r: Round, s: R.State) {
    s.flight.Busy? && !s.flight.delivering && s.flight.period == r.period
  }

  /** The state after these creations. */
  function Created(r: Round, s: R.State, keys: seq<JobKey>): R.State
    requires s.flight.Busy?
  {
    R.State(ClockAfterCreates(r, s.clock, keys), CreatedAll(r, s.rows, keys),
            s.flight.(held := HeldAfter(r, s.rows, s.flight.held, keys)), s.recorded, s.used + FreshIds(r, keys))
  }

  /** One creation: the clock moves to its reading, and the statement is carried out. */
  lemma CreateReplays(c: R.Settings, s: R.State, r: Round, key: JobKey, rest: seq<R.Step>)
    requires Claiming(r, s) && key.interval == r.period.interval && key.periodStart == r.period.start
    requires r.env.freshId(key) !in s.used && s.clock <= r.env.createdAt(key) <= s.flight.now + c.maxLag
    requires R.Feasible(c, Created(r, s, [key]), rest)
    ensures var steps := [R.Wait(r.env.createdAt(key) - s.clock),
              R.Create(key, r.env.freshId(key), r.env.createFault(key))];
            R.Feasible(c, s, steps + rest) && R.After(c, s, steps + rest) == R.After(c, Created(r, s, [key]), rest)
  {
    var wait, create := R.Wait(r.env.createdAt(key) - s.clock),
        R.Create(key, r.env.freshId(key), r.env.createFault(key));
    var t := R.Next(c, s, wait);
    assert R.PendingRow(r.env.freshId(key), r.period.end, t.clock) == r.NewRow(key);
    assert [key][1..] == [];
    assert FreshIds(r, [key]) == {r.env.freshId(key)};
    CreatesNext(c, t, r, key);
    assert Created(r, t, [key]) == Created(r, s, [key]);
    R.FeasibleStep(c, t, create, rest);
    R.FeasibleStep(c, s, wait, [create] + rest);
    assert [wait, create] + rest == [wait] + ([create] + rest);
  }

  lemma CreatesNext(c: R.Settings, t: R.State, r: Round, key: JobKey)
    requires Claiming(r, t) && t.clock == r.env.createdAt(key)
    requires R.Enabled(c, t, R.Create(key, r.env.freshId(key), r.env.createFault(key)))
    ensures R.Next(c, t, R.Create(key, r.env.freshId(key), r.env.createFault(key))) == Created(r, t, [key])
  {
    assert R.PendingRow(r.env.freshId(key), r.period.end, t.clock) == r.NewRow(key);
    assert [key][1..] == [];
    assert FreshIds(r, [key]) == {r.env.freshId(key)};
    var after := AfterCreate(t.rows, key, r.NewRow(key), r.env.createFault(key));
    var held := HeldOne(t.flight.held, key, CreateAnswer(t.rows, key, r.NewRow(key), r.env.createFault(key)));
    assert CreatedAll(r, t.rows, [key]) == CreatedAll(r, after, []) == after;
    assert HeldAfter(r, t.rows, t.flight.held, [key]) == HeldAfter(r, after, held, []) == held;
    hide AfterCreate, CreateAnswer;
  }

  /** The jobs are of the round's period, and their ids have not been drawn yet. */
  ghost predicate Undrawn(r: Round, s: R.State, keys: seq<JobKey>) {
    && (forall k :: k in keys ==> k.interval == r.period.interval && k.periodStart == r.period.start)
    && (forall k :: k in keys ==> r.env.freshId(k) !in s.used)
    && (forall k, l :: r.env.freshId(k) == r.env.freshId(l) ==> k == l)
  }

  lemma CreatedConcat(r: Round, s: R.State, keys: seq<JobKey>)
    requires Claiming(r, s) && keys != []
    ensures Created(r, Created(r, s, [keys[0]]), keys[1..]) == Created(r, s, keys)
  {
    assert [keys[0]] + keys[1..] == keys;
    HeldConcat(r, s.rows, s.flight.held, [keys[0]], keys[1..]);
    assert FreshIds(r, keys) == FreshIds(r, [keys[0]]) + FreshIds(r, keys[1..]);
    hide HeldAfter, CreatedAll;
  }

  /** All creations of an execution, as steps. */
  lemma {:induction false} CreatesReplay(c: R.Settings, s: R.State, r: Round, keys: seq<JobKey>)
    returns (steps: seq<R.Step>)
    requires Claiming(r, s) && NoDup(keys) && Undrawn(r, s, keys)
    requires CreatedInOrder(r, s.clock, keys, s.flight.now + c.maxLag)
    ensures R.Feasible(c, s, steps) && R.After(c, s, steps) == Created(r, s, keys)
    decreases |keys|
  {
    if keys == [] {
      steps := [];
      assert FreshIds(r, keys) == {};
    } else {
      var key, n := keys[0], Created(r, s, [keys[0]]);
      assert FreshIds(r, [key]) == {r.env.freshId(key)};
      assert forall k :: k in keys[1..] ==> k in keys && k != key;
      var more := CreatesReplay(c, n, r, keys[1..]);
      CreateReplays(c, s, r, key, more);
      CreatedConcat(r, s, keys);
      steps := [R.Wait(r.env.createdAt(key) - s.clock),
          R.Create(key, r.env.freshId(key), r.env.createFault(key))] + more;
    }
  }

  // ---------------------------------------------------------------- deliveries as steps

  predicate MarkedInOrder(r: Round, clock: Nanos, pending: seq<PendingJob>)
    decreases |pending|
  {
    pending == [] || (clock <= r.env.markedAt(pending[0].id)
      && MarkedInOrder(r, r.env.markedAt(pending[0].id), pending[1..]))
  }

  function ClockAfterMarks(r: Round, clock: Nanos, pending: seq<PendingJob>): Nanos {
    if pending == [] then clock else r.env.markedAt(pending[|pending| - 1].id)
  }

  /** The state after one job was marked, at the clock reading of its mark. */
  function MarkedOne(r: Round, s: R.State, p: PendingJob, error: Option<string>): R.State
    requires s.flight.Busy?
  {
    var mark, at, lands := r.MarkFor(p.id, error), r.env.markedAt(p.id), r.env.markLands(p.id);
    R.State(at, if lands then AfterMark(s.rows, p.id, mark, at) else s.rows,
            s.flight.(held := s.flight.held[p.key := R.HeldJob(p.id, R.Marked)]),
            if lands && mark.AsSent? then s.recorded + (set k | k in s.rows
              && s.rows[k].id == p.id) else s.recorded, s.used)
  }

  lemma MarkReplays(c: R.Settings, s: R.State, r: Round, p: PendingJob, error: Option<string>, rest: seq<R.Step>)
    requires s.flight.Busy? && p.key in s.flight.held && s.flight.held[p.key] == R.HeldJob(p.id, R.Messaged)
    requires s.clock <= r.env.markedAt(p.id) && R.Feasible(c, MarkedOne(r, s, p, error), rest)
    ensures var steps := [R.Wait(r.env.markedAt(p.id) - s.clock),
              R.MarkOne(p.key, r.MarkFor(p.id, error), r.env.markLands(p.id))];
            R.Feasible(c, s, steps + rest) && R.After(c, s, steps + rest) == R.After(c, MarkedOne(r, s, p, error), rest)
  {
    var wait, mark := R.Wait(r.env.markedAt(p.id) - s.clock),
        R.MarkOne(p.key, r.MarkFor(p.id, error), r.env.markLands(p.id));
    var t := R.Next(c, s, wait);
    assert R.Next(c, t, mark) == MarkedOne(r, s, p, error);
    R.FeasibleStep(c, t, mark, rest);
    R.FeasibleStep(c, s, wait, [mark] + rest);
    assert [wait, mark] + rest == [wait] + ([mark] + rest);
  }

  /** The rows after the marks so far, the rest of the held jobs still to be marked. */
  ghost predicate Marking(s: R.State, pending: seq<PendingJob>) {
    && s.flight.Busy? && NoDup(Keys(pending))
    && forall p :: p in pending ==> p.key in s.flight.held && s.flight.held[p.key] == R.HeldJob(p.id, R.Messaged)
  }

  /** What delivering these jobs leaves as it found it. */
  ghost predicate Continues(s: R.State, n: R.State, keys: seq<JobKey>) {
    && s.flight.Busy? && n.flight.Busy? && n.flight.now == s.flight.now && n.flight.period == s.flight.period
    && n.used == s.used && s.recorded <= n.recorded
    && forall k :: k !in keys ==>
         (k in n.flight.held <==> k in s.flight.held) && (k in s.flight.held ==> n.flight.held[k] == s.flight.held[k])
  }

  lemma {:induction false} MarksReplay(
    c: R.Settings, s: R.State, r: Round, before: Rows, ids: set<nat>, pending: seq<PendingJob>, error: Option<string>)
    returns (steps: seq<R.Step>)
    requires Marking(s, pending) && MarkedInOrder(r, s.clock, pending) && s.rows == r.AfterMarks(before, ids, error)
    ensures R.Feasible(c, s, steps)
    ensures var n := R.After(c, s, steps);
            && n.rows == r.AfterMarks(before, ids + Ids(pending), error)
            && n.clock == ClockAfterMarks(r, s.clock, pending) && Continues(s, n, Keys(pending))
    decreases |pending|
  {
    if pending == [] {
      steps := [];
      assert ids + Ids(pending) == ids;
    } else {
      var p, n := pending[0], MarkedOne(r, s, pending[0], error);
      assert Keys(pending)[1..] == Keys(pending[1..]);
      OneMoreMark(r, before, ids, p.id, error);
      assert Marking(n, pending[1..]) by {
        forall q | q in pending[1..] ensures q.key != p.key {
          var i :| 0 <= i < |pending[1..]| && pending[1..][i] == q;
          assert Keys(pending)[i + 1] == q.key && Keys(pending)[0] == p.key;
        }
      }
      var more := MarksReplay(c, n, r, before, ids + {p.id}, pending[1..], error);
      MarkReplays(c, s, r, p, error, more);
      assert ids + {p.id} + Ids(pending[1..]) == ids + Ids(pending);
      steps := [R.Wait(r.env.markedAt(p.id) - s.clock),
          R.MarkOne(p.key, r.MarkFor(p.id, error), r.env.markLands(p.id))] + more;
    }
  }

  lemma {:induction false} MarksSplit(r: Round, clock: Nanos, a: seq<PendingJob>, b: seq<PendingJob>)
    requires MarkedInOrder(r, clock, a + b)
    ensures MarkedInOrder(r, clock, a) && MarkedInOrder(r, ClockAfterMarks(r, clock, a), b)
    ensures ClockAfterMarks(r, ClockAfterMarks(r, clock, a), b) == ClockAfterMarks(r, clock, a + b)
    decreases |a|
  {
    if a == [] {
      assert a + b == b;
    } else {
      assert (a + b)[1..] == a[1..] + b;
      MarksSplit(r, r.env.markedAt(a[0].id), a[1..], b);
    }
  }

  /** The jobs a delivery marks: all of them, unless there is no message to send. */
  function Marks(r: Round, results: seq<PriceResult>, pending: seq<PendingJob>): seq<PendingJob> {
    if pending == [] || MessageFor(r.period, results).Err? then [] else pending
  }

  /** The state after a message for these jobs was handed over. */
  function Handed(s: R.State, keys: set<JobKey>): R.State
    requires s.flight.Busy?
  {
    var held := map k | k in s.flight.held :: if k in keys then s.flight.held[k].(stage := R.Messaged)
      else s.flight.held[k];
    s.(flight := s.flight.(delivering := true, held := held))
  }

  lemma HandedIsMarking(s: R.State, pending: seq<PendingJob>)
    requires s.flight.Busy? && Holds(s.flight.held, pending) && NoDup(Keys(pending))
    ensures Marking(Handed(s, Elems(Keys(pending))), pending)
    ensures Continues(s, Handed(s, Elems(Keys(pending))), Keys(pending))
  {
    forall p | p in pending ensures p.key in Elems(Keys(pending)) {
      var i :| 0 <= i < |pending| && pending[i] == p;
      assert Keys(pending)[i] == p.key;
    }
  }

  lemma HandingIsEnabled(c: R.Settings, s: R.State, pending: seq<PendingJob>)
    requires s.flight.Busy? && Holds(s.flight.held, pending) && pending != []
    ensures R.Enabled(c, s, R.Deliver(Elems(Keys(pending))))
    ensures R.Inv(c, s) ==> forall k :: k in Keys(pending) ==> k !in s.recorded
  {
    assert Keys(pending)[0] in Elems(Keys(pending));
    forall k | k in Keys(pending) ensures k in s.flight.held && s.flight.held[k].stage == R.Claimed {
      var i :| 0 <= i < |pending| && Keys(pending)[i] == k;
      assert pending[i] in pending;
    }
  }

  lemma ContinuesOn(s: R.State, t: R.State, n: R.State, keys: seq<JobKey>)
    requires Continues(s, t, keys) && Continues(t, n, keys)
    ensures Continues(s, n, keys)
  {
  }

  /** Handing over one message and marking its jobs, as steps. */
  lemma DeliveryReplays(c: R.Settings, s: R.State, r: Round, pending: seq<PendingJob>, error: Option<string>)
    returns (steps: seq<R.Step>)
    requires s.flight.Busy? && Holds(s.flight.held, pending) && NoDup(Keys(pending)) && pending != []
    requires MarkedInOrder(r, s.clock, pending)
    ensures R.Feasible(c, s, steps)
    ensures var n := R.After(c, s, steps);
            && n.rows == r.AfterMarks(s.rows, Ids(pending), error)
            && n.clock == ClockAfterMarks(r, s.clock, pending) && Continues(s, n, Keys(pending))
    ensures R.Inv(c, s) ==> forall k :: k in Keys(pending) ==> k !in s.recorded
  {
    var keys := Elems(Keys(pending));
    var t := Handed(s, keys);
    HandingIsEnabled(c, s, pending);
    HandedIsMarking(s, pending);
    assert R.Next(c, s, R.Deliver(keys)) == t;
    assert t.rows == r.AfterMarks(s.rows, {}, error);
    hide Handed, Holds, Marking, R.Inv;
    var more := MarksReplay(c, t, r, s.rows, {}, pending, error);
    assert {} + Ids(pending) == Ids(pending);
    R.FeasibleStep(c, s, R.Deliver(keys), more);
    ContinuesOn(s, t, R.After(c, t, more), Keys(pending));
    steps := [R.Deliver(keys)] + more;
  }

  /** None of these messages covers a job that was ever recorded as sent. */
  ghost predicate CoversUnrecorded(deliveries: seq<Delivery>, recorded: set<JobKey>) {
    forall d, k :: d in deliveries && k in d.covers ==> k !in recorded
  }

  lemma TargetReplays(c: R.Settings, s: R.State, r: Round, target: Target, pending: seq<PendingJob>)
    returns (steps: seq<R.Step>)
    requires s.flight.Busy? && Holds(s.flight.held, pending) && NoDup(Keys(pending))
    requires MarkedInOrder(r, s.clock, Marks(r, r.ResultsFor(pending), pending))
    ensures R.Feasible(c, s, steps)
    ensures var n, d := R.After(c, s, steps), r.Deliver(s.rows, target, pending);
            && n.rows == d.rows && n.clock == ClockAfterMarks(r, s.clock, Marks(r, r.ResultsFor(pending), pending))
            && Continues(s, n, Keys(pending)) && (R.Inv(c, s) ==> CoversUnrecorded(d.deliveries, s.recorded))
  {
    if Marks(r, r.ResultsFor(pending), pending) == [] {
      steps := [];
    } else {
      var message := MessageFor(r.period, r.ResultsFor(pending)).value;
      SentOnlyWhereRouted(r, 0, target, message, Keys(pending));
      hide MessageFor, Round.ResultsFor, Round.SendFrom, Round.AfterMarks, Holds, R.Inv, Continues;
      steps := DeliveryReplays(c, s, r, pending, r.SendFrom(0, target, message, Keys(pending)).1);
    }
  }

  function AllMarks(r: Round, pending: seq<seq<PendingJob>>): seq<PendingJob> {
    if pending == [] then [] else Marks(r, r.ResultsFor(pending[0]), pending[0]) + AllMarks(r, pending[1..])
  }

  predicate KeysApart(pending: seq<seq<PendingJob>>) {
    && (forall i :: 0 <= i < |pending| ==> NoDup(Keys(pending[i])))
    && (forall i, j, k :: 0 <= i < j < |pending| && k in Keys(pending[i]) ==> k !in Keys(pending[j]))
  }

  predicate AllHeld(held: map<JobKey, R.HeldJob>, pending: seq<seq<PendingJob>>) {
    forall i :: 0 <= i < |pending| ==> Holds(held, pending[i])
  }

  lemma KeysApartTail(pending: seq<seq<PendingJob>>)
    requires pending != [] && KeysApart(pending)
    ensures KeysApart(pending[1..])
    ensures forall i, k :: 0 <= i < |pending| - 1 && k in Keys(pending[1..][i]) ==> k !in Keys(pending[0])
  {
    hide Keys;
    forall i, j, k | 0 <= i < j < |pending[1..]| && k in Keys(pending[1..][i]) ensures k !in Keys(pending[1..][j]) {
      assert k in Keys(pending[i + 1]);
    }
    forall i, k | 0 <= i < |pending| - 1 && k in Keys(pending[1..][i]) ensures k !in Keys(pending[0]) {
      assert k in Keys(pending[i + 1]);
    }
  }

  lemma HeldContinues(s: R.State, n: R.State, keys: seq<JobKey>, other: seq<PendingJob>)
    requires Continues(s, n, keys) && Holds(s.flight.held, other) && forall k :: k in Keys(other) ==> k !in keys
    ensures Holds(n.flight.held, other)
  {
    forall p | p in other ensures p.key !in keys {
      var j :| 0 <= j < |other| && other[j] == p;
      assert Keys(other)[j] == p.key;
    }
  }

  lemma HeldForTheRest(s: R.State, n: R.State, pending: seq<seq<PendingJob>>)
    requires pending != [] && KeysApart(pending) && s.flight.Busy? && AllHeld(s.flight.held, pending)
    requires Continues(s, n, Keys(pending[0]))
    ensures AllHeld(n.flight.held, pending[1..]) && KeysApart(pending[1..])
  {
    KeysApartTail(pending);
    hide KeysApart, Keys, Holds, Continues;
    forall i | 0 <= i < |pending[1..]| ensures Holds(n.flight.held, pending[1..][i]) {
      assert Holds(s.flight.held, pending[i + 1]);
      HeldContinues(s, n, Keys(pending[0]), pending[1..][i]);
    }
  }

  /** The state keeps its execution in flight, and forgets nothing it recorded. */
  ghost predicate StillBusy(s: R.State, n: R.State) {
    s.flight.Busy? && n.flight.Busy? && n.used == s.used && s.recorded <= n.recorded
  }

  /** All deliveries of an execution, as steps. */
  lemma {:induction false} TargetsReplay(
    c: R.Settings, s: R.State, r: Round, ets: seq<EligibleTarget>, pending: seq<seq<PendingJob>>)
    returns (steps: seq<R.Step>)
    requires |ets| == |pending| && s.flight.Busy? && AllHeld(s.flight.held, pending) && KeysApart(pending)
    requires MarkedInOrder(r, s.clock, AllMarks(r, pending))
    ensures R.Feasible(c, s, steps)
    ensures var n, d := R.After(c, s, steps), r.DeliverAll(s.rows, ets, pending);
            && n.rows == d.rows && StillBusy(s, n)
            && (R.SafeLag(c) && R.Inv(c, s) ==> CoversUnrecorded(d.deliveries, s.recorded))
    decreases |ets|
  {
    if ets == [] {
      steps := [];
    } else {
      var own := Marks(r, r.ResultsFor(pending[0]), pending[0]);
      MarksSplit(r, s.clock, own, AllMarks(r, pending[1..]));
      assert Holds(s.flight.held, pending[0]);
      var first := TargetReplays(c, s, r, ets[0].target, pending[0]);
      var n := R.After(c, s, first);
      HeldForTheRest(s, n, pending);
      var more := TargetsReplay(c, n, r, ets[1..], pending[1..]);
      Joined(c, s, first, more);
      if R.SafeLag(c) && R.Inv(c, s) { R.RunKeeps(c, s, first); }
      hide Holds, AllHeld, KeysApart, R.Inv, MarkedInOrder, Round.Deliver, R.Feasible, R.After, Keys;
      steps := first + more;
    }
  }

  lemma {:induction false} Joined(c: R.Settings, s: R.State, a: seq<R.Step>, b: seq<R.Step>)
    requires R.Feasible(c, s, a) && R.Feasible(c, R.After(c, s, a), b)
    ensures R.Feasible(c, s, a + b) && R.After(c, s, a + b) == R.After(c, R.After(c, s, a), b)
    decreases |a|
  {
    if a == [] {
      assert a + b == b;
    } else {
      assert (a + b)[1..] == a[1..] + b;
      Joined(c, R.Next(c, s, a[0]), a[1..], b);
    }
  }

  // ---------------------------------------------------------------- whole executions

  lemma {:induction false} ClaimKeys(
    r: Round, rows: Rows, targetId: string, provider: MarketProvider, symbols: seq<Symbol>)
    requires NoDup(symbols)
    ensures var keys := Keys(r.ClaimSymbols(rows, targetId, provider, symbols).pending);
            NoDup(keys) && forall k :: k in keys ==> k.symbol in symbols && k.target == RowTarget(targetId)
    decreases |symbols|
  {
    if symbols != [] && r.resolver.Supports(provider, symbols[0], r.period.interval) {
      var key := r.KeyOf(targetId, provider, symbols[0]);
      var after := AfterCreate(rows, key, r.NewRow(key), r.env.createFault(key));
      ClaimKeys(r, after, targetId, provider, symbols[1..]);
      var rest := Keys(r.ClaimSymbols(after, targetId, provider, symbols[1..]).pending);
      assert key !in rest;
      NoDupConcat([key], rest);
      var pending := r.ClaimSymbols(rows, targetId, provider, symbols).pending;
      if pending != [] { assert Keys(pending) == [pending[0].key] + Keys(pending[1..]); }
    }
  }

  /** Distinct keys of one target's jobs. */
  predicate OwnKeys(keys: seq<JobKey>, et: EligibleTarget) {
    NoDup(keys) && forall k :: k in keys ==> k.target == RowTarget(et.target.id)
  }

  lemma KeptKeys(r: Round, rows: Rows, et: EligibleTarget)
    requires NoDup(et.config.symbols)
    ensures OwnKeys(Keys(r.Kept(r.ClaimTarget(rows, et))), et)
  {
    ClaimKeys(r, rows, et.target.id, et.config.provider, et.config.symbols);
    hide Round.ClaimSymbols;
  }

  lemma {:induction false} ClaimAllKeys(r: Round, rows: Rows, ets: seq<EligibleTarget>)
    requires SymbolsDistinct(ets)
    ensures var pending := r.ClaimAll(rows, ets).pending;
            forall i :: 0 <= i < |ets| ==> OwnKeys(Keys(pending[i]), ets[i])
    decreases |ets|
  {
    if ets != [] {
      var claim := r.ClaimTarget(rows, ets[0]);
      KeptKeys(r, rows, ets[0]);
      ClaimAllKeys(r, claim.rows, ets[1..]);
      hide Keys, OwnKeys, NoDup, Round.ClaimTarget, Round.ClaimSymbols;
      var pending, rest := r.ClaimAll(rows, ets).pending, r.ClaimAll(claim.rows, ets[1..]).pending;
      assert pending == [r.Kept(claim)] + rest;
      forall i | 1 <= i < |ets| ensures OwnKeys(Keys(pending[i]), ets[i]) {
        assert pending[i] == rest[i - 1] && ets[i] == ets[1..][i - 1];
      }
    }
  }

  lemma ClaimsAreApart(r: Round, rows: Rows, ets: seq<EligibleTarget>)
    requires SymbolsDistinct(ets) && DistinctTargets(ets)
    ensures KeysApart(r.ClaimAll(rows, ets).pending)
  {
    ClaimAllKeys(r, rows, ets);
    hide Keys, Round.ClaimAll;
  }

  /** The early return changes nothing: delivering without jobs leaves everything as it is. */
  lemma PhasesAlwaysDeliver(r: Round, rows: Rows, ets: seq<EligibleTarget>)
    requires WellKeyed(r.env, rows)
    ensures var claims, e := r.ClaimAll(rows, ets), r.ThreePhases(rows, ets);
            var d := r.DeliverAll(claims.rows, ets, claims.pending);
            e.rows == d.rows && e.deliveries == d.deliveries
  {
    var claims := r.ClaimAll(rows, ets);
    if claims.needed == {} {
      NothingNeededNothingPending(r, rows, ets);
      DeliveringNothing(r, claims.rows, ets, claims.pending);
    }
    hide WellKeyed, Round.ClaimAll, Round.DeliverAll;
  }

  /** An execution with these clock readings can take its steps from here. */
  ghost predicate Ready(
    c: R.Settings, s: R.State, r: Round, now: Nanos, attempted: seq<JobKey>, marks: seq<PendingJob>)
  {
    && s.flight.Idle? && now <= s.clock && c.engine.GetCurrentPeriod(now, r.period.interval) == Some(r.period)
    && WellKeyed(r.env, s.rows) && (forall k :: r.env.freshId(k) !in s.used)
    && CreatedInOrder(r, s.clock, attempted, now + c.maxLag)
    && MarkedInOrder(r, ClockAfterCreates(r, s.clock, attempted), marks)
  }

  /** The execution is over, the rows are these, and nothing recorded was forgotten. */
  ghost predicate Finished(s: R.State, n: R.State, rows: Rows) {
    n.flight.Idle? && n.rows == rows && s.recorded <= n.recorded
  }

  /** The state in which an execution has begun and called for these jobs. */
  function Called(s: R.State, r: Round, now: Nanos, keys: seq<JobKey>): R.State {
    Created(r, s.(flight := R.Busy(now, r.period, false, map[])), keys)
  }

  predicate OfPeriod(r: Round, keys: seq<JobKey>) {
    forall k :: k in keys ==> k.interval == r.period.interval && k.periodStart == r.period.start
  }

  /** An execution begins and creates its jobs, as steps. */
  lemma CallsReplay(c: R.Settings, s: R.State, r: Round, now: Nanos, keys: seq<JobKey>, marks: seq<PendingJob>)
    returns (creates: seq<R.Step>)
    requires Ready(c, s, r, now, keys, marks) && NoDup(keys) && OfPeriod(r, keys)
    ensures var begin := R.Begin(now, r.period.interval);
            && R.Enabled(c, s, begin) && R.Feasible(c, R.Next(c, s, begin), creates)
            && R.After(c, R.Next(c, s, begin), creates) == Called(s, r, now, keys)
            && (R.SafeLag(c) && R.Inv(c, s) ==> R.Inv(c, Called(s, r, now, keys)))
  {
    var begin := R.Begin(now, r.period.interval);
    var a := R.Next(c, s, begin);
    assert a == s.(flight := R.Busy(now, r.period, false, map[]));
    hide HeldAfter, CreatedAll, R.Inv, MarkedInOrder, CreatedInOrder;
    creates := CreatesReplay(c, a, r, keys);
    if R.SafeLag(c) && R.Inv(c, s) {
      R.StepKeeps(c, s, begin);
      R.RunKeeps(c, a, creates);
    }
  }

  /** Claims and deliveries of one execution, as steps. */
  lemma PhasesReplay(
    c: R.Settings, s: R.State, r: Round, now: Nanos, keys: seq<JobKey>, ets: seq<EligibleTarget>,
    pending: seq<seq<PendingJob>>)
    returns (steps: seq<R.Step>)
    requires |ets| == |pending| && KeysApart(pending) && Ready(c, s, r, now, keys, AllMarks(r, pending))
    requires NoDup(keys) && OfPeriod(r, keys)
    requires AllHeld(HeldAfter(r, s.rows, map[], keys), pending)
    ensures R.Feasible(c, s, steps)
    ensures var d := r.DeliverAll(CreatedAll(r, s.rows, keys), ets, pending);
            && Finished(s, R.After(c, s, steps), d.rows)
            && (R.SafeLag(c) && R.Inv(c, s) ==> CoversUnrecorded(d.deliveries, s.recorded))
  {
    var begin, b := R.Begin(now, r.period.interval), Called(s, r, now, keys);
    var creates := CallsReplay(c, s, r, now, keys, AllMarks(r, pending));
    hide AllHeld, KeysApart, R.Inv, WellKeyed, Round.DeliverAll, HeldAfter, CreatedAll, AllMarks;
    var delivers := TargetsReplay(c, b, r, ets, pending);
    BeginsAndEnds(c, s, begin, creates, delivers);
    steps := [begin] + (creates + (delivers + [R.End]));
  }

  lemma BeginsAndEnds(c: R.Settings, s: R.State, begin: R.Step, creates: seq<R.Step>, delivers: seq<R.Step>)
    requires R.Enabled(c, s, begin) && R.Feasible(c, R.Next(c, s, begin), creates)
    requires var b := R.After(c, R.Next(c, s, begin), creates);
             R.Feasible(c, b, delivers) && R.After(c, b, delivers).flight.Busy?
    ensures var steps := [begin] + (creates + (delivers + [R.End]));
            var e := R.After(c, R.After(c, R.Next(c, s, begin), creates), delivers);
            R.Feasible(c, s, steps) && R.After(c, s, steps) == e.(flight := R.Idle)
  {
    var a := R.Next(c, s, begin);
    var b := R.After(c, a, creates);
    var e := R.After(c, b, delivers);
    R.FeasibleStep(c, e, R.End, []);
    assert [R.End] + [] == [R.End];
    Joined(c, b, delivers, [R.End]);
    Joined(c, a, creates, delivers + [R.End]);
    R.FeasibleStep(c, s, begin, creates + (delivers + [R.End]));
  }

  /**
   A round of the target executor, with its clock readings in order, is a run of the retention system: it
   leaves the same rows, and with a safe lag none of its messages covers a job ever recorded as sent.
   */
  lemma RoundReplays(c: R.Settings, s: R.State, r: Round, now: Nanos, targets: seq<Target>) returns (steps: seq<R.Step>)
    requires DistinctIds(targets) && SymbolsDistinct(r.Eligible(targets).0)
    requires var ets := r.Eligible(targets).0;
             Ready(c, s, r, now, AllAttempted(r, s.rows, ets), AllMarks(r, r.ClaimAll(s.rows, ets).pending))
    ensures R.Feasible(c, s, steps)
    ensures var e := r.ThreePhases(s.rows, r.Eligible(targets).0);
            && Finished(s, R.After(c, s, steps), e.rows)
            && (R.SafeLag(c) && R.Inv(c, s) ==> CoversUnrecorded(e.deliveries, s.recorded))
  {
    var ets := r.Eligible(targets).0;
    var claims, keys := r.ClaimAll(s.rows, ets), AllAttempted(r, s.rows, ets);
    EligibleAreDistinct(r, targets);
    ClaimAllReplays(r, s.rows, map[], ets);
    ClaimsAreApart(r, s.rows, ets);
    PhasesAlwaysDeliver(r, s.rows, ets);
    forall k | k in keys ensures k.interval == r.period.interval && k.periodStart == r.period.start {
      AllAttemptsAreListed(r, s.rows, ets, k);
    }
    hide Round.ClaimAll, Round.Eligible, AllAttempted, AllMarks, HeldAfter, CreatedAll, Holds, KeysApart,
        Round.ThreePhases, Round.DeliverAll;
    hide R.Feasible, R.After, R.Inv, Ready, Finished, CoversUnrecorded;
    steps := PhasesReplay(c, s, r, now, keys, ets, claims.pending);
  }

  /** The jobs a legacy round marks: all it claimed, unless it ends early or has no message. */
  function LegacyMarks(r: Round, rows: Rows, symbols: seq<Symbol>): seq<PendingJob> {
    var claim := r.LegacyClaims(rows, symbols);
    if claim.dropped then [] else Marks(r, r.LegacyResults(claim.pending), claim.pending)
  }

  lemma LegacyDelivers(r: Round, rows: Rows, symbols: seq<Symbol>)
    ensures var claim, marks, e := r.LegacyClaims(rows, symbols), LegacyMarks(r, rows, symbols),
              r.LegacyRound(rows, symbols);
            if marks == [] then e.rows == claim.rows && e.deliveries == []
            else
              && marks == claim.pending
              && (exists error :: e.rows == r.AfterMarks(claim.rows, Ids(marks), error))
              && forall d :: d in e.deliveries ==> d.covers == Keys(marks)
  {
    var claim := r.LegacyClaims(rows, symbols);
    if LegacyMarks(r, rows, symbols) != [] {
      var message := MessageFor(r.period, r.LegacyResults(claim.pending)).value;
      var error := r.BroadcastTo(|r.notifiers|, message, Keys(claim.pending)).1;
      BroadcastsCover(r, |r.notifiers|, message, Keys(claim.pending));
      assert r.LegacyRound(rows, symbols).rows == r.AfterMarks(claim.rows, Ids(claim.pending), error);
    }
  }

  /** Creating and marking look at nothing but the environment and the period. */
  lemma {:induction false} SameCreates(r: Round, clock: Nanos, keys: seq<JobKey>, limit: Nanos)
    requires CreatedInOrder(r, clock, keys, limit)
    ensures CreatedInOrder(Unchecked(r), clock, keys, limit)
    decreases |keys|
  {
    if keys != [] { SameCreates(r, r.env.createdAt(keys[0]), keys[1..], limit); }
  }

  lemma {:induction false} SameMarks(r: Round, clock: Nanos, pending: seq<PendingJob>)
    requires MarkedInOrder(r, clock, pending)
    ensures MarkedInOrder(Unchecked(r), clock, pending)
    decreases |pending|
  {
    if pending != [] { SameMarks(r, r.env.markedAt(pending[0].id), pending[1..]); }
  }

  lemma ReadyUnchecked(c: R.Settings, s: R.State, r: Round, now: Nanos, keys: seq<JobKey>, marks: seq<PendingJob>)
    requires Ready(c, s, r, now, keys, marks)
    ensures Ready(c, s, Unchecked(r), now, keys, marks)
  {
    SameCreates(r, s.clock, keys, now + c.maxLag);
    SameMarks(r, ClockAfterCreates(r, s.clock, keys), marks);
    hide CreatedInOrder, MarkedInOrder, WellKeyed;
  }

  /** What the legacy round calls for, and what it then holds. */
  lemma LegacyIsHeld(s: R.State, r: Round, now: Nanos, symbols: seq<Symbol>)
    requires NoDup(symbols)
    ensures var keys, marks := Attempted(Unchecked(r), s.rows, "", BINANCE, symbols), LegacyMarks(r, s.rows, symbols);
            var b := Called(s, Unchecked(r), now, keys);
            && NoDup(keys) && OfPeriod(Unchecked(r), keys)
            && b.rows == r.LegacyClaims(s.rows, symbols).rows
            && Holds(b.flight.held, marks) && NoDup(Keys(marks))
  {
    ClaimReplays(Unchecked(r), s.rows, map[], "", BINANCE, symbols);
    ClaimKeys(Unchecked(r), s.rows, "", BINANCE, symbols);
    AttemptsAreOwn(Unchecked(r), s.rows, "", BINANCE, symbols);
    hide Attempted, Round.ClaimSymbols, HeldAfter, CreatedAll, Holds, Keys, MessageFor;
  }

  /** A legacy round is such a run too, on the same table. */
  lemma LegacyReplays(c: R.Settings, s: R.State, r: Round, now: Nanos, symbols: seq<Symbol>)
    returns (steps: seq<R.Step>)
    requires NoDup(symbols)
    requires Ready(c, s, r, now, Attempted(Unchecked(r), s.rows, "", BINANCE, symbols), LegacyMarks(r, s.rows, symbols))
    ensures R.Feasible(c, s, steps)
    ensures var e := r.LegacyRound(s.rows, symbols);
            && Finished(s, R.After(c, s, steps), e.rows)
            && (R.SafeLag(c) && R.Inv(c, s) ==> CoversUnrecorded(e.deliveries, s.recorded))
  {
    var all, keys, marks := Unchecked(r), Attempted(Unchecked(r), s.rows, "", BINANCE, symbols),
        LegacyMarks(r, s.rows, symbols);
    var begin, b := R.Begin(now, r.period.interval), Called(s, Unchecked(r), now, keys);
    LegacyIsHeld(s, r, now, symbols);
    LegacyDelivers(r, s.rows, symbols);
    ReadyUnchecked(c, s, r, now, keys, marks);
    var creates := CallsReplay(c, s, all, now, keys, marks);
    assert b.flight.Busy? && b.recorded == s.recorded && MarkedInOrder(r, b.clock, marks);
    hide Ready, Called, LegacyMarks, Round.LegacyRound, Round.LegacyClaims, R.Inv, MarkedInOrder, Attempted;
    var delivers: seq<R.Step> := [];
    if marks != [] {
      var error :| r.LegacyRound(s.rows, symbols).rows == r.AfterMarks(b.rows, Ids(marks), error);
      delivers := DeliveryReplays(c, b, r, marks, error);
    }
    BeginsAndEnds(c, s, begin, creates, delivers);
    steps := [begin] + (creates + (delivers + [R.End]));
  }

  /**
   So no execution ever sends again: at any point of any run of executions and cleanups with a safe lag, no
   message of the next target round covers a job that was a sent row at any earlier point of the run.
   */
  lemma ExecutionsNeverSendAgain(
    c: R.Settings, clock: Nanos, earlier: seq<R.Step>, since: seq<R.Step>, r: Round, now: Nanos, targets: seq<Target>)
    requires R.SafeLag(c) && R.Feasible(c, R.Init(clock), earlier)
    requires R.Feasible(c, R.After(c, R.Init(clock), earlier), since)
    requires DistinctIds(targets) && SymbolsDistinct(r.Eligible(targets).0)
    requires var s, ets := R.After(c, R.After(c, R.Init(clock), earlier), since), r.Eligible(targets).0;
             Ready(c, s, r, now, AllAttempted(r, s.rows, ets), AllMarks(r, r.ClaimAll(s.rows, ets).pending))
    ensures var past := R.After(c, R.Init(clock), earlier);
            var e := r.ThreePhases(R.After(c, past, since).rows, r.Eligible(targets).0);
            forall d, k :: d in e.deliveries && k in d.covers ==> !(k in past.rows && past.rows[k].status == Sent)
  {
    var past := R.After(c, R.Init(clock), earlier);
    var s := R.After(c, past, since);
    R.RunKeeps(c, R.Init(clock), earlier);
    R.RunKeeps(c, past, since);
    R.RunRecords(c, R.Init(clock), earlier);
    R.RunRecords(c, past, since);
    hide R.Feasible, R.After, R.Inv, Ready, Round.ThreePhases, Round.Eligible, AllAttempted, AllMarks, R.SafeLag;
    var _ := RoundReplays(c, s, r, now, targets);
  }

  /** Nor does the next legacy round. */
  lemma LegacyNeverSendsAgain(
    c: R.Settings, clock: Nanos, earlier: seq<R.Step>, since: seq<R.Step>, r: Round, now: Nanos, symbols: seq<Symbol>)
    requires R.SafeLag(c) && R.Feasible(c, R.Init(clock), earlier)
    requires R.Feasible(c, R.After(c, R.Init(clock), earlier), since)
    requires NoDup(symbols)
    requires var s := R.After(c, R.After(c, R.Init(clock), earlier), since);
             Ready(c, s, r, now, Attempted(Unchecked(r), s.rows, "", BINANCE, symbols), LegacyMarks(r, s.rows, symbols))
    ensures var past := R.After(c, R.Init(clock), earlier);
            var e := r.LegacyRound(R.After(c, past, since).rows, symbols);
            forall d, k :: d in e.deliveries && k in d.covers ==> !(k in past.rows && past.rows[k].status == Sent)
  {
    var past := R.After(c, R.Init(clock), earlier);
    var s := R.After(c, past, since);
    R.RunKeeps(c, R.Init(clock), earlier);
    R.RunKeeps(c, past, since);
    R.RunRecords(c, R.Init(clock), earlier);
    R.RunRecords(c, past, since);
    hide R.Feasible, R.After, R.Inv, Ready, Round.LegacyRound, Attempted, LegacyMarks, R.SafeLag;
    var _ := LegacyReplays(c, s, r, now, symbols);
  }
}
