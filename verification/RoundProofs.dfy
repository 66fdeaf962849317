/** Theorems about one execution round. */
module RoundProofs {
  import opened Prelude
  import opened Domain
  import opened Messages
  import opened Jobs
  import opened Rounds

  // ---------------------------------------------------------------- ids and claims

  /** Fresh ids are distinct, and a row carries a job's fresh id only if it is that job's row. */
  ghost predicate FreshFor(env: Env, rows: Rows) {
    && (forall k1, k2 :: env.freshId(k1) == env.freshId(k2) ==> k1 == k2)
    && (forall k, held :: held in rows && rows[held].id == env.freshId(k) ==> held == k)
  }

  ghost predicate WellKeyed(env: Env, rows: Rows) {
    UniqueIds(rows) && FreshFor(env, rows)
  }

  /** after has all rows of before, unchanged, and otherwise only new pending rows of one target. */
  ghost predicate GrowsBy(before: Rows, after: Rows, target: string) {
    && (forall k :: k in before ==> k in after && after[k] == before[k])
    && (forall k :: k in after && k !in before ==>
         k.target == target && after[k].status == Pending && after[k].sentAt == None)
  }

  /** Every claimed job is a row of this target, under this id, not recorded as sent. */
  ghost predicate Held(rows: Rows, pending: seq<PendingJob>, target: string) {
    forall p :: p in pending ==>
      p.key in rows && rows[p.key].id == p.id && p.key.target == target && rows[p.key].status != Sent
  }

  lemma CreateGrows(r: Round, rows: Rows, key: JobKey)
    requires WellKeyed(r.env, rows)
    ensures var after := AfterCreate(rows, key, r.NewRow(key), r.env.createFault(key));
            && WellKeyed(r.env, after)
            && GrowsBy(rows, after, key.target)
  {
  }

  lemma CreatedRowIsHeld(r: Round, rows: Rows, key: JobKey)
    requires CreateAnswer(rows, key, r.NewRow(key), r.env.createFault(key)).Ok?
    ensures var after := AfterCreate(rows, key, r.NewRow(key), r.env.createFault(key));
            var (row, isNew) := CreateAnswer(rows, key, r.NewRow(key), r.env.createFault(key)).value;
            && key in after && after[key] == row
            && (isNew ==> row.status == Pending)
            && ValidJob(key, r.NewRow(key))
  {
  }

  lemma {:induction false} ClaimGrows(
    r: Round, rows: Rows, targetId: string, provider: MarketProvider, symbols: seq<Symbol>)
    requires WellKeyed(r.env, rows)
    ensures var c := r.ClaimSymbols(rows, targetId, provider, symbols);
            && WellKeyed(r.env, c.rows)
            && GrowsBy(rows, c.rows, RowTarget(targetId))
    decreases |symbols|
  {
    if symbols != [] && r.resolver.Supports(provider, symbols[0], r.period.interval) {
      var key := r.KeyOf(targetId, provider, symbols[0]);
      CreateGrows(r, rows, key);
      if CreateAnswer(rows, key, r.NewRow(key), r.env.createFault(key)).Ok? {
        ClaimGrows(r, AfterCreate(rows, key, r.NewRow(key), r.env.createFault(key)), targetId, provider, symbols[1..]);
      }
    }
  }

  /** Claimed jobs are unsent rows of the target, all of whose keys are to be fetched. */
  lemma {:induction false} ClaimIsHeld(
    r: Round, rows: Rows, targetId: string, provider: MarketProvider, symbols: seq<Symbol>)
    requires WellKeyed(r.env, rows)
    ensures var c := r.ClaimSymbols(rows, targetId, provider, symbols);
            && Held(c.rows, c.pending, RowTarget(targetId))
            && (forall p :: p in c.pending ==> p.key == r.KeyOf(targetId, provider, p.key.symbol))
            && (forall p :: p in c.pending ==> FetchKey(provider, p.key.symbol) in c.needed)
    decreases |symbols|
  {
    if symbols != [] && r.resolver.Supports(provider, symbols[0], r.period.interval) {
      var key := r.KeyOf(targetId, provider, symbols[0]);
      CreateGrows(r, rows, key);
      if CreateAnswer(rows, key, r.NewRow(key), r.env.createFault(key)).Ok? {
        var after := AfterCreate(rows, key, r.NewRow(key), r.env.createFault(key));
        CreatedRowIsHeld(r, rows, key);
        ClaimIsHeld(r, after, targetId, provider, symbols[1..]);
        ClaimGrows(r, after, targetId, provider, symbols[1..]);
      }
    }
  }

  // ---------------------------------------------------------------- marking and claiming commute

  /** The ids belong to rows of one target, and no other target will be given one of them. */
  ghost predicate Separated(env: Env, rows: Rows, ids: set<nat>, target: string) {
    && (forall k :: k in rows && rows[k].id in ids ==> k.target == target)
    && (forall k: JobKey :: k.target != target ==> env.freshId(k) !in ids)
  }

  lemma HeldIsSeparated(env: Env, rows: Rows, pending: seq<PendingJob>, target: string)
    requires WellKeyed(env, rows) && Held(rows, pending, target)
    ensures Separated(env, rows, Ids(pending), target)
  {
  }

  lemma MarksKeepIds(r: Round, rows: Rows, ids: set<nat>, sendError: Option<string>)
    requires WellKeyed(r.env, rows)
    ensures WellKeyed(r.env, r.AfterMarks(rows, ids, sendError))
    ensures forall id :: IdTaken(r.AfterMarks(rows, ids, sendError), id) <==> IdTaken(rows, id)
  {
    var marked := r.AfterMarks(rows, ids, sendError);
    forall id ensures IdTaken(marked, id) <==> IdTaken(rows, id) {
      if IdTaken(rows, id) {
        var k :| k in rows && rows[k].id == id;
        assert marked[k].id == id;
      }
    }
  }

  lemma OneMoreMark(r: Round, rows: Rows, ids: set<nat>, id: nat, sendErr: Option<string>)
    ensures var marked := r.AfterMarks(rows, ids, sendErr);
            r.AfterMarks(rows, ids + {id}, sendErr)
            == if r.env.markLands(id) then AfterMark(marked, id, r.MarkFor(id, sendErr), r.env.markedAt(id)) else marked
  {
  }

  lemma InsertCommutesWithMarks(
    r: Round, rows: Rows, key: JobKey, row: JobRow, ids: set<nat>, sendError: Option<string>)
    requires row.id !in ids
    ensures r.AfterMarks(rows[key := row], ids, sendError) == r.AfterMarks(rows, ids, sendError)[key := row]
  {
  }

  lemma OthersAreUnmarked(r: Round, rows: Rows, key: JobKey, ids: set<nat>, target: string, sendError: Option<string>)
    requires Separated(r.env, rows, ids, target) && key.target != target
    ensures r.NewRow(key).id !in ids
    ensures key in rows ==> r.AfterMarks(rows, ids, sendError)[key] == rows[key]
  {
  }

  /** Creating another target's job and marking this target's jobs can be done in either order. */
  lemma CreateCommutesWithMarks(
    r: Round, rows: Rows, key: JobKey, ids: set<nat>, target: string, sendError: Option<string>)
    requires WellKeyed(r.env, rows) && Separated(r.env, rows, ids, target) && key.target != target
    ensures var row, fault, marked := r.NewRow(key), r.env.createFault(key), r.AfterMarks(rows, ids, sendError);
            && CreateAnswer(marked, key, row, fault) == CreateAnswer(rows, key, row, fault)
            && AfterCreate(marked, key, row, fault) == r.AfterMarks(AfterCreate(rows, key, row, fault), ids, sendError)
            && Separated(r.env, AfterCreate(rows, key, row, fault), ids, target)
  {
    MarksKeepIds(r, rows, ids, sendError);
    OthersAreUnmarked(r, rows, key, ids, target, sendError);
    InsertCommutesWithMarks(r, rows, key, r.NewRow(key), ids, sendError);
    hide ValidJob, IdTaken, WellKeyed;
    assert key in r.AfterMarks(rows, ids, sendError) <==> key in rows;
    hide Round.AfterMarks;
  }

  lemma {:induction false} ClaimCommutesWithMarks(
    r: Round, rows: Rows, targetId: string, provider: MarketProvider, symbols: seq<Symbol>,
    ids: set<nat>, target: string, sendError: Option<string>)
    requires WellKeyed(r.env, rows) && Separated(r.env, rows, ids, target) && RowTarget(targetId) != target
    ensures var c := r.ClaimSymbols(rows, targetId, provider, symbols);
            && r.ClaimSymbols(r.AfterMarks(rows, ids, sendError), targetId, provider, symbols)
               == c.(rows := r.AfterMarks(c.rows, ids, sendError))
            && Separated(r.env, c.rows, ids, target)
    decreases |symbols|
  {
    if symbols != [] && r.resolver.Supports(provider, symbols[0], r.period.interval) {
      var key := r.KeyOf(targetId, provider, symbols[0]);
      CreateCommutesWithMarks(r, rows, key, ids, target, sendError);
      CreateGrows(r, rows, key);
      if CreateAnswer(rows, key, r.NewRow(key), r.env.createFault(key)).Ok? {
        var after := AfterCreate(rows, key, r.NewRow(key), r.env.createFault(key));
        ClaimCommutesWithMarks(r, after, targetId, provider, symbols[1..], ids, target, sendError);
      }
    }
  }

  /** No later target writes rows under this target. */
  ghost predicate NoneIs(ets: seq<EligibleTarget>, target: string) {
    forall et :: et in ets ==> RowTarget(et.target.id) != target
  }

  lemma {:induction false} ClaimAllCommutesWithMarks(
    r: Round, rows: Rows, ets: seq<EligibleTarget>, ids: set<nat>, target: string, sendError: Option<string>)
    requires WellKeyed(r.env, rows) && Separated(r.env, rows, ids, target) && NoneIs(ets, target)
    ensures r.ClaimAll(r.AfterMarks(rows, ids, sendError), ets)
            == r.ClaimAll(rows, ets).(rows := r.AfterMarks(r.ClaimAll(rows, ets).rows, ids, sendError))
    decreases |ets|
  {
    if ets != [] {
      var t := ets[0];
      ClaimCommutesWithMarks(r, rows, t.target.id, t.config.provider, t.config.symbols, ids, target, sendError);
      ClaimGrows(r, rows, t.target.id, t.config.provider, t.config.symbols);
      ClaimAllCommutesWithMarks(r, r.ClaimTarget(rows, t).rows, ets[1..], ids, target, sendError);
    }
  }

  /** Delivering to one target before or after the later targets claim their jobs is the same. */
  lemma DeliverCommutesWithClaims(
    r: Round, rows: Rows, target: Target, pending: seq<PendingJob>, ets: seq<EligibleTarget>)
    requires WellKeyed(r.env, rows) && Held(rows, pending, RowTarget(target.id)) && NoneIs(ets, RowTarget(target.id))
    ensures var claims := r.ClaimAll(rows, ets);
            var d := r.Deliver(rows, target, pending);
            && r.ClaimAll(d.rows, ets) == claims.(rows := r.Deliver(claims.rows, target, pending).rows)
            && r.Deliver(claims.rows, target, pending) == d.(rows := r.Deliver(claims.rows, target, pending).rows)
            && WellKeyed(r.env, d.rows)
  {
    HeldIsSeparated(r.env, rows, pending, RowTarget(target.id));
    if pending != [] && MessageFor(r.period, r.ResultsFor(pending)).Ok? {
      var message := MessageFor(r.period, r.ResultsFor(pending)).value;
      var error := r.SendFrom(0, target, message, Keys(pending)).1;
      ClaimAllCommutesWithMarks(r, rows, ets, Ids(pending), RowTarget(target.id), error);
      MarksKeepIds(r, rows, Ids(pending), error);
    }
  }

  // ---------------------------------------------------------------- refinement

  ghost predicate DistinctTargets(ets: seq<EligibleTarget>) {
    forall i, j :: 0 <= i < j < |ets| ==> RowTarget(ets[i].target.id) != RowTarget(ets[j].target.id)
  }

  ghost predicate DistinctIds(targets: seq<Target>) {
    forall i, j :: 0 <= i < j < |targets| ==> RowTarget(targets[i].id) != RowTarget(targets[j].id)
  }

  lemma {:induction false} EligibleAreListed(r: Round, targets: seq<Target>)
    ensures forall et :: et in r.Eligible(targets).0 ==> et.target in targets
    decreases |targets|
  {
    if targets != [] { EligibleAreListed(r, targets[1..]); }
  }

  lemma {:induction false} EligibleAreDistinct(r: Round, targets: seq<Target>)
    requires DistinctIds(targets)
    ensures DistinctTargets(r.Eligible(targets).0)
    decreases |targets|
  {
    if targets != [] {
      EligibleAreDistinct(r, targets[1..]);
      EligibleAreListed(r, targets[1..]);
    }
  }

  /** Claiming everything first and delivering afterwards is the naive loop, up to the order of errors. */
  lemma {:induction false} PhasesAreNaive(r: Round, rows: Rows, ets: seq<EligibleTarget>)
    requires WellKeyed(r.env, rows) && DistinctTargets(ets)
    ensures var claims, naive := r.ClaimAll(rows, ets), r.NaiveRound(rows, ets);
            var d := r.DeliverAll(claims.rows, ets, claims.pending);
            && d.rows == naive.rows
            && d.deliveries == naive.deliveries
            && multiset(claims.errors + d.errors) == multiset(naive.errors)
    decreases |ets|
  {
    if ets != [] {
      hide Round.Deliver, Round.ClaimSymbols, GrowsBy, UniqueIds, FreshFor;
      var t := ets[0];
      var claim := r.ClaimTarget(rows, t);
      ClaimGrows(r, rows, t.target.id, t.config.provider, t.config.symbols);
      ClaimIsHeld(r, rows, t.target.id, t.config.provider, t.config.symbols);
      DeliverCommutesWithClaims(r, claim.rows, t.target, r.Kept(claim), ets[1..]);
      PhasesAreNaive(r, r.Deliver(claim.rows, t.target, r.Kept(claim)).rows, ets[1..]);
    }
  }

  lemma PendingMeansNeeded(claim: Claim, provider: MarketProvider)
    requires forall p :: p in claim.pending ==> FetchKey(provider, p.key.symbol) in claim.needed
    ensures claim.pending != [] ==> claim.needed != {}
  {
    if claim.pending != [] {
      assert FetchKey(provider, claim.pending[0].key.symbol) in claim.needed;
    }
  }

  /** When no key needs fetching, no target has anything to deliver. */
  lemma {:induction false} NothingNeededNothingPending(r: Round, rows: Rows, ets: seq<EligibleTarget>)
    requires WellKeyed(r.env, rows) && r.ClaimAll(rows, ets).needed == {}
    ensures var pending := r.ClaimAll(rows, ets).pending; forall i :: 0 <= i < |pending| ==> pending[i] == []
    decreases |ets|
  {
    if ets != [] {
      var t := ets[0];
      ClaimIsHeld(r, rows, t.target.id, t.config.provider, t.config.symbols);
      ClaimGrows(r, rows, t.target.id, t.config.provider, t.config.symbols);
      NothingNeededNothingPending(r, r.ClaimTarget(rows, t).rows, ets[1..]);
      assert r.ClaimTarget(rows, t).needed <= r.ClaimAll(rows, ets).needed;
      PendingMeansNeeded(r.ClaimTarget(rows, t), t.config.provider);
    }
  }

  lemma {:induction false} DeliveringNothing(
    r: Round, rows: Rows, ets: seq<EligibleTarget>, pending: seq<seq<PendingJob>>)
    requires |ets| == |pending| && forall i :: 0 <= i < |pending| ==> pending[i] == []
    ensures r.DeliverAll(rows, ets, pending) == Effects(rows, [], [])
    decreases |ets|
  {
    if ets != [] { DeliveringNothing(r, rows, ets[1..], pending[1..]); }
  }

  /**
   Shared-fetch refinement: for any distinct targets, any configurations, any starting rows and any
   environment, the three phases leave the same rows and the same ordered messages as the naive loop,
   and report the same errors in some order, so they fail exactly when it does.
   */
  lemma SharedFetchRefinesNaive(r: Round, rows: Rows, ets: seq<EligibleTarget>)
    requires WellKeyed(r.env, rows) && DistinctTargets(ets)
    ensures var fast, naive := r.ThreePhases(rows, ets), r.NaiveRound(rows, ets);
            && fast.rows == naive.rows
            && fast.deliveries == naive.deliveries
            && multiset(fast.errors) == multiset(naive.errors)
            && (FirstOf(fast.errors).None? <==> FirstOf(naive.errors).None?)
  {
    PhasesAreNaive(r, rows, ets);
    var claims := r.ClaimAll(rows, ets);
    if claims.needed == {} {
      NothingNeededNothingPending(r, rows, ets);
      DeliveringNothing(r, claims.rows, ets, claims.pending);
      assert claims.errors + [] == claims.errors;
    }
    assert |multiset(r.ThreePhases(rows, ets).errors)| == |r.ThreePhases(rows, ets).errors|;
    assert |multiset(r.NaiveRound(rows, ets).errors)| == |r.NaiveRound(rows, ets).errors|;
  }
}
