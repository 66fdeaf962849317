/** The rows a whole round leaves, job by job, and the errors it reports. */
module RoundEffects {
  import opened Prelude
  import opened Domain
  import opened Messages
  import opened Jobs
  import opened Rounds
  import opened RoundProofs
  import opened SentProofs
  import opened IsolationProofs
  import opened DeliveryProofs
  import opened ClaimProofs
  import opened Expectations
  import opened RoundMessages

  // ---------------------------------------------------------------- what marking does to one row

  /** The row after its message was accepted by every notifier. */
  function MarkedSent(r: Round, row: JobRow): JobRow {
    row.(status := Sent, error := "", sentAt := Some(r.env.sentAt(row.id)), updatedAt := r.env.markedAt(row.id))
  }

  /** The row after its message was refused for this reason: when it was sent is not touched. */
  function MarkedFailed(r: Round, row: JobRow, reason: string): JobRow {
    row.(status := JobStatus.Failed, error := reason, updatedAt := r.env.markedAt(row.id))
  }

  /** The row was marked sent if there was no error, and failed with the error otherwise, if the mark landed. */
  predicate MarkedBy(r: Round, before: JobRow, error: Option<string>, after: JobRow) {
    after == if !r.env.markLands(before.id) then before
             else if error.None? then MarkedSent(r, before) else MarkedFailed(r, before, error.value)
  }

  lemma MarksEach(r: Round, rows: Rows, pending: seq<PendingJob>, target: string, error: Option<string>, key: JobKey)
    requires WellKeyed(r.env, rows) && Held(rows, pending, target) && key in rows
    ensures key in r.AfterMarks(rows, Ids(pending), error)
    ensures var after := r.AfterMarks(rows, Ids(pending), error)[key];
            if key in Keys(pending) then MarkedBy(r, rows[key], error, after) else after == rows[key]
  {
    if key in Keys(pending) {
      var i :| 0 <= i < |pending| && Keys(pending)[i] == key;
      assert pending[i] in pending;
    } else {
      forall p | p in pending ensures p.key != key {
        var i :| 0 <= i < |pending| && pending[i] == p;
        assert Keys(pending)[i] == p.key;
      }
    }
  }

  // ---------------------------------------------------------------- one target's part

  /** The row of a job that a message about it was due: marked by what the first notifier to err said, if any. */
  ghost predicate Resolved(r: Round, rows: Rows, et: EligibleTarget, key: JobKey, after: JobRow) {
    exists error :: FirstErrorCounts(r, 0, et.target, OwedMessage(r, rows, et), error)
                    && MarkedBy(r, Unmarked(r, rows, key), error, after)
  }

  /** Whether this target's message covers the job. */
  predicate Covered(r: Round, rows: Rows, et: EligibleTarget, key: JobKey) {
    Due(r, rows, et) && key in Owed(r, rows, et)
  }

  /** What one target's part leaves under a key. */
  ghost predicate LeavesAt(r: Round, rows: Rows, et: EligibleTarget, key: JobKey, after: Rows) {
    && (key in after <==>
         key in rows || Creates(r, et.target.id, et.config.provider, et.config.symbols, key))
    && (Covered(r, rows, et, key) ==> key in after && Resolved(r, rows, et, key, after[key]))
    && (!Covered(r, rows, et, key) && key in after ==> after[key] == Unmarked(r, rows, key))
  }

  lemma DeliverMarks(r: Round, rows: Rows, target: Target, pending: seq<PendingJob>, message: Message)
    requires pending != [] && MessageFor(r.period, r.ResultsFor(pending)) == Ok(message)
    ensures r.Deliver(rows, target, pending).rows
         == r.AfterMarks(rows, Ids(pending), r.SendFrom(0, target, message, Keys(pending)).1)
  {
    hide MessageFor, Round.ResultsFor, Round.SendFrom, Round.AfterMarks;
  }

  /** Where the target is due a message, its part marks the rows its claim left. */
  lemma PartMarks(r: Round, rows: Rows, et: EligibleTarget, key: JobKey)
    requires WellKeyed(r.env, rows) && Due(r, rows, et)
    ensures var before, after := r.ClaimTarget(rows, et).rows, Part(r, rows, et).rows;
            && (key in after <==> key in before)
            && (key in Owed(r, rows, et) ==> key in before)
            && (key in before && key !in Owed(r, rows, et) ==> after[key] == before[key])
            && (key in before && key in Owed(r, rows, et) ==>
                 exists error :: FirstErrorCounts(r, 0, et.target, OwedMessage(r, rows, et), error)
                                 && MarkedBy(r, before[key], error, after[key]))
  {
    var claim, message, jobs := r.ClaimTarget(rows, et), OwedMessage(r, rows, et), Owed(r, rows, et);
    var pending := r.Kept(claim);
    ClaimGrows(r, rows, et.target.id, et.config.provider, et.config.symbols);
    ClaimIsHeld(r, rows, et.target.id, et.config.provider, et.config.symbols);
    ClaimsTheOwed(r, rows, et);
    BuildsTheOwed(r, rows, et);
    hide Round.ClaimSymbols, Due, OwedMessage, Owed, MessageFor, Round.ResultsFor, WellKeyed, MarkedBy,
        Round.AfterMarks, Round.SendFrom, FirstErrorCounts, Round.Deliver;
    DeliverMarks(r, claim.rows, et.target, pending, message);
    SendErrsFirst(r, 0, et.target, message, jobs);
    KeysAreUnsent(claim.rows, pending, RowTarget(et.target.id));
    var error := r.SendFrom(0, et.target, message, jobs).1;
    KeysStay(r, claim.rows, Ids(pending), error);
    if key in claim.rows { MarksEach(r, claim.rows, pending, RowTarget(et.target.id), error, key); }
  }

  lemma KeysStay(r: Round, rows: Rows, ids: set<nat>, error: Option<string>)
    ensures r.AfterMarks(rows, ids, error).Keys == rows.Keys
  {
  }

  lemma PartLeaves(r: Round, rows: Rows, et: EligibleTarget, key: JobKey)
    requires WellKeyed(r.env, rows)
    ensures LeavesAt(r, rows, et, key, Part(r, rows, et).rows)
  {
    CreatedExactly(r, rows, et.target.id, et.config.provider, et.config.symbols, key);
    ClaimsTheOwed(r, rows, et);
    hide Round.ClaimSymbols, Due, OwedMessage, Owed, WellKeyed, Creates, MarkedBy, FirstErrorCounts, Unmarked,
        Round.Kept, MessageFor;
    if Due(r, rows, et) {
      PartMarks(r, rows, et, key);
    }
  }

  // ---------------------------------------------------------------- the whole round

  predicate SameAt(a: Rows, b: Rows, key: JobKey) {
    (key in a <==> key in b) && (key in a ==> a[key] == b[key])
  }

  lemma {:induction false} NaiveElsewhere(r: Round, rows: Rows, ets: seq<EligibleTarget>, key: JobKey)
    requires WellKeyed(r.env, rows) && NoneIs(ets, key.target)
    ensures SameAt(rows, r.NaiveRound(rows, ets).rows, key)
    decreases |ets|
  {
    if ets != [] {
      var own := Part(r, rows, ets[0]);
      assert r.NaiveRound(rows, ets).rows == r.NaiveRound(own.rows, ets[1..]).rows;
      OwnPartStaysOwn(r, rows, ets[0]);
      PartKeepsIds(r, rows, ets[0]);
      hide Part, Round.NaiveRound, WellKeyed;
      NaiveElsewhere(r, own.rows, ets[1..], key);
    }
  }

  /** Under a target's own keys, the naive loop leaves what that target's part alone would leave. */
  lemma {:induction false} NaiveAt(
    r: Round, rows: Rows, ets: seq<EligibleTarget>, et: EligibleTarget, key: JobKey)
    requires WellKeyed(r.env, rows) && DistinctTargets(ets) && et in ets && key.target == RowTarget(et.target.id)
    ensures SameAt(Part(r, rows, et).rows, r.NaiveRound(rows, ets).rows, key)
    decreases |ets|
  {
    var own := Part(r, rows, ets[0]);
    assert r.NaiveRound(rows, ets).rows == r.NaiveRound(own.rows, ets[1..]).rows;
    PartKeepsIds(r, rows, ets[0]);
    if et == ets[0] {
      NaiveElsewhere(r, own.rows, ets[1..], key);
    } else {
      OwnPartStaysOwn(r, rows, ets[0]);
      PartAgrees(r, r, rows, own.rows, et, RowTarget(ets[0].target.id));
      hide Part, Round.NaiveRound, WellKeyed;
      NaiveAt(r, own.rows, ets[1..], et, key);
    }
  }

  /**
   Row by row, what a round leaves: under the keys of an eligible target, the rows its claim reached, marked
   where its message covered them and otherwise as they were created or found; elsewhere, what was there.
   */
  lemma RoundLeavesExactly(r: Round, rows: Rows, targets: seq<Target>, key: JobKey)
    requires WellKeyed(r.env, rows) && DistinctIds(targets)
    ensures var ets := r.Eligible(targets).0;
            var end := r.ThreePhases(rows, ets).rows;
            && (forall et :: et in ets && RowTarget(et.target.id) == key.target ==> LeavesAt(r, rows, et, key, end))
            && (NoneIs(ets, key.target) ==> SameAt(rows, end, key))
  {
    var ets := r.Eligible(targets).0;
    EligibleAreDistinct(r, targets);
    SharedFetchRefinesNaive(r, rows, ets);
    hide Part, Round.NaiveRound, Round.ThreePhases, Round.Eligible, WellKeyed, Covered, Resolved, Creates;
    if NoneIs(ets, key.target) { NaiveElsewhere(r, rows, ets, key); }
    forall et | et in ets && RowTarget(et.target.id) == key.target
      ensures LeavesAt(r, rows, et, key, r.ThreePhases(rows, ets).rows)
    {
      PartLeaves(r, rows, et, key);
      NaiveAt(r, rows, ets, et, key);
    }
  }

  lemma {:induction false} UnsentAt(
    r: Round, rows: Rows, targetId: string, provider: MarketProvider, symbols: seq<Symbol>, key: JobKey)
    ensures key in Unsent(r, rows, targetId, provider, symbols)
       <==> && key.symbol in symbols && key == JobOf(r, targetId, provider, key.symbol)
            && !(key in rows && rows[key].status == Sent)
  {
    if symbols != [] {
      UnsentAt(r, rows, targetId, provider, symbols[1..], key);
      assert symbols == [symbols[0]] + symbols[1..];
    }
  }

  /** The row says what became of the message: sent if all accepted it, or why the first to err did not. */
  ghost predicate Says(r: Round, target: Target, message: Message, was: JobRow, row: JobRow) {
    && (AllAccept(r, 0, target, message) ==>
         row == was.(status := Sent, error := "", sentAt := Some(r.env.sentAt(was.id)),
                     updatedAt := r.env.markedAt(was.id)))
    && (forall i: nat :: FirstToErr(r, 0, i, target, message) ==>
         row == was.(status := JobStatus.Failed, error := r.env.sendError(i, target, message).value,
                     updatedAt := r.env.markedAt(was.id)))
  }

  lemma MarkSays(r: Round, target: Target, message: Message, error: Option<string>, was: JobRow, row: JobRow)
    requires FirstErrorCounts(r, 0, target, message, error) && MarkedBy(r, was, error, row)
    requires r.env.markLands(was.id)
    ensures Says(r, target, message, was, row)
  {
    hide Serves;
    forall i: nat | FirstToErr(r, 0, i, target, message) ensures error == r.env.sendError(i, target, message) {
      var j: nat :| FirstToErr(r, 0, j, target, message) && error == r.env.sendError(j, target, message);
    }
  }

  /**
   A job that a message of the round was due about, once its mark lands, is recorded as sent at the time of the
   mark if every notifier of its target accepts the message, and as failed for the reason of the first that
   does not otherwise; when it was sent is then not touched.
   */
  lemma RoundMarksExactly(r: Round, rows: Rows, targets: seq<Target>, et: EligibleTarget, key: JobKey)
    requires WellKeyed(r.env, rows) && DistinctIds(targets) && et in r.Eligible(targets).0
    requires Due(r, rows, et) && key in Owed(r, rows, et)
    ensures var end, was := r.ThreePhases(rows, r.Eligible(targets).0).rows, Unmarked(r, rows, key);
            var message := OwedMessage(r, rows, et);
            && key in end
            && (if r.env.markLands(was.id) then Says(r, et.target, message, was, end[key]) else end[key] == was)
  {
    UnsentAt(r, rows, et.target.id, et.config.provider, et.config.symbols, key);
    RoundLeavesExactly(r, rows, targets, key);
    var end, was := r.ThreePhases(rows, r.Eligible(targets).0).rows, Unmarked(r, rows, key);
    var message := OwedMessage(r, rows, et);
    hide Round.ThreePhases, Round.Eligible, WellKeyed, Due, OwedMessage, Owed, Creates, Unmarked, FirstErrorCounts,
        Says, Unsent;
    assert LeavesAt(r, rows, et, key, end);
    var error :| FirstErrorCounts(r, 0, et.target, message, error) && MarkedBy(r, was, error, end[key]);
    if r.env.markLands(was.id) { MarkSays(r, et.target, message, error, was, end[key]); }
  }

  /** Every other row is as its creation left it, and there is no row but the old ones and those created. */
  lemma RoundTouchesNothingElse(r: Round, rows: Rows, targets: seq<Target>, key: JobKey)
    requires WellKeyed(r.env, rows) && DistinctIds(targets)
    requires forall et :: et in r.Eligible(targets).0 ==> !Covered(r, rows, et, key)
    ensures var ets := r.Eligible(targets).0;
            var end := r.ThreePhases(rows, ets).rows;
            && (key in end ==> end[key] == Unmarked(r, rows, key))
            && (key in end
                <==> key in rows
                     || exists et :: et in ets && Creates(r, et.target.id, et.config.provider, et.config.symbols, key))
  {
    var ets := r.Eligible(targets).0;
    RoundLeavesExactly(r, rows, targets, key);
    hide Round.ThreePhases, Round.Eligible, WellKeyed, Covered, Reached;
    forall et | et in ets && Creates(r, et.target.id, et.config.provider, et.config.symbols, key)
      ensures RowTarget(et.target.id) == key.target
    {
    }
    if !NoneIs(ets, key.target) {
      var et :| et in ets && RowTarget(et.target.id) == key.target;
      assert LeavesAt(r, rows, et, key, r.ThreePhases(rows, ets).rows);
    }
  }
}
