/** The messages, rows and errors of the legacy round of internal/scheduler/executor.go. */
module LegacyEffects {
  import opened Prelude
  import opened Domain
  import opened Messages
  import opened Jobs
  import opened Rounds
  import opened RoundProofs
  import opened SentProofs
  import opened DeliveryProofs
  import opened ClaimProofs
  import opened Expectations
  import opened RoundEffects

  /** The unsent jobs of the symbols, before the round. */
  function LegacyOwed(r: Round, rows: Rows, symbols: seq<Symbol>): seq<JobKey> {
    Unsent(r, rows, "", BINANCE, symbols)
  }

  /** Every job can be created, and some were unsent before the round. */
  predicate LegacyDue(r: Round, rows: Rows, symbols: seq<Symbol>) {
    AllClaimable(Unchecked(r), "", BINANCE, symbols) && LegacyOwed(r, rows, symbols) != []
  }

  function LegacyMessage(r: Round, rows: Rows, symbols: seq<Symbol>): Message {
    Telling(r.period, LegacyLine(r), LegacyOwed(r, rows, symbols))
  }

  lemma {:induction false} SameUnsent(
    r: Round, rows: Rows, targetId: string, provider: MarketProvider, symbols: seq<Symbol>)
    ensures Unsent(Unchecked(r), rows, targetId, provider, symbols) == Unsent(r, rows, targetId, provider, symbols)
  {
    if symbols != [] { SameUnsent(r, rows, targetId, provider, symbols[1..]); }
  }

  /** A valid job of the round's period. */
  predicate Buildable(r: Round, key: JobKey) {
    ValidJob(key, r.NewRow(key)) && key.interval == r.period.interval && key.periodStart == r.period.start
  }

  lemma LegacyClaimsTheOwed(r: Round, rows: Rows, symbols: seq<Symbol>)
    requires WellKeyed(r.env, rows)
    ensures var claim := r.LegacyClaims(rows, symbols);
            && (!claim.dropped <==> AllClaimable(Unchecked(r), "", BINANCE, symbols))
            && (!claim.dropped ==> Keys(claim.pending) == LegacyOwed(r, rows, symbols))
            && WellKeyed(r.env, claim.rows) && Held(claim.rows, claim.pending, RowTarget(""))
            && (forall p :: p in claim.pending ==> Buildable(r, p.key))
  {
    var all, claim := Unchecked(r), r.LegacyClaims(rows, symbols);
    DroppedExactly(all, rows, "", BINANCE, symbols);
    ClaimsTheUnsent(all, rows, "", BINANCE, symbols);
    ClaimGrows(all, rows, "", BINANCE, symbols);
    ClaimIsHeld(all, rows, "", BINANCE, symbols);
    hide Round.ClaimSymbols, Unsent, AllClaimable;
    UnsentIsStable(all, rows, claim.rows, "", BINANCE, symbols);
    SameUnsent(r, rows, "", BINANCE, symbols);
  }

  lemma LegacyBuildingNeverFails(r: Round, pending: seq<PendingJob>)
    requires pending != [] && forall p :: p in pending ==> Buildable(r, p.key)
    ensures MessageFor(r.period, r.LegacyResults(pending)).Ok?
  {
    assert pending[0] in pending;
    assert r.period.Valid();
    forall i | 0 <= i < |pending| ensures r.LegacyResults(pending)[i].Symbol() != "" {
      assert pending[i] in pending;
    }
  }

  lemma LegacyBuilds(r: Round, rows: Rows, symbols: seq<Symbol>)
    requires WellKeyed(r.env, rows) && LegacyDue(r, rows, symbols)
    ensures var pending := r.LegacyClaims(rows, symbols).pending;
            pending != [] && MessageFor(r.period, r.LegacyResults(pending)) == Ok(LegacyMessage(r, rows, symbols))
  {
    var pending := r.LegacyClaims(rows, symbols).pending;
    LegacyClaimsTheOwed(r, rows, symbols);
    LegacyResultsArePaired(r, pending);
    hide Round.LegacyClaims, Round.LegacyResults, LegacyOwed, AllClaimable, MessageFor, Telling, Buildable, WellKeyed;
    LegacyBuildingNeverFails(r, pending);
    BuiltIsTelling(r.period, LegacyLine(r), r.LegacyResults(pending), Keys(pending));
  }

  /** The legacy round as a claim, a broadcast and marks. */
  lemma LegacyUnfolds(r: Round, rows: Rows, symbols: seq<Symbol>)
    requires WellKeyed(r.env, rows)
    ensures var claim, e := r.LegacyClaims(rows, symbols), r.LegacyRound(rows, symbols);
            var message, jobs := LegacyMessage(r, rows, symbols), LegacyOwed(r, rows, symbols);
            if LegacyDue(r, rows, symbols) then
              var (sent, error) := r.BroadcastTo(|r.notifiers|, message, jobs);
              e == Effects(r.AfterMarks(claim.rows, Ids(claim.pending), error), sent,
                           if error.Some? then [SendFailed(error.value)] else [])
            else e == Effects(claim.rows, [], claim.errors)
  {
    LegacyClaimsTheOwed(r, rows, symbols);
    hide Round.LegacyClaims, Round.LegacyResults, LegacyOwed, AllClaimable, MessageFor, Telling, Buildable, WellKeyed,
        Round.BroadcastTo, Round.AfterMarks;
    if LegacyDue(r, rows, symbols) { LegacyBuilds(r, rows, symbols); }
  }

  /**
   The legacy round sends nothing unless every job could be created and some were unsent; then every notifier,
   whatever provider it declares, is handed the one message about them, once and in order. It reports its first
   job that cannot be created, or the error of the last notifier to err.
   */
  lemma LegacySendsExactly(r: Round, rows: Rows, symbols: seq<Symbol>)
    requires WellKeyed(r.env, rows)
    ensures var e := r.LegacyRound(rows, symbols);
            var message, jobs := LegacyMessage(r, rows, symbols), LegacyOwed(r, rows, symbols);
            if LegacyDue(r, rows, symbols) then
              && |e.deliveries| == |r.notifiers|
              && (forall i :: 0 <= i < |r.notifiers| ==> e.deliveries[i] == Delivery(None, i, message, jobs))
              && (NoneErrs(r, |r.notifiers|, message) ==> e.errors == [])
              && (forall i: nat :: LastToErr(r, |r.notifiers|, i, message) ==>
                   e.errors == [SendFailed(r.env.broadcastError(i, message).value)])
            else
              && e.deliveries == []
              && (if AllClaimable(Unchecked(r), "", BINANCE, symbols) then e.errors == []
                  else StopsAtFirst(Unchecked(r), "", BINANCE, symbols, e.errors))
  {
    var n, message, jobs := |r.notifiers|, LegacyMessage(r, rows, symbols), LegacyOwed(r, rows, symbols);
    LegacyUnfolds(r, rows, symbols);
    DroppedExactly(Unchecked(r), rows, "", BINANCE, symbols);
    BroadcastsToAll(r, n, message, jobs);
    hide Round.LegacyRound, Round.ClaimSymbols, LegacyMessage, LegacyOwed, AllClaimable, Round.BroadcastTo,
        Round.AfterMarks, StopsAtFirst, WellKeyed;
    LastIsOne(r, n, message, r.BroadcastTo(n, message, jobs).1);
  }

  /** There is only one last notifier to err. */
  lemma LastIsOne(r: Round, n: nat, message: Message, error: Option<string>)
    requires LastErrorCounts(r, n, message, error)
    ensures forall i: nat :: LastToErr(r, n, i, message) ==> error == r.env.broadcastError(i, message)
  {
    forall i: nat | LastToErr(r, n, i, message) ensures error == r.env.broadcastError(i, message) {
      var j: nat :| LastToErr(r, n, j, message) && error == r.env.broadcastError(j, message);
    }
  }

  /** The row says what became of the legacy message: sent, or why the last notifier to err refused it. */
  ghost predicate LegacySays(r: Round, message: Message, was: JobRow, row: JobRow) {
    && (NoneErrs(r, |r.notifiers|, message) ==>
         row == was.(status := Sent, error := "", sentAt := Some(r.env.sentAt(was.id)),
                     updatedAt := r.env.markedAt(was.id)))
    && (forall i: nat :: LastToErr(r, |r.notifiers|, i, message) ==>
         row == was.(status := JobStatus.Failed, error := r.env.broadcastError(i, message).value,
                     updatedAt := r.env.markedAt(was.id)))
  }

  /**
   Row by row, what the legacy round leaves: the old rows and those its claim reached, marked by the outcome of
   the message where it covered them and the mark landed, and as they were created or found otherwise.
   */
  lemma LegacyLeavesExactly(r: Round, rows: Rows, symbols: seq<Symbol>, key: JobKey)
    requires WellKeyed(r.env, rows)
    ensures var end, was := r.LegacyRound(rows, symbols).rows, Unmarked(r, rows, key);
            var covered := LegacyDue(r, rows, symbols) && key in LegacyOwed(r, rows, symbols);
            && (key in end <==> key in rows || Creates(Unchecked(r), "", BINANCE, symbols, key))
            && (covered ==> key in end)
            && (key in end ==> if covered && r.env.markLands(was.id)
                               then LegacySays(r, LegacyMessage(r, rows, symbols), was, end[key]) else end[key] == was)
  {
    LegacyUnfolds(r, rows, symbols);
    CreatedExactly(Unchecked(r), rows, "", BINANCE, symbols, key);
    assert Unmarked(Unchecked(r), rows, key) == Unmarked(r, rows, key);
    if LegacyDue(r, rows, symbols) { LegacyRowsAreMarked(r, rows, symbols, key); }
    hide Round.LegacyRound, Round.ClaimSymbols, LegacyMessage, LegacyOwed, LegacyDue, Round.BroadcastTo,
        Round.AfterMarks, LegacySays, WellKeyed, Unmarked, Creates;
  }

  lemma LegacyRowsAreMarked(r: Round, rows: Rows, symbols: seq<Symbol>, key: JobKey)
    requires WellKeyed(r.env, rows) && LegacyDue(r, rows, symbols)
    ensures var before, after := r.LegacyClaims(rows, symbols).rows, r.LegacyRound(rows, symbols).rows;
            && (key in after <==> key in before)
            && (key in LegacyOwed(r, rows, symbols) ==> key in before)
            && (key in before ==>
                  if key in LegacyOwed(r, rows, symbols) && r.env.markLands(before[key].id)
                  then LegacySays(r, LegacyMessage(r, rows, symbols), before[key], after[key])
                  else after[key] == before[key])
  {
    var n, message, jobs := |r.notifiers|, LegacyMessage(r, rows, symbols), LegacyOwed(r, rows, symbols);
    var claim := r.LegacyClaims(rows, symbols);
    LegacyUnfolds(r, rows, symbols);
    LegacyClaimsTheOwed(r, rows, symbols);
    BroadcastsToAll(r, n, message, jobs);
    var error := r.BroadcastTo(n, message, jobs).1;
    hide Round.LegacyRound, Round.LegacyClaims, LegacyMessage, LegacyOwed, Round.BroadcastTo, Round.AfterMarks,
        WellKeyed, AllClaimable, Buildable, NoneErrs, LastToErr;
    KeysAreUnsent(claim.rows, claim.pending, RowTarget(""));
    KeysStay(r, claim.rows, Ids(claim.pending), error);
    LastIsOne(r, n, message, error);
    if key in claim.rows { MarksEach(r, claim.rows, claim.pending, RowTarget(""), error, key); }
  }
}
