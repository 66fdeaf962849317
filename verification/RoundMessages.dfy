/** The messages of a whole round: who is sent what, by which notifier, and how often. */
module RoundMessages {
  import opened Prelude
  import opened Ordering
  import opened Domain
  import opened Messages
  import opened Jobs
  import opened Rounds
  import opened RoundProofs
  import opened IsolationProofs
  import opened DeliveryProofs
  import opened ClaimProofs
  import opened Expectations

  /** The unsent jobs of a target before the round. */
  function Owed(r: Round, rows: Rows, et: EligibleTarget): seq<JobKey> {
    Unsent(r, rows, et.target.id, et.config.provider, et.config.symbols)
  }

  /** A target is due a message when all of its jobs can be claimed and some were unsent before the round. */
  predicate Due(r: Round, rows: Rows, et: EligibleTarget) {
    AllClaimable(r, et.target.id, et.config.provider, et.config.symbols) && Owed(r, rows, et) != []
  }

  /** The message it is due. */
  function OwedMessage(r: Round, rows: Rows, et: EligibleTarget): Message {
    Telling(r.period, TargetLine(r), Owed(r, rows, et))
  }

  /** d hands the target the message it is due through a notifier that serves its chat or declares none. */
  predicate Announces(r: Round, rows: Rows, et: EligibleTarget, d: Delivery) {
    && Due(r, rows, et)
    && d == Delivery(Some(et.target), d.notifier, OwedMessage(r, rows, et), Owed(r, rows, et))
    && d.notifier < |r.notifiers|
    && (r.notifiers[d.notifier].serves.None? || r.notifiers[d.notifier].serves.value == et.target.chat)
  }

  lemma ClaimsTheOwed(r: Round, rows: Rows, et: EligibleTarget)
    requires WellKeyed(r.env, rows)
    ensures var pending := r.Kept(r.ClaimTarget(rows, et));
            && (pending != [] <==> Due(r, rows, et))
            && (pending != [] ==> Keys(pending) == Owed(r, rows, et) && MessageFor(r.period, r.ResultsFor(pending)).Ok?)
  {
    var claim := r.ClaimTarget(rows, et);
    DroppedExactly(r, rows, et.target.id, et.config.provider, et.config.symbols);
    ClaimsTheUnsent(r, rows, et.target.id, et.config.provider, et.config.symbols);
    ClaimGrows(r, rows, et.target.id, et.config.provider, et.config.symbols);
    ClaimIsHeld(r, rows, et.target.id, et.config.provider, et.config.symbols);
    hide Round.ClaimSymbols, Unsent, MessageFor, Round.ResultsFor, FreshFor, UniqueIds, AllClaimable;
    UnsentIsStable(r, rows, claim.rows, et.target.id, et.config.provider, et.config.symbols);
    if claim.pending != [] { BuildingNeverFails(r, claim.pending); }
  }

  /** What a target is due is what is built from its claim. */
  lemma BuildsTheOwed(r: Round, rows: Rows, et: EligibleTarget)
    requires WellKeyed(r.env, rows) && Due(r, rows, et)
    ensures var pending := r.Kept(r.ClaimTarget(rows, et));
            pending != [] && MessageFor(r.period, r.ResultsFor(pending)) == Ok(OwedMessage(r, rows, et))
  {
    var pending := r.Kept(r.ClaimTarget(rows, et));
    ClaimsTheOwed(r, rows, et);
    ResultsArePaired(r, pending);
    hide MessageFor, Round.ResultsFor, Telling, Round.ClaimTarget, Round.Kept, Due;
    BuiltIsTelling(r.period, TargetLine(r), r.ResultsFor(pending), Keys(pending));
  }

  lemma DeliverSends(r: Round, rows: Rows, target: Target, pending: seq<PendingJob>)
    requires pending != [] && MessageFor(r.period, r.ResultsFor(pending)).Ok?
    ensures r.Deliver(rows, target, pending).deliveries
         == r.SendFrom(0, target, MessageFor(r.period, r.ResultsFor(pending)).value, Keys(pending)).0
  {
    hide MessageFor, Round.ResultsFor, Round.SendFrom, Round.AfterMarks;
  }

  /** The message handed to each notifier that serves the target, from index i on, in their order. */
  function ToServing(r: Round, i: nat, target: Target, message: Message, covers: seq<JobKey>): seq<Delivery>
    requires i <= |r.notifiers|
    decreases |r.notifiers| - i
  {
    if i == |r.notifiers| then []
    else (if Serves(r, i, target) then [Delivery(Some(target), i, message, covers)] else [])
         + ToServing(r, i + 1, target, message, covers)
  }

  lemma {:induction false} SendsToServing(r: Round, i: nat, target: Target, message: Message, covers: seq<JobKey>)
    requires i <= |r.notifiers|
    ensures r.SendFrom(i, target, message, covers).0 == ToServing(r, i, target, message, covers)
    decreases |r.notifiers| - i
  {
    if i < |r.notifiers| { SendsToServing(r, i + 1, target, message, covers); }
  }

  /** What a target is sent: nothing, or else its message by each notifier that serves it. */
  function Announcements(r: Round, rows: Rows, et: EligibleTarget): seq<Delivery> {
    if !Due(r, rows, et) then [] else ToServing(r, 0, et.target, OwedMessage(r, rows, et), Owed(r, rows, et))
  }

  lemma AnnouncedExactly(r: Round, rows: Rows, et: EligibleTarget)
    ensures forall d :: d in Announcements(r, rows, et) <==> Announces(r, rows, et, d)
    ensures NoDup(Announcements(r, rows, et))
  {
    if Due(r, rows, et) {
      var message, jobs := OwedMessage(r, rows, et), Owed(r, rows, et);
      SendsToServing(r, 0, et.target, message, jobs);
      SendsToEach(r, 0, et.target, message, jobs);
    }
    hide Due, OwedMessage, Owed, Round.SendFrom, ToServing;
  }

  /** One target's own part: exactly the announced messages, each once, in the order of the notifiers. */
  lemma PartAnnounces(r: Round, rows: Rows, et: EligibleTarget)
    requires WellKeyed(r.env, rows)
    ensures Part(r, rows, et).deliveries == Announcements(r, rows, et)
    ensures forall d :: d in Part(r, rows, et).deliveries <==> Announces(r, rows, et, d)
    ensures NoDup(Part(r, rows, et).deliveries)
  {
    var claim := r.ClaimTarget(rows, et);
    ClaimsTheOwed(r, rows, et);
    AnnouncedExactly(r, rows, et);
    hide Round.ClaimTarget, Due, OwedMessage, MessageFor, Round.ResultsFor, WellKeyed, ToServing, Announces;
    if Due(r, rows, et) {
      BuildsTheOwed(r, rows, et);
      DeliverSends(r, claim.rows, et.target, r.Kept(claim));
      SendsToServing(r, 0, et.target, OwedMessage(r, rows, et), Owed(r, rows, et));
    }
  }

  lemma PartAlone(r: Round, rows: Rows, first: EligibleTarget, et: EligibleTarget)
    requires WellKeyed(r.env, rows) && RowTarget(et.target.id) != RowTarget(first.target.id)
    ensures Part(r, Part(r, rows, first).rows, et).deliveries == Part(r, rows, et).deliveries
  {
    hide Part, WellKeyed;
    OwnPartStaysOwn(r, rows, first);
    PartKeepsIds(r, rows, first);
    PartAgrees(r, r, rows, Part(r, rows, first).rows, et, RowTarget(first.target.id));
  }

  /** What each target's part would send if it were alone, one target after the other. */
  function AllParts(r: Round, rows: Rows, ets: seq<EligibleTarget>): seq<Delivery> {
    if ets == [] then [] else Part(r, rows, ets[0]).deliveries + AllParts(r, rows, ets[1..])
  }

  lemma {:induction false} SameParts(r: Round, rows: Rows, other: Rows, ets: seq<EligibleTarget>)
    requires forall et :: et in ets ==> Part(r, rows, et).deliveries == Part(r, other, et).deliveries
    ensures AllParts(r, rows, ets) == AllParts(r, other, ets)
  {
    hide Part;
    if ets != [] { SameParts(r, rows, other, ets[1..]); }
  }

  lemma {:induction false} InAPart(r: Round, rows: Rows, ets: seq<EligibleTarget>, d: Delivery)
    ensures d in AllParts(r, rows, ets) <==> exists et :: et in ets && d in Part(r, rows, et).deliveries
  {
    hide Part;
    if ets != [] {
      InAPart(r, rows, ets[1..], d);
      assert ets == [ets[0]] + ets[1..];
    }
  }

  /** The naive loop sends what each target's part alone would send, in the order of the targets. */
  lemma {:induction false} NaiveSendsParts(r: Round, rows: Rows, ets: seq<EligibleTarget>)
    requires WellKeyed(r.env, rows) && DistinctTargets(ets)
    ensures r.NaiveRound(rows, ets).deliveries == AllParts(r, rows, ets)
    decreases |ets|
  {
    if ets != [] {
      var own := Part(r, rows, ets[0]);
      assert r.NaiveRound(rows, ets).deliveries == own.deliveries + r.NaiveRound(own.rows, ets[1..]).deliveries;
      PartKeepsIds(r, rows, ets[0]);
      NaiveSendsParts(r, own.rows, ets[1..]);
      hide Part, Round.NaiveRound, WellKeyed;
      forall et | et in ets[1..] ensures Part(r, own.rows, et).deliveries == Part(r, rows, et).deliveries {
        PartAlone(r, rows, ets[0], et);
      }
      SameParts(r, own.rows, rows, ets[1..]);
    }
  }

  /** Parts of distinct targets share no message, and none is sent twice. */
  lemma {:induction false} PartsSendOnce(r: Round, rows: Rows, ets: seq<EligibleTarget>)
    requires WellKeyed(r.env, rows) && DistinctTargets(ets)
    ensures NoDup(AllParts(r, rows, ets))
  {
    if ets != [] {
      PartsSendOnce(r, rows, ets[1..]);
      PartAnnounces(r, rows, ets[0]);
      hide Part, WellKeyed;
      forall d | d in AllParts(r, rows, ets[1..]) ensures d.target != Some(ets[0].target) {
        InAPart(r, rows, ets[1..], d);
        var et :| et in ets[1..] && d in Part(r, rows, et).deliveries;
        PartAnnounces(r, rows, et);
      }
      NoDupConcat(Part(r, rows, ets[0]).deliveries, AllParts(r, rows, ets[1..]));
    }
  }

  /** The announcements of all targets, in their order. */
  function AllAnnouncements(r: Round, rows: Rows, ets: seq<EligibleTarget>): seq<Delivery> {
    if ets == [] then [] else Announcements(r, rows, ets[0]) + AllAnnouncements(r, rows, ets[1..])
  }

  lemma {:induction false} PartsAreAnnouncements(r: Round, rows: Rows, ets: seq<EligibleTarget>)
    requires WellKeyed(r.env, rows)
    ensures AllParts(r, rows, ets) == AllAnnouncements(r, rows, ets)
  {
    if ets != [] {
      PartAnnounces(r, rows, ets[0]);
      PartsAreAnnouncements(r, rows, ets[1..]);
    }
  }

  /**
   The messages of a round, exactly and in order: target after target, every eligible one that is not dropped
   and was owed jobs gets one message covering and reporting exactly these, once from each notifier that serves
   its chat or declares none, notifier after notifier; and nothing else is sent.
   */
  lemma RoundSendsExactly(r: Round, rows: Rows, targets: seq<Target>)
    requires WellKeyed(r.env, rows) && DistinctIds(targets)
    ensures var ets := r.Eligible(targets).0;
            var sent := r.ThreePhases(rows, ets).deliveries;
            && sent == AllAnnouncements(r, rows, ets) && NoDup(sent)
            && forall d :: d in sent <==> exists et :: et in ets && Announces(r, rows, et, d)
  {
    var ets := r.Eligible(targets).0;
    EligibleAreDistinct(r, targets);
    SharedFetchRefinesNaive(r, rows, ets);
    NaiveSendsParts(r, rows, ets);
    PartsSendOnce(r, rows, ets);
    PartsAreAnnouncements(r, rows, ets);
    hide Part, Round.NaiveRound, Round.ThreePhases, Round.Eligible, WellKeyed, Announces, AllAnnouncements;
    forall et | et in ets ensures forall d :: d in Part(r, rows, et).deliveries <==> Announces(r, rows, et, d) {
      PartAnnounces(r, rows, et);
    }
    forall d ensures d in AllParts(r, rows, ets) <==> exists et :: et in ets && d in Part(r, rows, et).deliveries {
      InAPart(r, rows, ets, d);
    }
  }

  lemma AnnouncesOwn(r: Round, rows: Rows, et: EligibleTarget, i: nat)
    requires Due(r, rows, et) && i < |r.notifiers|
    ensures Announces(r, rows, et, Delivery(Some(et.target), i, OwedMessage(r, rows, et), Owed(r, rows, et)))
       <==> r.notifiers[i].serves.None? || r.notifiers[i].serves.value == et.target.chat
  {
  }

  lemma AnnouncesOne(r: Round, rows: Rows, et: EligibleTarget, d: Delivery)
    requires Announces(r, rows, et, d)
    ensures d == Delivery(Some(et.target), d.notifier, OwedMessage(r, rows, et), Owed(r, rows, et))
  {
  }

  /** A target's messages are announced to it, and not to another listed target. */
  lemma AnnouncedToItsOwn(r: Round, rows: Rows, ets: seq<EligibleTarget>, et: EligibleTarget, d: Delivery)
    requires DistinctTargets(ets) && et in ets && d.target == Some(et.target)
    ensures (exists other :: other in ets && Announces(r, rows, other, d)) <==> Announces(r, rows, et, d)
  {
    hide Due, OwedMessage, Owed;
    forall other | other in ets && Announces(r, rows, other, d) ensures other == et {
      assert other.target == et.target;
    }
  }

  /**
   So every eligible target that is due a message is handed it by every notifier that declares no provider or
   the target's, exactly once, and by no other; and it is handed nothing else.
   */
  lemma HandedExactlyOnce(r: Round, rows: Rows, targets: seq<Target>, et: EligibleTarget, i: nat)
    requires WellKeyed(r.env, rows) && DistinctIds(targets) && et in r.Eligible(targets).0
    requires Due(r, rows, et) && i < |r.notifiers|
    ensures var sent := r.ThreePhases(rows, r.Eligible(targets).0).deliveries;
            var own := Delivery(Some(et.target), i, OwedMessage(r, rows, et), Owed(r, rows, et));
            && (multiset(sent)[own]
                == if r.notifiers[i].serves.None? || r.notifiers[i].serves.value == et.target.chat then 1 else 0)
            && forall d :: d in sent && d.target == Some(et.target) && d.notifier == i ==> d == own
  {
    var ets := r.Eligible(targets).0;
    var sent := r.ThreePhases(rows, ets).deliveries;
    var own := Delivery(Some(et.target), i, OwedMessage(r, rows, et), Owed(r, rows, et));
    RoundSendsExactly(r, rows, targets);
    EligibleAreDistinct(r, targets);
    hide Round.ThreePhases, Round.Eligible, OwedMessage, Owed, Due, WellKeyed, Announces, DistinctTargets, NoDup;
    CountsOnce(sent, own);
    AnnouncedToItsOwn(r, rows, ets, et, own);
    AnnouncesOwn(r, rows, et, i);
    forall d | d in sent && d.target == Some(et.target) && d.notifier == i ensures d == own {
      AnnouncedToItsOwn(r, rows, ets, et, d);
      AnnouncesOne(r, rows, et, d);
    }
  }

  /** The message tells about these jobs, on a line each, what each one's provider answered about its symbol. */
  predicate Tells(r: Round, message: Message, order: seq<JobKey>) {
    && message.period == r.period && |message.lines| == 1 + |order|
    && message.lines[0] == PeriodLine(r.period.start, r.period.end)
    && forall i :: 0 <= i < |order| ==>
         var answer := r.env.kline(order[i].provider, order[i].symbol);
         message.lines[i + 1]
         == if r.resolver.Get(order[i].provider) && Priced(answer, r.period) then Quote(answer.value)
            else UnavailableLine(order[i].symbol)
  }

  predicate InSymbolOrder(jobs: seq<JobKey>) {
    forall i, j :: 0 <= i < j < |jobs| ==> !Before(jobs[j].symbol, jobs[i].symbol)
  }

  lemma TellingTells(r: Round, jobs: seq<JobKey>) returns (order: seq<JobKey>)
    ensures multiset(order) == multiset(jobs) && Tells(r, Telling(r.period, TargetLine(r), jobs), order)
    ensures Honest(r) ==> InSymbolOrder(order)
  {
    order := TellingIsComplete(r.period, TargetLine(r), jobs);
    hide Telling, Before;
    forall i | 0 <= i < |order| && Honest(r) ensures NamedBy(TargetLine(r)(order[i])) == order[i].symbol { }
  }

  /**
   Every message of a round tells its target exactly what it was owed, and goes to the target's own chat. With
   markets that answer with the symbol they were asked for, its lines are in the order of the jobs' symbols.
   */
  lemma MessageReportsTheUnsent(r: Round, rows: Rows, targets: seq<Target>, d: Delivery)
    returns (et: EligibleTarget, order: seq<JobKey>)
    requires WellKeyed(r.env, rows) && DistinctIds(targets)
    requires d in r.ThreePhases(rows, r.Eligible(targets).0).deliveries
    ensures et in r.Eligible(targets).0 && d.target == Some(et.target) && d.covers == Owed(r, rows, et)
    ensures d.notifier < |r.notifiers|
    ensures r.notifiers[d.notifier].serves.None? || r.notifiers[d.notifier].serves.value == et.target.chat
    ensures multiset(order) == multiset(d.covers) && Tells(r, d.message, order)
    ensures Honest(r) ==> InSymbolOrder(order)
  {
    RoundSendsExactly(r, rows, targets);
    et :| et in r.Eligible(targets).0 && Announces(r, rows, et, d);
    hide Round.ThreePhases, Round.Eligible, Owed, WellKeyed, Tells, Telling, Honest, InSymbolOrder, TargetLine;
    order := TellingTells(r, d.covers);
  }
}
