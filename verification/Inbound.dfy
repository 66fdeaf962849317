/**
 Webhook deliveries over the inbound event table: internal/chat/slack/webhook.go and
 internal/chat/telegram/webhook.go on internal/repository/postgres.go. Every statement is a step, any
 number of deliveries of any events interleave, and each can stop for good at any point.
 */
module Inbound {
  import opened Prelude
  import opened Domain

  /** The unique index of inbound_events. */
  datatype Identity = Identity(provider: ChatProvider, externalId: string)

  datatype Status = Received | Processed(at: Nanos) | Failed(reason: string)

  type Events = map<Identity, Status>

  /** ClaimInboundEvent: INSERT ... ON CONFLICT DO NOTHING. An event without an id is refused. */
  function AfterClaim(events: Events, event: Identity, fault: Fault): Events {
    if event.externalId == "" || fault == BeforeCommit || event in events then events else events[event := Received]
  }

  predicate Claimed(events: Events, event: Identity, fault: Fault) {
    event.externalId != "" && fault == NoFault && event !in events
  }

  /** updateInboundEvent sets the status whatever it was, where the event exists. */
  function AfterMark(events: Events, event: Identity, status: Status): Events {
    if event in events then events[event := status] else events
  }

  class EventTable {
    var events: Events

    constructor ()
      ensures events == map[]
    {
      events := map[];
    }

    /** Returns whether this call inserted the row; an error reads as not claimed. */
    method ClaimInboundEvent(event: Identity, fault: Fault) returns (claimed: bool)
      modifies this
      ensures events == AfterClaim(old(events), event, fault)
      ensures claimed == Claimed(old(events), event, fault)
      ensures claimed <==> event.externalId != "" && event !in old(events) && fault == NoFault
      ensures event in events <==> event in old(events) || (event.externalId != "" && fault != BeforeCommit)
      ensures event in events && event !in old(events) ==> events == old(events)[event := Received]
      ensures event !in events || event in old(events) ==> events == old(events)
    {
      if event.externalId == "" || fault == BeforeCommit {
        return false;
      }
      var rowsAffected := 0;
      if event !in events {
        events := events[event := Received];
        rowsAffected := 1;
      }
      return fault == NoFault && rowsAffected == 1;
    }

    method UpdateInboundEvent(event: Identity, status: Status) returns (found: bool)
      modifies this
      ensures events == AfterMark(old(events), event, status)
      ensures events.Keys == old(events).Keys && (event in events ==> events[event] == status)
      ensures forall other :: other in events && other != event ==> events[other] == old(events)[other]
      ensures found == (event in old(events))
    {
      found := event in events;
      if found {
        events := events[event := status];
      }
    }
  }

  /** A delivery in progress. */
  datatype Delivery = Claiming(event: Identity) | Processing(event: Identity) | Marking(event: Identity,
      outcome: Status)

  /** starts logs each call of the processing function. */
  datatype State = State(events: Events, deliveries: map<nat, Delivery>, starts: seq<Identity>)

  datatype Step =
    | Deliver(id: nat, event: Identity)
    | Claim(id: nat, fault: Fault)
    | Finish(id: nat, outcome: Status)
    | Mark(id: nat, lands: bool)
    | Stop(id: nat)

  const EMPTY := State(map[], map[], [])

  predicate Enabled(s: State, step: Step) {
    match step
    case Deliver(id, _) => id !in s.deliveries
    case Claim(id, _) => id in s.deliveries && s.deliveries[id].Claiming?
    case Finish(id, outcome) => id in s.deliveries && s.deliveries[id].Processing? && outcome != Received
    case Mark(id, _) => id in s.deliveries && s.deliveries[id].Marking?
    case Stop(id) => id in s.deliveries
  }

  function Next(s: State, step: Step): State
    requires Enabled(s, step)
  {
    match step
    case Deliver(id, event) => s.(deliveries := s.deliveries[id := Claiming(event)])
    case Claim(id, fault) =>
      var event := s.deliveries[id].event;
      var after := s.(events := AfterClaim(s.events, event, fault));
      if Claimed(s.events, event, fault)
      then after.(deliveries := s.deliveries[id := Processing(event)], starts := s.starts + [event])
      else after.(deliveries := s.deliveries - {id})
    case Finish(id, outcome) => s.(deliveries := s.deliveries[id := Marking(s.deliveries[id].event, outcome)])
    case Mark(id, lands) =>
      var d := s.deliveries[id];
      State(if lands then AfterMark(s.events, d.event, d.outcome) else s.events, s.deliveries - {id}, s.starts)
    case Stop(id) => s.(deliveries := s.deliveries - {id})
  }

  predicate Feasible(s: State, steps: seq<Step>)
    decreases |steps|
  {
    steps == [] || (Enabled(s, steps[0]) && Feasible(Next(s, steps[0]), steps[1..]))
  }

  function After(s: State, steps: seq<Step>): State
    requires Feasible(s, steps)
    decreases |steps|
  {
    if steps == [] then s else After(Next(s, steps[0]), steps[1..])
  }

  predicate Holds(s: State, id: nat) {
    id in s.deliveries && !s.deliveries[id].Claiming?
  }

  /** A delivery past its claim is alone with an event that is still as received. */
  ghost predicate Inv(s: State) {
    && NoDup(s.starts)
    && (forall event :: event in s.starts ==> event in s.events)
    && (forall event :: event in s.events && event !in s.starts ==> s.events[event] == Received)
    && (forall id :: Holds(s, id) ==>
         s.deliveries[id].event in s.starts && s.events[s.deliveries[id].event] == Received)
    && (forall a, b :: Holds(s, a) && Holds(s, b) && s.deliveries[a].event == s.deliveries[b].event ==> a == b)
    && (forall id :: id in s.deliveries && s.deliveries[id].Marking? ==> s.deliveries[id].outcome != Received)
  }

  /** Events are never removed, and only an event still as received changes its status, to a final one. */
  ghost predicate Settles(before: Events, after: Events) {
    forall event :: event in before ==> event in after && (before[event] != Received ==> after[event] == before[event])
  }

  lemma NextKeeps(s: State, step: Step)
    requires Inv(s) && Enabled(s, step)
    ensures Inv(Next(s, step)) && Settles(s.events, Next(s, step).events) && s.starts <= Next(s, step).starts
  {
    var n := Next(s, step);
    if step.Claim? && Claimed(s.events, s.deliveries[step.id].event, step.fault) {
      assert s.deliveries[step.id].event !in s.starts;
    }
    assert forall id :: Holds(n, id) ==> Holds(s, id) || (step.Claim? && id == step.id);
  }

  lemma {:induction false} RunKeeps(s: State, steps: seq<Step>)
    requires Inv(s) && Feasible(s, steps)
    ensures var n := After(s, steps); Inv(n) && Settles(s.events, n.events) && s.starts <= n.starts
    decreases |steps|
  {
    if steps != [] {
      NextKeeps(s, steps[0]);
      RunKeeps(Next(s, steps[0]), steps[1..]);
    }
  }

  /** However often and however concurrently an event is delivered, its processing starts at most once. */
  lemma ProcessingStartsAtMostOnce(steps: seq<Step>)
    requires Feasible(EMPTY, steps)
    ensures NoDup(After(EMPTY, steps).starts)
    ensures forall event :: event in After(EMPTY, steps).starts ==> event in After(EMPTY, steps).events
  {
    RunKeeps(EMPTY, steps);
  }

  /**
   The first delivery of an event with an id, undisturbed, starts its processing and records the outcome; a
   later delivery changes nothing. If the answer of the claim is lost, the event stays received, unprocessed.
   */
  lemma DeliveriesHandled(s: State, id: nat, event: Identity, outcome: Status)
    requires id !in s.deliveries && outcome != Received && event.externalId != ""
    ensures event !in s.events ==>
              var steps := [Deliver(id, event), Claim(id, NoFault), Finish(id, outcome), Mark(id, true)];
              && Feasible(s, steps)
              && After(s, steps) == State(s.events[event := outcome], s.deliveries, s.starts + [event])
    ensures event in s.events ==>
              forall fault :: var steps := [Deliver(id, event), Claim(id, fault)];
                Feasible(s, steps) && After(s, steps) == s
    ensures event !in s.events ==>
              var steps := [Deliver(id, event), Claim(id, AfterCommit)];
              Feasible(s, steps) && After(s, steps) == s.(events := s.events[event := Received])
  {
    var d := Next(s, Deliver(id, event));
    assert d.deliveries - {id} == s.deliveries;
    forall fault ensures Feasible(s, [Deliver(id, event), Claim(id, fault)])
      && After(s, [Deliver(id, event), Claim(id, fault)]) == Next(d, Claim(id, fault))
    {
      TwoSteps(s, Deliver(id, event), Claim(id, fault));
    }
    if event !in s.events {
      var c := Next(d, Claim(id, NoFault));
      var f := Next(c, Finish(id, outcome));
      assert f.deliveries - {id} == s.deliveries;
      TwoSteps(c, Finish(id, outcome), Mark(id, true));
      FourSteps(s, Deliver(id, event), Claim(id, NoFault), Finish(id, outcome), Mark(id, true));
    }
  }

  lemma TwoSteps(s: State, a: Step, b: Step)
    requires Enabled(s, a) && Enabled(Next(s, a), b)
    ensures Feasible(s, [a, b]) && After(s, [a, b]) == Next(Next(s, a), b)
  {
    var steps := [a, b];
    assert steps[1..] == [b] && steps[1..][1..] == [];
    assert After(Next(s, a), steps[1..]) == Next(Next(s, a), b);
  }

  lemma FourSteps(s: State, a: Step, b: Step, c: Step, d: Step)
    requires Enabled(s, a) && Enabled(Next(s, a), b)
    requires Feasible(Next(Next(s, a), b), [c, d])
    ensures Feasible(s, [a, b, c, d]) && After(s, [a, b, c, d]) == After(Next(Next(s, a), b), [c, d])
  {
    var steps := [a, b, c, d];
    assert steps[1..] == [b, c, d] && steps[1..][1..] == [c, d];
    assert Feasible(Next(s, a), steps[1..]);
  }

  /** A status moves at most once, from received to processed or failed, and stays there for good. */
  lemma StatusesSettle(steps: seq<Step>, more: seq<Step>)
    requires Feasible(EMPTY, steps) && Feasible(After(EMPTY, steps), more)
    ensures Settles(After(EMPTY, steps).events, After(After(EMPTY, steps), more).events)
    ensures var s := After(EMPTY, steps);
            forall event :: event in s.events && s.events[event] != Received ==> event in s.starts
  {
    RunKeeps(EMPTY, steps);
    RunKeeps(After(EMPTY, steps), more);
  }
}
