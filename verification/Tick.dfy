/** One tick of one user: read the policy, evaluate it, and record what was decided and why. */
module Tick {
  import opened Text
  import opened PolicySchema
  import opened PolicyStore
  import opened Evaluator
  import opened AuditStore

  function PutAll(positions: map<Address, Position>, puts: seq<(Address, Position)>): map<Address, Position>
    decreases |puts|
  {
    if puts == [] then positions else PutAll(positions[puts[0].0 := puts[0].1], puts[1..])
  }

  class InMemoryPositionStore {
    var inner: map<Address, Position>

    constructor ()
      ensures inner == map[]
    {
      inner := map[];
    }

    method Get(user: Address) returns (r: Option<Position>)
      ensures r == if user in inner then Some(inner[user]) else None
    {
      if user in inner {
        return Some(inner[user]);
      }
      return None;
    }

    method Put(user: Address, position: Position)
      modifies this
      ensures inner == old(inner)[user := position]
    {
      inner := inner[user := position];
    }

    /** Puts of other tasks, one after another. */
    method Interfere(puts: seq<(Address, Position)>)
      modifies this
      ensures inner == PutAll(old(inner), puts)
    {
      var i := 0;
      assert puts[0..] == puts;
      while i < |puts|
        invariant 0 <= i <= |puts|
        invariant PutAll(inner, puts[i..]) == PutAll(old(inner), puts)
      {
        assert puts[i..][0] == puts[i] && puts[i..][1..] == puts[i + 1..];
        Put(puts[i].0, puts[i].1);
        i := i + 1;
      }
    }
  }

  datatype SkipReason = NoPolicyStored | PolicyIsPaused | NoSnapshot

  datatype TickOutcome = TickOutcome(
    triggerEventId: nat,
    skipped: Option<SkipReason>,
    decision: Option<Decision>,
    decisionEventId: Option<nat>)

  const MILLISECOND := 1_000_000

  /** How a hash map with these holdings may yield its keys. */
  type MapOrder = Holdings -> seq<VenueRef>

  ghost predicate IsMapOrder(orders: MapOrder) {
    forall h: Holdings :: IsOrder(orders(h), h)
  }

  /** Why a tick does not evaluate. */
  function SkipOf(policy: Option<Policy>, snapshot: Option<Snapshot>): Option<SkipReason> {
    if policy.None? then Some(NoPolicyStored)
    else if policy.value.status.Paused? then Some(PolicyIsPaused)
    else if snapshot.None? then Some(NoSnapshot)
    else None
  }

  function ReadPolicy(m: Policies, user: Address): Option<Policy> {
    if user in m then Some(m[user]) else None
  }

  function PositionOf(positions: map<Address, Position>, user: Address): Position {
    if user in positions then positions[user] else Position(map[], map[], 0)
  }

  /** What a tick makes of the policy it reads. */
  ghost function OutcomeOf(policy: Option<Policy>, snapshot: Option<Snapshot>, position: Position, orders: MapOrder,
        now: Time): Option<Outcome>
    requires policy.Some? ==> Valid(policy.value)
    requires IsMapOrder(orders)
  {
    if SkipOf(policy, snapshot).Some? then None
    else
      ValidIsIndexable(policy.value);
      var order := orders(position.holdings);
      Some(Outcome(Thoughts(policy.value, snapshot.value, position, order, now),
                   Decide(policy.value, snapshot.value, position, order, now)))
  }

  function PlainEvent(user: Address, kind: EventType, version: Option<U32>, payload: Payload, ts: Time): NewAuditEvent {
    NewAuditEvent(ts, user, kind, version, payload, None, None)
  }

  function TriggerEvent(user: Address, kind: string, now: Time): NewAuditEvent {
    PlainEvent(user, TriggerFired, None, TriggerPayload(kind), now)
  }

  /** One event per thought, a millisecond apart, each stamped with the policy's version. */
  function ThoughtEvents(user: Address, version: U32, thoughts: seq<Thought>, now: Time): (r: seq<NewAuditEvent>)
    ensures |r| == |thoughts|
  {
    seq(|thoughts|, i requires 0 <= i < |thoughts| =>
      PlainEvent(user, EvaluatorThought, Some(version), ThoughtPayload(thoughts[i]), now + (i + 1) * MILLISECOND))
  }

  function DecisionEvent(user: Address, version: U32, outcome: Outcome, now: Time): NewAuditEvent {
    PlainEvent(user, EvaluatorDecision, Some(version), DecisionPayload(outcome.decision),
               now + (|outcome.thoughts| + 1) * MILLISECOND)
  }

  /** The audit trail of a tick: the trigger, then all thoughts and the decision, or nothing more. */
  function TickEvents(user: Address, kind: string, policy: Option<Policy>, outcome: Option<Outcome>,
        now: Time): seq<NewAuditEvent> {
    [TriggerEvent(user, kind, now)]
    + if policy.Some? && outcome.Some? then
        ThoughtEvents(user, policy.value.version, outcome.value.thoughts, now)
        + [DecisionEvent(user, policy.value.version, outcome.value, now)]
      else []
  }

  /** Events appended one after another from id `id` on. */
  function Numbered(news: seq<NewAuditEvent>, id: nat): (r: seq<AuditEvent>)
    ensures |r| == |news|
    ensures forall i :: 0 <= i < |r| ==> r[i] == AuditEvent(id + i, news[i])
  {
    seq(|news|, i requires 0 <= i < |news| => AuditEvent(id + i, news[i]))
  }

  /**
   * The trail of a tick, event by event. The trigger comes first, at the tick's own time and under no
   * policy version. If the tick evaluates, each thought follows a millisecond behind the event before
   * it, and the decision behind the last, all under the version of the policy that was read.
   */
  lemma TrailExactly(user: Address, kind: string, policy: Option<Policy>, outcome: Option<Outcome>, now: Time, id: nat)
    requires outcome.Some? ==> policy.Some?
    ensures var events := Numbered(TickEvents(user, kind, policy, outcome, now), id);
            && |events| == (if outcome.Some? then |outcome.value.thoughts| + 2 else 1)
            && (forall i :: 0 <= i < |events| ==>
                  && events[i].id == id + i && events[i].event.user == user && events[i].event.ts == now + i * 1_000_000
                  && events[i].event.txHash == None && events[i].event.chain == None)
            && events[0].event.eventType == TriggerFired && events[0].event.policyVersion == None
            && events[0].event.payload == TriggerPayload(kind)
            && (outcome.Some? ==>
                  && var version, n := Some(policy.value.version), |outcome.value.thoughts|;
                  && (forall i :: 1 <= i <= n ==>
                        && events[i].event.eventType == EvaluatorThought && events[i].event.policyVersion == version
                        && events[i].event.payload == ThoughtPayload(outcome.value.thoughts[i - 1]))
                  && events[n + 1].event.eventType == EvaluatorDecision && events[n + 1].event.policyVersion == version
                  && events[n + 1].event.payload == DecisionPayload(outcome.value.decision))
  {
  }

  method AppendThoughts(audit: InMemoryAuditStore, user: Address, version: U32, thoughts: seq<Thought>, now: Time)
    modifies audit
    ensures audit.events == old(audit.events) + Numbered(ThoughtEvents(user, version, thoughts, now), old(audit.nextId))
    ensures audit.nextId == old(audit.nextId) + |thoughts|
  {
    ghost var all := ThoughtEvents(user, version, thoughts, now);
    for i := 0 to |thoughts|
      invariant audit.nextId == old(audit.nextId) + i
      invariant audit.events == old(audit.events) + Numbered(all[..i], old(audit.nextId))
    {
      var ts := now + (i + 1) * MILLISECOND;
      var _ := audit.Append(PlainEvent(user, EvaluatorThought, Some(version), ThoughtPayload(thoughts[i]), ts));
      assert all[..i + 1] == all[..i] + [all[i]];
    }
    assert all[..|thoughts|] == all;
  }

  /** `tick_once`; the snapshot is the latest one there is, if any. */
  method TickOnce(policies: InMemoryPolicyStore, snapshot: Option<Snapshot>, positions: InMemoryPositionStore,
                  audit: InMemoryAuditStore, user: Address, triggerKind: string, orders: MapOrder, now: Time)
    returns (r: TickOutcome)
    requires IsMapOrder(orders)
    requires user in policies.inner ==> Valid(policies.inner[user])
    modifies audit
    ensures var policy, id := ReadPolicy(policies.inner, user), old(audit.nextId);
            var outcome := OutcomeOf(policy, snapshot, PositionOf(positions.inner, user), orders, now);
            var trail := TickEvents(user, triggerKind, policy, outcome, now);
            && audit.events == old(audit.events) + Numbered(trail, id)
            && audit.nextId == id + |trail|
            && r == TickOutcome(id, SkipOf(policy, snapshot),
                                if outcome.Some? then Some(outcome.value.decision) else None,
                                if outcome.Some? then Some(id + |trail| - 1) else None)
  {
    hide Valid, Decide, Thoughts, IsOrder;
    var triggerId := audit.Append(TriggerEvent(user, triggerKind, now));
    var read := policies.Get(user);
    if read.None? {
      return TickOutcome(triggerId, Some(NoPolicyStored), None, None);
    }
    var policy := read.value;
    if policy.status.Paused? {
      return TickOutcome(triggerId, Some(PolicyIsPaused), None, None);
    }
    if snapshot.None? {
      return TickOutcome(triggerId, Some(NoSnapshot), None, None);
    }
    var stored := positions.Get(user);
    var position := if stored.Some? then stored.value else Position(map[], map[], 0);
    ValidIsIndexable(policy);
    var outcome := Evaluate(policy, snapshot.value, position, orders(position.holdings), now);
    AppendThoughts(audit, user, policy.version, outcome.thoughts, now);
    var decisionId := audit.Append(DecisionEvent(user, policy.version, outcome, now));
    return TickOutcome(triggerId, None, Some(outcome.decision), Some(decisionId));
  }
}
