/** Audit events, and the in-memory store they are appended to. */
module AuditStore {
  import opened Text
  import opened PolicySchema
  import opened Evaluator
  import opened StableSort

  datatype EventType =
    | TriggerFired | EvaluatorThought | EvaluatorDecision | RiskGateDecision
    | LlmEscalateIn | LlmEscalateOut
    | ExecutorActionStart | ExecutorSubstep | ExecutorActionDone
    | CircuitBreakEvent | PolicyChange | SessionRevoke

  datatype TxStep = TxStep(stepLabel: string, chain: ChainId, txHash: string)

  datatype Payload =
    | TriggerPayload(kind: string)
    | ThoughtPayload(thought: Thought)
    | DecisionPayload(decision: Decision)
    | RejectPayload(reason: string)
    | StartPayload(action: Action)
    | SubstepPayload(stepLabel: string, startEventId: nat)
    | DonePayload(action: Action, steps: seq<TxStep>, startEventId: nat)
    | FailedPayload(action: Action, error: string, startEventId: nat)

  datatype NewAuditEvent = NewAuditEvent(
    ts: Time,
    user: Address,
    eventType: EventType,
    policyVersion: Option<U32>,
    payload: Payload,
    txHash: Option<string>,
    chain: Option<ChainId>)

  datatype AuditEvent = AuditEvent(id: nat, event: NewAuditEvent)

  ghost predicate UniqueIds(events: seq<AuditEvent>) {
    forall i, j :: 0 <= i < j < |events| ==> events[i].id != events[j].id
  }

  predicate Matches(e: AuditEvent, user: Address, since: Option<Time>) {
    e.event.user == user && (since.Some? ==> e.event.ts > since.value)
  }

  function Matching(events: seq<AuditEvent>, user: Address, since: Option<Time>): (r: seq<AuditEvent>)
    ensures forall e :: e in r <==> e in events && Matches(e, user, since)
  {
    if events == [] then []
    else (if Matches(events[0], user, since) then [events[0]] else []) + Matching(events[1..], user, since)
  }

  function IdKey(e: AuditEvent): real {
    e.id as real
  }

  function Truncate(xs: seq<AuditEvent>, limit: nat): seq<AuditEvent> {
    if |xs| <= limit then xs else xs[..limit]
  }

  function ListFor(events: seq<AuditEvent>, user: Address, since: Option<Time>, limit: nat): seq<AuditEvent> {
    Truncate(SortDesc(Matching(events, user, since), IdKey), limit)
  }

  class InMemoryAuditStore {
    var nextId: nat
    var events: seq<AuditEvent>

    constructor ()
      ensures nextId == 1 && events == []
    {
      nextId, events := 1, [];
    }

    method Append(event: NewAuditEvent) returns (id: nat)
      modifies this
      ensures id == old(nextId) && nextId == id + 1
      ensures events == old(events) + [AuditEvent(id, event)]
    {
      id := nextId;
      nextId := nextId + 1;
      events := events + [AuditEvent(id, event)];
    }

    method Get(id: nat) returns (r: Option<AuditEvent>)
      ensures r.Some? ==> r.value in events && r.value.id == id
      ensures r.None? ==> forall e :: e in events ==> e.id != id
    {
      for i := 0 to |events|
        invariant forall k :: 0 <= k < i ==> events[k].id != id
      {
        if events[i].id == id {
          return Some(events[i]);
        }
      }
      return None;
    }

    method ListForUser(user: Address, since: Option<Time>, limit: nat) returns (out: seq<AuditEvent>)
      ensures out == ListFor(events, user, since, limit)
    {
      out := [];
      for i := 0 to |events|
        invariant out == Matching(events[..i], user, since)
      {
        assert events[..i + 1] == events[..i] + [events[i]];
        MatchingLast(events[..i], events[i], user, since);
        if events[i].event.user == user && (since.None? || events[i].event.ts > since.value) {
          out := out + [events[i]];
        }
      }
      assert events[..|events|] == events;
      out := SortDesc(out, IdKey);
      if |out| > limit {
        out := out[..limit];
      }
    }
  }

  lemma {:induction false} MatchingLast(events: seq<AuditEvent>, e: AuditEvent, user: Address, since: Option<Time>)
    ensures Matching(events + [e], user, since)
            == Matching(events, user, since) + if Matches(e, user, since) then [e] else []
  {
    if events == [] {
      assert (events + [e])[1..] == [];
    } else {
      assert (events + [e])[1..] == events[1..] + [e];
      MatchingLast(events[1..], e, user, since);
    }
  }

  // ----- what a listing shows -----

  lemma {:induction false} MatchingUnique(events: seq<AuditEvent>, user: Address, since: Option<Time>)
    requires UniqueIds(events)
    ensures UniqueIds(Matching(events, user, since))
  {
    if events != [] {
      var rest := Matching(events[1..], user, since);
      MatchingUnique(events[1..], user, since);
      forall j | 0 <= j < |rest|
        ensures rest[j].id != events[0].id
      {
        assert rest[j] in events[1..];
      }
    }
  }

  ghost predicate StrictlyDescending(xs: seq<AuditEvent>) {
    forall i, j :: 0 <= i < j < |xs| ==> xs[i].id > xs[j].id
  }

  lemma SortedStrictly(xs: seq<AuditEvent>)
    requires UniqueIds(xs)
    ensures StrictlyDescending(SortDesc(xs, IdKey))
  {
    SortSorts(xs, IdKey);
    var sorted := SortDesc(xs, IdKey);
    forall i, j | 0 <= i < j < |sorted|
      ensures sorted[i].id > sorted[j].id
    {
      UniqueAfterPermuting(xs, sorted, i, j);
      assert IdKey(sorted[i]) >= IdKey(sorted[j]);
    }
  }

  lemma UniqueAfterPermuting(xs: seq<AuditEvent>, ys: seq<AuditEvent>, i: nat, j: nat)
    requires UniqueIds(xs) && multiset(xs) == multiset(ys) && i < j < |ys|
    ensures ys[i].id != ys[j].id
  {
    if ys[i] == ys[j] {
      OccursTwice(ys, i, j);
      AtMostOnce(xs, ys[i]);
    } else {
      assert ys[i] in multiset(xs) && ys[j] in multiset(xs);
      var k :| 0 <= k < |xs| && xs[k] == ys[i];
      var l :| 0 <= l < |xs| && xs[l] == ys[j];
      assert k < l || l < k;
    }
  }

  lemma OccursTwice<T>(xs: seq<T>, i: nat, j: nat)
    requires i < j < |xs| && xs[i] == xs[j]
    ensures multiset(xs)[xs[i]] >= 2
  {
    assert xs == xs[..j] + [xs[j]] + xs[j + 1..];
    assert xs[..j][i] == xs[i];
    assert xs[i] in multiset(xs[..j]);
  }

  lemma {:induction false} AtMostOnce(xs: seq<AuditEvent>, e: AuditEvent)
    requires UniqueIds(xs)
    ensures multiset(xs)[e] <= 1
  {
    if xs != [] {
      assert xs == [xs[0]] + xs[1..];
      AtMostOnce(xs[1..], e);
      forall k | 0 <= k < |xs[1..]|
        ensures xs[1..][k].id != xs[0].id
      {
        assert xs[1..][k] == xs[k + 1];
      }
    }
  }

  /**
   * A listing shows the matching events with the `limit` highest ids, each once, newest first:
   * whatever was left out is older than everything shown.
   */
  lemma ListingShowsNewest(events: seq<AuditEvent>, user: Address, since: Option<Time>, limit: nat)
    requires UniqueIds(events)
    ensures var out, all := ListFor(events, user, since, limit), Matching(events, user, since);
            && StrictlyDescending(out)
            && |out| == (if |all| <= limit then |all| else limit)
            && (forall e :: e in out ==> e in events && Matches(e, user, since))
            && (forall e, o :: e in events && Matches(e, user, since) && e !in out && o in out ==> e.id < o.id)
  {
    var all := Matching(events, user, since);
    var sorted := SortDesc(all, IdKey);
    MatchingUnique(events, user, since);
    SortedStrictly(all);
    SortSorts(all, IdKey);
    forall e
      ensures e in sorted <==> e in all
    {
      assert e in multiset(sorted) <==> e in multiset(all);
    }
  }

  /** The order in which concurrent writers pushed their events never shows in a listing. */
  lemma ListingIgnoresPushOrder(a: seq<AuditEvent>, b: seq<AuditEvent>, user: Address,
        since: Option<Time>, limit: nat)
    requires UniqueIds(a) && multiset(a) == multiset(b)
    ensures ListFor(a, user, since, limit) == ListFor(b, user, since, limit)
  {
    MatchingUnique(a, user, since);
    MatchingPermutes(a, user, since);
    MatchingPermutes(b, user, since);
    var ma, mb := Matching(a, user, since), Matching(b, user, since);
    assert multiset(ma) == multiset(mb);
    forall i, j | 0 <= i < j < |mb|
      ensures mb[i].id != mb[j].id
    {
      UniqueAfterPermuting(ma, mb, i, j);
    }
    SortedStrictly(ma);
    SortedStrictly(mb);
    SortSorts(ma, IdKey);
    SortSorts(mb, IdKey);
    SameStrictOrder(SortDesc(ma, IdKey), SortDesc(mb, IdKey));
  }

  lemma {:induction false} MatchingPermutes(events: seq<AuditEvent>, user: Address, since: Option<Time>)
    ensures forall e :: multiset(Matching(events, user, since))[e]
                        == if Matches(e, user, since) then multiset(events)[e] else 0
  {
    if events != [] {
      assert events == [events[0]] + events[1..];
      MatchingPermutes(events[1..], user, since);
    }
  }

  lemma NewestFirst(a: seq<AuditEvent>, b: seq<AuditEvent>)
    requires StrictlyDescending(a) && StrictlyDescending(b) && multiset(a) == multiset(b)
    requires a != [] && b != []
    ensures a[0] == b[0]
  {
    assert a[0] in multiset(b) && b[0] in multiset(a);
    var i :| 0 <= i < |b| && b[i] == a[0];
    var j :| 0 <= j < |a| && a[j] == b[0];
  }

  lemma RestPermutes<T>(a: seq<T>, b: seq<T>)
    requires a != [] && b != [] && a[0] == b[0] && multiset(a) == multiset(b)
    ensures multiset(a[1..]) == multiset(b[1..])
  {
    assert a == [a[0]] + a[1..] && b == [b[0]] + b[1..];
    assert multiset(a[1..]) == multiset(a) - multiset{a[0]};
    assert multiset(b[1..]) == multiset(b) - multiset{b[0]};
  }

  lemma {:induction false} SameStrictOrder(a: seq<AuditEvent>, b: seq<AuditEvent>)
    requires StrictlyDescending(a) && StrictlyDescending(b) && multiset(a) == multiset(b)
    ensures a == b
    decreases |a|
  {
    assert |multiset(a)| == |a| && |multiset(b)| == |b|;
    if a != [] {
      NewestFirst(a, b);
      RestPermutes(a, b);
      SameStrictOrder(a[1..], b[1..]);
      assert a == [a[0]] + a[1..] && b == [b[0]] + b[1..];
    }
  }
}
