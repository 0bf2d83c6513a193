/**
 * The cron cycle and the tick on demand: decide, read the policy again, gate, execute. Other tasks
 * may change policies between any two of these steps.
 */
module Scheduler {
  import opened Text
  import opened Sequences
  import opened PolicySchema
  import opened PolicyStore
  import opened Evaluator
  import opened AuditStore
  import opened Executor
  import opened RiskGate
  import opened Tick

  /** What one user's turn meets: the fetched position, unless the fetch fails or there is no
      fetcher; the positions other tasks put before the tick reads one; the latest snapshot; and the
      policy calls of other tasks before the tick reads the policy and between that read and the
      gate's. */
  datatype Turn = Turn(
    fetched: Option<Position>,
    moved: seq<(Address, Position)>,
    snapshot: Option<Snapshot>,
    before: seq<Op>,
    between: seq<Op>,
    orders: MapOrder,
    chains: nat -> Chain,
    clock: nat -> Time)

  datatype Handled =
    | NoAct
    | ExecutorOff
    | PolicyGone
    | Rejected(reason: RejectReason)
    | Executed(outcome: ExecutionOutcome)

  /** What happened in a turn: the policy the tick read, what it made of it, and the policy the
      gate read; `firstId` is the id of the turn's first event. */
  datatype UserTick = UserTick(
    user: Address,
    kind: string,
    now: Time,
    turn: Turn,
    decided: Option<Policy>,
    outcome: Option<Outcome>,
    gated: Option<Policy>,
    handled: Handled,
    firstId: nat)

  predicate Acts(t: UserTick) {
    t.outcome.Some? && t.outcome.value.decision.Act?
  }

  /** No plan is executed but under a re-read policy that covers it, and none is rejected but under
      a re-read policy that is paused or newer than the one it was decided on. */
  predicate Safe(t: UserTick) {
    && (t.handled.NoAct? <==> !Acts(t))
    && !t.handled.PolicyGone?
    && (Acts(t) ==> t.decided.Some? && Covers(t.decided.value, t.outcome.value.decision.plan))
    && (Acts(t) && !t.handled.ExecutorOff? ==>
          && t.gated.Some?
          && (t.handled.Executed? <==> Covers(t.gated.value, t.outcome.value.decision.plan))
          && t.gated.value.version == (t.decided.value.version + Puts(t.turn.between, t.user)) % TWO_32
          && (t.handled.Rejected? ==> t.gated.value.status.Paused? || Puts(t.turn.between, t.user) > 0))
  }

  function ContextOf(t: UserTick): Context
    requires t.gated.Some?
  {
    Context(t.user, t.gated.value.version, t.turn.clock)
  }

  /** What the turn appends after the tick's own events. */
  function GateEvents(t: UserTick, id: nat): seq<AuditEvent> {
    if !Acts(t) || t.gated.None? || t.handled.ExecutorOff? then []
    else match Check(t.gated.value, t.outcome.value.decision.plan)
      case Pass =>
        PlanExecution(ContextOf(t), t.outcome.value.decision.plan.actions, t.turn.chains, 0, id, []).events
      case Reject(reason) =>
        [AuditEvent(id, PlainEvent(t.user, RiskGateDecision, Some(t.gated.value.version),
                                   RejectPayload(ReasonText(reason)), t.turn.clock(id)))]
  }

  function TurnEvents(t: UserTick): seq<AuditEvent> {
    var trail := TickEvents(t.user, t.kind, t.decided, t.outcome, t.now);
    Numbered(trail, t.firstId) + GateEvents(t, t.firstId + |trail|)
  }

  // ----- what the audit log says about a safe turn -----

  predicate ByExecutor(kind: EventType) {
    kind.ExecutorActionStart? || kind.ExecutorSubstep? || kind.ExecutorActionDone?
  }

  ghost predicate StampedBy(events: seq<AuditEvent>, ctx: Context) {
    forall e :: e in events ==>
      ByExecutor(e.event.eventType) && e.event.user == ctx.user && e.event.policyVersion == Some(ctx.version)
  }

  lemma {:induction false} SubstepsStamped(ctx: Context, steps: seq<TxStep>, startId: nat, id: nat)
    ensures StampedBy(SubstepEvents(ctx, steps, startId, id), ctx)
    decreases |steps|
  {
    if steps != [] {
      SubstepsStamped(ctx, steps[1..], startId, id + 1);
    }
  }

  lemma ActionStamped(ctx: Context, a: Action, result: Result<seq<TxStep>, string>, id: nat)
    ensures StampedBy(ActionEvents(ctx, a, result, id), ctx)
  {
    match result
    case Err(e) =>
    case Ok(steps) => SubstepsStamped(ctx, steps, id, id + 1);
  }

  lemma {:induction false} ExecutionStamped(ctx: Context, actions: seq<Action>, chains: nat -> Chain, i: nat,
        id: nat, hashes: seq<string>)
    requires i <= |actions|
    ensures StampedBy(PlanExecution(ctx, actions, chains, i, id, hashes).events, ctx)
    decreases |actions| - i
  {
    hide DispatchAction, ActionEvents;
    if i < |actions| {
      var result := DispatchAction(actions[i], chains(i));
      var events := ActionEvents(ctx, actions[i], result, id);
      ActionStamped(ctx, actions[i], result, id);
      match result
      case Err(e) =>
      case Ok(steps) => ExecutionStamped(ctx, actions, chains, i + 1, id + |events|, hashes + Hashes(steps));
    }
  }

  lemma TickTrailNotByExecutor(t: UserTick, e: AuditEvent)
    requires e in Numbered(TickEvents(t.user, t.kind, t.decided, t.outcome, t.now), t.firstId)
    ensures !ByExecutor(e.event.eventType)
  {
    var trail := TickEvents(t.user, t.kind, t.decided, t.outcome, t.now);
    var i :| 0 <= i < |trail| && Numbered(trail, t.firstId)[i] == e;
    assert e.event == trail[i];
  }

  lemma ExecutorEventPassed(t: UserTick, e: AuditEvent, id: nat)
    requires e in GateEvents(t, id) && ByExecutor(e.event.eventType)
    ensures Acts(t) && t.gated.Some? && !t.handled.ExecutorOff?
    ensures Check(t.gated.value, t.outcome.value.decision.plan).Pass?
    ensures e.event.user == t.user && e.event.policyVersion == Some(t.gated.value.version)
  {
    hide PlanExecution;
    ExecutionStamped(ContextOf(t), t.outcome.value.decision.plan.actions, t.turn.chains, 0, id, []);
  }

  /**
   * Read off the log of a safe turn: an executor event is there only if a plan was decided under
   * an active policy and passed an active policy whose cap covers it, and it names the version of
   * the policy that let it pass, not of the one it was decided on.
   */
  lemma LoggedExecutionWasCovered(t: UserTick, e: AuditEvent)
    requires Safe(t) && e in TurnEvents(t) && ByExecutor(e.event.eventType)
    ensures Acts(t) && t.handled.Executed? && t.gated.Some?
    ensures Covers(t.gated.value, t.outcome.value.decision.plan)
    ensures e.event.user == t.user && e.event.policyVersion == Some(t.gated.value.version)
  {
    hide TickEvents, GateEvents, Numbered, PlanExecution, Puts;
    var trail := TickEvents(t.user, t.kind, t.decided, t.outcome, t.now);
    if e in Numbered(trail, t.firstId) {
      TickTrailNotByExecutor(t, e);
    }
    ExecutorEventPassed(t, e, t.firstId + |trail|);
  }

  /** A rejection is logged as one event that says why, under the version of the policy that was re-read. */
  lemma RejectionIsLogged(t: UserTick, id: nat)
    requires Acts(t) && t.gated.Some? && !t.handled.ExecutorOff?
    requires Check(t.gated.value, t.outcome.value.decision.plan).Reject?
    ensures var events, plan := GateEvents(t, id), t.outcome.value.decision.plan;
            && |events| == 1 && events[0].id == id
            && var e := events[0].event;
               && e.user == t.user && e.eventType == RiskGateDecision && e.policyVersion == Some(t.gated.value.version)
               && e.ts == t.turn.clock(id) && e.payload.RejectPayload? && e.txHash == None && e.chain == None
               && (e.payload.reason == "policy is paused" <==> t.gated.value.status.Paused?)
               && (e.payload.reason == "plan has no actions" <==> t.gated.value.status.Active? && plan.actions == [])
  {
    ReasonsTell(Check(t.gated.value, t.outcome.value.decision.plan).reason);
  }

  // ----- one user's turn -----

  lemma StoredIsValid(m: Policies, user: Address)
    requires StoreValid(m)
    ensures user in m ==> Valid(m[user])
  {
  }

  /** What the gate may rely on after a tick that acts. */
  lemma ActedSafely(m: Policies, t: UserTick, position: Position)
    requires t.decided == ReadPolicy(m, t.user) && t.gated == ReadPolicy(ApplyAll(m, t.turn.between), t.user)
    requires StoreValid(m) && IsMapOrder(t.turn.orders)
    requires t.decided.Some? ==> Valid(t.decided.value)
    requires t.outcome == OutcomeOf(t.decided, t.turn.snapshot, position, t.turn.orders, t.now)
    ensures Acts(t) ==> t.gated.Some?
    ensures t.handled == HandledAs(t) ==> Safe(t)
    ensures t.handled == ExecutorOff && Acts(t) ==> Safe(t)
  {
    hide Decide, Valid, StoreValid, ApplyAll, Thoughts, IsOrder, Puts, PlanExecution;
    if Acts(t) {
      var order := t.turn.orders(position.holdings);
      ValidIsIndexable(t.decided.value);
      GateSafety(m, t.turn.between, t.user, t.turn.snapshot.value, position, order, t.now);
    }
  }

  /** What the gate makes of the turn, with an executor. */
  function HandledAs(t: UserTick): Handled {
    if !Acts(t) then NoAct
    else if t.gated.None? then PolicyGone
    else match Check(t.gated.value, t.outcome.value.decision.plan)
      case Reject(reason) => Rejected(reason)
      case Pass =>
        var id := t.firstId + |TickEvents(t.user, t.kind, t.decided, t.outcome, t.now)|;
        Executed(PlanExecution(ContextOf(t), t.outcome.value.decision.plan.actions, t.turn.chains, 0, id, []).outcome)
  }

  /** The gate and what follows it; `t` records the turn up to here. */
  method GateAndExecute(policies: InMemoryPolicyStore, audit: InMemoryAuditStore, plan: ActionPlan, ghost t: UserTick,
                        user: Address, turn: Turn)
    returns (handled: Handled)
    requires t.user == user && t.turn == turn && t.gated == ReadPolicy(policies.inner, user)
    requires Acts(t) && t.outcome.value.decision.plan == plan && !t.handled.ExecutorOff?
    requires audit.nextId == t.firstId + |TickEvents(t.user, t.kind, t.decided, t.outcome, t.now)|
    modifies audit
    ensures handled == HandledAs(t)
    ensures audit.events == old(audit.events) + GateEvents(t, old(audit.nextId))
    ensures audit.nextId == old(audit.nextId) + |GateEvents(t, old(audit.nextId))|
  {
    hide PlanExecution, TickEvents, Check;
    var gated := policies.Get(user);
    if gated.None? {
      return PolicyGone;
    }
    match Check(gated.value, plan) {
      case Pass =>
        var outcome := ExecutePlan(audit, Context(user, gated.value.version, turn.clock), plan, turn.chains);
        return Executed(outcome);
      case Reject(reason) =>
        var _ := audit.Append(PlainEvent(user, RiskGateDecision, Some(gated.value.version),
                                         RejectPayload(ReasonText(reason)), turn.clock(audit.nextId)));
        return Rejected(reason);
    }
  }

  /** The contents of the three stores. */
  datatype Stores = Stores(policies: Policies, positions: map<Address, Position>, nextId: nat, events: seq<AuditEvent>)

  /** The positions as the turn's tick finds them. */
  function Fetched(positions: map<Address, Position>, t: UserTick): map<Address, Position> {
    PutAll(if t.turn.fetched.Some? then positions[t.user := t.turn.fetched.value] else positions, t.turn.moved)
  }

  /** `t` records a turn that began with these stores. */
  ghost predicate Records(s: Stores, t: UserTick) {
    var read := ApplyAll(s.policies, t.turn.before);
    && IsMapOrder(t.turn.orders)
    && t.firstId == s.nextId
    && t.decided == ReadPolicy(read, t.user)
    && t.gated == ReadPolicy(ApplyAll(read, t.turn.between), t.user)
    && (t.decided.Some? ==> Valid(t.decided.value))
    && t.outcome == OutcomeOf(t.decided, t.turn.snapshot, PositionOf(Fetched(s.positions, t), t.user), t.turn.orders, t.now)
  }

  /** The stores as the turn leaves them. */
  function After(s: Stores, t: UserTick): Stores {
    Stores(ApplyAll(ApplyAll(s.policies, t.turn.before), t.turn.between), Fetched(s.positions, t),
           s.nextId + |TurnEvents(t)|, s.events + TurnEvents(t))
  }

  function Now(policies: InMemoryPolicyStore, positions: InMemoryPositionStore, audit: InMemoryAuditStore): Stores
    reads policies, positions, audit
  {
    Stores(policies.inner, positions.inner, audit.nextId, audit.events)
  }

  /** The steps both entry points take for a user; `execute` says whether there is an executor. */
  method TakeTurn(policies: InMemoryPolicyStore, positions: InMemoryPositionStore, audit: InMemoryAuditStore,
                  user: Address, kind: string, execute: bool, turn: Turn, now: Time)
    returns (handled: Handled, ghost t: UserTick)
    requires StoreValid(policies.inner) && IsMapOrder(turn.orders)
    modifies policies, positions, audit
    ensures StoreValid(policies.inner)
    ensures t.user == user && t.kind == kind && t.now == now && t.turn == turn && t.handled == handled
    ensures Records(old(Now(policies, positions, audit)), t)
    ensures Now(policies, positions, audit) == After(old(Now(policies, positions, audit)), t)
    ensures handled == if Acts(t) && !execute then ExecutorOff else HandledAs(t)
    ensures handled.ExecutorOff? <==> Acts(t) && !execute
    ensures Safe(t)
  {
    hide Valid, StoreValid, ApplyAll, PutAll, PlanExecution, OutcomeOf, Numbered, TickEvents, IsMapOrder, HandledAs;
    hide GateEvents, Safe, SkipOf, TurnEvents;
    policies.Interfere(turn.before);
    if turn.fetched.Some? {
      positions.Put(user, turn.fetched.value);
    }
    positions.Interfere(turn.moved);
    ghost var read, position, firstId := policies.inner, PositionOf(positions.inner, user), audit.nextId;
    StoredIsValid(read, user);
    var tick := TickOnce(policies, turn.snapshot, positions, audit, user, kind, turn.orders, now);
    ghost var decided := ReadPolicy(read, user);
    ghost var outcome := OutcomeOf(decided, turn.snapshot, position, turn.orders, now);
    policies.Interfere(turn.between);
    t := UserTick(user, kind, now, turn, decided, outcome, ReadPolicy(policies.inner, user), NoAct, firstId);
    ghost var id, ticked := audit.nextId, audit.events;
    assert Acts(t) <==> tick.decision.Some? && tick.decision.value.Act?;
    if tick.decision.None? || !tick.decision.value.Act? {
      handled := NoAct;
    } else if !execute {
      handled := ExecutorOff;
    } else {
      handled := GateAndExecute(policies, audit, tick.decision.value.plan, t, user, turn);
    }
    HandledIsLabel(t, handled, id);
    assert audit.events == ticked + GateEvents(t.(handled := handled), id);
    t := t.(handled := handled);
    ActedSafely(read, t, position);
    TurnEventsAre(t, old(audit.events));
  }

  lemma TurnEventsAre(t: UserTick, before: seq<AuditEvent>)
    ensures var trail := TickEvents(t.user, t.kind, t.decided, t.outcome, t.now);
            && before + TurnEvents(t) == before + Numbered(trail, t.firstId) + GateEvents(t, t.firstId + |trail|)
            && |TurnEvents(t)| == |trail| + |GateEvents(t, t.firstId + |trail|)|
  {
    hide TickEvents, GateEvents, Numbered;
    var trail := TickEvents(t.user, t.kind, t.decided, t.outcome, t.now);
    Regroup(before, Numbered(trail, t.firstId), GateEvents(t, t.firstId + |trail|));
  }

  /** How a turn is handled does not change what it appends, unless there is no executor. */
  lemma HandledIsLabel(t: UserTick, handled: Handled, id: nat)
    requires !t.handled.ExecutorOff?
    ensures HandledAs(t.(handled := handled)) == HandledAs(t)
    ensures !HandledAs(t).ExecutorOff?
    ensures !Acts(t) ==> HandledAs(t) == NoAct
    ensures GateEvents(t.(handled := handled), id) == if handled.ExecutorOff? then [] else GateEvents(t, id)
    ensures !Acts(t) ==> GateEvents(t, id) == []
  {
    hide PlanExecution, Check;
  }

  /** `tick_user_now`; the fetch may fail, and the executor is always there. */
  method TickUserNow(policies: InMemoryPolicyStore, positions: InMemoryPositionStore, audit: InMemoryAuditStore,
                     user: Address, turn: Turn, now: Time)
    returns (ghost t: UserTick)
    requires StoreValid(policies.inner) && IsMapOrder(turn.orders)
    modifies policies, positions, audit
    ensures StoreValid(policies.inner)
    ensures t.user == user && t.kind == "policy_change" && t.now == now && t.turn == turn
    ensures Records(old(Now(policies, positions, audit)), t)
    ensures Now(policies, positions, audit) == After(old(Now(policies, positions, audit)), t)
    ensures Safe(t) && !t.handled.ExecutorOff?
  {
    hide Records, After, TurnEvents, Safe, StoreValid, PlanExecution;
    var handled;
    handled, t := TakeTurn(policies, positions, audit, user, "policy_change", true, turn, now);
  }

  // ----- the cron cycle -----

  /** The stores after these turns. */
  function AfterAll(s: Stores, ticks: seq<UserTick>): Stores {
    if ticks == [] then s else After(AfterAll(s, ticks[..|ticks| - 1]), ticks[|ticks| - 1])
  }

  /** Each turn began with the stores as the turns before it left them. */
  ghost predicate RecordsAll(s: Stores, ticks: seq<UserTick>) {
    ticks == []
    || (RecordsAll(s, ticks[..|ticks| - 1]) && Records(AfterAll(s, ticks[..|ticks| - 1]), ticks[|ticks| - 1]))
  }

  /** `run_cron_cycle`; `order` is how the policy map yields its users, `turns(i)` what the i-th of
      the active ones meets. */
  method RunCronCycle(policies: InMemoryPolicyStore, positions: InMemoryPositionStore, audit: InMemoryAuditStore,
                      order: seq<Address>, execute: bool, turns: nat -> Turn, now: Time)
    returns (count: nat, ghost ticks: seq<UserTick>)
    requires StoreValid(policies.inner) && forall i :: IsMapOrder(turns(i).orders)
    requires (set u | u in order) == policies.inner.Keys
    requires forall i, j :: 0 <= i < j < |order| ==> order[i] != order[j]
    modifies policies, positions, audit
    ensures StoreValid(policies.inner)
    ensures count == |ticks|
    ensures forall u :: u in old(policies.inner) && old(policies.inner)[u].status.Active?
                        <==> exists i :: 0 <= i < |ticks| && ticks[i].user == u
    ensures forall i, j :: 0 <= i < j < |ticks| ==> ticks[i].user != ticks[j].user
    ensures forall t :: t in ticks ==> Safe(t) && t.kind == "cron" && t.now == now && (t.handled.ExecutorOff? <==> Acts(t) && !execute)
    ensures forall i :: 0 <= i < |ticks| ==> ticks[i].turn == turns(i)
    ensures RecordsAll(old(Now(policies, positions, audit)), ticks)
    ensures Now(policies, positions, audit) == AfterAll(old(Now(policies, positions, audit)), ticks)
  {
    hide Records, After, TurnEvents, Safe, StoreValid, PlanExecution, IsMapOrder, HandledAs, Acts;
    var users := policies.ListActiveUsers(order);
    count, ticks := 0, [];
    ghost var start := Now(policies, positions, audit);
    for i := 0 to |users|
      invariant count == i == |ticks|
      invariant StoreValid(policies.inner)
      invariant forall k :: 0 <= k < i ==> ticks[k].user == users[k] && ticks[k].turn == turns(k)
      invariant forall t :: t in ticks ==> Safe(t) && t.kind == "cron" && t.now == now && (t.handled.ExecutorOff? <==> Acts(t) && !execute)
      invariant RecordsAll(start, ticks)
      invariant Now(policies, positions, audit) == AfterAll(start, ticks)
    {
      var handled;
      ghost var t;
      handled, t := TakeTurn(policies, positions, audit, users[i], "cron", execute, turns(i), now);
      assert (ticks + [t])[..|ticks|] == ticks;
      ticks := ticks + [t];
      count := count + 1;
    }
  }
}
