/** Carrying out a plan action by action, with an audit trail of starts, substeps and ends. */
module Executor {
  import opened Text
  import opened PolicySchema
  import opened Evaluator
  import opened AuditStore
  import opened Decisions

  /** The foreign calls an action is made of, with the chain they act on and the amount they ask for. */
  datatype ChainCall =
    | SupplyAave(chain: ChainId, amount: U256)
    | WithdrawAave(chain: ChainId, amount: U256)
    | DepositToGateway(chain: ChainId, amount: U256)
    | AttestBurn(source: ChainId, destination: ChainId, amount: U256)
    | MintOn(chain: ChainId)

  /** What a call replies: a transaction hash, or for a burn the digest of its intent; or an error. */
  type Chain = ChainCall -> Result<string, string>

  const EVERYTHING: U256 := TWO_256 - 1
  const BRIDGE_FEE_BUFFER := 10_000

  datatype Route = SupplySameChain | WithdrawSameChain | BridgeAndSupply | Unsupported

  /** The case split of `dispatch_action`. */
  function RouteOf(a: Action): Route {
    if a.from.protocol.Idle? && a.to.protocol.AaveV3? && a.from.chain == a.to.chain then SupplySameChain
    else if a.from.protocol.AaveV3? && a.to.protocol.Idle? && a.from.chain == a.to.chain then WithdrawSameChain
    else if a.from.protocol.Idle? && a.to.protocol.AaveV3? && a.from.chain.Arc? && a.to.chain.ArbitrumSepolia? then
      BridgeAndSupply
    else Unsupported
  }

  /** A call, and how its step is reported. */
  datatype PlannedStep = PlannedStep(call: ChainCall, stepLabel: string, chain: ChainId)

  /** What the bridge takes out of the account on Arc: the amount and a buffer for the fee, wrapped. */
  function BridgeDeposit(amount: U256): U256 {
    (amount + BRIDGE_FEE_BUFFER) % TWO_256
  }

  function PlannedSteps(a: Action): seq<PlannedStep> {
    match RouteOf(a)
    case SupplySameChain => [PlannedStep(SupplyAave(a.to.chain, EVERYTHING), "aave_supply", a.to.chain)]
    case WithdrawSameChain => [PlannedStep(WithdrawAave(a.from.chain, a.amount), "aave_withdraw", a.from.chain)]
    case BridgeAndSupply =>
      [PlannedStep(DepositToGateway(Arc, BridgeDeposit(a.amount)), "gateway_deposit", Arc),
       PlannedStep(AttestBurn(Arc, ArbitrumSepolia, a.amount), "burn_intent_attested", Arc),
       PlannedStep(MintOn(ArbitrumSepolia), "mint_destination", ArbitrumSepolia),
       PlannedStep(SupplyAave(ArbitrumSepolia, EVERYTHING), "aave_supply", ArbitrumSepolia)]
    case Unsupported => []
  }

  /** One call after another, until one fails. */
  function Performed(steps: seq<PlannedStep>, chain: Chain): Result<seq<TxStep>, string> {
    if steps == [] then Ok([])
    else match chain(steps[0].call)
      case Err(e) => Err(e)
      case Ok(hash) => match Performed(steps[1..], chain)
        case Err(e) => Err(e)
        case Ok(done) => Ok([TxStep(steps[0].stepLabel, steps[0].chain, hash)] + done)
  }

  /** The calls made by then. */
  function CallsMade(steps: seq<PlannedStep>, chain: Chain): seq<ChainCall> {
    if steps == [] then []
    else [steps[0].call] + if chain(steps[0].call).Ok? then CallsMade(steps[1..], chain) else []
  }

  function Calls(steps: seq<PlannedStep>): (r: seq<ChainCall>)
    ensures |r| == |steps| && forall i :: 0 <= i < |r| ==> r[i] == steps[i].call
  {
    seq(|steps|, i requires 0 <= i < |steps| => steps[i].call)
  }

  /** If every call succeeds they are all made, and each is reported with its own hash, in order. */
  lemma {:induction false} AllPerformed(steps: seq<PlannedStep>, chain: Chain)
    requires forall i :: 0 <= i < |steps| ==> chain(steps[i].call).Ok?
    ensures CallsMade(steps, chain) == Calls(steps)
    ensures var r := Performed(steps, chain);
            && r.Ok? && |r.value| == |steps|
            && forall i :: 0 <= i < |steps| ==>
                             r.value[i] == TxStep(steps[i].stepLabel, steps[i].chain, chain(steps[i].call).value)
  {
    if steps != [] {
      AllPerformed(steps[1..], chain);
      assert Calls(steps) == [steps[0].call] + Calls(steps[1..]);
    }
  }

  /** The first call that fails is the last one made, and its error is the outcome. */
  lemma {:induction false} FirstFailureEnds(steps: seq<PlannedStep>, chain: Chain, k: nat)
    requires k < |steps| && chain(steps[k].call).Err?
    requires forall i :: 0 <= i < k ==> chain(steps[i].call).Ok?
    ensures CallsMade(steps, chain) == Calls(steps)[..k + 1]
    ensures Performed(steps, chain) == Err(chain(steps[k].call).error)
  {
    assert Calls(steps) == [steps[0].call] + Calls(steps[1..]);
    if k > 0 {
      FirstFailureEnds(steps[1..], chain, k - 1);
    }
  }

  function DispatchAction(a: Action, chain: Chain): Result<seq<TxStep>, string> {
    if RouteOf(a).Unsupported? then Err("unsupported action") else Performed(PlannedSteps(a), chain)
  }

  /** `dispatch_action`; `calls` are those it has made, in order. */
  method Dispatch(a: Action, chain: Chain) returns (result: Result<seq<TxStep>, string>, calls: seq<ChainCall>)
    ensures result == DispatchAction(a, chain) && calls == CallsMade(PlannedSteps(a), chain)
  {
    if a.from.protocol.Idle? && a.to.protocol.AaveV3? && a.from.chain == a.to.chain {
      result, calls := Submit(SupplyAave(a.to.chain, EVERYTHING), "aave_supply", a.to.chain, chain);
    } else if a.from.protocol.AaveV3? && a.to.protocol.Idle? && a.from.chain == a.to.chain {
      result, calls := Submit(WithdrawAave(a.from.chain, a.amount), "aave_withdraw", a.from.chain, chain);
    } else if a.from.protocol.Idle? && a.to.protocol.AaveV3? && a.from.chain == Arc && a.to.chain == ArbitrumSepolia {
      result, calls := CrossChainArcIdleToArbitrumAave(a, chain);
    } else {
      result, calls := Err("unsupported action"), [];
    }
  }

  method Submit(call: ChainCall, stepLabel: string, on: ChainId, chain: Chain)
    returns (result: Result<seq<TxStep>, string>, calls: seq<ChainCall>)
    ensures result == Performed([PlannedStep(call, stepLabel, on)], chain)
    ensures calls == CallsMade([PlannedStep(call, stepLabel, on)], chain)
  {
    calls := [call];
    ghost var steps := [PlannedStep(call, stepLabel, on)];
    assert Calls(steps) == [call];
    match chain(call) {
      case Err(e) =>
        FirstFailureEnds(steps, chain, 0);
        result := Err(e);
      case Ok(tx) =>
        AllPerformed(steps, chain);
        result := Ok([TxStep(stepLabel, on, tx)]);
        assert Performed(steps, chain).value == result.value;
    }
  }

  /** `cross_chain_arc_idle_to_arbitrum_aave`: deposit, burn, mint, supply. */
  method CrossChainArcIdleToArbitrumAave(a: Action, chain: Chain)
    returns (result: Result<seq<TxStep>, string>, calls: seq<ChainCall>)
    requires RouteOf(a).BridgeAndSupply?
    ensures result == Performed(PlannedSteps(a), chain) && calls == CallsMade(PlannedSteps(a), chain)
  {
    var deposit := DepositToGateway(Arc, (a.amount + BRIDGE_FEE_BUFFER) % TWO_256);
    var burn, mint, supply := AttestBurn(Arc, ArbitrumSepolia, a.amount), MintOn(ArbitrumSepolia),
                              SupplyAave(ArbitrumSepolia, EVERYTHING);
    hide Performed, CallsMade, PlannedSteps, RouteOf, Calls;
    ghost var planned := PlannedSteps(a);
    BridgeCalls(a);
    calls := [deposit];
    var depositTx := chain(deposit);
    if depositTx.Err? {
      FirstFailureEnds(planned, chain, 0);
      return Err(depositTx.error), calls;
    }
    var steps := [TxStep("gateway_deposit", Arc, depositTx.value)];
    calls := calls + [burn];
    var digest := chain(burn);
    if digest.Err? {
      FirstFailureEnds(planned, chain, 1);
      return Err(digest.error), calls;
    }
    steps := steps + [TxStep("burn_intent_attested", Arc, digest.value)];
    calls := calls + [mint];
    var mintTx := chain(mint);
    if mintTx.Err? {
      FirstFailureEnds(planned, chain, 2);
      return Err(mintTx.error), calls;
    }
    steps := steps + [TxStep("mint_destination", ArbitrumSepolia, mintTx.value)];
    calls := calls + [supply];
    var supplyTx := chain(supply);
    if supplyTx.Err? {
      FirstFailureEnds(planned, chain, 3);
      return Err(supplyTx.error), calls;
    }
    steps := steps + [TxStep("aave_supply", ArbitrumSepolia, supplyTx.value)];
    AllPerformed(planned, chain);
    assert Performed(planned, chain).value == steps;
    return Ok(steps), calls;
  }

  lemma BridgeCalls(a: Action)
    requires RouteOf(a).BridgeAndSupply?
    ensures var steps := PlannedSteps(a);
            && |steps| == 4
            && steps[0] == PlannedStep(DepositToGateway(Arc, (a.amount + BRIDGE_FEE_BUFFER) % TWO_256), "gateway_deposit", Arc)
            && steps[1] == PlannedStep(AttestBurn(Arc, ArbitrumSepolia, a.amount), "burn_intent_attested", Arc)
            && steps[2] == PlannedStep(MintOn(ArbitrumSepolia), "mint_destination", ArbitrumSepolia)
            && steps[3] == PlannedStep(SupplyAave(ArbitrumSepolia, EVERYTHING), "aave_supply", ArbitrumSepolia)
            && Calls(steps) == [steps[0].call, steps[1].call, steps[2].call, steps[3].call]
  {
  }

  ghost predicate RatesNotNegative(snapshot: Snapshot) {
    forall v :: v in snapshot.venues ==> snapshot.venues[v].aprSmoothed1h >= 0.0
  }

  /**
   * From evaluator to executor: with rates that are not negative, a planned move has a route exactly
   * when it takes idle money on Arc, or idle money on Arbitrum into AAVE there. The other moves an
   * evaluator can plan, out of AAVE or from Arbitrum to Arc, end as an unsupported action.
   */
  lemma PlannedMoveHasRouteExactlyWhen(policy: Policy, snapshot: Snapshot, position: Position,
      order: seq<VenueRef>, now: Time)
    requires Valid(policy) && IsOrder(order, position.holdings) && RatesNotNegative(snapshot)
    requires Decide(policy, snapshot, position, order, now).Act?
    ensures var actions := Decide(policy, snapshot, position, order, now).plan.actions;
            && |actions| == 1
            && (!RouteOf(actions[0]).Unsupported?
                <==> actions[0].from == ARC_IDLE || (actions[0].from == ARB_IDLE && actions[0].to == ARB_AAVE))
  {
    hide Decide, VenueCap, MaxMove, IsOrder;
    PlanBounds(policy, snapshot, position, order, now);
    var a := Decide(policy, snapshot, position, order, now).plan.actions[0];
    GoodMoveAmounts(policy, snapshot, position.holdings, a);
    assert Apr(snapshot, a.to) > Apr(snapshot, a.from) >= 0.0;
  }

  /** So every planned move of a policy that does not list AAVE on Arc has a route. */
  lemma WithoutArcAaveMovesHaveRoutes(policy: Policy, snapshot: Snapshot, position: Position,
      order: seq<VenueRef>, now: Time)
    requires Valid(policy) && IsOrder(order, position.holdings) && RatesNotNegative(snapshot)
    requires ARC_AAVE !in policy.protocols.whitelist
    requires Decide(policy, snapshot, position, order, now).Act?
    ensures var actions := Decide(policy, snapshot, position, order, now).plan.actions;
            |actions| == 1 && RouteOf(actions[0]) in {SupplySameChain, BridgeAndSupply}
  {
    hide Decide, VenueCap, MaxMove, IsOrder;
    PlanBounds(policy, snapshot, position, order, now);
    var a := Decide(policy, snapshot, position, order, now).plan.actions[0];
    GoodMoveAmounts(policy, snapshot, position.holdings, a);
    assert a.to in policy.protocols.whitelist;
    assert Apr(snapshot, a.to) > Apr(snapshot, a.from) >= 0.0;
  }

  /** An input that fails: idle money on Arbitrum under a policy that lists AAVE on Arc alone. */
  lemma ArbitrumToArcIsStranded(user: Address, now: Time)
    ensures Valid(OneVenuePolicy(user, ARC_AAVE, 100))
    ensures PlansMove(OneVenuePolicy(user, ARC_AAVE, 100), OneVenueSnapshot(now, ARC_AAVE), map[ARB_IDLE := 1000000], [ARB_IDLE],
                      now, Action(ARB_IDLE, ARC_AAVE, 1000000))
    ensures RouteOf(Action(ARB_IDLE, ARC_AAVE, 1000000)).Unsupported?
  {
    hide PlansMove, Valid;
    IdleIsMoved(user, now, ARB_IDLE, ARC_AAVE, 1000000, 100);
  }

  // ----- what the calls ask for -----

  /**
   * The amounts of a planned move on its way into the calls. A supply asks for everything there is,
   * so for the planned amount only if that is the largest number. A bridge burns the planned amount,
   * but asks to deposit a fee buffer with it: more than the venue holds exactly when the move leaves
   * less than the buffer behind and the sum does not wrap. So it does whenever all is moved.
   */
  lemma AmountsAskedExactly(policy: Policy, snapshot: Snapshot, position: Position, order: seq<VenueRef>, now: Time)
    requires Valid(policy) && Indexable(policy) && IsOrder(order, position.holdings)
    requires Decide(policy, snapshot, position, order, now).Act?
    ensures var actions := Decide(policy, snapshot, position, order, now).plan.actions;
            && |actions| == 1
            && var a, held, calls := actions[0], At(position.holdings, actions[0].from), Calls(PlannedSteps(actions[0]));
               && (RouteOf(a).SupplySameChain? ==>
                     && calls == [SupplyAave(a.from.chain, EVERYTHING)] && calls[0].amount + 1 == TWO_256
                     && (calls[0].amount == a.amount <==> a.amount + 1 == TWO_256))
               && (RouteOf(a).WithdrawSameChain? ==> calls == [WithdrawAave(a.to.chain, a.amount)])
               && (RouteOf(a).BridgeAndSupply? ==>
                     && |calls| == 4 && calls[1] == AttestBurn(a.from.chain, a.to.chain, a.amount)
                     && calls[0].DepositToGateway? && calls[0].chain == a.from.chain
                     && calls[2] == MintOn(a.to.chain) && calls[3] == SupplyAave(a.to.chain, EVERYTHING)
                     && (calls[0].amount > held <==> held < a.amount + 10_000 < TWO_256))
  {
    hide Decide, VenueCap, MaxMove, IsOrder, Valid;
    PlanBounds(policy, snapshot, position, order, now);
    var a := Decide(policy, snapshot, position, order, now).plan.actions[0];
    GoodMoveAmounts(policy, snapshot, position.holdings, a);
    DepositExactly(a.amount, At(position.holdings, a.from));
    if RouteOf(a).BridgeAndSupply? {
      BridgeCalls(a);
    }
  }

  lemma DepositExactly(amount: U256, held: nat)
    requires amount <= held < TWO_256
    ensures BridgeDeposit(amount) > held <==> held < amount + 10_000 < TWO_256
  {
    if amount + 10_000 < TWO_256 {
      Arithmetic.SmallMod(amount + 10_000, TWO_256);
    } else {
      Arithmetic.DivisionUnique(amount + 10_000, TWO_256, 1, amount + 10_000 - TWO_256);
    }
  }

  /** An input of each kind: a policy that moves half is asked for all, and all of it is overdrawn. */
  lemma MovesThatAskForMore(user: Address, now: Time)
    ensures var half := Action(ARB_IDLE, ARB_AAVE, 500000);
            && Valid(OneVenuePolicy(user, ARB_AAVE, 50))
            && PlansMove(OneVenuePolicy(user, ARB_AAVE, 50), OneVenueSnapshot(now, ARB_AAVE), map[ARB_IDLE := 1000000], [ARB_IDLE],
                         now, half)
            && Calls(PlannedSteps(half)) == [SupplyAave(ArbitrumSepolia, EVERYTHING)]
    ensures var all := Action(ARC_IDLE, ARB_AAVE, 1000000);
            && Valid(OneVenuePolicy(user, ARB_AAVE, 100))
            && PlansMove(OneVenuePolicy(user, ARB_AAVE, 100), OneVenueSnapshot(now, ARB_AAVE), map[ARC_IDLE := 1000000], [ARC_IDLE],
                         now, all)
            && Calls(PlannedSteps(all))[0] == DepositToGateway(Arc, 1010000)
  {
    hide PlansMove, Valid;
    IdleIsMoved(user, now, ARB_IDLE, ARB_AAVE, 1000000, 50);
    IdleIsMoved(user, now, ARC_IDLE, ARB_AAVE, 1000000, 100);
  }

  // ----- audit events of an execution -----

  function ExecutorEvent(user: Address, version: U32, kind: EventType, payload: Payload, hash: Option<string>,
        chain: ChainId, ts: Time): NewAuditEvent {
    NewAuditEvent(ts, user, kind, Some(version), payload, hash, Some(chain))
  }

  function StartEvent(user: Address, version: U32, a: Action, ts: Time): NewAuditEvent {
    ExecutorEvent(user, version, ExecutorActionStart, StartPayload(a), None, a.to.chain, ts)
  }

  function SubstepEvent(user: Address, version: U32, step: TxStep, startId: nat, ts: Time): NewAuditEvent {
    ExecutorEvent(user, version, ExecutorSubstep, SubstepPayload(step.stepLabel, startId), Some(step.txHash), step.chain, ts)
  }

  function DoneEvent(user: Address, version: U32, a: Action, steps: seq<TxStep>, startId: nat,
        ts: Time): NewAuditEvent {
    ExecutorEvent(user, version, ExecutorActionDone, DonePayload(a, steps, startId), None, a.to.chain, ts)
  }

  function FailedEvent(user: Address, version: U32, a: Action, error: string, startId: nat, ts: Time): NewAuditEvent {
    ExecutorEvent(user, version, ExecutorActionDone, FailedPayload(a, error, startId), None, a.to.chain, ts)
  }

  datatype ExecutionOutcome = Completed(txHashes: seq<string>) | PartialFailure(txHashes: seq<string>, error: string)

  function Hashes(steps: seq<TxStep>): (r: seq<string>)
    ensures |r| == |steps| && forall i :: 0 <= i < |r| ==> r[i] == steps[i].txHash
  {
    seq(|steps|, i requires 0 <= i < |steps| => steps[i].txHash)
  }

  /** Who runs a plan, under which policy version, with which clock; event k is stamped clock(k). */
  datatype Context = Context(user: Address, version: U32, clock: nat -> Time)

  function SubstepEvents(ctx: Context, steps: seq<TxStep>, startId: nat, id: nat): (r: seq<AuditEvent>)
    ensures |r| == |steps|
    decreases |steps|
  {
    if steps == [] then []
    else [AuditEvent(id, SubstepEvent(ctx.user, ctx.version, steps[0], startId, ctx.clock(id)))]
         + SubstepEvents(ctx, steps[1..], startId, id + 1)
  }

  /** The trail of one action that starts at id `id`. */
  function ActionEvents(ctx: Context, a: Action, result: Result<seq<TxStep>, string>, id: nat): seq<AuditEvent> {
    [AuditEvent(id, StartEvent(ctx.user, ctx.version, a, ctx.clock(id)))]
    + match result
      case Ok(steps) =>
        var end := id + 1 + |steps|;
        SubstepEvents(ctx, steps, id, id + 1)
        + [AuditEvent(end, DoneEvent(ctx.user, ctx.version, a, steps, id, ctx.clock(end)))]
      case Err(e) =>
        [AuditEvent(id + 1, FailedEvent(ctx.user, ctx.version, a, e, id, ctx.clock(id + 1)))]
  }

  /** Who an executor event is about, under which policy version, when, on which chain, with which hash. */
  ghost predicate Labelled(ctx: Context, e: AuditEvent, id: nat, kind: EventType, hash: Option<string>, chain: ChainId) {
    && e.id == id && e.event.user == ctx.user && e.event.policyVersion == Some(ctx.version) && e.event.ts == ctx.clock(id)
    && e.event.eventType == kind && e.event.txHash == hash && e.event.chain == Some(chain)
  }

  lemma {:induction false} SubstepAt(ctx: Context, steps: seq<TxStep>, startId: nat, id: nat, k: nat)
    requires k < |steps|
    ensures var e := SubstepEvents(ctx, steps, startId, id)[k];
            && Labelled(ctx, e, id + k, ExecutorSubstep, Some(steps[k].txHash), steps[k].chain)
            && e.event.payload == SubstepPayload(steps[k].stepLabel, startId)
    decreases k
  {
    if k > 0 {
      SubstepAt(ctx, steps[1..], startId, id + 1, k - 1);
    }
  }

  /**
   * The trail of an action, event by event: a start on the destination's chain; if the action went
   * through, one substep per step, on the step's chain and with its hash; and an end on the
   * destination's chain that says how it went. All name the start they belong to.
   */
  lemma ActionTrailExactly(ctx: Context, a: Action, result: Result<seq<TxStep>, string>, id: nat)
    ensures var events := ActionEvents(ctx, a, result, id);
            var n := if result.Ok? then |result.value| else 0;
            && |events| == n + 2
            && Labelled(ctx, events[0], id, ExecutorActionStart, None, a.to.chain) && events[0].event.payload == StartPayload(a)
            && (forall k :: 0 <= k < n ==>
                  && Labelled(ctx, events[k + 1], id + k + 1, ExecutorSubstep, Some(result.value[k].txHash), result.value[k].chain)
                  && events[k + 1].event.payload == SubstepPayload(result.value[k].stepLabel, id))
            && Labelled(ctx, events[n + 1], id + n + 1, ExecutorActionDone, None, a.to.chain)
            && events[n + 1].event.payload == (if result.Ok? then DonePayload(a, result.value, id) else FailedPayload(a, result.error, id))
  {
    hide SubstepEvents;
    match result
    case Err(_) =>
    case Ok(steps) =>
      forall k | 0 <= k < |steps|
        ensures var e := SubstepEvents(ctx, steps, id, id + 1)[k];
                && Labelled(ctx, e, id + 1 + k, ExecutorSubstep, Some(steps[k].txHash), steps[k].chain)
                && e.event.payload == SubstepPayload(steps[k].stepLabel, id)
      {
        SubstepAt(ctx, steps, id, id + 1, k);
      }
  }

  datatype Execution = Execution(events: seq<AuditEvent>, outcome: ExecutionOutcome)

  /** The trail and outcome of the actions from the i-th on; nothing follows a failed action. */
  function PlanExecution(ctx: Context, actions: seq<Action>, chains: nat -> Chain, i: nat, id: nat,
        hashes: seq<string>): Execution
    requires i <= |actions|
    decreases |actions| - i
  {
    if i == |actions| then Execution([], Completed(hashes))
    else
      var result := DispatchAction(actions[i], chains(i));
      var events := ActionEvents(ctx, actions[i], result, id);
      match result
      case Err(e) => Execution(events, PartialFailure(hashes, e))
      case Ok(steps) =>
        var rest := PlanExecution(ctx, actions, chains, i + 1, id + |events|, hashes + Hashes(steps));
        Execution(events + rest.events, rest.outcome)
  }

  lemma PlanEnds(ctx: Context, actions: seq<Action>, chains: nat -> Chain)
    ensures forall id: nat, hashes: seq<string> ::
              PlanExecution(ctx, actions, chains, |actions|, id, hashes) == Execution([], Completed(hashes))
  {
  }

  lemma NextAction(ctx: Context, actions: seq<Action>, chains: nat -> Chain, i: nat, id: nat, hashes: seq<string>)
    requires i < |actions|
    ensures var result := DispatchAction(actions[i], chains(i));
            var events := ActionEvents(ctx, actions[i], result, id);
            PlanExecution(ctx, actions, chains, i, id, hashes) ==
            match result
            case Err(e) => Execution(events, PartialFailure(hashes, e))
            case Ok(steps) =>
              var rest := PlanExecution(ctx, actions, chains, i + 1, id + |events|, hashes + Hashes(steps));
              Execution(events + rest.events, rest.outcome)
  {
    hide DispatchAction, ActionEvents, Hashes;
  }

  method AppendSubsteps(audit: InMemoryAuditStore, ctx: Context, steps: seq<TxStep>, startId: nat)
    modifies audit
    ensures audit.events == old(audit.events) + SubstepEvents(ctx, steps, startId, old(audit.nextId))
    ensures audit.nextId == old(audit.nextId) + |steps|
  {
    var k := 0;
    assert steps[0..] == steps;
    while k < |steps|
      invariant 0 <= k <= |steps| && audit.nextId == old(audit.nextId) + k
      invariant old(audit.events) + SubstepEvents(ctx, steps, startId, old(audit.nextId))
                == audit.events + SubstepEvents(ctx, steps[k..], startId, audit.nextId)
    {
      assert steps[k..][0] == steps[k] && steps[k..][1..] == steps[k + 1..];
      var _ := audit.Append(SubstepEvent(ctx.user, ctx.version, steps[k], startId, ctx.clock(audit.nextId)));
      k := k + 1;
    }
    assert steps[k..] == [];
  }

  /** The loop body: start, dispatch, substeps, end. */
  method RunAction(audit: InMemoryAuditStore, ctx: Context, action: Action, chain: Chain)
    returns (result: Result<seq<TxStep>, string>, calls: seq<ChainCall>)
    modifies audit
    ensures result == DispatchAction(action, chain) && calls == CallsMade(PlannedSteps(action), chain)
    ensures audit.events == old(audit.events) + ActionEvents(ctx, action, result, old(audit.nextId))
    ensures audit.nextId == old(audit.nextId) + |ActionEvents(ctx, action, result, old(audit.nextId))|
  {
    hide DispatchAction, CallsMade, PlannedSteps;
    var startId := audit.Append(StartEvent(ctx.user, ctx.version, action, ctx.clock(audit.nextId)));
    result, calls := Dispatch(action, chain);
    match result {
      case Ok(steps) =>
        AppendSubsteps(audit, ctx, steps, startId);
        var _ := audit.Append(DoneEvent(ctx.user, ctx.version, action, steps, startId, ctx.clock(audit.nextId)));
      case Err(e) =>
        var _ := audit.Append(FailedEvent(ctx.user, ctx.version, action, e, startId, ctx.clock(audit.nextId)));
    }
  }

  /** `execute_plan`, with no other writer between its appends; `chains(i)` is what action i meets. */
  method ExecutePlan(audit: InMemoryAuditStore, ctx: Context, plan: ActionPlan, chains: nat -> Chain)
    returns (outcome: ExecutionOutcome)
    modifies audit
    ensures var run := PlanExecution(ctx, plan.actions, chains, 0, old(audit.nextId), []);
            && outcome == run.outcome
            && audit.events == old(audit.events) + run.events
            && audit.nextId == old(audit.nextId) + |run.events|
  {
    hide DispatchAction, ActionEvents, CallsMade, PlannedSteps, Hashes, PlanExecution;
    PlanEnds(ctx, plan.actions, chains);
    var actions := plan.actions;
    var allHashes: seq<string> := [];
    ghost var run := PlanExecution(ctx, actions, chains, 0, audit.nextId, []);
    var i := 0;
    while i < |actions|
      invariant 0 <= i <= |actions|
      invariant var rest := PlanExecution(ctx, actions, chains, i, audit.nextId, allHashes);
                && old(audit.events) + run.events == audit.events + rest.events
                && old(audit.nextId) + |run.events| == audit.nextId + |rest.events|
                && run.outcome == rest.outcome
    {
      NextAction(ctx, actions, chains, i, audit.nextId, allHashes);
      var result, _ := RunAction(audit, ctx, actions[i], chains(i));
      match result {
        case Ok(steps) => allHashes := allHashes + Hashes(steps);
        case Err(e) => return PartialFailure(allHashes, e);
      }
      i := i + 1;
    }
    return Completed(allHashes);
  }
}
