/** Deciding, from a policy, a market snapshot and a position, whether and what to move. */
module Evaluator {
  import opened Text
  import opened PolicySchema
  import opened Arithmetic
  import opened StableSort

  const TWO_128 := 0x1_0000_0000_0000_0000_0000_0000_0000_0000
  const TWO_256 := 0x1_0000_0000_0000_0000_0000_0000_0000_0000_0000_0000_0000_0000_0000_0000_0000_0000

  type U256 = n: nat |
    n < 0x1_0000_0000_0000_0000_0000_0000_0000_0000_0000_0000_0000_0000_0000_0000_0000_0000

  /** Instants and durations count nanoseconds. */
  type Time = int
  const MINUTE := 60_000_000_000
  const SNAPSHOT_MAX_AGE_MIN := 5

  datatype GatewayHealth = Healthy | Degraded | Down

  datatype VenueState =
    VenueState(apr: real, aprSmoothed1h: real, utilization: real, tvlUsd: real, tvlDropPct1h: real)

  datatype Snapshot = Snapshot(
    builtAt: Time,
    usdcUsd: real,
    gatewayHealth: GatewayHealth,
    venues: map<VenueRef, VenueState>,
    gasUsdPerUserop: map<ChainId, real>,
    gatewayFeeUsd: real)

  type Holdings = map<VenueRef, U256>

  datatype Position = Position(holdings: Holdings, lastActionAt: map<VenueRef, Time>, actionsToday: U32)

  datatype Action = Action(from: VenueRef, to: VenueRef, amount: U256)

  datatype ActionPlan = ActionPlan(actions: seq<Action>, expectedProfitUsd: real, estimatedCostUsd: real)

  datatype NoopReason =
    | NoCapital
    | AlreadyAtBestVenue
    | AprDeltaBelowThreshold
    | DestinationInCooldown
    | BestVenueAtCap
    | GasExceedsCap
    | EvBelowThreshold
    | DailyQuotaReached
    | GatewayDown

  datatype Signal = Utilization | TvlDrop

  datatype BreakReason =
    | SnapshotStale
    | UsdcDepeg(observed: real)
    | VenueUnhealthy(venue: VenueRef, signal: Signal)

  datatype Decision =
    | Noop(reason: NoopReason)
    | Act(plan: ActionPlan)
    | Escalate(newListing: VenueRef)
    | CircuitBreak(breakReason: BreakReason, drainTo: Option<VenueRef>)

  /** What a thought reports; its wording is left out. */
  datatype Thought = AuditEntry | PositionSeen | Scan | BestOpportunity | SessionComplete(decision: Decision)

  datatype Outcome = Outcome(thoughts: seq<Thought>, decision: Decision)

  // ----- holdings -----

  /** An order in which a hash map may yield its keys. */
  ghost predicate IsOrder(order: seq<VenueRef>, h: Holdings) {
    && (forall i, j :: 0 <= i < j < |order| ==> order[i] != order[j])
    && (forall v :: v in h <==> v in order)
  }

  function At(h: Holdings, v: VenueRef): nat {
    if v in h then h[v] else 0
  }

  const ARC_IDLE := VenueRef(Arc, Idle)
  const ARC_AAVE := VenueRef(Arc, AaveV3)
  const ARB_IDLE := VenueRef(ArbitrumSepolia, Idle)
  const ARB_AAVE := VenueRef(ArbitrumSepolia, AaveV3)

  /** The capital, over the four venues there are. */
  function Total(h: Holdings): nat {
    At(h, ARC_IDLE) + At(h, ARC_AAVE) + At(h, ARB_IDLE) + At(h, ARB_AAVE)
  }

  /** `sum_holdings`: a fold in map order, with 256-bit wrap-around. */
  function SumHoldings(h: Holdings, order: seq<VenueRef>): U256
    requires forall v :: v in order ==> v in h
  {
    if order == [] then 0
    else (SumHoldings(h, order[..|order| - 1]) + h[order[|order| - 1]]) % TWO_256
  }

  function PlainSum(h: Holdings, order: seq<VenueRef>): nat {
    if order == [] then 0 else PlainSum(h, order[..|order| - 1]) + At(h, order[|order| - 1])
  }

  lemma {:induction false} SumWraps(h: Holdings, order: seq<VenueRef>)
    requires forall v :: v in order ==> v in h
    ensures SumHoldings(h, order) == PlainSum(h, order) % TWO_256
  {
    if order != [] {
      var before, last := order[..|order| - 1], order[|order| - 1];
      SumWraps(h, before);
      AddMod(PlainSum(h, before), h[last], TWO_256);
    }
  }

  /** A listed venue counts once. */
  function Listed(h: Holdings, order: seq<VenueRef>, v: VenueRef): nat {
    if v in order then At(h, v) else 0
  }

  lemma ListedLast(h: Holdings, order: seq<VenueRef>, last: VenueRef, v: VenueRef)
    requires last !in order
    ensures Listed(h, order + [last], v) == Listed(h, order, v) + if v == last then At(h, v) else 0
  {
  }

  lemma {:induction false} SumIsListed(h: Holdings, order: seq<VenueRef>)
    requires forall i, j :: 0 <= i < j < |order| ==> order[i] != order[j]
    ensures PlainSum(h, order)
            == Listed(h, order, ARC_IDLE) + Listed(h, order, ARC_AAVE)
               + Listed(h, order, ARB_IDLE) + Listed(h, order, ARB_AAVE)
  {
    hide Listed, At;
    if order == [] {
      NothingListed(h);
    } else {
      var before, last := order[..|order| - 1], order[|order| - 1];
      SumIsListed(h, before);
      assert order == before + [last];
      ListedLast(h, before, last, ARC_IDLE);
      ListedLast(h, before, last, ARC_AAVE);
      ListedLast(h, before, last, ARB_IDLE);
      ListedLast(h, before, last, ARB_AAVE);
      FourVenues(last);
    }
  }

  lemma NothingListed(h: Holdings)
    ensures forall v :: Listed(h, [], v) == 0
  {
  }

  lemma FourVenues(v: VenueRef)
    ensures v == ARC_IDLE || v == ARC_AAVE || v == ARB_IDLE || v == ARB_AAVE
  {
    assert v == VenueRef(if v.chain.Arc? then Arc else ArbitrumSepolia, if v.protocol.Idle? then Idle else AaveV3);
  }

  /** The order of a hash map never shows in the sum, and the sum is exact when it fits. */
  lemma {:induction false} SumIsTotal(h: Holdings, order: seq<VenueRef>)
    requires IsOrder(order, h)
    ensures SumHoldings(h, order) == Total(h) % TWO_256
    ensures Total(h) < TWO_256 ==> SumHoldings(h, order) == Total(h)
  {
    SumWraps(h, order);
    SumIsListed(h, order);
    SmallMod(Total(h), TWO_256);
  }

  function MulPct(amount: U256, pct: U8): U256 {
    ((amount * pct) % TWO_256) / 100
  }

  // ----- ranking -----

  function Apr(snapshot: Snapshot, v: VenueRef): real {
    if v.protocol.Idle? then 0.0
    else if v in snapshot.venues then snapshot.venues[v].aprSmoothed1h
    else 0.0
  }

  function Candidates(snapshot: Snapshot, whitelist: seq<VenueRef>): (c: seq<(VenueRef, real)>)
    ensures |c| == |whitelist|
    ensures forall i :: 0 <= i < |c| ==> c[i] == (whitelist[i], Apr(snapshot, whitelist[i]))
  {
    seq(|whitelist|, i requires 0 <= i < |whitelist| => (whitelist[i], Apr(snapshot, whitelist[i])))
  }

  function Rate(candidate: (VenueRef, real)): real {
    candidate.1
  }

  function RankCandidates(policy: Policy, snapshot: Snapshot): (r: seq<(VenueRef, real)>)
    ensures |r| == |policy.protocols.whitelist|
  {
    SortDesc(Candidates(snapshot, policy.protocols.whitelist), Rate)
  }

  /** v is the first whitelist entry among those that pay the most. */
  ghost predicate IsBest(snapshot: Snapshot, whitelist: seq<VenueRef>, v: VenueRef) {
    exists i :: 0 <= i < |whitelist| && whitelist[i] == v && FirstMaximum(snapshot, whitelist, i)
  }

  ghost predicate FirstMaximum(snapshot: Snapshot, whitelist: seq<VenueRef>, i: nat)
    requires i < |whitelist|
  {
    && (forall j :: 0 <= j < |whitelist| ==> Apr(snapshot, whitelist[j]) <= Apr(snapshot, whitelist[i]))
    && (forall j :: 0 <= j < i ==> Apr(snapshot, whitelist[j]) < Apr(snapshot, whitelist[i]))
  }

  /** The ranking is the whole whitelist with its rates, best first, ties in whitelist order. */
  lemma RankingIsStable(policy: Policy, snapshot: Snapshot, apr: real)
    ensures var ranked, listed := RankCandidates(policy, snapshot), Candidates(snapshot, policy.protocols.whitelist);
            && Descending(ranked, Rate)
            && multiset(ranked) == multiset(listed)
            && WithKey(ranked, Rate, apr) == WithKey(listed, Rate, apr)
  {
    SortSorts(Candidates(snapshot, policy.protocols.whitelist), Rate);
    SortIsStable(Candidates(snapshot, policy.protocols.whitelist), Rate, apr);
  }

  lemma RankHead(policy: Policy, snapshot: Snapshot)
    requires policy.protocols.whitelist != []
    ensures var best := RankCandidates(policy, snapshot)[0];
            IsBest(snapshot, policy.protocols.whitelist, best.0) && best.1 == Apr(snapshot, best.0)
  {
    var i := SortHead(Candidates(snapshot, policy.protocols.whitelist), Rate);
    assert FirstMaximum(snapshot, policy.protocols.whitelist, i);
  }

  // ----- the worst holding -----

  predicate Eligible(policy: Policy, h: Holdings, v: VenueRef) {
    At(h, v) > 0 && (v in policy.protocols.whitelist || v.protocol.Idle?)
  }

  /** The first holding, in map order, among the eligible ones that pay the least. */
  function WorstHolding(policy: Policy, snapshot: Snapshot, h: Holdings, order: seq<VenueRef>): (r: Option<VenueRef>)
    ensures r.Some? ==> r.value in order && Eligible(policy, h, r.value)
    ensures r.Some? ==> forall v :: v in order && Eligible(policy, h, v) ==> Apr(snapshot, r.value) <= Apr(snapshot, v)
    ensures r.None? ==> forall v :: v in order ==> !Eligible(policy, h, v)
  {
    if order == [] then None
    else
      var before, v := WorstHolding(policy, snapshot, h, order[..|order| - 1]), order[|order| - 1];
      assert order == order[..|order| - 1] + [v];
      if !Eligible(policy, h, v) then before
      else if before.None? || Apr(snapshot, v) < Apr(snapshot, before.value) then Some(v)
      else before
  }

  // ----- the decision -----

  predicate HasIdle(whitelist: seq<VenueRef>) {
    exists i :: 0 <= i < |whitelist| && whitelist[i].protocol.Idle?
  }

  /** What the evaluator's indexing needs; every valid policy has it. */
  predicate Indexable(policy: Policy) {
    policy.protocols.whitelist != [] && (policy.chains != [] || HasIdle(policy.protocols.whitelist))
  }

  function FirstIdle(whitelist: seq<VenueRef>): (r: Option<VenueRef>)
    ensures r.Some? ==> r.value in whitelist && r.value.protocol.Idle?
    ensures r.None? <==> !HasIdle(whitelist)
  {
    if whitelist == [] then None
    else if whitelist[0].protocol.Idle? then Some(whitelist[0])
    else
      assert HasIdle(whitelist) ==> HasIdle(whitelist[1..]) by {
        if HasIdle(whitelist) {
          var i :| 0 <= i < |whitelist| && whitelist[i].protocol.Idle?;
          assert whitelist[1..][i - 1] == whitelist[i];
        }
      }
      FirstIdle(whitelist[1..])
  }

  function PickIdle(policy: Policy): VenueRef
    requires Indexable(policy)
  {
    match FirstIdle(policy.protocols.whitelist)
    case Some(v) => v
    case None => VenueRef(policy.chains[0], Idle)
  }

  function CheckSnapshotFreshness(snapshot: Snapshot, now: Time): Option<Decision> {
    if now - snapshot.builtAt > SNAPSHOT_MAX_AGE_MIN * MINUTE then Some(CircuitBreak(SnapshotStale, None)) else None
  }

  function CheckUsdcPeg(policy: Policy, snapshot: Snapshot): Option<Decision>
    requires Indexable(policy)
  {
    if snapshot.usdcUsd < policy.circuitBreakers.usdcPegMin then
      Some(CircuitBreak(UsdcDepeg(snapshot.usdcUsd), Some(PickIdle(policy))))
    else None
  }

  function CheckVenue(policy: Policy, snapshot: Snapshot, v: VenueRef): Option<Decision>
    requires Indexable(policy)
  {
    if v !in snapshot.venues then Some(Escalate(v))
    else if snapshot.venues[v].utilization > policy.circuitBreakers.utilizationMax then
      Some(CircuitBreak(VenueUnhealthy(v, Utilization), Some(PickIdle(policy))))
    else if snapshot.venues[v].tvlDropPct1h > policy.circuitBreakers.tvlDropPct1h then
      Some(CircuitBreak(VenueUnhealthy(v, TvlDrop), Some(PickIdle(policy))))
    else None
  }

  /** The first unhealthy venue with money in it, in map order. */
  function CheckHeldVenueHealth(policy: Policy, snapshot: Snapshot, h: Holdings, order: seq<VenueRef>): Option<Decision>
    requires Indexable(policy)
  {
    if order == [] then None
    else
      var v := order[0];
      if At(h, v) > 0 && !v.protocol.Idle? && CheckVenue(policy, snapshot, v).Some? then CheckVenue(policy, snapshot, v)
      else CheckHeldVenueHealth(policy, snapshot, h, order[1..])
  }

  /** The checks that end an evaluation before any venue is ranked. */
  function Guard(policy: Policy, snapshot: Snapshot, position: Position, order: seq<VenueRef>,
        now: Time): Option<Decision>
    requires Indexable(policy)
  {
    if CheckSnapshotFreshness(snapshot, now).Some? then CheckSnapshotFreshness(snapshot, now)
    else if CheckUsdcPeg(policy, snapshot).Some? then CheckUsdcPeg(policy, snapshot)
    else if CheckHeldVenueHealth(policy, snapshot, position.holdings, order).Some? then
      CheckHeldVenueHealth(policy, snapshot, position.holdings, order)
    else if snapshot.gatewayHealth.Down? then Some(Noop(GatewayDown))
    else if position.actionsToday >= policy.caps.maxActionsPerDay then Some(Noop(DailyQuotaReached))
    else None
  }

  /** `x as u32`: truncation that saturates. */
  function BasisPoints(delta: real): U32 {
    var x := delta * 10000.0;
    if x <= 0.0 then 0 else if x.Floor >= TWO_32 then TWO_32 - 1 else x.Floor
  }

  function UsdcValue(raw: U256): real {
    (if raw < TWO_128 then raw else TWO_128 - 1) as real / 1000000.0
  }

  function GasUsd(snapshot: Snapshot, chain: ChainId): real {
    if chain in snapshot.gasUsdPerUserop then snapshot.gasUsdPerUserop[chain] else 0.0
  }

  function Cost(snapshot: Snapshot, from: VenueRef, to: VenueRef): real {
    GasUsd(snapshot, from.chain) + GasUsd(snapshot, to.chain)
    + if from.chain != to.chain then snapshot.gatewayFeeUsd else 0.0
  }

  function Profit(policy: Policy, snapshot: Snapshot, amount: U256, aprDelta: real): real {
    UsdcValue(amount) * snapshot.usdcUsd * aprDelta * (policy.gas.estimatedHoldDays as real / 365.0)
  }

  predicate InCooldown(policy: Policy, position: Position, v: VenueRef, now: Time) {
    v in position.lastActionAt && now - position.lastActionAt[v] < policy.triggers.minIdleMinutes * MINUTE
  }

  function Min(a: U256, b: U256): U256 {
    if a <= b then a else b
  }

  function MoveAmount(policy: Policy, total: U256, worst: U256, bestCurrent: U256): U256 {
    var cap := MulPct(total, policy.protocols.perProtocolCapPct);
    var room := if bestCurrent < cap then cap - bestCurrent else 0;
    Min(Min(worst, MulPct(total, policy.caps.maxMovePctPerAction)), room)
  }

  function ProposeRebalance(policy: Policy, snapshot: Snapshot, position: Position, order: seq<VenueRef>,
        now: Time): Decision
    requires policy.protocols.whitelist != []
    requires forall v :: v in order ==> v in position.holdings
  {
    var h := position.holdings;
    var total := SumHoldings(h, order);
    if total == 0 then Noop(NoCapital)
    else
      var (best, bestApr) := RankCandidates(policy, snapshot)[0];
      match WorstHolding(policy, snapshot, h, order)
      case None => Noop(NoCapital)
      case Some(worst) =>
        var aprDelta := bestApr - Apr(snapshot, worst);
        if worst == best then Noop(AlreadyAtBestVenue)
        else if BasisPoints(aprDelta) < policy.triggers.aprDeltaBps then Noop(AprDeltaBelowThreshold)
        else if InCooldown(policy, position, best, now) then Noop(DestinationInCooldown)
        else
          var amount := MoveAmount(policy, total, At(h, worst), At(h, best));
          var profit, cost := Profit(policy, snapshot, amount, aprDelta), Cost(snapshot, worst, best);
          if amount == 0 then Noop(BestVenueAtCap)
          else if cost > policy.gas.maxGasUsdPerAction then Noop(GasExceedsCap)
          else if policy.caps.minNetProfitUsd > 0.0 && profit - cost < policy.caps.minNetProfitUsd then Noop(EvBelowThreshold)
          else Act(ActionPlan([Action(worst, best, amount)], profit, cost))
  }

  function Decide(policy: Policy, snapshot: Snapshot, position: Position, order: seq<VenueRef>, now: Time): Decision
    requires Indexable(policy) && IsOrder(order, position.holdings)
  {
    match Guard(policy, snapshot, position, order, now)
    case Some(d) => d
    case None => ProposeRebalance(policy, snapshot, position, order, now)
  }

  function Thoughts(policy: Policy, snapshot: Snapshot, position: Position, order: seq<VenueRef>,
        now: Time): seq<Thought>
    requires Indexable(policy) && IsOrder(order, position.holdings)
  {
    [AuditEntry, PositionSeen]
    + (if Guard(policy, snapshot, position, order, now).None? && SumHoldings(position.holdings, order) != 0
       then [Scan, BestOpportunity] else [])
    + [SessionComplete(Decide(policy, snapshot, position, order, now))]
  }

  /** `evaluate`, with the order in which the holdings map yields its entries. */
  method Evaluate(policy: Policy, snapshot: Snapshot, position: Position, order: seq<VenueRef>, now: Time)
    returns (r: Outcome)
    requires Indexable(policy) && IsOrder(order, position.holdings)
    ensures r == Outcome(Thoughts(policy, snapshot, position, order, now), Decide(policy, snapshot, position, order, now))
  {
    var thoughts := [AuditEntry, PositionSeen];
    var d := CheckSnapshotFreshness(snapshot, now);
    if d.Some? {
      return Finish(thoughts, d.value);
    }
    d := CheckUsdcPeg(policy, snapshot);
    if d.Some? {
      return Finish(thoughts, d.value);
    }
    d := CheckHeldVenueHealth(policy, snapshot, position.holdings, order);
    if d.Some? {
      return Finish(thoughts, d.value);
    }
    if snapshot.gatewayHealth.Down? {
      return Finish(thoughts, Noop(GatewayDown));
    }
    if position.actionsToday >= policy.caps.maxActionsPerDay {
      return Finish(thoughts, Noop(DailyQuotaReached));
    }
    if SumHoldings(position.holdings, order) != 0 {
      thoughts := thoughts + [Scan];
      thoughts := thoughts + [BestOpportunity];
    }
    return Finish(thoughts, ProposeRebalance(policy, snapshot, position, order, now));
  }

  function Finish(thoughts: seq<Thought>, decision: Decision): Outcome {
    Outcome(thoughts + [SessionComplete(decision)], decision)
  }

  // ----- what a decision promises -----

  /** A valid policy is always indexable: evaluation never runs off a whitelist. */
  lemma ValidIsIndexable(policy: Policy)
    requires Valid(policy)
    ensures Indexable(policy)
  {
  }

  /** Every drain target is an idle venue on a chain the policy allows. */
  lemma DrainTargetAllowed(policy: Policy, snapshot: Snapshot, position: Position,
        order: seq<VenueRef>, now: Time)
    requires Valid(policy) && IsOrder(order, position.holdings)
    ensures var d := Decide(policy, snapshot, position, order, now);
            d.CircuitBreak? && d.drainTo.Some? ==> d.drainTo.value.protocol.Idle? && d.drainTo.value.chain in policy.chains
  {
    hide Valid, PickIdle, SumHoldings, MoveAmount, RankCandidates, Profit, Cost, BasisPoints;
    ValidIsIndexable(policy);
    PickIdleAllowed(policy);
    HealthDrains(policy, snapshot, position.holdings, order);
  }

  lemma PickIdleAllowed(policy: Policy)
    requires Valid(policy)
    ensures Indexable(policy) && PickIdle(policy).protocol.Idle? && PickIdle(policy).chain in policy.chains
  {
    var list := policy.protocols.whitelist;
    assert FirstIdle(list).Some? ==> FirstIdle(list).value.chain in policy.chains;
  }

  lemma {:induction false} HealthDrains(policy: Policy, snapshot: Snapshot, h: Holdings, order: seq<VenueRef>)
    requires Indexable(policy)
    ensures var d := CheckHeldVenueHealth(policy, snapshot, h, order);
            d.Some? && d.value.CircuitBreak? ==> d.value.drainTo == Some(PickIdle(policy))
    decreases |order|
  {
    if order != [] {
      HealthDrains(policy, snapshot, h, order[1..]);
    }
  }

  /** The most a venue may hold, and the most one action may move, as the code computes them. */
  function VenueCap(policy: Policy, h: Holdings): U256 {
    MulPct(Total(h) % TWO_256, policy.protocols.perProtocolCapPct)
  }

  function MaxMove(policy: Policy, h: Holdings): U256 {
    MulPct(Total(h) % TWO_256, policy.caps.maxMovePctPerAction)
  }

  /** Both are at most the floored percentage of the capital, and exactly that unless it wraps. */
  lemma PercentagesExact(policy: Policy, h: Holdings)
    ensures VenueCap(policy, h) <= Total(h) * policy.protocols.perProtocolCapPct / 100
    ensures MaxMove(policy, h) <= Total(h) * policy.caps.maxMovePctPerAction / 100
    ensures Total(h) * policy.protocols.perProtocolCapPct < TWO_256 && Total(h) < TWO_256 ==>
              VenueCap(policy, h) == Total(h) * policy.protocols.perProtocolCapPct / 100
    ensures Total(h) * policy.caps.maxMovePctPerAction < TWO_256 && Total(h) < TWO_256 ==>
              MaxMove(policy, h) == Total(h) * policy.caps.maxMovePctPerAction / 100
  {
    hide MulPct, Total;
    PercentageExact(Total(h), policy.protocols.perProtocolCapPct);
    PercentageExact(Total(h), policy.caps.maxMovePctPerAction);
  }

  lemma ModBelow(x: nat, m: nat)
    requires m > 0
    ensures x % m <= x
  {
    SmallMod(x, m);
  }

  lemma PercentageExact(total: nat, pct: U8)
    ensures MulPct(total % TWO_256, pct) <= total * pct / 100
    ensures total < TWO_256 && total * pct < TWO_256 ==> MulPct(total % TWO_256, pct) == total * pct / 100
  {
    var wrapped := total % TWO_256;
    ModBelow(total, TWO_256);
    ModBelow(wrapped * pct, TWO_256);
    MulAtLeast(pct, total, wrapped);
    QuotientMonotone((wrapped * pct) % TWO_256, total * pct, 100);
    SmallMod(total, TWO_256);
    SmallMod(total * pct, TWO_256);
  }

  /** What every planned move satisfies. */
  ghost predicate GoodMove(policy: Policy, snapshot: Snapshot, h: Holdings, a: Action) {
    && a.from != a.to
    && 0 < a.amount <= At(h, a.from)
    && a.amount <= MaxMove(policy, h)
    && At(h, a.to) + a.amount <= VenueCap(policy, h)
    && (a.amount == At(h, a.from) || a.amount == MaxMove(policy, h) || At(h, a.to) + a.amount == VenueCap(policy, h))
    && IsBest(snapshot, policy.protocols.whitelist, a.to)
    && Eligible(policy, h, a.from)
    && (forall v :: v in h && Eligible(policy, h, v) ==> Apr(snapshot, a.from) <= Apr(snapshot, v))
    && Apr(snapshot, a.to) - Apr(snapshot, a.from) >= policy.triggers.aprDeltaBps as real / 10000.0
  }

  /** The amounts of a good move, without the choice of venues. */
  lemma GoodMoveAmounts(policy: Policy, snapshot: Snapshot, h: Holdings, a: Action)
    requires Valid(policy) && GoodMove(policy, snapshot, h, a)
    ensures a.from != a.to && 0 < a.amount <= At(h, a.from)
    ensures a.amount <= MaxMove(policy, h) && At(h, a.to) + a.amount <= VenueCap(policy, h)
    ensures a.amount == At(h, a.from) || a.amount == MaxMove(policy, h) || At(h, a.to) + a.amount == VenueCap(policy, h)
    ensures Apr(snapshot, a.to) > Apr(snapshot, a.from)
  {
    hide At, Apr, MaxMove, VenueCap, IsBest, Eligible, VenuesOk;
  }

  /**
   * Plan bounds and choice: whatever the map order, a decision to act plans one move, as large as
   * the three limits allow, into the best venue and out of a worst eligible one, and its cost is
   * within the policy's gas cap.
   */
  lemma PlanBounds(policy: Policy, snapshot: Snapshot, position: Position, order: seq<VenueRef>,
      now: Time)
    requires Valid(policy) && IsOrder(order, position.holdings)
    requires Decide(policy, snapshot, position, order, now).Act?
    ensures var plan := Decide(policy, snapshot, position, order, now).plan;
            && |plan.actions| == 1
            && GoodMove(policy, snapshot, position.holdings, plan.actions[0])
            && plan.estimatedCostUsd == Cost(snapshot, plan.actions[0].from, plan.actions[0].to)
            && plan.estimatedCostUsd <= policy.gas.maxGasUsdPerAction
  {
    hide ProposeRebalance, IsOrder, GoodMove, Guard, Cost;
    GuardNeverActs(policy, snapshot, position, order, now);
    ProposalIsGood(policy, snapshot, position, order, now);
  }

  lemma ProposalIsGood(policy: Policy, snapshot: Snapshot, position: Position, order: seq<VenueRef>,
      now: Time)
    requires Valid(policy) && IsOrder(order, position.holdings)
    requires ProposeRebalance(policy, snapshot, position, order, now).Act?
    ensures var plan := ProposeRebalance(policy, snapshot, position, order, now).plan;
            && |plan.actions| == 1
            && GoodMove(policy, snapshot, position.holdings, plan.actions[0])
            && plan.estimatedCostUsd == Cost(snapshot, plan.actions[0].from, plan.actions[0].to)
            && plan.estimatedCostUsd <= policy.gas.maxGasUsdPerAction
  {
    hide RankCandidates, SumHoldings, IsBest, MulPct, Profit, Cost, BasisPoints, Total, MaxMove, VenueCap, MoveAmount;
    var h := position.holdings;
    RankHead(policy, snapshot);
    SumIsTotal(h, order);
    var best := RankCandidates(policy, snapshot)[0].0;
    var worst := WorstHolding(policy, snapshot, h, order).value;
    BasisPointsBound(Apr(snapshot, best) - Apr(snapshot, worst), policy.triggers.aprDeltaBps);
    MoveAmountBounds(policy, h, At(h, worst), At(h, best));
  }

  lemma MoveAmountBounds(policy: Policy, h: Holdings, worst: U256, bestCurrent: U256)
    ensures var amount, cap := MoveAmount(policy, Total(h) % TWO_256, worst, bestCurrent), VenueCap(policy, h);
            && amount <= worst && amount <= MaxMove(policy, h)
            && (amount > 0 ==> bestCurrent + amount <= cap)
            && (amount > 0 ==> amount == worst || amount == MaxMove(policy, h) || bestCurrent + amount == cap)
  {
    hide MulPct, Total;
  }

  /** A decision to act plans one move whose cost the policy's gas cap covers, even if sums wrap. */
  lemma ActWithinGasCap(policy: Policy, snapshot: Snapshot, position: Position,
        order: seq<VenueRef>, now: Time)
    requires Indexable(policy) && IsOrder(order, position.holdings)
    requires Decide(policy, snapshot, position, order, now).Act?
    ensures var plan := Decide(policy, snapshot, position, order, now).plan;
            |plan.actions| == 1 && plan.estimatedCostUsd <= policy.gas.maxGasUsdPerAction
  {
    hide RankCandidates, SumHoldings, Guard, MoveAmount, Profit, Cost, BasisPoints;
    GuardNeverActs(policy, snapshot, position, order, now);
  }

  lemma MoveAmountPositive(policy: Policy, h: Holdings, worst: U256, bestCurrent: U256)
    ensures MoveAmount(policy, Total(h) % TWO_256, worst, bestCurrent) > 0
            <==> worst > 0 && MaxMove(policy, h) > 0 && bestCurrent < VenueCap(policy, h)
  {
    hide MulPct, Total;
  }

  lemma BasisPointsBound(delta: real, trigger: U32)
    requires BasisPoints(delta) >= trigger
    ensures trigger > 0 ==> delta >= trigger as real / 10000.0
  {
  }

  lemma GuardNeverActs(policy: Policy, snapshot: Snapshot, position: Position,
        order: seq<VenueRef>, now: Time)
    requires Indexable(policy)
    ensures var d := Guard(policy, snapshot, position, order, now); d.Some? ==> !d.value.Act?
  {
    HealthNeverActs(policy, snapshot, position.holdings, order);
  }

  lemma {:induction false} HealthNeverActs(policy: Policy, snapshot: Snapshot, h: Holdings, order: seq<VenueRef>)
    requires Indexable(policy)
    ensures var d := CheckHeldVenueHealth(policy, snapshot, h, order); d.Some? ==> !d.value.Act?
    decreases |order|
  {
    if order != [] {
      HealthNeverActs(policy, snapshot, h, order[1..]);
    }
  }
}
