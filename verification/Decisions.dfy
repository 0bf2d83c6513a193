/**
 * What the evaluator decides, said on the fields of its inputs: for each kind of decision the exact
 * condition under which it is made.
 */
module Decisions {
  import opened Text
  import opened PolicySchema
  import opened Evaluator

  // ----- the conditions that end an evaluation -----

  /** The snapshot is more than five minutes old. */
  predicate Stale(snapshot: Snapshot, now: Time) {
    now - snapshot.builtAt > 300_000_000_000
  }

  predicate Depegged(policy: Policy, snapshot: Snapshot) {
    policy.circuitBreakers.usdcPegMin > snapshot.usdcUsd
  }

  /** There is money in that venue, and it is not idle. */
  predicate Exposed(h: Holdings, v: VenueRef) {
    v.protocol.AaveV3? && v in h && h[v] != 0
  }

  predicate Overused(policy: Policy, snapshot: Snapshot, v: VenueRef) {
    v in snapshot.venues && policy.circuitBreakers.utilizationMax < snapshot.venues[v].utilization
  }

  predicate Draining(policy: Policy, snapshot: Snapshot, v: VenueRef) {
    v in snapshot.venues && policy.circuitBreakers.tvlDropPct1h < snapshot.venues[v].tvlDropPct1h
  }

  predicate Troubled(policy: Policy, snapshot: Snapshot, h: Holdings, v: VenueRef) {
    Exposed(h, v) && (v !in snapshot.venues || Overused(policy, snapshot, v) || Draining(policy, snapshot, v))
  }

  ghost predicate AnyTroubled(policy: Policy, snapshot: Snapshot, h: Holdings) {
    exists v :: v in h && Troubled(policy, snapshot, h, v)
  }

  /** `v` is the first troubled venue in map order. */
  ghost predicate FirstTroubled(policy: Policy, snapshot: Snapshot, h: Holdings, order: seq<VenueRef>, v: VenueRef) {
    exists i :: 0 <= i < |order| && order[i] == v && FirstTroubledAt(policy, snapshot, h, order, i)
  }

  ghost predicate FirstTroubledAt(policy: Policy, snapshot: Snapshot, h: Holdings, order: seq<VenueRef>, i: nat)
    requires i < |order|
  {
    Troubled(policy, snapshot, h, order[i]) && forall j :: 0 <= j < i ==> !Troubled(policy, snapshot, h, order[j])
  }

  /** `v` is the first idle venue of the whitelist, or else the idle venue of the first chain. */
  ghost predicate Drains(policy: Policy, v: VenueRef) {
    var list := policy.protocols.whitelist;
    || (exists i :: 0 <= i < |list| && list[i] == v && v.protocol.Idle? && forall j :: 0 <= j < i ==> list[j].protocol.AaveV3?)
    || (&& (forall j :: 0 <= j < |list| ==> list[j].protocol.AaveV3?)
        && policy.chains != [] && v.protocol.Idle? && v.chain == policy.chains[0])
  }

  /** Neither the snapshot's age nor the peg stops the evaluation. */
  predicate Trusted(policy: Policy, snapshot: Snapshot, now: Time) {
    !Stale(snapshot, now) && !Depegged(policy, snapshot)
  }

  /** Nothing ends the evaluation before a move is looked for. */
  ghost predicate Proceeds(policy: Policy, snapshot: Snapshot, position: Position, now: Time) {
    && Trusted(policy, snapshot, now)
    && !AnyTroubled(policy, snapshot, position.holdings)
    && !snapshot.gatewayHealth.Down?
    && position.actionsToday < policy.caps.maxActionsPerDay
  }

  lemma VenueTroubled(policy: Policy, snapshot: Snapshot, h: Holdings, v: VenueRef)
    requires Indexable(policy)
    ensures Troubled(policy, snapshot, h, v) <==> At(h, v) > 0 && !v.protocol.Idle? && CheckVenue(policy, snapshot, v).Some?
  {
  }

  /** The health check answers for the first troubled venue. */
  lemma {:induction false} HealthFindsFirst(policy: Policy, snapshot: Snapshot, h: Holdings, order: seq<VenueRef>)
    requires Indexable(policy)
    ensures var d := CheckHeldVenueHealth(policy, snapshot, h, order);
            if d.None? then forall i :: 0 <= i < |order| ==> !Troubled(policy, snapshot, h, order[i])
            else exists i :: 0 <= i < |order| && FirstTroubledAt(policy, snapshot, h, order, i)
                             && d == CheckVenue(policy, snapshot, order[i])
    decreases |order|
  {
    hide CheckVenue, Troubled;
    if order != [] {
      var v, rest := order[0], order[1..];
      VenueTroubled(policy, snapshot, h, v);
      if Troubled(policy, snapshot, h, v) {
        assert FirstTroubledAt(policy, snapshot, h, order, 0);
      } else {
        HealthFindsFirst(policy, snapshot, h, rest);
        var d := CheckHeldVenueHealth(policy, snapshot, h, rest);
        if d.Some? {
          var i :| 0 <= i < |rest| && FirstTroubledAt(policy, snapshot, h, rest, i) && d == CheckVenue(policy, snapshot, rest[i]);
          FirstTroubledLater(policy, snapshot, h, order, i);
        } else {
          forall i | 0 <= i < |order|
            ensures !Troubled(policy, snapshot, h, order[i])
          {
            assert i > 0 ==> order[i] == rest[i - 1];
          }
        }
      }
    }
  }

  lemma FirstTroubledLater(policy: Policy, snapshot: Snapshot, h: Holdings, order: seq<VenueRef>, i: nat)
    requires order != [] && !Troubled(policy, snapshot, h, order[0])
    requires i < |order| - 1 && FirstTroubledAt(policy, snapshot, h, order[1..], i)
    ensures FirstTroubledAt(policy, snapshot, h, order, i + 1) && order[i + 1] == order[1..][i]
  {
    hide Troubled;
    forall j | 0 <= j < i + 1
      ensures !Troubled(policy, snapshot, h, order[j])
    {
      assert j > 0 ==> order[j] == order[1..][j - 1];
    }
  }

  lemma FirstTroubledOnce(policy: Policy, snapshot: Snapshot, h: Holdings, order: seq<VenueRef>, v: VenueRef, i: nat)
    requires i < |order| && FirstTroubledAt(policy, snapshot, h, order, i) && FirstTroubled(policy, snapshot, h, order, v)
    ensures v == order[i]
  {
    hide Troubled;
  }

  lemma {:induction false} FirstIdleIsFirst(list: seq<VenueRef>)
    requires HasIdle(list)
    ensures FirstIdle(list).Some?
    ensures exists i :: 0 <= i < |list| && list[i] == FirstIdle(list).value && list[i].protocol.Idle?
                        && forall j :: 0 <= j < i ==> list[j].protocol.AaveV3?
  {
    if list[0].protocol.AaveV3? {
      var k :| 0 <= k < |list| && list[k].protocol.Idle?;
      assert list[1..][k - 1] == list[k];
      FirstIdleIsFirst(list[1..]);
      var i :| 0 <= i < |list| - 1 && list[1..][i] == FirstIdle(list[1..]).value && list[1..][i].protocol.Idle?
               && forall j :: 0 <= j < i ==> list[1..][j].protocol.AaveV3?;
      forall j | 0 <= j < i + 1
        ensures list[j].protocol.AaveV3?
      {
        assert j > 0 ==> list[j] == list[1..][j - 1];
      }
      assert list[i + 1] == list[1..][i];
    }
  }

  lemma PickIdleDrains(policy: Policy)
    requires Indexable(policy)
    ensures Drains(policy, PickIdle(policy))
  {
    if HasIdle(policy.protocols.whitelist) {
      FirstIdleIsFirst(policy.protocols.whitelist);
    }
  }

  /**
   * The decisions that end an evaluation, each with its exact condition: age before peg, peg before
   * the venues' health, that before the gateway and the quota. Of several troubled venues the first
   * in map order decides, and of its troubles missing data, then use, then the drop of its deposits.
   */
  lemma StopsExactlyWhen(policy: Policy, snapshot: Snapshot, position: Position, order: seq<VenueRef>, now: Time)
    requires Indexable(policy) && IsOrder(order, position.holdings)
    ensures var d, h := Decide(policy, snapshot, position, order, now), position.holdings;
            && (d == CircuitBreak(SnapshotStale, None) <==> Stale(snapshot, now))
            && (d.CircuitBreak? && d.breakReason.SnapshotStale? <==> Stale(snapshot, now))
            && (d.CircuitBreak? && d.breakReason == UsdcDepeg(snapshot.usdcUsd)
                <==> !Stale(snapshot, now) && Depegged(policy, snapshot))
            && (d.CircuitBreak? && d.breakReason.UsdcDepeg? <==> !Stale(snapshot, now) && Depegged(policy, snapshot))
            && (d.CircuitBreak? && !d.breakReason.SnapshotStale? ==> d.drainTo.Some? && Drains(policy, d.drainTo.value))
            && (d == Noop(GatewayDown) <==>
                  && Trusted(policy, snapshot, now) && !AnyTroubled(policy, snapshot, h) && snapshot.gatewayHealth.Down?)
            && (d == Noop(DailyQuotaReached) <==>
                  && Trusted(policy, snapshot, now) && !AnyTroubled(policy, snapshot, h)
                  && !snapshot.gatewayHealth.Down? && position.actionsToday >= policy.caps.maxActionsPerDay)
  {
    hide ProposeRebalance, CheckHeldVenueHealth, CheckVenue, Troubled, PickIdle, Drains;
    PickIdleDrains(policy);
    GuardIs(policy, snapshot, position, order, now);
    HealthEnds(policy, snapshot, position.holdings, order);
    ProposalKinds(policy, snapshot, position, order, now);
  }

  /** The same for the decisions about one venue. */
  lemma VenueStopsExactlyWhen(policy: Policy, snapshot: Snapshot, position: Position, order: seq<VenueRef>, now: Time,
      v: VenueRef)
    requires Indexable(policy) && IsOrder(order, position.holdings)
    ensures var d, h := Decide(policy, snapshot, position, order, now), position.holdings;
            var first := Trusted(policy, snapshot, now) && FirstTroubled(policy, snapshot, h, order, v);
            && (d == Escalate(v) <==> first && v !in snapshot.venues)
            && (d.CircuitBreak? && d.breakReason == VenueUnhealthy(v, Utilization) <==> first && Overused(policy, snapshot, v))
            && (d.CircuitBreak? && d.breakReason == VenueUnhealthy(v, TvlDrop)
                <==> first && !Overused(policy, snapshot, v) && Draining(policy, snapshot, v))
  {
    hide ProposeRebalance, CheckHeldVenueHealth, Troubled, PickIdle;
    GuardIs(policy, snapshot, position, order, now);
    HealthIs(policy, snapshot, position.holdings, order, v);
    ProposalKinds(policy, snapshot, position, order, now);
  }

  /** The guard, with its first two checks said on the fields. */
  lemma GuardIs(policy: Policy, snapshot: Snapshot, position: Position, order: seq<VenueRef>, now: Time)
    requires Indexable(policy)
    ensures var g, health := Guard(policy, snapshot, position, order, now),
                             CheckHeldVenueHealth(policy, snapshot, position.holdings, order);
            g == if Stale(snapshot, now) then Some(CircuitBreak(SnapshotStale, None))
                 else if Depegged(policy, snapshot) then Some(CircuitBreak(UsdcDepeg(snapshot.usdcUsd), Some(PickIdle(policy))))
                 else if health.Some? then health
                 else if snapshot.gatewayHealth.Down? then Some(Noop(GatewayDown))
                 else if position.actionsToday >= policy.caps.maxActionsPerDay then Some(Noop(DailyQuotaReached))
                 else None
  {
    hide CheckHeldVenueHealth, PickIdle;
  }

  /** The health check stops an evaluation exactly when some venue is troubled. */
  lemma HealthEnds(policy: Policy, snapshot: Snapshot, h: Holdings, order: seq<VenueRef>)
    requires Indexable(policy) && IsOrder(order, h)
    ensures var d := CheckHeldVenueHealth(policy, snapshot, h, order);
            && (d.Some? <==> AnyTroubled(policy, snapshot, h))
            && (d.Some? ==> d.value.Escalate?
                            || (d.value.CircuitBreak? && d.value.breakReason.VenueUnhealthy? && d.value.drainTo == Some(PickIdle(policy))))
  {
    hide Troubled, PickIdle;
    HealthFindsFirst(policy, snapshot, h, order);
    var d := CheckHeldVenueHealth(policy, snapshot, h, order);
    if d.Some? {
      var i :| 0 <= i < |order| && FirstTroubledAt(policy, snapshot, h, order, i) && d == CheckVenue(policy, snapshot, order[i]);
      assert order[i] in h && Troubled(policy, snapshot, h, order[i]);
    } else {
      forall v | v in h
        ensures !Troubled(policy, snapshot, h, v)
      {
        var i :| 0 <= i < |order| && order[i] == v;
      }
    }
  }

  lemma HealthIs(policy: Policy, snapshot: Snapshot, h: Holdings, order: seq<VenueRef>, v: VenueRef)
    requires Indexable(policy) && IsOrder(order, h)
    ensures var d, first := CheckHeldVenueHealth(policy, snapshot, h, order), FirstTroubled(policy, snapshot, h, order, v);
            && (d == Some(Escalate(v)) <==> first && v !in snapshot.venues)
            && (d.Some? && d.value.CircuitBreak? && d.value.breakReason == VenueUnhealthy(v, Utilization)
                <==> first && Overused(policy, snapshot, v))
            && (d.Some? && d.value.CircuitBreak? && d.value.breakReason == VenueUnhealthy(v, TvlDrop)
                <==> first && !Overused(policy, snapshot, v) && Draining(policy, snapshot, v))
  {
    hide PickIdle, CheckHeldVenueHealth;
    HealthFindsFirst(policy, snapshot, h, order);
    var d := CheckHeldVenueHealth(policy, snapshot, h, order);
    if d.Some? {
      var i :| 0 <= i < |order| && FirstTroubledAt(policy, snapshot, h, order, i) && d == CheckVenue(policy, snapshot, order[i]);
      if FirstTroubled(policy, snapshot, h, order, v) {
        FirstTroubledOnce(policy, snapshot, h, order, v, i);
      }
      assert FirstTroubled(policy, snapshot, h, order, order[i]);
    }
  }

  /** A proposal never looks like a stop. */
  lemma ProposalKinds(policy: Policy, snapshot: Snapshot, position: Position, order: seq<VenueRef>, now: Time)
    requires policy.protocols.whitelist != [] && forall v :: v in order ==> v in position.holdings
    ensures var d := ProposeRebalance(policy, snapshot, position, order, now);
            d.Act? || (d.Noop? && !d.reason.GatewayDown? && !d.reason.DailyQuotaReached?)
  {
    hide RankCandidates, SumHoldings, MoveAmount, Profit, Cost, BasisPoints, WorstHolding, MulPct;
  }

  // ----- the search for a move -----

  /** The rate of a venue: the smoothed one the snapshot lists for AAVE, and nothing else pays. */
  ghost predicate Pays(snapshot: Snapshot, v: VenueRef, rate: real) {
    && (v.protocol.AaveV3? && v in snapshot.venues ==> rate == snapshot.venues[v].aprSmoothed1h)
    && (v.protocol.Idle? || v !in snapshot.venues ==> rate == 0.0)
  }

  /** Money in an idle venue, or in one the policy lists. */
  predicate Movable(policy: Policy, h: Holdings, v: VenueRef) {
    v in h && h[v] != 0 && (v.protocol.AaveV3? ==> v in policy.protocols.whitelist)
  }

  /** `v` is the first in map order of the movable holdings that pay the least. */
  ghost predicate IsWorst(policy: Policy, snapshot: Snapshot, h: Holdings, order: seq<VenueRef>, v: VenueRef) {
    exists i :: 0 <= i < |order| && order[i] == v && FirstMinimum(policy, snapshot, h, order, i)
  }

  ghost predicate FirstMinimum(policy: Policy, snapshot: Snapshot, h: Holdings, order: seq<VenueRef>, i: nat)
    requires i < |order|
  {
    && Movable(policy, h, order[i])
    && (forall j :: 0 <= j < |order| && Movable(policy, h, order[j]) ==> Apr(snapshot, order[i]) <= Apr(snapshot, order[j]))
    && (forall j :: 0 <= j < i && Movable(policy, h, order[j]) ==> Apr(snapshot, order[i]) < Apr(snapshot, order[j]))
  }

  lemma RatesPaid(snapshot: Snapshot, v: VenueRef)
    ensures Pays(snapshot, v, Apr(snapshot, v))
  {
  }

  lemma MovableIsEligible(policy: Policy, h: Holdings, v: VenueRef)
    ensures Movable(policy, h, v) <==> Eligible(policy, h, v)
  {
  }

  /** One more holding leaves the worst as it is, or takes its place. */
  lemma WorstOfMore(policy: Policy, snapshot: Snapshot, h: Holdings, order: seq<VenueRef>, v: VenueRef, i: nat)
    requires i < |order| && FirstMinimum(policy, snapshot, h, order, i)
    ensures !Movable(policy, h, v) || Apr(snapshot, v) >= Apr(snapshot, order[i]) ==>
              FirstMinimum(policy, snapshot, h, order + [v], i)
    ensures Movable(policy, h, v) && Apr(snapshot, v) < Apr(snapshot, order[i]) ==>
              FirstMinimum(policy, snapshot, h, order + [v], |order|)
  {
    hide Movable, Apr;
  }

  lemma WorstOfOne(policy: Policy, snapshot: Snapshot, h: Holdings, order: seq<VenueRef>, v: VenueRef)
    requires Movable(policy, h, v) && forall j :: 0 <= j < |order| ==> !Movable(policy, h, order[j])
    ensures FirstMinimum(policy, snapshot, h, order + [v], |order|)
  {
    hide Movable, Apr;
  }

  /** The search for the worst holding finds it exactly. */
  lemma {:induction false} WorstIsFound(policy: Policy, snapshot: Snapshot, h: Holdings, order: seq<VenueRef>)
    ensures var r := WorstHolding(policy, snapshot, h, order);
            && (r.Some? ==> IsWorst(policy, snapshot, h, order, r.value))
            && (r.None? <==> forall i :: 0 <= i < |order| ==> !Movable(policy, h, order[i]))
  {
    hide Movable, Apr, Eligible, FirstMinimum;
    if order != [] {
      var before, v := order[..|order| - 1], order[|order| - 1];
      assert order == before + [v];
      WorstIsFound(policy, snapshot, h, before);
      MovableIsEligible(policy, h, v);
      var r := WorstHolding(policy, snapshot, h, before);
      if r.Some? {
        var i :| 0 <= i < |before| && before[i] == r.value && FirstMinimum(policy, snapshot, h, before, i);
        WorstOfMore(policy, snapshot, h, before, v, i);
        MinimumMoves(policy, snapshot, h, before, i);
        assert order[i] == before[i];
      } else if Movable(policy, h, v) {
        WorstOfOne(policy, snapshot, h, before, v);
      }
    }
  }

  lemma MinimumMoves(policy: Policy, snapshot: Snapshot, h: Holdings, order: seq<VenueRef>, i: nat)
    requires i < |order| && FirstMinimum(policy, snapshot, h, order, i)
    ensures Movable(policy, h, order[i])
  {
    hide Movable, Apr;
  }

  lemma WorstIsOne(policy: Policy, snapshot: Snapshot, h: Holdings, order: seq<VenueRef>, v: VenueRef, w: VenueRef)
    requires IsWorst(policy, snapshot, h, order, v) && IsWorst(policy, snapshot, h, order, w)
    ensures v == w
  {
    hide Movable, Apr;
  }

  lemma BestIsOne(snapshot: Snapshot, whitelist: seq<VenueRef>, v: VenueRef, w: VenueRef)
    requires IsBest(snapshot, whitelist, v) && IsBest(snapshot, whitelist, w)
    ensures v == w
  {
    hide Apr;
    var i :| 0 <= i < |whitelist| && whitelist[i] == v && FirstMaximum(snapshot, whitelist, i);
    var j :| 0 <= j < |whitelist| && whitelist[j] == w && FirstMaximum(snapshot, whitelist, j);
    assert i == j;
  }

  /** The rate gained, in basis points rounded down, is below the policy's trigger. */
  predicate GainTooSmall(policy: Policy, gain: real) {
    policy.triggers.aprDeltaBps > 0 && gain * 10000.0 < policy.triggers.aprDeltaBps as real
  }

  /** Money was moved into `v` less than the policy's idle minutes ago. */
  predicate CoolingDown(policy: Policy, position: Position, v: VenueRef, now: Time) {
    v in position.lastActionAt && position.lastActionAt[v] + policy.triggers.minIdleMinutes * 60_000_000_000 > now
  }

  /** Nothing may be moved at all, or not into `v`. */
  predicate NoRoom(policy: Policy, h: Holdings, v: VenueRef) {
    MaxMove(policy, h) == 0 || (v in h && h[v] >= VenueCap(policy, h)) || VenueCap(policy, h) == 0
  }

  /** What a move costs: gas on both its chains, which is nothing where the snapshot has no price, and
      the gateway's fee between chains. */
  ghost predicate Costs(snapshot: Snapshot, from: VenueRef, to: VenueRef, cost: real) {
    exists a: real, b: real :: GasIs(snapshot, from.chain, a) && GasIs(snapshot, to.chain, b)
                               && cost == if from.chain == to.chain then a + b else a + b + snapshot.gatewayFeeUsd
  }

  ghost predicate GasIs(snapshot: Snapshot, chain: ChainId, usd: real) {
    && (chain in snapshot.gasUsdPerUserop ==> usd == snapshot.gasUsdPerUserop[chain])
    && (chain !in snapshot.gasUsdPerUserop ==> usd == 0.0)
  }

  lemma MoveCosts(snapshot: Snapshot, from: VenueRef, to: VenueRef, cost: real)
    ensures cost == Cost(snapshot, from, to) <==> Costs(snapshot, from, to, cost)
  {
    var a, b := GasUsd(snapshot, from.chain), GasUsd(snapshot, to.chain);
    assert GasIs(snapshot, from.chain, a) && GasIs(snapshot, to.chain, b);
  }

  lemma GainExactlyWhen(policy: Policy, gain: real)
    ensures BasisPoints(gain) < policy.triggers.aprDeltaBps <==> GainTooSmall(policy, gain)
  {
    var x, t := gain * 10000.0, policy.triggers.aprDeltaBps;
    if x > 0.0 {
      assert x.Floor as real <= x < x.Floor as real + 1.0;
    }
  }

  lemma NoRoomExactlyWhen(policy: Policy, h: Holdings, worst: VenueRef, best: VenueRef)
    requires Movable(policy, h, worst)
    ensures MoveAmount(policy, Total(h) % TWO_256, At(h, worst), At(h, best)) == 0 <==> NoRoom(policy, h, best)
  {
    hide MulPct, Total;
    MoveAmountPositive(policy, h, At(h, worst), At(h, best));
  }

  /** The net profit of a move is below what the policy asks for, if it asks for any. */
  predicate ProfitTooSmall(policy: Policy, profit: real, cost: real) {
    policy.caps.minNetProfitUsd > 0.0 && policy.caps.minNetProfitUsd + cost > profit
  }

  /** There is a holding to move: the wrapped total is not zero, and some holding is movable. */
  ghost predicate Capitalised(policy: Policy, h: Holdings) {
    Total(h) % TWO_256 != 0 && exists v :: v in h && Movable(policy, h, v)
  }

  /**
   * Without capital that can be moved, that is the answer. Otherwise there is one worst holding and
   * one best venue.
   */
  lemma NoCapitalExactlyWhen(policy: Policy, snapshot: Snapshot, position: Position, order: seq<VenueRef>, now: Time)
    requires Indexable(policy) && IsOrder(order, position.holdings)
    ensures var d, h := Decide(policy, snapshot, position, order, now), position.holdings;
            && (d == Noop(NoCapital) <==> Proceeds(policy, snapshot, position, now) && !Capitalised(policy, h))
            && (Capitalised(policy, h) ==> exists v :: IsWorst(policy, snapshot, h, order, v))
            && (exists v :: IsBest(snapshot, policy.protocols.whitelist, v))
  {
    hide RankCandidates, SumHoldings, MoveAmount, Profit, Cost, BasisPoints, WorstHolding, MulPct, Guard, Movable, Total;
    var h := position.holdings;
    SumIsTotal(h, order);
    RankHead(policy, snapshot);
    WorstIsFound(policy, snapshot, h, order);
    NoGuardExactlyWhen(policy, snapshot, position, order, now);
    StopsExactlyWhen(policy, snapshot, position, order, now);
    forall v | v in h
      ensures exists i :: 0 <= i < |order| && order[i] == v
    {
    }
  }

  lemma NoGuardExactlyWhen(policy: Policy, snapshot: Snapshot, position: Position, order: seq<VenueRef>, now: Time)
    requires Indexable(policy) && IsOrder(order, position.holdings)
    ensures var g := Guard(policy, snapshot, position, order, now);
            && (g.None? <==> Proceeds(policy, snapshot, position, now))
            && (g.Some? ==> !g.value.Act? && (g.value.Noop? ==> g.value.reason.GatewayDown? || g.value.reason.DailyQuotaReached?))
  {
    hide CheckHeldVenueHealth, PickIdle, Troubled, Guard;
    GuardIs(policy, snapshot, position, order, now);
    HealthEnds(policy, snapshot, position.holdings, order);
  }

  /** The markets are scanned, and the best one named, exactly when a move is looked for. */
  lemma ThoughtsExactlyWhen(policy: Policy, snapshot: Snapshot, position: Position, order: seq<VenueRef>, now: Time)
    requires Indexable(policy) && IsOrder(order, position.holdings)
    ensures var thoughts, d := Thoughts(policy, snapshot, position, order, now), Decide(policy, snapshot, position, order, now);
            if Proceeds(policy, snapshot, position, now) && Total(position.holdings) % TWO_256 != 0 then
              thoughts == [AuditEntry, PositionSeen, Scan, BestOpportunity, SessionComplete(d)]
            else thoughts == [AuditEntry, PositionSeen, SessionComplete(d)]
  {
    hide Decide, Guard, SumHoldings, Total, Proceeds;
    SumIsTotal(position.holdings, order);
    NoGuardExactlyWhen(policy, snapshot, position, order, now);
  }

  /**
   * The decisions of the search, each with its exact condition, in the order in which they are tried.
   * A move is planned exactly when none of them holds back.
   */
  lemma ActsExactlyWhen(policy: Policy, snapshot: Snapshot, position: Position, order: seq<VenueRef>, now: Time,
      worst: VenueRef, best: VenueRef, cost: real)
    requires Indexable(policy) && IsOrder(order, position.holdings)
    requires Proceeds(policy, snapshot, position, now) && Capitalised(policy, position.holdings)
    requires IsWorst(policy, snapshot, position.holdings, order, worst) && IsBest(snapshot, policy.protocols.whitelist, best)
    requires Costs(snapshot, worst, best, cost)
    ensures var d, h := Decide(policy, snapshot, position, order, now), position.holdings;
            var gain := Apr(snapshot, best) - Apr(snapshot, worst);
            var profit := Profit(policy, snapshot, MoveAmount(policy, Total(h) % TWO_256, At(h, worst), At(h, best)), gain);
            d == if worst == best then Noop(AlreadyAtBestVenue)
                 else if GainTooSmall(policy, gain) then Noop(AprDeltaBelowThreshold)
                 else if CoolingDown(policy, position, best, now) then Noop(DestinationInCooldown)
                 else if NoRoom(policy, h, best) then Noop(BestVenueAtCap)
                 else if cost > policy.gas.maxGasUsdPerAction then Noop(GasExceedsCap)
                 else if ProfitTooSmall(policy, profit, cost) then Noop(EvBelowThreshold)
                 else Act(ActionPlan([Action(worst, best, MoveAmount(policy, Total(h) % TWO_256, At(h, worst), At(h, best)))],
                                     profit, cost))
  {
    hide RankCandidates, SumHoldings, MoveAmount, Profit, Cost, BasisPoints, WorstHolding, MulPct, Guard, Movable, Total, Apr;
    hide NoRoom, GainTooSmall, Costs, Proceeds, IsWorst, IsBest, IsOrder;
    var h := position.holdings;
    OrderIsOrder(h, order);
    SumIsTotal(h, order);
    RankHead(policy, snapshot);
    WorstIsFound(policy, snapshot, h, order);
    SomeWorst(policy, snapshot, h, order, worst);
    WorstIsOne(policy, snapshot, h, order, WorstHolding(policy, snapshot, h, order).value, worst);
    BestIsOne(snapshot, policy.protocols.whitelist, RankCandidates(policy, snapshot)[0].0, best);
    NoGuardExactlyWhen(policy, snapshot, position, order, now);
    GainExactlyWhen(policy, Apr(snapshot, best) - Apr(snapshot, worst));
    NoRoomExactlyWhen(policy, h, worst, best);
    MoveCosts(snapshot, worst, best, cost);
  }

  lemma OrderIsOrder(h: Holdings, order: seq<VenueRef>)
    requires IsOrder(order, h)
    ensures forall v :: v in order ==> v in h
  {
  }

  lemma SomeWorst(policy: Policy, snapshot: Snapshot, h: Holdings, order: seq<VenueRef>, v: VenueRef)
    requires IsWorst(policy, snapshot, h, order, v)
    ensures v in order && Movable(policy, h, v)
    ensures !(forall i :: 0 <= i < |order| ==> !Movable(policy, h, order[i]))
  {
    hide Movable, Apr;
  }

  /** What a position just fetched never meets: neither the cooldown nor the quota of a valid policy. */
  lemma FetchedMeetsNoLimit(policy: Policy, snapshot: Snapshot, h: Holdings, order: seq<VenueRef>, now: Time)
    requires Valid(policy) && IsOrder(order, h)
    ensures Indexable(policy)
    ensures var d := Decide(policy, snapshot, Position(h, map[], 0), order, now);
            d != Noop(DailyQuotaReached) && d != Noop(DestinationInCooldown)
  {
    hide RankCandidates, SumHoldings, MoveAmount, Profit, Cost, BasisPoints, WorstHolding, MulPct, Guard;
    ValidIsIndexable(policy);
    var position := Position(h, map[], 0);
    StopsExactlyWhen(policy, snapshot, position, order, now);
    NoGuardExactlyWhen(policy, snapshot, position, order, now);
  }

  // ----- the plainest move -----

  /** A policy that lists one venue; `pct` is how much of the capital one action may move. */
  function OneVenuePolicy(user: Address, to: VenueRef, pct: U8): Policy {
    Policy(1, user, Active, ProtocolsConfig([to], 100), [to.chain], TriggersConfig(100, 60, 30),
           CapsConfig(pct, 6, 0.0), GasConfig(7, 5.0), CircuitBreakersConfig(0.98, 0.95, 30.0))
  }

  function OneVenueSnapshot(now: Time, to: VenueRef): Snapshot {
    Snapshot(now, 1.0, Healthy, map[to := VenueState(0.05, 0.05, 0.5, 1000000.0, 0.0)], map[], 0.1)
  }

  /** For these holdings, just fetched, the evaluator plans this one move. */
  ghost predicate PlansMove(policy: Policy, snapshot: Snapshot, h: Holdings, order: seq<VenueRef>, now: Time, a: Action) {
    && Indexable(policy) && IsOrder(order, h)
    && var d := Decide(policy, snapshot, Position(h, map[], 0), order, now);
       d.Act? && d.plan.actions == [a]
  }

  lemma OneVenueValid(user: Address, to: VenueRef, pct: U8)
    requires to.protocol.AaveV3? && 1 <= pct <= 100
    ensures Valid(OneVenuePolicy(user, to, pct)) && Indexable(OneVenuePolicy(user, to, pct))
  {
    var policy := OneVenuePolicy(user, to, pct);
    assert policy.protocols.whitelist == [to] && VenuesOk(policy.protocols.whitelist, policy.chains);
  }

  lemma OneVenueProceeds(user: Address, now: Time, from: VenueRef, to: VenueRef, n: U256, pct: U8)
    requires from.protocol.Idle?
    ensures Proceeds(OneVenuePolicy(user, to, pct), OneVenueSnapshot(now, to), Position(map[from := n], map[], 0), now)
  {
    IdleIsUntroubled(OneVenuePolicy(user, to, pct), OneVenueSnapshot(now, to), from, n);
  }

  lemma OneVenueIsBest(now: Time, to: VenueRef)
    ensures IsBest(OneVenueSnapshot(now, to), [to], to)
  {
    assert FirstMaximum(OneVenueSnapshot(now, to), [to], 0);
  }

  /** Such a move gains 500 basis points, costs ten cents at most, and nothing holds it back. */
  lemma OneVenueIsWorth(user: Address, now: Time, from: VenueRef, to: VenueRef, n: U256, pct: U8, profit: real)
    requires from.protocol.Idle? && to.protocol.AaveV3?
    ensures var policy, snapshot := OneVenuePolicy(user, to, pct), OneVenueSnapshot(now, to);
            var cost := if from.chain == to.chain then 0.0 else 0.1;
            && !GainTooSmall(policy, Apr(snapshot, to) - Apr(snapshot, from))
            && !CoolingDown(policy, Position(map[from := n], map[], 0), to, now)
            && Costs(snapshot, from, to, cost) && cost <= policy.gas.maxGasUsdPerAction
            && !ProfitTooSmall(policy, profit, cost)
  {
    var snapshot := OneVenueSnapshot(now, to);
    assert GasIs(snapshot, from.chain, 0.0) && GasIs(snapshot, to.chain, 0.0);
  }

  /** Under such a policy idle money is moved into the venue, as much as one action may move. */
  lemma IdleIsMoved(user: Address, now: Time, from: VenueRef, to: VenueRef, n: U256, pct: U8)
    requires from.protocol.Idle? && to.protocol.AaveV3? && 1 <= pct <= 100
    requires 100 <= n * pct && n * 100 < TWO_256
    ensures n * pct / 100 <= n
    ensures Valid(OneVenuePolicy(user, to, pct))
    ensures PlansMove(OneVenuePolicy(user, to, pct), OneVenueSnapshot(now, to), map[from := n], [from], now,
                      Action(from, to, n * pct / 100))
  {
    hide MoveAmount, Profit, Decide, Total, Valid, Indexable, Proceeds, IsOrder, IsWorst, IsBest, Costs, Movable, Apr, At;
    hide GainTooSmall, CoolingDown, NoRoom, ProfitTooSmall, OneVenueSnapshot;
    var h: Holdings := map[from := n];
    var policy, snapshot, order := OneVenuePolicy(user, to, pct), OneVenueSnapshot(now, to), [from];
    var position := Position(h, map[], 0);
    OneVenueValid(user, to, pct);
    OneVenueProceeds(user, now, from, to, n, pct);
    OneVenueIsBest(now, to);
    IdleAmount(policy, from, to, n);
    IdleIsTheWorst(policy, snapshot, from, n);
    var profit := Profit(policy, snapshot, MoveAmount(policy, n, n, 0), Apr(snapshot, to) - Apr(snapshot, from));
    OneVenueIsWorth(user, now, from, to, n, pct, profit);
    ActsExactlyWhen(policy, snapshot, position, order, now, from, to, if from.chain == to.chain then 0.0 else 0.1);
  }

  lemma IdleIsTheWorst(policy: Policy, snapshot: Snapshot, from: VenueRef, n: U256)
    requires from.protocol.Idle? && n > 0
    ensures var h: Holdings := map[from := n];
            IsOrder([from], h) && IsWorst(policy, snapshot, h, [from], from) && Movable(policy, h, from)
  {
    var h: Holdings := map[from := n];
    assert FirstMinimum(policy, snapshot, h, [from], 0);
  }

  lemma IdleIsUntroubled(policy: Policy, snapshot: Snapshot, from: VenueRef, n: U256)
    requires from.protocol.Idle?
    ensures !AnyTroubled(policy, snapshot, map[from := n])
  {
  }

  lemma IdleAmount(policy: Policy, from: VenueRef, to: VenueRef, n: U256)
    requires from.protocol.Idle? && to.protocol.AaveV3?
    requires policy.protocols.perProtocolCapPct == 100 && 1 <= policy.caps.maxMovePctPerAction <= 100
    requires 100 <= n * policy.caps.maxMovePctPerAction && n * 100 < TWO_256
    ensures var h: Holdings := map[from := n];
            && Total(h) % TWO_256 == n && At(h, from) == n && At(h, to) == 0
            && MoveAmount(policy, n, n, 0) == n * policy.caps.maxMovePctPerAction / 100 <= n && n > 0
            && !NoRoom(policy, h, to)
  {
    var h: Holdings := map[from := n];
    var pct := policy.caps.maxMovePctPerAction;
    FourVenues(from);
    assert Total(h) == n;
    Arithmetic.MulAtLeast(n, 100, pct);
    PercentageExact(n, pct);
    PercentageExact(n, 100);
    Arithmetic.SmallMod(n, TWO_256);
    assert n * 100 / 100 == n;
    Arithmetic.QuotientMonotone(n * pct, n * 100, 100);
    assert n * pct / 100 >= 1;
  }
}
