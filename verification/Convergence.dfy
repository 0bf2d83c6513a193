/**
 * Repeating evaluation and its planned move, with policy, snapshot and time held fixed and no
 * cooldown or quota in the way: capital is conserved, yield strictly rises, and it comes to rest.
 */
module Convergence {
  import opened PolicySchema
  import opened Arithmetic
  import opened Evaluator

  /** Carrying a planned move out, exactly as planned. */
  function Carry(h: Holdings, a: Action): Holdings
    requires a.amount <= At(h, a.from) && At(h, a.to) + a.amount < TWO_256
  {
    h[a.from := At(h, a.from) - a.amount][a.to := At(h, a.to) + a.amount]
  }

  /** The position the fetcher reports: no action times and no actions counted today. */
  function Fetched(h: Holdings): Position {
    Position(h, map[], 0)
  }

  ghost predicate Plans(policy: Policy, snapshot: Snapshot, now: Time, h: Holdings, order: seq<VenueRef>, a: Action)
    requires Valid(policy)
  {
    ValidIsIndexable(policy);
    && IsOrder(order, h)
    && Decide(policy, snapshot, Fetched(h), order, now).Act?
    && Decide(policy, snapshot, Fetched(h), order, now).plan.actions == [a]
  }

  /** One round: some map order makes the evaluator plan move a, and h2 is h1 after it. */
  ghost predicate Round(policy: Policy, snapshot: Snapshot, now: Time, h1: Holdings, h2: Holdings, a: Action)
    requires Valid(policy)
  {
    && (exists order :: Plans(policy, snapshot, now, h1, order, a))
    && a.amount <= At(h1, a.from)
    && At(h1, a.to) + a.amount < TWO_256
    && h2 == Carry(h1, a)
  }

  /** Consecutive positions and the moves between them. */
  ghost predicate Run(policy: Policy, snapshot: Snapshot, now: Time, hs: seq<Holdings>, moves: seq<Action>)
    requires Valid(policy)
  {
    && |hs| == |moves| + 1
    && forall i :: 0 <= i < |moves| ==> Round(policy, snapshot, now, hs[i], hs[i + 1], moves[i])
  }

  function Yield(snapshot: Snapshot, h: Holdings): real {
    At(h, ARC_IDLE) as real * Apr(snapshot, ARC_IDLE) + At(h, ARC_AAVE) as real * Apr(snapshot, ARC_AAVE)
    + At(h, ARB_IDLE) as real * Apr(snapshot, ARB_IDLE) + At(h, ARB_AAVE) as real * Apr(snapshot, ARB_AAVE)
  }

  function Best(policy: Policy, snapshot: Snapshot): VenueRef
    requires policy.protocols.whitelist != []
  {
    RankCandidates(policy, snapshot)[0].0
  }

  /** A round's move is good, and it goes into the one best venue. */
  lemma RoundIsGood(policy: Policy, snapshot: Snapshot, now: Time, h1: Holdings, h2: Holdings,
        a: Action)
    requires Valid(policy) && Round(policy, snapshot, now, h1, h2, a)
    ensures GoodMove(policy, snapshot, h1, a) && a.to == Best(policy, snapshot)
  {
    hide Decide, GoodMove, RankCandidates;
    var order :| Plans(policy, snapshot, now, h1, order, a);
    ValidIsIndexable(policy);
    PlanBounds(policy, snapshot, Fetched(h1), order, now);
    PlanTarget(policy, snapshot, Fetched(h1), order, now);
  }

  lemma PlanTarget(policy: Policy, snapshot: Snapshot, position: Position, order: seq<VenueRef>,
        now: Time)
    requires Valid(policy) && IsOrder(order, position.holdings)
    requires Decide(policy, snapshot, position, order, now).Act?
    ensures var actions := Decide(policy, snapshot, position, order, now).plan.actions;
            |actions| == 1 && actions[0].to == Best(policy, snapshot)
  {
    hide RankCandidates, SumHoldings, Guard, MoveAmount, Profit, Cost, BasisPoints;
    ValidIsIndexable(policy);
    GuardNeverActs(policy, snapshot, position, order, now);
  }

  lemma CarryAt(h: Holdings, a: Action, v: VenueRef)
    requires a.from != a.to && a.amount <= At(h, a.from) && At(h, a.to) + a.amount < TWO_256
    ensures At(Carry(h, a), v) == if v == a.from then At(h, v) - a.amount
                                  else if v == a.to then At(h, v) + a.amount else At(h, v)
  {
  }

  /** A move conserves the capital. */
  lemma CarryConserves(h: Holdings, a: Action)
    requires a.from != a.to && a.amount <= At(h, a.from) && At(h, a.to) + a.amount < TWO_256
    ensures Total(Carry(h, a)) == Total(h)
  {
    hide Carry, At;
    FourVenues(a.from);
    FourVenues(a.to);
    CarryAt(h, a, ARC_IDLE);
    CarryAt(h, a, ARC_AAVE);
    CarryAt(h, a, ARB_IDLE);
    CarryAt(h, a, ARB_AAVE);
  }

  function Product(x: real, y: real): real {
    x * y
  }

  function Term(snapshot: Snapshot, h: Holdings, v: VenueRef): real {
    Product(At(h, v) as real, Apr(snapshot, v))
  }

  lemma TermMoves(snapshot: Snapshot, h: Holdings, a: Action, v: VenueRef)
    requires a.from != a.to && a.amount <= At(h, a.from) && At(h, a.to) + a.amount < TWO_256
    ensures Term(snapshot, Carry(h, a), v)
            == Term(snapshot, h, v) + if v == a.from then -Product(a.amount as real, Apr(snapshot, v))
                                      else if v == a.to then Product(a.amount as real, Apr(snapshot, v)) else 0.0
  {
    hide Carry, At, Apr;
    CarryAt(h, a, v);
    Distribute(At(h, v) as real, a.amount as real, Apr(snapshot, v));
  }

  lemma Distribute(x: real, y: real, z: real)
    ensures (x + y) * z == x * z + y * z
    ensures (x - y) * z == x * z - y * z
  {
  }

  /** A move raises the yield by the amount moved times the rate gained. */
  lemma CarryYields(snapshot: Snapshot, h: Holdings, a: Action)
    requires a.from != a.to && a.amount <= At(h, a.from) && At(h, a.to) + a.amount < TWO_256
    ensures Yield(snapshot, Carry(h, a))
            == Yield(snapshot, h) + Product(a.amount as real, Apr(snapshot, a.to) - Apr(snapshot, a.from))
  {
    hide Carry, Term, At, Apr, Product, Yield;
    FourVenues(a.from);
    FourVenues(a.to);
    TermMoves(snapshot, h, a, ARC_IDLE);
    TermMoves(snapshot, h, a, ARC_AAVE);
    TermMoves(snapshot, h, a, ARB_IDLE);
    TermMoves(snapshot, h, a, ARB_AAVE);
    YieldTerms(snapshot, h);
    YieldTerms(snapshot, Carry(h, a));
    ProductOfDifference(a.amount as real, Apr(snapshot, a.to), Apr(snapshot, a.from));
  }

  /**
   * The profit a plan expects is what the move adds to the yield of a year, for the days the policy
   * means to hold, at the price of the token, whose units are millionths. An amount that does not fit
   * into 128 bits counts as the largest that does.
   */
  lemma ProfitIsYieldGained(policy: Policy, snapshot: Snapshot, h: Holdings, a: Action)
    requires a.from != a.to && a.amount <= At(h, a.from) && At(h, a.to) + a.amount < TWO_256
    ensures var gain := Apr(snapshot, a.to) - Apr(snapshot, a.from);
            && (a.amount <= 0xFFFF_FFFF_FFFF_FFFF_FFFF_FFFF_FFFF_FFFF ==>
                  Profit(policy, snapshot, a.amount, gain) * 365_000_000.0
                  == (Yield(snapshot, Carry(h, a)) - Yield(snapshot, h)) * snapshot.usdcUsd * policy.gas.estimatedHoldDays as real)
            && (a.amount > 0xFFFF_FFFF_FFFF_FFFF_FFFF_FFFF_FFFF_FFFF ==>
                  Profit(policy, snapshot, a.amount, gain) == Profit(policy, snapshot, 0xFFFF_FFFF_FFFF_FFFF_FFFF_FFFF_FFFF_FFFF, gain))
  {
    hide Carry, At, Apr, Yield;
    CarryYields(snapshot, h, a);
    Scaled(a.amount as real, snapshot.usdcUsd, Apr(snapshot, a.to) - Apr(snapshot, a.from), policy.gas.estimatedHoldDays as real);
  }

  lemma Scaled(amount: real, price: real, gain: real, days: real)
    ensures amount / 1000000.0 * price * gain * (days / 365.0) * 365_000_000.0 == Product(amount, gain) * price * days
  {
    var x, y := amount / 1000000.0, days / 365.0;
    assert x * 1000000.0 == amount && y * 365.0 == days;
    assert Product(amount, gain) * price * days == x * 1000000.0 * gain * price * (y * 365.0);
  }

  lemma ProductOfDifference(x: real, y: real, z: real)
    ensures Product(x, y - z) == Product(x, y) - Product(x, z)
  {
  }

  lemma YieldTerms(snapshot: Snapshot, h: Holdings)
    ensures Yield(snapshot, h) == Term(snapshot, h, ARC_IDLE) + Term(snapshot, h, ARC_AAVE)
                                  + Term(snapshot, h, ARB_IDLE) + Term(snapshot, h, ARB_AAVE)
  {
  }

  /** What one round does. */
  ghost predicate Progress(policy: Policy, snapshot: Snapshot, h1: Holdings, h2: Holdings, a: Action) {
    && Total(h2) == Total(h1)
    && Yield(snapshot, h2) > Yield(snapshot, h1)
    && At(h2, a.to) <= VenueCap(policy, h1)
  }

  lemma RoundProgresses(policy: Policy, snapshot: Snapshot, now: Time, h1: Holdings,
        h2: Holdings, a: Action)
    requires Valid(policy) && Round(policy, snapshot, now, h1, h2, a)
    ensures Progress(policy, snapshot, h1, h2, a)
  {
    hide Carry, Total, Yield, Apr, Plans, GoodMove, Valid, VenueCap, RankCandidates;
    RoundIsGood(policy, snapshot, now, h1, h2, a);
    GoodMoveAmounts(policy, snapshot, h1, a);
    CarryConserves(h1, a);
    CarryYields(snapshot, h1, a);
    CarryAt(h1, a, a.to);
    PositiveProduct(a.amount as real, Apr(snapshot, a.to) - Apr(snapshot, a.from));
  }

  lemma PositiveProduct(x: real, y: real)
    requires x > 0.0 && y > 0.0
    ensures Product(x, y) > 0.0
  {
  }

  // ----- coming to rest -----

  /** 1 if money sits in v and v is not the best venue. */
  function Elsewhere(h: Holdings, best: VenueRef, v: VenueRef): nat {
    if v != best && At(h, v) > 0 then 1 else 0
  }

  function HoldingsElsewhere(h: Holdings, best: VenueRef): nat {
    Elsewhere(h, best, ARC_IDLE) + Elsewhere(h, best, ARC_AAVE) + Elsewhere(h, best, ARB_IDLE) + Elsewhere(h, best, ARB_AAVE)
  }

  function NonEmpty(h: Holdings): nat {
    (if At(h, ARC_IDLE) > 0 then 1 else 0) + (if At(h, ARC_AAVE) > 0 then 1 else 0)
    + (if At(h, ARB_IDLE) > 0 then 1 else 0) + (if At(h, ARB_AAVE) > 0 then 1 else 0)
  }

  function RoomIn(cap: nat, held: nat): nat {
    if held < cap then cap - held else 0
  }

  /** How many moves of full size fit. */
  function FullMoves(room: nat, maxMove: nat): nat {
    if maxMove > 0 then room / maxMove else 0
  }

  /** Moves still possible: holdings left to drain, full-size moves left to make, one last fill. */
  function RoomMoves(room: nat, maxMove: nat): nat {
    FullMoves(room, maxMove) + (if room > 0 then 1 else 0)
  }

  function Potential(policy: Policy, h: Holdings, best: VenueRef): nat {
    HoldingsElsewhere(h, best) + RoomMoves(RoomIn(VenueCap(policy, h), At(h, best)), MaxMove(policy, h))
  }

  lemma DivLess(room: nat, used: nat, maxMove: nat)
    requires 0 < maxMove && used <= room
    ensures (room - used) / maxMove <= room / maxMove
    ensures used == maxMove ==> (room - used) / maxMove == room / maxMove - 1
  {
    if used == maxMove {
      assert room - maxMove == (room / maxMove - 1) * maxMove + room % maxMove;
      DivisionUnique(room - maxMove, maxMove, room / maxMove - 1, room % maxMove);
    } else {
      QuotientMonotone(room - used, room, maxMove);
    }
  }

  lemma ElsewhereMoves(h: Holdings, a: Action, v: VenueRef)
    requires a.from != a.to && 0 < a.amount <= At(h, a.from) && At(h, a.to) + a.amount < TWO_256
    ensures Elsewhere(Carry(h, a), a.to, v)
            == Elsewhere(h, a.to, v) - if v == a.from && a.amount == At(h, a.from) then 1 else 0
  {
    hide Carry, At;
    CarryAt(h, a, v);
  }

  lemma HoldingsElsewhereMove(h: Holdings, a: Action)
    requires a.from != a.to && 0 < a.amount <= At(h, a.from) && At(h, a.to) + a.amount < TWO_256
    ensures HoldingsElsewhere(Carry(h, a), a.to)
            == HoldingsElsewhere(h, a.to) - if a.amount == At(h, a.from) then 1 else 0
  {
    hide Carry, At, Elsewhere;
    FourVenues(a.from);
    ElsewhereMoves(h, a, ARC_IDLE);
    ElsewhereMoves(h, a, ARC_AAVE);
    ElsewhereMoves(h, a, ARB_IDLE);
    ElsewhereMoves(h, a, ARB_AAVE);
  }

  /** Each round lowers the potential: it drains a holding, makes a full-size move, or fills up. */
  lemma RoundLowersPotential(policy: Policy, snapshot: Snapshot, now: Time, h1: Holdings,
        h2: Holdings, a: Action)
    requires Valid(policy) && Round(policy, snapshot, now, h1, h2, a)
    ensures var best := Best(policy, snapshot);
            Potential(policy, h2, best) < Potential(policy, h1, best)
  {
    hide Carry, Total, HoldingsElsewhere, RankCandidates, Plans, Apr, GoodMove;
    var best := Best(policy, snapshot);
    RoundIsGood(policy, snapshot, now, h1, h2, a);
    GoodMoveAmounts(policy, snapshot, h1, a);
    CarryConserves(h1, a);
    CarryAt(h1, a, best);
    HoldingsElsewhereMove(h1, a);
    var room, maxMove := RoomIn(VenueCap(policy, h1), At(h1, best)), MaxMove(policy, h1);
    RoomShrinks(room, a.amount, maxMove);
  }

  lemma RoomShrinks(room: nat, used: nat, maxMove: nat)
    requires 0 < used <= room && used <= maxMove
    ensures RoomMoves(room - used, maxMove) <= RoomMoves(room, maxMove)
    ensures used == maxMove || used == room ==> RoomMoves(room - used, maxMove) < RoomMoves(room, maxMove)
  {
    DivLess(room, used, maxMove);
  }

  /** How many moves a run can make before the evaluator declines to act. */
  function MoveBound(policy: Policy, h: Holdings): nat {
    FullMoves(VenueCap(policy, h), MaxMove(policy, h)) + NonEmpty(h) + 1
  }

  lemma PotentialBounded(policy: Policy, h: Holdings, best: VenueRef)
    ensures Potential(policy, h, best) <= MoveBound(policy, h)
  {
    hide VenueCap, MaxMove;
    var cap, maxMove := VenueCap(policy, h), MaxMove(policy, h);
    var room := RoomIn(cap, At(h, best));
    if maxMove > 0 {
      QuotientMonotone(room, cap, maxMove);
    }
  }

  lemma {:induction false} RunLowersPotential(policy: Policy, snapshot: Snapshot, now: Time, hs: seq<Holdings>,
        moves: seq<Action>)
    requires Valid(policy) && Run(policy, snapshot, now, hs, moves)
    ensures |moves| <= Potential(policy, hs[0], Best(policy, snapshot))
    ensures forall i :: 0 <= i < |moves| ==> Progress(policy, snapshot, hs[i], hs[i + 1], moves[i])
    decreases |moves|
  {
    hide Round, Potential, Progress, RankCandidates, Total, Valid;
    if moves != [] {
      var hs', moves' := hs[1..], moves[1..];
      RoundProgresses(policy, snapshot, now, hs[0], hs[1], moves[0]);
      RoundLowersPotential(policy, snapshot, now, hs[0], hs[1], moves[0]);
      forall i | 0 <= i < |moves'|
        ensures Round(policy, snapshot, now, hs'[i], hs'[i + 1], moves'[i])
      {
        assert Round(policy, snapshot, now, hs[i + 1], hs[i + 2], moves[i + 1]);
      }
      RunLowersPotential(policy, snapshot, now, hs', moves');
      forall i | 0 <= i < |moves|
        ensures Progress(policy, snapshot, hs[i], hs[i + 1], moves[i])
      {
        if i > 0 {
          assert Progress(policy, snapshot, hs'[i - 1], hs'[i], moves'[i - 1]);
        }
      }
    }
  }

  /**
   * Convergence: every run of planned moves, under every map order in every round, conserves the
   * capital, strictly raises the yield, never fills the destination above its cap, and stops
   * within cap / max move + non-empty holdings + 1 moves.
   */
  lemma Converges(policy: Policy, snapshot: Snapshot, now: Time, hs: seq<Holdings>,
        moves: seq<Action>)
    requires Valid(policy) && Run(policy, snapshot, now, hs, moves)
    ensures |moves| <= MoveBound(policy, hs[0])
    ensures forall i :: 0 <= i < |moves| ==> Progress(policy, snapshot, hs[i], hs[i + 1], moves[i])
  {
    hide Progress, Potential, MoveBound, RankCandidates, Valid, Round;
    WhitelistNonEmpty(policy);
    RunLowersPotential(policy, snapshot, now, hs, moves);
    PotentialBounded(policy, hs[0], Best(policy, snapshot));
  }

  /** At rest: no map order makes the evaluator act. */
  ghost predicate Rests(policy: Policy, snapshot: Snapshot, now: Time, h: Holdings)
    requires Valid(policy)
  {
    forall order, a :: !Plans(policy, snapshot, now, h, order, a)
  }

  /** From every position some run of planned moves comes to rest, within the same bound. */
  lemma ComesToRest(policy: Policy, snapshot: Snapshot, now: Time, h: Holdings)
    returns (hs: seq<Holdings>, moves: seq<Action>)
    requires Valid(policy)
    ensures Run(policy, snapshot, now, hs, moves) && hs[0] == h
    ensures Rests(policy, snapshot, now, hs[|moves|]) && |moves| <= MoveBound(policy, h)
  {
    hide Run, MoveBound, Valid, RankCandidates;
    hs, moves := RunToRest(policy, snapshot, now, h);
    Converges(policy, snapshot, now, hs, moves);
  }

  lemma {:induction false} RunToRest(policy: Policy, snapshot: Snapshot, now: Time, h: Holdings)
    returns (hs: seq<Holdings>, moves: seq<Action>)
    requires Valid(policy)
    ensures Run(policy, snapshot, now, hs, moves) && hs[0] == h
    ensures Rests(policy, snapshot, now, hs[|moves|])
    decreases Potential(policy, h, Best(policy, snapshot))
  {
    hide Plans, Potential, RankCandidates, Carry, Progress, Valid, Total;
    WhitelistNonEmpty(policy);
    if Rests(policy, snapshot, now, h) {
      hs, moves := [h], [];
    } else {
      var order, a :| Plans(policy, snapshot, now, h, order, a);
      var h2 := PlanCarries(policy, snapshot, now, h, order, a);
      RoundProgresses(policy, snapshot, now, h, h2, a);
      RoundLowersPotential(policy, snapshot, now, h, h2, a);
      var hs', moves' := RunToRest(policy, snapshot, now, h2);
      hs, moves := [h] + hs', [a] + moves';
      forall i | 0 <= i < |moves|
        ensures Round(policy, snapshot, now, hs[i], hs[i + 1], moves[i])
      {
        if i > 0 {
          assert Round(policy, snapshot, now, hs'[i - 1], hs'[i], moves'[i - 1]);
        }
      }
    }
  }

  lemma PlanCarries(policy: Policy, snapshot: Snapshot, now: Time, h: Holdings,
        order: seq<VenueRef>, a: Action) returns (h2: Holdings)
    requires Valid(policy) && Plans(policy, snapshot, now, h, order, a)
    ensures Round(policy, snapshot, now, h, h2, a)
  {
    hide Decide, GoodMove, RankCandidates, Carry, Total, Valid;
    ValidIsIndexable(policy);
    PlanBounds(policy, snapshot, Fetched(h), order, now);
    GoodMoveAmounts(policy, snapshot, h, a);
    h2 := Carry(h, a);
  }

  lemma WhitelistNonEmpty(policy: Policy)
    requires Valid(policy)
    ensures policy.protocols.whitelist != []
  {
  }
}
