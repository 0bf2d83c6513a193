/**
 * Two turns of one user at once. A tick on demand can run beside the cron cycle, and nothing orders
 * their steps: each turn puts the position it fetched, later reads a position and a policy and
 * decides, and later reads the policy again at the gate. Other tasks put positions and change
 * policies in between.
 */
module ConcurrentTurns {
  import opened Text
  import opened PolicySchema
  import opened PolicyStore
  import opened Evaluator
  import opened RiskGate
  import opened Decisions

  datatype Event =
    | PutPosition(position: Position)
    | ChangePolicy(op: Op)
    | TurnDecides
    | TurnGates

  datatype World = World(policies: Policies, position: Position)

  function Happens(w: World, e: Event): World {
    match e
    case PutPosition(position) => w.(position := position)
    case ChangePolicy(op) => w.(policies := Apply(w.policies, op))
    case _ => w
  }

  /** The stores after the first k events. */
  function After(w: World, events: seq<Event>, k: nat): World
    requires k <= |events|
  {
    if k == 0 then w else Happens(After(w, events, k - 1), events[k - 1])
  }

  /** Which put the position comes from that is stored after the first k events. */
  function LastPut(events: seq<Event>, k: nat): Option<nat>
    requires k <= |events|
  {
    if k == 0 then None else if events[k - 1].PutPosition? then Some(k - 1) else LastPut(events, k - 1)
  }

  /** The policy changes among events i to j. */
  function OpsIn(events: seq<Event>, i: nat, j: nat): seq<Op>
    requires i <= j <= |events|
  {
    if i == j then [] else OpsIn(events, i, j - 1) + if events[j - 1].ChangePolicy? then [events[j - 1].op] else []
  }

  lemma {:induction false} LastPutIsLatest(events: seq<Event>, k: nat)
    requires k <= |events|
    ensures var last := LastPut(events, k);
            && (last.Some? ==> last.value < k && events[last.value].PutPosition?)
            && forall i :: 0 <= i < k && events[i].PutPosition? ==> last.Some? && i <= last.value
  {
    if k > 0 {
      LastPutIsLatest(events, k - 1);
    }
  }

  /** Two decisions read one and the same put exactly when no position is put between them. */
  lemma {:induction false} SamePutExactlyWhen(events: seq<Event>, d: nat, e: nat)
    requires d <= e <= |events|
    ensures LastPut(events, d) == LastPut(events, e) <==> forall i :: d <= i < e ==> !events[i].PutPosition?
  {
    LastPutIsLatest(events, d);
    LastPutIsLatest(events, e);
    if forall i :: d <= i < e ==> !events[i].PutPosition? {
      var before, after := LastPut(events, d), LastPut(events, e);
      assert after.Some? ==> after.value < d;
    }
  }

  /**
   * Two turns that both fetched, with no other task putting a position: they act on one position
   * exactly when each had put its own before the other decided.
   */
  lemma {:induction false} FetchedTurnsShareExactlyWhen(events: seq<Event>, put1: nat, decide1: nat, put2: nat, decide2: nat)
    requires put1 < decide1 < |events| && put2 < decide2 < |events| && put1 != put2
    requires events[put1].PutPosition? && events[put2].PutPosition?
    requires forall i :: 0 <= i < |events| && events[i].PutPosition? ==> i == put1 || i == put2
    ensures LastPut(events, decide1) == LastPut(events, decide2) <==> put1 < decide2 && put2 < decide1
  {
    LastPutIsLatest(events, decide1);
    LastPutIsLatest(events, decide2);
  }

  lemma {:induction false} ApplyAllLast(m: Policies, ops: seq<Op>, op: Op)
    ensures ApplyAll(m, ops + [op]) == Apply(ApplyAll(m, ops), op)
    decreases |ops|
  {
    hide Apply;
    if ops == [] {
      assert (ops + [op])[1..] == [];
    } else {
      assert (ops + [op])[1..] == ops[1..] + [op];
      ApplyAllLast(Apply(m, ops[0]), ops[1..], op);
    }
  }

  lemma {:induction false} ChangesBetween(w: World, events: seq<Event>, i: nat, j: nat)
    requires i <= j <= |events|
    ensures After(w, events, j).policies == ApplyAll(After(w, events, i).policies, OpsIn(events, i, j))
    decreases j - i
  {
    hide Apply;
    if i < j {
      ChangesBetween(w, events, i, j - 1);
      var ops := OpsIn(events, i, j - 1);
      if events[j - 1].ChangePolicy? {
        ApplyAllLast(After(w, events, i).policies, ops, events[j - 1].op);
      } else {
        assert ops + [] == ops;
      }
    }
  }

  /** What a turn decides on its own: its snapshot, its clock, and the map order it meets. */
  datatype View = View(snapshot: Snapshot, order: seq<VenueRef>, now: Time)

  /** The turn that decides at event d acts. */
  ghost predicate ActsAt(w: World, events: seq<Event>, user: Address, d: nat, v: View)
    requires d <= |events|
  {
    var seen := After(w, events, d);
    && user in seen.policies && Valid(seen.policies[user]) && Indexable(seen.policies[user])
    && seen.policies[user].status.Active?
    && IsOrder(v.order, seen.position.holdings)
    && Decide(seen.policies[user], v.snapshot, seen.position, v.order, v.now).Act?
  }

  function PlanAt(w: World, events: seq<Event>, user: Address, d: nat, v: View): ActionPlan
    requires d <= |events| && ActsAt(w, events, user, d, v)
  {
    var seen := After(w, events, d);
    Decide(seen.policies[user], v.snapshot, seen.position, v.order, v.now).plan
  }

  /** The turn that decides at d and meets the gate at g executes its plan. */
  ghost predicate ExecutesAt(w: World, events: seq<Event>, user: Address, d: nat, g: nat, v: View)
    requires d <= g <= |events|
  {
    && ActsAt(w, events, user, d, v)
    && user in After(w, events, g).policies
    && Check(After(w, events, g).policies[user], PlanAt(w, events, user, d, v)).Pass?
  }

  /** The gate keeps its promise for each turn whatever the other turn and other tasks do. */
  lemma EachTurnIsGated(w: World, events: seq<Event>, user: Address, d: nat, g: nat, v: View)
    requires d <= g <= |events| && ActsAt(w, events, user, d, v)
    ensures var gated := After(w, events, g).policies;
            && user in gated
            && (ExecutesAt(w, events, user, d, g, v) <==> Covers(gated[user], PlanAt(w, events, user, d, v)))
            && (!ExecutesAt(w, events, user, d, g, v) ==>
                  gated[user].status.Paused? || Puts(OpsIn(events, d, g), user) > 0)
  {
    hide Decide, Valid, Indexable, IsOrder, ApplyAll;
    var seen := After(w, events, d);
    ChangesBetween(w, events, d, g);
    GateSafety(seen.policies, OpsIn(events, d, g), user, v.snapshot, seen.position, v.order, v.now);
  }

  /**
   * When two turns spend one position: both execute plans made from the same put exactly when both
   * decide to act, no position is put between their decisions, and each gate reads a policy that
   * covers its plan. Nothing else stops them.
   */
  lemma SpendTwiceExactlyWhen(w: World, events: seq<Event>, user: Address, d1: nat, g1: nat, v1: View, d2: nat, g2: nat,
      v2: View)
    requires d1 <= d2 && d1 <= g1 <= |events| && d2 <= g2 <= |events|
    ensures ExecutesAt(w, events, user, d1, g1, v1) && ExecutesAt(w, events, user, d2, g2, v2)
            && LastPut(events, d1) == LastPut(events, d2)
            <==> && ActsAt(w, events, user, d1, v1) && ActsAt(w, events, user, d2, v2)
                 && (forall i :: d1 <= i < d2 ==> !events[i].PutPosition?)
                 && user in After(w, events, g1).policies && user in After(w, events, g2).policies
                 && Covers(After(w, events, g1).policies[user], PlanAt(w, events, user, d1, v1))
                 && Covers(After(w, events, g2).policies[user], PlanAt(w, events, user, d2, v2))
  {
    hide After, ActsAt, Decide, LastPut;
    SamePutExactlyWhen(events, d1, d2);
    if ActsAt(w, events, user, d1, v1) && ActsAt(w, events, user, d2, v2) {
      EachTurnIsGated(w, events, user, d1, g1, v1);
      EachTurnIsGated(w, events, user, d2, g2, v2);
    }
  }

  // ----- a schedule in which it happens -----

  const ALL := 1000000

  function HeldIdle(): Position {
    Position(map[ARC_IDLE := ALL], map[], 0)
  }

  /** Both turns put what they fetched, both decide, both pass the gate: all the money moves twice. */
  lemma AllIdleIsSpentTwice(user: Address, now: Time)
    ensures var w := World(map[user := OneVenuePolicy(user, ARC_AAVE, 100)], HeldIdle());
            var events := [PutPosition(HeldIdle()), PutPosition(HeldIdle()), TurnDecides, TurnDecides, TurnGates, TurnGates];
            var v := View(OneVenueSnapshot(now, ARC_AAVE), [ARC_IDLE], now);
            && ExecutesAt(w, events, user, 2, 4, v) && ExecutesAt(w, events, user, 3, 5, v)
            && PlanAt(w, events, user, 2, v).actions == PlanAt(w, events, user, 3, v).actions
               == [Action(ARC_IDLE, ARC_AAVE, ALL)]
            && LastPut(events, 2) == LastPut(events, 3)
            && At(HeldIdle().holdings, ARC_IDLE) < ALL + ALL
  {
    hide Decide, Valid, Indexable, IsOrder;
    var w := World(map[user := OneVenuePolicy(user, ARC_AAVE, 100)], HeldIdle());
    var events := [PutPosition(HeldIdle()), PutPosition(HeldIdle()), TurnDecides, TurnDecides, TurnGates, TurnGates];
    var v := View(OneVenueSnapshot(now, ARC_AAVE), [ARC_IDLE], now);
    IdleIsMoved(user, now, ARC_IDLE, ARC_AAVE, ALL, 100);
    NothingChanges(w, events, 5);
    NothingChanges(w, events, 4);
    NothingChanges(w, events, 3);
    NothingChanges(w, events, 2);
    SamePutExactlyWhen(events, 2, 3);
    EachTurnIsGated(w, events, user, 2, 4, v);
    EachTurnIsGated(w, events, user, 3, 5, v);
    ActWithinGasCap(OneVenuePolicy(user, ARC_AAVE, 100), OneVenueSnapshot(now, ARC_AAVE), HeldIdle(), [ARC_IDLE], now);
  }

  lemma {:induction false} NothingChanges(w: World, events: seq<Event>, k: nat)
    requires k <= |events|
    requires forall i :: 0 <= i < k ==> !events[i].ChangePolicy? && (events[i].PutPosition? ==> events[i].position == w.position)
    ensures After(w, events, k) == w
  {
    if k > 0 {
      NothingChanges(w, events, k - 1);
    }
  }
}
