/** The risk gate: the last look at a plan, under the policy as it is read then. */
module RiskGate {
  import opened PolicySchema
  import opened PolicyStore
  import opened Evaluator
  import opened Arithmetic

  datatype RejectReason = PolicyPaused | NoActions | CostExceedsCap

  datatype GateDecision = Pass | Reject(reason: RejectReason)

  function ReasonText(reason: RejectReason): string {
    match reason
    case PolicyPaused => "policy is paused"
    case NoActions => "plan has no actions"
    case CostExceedsCap => "estimated cost exceeds policy max_gas_usd_per_action"
  }

  lemma ReasonsTell(reason: RejectReason)
    ensures ReasonText(reason) == "policy is paused" <==> reason == PolicyPaused
    ensures ReasonText(reason) == "plan has no actions" <==> reason == NoActions
  {
    assert |ReasonText(PolicyPaused)| == 16 && |ReasonText(NoActions)| == 19 && |ReasonText(CostExceedsCap)| > 30;
  }

  function Check(policy: Policy, plan: ActionPlan): GateDecision {
    if policy.status.Paused? then Reject(PolicyPaused)
    else if plan.actions == [] then Reject(NoActions)
    else if plan.estimatedCostUsd > policy.gas.maxGasUsdPerAction then Reject(CostExceedsCap)
    else Pass
  }

  /** The policy is active and its gas cap covers the plan. */
  predicate Covers(policy: Policy, plan: ActionPlan) {
    policy.status.Active? && plan.estimatedCostUsd <= policy.gas.maxGasUsdPerAction
  }

  /**
   * Gate safety: let a tick decide to act on the stored policy, and let any puts and status
   * changes happen before the gate reads it again. The plan passes exactly when the re-read policy
   * covers it; a rejection means that the re-read policy is paused or has been replaced, and a
   * replaced policy has a higher version unless the 32-bit counter wrapped.
   */
  lemma {:induction false} GateSafety(m: Policies, ops: seq<Op>, user: Address, snapshot: Snapshot, position: Position,
                                      order: seq<VenueRef>, now: Time)
    requires user in m && Valid(m[user]) && Indexable(m[user]) && IsOrder(order, position.holdings)
    requires Decide(m[user], snapshot, position, order, now).Act?
    ensures var plan, later := Decide(m[user], snapshot, position, order, now).plan, ApplyAll(m, ops);
            && user in later
            && plan.estimatedCostUsd <= m[user].gas.maxGasUsdPerAction
            && (Check(later[user], plan).Pass? <==> Covers(later[user], plan))
            && (Check(later[user], plan).Reject? ==> later[user].status.Paused? || Puts(ops, user) > 0)
            && later[user].version == (m[user].version + Puts(ops, user)) % TWO_32
            && (m[user].version + Puts(ops, user) < TWO_32 && Check(later[user], plan).Reject? ==>
                  later[user].status.Paused? || later[user].version > m[user].version)
  {
    hide Decide, Indexable, IsOrder, Valid;
    ActWithinGasCap(m[user], snapshot, position, order, now);
    VersionCountsPuts(m, ops, user);
    if Puts(ops, user) == 0 {
      OnlyStatusWithoutPuts(m, ops, user);
    }
    if m[user].version + Puts(ops, user) < TWO_32 {
      SmallMod(m[user].version + Puts(ops, user), TWO_32);
    }
  }
}
