/** A user's rebalancing policy and the checks a policy must pass to be stored. */
module PolicySchema {
  import opened Text
  import opened Arithmetic

  type Address = nat

  datatype ChainId = Arc | ArbitrumSepolia

  datatype ProtocolId = Idle | AaveV3

  datatype VenueRef = VenueRef(chain: ChainId, protocol: ProtocolId)

  datatype PolicyStatus = Active | Paused

  datatype ProtocolsConfig = ProtocolsConfig(whitelist: seq<VenueRef>, perProtocolCapPct: U8)

  datatype TriggersConfig = TriggersConfig(aprDeltaBps: U32, aprLookbackMinutes: U32, minIdleMinutes: U32)

  datatype CapsConfig = CapsConfig(maxMovePctPerAction: U8, maxActionsPerDay: U32, minNetProfitUsd: real)

  datatype GasConfig = GasConfig(estimatedHoldDays: U32, maxGasUsdPerAction: real)

  datatype CircuitBreakersConfig = CircuitBreakersConfig(usdcPegMin: real, utilizationMax: real, tvlDropPct1h: real)

  datatype Policy = Policy(
    version: U32,
    user: Address,
    status: PolicyStatus,
    protocols: ProtocolsConfig,
    chains: seq<ChainId>,
    triggers: TriggersConfig,
    caps: CapsConfig,
    gas: GasConfig,
    circuitBreakers: CircuitBreakersConfig)

  const TWO_32 := 0x1_0000_0000

  type U8 = n: nat | n < 256
  type U32 = n: nat | n < 0x1_0000_0000

  datatype ValidationError =
    | EmptyWhitelist
    | EmptyChainsWhitelist
    | InvalidProtocolCapPct(pct: U8)
    | InvalidMoveCapPct(pct: U8)
    | UnsatisfiableCap(pct: U8, n: nat, total: U32)
    | AprDeltaTooSmall(bps: U32)
    | ZeroLookback
    | ZeroMinIdle
    | ZeroMaxActions
    | InvalidMinProfit(usd: real)
    | ZeroHoldDays
    | InvalidMaxGas(usd: real)
    | InvalidPegMin(value: real)
    | InvalidUtilizationMax(value: real)
    | InvalidTvlDropPct(value: real)
    | VenueChainNotWhitelisted(chain: ChainId, protocol: ProtocolId)
    | DuplicateVenue(chain: ChainId, protocol: ProtocolId)

  /** The cap product as the code computes it: the length is cut to 32 bits and the product wraps. */
  function CapTotal(p: ProtocolsConfig): U32 {
    (p.perProtocolCapPct * (|p.whitelist| % TWO_32)) % TWO_32
  }

  function CheckProtocols(p: ProtocolsConfig): Option<ValidationError> {
    if p.whitelist == [] then Some(EmptyWhitelist)
    else if p.perProtocolCapPct == 0 || p.perProtocolCapPct > 100 then Some(InvalidProtocolCapPct(p.perProtocolCapPct))
    else if CapTotal(p) < 100 then Some(UnsatisfiableCap(p.perProtocolCapPct, |p.whitelist|, CapTotal(p)))
    else None
  }

  function CheckChains(chains: seq<ChainId>): Option<ValidationError> {
    if chains == [] then Some(EmptyChainsWhitelist) else None
  }

  /** Venue i is wrong when it repeats an earlier one, or else when its chain is not whitelisted. */
  function VenueFault(whitelist: seq<VenueRef>, chains: seq<ChainId>, i: nat): Option<ValidationError>
    requires i < |whitelist|
  {
    var v := whitelist[i];
    if v in whitelist[..i] then Some(DuplicateVenue(v.chain, v.protocol))
    else if v.chain !in chains then Some(VenueChainNotWhitelisted(v.chain, v.protocol))
    else None
  }

  ghost predicate VenuesOk(whitelist: seq<VenueRef>, chains: seq<ChainId>) {
    && (forall i, j :: 0 <= i < j < |whitelist| ==> whitelist[i] != whitelist[j])
    && (forall i :: 0 <= i < |whitelist| ==> whitelist[i].chain in chains)
  }

  /** The fault of the first faulty venue from index i on. */
  function CheckVenues(whitelist: seq<VenueRef>, chains: seq<ChainId>, i: nat): Option<ValidationError>
    requires i <= |whitelist|
    decreases |whitelist| - i
  {
    if i == |whitelist| then None
    else if VenueFault(whitelist, chains, i).Some? then VenueFault(whitelist, chains, i)
    else CheckVenues(whitelist, chains, i + 1)
  }

  lemma {:induction false} VenuesAccepted(whitelist: seq<VenueRef>, chains: seq<ChainId>, i: nat)
    requires i <= |whitelist| && VenuesOk(whitelist[..i], chains)
    ensures CheckVenues(whitelist, chains, i) == None <==> VenuesOk(whitelist, chains)
    decreases |whitelist| - i
  {
    if i == |whitelist| {
      assert whitelist[..i] == whitelist;
    } else {
      var v := whitelist[i];
      assert v in whitelist[..i] ==> exists k :: 0 <= k < i && whitelist[k] == v;
      if VenueFault(whitelist, chains, i) == None {
        forall k | 0 <= k < i
          ensures whitelist[..i][k] == whitelist[k]
        {
        }
        VenuesAccepted(whitelist, chains, i + 1);
      }
    }
  }

  /** The loop over the whitelist, with the set of venues seen so far. */
  method ValidateVenues(whitelist: seq<VenueRef>, chains: seq<ChainId>) returns (r: Option<ValidationError>)
    ensures r == CheckVenues(whitelist, chains, 0)
  {
    var seen: set<VenueRef> := {};
    var i := 0;
    while i < |whitelist|
      invariant 0 <= i <= |whitelist|
      invariant seen == (set k | 0 <= k < i :: whitelist[k])
      invariant CheckVenues(whitelist, chains, 0) == CheckVenues(whitelist, chains, i)
    {
      var v := whitelist[i];
      assert v in seen <==> v in whitelist[..i];
      if v in seen {
        return Some(DuplicateVenue(v.chain, v.protocol));
      }
      seen := seen + {v};
      if v.chain !in chains {
        return Some(VenueChainNotWhitelisted(v.chain, v.protocol));
      }
      i := i + 1;
    }
    return None;
  }

  function CheckTriggers(t: TriggersConfig): Option<ValidationError> {
    if t.aprDeltaBps < 10 then Some(AprDeltaTooSmall(t.aprDeltaBps))
    else if t.aprLookbackMinutes == 0 then Some(ZeroLookback)
    else if t.minIdleMinutes == 0 then Some(ZeroMinIdle)
    else None
  }

  function CheckCaps(c: CapsConfig): Option<ValidationError> {
    if c.maxMovePctPerAction == 0 || c.maxMovePctPerAction > 100 then Some(InvalidMoveCapPct(c.maxMovePctPerAction))
    else if c.maxActionsPerDay == 0 then Some(ZeroMaxActions)
    else if c.minNetProfitUsd < 0.0 then Some(InvalidMinProfit(c.minNetProfitUsd))
    else None
  }

  function CheckGas(g: GasConfig): Option<ValidationError> {
    if g.estimatedHoldDays == 0 then Some(ZeroHoldDays)
    else if g.maxGasUsdPerAction <= 0.0 then Some(InvalidMaxGas(g.maxGasUsdPerAction))
    else None
  }

  function CheckBreakers(cb: CircuitBreakersConfig): Option<ValidationError> {
    if cb.usdcPegMin <= 0.0 || cb.usdcPegMin > 1.0 then Some(InvalidPegMin(cb.usdcPegMin))
    else if cb.utilizationMax <= 0.0 || cb.utilizationMax > 1.0 then Some(InvalidUtilizationMax(cb.utilizationMax))
    else if cb.tvlDropPct1h <= 0.0 || cb.tvlDropPct1h > 100.0 then Some(InvalidTvlDropPct(cb.tvlDropPct1h))
    else None
  }

  /** What a policy that may be stored satisfies. */
  ghost predicate Valid(p: Policy) {
    && p.protocols.whitelist != [] && p.chains != []
    && VenuesOk(p.protocols.whitelist, p.chains)
    && 1 <= p.protocols.perProtocolCapPct <= 100
    && p.protocols.perProtocolCapPct * |p.protocols.whitelist| >= 100
    && p.triggers.aprDeltaBps >= 10 && p.triggers.aprLookbackMinutes > 0 && p.triggers.minIdleMinutes > 0
    && 1 <= p.caps.maxMovePctPerAction <= 100 && p.caps.maxActionsPerDay > 0 && p.caps.minNetProfitUsd >= 0.0
    && p.gas.estimatedHoldDays > 0 && p.gas.maxGasUsdPerAction > 0.0
    && 0.0 < p.circuitBreakers.usdcPegMin <= 1.0
    && 0.0 < p.circuitBreakers.utilizationMax <= 1.0
    && 0.0 < p.circuitBreakers.tvlDropPct1h <= 100.0
  }

  /** There are four venues, so a list without repeats has at most four entries. */
  lemma DistinctVenues(whitelist: seq<VenueRef>, chains: seq<ChainId>)
    requires VenuesOk(whitelist, chains)
    ensures |whitelist| <= 4
  {
    var all := {VenueRef(Arc, Idle), VenueRef(Arc, AaveV3), VenueRef(ArbitrumSepolia, Idle), VenueRef(ArbitrumSepolia, AaveV3)};
    DistinctCount(whitelist);
    var listed := set v | v in whitelist;
    forall v | v in listed
      ensures v in all
    {
      assert v == VenueRef(if v.chain.Arc? then Arc else ArbitrumSepolia, if v.protocol.Idle? then Idle else AaveV3);
    }
    SubsetSize(listed, all);
  }

  lemma {:induction false} DistinctCount<T>(xs: seq<T>)
    requires forall i, j :: 0 <= i < j < |xs| ==> xs[i] != xs[j]
    ensures |set x | x in xs| == |xs|
  {
    if xs != [] {
      var last := |xs| - 1;
      DistinctCount(xs[..last]);
      assert (set x | x in xs) == (set x | x in xs[..last]) + {xs[last]};
    }
  }

  lemma SubsetSize<T>(a: set<T>, b: set<T>)
    requires a <= b
    ensures |a| <= |b|
  {
    assert b == a + (b - a);
  }

  /** The first check that fails, in the order the checks run. */
  function Fault(p: Policy): Option<ValidationError> {
    if CheckProtocols(p.protocols).Some? then CheckProtocols(p.protocols)
    else if CheckChains(p.chains).Some? then CheckChains(p.chains)
    else if CheckVenues(p.protocols.whitelist, p.chains, 0).Some? then CheckVenues(p.protocols.whitelist, p.chains, 0)
    else if CheckTriggers(p.triggers).Some? then CheckTriggers(p.triggers)
    else if CheckCaps(p.caps).Some? then CheckCaps(p.caps)
    else if CheckGas(p.gas).Some? then CheckGas(p.gas)
    else CheckBreakers(p.circuitBreakers)
  }

  /**
   * Validation accepts exactly the valid policies. The 32-bit cap product cannot mislead it,
   * because a whitelist long enough to wrap it has repeats.
   */
  lemma ValidationExact(p: Policy)
    ensures Fault(p) == None <==> Valid(p)
  {
    var list := p.protocols.whitelist;
    VenuesAccepted(list, p.chains, 0);
    if VenuesOk(list, p.chains) {
      DistinctVenues(list, p.chains);
      SmallCapTotal(p.protocols);
    }
  }

  lemma SmallCapTotal(p: ProtocolsConfig)
    requires |p.whitelist| <= 4
    ensures CapTotal(p) == p.perProtocolCapPct * |p.whitelist|
  {
    assert p.perProtocolCapPct * |p.whitelist| <= 256 * 4;
  }

  /** `Policy::validate` */
  method Validate(p: Policy) returns (r: Result<(), ValidationError>)
    ensures r == match Fault(p) case None => Ok(()) case Some(e) => Err(e)
    ensures r.Ok? <==> Valid(p)
  {
    hide CheckProtocols, CheckVenues, CheckTriggers, CheckCaps, CheckGas, CheckBreakers, Valid;
    ValidationExact(p);
    var fault := CheckProtocols(p.protocols);
    if fault.Some? {
      return Err(fault.value);
    }
    fault := CheckChains(p.chains);
    if fault.Some? {
      return Err(fault.value);
    }
    fault := ValidateVenues(p.protocols.whitelist, p.chains);
    if fault.Some? {
      return Err(fault.value);
    }
    fault := CheckTriggers(p.triggers);
    if fault.Some? {
      return Err(fault.value);
    }
    fault := CheckCaps(p.caps);
    if fault.Some? {
      return Err(fault.value);
    }
    fault := CheckGas(p.gas);
    if fault.Some? {
      return Err(fault.value);
    }
    fault := CheckBreakers(p.circuitBreakers);
    if fault.Some? {
      return Err(fault.value);
    }
    return Ok(());
  }

  /**
   * Placeable: with the floored caps of a valid policy's n venues, all of any total fits except
   * fewer than n base units.
   */
  lemma CapsPlaceAlmostAll(p: Policy, total: nat)
    requires Valid(p)
    ensures var n, pct := |p.protocols.whitelist|, p.protocols.perProtocolCapPct;
            n * (total * pct / 100) > total - n
  {
    var n, pct := |p.protocols.whitelist|, p.protocols.perProtocolCapPct;
    var cap := total * pct / 100;
    assert 100 * cap > total * pct - 100;
    MulBelow(n, total * pct - 100, 100 * cap);
    assert n * (total * pct - 100) == total * (n * pct) - 100 * n;
    MulAtLeast(total, n * pct, 100);
    assert n * (100 * cap) == 100 * (n * cap);
  }
}
