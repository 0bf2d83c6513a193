/** Sending a burn intent to the gateway until its indexer has caught up, within a time budget. */
module GatewayRetry {
  import opened Text

  const SECOND := 1_000_000_000
  const RETRY_BUDGET := 60 * SECOND

  type SignedIntent = string
  type Attestation = string

  /** What the gateway replies to the k-th transfer call of a run. */
  type Gateway = nat -> Result<Attestation, string>

  /** How long the k-th transfer call takes, and by how much the k-th sleep overruns. */
  type Delay = nat -> nat

  predicate DelegateNotAuthorized(e: string) {
    Contains(e, "Signer is not authorized")
  }

  predicate InsufficientBalance(e: string) {
    Contains(e, "Insufficient balance for depositor")
  }

  function Backoff(sleeps: nat): nat {
    if sleeps == 0 then 2 * SECOND
    else
      var doubled := Backoff(sleeps - 1) * 2;
      if doubled <= 15 * SECOND then doubled else 15 * SECOND
  }

  function Slept(sleeps: nat): nat {
    if sleeps == 0 then 0 else Slept(sleeps - 1) + Backoff(sleeps - 1)
  }

  /** Six sleeps fit into the budget, taking 59 of its 60 seconds; seven do not. */
  lemma {:induction false} SleepsWithinBudget(sleeps: nat)
    ensures Slept(sleeps) <= RETRY_BUDGET <==> sleeps <= 6
    ensures Slept(6) == 59 * SECOND
  {
    assert Backoff(0) == 2 * SECOND && Slept(1) == 2 * SECOND;
    assert Backoff(1) == 4 * SECOND && Slept(2) == 6 * SECOND;
    assert Backoff(2) == 8 * SECOND && Slept(3) == 14 * SECOND;
    assert Backoff(3) == 15 * SECOND && Slept(4) == 29 * SECOND;
    assert Backoff(4) == 15 * SECOND && Slept(5) == 44 * SECOND;
    assert Backoff(5) == 15 * SECOND && Slept(6) == 59 * SECOND;
    assert Backoff(6) == 15 * SECOND && Slept(7) == 74 * SECOND;
    if sleeps >= 7 {
      SleptMonotone(7, sleeps);
    } else {
      SleptMonotone(sleeps, 6);
    }
  }

  lemma {:induction false} SleptMonotone(a: nat, b: nat)
    requires a <= b
    ensures Slept(a) <= Slept(b)
  {
    if a < b {
      SleptMonotone(a, b - 1);
    }
  }

  /** What a run sent and waited; `elapsed` is the clock of its retry loop when the run ended. */
  datatype Traffic = Traffic(calls: seq<SignedIntent>, authorisations: nat, sleeps: seq<nat>, elapsed: nat)

  function Sum(xs: seq<nat>): nat {
    if xs == [] then 0 else Sum(xs[..|xs| - 1]) + xs[|xs| - 1]
  }

  /** The first n of these delays together. */
  function SumOf(f: Delay, n: nat): nat {
    if n == 0 then 0 else SumOf(f, n - 1) + f(n - 1)
  }

  // ----- when a run ends, said on replies and delays alone -----

  predicate Short(reply: Result<Attestation, string>) {
    reply.Err? && InsufficientBalance(reply.error)
  }

  /** The first call sends the run into the retry loop: for want of a delegate that could be
      authorised, or of balance. */
  predicate EntersLoop(gateway: Gateway, authorize: Result<(), string>) {
    var first := gateway(0);
    && first.Err?
    && (if DelegateNotAuthorized(first.error) then authorize.Ok? else InsufficientBalance(first.error))
  }

  /** The loop's clock when its n-th call has been answered: n calls, and the sleeps between them. */
  function Clock(latency: Delay, overrun: Delay, n: nat): nat
    requires n >= 1
  {
    SumOf(latency, n) + Slept(n - 1) + SumOf(overrun, n - 1)
  }

  /** Another back-off behind the n-th call would end within sixty seconds. */
  predicate Affordable(latency: Delay, overrun: Delay, n: nat)
    requires n >= 1
  {
    Clock(latency, overrun, n) + Backoff(n - 1) <= 60_000_000_000
  }

  /** The n-th call is the loop's last: the first that is not short of balance or leaves no time to sleep. */
  ghost predicate EndsAt(gateway: Gateway, latency: Delay, overrun: Delay, n: nat) {
    && n >= 1
    && (!Short(gateway(n)) || !Affordable(latency, overrun, n))
    && forall k :: 1 <= k < n ==> Short(gateway(k)) && Affordable(latency, overrun, k)
  }

  /** The loop gives up at its n-th call: all calls were short of balance, and the time ran out there first. */
  ghost predicate GivesUpAt(gateway: Gateway, latency: Delay, overrun: Delay, n: nat) {
    && n >= 1
    && (forall k :: 1 <= k <= n ==> Short(gateway(k)))
    && !Affordable(latency, overrun, n)
    && forall k :: 1 <= k < n ==> Affordable(latency, overrun, k)
  }

  /** All that a run did, and why it ended with `r`. */
  ghost predicate Accounted(r: Result<Attestation, string>, t: Traffic, gateway: Gateway, authorize: Result<(), string>,
                            latency: Delay, overrun: Delay, signed: SignedIntent)
  {
    var first, n := gateway(0), |t.calls| - 1;
    && n >= 0 && (forall i :: 0 <= i < |t.calls| ==> t.calls[i] == signed)
    && t.authorisations == (if first.Err? && DelegateNotAuthorized(first.error) then 1 else 0)
    && if EntersLoop(gateway, authorize) then
         && EndsAt(gateway, latency, overrun, n) && r == gateway(n)
         && |t.sleeps| == n - 1 && (forall k :: 0 <= k < |t.sleeps| ==> t.sleeps[k] == Backoff(k))
         && t.elapsed == SumOf(latency, n) + Slept(|t.sleeps|) + SumOf(overrun, |t.sleeps|)
       else
         && n == 0 && t.sleeps == [] && t.elapsed == 0
         && r == if t.authorisations == 1 && authorize.Err? then Err(authorize.error) else first
  }

  /** Every loop ends by its seventh call, so a run makes at most eight; its sleeps fit the budget. */
  lemma LoopEndsEarly(gateway: Gateway, latency: Delay, overrun: Delay, n: nat)
    requires EndsAt(gateway, latency, overrun, n)
    ensures n <= 7 && Slept(n - 1) <= RETRY_BUDGET
  {
    hide Backoff, Slept, InsufficientBalance;
    if n > 1 {
      assert Affordable(latency, overrun, n - 1);
      NextSleep(n - 2);
    }
    SleepsWithinBudget(n - 1);
  }

  lemma {:induction false} SleepsSum(sleeps: seq<nat>)
    requires forall k :: 0 <= k < |sleeps| ==> sleeps[k] == Backoff(k)
    ensures Sum(sleeps) == Slept(|sleeps|)
  {
    hide Backoff;
    if sleeps != [] {
      SleepsSum(sleeps[..|sleeps| - 1]);
    }
  }

  /** There is one call at most at which the loop can end. */
  lemma EndsOnce(gateway: Gateway, latency: Delay, overrun: Delay, n: nat, m: nat)
    requires EndsAt(gateway, latency, overrun, n) && EndsAt(gateway, latency, overrun, m)
    ensures n == m
  {
    hide Clock, Backoff, InsufficientBalance;
  }

  /** With prompt replies and sleeps, and a balance that never shows, the loop makes seven calls. */
  lemma PromptRunGivesUpAtSeven(gateway: Gateway, latency: Delay, overrun: Delay)
    requires forall k :: latency(k) == 0 && overrun(k) == 0
    requires forall k :: 1 <= k <= 7 ==> Short(gateway(k))
    ensures GivesUpAt(gateway, latency, overrun, 7) && EndsAt(gateway, latency, overrun, 7)
    ensures Clock(latency, overrun, 7) == 59_000_000_000
  {
    hide InsufficientBalance, Backoff, Slept;
    forall n: nat
      ensures SumOf(latency, n) == 0 && SumOf(overrun, n) == 0
    {
      NoDelay(latency, n);
      NoDelay(overrun, n);
    }
    forall k: nat | 1 <= k <= 7
      ensures Affordable(latency, overrun, k) <==> k < 7
    {
      NextSleep(k - 1);
      SleepsWithinBudget(k);
    }
    SleepsWithinBudget(6);
  }

  lemma {:induction false} NoDelay(f: Delay, n: nat)
    requires forall k :: f(k) == 0
    ensures SumOf(f, n) == 0
  {
    if n > 0 {
      NoDelay(f, n - 1);
    }
  }

  /** Which error texts count as which: those that contain the phrase, wherever it stands. */
  lemma ErrorsRecognised(e: string)
    ensures InsufficientBalance(e) <==> exists a: string, b: string :: e == a + "Insufficient balance for depositor" + b
    ensures DelegateNotAuthorized(e) <==> exists a: string, b: string :: e == a + "Signer is not authorized" + b
  {
    ContainsExactlyWhen(e, "Insufficient balance for depositor");
    ContainsExactlyWhen(e, "Signer is not authorized");
  }

  // ----- the run -----

  /** Before the loop's next call: `attempt` calls and sleeps lie behind it. */
  ghost predicate Retrying(t: Traffic, gateway: Gateway, latency: Delay, overrun: Delay, signed: SignedIntent, attempt: nat,
                           elapsed: nat)
  {
    && |t.sleeps| == attempt && |t.calls| == attempt + 1
    && (forall i :: 0 <= i < |t.calls| ==> t.calls[i] == signed)
    && (forall k :: 0 <= k < attempt ==> t.sleeps[k] == Backoff(k))
    && (forall k :: 1 <= k <= attempt ==> Short(gateway(k)) && Affordable(latency, overrun, k))
    && elapsed == SumOf(latency, attempt) + Slept(attempt) + SumOf(overrun, attempt)
  }

  lemma RetryingBriefly(t: Traffic, gateway: Gateway, latency: Delay, overrun: Delay, signed: SignedIntent, attempt: nat,
      elapsed: nat)
    requires Retrying(t, gateway, latency, overrun, signed, attempt, elapsed)
    ensures attempt <= 6
  {
    hide Backoff, Slept, Short;
    if attempt >= 1 {
      assert Affordable(latency, overrun, attempt);
      NextSleep(attempt - 1);
    }
    SleepsWithinBudget(attempt);
  }

  lemma RetryEnds(t: Traffic, gateway: Gateway, authorize: Result<(), string>, latency: Delay, overrun: Delay,
      signed: SignedIntent, attempt: nat, before: nat)
    requires Retrying(t, gateway, latency, overrun, signed, attempt, before)
    requires EntersLoop(gateway, authorize)
    requires t.authorisations == if DelegateNotAuthorized(gateway(0).error) then 1 else 0
    requires !Short(gateway(attempt + 1)) || before + latency(attempt) + Backoff(attempt) > RETRY_BUDGET
    ensures Accounted(gateway(attempt + 1), t.(calls := t.calls + [signed], elapsed := before + latency(attempt)), gateway,
                      authorize, latency, overrun, signed)
  {
    hide Backoff, Slept, DelegateNotAuthorized, InsufficientBalance, SumOf, Short, EntersLoop;
    NextSum(latency, attempt);
    var n := attempt + 1;
    assert Clock(latency, overrun, n) == before + latency(attempt);
    assert EndsAt(gateway, latency, overrun, n);
    FirstShort(gateway, authorize);
  }

  lemma FirstShort(gateway: Gateway, authorize: Result<(), string>)
    requires EntersLoop(gateway, authorize)
    ensures gateway(0).Err?
  {
  }

  lemma RetryGoesOn(t: Traffic, gateway: Gateway, latency: Delay, overrun: Delay, signed: SignedIntent, attempt: nat,
      before: nat)
    requires Retrying(t, gateway, latency, overrun, signed, attempt, before)
    requires Short(gateway(attempt + 1)) && before + latency(attempt) + Backoff(attempt) <= RETRY_BUDGET
    ensures Retrying(t.(calls := t.calls + [signed], sleeps := t.sleeps + [Backoff(attempt)]), gateway, latency, overrun, signed,
                     attempt + 1, before + latency(attempt) + Backoff(attempt) + overrun(attempt))
  {
    hide Backoff, Slept, DelegateNotAuthorized, InsufficientBalance;
    NextSum(latency, attempt);
    NextSum(overrun, attempt);
    NextSleep(attempt);
  }

  /** `transfer_with_delegate_retry` */
  method TransferWithDelegateRetry(gateway: Gateway, authorize: Result<(), string>, latency: Delay, overrun: Delay,
      signed: SignedIntent)
    returns (r: Result<Attestation, string>, t: Traffic)
    ensures Accounted(r, t, gateway, authorize, latency, overrun, signed)
    ensures 1 <= |t.calls| <= 8 && t.authorisations <= 1 && |t.sleeps| <= 6 && Sum(t.sleeps) <= RETRY_BUDGET
    ensures EntersLoop(gateway, authorize) ==>
              forall n :: n >= 1 ==> (GivesUpAt(gateway, latency, overrun, n) <==> Short(r) && |t.calls| == n + 1)
  {
    hide Contains, Backoff, Slept, Accounted, GivesUpAt, Sum;
    t := Traffic([signed], 0, [], 0);
    match gateway(0) {
      case Ok(att) =>
        EndedAtOnce(Ok(att), t, gateway, authorize, latency, overrun, signed);
        return Ok(att), t;
      case Err(e) =>
        if DelegateNotAuthorized(e) {
          t := t.(authorisations := 1);
          if authorize.Err? {
            EndedAtOnce(Err(authorize.error), t, gateway, authorize, latency, overrun, signed);
            return Err(authorize.error), t;
          }
        } else if !InsufficientBalance(e) {
          EndedAtOnce(Err(e), t, gateway, authorize, latency, overrun, signed);
          return Err(e), t;
        }
    }
    r, t := RetryLoop(gateway, authorize, latency, overrun, signed, t);
    LoopAccounted(r, t, gateway, authorize, latency, overrun, signed);
  }

  lemma EndedAtOnce(r: Result<Attestation, string>, t: Traffic, gateway: Gateway, authorize: Result<(), string>,
      latency: Delay, overrun: Delay, signed: SignedIntent)
    requires !EntersLoop(gateway, authorize) && t.calls == [signed] && t.sleeps == [] && t.elapsed == 0
    requires var first := gateway(0);
             && t.authorisations == (if first.Err? && DelegateNotAuthorized(first.error) then 1 else 0)
             && r == if t.authorisations == 1 && authorize.Err? then Err(authorize.error) else first
    ensures Accounted(r, t, gateway, authorize, latency, overrun, signed)
    ensures Sum(t.sleeps) <= RETRY_BUDGET
  {
  }

  lemma LoopAccounted(r: Result<Attestation, string>, t: Traffic, gateway: Gateway, authorize: Result<(), string>,
      latency: Delay, overrun: Delay, signed: SignedIntent)
    requires EntersLoop(gateway, authorize) && Accounted(r, t, gateway, authorize, latency, overrun, signed)
    ensures 1 <= |t.calls| <= 8 && t.authorisations <= 1 && |t.sleeps| <= 6 && Sum(t.sleeps) <= RETRY_BUDGET
    ensures forall n :: n >= 1 ==> (GivesUpAt(gateway, latency, overrun, n) <==> Short(r) && |t.calls| == n + 1)
  {
    hide Backoff, Slept, Sum, Affordable, InsufficientBalance, DelegateNotAuthorized;
    LoopEndsEarly(gateway, latency, overrun, |t.calls| - 1);
    SleepsSum(t.sleeps);
    forall n: nat | GivesUpAt(gateway, latency, overrun, n)
      ensures Short(r) && |t.calls| == n + 1
    {
      assert Short(gateway(n));
      EndsOnce(gateway, latency, overrun, n, |t.calls| - 1);
    }
  }

  method RetryLoop(gateway: Gateway, authorize: Result<(), string>, latency: Delay, overrun: Delay,
      signed: SignedIntent, t0: Traffic)
    returns (r: Result<Attestation, string>, t: Traffic)
    requires EntersLoop(gateway, authorize)
    requires t0 == Traffic([signed], if DelegateNotAuthorized(gateway(0).error) then 1 else 0, [], 0)
    ensures Accounted(r, t, gateway, authorize, latency, overrun, signed)
  {
    hide Backoff, Slept, DelegateNotAuthorized, Retrying, Accounted;
    t := t0;
    var elapsed: nat, backoff: nat, attempt: nat := 0, 2 * SECOND, 0;
    FirstTry(gateway, latency, overrun, signed, t);
    while true
      invariant Retrying(t, gateway, latency, overrun, signed, attempt, elapsed) && attempt <= 6
      invariant t.authorisations == if DelegateNotAuthorized(gateway(0).error) then 1 else 0
      invariant backoff == Backoff(attempt)
      decreases 6 - attempt
    {
      NextSleep(attempt);
      ghost var before := elapsed;
      elapsed := elapsed + latency(attempt);
      match gateway(attempt + 1) {
        case Ok(att) =>
          RetryEnds(t, gateway, authorize, latency, overrun, signed, attempt, before);
          return Ok(att), t.(calls := t.calls + [signed], elapsed := elapsed);
        case Err(e) =>
          if !InsufficientBalance(e) {
            RetryEnds(t, gateway, authorize, latency, overrun, signed, attempt, before);
            return Err(e), t.(calls := t.calls + [signed], elapsed := elapsed);
          }
          if elapsed + backoff > RETRY_BUDGET {
            RetryEnds(t, gateway, authorize, latency, overrun, signed, attempt, before);
            return Err(e), t.(calls := t.calls + [signed], elapsed := elapsed);
          }
          RetryGoesOn(t, gateway, latency, overrun, signed, attempt, before);
          t := t.(calls := t.calls + [signed], sleeps := t.sleeps + [backoff]);
          elapsed := elapsed + backoff + overrun(attempt);
          backoff := if backoff * 2 <= 15 * SECOND then backoff * 2 else 15 * SECOND;
      }
      attempt := attempt + 1;
      RetryingBriefly(t, gateway, latency, overrun, signed, attempt, elapsed);
    }
  }

  lemma FirstTry(gateway: Gateway, latency: Delay, overrun: Delay, signed: SignedIntent, t: Traffic)
    requires t.calls == [signed] && t.sleeps == []
    ensures Retrying(t, gateway, latency, overrun, signed, 0, 0) && Backoff(0) == 2 * SECOND
  {
  }

  lemma NextSum(f: Delay, n: nat)
    ensures SumOf(f, n + 1) == SumOf(f, n) + f(n)
  {
  }

  lemma NextSleep(n: nat)
    ensures Backoff(n + 1) == if Backoff(n) * 2 <= 15 * SECOND then Backoff(n) * 2 else 15 * SECOND
    ensures Slept(n + 1) == Slept(n) + Backoff(n)
  {
  }
}
