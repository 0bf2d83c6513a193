/** The in-memory policy store: validated, versioned policies, one per user. */
module PolicyStore {
  import opened Text
  import opened PolicySchema
  import opened Arithmetic

  datatype StoreError = Invalid(error: ValidationError) | NoPolicy(user: Address)

  type Policies = map<Address, Policy>

  /** A call that may change the store. */
  datatype Op = PutOp(policy: Policy) | StatusOp(user: Address, status: PolicyStatus)

  /** The version a put of this user's policy gets; 32-bit addition wraps. */
  function NextVersion(m: Policies, user: Address): U32 {
    if user in m then (m[user].version + 1) % TWO_32 else 1
  }

  function Apply(m: Policies, op: Op): Policies {
    match op
    case PutOp(p) => if Fault(p) == None then m[p.user := p.(version := NextVersion(m, p.user))] else m
    case StatusOp(user, status) => if user in m then m[user := m[user].(status := status)] else m
  }

  function ApplyAll(m: Policies, ops: seq<Op>): Policies
    decreases |ops|
  {
    if ops == [] then m else ApplyAll(Apply(m, ops[0]), ops[1..])
  }

  /** Every stored policy passed validation and is stored under its user. */
  ghost predicate StoreValid(m: Policies) {
    forall user :: user in m ==> Valid(m[user]) && m[user].user == user
  }

  lemma ApplyKeepsValid(m: Policies, op: Op)
    requires StoreValid(m)
    ensures StoreValid(Apply(m, op))
  {
    hide Fault, Valid;
    match op
    case PutOp(p) =>
      ValidationExact(p);
      VersionIrrelevant(p, NextVersion(m, p.user), p.status);
    case StatusOp(user, status) =>
      if user in m {
        VersionIrrelevant(m[user], m[user].version, status);
      }
  }

  /** Validity never looks at the version or the status. */
  lemma VersionIrrelevant(p: Policy, version: U32, status: PolicyStatus)
    ensures Valid(p.(version := version, status := status)) <==> Valid(p)
  {
  }

  lemma {:induction false} ApplyAllKeepsValid(m: Policies, ops: seq<Op>)
    requires StoreValid(m)
    ensures StoreValid(ApplyAll(m, ops))
    decreases |ops|
  {
    hide StoreValid, Apply;
    if ops != [] {
      ApplyKeepsValid(m, ops[0]);
      ApplyAllKeepsValid(Apply(m, ops[0]), ops[1..]);
    }
  }

  // ----- version history -----

  /** 1 for an accepted put of this user's policy; acceptance never depends on the store. */
  function Accepted(op: Op, user: Address): nat {
    if op.PutOp? && op.policy.user == user && Fault(op.policy) == None then 1 else 0
  }

  function Puts(ops: seq<Op>, user: Address): nat {
    if ops == [] then 0 else Accepted(ops[0], user) + Puts(ops[1..], user)
  }

  function VersionOf(m: Policies, user: Address): nat {
    if user in m then m[user].version else 0
  }

  /**
   * A version is a count: any run of calls raises a user's version by the number of accepted puts
   * for that user, modulo 32-bit wrap-around, and by nothing else.
   */
  lemma {:induction false} VersionCountsPuts(m: Policies, ops: seq<Op>, user: Address)
    ensures VersionOf(ApplyAll(m, ops), user) == (VersionOf(m, user) + Puts(ops, user)) % TWO_32
    ensures user in ApplyAll(m, ops) <==> user in m || Puts(ops, user) > 0
    decreases |ops|
  {
    hide Fault, Apply, Accepted;
    if ops == [] {
      SmallMod(VersionOf(m, user), TWO_32);
    } else {
      var next := Apply(m, ops[0]);
      VersionCountsPuts(next, ops[1..], user);
      OneCallCounts(m, ops[0], user);
      AddMod(VersionOf(m, user) + Accepted(ops[0], user), Puts(ops[1..], user), TWO_32);
    }
  }

  lemma OneCallCounts(m: Policies, op: Op, user: Address)
    ensures VersionOf(Apply(m, op), user) == (VersionOf(m, user) + Accepted(op, user)) % TWO_32
    ensures user in Apply(m, op) <==> user in m || Accepted(op, user) > 0
  {
    hide Fault;
    SmallMod(VersionOf(m, user), TWO_32);
  }

  /** Without an accepted put for a user, only the status of that user's policy can change. */
  lemma {:induction false} OnlyStatusWithoutPuts(m: Policies, ops: seq<Op>, user: Address)
    requires user in m && Puts(ops, user) == 0
    ensures var later := ApplyAll(m, ops);
            user in later && later[user] == m[user].(status := later[user].status)
    decreases |ops|
  {
    hide Fault;
    if ops != [] {
      OnlyStatusWithoutPuts(Apply(m, ops[0]), ops[1..], user);
    }
  }

  /**
   * Two reads of one user see the same version exactly when the accepted puts between them are a
   * multiple of 2^32; without any, or with fewer, same version means same policy but for the status.
   */
  lemma SameVersionExactlyWhen(m: Policies, ops: seq<Op>, user: Address)
    requires user in m
    ensures var later, n := ApplyAll(m, ops), Puts(ops, user);
            && user in later
            && (later[user].version == m[user].version <==> n % TWO_32 == 0)
            && (n < TWO_32 && later[user].version == m[user].version
                ==> later[user] == m[user].(status := later[user].status))
  {
    hide Puts, ApplyAll;
    VersionCountsPuts(m, ops, user);
    WrapsBack(m[user].version, Puts(ops, user));
    if Puts(ops, user) == 0 {
      OnlyStatusWithoutPuts(m, ops, user);
    } else if Puts(ops, user) < TWO_32 {
      SmallMod(Puts(ops, user), TWO_32);
    }
  }

  lemma WrapsBack(v: U32, n: nat)
    ensures (v + n) % TWO_32 == v <==> n % TWO_32 == 0
  {
    var q, r := n / TWO_32, n % TWO_32;
    assert v + n == q * TWO_32 + (v + r);
    if v + r < TWO_32 {
      DivisionUnique(v + n, TWO_32, q, v + r);
    } else {
      DivisionUnique(v + n, TWO_32, q + 1, v + r - TWO_32);
    }
  }

  function Repeated(p: Policy, n: nat): seq<Op> {
    if n == 0 then [] else [PutOp(p)] + Repeated(p, n - 1)
  }

  lemma {:induction false} RepeatedPuts(m: Policies, p: Policy, n: nat)
    requires Fault(p) == None
    ensures Puts(Repeated(p, n), p.user) == n
    ensures var later := ApplyAll(m, Repeated(p, n));
            n > 0 ==> p.user in later && later[p.user] == p.(version := later[p.user].version)
    decreases n
  {
    hide Fault;
    if n > 0 {
      var next := Apply(m, PutOp(p));
      assert Repeated(p, n)[1..] == Repeated(p, n - 1);
      RepeatedPuts(next, p, n - 1);
    }
  }

  /** Where versions stop telling policies apart: 2^32 puts of another policy end at the version before. */
  lemma WrappedVersionHidesChange(m: Policies, p: Policy)
    requires p.user in m && Fault(p) == None
    ensures var later := ApplyAll(m, Repeated(p, TWO_32));
            p.user in later && later[p.user] == p.(version := m[p.user].version)
  {
    hide Fault, Repeated, ApplyAll, Puts;
    RepeatedPuts(m, p, TWO_32);
    SameVersionExactlyWhen(m, Repeated(p, TWO_32), p.user);
  }

  // ----- the store -----

  class InMemoryPolicyStore {
    var inner: Policies

    constructor ()
      ensures inner == map[]
    {
      inner := map[];
    }

    method Get(user: Address) returns (r: Option<Policy>)
      ensures r == if user in inner then Some(inner[user]) else None
    {
      if user in inner {
        return Some(inner[user]);
      }
      return None;
    }

    method Put(policy: Policy) returns (r: Result<U32, StoreError>)
      modifies this
      ensures inner == Apply(old(inner), PutOp(policy))
      ensures r == match Fault(policy)
                   case Some(e) => Err(Invalid(e))
                   case None => Ok(NextVersion(old(inner), policy.user))
      ensures old(StoreValid(inner)) ==> StoreValid(inner)
    {
      hide Fault;
      ghost var before := inner;
      var checked := Validate(policy);
      if checked.Err? {
        return Err(Invalid(checked.error));
      }
      var next := 1;
      if policy.user in inner {
        next := (inner[policy.user].version + 1) % TWO_32;
      }
      inner := inner[policy.user := policy.(version := next)];
      if StoreValid(before) {
        ApplyKeepsValid(before, PutOp(policy));
      }
      return Ok(next);
    }

    method SetStatus(user: Address, status: PolicyStatus) returns (r: Result<(), StoreError>)
      modifies this
      ensures inner == Apply(old(inner), StatusOp(user, status))
      ensures r == if user in old(inner) then Ok(()) else Err(NoPolicy(user))
      ensures old(StoreValid(inner)) ==> StoreValid(inner)
    {
      ghost var before := inner;
      if user !in inner {
        return Err(NoPolicy(user));
      }
      inner := inner[user := inner[user].(status := status)];
      if StoreValid(before) {
        ApplyKeepsValid(before, StatusOp(user, status));
      }
      return Ok(());
    }

    /** The users come in whatever order the hash map yields its keys. */
    method ListActiveUsers(order: seq<Address>) returns (users: seq<Address>)
      requires (set u | u in order) == inner.Keys
      requires forall i, j :: 0 <= i < j < |order| ==> order[i] != order[j]
      ensures forall u :: u in users <==> u in inner && inner[u].status.Active?
      ensures forall i, j :: 0 <= i < j < |users| ==> users[i] != users[j]
    {
      users := [];
      for i := 0 to |order|
        invariant forall u :: u in users <==> u in order[..i] && u in inner && inner[u].status.Active?
        invariant forall j, k :: 0 <= j < k < |users| ==> users[j] != users[k]
      {
        assert order[i] in inner.Keys;
        assert order[..i + 1] == order[..i] + [order[i]];
        assert order[i] !in order[..i];
        if inner[order[i]].status.Active? {
          users := users + [order[i]];
        }
      }
      assert order[..|order|] == order;
      forall u | u in inner
        ensures u in order
      {
        assert u in inner.Keys;
      }
    }

    /** Calls of other tasks, one after another. */
    method Interfere(ops: seq<Op>)
      modifies this
      ensures inner == ApplyAll(old(inner), ops)
      ensures old(StoreValid(inner)) ==> StoreValid(inner)
    {
      hide Apply, StoreValid, Fault;
      var i := 0;
      assert ops[0..] == ops;
      while i < |ops|
        invariant 0 <= i <= |ops|
        invariant ApplyAll(inner, ops[i..]) == ApplyAll(old(inner), ops)
        invariant old(StoreValid(inner)) ==> StoreValid(inner)
      {
        assert ops[i..][0] == ops[i] && ops[i..][1..] == ops[i + 1..];
        match ops[i] {
          case PutOp(policy) => var _ := Put(policy);
          case StatusOp(user, status) => var _ := SetStatus(user, status);
        }
        i := i + 1;
      }
    }
  }
}
