/** The in-memory funding ledger: deposits and withdrawals, each transaction recorded once. */
module FundingStore {
  import opened Text
  import opened PolicySchema
  import opened Evaluator
  import opened Arithmetic

  datatype FundingKind = Deposit | WithdrawToEoa

  datatype NewFundingEvent =
    NewFundingEvent(ts: Time, user: Address, chain: ChainId, kind: FundingKind, amount: U256, txHash: string)

  datatype FundingEvent =
    FundingEvent(id: nat, ts: Time, user: Address, chain: ChainId, kind: FundingKind, amount6dec: string, txHash: string)

  datatype Key = Key(user: Address, chain: ChainId, kind: FundingKind, txHash: string)

  function KeyOf(n: NewFundingEvent): Key {
    Key(n.user, n.chain, n.kind, n.txHash)
  }

  function StoredKey(e: FundingEvent): Key {
    Key(e.user, e.chain, e.kind, e.txHash)
  }

  // ----- decimal text -----

  predicate IsDigit(c: char) {
    '0' <= c <= '9'
  }

  function ToDecimal(n: nat): string {
    if n < 10 then ['0' + n as char] else ToDecimal(n / 10) + ['0' + (n % 10) as char]
  }

  /** The number a text of decimal digits denotes. */
  function Digits(s: string): Option<nat> {
    if s == "" then Some(0)
    else
      var before, c := Digits(s[..|s| - 1]), s[|s| - 1];
      if before.None? || !IsDigit(c) then None else Some(before.value * 10 + (c - '0') as nat)
  }

  /** `U256::from_str` on a text without a radix prefix. */
  function ParseU256(s: string): Option<U256> {
    var n := Digits(s);
    if n.Some? && n.value < TWO_256 then Some(n.value) else None
  }

  lemma {:induction false} DecimalDenotes(n: nat)
    ensures Digits(ToDecimal(n)) == Some(n)
  {
    if n >= 10 {
      DecimalDenotes(n / 10);
      var s, c := ToDecimal(n / 10), '0' + (n % 10) as char;
      assert (s + [c])[..|s|] == s;
      assert n == n / 10 * 10 + n % 10;
    } else {
      assert Digits("") == Some(0);
    }
  }

  /** Amounts survive being stored as text. */
  lemma DecimalRoundTrip(n: U256)
    ensures ParseU256(ToDecimal(n)) == Some(n)
  {
    DecimalDenotes(n);
  }

  // ----- the ledger -----

  datatype Ledger = Ledger(nextId: nat, events: seq<FundingEvent>)

  const EMPTY := Ledger(1, [])

  /** The id of the first event with this key. */
  function FindId(events: seq<FundingEvent>, k: Key): (r: Option<nat>)
    ensures r.None? <==> forall i :: 0 <= i < |events| ==> StoredKey(events[i]) != k
    ensures r.Some? ==> exists i :: 0 <= i < |events| && StoredKey(events[i]) == k && events[i].id == r.value
  {
    if events == [] then None
    else
      var before, last := FindId(events[..|events| - 1], k), events[|events| - 1];
      if before.Some? then before else if StoredKey(last) == k then Some(last.id) else None
  }

  function Stored(n: NewFundingEvent, id: nat): FundingEvent {
    FundingEvent(id, n.ts, n.user, n.chain, n.kind, ToDecimal(n.amount), n.txHash)
  }

  function Record(s: Ledger, n: NewFundingEvent): Ledger {
    if FindId(s.events, KeyOf(n)).Some? then s else Ledger(s.nextId + 1, s.events + [Stored(n, s.nextId)])
  }

  function RecordAll(s: Ledger, ns: seq<NewFundingEvent>): Ledger
    decreases |ns|
  {
    if ns == [] then s else RecordAll(Record(s, ns[0]), ns[1..])
  }

  /** What an unreadable amount counts for. */
  function AmountOf(e: FundingEvent): U256 {
    match ParseU256(e.amount6dec)
    case Some(n) => n
    case None => 0
  }

  predicate Counts(user: Address, kind: FundingKind, of: Address, kindOf: FundingKind) {
    user == of && kind == kindOf
  }

  /** `sum`: over the stored events, with 256-bit wrap-around. */
  function StoredSum(events: seq<FundingEvent>, user: Address, kind: FundingKind): U256 {
    if events == [] then 0
    else
      var before, last := StoredSum(events[..|events| - 1], user, kind), events[|events| - 1];
      if Counts(last.user, last.kind, user, kind) then (before + AmountOf(last)) % TWO_256 else before
  }

  /** Ids are contiguous and in storage order, and no key is stored twice. */
  ghost predicate LedgerValid(s: Ledger) {
    && s.nextId == |s.events| + 1
    && (forall i :: 0 <= i < |s.events| ==> s.events[i].id == i + 1)
    && (forall i, j :: 0 <= i < j < |s.events| ==> StoredKey(s.events[i]) != StoredKey(s.events[j]))
  }

  lemma RecordKeepsValid(s: Ledger, n: NewFundingEvent)
    requires LedgerValid(s)
    ensures LedgerValid(Record(s, n))
    ensures s.events <= Record(s, n).events
    ensures exists i :: 0 <= i < |Record(s, n).events| && StoredKey(Record(s, n).events[i]) == KeyOf(n)
  {
    if FindId(s.events, KeyOf(n)).None? {
      assert Record(s, n).events[|s.events|] == Stored(n, s.nextId);
    }
  }

  /** After any appends, ids are 1..n in storage order, and nothing stored was ever changed. */
  lemma {:induction false} RunsKeepLedgerValid(s: Ledger, ns: seq<NewFundingEvent>)
    requires LedgerValid(s)
    ensures LedgerValid(RecordAll(s, ns)) && s.events <= RecordAll(s, ns).events
    decreases |ns|
  {
    hide LedgerValid, Record;
    if ns != [] {
      RecordKeepsValid(s, ns[0]);
      RunsKeepLedgerValid(Record(s, ns[0]), ns[1..]);
    }
  }

  // ----- first-recorded amounts -----

  function Share(n: NewFundingEvent, user: Address, kind: FundingKind): nat {
    if Counts(n.user, n.kind, user, kind) then n.amount else 0
  }

  /** The unwrapped sum of the amounts that are the first under their key, given the keys `seen`. */
  function FirstSum(seen: set<Key>, ns: seq<NewFundingEvent>, user: Address, kind: FundingKind): nat
    decreases |ns|
  {
    if ns == [] then 0
    else (if KeyOf(ns[0]) in seen then 0 else Share(ns[0], user, kind))
         + FirstSum(seen + {KeyOf(ns[0])}, ns[1..], user, kind)
  }

  function KeysOf(ns: seq<NewFundingEvent>): set<Key> {
    set i | 0 <= i < |ns| :: KeyOf(ns[i])
  }

  function KeysIn(events: seq<FundingEvent>): set<Key> {
    set i | 0 <= i < |events| :: StoredKey(events[i])
  }

  lemma RecordSums(s: Ledger, n: NewFundingEvent, user: Address, kind: FundingKind)
    ensures KeysIn(Record(s, n).events) == KeysIn(s.events) + {KeyOf(n)}
    ensures StoredSum(Record(s, n).events, user, kind)
            == (StoredSum(s.events, user, kind) + if KeyOf(n) in KeysIn(s.events) then 0 else Share(n, user, kind)) % TWO_256
  {
    SmallMod(StoredSum(s.events, user, kind), TWO_256);
    if FindId(s.events, KeyOf(n)).Some? {
      assert KeyOf(n) in KeysIn(s.events);
    } else {
      var e := Stored(n, s.nextId);
      assert KeyOf(n) !in KeysIn(s.events);
      assert (s.events + [e])[..|s.events|] == s.events;
      assert (s.events + [e])[|s.events|] == e;
      assert forall i :: 0 <= i < |s.events| ==> (s.events + [e])[i] == s.events[i];
      DecimalRoundTrip(n.amount);
    }
  }

  lemma {:induction false} SumGrows(s: Ledger, ns: seq<NewFundingEvent>, user: Address, kind: FundingKind)
    ensures StoredSum(RecordAll(s, ns).events, user, kind)
            == (StoredSum(s.events, user, kind) + FirstSum(KeysIn(s.events), ns, user, kind)) % TWO_256
    decreases |ns|
  {
    hide Record, StoredSum, Share;
    if ns == [] {
      SmallMod(StoredSum(s.events, user, kind), TWO_256);
    } else {
      var first := if KeyOf(ns[0]) in KeysIn(s.events) then 0 else Share(ns[0], user, kind);
      var next := Record(s, ns[0]);
      RecordSums(s, ns[0], user, kind);
      SumGrows(next, ns[1..], user, kind);
      AddMod(StoredSum(s.events, user, kind) + first, FirstSum(KeysIn(next.events), ns[1..], user, kind), TWO_256);
    }
  }

  /** After any appends to an empty ledger, a sum is that of the first-recorded amounts. */
  lemma SumIsOfFirstAmounts(ns: seq<NewFundingEvent>, user: Address, kind: FundingKind)
    ensures StoredSum(RecordAll(EMPTY, ns).events, user, kind) == FirstSum({}, ns, user, kind) % TWO_256
    ensures FirstSum({}, ns, user, kind) < TWO_256 ==>
              StoredSum(RecordAll(EMPTY, ns).events, user, kind) == FirstSum({}, ns, user, kind)
  {
    hide RecordAll, FirstSum;
    SumGrows(EMPTY, ns, user, kind);
    assert KeysIn(EMPTY.events) == {};
    SmallMod(FirstSum({}, ns, user, kind), TWO_256);
  }

  // ----- repeated and reordered events -----

  lemma {:induction false} RecordAllSplit(s: Ledger, a: seq<NewFundingEvent>, b: seq<NewFundingEvent>)
    ensures RecordAll(s, a + b) == RecordAll(RecordAll(s, a), b)
    decreases |a|
  {
    hide Record;
    if a == [] {
      assert a + b == b;
    } else {
      assert (a + b)[1..] == a[1..] + b;
      RecordAllSplit(Record(s, a[0]), a[1..], b);
    }
  }

  lemma {:induction false} SeenIsStored(s: Ledger, ns: seq<NewFundingEvent>, k: Key)
    ensures k in KeysIn(RecordAll(s, ns).events) <==> k in KeysIn(s.events) || k in KeysOf(ns)
    decreases |ns|
  {
    hide Record;
    if ns != [] {
      RecordSums(s, ns[0], 0, Deposit);
      SeenIsStored(Record(s, ns[0]), ns[1..], k);
      assert k in KeysOf(ns) <==> k == KeyOf(ns[0]) || k in KeysOf(ns[1..]) by {
        KeysOfCons(ns);
      }
    }
  }

  lemma KeysOfCons(ns: seq<NewFundingEvent>)
    requires ns != []
    ensures KeysOf(ns) == {KeyOf(ns[0])} + KeysOf(ns[1..])
  {
    assert ns == [ns[0]] + ns[1..];
    forall k | k in KeysOf(ns)
      ensures k in {KeyOf(ns[0])} + KeysOf(ns[1..])
    {
      var i :| 0 <= i < |ns| && KeyOf(ns[i]) == k;
      if i > 0 {
        assert ns[1..][i - 1] == ns[i];
      }
    }
    forall k | k in KeysOf(ns[1..])
      ensures k in KeysOf(ns)
    {
      var i :| 0 <= i < |ns[1..]| && KeyOf(ns[1..][i]) == k;
      assert ns[i + 1] == ns[1..][i];
    }
  }

  /** Appending is idempotent: a later event with a recorded key leaves no trace, whatever it says. */
  lemma RepeatLeavesNoTrace(s: Ledger, a: seq<NewFundingEvent>, x: NewFundingEvent,
        b: seq<NewFundingEvent>)
    requires KeyOf(x) in KeysOf(a)
    ensures RecordAll(s, a + [x] + b) == RecordAll(s, a + b)
  {
    hide StoredSum;
    RecordAllSplit(s, a + [x], b);
    RecordAllSplit(s, a, [x]);
    RecordAllSplit(s, a, b);
    SeenIsStored(s, a, KeyOf(x));
    var t := RecordAll(s, a);
    assert RecordAll(t, [x]) == Record(t, x) by {
      assert [x][1..] == [];
    }
  }

  lemma {:induction false} FirstSumSplit(seen: set<Key>, a: seq<NewFundingEvent>, b: seq<NewFundingEvent>,
        user: Address, kind: FundingKind)
    ensures FirstSum(seen, a + b, user, kind) == FirstSum(seen, a, user, kind) + FirstSum(seen + KeysOf(a), b, user, kind)
    decreases |a|
  {
    hide KeysOf;
    if a == [] {
      assert a + b == b;
      NoKeys();
      assert seen + KeysOf(a) == seen;
    } else {
      assert (a + b)[1..] == a[1..] + b;
      FirstSumSplit(seen + {KeyOf(a[0])}, a[1..], b, user, kind);
      KeysOfCons(a);
      assert seen + {KeyOf(a[0])} + KeysOf(a[1..]) == seen + KeysOf(a);
    }
  }

  lemma NoKeys()
    ensures KeysOf([]) == {}
  {
  }

  /** Two events in a row, first in this order and then in the other. */
  lemma FirstSumOfTwo(seen: set<Key>, x: NewFundingEvent, y: NewFundingEvent,
        b: seq<NewFundingEvent>, user: Address, kind: FundingKind)
    ensures FirstSum(seen, [x, y] + b, user, kind)
            == (if KeyOf(x) in seen then 0 else Share(x, user, kind))
               + (if KeyOf(y) in seen + {KeyOf(x)} then 0 else Share(y, user, kind))
               + FirstSum(seen + {KeyOf(x), KeyOf(y)}, b, user, kind)
  {
    assert ([x, y] + b)[1..] == [y] + b;
    assert ([y] + b)[1..] == b;
    assert seen + {KeyOf(x)} + {KeyOf(y)} == seen + {KeyOf(x), KeyOf(y)};
  }

  ghost predicate SameSums(a: Ledger, b: Ledger) {
    forall user, kind :: StoredSum(a.events, user, kind) == StoredSum(b.events, user, kind)
  }

  /**
   * When the order of two neighbouring events shows in a sum: exactly when they are two readings
   * of one transaction with different amounts, neither of them yet recorded.
   */
  lemma SwapShowsExactlyWhen(a: seq<NewFundingEvent>, x: NewFundingEvent, y: NewFundingEvent,
        b: seq<NewFundingEvent>)
    ensures SameSums(RecordAll(EMPTY, a + [x, y] + b), RecordAll(EMPTY, a + [y, x] + b))
            <==> KeyOf(x) != KeyOf(y) || x.amount == y.amount || KeyOf(x) in KeysOf(a)
  {
    hide RecordAll, KeysOf, StoredSum, FirstSum;
    var one, two := RecordAll(EMPTY, a + [x, y] + b), RecordAll(EMPTY, a + [y, x] + b);
    forall user, kind
      ensures KeyOf(x) != KeyOf(y) || x.amount == y.amount || KeyOf(x) in KeysOf(a) ==>
                StoredSum(one.events, user, kind) == StoredSum(two.events, user, kind)
    {
      SwappedSums(a, x, y, b, user, kind);
    }
    if KeyOf(x) == KeyOf(y) && x.amount != y.amount && KeyOf(x) !in KeysOf(a) {
      SwappedSums(a, x, y, b, x.user, x.kind);
      var rest := FirstSum({}, a, x.user, x.kind) + FirstSum(KeysOf(a) + {KeyOf(x), KeyOf(y)}, b, x.user, x.kind);
      DifferentAfterWrap(rest, x.amount, y.amount);
      assert StoredSum(one.events, x.user, x.kind) != StoredSum(two.events, x.user, x.kind);
    }
  }

  lemma SwappedSums(a: seq<NewFundingEvent>, x: NewFundingEvent, y: NewFundingEvent,
        b: seq<NewFundingEvent>, user: Address, kind: FundingKind)
    ensures var seen := KeysOf(a);
            var rest := FirstSum({}, a, user, kind) + FirstSum(seen + {KeyOf(x), KeyOf(y)}, b, user, kind);
            && StoredSum(RecordAll(EMPTY, a + [x, y] + b).events, user, kind)
               == (rest + (if KeyOf(x) in seen then 0 else Share(x, user, kind))
                   + (if KeyOf(y) in seen + {KeyOf(x)} then 0 else Share(y, user, kind))) % TWO_256
            && StoredSum(RecordAll(EMPTY, a + [y, x] + b).events, user, kind)
               == (rest + (if KeyOf(y) in seen then 0 else Share(y, user, kind))
                   + (if KeyOf(x) in seen + {KeyOf(y)} then 0 else Share(x, user, kind))) % TWO_256
  {
    hide RecordAll, KeysOf, StoredSum, FirstSum, Share;
    InOneOrder(a, x, y, b, user, kind);
    InOneOrder(a, y, x, b, user, kind);
    assert {KeyOf(x), KeyOf(y)} == {KeyOf(y), KeyOf(x)};
  }

  lemma {:induction false} InOneOrder(a: seq<NewFundingEvent>, x: NewFundingEvent, y: NewFundingEvent, b: seq<NewFundingEvent>,
      user: Address, kind: FundingKind)
    ensures var seen := KeysOf(a);
            var rest := FirstSum({}, a, user, kind) + FirstSum(seen + {KeyOf(x), KeyOf(y)}, b, user, kind);
            StoredSum(RecordAll(EMPTY, a + [x, y] + b).events, user, kind)
            == (rest + (if KeyOf(x) in seen then 0 else Share(x, user, kind))
                + (if KeyOf(y) in seen + {KeyOf(x)} then 0 else Share(y, user, kind))) % TWO_256
  {
    hide RecordAll, KeysOf, StoredSum, FirstSum, Share;
    assert a + [x, y] + b == a + ([x, y] + b);
    assert {} + KeysOf(a) == KeysOf(a);
    SumIsOfFirstAmounts(a + [x, y] + b, user, kind);
    FirstSumSplit({}, a, [x, y] + b, user, kind);
    FirstSumOfTwo(KeysOf(a), x, y, b, user, kind);
  }

  lemma DifferentAfterWrap(r: nat, a: U256, b: U256)
    requires a != b
    ensures (r + a) % TWO_256 != (r + b) % TWO_256
  {
    var p, q := (r + a) / TWO_256, (r + b) / TWO_256;
    assert r + a == p * TWO_256 + (r + a) % TWO_256 && r + b == q * TWO_256 + (r + b) % TWO_256;
  }

  /** One transaction is always reported with one amount. */
  ghost predicate Consistent(ns: seq<NewFundingEvent>) {
    forall x, y :: x in ns && y in ns && KeyOf(x) == KeyOf(y) ==> x.amount == y.amount
  }

  lemma {:induction false} MoveToFront(seen: set<Key>, ns: seq<NewFundingEvent>, i: nat, user: Address,
        kind: FundingKind)
    requires i < |ns| && Consistent(ns)
    ensures FirstSum(seen, ns, user, kind) == FirstSum(seen, [ns[i]] + ns[..i] + ns[i + 1..], user, kind)
    decreases |ns|
  {
    hide FirstSum, Consistent;
    if i == 0 {
      assert [ns[0]] + ns[..0] + ns[1..] == ns;
    } else {
      var h, x, rest := ns[0], ns[i], ns[1..i] + ns[i + 1..];
      TailConsistent(ns);
      MoveToFront(seen + {KeyOf(h)}, ns[1..], i - 1, user, kind);
      assert [ns[1..][i - 1]] + ns[1..][..i - 1] + ns[1..][i..] == [x] + rest;
      FirstSumCons(seen, ns, user, kind);
      FirstSumCons(seen, [h, x] + rest, user, kind);
      assert ([h, x] + rest)[1..] == [x] + rest;
      assert [x] + ns[..i] + ns[i + 1..] == [x, h] + rest;
      SameKeySameAmount(ns, 0, i);
      SwapFirstTwo(seen, h, x, rest, user, kind);
    }
  }

  lemma SwapFirstTwo(seen: set<Key>, x: NewFundingEvent, y: NewFundingEvent,
        b: seq<NewFundingEvent>, user: Address, kind: FundingKind)
    requires KeyOf(x) == KeyOf(y) ==> x.amount == y.amount
    ensures FirstSum(seen, [x, y] + b, user, kind) == FirstSum(seen, [y, x] + b, user, kind)
  {
    hide FirstSum;
    FirstSumOfTwo(seen, x, y, b, user, kind);
    FirstSumOfTwo(seen, y, x, b, user, kind);
    assert {KeyOf(x), KeyOf(y)} == {KeyOf(y), KeyOf(x)};
  }

  lemma FirstSumCons(seen: set<Key>, ns: seq<NewFundingEvent>, user: Address, kind: FundingKind)
    requires ns != []
    ensures FirstSum(seen, ns, user, kind)
            == (if KeyOf(ns[0]) in seen then 0 else Share(ns[0], user, kind))
               + FirstSum(seen + {KeyOf(ns[0])}, ns[1..], user, kind)
  {
  }

  lemma TailConsistent(ns: seq<NewFundingEvent>)
    requires Consistent(ns) && ns != []
    ensures Consistent(ns[1..])
  {
  }

  lemma SameKeySameAmount(ns: seq<NewFundingEvent>, i: nat, j: nat)
    requires Consistent(ns) && i < |ns| && j < |ns|
    ensures KeyOf(ns[i]) == KeyOf(ns[j]) ==> ns[i].amount == ns[j].amount
  {
  }

  lemma {:induction false} FirstSumPermutes(seen: set<Key>, a: seq<NewFundingEvent>, b: seq<NewFundingEvent>,
        user: Address, kind: FundingKind)
    requires multiset(a) == multiset(b) && Consistent(a) && Consistent(b)
    ensures FirstSum(seen, a, user, kind) == FirstSum(seen, b, user, kind)
    decreases |a|
  {
    hide Share;
    assert |multiset(a)| == |a| && |multiset(b)| == |b|;
    if a != [] {
      assert a[0] in multiset(b);
      var i :| 0 <= i < |b| && b[i] == a[0];
      var b' := b[..i] + b[i + 1..];
      MoveToFront(seen, b, i, user, kind);
      assert [b[i]] + b[..i] + b[i + 1..] == [a[0]] + b';
      assert ([a[0]] + b')[1..] == b';
      WithoutOne(a, b, i);
      assert forall x :: x in b' ==> x in b;
      FirstSumPermutes(seen + {KeyOf(a[0])}, a[1..], b', user, kind);
    }
  }

  lemma WithoutOne<T>(a: seq<T>, b: seq<T>, i: nat)
    requires a != [] && i < |b| && b[i] == a[0] && multiset(a) == multiset(b)
    ensures multiset(a[1..]) == multiset(b[..i] + b[i + 1..])
  {
    assert a == [a[0]] + a[1..];
    assert b == b[..i] + [b[i]] + b[i + 1..];
    assert multiset(a[1..]) == multiset(a) - multiset{a[0]};
    assert multiset(b[..i] + b[i + 1..]) == multiset(b) - multiset{b[i]};
  }

  /** Reordering consistent reports, distinct or repeated, changes no sum. */
  lemma OrderIrrelevant(a: seq<NewFundingEvent>, b: seq<NewFundingEvent>)
    requires multiset(a) == multiset(b) && Consistent(a)
    ensures SameSums(RecordAll(EMPTY, a), RecordAll(EMPTY, b))
  {
    hide FirstSum, RecordAll, StoredSum;
    forall x
      ensures x in b ==> x in a
    {
      assert x in multiset(b) <==> x in multiset(a);
    }
    forall user, kind
      ensures StoredSum(RecordAll(EMPTY, a).events, user, kind) == StoredSum(RecordAll(EMPTY, b).events, user, kind)
    {
      FirstSumPermutes({}, a, b, user, kind);
      SumIsOfFirstAmounts(a, user, kind);
      SumIsOfFirstAmounts(b, user, kind);
    }
  }

  // ----- net deposits -----

  function NetOf(events: seq<FundingEvent>, user: Address): U256 {
    var deposits, withdrawals := StoredSum(events, user, Deposit), StoredSum(events, user, WithdrawToEoa);
    if deposits < withdrawals then 0 else deposits - withdrawals
  }

  /** While the true sums fit, the net is deposits less withdrawals, clamped to 0. */
  lemma NetIsClampedDifference(ns: seq<NewFundingEvent>, user: Address)
    requires FirstSum({}, ns, user, Deposit) < TWO_256 && FirstSum({}, ns, user, WithdrawToEoa) < TWO_256
    ensures var net := FirstSum({}, ns, user, Deposit) - FirstSum({}, ns, user, WithdrawToEoa);
            NetOf(RecordAll(EMPTY, ns).events, user) == if net > 0 then net else 0
  {
    hide StoredSum, FirstSum, RecordAll;
    SumIsOfFirstAmounts(ns, user, Deposit);
    SumIsOfFirstAmounts(ns, user, WithdrawToEoa);
  }

  // ----- the store -----

  class InMemoryFundingStore {
    var nextId: nat
    var events: seq<FundingEvent>

    function Value(): Ledger
      reads this
    {
      Ledger(nextId, events)
    }

    constructor ()
      ensures Value() == EMPTY
    {
      nextId, events := 1, [];
    }

    /** Returns the id the event's key has in the ledger, old or new. */
    method Append(event: NewFundingEvent) returns (id: nat)
      requires LedgerValid(Value())
      modifies this
      ensures Value() == Record(old(Value()), event) && LedgerValid(Value())
      ensures 1 <= id <= |events| && StoredKey(events[id - 1]) == KeyOf(event)
    {
      RecordKeepsValid(Value(), event);
      for i := 0 to |events|
        invariant forall j :: 0 <= j < i ==> StoredKey(events[j]) != KeyOf(event)
      {
        var e := events[i];
        if e.user == event.user && e.chain == event.chain && e.kind == event.kind && e.txHash == event.txHash {
          return e.id;
        }
      }
      id := nextId;
      nextId := nextId + 1;
      events := events + [FundingEvent(id, event.ts, event.user, event.chain, event.kind, ToDecimal(event.amount), event.txHash)];
    }

    method Sum(user: Address, kind: FundingKind) returns (total: U256)
      ensures total == StoredSum(events, user, kind)
    {
      total := 0;
      for i := 0 to |events|
        invariant total == StoredSum(events[..i], user, kind)
      {
        assert events[..i + 1][..i] == events[..i] && events[..i + 1][i] == events[i];
        if events[i].user == user && events[i].kind == kind {
          var amount := ParseU256(events[i].amount6dec);
          total := (total + if amount.Some? then amount.value else 0) % TWO_256;
        }
      }
      assert events[..|events|] == events;
    }

    method NetDeposited(user: Address) returns (net: U256)
      ensures net == NetOf(events, user)
    {
      var deposits := Sum(user, Deposit);
      var withdrawals := Sum(user, WithdrawToEoa);
      net := if deposits < withdrawals then 0 else deposits - withdrawals;
    }
  }
}
