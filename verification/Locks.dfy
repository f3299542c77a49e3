/** Advisory-lock keys, their registry, and the one global order in which a set of them is acquired. */
module Locks {

  /** (namespace ordinal, entity id); the debugging label is left out. */
  datatype LockKey = LockKey(ns: nat, obj: int)

  // ----- The registry: declaration order is the namespace ordinal -----

  function PointBalanceLock(userId: int): LockKey { LockKey(1, userId) }
  function OrderPaymentLock(orderPaymentId: int): LockKey { LockKey(2, orderPaymentId) }
  function FinancialHolderLock(holderId: int): LockKey { LockKey(3, holderId) }
  function CommissionSlotLock(slotId: int): LockKey { LockKey(4, slotId) }
  function CheckoutCommandLock(commandKey: string): LockKey { LockKey(5, StringLockId(commandKey)) }
  function CommissionContractLock(contractId: int): LockKey { LockKey(6, contractId) }
  function WithdrawalCommandLock(commandKey: string): LockKey { LockKey(7, StringLockId(commandKey)) }
  function SettlementCommandLock(commandKey: string): LockKey { LockKey(8, StringLockId(commandKey)) }
  function ChargePaymentLock(externalPaymentId: string): LockKey { LockKey(9, StringLockId(externalPaymentId)) }
  function ChargeCommandLock(commandKey: string): LockKey { LockKey(10, StringLockId(commandKey)) }

  const FNV_BASIS: bv32 := 0x811c9dc5
  const FNV_PRIME: bv32 := 0x01000193

  /** One round: mix in a code point, multiply modulo 2^32. */
  function FnvRound(hash: bv32, c: char): bv32 {
    FnvMix(hash, c as int as bv32)
  }

  function FnvMix(hash: bv32, bits: bv32): bv32 {
    (hash ^ bits) * FNV_PRIME
  }

  /** FNV-1a over the code points. */
  function Fnv(value: string): bv32 {
    if value == [] then FNV_BASIS else FnvRound(Fnv(value[..|value| - 1]), value[|value| - 1])
  }

  /** `hash | 0`: the same 32 bits read as a signed integer. */
  function Signed(bits: bv32): (id: int)
    ensures -0x8000_0000 <= id < 0x8000_0000
  {
    var n := bits as int;
    if n < 0x8000_0000 then n else n - 0x1_0000_0000
  }

  function StringLockId(value: string): (id: int)
    ensures -0x8000_0000 <= id < 0x8000_0000
  {
    Signed(Fnv(value))
  }

  /** The published FNV-1a test vectors for "", "a" and "foobar", read as signed 32-bit integers. */
  lemma FnvVectors()
    ensures StringLockId("") == 0x811c9dc5 - 0x1_0000_0000
    ensures StringLockId("a") == 0xe40c292c - 0x1_0000_0000
    ensures StringLockId("foobar") == 0xbf9cf968 - 0x1_0000_0000
  {
    hide FnvRound;
    FnvNext("", 'a', 0x811c9dc5, 0x61, 0xe40c292c);
    FnvNext("", 'f', 0x811c9dc5, 0x66, 0xe30c2799);
    assert "f" == "" + ['f'];
    FnvNext("f", 'o', 0xe30c2799, 0x6f, 0x6222e842);
    assert "fo" == "f" + ['o'];
    FnvNext("fo", 'o', 0x6222e842, 0x6f, 0xa9f37ed7);
    assert "foo" == "fo" + ['o'];
    FnvNext("foo", 'b', 0xa9f37ed7, 0x62, 0x3f5076ef);
    assert "foob" == "foo" + ['b'];
    FnvNext("foob", 'a', 0x3f5076ef, 0x61, 0x39aaa18a);
    assert "fooba" == "foob" + ['a'];
    FnvNext("fooba", 'r', 0x39aaa18a, 0x72, 0xbf9cf968);
    assert "a" == "" + ['a'] && "foobar" == "fooba" + ['r'];
  }

  /** One character more, with its code point written out. */
  lemma FnvNext(value: string, c: char, hash: bv32, bits: bv32, next: bv32)
    requires Fnv(value) == hash && c as int as bv32 == bits && FnvMix(hash, bits) == next
    ensures Fnv(value + [c]) == next
  {
    hide FnvMix;
    assert (value + [c])[..|value|] == value;
  }

  method ComputeStringLockId(value: string) returns (id: int)
    ensures id == StringLockId(value)
  {
    var hash := FNV_BASIS;
    for i := 0 to |value|
      invariant hash == Fnv(value[..i])
    {
      hide FnvRound;
      assert value[..i + 1][..i] == value[..i];
      hash := FnvRound(hash, value[i]);
    }
    assert value[..|value|] == value;
    id := Signed(hash);
  }

  // ----- The global order -----

  predicate Before(a: LockKey, b: LockKey) {
    a.ns < b.ns || (a.ns == b.ns && a.obj < b.obj)
  }

  /** Across namespaces the acquisition order is the order of the registry's entries, whatever is locked in each. */
  lemma RegistryOrder(user: int, payment: int, holder: int, slot: int, contract: int, a: string, b: string, c: string,
                      d: string, e: string)
    ensures Ascending([PointBalanceLock(user), OrderPaymentLock(payment), FinancialHolderLock(holder), CommissionSlotLock(slot),
                       CheckoutCommandLock(a), CommissionContractLock(contract), WithdrawalCommandLock(b),
                       SettlementCommandLock(c), ChargePaymentLock(d), ChargeCommandLock(e)])
    ensures forall other: int :: holder < other ==> Before(FinancialHolderLock(holder), FinancialHolderLock(other))
  {
  }

  ghost predicate Ascending(keys: seq<LockKey>) {
    forall i, j :: 0 <= i < j < |keys| ==> Before(keys[i], keys[j])
  }

  ghost predicate SameMembers(a: seq<LockKey>, b: seq<LockKey>) {
    forall k :: k in a <==> k in b
  }

  function Unique(keys: seq<LockKey>): seq<LockKey> {
    if keys == [] then [] else
      var n := |keys| - 1;
      if keys[n] in keys[..n] then Unique(keys[..n]) else Unique(keys[..n]) + [keys[n]]
  }

  function Insert(key: LockKey, sorted: seq<LockKey>): seq<LockKey> {
    if sorted == [] || Before(key, sorted[0]) then [key] + sorted
    else [sorted[0]] + Insert(key, sorted[1..])
  }

  function Sort(keys: seq<LockKey>): seq<LockKey> {
    if keys == [] then [] else Insert(keys[0], Sort(keys[1..]))
  }

  /** The acquisition order of a set of keys. */
  function OrderedLocks(keys: seq<LockKey>): seq<LockKey> {
    Sort(Unique(keys))
  }

  /** The loop of `orderLocks`: drop repeats with a seen-set, then sort. */
  method OrderLocks(keys: seq<LockKey>) returns (ordered: seq<LockKey>)
    ensures ordered == OrderedLocks(keys)
    ensures Ascending(ordered) && SameMembers(ordered, keys)
  {
    var seen: set<LockKey> := {};
    var unique: seq<LockKey> := [];
    for i := 0 to |keys|
      invariant unique == Unique(keys[..i])
      invariant forall k :: k in seen <==> k in keys[..i]
    {
      var key := keys[i];
      assert keys[..i + 1][..i] == keys[..i];
      if key !in seen {
        seen := seen + {key};
        unique := unique + [key];
      }
    }
    assert keys[..|keys|] == keys;
    OrderedLocksAscend(keys);
    ordered := Sort(unique);
  }

  ghost predicate NoRepeats(keys: seq<LockKey>) {
    forall i, j :: 0 <= i < j < |keys| ==> keys[i] != keys[j]
  }

  lemma {:induction false} UniqueMembers(keys: seq<LockKey>)
    ensures SameMembers(Unique(keys), keys) && NoRepeats(Unique(keys))
  {
    if keys != [] {
      var n := |keys| - 1;
      UniqueMembers(keys[..n]);
      assert keys == keys[..n] + [keys[n]];
    }
  }

  lemma {:induction false} InsertMembers(key: LockKey, sorted: seq<LockKey>)
    ensures forall k :: k in Insert(key, sorted) <==> k == key || k in sorted
  {
    if sorted == [] || Before(key, sorted[0]) {
    } else {
      InsertMembers(key, sorted[1..]);
      assert sorted == [sorted[0]] + sorted[1..];
    }
  }

  lemma {:induction false} InsertAscends(key: LockKey, sorted: seq<LockKey>)
    requires Ascending(sorted) && key !in sorted
    ensures Ascending(Insert(key, sorted))
  {
    if sorted == [] || Before(key, sorted[0]) {
    } else {
      InsertAscends(key, sorted[1..]);
      InsertMembers(key, sorted[1..]);
      var r := Insert(key, sorted);
      assert r[1..] == Insert(key, sorted[1..]);
      forall j | 0 < j < |r| ensures Before(r[0], r[j]) {
        assert r[j] in r[1..];
      }
      forall i, j | 0 < i < j < |r| ensures Before(r[i], r[j]) {
        assert r[i] == r[1..][i - 1] && r[j] == r[1..][j - 1];
      }
    }
  }

  lemma {:induction false} SortAscends(keys: seq<LockKey>)
    requires NoRepeats(keys)
    ensures Ascending(Sort(keys)) && SameMembers(Sort(keys), keys)
  {
    if keys != [] {
      SortAscends(keys[1..]);
      InsertMembers(keys[0], Sort(keys[1..]));
      assert keys == [keys[0]] + keys[1..];
      InsertAscends(keys[0], Sort(keys[1..]));
    }
  }

  /** The result is sorted, free of repeats, and holds exactly the requested keys. */
  lemma OrderedLocksAscend(keys: seq<LockKey>)
    ensures Ascending(OrderedLocks(keys)) && SameMembers(OrderedLocks(keys), keys)
  {
    UniqueMembers(keys);
    SortAscends(Unique(keys));
  }

  lemma HasMember(keys: seq<LockKey>)
    requires keys != []
    ensures exists k :: k in keys
  {
    assert keys[0] in keys;
  }

  lemma {:induction false} AscendingIsCanonical(a: seq<LockKey>, b: seq<LockKey>)
    requires Ascending(a) && Ascending(b) && SameMembers(a, b)
    ensures a == b
  {
    if a == [] {
      if b != [] {
        HasMember(b);
        assert false;
      }
    } else {
      assert a[0] in b;
      assert b[0] in a;
      assert a == [a[0]] + a[1..] && b == [b[0]] + b[1..];
      forall k ensures k in a[1..] <==> k in b[1..] {
        assert k in a <==> k in b;
      }
      AscendingIsCanonical(a[1..], b[1..]);
    }
  }

  /** The order depends only on which keys are wanted, not on how they were listed. */
  lemma OrderIsInputIndependent(a: seq<LockKey>, b: seq<LockKey>)
    requires SameMembers(a, b)
    ensures OrderedLocks(a) == OrderedLocks(b)
  {
    OrderedLocksAscend(a);
    OrderedLocksAscend(b);
    AscendingIsCanonical(OrderedLocks(a), OrderedLocks(b));
  }
}
