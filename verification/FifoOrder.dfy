/** `ORDER BY <instant> ASC, id ASC`: the order in which charges and lots are loaded. */
module FifoOrder {

  // Only the keys are sorted; the loaded rows are looked up by id, so editing a row never moves it.

  datatype Key = Key(at: int, id: nat)

  predicate Before(a: Key, b: Key) {
    a.at < b.at || (a.at == b.at && a.id < b.id)
  }

  function Insert(e: Key, sorted: seq<Key>): (r: seq<Key>)
    ensures |r| == |sorted| + 1
  {
    if sorted == [] || Before(e, sorted[0]) then [e] + sorted
    else [sorted[0]] + Insert(e, sorted[1..])
  }

  function Order(keys: seq<Key>): (r: seq<Key>)
    ensures |r| == |keys|
  {
    if keys == [] then [] else Insert(keys[0], Order(keys[1..]))
  }

  ghost predicate Sorted(keys: seq<Key>) {
    forall i, j :: 0 <= i < j < |keys| ==> Before(keys[i], keys[j])
  }

  ghost predicate DistinctIds(keys: seq<Key>) {
    forall i, j :: 0 <= i < j < |keys| ==> keys[i].id != keys[j].id
  }

  lemma {:induction false} InsertMembers(e: Key, sorted: seq<Key>)
    ensures forall x :: x in Insert(e, sorted) <==> x == e || x in sorted
  {
    if sorted == [] || Before(e, sorted[0]) {
    } else {
      InsertMembers(e, sorted[1..]);
      assert sorted == [sorted[0]] + sorted[1..];
    }
  }

  /** Nothing is lost or invented by sorting. */
  lemma {:induction false} OrderMembers(keys: seq<Key>)
    ensures forall x :: x in Order(keys) <==> x in keys
  {
    if keys != [] {
      OrderMembers(keys[1..]);
      InsertMembers(keys[0], Order(keys[1..]));
      assert keys == [keys[0]] + keys[1..];
    }
  }

  lemma {:induction false} InsertSorted(e: Key, sorted: seq<Key>)
    requires Sorted(sorted) && forall i :: 0 <= i < |sorted| ==> sorted[i].id != e.id
    ensures Sorted(Insert(e, sorted))
  {
    if sorted == [] || Before(e, sorted[0]) {
    } else {
      InsertSorted(e, sorted[1..]);
      InsertMembers(e, sorted[1..]);
      var r := Insert(e, sorted);
      assert r[1..] == Insert(e, sorted[1..]);
      forall j | 0 < j < |r| ensures Before(r[0], r[j]) {
        assert r[j] in r[1..];
      }
      forall i, j | 0 < i < j < |r| ensures Before(r[i], r[j]) {
        assert r[i] == r[1..][i - 1] && r[j] == r[1..][j - 1];
      }
    }
  }

  /** Distinct ids make the order strict. */
  lemma {:induction false} OrderSorted(keys: seq<Key>)
    requires DistinctIds(keys)
    ensures Sorted(Order(keys)) && DistinctIds(Order(keys))
  {
    if keys != [] {
      OrderSorted(keys[1..]);
      OrderMembers(keys[1..]);
      var rest := Order(keys[1..]);
      forall i | 0 <= i < |rest| ensures rest[i].id != keys[0].id {
        assert rest[i] in keys[1..];
      }
      InsertSorted(keys[0], rest);
      InsertKeepsDistinct(keys[0], rest);
    }
  }

  lemma {:induction false} InsertKeepsDistinct(e: Key, sorted: seq<Key>)
    requires DistinctIds(sorted) && forall i :: 0 <= i < |sorted| ==> sorted[i].id != e.id
    ensures DistinctIds(Insert(e, sorted))
  {
    if sorted == [] || Before(e, sorted[0]) {
    } else {
      InsertKeepsDistinct(e, sorted[1..]);
      InsertMembers(e, sorted[1..]);
      var r := Insert(e, sorted);
      assert r[1..] == Insert(e, sorted[1..]);
      forall j | 0 < j < |r| ensures r[0].id != r[j].id {
        assert r[j] in r[1..];
      }
      forall i, j | 0 < i < j < |r| ensures r[i].id != r[j].id {
        assert r[i] == r[1..][i - 1] && r[j] == r[1..][j - 1];
      }
    }
  }

  // ----- Dropping rows commutes with sorting -----

  function Keep(keys: seq<Key>, ids: set<nat>): seq<Key> {
    if keys == [] then []
    else if keys[0].id in ids then [keys[0]] + Keep(keys[1..], ids)
    else Keep(keys[1..], ids)
  }

  lemma {:induction false} KeepMembers(keys: seq<Key>, ids: set<nat>)
    ensures forall x :: x in Keep(keys, ids) <==> x in keys && x.id in ids
  {
    if keys != [] {
      KeepMembers(keys[1..], ids);
      assert keys == [keys[0]] + keys[1..];
    }
  }

  lemma {:induction false} InsertKeep(e: Key, sorted: seq<Key>, ids: set<nat>)
    requires Sorted(sorted)
    ensures Keep(Insert(e, sorted), ids)
         == if e.id in ids then Insert(e, Keep(sorted, ids)) else Keep(sorted, ids)
  {
    if sorted == [] {
    } else if Before(e, sorted[0]) {
      assert ([e] + sorted)[1..] == sorted;
      KeepMembers(sorted, ids);
      forall i | 0 <= i < |Keep(sorted, ids)| ensures Before(e, Keep(sorted, ids)[i]) {
        assert Keep(sorted, ids)[i] in sorted;
      }
    } else {
      var r := Insert(e, sorted);
      assert r[0] == sorted[0] && r[1..] == Insert(e, sorted[1..]);
      InsertKeep(e, sorted[1..], ids);
      if e.id in ids && sorted[0].id in ids {
        assert Keep(sorted, ids)[1..] == Keep(sorted[1..], ids);
      }
    }
  }

  lemma {:induction false} OrderKeep(keys: seq<Key>, ids: set<nat>)
    requires DistinctIds(keys)
    ensures Order(Keep(keys, ids)) == Keep(Order(keys), ids)
  {
    if keys != [] {
      OrderKeep(keys[1..], ids);
      OrderSorted(keys[1..]);
      InsertKeep(keys[0], Order(keys[1..]), ids);
      if keys[0].id in ids {
        assert Keep(keys, ids)[1..] == Keep(keys[1..], ids);
      }
    }
  }
}
