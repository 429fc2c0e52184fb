/** Go's order on strings, and the sorted keys of a map. */
module Sorting {
  import opened Text

  predicate Less(a: Bytes, b: Bytes) {
    b != [] && (a == [] || a[0] < b[0] || (a[0] == b[0] && Less(a[1..], b[1..])))
  }

  lemma {:induction false} LessIsTotal(a: Bytes, b: Bytes)
    ensures Less(a, b) || Less(b, a) || a == b
    ensures !(Less(a, b) && Less(b, a))
  {
    if a != [] && b != [] && a[0] == b[0] {
      LessIsTotal(a[1..], b[1..]);
      assert a == [a[0]] + a[1..] && b == [b[0]] + b[1..];
    }
  }

  lemma {:induction false} LessIsTransitive(a: Bytes, b: Bytes, c: Bytes)
    requires Less(a, b) && Less(b, c)
    ensures Less(a, c)
  {
    if a != [] && a[0] == b[0] == c[0] {
      LessIsTransitive(a[1..], b[1..], c[1..]);
    }
  }

  predicate StrictlySorted(order: seq<Bytes>) {
    forall i, j :: 0 <= i < j < |order| ==> Less(order[i], order[j])
  }

  function Elements(order: seq<Bytes>): set<Bytes> {
    set key | key in order
  }

  /** `order` lists exactly `keys`, ascending. */
  predicate IsSorting(order: seq<Bytes>, keys: set<Bytes>) {
    StrictlySorted(order) && Elements(order) == keys
  }

  lemma SortedIsDuplicateFree(order: seq<Bytes>, i: nat, j: nat)
    requires StrictlySorted(order) && i < |order| && j < |order| && order[i] == order[j]
    ensures i == j
  {
    LessIsTotal(order[i], order[j]);
  }

  /** There is one such list only. */
  lemma {:induction false} SortingIsUnique(a: seq<Bytes>, b: seq<Bytes>, keys: set<Bytes>)
    requires IsSorting(a, keys) && IsSorting(b, keys)
    ensures a == b
  {
    assert forall i :: 0 <= i < |a| ==> a[i] in Elements(b);
    assert forall i :: 0 <= i < |b| ==> b[i] in Elements(a);
    if a != [] && b != [] {
      FirstIsLeast(a, b[0]);
      FirstIsLeast(b, a[0]);
      LessIsTotal(a[0], b[0]);
      RestIsSorting(a, keys);
      RestIsSorting(b, keys);
      SortingIsUnique(a[1..], b[1..], keys - {a[0]});
      assert a == [a[0]] + a[1..] && b == [b[0]] + b[1..];
    }
  }

  lemma {:induction false} SortingCounts(order: seq<Bytes>, keys: set<Bytes>)
    requires IsSorting(order, keys)
    ensures |order| == |keys|
  {
    if order == [] {
      assert keys == {};
    } else {
      RestIsSorting(order, keys);
      SortingCounts(order[1..], keys - {order[0]});
      assert order[0] in Elements(order);
    }
  }

  lemma FirstIsLeast(order: seq<Bytes>, key: Bytes)
    requires StrictlySorted(order) && order != [] && (key in Elements(order) || key in order)
    ensures order[0] == key || Less(order[0], key)
  {
    var i :| 0 <= i < |order| && order[i] == key;
  }

  lemma RestIsSorting(order: seq<Bytes>, keys: set<Bytes>)
    requires IsSorting(order, keys) && order != []
    ensures IsSorting(order[1..], keys - {order[0]})
  {
    forall key
      ensures key in Elements(order[1..]) <==> key in keys - {order[0]}
    {
      if key in order[1..] {
        var i :| 0 <= i < |order[1..]| && order[1..][i] == key;
        if key == order[0] {
          SortedIsDuplicateFree(order, 0, i + 1);
        }
        assert order[i + 1] in Elements(order);
      }
      if key in keys - {order[0]} {
        assert key in Elements(order);
        var i :| 0 <= i < |order| && order[i] == key;
        assert order[1..][i - 1] == key;
      }
    }
  }

  lemma InsertedIsSorted(order: seq<Bytes>, i: nat, key: Bytes)
    requires StrictlySorted(order) && i <= |order|
    requires forall j :: 0 <= j < i ==> Less(order[j], key)
    requires i < |order| ==> Less(key, order[i])
    ensures StrictlySorted(order[..i] + [key] + order[i..])
  {
    var inserted := order[..i] + [key] + order[i..];
    forall j, k | 0 <= j < k < |inserted|
      ensures Less(inserted[j], inserted[k])
    {
      if j == i {
        assert inserted[k] == order[k - 1];
        if k - 1 > i {
          LessIsTransitive(key, order[i], order[k - 1]);
        }
      }
    }
  }

  method SortKeys(keys: set<Bytes>) returns (order: seq<Bytes>)
    ensures IsSorting(order, keys)
  {
    order := [];
    var rest := keys;
    while rest != {}
      invariant rest <= keys
      invariant StrictlySorted(order)
      invariant Elements(order) == keys - rest
      decreases rest
    {
      var key :| key in rest;
      rest := rest - {key};
      var i := 0;
      while i < |order| && Less(order[i], key)
        invariant 0 <= i <= |order|
        invariant forall j :: 0 <= j < i ==> Less(order[j], key)
      {
        i := i + 1;
      }
      if i < |order| {
        assert order[i] in Elements(order);
        LessIsTotal(order[i], key);
      }
      InsertedIsSorted(order, i, key);
      ghost var before := order;
      order := order[..i] + [key] + order[i..];
      forall x
        ensures x in order <==> x in before || x == key
      {
        if x in before {
          var j :| 0 <= j < |before| && before[j] == x;
          assert order[if j < i then j else j + 1] == x;
        }
        assert order[i] == key;
      }
      assert Elements(order) == Elements(before) + {key};
    }
  }
}
