/** Iteration orders of Go maps: Go leaves the order open, so a statement about a loop over a map
    is a statement about every sequence described by `IsOrder`. */
module Orders {

  /** Every key exactly once. */
  ghost predicate IsOrder<T>(order: seq<T>, keys: set<T>) {
    && (forall k | k in order :: k in keys)
    && (forall k | k in keys :: k in order)
    && Distinct(order)
  }

  ghost predicate Distinct<T>(order: seq<T>) {
    forall i, j | 0 <= i < j < |order| :: order[i] != order[j]
  }

  lemma EmptyOrder<T>(order: seq<T>, keys: set<T>)
    requires IsOrder(order, keys)
    ensures order == [] <==> keys == {}
  {
    if order != [] {
      assert order[0] in keys;
    }
  }

  lemma NothingVisited<T>(keys: set<T>)
    ensures IsOrder([], keys - keys) && keys - {} == keys
  {
  }

  /** One more key was visited: `left` were not visited before. */
  lemma OneMoreVisited<T>(order: seq<T>, keys: set<T>, left: set<T>, k: T)
    requires left <= keys && IsOrder(order, keys - left) && k in left
    ensures IsOrder(order + [k], keys - (left - {k})) && forall x | x in order :: x in keys
  {
    ExtendOrder(order, keys - left, k);
    assert keys - left + {k} == keys - (left - {k});
  }

  lemma ExtendOrder<T>(order: seq<T>, keys: set<T>, k: T)
    requires IsOrder(order, keys) && k !in keys
    ensures IsOrder(order + [k], keys + {k})
  {
  }

  lemma {:induction false} AnOrder<T>(keys: set<T>) returns (order: seq<T>)
    ensures IsOrder(order, keys)
  {
    if keys == {} {
      order := [];
    } else {
      var k :| k in keys;
      order := AnOrder(keys - {k});
      ExtendOrder(order, keys - {k}, k);
      assert keys - {k} + {k} == keys;
      order := order + [k];
    }
  }

  lemma ConcatOrders<T>(a: seq<T>, b: seq<T>, x: set<T>, y: set<T>)
    requires IsOrder(a, x) && IsOrder(b, y) && x !! y
    ensures IsOrder(a + b, x + y)
  {
    forall i, j | 0 <= i < j < |a + b| ensures (a + b)[i] != (a + b)[j] {
      if i < |a| <= j {
        assert a[i] in x && b[j - |a|] in y;
      }
    }
  }

  /** The first elements of an order, as a set. */
  lemma InitOfOrder<T>(order: seq<T>, keys: set<T>)
    requires IsOrder(order, keys) && order != []
    ensures var k := order[|order| - 1]; k in keys && IsOrder(order[..|order| - 1], keys - {k})
  {
    var init, k := order[..|order| - 1], order[|order| - 1];
    assert order == init + [k];
    assert k in order;
  }

  lemma {:induction false} OrderLength<T>(order: seq<T>, keys: set<T>)
    requires IsOrder(order, keys)
    ensures |order| == |keys|
  {
    EmptyOrder(order, keys);
    if order != [] {
      InitOfOrder(order, keys);
      OrderLength(order[..|order| - 1], keys - {order[|order| - 1]});
    }
  }

  lemma OnlyElement<T>(s: set<T>, x: T)
    requires x in s && |s| <= 1
    ensures s == {x}
  {
    assert |s - {x}| == |s| - 1;
    assert s == s - {x} + {x};
  }
}
