/**
 * Sums of the values of an integer-valued map over a finite set of its keys.
 * Kotlin's `values.sum()` and the `getOrDefault(k, 0) + count` accumulation in the
 * statistics screen are specified with these.
 */
module Sums {

  /** Some element of a non-empty set; the sum below peels elements off in this order. */
  ghost function Pick<K>(keys: set<K>): (k: K)
    requires keys != {}
    ensures k in keys
  {
    var k :| k in keys; k
  }

  /** The sum of `f[k]` over the keys `k` in `keys`. */
  ghost function Sum<K>(keys: set<K>, f: map<K, int>): int
    requires keys <= f.Keys
    decreases keys
  {
    if keys == {} then 0 else f[Pick(keys)] + Sum(keys - {Pick(keys)}, f)
  }

  /** The sum of all the values of a map (`m.values.sum()`). */
  ghost function Total<K>(f: map<K, int>): int {
    Sum(f.Keys, f)
  }

  /** Any key, not only the one `Pick` chooses, can be peeled off a sum. */
  lemma {:induction false} SumRemove<K>(keys: set<K>, f: map<K, int>, y: K)
    requires keys <= f.Keys && y in keys
    ensures Sum(keys, f) == f[y] + Sum(keys - {y}, f)
    decreases keys
  {
    var x := Pick(keys);
    if x != y {
      SumRemove(keys - {x}, f, y);
      SumRemove(keys - {y}, f, x);
      assert keys - {x} - {y} == keys - {y} - {x};
    }
  }

  /** Two maps that agree on `keys` have the same sum over `keys`. */
  lemma {:induction false} SumAgree<K>(keys: set<K>, f: map<K, int>, g: map<K, int>)
    requires keys <= f.Keys && keys <= g.Keys
    requires forall k :: k in keys ==> f[k] == g[k]
    ensures Sum(keys, f) == Sum(keys, g)
    decreases keys
  {
    if keys != {} {
      var x := Pick(keys);
      SumAgree(keys - {x}, f, g);
    }
  }

  /** With non-negative values, a sum over fewer keys is no larger. */
  lemma {:induction false} SumSubset<K>(small: set<K>, big: set<K>, f: map<K, int>)
    requires small <= big && big <= f.Keys
    requires forall k :: k in big ==> f[k] >= 0
    ensures Sum(small, f) <= Sum(big, f)
    decreases big
  {
    if big - small != {} {
      var y :| y in big - small;
      SumRemove(big, f, y);
      SumSubset(small, big - {y}, f);
    } else {
      assert forall k :: k in big ==> k in small by {
        forall k | k in big ensures k in small {
          assert k !in big - small;
        }
      }
      assert small == big;
    }
  }

  /** Updating one entry changes the total by the difference. */
  lemma TotalUpdate<K>(f: map<K, int>, k: K, v: int)
    ensures Total(f[k := v]) == Total(f) - (if k in f then f[k] else 0) + v
  {
    var g := f[k := v];
    SumRemove(g.Keys, g, k);
    SumAgree(g.Keys - {k}, g, f);
    if k in f {
      SumRemove(f.Keys, f, k);
      assert g.Keys - {k} == f.Keys - {k};
    } else {
      assert g.Keys - {k} == f.Keys;
    }
  }

  /** Adding `c` to one entry (created at 0 if missing) adds `c` to the total. */
  lemma TotalAdd<K>(f: map<K, int>, g: map<K, int>, k: K, c: int)
    requires g == f[k := (if k in f then f[k] else 0) + c]
    ensures Total(g) == Total(f) + c
  {
    TotalUpdate(f, k, (if k in f then f[k] else 0) + c);
  }
}
