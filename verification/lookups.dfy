/**
 * The Go idiom `m := map[string]T{}; for _, x := range xs { m[key(x)] = x }`
 * used by both catalog `init` functions, as a specification function.
 */
module Lookups {

  /** The map the loop has built after visiting all of `xs`: later entries overwrite earlier ones. */
  function IndexBy<T>(xs: seq<T>, key: T -> string): map<string, T>
  {
    if xs == [] then map[]
    else IndexBy(xs[..|xs| - 1], key)[key(xs[|xs| - 1]) := xs[|xs| - 1]]
  }

  predicate DistinctKeys<T>(xs: seq<T>, key: T -> string)
  {
    forall i, j | 0 <= i < j < |xs| :: key(xs[i]) != key(xs[j])
  }

  /** The keys of the built map are exactly the keys of the entries. */
  lemma {:induction false} IndexByKeys<T>(xs: seq<T>, key: T -> string)
    ensures IndexBy(xs, key).Keys == set i | 0 <= i < |xs| :: key(xs[i])
  {
    if xs != [] {
      var init := xs[..|xs| - 1];
      IndexByKeys(init, key);
      assert forall i | 0 <= i < |init| :: init[i] == xs[i];
      var s := set i | 0 <= i < |xs| :: key(xs[i]);
      var s' := set i | 0 <= i < |init| :: key(init[i]);
      assert s == s' + {key(xs[|xs| - 1])} by {
        forall k | k in s ensures k in s' + {key(xs[|xs| - 1])} {
          var i :| 0 <= i < |xs| && key(xs[i]) == k;
          if i < |init| { assert key(init[i]) == k; }
        }
      }
    }
  }

  /** Every value is stored under its own key and comes from `xs`. */
  lemma {:induction false} IndexByValues<T>(xs: seq<T>, key: T -> string, k: string)
    requires k in IndexBy(xs, key)
    ensures key(IndexBy(xs, key)[k]) == k
    ensures exists i :: 0 <= i < |xs| && xs[i] == IndexBy(xs, key)[k]
  {
    var last := |xs| - 1;
    if key(xs[last]) != k {
      IndexByValues(xs[..last], key, k);
      var i :| 0 <= i < last && xs[..last][i] == IndexBy(xs[..last], key)[k];
      assert xs[i] == IndexBy(xs, key)[k];
    }
  }

  /** With distinct keys, each entry is found under its key. */
  lemma {:induction false} IndexByFinds<T>(xs: seq<T>, key: T -> string, i: int)
    requires DistinctKeys(xs, key)
    requires 0 <= i < |xs|
    ensures key(xs[i]) in IndexBy(xs, key)
    ensures IndexBy(xs, key)[key(xs[i])] == xs[i]
  {
    var last := |xs| - 1;
    if i < last {
      var init := xs[..last];
      assert DistinctKeys(init, key) by {
        forall a, b | 0 <= a < b < |init| ensures key(init[a]) != key(init[b]) {
          assert init[a] == xs[a] && init[b] == xs[b];
        }
      }
      IndexByFinds(init, key, i);
      assert init[i] == xs[i];
    }
  }
}
