/** Small shared definitions. */
module Common {
  datatype Option<+T> = None | Some(value: T)

  function Pow2(n: nat): (r: nat)
    ensures r >= 1
  {
    if n == 0 then 1 else 2 * Pow2(n - 1)
  }

  function Range(lo: nat, hi: nat): (r: set<nat>)
    requires lo <= hi
    ensures |r| == hi - lo && forall a: nat :: a in r <==> lo <= a < hi
    decreases hi - lo
  {
    if lo == hi then {} else Range(lo, hi - 1) + {hi - 1}
  }

  /** A subset is no larger, and of the same size only when it is the whole set. */
  lemma SubsetSize<T>(a: set<T>, b: set<T>)
    requires a <= b
    ensures |a| <= |b| && (|a| == |b| <==> a == b)
  {
    assert b == a + (b - a);
  }

  /** The two maps agree on every key but this one. */
  ghost predicate SameBut<V>(a: map<string, V>, b: map<string, V>, x: string) {
    forall m :: m != x ==> (m in a <==> m in b) && (m in a ==> a[m] == b[m])
  }

  /** The two maps differ in one key at most. */
  ghost predicate DifferInOne<V>(a: map<string, V>, b: map<string, V>) {
    exists x :: SameBut(a, b, x)
  }
}
