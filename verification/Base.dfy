/** Shared vocabulary: identifiers, options and sums over finite tables. */
module Base {

  /** An opaque identifier drawn by `randomUUID()`; freshness is a guard of each step that draws one. */
  type Uuid = nat

  datatype Option<+T> = None | Some(value: T)

  /** The sum of a table of weights. */
  ghost function Sum<K>(m: map<K, nat>): nat {
    if m == map[] then 0
    else
      var k :| k in m;
      m[k] + Sum(m - {k})
  }

  lemma {:induction false} SumRemove<K>(m: map<K, nat>, k: K)
    requires k in m
    ensures Sum(m) == m[k] + Sum(m - {k})
    decreases |m|
  {
    var j :| j in m && Sum(m) == m[j] + Sum(m - {j});
    if j != k {
      SumRemove(m - {j}, k);
      SumRemove(m - {k}, j);
      assert m - {j} - {k} == m - {k} - {j};
    }
  }

  /** Writing one entry changes the sum by exactly the difference it makes. */
  lemma SumUpdate<K>(m: map<K, nat>, k: K, w: nat)
    ensures Sum(m[k := w]) + (if k in m then m[k] else 0) == Sum(m) + w
  {
    SumRemove(m[k := w], k);
    assert m[k := w] - {k} == m - {k};
    if k in m {
      SumRemove(m, k);
    } else {
      assert m - {k} == m;
    }
  }

  /** Finitely many ids leave room above them. */
  lemma {:induction false} Bound(ids: set<nat>) returns (base: nat)
    ensures forall i | i in ids :: i < base
  {
    if ids == {} {
      base := 0;
    } else {
      var x :| x in ids;
      var rest := Bound(ids - {x});
      base := if x < rest then rest else x + 1;
      forall i | i in ids ensures i < base {
        assert i == x || i in ids - {x};
      }
    }
  }

  /** A product, kept away from non-linear arithmetic. */
  function Times(n: nat, m: nat): nat {
    if n == 0 then 0 else Times(n - 1, m) + m
  }

  lemma {:induction false} TimesAtMost(n: nat, k: nat, m: nat)
    requires n <= k
    ensures Times(n, m) <= Times(k, m)
  {
    if n < k { TimesAtMost(n, k - 1, m); }
  }

  lemma {:induction false} TimesSum(n: nat, k: nat, m: nat)
    ensures Times(n + k, m) == Times(n, m) + Times(k, m)
  {
    if k > 0 { TimesSum(n, k - 1, m); }
  }

  lemma {:induction false} TimesOne(n: nat, m: nat)
    ensures Times(n, m + 1) == Times(n, m) + n
  {
    if n > 0 { TimesOne(n - 1, m); }
  }
}
