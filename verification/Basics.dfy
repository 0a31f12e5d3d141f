/** Options, and counting the rows of a table that satisfy a condition. */
module Basics {

  datatype Option<+T> = None | Some(value: T)

  function Hits<K(==), V>(m: map<K, V>, p: V -> bool): set<K> {
    set k | k in m && p(m[k])
  }

  /** How many rows of table `m` satisfy `p`: a `select count(*) ... where p`. */
  function Count<K(==), V>(m: map<K, V>, p: V -> bool): nat {
    |Hits(m, p)|
  }

  lemma HitsWrite<K, V>(m: map<K, V>, k: K, v: V, p: V -> bool)
    ensures Hits(m[k := v], p) == if p(v) then Hits(m, p) + {k} else Hits(m, p) - {k}
  {
  }

  /** Writing one row changes the count by that row alone. */
  lemma CountWrite<K, V>(m: map<K, V>, k: K, v: V, p: V -> bool)
    ensures Count(m[k := v], p) == Count(m, p)
                                   - (if k in m && p(m[k]) then 1 else 0)
                                   + (if p(v) then 1 else 0)
  {
    HitsWrite(m, k, v, p);
    ToggleSize(Hits(m, p), k);
  }

  lemma ToggleSize<T>(s: set<T>, x: T)
    ensures |s + {x}| == |s| + if x in s then 0 else 1
    ensures |s - {x}| == |s| - if x in s then 1 else 0
  {
    if x in s {
      assert s + {x} == s;
    } else {
      assert s - {x} == s;
    }
  }

  /** An update that keeps every row's answer to `p` keeps the count. */
  lemma CountSame<K, V>(m: map<K, V>, n: map<K, V>, p: V -> bool)
    requires m.Keys == n.Keys
    requires forall k | k in m :: p(m[k]) == p(n[k])
    ensures Count(m, p) == Count(n, p)
  {
    assert Hits(m, p) == Hits(n, p);
  }

  /** A condition that holds of fewer rows counts no more. */
  lemma CountFewer<K, V>(m: map<K, V>, n: map<K, V>, p: V -> bool, q: V -> bool)
    requires m.Keys <= n.Keys
    requires forall k | k in m && p(m[k]) :: q(n[k])
    ensures Count(m, p) <= Count(n, q)
  {
    SubsetSize(Hits(m, p), Hits(n, q));
  }

  lemma CountNone<K, V>(m: map<K, V>, p: V -> bool)
    requires forall k | k in m :: !p(m[k])
    ensures Count(m, p) == 0
  {
    assert Hits(m, p) == {};
  }

  lemma {:induction false} SubsetSize<T>(a: set<T>, b: set<T>)
    requires a <= b
    ensures |a| <= |b|
  {
    if a != {} {
      var x :| x in a;
      SubsetSize(a - {x}, b - {x});
    }
  }
}
