/** Counting the threads whose program counter is of one kind. */
module Counting {

  ghost function Where<K, V>(m: map<K, V>, p: V -> bool): set<K>
  {
    set k | k in m && p(m[k])
  }

  ghost function Count<K, V>(m: map<K, V>, p: V -> bool): nat
  {
    |Where(m, p)|
  }

  function One(b: bool): nat { if b then 1 else 0 }

  /** Moving one thread changes each count by what it leaves and what it enters. */
  lemma CountUpdate<K, V>(m: map<K, V>, k: K, v: V, p: V -> bool)
    requires k in m
    ensures Count(m[k := v], p) == Count(m, p) - One(p(m[k])) + One(p(v))
  {
    if p(v) {
      assert Where(m[k := v], p) == Where(m, p) + {k};
    } else {
      assert Where(m[k := v], p) == Where(m, p) - {k};
    }
  }

  lemma CountZero<K, V>(m: map<K, V>, p: V -> bool)
    ensures Count(m, p) == 0 <==> forall k :: k in m ==> !p(m[k])
  {
    if k :| k in m && p(m[k]) {
      assert k in Where(m, p);
    } else {
      assert Where(m, p) == {};
    }
  }

  lemma CountSame<K, V>(m: map<K, V>, n: map<K, V>, p: V -> bool)
    requires m.Keys == n.Keys && forall k :: k in m ==> p(m[k]) == p(n[k])
    ensures Count(m, p) == Count(n, p)
  {
    assert Where(m, p) == Where(n, p);
  }
}
