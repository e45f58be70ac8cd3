/** How many entries of a map satisfy a predicate, and how updates change that number. */
module Counting {
  ghost function Where<K, V>(m: map<K, V>, p: V -> bool): set<K>
  {
    set k | k in m && p(m[k])
  }

  ghost function Count<K, V>(m: map<K, V>, p: V -> bool): nat
  {
    |Where(m, p)|
  }

  /** Every key of `ks` now maps to `v`. */
  function Repaint<K, V>(m: map<K, V>, ks: set<K>, v: V): map<K, V>
  {
    map k | k in m :: if k in ks then v else m[k]
  }

  ghost function One(b: bool): nat {
    if b then 1 else 0
  }

  lemma CountUpdate<K, V>(m: map<K, V>, k: K, v: V, p: V -> bool)
    ensures Count(m[k := v], p) == Count(m, p) - One(k in m && p(m[k])) + One(p(v))
  {
    var rest := Where(m, p) - {k};
    if k in m && p(m[k]) {
      assert Where(m, p) == rest + {k};
    } else {
      assert Where(m, p) == rest;
    }
    if p(v) {
      assert Where(m[k := v], p) == rest + {k};
    } else {
      assert Where(m[k := v], p) == rest;
    }
  }

  lemma CountRemove<K, V>(m: map<K, V>, k: K, p: V -> bool)
    ensures Count(m - {k}, p) == Count(m, p) - One(k in m && p(m[k]))
  {
    var rest := Where(m, p) - {k};
    if k in m && p(m[k]) {
      assert Where(m, p) == rest + {k};
    } else {
      assert Where(m, p) == rest;
    }
    assert Where(m - {k}, p) == rest;
  }

  lemma CountZero<K, V>(m: map<K, V>, p: V -> bool)
    ensures Count(m, p) == 0 <==> forall k :: k in m ==> !p(m[k])
  {
    if k :| k in m && p(m[k]) {
      assert k in Where(m, p);
    } else {
      assert Where(m, p) == {};
    }
  }

  /** Repainting keys that did not satisfy `p` adds all of them or none. */
  lemma CountRepaint<K, V>(m: map<K, V>, ks: set<K>, v: V, p: V -> bool)
    requires ks <= m.Keys
    requires forall k :: k in ks ==> !p(m[k])
    ensures Count(Repaint(m, ks, v), p) == Count(m, p) + if p(v) then |ks| else 0
  {
    assert Where(m, p) !! ks;
    if p(v) {
      assert Where(Repaint(m, ks, v), p) == Where(m, p) + ks;
    } else {
      assert Where(Repaint(m, ks, v), p) == Where(m, p);
    }
  }
}
