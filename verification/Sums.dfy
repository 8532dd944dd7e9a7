/** Sums of natural numbers over finite sets of keys. */
module Sums {

  ghost function Total<K>(w: map<K, nat>, s: set<K>): (sum: nat)
    requires s <= w.Keys
  {
    if s == {} then 0
    else
      var x :| x in s;
      w[x] + Total(w, s - {x})
  }

  /** The sum does not depend on which key is taken out first. */
  lemma {:induction false} TotalTake<K>(w: map<K, nat>, s: set<K>, y: K)
    requires s <= w.Keys && y in s
    ensures Total(w, s) == w[y] + Total(w, s - {y})
    decreases s
  {
    var x :| x in s && Total(w, s) == w[x] + Total(w, s - {x});
    if x != y {
      TotalTake(w, s - {x}, y);
      TotalTake(w, s - {y}, x);
      assert s - {x} - {y} == s - {y} - {x};
    }
  }

  /** Inclusion and exclusion. */
  lemma {:induction false} TotalUnion<K>(w: map<K, nat>, a: set<K>, b: set<K>)
    requires a <= w.Keys && b <= w.Keys
    ensures Total(w, a + b) + Total(w, a * b) == Total(w, a) + Total(w, b)
    decreases a
  {
    if a == {} {
      assert a + b == b && a * b == {};
    } else {
      var x :| x in a;
      var a' := a - {x};
      TotalUnion(w, a', b);
      TotalTake(w, a, x);
      if x in b {
        assert a' + b == a + b && a' * b == a * b - {x};
        TotalTake(w, a * b, x);
      } else {
        assert a' + b == (a + b) - {x} && a' * b == a * b;
        TotalTake(w, a + b, x);
      }
    }
  }

  lemma {:induction false} TotalSubset<K>(w: map<K, nat>, a: set<K>, b: set<K>)
    requires a <= b <= w.Keys
    ensures Total(w, a) <= Total(w, b)
    decreases b
  {
    if a != b {
      var x :| x in b && x !in a;
      TotalTake(w, b, x);
      TotalSubset(w, a, b - {x});
    }
  }

  /** Only the summands matter. */
  lemma {:induction false} TotalAgree<K>(v: map<K, nat>, w: map<K, nat>, s: set<K>)
    requires s <= v.Keys && s <= w.Keys
    requires forall k :: k in s ==> v[k] == w[k]
    ensures Total(v, s) == Total(w, s)
    decreases s
  {
    if s != {} {
      var x :| x in s;
      TotalTake(v, s, x);
      TotalTake(w, s, x);
      TotalAgree(v, w, s - {x});
    }
  }

  /** A loop over a set that takes one key out of what is left. */
  lemma TakeOne<K>(all: set<K>, todo: set<K>, x: K)
    requires x in todo && todo <= all
    ensures all - (todo - {x}) == (all - todo) + {x} && x !in all - todo
  {
  }
}
