/** A least-recently-used map as a recency order and its entries. */
module Lru {

  import opened Basics
  import opened Wrappers

  datatype Lru<V> = Lru(order: seq<nat>, entries: map<nat, V>)

  /** The order lists every key once and no more than the capacity. */
  ghost predicate Valid<V>(c: Lru<V>, capacity: nat) {
    && Distinct(c.order) && |c.order| <= capacity
    && forall k :: k in c.order <==> k in c.entries
  }

  function Without(s: seq<nat>, k: nat): seq<nat> {
    if s == [] then []
    else if s[0] == k then s[1..]
    else [s[0]] + Without(s[1..], k)
  }

  function Promote(s: seq<nat>, k: nat): seq<nat> {
    [k] + Without(s, k)
  }

  function Lookup<V>(c: Lru<V>, k: nat): Option<V> {
    if k in c.entries then Some(c.entries[k]) else None
  }

  function Touch<V>(c: Lru<V>, k: nat): Lru<V> {
    if k in c.entries then c.(order := Promote(c.order, k)) else c
  }

  /** Puts `k` in front and drops the key that no longer fits. */
  function Put<V>(c: Lru<V>, k: nat, v: V, capacity: nat): Lru<V> {
    var order, entries := Promote(c.order, k), c.entries[k := v];
    if |order| <= capacity then Lru(order, entries)
    else Lru(order[..|order| - 1], entries - {order[|order| - 1]})
  }

  function Pop<V>(c: Lru<V>, k: nat): Lru<V> {
    Lru(Without(c.order, k), c.entries - {k})
  }

  function Empty<V>(): Lru<V> {
    Lru([], map[])
  }

  /** Keys used more recently than `h`. */
  function Front(s: seq<nat>, h: nat): set<nat> {
    if s == [] || s[0] == h then {} else {s[0]} + Front(s[1..], h)
  }

  // ----- Orders

  lemma {:induction false} WithoutHas(s: seq<nat>, k: nat, x: nat)
    requires Distinct(s)
    ensures x in Without(s, k) <==> x in s && x != k
    decreases |s|
  {
    if s != [] {
      assert s == [s[0]] + s[1..];
      if s[0] != k { WithoutHas(s[1..], k, x); }
    }
  }

  lemma {:induction false} WithoutShape(s: seq<nat>, k: nat)
    requires Distinct(s)
    ensures Distinct(Without(s, k)) && |Without(s, k)| == if k in s then |s| - 1 else |s|
    decreases |s|
  {
    if s != [] {
      assert s == [s[0]] + s[1..];
      if s[0] != k {
        WithoutShape(s[1..], k);
        WithoutHas(s[1..], k, s[0]);
      }
    }
  }

  lemma WithoutElems(s: seq<nat>, k: nat)
    requires Distinct(s)
    ensures Distinct(Without(s, k)) && |Without(s, k)| == if k in s then |s| - 1 else |s|
    ensures forall x :: x in Without(s, k) <==> x in s && x != k
  {
    WithoutShape(s, k);
    forall x ensures x in Without(s, k) <==> x in s && x != k { WithoutHas(s, k, x); }
  }

  lemma ChopLast(s: seq<nat>)
    requires Distinct(s) && s != []
    ensures var m := |s| - 1; Distinct(s[..m]) && forall x :: x in s[..m] <==> x in s && x != s[m]
  {
    var m := |s| - 1;
    assert s == s[..m] + [s[m]];
  }

  lemma PromoteElems(s: seq<nat>, k: nat)
    requires Distinct(s)
    ensures Distinct(Promote(s, k)) && forall x :: x in Promote(s, k) <==> x in s || x == k
    ensures |Promote(s, k)| == if k in s then |s| else |s| + 1
  {
    WithoutElems(s, k);
  }

  lemma {:induction false} FrontWithout(s: seq<nat>, k: nat, h: nat)
    requires Distinct(s) && h != k
    ensures Front(Without(s, k), h) == Front(s, h) - {k}
    decreases |s|
  {
    if s != [] {
      if s[0] != k {
        if s[0] != h {
          FrontWithout(s[1..], k, h);
          assert Without(s, k)[1..] == Without(s[1..], k);
        }
      } else {
        FrontElems(s[1..], h);
        assert k !in s[1..];
      }
    }
  }

  lemma {:induction false} FrontElems(s: seq<nat>, h: nat)
    ensures forall x :: x in Front(s, h) ==> x in s && x != h
    decreases |s|
  {
    if s != [] && s[0] != h { FrontElems(s[1..], h); }
  }

  /** Promoting another key puts it in front; promoting `h` leaves nothing there. */
  lemma FrontPromote(s: seq<nat>, k: nat, h: nat)
    requires Distinct(s)
    ensures Front(Promote(s, k), h) == if k == h then {} else Front(s, h) + {k}
  {
    if k != h {
      FrontWithout(s, k, h);
      assert Promote(s, k)[1..] == Without(s, k);
    }
  }

  /** `h` stands right behind the keys in front of it. */
  lemma {:induction false} FrontIsIndex(s: seq<nat>, h: nat)
    requires Distinct(s) && h in s
    ensures |Front(s, h)| < |s| && s[|Front(s, h)|] == h
    decreases |s|
  {
    if s[0] != h {
      FrontIsIndex(s[1..], h);
      FrontElems(s[1..], h);
      assert s[0] !in Front(s[1..], h);
    }
  }

  lemma {:induction false} FrontOfPrefix(s: seq<nat>, h: nat, m: nat)
    requires m <= |s| && h in s[..m]
    ensures Front(s[..m], h) == Front(s, h)
    decreases |s|
  {
    if s[0] != h {
      assert s[..m][1..] == s[1..][..m - 1];
      assert h in s[1..][..m - 1];
      FrontOfPrefix(s[1..], h, m - 1);
    }
  }

  // ----- Operations keep the map valid

  lemma TouchValid<V>(c: Lru<V>, k: nat, capacity: nat)
    requires Valid(c, capacity)
    ensures Valid(Touch(c, k), capacity)
  {
    PromoteElems(c.order, k);
  }

  lemma PopValid<V>(c: Lru<V>, k: nat, capacity: nat)
    requires Valid(c, capacity)
    ensures Valid(Pop(c, k), capacity)
  {
    WithoutElems(c.order, k);
  }

  lemma PutValid<V>(c: Lru<V>, k: nat, v: V, capacity: nat)
    requires Valid(c, capacity) && capacity > 0
    ensures Valid(Put(c, k, v, capacity), capacity)
    ensures Lookup(Put(c, k, v, capacity), k) == Some(v)
    ensures forall h :: h != k && h in Put(c, k, v, capacity).entries ==>
        h in c.entries && Put(c, k, v, capacity).entries[h] == c.entries[h]
  {
    PromoteElems(c.order, k);
    var order := Promote(c.order, k);
    if |order| > capacity {
      ChopLast(order);
      assert order[0] == k && order[|order| - 1] != k;
    }
  }

  lemma Promoted(s: seq<nat>, k: nat, h: nat)
    requires Distinct(s) && h in s && h != k
    ensures var order := Promote(s, k);
      Distinct(order) && h in order && Front(order, h) == Front(s, h) + {k} && |Front(s, h) + {k}| < |order|
  {
    PromoteElems(s, k);
    FrontPromote(s, k, h);
    FrontIsIndex(Promote(s, k), h);
  }

  /** A put keeps exactly the keys with fewer than `capacity` others in front of them. */
  lemma PutKeepsIff<V>(c: Lru<V>, k: nat, v: V, capacity: nat, h: nat)
    requires Valid(c, capacity) && capacity > 0 && h in c.entries && h != k
    ensures h in Put(c, k, v, capacity).entries <==> |Front(c.order, h) + {k}| < capacity
    ensures h in Put(c, k, v, capacity).entries ==> Front(Put(c, k, v, capacity).order, h) == Front(c.order, h) + {k}
  {
    Promoted(c.order, k, h);
    PutShape(c, k, v, capacity);
    if |Promote(c.order, k)| > capacity {
      ChopKeepsIff(Promote(c.order, k), h);
    }
  }

  lemma PutShape<V>(c: Lru<V>, k: nat, v: V, capacity: nat)
    requires Valid(c, capacity)
    ensures var order, c' := Promote(c.order, k), Put(c, k, v, capacity);
      if |order| <= capacity then c' == Lru(order, c.entries[k := v])
      else
        && |order| == capacity + 1 && c'.order == order[..capacity]
        && c'.entries == c.entries[k := v] - {order[capacity]}
  {
    PromoteElems(c.order, k);
  }

  lemma {:induction false} WithoutAbsent(s: seq<nat>, k: nat)
    requires k !in s
    ensures Without(s, k) == s
    decreases |s|
  {
    if s != [] { WithoutAbsent(s[1..], k); }
  }

  /** A put drops the least recent key of a full map that does not hold `k`, and no other. */
  function Dropped<V>(c: Lru<V>, k: nat, capacity: nat): set<nat> {
    if k in c.entries || c.order == [] || |c.order| < capacity then {} else {c.order[|c.order| - 1]}
  }

  lemma PutDrops<V>(c: Lru<V>, k: nat, v: V, capacity: nat)
    requires Valid(c, capacity) && capacity > 0
    ensures Put(c, k, v, capacity).entries == c.entries[k := v] - Dropped(c, k, capacity)
  {
    PutShape(c, k, v, capacity);
    PromoteElems(c.order, k);
    if k !in c.entries { WithoutAbsent(c.order, k); }
  }

  lemma ChopKeepsIff(s: seq<nat>, h: nat)
    requires Distinct(s) && h in s
    ensures var m := |s| - 1;
      (h != s[m] <==> |Front(s, h)| < m) && (h != s[m] ==> Front(s[..m], h) == Front(s, h))
  {
    FrontIsIndex(s, h);
    var m := |s| - 1;
    if h != s[m] {
      ChopLast(s);
      FrontOfPrefix(s, h, m);
    }
  }
}
