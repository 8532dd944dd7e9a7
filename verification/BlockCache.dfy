/** The two-tier block cache: deserialized blocks in front of serialized ones. */
module BlockCache {

  import opened Basics
  import opened Wrappers
  import opened Lru

  const CACHE_SCHEMA_VERSION: nat := 2
  const DEFAULT_HOT: nat := 50
  const DEFAULT_WARM: nat := 500

  datatype Config<!B, !S> = Config(hotCapacity: nat, warmCapacity: nat, serialize: B -> Option<S>,
      deserialize: S -> Option<B>)

  datatype Cache<B, S> = Cache(hot: Lru<B>, warm: Lru<S>, version: nat, hotHits: nat, warmHits: nat, misses: nat)

  // ----- Operations on values

  function Fresh<B, S>(): Cache<B, S> {
    Cache(Empty(), Empty(), CACHE_SCHEMA_VERSION, 0, 0, 0)
  }

  function Get<B, S>(cfg: Config<B, S>, c: Cache<B, S>, h: nat): (Cache<B, S>, Option<B>) {
    if h in c.hot.entries then
      (c.(hot := Touch(c.hot, h), hotHits := c.hotHits + 1), Some(c.hot.entries[h]))
    else if c.version != CACHE_SCHEMA_VERSION then
      (c.(hot := Empty(), warm := Empty(), version := CACHE_SCHEMA_VERSION, misses := c.misses + 1), None)
    else if h !in c.warm.entries then
      (c.(misses := c.misses + 1), None)
    else
      var warm := Touch(c.warm, h);
      match cfg.deserialize(c.warm.entries[h])
      case Some(b) => (c.(warm := warm, hot := Put(c.hot, h, b, cfg.hotCapacity), warmHits := c.warmHits + 1), Some(b))
      case None => (c.(warm := Pop(warm, h), misses := c.misses + 1), None)
  }

  function Store<B, S>(cfg: Config<B, S>, c: Cache<B, S>, h: nat, b: B): Cache<B, S> {
    var hot := Put(c.hot, h, b, cfg.hotCapacity);
    match cfg.serialize(b)
    case Some(bytes) => c.(hot := hot, warm := Put(c.warm, h, bytes, cfg.warmCapacity))
    case None => c.(hot := hot)
  }

  function Drop<B, S>(c: Cache<B, S>, h: nat): Cache<B, S> {
    c.(hot := Pop(c.hot, h), warm := Pop(c.warm, h))
  }

  function Reset<B, S>(c: Cache<B, S>): Cache<B, S> {
    c.(hot := Empty(), warm := Empty(), hotHits := 0, warmHits := 0, misses := 0)
  }

  // ----- The cache as an object

  class BlockCacheManager<B(==), S> {
    const cfg: Config<B, S>
    var hot: Lru<B>
    var warm: Lru<S>
    var version: nat
    var hotHits: nat
    var warmHits: nat
    var misses: nat

    ghost function View(): Cache<B, S>
      reads this
    {
      Cache(hot, warm, version, hotHits, warmHits, misses)
    }

    constructor (hotCapacity: nat, warmCapacity: nat, serialize: B -> Option<S>, deserialize: S -> Option<B>)
      ensures View() == Fresh()
      ensures cfg.hotCapacity > 0 && cfg.warmCapacity > 0
      ensures cfg.hotCapacity == (if hotCapacity == 0 then DEFAULT_HOT else hotCapacity)
      ensures cfg.warmCapacity == (if warmCapacity == 0 then DEFAULT_WARM else warmCapacity)
      ensures cfg.serialize == serialize && cfg.deserialize == deserialize
    {
      cfg := Config(if hotCapacity == 0 then DEFAULT_HOT else hotCapacity,
                    if warmCapacity == 0 then DEFAULT_WARM else warmCapacity,
                    serialize, deserialize);
      hot, warm := Empty(), Empty();
      version := CACHE_SCHEMA_VERSION;
      hotHits, warmHits, misses := 0, 0, 0;
    }

    method GetBlock(h: nat) returns (r: Option<B>)
      modifies this
      ensures (View(), r) == Get(cfg, old(View()), h)
    {
      if h in hot.entries {
        r := Lookup(hot, h);
        hot := Touch(hot, h);
        hotHits := hotHits + 1;
        return;
      }
      if version != CACHE_SCHEMA_VERSION {
        hot, warm := Empty(), Empty();
        version := CACHE_SCHEMA_VERSION;
        misses := misses + 1;
        return None;
      }
      if h in warm.entries {
        var bytes := warm.entries[h];
        warm := Touch(warm, h);
        match cfg.deserialize(bytes) {
          case Some(b) =>
            warmHits := warmHits + 1;
            hot := Put(hot, h, b, cfg.hotCapacity);
            return Some(b);
          case None =>
            warm := Pop(warm, h);
        }
      }
      misses := misses + 1;
      r := None;
    }

    method PutBlock(h: nat, b: B)
      modifies this
      ensures View() == Store(cfg, old(View()), h, b)
    {
      hot := Put(hot, h, b, cfg.hotCapacity);
      match cfg.serialize(b) {
        case Some(bytes) => warm := Put(warm, h, bytes, cfg.warmCapacity);
        case None =>
      }
    }

    method Invalidate(h: nat)
      modifies this
      ensures View() == Drop(old(View()), h)
    {
      hot := Pop(hot, h);
      warm := Pop(warm, h);
    }

    method Clear()
      modifies this
      ensures View() == Reset(old(View()))
    {
      hot, warm := Empty(), Empty();
      hotHits, warmHits, misses := 0, 0, 0;
    }
  }

  // ----- Runs

  datatype Op<B> = PutOp(h: nat, b: B) | GetOp(h: nat) | InvalidateOp(h: nat) | ClearOp

  function Apply<B, S>(cfg: Config<B, S>, c: Cache<B, S>, op: Op<B>): Cache<B, S> {
    match op
    case PutOp(h, b) => Store(cfg, c, h, b)
    case GetOp(h) => Get(cfg, c, h).0
    case InvalidateOp(h) => Drop(c, h)
    case ClearOp => Reset(c)
  }

  function After<B, S>(cfg: Config<B, S>, c: Cache<B, S>, ops: seq<Op<B>>): Cache<B, S> {
    if ops == [] then c else Apply(cfg, After(cfg, c, ops[..|ops| - 1]), ops[|ops| - 1])
  }

  function LastPutNext<B>(before: map<nat, B>, op: Op<B>): map<nat, B> {
    match op
    case PutOp(h, b) => before[h := b]
    case GetOp(_) => before
    case InvalidateOp(h) => before - {h}
    case ClearOp => map[]
  }

  /** The block last put at each height since its last invalidate or clear; `start` is
      what was put before the run. */
  function LastPut<B>(start: map<nat, B>, ops: seq<Op<B>>): map<nat, B> {
    if ops == [] then start else LastPutNext(LastPut(start, ops[..|ops| - 1]), ops[|ops| - 1])
  }

  /** Reads since the last clear. */
  function Reads<B>(ops: seq<Op<B>>): nat {
    if ops == [] then 0
    else
      match ops[|ops| - 1]
      case GetOp(_) => Reads(ops[..|ops| - 1]) + 1
      case ClearOp => 0
      case _ => Reads(ops[..|ops| - 1])
  }

  ghost predicate RoundTrips<B(!new), S>(cfg: Config<B, S>) {
    && cfg.hotCapacity > 0 && cfg.warmCapacity > 0
    && forall b :: cfg.serialize(b).Some? && cfg.deserialize(cfg.serialize(b).value) == Some(b)
  }

  /** Both tiers are within capacity and hold nothing but what was put last. */
  ghost predicate Coherent<B, S>(cfg: Config<B, S>, c: Cache<B, S>, last: map<nat, B>) {
    && Valid(c.hot, cfg.hotCapacity) && Valid(c.warm, cfg.warmCapacity) && c.version == CACHE_SCHEMA_VERSION
    && (forall h :: h in c.hot.entries ==> h in last && c.hot.entries[h] == last[h])
    && (forall h :: h in c.warm.entries ==> h in last && cfg.serialize(last[h]) == Some(c.warm.entries[h]))
  }

  lemma GetCoherent<B(!new), S>(cfg: Config<B, S>, c: Cache<B, S>, last: map<nat, B>, h: nat)
    requires RoundTrips(cfg) && Coherent(cfg, c, last)
    ensures Coherent(cfg, Get(cfg, c, h).0, last)
    ensures Get(cfg, c, h).1.Some? <==> h in c.hot.entries || h in c.warm.entries
    ensures Get(cfg, c, h).1.Some? ==> h in last && Get(cfg, c, h).1.value == last[h]
  {
    TouchValid(c.hot, h, cfg.hotCapacity);
    TouchValid(c.warm, h, cfg.warmCapacity);
    if h !in c.hot.entries && h in c.warm.entries {
      PutValid(c.hot, h, last[h], cfg.hotCapacity);
    }
  }

  lemma StoreCoherent<B(!new), S>(cfg: Config<B, S>, c: Cache<B, S>, last: map<nat, B>, h: nat, b: B)
    requires RoundTrips(cfg) && Coherent(cfg, c, last)
    ensures Coherent(cfg, Store(cfg, c, h, b), last[h := b])
  {
    PutValid(c.hot, h, b, cfg.hotCapacity);
    PutValid(c.warm, h, cfg.serialize(b).value, cfg.warmCapacity);
  }

  lemma DropCoherent<B(!new), S>(cfg: Config<B, S>, c: Cache<B, S>, last: map<nat, B>, h: nat)
    requires Coherent(cfg, c, last)
    ensures Coherent(cfg, Drop(c, h), last - {h})
  {
    PopValid(c.hot, h, cfg.hotCapacity);
    PopValid(c.warm, h, cfg.warmCapacity);
  }

  lemma {:induction false} RunCoherent<B(!new), S>(cfg: Config<B, S>, c: Cache<B, S>, last: map<nat, B>,
      ops: seq<Op<B>>)
    requires RoundTrips(cfg) && Coherent(cfg, c, last)
    ensures Coherent(cfg, After(cfg, c, ops), LastPut(last, ops))
    decreases |ops|
  {
    if ops != [] {
      var k := |ops| - 1;
      RunCoherent(cfg, c, last, ops[..k]);
      var c1, last1 := After(cfg, c, ops[..k]), LastPut(last, ops[..k]);
      match ops[k]
      case PutOp(h, b) => StoreCoherent(cfg, c1, last1, h, b);
      case GetOp(h) => GetCoherent(cfg, c1, last1, h);
      case InvalidateOp(h) => DropCoherent(cfg, c1, last1, h);
      case ClearOp =>
    }
  }

  /** After any run a read gives nothing or the block last put at that height, and both
      tiers are within capacity. */
  lemma GetIsLastPut<B(!new), S>(cfg: Config<B, S>, ops: seq<Op<B>>, h: nat)
    requires RoundTrips(cfg)
    ensures var c, last := After(cfg, Fresh(), ops), LastPut(map[], ops);
      && (Get(cfg, c, h).1 == None || (h in last && Get(cfg, c, h).1 == Some(last[h])))
      && |c.hot.entries| <= cfg.hotCapacity && |c.warm.entries| <= cfg.warmCapacity
  {
    RunCoherent(cfg, Fresh(), map[], ops);
    var c, last := After(cfg, Fresh(), ops), LastPut(map[], ops);
    GetCoherent(cfg, c, last, h);
    EntriesCount(c.hot, cfg.hotCapacity);
    EntriesCount(c.warm, cfg.warmCapacity);
  }

  /** The three counters add up to the number of reads since the last clear. */
  lemma {:induction false} CountersAddUp<B(!new), S>(cfg: Config<B, S>, ops: seq<Op<B>>)
    ensures var c := After(cfg, Fresh(), ops); c.hotHits + c.warmHits + c.misses == Reads(ops)
    decreases |ops|
  {
    if ops != [] { CountersAddUp(cfg, ops[..|ops| - 1]); }
  }

  /** Each read is counted once: as a hot hit, as a warm hit, or as a miss when it finds nothing. */
  lemma GetCounts<B(!new), S>(cfg: Config<B, S>, c: Cache<B, S>, h: nat)
    requires c.version == CACHE_SCHEMA_VERSION
    ensures var (c', r) := Get(cfg, c, h);
      && c'.hotHits == c.hotHits + (if h in c.hot.entries then 1 else 0)
      && c'.warmHits == c.warmHits + (if r.Some? && h !in c.hot.entries then 1 else 0)
      && c'.misses == c.misses + (if r.None? then 1 else 0)
      && (r.Some? <==> h in c.hot.entries || (h in c.warm.entries && cfg.deserialize(c.warm.entries[h]).Some?))
  {
  }

  /** Reads since the last clear that found a block. */
  function Found<B, S>(cfg: Config<B, S>, ops: seq<Op<B>>): nat {
    if ops == [] then 0
    else
      var most := ops[..|ops| - 1];
      match ops[|ops| - 1]
      case GetOp(h) => Found(cfg, most) + if Get(cfg, After(cfg, Fresh(), most), h).1.Some? then 1 else 0
      case ClearOp => 0
      case _ => Found(cfg, most)
  }

  /** Hits and misses are the reads that found and that did not find a block. */
  lemma {:induction false} HitsAreFound<B(!new), S>(cfg: Config<B, S>, ops: seq<Op<B>>)
    ensures var c := After(cfg, Fresh(), ops);
      c.version == CACHE_SCHEMA_VERSION && c.hotHits + c.warmHits == Found(cfg, ops) &&
        c.misses == Reads(ops) - Found(cfg, ops)
    decreases |ops|
  {
    if ops != [] {
      var k := |ops| - 1;
      HitsAreFound(cfg, ops[..k]);
      if ops[k].GetOp? { GetCounts(cfg, After(cfg, Fresh(), ops[..k]), ops[k].h); }
    }
  }

  // ----- How long a block is kept

  /** Neither replaces nor removes height `h`. */
  ghost predicate Spares<B(!new)>(ops: seq<Op<B>>, h: nat) {
    forall i :: 0 <= i < |ops| ==> !ops[i].ClearOp? && (ops[i].PutOp? || ops[i].InvalidateOp? ==> ops[i].h != h)
  }

  /** Other heights put or read. */
  function Touched<B>(ops: seq<Op<B>>, h: nat): set<nat> {
    set i | 0 <= i < |ops| && (ops[i].PutOp? || ops[i].GetOp?) && ops[i].h != h :: ops[i].h
  }

  /** `h` is in the warm tier with its block, and behind nothing but heights of `t`. */
  ghost predicate Kept<B, S>(cfg: Config<B, S>, c: Cache<B, S>, h: nat, b: B, t: set<nat>) {
    && h in c.warm.entries && cfg.serialize(b) == Some(c.warm.entries[h]) && Front(c.warm.order, h) <= t
  }

  lemma StoreKeeps<B(!new), S>(cfg: Config<B, S>, c: Cache<B, S>, last: map<nat, B>, h: nat, b: B, t: set<nat>, k: nat,
      x: B)
    requires RoundTrips(cfg) && Coherent(cfg, c, last) && Kept(cfg, c, h, b, t) && k != h
    requires |t + {k}| < cfg.warmCapacity
    ensures Kept(cfg, Store(cfg, c, k, x), h, b, t + {k})
  {
    var bytes := cfg.serialize(x).value;
    PutKeepsIff(c.warm, k, bytes, cfg.warmCapacity, h);
    PutValid(c.warm, k, bytes, cfg.warmCapacity);
    SubsetSize(Front(c.warm.order, h) + {k}, t + {k});
  }

  lemma GetKeeps<B(!new), S>(cfg: Config<B, S>, c: Cache<B, S>, last: map<nat, B>, h: nat, b: B, t: set<nat>, k: nat)
    requires RoundTrips(cfg) && Coherent(cfg, c, last) && Kept(cfg, c, h, b, t)
    ensures Kept(cfg, Get(cfg, c, k).0, h, b, if k == h then t else t + {k})
  {
    FrontPromote(c.warm.order, k, h);
  }

  lemma DropKeeps<B(!new), S>(cfg: Config<B, S>, c: Cache<B, S>, last: map<nat, B>, h: nat, b: B, t: set<nat>, k: nat)
    requires Coherent(cfg, c, last) && Kept(cfg, c, h, b, t) && k != h
    ensures Kept(cfg, Drop(c, k), h, b, t)
  {
    FrontWithout(c.warm.order, k, h);
  }

  lemma TouchedMore<B(!new)>(ops: seq<Op<B>>, h: nat)
    requires ops != []
    ensures var k := |ops| - 1;
      Touched(ops, h) == Touched(ops[..k], h) +
        if (ops[k].PutOp? || ops[k].GetOp?) && ops[k].h != h then {ops[k].h} else {}
  {
    var k := |ops| - 1;
    forall x | x in Touched(ops[..k], h)
      ensures x in Touched(ops, h)
    {
      var i :| 0 <= i < k && (ops[i].PutOp? || ops[i].GetOp?) && ops[i].h != h && ops[i].h == x;
    }
    forall x | x in Touched(ops, h) && !(ops[k].ClearOp?) && x != ops[k].h
      ensures x in Touched(ops[..k], h)
    {
      var i :| 0 <= i < |ops| && (ops[i].PutOp? || ops[i].GetOp?) && ops[i].h != h && ops[i].h == x;
      assert ops[..k][i] == ops[i];
    }
  }

  lemma {:induction false} RunKeeps<B(!new), S>(cfg: Config<B, S>, c: Cache<B, S>, last: map<nat, B>, h: nat, b: B,
      ops: seq<Op<B>>)
    requires RoundTrips(cfg) && Coherent(cfg, c, last) && Kept(cfg, c, h, b, {})
    requires Spares(ops, h) && |Touched(ops, h)| < cfg.warmCapacity
    ensures Kept(cfg, After(cfg, c, ops), h, b, Touched(ops, h))
    decreases |ops|
  {
    if ops != [] {
      var k := |ops| - 1;
      TouchedMore(ops, h);
      SubsetSize(Touched(ops[..k], h), Touched(ops, h));
      RunKeeps(cfg, c, last, h, b, ops[..k]);
      RunCoherent(cfg, c, last, ops[..k]);
      StepKeeps(cfg, After(cfg, c, ops[..k]), LastPut(last, ops[..k]), h, b, Touched(ops[..k], h), ops[k]);
    }
  }

  lemma StepKeeps<B(!new), S>(cfg: Config<B, S>, c: Cache<B, S>, last: map<nat, B>, h: nat, b: B, t: set<nat>,
      op: Op<B>)
    requires RoundTrips(cfg) && Coherent(cfg, c, last) && Kept(cfg, c, h, b, t)
    requires !op.ClearOp? && (op.PutOp? || op.InvalidateOp? ==> op.h != h)
    requires op.PutOp? ==> |t + {op.h}| < cfg.warmCapacity
    ensures Kept(cfg, Apply(cfg, c, op), h, b, t + if (op.PutOp? || op.GetOp?) && op.h != h then {op.h} else {})
  {
    match op
    case PutOp(x, v) => StoreKeeps(cfg, c, last, h, b, t, x, v);
    case GetOp(x) => GetKeeps(cfg, c, last, h, b, t, x);
    case InvalidateOp(x) => DropKeeps(cfg, c, last, h, b, t, x);
  }

  /** A block is a hit as long as fewer than `warmCapacity` other heights were put or read
      since its put. */
  lemma Retained<B(!new), S>(cfg: Config<B, S>, before: seq<Op<B>>, h: nat, b: B, ops: seq<Op<B>>)
    requires RoundTrips(cfg) && Spares(ops, h) && |Touched(ops, h)| < cfg.warmCapacity
    ensures Get(cfg, After(cfg, Store(cfg, After(cfg, Fresh(), before), h, b), ops), h).1 == Some(b)
  {
    var c0, last := After(cfg, Fresh(), before), LastPut(map[], before);
    RunCoherent(cfg, Fresh(), map[], before);
    StoreCoherent(cfg, c0, last, h, b);
    var c := Store(cfg, c0, h, b);
    JustStored(cfg, c0, last, h, b);
    RunKeeps(cfg, c, last[h := b], h, b, ops);
    RunCoherent(cfg, c, last[h := b], ops);
    GetCoherent(cfg, After(cfg, c, ops), LastPut(last[h := b], ops), h);
    StillLast(last[h := b], h, ops);
  }

  lemma JustStored<B(!new), S>(cfg: Config<B, S>, c: Cache<B, S>, last: map<nat, B>, h: nat, b: B)
    requires RoundTrips(cfg) && Coherent(cfg, c, last)
    ensures Kept(cfg, Store(cfg, c, h, b), h, b, {})
  {
    PutValid(c.warm, h, cfg.serialize(b).value, cfg.warmCapacity);
    PutShape(c.warm, h, cfg.serialize(b).value, cfg.warmCapacity);
  }

  lemma {:induction false} StillLast<B(!new)>(last: map<nat, B>, h: nat, ops: seq<Op<B>>)
    requires h in last && Spares(ops, h)
    ensures h in LastPut(last, ops) && LastPut(last, ops)[h] == last[h]
    decreases |ops|
  {
    if ops != [] { StillLast(last, h, ops[..|ops| - 1]); }
  }

  // ----- And how soon it is forgotten

  ghost predicate OnlyPuts<B(!new)>(ops: seq<Op<B>>) {
    forall i :: 0 <= i < |ops| ==> ops[i].PutOp?
  }

  /** Everything put since is in front of `h` where `h` is still present. */
  ghost predicate Pushed<V>(c: Lru<V>, h: nat, t: set<nat>) {
    h in c.entries ==> t <= Front(c.order, h)
  }

  lemma PutPushes<V>(c: Lru<V>, k: nat, v: V, capacity: nat, h: nat, t: set<nat>)
    requires Valid(c, capacity) && capacity > 0 && Pushed(c, h, t) && k != h
    ensures Pushed(Put(c, k, v, capacity), h, t + {k})
  {
    PutValid(c, k, v, capacity);
    if h in c.entries { PutKeepsIff(c, k, v, capacity, h); }
  }

  lemma {:induction false} RunPushes<B(!new), S>(cfg: Config<B, S>, c: Cache<B, S>, last: map<nat, B>, h: nat,
      ops: seq<Op<B>>)
    requires RoundTrips(cfg) && Coherent(cfg, c, last) && OnlyPuts(ops) && Spares(ops, h)
    ensures var c1 := After(cfg, c, ops); Pushed(c1.hot, h, Touched(ops, h)) && Pushed(c1.warm, h, Touched(ops, h))
    decreases |ops|
  {
    if ops != [] {
      var k := |ops| - 1;
      TouchedMore(ops, h);
      RunPushes(cfg, c, last, h, ops[..k]);
      RunCoherent(cfg, c, last, ops[..k]);
      var c1, t := After(cfg, c, ops[..k]), Touched(ops[..k], h);
      PutPushes(c1.hot, ops[k].h, ops[k].b, cfg.hotCapacity, h, t);
      PutPushes(c1.warm, ops[k].h, cfg.serialize(ops[k].b).value, cfg.warmCapacity, h, t);
    }
  }

  lemma PushedOut<V>(c: Lru<V>, h: nat, t: set<nat>, capacity: nat)
    requires Valid(c, capacity) && Pushed(c, h, t) && |t| >= capacity
    ensures h !in c.entries
  {
    if h in c.entries {
      FrontIsIndex(c.order, h);
      SubsetSize(t, Front(c.order, h));
    }
  }

  /** The bound is exact: as many other puts as the capacity push a block out of a tier. */
  lemma Forgotten<B(!new), S>(cfg: Config<B, S>, c: Cache<B, S>, last: map<nat, B>, h: nat, ops: seq<Op<B>>)
    requires RoundTrips(cfg) && Coherent(cfg, c, last) && OnlyPuts(ops) && Spares(ops, h)
    requires |Touched(ops, h)| >= cfg.warmCapacity && |Touched(ops, h)| >= cfg.hotCapacity
    ensures Get(cfg, After(cfg, c, ops), h).1 == None
  {
    RunPushes(cfg, c, last, h, ops);
    RunCoherent(cfg, c, last, ops);
    var c1 := After(cfg, c, ops);
    PushedOut(c1.hot, h, Touched(ops, h), cfg.hotCapacity);
    PushedOut(c1.warm, h, Touched(ops, h), cfg.warmCapacity);
  }

  // ----- Serialization that fails

  ghost predicate ReadsAs<B, S>(cfg: Config<B, S>, bytes: S, last: map<nat, B>, h: nat) {
    cfg.deserialize(bytes) == None || (h in last && cfg.deserialize(bytes) == Some(last[h]))
  }

  ghost predicate WarmTruthful<B, S>(cfg: Config<B, S>, warm: Lru<S>, last: map<nat, B>) {
    Valid(warm, cfg.warmCapacity) && forall h :: h in warm.entries ==> ReadsAs(cfg, warm.entries[h], last, h)
  }

  ghost predicate HotTruthful<B, S>(cfg: Config<B, S>, hot: Lru<B>, last: map<nat, B>) {
    Valid(hot, cfg.hotCapacity) && forall h :: h in hot.entries ==> h in last && hot.entries[h] == last[h]
  }

  /** Entries of both tiers read as nothing or as the block put last. */
  ghost predicate Truthful<B, S>(cfg: Config<B, S>, c: Cache<B, S>, last: map<nat, B>) {
    HotTruthful(cfg, c.hot, last) && WarmTruthful(cfg, c.warm, last)
  }

  lemma WarmPutIff<B(!new), S>(cfg: Config<B, S>, warm: Lru<S>, last: map<nat, B>, h: nat, b: B, bytes: S)
    requires WarmTruthful(cfg, warm, last) && cfg.warmCapacity > 0
    ensures WarmTruthful(cfg, Put(warm, h, bytes, cfg.warmCapacity), last[h := b]) <==>
        ReadsAs(cfg, bytes, last[h := b], h)
  {
    PutValid(warm, h, bytes, cfg.warmCapacity);
    assert Put(warm, h, bytes, cfg.warmCapacity).entries[h] == bytes;
  }

  lemma WarmStaysIff<B(!new), S>(cfg: Config<B, S>, warm: Lru<S>, last: map<nat, B>, h: nat, b: B)
    requires WarmTruthful(cfg, warm, last)
    ensures WarmTruthful(cfg, warm, last[h := b]) <==>
        (h in warm.entries ==> ReadsAs(cfg, warm.entries[h], last[h := b], h))
  {
  }

  /** The bytes the warm tier holds for `h` after a put read as nothing or as the new block. */
  ghost predicate PutFits<B, S>(cfg: Config<B, S>, c: Cache<B, S>, last: map<nat, B>, h: nat, b: B) {
    match cfg.serialize(b)
    case Some(bytes) => ReadsAs(cfg, bytes, last[h := b], h)
    case None => h in c.warm.entries ==> ReadsAs(cfg, c.warm.entries[h], last[h := b], h)
  }

  /** A put keeps the cache truthful exactly when the bytes the warm tier then holds for
      that height read as nothing or as the new block. */
  lemma StoreTruthfulIff<B(!new), S>(cfg: Config<B, S>, c: Cache<B, S>, last: map<nat, B>, h: nat, b: B)
    requires Truthful(cfg, c, last) && cfg.hotCapacity > 0 && cfg.warmCapacity > 0
    ensures Truthful(cfg, Store(cfg, c, h, b), last[h := b]) <==> PutFits(cfg, c, last, h, b)
  {
    PutValid(c.hot, h, b, cfg.hotCapacity);
    assert HotTruthful(cfg, Put(c.hot, h, b, cfg.hotCapacity), last[h := b]);
    match cfg.serialize(b)
    case Some(bytes) => WarmPutIff(cfg, c.warm, last, h, b, bytes);
    case None => WarmStaysIff(cfg, c.warm, last, h, b);
  }

  /** A read from a truthful cache gives nothing or the block put last, and leaves it truthful. */
  lemma GetTruthful<B(!new), S>(cfg: Config<B, S>, c: Cache<B, S>, last: map<nat, B>, h: nat)
    requires Truthful(cfg, c, last) && cfg.hotCapacity > 0
    ensures Truthful(cfg, Get(cfg, c, h).0, last)
    ensures Get(cfg, c, h).1 == None || (h in last && Get(cfg, c, h).1 == Some(last[h]))
  {
    TouchValid(c.hot, h, cfg.hotCapacity);
    TouchValid(c.warm, h, cfg.warmCapacity);
    if h !in c.hot.entries && h in c.warm.entries && c.version == CACHE_SCHEMA_VERSION {
      assert ReadsAs(cfg, c.warm.entries[h], last, h);
      match cfg.deserialize(c.warm.entries[h])
      case Some(b) => PutValid(c.hot, h, b, cfg.hotCapacity);
      case None => PopValid(Touch(c.warm, h), h, cfg.warmCapacity);
    }
  }

  lemma DropTruthful<B(!new), S>(cfg: Config<B, S>, c: Cache<B, S>, last: map<nat, B>, h: nat)
    requires Truthful(cfg, c, last)
    ensures Truthful(cfg, Drop(c, h), last - {h})
  {
    PopValid(c.hot, h, cfg.hotCapacity);
    PopValid(c.warm, h, cfg.warmCapacity);
    forall x | x in Drop(c, h).warm.entries
      ensures ReadsAs(cfg, Drop(c, h).warm.entries[x], last - {h}, x)
    {
      assert ReadsAs(cfg, c.warm.entries[x], last, x);
    }
  }

  /** The cache is truthful after every step of the run. */
  ghost predicate TruthfulThroughout<B(!new), S>(cfg: Config<B, S>, ops: seq<Op<B>>) {
    ops == [] || (TruthfulThroughout(cfg, ops[..|ops| - 1]) &&
      Truthful(cfg, After(cfg, Fresh(), ops), LastPut(map[], ops)))
  }

  /** Every put of the run leaves bytes that read as nothing or as its block. */
  ghost predicate AllPutsFit<B(!new), S>(cfg: Config<B, S>, ops: seq<Op<B>>) {
    ops == [] ||
    var most, op := ops[..|ops| - 1], ops[|ops| - 1];
    AllPutsFit(cfg, most) && (op.PutOp? ==> PutFits(cfg, After(cfg, Fresh(), most), LastPut(map[], most), op.h, op.b))
  }

  lemma StepTruthfulIff<B(!new), S>(cfg: Config<B, S>, c: Cache<B, S>, last: map<nat, B>, op: Op<B>)
    requires Truthful(cfg, c, last) && cfg.hotCapacity > 0 && cfg.warmCapacity > 0
    ensures Truthful(cfg, Apply(cfg, c, op), LastPutNext(last, op)) <==>
        (op.PutOp? ==> PutFits(cfg, c, last, op.h, op.b))
  {
    match op
    case PutOp(h, b) => StoreTruthfulIff(cfg, c, last, h, b);
    case GetOp(h) => GetTruthful(cfg, c, last, h);
    case InvalidateOp(h) => DropTruthful(cfg, c, last, h);
    case ClearOp =>
  }

  lemma FreshTruthful<B(!new), S>(cfg: Config<B, S>)
    ensures Truthful(cfg, Fresh(), map[])
  {
  }

  /** Whether or not blocks serialize and read back, the cache is truthful throughout a run
      exactly when every put of it leaves fitting bytes. */
  lemma {:induction false} RunTruthfulIff<B(!new), S>(cfg: Config<B, S>, ops: seq<Op<B>>)
    requires cfg.hotCapacity > 0 && cfg.warmCapacity > 0
    ensures TruthfulThroughout(cfg, ops) <==> AllPutsFit(cfg, ops)
    ensures TruthfulThroughout(cfg, ops) ==> Truthful(cfg, After(cfg, Fresh(), ops), LastPut(map[], ops))
    decreases |ops|
  {
    FreshTruthful(cfg);
    if ops != [] {
      var k := |ops| - 1;
      RunTruthfulIff(cfg, ops[..k]);
      if TruthfulThroughout(cfg, ops[..k]) {
        StepTruthfulIff(cfg, After(cfg, Fresh(), ops[..k]), LastPut(map[], ops[..k]), ops[k]);
      }
    }
  }

  // ----- What reads see

  /** Every read gives nothing or the block put last. */
  ghost predicate ReadsTruly<B(!new), S>(cfg: Config<B, S>, c: Cache<B, S>, last: map<nat, B>) {
    forall h :: Get(cfg, c, h).1 == None || (h in last && Get(cfg, c, h).1 == Some(last[h]))
  }

  /** The hot tier holds the blocks put last, and the warm tier truthful bytes for every height
      that the hot tier does not cover. */
  ghost predicate Covered<B(!new), S>(cfg: Config<B, S>, c: Cache<B, S>, last: map<nat, B>) {
    && HotTruthful(cfg, c.hot, last) && Valid(c.warm, cfg.warmCapacity) && c.version == CACHE_SCHEMA_VERSION
    && forall h :: h in c.warm.entries && h !in c.hot.entries ==> ReadsAs(cfg, c.warm.entries[h], last, h)
  }

  ghost predicate Sized<B(!new), S>(cfg: Config<B, S>, c: Cache<B, S>) {
    && cfg.hotCapacity > 0 && cfg.warmCapacity > 0
    && Valid(c.hot, cfg.hotCapacity) && Valid(c.warm, cfg.warmCapacity) && c.version == CACHE_SCHEMA_VERSION
  }

  lemma TrulyIffCovered<B(!new), S>(cfg: Config<B, S>, c: Cache<B, S>, last: map<nat, B>)
    requires Sized(cfg, c)
    ensures ReadsTruly(cfg, c, last) <==> Covered(cfg, c, last)
  {
    if ReadsTruly(cfg, c, last) {
      forall h | h in c.hot.entries
        ensures h in last && c.hot.entries[h] == last[h]
      {
        assert Get(cfg, c, h).1 == Some(c.hot.entries[h]);
      }
      forall h | h in c.warm.entries && h !in c.hot.entries
        ensures ReadsAs(cfg, c.warm.entries[h], last, h)
      {
        assert Get(cfg, c, h).1 == cfg.deserialize(c.warm.entries[h]);
      }
    }
  }

  /** The height a step pushes out of the hot tier: the least recent one, when the tier is full
      and the step brings in another. */
  function PushedOutBy<B, S>(cfg: Config<B, S>, c: Cache<B, S>, op: Op<B>): set<nat> {
    match op
    case PutOp(h, _) => Dropped(c.hot, h, cfg.hotCapacity)
    case GetOp(h) =>
      if h in c.warm.entries && cfg.deserialize(c.warm.entries[h]).Some? then Dropped(c.hot, h, cfg.hotCapacity) else {}
    case _ => {}
  }

  /** The step pushes a height out of the hot tier whose bytes in the warm tier are stale and
      stay there. */
  ghost predicate Uncovers<B(!new), S>(cfg: Config<B, S>, c: Cache<B, S>, last: map<nat, B>, op: Op<B>) {
    exists k :: k in PushedOutBy(cfg, c, op) && k in c.warm.entries && k in Apply(cfg, c, op).warm.entries &&
      !ReadsAs(cfg, c.warm.entries[k], last, k)
  }

  lemma HotPut<B(!new), S>(cfg: Config<B, S>, hot: Lru<B>, last: map<nat, B>, h: nat, b: B)
    requires HotTruthful(cfg, hot, last) && cfg.hotCapacity > 0
    ensures HotTruthful(cfg, Put(hot, h, b, cfg.hotCapacity), last[h := b])
    ensures Put(hot, h, b, cfg.hotCapacity).entries.Keys == hot.entries.Keys + {h} - Dropped(hot, h, cfg.hotCapacity)
    ensures h !in Dropped(hot, h, cfg.hotCapacity)
  {
    PutValid(hot, h, b, cfg.hotCapacity);
    PutDrops(hot, h, b, cfg.hotCapacity);
  }

  /** Warm entries after a put: the height itself apart, nothing new and nothing changed. */
  lemma WarmAfterPut<B(!new), S>(cfg: Config<B, S>, c: Cache<B, S>, h: nat, b: B)
    requires Sized(cfg, c)
    ensures var warm := Store(cfg, c, h, b).warm;
      && Valid(warm, cfg.warmCapacity)
      && forall x :: x != h && x in warm.entries ==> x in c.warm.entries && warm.entries[x] == c.warm.entries[x]
  {
    match cfg.serialize(b)
    case Some(bytes) => PutValid(c.warm, h, bytes, cfg.warmCapacity);
    case None =>
  }

  /** Covered after a step that moves heights only in and out of the hot tier. */
  lemma CoveredAfterIff<B(!new), S>(cfg: Config<B, S>, c: Cache<B, S>, last: map<nat, B>, c': Cache<B, S>,
      last': map<nat, B>, h: nat, out: set<nat>)
    requires Covered(cfg, c, last) && HotTruthful(cfg, c'.hot, last') && Valid(c'.warm, cfg.warmCapacity) &&
        c'.version == c.version
    requires c'.hot.entries.Keys == c.hot.entries.Keys + {h} - out && h !in out && out <= c.hot.entries.Keys
    requires forall x :: x != h && x in c'.warm.entries ==>
        x in c.warm.entries && c'.warm.entries[x] == c.warm.entries[x]
    requires forall x :: x != h ==> (x in last' <==> x in last) && (x in last ==> last'[x] == last[x])
    ensures Covered(cfg, c', last') <==>
            !exists k :: k in out && k in c.warm.entries && k in c'.warm.entries &&
              !ReadsAs(cfg, c.warm.entries[k], last, k)
  {
    assert h in c'.hot.entries;
    forall x | x != h && x in c'.warm.entries
      ensures ReadsAs(cfg, c'.warm.entries[x], last', x) <==> ReadsAs(cfg, c.warm.entries[x], last, x)
    {
    }
    if k :| k in out && k in c.warm.entries && k in c'.warm.entries && !ReadsAs(cfg, c.warm.entries[k], last, k) {
      assert k !in c'.hot.entries;
    }
  }

  lemma PutCoveredIff<B(!new), S>(cfg: Config<B, S>, c: Cache<B, S>, last: map<nat, B>, h: nat, b: B)
    requires Sized(cfg, c) && Covered(cfg, c, last)
    ensures Covered(cfg, Store(cfg, c, h, b), last[h := b]) <==> !Uncovers(cfg, c, last, PutOp(h, b))
  {
    HotPut(cfg, c.hot, last, h, b);
    WarmAfterPut(cfg, c, h, b);
    CoveredAfterIff(cfg, c, last, Store(cfg, c, h, b), last[h := b], h, Dropped(c.hot, h, cfg.hotCapacity));
  }

  lemma PromotedCoveredIff<B(!new), S>(cfg: Config<B, S>, c: Cache<B, S>, last: map<nat, B>, h: nat, b: B)
    requires Sized(cfg, c) && Covered(cfg, c, last)
    requires h !in c.hot.entries && h in c.warm.entries && cfg.deserialize(c.warm.entries[h]) == Some(b)
    ensures Covered(cfg, Get(cfg, c, h).0, last) <==> !Uncovers(cfg, c, last, GetOp(h))
  {
    assert ReadsAs(cfg, c.warm.entries[h], last, h);
    assert last[h := b] == last;
    HotPut(cfg, c.hot, last, h, b);
    var c' := Get(cfg, c, h).0;
    PromotedState(cfg, c, h, b);
    CoveredAfterIff(cfg, c, last, c', last, h, Dropped(c.hot, h, cfg.hotCapacity));
    UncoversByGet(cfg, c, last, h, c');
  }

  lemma PromotedState<B(!new), S>(cfg: Config<B, S>, c: Cache<B, S>, h: nat, b: B)
    requires Sized(cfg, c) && h !in c.hot.entries && h in c.warm.entries &&
        cfg.deserialize(c.warm.entries[h]) == Some(b)
    ensures var c' := Get(cfg, c, h).0;
      && c'.hot == Put(c.hot, h, b, cfg.hotCapacity) && c'.version == c.version
      && c'.warm.entries == c.warm.entries && Valid(c'.warm, cfg.warmCapacity)
  {
    TouchValid(c.warm, h, cfg.warmCapacity);
  }

  lemma UncoversByGet<B(!new), S>(cfg: Config<B, S>, c: Cache<B, S>, last: map<nat, B>, h: nat, c': Cache<B, S>)
    requires c' == Get(cfg, c, h).0 && h in c.warm.entries && cfg.deserialize(c.warm.entries[h]).Some?
    ensures Uncovers(cfg, c, last, GetOp(h)) <==>
            exists k :: k in Dropped(c.hot, h, cfg.hotCapacity) && k in c.warm.entries && k in c'.warm.entries &&
              !ReadsAs(cfg, c.warm.entries[k], last, k)
  {
  }

  lemma GetCoveredIff<B(!new), S>(cfg: Config<B, S>, c: Cache<B, S>, last: map<nat, B>, h: nat)
    requires Sized(cfg, c) && Covered(cfg, c, last)
    ensures Covered(cfg, Get(cfg, c, h).0, last) <==> !Uncovers(cfg, c, last, GetOp(h))
  {
    if h in c.hot.entries {
      TouchValid(c.hot, h, cfg.hotCapacity);
    } else if h in c.warm.entries {
      match cfg.deserialize(c.warm.entries[h])
      case Some(b) => PromotedCoveredIff(cfg, c, last, h, b);
      case None =>
        TouchValid(c.warm, h, cfg.warmCapacity);
        PopValid(Touch(c.warm, h), h, cfg.warmCapacity);
    }
  }

  lemma DropCovered<B(!new), S>(cfg: Config<B, S>, c: Cache<B, S>, last: map<nat, B>, h: nat)
    requires Covered(cfg, c, last)
    ensures Covered(cfg, Drop(c, h), last - {h})
  {
    PopValid(c.hot, h, cfg.hotCapacity);
    PopValid(c.warm, h, cfg.warmCapacity);
    forall x | x in Drop(c, h).warm.entries && x !in Drop(c, h).hot.entries
      ensures ReadsAs(cfg, Drop(c, h).warm.entries[x], last - {h}, x)
    {
      assert ReadsAs(cfg, c.warm.entries[x], last, x);
    }
  }

  lemma StepCoveredIff<B(!new), S>(cfg: Config<B, S>, c: Cache<B, S>, last: map<nat, B>, op: Op<B>)
    requires Sized(cfg, c) && Covered(cfg, c, last)
    ensures Covered(cfg, Apply(cfg, c, op), LastPutNext(last, op)) <==> !Uncovers(cfg, c, last, op)
  {
    match op
    case PutOp(h, b) => PutCoveredIff(cfg, c, last, h, b);
    case GetOp(h) => GetCoveredIff(cfg, c, last, h);
    case InvalidateOp(h) => DropCovered(cfg, c, last, h);
    case ClearOp =>
  }

  lemma StepSized<B(!new), S>(cfg: Config<B, S>, c: Cache<B, S>, op: Op<B>)
    requires Sized(cfg, c)
    ensures Sized(cfg, Apply(cfg, c, op))
  {
    match op
    case PutOp(h, b) =>
      PutValid(c.hot, h, b, cfg.hotCapacity);
      WarmAfterPut(cfg, c, h, b);
    case GetOp(h) =>
      TouchValid(c.hot, h, cfg.hotCapacity);
      TouchValid(c.warm, h, cfg.warmCapacity);
      PopValid(Touch(c.warm, h), h, cfg.warmCapacity);
      if h in c.warm.entries && cfg.deserialize(c.warm.entries[h]).Some? {
        PutValid(c.hot, h, cfg.deserialize(c.warm.entries[h]).value, cfg.hotCapacity);
      }
    case InvalidateOp(h) =>
      PopValid(c.hot, h, cfg.hotCapacity);
      PopValid(c.warm, h, cfg.warmCapacity);
    case ClearOp =>
  }

  lemma {:induction false} RunSized<B(!new), S>(cfg: Config<B, S>, ops: seq<Op<B>>)
    requires cfg.hotCapacity > 0 && cfg.warmCapacity > 0
    ensures Sized(cfg, After(cfg, Fresh(), ops))
    decreases |ops|
  {
    if ops != [] {
      RunSized(cfg, ops[..|ops| - 1]);
      StepSized(cfg, After(cfg, Fresh(), ops[..|ops| - 1]), ops[|ops| - 1]);
    }
  }

  // ----- What a read renews

  /** A hit makes its height the most recent one of the hot tier, and of the warm tier if it
      was found there; a miss leaves nothing of it. */
  lemma GetRenews<B(!new), S>(cfg: Config<B, S>, c: Cache<B, S>, h: nat)
    requires Sized(cfg, c)
    ensures var (c', r) := Get(cfg, c, h);
      && (r.Some? ==> KeptHot(c', h, r.value, {}))
      && (r.Some? && h !in c.hot.entries ==> Front(c'.warm.order, h) == {})
      && (r.None? ==> h !in c'.hot.entries && h !in c'.warm.entries)
  {
    FrontPromote(c.hot.order, h, h);
    FrontPromote(c.warm.order, h, h);
    if h in c.warm.entries && cfg.deserialize(c.warm.entries[h]).Some? {
      var b := cfg.deserialize(c.warm.entries[h]).value;
      PutValid(c.hot, h, b, cfg.hotCapacity);
      PutShape(c.hot, h, b, cfg.hotCapacity);
    }
  }

  /** `h` is in the hot tier with its block, and behind nothing but heights of `t`. */
  ghost predicate KeptHot<B, S>(c: Cache<B, S>, h: nat, b: B, t: set<nat>) {
    h in c.hot.entries && c.hot.entries[h] == b && Front(c.hot.order, h) <= t
  }

  lemma PutKeepsHot<B(!new)>(hot: Lru<B>, capacity: nat, h: nat, t: set<nat>, k: nat, x: B)
    requires Valid(hot, capacity) && capacity > 0 && h in hot.entries && Front(hot.order, h) <= t && k != h
    requires |t + {k}| < capacity
    ensures var hot' := Put(hot, k, x, capacity);
      h in hot'.entries && hot'.entries[h] == hot.entries[h] && Front(hot'.order, h) <= t + {k}
  {
    SubsetSize(Front(hot.order, h) + {k}, t + {k});
    PutKeepsIff(hot, k, x, capacity, h);
    PutValid(hot, k, x, capacity);
  }

  lemma StepKeepsHot<B(!new), S>(cfg: Config<B, S>, c: Cache<B, S>, h: nat, b: B, t: set<nat>, op: Op<B>)
    requires Sized(cfg, c) && KeptHot(c, h, b, t)
    requires !op.ClearOp? && (op.PutOp? || op.InvalidateOp? ==> op.h != h)
    requires op.PutOp? || op.GetOp? ==> op.h == h || |t + {op.h}| < cfg.hotCapacity
    ensures KeptHot(Apply(cfg, c, op), h, b, t + if (op.PutOp? || op.GetOp?) && op.h != h then {op.h} else {})
  {
    match op
    case PutOp(x, v) => PutKeepsHot(c.hot, cfg.hotCapacity, h, t, x, v);
    case GetOp(x) =>
      FrontPromote(c.hot.order, x, h);
      if x in c.warm.entries && x != h && cfg.deserialize(c.warm.entries[x]).Some? {
        PutKeepsHot(c.hot, cfg.hotCapacity, h, t, x, cfg.deserialize(c.warm.entries[x]).value);
      }
    case InvalidateOp(x) => FrontWithout(c.hot.order, x, h);
  }

  lemma {:induction false} RunKeepsHot<B(!new), S>(cfg: Config<B, S>, c: Cache<B, S>, h: nat, b: B, ops: seq<Op<B>>)
    requires Sized(cfg, c) && KeptHot(c, h, b, {}) && Spares(ops, h) && |Touched(ops, h)| < cfg.hotCapacity
    ensures Sized(cfg, After(cfg, c, ops)) && KeptHot(After(cfg, c, ops), h, b, Touched(ops, h))
    decreases |ops|
  {
    if ops != [] {
      var k := |ops| - 1;
      TouchedMore(ops, h);
      SubsetSize(Touched(ops[..k], h), Touched(ops, h));
      RunKeepsHot(cfg, c, h, b, ops[..k]);
      StepSized(cfg, After(cfg, c, ops[..k]), ops[k]);
      StepKeepsHot(cfg, After(cfg, c, ops[..k]), h, b, Touched(ops[..k], h), ops[k]);
    }
  }

  /** After a hit the same block is a hit as long as fewer than `hotCapacity` other heights are
      put or read, whether or not blocks serialize. */
  lemma ReadRetained<B(!new), S>(cfg: Config<B, S>, before: seq<Op<B>>, h: nat, b: B, ops: seq<Op<B>>)
    requires cfg.hotCapacity > 0 && cfg.warmCapacity > 0 && Spares(ops, h) && |Touched(ops, h)| < cfg.hotCapacity
    requires Get(cfg, After(cfg, Fresh(), before), h).1 == Some(b)
    ensures Get(cfg, After(cfg, Get(cfg, After(cfg, Fresh(), before), h).0, ops), h).1 == Some(b)
  {
    var c := After(cfg, Fresh(), before);
    RunSized(cfg, before);
    GetRenews(cfg, c, h);
    StepSized(cfg, c, GetOp(h));
    RunKeepsHot(cfg, Get(cfg, c, h).0, h, b, ops);
  }

  /** Past the hot tier, a read of an outdated cache empties it: every height is a miss then. */
  lemma OutdatedIsEmptied<B(!new), S>(cfg: Config<B, S>, c: Cache<B, S>, h: nat, k: nat)
    requires c.version != CACHE_SCHEMA_VERSION && h !in c.hot.entries
    ensures var (c', r) := Get(cfg, c, h);
      r.None? && c'.misses == c.misses + 1 && c'.version == 2 && Get(cfg, c', k).1 == None
  {
  }

  /** Reads are true after every step of the run. */
  ghost predicate ReadsTrulyThroughout<B(!new), S>(cfg: Config<B, S>, ops: seq<Op<B>>) {
    ops == [] ||
    (ReadsTrulyThroughout(cfg, ops[..|ops| - 1]) && ReadsTruly(cfg, After(cfg, Fresh(), ops), LastPut(map[], ops)))
  }

  /** No step of the run uncovers stale bytes. */
  ghost predicate NeverUncovers<B(!new), S>(cfg: Config<B, S>, ops: seq<Op<B>>) {
    ops == [] ||
    var most := ops[..|ops| - 1];
    NeverUncovers(cfg, most) && !Uncovers(cfg, After(cfg, Fresh(), most), LastPut(map[], most), ops[|ops| - 1])
  }

  /** Whether or not blocks serialize and read back, every read throughout a run gives nothing
      or the block put last exactly when no step of it pushes a height out of the hot tier
      while its bytes in the warm tier are stale. */
  lemma {:induction false} RunReadsTrulyIff<B(!new), S>(cfg: Config<B, S>, ops: seq<Op<B>>)
    requires cfg.hotCapacity > 0 && cfg.warmCapacity > 0
    ensures ReadsTrulyThroughout(cfg, ops) <==> NeverUncovers(cfg, ops)
    ensures NeverUncovers(cfg, ops) ==> Covered(cfg, After(cfg, Fresh(), ops), LastPut(map[], ops))
    decreases |ops|
  {
    if ops == [] {
      FreshTruthful(cfg);
    } else {
      var k := |ops| - 1;
      RunReadsTrulyIff(cfg, ops[..k]);
      RunSized(cfg, ops[..k]);
      RunSized(cfg, ops);
      TrulyIffCovered(cfg, After(cfg, Fresh(), ops), LastPut(map[], ops));
      if NeverUncovers(cfg, ops[..k]) {
        StepCoveredIff(cfg, After(cfg, Fresh(), ops[..k]), LastPut(map[], ops[..k]), ops[k]);
      }
    }
  }

  /** A cache with these entries in each tier, nothing counted. */
  function Holding(hot: Lru<nat>, warm: Lru<nat>): Cache<nat, nat> {
    Cache(hot, warm, CACHE_SCHEMA_VERSION, 0, 0, 0)
  }

  lemma StaleStates(cfg: Config<nat, nat>)
    requires cfg.hotCapacity == 1 && cfg.warmCapacity == 2
    requires cfg.serialize(1) == Some(1) && cfg.serialize(2) == None && cfg.serialize(3) == Some(3)
    ensures Store(cfg, Fresh(), 1, 1) == Holding(Lru([1], map[1 := 1]), Lru([1], map[1 := 1]))
    ensures Store(cfg, Holding(Lru([1], map[1 := 1]), Lru([1], map[1 := 1])), 1, 2) ==
        Holding(Lru([1], map[1 := 2]), Lru([1], map[1 := 1]))
    ensures Store(cfg, Holding(Lru([1], map[1 := 2]), Lru([1], map[1 := 1])), 3, 3) ==
        Holding(Lru([3], map[3 := 3]), Lru([3, 1], map[1 := 1, 3 := 3]))
  {
    assert Promote([1], 1) == [1] && Without([1], 3) == [1] && Promote([1], 3) == [3, 1];
    assert Store(cfg, Fresh(), 1, 1) == Holding(Lru([1], map[1 := 1]), Lru([1], map[1 := 1]));
    var c2 := Store(cfg, Holding(Lru([1], map[1 := 1]), Lru([1], map[1 := 1])), 1, 2);
    assert c2 == Holding(Lru([1], map[1 := 2]), Lru([1], map[1 := 1]));
    var c3 := Store(cfg, Holding(Lru([1], map[1 := 2]), Lru([1], map[1 := 1])), 3, 3);
    assert c3 == Holding(Lru([3], map[3 := 3]), Lru([3, 1], map[1 := 1, 3 := 3]));
  }

  lemma StepLast(cfg: Config<nat, nat>, ops: seq<Op<nat>>, op: Op<nat>)
    ensures After(cfg, Fresh(), ops + [op]) == Apply(cfg, After(cfg, Fresh(), ops), op)
    ensures LastPut(map[], ops + [op]) == LastPutNext(LastPut(map[], ops), op)
  {
    assert (ops + [op])[..|ops|] == ops;
  }

  /** Block 2 does not serialize: replacing block 1 by it leaves block 1 in the warm tier,
      and it is read again once block 2 has left the hot tier. */
  lemma StaleRead(cfg: Config<nat, nat>)
    requires cfg.hotCapacity == 1 && cfg.warmCapacity == 2 && cfg.deserialize(1) == Some(1)
    requires cfg.serialize(1) == Some(1) && cfg.serialize(2) == None && cfg.serialize(3) == Some(3)
    ensures var ops := [] + [PutOp(1, 1)] + [PutOp(1, 2)] + [PutOp(3, 3)];
      LastPut(map[], ops) == map[1 := 2, 3 := 3] && Get(cfg, After(cfg, Fresh(), ops), 1).1 == Some(1)
  {
    StaleStates(cfg);
    StepLast(cfg, [], PutOp(1, 1));
    StepLast(cfg, [] + [PutOp(1, 1)], PutOp(1, 2));
    StepLast(cfg, [] + [PutOp(1, 1)] + [PutOp(1, 2)], PutOp(3, 3));
  }

  function Keys(s: seq<nat>): set<nat> {
    set k | k in s
  }

  lemma EntriesCount<V>(c: Lru<V>, capacity: nat)
    requires Valid(c, capacity)
    ensures |c.entries| <= capacity
  {
    OrderCount(c.order);
    assert c.entries.Keys == Keys(c.order);
  }

  lemma {:induction false} OrderCount(s: seq<nat>)
    ensures |Keys(s)| <= |s|
    decreases |s|
  {
    if s != [] {
      OrderCount(s[1..]);
      assert s == [s[0]] + s[1..];
      assert Keys(s) == {s[0]} + Keys(s[1..]);
    }
  }
}
