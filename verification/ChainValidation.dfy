/** Block and chain-sequence validation. Hashes are symbolic terms, so equal hashes mean
    equal messages; header fields outside the block hash are not modelled. */
module ChainValidation {

  import opened Basics
  import opened Wrappers
  import opened Transactions
  import opened Headers

  const TIMESTAMP_TOLERANCE: int := 5
  const MAX_BLOCK_SIZE: nat := 4_000_000

  /** `size` is the length of the serialized block. */
  datatype Block = Block(header: Header, txs: seq<TxId>, size: nat)

  datatype Error =
    | PreviousHashMismatch(height: nat)
    | MerkleRootMismatch(height: nat)
    | InvalidTimestamp(height: nat)
    | DuplicateTransaction(height: nat)
    | BlockTooLarge(height: nat)
    | MissingBitmap(height: nat)
    | HeightGap(height: nat)
    | TimestampOrder(height: nat)

  datatype Verdict = Accepted | Refused(error: Error)

  datatype Context = Context(now: int, genesis: int)

  // ----- Merkle roots

  /** One level up: an odd list repeats its last hash, then neighbours are paired. */
  function Padded(s: seq<Hash>): seq<Hash> {
    if |s| % 2 == 1 then s + [s[|s| - 1]] else s
  }

  function Paired(s: seq<Hash>): seq<Hash>
    requires |s| % 2 == 0
  {
    seq(|s| / 2, i requires 0 <= i < |s| / 2 => PairHash(s[2 * i], s[2 * i + 1]))
  }

  function Root(s: seq<Hash>): Hash
    decreases |s|
  {
    if s == [] then Zero
    else if |s| == 1 then s[0]
    else Root(Paired(Padded(s)))
  }

  function TwoTo(k: nat): nat {
    if k == 0 then 1 else 2 * TwoTo(k - 1)
  }

  /** The root of two halves is the hash of their roots, the left one first, whenever the
      halves are equally long and full. */
  lemma {:induction false} RootOfHalves(a: seq<Hash>, b: seq<Hash>, k: nat)
    requires |a| == |b| == TwoTo(k)
    ensures Root(a + b) == PairHash(Root(a), Root(b))
    decreases k
  {
    if k == 0 {
      assert a == [a[0]] && b == [b[0]];
      assert Paired(Padded(a + b)) == [PairHash(a[0], b[0])];
    } else {
      PairedHalves(a, b);
      RootOfHalves(Paired(a), Paired(b), k - 1);
    }
  }

  lemma PairedHalves(a: seq<Hash>, b: seq<Hash>)
    requires |a| % 2 == 0 && |b| % 2 == 0
    ensures Paired(a + b) == Paired(a) + Paired(b) && Padded(a) == a && Padded(b) == b && Padded(a + b) == a + b
  {
    var p, q := Paired(a + b), Paired(a) + Paired(b);
    assert |p| == |q|;
    forall i | 0 <= i < |p| ensures p[i] == q[i] { }
  }

  /** An odd list has the root of the list with its last hash repeated. */
  lemma RootOfOdd(s: seq<Hash>)
    requires |s| > 1 && |s| % 2 == 1
    ensures Root(s) == Root(s + [s[|s| - 1]])
  {
    assert Padded(s) == s + [s[|s| - 1]] == Padded(s + [s[|s| - 1]]);
  }

  function Leaves(txs: seq<TxId>): seq<Hash> {
    seq(|txs|, i requires 0 <= i < |txs| => TxHash(txs[i]))
  }

  method BuildMerkleRoot(hashes: seq<Hash>) returns (root: Hash)
    ensures root == Root(hashes)
  {
    if hashes == [] { return Zero; }
    var level := hashes;
    while |level| > 1
      invariant level != [] && Root(level) == Root(hashes)
      decreases |level|
    {
      ghost var was := level;
      if |level| % 2 == 1 { level := level + [level[|level| - 1]]; }
      assert level == Padded(was);
      level := PairUp(level);
    }
    return level[0];
  }

  method PairUp(level: seq<Hash>) returns (next: seq<Hash>)
    requires |level| % 2 == 0
    ensures next == Paired(level)
  {
    next := [];
    for i := 0 to |level| / 2
      invariant next == Paired(level)[..i]
    {
      next := next + [PairHash(level[2 * i], level[2 * i + 1])];
    }
    assert Paired(level)[..|level| / 2] == Paired(level);
  }

  function Depth(h: Hash): nat {
    if h.PairHash? then 1 + Depth(h.left) else 0
  }

  ghost predicate Level(s: seq<Hash>, d: nat) {
    forall i :: 0 <= i < |s| ==> Depth(s[i]) == d
  }

  lemma PairedLevel(s: seq<Hash>, d: nat)
    requires Level(s, d) && s != []
    ensures Level(Paired(Padded(s)), d + 1) && Paired(Padded(s)) != []
  {
  }

  lemma {:induction false} RootDepth(s: seq<Hash>, d: nat)
    requires Level(s, d) && s != []
    ensures Depth(Root(s)) >= d && (|s| > 1 ==> Depth(Root(s)) > d)
    decreases |s|
  {
    if |s| > 1 {
      PairedLevel(s, d);
      RootDepth(Paired(Padded(s)), d + 1);
    }
  }

  lemma PairedDistinct(s: seq<Hash>)
    requires Distinct(s)
    ensures Distinct(Paired(Padded(s)))
  {
    var p := Paired(Padded(s));
    forall i, j | 0 <= i < j < |p|
      ensures p[i] != p[j]
    {
      assert p[i].left == s[2 * i] && p[j].left == s[2 * j];
    }
  }

  lemma PairedInjective(a: seq<Hash>, b: seq<Hash>)
    requires |a| % 2 == 0 && |b| % 2 == 0 && Paired(a) == Paired(b)
    ensures a == b
  {
    var p, q := Paired(a), Paired(b);
    assert |p| == |a| / 2 && |q| == |b| / 2;
    forall i | 0 <= i < |a|
      ensures a[i] == b[i]
    {
      assert p[i / 2] == q[i / 2];
      assert p[i / 2] == PairHash(a[2 * (i / 2)], a[2 * (i / 2) + 1]);
      assert q[i / 2] == PairHash(b[2 * (i / 2)], b[2 * (i / 2) + 1]);
    }
  }

  lemma PaddedInjective(a: seq<Hash>, b: seq<Hash>)
    requires Distinct(a) && Distinct(b) && Padded(a) == Padded(b)
    ensures a == b
  {
    if |a| % 2 == |b| % 2 {
      assert |a| == |b|;
      forall i | 0 <= i < |a| ensures a[i] == b[i] { assert Padded(a)[i] == Padded(b)[i]; }
    } else if |a| % 2 == 1 {
      RepeatsLast(a, b);
    } else {
      RepeatsLast(b, a);
    }
  }

  /** A list that is another with its last element repeated is not free of duplicates. */
  lemma RepeatsLast(a: seq<Hash>, b: seq<Hash>)
    requires |a| % 2 == 1 && b == a + [a[|a| - 1]]
    ensures !Distinct(b)
  {
    assert b[|a| - 1] == b[|a|];
  }

  function Up(s: seq<Hash>): (r: seq<Hash>)
    ensures |s| > 1 ==> 0 < |r| < |s|
  {
    Paired(Padded(s))
  }

  lemma UpInjective(a: seq<Hash>, b: seq<Hash>)
    requires Distinct(a) && Distinct(b) && Up(a) == Up(b)
    ensures a == b
  {
    PairedInjective(Padded(a), Padded(b));
    PaddedInjective(a, b);
  }

  lemma UpKeeps(s: seq<Hash>, d: nat)
    requires |s| > 1 && Level(s, d) && Distinct(s)
    ensures Level(Up(s), d + 1) && Distinct(Up(s)) && Root(s) == Root(Up(s))
  {
    PairedLevel(s, d);
    PairedDistinct(s);
  }

  lemma SameHeight(a: seq<Hash>, b: seq<Hash>, d: nat)
    requires a != [] && b != [] && Level(a, d) && Level(b, d) && Root(a) == Root(b)
    ensures |a| == 1 <==> |b| == 1
  {
    RootDepth(a, d);
    RootDepth(b, d);
  }

  /** On one level, lists without duplicates are determined by their root. */
  lemma {:induction false} RootDetermines(a: seq<Hash>, b: seq<Hash>, d: nat)
    requires a != [] && b != [] && Level(a, d) && Level(b, d) && Distinct(a) && Distinct(b) && Root(a) == Root(b)
    ensures a == b
    decreases |a|
  {
    SameHeight(a, b, d);
    if |a| > 1 {
      UpKeeps(a, d);
      UpKeeps(b, d);
      RootDetermines(Up(a), Up(b), d + 1);
      UpInjective(a, b);
    }
  }

  lemma LeavesLevel(txs: seq<TxId>)
    ensures Level(Leaves(txs), 0) && (Distinct(txs) ==> Distinct(Leaves(txs)))
  {
  }

  /** The Merkle root together with the duplicate check fixes the transaction list. */
  lemma MerkleRootDetermines(a: seq<TxId>, b: seq<TxId>)
    requires Distinct(a) && Distinct(b) && Root(Leaves(a)) == Root(Leaves(b))
    ensures a == b
  {
    LeavesLevel(a);
    LeavesLevel(b);
    if a == [] || b == [] {
      RootKind(a);
      RootKind(b);
    } else {
      RootDetermines(Leaves(a), Leaves(b), 0);
      forall i | 0 <= i < |a| ensures a[i] == b[i] { assert Leaves(a)[i] == Leaves(b)[i]; }
    }
  }

  lemma RootKind(txs: seq<TxId>)
    ensures Root(Leaves(txs)) == Zero <==> txs == []
  {
    if |txs| > 1 {
      LeavesLevel(txs);
      RootDepth(Leaves(txs), 0);
    }
  }

  /** Lists of one length are determined by their root, whatever they repeat. */
  lemma {:induction false} RootDeterminesLength(a: seq<Hash>, b: seq<Hash>)
    requires |a| == |b| && Root(a) == Root(b)
    ensures a == b
    decreases |a|
  {
    if |a| > 1 {
      assert Root(a) == Root(Up(a)) && Root(b) == Root(Up(b));
      RootDeterminesLength(Up(a), Up(b));
      UpSameLength(a, b);
    }
  }

  lemma UpSameLength(a: seq<Hash>, b: seq<Hash>)
    requires |a| == |b| && Up(a) == Up(b)
    ensures a == b
  {
    PairedInjective(Padded(a), Padded(b));
    forall i | 0 <= i < |a| ensures a[i] == b[i] { assert Padded(a)[i] == Padded(b)[i]; }
  }

  lemma SameLengthSameRoot(a: seq<TxId>, b: seq<TxId>)
    requires |a| == |b|
    ensures Root(Leaves(a)) == Root(Leaves(b)) <==> a == b
  {
    if Root(Leaves(a)) == Root(Leaves(b)) {
      RootDeterminesLength(Leaves(a), Leaves(b));
      forall i | 0 <= i < |a| ensures a[i] == b[i] { assert Leaves(a)[i] == Leaves(b)[i]; }
    }
  }

  /** Without the duplicate check the root would not: three and four transactions agree. */
  lemma DuplicateSharesRoot(a: TxId, b: TxId, c: TxId)
    ensures Root(Leaves([a, b, c])) == Root(Leaves([a, b, c, c]))
  {
    var s, t := Leaves([a, b, c]), Leaves([a, b, c, c]);
    assert Padded(s) == t && Padded(t) == t;
  }

  // ----- Single blocks

  function CheckTimestamp(ctx: Context, b: Block): Verdict {
    if b.header.timestamp > ctx.now + TIMESTAMP_TOLERANCE then Refused(InvalidTimestamp(b.header.height))
    else if b.header.height > 0 && b.header.timestamp < ctx.genesis then Refused(InvalidTimestamp(b.header.height))
    else Accepted
  }

  /** The rules a block has to meet on its own. */
  ghost predicate Sound(ctx: Context, b: Block) {
    && b.header.merkleRoot == Root(Leaves(b.txs))
    && b.header.timestamp <= ctx.now + TIMESTAMP_TOLERANCE
    && (b.header.height > 0 ==> ctx.genesis <= b.header.timestamp && b.header.bitmap != [])
    && Distinct(b.txs)
    && b.size <= MAX_BLOCK_SIZE
  }

  /** The first rule a block breaks, in the order of the checks. */
  ghost function Judge(ctx: Context, b: Block, expected: Option<Hash>): (r: Verdict)
    ensures r.Accepted? <==> Sound(ctx, b) && (expected.Some? ==> b.header.previousHash == expected.value)
  {
    var h := b.header.height;
    if expected.Some? && b.header.previousHash != expected.value then Refused(PreviousHashMismatch(h))
    else if Root(Leaves(b.txs)) != b.header.merkleRoot then Refused(MerkleRootMismatch(h))
    else if CheckTimestamp(ctx, b).Refused? then CheckTimestamp(ctx, b)
    else if !Distinct(b.txs) then Refused(DuplicateTransaction(h))
    else if b.size > MAX_BLOCK_SIZE then Refused(BlockTooLarge(h))
    else if h > 0 && b.header.bitmap == [] then Refused(MissingBitmap(h))
    else Accepted
  }

  /** Each error names the first rule that is broken. */
  lemma VerdictNames(ctx: Context, b: Block, expected: Option<Hash>)
    ensures var r, h := Judge(ctx, b, expected), b.header.height;
      var links := expected.Some? ==> b.header.previousHash == expected.value;
      var rooted := b.header.merkleRoot == Root(Leaves(b.txs));
      var timely := b.header.timestamp <= ctx.now + 5 && (h > 0 ==> b.header.timestamp >= ctx.genesis);
      && (r == Refused(PreviousHashMismatch(h)) <==> !links)
      && (r == Refused(MerkleRootMismatch(h)) <==> links && !rooted)
      && (r == Refused(InvalidTimestamp(h)) <==> links && rooted && !timely)
      && (r == Refused(DuplicateTransaction(h)) <==> links && rooted && timely && !Distinct(b.txs))
      && (r == Refused(BlockTooLarge(h)) <==> links && rooted && timely && Distinct(b.txs) && b.size > 4_000_000)
      && (r == Refused(MissingBitmap(h)) <==>
            links && rooted && timely && Distinct(b.txs) && b.size <= 4_000_000 && h > 0 && b.header.bitmap == [])
  {
  }

  method CheckDuplicates(txs: seq<TxId>) returns (fine: bool)
    ensures fine == Distinct(txs)
  {
    var seen: set<TxId> := {};
    for k := 0 to |txs|
      invariant forall x :: x in seen <==> exists i :: 0 <= i < k && txs[i] == x
      invariant Distinct(txs[..k])
    {
      if txs[k] in seen {
        var i :| 0 <= i < k && txs[i] == txs[k];
        return false;
      }
      seen := seen + {txs[k]};
    }
    assert txs[..|txs|] == txs;
    return true;
  }

  method ValidateBlock(ctx: Context, b: Block, expected: Option<Hash>) returns (r: Verdict)
    ensures r == Judge(ctx, b, expected)
  {
    var h := b.header.height;
    if expected.Some? && b.header.previousHash != expected.value { return Refused(PreviousHashMismatch(h)); }
    var root := BuildMerkleRoot(Leaves(b.txs));
    if root != b.header.merkleRoot { return Refused(MerkleRootMismatch(h)); }
    var stamp := CheckTimestamp(ctx, b);
    if stamp.Refused? { return stamp; }
    var fine := CheckDuplicates(b.txs);
    if !fine { return Refused(DuplicateTransaction(h)); }
    if b.size > MAX_BLOCK_SIZE { return Refused(BlockTooLarge(h)); }
    if h > 0 && b.header.bitmap == [] { return Refused(MissingBitmap(h)); }
    return Accepted;
  }

  // ----- Sequences

  function HashOf(b: Block): Hash {
    BlockHash(Message(b.header))
  }

  ghost predicate LinkAt(link: (Block, Block) -> bool, s: seq<Block>, i: nat)
    requires 0 < i < |s|
  {
    link(s[i - 1], s[i])
  }

  /** Neighbours are linked. */
  ghost predicate Links(link: (Block, Block) -> bool, s: seq<Block>) {
    forall i :: 0 < i < |s| ==> LinkAt(link, s, i)
  }

  lemma LinksJoin(link: (Block, Block) -> bool, a: seq<Block>, b: seq<Block>)
    ensures Links(link, a + b) <==>
            Links(link, a) && Links(link, b) && (a != [] && b != [] ==> link(a[|a| - 1], b[0]))
  {
    var s := a + b;
    forall i | 0 < i < |a| ensures LinkAt(link, a, i) <==> LinkAt(link, s, i) { }
    forall i | 0 < i < |b| ensures LinkAt(link, b, i) <==> LinkAt(link, s, |a| + i) { }
    if a != [] && b != [] { assert LinkAt(link, s, |a|) <==> link(a[|a| - 1], b[0]); }
    if Links(link, s) {
      forall i | 0 < i < |a| ensures LinkAt(link, a, i) { assert LinkAt(link, s, i); }
      forall i | 0 < i < |b| ensures LinkAt(link, b, i) { assert LinkAt(link, s, |a| + i); }
    } else {
      var i :| 0 < i < |s| && !LinkAt(link, s, i);
      if i < |a| { assert !LinkAt(link, a, i); } else if i > |a| { assert !LinkAt(link, b, i - |a|); }
    }
  }

  /** What a pair of neighbours is told. */
  ghost function LinkJudge(ctx: Context, prev: Block, curr: Block): Verdict {
    if curr.header.height != prev.header.height + 1 then Refused(HeightGap(curr.header.height))
    else if Judge(ctx, curr, Some(HashOf(prev))).Refused? then Judge(ctx, curr, Some(HashOf(prev)))
    else if curr.header.timestamp < prev.header.timestamp then Refused(TimestampOrder(curr.header.height))
    else Accepted
  }

  ghost predicate Linked(ctx: Context, prev: Block, curr: Block) {
    && curr.header.height == prev.header.height + 1
    && curr.header.previousHash == HashOf(prev)
    && curr.header.timestamp >= prev.header.timestamp
    && Sound(ctx, curr)
  }

  ghost function Link(ctx: Context): (Block, Block) -> bool {
    (prev, curr) => Linked(ctx, prev, curr)
  }

  ghost predicate Chain(ctx: Context, blocks: seq<Block>) {
    Links(Link(ctx), blocks)
  }

  ghost predicate LinkedAt(ctx: Context, blocks: seq<Block>, i: nat)
    requires 0 < i < |blocks|
  {
    LinkAt(Link(ctx), blocks, i)
  }

  method ValidateLink(ctx: Context, prev: Block, curr: Block) returns (r: Verdict)
    ensures r == LinkJudge(ctx, prev, curr) && (r.Accepted? <==> Linked(ctx, prev, curr))
  {
    if curr.header.height != prev.header.height + 1 { return Refused(HeightGap(curr.header.height)); }
    var v := ValidateBlock(ctx, curr, Some(HashOf(prev)));
    if v.Refused? { return v; }
    if curr.header.timestamp < prev.header.timestamp { return Refused(TimestampOrder(curr.header.height)); }
    return Accepted;
  }

  /** Accepts exactly the linked sequences; otherwise tells the first broken link. */
  method ValidateChainSequence(ctx: Context, blocks: seq<Block>) returns (r: Verdict)
    ensures r.Accepted? <==> Chain(ctx, blocks)
    ensures r.Refused? ==>
        exists i :: 0 < i < |blocks| && Chain(ctx, blocks[..i]) && r == LinkJudge(ctx, blocks[i - 1], blocks[i])
  {
    if blocks == [] { return Accepted; }
    NoLink(ctx, blocks);
    for i := 1 to |blocks|
      invariant Chain(ctx, blocks[..i])
    {
      r := ValidateLink(ctx, blocks[i - 1], blocks[i]);
      if r.Refused? {
        assert !LinkedAt(ctx, blocks, i);
        return;
      }
      OneMoreLink(ctx, blocks, i);
    }
    assert blocks[..|blocks|] == blocks;
    return Accepted;
  }

  lemma NoLink(ctx: Context, blocks: seq<Block>)
    requires blocks != []
    ensures Chain(ctx, blocks[..1])
  {
  }

  lemma OneMoreLink(ctx: Context, blocks: seq<Block>, i: nat)
    requires 0 < i < |blocks| && Chain(ctx, blocks[..i]) && Linked(ctx, blocks[i - 1], blocks[i])
    ensures Chain(ctx, blocks[..i + 1])
  {
    OneMore(Link(ctx), blocks, i);
  }

  lemma OneMore(link: (Block, Block) -> bool, s: seq<Block>, i: nat)
    requires 0 < i < |s| && Links(link, s[..i]) && link(s[i - 1], s[i])
    ensures Links(link, s[..i + 1])
  {
    assert s[..i + 1] == s[..i] + [s[i]];
    LinksJoin(link, s[..i], [s[i]]);
  }

  // ----- What an accepted sequence guarantees

  lemma NextHeight(ctx: Context, blocks: seq<Block>, i: nat)
    requires Chain(ctx, blocks) && 0 < i < |blocks|
    ensures blocks[i].header.height == blocks[i - 1].header.height + 1
    ensures blocks[i - 1].header.timestamp <= blocks[i].header.timestamp
  {
    assert LinkedAt(ctx, blocks, i);
  }

  lemma NextHash(ctx: Context, blocks: seq<Block>, i: nat)
    requires Chain(ctx, blocks) && 0 < i < |blocks|
    ensures blocks[i].header.previousHash == HashOf(blocks[i - 1])
  {
    assert LinkedAt(ctx, blocks, i);
  }

  lemma {:induction false} HeightsAndTimes(ctx: Context, blocks: seq<Block>, i: nat, j: nat)
    requires Chain(ctx, blocks) && i <= j < |blocks|
    ensures blocks[j].header.height == blocks[i].header.height + (j - i)
    ensures blocks[i].header.timestamp <= blocks[j].header.timestamp
    decreases j - i
  {
    if i < j {
      HeightsAndTimes(ctx, blocks, i, j - 1);
      NextHeight(ctx, blocks, j);
    }
  }

  /** Sequences compose: the joint is the only new condition. */
  lemma ChainJoins(ctx: Context, a: seq<Block>, b: seq<Block>)
    ensures Chain(ctx, a + b) <==>
            Chain(ctx, a) && Chain(ctx, b) && (a != [] && b != [] ==> Linked(ctx, a[|a| - 1], b[0]))
  {
    LinksJoin(Link(ctx), a, b);
  }

  /** Equal hashes at the end make all hashes of two accepted sequences equal, and with them
      every header field at a fixed place of the hashed bytes. */
  lemma {:induction false} TipFixesHeaders(ctx: Context, a: seq<Block>, b: seq<Block>, i: nat)
    requires |a| == |b| && i < |a| && Chain(ctx, a) && Chain(ctx, b)
    requires HashOf(a[|a| - 1]) == HashOf(b[|b| - 1])
    ensures HashOf(a[i]) == HashOf(b[i]) && SameFixed(a[i].header, b[i].header)
    ensures a[i].header == b[i].header <==> |a[i].header.leader| == |b[i].header.leader|
    decreases |a| - i
  {
    if i < |a| - 1 {
      TipFixesHeaders(ctx, a, b, i + 1);
      NextHash(ctx, a, i + 1);
      NextHash(ctx, b, i + 1);
    }
    HashFixes(a[i], b[i]);
  }

  /** What two blocks with one hash have in common. */
  lemma HashFixes(x: Block, y: Block)
    requires HashOf(x) == HashOf(y)
    ensures SameFixed(x.header, y.header)
    ensures x.header == y.header <==> |x.header.leader| == |y.header.leader|
  {
    EqualMessages(x.header, y.header);
  }

  /** The hash of the last block fixes every transaction of the sequence, except those of
      the first block, which is never validated. */
  lemma TipFixesTransactions(ctx: Context, a: seq<Block>, b: seq<Block>, i: nat)
    requires |a| == |b| && Chain(ctx, a) && Chain(ctx, b) && 0 < i < |a|
    requires HashOf(a[|a| - 1]) == HashOf(b[|b| - 1])
    ensures a[i].txs == b[i].txs
  {
    TipFixesHeaders(ctx, a, b, i);
    assert LinkedAt(ctx, a, i) && LinkedAt(ctx, b, i);
    MerkleRootDetermines(a[i].txs, b[i].txs);
  }

  /** It does not fix the headers: the last block of any accepted sequence, if it names its
      leader, has a twin with the same hash that is accepted in its place. */
  lemma TwinAccepted(ctx: Context, blocks: seq<Block>, twin: Block)
    requires Chain(ctx, blocks) && blocks != []
    requires var last := blocks[|blocks| - 1]; last.header.leader != [] && twin == last.(header := Twin(last.header))
    ensures Chain(ctx, blocks[|blocks| - 1 := twin])
    ensures HashOf(twin) == HashOf(blocks[|blocks| - 1]) && twin.header != blocks[|blocks| - 1].header
  {
    var header := blocks[|blocks| - 1].header;
    TwinCollides(header);
    EqualMessages(Twin(header), header);
    SwapLast(ctx, blocks, twin);
  }

  /** The last block may be any other that agrees on what linking looks at. */
  lemma SwapLast(ctx: Context, blocks: seq<Block>, twin: Block)
    requires Chain(ctx, blocks) && blocks != [] && twin.header.bitmap != []
    requires var last := blocks[|blocks| - 1];
      twin == last.(header := twin.header) && SameFixed(twin.header, last.header)
    ensures Chain(ctx, blocks[|blocks| - 1 := twin])
  {
    var k := |blocks| - 1;
    ChainJoins(ctx, blocks[..k], [blocks[k]]);
    ChainJoins(ctx, blocks[..k], [twin]);
    assert blocks[..k] + [blocks[k]] == blocks && blocks[..k] + [twin] == blocks[k := twin];
    if k > 0 { TwinLinked(ctx, blocks[k - 1], blocks[k], twin); }
  }

  /** Linking looks at the fixed fields and at a bitmap that is not empty. */
  lemma TwinLinked(ctx: Context, prev: Block, curr: Block, twin: Block)
    requires Linked(ctx, prev, curr) && twin == curr.(header := twin.header)
    requires SameFixed(twin.header, curr.header) && twin.header.bitmap != []
    ensures Linked(ctx, prev, twin)
  {
  }

  /** Exactly when the first block is sound by itself are all blocks of the sequence sound. */
  lemma AllSoundIff(ctx: Context, blocks: seq<Block>)
    requires Chain(ctx, blocks) && blocks != []
    ensures (forall i :: 0 <= i < |blocks| ==> Sound(ctx, blocks[i])) <==> Sound(ctx, blocks[0])
  {
    if Sound(ctx, blocks[0]) {
      forall i | 0 < i < |blocks| ensures Sound(ctx, blocks[i]) { assert LinkedAt(ctx, blocks, i); }
    }
  }

  /** A first block with a wrong Merkle root and a repeated transaction is let through. */
  lemma FirstBlockUnchecked(ctx: Context, b: Block)
    requires b.header.merkleRoot == Zero && b.txs == [7, 7]
    ensures Chain(ctx, [b]) && !Sound(ctx, b)
  {
    RootKind([7, 7]);
  }
}
