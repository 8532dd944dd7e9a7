/** Block headers and the bytes their hash is taken over. A hash is a symbolic term and takes
    one place of a message; all other fields are bytes, numbers in little-endian order. */
module Headers {

  import opened Transactions

  newtype Byte = x: int | 0 <= x < 256
  type U32 = x: int | 0 <= x < 0x1_0000_0000
  type U64 = x: int | 0 <= x < 0x1_0000_0000_0000_0000
  type I64 = x: int | -0x8000_0000_0000_0000 <= x < 0x8000_0000_0000_0000

  datatype Token = Octet(byte: Byte) | Digest(hash: Hash)

  datatype Hash = Zero | TxHash(id: TxId) | PairHash(left: Hash, right: Hash) | BlockHash(message: seq<Token>)

  /** Thirty-two bytes. */
  type Bytes32 = s: seq<Byte> | |s| == 32 witness seq(32, _ => 0)

  datatype Header = Header(
    version: U32, height: U64, previousHash: Hash, merkleRoot: Hash, timestamp: I64, reward: U64,
    leader: seq<Byte>, vrfOutput: Bytes32, vrfScore: U64, bitmap: seq<Byte>, treasury: U64)

  // ----- Little-endian numbers

  function Power(k: nat): (p: nat)
    ensures p > 0
  {
    if k == 0 then 1 else 256 * Power(k - 1)
  }

  lemma Widths()
    ensures Power(4) == 0x1_0000_0000 && Power(8) == 0x1_0000_0000_0000_0000
  {
    assert Power(1) == 256 && Power(2) == 65536 && Power(3) == 16777216;
    assert Power(4) == 256 * Power(3) && Power(5) == 256 * Power(4);
    assert Power(6) == 256 * Power(5) && Power(7) == 256 * Power(6) && Power(8) == 256 * Power(7);
  }

  function Le(x: nat, k: nat): (s: seq<Byte>)
    ensures |s| == k
    decreases k
  {
    if k == 0 then [] else [(x % 256) as Byte] + Le(x / 256, k - 1)
  }

  function FromLe(s: seq<Byte>): (x: nat)
    ensures x < Power(|s|)
  {
    if s == [] then 0 else s[0] as int + 256 * FromLe(s[1..])
  }

  lemma {:induction false} LeRoundTrip(x: nat, k: nat)
    requires x < Power(k)
    ensures FromLe(Le(x, k)) == x
    decreases k
  {
    if k > 0 {
      assert Le(x, k)[1..] == Le(x / 256, k - 1);
      LeRoundTrip(x / 256, k - 1);
    }
  }

  lemma {:induction false} FromLeRoundTrip(s: seq<Byte>)
    ensures Le(FromLe(s), |s|) == s
  {
    if s != [] {
      FromLeRoundTrip(s[1..]);
      assert [s[0]] + s[1..] == s;
    }
  }

  /** Equal encodings of numbers that fit are of equal numbers. */
  lemma LeInjective(x: nat, y: nat, k: nat)
    requires x < Power(k) && y < Power(k) && Le(x, k) == Le(y, k)
    ensures x == y
  {
    LeRoundTrip(x, k);
    LeRoundTrip(y, k);
  }

  /** Two's complement. */
  function Unsigned(x: I64): U64 {
    if x < 0 then x + 0x1_0000_0000_0000_0000 else x
  }

  // ----- The message

  function Octets(s: seq<Byte>): (r: seq<Token>)
    ensures |r| == |s|
  {
    seq(|s|, i requires 0 <= i < |s| => Octet(s[i]))
  }

  lemma OctetsInjective(a: seq<Byte>, b: seq<Byte>)
    requires Octets(a) == Octets(b)
    ensures a == b
  {
    assert |a| == |Octets(a)| == |Octets(b)| == |b|;
    forall i | 0 <= i < |a| ensures a[i] == b[i] { assert Octets(a)[i] == Octets(b)[i]; }
  }

  /** Fields of fixed width up to the leader. */
  function Front(h: Header): (r: seq<Token>)
    ensures |r| == 30
  {
    Octets(Le(h.version, 4)) + (Octets(Le(h.height, 8)) + ([Digest(h.previousHash)] + ([Digest(h.merkleRoot)] +
    (Octets(Le(Unsigned(h.timestamp), 8)) + Octets(Le(h.reward, 8))))))
  }

  /** The fields between the reward and the treasury balance, with nothing to tell where the
      leader ends and the bitmap begins. */
  function Middle(h: Header): (r: seq<Byte>)
    ensures |r| == |h.leader| + 40 + |h.bitmap|
  {
    h.leader + (h.vrfOutput + (Le(h.vrfScore, 8) + h.bitmap))
  }

  function Message(h: Header): (r: seq<Token>)
    ensures |r| == 38 + |Middle(h)|
  {
    Front(h) + (Octets(Middle(h)) + Octets(Le(h.treasury, 8)))
  }

  // ----- What equal messages have in common

  lemma SplitsAt<T>(a: seq<T>, b: seq<T>, c: seq<T>, d: seq<T>)
    requires a + b == c + d && |a| == |c|
    ensures a == c && b == d
  {
    assert a == (a + b)[..|a|] && c == (c + d)[..|c|];
    assert b == (a + b)[|a|..] && d == (c + d)[|c|..];
  }

  lemma NumbersSplit(x: nat, y: nat, k: nat, b: seq<Token>, d: seq<Token>)
    requires x < Power(k) && y < Power(k) && Octets(Le(x, k)) + b == Octets(Le(y, k)) + d
    ensures x == y && b == d
  {
    SplitsAt(Octets(Le(x, k)), b, Octets(Le(y, k)), d);
    OctetsInjective(Le(x, k), Le(y, k));
    LeInjective(x, y, k);
  }

  ghost predicate SameFront(a: Header, b: Header) {
    && a.version == b.version && a.height == b.height && a.previousHash == b.previousHash
    && a.merkleRoot == b.merkleRoot && a.timestamp == b.timestamp && a.reward == b.reward
  }

  /** Fields at a fixed place from the front or the end of the message. */
  ghost predicate SameFixed(a: Header, b: Header) {
    SameFront(a, b) && a.treasury == b.treasury
  }

  function Stamps(h: Header): seq<Token> {
    Octets(Le(Unsigned(h.timestamp), 8)) + Octets(Le(h.reward, 8))
  }

  lemma EqualStamps(a: Header, b: Header)
    requires Stamps(a) == Stamps(b)
    ensures a.timestamp == b.timestamp && a.reward == b.reward
  {
    Widths();
    NumbersSplit(Unsigned(a.timestamp), Unsigned(b.timestamp), 8, Octets(Le(a.reward, 8)), Octets(Le(b.reward, 8)));
    OctetsInjective(Le(a.reward, 8), Le(b.reward, 8));
    LeInjective(a.reward, b.reward, 8);
  }

  lemma EqualFronts(a: Header, b: Header)
    requires Front(a) == Front(b)
    ensures SameFront(a, b)
  {
    Widths();
    var rootsA := [Digest(a.previousHash)] + ([Digest(a.merkleRoot)] + Stamps(a));
    var rootsB := [Digest(b.previousHash)] + ([Digest(b.merkleRoot)] + Stamps(b));
    NumbersSplit(a.version, b.version, 4, Octets(Le(a.height, 8)) + rootsA, Octets(Le(b.height, 8)) + rootsB);
    NumbersSplit(a.height, b.height, 8, rootsA, rootsB);
    SplitsAt([Digest(a.previousHash)], [Digest(a.merkleRoot)] + Stamps(a), [Digest(b.previousHash)],
      [Digest(b.merkleRoot)] + Stamps(b));
    SplitsAt([Digest(a.merkleRoot)], Stamps(a), [Digest(b.merkleRoot)], Stamps(b));
    EqualStamps(a, b);
  }

  lemma EqualEnds(a: Header, b: Header)
    requires Message(a) == Message(b)
    ensures SameFixed(a, b) && Middle(a) == Middle(b)
  {
    SplitsAt(Front(a), Octets(Middle(a)) + Octets(Le(a.treasury, 8)), Front(b),
      Octets(Middle(b)) + Octets(Le(b.treasury, 8)));
    EqualFronts(a, b);
    SplitsAt(Octets(Middle(a)), Octets(Le(a.treasury, 8)), Octets(Middle(b)), Octets(Le(b.treasury, 8)));
    OctetsInjective(Middle(a), Middle(b));
    OctetsInjective(Le(a.treasury, 8), Le(b.treasury, 8));
    Widths();
    LeInjective(a.treasury, b.treasury, 8);
  }

  lemma EqualMiddles(a: Header, b: Header)
    requires Middle(a) == Middle(b) && |a.leader| == |b.leader|
    ensures a.leader == b.leader && a.vrfOutput == b.vrfOutput && a.vrfScore == b.vrfScore && a.bitmap == b.bitmap
  {
    SplitsAt(a.leader, a.vrfOutput + (Le(a.vrfScore, 8) + a.bitmap), b.leader,
      b.vrfOutput + (Le(b.vrfScore, 8) + b.bitmap));
    SplitsAt(a.vrfOutput, Le(a.vrfScore, 8) + a.bitmap, b.vrfOutput, Le(b.vrfScore, 8) + b.bitmap);
    SplitsAt(Le(a.vrfScore, 8), a.bitmap, Le(b.vrfScore, 8), b.bitmap);
    Widths();
    LeInjective(a.vrfScore, b.vrfScore, 8);
  }

  /** Headers with one message agree on all fixed fields, and altogether exactly when their
      leaders are equally long. */
  lemma EqualMessages(a: Header, b: Header)
    requires Message(a) == Message(b)
    ensures SameFixed(a, b)
    ensures a == b <==> |a.leader| == |b.leader|
  {
    EqualEnds(a, b);
    if |a.leader| == |b.leader| { EqualMiddles(a, b); }
  }

  // ----- Headers that share a message

  /** Eight bytes as a number. */
  function Word(s: seq<Byte>): (x: U64)
    requires |s| == 8
    ensures Le(x, 8) == s
  {
    Widths();
    FromLeRoundTrip(s);
    FromLe(s)
  }

  /** The header with the last byte of the leader moved into the fields behind it. */
  function Twin(h: Header): Header
    requires h.leader != []
  {
    var k, m := |h.leader| - 1, Middle(h);
    h.(leader := m[..k], vrfOutput := m[k..k + 32], vrfScore := Word(m[k + 32..k + 40]), bitmap := m[k + 40..])
  }

  lemma Cuts(m: seq<Byte>, k: nat)
    requires k + 40 <= |m|
    ensures m[..k] + (m[k..k + 32] + (m[k + 32..k + 40] + m[k + 40..])) == m
  {
    assert m[k + 32..k + 40] + m[k + 40..] == m[k + 32..];
    assert m[k..k + 32] + m[k + 32..] == m[k..];
  }

  lemma TwinMiddle(h: Header)
    requires h.leader != []
    ensures Middle(Twin(h)) == Middle(h)
  {
    Cuts(Middle(h), |h.leader| - 1);
  }

  /** Every header that names its leader shares its message with another header. */
  lemma TwinCollides(h: Header)
    requires h.leader != []
    ensures Twin(h) != h && Message(Twin(h)) == Message(h) && Twin(h).bitmap != []
  {
    TwinMiddle(h);
    assert |Twin(h).leader| == |h.leader| - 1;
    assert Front(Twin(h)) == Front(h);
  }
}
