/** The prepare and precommit accumulators. They differ in what a vote carries besides its
    weight (nothing, or a signature), which is the type parameter `P`. */
module VoteAccumulator {

  import opened Sums
  import opened Quorum

  type Hash = nat

  datatype Ballot<P> = Ballot(voter: Voter, payload: P, weight: nat)

  datatype Tally<P> = Tally(votes: map<Hash, seq<Ballot<P>>>, signaled: set<Hash>)

  // ----- Operations on values

  predicate HasVoted<P>(list: seq<Ballot<P>>, v: Voter) {
    exists i :: 0 <= i < |list| && list[i].voter == v
  }

  predicate VotedElsewhere<P>(votes: map<Hash, seq<Ballot<P>>>, b: Hash, v: Voter) {
    exists x :: x in votes && x != b && HasVoted(votes[x], v)
  }

  function ListOf<P>(votes: map<Hash, seq<Ballot<P>>>, b: Hash): seq<Ballot<P>> {
    if b in votes then votes[b] else []
  }

  /** The first vote of a voter counts, for whichever block it is. */
  function Cast<P>(t: Tally<P>, b: Hash, v: Voter, p: P, w: nat): Tally<P> {
    if VotedElsewhere(t.votes, b, v) || HasVoted(ListOf(t.votes, b), v) then t
    else t.(votes := t.votes[b := ListOf(t.votes, b) + [Ballot(v, p, w)]])
  }

  function ListWeight<P>(list: seq<Ballot<P>>): nat {
    if list == [] then 0 else ListWeight(list[..|list| - 1]) + list[|list| - 1].weight
  }

  ghost function BlockWeights<P>(votes: map<Hash, seq<Ballot<P>>>): map<Hash, nat> {
    map b | b in votes :: ListWeight(votes[b])
  }

  /** Weight of everybody who voted, block by block. */
  ghost function Participating<P>(votes: map<Hash, seq<Ballot<P>>>): nat {
    Total(BlockWeights(votes), votes.Keys)
  }

  ghost predicate Majority<P>(votes: map<Hash, seq<Ballot<P>>>, b: Hash) {
    && b in votes && |votes[b]| >= 2
    && ListWeight(votes[b]) > Participating(votes) / 2
  }

  ghost function Check<P>(t: Tally<P>, b: Hash): (Tally<P>, bool) {
    if b in t.signaled || !Majority(t.votes, b) then (t, false)
    else (t.(signaled := t.signaled + {b}), true)
  }

  function Without<P>(list: seq<Ballot<P>>, v: Voter): seq<Ballot<P>> {
    if list == [] then []
    else
      var rest := Without(list[..|list| - 1], v);
      if list[|list| - 1].voter == v then rest else rest + [list[|list| - 1]]
  }

  function RemoveVoter<P>(t: Tally<P>, v: Voter): Tally<P> {
    t.(votes := map b | b in t.votes :: Without(t.votes[b], v))
  }

  function Clear<P>(t: Tally<P>, b: Hash): Tally<P> {
    Tally(t.votes - {b}, t.signaled - {b})
  }

  // ----- Each voter is stored under at most one block

  ghost predicate Once<P(!new)>(list: seq<Ballot<P>>) {
    forall i, j :: 0 <= i < j < |list| ==> list[i].voter != list[j].voter
  }

  ghost predicate Valid<P(!new)>(votes: map<Hash, seq<Ballot<P>>>) {
    && (forall b :: b in votes ==> Once(votes[b]))
    && (forall a, b, v :: a in votes && b in votes && a != b && HasVoted(votes[a], v) ==> !HasVoted(votes[b], v))
  }

  lemma CastValid<P(!new)>(t: Tally<P>, b: Hash, v: Voter, p: P, w: nat)
    requires Valid(t.votes)
    ensures Valid(Cast(t, b, v, p, w).votes)
  {
    var t' := Cast(t, b, v, p, w);
    if t' != t {
      var list := ListOf(t.votes, b);
      forall x, y, u | x in t'.votes && y in t'.votes && x != y && HasVoted(t'.votes[x], u)
        ensures !HasVoted(t'.votes[y], u)
      {
        AppendVoters(list, Ballot(v, p, w), u);
      }
    }
  }

  lemma AppendVoters<P(!new)>(list: seq<Ballot<P>>, x: Ballot<P>, u: Voter)
    ensures HasVoted(list + [x], u) <==> HasVoted(list, u) || u == x.voter
  {
    if HasVoted(list, u) {
      var i :| 0 <= i < |list| && list[i].voter == u;
      assert (list + [x])[i].voter == u;
    }
    assert (list + [x])[|list|] == x;
  }

  lemma {:induction false} WithoutVoters<P(!new)>(list: seq<Ballot<P>>, v: Voter, u: Voter)
    ensures HasVoted(Without(list, v), u) <==> HasVoted(list, u) && u != v
    decreases |list|
  {
    if list != [] {
      var k := |list| - 1;
      WithoutVoters(list[..k], v, u);
      assert list == list[..k] + [list[k]];
      AppendVoters(list[..k], list[k], u);
      AppendVoters(Without(list[..k], v), list[k], u);
    }
  }

  lemma {:induction false} WithoutOnce<P(!new)>(list: seq<Ballot<P>>, v: Voter)
    requires Once(list)
    ensures Once(Without(list, v))
    decreases |list|
  {
    if list != [] {
      var k := |list| - 1;
      WithoutOnce(list[..k], v);
      WithoutVoters(list[..k], v, list[k].voter);
      assert forall i :: 0 <= i < k ==> list[..k][i] == list[i];
      OnceMore(Without(list[..k], v), list[k]);
    }
  }

  lemma OnceMore<P(!new)>(list: seq<Ballot<P>>, x: Ballot<P>)
    requires Once(list) && !HasVoted(list, x.voter)
    ensures Once(list + [x])
  {
  }

  lemma RemoveValid<P(!new)>(t: Tally<P>, v: Voter)
    requires Valid(t.votes)
    ensures Valid(RemoveVoter(t, v).votes) && forall b :: b in t.votes ==> !HasVoted(RemoveVoter(t, v).votes[b], v)
  {
    var t' := RemoveVoter(t, v);
    forall b | b in t.votes
      ensures Once(t'.votes[b]) && !HasVoted(t'.votes[b], v)
    {
      WithoutOnce(t.votes[b], v);
      WithoutVoters(t.votes[b], v, v);
    }
    forall a, b, u | a in t'.votes && b in t'.votes && a != b && HasVoted(t'.votes[a], u)
      ensures !HasVoted(t'.votes[b], u)
    {
      WithoutVoters(t.votes[a], v, u);
      WithoutVoters(t.votes[b], v, u);
    }
  }

  // ----- Weights

  lemma TwoBlocks<P(!new)>(votes: map<Hash, seq<Ballot<P>>>, a: Hash, b: Hash)
    requires a in votes && b in votes && a != b
    ensures ListWeight(votes[a]) + ListWeight(votes[b]) <= Participating(votes)
  {
    var w := BlockWeights(votes);
    TotalTake(w, votes.Keys, a);
    TotalTake(w, votes.Keys - {a}, b);
  }

  /** Two blocks never hold a majority at once. */
  lemma OneMajority<P(!new)>(votes: map<Hash, seq<Ballot<P>>>, a: Hash, b: Hash)
    requires Majority(votes, a) && Majority(votes, b)
    ensures a == b
  {
    if a != b { TwoBlocks(votes, a, b); }
  }

  /** A counted vote adds its weight to its block and to the participation, nothing else. */
  lemma CastWeights<P(!new)>(t: Tally<P>, b: Hash, v: Voter, p: P, w: nat)
    requires Cast(t, b, v, p, w) != t
    ensures var t' := Cast(t, b, v, p, w);
      && Participating(t'.votes) == Participating(t.votes) + w
      && ListWeight(t'.votes[b]) == ListWeight(ListOf(t.votes, b)) + w
  {
    var t' := Cast(t, b, v, p, w);
    var list := ListOf(t.votes, b);
    assert (list + [Ballot(v, p, w)])[..|list|] == list;
    var old', new' := BlockWeights(t.votes), BlockWeights(t'.votes);
    TotalTake(new', t'.votes.Keys, b);
    TotalAgree(old', new', t.votes.Keys - {b});
    if b in t.votes {
      TotalTake(old', t.votes.Keys, b);
      assert t'.votes.Keys == t.votes.Keys;
    } else {
      assert t'.votes.Keys - {b} == t.votes.Keys;
      assert t.votes.Keys - {b} == t.votes.Keys;
      assert ListWeight(list) == 0;
    }
  }

  /** Clearing a block opens it again: it may be signalled anew, the participation falls by its
      weight, and its voters may vote for any block. */
  lemma ClearReopens<P(!new)>(t: Tally<P>, b: Hash)
    requires Valid(t.votes)
    ensures var t' := Clear(t, b);
      && Valid(t'.votes) && b !in t'.signaled &&
           Participating(t.votes) == Participating(t'.votes) + ListWeight(ListOf(t.votes, b))
      && forall v, x, p, w :: HasVoted(ListOf(t.votes, b), v) ==> Cast(t', x, v, p, w) != t'
  {
    var t', was := Clear(t, b), BlockWeights(t.votes);
    assert t'.votes.Keys == t.votes.Keys - {b};
    TotalAgree(was, BlockWeights(t'.votes), t'.votes.Keys);
    if b in t.votes { TotalTake(was, t.votes.Keys, b); } else { assert t'.votes.Keys == t.votes.Keys; }
    forall v, x, p, w | HasVoted(ListOf(t.votes, b), v)
      ensures Cast(t', x, v, p, w) != t'
    {
      FreeToVote(t', x, v, p, w);
    }
  }

  lemma FreeToVote<P(!new)>(t: Tally<P>, b: Hash, v: Voter, p: P, w: nat)
    requires forall x :: x in t.votes ==> !HasVoted(t.votes[x], v)
    ensures Cast(t, b, v, p, w) != t
  {
    var list := ListOf(t.votes, b);
    assert |list + [Ballot(v, p, w)]| != |list|;
  }

  /** A voter's weight under one block. */
  function VoterWeight<P>(list: seq<Ballot<P>>, v: Voter): nat {
    if list == [] then 0
    else VoterWeight(list[..|list| - 1], v) + if list[|list| - 1].voter == v then list[|list| - 1].weight else 0
  }

  /** Removal keeps the ballots of all others as they are, and takes exactly the voter's weight. */
  lemma {:induction false} WithoutBallots<P(!new)>(list: seq<Ballot<P>>, v: Voter)
    ensures forall x :: x in Without(list, v) <==> x in list && x.voter != v
    ensures ListWeight(list) == ListWeight(Without(list, v)) + VoterWeight(list, v)
    ensures !HasVoted(list, v) ==> Without(list, v) == list
    decreases |list|
  {
    if list != [] {
      var k := |list| - 1;
      var rest := Without(list[..k], v);
      WithoutBallots(list[..k], v);
      assert list == list[..k] + [list[k]];
      assert HasVoted(list[..k], v) ==> HasVoted(list, v) by { AppendVoters(list[..k], list[k], v); }
      if list[k].voter == v { assert HasVoted(list, v); } else { assert (rest + [list[k]])[..|rest|] == rest; }
    }
  }

  /** One list changes, so the participation changes by as much. */
  lemma OneListChanges<P(!new)>(votes: map<Hash, seq<Ballot<P>>>, votes': map<Hash, seq<Ballot<P>>>, b: Hash)
    requires votes'.Keys == votes.Keys && b in votes && forall x :: x in votes && x != b ==> votes'[x] == votes[x]
    ensures Participating(votes) + ListWeight(votes'[b]) == Participating(votes') + ListWeight(votes[b])
  {
    TotalTake(BlockWeights(votes), votes.Keys, b);
    TotalTake(BlockWeights(votes'), votes.Keys, b);
    TotalAgree(BlockWeights(votes), BlockWeights(votes'), votes.Keys - {b});
  }

  lemma RemoveElsewhere<P(!new)>(t: Tally<P>, v: Voter, b: Hash, x: Hash)
    requires Valid(t.votes) && b in t.votes && HasVoted(t.votes[b], v) && x in t.votes && x != b
    ensures RemoveVoter(t, v).votes[x] == t.votes[x]
  {
    WithoutBallots(t.votes[x], v);
  }

  /** Removing a voter lowers the participation by exactly its weight under its one block, and
      leaves every other block as it was. */
  lemma RemoveWeights<P(!new)>(t: Tally<P>, v: Voter, b: Hash)
    requires Valid(t.votes) && b in t.votes && HasVoted(t.votes[b], v)
    ensures var t' := RemoveVoter(t, v);
      && Participating(t.votes) == Participating(t'.votes) + VoterWeight(t.votes[b], v)
      && ListWeight(t.votes[b]) == ListWeight(t'.votes[b]) + VoterWeight(t.votes[b], v)
      && t'.signaled == t.signaled && t'.votes.Keys == t.votes.Keys
      && forall x :: x in t.votes && x != b ==> t'.votes[x] == t.votes[x]
  {
    var t' := RemoveVoter(t, v);
    forall x | x in t.votes && x != b
      ensures t'.votes[x] == t.votes[x]
    {
      RemoveElsewhere(t, v, b, x);
    }
    WithoutBallots(t.votes[b], v);
    OneListChanges(t.votes, t'.votes, b);
  }

  ghost predicate SeenIn<P(!new)>(votes: map<Hash, seq<Ballot<P>>>, blocks: set<Hash>, v: Voter) {
    exists x :: x in blocks && x in votes && HasVoted(votes[x], v)
  }

  lemma SeenMore<P(!new)>(votes: map<Hash, seq<Ballot<P>>>, blocks: set<Hash>, x: Hash, v: Voter)
    requires x in votes
    ensures SeenIn(votes, blocks + {x}, v) <==> SeenIn(votes, blocks, v) || HasVoted(votes[x], v)
  {
    assert x in blocks + {x};
  }

  lemma TotalMore(w: map<Hash, nat>, s: set<Hash>, x: Hash)
    requires s <= w.Keys && x in w && x !in s
    ensures Total(w, s + {x}) == Total(w, s) + w[x]
  {
    TotalTake(w, s + {x}, x);
    assert s + {x} - {x} == s;
  }

  lemma NotSeen<P(!new)>(votes: map<Hash, seq<Ballot<P>>>, blocks: set<Hash>, x: Hash)
    requires Valid(votes) && x in votes && x !in blocks
    ensures forall v :: HasVoted(votes[x], v) ==> !SeenIn(votes, blocks, v)
  {
  }

  // ----- The accumulator as an object

  class Accumulator<P(!new)> {
    var votes: map<Hash, seq<Ballot<P>>>
    var signaled: set<Hash>

    ghost function View(): Tally<P>
      reads this
    {
      Tally(votes, signaled)
    }

    constructor ()
      ensures View() == Tally(map[], {}) && Valid(votes)
    {
      votes, signaled := map[], {};
    }

    method FindVoter(list: seq<Ballot<P>>, v: Voter) returns (found: bool)
      ensures found == HasVoted(list, v)
    {
      for i := 0 to |list|
        invariant forall j :: 0 <= j < i ==> list[j].voter != v
      {
        if list[i].voter == v { return true; }
      }
      return false;
    }

    method AddVote(b: Hash, v: Voter, p: P, w: nat)
      requires Valid(votes)
      modifies `votes
      ensures View() == Cast(old(View()), b, v, p, w) && Valid(votes)
    {
      CastValid(View(), b, v, p, w);
      var todo := votes.Keys;
      while todo != {}
        invariant todo <= votes.Keys && votes == old(votes)
        invariant forall x :: x in votes && x !in todo && x != b ==> !HasVoted(votes[x], v)
        decreases |todo|
      {
        var x :| x in todo;
        todo := todo - {x};
        if x != b {
          var found := FindVoter(votes[x], v);
          if found { return; }
        }
      }
      var list := ListOf(votes, b);
      var again := FindVoter(list, v);
      if again { return; }
      votes := votes[b := list + [Ballot(v, p, w)]];
    }

    method SumWeights(list: seq<Ballot<P>>) returns (sum: nat)
      ensures sum == ListWeight(list)
    {
      sum := 0;
      for i := 0 to |list|
        invariant sum == ListWeight(list[..i])
      {
        assert list[..i + 1][..i] == list[..i];
        sum := sum + list[i].weight;
      }
      assert list[..|list|] == list;
    }

    /** Weights of a block's voters not seen before, and those voters added to `seen`. */
    method AddUnseen(list: seq<Ballot<P>>, seen0: set<Voter>) returns (sum: nat, seen: set<Voter>)
      requires Once(list) && forall v :: HasVoted(list, v) ==> v !in seen0
      ensures sum == ListWeight(list)
      ensures forall v :: v in seen <==> v in seen0 || HasVoted(list, v)
    {
      sum, seen := 0, seen0;
      for i := 0 to |list|
        invariant sum == ListWeight(list[..i])
        invariant forall v :: v in seen <==> v in seen0 || HasVoted(list[..i], v)
      {
        assert list[..i + 1][..i] == list[..i];
        assert list[..i + 1] == list[..i] + [list[i]];
        assert HasVoted(list, list[i].voter);
        forall v ensures HasVoted(list[..i + 1], v) <==> HasVoted(list[..i], v) || v == list[i].voter {
          AppendVoters(list[..i], list[i], v);
        }
        if list[i].voter !in seen {
          seen := seen + {list[i].voter};
          sum := sum + list[i].weight;
        }
      }
      assert list[..|list|] == list;
    }

    /** One block of the pass over all blocks. */
    method VisitBlock(ghost done: set<Hash>, x: Hash, seen0: set<Voter>) returns (sum: nat, seen: set<Voter>)
      requires Valid(votes) && x in votes && x !in done
      requires forall v :: v in seen0 <==> SeenIn(votes, done, v)
      ensures sum == ListWeight(votes[x])
      ensures forall v :: v in seen <==> SeenIn(votes, done + {x}, v)
    {
      NotSeen(votes, done, x);
      sum, seen := AddUnseen(votes[x], seen0);
      forall v ensures SeenIn(votes, done + {x}, v) <==> SeenIn(votes, done, v) || HasVoted(votes[x], v) {
        SeenMore(votes, done, x, v);
      }
    }

    /** The deduplicated total, in whatever order the blocks are visited. */
    method TotalWeight() returns (total: nat)
      requires Valid(votes)
      ensures total == Participating(votes)
    {
      total := 0;
      var todo, seen: set<Voter> := votes.Keys, {};
      ghost var w := BlockWeights(votes);
      assert votes.Keys - todo == {};
      while todo != {}
        invariant todo <= votes.Keys
        invariant total == Total(w, votes.Keys - todo)
        invariant forall v :: v in seen <==> SeenIn(votes, votes.Keys - todo, v)
        decreases |todo|
      {
        var x :| x in todo;
        ghost var done := votes.Keys - todo;
        var sum;
        sum, seen := VisitBlock(done, x, seen);
        total := total + sum;
        TotalMore(w, done, x);
        todo := todo - {x};
        assert votes.Keys - todo == done + {x};
      }
      assert votes.Keys - todo == votes.Keys;
    }

    method CheckConsensus(b: Hash) returns (r: bool)
      requires Valid(votes)
      modifies `signaled
      ensures (View(), r) == Check(old(View()), b)
    {
      if b in signaled || b !in votes || |votes[b]| < 2 { return false; }
      var blockWeight := SumWeights(votes[b]);
      var total := TotalWeight();
      r := total > 0 && blockWeight > total / 2;
      assert blockWeight <= total by { TotalTake(BlockWeights(votes), votes.Keys, b); }
      if r { signaled := signaled + {b}; }
    }

    method Retain(list: seq<Ballot<P>>, v: Voter) returns (kept: seq<Ballot<P>>)
      ensures kept == Without(list, v)
    {
      kept := [];
      for i := 0 to |list|
        invariant kept == Without(list[..i], v)
      {
        assert list[..i + 1][..i] == list[..i];
        if list[i].voter != v { kept := kept + [list[i]]; }
      }
      assert list[..|list|] == list;
    }

    method RetainIn(x: Hash, v: Voter)
      requires x in votes
      modifies `votes
      ensures votes == old(votes)[x := Without(old(votes)[x], v)]
    {
      var kept := Retain(votes[x], v);
      votes := votes[x := kept];
    }

    method RetainAll(v: Voter)
      modifies `votes
      ensures View() == RemoveVoter(old(View()), v)
    {
      ghost var was := votes;
      var todo := votes.Keys;
      while todo != {}
        invariant todo <= votes.Keys == was.Keys
        invariant forall x :: x in was ==> votes[x] == if x in todo then was[x] else Without(was[x], v)
        decreases |todo|
      {
        var x :| x in todo;
        RetainIn(x, v);
        todo := todo - {x};
      }
      assert votes == RemoveVoter(Tally(was, signaled), v).votes;
    }

    method DropVoter(v: Voter)
      requires Valid(votes)
      modifies `votes
      ensures View() == RemoveVoter(old(View()), v) && Valid(votes)
    {
      RemoveValid(View(), v);
      RetainAll(v);
    }

    method ClearBlock(b: Hash)
      requires Valid(votes)
      modifies this
      ensures View() == Clear(old(View()), b) && Valid(votes)
    {
      votes := votes - {b};
      signaled := signaled - {b};
    }

    method ClearAll()
      modifies this
      ensures View() == Tally(map[], {}) && Valid(votes)
    {
      votes, signaled := map[], {};
    }
  }

  // ----- Runs

  datatype Op<P> =
    | Add(b: Hash, v: Voter, p: P, w: nat)
    | Ask(b: Hash)
    | Remove(v: Voter)
    | ClearOne(b: Hash)
    | ClearEvery

  ghost function Apply<P(!new)>(t: Tally<P>, op: Op<P>): Tally<P> {
    match op
    case Add(b, v, p, w) => Cast(t, b, v, p, w)
    case Ask(b) => Check(t, b).0
    case Remove(v) => RemoveVoter(t, v)
    case ClearOne(b) => Clear(t, b)
    case ClearEvery => Tally(map[], {})
  }

  ghost function After<P(!new)>(t: Tally<P>, ops: seq<Op<P>>): Tally<P> {
    if ops == [] then t else Apply(After(t, ops[..|ops| - 1]), ops[|ops| - 1])
  }

  /** In every reachable state a voter is stored once, under one block. */
  lemma {:induction false} RunValid<P(!new)>(t: Tally<P>, ops: seq<Op<P>>)
    requires Valid(t.votes)
    ensures Valid(After(t, ops).votes)
    decreases |ops|
  {
    if ops != [] {
      RunValid(t, ops[..|ops| - 1]);
      var t1 := After(t, ops[..|ops| - 1]);
      match ops[|ops| - 1]
      case Add(b, v, p, w) => CastValid(t1, b, v, p, w);
      case Remove(v) => RemoveValid(t1, v);
      case _ =>
    }
  }

  /** A block is signalled once until it is cleared. */
  lemma {:induction false} SignalledOnce<P(!new)>(t: Tally<P>, b: Hash, ops: seq<Op<P>>)
    requires b in t.signaled && ClearOne(b) !in ops && ClearEvery !in ops
    ensures b in After(t, ops).signaled && !Check(After(t, ops), b).1
    decreases |ops|
  {
    if ops != [] {
      var k := |ops| - 1;
      assert ops[k] in ops && forall x :: x in ops[..k] ==> x in ops;
      SignalledOnce(t, b, ops[..k]);
    }
  }

  /** Votes and questions only. */
  ghost predicate Growing<P(!new)>(ops: seq<Op<P>>) {
    forall i :: 0 <= i < |ops| ==> ops[i].Add? || ops[i].Ask?
  }

  lemma {:induction false} WeightGrows<P(!new)>(t: Tally<P>, ops: seq<Op<P>>, a: Hash)
    requires Growing(ops) && a in t.votes
    ensures a in After(t, ops).votes && ListWeight(After(t, ops).votes[a]) >= ListWeight(t.votes[a])
    decreases |ops|
  {
    if ops != [] {
      var k := |ops| - 1;
      WeightGrows(t, ops[..k], a);
      var t1 := After(t, ops[..k]);
      if ops[k].Add? && Apply(t1, ops[k]) != t1 && ops[k].b == a {
        CastWeights(t1, a, ops[k].v, ops[k].p, ops[k].w);
      }
    }
  }

  /** Once a block is signalled with weight `w`, another can be signalled only after the
      participation has passed `2 * w`. */
  lemma OvertakeBound<P(!new)>(t: Tally<P>, a: Hash, ops: seq<Op<P>>, b: Hash)
    requires Check(t, a).1 && Growing(ops) && b != a
    requires Check(After(Check(t, a).0, ops), b).1
    ensures Participating(After(Check(t, a).0, ops).votes) > 2 * ListWeight(t.votes[a])
  {
    var t0 := Check(t, a).0;
    WeightGrows(t0, ops, a);
    TwoBlocks(After(t0, ops).votes, a, b);
  }

  lemma {:induction false} TwoVotes<P(!new)>(t: Tally<P>, b: Hash, x: Ballot<P>, y: Ballot<P>)
    requires b !in t.votes && x.voter != y.voter && !VotedElsewhere(t.votes, b, x.voter) &&
        !VotedElsewhere(t.votes, b, y.voter)
    ensures After(t, [Add(b, x.voter, x.payload, x.weight), Add(b, y.voter, y.payload, y.weight)]) ==
            t.(votes := t.votes[b := [x, y]])
  {
    var ops := [Add(b, x.voter, x.payload, x.weight), Add(b, y.voter, y.payload, y.weight)];
    var half := t.(votes := t.votes[b := [x]]);
    assert ops[..1][..0] == [] && [] + [x] == [x] && [x] + [y] == [x, y];
    assert After(t, ops[..1]) == half;
    assert !VotedElsewhere(half.votes, b, y.voter) && !HasVoted([x], y.voter);
    assert half.votes[b := [x, y]] == t.votes[b := [x, y]];
  }

  lemma {:induction false} TwoLists<P(!new)>(a: seq<Ballot<P>>, b: seq<Ballot<P>>)
    ensures Participating(map[0 := a]) == ListWeight(a)
    ensures Participating(map[0 := a, 1 := b]) == ListWeight(a) + ListWeight(b)
  {
    TotalMore(BlockWeights(map[0 := a]), {}, 0);
    assert {} + {0} == map[0 := a].Keys;
    var w := BlockWeights(map[0 := a, 1 := b]);
    TotalMore(w, {}, 0);
    TotalMore(w, {0}, 1);
    assert {0} + {1} == map[0 := a, 1 := b].Keys;
  }

  /** The bound is tight: at participation `2 * w + 1` the second block is signalled. */
  lemma {:induction false} OvertakeTight<P(!new)>(p: P, w: nat, list: seq<Ballot<P>>, rival: seq<Ballot<P>>)
    requires w >= 2 && list == [Ballot(1, p, 1), Ballot(2, p, w - 1)] && rival == [Ballot(3, p, w), Ballot(4, p, 1)]
    ensures var t, ops := Tally(map[0 := list], {}), [Add(1, 3, p, w), Add(1, 4, p, 1)];
      && Check(t, 0).1 && ListWeight(t.votes[0]) == w && Growing(ops)
      && var t1 := After(Check(t, 0).0, ops); Check(t1, 1).1 && Participating(t1.votes) == 2 * w + 1
  {
    ListOfTwo(list[0], list[1]);
    ListOfTwo(rival[0], rival[1]);
    TightRun(list, rival);
    TightEnd(list, rival);
  }

  lemma {:induction false} TightEnd<P(!new)>(list: seq<Ballot<P>>, rival: seq<Ballot<P>>)
    requires |rival| == 2 && ListWeight(rival) == ListWeight(list) + 1
    ensures var t := Tally(map[0 := list, 1 := rival], {0});
      Check(t, 1).1 && Participating(t.votes) == 2 * ListWeight(list) + 1
  {
    TwoLists(list, rival);
  }

  lemma {:induction false} TightRun<P(!new)>(list: seq<Ballot<P>>, rival: seq<Ballot<P>>)
    requires |list| == 2 && |rival| == 2 && rival[0].voter != rival[1].voter && ListWeight(list) > 0
    requires !HasVoted(list, rival[0].voter) && !HasVoted(list, rival[1].voter)
    ensures Check(Tally(map[0 := list], {}), 0) == (Tally(map[0 := list], {0}), true)
    ensures After(Tally(map[0 := list], {0}),
        [Add(1, rival[0].voter, rival[0].payload, rival[0].weight),
          Add(1, rival[1].voter, rival[1].payload, rival[1].weight)]) ==
            Tally(map[0 := list, 1 := rival], {0})
  {
    TwoLists(list, rival);
    assert Majority(map[0 := list], 0) && {} + {0} == {0};
    var t0 := Tally(map[0 := list], {0});
    TwoVotes(t0, 1, rival[0], rival[1]);
    assert [rival[0], rival[1]] == rival;
    assert map[0 := list][1 := [rival[0], rival[1]]] == map[0 := list, 1 := rival];
  }

  lemma ListOfTwo<P(!new)>(x: Ballot<P>, y: Ballot<P>)
    ensures ListWeight([x, y]) == x.weight + y.weight
  {
    assert [x, y][..1] == [x] && [x][..0] == [];
    var none: seq<Ballot<P>> := [];
    assert ListWeight(none) == 0 && ListWeight([x]) == x.weight;
  }
}
