/** Accumulated TimeVotes, the TimeProofs assembled from them and their verification. */
module TimeVotes {

  import opened Basics
  import opened Sums
  import opened Quorum
  import opened Wrappers
  import opened Transactions

  datatype TimeVote = TimeVote(chainId: nat, txid: TxId, commitment: nat, slot: nat, accept: bool, voter: Voter,
      weight: nat)

  /** Stored votes, accumulated Accept weights and the times of recorded finalizations. */
  datatype Store = Store(votes: map<TxId, seq<TimeVote>>, weights: map<TxId, nat>, finalized: map<TxId, int>)

  datatype TimeProof = TimeProof(txid: TxId, slot: nat, votes: seq<TimeVote>)

  // ----- Operations on values

  predicate HasVoted(list: seq<TimeVote>, v: Voter) {
    exists i :: 0 <= i < |list| && list[i].voter == v
  }

  function VotesFor(s: Store, t: TxId): seq<TimeVote> {
    if t in s.votes then s.votes[t] else []
  }

  function WeightFor(s: Store, t: TxId): nat {
    if t in s.weights then s.weights[t] else 0
  }

  /** `verified`: the voter is an active validator and the signature is theirs. */
  function Accumulate(s: Store, vote: TimeVote, verified: bool): (Store, Result<nat>) {
    var t := vote.txid;
    if !verified || HasVoted(VotesFor(s, t), vote.voter) then (s, Err)
    else
      var s1 := s.(votes := s.votes[t := VotesFor(s, t) + [vote]]);
      var w := WeightFor(s, t);
      if !vote.accept then (s1, Ok(w))
      else if w + vote.weight > U64_MAX then (s1.(weights := s.weights[t := w]), Err)
      else (s1.(weights := s.weights[t := w + vote.weight]), Ok(w + vote.weight))
  }

  function ClearVotes(s: Store, t: TxId): Store {
    s.(votes := s.votes - {t}, weights := s.weights - {t})
  }

  function Expired(finalized: map<TxId, int>, cutoff: int): set<TxId> {
    set t | t in finalized && finalized[t] < cutoff
  }

  function Forget(s: Store, gone: set<TxId>): Store {
    Store(s.votes - gone, s.weights - gone, s.finalized - gone)
  }

  function Cleanup(s: Store, cutoff: int): Store {
    Forget(s, Expired(s.finalized, cutoff))
  }

  /** The Accept votes of a list, in order. */
  function Accepts(list: seq<TimeVote>): seq<TimeVote> {
    if list == [] then []
    else
      var rest := Accepts(list[..|list| - 1]);
      if list[|list| - 1].accept then rest + [list[|list| - 1]] else rest
  }

  function SumWeights(list: seq<TimeVote>): nat {
    if list == [] then 0 else SumWeights(list[..|list| - 1]) + list[|list| - 1].weight
  }

  predicate Agree(list: seq<TimeVote>, t: TxId) {
    forall i :: 0 <= i < |list| ==>
        list[i].slot == list[0].slot && list[i].txid == t && list[i].commitment == list[0].commitment
  }

  function Assemble(s: Store, t: TxId): Result<TimeProof> {
    var accepts := Accepts(VotesFor(s, t));
    if accepts == [] || !Agree(accepts, t) then Err
    else Ok(TimeProof(t, accepts[0].slot, accepts))
  }

  // ----- The invariant of the store

  ghost predicate Once(list: seq<TimeVote>) {
    forall i, j :: 0 <= i < j < |list| ==> list[i].voter != list[j].voter
  }

  /** The list holds votes for `t` from distinct voters and `w` is the weight of its Accepts. */
  ghost predicate Counted(list: seq<TimeVote>, w: nat, t: TxId) {
    && Once(list) && (forall i :: 0 <= i < |list| ==> list[i].txid == t)
    && w == SumWeights(Accepts(list)) <= U64_MAX
  }

  /** The accumulated weight of every transaction is the weight of its stored Accept votes,
      no voter appears twice, and every vote is filed under its own transaction. */
  ghost predicate Sound(s: Store) {
    forall t :: Counted(VotesFor(s, t), WeightFor(s, t), t)
  }

  ghost predicate Overflows(s: Store, vote: TimeVote, verified: bool) {
    && verified && !HasVoted(VotesFor(s, vote.txid), vote.voter) && vote.accept
    && WeightFor(s, vote.txid) + vote.weight > U64_MAX
  }

  lemma AcceptsMore(list: seq<TimeVote>, vote: TimeVote)
    ensures SumWeights(Accepts(list + [vote])) == SumWeights(Accepts(list)) + if vote.accept then vote.weight else 0
  {
    assert (list + [vote])[..|list|] == list;
    assert (Accepts(list) + [vote])[..|Accepts(list)|] == Accepts(list);
  }

  lemma CountedMore(list: seq<TimeVote>, w: nat, vote: TimeVote)
    requires Counted(list, w, vote.txid) && !HasVoted(list, vote.voter) && (vote.accept ==> w + vote.weight <= U64_MAX)
    ensures Counted(list + [vote], w + (if vote.accept then vote.weight else 0), vote.txid)
  {
    AcceptsMore(list, vote);
  }

  lemma CountedVoteSound(s: Store, vote: TimeVote)
    requires Sound(s) && !HasVoted(VotesFor(s, vote.txid), vote.voter) && !Overflows(s, vote, true)
    ensures Sound(Accumulate(s, vote, true).0)
  {
    var s', t := Accumulate(s, vote, true).0, vote.txid;
    forall u ensures Counted(VotesFor(s', u), WeightFor(s', u), u) {
      assert Counted(VotesFor(s, u), WeightFor(s, u), u);
      AccumulateAt(s, vote, u);
      if u == t { CountedMore(VotesFor(s, t), WeightFor(s, t), vote); }
    }
  }

  /** Votes and weight of one transaction after a vote that is counted. */
  lemma AccumulateAt(s: Store, vote: TimeVote, u: TxId)
    requires !HasVoted(VotesFor(s, vote.txid), vote.voter) && !Overflows(s, vote, true)
    ensures var s' := Accumulate(s, vote, true).0;
      && VotesFor(s', u) == (if u == vote.txid then VotesFor(s, u) + [vote] else VotesFor(s, u))
      && WeightFor(s', u) == WeightFor(s, u) + (if u == vote.txid && vote.accept then vote.weight else 0)
  {
  }

  lemma OverflowUnsound(s: Store, vote: TimeVote)
    requires Sound(s) && Overflows(s, vote, true)
    ensures !Sound(Accumulate(s, vote, true).0)
  {
    var s', t := Accumulate(s, vote, true).0, vote.txid;
    AcceptsMore(VotesFor(s, t), vote);
    assert Counted(VotesFor(s, t), WeightFor(s, t), t) && !Counted(VotesFor(s', t), WeightFor(s', t), t);
  }

  /** A vote keeps the store sound exactly when its weight does not overflow the sum: on
      overflow the vote stays stored but is not counted. */
  lemma AccumulateSoundIff(s: Store, vote: TimeVote, verified: bool)
    requires Sound(s)
    ensures Sound(Accumulate(s, vote, verified).0) <==> !Overflows(s, vote, verified)
  {
    if verified && !HasVoted(VotesFor(s, vote.txid), vote.voter) {
      if Overflows(s, vote, true) {
        OverflowUnsound(s, vote);
      } else {
        CountedVoteSound(s, vote);
      }
    }
  }

  /** What the answer to a vote means: a weight is that of the Accept votes then stored for the
      transaction, which a vote against leaves as it was; an error comes exactly of an
      unverified, repeated or overflowing vote. */
  lemma AnswerIsStoredWeight(s: Store, vote: TimeVote, verified: bool)
    requires Sound(s)
    ensures var (s', r) := Accumulate(s, vote, verified);
      && (r.Err? <==> !verified || HasVoted(VotesFor(s, vote.txid), vote.voter) || Overflows(s, vote, verified))
      && (r.Ok? ==>
            && VotesFor(s', vote.txid) == VotesFor(s, vote.txid) + [vote]
            && r.value == SumWeights(Accepts(VotesFor(s', vote.txid))) == WeightFor(s', vote.txid)
            && r.value == SumWeights(Accepts(VotesFor(s, vote.txid))) + if vote.accept then vote.weight else 0)
  {
    var t := vote.txid;
    assert Counted(VotesFor(s, t), WeightFor(s, t), t);
    AcceptsMore(VotesFor(s, t), vote);
  }

  /** Clearing forgets the votes and the weight of one transaction, and of no other. */
  lemma ClearForgetsOne(s: Store, t: TxId, u: TxId)
    ensures var s' := ClearVotes(s, t);
      && VotesFor(s', u) == (if u == t then [] else VotesFor(s, u))
      && WeightFor(s', u) == (if u == t then 0 else WeightFor(s, u))
      && s'.finalized == s.finalized
  {
  }

  /** Cleaning up forgets a transaction exactly when it was finalized before the cutoff. */
  lemma CleanupForgetsIff(s: Store, cutoff: int, t: TxId)
    ensures var s' := Cleanup(s, cutoff);
      if t in s.finalized && s.finalized[t] < cutoff
      then t !in s'.finalized && t !in s'.votes && t !in s'.weights
      else
        && VotesFor(s', t) == VotesFor(s, t) && WeightFor(s', t) == WeightFor(s, t)
        && (t in s.finalized ==> t in s'.finalized && s'.finalized[t] == s.finalized[t])
  {
  }

  const EMPTY: Store := Store(map[], map[], map[])

  function VoteOf(voter: Voter, chainId: nat, weight: nat): TimeVote {
    TimeVote(chainId, 0, 0, 0, true, voter, weight)
  }

  lemma FirstVote(v: TimeVote)
    requires v.accept && v.weight <= U64_MAX
    ensures Accumulate(EMPTY, v, true) == (Store(map[v.txid := [v]], map[v.txid := v.weight], map[]), Ok(v.weight))
  {
    assert [] + [v] == [v] && EMPTY.votes[v.txid := [v]] == map[v.txid := [v]];
    assert EMPTY.weights[v.txid := v.weight] == map[v.txid := v.weight];
  }

  lemma SecondVote(u: TimeVote, v: TimeVote, s: Store)
    requires u.voter != v.voter && u.txid == v.txid && u.accept && v.accept && u.weight <= U64_MAX
    requires s == Store(map[u.txid := [u]], map[u.txid := u.weight], map[])
    ensures Accumulate(s, v, true) ==
            if u.weight + v.weight > U64_MAX then (s.(votes := map[u.txid := [u, v]]), Err)
            else (Store(map[u.txid := [u, v]], map[u.txid := u.weight + v.weight], map[]), Ok(u.weight + v.weight))
  {
    assert [u] + [v] == [u, v];
    assert !HasVoted([u], v.voter);
    assert s.votes[u.txid := [u, v]] == map[u.txid := [u, v]];
    assert VotesFor(s, v.txid) == [u] && WeightFor(s, v.txid) == u.weight;
    assert s.weights[u.txid := u.weight] == s.weights;
    assert s.weights[u.txid := u.weight + v.weight] == map[u.txid := u.weight + v.weight];
  }

  lemma SumTwo(u: TimeVote, v: TimeVote)
    requires u.accept && v.accept
    ensures Accepts([u, v]) == [u, v] && SumWeights([u, v]) == u.weight + v.weight
  {
    assert [u, v][..1] == [u] && [u][..0] == [];
    assert Accepts([u]) == [u] && SumWeights([u]) == u.weight;
  }

  /** Two votes whose weights overflow: the second is refused but stays stored, so the weight
      is no longer that of the stored votes. */
  lemma OverflowLosesVote(u: TimeVote, v: TimeVote)
    requires u == VoteOf(1, 0, U64_MAX) && v == VoteOf(2, 0, 1)
    ensures var (s1, r1) := Accumulate(EMPTY, u, true); var (s2, r2) := Accumulate(s1, v, true);
      Sound(s1) && r2 == Err && v in VotesFor(s2, 0) && WeightFor(s2, 0) == U64_MAX && !Sound(s2)
  {
    FirstVote(u);
    var s1 := Accumulate(EMPTY, u, true).0;
    assert Sound(EMPTY);
    AccumulateSoundIff(EMPTY, u, true);
    SecondVote(u, v, s1);
    AccumulateSoundIff(s1, v, true);
    assert v in [u, v];
  }

  lemma ForgetSound(s: Store, gone: set<TxId>, finalized: map<TxId, int>)
    requires Sound(s)
    ensures Sound(Store(s.votes - gone, s.weights - gone, finalized))
  {
    var s' := Store(s.votes - gone, s.weights - gone, finalized);
    forall t ensures Counted(VotesFor(s', t), WeightFor(s', t), t) {
      assert Counted(VotesFor(s, t), WeightFor(s, t), t);
    }
  }

  // ----- Runs

  datatype Op =
    | Vote(vote: TimeVote, verified: bool)
    | Clear(t: TxId)
    | CleanupOld(cutoff: int)
    | Record(t: TxId, at: int)

  function Apply(s: Store, op: Op): Store {
    match op
    case Vote(v, ok) => Accumulate(s, v, ok).0
    case Clear(t) => ClearVotes(s, t)
    case CleanupOld(cutoff) => Cleanup(s, cutoff)
    case Record(t, at) => s.(finalized := s.finalized[t := at])
  }

  function After(s: Store, ops: seq<Op>): Store {
    if ops == [] then s else Apply(After(s, ops[..|ops| - 1]), ops[|ops| - 1])
  }

  ghost predicate NoOverflow(s: Store, ops: seq<Op>) {
    forall k :: 0 <= k < |ops| ==> ops[k].Vote? ==> !Overflows(After(s, ops[..k]), ops[k].vote, ops[k].verified)
  }

  lemma {:induction false} RunSound(s: Store, ops: seq<Op>)
    requires Sound(s) && NoOverflow(s, ops)
    ensures Sound(After(s, ops))
    decreases |ops|
  {
    if ops != [] {
      var k := |ops| - 1;
      forall i | 0 <= i < k && ops[i].Vote?
        ensures !Overflows(After(s, ops[..k][..i]), ops[..k][i].vote, ops[..k][i].verified)
      {
        assert ops[..k][..i] == ops[..i];
      }
      RunSound(s, ops[..k]);
      StepSound(After(s, ops[..k]), ops[k]);
    }
  }

  lemma StepSound(s: Store, op: Op)
    requires Sound(s) && (op.Vote? ==> !Overflows(s, op.vote, op.verified))
    ensures Sound(Apply(s, op))
  {
    match op
    case Vote(v, ok) => AccumulateSoundIff(s, v, ok);
    case Clear(t) => ForgetSound(s, {t}, s.finalized);
    case CleanupOld(cutoff) => ForgetSound(s, Expired(s.finalized, cutoff), Cleanup(s, cutoff).finalized);
    case Record(t, at) =>
      forall u ensures Counted(VotesFor(Apply(s, op), u), WeightFor(Apply(s, op), u), u) {
        assert Counted(VotesFor(s, u), WeightFor(s, u), u);
      }
  }

  // ----- TimeProofs

  lemma {:induction false} AcceptsOf(list: seq<TimeVote>)
    ensures forall v :: v in Accepts(list) <==> v in list && v.accept
    decreases |list|
  {
    if list != [] {
      var k := |list| - 1;
      AcceptsOf(list[..k]);
      assert list == list[..k] + [list[k]];
    }
  }

  lemma {:induction false} AcceptsOnce(list: seq<TimeVote>)
    requires Once(list)
    ensures Once(Accepts(list))
    decreases |list|
  {
    if list != [] {
      var k := |list| - 1;
      AcceptsOnce(list[..k]);
      AcceptsOf(list[..k]);
      assert forall i :: 0 <= i < k ==> list[..k][i] == list[i];
    }
  }

  /** A proof assembled from a sound store carries exactly the accumulated weight, all the
      Accept votes of distinct voters for its transaction, one slot and one commitment. */
  lemma AssembledProof(s: Store, t: TxId)
    requires Sound(s) && Assemble(s, t).Ok?
    ensures var p := Assemble(s, t).value;
      && p.txid == t && p.votes != [] && SumWeights(p.votes) == WeightFor(s, t) && Once(p.votes)
      && (forall v :: v in p.votes <==> v in VotesFor(s, t) && v.accept)
      && (forall v :: v in p.votes ==> v.txid == t && v.slot == p.slot && v.commitment == p.votes[0].commitment)
  {
    assert Counted(VotesFor(s, t), WeightFor(s, t), t);
    AcceptsOf(VotesFor(s, t));
    AcceptsOnce(VotesFor(s, t));
  }

  /** Assembly fails exactly without an Accept vote, or when two of them disagree. */
  lemma AssembleFailsIff(s: Store, t: TxId)
    requires Sound(s)
    ensures Assemble(s, t).Err? <==>
            || (forall v :: v in VotesFor(s, t) ==> !v.accept)
            || (exists u, v :: u in VotesFor(s, t) && v in VotesFor(s, t) && u.accept && v.accept &&
                 (u.slot != v.slot || u.commitment != v.commitment))
  {
    var list, accepts := VotesFor(s, t), Accepts(VotesFor(s, t));
    assert Counted(list, WeightFor(s, t), t);
    AcceptsOf(list);
    if accepts == [] {
      forall v | v in list ensures !v.accept { assert v !in accepts; }
    } else {
      assert accepts[0] in accepts;
      if !Agree(accepts, t) {
        var i :| 0 <= i < |accepts| &&
            !(accepts[i].slot == accepts[0].slot && accepts[i].txid == t &&
              accepts[i].commitment == accepts[0].commitment);
        assert accepts[i] in accepts && accepts[i].txid == t;
      } else {
        forall u, v | u in list && v in list && u.accept && v.accept
          ensures u.slot == v.slot && u.commitment == v.commitment
        {
          assert u in accepts && v in accepts;
        }
      }
    }
  }

  /** What a verifier asks of a proof: agreement, Accepts only, distinct known voters with
      good signatures, and 67% of the total weight. */
  ghost predicate Acceptable(p: TimeProof, total: nat, known: Voter -> bool, signed: TimeVote -> bool) {
    && p.votes != [] && Once(p.votes)
    && (forall i :: 0 <= i < |p.votes| ==> Fits(p.votes[i], p.votes[0], known, signed))
    && SumWeights(p.votes) >= CeilDiv(total * BFT_PERCENT, 100)
  }

  predicate Fits(v: TimeVote, first: TimeVote, known: Voter -> bool, signed: TimeVote -> bool) {
    && v.chainId == first.chainId && v.txid == first.txid && v.commitment == first.commitment && v.slot == first.slot
    && v.accept && known(v.voter) && signed(v)
  }

  method VerifyProof(p: TimeProof, total: nat, known: Voter -> bool, signed: TimeVote -> bool) returns (r: Result<nat>)
    ensures r == if Acceptable(p, total, known, signed) then Ok(SumWeights(p.votes)) else Err
  {
    if p.votes == [] { return Err; }
    var sum, seen: set<Voter> := 0, {};
    for i := 0 to |p.votes|
      invariant sum == SumWeights(p.votes[..i])
      invariant forall v :: v in seen <==> exists j :: 0 <= j < i && p.votes[j].voter == v
      invariant forall j :: 0 <= j < i ==> Fits(p.votes[j], p.votes[0], known, signed)
      invariant Once(p.votes[..i])
    {
      var v := p.votes[i];
      if !Fits(v, p.votes[0], known, signed) { return Err; }
      if v.voter in seen {
        var j :| 0 <= j < i && p.votes[j].voter == v.voter;
        assert !Once(p.votes);
        return Err;
      }
      assert p.votes[..i + 1][..i] == p.votes[..i];
      seen := seen + {v.voter};
      sum := sum + v.weight;
    }
    assert p.votes[..|p.votes|] == p.votes;
    if sum < CeilDiv(total * BFT_PERCENT, 100) { return Err; }
    return Ok(sum);
  }

  /** An assembled proof is acceptable exactly when the accumulated weight reaches 67%, every
      Accept vote is of a known, signing voter, and they name one chain, which assembly does
      not check. */
  lemma AssembledAcceptableIff(s: Store, t: TxId, total: nat, known: Voter -> bool, signed: TimeVote -> bool)
    requires Sound(s) && Assemble(s, t).Ok?
    ensures Acceptable(Assemble(s, t).value, total, known, signed) <==>
            && WeightFor(s, t) >= CeilDiv(total * BFT_PERCENT, 100)
            && (forall v :: v in VotesFor(s, t) && v.accept ==> known(v.voter) && signed(v))
            && (forall u, v :: u in VotesFor(s, t) && v in VotesFor(s, t) && u.accept && v.accept ==>
                 u.chainId == v.chainId)
  {
    AssembledProof(s, t);
    var p := Assemble(s, t).value;
    assert p.votes[0] in p.votes;
    if Acceptable(p, total, known, signed) {
      forall v | v in VotesFor(s, t) && v.accept
        ensures Fits(v, p.votes[0], known, signed)
      {
        assert v in p.votes;
      }
    } else if WeightFor(s, t) >= CeilDiv(total * BFT_PERCENT, 100) {
      var i :| 0 <= i < |p.votes| && !Fits(p.votes[i], p.votes[0], known, signed);
      assert p.votes[i] in p.votes;
    }
  }

  /** Two votes that name different chains: assembled with enough weight, and refused by
      every verifier. */
  lemma TwoChainsAssembled(u: TimeVote, v: TimeVote, known: Voter -> bool, signed: TimeVote -> bool)
    requires u == VoteOf(1, 1, 50) && v == VoteOf(2, 2, 50)
    ensures var s := Accumulate(Accumulate(EMPTY, u, true).0, v, true).0;
      && Sound(s) && WeightFor(s, 0) == 100 && Assemble(s, 0) == Ok(TimeProof(0, 0, [u, v]))
      && !Acceptable(TimeProof(0, 0, [u, v]), 100, known, signed)
  {
    FirstVote(u);
    var s1 := Accumulate(EMPTY, u, true).0;
    SecondVote(u, v, s1);
    assert Sound(EMPTY);
    AccumulateSoundIff(EMPTY, u, true);
    AccumulateSoundIff(s1, v, true);
    SumTwo(u, v);
    assert !Fits([u, v][1], [u, v][0], known, signed);
  }

  // ----- Votes that carry the weights of their validators

  ghost function VotersOf(list: seq<TimeVote>): set<Voter> {
    set i | 0 <= i < |list| :: list[i].voter
  }

  ghost predicate Registered(list: seq<TimeVote>, w: map<Voter, nat>) {
    forall i :: 0 <= i < |list| ==> list[i].voter in w && list[i].weight == w[list[i].voter]
  }

  lemma {:induction false} SumIsWeight(list: seq<TimeVote>, w: map<Voter, nat>)
    requires Once(list) && Registered(list, w)
    ensures VotersOf(list) <= w.Keys && SumWeights(list) == Weight(w, VotersOf(list))
    decreases |list|
  {
    if list != [] {
      var k := |list| - 1;
      SumIsWeight(list[..k], w);
      var last := list[k].voter;
      assert VotersOf(list) == VotersOf(list[..k]) + {last} by {
        forall v | v in VotersOf(list) ensures v in VotersOf(list[..k]) + {last} {
          var i :| 0 <= i < |list| && list[i].voter == v;
          if i < k { assert list[..k][i].voter == v; }
        }
        forall v | v in VotersOf(list[..k]) ensures v in VotersOf(list) {
          var i :| 0 <= i < k && list[..k][i].voter == v;
          assert list[i].voter == v;
        }
      }
      assert last !in VotersOf(list[..k]);
      TotalTake(w, VotersOf(list), last);
      assert VotersOf(list) - {last} == VotersOf(list[..k]);
    }
  }

  /** Two acceptable proofs share voters with more than a third of the stake, whatever
      transactions they are for. */
  lemma ProofsShareStake(p: TimeProof, q: TimeProof, w: map<Voter, nat>, known: Voter -> bool, signed: TimeVote -> bool)
    requires Weight(w, w.Keys) > 0 && Registered(p.votes, w) && Registered(q.votes, w)
    requires Acceptable(p, Weight(w, w.Keys), known, signed) && Acceptable(q, Weight(w, w.Keys), known, signed)
    ensures VotersOf(p.votes) <= w.Keys && VotersOf(q.votes) <= w.Keys
    ensures 3 * Weight(w, VotersOf(p.votes) * VotersOf(q.votes)) > Weight(w, w.Keys)
  {
    ThresholdsShareStake(p.votes, q.votes, w);
  }

  lemma ForgetNothing(s: Store)
    ensures Forget(s, {}) == s
  {
  }

  lemma MinusMore<V>(m: map<TxId, V>, s: set<TxId>, t: TxId)
    ensures m - s - {t} == m - (s + {t})
  {
  }

  // ----- As objects

  class TimeVoteConsensus {
    var votes: map<TxId, seq<TimeVote>>
    var weights: map<TxId, nat>
    var finalized: map<TxId, int>

    ghost function View(): Store
      reads this
    {
      Store(votes, weights, finalized)
    }

    method AccumulateTimevote(vote: TimeVote, verified: bool) returns (r: Result<nat>)
      modifies `votes, `weights
      ensures (View(), r) == Accumulate(old(View()), vote, verified)
      ensures Sound(old(View())) ==>
          && (r.Ok? ==> r.value == SumWeights(Accepts(VotesFor(View(), vote.txid))))
          && (r.Err? <==>
                || !verified || HasVoted(VotesFor(old(View()), vote.txid), vote.voter)
                || Overflows(old(View()), vote, verified))
    {
      if Sound(View()) { AnswerIsStoredWeight(View(), vote, verified); }
      if !verified { return Err; }
      var t := vote.txid;
      var list := if t in votes then votes[t] else [];
      for i := 0 to |list|
        invariant forall j :: 0 <= j < i ==> list[j].voter != vote.voter
      {
        if list[i].voter == vote.voter { return Err; }
      }
      votes := votes[t := list + [vote]];
      var w := if t in weights then weights[t] else 0;
      if !vote.accept { return Ok(w); }
      weights := weights[t := w];
      if w + vote.weight > U64_MAX { return Err; }
      weights := weights[t := w + vote.weight];
      assert weights == old(weights)[t := w + vote.weight];
      return Ok(w + vote.weight);
    }

    method ClearTimeproofVotes(t: TxId)
      modifies `votes, `weights
      ensures View() == ClearVotes(old(View()), t)
    {
      votes := votes - {t};
      weights := weights - {t};
    }

    method ForgetOne(ghost s: Store, ghost gone: set<TxId>, t: TxId)
      requires View() == Forget(s, gone)
      modifies this
      ensures View() == Forget(s, gone + {t})
    {
      MinusMore(s.votes, gone, t);
      MinusMore(s.weights, gone, t);
      MinusMore(s.finalized, gone, t);
      finalized, votes, weights := finalized - {t}, votes - {t}, weights - {t};
    }

    method CleanupOldFinalized(cutoff: int) returns (removed: nat)
      modifies this
      ensures View() == Cleanup(old(View()), cutoff)
      ensures removed == |Expired(old(finalized), cutoff)|
    {
      var todo := Expired(finalized, cutoff);
      ghost var s, all := View(), todo;
      ForgetNothing(s);
      assert all - todo == {};
      removed := 0;
      while todo != {}
        invariant todo <= all && removed == |all - todo|
        invariant View() == Forget(s, all - todo)
        decreases |todo|
      {
        var t :| t in todo;
        ForgetOne(s, all - todo, t);
        assert all - (todo - {t}) == (all - todo) + {t};
        todo, removed := todo - {t}, removed + 1;
      }
      assert all - todo == all;
    }

    method AssembleTimeproof(t: TxId) returns (r: Result<TimeProof>)
      ensures r == Assemble(View(), t)
    {
      var list := if t in votes then votes[t] else [];
      var accepts: seq<TimeVote> := [];
      for i := 0 to |list|
        invariant accepts == Accepts(list[..i])
      {
        assert list[..i + 1][..i] == list[..i];
        if list[i].accept { accepts := accepts + [list[i]]; }
      }
      assert list[..|list|] == list;
      if accepts == [] { return Err; }
      for i := 0 to |accepts|
        invariant forall j :: 0 <= j < i ==>
            accepts[j].slot == accepts[0].slot && accepts[j].txid == t && accepts[j].commitment == accepts[0].commitment
      {
        if accepts[i].slot != accepts[0].slot || accepts[i].txid != t ||
            accepts[i].commitment != accepts[0].commitment { return Err; }
      }
      return Ok(TimeProof(t, accepts[0].slot, accepts));
    }
  }

  /** The finality proof manager keeps every vote it is given. */
  class FinalityProofManager {
    const chainId: nat
    var votes: map<TxId, seq<TimeVote>>

    method AddVote(t: TxId, vote: TimeVote) returns (reached: bool)
      modifies `votes
      ensures !reached
      ensures votes == if vote.chainId == chainId && vote.txid == t
                       then old(votes)[t := (if t in old(votes) then old(votes)[t] else []) + [vote]] else old(votes)
    {
      if vote.chainId != chainId || vote.txid != t { return false; }
      votes := votes[t := (if t in votes then votes[t] else []) + [vote]];
      return false;
    }

    method CheckFinalityThreshold(t: TxId, total: nat) returns (r: Option<nat>)
      ensures r.Some? <==> t in votes && SumWeights(votes[t]) >= CeilDiv(total * BFT_PERCENT, 100)
      ensures r.Some? ==> r.value == SumWeights(votes[t])
    {
      if t !in votes { return None; }
      var list, sum := votes[t], 0;
      for i := 0 to |list|
        invariant sum == SumWeights(list[..i])
      {
        assert list[..i + 1][..i] == list[..i];
        sum := sum + list[i].weight;
      }
      assert list[..|list|] == list;
      if sum >= CeilDiv(total * BFT_PERCENT, 100) { return Some(sum); }
      return None;
    }
  }

  /** For distinct voters with their own weights, reaching the manager's threshold is
      reaching 67% of the stake, so two such lists share more than a third of it. */
  lemma ThresholdsShareStake(a: seq<TimeVote>, b: seq<TimeVote>, w: map<Voter, nat>)
    requires Once(a) && Once(b) && Registered(a, w) && Registered(b, w) && Weight(w, w.Keys) > 0
    requires SumWeights(a) >= CeilDiv(Weight(w, w.Keys) * BFT_PERCENT, 100)
    requires SumWeights(b) >= CeilDiv(Weight(w, w.Keys) * BFT_PERCENT, 100)
    ensures VotersOf(a) <= w.Keys && VotersOf(b) <= w.Keys
    ensures 3 * Weight(w, VotersOf(a) * VotersOf(b)) > Weight(w, w.Keys)
  {
    SumIsWeight(a, w);
    SumIsWeight(b, w);
    BftQuorumsOverlap(w, VotersOf(a), VotersOf(b));
  }
}
