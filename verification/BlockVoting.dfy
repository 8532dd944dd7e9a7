/** Both voting phases of a node together with the voters it saves for block production. */
module BlockVoting {

  import opened Quorum
  import opened VoteAccumulator

  type Signature = string

  function Names<P>(list: seq<Ballot<P>>): seq<Voter> {
    seq(|list|, i requires 0 <= i < |list| => list[i].voter)
  }

  function Elems(s: seq<Voter>): set<Voter> {
    set v | v in s
  }

  /** Appends the voters that are not listed yet. */
  function Merge(a: seq<Voter>, b: seq<Voter>): seq<Voter> {
    if b == [] then a
    else
      var m := Merge(a, b[..|b| - 1]);
      if b[|b| - 1] in m then m else m + [b[|b| - 1]]
  }

  lemma {:induction false} MergeElems(a: seq<Voter>, b: seq<Voter>)
    ensures Elems(Merge(a, b)) == Elems(a) + Elems(b) && a <= Merge(a, b)
    decreases |b|
  {
    if b != [] {
      var k := |b| - 1;
      MergeElems(a, b[..k]);
      assert b == b[..k] + [b[k]];
      assert Elems(b) == Elems(b[..k]) + {b[k]};
      var m := Merge(a, b[..k]);
      if b[k] !in m { assert Elems(m + [b[k]]) == Elems(m) + {b[k]}; }
    }
  }

  ghost function SavedAt(saved: map<Hash, seq<Voter>>, h: Hash): set<Voter> {
    if h in saved then Elems(saved[h]) else {}
  }

  ghost function VotersAt<P(!new)>(votes: map<Hash, seq<Ballot<P>>>, h: Hash): set<Voter> {
    Elems(Names(ListOf(votes, h)))
  }

  /** What was saved for `h` is still there, in order, and exactly the voters of `more` came on top. */
  ghost predicate Gains(saved: map<Hash, seq<Voter>>, saved': map<Hash, seq<Voter>>, h: Hash, more: set<Voter>) {
    && SavedAt(saved', h) == SavedAt(saved, h) + more
    && (h in saved ==> h in saved' && saved[h] <= saved'[h])
  }

  lemma GainsTwice(a: map<Hash, seq<Voter>>, b: map<Hash, seq<Voter>>, c: map<Hash, seq<Voter>>, h: Hash,
      x: set<Voter>, y: set<Voter>)
    requires Gains(a, b, h, x) && Gains(b, c, h, y)
    ensures Gains(a, c, h, x + y)
  {
  }

  ghost function Added<P(!new)>(votes: map<Hash, seq<Ballot<P>>>, todo: set<Hash>, h: Hash): set<Voter> {
    if h in votes && h !in todo then VotersAt(votes, h) else {}
  }

  /** Every block has gained its voters, except those still to do. */
  ghost predicate AllGain<P(!new)>(saved: map<Hash, seq<Voter>>, saved': map<Hash, seq<Voter>>,
      votes: map<Hash, seq<Ballot<P>>>, todo: set<Hash>) {
    forall h :: Gains(saved, saved', h, Added(votes, todo, h))
  }

  ghost predicate OnlyAt(saved: map<Hash, seq<Voter>>, saved': map<Hash, seq<Voter>>, b: Hash) {
    forall x :: x != b ==> (x in saved' <==> x in saved) && (x in saved' ==> saved'[x] == saved[x])
  }

  lemma GainStep<P(!new)>(a: map<Hash, seq<Voter>>, before: map<Hash, seq<Voter>>, after: map<Hash, seq<Voter>>,
                          votes: map<Hash, seq<Ballot<P>>>, todo: set<Hash>, b: Hash)
    requires AllGain(a, before, votes, todo) && b in todo && b in votes
    requires Gains(before, after, b, Elems(Names(votes[b]))) && OnlyAt(before, after, b)
    ensures AllGain(a, after, votes, todo - {b})
  {
    forall h ensures Gains(a, after, h, Added(votes, todo - {b}, h)) {
      assert Gains(a, before, h, Added(votes, todo, h));
      if h == b {
        GainsTwice(a, before, after, b, {}, VotersAt(votes, b));
      }
    }
  }

  lemma GainEnd<P(!new)>(a: map<Hash, seq<Voter>>, b: map<Hash, seq<Voter>>, votes: map<Hash, seq<Ballot<P>>>)
    requires AllGain(a, b, votes, {})
    ensures forall h :: Gains(a, b, h, VotersAt(votes, h))
  {
    forall h ensures Gains(a, b, h, VotersAt(votes, h)) {
      assert Gains(a, b, h, Added(votes, {}, h));
      if h !in votes { assert Names(ListOf(votes, h)) == []; }
    }
  }

  class TimeLockVotes {
    var prepare: Tally<()>
    var precommit: Tally<Signature>
    var saved: map<Hash, seq<Voter>>
    var height: nat

    method MergeVoters(a: seq<Voter>, b: seq<Voter>) returns (m: seq<Voter>)
      ensures m == Merge(a, b)
    {
      m := a;
      for i := 0 to |b|
        invariant m == Merge(a, b[..i])
      {
        assert b[..i + 1][..i] == b[..i];
        if b[i] !in m { m := m + [b[i]]; }
      }
      assert b[..|b|] == b;
    }

    method SaveBlock<P(!new)>(h: Hash, list: seq<Ballot<P>>)
      modifies `saved
      ensures Gains(old(saved), saved, h, Elems(Names(list)))
      ensures OnlyAt(old(saved), saved, h)
    {
      if list != [] {
        var voters := Names(list);
        if h in saved {
          MergeElems(saved[h], voters);
          voters := MergeVoters(saved[h], voters);
        }
        saved := saved[h := voters];
      } else {
        assert Names(list) == [];
      }
    }

    /** Adds the voters of one phase, in whatever order the blocks come. */
    method SavePhase<P(!new)>(votes: map<Hash, seq<Ballot<P>>>)
      modifies `saved
      ensures forall h :: Gains(old(saved), saved, h, VotersAt(votes, h))
    {
      var todo := votes.Keys;
      while todo != {}
        invariant todo <= votes.Keys && AllGain(old(saved), saved, votes, todo)
        decreases |todo|
      {
        var b :| b in todo;
        ghost var before := saved;
        SaveBlock(b, votes[b]);
        GainStep(old(saved), before, saved, votes, todo, b);
        todo := todo - {b};
      }
      GainEnd(old(saved), saved, votes);
    }

    /** Advancing the height loses no voter: every block keeps the voters saved before and
        gains exactly those of the two accumulators, which are empty afterwards. Going back
        or standing still changes only the stored height. */
    method AdvanceVoteHeight(newHeight: nat)
      modifies this
      ensures height == newHeight
      ensures newHeight > old(height) ==>
        && prepare == Tally(map[], {}) && precommit == Tally(map[], {})
        && forall h :: Gains(old(saved), saved, h, VotersAt(old(precommit).votes, h) + VotersAt(old(prepare).votes, h))
      ensures newHeight <= old(height) ==> saved == old(saved) && prepare == old(prepare) && precommit == old(precommit)
    {
      var prev := height;
      height := newHeight;
      if newHeight > prev {
        SavePhase(precommit.votes);
        ghost var middle := saved;
        SavePhase(prepare.votes);
        forall h
          ensures Gains(old(saved), saved, h, VotersAt(old(precommit).votes, h) + VotersAt(old(prepare).votes, h))
        {
          GainsTwice(old(saved), middle, saved, h, VotersAt(old(precommit).votes, h), VotersAt(old(prepare).votes, h));
        }
        prepare, precommit := Tally(map[], {}), Tally(map[], {});
      }
    }

    /** Finalizing a block saves the union of both phases for it, in place of what was saved
        before, and touches no other block. */
    method CleanupBlockVotes(b: Hash)
      modifies this
      ensures prepare == Clear(old(prepare), b) && precommit == Clear(old(precommit), b) && height == old(height)
      ensures var now := VotersAt(old(precommit).votes, b) + VotersAt(old(prepare).votes, b);
        SavedAt(saved, b) == if now == {} then SavedAt(old(saved), b) else now
      ensures forall h :: h != b ==> SavedAt(saved, h) == SavedAt(old(saved), h)
    {
      var first, second := Names(ListOf(precommit.votes, b)), Names(ListOf(prepare.votes, b));
      var voters := MergeVoters(first, second);
      MergeElems(first, second);
      if voters != [] {
        assert voters[0] in Elems(voters);
        saved := saved[b := voters];
      } else {
        assert Elems(voters) == {};
      }
      prepare, precommit := Clear(prepare, b), Clear(precommit, b);
    }
  }
}
