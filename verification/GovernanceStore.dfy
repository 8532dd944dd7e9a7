/** The governance state as an object over its database, and the reload at startup. */
module GovernanceStore {

  import opened Basics
  import opened Sums
  import opened Wrappers
  import opened Governance

  datatype Value = StoredProposal(proposal: Proposal) | StoredVote(vote: Vote)

  /** The database, by the text of its keys. */
  type Db = map<string, Value>

  /** A database key by its meaning; `Text` is how it is written. */
  datatype Key = ProposalKey(id: Id) | VoteKey(id: Id, voter: Address)

  /** What the database holds, by the meaning of its keys. */
  type Records = map<Key, Value>

  const PROPOSAL_PREFIX: string := "gov_proposal_"
  const VOTE_PREFIX: string := "gov_vote_"

  // ----- Keys

  function Text(k: Key): string {
    match k
    case ProposalKey(id) => PROPOSAL_PREFIX + id
    case VoteKey(id, a) => VOTE_PREFIX + id + "_" + a
  }

  /** A prefix scan finds the keys of one kind. */
  lemma PrefixTellsKind(k: Key)
    ensures PROPOSAL_PREFIX <= Text(k) <==> k.ProposalKey?
    ensures VOTE_PREFIX <= Text(k) <==> k.VoteKey?
  {
    assert VOTE_PREFIX[4] == 'v' && PROPOSAL_PREFIX[4] == 'p';
    assert k.VoteKey? ==> Text(k)[4] == 'v';
    assert k.ProposalKey? ==> Text(k)[4] == 'p';
  }

  /** Ids have a fixed length, so different keys are written differently even though an
      address may contain anything. */
  lemma TextInjective(a: Key, b: Key)
    requires |a.id| == ID_LENGTH && |b.id| == ID_LENGTH && Text(a) == Text(b)
    ensures a == b
  {
    PrefixTellsKind(a);
    PrefixTellsKind(b);
    if a.ProposalKey? {
      var n := |PROPOSAL_PREFIX|;
      assert Text(a)[n..] == a.id && Text(b)[n..] == b.id;
    } else {
      var n := |VOTE_PREFIX|;
      assert Text(a)[n..n + ID_LENGTH] == a.id && Text(b)[n..n + ID_LENGTH] == b.id;
      assert Text(a)[n + ID_LENGTH + 1..] == a.voter && Text(b)[n + ID_LENGTH + 1..] == b.voter;
    }
  }

  /** The record is in the database under the text of its key. */
  ghost predicate Written(db: Db, k: Key, v: Value) {
    |k.id| == ID_LENGTH && Text(k) in db && db[Text(k)] == v
  }

  /** Some record has this text. */
  ghost predicate Meant(records: Records, s: string) {
    exists k :: k in records && Text(k) == s
  }

  /** Every record is in the database under the text of its key, and nothing else is. */
  ghost predicate Encodes(db: Db, records: Records) {
    && (forall k {:trigger Written(db, k, records[k])} :: k in records ==> Written(db, k, records[k]))
    && (forall s {:trigger Meant(records, s)} :: s in db ==> Meant(records, s))
  }

  /** Writing one record writes no other: no two keys have one text. */
  lemma WriteEncodes(db: Db, records: Records, k: Key, v: Value)
    requires Encodes(db, records) && |k.id| == ID_LENGTH
    ensures Encodes(db[Text(k) := v], records[k := v])
  {
    var db', records' := db[Text(k) := v], records[k := v];
    forall x | x in records'
      ensures Written(db', x, records'[x])
    {
      assert x in records ==> Written(db, x, records[x]);
      if x != k && Text(x) == Text(k) { TextInjective(x, k); }
    }
    forall s | s in db'
      ensures Meant(records', s)
    {
      if s == Text(k) {
        assert k in records';
      } else {
        assert Meant(records, s);
        var x :| x in records && Text(x) == s;
        assert x in records';
      }
    }
  }

  /** The record a text stands for. */
  lemma Meaning(db: Db, records: Records, s: string) returns (k: Key)
    requires Encodes(db, records) && s in db
    ensures k in records && Text(k) == s && db[s] == records[k] && |k.id| == ID_LENGTH
    ensures PROPOSAL_PREFIX <= s <==> k.ProposalKey?
    ensures VOTE_PREFIX <= s <==> k.VoteKey?
  {
    assert Meant(records, s);
    k :| k in records && Text(k) == s;
    assert Written(db, k, records[k]);
    PrefixTellsKind(k);
  }

  // ----- Database and memory agree

  /** The proposal is stored under its own key. */
  ghost predicate Stored(db: Records, p: Proposal, id: Id) {
    |id| == ID_LENGTH && p.id == id && ProposalKey(id) in db && db[ProposalKey(id)] == StoredProposal(p)
  }

  /** A proposal key is one of a proposal in memory. */
  ghost predicate ProposalKnown(proposals: map<Id, Proposal>, k: Key) {
    k.ProposalKey? ==> k.id in proposals
  }

  ghost predicate HoldsProposals(db: Records, proposals: map<Id, Proposal>) {
    && (forall id {:trigger Stored(db, proposals[id], id)} :: id in proposals ==> Stored(db, proposals[id], id))
    && (forall k {:trigger ProposalKnown(proposals, k)} :: k in db ==> ProposalKnown(proposals, k))
  }

  /** The vote is stored under its own key. */
  ghost predicate Filed(db: Records, v: Vote, id: Id, a: Address) {
    |id| == ID_LENGTH && v.proposal == id && v.voter == a && VoteKey(id, a) in db && db[VoteKey(id, a)] == StoredVote(v)
  }

  /** A vote key is one of a vote in memory. */
  ghost predicate VoteKnown(votes: map<Id, map<Address, Vote>>, k: Key) {
    k.VoteKey? ==> k.id in votes && k.voter in votes[k.id]
  }

  ghost predicate HoldsVotes(db: Records, votes: map<Id, map<Address, Vote>>) {
    && (forall id, a {:trigger Filed(db, votes[id][a], id, a)} ::
          id in votes && a in votes[id] ==> Filed(db, votes[id][a], id, a))
    && (forall k {:trigger VoteKnown(votes, k)} :: k in db ==> VoteKnown(votes, k))
    && (forall id :: id in votes ==> votes[id] != map[])
  }

  lemma StoreProposal(db: Records, proposals: map<Id, Proposal>, p: Proposal)
    requires HoldsProposals(db, proposals) && |p.id| == ID_LENGTH
    ensures HoldsProposals(db[ProposalKey(p.id) := StoredProposal(p)], proposals[p.id := p])
  {
    var db', proposals' := db[ProposalKey(p.id) := StoredProposal(p)], proposals[p.id := p];
    forall id | id in proposals'
      ensures Stored(db', proposals'[id], id)
    {
      if id != p.id { assert Stored(db, proposals[id], id); }
    }
    forall k | k in db'
      ensures ProposalKnown(proposals', k)
    {
      assert k in db ==> ProposalKnown(proposals, k);
    }
  }

  lemma StoreProposalElsewhere(db: Records, votes: map<Id, map<Address, Vote>>, p: Proposal)
    requires HoldsVotes(db, votes)
    ensures HoldsVotes(db[ProposalKey(p.id) := StoredProposal(p)], votes)
  {
    var db' := db[ProposalKey(p.id) := StoredProposal(p)];
    forall id, a | id in votes && a in votes[id]
      ensures Filed(db', votes[id][a], id, a)
    {
      assert Filed(db, votes[id][a], id, a);
    }
    forall k | k in db'
      ensures VoteKnown(votes, k)
    {
      assert k in db ==> VoteKnown(votes, k);
    }
  }

  lemma StoreVote(db: Records, votes: map<Id, map<Address, Vote>>, v: Vote)
    requires HoldsVotes(db, votes) && |v.proposal| == ID_LENGTH
    ensures HoldsVotes(db[VoteKey(v.proposal, v.voter) := StoredVote(v)], WithVote(votes, v))
  {
    var db', votes' := db[VoteKey(v.proposal, v.voter) := StoredVote(v)], WithVote(votes, v);
    assert v.voter in votes'[v.proposal];
    forall id, a | id in votes' && a in votes'[id]
      ensures Filed(db', votes'[id][a], id, a)
    {
      if id != v.proposal || a != v.voter { assert Filed(db, votes[id][a], id, a); }
    }
    forall k | k in db'
      ensures VoteKnown(votes', k)
    {
      assert k in db ==> VoteKnown(votes, k);
    }
  }

  lemma StoreVoteElsewhere(db: Records, proposals: map<Id, Proposal>, v: Vote)
    requires HoldsProposals(db, proposals)
    ensures HoldsProposals(db[VoteKey(v.proposal, v.voter) := StoredVote(v)], proposals)
  {
    var db' := db[VoteKey(v.proposal, v.voter) := StoredVote(v)];
    forall id | id in proposals
      ensures Stored(db', proposals[id], id)
    {
      assert Stored(db, proposals[id], id);
    }
    forall k | k in db'
      ensures ProposalKnown(proposals, k)
    {
      assert k in db ==> ProposalKnown(proposals, k);
    }
  }

  function WithVote(votes: map<Id, map<Address, Vote>>, v: Vote): map<Id, map<Address, Vote>> {
    votes[v.proposal := (if v.proposal in votes then votes[v.proposal] else map[])[v.voter := v]]
  }

  // ----- Helpers for the tally

  /** The tally reads votes only, so deciding proposals one by one decides them all at once. */
  lemma DecideMore(b: Book, height: nat, reg: Registry, d: set<Id>, id: Id)
    requires id in b.proposals && id !in d
    ensures var m := DecideSome(b, height, reg, d);
      && id in m.proposals && m.proposals[id] == b.proposals[id]
      && DecideSome(b, height, reg, d + {id}) == m.(proposals := m.proposals[id := Decided(b, id, height, reg)])
  {
    var m := DecideSome(b, height, reg, d);
    assert DecideSome(b, height, reg, d + {id}).proposals == m.proposals[id := Decided(b, id, height, reg)];
  }

  lemma DecideNone(b: Book, height: nat, reg: Registry)
    ensures DecideSome(b, height, reg, {}) == b
  {
    assert DecideSome(b, height, reg, {}).proposals == b.proposals;
  }

  ghost predicate Named(b: Book) {
    forall id :: id in b.proposals ==> b.proposals[id].id == id
  }

  lemma AllNamed(db: Records, b: Book)
    requires HoldsProposals(db, b.proposals)
    ensures Named(b)
  {
    forall id | id in b.proposals
      ensures b.proposals[id].id == id
    {
      assert Stored(db, b.proposals[id], id);
    }
  }

  /** What a list of passed proposals holds: each passing id of `d` once, as decided. */
  ghost predicate Lists(list: seq<Proposal>, b: Book, height: nat, reg: Registry, d: set<Id>) {
    && (forall i :: 0 <= i < |list| ==>
         list[i].id in d && list[i].id in Passing(b, height, reg) && list[i] == Decided(b, list[i].id, height, reg))
    && (forall i, j :: 0 <= i < j < |list| ==> list[i].id != list[j].id)
    && (forall id :: id in d && id in Passing(b, height, reg) ==> exists i :: 0 <= i < |list| && list[i].id == id)
  }

  lemma ListsMore(list: seq<Proposal>, b: Book, height: nat, reg: Registry, d: set<Id>, id: Id)
    requires Lists(list, b, height, reg, d) && id in Maturing(b, height) && id !in d && b.proposals[id].id == id
    ensures QuorumMet(b, id, reg) ==> Lists(list + [Decided(b, id, height, reg)], b, height, reg, d + {id})
    ensures !QuorumMet(b, id, reg) ==> Lists(list, b, height, reg, d + {id})
  {
    if QuorumMet(b, id, reg) {
      var more := list + [Decided(b, id, height, reg)];
      forall x | x in d + {id} && x in Passing(b, height, reg)
        ensures exists i :: 0 <= i < |more| && more[i].id == x
      {
        if x == id {
          assert more[|list|].id == id;
        } else {
          var i :| 0 <= i < |list| && list[i].id == x;
          assert more[i].id == x;
        }
      }
    }
  }

  // ----- The object

  class GovernanceState {
    var db: Db
    ghost var records: Records
    var proposals: map<Id, Proposal>
    var votes: map<Id, map<Address, Vote>>

    ghost function View(): Book
      reads this
    {
      Book(proposals, votes)
    }

    ghost predicate Valid()
      reads this
    {
      Encodes(db, records) && HoldsProposals(records, proposals) && HoldsVotes(records, votes)
    }

    /** Reads everything back: the memory of a new object is that of the one that wrote. */
    constructor (db: Db, ghost records: Records, ghost b: Book)
      requires Encodes(db, records) && HoldsProposals(records, b.proposals) && HoldsVotes(records, b.votes)
      ensures View() == b && this.db == db && Valid()
    {
      this.db, this.records, proposals, votes := db, records, map[], map[];
      new;
      LoadProposals(b);
      LoadVotes(b);
    }

    /** A restart on the same database finds the proposals and votes there were. */
    method Restart() returns (again: GovernanceState)
      requires Valid()
      ensures fresh(again) && again.Valid() && again.View() == View() && again.db == db
    {
      again := new GovernanceState(db, records, View());
    }

    method LoadProposals(ghost b: Book)
      requires Encodes(db, records) && HoldsProposals(records, b.proposals) && proposals == map[]
      modifies `proposals
      ensures proposals == b.proposals
    {
      var todo := Keyed(db, PROPOSAL_PREFIX);
      NoneLoaded(db, records, b.proposals);
      while todo != {}
        invariant forall s :: s in todo ==> s in db && PROPOSAL_PREFIX <= s
        invariant Loaded(proposals, b.proposals, todo)
        decreases |todo|
      {
        var s :| s in todo;
        ghost var k := Meaning(db, records, s);
        assert ProposalKnown(b.proposals, k) && Stored(records, b.proposals[k.id], k.id);
        var p := db[s].proposal;
        LoadMore(proposals, b.proposals, todo, p);
        proposals := proposals[p.id := p];
        todo := todo - {s};
      }
      assert proposals == b.proposals;
    }

    method LoadVotes(ghost b: Book)
      requires Encodes(db, records) && HoldsVotes(records, b.votes) && votes == map[]
      modifies `votes
      ensures votes == b.votes
    {
      var todo := Keyed(db, VOTE_PREFIX);
      NoneRestored(db, records, b.votes);
      while todo != {}
        invariant forall s :: s in todo ==> s in db && VOTE_PREFIX <= s
        invariant Restored(votes, b.votes, todo)
        decreases |todo|
      {
        var s :| s in todo;
        ghost var k := Meaning(db, records, s);
        assert VoteKnown(b.votes, k) && Filed(records, b.votes[k.id][k.voter], k.id, k.voter);
        var v := db[s].vote;
        TakeMore(votes, b.votes, v);
        ReadMore(votes, b.votes, todo, v);
        votes := WithVote(votes, v);
        todo := todo - {s};
      }
      RestoredAll(votes, b.votes);
    }

    method PersistProposal(p: Proposal)
      requires Valid() && |p.id| == ID_LENGTH
      modifies `db, `records, `proposals
      ensures proposals == old(proposals)[p.id := p] && Valid()
    {
      StoreProposal(records, proposals, p);
      StoreProposalElsewhere(records, votes, p);
      WriteEncodes(db, records, ProposalKey(p.id), StoredProposal(p));
      db := db[PROPOSAL_PREFIX + p.id := StoredProposal(p)];
      records := records[ProposalKey(p.id) := StoredProposal(p)];
      proposals := proposals[p.id := p];
    }

    method CheckPayload(p: Payload, treasury: nat) returns (ok: bool)
      ensures ok == PayloadOk(p, treasury)
    {
      match p
      case TreasurySpend(recipient, amount, description) =>
        return amount != 0 && amount <= treasury && |description| <= MAX_DESCRIPTION && recipient != "";
      case EmissionRateChange(rate, description) =>
        return rate >= MIN_REWARD && rate <= MAX_REWARD && |description| <= MAX_DESCRIPTION;
      case FeeScheduleChange(minFee, tiers) =>
        if minFee == 0 || tiers == [] { return false; }
        for i := 1 to |tiers|
          invariant forall j :: 0 < j < i ==> tiers[j - 1].0 < tiers[j].0
        {
          if tiers[i - 1].0 >= tiers[i].0 { return false; }
        }
        return true;
    }

    method SubmitProposal(p: Proposal, reg: Registry, signed: bool, treasury: nat) returns (r: Result<()>)
      requires Valid() && |p.id| == ID_LENGTH
      modifies this
      ensures (View(), r) == Submit(old(View()), p, reg, signed, treasury) && Valid()
    {
      if p.id in proposals { return Ok(()); }
      if p.submitter !in reg || reg[p.submitter] == Free || !signed { return Err; }
      var fine := CheckPayload(p.payload, treasury);
      if !fine { return Err; }
      PersistProposal(p);
      return Ok(());
    }

    method RecordVote(v: Vote, reg: Registry, signed: bool) returns (r: Result<bool>)
      requires Valid()
      modifies this
      ensures (View(), r) == Record(old(View()), v, reg, signed) && Valid()
      ensures r.Ok? <==> Entitled(old(View()), v, reg, signed)
      ensures r.Ok? ==> SideOf(View(), v.proposal, v.voter) == Some(v.approve)
      ensures r.Ok? ==> (r.value <==> SideOf(old(View()), v.proposal, v.voter) != Some(v.approve))
    {
      RecordOutcome(View(), v, reg, signed);
      if v.proposal !in proposals || proposals[v.proposal].status != Active ||
          v.height > proposals[v.proposal].voteEnd { return Err; }
      if v.voter !in reg || reg[v.voter] == Free || !signed { return Err; }
      var on := if v.proposal in votes then votes[v.proposal] else map[];
      if v.voter in on && on[v.voter].approve == v.approve { return Ok(false); }
      assert Stored(records, proposals[v.proposal], v.proposal);
      PersistVote(v, on);
      return Ok(true);
    }

    method PersistVote(v: Vote, on: map<Address, Vote>)
      requires Valid() && |v.proposal| == ID_LENGTH && on == VotesOn(View(), v.proposal)
      modifies `db, `records, `votes
      ensures votes == old(votes)[v.proposal := on[v.voter := v]] && Valid()
    {
      StoreVote(records, votes, v);
      StoreVoteElsewhere(records, proposals, v);
      WriteEncodes(db, records, VoteKey(v.proposal, v.voter), StoredVote(v));
      db := db[VOTE_PREFIX + v.proposal + "_" + v.voter := StoredVote(v)];
      records := records[VoteKey(v.proposal, v.voter) := StoredVote(v)];
      votes := votes[v.proposal := on[v.voter := v]];
    }

    method TallyYesWeight(id: Id, reg: Registry) returns (yes: nat)
      ensures yes == YesWeight(View(), id, reg)
    {
      var on := if id in votes then votes[id] else map[];
      yes := SumApprovals(on, reg);
    }

    method SumApprovals(on: map<Address, Vote>, reg: Registry) returns (yes: nat)
      ensures yes == Total(Weights(reg), Approvers(on, reg))
    {
      yes := 0;
      var todo := on.Keys;
      ghost var all := Approvers(on, reg);
      assert all - todo == {};
      while todo != {}
        invariant todo <= on.Keys && yes == Unvisited(on, reg, todo)
        decreases |todo|
      {
        var a :| a in todo;
        ApproveMore(on, reg, todo, a);
        if on[a].approve { yes := yes + if a in reg then VoteWeight(reg[a]) else 0; }
        todo := todo - {a};
      }
      assert all - todo == all;
    }

    method TotalActiveWeight(reg: Registry) returns (total: nat)
      ensures total == TotalWeight(reg)
    {
      ghost var w := Weights(reg);
      total := 0;
      var todo := reg.Keys;
      assert reg.Keys - todo == {};
      while todo != {}
        invariant todo <= reg.Keys && total == Total(w, reg.Keys - todo)
        decreases |todo|
      {
        var a :| a in todo;
        total := total + VoteWeight(reg[a]);
        assert reg.Keys - (todo - {a}) == (reg.Keys - todo) + {a} && reg.Keys - todo == (reg.Keys - todo) + {a} - {a};
        TotalTake(w, (reg.Keys - todo) + {a}, a);
        todo := todo - {a};
      }
      assert reg.Keys - todo == reg.Keys;
    }

    /** Decides one maturing proposal. */
    method DecideOne(ghost b: Book, ghost d: set<Id>, id: Id, height: nat, reg: Registry, total: nat)
        returns (met: bool)
      requires Valid() && View() == DecideSome(b, height, reg, d) && id in b.proposals && id !in d &&
          total == TotalWeight(reg)
      modifies `db, `records, `proposals
      ensures Valid() && View() == DecideSome(b, height, reg, d + {id}) && met == QuorumMet(b, id, reg)
    {
      DecideMore(b, height, reg, d, id);
      var yes := TallyYesWeight(id, reg);
      met := total > 0 && yes * QUORUM_DENOMINATOR >= total * QUORUM_NUMERATOR;
      assert Stored(records, proposals[id], id);
      PersistProposal(proposals[id].(status := if met then Passed(height) else Failed));
    }

    /** The proposals of `d` are decided and `passed` lists those that passed. */
    ghost predicate Tallied(b: Book, height: nat, reg: Registry, d: set<Id>, passed: seq<Proposal>)
      reads this
    {
      && Valid() && View() == DecideSome(b, height, reg, d)
      && Lists(passed, b, height, reg, d) && SpendOf(passed) == PredictedOf(b, height, reg, d)
    }

    method ExecuteNext(ghost b: Book, ghost d: set<Id>, id: Id, height: nat, reg: Registry, total: nat,
        passed: seq<Proposal>)
      returns (more: seq<Proposal>)
      requires Tallied(b, height, reg, d, passed) && Named(b)
      requires id in Maturing(b, height) && id !in d && total == TotalWeight(reg)
      modifies `db, `records, `proposals
      ensures Tallied(b, height, reg, d + {id}, more)
    {
      var met := DecideOne(b, d, id, height, reg, total);
      ListsMore(passed, b, height, reg, d, id);
      PredictMore(b, height, reg, d, id, passed);
      more := if met then passed + [proposals[id]] else passed;
    }

    /** The loop over the maturing proposals, in any order. */
    method ExecuteAll(ghost b: Book, all: set<Id>, height: nat, reg: Registry, total: nat)
        returns (passed: seq<Proposal>)
      requires Tallied(b, height, reg, {}, []) && Named(b) && all == Maturing(b, height) && total == TotalWeight(reg)
      modifies `db, `records, `proposals
      ensures Tallied(b, height, reg, all, passed)
    {
      passed := [];
      var todo := all;
      ghost var done: set<Id> := {};
      while todo != {}
        invariant todo <= all && done == all - todo
        invariant Tallied(b, height, reg, done, passed)
        decreases |todo|
      {
        var id :| id in todo;
        TakeOne(all, todo, id);
        passed := ExecuteNext(b, done, id, height, reg, total, passed);
        todo, done := todo - {id}, done + {id};
      }
      assert done == all;
    }

    /** Tallies every proposal whose vote ends here and returns those that passed; their
        treasury spends add up to the prediction made before. */
    method CheckAndExecuteProposals(height: nat, reg: Registry) returns (passed: seq<Proposal>)
      requires Valid()
      modifies `db, `records, `proposals
      ensures Valid() && View() == Execute(old(View()), height, reg)
      ensures Lists(passed, old(View()), height, reg, Maturing(old(View()), height))
      ensures SpendOf(passed) == Predicted(old(View()), height, reg)
    {
      ghost var b := View();
      var total := TotalActiveWeight(reg);
      var all := MaturingIds(height);
      AllNamed(records, b);
      DecideNone(b, height, reg);
      PredictNone(b, height, reg);
      passed := ExecuteAll(b, all, height, reg, total);
    }

    method MaturingIds(height: nat) returns (ids: set<Id>)
      ensures ids == Maturing(View(), height)
    {
      ids := set id | id in proposals && proposals[id].status == Active && proposals[id].voteEnd == height;
    }

    method PredictNext(ghost d: set<Id>, id: Id, height: nat, reg: Registry, total: nat, spend: nat) returns (more: nat)
      requires id in Maturing(View(), height) && id !in d && total == TotalWeight(reg) &&
          spend == PredictedOf(View(), height, reg, d)
      ensures more == PredictedOf(View(), height, reg, d + {id})
    {
      var yes := TallyYesWeight(id, reg);
      PredictMore(View(), height, reg, d, id, []);
      more := spend;
      if total > 0 && yes * QUORUM_DENOMINATOR >= total * QUORUM_NUMERATOR {
        if proposals[id].payload.TreasurySpend? { more := SaturatingAdd(spend, proposals[id].payload.amount); }
      }
    }

    method TreasurySpendsMaturingAt(height: nat, reg: Registry) returns (spend: nat)
      ensures spend == Predicted(View(), height, reg)
    {
      var total := TotalActiveWeight(reg);
      var all := MaturingIds(height);
      PredictNone(View(), height, reg);
      spend := 0;
      var todo := all;
      assert all - todo == {};
      while todo != {}
        invariant todo <= all && spend == PredictedOf(View(), height, reg, all - todo)
        decreases |todo|
      {
        var id :| id in todo;
        TakeOne(all, todo, id);
        spend := PredictNext(all - todo, id, height, reg, total, spend);
        todo := todo - {id};
      }
      assert all - todo == all;
    }

    method Mark(id: Id)
      requires Valid()
      modifies `db, `records, `proposals
      ensures View() == MarkExecuted(old(View()), id) && Valid()
    {
      if id in proposals {
        assert Stored(records, proposals[id], id);
        PersistProposal(proposals[id].(status := Executed));
      }
    }
  }

  // ----- Prediction over part of the maturing proposals

  ghost function PredictedOf(b: Book, height: nat, reg: Registry, d: set<Id>): nat {
    var sum := Total(Spends(b), Passing(b, height, reg) * d);
    if sum > U64_MAX then U64_MAX else sum
  }

  lemma PredictNone(b: Book, height: nat, reg: Registry)
    ensures PredictedOf(b, height, reg, {}) == 0
    ensures PredictedOf(b, height, reg, Maturing(b, height)) == Predicted(b, height, reg)
  {
    var p := Passing(b, height, reg);
    assert p * {} == {} && p * Maturing(b, height) == p;
  }

  /** Weight of the approving masternodes outside `todo`. */
  ghost function Unvisited(on: map<Address, Vote>, reg: Registry, todo: set<Address>): nat {
    Total(Weights(reg), Approvers(on, reg) - todo)
  }

  lemma ApproveMore(on: map<Address, Vote>, reg: Registry, todo: set<Address>, a: Address)
    requires a in todo && todo <= on.Keys
    ensures Unvisited(on, reg, todo - {a}) == Unvisited(on, reg, todo) + if on[a].approve && a in reg
        then VoteWeight(reg[a]) else 0
  {
    var w, all := Weights(reg), Approvers(on, reg);
    if a in all {
      assert all - (todo - {a}) == (all - todo) + {a} && all - todo == (all - todo) + {a} - {a};
      TotalTake(w, (all - todo) + {a}, a);
    } else {
      assert all - (todo - {a}) == all - todo;
    }
  }

  lemma PredictMore(b: Book, height: nat, reg: Registry, d: set<Id>, id: Id, passed: seq<Proposal>)
    requires id in Maturing(b, height) && id !in d
    ensures PredictedOf(b, height, reg, d + {id}) ==
            if QuorumMet(b, id, reg) then SaturatingAdd(PredictedOf(b, height, reg, d), Spend(b.proposals[id]))
                else PredictedOf(b, height, reg, d)
    ensures SpendOf(passed + [Decided(b, id, height, reg)]) == SaturatingAdd(SpendOf(passed), Spend(b.proposals[id]))
  {
    var p := Passing(b, height, reg);
    if QuorumMet(b, id, reg) {
      assert p * (d + {id}) == p * d + {id};
      SaturateMore(Spends(b), p * d, id);
    } else {
      assert p * (d + {id}) == p * d;
    }
    assert (passed + [Decided(b, id, height, reg)])[..|passed|] == passed;
  }

  // ----- Reloading

  /** The texts a prefix scan finds. */
  function Keyed(db: Db, prefix: string): set<string> {
    set s | s in db && prefix <= s
  }

  /** Proposals read back so far: those whose text is no longer to do. */
  ghost predicate Loaded(proposals: map<Id, Proposal>, all: map<Id, Proposal>, todo: set<string>) {
    && (forall id :: id in all ==> |id| == ID_LENGTH)
    && (forall id :: id in proposals <==> id in all && Text(ProposalKey(id)) !in todo)
    && (forall id :: id in proposals ==> proposals[id] == all[id])
  }

  lemma NoneLoaded(db: Db, records: Records, all: map<Id, Proposal>)
    requires Encodes(db, records) && HoldsProposals(records, all)
    ensures Loaded(map[], all, Keyed(db, PROPOSAL_PREFIX))
  {
    forall id | id in all
      ensures |id| == ID_LENGTH && Text(ProposalKey(id)) in db && PROPOSAL_PREFIX <= Text(ProposalKey(id))
    {
      PrefixTellsKind(ProposalKey(id));
      assert Stored(records, all[id], id);
      assert Written(db, ProposalKey(id), records[ProposalKey(id)]);
    }
  }

  lemma LoadMore(proposals: map<Id, Proposal>, all: map<Id, Proposal>, todo: set<string>, p: Proposal)
    requires Loaded(proposals, all, todo) && p.id in all && p == all[p.id]
    ensures Loaded(proposals[p.id := p], all, todo - {Text(ProposalKey(p.id))})
  {
    forall id | id in all && Text(ProposalKey(id)) == Text(ProposalKey(p.id))
      ensures id == p.id
    {
      TextInjective(ProposalKey(id), ProposalKey(p.id));
    }
  }

  ghost predicate ToDo(todo: set<string>, id: Id, a: Address) {
    Text(VoteKey(id, a)) in todo
  }

  /** Votes read back are votes that were written. */
  ghost predicate Taken(votes: map<Id, map<Address, Vote>>, all: map<Id, map<Address, Vote>>) {
    && (forall id, a :: id in votes && a in votes[id] ==> id in all && a in all[id] && votes[id][a] == all[id][a])
    && (forall id :: id in votes ==> votes[id] != map[])
  }

  /** Every vote that is no longer to do was read back. */
  ghost predicate Read(votes: map<Id, map<Address, Vote>>, all: map<Id, map<Address, Vote>>, todo: set<string>) {
    && (forall id :: id in all ==> |id| == ID_LENGTH)
    && (forall id, a {:trigger ToDo(todo, id, a)} :: id in all && a in all[id] && !ToDo(todo, id, a) ==>
         id in votes && a in votes[id])
  }

  ghost predicate Restored(votes: map<Id, map<Address, Vote>>, all: map<Id, map<Address, Vote>>, todo: set<string>) {
    Taken(votes, all) && Read(votes, all, todo)
  }

  lemma VoteToDo(db: Db, records: Records, all: map<Id, map<Address, Vote>>, id: Id, a: Address)
    requires Encodes(db, records) && HoldsVotes(records, all) && id in all && a in all[id]
    ensures |id| == ID_LENGTH && ToDo(Keyed(db, VOTE_PREFIX), id, a)
  {
    PrefixTellsKind(VoteKey(id, a));
    assert Filed(records, all[id][a], id, a);
    assert Written(db, VoteKey(id, a), records[VoteKey(id, a)]);
  }

  lemma NoneRestored(db: Db, records: Records, all: map<Id, map<Address, Vote>>)
    requires Encodes(db, records) && HoldsVotes(records, all)
    ensures Restored(map[], all, Keyed(db, VOTE_PREFIX))
  {
    forall id, a | id in all && a in all[id]
      ensures |id| == ID_LENGTH && ToDo(Keyed(db, VOTE_PREFIX), id, a)
    {
      VoteToDo(db, records, all, id, a);
    }
    forall id | id in all
      ensures |id| == ID_LENGTH
    {
      var a :| a in all[id];
    }
  }

  lemma TakeMore(votes: map<Id, map<Address, Vote>>, all: map<Id, map<Address, Vote>>, v: Vote)
    requires Taken(votes, all) && v.proposal in all && v.voter in all[v.proposal] && v == all[v.proposal][v.voter]
    ensures Taken(WithVote(votes, v), all)
  {
    var inner: map<Address, Vote> := if v.proposal in votes then votes[v.proposal] else map[];
    assert v.voter in inner[v.voter := v];
  }

  lemma ReadMore(votes: map<Id, map<Address, Vote>>, all: map<Id, map<Address, Vote>>, todo: set<string>, v: Vote)
    requires Read(votes, all, todo) && v.proposal in all
    ensures Read(WithVote(votes, v), all, todo - {Text(VoteKey(v.proposal, v.voter))})
  {
    var less := todo - {Text(VoteKey(v.proposal, v.voter))};
    forall id, a | id in all && a in all[id] && !ToDo(less, id, a)
      ensures (id in votes && a in votes[id]) || (id == v.proposal && a == v.voter)
    {
      if ToDo(todo, id, a) { TextInjective(VoteKey(id, a), VoteKey(v.proposal, v.voter)); }
    }
  }

  lemma RestoredAll(votes: map<Id, map<Address, Vote>>, all: map<Id, map<Address, Vote>>)
    requires Restored(votes, all, {}) && forall id :: id in all ==> all[id] != map[]
    ensures votes == all
  {
    forall id | id in all
      ensures id in votes && votes[id] == all[id]
    {
      var a0 :| a0 in all[id];
      forall a | a in all[id] ensures id in votes && a in votes[id] { assert !ToDo({}, id, a); }
    }
    forall id | id in votes
      ensures id in all
    {
      var a :| a in votes[id];
    }
  }
}
