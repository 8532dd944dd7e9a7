/** Governance proposals and votes, kept in memory and in a database. Ids are their
    64-character hex text; database writes succeed. */
module Governance {

  import opened Basics
  import opened Sums
  import opened Wrappers

  const MAX_VOTE_WEIGHT: nat := 10
  const QUORUM_NUMERATOR: nat := 67
  const QUORUM_DENOMINATOR: nat := 100
  const MAX_DESCRIPTION: nat := 256
  const MIN_REWARD: nat := 1_000_000_000
  const MAX_REWARD: nat := 1_000_000_000_000
  const ID_LENGTH: nat := 64

  type Id = string
  type Address = string

  datatype Payload =
    | TreasurySpend(recipient: Address, amount: nat, description: seq<bv8>)
    | FeeScheduleChange(minFee: nat, tiers: seq<(nat, nat)>)
    | EmissionRateChange(satoshisPerBlock: nat, description: seq<bv8>)

  datatype Status = Active | Passed(executeAt: nat) | Failed | Executed

  datatype Proposal = Proposal(id: Id, payload: Payload, submitter: Address, submitHeight: nat, voteEnd: nat,
      status: Status)

  datatype Vote = Vote(proposal: Id, voter: Address, approve: bool, height: nat)

  datatype Tier = Free | Bronze | Silver | Gold

  type Registry = map<Address, Tier>

  /** The in-memory state. */
  datatype Book = Book(proposals: map<Id, Proposal>, votes: map<Id, map<Address, Vote>>)

  // ----- Weights

  function Power(t: Tier): nat {
    match t
    case Free => 0
    case Bronze => 1
    case Silver => 10
    case Gold => 100
  }

  function VoteWeight(t: Tier): nat {
    if Power(t) < MAX_VOTE_WEIGHT then Power(t) else MAX_VOTE_WEIGHT
  }

  ghost function Weights(reg: Registry): map<Address, nat> {
    map a | a in reg :: VoteWeight(reg[a])
  }

  ghost function TotalWeight(reg: Registry): nat {
    Total(Weights(reg), reg.Keys)
  }

  /** Active masternodes that approve. */
  function Approvers(votes: map<Address, Vote>, reg: Registry): set<Address> {
    set a | a in votes && votes[a].approve && a in reg
  }

  function VotesOn(b: Book, id: Id): map<Address, Vote> {
    if id in b.votes then b.votes[id] else map[]
  }

  ghost function YesWeight(b: Book, id: Id, reg: Registry): nat {
    Total(Weights(reg), Approvers(VotesOn(b, id), reg))
  }

  ghost predicate QuorumMet(b: Book, id: Id, reg: Registry) {
    TotalWeight(reg) > 0 && YesWeight(b, id, reg) * QUORUM_DENOMINATOR >= TotalWeight(reg) * QUORUM_NUMERATOR
  }

  lemma YesAtMostTotal(b: Book, id: Id, reg: Registry)
    ensures YesWeight(b, id, reg) <= TotalWeight(reg)
  {
    TotalSubset(Weights(reg), Approvers(VotesOn(b, id), reg), reg.Keys);
  }

  // ----- Operations on values

  predicate Ascending(tiers: seq<(nat, nat)>) {
    forall i :: 0 < i < |tiers| ==> tiers[i - 1].0 < tiers[i].0
  }

  predicate PayloadOk(p: Payload, treasury: nat) {
    match p
    case TreasurySpend(recipient, amount, description) =>
      0 < amount <= treasury && |description| <= MAX_DESCRIPTION && recipient != ""
    case FeeScheduleChange(minFee, tiers) => minFee > 0 && tiers != [] && Ascending(tiers)
    case EmissionRateChange(rate, description) => MIN_REWARD <= rate <= MAX_REWARD && |description| <= MAX_DESCRIPTION
  }

  predicate MayAct(reg: Registry, a: Address) {
    a in reg && reg[a] != Free
  }

  /** `signed`: the signature check passed. */
  function Submit(b: Book, p: Proposal, reg: Registry, signed: bool, treasury: nat): (Book, Result<()>) {
    if p.id in b.proposals then (b, Ok(()))
    else if !MayAct(reg, p.submitter) || !signed || !PayloadOk(p.payload, treasury) then (b, Err)
    else (b.(proposals := b.proposals[p.id := p]), Ok(()))
  }

  predicate VoteOpen(b: Book, v: Vote) {
    v.proposal in b.proposals && b.proposals[v.proposal].status == Active && v.height <= b.proposals[v.proposal].voteEnd
  }

  function Record(b: Book, v: Vote, reg: Registry, signed: bool): (Book, Result<bool>) {
    if !VoteOpen(b, v) || !MayAct(reg, v.voter) || !signed then (b, Err)
    else
      var on := VotesOn(b, v.proposal);
      if v.voter in on && on[v.voter].approve == v.approve then (b, Ok(false))
      else (b.(votes := b.votes[v.proposal := on[v.voter := v]]), Ok(true))
  }

  /** The vote is on an open proposal, in time, of a masternode above the free tier, signed. */
  ghost predicate Entitled(b: Book, v: Vote, reg: Registry, signed: bool) {
    && v.proposal in b.proposals && b.proposals[v.proposal].status.Active?
    && v.height <= b.proposals[v.proposal].voteEnd
    && v.voter in reg && !reg[v.voter].Free? && signed
  }

  /** The side a masternode stands on, if it voted. */
  ghost function SideOf(b: Book, id: Id, a: Address): Option<bool> {
    if a in VotesOn(b, id) then Some(VotesOn(b, id)[a].approve) else None
  }

  /** What recording a vote does: it fails exactly without title, reports news exactly when the
      side changes, and then stores this vote and touches no other. */
  lemma RecordOutcome(b: Book, v: Vote, reg: Registry, signed: bool)
    ensures var (b', r) := Record(b, v, reg, signed);
      && (r.Ok? <==> Entitled(b, v, reg, signed))
      && (r == Ok(false) ==> b' == b && SideOf(b, v.proposal, v.voter) == Some(v.approve))
      && (r == Ok(true) ==>
            && SideOf(b, v.proposal, v.voter) != Some(v.approve)
            && v.voter in VotesOn(b', v.proposal) && VotesOn(b', v.proposal)[v.voter] == v)
      && b'.proposals == b.proposals
      && (forall id, a :: (id != v.proposal || a != v.voter) ==>
            (a in VotesOn(b', id) <==> a in VotesOn(b, id)) &&
            (a in VotesOn(b, id) ==> VotesOn(b', id)[a] == VotesOn(b, id)[a]))
  {
  }

  /** A proposal is stored exactly when it is known or its submitter is a masternode above the
      free tier, the signature is good and the payload keeps the limits. */
  lemma SubmitStoresIff(b: Book, p: Proposal, reg: Registry, signed: bool, treasury: nat)
    ensures var (b', r) := Submit(b, p, reg, signed, treasury);
      && (r.Ok? <==> p.id in b'.proposals) && b'.votes == b.votes
      && (p.id !in b.proposals ==>
            (r.Ok? <==> p.submitter in reg && !reg[p.submitter].Free? && signed && WithinLimits(p.payload, treasury)))
      && (p.id !in b.proposals && r.Ok? ==> b'.proposals == b.proposals[p.id := p])
      && (p.id in b.proposals ==> b' == b)
  {
    if p.payload.FeeScheduleChange? { AscendingIsSorted(p.payload.tiers); }
  }

  ghost predicate WithinLimits(p: Payload, treasury: nat) {
    match p
    case TreasurySpend(recipient, amount, text) => recipient != "" && 1 <= amount <= treasury && |text| <= 256
    case FeeScheduleChange(minFee, tiers) =>
      minFee >= 1 && |tiers| >= 1 && forall i, j :: 0 <= i < j < |tiers| ==> tiers[i].0 < tiers[j].0
    case EmissionRateChange(rate, text) => 1_000_000_000 <= rate <= 1_000_000_000_000 && |text| <= 256
  }

  /** Neighbours that ascend make the whole list ascend. */
  lemma {:induction false} AscendingIsSorted(tiers: seq<(nat, nat)>)
    ensures Ascending(tiers) <==> forall i, j :: 0 <= i < j < |tiers| ==> tiers[i].0 < tiers[j].0
    decreases |tiers|
  {
    if |tiers| > 1 && Ascending(tiers) {
      var most := tiers[..|tiers| - 1];
      assert Ascending(most);
      AscendingIsSorted(most);
      forall i, j | 0 <= i < j < |tiers|
        ensures tiers[i].0 < tiers[j].0
      {
        if j < |tiers| - 1 { assert most[i].0 < most[j].0; } else if i < j - 1 { assert most[i].0 < most[j - 1].0; }
      }
    }
  }

  /** The free tier counts for nothing, bronze for one, and no tier for more than ten. */
  lemma TierWeights()
    ensures VoteWeight(Free) == 0 && VoteWeight(Bronze) == 1 && VoteWeight(Silver) == 10 && VoteWeight(Gold) == 10
  {
  }

  function Maturing(b: Book, height: nat): set<Id> {
    set id | id in b.proposals && b.proposals[id].status == Active && b.proposals[id].voteEnd == height
  }

  ghost function Passing(b: Book, height: nat, reg: Registry): set<Id> {
    set id | id in Maturing(b, height) && QuorumMet(b, id, reg)
  }

  ghost function Decided(b: Book, id: Id, height: nat, reg: Registry): Proposal
    requires id in b.proposals
  {
    b.proposals[id].(status := if QuorumMet(b, id, reg) then Passed(height) else Failed)
  }

  /** The tally for the proposals of `d`. */
  ghost function DecideSome(b: Book, height: nat, reg: Registry, d: set<Id>): Book {
    b.(proposals := map id | id in b.proposals :: if id in d then Decided(b, id, height, reg) else b.proposals[id])
  }

  ghost function Execute(b: Book, height: nat, reg: Registry): Book {
    DecideSome(b, height, reg, Maturing(b, height))
  }

  function MarkExecuted(b: Book, id: Id): Book {
    if id in b.proposals then b.(proposals := b.proposals[id := b.proposals[id].(status := Executed)]) else b
  }

  // ----- The prediction

  function Spend(p: Proposal): nat {
    if p.payload.TreasurySpend? then p.payload.amount else 0
  }

  function SaturatingAdd(a: nat, b: nat): nat {
    if a + b > U64_MAX then U64_MAX else a + b
  }

  ghost function Spends(b: Book): map<Id, nat> {
    map id | id in b.proposals :: Spend(b.proposals[id])
  }

  /** Treasury spends that pass at `height`, saturated. */
  ghost function Predicted(b: Book, height: nat, reg: Registry): nat {
    var sum := Total(Spends(b), Passing(b, height, reg));
    if sum > U64_MAX then U64_MAX else sum
  }

  /** Saturating sum of a list of executed proposals, in its order. */
  function SpendOf(list: seq<Proposal>): nat {
    if list == [] then 0 else SaturatingAdd(SpendOf(list[..|list| - 1]), Spend(list[|list| - 1]))
  }

  /** What each treasury spend asks for. */
  ghost function Amounts(b: Book): map<Id, nat> {
    map id | id in b.proposals && b.proposals[id].payload.TreasurySpend? :: b.proposals[id].payload.amount
  }

  lemma {:induction false} OnlySpendsCount(b: Book, d: set<Id>)
    requires d <= b.proposals.Keys
    ensures Total(Spends(b), d) == Total(Amounts(b), d * Amounts(b).Keys)
    decreases |d|
  {
    if d == {} {
      assert d * Amounts(b).Keys == {};
    } else {
      var id :| id in d;
      OnlySpendsCount(b, d - {id});
      TotalTake(Spends(b), d, id);
      var e := d * Amounts(b).Keys;
      assert e - {id} == (d - {id}) * Amounts(b).Keys;
      if id in Amounts(b) { TotalTake(Amounts(b), e, id); } else { assert e - {id} == e; }
    }
  }

  /** The prediction is what the passing treasury spends ask for together, and saturates. */
  lemma PredictedIsTreasury(b: Book, height: nat, reg: Registry)
    ensures var due := Total(Amounts(b), Passing(b, height, reg) * Amounts(b).Keys);
      Predicted(b, height, reg) == if due <= U64_MAX then due else U64_MAX
  {
    OnlySpendsCount(b, Passing(b, height, reg));
  }

  /** Marking changes the status of one known proposal to Executed, and nothing else. */
  lemma MarkOutcome(b: Book, id: Id)
    ensures var b' := MarkExecuted(b, id);
      && b'.votes == b.votes && b'.proposals - {id} == b.proposals - {id} && b'.proposals.Keys == b.proposals.Keys
      && (id in b.proposals ==> b'.proposals[id] == b.proposals[id].(status := Executed))
  {
  }

  /** Adding one more passing proposal saturates the same way in whatever order. */
  lemma SaturateMore(w: map<Id, nat>, d: set<Id>, id: Id)
    requires d <= w.Keys && id in w && id !in d
    ensures var sum, more := Total(w, d), Total(w, d + {id});
      (if more > U64_MAX then U64_MAX else more) == SaturatingAdd(if sum > U64_MAX then U64_MAX else sum, w[id])
  {
    TotalTake(w, d + {id}, id);
    assert d + {id} - {id} == d;
  }

  /** After the tally at a height nothing matures there any more: the prediction is zero
      and a second tally changes and returns nothing, whatever the registry is by then. */
  lemma TalliedOnce(b: Book, height: nat, reg: Registry, later: Registry)
    ensures var b' := Execute(b, height, reg);
      Maturing(b', height) == {} && Predicted(b', height, later) == 0 && Execute(b', height, later) == b'
  {
    var b' := Execute(b, height, reg);
    assert Maturing(b', height) == {};
    assert Passing(b', height, later) == {};
    assert Execute(b', height, later).proposals == b'.proposals;
  }

  // ----- Life of a proposal

  datatype Op =
    | DoSubmit(p: Proposal, reg: Registry, signed: bool, treasury: nat)
    | DoVote(v: Vote, reg: Registry, signed: bool)
    | DoTally(height: nat, reg: Registry)
    | DoMark(id: Id)

  ghost function Apply(b: Book, op: Op): Book {
    match op
    case DoSubmit(p, reg, signed, treasury) => Submit(b, p, reg, signed, treasury).0
    case DoVote(v, reg, signed) => Record(b, v, reg, signed).0
    case DoTally(height, reg) => Execute(b, height, reg)
    case DoMark(id) => MarkExecuted(b, id)
  }

  ghost function After(b: Book, ops: seq<Op>): Book {
    if ops == [] then b else Apply(After(b, ops[..|ops| - 1]), ops[|ops| - 1])
  }

  /** The proposal stays, is not Active, and its votes are what they were. */
  ghost predicate Closed(b: Book, id: Id, votes: map<Address, Vote>) {
    id in b.proposals && b.proposals[id].status != Active && VotesOn(b, id) == votes
  }

  lemma StepStaysClosed(b: Book, id: Id, votes: map<Address, Vote>, op: Op)
    requires Closed(b, id, votes)
    ensures Closed(Apply(b, op), id, votes)
  {
  }

  /** Once decided a proposal never becomes Active again and its votes are frozen. */
  lemma {:induction false} DecidedForGood(b: Book, id: Id, ops: seq<Op>)
    requires id in b.proposals && b.proposals[id].status != Active
    ensures Closed(After(b, ops), id, VotesOn(b, id))
    decreases |ops|
  {
    if ops != [] {
      DecidedForGood(b, id, ops[..|ops| - 1]);
      StepStaysClosed(After(b, ops[..|ops| - 1]), id, VotesOn(b, id), ops[|ops| - 1]);
    }
  }

  /** A proposal passes only at the end of its vote, with 67% of the weight that counts then. */
  lemma PassedMeansQuorum(b: Book, op: Op, id: Id)
    requires id in b.proposals && b.proposals[id].status == Active
    requires Apply(b, op).proposals[id].status.Passed?
    ensures op.DoTally? && op.height == b.proposals[id].voteEnd
    ensures 100 * YesWeight(b, id, op.reg) >= 67 * TotalWeight(op.reg) > 0
  {
  }

  /** The tally at a height settles exactly the Active proposals that end there: passed with
      67% of the weight that counts, failed without. */
  lemma TallyOutcome(b: Book, height: nat, reg: Registry, id: Id)
    requires id in b.proposals
    ensures var b' := Apply(b, DoTally(height, reg));
      && id in b'.proposals && b'.votes == b.votes
      && (if b.proposals[id].status.Active? && b.proposals[id].voteEnd == height
          then b'.proposals[id] == b.proposals[id].(status :=
                 if TotalWeight(reg) > 0 && 100 * YesWeight(b, id, reg) >= 67 * TotalWeight(reg) then Passed(height)
                     else Failed)
          else b'.proposals[id] == b.proposals[id])
  {
  }

  // ----- Votes over runs

  /** The operation is a vote of `a` on `id` that is accepted. */
  ghost predicate Casts(b: Book, op: Op, id: Id, a: Address) {
    op.DoVote? && op.v.proposal == id && op.v.voter == a && Entitled(b, op.v, op.reg, op.signed)
  }

  /** The side of the last accepted vote of `a` on `id` in the run, or the one it starts with. */
  ghost function LastSide(b: Book, ops: seq<Op>, id: Id, a: Address): Option<bool> {
    if ops == [] then SideOf(b, id, a)
    else
      var k := |ops| - 1;
      if Casts(After(b, ops[..k]), ops[k], id, a) then Some(ops[k].v.approve) else LastSide(b, ops[..k], id, a)
  }

  lemma StepSide(b: Book, op: Op, id: Id, a: Address)
    ensures SideOf(Apply(b, op), id, a) == if Casts(b, op, id, a) then Some(op.v.approve) else SideOf(b, id, a)
  {
    if op.DoVote? { RecordOutcome(b, op.v, op.reg, op.signed); }
  }

  /** After any operations each masternode stands where its last accepted vote put it. */
  lemma {:induction false} RunKeepsSides(b: Book, ops: seq<Op>, id: Id, a: Address)
    ensures SideOf(After(b, ops), id, a) == LastSide(b, ops, id, a)
    decreases |ops|
  {
    if ops != [] {
      var k := |ops| - 1;
      RunKeepsSides(b, ops[..k], id, a);
      StepSide(After(b, ops[..k]), ops[k], id, a);
    }
  }

  /** Those who approve at the tally are the active masternodes whose last accepted vote did. */
  lemma ApproversVotedLast(b: Book, ops: seq<Op>, id: Id, reg: Registry, a: Address)
    ensures a in Approvers(VotesOn(After(b, ops), id), reg) <==> a in reg && LastSide(b, ops, id, a) == Some(true)
  {
    RunKeepsSides(b, ops, id, a);
  }
}
