/** The liveness fallback of the consensus protocol: rounds with rotating leaders, votes on
    a leader's proposal, and resolution by a TimeLock block. */
module Fallback {

  import opened Wrappers
  import opened Transactions
  import Ledger

  type Proposal = nat
  type Voter = nat

  const ROUND_TIMEOUT: nat := 10
  const MAX_ROUNDS: nat := 5
  const SLOT_SECS: nat := 600

  /** The leader slot of a round, how many rounds timed out before it, and its timer. */
  datatype Round = Round(slot: nat, count: nat, at: nat)

  datatype Vote = Vote(voter: Voter, approve: bool, weight: nat)

  datatype State = State(
    status: map<TxId, Status>,
    rounds: map<TxId, Round>,
    votes: map<Proposal, seq<Vote>>,
    proposals: map<Proposal, TxId>)

  const NOTHING: State := State(map[], map[], map[], map[])

  // ----- Operations on values

  function EnterVoting(s: State, t: TxId): State {
    s.(status := s.status[t := Voting])
  }

  function EnterFallback(s: State, t: TxId, now: nat): State {
    s.(status := s.status[t := FallbackResolution], rounds := s.rounds[t := Round(now / SLOT_SECS, 0, now)])
  }

  /** Finalized or rejected through a transition, which drops the round. */
  function Decide(s: State, t: TxId, accept: bool): State {
    s.(status := s.status[t := if accept then Finalized else Rejected], rounds := s.rounds - {t})
  }

  /** Finalization recorded straight into the status map by the vote paths. */
  function Record(s: State, t: TxId): State {
    s.(status := s.status[t := Finalized])
  }

  /** A leader proposes again in the same round: only the timer starts over. */
  function Rearm(s: State, t: TxId, now: nat): State {
    if t in s.status && s.status[t] == FallbackResolution && t in s.rounds
        then s.(rounds := s.rounds[t := s.rounds[t].(at := now)])
    else s
  }

  predicate TimedOut(s: State, t: TxId, now: nat) {
    t in s.rounds && now >= s.rounds[t].at + ROUND_TIMEOUT
  }

  /** One timed-out round: the next slot, or rejection after the last one. */
  function ExpireOne(s: State, t: TxId, now: nat): State
    requires t in s.rounds
  {
    var r := s.rounds[t];
    if r.count >= MAX_ROUNDS then Decide(s, t, false)
    else s.(rounds := s.rounds[t := Round(r.slot + 1, r.count + 1, now)])
  }

  predicate Exhausted(s: State, t: TxId, now: nat) {
    TimedOut(s, t, now) && s.rounds[t].count >= MAX_ROUNDS
  }

  function Expire(s: State, now: nat): State {
    var out := set t | t in s.rounds && Exhausted(s, t, now);
    s.(status := map t | t in s.status.Keys + out :: if t in out then Rejected else s.status[t],
       rounds := map t | t in s.rounds && t !in out ::
         if TimedOut(s, t, now) then Round(s.rounds[t].slot + 1, s.rounds[t].count + 1, now) else s.rounds[t])
  }

  function Stalled(s: State): set<TxId> {
    set t | t in s.status && s.status[t] == FallbackResolution
  }

  /** Drops the votes on proposals for `t`. */
  function DropVotes(s: State, t: TxId): State {
    s.(votes := map p | p in s.votes && !(p in s.proposals && s.proposals[p] == t) :: s.votes[p])
  }

  /** A leader's proposal for `t` is registered. */
  function Propose(s: State, p: Proposal, t: TxId): State {
    s.(proposals := s.proposals[p := t])
  }

  function VotesOn(s: State, p: Proposal): seq<Vote> {
    if p in s.votes then s.votes[p] else []
  }

  /** A decision on a proposal settles its transaction, whatever status that has. */
  function Act(s: State, p: Proposal, decision: Option<bool>): State {
    if p in s.proposals && decision.Some? then Decide(s, s.proposals[p], decision.value) else s
  }

  function CastVote(s: State, p: Proposal, vote: Vote, total: nat): State {
    var list := VotesOn(s, p) + [vote];
    Act(s.(votes := s.votes[p := list]), p, Decision(list, total))
  }

  /** What eviction forgets: the round, the proposals for `t`, and votes filed under `t` itself. */
  function Forget(s: State, t: TxId): State {
    Decide(s, t, false).(
      votes := s.votes - {t},
      proposals := map p | p in s.proposals && s.proposals[p] != t :: s.proposals[p])
  }

  /** One eviction after the other. */
  function ForgetAll(s: State, ids: seq<TxId>): State {
    if ids == [] then s else Forget(ForgetAll(s, ids[..|ids| - 1]), ids[|ids| - 1])
  }

  /** Still valid as the node stands, with the statuses of this moment. */
  predicate ValidNow(n: Ledger.Node, s: State, t: TxId) {
    Ledger.StillValid(n.(status := s.status), t)
  }

  /** The turn of `t` when a TimeLock block settles stalled transactions: its preference, if
      it has one, and its validity at that moment decide. */
  function SettleOne(n: Ledger.Node, accepts: map<TxId, bool>, s: State, t: TxId): State {
    DropVotes(Decide(s, t, t in accepts && accepts[t] && ValidNow(n, s, t)), t)
  }

  /** One turn after the other. */
  function SettleAll(n: Ledger.Node, accepts: map<TxId, bool>, s: State, order: seq<TxId>): State {
    if order == [] then s
    else SettleOne(n, accepts, SettleAll(n, accepts, s, order[..|order| - 1]), order[|order| - 1])
  }

  /** The order lists every stalled transaction once. */
  ghost predicate Lists(order: seq<TxId>, stalled: set<TxId>) {
    && (forall i, j :: 0 <= i < j < |order| ==> order[i] != order[j])
    && (forall t :: t in order <==> t in stalled)
  }

  // ----- Fallback votes

  function SideWeight(list: seq<Vote>, side: bool): nat {
    if list == [] then 0
    else SideWeight(list[..|list| - 1], side) + if list[|list| - 1].approve == side then list[|list| - 1].weight else 0
  }

  function Quorum(total: nat): nat {
    total * 2 / 3
  }

  function Decision(list: seq<Vote>, total: nat): Option<bool> {
    if SideWeight(list, true) >= Quorum(total) then Some(true)
    else if SideWeight(list, false) >= Quorum(total) then Some(false)
    else None
  }

  /** Weights of both sides that fit the total and reach the quorum. */
  predicate Tied(total: nat, approve: nat, reject: nat) {
    approve + reject <= total && approve >= Quorum(total) && reject >= Quorum(total)
  }

  /** Both sides can reach the quorum for these four totals and no other. */
  lemma BothSidesIff(total: nat)
    ensures (exists a: nat, r: nat :: Tied(total, a, r)) <==> total in {0, 1, 2, 4}
  {
    if total in {0, 1, 2, 4} { assert Tied(total, Quorum(total), Quorum(total)); }
  }

  lemma {:induction false} SidesGrow(list: seq<Vote>, more: seq<Vote>, side: bool)
    ensures SideWeight(list + more, side) >= SideWeight(list, side)
    decreases |more|
  {
    if more == [] {
      assert list + more == list;
    } else {
      var k := |more| - 1;
      SidesGrow(list, more[..k], side);
      assert (list + more)[..|list| + k] == list + more[..k];
    }
  }

  /** The votes of both sides fit the total. */
  ghost predicate Fits(list: seq<Vote>, total: nat) {
    SideWeight(list, true) + SideWeight(list, false) <= total
  }

  /** Unless the total is 2 or 4, a decision once returned is returned by every later vote on
      the proposal. For totals 0 and 1 every vote approves. */
  lemma DecisionStable(list: seq<Vote>, more: seq<Vote>, total: nat)
    requires total !in {2, 4} && Decision(list, total).Some? && Fits(list + more, total)
    ensures Decision(list + more, total) == Decision(list, total)
  {
    SidesGrow(list, more, true);
    SidesGrow(list, more, false);
    BothSidesIff(total);
    assert total > 1 ==> !Tied(total, SideWeight(list + more, true), SideWeight(list + more, false));
  }

  /** With total weight 2 or 4 a rejection by one half is overturned by the other half. */
  lemma DecisionFlips(total: nat, a: Vote, b: Vote)
    requires total in {2, 4} && a == Vote(1, false, total / 2) && b == Vote(2, true, total / 2)
    ensures Fits([a] + [b], total) && Decision([a], total) == Some(false) && Decision([a] + [b], total) == Some(true)
  {
    var none: seq<Vote> := [];
    assert [a][..0] == none && ([a] + [b])[..1] == [a];
    assert SideWeight(none, true) == 0 && SideWeight(none, false) == 0;
    assert SideWeight([a], true) == 0 && SideWeight([a], false) == total / 2;
    assert SideWeight([a] + [b], true) == total / 2 && SideWeight([a] + [b], false) == total / 2;
  }

  /** Every decision on votes that fit the total is returned by all later votes. */
  ghost predicate DecidesForGood(total: nat) {
    forall list, more :: Decision(list, total).Some? && Fits(list + more, total) ==>
        Decision(list + more, total) == Decision(list, total)
  }

  /** Fallback decisions are final for every total but 2 and 4. */
  lemma DecisionFinalIff(total: nat)
    ensures DecidesForGood(total) <==> total !in {2, 4}
  {
    if total in {2, 4} {
      var a, b := Vote(1, false, total / 2), Vote(2, true, total / 2);
      DecisionFlips(total, a, b);
    } else {
      forall list, more | Decision(list, total).Some? && Fits(list + more, total)
        ensures Decision(list + more, total) == Decision(list, total)
      {
        DecisionStable(list, more, total);
      }
    }
  }

  // ----- TimeLock resolution

  /** Transactions whose preference is Accept and which are still valid. */
  function Accepted(n: Ledger.Node, accepts: map<TxId, bool>, s: State): set<TxId> {
    set t | t in accepts && accepts[t] && ValidNow(n, s, t)
  }

  /** The transactions of `d` settled all at once. */
  function ResolveSome(s: State, accepted: set<TxId>, d: set<TxId>): State {
    State(map t | t in s.status :: if t !in d then s.status[t] else if t in accepted then Finalized else Rejected,
          s.rounds - d,
          map p | p in s.votes && !(p in s.proposals && s.proposals[p] in d) :: s.votes[p],
          s.proposals)
  }

  lemma ResolveMore(s: State, accepted: set<TxId>, d: set<TxId>, t: TxId)
    requires t in s.status && t !in d
    ensures DropVotes(Decide(ResolveSome(s, accepted, d), t, t in accepted), t) == ResolveSome(s, accepted, d + {t})
  {
    var a, b := DropVotes(Decide(ResolveSome(s, accepted, d), t, t in accepted), t), ResolveSome(s, accepted, d + {t});
    assert a.status == b.status;
    assert a.rounds == b.rounds;
    assert a.votes == b.votes;
  }

  lemma ResolveNone(s: State, accepted: set<TxId>)
    ensures ResolveSome(s, accepted, {}) == s
  {
    assert ResolveSome(s, accepted, {}).status == s.status;
    assert ResolveSome(s, accepted, {}).rounds == s.rounds;
    assert ResolveSome(s, accepted, {}).votes == s.votes;
  }

  /** Settling other transactions does not change whether one is valid. */
  lemma SettlingKeepsValidity(n: Ledger.Node, s: State, accepted: set<TxId>, d: set<TxId>, t: TxId)
    requires t !in d
    ensures ValidNow(n, ResolveSome(s, accepted, d), t) == ValidNow(n, s, t)
  {
  }

  /** In whatever order the turns come, they amount to settling all at once by the validity
      before the first. */
  lemma {:induction false} AnyOrderSettles(n: Ledger.Node, accepts: map<TxId, bool>, s: State, order: seq<TxId>)
    requires forall i, j :: 0 <= i < j < |order| ==> order[i] != order[j]
    requires forall t :: t in order ==> t in s.status
    ensures SettleAll(n, accepts, s, order) == ResolveSome(s, Accepted(n, accepts, s), Ids(order))
    decreases |order|
  {
    var accepted := Accepted(n, accepts, s);
    if order == [] {
      ResolveNone(s, accepted);
    } else {
      var k := |order| - 1;
      var t, d := order[k], Ids(order[..k]);
      AnyOrderSettles(n, accepts, s, order[..k]);
      assert t in order && t !in order[..k];
      SettlingKeepsValidity(n, s, accepted, d, t);
      ResolveMore(s, accepted, d, t);
      assert order == order[..k] + [t];
      assert Ids(order) == d + {t};
    }
  }

  /** What a TimeLock block leaves behind: nothing is in fallback; what was is finalized
      exactly when its preference was Accept and it was valid, rejected otherwise; nothing
      else changes status; the votes and rounds that go are those of settled transactions. */
  ghost predicate Settled(n: Ledger.Node, accepts: map<TxId, bool>, s: State, s': State) {
    && Stalled(s') == {} && s'.status.Keys == s.status.Keys && s'.proposals == s.proposals
    && (forall t :: t in Stalled(s) ==>
          s'.status[t] == if t in accepts && accepts[t] && ValidNow(n, s, t) then Finalized else Rejected)
    && (forall t :: t in s.status && t !in Stalled(s) ==> s'.status[t] == s.status[t])
    && (forall p :: p in s.votes ==> (p in s'.votes <==> p !in s.proposals || s.proposals[p] !in Stalled(s)))
    && (forall p :: p in s'.votes ==> p in s.votes && s'.votes[p] == s.votes[p])
    && (forall t :: t in s'.rounds <==> t in s.rounds && t !in Stalled(s))
    && (forall t :: t in s'.rounds ==> s'.rounds[t] == s.rounds[t])
  }

  /** Validity is looked up anew at each turn, after earlier turns changed statuses; the
      outcome is the same in every order. */
  lemma TimeLockSettles(n: Ledger.Node, accepts: map<TxId, bool>, s: State, order: seq<TxId>)
    requires Lists(order, Stalled(s))
    ensures Settled(n, accepts, s, SettleAll(n, accepts, s, order))
  {
    AnyOrderSettles(n, accepts, s, order);
    assert Ids(order) == Stalled(s);
    ResolveSettles(n, accepts, s);
  }

  lemma ResolveSettles(n: Ledger.Node, accepts: map<TxId, bool>, s: State)
    ensures Settled(n, accepts, s, ResolveSome(s, Accepted(n, accepts, s), Stalled(s)))
  {
  }

  // ----- Runs

  datatype Op =
    | ToVoting(t: TxId)
    | ToFallback(t: TxId, now: nat)
    | ToDecided(t: TxId, accept: bool)
    | Recorded(t: TxId)
    | Evicted(t: TxId)
    | Proposed(p: Proposal, t: TxId)
    | Voted(p: Proposal, vote: Vote, total: nat)
    | LeaderActs(t: TxId, now: nat)
    | TimeoutCheck(now: nat)
    | TimeLock(n: Ledger.Node, accepts: map<TxId, bool>)

  function Apply(s: State, op: Op): State {
    match op
    case ToVoting(t) => EnterVoting(s, t)
    case ToFallback(t, now) => EnterFallback(s, t, now)
    case ToDecided(t, accept) => Decide(s, t, accept)
    case Recorded(t) => Record(s, t)
    case Evicted(t) => Forget(s, t)
    case Proposed(p, t) => Propose(s, p, t)
    case Voted(p, vote, total) => CastVote(s, p, vote, total)
    case LeaderActs(t, now) => Rearm(s, t, now)
    case TimeoutCheck(now) => Expire(s, now)
    case TimeLock(n, accepts) => ResolveSome(s, Accepted(n, accepts, s), Stalled(s))
  }

  function After(s: State, ops: seq<Op>): State {
    if ops == [] then s else Apply(After(s, ops[..|ops| - 1]), ops[|ops| - 1])
  }

  /** Slot at the latest entry of each transaction into FallbackResolution. */
  function Starts(ops: seq<Op>): map<TxId, nat> {
    if ops == [] then map[]
    else
      var before, op := Starts(ops[..|ops| - 1]), ops[|ops| - 1];
      if op.ToFallback? then before[op.t := op.now / SLOT_SECS] else before
  }

  ghost predicate RoundsFollow(s: State, starts: map<TxId, nat>) {
    && (forall t :: t in s.rounds ==>
         t in starts && s.rounds[t].slot == starts[t] + s.rounds[t].count && s.rounds[t].count <= MAX_ROUNDS)
    && (forall t :: t in Stalled(s) ==> t in s.rounds)
  }

  lemma StepFollows(s: State, starts: map<TxId, nat>, op: Op)
    requires RoundsFollow(s, starts)
    ensures RoundsFollow(Apply(s, op), if op.ToFallback? then starts[op.t := op.now / SLOT_SECS] else starts)
  {
    match op
    case ToVoting(t) => StatusFollows(s, EnterVoting(s, t), starts);
    case ToFallback(t, now) => EnterFollows(s, starts, t, now);
    case ToDecided(t, accept) => DecideFollows(s, starts, t, accept);
    case Recorded(t) => StatusFollows(s, Record(s, t), starts);
    case Evicted(t) => DecideFollows(s, starts, t, false);
    case Proposed(p, t) => StatusFollows(s, Propose(s, p, t), starts);
    case Voted(p, vote, total) => VoteFollows(s, starts, p, vote, total);
    case LeaderActs(t, now) => RearmFollows(s, starts, t, now);
    case TimeoutCheck(now) => ExpireFollows(s, starts, now);
    case TimeLock(n, accepts) => ResolveFollows(s, starts, Accepted(n, accepts, s));
  }

  lemma VoteFollows(s: State, starts: map<TxId, nat>, p: Proposal, vote: Vote, total: nat)
    requires RoundsFollow(s, starts)
    ensures RoundsFollow(CastVote(s, p, vote, total), starts)
  {
    var list := VotesOn(s, p) + [vote];
    ActFollows(s.(votes := s.votes[p := list]), starts, p, Decision(list, total));
  }

  /** Rounds as before and nothing newly in fallback. */
  lemma StatusFollows(s: State, s': State, starts: map<TxId, nat>)
    requires RoundsFollow(s, starts) && s'.rounds == s.rounds && Stalled(s') <= Stalled(s)
    ensures RoundsFollow(s', starts)
  {
  }

  lemma EnterFollows(s: State, starts: map<TxId, nat>, t: TxId, now: nat)
    requires RoundsFollow(s, starts)
    ensures RoundsFollow(EnterFallback(s, t, now), starts[t := now / SLOT_SECS])
  {
  }

  lemma DecideFollows(s: State, starts: map<TxId, nat>, t: TxId, accept: bool)
    requires RoundsFollow(s, starts)
    ensures RoundsFollow(Decide(s, t, accept), starts)
  {
  }

  lemma RearmFollows(s: State, starts: map<TxId, nat>, t: TxId, now: nat)
    requires RoundsFollow(s, starts)
    ensures RoundsFollow(Rearm(s, t, now), starts)
  {
  }

  lemma ExpireFollows(s: State, starts: map<TxId, nat>, now: nat)
    requires RoundsFollow(s, starts)
    ensures RoundsFollow(Expire(s, now), starts)
  {
    forall t | t in Stalled(Expire(s, now))
      ensures t in Expire(s, now).rounds
    {
      assert t in Stalled(s);
    }
  }

  lemma ResolveFollows(s: State, starts: map<TxId, nat>, accepted: set<TxId>)
    requires RoundsFollow(s, starts)
    ensures RoundsFollow(ResolveSome(s, accepted, Stalled(s)), starts)
  {
  }

  lemma ActFollows(s: State, starts: map<TxId, nat>, p: Proposal, decision: Option<bool>)
    requires RoundsFollow(s, starts)
    ensures RoundsFollow(Act(s, p, decision), starts)
  {
  }

  /** In every run the slot is the starting slot plus the number of expired rounds, at most
      five, and every transaction in fallback has a round. */
  lemma {:induction false} RunFollows(ops: seq<Op>)
    ensures RoundsFollow(After(NOTHING, ops), Starts(ops))
    decreases |ops|
  {
    if ops != [] {
      var k := |ops| - 1;
      RunFollows(ops[..k]);
      StepFollows(After(NOTHING, ops[..k]), Starts(ops[..k]), ops[k]);
    }
  }

  /** Entry into fallback takes the slot of the moment, with no round spent and ten seconds
      for the first. */
  lemma EntryStartsRound(s: State, t: TxId, now: nat, later: nat)
    ensures var s' := EnterFallback(s, t, now);
      && t in Stalled(s') && t in s'.rounds && s'.rounds[t].count == 0
      && 600 * s'.rounds[t].slot <= now < 600 * (s'.rounds[t].slot + 1)
      && (TimedOut(s', t, later) <==> later >= now + 10)
      && s'.rounds - {t} == s.rounds - {t} && s'.status - {t} == s.status - {t}
  {
  }

  /** A leader that acts gives the round of a stalled transaction ten more seconds, and
      changes nothing else. */
  lemma RearmDelays(s: State, t: TxId, now: nat, later: nat)
    requires t in Stalled(s) && t in s.rounds
    ensures var s' := Rearm(s, t, now);
      && (TimedOut(s', t, later) <==> later >= now + 10)
      && s'.rounds[t].slot == s.rounds[t].slot && s'.rounds[t].count == s.rounds[t].count
      && s' == s.(rounds := s'.rounds) && s'.rounds - {t} == s.rounds - {t}
  {
  }

  /** Leaves the status of `t` to timeouts and leaders. */
  ghost predicate LeavesAlone(s: State, op: Op, t: TxId) {
    match op
    case TimeoutCheck(_) => true
    case LeaderActs(_, _) => true
    case Proposed(_, _) => true
    case Voted(p, _, _) => !(p in s.proposals && s.proposals[p] == t)
    case TimeLock(_, _) => false
    case _ => op.t != t
  }

  ghost predicate LeftAlone(s: State, ops: seq<Op>, t: TxId) {
    ops == [] || (LeftAlone(s, ops[..|ops| - 1], t) && LeavesAlone(After(s, ops[..|ops| - 1]), ops[|ops| - 1], t))
  }

  /** How many checks of the run found the round of `t` expired. */
  function Expiries(s: State, ops: seq<Op>, t: TxId): nat {
    if ops == [] then 0
    else
      var before, op := ops[..|ops| - 1], ops[|ops| - 1];
      Expiries(s, before, t) + if op.TimeoutCheck? && TimedOut(After(s, before), t, op.now) then 1 else 0
  }

  /** After `k` expiries of a round that started at `slot`. */
  ghost predicate AfterExpiries(s: State, t: TxId, slot: nat, k: nat) {
    if k <= MAX_ROUNDS then
      && t in s.status && s.status[t] == FallbackResolution
      && t in s.rounds && s.rounds[t].slot == slot + k && s.rounds[t].count == k
    else
      k == MAX_ROUNDS + 1 && t in s.status && s.status[t] == Rejected && t !in s.rounds
  }

  lemma StepExpiries(s: State, t: TxId, slot: nat, k: nat, op: Op)
    requires AfterExpiries(s, t, slot, k) && LeavesAlone(s, op, t)
    ensures AfterExpiries(Apply(s, op), t, slot, k + if op.TimeoutCheck? && TimedOut(s, t, op.now) then 1 else 0)
  {
    match op
    case TimeoutCheck(now) => ExpireExpiries(s, t, slot, k, now);
    case Voted(p, vote, total) =>
      var list := VotesOn(s, p) + [vote];
      ActExpiries(s.(votes := s.votes[p := list]), t, slot, k, p, Decision(list, total));
    case LeaderActs(u, now) => RearmExpiries(s, t, slot, k, u, now);
    case _ =>
  }

  lemma ExpireExpiries(s: State, t: TxId, slot: nat, k: nat, now: nat)
    requires AfterExpiries(s, t, slot, k)
    ensures AfterExpiries(Expire(s, now), t, slot, k + if TimedOut(s, t, now) then 1 else 0)
  {
  }

  lemma ActExpiries(s: State, t: TxId, slot: nat, k: nat, p: Proposal, decision: Option<bool>)
    requires AfterExpiries(s, t, slot, k) && !(p in s.proposals && s.proposals[p] == t)
    ensures AfterExpiries(Act(s, p, decision), t, slot, k)
  {
  }

  lemma RearmExpiries(s: State, t: TxId, slot: nat, k: nat, u: TxId, now: nat)
    requires AfterExpiries(s, t, slot, k)
    ensures AfterExpiries(Rearm(s, u, now), t, slot, k)
  {
  }

  /** From an entry into fallback, five expiries move the slot on by one each; the sixth
      rejects the transaction and drops its round, and leaders change neither. */
  lemma {:induction false} SixthExpiryRejects(s: State, t: TxId, now: nat, ops: seq<Op>)
    requires LeftAlone(EnterFallback(s, t, now), ops, t)
    ensures var s0 := EnterFallback(s, t, now);
      AfterExpiries(After(s0, ops), t, now / SLOT_SECS, Expiries(s0, ops, t))
    decreases |ops|
  {
    var s0 := EnterFallback(s, t, now);
    if ops != [] {
      var k := |ops| - 1;
      SixthExpiryRejects(s, t, now, ops[..k]);
      StepExpiries(After(s0, ops[..k]), t, now / SLOT_SECS, Expiries(s0, ops[..k], t), ops[k]);
    }
  }

  // ----- Finalized transactions and stale rounds

  ghost predicate KeepsFinalized(s: State, s': State) {
    forall t :: t in s.status && s.status[t] == Finalized ==> t in s'.status && s'.status[t] == Finalized
  }

  predicate IsFinalized(s: State, t: TxId) {
    t in s.status && s.status[t] == Finalized
  }

  /** The operation takes a finalized transaction back: a return to voting or fallback, an
      eviction, a rejection, a vote that completes a quorum of rejections on a proposal for it,
      or a timeout check that finds its last round run out. No other test is made. */
  ghost predicate Unfinalizes(s: State, op: Op) {
    match op
    case ToVoting(t) => IsFinalized(s, t)
    case ToFallback(t, _) => IsFinalized(s, t)
    case ToDecided(t, accept) => !accept && IsFinalized(s, t)
    case Evicted(t) => IsFinalized(s, t)
    case Voted(p, vote, total) =>
      p in s.proposals && IsFinalized(s, s.proposals[p]) && Decision(VotesOn(s, p) + [vote], total) == Some(false)
    case TimeoutCheck(now) => exists t :: IsFinalized(s, t) && Exhausted(s, t, now)
    case _ => false
  }

  /** A timeout check leaves finalized transactions finalized exactly when none of them has
      a last round that ran out. */
  lemma ExpireKeepsFinalizedIff(s: State, now: nat)
    ensures KeepsFinalized(s, Expire(s, now)) <==> !exists t :: IsFinalized(s, t) && Exhausted(s, t, now)
  {
    if exists t :: IsFinalized(s, t) && Exhausted(s, t, now) {
      var t :| IsFinalized(s, t) && Exhausted(s, t, now);
      assert Expire(s, now).status[t] == Rejected;
    }
  }

  /** One transaction gets another status. */
  lemma OneStatusKeepsIff(s: State, s': State, t: TxId, x: Status)
    requires s'.status == s.status[t := x]
    ensures KeepsFinalized(s, s') <==> x == Finalized || !IsFinalized(s, t)
  {
    if x != Finalized && IsFinalized(s, t) { assert s'.status[t] != Finalized; }
  }

  lemma ActKeepsFinalizedIff(s: State, p: Proposal, decision: Option<bool>)
    ensures KeepsFinalized(s, Act(s, p, decision)) <==>
        !(p in s.proposals && IsFinalized(s, s.proposals[p]) && decision == Some(false))
  {
    if p in s.proposals && decision.Some? {
      OneStatusKeepsIff(s, Act(s, p, decision), s.proposals[p], if decision.value then Finalized else Rejected);
    }
  }

  /** Every operation leaves finalized transactions finalized unless it is one of those. */
  lemma StepKeepsFinalizedIff(s: State, op: Op)
    ensures KeepsFinalized(s, Apply(s, op)) <==> !Unfinalizes(s, op)
  {
    match op
    case ToVoting(t) => OneStatusKeepsIff(s, Apply(s, op), t, Voting);
    case ToFallback(t, _) => OneStatusKeepsIff(s, Apply(s, op), t, FallbackResolution);
    case ToDecided(t, accept) => OneStatusKeepsIff(s, Apply(s, op), t, if accept then Finalized else Rejected);
    case Recorded(t) => OneStatusKeepsIff(s, Apply(s, op), t, Finalized);
    case Evicted(t) => OneStatusKeepsIff(s, Apply(s, op), t, Rejected);
    case Voted(p, vote, total) =>
      var list := VotesOn(s, p) + [vote];
      ActKeepsFinalizedIff(s.(votes := s.votes[p := list]), p, Decision(list, total));
    case TimeoutCheck(now) => ExpireKeepsFinalizedIff(s, now);
    case _ =>
  }

  /** What is finalized at any point of the run is finalized from then on. */
  ghost predicate FinalForGood(s: State, ops: seq<Op>) {
    forall i, j :: 0 <= i <= j <= |ops| ==> KeepsFinalized(After(s, ops[..i]), After(s, ops[..j]))
  }

  /** No operation of the run takes a finalized transaction back. */
  ghost predicate NeverUnfinalizes(s: State, ops: seq<Op>) {
    ops == [] || (NeverUnfinalizes(s, ops[..|ops| - 1]) && !Unfinalizes(After(s, ops[..|ops| - 1]), ops[|ops| - 1]))
  }

  lemma {:induction false} NeverUnfinalizesPrefix(s: State, ops: seq<Op>, k: nat)
    requires NeverUnfinalizes(s, ops) && k <= |ops|
    ensures NeverUnfinalizes(s, ops[..k])
    decreases |ops|
  {
    if k == |ops| {
      assert ops[..k] == ops;
    } else {
      NeverUnfinalizesPrefix(s, ops[..|ops| - 1], k);
      assert ops[..|ops| - 1][..k] == ops[..k];
    }
  }

  lemma {:induction false} FinalThrough(s: State, ops: seq<Op>, i: nat)
    requires NeverUnfinalizes(s, ops) && i <= |ops|
    ensures KeepsFinalized(After(s, ops[..i]), After(s, ops))
    decreases |ops|
  {
    if i == |ops| {
      assert ops[..i] == ops;
    } else {
      var k := |ops| - 1;
      FinalThrough(s, ops[..k], i);
      assert ops[..k][..i] == ops[..i];
      StepKeepsFinalizedIff(After(s, ops[..k]), ops[k]);
    }
  }

  lemma FinalPrefix(s: State, ops: seq<Op>, k: nat)
    requires FinalForGood(s, ops) && k <= |ops|
    ensures FinalForGood(s, ops[..k]) && KeepsFinalized(After(s, ops[..k]), After(s, ops))
  {
    forall i, j | 0 <= i <= j <= k
      ensures KeepsFinalized(After(s, ops[..k][..i]), After(s, ops[..k][..j]))
    {
      assert ops[..k][..i] == ops[..i] && ops[..k][..j] == ops[..j];
    }
    assert ops[..|ops|] == ops && KeepsFinalized(After(s, ops[..k]), After(s, ops[..|ops|]));
  }

  lemma {:induction false} FinalMeansNever(s: State, ops: seq<Op>)
    requires FinalForGood(s, ops)
    ensures NeverUnfinalizes(s, ops)
    decreases |ops|
  {
    if ops != [] {
      var k := |ops| - 1;
      FinalPrefix(s, ops, k);
      FinalMeansNever(s, ops[..k]);
      StepKeepsFinalizedIff(After(s, ops[..k]), ops[k]);
    }
  }

  /** Over a whole run finalized transactions stay finalized exactly when no operation of it
      takes one back. */
  lemma {:induction false} RunKeepsFinalizedIff(s: State, ops: seq<Op>)
    ensures FinalForGood(s, ops) <==> NeverUnfinalizes(s, ops)
  {
    if NeverUnfinalizes(s, ops) {
      forall i, j | 0 <= i <= j <= |ops|
        ensures KeepsFinalized(After(s, ops[..i]), After(s, ops[..j]))
      {
        NeverUnfinalizesPrefix(s, ops, j);
        FinalThrough(s, ops[..j], i);
        assert ops[..j][..i] == ops[..i];
      }
    }
    if FinalForGood(s, ops) { FinalMeansNever(s, ops); }
  }

  /** Only transactions in fallback have a round. */
  ghost predicate Clean(s: State) {
    s.rounds.Keys <= Stalled(s)
  }

  /** Operations keep that so, except recording a finalization, or a return to voting, of a
      transaction that has a round. */
  lemma StepCleanIff(s: State, op: Op)
    requires Clean(s)
    ensures Clean(Apply(s, op)) <==> ((op.Recorded? || op.ToVoting?) ==> op.t !in s.rounds)
  {
    var s' := Apply(s, op);
    if op.TimeLock? { assert s'.rounds.Keys == s.rounds.Keys - Stalled(s); }
    if op.ToDecided? || op.Evicted? { assert s'.rounds.Keys == s.rounds.Keys - {op.t}; }
    if op.Voted? && s' != s.(votes := s'.votes) { assert s'.rounds.Keys == s.rounds.Keys - {s.proposals[op.p]}; }
    if (op.Recorded? || op.ToVoting?) && op.t in s.rounds {
      assert op.t in s'.rounds.Keys && op.t !in Stalled(s');
    }
  }

  lemma CleanKeepsFinalized(s: State, now: nat)
    requires Clean(s)
    ensures KeepsFinalized(s, Expire(s, now))
  {
    ExpireKeepsFinalizedIff(s, now);
    forall t | IsFinalized(s, t)
      ensures t !in s.rounds
    {
      assert t !in Stalled(s);
    }
  }

  /** A finalization recorded while the transaction is in its last round is undone when
      that round runs out. */
  lemma RecordedThenRejected(s: State, t: TxId, now: nat)
    requires t in s.rounds && s.rounds[t].count == MAX_ROUNDS && now >= s.rounds[t].at + ROUND_TIMEOUT
    ensures Record(s, t).status[t] == Finalized && Expire(Record(s, t), now).status[t] == Rejected
  {
    assert Exhausted(Record(s, t), t, now);
  }

  /** Transaction 1 enters fallback and sees `k` of its rounds run out. */
  function LateRun(k: nat): seq<Op> {
    if k == 0 then [ToFallback(1, 0)] else LateRun(k - 1) + [TimeoutCheck(k * ROUND_TIMEOUT)]
  }

  /** What the tracker holds then. */
  function LateState(k: nat): State {
    State(map[1 := FallbackResolution], map[1 := Round(k, k, k * ROUND_TIMEOUT)], map[], map[])
  }

  lemma AfterOp(s: State, ops: seq<Op>, op: Op)
    ensures After(s, ops + [op]) == Apply(After(s, ops), op)
  {
    assert (ops + [op])[..|ops|] == ops;
  }

  lemma {:induction false} LateRounds(k: nat)
    requires k <= MAX_ROUNDS
    ensures After(NOTHING, LateRun(k)) == LateState(k)
  {
    if k == 0 {
      LateStart();
    } else {
      LateRounds(k - 1);
      LateNext(NOTHING, LateRun(k - 1), k);
    }
  }

  lemma LateNext(s: State, ops: seq<Op>, k: nat)
    requires 0 < k <= MAX_ROUNDS && After(s, ops) == LateState(k - 1)
    ensures After(s, ops + [TimeoutCheck(k * ROUND_TIMEOUT)]) == LateState(k)
  {
    AfterOp(s, ops, TimeoutCheck(k * ROUND_TIMEOUT));
    LateCheck(LateState(k - 1), k);
  }

  lemma LateStart()
    ensures After(NOTHING, [ToFallback(1, 0)]) == LateState(0)
  {
    AfterOp(NOTHING, [], ToFallback(1, 0));
    assert [] + [ToFallback(1, 0)] == [ToFallback(1, 0)];
  }

  lemma LateCheck(s: State, k: nat)
    requires 0 < k <= MAX_ROUNDS && s == LateState(k - 1)
    ensures Expire(s, k * ROUND_TIMEOUT) == LateState(k)
  {
    var now := k * ROUND_TIMEOUT;
    assert TimedOut(s, 1, now) && !Exhausted(s, 1, now);
    assert Expire(s, now).status == s.status;
    assert Expire(s, now).rounds == map[1 := Round(k, k, now)];
  }

  /** From the empty state: finalized in the sixth round, rejected when it runs out. */
  lemma FinalizedThenRejected()
    ensures var run := LateRun(MAX_ROUNDS) + [Recorded(1)];
      && After(NOTHING, run).status == map[1 := Finalized]
      && 1 in After(NOTHING, run + [TimeoutCheck(60)]).status &&
           After(NOTHING, run + [TimeoutCheck(60)]).status[1] == Rejected
  {
    var run := LateRun(MAX_ROUNDS) + [Recorded(1)];
    assert run[..|run| - 1] == LateRun(MAX_ROUNDS) && (run + [TimeoutCheck(60)])[..|run|] == run;
    LateRounds(MAX_ROUNDS);
    RecordedThenRejected(After(NOTHING, LateRun(MAX_ROUNDS)), 1, 60);
  }

  /** Transaction 1 enters fallback, a leader proposes, and a TimeVote finalization is recorded. */
  function LateVote(): seq<Op> {
    [ToFallback(1, 0), Proposed(9, 1), Recorded(1)]
  }

  lemma LateVoteState(ops: seq<Op>)
    requires ops == LateVote()
    ensures After(NOTHING, ops) == State(map[1 := Finalized], map[1 := Round(0, 0, 0)], map[], map[9 := 1])
  {
    var s1 := NOTHING.(status := map[1 := FallbackResolution], rounds := map[1 := Round(0, 0, 0)]);
    assert ops[..2][..1] == ops[..1] && ops[..1][..0] == [];
    assert After(NOTHING, ops[..1]) == s1;
    assert After(NOTHING, ops[..2]) == s1.(proposals := map[9 := 1]);
  }

  /** From the empty state: a late fallback vote of the whole weight against a transaction that
      is already finalized rejects it. */
  lemma LateVoteUnfinalizes(vote: Vote)
    requires vote == Vote(7, false, 3)
    ensures var s := After(NOTHING, LateVote()); IsFinalized(s, 1) && Unfinalizes(s, Voted(9, vote, 3))
    ensures var s' := After(NOTHING, LateVote() + [Voted(9, vote, 3)]); 1 in s'.status && s'.status[1] == Rejected
  {
    LateVoteState(LateVote());
    var run, none: seq<Vote> := LateVote() + [Voted(9, vote, 3)], [];
    assert run[..|run| - 1] == LateVote();
    assert none + [vote] == [vote] && [vote][..0] == none;
    assert SideWeight(none, true) == 0 && SideWeight(none, false) == 0;
    assert SideWeight([vote], true) == 0 && SideWeight([vote], false) == 3;
  }

  // ----- Eviction

  /** Eviction leaves no votes on proposals for the transaction exactly when none are filed
      under anything but the transaction's own id, which is not how they are filed. */
  lemma ForgetsVotesIff(s: State, t: TxId)
    ensures (forall p :: p in s.proposals && s.proposals[p] == t ==> p !in Forget(s, t).votes) <==>
            (forall p :: p in s.proposals && s.proposals[p] == t && p in s.votes ==> p == t)
  {
    assert Forget(s, t).votes.Keys == s.votes.Keys - {t};
  }

  /** A vote on proposal 9 for transaction 1 outlives the eviction of transaction 1, and with
      the proposal gone no vote on it decides anything. */
  lemma OrphanedVotes(s: State, vote: Vote, more: Vote, total: nat)
    requires s == State(map[1 := FallbackResolution], map[1 := Round(0, 0, 0)], map[9 := [vote]], map[9 := 1])
    ensures var s' := Forget(s, 1);
      && 9 in s'.votes && s'.votes[9] == [vote] && 9 !in s'.proposals
      && CastVote(s', 9, more, total).status == s'.status
  {
  }

  // ----- As an object

  function Out(s: State, now: nat, d: set<TxId>): set<TxId> {
    set t | t in s.rounds && t in d && Exhausted(s, t, now)
  }

  /** `Expire` for the transactions of `d` only. */
  function ExpireSome(s: State, now: nat, d: set<TxId>): State {
    var out := Out(s, now, d);
    s.(status := map t | t in s.status.Keys + out :: if t in out then Rejected else s.status[t],
       rounds := map t | t in s.rounds && t !in out ::
         if t in d && TimedOut(s, t, now) then Round(s.rounds[t].slot + 1, s.rounds[t].count + 1, now) else s.rounds[t])
  }

  lemma ExpireMoreStatus(s: State, now: nat, d: set<TxId>, t: TxId)
    requires TimedOut(s, t, now) && t !in d
    ensures var a, b := ExpireSome(s, now, d), ExpireSome(s, now, d + {t});
      b.status == if Exhausted(s, t, now) then a.status[t := Rejected] else a.status
  {
    assert Out(s, now, d + {t}) == Out(s, now, d) + if Exhausted(s, t, now) then {t} else {};
  }

  lemma ExpireMoreRounds(s: State, now: nat, d: set<TxId>, t: TxId)
    requires TimedOut(s, t, now) && t !in d
    ensures var a, b, r := ExpireSome(s, now, d), ExpireSome(s, now, d + {t}), s.rounds[t];
      && t in a.rounds && a.rounds[t] == r
      && b.rounds == if Exhausted(s, t, now) then a.rounds - {t} else a.rounds[t := Round(r.slot + 1, r.count + 1, now)]
  {
    assert Out(s, now, d + {t}) == Out(s, now, d) + if Exhausted(s, t, now) then {t} else {};
  }

  lemma ExpireMore(s: State, now: nat, d: set<TxId>, t: TxId)
    requires TimedOut(s, t, now) && t !in d
    ensures t in ExpireSome(s, now, d).rounds && ExpireOne(ExpireSome(s, now, d), t, now) == ExpireSome(s, now, d + {t})
  {
    ExpireMoreStatus(s, now, d, t);
    ExpireMoreRounds(s, now, d, t);
  }

  lemma ExpireEnds(s: State, now: nat)
    ensures ExpireSome(s, now, {}) == s
    ensures ExpireSome(s, now, set t | t in s.rounds && TimedOut(s, t, now)) == Expire(s, now)
  {
    ExpireNone(s, now);
    var all := set t | t in s.rounds && TimedOut(s, t, now);
    assert Out(s, now, all) == set t | t in s.rounds && Exhausted(s, t, now);
    assert ExpireSome(s, now, all).status == Expire(s, now).status;
    assert ExpireSome(s, now, all).rounds == Expire(s, now).rounds;
  }

  lemma ExpireNone(s: State, now: nat)
    ensures ExpireSome(s, now, {}) == s
  {
    assert ExpireSome(s, now, {}).status == s.status && ExpireSome(s, now, {}).rounds == s.rounds;
  }

  class FallbackTracker {
    var status: map<TxId, Status>
    var rounds: map<TxId, Round>
    var votes: map<Proposal, seq<Vote>>
    var proposals: map<Proposal, TxId>
    var preference: map<TxId, bool>

    ghost function View(): State
      reads this
    {
      State(status, rounds, votes, proposals)
    }

    method TransitionToFallback(t: TxId, now: nat)
      modifies `status, `rounds
      ensures View() == EnterFallback(old(View()), t, now)
    {
      status := status[t := FallbackResolution];
      rounds := rounds[t := Round(now / SLOT_SECS, 0, now)];
    }

    method TransitionToDecided(t: TxId, accept: bool)
      modifies `status, `rounds
      ensures View() == Decide(old(View()), t, accept)
    {
      status := status[t := if accept then Finalized else Rejected];
      rounds := rounds - {t};
    }

    method ExpireRound(t: TxId, now: nat)
      requires t in rounds
      modifies `status, `rounds
      ensures View() == ExpireOne(old(View()), t, now)
    {
      var r := rounds[t];
      if r.count >= MAX_ROUNDS {
        TransitionToDecided(t, false);
      } else {
        rounds := rounds[t := Round(r.slot + 1, r.count + 1, now)];
      }
    }

    method ExpireNext(ghost s: State, ghost d: set<TxId>, t: TxId, now: nat)
      requires View() == ExpireSome(s, now, d) && TimedOut(s, t, now) && t !in d
      modifies `status, `rounds
      ensures View() == ExpireSome(s, now, d + {t})
    {
      ExpireMore(s, now, d, t);
      ExpireRound(t, now);
    }

    method CheckFallbackTimeouts(now: nat)
      modifies `status, `rounds
      ensures View() == Expire(old(View()), now)
    {
      ghost var s := View();
      var all := set t | t in rounds && now >= rounds[t].at + ROUND_TIMEOUT;
      assert all == set t | t in s.rounds && TimedOut(s, t, now);
      ExpireEnds(s, now);
      var todo := all;
      assert all - todo == {};
      while todo != {}
        invariant todo <= all && View() == ExpireSome(s, now, all - todo)
        decreases |todo|
      {
        var t :| t in todo;
        ExpireNext(s, all - todo, t, now);
        assert all - (todo - {t}) == (all - todo) + {t};
        todo := todo - {t};
      }
      assert all - todo == all;
    }

    method RemoveVotesFor(t: TxId)
      modifies `votes
      ensures View() == DropVotes(old(View()), t)
    {
      var todo := votes.Keys;
      ghost var was := votes;
      while todo != {}
        invariant todo <= was.Keys
        invariant forall p :: p in votes <==> p in was && (p in todo || !(p in proposals && proposals[p] == t))
        invariant forall p :: p in votes ==> votes[p] == was[p]
        decreases |todo|
      {
        var p :| p in todo;
        if p in proposals && proposals[p] == t { votes := votes - {p}; }
        todo := todo - {p};
      }
      assert votes == DropVotes(old(View()), t).votes;
    }

    method StalledList() returns (list: seq<TxId>)
      ensures Lists(list, Stalled(View()))
    {
      list := [];
      var todo := status.Keys;
      while todo != {}
        invariant todo <= status.Keys
        invariant forall t :: t in list <==> t in Stalled(View()) && t !in todo
        invariant forall i, j :: 0 <= i < j < |list| ==> list[i] != list[j]
        decreases |todo|
      {
        var t :| t in todo;
        if status[t] == FallbackResolution { list := list + [t]; }
        todo := todo - {t};
      }
    }

    /** `n` is the node with its pool and outpoints, which the pass does not change. */
    method ResolveStallsViaTimelock(n: Ledger.Node) returns (any: bool)
      modifies `status, `rounds, `votes
      ensures Settled(n, preference, old(View()), View())
      ensures any == (Stalled(old(View())) != {})
    {
      ghost var s := View();
      var list := StalledList();
      for i := 0 to |list|
        invariant View() == SettleAll(n, preference, s, list[..i])
      {
        assert list[..i + 1][..i] == list[..i];
        var t := list[i];
        var valid := Ledger.StillValid(n.(status := status), t);
        TransitionToDecided(t, t in preference && preference[t] && valid);
        RemoveVotesFor(t);
      }
      assert list[..|list|] == list;
      TimeLockSettles(n, preference, s, list);
      any := list != [];
      assert any ==> list[0] in Stalled(s);
    }

    method RemoveProposalsFor(t: TxId)
      modifies `proposals
      ensures proposals == map p | p in old(proposals) && old(proposals)[p] != t :: old(proposals)[p]
    {
      var todo := proposals.Keys;
      ghost var was := proposals;
      while todo != {}
        invariant todo <= was.Keys
        invariant forall p :: p in proposals <==> p in was && (p in todo || was[p] != t)
        invariant forall p :: p in proposals ==> proposals[p] == was[p]
        decreases |todo|
      {
        var p :| p in todo;
        if p in proposals && proposals[p] == t { proposals := proposals - {p}; }
        todo := todo - {p};
      }
    }

    /** What the eviction of a stale transaction clears here. */
    method Evict(t: TxId)
      modifies this
      ensures View() == Forget(old(View()), t) && preference == old(preference) - {t}
    {
      TransitionToDecided(t, false);
      preference := preference - {t};
      votes := votes - {t};
      RemoveProposalsFor(t);
    }

    /** A vote on a proposal and what its decision does to the transaction. */
    method HandleFallbackVote(p: Proposal, vote: Vote, total: nat)
      modifies `status, `rounds, `votes
      ensures View() == CastVote(old(View()), p, vote, total)
    {
      var decision := AccumulateFallbackVote(p, vote, total);
      if decision.Some? && p in proposals { TransitionToDecided(proposals[p], decision.value); }
    }

    method AccumulateFallbackVote(p: Proposal, vote: Vote, total: nat) returns (r: Option<bool>)
      modifies `votes
      ensures p in votes && votes[p] == (if p in old(votes) then old(votes)[p] else []) + [vote] &&
          votes == old(votes)[p := votes[p]]
      ensures r == Decision(votes[p], total)
    {
      var list := (if p in votes then votes[p] else []) + [vote];
      votes := votes[p := list];
      var approve, reject := 0, 0;
      for i := 0 to |list|
        invariant approve == SideWeight(list[..i], true) && reject == SideWeight(list[..i], false)
      {
        assert list[..i + 1][..i] == list[..i];
        if list[i].approve { approve := approve + list[i].weight; } else { reject := reject + list[i].weight; }
      }
      assert list[..|list|] == list;
      var quorum := total * 2 / 3;
      if approve >= quorum { return Some(true); }
      if reject >= quorum { return Some(false); }
      return None;
    }
  }
}
