/** What every run of one node keeps: who can confirm two transactions that share an input,
    and how long a spent input stays spent. */
module FinalitySafety {

  import opened Sums
  import opened Quorum
  import opened Transactions
  import opened Wrappers
  import opened Ledger
  import opened FinalityRuns

  // ----- Confirmed transactions that share an input

  /** Every input of `a` is recorded as spent and has no coin, and nothing pending wants one. */
  ghost predicate Solid(n: Node, a: TxId)
    requires a in n.confirmed
  {
    && (forall o :: o in n.confirmed[a].tx.inputs ==> o in n.tombs && o !in n.coins)
    && (forall b :: b in n.pending ==> !Overlap(n.confirmed[a].tx.inputs, n.pending[b].tx.inputs))
  }

  /** Two transactions of the pool share an input. */
  ghost predicate Clash(pool: map<TxId, Entry>, a: TxId, b: TxId) {
    a in pool && b in pool && a != b && Overlap(pool[a].tx.inputs, pool[b].tx.inputs)
  }

  ghost predicate Inv(env: Env, n: Node, voted: set<TxId>) {
    && Base(env, n)
    && (forall a :: a in n.confirmed ==> a in voted || Solid(n, a))
    && (forall a, b :: Clash(n.confirmed, a, b) ==> a in voted && b in voted)
  }

  lemma CalmSolid(env: Env, n: Node, m: Node, a: TxId)
    requires Calm(env, n, m) && a in n.confirmed && Solid(n, a)
    ensures Solid(m, a)
  {
    forall b | b in m.pending
      ensures !Overlap(n.confirmed[a].tx.inputs, m.pending[b].tx.inputs)
    {
      if !(b in n.pending && m.pending[b].tx == n.pending[b].tx) {
        assert Enters(env, n, b);
      }
    }
  }

  lemma CalmKeeps(env: Env, n: Node, m: Node, voted: set<TxId>)
    requires Inv(env, n, voted) && Calm(env, n, m)
    ensures Inv(env, m, voted)
  {
    CalmBase(env, n, m);
    forall a | a in m.confirmed && a !in voted
      ensures Solid(m, a)
    {
      CalmSolid(env, n, m, a);
    }
  }

  /** A spent outpoint without a coin never gets one back. */
  lemma FinalizeSolid(n: Node, t: TxId, a: TxId)
    requires t in n.pending && a in n.confirmed && a != t && Solid(n, a)
    ensures a in Finalize(n, t).confirmed && Solid(Finalize(n, t), a)
  {
    FinalizeFacts(n, t);
    FinalizeCoins(n, t);
  }

  lemma UnopposedIsSolid(env: Env, n: Node, t: TxId)
    requires Base(env, n) && t in n.pending && Unopposed(n, t)
    ensures Solid(Finalize(n, t), t)
  {
    FinalizeFacts(n, t);
    FinalizeCoins(n, t);
    var ins := n.pending[t].tx.inputs;
    forall o | o in ins
      ensures o in Claimed(n, Elems(ins), t)
    {
      assert !(o in n.utxo && HeldByOther(n.utxo[o], t));
    }
    assert !PoolConflict(n.pending, t, ins);
  }

  /** A finalization by votes, or one that nothing opposes. */
  lemma FinalizeKeeps(env: Env, n: Node, t: TxId, voted: set<TxId>)
    requires Inv(env, n, voted) && t in n.pending && (t in voted || Unopposed(n, t))
    ensures Inv(env, Finalize(n, t), voted)
  {
    var n' := Finalize(n, t);
    FinalizeBase(env, n, t);
    FinalizeFacts(n, t);
    forall a | a in n'.confirmed && a !in voted
      ensures Solid(n', a)
    {
      if a == t { UnopposedIsSolid(env, n, t); } else { FinalizeSolid(n, t, a); }
    }
    FinalizeOverlaps(env, n, t, voted);
  }

  lemma FinalizeOverlaps(env: Env, n: Node, t: TxId, voted: set<TxId>)
    requires Inv(env, n, voted) && t in n.pending && (t in voted || Unopposed(n, t))
    ensures forall a, b :: Clash(Finalize(n, t).confirmed, a, b) ==> a in voted && b in voted
  {
    FinalizeFacts(n, t);
    forall a: TxId, b: TxId | Clash(Finalize(n, t).confirmed, a, b)
      ensures a in voted && b in voted
    {
      if a == t || b == t {
        OverlapIsVoted(env, n, t, if a == t then b else a, voted);
      } else {
        assert Clash(n.confirmed, a, b);
      }
    }
  }

  /** A pending transaction that clashes with a confirmed one has no way but votes. */
  lemma OverlapIsVoted(env: Env, n: Node, t: TxId, a: TxId, voted: set<TxId>)
    requires Inv(env, n, voted) && t in n.pending && a in n.confirmed && a != t
    requires t in voted || Unopposed(n, t)
    requires Overlap(n.pending[t].tx.inputs, n.confirmed[a].tx.inputs) ||
        Overlap(n.confirmed[a].tx.inputs, n.pending[t].tx.inputs)
    ensures a in voted && t in voted
  {
    var ins := n.pending[t].tx.inputs;
    var o :| o in ins && o in n.confirmed[a].tx.inputs;
    assert PoolConflict(n.confirmed, t, ins);
    assert Overlap(n.confirmed[a].tx.inputs, ins);
  }

  /** What every single step keeps. */
  lemma StepKeeps(env: Env, n: Node, s: Step, voted: set<TxId>)
    requires Inv(env, n, voted) && Allowed(env, s)
    ensures Inv(env, Next(env, n, s), voted + if VoteWins(n, s) then {s.t} else {})
  {
    if VoteWins(n, s) {
      VoteShape(env, n, s);
      MoreVoted(env, n, voted, s.t);
      FinalizeKeeps(env, n, s.t, voted + {s.t});
    } else {
      var m, fin := StepShape(env, n, s);
      CalmKeeps(env, n, m, voted);
      if fin {
        FinalizeKeeps(env, m, s.t, voted);
        StillCalm(env, Finalize(m, s.t), Next(env, n, s));
        CalmKeeps(env, Finalize(m, s.t), Next(env, n, s), voted);
      }
      assert voted + {} == voted;
    }
  }

  lemma MoreVoted(env: Env, n: Node, voted: set<TxId>, t: TxId)
    requires Inv(env, n, voted)
    ensures Inv(env, n, voted + {t})
  {
  }

  lemma {:induction false} RunKeeps(env: Env, n: Node, steps: seq<Step>)
    requires Start(env, n) && Run(env, steps)
    ensures Inv(env, After(env, n, steps), Voted(env, n, steps))
    decreases |steps|
  {
    if steps != [] {
      var k := |steps| - 1;
      RunPrefix(env, steps, k);
      RunKeeps(env, n, steps[..k]);
      assert steps[k] in steps;
      StepKeeps(env, After(env, n, steps[..k]), steps[k], Voted(env, n, steps[..k]));
    }
  }

  /** In every run, whatever the votes claim, two confirmed transactions that share an input
      were both confirmed by votes. */
  lemma DoubleSpendIsVoted(env: Env, n: Node, steps: seq<Step>, a: TxId, b: TxId)
    requires Start(env, n) && Run(env, steps)
    requires a != b && a in After(env, n, steps).confirmed && b in After(env, n, steps).confirmed
    requires Overlap(env.body(a).inputs, env.body(b).inputs)
    ensures a in Voted(env, n, steps) && b in Voted(env, n, steps)
  {
    RunKeeps(env, n, steps);
    assert Clash(After(env, n, steps).confirmed, a, b);
  }

  // ----- Who voted

  ghost predicate Cast(steps: seq<Step>, v: Voter, t: TxId) {
    exists x :: AcceptVote(v, x, t) in steps
  }

  /** Validators that accepted `t` at some point of the run. */
  ghost function Acceptors(w: map<Voter, nat>, steps: seq<Step>, t: TxId): set<Voter> {
    set v | v in w.Keys && Cast(steps, v, t)
  }

  /** One validator set over the whole run: each vote is a validator's and claims its weight,
      and rounds are held against the total weight. The code looks up the voter among the
      validators of the moment and does not check the weight. */
  ghost predicate Registered(w: map<Voter, nat>, steps: seq<Step>) {
    && (forall s :: s in steps && s.AcceptVote? ==> s.voter in w && s.weight == w[s.voter])
    && (forall s :: s in steps && s.VotingRound? ==> s.total == Weight(w, w.Keys))
  }

  /** Every threshold of the run is at least `percent` of the total weight. */
  ghost predicate Demands(w: map<Voter, nat>, percent: nat, steps: seq<Step>) {
    var least := CeilDiv(Weight(w, w.Keys) * percent, 100);
    && (forall s :: s in steps && s.ReachThreshold? ==> s.threshold >= least)
    && (forall s :: s in steps && s.VotingRound? ==> VoteFinalityThreshold(s.total, s.elapsed).0 >= least)
  }

  ghost predicate VoteCast(w: map<Voter, nat>, steps: seq<Step>, v: Voter, x: nat, t: TxId) {
    v in w && x == w[v] && AcceptVote(v, x, t) in steps
  }

  ghost predicate VotesWereCast(w: map<Voter, nat>, votes: map<TxId, map<Voter, nat>>, steps: seq<Step>) {
    forall t, v :: t in votes && v in votes[t] ==> VoteCast(w, steps, v, votes[t][v], t)
  }

  lemma LockVotes(n: Node, t: TxId, tx: Tx, ctx: Context)
    ensures LockAndValidate(n, t, tx, ctx).0.votes == n.votes && VoteRequest(n, t, tx, ctx).votes == n.votes
  {
  }

  lemma ProcessVotes(n: Node, t: TxId, tx: Tx, fee: nat, ctx: Context)
    ensures Process(n, t, tx, fee, ctx).0.votes == n.votes
  {
    FinalizeFacts(Admit(n, t, tx, fee), t);
  }

  lemma SubmitVotes(n: Node, t: TxId, tx: Tx, ctx: Context)
    ensures Submit(n, t, tx, ctx).0.votes == n.votes && Broadcast(n, t, tx, ctx).votes == n.votes
  {
    LockVotes(n, t, tx, ctx);
    var (n1, r) := LockAndValidate(n, t, tx, ctx);
    if r.Ok? { ProcessVotes(n1, t, tx, r.value, ctx); }
  }

  lemma PeerVotes(n: Node, t: TxId, tx: Tx, ctx: Context)
    ensures PeerFinalized(n, t, tx, ctx).votes == n.votes
  {
    if t in n.pending {
      ConfirmVotes(n, t);
    } else {
      LockVotes(n, t, tx, ctx);
      var (n1, r) := LockAndValidate(n, t, tx, ctx);
      EnterVotes(n1, t, tx, r);
    }
  }

  lemma EnterVotes(n: Node, t: TxId, tx: Tx, r: Result<nat>)
    ensures EnterConfirmed(n, t, tx, r).votes == n.votes
  {
    if r.Ok? { ConfirmVotes(Admit(n, t, tx, r.value), t); }
  }

  lemma ConfirmVotes(n: Node, t: TxId)
    requires t in n.pending
    ensures ConfirmPending(n, t).votes == n.votes
  {
    FinalizeFacts(n, t);
  }

  lemma TallyVotes(n: Node, t: TxId, weight: nat, threshold: nat, elapsed: nat, deadline: nat, total: nat, accept: bool)
    ensures VoteThreshold(n, t, weight, threshold).votes == n.votes
    ensures VoteTimeout(n, t, elapsed, deadline, weight, total, accept).votes == n.votes
  {
    if t in n.pending { FinalizeFacts(n, t); }
  }

  lemma SettleVotes(n: Node, t: TxId)
    requires t in n.pending
    ensures Settle(n, t).votes == n.votes
  {
    FinalizeFacts(RejectAll(n, Competitors(n, t, n.pending[t].tx.inputs)), t);
  }

  lemma ResumeVotes(n: Node, t: TxId, r: Result<nat>)
    requires t in n.pending
    ensures Resume(n, t, r).votes == n.votes
  {
    if r.Ok? {
      SettleVotes(if n.pending[t].fee == 0 && r.value > 0 then Admit(n, t, n.pending[t].tx, r.value) else n, t);
    }
  }

  lemma RecoverVotes(n: Node, t: TxId, ctx: Context)
    ensures Recover(n, t, ctx).votes == n.votes
  {
    if t in n.pending {
      var tx := n.pending[t].tx;
      var n1 := Relock(n, tx.inputs, t, ctx.now);
      ResumeVotes(n1, t, Validate(n1, t, tx, ctx));
    }
  }

  /** Only votes and evictions touch the stored votes. */
  lemma StepVotes(env: Env, n: Node, s: Step)
    ensures !s.AcceptVote? && !s.EvictTx? ==> Next(env, n, s).votes == n.votes
    ensures s.EvictTx? ==> forall t :: t in Next(env, n, s).votes ==>
        t in n.votes && Next(env, n, s).votes[t] == n.votes[t]
  {
    match s
    case SubmitTx(t, ctx) => SubmitVotes(n, t, env.body(t), ctx);
    case GossipTx(t, ctx) => SubmitVotes(n, t, env.body(t), ctx);
    case SyncTx(t, fee, ctx) => ProcessVotes(n, t, env.body(t), fee, ctx);
    case RequestVote(t, ctx) => LockVotes(n, t, env.body(t), ctx);
    case ReachThreshold(t, threshold) => TallyVotes(n, t, Claim(n, t), threshold, 0, 0, 0, true);
    case VotingRound(t, elapsed, deadline, total, accept) =>
        TallyVotes(n, t, Claim(n, t), 0, elapsed, deadline, total, accept);
    case RecoverTx(t, ctx) => RecoverVotes(n, t, ctx);
    case FinalizedByPeer(t, ctx) => PeerVotes(n, t, env.body(t), ctx);
    case _ =>
  }

  lemma StepCast(env: Env, n: Node, s: Step, w: map<Voter, nat>, steps: seq<Step>)
    requires VotesWereCast(w, n.votes, steps) && (s.AcceptVote? ==> s.voter in w && s.weight == w[s.voter])
    ensures VotesWereCast(w, Next(env, n, s).votes, steps + [s])
  {
    StepVotes(env, n, s);
    if s.AcceptVote? {
      StoredCast(w, n, s.voter, s.weight, s.t, steps);
    } else {
      FewerCast(w, n.votes, Next(env, n, s).votes, steps, s);
    }
  }

  lemma StoredCast(w: map<Voter, nat>, n: Node, v: Voter, x: nat, t: TxId, steps: seq<Step>)
    requires VotesWereCast(w, n.votes, steps) && v in w && x == w[v]
    ensures VotesWereCast(w, StoreVote(n, v, x, t).votes, steps + [AcceptVote(v, x, t)])
  {
    var votes := StoreVote(n, v, x, t).votes;
    forall u, y | u in votes && y in votes[u]
      ensures VoteCast(w, steps + [AcceptVote(v, x, t)], y, votes[u][y], u)
    {
      assert u in n.votes && y in n.votes[u] ==> VoteCast(w, steps, y, n.votes[u][y], u);
    }
  }

  lemma FewerCast(w: map<Voter, nat>, votes: map<TxId, map<Voter, nat>>, fewer: map<TxId, map<Voter, nat>>,
      steps: seq<Step>, s: Step)
    requires VotesWereCast(w, votes, steps) && forall t :: t in fewer ==> t in votes && fewer[t] == votes[t]
    ensures VotesWereCast(w, fewer, steps + [s])
  {
    forall t, v | t in fewer && v in fewer[t]
      ensures VoteCast(w, steps + [s], v, fewer[t][v], t)
    {
      assert VoteCast(w, steps, v, votes[t][v], t);
    }
  }

  lemma {:induction false} RunCast(env: Env, n: Node, w: map<Voter, nat>, steps: seq<Step>)
    requires Start(env, n) && Registered(w, steps)
    ensures VotesWereCast(w, After(env, n, steps).votes, steps)
    decreases |steps|
  {
    if steps != [] {
      var k := |steps| - 1;
      RegisteredPrefix(w, steps, k);
      RunCast(env, n, w, steps[..k]);
      assert steps[k] in steps && steps[..k] + [steps[k]] == steps;
      StepCast(env, After(env, n, steps[..k]), steps[k], w, steps[..k]);
    }
  }

  lemma RegisteredPrefix(w: map<Voter, nat>, steps: seq<Step>, k: nat)
    requires Registered(w, steps) && k <= |steps|
    ensures Registered(w, steps[..k])
    ensures forall p :: Demands(w, p, steps) ==> Demands(w, p, steps[..k])
  {
    assert forall s :: s in steps[..k] ==> s in steps;
  }

  /** What registered votes claim is carried by the validators who cast them. */
  lemma ClaimIsWeight(w: map<Voter, nat>, n: Node, steps: seq<Step>, t: TxId)
    requires VotesWereCast(w, n.votes, steps)
    ensures Claim(n, t) <= Weight(w, Acceptors(w, steps, t))
  {
    var votes := VotesFor(n, t);
    forall v | v in votes
      ensures v in Acceptors(w, steps, t) && votes[v] == w[v]
    {
      assert VoteCast(w, steps, v, n.votes[t][v], t);
    }
    TotalAgree(votes, w, votes.Keys);
    TotalSubset(w, votes.Keys, Acceptors(w, steps, t));
  }

  lemma MoreAcceptors(w: map<Voter, nat>, steps: seq<Step>, k: nat, t: TxId)
    requires k <= |steps|
    ensures Weight(w, Acceptors(w, steps[..k], t)) <= Weight(w, Acceptors(w, steps, t))
  {
    forall v | v in Acceptors(w, steps[..k], t)
      ensures v in Acceptors(w, steps, t)
    {
      var x :| AcceptVote(v, x, t) in steps[..k];
      assert AcceptVote(v, x, t) in steps;
    }
    TotalSubset(w, Acceptors(w, steps[..k], t), Acceptors(w, steps, t));
  }

  /** A transaction confirmed by votes was accepted by `percent` of the stake. */
  lemma {:induction false} VotedIsBacked(env: Env, n: Node, w: map<Voter, nat>, percent: nat, steps: seq<Step>, t: TxId)
    requires Start(env, n) && Registered(w, steps) && Demands(w, percent, steps) && t in Voted(env, n, steps)
    ensures Reaches(w, Acceptors(w, steps, t), percent)
    decreases |steps|
  {
    var k := |steps| - 1;
    RegisteredPrefix(w, steps, k);
    MoreAcceptors(w, steps, k, t);
    if t in Voted(env, n, steps[..k]) {
      VotedIsBacked(env, n, w, percent, steps[..k], t);
    } else {
      assert steps[k] in steps;
      RunCast(env, n, w, steps[..k]);
      ClaimIsWeight(w, After(env, n, steps[..k]), steps[..k], t);
    }
  }

  /** With registered weights, the validators who accepted both of two confirmed transactions
      that share an input carry at least `2 * percent - 100` of a hundred parts of the stake. */
  lemma DoubleSpendIsAttributable(env: Env, n: Node, w: map<Voter, nat>, percent: nat, steps: seq<Step>, a: TxId,
      b: TxId)
    requires Start(env, n) && Run(env, steps) && Registered(w, steps) && Demands(w, percent, steps)
    requires a != b && a in After(env, n, steps).confirmed && b in After(env, n, steps).confirmed
    requires Overlap(env.body(a).inputs, env.body(b).inputs)
    ensures 100 * Weight(w, Acceptors(w, steps, a) * Acceptors(w, steps, b)) >=
        Weight(w, w.Keys) * (percent + percent - 100)
  {
    DoubleSpendIsVoted(env, n, steps, a, b);
    VotedIsBacked(env, n, w, percent, steps, a);
    VotedIsBacked(env, n, w, percent, steps, b);
    SharedWeight(w, Acceptors(w, steps, a), Acceptors(w, steps, b), percent, percent);
  }

  /** The thresholds of the code: never under 51%, and 67% when every round decides before the
      stall time. */
  lemma ThresholdsDemand(w: map<Voter, nat>, steps: seq<Step>)
    requires Registered(w, steps)
    requires forall s :: s in steps && s.ReachThreshold? ==>
        s.threshold >= CeilDiv(Weight(w, w.Keys) * BFT_PERCENT, 100)
    ensures Demands(w, STALL_PERCENT, steps)
    ensures (forall s :: s in steps && s.VotingRound? ==> s.elapsed < STALL_SECS) ==> Demands(w, BFT_PERCENT, steps)
  {
    var total := Weight(w, w.Keys);
    assert total * STALL_PERCENT <= total * BFT_PERCENT;
  }

  /** The thresholds of the code make the shared stake at least 2%, and more than a third when
      every round decides before the stall time. */
  lemma DoubleSpendShares(env: Env, n: Node, w: map<Voter, nat>, steps: seq<Step>, a: TxId, b: TxId)
    requires Start(env, n) && Run(env, steps) && Registered(w, steps) && Weight(w, w.Keys) > 0
    requires forall s :: s in steps && s.ReachThreshold? ==>
        s.threshold >= CeilDiv(Weight(w, w.Keys) * BFT_PERCENT, 100)
    requires a != b && a in After(env, n, steps).confirmed && b in After(env, n, steps).confirmed
    requires Overlap(env.body(a).inputs, env.body(b).inputs)
    ensures var both := Acceptors(w, steps, a) * Acceptors(w, steps, b);
      && 100 * Weight(w, both) >= 2 * Weight(w, w.Keys)
      && ((forall s :: s in steps && s.VotingRound? ==> s.elapsed < STALL_SECS) ==>
           3 * Weight(w, both) > Weight(w, w.Keys))
  {
    ThresholdsDemand(w, steps);
    DoubleSpendIsAttributable(env, n, w, STALL_PERCENT, steps, a, b);
    if forall s :: s in steps && s.VotingRound? ==> s.elapsed < STALL_SECS {
      DoubleSpendIsAttributable(env, n, w, BFT_PERCENT, steps, a, b);
    }
  }

  /** No validator accepts two transactions that share an input. */
  ghost predicate Honest(env: Env, steps: seq<Step>) {
    forall v, a, b :: a != b && Cast(steps, v, a) && Cast(steps, v, b) ==>
        !Overlap(env.body(a).inputs, env.body(b).inputs)
  }

  /** Confirmed transactions never share an input when validators are honest and claim no
      more than they have. */
  lemma NoDoubleSpend(env: Env, n: Node, w: map<Voter, nat>, steps: seq<Step>)
    requires Start(env, n) && Run(env, steps) && Honest(env, steps)
    requires Registered(w, steps) && Demands(w, STALL_PERCENT, steps) && Weight(w, w.Keys) > 0
    ensures forall a, b :: a in After(env, n, steps).confirmed && b in After(env, n, steps).confirmed && a != b ==>
              !Overlap(env.body(a).inputs, env.body(b).inputs)
  {
    forall a, b | a in After(env, n, steps).confirmed && b in After(env, n, steps).confirmed && a != b
      ensures !Overlap(env.body(a).inputs, env.body(b).inputs)
    {
      if Overlap(env.body(a).inputs, env.body(b).inputs) {
        DoubleSpendIsAttributable(env, n, w, STALL_PERCENT, steps, a, b);
        assert false;
      }
    }
  }

  // ----- When confirmed inputs are disjoint

  ghost predicate Disjoint(pool: map<TxId, Entry>) {
    forall a, b :: !Clash(pool, a, b)
  }

  ghost predicate ConfirmedDisjoint(n: Node) {
    Disjoint(n.confirmed)
  }

  /** A vote-driven finalization passes the check that the recovery pass makes and the vote
      paths do not. */
  ghost predicate WinsClear(env: Env, n: Node, s: Step) {
    VoteWins(n, s) ==> !PoolConflict(n.confirmed, s.t, n.pending[s.t].tx.inputs)
  }

  lemma FinalizeDisjointIff(n: Node, t: TxId)
    requires t in n.pending && t !in n.confirmed
    ensures ConfirmedDisjoint(Finalize(n, t)) <==>
        ConfirmedDisjoint(n) && !PoolConflict(n.confirmed, t, n.pending[t].tx.inputs)
  {
    FinalizeFacts(n, t);
    MoreDisjointIff(n.confirmed, t, n.pending[t]);
  }

  /** One more transaction in a pool clashes with none exactly when no entry conflicts with it. */
  lemma MoreDisjointIff(pool: map<TxId, Entry>, t: TxId, e: Entry)
    requires t !in pool
    ensures Disjoint(pool[t := e]) <==> Disjoint(pool) && !PoolConflict(pool, t, e.tx.inputs)
  {
    var more := pool[t := e];
    forall a: TxId, b: TxId | Clash(pool, a, b) ensures Clash(more, a, b) { }
    if PoolConflict(pool, t, e.tx.inputs) {
      var id :| id in pool && id != t && exists o :: o in pool[id].tx.inputs && o in e.tx.inputs;
      assert Clash(more, id, t);
    } else {
      forall a: TxId, b: TxId | Clash(more, a, b) ensures Clash(pool, a, b) { }
    }
  }

  /** No other way of confirming ever breaks disjointness. */
  lemma StepDisjointIff(env: Env, n: Node, s: Step)
    requires Base(env, n) && Allowed(env, s)
    ensures ConfirmedDisjoint(Next(env, n, s)) <==> ConfirmedDisjoint(n) && WinsClear(env, n, s)
  {
    if VoteWins(n, s) {
      VoteShape(env, n, s);
      FinalizeDisjointIff(n, s.t);
    } else {
      var m, fin := StepShape(env, n, s);
      CalmBase(env, n, m);
      if fin { FinalizeDisjointIff(m, s.t); }
    }
  }

  /** What holds at first, and after a step exactly when it held before and the step met
      `p`, holds after a run exactly when every step met `p`. */
  lemma {:induction false} RunIff(env: Env, n: Node, steps: seq<Step>, q: Node -> bool, p: (Env, Node, Step) -> bool)
    requires Start(env, n) && Run(env, steps) && q(n)
    requires forall m: Node, s: Step :: Base(env, m) && Allowed(env, s) ==>
        (q(Next(env, m, s)) <==> q(m) && p(env, m, s))
    ensures q(After(env, n, steps)) <==> Always(env, n, steps, p)
    decreases |steps|
  {
    if steps != [] {
      var k := |steps| - 1;
      RunPrefix(env, steps, k);
      RunIff(env, n, steps[..k], q, p);
      RunBase(env, n, steps[..k]);
      assert steps[k] in steps;
    }
  }

  /** Whoever votes how, confirmed inputs are disjoint after a run exactly when each
      vote-driven finalization of the run found no confirmed transaction with a shared input. */
  lemma RunDisjointIff(env: Env, n: Node, steps: seq<Step>)
    requires Start(env, n) && Run(env, steps)
    ensures ConfirmedDisjoint(After(env, n, steps)) <==> Always(env, n, steps, WinsClear)
  {
    forall m: Node, s: Step | Base(env, m) && Allowed(env, s)
      ensures ConfirmedDisjoint(Next(env, m, s)) <==> ConfirmedDisjoint(m) && WinsClear(env, m, s)
    {
      StepDisjointIff(env, m, s);
    }
    RunIff(env, n, steps, ConfirmedDisjoint, WinsClear);
  }

  // ----- When a spent input stays spent

  /** Nothing spent for good is given back. */
  ghost predicate Keeps(n: Node, n': Node) {
    forall o :: o in n.utxo && n.utxo[o].SpentFinalized? ==> o in n'.utxo && n'.utxo[o] == n.utxo[o]
  }

  /** An output of the transaction is already spent. */
  ghost predicate ChildSpent(n: Node, t: TxId, outs: seq<Coin>) {
    exists o :: o in OwnOutputs(t, outs) && o in n.utxo && n.utxo[o].SpentFinalized?
  }

  /** Finalization gives back exactly the spent outputs of the transaction itself. */
  lemma FinalizeKeepsIff(n: Node, t: TxId)
    requires t in n.pending
    ensures Keeps(n, Finalize(n, t)) <==> !ChildSpent(n, t, n.pending[t].tx.outputs)
  {
    FinalizeFacts(n, t);
    if ChildSpent(n, t, n.pending[t].tx.outputs) {
      var o :| o in OwnOutputs(t, n.pending[t].tx.outputs) && o in n.utxo && n.utxo[o].SpentFinalized?;
      assert Finalize(n, t).utxo[o] == Unspent;
    }
  }

  /** The step to `n'` does not confirm a transaction one of whose outputs is already spent. */
  ghost predicate ParentBefore(env: Env, n: Node, s: Step, n': Node) {
    AboutLocks(s) || s.t in n.confirmed || s.t !in n'.confirmed || !ChildSpent(n, s.t, env.body(s.t).outputs)
  }

  ghost predicate ParentFirst(env: Env, n: Node, s: Step) {
    ParentBefore(env, n, s, Next(env, n, s))
  }

  lemma CalmChild(env: Env, n: Node, m: Node, t: TxId, outs: seq<Coin>)
    requires Calm(env, n, m)
    ensures ChildSpent(n, t, outs) <==> ChildSpent(m, t, outs)
  {
    if ChildSpent(n, t, outs) {
      var o :| o in OwnOutputs(t, outs) && o in n.utxo && n.utxo[o].SpentFinalized?;
      assert o in m.utxo && m.utxo[o].SpentFinalized?;
    }
    if ChildSpent(m, t, outs) {
      var o :| o in OwnOutputs(t, outs) && o in m.utxo && m.utxo[o].SpentFinalized?;
      assert o in n.utxo && n.utxo[o].SpentFinalized?;
    }
  }

  lemma CalmThenKeeps(env: Env, n: Node, m: Node, n': Node)
    requires Calm(env, n, m)
    ensures Keeps(n, n') <==> Keeps(m, n')
  {
  }

  lemma LateKeepsIff(env: Env, n: Node, m: Node, t: TxId)
    requires Calm(env, n, m) && t in m.pending
    ensures Keeps(n, Finalize(m, t)) <==> !ChildSpent(n, t, m.pending[t].tx.outputs)
    ensures t in Finalize(m, t).confirmed
  {
    CalmThenKeeps(env, n, m, Finalize(m, t));
    CalmChild(env, n, m, t, m.pending[t].tx.outputs);
    FinalizeKeepsIff(m, t);
    FinalizeFacts(m, t);
  }

  lemma CalmItself(env: Env, n: Node)
    ensures Calm(env, n, n)
  {
  }

  lemma StepKeepsSpentIff(env: Env, n: Node, s: Step)
    requires Base(env, n) && Allowed(env, s)
    ensures Keeps(n, Next(env, n, s)) <==> ParentFirst(env, n, s)
  {
    if VoteWins(n, s) {
      VoteShape(env, n, s);
      CalmItself(env, n);
      ConfirmKeepsIff(env, n, n, s, Next(env, n, s));
    } else {
      var m, fin := StepShape(env, n, s);
      if fin { ConfirmKeepsIff(env, n, m, s, Next(env, n, s)); } else { CalmKeepsSpent(env, n, m, s); }
    }
  }

  lemma ConfirmKeepsIff(env: Env, n: Node, m: Node, s: Step, n': Node)
    requires Base(env, n) && Calm(env, n, m) && !AboutLocks(s) && s.t in m.pending && Alike(Finalize(m, s.t), n')
    ensures Keeps(n, n') <==> ParentBefore(env, n, s, n')
  {
    CalmBase(env, n, m);
    LateKeepsIff(env, n, m, s.t);
  }

  lemma CalmKeepsSpent(env: Env, n: Node, m: Node, s: Step)
    requires Calm(env, n, m)
    ensures Keeps(n, m) && ParentBefore(env, n, s, m)
  {
  }

  /** What is spent at any point of the run stays spent, by the same transaction, to its end. */
  ghost predicate SpentForGood(env: Env, n: Node, steps: seq<Step>) {
    forall i, j :: 0 <= i <= j <= |steps| ==> Keeps(After(env, n, steps[..i]), After(env, n, steps[..j]))
  }

  lemma AfterStep(env: Env, n: Node, s: seq<Step>, k: nat)
    requires k < |s|
    ensures After(env, n, s[..k + 1]) == Next(env, After(env, n, s[..k]), s[k])
  {
    assert s[..k + 1][..k] == s[..k];
  }

  lemma {:induction false} KeptThrough(env: Env, n: Node, steps: seq<Step>, i: nat)
    requires Start(env, n) && Run(env, steps) && Always(env, n, steps, ParentFirst) && i <= |steps|
    ensures Keeps(After(env, n, steps[..i]), After(env, n, steps))
    decreases |steps|
  {
    if i == |steps| {
      assert steps[..i] == steps;
    } else {
      var k := |steps| - 1;
      RunPrefix(env, steps, k);
      KeptThrough(env, n, steps[..k], i);
      assert steps[..k][..i] == steps[..i] && steps[k] in steps;
      RunBase(env, n, steps[..k]);
      KeptNext(env, After(env, n, steps[..i]), After(env, n, steps[..k]), steps[k]);
    }
  }

  lemma KeptNext(env: Env, n: Node, m: Node, s: Step)
    requires Keeps(n, m) && Base(env, m) && Allowed(env, s) && ParentFirst(env, m, s)
    ensures Keeps(n, Next(env, m, s))
  {
    StepKeepsSpentIff(env, m, s);
  }

  lemma {:induction false} KeptMeansParentFirst(env: Env, n: Node, steps: seq<Step>)
    requires Start(env, n) && Run(env, steps) && SpentForGood(env, n, steps)
    ensures Always(env, n, steps, ParentFirst)
    decreases |steps|
  {
    if steps != [] {
      var k := |steps| - 1;
      RunPrefix(env, steps, k);
      ForGoodPrefix(env, n, steps, k);
      KeptMeansParentFirst(env, n, steps[..k]);
      RunBase(env, n, steps[..k]);
      assert steps[k] in steps;
      LastKept(env, n, steps);
      StepKeepsSpentIff(env, After(env, n, steps[..k]), steps[k]);
    }
  }

  lemma LastKept(env: Env, n: Node, steps: seq<Step>)
    requires SpentForGood(env, n, steps) && steps != []
    ensures var k := |steps| - 1; Keeps(After(env, n, steps[..k]), Next(env, After(env, n, steps[..k]), steps[k]))
  {
    var k := |steps| - 1;
    AfterStep(env, n, steps, k);
    assert Keeps(After(env, n, steps[..k]), After(env, n, steps[..k + 1]));
  }

  lemma ForGoodPrefix(env: Env, n: Node, steps: seq<Step>, k: nat)
    requires SpentForGood(env, n, steps) && k <= |steps|
    ensures SpentForGood(env, n, steps[..k])
  {
    forall i, j | 0 <= i <= j <= k
      ensures Keeps(After(env, n, steps[..k][..i]), After(env, n, steps[..k][..j]))
    {
      assert steps[..k][..i] == steps[..i] && steps[..k][..j] == steps[..j];
    }
  }

  /** Spent inputs stay spent over the whole run exactly when no step of it confirms a
      transaction one of whose outputs is already spent. */
  lemma {:induction false} RunKeepsSpentIff(env: Env, n: Node, steps: seq<Step>)
    requires Start(env, n) && Run(env, steps)
    ensures SpentForGood(env, n, steps) <==> Always(env, n, steps, ParentFirst)
  {
    if Always(env, n, steps, ParentFirst) {
      forall i, j | 0 <= i <= j <= |steps|
        ensures Keeps(After(env, n, steps[..i]), After(env, n, steps[..j]))
      {
        AlwaysPrefix(env, n, steps, ParentFirst, j);
        RunPrefix(env, steps, j);
        KeptThrough(env, n, steps[..j], i);
        assert steps[..j][..i] == steps[..i];
      }
    }
    if SpentForGood(env, n, steps) { KeptMeansParentFirst(env, n, steps); }
  }

  // ----- Runs whose mempool sync brings known inputs

  /** Every known outpoint was created by a base or confirmed transaction. */
  ghost predicate Known(env: Env, n: Node) {
    && (forall o :: o in n.utxo ==> o.txid in env.base || o.txid in n.confirmed)
    && n.tombs <= n.utxo.Keys
    && (forall id, o :: id in n.pending && o in n.pending[id].tx.inputs ==> o in n.utxo)
  }

  lemma CalmKnown(env: Env, n: Node, m: Node)
    requires Base(env, n) && Known(env, n) && Calm(env, n, m) && Tidy(env, n, m)
    ensures Known(env, m)
  {
    forall id, o | id in m.pending && o in m.pending[id].tx.inputs
      ensures o in m.utxo
    {
      if id in n.pending { assert o in n.pending[id].tx.inputs; }
    }
  }

  lemma AlikeKnown(env: Env, n: Node, m: Node)
    requires Known(env, n) && Alike(n, m)
    ensures Known(env, m)
  {
  }

  lemma FinalizeKnown(env: Env, n: Node, t: TxId)
    requires Base(env, n) && Known(env, n) && t in n.pending
    ensures Known(env, Finalize(n, t))
    ensures OwnOutputs(t, n.pending[t].tx.outputs) !! n.utxo.Keys
  {
    FinalizeFacts(n, t);
  }

  lemma StepKnown(env: Env, n: Node, s: Step)
    requires Base(env, n) && Known(env, n) && Allowed(env, s) && KnownStep(env, n, s)
    ensures Known(env, Next(env, n, s)) && ParentFirst(env, n, s)
  {
    if VoteWins(n, s) {
      VoteShape(env, n, s);
      FinalizeKnown(env, n, s.t);
    } else {
      var m, fin := StepShape(env, n, s);
      CalmBase(env, n, m);
      CalmKnown(env, n, m);
      if fin {
        FinalizeKnown(env, m, s.t);
        AlikeKnown(env, Finalize(m, s.t), Next(env, n, s));
      }
    }
  }

  /** A run from base outpoints in which neither mempool sync nor a finalization told by a peer
      brings an unknown input. */
  ghost predicate KnownRun(env: Env, n: Node, steps: seq<Step>) {
    Start(env, n) && Run(env, steps) && Known(env, n) && Always(env, n, steps, KnownStep)
  }

  lemma KnownRunPrefix(env: Env, n: Node, steps: seq<Step>)
    requires KnownRun(env, n, steps) && steps != []
    ensures var k := |steps| - 1;
      KnownRun(env, n, steps[..k]) && KnownStep(env, After(env, n, steps[..k]), steps[k]) && Allowed(env, steps[k])
  {
    RunPrefix(env, steps, |steps| - 1);
    assert steps[|steps| - 1] in steps;
  }

  lemma {:induction false} RunKnown(env: Env, n: Node, steps: seq<Step>)
    requires KnownRun(env, n, steps)
    ensures Known(env, After(env, n, steps))
    decreases |steps|
  {
    if steps != [] {
      var k := |steps| - 1;
      KnownRunPrefix(env, n, steps);
      RunKnown(env, n, steps[..k]);
      RunBase(env, n, steps[..k]);
      StepKnown(env, After(env, n, steps[..k]), steps[k]);
    }
  }

  lemma {:induction false} RunParentFirst(env: Env, n: Node, steps: seq<Step>)
    requires KnownRun(env, n, steps)
    ensures Always(env, n, steps, ParentFirst)
    decreases |steps|
  {
    if steps != [] {
      var k := |steps| - 1;
      KnownRunPrefix(env, n, steps);
      RunParentFirst(env, n, steps[..k]);
      RunKnown(env, n, steps[..k]);
      RunBase(env, n, steps[..k]);
      StepKnown(env, After(env, n, steps[..k]), steps[k]);
    }
  }

  /** In such a run every spent input stays spent, whoever votes how. */
  lemma SpentStaysSpent(env: Env, n: Node, steps: seq<Step>)
    requires KnownRun(env, n, steps)
    ensures SpentForGood(env, n, steps)
  {
    RunParentFirst(env, n, steps);
    RunKeepsSpentIff(env, n, steps);
  }

  // ----- When confirmed transactions own their inputs

  ghost predicate Owns(n: Node, a: TxId)
    requires a in n.confirmed
  {
    forall o :: o in n.confirmed[a].tx.inputs ==> o in n.utxo && n.utxo[o] == SpentFinalized(a)
  }

  /** Every input of a confirmed transaction is spent for good by that transaction. */
  ghost predicate AllOwn(n: Node) {
    forall a :: a in n.confirmed ==> Owns(n, a)
  }

  lemma OwnersAreDisjoint(n: Node)
    requires AllOwn(n)
    ensures ConfirmedDisjoint(n)
  {
    forall a, b | a in n.confirmed && b in n.confirmed && a != b
      ensures !Clash(n.confirmed, a, b)
    {
      assert Owns(n, a) && Owns(n, b);
    }
  }

  /** A vote-driven finalization finds no input held by another transaction. */
  ghost predicate WinsUnheld(env: Env, n: Node, s: Step) {
    VoteWins(n, s) ==> !OwnedByOther(n, s.t, n.pending[s.t].tx.inputs)
  }

  /** A finalization gives the transaction all its inputs exactly when no other holds one. */
  lemma FinalizeOwnsIff(env: Env, n: Node, t: TxId)
    requires Base(env, n) && Known(env, n) && t in n.pending
    ensures Owns(Finalize(n, t), t) <==> !OwnedByOther(n, t, n.pending[t].tx.inputs)
  {
    var ins := n.pending[t].tx.inputs;
    FinalizeFacts(n, t);
    FinalizeKnown(env, n, t);
    if OwnedByOther(n, t, ins) {
      var o :| o in ins && o in n.utxo && HeldByOther(n.utxo[o], t);
      assert Finalize(n, t).utxo[o] == n.utxo[o];
    } else {
      forall o | o in ins
        ensures o in Finalize(n, t).utxo && Finalize(n, t).utxo[o] == SpentFinalized(t)
      {
        assert o in n.utxo && !HeldByOther(n.utxo[o], t);
      }
    }
  }

  /** Whether another confirmed transaction owns its inputs is not changed. */
  lemma FinalizeOthers(env: Env, n: Node, t: TxId, a: TxId)
    requires Base(env, n) && Known(env, n) && t in n.pending && a in n.confirmed
    ensures a in Finalize(n, t).confirmed && (Owns(Finalize(n, t), a) <==> Owns(n, a))
  {
    FinalizeFacts(n, t);
    FinalizeKnown(env, n, t);
    var n' := Finalize(n, t);
    if !Owns(n, a) {
      var o :| o in n.confirmed[a].tx.inputs && !(o in n.utxo && n.utxo[o] == SpentFinalized(a));
      assert !(o in n'.utxo && n'.utxo[o] == SpentFinalized(a));
    }
  }

  lemma FinalizeAllOwnIff(env: Env, n: Node, t: TxId)
    requires Base(env, n) && Known(env, n) && t in n.pending
    ensures AllOwn(Finalize(n, t)) <==> AllOwn(n) && !OwnedByOther(n, t, n.pending[t].tx.inputs)
  {
    FinalizeFacts(n, t);
    FinalizeOwnsIff(env, n, t);
    forall a | a in n.confirmed
      ensures Owns(Finalize(n, t), a) <==> Owns(n, a)
    {
      FinalizeOthers(env, n, t, a);
    }
  }

  lemma CalmAllOwn(env: Env, n: Node, m: Node)
    requires Calm(env, n, m)
    ensures AllOwn(m) <==> AllOwn(n)
  {
    forall a | a in n.confirmed
      ensures Owns(m, a) <==> Owns(n, a)
    {
      if !Owns(n, a) {
        var o :| o in n.confirmed[a].tx.inputs && !(o in n.utxo && n.utxo[o] == SpentFinalized(a));
        assert !(o in m.utxo && m.utxo[o] == SpentFinalized(a));
      }
    }
  }

  lemma StepOwnsIff(env: Env, n: Node, s: Step)
    requires Base(env, n) && Known(env, n) && Allowed(env, s) && KnownStep(env, n, s)
    ensures AllOwn(Next(env, n, s)) <==> AllOwn(n) && WinsUnheld(env, n, s)
  {
    if VoteWins(n, s) {
      VoteShape(env, n, s);
      FinalizeAllOwnIff(env, n, s.t);
    } else {
      var m, fin := StepShape(env, n, s);
      CalmBase(env, n, m);
      CalmKnown(env, n, m);
      CalmAllOwn(env, n, m);
      if fin {
        FinalizeAllOwnIff(env, m, s.t);
        StillCalm(env, Finalize(m, s.t), Next(env, n, s));
        CalmAllOwn(env, Finalize(m, s.t), Next(env, n, s));
      }
    }
  }

  /** Every confirmed transaction owns all its inputs after the run exactly when each
      vote-driven finalization found no input held by another transaction. */
  lemma {:induction false} RunOwnsIff(env: Env, n: Node, steps: seq<Step>)
    requires KnownRun(env, n, steps)
    ensures AllOwn(After(env, n, steps)) <==> Always(env, n, steps, WinsUnheld)
    ensures Always(env, n, steps, WinsUnheld) ==> ConfirmedDisjoint(After(env, n, steps))
    decreases |steps|
  {
    if steps != [] {
      var k := |steps| - 1;
      KnownRunPrefix(env, n, steps);
      RunOwnsIff(env, n, steps[..k]);
      RunKnown(env, n, steps[..k]);
      RunBase(env, n, steps[..k]);
      StepOwnsIff(env, After(env, n, steps[..k]), steps[k]);
    }
    if Always(env, n, steps, WinsUnheld) { OwnersAreDisjoint(After(env, n, steps)); }
  }
}
