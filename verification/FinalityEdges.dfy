/** Where the guarantees of a run stop: exact conditions for single calls, and concrete
    runs on the far side of them. */
module FinalityEdges {

  import opened Basics
  import opened Sums
  import opened Quorum
  import opened Fees
  import opened Transactions
  import opened Wrappers
  import opened Ledger
  import opened FinalityRuns
  import opened FinalitySafety
  import opened FinalityValue

  // ----- Undoing

  /** Eviction undoes the start of voting: every input comes back Unspent. */
  lemma EvictUndoesVoting(n: Node, t: TxId, tx: Tx, fee: nat)
    requires t !in n.pending
    requires forall o :: o in tx.inputs ==> o in n.utxo && o !in n.collateral && !HeldByOther(n.utxo[o], t)
    ensures var n' := Evict(StartVoting(Admit(n, t, tx, fee), t), t);
      n'.utxo == WriteStates(n, Elems(tx.inputs), Unspent).utxo && n'.pending == n.pending && n'.coins == n.coins
  {
  }

  /** Rejection does not: it gives back locks only, so an input under vote stays claimed by
      the rejected transaction and no other transaction can lock it, process or recover. */
  lemma RejectedVoteKeepsClaim(n: Node, t: TxId, tx: Tx, fee: nat, o: OutPoint)
    requires o in tx.inputs
    ensures var n' := Reject(StartVoting(Admit(n, t, tx, fee), t), t);
      && o in n'.utxo && n'.utxo[o] == SpentPending(t)
      && (forall u, now :: !CanLock(n', o, u, now))
      && (forall u, body: Tx, ctx :: u != t && o in body.inputs ==> !Processable(n', u, body, ctx))
      && (forall ctx, body: Tx :: !Processable(n', t, body, ctx))
  {
    var n' := Reject(StartVoting(Admit(n, t, tx, fee), t), t);
    assert n'.utxo[o] == SpentPending(t);
    forall u, body: Tx, ctx | u != t && o in body.inputs
      ensures !Processable(n', u, body, ctx)
    {
      assert SpentByOther(n', u, body.inputs);
    }
  }

  /** No known input is held by `t`. */
  ghost predicate FreeOf(n: Node, t: TxId, ins: seq<OutPoint>) {
    forall o :: o in ins && o in n.utxo ==> n.utxo[o].Unspent? || HeldByOther(n.utxo[o], t)
  }

  /** Rejection frees the inputs exactly when `t` holds them by nothing but locks. */
  lemma RejectFreesIff(n: Node, t: TxId)
    requires t in n.pending
    ensures var ins := n.pending[t].tx.inputs;
      FreeOf(Reject(n, t), t, ins) <==>
      forall o :: o in ins && o in n.utxo ==> n.utxo[o].Unspent? || HeldByOther(n.utxo[o], t) || n.utxo[o].Locked?
  {
    var ins := n.pending[t].tx.inputs;
    forall o | o in ins && o in n.utxo
      ensures Reject(n, t).utxo[o] == if n.utxo[o].Locked? && n.utxo[o].txid == t then Unspent else n.utxo[o]
    {
    }
  }

  /** Eviction also gives back pending claims, but nothing that is collateral. */
  lemma EvictFreesIff(n: Node, t: TxId)
    requires t in n.pending
    ensures var ins := n.pending[t].tx.inputs;
      FreeOf(Evict(n, t), t, ins) <==>
      forall o :: o in ins && o in n.utxo ==>
        n.utxo[o].Unspent? || HeldByOther(n.utxo[o], t) ||
          (o !in n.collateral && (n.utxo[o].Locked? || n.utxo[o].SpentPending?))
  {
    var ins := n.pending[t].tx.inputs;
    forall o | o in ins && o in n.utxo
      ensures Evict(n, t).utxo[o] ==
              if o !in n.collateral && (n.utxo[o].Locked? || n.utxo[o].SpentPending?) && n.utxo[o].txid == t
                  then Unspent else n.utxo[o]
    {
    }
  }

  ghost predicate Unlocked(n: Node, ins: seq<OutPoint>) {
    forall o :: o in ins && o in n.utxo ==> !n.utxo[o].Locked?
  }

  /** Locking and validating changes no more than locks on inputs that were Unspent. */
  lemma LocksOnly(n: Node, t: TxId, tx: Tx, ctx: Context)
    requires Unlocked(n, tx.inputs)
    ensures var n1 := LockAndValidate(n, t, tx, ctx).0;
      && n1 == n.(utxo := n1.utxo) && n1.utxo.Keys == n.utxo.Keys
      && forall o :: o in n.utxo ==>
           n1.utxo[o] == n.utxo[o] || (o in tx.inputs && n.utxo[o].Unspent? && n1.utxo[o] == Locked(t, ctx.now))
  {
    var k := Lockable(n, tx.inputs, t, ctx.now);
    forall o | o in tx.inputs[..k]
      ensures o in tx.inputs && o in n.utxo && n.utxo[o] == Unspent
    {
      var i :| 0 <= i < k && tx.inputs[i] == o;
      assert CanLock(n, tx.inputs[i], t, ctx.now);
    }
    if k == |tx.inputs| { assert tx.inputs[..k] == tx.inputs; }
  }

  lemma LocksReturned(n: Node, n1: Node, t: TxId, ins: seq<OutPoint>, now: int)
    requires Unlocked(n, ins) && n1 == n.(utxo := n1.utxo) && n1.utxo.Keys == n.utxo.Keys
    requires forall o :: o in n.utxo ==>
        n1.utxo[o] == n.utxo[o] || (o in ins && n.utxo[o].Unspent? && n1.utxo[o] == Locked(t, now))
    ensures UnlockSet(n1, Elems(ins), t) == n
  {
    assert UnlockSet(n1, Elems(ins), t).utxo == n.utxo;
  }

  /** A submission that fails leaves no trace, unless an input was locked before. */
  lemma FailedSubmitLeavesNoTrace(n: Node, t: TxId, tx: Tx, ctx: Context)
    requires Unlocked(n, tx.inputs) && !Submit(n, t, tx, ctx).1
    ensures Submit(n, t, tx, ctx).0 == n
  {
    LocksOnly(n, t, tx, ctx);
    LocksReturned(n, LockAndValidate(n, t, tx, ctx).0, t, tx.inputs, ctx.now);
  }

  // ----- The voting deadline

  /** The deadline moves from 5 to at most 15 seconds, and there the loop decides. */
  lemma VotingEnds(n: Node, t: TxId, elapsed: nat, deadline: nat, weight: nat, total: nat, accept: bool)
    requires deadline in {5, 10, 15}
    ensures var d := Decide(n, t, elapsed, deadline, weight, total, accept);
      && (d.Extend? ==> d.deadline in {10, 15} && d.deadline > deadline)
      && (deadline == 15 && elapsed >= deadline ==> d.Stop? || d.Drop? || d.Win?)
      && (d.Win? <==> t !in n.finalized && t !in n.confirmed && StillValid(n, t) && elapsed >= deadline && accept
                      && weight >= VoteFinalityThreshold(total, elapsed).0)
  {
  }

  // ----- Two rivals for one coin

  const o0: OutPoint := OutPoint(0, 0)

  function At(now: int): Context {
    Context(now, true, true, 1, DEFAULT_SCHEDULE)
  }

  /** Transactions 1 and 2 spend the same coin of 2 TIME. */
  ghost predicate Rivals(env: Env, n: Node) {
    && env.base == {0} && env.body(0).outputs == [Coin(200_000_000, "a")]
    && env.body(1) == Tx(2, [o0], [Coin(150_000_000, "b")])
    && env.body(2) == Tx(2, [o0], [Coin(160_000_000, "c")])
    && n == Node(map[o0 := Unspent], map[o0 := Coin(200_000_000, "a")], {}, {}, map[], map[], {}, map[], {}, map[])
  }

  /** A vote is asked for transaction 1; transaction 2 is submitted when that lock has lapsed. */
  function Opening(): seq<Step> {
    [RequestVote(1, At(0)), SubmitTx(2, At(601))]
  }

  /** Both are voted on, each by one voter claiming weight `c`. */
  function BothVotes(p: Voter, q: Voter, c: nat, threshold: nat, total: nat): seq<Step> {
    Opening() + [AcceptVote(p, c, 1), AcceptVote(q, c, 2), ReachThreshold(1, threshold),
      VotingRound(2, 5, 5, total, true)]
  }

  /** Only transaction 1 is voted on, and transaction 2 is evicted. */
  function OneVote(): seq<Step> {
    Opening() + [AcceptVote(7, 1, 1), ReachThreshold(1, 1), EvictTx(2)]
  }

  /** One input, one output: locked and validated. */
  lemma LocksOne(n: Node, t: TxId, tx: Tx, now: int, out: nat, who: string)
    requires tx == Tx(2, [o0], [Coin(out, who)]) && n.utxo.Keys == {o0} && CanLock(n, o0, t, now) &&
        !n.utxo[o0].SpentFinalized?
    requires n.coins == map[o0 := Coin(200_000_000, "a")] && n.utxo[o0] != Locked(t, now)
    requires n.utxo[o0].Locked? ==> n.utxo[o0].txid != t
    requires 150_000_000 <= out <= 160_000_000
    ensures LockAndValidate(n, t, tx, At(now)) == (n.(utxo := map[o0 := Locked(t, now)]), Ok(200_000_000 - out))
  {
    assert tx.inputs[1..] == [] && tx.outputs[1..] == [] && tx.inputs[..1] == tx.inputs;
    assert Lockable(n, [], t, now) == 0 && Lockable(n, tx.inputs, t, now) == 1;
    var n1 := LockSet(n, Elems(tx.inputs), t, now);
    assert n1.utxo == map[o0 := Locked(t, now)];
    assert InputSum(n1.coins, []) == 0 && InputSum(n1.coins, tx.inputs) == 200_000_000;
    assert OutputSum([]) == 0 && OutputSum(tx.outputs) == out;
    assert RequiredFee(DEFAULT_SCHEDULE, out) <= 2_000_000;
    assert o0 in tx.inputs && !InputFinalized(n1, o0, t);
    assert Validate(n1, t, tx, At(now)) == Ok(200_000_000 - out);
  }

  ghost function FirstPending(env: Env, n: Node): Node {
    n.(utxo := map[o0 := Locked(1, 0)], pending := map[1 := Entry(env.body(1), 50_000_000)])
  }

  ghost function BothPending(env: Env, n: Node): Node {
    n.(utxo := map[o0 := SpentPending(2)], status := map[2 := Voting],
       pending := map[1 := Entry(env.body(1), 50_000_000), 2 := Entry(env.body(2), 40_000_000)])
  }

  lemma FirstEnters(env: Env, n: Node)
    requires Rivals(env, n)
    ensures VoteRequest(n, 1, env.body(1), At(0)) == FirstPending(env, n)
  {
    LocksOne(n, 1, env.body(1), 0, 150_000_000, "b");
  }

  lemma SecondContested(env: Env, n: Node, n1: Node)
    requires Rivals(env, n) && n1 == FirstPending(env, n).(utxo := map[o0 := Locked(2, 601)])
    ensures Process(n1, 2, env.body(2), 40_000_000, At(601)) == (BothPending(env, n), true)
  {
    var tx := env.body(2);
    var n2 := Admit(n1, 2, tx, 40_000_000);
    assert o0 in tx.inputs && o0 in n2.pending[1].tx.inputs;
    assert PoolConflict(n2.pending, 2, tx.inputs);
    assert StartVoting(n2, 2).utxo == map[o0 := SpentPending(2)];
  }

  lemma SecondEnters(env: Env, n: Node)
    requires Rivals(env, n)
    ensures Submit(FirstPending(env, n), 2, env.body(2), At(601)) == (BothPending(env, n), true)
  {
    LocksOne(FirstPending(env, n), 2, env.body(2), 601, 160_000_000, "c");
    SecondContested(env, n, FirstPending(env, n).(utxo := map[o0 := Locked(2, 601)]));
  }

  lemma Opened(env: Env, n: Node, s: seq<Step>)
    requires Rivals(env, n) && |s| >= 2 && s[..2] == Opening()
    ensures After(env, n, s[..2]) == BothPending(env, n)
  {
    assert s[0] == s[..2][0] && s[1] == s[..2][1];
    AfterTwo(env, n, s);
    FirstEnters(env, n);
    SecondEnters(env, n);
  }

  lemma AfterTwo(env: Env, n: Node, s: seq<Step>)
    requires |s| >= 2
    ensures After(env, n, s[..1]) == Next(env, n, s[0]) && After(env, n, s[..2]) == Next(env, Next(env, n, s[0]), s[1])
  {
    assert s[..0] == [];
    AfterStep(env, n, s, 0);
    AfterStep(env, n, s, 1);
  }

  lemma OneClaim(n: Node, t: TxId, v: Voter, c: nat)
    requires t in n.votes && n.votes[t] == map[v := c]
    ensures Claim(n, t) == c
  {
    var votes := VotesFor(n, t);
    TotalTake(votes, votes.Keys, v);
    assert votes.Keys - {v} == {};
    assert Total(votes, {}) == 0;
  }

  lemma CreateOne(n: Node, t: TxId, outs: seq<Coin>)
    requires |outs| == 1
    ensures Create(n, t, outs) == n.(utxo := n.utxo[OutPoint(t, 0) := Unspent], coins := Create(n, t, outs).coins)
    ensures OutPoint(t, 0) !in n.utxo && OutPoint(t, 0) !in n.tombs ==>
        Create(n, t, outs).coins == n.coins[OutPoint(t, 0) := outs[0]]
  {
    assert OutPoint(t, 0) in OwnOutputs(t, outs);
    assert Create(n, t, outs).utxo == n.utxo[OutPoint(t, 0) := Unspent];
  }

  /** The claim of transaction 2 keeps transaction 1 from marking the coin. */
  lemma RefusedMark(n: Node, tx: Tx, fee: nat)
    requires tx.inputs == [o0] && |tx.outputs| == 1
    requires n.utxo == map[o0 := SpentPending(2)] && n.tombs == {} && 1 in n.pending && n.pending[1] == Entry(tx, fee)
    ensures Finalize(n, 1) ==
            n.(utxo := map[o0 := SpentPending(2), OutPoint(1, 0) := Unspent],
              coins := n.coins[OutPoint(1, 0) := tx.outputs[0]],
               confirmed := n.confirmed[1 := Entry(tx, fee)], pending := n.pending - {1},
               status := n.status[1 := Finalized], finalized := n.finalized + {1})
  {
    var n1 := n.(pending := n.pending - {1}, confirmed := n.confirmed[1 := n.pending[1]]);
    assert Claimed(n1, Elems(tx.inputs), 1) == {};
    MarkNothing(n1, Elems(tx.inputs), 1);
    CreateOne(n1, 1, tx.outputs);
    assert n1.utxo[OutPoint(1, 0) := Unspent] == map[o0 := SpentPending(2), OutPoint(1, 0) := Unspent];
  }

  /** Transaction 1 is confirmed while transaction 2 holds the coin under vote. */
  ghost function FirstConfirmed(env: Env, n: Node): Node {
    n.(utxo := map[o0 := SpentPending(2), OutPoint(1, 0) := Unspent],
       coins := n.coins[OutPoint(1, 0) := Coin(150_000_000, "b")],
       confirmed := map[1 := Entry(env.body(1), 50_000_000)], pending := map[2 := Entry(env.body(2), 40_000_000)],
       status := map[2 := Voting, 1 := Finalized], finalized := {1})
  }

  lemma FirstMarked(env: Env, n: Node, m: Node)
    requires Rivals(env, n) && m == BothPending(env, n).(votes := m.votes)
    ensures Finalize(m, 1) == FirstConfirmed(env, n).(votes := m.votes)
  {
    RefusedMark(m, env.body(1), 50_000_000);
    SecondLeft(Entry(env.body(1), 50_000_000), Entry(env.body(2), 40_000_000));
  }

  lemma SecondLeft(a: Entry, b: Entry)
    ensures map[1 := a, 2 := b] - {1} == map[2 := b] &&
        map[2 := Voting][1 := Finalized] == map[2 := Voting, 1 := Finalized]
  {
  }

  lemma ThresholdFires(env: Env, m: Node, v: Voter, c: nat, threshold: nat)
    requires 1 in m.pending && m.finalized == {} && 1 in m.votes && m.votes[1] == map[v := c] && c >= threshold
    ensures Next(env, m, ReachThreshold(1, threshold)) == Finalize(m, 1)
  {
    OneClaim(m, 1, v, c);
  }

  lemma FirstWins(env: Env, n: Node, m: Node, v: Voter, c: nat, threshold: nat)
    requires Rivals(env, n) && m == BothPending(env, n).(votes := m.votes) && c >= threshold
    requires 1 in m.votes && m.votes[1] == map[v := c]
    ensures Next(env, m, ReachThreshold(1, threshold)) == FirstConfirmed(env, n).(votes := m.votes)
  {
    ThresholdFires(env, m, v, c, threshold);
    FirstMarked(env, n, m);
  }

  lemma SecondDecided(env: Env, n: Node, m: Node, c: nat, total: nat)
    requires Rivals(env, n) && m == FirstConfirmed(env, n).(votes := m.votes) && c >= VoteFinalityThreshold(total, 5).0
    ensures Decide(m, 2, 5, 5, c, total, true) == Win
  {
    assert m.pending[2].tx.inputs == [o0] && m.utxo[o0] == SpentPending(2);
    assert StillValid(m, 2);
  }

  lemma RoundFires(env: Env, m: Node, v: Voter, c: nat, total: nat)
    requires 2 in m.votes && m.votes[2] == map[v := c] && Decide(m, 2, 5, 5, c, total, true) == Win
    ensures 2 in m.pending && Next(env, m, VotingRound(2, 5, 5, total, true)) == Finalize(m, 2)
  {
    OneClaim(m, 2, v, c);
  }

  lemma SecondWins(env: Env, n: Node, m: Node, v: Voter, c: nat, total: nat)
    requires Rivals(env, n) && m == FirstConfirmed(env, n).(votes := m.votes)
    requires 2 in m.votes && m.votes[2] == map[v := c] && c >= VoteFinalityThreshold(total, 5).0
    ensures var n1 := Next(env, m, VotingRound(2, 5, 5, total, true)); 1 in n1.confirmed && 2 in n1.confirmed
  {
    SecondDecided(env, n, m, c, total);
    RoundFires(env, m, v, c, total);
    FinalizeFacts(m, 2);
  }

  lemma TwoVotes(env: Env, n: Node, p: Voter, q: Voter, c: nat)
    requires Rivals(env, n)
    ensures var m := Next(env, Next(env, BothPending(env, n), AcceptVote(p, c, 1)), AcceptVote(q, c, 2));
      m == BothPending(env, n).(votes := map[1 := map[p := c], 2 := map[q := c]])
  {
    var m := BothPending(env, n);
    assert StoreVote(m, p, c, 1).votes == map[1 := map[p := c]];
    assert StoreVote(StoreVote(m, p, c, 1), q, c, 2).votes == map[1 := map[p := c], 2 := map[q := c]];
  }

  /** Votes that claim enough for each of the rivals confirm both, whoever cast them. */
  lemma BothConfirmed(env: Env, n: Node, p: Voter, q: Voter, c: nat, threshold: nat, total: nat)
    requires Rivals(env, n) && c >= threshold && c >= VoteFinalityThreshold(total, 5).0
    ensures var m := After(env, n, BothVotes(p, q, c, threshold, total)); 1 in m.confirmed && 2 in m.confirmed
    ensures Overlap(env.body(1).inputs, env.body(2).inputs)
  {
    var s := BothVotes(p, q, c, threshold, total);
    assert s[..2] == Opening();
    BothStored(env, n, s, p, q, c);
    FirstThenSecond(env, n, s, p, q, c, threshold, total);
    assert o0 in env.body(1).inputs && o0 in env.body(2).inputs;
  }

  lemma BothStored(env: Env, n: Node, s: seq<Step>, p: Voter, q: Voter, c: nat)
    requires Rivals(env, n) && |s| == 6 && s[..2] == Opening() && s[2] == AcceptVote(p, c, 1) &&
        s[3] == AcceptVote(q, c, 2)
    ensures After(env, n, s[..4]) == BothPending(env, n).(votes := map[1 := map[p := c], 2 := map[q := c]])
  {
    Opened(env, n, s);
    AfterStep(env, n, s, 2);
    AfterStep(env, n, s, 3);
    TwoVotes(env, n, p, q, c);
  }

  lemma FirstThenSecond(env: Env, n: Node, s: seq<Step>, p: Voter, q: Voter, c: nat, threshold: nat, total: nat)
    requires Rivals(env, n) && c >= threshold && c >= VoteFinalityThreshold(total, 5).0
    requires |s| == 6 && s[4] == ReachThreshold(1, threshold) && s[5] == VotingRound(2, 5, 5, total, true)
    requires After(env, n, s[..4]) == BothPending(env, n).(votes := map[1 := map[p := c], 2 := map[q := c]])
    ensures 1 in After(env, n, s).confirmed && 2 in After(env, n, s).confirmed
  {
    var m := After(env, n, s[..4]);
    FirstWins(env, n, m, p, c, threshold);
    var m1 := Next(env, m, s[4]);
    SecondWins(env, n, m1, q, c, total);
    LastTwo(env, n, s);
  }

  lemma LastTwo(env: Env, n: Node, s: seq<Step>)
    requires |s| == 6
    ensures After(env, n, s) == Next(env, Next(env, After(env, n, s[..4]), s[4]), s[5])
  {
    assert s[..6] == s;
    AfterStep(env, n, s, 4);
    AfterStep(env, n, s, 5);
  }

  lemma RivalsRun(env: Env, n: Node, p: Voter, q: Voter, c: nat, threshold: nat, total: nat)
    requires Rivals(env, n)
    ensures Start(env, n) && Run(env, BothVotes(p, q, c, threshold, total))
  {
  }

  lemma StepsOf(p: Voter, q: Voter, c: nat, threshold: nat, total: nat, s: Step)
    requires s in BothVotes(p, q, c, threshold, total)
    ensures s.AcceptVote? ==> s == AcceptVote(p, c, 1) || s == AcceptVote(q, c, 2)
    ensures s.VotingRound? ==> s.total == total
    ensures s.ReachThreshold? ==> s.threshold == threshold
  {
  }

  /** One validator with all the stake votes for both: weights are registered, and only the
      honesty that `NoDoubleSpend` asks for is missing. */
  lemma {:induction false} EquivocationDoubleSpends(env: Env, n: Node, w: map<Voter, nat>)
    requires Rivals(env, n) && w == map[7 := 1]
    ensures var s := BothVotes(7, 7, 1, 1, 1);
      && Start(env, n) && Run(env, s) && Registered(w, s) && Demands(w, BFT_PERCENT, s) && Weight(w, w.Keys) == 1
      && 1 in After(env, n, s).confirmed && 2 in After(env, n, s).confirmed
    ensures Overlap(env.body(1).inputs, env.body(2).inputs)
  {
    BothConfirmed(env, n, 7, 7, 1, 1, 1);
    RivalsRun(env, n, 7, 7, 1, 1, 1);
    var s := BothVotes(7, 7, 1, 1, 1);
    TotalTake(w, {7}, 7);
    assert w.Keys == {7} && {7} - {7} == {};
    forall x | x in s
      ensures x.AcceptVote? ==> x.voter == 7 && x.weight == 1
      ensures (x.VotingRound? ==> x.total == 1) && (x.ReachThreshold? ==> x.threshold == 1)
    {
      StepsOf(7, 7, 1, 1, 1, x);
    }
  }

  /** Two validators with 1% of the stake each vote once, for different rivals, and claim all
      of it: everyone is honest, and both rivals are confirmed. */
  lemma {:induction false} InflatedWeightDoubleSpends(env: Env, n: Node, w: map<Voter, nat>)
    requires Rivals(env, n) && w == map[7 := 1, 8 := 1, 9 := 98]
    ensures var s := BothVotes(7, 8, 100, 67, 100);
      && Start(env, n) && Run(env, s) && Honest(env, s) && Demands(w, BFT_PERCENT, s) && Weight(w, w.Keys) == 100
      && 1 in After(env, n, s).confirmed && 2 in After(env, n, s).confirmed
    ensures Overlap(env.body(1).inputs, env.body(2).inputs)
  {
    BothConfirmed(env, n, 7, 8, 100, 67, 100);
    RivalsRun(env, n, 7, 8, 100, 67, 100);
    OncePerVoter(env, 7, 8, 100, 67, 100);
    var s := BothVotes(7, 8, 100, 67, 100);
    HundredParts(w);
    forall x | x in s
      ensures (x.VotingRound? ==> x.total == 100 && x.elapsed == 5) && (x.ReachThreshold? ==> x.threshold == 67)
    {
      StepsOf(7, 8, 100, 67, 100, x);
    }
  }

  lemma HundredParts(w: map<Voter, nat>)
    requires w == map[7 := 1, 8 := 1, 9 := 98]
    ensures Weight(w, w.Keys) == 100
  {
    assert w.Keys == {7, 8, 9};
    TotalTake(w, {7, 8, 9}, 7);
    assert {7, 8, 9} - {7} == {8, 9};
    TotalTake(w, {8, 9}, 8);
    assert {8, 9} - {8} == {9};
    TotalTake(w, {9}, 9);
    assert {9} - {9} == {};
  }

  lemma OncePerVoter(env: Env, p: Voter, q: Voter, c: nat, threshold: nat, total: nat)
    requires p != q
    ensures Honest(env, BothVotes(p, q, c, threshold, total))
  {
    var s := BothVotes(p, q, c, threshold, total);
    forall v, a | Cast(s, v, a)
      ensures (v == p && a == 1) || (v == q && a == 2)
    {
      var x :| AcceptVote(v, x, a) in s;
      StepsOf(p, q, c, threshold, total, AcceptVote(v, x, a));
    }
  }

  lemma {:induction false} OneVoteEnds(env: Env, n: Node)
    requires Rivals(env, n)
    ensures var m := After(env, n, OneVote());
      && m.confirmed.Keys == {1} && m.utxo == map[o0 := Unspent, OutPoint(1, 0) := Unspent]
      && m.coins == map[o0 := Coin(200_000_000, "a"), OutPoint(1, 0) := Coin(150_000_000, "b")]
  {
    var s := OneVote();
    assert s[..2] == Opening();
    OneStored(env, n, s);
    AfterStep(env, n, s, 3);
    FirstWins(env, n, After(env, n, s[..3]), 7, 1, 1);
    AfterStep(env, n, s, 4);
    assert s[..5] == s;
    FirstKept(env, n, After(env, n, s[..4]));
  }

  lemma OneStored(env: Env, n: Node, s: seq<Step>)
    requires Rivals(env, n) && |s| == 5 && s[..2] == Opening() && s[2] == AcceptVote(7, 1, 1)
    ensures After(env, n, s[..3]) == BothPending(env, n).(votes := map[1 := map[7 := 1]])
  {
    Opened(env, n, s);
    AfterStep(env, n, s, 2);
    assert StoreVote(BothPending(env, n), 7, 1, 1).votes == map[1 := map[7 := 1]];
  }

  lemma FirstKept(env: Env, n: Node, m: Node)
    requires Rivals(env, n) && m == FirstConfirmed(env, n).(votes := m.votes)
    ensures var n' := Next(env, m, EvictTx(2));
      && n'.confirmed.Keys == {1} && n'.utxo == map[o0 := Unspent, OutPoint(1, 0) := Unspent]
      && n'.coins == map[o0 := Coin(200_000_000, "a"), OutPoint(1, 0) := Coin(150_000_000, "b")]
  {
  }

  lemma {:induction false} AllCareful(env: Env, n: Node, s: seq<Step>)
    requires forall x :: x in s ==> Careful(env, n, x) && !x.FinalizedByPeer?
    ensures Always(env, n, s, Careful)
    decreases |s|
  {
    if s != [] {
      AllCareful(env, n, s[..|s| - 1]);
      assert s[|s| - 1] in s;
    }
  }

  lemma OneVoteCareful(env: Env, n: Node)
    requires Rivals(env, n)
    ensures CarefulRun(env, n, OneVote()) && Honest(env, OneVote())
  {
    var s := OneVote();
    AllCareful(env, n, s);
    forall v, a | Cast(s, v, a)
      ensures a == 1
    {
      var x :| AcceptVote(v, x, a) in s;
    }
  }

  lemma {:induction false} OneVoteRegistered(w: map<Voter, nat>)
    requires w == map[7 := 1]
    ensures Registered(w, OneVote())
  {
  }

  lemma {:induction false} TwoCoins(env: Env, n: Node, m: Node)
    requires Rivals(env, n)
    requires m.coins == map[o0 := Coin(200_000_000, "a"), OutPoint(1, 0) := Coin(150_000_000, "b")]
    ensures Live(n) == 200_000_000 && Live(m) == 350_000_000
  {
    var o1 := OutPoint(1, 0);
    assert n.coins.Keys == {o0} && m.coins.Keys == {o0, o1};
    TotalTake(Values(n.coins), {o0}, o0);
    assert {o0} - {o0} == {};
    TotalTake(Values(m.coins), {o0, o1}, o1);
    assert {o0, o1} - {o1} == {o0};
    TotalTake(Values(m.coins), {o0}, o0);
  }

  /** A lock lapses, the coin goes to a rival, votes confirm the first holder all the same and
      the rival is evicted. Votes are honest and every entry was validated, but the input of
      the confirmed transaction is Unspent again and 2 TIME of coins have become 3.5. */
  lemma {:induction false} LapsedLockMints(env: Env, n: Node, w: map<Voter, nat>)
    requires Rivals(env, n) && w == map[7 := 1]
    ensures var s, m := OneVote(), After(env, n, OneVote());
      && CarefulRun(env, n, s) && Honest(env, s) && Registered(w, s)
      && 1 in m.confirmed && o0 in env.body(1).inputs && o0 in m.utxo && m.utxo[o0] == Unspent && o0 in m.coins
      && Live(n) == 200_000_000 && Live(m) == 350_000_000
  {
    var s, m := OneVote(), After(env, n, OneVote());
    OneVoteEnds(env, n);
    OneVoteCareful(env, n);
    OneVoteRegistered(w);
    TwoCoins(env, n, m);
  }

  // ----- Mempool sync

  lemma FinalizeOne(n: Node, t: TxId, tx: Tx, o: OutPoint)
    requires t in n.pending && n.pending[t].tx == tx && tx.inputs == [o] && |tx.outputs| == 1
    requires o !in n.tombs && (o in n.utxo ==> n.utxo[o] == Unspent)
    ensures var n' := Finalize(n, t);
      && n'.utxo == n.utxo[o := SpentFinalized(t)][OutPoint(t, 0) := Unspent] && n'.tombs == n.tombs + {o}
      && n'.pending == n.pending - {t} && n'.confirmed == n.confirmed[t := n.pending[t]] && n'.rejected == n.rejected
  {
    var n1 := n.(pending := n.pending - {t}, confirmed := n.confirmed[t := n.pending[t]]);
    assert Elems(tx.inputs) == {o};
    assert Claimed(n1, {o}, t) == {o};
    MarkOne(n1, o, t);
    CreateOne(Mark(n1, {o}, t), t, tx.outputs);
  }

  lemma FreeIsUncontested(n: Node, t: TxId, tx: Tx, ctx: Context, o: OutPoint)
    requires n.pending == map[] && t !in n.confirmed && n.rejected == {} && ctx.masternodes > 0
    requires tx.version == 2 && tx.inputs == [o] && |tx.outputs| == 1
    requires o !in n.tombs && (o in n.utxo ==> n.utxo[o] == Unspent)
    requires forall id :: id in n.confirmed ==> o !in n.confirmed[id].tx.inputs
    ensures Process(n, t, tx, 0, ctx).0 == Finalize(Admit(n, t, tx, 0), t)
  {
    FreeAdmitted(n, Admit(n, t, tx, 0), t, tx.inputs, o);
    assert Processable(n, t, tx, ctx);
  }

  lemma FreeAdmitted(n: Node, m: Node, t: TxId, ins: seq<OutPoint>, o: OutPoint)
    requires n.pending == map[] && m == n.(pending := m.pending) && m.pending.Keys == {t} && ins == [o]
    requires o in n.utxo ==> n.utxo[o] == Unspent
    requires forall id :: id in n.confirmed ==> o !in n.confirmed[id].tx.inputs
    ensures !Contested(m, t, ins)
  {
  }

  /** A node where nothing else is going on processes a transaction with one free input. */
  lemma ProcessOne(n: Node, t: TxId, tx: Tx, ctx: Context, o: OutPoint)
    requires n.pending == map[] && t !in n.confirmed && n.rejected == {} && ctx.masternodes > 0
    requires tx.version == 2 && tx.inputs == [o] && |tx.outputs| == 1
    requires o !in n.tombs && (o in n.utxo ==> n.utxo[o] == Unspent)
    requires forall id :: id in n.confirmed ==> o !in n.confirmed[id].tx.inputs
    ensures var n' := Process(n, t, tx, 0, ctx).0;
      && n'.utxo == n.utxo[o := SpentFinalized(t)][OutPoint(t, 0) := Unspent] && n'.tombs == n.tombs + {o}
      && n'.pending == map[] && n'.confirmed == n.confirmed[t := Entry(tx, 0)] && n'.rejected == {}
  {
    var a := Admit(n, t, tx, 0);
    FreeIsUncontested(n, t, tx, ctx, o);
    FinalizeOne(a, t, tx, o);
    assert a.pending - {t} == map[];
  }

  /** Mempool sync that brings a child before its parent marks an unknown outpoint spent;
      the parent then recreates it as Unspent. */
  lemma UnknownInputComesBack(env: Env, n: Node, ctx: Context)
    requires Start(env, n) && 1 !in env.base && 2 !in env.base && ctx.masternodes > 0
    requires n.utxo == map[o0 := Unspent] && n.tombs == {} && n.rejected == {}
    requires env.body(1).version == 2 && env.body(1).inputs == [o0] && |env.body(1).outputs| == 1
    requires env.body(2).version == 2 && env.body(2).inputs == [OutPoint(1, 0)] && |env.body(2).outputs| == 1
    ensures var s := [SyncTx(2, 0, ctx), SyncTx(1, 0, ctx)];
      Run(env, s) && !SpentForGood(env, n, s)
  {
    var s := [SyncTx(2, 0, ctx), SyncTx(1, 0, ctx)];
    ChildThenParent(n, env.body(1), env.body(2), ctx);
    SyncedTwice(env, n, s, ctx);
  }

  lemma SyncedTwice(env: Env, n: Node, s: seq<Step>, ctx: Context)
    requires s == [SyncTx(2, 0, ctx), SyncTx(1, 0, ctx)]
    requires var n1 := Process(n, 2, env.body(2), 0, ctx).0; !Keeps(n1, Process(n1, 1, env.body(1), 0, ctx).0)
    ensures !SpentForGood(env, n, s)
  {
    AfterTwo(env, n, s);
    assert !Keeps(After(env, n, s[..1]), After(env, n, s[..2]));
  }

  lemma ChildThenParent(n: Node, parent: Tx, child: Tx, ctx: Context)
    requires n.utxo == map[o0 := Unspent] && n.tombs == {} && n.pending == map[] && n.confirmed == map[] &&
        n.rejected == {}
    requires parent.version == 2 && parent.inputs == [o0] && |parent.outputs| == 1
    requires child.version == 2 && child.inputs == [OutPoint(1, 0)] && |child.outputs| == 1
    requires ctx.masternodes > 0
    ensures var n1 := Process(n, 2, child, 0, ctx).0; !Keeps(n1, Process(n1, 1, parent, 0, ctx).0)
  {
    var o1, n1 := OutPoint(1, 0), Process(n, 2, child, 0, ctx).0;
    ProcessOne(n, 2, child, ctx, o1);
    assert n1.utxo[o1] == SpentFinalized(2);
    ProcessOne(n1, 1, parent, ctx, o0);
    assert Process(n1, 1, parent, 0, ctx).0.utxo[o1] == Unspent;
  }
}
