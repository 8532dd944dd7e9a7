/** Every run of one node: submissions, gossip, mempool sync, vote requests, votes, timeouts,
    rejections, recovery, eviction, lock expiry, and finalizations and locks that peers tell
    of, in any order, with whatever weights the votes claim. Each step is a calm change
    followed by at most one finalization. */
module FinalityRuns {

  import opened Sums
  import opened Quorum
  import opened Fees
  import opened Transactions
  import opened Wrappers
  import opened Ledger

  /** `body` gives the transaction of an id; `base` are the ids the run starts from. */
  datatype Env = Env(body: TxId -> Tx, base: set<TxId>)

  /** Votes carry the weight they claim. The threshold a vote is held against and the total
      weight of a voting round are whatever the node computes at that moment. */
  datatype Step =
    | SubmitTx(t: TxId, ctx: Context)
    | GossipTx(t: TxId, ctx: Context)
    | SyncTx(t: TxId, fee: nat, ctx: Context)
    | RequestVote(t: TxId, ctx: Context)
    | AcceptVote(voter: Voter, weight: nat, t: TxId)
    | ReachThreshold(t: TxId, threshold: nat)
    | VotingRound(t: TxId, elapsed: nat, deadline: nat, total: nat, accept: bool)
    | RejectTx(t: TxId)
    | RecoverTx(t: TxId, ctx: Context)
    | EvictTx(t: TxId)
    | FinalizedByPeer(t: TxId, ctx: Context)
    | LockedByPeer(o: OutPoint, holder: TxId, now: int)
    | ExpireAll(now: int)

  /** The accumulated weight: what the stored votes claim. */
  ghost function Claim(n: Node, t: TxId): nat {
    Total(VotesFor(n, t), VotesFor(n, t).Keys)
  }

  ghost function Next(env: Env, n: Node, s: Step): Node {
    match s
    case SubmitTx(t, ctx) => Submit(n, t, env.body(t), ctx).0
    case GossipTx(t, ctx) => Broadcast(n, t, env.body(t), ctx)
    case SyncTx(t, fee, ctx) => Process(n, t, env.body(t), fee, ctx).0
    case RequestVote(t, ctx) => VoteRequest(n, t, env.body(t), ctx)
    case AcceptVote(v, w, t) => StoreVote(n, v, w, t)
    case ReachThreshold(t, threshold) => VoteThreshold(n, t, Claim(n, t), threshold)
    case VotingRound(t, elapsed, deadline, total, accept) =>
        VoteTimeout(n, t, elapsed, deadline, Claim(n, t), total, accept)
    case RejectTx(t) => Reject(n, t)
    case RecoverTx(t, ctx) => Recover(n, t, ctx)
    case EvictTx(t) => if t in n.pending then Evict(n, t) else n
    case FinalizedByPeer(t, ctx) => PeerFinalized(n, t, env.body(t), ctx)
    case LockedByPeer(o, holder, now) => PeerLock(n, o, holder, now)
    case ExpireAll(now) => ExpireLocks(n, now)
  }

  /** A step about locks, not about a transaction. */
  predicate AboutLocks(s: Step) {
    s.ExpireAll? || s.LockedByPeer?
  }

  /** The step is not about a transaction the run starts from. */
  predicate Allowed(env: Env, s: Step) {
    AboutLocks(s) || s.t !in env.base
  }

  /** The step finalizes its transaction because of votes. */
  ghost predicate VoteWins(n: Node, s: Step) {
    match s
    case ReachThreshold(t, threshold) => Claim(n, t) >= threshold && t !in n.finalized && t in n.pending
    case VotingRound(t, elapsed, deadline, total, accept) =>
        Decide(n, t, elapsed, deadline, Claim(n, t), total, accept).Win?
    case _ => false
  }

  /** Transactions of the run are not those it starts from. */
  ghost predicate Run(env: Env, steps: seq<Step>) {
    forall s :: s in steps ==> Allowed(env, s)
  }

  ghost function After(env: Env, n: Node, steps: seq<Step>): Node {
    if steps == [] then n
    else Next(env, After(env, n, steps[..|steps| - 1]), steps[|steps| - 1])
  }

  /** Transactions confirmed by votes in the run. */
  ghost function Voted(env: Env, n: Node, steps: seq<Step>): set<TxId> {
    if steps == [] then {}
    else
      var k := |steps| - 1;
      Voted(env, n, steps[..k]) + if VoteWins(After(env, n, steps[..k]), steps[k]) then {steps[k].t} else {}
  }

  /** Every step of the run finds the node in a state where `p` holds of it. */
  ghost predicate Always(env: Env, n: Node, steps: seq<Step>, p: (Env, Node, Step) -> bool) {
    steps == [] ||
    var k := |steps| - 1;
    Always(env, n, steps[..k], p) && p(env, After(env, n, steps[..k]), steps[k])
  }

  lemma {:induction false} AlwaysPrefix(env: Env, n: Node, steps: seq<Step>, p: (Env, Node, Step) -> bool, k: nat)
    requires Always(env, n, steps, p) && k <= |steps|
    ensures Always(env, n, steps[..k], p)
    decreases |steps|
  {
    if k == |steps| {
      assert steps[..k] == steps;
    } else {
      AlwaysPrefix(env, n, steps[..|steps| - 1], p, k);
      assert steps[..|steps| - 1][..k] == steps[..k];
    }
  }

  /** A node that has nothing pending or confirmed; what is spent, base transactions spent. */
  ghost predicate Start(env: Env, n: Node) {
    && n.pending == map[] && n.confirmed == map[] && n.votes == map[]
    && (forall o :: o in n.utxo && n.utxo[o].SpentFinalized? ==> n.utxo[o].txid in env.base)
  }

  // ----- What holds in every state

  ghost predicate Bodies(env: Env, n: Node) {
    && (forall id :: id in n.pending ==> n.pending[id].tx == env.body(id) && id !in env.base && id !in n.confirmed)
    && (forall id :: id in n.confirmed ==> n.confirmed[id].tx == env.body(id) && id !in env.base)
  }

  /** Outpoints are spent for good by base or confirmed transactions only. */
  ghost predicate Spenders(env: Env, n: Node) {
    forall o :: o in n.utxo && n.utxo[o].SpentFinalized? ==> n.utxo[o].txid in env.base || n.utxo[o].txid in n.confirmed
  }

  ghost predicate Base(env: Env, n: Node) {
    Bodies(env, n) && Spenders(env, n)
  }

  /** A transaction may enter the pool: it is new and no input is a spent outpoint without a coin. */
  ghost predicate Enters(env: Env, n: Node, t: TxId) {
    && t !in env.base && t !in n.confirmed
    && forall o :: o in env.body(t).inputs ==> o in n.coins || o !in n.tombs
  }

  /** No outpoint is forgotten, and none becomes or ceases to be spent for good. */
  ghost predicate SameSpent(u: map<OutPoint, UtxoState>, v: map<OutPoint, UtxoState>) {
    && u.Keys <= v.Keys
    && (forall o :: o in u && u[o].SpentFinalized? ==> v[o] == u[o])
    && (forall o :: o in v && v[o].SpentFinalized? ==> o in u && v[o] == u[o])
  }

  /** Pool entries stay as they are or entered duly. */
  ghost predicate DueEntries(env: Env, n: Node, m: Node) {
    forall id :: id in m.pending ==>
      || (id in n.pending && m.pending[id].tx == n.pending[id].tx)
      || (m.pending[id].tx == env.body(id) && Enters(env, n, id))
  }

  /** No coin goes, and none arrives for a spent outpoint. */
  ghost predicate SameCoins(n: Node, m: Node) {
    n.coins.Keys <= m.coins.Keys && forall o :: o in m.coins && o !in n.coins ==> o !in n.tombs
  }

  /** Nothing is confirmed and nothing becomes or ceases to be spent for good. */
  ghost predicate Calm(env: Env, n: Node, m: Node) {
    && m.confirmed == n.confirmed && m.tombs == n.tombs
    && SameCoins(n, m) && SameSpent(n.utxo, m.utxo) && DueEntries(env, n, m)
  }

  lemma CalmTwice(env: Env, a: Node, b: Node, c: Node)
    requires Calm(env, a, b) && Calm(env, b, c)
    ensures Calm(env, a, c)
  {
    assert forall id :: Enters(env, b, id) ==> Enters(env, a, id);
  }

  lemma CalmBase(env: Env, n: Node, m: Node)
    requires Base(env, n) && Calm(env, n, m)
    ensures Base(env, m)
  {
  }

  /** No pool entry, confirmed transaction or holder stands against `t`, and no input was spent. */
  ghost predicate Unopposed(m: Node, t: TxId)
    requires t in m.pending
  {
    !Contested(m, t, m.pending[t].tx.inputs) && forall o :: o in m.pending[t].tx.inputs ==> o !in m.tombs
  }

  /** The same but for votes, statuses and the like. */
  ghost predicate Alike(a: Node, b: Node) {
    (a.utxo, a.coins, a.tombs, a.pending, a.confirmed) == (b.utxo, b.coins, b.tombs, b.pending, b.confirmed)
  }

  /** A change without votes: calm, then at most one unopposed finalization of `t`. */
  ghost predicate Shape(env: Env, n: Node, n': Node, t: TxId, m: Node, fin: bool) {
    && Calm(env, n, m)
    && if fin then t in m.pending && Unopposed(m, t) && Alike(Finalize(m, t), n') else n' == m
  }

  // ----- Two refinements of calm

  /** No outpoint becomes known. */
  ghost predicate Tidy(env: Env, n: Node, m: Node) {
    && m.utxo.Keys == n.utxo.Keys
    && forall id :: id in m.pending && id !in n.pending ==> forall o :: o in env.body(id).inputs ==> o in n.utxo
  }

  /** The transaction passed validation against these coins. */
  ghost predicate Validated(env: Env, coins: map<OutPoint, Coin>, t: TxId) {
    && (forall o :: o in env.body(t).inputs ==> o in coins)
    && InputSum(coins, env.body(t).inputs) >= OutputSum(env.body(t).outputs) + MIN_TX_FEE
  }

  /** And no coin arrives but by a finalization. */
  ghost predicate Vetted(env: Env, n: Node, m: Node) {
    Tidy(env, n, m) && m.coins == n.coins && forall id :: id in m.pending && id !in n.pending ==>
      Validated(env, n.coins, id)
  }

  lemma VettedTwice(env: Env, a: Node, b: Node, c: Node)
    requires Calm(env, a, b) && Vetted(env, a, b) && Vetted(env, b, c)
    ensures Vetted(env, a, c)
  {
  }

  // ----- The steps

  /** A transaction validated with its inputs locked balances, and pays at least the minimum. */
  lemma ValidatedBalance(n: Node, t: TxId, tx: Tx, ctx: Context)
    requires Validate(n, t, tx, ctx).Ok?
    requires forall o :: o in tx.inputs ==> o in n.utxo && n.utxo[o].Locked? && n.utxo[o].txid == t
    ensures tx.inputs != [] && (forall o :: o in tx.inputs ==> o in n.coins)
    ensures var fee := Validate(n, t, tx, ctx).value;
      InputSum(n.coins, tx.inputs) == OutputSum(tx.outputs) + fee && fee >= MIN_TX_FEE
  {
    if tx.inputs != [] {
      assert tx.inputs[0] in tx.inputs && !InputFinalized(n, tx.inputs[0], t);
    }
  }

  lemma LockCalm(env: Env, n: Node, s: set<OutPoint>, t: TxId, now: int)
    requires forall o :: o in s ==> CanLock(n, o, t, now)
    ensures var m := LockSet(n, s, t, now);
      && Calm(env, n, m) && m.pending == n.pending && m.coins == n.coins && m.utxo.Keys == n.utxo.Keys
      && (forall o :: o in s ==> o in m.utxo && m.utxo[o].Locked? && m.utxo[o].txid == t)
  {
  }

  lemma LockableSet(n: Node, ins: seq<OutPoint>, t: TxId, now: int)
    ensures forall o :: o in Elems(ins[..Lockable(n, ins, t, now)]) ==> CanLock(n, o, t, now)
    ensures Lockable(n, ins, t, now) == |ins| ==> ins[..Lockable(n, ins, t, now)] == ins
  {
    var k := Lockable(n, ins, t, now);
    forall o | o in ins[..k]
      ensures CanLock(n, o, t, now)
    {
      var i :| 0 <= i < k && ins[i] == o;
    }
  }

  /** Giving back outpoints that are locked leaves the rest alone. */
  lemma ReleaseCalm(env: Env, n: Node, s: set<OutPoint>)
    requires forall o :: o in s ==> o in n.utxo && n.utxo[o].Locked?
    ensures var m := WriteStates(n, s, Unspent);
      Calm(env, n, m) && m.pending == n.pending && m.coins == n.coins && m.utxo.Keys == n.utxo.Keys
  {
    assert n.utxo.Keys + s == n.utxo.Keys;
  }

  /** Locking and validating never touches a spent outpoint, and on success holds every input. */
  lemma LockAndValidateCalm(env: Env, n: Node, t: TxId, tx: Tx, ctx: Context)
    ensures var (n1, r) := LockAndValidate(n, t, tx, ctx);
      && Calm(env, n, n1) && n1.pending == n.pending && n1.coins == n.coins && n1.utxo.Keys == n.utxo.Keys
      && (r.Ok? ==> r == Validate(n1, t, tx, ctx) && forall o :: o in tx.inputs ==>
           o in n1.utxo && n1.utxo[o].Locked? && n1.utxo[o].txid == t)
  {
    var s := Elems(tx.inputs[..Lockable(n, tx.inputs, t, ctx.now)]);
    LockableSet(n, tx.inputs, t, ctx.now);
    LockCalm(env, n, s, t, ctx.now);
    LockAndValidateFrom(env, n, LockSet(n, s, t, ctx.now), t, tx, ctx);
  }

  lemma LockAndValidateFrom(env: Env, n: Node, m: Node, t: TxId, tx: Tx, ctx: Context)
    requires var k := Lockable(n, tx.inputs, t, ctx.now);
      && (k == |tx.inputs| ==> tx.inputs[..k] == tx.inputs)
      && m == LockSet(n, Elems(tx.inputs[..k]), t, ctx.now)
      && (forall o :: o in Elems(tx.inputs[..k]) ==> o in m.utxo && m.utxo[o].Locked? && m.utxo[o].txid == t)
    requires Calm(env, n, m) && m.pending == n.pending && m.coins == n.coins && m.utxo.Keys == n.utxo.Keys
    ensures var (n1, r) := LockAndValidate(n, t, tx, ctx);
      && Calm(env, n, n1) && n1.pending == n.pending && n1.coins == n.coins && n1.utxo.Keys == n.utxo.Keys
      && (r.Ok? ==> r == Validate(n1, t, tx, ctx) && forall o :: o in tx.inputs ==>
           o in n1.utxo && n1.utxo[o].Locked? && n1.utxo[o].txid == t)
  {
    if Lockable(n, tx.inputs, t, ctx.now) == |tx.inputs| && Validate(m, t, tx, ctx).Err? {
      ReleaseCalm(env, m, Elems(tx.inputs));
      CalmTwice(env, n, m, WriteStates(m, Elems(tx.inputs), Unspent));
    }
  }

  lemma EntryVetted(env: Env, n: Node, t: TxId, ctx: Context)
    ensures var (n1, r) := LockAndValidate(n, t, env.body(t), ctx);
      && Vetted(env, n, n1)
      && (r.Ok? ==> Validated(env, n.coins, t) && forall o :: o in env.body(t).inputs ==> o in n.utxo)
  {
    LockAndValidateCalm(env, n, t, env.body(t), ctx);
    var (n1, r) := LockAndValidate(n, t, env.body(t), ctx);
    if r.Ok? { ValidatedBalance(n1, t, env.body(t), ctx); }
  }

  lemma UnspentInputs(env: Env, n: Node, t: TxId, ins: seq<OutPoint>)
    requires Spenders(env, n) && t !in env.base && t !in n.confirmed && !SpentByOther(n, t, ins)
    ensures forall o :: o in ins ==> o !in n.tombs && (o in n.utxo ==> !n.utxo[o].SpentFinalized?)
  {
    forall o | o in ins
      ensures o !in n.tombs && (o in n.utxo ==> !n.utxo[o].SpentFinalized?)
    {
      assert !(o in n.utxo && HeldByOther(n.utxo[o], t) && !n.utxo[o].Locked?);
    }
  }

  lemma AdmitCalm(env: Env, n: Node, t: TxId, fee: nat)
    requires t !in env.base && t !in n.confirmed
    requires forall o :: o in env.body(t).inputs ==> o !in n.tombs
    ensures Calm(env, n, Admit(n, t, env.body(t), fee))
  {
  }

  lemma StartVotingCalm(env: Env, n: Node, t: TxId)
    requires t in n.pending
    requires forall o :: o in n.pending[t].tx.inputs ==> o in n.utxo ==> !n.utxo[o].SpentFinalized?
    ensures Calm(env, n, StartVoting(n, t))
    ensures (forall o :: o in n.pending[t].tx.inputs ==> o in n.utxo) ==> StartVoting(n, t).utxo.Keys == n.utxo.Keys
  {
  }

  lemma ProcessShape(env: Env, n: Node, t: TxId, fee: nat, ctx: Context) returns (m: Node, fin: bool)
    requires Base(env, n) && t !in env.base
    ensures Shape(env, n, Process(n, t, env.body(t), fee, ctx).0, t, m, fin)
    ensures m.pending.Keys <= n.pending.Keys + {t}
    ensures (forall o :: o in env.body(t).inputs ==> o in n.utxo) ==> Tidy(env, n, m)
    ensures m.coins == n.coins
  {
    var tx := env.body(t);
    m, fin := n, false;
    if Processable(n, t, tx, ctx) {
      UnspentInputs(env, n, t, tx.inputs);
      var n1 := Admit(n, t, tx, fee);
      AdmitCalm(env, n, t, fee);
      if Contested(n1, t, tx.inputs) {
        m := StartVoting(n1, t);
        StartVotingCalm(env, n1, t);
        CalmTwice(env, n, n1, m);
      } else {
        m, fin := n1, true;
      }
    }
  }

  /** Validated entry, then processing, as submission and gossip do it. */
  lemma EntryShape(env: Env, n: Node, t: TxId, ctx: Context) returns (m: Node, fin: bool)
    requires Base(env, n) && t !in env.base && LockAndValidate(n, t, env.body(t), ctx).1.Ok?
    ensures var (n1, r) := LockAndValidate(n, t, env.body(t), ctx);
      Shape(env, n, Process(n1, t, env.body(t), r.value, ctx).0, t, m, fin) && Vetted(env, n, m)
    ensures m.pending.Keys <= n.pending.Keys + {t}
  {
    LockAndValidateCalm(env, n, t, env.body(t), ctx);
    EntryVetted(env, n, t, ctx);
    var (n1, r) := LockAndValidate(n, t, env.body(t), ctx);
    CalmBase(env, n, n1);
    m, fin := ProcessShape(env, n1, t, r.value, ctx);
    CalmTwice(env, n, n1, m);
  }

  lemma UnlockCalm(env: Env, n: Node, ins: set<OutPoint>, t: TxId)
    ensures Calm(env, n, UnlockSet(n, ins, t)) && Vetted(env, n, UnlockSet(n, ins, t))
  {
  }

  lemma SubmitShape(env: Env, n: Node, t: TxId, ctx: Context) returns (m: Node, fin: bool)
    requires Base(env, n) && t !in env.base
    ensures Shape(env, n, Submit(n, t, env.body(t), ctx).0, t, m, fin) && Vetted(env, n, m)
    ensures m.pending.Keys <= n.pending.Keys + {t}
  {
    var tx := env.body(t);
    var (n1, r) := LockAndValidate(n, t, tx, ctx);
    LockAndValidateCalm(env, n, t, tx, ctx);
    EntryVetted(env, n, t, ctx);
    if r.Ok? && Process(n1, t, tx, r.value, ctx).1 {
      m, fin := EntryShape(env, n, t, ctx);
    } else {
      m, fin := UnlockSet(n1, Elems(tx.inputs), t), false;
      UnlockCalm(env, n1, Elems(tx.inputs), t);
      CalmTwice(env, n, n1, m);
      VettedTwice(env, n, n1, m);
    }
  }

  lemma BroadcastShape(env: Env, n: Node, t: TxId, ctx: Context) returns (m: Node, fin: bool)
    requires Base(env, n) && t !in env.base
    ensures Shape(env, n, Broadcast(n, t, env.body(t), ctx), t, m, fin) && Vetted(env, n, m)
    ensures m.pending.Keys <= n.pending.Keys + {t}
  {
    m, fin := n, false;
    if t !in n.pending && t !in n.confirmed && !SpentByOther(n, t, env.body(t).inputs) {
      LockAndValidateCalm(env, n, t, env.body(t), ctx);
      EntryVetted(env, n, t, ctx);
      if LockAndValidate(n, t, env.body(t), ctx).1.Ok? {
        m, fin := EntryShape(env, n, t, ctx);
      } else {
        m := LockAndValidate(n, t, env.body(t), ctx).0;
      }
    }
  }

  lemma RequestCalm(env: Env, n: Node, t: TxId, ctx: Context)
    requires Base(env, n) && t !in env.base
    ensures Calm(env, n, VoteRequest(n, t, env.body(t), ctx)) && Vetted(env, n, VoteRequest(n, t, env.body(t), ctx))
    ensures VoteRequest(n, t, env.body(t), ctx).pending.Keys <= n.pending.Keys + {t}
  {
    LockAndValidateCalm(env, n, t, env.body(t), ctx);
    EntryVetted(env, n, t, ctx);
    var (n1, r) := LockAndValidate(n, t, env.body(t), ctx);
    if r.Ok? && CanAdmit(n1, t) {
      AdmitCoinedCalm(env, n1, t, r.value);
      CalmTwice(env, n, n1, Admit(n1, t, env.body(t), r.value));
    }
  }

  lemma AdmitCoinedCalm(env: Env, n: Node, t: TxId, fee: nat)
    requires t !in env.base && t !in n.confirmed
    requires forall o :: o in env.body(t).inputs ==> o in n.coins
    ensures Calm(env, n, Admit(n, t, env.body(t), fee))
  {
  }

  lemma DropCalm(env: Env, n: Node, t: TxId)
    ensures Calm(env, n, Reject(n, t)) && Vetted(env, n, Reject(n, t))
    ensures t in n.pending ==> Calm(env, n, Evict(n, t)) && Vetted(env, n, Evict(n, t))
  {
  }

  lemma ExpireCalm(env: Env, n: Node, now: int)
    ensures Calm(env, n, ExpireLocks(n, now)) && Vetted(env, n, ExpireLocks(n, now))
  {
  }

  lemma RelockCalm(env: Env, n: Node, ins: seq<OutPoint>, t: TxId, now: int)
    ensures Calm(env, n, Relock(n, ins, t, now)) && Vetted(env, n, Relock(n, ins, t, now))
  {
  }

  lemma RepairCalm(env: Env, n: Node, t: TxId, fee: nat)
    requires t in n.pending
    ensures Calm(env, n, Admit(n, t, n.pending[t].tx, fee)) && Vetted(env, n, Admit(n, t, n.pending[t].tx, fee))
  {
  }

  /** Once its competitors are rejected, a transaction that clashes with nothing else is unopposed. */
  lemma WinnerShape(env: Env, n: Node, t: TxId)
    requires Base(env, n) && t in n.pending
    requires !OwnedByOther(n, t, n.pending[t].tx.inputs) && !PoolConflict(n.confirmed, t, n.pending[t].tx.inputs)
    requires forall o :: o in n.pending[t].tx.inputs ==> o !in n.tombs
    ensures var m := RejectAll(n, Competitors(n, t, n.pending[t].tx.inputs));
      Calm(env, n, m) && Vetted(env, n, m) && t in m.pending && m.pending[t] == n.pending[t] && Unopposed(m, t)
  {
    var ins := n.pending[t].tx.inputs;
    var m := RejectAll(n, Competitors(n, t, ins));
    assert !PoolConflict(m.pending, t, ins);
    assert !OwnedByOther(m, t, ins);
  }

  lemma RecoverShape(env: Env, n: Node, t: TxId, ctx: Context) returns (m: Node, fin: bool)
    requires Base(env, n)
    ensures Shape(env, n, Recover(n, t, ctx), t, m, fin) && Vetted(env, n, m) && m.pending.Keys <= n.pending.Keys
  {
    m, fin := n, false;
    if t in n.pending {
      var tx := n.pending[t].tx;
      if SpentByOther(n, t, tx.inputs) {
        DropCalm(env, n, t);
        m := Reject(n, t);
      } else {
        UnspentInputs(env, n, t, tx.inputs);
        var n1 := Relock(n, tx.inputs, t, ctx.now);
        RelockCalm(env, n, tx.inputs, t, ctx.now);
        CalmBase(env, n, n1);
        m, fin := ResumeShape(env, n1, t, Validate(n1, t, tx, ctx));
        CalmTwice(env, n, n1, m);
        VettedTwice(env, n, n1, m);
      }
    }
  }

  lemma ResumeShape(env: Env, n: Node, t: TxId, r: Result<nat>) returns (m: Node, fin: bool)
    requires Base(env, n) && t in n.pending && forall o :: o in n.pending[t].tx.inputs ==> o !in n.tombs
    ensures Shape(env, n, Resume(n, t, r), t, m, fin) && Vetted(env, n, m) && m.pending.Keys <= n.pending.Keys
  {
    if r.Err? {
      DropCalm(env, n, t);
      m, fin := Reject(n, t), false;
    } else if n.pending[t].fee == 0 && r.value > 0 {
      var n1 := Admit(n, t, n.pending[t].tx, r.value);
      RepairCalm(env, n, t, r.value);
      CalmBase(env, n, n1);
      m, fin := SettleShape(env, n1, t);
      CalmTwice(env, n, n1, m);
      VettedTwice(env, n, n1, m);
    } else {
      m, fin := SettleShape(env, n, t);
    }
  }

  lemma SettleShape(env: Env, n: Node, t: TxId) returns (m: Node, fin: bool)
    requires Base(env, n) && t in n.pending && forall o :: o in n.pending[t].tx.inputs ==> o !in n.tombs
    ensures Shape(env, n, Settle(n, t), t, m, fin) && Vetted(env, n, m) && m.pending.Keys <= n.pending.Keys
  {
    var ins := n.pending[t].tx.inputs;
    m, fin := n, false;
    if !OwnedByOther(n, t, ins) && !PoolConflict(n.confirmed, t, ins) {
      WinnerShape(env, n, t);
      m, fin := RejectAll(n, Competitors(n, t, ins)), true;
    }
  }

  lemma StillCalm(env: Env, n: Node, m: Node)
    ensures Alike(n, m) ==> Calm(env, n, m) && Vetted(env, n, m)
  {
  }

  // ----- What peers tell

  lemma AddOutputsCalm(env: Env, n: Node, t: TxId, outs: seq<Coin>)
    ensures Calm(env, n, AddOutputs(n, t, outs)) && AddOutputs(n, t, outs).pending == n.pending
  {
  }

  lemma PeerLockCalm(env: Env, n: Node, o: OutPoint, t: TxId, now: int)
    ensures Calm(env, n, PeerLock(n, o, t, now)) && Vetted(env, n, PeerLock(n, o, t, now))
    ensures PeerLock(n, o, t, now).pending == n.pending
  {
    if CanLock(n, o, t, now) { LockCalm(env, n, {o}, t, now); }
  }

  /** A transaction that nothing opposes is still unopposed once locked, validated and admitted. */
  lemma AdmittedUnopposed(env: Env, n: Node, n1: Node, t: TxId, fee: nat)
    requires Calm(env, n, n1) && n1.pending == n.pending && t !in n.pending
    requires forall o :: o in env.body(t).inputs ==> o in n1.utxo && n1.utxo[o].Locked? && n1.utxo[o].txid == t
    requires !Contested(n, t, env.body(t).inputs) && forall o :: o in env.body(t).inputs ==> o !in n.tombs
    ensures Unopposed(Admit(n1, t, env.body(t), fee), t)
  {
    var m := Admit(n1, t, env.body(t), fee);
    assert !PoolConflict(m.pending, t, env.body(t).inputs);
    assert !OwnedByOther(m, t, env.body(t).inputs);
  }

  lemma PeerEntryShape(env: Env, n: Node, t: TxId, ctx: Context) returns (m: Node, fin: bool)
    requires Base(env, n) && t !in env.base && t !in n.confirmed && t !in n.pending
    requires !SpentByOther(n, t, env.body(t).inputs) && !Contested(n, t, env.body(t).inputs)
    ensures var (n1, r) := LockAndValidate(n, t, env.body(t), ctx);
      Shape(env, n, EnterConfirmed(n1, t, env.body(t), r), t, m, fin)
    ensures Vetted(env, n, m) && m.pending.Keys <= n.pending.Keys + {t}
  {
    LockAndValidateCalm(env, n, t, env.body(t), ctx);
    EntryVetted(env, n, t, ctx);
    var (n1, r) := LockAndValidate(n, t, env.body(t), ctx);
    m, fin := n1, false;
    if r.Ok? && CanAdmit(n1, t) {
      UnspentInputs(env, n, t, env.body(t).inputs);
      AdmittedUnopposed(env, n, n1, t, r.value);
      AdmitCalm(env, n1, t, r.value);
      m, fin := Admit(n1, t, env.body(t), r.value), true;
      CalmTwice(env, n, n1, m);
    }
  }

  /** What a peer calls final is confirmed only if nothing opposes it here. */
  lemma PeerShape(env: Env, n: Node, t: TxId, ctx: Context) returns (m: Node, fin: bool)
    requires Base(env, n) && t !in env.base
    ensures Shape(env, n, PeerFinalized(n, t, env.body(t), ctx), t, m, fin)
    ensures !Diverged(n, env.body(t).inputs) ==> Vetted(env, n, m)
    ensures m.pending.Keys <= n.pending.Keys + {t}
  {
    var tx := env.body(t);
    StillCalm(env, n, n);
    m, fin := n, false;
    if !((tx.inputs == [] && tx.outputs == []) || (tx.inputs != [] && tx.version < 2) || t in n.confirmed) {
      if Diverged(n, tx.inputs) {
        AddOutputsCalm(env, n, t, tx.outputs);
        m := AddOutputs(n, t, tx.outputs);
      } else if !SpentByOther(n, t, tx.inputs) && !Contested(n, t, tx.inputs) {
        if t in n.pending {
          UnspentInputs(env, n, t, tx.inputs);
          fin := Validate(n, t, tx, ctx).Ok?;
        } else {
          m, fin := PeerEntryShape(env, n, t, ctx);
        }
      }
    }
  }

  // ----- Votes

  lemma ThresholdShape(env: Env, n: Node, t: TxId, weight: nat, threshold: nat)
    ensures var m := VoteThreshold(n, t, weight, threshold);
      if weight >= threshold && t !in n.finalized && t in n.pending then m == Finalize(n, t)
          else Calm(env, n, m) && Vetted(env, n, m)
  {
    StillCalm(env, n, VoteThreshold(n, t, weight, threshold));
  }

  lemma RoundShape(env: Env, n: Node, t: TxId, elapsed: nat, deadline: nat, weight: nat, total: nat, accept: bool)
    ensures var m := VoteTimeout(n, t, elapsed, deadline, weight, total, accept);
      if Decide(n, t, elapsed, deadline, weight, total, accept).Win? then t in n.pending && m == Finalize(n, t)
      else Calm(env, n, m) && Vetted(env, n, m)
  {
    DropCalm(env, n, t);
    StillCalm(env, n, n);
  }

  /** A voting step finalizes its transaction as it stands, or changes nothing that counts. */
  lemma VoteShape(env: Env, n: Node, s: Step)
    requires s.AcceptVote? || s.ReachThreshold? || s.VotingRound?
    ensures VoteWins(n, s) ==> s.t in n.pending && Next(env, n, s) == Finalize(n, s.t)
    ensures !VoteWins(n, s) ==> Calm(env, n, Next(env, n, s)) && Vetted(env, n, Next(env, n, s))
    ensures !VoteWins(n, s) ==> Next(env, n, s).pending.Keys <= n.pending.Keys
  {
    match s
    case AcceptVote(v, w, t) => StillCalm(env, n, StoreVote(n, v, w, t));
    case ReachThreshold(t, threshold) => ThresholdShape(env, n, t, Claim(n, t), threshold);
    case VotingRound(t, elapsed, deadline, total, accept) =>
        RoundShape(env, n, t, elapsed, deadline, Claim(n, t), total, accept);
  }

  /** Mempool sync and finalizations told by peers bring inputs the node knows. */
  ghost predicate KnownStep(env: Env, n: Node, s: Step) {
    && (s.SyncTx? ==> forall o :: o in env.body(s.t).inputs ==> o in n.utxo)
    && (s.FinalizedByPeer? ==> !Diverged(n, env.body(s.t).inputs))
  }

  /** The transaction a step may bring into the pool. */
  ghost function Entrant(s: Step): set<TxId> {
    if s.SubmitTx? || s.GossipTx? || s.SyncTx? || s.RequestVote? || s.FinalizedByPeer? then {s.t} else {}
  }

  /** The steps that may finalize without votes. */
  predicate MayFinalize(s: Step) {
    s.SubmitTx? || s.GossipTx? || s.SyncTx? || s.RecoverTx? || s.FinalizedByPeer?
  }

  /** Every step without a vote-driven finalization has the shape above. */
  lemma StepShape(env: Env, n: Node, s: Step) returns (m: Node, fin: bool)
    requires Base(env, n) && Allowed(env, s) && !VoteWins(n, s)
    ensures Shape(env, n, Next(env, n, s), if AboutLocks(s) then 0 else s.t, m, fin) && (AboutLocks(s) ==> !fin)
    ensures KnownStep(env, n, s) ==> Tidy(env, n, m)
    ensures !s.SyncTx? && KnownStep(env, n, s) ==> Vetted(env, n, m)
    ensures m.pending.Keys <= n.pending.Keys + Entrant(s)
  {
    if MayFinalize(s) {
      m, fin := EntryStep(env, n, s);
    } else {
      m, fin := Next(env, n, s), false;
      CalmStep(env, n, s);
    }
  }

  lemma EntryStep(env: Env, n: Node, s: Step) returns (m: Node, fin: bool)
    requires Base(env, n) && Allowed(env, s) && MayFinalize(s)
    ensures Shape(env, n, Next(env, n, s), s.t, m, fin) && m.pending.Keys <= n.pending.Keys + Entrant(s)
    ensures KnownStep(env, n, s) ==> Tidy(env, n, m)
    ensures !s.SyncTx? && KnownStep(env, n, s) ==> Vetted(env, n, m)
  {
    match s
    case SubmitTx(t, ctx) => m, fin := SubmitShape(env, n, t, ctx);
    case GossipTx(t, ctx) => m, fin := BroadcastShape(env, n, t, ctx);
    case SyncTx(t, fee, ctx) => m, fin := ProcessShape(env, n, t, fee, ctx);
    case RecoverTx(t, ctx) => m, fin := RecoverShape(env, n, t, ctx);
    case FinalizedByPeer(t, ctx) => m, fin := PeerShape(env, n, t, ctx);
  }

  /** The steps that never finalize without votes. */
  lemma CalmStep(env: Env, n: Node, s: Step)
    requires Base(env, n) && Allowed(env, s) && !VoteWins(n, s)
    requires !MayFinalize(s)
    ensures Calm(env, n, Next(env, n, s)) && Vetted(env, n, Next(env, n, s))
    ensures Next(env, n, s).pending.Keys <= n.pending.Keys + Entrant(s)
  {
    match s
    case RequestVote(t, ctx) => RequestCalm(env, n, t, ctx);
    case RejectTx(t) => DropCalm(env, n, t);
    case EvictTx(t) => DropCalm(env, n, t);
    case LockedByPeer(o, holder, now) => PeerLockCalm(env, n, o, holder, now);
    case ExpireAll(now) => ExpireCalm(env, n, now);
    case _ => VoteShape(env, n, s);
  }

  // ----- Finalization

  /** What a finalization changes, outpoint by outpoint. */
  lemma FinalizeFacts(n: Node, t: TxId)
    requires t in n.pending
    ensures var tx, n' := n.pending[t].tx, Finalize(n, t);
      var claimed, own := Claimed(n, Elems(tx.inputs), t), OwnOutputs(t, tx.outputs);
      && n'.confirmed == n.confirmed[t := n.pending[t]] && n'.pending == n.pending - {t} && n'.votes == n.votes
      && n'.tombs == n.tombs + claimed && n'.utxo.Keys == n.utxo.Keys + claimed + own
      && (forall o :: o in n'.utxo ==>
            n'.utxo[o] == if o in own then Unspent else if o in claimed then SpentFinalized(t) else n.utxo[o])
  {
  }

  /** The coins of a finalization: claimed ones go, outputs neither known nor spent arrive. */
  lemma FinalizeCoins(n: Node, t: TxId)
    requires t in n.pending
    ensures var tx := n.pending[t].tx;
      Finalize(n, t).coins ==
        (n.coins - Claimed(n, Elems(tx.inputs), t)) + Minting(Mark(n, Elems(tx.inputs), t), t, tx.outputs)
  {
    var tx := n.pending[t].tx;
    var n1 := n.(pending := n.pending - {t}, confirmed := n.confirmed[t := n.pending[t]]);
    assert Claimed(n1, Elems(tx.inputs), t) == Claimed(n, Elems(tx.inputs), t);
    assert Mark(n1, Elems(tx.inputs), t).utxo == Mark(n, Elems(tx.inputs), t).utxo;
  }

  lemma FinalizeBase(env: Env, n: Node, t: TxId)
    requires Base(env, n) && t in n.pending
    ensures Base(env, Finalize(n, t))
  {
    FinalizeFacts(n, t);
  }

  /** Base holds in every reachable state. */
  lemma StepBase(env: Env, n: Node, s: Step)
    requires Base(env, n) && Allowed(env, s)
    ensures Base(env, Next(env, n, s))
  {
    if VoteWins(n, s) {
      VoteShape(env, n, s);
      FinalizeBase(env, n, s.t);
    } else {
      var m, fin := StepShape(env, n, s);
      CalmBase(env, n, m);
      if fin {
        FinalizeBase(env, m, s.t);
        StillCalm(env, Finalize(m, s.t), Next(env, n, s));
        CalmBase(env, Finalize(m, s.t), Next(env, n, s));
      }
    }
  }

  lemma {:induction false} RunBase(env: Env, n: Node, steps: seq<Step>)
    requires Start(env, n) && Run(env, steps)
    ensures Base(env, After(env, n, steps))
    decreases |steps|
  {
    if steps != [] {
      var k := |steps| - 1;
      RunPrefix(env, steps, k);
      RunBase(env, n, steps[..k]);
      assert steps[k] in steps;
      StepBase(env, After(env, n, steps[..k]), steps[k]);
    }
  }

  lemma RunPrefix(env: Env, steps: seq<Step>, k: nat)
    requires Run(env, steps) && k <= |steps|
    ensures Run(env, steps[..k])
  {
    forall s | s in steps[..k] ensures s in steps { }
  }
}
