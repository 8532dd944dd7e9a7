/** One node's view of outpoints and transactions, and what each operation of the UTXO
    manager, the transaction pool and the consensus engine makes of it. Block-only, special
    and banned transactions are not modelled. */
module Ledger {

  import opened Quorum
  import opened Fees
  import opened Transactions
  import opened Wrappers

  const LOCK_TIMEOUT_SECS: int := 600
  const MAX_POOL: nat := 10_000
  const DUST_THRESHOLD: nat := 1_000

  datatype OutPoint = OutPoint(txid: TxId, vout: nat)
  datatype Coin = Coin(value: nat, address: string)
  datatype Tx = Tx(version: nat, inputs: seq<OutPoint>, outputs: seq<Coin>)
  datatype Entry = Entry(tx: Tx, fee: nat)

  datatype UtxoState =
    | Unspent
    | Locked(txid: TxId, lockedAt: int)
    | SpentPending(txid: TxId)
    | SpentFinalized(txid: TxId)
    | Archived(txid: TxId)

  /** `utxo` is the in-memory state map, `coins` the stored outputs, `tombs` the outpoints
      recorded as spent for good, `votes` the weight each stored Accept vote claims. */
  datatype Node = Node(
    utxo: map<OutPoint, UtxoState>,
    coins: map<OutPoint, Coin>,
    tombs: set<OutPoint>,
    collateral: set<OutPoint>,
    pending: map<TxId, Entry>,
    confirmed: map<TxId, Entry>,
    rejected: set<TxId>,
    status: map<TxId, Status>,
    finalized: set<TxId>,
    votes: map<TxId, map<Voter, nat>>)

  /** Facts a call takes from outside: the clock, the size and signature checks, the
      number of masternodes and the fee schedule in force. */
  datatype Context = Context(now: int, sizeOk: bool, signed: bool, masternodes: nat, schedule: FeeSchedule)

  function Elems(s: seq<OutPoint>): (r: set<OutPoint>) {
    set o | o in s
  }

  ghost predicate Overlap(a: seq<OutPoint>, b: seq<OutPoint>) {
    exists o :: o in a && o in b
  }

  // ----- Outpoint states

  predicate HeldByOther(s: UtxoState, t: TxId) {
    !s.Unspent? && s.txid != t
  }

  predicate LockExpired(at: int, now: int) {
    now - at > LOCK_TIMEOUT_SECS
  }

  predicate CanLock(n: Node, o: OutPoint, t: TxId, now: int) {
    && o !in n.collateral
    && o in n.utxo
    && match n.utxo[o] {
         case Unspent => true
         case Locked(x, at) => x == t || LockExpired(at, now)
         case _ => false
       }
  }

  /** Outpoints of `s` become locked for `t`; a lock `t` already holds keeps its age. */
  function LockSet(n: Node, s: set<OutPoint>, t: TxId, now: int): Node {
    n.(utxo := map o | o in n.utxo :: if o in s && !(n.utxo[o].Locked? && n.utxo[o].txid == t) then Locked(t, now)
      else n.utxo[o])
  }

  /** Length of the longest prefix of inputs that can be locked in turn. */
  function Lockable(n: Node, ins: seq<OutPoint>, t: TxId, now: int): (k: nat)
    ensures k <= |ins|
    ensures forall i :: 0 <= i < k ==> CanLock(n, ins[i], t, now)
    ensures k < |ins| ==> !CanLock(n, ins[k], t, now)
  {
    if ins == [] || !CanLock(n, ins[0], t, now) then 0
    else 1 + Lockable(n, ins[1..], t, now)
  }

  /** Outpoints of `s` are given one state, known before or not. */
  function WriteStates(n: Node, s: set<OutPoint>, st: UtxoState): Node {
    n.(utxo := map o | o in n.utxo.Keys + s :: if o in s then st else n.utxo[o])
  }

  /** Locks held by `t` on outpoints of `s` are given back. */
  function UnlockSet(n: Node, s: set<OutPoint>, t: TxId): Node {
    n.(utxo := map o | o in n.utxo :: if o in s && n.utxo[o].Locked? && n.utxo[o].txid == t then Unspent else n.utxo[o])
  }

  function ExpireLocks(n: Node, now: int): Node {
    n.(utxo := map o | o in n.utxo :: if n.utxo[o].Locked? && LockExpired(n.utxo[o].lockedAt, now) then Unspent
      else n.utxo[o])
  }

  /** `t` may take the outpoint for good: nobody else holds it and it was not spent before. */
  predicate Claimable(n: Node, o: OutPoint, t: TxId) {
    if o in n.utxo then !HeldByOther(n.utxo[o], t) else o !in n.tombs
  }

  /** Outpoints of `s` that `mark_timevote_finalized` changes for `t`. */
  function Claimed(n: Node, s: set<OutPoint>, t: TxId): set<OutPoint> {
    set o | o in s && Claimable(n, o, t) && !(o in n.utxo && n.utxo[o] == SpentFinalized(t))
  }

  function Mark(n: Node, s: set<OutPoint>, t: TxId): Node {
    var c := Claimed(n, s, t);
    WriteStates(n, c, SpentFinalized(t)).(coins := n.coins - c, tombs := n.tombs + c)
  }

  /** Coins that `Create` adds. */
  function Minting(n: Node, t: TxId, outs: seq<Coin>): map<OutPoint, Coin> {
    map o | o in OwnOutputs(t, outs) && o !in n.tombs && o !in n.utxo :: outs[o.vout]
  }

  function OwnOutputs(t: TxId, outs: seq<Coin>): set<OutPoint> {
    set i | 0 <= i < |outs| :: OutPoint(t, i)
  }

  /** Outputs become coins unless the outpoint is known or spent; all become Unspent. */
  function Create(n: Node, t: TxId, outs: seq<Coin>): Node {
    WriteStates(n, OwnOutputs(t, outs), Unspent).(coins := n.coins + Minting(n, t, outs))
  }

  // ----- Validation

  /** Summed value of the inputs, one term for each mention of an outpoint. */
  function InputSum(coins: map<OutPoint, Coin>, ins: seq<OutPoint>): nat
    requires forall o :: o in ins ==> o in coins
  {
    if ins == [] then 0 else coins[ins[0]].value + InputSum(coins, ins[1..])
  }

  function OutputSum(outs: seq<Coin>): nat {
    if outs == [] then 0 else outs[0].value + OutputSum(outs[1..])
  }

  predicate InputUsable(n: Node, o: OutPoint, t: TxId) {
    && o !in n.collateral
    && if o in n.utxo then !HeldByOther(n.utxo[o], t) && !n.utxo[o].Archived? else o in n.tombs || o in n.coins
  }

  predicate InputFinalized(n: Node, o: OutPoint, t: TxId) {
    if o in n.utxo then n.utxo[o] == SpentFinalized(t) else o in n.tombs
  }

  /** All inputs come from one address and every output goes back to it. */
  predicate SelfSend(n: Node, tx: Tx)
    requires forall o :: o in tx.inputs ==> o in n.coins
  {
    && tx.inputs != []
    && var a := n.coins[tx.inputs[0]].address;
       && (forall o :: o in tx.inputs ==> n.coins[o].address == a)
       && forall c :: c in tx.outputs ==> c.address == a
  }

  function Validate(n: Node, t: TxId, tx: Tx, ctx: Context): (r: Result<nat>)
    ensures r.Ok? ==> forall o :: o in tx.inputs ==> InputUsable(n, o, t)
    ensures r.Ok? && (exists o :: o in tx.inputs && !InputFinalized(n, o, t)) ==>
      && (forall o :: o in tx.inputs ==> o in n.coins)
      && InputSum(n.coins, tx.inputs) == OutputSum(tx.outputs) + r.value
      && r.value >= MIN_TX_FEE
  {
    if !ctx.sizeOk then Err
    else if exists o :: o in tx.inputs && !InputUsable(n, o, t) then Err
    else if tx.inputs != [] && forall o :: o in tx.inputs ==> InputFinalized(n, o, t) then Ok(0)
    else if exists o :: o in tx.inputs && o !in n.coins then Err
    else
      var inputSum, outputSum := InputSum(n.coins, tx.inputs), OutputSum(tx.outputs);
      var fee := Net(inputSum, outputSum);
      var sendAmount := if tx.outputs == [] then outputSum else tx.outputs[0].value;
      if exists c :: c in tx.outputs && 0 < c.value < DUST_THRESHOLD then Err
      else if outputSum < SATOSHIS_PER_TIME || fee < MIN_TX_FEE then Err
      else if !SelfSend(n, tx) && fee < RequiredFee(ctx.schedule, sendAmount) then Err
      else if inputSum < outputSum || !ctx.signed then Err
      else Ok(fee)
  }

  function LockAndValidate(n: Node, t: TxId, tx: Tx, ctx: Context): (Node, Result<nat>) {
    var k := Lockable(n, tx.inputs, t, ctx.now);
    var n1 := LockSet(n, Elems(tx.inputs[..k]), t, ctx.now);
    if k < |tx.inputs| then (n1, Err)
    else
      var r := Validate(n1, t, tx, ctx);
      if r.Ok? then (n1, r) else (WriteStates(n1, Elems(tx.inputs), Unspent), r)
  }

  // ----- Pool and conflicts

  predicate SpentByOther(n: Node, t: TxId, ins: seq<OutPoint>) {
    exists o :: o in ins &&
      (|| (o in n.utxo && HeldByOther(n.utxo[o], t) && !n.utxo[o].Locked?)
       || (o in n.tombs && !(o in n.utxo && n.utxo[o] == SpentFinalized(t))))
  }

  /** Another pool entry spends one of the inputs. */
  predicate PoolConflict(pool: map<TxId, Entry>, t: TxId, ins: seq<OutPoint>) {
    exists id :: id in pool && id != t && exists o :: o in pool[id].tx.inputs && o in ins
  }

  predicate OwnedByOther(n: Node, t: TxId, ins: seq<OutPoint>) {
    exists o :: o in ins && o in n.utxo && HeldByOther(n.utxo[o], t)
  }

  predicate Contested(n: Node, t: TxId, ins: seq<OutPoint>) {
    PoolConflict(n.pending, t, ins) || PoolConflict(n.confirmed, t, ins) || OwnedByOther(n, t, ins)
  }

  predicate CanAdmit(n: Node, t: TxId) {
    t !in n.pending && t !in n.confirmed && t !in n.rejected && |n.pending| < MAX_POOL
  }

  function Admit(n: Node, t: TxId, tx: Tx, fee: nat): Node {
    n.(pending := n.pending[t := Entry(tx, fee)])
  }

  /** A pending transaction is confirmed: inputs are marked, outputs created. */
  function Finalize(n: Node, t: TxId): Node
    requires t in n.pending
  {
    var e := n.pending[t];
    var n1 := n.(pending := n.pending - {t}, confirmed := n.confirmed[t := e]);
    var n2 := Create(Mark(n1, Elems(e.tx.inputs), t), t, e.tx.outputs);
    n2.(finalized := n2.finalized + {t}, status := n2.status[t := Finalized])
  }

  /** Voting starts: every input is claimed as pending, whoever holds it. */
  function StartVoting(n: Node, t: TxId): Node
    requires t in n.pending
  {
    WriteStates(n, Elems(n.pending[t].tx.inputs), SpentPending(t)).(status := n.status[t := Voting])
  }

  // ----- Engine operations

  predicate Processable(n: Node, t: TxId, tx: Tx, ctx: Context) {
    && ctx.masternodes > 0
    && tx.inputs != [] && tx.outputs != [] && tx.version >= 2
    && !SpentByOther(n, t, tx.inputs)
    && CanAdmit(n, t)
  }

  function Process(n: Node, t: TxId, tx: Tx, fee: nat, ctx: Context): (Node, bool) {
    if !Processable(n, t, tx, ctx) then (n, false)
    else
      var n1 := Admit(n, t, tx, fee);
      (if Contested(n1, t, tx.inputs) then StartVoting(n1, t) else Finalize(n1, t), true)
  }

  function Submit(n: Node, t: TxId, tx: Tx, ctx: Context): (Node, bool) {
    var (n1, r) := LockAndValidate(n, t, tx, ctx);
    if r.Err? then (UnlockSet(n1, Elems(tx.inputs), t), false)
    else
      var (n2, ok) := Process(n1, t, tx, r.value, ctx);
      if ok then (n2, true) else (UnlockSet(n2, Elems(tx.inputs), t), false)
  }

  /** A transaction gossiped by a peer; locks of a failed attempt stay in place. */
  function Broadcast(n: Node, t: TxId, tx: Tx, ctx: Context): Node {
    if t in n.pending || t in n.confirmed || SpentByOther(n, t, tx.inputs) then n
    else
      var (n1, r) := LockAndValidate(n, t, tx, ctx);
      if r.Err? then n1 else Process(n1, t, tx, r.value, ctx).0
  }

  /** A vote request carrying an unknown transaction: locked, validated, kept pending. */
  function VoteRequest(n: Node, t: TxId, tx: Tx, ctx: Context): Node {
    if t in n.pending then n
    else
      var (n1, r) := LockAndValidate(n, t, tx, ctx);
      if r.Ok? && CanAdmit(n1, t) then Admit(n1, t, tx, r.value) else n1
  }

  /** Some input has neither a coin nor a record of being spent. */
  predicate Diverged(n: Node, ins: seq<OutPoint>) {
    exists o :: o in ins && o !in n.coins && o !in n.tombs
  }

  /** Outputs neither known nor spent are added; nothing else is touched. */
  function AddOutputs(n: Node, t: TxId, outs: seq<Coin>): Node {
    var m := Minting(n, t, outs);
    n.(utxo := map o | o in n.utxo.Keys + m.Keys :: if o in n.utxo then n.utxo[o] else Unspent, coins := n.coins + m)
  }

  /** A finalization leaves the status and the record of finalized transactions alone when a
      peer tells of it. */
  function ConfirmPending(n: Node, t: TxId): Node
    requires t in n.pending
  {
    Finalize(n, t).(status := n.status, finalized := n.finalized)
  }

  /** A validated transaction enters the pool and is confirmed there. */
  function EnterConfirmed(n: Node, t: TxId, tx: Tx, r: Result<nat>): Node {
    if r.Err? || !CanAdmit(n, t) then n else ConfirmPending(Admit(n, t, tx, r.value), t)
  }

  /** A peer tells that the transaction is final: it is confirmed if nothing here is against
      it and it validates; with an unknown input only its outputs are added. */
  function PeerFinalized(n: Node, t: TxId, tx: Tx, ctx: Context): Node {
    if (tx.inputs == [] && tx.outputs == []) || (tx.inputs != [] && tx.version < 2) || t in n.confirmed then n
    else if Diverged(n, tx.inputs) then AddOutputs(n, t, tx.outputs)
    else if SpentByOther(n, t, tx.inputs) || Contested(n, t, tx.inputs) then n
    else if t in n.pending then if Validate(n, t, tx, ctx).Ok? then ConfirmPending(n, t) else n
    else
      var (n1, r) := LockAndValidate(n, t, tx, ctx);
      EnterConfirmed(n1, t, tx, r)
  }

  /** A lock a peer tells of, taken over if the outpoint can be locked. */
  function PeerLock(n: Node, o: OutPoint, t: TxId, now: int): Node {
    if CanLock(n, o, t, now) then LockSet(n, {o}, t, now) else n
  }

  function Reject(n: Node, t: TxId): Node {
    var n1 := if t in n.pending then UnlockSet(n, Elems(n.pending[t].tx.inputs), t) else n;
    n1.(pending := n1.pending - {t}, rejected := n1.rejected + {t}, status := n1.status[t := Rejected])
  }

  /** Inputs given back when a stale pending transaction is dropped. */
  function Evict(n: Node, t: TxId): Node
    requires t in n.pending
  {
    var ins := Elems(n.pending[t].tx.inputs);
    n.(utxo := map o | o in n.utxo ::
         if o in ins && o !in n.collateral && (n.utxo[o].Locked? || n.utxo[o].SpentPending?) && n.utxo[o].txid == t
         then Unspent else n.utxo[o],
       pending := n.pending - {t}, status := n.status[t := Rejected],
       finalized := n.finalized - {t}, votes := n.votes - {t})
  }

  /** Still pending, no input spent for good, not rejected. */
  predicate StillValid(n: Node, t: TxId) {
    && t in n.pending
    && (forall o :: o in n.pending[t].tx.inputs ==> o in n.utxo ==> !n.utxo[o].SpentFinalized? && !n.utxo[o].Archived?)
    && !(t in n.status && n.status[t] == Rejected)
  }

  datatype Tick = Wait | Extend(deadline: nat) | Stop | Drop | Win

  const MAX_DEADLINE: nat := 15

  /** What one round of the voting loop decides, from the clock and the stored votes. */
  function Decide(n: Node, t: TxId, elapsed: nat, deadline: nat, weight: nat, total: nat, accept: bool): (d: Tick)
    ensures d.Win? ==> StillValid(n, t) && weight >= VoteFinalityThreshold(total, elapsed).0
    ensures d.Extend? ==> deadline < MAX_DEADLINE && d.deadline == deadline + 5
  {
    if t in n.finalized || t in n.confirmed || !StillValid(n, t) then Stop
    else if elapsed < deadline then Wait
    else
      var (threshold, floor) := VoteFinalityThreshold(total, elapsed);
      if weight < floor && deadline < MAX_DEADLINE then Extend(deadline + 5)
      else if !accept || weight < threshold then Drop
      else Win
  }

  function VoteTimeout(n: Node, t: TxId, elapsed: nat, deadline: nat, weight: nat, total: nat, accept: bool): Node {
    match Decide(n, t, elapsed, deadline, weight, total, accept)
    case Drop => Reject(n, t)
    case Win => Finalize(n, t)
    case _ => n
  }

  function VotesFor(n: Node, t: TxId): map<Voter, nat> {
    if t in n.votes then n.votes[t] else map[]
  }

  /** The first vote of a voter is stored with the weight it claims. */
  function StoreVote(n: Node, v: Voter, weight: nat, t: TxId): Node {
    if v in VotesFor(n, t) then n else n.(votes := n.votes[t := VotesFor(n, t)[v := weight]])
  }

  /** The vote that reaches the threshold confirms the transaction if it is pending. */
  function VoteThreshold(n: Node, t: TxId, weight: nat, threshold: nat): Node {
    if weight < threshold || t in n.finalized then n
    else if t in n.pending then Finalize(n, t)
    else n.(finalized := n.finalized + {t})
  }

  /** Unspent inputs are locked again, as far as collateral allows. */
  function Relock(n: Node, ins: seq<OutPoint>, t: TxId, now: int): Node {
    LockSet(n, (set o | o in ins && o in n.utxo && n.utxo[o].Unspent? && o !in n.collateral), t, now)
  }

  function Competitors(n: Node, t: TxId, ins: seq<OutPoint>): set<TxId> {
    set id | id in n.pending && id != t && exists o :: o in n.pending[id].tx.inputs && o in ins
  }

  /** Locks held by a transaction of `ids` on one of its own inputs. */
  predicate LockOfOne(n: Node, o: OutPoint, ids: set<TxId>) {
    o in n.utxo && n.utxo[o].Locked? && n.utxo[o].txid in ids && n.utxo[o].txid in n.pending &&
      o in n.pending[n.utxo[o].txid].tx.inputs
  }

  function RejectAll(n: Node, ids: set<TxId>): Node {
    n.(utxo := map o | o in n.utxo :: if LockOfOne(n, o, ids) then Unspent else n.utxo[o],
       pending := n.pending - ids, rejected := n.rejected + ids,
       status := map id | id in n.status.Keys + ids :: if id in ids then Rejected else n.status[id])
  }

  /** Finalizes a transaction nobody else owns, after rejecting its pending competitors. */
  function Settle(n: Node, t: TxId): Node
    requires t in n.pending
  {
    var ins := n.pending[t].tx.inputs;
    if OwnedByOther(n, t, ins) || PoolConflict(n.confirmed, t, ins) then n
    else Finalize(RejectAll(n, Competitors(n, t, ins)), t)
  }

  /** The end of recovery, once the transaction was validated again; a missing fee is repaired. */
  function Resume(n: Node, t: TxId, r: Result<nat>): Node
    requires t in n.pending
  {
    if r.Err? then Reject(n, t)
    else Settle(if n.pending[t].fee == 0 && r.value > 0 then Admit(n, t, n.pending[t].tx, r.value) else n, t)
  }

  /** One transaction of the recovery pass over stuck pending transactions. */
  function Recover(n: Node, t: TxId, ctx: Context): Node {
    if t !in n.pending then n
    else
      var tx := n.pending[t].tx;
      if SpentByOther(n, t, tx.inputs) then Reject(n, t)
      else
        var n1 := Relock(n, tx.inputs, t, ctx.now);
        Resume(n1, t, Validate(n1, t, tx, ctx))
  }

  // ----- Marking

  lemma MarkNothing(n: Node, s: set<OutPoint>, t: TxId)
    requires Claimed(n, s, t) == {}
    ensures Mark(n, s, t) == n
  {
    assert Mark(n, s, t).utxo == n.utxo && Mark(n, s, t).coins == n.coins;
  }

  lemma MarkOne(n: Node, o: OutPoint, t: TxId)
    requires Claimed(n, {o}, t) == {o}
    ensures Mark(n, {o}, t) ==
        n.(utxo := n.utxo[o := SpentFinalized(t)], coins := n.coins - {o}, tombs := n.tombs + {o})
  {
    assert Mark(n, {o}, t).utxo == n.utxo[o := SpentFinalized(t)];
  }
}
