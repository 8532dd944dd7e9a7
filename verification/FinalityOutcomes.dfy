/** What each operation comes to, exactly: when validation accepts, when a transaction ends
    confirmed, pending or rejected, and what every confirmed transaction has paid. */
module FinalityOutcomes {

  import opened Basics
  import opened Sums
  import opened Quorum
  import opened Fees
  import opened Transactions
  import opened Wrappers
  import opened Ledger
  import opened FinalityRuns
  import opened FinalitySafety
  import opened FinalityValue

  // ----- Validation

  /** One address owns every input and receives every output. */
  ghost predicate Consolidates(coins: map<OutPoint, Coin>, tx: Tx)
    requires forall o :: o in tx.inputs ==> o in coins
  {
    && (forall o, p :: o in tx.inputs && p in tx.inputs ==> coins[o].address == coins[p].address)
    && (forall o, c :: o in tx.inputs && c in tx.outputs ==> c.address == coins[o].address)
  }

  /** What a transaction has to be to spend these coins: small and signed, no dust, at least
      1 TIME, and a fee of at least 0.01 TIME that reaches what the schedule asks for the first
      output unless it only moves coins of one address. */
  ghost predicate Payable(coins: map<OutPoint, Coin>, tx: Tx, ctx: Context) {
    && ctx.sizeOk && ctx.signed && tx.outputs != []
    && (forall o :: o in tx.inputs ==> o in coins)
    && (forall c :: c in tx.outputs ==> c.value == 0 || c.value >= 1_000)
    && OutputSum(tx.outputs) >= 100_000_000
    && InputSum(coins, tx.inputs) >= OutputSum(tx.outputs) + 1_000_000
    && (|| InputSum(coins, tx.inputs) >= OutputSum(tx.outputs) + RequiredFee(ctx.schedule, tx.outputs[0].value)
        || Consolidates(coins, tx))
  }

  lemma SelfSendIff(n: Node, tx: Tx)
    requires tx.inputs != [] && forall o :: o in tx.inputs ==> o in n.coins
    ensures SelfSend(n, tx) <==> Consolidates(n.coins, tx)
  {
    assert tx.inputs[0] in tx.inputs;
  }

  /** The transaction spent all its inputs before. */
  ghost predicate AllDone(n: Node, t: TxId, ins: seq<OutPoint>) {
    ins != [] && forall o :: o in ins ==> InputFinalized(n, o, t)
  }

  /** Validation accepts exactly a small transaction with usable inputs that is done already or
      can pay, and answers with what it pays. */
  lemma ValidateOutcome(n: Node, t: TxId, tx: Tx, ctx: Context)
    ensures var r := Validate(n, t, tx, ctx);
      && (r.Ok? <==>
            && ctx.sizeOk && (forall o :: o in tx.inputs ==> InputUsable(n, o, t))
            && (AllDone(n, t, tx.inputs) || Payable(n.coins, tx, ctx)))
      && (r.Ok? && AllDone(n, t, tx.inputs) ==> r.value == 0)
      && (r.Ok? && !AllDone(n, t, tx.inputs) ==>
            Payable(n.coins, tx, ctx) && InputSum(n.coins, tx.inputs) == OutputSum(tx.outputs) + r.value)
  {
    if tx.inputs != [] && forall o :: o in tx.inputs ==> o in n.coins { SelfSendIff(n, tx); }
  }

  /** With all inputs locked by the transaction, acceptance is about coins and payment alone. */
  lemma LockedOutcome(n: Node, t: TxId, tx: Tx, ctx: Context)
    requires forall o :: o in tx.inputs ==> o in n.utxo && n.utxo[o].Locked? && n.utxo[o].txid == t
    ensures Validate(n, t, tx, ctx).Ok? <==>
        (forall o :: o in tx.inputs ==> o !in n.collateral) && Payable(n.coins, tx, ctx)
    ensures Validate(n, t, tx, ctx).Ok? ==>
        InputSum(n.coins, tx.inputs) == OutputSum(tx.outputs) + Validate(n, t, tx, ctx).value
  {
    ValidateOutcome(n, t, tx, ctx);
    if tx.inputs != [] { assert tx.inputs[0] in tx.inputs && !InputFinalized(n, tx.inputs[0], t); }
  }

  /** Locking and validating succeeds exactly when every input can be locked and the
      transaction can pay from the coins there are. */
  lemma EntryOutcome(n: Node, t: TxId, tx: Tx, ctx: Context)
    ensures var r := LockAndValidate(n, t, tx, ctx).1;
      && (r.Ok? <==> (forall o :: o in tx.inputs ==> CanLock(n, o, t, ctx.now)) && Payable(n.coins, tx, ctx))
      && (r.Ok? ==> InputSum(n.coins, tx.inputs) == OutputSum(tx.outputs) + r.value)
  {
    var k := Lockable(n, tx.inputs, t, ctx.now);
    if k < |tx.inputs| {
      assert tx.inputs[k] in tx.inputs && !CanLock(n, tx.inputs[k], t, ctx.now);
    } else {
      LockableSet(n, tx.inputs, t, ctx.now);
      var n1 := LockSet(n, Elems(tx.inputs), t, ctx.now);
      LockCalm(Env(_ => tx, {}), n, Elems(tx.inputs), t, ctx.now);
      LockedOutcome(n1, t, tx, ctx);
    }
  }

  /** A payment to somebody else that deducts the closed-form fee from its gross amount is
      accepted exactly when a tier fits or the flat fallback is enough. */
  lemma DeductedPaymentIff(n: Node, t: TxId, tx: Tx, ctx: Context, gross: nat, to: string)
    requires forall o :: o in tx.inputs ==>
        o in n.utxo && n.utxo[o].Locked? && n.utxo[o].txid == t && o !in n.collateral
    requires forall o :: o in tx.inputs ==> o in n.coins && n.coins[o].address != to
    requires InputSum(n.coins, tx.inputs) == gross && ctx.sizeOk && ctx.signed
    requires NoOverflow(ctx.schedule, gross) && MIN_TX_FEE <= ctx.schedule.minFee <= gross
    requires FeeWithin(ctx.schedule, gross) <= gross
    requires gross - FeeWithin(ctx.schedule, gross) >= SATOSHIS_PER_TIME
    requires tx.outputs == [Coin(gross - FeeWithin(ctx.schedule, gross), to)]
    ensures Validate(n, t, tx, ctx).Ok? <==>
        || FitFrom(ctx.schedule, gross, 0) < |ctx.schedule.tiers|
        || (gross - FeeWithin(ctx.schedule, gross)) * FALLBACK_RATE / BASIS <= ctx.schedule.minFee
    ensures Validate(n, t, tx, ctx).Ok? ==> Validate(n, t, tx, ctx).value == FeeWithin(ctx.schedule, gross)
  {
    var fee := FeeWithin(ctx.schedule, gross);
    SubtractAcceptedIff(ctx.schedule, gross);
    LockedOutcome(n, t, tx, ctx);
    assert tx.outputs[1..] == [] && OutputSum(tx.outputs) == gross - fee;
    assert fee >= ctx.schedule.minFee;
    assert tx.outputs[0] in tx.outputs;
    assert tx.inputs != [] && tx.inputs[0] in tx.inputs;
  }

  // ----- Locks

  /** A lock keeps others out for 600 seconds, to the second, and its holder never. */
  lemma LockLasts(n: Node, o: OutPoint, t: TxId, u: TxId, at: int, now: int)
    requires o in n.utxo && n.utxo[o] == Locked(t, at) && o !in n.collateral && u != t
    ensures CanLock(n, o, u, now) <==> now > at + 600
    ensures CanLock(n, o, t, now)
    ensures ExpireLocks(n, now).utxo[o] == if now > at + 600 then Unspent else Locked(t, at)
  {
  }

  /** What locking and validating leaves of the states: on success every input is locked, an
      own lock with the age it had; a validation that fails frees all inputs, own locks too;
      no other outpoint changes. */
  lemma EntryLeaves(n: Node, t: TxId, tx: Tx, ctx: Context, o: OutPoint)
    requires o in n.utxo && forall p :: p in tx.inputs ==> CanLock(n, p, t, ctx.now)
    ensures var (n', r) := LockAndValidate(n, t, tx, ctx);
      && o in n'.utxo
      && n'.utxo[o] ==
           if o !in tx.inputs then n.utxo[o]
           else if r.Err? then Unspent
           else if n.utxo[o].Locked? && n.utxo[o].txid == t then n.utxo[o]
           else Locked(t, ctx.now)
  {
    assert forall i :: 0 <= i < |tx.inputs| ==> tx.inputs[i] in tx.inputs;
    assert tx.inputs[..|tx.inputs|] == tx.inputs;
  }

  /** A lock told by a peer is taken over exactly where the outpoint can be locked. */
  lemma PeerLockOutcome(n: Node, o: OutPoint, t: TxId, now: int, p: OutPoint)
    requires o in n.utxo && p in n.utxo
    ensures var n' := PeerLock(n, o, t, now);
      && OnlyStates(n, n') && p in n'.utxo && (p != o ==> n'.utxo[p] == n.utxo[p])
      && (CanLock(n, o, t, now) ==> n'.utxo[o].Locked? && n'.utxo[o].txid == t)
      && (!CanLock(n, o, t, now) ==> n' == n)
  {
  }

  /** Inputs in the archive cannot be spent, not even by the transaction that spent them. */
  lemma ArchivedRefused(n: Node, t: TxId, tx: Tx, ctx: Context, o: OutPoint)
    requires o in tx.inputs && o in n.utxo && n.utxo[o].Archived?
    ensures Validate(n, t, tx, ctx).Err? && !CanLock(n, o, t, ctx.now)
  {
    ValidateOutcome(n, t, tx, ctx);
  }

  /** Inputs recorded as spent whose state is forgotten count as spent by the transaction. */
  lemma ForgottenIsDone(n: Node, t: TxId, tx: Tx, ctx: Context)
    requires tx.inputs != [] && ctx.sizeOk
    requires forall o :: o in tx.inputs ==> o !in n.utxo && o in n.tombs && o !in n.collateral
    ensures Validate(n, t, tx, ctx) == Ok(0)
  {
    ValidateOutcome(n, t, tx, ctx);
  }

  /** A finalization takes exactly the inputs nobody else holds and, of those unknown here, the
      ones never spent. */
  lemma FinalizeTakesIff(n: Node, t: TxId, o: OutPoint)
    requires t in n.pending && o in n.pending[t].tx.inputs && o !in OwnOutputs(t, n.pending[t].tx.outputs)
    ensures var n' := Finalize(n, t);
      o in n'.utxo && n'.utxo[o] == SpentFinalized(t) <==>
        if o in n.utxo then n.utxo[o].Unspent? || n.utxo[o] == SpentFinalized(t) || n.utxo[o].txid == t
        else o !in n.tombs
  {
    FinalizeFacts(n, t);
  }

  // ----- Submission and gossip

  /** Transaction `id` of the pool spends `o`. */
  ghost predicate Lists(pool: map<TxId, Entry>, id: TxId, o: OutPoint) {
    id in pool && o in pool[id].tx.inputs
  }

  /** No other pending or confirmed transaction spends one of the inputs. */
  ghost predicate Unwanted(n: Node, t: TxId, ins: seq<OutPoint>) {
    forall id, o :: id != t && o in ins ==> !Lists(n.pending, id, o) && !Lists(n.confirmed, id, o)
  }

  lemma UnwantedIff(n: Node, t: TxId, ins: seq<OutPoint>)
    ensures Unwanted(n, t, ins) <==> !PoolConflict(n.pending, t, ins) && !PoolConflict(n.confirmed, t, ins)
  {
    if PoolConflict(n.pending, t, ins) {
      var id :| id in n.pending && id != t && exists o :: o in n.pending[id].tx.inputs && o in ins;
      var o :| o in n.pending[id].tx.inputs && o in ins;
      assert Lists(n.pending, id, o);
    }
    if PoolConflict(n.confirmed, t, ins) {
      var id :| id in n.confirmed && id != t && exists o :: o in n.confirmed[id].tx.inputs && o in ins;
      var o :| o in n.confirmed[id].tx.inputs && o in ins;
      assert Lists(n.confirmed, id, o);
    }
  }

  /** The node takes the transaction on. */
  ghost predicate Admissible(n: Node, t: TxId, tx: Tx, ctx: Context) {
    && (forall o :: o in tx.inputs ==> CanLock(n, o, t, ctx.now) && o !in n.tombs)
    && Payable(n.coins, tx, ctx) && ctx.masternodes > 0 && tx.version >= 2
    && t !in n.pending && t !in n.confirmed && t !in n.rejected && |n.pending| < 10_000
  }

  ghost function EntryOf(n: Node, tx: Tx): Entry
    requires (forall o :: o in tx.inputs ==> o in n.coins) && InputSum(n.coins, tx.inputs) >= OutputSum(tx.outputs)
  {
    Entry(tx, InputSum(n.coins, tx.inputs) - OutputSum(tx.outputs))
  }

  /** Confirmed at once: inputs are spent for good and without coins, outputs are there. */
  ghost predicate ConfirmedNow(n: Node, n': Node, t: TxId, e: Entry) {
    && n'.confirmed == n.confirmed[t := e] && n'.pending == n.pending && t in n'.finalized
    && (forall o :: o in e.tx.inputs && o !in OwnOutputs(t, e.tx.outputs) ==>
          o in n'.utxo && n'.utxo[o] == SpentFinalized(t) && o in n'.tombs && o !in n'.coins)
    && (forall o :: o in OwnOutputs(t, e.tx.outputs) ==> o in n'.utxo && n'.utxo[o] == Unspent)
  }

  /** Under vote: it holds all its inputs and waits in the pool. */
  ghost predicate UnderVote(n: Node, n': Node, t: TxId, e: Entry) {
    && n'.confirmed == n.confirmed && n'.pending == n.pending[t := e] && n'.coins == n.coins
    && t in n'.status && n'.status[t] == Voting
    && (forall o :: o in e.tx.inputs ==> o in n'.utxo && n'.utxo[o] == SpentPending(t))
  }

  ghost predicate TakenOn(n: Node, n': Node, t: TxId, e: Entry) {
    if Unwanted(n, t, e.tx.inputs) then ConfirmedNow(n, n', t, e) else UnderVote(n, n', t, e)
  }

  lemma FinalizedNow(n: Node, t: TxId, e: Entry)
    requires t !in n.pending && t !in n.confirmed
    requires forall o :: o in e.tx.inputs ==> o in n.utxo && n.utxo[o].Locked? && n.utxo[o].txid == t && o !in n.tombs
    ensures ConfirmedNow(n, Finalize(n.(pending := n.pending[t := e]), t), t, e)
  {
    var m := n.(pending := n.pending[t := e]);
    FinalizeFacts(m, t);
    FinalizeCoins(m, t);
    assert m.pending - {t} == n.pending;
    forall o | o in e.tx.inputs
      ensures o in Claimed(m, Elems(e.tx.inputs), t)
    {
    }
  }

  /** Processing with all inputs locked: refusal, confirmation or a vote. */
  lemma ProcessLocked(n: Node, t: TxId, tx: Tx, fee: nat, ctx: Context)
    requires forall o :: o in tx.inputs ==> o in n.utxo && n.utxo[o].Locked? && n.utxo[o].txid == t
    ensures var (n', ok) := Process(n, t, tx, fee, ctx);
      && (ok <==>
            && ctx.masternodes > 0 && tx.inputs != [] && tx.outputs != [] && tx.version >= 2 && CanAdmit(n, t)
            && forall o :: o in tx.inputs ==> o !in n.tombs)
      && (ok ==> TakenOn(n, n', t, Entry(tx, fee)))
      && (!ok ==> n' == n)
  {
    if Processable(n, t, tx, ctx) {
      var n1 := Admit(n, t, tx, fee);
      UnwantedIff(n, t, tx.inputs);
      ContestedAfterAdmission(n, t, tx, fee);
      FinalizedNow(n, t, Entry(tx, fee));
    }
  }

  lemma ContestedAfterAdmission(n: Node, t: TxId, tx: Tx, fee: nat)
    requires t !in n.pending
    requires forall o :: o in tx.inputs ==> o in n.utxo && n.utxo[o].Locked? && n.utxo[o].txid == t
    ensures var m := Admit(n, t, tx, fee);
      Contested(m, t, tx.inputs) <==> PoolConflict(n.pending, t, tx.inputs) || PoolConflict(n.confirmed, t, tx.inputs)
  {
    var m := Admit(n, t, tx, fee);
    assert !OwnedByOther(m, t, tx.inputs);
    if PoolConflict(n.pending, t, tx.inputs) {
      var id :| id in n.pending && id != t && exists o :: o in n.pending[id].tx.inputs && o in tx.inputs;
      assert id in m.pending && m.pending[id] == n.pending[id];
    }
    if PoolConflict(m.pending, t, tx.inputs) {
      var id :| id in m.pending && id != t && exists o :: o in m.pending[id].tx.inputs && o in tx.inputs;
      assert id in n.pending && m.pending[id] == n.pending[id];
    }
  }

  /** Only outpoint states differ. */
  ghost predicate OnlyStates(n: Node, m: Node) {
    m == n.(utxo := m.utxo)
  }

  lemma LocksChangeStates(n: Node, t: TxId, tx: Tx, ctx: Context)
    ensures OnlyStates(n, LockAndValidate(n, t, tx, ctx).0)
    ensures LockAndValidate(n, t, tx, ctx).1.Ok? ==> forall o :: o in tx.inputs ==>
        var u := LockAndValidate(n, t, tx, ctx).0.utxo; o in u && u[o].Locked? && u[o].txid == t
  {
    var ins, k := tx.inputs, Lockable(n, tx.inputs, t, ctx.now);
    LockableSet(n, ins, t, ctx.now);
    EntryStates(n, t, tx, ctx, LockSet(n, Elems(ins[..k]), t, ctx.now));
    if k == |ins| { LockCalm(Env(_ => tx, {}), n, Elems(ins), t, ctx.now); }
  }

  lemma EntryStates(n: Node, t: TxId, tx: Tx, ctx: Context, n1: Node)
    requires n1 == LockSet(n, Elems(tx.inputs[..Lockable(n, tx.inputs, t, ctx.now)]), t, ctx.now)
    ensures OnlyStates(n, LockAndValidate(n, t, tx, ctx).0)
    ensures LockAndValidate(n, t, tx, ctx).1.Ok? ==>
        LockAndValidate(n, t, tx, ctx).0 == n1 && Lockable(n, tx.inputs, t, ctx.now) == |tx.inputs|
  {
  }

  lemma TakenOnFrom(n: Node, m: Node, n': Node, t: TxId, e: Entry)
    requires OnlyStates(n, m) && TakenOn(m, n', t, e)
    ensures TakenOn(n, n', t, e)
  {
    UnwantedIff(n, t, e.tx.inputs);
    UnwantedIff(m, t, e.tx.inputs);
  }

  /** From a state with the outcome of locking and validation in it. */
  lemma TakesOn(n: Node, n1: Node, t: TxId, tx: Tx, ctx: Context, fee: nat)
    requires OnlyStates(n, n1) && Payable(n.coins, tx, ctx)
    requires forall o :: o in tx.inputs ==> CanLock(n, o, t, ctx.now)
    requires forall o :: o in tx.inputs ==> o in n1.utxo && n1.utxo[o].Locked? && n1.utxo[o].txid == t
    ensures var (n', ok) := Process(n1, t, tx, fee, ctx);
      && (ok <==> Admissible(n, t, tx, ctx))
      && (ok ==> TakenOn(n, n', t, Entry(tx, fee)))
      && (!ok ==> n' == n1)
  {
    PayableIsFull(n.coins, tx, ctx);
    ProcessLocked(n1, t, tx, fee, ctx);
    var (n', ok) := Process(n1, t, tx, fee, ctx);
    if ok { TakenOnFrom(n, n1, n', t, Entry(tx, fee)); }
  }

  /** A submission succeeds exactly for an admissible transaction, which is confirmed at once
      if no other wants its inputs and put to the vote otherwise. */
  lemma SubmitOutcome(n: Node, t: TxId, tx: Tx, ctx: Context)
    ensures Submit(n, t, tx, ctx).1 <==> Admissible(n, t, tx, ctx)
    ensures Admissible(n, t, tx, ctx) ==> TakenOn(n, Submit(n, t, tx, ctx).0, t, EntryOf(n, tx))
  {
    var n1, r := Enters(n, t, tx, ctx);
    SubmitProcesses(n, t, tx, ctx, n1, r);
    if r.Ok? { TakesOn(n, n1, t, tx, ctx, r.value); }
  }

  /** The state and the answer after locking and validating. */
  ghost predicate Entered(n: Node, t: TxId, tx: Tx, ctx: Context, n1: Node, r: Result<nat>) {
    && OnlyStates(n, n1)
    && (r.Ok? <==> (forall o :: o in tx.inputs ==> CanLock(n, o, t, ctx.now)) && Payable(n.coins, tx, ctx))
    && (r.Ok? ==> forall o :: o in tx.inputs ==> o in n1.utxo && n1.utxo[o].Locked? && n1.utxo[o].txid == t)
  }

  lemma Enters(n: Node, t: TxId, tx: Tx, ctx: Context) returns (n1: Node, r: Result<nat>)
    ensures (n1, r) == LockAndValidate(n, t, tx, ctx) && Entered(n, t, tx, ctx, n1, r)
    ensures r.Ok? ==> EntryOf(n, tx) == Entry(tx, r.value)
  {
    EntryOutcome(n, t, tx, ctx);
    LocksChangeStates(n, t, tx, ctx);
    n1, r := LockAndValidate(n, t, tx, ctx).0, LockAndValidate(n, t, tx, ctx).1;
  }

  lemma SubmitProcesses(n: Node, t: TxId, tx: Tx, ctx: Context, n1: Node, r: Result<nat>)
    requires (n1, r) == LockAndValidate(n, t, tx, ctx)
    ensures Submit(n, t, tx, ctx).1 == (r.Ok? && Process(n1, t, tx, r.value, ctx).1)
    ensures Submit(n, t, tx, ctx).1 ==> Submit(n, t, tx, ctx).0 == Process(n1, t, tx, r.value, ctx).0
  {
  }

  lemma PayableIsFull(coins: map<OutPoint, Coin>, tx: Tx, ctx: Context)
    requires Payable(coins, tx, ctx)
    ensures tx.inputs != [] && tx.outputs != []
  {
  }

  /** A gossiped transaction that is new here fares exactly as a submitted one. */
  lemma BroadcastOutcome(n: Node, t: TxId, tx: Tx, ctx: Context)
    requires t !in n.pending && t !in n.confirmed
    ensures Admissible(n, t, tx, ctx) ==> TakenOn(n, Broadcast(n, t, tx, ctx), t, EntryOf(n, tx))
    ensures !Admissible(n, t, tx, ctx) ==> OnlyStates(n, Broadcast(n, t, tx, ctx))
  {
    var n1, r := Enters(n, t, tx, ctx);
    BroadcastProcesses(n, t, tx, ctx, n1, r);
    BroadcastFrom(n, t, tx, ctx, n1, r, Broadcast(n, t, tx, ctx));
  }

  lemma BroadcastFrom(n: Node, t: TxId, tx: Tx, ctx: Context, n1: Node, r: Result<nat>, n': Node)
    requires Entered(n, t, tx, ctx, n1, r)
    requires n' ==
        if SpentByOther(n, t, tx.inputs) then n else if r.Ok? then Process(n1, t, tx, r.value, ctx).0 else n1
    ensures Admissible(n, t, tx, ctx) ==> r.Ok? && TakenOn(n, n', t, Entry(tx, r.value))
    ensures !Admissible(n, t, tx, ctx) ==> OnlyStates(n, n')
  {
    if r.Ok? { TakesOn(n, n1, t, tx, ctx, r.value); }
    if Admissible(n, t, tx, ctx) { AdmissibleUnspent(n, t, tx, ctx); }
  }

  lemma BroadcastProcesses(n: Node, t: TxId, tx: Tx, ctx: Context, n1: Node, r: Result<nat>)
    requires t !in n.pending && t !in n.confirmed && (n1, r) == LockAndValidate(n, t, tx, ctx)
    ensures Broadcast(n, t, tx, ctx) ==
        if SpentByOther(n, t, tx.inputs) then n else if r.Ok? then Process(n1, t, tx, r.value, ctx).0 else n1
  {
  }

  lemma AdmissibleUnspent(n: Node, t: TxId, tx: Tx, ctx: Context)
    requires Admissible(n, t, tx, ctx)
    ensures !SpentByOther(n, t, tx.inputs)
  {
  }

  /** A vote request brings an unknown transaction into the pool exactly when it can be locked
      and can pay, and there is room. */
  lemma RequestOutcome(n: Node, t: TxId, tx: Tx, ctx: Context)
    requires t !in n.pending
    ensures var n' := VoteRequest(n, t, tx, ctx);
      if && (forall o :: o in tx.inputs ==> CanLock(n, o, t, ctx.now)) && Payable(n.coins, tx, ctx)
         && t !in n.confirmed && t !in n.rejected && |n.pending| < 10_000
      then n'.pending == n.pending[t := EntryOf(n, tx)] && n'.confirmed == n.confirmed && n'.coins == n.coins
      else OnlyStates(n, n')
  {
    var n1, r := Enters(n, t, tx, ctx);
  }

  // ----- Votes

  /** A stored vote adds what it claims, once for each voter and to its transaction alone. */
  lemma StoredVoteCounts(n: Node, v: Voter, weight: nat, t: TxId, u: TxId)
    ensures Claim(StoreVote(n, v, weight, t), u) == Claim(n, u) + if u == t && v !in VotesFor(n, t) then weight else 0
  {
    if u == t && v !in VotesFor(n, t) {
      var before, after := VotesFor(n, t), VotesFor(StoreVote(n, v, weight, t), t);
      assert after == before[v := weight] && after.Keys - {v} == before.Keys;
      TotalTake(after, after.Keys, v);
      TotalAgree(before, after, before.Keys);
    }
  }

  /** A voting round at its deadline confirms a valid transaction exactly with an Accept
      preference and 67% of the weight, 51% from 30 seconds on; it is put off exactly below a
      quarter of that while the deadline can move, and rejected otherwise. */
  lemma RoundOutcome(n: Node, t: TxId, elapsed: nat, deadline: nat, weight: nat, total: nat, accept: bool)
    requires StillValid(n, t) && t !in n.finalized && t !in n.confirmed && elapsed >= deadline
    ensures var n' := VoteTimeout(n, t, elapsed, deadline, weight, total, accept);
      var percent := if elapsed >= 30 then 51 else 67;
      && (t in n'.confirmed <==> accept && 100 * weight >= total * percent)
      && (t in n'.pending <==> 400 * weight < total * percent && deadline < 15)
      && (t in n'.pending ==> n' == n)
      && (t !in n'.confirmed && t !in n'.pending ==> n' == Reject(n, t) && t in n'.rejected)
  {
    ThresholdIsLeast(total, elapsed, weight);
    ThresholdIsLeast(total, elapsed, 4 * weight);
    FinalizeFacts(n, t);
  }

  /** The vote that reaches the threshold confirms exactly a pending transaction that no vote
      has confirmed before. */
  lemma ThresholdOutcome(n: Node, t: TxId, weight: nat, threshold: nat)
    requires t !in n.confirmed
    ensures t in VoteThreshold(n, t, weight, threshold).confirmed <==>
        weight >= threshold && t in n.pending && t !in n.finalized
    ensures weight >= threshold ==> t in VoteThreshold(n, t, weight, threshold).finalized
  {
    if t in n.pending { FinalizeFacts(n, t); }
  }

  /** A voting round acts only at its deadline and on a pending transaction that was not
      rejected and none of whose inputs is spent for good or archived. */
  lemma RoundActsOn(n: Node, t: TxId, elapsed: nat, deadline: nat, weight: nat, total: nat, accept: bool)
    requires VoteTimeout(n, t, elapsed, deadline, weight, total, accept) != n
    ensures elapsed >= deadline && t in n.pending && t !in n.finalized && t !in n.confirmed
    ensures t in n.status ==> n.status[t] != Rejected
    ensures forall o :: o in n.pending[t].tx.inputs && o in n.utxo ==>
        n.utxo[o].Unspent? || n.utxo[o].Locked? || n.utxo[o].SpentPending?
  {
  }

  /** A rejected transaction is never valid for a vote again, even back in the pool. */
  lemma RejectedStaysInvalid(n: Node, t: TxId, tx: Tx, fee: nat)
    ensures !StillValid(Admit(Reject(n, t), t, tx, fee), t)
  {
  }

  /** Rejection records the transaction as rejected and keeps its votes; eviction forgets its
      votes and its finalization too, but leaves it free to come back. */
  lemma DropRecords(n: Node, t: TxId)
    requires t in n.pending
    ensures var n' := Reject(n, t);
      && t in n'.rejected && n'.status == n.status[t := Rejected] && n'.votes == n.votes && n'.finalized == n.finalized
      && n'.coins == n.coins && n'.tombs == n.tombs
    ensures var n' := Evict(n, t);
      && n'.rejected == n.rejected && n'.status == n.status[t := Rejected] && n'.pending == n.pending - {t}
      && n'.votes == n.votes - {t} && n'.finalized == n.finalized - {t} && Claim(n', t) == 0
      && n'.coins == n.coins && n'.tombs == n.tombs && n'.confirmed == n.confirmed
  {
  }

  // ----- Recovery

  /** The transaction would validate here with its free inputs locked again. */
  ghost predicate Revalidates(n: Node, t: TxId, tx: Tx, ctx: Context) {
    && ctx.sizeOk && (forall o :: o in tx.inputs ==> InputUsable(n, o, t))
    && (AllDone(n, t, tx.inputs) || Payable(n.coins, tx, ctx))
  }

  /** Locking free inputs again changes neither who holds an input nor whether it is usable. */
  lemma RelockKeepsRights(n: Node, t: TxId, tx: Tx, ctx: Context)
    ensures var m := Relock(n, tx.inputs, t, ctx.now);
      && OnlyStates(n, m) && (OwnedByOther(m, t, tx.inputs) <==> OwnedByOther(n, t, tx.inputs))
      && (Validate(m, t, tx, ctx).Ok? <==> Revalidates(n, t, tx, ctx))
  {
    var m := Relock(n, tx.inputs, t, ctx.now);
    ValidateOutcome(m, t, tx, ctx);
    forall o | o in tx.inputs
      ensures InputUsable(m, o, t) == InputUsable(n, o, t) && InputFinalized(m, o, t) == InputFinalized(n, o, t)
      ensures (o in m.utxo && HeldByOther(m.utxo[o], t)) == (o in n.utxo && HeldByOther(n.utxo[o], t))
    {
    }
    if OwnedByOther(n, t, tx.inputs) {
      var o :| o in tx.inputs && o in n.utxo && HeldByOther(n.utxo[o], t);
      assert o in m.utxo && HeldByOther(m.utxo[o], t);
    }
  }

  /** Relocking locks exactly the free inputs that are no collateral, from this moment on. */
  lemma RelockOutcome(n: Node, ins: seq<OutPoint>, t: TxId, now: int, o: OutPoint)
    requires o in n.utxo
    ensures var n' := Relock(n, ins, t, now);
      && o in n'.utxo
      && n'.utxo[o] == if o in ins && o !in n.collateral && n.utxo[o].Unspent? then Locked(t, now) else n.utxo[o]
  {
  }

  /** Nobody else holds or has confirmed an input, none is spent, and the transaction validates. */
  ghost predicate Recoverable(n: Node, t: TxId, ctx: Context)
    requires t in n.pending
  {
    var tx := n.pending[t].tx;
    && !SpentByOther(n, t, tx.inputs) && Revalidates(n, t, tx, ctx)
    && !OwnedByOther(n, t, tx.inputs) && !PoolConflict(n.confirmed, t, tx.inputs)
  }

  /** An input is spent by another transaction, or the transaction validates no longer. */
  ghost predicate Hopeless(n: Node, t: TxId, ctx: Context)
    requires t in n.pending
  {
    SpentByOther(n, t, n.pending[t].tx.inputs) || !Revalidates(n, t, n.pending[t].tx, ctx)
  }

  /** Pending transactions that share an input with `t`. */
  ghost predicate RivalOf(n: Node, t: TxId, id: TxId)
    requires t in n.pending
  {
    id in n.pending && id != t && Overlap(n.pending[id].tx.inputs, n.pending[t].tx.inputs)
  }

  lemma SettleOutcome(n: Node, t: TxId)
    requires t in n.pending && t !in n.confirmed
    ensures var n', ins := Settle(n, t), n.pending[t].tx.inputs;
      if OwnedByOther(n, t, ins) || PoolConflict(n.confirmed, t, ins) then n' == n
      else
        && n'.confirmed == n.confirmed[t := n.pending[t]]
        && n'.pending == n.pending - {t} - Competitors(n, t, ins)
        && n'.rejected == n.rejected + Competitors(n, t, ins)
  {
    var ins := n.pending[t].tx.inputs;
    var m := RejectAll(n, Competitors(n, t, ins));
    FinalizeFacts(m, t);
    assert m.pending - {t} == n.pending - {t} - Competitors(n, t, ins);
    FinalizeKeepsRejected(m, t);
  }

  lemma FinalizeKeepsRejected(n: Node, t: TxId)
    requires t in n.pending
    ensures Finalize(n, t).rejected == n.rejected
  {
  }

  /** The three ends of recovery: confirmed with its pending rivals rejected, rejected alone,
      or still pending with a missing fee filled in. */
  lemma RecoverOutcome(n: Node, t: TxId, ctx: Context)
    requires t in n.pending && t !in n.confirmed
    ensures var n' := Recover(n, t, ctx);
      && (t in n'.confirmed <==> Recoverable(n, t, ctx))
      && (t !in n'.confirmed && t !in n'.pending <==> Hopeless(n, t, ctx))
      && (Recoverable(n, t, ctx) ==>
            && n'.confirmed.Keys == n.confirmed.Keys + {t} && n'.confirmed[t].tx == n.pending[t].tx
            && (forall id :: id in n'.pending <==> id in n.pending && id != t && !RivalOf(n, t, id))
            && (forall id :: id in n'.rejected <==> id in n.rejected || RivalOf(n, t, id)))
      && (Hopeless(n, t, ctx) ==>
            && n'.confirmed == n.confirmed && n'.pending == n.pending - {t} && n'.rejected == n.rejected + {t})
      && (!Recoverable(n, t, ctx) && !Hopeless(n, t, ctx) ==>
            && n'.confirmed == n.confirmed && n'.rejected == n.rejected
            && n'.pending == n.pending[t := n.pending[t].(fee := RepairedFee(n, t, ctx))])
  {
    var tx := n.pending[t].tx;
    var m := Relock(n, tx.inputs, t, ctx.now);
    RelockKeepsRights(n, t, tx, ctx);
    RecoverResumes(n, t, ctx, m, Validate(m, t, tx, ctx));
    RejectAlone(n, t);
    ResumeOutcome(m, t, Validate(m, t, tx, ctx));
    RivalsAreCompetitors(n, t);
    assert Competitors(m, t, tx.inputs) == Competitors(n, t, tx.inputs);
  }

  /** Where recovery leaves its transaction. */
  ghost predicate EndsRecovered(n: Node, n': Node, t: TxId, ctx: Context) {
    t in n.pending && t !in n.confirmed ==>
      && (t in n'.confirmed <==> Recoverable(n, t, ctx))
      && (t !in n'.confirmed && t !in n'.pending <==> Hopeless(n, t, ctx))
  }

  lemma RecoverEnds(n: Node, t: TxId, ctx: Context)
    ensures EndsRecovered(n, Recover(n, t, ctx), t, ctx)
  {
    if t in n.pending && t !in n.confirmed { RecoverOutcome(n, t, ctx); }
  }

  lemma RecoverResumes(n: Node, t: TxId, ctx: Context, m: Node, r: Result<nat>)
    requires t in n.pending && m == Relock(n, n.pending[t].tx.inputs, t, ctx.now)
    requires r == Validate(m, t, n.pending[t].tx, ctx)
    ensures Recover(n, t, ctx) == if SpentByOther(n, t, n.pending[t].tx.inputs) then Reject(n, t) else Resume(m, t, r)
  {
  }

  lemma RejectAlone(n: Node, t: TxId)
    ensures var n' := Reject(n, t);
      n'.confirmed == n.confirmed && n'.pending == n.pending - {t} && n'.rejected == n.rejected + {t}
  {
  }

  /** The fee of the entry, or the validated one where it is missing. */
  ghost function RepairedFee(n: Node, t: TxId, ctx: Context): nat
    requires t in n.pending
  {
    var tx := n.pending[t].tx;
    var r := Validate(Relock(n, tx.inputs, t, ctx.now), t, tx, ctx);
    if n.pending[t].fee == 0 && r.Ok? then r.value else n.pending[t].fee
  }

  lemma RivalsAreCompetitors(n: Node, t: TxId)
    requires t in n.pending
    ensures forall id :: id in Competitors(n, t, n.pending[t].tx.inputs) <==> RivalOf(n, t, id)
  {
  }

  lemma ResumeOutcome(n: Node, t: TxId, r: Result<nat>)
    requires t in n.pending && t !in n.confirmed
    ensures var n', ins, fee := Resume(n, t, r), n.pending[t].tx.inputs, n.pending[t].fee;
      var repaired := n.pending[t := n.pending[t].(fee := if fee == 0 && r.Ok? then r.value else fee)];
      if r.Err? then n'.confirmed == n.confirmed && n'.pending == n.pending - {t} && n'.rejected == n.rejected + {t}
      else if OwnedByOther(n, t, ins) || PoolConflict(n.confirmed, t, ins)
      then n'.confirmed == n.confirmed && n'.pending == repaired && n'.rejected == n.rejected
      else
        && n'.confirmed == n.confirmed[t := repaired[t]]
        && n'.pending == n.pending - {t} - Competitors(n, t, ins)
        && n'.rejected == n.rejected + Competitors(n, t, ins)
  {
    if r.Ok? {
      if n.pending[t].fee == 0 && r.value > 0 {
        RepairChangesFee(n, t, r.value);
        SettleOutcome(Admit(n, t, n.pending[t].tx, r.value), t);
      } else {
        SettleOutcome(n, t);
        assert n.pending[t := n.pending[t]] == n.pending;
      }
    }
  }

  lemma RepairChangesFee(n: Node, t: TxId, fee: nat)
    requires t in n.pending
    ensures var m, ins := Admit(n, t, n.pending[t].tx, fee), n.pending[t].tx.inputs;
      && m.pending == n.pending[t := n.pending[t].(fee := fee)]
      && m.confirmed == n.confirmed && m.rejected == n.rejected
      && m.pending[t].tx == n.pending[t].tx && Competitors(m, t, ins) == Competitors(n, t, ins)
      && m.pending - {t} - Competitors(n, t, ins) == n.pending - {t} - Competitors(n, t, ins)
      && OwnedByOther(m, t, ins) == OwnedByOther(n, t, ins)
  {
  }

  // ----- Finalizations told by peers

  /** Nothing here stands against the transaction a peer calls final. */
  ghost predicate Unopposable(n: Node, t: TxId, tx: Tx) {
    tx.version >= 2 && !Diverged(n, tx.inputs) && !SpentByOther(n, t, tx.inputs) && !Contested(n, t, tx.inputs)
  }

  /** A peer's word confirms a pending transaction exactly when its inputs are known, unspent
      and uncontested here and it still validates. */
  lemma PeerConfirmsPending(n: Node, t: TxId, tx: Tx, ctx: Context)
    requires t !in n.confirmed && t in n.pending
    ensures t in PeerFinalized(n, t, tx, ctx).confirmed <==> Unopposable(n, t, tx) && Revalidates(n, t, tx, ctx)
  {
    ValidateOutcome(n, t, tx, ctx);
    RevalidatesNeedsInputs(n, t, tx, ctx);
    FinalizeFacts(n, t);
  }

  lemma RevalidatesNeedsInputs(n: Node, t: TxId, tx: Tx, ctx: Context)
    ensures Revalidates(n, t, tx, ctx) ==> tx.inputs != []
  {
  }

  /** And an unknown one exactly when moreover it can be locked, can pay, and there is room. */
  lemma PeerConfirmsNew(n: Node, t: TxId, tx: Tx, ctx: Context)
    requires t !in n.confirmed && t !in n.pending
    ensures t in PeerFinalized(n, t, tx, ctx).confirmed <==>
        && Unopposable(n, t, tx) && (forall o :: o in tx.inputs ==> CanLock(n, o, t, ctx.now))
        && Payable(n.coins, tx, ctx) && t !in n.rejected && |n.pending| < 10_000
  {
    var n1, r := Enters(n, t, tx, ctx);
    if Payable(n.coins, tx, ctx) { PayableIsFull(n.coins, tx, ctx); }
    EnterConfirms(n1, t, tx, r);
  }

  lemma EnterConfirms(n: Node, t: TxId, tx: Tx, r: Result<nat>)
    requires t !in n.confirmed
    ensures t in EnterConfirmed(n, t, tx, r).confirmed <==> r.Ok? && CanAdmit(n, t)
  {
    if r.Ok? { FinalizeFacts(Admit(n, t, tx, r.value), t); }
  }

  /** It leaves the statuses and the record of finalizations to this node's own votes. */
  lemma PeerKeepsRecords(n: Node, t: TxId, tx: Tx, ctx: Context)
    ensures PeerFinalized(n, t, tx, ctx).status == n.status && PeerFinalized(n, t, tx, ctx).finalized == n.finalized
  {
    LocksChangeStates(n, t, tx, ctx);
  }

  // ----- What confirmed transactions have paid

  ghost predicate MovesWithinOne(env: Env, t: TxId) {
    && (forall o, p :: o in env.body(t).inputs && p in env.body(t).inputs ==>
         CoinOf(env, o).address == CoinOf(env, p).address)
    && (forall o, c :: o in env.body(t).inputs && c in env.body(t).outputs ==> c.address == CoinOf(env, o).address)
  }

  /** Signed, and paying what the schedule of that moment asks for the first output, or moving
      coins of one address for the minimum fee. */
  ghost predicate PaidDue(env: Env, ctx: Context, t: TxId) {
    && ctx.sizeOk && ctx.signed && env.body(t).outputs != [] && FeeOf(env, t) >= MIN_TX_FEE
    && (FeeOf(env, t) >= RequiredFee(ctx.schedule, env.body(t).outputs[0].value) || MovesWithinOne(env, t))
  }

  ghost predicate BringsDue(env: Env, s: Step, t: TxId) {
    t in Entrant(s) && PaidDue(env, s.ctx, t)
  }

  ghost function Pool(n: Node): set<TxId> {
    n.pending.Keys + n.confirmed.Keys
  }

  lemma PayableIsPaid(env: Env, n: Node, t: TxId, ctx: Context)
    requires Sound(env, n) && Payable(n.coins, env.body(t), ctx)
    ensures PaidDue(env, ctx, t)
  {
    InputSumIsValue(env, n.coins, env.body(t).inputs);
  }

  /** Nothing new gets in without passing the lock and the validation. */
  lemma EntryNeedsOk(env: Env, n: Node, s: Step)
    requires s.SubmitTx? || s.GossipTx? || s.RequestVote? || s.FinalizedByPeer?
    requires s.t !in Pool(n) && s.t in Pool(Next(env, n, s))
    ensures LockAndValidate(n, s.t, env.body(s.t), s.ctx).1.Ok?
  {
    LocksChangeStates(n, s.t, env.body(s.t), s.ctx);
  }

  lemma StepBringsDue(env: Env, n: Node, s: Step, t: TxId)
    requires Base(env, n) && Known(env, n) && Sound(env, n) && Careful(env, n, s) && Allowed(env, s)
    requires t !in Pool(n) && t in Pool(Next(env, n, s))
    ensures BringsDue(env, s, t)
  {
    StepPool(env, n, s);
    EntryNeedsOk(env, n, s);
    EntryOutcome(n, t, env.body(t), s.ctx);
    PayableIsPaid(env, n, t, s.ctx);
  }

  /** A step brings at most its own transaction into the pool. */
  lemma StepPool(env: Env, n: Node, s: Step)
    requires Base(env, n) && Allowed(env, s)
    ensures Pool(Next(env, n, s)) <= Pool(n) + Entrant(s)
  {
    if VoteWins(n, s) {
      VoteShape(env, n, s);
      FinalizePool(n, s.t);
    } else {
      var m, fin := StepShape(env, n, s);
      ShapePool(env, n, Next(env, n, s), s, m, fin);
    }
  }

  lemma FinalizePool(n: Node, t: TxId)
    requires t in n.pending
    ensures Pool(Finalize(n, t)) == Pool(n)
  {
    FinalizeFacts(n, t);
  }

  lemma ShapePool(env: Env, n: Node, n': Node, s: Step, m: Node, fin: bool)
    requires Shape(env, n, n', if AboutLocks(s) then 0 else s.t, m, fin) && (AboutLocks(s) ==> !fin)
    requires m.pending.Keys <= n.pending.Keys + Entrant(s)
    ensures Pool(n') <= Pool(n) + Entrant(s)
  {
    if fin { FinalizePool(m, s.t); }
  }

  ghost predicate Brought(env: Env, steps: seq<Step>, t: TxId) {
    exists s :: s in steps && BringsDue(env, s, t)
  }

  /** In every careful run, whoever votes how, each pending or confirmed transaction came with
      good signatures and paid, by the schedule of that moment, what it owed. */
  lemma {:induction false} RunPaysDue(env: Env, n: Node, steps: seq<Step>, t: TxId)
    requires CarefulRun(env, n, steps) && t in Pool(After(env, n, steps))
    ensures Brought(env, steps, t)
    decreases |steps|
  {
    if steps != [] {
      var k := |steps| - 1;
      CarefulPrefix(env, n, steps);
      RunBalance(env, n, steps[..k]);
      if t in Pool(After(env, n, steps[..k])) {
        RunPaysDue(env, n, steps[..k], t);
        var s :| s in steps[..k] && BringsDue(env, s, t);
        assert s in steps;
      } else {
        StepBringsDue(env, After(env, n, steps[..k]), steps[k], t);
        assert steps[k] in steps;
      }
    }
  }
}
