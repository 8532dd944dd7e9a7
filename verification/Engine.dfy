/** The consensus engine as an object whose maps are updated in place: every operation of
    `Ledger` with the loops of the UTXO manager, the pool and the engine. */
module Engine {

  import opened Fees
  import opened Quorum
  import opened Transactions
  import opened Wrappers
  import opened Ledger
  import Fallback
  import opened FinalityOutcomes

  // ----- Doing a set at once is doing its elements in turn

  lemma ElemsMore(s: seq<OutPoint>, i: nat)
    requires i < |s|
    ensures Elems(s[..i + 1]) == Elems(s[..i]) + {s[i]}
  {
  }

  lemma LockMore(n: Node, s: set<OutPoint>, o: OutPoint, t: TxId, now: int)
    requires forall x :: x in s ==> CanLock(n, x, t, now)
    ensures var n' := LockSet(n, s, t, now);
      && CanLock(n', o, t, now) == CanLock(n, o, t, now)
      && LockSet(n', {o}, t, now) == LockSet(n, s + {o}, t, now)
  {
    assert LockSet(LockSet(n, s, t, now), {o}, t, now).utxo == LockSet(n, s + {o}, t, now).utxo;
  }

  lemma LockableStops(n: Node, ins: seq<OutPoint>, t: TxId, now: int, i: nat)
    requires i <= |ins| && forall k :: 0 <= k < i ==> CanLock(n, ins[k], t, now)
    requires i == |ins| || !CanLock(n, ins[i], t, now)
    ensures Lockable(n, ins, t, now) == i
  {
  }

  lemma MarkMore(n: Node, s: set<OutPoint>, o: OutPoint, t: TxId)
    ensures Mark(Mark(n, s, t), {o}, t) == Mark(n, s + {o}, t)
  {
    MarkMoreStates(n, s, o, t);
    MarkMoreCoins(n, s, o, t);
  }

  lemma MarkMoreStates(n: Node, s: set<OutPoint>, o: OutPoint, t: TxId)
    ensures Mark(Mark(n, s, t), {o}, t).utxo == Mark(n, s + {o}, t).utxo
  {
    ClaimedMore(n, s, o, t);
  }

  lemma MarkMoreCoins(n: Node, s: set<OutPoint>, o: OutPoint, t: TxId)
    ensures Mark(Mark(n, s, t), {o}, t).coins == Mark(n, s + {o}, t).coins
    ensures Mark(Mark(n, s, t), {o}, t).tombs == Mark(n, s + {o}, t).tombs
  {
    ClaimedMore(n, s, o, t);
  }

  lemma ClaimedMore(n: Node, s: set<OutPoint>, o: OutPoint, t: TxId)
    ensures Claimed(n, s + {o}, t) == Claimed(n, s, t) + Claimed(n, {o}, t)
    ensures Claimed(Mark(n, s, t), {o}, t) == Claimed(n, {o}, t) - Claimed(n, s, t)
  {
  }

  lemma OwnMore(t: TxId, outs: seq<Coin>, i: nat)
    requires i < |outs|
    ensures OwnOutputs(t, outs[..i + 1]) == OwnOutputs(t, outs[..i]) + {OutPoint(t, i)}
  {
    forall o | o in OwnOutputs(t, outs[..i]) + {OutPoint(t, i)}
      ensures o in OwnOutputs(t, outs[..i + 1])
    {
    }
  }

  lemma CreateMoreStates(n: Node, t: TxId, outs: seq<Coin>, i: nat)
    requires i < |outs|
    ensures Create(n, t, outs[..i + 1]).utxo == Create(n, t, outs[..i]).utxo[OutPoint(t, i) := Unspent]
  {
    OwnMore(t, outs, i);
  }

  lemma CreateParts(n: Node, t: TxId, outs: seq<Coin>)
    ensures Create(n, t, outs).coins == n.coins + Minting(n, t, outs)
    ensures Create(n, t, outs).tombs == n.tombs
    ensures OutPoint(t, |outs|) in Create(n, t, outs).utxo <==> OutPoint(t, |outs|) in n.utxo
  {
  }

  lemma MintingMore(n: Node, t: TxId, outs: seq<Coin>, i: nat)
    requires i < |outs|
    ensures var o := OutPoint(t, i);
      Minting(n, t, outs[..i + 1]) ==
      if o in n.tombs || o in n.utxo then Minting(n, t, outs[..i]) else Minting(n, t, outs[..i])[o := outs[i]]
  {
    OwnMore(t, outs, i);
  }

  lemma CreateMoreCoins(n: Node, t: TxId, outs: seq<Coin>, i: nat)
    requires i < |outs|
    ensures var m, o := Create(n, t, outs[..i]), OutPoint(t, i);
      Create(n, t, outs[..i + 1]).coins == if o in m.tombs || o in m.utxo then m.coins else m.coins[o := outs[i]]
  {
    MintingMore(n, t, outs, i);
    CreateParts(n, t, outs[..i]);
    CreateParts(n, t, outs[..i + 1]);
  }

  lemma CreateMore(n: Node, t: TxId, outs: seq<Coin>, i: nat)
    requires i < |outs|
    ensures var m, o := Create(n, t, outs[..i]), OutPoint(t, i);
      Create(n, t, outs[..i + 1]) ==
      m.(utxo := m.utxo[o := Unspent], coins := if o in m.tombs || o in m.utxo then m.coins else m.coins[o := outs[i]])
  {
    CreateMoreStates(n, t, outs, i);
    CreateMoreCoins(n, t, outs, i);
  }

  lemma UnlockMore(n: Node, s: set<OutPoint>, o: OutPoint, t: TxId)
    ensures UnlockSet(UnlockSet(n, s, t), {o}, t) == UnlockSet(n, s + {o}, t)
  {
    assert UnlockSet(UnlockSet(n, s, t), {o}, t).utxo == UnlockSet(n, s + {o}, t).utxo;
  }

  lemma WriteMore(n: Node, s: set<OutPoint>, o: OutPoint, st: UtxoState)
    ensures var m := WriteStates(n, s, st); WriteStates(n, s + {o}, st) == m.(utxo := m.utxo[o := st])
  {
    assert WriteStates(n, s + {o}, st).utxo == WriteStates(n, s, st).utxo[o := st];
  }

  lemma RejectMore(n: Node, ids: set<TxId>, c: TxId)
    requires c in n.pending && c !in ids
    ensures c in RejectAll(n, ids).pending && Reject(RejectAll(n, ids), c) == RejectAll(n, ids + {c})
  {
    var a, b := Reject(RejectAll(n, ids), c), RejectAll(n, ids + {c});
    assert a.utxo == b.utxo;
    assert a.pending == b.pending;
    assert a.status == b.status;
  }

  lemma RejectNone(n: Node)
    ensures RejectAll(n, {}) == n
  {
    assert RejectAll(n, {}).utxo == n.utxo && RejectAll(n, {}).status == n.status;
  }

  function ExpiredLocks(utxo: map<OutPoint, UtxoState>, s: set<OutPoint>, now: int): set<OutPoint> {
    set o | o in s && o in utxo && utxo[o].Locked? && LockExpired(utxo[o].lockedAt, now)
  }

  lemma ExpiredMore(utxo: map<OutPoint, UtxoState>, s: set<OutPoint>, o: OutPoint, now: int)
    requires o in utxo && o !in s
    ensures var e := ExpiredLocks(utxo, s, now);
      && o !in e
      && ExpiredLocks(utxo, s + {o}, now) == if utxo[o].Locked? && LockExpired(utxo[o].lockedAt, now) then e + {o}
           else e
  {
  }

  /** The expired locks on outpoints of `done` were freed and counted. */
  ghost predicate Cleaned(was: map<OutPoint, UtxoState>, done: set<OutPoint>, now: int, utxo: map<OutPoint, UtxoState>,
      cleaned: nat) {
    && utxo.Keys == was.Keys && cleaned == |ExpiredLocks(was, done, now)|
    && forall o :: o in was ==> utxo[o] == if o in ExpiredLocks(was, done, now) then Unspent else was[o]
  }

  /** Inputs that recovery locks again. */
  function Free(n: Node, ins: seq<OutPoint>): set<OutPoint> {
    set o | o in ins && o in n.utxo && n.utxo[o].Unspent? && o !in n.collateral
  }

  lemma FreeMore(n: Node, ins: seq<OutPoint>, i: nat)
    requires i < |ins|
    ensures Free(n, ins[..i + 1]) == Free(n, ins[..i]) + Free(n, [ins[i]])
  {
    assert ins[..i + 1] == ins[..i] + [ins[i]];
  }

  lemma RelockMore(n: Node, ins: seq<OutPoint>, i: nat, t: TxId, now: int)
    requires i < |ins|
    ensures var m, o := LockSet(n, Free(n, ins[..i]), t, now), ins[i];
      LockSet(n, Free(n, ins[..i + 1]), t, now) ==
      if (o !in m.utxo || m.utxo[o].Unspent?) && CanLock(m, o, t, now) then LockSet(m, {o}, t, now) else m
  {
    FreeMore(n, ins, i);
    LockMore(n, Free(n, ins[..i]), ins[i], t, now);
    var f, o := Free(n, ins[..i]), ins[i];
    if o in n.utxo && n.utxo[o].Unspent? && o !in n.collateral {
      assert Free(n, [o]) == {o};
      if o in f { assert f + {o} == f; }
    } else {
      assert Free(n, [o]) == {};
      assert f + {} == f;
    }
  }

  lemma RecoverSettles(n: Node, t: TxId, ctx: Context, n1: Node, n2: Node, r: Result<nat>)
    requires t in n.pending && !SpentByOther(n, t, n.pending[t].tx.inputs)
    requires n1 == Relock(n, n.pending[t].tx.inputs, t, ctx.now)
    requires r == Validate(n1, t, n.pending[t].tx, ctx) && r.Ok?
    requires n2 == if n1.pending[t].fee == 0 && r.value > 0 then Admit(n1, t, n.pending[t].tx, r.value) else n1
    ensures Recover(n, t, ctx) == Settle(n2, t)
  {
  }

  /** While the two pools share no transaction, they go on sharing none, and `done` is the
      number of transactions that were confirmed. */
  ghost predicate Confirms(pending: map<TxId, Entry>, confirmed: map<TxId, Entry>,
      pending': map<TxId, Entry>, confirmed': map<TxId, Entry>, done: nat) {
    pending.Keys !! confirmed.Keys ==> pending'.Keys !! confirmed'.Keys && |confirmed'| == |confirmed| + done
  }

  lemma OneMoreConfirmed(pending: map<TxId, Entry>, confirmed: map<TxId, Entry>, t: TxId)
    requires t in pending
    ensures Confirms(pending, confirmed, pending - {t}, confirmed[t := pending[t]], 1)
  {
    assert confirmed[t := pending[t]].Keys == confirmed.Keys + {t};
    if t !in confirmed { assert |confirmed.Keys + {t}| == |confirmed.Keys| + 1; }
  }

  lemma PoolShrinks(pool: map<TxId, Entry>, ids: set<TxId>)
    requires ids <= pool.Keys
    ensures |pool - ids| + |ids| == |pool|
  {
    assert (pool - ids).Keys == pool.Keys - ids;
    assert |pool.Keys - ids| + |ids| == |pool.Keys|;
  }

  class ConsensusEngine {
    var utxo: map<OutPoint, UtxoState>
    var coins: map<OutPoint, Coin>
    var tombs: set<OutPoint>
    var collateral: set<OutPoint>
    var pending: map<TxId, Entry>
    var confirmed: map<TxId, Entry>
    var rejected: set<TxId>
    var status: map<TxId, Status>
    var finalized: set<TxId>
    var votes: map<TxId, map<Voter, nat>>

    ghost function View(): Node
      reads this
    {
      Node(utxo, coins, tombs, collateral, pending, confirmed, rejected, status, finalized, votes)
    }

    // ----- UTXO manager

    method LockUtxo(o: OutPoint, t: TxId, now: int) returns (ok: bool)
      modifies `utxo
      ensures ok == CanLock(old(View()), o, t, now)
      ensures View() == (if ok then LockSet(old(View()), {o}, t, now) else old(View()))
    {
      ok := false;
      if o !in collateral && o in utxo {
        match utxo[o] {
          case Unspent =>
            utxo := utxo[o := Locked(t, now)];
            ok := true;
          case Locked(holder, at) =>
            if holder == t {
              ok := true;
            } else if LockExpired(at, now) {
              utxo := utxo[o := Locked(t, now)];
              ok := true;
            }
          case _ =>
        }
      }
      assert ok ==> utxo == LockSet(old(View()), {o}, t, now).utxo;
    }

    method MarkTimevoteFinalized(o: OutPoint, t: TxId)
      modifies `utxo, `coins, `tombs
      ensures View() == Mark(old(View()), {o}, t)
    {
      ghost var n := View();
      if o in utxo {
        if HeldByOther(utxo[o], t) || utxo[o] == SpentFinalized(t) {
          MarkNothing(n, {o}, t);
          return;
        }
      } else if o in tombs {
        MarkNothing(n, {o}, t);
        return;
      }
      coins := coins - {o};
      utxo := utxo[o := SpentFinalized(t)];
      tombs := tombs + {o};
      assert Claimed(n, {o}, t) == {o};
      MarkOne(n, o, t);
    }

    method AddUtxo(o: OutPoint, c: Coin)
      modifies `utxo, `coins
      ensures View() == (if o in old(tombs) || o in old(utxo) then old(View())
                         else old(View()).(utxo := old(utxo)[o := Unspent], coins := old(coins)[o := c]))
    {
      if o !in tombs && o !in utxo {
        coins := coins[o := c];
        utxo := utxo[o := Unspent];
      }
    }

    method CleanupExpiredLocks(now: int) returns (cleaned: nat)
      modifies `utxo
      ensures View() == ExpireLocks(old(View()), now)
      ensures cleaned == |ExpiredLocks(old(utxo), old(utxo).Keys, now)|
    {
      cleaned := 0;
      var todo := utxo.Keys;
      ghost var was, done := utxo, {};
      while todo != {}
        invariant todo !! done && todo + done == was.Keys
        invariant Cleaned(was, done, now, utxo, cleaned)
        decreases |todo|
      {
        var o :| o in todo;
        todo := todo - {o};
        cleaned := CleanupLock(was, done, o, now, cleaned);
        done := done + {o};
      }
      assert done == was.Keys;
      assert utxo == ExpireLocks(old(View()), now).utxo;
    }

    method CleanupLock(ghost was: map<OutPoint, UtxoState>, ghost done: set<OutPoint>, o: OutPoint, now: int,
        cleaned: nat)
      returns (more: nat)
      requires Cleaned(was, done, now, utxo, cleaned) && o in was && o !in done
      modifies `utxo
      ensures Cleaned(was, done + {o}, now, utxo, more)
    {
      ExpiredMore(was, done, o, now);
      more := cleaned;
      if utxo[o].Locked? && LockExpired(utxo[o].lockedAt, now) {
        utxo := utxo[o := Unspent];
        more := cleaned + 1;
      }
    }

    // ----- Locking and validation

    /** Locks inputs in turn and stops at the first that cannot be locked. */
    method LockInputs(ins: seq<OutPoint>, t: TxId, now: int) returns (ok: bool)
      modifies `utxo
      ensures var k := Lockable(old(View()), ins, t, now);
        ok == (k == |ins|) && View() == LockSet(old(View()), Elems(ins[..k]), t, now)
    {
      ghost var n := View();
      var i := 0;
      assert LockSet(n, Elems(ins[..0]), t, now).utxo == utxo;
      while i < |ins|
        modifies `utxo
        invariant i <= |ins| && forall k :: 0 <= k < i ==> CanLock(n, ins[k], t, now)
        invariant View() == LockSet(n, Elems(ins[..i]), t, now)
      {
        LockMore(n, Elems(ins[..i]), ins[i], t, now);
        ElemsMore(ins, i);
        var locked := LockUtxo(ins[i], t, now);
        if !locked {
          LockableStops(n, ins, t, now, i);
          return false;
        }
        i := i + 1;
      }
      LockableStops(n, ins, t, now, i);
      return true;
    }

    method CheckInputs(t: TxId, ins: seq<OutPoint>) returns (usable: bool, allFinalized: bool)
      ensures usable == forall o :: o in ins ==> InputUsable(View(), o, t)
      ensures usable ==> allFinalized == (ins != [] && forall o :: o in ins ==> InputFinalized(View(), o, t))
    {
      allFinalized := ins != [];
      for i := 0 to |ins|
        invariant forall o :: o in ins[..i] ==> InputUsable(View(), o, t)
        invariant allFinalized == (ins != [] && forall o :: o in ins[..i] ==> InputFinalized(View(), o, t))
      {
        var o := ins[i];
        ghost var was := allFinalized;
        assert ins[..i + 1] == ins[..i] + [o];
        if o in collateral {
          assert !InputUsable(View(), o, t);
          return false, false;
        }
        if o in utxo {
          match utxo[o] {
            case Unspent => allFinalized := false;
            case Locked(x, _) =>
              if x != t { assert !InputUsable(View(), o, t); return false, false; }
              allFinalized := false;
            case SpentPending(x) =>
              if x != t { assert !InputUsable(View(), o, t); return false, false; }
              allFinalized := false;
            case SpentFinalized(x) =>
              if x != t { assert !InputUsable(View(), o, t); return false, false; }
            case Archived(_) =>
              assert !InputUsable(View(), o, t);
              return false, false;
          }
        } else if o !in tombs {
          if o !in coins { assert !InputUsable(View(), o, t); return false, false; }
          allFinalized := false;
        }
        assert allFinalized == (was && InputFinalized(View(), o, t));
      }
      usable := true;
    }

    /** Sums the inputs and compares their addresses; fails on a missing coin. */
    method GatherInputs(ins: seq<OutPoint>) returns (found: bool, sum: nat, single: bool)
      ensures found == forall o :: o in ins ==> o in coins
      ensures found ==> sum == InputSum(coins, ins)
      ensures found ==> single == forall o :: o in ins ==> coins[o].address == coins[ins[0]].address
    {
      sum, single := 0, true;
      for i := 0 to |ins|
        invariant forall o :: o in ins[..i] ==> o in coins
        invariant sum == InputSum(coins, ins[..i])
        invariant i > 0 ==> single == forall o :: o in ins[..i] ==> coins[o].address == coins[ins[0]].address
        invariant i == 0 ==> single
      {
        if ins[i] !in coins { return false, 0, false; }
        SumMore(coins, ins, i);
        sum := sum + coins[ins[i]].value;
        if coins[ins[i]].address != coins[ins[0]].address { single := false; }
        assert ins[..i + 1] == ins[..i] + [ins[i]];
      }
      assert ins[..|ins|] == ins;
      found := true;
    }

    static lemma {:induction false} SumMore(coins: map<OutPoint, Coin>, ins: seq<OutPoint>, i: nat)
      requires i < |ins| && forall o :: o in ins[..i + 1] ==> o in coins
      ensures forall o :: o in ins[..i] ==> o in coins
      ensures ins[i] in coins && InputSum(coins, ins[..i + 1]) == InputSum(coins, ins[..i]) + coins[ins[i]].value
    {
      assert ins[i] == ins[..i + 1][i];
      forall o | o in ins[..i] ensures o in coins { assert o in ins[..i + 1]; }
      if i > 0 {
        assert ins[..i + 1][1..] == ins[1..][..i] && ins[..i][1..] == ins[1..][..i - 1];
        forall o | o in ins[1..][..i] ensures o in coins { assert o in ins[..i + 1]; }
        SumMore(coins, ins[1..], i - 1);
      }
    }

    method ScanOutputs(outs: seq<Coin>, addr: string) returns (sum: nat, dust: bool, allTo: bool)
      ensures sum == OutputSum(outs)
      ensures dust == exists c :: c in outs && 0 < c.value < DUST_THRESHOLD
      ensures allTo == forall c :: c in outs ==> c.address == addr
    {
      sum, dust, allTo := 0, false, true;
      for i := 0 to |outs|
        invariant sum == OutputSum(outs[..i])
        invariant dust == exists c :: c in outs[..i] && 0 < c.value < DUST_THRESHOLD
        invariant allTo == forall c :: c in outs[..i] ==> c.address == addr
      {
        OutputMore(outs, i);
        assert outs[..i + 1] == outs[..i] + [outs[i]];
        sum := sum + outs[i].value;
        dust := dust || 0 < outs[i].value < DUST_THRESHOLD;
        allTo := allTo && outs[i].address == addr;
      }
      assert outs[..|outs|] == outs;
    }

    static lemma {:induction false} OutputMore(outs: seq<Coin>, i: nat)
      requires i < |outs|
      ensures OutputSum(outs[..i + 1]) == OutputSum(outs[..i]) + outs[i].value
    {
      if i > 0 {
        assert outs[..i + 1][1..] == outs[1..][..i] && outs[..i][1..] == outs[1..][..i - 1];
        OutputMore(outs[1..], i - 1);
      }
    }

    method ValidateWithLocks(t: TxId, tx: Tx, ctx: Context) returns (r: Result<nat>)
      ensures r == Validate(View(), t, tx, ctx)
      ensures r.Ok? <==> Revalidates(View(), t, tx, ctx)
    {
      r := RunChecks(t, tx, ctx);
      ValidateOutcome(View(), t, tx, ctx);
    }

    /** The checks in the order of the source. */
    method RunChecks(t: TxId, tx: Tx, ctx: Context) returns (r: Result<nat>)
      ensures r == Validate(View(), t, tx, ctx)
    {
      if !ctx.sizeOk { return Err; }
      var usable, allFinalized := CheckInputs(t, tx.inputs);
      if !usable { return Err; }
      if allFinalized { return Ok(0); }
      var found, inputSum, single := GatherInputs(tx.inputs);
      if !found { return Err; }
      var addr := if tx.inputs == [] then "" else coins[tx.inputs[0]].address;
      var outputSum, dust, allTo := ScanOutputs(tx.outputs, addr);
      var selfSend := tx.inputs != [] && single && allTo;
      if dust || outputSum < SATOSHIS_PER_TIME { return Err; }
      var fee := Net(inputSum, outputSum);
      if fee < MIN_TX_FEE { return Err; }
      if !selfSend {
        var sendAmount := if tx.outputs == [] then outputSum else tx.outputs[0].value;
        if fee < RequiredFee(ctx.schedule, sendAmount) { return Err; }
      }
      if inputSum < outputSum || !ctx.signed { return Err; }
      return Ok(fee);
    }

    method WriteInputs(ins: seq<OutPoint>, st: UtxoState)
      modifies `utxo
      ensures View() == WriteStates(old(View()), Elems(ins), st)
    {
      ghost var n := View();
      assert WriteStates(n, Elems(ins[..0]), st).utxo == utxo;
      for i := 0 to |ins|
        invariant View() == WriteStates(n, Elems(ins[..i]), st)
      {
        ElemsMore(ins, i);
        WriteMore(n, Elems(ins[..i]), ins[i], st);
        utxo := utxo[ins[i] := st];
      }
      assert ins[..|ins|] == ins;
    }

    method LockAndValidateTransaction(t: TxId, tx: Tx, ctx: Context) returns (r: Result<nat>)
      modifies `utxo
      ensures (View(), r) == LockAndValidate(old(View()), t, tx, ctx)
    {
      var locked := LockInputs(tx.inputs, t, ctx.now);
      if !locked { return Err; }
      r := ValidateWithLocks(t, tx, ctx);
      if r.Err? { WriteInputs(tx.inputs, Unspent); }
    }

    method UnlockOne(o: OutPoint, t: TxId)
      modifies `utxo
      ensures View() == UnlockSet(old(View()), {o}, t)
    {
      if o in utxo && utxo[o].Locked? && utxo[o].txid == t { utxo := utxo[o := Unspent]; }
      assert utxo == UnlockSet(old(View()), {o}, t).utxo;
    }

    method UnlockTransactionInputs(ins: seq<OutPoint>, t: TxId)
      modifies `utxo
      ensures View() == UnlockSet(old(View()), Elems(ins), t)
    {
      ghost var n := View();
      assert UnlockSet(n, Elems(ins[..0]), t).utxo == utxo;
      for i := 0 to |ins|
        invariant View() == UnlockSet(n, Elems(ins[..i]), t)
      {
        ElemsMore(ins, i);
        UnlockMore(n, Elems(ins[..i]), ins[i], t);
        UnlockOne(ins[i], t);
      }
      assert ins[..|ins|] == ins;
    }

    // ----- Conflicts

    method InputsAlreadySpentByOther(ins: seq<OutPoint>, t: TxId) returns (spent: bool)
      ensures spent == SpentByOther(View(), t, ins)
    {
      for i := 0 to |ins|
        invariant !SpentByOther(View(), t, ins[..i])
      {
        var o := ins[i];
        assert o in ins;
        assert ins[..i + 1] == ins[..i] + [o];
        if o in utxo && HeldByOther(utxo[o], t) && !utxo[o].Locked? { return true; }
        if o in tombs && !(o in utxo && utxo[o] == SpentFinalized(t)) { return true; }
      }
      assert ins[..|ins|] == ins;
      spent := false;
    }

    method SharesInput(a: seq<OutPoint>, wanted: set<OutPoint>) returns (b: bool)
      ensures b == exists o :: o in a && o in wanted
    {
      for i := 0 to |a|
        invariant forall o :: o in a[..i] ==> o !in wanted
      {
        if a[i] in wanted { return true; }
        assert a[..i + 1] == a[..i] + [a[i]];
      }
      b := false;
    }

    method PoolInputsOverlap(pool: map<TxId, Entry>, ins: seq<OutPoint>, t: TxId) returns (b: bool)
      ensures b == PoolConflict(pool, t, ins)
    {
      var todo, wanted := pool.Keys, Elems(ins);
      while todo != {}
        invariant todo <= pool.Keys
        invariant forall id :: id in pool && id !in todo && id != t ==> forall o :: o in pool[id].tx.inputs ==>
            o !in ins
        decreases |todo|
      {
        var id :| id in todo;
        todo := todo - {id};
        if id != t {
          var hit := SharesInput(pool[id].tx.inputs, wanted);
          if hit { return true; }
          assert forall o :: o in pool[id].tx.inputs ==> o !in wanted;
        }
      }
      b := false;
    }

    method InputsOwnedByOther(ins: seq<OutPoint>, t: TxId) returns (b: bool)
      ensures b == OwnedByOther(View(), t, ins)
    {
      for i := 0 to |ins|
        invariant !OwnedByOther(View(), t, ins[..i])
      {
        assert ins[i] in ins;
        if ins[i] in utxo && HeldByOther(utxo[ins[i]], t) { return true; }
        assert ins[..i + 1] == ins[..i] + [ins[i]];
      }
      assert ins[..|ins|] == ins;
      b := false;
    }

    method HasDoubleSpendConflict(ins: seq<OutPoint>, t: TxId) returns (b: bool)
      ensures b == Contested(View(), t, ins)
    {
      b := PoolInputsOverlap(pending, ins, t);
      if !b { b := PoolInputsOverlap(confirmed, ins, t); }
      if !b { b := InputsOwnedByOther(ins, t); }
    }

    // ----- Finalization

    method MarkInputs(ins: seq<OutPoint>, t: TxId)
      modifies `utxo, `coins, `tombs
      ensures View() == Mark(old(View()), Elems(ins), t)
    {
      ghost var n := View();
      MarkNothing(n, Elems(ins[..0]), t);
      for i := 0 to |ins|
        invariant View() == Mark(n, Elems(ins[..i]), t)
      {
        ElemsMore(ins, i);
        MarkMore(n, Elems(ins[..i]), ins[i], t);
        MarkTimevoteFinalized(ins[i], t);
      }
      assert ins[..|ins|] == ins;
    }

    method AddOutput(ghost n: Node, outs: seq<Coin>, i: nat, t: TxId)
      requires i < |outs| && View() == Create(n, t, outs[..i])
      modifies `utxo, `coins
      ensures View() == Create(n, t, outs[..i + 1])
    {
      CreateMore(n, t, outs, i);
      ghost var m := View();
      AddUtxo(OutPoint(t, i), outs[i]);
      utxo := utxo[OutPoint(t, i) := Unspent];
      assert utxo == m.utxo[OutPoint(t, i) := Unspent];
    }

    method CreateOutputs(outs: seq<Coin>, t: TxId)
      modifies `utxo, `coins
      ensures View() == Create(old(View()), t, outs)
    {
      ghost var n := View();
      assert OwnOutputs(t, outs[..0]) == {};
      assert Create(n, t, outs[..0]).utxo == utxo && Create(n, t, outs[..0]).coins == coins;
      for i := 0 to |outs|
        invariant View() == Create(n, t, outs[..i])
      {
        AddOutput(n, outs, i, t);
      }
      assert outs[..|outs|] == outs;
    }

    method FinalizePending(t: TxId)
      requires t in pending
      modifies `utxo, `coins, `tombs, `pending, `confirmed, `finalized, `status
      ensures View() == Finalize(old(View()), t)
    {
      var e := pending[t];
      pending := pending - {t};
      confirmed := confirmed[t := e];
      MarkInputs(e.tx.inputs, t);
      CreateOutputs(e.tx.outputs, t);
      finalized := finalized + {t};
      status := status[t := Finalized];
    }

    // ----- Entry points

    method ProcessTransaction(t: TxId, tx: Tx, fee: nat, ctx: Context) returns (ok: bool)
      modifies `utxo, `coins, `tombs, `pending, `confirmed, `finalized, `status
      ensures (View(), ok) == Process(old(View()), t, tx, fee, ctx)
    {
      if ctx.masternodes == 0 || tx.inputs == [] || tx.outputs == [] || tx.version < 2 { return false; }
      var spent := InputsAlreadySpentByOther(tx.inputs, t);
      if spent || |pending| >= MAX_POOL || t in pending || t in confirmed || t in rejected { return false; }
      pending := pending[t := Entry(tx, fee)];
      var conflict := HasDoubleSpendConflict(tx.inputs, t);
      if conflict {
        WriteInputs(tx.inputs, SpentPending(t));
        status := status[t := Voting];
      } else {
        FinalizePending(t);
      }
      ok := true;
    }

    method SubmitTransaction(t: TxId, tx: Tx, ctx: Context) returns (ok: bool)
      modifies `utxo, `coins, `tombs, `pending, `confirmed, `finalized, `status
      ensures (View(), ok) == Submit(old(View()), t, tx, ctx)
    {
      var r := LockAndValidateTransaction(t, tx, ctx);
      if r.Err? {
        UnlockTransactionInputs(tx.inputs, t);
        return false;
      }
      ok := ProcessTransaction(t, tx, r.value, ctx);
      if !ok { UnlockTransactionInputs(tx.inputs, t); }
    }

    method RejectFailedVotingTransaction(t: TxId)
      modifies `utxo, `pending, `rejected, `status
      ensures View() == Reject(old(View()), t)
    {
      var wasPending := t in pending;
      var ins := if wasPending then pending[t].tx.inputs else [];
      pending := pending - {t};
      rejected := rejected + {t};
      if wasPending { UnlockTransactionInputs(ins, t); }
      status := status[t := Rejected];
    }

    /** One round of the voting loop at a poll. */
    method VotingRound(t: TxId, elapsed: nat, deadline: nat, weight: nat, total: nat, accept: bool) returns (d: Tick)
      modifies `utxo, `coins, `tombs, `pending, `confirmed, `rejected, `finalized, `status
      ensures d == Decide(old(View()), t, elapsed, deadline, weight, total, accept)
      ensures View() == VoteTimeout(old(View()), t, elapsed, deadline, weight, total, accept)
    {
      if t in finalized || t in confirmed { return Stop; }
      var valid := IsTransactionStillValid(t);
      if !valid { return Stop; }
      if elapsed < deadline { return Wait; }
      var (threshold, floor) := VoteFinalityThreshold(total, elapsed);
      if weight < floor && deadline < MAX_DEADLINE { return Extend(deadline + 5); }
      if !accept || weight < threshold {
        RejectFailedVotingTransaction(t);
        return Drop;
      }
      FinalizePending(t);
      return Win;
    }

    method IsTransactionStillValid(t: TxId) returns (b: bool)
      ensures b == StillValid(View(), t)
    {
      if t !in pending || (t in status && status[t] == Rejected) { return false; }
      var ins := pending[t].tx.inputs;
      for i := 0 to |ins|
        invariant forall o :: o in ins[..i] ==> o in utxo ==> !utxo[o].SpentFinalized? && !utxo[o].Archived?
      {
        assert ins[i] in ins;
        if ins[i] in utxo && (utxo[ins[i]].SpentFinalized? || utxo[ins[i]].Archived?) { return false; }
        assert ins[..i + 1] == ins[..i] + [ins[i]];
      }
      b := true;
    }

    // ----- Recovery and eviction

    method RelockInputs(ins: seq<OutPoint>, t: TxId, now: int)
      modifies `utxo
      ensures View() == Relock(old(View()), ins, t, now)
    {
      ghost var n := View();
      assert LockSet(n, Free(n, ins[..0]), t, now).utxo == utxo;
      for i := 0 to |ins|
        invariant View() == LockSet(n, Free(n, ins[..i]), t, now)
      {
        RelockMore(n, ins, i, t, now);
        if ins[i] !in utxo || utxo[ins[i]].Unspent? { var _ := LockUtxo(ins[i], t, now); }
      }
      assert ins[..|ins|] == ins;
    }

    method RejectNext(ghost n: Node, ghost done: set<TxId>, c: TxId)
      requires View() == RejectAll(n, done) && c in n.pending && c !in done
      modifies `utxo, `pending, `rejected, `status
      ensures View() == RejectAll(n, done + {c})
    {
      RejectMore(n, done, c);
      RejectFailedVotingTransaction(c);
    }

    method RejectEach(list: seq<TxId>)
      requires forall i :: 0 <= i < |list| ==> list[i] in pending
      requires forall i, j :: 0 <= i < j < |list| ==> list[i] != list[j]
      modifies `utxo, `pending, `rejected, `status
      ensures View() == RejectAll(old(View()), Ids(list))
    {
      ghost var n := View();
      RejectNone(n);
      assert Ids(list[..0]) == {};
      for i := 0 to |list|
        invariant View() == RejectAll(n, Ids(list[..i]))
      {
        IdsMore(list, i);
        RejectNext(n, Ids(list[..i]), list[i]);
      }
      assert list[..|list|] == list;
    }

    /** Other pending transactions that spend one of the inputs, each once. */
    method ConflictingPending(ins: seq<OutPoint>, t: TxId) returns (list: seq<TxId>)
      ensures Ids(list) == Competitors(View(), t, ins)
      ensures forall i, j :: 0 <= i < j < |list| ==> list[i] != list[j]
    {
      var todo, wanted := pending.Keys, Elems(ins);
      ghost var all := Competitors(View(), t, ins);
      list := [];
      while todo != {}
        invariant todo <= pending.Keys && forall id :: id in list ==> id !in todo
        invariant forall id :: id in pending && id !in todo ==> (id in list <==> id in all)
        invariant forall id :: id in list ==> id in pending
        invariant forall i, j :: 0 <= i < j < |list| ==> list[i] != list[j]
        decreases |todo|
      {
        var id :| id in todo;
        var hit := SharesInput(pending[id].tx.inputs, wanted);
        assert hit <==> exists o :: o in pending[id].tx.inputs && o in ins;
        if id != t && hit { list := list + [id]; }
        todo := todo - {id};
      }
    }

    method SettleOne(t: TxId) returns (done: nat, dropped: nat)
      requires t in pending
      modifies `utxo, `coins, `tombs, `pending, `confirmed, `rejected, `finalized, `status
      ensures View() == Settle(old(View()), t)
      ensures done + dropped + |pending| == |old(pending)|
      ensures Confirms(old(pending), old(confirmed), pending, confirmed, done)
    {
      var ins := pending[t].tx.inputs;
      var owned := InputsOwnedByOther(ins, t);
      var clash := PoolInputsOverlap(confirmed, ins, t);
      if owned || clash { return 0, 0; }
      var losers := ConflictingPending(ins, t);
      assert forall i :: 0 <= i < |losers| ==> losers[i] in Ids(losers);
      DistinctCount(losers);
      PoolShrinks(pending, Ids(losers));
      RejectEach(losers);
      dropped := |losers|;
      PoolShrinks(pending, {t});
      OneMoreConfirmed(pending, confirmed, t);
      FinalizePending(t);
      done := 1;
    }

    /** The recovery pass for one transaction; counts what is confirmed and what is rejected. */
    method RecoverOne(t: TxId, ctx: Context) returns (done: nat, dropped: nat)
      modifies `utxo, `coins, `tombs, `pending, `confirmed, `rejected, `finalized, `status
      ensures View() == Recover(old(View()), t, ctx)
      ensures done + dropped + |pending| == |old(pending)|
      ensures Confirms(old(pending), old(confirmed), pending, confirmed, done)
      ensures EndsRecovered(old(View()), View(), t, ctx)
    {
      RecoverEnds(View(), t, ctx);
      done, dropped := RetryOne(t, ctx);
    }

    method RetryOne(t: TxId, ctx: Context) returns (done: nat, dropped: nat)
      modifies `utxo, `coins, `tombs, `pending, `confirmed, `rejected, `finalized, `status
      ensures View() == Recover(old(View()), t, ctx)
      ensures done + dropped + |pending| == |old(pending)|
      ensures Confirms(old(pending), old(confirmed), pending, confirmed, done)
    {
      done, dropped := 0, 0;
      if t !in pending { return; }
      PoolShrinks(pending, {t});
      ghost var n := View();
      var tx := pending[t].tx;
      var spent := InputsAlreadySpentByOther(tx.inputs, t);
      if spent {
        RejectFailedVotingTransaction(t);
        return 0, 1;
      }
      RelockInputs(tx.inputs, t, ctx.now);
      ghost var n1 := View();
      var r := RunChecks(t, tx, ctx);
      if r.Err? {
        RejectFailedVotingTransaction(t);
        return 0, 1;
      }
      if pending[t].fee == 0 && r.value > 0 {
        pending := pending[t := Entry(tx, r.value)];
        assert pending.Keys == n.pending.Keys;
      }
      RecoverSettles(n, t, ctx, n1, View(), r);
      done, dropped := SettleOne(t);
    }

    /** The whole pass, in the order the pool snapshot was sorted. */
    method RetryStuckPending(order: seq<(TxId, Context)>) returns (done: nat, dropped: nat)
      modifies `utxo, `coins, `tombs, `pending, `confirmed, `rejected, `finalized, `status
      ensures View() == RecoverAll(old(View()), order)
      ensures done + dropped + |pending| == |old(pending)|
      ensures Confirms(old(pending), old(confirmed), pending, confirmed, done)
    {
      done, dropped := 0, 0;
      for i := 0 to |order|
        invariant View() == RecoverAll(old(View()), order[..i])
        invariant done + dropped + |pending| == |old(pending)|
        invariant Confirms(old(pending), old(confirmed), pending, confirmed, done)
      {
        assert order[..i + 1][..i] == order[..i];
        var d, x := RecoverOne(order[i].0, order[i].1);
        done, dropped := done + d, dropped + x;
      }
      assert order[..|order|] == order;
    }

    method ReleaseInputs(ins: seq<OutPoint>, t: TxId)
      modifies `utxo
      ensures utxo == Released(old(View()), Elems(ins), t)
    {
      ghost var n := View();
      assert Released(n, Elems(ins[..0]), t) == utxo;
      for i := 0 to |ins|
        invariant utxo == Released(n, Elems(ins[..i]), t)
      {
        ElemsMore(ins, i);
        var o := ins[i];
        if o !in collateral && o in utxo && (utxo[o].Locked? || utxo[o].SpentPending?) && utxo[o].txid == t {
          utxo := utxo[o := Unspent];
        }
        assert utxo == Released(n, Elems(ins[..i]) + {o}, t);
      }
      assert ins[..|ins|] == ins;
    }

    /** What eviction does to a transaction already taken out of the pool. */
    method ReleaseEvicted(ghost m: Node, t: TxId, ins: seq<OutPoint>)
      requires View() == m.(pending := pending)
      modifies `utxo, `status, `finalized, `votes
      ensures View() == m.(utxo := Released(m, Elems(ins), t), pending := pending,
                           status := m.status[t := Rejected], finalized := m.finalized - {t}, votes := m.votes - {t})
    {
      ReleaseInputs(ins, t);
      status := status[t := Rejected];
      finalized := finalized - {t};
      votes := votes - {t};
    }

    method TakeStale(stale: seq<TxId>) returns (evicted: seq<Tx>)
      requires forall i :: 0 <= i < |stale| ==> stale[i] in pending
      requires forall i, j :: 0 <= i < j < |stale| ==> stale[i] != stale[j]
      modifies `pending
      ensures |evicted| == |stale| && forall k :: 0 <= k < |stale| ==> evicted[k] == old(pending)[stale[k]].tx
      ensures pending == old(pending) - Ids(stale)
    {
      evicted := [];
      for i := 0 to |stale|
        invariant |evicted| == i && forall k :: 0 <= k < i ==> evicted[k] == old(pending)[stale[k]].tx
        invariant pending == old(pending) - Ids(stale[..i])
      {
        IdsMore(stale, i);
        evicted := evicted + [pending[stale[i]].tx];
        pending := pending - {stale[i]};
      }
      assert stale[..|stale|] == stale;
    }

    /** Stale transactions leave the pool first, then give back what they hold; the fallback
        tracker forgets each of them. */
    method EvictStale(stale: seq<TxId>, tracker: Fallback.FallbackTracker)
      requires forall i :: 0 <= i < |stale| ==> stale[i] in pending
      requires forall i, j :: 0 <= i < j < |stale| ==> stale[i] != stale[j]
      modifies `utxo, `pending, `status, `finalized, `votes, tracker
      ensures View() == EvictAll(old(View()), stale)
      ensures tracker.View() == Fallback.ForgetAll(old(tracker.View()), stale)
      ensures tracker.preference == old(tracker.preference) - Ids(stale)
    {
      ghost var n := View();
      var evicted := TakeStale(stale);
      NoneEvicted(n, stale);
      for i := 0 to |stale|
        invariant EvictedSoFar(n, stale, i, View())
        invariant Untracked(old(tracker.View()), old(tracker.preference), stale[..i], tracker.View(),
            tracker.preference)
      {
        EvictNext(n, stale, i, evicted[i].inputs);
        UntrackMore(old(tracker.View()), old(tracker.preference), stale, i, tracker.View(), tracker.preference);
        tracker.Evict(stale[i]);
      }
      EvictedPool(n, stale, View());
      assert stale[..|stale|] == stale;
    }

    method EvictNext(ghost n: Node, stale: seq<TxId>, i: nat, ins: seq<OutPoint>)
      requires i < |stale| && EvictedSoFar(n, stale, i, View()) && ins == n.pending[stale[i]].tx.inputs
      modifies `utxo, `status, `finalized, `votes
      ensures EvictedSoFar(n, stale, i + 1, View())
    {
      EvictMore(n, stale, i);
      ReleaseEvicted(EvictAll(n, stale[..i]), stale[i], ins);
    }
  }

  // ----- Folds of the passes

  function RecoverAll(n: Node, order: seq<(TxId, Context)>): Node {
    if order == [] then n
    else
      var k := |order| - 1;
      Recover(RecoverAll(n, order[..k]), order[k].0, order[k].1)
  }

  lemma IdsMore(s: seq<TxId>, i: nat)
    requires i < |s|
    ensures Ids(s[..i + 1]) == Ids(s[..i]) + {s[i]}
  {
  }

  lemma {:induction false} DistinctCount(s: seq<TxId>)
    requires forall i, j :: 0 <= i < j < |s| ==> s[i] != s[j]
    ensures |Ids(s)| == |s|
  {
    if s != [] {
      var k := |s| - 1;
      DistinctCount(s[..k]);
      assert s == s[..k] + [s[k]];
      assert Ids(s) == Ids(s[..k]) + {s[k]};
      assert s[k] !in Ids(s[..k]);
    }
  }

  /** States after `t` gives back its locks and pending claims on outpoints of `s`. */
  function Released(n: Node, s: set<OutPoint>, t: TxId): map<OutPoint, UtxoState> {
    map o | o in n.utxo ::
      if o in s && o !in n.collateral && (n.utxo[o].Locked? || n.utxo[o].SpentPending?) && n.utxo[o].txid == t
      then Unspent else n.utxo[o]
  }

  function EvictAll(n: Node, ids: seq<TxId>): (r: Node)
    requires forall i :: 0 <= i < |ids| ==> ids[i] in n.pending
    requires forall i, j :: 0 <= i < j < |ids| ==> ids[i] != ids[j]
    ensures r.pending == n.pending - Ids(ids) && r.collateral == n.collateral
    decreases |ids|
  {
    if ids == [] then assert n.pending - {} == n.pending; n
    else
      var k := |ids| - 1;
      var m := EvictAll(n, ids[..k]);
      assert Ids(ids) == Ids(ids[..k]) + {ids[k]};
      Evict(m, ids[k])
  }

  lemma EvictMore(n: Node, ids: seq<TxId>, i: nat)
    requires forall k :: 0 <= k < |ids| ==> ids[k] in n.pending
    requires forall k, j :: 0 <= k < j < |ids| ==> ids[k] != ids[j]
    requires i < |ids|
    ensures var m := EvictAll(n, ids[..i]);
      EvictAll(n, ids[..i + 1]) ==
      m.(utxo := Released(m, Elems(n.pending[ids[i]].tx.inputs), ids[i]), pending := m.pending - {ids[i]},
         status := m.status[ids[i] := Rejected], finalized := m.finalized - {ids[i]}, votes := m.votes - {ids[i]})
  {
    assert ids[..i + 1][..i] == ids[..i];
  }

  ghost predicate Stale(n: Node, ids: seq<TxId>) {
    && (forall k :: 0 <= k < |ids| ==> ids[k] in n.pending)
    && (forall k, j :: 0 <= k < j < |ids| ==> ids[k] != ids[j])
  }

  /** The first `i` stale transactions were evicted and all have left the pool. */
  ghost predicate EvictedSoFar(n: Node, ids: seq<TxId>, i: nat, m: Node) {
    Stale(n, ids) && i <= |ids| && m == EvictAll(n, ids[..i]).(pending := n.pending - Ids(ids))
  }

  /** What the tracker looks like once it has forgotten these transactions. */
  ghost predicate Untracked(s: Fallback.State, p: map<TxId, bool>, ids: seq<TxId>, s': Fallback.State,
      p': map<TxId, bool>) {
    s' == Fallback.ForgetAll(s, ids) && p' == p - Ids(ids)
  }

  lemma UntrackMore(s: Fallback.State, p: map<TxId, bool>, ids: seq<TxId>, i: nat, s': Fallback.State,
      p': map<TxId, bool>)
    requires i < |ids| && Untracked(s, p, ids[..i], s', p')
    ensures Untracked(s, p, ids[..i + 1], Fallback.Forget(s', ids[i]), p' - {ids[i]})
  {
    assert ids[..i + 1][..i] == ids[..i];
    IdsMore(ids, i);
  }

  lemma NoneEvicted(n: Node, ids: seq<TxId>)
    requires Stale(n, ids)
    ensures EvictedSoFar(n, ids, 0, n.(pending := n.pending - Ids(ids)))
  {
    assert EvictAll(n, ids[..0]) == n;
  }

  lemma EvictedPool(n: Node, ids: seq<TxId>, m: Node)
    requires EvictedSoFar(n, ids, |ids|, m)
    ensures m == EvictAll(n, ids)
  {
    assert ids[..|ids|] == ids;
  }
}
