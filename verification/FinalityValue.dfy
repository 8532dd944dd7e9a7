/** Conservation of value: what the stored coins are worth, across finalizations and runs. */
module FinalityValue {

  import opened Basics
  import opened Sums
  import opened Quorum
  import opened Fees
  import opened Transactions
  import opened Wrappers
  import opened Ledger
  import opened FinalityRuns
  import opened FinalitySafety

  ghost function Values(coins: map<OutPoint, Coin>): map<OutPoint, nat> {
    map o | o in coins :: coins[o].value
  }

  /** Total value of the coins in storage. */
  ghost function Live(n: Node): nat {
    Total(Values(n.coins), n.coins.Keys)
  }

  // ----- Sums over inputs and outputs

  lemma LiveSplit(coins: map<OutPoint, Coin>, gone: set<OutPoint>)
    requires gone <= coins.Keys
    ensures Total(Values(coins), coins.Keys) ==
            Total(Values(coins), gone) + Total(Values(coins - gone), (coins - gone).Keys)
  {
    var v, rest := Values(coins), (coins - gone).Keys;
    TotalUnion(v, gone, rest);
    assert gone + rest == coins.Keys && gone * rest == {};
    TotalAgree(v, Values(coins - gone), rest);
  }

  lemma LiveJoin(coins: map<OutPoint, Coin>, more: map<OutPoint, Coin>)
    requires coins.Keys !! more.Keys
    ensures Total(Values(coins + more), (coins + more).Keys) ==
            Total(Values(coins), coins.Keys) + Total(Values(more), more.Keys)
  {
    var all := coins + more;
    LiveSplit(all, more.Keys);
    assert all - more.Keys == coins;
    TotalAgree(Values(all), Values(more), more.Keys);
  }

  /** Outputs of one transaction, as coins. */
  ghost function Minted(t: TxId, outs: seq<Coin>): map<OutPoint, Coin> {
    map o | o in OwnOutputs(t, outs) :: outs[o.vout]
  }

  lemma {:induction false} MintedValue(t: TxId, outs: seq<Coin>)
    ensures Total(Values(Minted(t, outs)), Minted(t, outs).Keys) == OutputSum(outs)
    decreases |outs|
  {
    if outs != [] {
      var k := |outs| - 1;
      var last := OutPoint(t, k);
      var all, init := Minted(t, outs), Minted(t, outs[..k]);
      assert all.Keys == OwnOutputs(t, outs) && init.Keys == OwnOutputs(t, outs[..k]);
      assert last in all.Keys && all.Keys - {last} == init.Keys;
      TotalTake(Values(all), all.Keys, last);
      TotalAgree(Values(all), Values(init), init.Keys);
      MintedValue(t, outs[..k]);
      OutputSumSnoc(outs);
    }
  }

  lemma {:induction false} OutputSumSnoc(outs: seq<Coin>)
    requires outs != []
    ensures OutputSum(outs) == OutputSum(outs[..|outs| - 1]) + outs[|outs| - 1].value
    decreases |outs|
  {
    if |outs| > 1 {
      OutputSumSnoc(outs[1..]);
      assert outs[1..][..|outs| - 2] == outs[..|outs| - 1][1..];
    } else {
      assert outs[..0] == [] && outs[1..] == [];
    }
  }

  /** Value counted more than once because an outpoint is mentioned more than once. */
  ghost function Repeated(coins: map<OutPoint, Coin>, ins: seq<OutPoint>): nat
    requires forall o :: o in ins ==> o in coins
  {
    if ins == [] then 0
    else (if ins[0] in ins[1..] then coins[ins[0]].value else 0) + Repeated(coins, ins[1..])
  }

  lemma {:induction false} InputSumSplits(coins: map<OutPoint, Coin>, ins: seq<OutPoint>)
    requires forall o :: o in ins ==> o in coins
    ensures InputSum(coins, ins) == Total(Values(coins), Elems(ins)) + Repeated(coins, ins)
    ensures Distinct(ins) ==> Repeated(coins, ins) == 0
    decreases |ins|
  {
    if ins != [] {
      var o, rest := ins[0], ins[1..];
      InputSumSplits(coins, rest);
      assert Distinct(ins) ==> Distinct(rest) && o !in rest;
      if o in rest {
        assert Elems(ins) == Elems(rest);
      } else {
        assert Elems(ins) - {o} == Elems(rest);
        TotalTake(Values(coins), Elems(ins), o);
      }
    }
  }

  // ----- One finalization

  /** Coins are known outpoints and every outpoint not spent for good still has its coin. */
  ghost predicate Stored(n: Node) {
    && n.coins.Keys <= n.utxo.Keys
    && forall o :: o in n.utxo && !n.utxo[o].SpentFinalized? ==> o in n.coins
  }

  lemma MintsAll(env: Env, n: Node, t: TxId)
    requires Base(env, n) && Known(env, n) && t in n.pending
    ensures var tx := n.pending[t].tx;
      Minting(Mark(n, Elems(tx.inputs), t), t, tx.outputs) == Minted(t, tx.outputs) &&
        n.utxo.Keys !! Minted(t, tx.outputs).Keys
  {
    OutputsNew(env, n, t);
    var ins := Elems(n.pending[t].tx.inputs);
    assert Claimed(n, ins, t) <= n.utxo.Keys;
    assert Mark(n, ins, t).utxo.Keys == n.utxo.Keys;
  }

  lemma OutputsNew(env: Env, n: Node, t: TxId)
    requires Base(env, n) && Known(env, n) && t in n.pending
    ensures OwnOutputs(t, n.pending[t].tx.outputs) !! n.utxo.Keys
  {
  }

  lemma FinalizeStored(env: Env, n: Node, t: TxId)
    requires Base(env, n) && Known(env, n) && Stored(n) && t in n.pending
    requires Finalize(n, t).coins ==
             (n.coins - Claimed(n, Elems(n.pending[t].tx.inputs), t)) + Minted(t, n.pending[t].tx.outputs)
    ensures Stored(Finalize(n, t))
  {
    FinalizeFacts(n, t);
  }

  /** Coins after finalization: claimed inputs are gone and every output is there. */
  lemma ExchangedCoins(env: Env, n: Node, t: TxId)
    requires Base(env, n) && Known(env, n) && Stored(n) && t in n.pending
    ensures var tx, n' := n.pending[t].tx, Finalize(n, t);
      && Stored(n') && n.coins.Keys !! Minted(t, tx.outputs).Keys
      && n'.coins == (n.coins - Claimed(n, Elems(tx.inputs), t)) + Minted(t, tx.outputs)
  {
    FinalizeCoins(n, t);
    MintsAll(env, n, t);
    FinalizeStored(env, n, t);
  }

  /** Exact account of any finalization: claimed coins leave, the outputs arrive. */
  lemma FinalizeAccount(env: Env, n: Node, t: TxId)
    requires Base(env, n) && Known(env, n) && Stored(n) && t in n.pending
    ensures var tx := n.pending[t].tx;
      Live(Finalize(n, t)) + Total(Values(n.coins), Claimed(n, Elems(tx.inputs), t) * n.coins.Keys) ==
        Live(n) + OutputSum(tx.outputs)
  {
    ExchangedCoins(env, n, t);
    var tx := n.pending[t].tx;
    Exchange(n.coins, Claimed(n, Elems(tx.inputs), t), t, tx.outputs);
  }

  lemma Exchange(coins: map<OutPoint, Coin>, gone: set<OutPoint>, t: TxId, outs: seq<Coin>)
    requires coins.Keys !! Minted(t, outs).Keys
    ensures var coins' := (coins - gone) + Minted(t, outs);
      Total(Values(coins'), coins'.Keys) + Total(Values(coins), gone * coins.Keys) ==
        Total(Values(coins), coins.Keys) + OutputSum(outs)
  {
    assert coins - gone == coins - gone * coins.Keys;
    LiveSplit(coins, gone * coins.Keys);
    LiveJoin(coins - gone, Minted(t, outs));
    MintedValue(t, outs);
  }

  /** Without a foreign claim on its inputs, a finalization removes all of them. */
  lemma CleanFinalize(env: Env, n: Node, t: TxId)
    requires Base(env, n) && Known(env, n) && Stored(n) && t in n.pending
    requires !OwnedByOther(n, t, n.pending[t].tx.inputs)
    ensures var tx := n.pending[t].tx;
      && (forall o :: o in tx.inputs ==> o in n.coins)
      && Live(Finalize(n, t)) + InputSum(n.coins, tx.inputs) ==
           Live(n) + OutputSum(tx.outputs) + Repeated(n.coins, tx.inputs)
  {
    var ins := n.pending[t].tx.inputs;
    forall o | o in ins
      ensures o in n.coins && o in Claimed(n, Elems(ins), t)
    {
      assert o in n.utxo && !HeldByOther(n.utxo[o], t);
    }
    FinalizeAccount(env, n, t);
    assert Claimed(n, Elems(ins), t) * n.coins.Keys == Elems(ins);
    InputSumSplits(n.coins, ins);
  }

  /** A submitted transaction that is confirmed at once lowers the live value by its
      validated fee, exactly when no outpoint of value is listed twice. */
  lemma SubmitConservesIff(env: Env, n: Node, t: TxId, ctx: Context)
    requires Base(env, n) && Known(env, n) && Stored(n) && t !in env.base && t !in n.confirmed
    ensures var n', tx := Submit(n, t, env.body(t), ctx).0, env.body(t);
      t in n'.confirmed ==>
        && (forall o :: o in tx.inputs ==> o in n.coins)
        && n'.confirmed[t].fee >= MIN_TX_FEE
        && (Live(n') + n'.confirmed[t].fee == Live(n) <==> Repeated(n.coins, tx.inputs) == 0)
        && (Distinct(tx.inputs) ==> Live(n') + n'.confirmed[t].fee == Live(n))
  {
    if t in Submit(n, t, env.body(t), ctx).0.confirmed {
      RepeatedValueAppears(env, n, t, ctx);
      InputSumSplits(n.coins, env.body(t).inputs);
    }
  }

  /** The only way a submission confirms its transaction. */
  lemma ConfirmedAtOnce(env: Env, n: Node, t: TxId, ctx: Context)
    requires Base(env, n) && Known(env, n) && Stored(n) && t !in env.base && t !in n.confirmed
    requires t in Submit(n, t, env.body(t), ctx).0.confirmed
    ensures var (n1, r) := LockAndValidate(n, t, env.body(t), ctx);
      && r == Validate(n1, t, env.body(t), ctx) && r.Ok? && n1.coins == n.coins && Stored(n1)
      && (forall o :: o in env.body(t).inputs ==> o in n1.utxo && n1.utxo[o].Locked? && n1.utxo[o].txid == t)
      && var n2 := Admit(n1, t, env.body(t), r.value);
         && Base(env, n2) && Known(env, n2) && !OwnedByOther(n2, t, env.body(t).inputs)
         && Submit(n, t, env.body(t), ctx).0 == Finalize(n2, t)
  {
    var (n1, r) := LockAndValidate(n, t, env.body(t), ctx);
    LockAndValidateCalm(env, n, t, env.body(t), ctx);
    CalmBase(env, n, n1);
    CalmKnown(env, n, n1);
    SubmitConfirms(n, t, env.body(t), ctx, n1, r);
    AdmittedState(env, n1, t, r.value);
  }

  lemma SubmitConfirms(n: Node, t: TxId, tx: Tx, ctx: Context, n1: Node, r: Result<nat>)
    requires (n1, r) == LockAndValidate(n, t, tx, ctx) && n1.confirmed == n.confirmed
    requires t !in n.confirmed && t in Submit(n, t, tx, ctx).0.confirmed
    ensures r.Ok? && Submit(n, t, tx, ctx).0 == Finalize(Admit(n1, t, tx, r.value), t)
  {
    if r.Ok? { ProcessConfirms(n1, t, tx, r.value, ctx); }
  }

  lemma ProcessConfirms(n: Node, t: TxId, tx: Tx, fee: nat, ctx: Context)
    requires t !in n.confirmed
    ensures var (n', ok) := Process(n, t, tx, fee, ctx);
      t in n'.confirmed ==> ok && n' == Finalize(Admit(n, t, tx, fee), t)
  {
  }

  lemma AdmittedState(env: Env, n: Node, t: TxId, fee: nat)
    requires Base(env, n) && Known(env, n) && Stored(n) && t !in env.base && t !in n.confirmed
    requires forall o :: o in env.body(t).inputs ==> o in n.utxo && n.utxo[o].Locked? && n.utxo[o].txid == t
    ensures var n2 := Admit(n, t, env.body(t), fee);
      Base(env, n2) && Known(env, n2) && Stored(n2) && !OwnedByOther(n2, t, env.body(t).inputs)
  {
  }

  lemma SumTwice(coins: map<OutPoint, Coin>, o: OutPoint)
    requires o in coins
    ensures InputSum(coins, [o, o]) == 2 * coins[o].value
  {
    assert [o, o][1..] == [o] && [o][1..] == [];
    assert InputSum(coins, [o]) == coins[o].value + InputSum(coins, []);
  }

  /** A coin of 1 TIME, listed twice to pay 1.5 TIME, passes validation. */
  lemma RepeatedInputValidates(o: OutPoint, tx: Tx, n: Node, ctx: Context)
    requires o == OutPoint(0, 0) && tx == Tx(2, [o, o], [Coin(150_000_000, "a")])
    requires n == Node(map[o := Unspent], map[o := Coin(100_000_000, "a")], {}, {}, map[], map[], {}, map[], {}, map[])
    requires ctx == Context(0, true, true, 1, DEFAULT_SCHEDULE)
    ensures LockAndValidate(n, 1, tx, ctx) == (n.(utxo := map[o := Locked(1, 0)]), Ok(50_000_000))
    ensures Repeated(n.coins, tx.inputs) == 100_000_000
  {
    assert tx.inputs[1..] == [o] && tx.outputs[1..] == [] && tx.inputs[..2] == tx.inputs;
    assert Lockable(n, [o], 1, 0) == 1 && Lockable(n, tx.inputs, 1, 0) == 2;
    var n1 := LockSet(n, Elems(tx.inputs), 1, 0);
    assert n1.utxo == map[o := Locked(1, 0)];
    SumTwice(n1.coins, o);
    assert OutputSum(tx.outputs) == 150_000_000;
    assert o in tx.inputs && !InputFinalized(n1, o, 1);
    assert SelfSend(n1, tx);
    assert Repeated(n.coins, [o]) == 0;
  }

  /** Listing one coin twice mints its value a second time: 1 TIME of coins becomes 1.5. */
  lemma RepeatedInputMints(env: Env, o: OutPoint, n: Node, ctx: Context)
    requires o == OutPoint(0, 0) && env.base == {0} && env.body(1) == Tx(2, [o, o], [Coin(150_000_000, "a")])
    requires n == Node(map[o := Unspent], map[o := Coin(100_000_000, "a")], {}, {}, map[], map[], {}, map[], {}, map[])
    requires ctx == Context(0, true, true, 1, DEFAULT_SCHEDULE)
    ensures Start(env, n) && Stored(n)
    ensures 1 in Submit(n, 1, env.body(1), ctx).0.confirmed
    ensures Live(Submit(n, 1, env.body(1), ctx).0) == Live(n) + 50_000_000
  {
    RepeatedInputValidates(o, env.body(1), n, ctx);
    ConfirmedWhenFree(env, n, 1, ctx);
    RepeatedStart(env, o, n);
    RepeatedValueAppears(env, n, 1, ctx);
  }

  lemma RepeatedStart(env: Env, o: OutPoint, n: Node)
    requires o == OutPoint(0, 0) && env.base == {0}
    requires n == Node(map[o := Unspent], map[o := Coin(100_000_000, "a")], {}, {}, map[], map[], {}, map[], {}, map[])
    ensures Start(env, n) && Base(env, n) && Known(env, n) && Stored(n)
  {
  }

  lemma ConfirmedWhenFree(env: Env, n: Node, t: TxId, ctx: Context)
    requires n.pending == map[] && n.confirmed == map[] && n.tombs == {} && n.rejected == {}
    requires ctx.masternodes > 0 && env.body(t).version >= 2 && env.body(t).inputs != [] && env.body(t).outputs != []
    requires LockAndValidate(n, t, env.body(t), ctx).1.Ok?
    ensures t in Submit(n, t, env.body(t), ctx).0.confirmed
  {
    LockAndValidateCalm(env, n, t, env.body(t), ctx);
    var (n1, r) := LockAndValidate(n, t, env.body(t), ctx);
    ProcessedWhenFree(n1, t, env.body(t), r.value, ctx);
  }

  lemma ProcessedWhenFree(n: Node, t: TxId, tx: Tx, fee: nat, ctx: Context)
    requires n.pending == map[] && n.confirmed == map[] && n.tombs == {} && n.rejected == {}
    requires ctx.masternodes > 0 && tx.version >= 2 && tx.inputs != [] && tx.outputs != []
    requires forall o :: o in tx.inputs ==> o in n.utxo && n.utxo[o].Locked? && n.utxo[o].txid == t
    ensures Process(n, t, tx, fee, ctx).1 && t in Process(n, t, tx, fee, ctx).0.confirmed
  {
  }

  lemma RepeatedValueAppears(env: Env, n: Node, t: TxId, ctx: Context)
    requires Base(env, n) && Known(env, n) && Stored(n) && t !in env.base && t !in n.confirmed
    requires t in Submit(n, t, env.body(t), ctx).0.confirmed
    ensures var n', tx := Submit(n, t, env.body(t), ctx).0, env.body(t);
      && (forall o :: o in tx.inputs ==> o in n.coins)
      && n'.confirmed[t].fee == LockAndValidate(n, t, tx, ctx).1.value >= MIN_TX_FEE
      && Live(n') + n'.confirmed[t].fee == Live(n) + Repeated(n.coins, tx.inputs)
  {
    var tx := env.body(t);
    ConfirmedAtOnce(env, n, t, ctx);
    var (n1, r) := LockAndValidate(n, t, tx, ctx);
    ValidatedBalance(n1, t, tx, ctx);
    CleanFinalize(env, Admit(n1, t, tx, r.value), t);
  }

  // ----- Whole runs

  ghost function CoinOf(env: Env, o: OutPoint): Coin {
    if o.vout < |env.body(o.txid).outputs| then env.body(o.txid).outputs[o.vout] else Coin(0, "")
  }

  ghost function InputValue(env: Env, ins: seq<OutPoint>): nat {
    if ins == [] then 0 else CoinOf(env, ins[0]).value + InputValue(env, ins[1..])
  }

  /** Fee a transaction pays, whatever the state of the node. */
  ghost function FeeOf(env: Env, t: TxId): int {
    InputValue(env, env.body(t).inputs) - OutputSum(env.body(t).outputs)
  }

  ghost predicate Sound(env: Env, n: Node) {
    && Stored(n)
    && (forall o :: o in n.coins ==> n.coins[o] == CoinOf(env, o))
    && (forall t :: t in n.pending || t in n.confirmed ==> Distinct(env.body(t).inputs) && FeeOf(env, t) >= MIN_TX_FEE)
  }

  /** Fees of all confirmed transactions. */
  ghost function Collected(env: Env, n: Node): nat
    requires Sound(env, n)
  {
    Total(map t | t in n.confirmed :: FeeOf(env, t) as nat, n.confirmed.Keys)
  }

  lemma {:induction false} InputSumIsValue(env: Env, coins: map<OutPoint, Coin>, ins: seq<OutPoint>)
    requires forall o :: o in ins ==> o in coins && coins[o] == CoinOf(env, o)
    ensures InputSum(coins, ins) == InputValue(env, ins)
    decreases |ins|
  {
    if ins != [] {
      InputSumIsValue(env, coins, ins[1..]);
    }
  }

  lemma CalmSound(env: Env, n: Node, m: Node, extra: set<TxId>)
    requires Sound(env, n) && Base(env, n) && Calm(env, n, m) && Vetted(env, n, m)
    requires m.pending.Keys <= n.pending.Keys + extra && forall t :: t in extra ==> Distinct(env.body(t).inputs)
    ensures Sound(env, m) && Live(m) == Live(n) && Collected(env, m) == Collected(env, n)
  {
    forall t | t in m.pending && t !in n.pending
      ensures FeeOf(env, t) >= MIN_TX_FEE
    {
      InputSumIsValue(env, n.coins, env.body(t).inputs);
    }
  }

  lemma FinalizeSound(env: Env, n: Node, t: TxId)
    requires Base(env, n) && Known(env, n) && Sound(env, n) && t in n.pending
    ensures Sound(env, Finalize(n, t))
  {
    ExchangedCoins(env, n, t);
    MovesOne(n, t);
    StaysSound(env, n, Finalize(n, t), t, Claimed(n, Elems(n.pending[t].tx.inputs), t));
  }

  lemma FinalizeFees(env: Env, n: Node, t: TxId)
    requires Base(env, n) && Sound(env, n) && t in n.pending && Sound(env, Finalize(n, t))
    ensures Collected(env, Finalize(n, t)) == Collected(env, n) + FeeOf(env, t)
  {
    MovesOne(n, t);
    FeesGrow(env, n, Finalize(n, t), t);
  }

  lemma MovesOne(n: Node, t: TxId)
    requires t in n.pending
    ensures Finalize(n, t).pending == n.pending - {t} && Finalize(n, t).confirmed == n.confirmed[t := n.pending[t]]
  {
  }

  lemma StaysSound(env: Env, n: Node, n': Node, t: TxId, gone: set<OutPoint>)
    requires Sound(env, n) && t in n.pending && Stored(n')
    requires n'.coins == (n.coins - gone) + Minted(t, env.body(t).outputs)
    requires n'.pending == n.pending - {t} && n'.confirmed == n.confirmed[t := n.pending[t]]
    ensures Sound(env, n')
  {
  }

  lemma FeesGrow(env: Env, n: Node, n': Node, t: TxId)
    requires Sound(env, n) && Sound(env, n') && t !in n.confirmed && n'.confirmed.Keys == n.confirmed.Keys + {t}
    ensures Collected(env, n') == Collected(env, n) + FeeOf(env, t)
  {
    assert n'.confirmed.Keys - {t} == n.confirmed.Keys;
    var fees := map u | u in n.confirmed :: FeeOf(env, u) as nat;
    var fees' := map u | u in n'.confirmed :: FeeOf(env, u) as nat;
    TotalTake(fees', n'.confirmed.Keys, t);
    TotalAgree(fees, fees', n.confirmed.Keys);
  }

  // ----- Inputs held by others

  ghost function Prices(env: Env, s: set<OutPoint>): map<OutPoint, nat> {
    map o | o in s :: CoinOf(env, o).value
  }

  ghost function Worth(env: Env, s: set<OutPoint>): nat {
    Total(Prices(env, s), s)
  }

  lemma WorthSplits(env: Env, a: set<OutPoint>, b: set<OutPoint>)
    requires a !! b
    ensures Worth(env, a + b) == Worth(env, a) + Worth(env, b)
  {
    var w := Prices(env, a + b);
    TotalUnion(w, a, b);
    assert a * b == {};
    TotalAgree(w, Prices(env, a), a);
    TotalAgree(w, Prices(env, b), b);
  }

  lemma {:induction false} DistinctWorth(env: Env, ins: seq<OutPoint>)
    requires Distinct(ins)
    ensures InputValue(env, ins) == Worth(env, Elems(ins))
    decreases |ins|
  {
    if ins != [] {
      var o, rest := ins[0], ins[1..];
      assert Distinct(rest) && o !in rest;
      DistinctWorth(env, rest);
      WorthSplits(env, {o}, Elems(rest));
      assert {o} + Elems(rest) == Elems(ins);
      TotalTake(Prices(env, {o}), {o}, o);
      assert {o} - {o} == {};
    }
  }

  /** Inputs of a pending transaction that another transaction holds. */
  ghost function Held(n: Node, t: TxId): set<OutPoint>
    requires t in n.pending
  {
    set o | o in n.pending[t].tx.inputs && o in n.utxo && HeldByOther(n.utxo[o], t)
  }

  /** Their value: what the transaction spends without taking it. */
  ghost function Foreign(env: Env, n: Node, t: TxId): nat
    requires t in n.pending
  {
    Worth(env, Held(n, t))
  }

  lemma ClaimedOrHeld(env: Env, n: Node, t: TxId)
    requires Base(env, n) && Known(env, n) && Sound(env, n) && t in n.pending
    ensures var claimed := Claimed(n, Elems(n.pending[t].tx.inputs), t);
      claimed <= n.coins.Keys && claimed !! Held(n, t) && claimed + Held(n, t) == Elems(n.pending[t].tx.inputs)
  {
  }

  /** Exact account of every finalization of a validated transaction: the live value falls
      by the fee and rises by the value of the inputs it could not take. */
  lemma FinalizeBalance(env: Env, n: Node, t: TxId)
    requires Base(env, n) && Known(env, n) && Sound(env, n) && t in n.pending
    ensures Live(Finalize(n, t)) + FeeOf(env, t) == Live(n) + Foreign(env, n, t)
  {
    var tx := n.pending[t].tx;
    var claimed := Claimed(n, Elems(tx.inputs), t);
    FinalizeAccount(env, n, t);
    ClaimedOrHeld(env, n, t);
    DistinctWorth(env, tx.inputs);
    WorthSplits(env, claimed, Held(n, t));
    TotalAgree(Values(n.coins), Prices(env, claimed), claimed);
    assert claimed * n.coins.Keys == claimed;
  }

  lemma UnheldIsPaid(env: Env, n: Node, t: TxId)
    requires t in n.pending && !OwnedByOther(n, t, n.pending[t].tx.inputs)
    ensures Foreign(env, n, t) == 0
  {
    assert Held(n, t) == {};
  }

  // ----- Runs

  /** What a step finalizes by votes without being able to take it. */
  ghost function Unpaid(env: Env, n: Node, s: Step): nat {
    if VoteWins(n, s) then Foreign(env, n, s.t) else 0
  }

  /** Steps that validate what they admit: no mempool sync, no finalization told by a peer with
      unknown inputs, no outpoint listed twice. */
  ghost predicate Careful(env: Env, n: Node, s: Step) {
    !s.SyncTx? && KnownStep(env, n, s) && forall t :: t in Entrant(s) ==> Distinct(env.body(t).inputs)
  }

  /** Live value and collected fees across one step. */
  lemma StepBalance(env: Env, n: Node, s: Step)
    requires Base(env, n) && Known(env, n) && Sound(env, n) && Careful(env, n, s) && Allowed(env, s)
    ensures var n' := Next(env, n, s);
      Sound(env, n') && Live(n') + Collected(env, n') == Live(n) + Collected(env, n) + Unpaid(env, n, s)
  {
    if VoteWins(n, s) {
      VoteShape(env, n, s);
      FinalizeBalance(env, n, s.t);
      FinalizeSound(env, n, s.t);
      FinalizeFees(env, n, s.t);
    } else {
      var m, fin := StepShape(env, n, s);
      CalmSound(env, n, m, Entrant(s));
      if fin {
        UnopposedBalance(env, n, m, s.t);
        AlikeBalance(env, Finalize(m, s.t), Next(env, n, s));
      }
    }
  }

  /** A finalization a peer tells of, with an input unknown here, confirms nothing and raises
      the live value by all outputs that are new. */
  lemma DivergedMints(env: Env, n: Node, t: TxId, ctx: Context)
    requires Stored(n) && t !in n.confirmed && env.body(t).version >= 2 && Diverged(n, env.body(t).inputs)
    ensures var n', minted := PeerFinalized(n, t, env.body(t), ctx), Minting(n, t, env.body(t).outputs);
      n'.confirmed == n.confirmed && Live(n') == Live(n) + Total(Values(minted), minted.Keys)
  {
    var o :| o in env.body(t).inputs && o !in n.coins && o !in n.tombs;
    LiveJoin(n.coins, Minting(n, t, env.body(t).outputs));
  }

  lemma AlikeBalance(env: Env, n: Node, m: Node)
    requires Sound(env, n) && Alike(n, m)
    ensures Sound(env, m) && Live(m) == Live(n) && Collected(env, m) == Collected(env, n)
  {
  }

  lemma UnopposedBalance(env: Env, n: Node, m: Node, t: TxId)
    requires Base(env, n) && Known(env, n) && Calm(env, n, m) && Tidy(env, n, m)
    requires Sound(env, m) && t in m.pending && Unopposed(m, t)
    ensures var n' := Finalize(m, t); Sound(env, n') && Live(n') + Collected(env, n') == Live(m) + Collected(env, m)
  {
    CalmBase(env, n, m);
    CalmKnown(env, n, m);
    FinalizeBalance(env, m, t);
    FinalizeSound(env, m, t);
    FinalizeFees(env, m, t);
    UnheldIsPaid(env, m, t);
  }

  /** A run of careful steps from stored base outpoints. */
  ghost predicate CarefulRun(env: Env, n: Node, steps: seq<Step>) {
    Start(env, n) && Known(env, n) && Sound(env, n) && Run(env, steps) && Always(env, n, steps, Careful)
  }

  lemma CarefulPrefix(env: Env, n: Node, steps: seq<Step>)
    requires CarefulRun(env, n, steps) && steps != []
    ensures var k := |steps| - 1;
      CarefulRun(env, n, steps[..k]) && Careful(env, After(env, n, steps[..k]), steps[k]) && Allowed(env, steps[k])
  {
    RunPrefix(env, steps, |steps| - 1);
    assert steps[|steps| - 1] in steps;
  }

  /** Value of all inputs that vote-driven finalizations of the run spent without taking. */
  ghost function Excess(env: Env, n: Node, steps: seq<Step>): nat {
    if steps == [] then 0
    else
      var k := |steps| - 1;
      Excess(env, n, steps[..k]) + Unpaid(env, After(env, n, steps[..k]), steps[k])
  }

  ghost predicate Accounted(env: Env, n: Node, start: nat, excess: nat) {
    Base(env, n) && Known(env, n) && Sound(env, n) && Live(n) + Collected(env, n) == start + excess
  }

  lemma StepAccounted(env: Env, n: Node, s: Step, start: nat, excess: nat)
    requires Accounted(env, n, start, excess) && Careful(env, n, s) && Allowed(env, s)
    ensures Accounted(env, Next(env, n, s), start, excess + Unpaid(env, n, s))
  {
    StepBase(env, n, s);
    StepKnown(env, n, s);
    StepBalance(env, n, s);
  }

  /** In every careful run, whoever votes how, live value plus collected fees is the value at
      the start plus what votes spent without taking; each confirmed transaction has paid at
      least the minimum fee. */
  lemma {:induction false} RunBalance(env: Env, n: Node, steps: seq<Step>)
    requires CarefulRun(env, n, steps)
    ensures Accounted(env, After(env, n, steps), Live(n), Excess(env, n, steps))
    decreases |steps|
  {
    if steps != [] {
      var k := |steps| - 1;
      CarefulPrefix(env, n, steps);
      RunBalance(env, n, steps[..k]);
      StepAccounted(env, After(env, n, steps[..k]), steps[k], Live(n), Excess(env, n, steps[..k]));
    }
  }

  /** A vote-driven finalization takes all the value it spends. */
  ghost predicate WinsPaid(env: Env, n: Node, s: Step) {
    VoteWins(n, s) ==> Foreign(env, n, s.t) == 0
  }

  lemma {:induction false} NoExcessIff(env: Env, n: Node, steps: seq<Step>)
    ensures Excess(env, n, steps) == 0 <==> Always(env, n, steps, WinsPaid)
    decreases |steps|
  {
    if steps != [] {
      NoExcessIff(env, n, steps[..|steps| - 1]);
    }
  }

  /** A careful run creates value exactly when a vote-driven finalization spends an input of
      value that another transaction holds; it never destroys any but the fees. */
  lemma RunConservesIff(env: Env, n: Node, steps: seq<Step>)
    requires CarefulRun(env, n, steps)
    ensures var n' := After(env, n, steps);
      && Sound(env, n') && Live(n') + Collected(env, n') >= Live(n)
      && (Live(n') + Collected(env, n') == Live(n) <==> Always(env, n, steps, WinsPaid))
  {
    RunBalance(env, n, steps);
    NoExcessIff(env, n, steps);
  }
}
