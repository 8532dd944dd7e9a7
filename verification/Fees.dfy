/** The tiered fee schedule and its closed-form inverse. Amounts are u64 satoshis; the
    multiplication of `RequiredFee` wraps and the one of the inverse saturates. */
module Fees {

  import opened Basics
  import opened Quorum

  const SATOSHIS_PER_TIME: nat := 100_000_000
  const MIN_TX_FEE: nat := 1_000_000
  const BASIS: nat := 10_000
  const FALLBACK_RATE: nat := 10

  /** `tiers` holds (exclusive upper bound, rate in basis points), tried in order. */
  datatype FeeSchedule = FeeSchedule(tiers: seq<(nat, nat)>, minFee: nat)

  const DEFAULT_SCHEDULE: FeeSchedule := FeeSchedule(
    [(100 * SATOSHIS_PER_TIME, 100), (1_000 * SATOSHIS_PER_TIME, 50), (10_000 * SATOSHIS_PER_TIME, 25), (U64_MAX, 10)],
    MIN_TX_FEE)

  function Max(a: nat, b: nat): nat {
    if a < b then b else a
  }

  /** Rate of the first tier whose bound lies above the amount. */
  function RateFor(tiers: seq<(nat, nat)>, amount: nat): nat {
    if tiers == [] then FALLBACK_RATE
    else if amount < tiers[0].0 then tiers[0].1
    else RateFor(tiers[1..], amount)
  }

  function RequiredFee(s: FeeSchedule, sendAmount: nat): nat {
    Max(Wrap64(sendAmount * RateFor(s.tiers, sendAmount)) / BASIS, s.minFee)
  }

  /** 64-bit wrap-around. */
  function Wrap64(x: nat): (r: nat)
    ensures r <= U64_MAX && (x <= U64_MAX ==> r == x)
  {
    x % (U64_MAX + 1)
  }

  function SaturatingMul(a: nat, b: nat): nat {
    if a * b > U64_MAX then U64_MAX else a * b
  }

  /** What is left of a gross amount, never below zero. */
  function Net(amount: nat, fee: nat): nat {
    if fee <= amount then amount - fee else 0
  }

  /** The fee a tier would deduct from the gross amount. */
  function TierFee(rate: nat, minFee: nat, amount: nat): nat {
    Max(CeilDiv(SaturatingMul(amount, rate), BASIS + rate), minFee)
  }

  function TierNet(s: FeeSchedule, i: nat, amount: nat): nat
    requires i < |s.tiers|
  {
    Net(amount, TierFee(s.tiers[i].1, s.minFee, amount))
  }

  /** First tier, from `k` on, whose net amount stays below its own bound. */
  function FitFrom(s: FeeSchedule, amount: nat, k: nat): (i: nat)
    requires k <= |s.tiers|
    ensures k <= i <= |s.tiers|
    ensures i < |s.tiers| ==> TierNet(s, i, amount) < s.tiers[i].0
    ensures forall j :: k <= j < i ==> TierNet(s, j, amount) >= s.tiers[j].0
    decreases |s.tiers| - k
  {
    if k == |s.tiers| || TierNet(s, k, amount) < s.tiers[k].0 then k else FitFrom(s, amount, k + 1)
  }

  /** Fee deducted from the gross amount: that of the first fitting tier. */
  function FeeWithin(s: FeeSchedule, amount: nat): nat {
    var i := FitFrom(s, amount, 0);
    if i < |s.tiers| then TierFee(s.tiers[i].1, s.minFee, amount) else s.minFee
  }

  method RequiredFeeSubtract(s: FeeSchedule, amount: nat) returns (fee: nat)
    ensures fee == FeeWithin(s, amount)
  {
    for k := 0 to |s.tiers|
      invariant FitFrom(s, amount, 0) == FitFrom(s, amount, k)
    {
      var (limit, rate) := s.tiers[k];
      var f := Max(CeilDiv(SaturatingMul(amount, rate), BASIS + rate), s.minFee);
      if Net(amount, f) < limit {
        return f;
      }
    }
    return s.minFee;
  }

  // ----- Shape of a schedule

  ghost predicate NonIncreasing(s: FeeSchedule) {
    forall i, j :: 0 <= i < j < |s.tiers| ==> s.tiers[i].1 >= s.tiers[j].1
  }

  ghost predicate Capped(s: FeeSchedule) {
    forall i :: 0 <= i < |s.tiers| ==> s.tiers[i].1 <= BASIS
  }

  /** Every 64-bit amount falls under some tier. */
  ghost predicate Covers(s: FeeSchedule) {
    s.tiers != [] && s.tiers[|s.tiers| - 1].0 == U64_MAX && s.minFee > 0
  }

  ghost predicate NoOverflow(s: FeeSchedule, amount: nat) {
    && amount <= U64_MAX
    && amount * FALLBACK_RATE <= U64_MAX
    && forall i :: 0 <= i < |s.tiers| ==> amount * s.tiers[i].1 <= U64_MAX
  }

  lemma DefaultScheduleShape()
    ensures NonIncreasing(DEFAULT_SCHEDULE) && Capped(DEFAULT_SCHEDULE) && Covers(DEFAULT_SCHEDULE)
    ensures forall i, j :: 0 <= i < j < |DEFAULT_SCHEDULE.tiers| ==>
        DEFAULT_SCHEDULE.tiers[i].0 < DEFAULT_SCHEDULE.tiers[j].0
    ensures forall i :: 0 <= i < |DEFAULT_SCHEDULE.tiers| ==>
        DEFAULT_SCHEDULE.tiers[i].1 > 0 && BASIS % DEFAULT_SCHEDULE.tiers[i].1 == 0
  {
    assert |DEFAULT_SCHEDULE.tiers| == 4;
  }

  // ----- Arithmetic of one tier

  lemma MulLe(k: nat, x: int, y: int)
    requires x <= y
    ensures k * x <= k * y
  {
  }

  lemma MulSplit(k: int, x: int, y: int)
    ensures k * (x + y) == k * x + k * y
  {
  }

  lemma CeilDivLeast(a: nat, b: nat, k: nat)
    requires b > 0 && k * b >= a
    ensures CeilDiv(a, b) <= k
  {
    var q := CeilDiv(a, b);
    if q >= 1 {
      MulSplit(b, q, -1);
      MulLe(b, if q > k then k else 0, q - 1);
    }
  }

  lemma FloorDiv(x: nat, b: nat, k: nat)
    requires b > 0
    ensures x <= k * b ==> x / b <= k
    ensures x >= k * b ==> x / b >= k
  {
    var q := x / b;
    assert x == b * q + x % b;
    if q >= k + 1 { MulLe(b, k + 1, q); MulSplit(b, k, 1); }
    if q + 1 <= k { MulLe(b, q + 1, k); MulSplit(b, q, 1); }
  }

  /** `fee` covers `net * rate / basis`, and exceeds it by less than `1 + rate / basis`. */
  lemma TierExact(amount: nat, rate: nat, basis: nat, fee: nat)
    requires basis > 0 && fee == CeilDiv(amount * rate, basis + rate)
    ensures fee <= amount
    ensures (amount - fee) * rate <= fee * basis
    ensures fee * basis < (amount - fee) * rate + basis + rate
  {
    MulLe(amount, rate, basis + rate);
    CeilDivLeast(amount * rate, basis + rate, amount);
    MulSplit(fee, basis, rate);
    assert rate * (amount - fee) == rate * amount - rate * fee;
  }

  /** When the rate divides the basis, rounding costs less than one satoshi. */
  lemma WholeRate(net: nat, rate: nat, m: nat, fee: nat)
    requires rate > 0 && fee >= 1
    requires fee * (m * rate) < net * rate + m * rate + rate
    ensures net * rate >= (fee - 1) * (m * rate)
  {
    var k := (fee - 1) * m;
    assert (fee - 1) * (m * rate) == rate * k;
    MulSplit(m * rate, fee, -1);
    assert rate * k < rate * (net + 1) by { MulSplit(rate, net, 1); }
    if k > net { MulLe(rate, net + 1, k); }
    MulLe(rate, k, net);
  }

  lemma TierFeeBounds(minFee: nat, amount: nat, rate: nat)
    requires amount * rate <= U64_MAX && minFee <= amount
    ensures var fee := TierFee(rate, minFee, amount);
      && fee <= amount
      && (amount - fee) * rate <= fee * BASIS
      && (rate <= BASIS && fee > minFee && fee >= 2 ==> (amount - fee) * rate >= (fee - 2) * BASIS)
      && (rate > 0 && BASIS % rate == 0 && fee > minFee ==> (amount - fee) * rate >= (fee - 1) * BASIS)
  {
    var f := CeilDiv(amount * rate, BASIS + rate);
    TierExact(amount, rate, BASIS, f);
    var fee := Max(f, minFee);
    assert TierFee(rate, minFee, amount) == fee;
    MaxFeeCovers(rate, amount, f, fee);
    if rate > 0 && BASIS % rate == 0 && fee > minFee {
      TierFeeWhole(amount, rate, f);
    }
  }

  lemma MaxFeeCovers(rate: nat, amount: nat, f: nat, fee: nat)
    requires f <= fee <= amount && (amount - f) * rate <= f * BASIS
    ensures (amount - fee) * rate <= fee * BASIS
  {
    MulLe(rate, amount - fee, amount - f);
    MulLe(BASIS, f, fee);
  }

  lemma TierFeeWhole(amount: nat, rate: nat, f: nat)
    requires rate > 0 && BASIS % rate == 0 && 1 <= f <= amount
    requires f * BASIS < (amount - f) * rate + BASIS + rate
    ensures (amount - f) * rate >= (f - 1) * BASIS
  {
    assert BASIS == (BASIS / rate) * rate;
    WholeRate(amount - f, rate, BASIS / rate, f);
  }

  // ----- The inverse against the schedule it inverts

  /** The rate used by the validator is that of the first tier above the amount. */
  lemma {:induction false} RateIs(tiers: seq<(nat, nat)>, x: nat, k: nat)
    requires k <= |tiers|
    requires forall j :: 0 <= j < k ==> x >= tiers[j].0
    requires k < |tiers| ==> x < tiers[k].0
    ensures RateFor(tiers, x) == if k < |tiers| then tiers[k].1 else FALLBACK_RATE
    decreases |tiers|
  {
    if k > 0 {
      assert forall j :: 0 <= j < |tiers[1..]| ==> tiers[1..][j] == tiers[j + 1];
      RateIs(tiers[1..], x, k - 1);
    }
  }

  /** First tier whose bound lies above x. */
  function TierOf(tiers: seq<(nat, nat)>, x: nat, k: nat): (i: nat)
    requires k <= |tiers|
    ensures k <= i <= |tiers|
    ensures i < |tiers| ==> x < tiers[i].0
    ensures forall j :: k <= j < i ==> x >= tiers[j].0
    decreases |tiers| - k
  {
    if k == |tiers| || x < tiers[k].0 then k else TierOf(tiers, x, k + 1)
  }

  lemma LowerRateKeepsMore(minFee: nat, amount: nat, low: nat, high: nat)
    requires low <= high && amount * low <= U64_MAX && amount * high <= U64_MAX
    ensures TierFee(low, minFee, amount) <= TierFee(high, minFee, amount)
  {
    var c := CeilDiv(amount * high, BASIS + high);
    TierExact(amount, high, BASIS, c);
    CheaperRate(amount, c, BASIS, low, high);
    CeilDivLeast(amount * low, BASIS + low, c);
  }

  lemma CheaperRate(amount: nat, fee: nat, basis: nat, low: nat, high: nat)
    requires fee <= amount && low <= high && (amount - fee) * high <= fee * basis
    ensures amount * low <= fee * (basis + low)
  {
    MulLe(amount - fee, low, high);
    MulSplit(low, amount - fee, fee);
    MulSplit(fee, basis, low);
  }

  /** What the validator requires, read off the tier of the send amount. */
  lemma RequiredIs(s: FeeSchedule, x: nat, amount: nat, k: nat)
    requires NoOverflow(s, amount) && x <= amount && k <= |s.tiers|
    requires forall j :: 0 <= j < k ==> x >= s.tiers[j].0
    requires k < |s.tiers| ==> x < s.tiers[k].0
    ensures RequiredFee(s, x) == Max(x * (if k < |s.tiers| then s.tiers[k].1 else FALLBACK_RATE) / BASIS, s.minFee)
  {
    RateIs(s.tiers, x, k);
    var rate := RateFor(s.tiers, x);
    MulLe(rate, x, amount);
    assert x * rate <= U64_MAX;
  }

  /** The default schedule asks for 1% below 100 TIME, 0.5% below 1,000, 0.25% below 10,000 and
      0.1% from there on, and for 0.01 TIME at least. */
  lemma DefaultFees(x: nat)
    requires x * 100 <= U64_MAX
    ensures var time := x / 100_000_000;
      var share := x / (if time < 100 then 100 else if time < 1_000 then 200 else if time < 10_000 then 400 else 1_000);
      RequiredFee(DEFAULT_SCHEDULE, x) == if share < 1_000_000 then 1_000_000 else share
  {
    var tiers, time := DEFAULT_SCHEDULE.tiers, x / 100_000_000;
    var k := if time < 100 then 0 else if time < 1_000 then 1 else if time < 10_000 then 2 else 3;
    RateIs(tiers, x, k);
  }

  /** An amount above every tier owes 0.1%. */
  lemma UncoveredFee(s: FeeSchedule, x: nat)
    requires x * 10 <= U64_MAX && forall j :: 0 <= j < |s.tiers| ==> x >= s.tiers[j].0
    ensures RequiredFee(s, x) == Max(x / 1_000, s.minFee)
  {
    RateIs(s.tiers, x, |s.tiers|);
  }

  lemma RequiredBetween(s: FeeSchedule, x: nat, amount: nat, k: nat, rate: nat, low: nat, high: nat)
    requires NoOverflow(s, amount) && x <= amount && k < |s.tiers| && rate == s.tiers[k].1
    requires forall j :: 0 <= j < k ==> x >= s.tiers[j].0
    requires x < s.tiers[k].0
    ensures x * rate <= high * BASIS && s.minFee <= high ==> RequiredFee(s, x) <= high
    ensures x * rate >= low * BASIS || low <= s.minFee ==> low <= RequiredFee(s, x)
  {
    RequiredIs(s, x, amount, k);
    FloorDiv(x * rate, BASIS, high);
    FloorDiv(x * rate, BASIS, low);
  }

  /** For any tiers at all, the deducted fee is accepted for the amount that is left,
      exactly unless no tier fits and the flat fallback fee is short. */
  lemma SubtractAcceptedIff(s: FeeSchedule, amount: nat)
    requires NoOverflow(s, amount) && s.minFee <= amount
    ensures var fee := FeeWithin(s, amount);
      && fee <= amount
      && (RequiredFee(s, amount - fee) <= fee <==>
          FitFrom(s, amount, 0) < |s.tiers| || (amount - fee) * FALLBACK_RATE / BASIS <= s.minFee)
  {
    if FitFrom(s, amount, 0) < |s.tiers| {
      FittingTierAccepted(s, amount);
    } else {
      assert FeeWithin(s, amount) == s.minFee;
      assert TierOf(s.tiers, amount - s.minFee, 0) == |s.tiers|;
      RequiredIs(s, amount - s.minFee, amount, |s.tiers|);
    }
  }

  lemma FittingTierAccepted(s: FeeSchedule, amount: nat)
    requires NoOverflow(s, amount) && s.minFee <= amount
    requires FitFrom(s, amount, 0) < |s.tiers|
    ensures FeeWithin(s, amount) <= amount && RequiredFee(s, amount - FeeWithin(s, amount)) <= FeeWithin(s, amount)
  {
    var i, fee := FitFrom(s, amount, 0), FeeWithin(s, amount);
    TierFeeBounds(s.minFee, amount, s.tiers[i].1);
    var k := TierOf(s.tiers, amount - fee, 0);
    UsedRateCovers(s, amount, i, k);
    RequiredBetween(s, amount - fee, amount, k, s.tiers[k].1, 0, fee);
  }

  /** The tier the net amount lands in is never dearer than the tier that was used. */
  lemma UsedRateCovers(s: FeeSchedule, amount: nat, i: nat, k: nat)
    requires NoOverflow(s, amount) && s.minFee <= amount
    requires i == FitFrom(s, amount, 0) < |s.tiers|
    requires k == TierOf(s.tiers, TierNet(s, i, amount), 0)
    ensures k <= i && TierNet(s, i, amount) * s.tiers[k].1 <= FeeWithin(s, amount) * BASIS
  {
    var low, high := s.tiers[i].1, s.tiers[k].1;
    assert k <= i;
    TierFeeBounds(s.minFee, amount, low);
    if low < high {
      LowerRateKeepsMore(s.minFee, amount, low, high);
      assert false;
    }
    MulLe(TierNet(s, i, amount), high, low);
  }

  /** With rates that never rise, the net amount lands in the very tier that was used, so
      the sender overpays by at most two satoshis; by at most one when rates divide 10,000. */
  lemma SubtractTight(s: FeeSchedule, amount: nat)
    requires NoOverflow(s, amount) && s.minFee <= amount
    requires NonIncreasing(s) && Capped(s) && Covers(s)
    ensures var fee := FeeWithin(s, amount);
      && fee <= amount
      && RequiredFee(s, amount - fee) <= fee <= RequiredFee(s, amount - fee) + 2
      && ((forall i :: 0 <= i < |s.tiers| ==> s.tiers[i].1 > 0 && BASIS % s.tiers[i].1 == 0) ==>
           fee <= RequiredFee(s, amount - fee) + 1)
  {
    CoveredFits(s, amount);
    SubtractAcceptedIff(s, amount);
    var i, fee := FitFrom(s, amount, 0), FeeWithin(s, amount);
    var net, rate := amount - fee, s.tiers[i].1;
    TierFeeBounds(s.minFee, amount, rate);
    forall j | 0 <= j < i
      ensures net >= s.tiers[j].0
    {
      LowerRateKeepsMore(s.minFee, amount, rate, s.tiers[j].1);
      assert TierNet(s, j, amount) >= s.tiers[j].0;
    }
    RequiredBetween(s, net, amount, i, rate, Max(fee, 2) - 2, fee);
    RequiredBetween(s, net, amount, i, rate, Max(fee, 1) - 1, fee);
  }

  lemma CoveredFits(s: FeeSchedule, amount: nat)
    requires Covers(s) && amount <= U64_MAX
    ensures FitFrom(s, amount, 0) < |s.tiers|
  {
    var last := |s.tiers| - 1;
    assert TierNet(s, last, amount) < s.tiers[last].0;
  }

  /** Within one tier a larger gross amount never leaves less. */
  lemma TierNetMonotone(s: FeeSchedule, i: nat, amount: nat, more: nat)
    requires i < |s.tiers| && amount <= more && more * s.tiers[i].1 <= U64_MAX
    ensures TierNet(s, i, amount) <= TierNet(s, i, more)
  {
    NetGrows(s.minFee, s.tiers[i].1, amount, more);
  }

  lemma NetGrows(minFee: nat, rate: nat, amount: nat, more: nat)
    requires amount <= more && more * rate <= U64_MAX
    ensures amount * rate <= U64_MAX
    ensures Net(amount, TierFee(rate, minFee, amount)) <= Net(more, TierFee(rate, minFee, more))
  {
    var d, c := more - amount, CeilDiv(amount * rate, BASIS + rate);
    MulLe(rate, amount, more);
    MulSplit(rate, amount, d);
    MulSplit(BASIS + rate, c, d);
    MulLe(d, rate, BASIS + rate);
    CeilDivLeast(more * rate, BASIS + rate, c + d);
  }

  /** The amount delivered never shrinks as the gross amount grows, across tier bounds too. */
  lemma NetNeverShrinks(s: FeeSchedule, amount: nat, more: nat)
    requires amount <= more && NoOverflow(s, more)
    requires NonIncreasing(s) && Covers(s)
    ensures Net(amount, FeeWithin(s, amount)) <= Net(more, FeeWithin(s, more))
  {
    CoveredFits(s, amount);
    CoveredFits(s, more);
    var i, j := FitFrom(s, amount, 0), FitFrom(s, more, 0);
    if j < i {
      TierNetMonotone(s, j, amount, more);
      assert false;
    }
    TierNetMonotone(s, i, amount, more);
    if i < j {
      LowerRateKeepsMore(s.minFee, more, s.tiers[j].1, s.tiers[i].1);
    }
  }

  /** Governance only orders the bounds. With rates that rise, a larger gross amount can
      deliver less, and the deducted fee can far exceed the required one. */
  lemma RisingRatesOvercharge()
    ensures var s := FeeSchedule([(100, 0), (U64_MAX, 5_000)], 1);
      && NoOverflow(s, 120) && Capped(s) && Covers(s) && !NonIncreasing(s)
      && FeeWithin(s, 120) > RequiredFee(s, 120 - FeeWithin(s, 120)) + 2
      && Net(120, FeeWithin(s, 120)) < Net(100, FeeWithin(s, 100))
  {
    var s := FeeSchedule([(100, 0), (U64_MAX, 5_000)], 1);
    assert s.tiers[0].1 < s.tiers[1].1;
    assert TierNet(s, 0, 120) == 119 && TierNet(s, 1, 120) == 80;
    assert FitFrom(s, 120, 0) == 1;
    assert TierNet(s, 0, 100) == 99;
  }

  /** Without a tier that covers every amount, the fallback fee can be refused. */
  lemma UncoveredAmountRefused()
    ensures var s := FeeSchedule([(100, 0)], 1);
      NoOverflow(s, 10_000) && RequiredFee(s, 10_000 - FeeWithin(s, 10_000)) > FeeWithin(s, 10_000)
  {
    var s := FeeSchedule([(100, 0)], 1);
    assert TierNet(s, 0, 10_000) == 9_999;
    RateIs(s.tiers, 9_999, 1);
  }
}
