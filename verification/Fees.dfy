/** Fee arithmetic: the checked i128 code and its unbounded-integer meaning. */
module Fees {
  import opened Types

  const DENOM: int := BPS_DENOMINATOR

  predicate InI128(x: int) { -I128_MAX - 1 <= x <= I128_MAX }

  function Checked(x: int): Option<i128> { if InI128(x) then Some(x) else None }

  /** Rust's integer division: truncation toward zero. */
  function TruncDiv(a: int, b: int): int
    requires b > 0
  {
    if a >= 0 then a / b else -((-a) / b)
  }

  function Clamp(x: int, lo: int, hi: int): int {
    if x < lo then lo else if x > hi then hi else x
  }

  function Max(a: int, b: int): int { if a >= b then a else b }
  function Min(a: int, b: int): int { if a <= b then a else b }

  /** Bps::calculate_fee_ceil. */
  function CalculateFeeCeil(bps: u32, amount: i128): Option<i128> {
    match Checked(amount * bps)
    case None => None
    case Some(product) =>
      match Checked(product + (DENOM - 1))
      case None => None
      case Some(numerator) => Checked(TruncDiv(numerator, DENOM))
  }

  datatype FeeSplit = FeeSplit(gross: i128, platform: i128, network: i128, merchant: i128)

  /** clamp_fee_legs; i128 saturation is unreachable because every difference lies in [0, gross]. */
  function ClampFeeLegs(gross: i128, platformFee: i128, networkFee: i128): (r: (i128, i128, i128))
    ensures r.0 >= 0 && r.1 >= 0 && r.2 >= 0
    ensures r.0 + r.1 + r.2 == Max(gross, 0)
    ensures 0 <= platformFee && 0 <= networkFee && platformFee + networkFee <= gross ==>
              r.0 == platformFee && r.1 == networkFee
  {
    var g := Max(gross, 0);
    var p := Clamp(platformFee, 0, g);
    var n := Clamp(networkFee, 0, g - p);
    (p, n, g - p - n)
  }

  /** calculate_split: both guards, both unwraps, then the clamp. */
  function CalculateSplit(amount: i128, platformBps: u32, networkBps: u32): Result<FeeSplit> {
    var maxBps := Max(platformBps, networkBps);
    if !InI128(amount * maxBps) || !InI128(amount * maxBps + (DENOM - 1)) then
      Err(AmountOverflow)
    else
      var sumBps := platformBps + networkBps;
      if !InI128(amount * sumBps) || !InI128(amount * sumBps + (DENOM - 1)) then
        Err(AmountOverflow)
      else
        match CalculateFeeCeil(platformBps, amount)
        case None => Err(AmountOverflow)
        case Some(platformFee) =>
          match CalculateFeeCeil(networkBps, amount)
          case None => Err(AmountOverflow)
          case Some(networkFee) =>
            var legs := ClampFeeLegs(amount, platformFee, networkFee);
            Ok(FeeSplit(amount, legs.0, legs.1, legs.2))
  }

  // ---- Unbounded-integer meaning -------------------------------------------------------

  /** The least whole fee that covers amount * bps / 10000. */
  function CeilFee(amount: nat, bps: nat): (fee: nat) {
    (amount * bps + (DENOM - 1)) / DENOM
  }

  function PlatformLeg(gross: nat, p: nat): nat { Min(CeilFee(gross, p), gross) }
  function NetworkLeg(gross: nat, p: nat, n: nat): nat {
    Min(CeilFee(gross, n), gross - PlatformLeg(gross, p))
  }
  function Payout(gross: nat, p: nat, n: nat): nat {
    gross - PlatformLeg(gross, p) - NetworkLeg(gross, p, n)
  }

  predicate SumFits(amount: i128, p: u32, n: u32) {
    InI128(amount * (p + n)) && InI128(amount * (p + n) + (DENOM - 1))
  }

  lemma MulMonotone(a: nat, x: nat, y: nat)
    requires x <= y
    ensures a * x <= a * y
  {
    assert a * y == a * x + a * (y - x);
  }

  lemma Distribute(a: int, b: int, k: int)
    ensures (a + b) * k == a * k + b * k
  {}

  /** CeilFee is the unique integer in [exact, exact + 1). */
  lemma CeilFeeMeaning(amount: nat, bps: nat, fee: int)
    ensures fee == CeilFee(amount, bps) <==> amount * bps <= fee * DENOM < amount * bps + DENOM
  {
    var x := amount * bps;
    assert x >= 0;
    assert CeilFee(amount, bps) == (x + 9999) / 10000;
  }

  /** A leg of an in-range product is in range, whatever the sign of the amount. */
  lemma LegFits(amount: i128, bps: nat, sum: nat)
    requires bps <= sum
    requires InI128(amount * sum) && InI128(amount * sum + (DENOM - 1))
    ensures InI128(amount * bps) && InI128(amount * bps + (DENOM - 1))
  {
    if amount >= 0 {
      MulMonotone(amount, bps, sum);
    } else {
      var magnitude: int := 0 - amount;
      MulMonotone(magnitude, bps, sum);
      assert amount * bps == -(magnitude * bps) && amount * sum == -(magnitude * sum);
      assert magnitude * bps >= 0;
    }
  }

  lemma CheckedFeeMeaning(amount: i128, bps: u32)
    requires InI128(amount * bps) && InI128(amount * bps + (DENOM - 1))
    ensures CalculateFeeCeil(bps, amount).Some?
    ensures amount >= 0 ==> CalculateFeeCeil(bps, amount) == Some(CeilFee(amount, bps))
  {
    var x := amount * bps;
    if amount >= 0 {
      MulMonotone(amount, 0, bps);
      assert x >= 0;
    }
  }

  /** The split overflows exactly when the combined-rate numerator leaves i128; otherwise the
      legs are the unbounded-integer legs (all zero below a zero gross). */
  lemma SplitRefinesInteger(amount: i128, p: u32, n: u32)
    ensures CalculateSplit(amount, p, n).Err? <==> !SumFits(amount, p, n)
    ensures CalculateSplit(amount, p, n).Err? ==> CalculateSplit(amount, p, n) == Err(AmountOverflow)
    ensures SumFits(amount, p, n) && amount >= 0 ==>
              CalculateSplit(amount, p, n).value ==
                FeeSplit(amount, PlatformLeg(amount, p), NetworkLeg(amount, p, n), Payout(amount, p, n))
    ensures SumFits(amount, p, n) && amount < 0 ==>
              CalculateSplit(amount, p, n).value == FeeSplit(amount, 0, 0, 0)
  {
    if SumFits(amount, p, n) {
      LegFits(amount, Max(p, n), p + n);
      LegFits(amount, p, p + n);
      LegFits(amount, n, p + n);
      CheckedFeeMeaning(amount, p);
      CheckedFeeMeaning(amount, n);
    }
  }

  /** For a nonnegative gross the three legs are nonnegative and add up to it. */
  lemma SplitConserves(amount: i128, p: u32, n: u32)
    requires CalculateSplit(amount, p, n).Ok?
    ensures var s := CalculateSplit(amount, p, n).value;
            s.gross == amount && s.platform >= 0 && s.network >= 0 && s.merchant >= 0
            && s.platform + s.network + s.merchant == Max(amount, 0)
  {
    SplitRefinesInteger(amount, p, n);
  }

  // ---- Rounding bounds ------------------------------------------------------------------

  /** Rounding up is subadditive and loses at most one unit per extra part. */
  lemma CeilFeeAdd(a: nat, b: nat, bps: nat)
    ensures CeilFee(a + b, bps) <= CeilFee(a, bps) + CeilFee(b, bps) <= CeilFee(a + b, bps) + 1
  {
    Distribute(a, b, bps);
    var x, y := a * bps, b * bps;
    assert (a + b) * bps == x + y;
    CeilFeeMeaning(a, bps, CeilFee(a, bps));
    CeilFeeMeaning(b, bps, CeilFee(b, bps));
    CeilFeeMeaning(a + b, bps, CeilFee(a + b, bps));
  }

  lemma CeilFeeAtMostGross(a: nat, bps: nat)
    requires bps <= DENOM
    ensures CeilFee(a, bps) <= a
  {
    MulMonotone(a, bps, DENOM);
    CeilFeeMeaning(a, bps, CeilFee(a, bps));
  }

  /** Two legs whose rates sum to at most 100% exceed the gross by at most one unit. */
  lemma TwoLegsOvershootByAtMostOne(a: nat, p: nat, n: nat)
    requires p + n <= DENOM
    ensures CeilFee(a, p) + CeilFee(a, n) <= a + 1
  {
    MulMonotone(a, p + n, DENOM);
    Distribute(p, n, a);
    assert a * p + a * n == a * (p + n) <= a * DENOM;
    CeilFeeMeaning(a, p, CeilFee(a, p));
    CeilFeeMeaning(a, n, CeilFee(a, n));
  }

  /** For every accepted rule the clamp leaves the platform leg alone and takes at most one unit,
      from the network leg only; the legs over-collect by less than a unit each, and by less than
      100 bps of the gross once the gross reaches 100. */
  lemma ClampTakesAtMostOneUnit(gross: nat, r: Rule)
    requires RuleInBounds(r)
    ensures PlatformLeg(gross, r.platformBps) == CeilFee(gross, r.platformBps)
    ensures CeilFee(gross, r.networkBps) - 1
            <= NetworkLeg(gross, r.platformBps, r.networkBps) <= CeilFee(gross, r.networkBps)
    ensures forall bps {:trigger CeilFee(gross, bps)} | bps == r.platformBps || bps == r.networkBps ::
              && gross * bps <= CeilFee(gross, bps) * DENOM < gross * bps + DENOM
              && (gross >= 100 ==> CeilFee(gross, bps) * DENOM < gross * (bps + 100))
  {
    CeilFeeAtMostGross(gross, r.platformBps);
    TwoLegsOvershootByAtMostOne(gross, r.platformBps, r.networkBps);
    forall bps {:trigger CeilFee(gross, bps)} | bps == r.platformBps || bps == r.networkBps
      ensures gross * bps <= CeilFee(gross, bps) * DENOM < gross * bps + DENOM
      ensures gross >= 100 ==> CeilFee(gross, bps) * DENOM < gross * (bps + 100)
    {
      CeilFeeMeaning(gross, bps, CeilFee(gross, bps));
      assert gross * (bps + 100) == gross * bps + gross * 100;
    }
  }

  // ---- Monotonicity ---------------------------------------------------------------------

  lemma LegsMonotone(a: nat, b: nat, p: nat, n: nat)
    requires a <= b && p <= DENOM && n <= DENOM
    ensures PlatformLeg(a, p) <= PlatformLeg(b, p)
    ensures NetworkLeg(a, p, n) <= NetworkLeg(b, p, n)
  {
    var d := b - a;
    CeilFeeAdd(a, d, p);
    CeilFeeAdd(a, d, n);
    CeilFeeAtMostGross(a, p);
    CeilFeeAtMostGross(b, p);
    CeilFeeAtMostGross(d, p);
    CeilFeeAtMostGross(d, n);
    CeilFeeMonotone(a, b, p);
    CeilFeeMonotone(a, b, n);
  }

  lemma CeilFeeMonotone(a: nat, b: nat, bps: nat)
    requires a <= b
    ensures CeilFee(a, bps) <= CeilFee(b, bps)
  {
    MulMonotone(bps, a, b);
    assert a * bps <= b * bps;
  }

  /** A larger gross never costs the merchant more than one unit of payout. */
  lemma PayoutNearlyMonotone(a: nat, b: nat, p: nat, n: nat)
    requires a <= b && p + n <= DENOM
    ensures Payout(b, p, n) >= Payout(a, p, n) - 1
  {
    var d := b - a;
    CeilFeeAdd(a, d, p);
    CeilFeeAdd(a, d, n);
    TwoLegsOvershootByAtMostOne(d, p, n);
    CeilFeeAtMostGross(a, p);
    CeilFeeAtMostGross(b, p);
  }

  /** The one-unit drop really happens, at amounts the contract takes by default: at 25% + 25%, 101
      units pay the merchant less than 100. */
  lemma PayoutCanDrop()
    ensures CalculateSplit(MIN_PAYMENT_AMOUNT, 2500, 2500) == Ok(FeeSplit(100, 25, 25, 50))
    ensures CalculateSplit(MIN_PAYMENT_AMOUNT + 1, 2500, 2500) == Ok(FeeSplit(101, 26, 26, 49))
  {}

  /** Monotonicity of the code itself, over every pair of amounts it accepts. */
  lemma SplitMonotone(a: i128, b: i128, p: u32, n: u32)
    requires a <= b && p <= DENOM && n <= DENOM
    requires CalculateSplit(a, p, n).Ok? && CalculateSplit(b, p, n).Ok?
    ensures var (x, y) := (CalculateSplit(a, p, n).value, CalculateSplit(b, p, n).value);
            && x.platform <= y.platform
            && x.network <= y.network
            && (p + n <= DENOM ==> y.merchant >= x.merchant - 1)
  {
    SplitRefinesInteger(a, p, n);
    SplitRefinesInteger(b, p, n);
    if a >= 0 {
      LegsMonotone(a, b, p, n);
      if p + n <= DENOM {
        PayoutNearlyMonotone(a, b, p, n);
      }
    }
  }

  function Total(parts: seq<nat>): (total: nat)
    ensures forall i | 0 <= i < |parts| :: parts[i] <= total
  {
    if parts == [] then 0 else parts[0] + Total(parts[1..])
  }

  function TotalPlatform(parts: seq<nat>, p: nat): nat {
    if parts == [] then 0 else PlatformLeg(parts[0], p) + TotalPlatform(parts[1..], p)
  }

  /** An amount the split takes. */
  predicate Accepts(amount: nat, p: u32, n: u32) { InI128(amount) && CalculateSplit(amount, p, n).Ok? }

  function Charge(amount: nat, p: u32, n: u32): int
    requires Accepts(amount, p, n)
  {
    CalculateSplit(amount, p, n).value.platform
  }

  predicate Fits(amount: nat, bps: nat) { InI128(amount) && InI128(amount * bps + (DENOM - 1)) }

  lemma AcceptsMeaning(amount: nat, p: u32, n: u32)
    ensures Accepts(amount, p, n) <==> Fits(amount, p + n)
    ensures Accepts(amount, p, n) ==> Charge(amount, p, n) == PlatformLeg(amount, p)
  {
    if InI128(amount) {
      SplitRefinesInteger(amount, p, n);
      MulMonotone(amount, 0, p + n);
    }
  }

  /** A part of an accepted amount is accepted. */
  lemma PartFits(part: nat, total: nat, bps: nat)
    requires part <= total && Fits(total, bps)
    ensures Fits(part, bps)
  {
    MulMonotone(bps, part, total);
    assert bps * part == part * bps && bps * total == total * bps;
    MulMonotone(bps, 0, part);
  }

  /** The platform fee the contract takes of each part, added up. */
  function TotalCharged(parts: seq<nat>, p: u32, n: u32): int
    requires forall i | 0 <= i < |parts| :: Accepts(parts[i], p, n)
  {
    if parts == [] then 0 else Charge(parts[0], p, n) + TotalCharged(parts[1..], p, n)
  }

  lemma {:induction false} ChargedIsTotalPlatform(parts: seq<nat>, p: u32, n: u32)
    requires forall i | 0 <= i < |parts| :: Accepts(parts[i], p, n)
    ensures TotalCharged(parts, p, n) == TotalPlatform(parts, p)
  {
    if parts == [] {
    } else {
      AcceptsMeaning(parts[0], p, n);
      ChargedIsTotalPlatform(parts[1..], p, n);
    }
  }

  /** Paying in k parts: if the whole amount is accepted so is every part, and the parts together
      never pay a lower platform fee than the whole and at most k - 1 units more. */
  lemma SplittingPayments(parts: seq<nat>, p: u32, n: u32)
    requires |parts| >= 1 && p <= DENOM && Accepts(Total(parts), p, n)
    ensures forall i | 0 <= i < |parts| :: Accepts(parts[i], p, n)
    ensures Charge(Total(parts), p, n) <= TotalCharged(parts, p, n) <= Charge(Total(parts), p, n) + |parts| - 1
  {
    AcceptsMeaning(Total(parts), p, n);
    forall i | 0 <= i < |parts| ensures Accepts(parts[i], p, n) {
      PartFits(parts[i], Total(parts), p + n);
      AcceptsMeaning(parts[i], p, n);
    }
    ChargedIsTotalPlatform(parts, p, n);
    SplittingLegs(parts, p);
  }

  lemma {:induction false} SplittingLegs(parts: seq<nat>, p: nat)
    requires |parts| >= 1 && p <= DENOM
    ensures PlatformLeg(Total(parts), p) <= TotalPlatform(parts, p)
            <= PlatformLeg(Total(parts), p) + |parts| - 1
  {
    if |parts| == 1 {
      assert Total(parts[1..]) == 0 && TotalPlatform(parts[1..], p) == 0;
    } else {
      SplittingLegs(parts[1..], p);
      CeilFeeAdd(parts[0], Total(parts[1..]), p);
      CeilFeeAtMostGross(parts[0], p);
      CeilFeeAtMostGross(Total(parts[1..]), p);
      CeilFeeAtMostGross(Total(parts), p);
    }
  }
}
