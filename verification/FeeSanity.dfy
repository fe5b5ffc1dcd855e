/**
 The fee-sanity gate: nothing the wallet builds pays more than five times the current three-block rate.
 */
module FeeSanity {
  import opened Prelude
  import opened Fees

  const FEE_SANITY_MULTIPLIER: nat := 5

  datatype FeeSanity = Sane | Overpay(effective: U64, max: U64)

  /** Whatever the endpoint reported, the ceiling stays in a fixed range and above the urgent rate itself. */
  method FeeSanityMax(estimator: CachedFeeEstimator) returns (max: U64)
    requires estimator.Valid()
    ensures 12_500 <= max <= 2_500_000
    ensures max == FEE_SANITY_MULTIPLIER * estimator.Answer(UrgentOnChainSweep)
  {
    max := estimator.Answer(UrgentOnChainSweep) * FEE_SANITY_MULTIPLIER;
  }

  function SaturatingMul(a: U64, b: U64): U64 {
    Min(a * b, U64_MAX)
  }

  function CheckFeeSanity(fee: U64, weight: U64, max: U64): (r: FeeSanity)
    ensures r.Overpay? ==> r.max == max < r.effective
  {
    if weight == 0 then Sane
    else
      var effective := SaturatingMul(fee, 1000) / weight;
      if effective > max then Overpay(effective, max) else Sane
  }

  /** The rate is at most `max` sat per 1000 weight units once rounded down, in unbounded arithmetic. */
  predicate PaysAtMost(fee: U64, weight: U64, max: U64) {
    weight == 0 || fee * 1000 < (max + 1) * weight
  }

  lemma QuotientAtMost(n: nat, d: nat, q: nat)
    requires d > 0
    ensures n / d <= q <==> n < (q + 1) * d
  {
    var k, r := n / d, n % d;
    assert n == k * d + r;
    if k <= q {
      assert (q + 1 - (k + 1)) * d >= 0;
      assert (q + 1) * d == (k + 1) * d + (q + 1 - (k + 1)) * d;
    } else {
      assert (k - (q + 1)) * d >= 0;
      assert k * d == (q + 1) * d + (k - (q + 1)) * d;
    }
  }

  lemma SaneIffSaturatedFits(fee: U64, weight: U64, max: U64)
    requires weight > 0
    ensures CheckFeeSanity(fee, weight, max).Sane? <==> Min(fee * 1000, U64_MAX) < (max + 1) * weight
  {
    QuotientAtMost(SaturatingMul(fee, 1000), weight, max);
  }

  /**
   For every fee, weight and ceiling the saturating check is wrong exactly when the bound itself exceeds 64 bits
   and the fee reaches it.
   */
  lemma SaneIffPaysAtMost(fee: U64, weight: U64, max: U64)
    ensures (CheckFeeSanity(fee, weight, max).Sane? <==> PaysAtMost(fee, weight, max))
            <==> !(weight > 0 && U64_MAX < (max + 1) * weight <= fee * 1000)
  {
    if weight > 0 {
      SaneIffSaturatedFits(fee, weight, max);
    }
  }

  /** A consensus-sized transaction against a reachable ceiling is always judged right. */
  lemma CheckIsExactInPractice(fee: U64, weight: U64, max: U64)
    requires weight <= 4_000_000 && max <= 2_500_000
    ensures CheckFeeSanity(fee, weight, max).Sane? <==> PaysAtMost(fee, weight, max)
  {
    assert (max + 1) * weight <= 2_500_001 * 4_000_000 by {
      assert (max + 1) * weight <= 2_500_001 * weight;
    }
    SaneIffPaysAtMost(fee, weight, max);
  }

  /** Saturation lets an overpaying transaction of impossible weight through. */
  lemma SaturationHidesOverpayment()
    ensures CheckFeeSanity(U64_MAX, U64_MAX, 1).Sane? && !PaysAtMost(U64_MAX, U64_MAX, 1)
  {
    assert CheckFeeSanity(U64_MAX, U64_MAX, 1).Sane? by {
      SaneIffSaturatedFits(U64_MAX, U64_MAX, 1);
    }
  }

  /** The bump gate asks what a 1000-unit transaction at the target rate would pay. */
  method CheckBumpTargetSanity(target: U32, estimator: CachedFeeEstimator) returns (r: FeeSanity)
    requires estimator.Valid()
    ensures r.Sane? <==> target <= FEE_SANITY_MULTIPLIER * estimator.Answer(UrgentOnChainSweep)
    ensures target <= estimator.Answer(UrgentOnChainSweep) ==> r.Sane?
    ensures r.Overpay? ==> r.effective == target
  {
    var max := FeeSanityMax(estimator);
    r := CheckFeeSanity(target, 1000, max);
  }

  /** A transaction the wallet built itself, judged against the estimator's current ceiling. */
  method GateBuiltTransaction(fee: U64, weight: U64, estimator: CachedFeeEstimator) returns (r: FeeSanity)
    requires estimator.Valid()
    ensures weight <= 4_000_000 ==>
              (r.Sane? <==> PaysAtMost(fee, weight, FEE_SANITY_MULTIPLIER * estimator.Answer(UrgentOnChainSweep)))
  {
    var max := FeeSanityMax(estimator);
    r := CheckFeeSanity(fee, weight, max);
    if weight <= 4_000_000 {
      CheckIsExactInPractice(fee, weight, max);
    }
  }
}
