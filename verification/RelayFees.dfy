/** The fee for relaying a signed redemption, and the relayer's tip recovered
    from it. Amounts are unbounded integers, division rounds as Euclid's, which
    is both Dafny's and the big-integer library's convention; gas is 64-bit. */
module RelayFees {
  import opened Basics

  const ESTIMATE_BASE_NUM: int := 22
  const ESTIMATE_BASE_DEN: int := 10
  const VALIDATE_BASE_NUM: int := 20
  const VALIDATE_BASE_DEN: int := 10
  const ESTIMATE_L1_NUM: int := 13
  const ESTIMATE_L1_DEN: int := 10
  const VALIDATE_L1_NUM: int := 12
  const VALIDATE_L1_DEN: int := 10

  const TWO_64: int := 0x1_0000_0000_0000_0000

  /** A batch of redemptions and what they cost in gas: so much for one, and a
      fixed addition for each further one. */
  datatype Batch = Batch(numRedemptions: int, gasSignedRedeem: nat, gasSignedRedeemAdd: nat) {
    function Gas(): (g: nat)
      ensures g < TWO_64
    {
      (gasSignedRedeem + gasSignedRedeemAdd * Max(numRedemptions - 1, 0)) % TWO_64
    }
  }

  function Scaled(fee: int, num: int, den: int): int
    requires den > 0
  {
    fee * num / den
  }

  function ScaledL1(l1Fee: Option<int>, num: int, den: int): int
    requires den > 0
  {
    match l1Fee
    case None => 0
    case Some(fee) => Scaled(fee, num, den)
  }

  function FeeWithMultipliers(batch: Batch, baseFee: int, maxTipCap: int, relayerTip: int, l1Fee: Option<int>,
                              baseNum: int, baseDen: int, l1Num: int, l1Den: int): int
    requires baseDen > 0 && l1Den > 0
  {
    (Scaled(baseFee, baseNum, baseDen) + maxTipCap + relayerTip) * batch.Gas() + ScaledL1(l1Fee, l1Num, l1Den)
  }

  function EstimateRelayFee(batch: Batch, baseFee: int, maxTipCap: int, relayerTip: int, l1Fee: Option<int>): int {
    FeeWithMultipliers(batch, baseFee, maxTipCap, relayerTip, l1Fee, ESTIMATE_BASE_NUM, ESTIMATE_BASE_DEN,
        ESTIMATE_L1_NUM, ESTIMATE_L1_DEN)
  }

  /** The lowest fee that the relayer accepts. */
  function ValidationFee(batch: Batch, baseFee: int, maxTipCap: int, relayerTip: int, l1Fee: Option<int>): int {
    FeeWithMultipliers(batch, baseFee, maxTipCap, relayerTip, l1Fee, VALIDATE_BASE_NUM, VALIDATE_BASE_DEN,
        VALIDATE_L1_NUM, VALIDATE_L1_DEN)
  }

  function ExtractRelayerTip(totalFee: int, batch: Batch, baseFee: int, maxTipCap: int, l1Fee: Option<int>): int
    requires batch.Gas() > 0
  {
    (totalFee - ScaledL1(l1Fee, ESTIMATE_L1_NUM, ESTIMATE_L1_DEN)) / batch.Gas() -
        Scaled(baseFee, ESTIMATE_BASE_NUM, ESTIMATE_BASE_DEN) - maxTipCap
  }

  lemma MulMonotone(a: int, b: int, c: nat)
    requires a <= b
    ensures a * c <= b * c
  {
  }

  /** A product is at most n exactly when the factor is at most the quotient. */
  lemma QuotientIsGreatest(a: int, n: int, gas: nat)
    requires gas > 0
    ensures a * gas <= n <==> a <= n / gas
  {
    var q := n / gas;
    assert q * gas <= n < q * gas + gas;
    assert q * gas + gas == (q + 1) * gas;
    if a <= q {
      MulMonotone(a, q, gas);
    } else {
      MulMonotone(q + 1, a, gas);
    }
  }

  /** The recovered tip is the greatest whose estimate the fee pays for: the
      estimate for a tip is within a fee exactly when the tip is at most the
      one recovered from the fee. */
  lemma ExtractIsGreatest(totalFee: int, batch: Batch, baseFee: int, maxTipCap: int, tip: int, l1Fee: Option<int>)
    requires batch.Gas() > 0
    ensures EstimateRelayFee(batch, baseFee, maxTipCap, tip, l1Fee) <= totalFee
       <==> tip <= ExtractRelayerTip(totalFee, batch, baseFee, maxTipCap, l1Fee)
  {
    var perGas := Scaled(baseFee, ESTIMATE_BASE_NUM, ESTIMATE_BASE_DEN) + maxTipCap;
    QuotientIsGreatest(perGas + tip, totalFee - ScaledL1(l1Fee, ESTIMATE_L1_NUM, ESTIMATE_L1_DEN), batch.Gas());
  }

  /** Extraction inverts estimation for every tip, and brackets every fee. */
  lemma ExtractInvertsEstimate(totalFee: int, batch: Batch, baseFee: int, maxTipCap: int, tip: int, l1Fee: Option<int>)
    requires batch.Gas() > 0
    ensures var fee := EstimateRelayFee(batch, baseFee, maxTipCap, tip, l1Fee);
      ExtractRelayerTip(fee, batch, baseFee, maxTipCap, l1Fee) == tip
    ensures var t := ExtractRelayerTip(totalFee, batch, baseFee, maxTipCap, l1Fee);
      && EstimateRelayFee(batch, baseFee, maxTipCap, t, l1Fee) <= totalFee
      && totalFee < EstimateRelayFee(batch, baseFee, maxTipCap, t + 1, l1Fee)
  {
    var t := ExtractRelayerTip(totalFee, batch, baseFee, maxTipCap, l1Fee);
    ExtractIsGreatest(totalFee, batch, baseFee, maxTipCap, t, l1Fee);
    ExtractIsGreatest(totalFee, batch, baseFee, maxTipCap, t + 1, l1Fee);
    var fee := EstimateRelayFee(batch, baseFee, maxTipCap, tip, l1Fee);
    ExtractIsGreatest(fee, batch, baseFee, maxTipCap, tip, l1Fee);
    ExtractIsGreatest(fee, batch, baseFee, maxTipCap, tip + 1, l1Fee);
    EstimateGrows(batch, baseFee, maxTipCap, tip, l1Fee);
  }

  lemma EstimateGrows(batch: Batch, baseFee: int, maxTipCap: int, tip: int, l1Fee: Option<int>)
    requires batch.Gas() > 0
    ensures EstimateRelayFee(batch, baseFee, maxTipCap, tip + 1, l1Fee) ==
        EstimateRelayFee(batch, baseFee, maxTipCap, tip, l1Fee) + batch.Gas()
  {
    var perGas := Scaled(baseFee, ESTIMATE_BASE_NUM, ESTIMATE_BASE_DEN) + maxTipCap + tip;
    assert (perGas + 1) * batch.Gas() == perGas * batch.Gas() + batch.Gas();
  }

  /** An estimate made at one base fee and L1 fee still covers the validation
      fee at later ones, for every amount of gas, as long as neither has grown
      by more than the ratio of the multipliers. */
  lemma EstimateCoversLaterFees(batch: Batch, baseFee: int, laterBase: int, maxTipCap: int, tip: int,
          l1Fee: Option<int>, laterL1: Option<int>)
    requires VALIDATE_BASE_NUM * laterBase <= ESTIMATE_BASE_NUM * baseFee
    requires l1Fee.Some? == laterL1.Some?
    requires l1Fee.Some? ==> VALIDATE_L1_NUM * laterL1.value <= ESTIMATE_L1_NUM * l1Fee.value
    ensures ValidationFee(batch, laterBase, maxTipCap, tip, laterL1) <=
        EstimateRelayFee(batch, baseFee, maxTipCap, tip, l1Fee)
  {
    MulMonotone(Scaled(laterBase, VALIDATE_BASE_NUM, VALIDATE_BASE_DEN) + maxTipCap + tip,
                Scaled(baseFee, ESTIMATE_BASE_NUM, ESTIMATE_BASE_DEN) + maxTipCap + tip, batch.Gas());
  }

  /** A batch of one costs what one redemption does, and each further one the
      fixed addition, as long as the gas fits 64 bits. */
  lemma GasPerRedemption(batch: Batch)
    requires batch.gasSignedRedeem + batch.gasSignedRedeemAdd * Max(batch.numRedemptions, 0) < TWO_64
    ensures batch.numRedemptions <= 1 ==> batch.Gas() == batch.gasSignedRedeem
    ensures batch.numRedemptions >= 1 ==>
      batch.(numRedemptions := batch.numRedemptions + 1).Gas() == batch.Gas() + batch.gasSignedRedeemAdd
  {
    var n := batch.numRedemptions;
    if n >= 1 {
      MulMonotone(n - 1, n, batch.gasSignedRedeemAdd);
      assert batch.gasSignedRedeemAdd * n == batch.gasSignedRedeemAdd * (n - 1) + batch.gasSignedRedeemAdd;
    }
  }

  /** Apart from the tips, which are paid per gas, ten estimates are within ten
      gas prices and ten units of 22 base fees per gas and 13 L1 fees. */
  lemma EstimateIsTight(batch: Batch, baseFee: int, maxTipCap: int, tip: int, l1Fee: Option<int>)
    ensures var gas, l1 := batch.Gas(), if l1Fee.Some? then l1Fee.value else 0;
      var rest := EstimateRelayFee(batch, baseFee, maxTipCap, tip, l1Fee) - (maxTipCap + tip) * gas;
      22 * baseFee * gas + 13 * l1 - 9 * gas - 9 <= 10 * rest <= 22 * baseFee * gas + 13 * l1
  {
    FeeIsTight(batch, baseFee, maxTipCap, tip, l1Fee, 22, 13);
  }

  /** The fee a relayer accepts is tight in the same way, for 20 and 12. */
  lemma ValidationIsTight(batch: Batch, baseFee: int, maxTipCap: int, tip: int, l1Fee: Option<int>)
    ensures var gas, l1 := batch.Gas(), if l1Fee.Some? then l1Fee.value else 0;
      var rest := ValidationFee(batch, baseFee, maxTipCap, tip, l1Fee) - (maxTipCap + tip) * gas;
      20 * baseFee * gas + 12 * l1 - 9 * gas - 9 <= 10 * rest <= 20 * baseFee * gas + 12 * l1
  {
    FeeIsTight(batch, baseFee, maxTipCap, tip, l1Fee, 20, 12);
  }

  lemma FeeIsTight(batch: Batch, baseFee: int, maxTipCap: int, tip: int, l1Fee: Option<int>, baseNum: int, l1Num: int)
    ensures var gas, l1 := batch.Gas(), if l1Fee.Some? then l1Fee.value else 0;
      var fee := FeeWithMultipliers(batch, baseFee, maxTipCap, tip, l1Fee, baseNum, 10, l1Num, 10);
      var rest := fee - (maxTipCap + tip) * gas;
      baseNum * baseFee * gas + l1Num * l1 - 9 * gas - 9 <= 10 * rest <= baseNum * baseFee * gas + l1Num * l1
  {
    var gas := batch.Gas();
    var q, r := Scaled(baseFee, baseNum, 10), baseFee * baseNum % 10;
    assert baseFee * baseNum == 10 * q + r;
    assert (q + maxTipCap + tip) * gas == q * gas + (maxTipCap + tip) * gas;
    assert baseNum * baseFee * gas == 10 * (q * gas) + r * gas;
    MulMonotone(r, 9, gas);
  }

  /** Adding redemptions to a batch never costs less gas, unless it overflows. */
  lemma MoreRedemptionsCostMore(batch: Batch, more: int)
    requires batch.numRedemptions <= more
    requires batch.gasSignedRedeem + batch.gasSignedRedeemAdd * Max(more - 1, 0) < TWO_64
    ensures batch.Gas() <= batch.(numRedemptions := more).Gas()
  {
    MulMonotone(Max(batch.numRedemptions - 1, 0), Max(more - 1, 0), batch.gasSignedRedeemAdd);
  }
}
