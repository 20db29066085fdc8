/**
 * Properties of the gas-price escalator that relate several calls or
 * several inputs: monotonicity, bounds in terms of the inputs, independence
 * of the EIP-1559 components, boundedness of repeated escalation, the
 * configuration overrides, and the regression values of the source's tests.
 */
module EscalatorProperties {
  import Wrappers
  import Arith
  import opened Escalator

  // ---------------------------------------------------------------------
  // One scalar pair
  // ---------------------------------------------------------------------

  /**
   * The escalated price is never below the multiplied fresh estimate, and
   * with a multiplier of at least one it is never below the estimate itself.
   */
  lemma OracleFloor(oldPrice: U256, newPrice: U256, config: GasEscalatorConfig)
    requires Escalatable(oldPrice, newPrice, config)
    ensures newPrice * config.escalationMultiplierNumerator
         < (EscalatedPrice(oldPrice, newPrice, config) + 1) * config.escalationMultiplierDenominator
    ensures config.escalationMultiplierNumerator >= config.escalationMultiplierDenominator
         ==> EscalatedPrice(oldPrice, newPrice, config) >= newPrice
  {
    Arith.QuotientFloor(newPrice, config.escalationMultiplierNumerator, config.escalationMultiplierDenominator,
      ApplyEscalationMultiplier(newPrice, config), EscalatedPrice(oldPrice, newPrice, config));
  }

  /** A blend never exceeds the larger price, so neither does the escalation before the multiplier. */
  lemma EscalatedAtMostMultipliedMax(oldPrice: U256, newPrice: U256, config: GasEscalatorConfig)
    requires Escalatable(oldPrice, newPrice, config)
    ensures EscalatedPrice(oldPrice, newPrice, config) * config.escalationMultiplierDenominator
         <= Arith.Max(oldPrice, newPrice) * config.escalationMultiplierNumerator
  {
    var num := config.escalationMultiplierNumerator;
    var blended := Blend(oldPrice, newPrice, config);
    Arith.MulLeq(blended, Arith.Max(oldPrice, newPrice), num);
    Arith.MulLeq(newPrice, Arith.Max(oldPrice, newPrice), num);
  }

  /** When the old price equals the estimate, the blend is that price and only the multiplier acts. */
  lemma ZeroDelta(price: U256, config: GasEscalatorConfig)
    requires Escalatable(price, price, config)
    ensures Blend(price, price, config) == price
    ensures EscalatedPrice(price, price, config) == ApplyEscalationMultiplier(price, config)
  {
  }

  /** `gas_price * numerator / denominator` is monotone in the price. */
  lemma MultiplierMonotone(a: U256, b: U256, config: GasEscalatorConfig)
    requires config.escalationMultiplierDenominator > 0
    requires a <= b && b * config.escalationMultiplierNumerator < U256_LIMIT
    ensures a * config.escalationMultiplierNumerator < U256_LIMIT
    ensures ApplyEscalationMultiplier(a, config) <= ApplyEscalationMultiplier(b, config)
  {
    var num := config.escalationMultiplierNumerator;
    Arith.MulLeq(a, b, num);
    Arith.FloorMonotone(a * num, b * num, config.escalationMultiplierDenominator,
      ApplyEscalationMultiplier(a, config), ApplyEscalationMultiplier(b, config));
  }

  /** The blend is monotone in both prices. */
  lemma BlendMonotone(old1: U256, old2: U256, new1: U256, new2: U256, config: GasEscalatorConfig)
    requires old1 <= old2 && new1 <= new2
    requires Escalatable(old1, new1, config) && Escalatable(old2, new2, config)
    ensures Blend(old1, new1, config) <= Blend(old2, new2, config)
  {
    Arith.WeightedFloorMonotone(old1, old2, new1, new2, config.twapHistoryWeight, config.twapCurrentWeight,
      Blend(old1, new1, config), Blend(old2, new2, config));
  }

  /**
   * A higher old price or a higher fresh estimate never lowers the escalated
   * price; in particular, with the old price held fixed the result is
   * non-decreasing in the estimate.
   */
  lemma EscalatedMonotone(old1: U256, old2: U256, new1: U256, new2: U256, config: GasEscalatorConfig)
    requires old1 <= old2 && new1 <= new2
    requires Escalatable(old1, new1, config) && Escalatable(old2, new2, config)
    ensures EscalatedPrice(old1, new1, config) <= EscalatedPrice(old2, new2, config)
  {
    BlendMonotone(old1, old2, new1, new2, config);
    MultiplierMonotone(Blend(old1, new1, config), Blend(old2, new2, config), config);
    MultiplierMonotone(new1, new2, config);
  }

  // ---------------------------------------------------------------------
  // Repeated escalation stays bounded
  // ---------------------------------------------------------------------

  /** The blend weights shrink the history by more than the multiplier grows it: `h * num < (h + c) * den`. */
  predicate Damped(config: GasEscalatorConfig) {
    config.twapHistoryWeight * config.escalationMultiplierNumerator
      < (config.twapHistoryWeight + config.twapCurrentWeight) * config.escalationMultiplierDenominator
  }

  /**
   * `bound` is high enough for estimates up to `cap`, before the floors: the
   * exact multiplied cap and the exact multiplied weighted mean of `bound` and
   * `cap` both stay within it. The floor divisions only lower the result, so
   * this is a sufficient condition for a bound that escalation never leaves,
   * not a necessary one (`FloorsKeepSmallPricesBounded`).
   */
  predicate AbsorbingBound(config: GasEscalatorConfig, cap: nat, bound: nat) {
    var h, c := config.twapHistoryWeight, config.twapCurrentWeight;
    var num, den := config.escalationMultiplierNumerator, config.escalationMultiplierDenominator;
    && cap * num <= bound * den
    && bound * h * num + cap * c * num <= bound * (h + c) * den
  }

  /** The step the blended candidate takes: it stays within an absorbing bound. */
  lemma HistoryCandidateBounded(oldPrice: U256, newPrice: U256, config: GasEscalatorConfig, cap: nat, bound: nat)
    requires Escalatable(oldPrice, newPrice, config)
    requires AbsorbingBound(config, cap, bound)
    requires oldPrice <= bound && newPrice <= cap
    ensures ApplyEscalationMultiplier(Blend(oldPrice, newPrice, config), config) <= bound
  {
    var blended := Blend(oldPrice, newPrice, config);
    Arith.BlendStepBound(oldPrice, newPrice, config.twapHistoryWeight, config.twapCurrentWeight,
      config.escalationMultiplierNumerator, config.escalationMultiplierDenominator,
      blended, ApplyEscalationMultiplier(blended, config), cap, bound);
  }

  /** One escalation from a price within an absorbing bound, with an estimate within the cap, stays within the bound. */
  lemma EscalationStepBounded(oldPrice: U256, newPrice: U256, config: GasEscalatorConfig, cap: nat, bound: nat)
    requires Escalatable(oldPrice, newPrice, config)
    requires AbsorbingBound(config, cap, bound)
    requires oldPrice <= bound && newPrice <= cap
    ensures EscalatedPrice(oldPrice, newPrice, config) <= bound
  {
    var num, den := config.escalationMultiplierNumerator, config.escalationMultiplierDenominator;
    HistoryCandidateBounded(oldPrice, newPrice, config, cap, bound);
    var fromOracle := ApplyEscalationMultiplier(newPrice, config);
    Arith.MulLeq(newPrice, cap, num);
    Arith.MulCancelLeq(fromOracle, bound, den);
  }

  /**
   * `prices[i + 1]` is the escalation of `prices[i]` against `estimates[i]`:
   * the prices of successive resubmissions of one transaction.
   */
  predicate ResubmissionChain(prices: seq<U256>, estimates: seq<U256>, config: GasEscalatorConfig) {
    && |prices| == |estimates| + 1
    && forall i :: 0 <= i < |estimates| ==>
         && Escalatable(prices[i], estimates[i], config)
         && prices[i + 1] == EscalatedPrice(prices[i], estimates[i], config)
  }

  /**
   * However many times a transaction is resubmitted, while the oracle stays
   * within `cap` its price never leaves an absorbing bound it started in.
   * For a positive cap a bound meeting `AbsorbingBound` exists exactly when
   * the configuration is damped or its multiplier is at most one
   * (`DampedHasAbsorbingBound`, `MultiplierAtMostOneHasAbsorbingBound`,
   * `AbsorbingBoundNeedsDampingOrUnitMultiplier`).
   */
  lemma {:induction false} ResubmissionsStayBounded(
    prices: seq<U256>, estimates: seq<U256>, config: GasEscalatorConfig, cap: nat, bound: nat)
    requires ResubmissionChain(prices, estimates, config)
    requires AbsorbingBound(config, cap, bound)
    requires prices[0] <= bound
    requires forall i :: 0 <= i < |estimates| ==> estimates[i] <= cap
    ensures forall i :: 0 <= i < |prices| ==> prices[i] <= bound
  {
    if |estimates| > 0 {
      var k := |estimates| - 1;
      ResubmissionsStayBounded(prices[..k + 1], estimates[..k], config, cap, bound);
      assert prices[k] <= bound by {
        assert prices[..k + 1][k] == prices[k];
      }
      EscalationStepBounded(prices[k], estimates[k], config, cap, bound);
      forall i | 0 <= i < |prices|
        ensures prices[i] <= bound
      {
        if i <= k {
          assert prices[..k + 1][i] == prices[i];
        }
      }
    }
  }

  /** A damped configuration has an absorbing bound for every cap. */
  lemma DampedHasAbsorbingBound(config: GasEscalatorConfig, cap: nat)
    requires NonZeroDivisors(config) && Damped(config)
    ensures AbsorbingBound(config, cap, cap * config.twapCurrentWeight * config.escalationMultiplierNumerator
                                        + cap * config.escalationMultiplierNumerator)
  {
    Arith.DampedBound(config.twapHistoryWeight, config.twapCurrentWeight,
      config.escalationMultiplierNumerator, config.escalationMultiplierDenominator, cap);
  }

  /**
   * Without damping no bound meets `AbsorbingBound` (the condition before
   * the floors): when the current weight, the numerator and the cap are
   * positive, `h * num >= (h + c) * den` rules out every bound.
   */
  lemma UndampedHasNoAbsorbingBound(config: GasEscalatorConfig, cap: nat, bound: nat)
    requires !Damped(config)
    requires config.twapCurrentWeight > 0 && config.escalationMultiplierNumerator > 0 && cap > 0
    ensures !AbsorbingBound(config, cap, bound)
  {
    Arith.UndampedUnbounded(config.twapHistoryWeight, config.twapCurrentWeight,
      config.escalationMultiplierNumerator, config.escalationMultiplierDenominator, cap, bound);
  }

  /** With a multiplier of at most one, the cap itself is an absorbing bound, whatever the weights. */
  lemma MultiplierAtMostOneHasAbsorbingBound(config: GasEscalatorConfig, cap: nat)
    requires config.escalationMultiplierNumerator <= config.escalationMultiplierDenominator
    ensures AbsorbingBound(config, cap, cap)
  {
    Arith.UnitMultiplierBound(config.twapHistoryWeight, config.twapCurrentWeight,
      config.escalationMultiplierNumerator, config.escalationMultiplierDenominator, cap);
  }

  /**
   * The converse of the two lemmas above: for a positive cap, an absorbing
   * bound exists only for a damped configuration or a multiplier of at most one.
   */
  lemma AbsorbingBoundNeedsDampingOrUnitMultiplier(config: GasEscalatorConfig, cap: nat, bound: nat)
    requires NonZeroDivisors(config) && cap > 0
    requires AbsorbingBound(config, cap, bound)
    ensures Damped(config)
         || config.escalationMultiplierNumerator <= config.escalationMultiplierDenominator
  {
    var h, c := config.twapHistoryWeight, config.twapCurrentWeight;
    var num, den := config.escalationMultiplierNumerator, config.escalationMultiplierDenominator;
    if !Damped(config) && num > den {
      if c > 0 {
        UndampedHasNoAbsorbingBound(config, cap, bound);
      } else {
        Arith.HistoryOnlyGrowth(h, num, den, cap, bound);
      }
    }
  }

  /**
   * `AbsorbingBound` ignores the floors, which can keep small prices bounded
   * where it fails: under 120/100 with weights 5:1 (not damped, multiplier
   * above one), escalation from a price of at most 4 against an estimate of
   * at most 4 stays within 4, although 4 is not an absorbing bound for cap 4.
   */
  lemma FloorsKeepSmallPricesBounded(oldPrice: U256, newPrice: U256)
    requires oldPrice <= 4 && newPrice <= 4
    ensures !Damped(GasEscalatorConfig(120, 100, 5, 1))
    ensures !AbsorbingBound(GasEscalatorConfig(120, 100, 5, 1), 4, 4)
    ensures Escalatable(oldPrice, newPrice, GasEscalatorConfig(120, 100, 5, 1))
    ensures EscalatedPrice(oldPrice, newPrice, GasEscalatorConfig(120, 100, 5, 1)) <= 4
  {
    var config := GasEscalatorConfig(120, 100, 5, 1);
    var blended := Blend(oldPrice, newPrice, config);
    assert blended <= 4;
    var fromHistory := ApplyEscalationMultiplier(blended, config);
    assert fromHistory * 100 <= blended * 120 <= 480;
    var fromOracle := ApplyEscalationMultiplier(newPrice, config);
    assert fromOracle * 100 <= newPrice * 120 <= 480;
  }

  /** The configuration of the source's override test: multiplier 200/100, weights 1:1. It is not damped. */
  function OverrideTestConfig(): (config: GasEscalatorConfig)
    ensures NonZeroDivisors(config) && !Damped(config)
  {
    GasEscalatorConfig(200, 100, 1, 1)
  }

  /**
   * Under the override test configuration, one escalation adds the estimate
   * to the old price, less at most one for the floor of the blend.
   */
  lemma OverrideTestStepGrows(oldPrice: U256, newPrice: U256)
    requires Escalatable(oldPrice, newPrice, OverrideTestConfig())
    ensures EscalatedPrice(oldPrice, newPrice, OverrideTestConfig()) + 1 >= oldPrice + newPrice
  {
    var config := OverrideTestConfig();
    var blended := Blend(oldPrice, newPrice, config);
    assert blended * 2 + 1 >= oldPrice + newPrice;
    var fromHistory := ApplyEscalationMultiplier(blended, config);
    assert fromHistory * 100 <= blended * 200 < (fromHistory + 1) * 100;
    assert fromHistory == blended * 2;
  }

  /**
   * Under the override test configuration, every resubmission against an
   * estimate of at least 2 raises the price by at least one, so a chain of
   * `n` resubmissions ends at least `n` above where it started: the price
   * grows without bound until a `U256` product overflows.
   */
  lemma {:induction false} OverrideTestResubmissionsGrow(prices: seq<U256>, estimates: seq<U256>)
    requires ResubmissionChain(prices, estimates, OverrideTestConfig())
    requires forall i :: 0 <= i < |estimates| ==> estimates[i] >= 2
    ensures forall i :: 0 <= i < |prices| ==> prices[i] >= prices[0] + i
  {
    if |estimates| > 0 {
      var k := |estimates| - 1;
      OverrideTestResubmissionsGrow(prices[..k + 1], estimates[..k]);
      assert prices[k] >= prices[0] + k by {
        assert prices[..k + 1][k] == prices[k];
      }
      OverrideTestStepGrows(prices[k], estimates[k]);
      forall i | 0 <= i < |prices|
        ensures prices[i] >= prices[0] + i
      {
        if i <= k {
          assert prices[..k + 1][i] == prices[i];
        }
      }
    }
  }

  /** Under the override test configuration a constant estimate of 100 takes the price 100, 200, 300, 400. */
  lemma OverrideTestChainExample()
    ensures ResubmissionChain([100, 200, 300, 400], [100, 100, 100], OverrideTestConfig())
  {
    assert Blend(100, 100, OverrideTestConfig()) == 100;
    assert Blend(200, 100, OverrideTestConfig()) == 150;
    assert Blend(300, 100, OverrideTestConfig()) == 200;
  }

  /** With the default configuration the price stays within twice the highest estimate. */
  lemma DefaultResubmissionsStayWithinTwiceCap(prices: seq<U256>, estimates: seq<U256>, cap: nat)
    requires ResubmissionChain(prices, estimates, DefaultConfig())
    requires prices[0] <= 2 * cap
    requires forall i :: 0 <= i < |estimates| ==> estimates[i] <= cap
    ensures forall i :: 0 <= i < |prices| ==> prices[i] <= 2 * cap
  {
    assert AbsorbingBound(DefaultConfig(), cap, 2 * cap);
    ResubmissionsStayBounded(prices, estimates, DefaultConfig(), cap, 2 * cap);
  }

  // ---------------------------------------------------------------------
  // The dispatch on the fee scheme
  // ---------------------------------------------------------------------

  /** A price that is not set on either side yields no price, whatever the other side and the configuration. */
  lemma AbsencePropagates(price: GasPrice, config: GasEscalatorConfig)
    ensures EscalateGasPriceIfNeeded(GasPrice.None, price, config) == GasPrice.None
    ensures EscalateGasPriceIfNeeded(price, GasPrice.None, config) == GasPrice.None
  {
  }

  /** A legacy price and an EIP-1559 price, in either order, yield no price rather than a mixed one. */
  lemma SchemeMismatchYieldsNone(gasPrice: U256, maxFee: U256, maxPriorityFee: U256, config: GasEscalatorConfig)
    ensures EscalateGasPriceIfNeeded(NonEip1559(gasPrice), Eip1559(maxFee, maxPriorityFee), config) == GasPrice.None
    ensures EscalateGasPriceIfNeeded(Eip1559(maxFee, maxPriorityFee), NonEip1559(gasPrice), config) == GasPrice.None
  {
  }

  /** Legacy and EIP-2930 prices escalate as the one scalar pair. */
  lemma LegacyEscalation(oldPrice: U256, newPrice: U256, config: GasEscalatorConfig)
    requires Escalatable(oldPrice, newPrice, config)
    ensures EscalateGasPriceIfNeeded(NonEip1559(oldPrice), NonEip1559(newPrice), config)
         == NonEip1559(EscalatedPrice(oldPrice, newPrice, config))
  {
  }

  /**
   * The escalated fee cap is the escalation of the two fee caps alone:
   * changing the tips of either input leaves it unchanged.
   */
  lemma MaxFeeIndependentOfTip(
    oldFee: U256, newFee: U256, oldTip1: U256, newTip1: U256, oldTip2: U256, newTip2: U256,
    config: GasEscalatorConfig)
    requires EscalationDefined(Eip1559(oldFee, oldTip1), Eip1559(newFee, newTip1), config)
    requires EscalationDefined(Eip1559(oldFee, oldTip2), Eip1559(newFee, newTip2), config)
    ensures EscalateGasPriceIfNeeded(Eip1559(oldFee, oldTip1), Eip1559(newFee, newTip1), config).maxFee
         == EscalateGasPriceIfNeeded(Eip1559(oldFee, oldTip2), Eip1559(newFee, newTip2), config).maxFee
         == EscalatedPrice(oldFee, newFee, config)
  {
  }

  /**
   * The escalated tip is the escalation of the two tips alone: changing the
   * fee caps of either input leaves it unchanged.
   */
  lemma TipIndependentOfMaxFee(
    oldTip: U256, newTip: U256, oldFee1: U256, newFee1: U256, oldFee2: U256, newFee2: U256,
    config: GasEscalatorConfig)
    requires EscalationDefined(Eip1559(oldFee1, oldTip), Eip1559(newFee1, newTip), config)
    requires EscalationDefined(Eip1559(oldFee2, oldTip), Eip1559(newFee2, newTip), config)
    ensures EscalateGasPriceIfNeeded(Eip1559(oldFee1, oldTip), Eip1559(newFee1, newTip), config).maxPriorityFee
         == EscalateGasPriceIfNeeded(Eip1559(oldFee2, oldTip), Eip1559(newFee2, newTip), config).maxPriorityFee
         == EscalatedPrice(oldTip, newTip, config)
  {
  }

  /** A higher fresh estimate never lowers any component of the escalated price. */
  lemma EscalationMonotoneInEstimate(oldGasPrice: GasPrice, est1: GasPrice, est2: GasPrice, config: GasEscalatorConfig)
    requires EscalationDefined(oldGasPrice, est1, config) && EscalationDefined(oldGasPrice, est2, config)
    requires est1.NonEip1559? && est2.NonEip1559? ==> est1.gasPrice <= est2.gasPrice
    requires est1.Eip1559? && est2.Eip1559? ==>
      est1.maxFee <= est2.maxFee && est1.maxPriorityFee <= est2.maxPriorityFee
    ensures var r1, r2 := EscalateGasPriceIfNeeded(oldGasPrice, est1, config),
                          EscalateGasPriceIfNeeded(oldGasPrice, est2, config);
      && (r1.NonEip1559? && r2.NonEip1559? ==> r1.gasPrice <= r2.gasPrice)
      && (r1.Eip1559? && r2.Eip1559? ==> r1.maxFee <= r2.maxFee && r1.maxPriorityFee <= r2.maxPriorityFee)
  {
    match (oldGasPrice, est1, est2)
    case (NonEip1559(o), NonEip1559(n1), NonEip1559(n2)) =>
      EscalatedMonotone(o, o, n1, n2, config);
    case (Eip1559(oFee, oTip), Eip1559(fee1, tip1), Eip1559(fee2, tip2)) =>
      EscalatedMonotone(oFee, oFee, fee1, fee2, config);
      EscalatedMonotone(oTip, oTip, tip1, tip2, config);
    case _ =>
  }

  // ---------------------------------------------------------------------
  // Configuration
  // ---------------------------------------------------------------------

  /** The default multiplier is 110/100 and the default TWAP weights are 3:1. */
  lemma DefaultConfigValues()
    ensures DefaultConfig() == GasEscalatorConfig(110, 100, 3, 1)
    ensures Damped(DefaultConfig())
  {
  }

  /** Overrides that set nothing give the default configuration. */
  lemma NoOverridesGiveDefault()
    ensures FromOverrides(EscalatorOverrides(Wrappers.None, Wrappers.None, Wrappers.None, Wrappers.None))
         == DefaultConfig()
  {
  }

  /** Overrides that set all four fields give exactly those fields, with nothing taken from the default. */
  lemma AllOverridesTakeEffect(numerator: U32, denominator: U32, historyWeight: U32, currentWeight: U32)
    ensures FromOverrides(EscalatorOverrides(
              Wrappers.Some(numerator), Wrappers.Some(denominator),
              Wrappers.Some(historyWeight), Wrappers.Some(currentWeight)))
         == GasEscalatorConfig(numerator, denominator, historyWeight, currentWeight)
  {
  }

  /** The configuration of the source's override test: 200/100 with weights 1:1. */
  lemma OverrideTestValues()
    ensures FromOverrides(EscalatorOverrides(
              Wrappers.Some(200), Wrappers.Some(100), Wrappers.Some(1), Wrappers.Some(1)))
         == GasEscalatorConfig(200, 100, 1, 1) == OverrideTestConfig()
  {
    AllOverridesTakeEffect(200, 100, 1, 1);
  }

  /**
   * A configuration built from overrides divides by zero exactly when the
   * denominator is overridden with zero or both weights are overridden with zero.
   */
  lemma OverridesDivisorsNonZero(overrides: EscalatorOverrides)
    requires OverridesFitU32(overrides)
    ensures NonZeroDivisors(FromOverrides(overrides)) <==>
      && overrides.gasEscalatorMultiplierDenominator != Wrappers.Some(0)
      && !(overrides.gasEscalatorHistoryWeight == Wrappers.Some(0)
           && overrides.gasEscalatorCurrentWeight == Wrappers.Some(0))
  {
  }

  // ---------------------------------------------------------------------
  // Regression values
  // ---------------------------------------------------------------------

  /**
   * With the default configuration an old price of 200000 and an estimate of
   * 219000 blend to 204750 (225225 after the multiplier), and the multiplied
   * estimate 240900 wins.
   */
  lemma DefaultRegressionValue()
    ensures Escalatable(200000, 219000, DefaultConfig())
    ensures Blend(200000, 219000, DefaultConfig()) == 204750
    ensures EscalatedPrice(200000, 219000, DefaultConfig()) == 240900
  {
    assert Blend(200000, 219000, DefaultConfig()) == 204750;
  }

  /**
   * The escalated price is not "at least 1.1 times the old price" as the doc
   * comment on the function says: with the default configuration, an old price
   * of 200000 and an estimate of 100000 escalate to 192500, below 220000 and
   * even below the old price itself: a falling estimate lowers the price of
   * the replacement.
   */
  lemma BelowMultipliedOldPrice()
    ensures Escalatable(200000, 100000, DefaultConfig())
    ensures EscalatedPrice(200000, 100000, DefaultConfig()) == 192500
    ensures EscalatedPrice(200000, 100000, DefaultConfig()) < ApplyEscalationMultiplier(200000, DefaultConfig())
    ensures EscalatedPrice(200000, 100000, DefaultConfig()) < 200000
  {
    assert Blend(200000, 100000, DefaultConfig()) == 175000;
  }
}
