/**
 * The gas-price escalator of the Ethereum adapter: given the gas price of a
 * pending transaction and a fresh oracle estimate, compute the price of the
 * replacement transaction.
 *
 * `U256` arithmetic panics on overflow and on division by zero; the model
 * computes on naturals below 2^256 (`U256`), forms every intermediate
 * product and sum as an unbounded natural, and turns every such panic into a
 * precondition
 * (`Escalatable`, `EscalationDefined`), so a call that meets its requires is
 * exactly a call on which the Rust code returns normally.
 */
module Escalator {
  import Wrappers
  import Arith

  const U256_LIMIT: nat := 0x1_0000_0000_0000_0000_0000_0000_0000_0000_0000_0000_0000_0000_0000_0000_0000_0000
  const U32_LIMIT: nat := 0x1_0000_0000

  /** `hyperlane_core::U256` */
  type U256 = x: nat | x < U256_LIMIT
  /** Rust's `u32` */
  type U32 = x: nat | x < U32_LIMIT

  /**
   * The price carried by a transaction: not set, one scalar price
   * (legacy and EIP-2930 transactions), or the fee cap and the priority
   * tip of an EIP-1559 transaction.
   */
  datatype GasPrice =
    | None
    | NonEip1559(gasPrice: U256)
    | Eip1559(maxFee: U256, maxPriorityFee: U256)

  /** Multiplier `numerator/denominator` and the TWAP weights of old and new price. */
  datatype GasEscalatorConfig = GasEscalatorConfig(
    escalationMultiplierNumerator: U32,
    escalationMultiplierDenominator: U32,
    twapHistoryWeight: U32,
    twapCurrentWeight: U32)

  /** The escalator fields of the transaction overrides of a destination chain (all `Option<U256>`). */
  datatype EscalatorOverrides = EscalatorOverrides(
    gasEscalatorMultiplierNumerator: Wrappers.Option<U256>,
    gasEscalatorMultiplierDenominator: Wrappers.Option<U256>,
    gasEscalatorHistoryWeight: Wrappers.Option<U256>,
    gasEscalatorCurrentWeight: Wrappers.Option<U256>)

  /** Neither division of the escalator divides by zero. */
  predicate NonZeroDivisors(config: GasEscalatorConfig) {
    && config.escalationMultiplierDenominator > 0
    && config.twapHistoryWeight + config.twapCurrentWeight > 0
  }

  /** `GasEscalatorConfig::default()` */
  function DefaultConfig(): (config: GasEscalatorConfig)
    ensures NonZeroDivisors(config)
    ensures config.escalationMultiplierNumerator > config.escalationMultiplierDenominator
    ensures config.twapHistoryWeight > config.twapCurrentWeight
  {
    GasEscalatorConfig(110, 100, 3, 1)
  }

  /** `as_u32()` on an override holds only for values that fit in 32 bits. */
  predicate FitsU32(v: Wrappers.Option<U256>) {
    v.Some? ==> v.value < U32_LIMIT
  }

  predicate OverridesFitU32(overrides: EscalatorOverrides) {
    && FitsU32(overrides.gasEscalatorMultiplierNumerator)
    && FitsU32(overrides.gasEscalatorMultiplierDenominator)
    && FitsU32(overrides.gasEscalatorHistoryWeight)
    && FitsU32(overrides.gasEscalatorCurrentWeight)
  }

  /** `impl From<&TransactionOverrides> for GasEscalatorConfig`: each field from its own override, or from the default. */
  function FromOverrides(overrides: EscalatorOverrides): (config: GasEscalatorConfig)
    requires OverridesFitU32(overrides)
    ensures overrides.gasEscalatorMultiplierNumerator.Some?
        ==> config.escalationMultiplierNumerator == overrides.gasEscalatorMultiplierNumerator.value
    ensures overrides.gasEscalatorMultiplierNumerator.None?
        ==> config.escalationMultiplierNumerator == DefaultConfig().escalationMultiplierNumerator
    ensures overrides.gasEscalatorMultiplierDenominator.Some?
        ==> config.escalationMultiplierDenominator == overrides.gasEscalatorMultiplierDenominator.value
    ensures overrides.gasEscalatorMultiplierDenominator.None?
        ==> config.escalationMultiplierDenominator == DefaultConfig().escalationMultiplierDenominator
    ensures overrides.gasEscalatorHistoryWeight.Some?
        ==> config.twapHistoryWeight == overrides.gasEscalatorHistoryWeight.value
    ensures overrides.gasEscalatorHistoryWeight.None?
        ==> config.twapHistoryWeight == DefaultConfig().twapHistoryWeight
    ensures overrides.gasEscalatorCurrentWeight.Some?
        ==> config.twapCurrentWeight == overrides.gasEscalatorCurrentWeight.value
    ensures overrides.gasEscalatorCurrentWeight.None?
        ==> config.twapCurrentWeight == DefaultConfig().twapCurrentWeight
  {
    var default := DefaultConfig();
    GasEscalatorConfig(
      overrides.gasEscalatorMultiplierNumerator.UnwrapOr(default.escalationMultiplierNumerator),
      overrides.gasEscalatorMultiplierDenominator.UnwrapOr(default.escalationMultiplierDenominator),
      overrides.gasEscalatorHistoryWeight.UnwrapOr(default.twapHistoryWeight),
      overrides.gasEscalatorCurrentWeight.UnwrapOr(default.twapCurrentWeight))
  }

  /** `gas_price * numerator / denominator`: the largest value whose product with the denominator stays within `gas_price * numerator`. */
  function ApplyEscalationMultiplier(gasPrice: U256, config: GasEscalatorConfig): (r: U256)
    requires config.escalationMultiplierDenominator > 0
    requires gasPrice * config.escalationMultiplierNumerator < U256_LIMIT
    ensures r * config.escalationMultiplierDenominator <= gasPrice * config.escalationMultiplierNumerator
    ensures gasPrice * config.escalationMultiplierNumerator < (r + 1) * config.escalationMultiplierDenominator
  {
    var product := gasPrice * config.escalationMultiplierNumerator;
    var d := config.escalationMultiplierDenominator;
    Arith.DivBounds(product, d);
    Arith.DivAtMost(product, d);
    product / d
  }

  /** The sum of the weighted old and new price does not overflow `U256`. */
  predicate BlendFits(oldPrice: U256, newPrice: U256, config: GasEscalatorConfig) {
    oldPrice * config.twapHistoryWeight + newPrice * config.twapCurrentWeight < U256_LIMIT
  }

  /**
   * The TWAP blend `(old * history_weight + new * current_weight) / (history_weight + current_weight)`:
   * the floor of the weighted mean, which lies between the two prices.
   */
  function Blend(oldPrice: U256, newPrice: U256, config: GasEscalatorConfig): (r: U256)
    requires config.twapHistoryWeight + config.twapCurrentWeight > 0
    requires BlendFits(oldPrice, newPrice, config)
    ensures r * (config.twapHistoryWeight + config.twapCurrentWeight)
         <= oldPrice * config.twapHistoryWeight + newPrice * config.twapCurrentWeight
    ensures oldPrice * config.twapHistoryWeight + newPrice * config.twapCurrentWeight
         < (r + 1) * (config.twapHistoryWeight + config.twapCurrentWeight)
    ensures Arith.Min(oldPrice, newPrice) <= r <= Arith.Max(oldPrice, newPrice)
  {
    var h, c := config.twapHistoryWeight, config.twapCurrentWeight;
    var weighted := oldPrice * h + newPrice * c;
    var blended := weighted / (h + c);
    Arith.DivBounds(weighted, h + c);
    Arith.WeightedMeanBetween(oldPrice, newPrice, h, c);
    assert blended <= Arith.Max(oldPrice, newPrice) < U256_LIMIT;
    blended
  }

  /**
   * The no-panic condition of `get_escalated_price_from_old_and_new`: both
   * divisors are non-zero and none of the products and sums it forms
   * overflows `U256`.
   */
  predicate Escalatable(oldPrice: U256, newPrice: U256, config: GasEscalatorConfig) {
    && NonZeroDivisors(config)
    && BlendFits(oldPrice, newPrice, config)
    && newPrice * config.escalationMultiplierNumerator < U256_LIMIT
    && Blend(oldPrice, newPrice, config) * config.escalationMultiplierNumerator < U256_LIMIT
  }

  /**
   * `get_escalated_price_from_old_and_new`: the larger of the multiplied
   * blend and the multiplied fresh estimate. It is one of the two
   * candidates and at least as large as each.
   */
  function EscalatedPrice(oldPrice: U256, newPrice: U256, config: GasEscalatorConfig): (r: U256)
    requires Escalatable(oldPrice, newPrice, config)
    ensures r >= ApplyEscalationMultiplier(newPrice, config)
    ensures r >= ApplyEscalationMultiplier(Blend(oldPrice, newPrice, config), config)
    ensures r == ApplyEscalationMultiplier(newPrice, config)
         || r == ApplyEscalationMultiplier(Blend(oldPrice, newPrice, config), config)
  {
    var blended := Blend(oldPrice, newPrice, config);
    var escalatedFromHistory := ApplyEscalationMultiplier(blended, config);
    var escalatedFromOracle := ApplyEscalationMultiplier(newPrice, config);
    if escalatedFromHistory >= escalatedFromOracle then escalatedFromHistory else escalatedFromOracle
  }

  /** Old and new price use the same fee scheme (and neither is absent). */
  predicate SameScheme(a: GasPrice, b: GasPrice) {
    (a.NonEip1559? && b.NonEip1559?) || (a.Eip1559? && b.Eip1559?)
  }

  /**
   * The no-panic condition of `escalate_gas_price_if_needed`: only the
   * pairs it escalates have to be escalatable, component by component.
   */
  predicate EscalationDefined(oldGasPrice: GasPrice, estimatedGasPrice: GasPrice, config: GasEscalatorConfig) {
    match (oldGasPrice, estimatedGasPrice)
    case (NonEip1559(o), NonEip1559(n)) => Escalatable(o, n, config)
    case (Eip1559(oFee, oTip), Eip1559(nFee, nTip)) =>
      Escalatable(oFee, nFee, config) && Escalatable(oTip, nTip, config)
    case _ => true
  }

  /**
   * `escalate_gas_price_if_needed`: no price when either side has none or
   * the schemes differ; otherwise a price of the same scheme in which every
   * component is at least the multiplied fresh estimate of that component.
   */
  function EscalateGasPriceIfNeeded(oldGasPrice: GasPrice, estimatedGasPrice: GasPrice, config: GasEscalatorConfig)
    : (r: GasPrice)
    requires EscalationDefined(oldGasPrice, estimatedGasPrice, config)
    ensures r.None? <==> !SameScheme(oldGasPrice, estimatedGasPrice)
    ensures r.NonEip1559? <==> oldGasPrice.NonEip1559? && estimatedGasPrice.NonEip1559?
    ensures r.Eip1559? <==> oldGasPrice.Eip1559? && estimatedGasPrice.Eip1559?
    ensures r.NonEip1559? ==>
      r.gasPrice >= ApplyEscalationMultiplier(estimatedGasPrice.gasPrice, config)
    ensures r.Eip1559? ==>
      && r.maxFee >= ApplyEscalationMultiplier(estimatedGasPrice.maxFee, config)
      && r.maxPriorityFee >= ApplyEscalationMultiplier(estimatedGasPrice.maxPriorityFee, config)
  {
    match (oldGasPrice, estimatedGasPrice)
    case (None, _) => None
    case (_, None) => None
    case (NonEip1559(o), NonEip1559(n)) => NonEip1559(EscalatedPrice(o, n, config))
    case (Eip1559(oFee, oTip), Eip1559(nFee, nTip)) =>
      Eip1559(EscalatedPrice(oFee, nFee, config), EscalatedPrice(oTip, nTip, config))
    case (_, _) => None
  }
}
