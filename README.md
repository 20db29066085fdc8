# Gas-price escalator (Ethereum adapter of the lander)

A Dafny model of the gas-price escalator of the lander's Ethereum adapter
(`escalator.rs`). When a transaction is still pending and must be
resubmitted, the escalator takes the gas price of the previous attempt and a
fresh oracle estimate, and computes the price of the replacement:

- a `GasPrice` is `None` (no price set), `NonEip1559(gasPrice)` (legacy and
  EIP-2930 transactions) or `Eip1559(maxFee, maxPriorityFee)` (the fee cap and
  priority tip of the EIP-1559 fee market);
- if either side is `None`, or the two use different schemes, the result is
  `None`; otherwise every component is escalated on its own;
- one component is escalated by blending old and new price with the TWAP
  weights (`(old * h + new * c) / (h + c)`, floor division), multiplying both the
  blend and the fresh estimate by `numerator / denominator` (floor division),
  and taking the larger;
- the configuration is the default 110/100 with weights 3:1, or is built
  field by field from the optional overrides of a destination chain.

Files:

- `escalator.dfy` (module `Escalator`): the types, the configuration, and the
  three operations as functions.
- `escalator_properties.dfy` (module `EscalatorProperties`): lemmas relating
  several calls. They cover the oracle floor, an upper bound, monotonicity,
  the independence of the EIP-1559 components, absence propagation, scheme
  mismatch, repeated escalation (bounded for a damped configuration, unbounded
  for the override test configuration), the override constructor, and the
  regression values of the source's tests.
- `arith.dfy` (module `Arith`): facts about products and floor division of naturals.
- `wrappers.dfy` (module `Wrappers`): an `Option` type for the overrides.

`U256` is a natural below 2^256 and the configuration fields are naturals
below 2^32. In the source, `U256` multiplication and addition panic on
overflow and division panics on a zero divisor. In the model, each of these
panics is a precondition instead. `Escalatable` holds exactly when
`get_escalated_price_from_old_and_new` returns normally: both divisors are
non-zero, `old * h + new * c` fits, and so do `new * numerator` and
`blend * numerator`. `EscalationDefined` lifts it through the scheme dispatch.
The `None` and mismatch branches demand nothing of the configuration, as in the
source. The `as_u32()` narrowing of the overrides becomes the precondition
`OverridesFitU32`.

The doc comment on `escalate_gas_price_if_needed`
(rust/main/lander/src/adapter/chains/ethereum/adapter/gas_price/escalator.rs:56)
describes the result as the larger of the new estimate and 1.1 times the old
price. The code computes something else: the larger of the multiplied TWAP
blend and the multiplied estimate. The model follows the code.
`BelowMultipliedOldPrice` gives an input whose result is below 1.1 times the
old price. That result is even below the old price itself, so a falling
estimate can make the "escalation" lower the price of the replacement. The
bounds the code does keep are stated by `OracleFloor` and
`EscalatedAtMostMultipliedMax`.

The comment at
rust/main/lander/src/adapter/chains/ethereum/adapter/gas_price/escalator.rs:148-151
says the blend keeps the price from growing without bound when estimates are
volatile. The model proves boundedness through an absorbing bound, the
predicate `AbsorbingBound`. A `bound` is absorbing for estimates up to `cap`
when `cap * numerator <= bound * denominator` and
`bound * h * numerator + cap * c * numerator <= bound * (h + c) * denominator`.
These are the two escalation candidates computed exactly, before the floors.
An absorbing bound is a sufficient condition for a bound that escalation
never leaves while the estimates stay within the cap
(`ResubmissionsStayBounded`). It is not a necessary one, because the floor
divisions can keep prices within small bounds that do not meet it.
`FloorsKeepSmallPricesBounded` gives an example: under 120/100 with weights
5:1, prices stay within 4 for estimates up to 4, but 4 is not an absorbing
bound for cap 4.

A configuration is damped when
`history_weight * numerator < (history_weight + current_weight) * denominator`.
For a positive cap, a bound meeting the condition exists exactly when the
configuration is damped or its multiplier is at most one
(`DampedHasAbsorbingBound`, `MultiplierAtMostOneHasAbsorbingBound`,
`AbsorbingBoundNeedsDampingOrUnitMultiplier`). For configurations with
positive current weight and numerator, such a bound exists exactly when the
configuration is damped (`UndampedHasNoAbsorbingBound`, for a positive cap).

The default (330 < 400) is damped, and `DefaultResubmissionsStayWithinTwiceCap`
proves the bound for it. The override path enforces neither condition. The
configuration of the source's own override test, 200/100 with weights 1:1, is
neither damped nor at most one. Under it, the price provably grows:
`OverrideTestResubmissionsGrow` shows that every resubmission against an
estimate of at least 2 raises the price, and `OverrideTestChainExample` gives
the chain 100, 200, 300, 400 for a constant estimate of 100. For the remaining
configurations without an absorbing bound, the model proves neither growth nor
a bound.

The source does not check that the denominator or the sum of the weights is
non-zero. The model makes both preconditions (`NonZeroDivisors`).
`OverridesDivisorsNonZero` states exactly which overrides break them: a zero
denominator, or both weights overridden with zero.

## Model

| member | source | states |
|---|---|---|
| `Escalator.DefaultConfig` | rust/main/lander/src/adapter/chains/ethereum/adapter/gas_price/escalator.rs:21-30 | the default configuration divides by non-zero values, its multiplier exceeds one and it weights history above the current price |
| `Escalator.FromOverrides` | rust/main/lander/src/adapter/chains/ethereum/adapter/gas_price/escalator.rs:32-54 | each of the four fields is its own override when set and the default's field otherwise, independently of the other three |
| `Escalator.ApplyEscalationMultiplier` | rust/main/lander/src/adapter/chains/ethereum/adapter/gas_price/escalator.rs:164-168 | the result is the floor of `price * numerator / denominator`: its product with the denominator is at most `price * numerator` and the next value's exceeds it |
| `Escalator.Blend` | rust/main/lander/src/adapter/chains/ethereum/adapter/gas_price/escalator.rs:152-155 | the blend is the floor of the weighted mean of old and new price, and lies between the two prices |
| `Escalator.EscalatedPrice` | rust/main/lander/src/adapter/chains/ethereum/adapter/gas_price/escalator.rs:143-162 | the escalated scalar is at least the multiplied blend and at least the multiplied estimate, and equals one of the two |
| `Escalator.EscalateGasPriceIfNeeded` | rust/main/lander/src/adapter/chains/ethereum/adapter/gas_price/escalator.rs:57-141 | the result is `None` exactly when the schemes differ or a side is `None`; it is legacy exactly when both inputs are legacy and EIP-1559 exactly when both are; every component is at least the multiplied estimate of that component |
| `EscalatorProperties.OracleFloor` | rust/main/lander/src/adapter/chains/ethereum/adapter/gas_price/escalator.rs:159-161 | `new * numerator < (result + 1) * denominator`; with a multiplier of at least one, the result is at least the fresh estimate |
| `EscalatorProperties.EscalatedAtMostMultipliedMax` | rust/main/lander/src/adapter/chains/ethereum/adapter/gas_price/escalator.rs:148-161 | `result * denominator <= max(old, new) * numerator`: the escalation never exceeds the multiplied larger price |
| `EscalatorProperties.ZeroDelta` | rust/main/lander/src/adapter/chains/ethereum/adapter/gas_price/escalator.rs:152-161 | when old and new price are equal, the blend is that price and the result is that price times the multiplier |
| `EscalatorProperties.MultiplierMonotone` | rust/main/lander/src/adapter/chains/ethereum/adapter/gas_price/escalator.rs:164-168 | the multiplier step is monotone in the price |
| `EscalatorProperties.BlendMonotone` | rust/main/lander/src/adapter/chains/ethereum/adapter/gas_price/escalator.rs:152-155 | the blend is monotone in both the old and the new price |
| `EscalatorProperties.EscalatedMonotone` | rust/main/lander/src/adapter/chains/ethereum/adapter/gas_price/escalator.rs:143-162 | a higher old price or a higher estimate never lowers the escalated scalar |
| `EscalatorProperties.HistoryCandidateBounded` | rust/main/lander/src/adapter/chains/ethereum/adapter/gas_price/escalator.rs:148-159 | the multiplied blend of a price within an absorbing bound and an estimate within the cap stays within the bound |
| `EscalatorProperties.EscalationStepBounded` | rust/main/lander/src/adapter/chains/ethereum/adapter/gas_price/escalator.rs:148-161 | one escalation from a price within an absorbing bound, with an estimate within the cap, stays within the bound |
| `EscalatorProperties.ResubmissionsStayBounded` | rust/main/lander/src/adapter/chains/ethereum/adapter/gas_price/escalator.rs:148-151 | along any chain of resubmissions whose estimates stay within a cap, every price stays within an absorbing bound it started in (the sufficient condition before the floors); such a bound exists for a damped configuration, where the blend stops the price from growing without bound |
| `EscalatorProperties.DampedHasAbsorbingBound` | rust/main/lander/src/adapter/chains/ethereum/adapter/gas_price/escalator.rs:152-161 | when `h * numerator < (h + c) * denominator`, every cap has an absorbing bound, `cap * c * numerator + cap * numerator` |
| `EscalatorProperties.MultiplierAtMostOneHasAbsorbingBound` | rust/main/lander/src/adapter/chains/ethereum/adapter/gas_price/escalator.rs:152-167 | when `numerator <= denominator`, the cap itself is an absorbing bound, whatever the weights |
| `EscalatorProperties.AbsorbingBoundNeedsDampingOrUnitMultiplier` | rust/main/lander/src/adapter/chains/ethereum/adapter/gas_price/escalator.rs:152-167 | for a positive cap and non-zero divisors, a bound meeting the condition `AbsorbingBound` (before the floors) exists only if the configuration is damped or `numerator <= denominator` |
| `EscalatorProperties.UndampedHasNoAbsorbingBound` | rust/main/lander/src/adapter/chains/ethereum/adapter/gas_price/escalator.rs:152-161 | when `h * numerator >= (h + c) * denominator` and the current weight, numerator and cap are positive, no bound meets the condition `AbsorbingBound` (before the floors) |
| `EscalatorProperties.FloorsKeepSmallPricesBounded` | rust/main/lander/src/adapter/chains/ethereum/adapter/gas_price/escalator.rs:152-167 | under 120/100 with weights 5:1, which is undamped, escalation from a price of at most 4 against an estimate of at most 4 stays within 4, while 4 is not an absorbing bound for cap 4: the floors make the condition sufficient but not necessary |
| `EscalatorProperties.OverrideTestConfig` | rust/main/lander/src/adapter/chains/ethereum/adapter/gas_price/escalator.rs:189-192 | the override test configuration 200/100 with weights 1:1 has non-zero divisors and is not damped |
| `EscalatorProperties.OverrideTestStepGrows` | rust/main/lander/src/adapter/chains/ethereum/adapter/gas_price/escalator.rs:143-162 | under the override test configuration, one escalation yields at least `old + new - 1` |
| `EscalatorProperties.OverrideTestResubmissionsGrow` | rust/main/lander/src/adapter/chains/ethereum/adapter/gas_price/escalator.rs:148-151 | under the override test configuration, with estimates of at least 2, the price after `i` resubmissions is at least `i` above the first: the boundedness the comment promises fails for this undamped configuration |
| `EscalatorProperties.OverrideTestChainExample` | rust/main/lander/src/adapter/chains/ethereum/adapter/gas_price/escalator.rs:143-162 | under the override test configuration, a constant estimate of 100 takes the price 100, 200, 300, 400 |
| `EscalatorProperties.DefaultResubmissionsStayWithinTwiceCap` | rust/main/lander/src/adapter/chains/ethereum/adapter/gas_price/escalator.rs:143-162 | with the default configuration (escalator.rs:21-30), resubmissions starting within twice the highest estimate stay within twice the highest estimate |
| `EscalatorProperties.AbsencePropagates` | rust/main/lander/src/adapter/chains/ethereum/adapter/gas_price/escalator.rs:64-81 | a `None` old price or a `None` estimate yields `None`, whatever the other side and the configuration |
| `EscalatorProperties.SchemeMismatchYieldsNone` | rust/main/lander/src/adapter/chains/ethereum/adapter/gas_price/escalator.rs:136-139 | a legacy price paired with an EIP-1559 price, in either order, yields `None` |
| `EscalatorProperties.LegacyEscalation` | rust/main/lander/src/adapter/chains/ethereum/adapter/gas_price/escalator.rs:82-102 | two legacy prices escalate to the legacy price of the escalated scalar pair |
| `EscalatorProperties.MaxFeeIndependentOfTip` | rust/main/lander/src/adapter/chains/ethereum/adapter/gas_price/escalator.rs:113-114 | the escalated fee cap is the escalation of the two fee caps alone; changing the tips leaves it unchanged |
| `EscalatorProperties.TipIndependentOfMaxFee` | rust/main/lander/src/adapter/chains/ethereum/adapter/gas_price/escalator.rs:116-120 | the escalated tip is the escalation of the two tips alone; changing the fee caps leaves it unchanged |
| `EscalatorProperties.EscalationMonotoneInEstimate` | rust/main/lander/src/adapter/chains/ethereum/adapter/gas_price/escalator.rs:57-141 | for a fixed old price, raising the estimate component-wise never lowers any component of the escalated price |
| `EscalatorProperties.DefaultConfigValues` | rust/main/lander/src/adapter/chains/ethereum/adapter/gas_price/escalator.rs:21-30 | the default configuration is exactly 110/100 with weights 3:1, and it is damped |
| `EscalatorProperties.NoOverridesGiveDefault` | rust/main/lander/src/adapter/chains/ethereum/adapter/gas_price/escalator.rs:32-54 | overrides that set nothing give the default configuration |
| `EscalatorProperties.AllOverridesTakeEffect` | rust/main/lander/src/adapter/chains/ethereum/adapter/gas_price/escalator.rs:32-54 | overrides that set all four fields give exactly those four values |
| `EscalatorProperties.OverrideTestValues` | rust/main/lander/src/adapter/chains/ethereum/adapter/gas_price/escalator.rs:186-200 | overrides 200, 100, 1, 1 give the configuration {200, 100, 1, 1} |
| `EscalatorProperties.OverridesDivisorsNonZero` | rust/main/lander/src/adapter/chains/ethereum/adapter/gas_price/escalator.rs:32-54 | a configuration built from overrides has non-zero divisors exactly when the denominator is not overridden with zero and the two weights are not both overridden with zero |
| `EscalatorProperties.DefaultRegressionValue` | rust/main/lander/src/adapter/chains/ethereum/adapter/gas_price/escalator.rs:174-184 | with the default configuration, old price 200000 and estimate 219000 blend to 204750 and escalate to exactly 240900 |
| `EscalatorProperties.BelowMultipliedOldPrice` | rust/main/lander/src/adapter/chains/ethereum/adapter/gas_price/escalator.rs:56-61 | with the default configuration, old price 200000 and estimate 100000 escalate to 192500, below 1.1 times the old price and below the old price itself |

## Left out

- The `info!`, `debug!` and `error!` diagnostics. They are observability side effects and do not affect the result.
- The imports the file does not use (`TypedTransaction`, its variants, `EthereumTxPrecursor`).
- `GasPrice` is defined in `price.rs`, which is not part of this model. Its three variants are modelled from their use in the escalator.
- `TransactionOverrides` has fields other than the four escalator overrides. The escalator never reads them, so the model leaves them out.
- The internal representation of `U256` is not modelled. It is a bounded natural instead.
- Panics are not modelled as a result value. An overflowing `U256` product or sum, a zero divisor, and an override that does not fit in `u32` become preconditions (`Escalatable`, `EscalationDefined`, `NonZeroDivisors`, `OverridesFitU32`). The model therefore says nothing about the panicking inputs beyond the exact condition that excludes them.
