/**
 Gas reimbursement of the transmitter. Decimals are fixed point numbers with 18 fractional
 digits, held as their numerator ("atomics"); every operation rounds down, and a result
 that does not fit 128 bits aborts the transaction.
 */
module Reimbursement {
  import opened Wrappers
  import opened Bytes

  const DECIMAL_FRACTIONAL: nat := 1_000_000_000_000_000_000
  const PERCENT: nat := 10_000_000_000_000_000
  const MICRO: nat := 1_000_000
  const DEFAULT_GAS_PER_SIGNATURE: uint64 := 4_096
  const DEFAULT_GAS_BASE: uint64 := 146_000
  const DEFAULT_GAS_ADJUSTMENT: byte := 140

  datatype Billing = Billing(
    recommendedGasPriceMicro: uint128,
    observationPaymentGjuels: uint64,
    transmissionPaymentGjuels: uint64,
    gasBase: Option<uint64>,
    gasPerSignature: Option<uint64>,
    gasAdjustment: Option<byte>)

  /** The quotient rounds down. */
  function DecimalMul(a: nat, b: nat): Option<uint128> {
    var product := a * b / DECIMAL_FRACTIONAL;
    if product < TWO_128 then Some(product) else None
  }

  function GasSpent(b: Billing, signatureCount: nat): Option<uint64> {
    var gas := b.gasPerSignature.UnwrapOr(DEFAULT_GAS_PER_SIGNATURE) * signatureCount
               + b.gasBase.UnwrapOr(DEFAULT_GAS_BASE);
    if gas < TWO_64 then Some(gas) else None
  }

  function CalculateReimbursement(b: Billing, juelsPerFeeCoin: uint128, signatureCount: nat): Option<uint128> {
    match GasSpent(b, signatureCount)
    case None => None
    case Some(gas) =>
      var adjustment := b.gasAdjustment.UnwrapOr(DEFAULT_GAS_ADJUSTMENT) * PERCENT;
      match DecimalMul(gas * DECIMAL_FRACTIONAL, adjustment)
      case None => None
      case Some(adjusted) =>
        var price := b.recommendedGasPriceMicro / MICRO;
        match DecimalMul(price, adjusted)
        case None => None
        case Some(cost) => DecimalMul(cost, juelsPerFeeCoin)
  }

  // ---------- arithmetic ----------

  lemma DivBounds(a: nat, d: nat)
    requires d > 0
    ensures d * (a / d) <= a < d * (a / d) + d
  {
  }

  lemma MulMono(a: nat, b: nat, c: nat, d: nat)
    requires a <= c && b <= d
    ensures a * b <= c * d
  {
    assert c * d - a * b == (c - a) * d + a * (d - b);
  }

  lemma DivMono(a: nat, b: nat, d: nat)
    requires a <= b && d > 0
    ensures a / d <= b / d
  {
    DivBounds(a, d);
    DivBounds(b, d);
    if a / d > b / d {
      MulMono(d, b / d + 1, d, a / d);
    }
  }

  /** The numerator of gas * adjustment / 100. */
  function AdjustedGas(b: Billing, gas: nat): nat {
    gas * b.gasAdjustment.UnwrapOr(DEFAULT_GAS_ADJUSTMENT)
  }

  /** Multiplying the whole gas amount by a percentage loses nothing. */
  lemma AdjustmentIsExact(gas: nat, percent: nat)
    ensures gas * DECIMAL_FRACTIONAL * (percent * PERCENT) / DECIMAL_FRACTIONAL == gas * percent * PERCENT
  {
    assert gas * DECIMAL_FRACTIONAL * (percent * PERCENT) == gas * percent * PERCENT * DECIMAL_FRACTIONAL;
  }

  lemma CostOf(price: nat, gas: nat)
    ensures price * (gas * PERCENT) / DECIMAL_FRACTIONAL == price * gas / 100
  {
    assert price * (gas * PERCENT) == price * gas * PERCENT;
    DivBounds(price * gas, 100);
    DivBounds(price * gas * PERCENT, DECIMAL_FRACTIONAL);
  }

  lemma ScaledError(price: nat, gas: nat, juels: nat, p: nat, c: nat, t: nat)
    requires p == price / MICRO && c == p * gas / 100 && t == c * juels / DECIMAL_FRACTIONAL
    ensures 100 * MICRO * DECIMAL_FRACTIONAL * t <= gas * price * juels
    ensures gas * price * juels
            < 100 * MICRO * DECIMAL_FRACTIONAL * (t + 1) + MICRO * juels * (100 + gas)
  {
    DivBounds(price, MICRO);
    DivBounds(p * gas, 100);
    DivBounds(c * juels, DECIMAL_FRACTIONAL);
    // lower bound on the exact value
    assert 100 * c * juels <= p * gas * juels by { MulMono(100 * c, juels, p * gas, juels); }
    assert MICRO * p * gas * juels <= price * gas * juels by {
      MulMono(MICRO * p, gas * juels, price, gas * juels);
      assert MICRO * p * (gas * juels) == MICRO * p * gas * juels;
      assert price * (gas * juels) == price * gas * juels;
    }
    assert MICRO * (p * gas * juels) == MICRO * p * gas * juels;
    assert price * gas * juels == gas * price * juels;
    assert 100 * (c * juels) == 100 * c * juels;
    // upper bound on the exact value
    assert p * gas * juels <= (100 * c + 100) * juels by { MulMono(p * gas, juels, 100 * c + 100, juels); }
    assert price * (gas * juels) <= (MICRO * p + MICRO) * (gas * juels) by {
      MulMono(price, gas * juels, MICRO * p + MICRO, gas * juels);
    }
    assert (100 * c + 100) * juels == 100 * (c * juels) + 100 * juels;
    assert (MICRO * p + MICRO) * (gas * juels) == MICRO * (p * gas * juels) + MICRO * (gas * juels);
    assert price * (gas * juels) == gas * price * juels;
    assert MICRO * juels * (100 + gas) == MICRO * 100 * juels + MICRO * (gas * juels);
  }

  /** Adjusting fits into 128 bits for every amount of gas that fits into 64. */
  lemma AdjustmentFits(gas: uint64, percent: byte)
    ensures DecimalMul(gas * DECIMAL_FRACTIONAL, percent * PERCENT) == Some(gas * percent * PERCENT)
  {
    AdjustmentIsExact(gas, percent);
    MulMono(gas, percent, TWO_64, TWO_8);
    assert gas * percent * PERCENT <= TWO_64 * TWO_8 * PERCENT < TWO_128;
    assert gas * DECIMAL_FRACTIONAL * (percent * PERCENT) == gas * percent * PERCENT * DECIMAL_FRACTIONAL;
  }

  /**
   There is a reimbursement exactly when the gas fits into 64 bits and the cost and the total into
   128; then it is the total, with three roundings: of the price to whole units, of the adjusted
   gas to whole units, and of the product with the price of the coin.
   */
  lemma ReimbursementIff(b: Billing, juels: uint128, count: nat)
    ensures var gas := b.gasPerSignature.UnwrapOr(4_096) * count + b.gasBase.UnwrapOr(146_000);
            var cost := b.recommendedGasPriceMicro / 1_000_000 * (gas * b.gasAdjustment.UnwrapOr(140)) / 100;
            var total := cost * juels / 1_000_000_000_000_000_000;
            var r := CalculateReimbursement(b, juels, count);
            && (r.Some? <==> gas < TWO_64 && cost < TWO_128 && total < TWO_128)
            && (r.Some? ==> r.value == total)
  {
    var gas := b.gasPerSignature.UnwrapOr(4_096) * count + b.gasBase.UnwrapOr(146_000);
    if gas < TWO_64 {
      AdjustmentFits(gas, b.gasAdjustment.UnwrapOr(140));
      CostOf(b.recommendedGasPriceMicro / MICRO, AdjustedGas(b, gas));
    }
  }

  lemma ErrorOf(price: nat, charged: nat, juels: nat, r: nat)
    requires r == price / 1_000_000 * charged / 100 * juels / 1_000_000_000_000_000_000
    ensures 100 * 1_000_000 * 1_000_000_000_000_000_000 * r <= charged * price * juels
    ensures charged * price * juels
            < 100 * 1_000_000 * 1_000_000_000_000_000_000 * (r + 1) + 1_000_000 * juels * (100 + charged)
  {
    var p := price / MICRO;
    ScaledError(price, charged, juels, p, p * charged / 100, r);
  }

  /**
   With E = gas * (adjustment / 100) * (price / 10^6) * (juels per coin) the exact amount,
   the reimbursement R satisfies R <= E and E - R < 1 + (juels / 10^18) * (1 + gas * adjustment / 100).
   Both sides are scaled by 100 * 10^6 * 10^18 to stay in the integers.
   */
  lemma ErrorBound(b: Billing, juels: uint128, count: nat)
    requires CalculateReimbursement(b, juels, count).Some?
    ensures var r := CalculateReimbursement(b, juels, count).value;
            var charged := (b.gasPerSignature.UnwrapOr(4_096) * count + b.gasBase.UnwrapOr(146_000))
                           * b.gasAdjustment.UnwrapOr(140);
            var exact := charged * b.recommendedGasPriceMicro * juels;
            var scale := 100 * 1_000_000 * 1_000_000_000_000_000_000;
            scale * r <= exact < scale * (r + 1) + 1_000_000 * juels * (100 + charged)
  {
    ReimbursementIff(b, juels, count);
    hide CalculateReimbursement, DecimalMul;
    ErrorOf(b.recommendedGasPriceMicro,
            (b.gasPerSignature.UnwrapOr(4_096) * count + b.gasBase.UnwrapOr(146_000)) * b.gasAdjustment.UnwrapOr(140),
            juels, CalculateReimbursement(b, juels, count).value);
  }

  /** No argument can grow without the reimbursement growing or staying, unless the larger one aborts. */
  lemma Monotone(b: Billing, juels: uint128, count: nat, b': Billing, juels': uint128, count': nat)
    requires CalculateReimbursement(b', juels', count').Some?
    requires b.recommendedGasPriceMicro <= b'.recommendedGasPriceMicro && juels <= juels' && count <= count'
    requires b.gasPerSignature.UnwrapOr(DEFAULT_GAS_PER_SIGNATURE)
             <= b'.gasPerSignature.UnwrapOr(DEFAULT_GAS_PER_SIGNATURE)
    requires b.gasBase.UnwrapOr(DEFAULT_GAS_BASE) <= b'.gasBase.UnwrapOr(DEFAULT_GAS_BASE)
    requires b.gasAdjustment.UnwrapOr(DEFAULT_GAS_ADJUSTMENT) <= b'.gasAdjustment.UnwrapOr(DEFAULT_GAS_ADJUSTMENT)
    ensures CalculateReimbursement(b, juels, count).Some?
    ensures CalculateReimbursement(b, juels, count).value <= CalculateReimbursement(b', juels', count').value
  {
    MulMono(b.gasPerSignature.UnwrapOr(DEFAULT_GAS_PER_SIGNATURE), count,
            b'.gasPerSignature.UnwrapOr(DEFAULT_GAS_PER_SIGNATURE), count');
    var gas, gas' := GasSpent(b, count).value, GasSpent(b', count').value;
    var a, a' := b.gasAdjustment.UnwrapOr(DEFAULT_GAS_ADJUSTMENT), b'.gasAdjustment.UnwrapOr(DEFAULT_GAS_ADJUSTMENT);
    MulMono(gas * DECIMAL_FRACTIONAL, a * PERCENT, gas' * DECIMAL_FRACTIONAL, a' * PERCENT);
    MulStep(gas * DECIMAL_FRACTIONAL, a * PERCENT, gas' * DECIMAL_FRACTIONAL, a' * PERCENT);
    var adjusted := DecimalMul(gas * DECIMAL_FRACTIONAL, a * PERCENT).value;
    var adjusted' := DecimalMul(gas' * DECIMAL_FRACTIONAL, a' * PERCENT).value;
    DivMono(b.recommendedGasPriceMicro, b'.recommendedGasPriceMicro, MICRO);
    var p, p' := b.recommendedGasPriceMicro / MICRO, b'.recommendedGasPriceMicro / MICRO;
    MulStep(p, adjusted, p', adjusted');
    MulStep(DecimalMul(p, adjusted).value, juels, DecimalMul(p', adjusted').value, juels');
  }

  lemma MulStep(x: nat, y: nat, x': nat, y': nat)
    requires x <= x' && y <= y' && DecimalMul(x', y').Some?
    ensures DecimalMul(x, y).Some? && DecimalMul(x, y).value <= DecimalMul(x', y').value
  {
    MulMono(x, y, x', y');
    DivMono(x * y, x' * y', DECIMAL_FRACTIONAL);
  }
}
