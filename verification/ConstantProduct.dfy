// Uniswap v2 arithmetic: the output the executor asks a pair for, and the check the pair makes
// (Uniswap v2 Core whitepaper, section 3.2.1).
module ConstantProduct {
  import opened Evm

  const FEE_NUMERATOR: nat := 997
  const FEE_DENOMINATOR: nat := 1000

  /** What the executor asks the pair for. */
  function AmountOut(amountIn: nat, reserveIn: nat, reserveOut: nat): nat
    requires 0 < amountIn
  {
    FloorQuotient(amountIn * FEE_NUMERATOR * reserveOut, reserveIn * FEE_DENOMINATOR + amountIn * FEE_NUMERATOR)
  }

  function FloorQuotient(numerator: nat, denominator: nat): nat
    requires 0 < denominator
  {
    numerator / denominator
  }

  /** The pair's fee-adjusted product check when `amountIn` arrives and `out` leaves. */
  predicate ProductCheck(amountIn: nat, reserveIn: nat, reserveOut: nat, out: nat) {
    (FEE_DENOMINATOR * (reserveIn + amountIn) - 3 * amountIn) * (FEE_DENOMINATOR * (reserveOut - out))
    >= FEE_DENOMINATOR * FEE_DENOMINATOR * (reserveIn * reserveOut)
  }

  /** The output is the largest integer the pair accepts: the check holds up to it and not beyond. */
  lemma AmountOutIsLargest(amountIn: nat, reserveIn: nat, reserveOut: nat, out: nat)
    requires 0 < amountIn && out <= reserveOut
    ensures ProductCheck(amountIn, reserveIn, reserveOut, out) <==> out <= AmountOut(amountIn, reserveIn, reserveOut)
  {
    var fee := amountIn * FEE_NUMERATOR;
    var d := reserveIn * FEE_DENOMINATOR + fee;
    FloorBound(fee * reserveOut, d, out);
    var lhs := FEE_DENOMINATOR * (reserveIn + amountIn) - 3 * amountIn;
    assert lhs == d;
    assert d * (FEE_DENOMINATOR * (reserveOut - out)) == FEE_DENOMINATOR * (d * reserveOut - d * out) by {
      assert d * (FEE_DENOMINATOR * (reserveOut - out)) == FEE_DENOMINATOR * (d * (reserveOut - out));
      assert d * (reserveOut - out) == d * reserveOut - d * out;
    }
    assert d * reserveOut == FEE_DENOMINATOR * (reserveIn * reserveOut) + fee * reserveOut by {
      assert (reserveIn * FEE_DENOMINATOR) * reserveOut == FEE_DENOMINATOR * (reserveIn * reserveOut);
    }
    assert out * d == d * out;
  }

  lemma FloorBound(n: nat, d: nat, q: nat)
    requires 0 < d
    ensures q <= FloorQuotient(n, d) <==> q * d <= n
  {
    assert n == (n / d) * d + n % d;
    if q <= n / d {
      MulMonotone(q, n / d, d);
    } else {
      MulMonotone(n / d + 1, q, d);
      assert (n / d + 1) * d == (n / d) * d + d;
    }
  }

  lemma MulMonotone(a: int, b: int, c: nat)
    requires a <= b
    ensures a * c <= b * c
  {
    assert b * c - a * c == (b - a) * c;
    assert 0 <= (b - a) * c;
  }

  /** A larger input never buys less. */
  lemma AmountOutIsMonotone(x: nat, y: nat, reserveIn: nat, reserveOut: nat)
    requires 0 < x <= y
    ensures AmountOut(x, reserveIn, reserveOut) <= AmountOut(y, reserveIn, reserveOut)
  {
    var q := AmountOut(x, reserveIn, reserveOut);
    AmountOutWithinReserve(x, reserveIn, reserveOut);
    FloorBound(x * FEE_NUMERATOR * reserveOut, reserveIn * FEE_DENOMINATOR + x * FEE_NUMERATOR, q);
    FloorBound(y * FEE_NUMERATOR * reserveOut, reserveIn * FEE_DENOMINATOR + y * FEE_NUMERATOR, q);
    var r := reserveIn * FEE_DENOMINATOR;
    var fx, fy := x * FEE_NUMERATOR, y * FEE_NUMERATOR;
    assert q * (r + fy) - q * (r + fx) == q * (fy - fx);
    MulMonotone(q, reserveOut, fy - fx);
    assert reserveOut * (fy - fx) == fy * reserveOut - fx * reserveOut;
  }

  /** The output never exceeds the output reserve. */
  lemma AmountOutWithinReserve(amountIn: nat, reserveIn: nat, reserveOut: nat)
    requires 0 < amountIn
    ensures AmountOut(amountIn, reserveIn, reserveOut) <= reserveOut
  {
    var fee := amountIn * FEE_NUMERATOR;
    var d := reserveIn * FEE_DENOMINATOR + fee;
    FloorBound(fee * reserveOut, d, reserveOut + 1);
    assert (reserveOut + 1) * d == reserveOut * (reserveIn * FEE_DENOMINATOR) + reserveOut * fee + d;
    assert 0 <= reserveOut * (reserveIn * FEE_DENOMINATOR);
  }

  /** It empties the output reserve exactly when the input reserve is empty. */
  lemma AmountOutBelowReserve(amountIn: nat, reserveIn: nat, reserveOut: nat)
    requires 0 < amountIn && 0 < reserveOut
    ensures AmountOut(amountIn, reserveIn, reserveOut) < reserveOut <==> 0 < reserveIn
  {
    var fee := amountIn * FEE_NUMERATOR;
    var d := reserveIn * FEE_DENOMINATOR + fee;
    FloorBound(fee * reserveOut, d, reserveOut);
    assert reserveOut * d == reserveOut * (reserveIn * FEE_DENOMINATOR) + fee * reserveOut;
    if 0 < reserveIn {
      MulMonotone(1, reserveIn * FEE_DENOMINATOR, reserveOut);
    }
  }

  /** For every amount the executor admits and every pair of uint112 reserves, no intermediate value of
      the formula leaves uint256, so computing it on unbounded integers is faithful. */
  lemma FormulaFitsUint256(amountIn: nat, reserveIn: nat, reserveOut: nat)
    requires 0 < amountIn <= MAX_INT128 && reserveIn <= MAX_UINT112 && reserveOut <= MAX_UINT112
    ensures amountIn * FEE_NUMERATOR * reserveOut <= MAX_UINT256
    ensures reserveIn * FEE_DENOMINATOR + amountIn * FEE_NUMERATOR <= MAX_UINT256
  {
    MulMonotone(reserveOut, MAX_UINT112, amountIn * FEE_NUMERATOR);
    assert amountIn * FEE_NUMERATOR * reserveOut == reserveOut * (amountIn * FEE_NUMERATOR);
  }

  /** A swap that passes the pair's check never lowers the reserve product. */
  lemma ProductNeverFalls(amountIn: nat, reserveIn: nat, reserveOut: nat, out: nat)
    requires out <= reserveOut && ProductCheck(amountIn, reserveIn, reserveOut, out)
    ensures (reserveIn + amountIn) * (reserveOut - out) >= reserveIn * reserveOut
  {
    var a := reserveIn + amountIn;
    var b := reserveOut - out;
    var k := FEE_DENOMINATOR * FEE_DENOMINATOR;
    MulMonotone(FEE_DENOMINATOR * a - 3 * amountIn, FEE_DENOMINATOR * a, FEE_DENOMINATOR * b);
    assert (FEE_DENOMINATOR * a) * (FEE_DENOMINATOR * b) == k * (a * b);
  }
}
