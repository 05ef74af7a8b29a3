// A PoolManager swap answers with two signed 128-bit amounts packed into one signed 256-bit word.
module DeltaPacking {
  import opened Evm

  const TWO_128: int := 0x1_0000_0000_0000_0000_0000_0000_0000_0000

  predicate IsInt128(x: int) { MIN_INT128 <= x <= MAX_INT128 }

  predicate IsInt256(x: int) { -MAX_INT256 - 1 <= x <= MAX_INT256 }

  /** The low 128 bits of a word. */
  function LowWord(x: int): nat { x % TWO_128 }

  /** The word the manager returns: amount0 in the high half, the bits of amount1 in the low half. */
  function Pack(amount0: int, amount1: int): int {
    amount0 * TWO_128 + LowWord(amount1)
  }

  /** `int128(delta >> 128)`: the shift is arithmetic, so it rounds towards minus infinity. */
  function Amount0(delta: int): int { delta / TWO_128 }

  /** `int128(delta)`: truncation to the low 128 bits, read as two's complement. */
  function Amount1(delta: int): int {
    if LowWord(delta) <= MAX_INT128 then LowWord(delta) else LowWord(delta) - TWO_128
  }

  /** Splitting a packed delta recovers every pair of int128 amounts. */
  lemma UnpackPack(amount0: int, amount1: int)
    requires IsInt128(amount0) && IsInt128(amount1)
    ensures IsInt256(Pack(amount0, amount1))
    ensures Amount0(Pack(amount0, amount1)) == amount0
    ensures Amount1(Pack(amount0, amount1)) == amount1
  {
    var low := LowWord(amount1);
    DivMod(amount0, low);
    if amount1 >= 0 {
      DivMod(0, amount1);
    } else {
      DivMod(-1, amount1 + TWO_128);
    }
  }

  /** Every word is the packing of exactly the pair it splits into. */
  lemma PackUnpack(delta: int)
    requires IsInt256(delta)
    ensures IsInt128(Amount0(delta)) && IsInt128(Amount1(delta))
    ensures Pack(Amount0(delta), Amount1(delta)) == delta
  {
    var low := LowWord(delta);
    assert delta == Amount0(delta) * TWO_128 + low;
    if low <= MAX_INT128 {
      DivMod(0, low);
    } else {
      DivMod(-1, low);
    }
  }

  lemma DivMod(q: int, r: int)
    requires 0 <= r < TWO_128
    ensures (q * TWO_128 + r) / TWO_128 == q
    ensures (q * TWO_128 + r) % TWO_128 == r
  {
  }

  /** `_validateV4Delta` and `_validateExactInputDelta`: the manager must have taken exactly
      `expectedInput` and given something back. Negating int128.min is a checked-arithmetic panic. */
  function ValidateV4Delta(delta: int, zeroForOne: bool, expectedInput: nat): Outcome<nat> {
    var inputDelta := if zeroForOne then Amount0(delta) else Amount1(delta);
    var outputDelta := if zeroForOne then Amount1(delta) else Amount0(delta);
    if inputDelta >= 0 || outputDelta <= 0 then Err(InvalidSwapDelta)
    else if inputDelta == MIN_INT128 then Err(Panic)
    else if -inputDelta != expectedInput then Err(InvalidSwapDelta)
    else Ok(outputDelta)
  }

  /** A v3 pool took exactly `x` and paid something. */
  predicate V3SignsOk(amount0: int, amount1: int, zeroForOne: bool, x: nat) {
    var inputDelta := if zeroForOne then amount0 else amount1;
    var outputDelta := if zeroForOne then amount1 else amount0;
    0 < inputDelta && outputDelta < 0 && inputDelta == x
  }

  /** The check on signed v3 deltas after a swap: the output is negated, which panics for int256.min. */
  function ValidateV3Delta(amount0: int, amount1: int, zeroForOne: bool, x: nat): Outcome<nat> {
    var outputDelta := if zeroForOne then amount1 else amount0;
    if !V3SignsOk(amount0, amount1, zeroForOne, x) then Err(InvalidSwapDelta)
    else if -outputDelta > MAX_INT256 then Err(Panic)
    else Ok(-outputDelta)
  }

  /** The casts and the negation lose nothing: for every pair a pool can report, and every admitted
      input, validation succeeds exactly when the pool took that input and paid something, and the
      validated output is the pool's own number. */
  lemma ValidationIsExact(amount0: int, amount1: int, zeroForOne: bool, expectedInput: nat, output: nat)
    requires IsInt128(amount0) && IsInt128(amount1) && expectedInput <= MAX_INT128
    ensures ValidateV4Delta(Pack(amount0, amount1), zeroForOne, expectedInput) == Ok(output)
            <==> 0 < expectedInput && 0 < output
                 && (if zeroForOne then amount0 + expectedInput == 0 && amount1 == output
                     else amount1 + expectedInput == 0 && amount0 == output)
    ensures ValidateV4Delta(Pack(amount0, amount1), zeroForOne, expectedInput) == Ok(output)
            ==> output <= MAX_INT128
  {
    UnpackPack(amount0, amount1);
  }
}
