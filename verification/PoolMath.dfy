/** The pool's integer formulas, as the checks of `UDTswap_udt_based.c` apply them. */
module PoolMath {
  import opened Numbers

  const THOUSAND: nat := 0x3e8
  const LIQUIDITY_POOL_EXCEPT_FEE: nat := 0x3e5

  /** Input that the exact-output test asks for. */
  function InputFor(inRes: nat, outRes: nat, output: nat): nat
    requires output < outRes
  {
    var cost: nat := inRes * THOUSAND * output;
    FloorIsNat(cost, (outRes - output) * LIQUIDITY_POOL_EXCEPT_FEE);
    cost / ((outRes - output) * LIQUIDITY_POOL_EXCEPT_FEE) + 1
  }

  /** Output that the exact-input test grants. */
  function OutputFor(inRes: nat, outRes: nat, input: nat): nat
    requires inRes > 0 || input > 0
  {
    var fed := input * LIQUIDITY_POOL_EXCEPT_FEE;
    var gain: nat := fed * outRes;
    FloorIsNat(gain, inRes * THOUSAND + fed);
    gain / (inRes * THOUSAND + fed)
  }

  /** Second asset due for a deposit of `amount1`. */
  function SecondAmount(res1: nat, res2: nat, amount1: nat): nat
    requires res1 > 0
  {
    FloorIsNat(res2 * amount1, res1);
    res2 * amount1 / res1 + 1
  }

  /** Liquidity minted for a deposit of `amount1`. */
  function Minted(res1: nat, liquidity: nat, amount1: nat): nat
    requires res1 > 0
  {
    FloorIsNat(liquidity * amount1, res1);
    liquidity * amount1 / res1
  }

  /** Asset paid out for burning `burned` of `liquidity`. */
  function Payout(res: nat, liquidity: nat, burned: nat): nat
    requires liquidity > 0
  {
    FloorIsNat(burned * res, liquidity);
    burned * res / liquidity
  }

  predicate SwapFormula(inRes: nat, outRes: nat, input: nat, output: nat) {
    && output < outRes
    && (inRes > 0 || input > 0)
    && (input == InputFor(inRes, outRes, output) || output == OutputFor(inRes, outRes, input))
  }

  predicate AddFormula(res1: nat, res2: nat, liquidity: nat, amount1: nat, amount2: nat, minted: nat) {
    && res1 > 0
    && amount2 == SecondAmount(res1, res2, amount1)
    && minted == Minted(res1, liquidity, amount1)
  }

  predicate RemoveFormula(res1: nat, res2: nat, liquidity: nat, amount1: nat, amount2: nat, burned: nat) {
    && liquidity > 0
    && amount1 == Payout(res1, liquidity, burned)
    && amount2 == Payout(res2, liquidity, burned)
  }

  // ----- the two swap tests

  /** What the fee-adjusted product law needs, with the division cleared. */
  ghost predicate Covered(inRes: nat, outRes: nat, input: nat, output: nat) {
    output <= outRes && 997 * input * (outRes - output) >= 1000 * inRes * output
  }

  /** An output is granted exactly when the cleared inequality holds. */
  lemma GrantedIffCovered(inRes: nat, outRes: nat, input: nat, output: nat)
    requires inRes > 0 || input > 0
    requires output <= outRes
    ensures output <= OutputFor(inRes, outRes, input) <==> Covered(inRes, outRes, input, output)
  {
    var fed := input * 997;
    FloorAtLeast(fed * outRes, inRes * 1000 + fed, output);
    calc {
      fed * outRes - (inRes * 1000 + fed) * output;
      fed * outRes - inRes * 1000 * output - fed * output;
      fed * (outRes - output) - 1000 * inRes * output;
    }
  }

  /** The required input minus one is the floor of the exact price. */
  lemma CostIffCovered(inRes: nat, outRes: nat, input: nat, output: nat)
    requires output < outRes
    ensures input >= InputFor(inRes, outRes, output) ==> Covered(inRes, outRes, input, output)
    ensures Covered(inRes, outRes, input, output) ==> input >= InputFor(inRes, outRes, output) - 1
  {
    var num, den: nat := inRes * THOUSAND * output, (outRes - output) * LIQUIDITY_POOL_EXCEPT_FEE;
    CoveredCleared(inRes, outRes, input, output);
    FloorVersus(num, den, input);
  }

  lemma CoveredCleared(inRes: nat, outRes: nat, input: nat, output: nat)
    requires output < outRes
    ensures Covered(inRes, outRes, input, output)
       <==> ((outRes - output) * LIQUIDITY_POOL_EXCEPT_FEE) * input >= inRes * THOUSAND * output
  {
    MulSwap3(LIQUIDITY_POOL_EXCEPT_FEE, input, outRes - output);
  }

  lemma FloorVersus(num: nat, den: nat, input: nat)
    requires den > 0
    ensures input >= num / den + 1 ==> den * input >= num
    ensures den * input >= num ==> input >= num / den
  {
    FloorBounds(num, den);
    if input >= num / den + 1 {
      MulMono(den, num / den + 1, input);
    } else if input < num / den {
      MulMono(den, input + 1, num / den);
    }
  }

  lemma MulSwap3(a: int, b: int, c: int)
    ensures a * b * c == (c * a) * b
  {
  }

  // ----- the formulas without division

  /** `x` is the floor of `num / den`, told without dividing. */
  lemma FloorIs(num: nat, den: nat, x: int)
    requires den > 0
    ensures x == num / den <==> den * x <= num < den * (x + 1)
  {
    FloorBounds(num, den);
    if den * x <= num < den * (x + 1) {
      assert den * x + den == den * (x + 1);
      DivModUnique(num, den, x, num - den * x);
    }
  }

  /**
   * A swap formula holds exactly if the input is the least that pays for the output strictly, fee left out, or the
   * output is the most that the input pays for.
   */
  lemma SwapExactly(inRes: nat, outRes: nat, input: nat, output: nat)
    requires inRes > 0 && output < outRes
    ensures SwapFormula(inRes, outRes, input, output) <==>
            || (997 * (outRes - output)) * (input - 1) <= 1000 * inRes * output < (997 * (outRes - output)) * input
            || (1000 * inRes + 997 * input) * output <= 997 * input * outRes < (1000 * inRes + 997 * input) * (output + 1)
  {
    FloorIs(inRes * THOUSAND * output, (outRes - output) * LIQUIDITY_POOL_EXCEPT_FEE, input - 1);
    FloorIs(input * LIQUIDITY_POOL_EXCEPT_FEE * outRes, inRes * THOUSAND + input * LIQUIDITY_POOL_EXCEPT_FEE, output);
    assert inRes * THOUSAND * output == 1000 * inRes * output;
    assert input * LIQUIDITY_POOL_EXCEPT_FEE * outRes == 997 * input * outRes;
  }

  /** A deposit formula holds exactly if the second amount is the least strictly above its share, and the minted the most within. */
  lemma AddExactly(res1: nat, res2: nat, liquidity: nat, amount1: nat, amount2: nat, minted: nat)
    requires res1 > 0
    ensures AddFormula(res1, res2, liquidity, amount1, amount2, minted) <==>
            && res1 * (amount2 - 1) <= res2 * amount1 < res1 * amount2
            && res1 * minted <= liquidity * amount1 < res1 * (minted + 1)
  {
    FloorIs(res2 * amount1, res1, amount2 - 1);
    FloorIs(liquidity * amount1, res1, minted);
  }

  /** A withdrawal formula holds exactly if both amounts are the most within their shares. */
  lemma RemoveExactly(res1: nat, res2: nat, liquidity: nat, amount1: nat, amount2: nat, burned: nat)
    requires liquidity > 0
    ensures RemoveFormula(res1, res2, liquidity, amount1, amount2, burned) <==>
            && liquidity * amount1 <= burned * res1 < liquidity * (amount1 + 1)
            && liquidity * amount2 <= burned * res2 < liquidity * (amount2 + 1)
  {
    FloorIs(burned * res1, liquidity, amount1);
    FloorIs(burned * res2, liquidity, amount2);
  }
}
