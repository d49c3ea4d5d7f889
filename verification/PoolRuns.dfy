/** What accepted steps do to a pool, over one step and over whole runs. */
module PoolRuns {
  import opened Numbers
  import opened PoolMath

  // ----- swaps

  /** The swap law: the product of the reserves, with 0.3% of the input left out, does not fall. */
  lemma SwapKeepsFeeAdjustedProduct(inRes: nat, outRes: nat, input: nat, output: nat)
    requires SwapFormula(inRes, outRes, input, output)
    ensures (1000 * inRes + 997 * input) * (outRes - output) >= 1000 * inRes * outRes
    ensures input > 0 ==> (inRes + input) * (outRes - output) > inRes * outRes
  {
    var left := outRes - output;
    assert Covered(inRes, outRes, input, output) by {
      if input == InputFor(inRes, outRes, output) {
        CostIffCovered(inRes, outRes, input, output);
      } else {
        GrantedIffCovered(inRes, outRes, input, output);
      }
    }
    assert (1000 * inRes + 997 * input) * left == 1000 * inRes * left + 997 * input * left;
    assert 1000 * inRes * left == 1000 * inRes * outRes - 1000 * inRes * output;
    if input > 0 {
      assert 1000 * ((inRes + input) * left) == (1000 * inRes + 997 * input) * left + 3 * (input * left);
      MulMono(input, 1, left);
      assert 1000 * inRes * outRes == 1000 * (inRes * outRes);
    }
  }

  /** Paying the required input buys at least the output it was computed for. */
  lemma RequiredInputBuysOutput(inRes: nat, outRes: nat, output: nat)
    requires output < outRes
    ensures OutputFor(inRes, outRes, InputFor(inRes, outRes, output)) >= output
  {
    var input := InputFor(inRes, outRes, output);
    CostIffCovered(inRes, outRes, input, output);
    GrantedIffCovered(inRes, outRes, input, output);
  }

  /** The output granted for an input costs at most one unit more than that input. */
  lemma GrantedOutputCosts(inRes: nat, outRes: nat, input: nat)
    requires inRes > 0 && outRes > 0
    ensures OutputFor(inRes, outRes, input) < outRes
    ensures InputFor(inRes, outRes, OutputFor(inRes, outRes, input)) <= input + 1
  {
    var output := OutputFor(inRes, outRes, input);
    OutputBelowReserve(inRes, outRes, input);
    GrantedIffCovered(inRes, outRes, input, output);
    CostIffCovered(inRes, outRes, input, output);
  }

  lemma OutputBelowReserve(inRes: nat, outRes: nat, input: nat)
    requires inRes > 0 && outRes > 0
    ensures OutputFor(inRes, outRes, input) < outRes
  {
    var fed := input * LIQUIDITY_POOL_EXCEPT_FEE;
    var den := inRes * THOUSAND + fed;
    FloorAtLeast(fed * outRes, den, outRes);
    assert den * outRes == inRes * THOUSAND * outRes + fed * outRes;
    MulMono(inRes * THOUSAND, 1, outRes);
  }

  /** No input below the required one minus one is enough. */
  lemma NoCheaperInput(inRes: nat, outRes: nat, input: nat, output: nat)
    requires inRes > 0 && output < outRes
    requires OutputFor(inRes, outRes, input) >= output
    ensures input >= InputFor(inRes, outRes, output) - 1
  {
    GrantedIffCovered(inRes, outRes, input, output);
    CostIffCovered(inRes, outRes, input, output);
  }

  /** One unit less than required is enough exactly when the price divides evenly. */
  lemma OneLessSuffices(inRes: nat, outRes: nat, output: nat)
    requires inRes > 0 && output < outRes
    ensures OutputFor(inRes, outRes, InputFor(inRes, outRes, output) - 1) >= output
       <==> (inRes * THOUSAND * output) % ((outRes - output) * LIQUIDITY_POOL_EXCEPT_FEE) == 0
  {
    var num, den: nat := inRes * THOUSAND * output, (outRes - output) * LIQUIDITY_POOL_EXCEPT_FEE;
    var input := num / den;
    GrantedIffCovered(inRes, outRes, input, output);
    MulSwap3(997, input, outRes - output);
    assert num == den * (num / den) + num % den;
    assert 1000 * inRes * output == num;
  }

  // ----- steps

  /** A pool's reserves above the defaults, and its total liquidity. */
  datatype Pool = Pool(r1: nat, r2: nat, liquidity: nat) {
    predicate Empty() {
      r1 == 0 && r2 == 0 && liquidity == 0
    }

    predicate Funded() {
      r1 > 0 && r2 > 0 && liquidity > 0
    }
  }

  const ADD_LIQUIDITY_MINIMUM: nat := 1000

  predicate SwapStep(p: Pool, q: Pool) {
    && p.Funded() && q.liquidity == p.liquidity && q.r1 > 0 && q.r2 > 0
    && if p.r1 < q.r1 then p.r2 > q.r2 && SwapFormula(p.r1, p.r2, q.r1 - p.r1, p.r2 - q.r2)
       else p.r1 > q.r1 && p.r2 < q.r2 && SwapFormula(p.r2, p.r1, q.r2 - p.r2, p.r1 - q.r1)
  }

  predicate FirstDeposit(p: Pool, q: Pool) {
    && p.liquidity == 0 < q.liquidity
    && p.r1 < q.r1 && p.r2 < q.r2
    && q.r1 >= ADD_LIQUIDITY_MINIMUM && q.liquidity == q.r1
  }

  predicate AddStep(p: Pool, q: Pool) {
    && 0 < p.liquidity < q.liquidity
    && p.r1 < q.r1 && p.r2 < q.r2
    && q.r1 - p.r1 >= ADD_LIQUIDITY_MINIMUM
    && AddFormula(p.r1, p.r2, p.liquidity, q.r1 - p.r1, q.r2 - p.r2, q.liquidity - p.liquidity)
  }

  predicate RemoveStep(p: Pool, q: Pool) {
    && p.Funded() && q.liquidity < p.liquidity
    && 0 < q.r1 < p.r1 && 0 < q.r2 < p.r2
    && RemoveFormula(p.r1, p.r2, p.liquidity, p.r1 - q.r1, p.r2 - q.r2, p.liquidity - q.liquidity)
  }

  predicate Step(p: Pool, q: Pool) {
    SwapStep(p, q) || FirstDeposit(p, q) || AddStep(p, q) || RemoveStep(p, q)
  }

  // ----- the steps without division

  /** With liquidity kept, a step is a trade of one asset for the other at either of two prices. */
  lemma SwapStepExactly(p: Pool, q: Pool)
    requires p.Funded() && q.liquidity == p.liquidity
    ensures Step(p, q) <==>
      || (p.r1 < q.r1 && 0 < q.r2 < p.r2
          && var x, y := q.r1 - p.r1, p.r2 - q.r2;
             || (997 * (p.r2 - y)) * (x - 1) <= 1000 * p.r1 * y < (997 * (p.r2 - y)) * x
             || (1000 * p.r1 + 997 * x) * y <= 997 * x * p.r2 < (1000 * p.r1 + 997 * x) * (y + 1))
      || (p.r2 < q.r2 && 0 < q.r1 < p.r1
          && var x, y := q.r2 - p.r2, p.r1 - q.r1;
             || (997 * (p.r1 - y)) * (x - 1) <= 1000 * p.r2 * y < (997 * (p.r1 - y)) * x
             || (1000 * p.r2 + 997 * x) * y <= 997 * x * p.r1 < (1000 * p.r2 + 997 * x) * (y + 1))
  {
    if p.r1 < q.r1 && 0 < q.r2 < p.r2 {
      SwapExactly(p.r1, p.r2, q.r1 - p.r1, p.r2 - q.r2);
    } else if p.r2 < q.r2 && 0 < q.r1 < p.r1 {
      SwapExactly(p.r2, p.r1, q.r2 - p.r2, p.r1 - q.r1);
    }
  }

  /** From no liquidity a step is a first deposit: of 1000 or more, minting as much as the first reserve comes to. */
  lemma FirstDepositExactly(p: Pool, q: Pool)
    requires p.liquidity == 0
    ensures Step(p, q) <==> q.liquidity > 0 && p.r1 < q.r1 && p.r2 < q.r2 && q.r1 >= 1000 && q.liquidity == q.r1
  {
  }

  /** With liquidity growing, a step is a deposit of 1000 or more with both amounts rounded against the depositor. */
  lemma DepositExactly(p: Pool, q: Pool)
    requires 0 < p.liquidity < q.liquidity
    ensures Step(p, q) <==>
      && 0 < p.r1 && p.r1 + 1000 <= q.r1 && p.r2 < q.r2
      && var x, y, u := q.r1 - p.r1, q.r2 - p.r2, q.liquidity - p.liquidity;
         && p.r1 * (y - 1) <= p.r2 * x < p.r1 * y
         && p.r1 * u <= p.liquidity * x < p.r1 * (u + 1)
  {
    if 0 < p.r1 < q.r1 && p.r2 < q.r2 {
      AddExactly(p.r1, p.r2, p.liquidity, q.r1 - p.r1, q.r2 - p.r2, q.liquidity - p.liquidity);
    }
  }

  /** With liquidity falling, a step is a withdrawal with both payouts rounded down, of something but not all. */
  lemma WithdrawalExactly(p: Pool, q: Pool)
    requires q.liquidity < p.liquidity
    ensures Step(p, q) <==>
      && 0 < q.r1 < p.r1 && 0 < q.r2 < p.r2
      && var x, y, u := p.r1 - q.r1, p.r2 - q.r2, p.liquidity - q.liquidity;
         && p.liquidity * x <= u * p.r1 < p.liquidity * (x + 1)
         && p.liquidity * y <= u * p.r2 < p.liquidity * (y + 1)
  {
    if 0 < q.r1 < p.r1 && 0 < q.r2 < p.r2 {
      RemoveExactly(p.r1, p.r2, p.liquidity, p.r1 - q.r1, p.r2 - q.r2, p.liquidity - q.liquidity);
    }
  }

  /** Buying a given output at its price is a swap. */
  lemma ExactOutputIsAccepted(p: Pool, output: nat, input: nat)
    requires p.Funded() && 0 < output < p.r2
    requires input == p.r1 * 1000 * output / ((p.r2 - output) * 997) + 1
    ensures SwapStep(p, Pool(p.r1 + input, p.r2 - output, p.liquidity))
  {
    PriceIs(p.r1, p.r2, output, input);
  }

  lemma ExactOutputIsAcceptedBack(p: Pool, output: nat, input: nat)
    requires p.Funded() && 0 < output < p.r1
    requires input == p.r2 * 1000 * output / ((p.r1 - output) * 997) + 1
    ensures SwapStep(p, Pool(p.r1 - output, p.r2 + input, p.liquidity))
  {
    PriceIs(p.r2, p.r1, output, input);
  }

  lemma PriceIs(inRes: nat, outRes: nat, output: nat, input: nat)
    requires inRes > 0 && 0 < output < outRes
    requires input == inRes * 1000 * output / ((outRes - output) * 997) + 1
    ensures input > 0 && SwapFormula(inRes, outRes, input, output)
  {
    var num: nat := inRes * 1000 * output;
    FloorBounds(num, (outRes - output) * 997);
  }

  // ----- what one step keeps

  /** Neither asset is diluted by a deposit: reserve per unit of liquidity does not fall. */
  lemma AddKeepsShares(p: Pool, q: Pool)
    requires p.Funded() && AddStep(p, q)
    ensures p.r1 * q.liquidity <= q.r1 * p.liquidity
    ensures p.r2 * q.liquidity < q.r2 * p.liquidity
  {
    var a1, a2, u := q.r1 - p.r1, q.r2 - p.r2, q.liquidity - p.liquidity;
    FloorBounds(p.liquidity * a1, p.r1);
    FloorBounds(p.r2 * a1, p.r1);
    assert p.r1 * q.liquidity == p.r1 * p.liquidity + p.r1 * u;
    assert q.r1 * p.liquidity == p.r1 * p.liquidity + p.liquidity * a1;
    SecondShare(p.r1, p.r2, p.liquidity, a1, a2, u);
    assert p.r2 * q.liquidity == p.r2 * p.liquidity + p.r2 * u;
    assert q.r2 * p.liquidity == p.r2 * p.liquidity + a2 * p.liquidity;
  }

  /** The rounded-up second deposit outweighs the rounded-down minting. */
  lemma SecondShare(r1: nat, r2: nat, liquidity: nat, a1: nat, a2: nat, u: nat)
    requires r1 > 0 && liquidity > 0
    requires r1 * u <= liquidity * a1 && r2 * a1 < r1 * a2
    ensures r2 * u < a2 * liquidity
  {
    MulMono(r2, r1 * u, liquidity * a1);
    MulMono(liquidity, r2 * a1 + 1, r1 * a2);
    assert r2 * (liquidity * a1) == liquidity * (r2 * a1);
    assert r1 * (r2 * u) == r2 * (r1 * u);
    assert r1 * (a2 * liquidity) == liquidity * (r1 * a2);
    MulCancelStrict(r1, r2 * u, a2 * liquidity);
  }

  lemma RemoveKeepsShares(p: Pool, q: Pool)
    requires RemoveStep(p, q)
    ensures p.r1 * q.liquidity <= q.r1 * p.liquidity
    ensures p.r2 * q.liquidity <= q.r2 * p.liquidity
  {
    PayoutShare(p.r1, p.liquidity, p.liquidity - q.liquidity);
    PayoutShare(p.r2, p.liquidity, p.liquidity - q.liquidity);
  }

  lemma PayoutShare(r: nat, liquidity: nat, u: nat)
    requires 0 < liquidity && u <= liquidity
    ensures r * (liquidity - u) <= (r - Payout(r, liquidity, u)) * liquidity
  {
    FloorBounds(u * r, liquidity);
    assert r * (liquidity - u) == r * liquidity - u * r;
  }

  /** Value per share, `r1 * r2 / liquidity^2`, is no lower in `q` than in `p`. */
  ghost predicate NoWorse(p: Pool, q: Pool) {
    q.r1 * q.r2 * (p.liquidity * p.liquidity) >= p.r1 * p.r2 * (q.liquidity * q.liquidity)
  }

  lemma SharesMultiply(p: Pool, q: Pool)
    requires p.r1 * q.liquidity <= q.r1 * p.liquidity && p.r2 * q.liquidity <= q.r2 * p.liquidity
    ensures NoWorse(p, q)
  {
    var a, b, c, d := p.r1 * q.liquidity, q.r1 * p.liquidity, p.r2 * q.liquidity, q.r2 * p.liquidity;
    MulMono(a, c, d);
    MulMono(d, a, b);
    Regroup(p.r1, q.liquidity, p.r2);
    Regroup(q.r1, p.liquidity, q.r2);
  }

  lemma Regroup(x: nat, l: nat, y: nat)
    ensures (x * l) * (y * l) == x * y * (l * l)
  {
  }

  lemma SwapStepGrows(p: Pool, q: Pool)
    requires SwapStep(p, q)
    ensures p.r1 * p.r2 < q.r1 * q.r2
  {
    if p.r1 < q.r1 {
      SwapKeepsFeeAdjustedProduct(p.r1, p.r2, q.r1 - p.r1, p.r2 - q.r2);
    } else {
      SwapKeepsFeeAdjustedProduct(p.r2, p.r1, q.r2 - p.r2, p.r1 - q.r1);
    }
  }

  lemma StepNoWorse(p: Pool, q: Pool)
    requires p.Funded() && Step(p, q)
    ensures NoWorse(p, q)
  {
    if SwapStep(p, q) {
      SwapStepGrows(p, q);
      MulMono(p.liquidity * p.liquidity, p.r1 * p.r2, q.r1 * q.r2);
    } else if AddStep(p, q) {
      AddKeepsShares(p, q);
      SharesMultiply(p, q);
    } else {
      RemoveKeepsShares(p, q);
      SharesMultiply(p, q);
    }
  }

  lemma NoWorseTransitive(p: Pool, q: Pool, s: Pool)
    requires NoWorse(p, q) && NoWorse(q, s) && q.liquidity > 0
    ensures NoWorse(p, s)
  {
    var kp, kq, ks := p.r1 * p.r2, q.r1 * q.r2, s.r1 * s.r2;
    var lp, lq, ls := p.liquidity * p.liquidity, q.liquidity * q.liquidity, s.liquidity * s.liquidity;
    MulMono(lp, kq * ls, ks * lq);
    MulMono(ls, kp * lq, kq * lp);
    assert lp * (kq * ls) == ls * (kq * lp) by { MulSwapOuter(lp, kq, ls); }
    assert lp * (ks * lq) == lq * (ks * lp) by { MulSwapOuter(lp, ks, lq); }
    assert ls * (kp * lq) == lq * (kp * ls) by { MulSwapOuter(ls, kp, lq); }
    assert lq > 0;
    MulCancel(lq, kp * ls, ks * lp);
  }

  lemma MulSwapOuter(a: int, k: int, b: int)
    ensures a * (k * b) == b * (k * a)
  {
  }

  /** A step from an empty or funded pool ends in a funded one. */
  lemma StepFunds(p: Pool, q: Pool)
    requires Step(p, q) && (p.Empty() || p.Funded())
    ensures q.Funded()
  {
    if RemoveStep(p, q) {
      var u := p.liquidity - q.liquidity;
      if q.liquidity == 0 {
        DivModUnique(u * p.r1, p.liquidity, p.r1, 0);
      }
    }
  }

  // ----- whole runs

  ghost predicate Run(states: seq<Pool>) {
    && states != []
    && forall i {:trigger states[i]} :: 0 < i < |states| ==> Step(states[i - 1], states[i])
  }

  /** A pool created empty is empty or funded at every point of every run, and never empty again once funded. */
  lemma {:induction false} RunEmptyOrFunded(states: seq<Pool>, i: nat)
    requires Run(states) && states[0].Empty() && i < |states|
    ensures if i == 0 then states[i].Empty() else states[i].Funded()
  {
    if i > 0 {
      RunEmptyOrFunded(states, i - 1);
      StepFunds(states[i - 1], states[i]);
    }
  }

  /** Over any run of swaps, deposits and withdrawals the value per share never falls. */
  lemma {:induction false} RunNoWorse(states: seq<Pool>, i: nat, j: nat)
    requires Run(states) && i <= j < |states| && states[i].Funded()
    ensures states[j].Funded() && NoWorse(states[i], states[j])
  {
    if i < j {
      RunNoWorse(states, i, j - 1);
      StepFunds(states[j - 1], states[j]);
      StepNoWorse(states[j - 1], states[j]);
      NoWorseTransitive(states[i], states[j - 1], states[j]);
    }
  }

  /** From creation on: value per share is never below what the first deposit set. */
  lemma PoolNeverLosesValue(states: seq<Pool>, j: nat)
    requires Run(states) && states[0].Empty() && 1 <= j < |states|
    ensures states[j].r1 * states[j].r2 * (states[1].liquidity * states[1].liquidity)
         >= states[1].r1 * states[1].r2 * (states[j].liquidity * states[j].liquidity)
  {
    RunEmptyOrFunded(states, 1);
    RunNoWorse(states, 1, j);
  }

  ghost predicate SwapRun(states: seq<Pool>) {
    && states != []
    && forall i {:trigger states[i]} :: 0 < i < |states| ==> SwapStep(states[i - 1], states[i])
  }

  lemma {:induction false} SwapRunGrows(states: seq<Pool>, j: nat)
    requires SwapRun(states) && 0 < j < |states|
    ensures states[j].r1 * states[j].r2 > states[0].r1 * states[0].r2
  {
    SwapStepGrows(states[j - 1], states[j]);
    if j > 1 {
      SwapRunGrows(states, j - 1);
    }
  }

  /** No round trip of swaps gains: if one reserve ends no higher, the other ends strictly higher. */
  lemma NoFreeRoundTrip(states: seq<Pool>, j: nat)
    requires SwapRun(states) && 0 < j < |states|
    ensures states[j].r1 <= states[0].r1 ==> states[j].r2 > states[0].r2
    ensures states[j].r2 <= states[0].r2 ==> states[j].r1 > states[0].r1
  {
    SwapRunGrows(states, j);
    var p, q := states[0], states[j];
    if q.r1 <= p.r1 && q.r2 <= p.r2 {
      MulMono(q.r1, q.r2, p.r2);
      MulMono(p.r2, q.r1, p.r1);
    }
  }

  /** Depositing and burning what the deposit minted returns no more of the first asset and less of the second. */
  lemma DepositThenBurn(p: Pool, q: Pool)
    requires p.Funded() && AddStep(p, q)
    ensures var minted := q.liquidity - p.liquidity;
      && Payout(q.r1, q.liquidity, minted) <= q.r1 - p.r1
      && Payout(q.r2, q.liquidity, minted) < q.r2 - p.r2
  {
    var u := q.liquidity - p.liquidity;
    AddKeepsShares(p, q);
    assert u * q.r1 <= q.liquidity * (q.r1 - p.r1) by {
      assert u * q.r1 == q.liquidity * q.r1 - p.liquidity * q.r1;
      assert q.liquidity * (q.r1 - p.r1) == q.liquidity * q.r1 - q.liquidity * p.r1;
    }
    assert u * q.r2 < q.liquidity * (q.r2 - p.r2) by {
      assert u * q.r2 == q.liquidity * q.r2 - p.liquidity * q.r2;
      assert q.liquidity * (q.r2 - p.r2) == q.liquidity * q.r2 - q.liquidity * p.r2;
    }
    FloorAtLeast(u * q.r1, q.liquidity, q.r1 - p.r1 + 1);
    FloorAtLeast(u * q.r2, q.liquidity, q.r2 - p.r2);
    assert q.liquidity * (q.r1 - p.r1 + 1) == q.liquidity * (q.r1 - p.r1) + q.liquidity;
  }
}
