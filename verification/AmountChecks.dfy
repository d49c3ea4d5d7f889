/** `swap`, `add_liquidity` and `remove_liquidity`: the amount checks, computed on bignums. */
module AmountChecks {
  import opened Numbers
  import opened Limbs
  import opened Bignum
  import opened PoolMath
  import opened ResultCodes

  const TWO256: nat := TWO128 * TWO128

  /** 2^1024 leaves room for a 256-bit by 128-bit product. */
  lemma Room()
    ensures TWO256 * TWO128 <= MODULUS()
  {
    assert R(12) == TWO256 * TWO128;
    RMono(12, LIMBS);
  }

  // Multiplication and division as repeated addition and subtraction: the verifier then carries them
  // through the checks as plain symbols, and `ProdIs` and `QuotIs` say what they are.

  function Prod(x: nat, y: nat): nat {
    if x == 0 then 0 else y + Prod(x - 1, y)
  }

  function Quot(x: nat, y: nat): nat
    requires y > 0
  {
    if x < y then 0 else 1 + Quot(x - y, y)
  }

  lemma {:induction false} ProdIs(x: nat, y: nat)
    ensures Prod(x, y) == x * y
  {
    if x > 0 {
      ProdIs(x - 1, y);
    }
  }

  lemma {:induction false} QuotIs(x: nat, y: nat)
    requires y > 0
    ensures Quot(x, y) == x / y
  {
    if x < y {
      DivModUnique(x, y, 0, x);
    } else {
      QuotIs(x - y, y);
      FloorBounds(x - y, y);
      FloorUnique(x, y, 1 + (x - y) / y);
    }
  }

  lemma Fits(x: nat, y: nat)
    requires x < TWO256 && y < TWO128
    ensures Prod(x, y) < MODULUS()
  {
    Room();
    ProdIs(x, y);
    MulMono(x, y, TWO128);
    MulMono(TWO128, x, TWO256);
  }

  method Multiply(a: array<Word>, b: array<Word>, c: array<Word>)
    requires IsBn(a) && IsBn(b) && IsBn(c)
    requires c != a && c != b
    requires Prod(V(a), V(b)) < MODULUS()
    modifies c
    ensures V(c) == Prod(V(a), V(b))
  {
    ProdIs(V(a), V(b));
    BignumMul(a, b, c);
  }

  method Divide(a: array<Word>, b: array<Word>, c: array<Word>)
    requires IsBn(a) && IsBn(b) && IsBn(c)
    requires V(b) > 0
    modifies c
    ensures V(c) == Quot(old(V(a)), old(V(b)))
  {
    QuotIs(V(a), V(b));
    BignumDiv(a, b, c);
  }

  // The `struct bn` locals of one stack frame: separate numbers of the right size.
  ghost predicate Separate(frame: seq<array<Word>>) {
    && (forall i :: 0 <= i < |frame| ==> IsBn(frame[i]))
    && (forall i, j :: 0 <= i < j < |frame| ==> frame[i] != frame[j])
  }

  method Locals(n: nat) returns (frame: seq<array<Word>>)
    ensures |frame| == n && Separate(frame) && fresh(frame)
  {
    frame := [];
    for k := 0 to n
      invariant |frame| == k && Separate(frame) && fresh(frame)
    {
      var b := new Word[LIMBS];
      frame := frame + [b];
    }
  }

  lemma HighHalf(l: U64, h: U64, v: nat)
    requires v < MODULUS() && Cong(v, Scaled(h, 2), MODULUS())
    ensures AddMod(l, v, LIMBS) == l + TWO64 * h
  {
    Room();
    assert R(2) == TWO64;
    MulMono(TWO64, h + 1, TWO64);
    CongExact(v, Scaled(h, 2), MODULUS());
  }

  method Uint128ToBignum(temp: U128, ret: array<Word>)
    requires IsBn(ret)
    modifies ret
    ensures V(ret) == temp
  {
    var frame := Locals(2);
    var temp1, temp2 := frame[0], frame[1];
    BignumInit(temp1);
    BignumInit(temp2);
    BignumInit(ret);
    JoinHalves(Low64(temp), High64(temp), temp1, temp2, ret);
  }

  method JoinHalves(low: U64, high: U64, temp1: array<Word>, temp2: array<Word>, ret: array<Word>)
    requires IsBn(temp1) && IsBn(temp2) && IsBn(ret)
    requires temp1 != temp2 && ret != temp1 && ret != temp2
    modifies temp1, temp2, ret
    ensures V(ret) == low + TWO64 * high
  {
    BignumFromUint64(temp1, low);
    BignumFromUint64(temp2, high);
    LShiftWord(temp2, 2);
    ValBound(temp2[..]);
    HighHalf(low, high, V(temp2));
    BignumAdd(temp1, temp2, ret);
  }

  function Low64(x: U128): U64 {
    x % TWO64
  }

  function High64(x: U128): U64 {
    x / TWO64
  }

  method BignumToUint128(temp: array<Word>) returns (ret: U128)
    requires IsBn(temp)
    ensures ret == V(temp) % TWO128
  {
    LowLimbs(temp[..]);
    ret := temp[0];
    ret := ret + temp[1] * BASE;
    ret := ret + temp[2] * TWO64;
    ret := ret + temp[3] * (TWO64 * BASE);
  }

  lemma LowLimbs(s: seq<Word>)
    requires |s| >= 4
    ensures (s[0] as int) + s[1] * BASE + s[2] * TWO64 + s[3] * (TWO64 * BASE) == Val(s) % TWO128
  {
    ValFour(s);
    DivModUnique(Val(s), TWO128, Val(s[4..]), (s[0] as int) + s[1] * BASE + s[2] * TWO64 + s[3] * (TWO64 * BASE));
  }

  lemma ValFour(s: seq<Word>)
    requires |s| >= 4
    ensures Val(s) == (s[0] as int) + s[1] * BASE + s[2] * TWO64 + s[3] * (TWO64 * BASE) + TWO128 * Val(s[4..])
  {
    assert s[0..] == s;
    ValFrom(s, 0);
    ValFrom(s, 1);
    ValFrom(s, 2);
    ValFrom(s, 3);
  }

  /** The input that the exact-output test computes. */
  function Cost(inRes: nat, outRes: nat, output: nat): nat
    requires output < outRes
  {
    ProdIs(outRes - output, LIQUIDITY_POOL_EXCEPT_FEE);
    Quot(Prod(Prod(inRes, THOUSAND), output), Prod(outRes - output, LIQUIDITY_POOL_EXCEPT_FEE)) + 1
  }

  function Weight(inRes: nat, input: nat): nat {
    Prod(inRes, THOUSAND) + Prod(input, LIQUIDITY_POOL_EXCEPT_FEE)
  }

  /** The output that the exact-input test computes. */
  function Gain(inRes: nat, outRes: nat, input: nat): nat
    requires inRes > 0 || input > 0
  {
    ProdIs(inRes, THOUSAND);
    ProdIs(input, LIQUIDITY_POOL_EXCEPT_FEE);
    Quot(Prod(Prod(input, LIQUIDITY_POOL_EXCEPT_FEE), outRes), Weight(inRes, input))
  }

  lemma CostIs(inRes: nat, outRes: nat, output: nat)
    requires output < outRes
    ensures Cost(inRes, outRes, output) == InputFor(inRes, outRes, output)
  {
    ProdIs(inRes, THOUSAND);
    ProdIs(Prod(inRes, THOUSAND), output);
    ProdIs(outRes - output, LIQUIDITY_POOL_EXCEPT_FEE);
    QuotIs(Prod(Prod(inRes, THOUSAND), output), Prod(outRes - output, LIQUIDITY_POOL_EXCEPT_FEE));
  }

  lemma GainIs(inRes: nat, outRes: nat, input: nat)
    requires inRes > 0 || input > 0
    ensures Gain(inRes, outRes, input) == OutputFor(inRes, outRes, input)
  {
    ProdIs(inRes, THOUSAND);
    ProdIs(input, LIQUIDITY_POOL_EXCEPT_FEE);
    ProdIs(Prod(input, LIQUIDITY_POOL_EXCEPT_FEE), outRes);
    QuotIs(Prod(Prod(input, LIQUIDITY_POOL_EXCEPT_FEE), outRes), Weight(inRes, input));
  }

  /** No intermediate of the exact-output test reaches 2^1024. */
  lemma CostFits(inRes: U128, outRes: U128, output: U128)
    ensures Prod(inRes, THOUSAND) < MODULUS()
    ensures Prod(Prod(inRes, THOUSAND), output) < MODULUS()
    ensures output <= outRes ==> Prod(outRes - output, LIQUIDITY_POOL_EXCEPT_FEE) < MODULUS()
    ensures output <= outRes ==> (Prod(outRes - output, LIQUIDITY_POOL_EXCEPT_FEE) == 0 <==> outRes == output)
    ensures output < outRes ==> Cost(inRes, outRes, output) < MODULUS()
  {
    Room();
    ProdIs(inRes, THOUSAND);
    Fits(Prod(inRes, THOUSAND), output);
    if output <= outRes {
      ProdIs(outRes - output, LIQUIDITY_POOL_EXCEPT_FEE);
      Fits(outRes - output, LIQUIDITY_POOL_EXCEPT_FEE);
    }
    if output < outRes {
      QuotBelow(Prod(Prod(inRes, THOUSAND), output), Prod(outRes - output, LIQUIDITY_POOL_EXCEPT_FEE));
    }
  }

  lemma QuotBelow(x: nat, y: nat)
    requires y > 1
    ensures Quot(x, y) <= x / 2
  {
    QuotIs(x, y);
    FloorBounds(x, y);
    MulMono(x / y, 2, y);
  }

  /** No intermediate of the exact-input test reaches 2^1024. */
  lemma GainFits(inRes: U128, outRes: U128, input: U128)
    ensures Prod(input, LIQUIDITY_POOL_EXCEPT_FEE) < MODULUS()
    ensures Prod(Prod(input, LIQUIDITY_POOL_EXCEPT_FEE), outRes) < MODULUS()
    ensures Weight(inRes, input) < MODULUS()
    ensures Weight(inRes, input) == 0 <==> inRes == 0 && input == 0
  {
    Room();
    ProdIs(inRes, THOUSAND);
    ProdIs(input, LIQUIDITY_POOL_EXCEPT_FEE);
    Fits(Prod(input, LIQUIDITY_POOL_EXCEPT_FEE), outRes);
  }

  /** The locals of `swap`. */
  datatype SwapFrame = SwapFrame(
    temp2: array<Word>, temp3: array<Word>, temp4: array<Word>, temp5: array<Word>,
    inputAmount: array<Word>, outputAmount: array<Word>,
    inputReserve: array<Word>, outputReserve: array<Word>,
    thousand: array<Word>, exceptFee: array<Word>, one: array<Word>)
  {
    predicate Valid() {
      && IsBn(temp2) && IsBn(temp3) && IsBn(temp4) && IsBn(temp5)
      && IsBn(inputAmount) && IsBn(outputAmount) && IsBn(inputReserve) && IsBn(outputReserve)
      && IsBn(thousand) && IsBn(exceptFee) && IsBn(one)
      && temp2 !in {temp3, temp4, temp5} && temp3 !in {temp4, temp5} && temp4 != temp5
      && inputAmount !in {temp2, temp3, temp4, temp5} && outputAmount !in {temp2, temp3, temp4, temp5}
      && inputReserve !in {temp2, temp3, temp4, temp5} && outputReserve !in {temp2, temp3, temp4, temp5}
      && thousand !in {temp2, temp3, temp4, temp5} && exceptFee !in {temp2, temp3, temp4, temp5}
      && one !in {temp2, temp3, temp4, temp5}
    }

    predicate Loadable() {
      && inputAmount !in {outputAmount, inputReserve, outputReserve, thousand, exceptFee, one}
      && outputAmount !in {inputReserve, outputReserve, thousand, exceptFee, one}
      && inputReserve !in {outputReserve, thousand, exceptFee, one}
      && outputReserve !in {thousand, exceptFee, one}
      && thousand !in {exceptFee, one} && exceptFee != one
    }

    ghost predicate Holds(iR: nat, oR: nat, input: nat, output: nat)
      reads inputAmount, outputAmount, inputReserve, outputReserve, thousand, exceptFee, one
    {
      && V(inputAmount) == input && V(outputAmount) == output
      && V(inputReserve) == iR && V(outputReserve) == oR
      && V(thousand) == THOUSAND && V(exceptFee) == LIQUIDITY_POOL_EXCEPT_FEE && V(one) == 1
    }
  }

  /** The test of the input against the output: leaves 1000 times the input reserve in `temp2`. */
  method TestInput(f: SwapFrame, ghost iR: U128, ghost oR: U128, ghost input: U128, ghost output: U128)
      returns (ret: int, flag: int)
    requires f.Valid() && f.Holds(iR, oR, input, output)
    modifies f.temp2, f.temp3, f.temp4, f.temp5
    ensures f.Holds(iR, oR, input, output)
    ensures ret == if oR < output then SUBTRACT_ERROR else if oR == output then DIVIDE_ZERO_ERROR else CKB_SUCCESS
    ensures ret == CKB_SUCCESS ==> V(f.temp2) == Prod(iR, THOUSAND)
    ensures ret == CKB_SUCCESS ==> flag == if input == Cost(iR, oR, output) then 0 else 1
  {
    flag := 0;
    CostFits(iR, oR, output);
    Multiply(f.inputReserve, f.thousand, f.temp2);
    Multiply(f.temp2, f.outputAmount, f.temp3);
    var order := BignumCmp(f.outputReserve, f.outputAmount);
    if order == SMALLER {
      return SUBTRACT_ERROR, flag;
    }
    BignumSub(f.outputReserve, f.outputAmount, f.temp4);
    Multiply(f.temp4, f.exceptFee, f.temp5);
    var zero := BignumIsZero(f.temp5);
    if zero {
      return DIVIDE_ZERO_ERROR, flag;
    }
    Divide(f.temp3, f.temp5, f.temp4);
    BignumAdd(f.temp4, f.one, f.temp5);
    assert V(f.temp5) == Cost(iR, oR, output);
    order := BignumCmp(f.temp5, f.inputAmount);
    if order != EQUAL {
      flag := 1;
    }
    return CKB_SUCCESS, flag;
  }

  /** The test of the output against the input, with 1000 times the input reserve still in `temp2`. */
  method TestOutput(f: SwapFrame, flag: int, ghost iR: U128, ghost oR: U128, ghost input: U128, ghost output: U128)
      returns (ret: int)
    requires f.Valid() && f.Holds(iR, oR, input, output)
    requires V(f.temp2) == Prod(iR, THOUSAND)
    modifies f.temp2, f.temp3, f.temp4, f.temp5
    ensures ret == if iR == 0 && input == 0 then DIVIDE_ZERO_ERROR
                   else if output != Gain(iR, oR, input) && flag == 1 then SWAP_NOT_CORRECT_ERROR
                   else CKB_SUCCESS
  {
    GainFits(iR, oR, input);
    Multiply(f.inputAmount, f.exceptFee, f.temp3);
    Multiply(f.temp3, f.outputReserve, f.temp4);
    BignumAdd(f.temp2, f.temp3, f.temp5);
    assert V(f.temp5) == Weight(iR, input);
    var zero := BignumIsZero(f.temp5);
    if zero {
      return DIVIDE_ZERO_ERROR;
    }
    Divide(f.temp4, f.temp5, f.temp2);
    var order := BignumCmp(f.temp2, f.outputAmount);
    if order != EQUAL && flag == 1 {
      return SWAP_NOT_CORRECT_ERROR;
    }
    return CKB_SUCCESS;
  }

  method Swap(iR: U128, oR: U128, iRA: U128, oRA: U128) returns (ret: int)
    ensures ret == SwapResult(iR, oR, Sub128(iRA, iR), Sub128(oR, oRA))
  {
    var f := NewSwapFrame();
    LoadSwapFrame(f, iR, oR, Sub128(iRA, iR), Sub128(oR, oRA));
    ghost var input, output := Sub128(iRA, iR), Sub128(oR, oRA);
    var flag;
    ret, flag := TestInput(f, iR, oR, input, output);
    if ret == CKB_SUCCESS {
      ret := TestOutput(f, flag, iR, oR, input, output);
      CostIs(iR, oR, output);
      if iR > 0 || input > 0 {
        GainIs(iR, oR, input);
      }
    }
  }

  method NewSwapFrame() returns (f: SwapFrame)
    ensures f.Valid() && f.Loadable()
    ensures fresh({f.temp2, f.temp3, f.temp4, f.temp5, f.inputAmount, f.outputAmount,
                   f.inputReserve, f.outputReserve, f.thousand, f.exceptFee, f.one})
  {
    var a := Locals(11);
    f := SwapFrame(a[0], a[1], a[2], a[3], a[4], a[5], a[6], a[7], a[8], a[9], a[10]);
  }

  method LoadSwapFrame(f: SwapFrame, iR: U128, oR: U128, input: U128, output: U128)
    requires f.Valid() && f.Loadable()
    modifies f.inputAmount, f.outputAmount, f.inputReserve, f.outputReserve, f.thousand, f.exceptFee, f.one
    ensures f.Holds(iR, oR, input, output)
  {
    Uint128ToBignum(input, f.inputAmount);
    Uint128ToBignum(iR, f.inputReserve);
    Uint128ToBignum(output, f.outputAmount);
    Uint128ToBignum(oR, f.outputReserve);
    BignumFromUint64(f.thousand, THOUSAND);
    BignumFromUint64(f.exceptFee, LIQUIDITY_POOL_EXCEPT_FEE);
    BignumFromUint64(f.one, 1);
  }

  /** The verdict of `swap` in terms of the unbounded-integer formulas. */
  function SwapResult(inRes: nat, outRes: nat, input: nat, output: nat): int {
    if outRes < output then SUBTRACT_ERROR
    else if outRes == output || (inRes == 0 && input == 0) then DIVIDE_ZERO_ERROR
    else if SwapFormula(inRes, outRes, input, output) then CKB_SUCCESS
    else SWAP_NOT_CORRECT_ERROR
  }

  // ----- adding and removing liquidity

  /** The locals of `add_liquidity`; `remove_liquidity` has the same ones except `one`. */
  datatype LiquidityFrame = LiquidityFrame(
    temp2: array<Word>, temp3: array<Word>,
    udt1Reserve: array<Word>, udt2Reserve: array<Word>, udt1Amount: array<Word>, udt2Amount: array<Word>,
    userLiquidity: array<Word>, totalLiquidity: array<Word>, one: array<Word>)
  {
    predicate Valid() {
      && IsBn(temp2) && IsBn(temp3) && IsBn(udt1Reserve) && IsBn(udt2Reserve) && IsBn(udt1Amount)
      && IsBn(udt2Amount) && IsBn(userLiquidity) && IsBn(totalLiquidity) && IsBn(one)
      && temp2 != temp3
      && udt1Reserve !in {temp2, temp3} && udt2Reserve !in {temp2, temp3}
      && udt1Amount !in {temp2, temp3} && udt2Amount !in {temp2, temp3}
      && userLiquidity !in {temp2, temp3} && totalLiquidity !in {temp2, temp3} && one !in {temp2, temp3}
    }

    predicate Loadable() {
      && udt1Reserve !in {udt2Reserve, udt1Amount, udt2Amount, userLiquidity, totalLiquidity, one}
      && udt2Reserve !in {udt1Amount, udt2Amount, userLiquidity, totalLiquidity, one}
      && udt1Amount !in {udt2Amount, userLiquidity, totalLiquidity, one}
      && udt2Amount !in {userLiquidity, totalLiquidity, one}
      && userLiquidity !in {totalLiquidity, one} && totalLiquidity != one
    }

    ghost predicate Holds(r1: nat, r2: nat, amount1: nat, amount2: nat, user: nat, total: nat)
      reads udt1Reserve, udt2Reserve, udt1Amount, udt2Amount, userLiquidity, totalLiquidity, one
    {
      && V(udt1Reserve) == r1 && V(udt2Reserve) == r2 && V(udt1Amount) == amount1 && V(udt2Amount) == amount2
      && V(userLiquidity) == user && V(totalLiquidity) == total && V(one) == 1
    }
  }

  method NewLiquidityFrame() returns (f: LiquidityFrame)
    ensures f.Valid() && f.Loadable()
    ensures fresh({f.temp2, f.temp3, f.udt1Reserve, f.udt2Reserve, f.udt1Amount, f.udt2Amount,
                   f.userLiquidity, f.totalLiquidity, f.one})
  {
    var a := Locals(9);
    f := LiquidityFrame(a[0], a[1], a[2], a[3], a[4], a[5], a[6], a[7], a[8]);
  }

  method LoadLiquidityFrame(f: LiquidityFrame, r1: U128, r2: U128, amount1: U128, amount2: U128,
                            user: U128, total: U128)
    requires f.Valid() && f.Loadable()
    modifies f.udt1Reserve, f.udt2Reserve, f.udt1Amount, f.udt2Amount, f.userLiquidity, f.totalLiquidity, f.one
    ensures f.Holds(r1, r2, amount1, amount2, user, total)
  {
    Uint128ToBignum(r1, f.udt1Reserve);
    Uint128ToBignum(r2, f.udt2Reserve);
    Uint128ToBignum(amount1, f.udt1Amount);
    Uint128ToBignum(amount2, f.udt2Amount);
    Uint128ToBignum(user, f.userLiquidity);
    Uint128ToBignum(total, f.totalLiquidity);
    BignumFromUint64(f.one, 1);
  }

  lemma ShareFits(x: U128, y: U128, z: nat)
    ensures Prod(x, y) < MODULUS()
    ensures z > 0 ==> Quot(Prod(x, y), z) == x * y / z && Quot(Prod(x, y), z) + 1 < MODULUS()
  {
    Fits(x, y);
    ProdIs(x, y);
    if z > 0 {
      QuotIs(Prod(x, y), z);
      FloorBounds(x * y, z);
      MulMono(x * y / z, 1, z);
      Room();
      MulMono(x, y, TWO128);
      MulMono(TWO128, x, TWO128);
    }
  }

  method CheckAdd(f: LiquidityFrame, ghost r1: U128, ghost r2: U128, ghost amount1: U128, ghost amount2: U128,
                  ghost user: U128, ghost total: U128)
      returns (ret: int)
    requires f.Valid() && f.Holds(r1, r2, amount1, amount2, user, total)
    modifies f.temp2, f.temp3
    ensures ret == if r1 == 0 then DIVIDE_ZERO_ERROR
                   else if amount2 != Quot(Prod(r2, amount1), r1) + 1 then ADD_LIQUIDITY_NOT_CORRECT_ERROR
                   else if user != Quot(Prod(total, amount1), r1) then LIQUIDITY_NOT_CORRECT_ERROR
                   else CKB_SUCCESS
  {
    ShareFits(r2, amount1, r1);
    ShareFits(total, amount1, r1);
    Multiply(f.udt2Reserve, f.udt1Amount, f.temp2);
    var zero := BignumIsZero(f.udt1Reserve);
    if zero {
      return DIVIDE_ZERO_ERROR;
    }
    Divide(f.temp2, f.udt1Reserve, f.temp3);
    BignumAdd(f.temp3, f.one, f.temp2);
    var order := BignumCmp(f.temp2, f.udt2Amount);
    if order != EQUAL {
      return ADD_LIQUIDITY_NOT_CORRECT_ERROR;
    }
    Multiply(f.totalLiquidity, f.udt1Amount, f.temp2);
    Divide(f.temp2, f.udt1Reserve, f.temp3);
    order := BignumCmp(f.temp3, f.userLiquidity);
    if order != EQUAL {
      return LIQUIDITY_NOT_CORRECT_ERROR;
    }
    return CKB_SUCCESS;
  }

  method CheckRemove(f: LiquidityFrame, ghost r1: U128, ghost r2: U128, ghost amount1: U128, ghost amount2: U128,
                     ghost user: U128, ghost total: U128)
      returns (ret: int)
    requires f.Valid() && f.Holds(r1, r2, amount1, amount2, user, total)
    modifies f.temp2, f.temp3
    ensures ret == if total == 0 then DIVIDE_ZERO_ERROR
                   else if amount2 != Quot(Prod(user, r2), total) || amount1 != Quot(Prod(user, r1), total)
                        then REMOVE_LIQUIDITY_NOT_CORRECT_ERROR
                   else CKB_SUCCESS
  {
    ShareFits(user, r2, total);
    ShareFits(user, r1, total);
    Multiply(f.userLiquidity, f.udt2Reserve, f.temp2);
    var zero := BignumIsZero(f.totalLiquidity);
    if zero {
      return DIVIDE_ZERO_ERROR;
    }
    Divide(f.temp2, f.totalLiquidity, f.temp3);
    var order := BignumCmp(f.temp3, f.udt2Amount);
    if order != EQUAL {
      return REMOVE_LIQUIDITY_NOT_CORRECT_ERROR;
    }
    Multiply(f.userLiquidity, f.udt1Reserve, f.temp2);
    Divide(f.temp2, f.totalLiquidity, f.temp3);
    order := BignumCmp(f.temp3, f.udt1Amount);
    if order != EQUAL {
      return REMOVE_LIQUIDITY_NOT_CORRECT_ERROR;
    }
    return CKB_SUCCESS;
  }

  method AddLiquidity(uR1: U128, uR2: U128, uRA1: U128, uRA2: U128, tL: U128, tLA: U128) returns (ret: int)
    ensures ret == AddResult(uR1, uR2, tL, Sub128(uRA1, uR1), Sub128(uRA2, uR2), Sub128(tLA, tL))
  {
    var f := NewLiquidityFrame();
    LoadLiquidityFrame(f, uR1, uR2, Sub128(uRA1, uR1), Sub128(uRA2, uR2), Sub128(tLA, tL), tL);
    ghost var amount1 := Sub128(uRA1, uR1);
    ret := CheckAdd(f, uR1, uR2, amount1, Sub128(uRA2, uR2), Sub128(tLA, tL), tL);
    ShareFits(uR2, amount1, uR1);
    ShareFits(tL, amount1, uR1);
  }

  method RemoveLiquidity(uR1: U128, uR2: U128, uRA1: U128, uRA2: U128, tL: U128, tLA: U128) returns (ret: int)
    ensures ret == RemoveResult(uR1, uR2, tL, Sub128(uR1, uRA1), Sub128(uR2, uRA2), Sub128(tL, tLA))
  {
    var f := NewLiquidityFrame();
    LoadLiquidityFrame(f, uR1, uR2, Sub128(uR1, uRA1), Sub128(uR2, uRA2), Sub128(tL, tLA), tL);
    ghost var user := Sub128(tL, tLA);
    ret := CheckRemove(f, uR1, uR2, Sub128(uR1, uRA1), Sub128(uR2, uRA2), user, tL);
    ShareFits(user, uR2, tL);
    ShareFits(user, uR1, tL);
  }

  /** The verdict of `add_liquidity` in terms of the unbounded-integer formulas. */
  function AddResult(res1: nat, res2: nat, liquidity: nat, amount1: nat, amount2: nat, minted: nat): int {
    if res1 == 0 then DIVIDE_ZERO_ERROR
    else if amount2 != SecondAmount(res1, res2, amount1) then ADD_LIQUIDITY_NOT_CORRECT_ERROR
    else if minted != Minted(res1, liquidity, amount1) then LIQUIDITY_NOT_CORRECT_ERROR
    else CKB_SUCCESS
  }

  /** The verdict of `remove_liquidity` in terms of the unbounded-integer formulas. */
  function RemoveResult(res1: nat, res2: nat, liquidity: nat, amount1: nat, amount2: nat, burned: nat): int {
    if liquidity == 0 then DIVIDE_ZERO_ERROR
    else if RemoveFormula(res1, res2, liquidity, amount1, amount2, burned) then CKB_SUCCESS
    else REMOVE_LIQUIDITY_NOT_CORRECT_ERROR
  }
}
