/** The client side, `test/utils.js`: quoting amounts and writing them as cell data. */
module Client {
  import opened Numbers
  import opened ByteOrder
  import opened PoolMath
  import opened PoolRuns

  datatype Quote<T> = Quoted(value: T) | RangeError

  /** BigInt division, here only of amounts that are not negative. */
  function Floor(x: nat, y: nat): nat
    requires y > 0
  {
    x / y
  }

  /** `calculateSwapOutputFromInput`; dividing by zero throws. */
  function CalculateSwapOutputFromInput(inputReserve: nat, outputReserve: nat, inputAmount: nat): Quote<nat> {
    var inputAmountWithFee: nat := inputAmount * 997;
    var numerator: nat := inputAmountWithFee * outputReserve;
    var denominator: nat := inputReserve * 1000 + inputAmountWithFee;
    if denominator == 0 then RangeError else Quoted(Floor(numerator, denominator))
  }

  /** `calculateAddLiquidityUDT2Amount`: second amount and liquidity for a first amount. */
  function CalculateAddLiquidity(pool: Pool, udt1Amount: nat): Quote<(nat, nat)> {
    if pool.r1 == 0 then RangeError
    else
      var share2: nat := pool.r2 * udt1Amount;
      var shareL: nat := pool.liquidity * udt1Amount;
      Quoted((Floor(share2, pool.r1) + 1, Floor(shareL, pool.r1)))
  }

  /** `calculateRemoveLiquidityAmount`: both amounts for burnt liquidity. */
  function CalculateRemoveLiquidity(pool: Pool, userLiquidity: nat): Quote<(nat, nat)> {
    if pool.liquidity == 0 then RangeError
    else
      var share1: nat := userLiquidity * pool.r1;
      var share2: nat := userLiquidity * pool.r2;
      Quoted((Floor(share1, pool.liquidity), Floor(share2, pool.liquidity)))
  }

  /** A quoted swap of non-zero amounts is a step the checks accept, in either direction. */
  lemma QuotedSwapIsAccepted(pool: Pool, input: nat)
    requires pool.Funded() && input > 0
    ensures var q := CalculateSwapOutputFromInput(pool.r1, pool.r2, input);
      && q.Quoted? && q.value < pool.r2
      && (q.value > 0 ==> SwapStep(pool, Pool(pool.r1 + input, pool.r2 - q.value, pool.liquidity)))
    ensures var q := CalculateSwapOutputFromInput(pool.r2, pool.r1, input);
      && q.Quoted? && q.value < pool.r1
      && (q.value > 0 ==> SwapStep(pool, Pool(pool.r1 - q.value, pool.r2 + input, pool.liquidity)))
  {
    QuoteIsGrant(pool.r1, pool.r2, input);
    QuoteIsGrant(pool.r2, pool.r1, input);
  }

  lemma QuoteIsGrant(inRes: nat, outRes: nat, input: nat)
    requires inRes > 0 && outRes > 0
    ensures CalculateSwapOutputFromInput(inRes, outRes, input) == Quoted(OutputFor(inRes, outRes, input))
    ensures OutputFor(inRes, outRes, input) < outRes
  {
    OutputBelowReserve(inRes, outRes, input);
  }

  /** A quoted deposit above the minimum that mints something is accepted. */
  lemma QuotedDepositIsAccepted(pool: Pool, amount1: nat)
    requires pool.Funded() && amount1 >= ADD_LIQUIDITY_MINIMUM
    ensures var q := CalculateAddLiquidity(pool, amount1);
      && q.Quoted? && q.value.0 > 0
      && (q.value.1 > 0 ==>
            AddStep(pool, Pool(pool.r1 + amount1, pool.r2 + q.value.0, pool.liquidity + q.value.1)))
  {
  }

  /** A quoted withdrawal of part of the liquidity that pays out something of both assets is accepted. */
  lemma QuotedWithdrawalIsAccepted(pool: Pool, burned: nat)
    requires pool.Funded() && 0 < burned < pool.liquidity
    ensures var q := CalculateRemoveLiquidity(pool, burned);
      && q.Quoted? && q.value.0 < pool.r1 && q.value.1 < pool.r2
      && (q.value.0 > 0 && q.value.1 > 0 ==>
            RemoveStep(pool, Pool(pool.r1 - q.value.0, pool.r2 - q.value.1, pool.liquidity - burned)))
  {
    PartPayout(pool.r1, pool.liquidity, burned);
    PartPayout(pool.r2, pool.liquidity, burned);
  }

  lemma PartPayout(r: nat, liquidity: nat, burned: nat)
    requires r > 0 && burned < liquidity
    ensures Payout(r, liquidity, burned) < r
  {
    FloorAtLeast(burned * r, liquidity, r);
    MulMono(r, burned + 1, liquidity);
  }

  // ----- amounts as cell data

  function HexDigit(d: nat): char
    requires d < 16
  {
    if d < 10 then ('0' as int + d) as char else ('a' as int + d - 10) as char
  }

  function DigitOf(c: char): (d: nat)
    ensures d < 16
  {
    if '0' <= c <= '9' then c as int - '0' as int
    else if 'a' <= c <= 'f' then c as int - 'a' as int + 10
    else 0
  }

  /** `BigInt(n).toString(16)`. */
  function ToHex(n: nat): (s: string)
    ensures s != []
  {
    if n < 16 then [HexDigit(n)] else ToHex(n / 16) + [HexDigit(n % 16)]
  }

  function BnToHex(n: nat): string {
    var hex := ToHex(n);
    "0x" + (if |hex| % 2 == 1 then "0" + hex else hex)
  }

  /** Pairs of characters, last pair first. */
  function PairsReversed(s: string): string {
    if |s| < 2 then [] else s[|s| - 2..] + PairsReversed(s[..|s| - 2])
  }

  /** Copies the pairs after the "0x", last pair first. */
  method ChangeEndianness(str: string) returns (result: string)
    ensures result == "0x" + (if |str| < 2 then [] else PairsReversed(str[2..]))
  {
    result := "0x";
    var len: int := |str| - 2;
    assert |str| >= 2 ==> str[2..len + 2] == str[2..];
    while len >= 2
      invariant len <= |str| - 2
      invariant |str| >= 2 ==> len >= 0
      invariant |str| >= 2 ==> result + PairsReversed(str[2..len + 2]) == "0x" + PairsReversed(str[2..])
      invariant |str| < 2 ==> result == "0x"
    {
      assert str[2..len + 2][len - 2..] == str[len..len + 2];
      assert str[2..len + 2][..len - 2] == str[2..len];
      result := result + str[len..len + 2];
      len := len - 2;
    }
  }

  function Zeros(n: nat): (s: string)
    ensures |s| == n
  {
    if n == 0 then [] else ['0'] + Zeros(n - 1)
  }

  function PadEnd(s: string, width: nat): string {
    if |s| >= width then s else s + Zeros(width - |s|)
  }

  /** The bytes that a hex string without its "0x" stands for. */
  function HexBytes(s: string): (b: seq<byte>)
    ensures |b| == |s| / 2
  {
    if |s| < 2 then [] else [16 * DigitOf(s[0]) + DigitOf(s[1])] + HexBytes(s[2..])
  }

  method ToUDTData(n: nat) returns (data: string)
    ensures data == "0x" + PadEnd(PairsReversed(BnToHex(n)[2..]), 32)
  {
    data := ChangeEndianness(BnToHex(n));
    var body := PairsReversed(BnToHex(n)[2..]);
    assert data[2..] == body;
    data := PadEnd(data, 34);
    assert PadEnd("0x" + body, 34) == "0x" + PadEnd(body, 32);
  }

  function HexVal(s: string): nat {
    if s == [] then 0 else 16 * HexVal(s[..|s| - 1]) + DigitOf(s[|s| - 1])
  }

  lemma {:induction false} HexRoundTrip(n: nat)
    ensures HexVal(ToHex(n)) == n
  {
    if n >= 16 {
      HexRoundTrip(n / 16);
      assert ToHex(n)[..|ToHex(n)| - 1] == ToHex(n / 16);
    } else {
      assert ToHex(n)[..0] == [];
    }
  }

  lemma {:induction false} HexLeadingZero(s: string)
    ensures HexVal("0" + s) == HexVal(s)
  {
    if s != [] {
      HexLeadingZero(s[..|s| - 1]);
      assert ("0" + s)[..|s|] == "0" + s[..|s| - 1];
    } else {
      assert "0"[..0] == [];
    }
  }

  /** Reversing the pairs turns big-endian digits into little-endian bytes. */
  lemma {:induction false} ReversedIsLittleEndian(s: string)
    requires |s| % 2 == 0
    ensures |PairsReversed(s)| == |s|
    ensures LeVal(HexBytes(PairsReversed(s))) == HexVal(s)
  {
    if s != [] {
      var k := |s| - 2;
      ReversedIsLittleEndian(s[..k]);
      var r := PairsReversed(s);
      assert r[2..] == PairsReversed(s[..k]) && r[0] == s[k] && r[1] == s[k + 1];
      assert HexBytes(r)[1..] == HexBytes(r[2..]);
      assert s[..|s| - 1][..k] == s[..k];
    }
  }

  /** Trailing zero pairs do not change the number. */
  lemma {:induction false} PaddingKeepsValue(s: string, n: nat)
    requires |s| % 2 == 0 && n % 2 == 0
    ensures LeVal(HexBytes(s + Zeros(n))) == LeVal(HexBytes(s))
    decreases |s| + n
  {
    if s != [] {
      PaddingKeepsValue(s[2..], n);
      assert (s + Zeros(n))[2..] == s[2..] + Zeros(n);
      assert HexBytes(s)[1..] == HexBytes(s[2..]) && HexBytes(s + Zeros(n))[1..] == HexBytes(s[2..] + Zeros(n));
    } else {
      assert s + Zeros(n) == Zeros(n);
      ZerosAreZero(n);
    }
  }

  lemma {:induction false} ZerosAreZero(n: nat)
    requires n % 2 == 0
    ensures LeVal(HexBytes(Zeros(n))) == 0
  {
    if n > 0 {
      ZerosAreZero(n - 2);
      var z := Zeros(n);
      assert Zeros(n - 1)[1..] == Zeros(n - 2);
      assert z[2..] == Zeros(n - 2) && z[0] == '0' && z[1] == '0';
      assert HexBytes(z)[1..] == HexBytes(z[2..]);
    }
  }

  lemma {:induction false} LeTake(s: seq<byte>, k: nat)
    requires k <= |s|
    ensures LeVal(s) == LeVal(s[..k]) + Pow256(k) * LeVal(s[k..])
  {
    if k > 0 {
      LeTake(s[1..], k - 1);
      assert s[1..][..k - 1] == s[..k][1..] && s[1..][k - 1..] == s[k..];
      MulNest(Pow256(k - 1), LeVal(s[k..]));
    } else {
      assert s[..0] == [] && s[0..] == s;
    }
  }

  /** The digits that `toUDTData` starts from are an even number and spell the amount. */
  lemma EvenHex(n: nat)
    ensures |BnToHex(n)| >= 2 && |BnToHex(n)[2..]| % 2 == 0 && HexVal(BnToHex(n)[2..]) == n
  {
    var hex := ToHex(n);
    HexRoundTrip(n);
    HexLeadingZero(hex);
    assert BnToHex(n)[2..] == if |hex| % 2 == 1 then "0" + hex else hex;
  }

  lemma PaddedValue(body: string)
    requires |body| % 2 == 0
    ensures var bytes := HexBytes(PadEnd(body, 32));
            |bytes| >= UDT_AMOUNT_SIZE && LeVal(bytes) == LeVal(HexBytes(body))
  {
    if |body| < 32 {
      PaddingKeepsValue(body, 32 - |body|);
    }
  }

  lemma AmountOfLong(bytes: seq<byte>)
    requires |bytes| >= UDT_AMOUNT_SIZE
    ensures Amount(bytes, 0) == LeVal(bytes) % TWO128
  {
    LeTake(bytes, UDT_AMOUNT_SIZE);
    AmountRange();
    assert bytes[0..UDT_AMOUNT_SIZE] == bytes[..UDT_AMOUNT_SIZE];
    DivModUnique(LeVal(bytes), TWO128, LeVal(bytes[UDT_AMOUNT_SIZE..]), Amount(bytes, 0));
  }

  lemma {:induction false} HexLength(n: nat, k: nat)
    requires k > 0 && n < Pow16(k)
    ensures |ToHex(n)| <= k
  {
    if n >= 16 {
      HexLength(n / 16, k - 1);
    }
  }

  function Pow16(k: nat): nat {
    if k == 0 then 1 else 16 * Pow16(k - 1)
  }

  lemma Pow16Is()
    ensures Pow16(32) == TWO128
  {
    assert Pow16(8) == BASE;
    assert Pow16(16) == TWO64;
    assert Pow16(24) == TWO64 * BASE;
  }

  /** A number below 2^128 is written as exactly 16 bytes, least significant first. */
  lemma CellDataIsAmount(n: nat)
    requires n < TWO128
    ensures HexBytes(PadEnd(PairsReversed(BnToHex(n)[2..]), 32)) == ToLe(n, 16)
  {
    var hex, body := BnToHex(n)[2..], PairsReversed(BnToHex(n)[2..]);
    EvenHex(n);
    Pow16Is();
    HexLength(n, 32);
    ReversedIsLittleEndian(hex);
    PaddedValue(body);
    var bytes := HexBytes(PadEnd(body, 32));
    ToLeOfLe(bytes);
  }

  /**
   * Cell data written by `toUDTData` is at least 16 bytes, and reading the amount back gives the number
   * modulo 2^128: exactly the number whenever it is in range.
   */
  lemma CellDataReadsBack(n: nat)
    ensures var bytes := HexBytes(PadEnd(PairsReversed(BnToHex(n)[2..]), 32));
            |bytes| >= UDT_AMOUNT_SIZE && Amount(bytes, 0) == n % TWO128
  {
    EvenHex(n);
    ReversedIsLittleEndian(BnToHex(n)[2..]);
    var body := PairsReversed(BnToHex(n)[2..]);
    PaddedValue(body);
    AmountOfLong(HexBytes(PadEnd(body, 32)));
  }
}
