/** Little-endian byte strings, and the 128-bit amounts that cell data carries. */
module ByteOrder {
  import opened Numbers

  type U32 = x: int | 0 <= x < BASE

  function Pow256(n: nat): (p: nat)
    ensures p > 0
  {
    if n == 0 then 1 else 0x100 * Pow256(n - 1)
  }

  /** The number that `s` spells, least significant byte first. */
  function LeVal(s: seq<byte>): nat {
    if s == [] then 0 else s[0] + 0x100 * LeVal(s[1..])
  }

  /** The `n` low bytes of `x`, least significant first. */
  function ToLe(x: nat, n: nat): (s: seq<byte>)
    ensures |s| == n
  {
    if n == 0 then [] else [x % 0x100] + ToLe(x / 0x100, n - 1)
  }

  lemma LeFrom(s: seq<byte>, i: nat)
    requires i < |s|
    ensures LeVal(s[i..]) == s[i] + 0x100 * LeVal(s[i + 1..])
  {
    assert s[i..][1..] == s[i + 1..];
  }

  lemma {:induction false} LeBound(s: seq<byte>)
    ensures LeVal(s) < Pow256(|s|)
  {
    if s != [] {
      LeBound(s[1..]);
    }
  }

  /** Writing a number and reading it back. */
  lemma {:induction false} LeOfToLe(x: nat, n: nat)
    requires x < Pow256(n)
    ensures LeVal(ToLe(x, n)) == x
  {
    if n > 0 {
      LeOfToLe(x / 0x100, n - 1);
      assert ToLe(x, n)[1..] == ToLe(x / 0x100, n - 1);
    }
  }

  /** Reading bytes and writing them back. */
  lemma {:induction false} ToLeOfLe(s: seq<byte>)
    ensures ToLe(LeVal(s), |s|) == s
  {
    if s != [] {
      ToLeOfLe(s[1..]);
      assert s == [s[0]] + s[1..];
    }
  }

  lemma {:induction false} LeAppend(s: seq<byte>, b: byte)
    ensures LeVal(s + [b]) == LeVal(s) + Pow256(|s|) * b
  {
    if s == [] {
      assert [b][1..] == [];
    } else {
      LeAppend(s[1..], b);
      assert (s + [b])[1..] == s[1..] + [b];
      MulNest(Pow256(|s| - 1), b);
    }
  }

  lemma MulNest(p: int, b: int)
    ensures (0x100 * p) * b == 0x100 * (p * b)
  {
  }

  const UDT_AMOUNT_SIZE: nat := 16

  lemma AmountRange()
    ensures Pow256(16) == TWO128 && Pow256(8) == TWO64 && Pow256(4) == BASE
  {
    assert Pow256(4) == BASE;
    assert Pow256(8) == TWO64;
  }

  /** The 128-bit amount stored at `from`. */
  function Amount(arr: seq<byte>, from: nat): U128
    requires from + UDT_AMOUNT_SIZE <= |arr|
  {
    LeBound(arr[from..from + UDT_AMOUNT_SIZE]);
    AmountRange();
    LeVal(arr[from..from + UDT_AMOUNT_SIZE])
  }

  method GetUint128(from: nat, arr: seq<byte>) returns (ret: U128)
    requires from + UDT_AMOUNT_SIZE <= |arr|
    ensures ret == Amount(arr, from)
  {
    ghost var field := arr[from..from + UDT_AMOUNT_SIZE];
    ret := 0;
    AmountRange();
    for i := 0 to UDT_AMOUNT_SIZE
      invariant ret == LeVal(field[..i])
    {
      LeAppend(field[..i], field[i]);
      assert field[..i + 1] == field[..i] + [field[i]];
      AmountPrefix(field, i + 1);
      ret := ret + ShiftedByte(arr[from + i], i);
    }
    assert field[..UDT_AMOUNT_SIZE] == field;
  }

  lemma AmountPrefix(field: seq<byte>, i: nat)
    requires |field| == UDT_AMOUNT_SIZE && i <= UDT_AMOUNT_SIZE
    ensures LeVal(field[..i]) < TWO128
  {
    LeBound(field[..i]);
    Pow256Mono(i, UDT_AMOUNT_SIZE);
    AmountRange();
  }

  lemma {:induction false} Pow256Mono(m: nat, n: nat)
    requires m <= n
    ensures Pow256(m) <= Pow256(n)
  {
    if m < n {
      Pow256Mono(m, n - 1);
    }
  }

  /** `(uint128_t)b << (8*i)`. */
  function ShiftedByte(b: byte, i: nat): nat {
    Pow256(i) * b
  }
}
