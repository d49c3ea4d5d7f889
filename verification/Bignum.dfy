/** The 1024-bit unsigned integers of `bn.c`: 32 limbs, updated in place, operands possibly aliased. */
module Bignum {
  import opened Numbers
  import opened Limbs

  const LIMBS: nat := 32

  /** 2^1024, the modulus of the bignum arithmetic. */
  function MODULUS(): nat {
    R(LIMBS)
  }

  datatype Order = SMALLER | EQUAL | LARGER

  // `struct bn` is an array of this length.
  predicate IsBn(a: array<Word>) {
    a.Length == LIMBS
  }

  ghost function V(a: array<Word>): nat
    reads a
  {
    Val(a[..])
  }

  method BignumInit(n: array<Word>)
    requires IsBn(n)
    modifies n
    ensures V(n) == 0
  {
    for i := 0 to LIMBS
      invariant forall k :: 0 <= k < i ==> n[k] == 0
    {
      n[i] := 0;
    }
    ValZeros(n[..]);
  }

  method BignumFromUint64(n: array<Word>, i: U64)
    requires IsBn(n)
    modifies n
    ensures V(n) == i
  {
    BignumInit(n);
    forall k | 0 <= k < LIMBS ensures n[k] == 0 {
      ValZeroOnly(n[..], k);
    }
    n[0] := i % BASE;
    n[1] := i / BASE;
    ValDropZeros(n[..], 2);
    assert n[..2][1..] == [n[1]] && [n[1]][1..] == [];
    assert Val(n[..2]) == n[0] + BASE * (n[1] + BASE * Val([]));
  }

  method BignumAdd(a: array<Word>, b: array<Word>, c: array<Word>)
    requires IsBn(a) && IsBn(b) && IsBn(c)
    modifies c
    ensures V(c) == AddMod(old(V(a)), old(V(b)), LIMBS)
  {
    ghost var x, y := a[..], b[..];
    var carry := 0;
    for i := 0 to LIMBS
      invariant carry == CarryInto(x, y, i)
      invariant forall k :: i <= k < LIMBS ==> a[k] == x[k] && b[k] == y[k]
      invariant forall k :: 0 <= k < i ==> c[k] == SumLimb(x, y, k)
    {
      assert a[i] == x[i] && b[i] == y[i];
      var tmp := (a[i] as int) + (b[i] as int) + carry;
      c[i] := SumLow(x, y, i, tmp);
      carry := if tmp > BASE - 1 then 1 else 0;
    }
    ValSum(x, y, c[..]);
  }

  /** `tmp & MAX_VAL`, known to be limb `i` of the sum. */
  function SumLow(ghost x: seq<Word>, ghost y: seq<Word>, ghost i: nat, tmp: int): (w: Word)
    requires i < |x| == |y|
    requires tmp == x[i] as int + y[i] as int + CarryInto(x, y, i)
    ensures w == SumLimb(x, y, i)
    ensures CarryInto(x, y, i + 1) == if tmp > BASE - 1 then 1 else 0
  {
    tmp % BASE
  }

  method BignumSub(a: array<Word>, b: array<Word>, c: array<Word>)
    requires IsBn(a) && IsBn(b) && IsBn(c)
    modifies c
    ensures V(c) == SubMod(old(V(a)), old(V(b)), LIMBS)
  {
    ghost var x, y := a[..], b[..];
    var borrow := 0;
    for i := 0 to LIMBS
      invariant borrow == BorrowInto(x, y, i)
      invariant forall k :: i <= k < LIMBS ==> a[k] == x[k] && b[k] == y[k]
      invariant forall k :: 0 <= k < i ==> c[k] == DiffLimb(x, y, k)
    {
      var tmp1 := (a[i] as int) + BASE;
      var tmp2 := (b[i] as int) + borrow;
      var res := tmp1 - tmp2;
      c[i] := res % BASE;
      assert c[i] == DiffLimb(x, y, i);
      borrow := if res <= BASE - 1 then 1 else 0;
    }
    ValDiff(x, y, c[..]);
  }

  method BignumOr(a: array<Word>, b: array<Word>, c: array<Word>)
    requires IsBn(a) && IsBn(b) && IsBn(c)
    modifies c
    ensures V(c) == BitOr(old(V(a)), old(V(b)))
  {
    ghost var x, y := a[..], b[..];
    for i := 0 to LIMBS
      invariant forall k :: i <= k < LIMBS ==> a[k] == x[k] && b[k] == y[k]
      invariant forall k :: 0 <= k < i ==> c[k] == OrWord(x[k], y[k])
    {
      c[i] := OrWord(a[i], b[i]);
    }
    assert c[..] == OrLimbs(x, y);
    ValOr(x, y);
  }

  method BignumCmp(a: array<Word>, b: array<Word>) returns (r: Order)
    requires IsBn(a) && IsBn(b)
    ensures r == if V(a) > V(b) then LARGER else if V(a) < V(b) then SMALLER else EQUAL
  {
    var i := LIMBS;
    while i != 0
      invariant 0 <= i <= LIMBS
      invariant a[i..] == b[i..]
    {
      i := i - 1;
      if a[i] > b[i] {
        ValLess(b[..], a[..], i);
        return LARGER;
      } else if a[i] < b[i] {
        ValLess(a[..], b[..], i);
        return SMALLER;
      }
    }
    assert a[..] == a[0..] && b[..] == b[0..];
    return EQUAL;
  }

  method BignumIsZero(n: array<Word>) returns (r: bool)
    requires IsBn(n)
    ensures r <==> V(n) == 0
  {
    for i := 0 to LIMBS
      invariant forall k :: 0 <= k < i ==> n[k] == 0
    {
      if n[i] != 0 {
        if V(n) == 0 {
          ValZeroOnly(n[..], i);
        }
        return false;
      }
    }
    ValZeros(n[..]);
    return true;
  }

  method BignumAssign(dst: array<Word>, src: array<Word>)
    requires IsBn(dst) && IsBn(src)
    modifies dst
    ensures dst[..] == old(src[..])
  {
    ghost var x := src[..];
    for i := 0 to LIMBS
      invariant src[..] == x
      invariant forall k :: 0 <= k < i ==> dst[k] == x[k]
    {
      dst[i] := src[i];
    }
  }

  /** Shifts by whole limbs; the limbs pushed past the top are dropped. */
  method LShiftWord(a: array<Word>, nwords: nat)
    requires IsBn(a)
    modifies a
    ensures Cong(V(a), Scaled(old(V(a)), nwords), MODULUS())
  {
    ghost var s := a[..];
    var i: int := LIMBS - 1;
    while i >= nwords
      invariant i < LIMBS && (i >= nwords - 1 || i == LIMBS - 1)
      invariant forall k :: 0 <= k <= i ==> a[k] == s[k]
      invariant forall k :: i < k < LIMBS ==> nwords <= k && a[k] == s[k - nwords]
    {
      a[i] := a[i - nwords];
      i := i - 1;
    }
    while i >= 0
      invariant -1 <= i < nwords && i < LIMBS
      invariant forall k :: i < k < nwords && k < LIMBS ==> a[k] == 0
      invariant forall k :: nwords <= k < LIMBS ==> a[k] == s[k - nwords]
    {
      a[i] := 0;
      i := i - 1;
    }
    if nwords <= LIMBS {
      ValShlWords(s, a[..], nwords);
    } else {
      ValShlAll(s, a[..], nwords);
    }
  }

  /** Doubles in place; only a set top bit is lost. */
  method LShiftOneBit(a: array<Word>)
    requires IsBn(a)
    modifies a
    ensures V(a) == if 2 * old(V(a)) < MODULUS() then 2 * old(V(a)) else 2 * old(V(a)) - MODULUS()
  {
    ghost var s := a[..];
    var i := LIMBS - 1;
    while i > 0
      invariant 0 <= i < LIMBS
      invariant forall k :: 0 <= k <= i ==> a[k] == s[k]
      invariant forall k :: i < k < LIMBS ==> a[k] == ShlLimb(s, k)
    {
      ShlWord(a[i], a[i - 1]);
      a[i] := OrWord((2 * a[i] as int) % BASE, a[i - 1] / 0x8000_0000);
      i := i - 1;
    }
    a[0] := (2 * a[0] as int) % BASE;
    ValShl(s, a[..]);
    TopBitVal(s);
  }

  /** Halves in place, rounding down. */
  method RShiftOneBit(a: array<Word>)
    requires IsBn(a)
    modifies a
    ensures V(a) == old(V(a)) / 2
  {
    ghost var s := a[..];
    for i := 0 to LIMBS - 1
      invariant forall k :: i <= k < LIMBS ==> a[k] == s[k]
      invariant forall k :: 0 <= k < i ==> a[k] == ShrLimb(s, k)
    {
      ShrWord(a[i], a[i + 1]);
      a[i] := OrWord(a[i] / 2, (0x8000_0000 * a[i + 1] as int) % BASE);
    }
    a[LIMBS - 1] := a[LIMBS - 1] / 2;
    ValShr(s, a[..]);
  }

  // ----- multiplication

  /** What `row` stands for after `j` inner steps of row `i`. */
  ghost function RowUpTo(x: Word, i: nat, b: seq<Word>, j: nat): nat
    requires j <= |b|
  {
    (x * R(i)) * Val(b[..j])
  }

  /** The 64-bit product of two limbs. */
  function LimbProduct(x: Word, y: Word): U64 {
    MulMono(x, y, BASE - 1);
    x as int * y as int
  }

  /** One limb product, shifted into place, extends the row. */
  lemma RowStep(x: Word, i: nat, b: seq<Word>, j: nat, shift: nat, row: nat, tmp: nat, n: nat)
    requires j < |b| && shift == i + j
    requires Cong(row, RowUpTo(x, i, b, j), R(n)) && Cong(tmp, Scaled(LimbProduct(x, b[j]), shift), R(n))
    ensures Cong(AddMod(tmp, row, n), RowUpTo(x, i, b, j + 1), R(n))
  {
    CongAddMod(tmp, row, n);
    CongAdd(tmp, Scaled(LimbProduct(x, b[j]), shift), row, RowUpTo(x, i, b, j), R(n));
    RowNext(x, i, b, j);
  }

  lemma RowNext(x: Word, i: nat, b: seq<Word>, j: nat)
    requires j < |b|
    ensures RowUpTo(x, i, b, j + 1) == R(i + j) * (x * b[j]) + RowUpTo(x, i, b, j)
  {
    ValTake(b, j);
    RAdd(i, j);
    Distribute(x, R(i), Val(b[..j]), R(j), b[j], Val(b[..j + 1]));
  }

  lemma Distribute(x: int, r: int, v: int, q: int, y: int, w: int)
    requires w == v + q * y
    ensures (x * r) * w == (r * q) * (x * y) + (x * r) * v
  {
    calc {
      (x * r) * w;
      (x * r) * v + (x * r) * (q * y);
      (x * r) * v + (r * q) * (x * y);
    }
  }

  /** A limb pair past the top contributes a multiple of the modulus. */
  lemma RowSkip(x: Word, i: nat, b: seq<Word>, j: nat, row: nat, n: nat)
    requires j < |b| && i + j >= n
    requires Cong(row, RowUpTo(x, i, b, j), R(n))
    ensures Cong(row, RowUpTo(x, i, b, j + 1), R(n))
  {
    var k := R(i + j - n) * (x * b[j]);
    RowNext(x, i, b, j);
    RAdd(i + j - n, n);
    MulSwap(R(i + j - n), R(n), x * b[j]);
    CongByMultiple(RowUpTo(x, i, b, j + 1), RowUpTo(x, i, b, j), R(n), k);
  }

  lemma MulSwap(q: int, m: int, p: int)
    ensures (q * m) * p == (q * p) * m
  {
  }

  /** The sum of the first `i` rows. */
  ghost function RowsUpTo(a: seq<Word>, i: nat, b: seq<Word>): nat
    requires i <= |a|
  {
    Val(a[..i]) * Val(b)
  }

  lemma RowsNext(a: seq<Word>, i: nat, b: seq<Word>)
    requires i < |a|
    ensures RowsUpTo(a, i + 1, b) == RowsUpTo(a, i, b) + RowUpTo(a[i], i, b, |b|)
  {
    ValTake(a, i);
    assert b[..|b|] == b;
    Undistribute(Val(a[..i]), R(i), a[i], Val(b), Val(a[..i + 1]));
  }

  lemma Undistribute(v: int, r: int, x: int, y: int, w: int)
    requires w == v + r * x
    ensures w * y == v * y + (x * r) * y
  {
  }

  /** A finished row extends the sum of rows. */
  lemma RowsStep(a: seq<Word>, i: nat, b: seq<Word>, sum: nat, row: nat, n: nat)
    requires i < |a|
    requires Cong(sum, RowsUpTo(a, i, b), R(n)) && Cong(row, RowUpTo(a[i], i, b, |b|), R(n))
    ensures Cong(AddMod(sum, row, n), RowsUpTo(a, i + 1, b), R(n))
  {
    CongAddMod(sum, row, n);
    CongAdd(sum, RowsUpTo(a, i, b), row, RowUpTo(a[i], i, b, |b|), R(n));
    RowsNext(a, i, b);
  }

  method BignumMul(a: array<Word>, b: array<Word>, c: array<Word>)
    requires IsBn(a) && IsBn(b) && IsBn(c)
    requires c != a && c != b
    modifies c
    ensures Cong(V(c), V(a) * V(b), MODULUS())
    ensures V(a) * V(b) < MODULUS() ==> V(c) == V(a) * V(b)
  {
    ghost var x, y := a[..], b[..];
    var row, tmp := new Word[LIMBS], new Word[LIMBS];
    BignumInit(c);
    RowsNone(x, y);
    for i := 0 to LIMBS
      invariant a[..] == x && b[..] == y
      invariant Cong(V(c), RowsUpTo(x, i, y), MODULUS())
    {
      ghost var sum := V(c);
      BignumInit(row);
      RowNone(x[i], i, y);
      for j := 0 to LIMBS
        invariant a[..] == x && b[..] == y && V(c) == sum
        invariant Cong(V(row), RowUpTo(x[i], i, y, j), MODULUS())
      {
        ghost var partial := V(row);
        var shift := i + j;
        if shift < LIMBS {
          BignumInit(tmp);
          var intermediate := LimbProduct(a[i], b[j]);
          assert intermediate == LimbProduct(x[i], y[j]);
          BignumFromUint64(tmp, intermediate);
          LShiftWord(tmp, shift);
          RowStep(x[i], i, y, j, shift, partial, V(tmp), LIMBS);
          BignumAdd(tmp, row, row);
        } else {
          RowSkip(x[i], i, y, j, V(row), LIMBS);
        }
      }
      RowsStep(x, i, y, sum, V(row), LIMBS);
      BignumAdd(c, row, c);
    }
    RowsAll(x, y);
    if V(a) * V(b) < MODULUS() {
      ValBound(c[..]);
      CongExact(V(c), V(a) * V(b), MODULUS());
    }
  }

  lemma RowNone(x: Word, i: nat, b: seq<Word>)
    ensures RowUpTo(x, i, b, 0) == 0
  {
    assert b[..0] == [];
  }

  lemma RowsNone(a: seq<Word>, b: seq<Word>)
    ensures RowsUpTo(a, 0, b) == 0
  {
    assert a[..0] == [];
  }

  lemma RowsAll(a: seq<Word>, b: seq<Word>)
    ensures RowsUpTo(a, |a|, b) == Val(a) * Val(b)
  {
    assert a[..|a|] == a;
  }

  // ----- division

  const HALF_MAX: nat := 1 + (BASE - 1) / 2

  lemma {:induction false} UpMono(d: nat, k: nat)
    requires d > 0
    ensures Pow2(k) <= Up(d, k)
  {
    if k > 0 {
      UpMono(d, k - 1);
    }
  }

  lemma {:induction false} UpDouble(m: nat, k: nat)
    ensures Up(2 * m, k) == Up(m, k + 1)
    ensures Up(2 * m + 1, k) == Up(m, k + 1) + Pow2(k)
  {
    if k > 0 {
      UpDouble(m, k - 1);
    }
  }

  /** Where the division stands: `q` is the quotient so far, a multiple of 2^(k+1), and `rem` what is left. */
  ghost predicate Dividing(n: nat, d: nat, q: nat, rem: nat, k: nat, m: nat) {
    && n == q * d + rem
    && rem < 2 * Up(d, k)
    && q == Up(m, k + 1)
  }

  /** The step that sets bit `k` of the quotient: OR adds 2^k because the bit was clear. */
  lemma SetBit(n: nat, d: nat, q: nat, rem: nat, k: nat, m: nat)
    requires Dividing(n, d, q, rem, k, m) && Up(d, k) <= rem
    ensures BitOr(q, Pow2(k)) == Up(2 * m + 1, k)
    ensures n == BitOr(q, Pow2(k)) * d + (rem - Up(d, k))
  {
    UpDouble(m, k);
    Pow2Less(k);
    BitOrDisjoint(k + 1, Pow2(k), m);
    UpIsScale(d, k);
    AddMultiple(q, Pow2(k), d);
  }

  lemma Pow2Less(k: nat)
    ensures Pow2(k) < Pow2(k + 1)
  {
  }

  lemma AddMultiple(q: int, p: int, d: int)
    ensures (q + p) * d == q * d + p * d
  {
  }

  lemma KeepBit(n: nat, d: nat, q: nat, rem: nat, k: nat, m: nat)
    requires Dividing(n, d, q, rem, k, m)
    ensures q == Up(2 * m, k)
  {
    UpDouble(m, k);
  }

  /** Doubles both numbers; neither wraps. */
  method DoubleBoth(current: array<Word>, denom: array<Word>)
    requires IsBn(current) && IsBn(denom) && current != denom
    requires V(current) <= V(denom) && 2 * V(denom) < MODULUS()
    modifies current, denom
    ensures V(current) == 2 * old(V(current)) && V(denom) == 2 * old(V(denom))
  {
    ghost var den := denom[..];
    LShiftOneBit(current);
    assert denom[..] == den;
    ghost var cur := current[..];
    LShiftOneBit(denom);
    assert current[..] == cur;
  }

  /** Whether doubling would overflow. */
  method TopBitIsSet(a: array<Word>) returns (r: bool)
    requires IsBn(a)
    ensures r <==> 2 * V(a) >= MODULUS()
    ensures V(a) < MODULUS()
  {
    TopBitVal(a[..]);
    ValBound(a[..]);
    r := a[LIMBS - 1] >= HALF_MAX;
  }

  /** How far scaling has come: the divisor times 2^k, reached without passing `n` before. */
  ghost predicate ScaledUp(n: nat, d: nat, k: nat, cur: nat, den: nat) {
    cur == Pow2(k) && den == Up(d, k) && (k > 0 ==> Up(d, k - 1) <= n)
  }

  lemma ScaleStep(n: nat, d: nat, k: nat, cur: nat, den: nat)
    requires d > 0 && ScaledUp(n, d, k, cur, den)
    ensures cur <= den
    ensures den <= n ==> ScaledUp(n, d, k + 1, 2 * cur, 2 * den)
  {
    UpMono(d, k);
  }

  /** Doubles `current` and `denom` together until `denom` passes `a` or its top bit is set. */
  method ScaleUp(a: array<Word>, current: array<Word>, denom: array<Word>, ghost d: nat)
      returns (overflow: bool, ghost k: nat)
    requires IsBn(a) && IsBn(current) && IsBn(denom)
    requires a != current && a != denom && current != denom
    requires V(current) == 1 && V(denom) == d > 0
    modifies current, denom
    ensures ScaledUp(V(a), d, k, V(current), V(denom))
    ensures if overflow then V(denom) <= V(a) < 2 * V(denom) else V(a) < V(denom)
  {
    ghost var s := a[..];
    ValBound(s);
    overflow, k := false, 0;
    var order := BignumCmp(denom, a);
    while order != LARGER
      invariant a[..] == s && V(denom) > 0
      invariant ScaledUp(Val(s), d, k, V(current), V(denom))
      invariant order == LARGER <==> V(denom) > Val(s)
      decreases MODULUS() - V(denom)
    {
      ScaleStep(Val(s), d, k, V(current), V(denom));
      var top := TopBitIsSet(denom);
      if top {
        overflow := true;
        return;
      }
      DoubleBoth(current, denom);
      k := k + 1;
      order := BignumCmp(denom, a);
    }
  }

  /** Where the division stands between two passes: either bit `k` is next or the quotient is complete. */
  ghost predicate Ready(n: nat, d: nat, cur: nat, den: nat, q: nat, rem: nat, k: nat, m: nat) {
    if cur == 0 then n == q * d + rem && rem < d
    else cur == Pow2(k) && den == Up(d, k) && Dividing(n, d, q, rem, k, m)
  }

  lemma HalveBit(n: nat, d: nat, q: nat, rem: nat, k: nat, m: nat)
    requires n == q * d + rem && rem < Up(d, k) && q == Up(m, k)
    ensures Ready(n, d, Pow2(k) / 2, Up(d, k) / 2, q, rem, if k == 0 then 0 else k - 1, m)
  {
  }

  /** One pass: takes `denom` off the remainder and sets the bit when it fits. */
  method TryBit(current: array<Word>, denom: array<Word>, tmp: array<Word>, c: array<Word>,
                ghost n: nat, ghost d: nat, ghost k: nat, ghost m: nat)
      returns (ghost m': nat)
    requires IsBn(current) && IsBn(denom) && IsBn(tmp) && IsBn(c)
    requires tmp != c && tmp != current && tmp != denom && c != current && c != denom
    requires V(current) == Pow2(k) && V(denom) == Up(d, k) && Dividing(n, d, V(c), V(tmp), k, m)
    modifies tmp, c
    ensures n == V(c) * d + V(tmp) && V(tmp) < Up(d, k) && V(c) == Up(m', k)
  {
    ghost var cur, den := current[..], denom[..];
    var order := BignumCmp(tmp, denom);
    if order != SMALLER {
      SetBit(n, d, V(c), V(tmp), k, m);
      BignumSub(tmp, denom, tmp);
      assert current[..] == cur;
      BignumOr(c, current, c);
      m' := 2 * m + 1;
    } else {
      KeepBit(n, d, V(c), V(tmp), k, m);
      m' := 2 * m;
    }
  }

  /** Halves `current` and `denom` until `current` is used up, trying a bit each time. */
  method ShiftSubtract(current: array<Word>, denom: array<Word>, tmp: array<Word>, c: array<Word>,
                       ghost n: nat, ghost d: nat, ghost k0: nat)
    requires IsBn(current) && IsBn(denom) && IsBn(tmp) && IsBn(c)
    requires tmp != c && tmp != current && tmp != denom && c != current && c != denom && current != denom
    requires d > 0 && Ready(n, d, V(current), V(denom), V(c), V(tmp), k0, 0)
    modifies current, denom, tmp, c
    ensures V(c) == n / d
  {
    ghost var k, m: nat := k0, 0;
    var done := BignumIsZero(current);
    while !done
      invariant done <==> V(current) == 0
      invariant Ready(n, d, V(current), V(denom), V(c), V(tmp), k, m)
      decreases V(current)
    {
      m := TryBit(current, denom, tmp, c, n, d, k, m);
      HalveBit(n, d, V(c), V(tmp), k, m);
      ghost var rem, quot := tmp[..], c[..];
      RShiftOneBit(current);
      RShiftOneBit(denom);
      assert tmp[..] == rem && c[..] == quot;
      k := if k == 0 then 0 else k - 1;
      done := BignumIsZero(current);
    }
    DivModUnique(n, d, V(c), V(tmp));
  }

  lemma StartReady(n: nat, d: nat, cur: nat, den: nat, k: nat, overflow: bool)
    requires d > 0 && ScaledUp(n, d, k, cur, den)
    requires if overflow then den <= n < 2 * den else n < den
    ensures if overflow then Ready(n, d, cur, den, 0, n, k, 0)
            else Ready(n, d, cur / 2, den / 2, 0, n, if k == 0 then 0 else k - 1, 0)
  {
    UpIsScale(0, k + 1);
    UpIsScale(0, k);
  }

  /** Shift-and-subtract division; `c` may be the same number as `a` or `b`. */
  method BignumDiv(a: array<Word>, b: array<Word>, c: array<Word>)
    requires IsBn(a) && IsBn(b) && IsBn(c)
    requires V(b) > 0
    modifies c
    ensures V(c) == old(V(a)) / old(V(b))
  {
    ghost var n, d := V(a), V(b);
    var current, denom, tmp := new Word[LIMBS], new Word[LIMBS], new Word[LIMBS];
    BignumFromUint64(current, 1);
    BignumAssign(denom, b);
    BignumAssign(tmp, a);
    ghost var rem := tmp[..];
    var overflow, k := ScaleUp(a, current, denom, d);
    StartReady(n, d, V(current), V(denom), k, overflow);
    if !overflow {
      RShiftOneBit(denom);
      RShiftOneBit(current);
      k := if k == 0 then 0 else k - 1;
    }
    BignumInit(c);
    assert tmp[..] == rem;
    ShiftSubtract(current, denom, tmp, c, n, d, k);
  }
}
