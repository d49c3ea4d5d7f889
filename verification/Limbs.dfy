/** Little-endian limb sequences and the integers they stand for. */
module Limbs {
  import opened Numbers

  /** `R(n)` is the radix power 2^(32 n). */
  function R(n: nat): (r: nat)
    ensures r > 0
  {
    if n == 0 then 1 else BASE * R(n - 1)
  }

  /** The integer a limb sequence stands for, least significant limb first. */
  function Val(s: seq<Word>): nat {
    if s == [] then 0 else s[0] + BASE * Val(s[1..])
  }

  lemma {:induction false} ValBound(s: seq<Word>)
    ensures Val(s) < R(|s|)
  {
    if s != [] {
      ValBound(s[1..]);
    }
  }

  lemma {:induction false} RAdd(m: nat, n: nat)
    ensures R(m + n) == R(m) * R(n)
  {
    if m > 0 {
      RAdd(m - 1, n);
      MulScale(BASE, R(m - 1), R(n));
    }
  }

  lemma {:induction false} RMono(m: nat, n: nat)
    requires m <= n
    ensures R(m) <= R(n)
  {
    if m < n {
      RMono(m, n - 1);
    }
  }

  lemma MulScale(a: int, x: int, y: int)
    ensures a * (x * y) == (a * x) * y
  {
  }

  lemma ValFrom(s: seq<Word>, i: nat)
    requires i < |s|
    ensures Val(s[i..]) == s[i] + BASE * Val(s[i + 1..])
  {
    assert s[i..][1..] == s[i + 1..];
  }

  lemma {:induction false} ValZeros(s: seq<Word>)
    requires forall i :: 0 <= i < |s| ==> s[i] == 0
    ensures Val(s) == 0
  {
    if s != [] {
      ValZeros(s[1..]);
    }
  }

  lemma {:induction false} ValZeroOnly(s: seq<Word>, i: nat)
    requires i < |s| && Val(s) == 0
    ensures s[i] == 0
  {
    if i > 0 {
      ValZeroOnly(s[1..], i - 1);
    }
  }

  /** The first differing limb from the top decides the comparison. */
  lemma {:induction false} ValLess(s: seq<Word>, t: seq<Word>, i: nat)
    requires i < |s| == |t| && s[i] < t[i]
    requires s[i + 1..] == t[i + 1..]
    ensures Val(s) < Val(t)
  {
    if i > 0 {
      assert s[1..][i..] == s[i + 1..] && t[1..][i..] == t[i + 1..];
      ValLess(s[1..], t[1..], i - 1);
    }
  }

  /** Equal values mean equal limbs. */
  lemma {:induction false} ValInjective(s: seq<Word>, t: seq<Word>)
    requires |s| == |t| && Val(s) == Val(t)
    ensures s == t
  {
    if s != [] {
      ValInjective(s[1..], t[1..]);
      assert s == [s[0]] + s[1..] && t == [t[0]] + t[1..];
    }
  }

  // ----- addition and subtraction

  /** The carry that ripple addition brings into limb `i`. */
  function CarryInto(x: seq<Word>, y: seq<Word>, i: nat): (c: int)
    requires i <= |x| == |y|
    ensures 0 <= c <= 1
  {
    if i == 0 then 0 else (x[i - 1] + y[i - 1] + CarryInto(x, y, i - 1)) / BASE
  }

  function SumLimb(x: seq<Word>, y: seq<Word>, i: nat): Word
    requires i < |x| == |y|
  {
    (x[i] + y[i] + CarryInto(x, y, i)) % BASE
  }

  /** The borrow that ripple subtraction brings into limb `i`. */
  function BorrowInto(x: seq<Word>, y: seq<Word>, i: nat): (b: int)
    requires i <= |x| == |y|
    ensures 0 <= b <= 1
  {
    if i == 0 then 0 else 1 - (x[i - 1] + BASE - (y[i - 1] + BorrowInto(x, y, i - 1))) / BASE
  }

  function DiffLimb(x: seq<Word>, y: seq<Word>, i: nat): Word
    requires i < |x| == |y|
  {
    (x[i] + BASE - (y[i] + BorrowInto(x, y, i))) % BASE
  }

  /** Sum of two integers of `n` limbs, wrapped to `n` limbs. */
  function AddMod(x: nat, y: nat, n: nat): int {
    if x + y < R(n) then x + y else x + y - R(n)
  }

  /** Difference of two integers of `n` limbs, wrapped to `n` limbs. */
  function SubMod(x: nat, y: nat, n: nat): int {
    if x >= y then x - y else x - y + R(n)
  }

  lemma SumDigit(x: seq<Word>, y: seq<Word>, i: nat)
    requires i < |x| == |y|
    ensures SumLimb(x, y, i) + BASE * CarryInto(x, y, i + 1) == x[i] + y[i] + CarryInto(x, y, i)
  {
  }

  lemma DiffDigit(x: seq<Word>, y: seq<Word>, i: nat)
    requires i < |x| == |y|
    ensures DiffLimb(x, y, i) - BASE * BorrowInto(x, y, i + 1) == x[i] - y[i] - BorrowInto(x, y, i)
  {
  }

  /** What ripple addition carries out of the limbs from `i` on, at their scale. */
  ghost function CarryOut(x: seq<Word>, y: seq<Word>, i: nat): int
    requires i <= |x| == |y|
  {
    if CarryInto(x, y, |x|) == 1 then R(|x| - i) else 0
  }

  lemma CarryOutStep(x: seq<Word>, y: seq<Word>, i: nat)
    requires i < |x| == |y|
    ensures CarryOut(x, y, i) == BASE * CarryOut(x, y, i + 1)
  {
  }

  lemma ValSum(x: seq<Word>, y: seq<Word>, c: seq<Word>)
    requires |x| == |y| == |c|
    requires forall k :: 0 <= k < |c| ==> c[k] == SumLimb(x, y, k)
    ensures Val(c) == AddMod(Val(x), Val(y), |c|)
    ensures CarryInto(x, y, |x|) == if Val(x) + Val(y) < R(|c|) then 0 else 1
  {
    ValSumFrom(x, y, c, 0);
    ValBound(x);
    ValBound(y);
    ValBound(c);
    assert c[0..] == c && x[0..] == x && y[0..] == y;
  }

  lemma {:induction false} ValSumFrom(x: seq<Word>, y: seq<Word>, c: seq<Word>, i: nat)
    requires i <= |x| == |y| == |c|
    requires forall k :: 0 <= k < |c| ==> c[k] == SumLimb(x, y, k)
    ensures Val(c[i..]) + CarryOut(x, y, i) == Val(x[i..]) + Val(y[i..]) + CarryInto(x, y, i)
    decreases |c| - i
  {
    if i < |c| {
      ValSumFrom(x, y, c, i + 1);
      ValFrom(x, i);
      ValFrom(y, i);
      ValFrom(c, i);
      SumDigit(x, y, i);
      CarryOutStep(x, y, i);
    }
  }

  /** What ripple subtraction borrows beyond the limbs from `i` on, at their scale. */
  ghost function BorrowOut(x: seq<Word>, y: seq<Word>, i: nat): int
    requires i <= |x| == |y|
  {
    if BorrowInto(x, y, |x|) == 1 then R(|x| - i) else 0
  }

  lemma BorrowOutStep(x: seq<Word>, y: seq<Word>, i: nat)
    requires i < |x| == |y|
    ensures BorrowOut(x, y, i) == BASE * BorrowOut(x, y, i + 1)
  {
  }

  lemma ValDiff(x: seq<Word>, y: seq<Word>, c: seq<Word>)
    requires |x| == |y| == |c|
    requires forall k :: 0 <= k < |c| ==> c[k] == DiffLimb(x, y, k)
    ensures Val(c) == SubMod(Val(x), Val(y), |c|)
  {
    ValDiffFrom(x, y, c, 0);
    ValBound(x);
    ValBound(y);
    ValBound(c);
    assert c[0..] == c && x[0..] == x && y[0..] == y;
  }

  lemma {:induction false} ValDiffFrom(x: seq<Word>, y: seq<Word>, c: seq<Word>, i: nat)
    requires i <= |x| == |y| == |c|
    requires forall k :: 0 <= k < |c| ==> c[k] == DiffLimb(x, y, k)
    ensures Val(c[i..]) - BorrowOut(x, y, i) == Val(x[i..]) - Val(y[i..]) - BorrowInto(x, y, i)
    decreases |c| - i
  {
    if i < |c| {
      ValDiffFrom(x, y, c, i + 1);
      ValFrom(x, i);
      ValFrom(y, i);
      ValFrom(c, i);
      DiffDigit(x, y, i);
      BorrowOutStep(x, y, i);
    }
  }

  // ----- limbwise OR

  function OrWord(x: Word, y: Word): Word {
    Pow2Word();
    BitOrSplit(32, x, 0, y, 0);
    BitOr(x, y)
  }

  function OrLimbs(s: seq<Word>, t: seq<Word>): (r: seq<Word>)
    requires |s| == |t|
    ensures |r| == |s|
  {
    seq(|s|, i requires 0 <= i < |s| => OrWord(s[i], t[i]))
  }

  lemma OrDigit(x: Word, h: nat, y: Word, k: nat)
    ensures BitOr(x + BASE * h, y + BASE * k) == OrWord(x, y) + BASE * BitOr(h, k)
  {
    Pow2Word();
    UpIsScale(h, 32);
    UpIsScale(k, 32);
    UpIsScale(BitOr(h, k), 32);
    BitOrSplit(32, x, h, y, k);
  }

  /** OR limb by limb is OR of the integers. */
  lemma {:induction false} ValOr(s: seq<Word>, t: seq<Word>)
    requires |s| == |t|
    ensures Val(OrLimbs(s, t)) == BitOr(Val(s), Val(t))
  {
    if s == [] {
      BitOrZero(0);
    } else {
      ValOr(s[1..], t[1..]);
      assert OrLimbs(s, t)[1..] == OrLimbs(s[1..], t[1..]);
      OrDigit(s[0], Val(s[1..]), t[0], Val(t[1..]));
    }
  }

  // ----- shifts

  /** The bit a left shift by one bit moves into limb `i`. */
  function BitInto(s: seq<Word>, i: nat): int
    requires i <= |s|
  {
    if i == 0 then 0 else s[i - 1] / 0x8000_0000
  }

  /** Limb `i` of a left shift by one bit. */
  function ShlLimb(s: seq<Word>, i: nat): Word
    requires i < |s|
  {
    (2 * s[i]) % BASE + BitInto(s, i)
  }

  /** Limb `i` of a right shift by one bit. */
  function ShrLimb(s: seq<Word>, i: nat): Word
    requires i < |s|
  {
    s[i] / 2 + (if i + 1 == |s| then 0 else (s[i + 1] % 2) * 0x8000_0000)
  }

  /** Both halves of a left-shifted limb occupy disjoint bits. */
  lemma ShlWord(x: Word, y: Word)
    ensures OrWord((2 * x) % BASE, y / 0x8000_0000) == (2 * x) % BASE + y / 0x8000_0000
  {
    var h := (2 * x) % BASE / 2;
    assert Up(h, 1) == 2 * Up(h, 0) == (2 * x) % BASE;
    BitOrDisjoint(1, y / 0x8000_0000, h);
  }

  /** Both halves of a right-shifted limb occupy disjoint bits. */
  lemma ShrWord(x: Word, y: Word)
    ensures OrWord(x / 2, (0x8000_0000 * y) % BASE) == x / 2 + (y % 2) * 0x8000_0000
  {
    LowBitUp(y);
    Pow2Word();
    BitOrDisjoint(31, x / 2, y % 2);
  }

  lemma LowBitUp(y: Word)
    ensures (0x8000_0000 * y) % BASE == (y % 2) * 0x8000_0000 == Up(y % 2, 31)
  {
    Pow2Word();
    UpIsScale(y % 2, 31);
  }

  predicate TopBit(s: seq<Word>)
    requires s != []
  {
    s[|s| - 1] >= 0x8000_0000
  }

  lemma ShlDigit(s: seq<Word>, i: nat)
    requires i < |s|
    ensures ShlLimb(s, i) + BASE * BitInto(s, i + 1) == 2 * s[i] + BitInto(s, i)
  {
  }

  /** The bit a left shift loses, at the scale of the limbs from `i` on. */
  ghost function BitOut(s: seq<Word>, i: nat): int
    requires s != [] && i <= |s|
  {
    if TopBit(s) then R(|s| - i) else 0
  }

  lemma BitOutStep(s: seq<Word>, i: nat)
    requires i < |s|
    ensures BitOut(s, i) == BASE * BitOut(s, i + 1)
  {
  }

  /** A left shift doubles; only a set top bit is lost. */
  lemma ValShl(s: seq<Word>, t: seq<Word>)
    requires |t| == |s| > 0
    requires forall i :: 0 <= i < |s| ==> t[i] == ShlLimb(s, i)
    ensures Val(t) + (if TopBit(s) then R(|s|) else 0) == 2 * Val(s)
  {
    ValShlFrom(s, t, 0);
    assert s[0..] == s && t[0..] == t;
  }

  lemma {:induction false} ValShlFrom(s: seq<Word>, t: seq<Word>, i: nat)
    requires i <= |t| == |s| && s != []
    requires forall i :: 0 <= i < |s| ==> t[i] == ShlLimb(s, i)
    ensures Val(t[i..]) + BitOut(s, i) == 2 * Val(s[i..]) + BitInto(s, i)
    decreases |s| - i
  {
    if i < |s| {
      ValShlFrom(s, t, i + 1);
      ValFrom(s, i);
      ValFrom(t, i);
      ShlDigit(s, i);
      BitOutStep(s, i);
    }
  }

  /** A right shift halves, rounding down. */
  lemma {:induction false} ValShr(s: seq<Word>, t: seq<Word>)
    requires |t| == |s| > 0
    requires forall i :: 0 <= i < |s| ==> t[i] == ShrLimb(s, i)
    ensures Val(t) == Val(s) / 2
    ensures Val(s) % 2 == s[0] % 2
  {
    if |s| > 1 {
      forall i | 0 <= i < |s| - 1
        ensures t[1..][i] == ShrLimb(s[1..], i)
      {
      }
      ValShr(s[1..], t[1..]);
    }
  }

  /** The top bit says whether doubling overflows. */
  lemma {:induction false} TopBitVal(s: seq<Word>)
    requires s != []
    ensures TopBit(s) <==> 2 * Val(s) >= R(|s|)
  {
    if |s| == 1 {
      assert R(1) == BASE * R(0);
    } else {
      TopBitVal(s[1..]);
    }
  }

  /** Shifting in a zero limb multiplies by the radix. */
  lemma {:induction false} ValShiftWords(s: seq<Word>, t: seq<Word>, n: nat)
    requires |t| == |s| + n
    requires forall i :: 0 <= i < n ==> t[i] == 0
    requires forall i :: n <= i < |t| ==> t[i] == s[i - n]
    ensures Val(t) == R(n) * Val(s)
  {
    if n == 0 {
      assert t == s;
    } else {
      ValShiftWords(s, t[1..], n - 1);
      MulScale(BASE, R(n - 1), Val(s));
    }
  }

  /** High limbs that are zero do not count. */
  lemma {:induction false} ValDropZeros(s: seq<Word>, k: nat)
    requires k <= |s|
    requires forall i :: k <= i < |s| ==> s[i] == 0
    ensures Val(s) == Val(s[..k])
  {
    if k == 0 {
      ValZeros(s);
    } else {
      ValDropZeros(s[1..], k - 1);
      assert s[1..][..k - 1] == s[..k][1..];
    }
  }

  /** Appending a limb adds it at its radix power. */
  lemma {:induction false} ValTake(s: seq<Word>, i: nat)
    requires i < |s|
    ensures Val(s[..i + 1]) == Val(s[..i]) + R(i) * s[i]
  {
    if i > 0 {
      ValTake(s[1..], i - 1);
      assert s[1..][..i - 1] == s[..i][1..] && s[1..][..i] == s[..i + 1][1..];
      MulScale(BASE, R(i - 1), s[i]);
    } else {
      assert s[..1][1..] == [];
    }
  }

  lemma {:induction false} ValAppend(s: seq<Word>, t: seq<Word>)
    ensures Val(s + t) == Val(s) + R(|s|) * Val(t)
  {
    if s == [] {
      assert s + t == t;
    } else {
      ValAppend(s[1..], t);
      assert (s + t)[1..] == s[1..] + t;
      MulScale(BASE, R(|s| - 1), Val(t));
    }
  }

  lemma ValSplit(s: seq<Word>, k: nat)
    requires k <= |s|
    ensures Val(s) == Val(s[..k]) + R(k) * Val(s[k..])
  {
    assert s == s[..k] + s[k..];
    ValAppend(s[..k], s[k..]);
  }

  /** `v` moved up by `n` limbs. */
  function Scaled(v: nat, n: nat): nat {
    R(n) * v
  }

  /** Whole-limb shift: `n` zero limbs come in, the top `n` limbs are lost. */
  lemma ValShlWords(s: seq<Word>, t: seq<Word>, n: nat)
    requires n <= |s| == |t|
    requires forall i :: 0 <= i < |t| ==> t[i] == if i < n then 0 else s[i - n]
    ensures Cong(Val(t), Scaled(Val(s), n), R(|s|))
  {
    var k := |s| - n;
    var low, high := Val(s[..k]), Val(s[k..]);
    assert Val(t) == R(n) * low by {
      ValShiftWords(s[..k], t, n);
    }
    assert Val(s) == low + R(k) * high by {
      ValSplit(s, k);
    }
    RAdd(n, k);
    ScaleCong(R(n), low, R(k), high, Val(s), R(|s|), Val(t));
  }

  lemma ScaleCong(r: int, low: int, q: int, high: int, v: int, m: nat, w: int)
    requires m > 0 && m == r * q && v == low + q * high && w == r * low
    ensures Cong(w, r * v, m)
  {
    ScaleSplit(r, low, q, high);
    CongByMultiple(w, r * v, m, -high);
  }

  lemma ScaleSplit(r: int, low: int, q: int, high: int)
    ensures r * low == r * (low + q * high) + -high * (r * q)
  {
  }

  /** A shift by all limbs or more leaves nothing of the number. */
  lemma ValShlAll(s: seq<Word>, t: seq<Word>, n: nat)
    requires |s| == |t| <= n
    requires forall i :: 0 <= i < |t| ==> t[i] == 0
    ensures Cong(Val(t), Scaled(Val(s), n), R(|s|))
  {
    ValZeros(t);
    RAdd(|s|, n - |s|);
    MulScale(R(|s|), R(n - |s|), Val(s));
    CongByMultiple(0, Scaled(Val(s), n), R(|s|), -(R(n - |s|) * Val(s)));
  }

  lemma CongAddMod(x: nat, y: nat, n: nat)
    ensures Cong(AddMod(x, y, n), x + y, R(n))
  {
    CongByMultiple(AddMod(x, y, n), x + y, R(n), if x + y < R(n) then 0 else -1);
  }

  lemma CongExact(x: nat, y: nat, m: nat)
    requires x < m && y < m && Cong(x, y, m)
    ensures x == y
  {
    DivModUnique(x, m, 0, x);
    DivModUnique(y, m, 0, y);
  }
}
