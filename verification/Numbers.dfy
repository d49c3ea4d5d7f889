/** Machine integers of the scripts and the small arithmetic facts the other modules share. */
module Numbers {
  const BASE: nat := 0x1_0000_0000
  const TWO64: nat := 0x1_0000_0000_0000_0000
  const TWO128: nat := 0x1_0000_0000_0000_0000_0000_0000_0000_0000

  type byte = x: int | 0 <= x < 0x100
  type Word = x: int | 0 <= x < BASE
  type U64 = x: int | 0 <= x < TWO64
  type U128 = x: int | 0 <= x < TWO128

  /** `a + b` on `uint128_t`. */
  function Add128(a: U128, b: U128): U128 {
    (a + b) % TWO128
  }

  /** `a - b` on `uint128_t`. */
  function Sub128(a: U128, b: U128): U128 {
    (a - b) % TWO128
  }

  function Pow2(e: nat): (p: nat)
    ensures p > 0
  {
    if e == 0 then 1 else 2 * Pow2(e - 1)
  }

  /** The bits of `x | y`. */
  function BitOr(x: nat, y: nat): nat
    decreases x + y
  {
    if x == 0 && y == 0 then 0
    else (if x % 2 == 1 || y % 2 == 1 then 1 else 0) + 2 * BitOr(x / 2, y / 2)
  }

  // ----- multiplication and division

  lemma MulMono(a: nat, x: int, y: int)
    requires x <= y
    ensures a * x <= a * y
  {
  }

  lemma MulCancel(a: int, x: int, y: int)
    requires a > 0 && a * x <= a * y
    ensures x <= y
  {
    if x > y {
      MulMono(a, y + 1, x);
    }
  }

  lemma MulCancelStrict(a: int, x: int, y: int)
    requires a > 0 && a * x < a * y
    ensures x < y
  {
    if x >= y {
      MulMono(a, y, x);
    }
  }

  /** Quotient and remainder are determined by their defining equation. */
  lemma DivModUnique(x: int, m: int, q: int, r: int)
    requires m > 0 && x == m * q + r && 0 <= r < m
    ensures x / m == q && x % m == r
  {
    var q', r' := x / m, x % m;
    assert x == m * q' + r';
    assert m * (q' - q) == r - r' by {
      assert m * (q' - q) == m * q' - m * q;
    }
    if q' > q {
      MulMono(m, 1, q' - q);
    } else if q' < q {
      MulMono(m, q' - q, -1);
    }
  }

  /** `q == x / m`, as the two inequalities that a floor satisfies and that determine it. */
  lemma FloorBounds(x: int, m: int)
    requires m > 0
    ensures m * (x / m) <= x < m * (x / m) + m
  {
  }

  lemma FloorIsNat(x: nat, m: nat)
    requires m > 0
    ensures x / m >= 0
  {
  }

  lemma FloorUnique(x: int, m: int, q: int)
    requires m > 0 && m * q <= x < m * q + m
    ensures x / m == q
  {
    DivModUnique(x, m, q, x - m * q);
  }

  lemma FloorAtLeast(x: int, m: int, q: int)
    requires m > 0
    ensures q <= x / m <==> m * q <= x
  {
    FloorBounds(x, m);
    if q <= x / m {
      MulMono(m, q, x / m);
    } else {
      MulMono(m, x / m + 1, q);
      assert m * (x / m + 1) == m * (x / m) + m;
    }
  }

  // ----- congruence

  ghost function Residue(x: int, m: nat): int
    requires m > 0
  {
    x % m
  }

  ghost predicate Cong(x: int, y: int, m: nat)
    requires m > 0
  {
    Residue(x, m) == Residue(y, m)
  }

  lemma CongByMultiple(x: int, y: int, m: nat, k: int)
    requires m > 0 && x == y + k * m
    ensures Cong(x, y, m)
  {
    var q, r := y / m, y % m;
    assert m * (q + k) == m * q + k * m;
    DivModUnique(x, m, q + k, r);
  }

  lemma CongQuotient(x: int, y: int, m: nat) returns (k: int)
    requires m > 0 && Cong(x, y, m)
    ensures x == y + k * m
  {
    k := x / m - y / m;
    assert m * (x / m - y / m) == m * (x / m) - m * (y / m);
  }

  lemma CongAdd(x: int, y: int, u: int, v: int, m: nat)
    requires m > 0 && Cong(x, y, m) && Cong(u, v, m)
    ensures Cong(x + u, y + v, m)
  {
    var k := CongQuotient(x, y, m);
    var l := CongQuotient(u, v, m);
    assert (k + l) * m == k * m + l * m;
    CongByMultiple(x + u, y + v, m, k + l);
  }

  // ----- OR on disjoint bits is addition

  /** `y` shifted left by `n` bits. */
  function Up(y: nat, n: nat): nat {
    if n == 0 then y else 2 * Up(y, n - 1)
  }

  lemma {:induction false} UpIsScale(y: nat, n: nat)
    ensures Up(y, n) == Pow2(n) * y
  {
    if n > 0 {
      UpIsScale(y, n - 1);
      MulAssoc2(Pow2(n - 1), y);
    }
  }

  lemma MulAssoc2(h: int, y: int)
    ensures (2 * h) * y == 2 * (h * y)
  {
  }

  lemma {:induction false} BitOrZero(x: nat)
    ensures BitOr(x, 0) == x && BitOr(0, x) == x
  {
    if x > 0 {
      BitOrZero(x / 2);
    }
  }

  lemma BitOrStep(x: nat, y: nat)
    ensures BitOr(x, y) == (if x % 2 == 1 || y % 2 == 1 then 1 else 0) + 2 * BitOr(x / 2, y / 2)
  {
    if x == 0 && y == 0 {
      assert BitOr(0, 0) == 0;
    }
  }

  /** OR works separately on the low `n` bits and on the bits above them. */
  lemma {:induction false} BitOrSplit(n: nat, x: nat, y: nat, u: nat, v: nat)
    requires x < Pow2(n) && u < Pow2(n)
    ensures BitOr(x + Up(y, n), u + Up(v, n)) == BitOr(x, u) + Up(BitOr(y, v), n)
    ensures BitOr(x, u) < Pow2(n)
  {
    if n == 0 {
      BitOrZero(0);
    } else {
      BitOrSplit(n - 1, x / 2, y, u / 2, v);
      BitOrDouble(x, Up(y, n - 1), u, Up(v, n - 1), Up(BitOr(y, v), n - 1));
    }
  }

  lemma BitOrDouble(x: nat, p: nat, u: nat, q: nat, r: nat)
    requires BitOr(x / 2 + p, u / 2 + q) == BitOr(x / 2, u / 2) + r
    ensures BitOr(x + 2 * p, u + 2 * q) == BitOr(x, u) + 2 * r
    ensures BitOr(x, u) <= 2 * BitOr(x / 2, u / 2) + 1
  {
    BitOrStep(x + 2 * p, u + 2 * q);
    BitOrStep(x, u);
  }

  /** When one operand only has low bits and the other only high bits, OR adds. */
  lemma {:induction false} BitOrDisjoint(n: nat, x: nat, y: nat)
    requires x < Pow2(n)
    ensures BitOr(x, Up(y, n)) == x + Up(y, n)
    ensures BitOr(Up(y, n), x) == x + Up(y, n)
  {
    if n == 0 {
      BitOrZero(y);
    } else {
      BitOrDisjoint(n - 1, x / 2, y);
      BitOrStep(x, Up(y, n));
      BitOrStep(Up(y, n), x);
    }
  }

  lemma Pow2Word()
    ensures Pow2(31) == 0x8000_0000 && Pow2(32) == BASE
  {
    assert Pow2(8) == 0x100;
    assert Pow2(16) == 0x1_0000;
    assert Pow2(31) == 0x8000_0000;
  }
}
