/** Bucket counts of the links table: powers of two, found by smearing bits, so that
    masking a hash picks a bucket. */
module Capacity {

  /** Bit `i` of a number. */
  predicate Bit(n: nat, i: nat)
    decreases i
  {
    if i == 0 then n % 2 == 1 else Bit(n / 2, i - 1)
  }

  /** n >> k */
  function Shr(n: nat, k: nat): nat
    decreases k
  {
    if k == 0 then n else Shr(n / 2, k - 1)
  }

  /** a | b */
  function Or(a: nat, b: nat): nat
  {
    if a == 0 && b == 0 then 0
    else 2 * Or(a / 2, b / 2) + if a % 2 == 1 || b % 2 == 1 then 1 else 0
  }

  /** a & b */
  function And(a: nat, b: nat): nat
  {
    if a == 0 && b == 0 then 0
    else 2 * And(a / 2, b / 2) + if a % 2 == 1 && b % 2 == 1 then 1 else 0
  }

  function Pow2(k: nat): (p: nat)
    ensures p >= 1
  {
    if k == 0 then 1 else 2 * Pow2(k - 1)
  }

  ghost predicate IsPow2(n: nat)
  {
    exists k: nat :: n == Pow2(k)
  }

  /** The number of bits up to the highest one that is set. */
  function Width(n: nat): nat
  {
    if n == 0 then 0 else 1 + Width(n / 2)
  }

  lemma {:induction false} ShrBit(n: nat, k: nat, i: nat)
    ensures Bit(Shr(n, k), i) <==> Bit(n, i + k)
    decreases k
  {
    if k > 0 {
      ShrBit(n / 2, k - 1, i);
    }
  }

  lemma {:induction false} OrBit(a: nat, b: nat, i: nat)
    ensures Bit(Or(a, b), i) <==> Bit(a, i) || Bit(b, i)
    decreases i
  {
    if a == 0 && b == 0 {
      ZeroBit(i);
    } else if i > 0 {
      OrBit(a / 2, b / 2, i - 1);
    }
  }

  lemma {:induction false} ZeroBit(i: nat)
    ensures !Bit(0, i)
    decreases i
  {
    if i > 0 {
      ZeroBit(i - 1);
    }
  }

  lemma {:induction false} BitsDetermine(a: nat, b: nat)
    requires forall i: nat :: Bit(a, i) <==> Bit(b, i)
    ensures a == b
    decreases a + b
  {
    if a + b > 0 {
      assert Bit(a, 0) <==> Bit(b, 0);
      forall i: nat ensures Bit(a / 2, i) <==> Bit(b / 2, i) {
        assert Bit(a, i + 1) <==> Bit(b, i + 1);
      }
      BitsDetermine(a / 2, b / 2);
    }
  }

  lemma {:induction false} OnesBit(k: nat, i: nat)
    ensures Bit(Pow2(k) - 1, i) <==> i < k
    decreases k
  {
    if k == 0 {
      ZeroBit(i);
    } else if i > 0 {
      assert (Pow2(k) - 1) / 2 == Pow2(k - 1) - 1;
      OnesBit(k - 1, i - 1);
    }
  }

  lemma {:induction false} WidthBounds(n: nat)
    ensures n < Pow2(Width(n))
    ensures n > 0 ==> Pow2(Width(n) - 1) <= n && Bit(n, Width(n) - 1)
  {
    if n > 0 {
      WidthBounds(n / 2);
    }
  }

  lemma {:induction false} BitBelowWidth(n: nat, i: nat)
    requires Bit(n, i)
    ensures i < Width(n)
    decreases i
  {
    if n == 0 {
      ZeroBit(i);
    } else if i > 0 {
      BitBelowWidth(n / 2, i - 1);
    }
  }

  lemma {:induction false} Pow2Monotone(a: nat, b: nat)
    requires a <= b
    ensures Pow2(a) <= Pow2(b)
    decreases b
  {
    if a < b {
      Pow2Monotone(a, b - 1);
    }
  }

  // ---- round_pow_two ----

  /** One of the `w` bits from `i` on is set. */
  ghost predicate AnyBit(m: nat, i: nat, w: nat)
  {
    exists j: nat :: i <= j < i + w && Bit(m, j)
  }

  /** Bit i of `x` is set exactly when one of the `w` bits of `m` from i on is. */
  ghost predicate Smeared(m: nat, x: nat, w: nat)
  {
    forall i: nat :: Bit(x, i) <==> AnyBit(m, i, w)
  }

  lemma NotSmeared(m: nat)
    ensures Smeared(m, m, 1)
  {
    forall i: nat ensures Bit(m, i) <==> AnyBit(m, i, 1) {
      if AnyBit(m, i, 1) {
        var j: nat :| i <= j < i + 1 && Bit(m, j);
        assert j == i;
      }
    }
  }

  /** One round of smearing, x | x >> w, doubles the reach. */
  lemma SmearDoubles(m: nat, x: nat, w: nat)
    requires Smeared(m, x, w)
    ensures Smeared(m, Or(x, Shr(x, w)), 2 * w)
  {
    forall i: nat ensures Bit(Or(x, Shr(x, w)), i) <==> AnyBit(m, i, 2 * w) {
      OrBit(x, Shr(x, w), i);
      ShrBit(x, w, i);
      AnyBitSplit(m, i, w);
      assert Bit(x, i) <==> AnyBit(m, i, w);
      assert Bit(x, i + w) <==> AnyBit(m, i + w, w);
    }
  }

  lemma AnyBitSplit(m: nat, i: nat, w: nat)
    ensures AnyBit(m, i, 2 * w) <==> AnyBit(m, i, w) || AnyBit(m, i + w, w)
  {
    if AnyBit(m, i, 2 * w) {
      var j: nat :| i <= j < i + 2 * w && Bit(m, j);
      assert if j < i + w then AnyBit(m, i, w) else AnyBit(m, i + w, w);
    }
  }

  /** No 32 bits in a row below the highest set bit are zero. */
  ghost predicate Dense(m: nat)
  {
    forall i: nat :: i < Width(m) ==> AnyBit(m, i, 32)
  }

  ghost predicate LeastPow2(r: nat, n: nat)
  {
    IsPow2(r) && n <= r && forall p: nat :: IsPow2(p) && n <= p ==> r <= p
  }

  /** Smearing by 32 fills all bits exactly if the number is dense. */
  lemma SmearFills(m: nat, x: nat)
    requires Smeared(m, x, 32)
    ensures IsPow2(x + 1) <==> Dense(m)
    ensures LeastPow2(x + 1, m + 1) <==> Dense(m)
  {
    if Dense(m) {
      DenseFills(m, x);
      LeastAbove(m);
    } else if IsPow2(x + 1) {
      FullDense(m, x);
      assert false;
    }
  }

  lemma DenseFills(m: nat, x: nat)
    requires Smeared(m, x, 32) && Dense(m)
    ensures x + 1 == Pow2(Width(m))
  {
    var w := Width(m);
    forall i: nat ensures Bit(x, i) <==> Bit(Pow2(w) - 1, i) {
      OnesBit(w, i);
      if AnyBit(m, i, 32) {
        var j: nat :| i <= j < i + 32 && Bit(m, j);
        BitBelowWidth(m, j);
      }
    }
    BitsDetermine(x, Pow2(w) - 1);
  }

  lemma FullDense(m: nat, x: nat)
    requires Smeared(m, x, 32) && IsPow2(x + 1)
    ensures Dense(m)
  {
    hide Pow2, Width, Bit;
    var q: nat :| x + 1 == Pow2(q);
    var w := Width(m);
    forall i: nat | i < w ensures AnyBit(m, i, 32) {
      TopSmeared(m, x);
      OnesBit(q, w - 1);
      OnesBit(q, i);
    }
  }

  lemma TopSmeared(m: nat, x: nat)
    requires Smeared(m, x, 32) && Width(m) > 0
    ensures Bit(x, Width(m) - 1)
  {
    WidthBounds(m);
    assert AnyBit(m, Width(m) - 1, 32);
  }

  lemma LeastAbove(m: nat)
    ensures LeastPow2(Pow2(Width(m)), m + 1)
  {
    var w := Width(m);
    WidthBounds(m);
    forall p: nat | IsPow2(p) && m + 1 <= p ensures Pow2(w) <= p {
      var q: nat :| p == Pow2(q);
      if q < w {
        Pow2Monotone(q, w - 1);
      } else {
        Pow2Monotone(w, q);
      }
    }
  }

  lemma SmallDense(m: nat)
    requires m < Pow2(32)
    ensures Dense(m)
  {
    WidthBounds(m);
    if Width(m) > 32 {
      Pow2Monotone(32, Width(m) - 1);
    }
    forall i: nat | i < Width(m) ensures AnyBit(m, i, 32) {
      assert Bit(m, Width(m) - 1);
    }
  }

  /** round_pow_two, for a largest capacity of 2^31, or 2^63 on ARCH_64. */
  method RoundPowTwo(number: nat, maxShift: nat) returns (n: nat)
    requires maxShift == 31 || maxShift == 63
    ensures number >= Pow2(maxShift) ==> n == Pow2(maxShift)
    ensures number == 0 ==> n == 2
    ensures 0 < number < Pow2(maxShift) ==> (LeastPow2(n, number) <==> Dense(number - 1))
    ensures 0 < number < Pow2(maxShift) && number <= Pow2(32) ==> LeastPow2(n, number)
  {
    hide Pow2, Or, Shr, Smeared, Dense, LeastPow2;
    n := number;
    if n >= Pow2(maxShift) {
      return Pow2(maxShift);
    }
    if n == 0 {
      Pow2Monotone(0, maxShift);
      return 2;
    }
    n := n - 1;
    ghost var m := n;
    NotSmeared(m);
    SmearDoubles(m, n, 1);
    n := Or(n, Shr(n, 1));
    SmearDoubles(m, n, 2);
    n := Or(n, Shr(n, 2));
    SmearDoubles(m, n, 4);
    n := Or(n, Shr(n, 4));
    SmearDoubles(m, n, 8);
    n := Or(n, Shr(n, 8));
    SmearDoubles(m, n, 16);
    n := Or(n, Shr(n, 16));
    SmearFills(m, n);
    if m < Pow2(32) {
      SmallDense(m);
    }
    n := n + 1;
  }

  /** On ARCH_64 the smearing stops short: the first size above 2^32 is rounded to
      a number that is no power of two. */
  lemma WideGap()
    ensures !Dense(Pow2(32))
  {
    WidthPow2(32);
    if AnyBit(Pow2(32), 0, 32) {
      var j: nat :| 0 <= j < 32 && Bit(Pow2(32), j);
      LowBitsZero(32, j);
      assert false;
    }
  }

  lemma {:induction false} WidthPow2(k: nat)
    ensures Width(Pow2(k)) == k + 1
  {
    if k > 0 {
      WidthPow2(k - 1);
    }
  }

  lemma {:induction false} LowBitsZero(k: nat, j: nat)
    requires j < k
    ensures !Bit(Pow2(k), j)
    decreases j
  {
    if j > 0 {
      LowBitsZero(k - 1, j - 1);
    }
  }

  // ---- Masking ----

  /** Masking with capacity - 1 is the remainder, and so a bucket index. */
  lemma {:induction false} MaskIsRemainder(h: nat, k: nat)
    ensures And(h, Pow2(k) - 1) == h % Pow2(k)
    decreases k
  {
    if k == 0 {
      AndZero(h);
    } else {
      assert (Pow2(k) - 1) / 2 == Pow2(k - 1) - 1;
      MaskIsRemainder(h / 2, k - 1);
      RemainderHalves(h, Pow2(k - 1));
    }
  }

  lemma {:induction false} AndZero(h: nat)
    ensures And(h, 0) == 0
  {
    if h > 0 {
      AndZero(h / 2);
    }
  }

  lemma RemainderHalves(h: nat, p: nat)
    requires p > 0
    ensures h % (2 * p) == 2 * ((h / 2) % p) + h % 2
  {
    var q, r := (h / 2) / p, (h / 2) % p;
    assert h == (2 * p) * q + (2 * r + h % 2);
    DivMod(h, 2 * p, q, 2 * r + h % 2);
  }

  lemma DivMod(h: nat, d: nat, q: nat, r: nat)
    requires d > 0 && r < d && h == d * q + r
    ensures h % d == r
  {
    var e := q - h / d;
    assert h == d * (h / d) + h % d;
    assert d * e == h % d - r;
    if e >= 1 {
      Grow(d, e);
    } else if e <= -1 {
      Grow(d, -e);
    }
  }

  lemma Grow(d: nat, e: nat)
    requires e >= 1
    ensures d * e >= d
  {
    if e > 1 {
      assert d * e == d * (e - 1) + d;
    }
  }

  /** Doubling a capacity, as resize does. */
  lemma DoublePow2(n: nat)
    requires IsPow2(n)
    ensures IsPow2(2 * n)
  {
    var k: nat :| n == Pow2(k);
    assert 2 * n == Pow2(k + 1);
  }
}
