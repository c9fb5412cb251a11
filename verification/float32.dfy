/**
 * Single-precision (IEEE 754 binary32) arithmetic on the non-negative
 * finite values the packet-loss computation can meet: every such value is
 * an exact rational, and each operation rounds its exact result to 24
 * significant bits, ties to even. Overflow and subnormals are out of range
 * here: a uint64 count is far below the float32 maximum, and a non-zero
 * loss percentage is never below 100/2^64.
 */
module Float32 {
  const Low: nat := 0x80_0000      // 2^23, the smallest 24-bit significand
  const High: nat := 0x100_0000    // 2^24

  /** The rational number num/den; den is never zero. */
  datatype Ratio = Ratio(num: nat, den: nat)

  predicate Valid(x: Ratio) { x.den > 0 }

  function Value(x: Ratio): (v: real)
    requires Valid(x)
    ensures v * x.den as real == x.num as real
    ensures 0.0 <= v && (v == 0.0 <==> x.num == 0)
  {
    x.num as real / x.den as real
  }

  function Pow2(n: nat): (p: nat)
    ensures p >= 1
  {
    if n == 0 then 1 else 2 * Pow2(n - 1)
  }

  lemma {:induction false} Pow2Add(a: nat, b: nat)
    ensures Pow2(a + b) == Pow2(a) * Pow2(b)
    decreases b
  {
    if b > 0 {
      Pow2Add(a, b - 1);
    }
  }

  lemma Pow2Step(k: nat)
    requires k > 0
    ensures Pow2(k) == 2 * Pow2(k - 1)
  {
  }

  lemma Double(n: int, p: int)
    ensures (2 * n) * p == n * (2 * p)
  {
  }

  lemma AtLeastOnce(n: nat, p: nat)
    requires p >= 1
    ensures n <= n * p
  {
  }

  lemma Regroup(m: int, p: int, x: int)
    ensures (m * p) * x == m * (x * p)
  {
  }

  /**
   * Scales n/d by powers of two until it lies in [2^23, 2^24), the exponent
   * of two taken out being counted in e.
   */
  function Normalize(n: nat, d: nat, e: int): (r: (nat, nat, int))
    requires n > 0 && d > 0
    ensures r.1 > 0 && Low * r.1 <= r.0 < High * r.1
    ensures n < Low * d ==> r.2 < e && r.1 == d && r.0 == n * Pow2(e - r.2)
    ensures n >= High * d ==> r.2 > e && r.0 == n && r.1 == d * Pow2(r.2 - e)
    ensures Low * d <= n < High * d ==> r == (n, d, e)
    decreases (if n >= High * d then n - High * d + 1 else 0), (if n < Low * d then Low * d - n else 0)
  {
    if n < Low * d then
      var r := Normalize(2 * n, d, e - 1);
      Pow2Step(e - r.2);
      Double(n, Pow2(e - r.2 - 1));
      r
    else if n >= High * d then
      var r := Normalize(n, 2 * d, e + 1);
      Pow2Step(r.2 - e);
      Double(d, Pow2(r.2 - e - 1));
      r
    else (n, d, e)
  }

  /** k doublings of a numerator that stays below 2^23 d come out in one step. */
  lemma {:induction false} NormalizeUp(n: nat, d: nat, e: int, k: nat)
    requires n > 0 && d > 0
    requires k > 0 ==> n * Pow2(k - 1) < Low * d
    ensures Normalize(n, d, e) == Normalize(n * Pow2(k), d, e - k)
    decreases k
  {
    if k > 0 {
      Pow2Step(k);
      Double(n, Pow2(k - 1));
      AtLeastOnce(n, Pow2(k - 1));
      if k > 1 {
        Pow2Step(k - 1);
        Double(n, Pow2(k - 2));
      }
      NormalizeUp(2 * n, d, e - 1, k - 1);
    }
  }

  /** n/d rounded to the nearest integer, ties to even. */
  function RoundHalfEven(n: nat, d: nat): (m: nat)
    requires d > 0
    ensures m == n / d || m == n / d + 1
    ensures 2 * (m * d) <= 2 * n + d && 2 * n <= 2 * (m * d) + d
    ensures 2 * (n % d) == d ==> m % 2 == 0
  {
    var q := n / d;
    var r := n % d;
    var m := if 2 * r > d || (2 * r == d && q % 2 == 1) then q + 1 else q;
    DivMod(n, d);
    NearestBound(n, d, q, r, m);
    TieToEven(q, r, d, m);
    m
  }

  lemma TieToEven(q: nat, r: nat, d: nat, m: nat)
    requires m == if 2 * r > d || (2 * r == d && q % 2 == 1) then q + 1 else q
    ensures 2 * r == d ==> m % 2 == 0
  {
  }

  /** A significand rounded from below 2^24 is at most 2^24. */
  lemma SignificandFits(m: nat, n: nat, d: nat)
    requires d > 0 && n < High * d && 2 * (m * d) <= 2 * n + d
    ensures m <= High
  {
    MulMono(High + 1, m, d);
  }

  lemma {:induction false} MulMono(a: nat, b: nat, d: nat)
    ensures a <= b ==> a * d <= b * d
    decreases d
  {
    if d > 0 {
      MulMono(a, b, d - 1);
      assert a * d == a * (d - 1) + a && b * d == b * (d - 1) + b;
    }
  }

  lemma DivMod(n: nat, d: nat)
    requires d > 0
    ensures n == (n / d) * d + n % d && n % d < d
  {
  }

  lemma NearestBound(n: nat, d: nat, q: nat, r: nat, m: nat)
    requires d > 0 && r < d && n == q * d + r
    requires (m == q && 2 * r <= d) || (m == q + 1 && 2 * r >= d)
    ensures 2 * (m * d) <= 2 * n + d && 2 * n <= 2 * (m * d) + d
  {
    if m == q + 1 {
      assert m * d == q * d + d;
    }
  }

  /** y differs from x by at most x / 2^24: the error bound of rounding to 24 bits. */
  predicate Close(x: Ratio, y: Ratio)
  {
    var diff := y.num * x.den - x.num * y.den;
    -(x.num * y.den) <= High * diff <= x.num * y.den
  }

  /** Halving the error of a significand m of n/d, with n/d at least 2^23,
      bounds the relative error by 2^-24: here t stands for m d. */
  lemma ErrorBound(t: int, n: int, d: int)
    requires 2 * t <= 2 * n + d && 2 * n <= 2 * t + d && Low * d <= n
    ensures -n <= High * (t - n) <= n
  {
  }

  /** y is close to x when its cross products are those of a well-rounded
      significand. */
  lemma CloseByCrossProducts(x: Ratio, y: Ratio, t: int, n: int, d: int)
    requires y.num * x.den == t && x.num * y.den == n
    requires 2 * t <= 2 * n + d && 2 * n <= 2 * t + d && Low * d <= n
    ensures Close(x, y)
  {
    ErrorBound(t, n, d);
  }

  /** y is a float32 value: zero, or a significand of at most 24 bits
      scaled by a power of two. */
  ghost predicate OnGrid(y: Ratio) {
    y.num == 0
    || exists m: nat, k: nat :: m <= High && (y == Ratio(m * Pow2(k), 1) || y == Ratio(m, Pow2(k)))
  }

  /** The float32 value nearest to x (ties to even). */
  function Round(x: Ratio): (y: Ratio)
    requires Valid(x)
    ensures Valid(y) && OnGrid(y)
    ensures y.num == 0 <==> x.num == 0
    ensures Close(x, y)
  {
    if x.num == 0 then Ratio(0, 1)
    else
      var (n, d, e) := Normalize(x.num, x.den, 0);
      var m := RoundHalfEven(n, d);
      SignificandFits(m, n, d);
      if e >= 0 then
        var p := Pow2(e);
        assert d == x.den * p && n == x.num by {
          if e == 0 { assert p == 1; }
        }
        Regroup(m, p, x.den);
        var y := Ratio(m * p, 1);
        CloseByCrossProducts(x, y, m * d, n, d);
        assert y == Ratio(m * Pow2(e), 1);
        y
      else
        var p := Pow2(-e);
        var y := Ratio(m, p);
        CloseByCrossProducts(x, y, m * d, n, d);
        assert y == Ratio(m, Pow2(-e));
        y
  }

  /** float32(u): exact below 2^24, rounded above. */
  function FromNat(u: nat): (y: Ratio)
    ensures Valid(y) && (y.num == 0 <==> u == 0)
  {
    if u < High then Ratio(u, 1) else Round(Ratio(u, 1))
  }

  function Div(a: Ratio, b: Ratio): (q: Ratio)
    requires Valid(a) && Valid(b) && b.num > 0
    ensures Valid(q) && (q.num == 0 <==> a.num == 0)
  {
    Round(Ratio(a.num * b.den, a.den * b.num))
  }

  function Mul(a: Ratio, b: Ratio): (p: Ratio)
    requires Valid(a) && Valid(b)
    ensures Valid(p) && (p.num == 0 <==> a.num == 0 || b.num == 0)
  {
    Round(Ratio(a.num * b.num, a.den * b.den))
  }

  lemma DivideOut(a: real, b: real, p: real)
    requires p > 0.0 && a * p <= b * p
    ensures a <= b
  {
  }

  /** `Close` stated on values: y is within Value(x) / 2^24 of Value(x). */
  lemma CloseValues(x: Ratio, y: Ratio)
    requires Valid(x) && Valid(y) && Close(x, y)
    ensures -Value(x) <= High as real * (Value(y) - Value(x)) <= Value(x)
  {
    var X, Y, XD, YD := x.num as real, y.num as real, x.den as real, y.den as real;
    var diff := y.num * x.den - x.num * y.den;
    assert (x.num * y.den) as real == X * YD;
    assert (High * diff) as real == High as real * (Y * XD - X * YD);
    CrossToValues(X, Y, XD, YD, Value(x), Value(y), High as real);
  }

  /** Dividing the cross-product bound by both denominators. */
  lemma CrossToValues(X: real, Y: real, XD: real, YD: real, vx: real, vy: real, h: real)
    requires XD > 0.0 && YD > 0.0 && X == vx * XD && Y == vy * YD
    requires -(X * YD) <= h * (Y * XD - X * YD) <= X * YD
    ensures -vx <= h * (vy - vx) <= vx
  {
    var p := XD * YD;
    assert X * YD == vx * p;
    assert h * (Y * XD - X * YD) == (h * (vy - vx)) * p;
    DivideOut(h * (vy - vx), vx, p);
    DivideOut(-vx, h * (vy - vx), p);
  }

  /** Rounding a quotient a, then rounding 100 times the result, stays within
      100 a / 2^22 of 100 a. */
  lemma TwoRoundings(a: real, q: real, p: real)
    requires 0.0 <= a
    requires -a <= 16777216.0 * (q - a) <= a
    requires -(100.0 * q) <= 16777216.0 * (p - 100.0 * q) <= 100.0 * q
    ensures -(100.0 * a) <= 4194304.0 * (p - 100.0 * a) <= 100.0 * a
  {
  }

  lemma Hundredfold(q: Ratio)
    requires Valid(q)
    ensures Value(Ratio(q.num * 100, q.den * 1)) == 100.0 * Value(q)
  {
    var m := Ratio(q.num * 100, q.den * 1);
    assert Value(m) * q.den as real == 100.0 * Value(q) * q.den as real;
    DivideOut(Value(m), 100.0 * Value(q), q.den as real);
    DivideOut(100.0 * Value(q), Value(m), q.den as real);
  }

  /** The source's loss expression, float32(u) / float32(t) * 100, for counts
      below 2^24: within 2^-22 of the exact 100 u / t, relative to it. */
  lemma LossRounding(u: nat, t: nat)
    requires u <= t && 0 < t < High
    ensures var exact := u as real / t as real * 100.0;
            var loss := Value(Mul(Div(FromNat(u), FromNat(t)), FromNat(100)));
            -exact <= 4194304.0 * (loss - exact) <= exact
  {
    var x := Ratio(u * 1, 1 * t);
    var q := Round(x);
    assert Div(FromNat(u), FromNat(t)) == q;
    CloseValues(x, q);
    Hundredfold(q);
    var p := Round(Ratio(q.num * 100, q.den * 1));
    assert Mul(q, FromNat(100)) == p;
    CloseValues(Ratio(q.num * 100, q.den * 1), p);
    TwoRoundings(Value(x), Value(q), Value(p));
  }

  /** In float32, 3/10 is 10066330 / 2^25, a little above 0.3, and that
      times 100 rounds to 15728641 / 2^19, a little above 30. */
  lemma ThreeTenthsTimesHundred()
    ensures Div(FromNat(3), FromNat(10)) == Ratio(10066330, 33554432)
    ensures Mul(Ratio(10066330, 33554432), FromNat(100)) == Ratio(15728641, 524288)
    ensures Value(Ratio(15728641, 524288)) > 30.0
  {
    assert Pow2(10) == 1024;
    Pow2Add(10, 8);
    Pow2Add(18, 1);
    Pow2Add(12, 12);
    Pow2Add(24, 1);
    NormalizeUp(3, 10, 0, 25);
    NormalizeUp(1006633000, 33554432, 0, 19);
  }
}
