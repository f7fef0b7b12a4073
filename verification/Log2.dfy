/** The fixed-point logarithm of placement/placement.go: bit-by-bit squaring on a 64-bit
    mantissa, truncating at every step. */
module Log2 {

  /** Bits below the point. */
  const STEPS: nat := 32
  const TWO32: nat := 0x1_0000_0000
  const TWO38: nat := 0x40_0000_0000
  const TWO63: nat := 0x8000_0000_0000_0000
  const TWO64: nat := 0x1_0000_0000_0000_0000

  function Pow(b: nat, e: nat): (r: nat)
  {
    if e == 0 then 1 else b * Pow(b, e - 1)
  }

  lemma {:induction false} PowAdd(b: nat, d: nat, e: nat)
    ensures Pow(b, d + e) == Pow(b, d) * Pow(b, e)
  {
    if d != 0 {
      PowAdd(b, d - 1, e);
      calc {
        Pow(b, d + e);
        b * Pow(b, d - 1 + e);
        b * (Pow(b, d - 1) * Pow(b, e));
        b * Pow(b, d - 1) * Pow(b, e);
      }
    }
  }

  lemma {:induction false} PowPositive(b: nat, e: nat)
    requires b > 0
    ensures Pow(b, e) > 0
  {
    if e != 0 {
      PowPositive(b, e - 1);
    }
  }

  // ---- the algorithm ----

  /** A number in (0, 2^64) as 2^exp times a mantissa with bit 63 set. */
  datatype Norm = Norm(exp: nat, m: nat)

  predicate Normal(n: Norm) { TWO63 <= n.m < TWO64 }

  /** One squaring: the new bit joins the exponent, the mantissa is cut back to 64 bits. */
  function Square(n: Norm): (r: Norm)
  {
    var p := n.m * n.m;
    if p / TWO64 >= TWO63 then Norm(2 * n.exp + 1, p / TWO64) else Norm(2 * n.exp, p / TWO63)
  }

  function Squares(n: Norm, j: nat): (r: Norm)
  {
    if j == 0 then n else Square(Squares(n, j - 1))
  }

  /** Position of the top bit. */
  function TopBit(x: nat): (i: nat)
    requires x > 0
  {
    if x == 1 then 0 else 1 + TopBit(x / 2)
  }

  function Normalised(x: nat): (r: Norm)
    requires 0 < x < TWO64
  {
    TopBitBounds(x);
    TopBitSmall(x);
    Norm(TopBit(x), x * Pow(2, 63 - TopBit(x)))
  }

  function Log2Of(x: nat): (y: nat)
    requires 0 < x < TWO64
  {
    Squares(Normalised(x), STEPS).exp
  }

  lemma {:induction false} TopBitBounds(x: nat)
    requires x > 0
    ensures Pow(2, TopBit(x)) <= x < Pow(2, TopBit(x) + 1)
  {
    if x > 1 {
      TopBitBounds(x / 2);
      var p := Pow(2, TopBit(x / 2));
      assert Pow(2, TopBit(x)) == 2 * p;
      assert Pow(2, TopBit(x) + 1) == 4 * p by {
        assert Pow(2, TopBit(x) + 1) == 2 * Pow(2, TopBit(x));
      }
    } else {
      assert Pow(2, 1) == 2;
    }
  }

  lemma {:induction false} PowMonotone(d: nat, e: nat)
    requires d <= e
    ensures Pow(2, d) <= Pow(2, e)
  {
    if d < e {
      PowMonotone(d, e - 1);
      PowPositive(2, e - 1);
    }
  }

  lemma Pow63()
    ensures Pow(2, 63) == TWO63 && Pow(2, 64) == TWO64
  {
    assert Pow(2, 8) == 256;
    PowAdd(2, 8, 8);
    PowAdd(2, 16, 16);
    PowAdd(2, 32, 32);
    assert Pow(2, 64) == 2 * Pow(2, 63);
  }

  lemma TopBitSmall(x: nat)
    requires 0 < x < TWO64
    ensures TopBit(x) <= 63
  {
    TopBitBounds(x);
    Pow63();
    if TopBit(x) >= 64 {
      PowMonotone(64, TopBit(x));
    }
  }

  lemma Scaled(x: nat, p: nat, q: nat, t: nat)
    requires p <= x < 2 * p && p * q == t > 0
    ensures t <= x * q < 2 * t && x * t == p * (x * q)
  {
    assert q > 0;
    MulMonotone(p, x, q);
    MulMonotone(x + 1, 2 * p, q);
    assert (x + 1) * q == x * q + q;
    assert 2 * p * q == 2 * (p * q);
    assert p * (x * q) == x * (p * q);
  }

  lemma NormalisedIsNormal(x: nat)
    requires 0 < x < TWO64
    ensures Normal(Normalised(x))
    ensures x * TWO63 == Pow(2, TopBit(x)) * Normalised(x).m
  {
    TopBitBounds(x);
    TopBitSmall(x);
    Pow63();
    var i := TopBit(x);
    PowAdd(2, i, 63 - i);
    Scaled(x, Pow(2, i), Pow(2, 63 - i), TWO63);
  }

  lemma MulMonotone(a: nat, b: nat, q: nat)
    requires a <= b
    ensures a * q <= b * q && q * a <= q * b
  {
  }

  lemma SquareMonotone(a: nat, b: nat)
    requires a <= b
    ensures a * a <= b * b
  {
    MulMonotone(a, b, a);
    MulMonotone(a, b, b);
  }

  lemma DivMonotone(a: nat, b: nat, d: nat)
    requires a <= b && d > 0
    ensures a / d <= b / d
  {
    assert b / d * d + d > b;
    assert a / d * d <= a;
    if a / d > b / d {
      MulMonotone(b / d + 1, a / d, d);
    }
  }

  lemma SquareBounds(m: nat)
    requires TWO63 <= m < TWO64
    ensures TWO63 * TWO63 <= m * m <= (TWO64 - 1) * (TWO64 - 1)
  {
    SquareMonotone(TWO63, m);
    SquareMonotone(m, TWO64 - 1);
  }

  /** No step loses the top bit, and none carries past it. */
  lemma SquareIsNormal(n: Norm)
    requires Normal(n)
    ensures Normal(Square(n))
  {
    SquareBounds(n.m);
  }

  lemma {:induction false} SquaresAreNormal(n: Norm, j: nat)
    requires Normal(n)
    ensures Normal(Squares(n, j))
  {
    if j != 0 {
      SquaresAreNormal(n, j - 1);
      SquareIsNormal(Squares(n, j - 1));
    }
  }

  // ---- the two-sided bound ----

  /** n stands for a number with 2^exp * m / 2^63 <= v <= 2^exp * (m + slack) / 2^63. */
  ghost predicate Approximates(n: Norm, v: nat, slack: nat)
  {
    Pow(2, n.exp) * n.m <= v * TWO63 <= Pow(2, n.exp) * (n.m + slack)
  }

  /** The pure arithmetic of one step: m' is m*m / w, and d' covers the cut and the old slack. */
  lemma StepLower(e: nat, m: nat, v: nat, w: nat, b: nat, m': nat)
    requires e * m <= v * TWO63 && w == TWO63 * b && m' * w <= m * m
    ensures (e * e * b) * m' <= (v * v) * TWO63
  {
    SquareMonotone(e * m, v * TWO63);
    assert (e * m) * (e * m) == e * e * (m * m);
    assert (v * TWO63) * (v * TWO63) == v * v * TWO63 * TWO63;
    MulMonotone(m' * w, m * m, e * e);
    assert e * e * (m' * w) == (e * e * b) * m' * TWO63;
    assert (e * e * b) * m' * TWO63 <= v * v * TWO63 * TWO63;
  }

  lemma StepUpper(e: nat, m: nat, d: nat, v: nat, w: nat, b: nat, r: nat)
    requires v * TWO63 <= e * (m + d) && w == TWO63 * b && (m + d) * (m + d) <= r * w
    ensures (v * v) * TWO63 <= (e * e * b) * r
  {
    SquareMonotone(v * TWO63, e * (m + d));
    assert (e * (m + d)) * (e * (m + d)) == e * e * ((m + d) * (m + d));
    MulMonotone((m + d) * (m + d), r * w, e * e);
    assert e * e * (r * w) == (e * e * b) * r * TWO63;
    assert (v * TWO63) * (v * TWO63) == v * v * TWO63 * TWO63;
    assert v * v * TWO63 * TWO63 <= (e * e * b) * r * TWO63;
  }

  /** How far j truncations may have pulled the mantissa down. */
  function Slack(j: nat): (d: nat)
  {
    if j == 0 then 0 else if j == 1 then 2 else 4 * Slack(j - 1)
  }

  lemma {:induction false} SlackBound(j: nat)
    requires 0 < j
    ensures Slack(j) >= 2
  {
    if j > 1 {
      SlackBound(j - 1);
    }
  }

  lemma SlackLimit(j: nat)
    requires j <= 32
    ensures j <= 31 ==> Slack(j) <= TWO63 / 4
    ensures Slack(32) == TWO63
  {
    assert Slack(8) == 0x8000;
    assert Slack(16) == 0x8000_0000;
    assert Slack(24) == 0x8000_0000_0000;
    assert Slack(31) == 0x2000_0000_0000_0000;
    if 0 < j <= 31 {
      SlackRises(j, 31);
    }
  }

  lemma {:induction false} SlackRises(i: nat, j: nat)
    requires 0 < i <= j
    ensures Slack(i) <= Slack(j)
  {
    if i < j {
      SlackRises(i, j - 1);
    }
  }

  /** The old slack, doubled by the squaring, and the new cut fit in the new slack. */
  lemma SlackStep(m: nat, d: nat, w: nat, m': nat, d': nat)
    requires m * m < (m' + 1) * w
    requires w >= TWO63 && 2 * m <= 3 * w && d <= TWO63 / 4
    requires if d == 0 then d' >= 1 else d >= 2 && d' == 4 * d
    ensures (m + d) * (m + d) <= (m' + d') * w
  {
    if d == 0 {
      MulMonotone(m' + 1, m' + d', w);
    } else {
      assert 4 * (d * d) <= d * w by { MulMonotone(4 * d, w, d); }
      assert 2 * m * d <= 3 * w * d by { MulMonotone(2 * m, 3 * w, d); }
      assert (m + d) * (m + d) == m * m + 2 * m * d + d * d;
      assert (m' + d') * w == (m' + 1) * w + (d' - 1) * w;
      assert (d' - 1) * w == 4 * (d * w) - w;
      assert 2 * w <= d * w by { MulMonotone(2, d, w); }
      assert 3 * w * d == 3 * (d * w);
    }
  }

  lemma MantissaBelow(m: nat)
    requires m * m < TWO63 * TWO64
    ensures 2 * m <= 3 * TWO63
  {
  }

  lemma DivBounds(p: nat, w: nat)
    requires w > 0
    ensures p / w * w <= p < (p / w + 1) * w
  {
    assert (p / w + 1) * w == p / w * w + w;
  }

  /** Both bounds of one step, as pure arithmetic. */
  lemma StepBoth(e: nat, m: nat, d: nat, d': nat, v: nat, w: nat, b: nat, m': nat)
    requires e * m <= v * TWO63 <= e * (m + d) && w == TWO63 * b && w >= TWO63 && 2 * m <= 3 * w && d <= TWO63 / 4
    requires m' * w <= m * m < (m' + 1) * w
    requires if d == 0 then d' >= 1 else d >= 2 && d' == 4 * d
    ensures (e * e * b) * m' <= (v * v) * TWO63 <= (e * e * b) * (m' + d')
  {
    assert (e * e * b) * m' <= (v * v) * TWO63 by { StepLower(e, m, v, w, b, m'); }
    assert (v * v) * TWO63 <= (e * e * b) * (m' + d') by {
      SlackStep(m, d, w, m', d');
      StepUpper(e, m, d, v, w, b, m' + d');
    }
  }

  lemma SlackNext(j: nat)
    requires j < 32
    ensures Slack(j) <= TWO63 / 4
    ensures if Slack(j) == 0 then Slack(j + 1) >= 1 else Slack(j) >= 2 && Slack(j + 1) == 4 * Slack(j)
  {
    SlackLimit(j);
    if j > 0 { SlackBound(j); }
  }

  /** Powers of two behind one squaring. */
  lemma TwiceExponent(x: nat)
    ensures Pow(2, 2 * x) == Pow(2, x) * Pow(2, x) * 1 && Pow(2, 2 * x + 1) == Pow(2, x) * Pow(2, x) * 2
  {
    PowAdd(2, x, x);
  }

  lemma MantissaFits(m: nat)
    requires m < TWO64
    ensures 2 * m <= 3 * TWO64
    ensures m * m / TWO64 < TWO63 ==> 2 * m <= 3 * TWO63
  {
    if m * m / TWO64 < TWO63 {
      DivBounds(m * m, TWO64);
      MulMonotone(m * m / TWO64 + 1, TWO63, TWO64);
      MantissaBelow(m);
    }
  }

  lemma SquareApproximates(n: Norm, v: nat, j: nat)
    requires Normal(n) && j < 32 && Approximates(n, v, Slack(j))
    ensures Approximates(Square(n), v * v, Slack(j + 1))
  {
    SlackNext(j);
    TwiceExponent(n.exp);
    MantissaFits(n.m);
    var e := Pow(2, n.exp);
    hide Pow, Slack;
    if n.m * n.m / TWO64 >= TWO63 {
      DivBounds(n.m * n.m, TWO64);
      StepBoth(e, n.m, Slack(j), Slack(j + 1), v, TWO64, 2, n.m * n.m / TWO64);
    } else {
      DivBounds(n.m * n.m, TWO63);
      StepBoth(e, n.m, Slack(j), Slack(j + 1), v, TWO63, 1, n.m * n.m / TWO63);
    }
  }

  lemma {:induction false} SquaresApproximate(x: nat, j: nat)
    requires 0 < x < TWO64 && j <= 32
    ensures Approximates(Squares(Normalised(x), j), Pow(x, Pow(2, j)), Slack(j))
  {
    NormalisedIsNormal(x);
    if j == 0 {
      assert Pow(x, 1) == x;
    } else {
      SquaresApproximate(x, j - 1);
      SquaresAreNormal(Normalised(x), j - 1);
      SquareApproximates(Squares(Normalised(x), j - 1), Pow(x, Pow(2, j - 1)), j - 1);
      PowAdd(x, Pow(2, j - 1), Pow(2, j - 1));
    }
  }

  lemma BoundsAfter(x: nat, j: nat)
    requires 0 < x < TWO64 && j <= 32 && Slack(j) <= TWO63
    ensures Pow(2, Squares(Normalised(x), j).exp) <= Pow(x, Pow(2, j)) < Pow(2, Squares(Normalised(x), j).exp + 2)
  {
    var n, v := Squares(Normalised(x), j), Pow(x, Pow(2, j));
    SquaresApproximate(x, j);
    NormalisedIsNormal(x);
    SquaresAreNormal(Normalised(x), j);
    PowPositive(2, n.exp);
    FinalBounds(Pow(2, n.exp), n.m, Slack(j), v);
    assert Pow(2, n.exp + 2) == 2 * Pow(2, n.exp + 1) == 4 * Pow(2, n.exp);
  }

  /** The fixed-point logarithm from both sides: 2^y <= x^(2^32) < 2^(y+2). */
  lemma Log2Bounds(x: nat)
    requires 0 < x < TWO64
    ensures Pow(2, Log2Of(x)) <= Pow(x, Pow(2, STEPS)) < Pow(2, Log2Of(x) + 2)
  {
    hide Pow, Slack, Squares, Normalised;
    SlackLimit(STEPS);
    BoundsAfter(x, STEPS);
  }

  lemma FinalBounds(e: nat, m: nat, d: nat, v: nat)
    requires TWO63 <= m < TWO64 && d <= TWO63 && e * m <= v * TWO63 <= e * (m + d) && e > 0
    ensures e <= v < 4 * e
  {
    MulMonotone(TWO63, m, e);
    assert e * TWO63 <= v * TWO63;
    MulMonotone(m + d + 1, 3 * TWO63, e);
    assert e * (m + d + 1) == e * (m + d) + e;
  }

  // ---- order ----

  predicate Below(a: Norm, b: Norm)
  {
    a.exp < b.exp || (a.exp == b.exp && a.m <= b.m)
  }

  lemma SquareKeepsOrder(a: Norm, b: Norm)
    requires Below(a, b)
    ensures Below(Square(a), Square(b))
  {
    if a.exp == b.exp {
      SquareMonotone(a.m, b.m);
      DivMonotone(a.m * a.m, b.m * b.m, TWO64);
      DivMonotone(a.m * a.m, b.m * b.m, TWO63);
    }
  }

  lemma {:induction false} SquaresKeepOrder(a: Norm, b: Norm, j: nat)
    requires Below(a, b)
    ensures Below(Squares(a, j), Squares(b, j))
  {
    if j != 0 {
      SquaresKeepOrder(a, b, j - 1);
      SquareKeepsOrder(Squares(a, j - 1), Squares(b, j - 1));
    }
  }

  lemma {:induction false} TopBitMonotone(x: nat, y: nat)
    requires 0 < x <= y
    ensures TopBit(x) <= TopBit(y)
  {
    if x > 1 {
      TopBitMonotone(x / 2, y / 2);
    }
  }

  lemma Log2Monotone(x: nat, y: nat)
    requires 0 < x <= y < TWO64
    ensures Log2Of(x) <= Log2Of(y)
  {
    TopBitMonotone(x, y);
    TopBitSmall(y);
    if TopBit(x) == TopBit(y) {
      MulMonotone(x, y, Pow(2, 63 - TopBit(x)));
    }
    SquaresKeepOrder(Normalised(x), Normalised(y), STEPS);
  }

  lemma WithinDoubled(e: nat, x: nat, p: nat)
    requires e * p <= x < (e + 1) * p
    ensures e * (2 * p) <= 2 * x && 2 * x + 1 < (e + 1) * (2 * p)
  {
    assert e * (2 * p) == 2 * (e * p);
    assert (e + 1) * (2 * p) == 2 * ((e + 1) * p);
  }

  lemma {:induction false} SquaresExponent(n: Norm, j: nat)
    ensures n.exp * Pow(2, j) <= Squares(n, j).exp < (n.exp + 1) * Pow(2, j)
  {
    if j == 0 {
      assert Pow(2, 0) == 1;
    } else {
      SquaresExponent(n, j - 1);
      var x, p := Squares(n, j - 1).exp, Pow(2, j - 1);
      WithinDoubled(n.exp, x, p);
      assert Pow(2, j) == 2 * p;
      assert 2 * x <= Squares(n, j).exp <= 2 * x + 1;
      hide *;
    }
  }

  // ---- the code ----

  lemma Pow32()
    ensures Pow(2, STEPS) == TWO32
  {
    assert Pow(2, 8) == 256;
    PowAdd(2, 8, 8);
    PowAdd(2, 16, 16);
  }

  /** Shifting the two product words left by one is dividing the product by 2^63. */
  lemma ShiftedWords(p: nat)
    requires p / TWO64 < TWO63
    ensures p / TWO64 * 2 % TWO64 + p % TWO64 / TWO63 == p / TWO63
  {
    var hi, lo := p / TWO64, p % TWO64;
    assert p == hi * 2 * TWO63 + lo;
    assert p / TWO63 == hi * 2 + lo / TWO63;
  }

  lemma Doubled(i: nat, g: nat, p: nat, q: nat)
    requires g < p
    ensures g * (2 * q) == 2 * g * q && g * (2 * q) + q == (2 * g + 1) * q
    ensures 2 * (i * p + g) == i * (2 * p) + 2 * g
    ensures 2 * g + 1 < 2 * p
  {
  }

  /** What the loop has before step j: the mantissa, and the bits so far as g. */
  ghost predicate AtStep(x: nat, j: nat, m: nat, g: nat, f: nat)
    requires 0 < x < TWO64 && 1 <= j <= STEPS + 1
  {
    var n := Squares(Normalised(x), j - 1);
    && Normal(n) && m == n.m && n.exp == TopBit(x) * Pow(2, j - 1) + g
    && f == g * Pow(2, 33 - j) && g < Pow(2, j - 1)
  }

  lemma StepWords(x: nat, j: nat, m: nat, g: nat, f: nat)
    requires 0 < x < TWO64 && 1 <= j <= STEPS && AtStep(x, j, m, g, f)
    ensures m * m / TWO64 >= TWO63 ==> AtStep(x, j + 1, m * m / TWO64, 2 * g + 1, f + Pow(2, 32 - j))
    ensures m * m / TWO64 < TWO63 ==> AtStep(x, j + 1, m * m / TWO63, 2 * g, f)
  {
    var n := Squares(Normalised(x), j - 1);
    var p, q := Pow(2, j - 1), Pow(2, 32 - j);
    assert Pow(2, j) == 2 * p;
    assert Pow(2, 33 - j) == 2 * q;
    Doubled(TopBit(x), g, p, q);
    SquareIsNormal(n);
    hide Normalised, TopBit, Pow, Normal;
    assert Squares(Normalised(x), j) == Square(n);
  }

  /** The step on the high and the low word of the square. */
  lemma WordStep(x: nat, j: nat, m: nat, g: nat, f: nat, hi: nat, lo: nat)
    requires 0 < x < TWO64 && 1 <= j <= STEPS && AtStep(x, j, m, g, f) && hi == m * m / TWO64 && lo == m * m % TWO64
    ensures hi >= TWO63 ==> AtStep(x, j + 1, hi, 2 * g + 1, f + Pow(2, 32 - j))
    ensures hi < TWO63 ==> AtStep(x, j + 1, hi * 2 % TWO64 + lo / TWO63, 2 * g, f)
  {
    hide AtStep, Pow;
    StepWords(x, j, m, g, f);
    if hi < TWO63 { ShiftedWords(m * m); }
  }

  lemma FirstStep(x: nat)
    requires 0 < x < TWO64
    ensures TopBit(x) <= 63 && AtStep(x, 1, x * Pow(2, 63 - TopBit(x)) % TWO64, 0, 0)
  {
    TopBitSmall(x);
    NormalisedIsNormal(x);
    assert Pow(2, 0) == 1;
    hide TopBit;
  }

  /** The 32-step loop on 64-bit words.  f collects the bits below the point, each bit once. */
  method Log2Fix(x: nat) returns (y: nat)
    requires 0 < x < TWO64
    ensures y == Log2Of(x)
  {
    hide AtStep, Pow, Log2Of, TopBit;
    FirstStep(x);
    var i := TopBit(x);
    var m: nat := x * Pow(2, 63 - i) % TWO64;
    var f: nat := 0;
    ghost var g: nat := 0;
    for j := 1 to STEPS + 1
      invariant AtStep(x, j, m, g, f)
    {
      var hi, lo := m * m / TWO64, m * m % TWO64;
      WordStep(x, j, m, g, f, hi, lo);
      if hi >= TWO63 {
        m := hi;
        f := f + Pow(2, 32 - j);
        g := 2 * g + 1;
      } else {
        m := hi * 2 % TWO64 + lo / TWO63;
        g := 2 * g;
      }
    }
    LastStep(x, m, g, f);
    y := i * TWO32 + f;
  }

  lemma LastStep(x: nat, m: nat, g: nat, f: nat)
    requires 0 < x < TWO64 && AtStep(x, STEPS + 1, m, g, f)
    ensures TopBit(x) * TWO32 + f == Log2Of(x)
  {
    Pow32();
    assert Pow(2, 0) == 1;
  }

  /** The score term of a hash: how far the logarithm of (h + 1) / 2^64 lies below 0, in units
      of 2^-32, from 0 for the all-ones hash alone to 2^38, and never off by as much as two. */
  method L(h: nat) returns (l: nat)
    requires h < TWO64
    ensures l == LOf(h) && l <= TWO38 && (l == 0 <==> h == TWO64 - 1)
    ensures 64 * TWO32 - l >= 0
    ensures h < TWO64 - 1 ==>
      Pow(2, 64 * TWO32 - l) <= Pow(h + 1, Pow(2, STEPS)) < Pow(2, 64 * TWO32 - l + 2)
  {
    LRange(h);
    if h == TWO64 - 1 {
      return 0;
    }
    var y := Log2Fix(h + 1);
    Log2Bounds(h + 1);
    hide Pow, Log2Of;
    return 64 * TWO32 - y;
  }

  function LOf(h: nat): (l: int)
    requires h < TWO64
  {
    if h == TWO64 - 1 then 0 else 64 * TWO32 - Log2Of(h + 1)
  }

  lemma LRange(h: nat)
    requires h < TWO64
    ensures 0 <= LOf(h) <= TWO38
    ensures LOf(h) == 0 <==> h == TWO64 - 1
  {
    if h < TWO64 - 1 {
      TopBitSmall(h + 1);
      SquaresExponent(Normalised(h + 1), STEPS);
      Pow32();
      MulMonotone(TopBit(h + 1) + 1, 64, TWO32);
    }
  }

  /** A larger hash never scores worse. */
  lemma LFalls(h: nat, h': nat)
    requires h <= h' < TWO64
    ensures LOf(h') <= LOf(h)
  {
    LRange(h);
    if h' < TWO64 - 1 {
      Log2Monotone(h + 1, h' + 1);
    }
  }
}
