/** The provider speaks in wei, the ledger in decimals: the conversions and what their
    rounding costs.  Division keeps 16 decimals and rounds half away from zero. */
module Wei {

  /** The value `units` / 10^`scale`. */
  datatype Decimal = Decimal(units: int, scale: nat)

  function Pow10(n: nat): (p: int)
    ensures p > 0
  {
    if n == 0 then 1 else 10 * Pow10(n - 1)
  }

  const DIVISION_PRECISION := 16
  const WEI_SCALE := 18

  /** The integer nearest to n / m, ties away from zero. */
  function Round(n: int, m: int): int
    requires m > 0
  {
    if n >= 0 then (2 * n + m) / (2 * m) else -((-2 * n + m) / (2 * m))
  }

  function ToWei(d: Decimal): int {
    Round(d.units * Pow10(WEI_SCALE), Pow10(d.scale))
  }

  function FromWei(w: int): Decimal {
    Decimal(Round(w * Pow10(DIVISION_PRECISION), Pow10(WEI_SCALE)), DIVISION_PRECISION)
  }

  predicate SameValue(d: Decimal, e: Decimal) {
    d.units * Pow10(e.scale) == e.units * Pow10(d.scale)
  }

  function Abs(x: int): int {
    if x >= 0 then x else -x
  }

  // ---- Rounding ------------------------------------------------------------------

  lemma Powers()
    ensures Pow10(2) == 100 && Pow10(16) == 10_000_000_000_000_000 && Pow10(18) == 100 * Pow10(16)
  {
    assert Pow10(4) == 10_000;
    assert Pow10(8) == 100_000_000;
    assert Pow10(12) == 1_000_000_000_000;
  }

  lemma RoundMultiple(k: int, m: int)
    requires m > 0
    ensures Round(k * m, m) == k
  {
    if k >= 0 { DivideHalf(k, m); } else { DivideHalf(-k, m); }
  }

  lemma DivideHalf(k: nat, m: int)
    requires m > 0
    ensures (2 * (k * m) + m) / (2 * m) == k
  {
    var x := 2 * (k * m) + m;
    assert x == (2 * m) * k + m;
    assert 0 <= x - (2 * m) * k < 2 * m;
    Quotient(x, 2 * m, k);
  }

  lemma Scaled(m: int, a: int, b: int)
    requires m >= 0 && a <= b
    ensures m * a <= m * b
  {
    assert m * (b - a) >= 0;
    assert m * (b - a) == m * b - m * a;
  }

  lemma Quotient(x: int, m: int, q: int)
    requires m > 0 && 0 <= x - m * q < m
    ensures x / m == q
  {
    var r, s := x / m, x % m;
    assert x == m * r + s && 0 <= s < m;
    if r < q {
      StrictlyScaled(m, r, q);
    } else if q < r {
      StrictlyScaled(m, q, r);
    }
  }

  lemma StrictlyScaled(m: int, a: int, b: int)
    requires m >= 0 && a < b
    ensures m * a + m <= m * b
  {
    Scaled(m, a + 1, b);
    assert m * (a + 1) == m * a + m;
  }

  /** One wei of the 18 decimals is lost two digits at a time. */
  lemma FromWeiRounds(w: int)
    ensures FromWei(w).units == Round(w, 100)
  {
    Powers();
    var p, m := Pow10(16), 100;
    assert 2 * p > 0;
    if w >= 0 { CancelRound(w, p); } else { CancelRound(-w, p); assert -2 * (w * p) == 2 * ((-w) * p); }
  }

  /** Scaling numerator and denominator alike does not move the rounding. */
  lemma CancelRound(w: nat, p: int)
    requires p > 0
    ensures (2 * (w * p) + 100 * p) / (2 * (100 * p)) == (2 * w + 100) / 200
  {
    var q, s := (2 * w + 100) / 200, (2 * w + 100) % 200;
    assert 2 * w + 100 == 200 * q + s;
    var x := 2 * (w * p) + 100 * p;
    assert x == (2 * w + 100) * p;
    assert (200 * q + s) * p == (200 * p) * q + s * p;
    Scaled(p, 0, s);
    Scaled(p, s + 1, 200);
    assert p * (s + 1) == s * p + p && p * 200 == 200 * p;
    Quotient(x, 200 * p, q);
  }

  // ---- Round trips ---------------------------------------------------------------

  /** wei -> decimal -> wei lands on the nearest hundred. */
  lemma WeiRoundTrip(w: int)
    ensures ToWei(FromWei(w)) == 100 * Round(w, 100)
    ensures Abs(ToWei(FromWei(w)) - w) <= 50
    ensures ToWei(FromWei(w)) == w <==> w % 100 == 0
  {
    FromWeiRounds(w);
    Powers();
    var k := Round(w, 100);
    RoundMultiple(100 * k, Pow10(16));
    assert k * (100 * Pow10(16)) == (100 * k) * Pow10(16);
  }

  /** decimal -> wei -> decimal is exact for amounts of at most 16 decimals. */
  lemma DecimalRoundTrip(d: Decimal)
    requires d.scale <= DIVISION_PRECISION
    ensures SameValue(FromWei(ToWei(d)), d)
  {
    var s := d.scale;
    var u, low := d.units, Pow10(16 - s);
    PowAdd(s, 16 - s);
    Powers();
    assert u * Pow10(18) == (100 * (u * low)) * Pow10(s) by {
      assert Pow10(18) == 100 * (Pow10(s) * low);
      Regroup(u, low, Pow10(s));
    }
    RoundMultiple(100 * (u * low), Pow10(s));
    FromWeiRounds(100 * (u * low));
    RoundMultiple(u * low, 100);
    assert (u * low) * 100 == 100 * (u * low);
    assert (u * low) * Pow10(s) == u * Pow10(16) by { Swap(u, low, Pow10(s)); }
  }

  lemma Regroup(u: int, low: int, p: int)
    ensures u * (100 * (p * low)) == (100 * (u * low)) * p
  {
  }

  lemma Swap(u: int, low: int, p: int)
    ensures (u * low) * p == u * (p * low)
  {
  }

  lemma {:induction false} PowAdd(a: nat, b: nat)
    ensures Pow10(a + b) == Pow10(a) * Pow10(b)
  {
    if a > 0 { PowAdd(a - 1, b); }
  }

  // ---- Units ---------------------------------------------------------------------

  lemma OneEther()
    ensures Pow10(18) == 1_000_000_000_000_000_000 && Pow10(16) == 10_000_000_000_000_000
  {
    Powers();
  }

  /** One unit is 10^18 wei, whatever the number of decimals it is written with. */
  lemma UnitIsWei(n: int, scale: nat)
    requires scale <= 18
    ensures ToWei(Decimal(n * Pow10(scale), scale)) == n * 1_000_000_000_000_000_000
  {
    OneEther();
    var wei := n * 1_000_000_000_000_000_000;
    assert (n * Pow10(scale)) * Pow10(18) == wei * Pow10(scale) by { Exchange(n, Pow10(scale), Pow10(18)); }
    RoundMultiple(wei, Pow10(scale));
  }

  lemma Exchange(n: int, p: int, q: int)
    ensures (n * p) * q == (n * q) * p
  {
  }

  /** n * 10^18 wei are n units, exactly. */
  lemma WeiIsUnit(n: int)
    ensures FromWei(n * 1_000_000_000_000_000_000) == Decimal(n * 10_000_000_000_000_000, 16)
  {
    FromWeiRounds(n * 1_000_000_000_000_000_000);
    RoundMultiple(n * 10_000_000_000_000_000, 100);
    assert n * 1_000_000_000_000_000_000 == (n * 10_000_000_000_000_000) * 100;
  }

  // ---- Many conversions ----------------------------------------------------------

  function SumOf(xs: seq<int>): int {
    if xs == [] then 0 else SumOf(xs[..|xs| - 1]) + xs[|xs| - 1]
  }

  function Converted(xs: seq<int>): seq<int> {
    seq(|xs|, i requires 0 <= i < |xs| => ToWei(FromWei(xs[i])))
  }

  /** n converted rewards stay within 50 n wei of the provider's total. */
  lemma {:induction false} TotalError(xs: seq<int>)
    ensures Abs(SumOf(Converted(xs)) - SumOf(xs)) <= 50 * |xs|
  {
    if xs != [] {
      var before, last := xs[..|xs| - 1], xs[|xs| - 1];
      TotalError(before);
      WeiRoundTrip(last);
      assert Converted(xs)[..|xs| - 1] == Converted(before);
    }
  }

  lemma HalfwayUp(w: int)
    requires w >= 0 && w % 100 == 50
    ensures ToWei(FromWei(w)) == w + 50
  {
    WeiRoundTrip(w);
  }

  /** The bound is met: every amount that ends in 50 wei is off by 50. */
  lemma {:induction false} BoundMet(xs: seq<int>)
    requires forall i :: 0 <= i < |xs| ==> xs[i] >= 0 && xs[i] % 100 == 50
    ensures SumOf(Converted(xs)) == SumOf(xs) + 50 * |xs|
  {
    if xs != [] {
      var before, last := xs[..|xs| - 1], xs[|xs| - 1];
      BoundMet(before);
      HalfwayUp(last);
      assert Converted(xs)[..|xs| - 1] == Converted(before);
    }
  }
}
