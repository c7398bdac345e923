/**
 Streaming moments.  The state of a Stats object is compared with the plain definition: the number
 of values, their mean, the sums of the second, third and fourth powers of the deviations from the
 mean, and the extremes.  Values are reals, so rounding plays no role.
 */
module Moments {
  import opened Sequences

  datatype Extended = MinusInfinity | Finite(value: real) | PlusInfinity

  predicate Less(a: Extended, b: Extended) {
    match (a, b)
    case (_, MinusInfinity) => false
    case (MinusInfinity, _) => true
    case (PlusInfinity, _) => false
    case (_, PlusInfinity) => true
    case (Finite(x), Finite(y)) => x < y
  }

  function Min(a: Extended, b: Extended): Extended { if Less(b, a) then b else a }

  function Max(a: Extended, b: Extended): Extended { if Less(a, b) then b else a }

  datatype Moments = Moments(n: nat, m1: real, m2: real, m3: real, m4: real, min: Extended, max: Extended)

  const Empty := Moments(0, 0.0, 0.0, 0.0, 0.0, PlusInfinity, MinusInfinity)

  // ---- the formulas of the code --------------------------------------------------------------

  function Push(a: Moments, value: real): Moments {
    var d := value - a.m1;
    var n := (a.n + 1) as real;
    Pushed(a, value, d, d / n, a.n as real, n)
  }

  /** The updates of `push`, for the deviation d, its share dn, and the counts before and after. */
  function Pushed(a: Moments, value: real, d: real, dn: real, n1: real, n: real): Moments {
    var term1 := d * dn * n1;
    Moments(
      a.n + 1,
      a.m1 + dn,
      a.m2 + term1,
      a.m3 + Change3(term1, dn, n, a.m2),
      a.m4 + Change4(term1, dn, dn * dn, n, a.m2, a.m3),
      if Less(Finite(value), a.min) then Finite(value) else a.min,
      if Less(a.max, Finite(value)) then Finite(value) else a.max)
  }

  /** The state after a push, field by field. */
  lemma IsPushed(a: Moments, value: real, r: Moments, d: real, dn: real, n1: real, n: real)
    requires r.n == a.n + 1 && r.m1 == a.m1 + dn && r.m2 == a.m2 + d * dn * n1
    requires r.m3 == a.m3 + Change3(d * dn * n1, dn, n, a.m2)
    requires r.m4 == a.m4 + Change4(d * dn * n1, dn, dn * dn, n, a.m2, a.m3)
    requires r.min == if Less(Finite(value), a.min) then Finite(value) else a.min
    requires r.max == if Less(a.max, Finite(value)) then Finite(value) else a.max
    ensures r == Pushed(a, value, d, dn, n1, n)
  {
  }

  function Change3(term1: real, dn: real, n: real, m2: real): real {
    term1 * dn * (n - 2.0) - 3.0 * dn * m2
  }

  function Change4(term1: real, dn: real, dn2: real, n: real, m2: real, m3: real): real {
    term1 * dn2 * (n * n - 3.0 * n + 3.0) + 6.0 * dn2 * m2 - 4.0 * dn * m3
  }

  function Add(a: Moments, b: Moments): Moments {
    if a.n + b.n == 0 then Empty
    else Merge(a, b, b.m1 - a.m1, a.n as real, b.n as real, (a.n + b.n) as real)
  }

  /** The sums of `add`, for the difference d of the means and the counts. */
  function Merge(a: Moments, b: Moments, d: real, na: real, nb: real, n: real): Moments
    requires n > 0.0
  {
    Moments(
      a.n + b.n,
      (na * a.m1 + nb * b.m1) / n,
      a.m2 + b.m2 + Term2(d, na, nb, n),
      a.m3 + b.m3 + Term3(d, na, nb, n) + Skew(3.0, d, na, nb, n, a.m2, b.m2),
      a.m4 + b.m4 + Term4(d, na, nb, n) + Spread4(d, na, nb, n, a.m2, b.m2) + Skew(4.0, d, na, nb, n, a.m3, b.m3),
      Min(a.min, b.min),
      Max(a.max, b.max))
  }

  function Term2(d: real, na: real, nb: real, n: real): real
    requires n > 0.0
  {
    (d * d) * na * nb / n
  }

  function Term3(d: real, na: real, nb: real, n: real): real
    requires n > 0.0
  {
    (d * (d * d)) * na * nb * (na - nb) / Product(n, n)
  }

  function Term4(d: real, na: real, nb: real, n: real): real
    requires n > 0.0
  {
    ((d * d) * (d * d)) * na * nb * (na * na - na * nb + nb * nb) / Product(Product(n, n), n)
  }

  function Spread4(d: real, na: real, nb: real, n: real, a2: real, b2: real): real
    requires n > 0.0
  {
    6.0 * (d * d) * (na * na * b2 + nb * nb * a2) / Product(n, n)
  }

  function Skew(k: real, d: real, na: real, nb: real, n: real, a: real, b: real): real
    requires n > 0.0
  {
    k * d * (na * b - nb * a) / n
  }

  /** A divisor: the product of two positive numbers. */
  function Product(x: real, y: real): (r: real)
    requires x > 0.0 && y > 0.0
    ensures r > 0.0
  {
    x * y
  }

  // ---- the definitions -----------------------------------------------------------------------

  function Power(x: real, k: nat): real { if k == 0 then 1.0 else x * Power(x, k - 1) }

  /** The sum of the k-th powers of the distances from c. */
  function Deviation(xs: seq<real>, c: real, k: nat): real {
    if xs == [] then 0.0 else Power(xs[0] - c, k) + Deviation(xs[1..], c, k)
  }

  function Sum(xs: seq<real>): real { if xs == [] then 0.0 else xs[0] + Sum(xs[1..]) }

  function Mean(xs: seq<real>): real { if xs == [] then 0.0 else Sum(xs) / |xs| as real }

  function Least(xs: seq<real>): Extended { if xs == [] then PlusInfinity else Min(Finite(xs[0]), Least(xs[1..])) }

  function Greatest(
    xs: seq<real>): Extended { if xs == [] then MinusInfinity else Max(Finite(xs[0]), Greatest(xs[1..])) }

  function MomentsOf(xs: seq<real>): Moments {
    var c := Mean(xs);
    Moments(|xs|, c, Deviation(xs, c, 2), Deviation(xs, c, 3), Deviation(xs, c, 4), Least(xs), Greatest(xs))
  }

  // ---- sums over concatenations --------------------------------------------------------------

  lemma {:induction false} DeviationConcat(xs: seq<real>, ys: seq<real>, c: real, k: nat)
    ensures Deviation(xs + ys, c, k) == Deviation(xs, c, k) + Deviation(ys, c, k)
  {
    if xs == [] {
      assert xs + ys == ys;
    } else {
      assert (xs + ys)[1..] == xs[1..] + ys;
      DeviationConcat(xs[1..], ys, c, k);
    }
  }

  lemma {:induction false} SumConcat(xs: seq<real>, ys: seq<real>)
    ensures Sum(xs + ys) == Sum(xs) + Sum(ys)
  {
    if xs == [] {
      assert xs + ys == ys;
    } else {
      assert (xs + ys)[1..] == xs[1..] + ys;
      SumConcat(xs[1..], ys);
    }
  }

  lemma {:induction false} LeastConcat(xs: seq<real>, ys: seq<real>)
    ensures Least(xs + ys) == Min(Least(xs), Least(ys))
    ensures Greatest(xs + ys) == Max(Greatest(xs), Greatest(ys))
  {
    if xs == [] {
      assert xs + ys == ys;
    } else {
      assert (xs + ys)[1..] == xs[1..] + ys;
      LeastConcat(xs[1..], ys);
    }
  }

  // ---- moving the centre ---------------------------------------------------------------------

  lemma Powers(x: real)
    ensures Power(x, 1) == x && Power(x, 2) == x * x && Power(x, 3) == x * x * x && Power(x, 4) == x * x * x * x
  {
    assert Power(x, 1) == x * Power(x, 0);
    assert Power(x, 2) == x * Power(x, 1);
    assert Power(x, 3) == x * Power(x, 2);
    assert Power(x, 4) == x * Power(x, 3);
    assert x * (x * x) == x * x * x;
    assert x * (x * x * x) == x * x * x * x;
  }

  lemma Square(u: real, h: real)
    ensures (u + h) * (u + h) == u * u + 2.0 * h * u + h * h
  {
  }

  lemma Cube(u: real, h: real)
    ensures (u + h) * (u + h) * (u + h) == u * u * u + 3.0 * h * (u * u) + 3.0 * (h * h) * u + h * h * h
  {
    Square(u, h);
    var q := u * u + 2.0 * h * u + h * h;
    assert q * (u + h) == q * u + q * h;
    assert q * u == u * u * u + 2.0 * h * (u * u) + h * h * u;
    assert q * h == h * (u * u) + 2.0 * (h * h) * u + h * h * h;
  }

  lemma Fourth(u: real, h: real)
    ensures (u + h) * (u + h) * (u + h) * (u + h) ==
      u * u * u * u + 4.0 * h * (u * u * u) + 6.0 * (h * h) * (u * u) + 4.0 * (h * h * h) * u + h * h * h * h
  {
    Cube(u, h);
    var q := u * u * u + 3.0 * h * (u * u) + 3.0 * (h * h) * u + h * h * h;
    assert q * (u + h) == q * u + q * h;
    assert q * u == u * u * u * u + 3.0 * h * (u * u * u) + 3.0 * (h * h) * (u * u) + h * h * h * u;
    assert q * h == h * (u * u * u) + 3.0 * (h * h) * (u * u) + 3.0 * (h * h * h) * u + h * h * h * h;
  }

  // Deviations around c - h in terms of deviations around c.

  function Shifted2(h: real, n: real, d1: real, d2: real): real { d2 + 2.0 * h * d1 + n * (h * h) }

  function Shifted3(h: real, n: real, d1: real, d2: real, d3: real): real {
    d3 + 3.0 * h * d2 + 3.0 * (h * h) * d1 + n * (h * h * h)
  }

  function Shifted4(h: real, n: real, d1: real, d2: real, d3: real, d4: real): real {
    d4 + 4.0 * h * d3 + 6.0 * (h * h) * d2 + 4.0 * (h * h * h) * d1 + n * (h * h * h * h)
  }

  // One more value, at distance u from the old centre.

  lemma ShiftSecond(u: real, h: real, n: real, d1: real, d2: real)
    ensures Power(u + h, 2) + Shifted2(h, n, d1, d2) == Shifted2(h, n + 1.0, Power(u, 1) + d1, Power(u, 2) + d2)
  {
    Powers(u);
    Powers(u + h);
    Square(u, h);
  }

  lemma ShiftThird(u: real, h: real, n: real, d1: real, d2: real, d3: real)
    ensures Power(u + h, 3) + Shifted3(h, n, d1, d2, d3) ==
      Shifted3(h, n + 1.0, Power(u, 1) + d1, Power(u, 2) + d2, Power(u, 3) + d3)
  {
    Powers(u);
    Powers(u + h);
    Cube(u, h);
  }

  lemma ShiftFourth(u: real, h: real, n: real, d1: real, d2: real, d3: real, d4: real)
    ensures Power(u + h, 4) + Shifted4(h, n, d1, d2, d3, d4) ==
      Shifted4(h, n + 1.0, Power(u, 1) + d1, Power(u, 2) + d2, Power(u, 3) + d3, Power(u, 4) + d4)
  {
    Powers(u);
    Powers(u + h);
    Fourth(u, h);
  }

  lemma {:induction false} Shift2(xs: seq<real>, c: real, h: real)
    ensures Deviation(xs, c - h, 2) == Shifted2(h, |xs| as real, Deviation(xs, c, 1), Deviation(xs, c, 2))
  {
    if xs != [] {
      var u := xs[0] - c;
      var rest := xs[1..];
      assert xs[0] - (c - h) == u + h;
      Shift2(rest, c, h);
      ShiftSecond(u, h, |rest| as real, Deviation(rest, c, 1), Deviation(rest, c, 2));
      assert |xs| as real == |rest| as real + 1.0;
    }
  }

  lemma {:induction false} Shift3(xs: seq<real>, c: real, h: real)
    ensures Deviation(xs, c - h, 3) ==
      Shifted3(h, |xs| as real, Deviation(xs, c, 1), Deviation(xs, c, 2), Deviation(xs, c, 3))
  {
    if xs != [] {
      var u := xs[0] - c;
      var rest := xs[1..];
      assert xs[0] - (c - h) == u + h;
      Shift3(rest, c, h);
      ShiftThird(u, h, |rest| as real, Deviation(rest, c, 1), Deviation(rest, c, 2), Deviation(rest, c, 3));
      assert |xs| as real == |rest| as real + 1.0;
    }
  }

  lemma {:induction false} Shift4(xs: seq<real>, c: real, h: real)
    ensures Deviation(xs, c - h, 4) ==
      Shifted4(h, |xs| as real, Deviation(xs, c, 1), Deviation(xs, c, 2), Deviation(xs, c, 3), Deviation(xs, c, 4))
  {
    if xs != [] {
      var u := xs[0] - c;
      var rest := xs[1..];
      assert xs[0] - (c - h) == u + h;
      Shift4(rest, c, h);
      ShiftFourth(u, h, |rest| as real, Deviation(rest, c, 1), Deviation(rest, c, 2), Deviation(rest, c, 3),
        Deviation(rest, c, 4));
      assert |xs| as real == |rest| as real + 1.0;
    }
  }

  lemma {:induction false} DeviationSum(xs: seq<real>, c: real)
    ensures Deviation(xs, c, 1) == Sum(xs) - |xs| as real * c
  {
    if xs != [] {
      Powers(xs[0] - c);
      DeviationSum(xs[1..], c);
      assert |xs| as real == |xs[1..]| as real + 1.0;
    }
  }

  lemma Cancels(x: real, n: real)
    requires n != 0.0
    ensures x / n * n == x && (x * n) / n == x
  {
  }

  /** The deviations from the mean add up to zero. */
  lemma MeanBalances(xs: seq<real>)
    ensures Deviation(xs, Mean(xs), 1) == 0.0 && Sum(xs) == |xs| as real * Mean(xs)
  {
    DeviationSum(xs, Mean(xs));
    if xs != [] {
      Cancels(Sum(xs), |xs| as real);
    }
  }

  // Deviations of n values from a centre at distance h from their mean, given those from the mean.

  function Around2(m2: real, n: real, h: real): real { m2 + n * (h * h) }

  function Around3(m3: real, m2: real, n: real, h: real): real { m3 + 3.0 * h * m2 + n * (h * h * h) }

  function Around4(m4: real, m3: real, m2: real, n: real, h: real): real {
    m4 + 4.0 * h * m3 + 6.0 * (h * h) * m2 + n * (h * h * h * h)
  }

  lemma Balanced(h: real, n: real, d1: real, d2: real, d3: real, d4: real)
    requires d1 == 0.0
    ensures Shifted2(h, n, d1, d2) == Around2(d2, n, h)
    ensures Shifted3(h, n, d1, d2, d3) == Around3(d3, d2, n, h)
    ensures Shifted4(h, n, d1, d2, d3, d4) == Around4(d4, d3, d2, n, h)
  {
  }

  /** Deviations of xs from the centre Mean(xs) - h. */
  lemma FromMean2(xs: seq<real>, h: real)
    ensures Deviation(xs, Mean(xs) - h, 2) == Around2(MomentsOf(xs).m2, |xs| as real, h)
  {
    var c, n := Mean(xs), |xs| as real;
    var d1, d2, d3, d4 := Deviation(xs, c, 1), Deviation(xs, c, 2), Deviation(xs, c, 3), Deviation(xs, c, 4);
    Shift2(xs, c, h);
    MeanBalances(xs);
    Balanced(h, n, d1, d2, d3, d4);
  }

  lemma FromMean3(xs: seq<real>, h: real)
    ensures Deviation(xs, Mean(xs) - h, 3) == Around3(MomentsOf(xs).m3, MomentsOf(xs).m2, |xs| as real, h)
  {
    var c, n := Mean(xs), |xs| as real;
    var d1, d2, d3, d4 := Deviation(xs, c, 1), Deviation(xs, c, 2), Deviation(xs, c, 3), Deviation(xs, c, 4);
    Shift3(xs, c, h);
    MeanBalances(xs);
    Balanced(h, n, d1, d2, d3, d4);
  }

  lemma FromMean4(xs: seq<real>, h: real)
    ensures Deviation(xs, Mean(xs) - h, 4) ==
      Around4(MomentsOf(xs).m4, MomentsOf(xs).m3, MomentsOf(xs).m2, |xs| as real, h)
  {
    var c, n := Mean(xs), |xs| as real;
    var d1, d2, d3, d4 := Deviation(xs, c, 1), Deviation(xs, c, 2), Deviation(xs, c, 3), Deviation(xs, c, 4);
    Shift4(xs, c, h);
    MeanBalances(xs);
    Balanced(h, n, d1, d2, d3, d4);
  }

  // ---- the algebra of merging ----------------------------------------------------------------

  lemma Quotient(x: real, y: real, z: real)
    requires z != 0.0 && x == y * z
    ensures x / z == y
  {
  }

  /** The parts have the shares q and p of the values, and their means are at ha and hb from the common one. */
  ghost predicate Split(d: real, n: real, na: real, nb: real, p: real, q: real, ha: real, hb: real) {
    n > 0.0 && p + q == 1.0 && na == q * n && nb == p * n && ha == -p * d && hb == q * d
  }

  lemma SecondPolynomial(d: real, n: real, p: real, q: real)
    ensures (d * d) * (q * n) * (p * n) == (d * d * q * p * n) * n
    ensures (q * n) * ((-p * d) * (-p * d)) == (d * d * q * p * n) * p
    ensures (p * n) * ((q * d) * (q * d)) == (d * d * q * p * n) * q
  {
  }

  lemma Second(d: real, n: real, na: real, nb: real, p: real, q: real, ha: real, hb: real)
    requires Split(d, n, na, nb, p, q, ha, hb)
    ensures Term2(d, na, nb, n) == na * (ha * ha) + nb * (hb * hb)
  {
    var t := d * d * q * p * n;
    SecondPolynomial(d, n, p, q);
    Quotient((d * d) * na * nb, t, n);
    assert t * p + t * q == t * (p + q);
  }

  lemma ThirdPolynomial(d: real, n: real, p: real, q: real)
    ensures (d * (d * d)) * (q * n) * (p * n) * (q * n - p * n) == (d * (d * d) * q * p * n * (q - p)) * (n * n)
    ensures (q * n) * ((-p * d) * (-p * d) * (-p * d)) == -((d * (d * d) * q * p * n) * (p * p))
    ensures (p * n) * ((q * d) * (q * d) * (q * d)) == (d * (d * d) * q * p * n) * (q * q)
  {
    var t := d * (d * d) * q * p * n;
    assert (d * (d * d)) * (q * n) * (p * n) == t * n;
    assert (t * n) * (q * n - p * n) == (t * (q - p)) * (n * n);
  }

  lemma ThirdSkew(d: real, n: real, na: real, nb: real, p: real, q: real, ha: real, hb: real)
    requires Split(d, n, na, nb, p, q, ha, hb)
    ensures Term3(d, na, nb, n) == na * (ha * ha * ha) + nb * (hb * hb * hb)
  {
    var t := d * (d * d) * q * p * n;
    ThirdPolynomial(d, n, p, q);
    var y := t * (q - p);
    Quotient((d * (d * d)) * na * nb * (na - nb), y, Product(n, n));
    assert q * q - p * p == (q - p) * (p + q);
    assert t * (q * q) - t * (p * p) == t * (q * q - p * p);
  }

  lemma ThirdSpread(d: real, n: real, na: real, nb: real, p: real, q: real, ha: real, hb: real, d2a: real, d2b: real)
    requires Split(d, n, na, nb, p, q, ha, hb)
    ensures Skew(3.0, d, na, nb, n, d2a, d2b) == 3.0 * ha * d2a + 3.0 * hb * d2b
  {
    var w := 3.0 * d * (q * d2b - p * d2a);
    assert 3.0 * d * ((q * n) * d2b - (p * n) * d2a) == w * n;
    Quotient(3.0 * d * (na * d2b - nb * d2a), w, n);
  }

  lemma FourthPolynomial(d: real, n: real, p: real, q: real)
    ensures ((d * d) * (d * d)) * (q * n) * (p * n) == ((d * d) * (d * d) * q * p * n) * n
    ensures (q * n) * (q * n) - (q * n) * (p * n) + (p * n) * (p * n) == (q * q - q * p + p * p) * (n * n)
    ensures (q * q - q * p + p * p) * (p + q) == p * p * p + q * q * q
  {
  }

  lemma FourthPowers(d: real, n: real, p: real, q: real)
    ensures (q * n) * ((-p * d) * (-p * d) * (-p * d) * (-p * d)) == ((d * d) * (d * d) * q * p * n) * (p * p * p)
    ensures (p * n) * ((q * d) * (q * d) * (q * d) * (q * d)) == ((d * d) * (d * d) * q * p * n) * (q * q * q)
  {
  }

  lemma Reassociate(t: real, n: real, w: real)
    ensures (t * n) * (w * (n * n)) == (t * w) * (n * n * n)
  {
  }

  lemma FourthTail(d: real, n: real, na: real, nb: real, p: real, q: real, ha: real, hb: real)
    requires Split(d, n, na, nb, p, q, ha, hb)
    ensures Term4(d, na, nb, n) == na * (ha * ha * ha * ha) + nb * (hb * hb * hb * hb)
  {
    var t := (d * d) * (d * d) * q * p * n;
    var w := q * q - q * p + p * p;
    FourthPolynomial(d, n, p, q);
    FourthPowers(d, n, p, q);
    Reassociate(t, n, w);
    Quotient(((d * d) * (d * d)) * na * nb * (na * na - na * nb + nb * nb), t * w, Product(Product(n, n), n));
    assert t * (p * p * p) + t * (q * q * q) == t * (p * p * p + q * q * q);
  }

  lemma FourthSpread(d: real, n: real, na: real, nb: real, p: real, q: real, ha: real, hb: real, d2a: real, d2b: real)
    requires Split(d, n, na, nb, p, q, ha, hb)
    ensures Spread4(d, na, nb, n, d2a, d2b) == 6.0 * (ha * ha) * d2a + 6.0 * (hb * hb) * d2b
  {
    var v := 6.0 * (d * d) * (q * q * d2b + p * p * d2a);
    assert (q * n) * (q * n) * d2b + (p * n) * (p * n) * d2a == (q * q * d2b + p * p * d2a) * (n * n);
    assert 6.0 * (d * d) * ((q * q * d2b + p * p * d2a) * (n * n)) == v * (n * n);
    Quotient(6.0 * (d * d) * (na * na * d2b + nb * nb * d2a), v, Product(n, n));
    assert v == 6.0 * ((-p * d) * (-p * d)) * d2a + 6.0 * ((q * d) * (q * d)) * d2b;
  }

  lemma FourthSkew(d: real, n: real, na: real, nb: real, p: real, q: real, ha: real, hb: real, d3a: real, d3b: real)
    requires Split(d, n, na, nb, p, q, ha, hb)
    ensures Skew(4.0, d, na, nb, n, d3a, d3b) == 4.0 * ha * d3a + 4.0 * hb * d3b
  {
    var w := 4.0 * d * (q * d3b - p * d3a);
    assert 4.0 * d * ((q * n) * d3b - (p * n) * d3a) == w * n;
    Quotient(4.0 * d * (na * d3b - nb * d3a), w, n);
  }

  lemma Share(x: real, n: real) returns (p: real)
    requires n > 0.0
    ensures p * n == x
  {
    p := x / n;
  }

  lemma Shares(na: real, nb: real, n: real) returns (p: real, q: real)
    requires n == na + nb && n > 0.0
    ensures p + q == 1.0 && na == q * n && nb == p * n
  {
    p := Share(nb, n);
    q := 1.0 - p;
    OneMinus(p, q, n);
  }

  lemma OneMinus(p: real, q: real, n: real)
    requires p + q == 1.0
    ensures q * n == n - p * n
  {
    assert q == 1.0 - p;
    assert (1.0 - p) * n == n - p * n;
  }

  /** The distances of the two means from the common mean. */
  lemma CommonMean(ma: real, mb: real, d: real, na: real, nb: real, n: real, p: real, q: real)
    requires n > 0.0 && p + q == 1.0 && na == q * n && nb == p * n && d == mb - ma
    ensures (na * ma + nb * mb) / n == ma - (-p * d) == mb - q * d
  {
    assert na * ma + nb * mb == (q * ma + p * mb) * n;
    Quotient(na * ma + nb * mb, q * ma + p * mb, n);
    assert q * ma + p * ma == (p + q) * ma;
    assert q * mb + p * mb == (p + q) * mb;
  }

  // ---- merging is exact ----------------------------------------------------------------------

  lemma MergeSecond(a: Moments, b: Moments, d: real, na: real, nb: real, n: real, p: real, q: real, ha: real, hb: real)
    requires Split(d, n, na, nb, p, q, ha, hb)
    ensures Merge(a, b, d, na, nb, n).m2 == Around2(a.m2, na, ha) + Around2(b.m2, nb, hb)
  {
    Second(d, n, na, nb, p, q, ha, hb);
  }

  lemma MergeThird(a: Moments, b: Moments, d: real, na: real, nb: real, n: real, p: real, q: real, ha: real, hb: real)
    requires Split(d, n, na, nb, p, q, ha, hb)
    ensures Merge(a, b, d, na, nb, n).m3 == Around3(a.m3, a.m2, na, ha) + Around3(b.m3, b.m2, nb, hb)
  {
    ThirdSkew(d, n, na, nb, p, q, ha, hb);
    ThirdSpread(d, n, na, nb, p, q, ha, hb, a.m2, b.m2);
  }

  lemma MergeFourth(a: Moments, b: Moments, d: real, na: real, nb: real, n: real, p: real, q: real, ha: real, hb: real)
    requires Split(d, n, na, nb, p, q, ha, hb)
    ensures Merge(a, b, d, na, nb, n).m4 == Around4(a.m4, a.m3, a.m2, na, ha) + Around4(b.m4, b.m3, b.m2, nb, hb)
  {
    FourthTail(d, n, na, nb, p, q, ha, hb);
    FourthSpread(d, n, na, nb, p, q, ha, hb, a.m2, b.m2);
    FourthSkew(d, n, na, nb, p, q, ha, hb, a.m3, b.m3);
    FourthSum(a.m4, a.m3, a.m2, na, ha, b.m4, b.m3, b.m2, nb, hb);
  }

  lemma FourthSum(a4: real, a3: real, a2: real, na: real, ha: real, b4: real, b3: real, b2: real, nb: real, hb: real)
    ensures Around4(a4, a3, a2, na, ha) + Around4(b4, b3, b2, nb, hb) ==
      a4 + b4 + (na * (ha * ha * ha * ha) + nb * (hb * hb * hb * hb)) + (6.0 * (ha * ha) * a2 + 6.0 * (hb * hb) * b2)
        + (4.0 * ha * a3 + 4.0 * hb * b3)
  {
  }

  lemma ConcatMean(xs: seq<real>, ys: seq<real>)
    requires xs + ys != []
    ensures Mean(xs + ys) == (|xs| as real * Mean(xs) + |ys| as real * Mean(ys)) / (|xs| + |ys|) as real
  {
    SumConcat(xs, ys);
    MeanBalances(xs);
    MeanBalances(ys);
  }

  /** The means of xs and ys are at ha and hb from the mean of xs + ys. */
  ghost predicate Distances(xs: seq<real>, ys: seq<real>, ha: real, hb: real) {
    Mean(xs + ys) == Mean(xs) - ha && Mean(xs + ys) == Mean(ys) - hb
  }

  lemma Combined2(xs: seq<real>, ys: seq<real>, ha: real, hb: real)
    requires Distances(xs, ys, ha, hb)
    ensures MomentsOf(xs + ys).m2 ==
      Around2(MomentsOf(xs).m2, |xs| as real, ha) + Around2(MomentsOf(ys).m2, |ys| as real, hb)
  {
    FromMean2(xs, ha);
    FromMean2(ys, hb);
    DeviationConcat(xs, ys, Mean(xs + ys), 2);
  }

  lemma Combined3(xs: seq<real>, ys: seq<real>, ha: real, hb: real)
    requires Distances(xs, ys, ha, hb)
    ensures MomentsOf(xs + ys).m3 ==
      Around3(MomentsOf(xs).m3, MomentsOf(xs).m2, |xs| as real, ha)
        + Around3(MomentsOf(ys).m3, MomentsOf(ys).m2, |ys| as real, hb)
  {
    FromMean3(xs, ha);
    FromMean3(ys, hb);
    DeviationConcat(xs, ys, Mean(xs + ys), 3);
  }

  lemma Combined4(xs: seq<real>, ys: seq<real>, ha: real, hb: real)
    requires Distances(xs, ys, ha, hb)
    ensures MomentsOf(xs + ys).m4 ==
      Around4(MomentsOf(xs).m4, MomentsOf(xs).m3, MomentsOf(xs).m2, |xs| as real, ha)
      + Around4(MomentsOf(ys).m4, MomentsOf(ys).m3, MomentsOf(ys).m2, |ys| as real, hb)
  {
    FromMean4(xs, ha);
    FromMean4(ys, hb);
    DeviationConcat(xs, ys, Mean(xs + ys), 4);
  }

  /** The shares of the two parts, and the distances of their means from the common one. */
  lemma Parts(
    xs: seq<real>, ys: seq<real>, d: real, na: real, nb: real, n: real) returns (p: real, q: real, ha: real, hb: real)
    requires xs + ys != [] && d == Mean(ys) - Mean(xs) && na == |xs| as real && nb == |ys| as real
      && n == (|xs| + |ys|) as real
    ensures Split(d, n, na, nb, p, q, ha, hb) && Distances(xs, ys, ha, hb)
  {
    p, q := Shares(na, nb, n);
    ha, hb := -p * d, q * d;
    ConcatMean(xs, ys);
    CommonMean(Mean(xs), Mean(ys), d, na, nb, n, p, q);
  }

  lemma MergeMean(xs: seq<real>, ys: seq<real>, d: real, na: real, nb: real, n: real)
    requires xs + ys != [] && na == |xs| as real && nb == |ys| as real && n == (|xs| + |ys|) as real
    ensures Merge(MomentsOf(xs), MomentsOf(ys), d, na, nb, n).m1 == MomentsOf(xs + ys).m1
  {
    ConcatMean(xs, ys);
  }

  lemma MergeIsExact(xs: seq<real>, ys: seq<real>, d: real, na: real, nb: real, n: real)
    requires xs + ys != [] && d == Mean(ys) - Mean(xs) && na == |xs| as real && nb == |ys| as real
      && n == (|xs| + |ys|) as real
    ensures Merge(MomentsOf(xs), MomentsOf(ys), d, na, nb, n) == MomentsOf(xs + ys)
  {
    var a, b, c := MomentsOf(xs), MomentsOf(ys), MomentsOf(xs + ys);
    var p, q, ha, hb := Parts(xs, ys, d, na, nb, n);
    var m := Merge(a, b, d, na, nb, n);
    MergeMean(xs, ys, d, na, nb, n);
    assert m.m2 == c.m2 by {
      Combined2(xs, ys, ha, hb);
      MergeSecond(a, b, d, na, nb, n, p, q, ha, hb);
    }
    assert m.m3 == c.m3 by {
      Combined3(xs, ys, ha, hb);
      MergeThird(a, b, d, na, nb, n, p, q, ha, hb);
    }
    assert m.m4 == c.m4 by {
      Combined4(xs, ys, ha, hb);
      MergeFourth(a, b, d, na, nb, n, p, q, ha, hb);
    }
    LeastConcat(xs, ys);
  }

  /** Adding the states of two parts gives the state of all their values. */
  lemma AddIsExact(xs: seq<real>, ys: seq<real>)
    ensures Add(MomentsOf(xs), MomentsOf(ys)) == MomentsOf(xs + ys)
  {
    if xs + ys == [] {
      assert xs == [] && ys == [];
    } else {
      MergeIsExact(xs, ys, MomentsOf(ys).m1 - MomentsOf(xs).m1, |xs| as real, |ys| as real, (|xs| + |ys|) as real);
    }
  }

  // ---- pushing is merging a single value -----------------------------------------------------

  lemma SingleIsExact(v: real)
    ensures MomentsOf([v]) == SingleMoments(v)
  {
    assert [v][1..] == [];
    assert Sum([v]) == v + Sum([]);
    assert Mean([v]) == v;
    SinglePowers(v);
    assert Least([v]) == Min(Finite(v), Least([])) && Greatest([v]) == Max(Finite(v), Greatest([]));
  }

  lemma SinglePowers(v: real)
    ensures Deviation([v], v, 2) == 0.0 && Deviation([v], v, 3) == 0.0 && Deviation([v], v, 4) == 0.0
  {
    assert [v][1..] == [];
    Powers(0.0);
    assert v - v == 0.0;
    assert Deviation([v], v, 2) == Power(0.0, 2) + Deviation([], v, 2);
    assert Deviation([v], v, 3) == Power(0.0, 3) + Deviation([], v, 3);
    assert Deviation([v], v, 4) == Power(0.0, 4) + Deviation([], v, 4);
  }

  lemma PushPolynomials(e: real, m: real, n: real)
    requires n == m + 1.0
    ensures ((e * n) * (e * n)) * m * 1.0 == ((e * n) * e * m) * n
    ensures ((e * n) * ((e * n) * (e * n))) * m * 1.0 * (m - 1.0) == ((e * n) * e * m * e * (n - 2.0)) * (n * n)
    ensures m * m - m * 1.0 + 1.0 * 1.0 == n * n - 3.0 * n + 3.0
    ensures (((e * n) * (e * n)) * ((e * n) * (e * n))) * m * 1.0 == ((e * n) * e * m * (e * e)) * (n * n * n)
  {
    assert m - 1.0 == n - 2.0;
    assert ((e * n) * ((e * n) * (e * n))) * m == ((e * n) * e * m * e) * (n * n);
  }

  lemma PushSecond(d: real, e: real, m: real, n: real)
    requires n == m + 1.0 && n > 0.0 && d == e * n
    ensures Term2(d, m, 1.0, n) == d * e * m
  {
    PushPolynomials(e, m, n);
    Quotient((d * d) * m * 1.0, d * e * m, n);
  }

  lemma PushThird(d: real, e: real, m: real, n: real, m2: real)
    requires n == m + 1.0 && n > 0.0 && d == e * n
    ensures Term3(d, m, 1.0, n) == d * e * m * e * (n - 2.0)
    ensures Skew(3.0, d, m, 1.0, n, m2, 0.0) == -(3.0 * e * m2)
  {
    PushPolynomials(e, m, n);
    var t := d * e * m * e * (n - 2.0);
    Quotient((d * (d * d)) * m * 1.0 * (m - 1.0), t, Product(n, n));
    var w := -(3.0 * e * m2);
    assert 3.0 * (e * n) * (m * 0.0 - 1.0 * m2) == w * n;
    Quotient(3.0 * d * (m * 0.0 - 1.0 * m2), w, n);
  }

  lemma PushFourthPolynomial(d: real, e: real, m: real, n: real, t: real, w: real)
    requires n == m + 1.0 && d == e * n && t == d * e * m * (e * e) && w == n * n - 3.0 * n + 3.0
    ensures ((d * d) * (d * d)) * m * 1.0 * (m * m - m * 1.0 + 1.0 * 1.0) == (t * (n * n * n)) * w
  {
    PushPolynomials(e, m, n);
  }

  lemma Swapped(t: real, x: real, w: real)
    ensures (t * x) * w == (t * w) * x
  {
  }

  lemma PushFourth(d: real, e: real, m: real, n: real)
    requires n == m + 1.0 && n > 0.0 && d == e * n
    ensures Term4(d, m, 1.0, n) == d * e * m * (e * e) * (n * n - 3.0 * n + 3.0)
  {
    var t := d * e * m * (e * e);
    var w := n * n - 3.0 * n + 3.0;
    PushFourthPolynomial(d, e, m, n, t, w);
    Swapped(t, n * n * n, w);
    Quotient(((d * d) * (d * d)) * m * 1.0 * (m * m - m * 1.0 + 1.0 * 1.0), t * w, Product(Product(n, n), n));
  }

  lemma PushFourthRest(d: real, e: real, m: real, n: real, m2: real, m3: real)
    requires n == m + 1.0 && n > 0.0 && d == e * n
    ensures Spread4(d, m, 1.0, n, m2, 0.0) == 6.0 * (e * e) * m2
    ensures Skew(4.0, d, m, 1.0, n, m3, 0.0) == -(4.0 * e * m3)
  {
    var v := 6.0 * (e * e) * m2;
    assert 6.0 * ((e * n) * (e * n)) * (m * m * 0.0 + 1.0 * 1.0 * m2) == v * (n * n);
    Quotient(6.0 * (d * d) * (m * m * 0.0 + 1.0 * 1.0 * m2), v, Product(n, n));
    var w := -(4.0 * e * m3);
    assert 4.0 * (e * n) * (m * 0.0 - 1.0 * m3) == w * n;
    Quotient(4.0 * d * (m * 0.0 - 1.0 * m3), w, n);
  }

  lemma PushMean(m1: real, v: real, d: real, e: real, m: real, n: real)
    requires n == m + 1.0 && n > 0.0 && d == e * n && d == v - m1
    ensures (m * m1 + 1.0 * v) / n == m1 + e
  {
    assert m * m1 + 1.0 * v == n * m1 + e * n by {
      assert n * m1 == m * m1 + m1;
    }
    var y := m1 + e;
    assert y * n == (m1 + e) * n;
    assert (m1 + e) * n == n * m1 + e * n;
    Quotient(m * m1 + 1.0 * v, y, n);
  }

  lemma PushChange3(d: real, e: real, m: real, n: real, m2: real)
    requires n == m + 1.0 && n > 0.0 && d == e * n
    ensures Change3(d * e * m, e, n, m2) == Term3(d, m, 1.0, n) + Skew(3.0, d, m, 1.0, n, m2, 0.0)
  {
    PushThird(d, e, m, n, m2);
  }

  lemma PushChange4(d: real, e: real, m: real, n: real, m2: real, m3: real)
    requires n == m + 1.0 && n > 0.0 && d == e * n
    ensures Change4(d * e * m, e, e * e, n, m2, m3) ==
      Term4(d, m, 1.0, n) + Spread4(d, m, 1.0, n, m2, 0.0) + Skew(4.0, d, m, 1.0, n, m3, 0.0)
  {
    PushFourth(d, e, m, n);
    PushFourthRest(d, e, m, n, m2, m3);
  }

  function SingleMoments(v: real): Moments { Moments(1, v, 0.0, 0.0, 0.0, Finite(v), Finite(v)) }

  lemma PushedM3(a: Moments, v: real, d: real, e: real, m: real, n: real)
    requires m == a.n as real && n == m + 1.0 && d == e * n
    ensures Pushed(a, v, d, e, m, n).m3 == Merge(a, SingleMoments(v), d, m, 1.0, n).m3
  {
    PushChange3(d, e, m, n, a.m2);
  }

  lemma PushedM4(a: Moments, v: real, d: real, e: real, m: real, n: real)
    requires m == a.n as real && n == m + 1.0 && d == e * n
    ensures Pushed(a, v, d, e, m, n).m4 == Merge(a, SingleMoments(v), d, m, 1.0, n).m4
  {
    PushChange4(d, e, m, n, a.m2, a.m3);
  }

  lemma PushedM12(a: Moments, v: real, d: real, e: real, m: real, n: real)
    requires m == a.n as real && n == m + 1.0 && d == v - a.m1 && d == e * n
    ensures Pushed(a, v, d, e, m, n).m1 == Merge(a, SingleMoments(v), d, m, 1.0, n).m1
    ensures Pushed(a, v, d, e, m, n).m2 == Merge(a, SingleMoments(v), d, m, 1.0, n).m2
  {
    PushMean(a.m1, v, d, e, m, n);
    PushSecond(d, e, m, n);
  }

  lemma PushedIsMerged(a: Moments, v: real, d: real, e: real, m: real, n: real)
    requires m == a.n as real && n == m + 1.0 && d == v - a.m1 && d == e * n
    ensures Pushed(a, v, d, e, m, n) == Merge(a, SingleMoments(v), d, m, 1.0, n)
  {
    PushedM12(a, v, d, e, m, n);
    PushedM3(a, v, d, e, m, n);
    PushedM4(a, v, d, e, m, n);
  }

  /** Pushing a value onto the state of xs gives the state of xs followed by the value. */
  lemma PushIsExact(xs: seq<real>, v: real)
    ensures Push(MomentsOf(xs), v) == MomentsOf(xs + [v])
  {
    var a := MomentsOf(xs);
    var d, m, n := v - a.m1, |xs| as real, |xs| as real + 1.0;
    var e := d / n;
    Cancels(d, n);
    assert (|xs| + 1) as real == n;
    PushedIsMerged(a, v, d, e, m, n);
    SingleIsExact(v);
    AddIsExact(xs, [v]);
  }

  // ---- partitions and arrival order ----------------------------------------------------------

  function PushAll(a: Moments, xs: seq<real>): Moments {
    if xs == [] then a else Push(PushAll(a, xs[..|xs| - 1]), xs[|xs| - 1])
  }

  lemma {:induction false} PushAllIsExact(xs: seq<real>)
    ensures PushAll(Empty, xs) == MomentsOf(xs)
  {
    if xs != [] {
      PushAllIsExact(xs[..|xs| - 1]);
      PushIsExact(xs[..|xs| - 1], xs[|xs| - 1]);
      assert xs == xs[..|xs| - 1] + [xs[|xs| - 1]];
    }
  }

  /** The aggregation of a dataset: the states of the partitions are added up in order of arrival. */
  function Aggregate(a: Moments, parts: seq<seq<real>>): Moments
    decreases |parts|
  {
    if parts == [] then a else Aggregate(Add(a, PushAll(Empty, parts[0])), parts[1..])
  }

  lemma PartitionIsExact(xs: seq<real>, part: seq<real>)
    ensures Add(MomentsOf(xs), PushAll(Empty, part)) == MomentsOf(xs + part)
  {
    PushAllIsExact(part);
    AddIsExact(xs, part);
  }

  lemma {:induction false} AggregateIsExact(a: Moments, xs: seq<real>, parts: seq<seq<real>>)
    requires a == MomentsOf(xs)
    ensures Aggregate(a, parts) == MomentsOf(xs + Flatten(parts))
    decreases |parts|
  {
    if parts == [] {
      assert xs + Flatten(parts) == xs;
    } else {
      PartitionIsExact(xs, parts[0]);
      AggregateIsExact(Add(a, PushAll(Empty, parts[0])), xs + parts[0], parts[1..]);
      assert xs + Flatten(parts) == (xs + parts[0]) + Flatten(parts[1..]);
    }
  }

  lemma {:induction false} PermutationMoments(xs: seq<real>, ys: seq<real>)
    requires multiset(xs) == multiset(ys)
    ensures MomentsOf(xs) == MomentsOf(ys)
    decreases |xs|
  {
    assert |xs| == |multiset(xs)| == |multiset(ys)| == |ys|;
    PermutationSums(xs, ys, Mean(xs));
  }

  lemma {:induction false} PermutationSums(xs: seq<real>, ys: seq<real>, c: real)
    requires multiset(xs) == multiset(ys)
    ensures Sum(xs) == Sum(ys) && Least(xs) == Least(ys) && Greatest(xs) == Greatest(ys)
    ensures Deviation(xs, c, 2) == Deviation(ys, c, 2)
    ensures Deviation(xs, c, 3) == Deviation(ys, c, 3)
    ensures Deviation(xs, c, 4) == Deviation(ys, c, 4)
    decreases |xs|
  {
    if xs == [] {
      assert multiset(ys) == multiset{};
      assert |ys| == |multiset(ys)|;
    } else {
      var i := Extract(xs, ys);
      PermutationSums(xs[1..], ys[..i] + ys[i + 1..], c);
      Removed(ys, i, c);
    }
  }

  lemma Removed(ys: seq<real>, i: nat, c: real)
    requires i < |ys|
    ensures var zs := ys[..i] + ys[i + 1..];
      && Sum(ys) == ys[i] + Sum(zs)
      && Least(ys) == Min(Finite(ys[i]), Least(zs)) && Greatest(ys) == Max(Finite(ys[i]), Greatest(zs))
      && forall k: nat :: Deviation(ys, c, k) == Power(ys[i] - c, k) + Deviation(zs, c, k)
  {
    var front, tail := ys[..i], ys[i..];
    assert ys == front + tail && tail[1..] == ys[i + 1..];
    SumConcat(front, tail);
    SumConcat(front, tail[1..]);
    LeastConcat(front, tail);
    LeastConcat(front, tail[1..]);
    forall k: nat ensures Deviation(ys, c, k) == Power(ys[i] - c, k) + Deviation(front + tail[1..], c, k) {
      DeviationConcat(front, tail, c, k);
      DeviationConcat(front, tail[1..], c, k);
    }
  }

  /** The statistics of a dataset: the partitions' states reduced by addition.  Reducing nothing is an error. */
  function DatasetStats(parts: seq<seq<real>>): Option<Moments> {
    if parts == [] then None else Some(Aggregate(PushAll(Empty, parts[0]), parts[1..]))
  }

  /** The statistics of a dataset depend neither on its partitioning nor on the order of arrival. */
  lemma StatsAreExact(values: seq<real>, parts: seq<seq<real>>)
    requires multiset(Flatten(parts)) == multiset(values)
    ensures DatasetStats(parts) == if parts == [] then None else Some(MomentsOf(values))
  {
    if parts != [] {
      PushAllIsExact(parts[0]);
      AggregateIsExact(PushAll(Empty, parts[0]), parts[0], parts[1..]);
      PermutationMoments(Flatten(parts), values);
    }
  }

  // ---- vectors -------------------------------------------------------------------------------

  ghost predicate Wide(rows: seq<seq<real>>, width: nat) { forall row :: row in rows ==> width <= |row| }

  ghost predicate AllWide(parts: seq<seq<seq<real>>>, width: nat) { forall part :: part in parts ==> Wide(part, width) }

  /** The i-th components of a sequence of vectors. */
  ghost function Column(rows: seq<seq<real>>, i: nat): seq<real>
    requires forall row :: row in rows ==> i < |row|
  {
    seq(|rows|, r requires 0 <= r < |rows| => assert rows[r] in rows; rows[r][i])
  }

  ghost function ColumnParts(parts: seq<seq<seq<real>>>, j: nat): seq<seq<real>>
    requires AllWide(parts, j + 1)
  {
    seq(|parts|, p requires 0 <= p < |parts| => assert parts[p] in parts; Column(parts[p], j))
  }

  /** Each column records its component. */
  ghost function PushVector(a: seq<Moments>, v: seq<real>): (r: seq<Moments>)
    requires |a| <= |v|
    ensures |r| == |a|
  {
    seq(|a|, j requires 0 <= j < |a| => Push(a[j], v[j]))
  }

  ghost function PushVectors(a: seq<Moments>, rows: seq<seq<real>>): (r: seq<Moments>)
    requires Wide(rows, |a|)
    ensures |r| == |a|
  {
    if rows == [] then a else PushVector(PushVectors(a, rows[..|rows| - 1]), rows[|rows| - 1])
  }

  ghost function AddColumns(a: seq<Moments>, b: seq<Moments>): (r: seq<Moments>)
    requires |a| == |b|
    ensures |r| == |a|
  {
    seq(|a|, j requires 0 <= j < |a| => Add(a[j], b[j]))
  }

  ghost function NoVectors(width: nat): seq<Moments> { seq(width, _ => Empty) }

  ghost function AggregateColumns(a: seq<Moments>, parts: seq<seq<seq<real>>>): (r: seq<Moments>)
    requires AllWide(parts, |a|)
    ensures |r| == |a|
    decreases |parts|
  {
    if parts == [] then a
    else AggregateColumns(AddColumns(a, PushVectors(NoVectors(|a|), parts[0])), parts[1..])
  }

  /** The statistics of a dataset of vectors, reduced in the same way. */
  ghost function MvStats(width: nat, parts: seq<seq<seq<real>>>): Option<seq<Moments>>
    requires AllWide(parts, width)
  {
    if parts == [] then None else Some(AggregateColumns(PushVectors(NoVectors(width), parts[0]), parts[1..]))
  }

  lemma {:induction false} PushVectorsColumn(a: seq<Moments>, rows: seq<seq<real>>, j: nat)
    requires Wide(rows, |a|) && j < |a|
    ensures PushVectors(a, rows)[j] == PushAll(a[j], Column(rows, j))
    decreases |rows|
  {
    if rows != [] {
      var n := |rows| - 1;
      PushVectorsColumn(a, rows[..n], j);
      assert Column(rows, j)[..n] == Column(rows[..n], j);
    }
  }

  lemma {:induction false} AggregateColumn(a: seq<Moments>, parts: seq<seq<seq<real>>>, j: nat)
    requires AllWide(parts, |a|) && j < |a|
    ensures AggregateColumns(a, parts)[j] == Aggregate(a[j], ColumnParts(parts, j))
    decreases |parts|
  {
    if parts != [] {
      var b := PushVectors(NoVectors(|a|), parts[0]);
      PushVectorsColumn(NoVectors(|a|), parts[0], j);
      AggregateColumn(AddColumns(a, b), parts[1..], j);
      assert ColumnParts(parts, j)[1..] == ColumnParts(parts[1..], j);
    }
  }

  /** Reducing vectors is reducing each of their columns. */
  lemma MvStatsColumn(width: nat, parts: seq<seq<seq<real>>>, j: nat)
    requires AllWide(parts, width) && j < width && parts != []
    ensures Some(MvStats(width, parts).value[j]) == DatasetStats(ColumnParts(parts, j))
  {
    PushVectorsColumn(NoVectors(width), parts[0], j);
    AggregateColumn(PushVectors(NoVectors(width), parts[0]), parts[1..], j);
    assert ColumnParts(parts, j)[1..] == ColumnParts(parts[1..], j);
  }

  lemma FlattenWide(parts: seq<seq<seq<real>>>, width: nat)
    requires AllWide(parts, width)
    ensures Wide(Flatten(parts), width)
  {
    forall row | row in Flatten(parts) ensures width <= |row| {
      InFlatten(parts, row);
      var i :| 0 <= i < |parts| && row in parts[i];
      assert parts[i] in parts;
    }
  }

  lemma ColumnConcat(xs: seq<seq<real>>, ys: seq<seq<real>>, j: nat)
    requires Wide(xs, j + 1) && Wide(ys, j + 1)
    ensures Wide(xs + ys, j + 1) && Column(xs + ys, j) == Column(xs, j) + Column(ys, j)
  {
  }

  lemma {:induction false} FlattenColumns(parts: seq<seq<seq<real>>>, j: nat)
    requires AllWide(parts, j + 1)
    ensures Wide(Flatten(parts), j + 1) && Flatten(ColumnParts(parts, j)) == Column(Flatten(parts), j)
  {
    FlattenWide(parts, j + 1);
    if parts != [] {
      FlattenColumns(parts[1..], j);
      assert ColumnParts(parts, j)[1..] == ColumnParts(parts[1..], j);
      ColumnConcat(parts[0], Flatten(parts[1..]), j);
    }
  }

  lemma {:induction false} PermutedColumn(xs: seq<seq<real>>, ys: seq<seq<real>>, j: nat)
    requires multiset(xs) == multiset(ys) && Wide(xs, j + 1) && Wide(ys, j + 1)
    ensures multiset(Column(xs, j)) == multiset(Column(ys, j))
    decreases |xs|
  {
    assert |xs| == |multiset(xs)| == |multiset(ys)| == |ys|;
    if xs != [] {
      var i := Extract(xs, ys);
      var rest := ys[..i] + ys[i + 1..];
      PermutedColumn(xs[1..], rest, j);
      assert xs == [xs[0]] + xs[1..] && ys == ys[..i] + ([xs[0]] + ys[i + 1..]);
      ColumnConcat([xs[0]], xs[1..], j);
      ColumnConcat([xs[0]], ys[i + 1..], j);
      ColumnConcat(ys[..i], [xs[0]] + ys[i + 1..], j);
      ColumnConcat(ys[..i], ys[i + 1..], j);
    }
  }

  /** Each column has the statistics of that component, for every partitioning and order of arrival. */
  lemma MvStatsAreExact(width: nat, rows: seq<seq<real>>, parts: seq<seq<seq<real>>>)
    requires AllWide(parts, width) && Wide(rows, width) && multiset(Flatten(parts)) == multiset(rows)
    ensures MvStats(width, parts) ==
      if parts == [] then None
      else Some(seq(width, j requires 0 <= j < width => MomentsOf(Column(rows, j))))
  {
    if parts != [] {
      var all := MvStats(width, parts).value;
      forall j | 0 <= j < width ensures all[j] == MomentsOf(Column(rows, j)) {
        MvStatsColumn(width, parts, j);
        FlattenColumns(parts, j);
        PermutedColumn(Flatten(parts), rows, j);
        StatsAreExact(Column(rows, j), ColumnParts(parts, j));
      }
      assert all == seq(width, j requires 0 <= j < width => MomentsOf(Column(rows, j)));
    }
  }

  /** The extremes are what their names say. */
  lemma {:induction false} ExtremesBound(xs: seq<real>)
    ensures xs == [] ==> Least(xs) == PlusInfinity && Greatest(xs) == MinusInfinity
    ensures xs != [] ==> Least(xs).Finite? && Greatest(xs).Finite? && Least(xs).value in xs && Greatest(xs).value in xs
    ensures xs != [] ==> forall x :: x in xs ==> Least(xs).value <= x <= Greatest(xs).value
  {
    if xs != [] {
      ExtremesBound(xs[1..]);
      assert xs == [xs[0]] + xs[1..];
    }
  }
}
