/** Linear resampling of 16-bit samples, in exact rational arithmetic instead of doubles. */
module Resampler {

  type Sample = s: int | -32768 <= s <= 32767

  lemma Scale(d: int, a: int, b: int)
    requires d >= 0 && a <= b
    ensures d * a <= d * b
  {
  }

  /** Products with a positive factor compare as the other factors do. */
  lemma Smaller(d: int, a: int, b: int)
    requires d > 0 && d * a < d * b
    ensures a < b
  {
    if a >= b { Scale(d, b, a); }
  }

  lemma DivisionUnique(n: int, d: int, q: int, r: int)
    requires d > 0 && n == d * q + r && 0 <= r < d
    ensures n / d == q && n % d == r
  {
    var q', r' := n / d, n % d;
    assert n == d * q' + r';
    assert d * (q + 1) == d * q + d && d * (q' + 1) == d * q' + d;
    Smaller(d, q', q + 1);
    Smaller(d, q, q' + 1);
  }

  /** The exact ceiling of n * outRate / inRate. */
  function OutLength(n: nat, inRate: int, outRate: int): (len: nat)
    requires inRate > 0 && outRate > 0
    ensures inRate * (len - 1) < n * outRate <= inRate * len
  {
    CeilingDivision(n * outRate, inRate);
    (n * outRate + inRate - 1) / inRate
  }

  lemma CeilingDivision(a: nat, b: int)
    requires b > 0
    ensures 0 <= (a + b - 1) / b && b * ((a + b - 1) / b - 1) < a <= b * ((a + b - 1) / b)
  {
  }

  /** The integer nearest to num / den, ties going to the even one. */
  function RoundHalfEven(num: int, den: int): (r: int)
    requires den > 0
    ensures -den <= 2 * (den * r - num) <= den
    ensures 2 * (den * r - num) in {-den, den} ==> r % 2 == 0
  {
    var q, rem := num / den, num % den;
    assert num == den * q + rem;
    if 2 * rem < den || (2 * rem == den && q % 2 == 0) then q
    else
      assert den * (q + 1) == den * q + den;
      q + 1
  }

  /** Input position of output `i` is i * inRate / outRate; its whole part and the numerator of its fraction. */
  function Left(i: nat, inRate: int, outRate: int): int
    requires outRate > 0
  { (i * inRate) / outRate }

  function Fraction(i: nat, inRate: int, outRate: int): int
    requires outRate > 0
  { (i * inRate) % outRate }

  function Right(left: int, n: nat): int { if left + 1 < n then left + 1 else n - 1 }

  /** Every position read is inside the input. */
  lemma LeftInBounds(n: nat, inRate: int, outRate: int, i: nat)
    requires inRate > 0 && outRate > 0 && i < OutLength(n, inRate, outRate)
    ensures 0 <= Left(i, inRate, outRate) < n
  {
    var len := OutLength(n, inRate, outRate);
    assert inRate * i <= inRate * (len - 1);
    QuotientBelow(i * inRate, n, outRate);
  }

  lemma QuotientBelow(a: int, n: int, b: int)
    requires 0 <= a < n * b && b > 0
    ensures 0 <= a / b < n
  {
    assert a == b * (a / b) + a % b;
    Smaller(b, a / b, n);
  }

  /** The interpolated value times the output rate. */
  function Blend(x: seq<Sample>, inRate: int, outRate: int, i: nat): int
    requires inRate > 0 && outRate > 0 && i < OutLength(|x|, inRate, outRate)
  {
    LeftInBounds(|x|, inRate, outRate, i);
    var left, t := Left(i, inRate, outRate), Fraction(i, inRate, outRate);
    (outRate - t) * x[left] + t * x[Right(left, |x|)]
  }

  lemma Between(a: int, b: int, t: int, d: int)
    requires 0 <= t < d
    ensures a <= b ==> d * a <= (d - t) * a + t * b <= d * b
    ensures b <= a ==> d * b <= (d - t) * a + t * b <= d * a
  {
    assert (d - t) * a + t * b == d * a + t * (b - a);
    assert (d - t) * a + t * b == d * b + (d - t) * (a - b);
  }

  lemma RoundWithin(num: int, den: int, lo: int, hi: int)
    requires den > 0 && den * lo <= num <= den * hi
    ensures lo <= RoundHalfEven(num, den) <= hi
  {
    var r := RoundHalfEven(num, den);
    assert den * (r + 1) == den * r + den && den * (hi + 1) == den * hi + den;
    Smaller(den, lo, r + 1);
    Smaller(den, r, hi + 1);
  }

  lemma RoundMonotone(a: int, b: int, den: int)
    requires den > 0 && a <= b
    ensures RoundHalfEven(a, den) <= RoundHalfEven(b, den)
  {
    if a < b {
      var ra, rb := RoundHalfEven(a, den), RoundHalfEven(b, den);
      assert den * (rb + 1) == den * rb + den;
      Smaller(den, ra, rb + 1);
    }
  }

  /** Clamping to the sample range, scaled by the denominator. */
  function Clamped(num: int, den: int): int {
    if num > 32767 * den then 32767 * den else if num < -32768 * den then -32768 * den else num
  }

  lemma BlendBounds(a: Sample, b: Sample, t: int, d: int)
    requires 0 <= t < d
    ensures var num := (d - t) * a + t * b;
            && Clamped(num, d) == num
            && (if a <= b then a <= RoundHalfEven(num, d) <= b else b <= RoundHalfEven(num, d) <= a)
  {
    Between(a, b, t, d);
    var num := (d - t) * a + t * b;
    if a <= b { RoundWithin(num, d, a, b); } else { RoundWithin(num, d, b, a); }
    Scale(d, a, 32767);
    Scale(d, b, 32767);
    Scale(d, -32768, a);
    Scale(d, -32768, b);
  }

  /** An output lies between its two neighbours, so the clamps never act. */
  lemma NeighboursBound(x: seq<Sample>, inRate: int, outRate: int, i: nat)
    requires inRate > 0 && outRate > 0 && i < OutLength(|x|, inRate, outRate)
    ensures var left := Left(i, inRate, outRate);
            var right := Right(left, |x|);
            var num := Blend(x, inRate, outRate, i);
            && 0 <= left < |x| && 0 <= right < |x| && Clamped(num, outRate) == num
            && (if x[left] <= x[right] then x[left] <= RoundHalfEven(num, outRate) <= x[right]
                else x[right] <= RoundHalfEven(num, outRate) <= x[left])
  {
    LeftInBounds(|x|, inRate, outRate, i);
    var left := Left(i, inRate, outRate);
    BlendBounds(x[left], x[Right(left, |x|)], Fraction(i, inRate, outRate), outRate);
  }

  function SampleAt(x: seq<Sample>, inRate: int, outRate: int, i: nat): Sample
    requires inRate > 0 && outRate > 0 && i < OutLength(|x|, inRate, outRate)
  {
    NeighboursBound(x, inRate, outRate, i);
    RoundHalfEven(Blend(x, inRate, outRate, i), outRate)
  }

  function Resampled(x: seq<Sample>, inRate: int, outRate: int): (y: seq<Sample>)
    requires inRate > 0 && outRate > 0
    ensures |y| == if x == [] || inRate == outRate then |x| else OutLength(|x|, inRate, outRate)
  {
    if x == [] || inRate == outRate then x
    else
      var length := OutLength(|x|, inRate, outRate);
      seq(length, i requires 0 <= i < length => SampleAt(x, inRate, outRate, i))
  }

  /**
   * `y` is what the input's piecewise linear interpolation, held at the last sample, is at position
   * i * inRate / outRate, rounded to the nearest integer with ties going to the even one.
   */
  ghost predicate Interpolated(x: seq<Sample>, inRate: int, outRate: int, i: nat, y: int)
    requires outRate > 0
  {
    var left, t := i * inRate / outRate, i * inRate % outRate;
    && 0 <= left < |x|
    && var right := if left + 1 < |x| then left + 1 else left;
       var off := 2 * (outRate * y - ((outRate - t) * x[left] + t * x[right]));
       -outRate <= off <= outRate && (off in {-outRate, outRate} ==> y % 2 == 0)
  }

  lemma Interpolates(x: seq<Sample>, inRate: int, outRate: int, i: nat)
    requires inRate > 0 && outRate > 0 && i < |Resampled(x, inRate, outRate)|
    ensures Interpolated(x, inRate, outRate, i, Resampled(x, inRate, outRate)[i])
  {
    if inRate == outRate {
      ExactQuotient(i, outRate);
    } else {
      LeftInBounds(|x|, inRate, outRate, i);
    }
  }

  /** An arithmetic ramp is reproduced: up to rounding, outputs lie on the line through its samples. */
  lemma RampsStayOnLine(x: seq<Sample>, base: int, slope: int, inRate: int, outRate: int, i: nat)
    requires inRate > 0 && outRate > 0 && i < |Resampled(x, inRate, outRate)|
    requires forall k :: 0 <= k < |x| ==> x[k] == base + slope * k
    requires i * inRate / outRate + 1 < |x|
    ensures var off := 2 * (outRate * Resampled(x, inRate, outRate)[i] - (outRate * base + slope * (i * inRate)));
            -outRate <= off <= outRate
  {
    Interpolates(x, inRate, outRate, i);
    var left, t := i * inRate / outRate, i * inRate % outRate;
    assert (outRate - t) * x[left] + t * x[left + 1] == outRate * base + slope * (i * inRate) by {
      OnLine(base, slope, i * inRate, outRate);
      assert x[left] == base + slope * left && x[left + 1] == base + slope * (left + 1);
    }
  }

  lemma OnLine(base: int, slope: int, n: nat, d: int)
    requires d > 0
    ensures var left, t := n / d, n % d;
            (d - t) * (base + slope * left) + t * (base + slope * (left + 1)) == d * base + slope * n
  {
    var left, t := n / d, n % d;
    assert n == d * left + t;
    var a := base + slope * left;
    assert base + slope * (left + 1) == a + slope;
    assert (d - t) * a + t * (a + slope) == d * a + t * slope;
    assert d * a == d * base + slope * (d * left);
  }

  method ResampleLinear(x: seq<Sample>, inRate: int, outRate: int) returns (y: seq<Sample>)
    requires inRate > 0 && outRate > 0
    ensures y == Resampled(x, inRate, outRate)
    ensures forall i :: 0 <= i < |y| ==> Interpolated(x, inRate, outRate, i, y[i])
  {
    forall i | 0 <= i < |Resampled(x, inRate, outRate)|
      ensures Interpolated(x, inRate, outRate, i, Resampled(x, inRate, outRate)[i])
    {
      Interpolates(x, inRate, outRate, i);
    }
    if x == [] || inRate == outRate { return x; }
    var length := OutLength(|x|, inRate, outRate);
    y := [];
    for i := 0 to length
      invariant |y| == i && forall j :: 0 <= j < i ==> y[j] == Resampled(x, inRate, outRate)[j]
    {
      LeftInBounds(|x|, inRate, outRate, i);
      var i0 := (i * inRate) / outRate;
      var i1 := if i0 + 1 < |x| - 1 then i0 + 1 else |x| - 1;
      var t := (i * inRate) % outRate;
      var v := (outRate - t) * x[i0] + t * x[i1];
      NeighboursBound(x, inRate, outRate, i);
      if v > 32767 * outRate { v := 32767 * outRate; }
      if v < -32768 * outRate { v := -32768 * outRate; }
      y := y + [RoundHalfEven(v, outRate)];
    }
  }

  // ---- monotonicity --------------------------------------------------------------------------

  ghost predicate Rising(x: seq<Sample>) { forall i, j :: 0 <= i <= j < |x| ==> x[i] <= x[j] }

  lemma QuotientMonotone(a: int, b: int, d: int)
    requires a <= b && d > 0
    ensures a / d <= b / d && (a / d == b / d ==> a % d <= b % d)
  {
    var p, q := a / d, b / d;
    assert a == d * p + a % d && b == d * q + b % d;
    assert d * (q + 1) == d * q + d;
    Smaller(d, p, q + 1);
  }

  lemma PositionsMonotone(i: nat, j: nat, inRate: int, outRate: int)
    requires i <= j && inRate > 0 && outRate > 0
    ensures Left(i, inRate, outRate) <= Left(j, inRate, outRate)
    ensures Left(i, inRate, outRate) == Left(j, inRate, outRate)
            ==> Fraction(i, inRate, outRate) <= Fraction(j, inRate, outRate)
  {
    Scale(inRate, i, j);
    QuotientMonotone(i * inRate, j * inRate, outRate);
  }

  lemma BlendMonotone(x: seq<Sample>, inRate: int, outRate: int, i: nat, j: nat)
    requires inRate > 0 && outRate > 0 && i <= j < OutLength(|x|, inRate, outRate) && Rising(x)
    ensures Blend(x, inRate, outRate, i) <= Blend(x, inRate, outRate, j)
  {
    LeftInBounds(|x|, inRate, outRate, i);
    LeftInBounds(|x|, inRate, outRate, j);
    PositionsMonotone(i, j, inRate, outRate);
    PointsMonotone(x, Left(i, inRate, outRate), Fraction(i, inRate, outRate),
                   Left(j, inRate, outRate), Fraction(j, inRate, outRate), outRate);
  }

  lemma PointsMonotone(x: seq<Sample>, l: int, t: int, m: int, u: int, d: int)
    requires Rising(x) && 0 <= l <= m < |x| && 0 <= t < d && 0 <= u < d && (l == m ==> t <= u)
    ensures (d - t) * x[l] + t * x[Right(l, |x|)] <= (d - u) * x[m] + u * x[Right(m, |x|)]
  {
    if l == m {
      Slide(x[l], x[Right(l, |x|)], t, u, d);
    } else {
      Apart(x[l], x[Right(l, |x|)], t, x[m], x[Right(m, |x|)], u, d);
    }
  }

  lemma Apart(a: int, b: int, t: int, c: int, e: int, u: int, d: int)
    requires a <= b <= c <= e && 0 <= t < d && 0 <= u < d
    ensures (d - t) * a + t * b <= (d - u) * c + u * e
  {
    Between(a, b, t, d);
    Between(c, e, u, d);
    Scale(d, b, c);
  }

  lemma Slide(a: int, b: int, t: int, u: int, d: int)
    requires a <= b && t <= u
    ensures (d - t) * a + t * b <= (d - u) * a + u * b
  {
    assert (d - u) * a + u * b - ((d - t) * a + t * b) == (u - t) * (b - a);
  }

  /** A non-decreasing signal stays non-decreasing. */
  lemma ResampledRises(x: seq<Sample>, inRate: int, outRate: int)
    requires inRate > 0 && outRate > 0 && Rising(x)
    ensures Rising(Resampled(x, inRate, outRate))
  {
    var y := Resampled(x, inRate, outRate);
    if x != [] && inRate != outRate {
      forall i, j | 0 <= i <= j < |y| ensures y[i] <= y[j] {
        BlendMonotone(x, inRate, outRate, i, j);
        RoundMonotone(Blend(x, inRate, outRate, i), Blend(x, inRate, outRate, j), outRate);
      }
    }
  }

  // ---- round trip ----------------------------------------------------------------------------

  lemma ExactQuotient(a: int, b: int)
    requires b > 0
    ensures (a * b) / b == a && (a * b) % b == 0
  {
    DivisionUnique(a * b, b, a, 0);
  }

  lemma LengthUnique(n: nat, inRate: int, outRate: int, len: nat)
    requires inRate > 0 && outRate > 0 && n * outRate == inRate * len
    ensures OutLength(n, inRate, outRate) == len
  {
    var got: int := OutLength(n, inRate, outRate);
    assert inRate * (got + 1) == inRate * got + inRate;
    Smaller(inRate, got - 1, len);
    Smaller(inRate, len, got + 1);
  }

  /** At a whole input position the output is the sample itself. */
  lemma OnGrid(x: seq<Sample>, inRate: int, outRate: int, i: nat, k: nat)
    requires inRate > 0 && outRate > 0 && inRate != outRate && i < OutLength(|x|, inRate, outRate)
             && i * inRate == k * outRate
    ensures k < |x| && |Resampled(x, inRate, outRate)| > i && Resampled(x, inRate, outRate)[i] == x[k]
  {
    LeftInBounds(|x|, inRate, outRate, i);
    ExactQuotient(k, outRate);
    assert x != [];
    assert Blend(x, inRate, outRate, i) == outRate * x[k];
    RoundWithin(outRate * x[k], outRate, x[k], x[k]);
  }

  lemma RoundTripLengths(n: nat, rate: int, k: int)
    requires rate > 0 && k > 0
    ensures k * rate > 0 && n * k >= 0 && OutLength(n, rate, k * rate) == n * k && OutLength(n * k, k * rate, rate) == n
  {
    assert k * rate > 0 && n * k >= 0;
    assert n * (k * rate) == rate * (n * k) == (n * k) * rate == (k * rate) * n;
    LengthUnique(n, rate, k * rate, n * k);
    LengthUnique(n * k, k * rate, rate, n);
  }

  lemma Offsets(n: nat, rate: int, k: int, i: nat)
    requires rate > 0 && k > 1 && i < n
    ensures 0 <= i * k < n * k && (i * k) * rate == i * (k * rate) && rate < k * rate
  {
    Scale(k, i + 1, n);
    assert k * (i + 1) == i * k + k;
    Scale(rate, 2, k);
  }

  lemma RoundTripAt(x: seq<Sample>, rate: int, k: int, i: nat)
    requires rate > 0 && k > 1 && i < |x| && k * rate > 0
    ensures var down := Resampled(Resampled(x, rate, k * rate), k * rate, rate); i < |down| && down[i] == x[i]
  {
    RoundTripLengths(|x|, rate, k);
    Offsets(|x|, rate, k, i);
    OnGrid(x, rate, k * rate, i * k, i);
    OnGrid(Resampled(x, rate, k * rate), k * rate, rate, i, i * k);
  }

  /** Upsampling by an integer factor and downsampling by it again gives back the signal. */
  lemma UpAndDown(x: seq<Sample>, rate: int, k: int)
    requires rate > 0 && k > 0
    ensures k * rate > 0 && Resampled(Resampled(x, rate, k * rate), k * rate, rate) == x
  {
    RoundTripLengths(|x|, rate, k);
    if x != [] && k > 1 {
      forall i | 0 <= i < |x| ensures Resampled(Resampled(x, rate, k * rate), k * rate, rate)[i] == x[i] {
        RoundTripAt(x, rate, k, i);
      }
      Scale(rate, 2, k);
    }
  }
}
