/**
 * The std::valarray<double> objects and operations that the perceptron engine
 * relies on, with double modelled as real.
 */
module Valarray {

  /**
   * A std::valarray<double> object. Units and layers keep pointers to such
   * objects; a Vec has a stable identity while its contents are reassigned or
   * resized, exactly as the storage behind a valarray is.
   */
  class Vec {
    var data: seq<real>

    constructor (data: seq<real>)
      ensures this.data == data
    {
      this.data := data;
    }
  }

  /** The contents of a valarray after resize(n): every element is value-initialised to 0.0. */
  function Zeros(n: nat): seq<real>
  {
    seq(n, _ => 0.0)
  }

  /** (w * x).sum(): the sum of the element-wise products of two valarrays of one length. */
  function Dot(w: seq<real>, x: seq<real>): real
    requires |w| == |x|
    decreases |w|
  {
    if |w| == 0 then 0.0 else w[0] * x[0] + Dot(w[1..], x[1..])
  }

  /** c * w */
  function Scale(c: real, w: seq<real>): seq<real>
  {
    seq(|w|, i requires 0 <= i < |w| => c * w[i])
  }

  /** w + c * x */
  function AddScaled(w: seq<real>, c: real, x: seq<real>): seq<real>
    requires |w| == |x|
  {
    seq(|w|, i requires 0 <= i < |w| => w[i] + c * x[i])
  }

  /** u + v */
  function Add(u: seq<real>, v: seq<real>): seq<real>
    requires |u| == |v|
  {
    seq(|u|, i requires 0 <= i < |u| => u[i] + v[i])
  }

  /** w[std::slice(0, |v|, 1)] = v: the first |v| entries replaced, the rest kept. */
  function Splice(w: seq<real>, v: seq<real>): (r: seq<real>)
    requires |v| <= |w|
    ensures |r| == |w|
    ensures r[..|v|] == v
    ensures r[|v|..] == w[|v|..]
  {
    v + w[|v|..]
  }

  /**
   * A weight vector after its unit is bound to an input of length n: kept
   * when the length already matches, otherwise resized, which zeroes it.
   */
  function Fit(w: seq<real>, n: nat): seq<real>
  {
    if |w| == n then w else Zeros(n)
  }

  /** Entry j of c, or 0.0 where c is too short to have one. */
  function Entry(c: seq<real>, j: nat): real
  {
    if j < |c| then c[j] else 0.0
  }

  /**
   * buf += c. The standard leaves the operator undefined when the lengths
   * differ; this model adds the overlapping prefix and keeps buf's length,
   * so entries of c beyond |buf| are dropped.
   */
  function Accumulate(buf: seq<real>, c: seq<real>): (r: seq<real>)
    ensures |r| == |buf|
    ensures |buf| <= |c| ==> r == Add(buf, c[..|buf|])
    ensures |c| <= |buf| ==> r[..|c|] == Add(buf[..|c|], c) && r[|c|..] == buf[|c|..]
  {
    seq(|buf|, j requires 0 <= j < |buf| => buf[j] + Entry(c, j))
  }

  /** The sum, over the vectors of cs, of their entry j (0.0 for a vector too short). */
  function ColumnSum(cs: seq<seq<real>>, j: nat): real
    decreases |cs|
  {
    if cs == [] then 0.0 else ColumnSum(cs[..|cs| - 1], j) + Entry(cs[|cs| - 1], j)
  }

  /** The n column sums of cs. */
  function ColumnSums(n: nat, cs: seq<seq<real>>): seq<real>
  {
    seq(n, j requires 0 <= j < n => ColumnSum(cs, j))
  }

  /** Accumulating nothing into a zeroed buffer leaves it zeroed: the column sums of no vectors. */
  lemma ColumnSumsEmpty(n: nat)
    ensures ColumnSums(n, []) == Zeros(n)
  {
  }

  /**
   * One more `buf += c` step: accumulating c into the column sums of cs gives
   * the column sums of cs followed by c.
   */
  lemma {:induction false} AccumulateColumnSums(n: nat, cs: seq<seq<real>>, c: seq<real>)
    ensures Accumulate(ColumnSums(n, cs), c) == ColumnSums(n, cs + [c])
  {
    assert (cs + [c])[..|cs|] == cs;
  }

  /** The dot product of a zeroed weight vector with any input is 0. */
  lemma {:induction false} DotZeros(x: seq<real>)
    ensures Dot(Zeros(|x|), x) == 0.0
    decreases |x|
  {
    if |x| > 0 {
      assert Zeros(|x|)[1..] == Zeros(|x| - 1);
      DotZeros(x[1..]);
    }
  }

  /** The dot product of a vector with itself is never negative. */
  lemma {:induction false} DotSelfNonNegative(x: seq<real>)
    ensures Dot(x, x) >= 0.0
    decreases |x|
  {
    if |x| > 0 {
      DotSelfNonNegative(x[1..]);
      assert x[0] * x[0] >= 0.0 by {
        if x[0] < 0.0 { assert x[0] * x[0] == (-x[0]) * (-x[0]); }
      }
    }
  }

  /** Dropping the first entry of a sum of vectors drops it from both summands. */
  lemma AddTail(u: seq<real>, v: seq<real>)
    requires |u| == |v| > 0
    ensures Add(u, v)[1..] == Add(u[1..], v[1..])
  {
    var a, b := Add(u, v), Add(u[1..], v[1..]);
    forall k | 0 <= k < |b|
      ensures a[1..][k] == b[k]
    {
    }
  }

  /** Dropping the first entry of a scaled vector drops it before scaling. */
  lemma ScaleTail(c: real, x: seq<real>)
    requires |x| > 0
    ensures Scale(c, x)[1..] == Scale(c, x[1..])
  {
    var a, b := Scale(c, x), Scale(c, x[1..]);
    forall k | 0 <= k < |b|
      ensures a[1..][k] == b[k]
    {
    }
  }

  /** Multiplication distributes over addition on the right. */
  lemma MulAddRight(a: real, b: real, d: real)
    ensures (a + b) * d == a * d + b * d
  {
  }

  /** A common factor c comes out of (c * a) * d + c * q. */
  lemma MulFactor(c: real, a: real, d: real, q: real)
    ensures (c * a) * d + c * q == c * (a * d + q)
  {
  }

  /** The weighted sum is additive in the weights. */
  lemma {:induction false} DotAdd(u: seq<real>, v: seq<real>, x: seq<real>)
    requires |u| == |v| == |x|
    ensures Dot(Add(u, v), x) == Dot(u, x) + Dot(v, x)
    decreases |u|
  {
    if |u| > 0 {
      AddTail(u, v);
      DotAdd(u[1..], v[1..], x[1..]);
      MulAddRight(u[0], v[0], x[0]);
    }
  }

  /** The weighted sum is homogeneous in the weights. */
  lemma {:induction false} DotScale(c: real, x: seq<real>, y: seq<real>)
    requires |x| == |y|
    ensures Dot(Scale(c, x), y) == c * Dot(x, y)
    decreases |x|
  {
    if |x| > 0 {
      ScaleTail(c, x);
      DotScale(c, x[1..], y[1..]);
      MulFactor(c, x[0], y[0], Dot(x[1..], y[1..]));
    }
  }

  /**
   * Linearity of the weighted sum under the weight update w += c * x: on the
   * same input x, the sum moves by exactly c * (x . x).
   */
  lemma DotAddScaled(w: seq<real>, c: real, x: seq<real>)
    requires |w| == |x|
    ensures Dot(AddScaled(w, c, x), x) == Dot(w, x) + c * Dot(x, x)
  {
    assert AddScaled(w, c, x) == Add(w, Scale(c, x));
    DotAdd(w, Scale(c, x), x);
    DotScale(c, x, x);
  }

  /** Scaling x by c and weighting it by x itself gives a sum with the sign of c. */
  lemma DotScaleSign(c: real, x: seq<real>)
    ensures c >= 0.0 ==> Dot(Scale(c, x), x) >= 0.0
    ensures c <= 0.0 ==> Dot(Scale(c, x), x) <= 0.0
  {
    DotScale(c, x, x);
    DotSelfNonNegative(x);
    ProductSign(c, Dot(x, x));
  }

  /** A product with a non-negative factor has the sign of the other factor. */
  lemma ProductSign(c: real, d: real)
    requires d >= 0.0
    ensures c >= 0.0 ==> c * d >= 0.0
    ensures c <= 0.0 ==> c * d <= 0.0
  {
  }

  /**
   * Hence the update w += c * x moves the weighted sum on input x in the
   * direction of the sign of c.
   */
  lemma DotAddScaledDirection(w: seq<real>, c: real, x: seq<real>)
    requires |w| == |x|
    ensures c >= 0.0 ==> Dot(AddScaled(w, c, x), x) >= Dot(w, x)
    ensures c <= 0.0 ==> Dot(AddScaled(w, c, x), x) <= Dot(w, x)
  {
    assert AddScaled(w, c, x) == Add(w, Scale(c, x));
    DotAdd(w, Scale(c, x), x);
    DotScaleSign(c, x);
  }
}
