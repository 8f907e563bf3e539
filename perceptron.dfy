/**
 * One unit of the engine (c_Perceptron): a weight vector over a bound input
 * valarray, a weighted sum, an activation, and a training step driven by
 * exactly one error source.
 */
module Perceptrons {
  import opened Valarray

  /**
   * e_Activation. The unit's switches handle ACT_TANH and ACT_SIGMOID and fall
   * to their default branch for any other value; Identity stands for every
   * such value.
   */
  datatype Activation = Tanh | Sigmoid | Identity

  /**
   * The floating-point transcendental functions the unit calls. They are left
   * uninterpreted: every operation that needs them takes them as a parameter.
   *   tanh         -- tanh
   *   sigmoid      -- s |-> 1 / (1 + exp(-s))
   *   tanhDeriv    -- s |-> pow(2 cosh(s) / (cosh(2 s) + 1), 2)
   *   sigmoidDeriv -- s |-> exp(s) / pow(exp(s) + 1, 2)
   */
  datatype Transcendentals = Transcendentals(
    tanh: real -> real,
    sigmoid: real -> real,
    tanhDeriv: real -> real,
    sigmoidDeriv: real -> real)

  /** The unit's output for weighted sum s (the switch in _calcActivation). */
  function Activate(m: Transcendentals, act: Activation, s: real): real
  {
    match act
    case Tanh => m.tanh(s / 2.0)
    case Sigmoid => m.sigmoid(s)
    case Identity => s
  }

  /**
   * _calcActivDeriv at weighted sum s. The default branch returns the weighted
   * sum itself, not the identity's derivative 1.
   */
  function ActivDeriv(m: Transcendentals, act: Activation, s: real): (r: real)
    ensures act == Identity ==> r == Activate(m, act, s)
  {
    match act
    case Tanh => m.tanhDeriv(s)
    case Sigmoid => m.sigmoidDeriv(s)
    case Identity => s
  }

  /**
   * Where a unit's (or a layer's) error comes from: a target (output units)
   * or an upstream weighted-delta sum (hidden units). The two pointers of the
   * source are never both set, so they are one variant here.
   */
  datatype ErrorSource<T> = NoSource | Target(src: T) | Upstream(src: T)

  /** A `const double *` into element `index` of valarray `vec`. */
  datatype Elem = Elem(vec: Vec, index: nat)

  /** The valarray an error source points into, if any. */
  function SourceVecs(e: ErrorSource<Elem>): set<Vec>
  {
    if e.NoSource? then {} else {e.src.vec}
  }

  /** The pointer of an error source can be dereferenced. */
  predicate Readable(e: ErrorSource<Elem>)
    reads SourceVecs(e)
  {
    e.NoSource? || e.src.index < |e.src.vec.data|
  }

  /** The value an error source currently points at. */
  function Resolve(e: ErrorSource<Elem>): ErrorSource<real>
    reads SourceVecs(e)
    requires Readable(e)
  {
    match e
    case NoSource => NoSource
    case Target(p) => Target(p.vec.data[p.index])
    case Upstream(p) => Upstream(p.vec.data[p.index])
  }

  /**
   * _calcDelta: the derivative times the error, the error being target - output
   * for a target and the upstream sum itself for an upstream source; a unit
   * with neither cannot train and its delta is 0.
   */
  function Delta(deriv: real, output: real, err: ErrorSource<real>): real
  {
    match err
    case Target(t) => deriv * (t - output)
    case Upstream(s) => deriv * s
    case NoSource => 0.0
  }

  /** The weights after one update step: w + rate * delta * x. */
  function UpdatedWeights(w: seq<real>, rate: real, delta: real, x: seq<real>): seq<real>
    requires |w| == |x|
  {
    AddScaled(w, rate * delta, x)
  }

  /**
   * The weighted deltas after a unit with weights w and weighted deltas wd is
   * bound to an input of length n: kept when the weights already fit, zeroed
   * by the resize otherwise.
   */
  function FitDeltas(w: seq<real>, wd: seq<real>, n: nat): seq<real>
  {
    if |w| == n then wd else Zeros(n)
  }

  /** Refitting zero weights and weighted deltas to any length leaves them zero. */
  lemma FitKeepsZeros(w: seq<real>, wd: seq<real>, n: nat)
    requires w == Zeros(|w|) && wd == Zeros(|wd|)
    ensures Fit(w, n) == Zeros(n) && FitDeltas(w, wd, n) == Zeros(|FitDeltas(w, wd, n)|)
  {
  }

  class Perceptron {
    /** m_Inputs: the valarray this unit reads, or null when unbound. */
    var inputs: Vec?
    var weights: seq<real>
    var weightedDeltas: seq<real>
    /** m_Target / m_WeightedDeltaSum */
    var error: ErrorSource<Elem>
    var sumProducts: real
    var output: real
    var delta: real
    var trainRate: real
    var act: Activation

    /**
     * After a successful evaluate: the weighted sum is that of the bound input
     * and the output is the activation of that sum.
     */
    ghost predicate EvaluatedOn(m: Transcendentals)
      reads this, inputs
    {
      && inputs != null
      && |weights| == |inputs.data|
      && sumProducts == Dot(weights, inputs.data)
      && output == Activate(m, act, sumProducts)
    }

    /**
     * The weight step of train, from weights w0 and weighted deltas wd0 and
     * with the current delta: with an input bound, the weighted deltas are
     * delta * w0 and each weight moved by trainRate * delta * input; without
     * one, the weights and weighted deltas are w0 and wd0.
     */
    ghost predicate SteppedFrom(w0: seq<real>, wd0: seq<real>)
      reads this, inputs
    {
      && (inputs != null ==>
            && |w0| == |inputs.data|
            && weightedDeltas == Scale(delta, w0)
            && weights == UpdatedWeights(w0, trainRate, delta, inputs.data))
      && (inputs == null ==> weights == w0 && weightedDeltas == wd0)
    }

    /** Every weight and weighted delta is 0. */
    ghost predicate Zeroed()
      reads this`weights, this`weightedDeltas
    {
      weights == Zeros(|weights|) && weightedDeltas == Zeros(|weightedDeltas|)
    }

    /** The weighted sum, the output and the delta are 0. */
    ghost predicate Idle()
      reads this`sumProducts, this`output, this`delta
    {
      sumProducts == 0.0 && output == 0.0 && delta == 0.0
    }

    /** The state of a unit nothing has trained or evaluated: all weights, weighted deltas, sums and outputs are 0. */
    ghost predicate Blank()
      reads this`weights, this`weightedDeltas, this`sumProducts, this`output, this`delta
    {
      Zeroed() && Idle()
    }

    constructor ()
      ensures inputs == null && weights == [] && weightedDeltas == [] && error == NoSource
      ensures sumProducts == 0.0 && output == 0.0 && delta == 0.0
      ensures trainRate == 0.0 && act == Tanh
    {
      inputs := null;
      weights := [];
      weightedDeltas := [];
      error := NoSource;
      sumProducts, output, delta := 0.0, 0.0, 0.0;
      trainRate := 0.0;
      act := Tanh;
    }

    /**
     * setWeights(): seeds every weight with rand() / RAND_MAX. The successive
     * results of rand() are the parameter draws, and RAND_MAX, which the C
     * library fixes, is the parameter randMax: rand() returns values in
     * [0, RAND_MAX] and RAND_MAX is positive.
     */
    method SeedWeights(draws: seq<nat>, randMax: nat)
      requires 0 < randMax
      requires |weights| <= |draws|
      requires forall k :: 0 <= k < |draws| ==> draws[k] <= randMax
      modifies this`weights
      ensures |weights| == old(|weights|)
      ensures forall k :: 0 <= k < |weights| ==> weights[k] == draws[k] as real / randMax as real
      ensures forall k :: 0 <= k < |weights| ==> 0.0 <= weights[k] <= 1.0
    {
      for i := 0 to |weights|
        invariant |weights| == old(|weights|)
        invariant forall k :: 0 <= k < i ==> weights[k] == draws[k] as real / randMax as real
        invariant forall k :: 0 <= k < i ==> 0.0 <= weights[k] <= 1.0
      {
        var r := draws[i] as real / randMax as real;
        assert 0.0 <= r <= 1.0 by {
          assert r * (randMax as real) == draws[i] as real;
        }
        weights := weights[i := r];
      }
    }

    /**
     * setWeights(values): when an input is bound and values has another length
     * than it, only the first |values| weights are overwritten; otherwise the
     * weight vector becomes values. The slice assignment is undefined when
     * values is longer than the weights, hence the precondition.
     */
    method SetWeights(values: seq<real>)
      requires inputs != null && |values| != |inputs.data| ==> |values| <= |weights|
      modifies this`weights
      ensures inputs != null && |values| != |inputs.data| ==> weights == Splice(old(weights), values)
      ensures inputs == null || |values| == |inputs.data| ==> weights == values
      ensures inputs != null && old(|weights|) == |inputs.data| ==> |weights| == |inputs.data|
    {
      if inputs != null && |values| != |inputs.data| {
        weights := Splice(weights, values);
      } else {
        weights := values;
      }
    }

    /**
     * setInputs: binds the input valarray; when its length differs from the
     * weight count, the weights and weighted deltas are resized, which zeroes them.
     */
    method SetInputs(v: Vec)
      modifies this`inputs, this`weights, this`weightedDeltas
      ensures inputs == v
      ensures weights == Fit(old(weights), |v.data|)
      ensures weightedDeltas == FitDeltas(old(weights), old(weightedDeltas), |v.data|)
    {
      inputs := v;
      if |weights| != |v.data| {
        weights := Zeros(|v.data|);
        weightedDeltas := Zeros(|v.data|);
      }
    }

    /** setWeightedDeltaSum: binds the upstream sum and clears the target. */
    method SetWeightedDeltaSum(p: Elem)
      modifies this`error
      ensures error == Upstream(p)
    {
      error := Upstream(p);
    }

    /** setTarget: binds the target and clears the upstream sum. */
    method SetTarget(p: Elem)
      modifies this`error
      ensures error == Target(p)
    {
      error := Target(p);
    }

    method SetTrainRate(rate: real)
      modifies this`trainRate
      ensures trainRate == rate
    {
      trainRate := rate;
    }

    method SetActivation(kind: Activation)
      modifies this`act
      ensures act == kind
    {
      act := kind;
    }

    /**
     * _calcSumProducts: the weighted sum of the bound input; fails when no input
     * is bound. The valarray product is undefined for operands of different
     * lengths, hence the precondition.
     */
    method CalcSumProducts() returns (ok: bool)
      requires inputs != null ==> |weights| == |inputs.data|
      modifies this`sumProducts
      ensures ok <==> inputs != null
      ensures ok ==> sumProducts == Dot(weights, inputs.data)
      ensures !ok ==> sumProducts == old(sumProducts)
    {
      if inputs != null {
        sumProducts := Dot(weights, inputs.data);
        return true;
      }
      return false;
    }

    /** _calcActivation */
    method CalcActivation(m: Transcendentals)
      modifies this`output
      ensures output == Activate(m, act, sumProducts)
    {
      match act {
        case Tanh => output := m.tanh(sumProducts / 2.0);
        case Sigmoid => output := m.sigmoid(sumProducts);
        case Identity => output := sumProducts;
      }
    }

    /** _calcDelta, with the error read through the bound pointer. */
    method CalcDelta(m: Transcendentals)
      requires Readable(error)
      modifies this`delta
      ensures delta == Delta(ActivDeriv(m, act, sumProducts), output, Resolve(error))
    {
      delta := ActivDeriv(m, act, sumProducts);
      match error {
        case Target(p) => delta := delta * (p.vec.data[p.index] - output);
        case Upstream(p) => delta := delta * p.vec.data[p.index];
        case NoSource => delta := 0.0;
      }
    }

    /**
     * _calcNewWeights: with an input bound, the weighted deltas become
     * delta * (old weights) and every weight moves by trainRate * delta * input;
     * with none, nothing changes and the step fails.
     */
    method CalcNewWeights() returns (ok: bool)
      requires inputs != null ==> |weights| == |inputs.data|
      modifies this`weights, this`weightedDeltas
      ensures ok <==> inputs != null
      ensures ok ==> weightedDeltas == Scale(delta, old(weights))
      ensures ok ==> weights == UpdatedWeights(old(weights), trainRate, delta, inputs.data)
      ensures !ok ==> weights == old(weights) && weightedDeltas == old(weightedDeltas)
    {
      if inputs != null {
        weightedDeltas := Scale(delta, weights);
        weights := UpdatedWeights(weights, trainRate, delta, inputs.data);
        return true;
      }
      return false;
    }

    /** evaluate: the weighted sum and then the activation; fails, changing nothing, without an input. */
    method Evaluate(m: Transcendentals) returns (ok: bool)
      requires inputs != null ==> |weights| == |inputs.data|
      modifies this`sumProducts, this`output
      ensures ok <==> inputs != null
      ensures ok ==> EvaluatedOn(m)
      ensures !ok ==> sumProducts == old(sumProducts) && output == old(output)
    {
      ok := CalcSumProducts();
      if ok {
        CalcActivation(m);
      }
    }

    /**
     * train: computes delta from the weighted sum and output of the last
     * evaluation and the bound error source, then updates the weights. It
     * reports success even when no input is bound and the weights stay put.
     */
    method Train(m: Transcendentals) returns (ok: bool)
      requires Readable(error)
      requires inputs != null ==> |weights| == |inputs.data|
      modifies this`delta, this`weights, this`weightedDeltas
      ensures ok
      ensures delta == Delta(ActivDeriv(m, act, sumProducts), output, Resolve(error))
      ensures SteppedFrom(old(weights), old(weightedDeltas))
    {
      CalcDelta(m);
      var updated := CalcNewWeights();
      return true;
    }
  }

  /**
   * The weight update law: each weight of a unit with a target moves by
   * trainRate * f'(s) * (target - output) * input.
   */
  lemma TargetUpdateLaw(m: Transcendentals, act: Activation, s: real, o: real, t: real,
                        rate: real, w: seq<real>, x: seq<real>, i: nat)
    requires |w| == |x| && i < |w|
    ensures UpdatedWeights(w, rate, Delta(ActivDeriv(m, act, s), o, Target(t)), x)[i] - w[i]
            == rate * ActivDeriv(m, act, s) * (t - o) * x[i]
  {
  }

  /**
   * A training step moves the unit's weighted sum, on the same input, by
   * exactly trainRate * delta * (x . x).
   */
  lemma {:induction false} TrainingMovesSum(w: seq<real>, x: seq<real>, rate: real, delta: real)
    requires |w| == |x|
    ensures Dot(UpdatedWeights(w, rate, delta, x), x) == Dot(w, x) + rate * delta * Dot(x, x)
  {
    DotAddScaled(w, rate * delta, x);
  }

  /**
   * Hence a training step moves the weighted sum in the direction of
   * trainRate * delta: up when it is positive, down when it is negative.
   */
  lemma TrainingDirection(w: seq<real>, x: seq<real>, rate: real, delta: real)
    requires |w| == |x|
    ensures rate * delta >= 0.0 ==> Dot(UpdatedWeights(w, rate, delta, x), x) >= Dot(w, x)
    ensures rate * delta <= 0.0 ==> Dot(UpdatedWeights(w, rate, delta, x), x) <= Dot(w, x)
  {
    DotAddScaledDirection(w, rate * delta, x);
  }

  /**
   * With the default activation, a unit whose weights are all zero never
   * learns: its weighted sum is 0, so the derivative factor and delta are 0
   * and the update leaves the weights at zero, whatever the error source.
   */
  lemma {:induction false} IdentityZeroWeightsStay(m: Transcendentals, x: seq<real>, o: real,
                                                  err: ErrorSource<real>, rate: real)
    ensures Delta(ActivDeriv(m, Identity, Dot(Zeros(|x|), x)), o, err) == 0.0
    ensures UpdatedWeights(Zeros(|x|), rate, Delta(ActivDeriv(m, Identity, Dot(Zeros(|x|), x)), o, err), x) == Zeros(|x|)
  {
    DotZeros(x);
  }
}
