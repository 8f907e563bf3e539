/**
 * A layer of units (c_PerceptronLayer): it owns its units, its output buffer
 * (with a constant bias slot when bias is on) and the weighted-delta-sum
 * buffer it hands back to the previous layer, and it wires its units to
 * inputs, targets and upstream sums.
 */
module PerceptronLayers {
  import opened Valarray
  import opened Perceptrons

  /** The output buffer after a rebuild: one zeroed slot per unit, then the bias slot 1.0 when bias is on. */
  function BuiltOutputs(size: nat, bias: bool): seq<real>
  {
    if bias then Zeros(size) + [1.0] else Zeros(size)
  }

  /** The error source unit j receives from a layer-level source: element j of its valarray. */
  function ElemOf(e: ErrorSource<Vec>, j: nat): ErrorSource<Elem>
  {
    match e
    case NoSource => NoSource
    case Target(v) => Target(Elem(v, j))
    case Upstream(v) => Upstream(Elem(v, j))
  }

  /** The valarray a layer-level error source points at, if any. */
  function VecOf(e: ErrorSource<Vec>): set<Vec>
  {
    if e.NoSource? then {} else {e.src}
  }

  /** Entry j of the valarray a layer-level error source points at, tagged with the source's kind. */
  function ValueAt(e: ErrorSource<Vec>, j: nat): ErrorSource<real>
    reads VecOf(e)
  {
    match e
    case NoSource => NoSource
    case Target(v) => Target(Entry(v.data, j))
    case Upstream(v) => Upstream(Entry(v.data, j))
  }

  /**
   * A unit connected to element j of a layer-level source whose valarray has
   * that element reads, through its pointer, entry j of that valarray.
   */
  lemma ResolveElemOf(e: ErrorSource<Vec>, j: nat)
    requires !e.NoSource? ==> j < |e.src.data|
    ensures Readable(ElemOf(e, j)) && Resolve(ElemOf(e, j)) == ValueAt(e, j)
  {
  }

  /** The layer a pointer designates, as a set for frames. */
  function LayerSet(l: Layer?): set<Layer>
  {
    if l == null then {} else {l}
  }

  /** The units of the layer a pointer designates. */
  function UnitsOf(l: Layer?): seq<Perceptron>
  {
    if l == null then [] else l.units
  }

  /** The unit set of the layer a pointer designates. */
  ghost function UnitReprOf(l: Layer?): set<Perceptron>
  {
    if l == null then {} else l.UnitRepr
  }

  /** The weighted-delta-sum buffer of the layer a pointer designates. */
  function ErrorOutOf(l: Layer?): set<Vec>
  {
    if l == null then {} else {l.deltaSumsOut}
  }

  /** Two layers share no object: neither themselves, nor a unit, nor a buffer. */
  ghost predicate Separate(a: Layer, b: Layer)
  {
    && a != b && a.UnitRepr !! b.UnitRepr
    && a.outputs != b.outputs && a.outputs != b.deltaSumsOut
    && a.deltaSumsOut != b.outputs && a.deltaSumsOut != b.deltaSumsOut
  }

  /** n default-constructed units, as resizing the unit vector creates them. */
  method NewUnits(n: nat) returns (us: seq<Perceptron>)
    ensures |us| == n
    ensures forall i, j :: 0 <= i < j < n ==> us[i] != us[j]
    ensures forall i :: 0 <= i < n ==> fresh(us[i])
    ensures forall i :: 0 <= i < n ==>
              && us[i].inputs == null && us[i].weights == [] && us[i].error == NoSource
              && us[i].trainRate == 0.0 && us[i].act == Tanh && us[i].Blank()
  {
    us := [];
    while |us| < n
      invariant |us| <= n
      invariant forall i, j :: 0 <= i < j < |us| ==> us[i] != us[j]
      invariant forall i :: 0 <= i < |us| ==> fresh(us[i])
      invariant forall i :: 0 <= i < |us| ==>
                  && us[i].inputs == null && us[i].weights == [] && us[i].error == NoSource
                  && us[i].trainRate == 0.0 && us[i].act == Tanh && us[i].Blank()
    {
      var u := new Perceptron();
      us := us + [u];
    }
  }

  class Layer {
    /** m_Inputs: the valarray every unit reads, or null. */
    var inputs: Vec?
    /** m_Targets / m_WeightedDeltaSumsIn */
    var errorIn: ErrorSource<Vec>
    /** m_Input: the previous layer, whose outputs this layer reads. */
    var prev: Layer?
    /** m_Output: the next layer, which reads this layer's outputs. */
    var next: Layer?
    /** m_Outputs */
    const outputs: Vec
    /** m_WeightedDeltaSumsOut */
    const deltaSumsOut: Vec
    /** m_Perceptrons; their count m_Size never changes after construction. */
    const units: seq<Perceptron>
    const size: nat
    var bias: bool
    var trainRate: real
    var act: Activation
    ghost const UnitRepr: set<Perceptron>

    /**
     * Ownership: the layer's own objects and its distinct units. Every part of
     * it is fixed at construction.
     */
    ghost predicate Owns()
    {
      && outputs != deltaSumsOut
      && |units| == size
      && (forall i, j :: 0 <= i < j < |units| ==> units[i] != units[j])
      && (forall j :: 0 <= j < |units| ==> units[j] in UnitRepr)
    }

    /** Every unit carries the layer's rate and activation. */
    ghost predicate Tuned()
      reads this`trainRate, this`act, UnitRepr`trainRate, UnitRepr`act
      requires Owns()
    {
      forall j :: 0 <= j < |units| ==> units[j].trainRate == trainRate && units[j].act == act
    }

    /** No error source of the layer or of its units points into the buffer its training writes. */
    ghost predicate ErrorsApart()
      reads this`errorIn, UnitRepr`error
      requires Owns()
    {
      && deltaSumsOut !in VecOf(errorIn)
      && forall j :: 0 <= j < |units| ==> deltaSumsOut !in SourceVecs(units[j].error)
    }

    /** Every unit reads the layer's input, which is not a buffer the layer writes. */
    ghost predicate Bound()
      reads this`inputs, UnitRepr`inputs
      requires Owns()
    {
      && (forall j :: 0 <= j < |units| ==> units[j].inputs == inputs)
      && inputs != outputs && inputs != deltaSumsOut
    }

    /** Unit j takes element j of the layer's error source, or nothing when there is none. */
    ghost predicate Connected()
      reads this`errorIn, UnitRepr`error
      requires Owns()
    {
      forall j :: 0 <= j < |units| ==> units[j].error == ElemOf(errorIn, j)
    }

    /**
     * After training against the current contents of the error source: every
     * unit's delta is the one train computes from its weighted sum, its output
     * and entry j of the layer's error source.
     */
    ghost predicate TrainedOn(m: Transcendentals)
      reads this`errorIn, VecOf(errorIn), UnitRepr`act, UnitRepr`sumProducts, UnitRepr`output, UnitRepr`delta
      requires Owns()
    {
      forall j :: 0 <= j < |units| ==>
        units[j].delta == Delta(ActivDeriv(m, units[j].act, units[j].sumProducts), units[j].output, ValueAt(errorIn, j))
    }

    /** The output buffer has a slot per unit and, with bias on, a last slot equal to 1.0. */
    ghost predicate OutputsShaped()
      reads this`bias, outputs`data
    {
      && |outputs.data| == (if bias then size + 1 else size)
      && (bias ==> outputs.data[size] == 1.0)
    }

    /** Everything but the output buffer's shape, which a rebuild re-establishes. */
    ghost predicate Coherent()
      reads this`errorIn, this`inputs, UnitRepr`error, UnitRepr`inputs
    {
      Owns() && ErrorsApart() && Bound()
    }

    ghost predicate Valid()
      reads this`errorIn, this`inputs, this`bias, outputs`data, UnitRepr`error, UnitRepr`inputs
    {
      Coherent() && OutputsShaped()
    }

    /**
     * A layer of n units as its constructor leaves it: valid, bound to
     * nothing, and tuned to the default rate and activation.
     */
    ghost predicate Pristine(n: nat)
      reads this, outputs, UnitRepr
    {
      && Valid() && Connected() && Tuned() && size == n
      && trainRate == 0.0 && act == Tanh
      && inputs == null && errorIn == NoSource && prev == null && next == null
      && (forall j :: 0 <= j < size ==> units[j].Blank())
    }

    /** Every object the layer owns. */
    ghost function Footprint(): set<object>
    {
      {this, outputs, deltaSumsOut} + UnitRepr
    }

    /** Every unit has n weights. */
    ghost predicate Shaped(n: nat)
      reads UnitRepr`weights
      requires Owns()
    {
      forall j :: 0 <= j < |units| ==> |units[j].weights| == n
    }

    /** The units' weight vectors, in unit order. */
    ghost function Weights(): seq<seq<real>>
      reads units
    {
      seq(|units|, j requires 0 <= j < |units| reads units => units[j].weights)
    }

    /**
     * Between the state before a (re)binding and now: with an input bound,
     * every unit's weights are kept when they already had one per input
     * entry and zeroed to that length otherwise, and its weighted deltas are
     * kept or zeroed with them; with no input, both are unchanged.
     */
    twostate predicate Refitted()
      reads this, UnitRepr, inputs
      requires Owns()
    {
      && (inputs != null ==> forall j :: 0 <= j < size ==>
            && units[j].weights == Fit(old(units[j].weights), |inputs.data|)
            && units[j].weightedDeltas == FitDeltas(old(units[j].weights), old(units[j].weightedDeltas), |inputs.data|))
      && (inputs == null ==> forall j :: 0 <= j < size ==>
            units[j].weights == old(units[j].weights) && units[j].weightedDeltas == old(units[j].weightedDeltas))
    }

    /** Unit j has weights W[j] and weighted deltas D[j]. */
    ghost predicate HasWeights(W: seq<seq<real>>, D: seq<seq<real>>)
      reads units`weights, units`weightedDeltas
    {
      && |W| == |units| && |D| == |units|
      && forall j :: 0 <= j < |units| ==> units[j].weights == W[j] && units[j].weightedDeltas == D[j]
    }

    /**
     * Unit j has the weights W[j] and weighted deltas D[j] as binding it to
     * an input of length n leaves them: kept when W[j] has n entries, zeroed
     * to n entries otherwise.
     */
    ghost predicate RefitFrom(W: seq<seq<real>>, D: seq<seq<real>>, n: nat)
      reads units`weights, units`weightedDeltas
    {
      && |W| == |units| && |D| == |units|
      && forall j :: 0 <= j < |units| ==>
           units[j].weights == Fit(W[j], n) && units[j].weightedDeltas == FitDeltas(W[j], D[j], n)
    }

    /** Units whose weights and weighted deltas are as they were keep RefitFrom and HasWeights. */
    twostate lemma KeepsWeights(new W: seq<seq<real>>, new D: seq<seq<real>>, new n: nat)
      requires forall j :: 0 <= j < |units| ==> units[j].weights == old(units[j].weights) && units[j].weightedDeltas == old(units[j].weightedDeltas)
      ensures old(RefitFrom(W, D, n)) ==> RefitFrom(W, D, n)
      ensures old(HasWeights(W, D)) ==> HasWeights(W, D)
    {
    }

    /** Binding to an input refits the weights and weighted deltas the units held before. */
    twostate lemma RefitSnapshot(new W: seq<seq<real>>, new D: seq<seq<real>>)
      requires Owns() && old(HasWeights(W, D)) && Refitted() && inputs != null
      ensures RefitFrom(W, D, |inputs.data|)
    {
    }

    /** Unit j took its weight step of train from weights W[j] and weighted deltas D[j]. */
    ghost predicate StepsFrom(W: seq<seq<real>>, D: seq<seq<real>>)
      reads this`inputs, UnitRepr, inputs
      requires Owns() && Bound()
    {
      && |W| == size && |D| == size
      && forall j :: 0 <= j < size ==> units[j].SteppedFrom(W[j], D[j])
    }

    /** Units that held W and D and have each taken their step since took it from W and D. */
    twostate lemma StepsHere(new W: seq<seq<real>>, new D: seq<seq<real>>)
      requires Owns() && Bound() && old(HasWeights(W, D))
      requires forall j :: 0 <= j < size ==> units[j].SteppedFrom(old(units[j].weights), old(units[j].weightedDeltas))
      ensures StepsFrom(W, D)
    {
    }

    /** Units that are as they were, reading an input that is as it was, keep StepsFrom. */
    twostate lemma StepsKept(new W: seq<seq<real>>, new D: seq<seq<real>>)
      requires Owns() && old(Bound()) && old(StepsFrom(W, D))
      requires forall u :: u in UnitRepr ==> unchanged(u)
      requires unchanged(this`inputs) && (inputs != null ==> unchanged(inputs))
      ensures Bound() && StepsFrom(W, D)
    {
    }

    /** The units' weighted-delta vectors, in unit order. */
    ghost function WeightedDeltas(): seq<seq<real>>
      reads units
    {
      seq(|units|, j requires 0 <= j < |units| reads units => units[j].weightedDeltas)
    }

    /** The error source of the layer points at a valarray with one element per unit. */
    predicate ErrorInFits()
      reads this, VecOf(errorIn)
    {
      !errorIn.NoSource? && |errorIn.src.data| == size
    }

    /**
     * After a forward pass: each unit's weighted sum and output are those of
     * the current input, and output slot j carries unit j's output.
     */
    ghost predicate Evaluated(m: Transcendentals)
      reads this, outputs, UnitRepr, inputs
    {
      && Valid()
      && inputs != null
      && forall j :: 0 <= j < size ==>
           units[j].EvaluatedOn(m) && outputs.data[j] == units[j].output
    }

    constructor (n: nat)
      ensures Valid() && Tuned() && fresh(Footprint())
      ensures size == n && inputs == null && errorIn == NoSource && prev == null && next == null
      ensures bias && trainRate == 0.0 && act == Tanh
      ensures outputs.data == BuiltOutputs(n, true) && deltaSumsOut.data == []
      ensures forall j :: 0 <= j < n ==> units[j].error == NoSource && units[j].Blank()
    {
      // m_Perceptrons.resize(m_Size) in the first _build
      var us := NewUnits(n);
      units := us;
      size := n;
      outputs := new Vec([]);
      deltaSumsOut := new Vec([]);
      inputs := null;
      errorIn := NoSource;
      prev, next := null, null;
      bias := true;
      trainRate := 0.0;
      act := Tanh;
      UnitRepr := set u | u in us;
      new;
      assert Tuned();
      BuildAlone();
    }

    /** The _build of a new layer, which has no neighbour, no input and no error source yet. */
    method BuildAlone()
      requires Owns() && prev == null && next == null && inputs == null && errorIn == NoSource
      requires forall j :: 0 <= j < size ==> units[j].error == NoSource && units[j].inputs == null
      requires outputs != deltaSumsOut && Tuned()
      modifies this`inputs, outputs, deltaSumsOut, UnitRepr`inputs, UnitRepr`weights, UnitRepr`weightedDeltas, UnitRepr`error
      ensures Valid() && Tuned() && inputs == null
      ensures outputs.data == BuiltOutputs(size, bias) && deltaSumsOut.data == old(deltaSumsOut.data)
      ensures forall j :: 0 <= j < size ==> units[j].error == NoSource
      ensures forall j :: 0 <= j < size ==>
                units[j].weights == old(units[j].weights) && units[j].weightedDeltas == old(units[j].weightedDeltas)
    {
      assert LayerSet(prev) == {} && ErrorOutOf(next) == {} && UnitReprOf(prev) == {};
      Build();
    }

    /**
     * setInput: links this layer after p and rebuilds: this layer reads p's
     * outputs, p records this layer as its next, this layer's error-out buffer
     * gets one entry per unit of p, and p's units take their error from it.
     */
    method SetInput(p: Layer)
      requires Coherent() && p.Valid() && Separate(p, this)
      requires next != null ==> Separate(next, this) && Separate(next, p)
      modifies this`prev, this`inputs, outputs, deltaSumsOut
      modifies UnitRepr`inputs, UnitRepr`weights, UnitRepr`weightedDeltas, UnitRepr`error
      modifies p`next, p`errorIn, p.UnitRepr`error, ErrorOutOf(next)
      ensures prev == p
      ensures Valid() && p.Valid()
      ensures outputs.data == BuiltOutputs(size, bias)
      ensures inputs == p.outputs && Shaped(|p.outputs.data|) && Refitted()
      ensures deltaSumsOut.data == Zeros(p.size)
      ensures p.next == this && p.errorIn == Upstream(deltaSumsOut)
      ensures forall j :: 0 <= j < p.size ==> p.units[j].error == Upstream(Elem(deltaSumsOut, j))
      ensures next != null ==> next.deltaSumsOut.data == Zeros(size)
      ensures forall j :: 0 <= j < size ==>
                units[j].error == if ErrorInFits() then ElemOf(errorIn, j) else old(units[j].error)
    {
      prev := p;
      Build();
    }

    /** setInputs: binds every unit to the valarray v. */
    method SetInputs(v: Vec)
      requires Valid() && v != outputs && v != deltaSumsOut
      modifies this`inputs, UnitRepr`inputs, UnitRepr`weights, UnitRepr`weightedDeltas
      ensures Valid() && inputs == v && Shaped(|v.data|) && Refitted()
      ensures forall j :: 0 <= j < size ==>
                && units[j].weights == Fit(old(units[j].weights), |v.data|)
                && units[j].weightedDeltas == FitDeltas(old(units[j].weights), old(units[j].weightedDeltas), |v.data|)
    {
      inputs := v;
      ConnectInputs();
    }

    /**
     * setTargets: ignored unless v has one element per unit; otherwise the
     * layer is driven by targets, the upstream sums are unbound, and unit j
     * takes target j.
     */
    method SetTargets(v: Vec)
      requires Valid() && v != deltaSumsOut
      modifies this`errorIn, UnitRepr`error
      ensures Valid()
      ensures |v.data| == size ==> errorIn == Target(v)
      ensures |v.data| == size ==> forall j :: 0 <= j < size ==> units[j].error == Target(Elem(v, j))
      ensures |v.data| != size ==> errorIn == old(errorIn)
      ensures |v.data| != size ==> forall j :: 0 <= j < size ==> units[j].error == old(units[j].error)
    {
      if |v.data| == size {
        errorIn := Target(v);
        ConnectTargets();
      }
    }

    /** setTrainRate: the same rate for the layer and every unit. */
    method SetTrainRate(rate: real)
      requires Valid()
      modifies this`trainRate, UnitRepr`trainRate
      ensures Valid() && trainRate == rate
      ensures forall j :: 0 <= j < size ==> units[j].trainRate == rate
    {
      trainRate := rate;
      for i := 0 to size
        invariant trainRate == rate
        invariant forall j :: 0 <= j < i ==> units[j].trainRate == rate
      {
        units[i].SetTrainRate(rate);
      }
    }

    /** setActivation: the same activation for the layer and every unit. */
    method SetActivation(kind: Activation)
      requires Valid()
      modifies this`act, UnitRepr`act
      ensures Valid() && act == kind
      ensures forall j :: 0 <= j < size ==> units[j].act == kind
    {
      act := kind;
      for i := 0 to size
        invariant act == kind
        invariant forall j :: 0 <= j < i ==> units[j].act == kind
      {
        units[i].SetActivation(kind);
      }
    }

    /** setBias: records the flag and rebuilds. */
    method SetBias(b: bool)
      requires Coherent()
      requires prev != null ==> prev.Valid() && Separate(prev, this)
      requires next != null ==> Separate(next, this)
      requires prev != null && next != null ==> Separate(prev, next)
      modifies this`bias, this`inputs, outputs, deltaSumsOut
      modifies UnitRepr`inputs, UnitRepr`weights, UnitRepr`weightedDeltas, UnitRepr`error
      modifies LayerSet(prev)`next, LayerSet(prev)`errorIn, UnitReprOf(prev)`error, ErrorOutOf(next)
      ensures bias == b && Rebuilt()
    {
      bias := b;
      Build();
    }

    /**
     * What a rebuild leaves behind, between the state before it and now: the
     * layer and its predecessor are valid, the outputs have the layout for
     * the current bias flag, the layer reads its predecessor's outputs, its
     * units' weights are refitted to the input it reads, the error-out buffer is zeroed to the predecessor's width and wired up to
     * it, the successor's error-out buffer is zeroed to this layer's width,
     * and the units take their errors from the error source when it fits.
     */
    twostate predicate Rebuilt()
      reads *
    {
      && Valid() && (prev != null ==> prev.Valid())
      && outputs.data == BuiltOutputs(size, bias)
      && (prev != null ==> inputs == prev.outputs)
      && (prev == null ==> inputs == old(inputs))
      && (inputs != null ==> Shaped(|inputs.data|))
      && Refitted()
      && (prev != null ==> deltaSumsOut.data == Zeros(prev.size))
      && (prev == null ==> deltaSumsOut.data == old(deltaSumsOut.data))
      && (prev != null ==> prev.next == this && prev.errorIn == Upstream(deltaSumsOut))
      && (prev != null ==> forall j :: 0 <= j < prev.size ==> prev.units[j].error == Upstream(Elem(deltaSumsOut, j)))
      && (next != null ==> next.deltaSumsOut.data == Zeros(size))
      && (forall j :: 0 <= j < size ==>
            units[j].error == if ErrorInFits() then ElemOf(errorIn, j) else old(units[j].error))
    }

    /**
     * evaluate: unit by unit, a successful evaluation is copied to its output
     * slot. All units share the layer's input, so either every slot is
     * written or, with no input bound, nothing changes; the bias slot never is.
     */
    method Evaluate(m: Transcendentals)
      requires Valid()
      requires inputs != null ==> Shaped(|inputs.data|)
      modifies outputs, UnitRepr`sumProducts, UnitRepr`output
      ensures Valid()
      ensures inputs != null ==> Evaluated(m)
      ensures inputs == null ==> outputs.data == old(outputs.data)
      ensures inputs == null ==> forall j :: 0 <= j < size ==>
                units[j].sumProducts == old(units[j].sumProducts) && units[j].output == old(units[j].output)
    {
      var i := 0;
      while i < size
        invariant 0 <= i <= size
        invariant |outputs.data| == |old(outputs.data)|
        invariant forall j :: i <= j < |outputs.data| ==> outputs.data[j] == old(outputs.data[j])
        invariant inputs != null ==> forall j :: 0 <= j < i ==>
                    units[j].EvaluatedOn(m) && outputs.data[j] == units[j].output
        invariant inputs == null ==> outputs.data == old(outputs.data)
        invariant forall j :: i <= j < size ==>
                    units[j].sumProducts == old(units[j].sumProducts) && units[j].output == old(units[j].output)
        invariant inputs == null ==> forall j :: 0 <= j < size ==>
                    units[j].sumProducts == old(units[j].sumProducts) && units[j].output == old(units[j].output)
      {
        var ok := units[i].Evaluate(m);
        if ok {
          outputs.data := outputs.data[i := units[i].output];
        }
        i := i + 1;
      }
    }

    /**
     * train: zeroes the error-out buffer, trains every unit in index order and
     * accumulates each successful unit's weighted deltas into the buffer, so
     * that entry k ends as the sum over units of delta * (old weight k), over
     * the entries the buffer has.
     */
    method Train(m: Transcendentals)
      requires Valid()
      requires inputs != null ==> Shaped(|inputs.data|)
      requires forall j :: 0 <= j < size ==> Readable(units[j].error)
      modifies deltaSumsOut, UnitRepr`delta, UnitRepr`weights, UnitRepr`weightedDeltas
      ensures Valid()
      ensures forall j :: 0 <= j < size ==>
                units[j].delta == Delta(ActivDeriv(m, units[j].act, units[j].sumProducts), units[j].output, old(Resolve(units[j].error)))
      ensures forall j :: 0 <= j < size ==> units[j].SteppedFrom(old(units[j].weights), old(units[j].weightedDeltas))
      ensures deltaSumsOut.data == ColumnSums(|old(deltaSumsOut.data)|, WeightedDeltas())
    {
      var n := |deltaSumsOut.data|;
      deltaSumsOut.data := Zeros(n);
      ColumnSumsEmpty(n);
      ghost var done: seq<seq<real>> := [];
      var i := 0;
      while i < size
        invariant 0 <= i <= size
        invariant forall j :: 0 <= j < i ==>
                    units[j].delta == Delta(ActivDeriv(m, units[j].act, units[j].sumProducts), units[j].output, old(Resolve(units[j].error)))
        invariant forall j :: 0 <= j < i ==> units[j].SteppedFrom(old(units[j].weights), old(units[j].weightedDeltas))
        invariant forall j :: i <= j < size ==>
                    units[j].weights == old(units[j].weights) && units[j].weightedDeltas == old(units[j].weightedDeltas)
        invariant |done| == i && forall j :: 0 <= j < i ==> done[j] == units[j].weightedDeltas
        invariant deltaSumsOut.data == ColumnSums(n, done)
      {
        TrainUnit(m, i);
        AccumulateColumnSums(n, done, units[i].weightedDeltas);
        done := done + [units[i].weightedDeltas];
        i := i + 1;
      }
      assert done == WeightedDeltas();
    }

    /** One step of train: unit i trains and, on success, its weighted deltas are added to the error-out buffer. */
    method TrainUnit(m: Transcendentals, i: nat)
      requires Owns() && i < size
      requires Readable(units[i].error) && deltaSumsOut !in SourceVecs(units[i].error) && units[i].inputs != deltaSumsOut
      requires units[i].inputs != null ==> |units[i].weights| == |units[i].inputs.data|
      modifies deltaSumsOut, {units[i]}`delta, {units[i]}`weights, {units[i]}`weightedDeltas
      ensures units[i].delta == Delta(ActivDeriv(m, units[i].act, units[i].sumProducts), units[i].output, old(Resolve(units[i].error)))
      ensures units[i].SteppedFrom(old(units[i].weights), old(units[i].weightedDeltas))
      ensures deltaSumsOut.data == Accumulate(old(deltaSumsOut.data), units[i].weightedDeltas)
      ensures forall j :: 0 <= j < size && j != i ==> unchanged(units[j])
    {
      var u := units[i];
      var ok := u.Train(m);
      if ok {
        deltaSumsOut.data := Accumulate(deltaSumsOut.data, u.weightedDeltas);
      }
    }

    /** _setOutput */
    method SetOutput(n: Layer)
      modifies this`next
      ensures next == n
    {
      next := n;
    }

    /**
     * _setWeightedDeltaSumsIn: the layer is driven by the upstream sums in v
     * and its targets are unbound; unit j takes element j, but only when v has
     * one element per unit.
     */
    method SetWeightedDeltaSumsIn(v: Vec)
      requires Valid() && v != deltaSumsOut
      modifies this`errorIn, UnitRepr`error
      ensures Valid() && errorIn == Upstream(v)
      ensures |v.data| == size ==> forall j :: 0 <= j < size ==> units[j].error == Upstream(Elem(v, j))
      ensures |v.data| != size ==> forall j :: 0 <= j < size ==> units[j].error == old(units[j].error)
    {
      errorIn := Upstream(v);
      ConnectWeightedDeltaSums();
    }

    /**
     * _build: rebuilds the output buffer for the current bias flag, relinks
     * to the previous layer (if any), resizes the next layer's error-out
     * buffer to this layer's unit count (if any), and reconnects the units.
     */
    method Build()
      requires Coherent()
      requires prev != null ==> prev.Valid() && Separate(prev, this)
      requires next != null ==> Separate(next, this)
      requires prev != null && next != null ==> Separate(prev, next)
      modifies this`inputs, outputs, deltaSumsOut
      modifies UnitRepr`inputs, UnitRepr`weights, UnitRepr`weightedDeltas, UnitRepr`error
      modifies LayerSet(prev)`next, LayerSet(prev)`errorIn, UnitReprOf(prev)`error, ErrorOutOf(next)
      ensures Valid() && (prev != null ==> prev.Valid())
      ensures outputs.data == BuiltOutputs(size, bias)
      ensures prev != null ==> inputs == prev.outputs
      ensures prev == null ==> inputs == old(inputs)
      ensures inputs != null ==> Shaped(|inputs.data|)
      ensures Refitted()
      ensures prev != null ==> deltaSumsOut.data == Zeros(prev.size)
      ensures prev == null ==> deltaSumsOut.data == old(deltaSumsOut.data)
      ensures prev != null ==> prev.next == this && prev.errorIn == Upstream(deltaSumsOut)
      ensures prev != null ==> forall j :: 0 <= j < prev.size ==> prev.units[j].error == Upstream(Elem(deltaSumsOut, j))
      ensures next != null ==> next.deltaSumsOut.data == Zeros(size)
      ensures forall j :: 0 <= j < size ==>
                units[j].error == if ErrorInFits() then ElemOf(errorIn, j) else old(units[j].error)
    {
      assert prev != null ==> prev.UnitRepr !! UnitRepr && prev.outputs != outputs;
      ResizeOutputs();
      Relink();
    }

    /** The relinking steps of _build, after the output buffer is rebuilt. */
    method Relink()
      requires Valid()
      requires prev != null ==> prev.Valid() && Separate(prev, this)
      requires next != null ==> Separate(next, this)
      requires prev != null && next != null ==> Separate(prev, next)
      modifies this`inputs, deltaSumsOut
      modifies UnitRepr`inputs, UnitRepr`weights, UnitRepr`weightedDeltas, UnitRepr`error
      modifies LayerSet(prev)`next, LayerSet(prev)`errorIn, UnitReprOf(prev)`error, ErrorOutOf(next)
      ensures Valid() && (prev != null ==> prev.Valid())
      ensures prev != null ==> inputs == prev.outputs
      ensures prev == null ==> inputs == old(inputs)
      ensures inputs != null ==> Shaped(|inputs.data|)
      ensures Refitted()
      ensures prev != null ==> deltaSumsOut.data == Zeros(prev.size)
      ensures prev == null ==> deltaSumsOut.data == old(deltaSumsOut.data)
      ensures prev != null ==> prev.next == this && prev.errorIn == Upstream(deltaSumsOut)
      ensures prev != null ==> forall j :: 0 <= j < prev.size ==> prev.units[j].error == Upstream(Elem(deltaSumsOut, j))
      ensures next != null ==> next.deltaSumsOut.data == Zeros(size)
      ensures forall j :: 0 <= j < size ==>
                units[j].error == if ErrorInFits() then ElemOf(errorIn, j) else old(units[j].error)
    {
      LinkNeighbours();
      Connect();
    }

    /**
     * The neighbour steps of _build: link to the previous layer, if any, and
     * size the next layer's error-out buffer to this layer's unit count, if any.
     */
    method LinkNeighbours()
      requires Valid()
      requires prev != null ==> prev.Valid() && Separate(prev, this)
      requires next != null ==> Separate(next, this)
      requires prev != null && next != null ==> Separate(prev, next)
      modifies this`inputs, UnitRepr`inputs, UnitRepr`weights, UnitRepr`weightedDeltas, deltaSumsOut
      modifies LayerSet(prev)`next, LayerSet(prev)`errorIn, UnitReprOf(prev)`error, ErrorOutOf(next)
      ensures Valid() && (prev != null ==> prev.Valid())
      ensures prev != null ==> inputs == prev.outputs && Shaped(|prev.outputs.data|) && Refitted()
      ensures prev == null ==> inputs == old(inputs)
      ensures prev == null ==> forall j :: 0 <= j < size ==>
                units[j].weights == old(units[j].weights) && units[j].weightedDeltas == old(units[j].weightedDeltas)
      ensures prev != null ==> deltaSumsOut.data == Zeros(prev.size)
      ensures prev == null ==> deltaSumsOut.data == old(deltaSumsOut.data)
      ensures prev != null ==> prev.next == this && prev.errorIn == Upstream(deltaSumsOut)
      ensures prev != null ==> forall j :: 0 <= j < prev.size ==> prev.units[j].error == Upstream(Elem(deltaSumsOut, j))
      ensures next != null ==> next.deltaSumsOut.data == Zeros(size)
    {
      if prev != null {
        LinkInputLayer();
      }
      if next != null {
        next.ResizeWeightedDeltaSumsOut(size);
      }
    }

    /** Resizing the error-out buffer to n entries, which zeroes it. */
    method ResizeWeightedDeltaSumsOut(n: nat)
      modifies deltaSumsOut
      ensures deltaSumsOut.data == Zeros(n)
    {
      deltaSumsOut.data := Zeros(n);
    }

    /** The output-buffer step of _build: zeroed slots and, with bias on, the bias slot 1.0. */
    method ResizeOutputs()
      modifies outputs
      ensures outputs.data == BuiltOutputs(size, bias)
    {
      if bias {
        outputs.data := Zeros(size + 1);
        outputs.data := outputs.data[size := 1.0];
      } else {
        outputs.data := Zeros(size);
      }
    }

    /**
     * The input-layer step of _build: read the previous layer's outputs, make
     * this layer its next, size the error-out buffer to its unit count (which
     * zeroes it) and make that buffer its upstream sums.
     */
    method LinkInputLayer()
      requires Valid() && prev != null && prev.Valid() && Separate(prev, this)
      modifies this`inputs, UnitRepr`inputs, UnitRepr`weights, UnitRepr`weightedDeltas, deltaSumsOut
      modifies prev`next, prev`errorIn, prev.UnitRepr`error
      ensures Valid() && prev.Valid()
      ensures inputs == prev.outputs && Shaped(|prev.outputs.data|) && Refitted()
      ensures deltaSumsOut.data == Zeros(prev.size)
      ensures prev.next == this && prev.errorIn == Upstream(deltaSumsOut)
      ensures forall j :: 0 <= j < prev.size ==> prev.units[j].error == Upstream(Elem(deltaSumsOut, j))
    {
      SetInputs(prev.outputs);
      prev.SetOutput(this);
      deltaSumsOut.data := Zeros(prev.size);
      prev.SetWeightedDeltaSumsIn(deltaSumsOut);
    }

    /** _connect */
    method Connect()
      requires Valid()
      modifies UnitRepr`inputs, UnitRepr`weights, UnitRepr`weightedDeltas, UnitRepr`error
      ensures Valid()
      ensures inputs != null ==> Shaped(|inputs.data|)
      ensures Refitted()
      ensures forall j :: 0 <= j < size ==>
                units[j].error == if ErrorInFits() then ElemOf(errorIn, j) else old(units[j].error)
    {
      ConnectInputs();
      ConnectTargets();
      ConnectWeightedDeltaSums();
    }

    /** _connectInputs: with an input bound, every unit is bound to it. */
    method ConnectInputs()
      requires Owns()
      requires inputs != outputs && inputs != deltaSumsOut
      requires inputs == null ==> Bound()
      modifies UnitRepr`inputs, UnitRepr`weights, UnitRepr`weightedDeltas
      ensures Bound()
      ensures inputs != null ==> Shaped(|inputs.data|)
      ensures inputs != null ==> forall j :: 0 <= j < size ==>
                && units[j].weights == Fit(old(units[j].weights), |inputs.data|)
                && units[j].weightedDeltas == FitDeltas(old(units[j].weights), old(units[j].weightedDeltas), |inputs.data|)
      ensures inputs == null ==> forall j :: 0 <= j < size ==>
                units[j].weights == old(units[j].weights) && units[j].weightedDeltas == old(units[j].weightedDeltas)
    {
      if inputs != null {
        for i := 0 to size
          invariant forall j :: 0 <= j < i ==> units[j].inputs == inputs
          invariant forall j :: 0 <= j < i ==>
                      && units[j].weights == Fit(old(units[j].weights), |inputs.data|)
                      && units[j].weightedDeltas == FitDeltas(old(units[j].weights), old(units[j].weightedDeltas), |inputs.data|)
          invariant forall j :: i <= j < size ==>
                      units[j].weights == old(units[j].weights) && units[j].weightedDeltas == old(units[j].weightedDeltas)
        {
          units[i].SetInputs(inputs);
        }
      }
    }

    /** _connectTargets: only a bound target vector with one element per unit is connected. */
    method ConnectTargets()
      requires Owns() && ErrorsApart()
      modifies UnitRepr`error
      ensures ErrorsApart()
      ensures errorIn.Target? && ErrorInFits() ==> forall j :: 0 <= j < size ==> units[j].error == ElemOf(errorIn, j)
      ensures !(errorIn.Target? && ErrorInFits()) ==> forall j :: 0 <= j < size ==> units[j].error == old(units[j].error)
    {
      if errorIn.Target? && |errorIn.src.data| == size {
        for i := 0 to size
          invariant forall j :: 0 <= j < i ==> units[j].error == ElemOf(errorIn, j)
          invariant forall j :: i <= j < size ==> units[j].error == old(units[j].error)
        {
          units[i].SetTarget(Elem(errorIn.src, i));
        }
      }
    }

    /** _connectWeightedDeltaSums: only a bound sum vector with one element per unit is connected. */
    method ConnectWeightedDeltaSums()
      requires Owns() && ErrorsApart()
      modifies UnitRepr`error
      ensures ErrorsApart()
      ensures errorIn.Upstream? && ErrorInFits() ==> forall j :: 0 <= j < size ==> units[j].error == ElemOf(errorIn, j)
      ensures !(errorIn.Upstream? && ErrorInFits()) ==> forall j :: 0 <= j < size ==> units[j].error == old(units[j].error)
    {
      if errorIn.Upstream? && |errorIn.src.data| == size {
        for i := 0 to size
          invariant forall j :: 0 <= j < i ==> units[j].error == ElemOf(errorIn, j)
          invariant forall j :: i <= j < size ==> units[j].error == old(units[j].error)
        {
          units[i].SetWeightedDeltaSum(Elem(errorIn.src, i));
        }
      }
    }
  }
}
