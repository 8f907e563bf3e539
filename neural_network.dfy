/**
 * The network (c_NeuralNetwork): a chain of layers fed from a local copy of
 * the caller's input valarray, which carries an extra bias slot 1.0 when bias
 * is on. Evaluation runs from the first layer to the last; training runs from
 * the last layer to the first, so that every layer's error-out buffer is
 * complete before the layer before it reads it.
 */
module NeuralNetworks {
  import opened Valarray
  import opened Perceptrons
  import opened PerceptronLayers

  /** The length of the local input for an input of length n: one more with bias on. */
  function LocalSize(n: nat, bias: bool): nat
  {
    if bias then n + 1 else n
  }

  /** The local input for input x: x itself, followed by the bias slot 1.0 when bias is on. */
  function LocalInputs(x: seq<real>, bias: bool): seq<real>
  {
    if bias then x + [1.0] else x
  }

  /**
   * _updateLocalInputs on values: with bias on, the first |x| entries of the
   * local input become x and its last entry 1.0; with bias off, the local
   * input becomes a copy of x. The slice assignment and the last-entry write
   * are undefined unless the local input has room, hence the precondition.
   */
  function UpdatedLocalInputs(local: seq<real>, x: seq<real>, bias: bool): (r: seq<real>)
    requires bias ==> 0 < |local| && |x| <= |local|
    ensures bias ==> |r| == |local| && r[|local| - 1] == 1.0
    ensures bias ==> forall i :: 0 <= i < |local| - 1 ==> r[i] == if i < |x| then x[i] else local[i]
    ensures !bias ==> r == x
  {
    if bias then Splice(local, x)[|local| - 1 := 1.0] else x
  }

  /**
   * When the local input has the length _resizeLocalInputs gave it for x,
   * updating it from x yields exactly x with the bias slot appended (bias on)
   * or x itself (bias off), whatever it held before.
   */
  lemma UpdatedLocalInputsLayout(local: seq<real>, x: seq<real>, bias: bool)
    requires |local| == LocalSize(|x|, bias)
    ensures UpdatedLocalInputs(local, x, bias) == LocalInputs(x, bias)
    ensures |LocalInputs(x, bias)| == |local|
  {
    if bias {
      var r := UpdatedLocalInputs(local, x, bias);
      assert r[..|x|] == x;
      assert r == r[..|x|] + [1.0];
    }
  }


  /**
   * The layers of _build, before they are connected: one fresh, valid and
   * unconnected layer per entry of sizes, with that many units and the
   * defaults of a new layer, no two sharing an object. The ghost results
   * collect their objects, their units, their output buffers and their
   * error-out buffers.
   */
  method NewLayers(sizes: seq<nat>)
    returns (ls: seq<Layer>, ghost fp: set<object>, ghost lobjs: set<Layer>, ghost uobjs: set<Perceptron>,
             ghost outs: set<Vec>, ghost errs: set<Vec>)
    ensures |ls| == |sizes| && fresh(fp)
    ensures lobjs <= fp && uobjs <= fp && outs <= fp && errs <= fp && outs !! errs
    ensures forall i, k :: 0 <= i < k < |ls| ==> Separate(ls[i], ls[k])
    ensures forall i :: 0 <= i < |ls| ==>
              && ls[i].Footprint() <= fp && ls[i] in lobjs && ls[i].UnitRepr <= uobjs
              && ls[i].outputs in outs && ls[i].deltaSumsOut in errs
    ensures forall i :: 0 <= i < |ls| ==> ls[i].Pristine(sizes[i])
  {
    ls, fp, lobjs, uobjs, outs, errs := [], {}, {}, {}, {}, {};
    while |ls| < |sizes|
      invariant |ls| <= |sizes| && fresh(fp)
      invariant lobjs <= fp && uobjs <= fp && outs <= fp && errs <= fp && outs !! errs
      invariant forall i, k :: 0 <= i < k < |ls| ==> Separate(ls[i], ls[k])
      invariant forall i :: 0 <= i < |ls| ==>
                  && ls[i].Footprint() <= fp && ls[i] in lobjs && ls[i].UnitRepr <= uobjs
                  && ls[i].outputs in outs && ls[i].deltaSumsOut in errs
      invariant forall i :: 0 <= i < |ls| ==> ls[i].Pristine(sizes[i])
    {
      var l := new Layer(sizes[|ls|]);
      ls := ls + [l];
      fp := fp + l.Footprint();
      lobjs := lobjs + {l};
      uobjs := uobjs + l.UnitRepr;
      outs := outs + {l.outputs};
      errs := errs + {l.deltaSumsOut};
    }
  }

  class Network {
    /** m_Inputs: the caller's input valarray. Every setter takes a reference, so it is never null. */
    var inputs: Vec
    /** m_Targets: the caller's target valarray, never null for the same reason. */
    var targets: Vec
    /** m_LocalInputs: what the first layer reads. */
    const localInputs: Vec
    /** m_Layers; their count m_Size never changes after construction. */
    const layers: seq<Layer>
    const size: nat
    var bias: bool
    var trainRate: real
    var act: Activation
    ghost const Repr: set<object>
    /** The layers, their units, their output buffers and their error-out buffers, as sets for frames. */
    ghost const LayerObjs: set<Layer>
    ghost const UnitObjs: set<Perceptron>
    ghost const OutBufs: set<Vec>
    ghost const ErrBufs: set<Vec>

    /**
     * Ownership: at least one layer, each with its own objects, none shared
     * with another layer or with the local input. Fixed at construction.
     */
    ghost predicate Owns()
    {
      && size == |layers| && 1 <= size
      && this in Repr && localInputs in Repr
      && LayerObjs <= Repr && UnitObjs <= Repr && OutBufs <= Repr && ErrBufs <= Repr
      && OutBufs !! ErrBufs && localInputs !in OutBufs && localInputs !in ErrBufs
      && (forall k :: 0 <= k < size ==>
            && layers[k].Owns()
            && layers[k] in LayerObjs && layers[k].UnitRepr <= UnitObjs
            && layers[k].outputs in OutBufs && layers[k].deltaSumsOut in ErrBufs)
      && (forall i, k {:trigger Separate(layers[i], layers[k])} :: 0 <= i < k < size ==> Separate(layers[i], layers[k]))
    }

    /** Two distinct layers share no object. */
    lemma Apart(i: nat, k: nat)
      requires Owns() && i < size && k < size && i != k
      ensures Separate(layers[i], layers[k])
    {
      if k < i {
        assert Separate(layers[k], layers[i]);
      }
    }

    /** Between the state before a step and now, every object of the network outside out is as it was. */
    twostate predicate UnchangedBut(out: set<object>)
      reads *
    {
      forall o :: o in Repr && o !in out ==> unchanged(o)
    }

    /** Layer i shares no object with any other layer. */
    lemma ApartAll(i: nat)
      requires Owns() && i < size
      ensures forall k {:trigger layers[k]} :: 0 <= k < size && k != i ==>
                Separate(layers[k], layers[i]) && Separate(layers[i], layers[k])
    {
      forall k | 0 <= k < size && k != i
        ensures Separate(layers[k], layers[i]) && Separate(layers[i], layers[k])
      {
        Apart(k, i);
        Apart(i, k);
      }
    }

    /** What layer k reads: the local input for the first layer, the outputs of layer k - 1 for the others. */
    function InputVec(k: nat): Vec
      requires Owns() && k < size
    {
      if k == 0 then localInputs else layers[k - 1].outputs
    }

    /**
     * Layer k is valid and linked as _connect links it: it reads InputVec(k)
     * and follows layer k - 1; unless it is the last, layer k + 1 follows it
     * and layer k takes the upstream sums of layer k + 1, whose error-out
     * buffer has one entry per unit of layer k; the last layer takes targets
     * that are no error-out buffer of the network, or nothing. Every unit
     * takes its element of its layer's error source.
     */
    ghost predicate LayerOK(k: nat)
      reads {layers[k]}`errorIn, {layers[k]}`inputs, {layers[k]}`bias, {layers[k]}`prev, {layers[k]}`next
      reads layers[k].outputs`data, layers[k].UnitRepr`error, layers[k].UnitRepr`inputs
      reads (if k + 1 < size then {layers[k + 1].deltaSumsOut} else {})`data
      requires Owns() && k < size
    {
      && layers[k].Valid() && layers[k].Connected()
      && layers[k].prev == (if k == 0 then null else layers[k - 1])
      && layers[k].inputs == InputVec(k)
      && (k + 1 < size ==>
            && layers[k].next == layers[k + 1] && layers[k].errorIn == Upstream(layers[k + 1].deltaSumsOut)
            && |layers[k + 1].deltaSumsOut.data| == layers[k].size)
      && (k + 1 == size ==>
            && layers[k].next == null
            && (layers[k].errorIn.NoSource? || (layers[k].errorIn.Target? && layers[k].errorIn.src !in ErrBufs)))
    }

    /** Every layer is valid and linked. */
    ghost predicate Linked()
      reads LayerObjs`errorIn, LayerObjs`inputs, LayerObjs`bias, LayerObjs`prev, LayerObjs`next
      reads OutBufs`data, ErrBufs`data, UnitObjs`error, UnitObjs`inputs
    {
      Owns() && forall k :: 0 <= k < size ==> LayerOK(k)
    }

    /** Layer k, and so each of its units, carries the network's rate and activation. */
    ghost predicate TunedAt(k: nat)
      reads this`trainRate, this`act, {layers[k]}`trainRate, {layers[k]}`act
      reads layers[k].UnitRepr`trainRate, layers[k].UnitRepr`act
      requires Owns() && k < size
    {
      layers[k].trainRate == trainRate && layers[k].act == act && layers[k].Tuned()
    }

    ghost predicate Tuned()
      reads this`trainRate, this`act, LayerObjs`trainRate, LayerObjs`act, UnitObjs`trainRate, UnitObjs`act
      requires Owns()
    {
      forall k :: 0 <= k < size ==> TunedAt(k)
    }

    /** Every layer but the last carries the network's bias flag; the last never has bias. */
    ghost predicate Biased()
      reads this`bias, LayerObjs`bias
      requires Owns()
    {
      forall k :: 0 <= k < size ==> layers[k].bias == (bias && k < size - 1)
    }

    /** Every unit of layer k has one weight per entry of what its layer reads. */
    ghost predicate Fits(k: nat)
      reads {InputVec(k)}`data, layers[k].UnitRepr`weights
      requires Owns() && k < size
    {
      layers[k].Shaped(|InputVec(k).data|)
    }

    /** Every weight and weighted delta of every unit is 0, as a new network has them. */
    ghost predicate Zeroed()
      reads UnitObjs`weights, UnitObjs`weightedDeltas
      requires Owns()
    {
      forall k, j :: 0 <= k < size && 0 <= j < layers[k].size ==> layers[k].units[j].Zeroed()
    }

    /** No unit holds a weighted sum, an output or a delta other than 0. */
    ghost predicate Idle()
      reads UnitObjs`sumProducts, UnitObjs`output, UnitObjs`delta
      requires Owns()
    {
      forall k, j :: 0 <= k < size && 0 <= j < layers[k].size ==> layers[k].units[j].Idle()
    }

    /** Units whose weighted sums, outputs and deltas are as they were keep Idle. */
    twostate lemma IdleKept()
      requires Owns()
      requires forall u :: u in UnitObjs ==> unchanged(u`sumProducts, u`output, u`delta)
      ensures Idle() == old(Idle())
    {
      forall k, j | 0 <= k < size && 0 <= j < layers[k].size
        ensures layers[k].units[j].Idle() == old(layers[k].units[j].Idle())
      {
        assert layers[k].units[j] in UnitObjs;
      }
    }

    /**
     * The state the constructor leaves: every unit's weights, weighted
     * deltas, weighted sum, output and delta are 0.
     */
    ghost predicate Blank()
      reads UnitObjs
      requires Owns()
    {
      Zeroed() && Idle()
    }

    /**
     * In a blank valid network every unit holds one zero weight per entry
     * of what its layer reads, so its weighted sum is 0 on any input.
     */
    lemma BlankWeights()
      requires Valid() && Blank()
      ensures forall k, j :: 0 <= k < size && 0 <= j < layers[k].size ==>
                && layers[k].units[j].weights == Zeros(|InputVec(k).data|)
                && Dot(layers[k].units[j].weights, InputVec(k).data) == 0.0
    {
      forall k, j | 0 <= k < size && 0 <= j < layers[k].size
        ensures layers[k].units[j].weights == Zeros(|InputVec(k).data|)
        ensures Dot(layers[k].units[j].weights, InputVec(k).data) == 0.0
      {
        assert Fits(k) && layers[k].units[j].Zeroed();
        DotZeros(InputVec(k).data);
      }
    }

    /**
     * Refitting the first layer's units to n inputs, and leaving every other
     * unit's weights alone, keeps a zeroed network zeroed.
     */
    twostate lemma FirstRefitZeroed(new n: nat)
      requires Owns() && old(Zeroed())
      requires forall j :: 0 <= j < layers[0].size ==>
                 && layers[0].units[j].weights == Fit(old(layers[0].units[j].weights), n)
                 && layers[0].units[j].weightedDeltas
                      == FitDeltas(old(layers[0].units[j].weights), old(layers[0].units[j].weightedDeltas), n)
      requires forall u :: u in UnitObjs && u !in layers[0].UnitRepr ==> unchanged(u`weights, u`weightedDeltas)
      ensures Zeroed()
    {
      forall k, j | 0 <= k < size && 0 <= j < layers[k].size
        ensures layers[k].units[j].Zeroed()
      {
        var u := layers[k].units[j];
        assert old(u.Zeroed());
        if k == 0 {
          FitKeepsZeros(old(u.weights), old(u.weightedDeltas), n);
        } else {
          Apart(0, k);
          assert u in UnitObjs && u !in layers[0].UnitRepr;
        }
      }
    }

    ghost predicate WeightsFit()
      reads localInputs`data, OutBufs`data, UnitObjs`weights
      requires Owns()
    {
      forall k :: 0 <= k < size ==> Fits(k)
    }

    ghost predicate Valid()
      reads this`trainRate, this`act, this`bias
      reads LayerObjs`errorIn, LayerObjs`inputs, LayerObjs`bias, LayerObjs`prev, LayerObjs`next, LayerObjs`trainRate, LayerObjs`act
      reads localInputs`data, OutBufs`data, ErrBufs`data
      reads UnitObjs`error, UnitObjs`inputs, UnitObjs`weights, UnitObjs`trainRate, UnitObjs`act
    {
      Linked() && Tuned() && Biased() && WeightsFit()
    }

    /**
     * setInputs: binds the caller's input valarray v, resizes the local input
     * to match it (which zeroes it) and rebinds the first layer to it.
     */
    method SetInputs(v: Vec)
      requires Valid() && v != localInputs
      modifies this`inputs, localInputs
      modifies {layers[0]}`inputs, layers[0].UnitRepr`inputs, layers[0].UnitRepr`weights, layers[0].UnitRepr`weightedDeltas
      ensures Valid() && inputs == v
      ensures localInputs.data == Zeros(LocalSize(old(|v.data|), bias))
      ensures forall j :: 0 <= j < layers[0].size ==>
                && layers[0].units[j].weights == Fit(old(layers[0].units[j].weights), LocalSize(|v.data|, bias))
                && layers[0].units[j].weightedDeltas
                     == FitDeltas(old(layers[0].units[j].weights), old(layers[0].units[j].weightedDeltas), LocalSize(|v.data|, bias))
    {
      inputs := v;
      ResizeAndConnectInputs();
    }

    /**
     * setTargets: records v and offers it to the last layer, which takes it
     * only when v has one element per unit of that layer.
     */
    method SetTargets(v: Vec)
      requires Valid() && v !in ErrBufs
      modifies this`targets, {layers[size - 1]}`errorIn, layers[size - 1].UnitRepr`error
      ensures Valid() && targets == v
      ensures |v.data| == layers[size - 1].size ==> layers[size - 1].errorIn == Target(v)
      ensures |v.data| != layers[size - 1].size ==> layers[size - 1].errorIn == old(layers[size - 1].errorIn)
    {
      targets := v;
      RetargetLast();
      TunedKept();
    }

    /** _connectTargets on a connected network. */
    method RetargetLast()
      requires Linked() && targets !in ErrBufs
      modifies {layers[size - 1]}`errorIn, layers[size - 1].UnitRepr`error
      ensures Linked()
      ensures |targets.data| == layers[size - 1].size ==> layers[size - 1].errorIn == Target(targets)
      ensures |targets.data| != layers[size - 1].size ==> layers[size - 1].errorIn == old(layers[size - 1].errorIn)
    {
      assert LayerOK(size - 1);
      ConnectTargets();
      assert LayerOK(size - 1);
      LinkedBesides(size - 1);
    }

    /**
     * A change confined to layer i and its units, after which layer i is
     * still linked, keeps the whole network linked, and keeps the weights of
     * every other layer fitting what it reads.
     */
    twostate lemma LinkedBesides(new i: nat)
      requires old(Linked()) && Owns() && i < size && LayerOK(i)
      requires unchanged(LayerObjs - {layers[i]}) && unchanged(UnitObjs - layers[i].UnitRepr)
      requires unchanged(OutBufs) && unchanged(ErrBufs) && unchanged(localInputs)
      ensures Linked()
      ensures forall k :: 0 <= k < size && k != i && old(Fits(k)) ==> Fits(k)
    {
      ApartAll(i);
      forall k | 0 <= k < size && k != i
        ensures LayerOK(k)
        ensures old(Fits(k)) ==> Fits(k)
      {
        assert old(LayerOK(k));
      }
    }

    /** setTrainRate: the same rate for the network and every layer (and so every unit). */
    method SetTrainRate(rate: real)
      requires Valid()
      modifies this`trainRate, LayerObjs`trainRate, UnitObjs`trainRate
      ensures Valid() && trainRate == rate
      ensures forall k :: 0 <= k < size ==> layers[k].trainRate == rate
      ensures forall k :: 0 <= k < size ==> layers[k].outputs.data == old(layers[k].outputs.data)
      ensures Zeroed() == old(Zeroed())
    {
      forall k | 0 <= k < size
        ensures layers[k].act == act && layers[k].Tuned()
      {
        assert TunedAt(k);
      }
      trainRate := rate;
      for i := 0 to size
        invariant trainRate == rate
        invariant RatedBelow(i)
      {
        RateNext(i);
      }
      forall k | 0 <= k < size
        ensures layers[k].trainRate == rate
      {
        assert TunedAt(k);
      }
    }

    /**
     * The state of setTrainRate's loop once layers 0 .. i - 1 have taken the
     * network's rate: the network is linked, biased and fits as before, those
     * layers are tuned, and the others keep the network's activation.
     */
    ghost predicate RatedBelow(i: nat)
      reads *
    {
      && Linked() && Biased() && WeightsFit()
      && (forall k :: 0 <= k < i && k < size ==> TunedAt(k))
      && (forall k :: i <= k < size ==> layers[k].act == act && layers[k].Tuned())
    }

    /** One iteration of setTrainRate's loop. */
    method RateNext(i: nat)
      requires i < size && RatedBelow(i)
      modifies {layers[i]}`trainRate, layers[i].UnitRepr`trainRate
      ensures RatedBelow(i + 1)
    {
      ApartAll(i);
      SetLayerTrainRate(i);
    }

    /** One step of setTrainRate: layer i takes the network's rate. */
    method SetLayerTrainRate(i: nat)
      requires Linked() && i < size && layers[i].act == act && layers[i].Tuned()
      modifies {layers[i]}`trainRate, layers[i].UnitRepr`trainRate
      ensures TunedAt(i) && layers[i].trainRate == trainRate
    {
      assert LayerOK(i);
      layers[i].SetTrainRate(trainRate);
    }

    /** setActivation: the same activation for the network and every layer (and so every unit). */
    method SetActivation(kind: Activation)
      requires Valid()
      modifies this`act, LayerObjs`act, UnitObjs`act
      ensures Valid() && act == kind
      ensures forall k :: 0 <= k < size ==> layers[k].act == kind
      ensures forall k :: 0 <= k < size ==> layers[k].outputs.data == old(layers[k].outputs.data)
      ensures Zeroed() == old(Zeroed())
    {
      forall k | 0 <= k < size
        ensures layers[k].trainRate == trainRate && layers[k].Tuned()
      {
        assert TunedAt(k);
      }
      act := kind;
      for i := 0 to size
        invariant act == kind
        invariant ActivatedBelow(i)
      {
        ActivateNext(i);
      }
      forall k | 0 <= k < size
        ensures layers[k].act == kind
      {
        assert TunedAt(k);
      }
    }

    /**
     * The state of setActivation's loop once layers 0 .. i - 1 have taken the
     * network's activation: the network is linked, biased and fits as before,
     * those layers are tuned, and the others keep the network's rate.
     */
    ghost predicate ActivatedBelow(i: nat)
      reads *
    {
      && Linked() && Biased() && WeightsFit()
      && (forall k :: 0 <= k < i && k < size ==> TunedAt(k))
      && (forall k :: i <= k < size ==> layers[k].trainRate == trainRate && layers[k].Tuned())
    }

    /** One iteration of setActivation's loop. */
    method ActivateNext(i: nat)
      requires i < size && ActivatedBelow(i)
      modifies {layers[i]}`act, layers[i].UnitRepr`act
      ensures ActivatedBelow(i + 1)
    {
      ApartAll(i);
      SetLayerActivation(i);
    }

    /** One step of setActivation: layer i takes the network's activation. */
    method SetLayerActivation(i: nat)
      requires Linked() && i < size && layers[i].trainRate == trainRate && layers[i].Tuned()
      modifies {layers[i]}`act, layers[i].UnitRepr`act
      ensures TunedAt(i) && layers[i].act == act
    {
      assert LayerOK(i);
      layers[i].SetActivation(act);
    }

    /**
     * setBias: every layer but the last is rebuilt with bias b, in order, and
     * the last without bias; then the local input is resized for b and the
     * first layer rebound to it. Rebuilding in increasing order and rebinding
     * the first layer last leaves every layer's weights fitting what it reads.
     */
    method SetBias(b: bool)
      requires Linked() && Tuned() && inputs !in Repr
      modifies this`bias, localInputs, LayerObjs`bias, LayerObjs`inputs, LayerObjs`next, LayerObjs`errorIn
      modifies OutBufs, ErrBufs, UnitObjs`inputs, UnitObjs`weights, UnitObjs`weightedDeltas, UnitObjs`error
      ensures Valid() && bias == b
      ensures localInputs.data == Zeros(LocalSize(old(|inputs.data|), b))
      ensures forall k :: 0 <= k < size ==> layers[k].outputs.data == BuiltOutputs(layers[k].size, b && k < size - 1)
      ensures layers[size - 1].errorIn == old(layers[size - 1].errorIn)
      ensures forall k :: 0 < k < size ==>
                layers[k].RefitFrom(old(layers[k].Weights()), old(layers[k].WeightedDeltas()), |InputVec(k).data|)
      ensures forall j :: 0 <= j < layers[0].size ==>
                && layers[0].units[j].weights
                     == Fit(Fit(old(layers[0].units[j].weights), old(|localInputs.data|)), |localInputs.data|)
                && layers[0].units[j].weightedDeltas
                     == FitDeltas(Fit(old(layers[0].units[j].weights), old(|localInputs.data|)),
                                  FitDeltas(old(layers[0].units[j].weights), old(layers[0].units[j].weightedDeltas), old(|localInputs.data|)),
                                  |localInputs.data|)
    {
      ghost var W, D := Snapshot();
      bias := b;
      RebuildAll(W, D);
      RebindFirst(W, D);
    }

    /**
     * What setBias does to the layers after the first, whose input is their
     * predecessor's output buffer: setting the flag the network already has
     * keeps their weights and weighted deltas, and toggling it changes the
     * length of every such input by one, so it zeroes them all.
     */
    twostate lemma BiasRefits()
      requires old(Valid()) && Valid()
      requires forall k :: 0 < k < size ==>
                 layers[k].RefitFrom(old(layers[k].Weights()), old(layers[k].WeightedDeltas()), |InputVec(k).data|)
      ensures bias == old(bias) ==> forall k, j :: 0 < k < size && 0 <= j < layers[k].size ==>
                && layers[k].units[j].weights == old(layers[k].units[j].weights)
                && layers[k].units[j].weightedDeltas == old(layers[k].units[j].weightedDeltas)
      ensures bias != old(bias) ==> forall k, j :: 0 < k < size && 0 <= j < layers[k].size ==>
                && layers[k].units[j].weights == Zeros(|InputVec(k).data|)
                && layers[k].units[j].weightedDeltas == Zeros(|InputVec(k).data|)
    {
      forall k, j | 0 < k < size && 0 <= j < layers[k].size
        ensures bias == old(bias) ==>
                  && layers[k].units[j].weights == old(layers[k].units[j].weights)
                  && layers[k].units[j].weightedDeltas == old(layers[k].units[j].weightedDeltas)
        ensures bias != old(bias) ==>
                  && layers[k].units[j].weights == Zeros(|InputVec(k).data|)
                  && layers[k].units[j].weightedDeltas == Zeros(|InputVec(k).data|)
      {
        var p := layers[k - 1];
        assert old(LayerOK(k - 1) && Fits(k)) && LayerOK(k - 1);
        assert old(p.bias) == old(bias) && p.bias == bias;
        assert old(|layers[k].units[j].weights|) == old(|p.outputs.data|);
        assert old(layers[k].Weights())[j] == old(layers[k].units[j].weights);
        assert old(layers[k].WeightedDeltas())[j] == old(layers[k].units[j].weightedDeltas);
      }
    }

    /** The refits of setBias keep a zeroed network zeroed. */
    twostate lemma BiasKeepsZeroed()
      requires Owns() && old(Zeroed())
      requires forall k :: 0 < k < size ==>
                 layers[k].RefitFrom(old(layers[k].Weights()), old(layers[k].WeightedDeltas()), |InputVec(k).data|)
      requires forall j :: 0 <= j < layers[0].size ==>
                 && layers[0].units[j].weights
                      == Fit(Fit(old(layers[0].units[j].weights), old(|localInputs.data|)), |localInputs.data|)
                 && layers[0].units[j].weightedDeltas
                      == FitDeltas(Fit(old(layers[0].units[j].weights), old(|localInputs.data|)),
                                   FitDeltas(old(layers[0].units[j].weights), old(layers[0].units[j].weightedDeltas), old(|localInputs.data|)),
                                   |localInputs.data|)
      ensures Zeroed()
    {
      forall k, j | 0 <= k < size && 0 <= j < layers[k].size
        ensures layers[k].units[j].Zeroed()
      {
        var u := layers[k].units[j];
        assert old(u.Zeroed());
        if k == 0 {
          var n0 := old(|localInputs.data|);
          FitKeepsZeros(old(u.weights), old(u.weightedDeltas), n0);
          FitKeepsZeros(Fit(old(u.weights), n0), FitDeltas(old(u.weights), old(u.weightedDeltas), n0), |localInputs.data|);
        } else {
          assert old(layers[k].Weights())[j] == old(u.weights);
          assert old(layers[k].WeightedDeltas())[j] == old(u.weightedDeltas);
          FitKeepsZeros(old(u.weights), old(u.weightedDeltas), |InputVec(k).data|);
        }
      }
    }

    /**
     * The end of setBias: _resizeLocalInputs and _connectInputs after the
     * rebuilds, which leave every layer holding W and D refitted to what it
     * reads. The first layer is refitted once more, to the resized local
     * input; the others keep their weights.
     */
    method RebindFirst(ghost W: seq<seq<seq<real>>>, ghost D: seq<seq<seq<real>>>)
      requires Linked() && Tuned() && Biased() && (forall k :: 0 < k < size ==> Fits(k)) && RefitBelow(size, W, D)
      modifies localInputs
      modifies {layers[0]}`inputs, layers[0].UnitRepr`inputs, layers[0].UnitRepr`weights, layers[0].UnitRepr`weightedDeltas
      ensures Valid()
      ensures localInputs.data == Zeros(LocalSize(old(|inputs.data|), bias))
      ensures forall k :: 0 <= k < size ==> layers[k].outputs.data == old(layers[k].outputs.data)
      ensures layers[size - 1].errorIn == old(layers[size - 1].errorIn)
      ensures forall k :: 0 < k < size ==> layers[k].RefitFrom(W[k], D[k], |InputVec(k).data|)
      ensures forall j :: 0 <= j < layers[0].size ==>
                && layers[0].units[j].weights == Fit(Fit(W[0][j], old(|localInputs.data|)), |localInputs.data|)
                && layers[0].units[j].weightedDeltas
                     == FitDeltas(Fit(W[0][j], old(|localInputs.data|)), FitDeltas(W[0][j], D[0][j], old(|localInputs.data|)),
                                  |localInputs.data|)
    {
      label Rebuilt:
      ResizeAndConnectInputs();
      forall k | 0 < k < size
        ensures layers[k].RefitFrom(W[k], D[k], |InputVec(k).data|)
      {
        FirstRebindKeeps@Rebuilt(k, W[k], D[k]);
      }
    }

    /** Rebinding the first layer keeps the weights of every later layer and what it reads. */
    twostate lemma FirstRebindKeeps(new k: nat, new Wk: seq<seq<real>>, new Dk: seq<seq<real>>)
      requires Owns() && 0 < k < size
      requires forall u :: u in UnitObjs && u !in layers[0].UnitRepr ==> unchanged(u`weights, u`weightedDeltas)
      requires forall v :: v in OutBufs ==> unchanged(v)
      requires old(layers[k].RefitFrom(Wk, Dk, |InputVec(k).data|))
      ensures layers[k].RefitFrom(Wk, Dk, |InputVec(k).data|)
    {
      Apart(0, k);
      layers[k].KeepsWeights(Wk, Dk, |InputVec(k).data|);
    }

    /**
     * The rebuilds of setBias: every layer but the last takes the network's
     * bias flag, in increasing order, and the last layer none. W and D are
     * the weights and weighted deltas before; afterwards every layer holds
     * them refitted to what it then reads.
     */
    method RebuildAll(ghost W: seq<seq<seq<real>>>, ghost D: seq<seq<seq<real>>>)
      requires Linked() && Tuned() && inputs !in Repr && RefitBelow(0, W, D)
      modifies LayerObjs`bias, LayerObjs`inputs, LayerObjs`next, LayerObjs`errorIn
      modifies OutBufs, ErrBufs, UnitObjs`inputs, UnitObjs`weights, UnitObjs`weightedDeltas, UnitObjs`error
      ensures Linked() && Tuned() && Biased() && inputs.data == old(inputs.data)
      ensures forall k :: 0 < k < size ==> Fits(k)
      ensures forall k :: 0 <= k < size ==> layers[k].outputs.data == BuiltOutputs(layers[k].size, bias && k < size - 1)
      ensures layers[size - 1].errorIn == old(layers[size - 1].errorIn)
      ensures RefitBelow(size, W, D)
    {
      ghost var e := layers[size - 1].errorIn;
      RebuildLayers(bias, e, W, D);
      RebuildLast(bias, e, W, D);
      TunedKept();
    }

    /** The weights and weighted deltas every layer holds now. */
    lemma Snapshot() returns (W: seq<seq<seq<real>>>, D: seq<seq<seq<real>>>)
      requires Owns()
      ensures RefitBelow(0, W, D) && StepsFrom(size, W, D)
      ensures forall k {:trigger W[k]} :: 0 <= k < size ==> W[k] == layers[k].Weights() && D[k] == layers[k].WeightedDeltas()
    {
      W := seq(size, k requires 0 <= k < size reads * => layers[k].Weights());
      D := seq(size, k requires 0 <= k < size reads * => layers[k].WeightedDeltas());
    }

    /**
     * The weights of setBias's loop after layers 0 .. i - 1 have been
     * rebuilt: those layers hold W and D refitted to what they read, the
     * others still hold W and D.
     */
    ghost predicate RefitBelow(i: nat, W: seq<seq<seq<real>>>, D: seq<seq<seq<real>>>)
      reads localInputs`data, OutBufs`data, UnitObjs`weights, UnitObjs`weightedDeltas
    {
      && Owns() && |W| == size && |D| == size
      && (forall k {:trigger W[k]} :: 0 <= k < i && k < size ==> layers[k].RefitFrom(W[k], D[k], |InputVec(k).data|))
      && (forall k {:trigger W[k]} :: i <= k < size ==> layers[k].HasWeights(W[k], D[k]))
    }

    /** Rebuilding layer i refits its weights and leaves every other layer's weights and inputs alone. */
    twostate lemma RefitAdvance(new i: nat, new W: seq<seq<seq<real>>>, new D: seq<seq<seq<real>>>)
      requires old(RefitBelow(i, W, D)) && i < size && RebuildStep(i) && Linked()
      ensures RefitBelow(i + 1, W, D)
    {
      assert LayerOK(i);
      forall k | 0 <= k <= i
        ensures layers[k].RefitFrom(W[k], D[k], |InputVec(k).data|)
      {
        if k == i {
          RefitHere(i, W[i], D[i]);
        } else {
          RefitKept(i, k, W[k], D[k]);
        }
      }
      forall k | i < k < size
        ensures layers[k].HasWeights(W[k], D[k])
      {
        WeightsKept(i, k, W[k], D[k]);
      }
    }

    /** The rebuilt layer i holds the weights it held before, refitted to what it reads. */
    twostate lemma RefitHere(new i: nat, new Wi: seq<seq<real>>, new Di: seq<seq<real>>)
      requires Owns() && i < size && old(layers[i].HasWeights(Wi, Di))
      requires layers[i].Refitted() && layers[i].inputs == InputVec(i)
      ensures layers[i].RefitFrom(Wi, Di, |InputVec(i).data|)
    {
      layers[i].RefitSnapshot(Wi, Di);
    }

    /** Rebuilding layer i keeps the refitted weights of an earlier layer k, and the length of what it reads. */
    twostate lemma RefitKept(new i: nat, new k: nat, new Wk: seq<seq<real>>, new Dk: seq<seq<real>>)
      requires Owns() && k < i < size && RebuildStep(i)
      requires layers[i].prev == layers[i - 1]
      requires old(layers[k].RefitFrom(Wk, Dk, |InputVec(k).data|))
      ensures layers[k].RefitFrom(Wk, Dk, |InputVec(k).data|)
    {
      UnitsKept(i, k);
      InputKept(i, k);
      layers[k].KeepsWeights(Wk, Dk, |InputVec(k).data|);
    }

    /** Rebuilding layer i keeps what an earlier layer k reads. */
    twostate lemma InputKept(new i: nat, new k: nat)
      requires Owns() && k < i < size && RebuildStep(i)
      ensures InputVec(k).data == old(InputVec(k).data)
    {
      if 0 < k {
        Apart(k - 1, i);
      }
    }

    /** Rebuilding layer i keeps the weights of a later layer k. */
    twostate lemma WeightsKept(new i: nat, new k: nat, new Wk: seq<seq<real>>, new Dk: seq<seq<real>>)
      requires Owns() && i < k < size && RebuildStep(i)
      requires layers[i].prev == (if i == 0 then null else layers[i - 1])
      requires old(layers[k].HasWeights(Wk, Dk))
      ensures layers[k].HasWeights(Wk, Dk)
    {
      UnitsKept(i, k);
      layers[k].KeepsWeights(Wk, Dk, 0);
    }

    /** Rebuilding layer i keeps the weights and weighted deltas of every unit of every other layer k. */
    twostate lemma UnitsKept(new i: nat, new k: nat)
      requires Owns() && i < size && k < size && k != i && RebuildStep(i)
      requires layers[i].prev == (if i == 0 then null else layers[i - 1])
      ensures forall j :: 0 <= j < |layers[k].units| ==>
                unchanged({layers[k].units[j]}`weights, {layers[k].units[j]}`weightedDeltas)
    {
      Apart(k, i);
      if 0 < i && k != i - 1 {
        Apart(k, i - 1);
      }
    }

    /** Tuned survives any change that keeps every rate and activation of the network. */
    twostate lemma TunedKept()
      requires Owns() && old(Tuned()) && unchanged(this`trainRate, this`act)
      requires forall l :: l in LayerObjs ==> unchanged(l`trainRate, l`act)
      requires forall u :: u in UnitObjs ==> unchanged(u`trainRate, u`act)
      ensures Tuned()
    {
      forall k | 0 <= k < size
        ensures TunedAt(k)
      {
        assert old(TunedAt(k));
      }
    }

    /** The loop of setBias: every layer but the last, in increasing order, takes bias flag b. */
    method RebuildLayers(b: bool, ghost e: ErrorSource<Vec>, ghost W: seq<seq<seq<real>>>, ghost D: seq<seq<seq<real>>>)
      requires Linked() && layers[size - 1].errorIn == e && RefitBelow(0, W, D)
      modifies LayerObjs`bias, LayerObjs`inputs, LayerObjs`next, LayerObjs`errorIn
      modifies OutBufs, ErrBufs, UnitObjs`inputs, UnitObjs`weights, UnitObjs`weightedDeltas, UnitObjs`error
      ensures RebuiltBelow(size - 1, b, e) && RefitBelow(size - 1, W, D)
      ensures unchanged(this)
    {
      for i := 0 to size - 1
        invariant RebuiltBelow(i, b, e) && RefitBelow(i, W, D)
      {
        RebuildNext(i, b, e, W, D);
      }
    }

    /** One iteration of setBias's loop: layer i takes flag b. */
    method RebuildNext(i: nat, b: bool, ghost e: ErrorSource<Vec>, ghost W: seq<seq<seq<real>>>, ghost D: seq<seq<seq<real>>>)
      requires Owns() && i + 1 < size && RebuiltBelow(i, b, e) && RefitBelow(i, W, D)
      modifies {layers[i]}`bias, {layers[i]}`inputs, layers[i].outputs, layers[i].deltaSumsOut
      modifies layers[i].UnitRepr`inputs, layers[i].UnitRepr`weights, layers[i].UnitRepr`weightedDeltas, layers[i].UnitRepr`error
      modifies (if 0 < i then {layers[i - 1]} else {})`next, (if 0 < i then {layers[i - 1]} else {})`errorIn
      modifies (if 0 < i then layers[i - 1].UnitRepr else {})`error
      modifies {layers[i + 1].deltaSumsOut}
      ensures RebuiltBelow(i + 1, b, e) && RefitBelow(i + 1, W, D)
    {
      assert LayerOK(i) && LayerOK(i + 1);
      if 0 < i {
        assert LayerOK(i - 1);
      }
      RebuildLayer(i, b);
      Advance(i, b, W, D);
    }

    /**
     * The state of setBias's loop after layers 0 .. i - 1 have been rebuilt
     * with flag b: the network is linked, those layers carry b and their
     * rebuilt outputs, layers 1 .. i - 1 have weights that fit, and the last
     * layer still has error source e.
     */
    ghost predicate RebuiltBelow(i: nat, b: bool, e: ErrorSource<Vec>)
      reads *
    {
      && Linked()
      && layers[size - 1].errorIn == e
      && (forall k :: 0 <= k < i && k < size ==>
            layers[k].bias == b && layers[k].outputs.data == BuiltOutputs(layers[k].size, b))
      && (forall k :: 0 < k < i && k < size ==> Fits(k))
    }

    /** One more layer rebuilt with flag b extends RebuiltBelow by one. */
    twostate lemma Advance(new i: nat, new b: bool, new W: seq<seq<seq<real>>>, new D: seq<seq<seq<real>>>)
      requires old(Owns() && RebuiltBelow(i, b, layers[size - 1].errorIn)) && i + 1 < size && RebuildStep(i)
      requires old(RefitBelow(i, W, D))
      requires layers[i].bias == b && layers[i].outputs.data == BuiltOutputs(layers[i].size, b)
      ensures RebuiltBelow(i + 1, b, old(layers[size - 1].errorIn)) && RefitBelow(i + 1, W, D)
    {
      Rebuilt(i);
      RefitAdvance(i, W, D);
      assert layers[size - 1].errorIn == old(layers[size - 1].errorIn) by {
        assert old(LayerOK(i));
        ApartAll(size - 1);
      }
    }

    /**
     * The state after setBias has rebuilt every layer: the network is linked,
     * every layer but the last carries flag b and the last carries none, every
     * layer has its rebuilt outputs, the weights of every layer after the
     * first fit, and the last layer still has error source e.
     */
    ghost predicate RebuiltAll(b: bool, e: ErrorSource<Vec>)
      reads *
    {
      && Linked()
      && layers[size - 1].errorIn == e
      && (forall k :: 0 <= k < size ==>
            layers[k].bias == (b && k < size - 1) && layers[k].outputs.data == BuiltOutputs(layers[k].size, b && k < size - 1))
      && (forall k :: 0 < k < size ==> Fits(k))
    }

    /** The last layer is rebuilt without bias. */
    method RebuildLast(b: bool, ghost e: ErrorSource<Vec>, ghost W: seq<seq<seq<real>>>, ghost D: seq<seq<seq<real>>>)
      requires Owns() && RebuiltBelow(size - 1, b, e) && RefitBelow(size - 1, W, D)
      modifies {layers[size - 1]}`bias, {layers[size - 1]}`inputs, layers[size - 1].outputs, layers[size - 1].deltaSumsOut
      modifies layers[size - 1].UnitRepr`inputs, layers[size - 1].UnitRepr`weights
      modifies layers[size - 1].UnitRepr`weightedDeltas, layers[size - 1].UnitRepr`error
      modifies (if 1 < size then {layers[size - 2]} else {})`next, (if 1 < size then {layers[size - 2]} else {})`errorIn
      modifies (if 1 < size then layers[size - 2].UnitRepr else {})`error
      ensures RebuiltAll(b, e) && RefitBelow(size, W, D)
    {
      assert LayerOK(size - 1);
      if 1 < size {
        assert LayerOK(size - 2);
      }
      RebuildLayer(size - 1, false);
      Finish(b, W, D);
    }

    /** Rebuilding the last layer without bias completes setBias's rebuild. */
    twostate lemma Finish(new b: bool, new W: seq<seq<seq<real>>>, new D: seq<seq<seq<real>>>)
      requires Owns() && old(RebuiltBelow(size - 1, b, layers[size - 1].errorIn)) && RebuildStep(size - 1)
      requires old(RefitBelow(size - 1, W, D))
      requires !layers[size - 1].bias && layers[size - 1].outputs.data == BuiltOutputs(layers[size - 1].size, false)
      ensures RebuiltAll(b, old(layers[size - 1].errorIn)) && RefitBelow(size, W, D)
    {
      Rebuilt(size - 1);
      RefitAdvance(size - 1, W, D);
    }

    /** Layer i takes bias flag b and is rebuilt, which keeps the network linked. */
    method RebuildLayer(i: nat, b: bool)
      requires Owns() && i < size && layers[i].Coherent() && (0 < i ==> layers[i - 1].Valid())
      requires layers[i].prev == (if i == 0 then null else layers[i - 1])
      requires layers[i].next == (if i + 1 < size then layers[i + 1] else null)
      modifies {layers[i]}`bias, {layers[i]}`inputs, layers[i].outputs, layers[i].deltaSumsOut
      modifies layers[i].UnitRepr`inputs, layers[i].UnitRepr`weights, layers[i].UnitRepr`weightedDeltas, layers[i].UnitRepr`error
      modifies (if 0 < i then {layers[i - 1]} else {})`next, (if 0 < i then {layers[i - 1]} else {})`errorIn
      modifies (if 0 < i then layers[i - 1].UnitRepr else {})`error
      modifies if i + 1 < size then {layers[i + 1].deltaSumsOut} else {}
      ensures layers[i].bias == b && layers[i].outputs.data == BuiltOutputs(layers[i].size, b)
      ensures RebuildStep(i)
    {
      if 0 < i {
        Apart(i - 1, i);
      }
      if i + 1 < size {
        Apart(i + 1, i);
        if 0 < i {
          Apart(i - 1, i + 1);
        }
      }
      SetLayerBias(i, b);
      RebuildFramed(i);
    }

    /** Layer i takes bias flag b and is rebuilt, relinking its neighbours to it. */
    method SetLayerBias(i: nat, b: bool)
      requires size == |layers| && i < size && layers[i].Coherent() && (0 < i ==> layers[i - 1].Valid())
      requires layers[i].prev == (if i == 0 then null else layers[i - 1])
      requires layers[i].next == (if i + 1 < size then layers[i + 1] else null)
      requires 0 < i ==> Separate(layers[i - 1], layers[i])
      requires i + 1 < size ==> Separate(layers[i + 1], layers[i])
      requires 0 < i && i + 1 < size ==> Separate(layers[i - 1], layers[i + 1])
      modifies {layers[i]}`bias, {layers[i]}`inputs, layers[i].outputs, layers[i].deltaSumsOut
      modifies layers[i].UnitRepr`inputs, layers[i].UnitRepr`weights, layers[i].UnitRepr`weightedDeltas, layers[i].UnitRepr`error
      modifies (if 0 < i then {layers[i - 1]} else {})`next, (if 0 < i then {layers[i - 1]} else {})`errorIn
      modifies (if 0 < i then layers[i - 1].UnitRepr else {})`error
      modifies if i + 1 < size then {layers[i + 1].deltaSumsOut} else {}
      ensures layers[i].bias == b && layers[i].outputs.data == BuiltOutputs(layers[i].size, b)
      ensures RebuildEffect(i)
    {
      layers[i].SetBias(b);
    }

    /**
     * What a rebuild of layer i does, between the state before it and now:
     * layer i, its previous layer and the error-out buffer of its next layer
     * change as the layer's setBias says, and no other object of the network
     * changes.
     */
    twostate predicate RebuildStep(i: nat)
      reads *
      requires size == |layers| && i < size
    {
      && (forall l :: l in LayerObjs && l != layers[i] && l != layers[i].prev ==> unchanged(l))
      && (forall u :: u in UnitObjs && u !in layers[i].UnitRepr && u !in UnitReprOf(layers[i].prev) ==> unchanged(u))
      && (forall v :: v in OutBufs && v != layers[i].outputs ==> unchanged(v))
      && (forall v :: v in ErrBufs && v != layers[i].deltaSumsOut && v !in ErrorOutOf(layers[i].next) ==> unchanged(v))
      && unchanged(localInputs)
      && (unchanged({layers[i]}`prev, {layers[i]}`next, {layers[i]}`errorIn))
      && (unchanged(LayerSet(layers[i].prev)`prev, LayerSet(layers[i].prev)`inputs, LayerSet(layers[i].prev)`bias))
      && (forall u :: u in UnitReprOf(layers[i].prev) ==> unchanged(u`inputs, u`weights, u`weightedDeltas))
      && layers[i].Rebuilt()
    }

    /**
     * What a rebuild of layer i does, as its callee's frame gives it: the
     * objects of the network other than layer i, its previous layer, their
     * units and buffers and the error-out buffer of the next layer are as
     * they were, and those change as the layer's setBias says.
     */
    twostate predicate RebuildEffect(i: nat)
      reads *
      requires size == |layers| && i < size
    {
      && UnchangedBut(RebuiltObjs(i))
      && (unchanged({layers[i]}`prev, {layers[i]}`next, {layers[i]}`errorIn))
      && (unchanged(LayerSet(layers[i].prev)`prev, LayerSet(layers[i].prev)`inputs, LayerSet(layers[i].prev)`bias))
      && (forall u :: u in UnitReprOf(layers[i].prev) ==> unchanged(u`inputs, u`weights, u`weightedDeltas))
      && layers[i].Rebuilt()
    }

    /** The objects rebuilding layer i may change. */
    ghost function RebuiltObjs(i: nat): set<object>
      requires size == |layers| && i < size
    {
      {layers[i], layers[i].outputs, layers[i].deltaSumsOut} + layers[i].UnitRepr
        + (if 0 < i then {layers[i - 1]} + layers[i - 1].UnitRepr else {})
        + (if i + 1 < size then {layers[i + 1].deltaSumsOut} else {})
    }

    /** The effect of rebuilding layer i, restated object kind by object kind. */
    twostate lemma RebuildFramed(new i: nat)
      requires size == |layers| && i < size && RebuildEffect(i)
      requires LayerObjs <= Repr && UnitObjs <= Repr && OutBufs <= Repr && ErrBufs <= Repr && OutBufs !! ErrBufs
      requires localInputs in Repr && localInputs !in OutBufs && localInputs !in ErrBufs
      requires layers[i].outputs in OutBufs && layers[i].deltaSumsOut in ErrBufs
      requires i + 1 < size ==> layers[i + 1].deltaSumsOut in ErrBufs
      requires layers[i].prev == (if i == 0 then null else layers[i - 1])
      requires layers[i].next == (if i + 1 < size then layers[i + 1] else null)
      ensures RebuildStep(i)
    {
      RebuildKeepsLayers(i);
      RebuildKeepsBuffers(i);
    }

    /** Rebuilding layer i leaves every other layer but its previous one, and their units, as they were. */
    twostate lemma RebuildKeepsLayers(new i: nat)
      requires size == |layers| && i < size && UnchangedBut(RebuiltObjs(i))
      requires LayerObjs <= Repr && UnitObjs <= Repr
      requires layers[i].prev == (if i == 0 then null else layers[i - 1])
      ensures forall l :: l in LayerObjs && l != layers[i] && l != layers[i].prev ==> unchanged(l)
      ensures forall u :: u in UnitObjs && u !in layers[i].UnitRepr && u !in UnitReprOf(layers[i].prev) ==> unchanged(u)
    {
      forall l | l in LayerObjs && l != layers[i] && l != layers[i].prev
        ensures unchanged(l)
      {
        assert l in Repr;
      }
      forall u | u in UnitObjs && u !in layers[i].UnitRepr && u !in UnitReprOf(layers[i].prev)
        ensures unchanged(u)
      {
        assert u in Repr;
      }
    }

    /** Rebuilding layer i leaves every buffer but its own and the next layer's error-out buffer as it was. */
    twostate lemma RebuildKeepsBuffers(new i: nat)
      requires size == |layers| && i < size && UnchangedBut(RebuiltObjs(i))
      requires OutBufs <= Repr && ErrBufs <= Repr && OutBufs !! ErrBufs
      requires localInputs in Repr && localInputs !in OutBufs && localInputs !in ErrBufs
      requires layers[i].outputs in OutBufs && layers[i].deltaSumsOut in ErrBufs
      requires i + 1 < size ==> layers[i + 1].deltaSumsOut in ErrBufs
      requires layers[i].next == (if i + 1 < size then layers[i + 1] else null)
      ensures forall v :: v in OutBufs && v != layers[i].outputs ==> unchanged(v)
      ensures forall v :: v in ErrBufs && v != layers[i].deltaSumsOut && v !in ErrorOutOf(layers[i].next) ==> unchanged(v)
      ensures unchanged(localInputs)
    {
      forall v | v in OutBufs && v != layers[i].outputs
        ensures unchanged(v)
      {
        assert v in Repr && v !in ErrBufs;
      }
      forall v | v in ErrBufs && v != layers[i].deltaSumsOut && v !in ErrorOutOf(layers[i].next)
        ensures unchanged(v)
      {
        assert v in Repr && v !in OutBufs;
      }
    }

    /**
     * After layer i has been rebuilt in place (its previous layer relinked to
     * it, the error-out buffer of the next one resized) and nothing else has
     * changed, the network is linked again, layer i's weights fit, and every
     * other layer keeps its flag, its outputs and, unless it reads layer i,
     * the fit of its weights.
     */
    twostate lemma Rebuilt(i: nat)
      requires old(Linked()) && i < size && RebuildStep(i)
      ensures Linked() && (0 < i ==> Fits(i))
      ensures forall k :: 0 <= k < size && k != i ==>
                layers[k].bias == old(layers[k].bias) && layers[k].outputs.data == old(layers[k].outputs.data)
      ensures forall k :: 0 < k < size && k != i && k != i + 1 ==> old(Fits(k)) ==> Fits(k)
    {
      assert old(LayerOK(i));
      assert LayerOK(i);
      if 0 < i {
        assert old(LayerOK(i - 1));
        assert LayerOK(i - 1);
      }
      LinkedAround(i);
      ApartAll(i);
      if 0 < i {
        ApartAll(i - 1);
      }
      forall k | 0 < k < size && k != i && k != i + 1 && old(Fits(k))
        ensures Fits(k)
      {
        assert Separate(layers[k - 1], layers[i]);
      }
    }

    /**
     * Linked survives a step that may change layers i - 1 and i, and the
     * error-out buffer of layer i + 1, as long as those two layers are still
     * linked and the rest of the chain is untouched.
     */
    twostate lemma LinkedAround(i: nat)
      requires old(Linked()) && i < size
      requires LayerOK(i) && (0 < i ==> LayerOK(i - 1))
      requires forall l :: l in LayerObjs && l != layers[i] && (0 < i ==> l != layers[i - 1]) ==> unchanged(l)
      requires forall u :: u in UnitObjs && u !in layers[i].UnitRepr && (0 < i ==> u !in layers[i - 1].UnitRepr) ==> unchanged(u)
      requires forall v :: v in OutBufs && v != layers[i].outputs ==> unchanged(v)
      requires forall v :: v in ErrBufs && v != layers[i].deltaSumsOut && (i + 1 < size ==> v != layers[i + 1].deltaSumsOut) ==>
                 unchanged(v)
      ensures Linked()
    {
      ApartAll(i);
      if 0 < i {
        ApartAll(i - 1);
      }
      if i + 1 < size {
        ApartAll(i + 1);
      }
      forall k | 0 <= k < size && k != i && k + 1 != i
        ensures LayerOK(k)
      {
        assert old(LayerOK(k));
      }
    }

    /**
     * _resizeLocalInputs followed by _connectInputs, as setInputs and setBias
     * do them: the local input is zeroed to the length the input and the
     * bias flag call for, and the first layer is rebound to it.
     */
    method ResizeAndConnectInputs()
      requires Linked() && Tuned() && Biased() && forall k :: 0 < k < size ==> Fits(k)
      modifies localInputs
      modifies {layers[0]}`inputs, layers[0].UnitRepr`inputs, layers[0].UnitRepr`weights, layers[0].UnitRepr`weightedDeltas
      ensures Valid()
      ensures localInputs.data == Zeros(LocalSize(old(|inputs.data|), bias))
      ensures forall j :: 0 <= j < layers[0].size ==>
                && layers[0].units[j].weights == Fit(old(layers[0].units[j].weights), LocalSize(old(|inputs.data|), bias))
                && layers[0].units[j].weightedDeltas
                     == FitDeltas(old(layers[0].units[j].weights), old(layers[0].units[j].weightedDeltas), LocalSize(old(|inputs.data|), bias))
      ensures forall k :: 0 <= k < size ==> layers[k].outputs.data == old(layers[k].outputs.data)
      ensures layers[size - 1].errorIn == old(layers[size - 1].errorIn)
    {
      ResizeLocalInputs();
      ReconnectInputs();
      TunedKept();
    }

    /** _connectInputs on a linked network: the first layer is rebound to the local input. */
    method ReconnectInputs()
      requires Linked() && forall k :: 0 < k < size ==> Fits(k)
      modifies {layers[0]}`inputs, layers[0].UnitRepr`inputs, layers[0].UnitRepr`weights, layers[0].UnitRepr`weightedDeltas
      ensures Linked() && WeightsFit()
      ensures localInputs.data == old(localInputs.data)
      ensures forall j :: 0 <= j < layers[0].size ==>
                && layers[0].units[j].weights == Fit(old(layers[0].units[j].weights), |localInputs.data|)
                && layers[0].units[j].weightedDeltas
                     == FitDeltas(old(layers[0].units[j].weights), old(layers[0].units[j].weightedDeltas), |localInputs.data|)
    {
      assert LayerOK(0);
      ConnectInputs();
      assert LayerOK(0);
      LinkedBesides(0);
      assert WeightsFit();
    }

    /**
     * evaluate: the local input is refreshed from the caller's input, then the
     * layers are evaluated from the first to the last, so that each layer
     * reads the outputs its predecessor has just written. The local input must
     * have room for the caller's input and, with bias on, the bias slot
     * after it; otherwise the slice assignment or the bias write would be
     * undefined. With bias off the copy must keep its length, or the first
     * layer's weighted sums would be undefined. An input that shrank since
     * setInputs, with bias on, leaves the entries between it and the bias
     * slot as they were.
     */
    method Evaluate(m: Transcendentals)
      requires Valid()
      requires bias ==> 0 < |localInputs.data| && |inputs.data| <= |localInputs.data|
      requires !bias ==> |inputs.data| == |localInputs.data|
      modifies localInputs, OutBufs, UnitObjs`sumProducts, UnitObjs`output
      ensures Valid()
      ensures localInputs.data == UpdatedLocalInputs(old(localInputs.data), old(inputs.data), bias)
      ensures |old(localInputs.data)| == LocalSize(old(|inputs.data|), bias) ==>
                localInputs.data == LocalInputs(old(inputs.data), bias)
      ensures forall k :: 0 <= k < size ==> layers[k].Evaluated(m)
    {
      RefreshLocalInputs();
      ghost var x := localInputs.data;
      for i := 0 to size
        invariant EvaluatedBelow(m, i, x)
      {
        EvaluateNext(m, i, x);
      }
    }

    /** One iteration of evaluate's loop: layer i evaluates. */
    method EvaluateNext(m: Transcendentals, i: nat, ghost x: seq<real>)
      requires Owns() && i < size && EvaluatedBelow(m, i, x)
      modifies layers[i].outputs, layers[i].UnitRepr`sumProducts, layers[i].UnitRepr`output
      ensures EvaluatedBelow(m, i + 1, x)
    {
      assert LayerOK(i) && Fits(i);
      EvaluateLayer(m, i);
      EvalAdvance(m, i, x);
    }

    /** _updateLocalInputs on a valid network, whose local input has the length it was resized to. */
    method RefreshLocalInputs()
      requires Valid()
      requires bias ==> 0 < |localInputs.data| && |inputs.data| <= |localInputs.data|
      requires !bias ==> |inputs.data| == |localInputs.data|
      modifies localInputs
      ensures Valid()
      ensures localInputs.data == UpdatedLocalInputs(old(localInputs.data), old(inputs.data), bias)
      ensures |old(localInputs.data)| == LocalSize(old(|inputs.data|), bias) ==>
                localInputs.data == LocalInputs(old(inputs.data), bias)
    {
      assert Fits(0);
      if |localInputs.data| == LocalSize(|inputs.data|, bias) {
        UpdatedLocalInputsLayout(localInputs.data, inputs.data, bias);
      }
      UpdateLocalInputs();
    }

    /**
     * The state of the forward pass after layers 0 .. i - 1 have been
     * evaluated: the network is valid, the local input holds x, and those
     * layers are evaluated on what they read.
     */
    ghost predicate EvaluatedBelow(m: Transcendentals, i: nat, x: seq<real>)
      reads *
    {
      && Valid()
      && localInputs.data == x
      && (forall k :: 0 <= k < i && k < size ==> layers[k].Evaluated(m))
    }

    /**
     * What evaluating layer i does, between the state before it and now: its
     * output slots and its units' weighted sums and outputs change, and
     * nothing else of the network does.
     */
    twostate predicate EvaluateStep(m: Transcendentals, i: nat)
      reads *
      requires Owns() && i < size
    {
      && (forall l :: l in LayerObjs ==> unchanged(l))
      && (forall u :: u in UnitObjs && u !in layers[i].UnitRepr ==> unchanged(u))
      && (forall u :: u in layers[i].UnitRepr ==> unchanged(u`inputs, u`weights, u`error, u`trainRate, u`act))
      && (forall v :: v in OutBufs && v != layers[i].outputs ==> unchanged(v))
      && (forall v :: v in ErrBufs ==> unchanged(v))
      && unchanged(this, localInputs)
      && layers[i].Valid()
      && layers[i].Evaluated(m)
    }

    /** One step of the forward pass: layer i evaluates what it reads. */
    method EvaluateLayer(m: Transcendentals, i: nat)
      requires Owns() && i < size && layers[i].Valid()
      requires layers[i].inputs != null && layers[i].Shaped(|layers[i].inputs.data|)
      requires layers[i].inputs == InputVec(i)
      modifies layers[i].outputs, layers[i].UnitRepr`sumProducts, layers[i].UnitRepr`output
      ensures EvaluateStep(m, i)
    {
      layers[i].Evaluate(m);
    }

    /** Evaluating one more layer extends EvaluatedBelow by one. */
    twostate lemma EvalAdvance(new m: Transcendentals, new i: nat, new x: seq<real>)
      requires old(EvaluatedBelow(m, i, x)) && i < size && EvaluateStep(m, i)
      ensures EvaluatedBelow(m, i + 1, x)
    {
      EvalKeepsValid(m, i);
      ApartAll(i);
      forall k | 0 <= k < i
        ensures layers[k].Evaluated(m)
      {
        assert old(layers[k].Evaluated(m)) && LayerOK(k);
        if 0 < k {
          assert Separate(layers[k - 1], layers[i]);
        }
      }
    }

    /** Evaluating a layer keeps the network valid: it changes no link, no weight and no buffer length. */
    twostate lemma EvalKeepsValid(new m: Transcendentals, new i: nat)
      requires old(Valid()) && i < size && EvaluateStep(m, i)
      ensures Valid()
    {
      ApartAll(i);
      forall k | 0 <= k < size
        ensures LayerOK(k)
      {
        assert old(LayerOK(k));
        if k == i {
          forall j | 0 <= j < layers[i].size
            ensures layers[i].units[j].error == old(layers[i].units[j].error)
          {
            assert layers[i].units[j] in layers[i].UnitRepr;
          }
        }
      }
      forall k | 0 <= k < size
        ensures TunedAt(k)
      {
        assert old(TunedAt(k));
        if k == i {
          forall j | 0 <= j < layers[i].size
            ensures layers[i].units[j].trainRate == old(layers[i].units[j].trainRate)
            ensures layers[i].units[j].act == old(layers[i].units[j].act)
          {
            assert layers[i].units[j] in layers[i].UnitRepr;
          }
        }
      }
      forall k | 0 <= k < size
        ensures Fits(k)
      {
        assert old(Fits(k)) && LayerOK(k);
        if k == i {
          forall j | 0 <= j < layers[i].size
            ensures layers[i].units[j].weights == old(layers[i].units[j].weights)
          {
            assert layers[i].units[j] in layers[i].UnitRepr;
          }
        }
        if k == i + 1 {
          assert |layers[i].outputs.data| == |old(layers[i].outputs.data)| by {
            assert old(LayerOK(i)) && LayerOK(i);
          }
        }
      }
    }

    /**
     * train: the local input is refreshed, then the layers are trained from
     * the last to the first. Every layer's units thereby take their deltas
     * from the current contents of their error source: the targets for the
     * last layer, and for every other layer the error-out buffer of its
     * successor, which has already been recomputed and is not written again.
     * A target valarray shrunk below the last layer's unit count would leave
     * dangling pointers, hence the last precondition.
     */
    method Train(m: Transcendentals)
      requires Valid()
      requires bias ==> 0 < |localInputs.data| && |inputs.data| <= |localInputs.data|
      requires !bias ==> |inputs.data| == |localInputs.data|
      requires layers[size - 1].errorIn.Target? ==> layers[size - 1].size <= |layers[size - 1].errorIn.src.data|
      modifies localInputs, ErrBufs, UnitObjs`delta, UnitObjs`weights, UnitObjs`weightedDeltas
      ensures Valid()
      ensures localInputs.data == UpdatedLocalInputs(old(localInputs.data), old(inputs.data), bias)
      ensures |old(localInputs.data)| == LocalSize(old(|inputs.data|), bias) ==>
                localInputs.data == LocalInputs(old(inputs.data), bias)
      ensures forall k :: 0 <= k < size ==> layers[k].TrainedOn(m)
      ensures forall k :: 0 < k < size ==>
                layers[k].deltaSumsOut.data == ColumnSums(layers[k - 1].size, layers[k].WeightedDeltas())
      ensures forall k :: 0 <= k < size ==>
                layers[k].Bound() && layers[k].StepsFrom(old(layers[k].Weights()), old(layers[k].WeightedDeltas()))
    {
      ghost var W, D := Snapshot();
      assert forall k :: 0 <= k < size ==> W[k] == old(layers[k].Weights()) && D[k] == old(layers[k].WeightedDeltas());
      RefreshLocalInputs();
      ghost var x := localInputs.data;
      var i: nat := size;
      while i > 0
        invariant i <= size && TrainedFrom(m, i, x) && StepsFrom(i, W, D)
      {
        i := i - 1;
        TrainNext(m, i, x, W, D);
      }
    }

    /**
     * The weights of train's loop after layers i .. size - 1 have trained:
     * those layers took their step from W and D, the others still hold them.
     */
    ghost predicate StepsFrom(i: nat, W: seq<seq<seq<real>>>, D: seq<seq<seq<real>>>)
      reads *
    {
      && Owns() && |W| == size && |D| == size
      && (forall k {:trigger W[k]} :: i <= k < size ==> layers[k].Bound() && layers[k].StepsFrom(W[k], D[k]))
      && (forall k {:trigger W[k]} :: 0 <= k < i && k < size ==> layers[k].HasWeights(W[k], D[k]))
    }

    /** Training layer i steps its weights and leaves every other layer's weights and inputs alone. */
    twostate lemma StepsAdvance(new m: Transcendentals, new i: nat, new W: seq<seq<seq<real>>>, new D: seq<seq<seq<real>>>)
      requires old(StepsFrom(i + 1, W, D)) && old(Linked()) && i < size && TrainStep(m, i) && LayerStepped(i)
      ensures StepsFrom(i, W, D)
    {
      forall k | i <= k < size
        ensures layers[k].Bound() && layers[k].StepsFrom(W[k], D[k])
      {
        if k == i {
          layers[i].StepsHere(W[i], D[i]);
        } else {
          StepsKeptAbove(m, i, k, W[k], D[k]);
        }
      }
      forall k | 0 <= k < i
        ensures layers[k].HasWeights(W[k], D[k])
      {
        Apart(i, k);
        layers[k].KeepsWeights(W[k], D[k], 0);
      }
    }

    /** Training layer i keeps the step a later layer k took. */
    twostate lemma StepsKeptAbove(new m: Transcendentals, new i: nat, new k: nat, new Wk: seq<seq<real>>, new Dk: seq<seq<real>>)
      requires old(Linked()) && i < k < size && TrainStep(m, i)
      requires old(layers[k].Bound() && layers[k].StepsFrom(Wk, Dk))
      ensures layers[k].Bound() && layers[k].StepsFrom(Wk, Dk)
    {
      assert old(LayerOK(k));
      Apart(i, k);
      layers[k].StepsKept(Wk, Dk);
    }

    /** One iteration of train's loop: layer i trains. */
    method TrainNext(m: Transcendentals, i: nat, ghost x: seq<real>, ghost W: seq<seq<seq<real>>>, ghost D: seq<seq<seq<real>>>)
      requires Owns() && i < size && TrainedFrom(m, i + 1, x) && StepsFrom(i + 1, W, D)
      modifies layers[i].deltaSumsOut, layers[i].UnitRepr`delta, layers[i].UnitRepr`weights, layers[i].UnitRepr`weightedDeltas
      ensures TrainedFrom(m, i, x) && StepsFrom(i, W, D)
    {
      assert LayerOK(i) && Fits(i) && LayerOK(size - 1);
      TrainLayer(m, i);
      TrainFramed(m, i);
      TrainStepped(m, i, x, W, D);
    }

    /** Training layer i extends both what train has done and the weight steps it has taken. */
    twostate lemma TrainStepped(new m: Transcendentals, new i: nat, new x: seq<real>, new W: seq<seq<seq<real>>>, new D: seq<seq<seq<real>>>)
      requires old(TrainedFrom(m, i + 1, x)) && old(StepsFrom(i + 1, W, D)) && i < size && TrainStep(m, i) && LayerStepped(i)
      ensures TrainedFrom(m, i, x) && StepsFrom(i, W, D)
    {
      TrainAdvance(m, i, x);
      StepsAdvance(m, i, W, D);
    }

    /**
     * The state of the backward pass after layers i .. size - 1 have been
     * trained: the network is valid, the local input holds x, the targets
     * still cover the last layer, and each of those layers has its deltas
     * from its current error source and, unless it is the first, the sums
     * of its units' weighted deltas in its error-out buffer.
     */
    ghost predicate TrainedFrom(m: Transcendentals, i: nat, x: seq<real>)
      reads *
    {
      && Valid()
      && localInputs.data == x
      && (layers[size - 1].errorIn.Target? ==> layers[size - 1].size <= |layers[size - 1].errorIn.src.data|)
      && (forall k :: i <= k < size ==> layers[k].TrainedOn(m))
      && (forall k :: i <= k < size && 0 < k ==>
            layers[k].deltaSumsOut.data == ColumnSums(layers[k - 1].size, layers[k].WeightedDeltas()))
    }

    /**
     * What training layer i does, between the state before it and now: its
     * error-out buffer and its units' deltas, weights and weighted deltas
     * change, and nothing else of the network does.
     */
    twostate predicate TrainStep(m: Transcendentals, i: nat)
      reads *
      requires Owns() && i < size
    {
      && (forall l :: l in LayerObjs ==> unchanged(l))
      && (forall u :: u in UnitObjs && u !in layers[i].UnitRepr ==> unchanged(u))
      && (forall u :: u in layers[i].UnitRepr ==>
            unchanged(u`inputs, u`error, u`trainRate, u`act, u`sumProducts, u`output))
      && (forall v :: v in OutBufs ==> unchanged(v))
      && (forall v :: v in ErrBufs && v != layers[i].deltaSumsOut ==> unchanged(v))
      && (layers[size - 1].errorIn.Target? ==> layers[size - 1].errorIn.src.data == old(layers[size - 1].errorIn.src.data))
      && unchanged(this, localInputs)
      && layers[i].Valid()
      && layers[i].Shaped(|InputVec(i).data|)
      && layers[i].TrainedOn(m)
      && layers[i].deltaSumsOut.data == ColumnSums(|old(layers[i].deltaSumsOut.data)|, layers[i].WeightedDeltas())
    }

    /**
     * What training layer i does, as its callee's frame gives it: the objects
     * of the network other than its error-out buffer and its units are as they
     * were, its units keep everything but their deltas and weights, and the
     * contents of the targets the last layer had are as they were.
     */
    twostate predicate TrainEffect(m: Transcendentals, i: nat)
      reads *
      requires Owns() && i < size
    {
      && UnchangedBut(TrainedObjs(i))
      && (forall u :: u in layers[i].UnitRepr ==>
            unchanged(u`inputs, u`error, u`trainRate, u`act, u`sumProducts, u`output))
      && (var e := old(layers[size - 1].errorIn); e.Target? ==> e.src.data == old(e.src.data))
      && layers[i].Valid()
      && layers[i].Shaped(|InputVec(i).data|)
      && layers[i].TrainedOn(m)
      && layers[i].deltaSumsOut.data == ColumnSums(|old(layers[i].deltaSumsOut.data)|, layers[i].WeightedDeltas())
    }

    /** Training layer i stepped the weights of each of its units from those the unit held before. */
    twostate predicate LayerStepped(i: nat)
      reads *
      requires Owns() && i < size
    {
      forall j :: 0 <= j < layers[i].size ==>
        layers[i].units[j].SteppedFrom(old(layers[i].units[j].weights), old(layers[i].units[j].weightedDeltas))
    }

    /** The objects training layer i may change: its error-out buffer and its units. */
    ghost function TrainedObjs(i: nat): set<object>
      requires Owns() && i < size
    {
      {layers[i].deltaSumsOut} + layers[i].UnitRepr
    }

    /** The effect of training layer i, restated object kind by object kind. */
    twostate lemma TrainFramed(new m: Transcendentals, new i: nat)
      requires Owns() && i < size && TrainEffect(m, i)
      ensures TrainStep(m, i)
    {
    }

    /** One step of the backward pass: layer i trains against its current error source. */
    method TrainLayer(m: Transcendentals, i: nat)
      requires Owns() && i < size && LayerOK(i) && Fits(i)
      requires i + 1 == size && layers[i].errorIn.Target? ==> layers[i].size <= |layers[i].errorIn.src.data|
      requires VecOf(layers[size - 1].errorIn) !! ErrBufs
      modifies layers[i].deltaSumsOut, layers[i].UnitRepr`delta, layers[i].UnitRepr`weights, layers[i].UnitRepr`weightedDeltas
      ensures TrainEffect(m, i) && LayerStepped(i)
    {
      var l := layers[i];
      forall j | 0 <= j < l.size
        ensures Readable(l.units[j].error) && Resolve(l.units[j].error) == ValueAt(l.errorIn, j)
      {
        ResolveElemOf(l.errorIn, j);
      }
      if i + 1 < size {
        Apart(i, i + 1);
      }
      assert l.deltaSumsOut !in VecOf(layers[size - 1].errorIn);
      l.Train(m);
      forall j | 0 <= j < l.size
        ensures |l.units[j].weights| == |InputVec(i).data|
      {
        assert l.units[j].SteppedFrom(old(l.units[j].weights), old(l.units[j].weightedDeltas));
      }
    }

    /** Training one more layer, going down, extends TrainedFrom by one. */
    twostate lemma TrainAdvance(new m: Transcendentals, new i: nat, new x: seq<real>)
      requires old(TrainedFrom(m, i + 1, x)) && i < size && TrainStep(m, i)
      ensures TrainedFrom(m, i, x)
    {
      TrainKeepsValid(m, i);
      ApartAll(i);
      assert old(LayerOK(i));
      if 0 < i {
        assert old(LayerOK(i - 1));
      }
      forall k | i < k < size
        ensures layers[k].TrainedOn(m)
        ensures layers[k].deltaSumsOut.data == ColumnSums(layers[k - 1].size, layers[k].WeightedDeltas())
      {
        TrainKeepsAbove(m, i, k);
      }
      assert layers[size - 1].errorIn == old(layers[size - 1].errorIn);
      if 0 < i {
        assert layers[i].deltaSumsOut.data == ColumnSums(layers[i - 1].size, layers[i].WeightedDeltas());
      }
    }

    /** Training layer i leaves what training layer k > i established. */
    twostate lemma TrainKeepsAbove(new m: Transcendentals, new i: nat, new k: nat)
      requires old(Linked()) && i < k < size && TrainStep(m, i)
      requires old(layers[k].TrainedOn(m))
      requires old(layers[k].deltaSumsOut.data == ColumnSums(layers[k - 1].size, layers[k].WeightedDeltas()))
      ensures layers[k].TrainedOn(m)
      ensures layers[k].deltaSumsOut.data == ColumnSums(layers[k - 1].size, layers[k].WeightedDeltas())
    {
      assert old(LayerOK(k));
      Apart(i, k);
      if k + 1 < size {
        Apart(i, k + 1);
      }
      var l := layers[k];
      assert l.errorIn == old(l.errorIn);
      if k + 1 < size {
        var v := layers[k + 1].deltaSumsOut;
        assert old(l.errorIn) == Upstream(v);
        assert v in ErrBufs && v != layers[i].deltaSumsOut;
        assert v.data == old(v.data);
      }
      assert l.errorIn.Target? ==> l.errorIn.src.data == old(l.errorIn.src.data);
      forall j | 0 <= j < l.size
        ensures unchanged(l.units[j])
        ensures l.units[j].delta == Delta(ActivDeriv(m, l.units[j].act, l.units[j].sumProducts), l.units[j].output, ValueAt(l.errorIn, j))
      {
        assert l.units[j] in l.UnitRepr;
        assert old(ValueAt(l.errorIn, j)) == ValueAt(l.errorIn, j);
      }
      assert l.WeightedDeltas() == old(l.WeightedDeltas());
    }

    /** Training a layer keeps the network valid: it changes no link and no weight count. */
    twostate lemma TrainKeepsValid(new m: Transcendentals, new i: nat)
      requires old(Valid()) && i < size && TrainStep(m, i)
      ensures Valid()
    {
      ApartAll(i);
      forall k | 0 <= k < size
        ensures LayerOK(k)
      {
        assert old(LayerOK(k));
        if k == i {
          forall j | 0 <= j < layers[i].size
            ensures layers[i].units[j].error == old(layers[i].units[j].error)
            ensures layers[i].units[j].inputs == old(layers[i].units[j].inputs)
          {
            assert layers[i].units[j] in layers[i].UnitRepr;
          }
        }
      }
      forall k | 0 <= k < size
        ensures TunedAt(k)
      {
        assert old(TunedAt(k));
        if k == i {
          forall j | 0 <= j < layers[i].size
            ensures layers[i].units[j].trainRate == old(layers[i].units[j].trainRate)
            ensures layers[i].units[j].act == old(layers[i].units[j].act)
          {
            assert layers[i].units[j] in layers[i].UnitRepr;
          }
        }
      }
      forall k | 0 <= k < size
        ensures Fits(k)
      {
        assert old(Fits(k)) && LayerOK(k);
      }
    }

    /** _updateLocalInputs */
    method UpdateLocalInputs()
      requires bias ==> 0 < |localInputs.data| && |inputs.data| <= |localInputs.data|
      modifies localInputs
      ensures localInputs.data == UpdatedLocalInputs(old(localInputs.data), old(inputs.data), bias)
    {
      if bias {
        localInputs.data := Splice(localInputs.data, inputs.data);
        localInputs.data := localInputs.data[|localInputs.data| - 1 := 1.0];
      } else {
        localInputs.data := inputs.data;
      }
    }

    /** _resizeLocalInputs: room for the input and, with bias on, the bias slot; resizing zeroes it. */
    method ResizeLocalInputs()
      modifies localInputs
      ensures localInputs.data == Zeros(LocalSize(old(|inputs.data|), bias))
    {
      if bias {
        localInputs.data := Zeros(|inputs.data| + 1);
      } else {
        localInputs.data := Zeros(|inputs.data|);
      }
    }

    /** Layer k is valid, takes its error source element by element, and is linked to no other layer. */
    ghost predicate Unlinked(k: nat)
      reads *
      requires Owns() && k < size
    {
      layers[k].Valid() && layers[k].Connected() && layers[k].prev == null && layers[k].next == null
    }

    /**
     * The network as _build leaves it before _connect: every layer unlinked
     * and bound to nothing, with the network's rate and activation, and the
     * caller's targets outside the network.
     */
    ghost predicate Unwired()
      reads *
    {
      && Owns() && Tuned() && targets !in Repr
      && (forall k :: 0 <= k < size ==> Unlinked(k) && layers[k].inputs == null && layers[k].errorIn == NoSource)
    }

    /** After _connectInputs: as Unwired, except that the first layer reads the local input. */
    ghost predicate InputsBound()
      reads *
    {
      && Owns() && Tuned() && targets !in Repr
      && (forall k :: 0 <= k < size ==> Unlinked(k) && layers[k].errorIn == NoSource)
      && layers[0].inputs == localInputs
    }

    /**
     * After _connectTargets: the last layer takes the targets when they have
     * one entry per unit, and no error source otherwise.
     */
    ghost predicate TargetsBound()
      reads *
    {
      && Owns() && Tuned()
      && (forall k :: 0 <= k < size ==> Unlinked(k))
      && layers[0].inputs == localInputs
      && layers[size - 1].errorIn == (if |targets.data| == layers[size - 1].size then Target(targets) else NoSource)
      && targets !in ErrBufs
    }

    /**
     * _connect: the first layer reads the local input, the targets are
     * offered to the last layer, and the layers are linked in order.
     */
    method Wire()
      requires Unwired()
      modifies LayerObjs`prev, LayerObjs`inputs, LayerObjs`next, LayerObjs`errorIn
      modifies OutBufs, ErrBufs, UnitObjs`inputs, UnitObjs`weights, UnitObjs`weightedDeltas, UnitObjs`error
      ensures Linked() && Tuned()
      ensures layers[size - 1].errorIn == if |targets.data| == layers[size - 1].size then Target(targets) else NoSource
      ensures old(Zeroed()) ==> Zeroed()
    {
      WireInputs();
      WireTargets();
      forall k | 0 <= k < size
        ensures layers[k].Valid() && layers[k].Connected() && layers[k].next == null
      {
        assert Unlinked(k);
      }
      assert Unlinked(0);
      ConnectLayers();
    }

    /** The _connectInputs step of _connect, from the state _build leaves. */
    method WireInputs()
      requires Unwired()
      modifies {layers[0]}`inputs, layers[0].UnitRepr`inputs, layers[0].UnitRepr`weights, layers[0].UnitRepr`weightedDeltas
      ensures InputsBound()
      ensures old(Zeroed()) ==> Zeroed()
    {
      assert Unlinked(0);
      ApartAll(0);
      ConnectInputs();
      if old(Zeroed()) {
        FirstRefitZeroed(|localInputs.data|);
      }
      forall k | 0 <= k < size
        ensures Unlinked(k) && layers[k].errorIn == NoSource
      {
        assert old(Unlinked(k));
      }
    }

    /** The _connectTargets step of _connect. */
    method WireTargets()
      requires InputsBound()
      modifies {layers[size - 1]}`errorIn, layers[size - 1].UnitRepr`error
      ensures TargetsBound()
      ensures Zeroed() == old(Zeroed())
    {
      assert Unlinked(size - 1);
      ApartAll(size - 1);
      ConnectTargets();
      forall k | 0 <= k < size
        ensures Unlinked(k)
      {
        assert old(Unlinked(k));
      }
    }

    /** _connectInputs: the first layer reads the local input. */
    method ConnectInputs()
      requires Owns() && layers[0].Valid()
      modifies {layers[0]}`inputs, layers[0].UnitRepr`inputs, layers[0].UnitRepr`weights, layers[0].UnitRepr`weightedDeltas
      ensures layers[0].Valid() && layers[0].inputs == localInputs && Fits(0)
      ensures localInputs.data == old(localInputs.data)
      ensures forall j :: 0 <= j < layers[0].size ==>
                && layers[0].units[j].weights == Fit(old(layers[0].units[j].weights), |localInputs.data|)
                && layers[0].units[j].weightedDeltas
                     == FitDeltas(old(layers[0].units[j].weights), old(layers[0].units[j].weightedDeltas), |localInputs.data|)
    {
      layers[0].SetInputs(localInputs);
    }

    /** _connectTargets: the targets are offered to the last layer. */
    method ConnectTargets()
      requires Owns() && layers[size - 1].Valid() && layers[size - 1].Connected() && targets !in ErrBufs
      modifies {layers[size - 1]}`errorIn, layers[size - 1].UnitRepr`error
      ensures layers[size - 1].Valid() && layers[size - 1].Connected()
      ensures |targets.data| == layers[size - 1].size ==> layers[size - 1].errorIn == Target(targets)
      ensures |targets.data| != layers[size - 1].size ==> layers[size - 1].errorIn == old(layers[size - 1].errorIn)
    {
      layers[size - 1].SetTargets(targets);
    }

    /**
     * _connectLayers: every layer after the first is linked after its
     * predecessor, in increasing order, starting from unlinked layers.
     */
    method ConnectLayers()
      requires Owns() && Tuned()
      requires forall k :: 0 <= k < size ==> layers[k].Valid() && layers[k].Connected() && layers[k].next == null
      requires layers[0].prev == null && layers[0].inputs == localInputs
      requires layers[size - 1].errorIn.NoSource? ||
               (layers[size - 1].errorIn.Target? && layers[size - 1].errorIn.src !in ErrBufs)
      modifies LayerObjs`prev, LayerObjs`inputs, LayerObjs`next, LayerObjs`errorIn
      modifies OutBufs, ErrBufs, UnitObjs`inputs, UnitObjs`weights, UnitObjs`weightedDeltas, UnitObjs`error
      ensures Linked() && Tuned()
      ensures layers[size - 1].errorIn == old(layers[size - 1].errorIn)
      ensures old(Zeroed()) ==> Zeroed()
    {
      ghost var e := layers[size - 1].errorIn;
      LinkLayers(e);
      LinkedAll(e);
      TunedKept();
    }

    /** Once every layer is linked, the network is Linked. */
    lemma LinkedAll(e: ErrorSource<Vec>)
      requires LinkedUpTo(size, e)
      ensures Linked() && layers[size - 1].errorIn == e
    {
      assert LayerOK(size - 1);
    }

    /** The loop of _connectLayers: layers 1 .. size - 1 are linked in increasing order. */
    method LinkLayers(ghost e: ErrorSource<Vec>)
      requires LinkedUpTo(1, e)
      modifies LayerObjs`prev, LayerObjs`inputs, LayerObjs`next, LayerObjs`errorIn
      modifies OutBufs, ErrBufs, UnitObjs`inputs, UnitObjs`weights, UnitObjs`weightedDeltas, UnitObjs`error
      ensures LinkedUpTo(size, e)
      ensures old(Zeroed()) ==> Zeroed()
    {
      for i := 1 to size
        invariant LinkedUpTo(i, e)
        invariant old(Zeroed()) ==> Zeroed()
      {
        LinkNext(i, e);
      }
    }

    /**
     * The state of _connectLayers once layers 1 .. i - 1 are linked: layers
     * before i - 1 are as Linked requires, layer i - 1 and the ones after it
     * are valid and have no successor yet, layer i - 1 follows layer i - 2,
     * and the last layer keeps the error source e it was given.
     */
    ghost predicate LinkedUpTo(i: nat, e: ErrorSource<Vec>)
      reads *
    {
      && Owns() && 0 < i <= size
      && (forall k :: 0 <= k < i - 1 ==> LayerOK(k))
      && (forall k :: i - 1 <= k < size ==> layers[k].Valid() && layers[k].Connected() && layers[k].next == null)
      && layers[i - 1].prev == (if i == 1 then null else layers[i - 2])
      && layers[i - 1].inputs == InputVec(i - 1)
      && layers[size - 1].errorIn == e
      && (e.NoSource? || (e.Target? && e.src !in ErrBufs))
    }

    /**
     * What linking layer i after layer i - 1 does: those two layers, layer
     * i's units, output and error-out buffers and layer i - 1's units' error
     * sources change, and nothing else of the network does.
     */
    twostate predicate LinkStep(i: nat)
      reads *
      requires size == |layers| && 0 < i < size
    {
      && (forall l :: l in LayerObjs && l != layers[i] && l != layers[i - 1] ==> unchanged(l))
      && (forall u :: u in UnitObjs && u !in layers[i].UnitRepr && u !in layers[i - 1].UnitRepr ==> unchanged(u))
      && (forall u :: u in UnitObjs && u in layers[i - 1].UnitRepr ==> unchanged(u`inputs, u`weights, u`weightedDeltas))
      && (forall v :: v in OutBufs && v != layers[i].outputs ==> unchanged(v))
      && (forall v :: v in ErrBufs && v != layers[i].deltaSumsOut ==> unchanged(v))
      && unchanged(localInputs)
      && layers[i].Valid() && layers[i].Connected() && layers[i].next == null
      && layers[i].prev == layers[i - 1] && layers[i].inputs == layers[i - 1].outputs
      && layers[i].errorIn == old(layers[i].errorIn)
      && |layers[i].deltaSumsOut.data| == layers[i - 1].size
      && layers[i - 1].Valid() && layers[i - 1].Connected()
      && layers[i - 1].next == layers[i] && layers[i - 1].errorIn == Upstream(layers[i].deltaSumsOut)
      && layers[i - 1].prev == old(layers[i - 1].prev) && layers[i - 1].inputs == old(layers[i - 1].inputs)
    }

    /** One iteration of _connectLayers's loop. */
    method LinkNext(i: nat, ghost e: ErrorSource<Vec>)
      requires Owns() && 0 < i < size && LinkedUpTo(i, e)
      modifies {layers[i]}`prev, {layers[i]}`inputs, layers[i].outputs, layers[i].deltaSumsOut
      modifies layers[i].UnitRepr`inputs, layers[i].UnitRepr`weights, layers[i].UnitRepr`weightedDeltas, layers[i].UnitRepr`error
      modifies {layers[i - 1]}`next, {layers[i - 1]}`errorIn, layers[i - 1].UnitRepr`error
      ensures LinkedUpTo(i + 1, e)
      ensures old(Zeroed()) ==> Zeroed()
    {
      LinkLayer(i);
      LinkAdvance(i);
      if old(Zeroed()) {
        LinkKeepsZeroed(i);
      }
    }

    /** One step of _connectLayers: layer i is linked after layer i - 1. */
    method LinkLayer(i: nat)
      requires Owns() && 0 < i < size
      requires layers[i].Valid() && layers[i].Connected() && layers[i].next == null
      requires layers[i - 1].Valid()
      modifies {layers[i]}`prev, {layers[i]}`inputs, layers[i].outputs, layers[i].deltaSumsOut
      modifies layers[i].UnitRepr`inputs, layers[i].UnitRepr`weights, layers[i].UnitRepr`weightedDeltas, layers[i].UnitRepr`error
      modifies {layers[i - 1]}`next, {layers[i - 1]}`errorIn, layers[i - 1].UnitRepr`error
      ensures LinkStep(i) && layers[i].Owns() && layers[i].Refitted()
    {
      Apart(i - 1, i);
      AttachLayer(i);
      LinkFramed(i);
    }

    /** Layer i is linked after layer i - 1, which two separate layers allow. */
    method AttachLayer(i: nat)
      requires size == |layers| && 0 < i < size
      requires layers[i].Valid() && layers[i].Connected() && layers[i].next == null
      requires layers[i - 1].Valid() && Separate(layers[i - 1], layers[i])
      modifies {layers[i]}`prev, {layers[i]}`inputs, layers[i].outputs, layers[i].deltaSumsOut
      modifies layers[i].UnitRepr`inputs, layers[i].UnitRepr`weights, layers[i].UnitRepr`weightedDeltas, layers[i].UnitRepr`error
      modifies {layers[i - 1]}`next, {layers[i - 1]}`errorIn, layers[i - 1].UnitRepr`error
      ensures LinkEffect(i)
    {
      var l, p := layers[i], layers[i - 1];
      l.SetInput(p);
    }

    /**
     * What linking layer i does, as its callee's frame gives it: the objects
     * of the network other than layers i - 1 and i and their units and layer
     * i's buffers are as they were, and those two layers are linked.
     */
    twostate predicate LinkEffect(i: nat)
      reads *
      requires size == |layers| && 0 < i < size
    {
      && UnchangedBut(LinkedObjs(i))
      && (forall u :: u in UnitObjs && u in layers[i - 1].UnitRepr ==> unchanged(u`inputs, u`weights, u`weightedDeltas))
      && layers[i].Valid() && layers[i].Connected() && layers[i].next == null
      && layers[i].prev == layers[i - 1] && layers[i].inputs == layers[i - 1].outputs
      && layers[i].Owns() && layers[i].Refitted()
      && layers[i].errorIn == old(layers[i].errorIn)
      && |layers[i].deltaSumsOut.data| == layers[i - 1].size
      && layers[i - 1].Valid() && layers[i - 1].Connected()
      && layers[i - 1].next == layers[i] && layers[i - 1].errorIn == Upstream(layers[i].deltaSumsOut)
      && layers[i - 1].prev == old(layers[i - 1].prev) && layers[i - 1].inputs == old(layers[i - 1].inputs)
    }

    /** The objects linking layer i may change. */
    ghost function LinkedObjs(i: nat): set<object>
      requires size == |layers| && 0 < i < size
    {
      {layers[i], layers[i - 1], layers[i].outputs, layers[i].deltaSumsOut} + layers[i].UnitRepr + layers[i - 1].UnitRepr
    }

    /** The effect of linking layer i, restated object kind by object kind. */
    twostate lemma LinkFramed(new i: nat)
      requires size == |layers| && 0 < i < size && LinkEffect(i)
      requires LayerObjs <= Repr && UnitObjs <= Repr && OutBufs <= Repr && ErrBufs <= Repr && OutBufs !! ErrBufs
      requires localInputs in Repr && localInputs !in OutBufs && localInputs !in ErrBufs
      requires layers[i].outputs in OutBufs && layers[i].deltaSumsOut in ErrBufs
      ensures LinkStep(i)
    {
      LinkKeepsLayers(i);
      LinkKeepsBuffers(i);
    }

    /** Linking layer i leaves every layer but i - 1 and i, and their units, as they were. */
    twostate lemma LinkKeepsLayers(new i: nat)
      requires size == |layers| && 0 < i < size && UnchangedBut(LinkedObjs(i))
      requires LayerObjs <= Repr && UnitObjs <= Repr
      ensures forall l :: l in LayerObjs && l != layers[i] && l != layers[i - 1] ==> unchanged(l)
      ensures forall u :: u in UnitObjs && u !in layers[i].UnitRepr && u !in layers[i - 1].UnitRepr ==> unchanged(u)
    {
      forall l | l in LayerObjs && l != layers[i] && l != layers[i - 1]
        ensures unchanged(l)
      {
        assert l in Repr;
      }
      forall u | u in UnitObjs && u !in layers[i].UnitRepr && u !in layers[i - 1].UnitRepr
        ensures unchanged(u)
      {
        assert u in Repr;
      }
    }

    /** Linking layer i leaves every buffer but layer i's own, and the local input, as they were. */
    twostate lemma LinkKeepsBuffers(new i: nat)
      requires size == |layers| && 0 < i < size && UnchangedBut(LinkedObjs(i))
      requires OutBufs <= Repr && ErrBufs <= Repr && OutBufs !! ErrBufs
      requires localInputs in Repr && localInputs !in OutBufs && localInputs !in ErrBufs
      requires layers[i].outputs in OutBufs && layers[i].deltaSumsOut in ErrBufs
      ensures forall v :: v in OutBufs && v != layers[i].outputs ==> unchanged(v)
      ensures forall v :: v in ErrBufs && v != layers[i].deltaSumsOut ==> unchanged(v)
      ensures unchanged(localInputs)
    {
      forall v | v in OutBufs && v != layers[i].outputs
        ensures unchanged(v)
      {
        assert v in Repr && v !in ErrBufs;
      }
      forall v | v in ErrBufs && v != layers[i].deltaSumsOut
        ensures unchanged(v)
      {
        assert v in Repr && v !in OutBufs;
      }
    }

    /** Linking one more layer extends LinkedUpTo by one. */
    twostate lemma LinkAdvance(i: nat)
      requires old(Owns() && LinkedUpTo(i, layers[size - 1].errorIn)) && i < size && LinkStep(i)
      ensures LinkedUpTo(i + 1, old(layers[size - 1].errorIn))
    {
      ApartAll(i);
      ApartAll(i - 1);
      LinkKeepsBelow(i);
      LinkKeepsAbove(i);
      assert LayerOK(i - 1);
    }

    /** Linking layer i refits its zero weights and leaves every other unit's alone, so a zeroed network stays zeroed. */
    twostate lemma LinkKeepsZeroed(new i: nat)
      requires Owns() && old(Zeroed()) && 0 < i < size && LinkStep(i) && layers[i].Owns() && layers[i].Refitted()
      ensures Zeroed()
    {
      forall k, j | 0 <= k < size && 0 <= j < layers[k].size
        ensures layers[k].units[j].Zeroed()
      {
        var u := layers[k].units[j];
        assert old(u.Zeroed()) && u in UnitObjs;
        if k == i {
          FitKeepsZeros(old(u.weights), old(u.weightedDeltas), |layers[i].inputs.data|);
        } else if k == i - 1 {
          assert u in layers[i - 1].UnitRepr;
        } else {
          Apart(k, i);
          Apart(k, i - 1);
        }
      }
    }

    /** Linking layer i leaves every layer before i - 1 as it was. */
    twostate lemma LinkKeepsBelow(i: nat)
      requires Owns() && 0 < i < size && LinkStep(i)
      requires forall k :: 0 <= k < i - 1 ==> old(LayerOK(k))
      ensures forall k :: 0 <= k < i - 1 ==> LayerOK(k)
    {
      forall k | 0 <= k < i - 1
        ensures LayerOK(k)
      {
        assert old(LayerOK(k));
        Apart(k, i);
        Apart(k, i - 1);
        if k + 1 < i - 1 {
          Apart(k + 1, i);
        }
        if 0 < k {
          Apart(k - 1, i);
        }
        forall j | 0 <= j < layers[k].size
          ensures unchanged(layers[k].units[j])
        {
          assert layers[k].units[j] in layers[k].UnitRepr;
        }
      }
    }

    /** Linking layer i leaves every layer after it as it was. */
    twostate lemma LinkKeepsAbove(i: nat)
      requires Owns() && 0 < i < size && LinkStep(i)
      requires forall k :: i < k < size ==> old(layers[k].Valid() && layers[k].Connected() && layers[k].next == null)
      ensures forall k :: i < k < size ==> layers[k].Valid() && layers[k].Connected() && layers[k].next == null
    {
      forall k | i < k < size
        ensures layers[k].Valid() && layers[k].Connected() && layers[k].next == null
      {
        assert old(layers[k].Valid() && layers[k].Connected() && layers[k].next == null);
        Apart(i, k);
        Apart(i - 1, k);
        forall j | 0 <= j < layers[k].size
          ensures unchanged(layers[k].units[j])
        {
          assert layers[k].units[j] in layers[k].UnitRepr;
        }
      }
    }

    /** getOutputs: the output buffer of the last layer. */
    function Outputs(): (r: Vec)
      requires Owns()
      ensures r in OutBufs && r !in ErrBufs && r != localInputs
    {
      layers[size - 1].outputs
    }

    /**
     * The network's outputs have exactly one entry per unit of the last
     * layer: the last layer never carries a bias slot.
     */
    lemma OutputsShape()
      requires Valid()
      ensures |Outputs().data| == layers[size - 1].size
    {
      assert LayerOK(size - 1);
    }

    /**
     * The constructor: _build creates one layer per entry of layerSizes and
     * connects them, then the bias flag, the rate and the activation are set.
     * The fields m_Bias, m_TrainRate and m_ActType hold no defined value
     * before those calls; here they start at the defaults of a new layer.
     */
    constructor (inputs: Vec, targets: Vec, layerSizes: seq<nat>, kind: Activation, rate: real, bias: bool)
      requires 1 <= |layerSizes|
      ensures Valid() && fresh(Repr)
      ensures this.inputs == inputs && this.targets == targets
      ensures size == |layerSizes| && forall k :: 0 <= k < size ==> layers[k].size == layerSizes[k]
      ensures this.bias == bias && trainRate == rate && act == kind
      ensures localInputs.data == Zeros(LocalSize(|inputs.data|, bias))
      ensures layers[size - 1].errorIn ==
                if |targets.data| == layerSizes[size - 1] then Target(targets) else NoSource
      ensures forall k :: 0 <= k < size ==> layers[k].outputs.data == BuiltOutputs(layers[k].size, bias && k < size - 1)
      ensures Blank()
    {
      localInputs := new Vec([]);
      var ls, fp, lobjs, uobjs, outs, errs := NewLayers(layerSizes);
      this.inputs := inputs;
      this.targets := targets;
      layers := ls;
      size := |ls|;
      this.bias := true;
      trainRate := 0.0;
      act := Tanh;
      Repr := {this, localInputs} + fp;
      LayerObjs, UnitObjs, OutBufs, ErrBufs := lobjs, uobjs, outs, errs;
      new;
      assert Owns();
      FreshUnwired();
      WireAndConfigure(bias, rate, kind);
    }

    /**
     * What the constructor does after _build: _connect, then setBias,
     * setTrainRate and setActType; no unit's weights or sums become nonzero.
     */
    method WireAndConfigure(b: bool, rate: real, kind: Activation)
      requires Unwired() && Blank() && inputs !in Repr
      modifies this`bias, this`trainRate, this`act, localInputs
      modifies LayerObjs`prev, LayerObjs`inputs, LayerObjs`next, LayerObjs`errorIn, LayerObjs`bias, LayerObjs`trainRate, LayerObjs`act
      modifies OutBufs, ErrBufs, UnitObjs`inputs, UnitObjs`weights, UnitObjs`weightedDeltas, UnitObjs`error
      modifies UnitObjs`trainRate, UnitObjs`act
      ensures Valid() && bias == b && trainRate == rate && act == kind
      ensures localInputs.data == Zeros(LocalSize(|inputs.data|, b))
      ensures layers[size - 1].errorIn == if |targets.data| == layers[size - 1].size then Target(targets) else NoSource
      ensures forall k :: 0 <= k < size ==> layers[k].outputs.data == BuiltOutputs(layers[k].size, b && k < size - 1)
      ensures Blank()
    {
      Wire();
      ConfigureBias(b);
      ConfigureUnits(rate, kind);
      IdleKept();
    }

    /** Freshly built layers, with the defaults of a new layer, make a network that _connect may wire. */
    lemma FreshUnwired()
      requires Owns() && targets !in Repr && trainRate == 0.0 && act == Tanh
      requires forall k :: 0 <= k < size ==> layers[k].Pristine(layers[k].size)
      ensures Unwired() && Blank()
    {
      forall k | 0 <= k < size
        ensures TunedAt(k) && Unlinked(k)
      {
        assert layers[k].Pristine(layers[k].size);
      }
      forall k, j | 0 <= k < size && 0 <= j < layers[k].size
        ensures layers[k].units[j].Blank()
      {
        assert layers[k].Pristine(layers[k].size);
      }
    }

    /** The constructor's setTrainRate and setActType, which change neither buffers nor weights. */
    method ConfigureUnits(rate: real, kind: Activation)
      requires Valid()
      modifies this`trainRate, this`act, LayerObjs`trainRate, LayerObjs`act, UnitObjs`trainRate, UnitObjs`act
      ensures Valid() && trainRate == rate && act == kind
      ensures forall k :: 0 <= k < size ==> layers[k].outputs.data == old(layers[k].outputs.data)
      ensures Zeroed() == old(Zeroed())
    {
      SetTrainRate(rate);
      SetActivation(kind);
    }

    /** The constructor's setBias, which keeps the new network's weights zero. */
    method ConfigureBias(b: bool)
      requires Linked() && Tuned() && inputs !in Repr
      modifies this`bias, localInputs, LayerObjs`bias, LayerObjs`inputs, LayerObjs`next, LayerObjs`errorIn
      modifies OutBufs, ErrBufs, UnitObjs`inputs, UnitObjs`weights, UnitObjs`weightedDeltas, UnitObjs`error
      ensures Valid() && bias == b
      ensures localInputs.data == Zeros(LocalSize(old(|inputs.data|), b))
      ensures forall k :: 0 <= k < size ==> layers[k].outputs.data == BuiltOutputs(layers[k].size, b && k < size - 1)
      ensures layers[size - 1].errorIn == old(layers[size - 1].errorIn)
      ensures old(Zeroed()) ==> Zeroed()
    {
      SetBias(b);
      if old(Zeroed()) {
        BiasKeepsZeroed();
      }
    }

  }
}
