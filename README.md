# A verified model of the basic-neural-net perceptron engine

This project models the engine of basic-neural-net, a feed-forward multilayer perceptron in C++. It is built from three classes:

- **`c_Perceptron`** is one unit. It has a weight vector over a bound input `valarray`. It computes a weighted sum and an activation. It trains against exactly one error source: a target, or an upstream weighted-delta sum.
- **`c_PerceptronLayer`** owns its units and two buffers:
  - an output buffer, with a constant bias slot 1.0 when bias is on;
  - an error-out buffer of weighted-delta sums, which it hands back to the previous layer.

  It wires its units to inputs, targets and upstream sums, and rebuilds when it is linked or when bias is toggled.
- **`c_NeuralNetwork`** owns the chain of layers and a local copy of the caller's input (with the bias slot). Its forward pass runs from the first layer to the last. Its backward pass runs from the last layer to the first.

The model keeps the source's form. Each class is a Dafny `class` whose methods update its fields in place:

| File | Module | Dafny class | Models |
|---|---|---|---|
| `perceptron.dfy` | `Perceptrons` | `Perceptron` | `c_Perceptron` |
| `perceptron_layer.dfy` | `PerceptronLayers` | `Layer` | `c_PerceptronLayer` |
| `neural_network.dfy` | `NeuralNetworks` | `Network` | `c_NeuralNetwork` |

`valarray.dfy` (module `Valarray`) models the `std::valarray<double>` objects the engine points into and the operations it applies to them.
- A `Vec` is one valarray object. Its contents are reassigned and resized in place while its identity stays.
- Pointers between objects are kept as object references:
  - `const double *` into element `i` of a valarray is `Elem(vec, i)`;
  - a layer's pointer to the previous or next layer is `Layer?`.
- A unit's target and upstream-sum pointers are never both set. They are one `ErrorSource` value: `NoSource | Target(p) | Upstream(p)`.
- `double` is `real`.

Ownership and the pointer web are stated as predicates:

| Predicate | States |
|---|---|
| `Layer.Owns`, `Network.Owns` | Distinct objects and disjoint footprints. |
| `Layer.Valid` | A layer's units read its input. Its error sources never point into the buffer its training writes. The output buffer has a slot per unit, plus the bias slot 1.0 when bias is on. |
| `Network.Linked` | Layer `k` reads the local input (`k == 0`) or the outputs of layer `k - 1`. Layer `k - 1` takes its error from the error-out buffer of layer `k`, which has one entry per unit of layer `k - 1`. Only the last layer takes targets. |
| `Network.Tuned`, `Network.Biased` | Every layer and unit carries the network's rate and activation. Every layer but the last carries its bias flag. |
| `Network.WeightsFit` | Every unit has one weight per entry of what its layer reads. |

Every network operation preserves these predicates. The backward pass is proved to compute, for every layer, the deltas that the current contents of its error source give. It also leaves every error-out buffer holding the column sums of its layer's weighted deltas. Training from the last layer to the first is what makes both hold.

Several numeric properties of the update law are proved on their own:

- A training step moves a unit's weighted sum, on the same input, by exactly `rate * delta * (x . x)`, and so in the direction of `rate * delta`.
- Each weight of an output unit moves by `rate * f'(s) * (target - output) * input`.
- Resized (zeroed) weights give a zero weighted sum.

Weights survive rebinding only when their length already fits. Binding a unit to an input of another length zeroes its weights and weighted deltas (Perceptron.cpp:71-79). Every rebuild and relink states this per unit: each weight vector is kept when it fits the new input and zeroed otherwise. So setting the bias flag a network already has keeps the weights of every layer after the first, and toggling it zeroes them all (`Network.BiasRefits`). A new network starts with every weight, weighted delta, weighted sum, output and delta at 0 (`Network.constructor`, `Network.BlankWeights`).

Three behaviours of the code are easy to miss; the model follows the code in each:

- **`c_NeuralNetwork::evaluate`** tests only that the input is bound, not the targets (NeuralNetwork.cpp:110).
- **The default (identity) activation** has a derivative factor equal to the weighted sum itself, not 1 (Perceptron.cpp:212-213).
- **Zero layers.** A network built with no layers is not a harmless do-nothing network. `setBias` computes `m_Size - 1` on a `size_t`, which wraps around, and then indexes `m_Layers[m_Size - 1]` (NeuralNetwork.cpp:84-87). The model's constructor therefore requires at least one layer.

Two `valarray` operations are undefined for operands of different lengths. The model fixes their meaning as follows:

- **`m_WeightedDeltaSumsOut += weights`** (PerceptronLayer.cpp:134) adds the overlapping prefix and keeps the buffer's length (`Valarray.Accumulate`). With bias on, a unit's weighted-delta vector is one longer than the buffer, so the bias weight's contribution is dropped.
- **The slice assignment in `setWeights(values)`** (Perceptron.cpp:65) is a precondition: `values` is no longer than the weights.

## Model

| member | source | states |
|---|---|---|
| Valarray.ColumnSumsEmpty | PerceptronLayer.cpp:131 | A zeroed error-out buffer holds the column sums of no weighted-delta vectors. |
| Valarray.Splice | NeuralNetwork.cpp:133 | Assigning `v` to the slice of the first `|v|` entries keeps the length: the first `|v|` entries become `v` and the rest are kept. |
| Valarray.Accumulate | PerceptronLayer.cpp:134 | `buf += c` keeps `buf`'s length. When `c` is at least as long, it is `buf` plus the prefix of `c`. When `c` is shorter, its entries are added to the prefix of `buf` and the rest of `buf` is kept. |
| Valarray.AccumulateColumnSums | PerceptronLayer.cpp:132-136 | One `+=` of a unit's weighted deltas turns the column sums of the units so far into the column sums including that unit. Entries beyond the buffer are dropped. |
| Valarray.DotZeros | Perceptron.cpp:74-78 | Weights zeroed by a resize give a weighted sum of 0 on any input. |
| Valarray.DotSelfNonNegative | Perceptron.cpp:166 | The weighted sum of an input against itself is never negative. |
| Valarray.DotAdd | Perceptron.cpp:166 | The weighted sum is additive in the weights. |
| Valarray.DotScale | Perceptron.cpp:166 | The weighted sum is homogeneous in the weights. |
| Valarray.DotAddScaled | Perceptron.cpp:163-182 | After `w += c * x`, the weighted sum on `x` is the old one plus `c * (x . x)`. |
| Valarray.DotAddScaledDirection | Perceptron.cpp:163-182 | The update `w += c * x` raises the weighted sum on `x` when `c >= 0` and lowers it when `c <= 0`. |
| Perceptrons.ActivDeriv | Perceptron.cpp:202-215 | For the default kind the derivative factor is the weighted sum itself, which is also that kind's output, not the constant 1. |
| Perceptrons.FitKeepsZeros | Perceptron.cpp:71-79 | Binding zero weights and weighted deltas to an input of any length leaves them zero. |
| Perceptrons.Perceptron.constructor | Perceptron.cpp:32-42 | A new unit has no input, no weights, no error source, zero sum, output and delta, rate 0 and activation tanh. |
| Perceptrons.Perceptron.SeedWeights | Perceptron.cpp:53-59 | Random seeding keeps the weight count and sets weight `k` to `draw_k / randMax`, where `randMax` is the C library's positive `RAND_MAX`. So every weight lies in [0, 1]. With no weights it does nothing. |
| Perceptrons.Perceptron.SetWeights | Perceptron.cpp:61-69 | With an input bound and a length mismatch, only the first `|values|` weights are overwritten and the rest kept. Otherwise the weights become `values`. Weights that fit the input still fit it afterwards. |
| Perceptrons.Perceptron.SetInputs | Perceptron.cpp:71-79 | Binds the input. A length mismatch resizes the weights and weighted deltas to the input length and zeroes them. A matching length keeps both. |
| Perceptrons.Perceptron.SetWeightedDeltaSum | Perceptron.cpp:81-86 | The error source becomes the upstream sum, which unbinds any target. |
| Perceptrons.Perceptron.SetTarget | Perceptron.cpp:88-93 | The error source becomes the target, which unbinds any upstream sum. |
| Perceptrons.Perceptron.SetTrainRate | Perceptron.cpp:95-98 | The rate becomes the given one; nothing else changes. |
| Perceptrons.Perceptron.SetActivation | Perceptron.cpp:100-103 | The activation becomes the given one; nothing else changes. |
| Perceptrons.Perceptron.CalcSumProducts | Perceptron.cpp:163-170 | Succeeds exactly when an input is bound. It then sets the weighted sum to `weights . input`; otherwise it leaves the sum unchanged. |
| Perceptrons.Perceptron.CalcActivation | Perceptron.cpp:184-200 | The output is `tanh(s / 2)`, `sigmoid(s)`, or `s` itself for any other kind. |
| Perceptrons.Perceptron.CalcDelta | Perceptron.cpp:202-233 | delta = f'(s) * (target - output) with a target. It is f'(s) * sum with an upstream sum, and exactly 0 with neither. For the default kind, f'(s) is `s`. |
| Perceptrons.Perceptron.CalcNewWeights | Perceptron.cpp:172-182 | Succeeds exactly when an input is bound. The weighted deltas then become `delta * old weights` and each weight moves by `rate * delta * input`. Without an input nothing changes. |
| Perceptrons.Perceptron.Evaluate | Perceptron.cpp:130-138 | Succeeds exactly when an input is bound, and then the sum and output are those of the input. Otherwise sum and output are unchanged. |
| Perceptrons.Perceptron.Train | Perceptron.cpp:140-146 | Always reports success. delta is computed from the last evaluation and the error source. The weights take one step when an input is bound and stay put otherwise. |
| Perceptrons.TargetUpdateLaw | Perceptron.cpp:172-182 | For a unit with a target, each weight moves by `rate * f'(s) * (target - output) * input`. |
| Perceptrons.TrainingMovesSum | Perceptron.cpp:163-182 | A training step moves the unit's weighted sum on the same input by exactly `rate * delta * (x . x)`. |
| Perceptrons.TrainingDirection | Perceptron.cpp:163-182 | A training step moves the weighted sum up when `rate * delta >= 0` and down when `rate * delta <= 0`. |
| Perceptrons.IdentityZeroWeightsStay | Perceptron.cpp:196-213 | With the default activation, zero weights give delta 0 and stay zero after a step, whatever the error source. |
| PerceptronLayers.ResolveElemOf | PerceptronLayer.cpp:220-238 | A unit connected to element `j` of a layer's error valarray reads entry `j` of it. |
| PerceptronLayers.NewUnits | PerceptronLayer.cpp:175 | Resizing the unit vector creates `n` distinct default units. |
| PerceptronLayers.Layer.constructor | PerceptronLayer.cpp:29-41 | A new layer of `n` units is valid and linked to nothing. It has bias on, rate 0 and tanh, and its output buffer is `n` zeros followed by 1.0. |
| PerceptronLayers.Layer.BuildAlone | PerceptronLayer.cpp:172-200 | The constructor's `_build`: the outputs get their built layout and nothing gets an error source. |
| PerceptronLayers.Layer.SetInput | PerceptronLayer.cpp:52-56 | This layer's units read p's outputs. Each unit keeps its weights and weighted deltas when they fit that length and has them zeroed to it otherwise. p records this layer as its next and takes its upstream sums from this layer's error-out buffer, which is zeroed to p's unit count. A next layer's error-out buffer is zeroed to this layer's unit count. |
| PerceptronLayers.Layer.SetInputs | PerceptronLayer.cpp:58-62 | Every unit reads `v`. Its weights and weighted deltas are kept if its weights fit `v` and are zeroed to its length otherwise. |
| PerceptronLayers.Layer.SetTargets | PerceptronLayer.cpp:64-72 | A no-op unless `v` has one element per unit. Otherwise the layer is driven by `v`, the upstream sums are unbound, and unit `j` takes target `j`. |
| PerceptronLayers.Layer.SetTrainRate | PerceptronLayer.cpp:74-81 | The layer and every unit take the rate; nothing else changes. |
| PerceptronLayers.Layer.SetActivation | PerceptronLayer.cpp:83-90 | The layer and every unit take the activation; nothing else changes. |
| PerceptronLayers.Layer.SetBias | PerceptronLayer.cpp:92-96 | Records the flag and rebuilds as `Build` does. Every unit keeps its weights and weighted deltas when they fit the input the layer then reads and has them zeroed otherwise. With no input they are unchanged. |
| PerceptronLayers.Layer.Evaluate | PerceptronLayer.cpp:118-126 | With an input bound, every unit is evaluated on it and slot `j` holds unit `j`'s output. With none, nothing changes. The bias slot stays 1.0. |
| PerceptronLayers.Layer.Train | PerceptronLayer.cpp:128-137 | Every unit's delta comes from its error source as it was. Every unit takes one weight step. The error-out buffer ends as the column sums of the units' weighted deltas, over the entries it has. |
| PerceptronLayers.Layer.TrainUnit | PerceptronLayer.cpp:133-135 | Unit `i` trains, its weighted deltas are added into the error-out buffer, and no other unit changes. |
| PerceptronLayers.Layer.SetOutput | PerceptronLayer.cpp:139-142 | Records the next layer. |
| PerceptronLayers.Layer.SetWeightedDeltaSumsIn | PerceptronLayer.cpp:144-151 | The layer is driven by the upstream sums and the targets are unbound. Unit `j` takes element `j` only when `v` has one element per unit; otherwise the units keep their sources. |
| PerceptronLayers.Layer.Build | PerceptronLayer.cpp:172-200 | The outputs get `size` zero slots, plus 1.0 when bias is on. The layer links to its previous layer as SetInput does. Each unit's weights and weighted deltas are kept when they fit the input the layer reads and zeroed to it otherwise. A next layer's error-out buffer is zeroed to this layer's unit count. Units take their errors from the error source only when it fits. |
| PerceptronLayers.Layer.Relink | PerceptronLayer.cpp:185-199 | After the outputs are rebuilt: the neighbours are relinked and the units reconnected as `Build` says, with each weight vector kept when it fits and zeroed otherwise. |
| PerceptronLayers.Layer.LinkNeighbours | PerceptronLayer.cpp:185-198 | The previous layer, if any, is linked to this one, and each unit's weights and weighted deltas are kept when they fit its outputs and zeroed otherwise. With no previous layer the weights are unchanged. The next layer's error-out buffer, if any, is zeroed to this layer's unit count. |
| PerceptronLayers.Layer.ResizeWeightedDeltaSumsOut | PerceptronLayer.cpp:197 | The error-out buffer becomes `n` zeros. |
| PerceptronLayers.Layer.ResizeOutputs | PerceptronLayer.cpp:176-184 | The output buffer becomes `size` zeros, followed by 1.0 when bias is on. |
| PerceptronLayers.Layer.LinkInputLayer | PerceptronLayer.cpp:185-194 | This layer reads the previous layer's outputs, keeping each unit's weights and weighted deltas when they fit and zeroing them otherwise. The previous layer's next is this layer. The error-out buffer is zeroed to the previous layer's unit count and becomes that layer's upstream sums. |
| PerceptronLayers.Layer.Connect | PerceptronLayer.cpp:202-208 | Units are bound to the input, if any, keeping their weights and weighted deltas when they fit it and zeroing them otherwise. They are bound to the error source when it fits and keep their sources otherwise. |
| PerceptronLayers.Layer.ConnectInputs | PerceptronLayer.cpp:210-218 | With an input, every unit is bound to it, keeping its weights and weighted deltas when they fit and zeroing them otherwise. Without one, nothing changes. |
| PerceptronLayers.Layer.ConnectTargets | PerceptronLayer.cpp:220-228 | Only targets with one element per unit are connected, unit `j` to element `j`. |
| PerceptronLayers.Layer.ConnectWeightedDeltaSums | PerceptronLayer.cpp:230-238 | Only upstream sums with one element per unit are connected, unit `j` to element `j`. |
| NeuralNetworks.UpdatedLocalInputsLayout | NeuralNetwork.cpp:129-151 | Refreshing a local input of the length `_resizeLocalInputs` gave it yields the input followed by 1.0 (bias on), or the input itself (bias off). |
| NeuralNetworks.UpdatedLocalInputs | NeuralNetwork.cpp:129-140 | With bias on, the length is kept, the last entry is 1.0, and every other entry is the input's where the input has one and the old entry otherwise. With bias off, the result is the input. |
| NeuralNetworks.NewLayers | NeuralNetwork.cpp:167-175 | One new layer per entry of the size list, with that many units, pairwise sharing no object. |
| NeuralNetworks.Network.constructor | NeuralNetwork.cpp:29-38 | One layer per size, with that many units, linked as `_connect` links them. The network takes the given bias, rate and activation. The local input is zeros sized for the input and bias. Every layer's outputs are zeros plus the bias slot when it carries bias. Every unit's weights, weighted deltas, weighted sum, output and delta are 0. The last layer takes the targets exactly when their length matches. |
| NeuralNetworks.Network.BlankWeights | NeuralNetwork.cpp:29-38 | In a network as the constructor leaves it, every unit has one zero weight per entry of what its layer reads, so its weighted sum is 0 on any input. |
| NeuralNetworks.Network.FreshUnwired | NeuralNetwork.cpp:171-175 | Freshly built layers form a network that `_connect` may wire, with every weight, weighted delta, sum, output and delta 0. |
| NeuralNetworks.Network.Wire | NeuralNetwork.cpp:180-186 | `_connect` leaves the network linked and tuned, and keeps all-zero weights zero. The last layer takes the targets exactly when their length matches. |
| NeuralNetworks.Network.FirstRefitZeroed | NeuralNetwork.cpp:188-196 | Binding the first layer to the local input, which refits only its units, keeps all-zero weights zero. |
| NeuralNetworks.Network.ConnectInputs | NeuralNetwork.cpp:188-196 | The first layer reads the local input. Each of its units keeps its weights and weighted deltas when they fit it and has them zeroed otherwise. |
| NeuralNetworks.Network.ConnectTargets | NeuralNetwork.cpp:198-206 | The last layer takes the targets only when their length matches its unit count. |
| NeuralNetworks.Network.ConnectLayers | NeuralNetwork.cpp:208-216 | Linking every layer after its predecessor, in order, makes the whole network linked, keeps it tuned, keeps the last layer's error source, and keeps all-zero weights zero. |
| NeuralNetworks.Network.LinkLayer | NeuralNetwork.cpp:213 | Layer `i` is linked after layer `i - 1` and no other object of the network changes. |
| NeuralNetworks.Network.LinkKeepsZeroed | NeuralNetwork.cpp:213 | Linking layer `i` refits only its units' weights, so all-zero weights stay zero. |
| NeuralNetworks.Network.SetInputs | NeuralNetwork.cpp:49-54 | The network stays valid. The local input is zeroed to the input length, plus one with bias. Each first-layer unit keeps its weights and weighted deltas when they fit the new local input and has them zeroed otherwise. |
| NeuralNetworks.Network.SetTargets | NeuralNetwork.cpp:56-60 | The network stays valid. The last layer takes the targets when their length matches and keeps its error source otherwise. |
| NeuralNetworks.Network.RetargetLast | NeuralNetwork.cpp:198-206 | Offering the targets to the last layer keeps the network linked. |
| NeuralNetworks.Network.SetTrainRate | NeuralNetwork.cpp:62-69 | The network and every layer (hence every unit) take the rate, and the network stays valid. |
| NeuralNetworks.Network.SetActivation | NeuralNetwork.cpp:71-78 | The network and every layer (hence every unit) take the activation, and the network stays valid. |
| NeuralNetworks.Network.SetBias | NeuralNetwork.cpp:80-90 | Every layer but the last takes flag `b` and the last takes none, each with its rebuilt output layout. The local input is sized for `b`. Every layer after the first holds its old weights and weighted deltas, kept where they fit what it now reads and zeroed otherwise. The first layer's are refitted to the local input before and after the resize. The network is valid again. |
| NeuralNetworks.Network.BiasRefits | NeuralNetwork.cpp:80-90 | Given setBias's outcome: the flag the network already had keeps every weight and weighted delta of the layers after the first; a toggled flag zeroes them all. |
| NeuralNetworks.Network.BiasKeepsZeroed | NeuralNetwork.cpp:80-90 | setBias keeps all-zero weights zero. |
| NeuralNetworks.Network.RebuildAll | NeuralNetwork.cpp:83-87 | Rebuilding the layers in increasing order keeps the network linked and tuned. It sets every flag and output layout. Every layer holds the weights and weighted deltas it had before, each kept where it fits what the layer now reads and zeroed otherwise. |
| NeuralNetworks.Network.RefitAdvance | NeuralNetwork.cpp:84-87 | Rebuilding layer `i` refits its own weights to what it reads and leaves every other layer's weights, and what the earlier layers read, unchanged. |
| NeuralNetworks.Network.RebuildLayer | NeuralNetwork.cpp:84-87 | Rebuilding layer `i` changes only it, its previous layer and its next layer's error-out buffer, as the layer's `setBias` says. Its units' weights are kept where they fit its input and zeroed otherwise. |
| NeuralNetworks.Network.Rebuilt | NeuralNetwork.cpp:84-87 | After layer `i` is rebuilt, the network is linked again and layer `i`'s weights fit. Every other layer keeps its flag, its outputs and (unless it reads layer `i`) the fit of its weights. |
| NeuralNetworks.Network.ResizeAndConnectInputs | NeuralNetwork.cpp:88-89 | Resizing the local input and rebinding the first layer makes the network valid. No layer's outputs change. Each first-layer unit keeps its weights and weighted deltas when they fit the resized local input and has them zeroed otherwise. |
| NeuralNetworks.Network.RebindFirst | NeuralNetwork.cpp:88-89 | After the rebuilds, resizing the local input and rebinding the first layer refits only the first layer's weights. Every later layer keeps the refitted weights the rebuilds left. |
| NeuralNetworks.Network.ReconnectInputs | NeuralNetwork.cpp:188-196 | Rebinding the first layer keeps the network linked and makes every weight vector fit. |
| NeuralNetworks.Network.Evaluate | NeuralNetwork.cpp:107-116 | The local input is refreshed from the input as `_updateLocalInputs` does; when it has the length `_resizeLocalInputs` gave it, it becomes the input plus the bias slot. Every layer is then evaluated, first to last, on what it reads. |
| NeuralNetworks.Network.EvaluateLayer | NeuralNetwork.cpp:112-114 | Evaluating layer `i` changes only its outputs and its units' sums and outputs. |
| NeuralNetworks.Network.EvalKeepsValid | NeuralNetwork.cpp:112-114 | Evaluating a layer keeps the network valid. |
| NeuralNetworks.Network.RefreshLocalInputs | NeuralNetwork.cpp:129-140 | On a valid network, the local input is updated as `_updateLocalInputs` says and keeps its length. When it had the length `_resizeLocalInputs` gave it, it becomes the input followed by 1.0 with bias on, or the input itself. |
| NeuralNetworks.Network.Train | NeuralNetwork.cpp:118-127 | The local input is refreshed as Evaluate says. After the backward pass, every layer's deltas are those of the current contents of its error source, and every unit took exactly one weight step from the weights and weighted deltas it had before. Every error-out buffer holds the column sums of its layer's weighted deltas, and the network is still valid. |
| NeuralNetworks.Network.StepsAdvance | NeuralNetwork.cpp:123-125 | Training layer `i` steps its own units' weights and keeps the steps later layers took and the weights earlier layers still hold. |
| NeuralNetworks.Network.TrainLayer | NeuralNetwork.cpp:123-125 | Training layer `i` changes only its error-out buffer and its units' deltas and weights, and steps each unit's weights from those it had. It leaves the targets' contents unchanged. |
| NeuralNetworks.Network.TrainKeepsAbove | NeuralNetwork.cpp:123-125 | Training layer `i` keeps the deltas and error-out sums that training each later layer established. |
| NeuralNetworks.Network.TrainKeepsValid | NeuralNetwork.cpp:123-125 | Training a layer keeps the network valid. |
| NeuralNetworks.Network.UpdateLocalInputs | NeuralNetwork.cpp:129-140 | With bias on, the first `|inputs|` entries become the input and the last entry 1.0. With bias off, the local input becomes the input. |
| NeuralNetworks.Network.ResizeLocalInputs | NeuralNetwork.cpp:142-151 | The local input becomes `|inputs| + 1` zeros with bias on, `|inputs|` zeros otherwise. |
| NeuralNetworks.Network.OutputsShape | NeuralNetwork.cpp:102-105 | The network's outputs have exactly one entry per unit of the last layer, which never has a bias slot. |
| NeuralNetworks.Network.Outputs | NeuralNetwork.cpp:102-105 | `getOutputs` returns one of the network's own output buffers, never an error-out buffer or the local input. |
| NeuralNetworks.Network.WireAndConfigure | NeuralNetwork.cpp:29-38 | After `_build`: `_connect`, setBias, setTrainRate and setActivation leave a valid network with the given bias, rate and activation, built output layouts, zeroed local input, and every unit still blank. |
| NeuralNetworks.Network.ConfigureBias | NeuralNetwork.cpp:35 | The constructor's setBias leaves a valid network with the given flag, its output layouts and a zeroed local input, and keeps zero weights zero. |
| NeuralNetworks.Network.ConfigureUnits | NeuralNetwork.cpp:36-37 | The constructor's setTrainRate and setActivation leave the network valid with the given rate and activation, and change no output buffer and no weight. |

## Left out

- Copy constructors and `_copy` (Perceptron.cpp:44-47, 148-161; PerceptronLayer.cpp:43-46, 153-170; NeuralNetwork.cpp:40-43, 153-165): they copy raw pointers that still alias the original's buffers, which has no value-level contract.
- Destructors, `operator[]` and the getters (`getSize`, `getOutput`, `getWeights`, `getWeightedDeltas`, `getOutputs`, `getWeightedDeltaSumsOut`): they are plain field reads, available as fields. `getOutputs` of the network is `Network.Outputs`.
- `_fcmp` (Perceptron.cpp:235-238): an unused floating-point comparison.
- `tanh`, `exp`, `cosh` and `pow`: these, and double rounding, are not modelled. The four transcendental functions are the uninterpreted `Transcendentals` parameter, so their ranges ((-1, 1) for tanh, (0, 1) for the sigmoid) are not proved.
- `rand()` and `RAND_MAX`: the successive results of `rand()` are the parameter `draws` of `SeedWeights`, and `RAND_MAX`, which the C library fixes, is its positive parameter `randMax`.
- Null checks on the network's input and target pointers: they always succeed, because both are set from references. The model's `Network.inputs` and `Network.targets` are never null.
- Dangling pointers and `valarray` reallocation: pointers are object references into stable `Vec` objects.
- Integer width: `size_t` wrap-around is not modelled. Unit and layer counts are `nat`.
- Unit-count changes: the unit vector is resized only to the same `m_Size`, so the unit list of a layer is fixed at construction.
- NeuralNetworks.Network.constructor: requires at least one layer, because with none `setBias` underflows `m_Size - 1` and indexes out of range. `m_Bias`, `m_TrainRate` and `m_ActType` start at the defaults of a new layer instead of holding no defined value before the setters run.
- NeuralNetworks.Network.Evaluate: with bias on, requires the local input to have room for the input, since a longer slice assignment is undefined. With bias off, requires the input to keep the local input's length, since the first layer's weighted sums are undefined otherwise. An input that shrank since `setInputs`, with bias on, is allowed.
- NeuralNetworks.Network.Train: requires that, as Evaluate does, and also that the targets still cover the last layer's units. A shrunken target valarray leaves the units' target pointers dangling.
- NeuralNetworks.Network.SetInputs: requires that the new input is not the network's own local input buffer (an aliasing case the source does not consider).
- NeuralNetworks.Network.SetTargets: requires that the new targets are not an error-out buffer of the network.
- NeuralNetworks.Network.SetBias: requires that the caller's input is not an object of the network.
- PerceptronLayers.Layer.SetInputs: requires that `v` is neither the layer's own output buffer nor its error-out buffer. Every call in the source passes the network's local input or another layer's outputs.
- PerceptronLayers.Layer.SetInput: requires that `p`, this layer and the next layer share no object. Every call in the source links two distinct layers of one network.
- PerceptronLayers.Layer.SetTargets: requires that the targets are not the layer's own error-out buffer.
- PerceptronLayers.Layer.Evaluate: requires every unit's weights to fit the bound input, because the `valarray` product of different lengths is undefined. The network's invariants always provide this.
- PerceptronLayers.Layer.Train: requires, in addition, every unit's error pointer to be dereferenceable.
- Perceptrons.Perceptron.CalcSumProducts: requires the weights to fit the bound input, for the same reason. So do `Perceptrons.Perceptron.Evaluate`, `Perceptrons.Perceptron.CalcNewWeights` and `Perceptrons.Perceptron.Train`.
- Perceptrons.Perceptron.SetWeights: requires `values` to be no longer than the weights when the slice assignment is taken, since a longer slice is undefined.
