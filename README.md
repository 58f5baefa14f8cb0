# tiny-cpp-nn in Dafny

A model of `nn.h`, the single header of tiny-cpp-nn. It holds three parts:

- a dense row-major `Matrix`;
- a fully connected `NeuralNetwork`, with forward propagation, mean squared error cost,
  backpropagation over a table of samples and a gradient-descent step;
- the `Batch` cursor, which trains a network on a table one slice of rows at a time.

The scalar type `float` is modelled as `real`. The model has seven modules:

- `Activations` (`activations.dfy`): `Actf` and `Dactf`. The transcendental functions
  (`exp`-based sigmoid and tanh, `sin`, `cos(asin y)`) are caller-supplied values of a
  `Transcendental` datatype. ReLU and the Sigmoid, Tanh and ReLU derivatives are exact.
- `FlatIndex` (`flat_index.dfy`): the index arithmetic of the flat layout, where cell (i, j)
  sits at `i * cols + j`.
- `Matrices` (`matrix.dfy`): the class `Matrix`. It has constant `rows` and `cols` and an
  `array<real>` buffer. Its methods fill, activate, add, divide and subtract in place. It also
  has `Dot` and `SliceRow`. Pure definitions on sequences (`Product`, `RowSlice`, `Rows`, ...)
  specify these methods.
- `Propagation` (`propagation.dfy`): what the network computes, on values. It covers:
  - the forward pass (`ForwardAll`);
  - the cost (`CostOf`);
  - the per-sample gradients that backpropagation accumulates (`LayerWeightGrads`,
    `UpGradsOf`) and their mean over a table (`WeightGradients`, `BiasGradients`);
  - the gradient step (`Descend`).
- `Backward` (`backward.dfy`): the inner loops of backpropagation for one layer.
- `Networks` (`network.dfy`): the class `Network`. It holds the weight, bias and activation
  matrices of `nn.h`'s `NeuralNetwork`. Each of its methods is proved against the
  `Propagation` definitions.
- `Batches` (`batch.dfy`): `Batch::process` as the class `Batch`. It is specified by a pure
  cursor step `Step` over a `Cursor` value, together with lemmas about a whole pass.

The compile-time switches `NN_ACT`, `NN_RELU_PARAM` and `NN_BACKPROP_TRADITIONAL` become a
`Config` value. The network receives it in its constructor.

The two backpropagation conventions are proved equivalent only for a network with one layer of
weights (`ConventionsAgreeSingleLayer`). The code applies the scale `s` again at every layer
(nn.h:272, nn.h:278-279). With a hidden layer, the default convention's weight gradient of the
layer below the output is therefore twice the traditional one (`ConventionsDifferBelowOutput`).
So the two settings of the switch are not interchangeable once the network has a hidden
layer.

## Model

| member | source | states |
|---|---|---|
| Activations.Relu | nn.h:27 | the result is max(0, x): non-negative, at least x, and equal to x or 0 |
| Activations.Actf | nn.h:32-45 | dispatch on the activation kind; a ReLU output is non-negative, at least x, and x or 0 |
| Activations.Dactf | nn.h:48-55 | the derivative from the output y: y (1 - y), 1 if y >= 0 else the leak, 1 - y*y (the supplied cos(asin y) for Sin); the ReLU case is 1 exactly when y >= 0 (or the leak is 1) and otherwise the leak |
| Activations.ReluDerivativeOnOutputs | nn.h:53 | on an actual ReLU output the derivative is 1; on a negative value it is the leak |
| Activations.SigmoidDerivativeBounds | nn.h:51 | for a sigmoid output y in [0, 1], y (1 - y) lies in [0, 1/4] |
| Activations.TanhDerivativeBounds | nn.h:55 | for a tanh output y in [-1, 1], 1 - y^2 lies in [0, 1] |
| FlatIndex.CellInRange | nn.h:78-87 | every in-bounds cell (i, j) has flat position i * cols + j inside the rows * cols buffer |
| FlatIndex.CellDivMod | nn.h:78-87 | the flat position of (i, j) gives back i by division and j by remainder |
| FlatIndex.PositionCell | nn.h:78-87 | every position inside the buffer is the position of an in-bounds cell |
| FlatIndex.CellPositionUnique | nn.h:78-87 | two cells with the same flat position are the same cell |
| Matrices.Matrix.constructor | nn.h:75-76 | a fresh rows x cols matrix with a buffer of rows * cols values, every one equal to d |
| Matrices.Matrix.Get | nn.h:84-87 | reading (i, j) under the bounds check returns the value at i * cols + j |
| Matrices.Matrix.Set | nn.h:78-81 | writing through the reference sets cell (i, j), and no other cell changes |
| Matrices.Matrix.Fill | nn.h:89 | every value becomes x |
| Matrices.Matrix.ApplyActivation | nn.h:96-100 | every value v becomes Actf(v) |
| Matrices.Matrix.AddInPlace | nn.h:102-109 | for same-shaped matrices, every value becomes its old value plus other's, aliasing included |
| Matrices.Matrix.Dot | nn.h:111-122 | a fresh a.rows x b.cols matrix whose cell (i, j) is the sum over k of a(i, k) * b(k, j) |
| Matrices.Matrix.AccumulateCell | nn.h:116-118 | the innermost loop of dot leaves cell (i, j) equal to that sum and changes no other cell |
| Matrices.ProductCell | nn.h:111-122 | cell (i, j) of the product is the sum over k < a.cols of a(i, k) * b(k, j) |
| Matrices.Matrix.SliceRow | nn.h:125-133 | a fresh 1 x n matrix whose entry k is cell (row, start + k) |
| Matrices.RowSliceEntries | nn.h:125-133 | entry k of a row slice is the indexed cell (row, start + k) |
| Matrices.Matrix.Clone | nn.h:221 | copy-assignment gives a matrix of the same shape with the same values in its own buffer |
| Matrices.Matrix.DivideBy | nn.h:285-292 | every value is divided by n |
| Matrices.Matrix.SubScaled | nn.h:298-303 | every value v becomes v - rate * other's value |
| Matrices.SubScaledUndo | nn.h:298-303 | stepping with rate and then with -rate restores the values |
| Matrices.RowsEntry | nn.h:329-334 | cell (i, j) of a block of rows is cell (begin + i, j) of the table |
| Matrices.SumOfAllZero | nn.h:239-283 | summing zero gradients gives zero |
| Propagation.Scale | nn.h:260-264 | the scale s is 1 in the traditional convention and 2 otherwise |
| Propagation.ZeroWeights | nn.h:157-167 | a fresh network has an arch[l] x arch[l+1] weight matrix per layer |
| Propagation.ZeroBiases | nn.h:157-167 | a fresh network has a 1 x arch[l+1] bias row per layer |
| Propagation.ZeroLayers | nn.h:157-167 | a fresh network has a 1 x arch[l] activation row per layer |
| Propagation.LayerOutput | nn.h:206-208 | output j of a layer is Actf(bias j plus the weighted sum of the inputs) |
| Propagation.ForwardChain | nn.h:204-210 | the forward pass keeps the input and computes layer l+1 from layer l |
| Propagation.ForwardUpToStep | nn.h:205-209 | computing layer i+1 advances a forward pass by one layer |
| Propagation.ForwardUpToEnds | nn.h:204-210 | a pass with no layers computed is its starting point; with all computed it is the forward pass |
| Propagation.ReluLayersNonNegative | nn.h:27 | with ReLU every layer after the input is non-negative, whatever the parameters |
| Propagation.SquaredErrorOfExactOutput | nn.h:224-227 | an output equal to its target contributes no error |
| Propagation.TotalErrorNonNegative | nn.h:216-228 | the summed squared error is never negative |
| Propagation.CostNonNegative | nn.h:212-230 | the cost is never negative |
| Propagation.FittedCostZero | nn.h:212-230 | a network that reproduces every row of the table has cost 0 |
| Propagation.OutputGrad | nn.h:252-258 | an output equal to its target has a zero output gradient |
| Propagation.WeightStepCell | nn.h:278 | the weight step of (k, j) is unit j's error signal times input k |
| Propagation.GradSumsEmpty | nn.h:236-237 | before the first row the gradient sums are those of a zeroed network |
| Propagation.GradSumsStep | nn.h:239-283 | one row's gradients, from its forward pass, extend the sums by that row |
| Propagation.GradientsOfSums | nn.h:285-292 | the gradients are the sums over all rows divided by the number of rows |
| Propagation.DescendUndo | nn.h:296-305 | a step with rate and then with -rate against the same gradient restores the parameters |
| Propagation.DescendZero | nn.h:296-305 | a step against a zero gradient changes nothing |
| Propagation.FittedUpGradZero | nn.h:252-281 | when the output equals the target, the gradient reaching every layer is zero |
| Propagation.FittedSampleNoGradient | nn.h:252-281 | a sample the network reproduces contributes nothing to any weight or bias gradient |
| Propagation.FittedGradSumsZero | nn.h:239-283 | on a table the network reproduces, every layer's gradient sum is zero |
| Propagation.FittedTableStationary | nn.h:232-305 | on a table the network reproduces, a learning step leaves every weight and bias as it was |
| Propagation.ForwardIgnoresConvention | nn.h:204-210 | the forward pass does not depend on the backpropagation convention |
| Propagation.OutputDeltasAgree | nn.h:252-264 | both conventions give the output layer the same error signals |
| Propagation.ConventionsAgreeSingleLayer | nn.h:252-292 | with one layer of weights, both conventions give the same gradients |
| Propagation.WeightStepDoubles | nn.h:272-278 | the scale 2 doubles a layer's weight step relative to the scale 1 |
| Propagation.ConventionsDifferBelowOutput | nn.h:260-281 | with a hidden layer, the default convention's gradient of the layer below the output is twice the traditional one |
| Backward.BackwardCell | nn.h:274-280 | iteration k adds delta * aPrev(0, k) to weight (k, j) and delta * w(k, j) to gaPrev(0, k) |
| Backward.BackwardUnit | nn.h:267-281 | unit j adds its error signal to bias j, its column of weight steps to gw, and its column of back sums to gaPrev |
| Backward.BackwardLayer | nn.h:266-282 | one layer adds its bias step, its weight step and the gradient it passes back |
| Networks.Network.constructor | nn.h:157-167 | arch[l] x arch[l+1] weights, 1 x arch[l+1] biases and 1 x arch[l] activations, all zero and in distinct buffers |
| Networks.Network.ZeroActs | nn.h:248-250 | every activation row becomes 0; weights and biases are untouched |
| Networks.Network.Zero | nn.h:173-183 | every activation, weight and bias becomes 0 |
| Networks.Network.SetInput | nn.h:221 | the input row becomes x; no other layer and no parameter changes |
| Networks.Network.ForwardLayer | nn.h:206-208 | layer i+1 becomes Layer(layer i, ws[i], bs[i]); nothing else changes |
| Networks.Network.Forward | nn.h:204-210 | the activations become the forward pass of the input, and the parameters are unchanged |
| Networks.ComputeLayer | nn.h:206-208 | dot of the row with the weights, plus the biases, through the activation: a fresh 1 x n matrix equal to Layer |
| Networks.AddSquaredError | nn.h:224-227 | the cost grows by the squared error of the output against the target row |
| Networks.Network.LoadRow | nn.h:218-222 | after loading row i the activations are its forward pass, and the target is row i's outputs |
| Networks.Network.AddRowError | nn.h:216-228 | one iteration of the row loop: the cost grows by row i's squared error, and the activations hold row i's forward pass |
| Networks.Network.CostStep | nn.h:216-228 | the running cost after rows 0..i is the total squared error of those rows |
| Networks.Network.Cost | nn.h:212-230 | the result is the mean squared error over the table, and the parameters are unchanged |
| Networks.Network.SetOutputGradient | nn.h:252-258 | g's output row becomes the output error (doubled in the traditional convention); g's other rows are untouched |
| Networks.Network.StartSample | nn.h:248-258 | the gradient activations become zero except the output gradient |
| Networks.Network.BackwardPass | nn.h:266-282 | the layer loop adds one sample's weight and bias gradients and leaves its activation gradients |
| Networks.Network.AccumulateSample | nn.h:248-282 | one sample adds its gradients to g's weights and biases; this network is unchanged |
| Networks.Network.BackpropRow | nn.h:239-283 | one row: forward pass of its inputs, then its gradients added to g |
| Networks.Network.AccumulateRows | nn.h:239-283 | after the row loop g holds the gradients summed over every row |
| Networks.Network.DivideParams | nn.h:285-292 | every weight and bias is divided by n |
| Networks.Network.Backprop | nn.h:232-295 | a fresh network of the same architecture holding the mean gradients over the table; weights and biases unchanged |
| Networks.Network.LearnLayer | nn.h:297-304 | layer i's weights and biases become old - rate * g's |
| Networks.Network.Learn | nn.h:296-305 | each weight and bias becomes old - rate * gradient; g and the activations are untouched |
| Batches.SliceSize | nn.h:321-325 | the slice is batch_size rows, or the rows that remain, never past the end of the table |
| Batches.Step | nn.h:315-345 | begin becomes the start plus batch_size, and finished holds exactly when begin >= rows |
| Batches.BatchCountBounds | nn.h:342 | ceil(rows / batch_size) is the slice count whose last slice starts before the end and reaches it |
| Batches.PassPositions | nn.h:315-345 | call k of a pass leaves begin at k * batch_size, finished exactly after the last slice |
| Batches.SliceOfCall | nn.h:321-334 | slice k starts at k * batch_size and is full-sized except the last |
| Batches.PassCoversRows | nn.h:321-339 | the slices of a pass cover the rows of the table exactly |
| Batches.SixRowsOneByOne | nn.h:315-345 | six rows one at a time: six calls make a pass |
| Batches.SeventhCallRestarts | nn.h:315-319 | after a finished pass of six rows, the next call starts over at row 0 |
| Batches.PassCostIsMean | nn.h:338-344 | over a pass the running cost is the sum of the slice costs, and their mean after the last slice |
| Batches.CopyRows | nn.h:329-334 | the copied batch is a fresh matrix holding rows begin .. begin + size of t |
| Batches.TrainOnSlice | nn.h:329-338 | backprop, learn and cost on the slice: one gradient step on it, and its cost under the new parameters |
| Batches.Batch.constructor | nn.h:308-311 | a fresh cursor: begin 0, cost 0, not finished |
| Batches.Batch.Plan | nn.h:315-325 | the slice starts at row 0 after a finished pass, else at begin, and is clamped to the rows that remain |
| Batches.Batch.Advance | nn.h:315-345 | the cursor takes one Step, and the cost is reset, grown by the slice cost and averaged at the end of a pass |
| Batches.Batch.Process | nn.h:313-346 | one call: the network takes a gradient step on the next slice, and the cursor and cost move on as Step and the cost rule say |

## Left out

- Floating point: `float` is `real`, so rounding, overflow to infinity and NaN are not modelled.
- Transcendental functions: `exp`, `sin` and `cos(asin y)` (nn.h:26-29, nn.h:57) are parameters of the model, so the Sin case of `Dactf` is not derived.
- Randomness: `rand_float`, `Matrix::randomize` and `NeuralNetwork::randomize` (nn.h:63-67, nn.h:91-94, nn.h:185-194) are not modelled.
- Printing: `Matrix::print` and `NeuralNetwork::print` (nn.h:135-146, nn.h:195-202) are console output.
- The preprocessor switches are a `Config` value passed to the constructor, not separate builds.
- `forward`'s optional activation argument is not modelled: the network always uses its configured activation, which is the only way nn.h calls it.
- `get_input` and `get_output` are read directly as the first and last activation rows.
- `size_t` arithmetic is unbounded: the wrap-around of `begin + batch_size` and of `i * cols + j` for huge sizes is not modelled.
- A failed `assert` in the source aborts the program. The model states each assert as a precondition.
- Networks.Network.Cost, Networks.Network.Backprop: require at least one row, because the source divides by `t.rows` (nn.h:229, nn.h:287).
- Batches.Batch.Process: requires `batch_size > 0` and a table with rows. It also requires `finished` or `begin < t.rows`, the state every call leaves, which rules out the unsigned underflow of `t.rows - begin` (nn.h:324).
- Batches.Batch.Process: requires that the table does not share a buffer with the network's weights or biases.
- Networks.Network.Backprop: does not state the activation gradients left in the returned network, only its weights and biases.
- Networks.Network.SetInput: replaces the input row by a freshly copied matrix rather than copying the values into the existing buffer. No other matrix aliases the input row, so the values are the same.
- The demo programs (`xor.cpp`, `demo/xor_nn.cpp`, `main.cpp`) are not part of this model: they are drivers over random data and console output.
