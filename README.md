# NeuralNetwork engine in Dafny

A Dafny model of the engine in `src/neuralNetworkBasics` of the Kotlin project
NeuralNetwork. The engine is a fully connected feed-forward network with sigmoid activations,
trained by online gradient descent (batch size 1) against a one-hot target. It has three parts:

- **The dense matrix** (`Matrix.kt` and its near-copy `WeightsMatrix.kt`), modelled once as the
  class `Matrices.Matrix`. The class has a `cells: seq<seq<real>>` field that its methods
  reassign. The cell accessors take `(neuron, toNeuron)` and address row `toNeuron`, column
  `neuron`.
- **The helpers of `NetworkLogic.kt`**, in module `NetworkLogic`. They build one zero matrix per
  pair of adjacent layers, plus the zero bias and activation arrays. They also bulk-fill those
  and compute one layer's output, `sigmoid(W·x + b)`.
- **The network object of `NeuralNetwork.kt`**, the class `NeuralNetworks.NeuralNetwork`. It owns
  the weight matrices, the bias arrays (`array<real>`, updated in place) and the activations
  `a`. Its operations are the forward pass (`predict`), the backpropagated gradients
  (`allWGradients`, `allBGradients`), the learning step (`learnNetwork`) and the two cost
  measures.

Module `NetworkSpec` states on values what the network computes:
- the forward pass `Forward`;
- the per-neuron deltas `BiasDelta`;
- the weight-gradient artifact `WeightGradient`, shaped like a weight matrix;
- one learning step `Learned`;
- the squared error.

Every imperative operation is proved against those functions. The lemmas then prove these
properties of them:
- the forward pass is the unique chain of layer outputs;
- every cell of a row of the weight-gradient artifact holds the delta of that row's neuron;
- a layer's deltas read the weights of the later edge sets. The learning step updates the
  edge sets from the last to the first, so by the time it reaches an edge set the later
  weights have already changed. That is why every gradient must be computed before any
  update. `LearnNetwork` does so: its postcondition makes the new state `Learned` of the
  state before the call, and `Learned` takes every delta and artifact from that state;
- the step's weight update is the textbook delta rule, the learning rate times the outer
  product of the deltas and the source activations;
- the cost is non-negative, and zero exactly on the target.

Kotlin's `Double` is modelled as `real`. The sigmoid is an uninterpreted function
`NetworkLogic.Sigmoid`. Each failed `require` (an `IllegalArgumentException`) becomes an `Err`
value of `Results.Result`, and so does the exception of an array created with a negative
length. Index-out-of-range failures become preconditions. The random generator of the
initialiser becomes a parameter `draw: nat -> real`: `draw(n)` is the `n`-th value the
generator produces.

The network file does not match the helper file it calls: the code as written does not
compile.
- `NeuralNetwork.kt:15` calls `createBiasesFromLayers`, and `NeuralNetwork.kt:27` calls
  `fillAllMatrix`. Neither exists; the model uses `createBiasesArray` and
  `fillAllMatrices` from `NetworkLogic.kt`.
- `NeuralNetwork.kt:9` types the weights as `WeightsMatrix`, but `createMatrixFromLayers`
  returns `Matrix`. The model has one matrix class. `getWeight`/`setWeight` are
  `GetValue`/`SetValue`.

`predict` stores the caller's array itself as `a[0]`, not a copy; the model follows the
values but does not model that sharing (see below).

## Model

| member | source | states |
|---|---|---|
| Matrices.Matrix.constructor | src/neuralNetworkBasics/Matrix.kt:16-19 | for positive sizes, a matrix of `y` rows of `x` zeros |
| Matrices.NewMatrix | src/neuralNetworkBasics/WeightsMatrix.kt:15-18 | fails with `SizeNotPositive` exactly when `x > 0 && y > 0` does not hold; otherwise a fresh `y`-by-`x` zero matrix |
| Matrices.Matrix.FillWithNumber | src/neuralNetworkBasics/Matrix.kt:35-41 | every cell becomes `number`; the row count and the row lengths are unchanged |
| Matrices.Matrix.FillWithFunction | src/neuralNetworkBasics/Matrix.kt:48-54 | cell `(r, e)` gets the generator's value `start + r * cols + e` (row by row); the shape is unchanged; returns the index after the last value used |
| Matrices.Matrix.Translate | src/neuralNetworkBasics/Matrix.kt:59-61 | the new matrix has `cols` rows of `rows` cells, with `new[r][c] == old[c][r]`, i.e. it is `Transposed(old)` |
| Matrices.TransposeInvolution | src/neuralNetworkBasics/WeightsMatrix.kt:51-53 | transposing swaps the dimensions and keeps the matrix rectangular; transposing twice gives back the original |
| Matrices.Matrix.MatmulWith | src/neuralNetworkBasics/Matrix.kt:69-78 | fails with `MatmulSizeMismatch` exactly when the vector's length is not the column count; otherwise one entry per row, entry `r` being the dot product of row `r` with the vector |
| Matrices.Matrix.GetColumnElements | src/neuralNetworkBasics/Matrix.kt:102 | one value per row; element `i` is the cell `(column, i)` |
| Matrices.Matrix.GetRowElements | src/neuralNetworkBasics/Matrix.kt:110 | one value per column; element `i` is the cell `(i, row)` |
| Matrices.Matrix.GetValue | src/neuralNetworkBasics/Matrix.kt:130 | the cell at row `toNeuron`, column `neuron`; writing it back with `WithCell` leaves the matrix as it was |
| Matrices.Matrix.SetValue | src/neuralNetworkBasics/Matrix.kt:119-130 | afterwards the cell `(neuron, toNeuron)` reads `value`; every other cell and the shape are unchanged; the cell is row `toNeuron`, column `neuron` |
| Matrices.WithCellChangesOneCell | src/neuralNetworkBasics/WeightsMatrix.kt:101-102 | writing cell `(neuron, toNeuron)` writes row `toNeuron`, column `neuron`, and no other cell, and keeps the shape |
| Matrices.Matrix.AdjustWeightsForNeuron | src/neuralNetworkBasics/WeightsMatrix.kt:92-96 | every cell of column `neuron` is multiplied by `gradient`; the other columns and the shape are unchanged |
| Matrices.Matrix.GetSize | src/neuralNetworkBasics/WeightsMatrix.kt:100 | the number of cells, counted row by row |
| Matrices.CellCountOfShape | src/neuralNetworkBasics/WeightsMatrix.kt:100 | a matrix of `rows` rows of `cols` cells has `rows * cols` cells |
| NetworkLogic.CreateMatrixFromLayers | src/neuralNetworkBasics/NetworkLogic.kt:16-19 | fails with `TooFewLayers` for at most two layers, otherwise with `SizeNotPositive` when a layer size is not positive; succeeds exactly on such topologies, with `layers.size - 1` fresh, distinct zero matrices, matrix `k` having `layers[k + 1]` rows and `layers[k]` columns |
| NetworkLogic.CreateBiasesArray | src/neuralNetworkBasics/NetworkLogic.kt:27-30 | fails with `TooFewLayers` for at most two layers, otherwise with `NegativeSize` when a later layer size is negative; else `layers.size - 1` fresh, distinct zero arrays, array `k` of length `layers[k + 1]` |
| NetworkLogic.CreateActivationsArray | src/neuralNetworkBasics/NetworkLogic.kt:38-41 | fails with `TooFewLayers` for at most two layers, otherwise with `NegativeSize` when a layer size is negative; else `layers.size` zero vectors, vector `k` of length `layers[k]` |
| NetworkLogic.FillAllArrays | src/neuralNetworkBasics/NetworkLogic.kt:49-55 | every element of every array becomes `value` |
| NetworkLogic.FillAllArraysWithFunction | src/neuralNetworkBasics/NetworkLogic.kt:63-69 | the arrays receive successive generator values in order: element `j` of an array listed once gets the value after all elements of the earlier arrays; returns the index after the last value used |
| NetworkLogic.FillAllMatrices | src/neuralNetworkBasics/NetworkLogic.kt:77-79 | every cell of every matrix becomes `value`; every shape is unchanged |
| NetworkLogic.FillAllMatricesWithFunction | src/neuralNetworkBasics/NetworkLogic.kt:87-89 | the matrices receive successive generator values in order, each row by row, after all cells of the earlier matrices; every shape is unchanged |
| NetworkLogic.CalculateLayerOutput | src/neuralNetworkBasics/NetworkLogic.kt:98-104 | fails with `MatmulSizeMismatch` exactly when the input length is not the column count; otherwise one value per row, `out[i] == Sigmoid(row i · input + biases[i])`, which is `LayerOutput` |
| NetworkSpec.Forward | src/neuralNetworkBasics/NeuralNetwork.kt:33-37 | the forward pass on values: the input, then each layer's output fed to the next; one vector per layer, vector `k` of length `layers[k]` |
| NetworkSpec.ForwardSteps | src/neuralNetworkBasics/NeuralNetwork.kt:33-37 | the forward pass starts with the input, and activation `k + 1` is the layer output of activation `k` |
| NetworkSpec.ForwardIsUnique | src/neuralNetworkBasics/NeuralNetwork.kt:33-38 | any activation sequence that starts with the input and chains the layer outputs is the forward pass |
| NetworkSpec.DrawnWeights | src/neuralNetworkBasics/NeuralNetwork.kt:18-27 | weight matrix `k` as the initialiser draws it, after every weight of the earlier matrices, with `layers[k + 1]` rows of `layers[k]` cells |
| NetworkSpec.DrawnBiases | src/neuralNetworkBasics/NeuralNetwork.kt:18-28 | bias vector `k` as the initialiser draws it, after every weight and the earlier biases, with `layers[k + 1]` entries |
| NetworkSpec.BiasDelta | src/neuralNetworkBasics/NeuralNetwork.kt:116-134 | the deltas of edge set `l`, one per neuron of layer `l + 1`: output rule on the last edge set, hidden rule (through the next edge set's weights and deltas) on the others |
| NetworkSpec.BiasDeltaAt | src/neuralNetworkBasics/NeuralNetwork.kt:119-130 | delta `j` of the last edge set is `x (1 - x) 2 (x - onehot(j, c))`, and on the others `x (1 - x)` times column `j` of the next weights dotted with the next deltas |
| NetworkSpec.OutputGradient | src/neuralNetworkBasics/NeuralNetwork.kt:99-103 | the last edge set's weight-gradient artifact, with one row per output neuron and `cols` cells per row |
| NetworkSpec.HiddenGradient | src/neuralNetworkBasics/NeuralNetwork.kt:104-107 | a hidden edge set's artifact, with one row per neuron of the layer it feeds and `cols` cells per row |
| NetworkSpec.WeightGradient | src/neuralNetworkBasics/NeuralNetwork.kt:90-114 | the weight-gradient artifact of edge set `l`, shaped like weight matrix `l` |
| NetworkSpec.WeightGradientStep | src/neuralNetworkBasics/NeuralNetwork.kt:94-107 | the last artifact is the output artifact; each other artifact is the hidden artifact built from the next weights and the next artifact |
| NetworkSpec.WeightGradientIsBiasDelta | src/neuralNetworkBasics/NeuralNetwork.kt:90-134 | every cell `[j][i]` of the weight-gradient artifact equals delta `j` of the bias gradient: the delta copied across the input indices |
| NetworkSpec.BiasDeltaReadsLaterWeights | src/neuralNetworkBasics/NeuralNetwork.kt:104-107 | the deltas of edge set `l` depend only on the topology, the activations and the weights of the edge sets after `l` |
| NetworkSpec.BiasStep | src/neuralNetworkBasics/NeuralNetwork.kt:164-166 | each bias moves against its delta, one result per bias |
| NetworkSpec.WeightStep | src/neuralNetworkBasics/NeuralNetwork.kt:167-171 | each weight moves against source activation times artifact cell; the shape is kept |
| NetworkSpec.Learned | src/neuralNetworkBasics/NeuralNetwork.kt:159-174 | one learning step on values, all gradients taken from the state before the step; the topology, the activations and every shape are unchanged |
| NetworkSpec.OuterProductUpdate | src/neuralNetworkBasics/NeuralNetwork.kt:169 | the textbook delta rule, `w[j][i] - lr * act[i] * delta[j]`; the shape is kept |
| NetworkSpec.LearnedIsGradientStep | src/neuralNetworkBasics/NeuralNetwork.kt:163-172 | the learning step's new weights of every edge set are the delta rule applied with that edge set's bias deltas |
| NetworkSpec.WeightStepIsOuterProduct | src/neuralNetworkBasics/NeuralNetwork.kt:167-171 | a weight step whose artifact repeats the delta along each row equals the delta rule |
| NetworkSpec.SquaredErrorZeroIffOnTarget | src/neuralNetworkBasics/NeuralNetwork.kt:79-88 | the summed squared error is non-negative, and zero exactly when the results equal the target |
| NeuralNetworks.NeuralNetwork.constructor | src/neuralNetworkBasics/NeuralNetwork.kt:13-29 | for a valid topology, the network is valid; the activations are zero vectors of the layer sizes; weight matrix `k` and bias vector `k` hold exactly the values drawn for them, weights first |
| NeuralNetworks.NewNeuralNetwork | src/neuralNetworkBasics/NeuralNetwork.kt:13-29 | fails with `TooFewLayers` for at most two layers, otherwise with `SizeNotPositive` when a layer is empty; succeeds exactly on valid topologies, with a fresh valid network of that topology and learning rate, zero activations, and the drawn weights and biases |
| NeuralNetworks.FillParameters | src/neuralNetworkBasics/NeuralNetwork.kt:27-28 | every weight matrix and then every bias vector holds the values drawn for it |
| NeuralNetworks.FillWeights | src/neuralNetworkBasics/NeuralNetwork.kt:27 | every weight matrix holds its drawn values; returns the number of weights |
| NeuralNetworks.FillBiases | src/neuralNetworkBasics/NeuralNetwork.kt:28 | every bias vector holds its drawn values, drawn after all the weights |
| NeuralNetworks.NeuralNetwork.Predict | src/neuralNetworkBasics/NeuralNetwork.kt:31-39 | fails with `InputSizeMismatch`, changing nothing, exactly when the input length is not `layers[0]`; otherwise the activations become the forward pass of the input, the result is the last activation vector, of output-layer length; weights and biases are unchanged and the network stays valid |
| NeuralNetworks.FeedForward | src/neuralNetworkBasics/NeuralNetwork.kt:32-38 | the loop's activations are the forward pass of the input, one vector of each layer's size |
| NeuralNetworks.NeuralNetwork.LearnNetwork | src/neuralNetworkBasics/NeuralNetwork.kt:159-174 | the new state is `Learned` of the old one: one gradient-descent step with all gradients from the pre-update state; the network stays valid |
| NeuralNetworks.Learn | src/neuralNetworkBasics/NeuralNetwork.kt:159-174 | each weight matrix and bias vector ends up at its value in `Learned` of the state before the call |
| NeuralNetworks.AllWGradients | src/neuralNetworkBasics/NeuralNetwork.kt:90-114 | fresh, distinct, valid matrices, artifact `l` being `WeightGradient` of edge set `l` |
| NeuralNetworks.FillWGradientOf | src/neuralNetworkBasics/NeuralNetwork.kt:94-110 | one turn of the reversed layer loop: artifact `layer` becomes its gradient, the later ones keep theirs, every shape is kept |
| NeuralNetworks.FillWGradientLayer | src/neuralNetworkBasics/NeuralNetwork.kt:95-109 | the artifact becomes the output artifact on the last edge set and the hidden artifact on the others |
| NeuralNetworks.BGradientsOfLayer | src/neuralNetworkBasics/NeuralNetwork.kt:120-130 | the computed row is the delta vector of the edge set |
| NeuralNetworks.AllBGradients | src/neuralNetworkBasics/NeuralNetwork.kt:116-134 | one vector per edge set, vector `l` being the deltas `BiasDelta` of edge set `l` |
| NeuralNetworks.StepLayers | src/neuralNetworkBasics/NeuralNetwork.kt:163-172 | every bias vector takes its bias step and every weight matrix its weight step; the gradient artifacts are unchanged |
| NeuralNetworks.StepLayer | src/neuralNetworkBasics/NeuralNetwork.kt:163-171 | one turn of the reversed layer loop: edge set `layer` is stepped, the later ones stay stepped, the earlier ones unchanged |
| NeuralNetworks.StepBiases | src/neuralNetworkBasics/NeuralNetwork.kt:164-166 | the bias array becomes its bias step |
| NeuralNetworks.StepWeights | src/neuralNetworkBasics/NeuralNetwork.kt:167-171 | the weight matrix becomes its weight step: `w[j][i] - lr * act[i] * g[j][i]` in every cell |
| NeuralNetworks.NeuralNetwork.CalculateFullCost | src/neuralNetworkBasics/NeuralNetwork.kt:79-82 | the summed squared distance to the one-hot target divided by the result count, non-negative, and zero exactly on the target; `None` (NaN) for empty results |
| NeuralNetworks.NeuralNetwork.TotalError | src/neuralNetworkBasics/NeuralNetwork.kt:84-88 | the summed squared distance between the last activations and the one-hot target, non-negative, and zero exactly on the target |

## Left out

- Printing and formatting (`printMatrix`, `showNeuralNetworkState`, `showNeuralNetworkFullState`): output only.
- The training driver, data loading and the user interface outside `src/neuralNetworkBasics`: I/O and timing, not engine logic.
- The Gaussian initialiser, scaled by `1/sqrt(layers[0])`: the generator is a parameter `draw`, and the model tracks which drawn value lands in which cell, not the values' distribution.
- Floating point: values are reals, so there is no rounding, NaN or infinity. A division by zero that Kotlin turns into NaN is `None`.
- The sigmoid is uninterpreted. Its output bound `(0, 1)` and its numerics are not modelled, and so neither is the claim that every output lies strictly in `(0, 1)`.
- The private `createMatrix` helpers of both matrix classes and the private `activationFunction` of `NeuralNetwork.kt` are never called; they are not modelled.
- The commented-out code in `NeuralNetwork.kt` and `WeightsMatrix.kt`: it is not part of the program.
- NeuralNetworks.NeuralNetwork.Predict: activations are values, so two kinds of array sharing are not modelled. `predict` stores the caller's input array itself as `a[0]`, so the input and the network share one array. It also returns the network's own last activation array `a.last()`, so a caller that writes into the result changes the activations that `learnNetwork`'s output deltas later read. The model's activations hold the values, and its result is a value.
- NeuralNetworks.AllBGradients: `allBGradients` also computes `totalError` and takes the weight gradients, but uses neither; the model leaves out that parameter and that call, which do not affect its result.
- NetworkLogic.FillAllArraysWithFunction: states the drawn values only for arrays listed once; an array listed twice is overwritten by its later turn, and the model does not state its final contents.
- NetworkLogic.FillAllMatricesWithFunction: likewise states the drawn values only for matrices listed once.
- Matrices.Matrix.GetSize: sizes are unbounded integers, so the 32-bit wrap-around of `rows * columns` is not modelled.
- Matrices.Matrix.constructor: requires positive sizes, since a Dafny constructor cannot fail; the failing check is modelled by `Matrices.NewMatrix`.
- NeuralNetworks.NeuralNetwork.constructor: likewise requires a valid topology; the failing paths are modelled by `NeuralNetworks.NewNeuralNetwork`.
- Index errors (an out-of-range column, row or cell, or a bias array shorter than the layer) are preconditions rather than error values.
- The weight matrices and bias arrays are assigned only by the initialiser, so the network holds them in `const` fields; the matrices and arrays themselves are updated in place.
- The loops of `predict`, `allWGradients`, `allBGradients` and `learnNetwork` run in module-level methods over the network's matrices, arrays and activations. Each loop turn is its own method, for proof modularity. `predict` writes its activations back once, after the loop.
- `learningRate` is a mutable field that the engine never changes; no operation on it is modelled.
