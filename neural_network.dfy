/**
 * The network object: its weight matrices, bias vectors and stored activations, the forward
 * pass that refreshes the activations, the backpropagated gradients, the online learning
 * step and the two cost measures. Every operation is proved against the value-level
 * definitions of `NetworkSpec`.
 */
module NeuralNetworks {
  import opened Results
  import opened Matrices
  import opened NetworkLogic
  import opened NetworkSpec

  class NeuralNetwork {
    const layers: seq<int>
    var learningRate: real
    /**
     * Matrix `k` connects layer `k` (columns) to layer `k + 1` (rows). The collection is
     * set once by the initialiser; the matrices themselves change in place.
     */
    const weights: seq<Matrix>
    /** Vector `k` holds the biases of the neurons of layer `k + 1`, likewise set once. */
    const biases: seq<array<real>>
    /** The activations of every layer, as left by the last forward pass. */
    var a: seq<seq<real>>

    /** The cells of every weight matrix, in order. */
    ghost function Weights(): (cells: seq<Cells>)
      reads weights
      ensures |cells| == |weights| && forall k :: 0 <= k < |weights| ==> cells[k] == weights[k].cells
    {
      var matrices := weights;
      seq(|matrices|, k requires 0 <= k < |matrices| reads matrices => matrices[k].cells)
    }

    /** The contents of every bias array, in order. */
    ghost function Biases(): (values: seq<seq<real>>)
      reads biases
      ensures |values| == |biases| && forall k :: 0 <= k < |biases| ==> values[k] == biases[k][..]
    {
      var vectors := biases;
      seq(|vectors|, k requires 0 <= k < |vectors| reads vectors => vectors[k][..])
    }

    /** The network's parameters and activations as a value. */
    ghost function State(): Snapshot
      reads this`a, weights, biases
    {
      Snapshot(layers, Weights(), Biases(), a)
    }

    /**
     * The shapes follow the topology, and no two layers share a matrix or a bias array
     * (each is allocated separately by the constructor).
     */
    ghost predicate Valid()
      reads this`a, weights, biases
      ensures Valid() ==> WellFormed(State())
    {
      ParametersValid() && |a| == |layers| && forall k :: 0 <= k < |a| ==> |a[k]| == layers[k]
    }

    /** The part of `Valid` about the parameters alone, which the forward pass leaves alone. */
    ghost predicate ParametersValid()
      reads weights, biases
    {
      Topology(layers) &&
      |weights| == |layers| - 1 && |biases| == |layers| - 1 &&
      (forall k :: 0 <= k < |weights| ==> weights[k].Valid() && HasShape(weights[k].cells, layers[k + 1], layers[k])) &&
      (forall k :: 0 <= k < |biases| ==> biases[k].Length == layers[k + 1]) &&
      (forall i, j :: 0 <= i < j < |weights| ==> weights[i] != weights[j]) &&
      (forall i, j :: 0 <= i < j < |biases| ==> biases[i] != biases[j])
    }

    /**
     * Builds a network of the given topology: zero matrices and bias vectors of the right
     * shapes and zero activations, then every weight and afterwards every bias drawn in
     * order from the generator `draw`.
     */
    constructor (layers: seq<int>, learningRate: real, draw: nat -> real)
      requires Topology(layers)
      ensures this.layers == layers && this.learningRate == learningRate
      ensures |a| == |layers| && |weights| == |layers| - 1 && |biases| == |layers| - 1
      ensures forall k, j :: 0 <= k < |a| && 0 <= j < |a[k]| ==> a[k][j] == 0.0
      ensures forall k :: 0 <= k < |weights| ==> weights[k].cells == DrawnWeights(layers, k, draw)
      ensures forall k :: 0 <= k < |biases| ==> biases[k][..] == DrawnBiases(layers, k, draw)
      ensures Valid()
    {
      var createdWeights := CreateMatrixFromLayers(layers);
      var createdBiases := CreateBiasesArray(layers);
      FillParameters(layers, createdWeights.value, createdBiases.value, draw);
      this.layers := layers;
      this.learningRate := learningRate;
      weights := createdWeights.value;
      biases := createdBiases.value;
      a := seq(|layers|, k requires 0 <= k < |layers| => seq(layers[k], _ => 0.0));
    }

    /**
     * Runs the forward pass: stores `input` as the first layer's activations and each
     * layer's output as the next layer's, and returns the last layer's activations. Fails,
     * changing nothing, when the input does not have one value per input neuron.
     */
    method Predict(input: seq<real>) returns (result: Result<seq<real>>)
      requires Valid()
      modifies this`a
      ensures result.Err? <==> |input| != layers[0]
      ensures result.Err? ==> result.error == InputSizeMismatch && a == old(a)
      ensures result.Ok? ==> a == Forward(layers, Weights(), Biases(), input)
      ensures Weights() == old(Weights()) && Biases() == old(Biases())
      ensures result.Ok? ==> result.value == a[|a| - 1] && |result.value| == layers[|layers| - 1]
      ensures Valid()
    {
      if |a[0]| != |input| {
        return Err(InputSizeMismatch);
      }
      var acts := FeedForward(layers, weights, biases, a, input, Weights(), Biases());
      a := acts;
      result := Ok(acts[|acts| - 1]);
    }

    /**
     * One online gradient-descent step towards the one-hot target of `correctAnswer`: all
     * gradients are computed first, from the current parameters and activations, then every
     * bias and weight is moved against its gradient, scaled by the learning rate.
     */
    method LearnNetwork(correctAnswer: int)
      requires Valid()
      modifies weights, biases
      ensures Valid()
      ensures State() == Learned(old(State()), learningRate, correctAnswer)
    {
      ghost var s := State();
      Learn(layers, weights, biases, a, learningRate, s, correctAnswer);
      ghost var t := Learned(s, learningRate, correctAnswer);
      assert Weights() == t.weights;
      assert Biases() == t.biases;
    }

    /**
     * The mean squared distance between `results` and the one-hot target of
     * `correctAnswer`; `None` for empty results (a division of zero by zero).
     */
    function CalculateFullCost(results: seq<real>, correctAnswer: int): (cost: Option<real>)
      ensures cost.Some? <==> |results| > 0
      ensures cost.Some? ==> cost.value == SquaredError(results, OneHotVector(|results|, correctAnswer)) / |results| as real
      ensures cost.Some? ==> cost.value >= 0.0
      ensures cost.Some? ==> (cost.value == 0.0 <==> results == OneHotVector(|results|, correctAnswer))
    {
      if |results| == 0 then None
      else
        var total := SquaredError(results, OneHotVector(|results|, correctAnswer));
        SquaredErrorZeroIffOnTarget(results, OneHotVector(|results|, correctAnswer));
        QuotientZeroIffZero(total, |results| as real);
        Some(total / |results| as real)
    }

    /** The summed squared distance between the last layer's activations and the one-hot target. */
    function TotalError(correctAnswer: int): (error: real)
      reads this
      requires |a| > 0
      ensures error == SquaredError(a[|a| - 1], OneHotVector(|a[|a| - 1]|, correctAnswer))
      ensures error >= 0.0
      ensures error == 0.0 <==> a[|a| - 1] == OneHotVector(|a[|a| - 1]|, correctAnswer)
    {
      var results := a[|a| - 1];
      var target := OneHotVector(|results|, correctAnswer);
      var terms := seq(|results|, neuron requires 0 <= neuron < |results| => Square(target[neuron] - results[neuron]));
      SquaredErrorZeroIffOnTarget(results, target);
      SquareSymmetric(results, target, terms);
      Sum(terms)
    }
  }

  /**
   * The forward pass over the activation vectors `acts`: the first becomes `input` and each
   * later one the output of the edge set before it, computed from the matrices `weights` and
   * the bias arrays `biases`, whose contents are `w` and `b`.
   */
  method FeedForward(layers: seq<int>, weights: seq<Matrix>, biases: seq<array<real>>, acts: seq<seq<real>>, input: seq<real>,
                     ghost w: seq<Cells>, ghost b: seq<seq<real>>)
    returns (result: seq<seq<real>>)
    requires Chained(layers, w, b) && |input| == layers[0]
    requires |acts| == |layers| && forall k :: 0 <= k < |acts| ==> |acts[k]| == layers[k]
    requires |weights| == |w| && |biases| == |b|
    requires forall k :: 0 <= k < |w| ==> weights[k].Valid() && weights[k].cells == w[k] && biases[k][..] == b[k]
    ensures |result| == |layers| && forall k :: 0 <= k < |result| ==> |result[k]| == layers[k]
    ensures result == Forward(layers, w, b, input)
  {
    result := acts[0 := input];
    for layer := 0 to |layers| - 1
      invariant |result| == |layers| && forall k :: 0 <= k < |result| ==> |result[k]| == layers[k]
      invariant result[0] == input
      invariant forall k {:trigger w[k]} :: 0 <= k < layer ==> result[k + 1] == LayerOutput(w[k], b[k], result[k])
    {
      var output := CalculateLayerOutput(weights[layer], biases[layer][..], result[layer]);
      result := result[layer + 1 := output.value];
    }
    ForwardIsUnique(layers, w, b, input, result);
  }

  /**
   * Fills `g`, the weight-gradient artifact of one edge set, from the activations `outputs`
   * of the layer it feeds and, unless `last` says it is the last edge set, the next edge
   * set's weights `nextWeights` and artifact `next`: cell (`inputNeuron`, `neuron`) gets the
   * delta of `neuron`.
   */
  method FillWGradientLayer(g: Matrix, cols: nat, next: Matrix, nextWeights: Matrix, outputs: seq<real>, last: bool,
                            correctAnswer: int, ghost target: Cells)
    requires g.Valid() && HasShape(g.cells, |outputs|, cols)
    requires !last ==>
               nextWeights.Valid() && HasShape(nextWeights.cells, |next.cells|, |outputs|) && nextWeights != g &&
               next.Valid() && HasShape(next.cells, |next.cells|, |outputs|) && next != g
    requires last ==> target == OutputGradient(outputs, cols, correctAnswer)
    requires !last ==> target == HiddenGradient(outputs, cols, nextWeights.cells, next.cells)
    modifies g`cells
    ensures g.Valid() && g.cells == target
  {
    var rows := |outputs|;
    for inputNeuron := 0 to cols
      invariant g.Valid() && HasShape(g.cells, rows, cols)
      invariant forall j, i :: 0 <= j < rows && 0 <= i < inputNeuron ==> g.cells[j][i] == target[j][i]
    {
      for neuron := 0 to rows
        invariant g.Valid() && HasShape(g.cells, rows, cols)
        invariant forall j, i :: 0 <= j < rows && 0 <= i < inputNeuron ==> g.cells[j][i] == target[j][i]
        invariant forall j :: 0 <= j < neuron ==> g.cells[j][inputNeuron] == target[j][inputNeuron]
      {
        var x := outputs[neuron];
        var value;
        if last {
          value := OutputDelta(x, neuron, correctAnswer);
        } else {
          var column := nextWeights.GetColumnElements(neuron);
          var downstream := next.GetColumnElements(neuron);
          value := HiddenDelta(x, column, downstream);
          assert column == Column(nextWeights.cells, neuron);
          assert downstream == Column(next.cells, neuron);
        }
        g.SetValue(inputNeuron, neuron, value);
      }
    }
    assert forall j :: 0 <= j < rows ==> g.cells[j] == target[j];
  }

  /**
   * The learning step on the network `s`, whose matrices are `weights`, whose bias arrays
   * are `biases` and whose activations are `acts`: the gradients of every edge set first,
   * then the updates.
   */
  method Learn(layers: seq<int>, weights: seq<Matrix>, biases: seq<array<real>>, acts: seq<seq<real>>,
               learningRate: real, ghost s: Snapshot, correctAnswer: int)
    requires WellFormed(s) && s.layers == layers && s.a == acts && |weights| == |s.weights| && |biases| == |s.biases|
    requires forall k :: 0 <= k < |weights| ==> weights[k].Valid() && weights[k].cells == s.weights[k]
    requires forall k :: 0 <= k < |biases| ==> biases[k][..] == s.biases[k]
    requires forall i, j :: 0 <= i < |weights| && 0 <= j < |weights| && i != j ==> weights[i] != weights[j] && biases[i] != biases[j]
    modifies weights, biases
    ensures forall l :: 0 <= l < |weights| ==> weights[l].Valid() && weights[l].cells == Learned(s, learningRate, correctAnswer).weights[l]
    ensures forall l :: 0 <= l < |biases| ==> biases[l][..] == Learned(s, learningRate, correctAnswer).biases[l]
  {
    var gradientsW := AllWGradients(layers, weights, acts, s, correctAnswer);
    var gradientsB := AllBGradients(weights, acts, s, correctAnswer);
    StepLayers(weights, biases, gradientsW, gradientsB, acts, learningRate);
    ghost var t := Learned(s, learningRate, correctAnswer);
    forall l | 0 <= l < |weights|
      ensures weights[l].cells == t.weights[l]
    {
      assert t.weights[l] == WeightStep(s.weights[l], WeightGradient(s, correctAnswer, l), s.a[l], learningRate);
    }
    forall l | 0 <= l < |biases|
      ensures biases[l][..] == t.biases[l]
    {
      assert t.biases[l] == BiasStep(s.biases[l], BiasDelta(s, correctAnswer, l), learningRate);
    }
  }

  /**
   * The weight-gradient artifacts of all edge sets of the network `s`, whose matrices are
   * `weights` and whose activations are `acts`, filled from the last edge set back to the
   * first, in fresh matrices.
   */
  method AllWGradients(layers: seq<int>, weights: seq<Matrix>, acts: seq<seq<real>>, ghost s: Snapshot, correctAnswer: int)
    returns (gradients: seq<Matrix>)
    requires WellFormed(s) && s.layers == layers && s.a == acts && |weights| == |s.weights|
    requires forall k :: 0 <= k < |weights| ==> weights[k].Valid() && weights[k].cells == s.weights[k]
    ensures |gradients| == |weights|
    ensures forall l :: 0 <= l < |gradients| ==> fresh(gradients[l]) && gradients[l].Valid()
    ensures forall i, j :: 0 <= i < j < |gradients| ==> gradients[i] != gradients[j]
    ensures forall l :: 0 <= l < |gradients| ==> gradients[l].cells == WeightGradient(s, correctAnswer, l)
  {
    var created := CreateMatrixFromLayers(layers);
    gradients := created.value;
    ghost var targets := seq(|weights|, l requires 0 <= l < |weights| => WeightGradient(s, correctAnswer, l));
    for layer := |gradients| downto 0
      invariant forall l :: 0 <= l < |gradients| ==> gradients[l].Valid() && HasShape(gradients[l].cells, layers[l + 1], layers[l])
      invariant forall l {:trigger gradients[l]} :: layer <= l < |gradients| ==> gradients[l].cells == targets[l]
    {
      FillWGradientOf(gradients[layer], layers, gradients, weights, acts, s, correctAnswer, layer, targets);
    }
  }

  /**
   * One turn of the loop of `AllWGradients`: fills the artifact of edge set `layer` from the
   * activations, and, below the last edge set, the next edge set's weights and artifact, so
   * that the artifacts from `layer` on hold their gradients `targets` and the others keep
   * their shapes.
   */
  method FillWGradientOf(g: Matrix, layers: seq<int>, gradients: seq<Matrix>, weights: seq<Matrix>, acts: seq<seq<real>>, ghost s: Snapshot,
                         correctAnswer: int, layer: nat, ghost targets: seq<Cells>)
    requires WellFormed(s) && s.layers == layers && s.a == acts && |weights| == |s.weights| && |gradients| == |weights| && layer < |gradients|
    requires |targets| == |gradients| && forall l :: 0 <= l < |targets| ==> targets[l] == WeightGradient(s, correctAnswer, l)
    requires forall k :: 0 <= k < |weights| ==> weights[k].Valid() && weights[k].cells == s.weights[k]
    requires g == gradients[layer]
    requires forall l :: 0 <= l < |gradients| ==> gradients[l] !in weights
    requires forall i, j :: 0 <= i < |gradients| && 0 <= j < |gradients| && i != j ==> gradients[i] != gradients[j]
    requires forall l :: 0 <= l < |gradients| ==> gradients[l].Valid() && HasShape(gradients[l].cells, layers[l + 1], layers[l])
    requires forall l {:trigger gradients[l]} :: layer < l < |gradients| ==> gradients[l].cells == targets[l]
    modifies g`cells
    ensures forall l :: 0 <= l < |gradients| ==> gradients[l].Valid() && HasShape(gradients[l].cells, layers[l + 1], layers[l])
    ensures forall l {:trigger gradients[l]} :: layer <= l < |gradients| ==> gradients[l].cells == targets[l]
  {
    WeightGradientStep(s, correctAnswer, layer);
    var last := layer == |gradients| - 1;
    // On the last edge set there is no next edge set: `FillWGradientLayer` then ignores
    // `next` and `nextWeights`, and `g` only fills their places.
    var next := if last then g else gradients[layer + 1];
    var nextWeights := if last then g else weights[layer + 1];
    FillWGradientLayer(g, layers[layer], next, nextWeights, acts[layer + 1], last, correctAnswer, targets[layer]);
  }

  /**
   * The deltas of edge set `layer` of the network `s`, whose matrices are `weights` and whose
   * activations are `acts`, neuron by neuron: on the last edge set from the activation and
   * the one-hot target, on the others from the activation, the next edge set's weights and
   * its deltas `next`.
   */
  method BGradientsOfLayer(weights: seq<Matrix>, acts: seq<seq<real>>, ghost s: Snapshot, layer: nat, next: seq<real>, correctAnswer: int)
    returns (row: seq<real>)
    requires WellFormed(s) && s.a == acts && |weights| == |s.weights| && layer < |weights|
    requires forall k :: 0 <= k < |weights| ==> weights[k].Valid() && weights[k].cells == s.weights[k]
    requires layer < |weights| - 1 ==> next == BiasDelta(s, correctAnswer, layer + 1)
    ensures row == BiasDelta(s, correctAnswer, layer)
  {
    ghost var delta := BiasDelta(s, correctAnswer, layer);
    row := seq(|acts[layer + 1]|, _ => 0.0);
    for neuron := 0 to |row|
      invariant |row| == |delta|
      invariant forall j :: 0 <= j < neuron ==> row[j] == delta[j]
    {
      var x := acts[layer + 1][neuron];
      var value;
      if layer == |weights| - 1 {
        value := OutputDelta(x, neuron, correctAnswer);
      } else {
        var column := weights[layer + 1].GetColumnElements(neuron);
        value := HiddenDelta(x, column, next);
        assert column == Column(s.weights[layer + 1], neuron);
      }
      BiasDeltaAt(s, correctAnswer, layer, neuron);
      row := row[neuron := value];
    }
  }

  /**
   * The bias gradients (the per-neuron deltas) of all edge sets of the network `s`, whose
   * matrices are `weights` and whose activations are `acts`, computed from the last edge set
   * back to the first.
   */
  method AllBGradients(weights: seq<Matrix>, acts: seq<seq<real>>, ghost s: Snapshot, correctAnswer: int)
    returns (gradients: seq<seq<real>>)
    requires WellFormed(s) && s.a == acts && |weights| == |s.weights|
    requires forall k :: 0 <= k < |weights| ==> weights[k].Valid() && weights[k].cells == s.weights[k]
    ensures |gradients| == |weights|
    ensures forall l :: 0 <= l < |gradients| ==> gradients[l] == BiasDelta(s, correctAnswer, l)
  {
    gradients := seq(|acts| - 1, k requires 0 <= k < |acts| - 1 => seq(|acts[k + 1]|, _ => 0.0));
    for layer := |gradients| downto 0
      invariant |gradients| == |weights|
      invariant forall l :: layer <= l < |gradients| ==> gradients[l] == BiasDelta(s, correctAnswer, l)
    {
      var next := if layer < |gradients| - 1 then gradients[layer + 1] else [];
      var row := BGradientsOfLayer(weights, acts, s, layer, next, correctAnswer);
      gradients := gradients[layer := row];
    }
  }

  /**
   * The parameter update of the learning step, from the last edge set back to the first:
   * edge set `layer` moves its biases against `gradientsB[layer]` and its weights against
   * the source activations `acts[layer]` times `gradientsW[layer]`.
   */
  method StepLayers(weights: seq<Matrix>, biases: seq<array<real>>, gradientsW: seq<Matrix>, gradientsB: seq<seq<real>>,
                    acts: seq<seq<real>>, learningRate: real)
    requires |biases| == |weights| && |gradientsW| == |weights| && |gradientsB| == |weights| && |acts| > |weights|
    requires forall l :: 0 <= l < |weights| ==>
               weights[l].Valid() && gradientsW[l].Valid() && weights[l] != gradientsW[l] &&
               HasShape(weights[l].cells, |weights[l].cells|, |acts[l]|) && HasShape(gradientsW[l].cells, |weights[l].cells|, |acts[l]|) &&
               biases[l].Length == |gradientsB[l]|
    requires forall i, j :: 0 <= i < |weights| && 0 <= j < |weights| && i != j ==> weights[i] != weights[j] && biases[i] != biases[j]
    requires forall i, j :: 0 <= i < |weights| && 0 <= j < |weights| ==> weights[i] != gradientsW[j]
    modifies weights, biases
    ensures forall l :: 0 <= l < |weights| ==> gradientsW[l].cells == old(gradientsW[l].cells)
    ensures forall l :: 0 <= l < |weights| ==>
              weights[l].Valid() && weights[l].cells == WeightStep(old(weights[l].cells), gradientsW[l].cells, acts[l], learningRate)
    ensures forall l :: 0 <= l < |biases| ==> biases[l][..] == BiasStep(old(biases[l][..]), gradientsB[l], learningRate)
  {
    ghost var w0 := seq(|weights|, l requires 0 <= l < |weights| reads weights => weights[l].cells);
    ghost var b0 := seq(|biases|, l requires 0 <= l < |biases| reads biases => biases[l][..]);
    for layer := |weights| downto 0
      invariant forall l {:trigger weights[l]} :: 0 <= l < |weights| ==> weights[l].Valid()
      invariant forall l {:trigger weights[l]} :: layer <= l < |weights| ==>
                  weights[l].cells == WeightStep(w0[l], gradientsW[l].cells, acts[l], learningRate)
      invariant forall l {:trigger weights[l]} :: 0 <= l < layer ==> weights[l].cells == w0[l]
      invariant forall l {:trigger biases[l]} :: layer <= l < |biases| ==> biases[l][..] == BiasStep(b0[l], gradientsB[l], learningRate)
      invariant forall l {:trigger biases[l]} :: 0 <= l < layer ==> biases[l][..] == b0[l]
    {
      StepLayer(weights[layer], biases[layer], weights, biases, gradientsW, gradientsB, acts, learningRate, layer, w0, b0);
    }
  }

  /**
   * One turn of the loop of `StepLayers`: steps the biases and the weights of edge set
   * `layer`, so that the edge sets from `layer` on hold their stepped values and those below
   * still hold their values `w0` and `b0` from before the loop.
   */
  method StepLayer(w: Matrix, b: array<real>, weights: seq<Matrix>, biases: seq<array<real>>, gradientsW: seq<Matrix>,
                   gradientsB: seq<seq<real>>, acts: seq<seq<real>>, learningRate: real, layer: nat,
                   ghost w0: seq<Cells>, ghost b0: seq<seq<real>>)
    requires |biases| == |weights| && |gradientsW| == |weights| && |gradientsB| == |weights| && |acts| > |weights|
    requires layer < |weights| && w == weights[layer] && b == biases[layer] && |w0| == |weights| && |b0| == |weights|
    requires forall l :: 0 <= l < |weights| ==>
               gradientsW[l].Valid() && HasShape(w0[l], |w0[l]|, |acts[l]|) && HasShape(gradientsW[l].cells, |w0[l]|, |acts[l]|) &&
               |b0[l]| == |gradientsB[l]|
    requires forall i, j :: 0 <= i < |weights| && 0 <= j < |weights| && i != j ==> weights[i] != weights[j] && biases[i] != biases[j]
    requires forall i, j :: 0 <= i < |weights| && 0 <= j < |weights| ==> weights[i] != gradientsW[j]
    requires forall l {:trigger weights[l]} :: 0 <= l < |weights| ==> weights[l].Valid()
    requires forall l {:trigger weights[l]} :: layer < l < |weights| ==>
               weights[l].cells == WeightStep(w0[l], gradientsW[l].cells, acts[l], learningRate)
    requires forall l {:trigger weights[l]} :: 0 <= l <= layer ==> weights[l].cells == w0[l]
    requires forall l {:trigger biases[l]} :: layer < l < |biases| ==> biases[l][..] == BiasStep(b0[l], gradientsB[l], learningRate)
    requires forall l {:trigger biases[l]} :: 0 <= l <= layer ==> biases[l][..] == b0[l]
    modifies w`cells, b
    ensures forall l {:trigger weights[l]} :: 0 <= l < |weights| ==> weights[l].Valid()
    ensures forall l {:trigger weights[l]} :: layer <= l < |weights| ==>
              weights[l].cells == WeightStep(w0[l], gradientsW[l].cells, acts[l], learningRate)
    ensures forall l {:trigger weights[l]} :: 0 <= l < layer ==> weights[l].cells == w0[l]
    ensures forall l {:trigger biases[l]} :: layer <= l < |biases| ==> biases[l][..] == BiasStep(b0[l], gradientsB[l], learningRate)
    ensures forall l {:trigger biases[l]} :: 0 <= l < layer ==> biases[l][..] == b0[l]
  {
    StepBiases(b, gradientsB[layer], learningRate);
    StepWeights(w, gradientsW[layer], acts[layer], learningRate);
  }

  /** Moves each bias against its delta, scaled by the learning rate. */
  method StepBiases(b: array<real>, delta: seq<real>, learningRate: real)
    requires b.Length == |delta|
    modifies b
    ensures b[..] == BiasStep(old(b[..]), delta, learningRate)
  {
    for neuron := 0 to b.Length
      invariant forall j :: 0 <= j < neuron ==> b[j] == old(b[j]) - learningRate * delta[j]
      invariant forall j :: neuron <= j < b.Length ==> b[j] == old(b[j])
    {
      b[neuron] := b[neuron] - learningRate * delta[neuron];
    }
    assert forall j :: 0 <= j < b.Length ==> b[..][j] == BiasStep(old(b[..]), delta, learningRate)[j];
  }

  /**
   * Moves each weight of `w` against source activation times artifact cell, scaled by the
   * learning rate, visiting the cells column by column.
   */
  method StepWeights(w: Matrix, g: Matrix, act: seq<real>, learningRate: real)
    requires w.Valid() && g.Valid() && w != g
    requires HasShape(w.cells, w.Rows(), |act|) && HasShape(g.cells, w.Rows(), |act|)
    modifies w`cells
    ensures w.Valid() && w.cells == WeightStep(old(w.cells), g.cells, act, learningRate)
  {
    var rows := w.Rows();
    ghost var stepped := WeightStep(w.cells, g.cells, act, learningRate);
    ghost var original := w.cells;
    for neuron := 0 to |act|
      invariant w.Valid() && HasShape(w.cells, rows, |act|)
      invariant forall j, i :: 0 <= j < rows && 0 <= i < neuron ==> w.cells[j][i] == stepped[j][i]
      invariant forall j, i :: 0 <= j < rows && neuron <= i < |act| ==> w.cells[j][i] == original[j][i]
    {
      for outputNeuron := 0 to rows
        invariant w.Valid() && HasShape(w.cells, rows, |act|)
        invariant forall j, i :: 0 <= j < rows && 0 <= i < neuron ==> w.cells[j][i] == stepped[j][i]
        invariant forall j :: 0 <= j < outputNeuron ==> w.cells[j][neuron] == stepped[j][neuron]
        invariant forall j :: outputNeuron <= j < rows ==> w.cells[j][neuron] == original[j][neuron]
        invariant forall j, i :: 0 <= j < rows && neuron < i < |act| ==> w.cells[j][i] == original[j][i]
      {
        assert stepped[outputNeuron][neuron] == original[outputNeuron][neuron] - learningRate * act[neuron] * g.cells[outputNeuron][neuron];
        w.SetValue(neuron, outputNeuron, w.GetValue(neuron, outputNeuron) - learningRate * act[neuron] * g.GetValue(neuron, outputNeuron));
      }
    }
    forall j | 0 <= j < rows
      ensures w.cells[j] == stepped[j]
    {
      assert forall i :: 0 <= i < |act| ==> w.cells[j][i] == stepped[j][i];
    }
  }

  /**
   * Builds a network, failing as the engine's initialiser does: with `TooFewLayers` unless
   * there are more than two layers, then with `SizeNotPositive` when a layer is empty.
   */
  method NewNeuralNetwork(layers: seq<int>, learningRate: real, draw: nat -> real) returns (result: Result<NeuralNetwork>)
    ensures result.Ok? <==> Topology(layers)
    ensures |layers| <= 2 ==> result == Err(TooFewLayers)
    ensures |layers| > 2 && result.Err? ==> result.error == SizeNotPositive
    ensures result.Ok? ==> fresh(result.value) && result.value.Valid()
    ensures result.Ok? ==> result.value.layers == layers && result.value.learningRate == learningRate
    ensures result.Ok? ==> forall k, j :: 0 <= k < |result.value.a| && 0 <= j < |result.value.a[k]| ==> result.value.a[k][j] == 0.0
    ensures result.Ok? ==> forall k :: 0 <= k < |result.value.weights| ==> result.value.weights[k].cells == DrawnWeights(layers, k, draw)
    ensures result.Ok? ==> forall k :: 0 <= k < |result.value.biases| ==> result.value.biases[k][..] == DrawnBiases(layers, k, draw)
  {
    if |layers| <= 2 {
      return Err(TooFewLayers);
    }
    if !Topology(layers) {
      return Err(SizeNotPositive);
    }
    var network := new NeuralNetwork(layers, learningRate, draw);
    return Ok(network);
  }

  /**
   * Draws every weight of `weights`, matrix by matrix and row by row, and then every bias,
   * vector by vector, in order from the generator `draw`.
   */
  method FillParameters(layers: seq<int>, weights: seq<Matrix>, biases: seq<array<real>>, draw: nat -> real)
    requires Topology(layers) && |weights| == |layers| - 1 && |biases| == |layers| - 1
    requires forall k :: 0 <= k < |weights| ==> weights[k].Valid() && HasShape(weights[k].cells, layers[k + 1], layers[k])
    requires forall k :: 0 <= k < |biases| ==> biases[k].Length == layers[k + 1]
    requires forall i, j :: 0 <= i < |weights| && 0 <= j < |weights| && i != j ==> weights[i] != weights[j]
    requires forall i, j :: 0 <= i < |biases| && 0 <= j < |biases| && i != j ==> biases[i] != biases[j]
    modifies weights, biases
    ensures forall k :: 0 <= k < |weights| ==> weights[k].Valid()
    ensures forall k :: 0 <= k < |weights| ==> weights[k].cells == DrawnWeights(layers, k, draw)
    ensures forall k :: 0 <= k < |biases| ==> biases[k][..] == DrawnBiases(layers, k, draw)
  {
    var next := FillWeights(layers, weights, draw);
    next := FillBiases(layers, biases, draw, next);
  }

  /** The weight half of `FillParameters`: returns the index of the first value left for the biases. */
  method FillWeights(layers: seq<int>, weights: seq<Matrix>, draw: nat -> real) returns (next: nat)
    requires Topology(layers) && |weights| == |layers| - 1
    requires forall k :: 0 <= k < |weights| ==> weights[k].Valid() && HasShape(weights[k].cells, layers[k + 1], layers[k])
    requires forall i, j :: 0 <= i < |weights| && 0 <= j < |weights| && i != j ==> weights[i] != weights[j]
    modifies weights
    ensures next == WeightsBefore(layers, |layers| - 1)
    ensures forall k :: 0 <= k < |weights| ==> weights[k].Valid()
    ensures forall k :: 0 <= k < |weights| ==> weights[k].cells == DrawnWeights(layers, k, draw)
  {
    SizesBeforeIsWeightsBefore(weights, layers, |weights|);
    forall k | 0 <= k < |weights|
      ensures SizesBefore(weights, k) == WeightsBefore(layers, k)
    {
      SizesBeforeIsWeightsBefore(weights, layers, k);
    }
    next := FillAllMatricesWithFunction(weights, draw, 0);
    forall k | 0 <= k < |weights|
      ensures weights[k].cells == DrawnWeights(layers, k, draw)
    {
      assert Unshared(weights, k);
      DrawnWeightsByCell(layers, k, draw, weights[k].cells);
    }
  }

  /** The bias half of `FillParameters`, drawing from index `start` on. */
  method FillBiases(layers: seq<int>, biases: seq<array<real>>, draw: nat -> real, start: nat) returns (next: nat)
    requires Topology(layers) && |biases| == |layers| - 1 && start == WeightsBefore(layers, |layers| - 1)
    requires forall k :: 0 <= k < |biases| ==> biases[k].Length == layers[k + 1]
    requires forall i, j :: 0 <= i < |biases| && 0 <= j < |biases| && i != j ==> biases[i] != biases[j]
    modifies biases
    ensures forall k :: 0 <= k < |biases| ==> biases[k][..] == DrawnBiases(layers, k, draw)
  {
    LengthsBeforeIsBiasesBefore(biases, layers, |biases|);
    forall k | 0 <= k < |biases|
      ensures LengthsBefore(biases, k) == BiasesBefore(layers, k)
    {
      LengthsBeforeIsBiasesBefore(biases, layers, k);
    }
    next := FillAllArraysWithFunction(biases, draw, start);
    forall k | 0 <= k < |biases|
      ensures biases[k][..] == DrawnBiases(layers, k, draw)
    {
      assert Unshared(biases, k);
      DrawnBiasesByEntry(layers, k, draw, biases[k][..]);
    }
  }

  lemma {:induction false} DrawnWeightsByCell(layers: seq<int>, k: nat, draw: nat -> real, m: Cells)
    requires k + 1 < |layers| && forall i :: 0 <= i < |layers| ==> layers[i] > 0
    requires HasShape(m, layers[k + 1], layers[k])
    requires forall r, e :: 0 <= r < layers[k + 1] && 0 <= e < layers[k] ==>
               m[r][e] == draw(WeightsBefore(layers, k) + r * layers[k] + e)
    ensures m == DrawnWeights(layers, k, draw)
  {
    var d := DrawnWeights(layers, k, draw);
    forall r | 0 <= r < layers[k + 1]
      ensures m[r] == d[r]
    {
    }
  }

  lemma {:induction false} DrawnBiasesByEntry(layers: seq<int>, k: nat, draw: nat -> real, v: seq<real>)
    requires k + 1 < |layers| && forall i :: 0 <= i < |layers| ==> layers[i] > 0
    requires |v| == layers[k + 1]
    requires forall j :: 0 <= j < |v| ==> v[j] == draw(WeightsBefore(layers, |layers| - 1) + BiasesBefore(layers, k) + j)
    ensures v == DrawnBiases(layers, k, draw)
  {
  }

  lemma {:induction false} SizesBeforeIsWeightsBefore(matrices: seq<Matrix>, layers: seq<int>, k: nat)
    requires |layers| == |matrices| + 1 && k <= |matrices| && forall i :: 0 <= i < |layers| ==> layers[i] > 0
    requires forall i :: 0 <= i < |matrices| ==>
               matrices[i].Valid() && HasShape(matrices[i].cells, layers[i + 1], layers[i])
    ensures SizesBefore(matrices, k) == WeightsBefore(layers, k)
  {
    if k > 0 {
      SizesBeforeIsWeightsBefore(matrices, layers, k - 1);
    }
  }

  lemma {:induction false} LengthsBeforeIsBiasesBefore(arrays: seq<array<real>>, layers: seq<int>, k: nat)
    requires |layers| == |arrays| + 1 && k <= |arrays| && forall i :: 0 <= i < |layers| ==> layers[i] > 0
    requires forall i :: 0 <= i < |arrays| ==> arrays[i].Length == layers[i + 1]
    ensures LengthsBefore(arrays, k) == BiasesBefore(layers, k)
  {
    if k > 0 {
      LengthsBeforeIsBiasesBefore(arrays, layers, k - 1);
    }
  }

  /** Dividing by a positive number keeps the sign and maps only zero to zero. */
  lemma QuotientZeroIffZero(x: real, n: real)
    requires n > 0.0
    ensures x >= 0.0 ==> x / n >= 0.0
    ensures x / n == 0.0 <==> x == 0.0
  {
  }

  /** The squared distances from the results to the target equal those from the target to the results. */
  lemma SquareSymmetric(results: seq<real>, target: seq<real>, terms: seq<real>)
    requires |results| == |target| == |terms|
    requires forall j :: 0 <= j < |terms| ==> terms[j] == Square(target[j] - results[j])
    ensures Sum(terms) == SquaredError(results, target)
  {
    var flipped := seq(|results|, j requires 0 <= j < |results| => Square(results[j] - target[j]));
    forall j | 0 <= j < |terms|
      ensures terms[j] == flipped[j]
    {
      var d := results[j] - target[j];
      assert target[j] - results[j] == -d;
      assert (-d) * (-d) == d * d;
    }
    assert terms == flipped;
  }
}
