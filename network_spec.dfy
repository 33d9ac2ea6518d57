/**
 * What the network computes, stated on values: the forward pass, the backpropagated
 * deltas and the weight-gradient artifact, one online gradient-descent step, and the
 * squared-error cost. The `NeuralNetwork` class is proved against these functions.
 */
module NetworkSpec {
  import opened Matrices
  import opened NetworkLogic

  /** A network's parameters and stored activations, as values. */
  datatype Snapshot = Snapshot(layers: seq<int>, weights: seq<Cells>, biases: seq<seq<real>>, a: seq<seq<real>>)

  /**
   * Matrix `k` has `layers[k + 1]` rows and `layers[k]` columns, and bias vector `k` has
   * `layers[k + 1]` entries.
   */
  predicate Chained(layers: seq<int>, weights: seq<Cells>, biases: seq<seq<real>>) {
    |layers| == |weights| + 1 && |biases| == |weights| &&
    forall k {:trigger weights[k]} {:trigger biases[k]} :: 0 <= k < |weights| ==>
      HasShape(weights[k], layers[k + 1], layers[k]) && |biases[k]| == layers[k + 1]
  }

  /** A valid topology, parameters of matching shapes, and one activation vector per layer. */
  predicate WellFormed(s: Snapshot) {
    Topology(s.layers) && Chained(s.layers, s.weights, s.biases) &&
    |s.a| == |s.layers| && forall k :: 0 <= k < |s.a| ==> |s.a[k]| == s.layers[k]
  }

  /**
   * The number of weights in the edge sets before edge set `k`: where the generator's
   * values for matrix `k` start when the matrices are filled in order.
   */
  function WeightsBefore(layers: seq<int>, k: nat): nat
    requires k < |layers| && forall i :: 0 <= i < |layers| ==> layers[i] > 0
  {
    if k == 0 then 0 else WeightsBefore(layers, k - 1) + layers[k] * layers[k - 1]
  }

  /** The number of biases in the bias vectors before vector `k`. */
  function BiasesBefore(layers: seq<int>, k: nat): nat
    requires k < |layers| && forall i :: 0 <= i < |layers| ==> layers[i] > 0
  {
    if k == 0 then 0 else BiasesBefore(layers, k - 1) + layers[k]
  }

  /**
   * Weight matrix `k` as the initialiser draws it: row by row, the generator's values
   * starting after all weights of the earlier matrices.
   */
  function DrawnWeights(layers: seq<int>, k: nat, draw: nat -> real): (m: Cells)
    requires k + 1 < |layers| && forall i :: 0 <= i < |layers| ==> layers[i] > 0
    ensures HasShape(m, layers[k + 1], layers[k])
  {
    seq(layers[k + 1], r requires 0 <= r => seq(layers[k], e requires 0 <= e => draw(WeightsBefore(layers, k) + r * layers[k] + e)))
  }

  /** Bias vector `k` as the initialiser draws it: after every weight and the earlier biases. */
  function DrawnBiases(layers: seq<int>, k: nat, draw: nat -> real): (v: seq<real>)
    requires k + 1 < |layers| && forall i :: 0 <= i < |layers| ==> layers[i] > 0
    ensures |v| == layers[k + 1]
  {
    seq(layers[k + 1], j requires 0 <= j => draw(WeightsBefore(layers, |layers| - 1) + BiasesBefore(layers, k) + j))
  }

  // ---------------------------------------------------------------------------------
  // Forward pass

  /** The activations of every layer for `input`: the input itself, then each layer's output. */
  function Forward(layers: seq<int>, weights: seq<Cells>, biases: seq<seq<real>>, input: seq<real>): (acts: seq<seq<real>>)
    requires Chained(layers, weights, biases) && |input| == layers[0]
    ensures |acts| == |layers| && forall k :: 0 <= k < |acts| ==> |acts[k]| == layers[k]
    decreases |weights|
  {
    if weights == [] then [input]
    else
      assert Chained(layers[1..], weights[1..], biases[1..]) by {
        forall k | 0 <= k < |weights| - 1
          ensures HasShape(weights[1..][k], layers[1..][k + 1], layers[1..][k])
          ensures |biases[1..][k]| == layers[1..][k + 1]
        {
          assert weights[1..][k] == weights[k + 1] && biases[1..][k] == biases[k + 1];
        }
      }
      [input] + Forward(layers[1..], weights[1..], biases[1..], LayerOutput(weights[0], biases[0], input))
  }

  /** The forward pass starts from the input and feeds each layer's output to the next layer. */
  lemma {:induction false} ForwardSteps(layers: seq<int>, weights: seq<Cells>, biases: seq<seq<real>>, input: seq<real>)
    requires Chained(layers, weights, biases) && |input| == layers[0]
    ensures Forward(layers, weights, biases, input)[0] == input
    ensures forall k :: 0 <= k < |weights| ==>
              Forward(layers, weights, biases, input)[k + 1] ==
              LayerOutput(weights[k], biases[k], Forward(layers, weights, biases, input)[k])
    decreases |weights|
  {
    if weights != [] {
      var acts := Forward(layers, weights, biases, input);
      var next := LayerOutput(weights[0], biases[0], input);
      assert Chained(layers[1..], weights[1..], biases[1..]) by {
        forall k | 0 <= k < |weights| - 1
          ensures HasShape(weights[1..][k], layers[1..][k + 1], layers[1..][k])
          ensures |biases[1..][k]| == layers[1..][k + 1]
        {
          assert weights[1..][k] == weights[k + 1] && biases[1..][k] == biases[k + 1];
        }
      }
      ForwardSteps(layers[1..], weights[1..], biases[1..], next);
      var rest := Forward(layers[1..], weights[1..], biases[1..], next);
      assert acts == [input] + rest;
      forall k | 0 <= k < |weights|
        ensures acts[k + 1] == LayerOutput(weights[k], biases[k], acts[k])
      {
        if k > 0 {
          assert acts[k + 1] == rest[k] && acts[k] == rest[k - 1];
          assert weights[1..][k - 1] == weights[k] && biases[1..][k - 1] == biases[k];
        }
      }
    }
  }

  /**
   * The forward pass is the only sequence of activations that starts from the input and
   * feeds each layer's output to the next layer.
   */
  lemma {:induction false} ForwardIsUnique(layers: seq<int>, weights: seq<Cells>, biases: seq<seq<real>>, input: seq<real>, acts: seq<seq<real>>)
    requires Chained(layers, weights, biases) && |input| == layers[0]
    requires |acts| == |layers| && acts[0] == input
    requires forall k :: 0 <= k < |acts| ==> |acts[k]| == layers[k]
    requires forall k {:trigger weights[k]} :: 0 <= k < |weights| ==> acts[k + 1] == LayerOutput(weights[k], biases[k], acts[k])
    ensures acts == Forward(layers, weights, biases, input)
  {
    var f := Forward(layers, weights, biases, input);
    ForwardSteps(layers, weights, biases, input);
    for k := 0 to |acts|
      invariant forall i :: 0 <= i < k ==> acts[i] == f[i]
    {
      if k > 0 {
        assert acts[k] == LayerOutput(weights[k - 1], biases[k - 1], acts[k - 1]);
      }
    }
  }

  // ---------------------------------------------------------------------------------
  // Backward pass

  /** The target value of output neuron `j` when neuron `c` is the right answer. */
  function OneHot(j: int, c: int): real {
    if j == c then 1.0 else 0.0
  }

  /** The one-hot target vector of `n` entries for label `c`. */
  function OneHotVector(n: nat, c: int): seq<real> {
    seq(n, j => OneHot(j, c))
  }

  /** The delta of output neuron `j` with activation `x`: sigmoid derivative times 2 (x - target). */
  function OutputDelta(x: real, j: int, c: int): real {
    x * (1.0 - x) * 2.0 * (x - OneHot(j, c))
  }

  /**
   * The delta of a hidden neuron with activation `x`: sigmoid derivative times the sum,
   * over the next layer's neurons, of the connecting weight times that neuron's delta.
   */
  function HiddenDelta(x: real, weightsOut: seq<real>, downstream: seq<real>): real
    requires |weightsOut| == |downstream|
  {
    x * (1.0 - x) * Dot(weightsOut, downstream)
  }

  /**
   * The per-neuron deltas of edge set `l` (one per neuron of layer `l + 1`), read from the
   * stored activations and the weights of the later edge sets; this is the bias gradient.
   */
  function BiasDelta(s: Snapshot, c: int, l: int): (delta: seq<real>)
    requires WellFormed(s) && 0 <= l < |s.weights|
    ensures |delta| == s.layers[l + 1]
    decreases |s.weights| - l
  {
    var x := s.a[l + 1];
    if l == |s.weights| - 1 then
      seq(|x|, j requires 0 <= j < |x| => OutputDelta(x[j], j, c))
    else
      var next := BiasDelta(s, c, l + 1);
      seq(|x|, j requires 0 <= j < |x| => HiddenDelta(x[j], Column(s.weights[l + 1], j), next))
  }

  /**
   * The weight-gradient artifact of the last edge set, for output activations `x` and
   * `cols` source neurons: every cell of row `j` is the output delta of neuron `j`.
   */
  function OutputGradient(x: seq<real>, cols: nat, c: int): (g: Cells)
    ensures HasShape(g, |x|, cols)
  {
    seq(|x|, j requires 0 <= j < |x| => seq(cols, i => OutputDelta(x[j], j, c)))
  }

  /**
   * The weight-gradient artifact of a hidden edge set, for activations `x` of the layer it
   * feeds and `cols` source neurons: every cell of row `j` is the hidden delta of neuron `j`,
   * propagated through column `j` of the next edge set's weights `weightsOut` and of the
   * next artifact `next`.
   */
  function HiddenGradient(x: seq<real>, cols: nat, weightsOut: Cells, next: Cells): (g: Cells)
    requires HasShape(weightsOut, |weightsOut|, |x|) && HasShape(next, |weightsOut|, |x|)
    ensures HasShape(g, |x|, cols)
  {
    seq(|x|, j requires 0 <= j < |x| => seq(cols, i => HiddenDelta(x[j], Column(weightsOut, j), Column(next, j))))
  }

  /**
   * The weight-gradient artifact of edge set `l`, shaped like the weight matrix: cell
   * `[j][i]` holds the delta of neuron `j`, propagated through the next edge set's
   * weights and the next artifact's column `j`; the factor `a[l][i]` is not applied here.
   */
  function WeightGradient(s: Snapshot, c: int, l: int): (g: Cells)
    requires WellFormed(s) && 0 <= l < |s.weights|
    ensures HasShape(g, s.layers[l + 1], s.layers[l])
    decreases |s.weights| - l
  {
    if l == |s.weights| - 1 then
      OutputGradient(s.a[l + 1], s.layers[l], c)
    else
      HiddenGradient(s.a[l + 1], s.layers[l], s.weights[l + 1], WeightGradient(s, c, l + 1))
  }

  /** One delta: the output rule on the last edge set, the hidden rule on the others. */
  lemma {:induction false} BiasDeltaAt(s: Snapshot, c: int, l: int, j: int)
    requires WellFormed(s) && 0 <= l < |s.weights| && 0 <= j < s.layers[l + 1]
    ensures l == |s.weights| - 1 ==> BiasDelta(s, c, l)[j] == OutputDelta(s.a[l + 1][j], j, c)
    ensures l < |s.weights| - 1 ==>
              BiasDelta(s, c, l)[j] == HiddenDelta(s.a[l + 1][j], Column(s.weights[l + 1], j), BiasDelta(s, c, l + 1))
  {
  }

  /** One level of the artifact recursion: the last artifact and each hidden one from the next. */
  lemma {:induction false} WeightGradientStep(s: Snapshot, c: int, l: int)
    requires WellFormed(s) && 0 <= l < |s.weights|
    ensures l == |s.weights| - 1 ==> WeightGradient(s, c, l) == OutputGradient(s.a[l + 1], s.layers[l], c)
    ensures l < |s.weights| - 1 ==>
              WeightGradient(s, c, l) == HiddenGradient(s.a[l + 1], s.layers[l], s.weights[l + 1], WeightGradient(s, c, l + 1))
  {
  }

  /** Every cell of row `j` of the weight-gradient artifact is the bias delta of neuron `j`. */
  lemma {:induction false} WeightGradientIsBiasDelta(s: Snapshot, c: int, l: int)
    requires WellFormed(s) && 0 <= l < |s.weights|
    ensures forall j, i :: 0 <= j < s.layers[l + 1] && 0 <= i < s.layers[l] ==>
              WeightGradient(s, c, l)[j][i] == BiasDelta(s, c, l)[j]
    decreases |s.weights| - l
  {
    if l < |s.weights| - 1 {
      WeightGradientIsBiasDelta(s, c, l + 1);
      var next := WeightGradient(s, c, l + 1);
      forall j | 0 <= j < s.layers[l + 1]
        ensures Column(next, j) == BiasDelta(s, c, l + 1)
      {
      }
    }
  }

  /**
   * The deltas of edge set `l` read the weights of the later edge sets only: two states with
   * the same topology, activations and weights after `l` have the same deltas at `l`.
   */
  lemma {:induction false} BiasDeltaReadsLaterWeights(s: Snapshot, t: Snapshot, c: int, l: int)
    requires WellFormed(s) && WellFormed(t) && 0 <= l < |s.weights|
    requires s.layers == t.layers && s.a == t.a
    requires forall m :: l < m < |s.weights| ==> s.weights[m] == t.weights[m]
    ensures BiasDelta(s, c, l) == BiasDelta(t, c, l)
    decreases |s.weights| - l
  {
    if l < |s.weights| - 1 {
      BiasDeltaReadsLaterWeights(s, t, c, l + 1);
    }
  }

  // ---------------------------------------------------------------------------------
  // Update rule

  /** Each bias moves against its delta: `b[j] - lr * delta[j]`. */
  function BiasStep(b: seq<real>, delta: seq<real>, lr: real): (stepped: seq<real>)
    requires |b| == |delta|
    ensures |stepped| == |b|
  {
    seq(|b|, j requires 0 <= j < |b| => b[j] - lr * delta[j])
  }

  /** Each weight moves against source activation times artifact: `w[j][i] - lr * act[i] * g[j][i]`. */
  function WeightStep(w: Cells, g: Cells, act: seq<real>, lr: real): (stepped: Cells)
    requires HasShape(w, |w|, |act|) && HasShape(g, |w|, |act|)
    ensures HasShape(stepped, |w|, |act|)
  {
    seq(|w|, j requires 0 <= j < |w| => seq(|act|, i requires 0 <= i < |act| => w[j][i] - lr * act[i] * g[j][i]))
  }

  /**
   * One online gradient-descent step from `s`: every delta and artifact is computed from
   * `s`, i.e. from the weights before any of them is updated.
   */
  function Learned(s: Snapshot, lr: real, c: int): (t: Snapshot)
    requires WellFormed(s)
    ensures WellFormed(t) && t.layers == s.layers && t.a == s.a
    ensures |t.weights| == |s.weights| && |t.biases| == |s.biases|
  {
    s.(biases := seq(|s.biases|, l requires 0 <= l < |s.biases| => BiasStep(s.biases[l], BiasDelta(s, c, l), lr)),
       weights := seq(|s.weights|, l requires 0 <= l < |s.weights| => WeightStep(s.weights[l], WeightGradient(s, c, l), s.a[l], lr)))
  }

  /**
   * The textbook delta rule: weight `(i, j)` moves by `lr * act[i] * delta[j]`, the learning
   * rate times the outer product of the neuron deltas and the source activations.
   */
  function OuterProductUpdate(w: Cells, delta: seq<real>, act: seq<real>, lr: real): (stepped: Cells)
    requires HasShape(w, |delta|, |act|)
    ensures HasShape(stepped, |delta|, |act|)
  {
    seq(|delta|, j requires 0 <= j < |delta| => seq(|act|, i requires 0 <= i < |act| => w[j][i] - lr * act[i] * delta[j]))
  }

  /**
   * The learning step's weight update is the delta rule: the gradient artifact, cell by
   * cell, is the very delta vector the biases of that edge set move by.
   */
  lemma {:induction false} LearnedIsGradientStep(s: Snapshot, lr: real, c: int, l: int)
    requires WellFormed(s) && 0 <= l < |s.weights|
    ensures Learned(s, lr, c).weights[l] == OuterProductUpdate(s.weights[l], BiasDelta(s, c, l), s.a[l], lr)
  {
    WeightGradientIsBiasDelta(s, c, l);
    WeightStepIsOuterProduct(s.weights[l], WeightGradient(s, c, l), BiasDelta(s, c, l), s.a[l], lr);
  }

  /** A weight step whose artifact repeats the delta along each row is the delta rule. */
  lemma {:induction false} WeightStepIsOuterProduct(w: Cells, g: Cells, delta: seq<real>, act: seq<real>, lr: real)
    requires HasShape(w, |delta|, |act|) && HasShape(g, |delta|, |act|)
    requires forall j, i :: 0 <= j < |delta| && 0 <= i < |act| ==> g[j][i] == delta[j]
    ensures WeightStep(w, g, act, lr) == OuterProductUpdate(w, delta, act, lr)
  {
    var stepped := WeightStep(w, g, act, lr);
    var update := OuterProductUpdate(w, delta, act, lr);
    forall j | 0 <= j < |delta|
      ensures stepped[j] == update[j]
    {
      forall i | 0 <= i < |act|
        ensures stepped[j][i] == update[j][i]
      {
        assert g[j][i] == delta[j];
      }
    }
  }

  // ---------------------------------------------------------------------------------
  // Cost

  function Square(x: real): real {
    x * x
  }

  lemma PositiveProduct(x: real, y: real)
    requires (x > 0.0 && y > 0.0) || (x < 0.0 && y < 0.0)
    ensures x * y > 0.0
  {
  }

  /** The square of a non-zero number is positive. */
  lemma SquarePositive(x: real)
    requires x != 0.0
    ensures Square(x) > 0.0
  {
    calc {
      Square(x);
    ==
      x * x;
    >  { PositiveProduct(x, x); }
      0.0;
    }
  }

  lemma SquareNonNegative(x: real)
    ensures Square(x) >= 0.0
  {
    if x != 0.0 {
      SquarePositive(x);
    }
  }

  /** The sum of squared differences between `results` and `target`. */
  function SquaredError(results: seq<real>, target: seq<real>): real
    requires |results| == |target|
  {
    Sum(seq(|results|, j requires 0 <= j < |results| => Square(results[j] - target[j])))
  }

  lemma {:induction false} SumNonNegative(s: seq<real>)
    requires forall j :: 0 <= j < |s| ==> s[j] >= 0.0
    ensures Sum(s) >= 0.0
  {
    if s != [] {
      SumNonNegative(s[..|s| - 1]);
    }
  }

  /** A sum of non-negative terms is zero exactly when every term is zero. */
  lemma {:induction false} SumZeroIffAllZero(s: seq<real>)
    requires forall j :: 0 <= j < |s| ==> s[j] >= 0.0
    ensures Sum(s) == 0.0 <==> forall j :: 0 <= j < |s| ==> s[j] == 0.0
  {
    if s != [] {
      var init := s[..|s| - 1];
      SumZeroIffAllZero(init);
      SumNonNegative(init);
      if Sum(s) == 0.0 {
        forall j | 0 <= j < |s|
          ensures s[j] == 0.0
        {
          if j < |s| - 1 {
            assert init[j] == s[j];
          }
        }
      }
    }
  }

  /** The squared error is never negative, and it is zero exactly when the results equal the target. */
  lemma SquaredErrorZeroIffOnTarget(results: seq<real>, target: seq<real>)
    requires |results| == |target|
    ensures SquaredError(results, target) >= 0.0
    ensures SquaredError(results, target) == 0.0 <==> results == target
  {
    var terms := seq(|results|, j requires 0 <= j < |results| => Square(results[j] - target[j]));
    forall j | 0 <= j < |terms|
      ensures terms[j] >= 0.0
    {
      SquareNonNegative(results[j] - target[j]);
    }
    SumNonNegative(terms);
    SumZeroIffAllZero(terms);
    if SquaredError(results, target) == 0.0 {
      forall j | 0 <= j < |results|
        ensures results[j] == target[j]
      {
        assert terms[j] == 0.0;
        if results[j] != target[j] {
          SquarePositive(results[j] - target[j]);
        }
      }
      assert results == target;
    } else if results == target {
      forall j | 0 <= j < |terms|
        ensures terms[j] == 0.0
      {
        assert results[j] - target[j] == 0.0;
      }
    }
  }
}
