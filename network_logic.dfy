/**
 * The helpers the network is built from: the constructors of the per-layer matrices,
 * bias arrays and activation arrays, the bulk fills, and one layer's forward step.
 */
module NetworkLogic {
  import opened Results
  import opened Matrices

  /** The logistic function 1 / (1 + e^-x), left uninterpreted: the model tracks where it is applied, not its values. */
  const Sigmoid: real -> real

  /** A topology the engine accepts: more than two layers, each of positive size. */
  predicate Topology(layers: seq<int>) {
    |layers| > 2 && forall k :: 0 <= k < |layers| ==> layers[k] > 0
  }

  /** One layer's activations: the sigmoid of the weighted input plus the bias, per output neuron. */
  function LayerOutput(w: Cells, biases: seq<real>, input: seq<real>): seq<real>
    requires HasShape(w, |w|, |input|) && |biases| >= |w|
  {
    var z := MatVec(w, input);
    seq(|w|, i requires 0 <= i < |w| => Sigmoid(z[i] + biases[i]))
  }

  /**
   * One zero matrix per pair of adjacent layers, with `layers[k + 1]` rows and `layers[k]`
   * columns. Fails when there are at most two layers, and otherwise when some layer
   * size is not positive (the check of the matrix constructor).
   */
  method CreateMatrixFromLayers(layers: seq<int>) returns (result: Result<seq<Matrix>>)
    ensures result.Ok? <==> Topology(layers)
    ensures |layers| <= 2 ==> result == Err(TooFewLayers)
    ensures |layers| > 2 && result.Err? ==> result.error == SizeNotPositive
    ensures result.Ok? ==> |result.value| == |layers| - 1
    ensures result.Ok? ==> forall k :: 0 <= k < |result.value| ==>
              fresh(result.value[k]) && result.value[k].Valid() &&
              HasShape(result.value[k].cells, layers[k + 1], layers[k]) &&
              forall r, e :: 0 <= r < layers[k + 1] && 0 <= e < layers[k] ==> result.value[k].cells[r][e] == 0.0
    ensures result.Ok? ==> forall i, j :: 0 <= i < j < |result.value| ==> result.value[i] != result.value[j]
  {
    if |layers| <= 2 {
      return Err(TooFewLayers);
    }
    var matrices: seq<Matrix> := [];
    for k := 0 to |layers| - 1
      invariant |matrices| == k
      invariant k > 0 ==> forall i :: 0 <= i <= k ==> layers[i] > 0
      invariant forall i :: 0 <= i < k ==>
                  fresh(matrices[i]) && matrices[i].Valid() && HasShape(matrices[i].cells, layers[i + 1], layers[i]) &&
                  forall r, e :: 0 <= r < layers[i + 1] && 0 <= e < layers[i] ==> matrices[i].cells[r][e] == 0.0
      invariant forall i, j :: 0 <= i < j < k ==> matrices[i] != matrices[j]
    {
      var m := NewMatrix(layers[k], layers[k + 1]);
      if m.Err? {
        return Err(m.error);
      }
      matrices := matrices + [m.value];
    }
    result := Ok(matrices);
  }

  /** Every layer after the input layer has a size an array can have. */
  predicate LaterSizesNonNegative(layers: seq<int>) {
    forall k :: 0 < k < |layers| ==> layers[k] >= 0
  }

  /**
   * One zero bias array per layer after the input layer: array `k` has `layers[k + 1]`
   * entries. Fails when there are at most two layers, and otherwise when one of those
   * layers has a negative size.
   */
  method CreateBiasesArray(layers: seq<int>) returns (result: Result<seq<array<real>>>)
    ensures result.Ok? <==> |layers| > 2 && LaterSizesNonNegative(layers)
    ensures |layers| <= 2 ==> result == Err(TooFewLayers)
    ensures |layers| > 2 && result.Err? ==> result.error == NegativeSize
    ensures result.Ok? ==> |result.value| == |layers| - 1
    ensures result.Ok? ==> forall k :: 0 <= k < |result.value| ==>
              fresh(result.value[k]) && result.value[k].Length == layers[k + 1]
    ensures result.Ok? ==> forall k, j :: 0 <= k < |result.value| && 0 <= j < result.value[k].Length ==>
              result.value[k][j] == 0.0
    ensures result.Ok? ==> forall i, j :: 0 <= i < j < |result.value| ==> result.value[i] != result.value[j]
  {
    if |layers| <= 2 {
      return Err(TooFewLayers);
    }
    var arrays: seq<array<real>> := [];
    for k := 0 to |layers| - 1
      invariant |arrays| == k
      invariant forall i :: 0 < i <= k ==> layers[i] >= 0
      invariant forall i :: 0 <= i < k ==> fresh(arrays[i]) && arrays[i].Length == layers[i + 1]
      invariant forall i, j :: 0 <= i < k && 0 <= j < arrays[i].Length ==> arrays[i][j] == 0.0
      invariant forall i, j :: 0 <= i < j < k ==> arrays[i] != arrays[j]
    {
      if layers[k + 1] < 0 {
        return Err(NegativeSize);
      }
      var biases := new real[layers[k + 1]](_ => 0.0);
      arrays := arrays + [biases];
    }
    result := Ok(arrays);
  }

  /**
   * One zero activation vector per layer: vector `k` has `layers[k]` entries. Fails when
   * there are at most two layers, and otherwise when a layer has a negative size.
   */
  function CreateActivationsArray(layers: seq<int>): (result: Result<seq<seq<real>>>)
    ensures result.Ok? <==> |layers| > 2 && forall k :: 0 <= k < |layers| ==> layers[k] >= 0
    ensures |layers| <= 2 ==> result == Err(TooFewLayers)
    ensures |layers| > 2 && result.Err? ==> result.error == NegativeSize
    ensures result.Ok? ==> |result.value| == |layers|
    ensures result.Ok? ==> forall k :: 0 <= k < |layers| ==> |result.value[k]| == layers[k]
    ensures result.Ok? ==> forall k, j :: 0 <= k < |layers| && 0 <= j < |result.value[k]| ==> result.value[k][j] == 0.0
  {
    if |layers| <= 2 then Err(TooFewLayers)
    else if exists k :: 0 <= k < |layers| && layers[k] < 0 then Err(NegativeSize)
    else Ok(seq(|layers|, k requires 0 <= k < |layers| => seq(layers[k], _ => 0.0)))
  }

  /** Sets every entry of every array to `value` (arrays listed twice are simply filled twice). */
  method FillAllArrays(arrays: seq<array<real>>, value: real)
    modifies arrays
    ensures forall k, j :: 0 <= k < |arrays| && 0 <= j < arrays[k].Length ==> arrays[k][j] == value
  {
    for k := 0 to |arrays|
      invariant forall k', j :: 0 <= k' < k && 0 <= j < arrays[k'].Length ==> arrays[k'][j] == value
    {
      var biasesArray := arrays[k];
      for element := 0 to biasesArray.Length
        invariant forall k', j :: 0 <= k' < k && 0 <= j < arrays[k'].Length ==> arrays[k'][j] == value
        invariant forall j :: 0 <= j < element ==> biasesArray[j] == value
      {
        biasesArray[element] := value;
      }
    }
  }

  /** The entry `k` of `arrays` is a different array from every other entry. */
  predicate Unshared<T(==)>(s: seq<T>, k: int)
    requires 0 <= k < |s|
  {
    forall i :: 0 <= i < |s| && i != k ==> s[i] != s[k]
  }

  /** The number of entries in the arrays before index `k`. */
  function LengthsBefore(arrays: seq<array<real>>, k: nat): nat
    requires k <= |arrays|
  {
    if k == 0 then 0 else LengthsBefore(arrays, k - 1) + arrays[k - 1].Length
  }

  /**
   * Sets the entries of the arrays, in order, to successive values of a generator
   * (`draw(n)` is its `n`-th value, starting at `draw(start)`), and returns the index of
   * the next unused value. An array listed once receives exactly the values of its turn.
   */
  method FillAllArraysWithFunction(arrays: seq<array<real>>, draw: nat -> real, start: nat) returns (next: nat)
    modifies arrays
    ensures next == start + LengthsBefore(arrays, |arrays|)
    ensures forall k, j :: 0 <= k < |arrays| && Unshared(arrays, k) && 0 <= j < arrays[k].Length ==>
              arrays[k][j] == draw(start + LengthsBefore(arrays, k) + j)
  {
    next := start;
    for k := 0 to |arrays|
      invariant next == start + LengthsBefore(arrays, k)
      invariant forall k', j :: 0 <= k' < k && Unshared(arrays, k') && 0 <= j < arrays[k'].Length ==>
                  arrays[k'][j] == draw(start + LengthsBefore(arrays, k') + j)
    {
      var biasesArray := arrays[k];
      for element := 0 to biasesArray.Length
        invariant next == start + LengthsBefore(arrays, k) + element
        invariant forall k', j :: 0 <= k' < k && Unshared(arrays, k') && 0 <= j < arrays[k'].Length ==>
                    arrays[k'][j] == draw(start + LengthsBefore(arrays, k') + j)
        invariant forall j :: 0 <= j < element ==> biasesArray[j] == draw(start + LengthsBefore(arrays, k) + j)
      {
        biasesArray[element] := draw(next);
        next := next + 1;
      }
    }
  }

  /** Fills every matrix with `value`; every shape is unchanged. */
  method FillAllMatrices(matrices: seq<Matrix>, value: real)
    requires forall k :: 0 <= k < |matrices| ==> matrices[k].Valid()
    modifies matrices
    ensures forall k :: 0 <= k < |matrices| ==>
              matrices[k].Valid() && HasShape(matrices[k].cells, old(matrices[k].Rows()), old(matrices[k].Cols()))
    ensures forall k, r, e :: 0 <= k < |matrices| && 0 <= r < matrices[k].Rows() && 0 <= e < matrices[k].Cols() ==>
              matrices[k].cells[r][e] == value
  {
    for k := 0 to |matrices|
      invariant forall i :: 0 <= i < |matrices| ==>
                  matrices[i].Valid() && HasShape(matrices[i].cells, old(matrices[i].Rows()), old(matrices[i].Cols()))
      invariant forall i, r, e :: 0 <= i < k && 0 <= r < matrices[i].Rows() && 0 <= e < matrices[i].Cols() ==>
                  matrices[i].cells[r][e] == value
    {
      matrices[k].FillWithNumber(value);
    }
  }

  /** The number of cells in the matrices before index `k`. */
  function SizesBefore(matrices: seq<Matrix>, k: nat): nat
    reads matrices
    requires k <= |matrices| && forall i :: 0 <= i < |matrices| ==> matrices[i].Valid()
  {
    if k == 0 then 0 else SizesBefore(matrices, k - 1) + matrices[k - 1].Rows() * matrices[k - 1].Cols()
  }

  /**
   * Fills the matrices, in order, with successive values of a generator (`draw(n)` is its
   * `n`-th value, starting at `draw(start)`), and returns the index of the next unused
   * value. Every shape is unchanged; a matrix listed once receives exactly the values of its turn.
   */
  method FillAllMatricesWithFunction(matrices: seq<Matrix>, draw: nat -> real, start: nat) returns (next: nat)
    requires forall k :: 0 <= k < |matrices| ==> matrices[k].Valid()
    modifies matrices
    ensures forall k :: 0 <= k < |matrices| ==>
              matrices[k].Valid() && HasShape(matrices[k].cells, old(matrices[k].Rows()), old(matrices[k].Cols()))
    ensures next == start + old(SizesBefore(matrices, |matrices|))
    ensures forall k, r, e :: 0 <= k < |matrices| && Unshared(matrices, k) && 0 <= r < matrices[k].Rows() && 0 <= e < matrices[k].Cols() ==>
              matrices[k].cells[r][e] == draw(start + old(SizesBefore(matrices, k)) + r * matrices[k].Cols() + e)
  {
    next := start;
    for k := 0 to |matrices|
      invariant forall i :: 0 <= i < |matrices| ==>
                  matrices[i].Valid() && HasShape(matrices[i].cells, old(matrices[i].Rows()), old(matrices[i].Cols()))
      invariant next == start + old(SizesBefore(matrices, k))
      invariant forall i, r, e :: 0 <= i < k && Unshared(matrices, i) && 0 <= r < matrices[i].Rows() && 0 <= e < matrices[i].Cols() ==>
                  matrices[i].cells[r][e] == draw(start + old(SizesBefore(matrices, i)) + r * matrices[i].Cols() + e)
    {
      next := matrices[k].FillWithFunction(draw, next);
    }
  }

  /**
   * One layer's forward step: the weighted input plus the bias, through the sigmoid.
   * Fails, as the product does, when the input length is not the column count.
   */
  method CalculateLayerOutput(weightMatrix: Matrix, biases: seq<real>, input: seq<real>) returns (result: Result<seq<real>>)
    requires weightMatrix.Valid() && |biases| >= weightMatrix.Rows()
    ensures result.Err? <==> |input| != weightMatrix.Cols()
    ensures result.Err? ==> result.error == MatmulSizeMismatch
    ensures result.Ok? ==> |result.value| == weightMatrix.Rows()
    ensures result.Ok? ==> forall i :: 0 <= i < weightMatrix.Rows() ==>
              result.value[i] == Sigmoid(Dot(weightMatrix.cells[i], input) + biases[i])
    ensures result.Ok? ==> result.value == LayerOutput(weightMatrix.cells, biases, input)
  {
    var product := weightMatrix.MatmulWith(input);
    if product.Err? {
      return Err(product.error);
    }
    var z := product.value;
    var withBiases := seq(|z|, i requires 0 <= i < |z| => z[i] + biases[i]);
    result := Ok(seq(|withBiases|, i requires 0 <= i < |withBiases| => Sigmoid(withBiases[i])));
  }
}
