/**
 * The dense matrix of the engine (the `Matrix` class and its near-identical copy
 * `WeightsMatrix`, modelled once). A matrix holds `y` rows of `x` values; in a network a
 * weight matrix has one row per output neuron and one column per input neuron, and the
 * cell accessors take `(neuron, toNeuron)` = (column, row).
 */
module Matrices {
  import opened Results

  /** The cells of a matrix, `cells[row][column]`. */
  type Cells = seq<seq<real>>

  predicate HasShape(m: Cells, rows: int, cols: int) {
    |m| == rows && forall r :: 0 <= r < |m| ==> |m[r]| == cols
  }

  /** Every row has the length of the first, and neither dimension is zero. */
  predicate Rectangular(m: Cells) {
    |m| > 0 && |m[0]| > 0 && HasShape(m, |m|, |m[0]|)
  }

  function Zeros(rows: nat, cols: nat): Cells {
    seq(rows, _ => seq(cols, _ => 0.0))
  }

  /** Left-to-right sum, the order of Kotlin's `sum()` and of the accumulating loops. */
  function Sum(s: seq<real>): real {
    if s == [] then 0.0 else Sum(s[..|s| - 1]) + s[|s| - 1]
  }

  function Products(u: seq<real>, v: seq<real>): seq<real>
    requires |u| == |v|
  {
    seq(|u|, e requires 0 <= e < |u| => u[e] * v[e])
  }

  function Dot(u: seq<real>, v: seq<real>): real
    requires |u| == |v|
  {
    Sum(Products(u, v))
  }

  /** The matrix-vector product: entry `r` is the dot product of row `r` with `v`. */
  function MatVec(m: Cells, v: seq<real>): seq<real>
    requires HasShape(m, |m|, |v|)
  {
    seq(|m|, r requires 0 <= r < |m| => Dot(m[r], v))
  }

  function Transposed(m: Cells): Cells
    requires Rectangular(m)
  {
    seq(|m[0]|, r requires 0 <= r < |m[0]| => seq(|m|, c requires 0 <= c < |m| => m[c][r]))
  }

  /** The values of column `c`, top to bottom. */
  function Column(m: Cells, c: int): seq<real>
    requires 0 <= c && forall r :: 0 <= r < |m| ==> c < |m[r]|
  {
    seq(|m|, i requires 0 <= i < |m| => m[i][c])
  }

  /** The cell addressed as `(neuron, toNeuron)`, i.e. row `toNeuron`, column `neuron`, replaced by `v`. */
  function WithCell(m: Cells, neuron: int, toNeuron: int, v: real): Cells
    requires 0 <= toNeuron < |m| && 0 <= neuron < |m[toNeuron]|
  {
    m[toNeuron := m[toNeuron][neuron := v]]
  }

  /** The number of cells, counted row by row. */
  function CellCount(m: Cells): nat {
    if m == [] then 0 else CellCount(m[..|m| - 1]) + |m[|m| - 1]|
  }

  lemma SumStep(s: seq<real>, k: nat)
    requires k < |s|
    ensures Sum(s[..k + 1]) == Sum(s[..k]) + s[k]
  {
    assert s[..k + 1][..k] == s[..k];
  }

  /** A matrix of `rows` rows of `cols` cells has `rows * cols` cells. */
  lemma {:induction false} CellCountOfShape(m: Cells, rows: nat, cols: nat)
    requires HasShape(m, rows, cols)
    ensures CellCount(m) == rows * cols
  {
    if m != [] {
      CellCountOfShape(m[..|m| - 1], rows - 1, cols);
    }
  }

  /** Transposing swaps the dimensions, and transposing twice gives back the matrix. */
  lemma TransposeInvolution(m: Cells)
    requires Rectangular(m)
    ensures Rectangular(Transposed(m)) && HasShape(Transposed(m), |m[0]|, |m|)
    ensures Transposed(Transposed(m)) == m
  {
    var t := Transposed(m);
    forall r | 0 <= r < |m|
      ensures Transposed(t)[r] == m[r]
    {
    }
  }

  /**
   * Writing the cell `(neuron, toNeuron)` changes row `toNeuron`, column `neuron`, to `v`
   * and leaves the shape and every other cell as they were.
   */
  lemma WithCellChangesOneCell(m: Cells, neuron: int, toNeuron: int, v: real)
    requires Rectangular(m) && 0 <= toNeuron < |m| && 0 <= neuron < |m[0]|
    ensures HasShape(WithCell(m, neuron, toNeuron, v), |m|, |m[0]|)
    ensures WithCell(m, neuron, toNeuron, v)[toNeuron][neuron] == v
    ensures forall r, e :: 0 <= r < |m| && 0 <= e < |m[0]| && (r != toNeuron || e != neuron) ==>
              WithCell(m, neuron, toNeuron, v)[r][e] == m[r][e]
  {
  }

  /** The engine's matrix: a reassignable grid of cells, rectangular and non-empty. */
  class Matrix {
    var cells: Cells

    ghost predicate Valid()
      reads this`cells
    {
      Rectangular(cells)
    }

    function Rows(): nat
      reads this`cells
    {
      |cells|
    }

    function Cols(): nat
      reads this`cells
      requires Valid()
    {
      |cells[0]|
    }

    /** A `y`-row, `x`-column matrix of zeros; the size check lives in `NewMatrix`. */
    constructor (x: int, y: int)
      requires x > 0 && y > 0
      ensures Valid() && HasShape(cells, y, x)
      ensures forall r, e :: 0 <= r < y && 0 <= e < x ==> cells[r][e] == 0.0
    {
      cells := Zeros(y, x);
    }

    /** Sets every cell to `number`; the shape does not change. */
    method FillWithNumber(number: real)
      requires Valid()
      modifies this`cells
      ensures Valid() && HasShape(cells, old(Rows()), old(Cols()))
      ensures forall r, e :: 0 <= r < Rows() && 0 <= e < Cols() ==> cells[r][e] == number
    {
      ghost var rows, cols := |cells|, |cells[0]|;
      for r := 0 to |cells|
        invariant HasShape(cells, rows, cols)
        invariant forall r', e :: 0 <= r' < r && 0 <= e < cols ==> cells[r'][e] == number
      {
        for e := 0 to |cells[r]|
          invariant HasShape(cells, rows, cols)
          invariant forall r', e' :: 0 <= r' < r && 0 <= e' < cols ==> cells[r'][e'] == number
          invariant forall e' :: 0 <= e' < e ==> cells[r][e'] == number
        {
          cells := cells[r := cells[r][e := number]];
        }
      }
    }

    /**
     * Sets every cell, row by row, to the next value of a generator; `draw(n)` is the
     * generator's `n`-th value and the first one used is `draw(start)`. Returns the index
     * of the next unused value.
     */
    method FillWithFunction(draw: nat -> real, start: nat) returns (next: nat)
      requires Valid()
      modifies this`cells
      ensures Valid() && HasShape(cells, old(Rows()), old(Cols()))
      ensures next == start + Rows() * Cols()
      ensures forall r, e :: 0 <= r < Rows() && 0 <= e < Cols() ==> cells[r][e] == draw(start + r * Cols() + e)
    {
      ghost var rows := |cells|;
      var cols := |cells[0]|;
      next := start;
      for r := 0 to |cells|
        invariant HasShape(cells, rows, cols)
        invariant next == start + r * cols
        invariant forall r', e :: 0 <= r' < r && 0 <= e < cols ==> cells[r'][e] == draw(start + r' * cols + e)
      {
        for e := 0 to |cells[r]|
          invariant HasShape(cells, rows, cols)
          invariant next == start + r * cols + e
          invariant forall r', e' :: 0 <= r' < r && 0 <= e' < cols ==> cells[r'][e'] == draw(start + r' * cols + e')
          invariant forall e' :: 0 <= e' < e ==> cells[r][e'] == draw(start + r * cols + e')
        {
          cells := cells[r := cells[r][e := draw(next)]];
          next := next + 1;
        }
      }
    }

    /** Replaces the matrix by its transpose: a `cols x rows` matrix with `new[r][c] == old[c][r]`. */
    method Translate()
      requires Valid()
      modifies this`cells
      ensures Valid() && HasShape(cells, old(Cols()), old(Rows()))
      ensures forall r, c :: 0 <= r < Rows() && 0 <= c < Cols() ==> cells[r][c] == old(cells)[c][r]
      ensures cells == Transposed(old(cells))
    {
      TransposeInvolution(cells);
      cells := Transposed(cells);
    }

    /**
     * The product of the matrix with the vector `arrayB`, accumulated row by row; fails
     * when the vector's length is not the column count.
     */
    method MatmulWith(arrayB: seq<real>) returns (result: Result<seq<real>>)
      requires Valid()
      ensures result.Err? <==> |arrayB| != Cols()
      ensures result.Err? ==> result.error == MatmulSizeMismatch
      ensures result.Ok? ==> |result.value| == Rows()
      ensures result.Ok? ==> forall r :: 0 <= r < Rows() ==> result.value[r] == Dot(cells[r], arrayB)
    {
      if |arrayB| != |cells[0]| {
        return Err(MatmulSizeMismatch);
      }
      var out := new real[|cells|](_ => 0.0);
      for row := 0 to |cells|
        invariant forall r :: 0 <= r < row ==> out[r] == Dot(cells[r], arrayB)
        invariant forall r :: row <= r < out.Length ==> out[r] == 0.0
      {
        ghost var products := Products(cells[row], arrayB);
        for element := 0 to |cells[0]|
          invariant forall r :: 0 <= r < row ==> out[r] == Dot(cells[r], arrayB)
          invariant forall r :: row < r < out.Length ==> out[r] == 0.0
          invariant out[row] == Sum(products[..element])
        {
          SumStep(products, element);
          out[row] := out[row] + cells[row][element] * arrayB[element];
        }
        assert products[..|products|] == products;
      }
      result := Ok(out[..]);
    }

    /** The cell at row `toNeuron`, column `neuron`: writing it back changes nothing. */
    function GetValue(neuron: int, toNeuron: int): (v: real)
      reads this`cells
      requires 0 <= toNeuron < |cells| && 0 <= neuron < |cells[toNeuron]|
      ensures WithCell(cells, neuron, toNeuron, v) == cells
    {
      assert cells[toNeuron][neuron := cells[toNeuron][neuron]] == cells[toNeuron];
      cells[toNeuron][neuron]
    }

    /** Column `column`: one value per row, element `i` being `GetValue(column, i)`. */
    function GetColumnElements(column: int): (elements: seq<real>)
      reads this`cells
      requires Valid() && 0 <= column < Cols()
      ensures |elements| == Rows()
      ensures forall i :: 0 <= i < Rows() ==> elements[i] == GetValue(column, i)
    {
      Column(cells, column)
    }

    /** Row `row`: one value per column, element `i` being `GetValue(i, row)`. */
    function GetRowElements(row: int): (elements: seq<real>)
      reads this`cells
      requires Valid() && 0 <= row < Rows()
      ensures |elements| == Cols()
      ensures forall i :: 0 <= i < Cols() ==> elements[i] == GetValue(i, row)
    {
      cells[row]
    }

    /** Writes `value` at row `toNeuron`, column `neuron`; nothing else changes. */
    method SetValue(neuron: int, toNeuron: int, value: real)
      requires Valid() && 0 <= neuron < Cols() && 0 <= toNeuron < Rows()
      modifies this`cells
      ensures Valid() && HasShape(cells, old(Rows()), old(Cols()))
      ensures cells == WithCell(old(cells), neuron, toNeuron, value)
      ensures GetValue(neuron, toNeuron) == value
      ensures forall n, t :: 0 <= n < Cols() && 0 <= t < Rows() && (n != neuron || t != toNeuron) ==>
                GetValue(n, t) == old(GetValue(n, t))
    {
      cells := cells[toNeuron := cells[toNeuron][neuron := value]];
    }

    /** Multiplies every cell of column `neuron` by `gradient`; the other columns do not change. */
    method AdjustWeightsForNeuron(neuron: int, gradient: real)
      requires Valid() && 0 <= neuron < Cols()
      modifies this`cells
      ensures Valid() && HasShape(cells, old(Rows()), old(Cols()))
      ensures forall t :: 0 <= t < Rows() ==> GetValue(neuron, t) == old(GetValue(neuron, t)) * gradient
      ensures forall n, t :: 0 <= n < Cols() && 0 <= t < Rows() && n != neuron ==>
                GetValue(n, t) == old(GetValue(n, t))
    {
      ghost var rows, cols := |cells|, |cells[0]|;
      for row := 0 to |cells|
        invariant HasShape(cells, rows, cols)
        invariant forall t :: 0 <= t < row ==> cells[t][neuron] == old(cells)[t][neuron] * gradient
        invariant forall t :: row <= t < rows ==> cells[t][neuron] == old(cells)[t][neuron]
        invariant forall n, t :: 0 <= n < cols && 0 <= t < rows && n != neuron ==> cells[t][n] == old(cells)[t][n]
      {
        cells := cells[row := cells[row][neuron := cells[row][neuron] * gradient]];
      }
    }

    /** The number of cells of the matrix. */
    function GetSize(): (size: nat)
      reads this`cells
      requires Valid()
      ensures size == CellCount(cells)
    {
      CellCountOfShape(cells, |cells|, |cells[0]|);
      |cells| * |cells[0]|
    }
  }

  /** Allocates a `y`-row, `x`-column zero matrix, failing unless both sizes are positive. */
  method NewMatrix(x: int, y: int) returns (result: Result<Matrix>)
    ensures result.Err? <==> !(x > 0 && y > 0)
    ensures result.Err? ==> result.error == SizeNotPositive
    ensures result.Ok? ==> fresh(result.value) && result.value.Valid() && HasShape(result.value.cells, y, x)
    ensures result.Ok? ==> forall r, e :: 0 <= r < y && 0 <= e < x ==> result.value.cells[r][e] == 0.0
  {
    if !(x > 0 && y > 0) {
      return Err(SizeNotPositive);
    }
    var m := new Matrix(x, y);
    result := Ok(m);
  }
}
