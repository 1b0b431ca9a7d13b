/** The numpy shape manipulations behind the pairwise distance routines:
    `np.tile` in its two orientations, C-order flattening, and `reshape`
    with its size check. Elements are of any type. */
module Grid {
  import opened Outcomes

  /** Every row of `g` has `cols` entries. */
  predicate Rectangular<T>(g: seq<seq<T>>, cols: nat) {
    forall j :: 0 <= j < |g| ==> |g[j]| == cols
  }

  /** `np.tile(v, (n, 1))`: `n` rows, each a copy of `v`. */
  function TileRows<T>(v: seq<T>, n: nat): seq<seq<T>> {
    seq(n, _ => v)
  }

  /** `np.tile(np.array([w]).T, (1, n))`: row `j` holds `n` copies of `w[j]`. */
  function TileCols<T>(w: seq<T>, n: nat): seq<seq<T>> {
    seq(|w|, j requires 0 <= j < |w| => seq(n, _ => w[j]))
  }

  /** Row-major (C-order) concatenation of the rows of a grid. */
  function Flatten<T>(g: seq<seq<T>>): seq<T> {
    if |g| == 0 then [] else g[0] + Flatten(g[1..])
  }

  /** `g.reshape(size)` on a two-dimensional `g`: its C-order contents, or a
      failure when its element count differs from `size`. */
  function Ravel<T>(g: seq<seq<T>>, size: nat): Result<seq<T>> {
    var flat := Flatten(g);
    if |flat| == size then Ok(flat) else Err(ShapeMismatch)
  }

  /** C-order position of entry `[j][i]` in an array of `cols` columns. */
  function Offset(j: nat, i: nat, cols: nat): nat {
    j * cols + i
  }

  lemma MulLeftMono(a: nat, b: nat, c: nat)
    requires a <= b
    ensures a * c <= b * c
  {
  }

  /** `a * b == a * c` with `a > 0` forces `b == c`. */
  lemma MulCancel(a: nat, b: nat, c: nat)
    requires a > 0 && a * b == a * c
    ensures b == c
  {
  }

  /** Row `j` of a `rows x cols` array ends inside it. */
  lemma RowEnd(j: nat, rows: nat, cols: nat)
    requires j < rows
    ensures j * cols + cols <= rows * cols
  {
    assert (j + 1) * cols <= rows * cols by { MulLeftMono(j + 1, rows, cols); }
  }

  /** Every flat index of a `rows x cols` array is `j * cols + i` for one
      row `j` and column `i`. */
  lemma {:induction false} SplitIndex(k: nat, rows: nat, cols: nat) returns (j: nat, i: nat)
    requires k < rows * cols
    ensures j < rows && i < cols && k == Offset(j, i, cols)
  {
    if k < cols {
      j, i := 0, k;
    } else {
      assert rows > 0;
      assert (rows - 1) * cols == rows * cols - cols;
      var j', i' := SplitIndex(k - cols, rows - 1, cols);
      j, i := j' + 1, i';
    }
  }

  /** Flat index `j * cols + i` of a `rows x cols` array lies inside it. */
  lemma FlatIndexInRange(j: nat, i: nat, rows: nat, cols: nat)
    requires j < rows && i < cols
    ensures j * cols + i < rows * cols
  {
    RowEnd(j, rows, cols);
  }

  /** Row `j` of `v.reshape(rows, cols)`. */
  function Row<T>(v: seq<T>, rows: nat, cols: nat, j: nat): (row: seq<T>)
    requires |v| == rows * cols && j < rows
    ensures |row| == cols
  {
    RowEnd(j, rows, cols);
    v[j * cols .. j * cols + cols]
  }

  /** `v.reshape(rows, cols)`: a `rows x cols` array, or a failure when `v`
      does not hold exactly `rows * cols` entries. */
  function Reshape<T>(v: seq<T>, rows: nat, cols: nat): (r: Result<seq<seq<T>>>)
    ensures r.Ok? <==> |v| == rows * cols
    ensures r.Ok? ==> |r.value| == rows && Rectangular(r.value, cols)
  {
    if |v| != rows * cols then Err(ShapeMismatch)
    else Ok(seq(rows, j requires 0 <= j < rows => Row(v, rows, cols, j)))
  }

  /** One entry of `v.reshape(rows, cols)`: `[j][i]` is flat entry `j * cols + i`. */
  lemma ReshapeAt<T>(v: seq<T>, rows: nat, cols: nat, j: nat, i: nat)
    requires |v| == rows * cols && j < rows && i < cols
    ensures Offset(j, i, cols) < |v| && Reshape(v, rows, cols).value[j][i] == v[Offset(j, i, cols)]
  {
    RowEnd(j, rows, cols);
    assert Reshape(v, rows, cols).value[j] == v[j * cols .. j * cols + cols];
  }

  /** Entry `[j][i]` of `v.reshape(rows, cols)` is flat entry `j * cols + i`. */
  lemma ReshapeIndex<T>(v: seq<T>, rows: nat, cols: nat)
    requires |v| == rows * cols
    ensures forall j, i :: 0 <= j < rows && 0 <= i < cols ==>
              Offset(j, i, cols) < |v| && Reshape(v, rows, cols).value[j][i] == v[Offset(j, i, cols)]
  {
    var m := Reshape(v, rows, cols).value;
    forall j, i | 0 <= j < rows && 0 <= i < cols
      ensures Offset(j, i, cols) < |v| && m[j][i] == v[Offset(j, i, cols)]
    {
      RowEnd(j, rows, cols);
      assert m[j] == v[j * cols .. j * cols + cols];
    }
  }

  /** A rectangular grid of `|g|` rows flattens to `|g| * cols` entries. */
  lemma {:induction false} FlattenLength<T>(g: seq<seq<T>>, cols: nat)
    requires Rectangular(g, cols)
    ensures |Flatten(g)| == |g| * cols
  {
    if |g| > 0 {
      FlattenLength(g[1..], cols);
      assert |Flatten(g)| == cols + (|g| - 1) * cols;
    }
  }

  /** Entry `[j][i]` of a rectangular grid sits at flat index `j * cols + i`. */
  lemma {:induction false} FlattenAt<T>(g: seq<seq<T>>, cols: nat, j: nat, i: nat)
    requires Rectangular(g, cols) && j < |g| && i < cols
    ensures Offset(j, i, cols) < |Flatten(g)| && Flatten(g)[Offset(j, i, cols)] == g[j][i]
  {
    FlattenLength(g, cols);
    FlatIndexInRange(j, i, |g|, cols);
    if j > 0 {
      var rest := g[1..];
      FlattenAt(rest, cols, j - 1, i);
      assert j * cols + i == cols + ((j - 1) * cols + i);
      assert Flatten(g) == g[0] + Flatten(rest);
    }
  }

  /** Flattening a rectangular grid: its length is `rows * cols` and flat
      index `j * cols + i` holds `g[j][i]`. */
  lemma FlattenIndex<T>(g: seq<seq<T>>, cols: nat)
    requires Rectangular(g, cols)
    ensures |Flatten(g)| == |g| * cols
    ensures forall j, i :: 0 <= j < |g| && 0 <= i < cols ==>
              Offset(j, i, cols) < |Flatten(g)| && Flatten(g)[Offset(j, i, cols)] == g[j][i]
  {
    FlattenLength(g, cols);
    forall j, i | 0 <= j < |g| && 0 <= i < cols
      ensures Offset(j, i, cols) < |Flatten(g)| && Flatten(g)[Offset(j, i, cols)] == g[j][i]
    {
      FlattenAt(g, cols, j, i);
    }
  }

  /** Reshaping a flattened rectangular grid back to its shape restores it. */
  lemma ReshapeFlatten<T>(g: seq<seq<T>>, cols: nat)
    requires Rectangular(g, cols)
    ensures Reshape(Flatten(g), |g|, cols) == Ok(g)
  {
    FlattenIndex(g, cols);
    ReshapeIndex(Flatten(g), |g|, cols);
    var m := Reshape(Flatten(g), |g|, cols).value;
    forall j | 0 <= j < |g| ensures m[j] == g[j] {
      assert |m[j]| == cols == |g[j]|;
      assert forall i :: 0 <= i < cols ==> m[j][i] == g[j][i];
    }
    assert m == g;
  }

  /** Flattening the result of a successful reshape gives back its input. */
  lemma FlattenReshape<T>(v: seq<T>, rows: nat, cols: nat)
    requires Reshape(v, rows, cols).Ok?
    ensures Flatten(Reshape(v, rows, cols).value) == v
  {
    var m := Reshape(v, rows, cols).value;
    FlattenIndex(m, cols);
    ReshapeIndex(v, rows, cols);
    forall k | 0 <= k < |v| ensures Flatten(m)[k] == v[k] {
      var j, i := SplitIndex(k, rows, cols);
      assert Flatten(m)[Offset(j, i, cols)] == m[j][i] == v[Offset(j, i, cols)];
    }
  }

  /** `np.tile(v, (n, 1))` flattened: length `n * |v|`, and flat index
      `j * |v| + i` carries `v[i]` whatever the row `j`. */
  lemma TileRowsFlat<T>(v: seq<T>, n: nat)
    ensures |Flatten(TileRows(v, n))| == n * |v|
    ensures forall j, i :: 0 <= j < n && 0 <= i < |v| ==>
              Offset(j, i, |v|) < n * |v| && Flatten(TileRows(v, n))[Offset(j, i, |v|)] == v[i]
  {
    var g := TileRows(v, n);
    assert Rectangular(g, |v|);
    FlattenLength(g, |v|);
    forall j, i | 0 <= j < n && 0 <= i < |v|
      ensures Offset(j, i, |v|) < n * |v| && Flatten(g)[Offset(j, i, |v|)] == v[i]
    {
      FlatIndexInRange(j, i, n, |v|);
      FlattenAt(g, |v|, j, i);
    }
  }

  /** `np.tile(np.array([w]).T, (1, n))` flattened: length `|w| * n`, and
      flat index `j * n + i` carries `w[j]` whatever the column `i`. */
  lemma TileColsFlat<T>(w: seq<T>, n: nat)
    ensures |Flatten(TileCols(w, n))| == |w| * n
    ensures forall j, i :: 0 <= j < |w| && 0 <= i < n ==>
              Offset(j, i, n) < |w| * n && Flatten(TileCols(w, n))[Offset(j, i, n)] == w[j]
  {
    var g := TileCols(w, n);
    assert Rectangular(g, n);
    FlattenLength(g, n);
    forall j, i | 0 <= j < |w| && 0 <= i < n
      ensures Offset(j, i, n) < |w| * n && Flatten(g)[Offset(j, i, n)] == w[j]
    {
      FlatIndexInRange(j, i, |w|, n);
      FlattenAt(g, n, j, i);
    }
  }
}
