/** Two-dimensional numpy arrays and the array operations the codec applies to them. */
module Grids {

  /** A 2-D array: `cols` is `shape[1]`, which numpy keeps even when the array has no rows. */
  datatype Grid<T> = Grid(cols: nat, rows: seq<seq<T>>)

  predicate Rectangular<T>(g: Grid<T>)
  {
    forall i :: 0 <= i < |g.rows| ==> |g.rows[i]| == g.cols
  }

  type Matrix<T> = g: Grid<T> | Rectangular(g) witness Grid(0, [])

  /** `numpy.zeros((n, m))`. */
  function Zeros(n: nat, m: nat): (z: Matrix<real>)
    ensures |z.rows| == n && z.cols == m
    ensures forall i, j :: 0 <= i < n && 0 <= j < m ==> z.rows[i][j] == 0.0
  {
    Grid(m, seq(n, _ => seq(m, _ => 0.0)))
  }

  /** `a.T`. */
  function Transpose<T>(g: Matrix<T>): (t: Matrix<T>)
    ensures t.cols == |g.rows| && |t.rows| == g.cols
    ensures forall j, i :: 0 <= j < g.cols && 0 <= i < |g.rows| ==> t.rows[j][i] == g.rows[i][j]
  {
    Grid(|g.rows|, seq(g.cols, j requires 0 <= j < g.cols =>
                     seq(|g.rows|, i requires 0 <= i < |g.rows| => g.rows[i][j])))
  }

  lemma TransposeTwice<T>(g: Matrix<T>)
    ensures Transpose(Transpose(g)) == g
  {
    var tt := Transpose(Transpose(g));
    assert |tt.rows| == |g.rows|;
    forall i | 0 <= i < |g.rows|
      ensures tt.rows[i] == g.rows[i]
    {
      assert |tt.rows[i]| == g.cols == |g.rows[i]|;
    }
  }

  /** Stacking rows is associative. */
  lemma AppendAssoc<T>(a: seq<T>, b: seq<T>, c: seq<T>)
    ensures (a + b) + c == a + (b + c)
  {
  }

  /** `numpy.vstack([a, b])`: the rows of `a`, then the rows of `b`. */
  function Stack<T>(a: Matrix<T>, b: Matrix<T>): (s: Matrix<T>)
    requires a.cols == b.cols
  {
    Grid(a.cols, a.rows + b.rows)
  }

  /** `a[:, j]`. */
  function Column<T>(g: Matrix<T>, j: nat): (c: seq<T>)
    requires j < g.cols
  {
    seq(|g.rows|, i requires 0 <= i < |g.rows| => g.rows[i][j])
  }

  /** `a[:, j] = v` on a copy: column `j` replaced by `v`, every other entry kept. */
  function SetColumn<T>(g: Matrix<T>, j: nat, v: seq<T>): (h: Matrix<T>)
    requires j < g.cols && |v| == |g.rows|
  {
    Grid(g.cols, seq(|g.rows|, i requires 0 <= i < |g.rows| => g.rows[i][j := v[i]]))
  }
}
