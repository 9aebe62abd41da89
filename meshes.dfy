/** The in-memory mesh the codecs exchange: what a writer is given and what a reader returns. */
module Meshes {
  import opened Dicts
  import opened Grids

  /** numpy arrays with their dtype name; the writer needs the name to pick a storage type. */
  datatype IntArray = IntArray(dtype: string, grid: Matrix<int>)
  datatype IntList = IntList(dtype: string, ints: seq<int>)
  datatype RealArray = RealArray(dtype: string, grid: Matrix<real>)
  datatype RealList = RealList(dtype: string, reals: seq<real>)

  /**
   * The arguments of the Exodus writer. Every dictionary is a sequence of pairs in insertion
   * order: `cells` maps a cell type to a connectivity block (0-based node indices),
   * `nodeSets` a name to node indices, `sideSets` a name to (element, side) rows.
   */
  datatype Mesh = Mesh(points: RealArray,
                       cells: seq<(string, IntArray)>,
                       pointData: seq<(string, RealList)>,
                       nodeSets: seq<(string, IntList)>,
                       sideSets: seq<(string, IntArray)>)

  /**
   * What the Exodus reader returns; its cell data and field data are always empty. The two
   * dictionaries are sequences of pairs in insertion order, as iterating over them sees them.
   */
  datatype MeshData = MeshData(points: Matrix<real>,
                               cells: seq<(string, Matrix<int>)>,
                               pointData: seq<(string, seq<real>)>)

  function CellGrids(cells: seq<(string, IntArray)>): (gs: seq<(string, Matrix<int>)>)
  {
    seq(|cells|, i requires 0 <= i < |cells| => (cells[i].0, cells[i].1.grid))
  }

  function FieldValues(fields: seq<(string, RealList)>): (vs: seq<seq<real>>)
  {
    seq(|fields|, i requires 0 <= i < |fields| => fields[i].1.reals)
  }

  /** `sum([v.shape[0] for v in cells.values()])`. */
  function TotalRows(cells: seq<(string, IntArray)>): nat
  {
    if cells == [] then 0 else TotalRows(cells[..|cells| - 1]) + |cells[|cells| - 1].1.grid.rows|
  }
}
