/**
 * The Exodus II writer: the dimensions and variables it creates, in creation order, and the
 * first error it can raise on the way. `WriteSpec` states the whole result; `Write` builds it
 * step by step as the source does.
 */
module ExodusWrite {
  import opened Outcomes
  import opened Text
  import opened Dicts
  import opened Grids
  import opened ElementTypes
  import opened Dtypes
  import opened NetCdf
  import opened Meshes

  const LenString: nat := 33
  const LenLine: nat := 81

  /** netCDF's default fill value for a 32-bit integer variable that is not written yet. */
  const FillInt: int := -2147483647

  const GlobalAttributes: map<string, Attribute> := map[
    "version" := RealAttr(5.1),
    "api_version" := RealAttr(5.1),
    "floating_point_word_size" := IntAttr(8)
  ]

  function Range(n: nat): seq<int>
  {
    seq(n, k => k)
  }

  // ---------------------------------------------------------------------------------------
  // The checks the writer makes, in the order it makes them

  function PointsError(points: RealArray): Option<Error>
  {
    if ExodusDtype(points.dtype).Err? then Some(UnsupportedDtype(points.dtype))
    else if points.grid.cols != 3 then Some(ShapeMismatch("coord"))   // `points.T` into (3, n)
    else None
  }

  function BlockError(key: string, block: IntArray): Option<Error>
  {
    if ExodusDtype(block.dtype).Err? then Some(UnsupportedDtype(block.dtype))
    else if ToExodusType(key).Err? then Some(UnknownElementType(key))
    else None
  }

  /** A numpy integer array holds only values of its own dtype. */
  predicate FitsDtype(a: IntArray)
  {
    ExodusDtype(a.dtype).Ok? ==> GridRepresentable(ExodusDtype(a.dtype).value, a.grid)
  }

  function BlocksError(cells: seq<(string, IntArray)>, k: nat): (e: Option<Error>)
    ensures e.None? <==> forall j :: k <= j < |cells| ==> BlockError(cells[j].0, cells[j].1).None?
    decreases |cells| - k
  {
    if k >= |cells| then None
    else if BlockError(cells[k].0, cells[k].1).Some? then BlockError(cells[k].0, cells[k].1)
    else BlocksError(cells, k + 1)
  }

  /** A name is written one character cell at a time into a row of `LenString` cells. */
  function NamesError(names: seq<string>, k: nat): (e: Option<Error>)
    ensures e.None? <==> forall j :: k <= j < |names| ==> |names[j]| <= LenString
    decreases |names| - k
  {
    if k >= |names| then None
    else if |names[k]| > LenString then Some(NameTooLong(names[k]))
    else NamesError(names, k + 1)
  }

  /** `node_data[0, k] = data` needs one value per node. */
  function FieldsError(fields: seq<(string, RealList)>, numNodes: nat, k: nat): (e: Option<Error>)
    ensures e.None? <==> forall j :: k <= j < |fields| ==> |fields[j].1.reals| == numNodes
    decreases |fields| - k
  {
    if k >= |fields| then None
    else if |fields[k].1.reals| != numNodes then Some(ShapeMismatch("vals_nod_var"))
    else FieldsError(fields, numNodes, k + 1)
  }

  function NodeSetsError(sets: seq<(string, IntList)>, k: nat): (e: Option<Error>)
    ensures e.None? <==> forall j :: k <= j < |sets| ==> ExodusDtype(sets[j].1.dtype).Ok?
    decreases |sets| - k
  {
    if k >= |sets| then None
    else if ExodusDtype(sets[k].1.dtype).Err? then Some(UnsupportedDtype(sets[k].1.dtype))
    else NodeSetsError(sets, k + 1)
  }

  /** Side set `k` needs a known dtype, then a column 0 (elements) and a column 1 (sides). */
  function SideSetError(k: nat, sides: IntArray): Option<Error>
  {
    if ExodusDtype(sides.dtype).Err? then Some(UnsupportedDtype(sides.dtype))
    else if sides.grid.cols == 0 then Some(ShapeMismatch("elem_ss" + NatToString(k + 1)))
    else if sides.grid.cols == 1 then Some(ShapeMismatch("side_ss" + NatToString(k + 1)))
    else None
  }

  function SideSetsError(sets: seq<(string, IntArray)>, k: nat): (e: Option<Error>)
    ensures e.None? <==> forall j :: k <= j < |sets| ==> SideSetError(j, sets[j].1).None?
    decreases |sets| - k
  {
    if k >= |sets| then None
    else if SideSetError(k, sets[k].1).Some? then SideSetError(k, sets[k].1)
    else SideSetsError(sets, k + 1)
  }

  function PointDataError(m: Mesh): Option<Error>
  {
    if m.pointData == [] then None
    else if NamesError(Keys(m.pointData), 0).Some? then NamesError(Keys(m.pointData), 0)
    else if ExodusDtype(m.pointData[0].1.dtype).Err? then Some(UnsupportedDtype(m.pointData[0].1.dtype))
    else FieldsError(m.pointData, |m.points.grid.rows|, 0)
  }

  function NodeSetSectionError(m: Mesh): Option<Error>
  {
    if m.nodeSets == [] then None
    else if NamesError(Keys(m.nodeSets), 0).Some? then NamesError(Keys(m.nodeSets), 0)
    else NodeSetsError(m.nodeSets, 0)
  }

  function SideSetSectionError(m: Mesh): Option<Error>
  {
    if m.sideSets == [] then None
    else if NamesError(Keys(m.sideSets), 0).Some? then NamesError(Keys(m.sideSets), 0)
    else SideSetsError(m.sideSets, 0)
  }

  /** The first error the writer raises, or None when it runs to the end. */
  function WriteError(m: Mesh): (e: Option<Error>)
    ensures e.None? <==> PointsError(m.points).None? && BlocksError(m.cells, 0).None? && PointDataError(m).None?
                         && NodeSetSectionError(m).None? && SideSetSectionError(m).None?
  {
    if PointsError(m.points).Some? then PointsError(m.points)
    else if BlocksError(m.cells, 0).Some? then BlocksError(m.cells, 0)
    else if PointDataError(m).Some? then PointDataError(m)
    else if NodeSetSectionError(m).Some? then NodeSetSectionError(m)
    else SideSetSectionError(m)
  }

  // ---------------------------------------------------------------------------------------
  // What the writer creates

  function FixedDims(m: Mesh): seq<(string, Dim)>
  {
    [("num_nodes", Dim(|m.points.grid.rows|, false)),
     ("num_dim", Dim(3, false)),
     ("num_elem", Dim(TotalRows(m.cells), false)),
     ("num_el_blk", Dim(|m.cells|, false)),
     ("num_node_sets", Dim(|m.nodeSets|, false)),
     ("num_side_sets", Dim(|m.sideSets|, false)),
     ("len_string", Dim(LenString, false)),
     ("len_line", Dim(LenLine, false)),
     ("four", Dim(4, false)),
     ("time_step", Dim(1, true))]   // unlimited; holds the one dummy time step
  }

  function BlockDim1(k: nat): string { "num_el_in_blk" + NatToString(k + 1) }
  function BlockDim2(k: nat): string { "num_nod_per_el" + NatToString(k + 1) }
  function ConnectName(k: nat): string { "connect" + NatToString(k + 1) }

  /** The two dimensions of each of the first `n` blocks. */
  function BlockDims(cells: seq<(string, IntArray)>, n: nat): (ds: seq<(string, Dim)>)
    requires n <= |cells|
    ensures |ds| == 2 * n
  {
    if n == 0 then []
    else
      BlockDims(cells, n - 1) +
        [(BlockDim1(n - 1), Dim(|cells[n - 1].1.grid.rows|, false)),
         (BlockDim2(n - 1), Dim(cells[n - 1].1.grid.cols, false))]
  }

  /** The three rows of `coor_names`. */
  const CoordNames: seq<seq<char>> := [Pad("X", LenString), Pad("Y", LenString), Pad("Z", LenString)]

  function HeaderVars(m: Mesh): seq<(string, Variable)>
    requires PointsError(m.points).None?
  {
    [("time_whole", Variable("f4", ["time_step"], map[], RealVector([0.0]))),
     ("coor_names", Variable("S1", ["num_dim", "len_string"], map[], CharTable(CoordNames))),
     ("coord", Variable(ExodusDtype(m.points.dtype).value, ["num_dim", "num_nodes"], map[],
                        RealTable(Transpose(m.points.grid)))),
     ("eb_prop1", Variable("i4", ["num_el_blk"], map[], IntVector(Range(|m.cells|))))]
  }

  function BlockVar(k: nat, key: string, block: IntArray): (string, Variable)
    requires BlockError(key, block).None?
  {
    (ConnectName(k),
     Variable(ExodusDtype(block.dtype).value, [BlockDim1(k), BlockDim2(k)],
              map["elem_type" := TextAttr(ToExodusType(key).value)],
              IntTable(ShiftAll(ExodusDtype(block.dtype).value, block.grid, 1))))
  }

  function BlockVars(cells: seq<(string, IntArray)>, n: nat): seq<(string, Variable)>
    requires n <= |cells|
    requires forall j :: 0 <= j < n ==> BlockError(cells[j].0, cells[j].1).None?
  {
    seq(n, k requires 0 <= k < n => BlockVar(k, cells[k].0, cells[k].1))
  }

  /** The rows of a name table: each name's characters at the front, fill after. */
  function NameTable(names: seq<string>): seq<seq<char>>
    requires forall j :: 0 <= j < |names| ==> |names[j]| <= LenString
  {
    seq(|names|, k requires 0 <= k < |names| => Pad(names[k], LenString))
  }

  function PointDataDims(m: Mesh): seq<(string, Dim)>
  {
    if m.pointData == [] then [] else [("num_nod_var", Dim(|m.pointData|, false))]
  }

  function PointDataVars(m: Mesh): seq<(string, Variable)>
    requires PointDataError(m).None?
  {
    if m.pointData == [] then []
    else
      [("name_nod_var", Variable("S1", ["num_nod_var", "len_string"], map[],
                                 CharTable(NameTable(Keys(m.pointData))))),
       ("vals_nod_var", Variable(ExodusDtype(m.pointData[0].1.dtype).value,
                                 ["time_step", "num_nod_var", "num_nodes"], map[],
                                 RealCube([FieldValues(m.pointData)])))]
  }

  function NodeSetDim(k: nat): string { "num_nod_ns" + NatToString(k + 1) }
  function NodeSetName(k: nat): string { "node_ns" + NatToString(k + 1) }

  function NodeSetDims(sets: seq<(string, IntList)>, n: nat): seq<(string, Dim)>
    requires n <= |sets|
  {
    seq(n, k requires 0 <= k < n => (NodeSetDim(k), Dim(|sets[k].1.ints|, false)))
  }

  function NodeSetVar(k: nat, nodes: IntList): (string, Variable)
    requires ExodusDtype(nodes.dtype).Ok?
  {
    (NodeSetName(k), Variable(ExodusDtype(nodes.dtype).value, [NodeSetDim(k)], map[],
                              IntVector(ShiftEach(ExodusDtype(nodes.dtype).value, nodes.ints, 1))))
  }

  function NodeSetVars(sets: seq<(string, IntList)>, n: nat): seq<(string, Variable)>
    requires n <= |sets|
    requires forall j :: 0 <= j < n ==> ExodusDtype(sets[j].1.dtype).Ok?
  {
    seq(n, k requires 0 <= k < n => NodeSetVar(k, sets[k].1))
  }

  /** `ns_prop1` and `ns_names`, created before the per-set variables. */
  function NodeSetHeader(m: Mesh): seq<(string, Variable)>
    requires NamesError(Keys(m.nodeSets), 0).None?
  {
    [("ns_prop1", Variable("i4", ["num_node_sets"], map[], IntVector(Range(|m.nodeSets|)))),
     ("ns_names", Variable("S1", ["num_node_sets", "len_string"], map[],
                           CharTable(NameTable(Keys(m.nodeSets)))))]
  }

  function SideSetDim(k: nat): string { "num_side_ss" + NatToString(k + 1) }
  function ElemSideSetName(k: nat): string { "elem_ss" + NatToString(k + 1) }
  function SideSideSetName(k: nat): string { "side_ss" + NatToString(k + 1) }

  function SideSetDims(sets: seq<(string, IntArray)>, n: nat): seq<(string, Dim)>
    requires n <= |sets|
  {
    seq(n, k requires 0 <= k < n => (SideSetDim(k), Dim(|sets[k].1.grid.rows|, false)))
  }

  /**
   * Side set `k`: element numbers from column 0 plus one in the set's dtype, side numbers from
   * column 1 as they are.
   */
  function SideSetVarPair(k: nat, sides: IntArray): seq<(string, Variable)>
    requires SideSetError(k, sides).None?
  {
    var code := ExodusDtype(sides.dtype).value;
    [(ElemSideSetName(k), Variable(code, [SideSetDim(k)], map[], IntVector(ShiftEach(code, Column(sides.grid, 0), 1)))),
     (SideSideSetName(k), Variable(code, [SideSetDim(k)], map[], IntVector(Column(sides.grid, 1))))]
  }

  function SideSetVars(sets: seq<(string, IntArray)>, n: nat): (vs: seq<(string, Variable)>)
    requires n <= |sets|
    requires forall j :: 0 <= j < n ==> SideSetError(j, sets[j].1).None?
    ensures |vs| == 2 * n
  {
    if n == 0 then [] else SideSetVars(sets, n - 1) + SideSetVarPair(n - 1, sets[n - 1].1)
  }

  function SideSetHeader(m: Mesh): seq<(string, Variable)>
    requires NamesError(Keys(m.sideSets), 0).None?
  {
    [("ss_prop1", Variable("i4", ["num_side_sets"], map[], IntVector(Range(|m.sideSets|)))),
     ("ss_names", Variable("S1", ["num_side_sets", "len_string"], map[],
                           CharTable(NameTable(Keys(m.sideSets)))))]
  }

  function NodeSetSection(m: Mesh): seq<(string, Variable)>
    requires NodeSetSectionError(m).None?
  {
    if m.nodeSets == [] then [] else NodeSetHeader(m) + NodeSetVars(m.nodeSets, |m.nodeSets|)
  }

  function SideSetSection(m: Mesh): seq<(string, Variable)>
    requires SideSetSectionError(m).None?
  {
    if m.sideSets == [] then [] else SideSetHeader(m) + SideSetVars(m.sideSets, |m.sideSets|)
  }

  function AllDims(m: Mesh): seq<(string, Dim)>
  {
    FixedDims(m) + BlockDims(m.cells, |m.cells|) + PointDataDims(m)
      + NodeSetDims(m.nodeSets, |m.nodeSets|) + SideSetDims(m.sideSets, |m.sideSets|)
  }

  function AllVars(m: Mesh): seq<(string, Variable)>
    requires WriteError(m).None?
  {
    HeaderVars(m) + BlockVars(m.cells, |m.cells|) + PointDataVars(m) + NodeSetSection(m) + SideSetSection(m)
  }

  /** The container `write` leaves behind, or the error it stops with. */
  function WriteSpec(m: Mesh): Result<Dataset>
  {
    if WriteError(m).Some? then Err(WriteError(m).value)
    else Ok(Dataset(GlobalAttributes, AllDims(m), AllVars(m)))
  }

  // ---------------------------------------------------------------------------------------
  // The writer, step by step

  /** What a name loop leaves in its `S1` table, or the name it stops at. */
  function NamesOutcome(names: seq<string>): Result<seq<seq<char>>>
  {
    if NamesError(names, 0).Some? then Err(NamesError(names, 0).value) else Ok(NameTable(names))
  }

  /** What the `vals_nod_var` loop leaves in time step 0, or the field it stops at. */
  function NodalValuesOutcome(fields: seq<(string, RealList)>, numNodes: nat): Result<seq<seq<real>>>
  {
    if FieldsError(fields, numNodes, 0).Some? then Err(FieldsError(fields, numNodes, 0).value)
    else Ok(FieldValues(fields))
  }

  /** `data[k] = k` for every entry of a freshly created (fill-valued) id variable. */
  method NumberedIds(n: nat) returns (ids: seq<int>)
    ensures |ids| == n
    ensures forall k :: 0 <= k < n ==> ids[k] == k
  {
    ids := seq(n, _ => FillInt);
    for k := 0 to n
      invariant |ids| == n
      invariant forall j :: 0 <= j < k ==> ids[j] == j
    {
      ids := ids[k := k];
    }
  }

  /** `table[k, i] = letter` for every letter of every name; a letter past the row is an error. */
  method WriteNames(names: seq<string>) returns (r: Result<seq<seq<char>>>)
    ensures r == NamesOutcome(names)
  {
    var blank := seq(LenString, _ => NulChar);
    var rows := seq(|names|, _ => blank);
    var k := 0;
    while k < |names|
      invariant 0 <= k <= |names| && |rows| == |names|
      invariant forall j :: 0 <= j < k ==> |names[j]| <= LenString && rows[j] == Pad(names[j], LenString)
      invariant NamesError(names, 0) == NamesError(names, k)
    {
      var name := names[k];
      var row := blank;
      var i := 0;
      while i < |name|
        invariant 0 <= i <= |name| && i <= LenString
        invariant row == name[..i] + seq(LenString - i, _ => NulChar)
      {
        if i == LenString {
          return Err(NameTooLong(name));
        }
        assert (name[..i] + seq(LenString - i, _ => NulChar))[i := name[i]]
            == name[..i + 1] + seq(LenString - (i + 1), _ => NulChar);
        row := row[i := name[i]];
        i := i + 1;
      }
      assert name[..i] == name;
      rows := rows[k := row];
      k := k + 1;
    }
    assert rows == NameTable(names);
    return Ok(rows);
  }

  /** `node_data[0, k] = data` for every field, each needing one value per node. */
  method WriteNodalValues(fields: seq<(string, RealList)>, numNodes: nat) returns (r: Result<seq<seq<real>>>)
    ensures r == NodalValuesOutcome(fields, numNodes)
  {
    var record: seq<seq<real>> := [];
    var k := 0;
    while k < |fields|
      invariant 0 <= k <= |fields|
      invariant record == FieldValues(fields[..k])
      invariant FieldsError(fields, numNodes, 0) == FieldsError(fields, numNodes, k)
    {
      if |fields[k].1.reals| != numNodes {
        return Err(ShapeMismatch("vals_nod_var"));
      }
      assert FieldValues(fields[..k + 1]) == FieldValues(fields[..k]) + [fields[k].1.reals];
      record := record + [fields[k].1.reals];
      k := k + 1;
    }
    assert fields[..k] == fields;
    return Ok(record);
  }

  /** The dimensions and variables created so far. */
  datatype Partial = Partial(dims: seq<(string, Dim)>, vars: seq<(string, Variable)>)

  /** What a section adds to `before`, or the error it stops with. */
  function BlocksOutcome(m: Mesh, before: Partial): Result<Partial>
  {
    if BlocksError(m.cells, 0).Some? then Err(BlocksError(m.cells, 0).value)
    else Ok(Partial(before.dims + BlockDims(m.cells, |m.cells|), before.vars + BlockVars(m.cells, |m.cells|)))
  }

  function PointDataOutcome(m: Mesh, before: Partial): Result<Partial>
  {
    if PointDataError(m).Some? then Err(PointDataError(m).value)
    else Ok(Partial(before.dims + PointDataDims(m), before.vars + PointDataVars(m)))
  }

  function NodeSetsOutcome(m: Mesh, before: Partial): Result<Partial>
  {
    if NodeSetSectionError(m).Some? then Err(NodeSetSectionError(m).value)
    else Ok(Partial(before.dims + NodeSetDims(m.nodeSets, |m.nodeSets|), before.vars + NodeSetSection(m)))
  }

  function SideSetsOutcome(m: Mesh, before: Partial): Result<Partial>
  {
    if SideSetSectionError(m).Some? then Err(SideSetSectionError(m).value)
    else Ok(Partial(before.dims + SideSetDims(m.sideSets, |m.sideSets|), before.vars + SideSetSection(m)))
  }

  lemma BlockVarsSnoc(cells: seq<(string, IntArray)>, n: nat)
    requires n < |cells|
    requires forall j :: 0 <= j < n ==> BlockError(cells[j].0, cells[j].1).None?
    requires BlockError(cells[n].0, cells[n].1).None?
    ensures forall j :: 0 <= j < n + 1 ==> BlockError(cells[j].0, cells[j].1).None?
    ensures BlockVars(cells, n + 1) == BlockVars(cells, n) + [BlockVar(n, cells[n].0, cells[n].1)]
  {
  }

  /** The loop over the cell blocks: two dimensions and one `connect` variable per block. */
  method WriteBlocks(m: Mesh, before: Partial) returns (r: Result<Partial>)
    ensures r == BlocksOutcome(m, before)
  {
    var dims, vars := before.dims, before.vars;
    var k := 0;
    while k < |m.cells|
      invariant 0 <= k <= |m.cells|
      invariant forall j :: 0 <= j < k ==> BlockError(m.cells[j].0, m.cells[j].1).None?
      invariant dims == before.dims + BlockDims(m.cells, k)
      invariant vars == before.vars + BlockVars(m.cells, k)
      invariant BlocksError(m.cells, 0) == BlocksError(m.cells, k)
    {
      var key, block := m.cells[k].0, m.cells[k].1;
      var blockDims := [(BlockDim1(k), Dim(|block.grid.rows|, false)), (BlockDim2(k), Dim(block.grid.cols, false))];
      assert BlockDims(m.cells, k + 1) == BlockDims(m.cells, k) + blockDims;
      AppendAssoc(before.dims, BlockDims(m.cells, k), blockDims);
      dims := dims + blockDims;
      var code := ExodusDtype(block.dtype);
      if code.Err? {
        return Err(code.error);
      }
      var elemType := ToExodusType(key);
      if elemType.Err? {
        return Err(UnknownElementType(key));
      }
      var connect := (ConnectName(k), Variable(code.value, [BlockDim1(k), BlockDim2(k)],
                                               map["elem_type" := TextAttr(elemType.value)],
                                               IntTable(ShiftAll(code.value, block.grid, 1))));
      assert BlockError(m.cells[k].0, m.cells[k].1).None?;
      assert connect == BlockVar(k, key, block);
      BlockVarsSnoc(m.cells, k);
      AppendAssoc(before.vars, BlockVars(m.cells, k), [connect]);
      vars := vars + [connect];
      k := k + 1;
    }
    return Ok(Partial(dims, vars));
  }

  /** The point data: one name table and one time step holding every field. */
  method WritePointData(m: Mesh, before: Partial) returns (r: Result<Partial>)
    ensures r == PointDataOutcome(m, before)
  {
    if |m.pointData| == 0 {
      assert before.dims + PointDataDims(m) == before.dims && before.vars + PointDataVars(m) == before.vars;
      return Ok(before);
    }
    var dims := before.dims + [("num_nod_var", Dim(|m.pointData|, false))];
    var names := WriteNames(Keys(m.pointData));
    if names.Err? {
      return Err(names.error);
    }
    // the dtype of the first field is used for all of them
    var code := ExodusDtype(m.pointData[0].1.dtype);
    if code.Err? {
      return Err(code.error);
    }
    var record := WriteNodalValues(m.pointData, |m.points.grid.rows|);
    if record.Err? {
      return Err(record.error);
    }
    var vars := before.vars +
      [("name_nod_var", Variable("S1", ["num_nod_var", "len_string"], map[], CharTable(names.value))),
       ("vals_nod_var", Variable(code.value, ["time_step", "num_nod_var", "num_nodes"], map[],
                                 RealCube([record.value])))];
    return Ok(Partial(dims, vars));
  }

  /** The node sets: ids and names, then one dimension and one `node_ns` variable per set. */
  method WriteNodeSets(m: Mesh, before: Partial) returns (r: Result<Partial>)
    ensures r == NodeSetsOutcome(m, before)
  {
    if |m.nodeSets| == 0 {
      assert before.dims + NodeSetDims(m.nodeSets, 0) == before.dims && before.vars + NodeSetSection(m) == before.vars;
      return Ok(before);
    }
    // the source numbers the sets and writes their names in one loop; neither step can fail
    var ids := NumberedIds(|m.nodeSets|);
    assert ids == Range(|m.nodeSets|);
    var names := WriteNames(Keys(m.nodeSets));
    if names.Err? {
      return Err(names.error);
    }
    var dims := before.dims;
    var vars := before.vars +
      [("ns_prop1", Variable("i4", ["num_node_sets"], map[], IntVector(ids))),
       ("ns_names", Variable("S1", ["num_node_sets", "len_string"], map[], CharTable(names.value)))];
    assert vars == before.vars + NodeSetHeader(m);
    var withHeader := vars;
    var k := 0;
    while k < |m.nodeSets|
      invariant 0 <= k <= |m.nodeSets|
      invariant forall j :: 0 <= j < k ==> ExodusDtype(m.nodeSets[j].1.dtype).Ok?
      invariant dims == before.dims + NodeSetDims(m.nodeSets, k)
      invariant vars == withHeader + NodeSetVars(m.nodeSets, k)
      invariant NodeSetsError(m.nodeSets, 0) == NodeSetsError(m.nodeSets, k)
    {
      var nodes := m.nodeSets[k].1;
      NodeSetDimsSnoc(m.nodeSets, k + 1);
      dims := dims + [(NodeSetDim(k), Dim(|nodes.ints|, false))];
      var code := ExodusDtype(nodes.dtype);
      if code.Err? {
        return Err(code.error);
      }
      NodeSetVarsSnoc(m.nodeSets, k + 1);
      vars := vars + [(NodeSetName(k), Variable(code.value, [NodeSetDim(k)], map[], IntVector(ShiftEach(code.value, nodes.ints, 1))))];
      k := k + 1;
    }
    assert vars == before.vars + (NodeSetHeader(m) + NodeSetVars(m.nodeSets, k));
    return Ok(Partial(dims, vars));
  }

  lemma NodeSetDimsSnoc(sets: seq<(string, IntList)>, n: nat)
    requires 0 < n <= |sets|
    ensures NodeSetDims(sets, n) == NodeSetDims(sets, n - 1) + [(NodeSetDim(n - 1), Dim(|sets[n - 1].1.ints|, false))]
  {
  }

  lemma NodeSetVarsSnoc(sets: seq<(string, IntList)>, n: nat)
    requires 0 < n <= |sets|
    requires forall j :: 0 <= j < n ==> ExodusDtype(sets[j].1.dtype).Ok?
    ensures NodeSetVars(sets, n) == NodeSetVars(sets, n - 1) + [NodeSetVar(n - 1, sets[n - 1].1)]
  {
  }

  lemma SideSetDimsSnoc(sets: seq<(string, IntArray)>, n: nat)
    requires 0 < n <= |sets|
    ensures SideSetDims(sets, n) == SideSetDims(sets, n - 1) + [(SideSetDim(n - 1), Dim(|sets[n - 1].1.grid.rows|, false))]
  {
  }

  /** The side sets: ids and names, then one dimension and two variables per set. */
  method WriteSideSets(m: Mesh, before: Partial) returns (r: Result<Partial>)
    ensures r == SideSetsOutcome(m, before)
  {
    if |m.sideSets| == 0 {
      assert before.dims + SideSetDims(m.sideSets, 0) == before.dims && before.vars + SideSetSection(m) == before.vars;
      return Ok(before);
    }
    var ids := NumberedIds(|m.sideSets|);
    assert ids == Range(|m.sideSets|);
    var names := WriteNames(Keys(m.sideSets));
    if names.Err? {
      return Err(names.error);
    }
    var dims := before.dims;
    var vars := before.vars +
      [("ss_prop1", Variable("i4", ["num_side_sets"], map[], IntVector(ids))),
       ("ss_names", Variable("S1", ["num_side_sets", "len_string"], map[], CharTable(names.value)))];
    assert vars == before.vars + SideSetHeader(m);
    var withHeader := vars;
    var k := 0;
    while k < |m.sideSets|
      invariant 0 <= k <= |m.sideSets|
      invariant forall j :: 0 <= j < k ==> SideSetError(j, m.sideSets[j].1).None?
      invariant dims == before.dims + SideSetDims(m.sideSets, k)
      invariant vars == withHeader + SideSetVars(m.sideSets, k)
      invariant SideSetsError(m.sideSets, 0) == SideSetsError(m.sideSets, k)
    {
      var sides := m.sideSets[k].1;
      SideSetDimsSnoc(m.sideSets, k + 1);
      AppendAssoc(before.dims, SideSetDims(m.sideSets, k), [(SideSetDim(k), Dim(|sides.grid.rows|, false))]);
      dims := dims + [(SideSetDim(k), Dim(|sides.grid.rows|, false))];
      var code := ExodusDtype(sides.dtype);
      if code.Err? {
        return Err(code.error);
      }
      if sides.grid.cols == 0 {
        return Err(ShapeMismatch(ElemSideSetName(k)));
      }
      var elems := (ElemSideSetName(k), Variable(code.value, [SideSetDim(k)], map[],
                                                  IntVector(ShiftEach(code.value, Column(sides.grid, 0), 1))));
      if sides.grid.cols == 1 {
        return Err(ShapeMismatch(SideSideSetName(k)));
      }
      var sideNumbers := (SideSideSetName(k), Variable(code.value, [SideSetDim(k)], map[],
                                                        IntVector(Column(sides.grid, 1))));
      assert SideSetError(k, m.sideSets[k].1).None?;
      assert [elems, sideNumbers] == SideSetVarPair(k, sides);
      assert SideSetVars(m.sideSets, k + 1) == SideSetVars(m.sideSets, k) + [elems, sideNumbers];
      AppendAssoc(withHeader, SideSetVars(m.sideSets, k), [elems, sideNumbers]);
      vars := vars + [elems, sideNumbers];
      k := k + 1;
    }
    assert vars == before.vars + (SideSetHeader(m) + SideSetVars(m.sideSets, k));
    return Ok(Partial(dims, vars));
  }

  /** `write`: the container it creates, or the first error it raises. */
  method Write(m: Mesh) returns (r: Result<Dataset>)
    ensures r == WriteSpec(m)
  {
    // dummy time step, then the points
    var vars := [("time_whole", Variable("f4", ["time_step"], map[], RealVector([0.0])))];
    vars := vars + [("coor_names", Variable("S1", ["num_dim", "len_string"], map[], CharTable(CoordNames)))];
    var coordType := ExodusDtype(m.points.dtype);
    if coordType.Err? {
      return Err(coordType.error);
    }
    if m.points.grid.cols != 3 {
      return Err(ShapeMismatch("coord"));
    }
    vars := vars + [("coord", Variable(coordType.value, ["num_dim", "num_nodes"], map[],
                                       RealTable(Transpose(m.points.grid))))];
    // ParaView's block ids
    var blockIds := NumberedIds(|m.cells|);
    assert blockIds == Range(|m.cells|);
    vars := vars + [("eb_prop1", Variable("i4", ["num_el_blk"], map[], IntVector(blockIds)))];
    assert vars == HeaderVars(m);
    var header := Partial(FixedDims(m), vars);
    var afterBlocks := WriteBlocks(m, header);
    if afterBlocks.Err? {
      return Err(afterBlocks.error);
    }
    var afterPointData := WritePointData(m, afterBlocks.value);
    if afterPointData.Err? {
      return Err(afterPointData.error);
    }
    var afterNodeSets := WriteNodeSets(m, afterPointData.value);
    if afterNodeSets.Err? {
      return Err(afterNodeSets.error);
    }
    var afterSideSets := WriteSideSets(m, afterNodeSets.value);
    if afterSideSets.Err? {
      return Err(afterSideSets.error);
    }
    assert afterSideSets.value.dims == AllDims(m);
    assert afterSideSets.value.vars == AllVars(m);
    return Ok(Dataset(GlobalAttributes, afterSideSets.value.dims, afterSideSets.value.vars));
  }
}
