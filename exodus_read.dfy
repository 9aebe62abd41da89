/**
 * The Exodus II reader: one pass over the container's variables in their stored order,
 * classifying each by name and folding it into the mesh being rebuilt.
 */
module ExodusRead {
  import opened Outcomes
  import opened Dicts
  import opened Grids
  import opened Dtypes
  import opened ElementTypes
  import opened NetCdf
  import opened Meshes

  /** How the reader treats a variable, decided from its name alone. */
  datatype VarKind = Connect | Coord | CoordAxis(axis: nat) | NodalNames | NodalValues | Ignored

  function Classify(key: string): VarKind
  {
    if "connect" <= key then Connect   // key[:7] == "connect"
    else if key == "coord" then Coord
    else if key == "coordx" then CoordAxis(0)
    else if key == "coordy" then CoordAxis(1)
    else if key == "coordz" then CoordAxis(2)
    else if key == "name_nod_var" then NodalNames
    else if key == "vals_nod_var" then NodalValues
    else Ignored
  }

  /** The locals of the reader's loop. */
  datatype ReadState = ReadState(points: Matrix<real>, names: seq<string>, values: seq<seq<real>>,
                                 cells: seq<(string, Matrix<int>)>)

  /** Before the loop: zero coordinates for `num_nodes` nodes, nothing else. */
  function InitialState(numNodes: nat): ReadState
  {
    ReadState(Zeros(numNodes, 3), [], [], [])
  }

  /** A `connect*` variable: its canonical cell type and its rows converted to 0-based indices. */
  function ConnectBlock(key: string, v: Variable): Result<(string, Matrix<int>)>
  {
    if "elem_type" !in v.attrs || !v.attrs["elem_type"].TextAttr? then
      Err(MissingAttribute(key, "elem_type"))
    else
      match ToMeshioType(v.attrs["elem_type"].text)
      case Err(e) => Err(e)
      case Ok(t) =>
        if v.values.IntTable? then Ok((t, ShiftAll(v.dtype, v.values.table, -1))) else Err(ShapeMismatch(key))
  }

  function DecodeRows(rows: seq<seq<char>>): seq<string>
  {
    seq(|rows|, i requires 0 <= i < |rows| => DecodeRow(rows[i]))
  }

  /** One iteration of the reader's loop. */
  function Step(s: ReadState, key: string, v: Variable): Result<ReadState>
  {
    match Classify(key)
    case Connect =>
      (match ConnectBlock(key, v)
       case Err(e) => Err(e)
       case Ok(tb) =>
         var (t, block) := tb;
         match Lookup(s.cells, t)
         case None => Ok(s.(cells := Put(s.cells, t, block)))
         case Some(g) =>
           if g.cols == block.cols then Ok(s.(cells := Put(s.cells, t, Stack(g, block))))
           else Err(ShapeMismatch(key)))
    case Coord =>
      if v.values.RealTable? then Ok(s.(points := Transpose(v.values.grid))) else Err(ShapeMismatch(key))
    case CoordAxis(j) =>
      if v.values.RealVector? && j < s.points.cols && |v.values.reals| == |s.points.rows| then
        Ok(s.(points := SetColumn(s.points, j, v.values.reals)))
      else Err(ShapeMismatch(key))
    case NodalNames =>
      if v.values.CharTable? then Ok(s.(names := DecodeRows(v.values.chars))) else Err(ShapeMismatch(key))
    case NodalValues =>
      if v.values.RealCube? && |v.values.cube| > 0 then Ok(s.(values := v.values.cube[0]))
      else Err(ShapeMismatch(key))
    case Ignored => Ok(s)
  }

  function ReadVars(s: ReadState, vars: seq<(string, Variable)>): Result<ReadState>
    decreases |vars|
  {
    if vars == [] then Ok(s)
    else
      match Step(s, vars[0].0, vars[0].1)
      case Err(e) => Err(e)
      case Ok(s1) => ReadVars(s1, vars[1..])
  }

  /** `{name: dat for name, dat in zip(point_data_names, pd)}`. */
  function PointDataDict(names: seq<string>, values: seq<seq<real>>): seq<(string, seq<real>)>
  {
    PutAll([], Zip(names, values))
  }

  /** The reader as a function of the container. */
  function ReadSpec(ds: Dataset): Result<MeshData>
  {
    match DimLength(ds, "num_nodes")
    case None => Err(MissingDimension("num_nodes"))
    case Some(n) =>
      match ReadVars(InitialState(n), ds.vars)
      case Err(e) => Err(e)
      case Ok(s) => Ok(MeshData(s.points, s.cells, PointDataDict(s.names, s.values)))
  }

  /** `read`, with the container already opened. */
  method Read(ds: Dataset) returns (r: Result<MeshData>)
    ensures r == ReadSpec(ds)
  {
    var numNodes := DimLength(ds, "num_nodes");
    if numNodes.None? {
      return Err(MissingDimension("num_nodes"));
    }
    var points := Zeros(numNodes.value, 3);
    var names: seq<string> := [];
    var values: seq<seq<real>> := [];
    var cells: seq<(string, Matrix<int>)> := [];
    var i := 0;
    while i < |ds.vars|
      invariant 0 <= i <= |ds.vars|
      invariant ReadVars(InitialState(numNodes.value), ds.vars)
                == ReadVars(ReadState(points, names, values, cells), ds.vars[i..])
    {
      var key, v := ds.vars[i].0, ds.vars[i].1;
      ghost var before := ReadState(points, names, values, cells);
      assert ds.vars[i..][0] == ds.vars[i] && ds.vars[i..][1..] == ds.vars[i + 1..];
      match Classify(key) {
        case Connect =>
          if "elem_type" !in v.attrs || !v.attrs["elem_type"].TextAttr? {
            return Err(MissingAttribute(key, "elem_type"));
          }
          var meshioType := ToMeshioType(v.attrs["elem_type"].text);
          if meshioType.Err? {
            return Err(meshioType.error);
          }
          if !v.values.IntTable? {
            return Err(ShapeMismatch(key));
          }
          var block := ShiftAll(v.dtype, v.values.table, -1);
          var t := meshioType.value;
          var earlier := Lookup(cells, t);
          if earlier.Some? {
            if earlier.value.cols != block.cols {
              return Err(ShapeMismatch(key));
            }
            cells := Put(cells, t, Stack(earlier.value, block));
          } else {
            cells := Put(cells, t, block);
          }
        case Coord =>
          if !v.values.RealTable? {
            return Err(ShapeMismatch(key));
          }
          points := Transpose(v.values.grid);
        case CoordAxis(j) =>
          if !v.values.RealVector? || j >= points.cols || |v.values.reals| != |points.rows| {
            return Err(ShapeMismatch(key));
          }
          points := SetColumn(points, j, v.values.reals);
        case NodalNames =>
          if !v.values.CharTable? {
            return Err(ShapeMismatch(key));
          }
          names := DecodeRows(v.values.chars);
        case NodalValues =>
          if !v.values.RealCube? || |v.values.cube| == 0 {
            return Err(ShapeMismatch(key));
          }
          values := v.values.cube[0];
        case Ignored =>
      }
      assert Step(before, key, v) == Ok(ReadState(points, names, values, cells));
      i := i + 1;
    }
    r := Ok(MeshData(points, cells, PointDataDict(names, values)));
  }

  // ---------------------------------------------------------------------------------------
  // Properties of the reader

  lemma {:induction false} ReadVarsAppend(s: ReadState, a: seq<(string, Variable)>, b: seq<(string, Variable)>)
    ensures ReadVars(s, a + b) == match ReadVars(s, a) case Err(e) => Err(e) case Ok(s1) => ReadVars(s1, b)
    decreases |a|
  {
    if a != [] {
      assert (a + b)[0] == a[0] && (a + b)[1..] == a[1..] + b;
      match Step(s, a[0].0, a[0].1)
      case Err(_) =>
      case Ok(s1) => ReadVarsAppend(s1, a[1..], b);
    } else {
      assert a + b == b;
    }
  }

  /** Variables the reader ignores leave its state as it was. */
  lemma {:induction false} ReadIgnored(s: ReadState, vars: seq<(string, Variable)>)
    requires forall i :: 0 <= i < |vars| ==> Classify(vars[i].0) == Ignored
    ensures ReadVars(s, vars) == Ok(s)
    decreases |vars|
  {
    if vars != [] {
      assert forall i :: 0 <= i < |vars[1..]| ==> Classify(vars[1..][i].0) == Ignored by {
        forall i | 0 <= i < |vars[1..]| ensures Classify(vars[1..][i].0) == Ignored {
          assert vars[1..][i] == vars[i + 1];
        }
      }
      ReadIgnored(s, vars[1..]);
    }
  }

  /** A successful read resolved every `connect*` variable: none is skipped. */
  lemma {:induction false} ReadVarsResolvesBlocks(s: ReadState, vars: seq<(string, Variable)>, i: nat)
    requires ReadVars(s, vars).Ok? && i < |vars| && Classify(vars[i].0) == Connect
    ensures ConnectBlock(vars[i].0, vars[i].1).Ok?
    decreases |vars|
  {
    var s1 := Step(s, vars[0].0, vars[0].1).value;
    if i > 0 {
      assert vars[1..][i - 1] == vars[i];
      ReadVarsResolvesBlocks(s1, vars[1..], i - 1);
    }
  }

  /**
   * A `connect*` variable whose `elem_type`, upper-cased, is not a registered Exodus name makes
   * the whole read fail.
   */
  lemma ReadRejectsUnknownType(ds: Dataset, i: nat)
    requires i < |ds.vars| && Classify(ds.vars[i].0) == Connect
    requires "elem_type" in ds.vars[i].1.attrs && ds.vars[i].1.attrs["elem_type"].TextAttr?
    requires Text.Upper(ds.vars[i].1.attrs["elem_type"].text) !in ExodusToMeshio
    ensures ReadSpec(ds).Err?
  {
    if ReadSpec(ds).Ok? {
      ReadVarsResolvesBlocks(InitialState(DimLength(ds, "num_nodes").value), ds.vars, i);
    }
  }

  /** The canonical type and 0-based rows a variable contributes, if it is a readable block. */
  function BlockOf(key: string, v: Variable): Option<(string, Matrix<int>)>
  {
    if Classify(key) == Connect && ConnectBlock(key, v).Ok? then Some(ConnectBlock(key, v).value) else None
  }

  /** A readable block of canonical type `t`. */
  predicate IsBlockOf(key: string, v: Variable, t: string)
  {
    BlockOf(key, v).Some? && BlockOf(key, v).value.0 == t
  }

  predicate HasBlock(vars: seq<(string, Variable)>, t: string)
  {
    exists i :: 0 <= i < |vars| && IsBlockOf(vars[i].0, vars[i].1, t)
  }

  /** The rows one variable adds under `t`: those of a block of type `t`, else none. */
  function RowsFor(key: string, v: Variable, t: string): seq<seq<int>>
  {
    if IsBlockOf(key, v, t) then BlockOf(key, v).value.1.rows else []
  }

  /** The rows of every block of type `t`, in stored order, each entry one less than on disk. */
  function BlockRows(vars: seq<(string, Variable)>, t: string): seq<seq<int>>
    decreases |vars|
  {
    if vars == [] then [] else RowsFor(vars[0].0, vars[0].1, t) + BlockRows(vars[1..], t)
  }

  lemma HasBlockCons(vars: seq<(string, Variable)>, t: string)
    requires vars != []
    ensures HasBlock(vars, t) <==> IsBlockOf(vars[0].0, vars[0].1, t) || HasBlock(vars[1..], t)
  {
    if HasBlock(vars, t) {
      var i :| 0 <= i < |vars| && IsBlockOf(vars[i].0, vars[i].1, t);
      if i > 0 { assert vars[1..][i - 1] == vars[i]; }
    }
    if HasBlock(vars[1..], t) {
      var i :| 0 <= i < |vars[1..]| && IsBlockOf(vars[1..][i].0, vars[1..][i].1, t);
      assert vars[1..][i] == vars[i + 1];
    }
  }

  /** The rows stored under `t` so far, none if `t` is not a key yet. */
  function RowsUnder(cells: seq<(string, Matrix<int>)>, t: string): seq<seq<int>>
  {
    match Lookup(cells, t)
    case None => []
    case Some(g) => g.rows
  }

  /** One step adds a block's rows under its type and leaves every other type alone. */
  lemma StepStacks(s: ReadState, key: string, v: Variable, t: string)
    requires Step(s, key, v).Ok?
    ensures Lookup(Step(s, key, v).value.cells, t).Some? <==> Lookup(s.cells, t).Some? || IsBlockOf(key, v, t)
    ensures RowsUnder(Step(s, key, v).value.cells, t) == RowsUnder(s.cells, t) + RowsFor(key, v, t)
  {
    if Classify(key) == Connect {
      var (u, block) := ConnectBlock(key, v).value;
      match Lookup(s.cells, u)
      case None => PutLookup(s.cells, u, block, t);
      case Some(g) => PutLookup(s.cells, u, Stack(g, block), t);
    } else {
      assert RowsUnder(s.cells, t) + [] == RowsUnder(s.cells, t);
    }
  }

  lemma {:induction false} ReadVarsStacks(s: ReadState, vars: seq<(string, Variable)>, t: string)
    requires ReadVars(s, vars).Ok?
    ensures Lookup(ReadVars(s, vars).value.cells, t).Some? <==> Lookup(s.cells, t).Some? || HasBlock(vars, t)
    ensures RowsUnder(ReadVars(s, vars).value.cells, t) == RowsUnder(s.cells, t) + BlockRows(vars, t)
    decreases |vars|
  {
    if vars != [] {
      var s1 := Step(s, vars[0].0, vars[0].1).value;
      assert ReadVars(s, vars) == ReadVars(s1, vars[1..]);
      StepStacks(s, vars[0].0, vars[0].1, t);
      ReadVarsStacks(s1, vars[1..], t);
      HasBlockCons(vars, t);
      var a, b, c := RowsUnder(s.cells, t), RowsFor(vars[0].0, vars[0].1, t), BlockRows(vars[1..], t);
      assert BlockRows(vars, t) == b + c;
      AppendAssoc(a, b, c);
    } else {
      assert RowsUnder(s.cells, t) + [] == RowsUnder(s.cells, t);
    }
  }

  /**
   * Blocks of one canonical type are stacked: the type is present exactly when some block has it,
   * and its array is the concatenation, in stored order, of those blocks' rows minus one.
   */
  lemma ReadStacksBlocks(ds: Dataset, t: string)
    requires ReadSpec(ds).Ok?
    ensures Lookup(ReadSpec(ds).value.cells, t).Some? <==> HasBlock(ds.vars, t)
    ensures Lookup(ReadSpec(ds).value.cells, t).Some? ==>
      Lookup(ReadSpec(ds).value.cells, t).value.rows == BlockRows(ds.vars, t)
  {
    ReadVarsStacks(InitialState(DimLength(ds, "num_nodes").value), ds.vars, t);
    assert [] + BlockRows(ds.vars, t) == BlockRows(ds.vars, t);
  }

  /** The canonical types of the readable blocks, in stored order, repeats included. */
  function BlockTypes(vars: seq<(string, Variable)>): seq<string>
    decreases |vars|
  {
    if vars == [] then []
    else
      (match BlockOf(vars[0].0, vars[0].1)
       case Some(tb) => [tb.0]
       case None => []) + BlockTypes(vars[1..])
  }

  lemma StepKeys(s: ReadState, key: string, v: Variable)
    requires Step(s, key, v).Ok?
    ensures Keys(Step(s, key, v).value.cells) ==
      match BlockOf(key, v)
      case None => Keys(s.cells)
      case Some(tb) => if tb.0 in Keys(s.cells) then Keys(s.cells) else Keys(s.cells) + [tb.0]
  {
    if Classify(key) == Connect {
      var (u, block) := ConnectBlock(key, v).value;
      LookupKeys(s.cells, u);
      match Lookup(s.cells, u)
      case None => PutKeys(s.cells, u, block);
      case Some(g) => PutKeys(s.cells, u, Stack(g, block));
    }
  }

  lemma {:induction false} ReadVarsKeys(s: ReadState, vars: seq<(string, Variable)>)
    requires ReadVars(s, vars).Ok?
    ensures Keys(ReadVars(s, vars).value.cells) == FirstAppearances(Keys(s.cells), BlockTypes(vars))
    decreases |vars|
  {
    if vars != [] {
      var s1 := Step(s, vars[0].0, vars[0].1).value;
      StepKeys(s, vars[0].0, vars[0].1);
      ReadVarsKeys(s1, vars[1..]);
      match BlockOf(vars[0].0, vars[0].1)
      case None =>
        assert BlockTypes(vars) == BlockTypes(vars[1..]);
      case Some(tb) =>
        var ts := BlockTypes(vars);
        assert ts == [tb.0] + BlockTypes(vars[1..]);
        assert ts[0] == tb.0 && ts[1..] == BlockTypes(vars[1..]);
    }
  }

  /**
   * The cell types come out in the order in which each first appears among the blocks, once
   * each: a later block of a type already seen is stacked in place.
   */
  lemma ReadCellOrder(ds: Dataset)
    requires ReadSpec(ds).Ok?
    ensures Keys(ReadSpec(ds).value.cells) == FirstAppearances([], BlockTypes(ds.vars))
    ensures DistinctKeys(ReadSpec(ds).value.cells)
  {
    var s0 := InitialState(DimLength(ds, "num_nodes").value);
    ReadVarsKeys(s0, ds.vars);
    assert Keys(s0.cells) == [];
    FirstAppearancesFacts([], BlockTypes(ds.vars), "");
    DistinctKeysNoDuplicates(ReadSpec(ds).value.cells);
  }

  /** The field names the loop ends with: those of the last `name_nod_var`, if any. */
  function NodalNamesOf(vars: seq<(string, Variable)>, names: seq<string>): seq<string>
    decreases |vars|
  {
    if vars == [] then names
    else
      NodalNamesOf(vars[1..],
        if Classify(vars[0].0) == NodalNames && vars[0].1.values.CharTable?
        then DecodeRows(vars[0].1.values.chars) else names)
  }

  /** The field values the loop ends with: time step 0 of the last `vals_nod_var`, if any. */
  function FirstStepOf(vars: seq<(string, Variable)>, values: seq<seq<real>>): seq<seq<real>>
    decreases |vars|
  {
    if vars == [] then values
    else
      FirstStepOf(vars[1..],
        if Classify(vars[0].0) == NodalValues && vars[0].1.values.RealCube? && |vars[0].1.values.cube| > 0
        then vars[0].1.values.cube[0] else values)
  }

  lemma {:induction false} ReadVarsPointData(s: ReadState, vars: seq<(string, Variable)>)
    requires ReadVars(s, vars).Ok?
    ensures ReadVars(s, vars).value.names == NodalNamesOf(vars, s.names)
    ensures ReadVars(s, vars).value.values == FirstStepOf(vars, s.values)
    decreases |vars|
  {
    if vars != [] {
      ReadVarsPointData(Step(s, vars[0].0, vars[0].1).value, vars[1..]);
    }
  }

  /**
   * The point data read back pairs the decoded names with the rows of time step 0 only, so the
   * other time steps never matter.
   */
  lemma ReadPointData(ds: Dataset)
    requires ReadSpec(ds).Ok?
    ensures ReadSpec(ds).value.pointData == PointDataDict(NodalNamesOf(ds.vars, []), FirstStepOf(ds.vars, []))
  {
    ReadVarsPointData(InitialState(DimLength(ds, "num_nodes").value), ds.vars);
  }

  /**
   * Zipping names with value rows: the shorter list bounds the fields, and a field holds the row
   * at the position of the last occurrence of its name.
   */
  lemma PointDataZip(names: seq<string>, values: seq<seq<real>>, k: nat)
    requires k < |names| && k < |values|
    requires forall j :: k < j < |names| && j < |values| ==> names[j] != names[k]
    ensures Lookup(PointDataDict(names, values), names[k]) == Some(values[k])
  {
    var z := Zip(names, values);
    assert z[k] == (names[k], values[k]);
    assert forall j :: k < j < |z| ==> z[j].0 != z[k].0;
    PutAllLastWins([], z, k);
  }

  /**
   * The fields are the names paired with a row, each name once, in the order in which it first
   * appears.
   */
  lemma PointDataNames(names: seq<string>, values: seq<seq<real>>, name: string)
    ensures Keys(PointDataDict(names, values)) == FirstAppearances([], Keys(Zip(names, values)))
    ensures DistinctKeys(PointDataDict(names, values))
    ensures Lookup(PointDataDict(names, values), name).Some? <==>
      exists k :: 0 <= k < |names| && k < |values| && names[k] == name
  {
    var z := Zip(names, values);
    var d := PointDataDict(names, values);
    PutAllKeys([], z);
    var empty: seq<(string, seq<real>)> := [];
    assert Keys(empty) == [];
    FirstAppearancesFacts([], Keys(z), name);
    DistinctKeysNoDuplicates(d);
    LookupKeys(d, name);
    if exists k :: 0 <= k < |names| && k < |values| && names[k] == name {
      var k :| 0 <= k < |names| && k < |values| && names[k] == name;
      assert Keys(z)[k] == name;
    }
    if name in Keys(z) {
      var k :| 0 <= k < |Keys(z)| && Keys(z)[k] == name;
      assert names[k] == name;
    }
  }

  /** One more way to see that later time steps are ignored: changing them changes nothing. */
  lemma {:induction false} ReadVarsIgnoresLaterSteps(s: ReadState, vars: seq<(string, Variable)>, i: nat,
                                                    cube: seq<seq<seq<real>>>)
    requires i < |vars| && Classify(vars[i].0) == NodalValues
    requires vars[i].1.values.RealCube? && |vars[i].1.values.cube| > 0
    requires |cube| > 0 && cube[0] == vars[i].1.values.cube[0]
    ensures ReadVars(s, vars[i := (vars[i].0, vars[i].1.(values := RealCube(cube)))]) == ReadVars(s, vars)
    decreases |vars|
  {
    var w := vars[i := (vars[i].0, vars[i].1.(values := RealCube(cube)))];
    assert Step(s, w[0].0, w[0].1) == Step(s, vars[0].0, vars[0].1);
    if i > 0 {
      match Step(s, vars[0].0, vars[0].1)
      case Err(_) =>
      case Ok(s1) =>
        assert w[1..] == vars[1..][i - 1 := (vars[i].0, vars[i].1.(values := RealCube(cube)))];
        ReadVarsIgnoresLaterSteps(s1, vars[1..], i - 1, cube);
    } else {
      assert w[1..] == vars[1..];
    }
  }

  lemma ReadIgnoresLaterTimeSteps(ds: Dataset, i: nat, cube: seq<seq<seq<real>>>)
    requires i < |ds.vars| && Classify(ds.vars[i].0) == NodalValues
    requires ds.vars[i].1.values.RealCube? && |ds.vars[i].1.values.cube| > 0
    requires |cube| > 0 && cube[0] == ds.vars[i].1.values.cube[0]
    ensures ReadSpec(ds.(vars := ds.vars[i := (ds.vars[i].0, ds.vars[i].1.(values := RealCube(cube)))]))
            == ReadSpec(ds)
  {
    if DimLength(ds, "num_nodes").Some? {
      ReadVarsIgnoresLaterSteps(InitialState(DimLength(ds, "num_nodes").value), ds.vars, i, cube);
    }
  }
}
