/** Reading back what the Exodus writer wrote. */
module ExodusRoundTrip {
  import opened Outcomes
  import opened Text
  import opened Dicts
  import opened Grids
  import opened Dtypes
  import opened ElementTypes
  import opened NetCdf
  import opened Meshes
  import opened ExodusRead
  import opened ExodusWrite
  import opened ExodusWriteFacts

  /** A name the reader's loop skips: it starts like none of the names the loop looks for. */
  lemma ClassifyIgnores(name: string)
    requires |name| >= 2 && name[0] != 'c' && name[0] != 'v' && !(name[0] == 'n' && name[1] == 'a')
    ensures Classify(name) == Ignored
  {
    assert !("connect" <= name) by {
      assert "connect"[0] == 'c';
    }
  }

  lemma ReadOne(s: ReadState, p: (string, Variable))
    ensures ReadVars(s, [p]) == Step(s, p.0, p.1)
  {
    assert [p][1..] == [];
  }

  /** What the reader makes of the header: the points, transposed back; nothing else. */
  lemma ReadHeader(m: Mesh, numNodes: nat)
    requires PointsError(m.points).None?
    ensures ReadVars(InitialState(numNodes), HeaderVars(m)) == Ok(ReadState(m.points.grid, [], [], []))
  {
    var h := HeaderVars(m);
    var s0 := InitialState(numNodes);
    assert h == [h[0]] + [h[1]] + [h[2]] + [h[3]];
    ClassifyIgnores("time_whole");
    assert Classify("coor_names") == Ignored by {
      assert "connect"[2] != "coor_names"[2];
    }
    ClassifyIgnores("eb_prop1");
    TransposeTwice(m.points.grid);
    ReadOne(s0, h[0]);
    ReadVarsAppend(s0, [h[0]], [h[1]]);
    ReadOne(s0, h[1]);
    ReadVarsAppend(s0, [h[0]] + [h[1]], [h[2]]);
    ReadOne(s0, h[2]);
    var s1 := s0.(points := m.points.grid);
    ReadVarsAppend(s0, [h[0]] + [h[1]] + [h[2]], [h[3]]);
    ReadOne(s1, h[3]);
  }

  /**
   * Block `k` reads back under its own key, with its rows as the mesh gave them: subtracting one
   * in the stored type undoes adding one in it, also where the addition wrapped around.
   */
  lemma ReadWrittenBlock(k: nat, key: string, block: IntArray)
    requires BlockError(key, block).None? && FitsDtype(block)
    ensures Classify(BlockVar(k, key, block).0) == Connect
    ensures ConnectBlock(BlockVar(k, key, block).0, BlockVar(k, key, block).1) == Ok((key, block.grid))
  {
    ReadBackWrittenType(key);
    ShiftAllBack(ExodusDtype(block.dtype).value, block.grid, 1);
    assert "connect" <= "connect" + NatToString(k + 1);
  }

  /** A block under a key not seen before is added as it is. */
  lemma ReadNewBlock(s: ReadState, bv: (string, Variable), key: string, grid: Matrix<int>)
    requires Classify(bv.0) == Connect && ConnectBlock(bv.0, bv.1) == Ok((key, grid)) && Lookup(s.cells, key).None?
    ensures ReadVars(s, [bv]) == Ok(s.(cells := s.cells + [(key, grid)]))
  {
    ReadOne(s, bv);
    PutNew(s.cells, key, grid);
  }

  lemma CellGridsPrefix(cells: seq<(string, IntArray)>, n: nat)
    requires 0 < n <= |cells|
    ensures CellGrids(cells[..n]) == CellGrids(cells[..n - 1]) + [(cells[n - 1].0, cells[n - 1].1.grid)]
  {
    var g := CellGrids(cells[..n]);
    assert g[..|g| - 1] == CellGrids(cells[..n - 1]);
    assert g[|g| - 1] == (cells[n - 1].0, cells[n - 1].1.grid);
  }

  /** Reading one more block extends what the earlier blocks gave by that block's key and rows. */
  lemma ReadBlocksStep(cells: seq<(string, IntArray)>, n: nat, points: Matrix<real>)
    requires 0 < n <= |cells| && DistinctKeys(cells)
    requires forall j :: 0 <= j < |cells| ==> BlockError(cells[j].0, cells[j].1).None? && FitsDtype(cells[j].1)
    requires ReadVars(ReadState(points, [], [], []), BlockVars(cells, n - 1))
          == Ok(ReadState(points, [], [], CellGrids(cells[..n - 1])))
    ensures ReadVars(ReadState(points, [], [], []), BlockVars(cells, n))
         == Ok(ReadState(points, [], [], CellGrids(cells[..n])))
  {
    var s := ReadState(points, [], [], []);
    var before := CellGrids(cells[..n - 1]);
    var key := cells[n - 1].0;
    var bv := BlockVar(n - 1, key, cells[n - 1].1);
    BlockVarsSnoc(cells, n - 1);
    ReadVarsAppend(s, BlockVars(cells, n - 1), [bv]);
    ReadWrittenBlock(n - 1, key, cells[n - 1].1);
    NewKey(cells, n);
    ReadNewBlock(ReadState(points, [], [], before), bv, key, cells[n - 1].1.grid);
    CellGridsPrefix(cells, n);
  }

  /** The key of block `n - 1` is not among the keys of the blocks before it. */
  lemma NewKey(cells: seq<(string, IntArray)>, n: nat)
    requires 0 < n <= |cells| && DistinctKeys(cells)
    ensures Lookup(CellGrids(cells[..n - 1]), cells[n - 1].0).None?
  {
    var g := CellGrids(cells[..n - 1]);
    assert forall i :: 0 <= i < n - 1 ==> g[i].0 == cells[i].0;
    LookupMissing(g, cells[n - 1].0);
  }

  /** The blocks, written in order under distinct keys, read back as the dictionary they came from. */
  lemma {:induction false} ReadBlocks(cells: seq<(string, IntArray)>, n: nat, points: Matrix<real>)
    requires n <= |cells| && DistinctKeys(cells)
    requires forall j :: 0 <= j < |cells| ==> BlockError(cells[j].0, cells[j].1).None? && FitsDtype(cells[j].1)
    ensures ReadVars(ReadState(points, [], [], []), BlockVars(cells, n))
         == Ok(ReadState(points, [], [], CellGrids(cells[..n])))
  {
    if n == 0 {
      assert BlockVars(cells, 0) == [];
      assert CellGrids(cells[..0]) == [];
    } else {
      ReadBlocks(cells, n - 1, points);
      ReadBlocksStep(cells, n, points);
    }
  }

  lemma ClassifyNodal()
    ensures Classify("name_nod_var") == NodalNames && Classify("vals_nod_var") == NodalValues
  {
    assert "connect"[0] != "name_nod_var"[0] && "connect"[0] != "vals_nod_var"[0];
  }

  /** The name table of the point data decodes to the field names. */
  lemma NamesDecode(m: Mesh)
    requires PointDataError(m).None? && m.pointData != []
    requires forall j, i :: 0 <= j < |m.pointData| && 0 <= i < |m.pointData[j].0| ==> m.pointData[j].0[i] != NulChar
    ensures NamesError(Keys(m.pointData), 0).None?
    ensures DecodeRows(NameTable(Keys(m.pointData))) == Keys(m.pointData)
  {
    var pd := m.pointData;
    assert NamesError(Keys(pd), 0).None?;
    var rows := NameTable(Keys(pd));
    forall k | 0 <= k < |pd|
      ensures DecodeRow(rows[k]) == Keys(pd)[k]
    {
      NameTableDecodes(Keys(pd), k);
    }
  }

  /** The point data reads back as its names, decoded, and time step 0. */
  lemma ReadWrittenPointData(m: Mesh, s: ReadState)
    requires PointDataError(m).None? && s.names == [] && s.values == []
    requires forall j, i :: 0 <= j < |m.pointData| && 0 <= i < |m.pointData[j].0| ==> m.pointData[j].0[i] != NulChar
    ensures ReadVars(s, PointDataVars(m)) == Ok(s.(names := Keys(m.pointData), values := FieldValues(m.pointData)))
  {
    var pd := m.pointData;
    if pd == [] {
      assert Keys(pd) == [] && FieldValues(pd) == [];
    } else {
      var p := PointDataVars(m);
      NamesDecode(m);
      assert p == [p[0]] + [p[1]];
      assert p[0].0 == "name_nod_var" && p[1].0 == "vals_nod_var";
      ClassifyNodal();
      ReadOne(s, p[0]);
      var s1 := s.(names := Keys(pd));
      assert Step(s, p[0].0, p[0].1) == Ok(s1);
      ReadVarsAppend(s, [p[0]], [p[1]]);
      ReadOne(s1, p[1]);
      assert Step(s1, p[1].0, p[1].1) == Ok(s1.(values := FieldValues(pd)));
    }
  }

  lemma ReadNodeSets(m: Mesh, s: ReadState)
    requires NodeSetSectionError(m).None?
    ensures ReadVars(s, NodeSetSection(m)) == Ok(s)
  {
    var v := NodeSetSection(m);
    forall i | 0 <= i < |v|
      ensures Classify(v[i].0) == Ignored
    {
      if i >= 2 {
        var name := NodeSetName(i - 2);
        assert v[i].0 == name && name[0] == 'n' && name[1] == 'o';
      }
      ClassifyIgnores(v[i].0);
    }
    ReadIgnored(s, v);
  }

  lemma ReadSideSets(m: Mesh, s: ReadState)
    requires SideSetSectionError(m).None?
    ensures ReadVars(s, SideSetSection(m)) == Ok(s)
  {
    var v := SideSetSection(m);
    forall i | 0 <= i < |v|
      ensures Classify(v[i].0) == Ignored
    {
      if i >= 2 {
        SideSetVarNameAt(m.sideSets, i - 2);
        assert v[i] == SideSetVars(m.sideSets, |m.sideSets|)[i - 2];
        assert v[i].0[0] == 'e' || v[i].0[0] == 's';
      }
      ClassifyIgnores(v[i].0);
    }
    ReadIgnored(s, v);
  }

  /** Reading the written variables section by section. */
  lemma ReadAllVars(m: Mesh)
    requires WriteError(m).None? && DistinctKeys(m.cells)
    requires forall j :: 0 <= j < |m.cells| ==> FitsDtype(m.cells[j].1)
    requires forall j, i :: 0 <= j < |m.pointData| && 0 <= i < |m.pointData[j].0| ==> m.pointData[j].0[i] != NulChar
    ensures ReadVars(InitialState(|m.points.grid.rows|), AllVars(m))
         == Ok(ReadState(m.points.grid, Keys(m.pointData), FieldValues(m.pointData), CellGrids(m.cells)))
  {
    var n := |m.points.grid.rows|;
    var h, b, p := HeaderVars(m), BlockVars(m.cells, |m.cells|), PointDataVars(m);
    var ns, ss := NodeSetSection(m), SideSetSection(m);
    var s0 := InitialState(n);
    ReadHeader(m, n);
    var s1 := ReadState(m.points.grid, [], [], []);
    ReadBlocks(m.cells, |m.cells|, m.points.grid);
    assert m.cells[..|m.cells|] == m.cells;
    var s2 := s1.(cells := CellGrids(m.cells));
    ReadWrittenPointData(m, s2);
    var s3 := s2.(names := Keys(m.pointData), values := FieldValues(m.pointData));
    ReadNodeSets(m, s3);
    ReadSideSets(m, s3);
    ReadVarsAppend(s0, h, b);
    ReadVarsAppend(s0, h + b, p);
    ReadVarsAppend(s0, h + b + p, ns);
    ReadVarsAppend(s0, h + b + p + ns, ss);
  }

  /**
   * Writing a mesh and reading it back gives its points, its cell blocks in their order under
   * their cell types, and its point data in its order under its names. The keys are distinct
   * because they come from dictionaries, and every block holds only values of its own dtype, as
   * a numpy array does. The field names must hold no NUL character, which reads as padding.
   */
  lemma WriteThenRead(m: Mesh)
    requires WriteSpec(m).Ok? && DistinctKeys(m.cells) && DistinctKeys(m.pointData)
    requires forall j :: 0 <= j < |m.cells| ==> FitsDtype(m.cells[j].1)
    requires forall j, i :: 0 <= j < |m.pointData| && 0 <= i < |m.pointData[j].0| ==> m.pointData[j].0[i] != NulChar
    ensures ReadSpec(WriteSpec(m).value)
         == Ok(MeshData(m.points.grid, CellGrids(m.cells), Zip(Keys(m.pointData), FieldValues(m.pointData))))
  {
    var ds := WriteSpec(m).value;
    WriteDimensions(m, ds);
    Written(m, ds);
    ReadAllVars(m);
    FieldPairsFresh(m.pointData);
  }

  /** Fields with distinct names are taken over by the reader's dictionary as they are. */
  lemma FieldPairsFresh(pd: seq<(string, RealList)>)
    requires DistinctKeys(pd)
    ensures PointDataDict(Keys(pd), FieldValues(pd)) == Zip(Keys(pd), FieldValues(pd))
  {
    var z := Zip(Keys(pd), FieldValues(pd));
    assert forall i :: 0 <= i < |z| ==> z[i].0 == pd[i].0;
    assert [] + z == z;
    PutAllFresh([], z);
  }
}
