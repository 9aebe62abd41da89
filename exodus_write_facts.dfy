/**
 * What a successful `write` leaves in the container, stated as what a reader finds under each
 * name, and the inputs it refuses.
 */
module ExodusWriteFacts {
  import opened Outcomes
  import opened Text
  import opened Dicts
  import opened Grids
  import opened ElementTypes
  import opened Dtypes
  import opened NetCdf
  import opened Meshes
  import opened ExodusWrite

  // ---------------------------------------------------------------------------------------
  // Name families: every created name is a literal, or a stem followed by a number

  ghost predicate StemsIn<V>(ps: seq<(string, V)>, stems: set<string>)
  {
    forall i :: 0 <= i < |ps| ==> StripDigits(ps[i].0) in stems
  }

  lemma StripNoDigit(s: string)
    requires NoTrailingDigit(s)
    ensures StripDigits(s) == s
  {
  }

  /** Two sections whose names come from disjoint families never share a name. */
  lemma JoinDistinct<V>(a: seq<(string, V)>, b: seq<(string, V)>, sa: set<string>, sb: set<string>)
    requires DistinctKeys(a) && DistinctKeys(b) && StemsIn(a, sa) && StemsIn(b, sb) && sa !! sb
    ensures DistinctKeys(a + b) && StemsIn(a + b, sa + sb)
  {
    forall i, j | 0 <= i < |a| && 0 <= j < |b|
      ensures a[i].0 != b[j].0
    {
      assert StripDigits(a[i].0) in sa && StripDigits(b[j].0) in sb;
    }
    DistinctKeysAppend(a, b);
    forall i | 0 <= i < |a + b|
      ensures StripDigits((a + b)[i].0) in sa + sb
    {
      if i < |a| {
        assert (a + b)[i] == a[i];
      } else {
        assert (a + b)[i] == b[i - |a|];
      }
    }
  }

  const FixedDimStems: set<string> := {"num_nodes", "num_dim", "num_elem", "num_el_blk", "num_node_sets",
                                       "num_side_sets", "len_string", "len_line", "four", "time_step"}

  lemma FixedDimNames(m: Mesh)
    ensures DistinctKeys(FixedDims(m)) && StemsIn(FixedDims(m), FixedDimStems)
  {
    var f := FixedDims(m);
    forall i | 0 <= i < |f|
      ensures StripDigits(f[i].0) == f[i].0
    {
      StripNoDigit(f[i].0);
    }
  }

  lemma {:induction false} BlockDimsAt(cells: seq<(string, IntArray)>, n: nat, k: nat)
    requires k < n <= |cells|
    ensures BlockDims(cells, n)[2 * k] == (BlockDim1(k), Dim(|cells[k].1.grid.rows|, false))
    ensures BlockDims(cells, n)[2 * k + 1] == (BlockDim2(k), Dim(cells[k].1.grid.cols, false))
  {
    if k < n - 1 {
      BlockDimsAt(cells, n - 1, k);
    }
  }

  /** Entry `i` of a section that alternates two numbered families: `p1 q1 p2 q2 ...`. */
  function Interleaved(p: string, q: string, i: nat): string
  {
    (if i % 2 == 0 then p else q) + NatToString(i / 2 + 1)
  }

  lemma InterleavedInjective(p: string, q: string, i: nat, j: nat)
    requires NoTrailingDigit(p) && NoTrailingDigit(q) && p != q && i != j
    ensures Interleaved(p, q, i) != Interleaved(p, q, j)
  {
    NumberedNames(if i % 2 == 0 then p else q, if j % 2 == 0 then p else q, i / 2 + 1, j / 2 + 1);
  }

  lemma InterleavedSection<V>(ps: seq<(string, V)>, p: string, q: string)
    requires NoTrailingDigit(p) && NoTrailingDigit(q) && p != q
    requires forall i :: 0 <= i < |ps| ==> ps[i].0 == Interleaved(p, q, i)
    ensures DistinctKeys(ps) && StemsIn(ps, {p, q})
  {
    forall i | 0 <= i < |ps|
      ensures StripDigits(ps[i].0) in {p, q}
    {
      StemOfNumbered(if i % 2 == 0 then p else q, i / 2 + 1);
    }
    forall i, j | 0 <= i < j < |ps|
      ensures ps[i].0 != ps[j].0
    {
      InterleavedInjective(p, q, i, j);
    }
  }

  lemma BlockDimNames(cells: seq<(string, IntArray)>)
    ensures DistinctKeys(BlockDims(cells, |cells|))
    ensures StemsIn(BlockDims(cells, |cells|), {"num_el_in_blk", "num_nod_per_el"})
  {
    var d := BlockDims(cells, |cells|);
    forall i | 0 <= i < |d|
      ensures d[i].0 == Interleaved("num_el_in_blk", "num_nod_per_el", i)
    {
      var k := i / 2;
      BlockDimsAt(cells, |cells|, k);
      assert i == 2 * k || i == 2 * k + 1;
    }
    InterleavedSection(d, "num_el_in_blk", "num_nod_per_el");
  }

  /** The names `p1`, `p2`, ... of a section numbered from 1. */
  lemma NumberedSection<V>(ps: seq<(string, V)>, p: string)
    requires NoTrailingDigit(p)
    requires forall k :: 0 <= k < |ps| ==> ps[k].0 == p + NatToString(k + 1)
    ensures DistinctKeys(ps) && StemsIn(ps, {p})
  {
    forall k | 0 <= k < |ps|
      ensures StripDigits(ps[k].0) in {p}
    {
      StemOfNumbered(p, k + 1);
    }
    forall i, j | 0 <= i < j < |ps|
      ensures ps[i].0 != ps[j].0
    {
      NumberedNames(p, p, i + 1, j + 1);
    }
  }

  lemma {:induction false} SideSetVarsAt(sets: seq<(string, IntArray)>, n: nat, k: nat)
    requires k < n <= |sets|
    requires forall j :: 0 <= j < n ==> SideSetError(j, sets[j].1).None?
    ensures SideSetVars(sets, n)[2 * k] == SideSetVarPair(k, sets[k].1)[0]
    ensures SideSetVars(sets, n)[2 * k + 1] == SideSetVarPair(k, sets[k].1)[1]
  {
    if k < n - 1 {
      SideSetVarsAt(sets, n - 1, k);
    }
  }

  lemma SideSetVarNameAt(sets: seq<(string, IntArray)>, i: nat)
    requires forall j :: 0 <= j < |sets| ==> SideSetError(j, sets[j].1).None?
    requires i < |SideSetVars(sets, |sets|)|
    ensures SideSetVars(sets, |sets|)[i].0 == Interleaved("elem_ss", "side_ss", i)
  {
    var k := i / 2;
    SideSetVarsAt(sets, |sets|, k);
    if i % 2 == 0 {
      assert i == 2 * k;
    } else {
      assert i == 2 * k + 1;
    }
  }

  lemma SideSetVarNamesInterleave(sets: seq<(string, IntArray)>)
    requires forall j :: 0 <= j < |sets| ==> SideSetError(j, sets[j].1).None?
    ensures forall i :: 0 <= i < |SideSetVars(sets, |sets|)| ==>
              SideSetVars(sets, |sets|)[i].0 == Interleaved("elem_ss", "side_ss", i)
  {
    forall i | 0 <= i < |SideSetVars(sets, |sets|)|
      ensures SideSetVars(sets, |sets|)[i].0 == Interleaved("elem_ss", "side_ss", i)
    {
      SideSetVarNameAt(sets, i);
    }
  }

  /** Five sections whose names come from pairwise disjoint families never share a name. */
  lemma JoinFive<V>(a: seq<(string, V)>, b: seq<(string, V)>, c: seq<(string, V)>, d: seq<(string, V)>,
                    e: seq<(string, V)>, sa: set<string>, sb: set<string>, sc: set<string>, sd: set<string>,
                    se: set<string>)
    requires DistinctKeys(a) && DistinctKeys(b) && DistinctKeys(c) && DistinctKeys(d) && DistinctKeys(e)
    requires StemsIn(a, sa) && StemsIn(b, sb) && StemsIn(c, sc) && StemsIn(d, sd) && StemsIn(e, se)
    requires sa !! sb && (sa + sb) !! sc && (sa + sb + sc) !! sd && (sa + sb + sc + sd) !! se
    ensures DistinctKeys(a + b + c + d + e)
  {
    JoinDistinct(a, b, sa, sb);
    JoinDistinct(a + b, c, sa + sb, sc);
    JoinDistinct(a + b + c, d, sa + sb + sc, sd);
    JoinDistinct(a + b + c + d, e, sa + sb + sc + sd, se);
  }

  lemma DimStemsDisjoint()
    ensures var sb, sc, sd, se := {"num_el_in_blk", "num_nod_per_el"}, {"num_nod_var"}, {"num_nod_ns"}, {"num_side_ss"};
            FixedDimStems !! sb && (FixedDimStems + sb) !! sc && (FixedDimStems + sb + sc) !! sd
            && (FixedDimStems + sb + sc + sd) !! se
  {
  }

  lemma VarStemsDisjoint()
    ensures var sb := {"connect"};
            HeaderStems !! sb && (HeaderStems + sb) !! PointDataStems
            && (HeaderStems + sb + PointDataStems) !! NodeSetStems
            && (HeaderStems + sb + PointDataStems + NodeSetStems) !! SideSetStems
  {
  }

  /** netCDF refuses a second dimension of the same name; `write` never asks for one. */
  lemma WriteDimNamesDistinct(m: Mesh)
    ensures DistinctKeys(AllDims(m))
  {
    FixedDimNames(m);
    BlockDimNames(m.cells);
    StripNoDigit("num_nod_var");
    NumberedSection(NodeSetDims(m.nodeSets, |m.nodeSets|), "num_nod_ns");
    NumberedSection(SideSetDims(m.sideSets, |m.sideSets|), "num_side_ss");
    DimStemsDisjoint();
    JoinFive(FixedDims(m), BlockDims(m.cells, |m.cells|), PointDataDims(m), NodeSetDims(m.nodeSets, |m.nodeSets|),
             SideSetDims(m.sideSets, |m.sideSets|), FixedDimStems, {"num_el_in_blk", "num_nod_per_el"},
             {"num_nod_var"}, {"num_nod_ns"}, {"num_side_ss"});
  }

  const HeaderStems: set<string> := {"time_whole", "coor_names", "coord", "eb_prop"}
  const PointDataStems: set<string> := {"name_nod_var", "vals_nod_var"}
  const NodeSetStems: set<string> := {"ns_prop", "ns_names", "node_ns"}
  const SideSetStems: set<string> := {"ss_prop", "ss_names", "elem_ss", "side_ss"}

  lemma HeaderVarNames(m: Mesh)
    requires PointsError(m.points).None?
    ensures DistinctKeys(HeaderVars(m)) && StemsIn(HeaderVars(m), HeaderStems)
  {
    StripNoDigit("time_whole");
    StripNoDigit("coor_names");
    StripNoDigit("coord");
    assert "eb_prop1" == "eb_prop" + NatToString(1);
    StemOfNumbered("eb_prop", 1);
  }

  lemma PointDataVarNames(m: Mesh)
    requires PointDataError(m).None?
    ensures DistinctKeys(PointDataVars(m)) && StemsIn(PointDataVars(m), PointDataStems)
  {
    StripNoDigit("name_nod_var");
    StripNoDigit("vals_nod_var");
  }

  lemma NodeSetVarNames(m: Mesh)
    requires NodeSetSectionError(m).None?
    ensures DistinctKeys(NodeSetSection(m)) && StemsIn(NodeSetSection(m), NodeSetStems)
  {
    if m.nodeSets != [] {
      assert "ns_prop1" == "ns_prop" + NatToString(1);
      StemOfNumbered("ns_prop", 1);
      StripNoDigit("ns_names");
      NumberedSection(NodeSetVars(m.nodeSets, |m.nodeSets|), "node_ns");
      JoinDistinct(NodeSetHeader(m), NodeSetVars(m.nodeSets, |m.nodeSets|), {"ns_prop", "ns_names"}, {"node_ns"});
    }
  }

  lemma SideSetSectionNames(m: Mesh)
    requires SideSetSectionError(m).None?
    ensures DistinctKeys(SideSetSection(m)) && StemsIn(SideSetSection(m), SideSetStems)
  {
    if m.sideSets != [] {
      assert "ss_prop1" == "ss_prop" + NatToString(1);
      StemOfNumbered("ss_prop", 1);
      StripNoDigit("ss_names");
      SideSetVarNamesInterleave(m.sideSets);
      InterleavedSection(SideSetVars(m.sideSets, |m.sideSets|), "elem_ss", "side_ss");
      JoinDistinct(SideSetHeader(m), SideSetVars(m.sideSets, |m.sideSets|), {"ss_prop", "ss_names"}, {"elem_ss", "side_ss"});
    }
  }

  /** netCDF refuses a second variable of the same name; `write` never creates one. */
  lemma WriteVarNamesDistinct(m: Mesh)
    requires WriteError(m).None?
    ensures DistinctKeys(AllVars(m))
  {
    HeaderVarNames(m);
    NumberedSection(BlockVars(m.cells, |m.cells|), "connect");
    PointDataVarNames(m);
    NodeSetVarNames(m);
    SideSetSectionNames(m);
    VarStemsDisjoint();
    JoinFive(HeaderVars(m), BlockVars(m.cells, |m.cells|), PointDataVars(m), NodeSetSection(m), SideSetSection(m),
             HeaderStems, {"connect"}, PointDataStems, NodeSetStems, SideSetStems);
  }

  // ---------------------------------------------------------------------------------------
  // What a reader finds in a container `write` created

  lemma LookupInSection<V>(ps: seq<(string, V)>, pre: seq<(string, V)>, sec: seq<(string, V)>,
                            post: seq<(string, V)>, i: nat)
    requires ps == pre + sec + post && DistinctKeys(ps) && i < |sec|
    ensures Lookup(ps, sec[i].0) == Some(sec[i].1)
  {
    assert ps[|pre| + i] == sec[i];
    LookupDistinct(ps, |pre| + i);
  }

  lemma Written(m: Mesh, ds: Dataset)
    requires WriteSpec(m) == Ok(ds)
    ensures WriteError(m).None? && ds.dims == AllDims(m) && ds.vars == AllVars(m)
    ensures DistinctKeys(ds.dims) && DistinctKeys(ds.vars)
  {
    WriteDimNamesDistinct(m);
    WriteVarNamesDistinct(m);
  }

  lemma FixedDimsFound(m: Mesh, ds: Dataset)
    requires ds.dims == AllDims(m)
    ensures forall i :: 0 <= i < 10 ==> Lookup(ds.dims, FixedDims(m)[i].0) == Some(FixedDims(m)[i].1)
  {
    WriteDimNamesDistinct(m);
    forall i | 0 <= i < 10
      ensures Lookup(ds.dims, FixedDims(m)[i].0) == Some(FixedDims(m)[i].1)
    {
      FixedDimAt(m, ds, i);
      LookupDistinct(ds.dims, i);
    }
  }

  /** The global dimensions hold the counts of the mesh and the Exodus constants. */
  lemma WriteDimensions(m: Mesh, ds: Dataset)
    requires WriteSpec(m) == Ok(ds)
    ensures DimLength(ds, "num_nodes") == Some(|m.points.grid.rows|)
    ensures DimLength(ds, "num_dim") == Some(3)
    ensures DimLength(ds, "num_elem") == Some(TotalRows(m.cells))
    ensures DimLength(ds, "num_el_blk") == Some(|m.cells|)
    ensures DimLength(ds, "num_node_sets") == Some(|m.nodeSets|)
    ensures DimLength(ds, "num_side_sets") == Some(|m.sideSets|)
    ensures DimLength(ds, "len_string") == Some(33) && DimLength(ds, "len_line") == Some(81)
    ensures DimLength(ds, "four") == Some(4)
    ensures Lookup(ds.dims, "time_step") == Some(Dim(1, true))
    ensures ds.attrs["version"] == RealAttr(5.1) && ds.attrs["floating_point_word_size"] == IntAttr(8)
  {
    Written(m, ds);
    FixedDimsFound(m, ds);
    var f := FixedDims(m);
    assert Lookup(ds.dims, f[0].0) == Some(f[0].1) && Lookup(ds.dims, f[1].0) == Some(f[1].1);
    assert Lookup(ds.dims, f[2].0) == Some(f[2].1) && Lookup(ds.dims, f[3].0) == Some(f[3].1);
    assert Lookup(ds.dims, f[4].0) == Some(f[4].1) && Lookup(ds.dims, f[5].0) == Some(f[5].1);
    assert Lookup(ds.dims, f[6].0) == Some(f[6].1) && Lookup(ds.dims, f[7].0) == Some(f[7].1);
    assert Lookup(ds.dims, f[8].0) == Some(f[8].1) && Lookup(ds.dims, f[9].0) == Some(f[9].1);
  }

  lemma BlockDimsFound(m: Mesh, ds: Dataset, k: nat)
    requires ds.dims == AllDims(m) && k < |m.cells|
    ensures Lookup(ds.dims, BlockDim1(k)) == Some(Dim(|m.cells[k].1.grid.rows|, false))
    ensures Lookup(ds.dims, BlockDim2(k)) == Some(Dim(m.cells[k].1.grid.cols, false))
  {
    WriteDimNamesDistinct(m);
    BlockDimsAt(m.cells, |m.cells|, k);
    BlockDimAt(m, ds, 2 * k);
    BlockDimAt(m, ds, 2 * k + 1);
    LookupDistinct(ds.dims, 10 + 2 * k);
    LookupDistinct(ds.dims, 10 + 2 * k + 1);
  }

  lemma WriteBlockDims(m: Mesh, ds: Dataset, k: nat)
    requires WriteSpec(m) == Ok(ds) && k < |m.cells|
    ensures DimLength(ds, "num_el_in_blk" + NatToString(k + 1)) == Some(|m.cells[k].1.grid.rows|)
    ensures DimLength(ds, "num_nod_per_el" + NatToString(k + 1)) == Some(m.cells[k].1.grid.cols)
  {
    Written(m, ds);
    BlockDimsFound(m, ds, k);
  }

  lemma BlockFound(m: Mesh, ds: Dataset, k: nat)
    requires WriteError(m).None? && ds.vars == AllVars(m) && k < |m.cells|
    ensures BlockError(m.cells[k].0, m.cells[k].1).None?
    ensures Lookup(ds.vars, BlockVar(k, m.cells[k].0, m.cells[k].1).0) == Some(BlockVar(k, m.cells[k].0, m.cells[k].1).1)
  {
    WriteVarNamesDistinct(m);
    BlockAt(m, ds, k);
    LookupDistinct(ds.vars, 4 + k);
  }

  /**
   * Block `k` becomes `connect<k+1>`: its shape in two dimensions, its Exodus type, and its
   * entries plus one in the block's own dtype, so an entry at the top of an integer type wraps
   * around to the bottom.
   */
  lemma WriteBlock(m: Mesh, ds: Dataset, k: nat)
    requires WriteSpec(m) == Ok(ds) && k < |m.cells|
    ensures ToExodusType(m.cells[k].0).Ok? && ExodusDtype(m.cells[k].1.dtype).Ok?
    ensures Lookup(ds.vars, "connect" + NatToString(k + 1))
         == Some(Variable(ExodusDtype(m.cells[k].1.dtype).value,
                          ["num_el_in_blk" + NatToString(k + 1), "num_nod_per_el" + NatToString(k + 1)],
                          map["elem_type" := TextAttr(ToExodusType(m.cells[k].0).value)],
                          IntTable(ShiftAll(ExodusDtype(m.cells[k].1.dtype).value, m.cells[k].1.grid, 1))))
    ensures DimLength(ds, "num_el_in_blk" + NatToString(k + 1)) == Some(|m.cells[k].1.grid.rows|)
    ensures DimLength(ds, "num_nod_per_el" + NatToString(k + 1)) == Some(m.cells[k].1.grid.cols)
    ensures ToMeshioType(ToExodusType(m.cells[k].0).value) == Ok(m.cells[k].0)
  {
    Written(m, ds);
    BlockFound(m, ds, k);
    ReadBackWrittenType(m.cells[k].0);
    WriteBlockDims(m, ds, k);
  }

  /** The rows of `coor_names` read back as the coordinate names X, Y and Z. */
  lemma CoordNamesDecode()
    ensures DecodeRow(CoordNames[0]) == "X" && DecodeRow(CoordNames[1]) == "Y" && DecodeRow(CoordNames[2]) == "Z"
  {
    DecodePad("X", LenString);
    DecodePad("Y", LenString);
    DecodePad("Z", LenString);
  }

  // Where each section of `write` sits in the variable and dimension lists.

  /** An index into one part of a list made of five parts. */
  lemma PartAt<V>(ps: seq<V>, a: seq<V>, b: seq<V>, c: seq<V>, d: seq<V>, e: seq<V>, part: nat, i: nat)
    requires ps == a + b + c + d + e && part < 5
    requires i < |[a, b, c, d, e][part]|
    ensures Offset([a, b, c, d, e], part) + i < |ps| && ps[Offset([a, b, c, d, e], part) + i] == [a, b, c, d, e][part][i]
  {
    var parts := [a, b, c, d, e];
    if part == 0 {
      assert ps[i] == a[i];
    } else if part == 1 {
      assert (a + b)[|a| + i] == b[i];
    } else if part == 2 {
      assert (a + b + c)[|a + b| + i] == c[i];
    } else if part == 3 {
      assert (a + b + c + d)[|a + b + c| + i] == d[i];
    }
  }

  /** Where part `part` starts. */
  function Offset<V>(parts: seq<seq<V>>, part: nat): nat
    requires part <= |parts|
  {
    if part == 0 then 0 else Offset(parts, part - 1) + |parts[part - 1]|
  }

  lemma HeaderAt(m: Mesh, ds: Dataset, i: nat)
    requires WriteError(m).None? && ds.vars == AllVars(m) && i < 4
    ensures ds.vars[i] == HeaderVars(m)[i]
  {
    PartAt(ds.vars, HeaderVars(m), BlockVars(m.cells, |m.cells|), PointDataVars(m), NodeSetSection(m), SideSetSection(m), 0, i);
  }

  lemma BlockAt(m: Mesh, ds: Dataset, k: nat)
    requires WriteError(m).None? && ds.vars == AllVars(m) && k < |m.cells|
    ensures 4 + k < |ds.vars| && ds.vars[4 + k] == BlockVar(k, m.cells[k].0, m.cells[k].1)
  {
    PartAt(ds.vars, HeaderVars(m), BlockVars(m.cells, |m.cells|), PointDataVars(m), NodeSetSection(m), SideSetSection(m), 1, k);
  }

  lemma PointDataAt(m: Mesh, ds: Dataset, i: nat)
    requires WriteError(m).None? && ds.vars == AllVars(m) && m.pointData != [] && i < 2
    ensures 4 + |m.cells| + i < |ds.vars| && ds.vars[4 + |m.cells| + i] == PointDataVars(m)[i]
  {
    PartAt(ds.vars, HeaderVars(m), BlockVars(m.cells, |m.cells|), PointDataVars(m), NodeSetSection(m), SideSetSection(m), 2, i);
  }

  lemma NodeSetAt(m: Mesh, ds: Dataset, i: nat)
    requires WriteError(m).None? && ds.vars == AllVars(m) && i < |NodeSetSection(m)|
    ensures 4 + |m.cells| + |PointDataVars(m)| + i < |ds.vars|
    ensures ds.vars[4 + |m.cells| + |PointDataVars(m)| + i] == NodeSetSection(m)[i]
  {
    PartAt(ds.vars, HeaderVars(m), BlockVars(m.cells, |m.cells|), PointDataVars(m), NodeSetSection(m), SideSetSection(m), 3, i);
  }

  lemma SideSetAt(m: Mesh, ds: Dataset, i: nat)
    requires WriteError(m).None? && ds.vars == AllVars(m) && i < |SideSetSection(m)|
    ensures 4 + |m.cells| + |PointDataVars(m)| + |NodeSetSection(m)| + i < |ds.vars|
    ensures ds.vars[4 + |m.cells| + |PointDataVars(m)| + |NodeSetSection(m)| + i] == SideSetSection(m)[i]
  {
    PartAt(ds.vars, HeaderVars(m), BlockVars(m.cells, |m.cells|), PointDataVars(m), NodeSetSection(m), SideSetSection(m), 4, i);
  }

  lemma FixedDimAt(m: Mesh, ds: Dataset, i: nat)
    requires ds.dims == AllDims(m) && i < 10
    ensures ds.dims[i] == FixedDims(m)[i]
  {
    PartAt(ds.dims, FixedDims(m), BlockDims(m.cells, |m.cells|), PointDataDims(m),
           NodeSetDims(m.nodeSets, |m.nodeSets|), SideSetDims(m.sideSets, |m.sideSets|), 0, i);
  }

  lemma BlockDimAt(m: Mesh, ds: Dataset, i: nat)
    requires ds.dims == AllDims(m) && i < 2 * |m.cells|
    ensures 10 + i < |ds.dims| && ds.dims[10 + i] == BlockDims(m.cells, |m.cells|)[i]
  {
    PartAt(ds.dims, FixedDims(m), BlockDims(m.cells, |m.cells|), PointDataDims(m),
           NodeSetDims(m.nodeSets, |m.nodeSets|), SideSetDims(m.sideSets, |m.sideSets|), 1, i);
  }

  lemma PointDataDimAt(m: Mesh, ds: Dataset)
    requires ds.dims == AllDims(m) && m.pointData != []
    ensures 10 + 2 * |m.cells| < |ds.dims| && ds.dims[10 + 2 * |m.cells|] == ("num_nod_var", Dim(|m.pointData|, false))
  {
    PartAt(ds.dims, FixedDims(m), BlockDims(m.cells, |m.cells|), PointDataDims(m),
           NodeSetDims(m.nodeSets, |m.nodeSets|), SideSetDims(m.sideSets, |m.sideSets|), 2, 0);
  }

  lemma NodeSetDimAt(m: Mesh, ds: Dataset, k: nat)
    requires ds.dims == AllDims(m) && k < |m.nodeSets|
    ensures 10 + 2 * |m.cells| + |PointDataDims(m)| + k < |ds.dims|
    ensures ds.dims[10 + 2 * |m.cells| + |PointDataDims(m)| + k] == (NodeSetDim(k), Dim(|m.nodeSets[k].1.ints|, false))
  {
    PartAt(ds.dims, FixedDims(m), BlockDims(m.cells, |m.cells|), PointDataDims(m),
           NodeSetDims(m.nodeSets, |m.nodeSets|), SideSetDims(m.sideSets, |m.sideSets|), 3, k);
  }

  lemma SideSetDimAt(m: Mesh, ds: Dataset, k: nat)
    requires ds.dims == AllDims(m) && k < |m.sideSets|
    ensures 10 + 2 * |m.cells| + |PointDataDims(m)| + |m.nodeSets| + k < |ds.dims|
    ensures ds.dims[10 + 2 * |m.cells| + |PointDataDims(m)| + |m.nodeSets| + k]
         == (SideSetDim(k), Dim(|m.sideSets[k].1.grid.rows|, false))
  {
    PartAt(ds.dims, FixedDims(m), BlockDims(m.cells, |m.cells|), PointDataDims(m),
           NodeSetDims(m.nodeSets, |m.nodeSets|), SideSetDims(m.sideSets, |m.sideSets|), 4, k);
  }

  lemma HeaderFound(m: Mesh, ds: Dataset, i: nat)
    requires WriteError(m).None? && ds.vars == AllVars(m) && i < 4
    ensures Lookup(ds.vars, HeaderVars(m)[i].0) == Some(HeaderVars(m)[i].1)
  {
    WriteVarNamesDistinct(m);
    HeaderAt(m, ds, i);
    LookupDistinct(ds.vars, i);
  }

  /** The points are stored transposed, one row per coordinate, under the names X, Y and Z. */
  lemma WriteCoordinates(m: Mesh, ds: Dataset)
    requires WriteSpec(m) == Ok(ds)
    ensures ExodusDtype(m.points.dtype).Ok? && m.points.grid.cols == 3
    ensures Lookup(ds.vars, "coord")
         == Some(Variable(ExodusDtype(m.points.dtype).value, ["num_dim", "num_nodes"], map[],
                          RealTable(Transpose(m.points.grid))))
    ensures Lookup(ds.vars, "coor_names")
         == Some(Variable("S1", ["num_dim", "len_string"], map[], CharTable(CoordNames)))
    ensures Lookup(ds.vars, "eb_prop1")
         == Some(Variable("i4", ["num_el_blk"], map[], IntVector(Range(|m.cells|))))
  {
    Written(m, ds);
    HeaderFound(m, ds, 1);
    HeaderFound(m, ds, 2);
    HeaderFound(m, ds, 3);
  }

  /** Every row of a name table reads back as its name. */
  lemma NameTableDecodes(names: seq<string>, k: nat)
    requires forall j :: 0 <= j < |names| ==> |names[j]| <= LenString
    requires k < |names| && forall i :: 0 <= i < |names[k]| ==> names[k][i] != NulChar
    ensures DecodeRow(NameTable(names)[k]) == names[k]
  {
    DecodePad(names[k], LenString);
  }

  lemma PointDataFound(m: Mesh, ds: Dataset, i: nat)
    requires WriteError(m).None? && ds.vars == AllVars(m) && m.pointData != [] && i < 2
    ensures Lookup(ds.vars, PointDataVars(m)[i].0) == Some(PointDataVars(m)[i].1)
  {
    WriteVarNamesDistinct(m);
    PointDataAt(m, ds, i);
    LookupDistinct(ds.vars, 4 + |m.cells| + i);
  }

  lemma PointDataDimFound(m: Mesh, ds: Dataset)
    requires ds.dims == AllDims(m) && m.pointData != []
    ensures Lookup(ds.dims, "num_nod_var") == Some(Dim(|m.pointData|, false))
  {
    WriteDimNamesDistinct(m);
    PointDataDimAt(m, ds);
    LookupDistinct(ds.dims, 10 + 2 * |m.cells|);
  }

  /** The point data: a name table in key order and one time step of nodal values in the same order. */
  lemma WritePointData(m: Mesh, ds: Dataset)
    requires WriteSpec(m) == Ok(ds) && m.pointData != []
    ensures forall j :: 0 <= j < |m.pointData| ==> |m.pointData[j].0| <= LenString
    ensures forall j :: 0 <= j < |m.pointData| ==> |m.pointData[j].1.reals| == |m.points.grid.rows|
    ensures DimLength(ds, "num_nod_var") == Some(|m.pointData|)
    ensures Lookup(ds.vars, "name_nod_var")
         == Some(Variable("S1", ["num_nod_var", "len_string"], map[], CharTable(NameTable(Keys(m.pointData)))))
    ensures ExodusDtype(m.pointData[0].1.dtype).Ok?
    ensures Lookup(ds.vars, "vals_nod_var")
         == Some(Variable(ExodusDtype(m.pointData[0].1.dtype).value, ["time_step", "num_nod_var", "num_nodes"],
                          map[], RealCube([FieldValues(m.pointData)])))
  {
    assert NamesError(Keys(m.pointData), 0).None?;
    assert forall j :: 0 <= j < |m.pointData| ==> Keys(m.pointData)[j] == m.pointData[j].0;
    Written(m, ds);
    PointDataFound(m, ds, 0);
    PointDataFound(m, ds, 1);
    PointDataDimFound(m, ds);
  }

  lemma NodeSetIn(m: Mesh, k: nat)
    requires NodeSetSectionError(m).None? && k < |m.nodeSets|
    ensures ExodusDtype(m.nodeSets[k].1.dtype).Ok? && 2 + k < |NodeSetSection(m)|
    ensures NodeSetSection(m)[0] == NodeSetHeader(m)[0] && NodeSetSection(m)[2 + k] == NodeSetVar(k, m.nodeSets[k].1)
  {
    var ns := NodeSetSection(m);
    assert ns == NodeSetHeader(m) + NodeSetVars(m.nodeSets, |m.nodeSets|);
  }

  lemma NodeSetVarsFound(m: Mesh, ds: Dataset, k: nat)
    requires WriteError(m).None? && ds.vars == AllVars(m) && k < |m.nodeSets|
    ensures ExodusDtype(m.nodeSets[k].1.dtype).Ok?
    ensures Lookup(ds.vars, NodeSetVar(k, m.nodeSets[k].1).0) == Some(NodeSetVar(k, m.nodeSets[k].1).1)
    ensures Lookup(ds.vars, NodeSetHeader(m)[0].0) == Some(NodeSetHeader(m)[0].1)
  {
    NodeSetIn(m, k);
    WriteVarNamesDistinct(m);
    var o := 4 + |m.cells| + |PointDataVars(m)|;
    NodeSetAt(m, ds, 0);
    NodeSetAt(m, ds, 2 + k);
    LookupDistinct(ds.vars, o);
    LookupDistinct(ds.vars, o + 2 + k);
  }

  lemma NodeSetDimFound(m: Mesh, ds: Dataset, k: nat)
    requires ds.dims == AllDims(m) && k < |m.nodeSets|
    ensures Lookup(ds.dims, NodeSetDim(k)) == Some(Dim(|m.nodeSets[k].1.ints|, false))
  {
    WriteDimNamesDistinct(m);
    NodeSetDimAt(m, ds, k);
    LookupDistinct(ds.dims, 10 + 2 * |m.cells| + |PointDataDims(m)| + k);
  }

  /** Node set `k` becomes `node_ns<k+1>`, its node indices plus one in the set's own dtype. */
  lemma WriteNodeSet(m: Mesh, ds: Dataset, k: nat)
    requires WriteSpec(m) == Ok(ds) && k < |m.nodeSets|
    ensures ExodusDtype(m.nodeSets[k].1.dtype).Ok?
    ensures Lookup(ds.vars, "node_ns" + NatToString(k + 1))
         == Some(Variable(ExodusDtype(m.nodeSets[k].1.dtype).value, ["num_nod_ns" + NatToString(k + 1)], map[],
                          IntVector(ShiftEach(ExodusDtype(m.nodeSets[k].1.dtype).value, m.nodeSets[k].1.ints, 1))))
    ensures DimLength(ds, "num_nod_ns" + NatToString(k + 1)) == Some(|m.nodeSets[k].1.ints|)
    ensures Lookup(ds.vars, "ns_prop1") == Some(Variable("i4", ["num_node_sets"], map[], IntVector(Range(|m.nodeSets|))))
  {
    Written(m, ds);
    NodeSetVarsFound(m, ds, k);
    NodeSetDimFound(m, ds, k);
  }

  lemma SideSetPairIn(m: Mesh, k: nat)
    requires SideSetSectionError(m).None? && k < |m.sideSets|
    ensures SideSetError(k, m.sideSets[k].1).None? && 2 + 2 * k + 1 < |SideSetSection(m)|
    ensures SideSetSection(m)[2 + 2 * k] == SideSetVarPair(k, m.sideSets[k].1)[0]
    ensures SideSetSection(m)[2 + 2 * k + 1] == SideSetVarPair(k, m.sideSets[k].1)[1]
  {
    var ss := SideSetSection(m);
    var sv := SideSetVars(m.sideSets, |m.sideSets|);
    assert ss == SideSetHeader(m) + sv;
    SideSetVarsAt(m.sideSets, |m.sideSets|, k);
    assert ss[2 + 2 * k] == sv[2 * k] && ss[2 + 2 * k + 1] == sv[2 * k + 1];
  }

  lemma SideSetVarsFound(m: Mesh, ds: Dataset, k: nat)
    requires WriteError(m).None? && ds.vars == AllVars(m) && k < |m.sideSets|
    ensures SideSetError(k, m.sideSets[k].1).None?
    ensures var pair := SideSetVarPair(k, m.sideSets[k].1);
            Lookup(ds.vars, pair[0].0) == Some(pair[0].1) && Lookup(ds.vars, pair[1].0) == Some(pair[1].1)
  {
    SideSetPairIn(m, k);
    WriteVarNamesDistinct(m);
    var o := 4 + |m.cells| + |PointDataVars(m)| + |NodeSetSection(m)|;
    SideSetAt(m, ds, 2 + 2 * k);
    SideSetAt(m, ds, 2 + 2 * k + 1);
    LookupDistinct(ds.vars, o + 2 + 2 * k);
    LookupDistinct(ds.vars, o + 2 + 2 * k + 1);
  }

  lemma SideSetDimFound(m: Mesh, ds: Dataset, k: nat)
    requires ds.dims == AllDims(m) && k < |m.sideSets|
    ensures Lookup(ds.dims, SideSetDim(k)) == Some(Dim(|m.sideSets[k].1.grid.rows|, false))
  {
    WriteDimNamesDistinct(m);
    SideSetDimAt(m, ds, k);
    LookupDistinct(ds.dims, 10 + 2 * |m.cells| + |PointDataDims(m)| + |m.nodeSets| + k);
  }

  /**
   * Side set `k` becomes `elem_ss<k+1>` (element numbers plus one in the set's own dtype) and
   * `side_ss<k+1>` (sides as given).
   */
  lemma WriteSideSet(m: Mesh, ds: Dataset, k: nat)
    requires WriteSpec(m) == Ok(ds) && k < |m.sideSets|
    ensures ExodusDtype(m.sideSets[k].1.dtype).Ok? && m.sideSets[k].1.grid.cols >= 2
    ensures Lookup(ds.vars, "elem_ss" + NatToString(k + 1))
         == Some(Variable(ExodusDtype(m.sideSets[k].1.dtype).value, ["num_side_ss" + NatToString(k + 1)], map[],
                          IntVector(ShiftEach(ExodusDtype(m.sideSets[k].1.dtype).value, Column(m.sideSets[k].1.grid, 0), 1))))
    ensures Lookup(ds.vars, "side_ss" + NatToString(k + 1))
         == Some(Variable(ExodusDtype(m.sideSets[k].1.dtype).value, ["num_side_ss" + NatToString(k + 1)], map[],
                          IntVector(Column(m.sideSets[k].1.grid, 1))))
    ensures DimLength(ds, "num_side_ss" + NatToString(k + 1)) == Some(|m.sideSets[k].1.grid.rows|)
  {
    Written(m, ds);
    SideSetVarsFound(m, ds, k);
    SideSetDimFound(m, ds, k);
  }

  // ---------------------------------------------------------------------------------------
  // What `write` refuses

  /** A cell type the registry cannot name makes `write` fail. */
  lemma WriteRejectsUnknownType(m: Mesh, k: nat)
    requires k < |m.cells| && ToExodusType(m.cells[k].0).Err?
    ensures WriteSpec(m).Err?
  {
    assert BlockError(m.cells[k].0, m.cells[k].1).Some?;
  }

  /** The first block with an unknown type is reported by its key when everything before it is fine. */
  lemma WriteReportsUnknownType(m: Mesh, k: nat)
    requires PointsError(m.points).None? && k < |m.cells|
    requires forall j :: 0 <= j < k ==> BlockError(m.cells[j].0, m.cells[j].1).None?
    requires ExodusDtype(m.cells[k].1.dtype).Ok? && ToExodusType(m.cells[k].0).Err?
    ensures WriteSpec(m) == Err(UnknownElementType(m.cells[k].0))
  {
    var j := 0;
    while j < k
      invariant j <= k && BlocksError(m.cells, 0) == BlocksError(m.cells, j)
    {
      j := j + 1;
    }
  }

  lemma BlockDtypeRejected(m: Mesh, k: nat)
    requires k < |m.cells| && ExodusDtype(m.cells[k].1.dtype).Err?
    ensures WriteError(m).Some?
  {
    assert BlockError(m.cells[k].0, m.cells[k].1).Some?;
  }

  lemma NodeSetDtypeRejected(m: Mesh, k: nat)
    requires k < |m.nodeSets| && ExodusDtype(m.nodeSets[k].1.dtype).Err?
    ensures WriteError(m).Some?
  {
    assert NodeSetsError(m.nodeSets, 0).Some?;
  }

  lemma SideSetDtypeRejected(m: Mesh, k: nat)
    requires k < |m.sideSets| && ExodusDtype(m.sideSets[k].1.dtype).Err?
    ensures WriteError(m).Some?
  {
    assert SideSetError(k, m.sideSets[k].1).Some?;
    assert SideSetsError(m.sideSets, 0).Some?;
  }

  /** A dtype outside the table anywhere in the points, blocks or sets makes `write` fail. */
  lemma WriteRejectsUnsupportedDtype(m: Mesh)
    requires ExodusDtype(m.points.dtype).Err?
          || (exists k :: 0 <= k < |m.cells| && ExodusDtype(m.cells[k].1.dtype).Err?)
          || (exists k :: 0 <= k < |m.nodeSets| && ExodusDtype(m.nodeSets[k].1.dtype).Err?)
          || (exists k :: 0 <= k < |m.sideSets| && ExodusDtype(m.sideSets[k].1.dtype).Err?)
    ensures WriteSpec(m).Err?
  {
    if ExodusDtype(m.points.dtype).Err? {
    } else if exists k :: 0 <= k < |m.cells| && ExodusDtype(m.cells[k].1.dtype).Err? {
      var k :| 0 <= k < |m.cells| && ExodusDtype(m.cells[k].1.dtype).Err?;
      BlockDtypeRejected(m, k);
    } else if exists k :: 0 <= k < |m.nodeSets| && ExodusDtype(m.nodeSets[k].1.dtype).Err? {
      var k :| 0 <= k < |m.nodeSets| && ExodusDtype(m.nodeSets[k].1.dtype).Err?;
      NodeSetDtypeRejected(m, k);
    } else {
      var k :| 0 <= k < |m.sideSets| && ExodusDtype(m.sideSets[k].1.dtype).Err?;
      SideSetDtypeRejected(m, k);
    }
  }

  /** A name longer than a name row makes `write` fail, whether it names a field, a node set or a side set. */
  lemma WriteRejectsLongName(m: Mesh, names: seq<string>, k: nat)
    requires names == Keys(m.pointData) || names == Keys(m.nodeSets) || names == Keys(m.sideSets)
    requires k < |names| && |names[k]| > LenString
    ensures WriteSpec(m).Err?
  {
    assert !(NamesError(names, 0).None?);
  }
}
