/**
 * The element-type registry of the Exodus II codec: Exodus element names to the canonical
 * (meshio) cell types, and the reverse map obtained by inverting it.
 */
module ElementTypes {
  import opened Outcomes
  import opened Dicts
  import opened Text

  /** `exodus_to_meshio_type`, in the order of its literal. */
  const ExodusToMeshioEntries: seq<(string, string)> := [
    // curves
    ("BEAM", "line"), ("BEAM2", "line"), ("BEAM3", "line3"), ("BAR2", "line"),
    // surfaces
    ("SHELL", "quad"), ("SHELL4", "quad"), ("SHELL8", "quad8"), ("SHELL9", "quad9"),
    ("QUAD", "quad"), ("QUAD4", "quad"), ("QUAD5", "quad5"), ("QUAD8", "quad8"), ("QUAD9", "quad9"),
    ("TRIANGLE", "triangle"), ("TRI3", "triangle"), ("TRI7", "triangle7"), ("TRI6", "triangle6"),
    // volumes
    ("HEX", "hexahedron"), ("HEXAHEDRON", "hexahedron"), ("HEX8", "hexahedron"),
    ("HEX9", "hexahedron9"), ("HEX20", "hexahedron20"), ("HEX27", "hexahedron27"),
    ("TETRA", "tetra"), ("TETRA4", "tetra4"), ("TETRA8", "tetra8"), ("TETRA10", "tetra10"),
    ("TETRA14", "tetra14"),
    ("PYRAMID", "pyramid"), ("WEDGE", "wedge")
  ]

  const ExodusToMeshio: map<string, string> := ToMap(ExodusToMeshioEntries)

  /** `meshio_to_exodus_type`: for a canonical type, the last Exodus name registered for it. */
  const MeshioToExodus: map<string, string> := Invert(ExodusToMeshioEntries)

  /** `exodus_to_meshio_type[tag.upper()]`: the read direction, case-insensitive. */
  function ToMeshioType(tag: string): Result<string>
  {
    var key := Upper(tag);
    if key in ExodusToMeshio then Ok(ExodusToMeshio[key]) else Err(UnknownElementType(key))
  }

  /** `meshio_to_exodus_type[t]`: the write direction, exact. */
  function ToExodusType(t: string): Result<string>
  {
    if t in MeshioToExodus then Ok(MeshioToExodus[t]) else Err(UnknownElementType(t))
  }

  /** No Exodus name comes after the `i`-th one in the literal (one lemma per stretch of it). */
  lemma NoLaterDuplicate0(i: nat)
    requires 0 <= i < 4
    ensures forall j :: i < j < |ExodusToMeshioEntries| ==>
              ExodusToMeshioEntries[j].0 != ExodusToMeshioEntries[i].0
  {
    if i == 0 {}
    else if i == 1 {}
    else if i == 2 {}
  }

  lemma NoLaterDuplicate4(i: nat)
    requires 4 <= i < 8
    ensures forall j :: i < j < |ExodusToMeshioEntries| ==>
              ExodusToMeshioEntries[j].0 != ExodusToMeshioEntries[i].0
  {
    if i == 4 {}
    else if i == 5 {}
    else if i == 6 {}
  }

  lemma NoLaterDuplicate8(i: nat)
    requires 8 <= i < 12
    ensures forall j :: i < j < |ExodusToMeshioEntries| ==>
              ExodusToMeshioEntries[j].0 != ExodusToMeshioEntries[i].0
  {
    if i == 8 {}
    else if i == 9 {}
    else if i == 10 {}
  }

  lemma NoLaterDuplicate12(i: nat)
    requires 12 <= i < 16
    ensures forall j :: i < j < |ExodusToMeshioEntries| ==>
              ExodusToMeshioEntries[j].0 != ExodusToMeshioEntries[i].0
  {
    if i == 12 {}
    else if i == 13 {}
    else if i == 14 {}
  }

  lemma NoLaterDuplicate16(i: nat)
    requires 16 <= i < 20
    ensures forall j :: i < j < |ExodusToMeshioEntries| ==>
              ExodusToMeshioEntries[j].0 != ExodusToMeshioEntries[i].0
  {
    if i == 16 {}
    else if i == 17 {}
    else if i == 18 {}
  }

  lemma NoLaterDuplicate20(i: nat)
    requires 20 <= i < 24
    ensures forall j :: i < j < |ExodusToMeshioEntries| ==>
              ExodusToMeshioEntries[j].0 != ExodusToMeshioEntries[i].0
  {
    if i == 20 {}
    else if i == 21 {}
    else if i == 22 {}
  }

  lemma NoLaterDuplicate24(i: nat)
    requires 24 <= i < 28
    ensures forall j :: i < j < |ExodusToMeshioEntries| ==>
              ExodusToMeshioEntries[j].0 != ExodusToMeshioEntries[i].0
  {
    if i == 24 {}
    else if i == 25 {}
    else if i == 26 {}
  }

  lemma NoLaterDuplicate28(i: nat)
    requires 28 <= i < 30
    ensures forall j :: i < j < |ExodusToMeshioEntries| ==>
              ExodusToMeshioEntries[j].0 != ExodusToMeshioEntries[i].0
  {
    if i == 28 {}
  }

  lemma EntriesHaveDistinctKeys()
    ensures DistinctKeys(ExodusToMeshioEntries)
  {
    var e := ExodusToMeshioEntries;
    forall i, j | 0 <= i < j < |e|
      ensures e[i].0 != e[j].0
    {
      if i < 4 { NoLaterDuplicate0(i); }
      else if i < 8 { NoLaterDuplicate4(i); }
      else if i < 12 { NoLaterDuplicate8(i); }
      else if i < 16 { NoLaterDuplicate12(i); }
      else if i < 20 { NoLaterDuplicate16(i); }
      else if i < 24 { NoLaterDuplicate20(i); }
      else if i < 28 { NoLaterDuplicate24(i); }
      else { NoLaterDuplicate28(i); }
    }
  }

  lemma EntriesAreUpperCase(i: nat)
    requires i < |ExodusToMeshioEntries|
    ensures HasNoLowerCase(ExodusToMeshioEntries[i].0)
  {
  }

  /** Every Exodus name the writer can emit is read back as the canonical type it came from. */
  lemma ReadBackWrittenType(t: string)
    requires ToExodusType(t).Ok?
    ensures ToMeshioType(ToExodusType(t).value) == Ok(t)
  {
    EntriesHaveDistinctKeys();
    InvertIsRightInverse(ExodusToMeshioEntries, t);
    var name := MeshioToExodus[t];
    ToMapValue(ExodusToMeshioEntries, name);
    var i :| 0 <= i < |ExodusToMeshioEntries| && ExodusToMeshioEntries[i].0 == name;
    EntriesAreUpperCase(i);
    UpperKeepsNoLowerCase(name);
  }

  /** The writer knows exactly the canonical types the reader can produce. */
  lemma WritableTypes(t: string)
    ensures ToExodusType(t).Ok? <==> exists tag :: ToMeshioType(tag) == Ok(t)
  {
    InvertDomain(ExodusToMeshioEntries, t);
    if ToExodusType(t).Ok? {
      ReadBackWrittenType(t);
    }
    if exists tag :: ToMeshioType(tag) == Ok(t) {
      var tag :| ToMeshioType(tag) == Ok(t);
      ToMapValue(ExodusToMeshioEntries, Upper(tag));
    }
  }

  /**
   * A round trip through the registry from the Exodus side keeps the canonical type but may change
   * the name: the writer uses the last alias registered for that type.
   */
  lemma AliasRoundTrip(tag: string)
    requires ToMeshioType(tag).Ok?
    ensures ToExodusType(ToMeshioType(tag).value).Ok?
    ensures ToMeshioType(ToExodusType(ToMeshioType(tag).value).value) == ToMeshioType(tag)
  {
    WritableTypes(ToMeshioType(tag).value);
    ReadBackWrittenType(ToMeshioType(tag).value);
  }

  /** The writer's name for the canonical type of entry `i` is the Exodus name of entry `i`. */
  lemma WrittenAs(i: nat)
    requires i < |ExodusToMeshioEntries|
    requires forall j :: i < j < |ExodusToMeshioEntries| ==> ExodusToMeshioEntries[j].1 != ExodusToMeshioEntries[i].1
    ensures ToExodusType(ExodusToMeshioEntries[i].1) == Ok(ExodusToMeshioEntries[i].0)
  {
    var s := Swap(ExodusToMeshioEntries);
    assert forall j :: i < j < |s| ==> s[j].0 != s[i].0;
    ToMapLastWins(s, i);
  }

  /** The preferred aliases: the last key of the literal wins, so "HEX" is written back as "HEX8". */
  lemma PreferredAliases()
    ensures ToExodusType("hexahedron") == Ok("HEX8")
    ensures ToExodusType("line") == Ok("BAR2")
    ensures ToExodusType("quad") == Ok("QUAD4")
    ensures ToExodusType("triangle") == Ok("TRI3")
  {
    WrittenAs(19);
    WrittenAs(3);
    WrittenAs(9);
    WrittenAs(14);
  }

  /** Reading is case-insensitive: "hex" and "HEX" both name a hexahedron. */
  lemma CaseInsensitiveRead()
    ensures ToMeshioType("hex") == Ok("hexahedron")
    ensures ToMeshioType("HEX") == Ok("hexahedron")
  {
    EntriesHaveDistinctKeys();
    ToMapDistinct(ExodusToMeshioEntries, 17);
    assert Upper("hex") == "HEX";
    assert Upper("HEX") == "HEX";
  }
}
