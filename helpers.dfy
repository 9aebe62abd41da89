/**
 * The format dispatcher: deducing a file format from a filename's extension, choosing the
 * reader for a format, checking cell arities and choosing the writer with its binary flag.
 */
module Helpers {
  import opened Outcomes
  import opened Meshes
  import opened Grids

  /** The codec modules a format can be dispatched to. */
  datatype Codec = Abaqus | Ansys | Dolfin | Exodus | H5m | Med | Medit | Gmsh | Off | Permas | Stl | Vtk | Vtu | Xdmf

  const InputFiletypes: seq<string> := [
    "abaqus", "ansys", "exodus", "gmsh-ascii", "gmsh-binary", "dolfin-xml", "med", "medit", "permas",
    "moab", "off", "stl-ascii", "stl-binary", "vtk-ascii", "vtk-binary", "vtu-ascii", "vtu-binary", "xdmf"
  ]

  const OutputFiletypes: seq<string> := [
    "abaqus", "ansys-ascii", "ansys-binary", "exodus", "gmsh-ascii", "gmsh-binary", "dolfin-xml", "med",
    "medit", "permas", "moab", "off", "stl-ascii", "stl-binary", "vtk-ascii", "vtk-binary", "vtu-ascii",
    "vtu-binary", "xdmf"
  ]

  const ExtensionToFiletype: map<string, string> := map[
    ".e" := "exodus", ".ex2" := "exodus", ".exo" := "exodus",
    ".med" := "med", ".mesh" := "medit", ".msh" := "gmsh-binary", ".xml" := "dolfin-xml",
    ".post" := "permas", ".post.gz" := "permas", ".dato" := "permas", ".dato.gz" := "permas",
    ".h5m" := "moab", ".off" := "off", ".stl" := "stl-binary", ".vtu" := "vtu-binary",
    ".vtk" := "vtk-binary", ".xdmf" := "xdmf", ".xmf" := "xdmf", ".inp" := "abaqus"
  ]

  // ---------------------------------------------------------------------------------------
  // Extensions

  /** `s.split(".")`: the pieces between the dots, so one more piece than there are dots. */
  function Split(s: string): (parts: seq<string>)
    ensures |parts| >= 1
  {
    if s == [] then [""]
    else if s[0] == '.' then [""] + Split(s[1..])
    else
      var rest := Split(s[1..]);
      [[s[0]] + rest[0]] + rest[1..]
  }

  /** `[".{}".format(ext) for ext in filename.split(".")[1:]]`. */
  function Suffixes(filename: string): seq<string>
  {
    var parts := Split(filename);
    seq(|parts| - 1, i requires 0 <= i < |parts| - 1 => "." + parts[i + 1])
  }

  function Concat(pieces: seq<string>): string
  {
    if pieces == [] then "" else pieces[0] + Concat(pieces[1..])
  }

  /** The reference definition: the suffixes of `s` that begin with a dot, longest first. */
  function DotSuffixes(s: string): seq<string>
  {
    if s == [] then [] else (if s[0] == '.' then [s] else []) + DotSuffixes(s[1..])
  }

  lemma SuffixesAtDot(s: string)
    requires s != [] && s[0] == '.'
    ensures Suffixes(s) == ["." + Split(s[1..])[0]] + Suffixes(s[1..])
  {
    assert Split(s) == [""] + Split(s[1..]);
  }

  lemma SuffixesAtOther(s: string)
    requires s != [] && s[0] != '.'
    ensures Suffixes(s) == Suffixes(s[1..])
  {
    var rest := Split(s[1..]);
    assert Split(s) == [[s[0]] + rest[0]] + rest[1..];
  }

  lemma JoinAtDot(s: string)
    requires s != [] && s[0] == '.'
    requires Split(s[1..])[0] + Concat(Suffixes(s[1..])) == s[1..]
    ensures Split(s)[0] + Concat(Suffixes(s)) == s
  {
    var t := s[1..];
    SuffixesAtDot(s);
    var sfx := Suffixes(s);
    var head, rest := Split(t)[0], Concat(Suffixes(t));
    assert Split(s) == [""] + Split(t);
    assert sfx[0] == "." + head && sfx[1..] == Suffixes(t);
    assert Concat(sfx) == ("." + head) + rest;
    JoinCons('.', head, rest, t);
    assert s == ['.'] + t;
  }

  lemma JoinAtOther(s: string)
    requires s != [] && s[0] != '.'
    requires Split(s[1..])[0] + Concat(Suffixes(s[1..])) == s[1..]
    ensures Split(s)[0] + Concat(Suffixes(s)) == s
  {
    var t := s[1..];
    SuffixesAtOther(s);
    var head, rest := Split(t)[0], Concat(Suffixes(t));
    var rest' := Split(t);
    assert Split(s) == [[s[0]] + rest'[0]] + rest'[1..];
    assert Split(s)[0] == [s[0]] + head;
    assert Concat(Suffixes(s)) == rest;
    JoinCons(s[0], head, rest, t);
    assert s == [s[0]] + t;
  }

  lemma JoinCons(c: char, head: string, rest: string, t: string)
    requires head + rest == t
    ensures ([c] + head) + rest == [c] + t
  {
  }

  /** The pieces put back together give the whole string. */
  lemma {:induction false} SplitJoins(s: string)
    ensures Split(s)[0] + Concat(Suffixes(s)) == s
  {
    if s != [] {
      SplitJoins(s[1..]);
      if s[0] == '.' {
        JoinAtDot(s);
      } else {
        JoinAtOther(s);
      }
    }
  }

  lemma {:induction false} SuffixCount(s: string)
    ensures |Suffixes(s)| == |DotSuffixes(s)|
  {
    if s != [] {
      SuffixCount(s[1..]);
      if s[0] == '.' {
        SuffixesAtDot(s);
      } else {
        SuffixesAtOther(s);
      }
    }
  }

  /** Accumulating suffixes right to left from position `j` gives the `j`-th dot suffix. */
  lemma {:induction false} SuffixesAreDotSuffixes(s: string, j: nat)
    requires j < |Suffixes(s)|
    ensures j < |DotSuffixes(s)| && Concat(Suffixes(s)[j..]) == DotSuffixes(s)[j]
  {
    SuffixCount(s);
    var t := s[1..];
    if s[0] == '.' {
      SuffixesAtDot(s);
      assert DotSuffixes(s) == [s] + DotSuffixes(t);
      if j == 0 {
        SplitJoins(t);
        assert Suffixes(s)[0..][1..] == Suffixes(t);
        assert s == "." + t;
      } else {
        SuffixesAreDotSuffixes(t, j - 1);
        assert Suffixes(s)[j..] == Suffixes(t)[j - 1..];
      }
    } else {
      SuffixesAtOther(s);
      SuffixesAreDotSuffixes(t, j);
    }
  }

  lemma {:induction false} DotSuffixShape(s: string, j: nat)
    requires j < |DotSuffixes(s)|
    ensures exists p :: 0 <= p < |s| && s[p] == '.' && DotSuffixes(s)[j] == s[p..]
  {
    var t := s[1..];
    if s[0] == '.' && j == 0 {
      assert s[0..] == s;
    } else {
      var k := if s[0] == '.' then j - 1 else j;
      assert DotSuffixes(s)[j] == DotSuffixes(t)[k];
      DotSuffixShape(t, k);
      var p :| 0 <= p < |t| && t[p] == '.' && DotSuffixes(t)[k] == t[p..];
      assert s[p + 1..] == t[p..];
    }
  }

  /** The position, among the dot suffixes, of the suffix starting at the dot at `p`. */
  lemma {:induction false} DotSuffixIndex(s: string, p: nat) returns (j: nat)
    requires p < |s| && s[p] == '.'
    ensures j < |DotSuffixes(s)| && DotSuffixes(s)[j] == s[p..]
  {
    var t := s[1..];
    var head: seq<string> := if s[0] == '.' then [s] else [];
    assert DotSuffixes(s) == head + DotSuffixes(t);
    if p == 0 {
      j := 0;
      assert s[0..] == s;
    } else {
      var i := DotSuffixIndex(t, p - 1);
      j := |head| + i;
      assert DotSuffixes(s)[j] == DotSuffixes(t)[i];
      assert t[p - 1..] == s[p..];
    }
  }

  /** Every suffix that starts at a dot is one of the dot suffixes. */
  lemma DotSuffixComplete(s: string, p: nat)
    requires p < |s| && s[p] == '.'
    ensures exists j :: 0 <= j < |DotSuffixes(s)| && DotSuffixes(s)[j] == s[p..]
  {
    var j := DotSuffixIndex(s, p);
  }

  lemma {:induction false} DotSuffixesShrink(s: string, i: nat, j: nat)
    requires i < j < |DotSuffixes(s)|
    ensures |DotSuffixes(s)[i]| > |DotSuffixes(s)[j]|
  {
    var t := s[1..];
    var head := if s[0] == '.' then [s] else [];
    assert DotSuffixes(s) == head + DotSuffixes(t);
    if s[0] == '.' && i == 0 {
      DotSuffixShape(t, j - 1);
    } else {
      DotSuffixesShrink(t, i - |head|, j - |head|);
    }
  }

  /** The position of the first (longest) dot suffix from `i` on that is a key of the table. */
  function FirstKnown(exts: seq<string>, i: nat): (j: Option<nat>)
    ensures j.Some? ==> i <= j.value < |exts| && exts[j.value] in ExtensionToFiletype
    ensures j.Some? ==> forall k :: i <= k < j.value ==> exts[k] !in ExtensionToFiletype
    ensures j.None? ==> forall k :: i <= k < |exts| ==> exts[k] !in ExtensionToFiletype
    decreases |exts| - i
  {
    if i >= |exts| then None
    else if exts[i] in ExtensionToFiletype then Some(i)
    else FirstKnown(exts, i + 1)
  }

  /** `_filetype_from_filename` as a function of the filename. */
  function FiletypeSpec(filename: string): Result<string>
  {
    var exts := DotSuffixes(filename);
    match FirstKnown(exts, 0)
    case Some(j) => Ok(ExtensionToFiletype[exts[j]])
    case None => Err(UnknownExtension(if exts == [] then "" else exts[0]))
  }

  /** `_filetype_from_filename`: grow the extension suffix by suffix from the right; the last hit wins. */
  method FiletypeFromFilename(filename: string) returns (r: Result<string>)
    ensures r == FiletypeSpec(filename)
  {
    var suffixes := Suffixes(filename);
    var ext := "";
    var out: Option<string> := None;
    var i := |suffixes|;
    SuffixCount(filename);
    while i > 0
      invariant 0 <= i <= |suffixes|
      invariant ext == Concat(suffixes[i..])
      invariant out == match FirstKnown(DotSuffixes(filename), i)
                       case Some(j) => Some(ExtensionToFiletype[DotSuffixes(filename)[j]])
                       case None => None
    {
      SuffixesAreDotSuffixes(filename, i - 1);
      assert suffixes[i - 1..][1..] == suffixes[i..];
      i := i - 1;
      ext := suffixes[i] + ext;
      if ext in ExtensionToFiletype {
        out := Some(ExtensionToFiletype[ext]);
      }
    }
    if suffixes != [] {
      SuffixesAreDotSuffixes(filename, 0);
    }
    if out.None? {
      return Err(UnknownExtension(ext));
    }
    return Ok(out.value);
  }

  lemma LongerSuffixesUnknown(filename: string, j: nat, q: nat)
    requires FirstKnown(DotSuffixes(filename), 0) == Some(j)
    requires q < |filename| && filename[q] == '.' && filename[q..] in ExtensionToFiletype
    ensures |filename[q..]| <= |DotSuffixes(filename)[j]|
  {
    var exts := DotSuffixes(filename);
    DotSuffixComplete(filename, q);
    var i :| 0 <= i < |exts| && exts[i] == filename[q..];
    if j < i {
      DotSuffixesShrink(filename, j, i);
    }
  }

  /**
   * A deduced format is the table's entry for the longest suffix of the filename that starts
   * at a dot and is a key of the table.
   */
  lemma FiletypeIsLongestKnownSuffix(filename: string)
    requires FiletypeSpec(filename).Ok?
    ensures exists p :: 0 <= p < |filename| && filename[p] == '.' && filename[p..] in ExtensionToFiletype
                        && FiletypeSpec(filename).value == ExtensionToFiletype[filename[p..]]
                        && forall q :: 0 <= q < |filename| && filename[q] == '.' && filename[q..] in ExtensionToFiletype
                             ==> |filename[q..]| <= |filename[p..]|
  {
    var exts := DotSuffixes(filename);
    var j := FirstKnown(exts, 0).value;
    DotSuffixShape(filename, j);
    var p :| 0 <= p < |filename| && filename[p] == '.' && exts[j] == filename[p..];
    forall q | 0 <= q < |filename| && filename[q] == '.' && filename[q..] in ExtensionToFiletype
      ensures |filename[q..]| <= |filename[p..]|
    {
      LongerSuffixesUnknown(filename, j, q);
    }
    assert filename[p..] in ExtensionToFiletype && FiletypeSpec(filename).value == ExtensionToFiletype[filename[p..]];
  }

  /** Deduction fails exactly when no suffix starting at a dot is a key of the table. */
  lemma FiletypeFailsWithoutKnownSuffix(filename: string)
    ensures FiletypeSpec(filename).Err? <==>
      forall p :: 0 <= p < |filename| && filename[p] == '.' ==> filename[p..] !in ExtensionToFiletype
  {
    var exts := DotSuffixes(filename);
    if FiletypeSpec(filename).Err? {
      forall p | 0 <= p < |filename| && filename[p] == '.'
        ensures filename[p..] !in ExtensionToFiletype
      {
        DotSuffixComplete(filename, p);
      }
    } else {
      FiletypeIsLongestKnownSuffix(filename);
    }
  }

  /** A filename without a dot has no extension to go by. */
  lemma NoDotNoFiletype(filename: string)
    requires forall p :: 0 <= p < |filename| ==> filename[p] != '.'
    ensures FiletypeSpec(filename) == Err(UnknownExtension(""))
  {
    if DotSuffixes(filename) != [] {
      DotSuffixShape(filename, 0);
    }
  }

  /** Whatever deduction returns is one of the table's formats. */
  lemma FiletypeIsTableValue(filename: string)
    requires FiletypeSpec(filename).Ok?
    ensures FiletypeSpec(filename).value in ExtensionToFiletype.Values
  {
  }

  lemma CompoundExtension()
    ensures FiletypeSpec("m.post.gz") == Ok("permas")
  {
    assert DotSuffixes("m.post.gz") == [".post.gz", ".gz"];
    assert FirstKnown([".post.gz", ".gz"], 0) == Some(0);
  }

  lemma InnerDotIgnored()
    ensures FiletypeSpec("a.b.vtk") == Ok("vtk-binary")
  {
    assert DotSuffixes("a.b.vtk") == [".b.vtk", ".vtk"];
    assert FirstKnown([".b.vtk", ".vtk"], 1) == Some(1);
    assert FirstKnown([".b.vtk", ".vtk"], 0) == Some(1);
  }

  lemma UnknownIsNoKey()
    ensures ".unknown" !in ExtensionToFiletype
  {
    assert forall k | k in ExtensionToFiletype :: |k| > 1 && k[1] != 'u';
  }

  lemma UnknownSuffixes()
    ensures DotSuffixes("mesh.unknown") == [".unknown"]
  {
    assert DotSuffixes(".unknown") == [".unknown"] + DotSuffixes("unknown");
  }

  lemma UnknownExtensionReported()
    ensures FiletypeSpec("mesh.unknown") == Err(UnknownExtension(".unknown"))
  {
    UnknownSuffixes();
    UnknownIsNoKey();
    assert FirstKnown([".unknown"], 0) == None;
  }

  // ---------------------------------------------------------------------------------------
  // Choosing the reader

  const FormatToReader: map<string, Codec> := map[
    "ansys" := Ansys, "ansys-ascii" := Ansys, "ansys-binary" := Ansys,
    "gmsh" := Gmsh, "gmsh-ascii" := Gmsh, "gmsh-binary" := Gmsh,
    "med" := Med, "medit" := Medit, "dolfin-xml" := Dolfin, "permas" := Permas, "moab" := H5m, "off" := Off,
    "stl" := Stl, "stl-ascii" := Stl, "stl-binary" := Stl,
    "vtu-ascii" := Vtu, "vtu-binary" := Vtu,
    "vtk-ascii" := Vtk, "vtk-binary" := Vtk,
    "xdmf" := Xdmf, "exodus" := Exodus,
    "abaqus" := Abaqus
  ]

  /** `not file_format`: no format given, or the empty one. */
  predicate NoFormat(fileFormat: Option<string>)
  {
    fileFormat.None? || fileFormat.value == ""
  }

  /** The format `read` and `write` work with: the one given, else the one the extension implies. */
  function EffectiveFormat(filename: string, fileFormat: Option<string>): Result<string>
  {
    if NoFormat(fileFormat) then FiletypeSpec(filename) else Ok(fileFormat.value)
  }

  /** The codec `read` hands the file to. */
  function ReaderFor(filename: string, fileFormat: Option<string>): (r: Result<Codec>)
    ensures !NoFormat(fileFormat) ==> (r.Ok? <==> fileFormat.value in FormatToReader)
    ensures r.Ok? ==> r.value in FormatToReader.Values
    ensures r.Err? ==> r.error.UnknownFormat? || (NoFormat(fileFormat) && FiletypeSpec(filename).Err? && r == Err(FiletypeSpec(filename).error))
  {
    match EffectiveFormat(filename, fileFormat)
    case Err(e) => Err(e)
    case Ok(format) =>
      if format in FormatToReader then Ok(FormatToReader[format]) else Err(UnknownFormat(format))
  }

  /** A given format is read exactly when it is a key of the reader table, aliases included. */
  lemma ReaderAcceptsTableKeys(filename: string, format: string)
    requires format != ""
    ensures ReaderFor(filename, Some(format)).Ok? <==> format in FormatToReader
    ensures format in FormatToReader ==> ReaderFor(filename, Some(format)) == Ok(FormatToReader[format])
    ensures format !in FormatToReader ==> ReaderFor(filename, Some(format)) == Err(UnknownFormat(format))
  {
  }

  lemma ReaderAliases(filename: string)
    ensures ReaderFor(filename, Some("ansys")) == Ok(Ansys)
    ensures ReaderFor(filename, Some("gmsh")) == Ok(Gmsh)
    ensures ReaderFor(filename, Some("stl")) == Ok(Stl)
    ensures ReaderFor(filename, Some("vtk")) == Err(UnknownFormat("vtk"))
  {
  }

  /** Every advertised input format has a reader. */
  lemma InputFiletypesReadable(filename: string, k: nat)
    requires k < |InputFiletypes|
    ensures ReaderFor(filename, Some(InputFiletypes[k])).Ok?
  {
  }

  // ---------------------------------------------------------------------------------------
  // Checking the cells and choosing the writer

  /** The first cell block whose width differs from the arity table's, or whose type it lacks. */
  function ArityError(cells: seq<(string, IntArray)>, numNodesPerCell: map<string, nat>, k: nat): (e: Option<Error>)
    ensures e.None? <==> forall j :: k <= j < |cells| ==>
      cells[j].0 in numNodesPerCell && cells[j].1.grid.cols == numNodesPerCell[cells[j].0]
    decreases |cells| - k
  {
    if k >= |cells| then None
    else if cells[k].0 !in numNodesPerCell then Some(UnknownElementType(cells[k].0))
    else if cells[k].1.grid.cols != numNodesPerCell[cells[k].0] then Some(MalformedCellBlock(cells[k].0))
    else ArityError(cells, numNodesPerCell, k + 1)
  }

  /** `assert value.shape[1] == num_nodes_per_cell[key]` for every block, in order. */
  method CheckArities(cells: seq<(string, IntArray)>, numNodesPerCell: map<string, nat>) returns (e: Option<Error>)
    ensures e == ArityError(cells, numNodesPerCell, 0)
  {
    for k := 0 to |cells|
      invariant ArityError(cells, numNodesPerCell, 0) == ArityError(cells, numNodesPerCell, k)
    {
      var key, value := cells[k].0, cells[k].1;
      if key !in numNodesPerCell {
        return Some(UnknownElementType(key));
      }
      if value.grid.cols != numNodesPerCell[key] {
        return Some(MalformedCellBlock(key));
      }
    }
    return None;
  }

  /** A codec and, for the codecs that take one, the `write_binary` flag. */
  datatype WriterChoice = WriterChoice(codec: Codec, binary: Option<bool>)

  /** The if-chain of `write`, from a format to a writer. */
  function WriterForFormat(format: string): (r: Result<WriterChoice>)
    ensures r.Err? ==> r == Err(UnknownFormat(format))
    ensures r.Ok? ==> (r.value.binary.Some? <==> r.value.codec in {Ansys, Gmsh, Stl, Vtu, Vtk})
  {
    if format == "moab" then Ok(WriterChoice(H5m, None))
    else if format in ["ansys-ascii", "ansys-binary"] then Ok(WriterChoice(Ansys, Some(format == "ansys-binary")))
    else if format in ["gmsh-ascii", "gmsh-binary"] then Ok(WriterChoice(Gmsh, Some(format == "gmsh-binary")))
    else if format == "med" then Ok(WriterChoice(Med, None))
    else if format == "medit" then Ok(WriterChoice(Medit, None))
    else if format == "dolfin-xml" then Ok(WriterChoice(Dolfin, None))
    else if format == "off" then Ok(WriterChoice(Off, None))
    else if format == "permas" then Ok(WriterChoice(Permas, None))
    else if format in ["stl-ascii", "stl-binary"] then Ok(WriterChoice(Stl, Some(format != "stl-ascii")))
    else if format == "vtu-ascii" then Ok(WriterChoice(Vtu, Some(false)))
    else if format in ["vtu", "vtu-binary"] then Ok(WriterChoice(Vtu, Some(true)))
    else if format == "vtk-ascii" then Ok(WriterChoice(Vtk, Some(false)))
    else if format in ["vtk", "vtk-binary"] then Ok(WriterChoice(Vtk, Some(true)))
    else if format in ["xdmf", "xdmf3"] then Ok(WriterChoice(Xdmf, None))
    else if format == "abaqus" then Ok(WriterChoice(Abaqus, None))
    else if format == "exodus" then Ok(WriterChoice(Exodus, None))
    else Err(UnknownFormat(format))
  }

  /** `write` as a function: deduce the format, check the cells, then pick the writer. */
  function WriterFor(filename: string, cells: seq<(string, IntArray)>, fileFormat: Option<string>,
                     numNodesPerCell: map<string, nat>): Result<WriterChoice>
  {
    match EffectiveFormat(filename, fileFormat)
    case Err(e) => Err(e)
    case Ok(format) =>
      if ArityError(cells, numNodesPerCell, 0).Some? then Err(ArityError(cells, numNodesPerCell, 0).value)
      else WriterForFormat(format)
  }

  /** `write`, up to the call into the chosen codec. */
  method Write(filename: string, cells: seq<(string, IntArray)>, fileFormat: Option<string>,
               numNodesPerCell: map<string, nat>) returns (r: Result<WriterChoice>)
    ensures r == WriterFor(filename, cells, fileFormat, numNodesPerCell)
  {
    var format: string;
    if NoFormat(fileFormat) {
      var deduced := FiletypeFromFilename(filename);
      if deduced.Err? {
        return Err(deduced.error);
      }
      format := deduced.value;
    } else {
      format := fileFormat.value;
    }
    var e := CheckArities(cells, numNodesPerCell);
    if e.Some? {
      return Err(e.value);
    }
    return WriterForFormat(format);
  }

  /** A format that is given decides alone: the file name plays no part in reading or writing. */
  lemma GivenFormatIgnoresFilename(filename: string, other: string, format: string,
                                   cells: seq<(string, IntArray)>, numNodesPerCell: map<string, nat>)
    requires format != ""
    ensures ReaderFor(filename, Some(format)) == ReaderFor(other, Some(format))
    ensures WriterFor(filename, cells, Some(format), numNodesPerCell)
         == WriterFor(other, cells, Some(format), numNodesPerCell)
  {
  }

  /** `file_format=""` is treated as no format at all. */
  lemma EmptyFormatIsNoFormat(filename: string, cells: seq<(string, IntArray)>, numNodesPerCell: map<string, nat>)
    ensures ReaderFor(filename, Some("")) == ReaderFor(filename, None)
    ensures WriterFor(filename, cells, Some(""), numNodesPerCell) == WriterFor(filename, cells, None, numNodesPerCell)
  {
  }

  /** No table format is the empty tag, so a deduced format never counts as a missing one. */
  lemma TableFormatsNonEmpty(format: string)
    requires format in ExtensionToFiletype.Values
    ensures format != ""
  {
  }

  /**
   * Without a format, the one the extension implies is used exactly as if it had been given; a
   * file name without a known extension fails with that error, for reading and writing alike.
   */
  lemma MissingFormatDeduced(filename: string, other: string, cells: seq<(string, IntArray)>,
                             numNodesPerCell: map<string, nat>)
    ensures FiletypeSpec(filename).Ok? ==>
      ReaderFor(filename, None) == ReaderFor(other, Some(FiletypeSpec(filename).value)) &&
      WriterFor(filename, cells, None, numNodesPerCell)
        == WriterFor(other, cells, Some(FiletypeSpec(filename).value), numNodesPerCell)
    ensures FiletypeSpec(filename).Err? ==>
      ReaderFor(filename, None) == Err(FiletypeSpec(filename).error) &&
      WriterFor(filename, cells, None, numNodesPerCell) == Err(FiletypeSpec(filename).error)
  {
    if FiletypeSpec(filename).Ok? {
      FiletypeIsTableValue(filename);
      TableFormatsNonEmpty(FiletypeSpec(filename).value);
    }
  }

  /** A cell block of the wrong width stops `write` before any codec is chosen, whatever the format. */
  lemma ArityCheckedFirst(filename: string, cells: seq<(string, IntArray)>, fileFormat: Option<string>,
                          numNodesPerCell: map<string, nat>, k: nat)
    requires EffectiveFormat(filename, fileFormat).Ok?
    requires k < |cells| && cells[k].0 in numNodesPerCell && cells[k].1.grid.cols != numNodesPerCell[cells[k].0]
    ensures WriterFor(filename, cells, fileFormat, numNodesPerCell).Err?
  {
  }

  /** The chain accepts exactly the advertised output formats plus `vtu`, `vtk` and `xdmf3`. */
  lemma WriterAccepts(format: string)
    ensures WriterForFormat(format).Ok? <==> format in OutputFiletypes || format in ["vtu", "vtk", "xdmf3"]
  {
  }

  /** gmsh and ansys write binary exactly for their `-binary` tags; stl unless `stl-ascii`. */
  lemma BinaryFlags(format: string)
    requires WriterForFormat(format).Ok?
    ensures WriterForFormat(format).value.codec in {Gmsh, Ansys} ==>
      WriterForFormat(format).value.binary == Some(format in ["gmsh-binary", "ansys-binary"])
    ensures WriterForFormat(format).value.codec == Stl ==> WriterForFormat(format).value.binary == Some(format != "stl-ascii")
    ensures WriterForFormat(format).value.codec in {Vtu, Vtk} ==>
      WriterForFormat(format).value.binary == Some(format !in ["vtu-ascii", "vtk-ascii"])
  {
    var c := WriterForFormat(format).value.codec;
    if format in ["ansys-ascii", "ansys-binary", "gmsh-ascii", "gmsh-binary"] {
    } else if format in ["stl-ascii", "stl-binary"] {
    } else if format in ["vtu-ascii", "vtu", "vtu-binary", "vtk-ascii", "vtk", "vtk-binary"] {
    } else {
      assert WriterForFormat(format).value.binary.None?;
    }
  }

  lemma PlainVtuVtkAreBinary()
    ensures WriterForFormat("vtu") == Ok(WriterChoice(Vtu, Some(true)))
    ensures WriterForFormat("vtk") == Ok(WriterChoice(Vtk, Some(true)))
    ensures WriterForFormat("xdmf3") == Ok(WriterChoice(Xdmf, None))
  {
  }

  /** Every format the extension table names has a reader and a writer. */
  lemma TableFormatsSupported(format: string)
    requires format in ExtensionToFiletype.Values
    ensures format in FormatToReader && WriterForFormat(format).Ok?
  {
    var e :| e in ExtensionToFiletype && ExtensionToFiletype[e] == format;
    assert format in {"exodus", "med", "medit", "gmsh-binary", "dolfin-xml", "permas", "moab", "off",
                      "stl-binary", "vtu-binary", "vtk-binary", "xdmf", "abaqus"};
  }

  /** Every format an extension implies can be both read and written. */
  lemma DeducedFormatsSupported(filename: string, cells: seq<(string, IntArray)>, numNodesPerCell: map<string, nat>)
    requires FiletypeSpec(filename).Ok?
    ensures ReaderFor(filename, None).Ok?
    ensures ArityError(cells, numNodesPerCell, 0).None? ==> WriterFor(filename, cells, None, numNodesPerCell).Ok?
  {
    var format := FiletypeSpec(filename).value;
    TableFormatsSupported(format);
    assert EffectiveFormat(filename, None) == Ok(format);
  }
}
