# meshio: the Exodus II codec and the format dispatcher, in Dafny

This project models two parts of meshio, a library that translates unstructured meshes between file formats.

- **The Exodus II codec** (`exodus_io.py`). This is the netCDF mapping of Exodus II described in Appendix A of Sandia report SAND92-2137. It has four parts:
  - the element-type registry and its inverse;
  - the numpy-dtype to type-code table;
  - `write`, which builds the dimensions and variables of a netCDF container from a mesh;
  - `read`, which rebuilds a mesh from a container's variables.
- **The format dispatcher** (`meshio/helpers.py`). This covers:
  - deducing a format from a filename's extension;
  - choosing the reader for a format;
  - the arity check on the cell blocks before writing;
  - the if-chain that chooses a writer and its `write_binary` flag.

The netCDF container is a value: `NetCdf.Dataset` holds global attributes, an ordered list of dimensions and an ordered list of variables. Each variable carries a type code, its dimension names, its attributes and its data.

Python dicts become sequences of pairs in insertion order, the order in which iterating over them sees them. Assignment `d[k] = v` is `Dicts.Put`: a key already present keeps its place and takes the new value, and a new key goes last. A dict built from pairs (`dict(...)`, a dict comprehension) is `Dicts.PutAll` from the empty dict. The two registry dicts are only looked up, never iterated, so they are `Dicts.ToMap` maps, in which a later pair wins; the inverted registry is `Dicts.Invert`.

Integers are unbounded, and numpy's fixed-width arithmetic is written out. `values + 1` on write and `value[:] - 1` on read are computed in the array's own integer type, so they wrap around at its ends: in `uint8`, 255 + 1 stores 0 and 0 - 1 stores 255. `Dtypes.Wrap` reduces an exact result into the range of a type code, and `Dtypes.ShiftAll` and `Dtypes.ShiftEach` apply such an addition to every entry. The floating-point codes keep the exact result.

Modules:

| file | module | models |
|---|---|---|
| `outcomes.dfy` | `Outcomes` | `Option`, `Result` and the errors the source raises |
| `dicts.dfy` | `Dicts` | ordered dicts, assignment, dict construction, inversion, `zip` |
| `text.dfy` | `Text` | `"{}".format(k + 1)` names, `str.upper()` |
| `grids.dfy` | `Grids` | 2-D arrays: zeros, transpose, `vstack`, column read and write |
| `meshes.dfy` | `Meshes` | the mesh handed to `write` and the one `read` returns |
| `netcdf.dfy` | `NetCdf` | the container, fixed-width character rows and their decoding |
| `element_types.dfy` | `ElementTypes` | `exodus_to_meshio_type`, `meshio_to_exodus_type` |
| `dtypes.dfy` | `Dtypes` | `numpy_to_exodus_dtype`; the range of each integer type code and `+ d` with wrap-around |
| `exodus_write.dfy` | `ExodusWrite` | `write`: `WriteSpec` (the whole result or the first error) and the method `Write`, proved equal to it |
| `exodus_write_facts.dfy` | `ExodusWriteFacts` | what the written container holds, name by name |
| `exodus_read.dfy` | `ExodusRead` | `read`: `ReadSpec`, a fold of one loop step over the variables, and the method `Read`, proved equal to it |
| `exodus_roundtrip.dfy` | `ExodusRoundTrip` | `read` after `write` |
| `helpers.dfy` | `Helpers` | `_filetype_from_filename`, reader choice, arity check, writer choice |

Writing follows the source's order of creation:

1. the ten fixed dimensions;
2. `time_whole`, `coor_names`, `coord` and `eb_prop1`;
3. per cell block: two dimensions and `connect{k+1}`;
4. the point data;
5. the node sets;
6. the side sets.

The pieces are written by loops in the methods `WriteBlocks`, `WritePointData`, `WriteNodeSets` and `WriteSideSets`. The first failing lookup or shape check ends the write with that error.

Three behaviours of the code, and what the model does with them:

- A point-data, node-set or side-set name longer than `len_string` (33). The code writes one character cell per index (`exodus_io.py:199-201`, `217-220`, `233-236`), so a longer name indexes past the fixed `len_string` dimension. The name is not cut short. The model returns `NameTooLong` for it.
- The arity check before writing (`meshio/helpers.py:185-187`). The code compares each block's width with `gmsh_io.num_nodes_per_cell[key]`. That table is a parameter here.
- Deducing a format when no suffix is known (`meshio/helpers.py:95-97`). The code fails an assertion whose message names `ext`, the longest compound suffix it tried. The model returns `UnknownExtension` holding that suffix, or `""` when the filename has no dot.

## Model

| member | source | states |
|---|---|---|
| Dicts.ToMapLastWins | exodus_io.py:62 | building a dict from pairs keeps, for a key, the value of its last pair |
| Dicts.InvertIsRightInverse | exodus_io.py:62 | with distinct keys, looking up the inverted dict and then the forward one gives the value back |
| Dicts.InvertDomain | exodus_io.py:62 | the inverted dict is defined exactly on the values of the forward dict |
| Dicts.LookupKeys | exodus_io.py:85 | a key is found exactly when it is among the dict's keys |
| Dicts.PutLookup | exodus_io.py:85-88 | after `d[k] = v`, `k` holds `v` and every other key holds what it held |
| Dicts.PutKeys | exodus_io.py:85-88 | `d[k] = v` appends `k` to the key order when it is new and keeps the order otherwise |
| Dicts.PutNew | exodus_io.py:88 | assigning a new key appends the pair |
| Dicts.PutAllKeys | exodus_io.py:103 | after a run of assignments the keys are the old keys, then the new ones in first-appearance order |
| Dicts.PutAllUntouched | exodus_io.py:103 | a key no assignment names keeps its value |
| Dicts.PutAllLastWins | exodus_io.py:103 | a key holds the value of the last pair that assigns it |
| Dicts.PutAllFresh | exodus_io.py:103 | pairs with distinct new keys are appended as they are, so a dict built from a dict's items equals it |
| Dicts.FirstAppearancesFacts | exodus_io.py:85-88 | first-appearance order starts with the old keys, holds each key once, and holds exactly the keys given |
| Dicts.DistinctKeysNoDuplicates | exodus_io.py:81 | a dict's pairs have distinct keys exactly when its key sequence has no repeats |
| ElementTypes.EntriesHaveDistinctKeys | exodus_io.py:18-61 | no Exodus name appears twice in the registry literal, so every entry survives in the dict |
| ElementTypes.EntriesAreUpperCase | exodus_io.py:18-61 | every Exodus name in the registry is upper case, so `upper()` on read can reach each one |
| ElementTypes.ReadBackWrittenType | exodus_io.py:18-62 | for any type the reverse map accepts, reading its Exodus name gives the type back (right inverse) |
| ElementTypes.WritableTypes | exodus_io.py:62 | a type can be written exactly when some Exodus name reads as it |
| ElementTypes.AliasRoundTrip | exodus_io.py:18-62 | any Exodus name that reads, written back and read again, gives the same type |
| ElementTypes.WrittenAs | exodus_io.py:62 | an entry whose type no later entry shares is the Exodus name written for that type |
| ElementTypes.PreferredAliases | exodus_io.py:18-62 | the last registered name wins: hexahedron→HEX8, line→BAR2, quad→QUAD4, triangle→TRI3 |
| ElementTypes.CaseInsensitiveRead | exodus_io.py:84 | the read lookup upper-cases the tag: `hex` and `HEX` both read as hexahedron |
| Dtypes.CodeIsKindAndBytes | exodus_io.py:109-120 | each listed numpy dtype maps to its kind letter followed by its width in bytes |
| Dtypes.OnlyTableDtypes | exodus_io.py:109-120 | only those ten kind/width dtypes have a code; every other dtype fails |
| Dtypes.Wrap | exodus_io.py:186 | the stored value lies in the type's range, equals the exact result when that is in range, and differs from it by a multiple of the type's size |
| Dtypes.WrapCongruent | exodus_io.py:86-88 | two results that differ by a multiple of the type's size are stored as the same value |
| Dtypes.WrapBack | exodus_io.py:86-88 | subtracting `d` in the type's arithmetic undoes adding `d` for every value the type holds, across the wrap too |
| Dtypes.WrapAtEnds | exodus_io.py:186 | `uint8` 255 + 1 stores 0 and 0 - 1 stores 255; `int8` 127 + 1 stores -128 and -128 - 1 stores 127; `f4` keeps 256 |
| Dtypes.ShiftAll | exodus_io.py:186 | `values + d` on a 2-D integer array keeps its shape and stores each entry plus `d` in the array's type |
| Dtypes.ShiftEach | exodus_io.py:227 | `values + d` on a 1-D integer array keeps its length and stores each entry plus `d` in the array's type |
| Dtypes.ShiftAllBack | exodus_io.py:86-88 | shifting by `-d` undoes shifting by `d` for an array whose entries its type holds |
| Text.NumberedNames | exodus_io.py:178-183 | a stem followed by `k + 1` in decimal names one (stem, k) pair only, so numbered names never collide |
| Text.DecimalValueOfNatToString | exodus_io.py:178 | the decimal rendering of a number reads back as that number |
| Text.UpperKeepsNoLowerCase | exodus_io.py:84 | upper-casing leaves a string without lower-case letters unchanged |
| Grids.Zeros | exodus_io.py:78 | the preallocated points are `num_nodes` rows of three zeros |
| Grids.Transpose | exodus_io.py:90 | the transpose swaps rows and columns entry by entry |
| Grids.TransposeTwice | exodus_io.py:169 | transposing the written coordinate block back gives the points |
| NetCdf.DecodePad | exodus_io.py:99 | a name without NUL characters, padded to a row of fixed width, decodes to itself |
| NetCdf.DecodeFill | exodus_io.py:99 | a row of fill characters decodes to the empty name |
| ExodusRead.Read | exodus_io.py:65-106 | the read loop's result is `ReadSpec`: a missing `num_nodes` fails, otherwise the fold of one step per variable in stored order |
| ExodusRead.ReadVarsAppend | exodus_io.py:82-101 | reading two runs of variables is reading the first, then the second from where the first stopped, and an error stops it |
| ExodusRead.ReadIgnored | exodus_io.py:82-101 | variables whose names match no case leave the reader's state unchanged |
| ExodusRead.ReadVarsResolvesBlocks | exodus_io.py:83-84 | when reading succeeds, every `connect*` variable had an `elem_type` that the registry knows |
| ExodusRead.ReadRejectsUnknownType | exodus_io.py:83-84 | a `connect*` variable whose upper-cased `elem_type` is not registered makes `read` fail; it is never skipped |
| ExodusRead.StepStacks | exodus_io.py:85-88 | one block of type t appends its rows after the rows already held for t; any other variable leaves t alone |
| ExodusRead.ReadVarsStacks | exodus_io.py:85-88 | after a run of variables, type t is present exactly when it was before or some block has it, and its rows are the old rows followed by every such block's rows in order |
| ExodusRead.ReadStacksBlocks | exodus_io.py:82-88 | the cells `read` returns hold type t exactly when some `connect*` block has it, and its rows are all such blocks' rows, one less in the stored type, concatenated in stored order |
| ExodusRead.StepKeys | exodus_io.py:85-88 | a block of a new type appends that type to the keys; any other variable leaves the keys as they were |
| ExodusRead.ReadVarsKeys | exodus_io.py:82-88 | after a run of variables the keys are the old keys, then the block types in first-appearance order |
| ExodusRead.ReadCellOrder | exodus_io.py:81-88 | the cells `read` returns are keyed by the block types in the order each first appears, each type once |
| ExodusRead.ReadVarsPointData | exodus_io.py:97-101 | the names come from the last `name_nod_var` and the values from time step 0 of the last `vals_nod_var` |
| ExodusRead.ReadPointData | exodus_io.py:97-103 | the point data `read` returns is the zip of those names with those values |
| ExodusRead.PointDataZip | exodus_io.py:103 | the k-th name maps to the k-th value row when no later name repeats it, within the shorter list |
| ExodusRead.PointDataNames | exodus_io.py:103 | the point data holds each name once, in first-appearance order, and a name is in it exactly when it sits at a position both lists have |
| ExodusRead.ReadVarsIgnoresLaterSteps | exodus_io.py:100-101 | changing any time step after the first in `vals_nod_var` changes nothing the fold produces |
| ExodusRead.ReadIgnoresLaterTimeSteps | exodus_io.py:100-101 | `read` ignores every time step after the first |
| ExodusWrite.BlocksError | exodus_io.py:177-184 | no error from the blocks exactly when every block has a known dtype and an element type the reverse map knows |
| ExodusWrite.NamesError | exodus_io.py:199-201 | no error from the names exactly when every name fits the 33 character cells |
| ExodusWrite.FieldsError | exodus_io.py:210-211 | no error from the fields exactly when every field has one value per node |
| ExodusWrite.NodeSetsError | exodus_io.py:221-227 | no error from the node sets exactly when each has a known dtype |
| ExodusWrite.SideSetsError | exodus_io.py:237-244 | no error from the side sets exactly when each has a known dtype and at least two columns |
| ExodusWrite.NumberedIds | exodus_io.py:174-176 | the property ids are 0, 1, …, n-1 in order |
| ExodusWrite.WriteNames | exodus_io.py:199-201 | the cell-by-cell name loop yields one padded row per name, or the first name that does not fit |
| ExodusWrite.WriteNodalValues | exodus_io.py:210-211 | the value loop yields one row per field, or fails on the first field of the wrong length |
| ExodusWrite.WriteBlocks | exodus_io.py:174-186 | the block loop adds exactly `BlockDims` and `BlockVars` after what was there, or returns the first block error |
| ExodusWrite.WritePointData | exodus_io.py:191-211 | the point-data section adds `num_nod_var`, `name_nod_var` and `vals_nod_var`, or nothing when there is no point data |
| ExodusWrite.WriteNodeSets | exodus_io.py:214-227 | the node-set section adds its dimensions and variables after what was there, or nothing when there are none |
| ExodusWrite.WriteSideSets | exodus_io.py:230-244 | the side-set section adds its dimensions and two variables per set after what was there, or nothing when there are none |
| ExodusWrite.Write | exodus_io.py:123-247 | the writer's result is `WriteSpec`: the first error in source order, otherwise the container with every dimension and variable in creation order |
| ExodusWriteFacts.Written | exodus_io.py:123-247 | a successful write produced exactly `AllDims` and `AllVars`, and no two dimensions and no two variables share a name |
| ExodusWriteFacts.WriteDimNamesDistinct | exodus_io.py:144-239 | every dimension the writer creates has a name of its own |
| ExodusWriteFacts.WriteVarNamesDistinct | exodus_io.py:157-243 | every variable the writer creates has a name of its own |
| ExodusWriteFacts.WriteDimensions | exodus_io.py:139-154 | `num_nodes`, `num_dim`=3, `num_elem` the sum of the block row counts, `num_el_blk` the block count, the set counts, `len_string`=33, `len_line`=81, `four`=4, `time_step` unlimited; version and word size |
| ExodusWriteFacts.WriteBlockDims | exodus_io.py:178-181 | block k's dimensions `num_el_in_blk{k+1}` and `num_nod_per_el{k+1}` are its row and column counts |
| ExodusWriteFacts.WriteBlock | exodus_io.py:177-186 | block k is `connect{k+1}` with its dtype code, those two dimensions, `elem_type` from the reverse map, and each entry plus 1 in the block's dtype, wrapping at the type's top; its type reads back |
| ExodusWriteFacts.WriteCoordinates | exodus_io.py:161-176 | `coor_names`, `coord` holding the transposed points with their dtype code, and `eb_prop1` = 0..n-1, so block ids are distinct |
| ExodusWriteFacts.CoordNamesDecode | exodus_io.py:161-165 | the rows of `coor_names` decode to X, Y and Z |
| ExodusWriteFacts.NameTableDecodes | exodus_io.py:199-201 | row k of the name table holds name k, character i in column i, and decodes back to it |
| ExodusWriteFacts.WritePointData | exodus_io.py:191-211 | with point data: names within 33, one value per node, `num_nod_var`, the name table, and `vals_nod_var` with the first field's dtype holding all fields at time step 0 |
| ExodusWriteFacts.WriteNodeSet | exodus_io.py:214-227 | node set k is `node_ns{k+1}` with each value plus 1 in the set's dtype, wrapping at the type's top, over `num_nod_ns{k+1}`, and `ns_prop1` = 0..n-1 |
| ExodusWriteFacts.WriteSideSet | exodus_io.py:230-244 | side set k writes column 0 plus 1 in the set's dtype, wrapping at the type's top, to `elem_ss{k+1}` and column 1 unchanged to `side_ss{k+1}`, over `num_side_ss{k+1}` |
| ExodusWriteFacts.WriteRejectsUnknownType | exodus_io.py:184 | a cell type the reverse map lacks makes `write` fail |
| ExodusWriteFacts.WriteReportsUnknownType | exodus_io.py:177-184 | when the earlier blocks are fine, that failure is `UnknownElementType` for that type |
| ExodusWriteFacts.WriteRejectsUnsupportedDtype | exodus_io.py:109-120 | points, a block, a node set or a side set with a dtype the table lacks makes `write` fail |
| ExodusWriteFacts.WriteRejectsLongName | exodus_io.py:199-201 | a point-data, node-set or side-set name longer than 33 characters makes `write` fail |
| ExodusRoundTrip.ClassifyIgnores | exodus_io.py:82-101 | names starting otherwise than with `c`, `v` or `na` are ignored by the reader |
| ExodusRoundTrip.ReadHeader | exodus_io.py:89-90 | reading the written `time_whole`, `coor_names`, `coord` and `eb_prop1` sets the points to the mesh's points |
| ExodusRoundTrip.ReadWrittenBlock | exodus_io.py:83-88 | a written `connect{k+1}` is read as its block: the same type and the same 0-based indices, also where adding 1 wrapped around |
| ExodusRoundTrip.ReadBlocks | exodus_io.py:85-88 | reading the first n written blocks of distinct types yields exactly those n blocks, in their order |
| ExodusRoundTrip.ReadWrittenPointData | exodus_io.py:97-101 | reading the written point-data variables gives back the names and the value rows |
| ExodusRoundTrip.ReadNodeSets | exodus_io.py:82-101 | the written node-set variables are ignored on read |
| ExodusRoundTrip.ReadSideSets | exodus_io.py:82-101 | the written side-set variables are ignored on read |
| ExodusRoundTrip.ReadAllVars | exodus_io.py:82-101 | the read loop over all written variables ends with the points, the point-data names and values, and the cell blocks |
| ExodusRoundTrip.FieldPairsFresh | exodus_io.py:103 | zipping the names with the value rows of fields with distinct names gives the fields back in their order |
| ExodusRoundTrip.WriteThenRead | exodus_io.py:65-106 | `read(write(m))` gives back m's points, its cell blocks in their order and its point data in its order, for keys that are distinct as in the source's dicts and blocks that hold only values of their own dtype |
| Helpers.SplitJoins | meshio/helpers.py:86 | the pieces of `split(".")` joined back with dots give the filename |
| Helpers.SuffixesAreDotSuffixes | meshio/helpers.py:86-91 | the suffix accumulated from position i to the end is the i-th suffix of the filename that starts at a dot |
| Helpers.DotSuffixComplete | meshio/helpers.py:86-91 | every suffix that starts at a dot is among those tried |
| Helpers.FirstKnown | meshio/helpers.py:90-93 | the first suffix, longest first, that is a key of the extension table, or none |
| Helpers.FiletypeFromFilename | meshio/helpers.py:85-99 | the loop's result is `FiletypeSpec`: the table entry of the longest known suffix, else an error naming the longest suffix tried |
| Helpers.FiletypeIsLongestKnownSuffix | meshio/helpers.py:85-93 | on success, the format is the entry of a dot suffix in the table, and no longer dot suffix is in the table |
| Helpers.FiletypeFailsWithoutKnownSuffix | meshio/helpers.py:95-97 | deduction fails exactly when no dot suffix of the filename is a key |
| Helpers.NoDotNoFiletype | meshio/helpers.py:86 | a filename without a dot has no suffixes and fails, naming the empty extension |
| Helpers.FiletypeIsTableValue | meshio/helpers.py:92-93 | a deduced format is a value of the extension table |
| Helpers.CompoundExtension | meshio/helpers.py:62-93 | `m.post.gz` deduces `permas` through the compound key `.post.gz` |
| Helpers.InnerDotIgnored | meshio/helpers.py:62-93 | `a.b.vtk` deduces `vtk-binary` |
| Helpers.UnknownExtensionReported | meshio/helpers.py:95-97 | `mesh.unknown` fails, naming `.unknown` |
| Helpers.ReaderFor | meshio/helpers.py:113-153 | a given format is read exactly when it is a key of `format_to_reader`, whatever the filename; a reader found is one of the table's, and a failure names the format or comes from deducing it |
| Helpers.GivenFormatIgnoresFilename | meshio/helpers.py:113-115 | with a non-empty format, `read` and `write` do the same for every filename |
| Helpers.EmptyFormatIsNoFormat | meshio/helpers.py:113-115 | `file_format=""` behaves as no format, for `read` and `write` |
| Helpers.MissingFormatDeduced | meshio/helpers.py:113-115 | without a format, `read` and `write` act as if the deduced format had been given, and fail with the deduction's error when there is none |
| Helpers.TableFormatsNonEmpty | meshio/helpers.py:62-82 | no format in the extension table is the empty tag, so a deduced format is never taken for a missing one |
| Helpers.ReaderAcceptsTableKeys | meshio/helpers.py:117-153 | a given format is read exactly when it is a key of `format_to_reader`, with that reader, and fails otherwise |
| Helpers.ReaderAliases | meshio/helpers.py:117-147 | the aliases `ansys`, `gmsh` and `stl` are read; plain `vtk` is not |
| Helpers.InputFiletypesReadable | meshio/helpers.py:19-38 | every advertised input format has a reader |
| Helpers.ArityError | meshio/helpers.py:186-187 | no error exactly when every block's type is in the arity table and its width matches |
| Helpers.CheckArities | meshio/helpers.py:186-187 | the assertion loop returns the first block that fails the check, in order |
| Helpers.WriterForFormat | meshio/helpers.py:189-223 | any tag the chain does not accept fails with that tag; a writer takes a `write_binary` flag exactly when it is ansys, gmsh, stl, vtu or vtk |
| Helpers.Write | meshio/helpers.py:181-224 | `write` chooses the format, then checks the arities, then picks the writer, stopping at the first failure |
| Helpers.ArityCheckedFirst | meshio/helpers.py:185-189 | a block of the wrong width makes `write` fail even when the format is valid |
| Helpers.WriterAccepts | meshio/helpers.py:189-223 | the chain accepts exactly the advertised output formats plus `vtu`, `vtk` and `xdmf3`; any other tag fails with that tag |
| Helpers.BinaryFlags | meshio/helpers.py:191-214 | gmsh and ansys are binary exactly for `-binary`, stl unless `stl-ascii`, vtu and vtk unless `-ascii`; other codecs take no flag |
| Helpers.PlainVtuVtkAreBinary | meshio/helpers.py:209-216 | plain `vtu` and `vtk` write binary; `xdmf3` goes to the xdmf writer |
| Helpers.TableFormatsSupported | meshio/helpers.py:62-82 | every format in the extension table has a reader and a writer |
| Helpers.DeducedFormatsSupported | meshio/helpers.py:113-153 | a deduced format is always read, and written when the arities match |

## Left out

- The netCDF engine: opening, closing, masking, fill values and on-disk encoding. The container is a value. Only the effects the writer relies on are kept: dimension lengths, an index past a dimension, and `time_step` growing to one record when `time_whole` is written.
- The `title` attribute, which varies with `datetime.now()` and the library version. The other global attributes are modelled.
- Floating-point values. Coordinates and field values are opaque `real` payloads that are moved but never computed on.
- Casting each field to the first field's dtype. `vals_nod_var` is created with the first field's dtype, and every later field is assigned into it. That cast can round or truncate, as float64 into `i4` does. The model keeps every field's values unchanged.
- numpy broadcasting. A field or coordinate column whose length differs from the node count is an error, even when a length-1 array would broadcast.
- Arrays of other shapes and kinds. Here the model narrows what the code accepts, and fails with `ShapeMismatch` instead:
  - `ExodusRead.ConnectBlock`: a `connect*` variable that is not a 2-D integer table, such as a 1-D one or a float one. `value[:] - 1` at exodus_io.py:86-88 takes any array.
  - `ExodusRead.Step`: a `coord` variable that is not a 2-D real table, though `.T` at exodus_io.py:89-90 transposes any array. The same holds for a `coord*` axis, `name_nod_var` or `vals_nod_var` variable whose values have another kind or shape.
  - `ExodusWrite.PointsError`: a points array with one column. `points.T` at exodus_io.py:169 would broadcast its single row across the three `num_dim` rows of `coord`; the model accepts exactly three columns.
- The partly written file left behind by an error. The model returns only the error.
- Multi-byte UTF-8 characters. A character is one cell, and `upper()` is modelled on ASCII letters only.
- Names that contain NUL characters. Each NUL cell reads back as nothing, so such a name does not survive a round trip; `ExodusRoundTrip.WriteThenRead` requires names without them.
- The `createDimension` duplicate-name check. `ExodusWriteFacts.WriteDimNamesDistinct` proves that no name repeats, so the check never fires.
- `cell_data` and `field_data`. The codec takes them and ignores them, and `read` returns them empty.
- Connectivity stored with a floating-point dtype. Adding 1 is taken as exact; rounding of indices beyond the type's precision is not modelled.
- WriteThenRead: the node sets and side sets are not compared after a round trip, because `read` does not read them back (`ReadNodeSets` and `ReadSideSets` prove they are ignored).
- The `Mesh` class and `write_points_cells`, which only wrap `write`.
- The other codecs and the call into them. Dispatch is modelled up to choosing a codec and its `write_binary` flag.
- `gmsh_io.num_nodes_per_cell` is not part of this model. The arity table is a parameter.
- The `isinstance(filename, str)` assertion in `read`. Filenames are strings by type.
