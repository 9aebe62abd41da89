/**
 * The dimensioned-variable container an Exodus II file is stored in, as a value: named
 * dimensions and named variables, each kept in creation order, which is also the order in
 * which a reader iterates over them.
 */
module NetCdf {
  import opened Outcomes
  import opened Dicts
  import opened Grids

  /** A dimension: its current length, and whether it is the unlimited (record) dimension. */
  datatype Dim = Dim(length: nat, unlimited: bool)

  datatype Attribute = RealAttr(r: real) | IntAttr(i: int) | TextAttr(text: string)

  /** The contents of a variable, by kind and rank. Floating-point payloads are `real`s. */
  datatype Values =
    | IntVector(ints: seq<int>)
    | IntTable(table: Matrix<int>)
    | CharTable(chars: seq<seq<char>>)
    | RealVector(reals: seq<real>)
    | RealTable(grid: Matrix<real>)
    | RealCube(cube: seq<seq<seq<real>>>)

  datatype Variable = Variable(dtype: string, dims: seq<string>, attrs: map<string, Attribute>,
                               values: Values)

  datatype Dataset = Dataset(attrs: map<string, Attribute>, dims: seq<(string, Dim)>,
                             vars: seq<(string, Variable)>)

  /** `len(nc.dimensions[name])`. */
  function DimLength(ds: Dataset, name: string): Option<nat>
  {
    match Lookup(ds.dims, name)
    case Some(d) => Some(d.length)
    case None => None
  }

  /** The fill byte of a character variable, which reads back as nothing. */
  const NulChar: char := 0 as char

  /** The rows of an `S1` table as written by a name loop: the name's characters, then fill. */
  function Pad(name: string, width: nat): (row: seq<char>)
    requires |name| <= width
  {
    name + seq(width - |name|, _ => NulChar)
  }

  /** `b"".join(row).decode("UTF-8")`: numpy yields an empty byte string for each fill cell. */
  function DecodeRow(row: seq<char>): string
  {
    if row == [] then [] else (if row[0] == NulChar then [] else [row[0]]) + DecodeRow(row[1..])
  }

  lemma {:induction false} DecodeFill(n: nat)
    ensures DecodeRow(seq(n, _ => NulChar)) == []
  {
    if n > 0 {
      assert seq(n, _ => NulChar)[1..] == seq(n - 1, _ => NulChar);
      DecodeFill(n - 1);
    }
  }

  /** A name without fill characters survives being written into a row and read back. */
  lemma {:induction false} DecodePad(name: string, width: nat)
    requires |name| <= width
    requires forall i :: 0 <= i < |name| ==> name[i] != NulChar
    ensures DecodeRow(Pad(name, width)) == name
    decreases |name|
  {
    if name == [] {
      assert Pad(name, width) == seq(width, _ => NulChar);
      DecodeFill(width);
    } else {
      assert Pad(name, width)[1..] == Pad(name[1..], width - 1);
      DecodePad(name[1..], width - 1);
    }
  }
}
