/** The numpy dtype name to netCDF/Exodus type-code table used for every numeric variable. */
module Dtypes {
  import opened Outcomes
  import opened Text
  import opened Grids

  /** `numpy_to_exodus_dtype`. */
  const NumpyToExodusDtype: map<string, string> := map[
    "float32" := "f4", "float64" := "f8",
    "int8" := "i1", "int16" := "i2", "int32" := "i4", "int64" := "i8",
    "uint8" := "u1", "uint16" := "u2", "uint32" := "u4", "uint64" := "u8"
  ]

  /** `numpy_to_exodus_dtype[name]`: fails for any dtype the table does not list. */
  function ExodusDtype(name: string): Result<string>
  {
    if name in NumpyToExodusDtype then Ok(NumpyToExodusDtype[name]) else Err(UnsupportedDtype(name))
  }

  /** The numpy dtypes the table covers: a kind and a bit width. */
  predicate IsTableDtype(kind: string, bits: nat)
  {
    (kind == "float" && (bits == 32 || bits == 64)) ||
    ((kind == "int" || kind == "uint") && (bits == 8 || bits == 16 || bits == 32 || bits == 64))
  }

  function KindLetter(kind: string): char
  {
    if kind == "float" then 'f' else if kind == "int" then 'i' else 'u'
  }

  /** Reference definition of the table: the code is the kind's letter and the width in bytes. */
  lemma CodeIsKindAndBytes(kind: string, bits: nat)
    requires IsTableDtype(kind, bits)
    ensures ExodusDtype(kind + NatToString(bits)) == Ok([KindLetter(kind)] + NatToString(bits / 8))
  {
    assert NatToString(8) == "8" && NatToString(16) == "16";
    assert NatToString(32) == "32" && NatToString(64) == "64";
    assert NatToString(1) == "1" && NatToString(2) == "2" && NatToString(4) == "4";
    if kind == "float" && bits == 32 { assert kind + NatToString(bits) == "float32";
      assert [KindLetter(kind)] + NatToString(bits / 8) == "f4"; }
    else if kind == "float" && bits == 64 { assert kind + NatToString(bits) == "float64";
      assert [KindLetter(kind)] + NatToString(bits / 8) == "f8"; }
    else if kind == "int" && bits == 8 { assert kind + NatToString(bits) == "int8";
      assert [KindLetter(kind)] + NatToString(bits / 8) == "i1"; }
    else if kind == "int" && bits == 16 { assert kind + NatToString(bits) == "int16";
      assert [KindLetter(kind)] + NatToString(bits / 8) == "i2"; }
    else if kind == "int" && bits == 32 { assert kind + NatToString(bits) == "int32";
      assert [KindLetter(kind)] + NatToString(bits / 8) == "i4"; }
    else if kind == "int" && bits == 64 { assert kind + NatToString(bits) == "int64";
      assert [KindLetter(kind)] + NatToString(bits / 8) == "i8"; }
    else if kind == "uint" && bits == 8 { assert kind + NatToString(bits) == "uint8";
      assert [KindLetter(kind)] + NatToString(bits / 8) == "u1"; }
    else if kind == "uint" && bits == 16 { assert kind + NatToString(bits) == "uint16";
      assert [KindLetter(kind)] + NatToString(bits / 8) == "u2"; }
    else if kind == "uint" && bits == 32 { assert kind + NatToString(bits) == "uint32";
      assert [KindLetter(kind)] + NatToString(bits / 8) == "u4"; }
    else { assert kind + NatToString(bits) == "uint64";
      assert [KindLetter(kind)] + NatToString(bits / 8) == "u8"; }
  }

  /** Nothing outside those kinds and widths has a code. */
  lemma OnlyTableDtypes(name: string)
    requires ExodusDtype(name).Ok?
    ensures exists kind, bits :: IsTableDtype(kind, bits) && name == kind + NatToString(bits)
  {
    assert NatToString(8) == "8" && NatToString(16) == "16";
    assert NatToString(32) == "32" && NatToString(64) == "64";
    if name == "float32" { assert IsTableDtype("float", 32) && name == "float" + NatToString(32); }
    else if name == "float64" { assert IsTableDtype("float", 64) && name == "float" + NatToString(64); }
    else if name == "int8" { assert IsTableDtype("int", 8) && name == "int" + NatToString(8); }
    else if name == "int16" { assert IsTableDtype("int", 16) && name == "int" + NatToString(16); }
    else if name == "int32" { assert IsTableDtype("int", 32) && name == "int" + NatToString(32); }
    else if name == "int64" { assert IsTableDtype("int", 64) && name == "int" + NatToString(64); }
    else if name == "uint8" { assert IsTableDtype("uint", 8) && name == "uint" + NatToString(8); }
    else if name == "uint16" { assert IsTableDtype("uint", 16) && name == "uint" + NatToString(16); }
    else if name == "uint32" { assert IsTableDtype("uint", 32) && name == "uint" + NatToString(32); }
    else { assert IsTableDtype("uint", 64) && name == "uint" + NatToString(64); }
  }

  // ---------------------------------------------------------------------------------------
  // Fixed-width integer arithmetic

  /**
   * The values an integer type code holds: its lowest value and how many values there are.
   * The floating-point codes and the character code have no such range.
   */
  function IntegerRange(code: string): (r: Option<(int, nat)>)
    ensures r.Some? ==> r.value.1 > 0
  {
    if code == "i1" then Some((-0x80, 0x100))
    else if code == "i2" then Some((-0x8000, 0x1_0000))
    else if code == "i4" then Some((-0x8000_0000, 0x1_0000_0000))
    else if code == "i8" then Some((-0x8000_0000_0000_0000, 0x1_0000_0000_0000_0000))
    else if code == "u1" then Some((0, 0x100))
    else if code == "u2" then Some((0, 0x1_0000))
    else if code == "u4" then Some((0, 0x1_0000_0000))
    else if code == "u8" then Some((0, 0x1_0000_0000_0000_0000))
    else None
  }

  /** A value an array stored with type `code` can hold. */
  predicate Representable(code: string, x: int)
  {
    match IntegerRange(code)
    case None => true
    case Some(r) => r.0 <= x < r.0 + r.1
  }

  /**
   * The value numpy stores for the exact result `x` of an operation on an array of type `code`:
   * an integer type keeps `x` modulo its number of values, so a result past either end wraps
   * around to the other end; a floating-point type keeps `x`.
   */
  function Wrap(code: string, x: int): (y: int)
    ensures Representable(code, y)
    ensures Representable(code, x) ==> y == x
    ensures IntegerRange(code).Some? ==> (x - y) % IntegerRange(code).value.1 == 0
  {
    match IntegerRange(code)
    case None => x
    case Some(r) => r.0 + (x - r.0) % r.1
  }

  /** Two results that differ by a multiple of the type's size are stored as the same value. */
  lemma WrapCongruent(code: string, x: int, z: int)
    requires Representable(code, x)
    requires if IntegerRange(code).Some? then (z - x) % IntegerRange(code).value.1 == 0 else z == x
    ensures Wrap(code, z) == x
  {
    if IntegerRange(code).Some? {
      var r := IntegerRange(code).value;
      var q := (z - x) / r.1;
      assert z - x == q * r.1 + (z - x) % r.1;
      ModUnique(z - r.0, q, r.1, x - r.0);
      assert Wrap(code, z) == r.0 + (z - r.0) % r.1;
    }
  }

  /** Euclidean division leaves the remainder `a` of `q * n + a` whenever `0 <= a < n`. */
  lemma ModUnique(x: int, q: int, n: int, a: int)
    requires 0 <= a < n && x == q * n + a
    ensures x % n == a
  {
    var p, r := x / n, x % n;
    assert x == p * n + r && 0 <= r < n;
    assert (p - q) * n == a - r;
    if p > q {
      MulAtLeast(p - q, n);
    } else if p < q {
      MulAtLeast(q - p, n);
    }
  }

  lemma MulAtLeast(k: int, n: int)
    requires k >= 1 && n > 0
    ensures k * n >= n
  {
  }

  /** Undoing an addition in the type's arithmetic gives back every value the type holds. */
  lemma WrapBack(code: string, x: int, d: int)
    requires Representable(code, x)
    ensures Wrap(code, Wrap(code, x + d) - d) == x
  {
    var y := Wrap(code, x + d);
    if IntegerRange(code).Some? {
      var n := IntegerRange(code).value.1;
      var q := (x + d - y) / n;
      assert x + d - y == q * n;
      assert (y - d - x) == -q * n;
      assert (y - d - x) % n == 0;
    }
    WrapCongruent(code, x, y - d);
  }

  /** The ends of the 8-bit types: what `+ 1` and `- 1` store there. */
  lemma WrapAtEnds()
    ensures Wrap("u1", 255 + 1) == 0 && Wrap("u1", 0 - 1) == 255
    ensures Wrap("i1", 127 + 1) == -128 && Wrap("i1", -128 - 1) == 127
    ensures Wrap("f4", 255 + 1) == 256
  {
  }

  predicate GridRepresentable(code: string, g: Matrix<int>)
  {
    forall i, j :: 0 <= i < |g.rows| && 0 <= j < g.cols ==> Representable(code, g.rows[i][j])
  }

  /** `values + d` on a 2-D integer array stored with type `code`. */
  function ShiftAll(code: string, g: Matrix<int>, d: int): (h: Matrix<int>)
    ensures h.cols == g.cols && |h.rows| == |g.rows|
    ensures forall i, j :: 0 <= i < |g.rows| && 0 <= j < g.cols ==> h.rows[i][j] == Wrap(code, g.rows[i][j] + d)
  {
    Grid(g.cols, seq(|g.rows|, i requires 0 <= i < |g.rows| =>
                   seq(g.cols, j requires 0 <= j < g.cols => Wrap(code, g.rows[i][j] + d))))
  }

  /** `values + d` on a 1-D integer array stored with type `code`. */
  function ShiftEach(code: string, s: seq<int>, d: int): (t: seq<int>)
    ensures |t| == |s| && forall i :: 0 <= i < |s| ==> t[i] == Wrap(code, s[i] + d)
  {
    seq(|s|, i requires 0 <= i < |s| => Wrap(code, s[i] + d))
  }

  /** Shifting back undoes a shift of an array whose entries its type holds. */
  lemma ShiftAllBack(code: string, g: Matrix<int>, d: int)
    requires GridRepresentable(code, g)
    ensures ShiftAll(code, ShiftAll(code, g, d), -d) == g
  {
    var h := ShiftAll(code, ShiftAll(code, g, d), -d);
    forall i | 0 <= i < |g.rows|
      ensures h.rows[i] == g.rows[i]
    {
      forall j | 0 <= j < g.cols
        ensures h.rows[i][j] == g.rows[i][j]
      {
        WrapBack(code, g.rows[i][j], d);
      }
    }
  }
}
