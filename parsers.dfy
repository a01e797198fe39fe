/** `eesizer/analysis/parsers.py`: reading the two-column and three-column
    tables ngspice's `wrdata` writes. `np.genfromtxt` is a parameter: the
    array it reads from the path, or `None` where it raises. */
module Parsers {
  import opened Wrappers
  import Text

  /** `real + 1j * imag` */
  datatype Complex = Complex(re: real, im: real)

  /** A numpy array of reals as `genfromtxt` returns it: a single value, a
      one-dimensional array, or a list of rows that share one width. */
  datatype NdArray = Scalar(x: real) | Vector(items: seq<real>) | Matrix(rows: seq<seq<real>>, width: nat)
  {
    predicate Rectangular() {
      Matrix? ==> forall i :: 0 <= i < |rows| ==> |rows[i]| == width
    }
  }

  type Table = a: NdArray | a.Rectangular() witness Scalar(0.0)

  /** The `IndexError`s that `data[:, c]` raises. */
  datatype IndexError = TooManyIndices(ndim: nat) | OutOfBounds(index: nat, size: nat)
  {
    /** `str(e)` as numpy words it. */
    function Message(): string {
      match this
      case TooManyIndices(d) =>
        "too many indices for array: array is " + Text.NatToString(d) + "-dimensional, but 2 were indexed"
      case OutOfBounds(c, n) =>
        "index " + Text.NatToString(c) + " is out of bounds for axis 1 with size " + Text.NatToString(n)
    }
  }

  /** `np.zeros((2, 2))` */
  const TwoByTwoZeros: Table := Matrix([[0.0, 0.0], [0.0, 0.0]], 2)

  /** `safe_genfromtxt(path, ...)`, given what `genfromtxt` made of the path. */
  function SafeGenfromtxt(read: Option<Table>): Table {
    if read.Some? then read.value else TwoByTwoZeros
  }

  /** `data.reshape(1, -1)` when `data.ndim == 1`. */
  function AsRows(data: Table): (r: Table)
    ensures data.Vector? ==> r == Matrix([data.items], |data.items|)
    ensures !data.Vector? ==> r == data
  {
    if data.Vector? then Matrix([data.items], |data.items|) else data
  }

  /** `data[:, c]` */
  function Column(data: Table, c: nat): (r: Result<seq<real>, IndexError>)
    ensures r.Success? <==> data.Matrix? && c < data.width
    ensures r.Success? ==> |r.value| == |data.rows| && forall i :: 0 <= i < |data.rows| ==> r.value[i] == data.rows[i][c]
    ensures data.Scalar? ==> r == Failure(TooManyIndices(0))
    ensures data.Vector? ==> r == Failure(TooManyIndices(1))
    ensures data.Matrix? && c >= data.width ==> r == Failure(OutOfBounds(c, data.width))
  {
    match data
    case Scalar(_) => Failure(TooManyIndices(0))
    case Vector(_) => Failure(TooManyIndices(1))
    case Matrix(rows, width) =>
      if c < width then Success(seq(|rows|, i requires 0 <= i < |rows| => rows[i][c]))
      else Failure(OutOfBounds(c, width))
  }

  /** `np.zeros_like(x)` */
  function ZerosLike(x: seq<real>): (r: seq<real>)
    ensures |r| == |x| && forall i :: 0 <= i < |r| ==> r[i] == 0.0
  {
    seq(|x|, _ => 0.0)
  }

  /** `real + 1j * imag`, element by element. */
  function Combine(re: seq<real>, im: seq<real>): (r: seq<Complex>)
    requires |re| == |im|
    ensures |r| == |re| && forall i :: 0 <= i < |r| ==> r[i] == Complex(re[i], im[i])
  {
    seq(|re|, i requires 0 <= i < |re| => Complex(re[i], im[i]))
  }

  /** `parse_ac_dat(path)`: the frequencies and the complex response. */
  function ParseAcDat(read: Option<Table>): Result<(seq<real>, seq<Complex>), IndexError> {
    var data := AsRows(SafeGenfromtxt(read));
    var freq :- Column(data, 0);
    var re :- Column(data, 1);
    var im := if data.width > 2 then Column(data, 2).value else ZerosLike(re);
    Success((freq, Combine(re, im)))
  }

  /** `parse_tran_dat(path)`: the time points and the output samples. */
  function ParseTranDat(read: Option<Table>): Result<(seq<real>, seq<real>), IndexError> {
    var data := AsRows(SafeGenfromtxt(read));
    var t :- Column(data, 0);
    var out := if data.width > 1 then Column(data, 1).value else ZerosLike(t);
    Success((t, out))
  }

  /** AC parsing succeeds exactly on a table (or a single row) of at least
      two columns. Then it yields one frequency and one sample per row: the
      frequency from column 0, the real part from column 1 and the imaginary
      part from column 2, or zero where there is no third column. */
  lemma ParseAcShape(read: Option<Table>)
    ensures var data := AsRows(SafeGenfromtxt(read));
      var r := ParseAcDat(read);
      && (r.Success? <==> data.Matrix? && data.width >= 2)
      && (r.Success? ==>
        && |r.value.0| == |r.value.1| == |data.rows|
        && forall i :: 0 <= i < |data.rows| ==>
          && r.value.0[i] == data.rows[i][0]
          && r.value.1[i].re == data.rows[i][1]
          && r.value.1[i].im == (if data.width > 2 then data.rows[i][2] else 0.0))
  {
  }

  /** Transient parsing succeeds exactly on a table (or a single row) of at
      least one column; the output is column 1, or zeros shaped like the time
      column where there is no second column. */
  lemma ParseTranShape(read: Option<Table>)
    ensures var data := AsRows(SafeGenfromtxt(read));
      var r := ParseTranDat(read);
      && (r.Success? <==> data.Matrix? && data.width >= 1)
      && (r.Success? ==>
        && |r.value.0| == |r.value.1| == |data.rows|
        && forall i :: 0 <= i < |data.rows| ==>
          && r.value.0[i] == data.rows[i][0]
          && r.value.1[i] == (if data.width > 1 then data.rows[i][1] else 0.0))
  {
  }

  /** A file that cannot be read gives two zero samples, not an empty
      vector. */
  lemma UnreadableFileGivesTwoZeros()
    ensures ParseAcDat(None) == Success(([0.0, 0.0], [Complex(0.0, 0.0), Complex(0.0, 0.0)]))
    ensures ParseTranDat(None) == Success(([0.0, 0.0], [0.0, 0.0]))
  {
    var z := TwoByTwoZeros;
    assert Column(z, 0).value == [0.0, 0.0];
    assert Column(z, 1).value == [0.0, 0.0];
    assert ZerosLike([0.0, 0.0]) == [0.0, 0.0];
    assert Combine([0.0, 0.0], [0.0, 0.0]) == [Complex(0.0, 0.0), Complex(0.0, 0.0)];
  }

  /** A single row of values is read as one sample. */
  lemma SingleRowIsOneSample(items: seq<real>)
    requires |items| >= 2
    ensures ParseAcDat(Some(Vector(items))) ==
      Success(([items[0]], [Complex(items[1], if |items| > 2 then items[2] else 0.0)]))
    ensures ParseTranDat(Some(Vector(items))) == Success(([items[0]], [items[1]]))
  {
    var data := Matrix([items], |items|);
    assert Column(data, 0).value == [items[0]];
    assert Column(data, 1).value == [items[1]];
    var im := if |items| > 2 then items[2] else 0.0;
    if |items| > 2 {
      assert Column(data, 2).value == [items[2]];
    } else {
      assert ZerosLike([items[1]]) == [0.0];
    }
    assert Combine([items[1]], [im]) == [Complex(items[1], im)];
  }
}
