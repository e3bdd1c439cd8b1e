/**
 * The small array and matrix algebra of
 * src/control/optimisation_engine/operation.py: `VariableArray` with its
 * row/column shape and elementwise operators, `VariableMatrix` stored
 * column-major, and `matmul`. Entries are numbers here.
 */
module Operation {
  import opened Wrappers
  import opened SeqUtil

  datatype ShapeType = Row | Column

  /** `VariableArray(var, shape_type)`. */
  datatype VariableArray = VariableArray(elems: seq<real>, shapeType: ShapeType)
  {
    /** `shape()`: `(n, 1)` for a row array, `(1, n)` for a column array. */
    function Shape(): (r: (nat, nat))
      ensures shapeType == Row ==> r == (|elems|, 1)
      ensures shapeType == Column ==> r == (1, |elems|)
    {
      if shapeType == Row then (|elems|, 1) else (1, |elems|)
    }

    /** `.T`: the same entries with the other shape type. */
    function T(): (r: VariableArray)
      ensures r.elems == elems && r.shapeType != shapeType
    {
      VariableArray(elems, if shapeType == Row then Column else Row)
    }
  }

  /** A new array built by an operator: always of the default row type. */
  function RowArray(elems: seq<real>): VariableArray
  {
    VariableArray(elems, Row)
  }

  /** The right operand of an array operator. */
  datatype Other = ListOf(xs: seq<real>) | ArrayOf(a: VariableArray) | Number(x: real)

  /** What `other[i]` reads, when `other` can be indexed at all. */
  function Subscript(o: Other): Option<seq<real>>
  {
    match o
    case ListOf(xs) => Some(xs)
    case ArrayOf(a) => Some(a.elems)
    case Number(_) => None
  }

  /**
   * `[f(e, other[i]) for i, e in enumerate(self)]`: an empty array never
   * touches `other`; a number cannot be indexed (`TypeError`); a shorter
   * `other` raises `IndexError`; a longer one is read only up to self's length.
   */
  function Elementwise(es: seq<real>, other: Other, f: (real, real) -> real): (r: Result<seq<real>>)
    ensures r.Ok? <==> |es| == 0 || (Subscript(other).Some? && |es| <= |Subscript(other).value|)
    ensures r.Ok? ==> |r.value| == |es|
    ensures r.Ok? ==> forall i :: 0 <= i < |es| ==> r.value[i] == f(es[i], Subscript(other).value[i])
    ensures r.Err? && Subscript(other).None? ==> r.error == TypeError
    ensures r.Err? && Subscript(other).Some? ==> r.error == IndexError
  {
    if |es| == 0 then Ok([])
    else match Subscript(other)
      case None => Err(TypeError)
      case Some(xs) =>
        if |xs| < |es| then Err(IndexError)
        else Ok(seq(|es|, i requires 0 <= i < |es| => f(es[i], xs[i])))
  }

  /** `self + other`. */
  function Add(self: VariableArray, other: Other): Result<VariableArray>
  {
    Elementwise(self.elems, other, (e, o) => e + o).MapOk(RowArray)
  }

  /** `other + self` (`__radd__`): `other[i] + e`. */
  function RAdd(self: VariableArray, other: Other): Result<VariableArray>
  {
    Elementwise(self.elems, other, (e, o) => o + e).MapOk(RowArray)
  }

  /** `self - other`. */
  function Sub(self: VariableArray, other: Other): Result<VariableArray>
  {
    Elementwise(self.elems, other, (e, o) => e - o).MapOk(RowArray)
  }

  /** `other - self` (`__rsub__`): `other[i] - e`, unlike the reflected scalar operators. */
  function RSub(self: VariableArray, other: Other): Result<VariableArray>
  {
    Elementwise(self.elems, other, (e, o) => o - e).MapOk(RowArray)
  }

  /** The products `xs[i] * es[i]` over the entries of `es`. */
  function Pairwise(xs: seq<real>, es: seq<real>): (r: seq<real>)
    requires |es| <= |xs|
    ensures |r| == |es| && forall i :: 0 <= i < |es| ==> r[i] == xs[i] * es[i]
  {
    seq(|es|, i requires 0 <= i < |es| => xs[i] * es[i])
  }

  /**
   * `self * other` and `other * self` (same body): by a list, the
   * one-element array holding `sum(other[i] * e)`; by a number, every
   * element scaled; by anything else, nothing (`None`).
   */
  function Mul(self: VariableArray, other: Other): (r: Result<Option<VariableArray>>)
    ensures other.ArrayOf? ==> r == Ok(None)
    ensures other.Number? ==> r.Ok? && r.value.Some? && |r.value.value.elems| == |self.elems|
    ensures other.ListOf? && |other.xs| < |self.elems| ==> r == Err(IndexError)
    ensures other.ListOf? && |self.elems| <= |other.xs| ==> r.Ok? && r.value.Some? && |r.value.value.elems| == 1
  {
    var n := |self.elems|;
    match other
    case ListOf(xs) =>
      if |xs| < n then Err(IndexError)
      else Ok(Some(RowArray([Sum(Pairwise(xs, self.elems))])))
    case Number(x) => Ok(Some(RowArray(seq(n, i requires 0 <= i < n => self.elems[i] * x))))
    case ArrayOf(_) => Ok(None)
  }

  // ------------------------------------------------------------- matrix

  /** `VariableMatrix(var, row_dim, col_dim)`; the dimensions are Python ints. */
  datatype VariableMatrix = VariableMatrix(elems: seq<real>, rows: int, cols: int)
  {
    /** `shape()`. */
    function Shape(): (int, int)
    {
      (rows, cols)
    }

    /** `[i, j]`: storage index `j * rows + i`, with Python list indexing. */
    function At(i: int, j: int): Result<real>
    {
      PyIndex(elems, j * rows + i)
    }

    /** `.T`: the same storage with the dimensions swapped. */
    function T(): (r: VariableMatrix)
      ensures r.elems == elems && r.Shape() == (cols, rows)
    {
      VariableMatrix(elems, cols, rows)
    }
  }

  /** The constructor's assertion: one stored entry per cell. */
  function MakeMatrix(elems: seq<real>, rows: int, cols: int): (r: Result<VariableMatrix>)
    ensures r.Ok? <==> |elems| == rows * cols
    ensures r.Ok? ==> r.value == VariableMatrix(elems, rows, cols)
    ensures r.Err? ==> r.error == AssertionError
  {
    if |elems| == rows * cols then Ok(VariableMatrix(elems, rows, cols)) else Err(AssertionError)
  }

  /** A matrix with non-negative dimensions that passed its constructor. */
  predicate WellShaped(m: VariableMatrix)
  {
    m.rows >= 0 && m.cols >= 0 && |m.elems| == m.rows * m.cols
  }

  lemma CellInRange(i: int, j: int, rows: int, cols: int)
    requires 0 <= i < rows && 0 <= j < cols
    ensures 0 <= j * rows + i < rows * cols
  {
    assert j * rows + i < (j + 1) * rows;
    assert (j + 1) * rows <= cols * rows;
  }

  /** Cell `[i, j]` of a well-shaped matrix, read from its column-major storage. */
  function Cell(m: VariableMatrix, i: nat, j: nat): real
    requires WellShaped(m) && i < m.rows && j < m.cols
  {
    CellInRange(i, j, m.rows, m.cols);
    m.elems[j * m.rows + i]
  }

  /** Cell `[i, j]` of a well-shaped matrix is stored column-major at `j * rows + i`. */
  lemma ColumnMajor(m: VariableMatrix, i: int, j: int)
    requires WellShaped(m) && 0 <= i < m.rows && 0 <= j < m.cols
    ensures m.At(i, j) == Ok(Cell(m, i, j))
  {
    var idx := j * m.rows + i;
    CellInRange(i, j, m.rows, m.cols);
    assert 0 <= idx < |m.elems|;
    assert m.At(i, j) == PyIndex(m.elems, idx);
  }

  /** The 3-by-2 matrix over `0..5` reads back `0..5` column by column. */
  lemma ColumnMajorExample()
    ensures var m := VariableMatrix([0.0, 1.0, 2.0, 3.0, 4.0, 5.0], 3, 2);
      m.At(0, 0) == Ok(0.0) && m.At(1, 0) == Ok(1.0) && m.At(2, 0) == Ok(2.0) &&
      m.At(0, 1) == Ok(3.0) && m.At(1, 1) == Ok(4.0) && m.At(2, 1) == Ok(5.0)
  {
  }

  /**
   * `.T` keeps the storage and swaps the dimensions, so it is a reshape
   * rather than a transpose: on the 3-by-2 matrix over `0..5`, `T[0, 1]`
   * is 2 while the transpose would hold `[1, 0]`, which is 1.
   */
  lemma TransposeIsReshape()
    ensures var m := VariableMatrix([0.0, 1.0, 2.0, 3.0, 4.0, 5.0], 3, 2);
      MakeMatrix(m.T().elems, m.T().rows, m.T().cols).Ok? &&
      m.T().At(0, 1) == Ok(2.0) && m.At(1, 0) == Ok(1.0)
  {
  }

  /** `.T` of a well-shaped matrix reads cell `[i, j]` from storage index `i * cols + j`. */
  lemma TransposeCell(m: VariableMatrix, i: int, j: int)
    requires WellShaped(m) && 0 <= i < m.cols && 0 <= j < m.rows
    ensures 0 <= j * m.cols + i < |m.elems| && m.T().At(i, j) == Ok(m.elems[j * m.cols + i])
  {
    var idx := j * m.cols + i;
    CellInRange(i, j, m.cols, m.rows);
    assert m.cols * m.rows == m.rows * m.cols;
    assert 0 <= idx < |m.elems|;
    assert m.T().At(i, j) == PyIndex(m.elems, idx);
  }

  // ------------------------------------------------------------- matmul

  /** `mat_var[i, j] * array_var[j]`. */
  function Product(m: VariableMatrix, a: VariableArray, i: int, j: int): Result<real>
  {
    match m.At(i, j)
    case Err(e) => Err(e)
    case Ok(x) =>
      match PyIndex(a.elems, j)
      case Err(e) => Err(e)
      case Ok(y) => Ok(x * y)
  }

  /** `sum([mat_var[i, j] * array_var[j] for j in range(0, k)])`. */
  function RowSum(m: VariableMatrix, a: VariableArray, i: int, k: nat): Result<real>
  {
    if k == 0 then Ok(0.0)
    else match RowSum(m, a, i, k - 1)
      case Err(e) => Err(e)
      case Ok(s) =>
        match Product(m, a, i, k - 1)
        case Err(e) => Err(e)
        case Ok(p) => Ok(s + p)
  }

  /** The rows `0 .. k - 1` of the product, each summed over `width` columns. */
  function Rows(m: VariableMatrix, a: VariableArray, width: nat, k: nat): Result<seq<real>>
  {
    if k == 0 then Ok([])
    else match Rows(m, a, width, k - 1)
      case Err(e) => Err(e)
      case Ok(rs) =>
        match RowSum(m, a, k - 1, width)
        case Err(e) => Err(e)
        case Ok(s) => Ok(rs + [s])
  }

  /** `matmul`: asserts `cols == shape()[0]`, then one summed row per matrix row, as a row array. */
  function Matmul(m: VariableMatrix, a: VariableArray): (r: Result<VariableArray>)
    ensures m.cols != a.Shape().0 ==> r == Err(AssertionError)
  {
    if m.cols != a.Shape().0 then Err(AssertionError)
    else Rows(m, a, a.Shape().0, if m.rows < 0 then 0 else m.rows).MapOk(RowArray)
  }

  /** The products `M[i, j] · v[j]` for the first `k` columns. */
  function Products(m: VariableMatrix, v: seq<real>, i: nat, k: nat): (r: seq<real>)
    requires WellShaped(m) && i < m.rows && k <= m.cols && k <= |v|
    ensures |r| == k && forall j :: 0 <= j < k ==> r[j] == Cell(m, i, j) * v[j]
  {
    seq(k, j requires 0 <= j < k => Cell(m, i, j) * v[j])
  }

  /** The mathematical product `Σ_j M[i, j] · v[j]` over the first `k` columns. */
  function DotRow(m: VariableMatrix, v: seq<real>, i: nat, k: nat): real
    requires WellShaped(m) && i < m.rows && k <= m.cols && k <= |v|
  {
    Sum(Products(m, v, i, k))
  }

  /** The first `k` entries of the mathematical product `M · v`. */
  function ProductRows(m: VariableMatrix, v: seq<real>, k: nat): (r: seq<real>)
    requires WellShaped(m) && k <= m.rows && |v| == m.cols
    ensures |r| == k && forall i :: 0 <= i < k ==> r[i] == DotRow(m, v, i, m.cols)
  {
    seq(k, i requires 0 <= i < k => DotRow(m, v, i, m.cols))
  }

  /** On a cell inside the matrix and the array, `mat_var[i, j] * array_var[j]` is the product of the two entries. */
  lemma ProductCell(m: VariableMatrix, a: VariableArray, i: nat, j: nat)
    requires WellShaped(m) && i < m.rows && j < m.cols && j < |a.elems|
    ensures Product(m, a, i, j).Ok?
    ensures Product(m, a, i, j).value == Cell(m, i, j) * a.elems[j]
  {
    ColumnMajor(m, i, j);
    assert PyIndex(a.elems, j) == Ok(a.elems[j]);
  }

  lemma {:induction false} RowSumSpec(m: VariableMatrix, a: VariableArray, i: nat, k: nat)
    requires WellShaped(m) && i < m.rows && k <= m.cols && k <= |a.elems|
    ensures RowSum(m, a, i, k).Ok?
    ensures RowSum(m, a, i, k).value == DotRow(m, a.elems, i, k)
  {
    if k > 0 {
      RowSumSpec(m, a, i, k - 1);
      ProductCell(m, a, i, k - 1);
      var ps := Products(m, a.elems, i, k);
      assert ps[..k - 1] == Products(m, a.elems, i, k - 1);
      assert Sum(ps) == Sum(ps[..k - 1]) + ps[k - 1];
      assert RowSum(m, a, i, k).value == RowSum(m, a, i, k - 1).value + Product(m, a, i, k - 1).value;
    }
  }

  lemma {:induction false} RowsSpec(m: VariableMatrix, a: VariableArray, k: nat)
    requires WellShaped(m) && k <= m.rows && |a.elems| == m.cols
    ensures Rows(m, a, m.cols, k) == Ok(ProductRows(m, a.elems, k))
  {
    if k > 0 {
      RowsSpec(m, a, k - 1);
      RowSumSpec(m, a, k - 1, m.cols);
      assert ProductRows(m, a.elems, k) == ProductRows(m, a.elems, k - 1) + [DotRow(m, a.elems, k - 1, m.cols)];
    }
  }

  /**
   * On a well-shaped matrix and a row array as long as it has columns,
   * `matmul` returns the row array `r[i] = Σ_j M[i, j] · v[j]`.
   */
  lemma MatmulSpec(m: VariableMatrix, a: VariableArray)
    requires WellShaped(m) && a.shapeType == Row && |a.elems| == m.cols
    ensures Matmul(m, a) == Ok(RowArray(ProductRows(m, a.elems, m.rows)))
  {
    RowsSpec(m, a, m.rows);
  }

  /** The product of the 3-by-2 matrix `[[0, 3], [1, 4], [2, 5]]` with `[1, 2]` is `[6, 9, 12]`. */
  lemma MatmulExample()
    ensures Matmul(VariableMatrix([0.0, 1.0, 2.0, 3.0, 4.0, 5.0], 3, 2), RowArray([1.0, 2.0]))
         == Ok(RowArray([6.0, 9.0, 12.0]))
  {
    var m := VariableMatrix([0.0, 1.0, 2.0, 3.0, 4.0, 5.0], 3, 2);
    var a := RowArray([1.0, 2.0]);
    MatmulSpec(m, a);
    assert Products(m, a.elems, 0, 2) == [0.0, 6.0];
    assert Products(m, a.elems, 1, 2) == [1.0, 8.0];
    assert Products(m, a.elems, 2, 2) == [2.0, 10.0];
    assert Sum([0.0, 6.0]) == 6.0 && Sum([1.0, 8.0]) == 9.0 && Sum([2.0, 10.0]) == 12.0;
    assert ProductRows(m, a.elems, 3) == [6.0, 9.0, 12.0];
  }

  // ------------------------------------------------------------- array properties

  /** `.T` toggles the shape type, swaps the shape, and twice is the identity. */
  lemma TransposeArray(a: VariableArray)
    ensures a.T().Shape() == (a.Shape().1, a.Shape().0)
    ensures a.T().T() == a
  {
  }

  /** Subtracting what was added gives back the original entries, as a row array. */
  lemma AddThenSub(a: VariableArray, xs: seq<real>)
    requires |a.elems| <= |xs|
    ensures Add(a, ListOf(xs)).Ok?
    ensures Sub(Add(a, ListOf(xs)).value, ListOf(xs)) == Ok(RowArray(a.elems))
  {
    var s := Add(a, ListOf(xs)).value;
    var d := Sub(s, ListOf(xs)).value;
    assert d.elems == a.elems;
  }

  /** The reflected difference is the negated difference, element by element. */
  lemma RSubNegatesSub(a: VariableArray, other: Other)
    requires Sub(a, other).Ok?
    ensures RSub(a, other).Ok?
    ensures forall i :: 0 <= i < |a.elems| ==> RSub(a, other).value.elems[i] == -Sub(a, other).value.elems[i]
  {
  }

  /**
   * Multiplying by a list is the product of the one-row matrix holding
   * that list with the array: both give the single dot product.
   */
  lemma DotIsMatmul(a: VariableArray, xs: seq<real>)
    requires a.shapeType == Row && |xs| == |a.elems|
    ensures Mul(a, ListOf(xs)).Ok? && Mul(a, ListOf(xs)).value.Some?
    ensures Matmul(VariableMatrix(xs, 1, |xs|), a) == Ok(Mul(a, ListOf(xs)).value.value)
  {
    var m := VariableMatrix(xs, 1, |xs|);
    var n := |xs|;
    MatmulSpec(m, a);
    var ps, qs := Products(m, a.elems, 0, n), Pairwise(xs, a.elems);
    forall j | 0 <= j < n
      ensures ps[j] == qs[j]
    {
      assert j * m.rows + 0 == j;
      assert Cell(m, 0, j) == xs[j];
    }
    assert ps == qs;
    assert ProductRows(m, a.elems, 1) == [DotRow(m, a.elems, 0, n)];
  }

  /** Scaling by 1 keeps the entries. */
  lemma ScaleByOne(a: VariableArray)
    ensures Mul(a, Number(1.0)) == Ok(Some(RowArray(a.elems)))
  {
    assert Mul(a, Number(1.0)).value.value.elems == a.elems;
  }
}
