/** The shape metadata and row access of `etl::multi_array`, and the
    shape-copying constructor of `etl::multi_array_view`.

    `multi_array<T, S0, S1, S2, S3>` takes four size parameters, the last
    three defaulting to zero. Which of its four definitions applies is
    decided by the trailing zeros: `S3 != 0` selects the 4-dimension
    template, otherwise `S2 != 0` the 3-dimension specialisation, otherwise
    `S1 != 0` the 2-dimension one, otherwise the 1-dimension one. A
    D-dimension array stores `S0` rows, each a (D-1)-dimension array over
    the remaining sizes; the 1-dimension array stores `S0` elements. The
    nesting is laid out contiguously, so the model keeps all elements in
    one array in row-major order and a row is a block of that array. */
module MultiArrays {

  /** The template's size parameters `S0..S3`. */
  datatype Shape = Shape(s0: nat, s1: nat, s2: nat, s3: nat)

  /** The size parameters as a sequence. */
  function Params(sh: Shape): (p: seq<nat>)
    ensures |p| == 4
  {
    [sh.s0, sh.s1, sh.s2, sh.s3]
  }

  /** `DIMENSIONS` of the definition the parameters select. */
  function Dimensions(sh: Shape): (d: nat)
    ensures 1 <= d <= 4
    ensures d == 4 <==> sh.s3 != 0
    ensures forall k :: d <= k < 4 ==> Params(sh)[k] == 0
    ensures d > 1 ==> Params(sh)[d - 1] != 0
  {
    if sh.s3 != 0 then 4 else if sh.s2 != 0 then 3 else if sh.s1 != 0 then 2 else 1
  }

  /** The constant `SIZEk` as each definition declares it: the parameter
      itself up to the last dimension, the literal 0 beyond it. */
  function SizeConstant(sh: Shape, k: nat): (n: nat)
    requires k < 4
    ensures k >= Dimensions(sh) ==> n == 0
  {
    match Dimensions(sh)
    case 4 => [sh.s0, sh.s1, sh.s2, sh.s3][k]
    case 3 => [sh.s0, sh.s1, sh.s2, 0][k]
    case 2 => [sh.s0, sh.s1, 0, 0][k]
    case _ => [sh.s0, 0, 0, 0][k]
  }

  /** Every `SIZEk` equals the parameter `Sk`, and every one beyond the
      array's dimensions is 0. */
  lemma SizeConstantIsParam(sh: Shape, k: nat)
    requires k < 4
    ensures SizeConstant(sh, k) == Params(sh)[k]
    ensures k >= Dimensions(sh) ==> SizeConstant(sh, k) == 0
  {
  }

  /** `size()`: the number of rows, in every definition. */
  function Size(sh: Shape): (n: nat)
    ensures n == SizeConstant(sh, 0)
  {
    sh.s0
  }

  /** `size(i)` of the 4-dimension array, the only definition that has it. */
  function SizeAt(sh: Shape, i: nat): (n: nat)
    requires Dimensions(sh) == 4
    ensures i < 4 ==> n == SizeConstant(sh, i) && n == Params(sh)[i]
    ensures i >= 4 ==> n == 0
  {
    match i
    case 0 => sh.s0
    case 1 => sh.s1
    case 2 => sh.s2
    case 3 => sh.s3
    case _ => 0
  }

  /** The shape of a row (the nested `type`): the array over the remaining
      sizes. */
  function RowShape(sh: Shape): (row: Shape)
    requires Dimensions(sh) >= 2
    ensures Dimensions(row) == Dimensions(sh) - 1
    ensures Params(row) == Params(sh)[1..] + [0]
  {
    Shape(sh.s1, sh.s2, sh.s3, 0)
  }

  /** The shape `k` levels down (`type`, `type2`, `type3`). */
  function Nested(sh: Shape, k: nat): (n: Shape)
    requires k < Dimensions(sh)
    ensures Dimensions(n) == Dimensions(sh) - k
    decreases k
  {
    if k == 0 then sh else Nested(RowShape(sh), k - 1)
  }

  /** `dimensions(i)` of the 4-dimension array: `DIMENSIONS` of the
      i-times-nested row type, or 0 beyond the last. */
  function DimensionsAt(sh: Shape, i: nat): (d: nat)
    requires Dimensions(sh) == 4
    ensures i < 4 ==> d == 4 - i
    ensures i >= 4 ==> d == 0
  {
    match i
    case 0 => Dimensions(sh)
    case 1 => Dimensions(RowShape(sh))
    case 2 => Dimensions(RowShape(RowShape(sh)))
    case 3 => Dimensions(RowShape(RowShape(RowShape(sh))))
    case _ => 0
  }

  /** `dimensions(i)` counts down from 4: it is `4 - i` for `i` in 0..3 and
      0 otherwise, and it is the dimension count of the nested row type. */
  lemma DimensionsAtCountsDown(sh: Shape, i: nat)
    requires Dimensions(sh) == 4
    ensures i < 4 ==> DimensionsAt(sh, i) == 4 - i == Dimensions(Nested(sh, i))
    ensures i >= 4 ==> DimensionsAt(sh, i) == 0
  {
    if i < 4 {
      var n := Nested(sh, i);
      if i >= 1 {
        assert Nested(sh, 1) == RowShape(sh);
      }
      if i >= 2 {
        assert Nested(sh, 2) == Nested(RowShape(sh), 1) == RowShape(RowShape(sh));
      }
      if i == 3 {
        assert Nested(sh, 3) == Nested(RowShape(RowShape(sh)), 1);
      }
    }
  }

  /** The sizes of the dimensions the array actually has. */
  function Extents(sh: Shape): (e: seq<nat>)
    ensures |e| == Dimensions(sh)
    ensures forall k :: 0 <= k < |e| ==> e[k] == SizeConstant(sh, k)
  {
    Params(sh)[..Dimensions(sh)]
  }

  /** The number of `T` elements the array holds. */
  function Count(sh: Shape): nat
    decreases Dimensions(sh)
  {
    if Dimensions(sh) == 1 then sh.s0 else sh.s0 * Count(RowShape(sh))
  }

  /** The product of a sequence of sizes. */
  function Product(e: seq<nat>): nat
  {
    if e == [] then 1 else e[0] * Product(e[1..])
  }

  /** The element count is the product of the extents. */
  lemma {:induction false} CountIsProduct(sh: Shape)
    ensures Count(sh) == Product(Extents(sh))
    decreases Dimensions(sh)
  {
    var e := Extents(sh);
    if Dimensions(sh) == 1 {
      assert e[1..] == [];
    } else {
      var row := RowShape(sh);
      CountIsProduct(row);
      assert Extents(row) == e[1..];
    }
  }

  /** A reference to a (sub-)array inside the storage of a multi_array: its
      shape and the position of its first element. The whole array is
      `Slice(shape, 0)`; `operator[]` on a slice yields a row slice. */
  datatype Slice = Slice(shape: Shape, base: nat)

  /** The storage positions a slice covers. */
  predicate Covers(r: Slice, k: int)
  {
    r.base <= k < r.base + Count(r.shape)
  }

  lemma RowBlockFits(n: nat, c: nat, i: nat)
    requires i < n
    ensures i * c + c <= n * c
  {
    assert (n - i) * c >= c by {
      assert n - i >= 1;
    }
    assert n * c == i * c + (n - i) * c;
  }

  lemma RowBlocksApart(c: nat, i: nat, j: nat)
    requires i < j
    ensures i * c + c <= j * c
  {
    assert j * c == i * c + (j - i) * c;
    assert (j - i) * c >= c by {
      assert j - i >= 1;
    }
  }

  /** `operator[](i)` of an array with two or more dimensions: row `i`, an
      array over the remaining sizes, lying inside the parent's block. */
  function Row(r: Slice, i: nat): (row: Slice)
    requires Dimensions(r.shape) >= 2 && i < r.shape.s0
    ensures row.shape == RowShape(r.shape)
    ensures r.base <= row.base && row.base + Count(row.shape) <= r.base + Count(r.shape)
    ensures forall k :: Covers(row, k) ==> Covers(r, k)
  {
    var c := Count(RowShape(r.shape));
    RowBlockFits(r.shape.s0, c, i);
    Slice(RowShape(r.shape), r.base + i * c)
  }

  /** Distinct rows of an array occupy disjoint storage, so a write through
      one row never shows through another. */
  lemma RowsDisjoint(r: Slice, i: nat, j: nat, k: int)
    requires Dimensions(r.shape) >= 2 && i < r.shape.s0 && j < r.shape.s0 && i != j
    ensures !(Covers(Row(r, i), k) && Covers(Row(r, j), k))
  {
    var c := Count(RowShape(r.shape));
    if i < j {
      RowBlocksApart(c, i, j);
    } else {
      RowBlocksApart(c, j, i);
    }
  }

  /** `operator[](i)` of a 1-dimension array: the storage position of
      element `i`, inside the array's block. */
  function Element(r: Slice, i: nat): (k: nat)
    requires Dimensions(r.shape) == 1 && i < r.shape.s0
    ensures Covers(r, k)
  {
    r.base + i
  }

  /** The storage of one `multi_array<T, S0, S1, S2, S3>`. */
  class MultiArray<T(0)> {
    const shape: Shape
    /** Every element, in row-major order. */
    const data: array<T>

    ghost predicate Valid()
      reads this
    {
      data.Length == Count(shape)
    }

    /** A slice that lies inside this array's storage. */
    predicate Within(r: Slice)
      reads this
    {
      r.base + Count(r.shape) <= Count(shape)
    }

    /** A new array of the given shape, every element default-initialised. */
    constructor (sh: Shape)
      ensures Valid() && shape == sh && fresh(data)
    {
      shape := sh;
      data := new T[Count(sh)];
    }

    /** The whole array as a slice. */
    function Whole(): (r: Slice)
      reads this
      ensures Within(r) && r.shape == shape
    {
      Slice(shape, 0)
    }

    /** The const `operator[]` of a 1-dimension slice: reads element `i`. */
    function Get(r: Slice, i: nat): (v: T)
      reads this, data
      requires Valid() && Within(r)
      requires Dimensions(r.shape) == 1 && i < r.shape.s0
      ensures v == data[..][Element(r, i)]
    {
      data[Element(r, i)]
    }

    /** Assignment through the `T&` that `operator[]` of a 1-dimension slice
        returns: element `i` of `r` becomes `v`, and nothing else changes. */
    method Set(r: Slice, i: nat, v: T)
      requires Valid() && Within(r)
      requires Dimensions(r.shape) == 1 && i < r.shape.s0
      modifies data
      ensures Valid()
      ensures data[..] == old(data[..])[Element(r, i) := v]
      ensures Get(r, i) == v
    {
      data[Element(r, i)] := v;
    }
  }

  /** A write anywhere inside row `j` of `r` (at any depth of nesting:
      every row and element lies inside its parent's block) leaves every
      other row of `r` as it was. */
  lemma WriteStaysInRow<T>(r: Slice, j: nat, w: nat, before: seq<T>, v: T, other: nat, k: nat)
    requires Dimensions(r.shape) >= 2 && j < r.shape.s0 && Covers(Row(r, j), w)
    requires other < r.shape.s0 && other != j
    requires Covers(Row(r, other), k) && w < |before| && k < |before|
    ensures before[w := v][k] == before[k]
  {
    RowsDisjoint(r, j, other, k);
  }

  /** `multi_array_view`: the shape constants it copies from the array it
      wraps (the data pointer is not part of this model). */
  datatype View = View(dim: Uint8, size0: nat, size1: nat, size2: nat, size3: nat)
  {
    /** `dimensions()` of the view: the stored count, widened from its
        8-bit field. */
    function Dimensions(): (d: nat)
      ensures d < 256 && d == dim as nat
    {
      dim as nat
    }
  }

  /** The `uint_least8_t` the view stores its dimension count in. */
  newtype Uint8 = x: int | 0 <= x < 256

  /** The view's constructor: copies `DIMENSIONS` and `SIZE0..SIZE3`. */
  function ViewOf(sh: Shape): (v: View)
    ensures v.Dimensions() == Dimensions(sh)
    ensures [v.size0, v.size1, v.size2, v.size3] == Params(sh)
  {
    View(Dimensions(sh) as Uint8, SizeConstant(sh, 0), SizeConstant(sh, 1),
         SizeConstant(sh, 2), SizeConstant(sh, 3))
  }

  /** The checks of the 4-dimension test array `multi_array<int, 2, 3, 4, 5>`. */
  lemma Data4Metadata()
    ensures Size(Shape(2, 3, 4, 5)) == 2 && Dimensions(Shape(2, 3, 4, 5)) == 4
    ensures forall k :: 0 <= k < 4 ==> SizeConstant(Shape(2, 3, 4, 5), k) == k + 2
    ensures forall i :: 0 <= i < 4 ==> SizeAt(Shape(2, 3, 4, 5), i) == i + 2
    ensures forall i :: 0 <= i < 4 ==> DimensionsAt(Shape(2, 3, 4, 5), i) == 4 - i
  {
  }

  /** The views of the four test arrays report 1, 2, 3 and 4 dimensions. */
  lemma ViewsOfTestArrays()
    ensures ViewOf(Shape(2, 0, 0, 0)).Dimensions() == 1
    ensures ViewOf(Shape(2, 3, 0, 0)).Dimensions() == 2
    ensures ViewOf(Shape(2, 3, 4, 0)).Dimensions() == 3
    ensures ViewOf(Shape(2, 3, 4, 5)).Dimensions() == 4
  {
  }

  /** Writes through nested `operator[]` on a 2 x 3 array: after
      `a[0][1] = u` and then `a[1][2] = v`, both elements read back what was
      written to them: the second write did not reach row 0. */
  method WriteThroughRows(u: int, v: int) returns (first: int, second: int)
    ensures first == u && second == v
  {
    var a := new MultiArray<int>(Shape(2, 3, 0, 0));
    var row0, row1 := Row(a.Whole(), 0), Row(a.Whole(), 1);
    a.Set(row0, 1, u);
    a.Set(row1, 2, v);
    first, second := a.Get(row0, 1), a.Get(row1, 2);
  }
}
