/** Two-dimensional strided views: the 2D stride tags, `ArrayView2D`, and
    the axis slices that turn a 2D view into a 1D one. */
module Dimension2D {
  import opened DimTuple
  import opened Storage
  import opened Dimension1D

  /** The 2D stride tags. `Stride2DGeneral` stores both strides;
      `Stride2DDenseX` is dense along X and stores the Y stride;
      `Stride2DDenseY` is dense along Y and stores the X stride. */
  datatype Stride2D =
    | Stride2DGeneral(stride: DimTuple2)
    | Stride2DDenseX(yStride: int)
    | Stride2DDenseY(xStride: int)
  {
    /** The per-axis strides the tag exposes; an axis the tag claims dense
        has stride 1. */
    function Stride(): (s: DimTuple2)
      ensures Stride2DGeneral? ==> s == stride
      ensures Stride2DDenseX? ==> s.X == 1 && s.Y == yStride
      ensures Stride2DDenseY? ==> s.X == xStride && s.Y == 1
    {
      match this
      case Stride2DGeneral(st) => st
      case Stride2DDenseX(ys) => FromValueTuple2(ValueTuple2(1, ys))
      case Stride2DDenseY(xs) => FromValueTuple2(ValueTuple2(xs, 1))
    }
  }

  /** A 2D view: base into storage, extent along X and Y, stride tag. */
  datatype ArrayView2D = ArrayView2D(Data: LinearView, Extent: DimTuple2, Dim: Stride2D) {

    /** The view's strides: those of its tag. */
    function Stride(): (s: DimTuple2)
    {
      Dim.Stride()
    }

    /** The indexer's bound, each axis checked on its own: `0 <= idx < Extent`. */
    predicate InRange(idx: DimTuple2)
    {
      0 <= idx.X < Extent.X && 0 <= idx.Y < Extent.Y
    }

    /** The storage position the indexer returns a reference to. */
    function Cell(idx: DimTuple2): (a: int)
      requires InRange(idx)
      ensures a == Data.base + idx.X * Stride().X + idx.Y * Stride().Y
    {
      Data.At(idx.X * Stride().X + idx.Y * Stride().Y)
    }

    /** Re-tag as statically dense along X; only sound when the X stride is 1. */
    function AsDenseX(): (r: DenseXView2D)
      requires Stride().X == 1
      ensures r.Data == Data && r.Extent == Extent && r.Stride() == Stride()
      ensures SameCells2D(this, r)
    {
      ArrayView2D(Data, Extent, Stride2DDenseX(Stride().Y))
    }

    /** Re-tag as statically dense along Y; only sound when the Y stride is 1. */
    function AsDenseY(): (r: DenseYView2D)
      requires Stride().Y == 1
      ensures r.Data == Data && r.Extent == Extent && r.Stride() == Stride()
      ensures SameCells2D(this, r)
    {
      ArrayView2D(Data, Extent, Stride2DDenseY(Stride().X))
    }

    /** Widen any tag to the fully run-time one; never fails. */
    function AsGeneral(): (r: GeneralView2D)
      ensures r.Data == Data && r.Extent == Extent && r.Stride() == Stride()
      ensures SameCells2D(this, r)
    {
      ArrayView2D(Data, Extent, Stride2DGeneral(Stride()))
    }

    /** The `extent`-sized window at `offset`, with the same tag. */
    function SubView(offset: DimTuple2, extent: DimTuple2): (r: ArrayView2D)
      requires 0 <= offset.X && offset.X + extent.X <= Extent.X
      requires 0 <= offset.Y && offset.Y + extent.Y <= Extent.Y
      ensures r.Dim == Dim && r.Extent == extent
      ensures forall i :: r.InRange(i) ==>
                InRange(Shift(offset, i)) && r.Cell(i) == Cell(Shift(offset, i))
    {
      var linearIdx := offset.X * Stride().X + offset.Y * Stride().Y;
      ArrayView2D(Data.GetSubView(linearIdx), extent, Dim)
    }
  }

  /** `ArrayView2D<T, Stride2DDenseX>`. */
  type DenseXView2D = v: ArrayView2D | v.Dim.Stride2DDenseX?
    witness ArrayView2D(LinearView(0), DimTuple2(0, 0), Stride2DDenseX(0))

  /** `ArrayView2D<T, Stride2DDenseY>`. */
  type DenseYView2D = v: ArrayView2D | v.Dim.Stride2DDenseY?
    witness ArrayView2D(LinearView(0), DimTuple2(0, 0), Stride2DDenseY(0))

  /** `ArrayView2D<T, Stride2DGeneral>`. */
  type GeneralView2D = v: ArrayView2D | v.Dim.Stride2DGeneral?
    witness ArrayView2D(LinearView(0), DimTuple2(0, 0), Stride2DGeneral(DimTuple2(0, 0)))

  /** Component-wise sum of an offset and an index. */
  function Shift(offset: DimTuple2, i: DimTuple2): (r: DimTuple2)
  {
    DimTuple2(offset.X + i.X, offset.Y + i.Y)
  }

  /** Two views have the same extent and address the same cell at every index. */
  ghost predicate SameCells2D(a: ArrayView2D, b: ArrayView2D)
  {
    a.Extent == b.Extent && forall i :: a.InRange(i) ==> b.InRange(i) && a.Cell(i) == b.Cell(i)
  }

  /** Sub-views compose: a window of a window is the window at the summed
      offset, as a value (same base, extent and tag). */
  lemma SubViewCompose2D(v: ArrayView2D, o1: DimTuple2, e1: DimTuple2, o2: DimTuple2, e2: DimTuple2)
    requires 0 <= o1.X && o1.X + e1.X <= v.Extent.X && 0 <= o1.Y && o1.Y + e1.Y <= v.Extent.Y
    requires 0 <= o2.X && o2.X + e2.X <= e1.X && 0 <= o2.Y && o2.Y + e2.Y <= e1.Y
    ensures v.SubView(o1, e1).SubView(o2, e2) == v.SubView(Shift(o1, o2), e2)
  {
  }

  /** What the disabled check in `AsDenseX` protects: the re-tag the code
      builds keeps every index on the same cell exactly when the X stride
      is 1 (for views with at least two columns and one row). */
  lemma DenseXRetagPreservesCellsIff(v: ArrayView2D)
    requires v.Extent.X >= 2 && v.Extent.Y >= 1
    ensures SameCells2D(v, ArrayView2D(v.Data, v.Extent, Stride2DDenseX(v.Stride().Y))) <==> v.Stride().X == 1
  {
    var r := ArrayView2D(v.Data, v.Extent, Stride2DDenseX(v.Stride().Y));
    if SameCells2D(v, r) {
      assert v.InRange(DimTuple2(1, 0));
      assert v.Cell(DimTuple2(1, 0)) == r.Cell(DimTuple2(1, 0));
    }
  }

  /** As above for `AsDenseY` and the Y stride. */
  lemma DenseYRetagPreservesCellsIff(v: ArrayView2D)
    requires v.Extent.X >= 1 && v.Extent.Y >= 2
    ensures SameCells2D(v, ArrayView2D(v.Data, v.Extent, Stride2DDenseY(v.Stride().X))) <==> v.Stride().Y == 1
  {
    var r := ArrayView2D(v.Data, v.Extent, Stride2DDenseY(v.Stride().X));
    if SameCells2D(v, r) {
      assert v.InRange(DimTuple2(0, 1));
      assert v.Cell(DimTuple2(0, 1)) == r.Cell(DimTuple2(0, 1));
    }
  }

  // Axis slices (the extension methods). `SliceX(y)` fixes the Y index and
  // keeps the X axis; `SliceY(x)` fixes the X index and keeps the Y axis.
  // The general overloads carry the surviving stride at run time; the
  // overloads on a view dense along the surviving axis return a dense view.

  /** General `SliceX`: row `y` as a strided 1D view. */
  function SliceX(v: ArrayView2D, y: int): (r: GeneralView1D)
    requires 0 <= y < v.Extent.Y
    ensures r.Extent.X == v.Extent.X && r.Stride().X == v.Stride().X
    ensures forall i :: r.InRange(i) ==>
              v.InRange(DimTuple2(i.X, y)) && r.Cell(i) == v.Cell(DimTuple2(i.X, y))
  {
    var offset := y * v.Stride().Y;
    ArrayView1D(v.Data.GetSubView(offset), FromLong(v.Extent.X), Stride1DGeneral(FromLong(v.Stride().X)))
  }

  /** `SliceX` on a view dense along X: row `y` as a statically dense 1D view. */
  function SliceXDense(v: DenseXView2D, y: int): (r: DenseView1D)
    requires 0 <= y < v.Extent.Y
    ensures r.Extent.X == v.Extent.X
    ensures forall i :: r.InRange(i) ==>
              v.InRange(DimTuple2(i.X, y)) && r.Cell(i) == v.Cell(DimTuple2(i.X, y))
  {
    var offset := y * v.Stride().Y;
    ArrayView1D(v.Data.GetSubView(offset), FromLong(v.Extent.X), Stride1DDense)
  }

  /** General `SliceY`: column `x` as a strided 1D view. */
  function SliceY(v: ArrayView2D, x: int): (r: GeneralView1D)
    requires 0 <= x < v.Extent.X
    ensures r.Extent.X == v.Extent.Y && r.Stride().X == v.Stride().Y
    ensures forall j :: r.InRange(j) ==>
              v.InRange(DimTuple2(x, j.X)) && r.Cell(j) == v.Cell(DimTuple2(x, j.X))
  {
    var offset := x * v.Stride().X;
    ArrayView1D(v.Data.GetSubView(offset), FromLong(v.Extent.Y), Stride1DGeneral(FromLong(v.Stride().Y)))
  }

  /** `SliceY` on a view dense along Y: column `x` as a statically dense 1D view. */
  function SliceYDense(v: DenseYView2D, x: int): (r: DenseView1D)
    requires 0 <= x < v.Extent.X
    ensures r.Extent.X == v.Extent.Y
    ensures forall j :: r.InRange(j) ==>
              v.InRange(DimTuple2(x, j.X)) && r.Cell(j) == v.Cell(DimTuple2(x, j.X))
  {
    var offset := x * v.Stride().X;
    ArrayView1D(v.Data.GetSubView(offset), FromLong(v.Extent.Y), Stride1DDense)
  }

  /** The dense `SliceX` differs from the general one only in its tag: same
      base and extent, and the same cell at every index. */
  lemma SliceXDenseAgreesWithSliceX(v: DenseXView2D, y: int)
    requires 0 <= y < v.Extent.Y
    ensures SliceXDense(v, y).Data == SliceX(v, y).Data
    ensures SameCells1D(SliceXDense(v, y), SliceX(v, y))
  {
  }

  /** The dense `SliceY` differs from the general one only in its tag. */
  lemma SliceYDenseAgreesWithSliceY(v: DenseYView2D, x: int)
    requires 0 <= x < v.Extent.X
    ensures SliceYDense(v, x).Data == SliceY(v, x).Data
    ensures SameCells1D(SliceYDense(v, x), SliceY(v, x))
  {
  }

  /** Read the element at `idx` through the view. */
  function Read2D<T>(mem: seq<T>, v: ArrayView2D, idx: DimTuple2): (x: T)
    requires v.InRange(idx) && 0 <= v.Cell(idx) < |mem|
  {
    mem[v.Cell(idx)]
  }

  /** Write through the reference the indexer returns: exactly one storage
      cell changes. */
  method Write2D<T>(mem: array<T>, v: ArrayView2D, idx: DimTuple2, x: T)
    requires v.InRange(idx) && 0 <= v.Cell(idx) < mem.Length
    modifies mem
    ensures mem[..] == old(mem[..])[v.Cell(idx) := x]
  {
    mem[v.Cell(idx)] := x;
  }
}
