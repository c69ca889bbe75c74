/** One-dimensional strided views: the 1D stride tags and `ArrayView1D`,
    a (base, extent, stride tag) descriptor over a flat buffer. */
module Dimension1D {
  import opened DimTuple
  import opened Storage

  /** The 1D stride tags. Each constructor is one tag struct:
      `Stride1DGeneral` stores its stride, `Stride1DDense` stores nothing
      and always answers 1. */
  datatype Stride1D = Stride1DGeneral(stride: DimTuple1) | Stride1DDense {

    /** The per-axis stride the tag exposes. */
    function Stride(): (s: DimTuple1)
      ensures Stride1DDense? ==> s.X == 1
      ensures Stride1DGeneral? ==> s == stride
    {
      match this
      case Stride1DGeneral(st) => st
      case Stride1DDense => FromLong(1)
    }
  }

  /** A 1D view: `Data` is the base into storage, `Extent` the number of
      addressable elements, `Dim` the stride tag. */
  datatype ArrayView1D = ArrayView1D(Data: LinearView, Extent: DimTuple1, Dim: Stride1D) {

    /** The view's stride: that of its tag. */
    function Stride(): (s: DimTuple1)
    {
      Dim.Stride()
    }

    /** The indexer's bound: `0 <= idx < Extent`. */
    predicate InRange(idx: DimTuple1)
    {
      0 <= idx.X < Extent.X
    }

    /** The storage position the indexer returns a reference to. */
    function Cell(idx: DimTuple1): (a: int)
      requires InRange(idx)
      ensures a == Data.base + idx.X * Stride().X
    {
      Data.At(idx.X * Stride().X)
    }

    /** Re-tag as statically dense; only sound when the stride is 1. */
    function AsDense(): (r: DenseView1D)
      requires Stride().X == 1
      ensures r.Data == Data && r.Extent == Extent
      ensures SameCells1D(this, r)
    {
      ArrayView1D(Data, Extent, Stride1DDense)
    }

    /** The `extent` elements starting at `offset`, with the same tag. */
    function SubView(offset: DimTuple1, extent: DimTuple1): (r: ArrayView1D)
      requires 0 <= offset.X && offset.X + extent.X <= Extent.X
      ensures r.Dim == Dim && r.Extent == extent
      ensures forall i :: r.InRange(i) ==>
                InRange(DimTuple1(offset.X + i.X)) && r.Cell(i) == Cell(DimTuple1(offset.X + i.X))
    {
      var linearIdx := offset.X * Stride().X;
      ArrayView1D(Data.GetSubView(linearIdx), extent, Dim)
    }
  }

  /** `ArrayView1D<T, Stride1DDense>`: a view whose tag is statically dense. */
  type DenseView1D = v: ArrayView1D | v.Dim.Stride1DDense?
    witness ArrayView1D(LinearView(0), DimTuple1(0), Stride1DDense)

  /** `ArrayView1D<T, Stride1DGeneral>`: a view carrying its stride at run time. */
  type GeneralView1D = v: ArrayView1D | v.Dim.Stride1DGeneral?
    witness ArrayView1D(LinearView(0), DimTuple1(0), Stride1DGeneral(DimTuple1(0)))

  /** Two views have the same extent and address the same cell at every index. */
  ghost predicate SameCells1D(a: ArrayView1D, b: ArrayView1D)
  {
    a.Extent == b.Extent && forall i :: a.InRange(i) ==> b.InRange(i) && a.Cell(i) == b.Cell(i)
  }

  /** Sub-views compose: a sub-view of a sub-view is the sub-view at the
      summed offset, as a value (same base, extent and tag). */
  lemma SubViewCompose1D(v: ArrayView1D, o1: DimTuple1, e1: DimTuple1, o2: DimTuple1, e2: DimTuple1)
    requires 0 <= o1.X && o1.X + e1.X <= v.Extent.X
    requires 0 <= o2.X && o2.X + e2.X <= e1.X
    ensures v.SubView(o1, e1).SubView(o2, e2) == v.SubView(DimTuple1(o1.X + o2.X), e2)
  {
  }

  /** What the disabled check in `AsDense` protects: re-tagging a view as
      dense, as the code builds it, keeps every index on the same cell
      exactly when the stride is 1 (for views with at least two elements;
      smaller views only ever address their base). */
  lemma DenseRetagPreservesCellsIff(v: ArrayView1D)
    requires v.Extent.X >= 2
    ensures SameCells1D(v, ArrayView1D(v.Data, v.Extent, Stride1DDense)) <==> v.Stride().X == 1
  {
    var r := ArrayView1D(v.Data, v.Extent, Stride1DDense);
    if SameCells1D(v, r) {
      assert v.InRange(DimTuple1(1));
      assert v.Cell(DimTuple1(1)) == r.Cell(DimTuple1(1));
    }
  }

  /** Read the element at `idx` through the view. */
  function Read1D<T>(mem: seq<T>, v: ArrayView1D, idx: DimTuple1): (x: T)
    requires v.InRange(idx) && 0 <= v.Cell(idx) < |mem|
  {
    mem[v.Cell(idx)]
  }

  /** Write through the reference the indexer returns: exactly one storage
      cell changes. */
  method Write1D<T>(mem: array<T>, v: ArrayView1D, idx: DimTuple1, x: T)
    requires v.InRange(idx) && 0 <= v.Cell(idx) < mem.Length
    modifies mem
    ensures mem[..] == old(mem[..])[v.Cell(idx) := x]
  {
    mem[v.Cell(idx)] := x;
  }
}
