/** The owning side: `MemoryBuffer`, which holds one storage allocation and
    the root view over it, and the `Allocator` routines that build a buffer
    for each layout. The backend allocation is modelled as a fresh array of
    the requested length; the backend's own release is a ghost counter. */
module Allocator {
  import opened DimTuple
  import opened Storage
  import opened Dimension1D
  import opened Dimension2D

  /** A buffer owning `storage` (null once disposed) and exposing `RootView`. */
  class MemoryBuffer<T, V> {
    var storage: array?<T>
    const RootView: V
    /** How many times the backend storage has been released. */
    ghost var releases: nat

    /** The storage has been released exactly when the field is null, and
        so at most once. */
    ghost predicate Valid()
      reads this
    {
      releases == (if storage == null then 1 else 0)
    }

    constructor (storage: array<T>, rootView: V)
      ensures Valid() && releases == 0
      ensures this.storage == storage && RootView == rootView
    {
      this.storage := storage;
      RootView := rootView;
      releases := 0;
    }

    /** Release the storage if it is still held, then forget it; a second
        call releases nothing. `RootView` is a constant and is untouched. */
    method Dispose()
      requires Valid()
      modifies this
      ensures Valid() && storage == null && releases <= 1
      ensures releases == old(releases) + (if old(storage) != null then 1 else 0)
    {
      if storage != null {
        releases := releases + 1;
      }
      storage := null;
    }
  }

  /** A 2D view lays its in-range indices out inside `[0, n)` and gives
      distinct indices distinct cells. */
  ghost predicate LayoutOk(v: ArrayView2D, n: int)
  {
    && (forall i :: v.InRange(i) ==> 0 <= v.Cell(i) < n)
    && (forall i, j :: v.InRange(i) && v.InRange(j) && v.Cell(i) == v.Cell(j) ==> i == j)
  }

  /** Mixed-radix positions: `a + b * A` with `a < A` and `b < B` lies in
      `[0, A * B)`, and determines `a` and `b`. */
  lemma {:induction false} MixedRadixBound(a: int, b: int, A: int, B: int)
    requires 0 <= a < A && 0 <= b < B
    ensures 0 <= a + b * A < A * B
  {
    assert b * A <= (B - 1) * A by {
      assert (B - 1) * A - b * A == (B - 1 - b) * A;
    }
    assert (B - 1) * A + A == A * B;
  }

  lemma {:induction false} MixedRadixUnique(a1: int, b1: int, a2: int, b2: int, A: int)
    requires 0 <= a1 < A && 0 <= a2 < A && 0 <= b1 && 0 <= b2
    requires a1 + b1 * A == a2 + b2 * A
    ensures a1 == a2 && b1 == b2
  {
    if b1 != b2 {
      var k := b2 - b1;
      assert a1 - a2 == k * A by {
        assert b2 * A - b1 * A == (b2 - b1) * A;
      }
      if k >= 1 {
        MulAtLeast(k, A);
      } else {
        MulAtLeast(-k, A);
      }
    }
  }

  lemma MulAtLeast(k: int, A: int)
    requires k >= 1 && A >= 0
    ensures k * A >= A
  {
    assert k * A - A == (k - 1) * A;
  }

  /** The root view of a dense 1D allocation: index `i` is storage cell `i`. */
  function RootView1D(extent: DimTuple1): (r: DenseView1D)
    ensures r.Extent == extent
    ensures forall i :: r.InRange(i) ==> r.Cell(i) == i.X
  {
    ArrayView1D(LinearView(0), extent, Stride1DDense)
  }

  /** The root view of a row-major (dense in X) 2D allocation: Y stride is
      the X extent. */
  function RootView2DDenseX(extent: DimTuple2): (r: DenseXView2D)
    ensures r.Extent == extent && r.Stride() == DimTuple2(1, extent.X)
    ensures forall i :: r.InRange(i) ==> r.Cell(i) == i.X + i.Y * extent.X
  {
    ArrayView2D(LinearView(0), extent, Stride2DDenseX(extent.X))
  }

  /** The row-major layout fills exactly the `X * Y` cells it allocates,
      once each. */
  lemma DenseXLayout(extent: DimTuple2)
    ensures LayoutOk(RootView2DDenseX(extent), extent.X * extent.Y)
  {
    var v := RootView2DDenseX(extent);
    forall i | v.InRange(i) ensures 0 <= v.Cell(i) < extent.X * extent.Y {
      MixedRadixBound(i.X, i.Y, extent.X, extent.Y);
    }
    forall i, j | v.InRange(i) && v.InRange(j) && v.Cell(i) == v.Cell(j) ensures i == j {
      MixedRadixUnique(i.X, i.Y, j.X, j.Y, extent.X);
    }
  }

  /** The root view `Allocate2DDenseY` builds as written: the X stride is the
      X extent, where a column-major layout needs the Y extent. */
  function RootView2DDenseYAsWritten(extent: DimTuple2): (r: DenseYView2D)
    ensures r.Extent == extent && r.Stride() == DimTuple2(extent.X, 1)
  {
    ArrayView2D(LinearView(0), extent, Stride2DDenseY(extent.X))
  }

  /** For a 10 x 20 buffer the as-written layout sends (0, 10) and (1, 0) to
      the same cell, 10. */
  lemma DenseYAsWrittenCollides()
    ensures var v := RootView2DDenseYAsWritten(DimTuple2(10, 20));
      v.InRange(DimTuple2(0, 10)) && v.InRange(DimTuple2(1, 0))
      && v.Cell(DimTuple2(0, 10)) == 10 && v.Cell(DimTuple2(1, 0)) == 10
  {
  }

  /** For a 20 x 10 buffer the as-written layout sends (19, 9) to cell 389,
      past the 200 cells allocated. */
  lemma DenseYAsWrittenOverruns()
    ensures var v := RootView2DDenseYAsWritten(DimTuple2(20, 10));
      v.InRange(DimTuple2(19, 9)) && v.Cell(DimTuple2(19, 9)) == 389 && 389 >= 20 * 10
  {
  }

  /** The as-written layout is in bounds and one-to-one exactly when the
      buffer is square or a single column wide. */
  lemma DenseYAsWrittenOkIffSquare(extent: DimTuple2)
    requires extent.X >= 1 && extent.Y >= 1
    ensures LayoutOk(RootView2DDenseYAsWritten(extent), extent.X * extent.Y)
        <==> extent.X == extent.Y || extent.X == 1
  {
    if extent.X == extent.Y || extent.X == 1 {
      DenseYAsWrittenOkWhenSquare(extent);
    } else {
      DenseYAsWrittenBrokenOtherwise(extent);
    }
  }

  lemma DenseYAsWrittenOkWhenSquare(extent: DimTuple2)
    requires extent.X == extent.Y || extent.X == 1
    ensures LayoutOk(RootView2DDenseYAsWritten(extent), extent.X * extent.Y)
  {
    var v := RootView2DDenseYAsWritten(extent);
    if extent.X == extent.Y {
      assert v == RootView2DDenseY(extent);
      DenseYLayout(extent);
    } else {
      assert forall i :: v.InRange(i) ==> v.Cell(i) == i.Y;
    }
  }

  lemma DenseYAsWrittenBrokenOtherwise(extent: DimTuple2)
    requires extent.X >= 2 && extent.Y >= 1 && extent.X != extent.Y
    ensures !LayoutOk(RootView2DDenseYAsWritten(extent), extent.X * extent.Y)
  {
    var v := RootView2DDenseYAsWritten(extent);
    var ex, ey := extent.X, extent.Y;
    if ex < ey {
      var i, j := DimTuple2(0, ex), DimTuple2(1, 0);
      assert v.InRange(i) && v.InRange(j) && v.Cell(i) == v.Cell(j) && i != j;
    } else {
      var i := DimTuple2(ex - 1, ey - 1);
      assert v.InRange(i) && v.Cell(i) == (ex - 1) * ex + ey - 1;
      CornerPastEnd(ex, ey);
    }
  }

  /** In a wide buffer the as-written layout's last cell lies past the end. */
  lemma CornerPastEnd(ex: int, ey: int)
    requires ex > ey >= 1
    ensures (ex - 1) * ex + ey - 1 >= ex * ey
  {
    assert (ex - 1) * ex + ey - 1 - ex * ey == (ex - 1) * (ex - ey) - 1;
    MulAtLeast(ex - 1, ex - ey);
  }

  /** The column-major (dense in Y) root view: the X stride is the Y extent,
      so each column is contiguous. */
  function RootView2DDenseY(extent: DimTuple2): (r: DenseYView2D)
    ensures r.Extent == extent && r.Stride() == DimTuple2(extent.Y, 1)
    ensures forall i :: r.InRange(i) ==> r.Cell(i) == i.Y + i.X * extent.Y
  {
    ArrayView2D(LinearView(0), extent, Stride2DDenseY(extent.Y))
  }

  /** The column-major layout fills exactly the `X * Y` cells it allocates,
      once each. */
  lemma DenseYLayout(extent: DimTuple2)
    ensures LayoutOk(RootView2DDenseY(extent), extent.X * extent.Y)
  {
    var v := RootView2DDenseY(extent);
    forall i | v.InRange(i) ensures 0 <= v.Cell(i) < extent.X * extent.Y {
      MixedRadixBound(i.Y, i.X, extent.Y, extent.X);
    }
    forall i, j | v.InRange(i) && v.InRange(j) && v.Cell(i) == v.Cell(j) ensures i == j {
      MixedRadixUnique(i.Y, i.X, j.Y, j.X, extent.Y);
    }
  }

  /** A dense 1D buffer of `extent.X` elements. */
  method Allocate1D<T(0)>(extent: DimTuple1) returns (b: MemoryBuffer<T, DenseView1D>)
    requires extent.X >= 0
    ensures fresh(b) && b.Valid() && b.releases == 0
    ensures b.storage != null && fresh(b.storage) && b.storage.Length == extent.X
    ensures b.RootView == RootView1D(extent)
  {
    var storage := new T[extent.X];
    var rootView := RootView1D(extent);
    b := new MemoryBuffer(storage, rootView);
  }

  /** The default 2D buffer: dense in X. */
  method Allocate2D<T(0)>(extent: DimTuple2) returns (b: MemoryBuffer<T, DenseXView2D>)
    requires extent.X >= 0 && extent.Y >= 0
    ensures fresh(b) && b.Valid() && b.releases == 0
    ensures b.storage != null && fresh(b.storage) && b.storage.Length == extent.X * extent.Y
    ensures b.RootView == RootView2DDenseX(extent)
    ensures LayoutOk(b.RootView, b.storage.Length)
  {
    b := Allocate2DDenseX(extent);
  }

  /** A row-major 2D buffer of `X * Y` elements. */
  method Allocate2DDenseX<T(0)>(extent: DimTuple2) returns (b: MemoryBuffer<T, DenseXView2D>)
    requires extent.X >= 0 && extent.Y >= 0
    ensures fresh(b) && b.Valid() && b.releases == 0
    ensures b.storage != null && fresh(b.storage) && b.storage.Length == extent.X * extent.Y
    ensures b.RootView == RootView2DDenseX(extent)
    ensures LayoutOk(b.RootView, b.storage.Length)
  {
    var storage := new T[extent.X * extent.Y];
    var rootView := RootView2DDenseX(extent);
    DenseXLayout(extent);
    b := new MemoryBuffer(storage, rootView);
  }

  /** A column-major 2D buffer of `X * Y` elements, with the X stride set to
      the Y extent (see `RootView2DDenseYAsWritten` for the stride the
      source passes). */
  method Allocate2DDenseY<T(0)>(extent: DimTuple2) returns (b: MemoryBuffer<T, DenseYView2D>)
    requires extent.X >= 0 && extent.Y >= 0
    ensures fresh(b) && b.Valid() && b.releases == 0
    ensures b.storage != null && fresh(b.storage) && b.storage.Length == extent.X * extent.Y
    ensures b.RootView == RootView2DDenseY(extent)
    ensures LayoutOk(b.RootView, b.storage.Length)
  {
    var storage := new T[extent.X * extent.Y];
    var rootView := RootView2DDenseY(extent);
    DenseYLayout(extent);
    b := new MemoryBuffer(storage, rootView);
  }
}
