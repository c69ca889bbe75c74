/** The views the demo program's kernels build from freshly allocated root
    views, and the cells their reads land on. */
module Demo {
  import opened DimTuple
  import opened Dimension1D
  import opened Dimension2D
  import opened Allocator

  /** On a 10 x 20 row-major root view, the dense row slice at y = 2 has
      element 4 at cell (4, 2), offset 24; the general column slice at x = 2
      has element 2 at cell (2, 2), offset 22. */
  lemma DenseXKernelReads()
    ensures var arr := RootView2DDenseX(DimTuple2(10, 20));
      var thirdRow := SliceXDense(arr, 2);
      var thirdCol := SliceY(arr, 2);
      && thirdRow.InRange(DimTuple1(4)) && arr.InRange(DimTuple2(4, 2))
      && thirdRow.Cell(DimTuple1(4)) == arr.Cell(DimTuple2(4, 2)) == 24
      && thirdCol.InRange(DimTuple1(2)) && arr.InRange(DimTuple2(2, 2))
      && thirdCol.Cell(DimTuple1(2)) == arr.Cell(DimTuple2(2, 2)) == 22
  {
  }

  /** On a 10 x 20 column-major root view, re-tagged as dense in Y, the
      general row slice at y = 2 has element 4 at cell (4, 2), offset 82;
      the dense column slice at x = 2 has element 2 at cell (2, 2),
      offset 42. */
  lemma DenseYKernelReads()
    ensures var arr := RootView2DDenseY(DimTuple2(10, 20));
      arr.Stride().Y == 1
      && var arrY := arr.AsDenseY();
      var thirdRow := SliceX(arrY, 2);
      var thirdCol := SliceYDense(arrY, 2);
      && thirdRow.InRange(DimTuple1(4)) && arr.InRange(DimTuple2(4, 2))
      && thirdRow.Cell(DimTuple1(4)) == arr.Cell(DimTuple2(4, 2)) == 82
      && thirdCol.InRange(DimTuple1(2)) && arr.InRange(DimTuple2(2, 2))
      && thirdCol.Cell(DimTuple1(2)) == arr.Cell(DimTuple2(2, 2)) == 42
  {
  }

  /** A 5 x 5 tile at (25, 25) of the default 100 x 100 buffer's root view
      is still dense in X with Y stride 100, and starts at offset 2525. */
  lemma TileStaysDenseX()
    ensures var root := RootView2DDenseX(DimTuple2(100, 100));
      var tile := root.SubView(DimTuple2(25, 25), DimTuple2(5, 5));
      && tile.Dim == Stride2DDenseX(100) && tile.Stride() == DimTuple2(1, 100)
      && tile.InRange(DimTuple2(0, 0)) && tile.Cell(DimTuple2(0, 0)) == 2525
  {
    var root := RootView2DDenseX(DimTuple2(100, 100));
    assert root.Stride() == DimTuple2(1, 100);
    var tile := root.SubView(DimTuple2(25, 25), DimTuple2(5, 5));
    assert tile.Data.base == 25 * 1 + 25 * 100;
  }

  /** An illustration beyond the demo's reads: allocate a 10 x 20 row-major
      buffer, write 7 at element 4 of the dense row slice at y = 2, and read
      (4, 2) back through the 2D root view; then dispose the buffer twice,
      which releases its storage once. */
  method RowSliceWriteIsVisible() returns (got: int)
    ensures got == 7
  {
    var buff := Allocate2DDenseX<int>(DimTuple2(10, 20));
    var root := buff.RootView;
    var row := SliceXDense(root, 2);
    assert row.Cell(DimTuple1(4)) == 24;
    Write1D(buff.storage, row, DimTuple1(4), 7);
    got := Read2D(buff.storage[..], root, DimTuple2(4, 2));
    buff.Dispose();
    buff.Dispose();
    assert buff.releases == 1;
  }
}
