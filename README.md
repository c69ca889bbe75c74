# Strided array views over flat buffers

A model of the addressing layer of the ILGPU array-view sketch: non-owning
views that describe a region of one flat storage allocation by a base
offset, a logical extent and a *stride tag*. The tag says how one step along
each axis moves through storage. It is either dense (stride 1, fixed by the
type), dense along one axis of a 2D view (the other stride stored), or
general (all strides stored). The model covers:

- the coordinate tuples `DimTuple1` and `DimTuple2` and their implicit
  conversions (`dim_tuple.dfy`);
- the backend's linear view, reduced to a base offset that `GetSubView`
  moves (`storage.dfy`);
- the 1D stride tags and `ArrayView1D`: indexing, `SubView` and `AsDense`
  (`dimension1d.dfy`);
- the 2D stride tags and `ArrayView2D`: indexing, `SubView`, `AsDenseX`,
  `AsDenseY` and `AsGeneral`. It also covers the four axis-slice extension
  methods `SliceX`/`SliceY`, general and specialised (`dimension2d.dfy`);
- `MemoryBuffer` with `Dispose`, and the `Allocator` routines that build
  each layout's root view (`allocator.dfy`);
- the views the demo program's kernels build (row and column slices of
  the dense-X and dense-Y root views, and a tile of the default 2D
  buffer), and the cells their reads land on (`demo.dfy`).

Each C# tag struct is a constructor of one tag datatype per rank
(`Stride1D`, `Stride2D`). The C# view types that fix a tag in their type
argument (`ArrayView1D<T, Stride1DDense>`, `ArrayView2D<T, Stride2DDenseX>`,
…) are Dafny subset types (`DenseView1D`, `DenseXView2D`, …). So the
specialised slices `SliceXDense` and `SliceYDense` have a distinct,
statically dense result type, just as the C# overloads do. Dafny has no
overloading, so the specialised overloads carry the suffix `Dense`. The
names `GeneralStride1D` and `DenseDim1D` used in `Dimension2D.cs` and
`Allocator.cs` are taken to be `Stride1DGeneral` and `Stride1DDense`.

A view's `Cell(idx)` is the absolute storage position its indexer returns a
reference to. Two views "address the same cell" when their `Cell`s agree.
Values are read from a sequence and written into an `array` at that
position.

The bounds and density checks in the source are all commented out. Each is
modelled as a `requires` on the operation, with exclusive upper bounds used
throughout: an index needs `0 <= i < Extent`, and a sub-view needs
`0 <= offset` and `offset + extent <= Extent`. The code is inconsistent
here. `Dimension1D.cs:52` and `Dimension2D.cs:86-87` reject
`offset + extent == Extent`, which would forbid a full-extent sub-view.
`Dimension2D.cs:101-102` accepts `idx == Extent`, while the 1D indexer at
`Dimension1D.cs:67` does not. The model follows the evident intent rather
than either comparison.

## Model

| member | source | states |
|---|---|---|
| `DimTuple.FromLong` | DimTuple.cs:14 | the tuple converted from an integer `v` has `X == v` |
| `DimTuple.FromValueTuple1` | DimTuple.cs:15 | the tuple converted from a one-element value tuple takes `Item1` as `X` |
| `DimTuple.FromValueTuple2` | DimTuple.cs:29 | the tuple converted from a pair has `X == Item1` and `Y == Item2` |
| `Dimension1D.Stride1D.Stride` | Dimension1D.cs:3-21 | the dense tag's stride is 1; the general tag's stride is exactly the stored one (a view's `Stride` is its tag's, as at Dimension1D.cs:31) |
| `Dimension1D.ArrayView1D.Cell` | Dimension1D.cs:63-75 | for `0 <= idx < Extent`, the indexer addresses storage `idx * Stride` past the view's base; `Read1D` reads the value there |
| `Dimension1D.ArrayView1D.AsDense` | Dimension1D.cs:40-48 | when the stride is 1, the dense re-tag keeps base and extent, and every index addresses the same cell as before |
| `Dimension1D.DenseRetagPreservesCellsIff` | Dimension1D.cs:40-48 | the dense re-tag the code builds keeps addressing if and only if the stride is 1 (views of two or more elements) |
| `Dimension1D.ArrayView1D.SubView` | Dimension1D.cs:50-61 | for an in-range window, the sub-view has the same tag and the requested extent, and its element `i` is the parent's element `offset + i` |
| `Dimension1D.SubViewCompose1D` | Dimension1D.cs:57-60 | a sub-view of a sub-view equals the sub-view at the summed offset |
| `Dimension1D.Write1D` | Dimension1D.cs:63-75 | writing through the indexer's reference changes exactly the addressed storage cell |
| `Dimension2D.Stride2D.Stride` | Dimension2D.cs:3-40 | dense-X exposes `(1, yStride)`, dense-Y `(xStride, 1)`, general the stored pair (a view's `Stride` is its tag's, as at Dimension2D.cs:50) |
| `Dimension2D.ArrayView2D.Cell` | Dimension2D.cs:97-113 | for an in-range `(x, y)`, the indexer addresses storage `x * Stride.X + y * Stride.Y` past the base; `Read2D` reads the value there |
| `Dimension2D.ArrayView2D.AsDenseX` | Dimension2D.cs:59-67 | when the X stride is 1, the dense-X view keeps base, extent and both strides, so it addresses the same cells |
| `Dimension2D.DenseXRetagPreservesCellsIff` | Dimension2D.cs:59-67 | the dense-X re-tag the code builds keeps addressing if and only if the X stride is 1 |
| `Dimension2D.ArrayView2D.AsDenseY` | Dimension2D.cs:69-77 | when the Y stride is 1, the dense-Y view keeps base, extent and both strides, so it addresses the same cells |
| `Dimension2D.DenseYRetagPreservesCellsIff` | Dimension2D.cs:69-77 | the dense-Y re-tag the code builds keeps addressing if and only if the Y stride is 1 |
| `Dimension2D.ArrayView2D.AsGeneral` | Dimension2D.cs:79-82 | always defined; the general view keeps base, extent and both strides, so it addresses the same cells |
| `Dimension2D.ArrayView2D.SubView` | Dimension2D.cs:84-95 | for an in-range window, the sub-view has the same tag and the requested extent, and its `(i, j)` is the parent's `(offset.X + i, offset.Y + j)` |
| `Dimension2D.SubViewCompose2D` | Dimension2D.cs:92-94 | a window of a window equals the window at the summed offset |
| `Dimension2D.SliceX` | Dimension2D.cs:118-135 | for `0 <= y < Extent.Y`, the row is a general 1D view with extent `Extent.X` and stride `Stride.X`, whose element `i` is the parent's `(i, y)` |
| `Dimension2D.SliceXDense` | Dimension2D.cs:137-154 | on a dense-X view, the row is a statically dense 1D view with extent `Extent.X`, whose element `i` is the parent's `(i, y)` |
| `Dimension2D.SliceXDenseAgreesWithSliceX` | Dimension2D.cs:119-154 | the dense and the general row slice share base and extent and address the same cells |
| `Dimension2D.SliceY` | Dimension2D.cs:156-170 | for `0 <= x < Extent.X`, the column is a general 1D view with extent `Extent.Y` and stride `Stride.Y`, whose element `j` is the parent's `(x, j)` |
| `Dimension2D.SliceYDense` | Dimension2D.cs:172-186 | on a dense-Y view, the column is a statically dense 1D view with extent `Extent.Y`, whose element `j` is the parent's `(x, j)` |
| `Dimension2D.SliceYDenseAgreesWithSliceY` | Dimension2D.cs:156-186 | the dense and the general column slice share base and extent and address the same cells |
| `Dimension2D.Write2D` | Dimension2D.cs:97-113 | writing through the 2D indexer's reference changes exactly the addressed storage cell |
| `Allocator.MemoryBuffer.constructor` | Allocator.cs:10-17 | a new buffer holds the given storage and root view, and nothing is released yet |
| `Allocator.MemoryBuffer.Dispose` | Allocator.cs:19-23 | storage becomes null and is released only if it was still held, so at most once over any number of calls; the root view is constant |
| `Allocator.RootView1D` | Allocator.cs:28-33 | the dense 1D root view has the requested extent, and its index `i` is storage cell `i` |
| `Allocator.Allocate1D` | Allocator.cs:28-33 | a fresh buffer of `extent.X` elements whose root view is the dense 1D root view |
| `Allocator.Allocate2D` | Allocator.cs:35-38 | the same buffer and root view as `Allocate2DDenseX` |
| `Allocator.RootView2DDenseX` | Allocator.cs:40-45 | the row-major root view has strides `(1, extent.X)`, and `(x, y)` is storage cell `x + y * extent.X` |
| `Allocator.DenseXLayout` | Allocator.cs:40-45 | the row-major layout puts every in-range cell inside `[0, X*Y)`, and distinct cells at distinct offsets |
| `Allocator.Allocate2DDenseX` | Allocator.cs:40-45 | a fresh buffer of `X*Y` elements whose row-major root view is in bounds and one-to-one |
| `Allocator.RootView2DDenseYAsWritten` | Allocator.cs:47-52 | the dense-Y root view as the code builds it has X stride `extent.X` |
| `Allocator.DenseYAsWrittenCollides` | Allocator.cs:50 | for extent (10, 20), the code's layout sends both (0, 10) and (1, 0) to cell 10 |
| `Allocator.DenseYAsWrittenOverruns` | Allocator.cs:50 | for extent (20, 10), the code's layout sends (19, 9) to cell 389, past the 200 allocated |
| `Allocator.DenseYAsWrittenOkIffSquare` | Allocator.cs:47-52 | for non-empty extents, the code's layout is in bounds and one-to-one if and only if `X == Y` or `X == 1` |
| `Allocator.RootView2DDenseY` | Allocator.cs:47-52 | the column-major root view has strides `(extent.Y, 1)`, and `(x, y)` is storage cell `y + x * extent.Y` |
| `Allocator.DenseYLayout` | Allocator.cs:47-52 | the column-major layout puts every in-range cell inside `[0, X*Y)`, and distinct cells at distinct offsets |
| `Allocator.Allocate2DDenseY` | Allocator.cs:47-52 | a fresh buffer of `X*Y` elements whose column-major root view is in bounds and one-to-one |
| `Demo.DenseXKernelReads` | Demo/Demo.cs:20-40 | on the 10 x 20 row-major root view, element 4 of the dense row slice at y = 2 is cell (4, 2) at offset 24, and element 2 of the general column slice at x = 2 is cell (2, 2) at offset 22 |
| `Demo.DenseYKernelReads` | Demo/Demo.cs:42-68 | on the 10 x 20 column-major root view re-tagged dense in Y, element 4 of the general row slice at y = 2 is cell (4, 2) at offset 82, and element 2 of the dense column slice at x = 2 is cell (2, 2) at offset 42 |
| `Demo.TileStaysDenseX` | Demo/Demo.cs:70-79 | the 5 x 5 tile at (25, 25) of the 100 x 100 default buffer keeps the dense-X tag with Y stride 100 and starts at offset 2525 |
| `Demo.RowSliceWriteIsVisible` | Demo/Demo.cs:26-37 | an illustration beyond the demo: writing 7 at element 4 of the dense row slice read at line 33 makes (4, 2) of the 2D view read 7; disposing twice releases once |

## Left out

- 64-bit arithmetic: extents, offsets and strides are unbounded integers, so the unchecked `long` overflow of `offset * stride` is not modelled.
- Run-time errors: the commented-out throws (`IndexOutOfRangeException`, the "not dense" `ApplicationException`) are preconditions, not error results, because no code path in the source raises them.
- Backend allocation: `Accelerator.Allocate` is a fresh array of the requested length; its failure modes, and the accelerator argument, are not modelled. So `Allocate1D`, `Allocate2D`, `Allocate2DDenseX` and `Allocate2DDenseY` require non-negative extents.
- Backend release: `ILGPU.Runtime.MemoryBuffer.Dispose` is a ghost release counter. Views do not record their buffer, so using a view after `Dispose` is not detected, just as in the source.
- References and aliasing: the `ref` returned by the indexers becomes a storage position, plus a one-cell `Write1D`/`Write2D`; `unsafe` code and CLR aliasing are not modelled.
- Debug output: the `ILGPU.Interop.WriteLine` calls in the `SliceX` overloads only log, and are not modelled.
- The demo program's accelerator, context, kernel launches and result variable are device plumbing; only the views its kernels build and the cells they read are restated, in `Demo`.
- Pitched (padded) 2D allocation: the source has no such routine, so nothing is modelled.
- Concurrent disposal: the model is sequential.

## Findings

| source | as written | input that shows it | evidently intended | confidence | as-written member | corrected member |
|---|---|---|---|---|---|---|
| Allocator.cs:50 | `Allocate2DDenseY` builds `Stride2DDenseY(extent.X)`, so the X stride is the X extent | extent (10, 20): cells (0, 10) and (1, 0) both map to offset 10; extent (20, 10): cell (19, 9) maps to 389, past the 200 elements allocated | X stride `extent.Y` (column-major), so each in-range cell maps to its own offset in `[0, X*Y)` | high; not executed | `Allocator.DenseYAsWrittenCollides` | `Allocator.DenseYLayout` |

`Allocator.DenseYAsWrittenOverruns` and `Allocator.DenseYAsWrittenOkIffSquare` give the other counterexample and the exact condition under which the code as written still works. `Allocate2DDenseY` uses the corrected root view.
`Demo.DenseYKernelReads` is stated over the corrected column-major root view.
