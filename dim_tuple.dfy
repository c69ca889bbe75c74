/** Coordinate tuples: the rank-1 and rank-2 extents, offsets and indices
    that every view operation takes, and the implicit conversions that let
    callers write a bare integer or a value tuple where a tuple is expected.
    C# `long` components are modelled as unbounded `int`. */
module DimTuple {

  /** A rank-1 coordinate. */
  datatype DimTuple1 = DimTuple1(X: int)

  /** A rank-2 coordinate. */
  datatype DimTuple2 = DimTuple2(X: int, Y: int)

  /** The C# `ValueTuple<long>` a caller may pass instead of a `DimTuple1`. */
  datatype ValueTuple1 = ValueTuple1(Item1: int)

  /** The C# `(long, long)` a caller may pass instead of a `DimTuple2`. */
  datatype ValueTuple2 = ValueTuple2(Item1: int, Item2: int)

  /** Implicit conversion from a bare integer. */
  function FromLong(v: int): (t: DimTuple1)
    ensures t.X == v
  {
    DimTuple1(v)
  }

  /** Implicit conversion from a one-element value tuple. */
  function FromValueTuple1(v: ValueTuple1): (t: DimTuple1)
    ensures t.X == v.Item1
  {
    DimTuple1(v.Item1)
  }

  /** Implicit conversion from a pair: the first item is X, the second Y. */
  function FromValueTuple2(v: ValueTuple2): (t: DimTuple2)
    ensures t.X == v.Item1 && t.Y == v.Item2
  {
    DimTuple2(v.Item1, v.Item2)
  }
}
