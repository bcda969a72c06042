/**
 * What the capture stage produces: the kinds of view a request can be
 * built from, the bitmap each capture yields, and the row layout of the
 * tall bitmap drawn for a list view, computed in Java's 32-bit int.
 */
module Capture {

  const TwoTo31: int := 0x8000_0000
  const TwoTo32: int := 0x1_0000_0000

  /** A Java int. */
  type Int32 = x: int | -0x8000_0000 <= x < 0x8000_0000

  /** Java int arithmetic: the value congruent to x modulo 2^32 in the int range. */
  function Wrap32(x: int): (r: Int32)
    ensures (r - x) % TwoTo32 == 0
    ensures -TwoTo31 <= x < TwoTo31 ==> r == x
  {
    (x + TwoTo31) % TwoTo32 - TwoTo31
  }

  /** Wrapping after every addition is the same as wrapping once at the end. */
  lemma Wrap32Add(x: int, y: int)
    ensures Wrap32(Wrap32(x) + y) == Wrap32(x + y)
  {
    var q := (x + TwoTo31) / TwoTo32;
    assert x + TwoTo31 == q * TwoTo32 + (x + TwoTo31) % TwoTo32;
    assert Wrap32(x) + y + TwoTo31 == (x + y + TwoTo31) - q * TwoTo32;
    ModShift(x + y + TwoTo31, q);
  }

  lemma ModShift(a: int, q: int)
    ensures (a - q * TwoTo32) % TwoTo32 == a % TwoTo32
  {
    var t := a / TwoTo32 - q;
    assert a - q * TwoTo32 == t * TwoTo32 + a % TwoTo32;
    ModUnique(a - q * TwoTo32, t, a % TwoTo32);
  }

  lemma ModUnique(b: int, t: int, r: int)
    requires 0 <= r < TwoTo32 && b == t * TwoTo32 + r
    ensures b % TwoTo32 == r
  {
  }

  /** The view a request is built from; fields are the measured sizes the capture reads. */
  datatype ViewKind =
    | PlainView(width: Int32, height: Int32)
    | TextureView
    | RecyclerView(measuredWidth: Int32, itemHeight: Int32, itemCount: Int32)
    | SurfaceView(width: Int32, height: Int32)

  /** A captured or supplied bitmap. Its pixels are not modelled, only where it came from. */
  datatype Bitmap =
    | Supplied(id: nat)
    | Drawn(width: Int32, height: Int32)
    | TextureSnapshot
    | LongBitmap(listWidth: Int32, totalHeight: Int32, rowTops: seq<Int32>)
    | SurfaceCopy

  /**
   * The layout part of generateLongBitmap: the bitmap height
   * itemHeight * itemCount and the top offset at which each row is drawn,
   * accumulated one itemHeight at a time, both in 32-bit int arithmetic.
   */
  method LongBitmapLayout(itemHeight: Int32, itemCount: Int32) returns (height: Int32, rowTops: seq<Int32>)
    ensures height == Wrap32(itemHeight * itemCount)
    ensures |rowTops| == if itemCount < 0 then 0 else itemCount
    ensures forall i :: 0 <= i < |rowTops| ==> rowTops[i] == Wrap32(i * itemHeight)
  {
    height := Wrap32(itemHeight * itemCount);
    rowTops := [];
    var top: Int32 := 0;
    var i: Int32 := 0;
    while i < itemCount
      invariant 0 <= i && (itemCount >= 0 ==> i <= itemCount) && (itemCount < 0 ==> i == 0)
      invariant |rowTops| == i
      invariant top == Wrap32(i * itemHeight)
      invariant forall k :: 0 <= k < i ==> rowTops[k] == Wrap32(k * itemHeight)
    {
      rowTops := rowTops + [top];
      Wrap32Add(i * itemHeight, itemHeight);
      assert i * itemHeight + itemHeight == (i + 1) * itemHeight;
      top := Wrap32(top + itemHeight);
      i := i + 1;
    }
  }

  /**
   * When itemHeight * itemCount fits in an int, nothing wraps: row i starts at
   * i * itemHeight and ends inside the bitmap, so the rows tile it top to bottom.
   */
  lemma RowsTileLongBitmap(itemHeight: Int32, itemCount: Int32, i: int)
    requires 0 <= itemHeight && 0 <= i < itemCount
    requires itemHeight * itemCount < TwoTo31
    ensures Wrap32(i * itemHeight) == i * itemHeight
    ensures i * itemHeight + itemHeight <= Wrap32(itemHeight * itemCount)
  {
    assert i * itemHeight + itemHeight == (i + 1) * itemHeight;
    assert (i + 1) * itemHeight <= itemCount * itemHeight by {
      MulMonotone(i + 1, itemCount, itemHeight);
    }
  }

  lemma MulMonotone(a: int, b: int, c: int)
    requires 0 <= a <= b && 0 <= c
    ensures a * c <= b * c
  {
  }

  /**
   * Without the fit condition the int arithmetic wraps. 2^16 rows of 2^16
   * pixels give height 0, and 2^15 such rows a negative height;
   * Bitmap.createBitmap rejects both. With 2^16 + 1 rows the height wraps to
   * a positive 2^16, so the bitmap is created, and row 2^16 is drawn at
   * offset 0, on top of row 0.
   */
  lemma LongBitmapHeightWraps()
    ensures Wrap32(0x1_0000 * 0x1_0000) == 0
    ensures Wrap32(0x8000 * 0x1_0000) == -TwoTo31
    ensures Wrap32(0x1_0000 * 0x1_0001) == 0x1_0000 && Wrap32(0x1_0000 * 0x1_0000) == Wrap32(0 * 0x1_0000)
  {
  }
}
