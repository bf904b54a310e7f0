/**
 * The pixel work of texture loading: the warning for dimensions that are not
 * powers of two, and the in-place vertical flip of an RGBA buffer.
 */
module Texture {
  type Byte = bv8

  /** Channels per pixel: the loader is asked for RGBA. */
  const ForcedChannels: nat := 4

  /** Bitwise AND of two non-negative integers, bit by bit from the lowest. */
  function BitAnd(a: nat, b: nat): (r: nat)
    ensures r <= a && r <= b
    decreases a
  {
    if a == 0 || b == 0 then 0
    else 2 * BitAnd(a / 2, b / 2) + (if a % 2 == 1 && b % 2 == 1 then 1 else 0)
  }

  predicate IsPowerOfTwo(n: nat)
    decreases n
  {
    n == 1 || (n > 1 && n % 2 == 0 && IsPowerOfTwo(n / 2))
  }

  lemma {:induction false} BitAndSelf(n: nat)
    ensures BitAnd(n, n) == n
    decreases n
  {
    if n != 0 {
      BitAndSelf(n / 2);
    }
  }

  /** n & (n - 1) clears the lowest set bit, so it is zero exactly for powers of two. */
  lemma {:induction false} PowerOfTwoTest(n: nat)
    requires n > 0
    ensures BitAnd(n, n - 1) == 0 <==> IsPowerOfTwo(n)
    decreases n
  {
    if n == 1 {
    } else if n % 2 == 0 {
      var m := n / 2;
      assert (n - 1) / 2 == m - 1 && (n - 1) % 2 == 1;
      PowerOfTwoTest(m);
      assert BitAnd(n, n - 1) == 2 * BitAnd(m, m - 1);
    } else {
      var m := n / 2;
      assert m > 0 && (n - 1) / 2 == m;
      BitAndSelf(m);
      assert BitAnd(n, n - 1) == 2 * m;
    }
  }

  /** The test the loader applies to one dimension: d & (d - 1) != 0. For d = 0 it is 0 & -1, which is 0. */
  function DimensionWarns(d: nat): bool {
    if d == 0 then false else BitAnd(d, d - 1) != 0
  }

  /** Whether the loader warns that a width-by-height texture is not power-of-two sized. */
  function NpotWarning(width: nat, height: nat): bool {
    DimensionWarns(width) || DimensionWarns(height)
  }

  /** For real images, the warning fires exactly when a side is not a power of two. */
  lemma NpotWarningExact(width: nat, height: nat)
    requires width > 0 && height > 0
    ensures NpotWarning(width, height) <==> !IsPowerOfTwo(width) || !IsPowerOfTwo(height)
  {
    PowerOfTwoTest(width);
    PowerOfTwoTest(height);
  }

  /** The buffer of `height` rows of `width` bytes with its rows in reverse order. */
  function Flipped(s: seq<Byte>, width: nat, height: nat): (r: seq<Byte>)
    requires |s| == width * height
    ensures |r| == width * height
    decreases height
  {
    if height == 0 then [] else Flipped(s[width..], width, height - 1) + s[..width]
  }

  lemma MulMonotone(a: nat, b: nat, w: nat)
    requires a <= b
    ensures a * w <= b * w
  {
  }

  lemma MulDistributes(a: int, b: int, w: int)
    ensures (a + b) * w == a * w + b * w && w * a == a * w
  {
  }

  /** One unfolding of Flipped at index `k`: the first height - 1 rows come from the rest, the last from the first row. */
  lemma FlippedIndex(s: seq<Byte>, width: nat, height: nat, k: nat)
    requires |s| == width * height && 0 < height && k < width * height
    ensures width <= |s| && |s[width..]| == width * (height - 1)
    ensures k < width * (height - 1) ==> Flipped(s, width, height)[k] == Flipped(s[width..], width, height - 1)[k]
    ensures width * (height - 1) <= k ==> Flipped(s, width, height)[k] == s[k - width * (height - 1)]
  {
    MulDistributes(height - 1, 1, width);
    MulMonotone(1, height, width);
  }

  /** The index of byte `col` of row `row` in a buffer of `height` rows of `width` bytes. */
  function Offset(width: nat, height: nat, row: nat, col: nat): (k: nat)
    requires row < height && col < width
    ensures k < width * height
  {
    MulMonotone(row + 1, height, width);
    MulDistributes(row, 1, width);
    row * width + col
  }

  /** The byte at (row, col) of the flipped buffer is the one at (height - 1 - row, col). */
  lemma {:induction false} FlippedAt(s: seq<Byte>, width: nat, height: nat, row: nat, col: nat)
    requires |s| == width * height && row < height && col < width
    ensures Flipped(s, width, height)[Offset(width, height, row, col)] == s[Offset(width, height, height - 1 - row, col)]
    decreases height
  {
    var top, bottom := row * width, (height - 1 - row) * width;
    var k := top + col;
    var below := width * (height - 1);
    MulDistributes(height - 1, 1, width);
    MulDistributes(row, 1, width);
    MulDistributes(height - 1 - row, row, width);
    MulMonotone(row + 1, height, width);
    assert bottom + top + width == width * height;
    FlippedIndex(s, width, height, k);
    if row < height - 1 {
      MulMonotone(row + 1, height - 1, width);
      assert k < below;
      FlippedAt(s[width..], width, height - 1, row, col);
      MulDistributes(height - 2 - row, 1, width);
      assert (height - 1 - 1 - row) * width + width == bottom;
    } else {
      assert top == below && bottom == 0;
    }
  }

  /** For an odd number of rows the middle row stays where it is. */
  lemma FlippedKeepsMiddleRow(s: seq<Byte>, width: nat, height: nat, col: nat)
    requires |s| == width * height && height % 2 == 1 && col < width
    ensures (height / 2) * width + col < |s|
    ensures Flipped(s, width, height)[(height / 2) * width + col] == s[(height / 2) * width + col]
  {
    FlippedAt(s, width, height, height / 2, col);
  }

  /** Every index of a width-by-height buffer is some (row, col). */
  lemma RowAndColumn(i: nat, width: nat, height: nat) returns (row: nat, col: nat)
    requires i < width * height
    ensures row < height && col < width && i == row * width + col
  {
    row, col := i / width, i % width;
    if row >= height {
      MulMonotone(height, row, width);
      MulDistributes(height, 0, width);
    }
  }

  lemma FlippedTwiceAt(s: seq<Byte>, width: nat, height: nat, row: nat, col: nat)
    requires |s| == width * height && row < height && col < width
    ensures row * width + col < |s|
    ensures Flipped(Flipped(s, width, height), width, height)[row * width + col] == s[row * width + col]
  {
    var mirror := height - 1 - row;
    FlippedAt(Flipped(s, width, height), width, height, row, col);
    FlippedAt(s, width, height, mirror, col);
    assert height - 1 - mirror == row;
  }

  /** Flipping twice gives the buffer back. */
  lemma FlippedTwice(s: seq<Byte>, width: nat, height: nat)
    requires |s| == width * height
    ensures Flipped(Flipped(s, width, height), width, height) == s
  {
    var ff := Flipped(Flipped(s, width, height), width, height);
    forall i | 0 <= i < |s|
      ensures ff[i] == s[i]
    {
      var row, col := RowAndColumn(i, width, height);
      FlippedTwiceAt(s, width, height, row, col);
    }
  }

  /** Swaps the `widthInBytes` bytes at `top` with those at `bottom`, moving both indices one byte at a time. */
  method SwapRows(data: array<Byte>, top: nat, bottom: nat, widthInBytes: nat)
    requires top + widthInBytes <= bottom && bottom + widthInBytes <= data.Length
    modifies data
    ensures forall i :: 0 <= i < data.Length ==>
      data[i] == if top <= i < top + widthInBytes then old(data[i + (bottom - top)])
                 else if bottom <= i < bottom + widthInBytes then old(data[i - (bottom - top)])
                 else old(data[i])
  {
    var t, b := top, bottom;
    var col := 0;
    while col < widthInBytes
      invariant 0 <= col <= widthInBytes && t == top + col && b == bottom + col
      invariant forall i :: 0 <= i < data.Length ==>
        data[i] == if top <= i < t then old(data[i + (bottom - top)])
                   else if bottom <= i < b then old(data[i - (bottom - top)])
                   else old(data[i])
    {
      var temp := data[t];
      data[t] := data[b];
      data[b] := temp;
      t := t + 1;
      b := b + 1;
      col := col + 1;
    }
  }

  /** Where the row pair (row, y - 1 - row) lies, for a row of the upper half. */
  lemma RowPairBounds(w: nat, y: nat, row: nat)
    requires row < y / 2
    ensures row * w + w <= (y - 1 - row) * w
    ensures (y - 1 - row) * w + w == (y - row) * w <= y * w == w * y
    ensures (row + 1) * w == row * w + w && (y - (row + 1)) * w == (y - 1 - row) * w
  {
    MulMonotone(row + 1, y - 1 - row, w);
    MulMonotone(y - row, y, w);
    MulDistributes(row, 1, w);
    MulDistributes(y - 1 - row, 1, w);
    MulDistributes(y, 0, w);
  }

  /** The flipped buffer holds, in row `row` and its mirror row, the bytes of the other. */
  lemma FlippedRowPair(s: seq<Byte>, w: nat, y: nat, row: nat)
    requires |s| == w * y && row < y / 2
    ensures row * w + w <= (y - 1 - row) * w && (y - 1 - row) * w + w <= |s|
    ensures forall i :: row * w <= i < row * w + w ==>
      Flipped(s, w, y)[i] == s[i + ((y - 1 - row) * w - row * w)]
    ensures forall i :: (y - 1 - row) * w <= i < (y - 1 - row) * w + w ==>
      Flipped(s, w, y)[i] == s[i - ((y - 1 - row) * w - row * w)]
  {
    RowPairBounds(w, y, row);
    var top, bottom := row * w, (y - 1 - row) * w;
    forall i | top <= i < top + w
      ensures Flipped(s, w, y)[i] == s[i + (bottom - top)]
    {
      FlippedAt(s, w, y, row, i - top);
    }
    forall i | bottom <= i < bottom + w
      ensures Flipped(s, w, y)[i] == s[i - (bottom - top)]
    {
      FlippedAt(s, w, y, y - 1 - row, i - bottom);
      assert y - 1 - (y - 1 - row) == row;
    }
  }

  /** The middle row of `FlippedKeepsMiddleRow`, as a whole row of indices, in the form the flip loop consumes. */
  lemma FlippedMiddleRow(s: seq<Byte>, w: nat, y: nat)
    requires |s| == w * y && y % 2 == 1
    ensures (y / 2) * w + w == (y - y / 2) * w <= |s|
    ensures forall i :: (y / 2) * w <= i < (y / 2) * w + w ==> Flipped(s, w, y)[i] == s[i]
  {
    MulDistributes(y / 2, 1, w);
    MulMonotone(y / 2 + 1, y, w);
    MulDistributes(y, 0, w);
    assert y - y / 2 == y / 2 + 1;
    forall i | (y / 2) * w <= i < (y / 2) * w + w
      ensures Flipped(s, w, y)[i] == s[i]
    {
      FlippedKeepsMiddleRow(s, w, y, i - (y / 2) * w);
    }
  }

  /** Flips an image of x by y RGBA pixels vertically in place. */
  method FlipVertically(data: array<Byte>, x: nat, y: nat)
    requires data.Length == x * ForcedChannels * y
    modifies data
    ensures data[..] == Flipped(old(data[..]), x * ForcedChannels, y)
  {
    var widthInBytes := x * ForcedChannels;
    var halfHeight := y / 2;
    ghost var s := data[..];
    ghost var f := Flipped(s, widthInBytes, y);
    ghost var lo, hi := 0, y * widthInBytes;
    MulDistributes(y, 0, widthInBytes);
    var row := 0;
    while row < halfHeight
      invariant 0 <= row <= halfHeight
      invariant lo == row * widthInBytes && hi == (y - row) * widthInBytes
      invariant forall i :: 0 <= i < data.Length ==> data[i] == if i < lo || hi <= i then f[i] else s[i]
    {
      var top := row * widthInBytes;
      var bottom := (y - 1 - row) * widthInBytes;
      RowPairBounds(widthInBytes, y, row);
      FlippedRowPair(s, widthInBytes, y, row);
      SwapRows(data, top, bottom, widthInBytes);
      row := row + 1;
      lo, hi := top + widthInBytes, bottom;
    }
    if y % 2 == 1 {
      FlippedMiddleRow(s, widthInBytes, y);
    } else {
      assert y - y / 2 == y / 2;
    }
    assert data[..] == f;
  }

  /**
   * The part of texture loading after a successful load: the power-of-two
   * warning, then the vertical flip of the x-by-y RGBA buffer.
   */
  method PreparePixels(data: array<Byte>, x: nat, y: nat) returns (npotWarning: bool)
    requires data.Length == x * ForcedChannels * y
    modifies data
    ensures npotWarning == NpotWarning(x, y)
    ensures data[..] == Flipped(old(data[..]), x * ForcedChannels, y)
  {
    npotWarning := DimensionWarns(x) || DimensionWarns(y);
    FlipVertically(data, x, y);
  }
}
