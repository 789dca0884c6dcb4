/** Rotating a captured BGRA frame: whole four-byte pixels, moved by index arithmetic over flat arrays. */
module Rotate {
  import opened Bytes
  import opened Wrappers

  datatype Rotation = Unspecified | Identity | Rotate90 | Rotate180 | Rotate270 | OtherRotation

  /** Where the pixel in column `x` of row `y` goes: its column, row, and the destination's width. */
  function Destination(width: nat, height: nat, rotation: Rotation, x: nat, y: nat): (r: (nat, nat, nat))
    requires x < width && y < height
  {
    match rotation
    case Rotate90 => (height - 1 - y, x, height)
    case Rotate180 => (width - 1 - x, height - 1 - y, width)
    case Rotate270 => (y, width - 1 - x, height)
    case _ => (x, y, width)
  }

  /** The row-major index of a pixel. */
  function At(width: nat, x: nat, y: nat): nat {
    y * width + x
  }

  /** The destination index of the `i`-th pixel in row-major order. */
  function Target(width: nat, height: nat, rotation: Rotation, i: nat): nat
    requires i < width * height
  {
    InFrame(width, height, i);
    var (x, y, destinationWidth) := Destination(width, height, rotation, i % width, i / width);
    At(destinationWidth, x, y)
  }

  function Inverse(rotation: Rotation): Rotation {
    match rotation
    case Rotate90 => Rotate270
    case Rotate270 => Rotate90
    case _ => rotation
  }

  /** The frame after rotation; bytes past the last pixel come out zero. */
  function Rotated(source: seq<byte>, width: nat, height: nat, rotation: Rotation): (r: seq<byte>)
    requires 4 * (width * height) <= |source|
    ensures |r| == |source|
  {
    if rotation == Unspecified || rotation == Identity then source
    else seq(|source|, k requires 0 <= k < |source| => ByteAt(source, width, height, rotation, k))
  }

  function ByteAt(source: seq<byte>, width: nat, height: nat, rotation: Rotation, k: nat): byte
    requires 4 * (width * height) <= |source|
  {
    if k < 4 * (width * height) then source[4 * Origin(width, height, rotation, k / 4) + k % 4] else 0
  }

  /** The source index of the `j`-th pixel of the rotated frame. */
  function Origin(width: nat, height: nat, rotation: Rotation, j: nat): (i: nat)
    requires j < width * height
    ensures i < width * height
    ensures Target(width, height, rotation, i) == j
  {
    var (w, h) := RotatedDimensions(width, height, rotation);
    TargetInverse(w, h, Inverse(rotation), j);
    Target(w, h, Inverse(rotation), j)
  }

  /** The dimensions of the rotated frame. */
  function RotatedDimensions(width: nat, height: nat, rotation: Rotation): (r: (nat, nat))
    ensures r.0 * r.1 == width * height
  {
    if rotation == Rotate90 || rotation == Rotate270 then (height, width) else (width, height)
  }

  // ---------------------------------------------------------------------------------------------
  // Index arithmetic
  // ---------------------------------------------------------------------------------------------

  lemma InFrame(width: nat, height: nat, i: nat)
    requires i < width * height
    ensures width > 0 && i % width < width && i / width < height
    ensures At(width, i % width, i / width) == i
  {
    if width > 0 {
      assert i == i / width * width + i % width;
      if i / width >= height {
        ProductMonotone(height, i / width, width);
      }
    }
  }

  lemma ProductMonotone(a: nat, b: nat, c: nat)
    requires a <= b
    ensures a * c <= b * c
  {
    assert (b - a) * c >= 0;
  }

  lemma AtInFrame(width: nat, height: nat, x: nat, y: nat)
    requires x < width && y < height
    ensures At(width, x, y) < width * height
    ensures At(width, x, y) % width == x && At(width, x, y) / width == y
  {
    ProductMonotone(y + 1, height, width);
    assert (y + 1) * width == y * width + width;
    DivModUnique(At(width, x, y), width, y, x);
  }

  /** Rotation moves every pixel inside the frame, and the inverse rotation of the rotated frame
      moves it back: so it is a bijection of pixels. */
  lemma TargetInverse(width: nat, height: nat, rotation: Rotation, i: nat)
    requires i < width * height
    ensures Target(width, height, rotation, i) < width * height
    ensures var (w, h) := RotatedDimensions(width, height, rotation);
            Target(w, h, Inverse(rotation), Target(width, height, rotation, i)) == i
  {
    InFrame(width, height, i);
    var x, y := i % width, i / width;
    var (x', y', width') := Destination(width, height, rotation, x, y);
    var (w, h) := RotatedDimensions(width, height, rotation);
    AtInFrame(w, h, x', y');
    assert width' == w;
  }

  /** Two quarter turns are a half turn. */
  lemma QuarterTwice(width: nat, height: nat, i: nat)
    requires i < width * height
    ensures Target(width, height, Rotate90, i) < height * width
    ensures Target(height, width, Rotate90, Target(width, height, Rotate90, i)) == Target(width, height, Rotate180, i)
  {
    TargetInverse(width, height, Rotate90, i);
    InFrame(width, height, i);
    AtInFrame(height, width, height - 1 - i / width, i % width);
  }

  // ---------------------------------------------------------------------------------------------
  // The loop
  // ---------------------------------------------------------------------------------------------

  ghost predicate PixelMoved(output: seq<byte>, to: nat, source: seq<byte>, from: nat) {
    && 4 * to + 4 <= |output| && 4 * from + 4 <= |source|
    && output[4 * to..4 * to + 4] == source[4 * from..4 * from + 4]
  }

  /** The first `n` pixels are in place, and the bytes past the last pixel are zero. */
  ghost predicate MovedUpto(output: seq<byte>, source: seq<byte>, width: nat, height: nat, rotation: Rotation, n: nat) {
    && n <= width * height && 4 * (width * height) <= |source| == |output|
    && (forall i :: 0 <= i < n ==> PixelMoved(output, Target(width, height, rotation, i), source, i))
    && (forall k :: 4 * (width * height) <= k < |source| ==> output[k] == 0)
  }

  /** Offsets are 32-bit, and the slices must exist: that is what a frame must satisfy. */
  method RotateBgra(source: seq<byte>, width: u32, height: u32, rotation: Rotation) returns (result: seq<byte>)
    requires 4 * (width * height) <= |source|
    requires 4 * (width * height) <= TWO_TO_THE_32
    ensures result == Rotated(source, width, height, rotation)
  {
    if rotation == Unspecified || rotation == Identity {
      return source;
    }
    var output := new byte[|source|](_ => 0);
    RowStart(width, height, 0);
    for y := 0 to height
      invariant MovedUpto(output[..], source, width, height, rotation, At(width, 0, y))
    {
      for x := 0 to width
        invariant MovedUpto(output[..], source, width, height, rotation, At(width, x, y))
      {
        MovePixel(output, source, width, height, rotation, x, y);
      }
      RowStart(width, height, y);
    }
    MovedIsRotated(output[..], source, width, height, rotation);
    return output[..];
  }

  /** A row ends where the next one starts, and the rows fill the frame. */
  lemma RowStart(width: nat, height: nat, y: nat)
    ensures At(width, 0, 0) == 0 && At(width, width, y) == At(width, 0, y + 1) && At(width, 0, height) == width * height
  {
  }

  /** Moves the pixel in column `x` of row `y` to its place. */
  method MovePixel(output: array<byte>, source: seq<byte>, width: u32, height: u32, rotation: Rotation, x: nat, y: nat)
    requires x < width && y < height && 4 * (width * height) <= TWO_TO_THE_32
    requires MovedUpto(output[..], source, width, height, rotation, At(width, x, y))
    modifies output
    ensures MovedUpto(output[..], source, width, height, rotation, At(width, x + 1, y))
  {
    var (destinationX, destinationY, destinationWidth) := Destination(width, height, rotation, x, y);
    ghost var i := At(width, x, y);
    AtInFrame(width, height, x, y);
    TargetInverse(width, height, rotation, i);
    assert Target(width, height, rotation, i) == At(destinationWidth, destinationX, destinationY);
    var sourceOffset: u32 := (y * width + x) * 4;
    var destinationOffset: u32 := (destinationY * destinationWidth + destinationX) * 4;
    CopyPixel(output, destinationOffset, source, sourceOffset, width, height, rotation, i);
  }

  /** Copies one pixel; the pixels placed before it stay, because no two have the same target. */
  method CopyPixel(output: array<byte>, to: nat, source: seq<byte>, from: nat,
                   ghost width: nat, ghost height: nat, ghost rotation: Rotation, ghost i: nat)
    requires i < width * height && MovedUpto(output[..], source, width, height, rotation, i)
    requires from == 4 * i && to == 4 * Target(width, height, rotation, i)
    requires Target(width, height, rotation, i) < width * height
    modifies output
    ensures MovedUpto(output[..], source, width, height, rotation, i + 1)
  {
    ghost var before := output[..];
    CopyBytes(output, to, source, from);
    OnePixelMoved(before, output[..], source, width, height, rotation, i);
  }

  method CopyBytes(output: array<byte>, to: nat, source: seq<byte>, from: nat)
    requires to + 4 <= output.Length && from + 4 <= |source|
    modifies output
    ensures output[to..to + 4] == source[from..from + 4]
    ensures forall k :: 0 <= k < output.Length && !(to <= k < to + 4) ==> output[k] == old(output[k])
  {
    output[to], output[to + 1], output[to + 2], output[to + 3] := source[from], source[from + 1], source[from + 2], source[from + 3];
  }

  lemma OnePixelMoved(before: seq<byte>, after: seq<byte>, source: seq<byte>, width: nat, height: nat, rotation: Rotation, i: nat)
    requires i < width * height && MovedUpto(before, source, width, height, rotation, i)
    requires |after| == |before| && PixelMoved(after, Target(width, height, rotation, i), source, i)
    requires var to := 4 * Target(width, height, rotation, i);
             to < 4 * (width * height) && forall k :: 0 <= k < |before| && !(to <= k < to + 4) ==> after[k] == before[k]
    ensures MovedUpto(after, source, width, height, rotation, i + 1)
  {
    forall j | 0 <= j < i
      ensures PixelMoved(after, Target(width, height, rotation, j), source, j)
    {
      TargetInverse(width, height, rotation, j);
      TargetInverse(width, height, rotation, i);
      PixelStays(before, after, Target(width, height, rotation, i), Target(width, height, rotation, j), source, j);
    }
  }

  /** Writing one pixel leaves the others. */
  lemma PixelStays(before: seq<byte>, after: seq<byte>, written: nat, to: nat, source: seq<byte>, from: nat)
    requires |before| == |after| && forall k :: 0 <= k < |before| && !(4 * written <= k < 4 * written + 4) ==> after[k] == before[k]
    requires PixelMoved(before, to, source, from) && to != written
    ensures PixelMoved(after, to, source, from)
  {
    assert after[4 * to..4 * to + 4] == before[4 * to..4 * to + 4];
  }

  lemma MovedIsRotated(output: seq<byte>, source: seq<byte>, width: nat, height: nat, rotation: Rotation)
    requires rotation != Unspecified && rotation != Identity
    requires MovedUpto(output, source, width, height, rotation, width * height)
    ensures output == Rotated(source, width, height, rotation)
  {
    forall k | 0 <= k < |source|
      ensures output[k] == ByteAt(source, width, height, rotation, k)
    {
      if k < 4 * (width * height) {
        var j, c := k / 4, k % 4;
        var i := Origin(width, height, rotation, j);
        ByteMoved(output, j, source, i, c);
      }
    }
    var rotated := Rotated(source, width, height, rotation);
    assert |output| == |rotated| && forall k :: 0 <= k < |source| ==> output[k] == rotated[k];
  }

  lemma ByteMoved(output: seq<byte>, to: nat, source: seq<byte>, from: nat, c: nat)
    requires PixelMoved(output, to, source, from) && c < 4
    ensures output[4 * to + c] == source[4 * from + c]
  {
    assert output[4 * to..4 * to + 4][c] == source[4 * from..4 * from + 4][c];
  }

  lemma RotatedAt(source: seq<byte>, width: nat, height: nat, rotation: Rotation, j: nat, c: nat)
    requires rotation != Unspecified && rotation != Identity
    requires 4 * (width * height) <= |source| && j < width * height && c < 4
    ensures Rotated(source, width, height, rotation)[4 * j + c] == source[4 * Origin(width, height, rotation, j) + c]
  {
    var k := 4 * j + c;
    assert k < 4 * (width * height) && k / 4 == j && k % 4 == c;
    assert Rotated(source, width, height, rotation)[k] == ByteAt(source, width, height, rotation, k);
  }

  // ---------------------------------------------------------------------------------------------
  // Rotations compose
  // ---------------------------------------------------------------------------------------------

  /** Rotating, then rotating the result the other way, restores a frame that is exactly its pixels:
      quarter turns undo each other on the swapped dimensions, and a half turn undoes itself. */
  lemma RotationUndone(source: seq<byte>, width: nat, height: nat, rotation: Rotation)
    requires |source| == 4 * (width * height)
    ensures var (w, h) := RotatedDimensions(width, height, rotation);
            Rotated(Rotated(source, width, height, rotation), w, h, Inverse(rotation)) == source
  {
    if rotation != Unspecified && rotation != Identity {
      var (w, h) := RotatedDimensions(width, height, rotation);
      var back := Rotated(Rotated(source, width, height, rotation), w, h, Inverse(rotation));
      forall k | 0 <= k < |source|
        ensures back[k] == source[k]
      {
        PixelOf(width * height, k);
        UndoneAt(source, width, height, rotation, k / 4, k % 4);
      }
      assert back == source;
    }
  }

  /** The pixel a byte belongs to. */
  lemma PixelOf(pixels: nat, k: nat)
    requires k < 4 * pixels
    ensures k / 4 < pixels && 4 * (k / 4) + k % 4 == k
  {
  }

  lemma UndoneAt(source: seq<byte>, width: nat, height: nat, rotation: Rotation, j: nat, c: nat)
    requires rotation != Unspecified && rotation != Identity
    requires |source| == 4 * (width * height) && j < width * height && c < 4
    ensures var (w, h) := RotatedDimensions(width, height, rotation);
            Rotated(Rotated(source, width, height, rotation), w, h, Inverse(rotation))[4 * j + c] == source[4 * j + c]
  {
    var (w, h) := RotatedDimensions(width, height, rotation);
    var i := Origin(w, h, Inverse(rotation), j);
    RotatedAt(Rotated(source, width, height, rotation), w, h, Inverse(rotation), j, c);
    RotatedAt(source, width, height, rotation, i, c);
  }

  /** Two quarter turns, the second on the swapped dimensions, are one half turn. */
  lemma QuarterTurnTwice(source: seq<byte>, width: nat, height: nat)
    requires 4 * (width * height) <= |source|
    ensures Rotated(Rotated(source, width, height, Rotate90), height, width, Rotate90) == Rotated(source, width, height, Rotate180)
  {
    var once := Rotated(source, width, height, Rotate90);
    var twice := Rotated(once, height, width, Rotate90);
    forall k | 0 <= k < |source|
      ensures twice[k] == Rotated(source, width, height, Rotate180)[k]
    {
      if k < 4 * (width * height) {
        PixelOf(width * height, k);
        TwiceAt(source, width, height, k / 4, k % 4);
      }
    }
  }

  lemma TwiceAt(source: seq<byte>, width: nat, height: nat, j: nat, c: nat)
    requires 4 * (width * height) <= |source| && j < width * height && c < 4
    ensures Rotated(Rotated(source, width, height, Rotate90), height, width, Rotate90)[4 * j + c]
         == Rotated(source, width, height, Rotate180)[4 * j + c]
  {
    var j' := Origin(height, width, Rotate90, j);
    var i := Origin(width, height, Rotate90, j');
    RotatedAt(Rotated(source, width, height, Rotate90), height, width, Rotate90, j, c);
    RotatedAt(source, width, height, Rotate90, j', c);
    RotatedAt(source, width, height, Rotate180, j, c);
    QuarterTwice(width, height, i);
    TargetInverse(width, height, Rotate180, i);
  }

  // ---------------------------------------------------------------------------------------------
  // Where each pixel goes
  // ---------------------------------------------------------------------------------------------

  /** The byte `c` of the pixel in column `x` of row `y` of a frame of that width. */
  function Pixel(frame: seq<byte>, width: nat, x: nat, y: nat, c: nat): Option<byte> {
    if 4 * (y * width + x) + c < |frame| then Some(frame[4 * (y * width + x) + c]) else None
  }

  lemma MovedTo(source: seq<byte>, width: nat, height: nat, rotation: Rotation, i: nat, j: nat, c: nat)
    requires rotation != Unspecified && rotation != Identity
    requires 4 * (width * height) <= |source| && i < width * height && c < 4
    requires j == Target(width, height, rotation, i) && j < width * height
    ensures Rotated(source, width, height, rotation)[4 * j + c] == source[4 * i + c]
  {
    RotatedAt(source, width, height, rotation, j, c);
    var (w, h) := RotatedDimensions(width, height, rotation);
    TargetInverse(width, height, rotation, i);
  }

  lemma PixelAt(frame: seq<byte>, width: nat, x: nat, y: nat, c: nat, i: nat)
    requires i == At(width, x, y) && 4 * i + c < |frame|
    ensures Pixel(frame, width, x, y, c) == Some(frame[4 * i + c])
  {
  }

  lemma InBytes(area: nat, i: nat, c: nat, n: nat)
    requires i < area && c < 4 && 4 * area <= n
    ensures 4 * i + c < n
  {
  }

  lemma TargetAt(width: nat, height: nat, rotation: Rotation, x: nat, y: nat)
    requires x < width && y < height
    ensures At(width, x, y) < width * height
    ensures var (x', y', w) := Destination(width, height, rotation, x, y);
            Target(width, height, rotation, At(width, x, y)) == At(w, x', y') < width * height
  {
    AtInFrame(width, height, x, y);
    TargetInverse(width, height, rotation, At(width, x, y));
  }

  lemma MovedPixel(source: seq<byte>, width: nat, height: nat, rotation: Rotation, x: nat, y: nat, w: nat, x': nat, y': nat, c: nat)
    requires rotation != Unspecified && rotation != Identity
    requires 4 * (width * height) <= |source| && x < width && y < height && c < 4
    requires Destination(width, height, rotation, x, y) == (x', y', w)
    ensures Pixel(Rotated(source, width, height, rotation), w, x', y', c) == Pixel(source, width, x, y, c)
    ensures Pixel(source, width, x, y, c).Some?
  {
    TargetAt(width, height, rotation, x, y);
    var i, j := At(width, x, y), At(w, x', y');
    InBytes(width * height, i, c, |source|);
    InBytes(width * height, j, c, |source|);
    MovedTo(source, width, height, rotation, i, j, c);
    PixelAt(source, width, x, y, c, i);
    PixelAt(Rotated(source, width, height, rotation), w, x', y', c, j);
  }

  /** A quarter turn clockwise: the top row becomes the right-hand column, read downwards, and the frame as
      wide as it was high. A quarter turn the other way, a half turn, and frames left in place, likewise. */
  lemma PixelsTurn(source: seq<byte>, width: nat, height: nat, x: nat, y: nat, c: nat)
    requires 4 * (width * height) <= |source| && x < width && y < height && c < 4
    ensures Pixel(source, width, x, y, c).Some?
    ensures Pixel(Rotated(source, width, height, Rotate90), height, height - 1 - y, x, c) == Pixel(source, width, x, y, c)
    ensures Pixel(Rotated(source, width, height, Rotate270), height, y, width - 1 - x, c) == Pixel(source, width, x, y, c)
    ensures Pixel(Rotated(source, width, height, Rotate180), width, width - 1 - x, height - 1 - y, c) == Pixel(source, width, x, y, c)
    ensures Rotated(source, width, height, Unspecified) == Rotated(source, width, height, Identity) == source
    ensures Pixel(Rotated(source, width, height, OtherRotation), width, x, y, c) == Pixel(source, width, x, y, c)
  {
    MovedPixel(source, width, height, Rotate90, x, y, height, height - 1 - y, x, c);
    MovedPixel(source, width, height, Rotate270, x, y, height, y, width - 1 - x, c);
    MovedPixel(source, width, height, Rotate180, x, y, width, width - 1 - x, height - 1 - y, c);
    MovedPixel(source, width, height, OtherRotation, x, y, width, x, y, c);
  }

  /** Bytes past the last pixel come out zero, unless the frame is left in place. */
  lemma RestIsZero(source: seq<byte>, width: nat, height: nat, rotation: Rotation, k: nat)
    requires 4 * (width * height) <= k < |source| && rotation != Unspecified && rotation != Identity
    ensures Rotated(source, width, height, rotation)[k] == 0
  {
  }
}
