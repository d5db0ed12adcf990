/**
 * Images as 2-D grids of 8-bit pixels, and the grid operations that the
 * augmentation pipeline applies and that are simple enough to state exactly:
 * cropping (with the imaging library's zero padding outside the image),
 * horizontal and vertical flips, conversion to a tensor in [0, 1],
 * normalisation with mean 0.5 and standard deviation 0.5, and the cast of a
 * tensor to integers.
 */
module Grids {

  newtype byte = x: int | 0 <= x < 256

  /** Row-major: g[r][c] is the pixel at row r, column c. */
  type Grid<T> = seq<seq<T>>

  function Height<T>(g: Grid<T>): nat { |g| }

  /** The width of an image is the length of its first row (0 for an image without rows). */
  function Width<T>(g: Grid<T>): nat { if |g| == 0 then 0 else |g[0]| }

  predicate HasShape<T>(g: Grid<T>, h: nat, w: nat)
  {
    |g| == h && forall r :: 0 <= r < h ==> |g[r]| == w
  }

  /** The pixel at (r, c); positions outside the image read as 0. */
  function PixelAt(g: Grid<byte>, r: int, c: int): byte
  {
    if 0 <= r < |g| && 0 <= c < |g[r]| then g[r][c] else 0
  }

  /** The h-by-w window whose top-left corner is (top, left). */
  function Crop(g: Grid<byte>, top: int, left: int, h: nat, w: nat): (out: Grid<byte>)
    ensures HasShape(out, h, w)
  {
    seq(h, r => seq(w, c => PixelAt(g, top + r, left + c)))
  }

  function Reverse<T>(s: seq<T>): (out: seq<T>)
    ensures |out| == |s|
  {
    seq(|s|, i requires 0 <= i < |s| => s[|s| - 1 - i])
  }

  /** Mirror left to right: every row is reversed. */
  function HFlip<T>(g: Grid<T>): (out: Grid<T>)
    ensures |out| == |g| && forall r :: 0 <= r < |g| ==> |out[r]| == |g[r]|
  {
    seq(|g|, r requires 0 <= r < |g| => Reverse(g[r]))
  }

  /** Mirror top to bottom: the order of the rows is reversed. */
  function VFlip<T>(g: Grid<T>): (out: Grid<T>)
    ensures |out| == |g| && forall r :: 0 <= r < |g| ==> |out[r]| == |g[|g| - 1 - r]|
  {
    seq(|g|, r requires 0 <= r < |g| => g[|g| - 1 - r])
  }

  lemma HFlipInvolution<T>(g: Grid<T>)
    ensures HFlip(HFlip(g)) == g
  {
    forall r | 0 <= r < |g|
      ensures HFlip(HFlip(g))[r] == g[r]
    {
      assert HFlip(HFlip(g))[r] == Reverse(Reverse(g[r]));
    }
  }

  lemma VFlipInvolution<T>(g: Grid<T>)
    ensures VFlip(VFlip(g)) == g
  {
  }

  /** An 8-bit image as a float tensor: every pixel divided by 255. */
  function ToTensor(g: Grid<byte>): (t: Grid<real>)
    ensures |t| == |g| && forall r :: 0 <= r < |g| ==> |t[r]| == |g[r]|
    ensures forall r, c :: 0 <= r < |t| && 0 <= c < |t[r]| ==> 0.0 <= t[r][c] <= 1.0
  {
    seq(|g|, r requires 0 <= r < |g| => seq(|g[r]|, c requires 0 <= c < |g[r]| => g[r][c] as real / 255.0))
  }

  /** Per-channel normalisation with mean 0.5 and standard deviation 0.5. */
  function Normalize(t: Grid<real>): (n: Grid<real>)
    ensures |n| == |t| && forall r :: 0 <= r < |t| ==> |n[r]| == |t[r]|
    ensures forall r, c :: 0 <= r < |t| && 0 <= c < |t[r]| && 0.0 <= t[r][c] <= 1.0 ==> -1.0 <= n[r][c] <= 1.0
  {
    seq(|t|, r requires 0 <= r < |t| => seq(|t[r]|, c requires 0 <= c < |t[r]| => (t[r][c] - 0.5) / 0.5))
  }

  /** Conversion of a float to an integer, truncating toward zero. */
  function Truncate(x: real): (n: int)
    ensures 0.0 <= x ==> n as real <= x < n as real + 1.0
    ensures x < 0.0 ==> n as real - 1.0 < x <= n as real
  {
    if x >= 0.0 then x.Floor else -((-x).Floor)
  }

  /** The tensor's integer cast, element by element. */
  function ToInt(t: Grid<real>): (n: Grid<int>)
    ensures |n| == |t| && forall r :: 0 <= r < |t| ==> |n[r]| == |t[r]|
  {
    seq(|t|, r requires 0 <= r < |t| => seq(|t[r]|, c requires 0 <= c < |t[r]| => Truncate(t[r][c])))
  }

}
