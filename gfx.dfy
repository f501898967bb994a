/**
 * The part of the gfx library that the RGB PWM draw target consumes: pixel
 * values and formats, geometry, results, and the helpers it calls. The gfx
 * library itself is not part of this model; each definition below states the
 * behaviour the draw target relies on, as an assumption where noted.
 */
module Gfx {

  /** A pointer that may be null: `None` is null, `Some(v)` points at storage holding `v`. */
  datatype Option<T> = None | Some(value: T)

  /** The two outcomes of `gfx_result` that this draw target produces. */
  datatype GfxResult = Success | InvalidState

  /** The bit depths of the R, G and B channels of a pixel type. */
  datatype Format = Format(rBits: nat, gBits: nat, bBits: nat)

  /** `rgb_pixel<24>`: the draw target's external pixel type. */
  const Rgb24: Format := Format(8, 8, 8)

  /** `rgb_pixel<16>`: the pixel type of the fallback group. */
  const Rgb16: Format := Format(5, 6, 5)

  /** The channel values of a pixel; which format they are in is tracked beside it. */
  datatype Pixel = Pixel(r: int, g: int, b: int)

  /** A default-constructed pixel (assumed to hold zero in every channel). */
  const Black: Pixel := Pixel(0, 0, 0)

  /**
   * `gfx::convert`: converts a pixel from a source format to a destination
   * format. Left uninterpreted: the draw target receives it as a parameter.
   */
  type Convert = (Pixel, Format, Format) -> Pixel

  /** `point16`, `size16` and `rect16`, with their coordinates as integers. */
  datatype Point = Point(x: int, y: int)
  datatype Size = Size(width: int, height: int)
  datatype Rect = Rect(x1: int, y1: int, x2: int, y2: int)

  /** `gfx::helpers::clamp`: the value moved into `[lo, hi]`. */
  function Clamp(v: int, lo: int, hi: int): (r: int)
    requires lo <= hi
    ensures lo <= r <= hi
    ensures lo <= v <= hi ==> r == v
    ensures v < lo ==> r == lo
    ensures hi < v ==> r == hi
  {
    if v < lo then lo else if hi < v then hi else v
  }

  /** Two to the power `n`. */
  function Pow2(n: nat): (p: nat)
    ensures p >= 1
  {
    if n == 0 then 1 else 2 * Pow2(n - 1)
  }

  lemma {:induction false} Pow2Monotone(a: nat, b: nat)
    requires a <= b
    ensures Pow2(a) <= Pow2(b)
    decreases b
  {
    if a < b {
      Pow2Monotone(a, b - 1);
    }
  }

  /** A value converted to `uint16_t`: arithmetic modulo 2^16. */
  function ToUInt16(v: int): (r: int)
    ensures 0 <= r < 0x1_0000
    ensures 0 <= v < 0x1_0000 ==> r == v
    ensures (v - r) % 0x1_0000 == 0
  {
    v % 0x1_0000
  }

  /**
   * `size16::bounds()`: the rectangle from the origin to `(width-1, height-1)`,
   * computed in `uint16_t` (assumption: gfx is not part of this model).
   */
  function SizeBounds(s: Size): (r: Rect)
    ensures r.x1 == 0 && r.y1 == 0
    ensures 0 <= r.x2 < 0x1_0000 && 0 <= r.y2 < 0x1_0000
    ensures 0 < s.width <= 0x1_0000 ==> r.x2 == s.width - 1
    ensures 0 < s.height <= 0x1_0000 ==> r.y2 == s.height - 1
  {
    Rect(0, 0, ToUInt16(s.width - 1), ToUInt16(s.height - 1))
  }

  /**
   * `rect16::crop(bounds)`: every coordinate moved into the span of `bounds`
   * along its axis (assumption: gfx is not part of this model).
   */
  function Crop(r: Rect, bounds: Rect): (c: Rect)
    requires bounds.x1 <= bounds.x2 && bounds.y1 <= bounds.y2
    ensures bounds.x1 <= c.x1 <= bounds.x2 && bounds.x1 <= c.x2 <= bounds.x2
    ensures bounds.y1 <= c.y1 <= bounds.y2 && bounds.y1 <= c.y2 <= bounds.y2
    ensures bounds.x1 <= r.x1 <= bounds.x2 ==> c.x1 == r.x1
    ensures bounds.x1 <= r.x2 <= bounds.x2 ==> c.x2 == r.x2
    ensures bounds.y1 <= r.y1 <= bounds.y2 ==> c.y1 == r.y1
    ensures bounds.y1 <= r.y2 <= bounds.y2 ==> c.y2 == r.y2
  {
    Rect(Clamp(r.x1, bounds.x1, bounds.x2), Clamp(r.y1, bounds.y1, bounds.y2),
         Clamp(r.x2, bounds.x1, bounds.x2), Clamp(r.y2, bounds.y1, bounds.y2))
  }

  /** `rect16::normalize()`: the same rectangle with its corners ordered. */
  function Normalize(r: Rect): (n: Rect)
    ensures n.x1 <= n.x2 && n.y1 <= n.y2
    ensures (n.x1 == r.x1 && n.x2 == r.x2) || (n.x1 == r.x2 && n.x2 == r.x1)
    ensures (n.y1 == r.y1 && n.y2 == r.y2) || (n.y1 == r.y2 && n.y2 == r.y1)
  {
    Rect(if r.x1 <= r.x2 then r.x1 else r.x2, if r.y1 <= r.y2 then r.y1 else r.y2,
         if r.x1 <= r.x2 then r.x2 else r.x1, if r.y1 <= r.y2 then r.y2 else r.y1)
  }
}
