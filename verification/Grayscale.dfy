/** The fixed-point grayscale loop rgb2gray_u8 of the boundary-extraction program. */
module Grayscale {
  import opened SystemCalls

  const INT_MAX := 0x7FFF_FFFF

  /** (77 R + 150 G + 29 B) >> 8 in unsigned arithmetic. */
  function Luma(r: Byte, g: Byte, b: Byte): (y: Byte)
  {
    var r', g', b': int := r, g, b;
    (77 * r' + 150 * g' + 29 * b') / 256
  }

  function Min(a: int, b: int): int {
    if a < b then a else b
  }

  function Max(a: int, b: int): int {
    if a < b then b else a
  }

  /** The cast to 8 bits loses nothing, and the result lies between the smallest and the largest component. */
  lemma LumaBetween(r: Byte, g: Byte, b: Byte)
    ensures Min(r, Min(g, b)) <= Luma(r, g, b) <= Max(r, Max(g, b))
    ensures Luma(r, g, b) == ((77 * (r as int) + 150 * (g as int) + 29 * (b as int)) / 256) % 256
  {
    var lo: int, hi: int := Min(r, Min(g, b)), Max(r, Max(g, b));
    var sum := 77 * (r as int) + 150 * (g as int) + 29 * (b as int);
    assert 256 * lo <= sum <= 256 * hi;
  }

  /** The luma of section 2.5.1 of ITU-R BT.601-7. */
  function ExactLuma(r: Byte, g: Byte, b: Byte): real {
    0.299 * (r as int as real) + 0.587 * (g as int as real) + 0.114 * (b as int as real)
  }

  /** The fixed-point value is never more than 0.455 above and less than 1.455 below the exact luma. */
  lemma LumaError(r: Byte, g: Byte, b: Byte)
    ensures -1.455 < (Luma(r, g, b) as int as real) - ExactLuma(r, g, b) < 0.455
  {
    var y: int := Luma(r, g, b);
    var sum := 77 * (r as int) + 150 * (g as int) + 29 * (b as int);
    assert 256 * y <= sum < 256 * y + 256;
    var rr, gg, bb := r as int as real, g as int as real, b as int as real;
    assert sum as real == 77.0 * rr + 150.0 * gg + 29.0 * bb;
    assert (256 * y) as real == 256.0 * (y as real);
  }

  /** The loop: every output pixel is the luma of its own triple, and nothing beyond w * h is written. */
  method Rgb2Gray(rgb: array<Byte>, gray: array<Byte>, w: nat, h: nat)
    requires 3 * (w * h) <= rgb.Length && w * h <= gray.Length && 3 * (w * h) <= INT_MAX
    requires rgb != gray
    modifies gray
    ensures forall i :: 0 <= i < w * h ==> gray[i] == Luma(rgb[3 * i], rgb[3 * i + 1], rgb[3 * i + 2])
    ensures forall i :: w * h <= i < gray.Length ==> gray[i] == old(gray[i])
  {
    var n := w * h;
    var i := 0;
    while i < n
      invariant 0 <= i <= n
      invariant forall k :: 0 <= k < i ==> gray[k] == Luma(rgb[3 * k], rgb[3 * k + 1], rgb[3 * k + 2])
      invariant forall k :: i <= k < gray.Length ==> gray[k] == old(gray[k])
    {
      var r, g, b := rgb[3 * i + 0], rgb[3 * i + 1], rgb[3 * i + 2];
      LumaBetween(r, g, b);
      gray[i] := (77 * (r as int) + 150 * (g as int) + 29 * (b as int)) / 256 % 256;
      i := i + 1;
    }
  }
}
