/**
 * The pixel grids of the `image` crate as values: `RgbaImage` (the skin atlas)
 * and `RgbImage` (the rendered face) are `Image<Rgba>` and `Image<Rgb>`.
 * Row `y`, column `x` holds the pixel at `(x, y)`.
 */
module Images {

  newtype byte = x: int | 0 <= x < 256

  datatype Rgba = Rgba(r: byte, g: byte, b: byte, a: byte)

  datatype Rgb = Rgb(r: byte, g: byte, b: byte)

  datatype RawImage<P> = RawImage(width: nat, height: nat, rows: seq<seq<P>>)

  /** An image whose rows all have the declared width. */
  type Image<P> = img: RawImage<P> | |img.rows| == img.height && forall y | 0 <= y < |img.rows| :: |img.rows[y]| == img.width
    witness RawImage(0, 0, [])

  /** `ImageBuffer::get_pixel`, which panics outside the image. */
  function At<P>(img: Image<P>, x: nat, y: nat): P
    requires x < img.width && y < img.height
  {
    img.rows[y][x]
  }

  /** The image whose pixel `(x, y)` is `f(x, y)`: `ImageBuffer::from_fn`. */
  function FromFn<P>(width: nat, height: nat, f: (nat, nat) --> P): (img: Image<P>)
    requires forall x: nat, y: nat | x < width && y < height :: f.requires(x, y)
    ensures img.width == width && img.height == height
    ensures forall x: nat, y: nat | x < width && y < height :: At(img, x, y) == f(x, y)
  {
    RawImage(width, height, seq(height, (y: int) requires 0 <= y < height => seq(width, (x: int) requires 0 <= x < width => f(x, y))))
  }

  /** Two images with the same dimensions and the same pixels are the same image. */
  lemma ImagesEqual<P>(a: Image<P>, b: Image<P>)
    requires a.width == b.width && a.height == b.height
    requires forall x: nat, y: nat | x < a.width && y < a.height :: At(a, x, y) == At(b, x, y)
    ensures a == b
  {
    forall y | 0 <= y < a.height
      ensures a.rows[y] == b.rows[y]
    {
      assert forall x | 0 <= x < a.width :: a.rows[y][x] == At(a, x, y) == At(b, x, y) == b.rows[y][x];
    }
  }

  /** The colour channels of an RGBA pixel, its alpha dropped. */
  function ToRgb(p: Rgba): Rgb {
    Rgb(p.r, p.g, p.b)
  }

  /** The current contents of a pixel buffer, `a[y, x]` being the pixel at `(x, y)`. */
  function Snapshot<P>(a: array2<P>): (img: Image<P>)
    reads a
    ensures img.width == a.Length1 && img.height == a.Length0
    ensures forall x: nat, y: nat | x < a.Length1 && y < a.Length0 :: At(img, x, y) == a[y, x]
  {
    RawImage(a.Length1, a.Length0,
      seq(a.Length0, y requires 0 <= y < a.Length0 reads a =>
        seq(a.Length1, x requires 0 <= x < a.Length1 reads a => a[y, x])))
  }
}
