/**
 * Face compositing and nearest-neighbour upscaling: the face is the head's
 * front region with the hat's front region blended over it, alpha dropped.
 * Pixel blending belongs to the `image` crate and is a parameter here.
 */
module Render {
  import opened Images
  import opened Powers
  import opened Skin

  /**
   * `rescale`: the image `2^scale` times larger in each direction, whose
   * pixel `(x, y)` copies the input pixel `(x >> scale, y >> scale)`.
   */
  function Rescale<P>(image: Image<P>, scale: nat): (r: Image<P>)
    ensures r.width == Shl(image.width, scale) && r.height == Shl(image.height, scale)
    ensures forall x: nat, y: nat | x < r.width && y < r.height ::
      Shr(x, scale) < image.width && Shr(y, scale) < image.height &&
      At(r, x, y) == At(image, Shr(x, scale), Shr(y, scale))
  {
    var width, height := Shl(image.width, scale), Shl(image.height, scale);
    assert forall x: nat | x < width :: Shr(x, scale) < image.width by {
      forall x: nat | x < width ensures Shr(x, scale) < image.width {
        ShrBelow(x, image.width, scale);
      }
    }
    assert forall y: nat | y < height :: Shr(y, scale) < image.height by {
      forall y: nat | y < height ensures Shr(y, scale) < image.height {
        ShrBelow(y, image.height, scale);
      }
    }
    FromFn(width, height,
      (x: nat, y: nat) requires x < width && y < height =>
        At(image, Shr(x, scale), Shr(y, scale)))
  }

  /** Rescaling by exponent 0 is the identity. */
  lemma RescaleZero<P>(image: Image<P>)
    ensures Rescale(image, 0) == image
  {
    var r := Rescale(image, 0);
    forall x: nat, y: nat | x < r.width && y < r.height
      ensures At(r, x, y) == At(image, x, y)
    {
      assert Shr(x, 0) == x && Shr(y, 0) == y;
    }
    ImagesEqual(r, image);
  }

  /**
   * Every aligned `2^scale` x `2^scale` block of the output repeats one input
   * pixel: output pixel `(blockX * 2^scale + i, blockY * 2^scale + j)` is input pixel `(blockX, blockY)`.
   */
  lemma RescaleBlocks<P>(image: Image<P>, scale: nat, blockX: nat, blockY: nat, i: nat, j: nat)
    requires blockX < image.width && blockY < image.height
    requires i < Pow2(scale) && j < Pow2(scale)
    ensures Shl(blockX, scale) + i < Rescale(image, scale).width
    ensures Shl(blockY, scale) + j < Rescale(image, scale).height
    ensures At(Rescale(image, scale), Shl(blockX, scale) + i, Shl(blockY, scale) + j) == At(image, blockX, blockY)
  {
    BlockCoordinate(blockX, image.width, scale, i);
    BlockCoordinate(blockY, image.height, scale, j);
  }

  /** Offset `i` inside block `b` of size `2^scale` is below the scaled bound and shifts back to `b`. */
  lemma BlockCoordinate(b: nat, bound: nat, scale: nat, i: nat)
    requires b < bound && i < Pow2(scale)
    ensures Shl(b, scale) + i < Shl(bound, scale)
    ensures Shr(Shl(b, scale) + i, scale) == b
  {
    var p := Pow2(scale);
    DivUnique(b * p + i, p, b, i);
    MulMono(b + 1, bound, p);
    Distrib(b, 1, p);
  }

  /** Rescaling twice is rescaling once by the sum of the exponents. */
  lemma RescaleTwice<P>(image: Image<P>, a: nat, b: nat)
    ensures Rescale(Rescale(image, a), b) == Rescale(image, a + b)
  {
    var once, twice, direct := Rescale(image, a), Rescale(Rescale(image, a), b), Rescale(image, a + b);
    ShlShl(image.width, a, b);
    ShlShl(image.height, a, b);
    forall x: nat, y: nat | x < twice.width && y < twice.height
      ensures At(twice, x, y) == At(direct, x, y)
    {
      ShrShr(x, b, a);
      ShrShr(y, b, a);
    }
    ImagesEqual(twice, direct);
  }

  lemma ShlShl(v: nat, a: nat, b: nat)
    ensures Shl(Shl(v, a), b) == Shl(v, a + b)
  {
    Pow2Add(a, b);
    Assoc(v, Pow2(a), Pow2(b));
  }

  /** A window onto the atlas: region-local coordinates `(x, y)` read atlas `(x + ox, y + oy)`. */
  datatype TexView = TexView(offset: (nat, nat), width: nat, height: nat, image: Image<Rgba>)

  /** `TexView::of`. */
  function TexViewOf(region: TexRegion, image: Image<Rgba>): TexView {
    TexView(region.origin, region.size.0, region.size.1, image)
  }

  /**
   * `TexView::get_pixel`. Reading outside the view is a layout bug on which
   * the source panics, and so is reading outside the atlas (`ImageBuffer::get_pixel`
   * panics): both are preconditions.
   */
  function GetPixel(view: TexView, x: nat, y: nat): Rgba
    requires x < view.width && y < view.height
    requires x + view.offset.0 < view.image.width && y + view.offset.1 < view.image.height
  {
    At(view.image, x + view.offset.0, y + view.offset.1)
  }

  /** A view of `region` reads the atlas pixel at the region's origin plus the local coordinates. */
  lemma ViewReadsRegion(region: TexRegion, image: Image<Rgba>, x: nat, y: nat)
    requires x < region.size.0 && y < region.size.1
    requires RegionInBox(region, 0, 0, image.width, image.height)
    ensures x + TexViewOf(region, image).offset.0 < image.width
    ensures y + TexViewOf(region, image).offset.1 < image.height
    ensures GetPixel(TexViewOf(region, image), x, y) == At(image, region.origin.0 + x, region.origin.1 + y)
  {
  }

  /**
   * What `render_face` needs of a skin so that no `get_pixel` panics: both
   * front regions inside the atlas, and the hat's front at least as large as
   * the head's (the loops run over the head's front).
   */
  predicate Renderable(skin: Skin) {
    var head, hat := skin.format.head.front, skin.format.hat.front;
    RegionInBox(head, 0, 0, skin.image.width, skin.image.height) &&
    RegionInBox(hat, 0, 0, skin.image.width, skin.image.height) &&
    head.size.0 <= hat.size.0 && head.size.1 <= hat.size.1
  }

  /** One face pixel: the head pixel with the hat pixel blended over it, alpha dropped. */
  function FacePixel(skin: Skin, blend: (Rgba, Rgba) -> Rgba, x: nat, y: nat): Rgb
    requires Renderable(skin)
    requires x < skin.format.head.front.size.0 && y < skin.format.head.front.size.1
  {
    var face := TexViewOf(skin.format.head.front, skin.image);
    var hat := TexViewOf(skin.format.hat.front, skin.image);
    ToRgb(blend(GetPixel(face, x, y), GetPixel(hat, x, y)))
  }

  /** The face `render_face` draws, as a value: one `FacePixel` per head-front pixel. */
  function Face(skin: Skin, blend: (Rgba, Rgba) -> Rgba): (face: Image<Rgb>)
    requires Renderable(skin)
    ensures face.width == skin.format.head.front.size.0 && face.height == skin.format.head.front.size.1
  {
    var head := skin.format.head.front;
    FromFn(head.size.0, head.size.1,
      (x: nat, y: nat) requires x < head.size.0 && y < head.size.1 => FacePixel(skin, blend, x, y))
  }

  /**
   * `render_face`: fill an empty buffer of the head-front size row by row,
   * each pixel the head pixel with the hat pixel blended over it.
   */
  method RenderFace(skin: Skin, blend: (Rgba, Rgba) -> Rgba) returns (face: Image<Rgb>)
    requires Renderable(skin)
    ensures face.width == skin.format.head.front.size.0 && face.height == skin.format.head.front.size.1
    ensures forall x: nat, y: nat | x < face.width && y < face.height ::
      At(face, x, y) == FacePixel(skin, blend, x, y)
  {
    var format := skin.format;
    var faceView := TexViewOf(format.head.front, skin.image);
    var hatView := TexViewOf(format.hat.front, skin.image);
    var result := new Rgb[faceView.height, faceView.width]((y, x) => Rgb(0, 0, 0));
    var y := 0;
    while y < faceView.height
      invariant y <= faceView.height
      invariant forall j: nat, i: nat | j < y && i < faceView.width :: result[j, i] == FacePixel(skin, blend, i, j)
    {
      var x := 0;
      while x < faceView.width
        invariant x <= faceView.width
        invariant forall j: nat, i: nat | j < y && i < faceView.width :: result[j, i] == FacePixel(skin, blend, i, j)
        invariant forall i: nat | i < x :: result[y, i] == FacePixel(skin, blend, i, y)
      {
        var pixel := GetPixel(faceView, x, y);
        pixel := blend(pixel, GetPixel(hatView, x, y));
        result[y, x] := ToRgb(pixel);
        x := x + 1;
      }
      y := y + 1;
    }
    face := Snapshot(result);
  }

  /** `RenderFace` computes exactly `Face`. */
  lemma RenderFaceIsFace(skin: Skin, blend: (Rgba, Rgba) -> Rgba, face: Image<Rgb>)
    requires Renderable(skin)
    requires face.width == skin.format.head.front.size.0 && face.height == skin.format.head.front.size.1
    requires forall x: nat, y: nat | x < face.width && y < face.height ::
      At(face, x, y) == FacePixel(skin, blend, x, y)
    ensures face == Face(skin, blend)
  {
    ImagesEqual(face, Face(skin, blend));
  }

  /** All three layouts put an 8x8 head front at (8, 8) and an 8x8 hat front at (40, 8). */
  predicate StandardFace(format: Format) {
    format.head.front == TexRegion((8, 8), (8, 8)) && format.hat.front == TexRegion((40, 8), (8, 8))
  }

  lemma PresetsHaveStandardFace()
    ensures StandardFace(WideArms) && StandardFace(SlimArms) && StandardFace(Legacy)
  {
  }

  /**
   * Every skin whose atlas has its layout's dimensions (every skin `Skin::from`
   * accepts, and the default skins) renders without a panic, and its face is
   * 8x8, pixel `(x, y)` being atlas pixel `(8 + x, 8 + y)` with atlas pixel
   * `(40 + x, 8 + y)` blended over it.
   */
  lemma SupportedSkinRenders(skin: Skin, blend: (Rgba, Rgba) -> Rgba)
    requires Supported(skin)
    ensures skin.image.width == 64 && skin.image.height >= 32
    ensures Renderable(skin)
    ensures var face := Face(skin, blend);
      face.width == 8 && face.height == 8 &&
      forall x: nat, y: nat | x < 8 && y < 8 ::
        At(face, x, y) == ToRgb(blend(At(skin.image, 8 + x, 8 + y), At(skin.image, 40 + x, 8 + y)))
  {
    PresetsHaveStandardFace();
    StandardFaceRenders(skin, blend);
  }

  /** A supported skin renders without a panic, and its head front is 8x8. */
  lemma SupportedIsRenderable(skin: Skin)
    requires Supported(skin)
    ensures Renderable(skin) && skin.format.head.front.size == (8, 8)
  {
    PresetsHaveStandardFace();
  }

  lemma StandardFaceRenders(skin: Skin, blend: (Rgba, Rgba) -> Rgba)
    requires StandardFace(skin.format) && skin.image.width >= 48 && skin.image.height >= 16
    ensures Renderable(skin)
    ensures var face := Face(skin, blend);
      face.width == 8 && face.height == 8 &&
      forall x: nat, y: nat | x < 8 && y < 8 ::
        At(face, x, y) == ToRgb(blend(At(skin.image, 8 + x, 8 + y), At(skin.image, 40 + x, 8 + y)))
  {
  }
}
