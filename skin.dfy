/**
 * Skin atlas geometry: how each body part's cuboid is unfolded onto the flat
 * skin texture, the three layout presets, the choice of preset for a fetched
 * texture, and the choice of built-in default skin for a player UUID.
 */
module Skin {
  import opened Wrappers
  import opened Images

  /** A rectangle of the atlas: its top-left corner and its (width, height). */
  datatype TexRegion = TexRegion(origin: (nat, nat), size: (nat, nat))

  /** The six faces of a cuboid as rectangles of the atlas. */
  datatype CuboidTex = CuboidTex(
    front: TexRegion, back: TexRegion,
    top: TexRegion, bottom: TexRegion,
    left: TexRegion, right: TexRegion)

  /** A complete atlas layout; overlay parts are `None` where the layout has none. */
  datatype Format = Format(
    head: CuboidTex,
    hat: CuboidTex,
    body: CuboidTex,
    jacket: Option<CuboidTex>,
    right_leg: CuboidTex,
    right_pants: Option<CuboidTex>,
    left_leg: CuboidTex,
    left_pants: Option<CuboidTex>,
    right_arm: CuboidTex,
    right_sleeves: Option<CuboidTex>,
    left_arm: CuboidTex,
    left_sleeves: Option<CuboidTex>)

  /** `r` is `b` moved right by `b`'s width, on the same row. */
  predicate RightOf(r: TexRegion, b: TexRegion) {
    r.origin == (b.origin.0 + b.size.0, b.origin.1)
  }

  /** Region `r` lies inside the rectangle `[x0, x1) x [y0, y1)`. */
  predicate RegionInBox(r: TexRegion, x0: nat, y0: nat, x1: nat, y1: nat) {
    x0 <= r.origin.0 && r.origin.0 + r.size.0 <= x1 &&
    y0 <= r.origin.1 && r.origin.1 + r.size.1 <= y1
  }

  predicate CuboidInBox(c: CuboidTex, x0: nat, y0: nat, x1: nat, y1: nat) {
    RegionInBox(c.front, x0, y0, x1, y1) && RegionInBox(c.back, x0, y0, x1, y1) &&
    RegionInBox(c.top, x0, y0, x1, y1) && RegionInBox(c.bottom, x0, y0, x1, y1) &&
    RegionInBox(c.left, x0, y0, x1, y1) && RegionInBox(c.right, x0, y0, x1, y1)
  }

  /** `CuboidTex::new`: unfold a cuboid of size (w, h, d) whose net starts at `origin`. */
  function NewCuboidTex(origin: (nat, nat), size: (nat, nat, nat)): CuboidTex {
    var (ox, oy) := origin;
    var (w, h, d) := size;
    CuboidTex(
      TexRegion((ox + d, oy + d), (w, h)),
      TexRegion((ox + d + w, oy + d), (w, h)),
      TexRegion((ox + d, oy), (w, d)),
      TexRegion((ox + d + w, oy), (w, d)),
      TexRegion((ox + d + 2 * w, oy + d), (d, h)),
      TexRegion((ox, oy + d), (d, h)))
  }

  /**
   * The net `CuboidTex::new` lays out: the right, front, back and left faces
   * side by side in the row below the top strip, the top face above the front
   * face and the bottom face beside the top face, all inside a
   * (2d + 2w) x (d + h) box.
   */
  lemma CuboidNet(origin: (nat, nat), size: (nat, nat, nat))
    ensures var c := NewCuboidTex(origin, size);
      && c.right.origin == (origin.0, origin.1 + size.2)
      && RightOf(c.front, c.right) && RightOf(c.back, c.front) && RightOf(c.left, c.back)
      && c.top.origin == (c.front.origin.0, origin.1) && RightOf(c.bottom, c.top)
      && c.front.size == c.back.size == (size.0, size.1)
      && c.top.size == c.bottom.size == (size.0, size.2)
      && c.left.size == c.right.size == (size.2, size.1)
      && CuboidInBox(c, origin.0, origin.1, origin.0 + 2 * size.2 + 2 * size.0, origin.1 + size.2 + size.1)
  {
  }

  const WideArms: Format := Format(
    NewCuboidTex((0, 0), (8, 8, 8)),
    NewCuboidTex((32, 0), (8, 8, 8)),
    NewCuboidTex((16, 16), (8, 12, 4)),
    Some(NewCuboidTex((16, 32), (8, 12, 4))),
    NewCuboidTex((0, 16), (4, 12, 4)),
    Some(NewCuboidTex((0, 32), (4, 12, 4))),
    NewCuboidTex((16, 48), (4, 12, 4)),
    Some(NewCuboidTex((0, 48), (4, 12, 4))),
    NewCuboidTex((40, 16), (4, 12, 4)),
    Some(NewCuboidTex((40, 32), (4, 12, 4))),
    NewCuboidTex((32, 48), (4, 12, 4)),
    Some(NewCuboidTex((48, 48), (4, 12, 4))))

  const SlimArms: Format := Format(
    NewCuboidTex((0, 0), (8, 8, 8)),
    NewCuboidTex((32, 0), (8, 8, 8)),
    NewCuboidTex((16, 16), (8, 12, 4)),
    Some(NewCuboidTex((16, 32), (8, 12, 4))),
    NewCuboidTex((0, 16), (4, 12, 4)),
    Some(NewCuboidTex((0, 32), (4, 12, 4))),
    NewCuboidTex((16, 48), (4, 12, 4)),
    Some(NewCuboidTex((0, 48), (4, 12, 4))),
    NewCuboidTex((40, 16), (3, 12, 4)),
    Some(NewCuboidTex((40, 32), (3, 12, 4))),
    NewCuboidTex((32, 48), (3, 12, 4)),
    Some(NewCuboidTex((48, 48), (3, 12, 4))))

  /** The 64x32 layout: no overlays, and the left limbs reuse the right limbs' regions. */
  const Legacy: Format := Format(
    NewCuboidTex((0, 0), (8, 8, 8)),
    NewCuboidTex((32, 0), (8, 8, 8)),
    NewCuboidTex((16, 16), (8, 12, 4)),
    None,
    NewCuboidTex((0, 16), (4, 12, 4)),
    None,
    NewCuboidTex((0, 16), (4, 12, 4)),
    None,
    NewCuboidTex((40, 16), (4, 12, 4)),
    None,
    NewCuboidTex((40, 16), (4, 12, 4)),
    None)

  /** Every region of an optional part lies inside a `width` x `height` atlas. */
  predicate PartWithin(p: Option<CuboidTex>, width: nat, height: nat) {
    p.Some? ==> CuboidInBox(p.value, 0, 0, width, height)
  }

  /** Every region of every part of `f` lies inside a `width` x `height` atlas. */
  predicate FormatWithin(f: Format, width: nat, height: nat) {
    CuboidInBox(f.head, 0, 0, width, height) && CuboidInBox(f.hat, 0, 0, width, height) &&
    CuboidInBox(f.body, 0, 0, width, height) && PartWithin(f.jacket, width, height) &&
    CuboidInBox(f.right_leg, 0, 0, width, height) && PartWithin(f.right_pants, width, height) &&
    CuboidInBox(f.left_leg, 0, 0, width, height) && PartWithin(f.left_pants, width, height) &&
    CuboidInBox(f.right_arm, 0, 0, width, height) && PartWithin(f.right_sleeves, width, height) &&
    CuboidInBox(f.left_arm, 0, 0, width, height) && PartWithin(f.left_sleeves, width, height)
  }

  /** The two full-size layouts fit a 64x64 atlas and the legacy layout a 64x32 one. */
  lemma PresetsFitAtlas()
    ensures FormatWithin(WideArms, 64, 64)
    ensures FormatWithin(SlimArms, 64, 64)
    ensures FormatWithin(Legacy, 64, 32)
  {
  }

  /** The slim layout is the wide layout with arms and sleeves 3 instead of 4 pixels wide. */
  lemma SlimIsWideWithNarrowArms()
    ensures SlimArms.(right_arm := WideArms.right_arm, right_sleeves := WideArms.right_sleeves,
                      left_arm := WideArms.left_arm, left_sleeves := WideArms.left_sleeves) == WideArms
    ensures WideArms.right_arm.front.size.0 == WideArms.left_arm.front.size.0 == 4
    ensures WideArms.right_sleeves.value.front.size.0 == WideArms.left_sleeves.value.front.size.0 == 4
    ensures SlimArms.right_arm == NewCuboidTex((40, 16), (3, 12, 4))
    ensures SlimArms.right_sleeves == Some(NewCuboidTex((40, 32), (3, 12, 4)))
    ensures SlimArms.left_arm == NewCuboidTex((32, 48), (3, 12, 4))
    ensures SlimArms.left_sleeves == Some(NewCuboidTex((48, 48), (3, 12, 4)))
  {
  }

  /** The legacy layout has no overlay parts, and its left limbs reuse the right limbs' regions. */
  lemma LegacyHasNoOverlays()
    ensures Legacy.jacket.None? && Legacy.right_pants.None? && Legacy.left_pants.None?
    ensures Legacy.right_sleeves.None? && Legacy.left_sleeves.None?
    ensures Legacy.left_leg == Legacy.right_leg && Legacy.left_arm == Legacy.right_arm
    ensures Legacy.(jacket := WideArms.jacket, right_pants := WideArms.right_pants,
                    left_pants := WideArms.left_pants, right_sleeves := WideArms.right_sleeves,
                    left_sleeves := WideArms.left_sleeves,
                    left_leg := WideArms.left_leg, left_arm := WideArms.left_arm) == WideArms
  {
  }

  /** Arm thickness of the player model. */
  datatype Model = Wide | Slim

  /** The skin texture fetched for a player: decoded RGBA pixels and the skin's metadata. */
  datatype PlayerTexture = PlayerTexture(image: Image<Rgba>, metadata: map<string, string>)

  /** An atlas together with the layout it follows. */
  datatype Skin = Skin(image: Image<Rgba>, format: Format)

  /** A skin whose atlas has the dimensions its layout was made for. */
  predicate Supported(skin: Skin) {
    var dims := (skin.image.width, skin.image.height);
    (skin.format == Legacy && dims == (64, 32)) ||
    ((skin.format == WideArms || skin.format == SlimArms) && dims == (64, 64))
  }

  /** Every layout in a supported skin lies inside its atlas. */
  lemma SupportedFitsAtlas(skin: Skin)
    requires Supported(skin)
    ensures FormatWithin(skin.format, skin.image.width, skin.image.height)
  {
    PresetsFitAtlas();
    if skin.format == Legacy {
      assert (skin.image.width, skin.image.height) == (64, 32);
    } else {
      assert (skin.image.width, skin.image.height) == (64, 64);
    }
  }

  /** The model named by the texture metadata: slim only for `"model": "slim"`. */
  function ModelOf(metadata: map<string, string>): (m: Model)
    ensures m == Slim <==> "model" in metadata && metadata["model"] == "slim"
  {
    if "model" in metadata && metadata["model"] == "slim" then Slim else Wide
  }

  /**
   * `Skin::from`: pick the layout from the model and the image dimensions,
   * first matching rule wins; unsupported combinations give `None`.
   */
  function SkinFrom(texture: PlayerTexture): (r: Option<Skin>)
    ensures r.Some? <==>
      (texture.image.width, texture.image.height) == (64, 64) ||
      ((texture.image.width, texture.image.height) == (64, 32) && ModelOf(texture.metadata) == Wide)
    ensures r.Some? ==> r.value.image == texture.image
    ensures r.Some? ==> Supported(r.value)
  {
    var model := ModelOf(texture.metadata);
    var dims := (texture.image.width, texture.image.height);
    if model == Wide && dims == (64, 32) then Some(Skin(texture.image, Legacy))
    else if model == Wide && dims == (64, 64) then Some(Skin(texture.image, WideArms))
    else if model == Slim && dims == (64, 64) then Some(Skin(texture.image, SlimArms))
    else None
  }

  /**
   * The rule table of `Skin::from`: wide 64x32 is legacy, wide 64x64 is the
   * wide-arm layout, slim 64x64 the slim-arm layout; slim 64x32 and every
   * other size are rejected.
   */
  lemma SkinFromRules(texture: PlayerTexture)
    ensures var dims := (texture.image.width, texture.image.height);
      var model := ModelOf(texture.metadata);
      && (model == Wide && dims == (64, 32) ==> SkinFrom(texture) == Some(Skin(texture.image, Legacy)))
      && (model == Wide && dims == (64, 64) ==> SkinFrom(texture) == Some(Skin(texture.image, WideArms)))
      && (model == Slim && dims == (64, 64) ==> SkinFrom(texture) == Some(Skin(texture.image, SlimArms)))
      && (model == Slim && dims == (64, 32) ==> SkinFrom(texture) == None)
      && (dims != (64, 32) && dims != (64, 64) ==> SkinFrom(texture) == None)
  {
  }

  /** The two built-in skins. */
  datatype DefaultSkin = Steve | Alex

  /** `i64 >> 32` on the bit pattern of a signed 64-bit value: an arithmetic shift. */
  function SignedShr32(v: bv64): bv64 {
    if v & 0x8000_0000_0000_0000 == 0 then v >> 32 else (v >> 32) | 0xFFFF_FFFF_0000_0000
  }

  /** `as i32` on the bit pattern of a 64-bit value: keep the low 32 bits. */
  function Truncate32(v: bv64): bv32 {
    (v & 0xFFFF_FFFF) as bv32
  }

  /** Java's `UUID.hashCode`: fold the two 64-bit halves, then the two 32-bit halves. */
  function UuidHashCode(uuid: bv128): bv32 {
    var msb := (uuid >> 64) as bv64;
    var lsb := (uuid & 0xFFFF_FFFF_FFFF_FFFF) as bv64;
    var hilo := msb ^ lsb;
    Truncate32(SignedShr32(hilo)) ^ Truncate32(hilo)
  }

  /**
   * `DefaultSkin::from`: Steve for an even hash code, Alex for an odd one; the
   * parity of the hash is the parity of UUID bits 0, 32, 64 and 96 together.
   */
  function DefaultSkinFrom(uuid: bv128): (d: DefaultSkin)
    ensures d == Steve <==> (uuid ^ (uuid >> 32) ^ (uuid >> 64) ^ (uuid >> 96)) & 1 == 0
  {
    if UuidHashCode(uuid) & 1 == 0 then Steve else Alex
  }

  /** Flipping any one of the bits that feed the hash's lowest bit flips the default skin. */
  lemma DefaultSkinBitFlip(uuid: bv128)
    ensures DefaultSkinFrom(uuid ^ 1) != DefaultSkinFrom(uuid)
    ensures DefaultSkinFrom(uuid ^ (1 << 32)) != DefaultSkinFrom(uuid)
    ensures DefaultSkinFrom(uuid ^ (1 << 64)) != DefaultSkinFrom(uuid)
    ensures DefaultSkinFrom(uuid ^ (1 << 96)) != DefaultSkinFrom(uuid)
  {
  }

  /** `DefaultSkin::as_skin`: Steve's atlas uses the wide layout, Alex's the slim one. */
  function DefaultSkinAtlas(d: DefaultSkin, steve: Image<Rgba>, alex: Image<Rgba>): (skin: Skin)
    requires steve.width == 64 && steve.height == 64 && alex.width == 64 && alex.height == 64
    ensures Supported(skin)
    ensures skin.image == if d == Steve then steve else alex
    ensures skin.format.right_arm.front.size.0 == skin.format.left_arm.front.size.0 == if d == Steve then 4 else 3
  {
    match d
    case Steve => Skin(steve, WideArms)
    case Alex => Skin(alex, SlimArms)
  }
}
