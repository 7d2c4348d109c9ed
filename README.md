# player-face-api, modelled in Dafny

player-face-api serves `GET /face/<size>/<uuid>`: the face of a Minecraft
player as a PNG `size` pixels square. The service fetches the player's skin
texture, picks the atlas layout for it, or falls back to the built-in Steve
or Alex skin. It then blends the hat layer over the head's front face,
upscales by a power of two, encodes the result, and keeps rendered faces and
encoded replies in two LRU caches.

The model has one module per source file, plus three small helper modules:

- `Skin` (`skin.dfy`, for `src/skin/mod.rs`) holds the texture regions, the
  cuboid unfold `CuboidTex::new`, the three layout presets, the rule table of
  `Skin::from`, and Java's `UUID.hashCode` bit by bit in `bv128`/`bv64`/`bv32`
  for `DefaultSkin::from`. `TexRegion::new` is the `TexRegion` constructor.
- `Render` (`render.dfy`, for `src/render.rs`) holds `rescale` as a
  per-pixel function and `TexView::of`/`get_pixel`. `render_face` is a method
  whose nested loops fill an `array2` buffer; it is proved against the
  function `Face`. Pixel blending is a parameter.
- `Caching` (`cache.dfy`, for `src/cache.rs`) models the cache as a class.
  Its entries are a sequence of (key, value) pairs, least recently used
  first. `Lookup` is `LruCache::get_mut`, `Store` is `LruCache::insert` and
  `TryGet` is `Cache::try_get`. A ghost log records every key the loader is
  called with.
- `Api` (`api.dfy`, for `src/api.rs`) covers skin resolution, the fallback,
  rendering, scaling, encoding and the error kinds. `FaceReply` is the answer
  to a request with no cache involved. `GetFace`, `LoadFace` and `GetRawFace`
  are the methods that go through the two caches.
- `Web` (`web.dfy`, for `src/web.rs`) holds `log2`, `parse_scale` and the
  order of decisions in the route handler.
- `Images`, `Powers` and `Wrappers` are helpers. They give pixel grids as
  values (row `y`, column `x`), powers of two with the meaning of `<<`/`>>`,
  and `Option`/`Result`.

The outside world is the value `Api.Env`. It holds the profile lookup, the
texture download and decode, the pixel blend, the PNG encoder, the SHA-1/base64
digest and the two embedded default skins. Each is a function or a value, so
it is the same for every request.

The central result is cache transparency. `Caches.Coherent(env)` says every
cached raw face is what `LoadRawFace` gives for its UUID, and every cached
reply is what `FaceReply` gives for its key. `GetFace` keeps this invariant
and always answers `FaceReply(env, uuid, scale)`, on a hit and on a miss.

Two behaviours of the code are worth stating plainly:

- Profile and texture fetch errors propagate as `MinecraftApi` with no
  fallback (src/api.rs:120, 132, 137). Only a missing profile, a missing skin
  reference or unsupported dimensions fall back to a default skin.
- `Cache::new` accepts any capacity, including 0, where an inserted entry is
  evicted at once. The model allows the same.

## Model

| member | source | states |
|---|---|---|
| `Skin.NewCuboidTex` | src/skin/mod.rs:99-126 | `CuboidTex::new` as a function with no contract of its own; `CuboidNet` states the net it lays out |
| `Skin.CuboidNet` | src/skin/mod.rs:99-126 | The six faces form the cuboid's net. Right is at (ox, oy+d). Front, back and left follow it side by side, each shifted by the width of the one before. Top sits above front at row oy, with bottom beside it. Sizes are front/back (w,h), top/bottom (w,d), left/right (d,h). So front is at (ox+d, oy+d), back at (ox+d+w, oy+d), left at (ox+d+2w, oy+d) and bottom at (ox+d+w, oy). All six lie inside the (2d+2w)×(d+h) box at the origin |
| `Skin.PresetsFitAtlas` | src/skin/mod.rs:26-85 | Every region of every part of WIDE_ARMS and SLIM_ARMS lies inside 64×64, and every region of LEGACY inside 64×32 |
| `Skin.SlimIsWideWithNarrowArms` | src/skin/mod.rs:26-64 | SLIM_ARMS equals WIDE_ARMS in every field except the two arms and two sleeves. Those are 3 wide instead of 4, at the same origins |
| `Skin.LegacyHasNoOverlays` | src/skin/mod.rs:67-85 | In LEGACY, jacket, pants and sleeves are all absent. Left leg/arm equal right leg/arm. Head, hat, body and the right limbs equal WIDE_ARMS |
| `Skin.ModelOf` | src/skin/mod.rs:149-153 | The model is Slim exactly when the metadata has key "model" with value "slim" |
| `Skin.SkinFrom` | src/skin/mod.rs:148-166 | A texture is accepted iff it is 64×64, or 64×32 with the wide model. On acceptance the image passes through unchanged, and the skin's layout is the one made for its dimensions |
| `Skin.SupportedFitsAtlas` | src/skin/mod.rs:155-160 | When a skin's layout is the one made for its atlas dimensions, every region of every part lies inside the atlas |
| `Skin.SkinFromRules` | src/skin/mod.rs:155-160 | The rule table: wide 64×32 gives LEGACY, wide 64×64 gives WIDE_ARMS, slim 64×64 gives SLIM_ARMS. Slim 64×32 and any other size give None |
| `Skin.DefaultSkinFrom` | src/skin/mod.rs:206-221 | Computes Java's UUID.hashCode (msb^lsb, then its two 32-bit halves XORed, with i64 arithmetic shift and i32 truncation). The result is Steve iff the XOR of UUID bits 0, 32, 64 and 96 is 0 |
| `Skin.DefaultSkinAtlas` | src/skin/mod.rs:181-196 | `as_skin`: for 64×64 atlases, the default skin has the dimensions its layout was made for. Steve gets his atlas and 4-pixel arms (WIDE_ARMS), Alex hers and 3-pixel arms (SLIM_ARMS) |
| `Skin.DefaultSkinBitFlip` | src/skin/mod.rs:211-220 | Flipping UUID bit 0, 32, 64 or 96 flips the choice between Steve and Alex |
| `Render.Rescale` | src/render.rs:5-14 | The output is (w << s)×(h << s), and output pixel (x,y) is input pixel (x >> s, y >> s), always inside the input |
| `Render.RescaleZero` | src/render.rs:5-14 | Rescaling with s = 0 returns the input image |
| `Render.RescaleBlocks` | src/render.rs:9-13 | Every aligned 2^s×2^s block of the output repeats one input pixel: pixel (bx·2^s+i, by·2^s+j) is input pixel (bx, by) |
| `Render.RescaleTwice` | src/render.rs:5-14 | Rescaling by a and then by b equals rescaling once by a+b |
| `Render.TexViewOf` | src/render.rs:45-53 | `TexView::of`, with no contract of its own; `ViewReadsRegion` states what reading through it gives |
| `Render.GetPixel` | src/render.rs:55-63 | `get_pixel`: its requires are the panic guard (x < width, y < height) and the atlas bounds of `image.get_pixel`; `ViewReadsRegion` states its value |
| `Render.ViewReadsRegion` | src/render.rs:45-63 | A view made by `TexView::of` over a region inside the atlas reads local (x,y) at atlas (origin.x + x, origin.y + y). Both `get_pixel` preconditions hold there |
| `Render.Face` | src/render.rs:16-35 | The rendered face has the head-front region's width and height |
| `Render.RenderFace` | src/render.rs:16-35 | The nested loops return an image of the head-front size. Its pixel (x,y) is the RGB part of blend(head-front pixel, hat-front pixel) at the same local (x,y); alpha is dropped |
| `Render.RenderFaceIsFace` | src/render.rs:22-34 | What `RenderFace` returns is exactly the value `Face` |
| `Render.PresetsHaveStandardFace` | src/skin/mod.rs:27-28 | In all three presets the head front is the 8×8 region at (8,8) and the hat front the 8×8 region at (40,8) |
| `Render.SupportedSkinRenders` | src/render.rs:19-31 | For any skin whose atlas has its layout's dimensions, no `get_pixel` call can panic. The face is 8×8, and pixel (x,y) is ToRgb(blend(atlas(8+x, 8+y), atlas(40+x, 8+y))) |
| `Caching.Touch` | src/cache.rs:36 | The refresh `get_mut` does on a hit, with no contract of its own; `TouchKeepsContents` states its effect |
| `Caching.Insert` | src/cache.rs:41 | `insert` of an absent key, with no contract of its own; `InsertSpec` states its effect |
| `Caching.TouchKeepsContents` | src/cache.rs:36 | Refreshing an entry keeps keys distinct and every key's value. It only makes that entry the most recently used |
| `Caching.InsertSpec` | src/cache.rs:41 | Inserting a new key keeps the table within capacity with distinct keys. The key then maps to its value when capacity > 0. Other keys keep their values, except the least recently used entry, which is evicted exactly when the table was full |
| `Caching.Cache.constructor` | src/cache.rs:20-24 | A new cache is empty and has the given capacity |
| `Caching.Cache.Clear` | src/cache.rs:26-28 | The table becomes empty. Capacity and the load log are kept |
| `Caching.Cache.Lookup` | src/cache.rs:36-38 | `get_mut`: returns the stored value, if any, and moves a hit entry to the most recently used end |
| `Caching.Cache.Store` | src/cache.rs:41 | `insert` of a key the table lacks: appends it as most recently used, evicting the least recently used entry when over capacity |
| `Caching.Cache.TryGet` | src/cache.rs:30-44 | On a hit, the stored value is returned, the entry is refreshed and the loader is not called. On a miss, the loader is called once with the key and its result is returned. A success is inserted; a failure leaves the table unchanged. The table never exceeds capacity. If every entry held the loader's value, that stays true and the result equals load(key) |
| `Caching.TryGetStores` | src/cache.rs:36-43 | After `try_get` on a table of positive capacity, a hit keeps its value. A successful load is stored, so the next lookup of the key is a hit. A failed load leaves the key absent |
| `Api.FromFetchError` | src/api.rs:211-215 | Every client error becomes `MinecraftApi` |
| `Api.FromImageError` | src/api.rs:205-209 | Every encoder error becomes `EncodeImage` |
| `Api.ImageBytes.Matches` | src/api.rs:160-166 | A candidate matches iff it is present and equal to the tag |
| `Api.ImageBytesFrom` | src/api.rs:169-177 | The reply keeps the bytes, and its tag is their digest: it matches Some(digest(bytes)) |
| `Api.MatchesOwnDigest` | src/api.rs:159-177 | `matches(None)` is false. A reply built from bytes matches a candidate iff the candidate is the digest of those bytes. Equal bytes give equal replies |
| `Api.GetSkin` | src/api.rs:131-142 | Errors are only ever `MinecraftApi`. It fails iff the profile lookup fails, or a skin reference exists and its download fails. It gives Ok(None) iff the profile lookup succeeds and there is no skin reference (no profile, no textures property, no skin entry) or the downloaded texture is rejected by `Skin::from`. A skin it returns is `Skin::from` of the downloaded texture, and has the dimensions its layout was made for |
| `Api.SkinOrDefault` | src/api.rs:120-123 | `unwrap_or_else`: the fetched skin when there is one, otherwise the default skin `DefaultSkin::from(uuid)` picks. Either has the dimensions its layout was made for |
| `Api.FallbackToDefault` | src/api.rs:119-123 | When `get_skin` gives Ok(None), the face rendered is that of `DefaultSkin::from(uuid)`: Steve's atlas or Alex's, as the UUID hash picks |
| `Api.UnsupportedTextureFallsBack` | src/api.rs:131-141 | A fetched texture of unsupported dimensions is no error. The default skin's face is used, and the reply can fail only with `EncodeImage` |
| `Api.LoadRawFace` | src/api.rs:119-129 | `load_raw_face` fails iff `get_skin` fails, always with `MinecraftApi`; every face it renders is 8×8 |
| `Api.FetchedSkinRendered` | src/api.rs:119-129 | When `get_skin` returns a skin, that skin can be rendered and the raw face is its face, read from the downloaded atlas |
| `Api.EncodeFace` | src/api.rs:144-151 | `encode_image` fails iff the PNG encoder fails, with `EncodeImage`. On success the reply holds the encoder's bytes and is tagged with their digest |
| `Api.ScaledFace` | src/api.rs:109-113 | The image `load_face` encodes is (w << scale)×(h << scale) for a w×h raw face |
| `Api.FaceReply` | src/api.rs:105-117 | `load_face` without caches: a raw-face error gives Err(MinecraftApi), and every reply is tagged with the digest of its bytes |
| `Api.FaceReplyEncodesRescale` | src/api.rs:105-117 | Once the raw face is had, the reply is the encoding of rescale(raw, scale), for scale 0 as well |
| `Api.ScaledFaceIsRescale` | src/api.rs:109-113 | Choosing between the unscaled copy (scale 0) and `rescale` (scale > 0) always yields rescale(raw, scale) |
| `Api.RawFaceIs8x8` | src/api.rs:119-129 | Every raw face is 8×8, and the image `load_face` encodes is (8 << scale) square |
| `Api.FaceReplyErrors` | src/api.rs:205-215 | The reply is Err(MinecraftApi) iff the profile lookup failed, or a skin reference exists and its download failed. The reply is Err(EncodeImage) iff the skin resolved and the PNG encoder failed |
| `Api.Caches.constructor` | src/api.rs:29-34 | The raw-face cache has capacity 512 and the encoded-reply cache capacity 128. Both start empty and are distinct objects |
| `Api.Caches.Clear` | src/api.rs:36-39 | Both caches are emptied |
| `Api.GetRawFace` | src/api.rs:100-103 | `try_get` on the raw-face cache keyed by UUID returns `load_raw_face`'s result. On a hit the entry is refreshed and the loader does not run. On a miss the loader runs once for that UUID, and a successful render is inserted |
| `Api.LoadFace` | src/api.rs:105-117 | Returns the raw face through its cache, rescaled when scale > 0, then encoded. Errors propagate. The result equals `FaceReply`. The raw-face cache changes exactly as `GetRawFace` says |
| `Api.GetFace` | src/api.rs:95-98 | `try_get` on the reply cache keyed by (uuid, scale); `GetFaceEffect` states the effect on both caches. A hit refreshes the entry and leaves the raw-face cache untouched. A miss loads once, stores only a success, and changes the raw-face cache as `GetRawFace` says. The answer always equals the uncached `FaceReply`, so repeated requests return the same bytes and tag |
| `Web.LeadingZeros` | src/web.rs:63 | `leading_zeros` is 32 for 0. For v > 0 it is n ≤ 31 with 2^(31-n) ≤ v < 2^(32-n) |
| `Web.Log2` | src/web.rs:60-67 | `log2`, with no contract of its own; `Log2Spec` states it |
| `Web.Log2Spec` | src/web.rs:61-67 | `log2` gives Some exactly for powers of two, and Some(k) means 2^k == value. So 0 and non-powers give None |
| `Web.ParseScale` | src/web.rs:51-58 | `parse_scale`, with no contract of its own; `ParseScaleSpec` and `ParseScaleAccepts` state it |
| `Web.ParseScaleSpec` | src/web.rs:52-58 | `parse_scale(size) == Some(s)` implies s ≤ 5 and 8 << s == size |
| `Web.ParseScaleAccepts` | src/web.rs:52-58 | The accepted sizes are exactly 8, 16, 32, 64, 128 and 256; 24 and 40, for instance, are rejected |
| `Web.ServedFaceHasRequestedSize` | src/web.rs:37-42 | For an accepted size, the image the service encodes is exactly `size` pixels square |
| `Web.TryAccess` | src/api.rs:72-80 | `try_access`, with no contract of its own; `HandleFace` states that only an address the limiter refuses gets 429 |
| `Web.HandleFace` | src/web.rs:29-49 | A rate-limit refusal gives 429 before the size is checked. An invalid size gives 400. Neither touches the caches. Otherwise the reply is the service's face, or 500 on its error, and both caches change exactly as one `GetFace` at the parsed scale changes them. Requests without a remote address are never rate limited |

## Left out

- The `tokio::sync::Mutex` in `src/cache.rs` is not modelled, and neither is
  the serialisation and single-flight behaviour it gives. Each `TryGet` is
  one sequential step.
- The hourly background clear task (`src/api.rs:52-63`) and its weak-reference
  exit are async scheduling and are not modelled. `Caches.Clear` is the
  operation it calls.
- The `governor` rate limiter is a library with a clock. Its verdict for an
  address is the parameter `limiterAdmits`.
- `src/minecraft.rs` is not part of this model: HTTP, JSON and base64
  parsing, and PNG decoding. The profile lookup with its decoded "textures"
  property and the texture download are the functions `Env.getProfile` and
  `Env.download`.
- PNG encoding and the SHA-1/base64 tag are library calls. They are
  `Env.encodePng` and `Env.digest`.
- `Rgba::blend` uses floating point inside the `image` crate. It is the
  uninterpreted parameter `blend`.
- The `lazy_static` decoding of the embedded default skins is not modelled.
  The two atlases are `Env.steve` and `Env.alex`, typed as 64×64 images.
- Not modelled: warp routing, CORS, response headers with their max-age
  constant, and parsing of the `<size>`/`<uuid>` path segments.
  `src/config.rs` and `src/main.rs` are not part of this model.
- `tokio::task::spawn_blocking` is not modelled. The work it runs is done in
  place.
- Render.Rescale: does not model the truncation of `width << scale` to 32
  bits, or the panic when the shift amount is 32 or more. Widths and heights
  are unbounded naturals. The service only rescales 8×8 faces by at most 5.
- Api.GetFace: `scale` is a natural number here, not a `u32`. The only
  caller passes what `parse_scale` returns, which is at most 5.
- Api.GetRawFace: the loader it gives the raw-face cache is the function
  `LoadRawFace`, which renders through `Face`. It does not call the method
  `RenderFace`, because a cache loader must be a function. `RenderFaceIsFace`
  shows the two compute the same image.
- Api.GetFace: spells out `try_get`'s steps (`Lookup`, then the loader, then
  `Store` on success) around `load_face`. That loader changes the raw-face
  cache, and Dafny has no method-valued parameters.
- Caching.Cache.Store: models `LruCache::insert` only for a key the table
  does not hold, the only way `try_get` calls it. The replace-existing path
  is not modelled.
- Api.Caches.Coherent: the transparency results assume a world that does
  not change between requests. The real service can serve a face that has
  gone stale since it was cached; the model cannot express this.
