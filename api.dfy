/**
 * The face service: resolve a player's skin (falling back to a built-in
 * default), render the face, rescale and encode it, with the rendered faces
 * and the encoded replies each kept in an LRU cache.
 *
 * The outside world enters as an `Env` value: the profile lookup and the
 * texture download of the session service, the pixel blend and PNG encoder
 * of the image library, the SHA-1/base64 digest, and the two embedded
 * default skins.
 */
module Api {
  import opened Wrappers
  import opened Images
  import opened Powers
  import opened Skin
  import opened Render
  import opened Caching

  type Uuid = bv128

  /** A decoded 64x64 atlas, as the embedded default skins are. */
  type Atlas64 = img: Image<Rgba> | img.width == 64 && img.height == 64
    witness RawImage(64, 64, seq(64, _ => seq(64, _ => Rgba(0, 0, 0, 0))))

  /** Failures of the session-service client (`minecraft::Error`). */
  datatype FetchError = Http | Io | Json | ParseImage | InvalidImageFormat

  /** A failure of the image library's PNG encoder (`image::ImageError`). */
  datatype ImageError = ImageError

  /** The service's error kinds. */
  datatype Error = EncodeImage | MinecraftApi

  /** `From<minecraft::Error> for Error`. */
  function FromFetchError(e: FetchError): (r: Error)
    ensures r == MinecraftApi
  {
    MinecraftApi
  }

  /** `From<image::ImageError> for Error`. */
  function FromImageError(e: ImageError): (r: Error)
    ensures r == EncodeImage
  {
    EncodeImage
  }

  datatype PlayerTextureRef = PlayerTextureRef(url: string, metadata: map<string, string>)

  datatype PlayerTextureUrls = PlayerTextureUrls(skin: Option<PlayerTextureRef>, cape: Option<PlayerTextureRef>)

  /** A profile, with its "textures" property already decoded (`None` when absent or malformed). */
  datatype PlayerProfile = PlayerProfile(textures: Option<PlayerTextureUrls>)

  datatype Env = Env(
    getProfile: Uuid -> Result<Option<PlayerProfile>, FetchError>,
    download: string -> Result<Image<Rgba>, FetchError>,
    blend: (Rgba, Rgba) -> Rgba,
    encodePng: Image<Rgb> -> Result<seq<byte>, ImageError>,
    digest: seq<byte> -> string,
    steve: Atlas64,
    alex: Atlas64)

  /** An encoded reply and its entity tag. */
  datatype ImageBytes = ImageBytes(bytes: seq<byte>, etag: string) {
    /** `ImageBytes::matches`: a candidate tag matches only if present and equal. */
    predicate Matches(candidate: Option<string>)
      ensures Matches(candidate) <==> candidate == Some(etag)
    {
      match candidate
      case Some(tag) => etag == tag
      case None => false
    }
  }

  /** `ImageBytes::from`: the tag is the digest of the bytes. */
  function ImageBytesFrom(bytes: seq<byte>, digest: seq<byte> -> string): (r: ImageBytes)
    ensures r.bytes == bytes && r.Matches(Some(digest(bytes)))
  {
    ImageBytes(bytes, digest(bytes))
  }

  /**
   * A reply built from bytes matches exactly the digest of those bytes, so
   * two replies with the same bytes match the same candidates.
   */
  lemma MatchesOwnDigest(bytes: seq<byte>, other: seq<byte>, digest: seq<byte> -> string, candidate: Option<string>)
    ensures ImageBytesFrom(bytes, digest).Matches(candidate) <==> candidate == Some(digest(bytes))
    ensures !ImageBytesFrom(bytes, digest).Matches(None)
    ensures bytes == other ==> ImageBytesFrom(bytes, digest) == ImageBytesFrom(other, digest)
  {
  }

  /** `minecraft::get_texture`: download and decode the texture, keeping the reference's metadata. */
  function GetTexture(env: Env, texture: PlayerTextureRef): Result<PlayerTexture, FetchError> {
    match env.download(texture.url)
    case Err(e) => Err(e)
    case Ok(image) => Ok(PlayerTexture(image, texture.metadata))
  }

  /** The profile's skin reference, if it has a profile, a textures property and a skin entry. */
  function SkinRef(profile: Option<PlayerProfile>): Option<PlayerTextureRef> {
    if profile.Some? && profile.value.textures.Some? then profile.value.textures.value.skin else None
  }

  /**
   * `get_skin`: fetch errors become `MinecraftApi`; a missing profile, textures
   * property or skin reference, and a texture `Skin::from` rejects, give `Ok(None)`.
   */
  function GetSkin(env: Env, uuid: Uuid): (r: Result<Option<Skin>, Error>)
    ensures r.Err? ==> r.error == MinecraftApi
    ensures r.Ok? && r.value.Some? ==> Supported(r.value.value)
    ensures r.Err? <==>
      env.getProfile(uuid).Err? ||
      (SkinRef(env.getProfile(uuid).value).Some? &&
       env.download(SkinRef(env.getProfile(uuid).value).value.url).Err?)
    ensures r == Ok(None) <==>
      env.getProfile(uuid).Ok? &&
      (SkinRef(env.getProfile(uuid).value).None? ||
       (GetTexture(env, SkinRef(env.getProfile(uuid).value).value).Ok? &&
        SkinFrom(GetTexture(env, SkinRef(env.getProfile(uuid).value).value).value).None?))
    ensures r.Ok? && r.value.Some? ==>
      env.getProfile(uuid).Ok? && SkinRef(env.getProfile(uuid).value).Some? &&
      GetTexture(env, SkinRef(env.getProfile(uuid).value).value).Ok? &&
      r.value == SkinFrom(GetTexture(env, SkinRef(env.getProfile(uuid).value).value).value)
  {
    match env.getProfile(uuid)
    case Err(e) => Err(FromFetchError(e))
    case Ok(profile) =>
      match SkinRef(profile)
      case None => Ok(None)
      case Some(texture) =>
        match GetTexture(env, texture)
        case Err(e) => Err(FromFetchError(e))
        case Ok(t) => Ok(SkinFrom(t))
  }

  /** The skin `load_raw_face` renders: the fetched one, or the default for the UUID. */
  function SkinOrDefault(env: Env, uuid: Uuid, fetched: Option<Skin>): (skin: Skin)
    requires fetched.Some? ==> Supported(fetched.value)
    ensures Supported(skin)
    ensures skin == if fetched.Some? then fetched.value else DefaultSkinAtlas(DefaultSkinFrom(uuid), env.steve, env.alex)
  {
    match fetched
    case Some(s) => s
    case None => DefaultSkinAtlas(DefaultSkinFrom(uuid), env.steve, env.alex)
  }

  /** The face of the UUID's default skin. */
  function DefaultFace(env: Env, uuid: Uuid): Image<Rgb> {
    var skin := SkinOrDefault(env, uuid, None);
    SupportedIsRenderable(skin);
    Face(skin, env.blend)
  }

  /** `load_raw_face`: render the resolved skin's face; fetch errors propagate. */
  function LoadRawFace(env: Env, uuid: Uuid): (r: Result<Image<Rgb>, Error>)
    ensures r.Err? <==> GetSkin(env, uuid).Err?
    ensures r.Err? ==> r.error == MinecraftApi
    ensures r.Ok? ==> r.value.width == 8 && r.value.height == 8
  {
    match GetSkin(env, uuid)
    case Err(e) => Err(e)
    case Ok(fetched) =>
      var skin := SkinOrDefault(env, uuid, fetched);
      SupportedIsRenderable(skin);
      Ok(Face(skin, env.blend))
  }

  /** `encode_image`: PNG-encode the face and tag it; encoder failures become `EncodeImage`. */
  function EncodeFace(env: Env, face: Image<Rgb>): (r: Result<ImageBytes, Error>)
    ensures r.Err? <==> env.encodePng(face).Err?
    ensures r.Err? ==> r.error == EncodeImage
    ensures r.Ok? ==> r.value.bytes == env.encodePng(face).value && r.value.Matches(Some(env.digest(r.value.bytes)))
  {
    match env.encodePng(face)
    case Err(e) => Err(FromImageError(e))
    case Ok(bytes) => Ok(ImageBytesFrom(bytes, env.digest))
  }

  /** The image `load_face` encodes: the raw face rescaled, or an unscaled copy for scale 0. */
  function ScaledFace(raw: Image<Rgb>, scale: nat): (face: Image<Rgb>)
    ensures face.width == Shl(raw.width, scale) && face.height == Shl(raw.height, scale)
  {
    if scale > 0 then Rescale(raw, scale) else raw
  }

  /** `load_face`, as a value: what a request for `(uuid, scale)` answers without any cache. */
  function FaceReply(env: Env, uuid: Uuid, scale: nat): (r: Result<ImageBytes, Error>)
    ensures LoadRawFace(env, uuid).Err? ==> r == Err(MinecraftApi)
    ensures r.Ok? ==> r.value.Matches(Some(env.digest(r.value.bytes)))
  {
    match LoadRawFace(env, uuid)
    case Err(e) => Err(e)
    case Ok(raw) => EncodeFace(env, ScaledFace(raw, scale))
  }

  /** A reply that gets past `get_raw_face` is the PNG of the raw face rescaled by `scale`. */
  lemma FaceReplyEncodesRescale(env: Env, uuid: Uuid, scale: nat)
    requires LoadRawFace(env, uuid).Ok?
    ensures FaceReply(env, uuid, scale) == EncodeFace(env, Rescale(LoadRawFace(env, uuid).value, scale))
  {
    ScaledFaceIsRescale(LoadRawFace(env, uuid).value, scale);
  }

  /** The scale-0 branch is only a shortcut: the encoded image is always the face rescaled by `scale`. */
  lemma ScaledFaceIsRescale(raw: Image<Rgb>, scale: nat)
    ensures ScaledFace(raw, scale) == Rescale(raw, scale)
  {
    if scale == 0 {
      RescaleZero(raw);
    }
  }

  /**
   * Every raw face is 8x8, and the image `load_face` encodes is `8 << scale`
   * pixels square.
   */
  lemma RawFaceIs8x8(env: Env, uuid: Uuid, scale: nat)
    ensures LoadRawFace(env, uuid).Ok? ==>
      var raw := LoadRawFace(env, uuid).value;
      raw.width == 8 && raw.height == 8 &&
      ScaledFace(raw, scale).width == Shl(8, scale) && ScaledFace(raw, scale).height == Shl(8, scale)
  {
    if GetSkin(env, uuid).Ok? {
      var skin := SkinOrDefault(env, uuid, GetSkin(env, uuid).value);
      SupportedIsRenderable(skin);
      var raw := Face(skin, env.blend);
      assert LoadRawFace(env, uuid) == Ok(raw);
      ScaledFaceIsRescale(raw, scale);
    }
  }

  /**
   * Where the skin cannot be had without an error (no profile, no skin
   * reference, or a texture of unsupported dimensions), the face of the
   * UUID's default skin is rendered: Steve's or Alex's atlas by the UUID hash.
   */
  lemma FallbackToDefault(env: Env, uuid: Uuid)
    requires GetSkin(env, uuid) == Ok(None)
    ensures LoadRawFace(env, uuid) == Ok(DefaultFace(env, uuid))
    ensures SkinOrDefault(env, uuid, None).image ==
      if DefaultSkinFrom(uuid) == Steve then env.steve else env.alex
  {
  }

  /**
   * The main path of `load_raw_face`: a skin `get_skin` accepts is the one
   * rendered, so the face shows the downloaded atlas's pixels.
   */
  lemma FetchedSkinRendered(env: Env, uuid: Uuid, s: Skin)
    requires GetSkin(env, uuid) == Ok(Some(s))
    ensures Renderable(s) && LoadRawFace(env, uuid) == Ok(Face(s, env.blend))
  {
    SupportedIsRenderable(s);
  }

  /**
   * A texture of unsupported dimensions is no error: its reply is the default
   * skin's face, which fails only if the encoder does.
   */
  lemma UnsupportedTextureFallsBack(env: Env, uuid: Uuid, scale: nat)
    requires env.getProfile(uuid).Ok? && SkinRef(env.getProfile(uuid).value).Some?
    requires var t := GetTexture(env, SkinRef(env.getProfile(uuid).value).value);
      t.Ok? && (t.value.image.width, t.value.image.height) != (64, 64) &&
      (t.value.image.width, t.value.image.height) != (64, 32)
    ensures FaceReply(env, uuid, scale).Err? ==> FaceReply(env, uuid, scale).error == EncodeImage
    ensures LoadRawFace(env, uuid) == Ok(DefaultFace(env, uuid))
  {
    var texture := GetTexture(env, SkinRef(env.getProfile(uuid).value).value).value;
    assert SkinFrom(texture) == None;
    assert GetSkin(env, uuid) == Ok(None);
    FallbackToDefault(env, uuid);
    var raw := LoadRawFace(env, uuid).value;
    assert FaceReply(env, uuid, scale) == EncodeFace(env, ScaledFace(raw, scale));
  }

  /**
   * Errors: a failed profile lookup or texture download gives `MinecraftApi`,
   * with no fallback; once a face is rendered only the encoder can fail, with
   * `EncodeImage`.
   */
  lemma FaceReplyErrors(env: Env, uuid: Uuid, scale: nat)
    ensures FaceReply(env, uuid, scale) == Err(MinecraftApi) <==>
      env.getProfile(uuid).Err? ||
      (SkinRef(env.getProfile(uuid).value).Some? &&
       env.download(SkinRef(env.getProfile(uuid).value).value.url).Err?)
    ensures FaceReply(env, uuid, scale) == Err(EncodeImage) <==>
      GetSkin(env, uuid).Ok? && env.encodePng(ScaledFace(LoadRawFace(env, uuid).value, scale)).Err?
    ensures env.getProfile(uuid).Err? ==> FaceReply(env, uuid, scale) == Err(MinecraftApi)
  {
    var raw := LoadRawFace(env, uuid);
    if raw.Ok? {
      assert FaceReply(env, uuid, scale) == EncodeFace(env, ScaledFace(raw.value, scale));
    }
  }

  /** The loader of the raw-face cache. */
  function RawFaceLoader(env: Env): Uuid -> Result<Image<Rgb>, Error> {
    (u: Uuid) => LoadRawFace(env, u)
  }

  /** The loader of the reply cache, without its effect on the raw-face cache. */
  function FaceLoader(env: Env): ((Uuid, nat)) -> Result<ImageBytes, Error> {
    (k: (Uuid, nat)) => FaceReply(env, k.0, k.1)
  }

  /** The two caches of the service. */
  class Caches {
    const rawFaces: Cache<Uuid, Image<Rgb>>
    const faces: Cache<(Uuid, nat), ImageBytes>

    ghost predicate Valid()
      reads this, rawFaces, faces
    {
      rawFaces.Valid() && faces.Valid() && rawFaces as object != faces as object
    }

    /**
     * The caches hold only what the loaders would produce now: every raw
     * face is `LoadRawFace` of its UUID and every reply `FaceReply` of its key.
     */
    ghost predicate Coherent(env: Env)
      reads this, rawFaces, faces
    {
      Caching.Coherent(rawFaces.entries, RawFaceLoader(env)) &&
      Caching.Coherent(faces.entries, FaceLoader(env))
    }

    /** `Caches::new`: 512 raw faces, 128 encoded replies, both empty. */
    constructor ()
      ensures Valid() && fresh(rawFaces) && fresh(faces)
      ensures rawFaces.capacity == 512 && faces.capacity == 128
      ensures rawFaces.entries == [] && faces.entries == []
      ensures rawFaces.loads == [] && faces.loads == []
    {
      rawFaces := new Cache(512);
      faces := new Cache(128);
    }

    /** `Caches::clear`: empty both caches. */
    method Clear()
      requires Valid()
      modifies rawFaces, faces
      ensures Valid() && rawFaces.entries == [] && faces.entries == []
      ensures rawFaces.loads == old(rawFaces.loads) && faces.loads == old(faces.loads)
    {
      rawFaces.Clear();
      faces.Clear();
    }
  }

  /** `get_raw_face`: the raw-face cache, loading with `load_raw_face` on a miss. */
  method GetRawFace(caches: Caches, env: Env, uuid: Uuid) returns (r: Result<Image<Rgb>, Error>)
    requires caches.Valid() && caches.Coherent(env)
    modifies caches.rawFaces
    ensures caches.Valid() && caches.Coherent(env)
    ensures r == LoadRawFace(env, uuid)
    ensures TryGetEffect(old(caches.rawFaces.entries), old(caches.rawFaces.loads), caches.rawFaces.capacity,
                         uuid, LoadRawFace(env, uuid), caches.rawFaces.entries, caches.rawFaces.loads)
  {
    r := caches.rawFaces.TryGet(uuid, RawFaceLoader(env));
  }

  /** `load_face`: the raw face through its cache, rescaled when `scale > 0`, then encoded. */
  method LoadFace(caches: Caches, env: Env, uuid: Uuid, scale: nat) returns (r: Result<ImageBytes, Error>)
    requires caches.Valid() && caches.Coherent(env)
    modifies caches.rawFaces
    ensures caches.Valid() && caches.Coherent(env)
    ensures r == FaceReply(env, uuid, scale)
    ensures TryGetEffect(old(caches.rawFaces.entries), old(caches.rawFaces.loads), caches.rawFaces.capacity,
                         uuid, LoadRawFace(env, uuid), caches.rawFaces.entries, caches.rawFaces.loads)
  {
    var raw := GetRawFace(caches, env, uuid);
    if raw.Err? {
      return Err(raw.error);
    }
    var face := if scale > 0 then Rescale(raw.value, scale) else raw.value;
    r := EncodeFace(env, face);
  }

  /**
   * What one `get_face` does to the two caches, given the tables and load logs
   * before and after it and its answer `r`. A hit on the reply cache refreshes
   * that entry and touches nothing else. A miss logs one load of the reply,
   * stores the reply only if it is a success, and changes the raw-face cache as
   * one `try_get` of `load_raw_face` does.
   */
  ghost predicate GetFaceEffect(env: Env, uuid: Uuid, scale: nat, r: Result<ImageBytes, Error>,
                                rawCapacity: nat, facesCapacity: nat,
                                rawBefore: seq<(Uuid, Image<Rgb>)>, rawLoadsBefore: seq<Uuid>,
                                facesBefore: seq<((Uuid, nat), ImageBytes)>, facesLoadsBefore: seq<(Uuid, nat)>,
                                rawAfter: seq<(Uuid, Image<Rgb>)>, rawLoadsAfter: seq<Uuid>,
                                facesAfter: seq<((Uuid, nat), ImageBytes)>, facesLoadsAfter: seq<(Uuid, nat)>)
  {
    match IndexOf(facesBefore, (uuid, scale))
    case Some(i) =>
      facesAfter == Touch(facesBefore, i) && facesLoadsAfter == facesLoadsBefore &&
      rawAfter == rawBefore && rawLoadsAfter == rawLoadsBefore
    case None =>
      facesLoadsAfter == facesLoadsBefore + [(uuid, scale)] &&
      facesAfter == (if r.Ok? then Insert(facesBefore, facesCapacity, (uuid, scale), r.value) else facesBefore) &&
      TryGetEffect(rawBefore, rawLoadsBefore, rawCapacity, uuid, LoadRawFace(env, uuid), rawAfter, rawLoadsAfter)
  }

  /**
   * `get_face`: `try_get` on the reply cache with `load_face` as the loader.
   * A hit answers from the cache and leaves the raw-face cache alone; a miss
   * loads once and stores only a success. Either way the answer is the one
   * the uncached computation `FaceReply` gives, so repeated requests for the
   * same key get the same bytes and tag.
   */
  method GetFace(caches: Caches, env: Env, uuid: Uuid, scale: nat) returns (r: Result<ImageBytes, Error>)
    requires caches.Valid() && caches.Coherent(env)
    modifies caches.rawFaces, caches.faces
    ensures caches.Valid() && caches.Coherent(env)
    ensures r == FaceReply(env, uuid, scale)
    ensures GetFaceEffect(env, uuid, scale, r, caches.rawFaces.capacity, caches.faces.capacity,
                          old(caches.rawFaces.entries), old(caches.rawFaces.loads),
                          old(caches.faces.entries), old(caches.faces.loads),
                          caches.rawFaces.entries, caches.rawFaces.loads,
                          caches.faces.entries, caches.faces.loads)
  {
    var key := (uuid, scale);
    ghost var before, beforeLoads := caches.faces.entries, caches.faces.loads;
    var hit := caches.faces.Lookup(key);
    if hit.Some? {
      ghost var i := IndexOf(before, key).value;
      CoherentKept(before, caches.faces.capacity, i, key, hit.value, FaceLoader(env));
      assert caches.faces.entries == Touch(before, i);
      return Ok(hit.value);
    }
    caches.faces.loads := caches.faces.loads + [key];
    r := LoadFace(caches, env, uuid, scale);
    assert IndexOf(before, key).None?;
    if r.Ok? {
      caches.faces.Store(key, r.value);
      InsertCoherent(before, caches.faces.capacity, key, r.value, FaceLoader(env));
    }
  }
}
