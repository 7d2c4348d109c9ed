/**
 * The HTTP boundary for `GET /face/<size>/<uuid>`: admission, validation of
 * the requested pixel size, and the mapping of the service's answer onto a
 * reply.
 */
module Web {
  import opened Wrappers
  import opened Powers
  import Api

  newtype uint32 = x: int | 0 <= x < 0x1_0000_0000

  /** The number of binary digits of `v` (0 for 0). */
  function BitLength(v: nat): (n: nat)
    ensures v < Pow2(n)
    ensures v > 0 ==> n >= 1 && Pow2(n - 1) <= v
  {
    if v == 0 then 0 else 1 + BitLength(v / 2)
  }

  /** `count_ones`: the number of one bits of `v`. */
  function CountOnes(v: nat): nat {
    if v == 0 then 0 else v % 2 + CountOnes(v / 2)
  }

  lemma Pow2Of32()
    ensures Pow2(32) == 0x1_0000_0000
  {
    Pow2Add(16, 16);
    Pow2Add(8, 8);
    Pow2Add(4, 4);
  }

  /** `u32::leading_zeros`: 32 minus the bit length. */
  function LeadingZeros(v: uint32): (n: nat)
    ensures n <= 32
    ensures v == 0 ==> n == 32
    ensures v > 0 ==> n <= 31 && Pow2(31 - n) <= v as nat < Pow2(32 - n)
  {
    BitLengthBound(v);
    32 - BitLength(v as nat)
  }

  lemma BitLengthBound(v: uint32)
    ensures BitLength(v as nat) <= 32
  {
    var len := BitLength(v as nat);
    if len > 32 {
      Pow2Monotone(32, len - 1);
      Pow2Of32();
    }
  }

  /** `u32::is_power_of_two`: exactly one bit set. */
  predicate IsPowerOfTwo(v: uint32) {
    CountOnes(v as nat) == 1
  }

  /** `log2`: the exponent of a power of two, `None` for anything else. */
  function Log2(value: uint32): Option<uint32> {
    if value > 0 && IsPowerOfTwo(value) then Some((31 - LeadingZeros(value)) as uint32) else None
  }

  /** `parse_scale`: the exponent `s` with `size == 8 << s`, for a multiple of 8 in [8, 256]. */
  function ParseScale(size: uint32): Option<uint32> {
    if size % 8 == 0 && size >= 8 && size <= 256 then Log2(size / 8) else None
  }

  lemma {:induction false} CountOnesPow2(k: nat)
    ensures CountOnes(Pow2(k)) == 1 && BitLength(Pow2(k)) == k + 1
  {
    if k > 0 {
      CountOnesPow2(k - 1);
      assert Pow2(k) / 2 == Pow2(k - 1) && Pow2(k) % 2 == 0;
    }
  }

  lemma {:induction false} NoOnesIsZero(v: nat)
    requires CountOnes(v) == 0
    ensures v == 0
  {
    if v > 0 {
      NoOnesIsZero(v / 2);
    }
  }

  lemma {:induction false} OneBitIsPow2(v: nat)
    requires CountOnes(v) == 1
    ensures v == Pow2(BitLength(v) - 1)
  {
    if v % 2 == 1 {
      NoOnesIsZero(v / 2);
    } else {
      OneBitIsPow2(v / 2);
    }
  }

  /**
   * `log2` succeeds exactly on the powers of two, and then returns the
   * exponent: `2^k == value`.
   */
  lemma Log2Spec(value: uint32)
    ensures Log2(value).Some? <==> exists k: nat :: Pow2(k) == value as nat
    ensures Log2(value).Some? ==> Pow2(Log2(value).value as nat) == value as nat
  {
    if exists k: nat :: Pow2(k) == value as nat {
      var k: nat :| Pow2(k) == value as nat;
      CountOnesPow2(k);
    }
    if Log2(value).Some? {
      OneBitIsPow2(value as nat);
      assert Log2(value).value as nat == BitLength(value as nat) - 1;
    }
  }

  /** An accepted size is `8 << s` for an exponent `s` of at most 5. */
  lemma ParseScaleSpec(size: uint32)
    ensures ParseScale(size).Some? ==>
      ParseScale(size).value <= 5 && Shl(8, ParseScale(size).value as nat) == size as nat
  {
    if ParseScale(size).Some? {
      var s := ParseScale(size).value as nat;
      Log2Spec(size / 8);
      if s > 5 {
        Pow2Monotone(6, s);
        assert false;
      }
    }
  }

  /** The accepted sizes are exactly 8, 16, 32, 64, 128 and 256 pixels. */
  lemma ParseScaleAccepts(size: uint32)
    ensures ParseScale(size).Some? <==> size in {8, 16, 32, 64, 128, 256}
  {
    SmallPowers();
    if ParseScale(size).Some? {
      ParseScaleSpec(size);
      var s := ParseScale(size).value;
      assert s == 0 || s == 1 || s == 2 || s == 3 || s == 4 || s == 5;
    }
    if size in {8, 16, 32, 64, 128, 256} {
      var k: nat := if size == 8 then 0 else if size == 16 then 1 else if size == 32 then 2
        else if size == 64 then 3 else if size == 128 then 4 else 5;
      assert Pow2(k) == (size / 8) as nat;
      Log2Spec(size / 8);
    }
  }

  lemma SmallPowers()
    ensures Pow2(0) == 1 && Pow2(1) == 2 && Pow2(2) == 4 && Pow2(3) == 8 && Pow2(4) == 16 && Pow2(5) == 32
  {
    assert Pow2(5) == 2 * Pow2(4);
  }

  /** The image a valid request encodes is exactly the requested number of pixels square. */
  lemma ServedFaceHasRequestedSize(env: Api.Env, uuid: Api.Uuid, size: uint32)
    requires ParseScale(size).Some? && Api.LoadRawFace(env, uuid).Ok?
    ensures var face := Api.ScaledFace(Api.LoadRawFace(env, uuid).value, ParseScale(size).value as nat);
      face.width == size as nat && face.height == size as nat
  {
    ParseScaleSpec(size);
    Api.RawFaceIs8x8(env, uuid, ParseScale(size).value as nat);
  }

  /** What the face route answers. */
  datatype Reply = TooManyRequests | BadRequest | InternalServerError | Png(image: Api.ImageBytes)

  /** `Api::try_access`: requests without a remote address are never rate limited. */
  function TryAccess<A>(addr: Option<A>, limiterAdmits: A -> bool): bool {
    match addr
    case None => true
    case Some(a) => limiterAdmits(a)
  }

  /**
   * `get_face` (the route handler): a request the rate limiter refuses gets
   * 429 before its size is looked at; an invalid size gets 400; both leave
   * the caches alone. Otherwise the service is asked for the face at the
   * parsed scale, and its error becomes 500.
   */
  method HandleFace<A>(caches: Api.Caches, env: Api.Env, addr: Option<A>, limiterAdmits: A -> bool,
                       size: uint32, uuid: Api.Uuid) returns (reply: Reply)
    requires caches.Valid() && caches.Coherent(env)
    modifies caches.rawFaces, caches.faces
    ensures caches.Valid() && caches.Coherent(env)
    ensures reply == TooManyRequests <==> addr.Some? && !limiterAdmits(addr.value)
    ensures reply == BadRequest <==> TryAccess(addr, limiterAdmits) && ParseScale(size).None?
    ensures reply in {TooManyRequests, BadRequest} ==> unchanged(caches.rawFaces, caches.faces)
    ensures TryAccess(addr, limiterAdmits) && ParseScale(size).Some? ==>
      reply == if Api.FaceReply(env, uuid, ParseScale(size).value as nat).Ok?
        then Png(Api.FaceReply(env, uuid, ParseScale(size).value as nat).value)
        else InternalServerError
    ensures TryAccess(addr, limiterAdmits) && ParseScale(size).Some? ==>
      Api.GetFaceEffect(env, uuid, ParseScale(size).value as nat, Api.FaceReply(env, uuid, ParseScale(size).value as nat),
                        caches.rawFaces.capacity, caches.faces.capacity,
                        old(caches.rawFaces.entries), old(caches.rawFaces.loads),
                        old(caches.faces.entries), old(caches.faces.loads),
                        caches.rawFaces.entries, caches.rawFaces.loads,
                        caches.faces.entries, caches.faces.loads)
  {
    if !TryAccess(addr, limiterAdmits) {
      return TooManyRequests;
    }
    var scale := ParseScale(size);
    if scale.None? {
      return BadRequest;
    }
    var r := Api.GetFace(caches, env, uuid, scale.value as nat);
    if r.Ok? {
      reply := Png(r.value);
    } else {
      reply := InternalServerError;
    }
  }
}
