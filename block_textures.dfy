/**
 * The texture handlers of blocks. A handler is immutable and holds six texture regions, one per face. The factory
 * keeps one process-wide cache (the flyweight pool), so a combination of region objects gets exactly one shared handler.
 */
module BlockTextures {
  import opened Wrappers
  import opened JavaInts

  /**
   * A `TextureRegion` object. Two values are equal exactly when they are the same object. `identityHash` is the
   * hash the JVM's `System.identityHashCode` gave the object.
   */
  datatype Region = Region(id: nat, identityHash: int)

  /** A `BlockFace`, by its `index`. BlockFace.java is not part of this model. */
  type Face = i: int | 0 <= i < 6

  const LENGTH_MESSAGE: string := "Texture region array must be length 6"
  const NULL_MESSAGE: string := "Texture region cannot be null"

  /** No element is null. */
  predicate AllPresent(rs: seq<Option<Region>>) {
    forall i :: 0 <= i < |rs| ==> rs[i].Some?
  }

  /** Six references to the same region, as `Arrays.fill` leaves them. */
  function Six(region: Option<Region>): (rs: seq<Option<Region>>)
    ensures |rs| == 6
    ensures forall i :: 0 <= i < 6 ==> rs[i] == region
  {
    [region, region, region, region, region, region]
  }

  /** `System.identityHashCode`, which is 0 for null. */
  function HashOf(r: Option<Region>): int {
    match r
    case None => 0
    case Some(g) => g.identityHash
  }

  /**
   * The hash that `Key` computes over the regions `rs`. It starts from 1 and applies `h = 31 * h + identityHash`
   * per region, in 32-bit arithmetic.
   */
  function KeyHash(rs: seq<Option<Region>>): (h: int)
    ensures IsInt(h)
  {
    if |rs| == 0 then 1 else Wrap32(31 * KeyHash(rs[..|rs| - 1]) + HashOf(rs[|rs| - 1]))
  }

  /**
   * The hash depends on the regions' identity hashes alone. So equal keys have equal hashes, and distinct regions
   * whose identity hashes coincide collide. That is why `equals` compares references.
   */
  lemma {:induction false} KeyHashByIdentityHashes(a: seq<Option<Region>>, b: seq<Option<Region>>)
    requires |a| == |b|
    requires forall i :: 0 <= i < |a| ==> HashOf(a[i]) == HashOf(b[i])
    ensures KeyHash(a) == KeyHash(b)
  {
    if |a| > 0 {
      KeyHashByIdentityHashes(a[..|a| - 1], b[..|b| - 1]);
    }
  }

  /** Keys whose regions are the same objects position by position have equal hashes. */
  lemma EqualKeysEqualHashes(a: seq<Option<Region>>, b: seq<Option<Region>>)
    requires |a| == |b| == 6
    requires forall i :: 0 <= i < 6 ==> a[i] == b[i]
    ensures KeyHash(a) == KeyHash(b)
  {
    KeyHashByIdentityHashes(a, b);
  }

  /** The cache key over a region array. It uses reference equality of the regions. */
  class Key {
    const r: array<Option<Region>>
    const hash: int

    constructor (regions: array<Option<Region>>)
      requires regions.Length == 6
      ensures r == regions && hash == KeyHash(regions[..])
    {
      r := regions;
      var h := 1;
      for i := 0 to 6
        invariant h == KeyHash(regions[..i])
      {
        assert regions[..i + 1][..i] == regions[..i];
        h := Wrap32(31 * h + HashOf(regions[i]));
      }
      assert regions[..6] == regions[..];
      hash := h;
    }

    /** `equals`: the same key, or a key whose six regions are the same objects position by position. */
    method Equals(other: Key?) returns (eq: bool)
      requires r.Length == 6
      requires other != null ==> other.r.Length == 6
      ensures eq <==> other != null && (other == this || r[..] == other.r[..])
    {
      if other == this {
        return true;
      }
      if other == null {
        return false;
      }
      for i := 0 to 6
        invariant r[..i] == other.r[..i]
      {
        if r[i] != other.r[i] {
          assert r[..][i] != other.r[..][i];
          return false;
        }
        assert r[..i + 1] == r[..i] + [r[i]] && other.r[..i + 1] == other.r[..i] + [other.r[i]];
      }
      assert r[..] == r[..6] && other.r[..] == other.r[..6];
      return true;
    }
  }

  /** An immutable handler: the six regions of a block's faces. */
  class BlockTextureHandler {
    const textureRegions: array<Option<Region>>

    /** What the constructor's checks establish. */
    ghost predicate Valid()
      reads textureRegions
    {
      textureRegions.Length == 6 && AllPresent(textureRegions[..])
    }

    /** The field assignment itself. `Create` makes the checks first. */
    constructor Wrap(regions: array<Option<Region>>)
      ensures textureRegions == regions
    {
      textureRegions := regions;
    }

    /**
     * The constructor. It rejects a null array or one whose length is not 6, then rejects any null region. It keeps
     * the array it was given, without copying it.
     */
    static method Create(regions: array?<Option<Region>>) returns (r: Result<BlockTextureHandler>)
      ensures regions == null || regions.Length != 6 ==> r == Err(Cubes(LENGTH_MESSAGE))
      ensures regions != null && regions.Length == 6 && !AllPresent(regions[..]) ==> r == Err(Cubes(NULL_MESSAGE))
      ensures regions != null && regions.Length == 6 && AllPresent(regions[..]) ==>
                r.Ok? && fresh(r.value) && r.value.textureRegions == regions
    {
      if regions == null || regions.Length != 6 {
        return Err(Cubes(LENGTH_MESSAGE));
      }
      for i := 0 to 6
        invariant forall j :: 0 <= j < i ==> regions[j].Some?
      {
        if regions[i].None? {
          assert regions[..][i].None?;
          return Err(Cubes(NULL_MESSAGE));
        }
      }
      var h := new BlockTextureHandler.Wrap(regions);
      return Ok(h);
    }

    /** `getSide(int)`: the region of a face index, or the index error the array access throws. */
    function GetSideAt(direction: int): (r: Result<Option<Region>>)
      reads textureRegions
      ensures r.Ok? <==> 0 <= direction < textureRegions.Length
      ensures r.Ok? ==> r.value == textureRegions[direction]
      ensures r.Err? ==> r.error == IndexOutOfBounds(direction)
    {
      if 0 <= direction < textureRegions.Length then Ok(textureRegions[direction]) else Err(IndexOutOfBounds(direction))
    }

    /** `getSide(BlockFace)`: a null face reads face 0. */
    function GetSide(face: Option<Face>): (r: Result<Option<Region>>)
      reads textureRegions
      ensures face.None? ==> r == GetSideAt(0)
      ensures face.Some? ==> r == GetSideAt(face.value)
    {
      GetSideAt(if face.None? then 0 else face.value)
    }

    /** Every face of a valid handler has a region, and it is never null. */
    lemma SideAlwaysPresent(face: Option<Face>)
      requires Valid()
      ensures GetSide(face).Ok? && GetSide(face).value.Some?
    {
      var i := if face.None? then 0 else face.value;
      assert textureRegions[..][i].Some?;
    }
  }

  /** `uniformRegions`: a fresh array of six references to one region. A null region is rejected. */
  method UniformRegions(region: Option<Region>) returns (r: Result<array<Option<Region>>>)
    ensures region.None? ==> r == Err(Cubes(NULL_MESSAGE))
    ensures region.Some? ==> r.Ok? && fresh(r.value) && r.value[..] == Six(region)
  {
    if region.None? {
      return Err(Cubes(NULL_MESSAGE));
    }
    var regions := new Option<Region>[6](_ => region);
    return Ok(regions);
  }

  /** `Arrays.copyOf(a, 6)` of a six-element array: a fresh array with the same references. */
  method CopyOf(a: array<Option<Region>>) returns (b: array<Option<Region>>)
    requires a.Length == 6
    ensures fresh(b) && b[..] == a[..]
  {
    b := new Option<Region>[6](i requires 0 <= i < 6 reads a => a[i]);
  }

  /**
   * The flyweight factory and its process-wide cache. A key of `cache` is the sequence of regions that `Key` wraps,
   * so two keys are equal exactly when `Key.equals` holds. `Repr` holds the arrays of the cached handlers, which only
   * the factory ever sees.
   */
  class BlockTextureHandlers {
    var cache: map<seq<Option<Region>>, BlockTextureHandler>
    ghost var Repr: set<object>

    /** Each cached handler is valid, holds its own key's regions, and its array belongs to the cache. */
    ghost predicate Valid()
      reads this, Repr
    {
      forall k :: k in cache ==>
        && cache[k].textureRegions in Repr
        && |k| == 6
        && AllPresent(k)
        && cache[k].textureRegions[..] == k
    }

    constructor ()
      ensures Valid() && cache == map[]
    {
      cache := map[];
      Repr := {};
    }

    /** A cached handler is valid. */
    lemma CachedValid(k: seq<Option<Region>>)
      requires Valid() && k in cache
      ensures cache[k].Valid()
    {
    }

    /**
     * `getOrCreate`: the handler cached for these regions if there is one; otherwise a handler over a fresh copy of
     * the array, which is then cached. Null regions make the construction fail, and then nothing is cached.
     */
    method GetOrCreate(regions: array<Option<Region>>) returns (r: Result<BlockTextureHandler>)
      requires Valid() && regions.Length == 6 && regions !in Repr
      modifies this
      ensures Valid() && old(Repr) <= Repr && fresh(Repr - old(Repr))
      ensures regions[..] in old(cache) ==> r == Ok(old(cache)[regions[..]]) && cache == old(cache)
      ensures regions[..] !in old(cache) && !AllPresent(regions[..]) ==>
                r == Err(Cubes(NULL_MESSAGE)) && cache == old(cache)
      ensures regions[..] !in old(cache) && AllPresent(regions[..]) ==>
                && r.Ok? && fresh(r.value) && fresh(r.value.textureRegions)
                && r.value.textureRegions[..] == regions[..]
                && cache == old(cache)[regions[..] := r.value]
    {
      var key := regions[..];
      if key in cache {
        return Ok(cache[key]);
      }
      var stored := CopyOf(regions);
      r := BlockTextureHandler.Create(stored);
      if r.Ok? {
        cache := cache[key := r.value];
        Repr := Repr + {stored};
      }
    }

    /** `uniform(TextureRegion)`: the shared handler whose six faces are all `region`. */
    method Uniform(region: Option<Region>) returns (r: Result<BlockTextureHandler>)
      requires Valid()
      modifies this
      ensures Valid() && old(Repr) <= Repr && fresh(Repr - old(Repr))
      ensures region.None? ==> r == Err(Cubes(NULL_MESSAGE)) && cache == old(cache)
      ensures region.Some? ==> r.Ok? && r.value.textureRegions[..] == Six(region)
      ensures region.Some? ==> Six(region) in cache && cache[Six(region)] == r.value
      ensures Six(region) in old(cache) ==> r == Ok(old(cache)[Six(region)]) && cache == old(cache)
    {
      var regions := UniformRegions(region);
      if regions.Err? {
        assert !AllPresent(Six(region)) by {
          assert Six(region)[0].None?;
        }
        return Err(regions.error);
      }
      r := GetOrCreate(regions.value);
    }

    /**
     * `withSide`: the shared handler whose regions are the base's with the one at `face` replaced. The base and its
     * array are left as they were. A null face throws.
     */
    method WithSide(base: BlockTextureHandler, face: Option<Face>, region: Option<Region>)
      returns (r: Result<BlockTextureHandler>)
      requires Valid() && base.Valid()
      modifies this
      ensures Valid() && old(Repr) <= Repr && fresh(Repr - old(Repr))
      ensures unchanged(base.textureRegions)
      ensures face.None? ==> r == Err(NullPointer) && cache == old(cache)
      ensures face.Some? && region.Some? ==> r.Ok?
      ensures face.Some? && region.None? ==> r == Err(Cubes(NULL_MESSAGE))
      ensures face.Some? && r.Ok? ==> r.value.textureRegions[..] == base.textureRegions[..][face.value := region]
      ensures face.Some? && base.textureRegions[..][face.value := region] in old(cache) ==>
                r == Ok(old(cache)[base.textureRegions[..][face.value := region]]) && cache == old(cache)
      ensures face.Some? && base in old(cache.Values) && region == base.textureRegions[face.value] ==>
                r == Ok(base) && cache == old(cache)
    {
      if face.None? {
        return Err(NullPointer);
      }
      var next := CopyOf(base.textureRegions);
      next[face.value] := region;
      assert next[..] == base.textureRegions[..][face.value := region];
      assert region.Some? ==> AllPresent(next[..]) by {
        if region.Some? {
          forall i | 0 <= i < 6
            ensures next[..][i].Some?
          {
            if i != face.value {
              assert next[..][i] == base.textureRegions[..][i];
            }
          }
        }
      }
      assert region.None? ==> !AllPresent(next[..]) by {
        if region.None? {
          assert next[..][face.value].None?;
        }
      }
      if base in cache.Values && region == base.textureRegions[face.value] {
        ghost var k :| k in cache && cache[k] == base;
        assert next[..] == k;
      }
      r := GetOrCreate(next);
    }

    /** `setSide(int, id)`: as `withSide`, through `BlockFace.values()[index]`, which throws outside 0..5. */
    method SetSide(base: BlockTextureHandler, index: int, region: Option<Region>) returns (r: Result<BlockTextureHandler>)
      requires Valid() && base.Valid()
      modifies this
      ensures Valid() && old(Repr) <= Repr && fresh(Repr - old(Repr))
      ensures !(0 <= index < 6) ==> r == Err(IndexOutOfBounds(index)) && cache == old(cache)
      ensures 0 <= index < 6 && r.Ok? ==> r.value.textureRegions[..] == base.textureRegions[..][index := region]
    {
      if !(0 <= index < 6) {
        return Err(IndexOutOfBounds(index));
      }
      r := WithSide(base, Some(index), region);
    }
  }
}
