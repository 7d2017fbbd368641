/**
 * `CachingSaveDecorator`: three least-recently-used caches (areas, caves, players) in front
 * of a wrapped save. The wrapped save is modelled by what it stores: a read returns the
 * last value written for that key, and a counter records how often it was read.
 */
module CachingSaveDecorator {
  import opened Wrappers
  import opened JavaStrings
  import opened LruMap
  import opened PacketPlayerSkinColor

  datatype Area = Area(areaX: int, areaZ: int, blocks: seq<int>)
  /** A cave's contents play no part in caching. */
  datatype Cave = Cave(id: nat)
  datatype Player = Player(uuid: Uuid, username: string)

  const DEFAULT_CACHE_SIZE: int := 50

  /** `getAreaKey` and `getCaveKey`: the coordinates joined by an underscore. */
  function AreaKey(x: int, z: int): string {
    IntToString(x) + "_" + IntToString(z)
  }

  lemma NoUnderscore(x: int)
    ensures '_' !in IntToString(x)
  {
  }

  lemma FirstSeparator(a: string, b: string)
    requires '_' !in a
    ensures IndexOf(a + "_" + b, '_') == |a|
  {
    var s := a + "_" + b;
    assert s[|a|] == '_';
    assert s[..|a|] == a;
    var r := IndexOf(s, '_');
    assert r <= |a| ==> s[..r] == a[..r];
  }

  /** Two strings joined by a separator that neither first part contains split back uniquely. */
  lemma SeparatorSplit(a: string, b: string, c: string, d: string)
    requires '_' !in a && '_' !in c && a + "_" + b == c + "_" + d
    ensures a == c && b == d
  {
    var s := a + "_" + b;
    FirstSeparator(a, b);
    FirstSeparator(c, d);
    assert a == s[..|a|] && c == (c + "_" + d)[..|c|];
    assert b == s[|a| + 1..] && d == (c + "_" + d)[|c| + 1..];
  }

  /** Distinct coordinates have distinct keys, so two areas never share a cache entry. */
  lemma AreaKeyInjective(x1: int, z1: int, x2: int, z2: int)
    ensures AreaKey(x1, z1) == AreaKey(x2, z2) <==> x1 == x2 && z1 == z2
  {
    if AreaKey(x1, z1) == AreaKey(x2, z2) {
      NoUnderscore(x1);
      NoUnderscore(x2);
      SeparatorSplit(IntToString(x1), IntToString(z1), IntToString(x2), IntToString(z2));
      IntToStringInjective(x1, x2);
      IntToStringInjective(z1, z2);
    }
  }

  /** What the wrapped save's read returns for a key: the stored value, or null. */
  function Stored<K, V>(m: map<K, V>, k: K): (r: Option<V>)
    ensures r.Some? <==> k in m
    ensures r.Some? ==> r.value == m[k]
  {
    if k in m then Some(m[k]) else None
  }

  class CachingSave {
    var areaCache: Lru<string, Area>
    /** A cave written as null is cached as null, which a read treats as a miss. */
    var caveCache: Lru<string, Option<Cave>>
    var playerCache: Lru<Uuid, Player>
    const maxCacheSize: int
    /** The wrapped save's contents, and how many reads reached it. */
    var savedAreas: map<(int, int), Area>
    var savedCaves: map<(int, int), Option<Cave>>
    var savedPlayers: map<Uuid, Player>
    var wrappedReads: nat

    /** Each cache is a valid LRU map within the bound, and every cached value is the one
        the wrapped save holds for it. */
    ghost predicate Valid()
      reads this
    {
      LruMap.Valid(areaCache, maxCacheSize)
      && LruMap.Valid(caveCache, maxCacheSize)
      && LruMap.Valid(playerCache, maxCacheSize)
      && KeyedAgree(areaCache, savedAreas)
      && KeyedAgree(caveCache, savedCaves)
      && Agree(playerCache, savedPlayers)
    }

    constructor (maxCacheSize: int, areas: map<(int, int), Area>, caves: map<(int, int), Option<Cave>>,
                 players: map<Uuid, Player>)
      requires maxCacheSize >= 0
      ensures Valid()
      ensures this.maxCacheSize == maxCacheSize
      ensures areaCache == Lru(map[], []) && caveCache == Lru(map[], []) && playerCache == Lru(map[], [])
      ensures savedAreas == areas && savedCaves == caves && savedPlayers == players && wrappedReads == 0
    {
      this.maxCacheSize := maxCacheSize;
      areaCache := Lru(map[], []);
      caveCache := Lru(map[], []);
      playerCache := Lru(map[], []);
      savedAreas := areas;
      savedCaves := caves;
      savedPlayers := players;
      wrappedReads := 0;
    }

    /** The constructor without a size caches 50 entries of each kind. */
    constructor Default(areas: map<(int, int), Area>, caves: map<(int, int), Option<Cave>>,
                        players: map<Uuid, Player>)
      ensures Valid()
      ensures maxCacheSize == DEFAULT_CACHE_SIZE
      ensures areaCache == Lru(map[], []) && caveCache == Lru(map[], []) && playerCache == Lru(map[], [])
      ensures savedAreas == areas && savedCaves == caves && savedPlayers == players && wrappedReads == 0
    {
      maxCacheSize := DEFAULT_CACHE_SIZE;
      areaCache := Lru(map[], []);
      caveCache := Lru(map[], []);
      playerCache := Lru(map[], []);
      savedAreas := areas;
      savedCaves := caves;
      savedPlayers := players;
      wrappedReads := 0;
    }

    /** `writeArea`: writes through; only an accepted write (`accepted` is the wrapped save's
        answer) is stored and cached. */
    method WriteArea(area: Area, accepted: bool) returns (r: bool)
      requires Valid()
      modifies this
      ensures Valid()
      ensures r == accepted
      ensures accepted ==> savedAreas == old(savedAreas)[(area.areaX, area.areaZ) := area]
      ensures accepted ==> areaCache == Put(old(areaCache), AreaKey(area.areaX, area.areaZ), area, maxCacheSize)
      ensures !accepted ==> savedAreas == old(savedAreas) && areaCache == old(areaCache)
      ensures caveCache == old(caveCache) && playerCache == old(playerCache)
      ensures savedCaves == old(savedCaves) && savedPlayers == old(savedPlayers) && wrappedReads == old(wrappedReads)
    {
      r := accepted;
      if r {
        var key := AreaKey(area.areaX, area.areaZ);
        PutValid(areaCache, key, area, maxCacheSize);
        KeyedAgreeWrite(areaCache, savedAreas, area.areaX, area.areaZ, area, maxCacheSize);
        savedAreas := savedAreas[(area.areaX, area.areaZ) := area];
        areaCache := Put(areaCache, key, area, maxCacheSize);
      }
    }

    /** `readArea`: a cached area is returned without reading the wrapped save; otherwise the
        wrapped save's area is returned, and cached when there is one. Either way the result
        is what the wrapped save holds. */
    method ReadArea(x: int, z: int) returns (r: Option<Area>)
      requires Valid()
      modifies this
      ensures Valid()
      ensures r == Stored(savedAreas, (x, z))
      ensures AreaKey(x, z) in old(areaCache.values) ==>
        areaCache == Get(old(areaCache), AreaKey(x, z)).1 && wrappedReads == old(wrappedReads)
      ensures AreaKey(x, z) !in old(areaCache.values) ==>
        wrappedReads == old(wrappedReads) + 1
        && areaCache == (if r.Some? then Put(old(areaCache), AreaKey(x, z), r.value, maxCacheSize) else old(areaCache))
      ensures savedAreas == old(savedAreas) && savedCaves == old(savedCaves) && savedPlayers == old(savedPlayers)
      ensures caveCache == old(caveCache) && playerCache == old(playerCache)
    {
      var key := AreaKey(x, z);
      var got := Get(areaCache, key);
      GetValid(areaCache, key, maxCacheSize);
      areaCache := got.1;
      if got.0.Some? {
        return got.0;
      }
      wrappedReads := wrappedReads + 1;
      r := Stored(savedAreas, (x, z));
      if r.Some? {
        PutValid(areaCache, key, r.value, maxCacheSize);
        KeyedAgreeRead(areaCache, savedAreas, x, z, maxCacheSize);
        areaCache := Put(areaCache, key, r.value, maxCacheSize);
      }
    }

    /** `writeCave`: writes through and always caches, a null cave included. */
    method WriteCave(areaX: int, areaZ: int, cave: Option<Cave>)
      requires Valid()
      modifies this
      ensures Valid()
      ensures savedCaves == old(savedCaves)[(areaX, areaZ) := cave]
      ensures caveCache == Put(old(caveCache), AreaKey(areaX, areaZ), cave, maxCacheSize)
      ensures areaCache == old(areaCache) && playerCache == old(playerCache)
      ensures savedAreas == old(savedAreas) && savedPlayers == old(savedPlayers) && wrappedReads == old(wrappedReads)
    {
      var key := AreaKey(areaX, areaZ);
      PutValid(caveCache, key, cave, maxCacheSize);
      KeyedAgreeWrite(caveCache, savedCaves, areaX, areaZ, cave, maxCacheSize);
      savedCaves := savedCaves[(areaX, areaZ) := cave];
      caveCache := Put(caveCache, key, cave, maxCacheSize);
    }

    /** `readCave`: a cached non-null cave is returned without reading the wrapped save; a
        null or missing entry reads it, and a non-null result is cached. */
    method ReadCave(areaX: int, areaZ: int) returns (r: Option<Cave>)
      requires Valid()
      modifies this
      ensures Valid()
      ensures r == (if (areaX, areaZ) in savedCaves then savedCaves[(areaX, areaZ)] else None)
      ensures Get(old(caveCache), AreaKey(areaX, areaZ)).0 == Some(r) && r.Some? ==>
        caveCache == Get(old(caveCache), AreaKey(areaX, areaZ)).1 && wrappedReads == old(wrappedReads)
      ensures Get(old(caveCache), AreaKey(areaX, areaZ)).0 != Some(r) || r.None? ==>
        wrappedReads == old(wrappedReads) + 1
        && caveCache == (if r.Some? then Put(Get(old(caveCache), AreaKey(areaX, areaZ)).1, AreaKey(areaX, areaZ), r, maxCacheSize)
                         else Get(old(caveCache), AreaKey(areaX, areaZ)).1)
      ensures savedAreas == old(savedAreas) && savedCaves == old(savedCaves) && savedPlayers == old(savedPlayers)
      ensures areaCache == old(areaCache) && playerCache == old(playerCache)
    {
      var key := AreaKey(areaX, areaZ);
      var got := Get(caveCache, key);
      GetValid(caveCache, key, maxCacheSize);
      caveCache := got.1;
      if got.0.Some? && got.0.value.Some? {
        return got.0.value;
      }
      wrappedReads := wrappedReads + 1;
      r := if (areaX, areaZ) in savedCaves then savedCaves[(areaX, areaZ)] else None;
      if r.Some? {
        PutValid(caveCache, key, r, maxCacheSize);
        KeyedAgreeRead(caveCache, savedCaves, areaX, areaZ, maxCacheSize);
        caveCache := Put(caveCache, key, r, maxCacheSize);
      }
    }

    /** `writePlayer`: writes through and always caches the player under its UUID. */
    method WritePlayer(player: Player)
      requires Valid()
      modifies this
      ensures Valid()
      ensures savedPlayers == old(savedPlayers)[player.uuid := player]
      ensures playerCache == Put(old(playerCache), player.uuid, player, maxCacheSize)
      ensures areaCache == old(areaCache) && caveCache == old(caveCache)
      ensures savedAreas == old(savedAreas) && savedCaves == old(savedCaves) && wrappedReads == old(wrappedReads)
    {
      PutValid(playerCache, player.uuid, player, maxCacheSize);
      AgreeWrite(playerCache, savedPlayers, player.uuid, player, maxCacheSize);
      savedPlayers := savedPlayers[player.uuid := player];
      playerCache := Put(playerCache, player.uuid, player, maxCacheSize);
    }

    /** `readPlayer`: a cached player is returned without reading the wrapped save; otherwise
        the wrapped save's player is returned, and cached when there is one. */
    method ReadPlayer(uuid: Uuid) returns (r: Option<Player>)
      requires Valid()
      modifies this
      ensures Valid()
      ensures r == Stored(savedPlayers, uuid)
      ensures uuid in old(playerCache.values) ==>
        playerCache == Get(old(playerCache), uuid).1 && wrappedReads == old(wrappedReads)
      ensures uuid !in old(playerCache.values) ==>
        wrappedReads == old(wrappedReads) + 1
        && playerCache == (if r.Some? then Put(old(playerCache), uuid, r.value, maxCacheSize) else old(playerCache))
      ensures savedAreas == old(savedAreas) && savedCaves == old(savedCaves) && savedPlayers == old(savedPlayers)
      ensures areaCache == old(areaCache) && caveCache == old(caveCache)
    {
      var got := Get(playerCache, uuid);
      GetValid(playerCache, uuid, maxCacheSize);
      playerCache := got.1;
      if got.0.Some? {
        return got.0;
      }
      wrappedReads := wrappedReads + 1;
      r := Stored(savedPlayers, uuid);
      if r.Some? {
        PutValid(playerCache, uuid, r.value, maxCacheSize);
        AgreeWrite(playerCache, savedPlayers, uuid, r.value, maxCacheSize);
        assert savedPlayers[uuid := r.value] == savedPlayers;
        playerCache := Put(playerCache, uuid, r.value, maxCacheSize);
      }
    }

    /** `clearCache`: empties the three caches; the wrapped save keeps its contents. */
    method ClearCache()
      requires Valid()
      modifies this
      ensures Valid()
      ensures areaCache == Lru(map[], []) && caveCache == Lru(map[], []) && playerCache == Lru(map[], [])
      ensures savedAreas == old(savedAreas) && savedCaves == old(savedCaves) && savedPlayers == old(savedPlayers)
      ensures wrappedReads == old(wrappedReads)
    {
      areaCache := Lru(map[], []);
      caveCache := Lru(map[], []);
      playerCache := Lru(map[], []);
    }

    /** `getCacheStats`: the number of areas, caves and players cached, and the bound; in a
        valid decorator no cache holds more than the bound. */
    function CacheStats(): (r: (nat, nat, nat, int))
      reads this
      ensures r.3 == maxCacheSize
      ensures Valid() ==> r.0 <= maxCacheSize && r.1 <= maxCacheSize && r.2 <= maxCacheSize
    {
      BoundedIfValid(areaCache, maxCacheSize);
      BoundedIfValid(caveCache, maxCacheSize);
      BoundedIfValid(playerCache, maxCacheSize);
      (|areaCache.values|, |caveCache.values|, |playerCache.values|, maxCacheSize)
    }
  }

  /** `new CachingSaveDecorator(save, maxCacheSize)`: the first `LinkedHashMap` refuses a
      negative initial capacity, so a negative size ends in an IllegalArgumentException. */
  method NewCachingSave(maxCacheSize: int, areas: map<(int, int), Area>, caves: map<(int, int), Option<Cave>>,
                        players: map<Uuid, Player>)
    returns (r: Result<CachingSave>)
    ensures r.Err? <==> maxCacheSize < 0
    ensures r.Err? ==> r.error == IllegalArgument("Illegal initial capacity: " + IntToString(maxCacheSize))
    ensures r.Ok? ==> fresh(r.value) && r.value.Valid() && r.value.maxCacheSize == maxCacheSize
    ensures r.Ok? ==> r.value.areaCache == Lru(map[], []) && r.value.caveCache == Lru(map[], [])
    ensures r.Ok? ==> r.value.playerCache == Lru(map[], [])
    ensures r.Ok? ==> r.value.savedAreas == areas && r.value.savedCaves == caves
    ensures r.Ok? ==> r.value.savedPlayers == players && r.value.wrappedReads == 0
  {
    if maxCacheSize < 0 {
      return Err(IllegalArgument("Illegal initial capacity: " + IntToString(maxCacheSize)));
    }
    var c := new CachingSave(maxCacheSize, areas, caves, players);
    r := Ok(c);
  }

  lemma BoundedIfValid<K(!new), V>(c: Lru<K, V>, max: int)
    ensures LruMap.Valid(c, max) ==> |c.values| <= max
  {
    if LruMap.Valid(c, max) {
      SizeBound(c, max);
    }
  }

  /** The line `getCacheStats` formats from the sizes and the bound. */
  function CacheStatsLine(s: (nat, nat, nat, int)): string {
    "Cache stats - Areas: " + IntToString(s.0) + "/" + IntToString(s.3)
    + ", Caves: " + IntToString(s.1) + "/" + IntToString(s.3)
    + ", Players: " + IntToString(s.2) + "/" + IntToString(s.3)
  }

  /** Every value an area-keyed cache holds is the one the wrapped save holds for those coordinates. */
  ghost predicate KeyedAgree<V>(c: Lru<string, V>, saved: map<(int, int), V>) {
    forall x, z :: AreaKey(x, z) in c.values ==> (x, z) in saved && saved[(x, z)] == c.values[AreaKey(x, z)]
  }

  /** Every value a cache holds is the one the wrapped save holds for its key. */
  ghost predicate Agree<K, V>(c: Lru<K, V>, saved: map<K, V>) {
    forall k :: k in c.values ==> k in saved && saved[k] == c.values[k]
  }

  /** Writing through to the save and caching the same value keeps the cache in agreement. */
  lemma KeyedAgreeWrite<V>(c: Lru<string, V>, saved: map<(int, int), V>, x: int, z: int, v: V, max: int)
    requires KeyedAgree(c, saved)
    ensures KeyedAgree(Put(c, AreaKey(x, z), v, max), saved[(x, z) := v])
  {
    var c' := Put(c, AreaKey(x, z), v, max);
    forall x', z' | AreaKey(x', z') in c'.values
      ensures (x', z') in saved[(x, z) := v] && saved[(x, z) := v][(x', z')] == c'.values[AreaKey(x', z')]
    {
      AreaKeyInjective(x', z', x, z);
      PutKeeps(c, AreaKey(x, z), v, max, AreaKey(x', z'));
    }
  }

  /** Caching what the save holds keeps the cache in agreement. */
  lemma KeyedAgreeRead<V>(c: Lru<string, V>, saved: map<(int, int), V>, x: int, z: int, max: int)
    requires KeyedAgree(c, saved) && (x, z) in saved
    ensures KeyedAgree(Put(c, AreaKey(x, z), saved[(x, z)], max), saved)
  {
    KeyedAgreeWrite(c, saved, x, z, saved[(x, z)], max);
    assert saved[(x, z) := saved[(x, z)]] == saved;
  }

  /** Writing through to the save and caching the same value keeps the cache in agreement. */
  lemma AgreeWrite<K(!new), V>(c: Lru<K, V>, saved: map<K, V>, k: K, v: V, max: int)
    requires Agree(c, saved)
    ensures Agree(Put(c, k, v, max), saved[k := v])
  {
    forall u | u in Put(c, k, v, max).values
      ensures u in saved[k := v] && saved[k := v][u] == Put(c, k, v, max).values[u]
    {
      PutKeeps(c, k, v, max, u);
    }
  }

  /** Every entry a `put` leaves in the cache is either the one put or one that was there. */
  lemma PutKeeps<K(!new), V>(c: Lru<K, V>, k: K, v: V, max: int, other: K)
    requires other in Put(c, k, v, max).values
    ensures other == k ==> Put(c, k, v, max).values[other] == v
    ensures other != k ==> other in c.values && Put(c, k, v, max).values[other] == c.values[other]
  {
  }
}
