/**
 * The registry of terrain generator factories, keyed by world type id. It keeps registration order, as the
 * `LinkedHashMap` in the source does, and comes with the four built-in world types.
 */
module GeneratorManager {
  import opened Wrappers
  import opened JavaStrings
  import LruMap

  /** A `TerrainGeneratorFactory` object, by identity. */
  datatype Factory = Factory(id: nat)

  /** The single factory shared by the built-in world types; it builds a `StrategyTerrainGenerator`. */
  const STRATEGY_FACTORY: Factory := Factory(0)

  /** The built-in world types, in the order the static initialiser registers them. */
  const BUILT_IN: seq<string> := ["core:smooth", "core:basic", "core:test", "core:void"]

  /** The static state of `GeneratorManager`: the ids in registration order and their factories. */
  class Generators {
    var ids: seq<string>
    var generators: map<string, Factory>

    /** The order holds each registered id exactly once. */
    ghost predicate Valid()
      reads this
    {
      LruMap.Distinct(ids) && forall k :: k in generators <==> k in ids
    }

    /** The static initialiser: the four built-in ids, in order, all with the strategy factory. */
    constructor ()
      ensures Valid() && ids == BUILT_IN
      ensures forall k :: k in generators ==> generators[k] == STRATEGY_FACTORY
    {
      ids := BUILT_IN;
      generators := map k | k in BUILT_IN :: STRATEGY_FACTORY;
    }

    /**
     * `register`: a null or empty id throws; an id already present throws, so an entry is never overwritten.
     * Otherwise the id is added at the end of the order.
     */
    method Register(str: Option<string>, generator: Factory) returns (r: Result<()>)
      requires Valid()
      modifies this
      ensures Valid()
      ensures str.None? || str.value == "" ==> r == Err(NullPointer) && unchanged(this)
      ensures str.Some? && str.value != "" && str.value in old(generators) ==>
                r == Err(IllegalState(str.value + " has already been registered")) && unchanged(this)
      ensures str.Some? && str.value != "" && str.value !in old(generators) ==>
                && r == Ok(())
                && ids == old(ids) + [str.value]
                && generators == old(generators)[str.value := generator]
    {
      if str.None? || str.value == "" {
        return Err(NullPointer);
      }
      if str.value in generators {
        return Err(IllegalState(str.value + " has already been registered"));
      }
      LruMap.DistinctAppend(ids, str.value);
      ids := ids + [str.value];
      generators := generators[str.value := generator];
      return Ok(());
    }

    /** `getTerrainGenerator`: the factory of the save's world type. An unknown or null type throws. */
    function GetTerrainGenerator(worldType: Option<string>): (r: Result<Factory>)
      reads this
      ensures r.Ok? <==> worldType.Some? && worldType.value in generators
      ensures r.Ok? ==> r.value == generators[worldType.value]
      ensures r.Err? ==> r.error == IllegalState("No such generator " + Printed(worldType))
    {
      if worldType.Some? && worldType.value in generators then Ok(generators[worldType.value])
      else Err(IllegalState("No such generator " + Printed(worldType)))
    }

    /** `terrainGeneratorExists`: holds exactly for the registered ids; null is never registered. */
    function TerrainGeneratorExists(id: Option<string>): (r: bool)
      reads this
      ensures Valid() ==> (r <==> id.Some? && id.value in ids)
      ensures r <==> GetTerrainGenerator(id).Ok?
    {
      id.Some? && id.value in generators
    }

    /** `ids`: every registered id once, in registration order. */
    function Ids(): (r: seq<string>)
      reads this
      requires Valid()
      ensures LruMap.Distinct(r)
      ensures forall k :: k in r <==> k in generators
    {
      ids
    }

    /** There are as many ids as registered factories. */
    lemma IdsCount()
      requires Valid()
      ensures |Ids()| == |generators|
    {
      LruMap.DistinctCard(ids);
      assert generators.Keys == set x | x in ids;
    }
  }

  /** `getName`: the localisation key "terrain." + id with its first ':' made a '.'; a null id throws. */
  function NameKey(id: Option<string>): (r: Result<string>)
    ensures id.None? ==> r == Err(NullPointer)
    ensures id.Some? ==> r.Ok? && |r.value| == 8 + |id.value| && r.value[..8] == "terrain."
    ensures id.Some? ==> r.value[8..] == ReplaceFirst(id.value, ':', '.')
  {
    if id.None? then Err(NullPointer) else Ok("terrain." + ReplaceFirst(id.value, ':', '.'))
  }
}
