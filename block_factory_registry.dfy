/** The registry that maps a block id to the factory building that block. */
module BlockFactoryRegistry {
  import opened Wrappers

  /** A `BlockFactory` object, by identity. */
  datatype BlockFactory = BlockFactory(id: nat)

  /** One call of `register`. */
  datatype Registration = Registration(id: string, factory: BlockFactory)

  /** The map that a sequence of `register` calls leaves, applied in order. */
  function Replay(history: seq<Registration>): (m: map<string, BlockFactory>)
    ensures |m| <= |history|
  {
    if |history| == 0 then map[]
    else
      var last := history[|history| - 1];
      var m := Replay(history[..|history| - 1]);
      m[last.id := last.factory]
  }

  /** The factory of the last registration of `id`, searching from the most recent call back. */
  function LastRegistered(history: seq<Registration>, id: string): (r: Option<BlockFactory>)
    ensures r.Some? ==> Registration(id, r.value) in history
  {
    if |history| == 0 then None
    else if history[|history| - 1].id == id then Some(history[|history| - 1].factory)
    else
      var r := LastRegistered(history[..|history| - 1], id);
      assert r.Some? ==> Registration(id, r.value) in history[..|history| - 1];
      r
  }

  /** Each id resolves to the factory of its most recent registration; an id never registered is absent. */
  lemma {:induction false} ReplayIsLastRegistration(history: seq<Registration>, id: string)
    ensures id in Replay(history) <==> LastRegistered(history, id).Some?
    ensures id in Replay(history) ==> Replay(history)[id] == LastRegistered(history, id).value
  {
    if |history| > 0 {
      ReplayIsLastRegistration(history[..|history| - 1], id);
    }
  }

  /** The static registry: a hash map from id to factory. `history` is every `register` call so far. */
  class Registry {
    var registry: map<string, BlockFactory>
    ghost var history: seq<Registration>

    ghost predicate Valid()
      reads this
    {
      registry == Replay(history)
    }

    constructor ()
      ensures Valid() && registry == map[] && history == []
    {
      registry := map[];
      history := [];
    }

    /** `register`: binds the id to the factory, replacing any earlier binding of that id. */
    method Register(id: string, factory: BlockFactory)
      requires Valid()
      modifies this
      ensures Valid() && history == old(history) + [Registration(id, factory)]
      ensures registry == old(registry)[id := factory]
    {
      registry := registry[id := factory];
      history := history + [Registration(id, factory)];
      assert history[..|history| - 1] == old(history);
    }

    /**
     * `create`: the factory that builds the block. It is the factory registered last for the id, and an id never
     * registered throws. The block the factory builds is not part of this model.
     */
    method Create(id: string) returns (r: Result<BlockFactory>)
      requires Valid()
      ensures r.Ok? <==> LastRegistered(history, id).Some?
      ensures r.Ok? ==> r.value == LastRegistered(history, id).value
      ensures r.Err? ==> r.error == IllegalArgument("Unknown block ID: " + id)
    {
      ReplayIsLastRegistration(history, id);
      if id !in registry {
        return Err(IllegalArgument("Unknown block ID: " + id));
      }
      return Ok(registry[id]);
    }
  }
}
