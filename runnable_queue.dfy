/**
 * The double-buffered queue of tasks: tasks are added to the queue the counter's parity
 * selects, and each `runAll` flips the parity before draining the queue it selected, so
 * tasks added while it runs wait for the next pass.
 */
module RunnableQueue {
  import opened JavaInts

  /** A task, by an identifier; running it may add further tasks. */
  type Runnable = nat

  /** The tasks added by running each of `rs` in turn, when running `r` adds `spawn(r)`. */
  function Spawned(spawn: Runnable -> seq<Runnable>, rs: seq<Runnable>): seq<Runnable> {
    if |rs| == 0 then [] else spawn(rs[0]) + Spawned(spawn, rs[1..])
  }

  lemma SpawnedAppend(spawn: Runnable -> seq<Runnable>, rs: seq<Runnable>, r: Runnable)
    ensures Spawned(spawn, rs + [r]) == Spawned(spawn, rs) + spawn(r)
  {
    if |rs| > 0 {
      assert (rs + [r])[1..] == rs[1..] + [r];
      SpawnedAppend(spawn, rs[1..], r);
    } else {
      assert [r][1..] == [];
    }
  }

  class Queue {
    var queueA: seq<Runnable>
    var queueB: seq<Runnable>
    var which: int
    /** The tasks run so far, in order. */
    var ran: seq<Runnable>

    ghost predicate Valid()
      reads this
    {
      IsInt(which)
    }

    constructor ()
      ensures Valid()
      ensures queueA == [] && queueB == [] && which == 0 && ran == []
    {
      queueA := [];
      queueB := [];
      which := 0;
      ran := [];
    }

    /** `add`: to queue A while the counter is even, to queue B while it is odd. */
    method Add(r: Runnable)
      modifies this
      ensures which == old(which) && ran == old(ran)
      ensures which % 2 == 0 ==> queueA == old(queueA) + [r] && queueB == old(queueB)
      ensures which % 2 != 0 ==> queueB == old(queueB) + [r] && queueA == old(queueA)
    {
      if which % 2 == 0 {
        queueA := queueA + [r];
      } else {
        queueB := queueB + [r];
      }
    }

    /** Runs one task: records it and lets it add the tasks it spawns. */
    method Run(r: Runnable, spawn: Runnable -> seq<Runnable>)
      modifies this
      ensures which == old(which) && ran == old(ran) + [r]
      ensures which % 2 == 0 ==> queueA == old(queueA) + spawn(r) && queueB == old(queueB)
      ensures which % 2 != 0 ==> queueB == old(queueB) + spawn(r) && queueA == old(queueA)
    {
      ran := ran + [r];
      var added := spawn(r);
      var k := 0;
      while k < |added|
        invariant 0 <= k <= |added|
        invariant which == old(which) && ran == old(ran) + [r]
        invariant which % 2 == 0 ==> queueA == old(queueA) + added[..k] && queueB == old(queueB)
        invariant which % 2 != 0 ==> queueB == old(queueB) + added[..k] && queueA == old(queueA)
      {
        assert added[..k + 1] == added[..k] + [added[k]];
        Add(added[k]);
        k := k + 1;
      }
      assert added[..k] == added;
    }

    /** `runAll`: selects a queue by the counter's parity, increments the counter, then runs
        the selected queue to empty in FIFO order; what those tasks add goes to the other queue. */
    method RunAll(spawn: Runnable -> seq<Runnable>)
      requires Valid()
      modifies this
      ensures Valid()
      ensures which == Wrap32(old(which) + 1)
      ensures old(which) % 2 == 0 ==>
        ran == old(ran) + old(queueA) && queueA == [] && queueB == old(queueB) + Spawned(spawn, old(queueA))
      ensures old(which) % 2 != 0 ==>
        ran == old(ran) + old(queueB) && queueB == [] && queueA == old(queueA) + Spawned(spawn, old(queueB))
    {
      var useA := which % 2 == 0;
      which := Wrap32(which + 1);
      ParityFlips(old(which));
      if useA {
        DrainA(spawn);
      } else {
        DrainB(spawn);
      }
    }

    /** The draining loop of `runAll` over queue A, while `add` goes to queue B. */
    method DrainA(spawn: Runnable -> seq<Runnable>)
      requires which % 2 != 0
      modifies this
      ensures which == old(which) && ran == old(ran) + old(queueA) && queueA == []
      ensures queueB == old(queueB) + Spawned(spawn, old(queueA))
    {
      ghost var done: seq<Runnable> := [];
      while queueA != []
        invariant which == old(which)
        invariant done + queueA == old(queueA) && ran == old(ran) + done
        invariant queueB == old(queueB) + Spawned(spawn, done)
        decreases |queueA|
      {
        var r := queueA[0];
        queueA := queueA[1..];
        Run(r, spawn);
        SpawnedAppend(spawn, done, r);
        done := done + [r];
      }
      assert done + [] == done;
    }

    /** The draining loop of `runAll` over queue B, while `add` goes to queue A. */
    method DrainB(spawn: Runnable -> seq<Runnable>)
      requires which % 2 == 0
      modifies this
      ensures which == old(which) && ran == old(ran) + old(queueB) && queueB == []
      ensures queueA == old(queueA) + Spawned(spawn, old(queueB))
    {
      ghost var done: seq<Runnable> := [];
      while queueB != []
        invariant which == old(which)
        invariant done + queueB == old(queueB) && ran == old(ran) + done
        invariant queueA == old(queueA) + Spawned(spawn, done)
        decreases |queueB|
      {
        var r := queueB[0];
        queueB := queueB[1..];
        Run(r, spawn);
        SpawnedAppend(spawn, done, r);
        done := done + [r];
      }
      assert done + [] == done;
    }

    /** `iterableView`: a snapshot of queue A followed by queue B; nothing is removed. */
    function IterableView(): (r: seq<Runnable>)
      reads this
      ensures |r| == |queueA| + |queueB|
      ensures r[..|queueA|] == queueA && r[|queueA|..] == queueB
    {
      queueA + queueB
    }
  }

  /** Incrementing the counter, with Java's wrap-around, always changes its parity. */
  lemma ParityFlips(x: int)
    requires IsInt(x)
    ensures (x % 2 == 0) <==> (Wrap32(x + 1) % 2 != 0)
  {
    IncrementWraps(x);
  }
}
