/**
 * The undoable block commands: placing a block, breaking one, and a composite that runs
 * its sub-commands in order and undoes them in reverse. The world they act on is modelled
 * as a store of cells that returns what was last set.
 */
module Commands {
  import opened Wrappers

  type Pos = (int, int, int)

  /** A world cell: the block (None for air) and its meta. */
  datatype Cell = Cell(block: Option<string>, meta: int)

  const AIR: Cell := Cell(None, 0)

  /** The cells that are not air; an absent position holds air. */
  ghost predicate Canonical(cells: map<Pos, Cell>) {
    forall p :: p in cells ==> cells[p] != AIR
  }

  /** `getBlock` and `getMeta` together. */
  function Get(cells: map<Pos, Cell>, p: Pos): Cell {
    if p in cells then cells[p] else AIR
  }

  /** `setBlock`: the cell at `p` becomes `c`, and no other cell changes. */
  function Set(cells: map<Pos, Cell>, p: Pos, c: Cell): (r: map<Pos, Cell>)
    ensures Canonical(cells) ==> Canonical(r)
    ensures forall q :: Get(r, q) == if q == p then c else Get(cells, q)
  {
    if c == AIR then cells - {p} else cells[p := c]
  }

  /** Writing back what a cell held restores the whole world. */
  lemma SetBack(cells: map<Pos, Cell>, p: Pos, c: Cell)
    requires Canonical(cells)
    ensures Set(Set(cells, p, c), p, Get(cells, p)) == cells
  {
    var r := Set(Set(cells, p, c), p, Get(cells, p));
    assert forall q :: q in r <==> q in cells;
  }

  /** The world the commands act on. */
  class World {
    var cells: map<Pos, Cell>

    ghost predicate Valid()
      reads this
    {
      Canonical(cells)
    }

    constructor (cells: map<Pos, Cell>)
      requires Canonical(cells)
      ensures Valid() && this.cells == cells
    {
      this.cells := cells;
    }

    method SetBlock(block: Option<string>, p: Pos, meta: int)
      requires Valid()
      modifies this
      ensures Valid() && cells == Set(old(cells), p, Cell(block, meta))
    {
      cells := Set(cells, p, Cell(block, meta));
    }
  }

  /** `PlaceBlockCommand`. */
  class PlaceBlockCommand {
    const world: World
    const newBlock: Option<string>
    const pos: Pos
    const meta: int
    var previousBlock: Option<string>
    var previousMeta: int

    constructor (world: World, newBlock: Option<string>, x: int, y: int, z: int, meta: int)
      ensures this.world == world && this.newBlock == newBlock && pos == (x, y, z) && this.meta == meta
      ensures previousBlock == None && previousMeta == 0
    {
      this.world := world;
      this.newBlock := newBlock;
      pos := (x, y, z);
      this.meta := meta;
      previousBlock := None;
      previousMeta := 0;
    }

    /** `execute`: records the block and meta at the position, then writes the new block
        with its meta there. */
    method Execute()
      requires world.Valid()
      modifies this, world
      ensures world.Valid()
      ensures Cell(previousBlock, previousMeta) == Get(old(world.cells), pos)
      ensures world.cells == Set(old(world.cells), pos, Cell(newBlock, meta))
    {
      var previous := Get(world.cells, pos);
      previousBlock := previous.block;
      previousMeta := previous.meta;
      world.SetBlock(newBlock, pos, meta);
    }

    /** `undo`: writes the recorded block and meta back. */
    method Undo()
      requires world.Valid()
      modifies world
      ensures world.Valid()
      ensures world.cells == Set(old(world.cells), pos, Cell(previousBlock, previousMeta))
    {
      world.SetBlock(previousBlock, pos, previousMeta);
    }
  }

  /** `BreakBlockCommand`: `setBlock` without a meta writes meta 0. */
  class BreakBlockCommand {
    const world: World
    const pos: Pos
    var previousBlock: Option<string>

    constructor (world: World, x: int, y: int, z: int)
      ensures this.world == world && pos == (x, y, z) && previousBlock == None
    {
      this.world := world;
      pos := (x, y, z);
      previousBlock := None;
    }

    /** `execute`: records the block at the position, then sets it to air. */
    method Execute()
      requires world.Valid()
      modifies this, world
      ensures world.Valid()
      ensures previousBlock == Get(old(world.cells), pos).block
      ensures world.cells == Set(old(world.cells), pos, AIR)
    {
      previousBlock := Get(world.cells, pos).block;
      world.SetBlock(None, pos, 0);
    }

    /** `undo`: writes the recorded block back; its meta is not recorded. */
    method Undo()
      requires world.Valid()
      modifies world
      ensures world.Valid()
      ensures world.cells == Set(old(world.cells), pos, Cell(previousBlock, 0))
    {
      world.SetBlock(previousBlock, pos, 0);
    }
  }

  /** Breaking then undoing brings back the block with meta 0 and leaves every other cell
      as it was; the world is restored exactly when the meta was 0. */
  lemma BreakThenUndo(cells: map<Pos, Cell>, p: Pos)
    requires Canonical(cells)
    ensures var after := Set(Set(cells, p, AIR), p, Cell(Get(cells, p).block, 0));
      Get(after, p) == Cell(Get(cells, p).block, 0)
      && (forall q :: q != p ==> Get(after, q) == Get(cells, q))
      && (after == cells <==> Get(cells, p).meta == 0)
  {
    var after := Set(Set(cells, p, AIR), p, Cell(Get(cells, p).block, 0));
    if Get(cells, p).meta == 0 {
      SetBack(cells, p, AIR);
    } else {
      assert Get(after, p) != Get(cells, p);
    }
  }

  /** A sub-command of a composite. */
  datatype Command = Place(place: PlaceBlockCommand) | Break(breaker: BreakBlockCommand)
  {
    function Target(): object {
      match this
      case Place(c) => c
      case Break(c) => c
    }

    function WorldOf(): World {
      match this
      case Place(c) => c.world
      case Break(c) => c.world
    }

    /** What `execute` writes, and where. */
    function Effect(): Step {
      match this
      case Place(c) => Step(c.pos, Cell(c.newBlock, c.meta))
      case Break(c) => Step(c.pos, AIR)
    }

    /** What `undo` will write, from what was recorded. */
    function Restore(): Cell
      reads Target()
    {
      match this
      case Place(c) => Cell(c.previousBlock, c.previousMeta)
      case Break(c) => Cell(c.previousBlock, 0)
    }

    /** What `undo` writes after an `execute` that saw cell `seen`. */
    function RestoreOf(seen: Cell): Cell {
      match this
      case Place(_) => seen
      case Break(_) => Cell(seen.block, 0)
    }
  }

  datatype Step = Step(pos: Pos, cell: Cell)

  /** The cells of every world a composite's sub-commands act on; the sub-commands of one
      composite may act on several worlds. */
  type WorldCells = map<World, map<Pos, Cell>>

  ghost predicate AllCanonical(ws: WorldCells) {
    forall w :: w in ws ==> Canonical(ws[w])
  }

  /** Every command acts on one of the worlds in `ws`. */
  predicate OnWorlds(ws: WorldCells, cs: seq<Command>) {
    forall i :: 0 <= i < |cs| ==> cs[i].WorldOf() in ws
  }

  /** `setBlock` on world `w`: no other world changes. */
  function SetIn(ws: WorldCells, w: World, p: Pos, c: Cell): (r: WorldCells)
    requires w in ws
    ensures r.Keys == ws.Keys && (AllCanonical(ws) ==> AllCanonical(r))
    ensures forall v :: v in ws && v != w ==> r[v] == ws[v]
  {
    ws[w := Set(ws[w], p, c)]
  }

  lemma SetInBack(ws: WorldCells, w: World, p: Pos, c: Cell)
    requires AllCanonical(ws) && w in ws
    ensures SetIn(SetIn(ws, w, p, c), w, p, Get(ws[w], p)) == ws
  {
    SetBack(ws[w], p, c);
  }

  /** The worlds after running the commands' `execute` in order. */
  function ExecAll(ws: WorldCells, cs: seq<Command>): (r: WorldCells)
    requires OnWorlds(ws, cs)
    ensures r.Keys == ws.Keys && (AllCanonical(ws) ==> AllCanonical(r))
  {
    if |cs| == 0 then ws
    else
      var n := |cs| - 1;
      SetIn(ExecAll(ws, cs[..n]), cs[n].WorldOf(), cs[n].Effect().pos, cs[n].Effect().cell)
  }

  /** The cell each command finds before it writes, when the commands run in order. */
  function Trace(ws: WorldCells, cs: seq<Command>): (r: seq<Cell>)
    requires OnWorlds(ws, cs)
    ensures |r| == |cs|
  {
    if |cs| == 0 then []
    else
      var n := |cs| - 1;
      Trace(ws, cs[..n]) + [Get(ExecAll(ws, cs[..n])[cs[n].WorldOf()], cs[n].Effect().pos)]
  }

  /** The worlds after writing back `restore[i]` where each command wrote, last command
      first. */
  function UndoAll(ws: WorldCells, cs: seq<Command>, restore: seq<Cell>): (r: WorldCells)
    requires OnWorlds(ws, cs) && |restore| == |cs|
    ensures r.Keys == ws.Keys && (AllCanonical(ws) ==> AllCanonical(r))
    decreases |cs|
  {
    if |cs| == 0 then ws
    else
      var n := |cs| - 1;
      UndoAll(SetIn(ws, cs[n].WorldOf(), cs[n].Effect().pos, restore[n]), cs[..n], restore[..n])
  }

  /** The last position at or after `i` that holds the same command as `i`. */
  function LastOf(cs: seq<Command>, i: int): (r: int)
    requires 0 <= i < |cs|
    ensures i <= r < |cs| && cs[r] == cs[i]
    ensures forall j :: r < j < |cs| ==> cs[j] != cs[i]
  {
    LastFrom(cs, i, |cs| - 1)
  }

  function LastFrom(cs: seq<Command>, i: int, k: int): (r: int)
    requires 0 <= i <= k < |cs|
    ensures i <= r <= k && cs[r] == cs[i]
    ensures forall j :: r < j <= k ==> cs[j] != cs[i]
    decreases k
  {
    if cs[k] == cs[i] then k else LastFrom(cs, i, k - 1)
  }

  /** What each sub-command's undo writes after the composite's `execute`: each run of a
      command records, for every occurrence of that command, what that run found. */
  function RecordsAfter(ws: WorldCells, cs: seq<Command>): (r: seq<Cell>)
    requires OnWorlds(ws, cs)
    ensures |r| == |cs|
  {
    if |cs| == 0 then []
    else
      var n := |cs| - 1;
      var prev := RecordsAfter(ws, cs[..n]);
      var seen := Get(ExecAll(ws, cs[..n])[cs[n].WorldOf()], cs[n].Effect().pos);
      seq(|cs|, j requires 0 <= j < |cs| => if cs[j] == cs[n] then cs[j].RestoreOf(seen) else prev[j])
  }

  /** After the composite's `execute`, a sub-command added more than once keeps what its last
      run found. */
  lemma {:induction false} RecordsAfterLast(ws: WorldCells, cs: seq<Command>, i: int)
    requires OnWorlds(ws, cs) && 0 <= i < |cs|
    ensures RecordsAfter(ws, cs)[i] == cs[i].RestoreOf(Trace(ws, cs)[LastOf(cs, i)])
  {
    var n := |cs| - 1;
    var prefix := cs[..n];
    var seen := Get(ExecAll(ws, prefix)[cs[n].WorldOf()], cs[n].Effect().pos);
    var trace := Trace(ws, cs);
    assert trace == Trace(ws, prefix) + [seen];
    assert cs[..n + 1] == cs;
    RecordsAfterStep(ws, cs, n);
    if cs[i] == cs[n] {
      assert LastOf(cs, i) == n;
    } else {
      var k := LastOf(prefix, i);
      RecordsAfterLast(ws, prefix, i);
      LastOfStep(cs, n, i);
      assert trace[k] == Trace(ws, prefix)[k];
    }
  }

  /** Undoing in reverse order what each command found restores the worlds the commands
      started from. */
  lemma {:induction false} UndoAllRestores(ws: WorldCells, cs: seq<Command>)
    requires AllCanonical(ws) && OnWorlds(ws, cs)
    ensures UndoAll(ExecAll(ws, cs), cs, Trace(ws, cs)) == ws
  {
    if |cs| > 0 {
      var n := |cs| - 1;
      var prefix := cs[..n];
      var before := ExecAll(ws, prefix);
      var trace := Trace(ws, cs);
      assert trace[..n] == Trace(ws, prefix);
      assert trace[n] == Get(before[cs[n].WorldOf()], cs[n].Effect().pos);
      SetInBack(before, cs[n].WorldOf(), cs[n].Effect().pos, cs[n].Effect().cell);
      UndoAllRestores(ws, prefix);
    }
  }

  /** A place command's undo writes back exactly what its execute found; a break command's
      does when that cell's meta was 0. */
  lemma RestoreInverts(c: Command, seen: Cell)
    ensures c.RestoreOf(seen) == seen <==> c.Place? || seen.meta == 0
  {
  }

  /** A composite's `execute` followed by its `undo` restores every world when no
      sub-command was added twice and every sub-command's undo writes back what its execute
      found: always for a place command, and for a break command when the meta there was 0. */
  lemma CompositeRoundTrip(ws: WorldCells, cs: seq<Command>)
    requires AllCanonical(ws) && OnWorlds(ws, cs)
    requires forall i, j :: 0 <= i < j < |cs| ==> cs[i] != cs[j]
    requires forall i :: 0 <= i < |cs| ==> cs[i].Place? || Trace(ws, cs)[i].meta == 0
    ensures UndoAll(ExecAll(ws, cs), cs, RecordsAfter(ws, cs)) == ws
  {
    RestoresFound(ws, cs);
    UndoAllRestores(ws, cs);
  }

  lemma RestoresFound(ws: WorldCells, cs: seq<Command>)
    requires OnWorlds(ws, cs)
    requires forall i, j :: 0 <= i < j < |cs| ==> cs[i] != cs[j]
    requires forall i :: 0 <= i < |cs| ==> cs[i].Place? || Trace(ws, cs)[i].meta == 0
    ensures RecordsAfter(ws, cs) == Trace(ws, cs)
  {
    var found := Trace(ws, cs);
    forall i | 0 <= i < |cs|
      ensures RecordsAfter(ws, cs)[i] == found[i]
    {
      RecordsAfterLast(ws, cs, i);
      assert LastOf(cs, i) == i;
      RestoreInverts(cs[i], found[i]);
    }
  }

  /** A place command added twice finds, on its second run, the block it placed itself, so
      undoing the composite leaves that block where another cell was: the world is not
      restored. */
  lemma RepeatedPlaceNotRestored(ws: WorldCells, c: PlaceBlockCommand)
    requires AllCanonical(ws) && c.world in ws
    requires Get(ws[c.world], c.pos) != Cell(c.newBlock, c.meta)
    ensures var cs := [Place(c), Place(c)];
      UndoAll(ExecAll(ws, cs), cs, RecordsAfter(ws, cs)) != ws
  {
    var cs := [Place(c), Place(c)];
    var placed := Cell(c.newBlock, c.meta);
    var once := ExecAll(ws, cs[..1]);
    assert cs[..1][..0] == [];
    assert Get(once[c.world], c.pos) == placed;
    assert Trace(ws, cs)[1] == placed;
    assert LastOf(cs, 0) == 1;
    assert RecordsAfter(ws, cs) == [placed, placed];
    var twice := ExecAll(ws, cs);
    assert Get(twice[c.world], c.pos) == placed;
    var undoneOnce := SetIn(twice, c.world, c.pos, placed);
    assert Get(undoneOnce[c.world], c.pos) == placed;
    var undone := SetIn(undoneOnce, c.world, c.pos, placed);
    assert UndoAll(undone, [], []) == undone;
    assert UndoAll(undoneOnce, cs[..1], [placed]) == undone;
    assert Get(undone[c.world], c.pos) == placed;
  }

  /** Running one more command extends the trace by what that command finds. */
  lemma ExecPrefixStep(ws: WorldCells, cs: seq<Command>, i: int)
    requires OnWorlds(ws, cs) && 0 <= i < |cs|
    ensures ExecAll(ws, cs[..i + 1])
         == SetIn(ExecAll(ws, cs[..i]), cs[i].WorldOf(), cs[i].Effect().pos, cs[i].Effect().cell)
    ensures Trace(ws, cs[..i + 1])
         == Trace(ws, cs[..i]) + [Get(ExecAll(ws, cs[..i])[cs[i].WorldOf()], cs[i].Effect().pos)]
  {
    assert cs[..i + 1][..i] == cs[..i];
  }

  /** The last occurrence of command `j` in a prefix one longer is the new command when it
      is the same command, and otherwise the one it was. */
  lemma LastOfStep(cs: seq<Command>, i: int, j: int)
    requires 0 <= j < i < |cs|
    ensures LastOf(cs[..i + 1], j) == if cs[i] == cs[j] then i else LastOf(cs[..i], j)
  {
    var r := LastOf(cs[..i + 1], j);
    if cs[i] != cs[j] {
      var s := LastOf(cs[..i], j);
      assert cs[..i + 1][s] == cs[j];
      assert cs[..i][r] == cs[j];
    }
  }

  /** Running one more command changes the record of that command, wherever it occurs,
      to what it found, and no other record. */
  lemma RecordsAfterStep(ws: WorldCells, cs: seq<Command>, i: int)
    requires OnWorlds(ws, cs) && 0 <= i < |cs|
    ensures forall j :: 0 <= j <= i ==>
      RecordsAfter(ws, cs[..i + 1])[j]
      == (if cs[j] == cs[i] then cs[j].RestoreOf(Get(ExecAll(ws, cs[..i])[cs[i].WorldOf()], cs[i].Effect().pos))
          else RecordsAfter(ws, cs[..i])[j])
  {
    assert cs[..i + 1][..i] == cs[..i];
  }

  /** Undoing a prefix one command longer undoes its last command first. */
  lemma UndoPrefixStep(ws: WorldCells, cs: seq<Command>, restore: seq<Cell>, i: int)
    requires OnWorlds(ws, cs) && 0 <= i < |cs| && |restore| == |cs|
    ensures UndoAll(ws, cs[..i + 1], restore[..i + 1])
         == UndoAll(SetIn(ws, cs[i].WorldOf(), cs[i].Effect().pos, restore[i]), cs[..i], restore[..i])
  {
    assert cs[..i + 1][..i] == cs[..i] && restore[..i + 1][..i] == restore[..i];
  }

  /** The cells of the worlds `ws`. */
  ghost function CellsOf(ws: set<World>): (r: WorldCells)
    reads ws
    ensures r.Keys == ws
  {
    map w | w in ws :: w.cells
  }

  ghost predicate AllValid(ws: set<World>)
    reads ws
  {
    forall w :: w in ws ==> w.Valid()
  }

  /** `CompositeCommand`. */
  class CompositeCommand {
    var subCommands: seq<Command>

    /** The worlds the sub-commands act on. */
    ghost function Worlds(): (r: set<World>)
      reads this
      ensures forall i :: 0 <= i < |subCommands| ==> subCommands[i].WorldOf() in r
    {
      set i | 0 <= i < |subCommands| :: subCommands[i].WorldOf()
    }

    ghost function Targets(): (r: set<object>)
      reads this
      ensures forall i :: 0 <= i < |subCommands| ==> subCommands[i].Target() in r
    {
      set i | 0 <= i < |subCommands| :: subCommands[i].Target()
    }

    /** The cells of every world the sub-commands act on. */
    ghost function Snapshot(): (r: WorldCells)
      reads this, Worlds()
      ensures r.Keys == Worlds() && OnWorlds(r, subCommands)
    {
      CellsOf(Worlds())
    }

    ghost predicate WorldsValid()
      reads this, Worlds()
    {
      AllValid(Worlds())
    }

    /** What each sub-command's undo will write, in order. */
    ghost function Restores(): (r: seq<Cell>)
      reads this, Targets()
      ensures |r| == |subCommands|
    {
      seq(|subCommands|, i reads this, Targets() requires 0 <= i < |subCommands| => subCommands[i].Restore())
    }

    constructor ()
      ensures subCommands == []
    {
      subCommands := [];
    }

    /** `add`: appends the command. */
    method Add(cmd: Command)
      modifies this
      ensures subCommands == old(subCommands) + [cmd]
    {
      subCommands := subCommands + [cmd];
    }

    /** `execute`: runs every sub-command's `execute` in insertion order. */
    method Execute()
      requires WorldsValid()
      modifies Worlds(), Targets()
      ensures WorldsValid()
      ensures Snapshot() == ExecAll(old(Snapshot()), subCommands)
      ensures Restores() == RecordsAfter(old(Snapshot()), subCommands)
    {
      ExecuteEach(Worlds(), Snapshot(), subCommands);
    }

    /** The `execute` loop, over the worlds and sub-commands as they were on entry. */
    method ExecuteEach(ghost worlds: set<World>, ghost start: WorldCells, ghost cs: seq<Command>)
      requires cs == subCommands && OnWorlds(start, cs) && AllValid(worlds) && start == CellsOf(worlds)
      requires forall i :: 0 <= i < |cs| ==> cs[i].WorldOf() in worlds
      modifies worlds, Targets()
      ensures AllValid(worlds) && CellsOf(worlds) == ExecAll(start, cs)
      ensures forall j :: 0 <= j < |cs| ==> cs[j].Restore() == RecordsAfter(start, cs)[j]
    {
      var i := 0;
      while i < |subCommands|
        invariant subCommands == cs && 0 <= i <= |cs| && AllValid(worlds)
        invariant CellsOf(worlds) == ExecAll(start, cs[..i])
        invariant forall j :: 0 <= j < i ==> cs[j].Restore() == RecordsAfter(start, cs[..i])[j]
      {
        ExecuteNext(i, worlds, start, cs);
        i := i + 1;
      }
      assert cs[..i] == cs;
    }

    /** One pass of the `execute` loop, carrying the loop's invariant one command on. */
    method ExecuteNext(i: int, ghost worlds: set<World>, ghost start: WorldCells, ghost cs: seq<Command>)
      requires cs == subCommands && 0 <= i < |cs| && AllValid(worlds) && OnWorlds(start, cs)
      requires cs[i].WorldOf() in worlds
      requires CellsOf(worlds) == ExecAll(start, cs[..i])
      requires forall j :: 0 <= j < i ==> cs[j].Restore() == RecordsAfter(start, cs[..i])[j]
      modifies cs[i].WorldOf(), cs[i].Target()
      ensures AllValid(worlds) && CellsOf(worlds) == ExecAll(start, cs[..i + 1])
      ensures forall j :: 0 <= j <= i ==> cs[j].Restore() == RecordsAfter(start, cs[..i + 1])[j]
    {
      RecordsAfterStep(start, cs, i);
      ExecPrefixStep(start, cs, i);
      ExecuteOne(i, worlds);
    }

    /** One pass of the `execute` loop. */
    method ExecuteOne(i: int, ghost worlds: set<World>)
      requires 0 <= i < |subCommands| && subCommands[i].WorldOf() in worlds && AllValid(worlds)
      modifies subCommands[i].WorldOf(), subCommands[i].Target()
      ensures AllValid(worlds)
      ensures CellsOf(worlds) == SetIn(old(CellsOf(worlds)), subCommands[i].WorldOf(), subCommands[i].Effect().pos, subCommands[i].Effect().cell)
      ensures subCommands[i].Restore() == subCommands[i].RestoreOf(Get(old(subCommands[i].WorldOf().cells), subCommands[i].Effect().pos))
      ensures forall j :: 0 <= j < |subCommands| && subCommands[j] != subCommands[i] ==>
        subCommands[j].Restore() == old(subCommands[j].Restore())
    {
      match subCommands[i]
      case Place(c) => c.Execute();
      case Break(c) => c.Execute();
    }

    /** `undo`: runs every sub-command's `undo`, last added first. */
    method Undo()
      requires WorldsValid()
      modifies Worlds()
      ensures WorldsValid()
      ensures Snapshot() == UndoAll(old(Snapshot()), subCommands, old(Restores()))
    {
      UndoEach(Worlds(), Snapshot(), subCommands, Restores());
    }

    /** The `undo` loop, over the worlds, sub-commands and records as they were on entry. */
    method UndoEach(ghost worlds: set<World>, ghost start: WorldCells, ghost cs: seq<Command>, ghost restore: seq<Cell>)
      requires cs == subCommands && OnWorlds(start, cs) && AllValid(worlds) && start == CellsOf(worlds)
      requires forall i :: 0 <= i < |cs| ==> cs[i].WorldOf() in worlds
      requires |restore| == |cs| && forall j :: 0 <= j < |cs| ==> cs[j].Restore() == restore[j]
      modifies worlds
      ensures AllValid(worlds) && CellsOf(worlds) == UndoAll(start, cs, restore)
    {
      var i := |subCommands|;
      assert cs[..i] == cs && restore[..i] == restore;
      while i > 0
        invariant subCommands == cs && 0 <= i <= |cs| && AllValid(worlds)
        invariant forall j :: 0 <= j < |cs| ==> cs[j].Restore() == restore[j]
        invariant UndoAll(CellsOf(worlds), cs[..i], restore[..i]) == UndoAll(start, cs, restore)
      {
        i := i - 1;
        UndoNext(i, worlds, start, cs, restore);
      }
    }

    /** One pass of the `undo` loop, carrying the loop's invariant one command back. */
    method UndoNext(i: int, ghost worlds: set<World>, ghost start: WorldCells, ghost cs: seq<Command>, ghost restore: seq<Cell>)
      requires cs == subCommands && 0 <= i < |cs| && OnWorlds(start, cs) && AllValid(worlds)
      requires forall j :: 0 <= j < |cs| ==> cs[j].WorldOf() in worlds
      requires |restore| == |cs| && forall j :: 0 <= j < |cs| ==> cs[j].Restore() == restore[j]
      requires UndoAll(CellsOf(worlds), cs[..i + 1], restore[..i + 1]) == UndoAll(start, cs, restore)
      modifies cs[i].WorldOf()
      ensures AllValid(worlds) && forall j :: 0 <= j < |cs| ==> cs[j].Restore() == restore[j]
      ensures UndoAll(CellsOf(worlds), cs[..i], restore[..i]) == UndoAll(start, cs, restore)
    {
      UndoPrefixStep(CellsOf(worlds), cs, restore, i);
      UndoOne(i, worlds);
    }

    /** One pass of the `undo` loop. */
    method UndoOne(i: int, ghost worlds: set<World>)
      requires 0 <= i < |subCommands| && subCommands[i].WorldOf() in worlds && AllValid(worlds)
      modifies subCommands[i].WorldOf()
      ensures AllValid(worlds)
      ensures CellsOf(worlds) == SetIn(old(CellsOf(worlds)), subCommands[i].WorldOf(), subCommands[i].Effect().pos, subCommands[i].Restore())
      ensures forall j :: 0 <= j < |subCommands| ==> subCommands[j].Restore() == old(subCommands[j].Restore())
    {
      match subCommands[i]
      case Place(c) => c.Undo();
      case Break(c) => c.Undo();
    }
  }
}
