// The block registry: which behaviour answers for a block, what the dispatch
// methods answer for a block without one, and the action results
// (pumpkin/src/block/registry.rs).

module BlockRegistry {
  import opened Common
  import opened BlockWorld

  /** `BlockActionResult` (vanilla's `ActionResult`). */
  datatype BlockActionResult = Success | SuccessServer | Consume | Fail | Pass | PassToDefaultBlockAction

  /** `consumes_action`: every result that lets other actions run does not consume. */
  function ConsumesAction(r: BlockActionResult): (c: bool)
    ensures c <==> !(r == Fail || r == Pass || r == PassToDefaultBlockAction)
  {
    r == Consume || r == Success || r == SuccessServer
  }

  /** The identity of a registered behaviour (an `Arc<dyn BlockBehaviour>`). */
  datatype Behaviour = Behaviour(id: nat)

  /** A fluid of `pumpkin_data`, by its id. */
  datatype Fluid = Fluid(id: nat)

  class Registry {
    var blocks: map<Block, Behaviour>
    var fluids: map<Fluid, Behaviour>

    constructor ()
      ensures blocks == map[] && fluids == map[]
    {
      blocks := map[];
      fluids := map[];
    }

    /**
     * `register`: every name of the behaviour, resolved with
     * `Block::from_name` (here the table `byName`, whose `unwrap` fails on an
     * unknown name), now maps to that behaviour; a later name overwrites.
     */
    method Register(names: seq<string>, byName: map<string, Block>, b: Behaviour)
      requires forall n :: n in names ==> n in byName
      modifies this`blocks
      ensures blocks.Keys == old(blocks).Keys + set n | n in names :: byName[n]
      ensures forall n :: n in names ==> blocks[byName[n]] == b
      ensures forall k :: k in old(blocks) && (forall n :: n in names ==> byName[n] != k) ==> blocks[k] == old(blocks)[k]
    {
      var i := 0;
      while i < |names|
        invariant 0 <= i <= |names|
        invariant blocks.Keys == old(blocks).Keys + set n | n in names[..i] :: byName[n]
        invariant forall n :: n in names[..i] ==> blocks[byName[n]] == b
        invariant forall k :: k in old(blocks) && (forall n :: n in names[..i] ==> byName[n] != k) ==> blocks[k] == old(blocks)[k]
      {
        assert names[..i + 1] == names[..i] + [names[i]];
        blocks := blocks[byName[names[i]] := b];
        i := i + 1;
      }
      assert names[..i] == names;
    }

    /** `register_fluid`: the same for fluids, resolved with `get_fluid`. */
    method RegisterFluid(names: seq<string>, byName: map<string, Fluid>, b: Behaviour)
      requires forall n :: n in names ==> n in byName
      modifies this`fluids
      ensures fluids.Keys == old(fluids).Keys + set n | n in names :: byName[n]
      ensures forall n :: n in names ==> fluids[byName[n]] == b
      ensures forall k :: k in old(fluids) && (forall n :: n in names ==> byName[n] != k) ==> fluids[k] == old(fluids)[k]
    {
      var i := 0;
      while i < |names|
        invariant 0 <= i <= |names|
        invariant fluids.Keys == old(fluids).Keys + set n | n in names[..i] :: byName[n]
        invariant forall n :: n in names[..i] ==> fluids[byName[n]] == b
        invariant forall k :: k in old(fluids) && (forall n :: n in names[..i] ==> byName[n] != k) ==> fluids[k] == old(fluids)[k]
      {
        assert names[..i + 1] == names[..i] + [names[i]];
        fluids := fluids[byName[names[i]] := b];
        i := i + 1;
      }
      assert names[..i] == names;
    }
  }

  /** `get_pumpkin_block` (and `get_pumpkin_fluid` over the fluid map). */
  function GetPumpkinBlock<K>(m: map<K, Behaviour>, k: K): (r: Option<Behaviour>)
    ensures r.Some? <==> k in m
    ensures r.Some? ==> r.value == m[k]
  {
    if k in m then Some(m[k]) else None
  }

  /** The shape of every dispatch method: ask the behaviour, or fall back. */
  function Dispatch<K, T>(m: map<K, Behaviour>, k: K, ask: Behaviour -> T, fallback: T): T
  {
    match GetPumpkinBlock(m, k)
    case Some(b) => ask(b)
    case None => fallback
  }

  // Each dispatch method below receives the behaviour's own answer as `ask`.

  /** `on_use`, which calls the behaviour's `normal_use`. */
  function OnUse(blocks: map<Block, Behaviour>, b: Block, ask: Behaviour -> BlockActionResult): (r: BlockActionResult)
    ensures b in blocks ==> r == ask(blocks[b])
    ensures b !in blocks ==> r == Pass
  {
    Dispatch(blocks, b, ask, Pass)
  }

  function UseWithItem(blocks: map<Block, Behaviour>, b: Block, ask: Behaviour -> BlockActionResult): (r: BlockActionResult)
    ensures b in blocks ==> r == ask(blocks[b])
    ensures b !in blocks ==> r == Pass
  {
    Dispatch(blocks, b, ask, Pass)
  }

  function UseWithItemFluid(fluids: map<Fluid, Behaviour>, f: Fluid, ask: Behaviour -> BlockActionResult): (r: BlockActionResult)
    ensures f in fluids ==> r == ask(fluids[f])
    ensures f !in fluids ==> r == Pass
  {
    Dispatch(fluids, f, ask, Pass)
  }

  function OnSyncedBlockEvent(blocks: map<Block, Behaviour>, b: Block, ask: Behaviour -> bool): (r: bool)
    ensures b in blocks ==> r == ask(blocks[b])
    ensures b !in blocks ==> !r
  {
    Dispatch(blocks, b, ask, false)
  }

  function CanPlaceAt(blocks: map<Block, Behaviour>, b: Block, ask: Behaviour -> bool): (r: bool)
    ensures b in blocks ==> r == ask(blocks[b])
    ensures b !in blocks ==> r
  {
    Dispatch(blocks, b, ask, true)
  }

  function CanUpdateAt(blocks: map<Block, Behaviour>, b: Block, ask: Behaviour -> bool): (r: bool)
    ensures b in blocks ==> r == ask(blocks[b])
    ensures b !in blocks ==> !r
  {
    Dispatch(blocks, b, ask, false)
  }

  /** `on_place`: an unregistered block is placed in its default state. */
  function OnPlace(blocks: map<Block, Behaviour>, b: Block, defaultState: nat, ask: Behaviour -> nat): (r: nat)
    ensures b in blocks ==> r == ask(blocks[b])
    ensures b !in blocks ==> r == defaultState
  {
    Dispatch(blocks, b, ask, defaultState)
  }

  /** `get_state_for_neighbor_update`: an unregistered block keeps its state. */
  function GetStateForNeighborUpdate(blocks: map<Block, Behaviour>, b: Block, stateId: nat, ask: Behaviour -> nat): (r: nat)
    ensures b in blocks ==> r == ask(blocks[b])
    ensures b !in blocks ==> r == stateId
  {
    Dispatch(blocks, b, ask, stateId)
  }

  function EmitsRedstonePower(blocks: map<Block, Behaviour>, b: Block, ask: Behaviour -> bool): (r: bool)
    ensures b in blocks ==> r == ask(blocks[b])
    ensures b !in blocks ==> !r
  {
    Dispatch(blocks, b, ask, false)
  }

  /** `get_weak_redstone_power` and `get_strong_redstone_power`. */
  function GetRedstonePower(blocks: map<Block, Behaviour>, b: Block, ask: Behaviour -> nat): (r: nat)
    ensures b in blocks ==> r == ask(blocks[b])
    ensures b !in blocks ==> r == 0
  {
    Dispatch(blocks, b, ask, 0)
  }

  /** `BlockDirection::abstract_block_update_order()`: vanilla's update order. */
  const UpdateOrder: seq<Direction> := [West, East, North, South, Down, Up]

  /** The `replace_with_state_for_neighbor_update` calls of `update_neighbors` for `ds`. */
  function NeighborShapeUpdates(pos: Pos, ds: seq<Direction>): seq<Event>
  {
    seq(|ds|, k requires 0 <= k < |ds| => ShapeUpdate(Offset(pos, ds[k]), Opposite(ds[k])))
  }

  /**
   * `update_neighbors` updates each of the six neighbours once, in
   * `abstract_block_update_order`, telling each that the change came from
   * the direction pointing back at `pos`.
   */
  lemma NeighborShapeUpdatesCoverAll(pos: Pos)
    ensures |NeighborShapeUpdates(pos, UpdateOrder)| == 6
    ensures forall d :: ShapeUpdate(Offset(pos, d), Opposite(d)) in NeighborShapeUpdates(pos, UpdateOrder)
    ensures forall e :: e in NeighborShapeUpdates(pos, UpdateOrder) ==>
              e.ShapeUpdate? && Offset(e.pos, e.from) == pos
  {
    var s := NeighborShapeUpdates(pos, UpdateOrder);
    forall d ensures ShapeUpdate(Offset(pos, d), Opposite(d)) in s {
      var k := match d case West => 0 case East => 1 case North => 2 case South => 3 case Down => 4 case Up => 5;
      assert s[k] == ShapeUpdate(Offset(pos, d), Opposite(d));
    }
    forall e | e in s ensures e.ShapeUpdate? && Offset(e.pos, e.from) == pos {
      var k :| 0 <= k < |s| && s[k] == e;
      OffsetOpposite(pos, UpdateOrder[k]);
    }
  }

  method UpdateNeighbors(w: World, pos: Pos)
    modifies w`events
    ensures w.events == old(w.events) + NeighborShapeUpdates(pos, UpdateOrder)
  {
    var i := 0;
    while i < |UpdateOrder|
      invariant 0 <= i <= |UpdateOrder|
      invariant w.events == old(w.events) + NeighborShapeUpdates(pos, UpdateOrder[..i])
    {
      var d := UpdateOrder[i];
      w.Record(ShapeUpdate(Offset(pos, d), Opposite(d)));
      assert NeighborShapeUpdates(pos, UpdateOrder[..i + 1])
          == NeighborShapeUpdates(pos, UpdateOrder[..i]) + [ShapeUpdate(Offset(pos, d), Opposite(d))];
      i := i + 1;
    }
    assert UpdateOrder[..i] == UpdateOrder;
  }
}
