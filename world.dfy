// The world the block behaviours read and write: a map from position to block
// and state, the solidity and power answers of blocks that are not modelled
// here, and the logs of scheduled ticks and notifications.

module BlockWorld {
  import opened Common
  import W = WireShape

  /** The blocks whose behaviour is modelled; every other block is `Other`. */
  datatype Block =
    | Air
    | RedstoneWire
    | Repeater
    | Comparator
    | Observer
    | RedstoneLamp
    | IronBars
    | Composter
    | Bed
    | Other(id: nat)

  datatype BedPart = Head | Foot

  datatype BarsProps = BarsProps(north: bool, south: bool, east: bool, west: bool, waterlogged: bool)

  datatype BedProps = BedProps(facing: Direction, part: BedPart, occupied: bool)

  /** The properties of a block state, one record kind per modelled block. */
  datatype Props =
    | WireState(wire: W.WireProps)
    | FacingState(facing: Direction)     // repeaters and observers
    | LampState(lit: bool)
    | BarsState(bars: BarsProps)
    | ComposterState(level: nat)
    | BedState(bed: BedProps)
    | PlainState(id: nat)

  /** A block together with its state. */
  datatype Cell = Cell(block: Block, props: Props)

  const AirCell: Cell := Cell(Air, PlainState(0))

  /** An unset position reads as air. */
  function CellAt(cells: map<Pos, Cell>, p: Pos): Cell
  {
    if p in cells then cells[p] else AirCell
  }

  /** The wire properties of a cell (the default wire for any other state). */
  function WireOf(c: Cell): W.WireProps
  {
    if c.props.WireState? then c.props.wire else W.DefaultWire
  }

  /**
   * What this model does not compute itself: block-state solidity
   * (`is_solid`, `is_side_solid`, `replaceable`), the redstone callbacks of
   * every registered block other than the wire, and block tags.
   */
  datatype Rules = Rules(
    solid: Cell -> bool,
    sideSolid: (Cell, Direction) -> bool,
    isReplaceable: Cell -> bool,
    emitsPower: (Cell, Direction) -> bool,
    weakPower: (Cell, Direction) -> nat,
    strongPower: (Cell, Direction) -> nat,
    glassPane: Block -> bool,
    wall: Block -> bool)

  /**
   * The registry's `get_weak_redstone_power` for a cell: the wire answers
   * with its own rule, every other block through `Rules`.
   */
  function RegistryWeakPower(rules: Rules, c: Cell, d: Direction): nat
  {
    if c.block == RedstoneWire then W.WirePower(WireOf(c), d) else rules.weakPower(c, d)
  }

  /** The registry's `get_strong_redstone_power` for a cell. */
  function RegistryStrongPower(rules: Rules, c: Cell, d: Direction): nat
  {
    if c.block == RedstoneWire then W.WirePower(WireOf(c), d) else rules.strongPower(c, d)
  }

  /** The registry's `emits_redstone_power` for a cell. */
  predicate RegistryEmitsPower(rules: Rules, c: Cell, d: Direction)
  {
    rules.emitsPower(c, d)
  }

  /** Every redstone level the rules report is within 0..15. */
  ghost predicate PowersBounded(rules: Rules)
  {
    (forall c, d :: rules.weakPower(c, d) <= 15) && (forall c, d :: rules.strongPower(c, d) <= 15)
  }

  /** Every wire in the world stores a level within 0..15. */
  ghost predicate WiresBounded(cells: map<Pos, Cell>)
  {
    forall p :: p in cells && cells[p].props.WireState? ==> cells[p].props.wire.power <= 15
  }

  lemma WireOfBounded(cells: map<Pos, Cell>, p: Pos)
    requires WiresBounded(cells)
    ensures WireOf(CellAt(cells, p)).power <= 15
  {
  }

  /** A block tick requested with `schedule_block_tick`. */
  datatype Tick = Tick(pos: Pos, block: Block, delay: nat)

  /** Calls into code outside this model, recorded in the order they happen. */
  datatype Event =
    | NeighborUpdate(pos: Pos)                          // `on_neighbor_update` of the block at `pos`
    | ShapeUpdate(pos: Pos, from: Direction)            // `replace_with_state_for_neighbor_update`
    | WireNeighborsUpdated(pos: Pos)                    // `RedstoneWireTurbo::update_surrounding_neighbors`
    | BlockBroken(pos: Pos)                             // `break_block`
    | BoneMealDropped(pos: Pos)                         // the composter's item entity
    | ComposterUsed(pos: Pos)                           // the composter's `ComposterUsed` world event
    | Explosion(pos: Pos)                               // a bed used outside the overworld

  class World {
    var cells: map<Pos, Cell>
    var ticks: seq<Tick>
    var events: seq<Event>
    const rules: Rules

    constructor (cells: map<Pos, Cell>, rules: Rules)
      ensures this.cells == cells && this.rules == rules
      ensures ticks == [] && events == []
    {
      this.cells := cells;
      this.rules := rules;
      ticks := [];
      events := [];
    }

    function At(p: Pos): Cell
      reads this
    {
      CellAt(cells, p)
    }

    /** `set_block_state`: one cell changes, nothing else. */
    method SetBlockState(p: Pos, c: Cell)
      modifies this`cells
      ensures cells == old(cells)[p := c]
    {
      cells := cells[p := c];
    }

    method ScheduleBlockTick(p: Pos, b: Block, delay: nat)
      modifies this`ticks
      ensures ticks == old(ticks) + [Tick(p, b, delay)]
    {
      ticks := ticks + [Tick(p, b, delay)];
    }

    method Record(e: Event)
      modifies this`events
      ensures events == old(events) + [e]
    {
      events := events + [e];
    }

    /** `break_block`: the cell becomes air and the break is recorded. */
    method BreakBlock(p: Pos)
      modifies this`cells, this`events
      ensures cells == old(cells)[p := AirCell]
      ensures events == old(events) + [BlockBroken(p)]
    {
      cells := cells[p := AirCell];
      events := events + [BlockBroken(p)];
    }
  }
}
