// The redstone lamp: it lights as soon as it is powered, and goes dark only
// through a block tick scheduled four ticks after it loses power
// (pumpkin/src/block/blocks/redstone/redstone_lamp.rs).

module RedstoneLamp {
  import opened Common
  import opened BlockWorld
  import opened RedstonePower

  /** The `lit` property of a lamp state (false for any other state). */
  predicate LitOf(c: Cell)
  {
    c.props.LampState? && c.props.lit
  }

  /** The delay of the tick that turns a lamp off. */
  const OffDelay: nat := 4

  /** `lit` after a neighbour update: a neighbour update never turns a lamp off. */
  function UpdatedLit(lit: bool, powered: bool): (r: bool)
    ensures r <==> lit || powered
    ensures powered ==> r
  {
    if lit != powered && !lit then !lit else lit
  }

  /** Whether a neighbour update schedules the turning-off tick. */
  function SchedulesOff(lit: bool, powered: bool): (r: bool)
    ensures r <==> lit && !powered
    ensures r ==> UpdatedLit(lit, powered) != powered
  {
    lit != powered && lit
  }

  /** `lit` after a scheduled tick: a tick never turns a lamp on. */
  function TickedLit(lit: bool, powered: bool): (r: bool)
    ensures r <==> lit && powered
    ensures r ==> lit
  {
    if lit && !powered then !lit else lit
  }

  /**
   * With the power unchanged between the update and the tick, the lamp
   * settles on `lit == powered`: at once when it turns on, and at the
   * scheduled tick when it turns off.
   */
  lemma LampSettles(lit: bool, powered: bool)
    ensures SchedulesOff(lit, powered) ==> TickedLit(UpdatedLit(lit, powered), powered) == powered
    ensures !SchedulesOff(lit, powered) ==> UpdatedLit(lit, powered) == powered
  {
  }

  /** `on_place`: the new lamp is lit exactly when it receives power. */
  method OnPlace(rules: Rules, cells: map<Pos, Cell>, pos: Pos) returns (c: Cell)
    ensures c.block == RedstoneLamp && c.props.LampState?
    ensures LitOf(c) <==> exists d :: NeighbourEmits(rules, cells, pos, d)
  {
    var lit := BlockReceivesRedstonePower(rules, cells, pos);
    c := Cell(RedstoneLamp, LampState(lit));
  }

  /**
   * `on_neighbor_update`: an unlit, powered lamp is lit at once; a lit,
   * unpowered one is left as it is and gets a tick four ticks later; a lamp
   * whose `lit` already matches its power is not touched.
   */
  method OnNeighborUpdate(w: World, pos: Pos)
    modifies w`cells, w`ticks
    ensures var lit := LitOf(old(w.At(pos)));
            var powered := ReceivesRedstonePower(w.rules, old(w.cells), pos);
            && w.cells == (if !lit && powered then old(w.cells)[pos := Cell(RedstoneLamp, LampState(true))] else old(w.cells))
            && w.ticks == old(w.ticks) + (if SchedulesOff(lit, powered) then [Tick(pos, RedstoneLamp, OffDelay)] else [])
            && LitOf(w.At(pos)) == UpdatedLit(lit, powered)
  {
    var isLit := LitOf(w.At(pos));
    var isPowered := BlockReceivesRedstonePower(w.rules, w.cells, pos);
    if isLit != isPowered {
      if isLit {
        w.ScheduleBlockTick(pos, RedstoneLamp, OffDelay);
      } else {
        w.SetBlockState(pos, Cell(RedstoneLamp, LampState(!isLit)));
      }
    }
  }

  /** `on_scheduled_tick`: a lit lamp that is no longer powered goes dark; nothing else changes. */
  method OnScheduledTick(w: World, pos: Pos)
    modifies w`cells
    ensures var lit := LitOf(old(w.At(pos)));
            var powered := ReceivesRedstonePower(w.rules, old(w.cells), pos);
            && w.cells == (if lit && !powered then old(w.cells)[pos := Cell(RedstoneLamp, LampState(false))] else old(w.cells))
            && LitOf(w.At(pos)) == TickedLit(lit, powered)
  {
    var isLit := LitOf(w.At(pos));
    var isPowered := BlockReceivesRedstonePower(w.rules, w.cells, pos);
    if isLit && !isPowered {
      w.SetBlockState(pos, Cell(RedstoneLamp, LampState(!isLit)));
    }
  }
}
