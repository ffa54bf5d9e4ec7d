// The composter: its fill level 0..8 rises by use with compostable items,
// steps from 7 to 8 on a scheduled tick, and is emptied for one bone meal at 8
// (pumpkin/src/block/blocks/composter.rs).

module Composter {
  import opened Common
  import opened BlockWorld
  import BlockRegistry

  /** The highest level (`Integer0To8`). */
  const Full: nat := 8

  /** The delay of the tick that moves a level-7 composter to 8. */
  const ReadyDelay: nat := 20

  /** `get_level`: the level stored in a composter state (0 for any other state). */
  function LevelOf(c: Cell): nat
  {
    if c.props.ComposterState? then c.props.level else 0
  }

  /** `set_level` on a composter state. */
  function WithLevel(level: nat): (c: Cell)
    requires level <= Full
    ensures c.block == Composter
    ensures LevelOf(c) == level
  {
    Cell(Composter, ComposterState(level))
  }

  /** The composter at `pos` holds a valid level. */
  predicate LevelValid(cells: map<Pos, Cell>, pos: Pos)
  {
    LevelOf(CellAt(cells, pos)) <= Full
  }

  /**
   * The level after `use_with_item` with an item that is compostable or not,
   * and the outcome of the chance roll.
   */
  function UsedLevel(level: nat, compostable: bool, roll: bool): (r: nat)
    requires level <= Full
    ensures r <= Full && r != Full
    ensures level == Full ==> r == 0
    ensures level == 7 || (level < Full && !compostable) ==> r == level
    ensures level == 0 && compostable ==> r == 1
    ensures 1 <= level < 7 && compostable ==> (r == level + 1 <==> roll) && (!roll ==> r == level)
  {
    if level == Full then 0
    else if level < 7 && compostable && (level == 0 || roll) then level + 1
    else level
  }

  /** The level after a scheduled tick: only 7 moves, to 8. */
  function TickedLevel(level: nat): (r: nat)
    requires level <= Full
    ensures r <= Full
    ensures r == Full <==> level >= 7
    ensures level != 7 ==> r == level
  {
    if level == 7 then level + 1 else level
  }

  /** The level after `normal_use`: a full composter is emptied, any other is left alone. */
  function NormalUsedLevel(level: nat): (r: nat)
    requires level <= Full
    ensures r < Full
    ensures level != Full ==> r == level
  {
    if level == Full then 0 else level
  }

  /**
   * Filling takes the scheduled tick: no use ever produces a full
   * composter, and only a level-7 composter becomes full at a tick.
   */
  lemma FullOnlyByTick(level: nat, compostable: bool, roll: bool)
    requires level <= Full
    ensures UsedLevel(level, compostable, roll) != Full
    ensures NormalUsedLevel(level) != Full
    ensures TickedLevel(level) == Full && level != Full ==> level == 7
  {
  }

  /** `update_level_composter`: writes the level and, at 7, schedules the tick that fills it. */
  method UpdateLevel(w: World, pos: Pos, level: nat)
    requires level <= Full
    modifies w`cells, w`ticks
    ensures w.cells == old(w.cells)[pos := WithLevel(level)]
    ensures w.ticks == old(w.ticks) + (if level == 7 then [Tick(pos, Composter, ReadyDelay)] else [])
    ensures LevelValid(w.cells, pos)
  {
    w.SetBlockState(pos, WithLevel(level));
    if level == 7 {
      w.ScheduleBlockTick(pos, Composter, ReadyDelay);
    }
  }

  /** `clear_composter`: back to level 0, and one bone meal drops. */
  method Clear(w: World, pos: Pos)
    modifies w`cells, w`ticks, w`events
    ensures w.cells == old(w.cells)[pos := WithLevel(0)]
    ensures w.ticks == old(w.ticks)
    ensures w.events == old(w.events) + [BoneMealDropped(pos)]
  {
    UpdateLevel(w, pos, 0);
    w.Record(BoneMealDropped(pos));
  }

  /** `normal_use`: empties a full composter and always passes. */
  method NormalUse(w: World, pos: Pos) returns (r: BlockRegistry.BlockActionResult)
    requires LevelValid(w.cells, pos)
    modifies w`cells, w`ticks, w`events
    ensures r == BlockRegistry.Pass
    ensures var level := LevelOf(old(w.At(pos)));
            && LevelOf(w.At(pos)) == NormalUsedLevel(level)
            && w.ticks == old(w.ticks)
            && (level == Full ==> w.cells == old(w.cells)[pos := WithLevel(0)] && w.events == old(w.events) + [BoneMealDropped(pos)])
            && (level != Full ==> w.cells == old(w.cells) && w.events == old(w.events))
  {
    if LevelOf(w.At(pos)) == Full {
      Clear(w, pos);
    }
    r := BlockRegistry.Pass;
  }

  /**
   * `use_with_item`: a full composter is emptied (and the same use adds no
   * layer, since the level it tests is still 8); below 7, a compostable
   * item adds a layer on an empty composter always and otherwise when the
   * chance roll succeeds. The item is always consumed.
   */
  method UseWithItem(w: World, pos: Pos, chance: Option<real>, roll: bool) returns (r: BlockRegistry.BlockActionResult)
    requires LevelValid(w.cells, pos)
    modifies w`cells, w`ticks, w`events
    ensures r == BlockRegistry.Consume
    ensures var level := LevelOf(old(w.At(pos)));
            var l := UsedLevel(level, chance.Some?, roll);
            && LevelOf(w.At(pos)) == l
            && w.cells == (if l != level then old(w.cells)[pos := WithLevel(l)] else old(w.cells))
            && w.ticks == old(w.ticks) + (if l != level && l == 7 then [Tick(pos, Composter, ReadyDelay)] else [])
            && w.events == old(w.events) + (if level == Full then [BoneMealDropped(pos)]
                                            else if l != level then [ComposterUsed(pos)] else [])
  {
    var level := LevelOf(w.At(pos));
    if level == Full {
      Clear(w, pos);
    }
    if level < 7 {
      if chance.Some? {
        if level == 0 || roll {
          UpdateLevel(w, pos, level + 1);
          w.Record(ComposterUsed(pos));
        }
      }
    }
    r := BlockRegistry.Consume;
  }

  /** `on_scheduled_tick`: a level-7 composter becomes full; nothing else changes. */
  method OnScheduledTick(w: World, pos: Pos)
    requires LevelValid(w.cells, pos)
    modifies w`cells, w`ticks
    ensures var level := LevelOf(old(w.At(pos)));
            && LevelOf(w.At(pos)) == TickedLevel(level)
            && w.cells == (if level == 7 then old(w.cells)[pos := WithLevel(Full)] else old(w.cells))
            && w.ticks == old(w.ticks)
  {
    var level := LevelOf(w.At(pos));
    if level == 7 {
      UpdateLevel(w, pos, level + 1);
    }
  }

  /** `get_comparator_output`: always present, and equal to the level. */
  function ComparatorOutput(c: Cell): (r: Option<nat>)
    ensures r.Some? && r.value == LevelOf(c)
    ensures c.block == Composter && c.props.ComposterState? && c.props.level <= Full ==> r.value <= Full
  {
    Some(LevelOf(c))
  }
}
