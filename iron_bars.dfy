// Iron bars: each horizontal side connects to bars, to a face that is solid
// toward them, and to glass panes and walls
// (pumpkin/src/block/blocks/iron_bars.rs).

module IronBars {
  import opened Common
  import opened BlockWorld

  /** Whether the bars at `pos` connect toward `d`. */
  predicate Connects(rules: Rules, cells: map<Pos, Cell>, pos: Pos, d: Direction)
  {
    var other := CellAt(cells, Offset(pos, d));
    other.block == IronBars || rules.sideSolid(other, Opposite(d)) || rules.glassPane(other.block) || rules.wall(other.block)
  }

  /** The side flag of `b` toward a horizontal direction (false up and down, which have none). */
  predicate BarsSide(b: BarsProps, d: Direction)
  {
    match d
    case North => b.north
    case South => b.south
    case West => b.west
    case East => b.east
    case _ => false
  }

  /** `b` with the side flag toward `d` set to `v`. */
  function WithBarsSide(b: BarsProps, d: Direction, v: bool): (r: BarsProps)
    ensures IsHorizontal(d) ==> BarsSide(r, d) == v
    ensures forall e :: e != d ==> BarsSide(r, e) == BarsSide(b, e)
    ensures r.waterlogged == b.waterlogged
  {
    match d
    case North => b.(north := v)
    case South => b.(south := v)
    case West => b.(west := v)
    case East => b.(east := v)
    case _ => b
  }

  /** The state `compute_bars_state` produces: every side recomputed, `waterlogged` kept. */
  function BarsShape(rules: Rules, cells: map<Pos, Cell>, pos: Pos, waterlogged: bool): (r: BarsProps)
    ensures forall d :: IsHorizontal(d) ==> (BarsSide(r, d) <==> Connects(rules, cells, pos, d))
    ensures r.waterlogged == waterlogged
  {
    BarsProps(
      Connects(rules, cells, pos, North), Connects(rules, cells, pos, South),
      Connects(rules, cells, pos, East), Connects(rules, cells, pos, West),
      waterlogged)
  }

  /** `compute_bars_state`: walks the horizontal directions and sets each side flag. */
  method ComputeBarsState(rules: Rules, cells: map<Pos, Cell>, pos: Pos, props: BarsProps) returns (r: BarsProps)
    ensures r == BarsShape(rules, cells, pos, props.waterlogged)
  {
    r := props;
    for i := 0 to |HorizontalDirections|
      invariant r.waterlogged == props.waterlogged
      invariant forall k :: 0 <= k < i ==>
                  (BarsSide(r, HorizontalDirections[k]) <==> Connects(rules, cells, pos, HorizontalDirections[k]))
    {
      var direction := HorizontalDirections[i];
      var connected := Connects(rules, cells, pos, direction);
      r := WithBarsSide(r, direction, connected);
    }
    forall k | 0 <= k < |HorizontalDirections|
      ensures BarsSide(r, HorizontalDirections[k]) <==> Connects(rules, cells, pos, HorizontalDirections[k])
    {
    }
    assert r.north == Connects(rules, cells, pos, HorizontalDirections[0]);
    assert r.south == Connects(rules, cells, pos, HorizontalDirections[1]);
    assert r.west == Connects(rules, cells, pos, HorizontalDirections[2]);
    assert r.east == Connects(rules, cells, pos, HorizontalDirections[3]);
  }

  const DefaultBars: BarsProps := BarsProps(false, false, false, false, false)

  /** `on_place`: `waterlogged` comes from the replaced block, the sides from the neighbours. */
  method OnPlace(rules: Rules, cells: map<Pos, Cell>, pos: Pos, replacingWaterSource: bool) returns (c: Cell)
    ensures c == Cell(IronBars, BarsState(BarsShape(rules, cells, pos, replacingWaterSource)))
  {
    var props := DefaultBars.(waterlogged := replacingWaterSource);
    var computed := ComputeBarsState(rules, cells, pos, props);
    c := Cell(IronBars, BarsState(computed));
  }

  /**
   * `get_state_for_neighbor_update`: all four sides are recomputed whichever
   * direction the update came from.
   */
  method GetStateForNeighborUpdate(rules: Rules, cells: map<Pos, Cell>, pos: Pos, state: BarsProps, direction: Direction)
    returns (r: BarsProps)
    ensures r == BarsShape(rules, cells, pos, state.waterlogged)
    ensures r.waterlogged == state.waterlogged
  {
    r := ComputeBarsState(rules, cells, pos, state);
  }

  /**
   * The recomputation reads only the neighbours: writing any state at `pos`
   * itself, in particular the one just computed, leaves the result the same,
   * so a second update with unchanged neighbours changes nothing.
   */
  lemma BarsShapeIgnoresOwnCell(rules: Rules, cells: map<Pos, Cell>, pos: Pos, c: Cell, waterlogged: bool)
    ensures BarsShape(rules, cells[pos := c], pos, waterlogged) == BarsShape(rules, cells, pos, waterlogged)
  {
    forall d ensures CellAt(cells[pos := c], Offset(pos, d)) == CellAt(cells, Offset(pos, d)) {
      OffsetOpposite(pos, d);
    }
  }

  /** Recomputing a state the recomputation produced gives it back. */
  lemma BarsShapeIdempotent(rules: Rules, cells: map<Pos, Cell>, pos: Pos, state: BarsProps)
    requires state == BarsShape(rules, cells, pos, state.waterlogged)
    ensures BarsShape(rules, cells[pos := Cell(IronBars, BarsState(state))], pos, state.waterlogged) == state
  {
    BarsShapeIgnoresOwnCell(rules, cells, pos, Cell(IronBars, BarsState(state)), state.waterlogged);
  }
}
