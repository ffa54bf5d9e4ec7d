// Shared vocabulary: optional values, block directions and block positions.

module Common {

  datatype Option<T> = None | Some(value: T)

  /** The six faces of a block (`BlockDirection`). */
  datatype Direction = Down | Up | North | South | West | East

  /** `BlockDirection::all()`: the vanilla order of the generated enum. */
  const AllDirections: seq<Direction> := [Down, Up, North, South, West, East]

  /** `BlockDirection::horizontal()`. */
  const HorizontalDirections: seq<Direction> := [North, South, West, East]

  predicate IsHorizontal(d: Direction)
  {
    d != Down && d != Up
  }

  function Opposite(d: Direction): (o: Direction)
    ensures o != d && IsHorizontal(o) == IsHorizontal(d)
  {
    match d
    case Down => Up
    case Up => Down
    case North => South
    case South => North
    case West => East
    case East => West
  }

  /** A block position in the world. */
  datatype Pos = Pos(x: int, y: int, z: int)

  /** `BlockPos::offset(direction.to_offset())`. */
  function Offset(p: Pos, d: Direction): Pos
  {
    match d
    case Down => Pos(p.x, p.y - 1, p.z)
    case Up => Pos(p.x, p.y + 1, p.z)
    case North => Pos(p.x, p.y, p.z - 1)
    case South => Pos(p.x, p.y, p.z + 1)
    case West => Pos(p.x - 1, p.y, p.z)
    case East => Pos(p.x + 1, p.y, p.z)
  }

  function Above(p: Pos): Pos { Offset(p, Up) }
  function Below(p: Pos): Pos { Offset(p, Down) }

  /** Stepping back the opposite way undoes a step, and a step always moves. */
  lemma OffsetOpposite(p: Pos, d: Direction)
    ensures Offset(Offset(p, d), Opposite(d)) == p
    ensures Offset(p, d) != p
  {
  }

  /** Two steps land on the start exactly when the second undoes the first. */
  lemma OffsetTwiceReturns(p: Pos, d: Direction, e: Direction)
    ensures Offset(Offset(p, d), e) == p <==> e == Opposite(d)
  {
  }

  lemma AllDirectionsComplete(d: Direction)
    ensures d in AllDirections
    ensures IsHorizontal(d) <==> d in HorizontalDirections
  {
  }

  function Max(a: int, b: int): int { if a >= b then a else b }
  function Min(a: int, b: int): int { if a <= b then a else b }

  /** The running maximum of `xs`, starting from 0 (`acc = acc.max(x)` in a loop). */
  function MaxOf(xs: seq<nat>): nat
    decreases |xs|
  {
    if xs == [] then 0 else Max(MaxOf(xs[..|xs| - 1]), xs[|xs| - 1])
  }

  lemma MaxOfAppend(xs: seq<nat>, x: nat)
    ensures MaxOf(xs + [x]) == Max(MaxOf(xs), x)
  {
    assert (xs + [x])[..|xs|] == xs;
  }

  /** The running maximum is the maximum: no element exceeds it, and unless it is 0 one reaches it. */
  lemma {:induction false} MaxOfIsMaximum(xs: seq<nat>)
    ensures forall i :: 0 <= i < |xs| ==> xs[i] <= MaxOf(xs)
    ensures MaxOf(xs) == 0 || exists i :: 0 <= i < |xs| && xs[i] == MaxOf(xs)
    decreases |xs|
  {
    if xs != [] {
      var front := xs[..|xs| - 1];
      MaxOfIsMaximum(front);
      forall i | 0 <= i < |front| ensures xs[i] == front[i] { }
    }
  }
}
