// Beds: two halves, head and foot, that point at each other; the sleep
// window; and the order of checks when a player uses a bed
// (pumpkin/src/block/blocks/bed.rs).

module Beds {
  import opened Common
  import opened BlockWorld
  import BlockRegistry

  /** The entity kinds that keep a player from sleeping (`NO_SLEEP_IDS`), by registry name. */
  const NoSleepKinds: seq<string> := [
    "blaze", "bogged", "skeleton", "stray", "wither_skeleton", "breeze", "creaking",
    "creeper", "drowned", "endermite", "evoker", "giant", "guardian", "elder_guardian",
    "illusioner", "ocelot", "piglin", "piglin_brute", "pillager", "phantom", "ravager",
    "silverfish", "spider", "cave_spider", "vex", "vindicator", "warden", "witch",
    "wither", "zoglin", "zombie", "zombie_villager", "husk", "enderman", "zombified_piglin"]

  /** `entity_prevents_sleep`. */
  predicate PreventsSleep(kind: string)
  {
    kind in NoSleepKinds
  }

  lemma NoSleepKindsFacts()
    ensures |NoSleepKinds| == 35
    ensures PreventsSleep("zombie") && PreventsSleep("enderman") && PreventsSleep("ocelot")
  {
    assert NoSleepKinds[30] == "zombie" && NoSleepKinds[33] == "enderman" && NoSleepKinds[15] == "ocelot";
  }

  /**
   * `can_sleep`: always in a thunderstorm; in rain strictly between 12010
   * and 23991; otherwise strictly between 12542 and 23459.
   */
  predicate CanSleep(thundering: bool, raining: bool, timeOfDay: int)
  {
    if thundering then true
    else if raining then 12010 < timeOfDay < 23991
    else 12542 < timeOfDay < 23459
  }

  /** Worse weather never shortens the window: clear ⊆ rain ⊆ thunder. */
  lemma SleepWindowWidens(timeOfDay: int, raining: bool)
    ensures CanSleep(false, false, timeOfDay) ==> CanSleep(false, true, timeOfDay)
    ensures CanSleep(false, raining, timeOfDay) ==> CanSleep(true, raining, timeOfDay)
    ensures !CanSleep(false, true, 12010) && CanSleep(false, true, 12011) && !CanSleep(false, false, 12542)
    ensures CanSleep(false, false, 23458) && !CanSleep(false, false, 23459) && !CanSleep(false, true, 23991)
  {
  }

  /** `BedProperties::default`. */
  const DefaultBed: BedProps := BedProps(North, Foot, false)

  /** The bed properties of a cell (the default for any other state). */
  function BedOf(c: Cell): BedProps
  {
    if c.props.BedState? then c.props.bed else DefaultBed
  }

  function OtherPart(p: BedPart): (q: BedPart)
    ensures q != p
  {
    if p == Head then Foot else Head
  }

  /** Where the other half of a bed half lies: behind a head, in front of a foot. */
  function OtherHalf(pos: Pos, b: BedProps): Pos
  {
    if b.part == Head then Offset(pos, Opposite(b.facing)) else Offset(pos, b.facing)
  }

  /** Going to the other half and back again, with the part flipped, returns to the start. */
  lemma OtherHalfReturns(pos: Pos, b: BedProps)
    ensures OtherHalf(OtherHalf(pos, b), b.(part := OtherPart(b.part))) == pos
    ensures OtherHalf(pos, b) != pos
  {
    OffsetOpposite(pos, b.facing);
    OffsetOpposite(pos, Opposite(b.facing));
    OppositeInvolution(b.facing);
  }

  lemma OppositeInvolution(d: Direction)
    ensures Opposite(Opposite(d)) == d
  {
  }

  /** The bed half at `pos` and the half it points to agree on facing and have complementary parts. */
  predicate Paired(cells: map<Pos, Cell>, pos: Pos)
  {
    var c := CellAt(cells, pos);
    var o := CellAt(cells, OtherHalf(pos, BedOf(c)));
    c.block == Bed && o.block == Bed && c.props.BedState? && o.props.BedState?
    && o.props.bed.facing == c.props.bed.facing && o.props.bed.part == OtherPart(c.props.bed.part)
  }

  /** Pairing is symmetric: the other half of a paired half is paired, and points back. */
  lemma PairedSymmetric(cells: map<Pos, Cell>, pos: Pos)
    requires Paired(cells, pos)
    ensures var b := BedOf(CellAt(cells, pos));
            OtherHalf(OtherHalf(pos, b), BedOf(CellAt(cells, OtherHalf(pos, b)))) == pos
            && Paired(cells, OtherHalf(pos, b))
  {
    var b := BedOf(CellAt(cells, pos));
    var o := BedOf(CellAt(cells, OtherHalf(pos, b)));
    OtherHalfReturns(pos, b);
    assert o.facing == b.facing && o.part == OtherPart(b.part);
    assert OtherHalf(OtherHalf(pos, b), o) == OtherHalf(OtherHalf(pos, b), b.(part := OtherPart(b.part)));
  }

  /**
   * `can_place_at`: never without a player; with one, both the target cell
   * and the cell in the player's facing direction must be replaceable.
   */
  predicate CanPlaceAt(rules: Rules, cells: map<Pos, Cell>, pos: Pos, playerFacing: Option<Direction>)
  {
    match playerFacing
    case None => false
    case Some(f) => rules.isReplaceable(CellAt(cells, pos)) && rules.isReplaceable(CellAt(cells, Offset(pos, f)))
  }

  /** `on_place`: the placed half is a foot facing the way the player faces. */
  function OnPlace(playerFacing: Direction): (c: Cell)
    ensures c.block == Bed && BedOf(c).part == Foot && BedOf(c).facing == playerFacing && !BedOf(c).occupied
  {
    Cell(Bed, BedState(DefaultBed.(facing := playerFacing, part := Foot)))
  }

  /**
   * `placed`: the head is written one step along the foot's facing, with the
   * same facing, so a freshly placed foot is paired with its head.
   */
  method Placed(w: World, pos: Pos)
    modifies w`cells
    ensures var f := BedOf(old(w.At(pos))).facing;
            w.cells == old(w.cells)[Offset(pos, f) := Cell(Bed, BedState(DefaultBed.(facing := f, part := Head)))]
    ensures old(w.At(pos)) == OnPlace(BedOf(old(w.At(pos))).facing) ==> Paired(w.cells, pos)
  {
    var facing := BedOf(w.At(pos)).facing;
    var head := DefaultBed.(facing := facing, part := Head);
    OffsetOpposite(pos, facing);
    w.SetBlockState(Offset(pos, facing), Cell(Bed, BedState(head)));
  }

  /** `broken`: breaking one half breaks the other. */
  method Broken(w: World, pos: Pos, b: BedProps)
    modifies w`cells, w`events
    ensures w.cells == old(w.cells)[OtherHalf(pos, b) := AirCell]
    ensures w.events == old(w.events) + [BlockBroken(OtherHalf(pos, b))]
  {
    w.BreakBlock(OtherHalf(pos, b));
  }

  /**
   * `set_occupied`: both halves get the same `occupied` and facing, the half
   * at `pos` keeps its part and the other half gets the other part.
   */
  method SetOccupied(w: World, pos: Pos, occupied: bool, b: BedProps)
    modifies w`cells
    ensures var here := b.(occupied := occupied);
            w.cells == old(w.cells)[pos := Cell(Bed, BedState(here))]
                                   [OtherHalf(pos, b) := Cell(Bed, BedState(here.(part := OtherPart(b.part))))]
    ensures Paired(w.cells, pos) && BedOf(w.At(pos)).occupied == occupied
    ensures BedOf(w.At(OtherHalf(pos, b))).occupied == occupied
  {
    var props := b.(occupied := occupied);
    w.SetBlockState(pos, Cell(Bed, BedState(props)));
    var other := OtherHalf(pos, props);
    props := props.(part := OtherPart(props.part));
    OtherHalfReturns(pos, b);
    w.SetBlockState(other, Cell(Bed, BedState(props)));
  }

  /** An entity around the bed: its kind, and whether it stands within the monster box of either half. */
  datatype NearbyEntity = NearbyEntity(kind: string, nearBed: bool)

  /** What `normal_use` reads besides the world: dimension, player distance, weather, time, entities. */
  datatype UseContext = UseContext(
    overworld: bool, playerNear: bool, thundering: bool, raining: bool, timeOfDay: int,
    entities: seq<NearbyEntity>)

  /** The message (or action) a use of the bed ends with. */
  datatype UseOutcome = Exploded | Obstructed | Occupied | TooFarAway | NoSleep | NotSafe | Slept

  /** The head and foot positions of the bed whose half `b` is at `pos`. */
  function HeadOf(pos: Pos, b: BedProps): Pos
  {
    if b.part == Head then pos else Offset(pos, b.facing)
  }

  function FootOf(pos: Pos, b: BedProps): Pos
  {
    if b.part == Head then Offset(pos, Opposite(b.facing)) else pos
  }

  /** The head and foot are the half itself and its other half. */
  lemma HeadFootAreHalves(pos: Pos, b: BedProps)
    ensures {HeadOf(pos, b), FootOf(pos, b)} == {pos, OtherHalf(pos, b)}
    ensures HeadOf(pos, b) != FootOf(pos, b)
  {
    OtherHalfReturns(pos, b);
  }

  /** The obstruction test as written: the block above the head, read twice. */
  predicate ObstructedAsWritten(rules: Rules, cells: map<Pos, Cell>, head: Pos, foot: Pos)
  {
    rules.solid(CellAt(cells, Above(head))) || rules.solid(CellAt(cells, Above(head)))
  }

  /** The obstruction test as evidently intended: a solid block above either half. */
  predicate ObstructedAbove(rules: Rules, cells: map<Pos, Cell>, head: Pos, foot: Pos)
  {
    rules.solid(CellAt(cells, Above(head))) || rules.solid(CellAt(cells, Above(foot)))
  }

  /** The intended test catches everything the written one does, and also a block over the foot alone. */
  lemma ObstructionTests(rules: Rules, cells: map<Pos, Cell>, head: Pos, foot: Pos)
    ensures ObstructedAsWritten(rules, cells, head, foot) ==> ObstructedAbove(rules, cells, head, foot)
    ensures ObstructedAbove(rules, cells, head, foot) <==>
              ObstructedAsWritten(rules, cells, head, foot) || rules.solid(CellAt(cells, Above(foot)))
    ensures !ObstructedAsWritten(rules, cells, head, foot) <==> !rules.solid(CellAt(cells, Above(head)))
  {
  }

  /** A solid block over the foot only: the written test lets the player sleep under it. */
  lemma ObstructionMissesFoot()
    ensures var foot := Pos(0, 64, 0);
            var head := Offset(foot, North);
            var rules := Rules((c: Cell) => c.block == Other(1), (c: Cell, d: Direction) => false, (c: Cell) => false, (c: Cell, d: Direction) => false,
                               (c: Cell, d: Direction) => 0, (c: Cell, d: Direction) => 0, (b: Block) => false, (b: Block) => false);
            var cells := map[Above(foot) := Cell(Other(1), PlainState(0))];
            !ObstructedAsWritten(rules, cells, head, foot) && ObstructedAbove(rules, cells, head, foot)
  {
    var foot := Pos(0, 64, 0);
    var head := Offset(foot, North);
    var cells := map[Above(foot) := Cell(Other(1), PlainState(0))];
    assert Above(head) !in cells;
  }

  predicate MonsterNearby(entities: seq<NearbyEntity>)
  {
    exists i :: 0 <= i < |entities| && PreventsSleep(entities[i].kind) && entities[i].nearBed
  }

  /**
   * The checks of `normal_use`, in order: the dimension, the space above,
   * the occupancy, the player's distance, the sleep window, the monsters.
   */
  function Outcome(rules: Rules, cells: map<Pos, Cell>, pos: Pos, ctx: UseContext): (o: UseOutcome)
    ensures o == Exploded <==> !ctx.overworld
    ensures o == Slept <==>
              && ctx.overworld && !BedOf(CellAt(cells, pos)).occupied && ctx.playerNear
              && CanSleep(ctx.thundering, ctx.raining, ctx.timeOfDay) && !MonsterNearby(ctx.entities)
              && !ObstructedAbove(rules, cells, HeadOf(pos, BedOf(CellAt(cells, pos))), FootOf(pos, BedOf(CellAt(cells, pos))))
  {
    var b := BedOf(CellAt(cells, pos));
    var head := HeadOf(pos, b);
    var foot := FootOf(pos, b);
    if !ctx.overworld then Exploded
    else if ObstructedAbove(rules, cells, head, foot) then Obstructed
    else if b.occupied then Occupied
    else if !ctx.playerNear then TooFarAway
    else if !CanSleep(ctx.thundering, ctx.raining, ctx.timeOfDay) then NoSleep
    else if MonsterNearby(ctx.entities) then NotSafe
    else Slept
  }

  /** The monster scan: stops at the first entity that prevents sleep and stands near the bed. */
  method AnyMonsterNearby(entities: seq<NearbyEntity>) returns (found: bool)
    ensures found == MonsterNearby(entities)
  {
    for i := 0 to |entities|
      invariant forall k :: 0 <= k < i ==> !(PreventsSleep(entities[k].kind) && entities[k].nearBed)
    {
      if !PreventsSleep(entities[i].kind) {
        continue;
      }
      if entities[i].nearBed {
        return true;
      }
    }
    return false;
  }

  /**
   * `normal_use`: outside the overworld both halves break and the head
   * explodes before anything else is looked at; a successful use occupies
   * both halves; every path answers `SuccessServer`.
   */
  method NormalUse(w: World, pos: Pos, ctx: UseContext) returns (r: BlockRegistry.BlockActionResult, outcome: UseOutcome)
    modifies w`cells, w`events
    ensures r == BlockRegistry.SuccessServer
    ensures outcome == Outcome(w.rules, old(w.cells), pos, ctx)
    ensures var b := BedOf(old(w.At(pos)));
            && (outcome == Exploded ==>
                  w.cells == old(w.cells)[HeadOf(pos, b) := AirCell][FootOf(pos, b) := AirCell]
                  && w.events == old(w.events) + [BlockBroken(HeadOf(pos, b)), BlockBroken(FootOf(pos, b)), Explosion(HeadOf(pos, b))])
            && (outcome == Slept ==>
                  w.cells == old(w.cells)[pos := Cell(Bed, BedState(b.(occupied := true)))]
                                         [OtherHalf(pos, b) := Cell(Bed, BedState(b.(occupied := true, part := OtherPart(b.part))))]
                  && w.events == old(w.events) && Paired(w.cells, pos)
                  && BedOf(w.At(pos)).occupied && BedOf(w.At(OtherHalf(pos, b))).occupied)
            && (outcome != Exploded && outcome != Slept ==> w.cells == old(w.cells) && w.events == old(w.events))
  {
    var b := BedOf(w.At(pos));
    var head := HeadOf(pos, b);
    var foot := FootOf(pos, b);
    r := BlockRegistry.SuccessServer;
    if !ctx.overworld {
      w.BreakBlock(head);
      w.BreakBlock(foot);
      w.Record(Explosion(head));
      return r, Exploded;
    }
    if ObstructedAbove(w.rules, w.cells, head, foot) {
      return r, Obstructed;
    }
    if b.occupied {
      return r, Occupied;
    }
    if !ctx.playerNear {
      return r, TooFarAway;
    }
    if !CanSleep(ctx.thundering, ctx.raining, ctx.timeOfDay) {
      return r, NoSleep;
    }
    var monster := AnyMonsterNearby(ctx.entities);
    if monster {
      return r, NotSafe;
    }
    SetOccupied(w, pos, true, b);
    return r, Slept;
  }
}
