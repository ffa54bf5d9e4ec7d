// Redstone dust: how it chooses its side connections, how strong it is, and
// how it reacts to placement, neighbour changes and use
// (pumpkin/src/block/blocks/redstone/redstone_wire.rs).

module RedstoneWire {
  import opened Common
  import opened WireShape
  import opened BlockWorld
  import opened RedstonePower
  import BlockRegistry

  /** `can_place_at`: the block below is solid on its top face. */
  predicate CanPlaceAt(rules: Rules, cells: map<Pos, Cell>, pos: Pos)
  {
    rules.sideSolid(CellAt(cells, Below(pos)), Direction.Up)
  }

  /** The facing of a repeater or observer state. */
  function FacingOf(c: Cell): Direction
  {
    if c.props.FacingState? then c.props.facing else North
  }

  /** `can_connect_to`: whether the wire connects flat toward the block `c` on `side`. */
  predicate CanConnectTo(rules: Rules, c: Cell, side: Direction)
  {
    if RegistryEmitsPower(rules, c, side) then true
    else if c.block == Repeater then FacingOf(c) == side || FacingOf(c) == Opposite(side)
    else if c.block == Observer then FacingOf(c) == side
    else c.block == RedstoneWire
  }

  /** `get_side`: the connection the wire at `pos` wants on `side`. */
  function GetSide(rules: Rules, cells: map<Pos, Cell>, pos: Pos, side: Direction): WireConnection
  {
    var n := Offset(pos, side);
    var neighbour := CellAt(cells, n);
    if CanConnectTo(rules, neighbour, side) then WireConnection.Side
    else if !rules.solid(CellAt(cells, Above(pos))) && CellAt(cells, Above(n)).block == RedstoneWire then WireConnection.Up
    else if !rules.solid(neighbour) && CellAt(cells, Below(n)).block == RedstoneWire then WireConnection.Side
    else WireConnection.None
  }

  /**
   * The checks of `get_side` in their order: a connectable neighbour wins;
   * `Up` needs a wire diagonally above and a non-solid block above the wire;
   * the last chance for `Side` is a wire diagonally below a non-solid
   * neighbour; otherwise `None`.
   */
  lemma GetSideOrder(rules: Rules, cells: map<Pos, Cell>, pos: Pos, side: Direction)
    ensures var n := Offset(pos, side);
            var r := GetSide(rules, cells, pos, side);
            && (CanConnectTo(rules, CellAt(cells, n), side) ==> r == WireConnection.Side)
            && (CellAt(cells, n).block == RedstoneWire ==> r == WireConnection.Side)
            && (r == WireConnection.Up <==>
                  !CanConnectTo(rules, CellAt(cells, n), side)
                  && !rules.solid(CellAt(cells, Above(pos))) && CellAt(cells, Above(n)).block == RedstoneWire)
            && (r == WireConnection.None <==>
                  !CanConnectTo(rules, CellAt(cells, n), side)
                  && !(!rules.solid(CellAt(cells, Above(pos))) && CellAt(cells, Above(n)).block == RedstoneWire)
                  && !(!rules.solid(CellAt(cells, n)) && CellAt(cells, Below(n)).block == RedstoneWire))
  {
  }

  /** `get_all_sides`: all four sides asked anew; the power is kept. */
  function AllSides(rules: Rules, cells: map<Pos, Cell>, pos: Pos, wire: WireProps): WireProps
  {
    wire.(north := GetSide(rules, cells, pos, North),
          south := GetSide(rules, cells, pos, South),
          east := GetSide(rules, cells, pos, East),
          west := GetSide(rules, cells, pos, West))
  }

  /** Each unconnected side becomes `Side` when the perpendicular pair is unconnected too. */
  function FillAxes(q: WireProps): WireProps
  {
    var northSouthNone := !IsConnected(q.north) && !IsConnected(q.south);
    var eastWestNone := !IsConnected(q.east) && !IsConnected(q.west);
    q.(north := if !IsConnected(q.north) && eastWestNone then WireConnection.Side else q.north,
       south := if !IsConnected(q.south) && eastWestNone then WireConnection.Side else q.south,
       east := if !IsConnected(q.east) && northSouthNone then WireConnection.Side else q.east,
       west := if !IsConnected(q.west) && northSouthNone then WireConnection.Side else q.west)
  }

  /** Regulation of the freshly asked sides `q` of the wire `wire`. */
  function Regulate(wire: WireProps, q: WireProps): WireProps
  {
    if IsDot(wire) && IsDot(q) then q else FillAxes(q)
  }

  /** `get_regulated_sides` as a function of the world. */
  function RegulatedSides(rules: Rules, cells: map<Pos, Cell>, pos: Pos, wire: WireProps): WireProps
  {
    Regulate(wire, AllSides(rules, cells, pos, wire))
  }

  function ConnectedSides(w: WireProps): nat
  {
    (if IsConnected(w.north) then 1 else 0) + (if IsConnected(w.south) then 1 else 0)
    + (if IsConnected(w.east) then 1 else 0) + (if IsConnected(w.west) then 1 else 0)
  }

  /**
   * What regulation does to the asked sides `q`: a dot wire whose
   * surroundings offer no connection stays a dot; otherwise only `None`
   * sides change, only to `Side`, and only when the perpendicular pair is
   * unconnected, so the result is never a dot and never has exactly one
   * connected side. The power is never touched.
   */
  lemma RegulationFacts(wire: WireProps, q: WireProps)
    ensures Regulate(wire, q).power == q.power
    ensures IsDot(wire) && IsDot(q) ==> Regulate(wire, q) == q
    ensures forall d :: IsConnected(SideOf(q, d)) ==> SideOf(Regulate(wire, q), d) == SideOf(q, d)
    ensures forall d :: SideOf(Regulate(wire, q), d) != SideOf(q, d) ==>
              SideOf(q, d) == WireConnection.None && SideOf(Regulate(wire, q), d) == WireConnection.Side
    ensures !(IsDot(wire) && IsDot(q)) ==>
              && !IsDot(Regulate(wire, q))
              && ConnectedSides(Regulate(wire, q)) != 1
              && (!IsConnected(q.east) && !IsConnected(q.west) ==>
                    IsConnected(Regulate(wire, q).north) && IsConnected(Regulate(wire, q).south))
              && (!IsConnected(q.north) && !IsConnected(q.south) ==>
                    IsConnected(Regulate(wire, q).east) && IsConnected(Regulate(wire, q).west))
  {
  }

  /** `get_regulated_sides`, updating the sides of `state` one by one. */
  method GetRegulatedSides(rules: Rules, cells: map<Pos, Cell>, pos: Pos, wire: WireProps) returns (state: WireProps)
    ensures state == RegulatedSides(rules, cells, pos, wire)
    ensures state.power == wire.power
  {
    state := wire;
    state := state.(north := GetSide(rules, cells, pos, North));
    state := state.(south := GetSide(rules, cells, pos, South));
    state := state.(east := GetSide(rules, cells, pos, East));
    state := state.(west := GetSide(rules, cells, pos, West));
    if IsDot(wire) && IsDot(state) {
      return;
    }
    var northNone := state.north == WireConnection.None;
    var southNone := state.south == WireConnection.None;
    var eastNone := state.east == WireConnection.None;
    var westNone := state.west == WireConnection.None;
    var northSouthNone := northNone && southNone;
    var eastWestNone := eastNone && westNone;
    if northNone && eastWestNone {
      state := state.(north := WireConnection.Side);
    }
    if southNone && eastWestNone {
      state := state.(south := WireConnection.Side);
    }
    if eastNone && northSouthNone {
      state := state.(east := WireConnection.Side);
    }
    if westNone && northSouthNone {
      state := state.(west := WireConnection.Side);
    }
  }

  /** The level of the wire at `p`, or 0 when `p` holds no wire. */
  function WireLevelAt(cells: map<Pos, Cell>, p: Pos): nat
  {
    var c := CellAt(cells, p);
    if c.block == RedstoneWire then WireOf(c).power else 0
  }

  /** `max_wire_power`. */
  function MaxWirePower(acc: nat, cells: map<Pos, Cell>, p: Pos): (r: nat)
    ensures r == Max(acc, WireLevelAt(cells, p))
  {
    var c := CellAt(cells, p);
    if c.block == RedstoneWire then Max(acc, WireOf(c).power) else acc
  }

  /**
   * The wire levels `calculate_power` looks at on side `d`: the neighbour,
   * and for a horizontal side also the wire diagonally above (when the block
   * above `pos` is not solid) and diagonally below (when the neighbour is not
   * solid).
   */
  function WireInput(rules: Rules, cells: map<Pos, Cell>, pos: Pos, d: Direction): nat
  {
    var n := Offset(pos, d);
    var here := WireLevelAt(cells, n);
    if !IsHorizontal(d) then here
    else
      var above := if !rules.solid(CellAt(cells, Above(pos))) then WireLevelAt(cells, Above(n)) else 0;
      var below := if !rules.solid(CellAt(cells, n)) then WireLevelAt(cells, Below(n)) else 0;
      Max(Max(here, above), below)
  }

  /** The power the neighbour on side `d` gives, wires not counted. */
  function BlockInput(rules: Rules, cells: map<Pos, Cell>, pos: Pos, d: Direction): nat
  {
    var n := Offset(pos, d);
    RedstonePowerOf(rules, cells, CellAt(cells, n), n, d, false)
  }

  function WireInputs(rules: Rules, cells: map<Pos, Cell>, pos: Pos, ds: seq<Direction>): (ps: seq<nat>)
    ensures |ps| == |ds|
  {
    seq(|ds|, k requires 0 <= k < |ds| => WireInput(rules, cells, pos, ds[k]))
  }

  function BlockInputs(rules: Rules, cells: map<Pos, Cell>, pos: Pos, ds: seq<Direction>): (ps: seq<nat>)
    ensures |ps| == |ds|
  {
    seq(|ds|, k requires 0 <= k < |ds| => BlockInput(rules, cells, pos, ds[k]))
  }

  /** `u8::saturating_sub(1)`. */
  function SaturatingDecrement(x: nat): nat
  {
    if x > 0 then x - 1 else 0
  }

  /** What `calculate_power` returns. */
  function CalculatedPower(rules: Rules, cells: map<Pos, Cell>, pos: Pos): nat
  {
    Max(MaxOf(BlockInputs(rules, cells, pos, AllDirections)),
        SaturatingDecrement(MaxOf(WireInputs(rules, cells, pos, AllDirections))))
  }

  /**
   * The wire takes the strongest non-wire input and the strongest wire
   * input less one: no input exceeds that, and unless the result is 0 one
   * input gives it exactly.
   */
  lemma CalculatedPowerIsMaximum(rules: Rules, cells: map<Pos, Cell>, pos: Pos)
    ensures forall d :: BlockInput(rules, cells, pos, d) <= CalculatedPower(rules, cells, pos)
    ensures forall d :: WireInput(rules, cells, pos, d) - 1 <= CalculatedPower(rules, cells, pos)
    ensures CalculatedPower(rules, cells, pos) == 0
            || (exists d :: BlockInput(rules, cells, pos, d) == CalculatedPower(rules, cells, pos))
            || (exists d :: WireInput(rules, cells, pos, d) - 1 == CalculatedPower(rules, cells, pos))
  {
    var bs := BlockInputs(rules, cells, pos, AllDirections);
    var ws := WireInputs(rules, cells, pos, AllDirections);
    MaxOfIsMaximum(bs);
    MaxOfIsMaximum(ws);
    forall d ensures BlockInput(rules, cells, pos, d) <= MaxOf(bs) && WireInput(rules, cells, pos, d) <= MaxOf(ws) {
      AllDirectionsComplete(d);
      var i :| 0 <= i < 6 && AllDirections[i] == d;
      assert bs[i] == BlockInput(rules, cells, pos, d);
      assert ws[i] == WireInput(rules, cells, pos, d);
    }
    if CalculatedPower(rules, cells, pos) != 0 {
      if MaxOf(bs) >= SaturatingDecrement(MaxOf(ws)) {
        var i :| 0 <= i < 6 && bs[i] == MaxOf(bs);
        assert BlockInput(rules, cells, pos, AllDirections[i]) == CalculatedPower(rules, cells, pos);
      } else {
        var i :| 0 <= i < 6 && ws[i] == MaxOf(ws);
        assert WireInput(rules, cells, pos, AllDirections[i]) - 1 == CalculatedPower(rules, cells, pos);
      }
    }
  }

  /** With registry powers within 0..15, the input from the neighbour on `d` is too. */
  lemma BlockInputBounded(rules: Rules, cells: map<Pos, Cell>, pos: Pos, d: Direction)
    requires PowersBounded(rules)
    ensures BlockInput(rules, cells, pos, d) <= 15
  {
    var n := Offset(pos, d);
    MaxPowerIsMaximum(rules, cells, n, false, true);
    forall e ensures NeighbourPower(rules, cells, n, e, false, true) <= 15 { }
  }

  /** With stored wire levels within 0..15, the wire input on `d` is too. */
  lemma WireInputBounded(rules: Rules, cells: map<Pos, Cell>, pos: Pos, d: Direction)
    requires WiresBounded(cells)
    ensures WireInput(rules, cells, pos, d) <= 15
  {
    var n := Offset(pos, d);
    WireOfBounded(cells, n);
    WireOfBounded(cells, Above(n));
    WireOfBounded(cells, Below(n));
  }

  /** Inputs within 0..15 give a level within 0..15. */
  lemma CalculatedPowerBounded(rules: Rules, cells: map<Pos, Cell>, pos: Pos)
    requires PowersBounded(rules) && WiresBounded(cells)
    ensures CalculatedPower(rules, cells, pos) <= 15
  {
    CalculatedPowerIsMaximum(rules, cells, pos);
    forall d ensures BlockInput(rules, cells, pos, d) <= 15 && WireInput(rules, cells, pos, d) <= 15 {
      BlockInputBounded(rules, cells, pos, d);
      WireInputBounded(rules, cells, pos, d);
    }
  }

  /** One step of `calculate_power`'s loop: the inputs from the neighbour on `side`. */
  method SideInputs(rules: Rules, cells: map<Pos, Cell>, pos: Pos, side: Direction, wireAcc: nat)
    returns (wirePower: nat, blockPower: nat)
    ensures wirePower == Max(wireAcc, WireInput(rules, cells, pos, side))
    ensures blockPower == BlockInput(rules, cells, pos, side)
  {
    var upState := CellAt(cells, Above(pos));
    var neighborPos := Offset(pos, side);
    wirePower := MaxWirePower(wireAcc, cells, neighborPos);
    var neighbor := CellAt(cells, neighborPos);
    blockPower := GetRedstonePower(rules, cells, neighbor, neighborPos, side, false);
    if IsHorizontal(side) {
      if !rules.solid(upState) {
        wirePower := MaxWirePower(wirePower, cells, Above(neighborPos));
      }
      if !rules.solid(neighbor) {
        wirePower := MaxWirePower(wirePower, cells, Below(neighborPos));
      }
    }
  }

  lemma InputsAppend(rules: Rules, cells: map<Pos, Cell>, pos: Pos, ds: seq<Direction>, d: Direction)
    ensures MaxOf(BlockInputs(rules, cells, pos, ds + [d]))
         == Max(MaxOf(BlockInputs(rules, cells, pos, ds)), BlockInput(rules, cells, pos, d))
    ensures MaxOf(WireInputs(rules, cells, pos, ds + [d]))
         == Max(MaxOf(WireInputs(rules, cells, pos, ds)), WireInput(rules, cells, pos, d))
  {
    assert BlockInputs(rules, cells, pos, ds + [d]) == BlockInputs(rules, cells, pos, ds) + [BlockInput(rules, cells, pos, d)];
    assert WireInputs(rules, cells, pos, ds + [d]) == WireInputs(rules, cells, pos, ds) + [WireInput(rules, cells, pos, d)];
    MaxOfAppend(BlockInputs(rules, cells, pos, ds), BlockInput(rules, cells, pos, d));
    MaxOfAppend(WireInputs(rules, cells, pos, ds), WireInput(rules, cells, pos, d));
  }

  /** `calculate_power`: one pass over `BlockDirection::all()`. */
  method CalculatePower(rules: Rules, cells: map<Pos, Cell>, pos: Pos) returns (power: nat)
    ensures power == CalculatedPower(rules, cells, pos)
  {
    var blockPower: nat := 0;
    var wirePower: nat := 0;
    var i := 0;
    while i < |AllDirections|
      invariant 0 <= i <= |AllDirections|
      invariant blockPower == MaxOf(BlockInputs(rules, cells, pos, AllDirections[..i]))
      invariant wirePower == MaxOf(WireInputs(rules, cells, pos, AllDirections[..i]))
    {
      var p;
      wirePower, p := SideInputs(rules, cells, pos, AllDirections[i], wirePower);
      blockPower := Max(blockPower, p);
      InputsAppend(rules, cells, pos, AllDirections[..i], AllDirections[i]);
      assert AllDirections[..i + 1] == AllDirections[..i] + [AllDirections[i]];
      i := i + 1;
    }
    assert AllDirections[..i] == AllDirections;
    power := Max(blockPower, SaturatingDecrement(wirePower));
  }

  /**
   * `on_place`: the default wire with the computed power, regulated; a dot
   * becomes a cross, so a freshly placed wire is never a dot.
   */
  method OnPlace(rules: Rules, cells: map<Pos, Cell>, pos: Pos) returns (wire: WireProps)
    ensures wire.power == CalculatedPower(rules, cells, pos)
    ensures !IsDot(wire)
    ensures var r := RegulatedSides(rules, cells, pos, DefaultWire.(power := wire.power));
            wire == if IsDot(r) then MakeCross(wire.power) else r
  {
    wire := DefaultWire;
    var p := CalculatePower(rules, cells, pos);
    wire := wire.(power := p);
    wire := GetRegulatedSides(rules, cells, pos, wire);
    if IsDot(wire) {
      wire := MakeCross(wire.power);
    }
  }

  /** What `get_state_for_neighbor_update` returns for a change on `direction`. */
  function NeighborUpdateState(rules: Rules, cells: map<Pos, Cell>, pos: Pos, wire: WireProps, direction: Direction): WireProps
  {
    if direction == Direction.Up then wire
    else if direction == Direction.Down then RegulatedSides(rules, cells, pos, wire)
    else
      var newSide := GetSide(rules, cells, pos, direction);
      var regulated := RegulatedSides(rules, cells, pos, WithSide(wire, direction, newSide));
      if IsCross(wire) && newSide == WireConnection.None then regulated
      else if !IsDot(wire) && IsDot(regulated) then MakeCross(regulated.power)
      else regulated
  }

  /**
   * A neighbour change never alters the power of the wire, a change from
   * above alters nothing, and a wire that was not a dot never becomes one.
   */
  lemma NeighborUpdateFacts(rules: Rules, cells: map<Pos, Cell>, pos: Pos, wire: WireProps, direction: Direction)
    ensures NeighborUpdateState(rules, cells, pos, wire, direction).power == wire.power
    ensures direction == Direction.Up ==> NeighborUpdateState(rules, cells, pos, wire, direction) == wire
    ensures !IsDot(wire) ==> !IsDot(NeighborUpdateState(rules, cells, pos, wire, direction))
  {
    if direction != Direction.Up && direction != Direction.Down {
      var newSide := GetSide(rules, cells, pos, direction);
      var updated := WithSide(wire, direction, newSide);
      RegulationFacts(updated, AllSides(rules, cells, pos, updated));
    } else {
      RegulationFacts(wire, AllSides(rules, cells, pos, wire));
    }
  }

  /** `get_state_for_neighbor_update`. */
  method GetStateForNeighborUpdate(rules: Rules, cells: map<Pos, Cell>, pos: Pos, stateWire: WireProps, direction: Direction)
    returns (r: WireProps)
    ensures r == NeighborUpdateState(rules, cells, pos, stateWire, direction)
    ensures r.power == stateWire.power
    ensures !IsDot(stateWire) ==> !IsDot(r)
  {
    NeighborUpdateFacts(rules, cells, pos, stateWire, direction);
    var wire := stateWire;
    var oldState := wire;
    var newSide: WireConnection;
    match direction {
      case Up =>
        return stateWire;
      case Down =>
        r := GetRegulatedSides(rules, cells, pos, wire);
        return;
      case North =>
        var side := GetSide(rules, cells, pos, North);
        wire := wire.(north := side);
        newSide := side;
      case South =>
        var side := GetSide(rules, cells, pos, South);
        wire := wire.(south := side);
        newSide := side;
      case East =>
        var side := GetSide(rules, cells, pos, East);
        wire := wire.(east := side);
        newSide := side;
      case West =>
        var side := GetSide(rules, cells, pos, West);
        wire := wire.(west := side);
        newSide := side;
    }
    wire := GetRegulatedSides(rules, cells, pos, wire);
    if IsCross(oldState) && newSide == WireConnection.None {
      return wire;
    }
    if !IsDot(oldState) && IsDot(wire) {
      var power := wire.power;
      wire := MakeCross(power);
    }
    r := wire;
  }

  /**
   * `on_neighbor_update`: without a solid floor the wire breaks; otherwise
   * its power is recomputed, and only a changed power is written back and
   * passed on to the surrounding wires.
   */
  method OnNeighborUpdate(w: World, pos: Pos)
    modifies w`cells, w`events
    ensures var wire := WireOf(old(w.At(pos)));
            var p := CalculatedPower(w.rules, old(w.cells), pos);
            if !CanPlaceAt(w.rules, old(w.cells), pos) then
              w.cells == old(w.cells)[pos := AirCell] && w.events == old(w.events) + [BlockBroken(pos)]
            else if wire.power != p then
              w.cells == old(w.cells)[pos := Cell(RedstoneWire, WireState(wire.(power := p)))]
              && w.events == old(w.events) + [WireNeighborsUpdated(pos)]
            else
              w.cells == old(w.cells) && w.events == old(w.events)
  {
    if CanPlaceAt(w.rules, w.cells, pos) {
      var wire := WireOf(w.At(pos));
      var newPower := CalculatePower(w.rules, w.cells, pos);
      if wire.power != newPower {
        wire := wire.(power := newPower);
        w.SetBlockState(pos, Cell(RedstoneWire, WireState(wire)));
        w.Record(WireNeighborsUpdated(pos));
      }
    } else {
      w.BreakBlock(pos);
    }
  }

  /** The wire `on_use` writes, or `None` when it leaves the wire as it is. */
  function UsedWire(rules: Rules, cells: map<Pos, Cell>, pos: Pos, wire: WireProps): Option<WireProps>
  {
    if IsCross(wire) || IsDot(wire) then
      var start := (if IsCross(wire) then DefaultWire else MakeCross(wire.power)).(power := wire.power);
      var regulated := RegulatedSides(rules, cells, pos, start);
      if wire != regulated then Some(regulated) else Option.None
    else Option.None
  }

  /**
   * Using a wire that has nothing around it to connect to toggles it: a dot
   * becomes a cross and a cross a dot, at the same power. A wire that is
   * neither a dot nor a cross is never changed by use.
   */
  lemma UseToggles(rules: Rules, cells: map<Pos, Cell>, pos: Pos, wire: WireProps)
    requires IsDot(AllSides(rules, cells, pos, wire))
    ensures IsDot(wire) ==> UsedWire(rules, cells, pos, wire) == Some(MakeCross(wire.power))
    ensures IsCross(wire) ==> UsedWire(rules, cells, pos, wire) == Some(DefaultWire.(power := wire.power))
    ensures !IsDot(wire) && !IsCross(wire) ==> UsedWire(rules, cells, pos, wire) == Option.None
  {
  }

  /** `on_use`: a dot or a cross toggles; a real change is written and announced to the neighbours. */
  method OnUse(w: World, pos: Pos, wire: WireProps) returns (changed: bool)
    modifies w`cells, w`events
    ensures changed <==> UsedWire(w.rules, old(w.cells), pos, wire).Some?
    ensures changed ==>
              w.cells == old(w.cells)[pos := Cell(RedstoneWire, WireState(UsedWire(w.rules, old(w.cells), pos, wire).value))]
              && w.events == old(w.events) + WireNeighborOrder(pos, AllDirections)
    ensures !changed ==> w.cells == old(w.cells) && w.events == old(w.events)
  {
    if IsCross(wire) || IsDot(wire) {
      var newWire := if IsCross(wire) then DefaultWire else MakeCross(wire.power);
      newWire := newWire.(power := wire.power);
      newWire := GetRegulatedSides(w.rules, w.cells, pos, newWire);
      if wire != newWire {
        w.SetBlockState(pos, Cell(RedstoneWire, WireState(newWire)));
        UpdateWireNeighbors(w, pos);
        return true;
      }
    }
    return false;
  }

  /** `normal_use`: `Success` when the wire changed, `Pass` otherwise. */
  method NormalUse(w: World, pos: Pos) returns (r: BlockRegistry.BlockActionResult)
    modifies w`cells, w`events
    ensures var used := UsedWire(w.rules, old(w.cells), pos, WireOf(old(w.At(pos))));
            && (r == BlockRegistry.Success <==> used.Some?)
            && (r == BlockRegistry.Pass <==> used.None?)
            && (used.Some? ==>
                  w.cells == old(w.cells)[pos := Cell(RedstoneWire, WireState(used.value))]
                  && w.events == old(w.events) + WireNeighborOrder(pos, AllDirections))
            && (used.None? ==> w.cells == old(w.cells) && w.events == old(w.events))
  {
    var wire := WireOf(w.At(pos));
    var changed := OnUse(w, pos, wire);
    r := if changed then BlockRegistry.Success else BlockRegistry.Pass;
  }
}
