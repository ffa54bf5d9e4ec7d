// The shape of a redstone wire block state: one connection per horizontal side
// and a power level, with the dot/cross classification and the power the wire
// itself emits (redstone_wire.rs).

module WireShape {
  import opened Common

  /**
   * How a wire connects on one side. The source has one enum per side
   * (`NorthWireConnection`, ...) with conversions to and from this common
   * `WireConnection`; here the four sides share this one type.
   */
  datatype WireConnection = Up | Side | None

  /** The properties of a `REDSTONE_WIRE` state; `power` is the 0..15 level. */
  datatype WireProps = WireProps(
    north: WireConnection,
    south: WireConnection,
    east: WireConnection,
    west: WireConnection,
    power: nat)

  /** The default wire state: no side connected, power 0. */
  const DefaultWire: WireProps := WireProps(WireConnection.None, WireConnection.None, WireConnection.None, WireConnection.None, 0)

  predicate IsConnected(c: WireConnection)
  {
    c != WireConnection.None
  }

  /** No side connected. */
  predicate IsDot(w: WireProps)
  {
    !IsConnected(w.north) && !IsConnected(w.south) && !IsConnected(w.east) && !IsConnected(w.west)
  }

  /** Every side connected flat (`Side`). */
  predicate IsCross(w: WireProps)
  {
    w.north == WireConnection.Side && w.south == WireConnection.Side
    && w.east == WireConnection.Side && w.west == WireConnection.Side
  }

  function MakeCross(power: nat): (w: WireProps)
    ensures IsCross(w) && !IsDot(w) && w.power == power
  {
    WireProps(WireConnection.Side, WireConnection.Side, WireConnection.Side, WireConnection.Side, power)
  }

  lemma DotAndCrossExclusive(w: WireProps)
    ensures !(IsDot(w) && IsCross(w))
  {
  }

  /** The connection of side `d`; `None` for `Up` and `Down`. */
  function SideOf(w: WireProps, d: Direction): WireConnection
  {
    match d
    case North => w.north
    case South => w.south
    case East => w.east
    case West => w.west
    case _ => WireConnection.None
  }

  /** `is_side_connected`: a horizontal side whose connection is not `None`. */
  predicate IsSideConnected(w: WireProps, d: Direction)
  {
    IsConnected(SideOf(w, d))
  }

  /** The wire with side `d` set to `c` (a no-op for `Up` and `Down`). */
  function WithSide(w: WireProps, d: Direction, c: WireConnection): (r: WireProps)
    ensures r.power == w.power
    ensures IsHorizontal(d) ==> SideOf(r, d) == c
    ensures forall e :: e != d ==> SideOf(r, e) == SideOf(w, e)
  {
    match d
    case North => w.(north := c)
    case South => w.(south := c)
    case East => w.(east := c)
    case West => w.(west := c)
    case _ => w
  }

  /**
   * The power a wire gives for a query with direction `d`
   * (`get_weak_redstone_power` and `get_strong_redstone_power` have the same
   * body): its level for `Up` or when the side opposite `d` is connected.
   */
  function WirePower(w: WireProps, d: Direction): nat
  {
    if d == Direction.Up || IsSideConnected(w, Opposite(d)) then w.power else 0
  }

  /**
   * The level is given for `Up` and through connected sides only: never for
   * `Down`, for a horizontal `d` exactly when the side opposite `d` is
   * connected; a dot answers only `Up`, a cross everything but `Down`.
   */
  lemma WirePowerFaces(w: WireProps, d: Direction)
    ensures d == Direction.Up ==> WirePower(w, d) == w.power
    ensures d == Direction.Down ==> WirePower(w, d) == 0
    ensures IsHorizontal(d) ==> (WirePower(w, d) == if IsConnected(SideOf(w, Opposite(d))) then w.power else 0)
    ensures IsDot(w) ==> WirePower(w, d) == (if d == Direction.Up then w.power else 0)
    ensures IsCross(w) ==> WirePower(w, d) == (if d == Direction.Down then 0 else w.power)
  {
  }
}
