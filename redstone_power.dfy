// Redstone power queries shared by the redstone blocks
// (pumpkin/src/block/blocks/redstone/mod.rs).

module RedstonePower {
  import opened Common
  import opened BlockWorld

  /**
   * `get_weak_power`: with `dust` false a redstone wire gives nothing,
   * otherwise the block's registry callback answers.
   */
  function WeakPower(rules: Rules, c: Cell, side: Direction, dust: bool): nat
  {
    if !dust && c.block == RedstoneWire then 0 else RegistryWeakPower(rules, c, side)
  }

  /** `get_strong_power`, gated on `dust` in the same way. */
  function StrongPower(rules: Rules, c: Cell, side: Direction, dust: bool): nat
  {
    if !dust && c.block == RedstoneWire then 0 else RegistryStrongPower(rules, c, side)
  }

  lemma DustGate(rules: Rules, c: Cell, side: Direction, dust: bool)
    ensures c.block == RedstoneWire && !dust ==> WeakPower(rules, c, side, dust) == 0 && StrongPower(rules, c, side, dust) == 0
    ensures c.block != RedstoneWire ==> WeakPower(rules, c, side, dust) == rules.weakPower(c, side)
    ensures c.block != RedstoneWire ==> StrongPower(rules, c, side, dust) == rules.strongPower(c, side)
    ensures c.block == RedstoneWire && dust ==> WeakPower(rules, c, side, dust) == StrongPower(rules, c, side, dust)
  {
  }

  /** The strong (or weak) power of the neighbour on side `d` of `pos`, asked with `d`. */
  function NeighbourPower(rules: Rules, cells: map<Pos, Cell>, pos: Pos, d: Direction, dust: bool, strong: bool): nat
  {
    var c := CellAt(cells, Offset(pos, d));
    if strong then StrongPower(rules, c, d, dust) else WeakPower(rules, c, d, dust)
  }

  /** The power of each neighbour of `pos` named in `ds`, in order. */
  function NeighbourPowers(rules: Rules, cells: map<Pos, Cell>, pos: Pos, dust: bool, strong: bool, ds: seq<Direction>): (ps: seq<nat>)
    ensures |ps| == |ds|
  {
    seq(|ds|, k requires 0 <= k < |ds| => NeighbourPower(rules, cells, pos, ds[k], dust, strong))
  }

  /** `get_max_strong_power` (`strong`) and `get_max_weak_power` (not `strong`). */
  function MaxNeighbourPower(rules: Rules, cells: map<Pos, Cell>, pos: Pos, dust: bool, strong: bool, ds: seq<Direction>): nat
  {
    MaxOf(NeighbourPowers(rules, cells, pos, dust, strong, ds))
  }

  /**
   * `get_max_strong_power` / `get_max_weak_power` are the maximum over the six
   * neighbours: no neighbour exceeds it, and unless it is 0 one reaches it.
   */
  lemma MaxPowerIsMaximum(rules: Rules, cells: map<Pos, Cell>, pos: Pos, dust: bool, strong: bool)
    ensures forall d :: NeighbourPower(rules, cells, pos, d, dust, strong) <= MaxNeighbourPower(rules, cells, pos, dust, strong, AllDirections)
    ensures MaxNeighbourPower(rules, cells, pos, dust, strong, AllDirections) == 0
            || exists d :: NeighbourPower(rules, cells, pos, d, dust, strong) == MaxNeighbourPower(rules, cells, pos, dust, strong, AllDirections)
  {
    var ps := NeighbourPowers(rules, cells, pos, dust, strong, AllDirections);
    MaxOfIsMaximum(ps);
    forall d ensures NeighbourPower(rules, cells, pos, d, dust, strong) <= MaxOf(ps) {
      AllDirectionsComplete(d);
      var i :| 0 <= i < |AllDirections| && AllDirections[i] == d;
      assert ps[i] == NeighbourPower(rules, cells, pos, d, dust, strong);
    }
    if MaxOf(ps) != 0 {
      var i :| 0 <= i < |ps| && ps[i] == MaxOf(ps);
      assert NeighbourPower(rules, cells, pos, AllDirections[i], dust, strong) == MaxOf(ps);
    }
  }

  /** Taking one more direction into the maximum takes the larger of the old maximum and that neighbour's power. */
  lemma MaxNeighbourPowerStep(rules: Rules, cells: map<Pos, Cell>, pos: Pos, dust: bool, strong: bool, ds: seq<Direction>, i: nat)
    requires i < |ds|
    ensures MaxNeighbourPower(rules, cells, pos, dust, strong, ds[..i + 1])
            == Max(MaxNeighbourPower(rules, cells, pos, dust, strong, ds[..i]), NeighbourPower(rules, cells, pos, ds[i], dust, strong))
  {
    var p := NeighbourPower(rules, cells, pos, ds[i], dust, strong);
    assert NeighbourPowers(rules, cells, pos, dust, strong, ds[..i + 1])
        == NeighbourPowers(rules, cells, pos, dust, strong, ds[..i]) + [p];
    MaxOfAppend(NeighbourPowers(rules, cells, pos, dust, strong, ds[..i]), p);
  }

  method GetMaxPower(rules: Rules, cells: map<Pos, Cell>, pos: Pos, dust: bool, strong: bool) returns (m: nat)
    ensures m == MaxNeighbourPower(rules, cells, pos, dust, strong, AllDirections)
  {
    var ds := AllDirections;
    m := 0;
    var i := 0;
    while i < |ds|
      invariant 0 <= i <= |ds|
      invariant m == MaxNeighbourPower(rules, cells, pos, dust, strong, ds[..i])
    {
      var side := ds[i];
      var c := CellAt(cells, Offset(pos, side));
      var p := if strong then StrongPower(rules, c, side, dust) else WeakPower(rules, c, side, dust);
      MaxNeighbourPowerStep(rules, cells, pos, dust, strong, ds, i);
      m := Max(m, p);
      i := i + 1;
    }
    assert ds[..|ds|] == ds;
  }

  /** `get_max_strong_power`. */
  method GetMaxStrongPower(rules: Rules, cells: map<Pos, Cell>, pos: Pos, dust: bool) returns (m: nat)
    ensures forall d :: NeighbourPower(rules, cells, pos, d, dust, true) <= m
    ensures m == 0 || exists d :: NeighbourPower(rules, cells, pos, d, dust, true) == m
    ensures m == MaxNeighbourPower(rules, cells, pos, dust, true, AllDirections)
  {
    m := GetMaxPower(rules, cells, pos, dust, true);
    MaxPowerIsMaximum(rules, cells, pos, dust, true);
  }

  /** `get_max_weak_power`. */
  method GetMaxWeakPower(rules: Rules, cells: map<Pos, Cell>, pos: Pos, dust: bool) returns (m: nat)
    ensures forall d :: NeighbourPower(rules, cells, pos, d, dust, false) <= m
    ensures m == 0 || exists d :: NeighbourPower(rules, cells, pos, d, dust, false) == m
    ensures m == MaxNeighbourPower(rules, cells, pos, dust, false, AllDirections)
  {
    m := GetMaxPower(rules, cells, pos, dust, false);
    MaxPowerIsMaximum(rules, cells, pos, dust, false);
  }

  /**
   * `get_redstone_power` (`dust` true) and `get_redstone_power_no_dust`
   * (`dust` false) of the block `c` at `pos`, asked with `facing`.
   */
  function RedstonePowerOf(rules: Rules, cells: map<Pos, Cell>, c: Cell, pos: Pos, facing: Direction, dust: bool): nat
  {
    if rules.solid(c) then Max(MaxNeighbourPower(rules, cells, pos, dust, true, AllDirections), WeakPower(rules, c, facing, dust))
    else WeakPower(rules, c, facing, dust)
  }

  /**
   * A non-solid block gives exactly its weak power; a solid one gives the
   * larger of its weak power and the strongest strong power around it, so
   * never less than its weak power.
   */
  lemma RedstonePowerCases(rules: Rules, cells: map<Pos, Cell>, c: Cell, pos: Pos, facing: Direction, dust: bool)
    ensures RedstonePowerOf(rules, cells, c, pos, facing, dust) >= WeakPower(rules, c, facing, dust)
    ensures !rules.solid(c) ==> RedstonePowerOf(rules, cells, c, pos, facing, dust) == WeakPower(rules, c, facing, dust)
    ensures rules.solid(c) ==> forall d :: NeighbourPower(rules, cells, pos, d, dust, true) <= RedstonePowerOf(rules, cells, c, pos, facing, dust)
    ensures rules.solid(c) ==> (RedstonePowerOf(rules, cells, c, pos, facing, dust) == WeakPower(rules, c, facing, dust)
            || exists d :: NeighbourPower(rules, cells, pos, d, dust, true) == RedstonePowerOf(rules, cells, c, pos, facing, dust))
  {
    MaxPowerIsMaximum(rules, cells, pos, dust, true);
  }

  method GetRedstonePower(rules: Rules, cells: map<Pos, Cell>, c: Cell, pos: Pos, facing: Direction, dust: bool) returns (p: nat)
    ensures p == RedstonePowerOf(rules, cells, c, pos, facing, dust)
  {
    if rules.solid(c) {
      var strongest := GetMaxStrongPower(rules, cells, pos, dust);
      p := Max(strongest, WeakPower(rules, c, facing, dust));
      return;
    }
    p := WeakPower(rules, c, facing, dust);
  }

  /** `is_emitting_redstone_power`. */
  predicate IsEmittingRedstonePower(rules: Rules, cells: map<Pos, Cell>, c: Cell, pos: Pos, facing: Direction)
  {
    RedstonePowerOf(rules, cells, c, pos, facing, true) > 0
  }

  /** The neighbour on side `facing` of `pos` emits toward `pos`. */
  predicate NeighbourEmits(rules: Rules, cells: map<Pos, Cell>, pos: Pos, facing: Direction)
  {
    var n := Offset(pos, facing);
    IsEmittingRedstonePower(rules, cells, CellAt(cells, n), n, facing)
  }

  predicate ReceivesRedstonePower(rules: Rules, cells: map<Pos, Cell>, pos: Pos)
  {
    exists d :: NeighbourEmits(rules, cells, pos, d)
  }

  /**
   * `block_receives_redstone_power`: scans the neighbours in
   * `BlockDirection::all()` order and answers true at the first emitting one.
   */
  method BlockReceivesRedstonePower(rules: Rules, cells: map<Pos, Cell>, pos: Pos) returns (b: bool)
    ensures b <==> exists d :: NeighbourEmits(rules, cells, pos, d)
    ensures b == ReceivesRedstonePower(rules, cells, pos)
  {
    var i := 0;
    while i < |AllDirections|
      invariant 0 <= i <= |AllDirections|
      invariant forall k :: 0 <= k < i ==> !NeighbourEmits(rules, cells, pos, AllDirections[k])
    {
      var facing := AllDirections[i];
      var n := Offset(pos, facing);
      var power := GetRedstonePower(rules, cells, CellAt(cells, n), n, facing, true);
      if power > 0 {
        assert NeighbourEmits(rules, cells, pos, facing);
        return true;
      }
      i := i + 1;
    }
    forall d ensures !NeighbourEmits(rules, cells, pos, d) {
      AllDirectionsComplete(d);
    }
    return false;
  }

  /** `is_diode`. */
  predicate IsDiode(b: Block)
  {
    b == Repeater || b == Comparator
  }

  /**
   * `diode_get_input_strength`: the redstone power of the input block; only
   * when that is 0 and the input is solid, the strongest weak power (wires
   * counted) around the input instead.
   */
  method DiodeGetInputStrength(rules: Rules, cells: map<Pos, Cell>, pos: Pos, facing: Direction) returns (s: nat)
    ensures var input := Offset(pos, facing);
            var power := RedstonePowerOf(rules, cells, CellAt(cells, input), input, facing, true);
            && s >= power
            && (power > 0 || !rules.solid(CellAt(cells, input)) ==> s == power)
            && (power == 0 && rules.solid(CellAt(cells, input)) ==>
                  s == MaxNeighbourPower(rules, cells, input, true, false, AllDirections)
                  && forall d :: NeighbourPower(rules, cells, input, d, true, false) <= s)
  {
    var inputPos := Offset(pos, facing);
    var input := CellAt(cells, inputPos);
    var power := GetRedstonePower(rules, cells, input, inputPos, facing, true);
    if power == 0 && rules.solid(input) {
      s := GetMaxWeakPower(rules, cells, inputPos, true);
      return;
    }
    s := power;
  }

  /** One round of `update_wire_neighbors`: a neighbour, then its six neighbours. */
  function NotifyRound(n: Pos): seq<Event>
  {
    [NeighborUpdate(n),
     NeighborUpdate(Offset(n, Down)), NeighborUpdate(Offset(n, Up)),
     NeighborUpdate(Offset(n, North)), NeighborUpdate(Offset(n, South)),
     NeighborUpdate(Offset(n, West)), NeighborUpdate(Offset(n, East))]
  }

  lemma NotifyRoundAt(n: Pos, j: nat)
    requires j < 6
    ensures NotifyRound(n)[0] == NeighborUpdate(n)
    ensures NotifyRound(n)[1 + j] == NeighborUpdate(Offset(n, AllDirections[j]))
  {
    if j == 0 {} else if j == 1 {} else if j == 2 {} else if j == 3 {} else if j == 4 {} else {}
  }

  /** The notifications of `update_wire_neighbors` for the rounds of `ds`. */
  function WireNeighborOrder(pos: Pos, ds: seq<Direction>): seq<Event>
    decreases |ds|
  {
    if ds == [] then [] else WireNeighborOrder(pos, ds[..|ds| - 1]) + NotifyRound(Offset(pos, ds[|ds| - 1]))
  }

  /** A sequence holding `m` at exactly one index holds it once. */
  lemma OccursOnce(s: seq<Event>, m: Event, j: nat)
    requires j < |s| && s[j] == m
    requires forall i :: 0 <= i < |s| && i != j ==> s[i] != m
    ensures multiset(s)[m] == 1
  {
    assert s == s[..j] + [m] + s[j + 1..];
    assert m !in s[..j];
    assert m !in s[j + 1..];
  }

  /** The neighbours of `n` include `pos` exactly once when `n` is next to `pos`. */
  lemma RoundMeetsOriginOnce(pos: Pos, d: Direction)
    ensures multiset(NotifyRound(Offset(pos, d)))[NeighborUpdate(pos)] == 1
  {
    var n := Offset(pos, d);
    var s := NotifyRound(n);
    OffsetOpposite(pos, d);
    AllDirectionsComplete(Opposite(d));
    var k :| 0 <= k < 6 && AllDirections[k] == Opposite(d);
    NotifyRoundAt(n, k);
    forall i | 0 <= i < 7 && i != 1 + k ensures s[i] != NeighborUpdate(pos) {
      if i > 0 {
        NotifyRoundAt(n, i - 1);
        OffsetTwiceReturns(pos, d, AllDirections[i - 1]);
      }
    }
    OccursOnce(s, NeighborUpdate(pos), 1 + k);
  }

  lemma {:induction false} WireNeighborOrderLength(pos: Pos, ds: seq<Direction>)
    ensures |WireNeighborOrder(pos, ds)| == 7 * |ds|
    decreases |ds|
  {
    if ds != [] {
      WireNeighborOrderLength(pos, ds[..|ds| - 1]);
    }
  }

  lemma {:induction false} WireNeighborOrderOrigin(pos: Pos, ds: seq<Direction>)
    ensures multiset(WireNeighborOrder(pos, ds))[NeighborUpdate(pos)] == |ds|
    decreases |ds|
  {
    if ds != [] {
      var front := ds[..|ds| - 1];
      WireNeighborOrderOrigin(pos, front);
      RoundMeetsOriginOnce(pos, ds[|ds| - 1]);
      assert WireNeighborOrder(pos, ds) == WireNeighborOrder(pos, front) + NotifyRound(Offset(pos, ds[|ds| - 1]));
    }
  }

  lemma {:induction false} WireNeighborOrderAt(pos: Pos, ds: seq<Direction>, k: nat, j: nat)
    requires k < |ds| && j < 7
    ensures 7 * k + j < |WireNeighborOrder(pos, ds)|
    ensures WireNeighborOrder(pos, ds)[7 * k + j] == NotifyRound(Offset(pos, ds[k]))[j]
    decreases |ds|
  {
    var front := ds[..|ds| - 1];
    WireNeighborOrderLength(pos, front);
    if k < |front| {
      WireNeighborOrderAt(pos, front, k, j);
      assert ds[k] == front[k];
    }
  }

  lemma WireNeighborRounds(pos: Pos)
    ensures |WireNeighborOrder(pos, AllDirections)| == 42
    ensures forall k :: 0 <= k < 6 ==>
              WireNeighborOrder(pos, AllDirections)[7 * k] == NeighborUpdate(Offset(pos, AllDirections[k]))
    ensures forall k, j :: 0 <= k < 6 && 0 <= j < 6 ==>
              WireNeighborOrder(pos, AllDirections)[7 * k + 1 + j] == NeighborUpdate(Offset(Offset(pos, AllDirections[k]), AllDirections[j]))
  {
    WireNeighborOrderLength(pos, AllDirections);
    forall k | 0 <= k < 6
      ensures WireNeighborOrder(pos, AllDirections)[7 * k] == NeighborUpdate(Offset(pos, AllDirections[k]))
    {
      WireNeighborOrderAt(pos, AllDirections, k, 0);
    }
    forall k, j | 0 <= k < 6 && 0 <= j < 6
      ensures WireNeighborOrder(pos, AllDirections)[7 * k + 1 + j] == NeighborUpdate(Offset(Offset(pos, AllDirections[k]), AllDirections[j]))
    {
      WireNeighborOrderAt(pos, AllDirections, k, 1 + j);
      NotifyRoundAt(Offset(pos, AllDirections[k]), j);
    }
  }

  /**
   * `update_wire_neighbors` notifies 42 positions: for each direction of
   * `BlockDirection::all()` the neighbour there, immediately followed by that
   * neighbour's six neighbours; the wire's own position is among them 6 times.
   */
  lemma WireNeighborNotifications(pos: Pos)
    ensures |WireNeighborOrder(pos, AllDirections)| == 42
    ensures multiset(WireNeighborOrder(pos, AllDirections))[NeighborUpdate(pos)] == 6
    ensures forall k :: 0 <= k < 6 ==>
              WireNeighborOrder(pos, AllDirections)[7 * k] == NeighborUpdate(Offset(pos, AllDirections[k]))
    ensures forall k, j :: 0 <= k < 6 && 0 <= j < 6 ==>
              WireNeighborOrder(pos, AllDirections)[7 * k + 1 + j] == NeighborUpdate(Offset(Offset(pos, AllDirections[k]), AllDirections[j]))
  {
    WireNeighborRounds(pos);
    WireNeighborOrderOrigin(pos, AllDirections);
  }

  /** The first `1 + j` notifications of a round, extended by the next. */
  lemma NotifyRoundPrefix(n: Pos, j: nat)
    requires j < 6
    ensures NotifyRound(n)[..1] == [NeighborUpdate(n)]
    ensures NotifyRound(n)[..2 + j] == NotifyRound(n)[..1 + j] + [NeighborUpdate(Offset(n, AllDirections[j]))]
  {
    NotifyRoundAt(n, j);
  }

  /** One more round appends that neighbour's notifications. */
  lemma WireNeighborOrderStep(pos: Pos, ds: seq<Direction>, i: nat)
    requires i < |ds|
    ensures WireNeighborOrder(pos, ds[..i + 1]) == WireNeighborOrder(pos, ds[..i]) + NotifyRound(Offset(pos, ds[i]))
  {
    assert ds[..i + 1][..i] == ds[..i];
  }

  /** One round of the outer loop: notify `neighbor`, then each of its six neighbours. */
  method NotifyRoundAround(w: World, neighbor: Pos)
    modifies w`events
    ensures w.events == old(w.events) + NotifyRound(neighbor)
  {
    var ds := AllDirections;
    w.Record(NeighborUpdate(neighbor));
    NotifyRoundPrefix(neighbor, 0);
    var j := 0;
    while j < |ds|
      invariant 0 <= j <= |ds|
      invariant w.events == old(w.events) + NotifyRound(neighbor)[..1 + j]
    {
      w.Record(NeighborUpdate(Offset(neighbor, ds[j])));
      NotifyRoundPrefix(neighbor, j);
      j := j + 1;
    }
    assert NotifyRound(neighbor)[..7] == NotifyRound(neighbor);
  }

  /** `update_wire_neighbors`: the 42 calls of the nested loop, in order. */
  method UpdateWireNeighbors(w: World, pos: Pos)
    modifies w`events
    ensures w.events == old(w.events) + WireNeighborOrder(pos, AllDirections)
  {
    var ds := AllDirections;
    var i := 0;
    while i < |ds|
      invariant 0 <= i <= |ds|
      invariant w.events == old(w.events) + WireNeighborOrder(pos, ds[..i])
    {
      NotifyRoundAround(w, Offset(pos, ds[i]));
      WireNeighborOrderStep(pos, ds, i);
      i := i + 1;
    }
    assert ds[..|ds|] == ds;
  }


}
