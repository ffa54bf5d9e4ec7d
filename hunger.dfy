// The player's hunger: food level, saturation, exhaustion and the timer
// that paces regeneration and starvation (pumpkin/src/entity/hunger.rs).
// `f32` values are modelled as reals.

module Hunger {

  datatype Difficulty = Peaceful | Easy | Normal | Hard

  /** The four cells of `HungerManager`, as one value. */
  datatype HungerState = HungerState(level: nat, saturation: real, exhaustion: real, timer: nat)

  /** What a tick asks of the player. */
  datatype Effect = SendHealth | Heal(amount: real) | StarveDamage(amount: real)

  /** The outcome of one tick: the new hunger state and the player effects, in order. */
  datatype TickResult = TickResult(state: HungerState, effects: seq<Effect>)

  const MaxExhaustion: real := 40.0
  const FullLevel: nat := 20

  /** `default()` and `restart()`. */
  const Initial: HungerState := HungerState(FullLevel, 5.0, 0.0, 0)

  function RealMin(a: real, b: real): real { if a <= b then a else b }
  function RealMax(a: real, b: real): real { if a >= b then a else b }

  /** `add_exhaustion`: adds, capped at 40. */
  function AddedExhaustion(exhaustion: real, amount: real): (r: real)
    ensures r <= MaxExhaustion
    ensures exhaustion + amount <= MaxExhaustion ==> r == exhaustion + amount
    ensures exhaustion + amount > MaxExhaustion ==> r == MaxExhaustion
  {
    RealMin(exhaustion + amount, MaxExhaustion)
  }

  /**
   * The first part of `tick`: with food left and more than 4 exhaustion,
   * 4 exhaustion is spent on a point of saturation or, with no saturation
   * and outside Peaceful, on a food level.
   */
  function Exhausted(h: HungerState, difficulty: Difficulty): (r: TickResult)
    ensures r.state.timer == h.timer
    ensures r.state.level <= h.level && h.level <= r.state.level + 1
    ensures r.state.level < h.level <==> h.level != 0 && h.exhaustion > 4.0 && h.saturation <= 0.0 && difficulty != Peaceful
    ensures r.effects == (if r.state.level < h.level then [SendHealth] else [])
    ensures !(h.level != 0 && h.exhaustion > 4.0) ==> r.state == h
    ensures h.level != 0 && h.exhaustion > 4.0 ==> r.state.exhaustion == h.exhaustion - 4.0
    ensures h.level != 0 && h.exhaustion > 4.0 && h.saturation > 0.0 ==>
              r.state.level == h.level
              && r.state.saturation == (if h.saturation >= 1.0 then h.saturation - 1.0 else 0.0)
    ensures h.saturation <= 0.0 ==> r.state.saturation == h.saturation
  {
    if h.level != 0 && h.exhaustion > 4.0 then
      var h1 := h.(exhaustion := h.exhaustion - 4.0);
      if h.saturation > 0.0 then TickResult(h1.(saturation := RealMax(h.saturation - 1.0, 0.0)), [])
      else if difficulty != Peaceful then TickResult(h1.(level := h.level - 1), [SendHealth])
      else TickResult(h1, [])
    else TickResult(h, [])
  }

  /** Whether starvation hurts: above 10 health always, in Hard always, in Normal above 1 health. */
  predicate StarvationHurts(health: real, difficulty: Difficulty)
  {
    health > 10.0 || difficulty == Hard || (health > 1.0 && difficulty == Normal)
  }

  /**
   * The second part of `tick`, which picks its branch from the level and
   * saturation read at the start (`start`) and works on the state left by
   * the first part (`mid`).
   */
  function Regenerated(start: HungerState, mid: HungerState, health: real, difficulty: Difficulty, canFoodHeal: bool): (r: TickResult)
    ensures r.state.level == mid.level && r.state.saturation == mid.saturation
    ensures r.state.timer < 80
    ensures r.state.timer == 0 || r.state.timer == mid.timer + 1
    ensures r.state.exhaustion == mid.exhaustion || (r.state.timer == 0 && |r.effects| == 1 && r.effects[0].Heal?)
    ensures forall k :: 0 <= k < |r.effects| ==>
              (r.effects[k].Heal? && 0.0 < r.effects[k].amount <= 1.0) || r.effects[k] == StarveDamage(1.0)
  {
    if start.saturation > 0.0 && canFoodHeal && start.level >= FullLevel then
      var t := mid.timer + 1;
      if t >= 10 then
        var s := RealMin(start.saturation, 6.0);
        TickResult(mid.(exhaustion := AddedExhaustion(mid.exhaustion, s), timer := 0), [Heal(s / 6.0)])
      else TickResult(mid.(timer := t), [])
    else if start.level >= 18 && canFoodHeal then
      var t := mid.timer + 1;
      if t >= 80 then TickResult(mid.(exhaustion := AddedExhaustion(mid.exhaustion, 6.0), timer := 0), [Heal(1.0)])
      else TickResult(mid.(timer := t), [])
    else if start.level == 0 then
      var t := mid.timer + 1;
      if t >= 80 then TickResult(mid.(timer := 0), if StarvationHurts(health, difficulty) then [StarveDamage(1.0)] else [])
      else TickResult(mid.(timer := t), [])
    else TickResult(mid.(timer := 0), [])
  }

  /** One whole `tick`. */
  function Ticked(h: HungerState, health: real, difficulty: Difficulty, canFoodHeal: bool): TickResult
  {
    var first := Exhausted(h, difficulty);
    var second := Regenerated(h, first.state, health, difficulty, canFoodHeal);
    TickResult(second.state, first.effects + second.effects)
  }

  /** The ranges the hunger cells stay in. */
  predicate Bounded(h: HungerState)
  {
    h.level <= FullLevel && h.saturation >= 0.0 && 0.0 <= h.exhaustion <= MaxExhaustion && h.timer < 80
  }

  /**
   * A tick keeps the cells in range: the level only falls (by at most one,
   * and never below 0), saturation and exhaustion stay non-negative and
   * exhaustion at most 40, and the timer stays below 80.
   */
  lemma TickKeepsBounds(h: HungerState, health: real, difficulty: Difficulty, canFoodHeal: bool)
    requires Bounded(h)
    ensures var r := Ticked(h, health, difficulty, canFoodHeal).state;
            Bounded(r) && r.level <= h.level && h.level <= r.level + 1
  {
    var first := Exhausted(h, difficulty);
    assert first.state.exhaustion >= 0.0 && first.state.saturation >= 0.0;
  }

  /** The timer falls back below 80 after any tick, whatever it was before. */
  lemma TimerStaysBelow80(h: HungerState, health: real, difficulty: Difficulty, canFoodHeal: bool)
    ensures Ticked(h, health, difficulty, canFoodHeal).state.timer < 80
  {
  }

  /**
   * The branch follows the values read at the start of the tick: a full
   * player whose last point of saturation is spent by this very tick still
   * takes the saturated branch (it heals 1/6 and adds 1 exhaustion).
   */
  lemma BranchUsesStartValues()
    ensures Ticked(HungerState(20, 1.0, 5.0, 9), 20.0, Normal, true)
            == TickResult(HungerState(20, 0.0, 2.0, 0), [Heal(1.0 / 6.0)])
  {
  }

  /** In Peaceful no tick ever lowers the food level. */
  lemma PeacefulNeverHungers(h: HungerState, health: real, canFoodHeal: bool)
    ensures Ticked(h, health, Peaceful, canFoodHeal).state.level == h.level
  {
  }

  /** The hunger state of a player (`HungerManager`), updated cell by cell. */
  class HungerManager {
    var level: nat
    var saturation: real
    var exhaustion: real
    var timer: nat

    function State(): HungerState
      reads this
    {
      HungerState(level, saturation, exhaustion, timer)
    }

    /** `default()`: level 20, saturation 5, no exhaustion, timer 0. */
    constructor ()
      ensures State() == Initial
    {
      level := 20;
      saturation := 5.0;
      exhaustion := 0.0;
      timer := 0;
    }

    /** `restart()`: back to the default values. */
    method Restart()
      modifies this
      ensures State() == Initial
    {
      level := 20;
      saturation := 5.0;
      exhaustion := 0.0;
      timer := 0;
    }

    /** `add_exhaustion`: only exhaustion changes, capped at 40. */
    method AddExhaustion(amount: real)
      modifies this`exhaustion
      ensures exhaustion == AddedExhaustion(old(exhaustion), amount)
    {
      exhaustion := RealMin(exhaustion + amount, MaxExhaustion);
    }

    /**
     * `tick`, given the player's health, the world's difficulty and
     * `can_food_heal`; it answers the heals, damage and health updates it
     * asks of the player.
     */
    method Tick(health: real, difficulty: Difficulty, canFoodHeal: bool) returns (effects: seq<Effect>)
      modifies this
      ensures State() == Ticked(old(State()), health, difficulty, canFoodHeal).state
      ensures effects == Ticked(old(State()), health, difficulty, canFoodHeal).effects
    {
      var start := State();
      var sat := saturation;
      var lvl := level;
      var exh := exhaustion;
      effects := [];
      if lvl != 0 && exh > 4.0 {
        exhaustion := exh - 4.0;
        if sat > 0.0 {
          saturation := RealMax(sat - 1.0, 0.0);
        } else if difficulty != Peaceful {
          level := lvl - 1;
          effects := effects + [SendHealth];
        }
      }
      assert State() == Exhausted(start, difficulty).state;
      if sat > 0.0 && canFoodHeal && lvl >= 20 {
        timer := timer + 1;
        if timer >= 10 {
          var s := RealMin(sat, 6.0);
          effects := effects + [Heal(s / 6.0)];
          AddExhaustion(s);
          timer := 0;
        }
      } else if lvl >= 18 && canFoodHeal {
        timer := timer + 1;
        if timer >= 80 {
          effects := effects + [Heal(1.0)];
          AddExhaustion(6.0);
          timer := 0;
        }
      } else if lvl == 0 {
        timer := timer + 1;
        if timer >= 80 {
          if StarvationHurts(health, difficulty) {
            effects := effects + [StarveDamage(1.0)];
          }
          timer := 0;
        }
      } else {
        timer := 0;
      }
    }
  }
}
