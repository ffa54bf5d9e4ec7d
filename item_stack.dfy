// Item stacks: a `u8` count of one item with a patch of data components,
// and the tool rules that decide mining speed and drops
// (pumpkin-world/src/item/mod.rs).

module Items {
  import opened Common

  /** An unsigned byte, the width of `item_count`. */
  type U8 = x: int | 0 <= x < 256

  const U8Max: U8 := 255

  /** `u8::saturating_sub`. */
  function SaturatingSub(a: U8, b: U8): (r: U8)
    ensures r <= a
    ensures r == 0 || r + b == a
    ensures b <= a ==> r + b == a
  {
    if a >= b then a - b else 0
  }

  /** `u8::saturating_add`. */
  function SaturatingAdd(a: U8, b: U8): (r: U8)
    ensures a <= r
    ensures r == U8Max || r == a + b
    ensures a + b <= U8Max ==> r == a + b
  {
    if a + b <= U8Max then a + b else U8Max
  }

  datatype GameMode = Survival | Creative | Adventure | Spectator

  /** The data components the modelled operations look up; every other is `OtherComponent`. */
  datatype ComponentKind = MaxStackSize | Tool | OtherComponent(id: nat)

  /** A tool rule's block set: a block tag, or a list of block ids. */
  datatype IdSet = Tag(tag: string) | Blocks(blocks: seq<nat>)

  datatype ToolRule = ToolRule(blocks: IdSet, speed: Option<real>, correctForDrops: Option<bool>)

  datatype ToolData = ToolData(rules: seq<ToolRule>, defaultMiningSpeed: real)

  datatype ComponentValue =
    | MaxStackSizeValue(size: U8)
    | ToolValue(tool: ToolData)
    | OtherValue(id: nat)

  /** An item type with its default components, in declaration order. */
  datatype Item = Item(id: nat, components: seq<(ComponentKind, ComponentValue)>)

  const AirId: nat := 0

  /** `Item::AIR` (its default components are not modelled). */
  const AirItem: Item := Item(AirId, [])

  /** A stack's changes to the item's components; `None` removes the component. */
  type Patch = seq<(ComponentKind, Option<ComponentValue>)>

  /** The index of the first entry of `kind`, or `|entries|` when there is none. */
  function FirstOfKind<V>(entries: seq<(ComponentKind, V)>, kind: ComponentKind): (i: nat)
    ensures i <= |entries|
    ensures forall j :: 0 <= j < i ==> entries[j].0 != kind
    ensures i < |entries| ==> entries[i].0 == kind
    decreases |entries|
  {
    if entries == [] then 0
    else if entries[0].0 == kind then 0
    else 1 + FirstOfKind(entries[1..], kind)
  }

  /**
   * `get_data_component`: the first patch entry of the kind decides, even
   * when it is a removal; only a stack whose patch does not mention the kind
   * falls back to the item's first default of that kind.
   */
  function DataComponent(item: Item, patch: Patch, kind: ComponentKind): (r: Option<ComponentValue>)
    ensures var i := FirstOfKind(patch, kind);
            i < |patch| ==> r == patch[i].1
    ensures (forall j :: 0 <= j < |patch| ==> patch[j].0 != kind) ==>
              var k := FirstOfKind(item.components, kind);
              (k < |item.components| ==> r == Some(item.components[k].1))
              && (k == |item.components| ==> r == Option.None)
    ensures r.Some? ==> (exists j :: 0 <= j < |patch| && patch[j].0 == kind && patch[j].1 == r)
                        || (exists j :: 0 <= j < |item.components| && item.components[j] == (kind, r.value))
  {
    var i := FirstOfKind(patch, kind);
    if i < |patch| then patch[i].1
    else
      var k := FirstOfKind(item.components, kind);
      if k < |item.components| then Some(item.components[k].1) else Option.None
  }

  /** `get_max_stack_size`: the `MaxStackSize` component's size, 1 without one. */
  function MaxStackSizeOf(item: Item, patch: Patch): (r: U8)
    ensures DataComponent(item, patch, MaxStackSize).None? ==> r == 1
    ensures forall s :: DataComponent(item, patch, MaxStackSize) == Some(MaxStackSizeValue(s)) ==> r == s
  {
    match DataComponent(item, patch, MaxStackSize)
    case Some(MaxStackSizeValue(s)) => s
    case _ => 1
  }

  /** Whether a tool rule's block set contains `block` (`tags` answers `is_tagged_with_by_tag`). */
  predicate RuleMatches(rule: ToolRule, block: nat, tags: (nat, string) -> bool)
  {
    match rule.blocks
    case Tag(t) => tags(block, t)
    case Blocks(bs) => block in bs
  }

  /** The index of the first rule that has a speed and matches `block`, or `|rules|`. */
  function FirstSpeedRule(rules: seq<ToolRule>, block: nat, tags: (nat, string) -> bool): (i: nat)
    ensures i <= |rules|
    ensures forall j :: 0 <= j < i ==> !(rules[j].speed.Some? && RuleMatches(rules[j], block, tags))
    ensures i < |rules| ==> rules[i].speed.Some? && RuleMatches(rules[i], block, tags)
    decreases |rules|
  {
    if rules == [] then 0
    else if rules[0].speed.Some? && RuleMatches(rules[0], block, tags) then 0
    else 1 + FirstSpeedRule(rules[1..], block, tags)
  }

  /** The index of the first rule that sets `correct_for_drops` and matches `block`, or `|rules|`. */
  function FirstDropsRule(rules: seq<ToolRule>, block: nat, tags: (nat, string) -> bool): (i: nat)
    ensures i <= |rules|
    ensures forall j :: 0 <= j < i ==> !(rules[j].correctForDrops.Some? && RuleMatches(rules[j], block, tags))
    ensures i < |rules| ==> rules[i].correctForDrops.Some? && RuleMatches(rules[i], block, tags)
    decreases |rules|
  {
    if rules == [] then 0
    else if rules[0].correctForDrops.Some? && RuleMatches(rules[0], block, tags) then 0
    else 1 + FirstDropsRule(rules[1..], block, tags)
  }

  /**
   * `get_speed`: without a tool, 1.0; with one, the speed of the first rule
   * that has a speed and matches the block, else the tool's default speed.
   */
  function SpeedOf(item: Item, patch: Patch, block: nat, tags: (nat, string) -> bool): (r: real)
    ensures DataComponent(item, patch, Tool).None? ==> r == 1.0
    ensures forall t :: DataComponent(item, patch, Tool) == Some(ToolValue(t)) ==>
              var i := FirstSpeedRule(t.rules, block, tags);
              (i < |t.rules| ==> r == t.rules[i].speed.value) && (i == |t.rules| ==> r == t.defaultMiningSpeed)
  {
    match DataComponent(item, patch, Tool)
    case Some(ToolValue(t)) =>
      var i := FirstSpeedRule(t.rules, block, tags);
      if i < |t.rules| then t.rules[i].speed.value else t.defaultMiningSpeed
    case _ => 1.0
  }

  /** `is_correct_for_drops`: the first matching rule that decides; false without one or without a tool. */
  predicate CorrectForDrops(item: Item, patch: Patch, block: nat, tags: (nat, string) -> bool)
  {
    match DataComponent(item, patch, Tool)
    case Some(ToolValue(t)) =>
      var i := FirstDropsRule(t.rules, block, tags);
      i < |t.rules| && t.rules[i].correctForDrops.value
    case _ => false
  }

  /** A rule that decides drops wins over every later rule, whatever they say. */
  lemma FirstDropsRuleDecides(t: ToolData, patch: Patch, item: Item, block: nat, tags: (nat, string) -> bool, i: nat)
    requires DataComponent(item, patch, Tool) == Some(ToolValue(t))
    requires i < |t.rules| && t.rules[i].correctForDrops.Some? && RuleMatches(t.rules[i], block, tags)
    requires forall j :: 0 <= j < i ==> t.rules[j].correctForDrops.None? || !RuleMatches(t.rules[j], block, tags)
    ensures CorrectForDrops(item, patch, block, tags) == t.rules[i].correctForDrops.value
  {
  }

  /** A removal in the patch hides the item's default: the stack has no such component. */
  lemma RemovalHidesDefault(item: Item, patch: Patch, kind: ComponentKind, i: nat)
    requires i < |patch| && patch[i] == (kind, Option.None)
    requires forall j :: 0 <= j < i ==> patch[j].0 != kind
    ensures DataComponent(item, patch, kind) == Option.None
  {
  }

  /** An item stack (`ItemStack`): the count is updated in place. */
  class ItemStack {
    var count: U8
    var item: Item
    var patch: Patch

    /** `ItemStack::new`: no patch. */
    constructor (count: U8, item: Item)
      ensures this.count == count && this.item == item && patch == []
    {
      this.count := count;
      this.item := item;
      patch := [];
    }

    /** `is_empty`: no items, or air. */
    predicate IsEmpty()
      reads this
    {
      count == 0 || item.id == AirId
    }

    /** `get_item`: air for an empty stack. */
    function GetItem(): (r: Item)
      reads this
      ensures IsEmpty() ==> r == AirItem
      ensures !IsEmpty() ==> r == item && r.id != AirId
    {
      if IsEmpty() then AirItem else item
    }

    function GetDataComponent(kind: ComponentKind): Option<ComponentValue>
      reads this
    {
      DataComponent(item, patch, kind)
    }

    function GetMaxStackSize(): U8
      reads this
    {
      MaxStackSizeOf(item, patch)
    }

    /** `is_stackable`: the maximum stack size exceeds 1; a stack without the component is not stackable. */
    predicate IsStackable()
      reads this
    {
      GetMaxStackSize() > 1
    }

    /** `copy_with_count`: a new stack with the same item and patch. */
    method CopyWithCount(c: U8) returns (stack: ItemStack)
      ensures fresh(stack)
      ensures stack.count == c && stack.item == item && stack.patch == patch
    {
      stack := new ItemStack(c, item);
      stack.patch := patch;
    }

    method SetCount(c: U8)
      modifies this`count
      ensures count == c
    {
      count := c;
    }

    /** `decrement`: saturates at 0. */
    method Decrement(amount: U8)
      modifies this`count
      ensures count == SaturatingSub(old(count), amount)
    {
      count := SaturatingSub(count, amount);
    }

    /** `increment`: saturates at 255. */
    method Increment(amount: U8)
      modifies this`count
      ensures count == SaturatingAdd(old(count), amount)
    {
      count := SaturatingAdd(count, amount);
    }

    /** `split`: takes off up to `amount` items; together the two stacks hold what this one held. */
    method Split(amount: U8) returns (stack: ItemStack)
      modifies this`count
      ensures fresh(stack)
      ensures stack.count == Min(amount, old(count))
      ensures stack.count + count == old(count)
      ensures stack.item == item && stack.patch == patch
    {
      var m := Min(amount, count);
      stack := CopyWithCount(m);
      Decrement(m);
    }

    /** `split_unless_creative`: as `split`, except that in Creative this stack keeps its count. */
    method SplitUnlessCreative(mode: GameMode, amount: U8) returns (stack: ItemStack)
      modifies this`count
      ensures fresh(stack)
      ensures stack.count == Min(amount, old(count))
      ensures mode == Creative ==> count == old(count)
      ensures mode != Creative ==> stack.count + count == old(count)
      ensures stack.item == item && stack.patch == patch
    {
      var m := Min(amount, count);
      stack := CopyWithCount(m);
      if mode != Creative {
        Decrement(m);
      }
    }

    /** `are_items_and_components_equal`: the same item (components are not compared). */
    predicate AreItemsAndComponentsEqual(other: ItemStack)
      reads this, other
    {
      item == other.item
    }

    /** `are_equal`: equal counts and the same item. */
    predicate AreEqual(other: ItemStack)
      reads this, other
    {
      count == other.count && AreItemsAndComponentsEqual(other)
    }
  }
}
