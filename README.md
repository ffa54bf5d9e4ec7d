# Pumpkin game logic, modelled in Dafny

This project models a set of deterministic, sequential pieces of the Pumpkin
Minecraft server (written in Rust) and proves properties about them:

- the multi-noise **biome parameter-tree search** generated by the data build,
  with its warm-start hint and its cache slot;
- the **redstone** engine: wire shapes (dot, cross, side regulation), the power
  a wire computes from its neighbours, weak/strong power and the dust gate, the
  42-step wire neighbour notification, and the diode input;
- the **integer bookkeeping of Perlin noise construction**: the Fisher–Yates
  permutation built from bounded RNG draws, `map`, `calculate_amplitudes`, and
  which octave slots get a sampler in legacy and modern mode;
- small **block state machines**: the redstone lamp, the composter, iron bars
  and beds;
- stateful records: the **item stack**, the player's **hunger** and the `/op`
  command's operator list;
- tables and builders: the **block registry** fallbacks, **text components**
  and chat decoration, **hover events**, the **dimension type** names, the
  generated **status-effect** name tables and the list of **synced registries**.

The world is a map from block position to a cell (block kind and properties).
`World` is a class whose methods write cells, schedule block ticks and record
events (neighbour notifications, broken blocks, bone meal drops, explosions).
Solidity, face solidity, replaceability, tags and the per-block power callbacks
are uninterpreted functions in a `Rules` record. Every awaited world read
becomes a map lookup, and every `set_block_state` becomes a map update.

One module per source file:

| file | module | source |
|---|---|---|
| common.dfy | Common | directions, positions, `Option`, max over a list |
| world.dfy | BlockWorld | block kinds, cells and the `World` class |
| biome_tree.dfy | BiomeSearch | pumpkin-data/build/biome.rs |
| wire_shape.dfy, redstone_wire.dfy | WireShape, RedstoneWire | pumpkin/src/block/blocks/redstone/redstone_wire.rs |
| redstone_power.dfy | RedstonePower | pumpkin/src/block/blocks/redstone/mod.rs |
| perlin.dfy | Perlin | pumpkin-util/src/noise/perlin.rs |
| redstone_lamp.dfy | RedstoneLamp | pumpkin/src/block/blocks/redstone/redstone_lamp.rs |
| iron_bars.dfy | IronBars | pumpkin/src/block/blocks/iron_bars.rs |
| composter.dfy | Composter | pumpkin/src/block/blocks/composter.rs |
| bed.dfy | Beds | pumpkin/src/block/blocks/bed.rs |
| item_stack.dfy | Items | pumpkin-world/src/item/mod.rs |
| hunger.dfy | Hunger | pumpkin/src/entity/hunger.rs |
| op_command.dfy | OpCommand | pumpkin/src/command/commands/op.rs |
| block_registry.dfy | BlockRegistry | pumpkin/src/block/registry.rs |
| text.dfy, hover.dfy | Text, Hover | pumpkin-util/src/text/mod.rs, hover.rs |
| registry.dfy | SyncedRegistries | pumpkin-registry/src/lib.rs |
| status_effect.dfy | StatusEffects | pumpkin-data/build/status_effect.rs |

Code that works step by step is modelled imperatively and proved against a
specification function. This covers the tree-search loop, `calculate_power`,
the maximum-power loops, the permutation shuffle on an `array`, the octave slot
filling, the `/op` target loop, the hunger tick and the world-writing block
callbacks. Each method's `ensures` ties its result or new state to that
function, and the properties the source promises are proved about the function
as lemmas.

## Model

| member | source | states |
|---|---|---|
| Common.Opposite | pumpkin/src/block/registry.rs:755-757 | the opposite direction differs from the direction and is horizontal exactly when it is |
| Common.OffsetOpposite | pumpkin/src/block/registry.rs:750-757 | stepping in a direction and then in its opposite returns to the start; a step always moves |
| Common.OffsetTwiceReturns | pumpkin/src/block/blocks/bed.rs:144-155 | two steps return to the start exactly when the second is the opposite of the first |
| Common.AllDirectionsComplete | pumpkin/src/block/blocks/redstone/mod.rs:96-136 | the six-direction list holds every direction, and the horizontal list holds exactly the horizontal ones |
| Common.MaxOfAppend | pumpkin/src/block/blocks/redstone/mod.rs:96-115 | the running maximum after one more value is the max of the old maximum and that value |
| Common.MaxOfIsMaximum | pumpkin/src/block/blocks/redstone/mod.rs:96-136 | the maximum of a list bounds every element and is 0 or one of the elements |
| BiomeSearch.CalcDistance | pumpkin-data/build/biome.rs:415-423 | never negative; 0 exactly when min ≤ noise ≤ max; otherwise the gap to the violated bound |
| BiomeSearch.CalcDistanceMonotone | pumpkin-data/build/biome.rs:415-423 | an enclosing range is never farther from a noise value than the range it encloses |
| BiomeSearch.SquaredSumZero | pumpkin-data/build/biome.rs:490-504 | the squared distance is non-negative and is 0 exactly when the point lies in every range |
| BiomeSearch.InsideSplits | pumpkin-data/build/biome.rs:496-503 | being inside all zipped ranges means being inside the first and inside the rest |
| BiomeSearch.SquaredSumMonotone | pumpkin-data/build/biome.rs:490-504 | ranges that enclose other ranges axis by axis give a squared distance no larger |
| BiomeSearch.LeavesAreLeaves | pumpkin-data/build/biome.rs:426-436 | anything reached as a leaf of a tree is a `Leaf` node |
| BiomeSearch.NodeBoundsLeaves | pumpkin-data/build/biome.rs:455-488 | when branch ranges enclose their children, a node's distance lower-bounds each of its leaves' |
| BiomeSearch.ScanBound | pumpkin-data/build/biome.rs:468-483 | the loop only returns a node no farther than the running best, strictly closer unless it is the best it started with |
| BiomeSearch.BranchNeverFartherThanHint | pumpkin-data/build/biome.rs:463-483 | on a branch the result is never farther than the hint (or `i64::MAX`), and strictly closer unless it is the hint |
| BiomeSearch.LeafResolvesToItself | pumpkin-data/build/biome.rs:461 | a leaf resolves to itself whatever the point or hint |
| BiomeSearch.ResolveOrigin | pumpkin-data/build/biome.rs:455-488 | the result is a leaf of the tree or the hint itself |
| BiomeSearch.ScanOrigin | pumpkin-data/build/biome.rs:468-483 | the loop's result is the best it started with or a leaf of one of the remaining children |
| BiomeSearch.HintPreventsPanic | pumpkin-data/build/biome.rs:463-485 | with a hint the final `expect` never fails |
| BiomeSearch.ScanWithBestFinds | pumpkin-data/build/biome.rs:468-485 | with a best node in hand the loop always finds something |
| BiomeSearch.EmptyBranchPanics | pumpkin-data/build/biome.rs:485 | a branch with no children and no hint reaches the panic |
| BiomeSearch.ResolveIsNearest | pumpkin-data/build/biome.rs:455-488 | under enclosure the result has minimum squared distance over all leaves of the tree |
| BiomeSearch.ScanIsNearest | pumpkin-data/build/biome.rs:468-483 | under enclosure the loop's result is no farther than any leaf of any child |
| BiomeSearch.HintDoesNotChangeMinimum | pumpkin-data/build/biome.rs:455-488 | a hint that is a leaf of the tree leaves the minimum distance found unchanged |
| BiomeSearch.GetResultingNode | pumpkin-data/build/biome.rs:455-488 | the loop with its mutable distance and best node returns the node the search function defines; a leaf returns itself; a branch is never farther than the hint |
| BiomeSearch.Cache.Get | pumpkin-data/build/biome.rs:440-453 | writes the resulting leaf into the cache slot and returns that leaf's biome |
| BiomeSearch.FromName | pumpkin-data/build/biome.rs:378-383 | a found biome is registered under that name; none exactly when no biome has it |
| BiomeSearch.FromId | pumpkin-data/build/biome.rs:385-390 | a found biome has that id; none exactly when no biome has it |
| BiomeSearch.LookupsRoundTrip | pumpkin-data/build/biome.rs:378-390 | every registered biome is found again by its name and by its id |
| BiomeSearch.ParseBiome | pumpkin-data/build/biome.rs:365-368 | a `minecraft:`-prefixed string is looked up without its prefix, any other string as it is; a result is always a registered biome |
| BiomeSearch.ParseBiomeAcceptsBothForms | pumpkin-data/build/biome.rs:365-368 | a biome name parses with and without the namespace |
| BiomeSearch.ParseBiomeRejectsUnknown | pumpkin-data/build/biome.rs:365-368 | a string that is no biome's name, with or without `minecraft:`, is an error |
| WireShape.MakeCross | pumpkin/src/block/blocks/redstone/redstone_wire.rs:230-238 | the result is a cross and not a dot, with the given power |
| WireShape.DotAndCrossExclusive | pumpkin/src/block/blocks/redstone/redstone_wire.rs:315-328 | no wire is both a dot and a cross |
| WireShape.WithSide | pumpkin/src/block/blocks/redstone/redstone_wire.rs:339-357 | setting one side changes that side only and keeps the power |
| WireShape.WirePowerFaces | pumpkin/src/block/blocks/redstone/redstone_wire.rs:170-188 | a wire's power toward a face is its power from `Up` or when the opposite side is connected, 0 otherwise |
| BlockWorld.WireOfBounded | pumpkin/src/block/blocks/redstone/redstone_wire.rs:498-506 | a wire read from a world of valid wires has power at most 15 |
| RedstonePower.DustGate | pumpkin/src/block/blocks/redstone/mod.rs:138-170 | a wire gives 0 weak and strong power when dust is not counted; any other block gives its registry callback's value |
| RedstonePower.NeighbourPowers | pumpkin/src/block/blocks/redstone/mod.rs:96-136 | one power per direction scanned |
| RedstonePower.MaxPowerIsMaximum | pumpkin/src/block/blocks/redstone/mod.rs:96-136 | the maximum neighbour power bounds every neighbour's and is 0 or attained |
| RedstonePower.GetMaxPower | pumpkin/src/block/blocks/redstone/mod.rs:96-136 | the loop accumulating `max_power` over the six directions returns the maximum |
| RedstonePower.MaxNeighbourPowerStep | pumpkin/src/block/blocks/redstone/mod.rs:96-136 | taking one more direction into the maximum takes the larger of the old maximum and that neighbour's power |
| RedstonePower.GetMaxStrongPower | pumpkin/src/block/blocks/redstone/mod.rs:96-115 | the strongest strong power toward the block, 0 if all are 0 |
| RedstonePower.GetMaxWeakPower | pumpkin/src/block/blocks/redstone/mod.rs:117-136 | the strongest weak power toward the block, 0 if all are 0 |
| RedstonePower.RedstonePowerCases | pumpkin/src/block/blocks/redstone/mod.rs:64-94 | a non-solid block's power is its weak power; a solid one's is the max of its neighbours' strong power and its weak power, so never below the weak power |
| RedstonePower.GetRedstonePower | pumpkin/src/block/blocks/redstone/mod.rs:64-94 | `get_redstone_power`, and `_no_dust` when dust is not counted, compute that power |
| RedstonePower.IsEmittingRedstonePower | pumpkin/src/block/blocks/redstone/mod.rs:54-62 | a block emits toward a side exactly when its redstone power toward that side is above 0 |
| RedstonePower.BlockReceivesRedstonePower | pumpkin/src/block/blocks/redstone/mod.rs:172-181 | true exactly when some neighbour emits toward the block; the scan stops at the first |
| RedstonePower.IsDiode | pumpkin/src/block/blocks/redstone/mod.rs:184-186 | exactly repeaters and comparators are diodes |
| RedstonePower.DiodeGetInputStrength | pumpkin/src/block/blocks/redstone/mod.rs:188-196 | the input's redstone power, or, when that is 0 and the input is solid, the max weak power (dust counted) around the input |
| RedstonePower.NotifyRoundAt | pumpkin/src/block/blocks/redstone/mod.rs:42-49 | a round notifies a neighbour and then that neighbour's six neighbours, in direction order |
| RedstonePower.RoundMeetsOriginOnce | pumpkin/src/block/blocks/redstone/mod.rs:42-49 | each round notifies the origin exactly once |
| RedstonePower.WireNeighborOrderLength | pumpkin/src/block/blocks/redstone/mod.rs:34-52 | seven notifications per direction |
| RedstonePower.WireNeighborOrderOrigin | pumpkin/src/block/blocks/redstone/mod.rs:34-52 | the origin is notified once per direction |
| RedstonePower.WireNeighborOrderAt | pumpkin/src/block/blocks/redstone/mod.rs:34-52 | notification 7k+j is the j-th of round k |
| RedstonePower.WireNeighborRounds | pumpkin/src/block/blocks/redstone/mod.rs:34-52 | 42 notifications: each neighbour, followed by that neighbour's six neighbours |
| RedstonePower.WireNeighborNotifications | pumpkin/src/block/blocks/redstone/mod.rs:34-52 | 42 notifications in that order, six of them to the origin |
| RedstonePower.UpdateWireNeighbors | pumpkin/src/block/blocks/redstone/mod.rs:34-52 | the nested loop issues exactly that notification sequence |
| RedstonePower.NotifyRoundAround | pumpkin/src/block/blocks/redstone/mod.rs:36-50 | one outer round appends the neighbour's notification and then its six neighbours', in direction order |
| RedstonePower.WireNeighborOrderStep | pumpkin/src/block/blocks/redstone/mod.rs:35-51 | each further direction of the outer loop appends exactly one round |
| RedstoneWire.CanPlaceAt | pumpkin/src/block/blocks/redstone/redstone_wire.rs:199-202 | a wire can be placed exactly where the block below is solid on its top face |
| RedstoneWire.CanConnectTo | pumpkin/src/block/blocks/redstone/redstone_wire.rs:240-264 | a power emitter toward the side always connects; a repeater only along its axis; an observer only facing that side; another wire always; nothing else |
| RedstoneWire.GetSide | pumpkin/src/block/blocks/redstone/redstone_wire.rs:270-300 | Side for a connectable neighbour, Up for a wire diagonally above under a non-solid block, Side for a wire diagonally below a non-solid neighbour, else None (the order is stated by RedstoneWire.GetSideOrder) |
| RedstoneWire.GetSideOrder | pumpkin/src/block/blocks/redstone/redstone_wire.rs:270-300 | `Side` if it can connect; else `Up` if the block above is not solid and the diagonal-up cell is wire; else `Side` via the diagonal-down wire; else `None` |
| RedstoneWire.RegulationFacts | pumpkin/src/block/blocks/redstone/redstone_wire.rs:330-358 | two dots give a dot; only `None` sides change, and only to `Side`; the power is kept; a non-dot result never has exactly one connected side |
| RedstoneWire.GetRegulatedSides | pumpkin/src/block/blocks/redstone/redstone_wire.rs:330-358 | the field-by-field method computes the regulated shape and keeps the power |
| RedstoneWire.MaxWirePower | pumpkin/src/block/blocks/redstone/redstone_wire.rs:498-506 | the running wire power raised to the wire level at a position |
| RedstoneWire.WireInputs | pumpkin/src/block/blocks/redstone/redstone_wire.rs:519-541 | one wire input per direction scanned |
| RedstoneWire.BlockInputs | pumpkin/src/block/blocks/redstone/redstone_wire.rs:511-518 | one block input per direction scanned |
| RedstoneWire.CalculatedPowerIsMaximum | pumpkin/src/block/blocks/redstone/redstone_wire.rs:508-546 | the power is the max of the strongest non-dust neighbour power and the strongest wire power minus 1, saturating at 0 |
| RedstoneWire.CalculatedPowerBounded | pumpkin/src/block/blocks/redstone/redstone_wire.rs:508-546 | with all inputs at most 15 the power is at most 15 |
| RedstoneWire.BlockInputBounded | pumpkin/src/block/blocks/redstone/redstone_wire.rs:508-546 | when every registry power is at most 15, the non-wire input from each side is at most 15 |
| RedstoneWire.WireInputBounded | pumpkin/src/block/blocks/redstone/redstone_wire.rs:508-546 | when every stored wire level is at most 15, the wire input from each side is at most 15 |
| RedstoneWire.SideInputs | pumpkin/src/block/blocks/redstone/redstone_wire.rs:519-541 | one loop iteration reads the block power and the wire power of one side |
| RedstoneWire.InputsAppend | pumpkin/src/block/blocks/redstone/redstone_wire.rs:508-546 | the maxima over one more direction extend the maxima over the previous ones |
| RedstoneWire.CalculatePower | pumpkin/src/block/blocks/redstone/redstone_wire.rs:508-546 | the loop computes the calculated power |
| RedstoneWire.OnPlace | pumpkin/src/block/blocks/redstone/redstone_wire.rs:39-50 | the placed wire has the calculated power and the regulated shape, and a regulated dot becomes a cross |
| RedstoneWire.NeighborUpdateFacts | pumpkin/src/block/blocks/redstone/redstone_wire.rs:51-100 | an update from `Up` changes nothing; the power is kept; a non-dot wire never becomes a dot |
| RedstoneWire.GetStateForNeighborUpdate | pumpkin/src/block/blocks/redstone/redstone_wire.rs:51-100 | computes that shape update |
| RedstoneWire.OnNeighborUpdate | pumpkin/src/block/blocks/redstone/redstone_wire.rs:147-168 | an unsupported wire breaks; a wire whose power differs from the calculated one takes it and notifies its surroundings; otherwise nothing changes |
| RedstoneWire.UseToggles | pumpkin/src/block/blocks/redstone/redstone_wire.rs:204-229 | when all sides would be dots, using a dot makes a cross, using a cross makes a dot, and anything else is unchanged |
| RedstoneWire.OnUse | pumpkin/src/block/blocks/redstone/redstone_wire.rs:204-229 | a toggled wire is written and its neighbours are notified; otherwise nothing changes |
| RedstoneWire.NormalUse | pumpkin/src/block/blocks/redstone/redstone_wire.rs:137-145 | `Success` exactly when the wire toggled, `Pass` otherwise; on a toggle the toggled wire is written at the position and the 42 neighbour notifications are appended in loop order, otherwise cells and events are unchanged |
| Perlin.Random.constructor | pumpkin-util/src/noise/perlin.rs:193-203 | a random source with an empty draw log |
| Perlin.Random.NextF64 | pumpkin-util/src/noise/perlin.rs:18-20 | one float draw is logged |
| Perlin.Random.NextBoundedI32 | pumpkin-util/src/noise/perlin.rs:30 | the draw is below its bound and is logged |
| Perlin.Random.Skip | pumpkin-util/src/noise/perlin.rs:219 | one `skip(262)`-style entry is logged |
| Perlin.Random.NextSplitter | pumpkin-util/src/noise/perlin.rs:226 | one splitter draw is logged |
| Perlin.SplitString | pumpkin-util/src/noise/perlin.rs:229-231 | the sub-stream is named by its key and starts with an empty log |
| Perlin.BoundedDraws | pumpkin-util/src/noise/perlin.rs:22-32 | n bounded draws |
| Perlin.Drawn | pumpkin-util/src/noise/perlin.rs:22-32 | one offset per bounded draw |
| Perlin.DrawnValid | pumpkin-util/src/noise/perlin.rs:29-30 | each offset j at step i satisfies j < 256 − i |
| Perlin.Identity | pumpkin-util/src/noise/perlin.rs:22-27 | the initial table has 256 entries |
| Perlin.SwapAt | pumpkin-util/src/noise/perlin.rs:31 | a swap keeps the length |
| Perlin.Shuffle | pumpkin-util/src/noise/perlin.rs:22-32 | the shuffled table has 256 entries |
| Perlin.SwapKeepsElements | pumpkin-util/src/noise/perlin.rs:31 | a swap keeps the multiset of entries |
| Perlin.ShuffleIsPermutation | pumpkin-util/src/noise/perlin.rs:22-32 | the Fisher–Yates shuffle yields a permutation of 0..255 |
| Perlin.PermutationEntries | pumpkin-util/src/noise/perlin.rs:22-32 | a permutation's entries are in 0..255 and every value occurs |
| Perlin.NewSampler | pumpkin-util/src/noise/perlin.rs:17-41 | three float draws, then 256 bounded draws with bounds 256, 255, …, 1; the array holds a permutation |
| Perlin.DrawnStep | pumpkin-util/src/noise/perlin.rs:29-30 | draw i has bound 256 − i and is taken from the log after the earlier draws |
| Perlin.ShuffleTable | pumpkin-util/src/noise/perlin.rs:29-32 | the in-place swap loop on the array yields the shuffle of the drawn offsets |
| Perlin.Swap | pumpkin-util/src/noise/perlin.rs:31 | `permutation.swap` exchanges two entries of the array and leaves the rest |
| Perlin.ShuffleStep | pumpkin-util/src/noise/perlin.rs:29-32 | round i swaps entry i with entry i + j, where j is the i-th drawn offset |
| Perlin.ShuffledStep | pumpkin-util/src/noise/perlin.rs:29-32 | one round adds one bounded draw to the log and one swap to the table, keeping both in step with the drawn offsets |
| Perlin.Map | pumpkin-util/src/noise/perlin.rs:93-95 | the table entry at the input's low eight bits (range and period stated by Perlin.MapFacts) |
| Perlin.MapFacts | pumpkin-util/src/noise/perlin.rs:93-95 | `map` is in 0..255, repeats with period 256, and indexes the table directly for 0..255 |
| Perlin.MinInt | pumpkin-util/src/noise/perlin.rs:174-177 | the smallest octave |
| Perlin.MaxInt | pumpkin-util/src/noise/perlin.rs:174-178 | the largest octave |
| Perlin.AmplitudeMaskEntries | pumpkin-util/src/noise/perlin.rs:173-191 | entry k is 1.0 when octave min + k was requested and 0.0 otherwise |
| Perlin.AmplitudeMaskMeaning | pumpkin-util/src/noise/perlin.rs:173-191 | the list has length max − min + 1 and is 1.0 at both ends |
| Perlin.AmplitudeExamples | pumpkin-util/src/noise/perlin.rs:315-350 | `[1,2,3]` gives `(1, [1,1,1])` and `[0]` gives `(0, [1])` |
| Perlin.CalculateAmplitudes | pumpkin-util/src/noise/perlin.rs:173-191 | the sort-and-fill method returns the smallest octave and the amplitude list |
| Perlin.Pow2Step | pumpkin-util/src/noise/perlin.rs:237-253 | the lacunarity doubles from one octave to the next and stays positive |
| Perlin.LacunarityExamples | pumpkin-util/src/noise/perlin.rs:237-253 | the lacunarity of octaves 1, 0 and −2 is 2, 1 and 0.25 |
| Perlin.NatToString | pumpkin-util/src/noise/perlin.rs:229-231 | decimal digits only, never empty |
| Perlin.NatToStringInjective | pumpkin-util/src/noise/perlin.rs:229-231 | distinct numbers print differently |
| Perlin.IntToStringSign | pumpkin-util/src/noise/perlin.rs:229-231 | a leading `-` exactly for negative numbers |
| Perlin.OctaveNameInjective | pumpkin-util/src/noise/perlin.rs:229-231 | distinct octaves name distinct sub-streams |
| Perlin.ModernStreamsDistinct | pumpkin-util/src/noise/perlin.rs:225-235 | two slots in modern mode never share a sub-stream |
| Perlin.SamplerDrawCounts | pumpkin-util/src/noise/perlin.rs:17-32 | a sampler makes 259 draws, three of them floats and none a skip |
| Perlin.LegacyDrawCounts | pumpkin-util/src/noise/perlin.rs:213-224 | the legacy walk skips once per index without a sampler and draws three floats per sampler built |
| Perlin.SlotOccupancy | pumpkin-util/src/noise/perlin.rs:204-235 | legacy slots hold a sampler exactly at indices up to j with nonzero amplitude; modern slots exactly where the amplitude is nonzero, from their own octave stream |
| Perlin.LegacySlots | pumpkin-util/src/noise/perlin.rs:204-224 | one slot per amplitude |
| Perlin.ModernSlots | pumpkin-util/src/noise/perlin.rs:225-235 | one slot per amplitude |
| Perlin.LegacyVisit | pumpkin-util/src/noise/perlin.rs:214-223 | one index of the walk: a sampler when the index is in range with nonzero amplitude, else `skip(262)` |
| Perlin.FillLegacy | pumpkin-util/src/noise/perlin.rs:204-224 | one sampler first, kept only at j = −first_octave, then the walk from j − 1 down to 0; the slots and the draw log are those the specification gives |
| Perlin.LegacyLogStep | pumpkin-util/src/noise/perlin.rs:213-224 | the walk reaches index m − 1 with the log of the first sampler and the indices above, then adds that index's draws |
| Perlin.WalkStart | pumpkin-util/src/noise/perlin.rs:205-211 | before the walk only slot j can hold a sampler, built from the parent log as it was |
| Perlin.WalkStep | pumpkin-util/src/noise/perlin.rs:213-224 | visiting index m − 1 extends the log by its draws and fixes its slot, leaving the lower slots empty |
| Perlin.WalkDone | pumpkin-util/src/noise/perlin.rs:204-224 | the finished walk leaves exactly the slots of legacy construction |
| Perlin.FillModern | pumpkin-util/src/noise/perlin.rs:225-235 | the parent supplies one splitter, and each slot is filled from its octave's sub-stream |
| Perlin.FillStep | pumpkin-util/src/noise/perlin.rs:227-234 | visiting slot k stores the sampler of octave first + k's own stream when its amplitude is nonzero |
| Perlin.FillDone | pumpkin-util/src/noise/perlin.rs:225-235 | the finished loop leaves exactly the slots of modern construction |
| Perlin.CollectedEntries | pumpkin-util/src/noise/perlin.rs:238-270 | every kept sampler comes from a filled slot and carries that slot's permutation, amplitude and lacunarity 2^(first_octave+slot) |
| Perlin.CollectedOrdered | pumpkin-util/src/noise/perlin.rs:238-270 | the kept samplers are in strictly ascending slot order |
| Perlin.CollectedComplete | pumpkin-util/src/noise/perlin.rs:238-270 | every filled slot is kept |
| Perlin.CollectedFacts | pumpkin-util/src/noise/perlin.rs:238-270 | the kept data are exactly the filled slots in ascending order, each with its own amplitude and lacunarity 2^(first_octave+k) |
| Perlin.CollectSamplers | pumpkin-util/src/noise/perlin.rs:238-270 | the collection loop yields those data |
| Perlin.NewOctaveSampler | pumpkin-util/src/noise/perlin.rs:193-278 | legacy or modern construction: the draw log and the kept sampler data |
| Perlin.SamplerPermutationIsPermutation | pumpkin-util/src/noise/perlin.rs:22-32 | every constructed sampler's table is a permutation |
| RedstoneLamp.UpdatedLit | pumpkin/src/block/blocks/redstone/redstone_lamp.rs:24-46 | after a neighbour update the lamp is lit exactly when it was lit or is powered |
| RedstoneLamp.SchedulesOff | pumpkin/src/block/blocks/redstone/redstone_lamp.rs:30-34 | a tick is scheduled exactly for a lit, unpowered lamp |
| RedstoneLamp.TickedLit | pumpkin/src/block/blocks/redstone/redstone_lamp.rs:48-64 | after a tick the lamp is lit exactly when it was lit and is powered; a tick never turns it on |
| RedstoneLamp.LampSettles | pumpkin/src/block/blocks/redstone/redstone_lamp.rs:24-64 | an update, followed by the tick it schedules, leaves lit equal to powered |
| RedstoneLamp.OnPlace | pumpkin/src/block/blocks/redstone/redstone_lamp.rs:18-22 | a placed lamp is lit exactly when it receives power |
| RedstoneLamp.OnNeighborUpdate | pumpkin/src/block/blocks/redstone/redstone_lamp.rs:24-46 | an unlit, powered lamp is lit at once; a lit, unpowered one is left and gets a 4-tick block tick; otherwise nothing is written |
| RedstoneLamp.OnScheduledTick | pumpkin/src/block/blocks/redstone/redstone_lamp.rs:48-64 | a lit, unpowered lamp turns off; nothing else changes |
| IronBars.WithBarsSide | pumpkin/src/block/blocks/iron_bars.rs:44-60 | setting one side's flag changes only that side and keeps `waterlogged` |
| IronBars.BarsShape | pumpkin/src/block/blocks/iron_bars.rs:38-62 | each side is set exactly when the neighbour is iron bars, solid on the facing side, a glass pane or a wall; `waterlogged` is kept |
| IronBars.ComputeBarsState | pumpkin/src/block/blocks/iron_bars.rs:38-62 | the loop over the four horizontal directions computes that shape |
| IronBars.OnPlace | pumpkin/src/block/blocks/iron_bars.rs:22-27 | `waterlogged` is whether a water source was replaced, and the sides are computed |
| IronBars.GetStateForNeighborUpdate | pumpkin/src/block/blocks/iron_bars.rs:29-35 | every side is recomputed whatever direction changed, and `waterlogged` is kept |
| IronBars.BarsShapeIgnoresOwnCell | pumpkin/src/block/blocks/iron_bars.rs:44-60 | the shape depends only on the neighbours, not on the bars' own cell |
| IronBars.BarsShapeIdempotent | pumpkin/src/block/blocks/iron_bars.rs:29-35 | with unchanged neighbours, recomputing the written shape gives it back |
| Composter.LevelOf | pumpkin/src/block/blocks/composter.rs:153-155 | the level stored in a composter state; Composter.WithLevel shows it reads back what `set_level` wrote |
| Composter.WithLevel | pumpkin/src/block/blocks/composter.rs:152-159 | `set_level` followed by `get_level` returns the level, for 0..8 |
| Composter.UsedLevel | pumpkin/src/block/blocks/composter.rs:45-73 | 8 empties to 0; 7, or an item without a chance, is unchanged; 0 rises to 1; 1..6 rise by one exactly when the roll succeeds; never 8 |
| Composter.TickedLevel | pumpkin/src/block/blocks/composter.rs:75-83 | a tick moves 7 to 8 and leaves other levels |
| Composter.NormalUsedLevel | pumpkin/src/block/blocks/composter.rs:34-43 | a plain use empties a full composter and leaves other levels |
| Composter.FullOnlyByTick | pumpkin/src/block/blocks/composter.rs:45-83 | level 8 is only reached by the scheduled tick from 7 |
| Composter.UpdateLevel | pumpkin/src/block/blocks/composter.rs:92-110 | writes the level and schedules a 20-tick block tick exactly when it is 7 |
| Composter.Clear | pumpkin/src/block/blocks/composter.rs:112-144 | writes level 0 and drops one bone meal |
| Composter.NormalUse | pumpkin/src/block/blocks/composter.rs:34-43 | always `Pass`; acts only at level 8 |
| Composter.UseWithItem | pumpkin/src/block/blocks/composter.rs:45-73 | always `Consume`; at 8 it clears and drops bone meal without then adding a layer; otherwise the level follows the used-level rule |
| Composter.OnScheduledTick | pumpkin/src/block/blocks/composter.rs:75-83 | writes 8 exactly at level 7 |
| Composter.ComparatorOutput | pumpkin/src/block/blocks/composter.rs:85-88 | the comparator output is the level |
| Beds.PreventsSleep | pumpkin/src/block/blocks/bed.rs:330-332 | an entity keeps the player awake exactly when its kind is one of the listed kinds (their number and members are stated by Beds.NoSleepKindsFacts) |
| Beds.NoSleepKindsFacts | pumpkin/src/block/blocks/bed.rs:27-63 | 35 entity kinds prevent sleep, among them zombie, enderman and ocelot |
| Beds.CanSleep | pumpkin/src/block/blocks/bed.rs:317-328 | always in a thunderstorm; in rain only strictly between 12010 and 23991; otherwise only strictly between 12542 and 23459 (boundaries pinned by Beds.SleepWindowWidens) |
| Beds.SleepWindowWidens | pumpkin/src/block/blocks/bed.rs:317-328 | strict bounds: rain 12010 < t < 23991, clear 12542 < t < 23459, thunder always; rain and thunder only widen the window |
| Beds.OtherPart | pumpkin/src/block/blocks/bed.rs:297-301 | the other half has the other part |
| Beds.OtherHalf | pumpkin/src/block/blocks/bed.rs:118-124 | the other half lies behind a head and in front of a foot; Beds.OtherHalfReturns shows it is a different cell that points back |
| Beds.OtherHalfReturns | pumpkin/src/block/blocks/bed.rs:117-155 | the other half of the other half is the start, and it is a different cell |
| Beds.OppositeInvolution | pumpkin/src/block/blocks/bed.rs:144-149 | the opposite of the opposite is the direction |
| Beds.PairedSymmetric | pumpkin/src/block/blocks/bed.rs:280-314 | if a half is paired with its other half, that half is paired back |
| Beds.CanPlaceAt | pumpkin/src/block/blocks/bed.rs:70-85 | never without a player; with one, only when both the target cell and the cell in the player's facing are replaceable |
| Beds.OnPlace | pumpkin/src/block/blocks/bed.rs:87-94 | a placed bed is an unoccupied foot facing the player |
| Beds.Placed | pumpkin/src/block/blocks/bed.rs:96-115 | writes a head at position + facing with the same facing, pairing the two halves |
| Beds.Broken | pumpkin/src/block/blocks/bed.rs:117-137 | breaks the other half |
| Beds.SetOccupied | pumpkin/src/block/blocks/bed.rs:280-314 | both halves get the same occupancy and facing, with complementary parts |
| Beds.HeadFootAreHalves | pumpkin/src/block/blocks/bed.rs:144-155 | the head and foot positions are the used cell and its other half, and differ |
| Beds.ObstructedAsWritten | pumpkin/src/block/blocks/bed.rs:174-184 | the obstruction test as the code has it: a solid block above the head, read twice |
| Beds.ObstructedAbove | pumpkin/src/block/blocks/bed.rs:174-184 | the obstruction test as intended: a solid block above the head or above the foot; this is the one the bed's use consults |
| Beds.ObstructionTests | pumpkin/src/block/blocks/bed.rs:173-184 | the check as written tests only the block above the head; the corrected check adds the block above the foot |
| Beds.ObstructionMissesFoot | pumpkin/src/block/blocks/bed.rs:173-184 | a solid block above the foot alone is missed by the check as written |
| Beds.Outcome | pumpkin/src/block/blocks/bed.rs:157-275 | outside the overworld the bed explodes before any other check; the player sleeps exactly when every check passes (the obstruction check is the corrected one, see Left out) |
| Beds.AnyMonsterNearby | pumpkin/src/block/blocks/bed.rs:252-270 | the scan finds a monster exactly when one is within range |
| Beds.NormalUse | pumpkin/src/block/blocks/bed.rs:140-276 | always `SuccessServer`; an explosion breaks both halves; sleeping marks both halves occupied; any refusal changes nothing |
| Items.SaturatingSub | pumpkin-world/src/item/mod.rs:130-132 | `u8` subtraction that stops at 0 |
| Items.SaturatingAdd | pumpkin-world/src/item/mod.rs:134-136 | `u8` addition that stops at 255 |
| Items.FirstOfKind | pumpkin-world/src/item/mod.rs:55-72 | the first entry of a kind, or the end |
| Items.DataComponent | pumpkin-world/src/item/mod.rs:55-72 | the first patch entry of the kind decides, even a removal; only without one does the item's default apply |
| Items.MaxStackSizeOf | pumpkin-world/src/item/mod.rs:80-86 | the component's size, 1 without one |
| Items.FirstSpeedRule | pumpkin-world/src/item/mod.rs:155-168 | the first rule with a speed that matches the block, or the end |
| Items.FirstDropsRule | pumpkin-world/src/item/mod.rs:182-196 | the first rule that sets drops and matches the block, or the end |
| Items.SpeedOf | pumpkin-world/src/item/mod.rs:149-174 | the first matching rule's speed, else the tool's default speed, else 1.0 |
| Items.CorrectForDrops | pumpkin-world/src/item/mod.rs:178-204 | the first rule that both sets drops and matches the block decides; with no such rule or no tool, false (stated by Items.FirstDropsRuleDecides) |
| Items.FirstDropsRuleDecides | pumpkin-world/src/item/mod.rs:178-202 | the first matching rule's value decides drops |
| Items.RemovalHidesDefault | pumpkin-world/src/item/mod.rs:55-72 | a removal in the patch hides the item's default |
| Items.ItemStack.constructor | pumpkin-world/src/item/mod.rs:47-53 | a stack of that count and item, with no patch |
| Items.ItemStack.IsEmpty | pumpkin-world/src/item/mod.rs:100-102 | a stack is empty exactly when its count is 0 or its item is air |
| Items.ItemStack.GetItem | pumpkin-world/src/item/mod.rs:88-102 | air when the stack is empty (count 0 or air), the item otherwise |
| Items.ItemStack.GetDataComponent | pumpkin-world/src/item/mod.rs:55-72 | the stack's component is what Items.DataComponent resolves from its patch and its item |
| Items.ItemStack.GetMaxStackSize | pumpkin-world/src/item/mod.rs:80-86 | the stack's maximum size is Items.MaxStackSizeOf its item and patch: the component's size, or 1 |
| Items.ItemStack.IsStackable | pumpkin-world/src/item/mod.rs:96-98 | stackable exactly when the maximum stack size exceeds 1 |
| Items.ItemStack.AreItemsAndComponentsEqual | pumpkin-world/src/item/mod.rs:138-140 | two stacks agree exactly when they hold the same item; components are not compared |
| Items.ItemStack.AreEqual | pumpkin-world/src/item/mod.rs:142-144 | two stacks are equal exactly when their counts and their items agree |
| Items.ItemStack.CopyWithCount | pumpkin-world/src/item/mod.rs:120-124 | a new stack with that count, the same item and the same patch |
| Items.ItemStack.SetCount | pumpkin-world/src/item/mod.rs:126-128 | the count is replaced |
| Items.ItemStack.Decrement | pumpkin-world/src/item/mod.rs:130-132 | the count falls, saturating at 0 |
| Items.ItemStack.Increment | pumpkin-world/src/item/mod.rs:134-136 | the count rises, saturating at 255 |
| Items.ItemStack.Split | pumpkin-world/src/item/mod.rs:104-109 | the new stack holds min(amount, count) and this one the rest, so the total is conserved |
| Items.ItemStack.SplitUnlessCreative | pumpkin-world/src/item/mod.rs:111-118 | as split, except that in Creative this stack keeps its count |
| Hunger.AddedExhaustion | pumpkin/src/entity/hunger.rs:80-83 | exhaustion becomes min(old + amount, 40) |
| Hunger.Exhausted | pumpkin/src/entity/hunger.rs:37-45 | the timer is kept; with food and more than 4 exhaustion, exhaustion drops by 4 and any saturation falls by 1, floored at 0, else the state is unchanged; the level drops by at most one, and drops exactly when there is food, more than 4 exhaustion, no saturation and the difficulty is not Peaceful; a health update is sent exactly then |
| Hunger.Regenerated | pumpkin/src/entity/hunger.rs:47-77 | the regeneration and starvation branches keep level and saturation, reset or advance the timer and leave it below 80; exhaustion changes only on a heal, which resets the timer; every heal is in (0, 1] and every starvation hit is 1 |
| Hunger.TickKeepsBounds | pumpkin/src/entity/hunger.rs:30-78 | a tick keeps level, saturation, exhaustion and timer in range and lowers the level by at most one |
| Hunger.TimerStaysBelow80 | pumpkin/src/entity/hunger.rs:47-77 | after any tick the timer is below 80 |
| Hunger.BranchUsesStartValues | pumpkin/src/entity/hunger.rs:30-56 | a full player whose last saturation point this tick spends still heals 1/6 and gains 1 exhaustion, because the branch is chosen from the values read at the start |
| Hunger.PeacefulNeverHungers | pumpkin/src/entity/hunger.rs:37-45 | in Peaceful no tick lowers the food level |
| Hunger.HungerManager.constructor | pumpkin/src/entity/hunger.rs:18-27 | level 20, saturation 5, exhaustion 0, timer 0 |
| Hunger.HungerManager.Restart | pumpkin/src/entity/hunger.rs:85-90 | back to those values |
| Hunger.HungerManager.AddExhaustion | pumpkin/src/entity/hunger.rs:80-83 | only exhaustion changes, capped at 40 |
| Hunger.HungerManager.Tick | pumpkin/src/entity/hunger.rs:30-78 | the cell-by-cell tick gives the state and effects the tick function defines |
| OpCommand.FirstWithUuid | pumpkin/src/command/commands/op.rs:48-53 | the first entry with the uuid, or the end |
| OpCommand.Upsert | pumpkin/src/command/commands/op.rs:48-62 | the first entry with the uuid gets the level in place and nothing else changes; without one, a new entry is appended |
| OpCommand.UpsertKeepsUnique | pumpkin/src/command/commands/op.rs:48-62 | unique uuids stay unique and the player's entry holds the level |
| OpCommand.GrantOne | pumpkin/src/command/commands/op.rs:41-78 | a target already at the level gets a failure message and nothing else changes; any other is upserted, set to the level and announced |
| OpCommand.EveryTargetGranted | pumpkin/src/command/commands/op.rs:37-78 | every target ends at the granted level, other players keep theirs, and one message per target is sent |
| OpCommand.OpsGrowByAtMostTargets | pumpkin/src/command/commands/op.rs:48-62 | the list never shrinks and grows by at most one entry per target |
| OpCommand.Server.constructor | pumpkin/src/command/commands/op.rs:32-78 | the given operator list and levels, no messages |
| OpCommand.Server.GrantTarget | pumpkin/src/command/commands/op.rs:41-78 | one iteration of the target loop |
| OpCommand.Server.Execute | pumpkin/src/command/commands/op.rs:32-78 | no `targets` gives `InvalidConsumption` and no change; otherwise every target is granted min(configured level, sender's level) |
| BlockRegistry.ConsumesAction | pumpkin/src/block/registry.rs:268-273 | true exactly for `Consume`, `Success` and `SuccessServer` |
| BlockRegistry.Registry.constructor | pumpkin/src/block/registry.rs:276-280 | no blocks and no fluids registered |
| BlockRegistry.Registry.Register | pumpkin/src/block/registry.rs:307-315 | every name maps to the behaviour; a later registration overwrites; other blocks are kept |
| BlockRegistry.Registry.RegisterFluid | pumpkin/src/block/registry.rs:317-325 | the same for fluids |
| BlockRegistry.GetPumpkinBlock | pumpkin/src/block/registry.rs:786-789 | a behaviour exactly for registered blocks |
| BlockRegistry.OnUse | pumpkin/src/block/registry.rs:381-404 | a registered block answers through its own behaviour; an unregistered one gets `Pass` |
| BlockRegistry.UseWithItem | pumpkin/src/block/registry.rs:420-445 | a registered block answers through its own behaviour; an unregistered one gets `Pass` |
| BlockRegistry.UseWithItemFluid | pumpkin/src/block/registry.rs:447-464 | a registered fluid answers through its own behaviour; an unregistered one gets `Pass` |
| BlockRegistry.OnSyncedBlockEvent | pumpkin/src/block/registry.rs:327-348 | a registered block answers through its own behaviour; an unregistered one gets false |
| BlockRegistry.CanPlaceAt | pumpkin/src/block/registry.rs:466-494 | a registered block answers through its own behaviour; an unregistered one gets true |
| BlockRegistry.CanUpdateAt | pumpkin/src/block/registry.rs:496-522 | a registered block answers through its own behaviour; an unregistered one gets false |
| BlockRegistry.OnPlace | pumpkin/src/block/registry.rs:524-551 | a registered block answers through its own behaviour; an unregistered one gets the default state |
| BlockRegistry.GetStateForNeighborUpdate | pumpkin/src/block/registry.rs:717-742 | a registered block answers through its own behaviour; an unregistered one gets the given state |
| BlockRegistry.EmitsRedstonePower | pumpkin/src/block/registry.rs:795-812 | a registered block answers through its own behaviour; an unregistered one gets false |
| BlockRegistry.GetRedstonePower | pumpkin/src/block/registry.rs:814-858 | a registered block answers through its own behaviour; an unregistered one gets 0 |
| BlockRegistry.NeighborShapeUpdatesCoverAll | pumpkin/src/block/registry.rs:744-761 | six updates, one per neighbour, each from the direction pointing back |
| BlockRegistry.UpdateNeighbors | pumpkin/src/block/registry.rs:744-761 | the neighbours are updated in update order, each with the opposite direction |
| Text.Text | pumpkin-util/src/text/mod.rs:123-129 | plain text with the default style and no children |
| Text.TranslateOf | pumpkin-util/src/text/mod.rs:131-143 | a translation with the key and arguments, default style and no children |
| Text.FromContent | pumpkin-util/src/text/mod.rs:150-156 | the content with the default style and no children |
| Text.AddChild | pumpkin-util/src/text/mod.rs:145-148 | exactly one child appended at the end; content and style unchanged |
| Text.AddText | pumpkin-util/src/text/mod.rs:158-165 | appends a plain-text child |
| Text.AddChildrenInOrder | pumpkin-util/src/text/mod.rs:145-148 | children are kept in the order added |
| Text.ColorOf | pumpkin-util/src/text/mod.rs:215-229 | sets only the color |
| Text.Bold | pumpkin-util/src/text/mod.rs:231-235 | sets only bold |
| Text.Italic | pumpkin-util/src/text/mod.rs:237-241 | sets only italic |
| Text.Underlined | pumpkin-util/src/text/mod.rs:243-247 | sets only underlined |
| Text.Strikethrough | pumpkin-util/src/text/mod.rs:249-253 | sets only strikethrough |
| Text.Obfuscated | pumpkin-util/src/text/mod.rs:255-259 | sets only obfuscated |
| Text.Insertion | pumpkin-util/src/text/mod.rs:261-265 | sets only the insertion |
| Text.WithClickEvent | pumpkin-util/src/text/mod.rs:267-271 | sets only the click event |
| Text.WithHoverEvent | pumpkin-util/src/text/mod.rs:273-277 | sets only the hover event |
| Text.Font | pumpkin-util/src/text/mod.rs:280-284 | sets only the font |
| Text.ShadowColor | pumpkin-util/src/text/mod.rs:286-289 | sets only the shadow color |
| Text.SettersCommute | pumpkin-util/src/text/mod.rs:215-289 | setters of different fields commute, and setting a flag twice is setting it once |
| Text.GetText | pumpkin-util/src/text/mod.rs:167-182 | the text, the selector (separator ignored) or the keybind; a translation key with no translation gives the key itself |
| Text.ReplaceAll | pumpkin-util/src/text/mod.rs:186-189 | `str::replace`: every non-overlapping occurrence, left to right, is replaced (stated by Text.ReplaceChar, ReplaceAbsent and ReplaceWhole) |
| Text.ReplaceChar | pumpkin-util/src/text/mod.rs:186-187 | replacing one character by another keeps the length and changes exactly its occurrences |
| Text.ReplaceAbsent | pumpkin-util/src/text/mod.rs:186-192 | replacing a pattern that does not occur changes nothing |
| Text.ReplaceWhole | pumpkin-util/src/text/mod.rs:188-192 | a string that is exactly the pattern becomes the replacement |
| Text.ReplaceCharAbsent | pumpkin-util/src/text/mod.rs:186-187 | a string without the character is unchanged |
| Text.Decorated | pumpkin-util/src/text/mod.rs:186-189 | `&` becomes `§`, then the name field is filled, then the message field, in that order |
| Text.ChatDecorated | pumpkin-util/src/text/mod.rs:184-198 | plain text with the default style and no children, holding the template after `&` becomes `§`, then the name field, then the message field, are replaced |
| Text.AmpersandsResolved | pumpkin-util/src/text/mod.rs:186-187 | after the first replacement no `&` is left, and the length is kept |
| Text.NameIsSubjectToMessageField | pumpkin-util/src/text/mod.rs:184-198 | text inserted for the name is subject to the later message replacement |
| Text.FromString | pumpkin-util/src/text/mod.rs:33-41 | a bare string gives plain text with the default style and no children |
| Text.FromSequence | pumpkin-util/src/text/mod.rs:43-54 | a sequence gives empty text whose children are the elements in order |
| Hover.ShowTextOf | pumpkin-util/src/text/hover.rs:36-40 | a text tooltip whose value list is exactly the component |
| Hover.ShowEntityOf | pumpkin-util/src/text/hover.rs:41-53 | the kind goes to `id` and the uuid to `uuid`; no name stays none, a name becomes a one-element list |
| Hover.SerializedKeys | pumpkin-util/src/text/hover.rs:7-30 | the tag comes first; `count` and `name` appear exactly when present |
| Hover.ActionsDistinct | pumpkin-util/src/text/hover.rs:8 | the snake-case tags tell the variants apart |
| Hover.ShowEntityKeys | pumpkin-util/src/text/hover.rs:30-53 | an entity tooltip carries a `name` key exactly when given a name |
| SyncedRegistries.VanillaLocation | pumpkin-registry/src/lib.rs:92 | a location in the `minecraft` namespace with that path |
| SyncedRegistries.DimensionLocation | pumpkin-registry/src/lib.rs:90-97 | each dimension type has a vanilla location |
| SyncedRegistries.DimensionFromString | pumpkin-registry/src/lib.rs:99-107 | exactly the four `minecraft:` strings parse |
| SyncedRegistries.DimensionRoundTrip | pumpkin-registry/src/lib.rs:90-107 | parsing a printed location gives the dimension back |
| SyncedRegistries.DimensionParseSound | pumpkin-registry/src/lib.rs:90-107 | every accepted string is the printed location of what it yields |
| SyncedRegistries.EntriesOf | pumpkin-registry/src/lib.rs:112-116 | one entry per file entry, in file order |
| SyncedRegistries.SyncedFiles | pumpkin-registry/src/lib.rs:265-284 | one file per synced registry |
| SyncedRegistries.SyncedOrderFacts | pumpkin-registry/src/lib.rs:265-284 | the fourteen paths are distinct and none of trim pattern, trim material, enchantment or instrument is among them |
| SyncedRegistries.GetSynced | pumpkin-registry/src/lib.rs:111-285 | fourteen registries in order from cat_variant to jukebox_song, each with its file's entries; chat_type also gets the custom `raw` entry last |
| SyncedRegistries.NeverSyncedIsOmitted | pumpkin-registry/src/lib.rs:273-283 | the sent list never names the four registries left out |
| StatusEffects.LowerChar | pumpkin-data/build/status_effect.rs:21 | ASCII lower-casing of one character |
| StatusEffects.Lower | pumpkin-data/build/status_effect.rs:21 | lower-casing keeps the length and lower-cases each character |
| StatusEffects.LowerIdempotent | pumpkin-data/build/status_effect.rs:21 | lower-casing twice is lower-casing once |
| StatusEffects.Arms | pumpkin-data/build/status_effect.rs:26-34 | one parser arm per status, in order, matching the prefixed lower-cased name |
| StatusEffects.Names | pumpkin-data/build/status_effect.rs:29-37 | one printer arm per status: the prefixed lower-cased name |
| StatusEffects.Match | pumpkin-data/build/status_effect.rs:47-65 | the first arm with the string decides, and no arm means `None` |
| StatusEffects.FromName | pumpkin-data/build/status_effect.rs:47-52 | the first arm whose lower-cased name equals the string, else None (round trip stated by StatusEffects.NameRoundTrips) |
| StatusEffects.FromMinecraftName | pumpkin-data/build/status_effect.rs:60-65 | the same lookup over the `minecraft:`-prefixed names (stated by StatusEffects.MinecraftNameStrips and MinecraftNameNeedsPrefix) |
| StatusEffects.ToName | pumpkin-data/build/status_effect.rs:54-58 | the lower-cased status string |
| StatusEffects.ToMinecraftName | pumpkin-data/build/status_effect.rs:67-71 | `minecraft:` followed by the name |
| StatusEffects.PrefixCancels | pumpkin-data/build/status_effect.rs:33-36 | a common prefix does not change whether two names are equal |
| StatusEffects.ParseSound | pumpkin-data/build/status_effect.rs:47-65 | a parser answers only effects whose printed name is the string given |
| StatusEffects.ParsePrinted | pumpkin-data/build/status_effect.rs:26-37 | with distinct names, parsing a printed name gives the effect back |
| StatusEffects.NameRoundTrips | pumpkin-data/build/status_effect.rs:27-71 | `from_name(to_name(e))` and `from_minecraft_name(to_minecraft_name(e))` are `Some(e)` |
| StatusEffects.FromNameIsLowercase | pumpkin-data/build/status_effect.rs:21-52 | only lower-case strings name an effect |
| StatusEffects.MatchUnderPrefix | pumpkin-data/build/status_effect.rs:33-34 | tables that differ only by a leading prefix answer alike |
| StatusEffects.MinecraftNameStrips | pumpkin-data/build/status_effect.rs:33-65 | `from_minecraft_name("minecraft:" + n)` equals `from_name(n)`, unknown names included |
| StatusEffects.MinecraftNameNeedsPrefix | pumpkin-data/build/status_effect.rs:60-65 | a string outside the `minecraft:` namespace parses to `None` |
| StatusEffects.Build | pumpkin-data/build/status_effect.rs:19-38 | the build loop emits one variant and one arm per table for each status, in list order |

## Left out

- Direction orders: `BlockDirection::all()`, `horizontal()` and `abstract_block_update_order()` are generated from data that is not part of this model. The vanilla orders are assumed: all is Down, Up, North, South, West, East; horizontal is North, South, West, East; update order is West, East, North, South, Down, Up.
- The per-side wire enums (`NorthWireConnection` and so on) are collapsed into one three-valued connection, so the conversions between them are identities.
- Integer widths: `i64` overflow in the biome distance, the `u8` casts of redstone power and the `u32` wrap of the hunger tick timer are not modelled. Integers are unbounded, except the item count, which is an explicit `u8`.
- Floating point: `f32`/`f64` values (hunger, amplitudes, mining speeds) are reals. Perlin sampling, persistence, `max_value` and `get_total_amplitude` are IEEE-754 arithmetic and are left out.
- Random number generators: `Xoroshiro` and `LegacyRand` are not modelled. A draw comes from an uninterpreted function of the stream's name, its earlier draws and the bound. Split sub-streams are identified by their name only. The golden permutation table in the tests depends on the real generator, so it is not modelled.
- Redstone wire `prepare` and the turbo update strategy are left out: they are notification plumbing only. The turbo neighbour update is recorded as one `WireNeighborsUpdated` event.
- `set_block_state` flags, block entities, sounds, chat messages, the bed respawn point, entity spawning and the random bone-meal drop position are left out. Explosions and bone-meal drops are recorded as events.
- BlockRegistry.Registry.Register: requires every name to resolve with `Block::from_name`; the `.unwrap()` panic on an unknown name (pumpkin/src/block/registry.rs:313) is not modelled, so nothing is promised for such a name.
- BlockRegistry.Registry.RegisterFluid: requires every name to resolve with `get_fluid`; the `.unwrap()` panic on an unknown name (pumpkin/src/block/registry.rs:323) is not modelled, so nothing is promised for such a name.
- Beds.NormalUse: the player's distance and the nearby entities are inputs to the model; entity kinds are names rather than registry ids; the respawn point and the messages are not modelled.
- Beds.NormalUse: it uses the corrected obstruction check (see Findings); the check as written is `Beds.ObstructedAsWritten`.
- Beds.Outcome: uses the corrected obstruction check (see Findings), which also reads the block above the foot; with a solid block above the foot only, the source goes on to sleep where `Outcome` gives `Obstructed`. The check as written is `Beds.ObstructedAsWritten`.
- Perlin.CalculateAmplitudes: requires a nonempty octave list; on an empty list the source panics in `.expect` (pumpkin-util/src/noise/perlin.rs:177), and the model does not represent the panic. `MinInt`, `MaxInt` and `AmplitudeMask` carry the same requirement.
- Perlin.FillLegacy: requires `first_octave <= 0`; for a positive `first_octave` the source casts the negative `j` to `usize` in `(0..j as usize).rev()` (pumpkin-util/src/noise/perlin.rs:213), which walks about 2^64 indices of `skip(262)`, in effect an endless loop, and the model does not represent it.
- Perlin.NewOctaveSampler: requires `first_octave <= 0` in the legacy case, for the same reason as `FillLegacy` (pumpkin-util/src/noise/perlin.rs:213).
- BiomeSearch.Cache.Get: requires the search to find a node; a branch with no children and no previous result panics in `expect` (pumpkin-data/build/biome.rs:485), which the model does not represent (`BiomeSearch.EmptyBranchPanics` states when it happens). The `unreachable!` arm (pumpkin-data/build/biome.rs:451) is proved unreachable, not assumed.
- Composter.UseWithItem: the compost chance only matters as present or absent, and the chance roll is an input.
- Items: the default components of `Item::AIR` are not modelled. A component stored under the wrong kind reads as absent. `are_items_and_components_equal` compares items only, as the source does.
- Text: colours and click events are simplified to opaque values. The translation lookup of `get_text` is a parameter. The map form of deserialisation, NBT encoding and `to_pretty_console` are left out.
- BiomeSearch.SameBiome: equality by id is stated as a predicate; the model's datatype equality is structural.
- Hunger: `write_nbt`/`read_nbt` are left out.
- SyncedRegistries.GetSynced: entry payloads are opaque numbers; NBT conversion is not modelled.
- StatusEffects: lower-casing is ASCII only, and the PascalCase identifiers of the generated variants are represented by the status strings.
- The block registry's list of registrations (`default_registry`) is data and is not modelled.

## Findings

| source | as written | input that shows it | evidently intended | confidence | as-written member | corrected member |
|---|---|---|---|---|---|---|
| pumpkin/src/block/blocks/bed.rs:174-184 | the obstruction check reads the block above the head twice, so the block above the foot is never read | a bed whose foot is at (0, 64, 0) and whose head is one step north, with a solid block above the foot only: the bed counts as unobstructed | the second read tests the block above the foot | not executed | Beds.ObstructedAsWritten (counterexample: Beds.ObstructionMissesFoot) | Beds.ObstructedAbove (Beds.ObstructionTests, used by Beds.Outcome and Beds.NormalUse) |
