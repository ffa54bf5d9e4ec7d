// The integer bookkeeping of noise construction (pumpkin-util/src/noise/perlin.rs):
// the shuffled permutation of a Perlin sampler, the octave amplitude mask, and
// which octaves of an octave sampler get a sampler and how many random draws
// that costs. Random numbers come from an abstract source; only the sequence
// of draws and the bounded values are modelled.

module Perlin {
  import opened Common

  /** One call into a random source. */
  datatype Draw =
    | FloatDraw                // `next_f64`
    | BoundedDraw(bound: nat)  // `next_bounded_i32(bound)`
    | SkipDraws(count: nat)    // `skip(count)`
    | SplitterDraw             // `next_splitter`

  /**
   * The value of a bounded draw, as a function of the stream's name, the
   * draws made on it so far and the bound. Only its range is known.
   */
  type Picker = (string, seq<Draw>, nat) -> nat

  ghost predicate PickBounded(pick: Picker)
  {
    forall name, log, bound :: bound > 0 ==> pick(name, log, bound) < bound
  }

  /** A random stream: its name (a split stream is named by its split key) and the draws made so far. */
  class Random {
    const name: string
    const pick: Picker
    var log: seq<Draw>

    constructor (name: string, pick: Picker)
      ensures this.name == name && this.pick == pick && log == []
    {
      this.name := name;
      this.pick := pick;
      log := [];
    }

    method NextF64()
      modifies this`log
      ensures log == old(log) + [FloatDraw]
    {
      log := log + [FloatDraw];
    }

    method NextBoundedI32(bound: nat) returns (v: nat)
      requires bound > 0 && PickBounded(pick)
      modifies this`log
      ensures v == pick(name, old(log), bound) && v < bound
      ensures log == old(log) + [BoundedDraw(bound)]
    {
      v := pick(name, log, bound);
      log := log + [BoundedDraw(bound)];
    }

    method Skip(count: nat)
      modifies this`log
      ensures log == old(log) + [SkipDraws(count)]
    {
      log := log + [SkipDraws(count)];
    }

    /** `next_splitter`: one draw on this stream; the splitter derives named streams. */
    method NextSplitter() returns (s: Splitter)
      modifies this`log
      ensures log == old(log) + [SplitterDraw] && s == Splitter(pick)
    {
      log := log + [SplitterDraw];
      s := Splitter(pick);
    }
  }

  datatype Splitter = Splitter(pick: Picker)
  {
    /** `split_string`: a fresh stream named by the key. */
    method SplitString(key: string) returns (r: Random)
      ensures fresh(r) && r.name == key && r.pick == pick && r.log == []
    {
      r := new Random(key, pick);
    }
  }

  /** The bounded draws of a sampler's shuffle: bounds 256, 255, …, down to 256 - n + 1. */
  function BoundedDraws(n: nat): (ds: seq<Draw>)
    requires n <= 256
    ensures |ds| == n
  {
    seq(n, k requires 0 <= k < n => BoundedDraw(256 - k))
  }

  /** Everything `PerlinNoiseSampler::new` draws: three floats, then 256 bounded draws. */
  const SamplerDraws: seq<Draw> := [FloatDraw, FloatDraw, FloatDraw] + BoundedDraws(256)

  /** The first `n` shuffle offsets drawn from the stream `name` whose log before the shuffle is `log0`. */
  function Drawn(pick: Picker, name: string, log0: seq<Draw>, n: nat): (js: seq<nat>)
    requires n <= 256
    ensures |js| == n
  {
    seq(n, k requires 0 <= k < n => pick(name, log0 + BoundedDraws(k), 256 - k))
  }

  /** Offsets a shuffle can take: the `k`-th swap partner lies in `k .. 255`. */
  predicate ValidOffsets(js: seq<nat>)
  {
    |js| <= 256 && forall k :: 0 <= k < |js| ==> js[k] < 256 - k
  }

  lemma DrawnValid(pick: Picker, name: string, log0: seq<Draw>, n: nat)
    requires PickBounded(pick) && n <= 256
    ensures ValidOffsets(Drawn(pick, name, log0, n))
  {
  }

  function Identity(n: nat): (s: seq<int>)
    ensures |s| == n
  {
    seq(n, k requires 0 <= k < n => k)
  }

  function SwapAt(s: seq<int>, a: nat, b: nat): (r: seq<int>)
    requires a < |s| && b < |s|
    ensures |r| == |s|
  {
    s[a := s[b]][b := s[a]]
  }

  /** The identity permutation with the swaps `(k, k + js[k])` applied in order. */
  function Shuffle(js: seq<nat>): (s: seq<int>)
    requires ValidOffsets(js)
    ensures |s| == 256
  {
    if js == [] then Identity(256)
    else
      var k := |js| - 1;
      SwapAt(Shuffle(js[..k]), k, k + js[k])
  }

  /** Holds exactly the numbers 0..255, each once. */
  predicate IsPermutation(s: seq<int>)
  {
    |s| == 256 && multiset(s) == multiset(Identity(256))
  }

  lemma SwapKeepsElements(s: seq<int>, a: nat, b: nat)
    requires a < |s| && b < |s|
    ensures multiset(SwapAt(s, a, b)) == multiset(s)
  {
  }

  /** Every sequence of in-range swaps yields a permutation of 0..255. */
  lemma {:induction false} ShuffleIsPermutation(js: seq<nat>)
    requires ValidOffsets(js)
    ensures IsPermutation(Shuffle(js))
    decreases |js|
  {
    if js != [] {
      var k := |js| - 1;
      ShuffleIsPermutation(js[..k]);
      SwapKeepsElements(Shuffle(js[..k]), k, k + js[k]);
    }
  }

  /** Each entry of a permutation is in 0..255, and each of 0..255 is an entry. */
  lemma PermutationEntries(s: seq<int>)
    requires IsPermutation(s)
    ensures forall k :: 0 <= k < 256 ==> 0 <= s[k] < 256
    ensures forall v :: 0 <= v < 256 ==> v in s
  {
    forall k | 0 <= k < 256 ensures 0 <= s[k] < 256 {
      assert s[k] in multiset(s);
      assert s[k] in Identity(256);
    }
    forall v | 0 <= v < 256 ensures v in s {
      assert Identity(256)[v] == v;
      assert v in multiset(Identity(256));
    }
  }

  /** The permutation a sampler built on stream `name` from log `log0` ends with. */
  function SamplerPermutation(pick: Picker, name: string, log0: seq<Draw>): seq<int>
    requires PickBounded(pick)
  {
    DrawnValid(pick, name, log0 + [FloatDraw, FloatDraw, FloatDraw], 256);
    Shuffle(Drawn(pick, name, log0 + [FloatDraw, FloatDraw, FloatDraw], 256))
  }

  /**
   * `PerlinNoiseSampler::new` (the permutation only): three float draws for
   * the origin, the identity table, then for each `i` a draw bounded by
   * `256 - i` and the swap of `i` with `i + j`.
   */
  method NewSampler(random: Random) returns (permutation: array<int>)
    requires PickBounded(random.pick)
    modifies random`log
    ensures fresh(permutation) && permutation.Length == 256
    ensures random.log == old(random.log) + SamplerDraws
    ensures permutation[..] == SamplerPermutation(random.pick, random.name, old(random.log))
    ensures IsPermutation(permutation[..])
  {
    random.NextF64();
    random.NextF64();
    random.NextF64();
    ghost var log3 := random.log;
    assert log3 == old(random.log) + [FloatDraw, FloatDraw, FloatDraw];
    permutation := new int[256];
    for i := 0 to 256
      invariant random.log == log3
      invariant forall k :: 0 <= k < i ==> permutation[k] == k
    {
      permutation[i] := i;
    }
    assert permutation[..] == Identity(256);
    ShuffleTable(random, permutation);
    assert random.log == old(random.log) + SamplerDraws;
    DrawnValid(random.pick, random.name, old(random.log) + [FloatDraw, FloatDraw, FloatDraw], 256);
    ShuffleIsPermutation(Drawn(random.pick, random.name, old(random.log) + [FloatDraw, FloatDraw, FloatDraw], 256));
  }

  /** One more draw extends the drawn offsets and the shuffle by one swap. */
  lemma DrawnStep(pick: Picker, name: string, log0: seq<Draw>, i: nat)
    requires PickBounded(pick) && i < 256
    ensures BoundedDraws(i + 1) == BoundedDraws(i) + [BoundedDraw(256 - i)]
    ensures Drawn(pick, name, log0, i + 1) == Drawn(pick, name, log0, i) + [pick(name, log0 + BoundedDraws(i), 256 - i)]
  {
  }

  /** One more drawn offset adds one swap to the shuffle. */
  lemma ShuffleStep(pick: Picker, name: string, log0: seq<Draw>, i: nat)
    requires PickBounded(pick) && i < 256
    ensures ValidOffsets(Drawn(pick, name, log0, i)) && ValidOffsets(Drawn(pick, name, log0, i + 1))
    ensures Shuffle(Drawn(pick, name, log0, i + 1))
            == SwapAt(Shuffle(Drawn(pick, name, log0, i)), i, i + pick(name, log0 + BoundedDraws(i), 256 - i))
  {
    DrawnValid(pick, name, log0, i);
    DrawnValid(pick, name, log0, i + 1);
    var js := Drawn(pick, name, log0, i + 1);
    assert js[..i] == Drawn(pick, name, log0, i);
    assert js[i] == pick(name, log0 + BoundedDraws(i), 256 - i);
  }

  /** `permutation.swap(a, b)`. */
  method Swap(permutation: array<int>, a: nat, b: nat)
    requires a < permutation.Length && b < permutation.Length
    modifies permutation
    ensures permutation[..] == SwapAt(old(permutation[..]), a, b)
  {
    permutation[a], permutation[b] := permutation[b], permutation[a];
  }

  /** After `i` rounds of the swap loop: the log and the table a shuffle by the first `i` draws leaves. */
  predicate ShuffledTo(log: seq<Draw>, table: seq<int>, pick: Picker, name: string, log0: seq<Draw>, i: nat)
    requires PickBounded(pick) && i <= 256
  {
    && log == log0 + BoundedDraws(i)
    && ValidOffsets(Drawn(pick, name, log0, i))
    && table == Shuffle(Drawn(pick, name, log0, i))
  }

  /** Round `i` of the swap loop: one bounded draw `j`, then the swap of `i` with `i + j`. */
  lemma ShuffledStep(log: seq<Draw>, table: seq<int>, pick: Picker, name: string, log0: seq<Draw>, i: nat, j: nat)
    requires PickBounded(pick) && i < 256
    requires ShuffledTo(log, table, pick, name, log0, i)
    requires j == pick(name, log, 256 - i)
    ensures ShuffledTo(log + [BoundedDraw(256 - i)], SwapAt(table, i, i + j), pick, name, log0, i + 1)
  {
    DrawnStep(pick, name, log0, i);
    ShuffleStep(pick, name, log0, i);
  }

  /** The swap loop of `PerlinNoiseSampler::new`. */
  method ShuffleTable(random: Random, permutation: array<int>)
    requires PickBounded(random.pick)
    requires permutation.Length == 256 && permutation[..] == Identity(256)
    modifies random`log, permutation
    ensures random.log == old(random.log) + BoundedDraws(256)
    ensures ValidOffsets(Drawn(random.pick, random.name, old(random.log), 256))
    ensures permutation[..] == Shuffle(Drawn(random.pick, random.name, old(random.log), 256))
  {
    ghost var log0 := random.log;
    assert BoundedDraws(0) == [];
    for i := 0 to 256
      invariant ShuffledTo(random.log, permutation[..], random.pick, random.name, log0, i)
    {
      ghost var before := random.log;
      ghost var table := permutation[..];
      var j := random.NextBoundedI32(256 - i);
      Swap(permutation, i, i + j);
      ShuffledStep(before, table, random.pick, random.name, log0, i, j);
    }
  }

  /** `map`: the permutation entry at `input & 0xFF` (the Euclidean remainder by 256 of a two's-complement `i32`). */
  function Map(permutation: seq<int>, input: int): int
    requires |permutation| == 256
  {
    permutation[input % 256]
  }

  /** `map` always yields 0..255, and only the low eight bits of the input matter. */
  lemma MapFacts(permutation: seq<int>, input: int)
    requires IsPermutation(permutation)
    ensures 0 <= Map(permutation, input) < 256
    ensures Map(permutation, input + 256) == Map(permutation, input)
    ensures 0 <= input < 256 ==> Map(permutation, input) == permutation[input]
  {
    PermutationEntries(permutation);
  }

  /** The least element. */
  function MinInt(xs: seq<int>): (m: int)
    requires |xs| > 0
    ensures m in xs && forall x :: x in xs ==> m <= x
  {
    assert forall x :: x in xs ==> x == xs[0] || x in xs[1..];
    if |xs| == 1 then xs[0] else Min(xs[0], MinInt(xs[1..]))
  }

  /** The greatest element. */
  function MaxInt(xs: seq<int>): (m: int)
    requires |xs| > 0
    ensures m in xs && forall x :: x in xs ==> x <= m
  {
    assert forall x :: x in xs ==> x == xs[0] || x in xs[1..];
    if |xs| == 1 then xs[0] else Max(xs[0], MaxInt(xs[1..]))
  }

  /** The list `calculate_amplitudes` returns: one entry per octave from the least to the greatest. */
  function AmplitudeMask(octaves: seq<int>): (mask: seq<real>)
    requires |octaves| > 0
  {
    var lo := MinInt(octaves);
    var n := MaxInt(octaves) - lo + 1;
    seq(n, k requires 0 <= k < n => if lo + k in octaves then 1.0 else 0.0)
  }

  /** Entry `k` of the mask is 1.0 when octave `least + k` was requested and 0.0 otherwise. */
  lemma AmplitudeMaskEntries(octaves: seq<int>)
    requires |octaves| > 0
    ensures forall k :: 0 <= k < |AmplitudeMask(octaves)| ==>
              AmplitudeMask(octaves)[k] == if MinInt(octaves) + k in octaves then 1.0 else 0.0
  {
    var lo := MinInt(octaves);
    var m := AmplitudeMask(octaves);
    forall k | 0 <= k < |m| ensures m[k] == if lo + k in octaves then 1.0 else 0.0 {
      var requested := lo + k in octaves;
      assert m[k] == if requested then 1.0 else 0.0;
    }
  }

  /**
   * The mask spans the octaves from the least to the greatest, and both
   * ends are requested octaves, so both are 1.0.
   */
  lemma AmplitudeMaskMeaning(octaves: seq<int>)
    requires |octaves| > 0
    ensures |AmplitudeMask(octaves)| == MaxInt(octaves) - MinInt(octaves) + 1
    ensures AmplitudeMask(octaves)[0] == 1.0 && AmplitudeMask(octaves)[|AmplitudeMask(octaves)| - 1] == 1.0
  {
    var lo := MinInt(octaves);
    var hi := MaxInt(octaves);
    var m := AmplitudeMask(octaves);
    AmplitudeMaskEntries(octaves);
    assert |m| == hi - lo + 1;
    assert m[0] == 1.0 by { assert lo + 0 == lo; }
    assert m[hi - lo] == 1.0 by { assert lo + (hi - lo) == hi; }
  }

  /** The two cases the tests check: `[1, 2, 3]` and `[0]`. */
  lemma AmplitudeExamples()
    ensures MinInt([1, 2, 3]) == 1 && AmplitudeMask([1, 2, 3]) == [1.0, 1.0, 1.0]
    ensures MinInt([0]) == 0 && AmplitudeMask([0]) == [1.0]
  {
    assert MinInt([1, 2, 3]) == 1 && MaxInt([1, 2, 3]) == 3;
    assert 1 in [1, 2, 3] && 2 in [1, 2, 3] && 3 in [1, 2, 3];
  }

  /**
   * `calculate_amplitudes`: the first octave (the least, after the sort) and
   * the mask, built as a list of zeros that the octaves then set to 1.0. An
   * empty list panics, so it is excluded.
   */
  method CalculateAmplitudes(octaves: seq<int>) returns (first: int, amplitudes: seq<real>)
    requires |octaves| > 0
    ensures first == MinInt(octaves)
    ensures amplitudes == AmplitudeMask(octaves)
  {
    var i := -MinInt(octaves);
    var j := MaxInt(octaves);
    var k := i + j + 1;
    var list: seq<real> := [];
    while |list| < k
      invariant |list| <= k
      invariant forall m :: 0 <= m < |list| ==> list[m] == 0.0
    {
      list := list + [0.0];
    }
    for t := 0 to |octaves|
      invariant |list| == k
      invariant forall m :: 0 <= m < k ==> list[m] == (if m - i in octaves[..t] then 1.0 else 0.0)
    {
      var l := octaves[t];
      assert l in octaves;
      list := list[l + i := 1.0];
      assert octaves[..t + 1] == octaves[..t] + [l];
    }
    assert octaves[..|octaves|] == octaves;
    first := -i;
    amplitudes := list;
  }

  /** `2^e` for any integer `e` (`2f64.powi(e)`). */
  function Pow2(e: int): real
    decreases if e >= 0 then e else -e
  {
    if e == 0 then 1.0
    else if e > 0 then 2.0 * Pow2(e - 1)
    else Pow2(e + 1) / 2.0
  }

  /** Doubling the lacunarity moves one octave up. */
  lemma {:induction false} Pow2Step(e: int)
    ensures Pow2(e + 1) == 2.0 * Pow2(e)
    ensures Pow2(e) > 0.0
    decreases if e >= 0 then e else -e
  {
    if e < -1 {
      Pow2Step(e + 1);
    } else if e > 0 {
      Pow2Step(e - 1);
    }
  }

  lemma LacunarityExamples()
    ensures Pow2(1) == 2.0 && Pow2(0) == 1.0 && Pow2(-2) == 0.25
  {
  }

  /** The decimal digits of a natural number. */
  function NatToString(n: nat): (s: string)
    ensures |s| > 0
    ensures forall c :: c in s ==> '0' <= c <= '9'
    decreases n
  {
    var d := ['0' + (n % 10) as char];
    if n < 10 then d else NatToString(n / 10) + d
  }

  /** `format!("{l}")` of an `i32`. */
  function IntToString(l: int): string
  {
    if l < 0 then "-" + NatToString(-l) else NatToString(l)
  }

  /** Distinct octaves name distinct sub-streams. */
  lemma {:induction false} NatToStringInjective(a: nat, b: nat)
    requires NatToString(a) == NatToString(b)
    ensures a == b
    decreases a
  {
    var sa := NatToString(a);
    var sb := NatToString(b);
    if a >= 10 && b >= 10 {
      assert sa[..|sa| - 1] == NatToString(a / 10) && sb[..|sb| - 1] == NatToString(b / 10);
      NatToStringInjective(a / 10, b / 10);
      assert sa[|sa| - 1] == sb[|sb| - 1];
    }
  }

  /** The text starts with a minus sign exactly for negative numbers. */
  lemma IntToStringSign(l: int)
    ensures |IntToString(l)| > 0
    ensures IntToString(l)[0] == '-' <==> l < 0
  {
    if l >= 0 {
      assert IntToString(l)[0] in NatToString(l);
    }
  }

  function OctaveName(l: int): string
  {
    "octave_" + IntToString(l)
  }

  lemma OctaveNameInjective(a: int, b: int)
    requires OctaveName(a) == OctaveName(b)
    ensures a == b
  {
    var sa := IntToString(a);
    var sb := IntToString(b);
    assert sa == OctaveName(a)[7..] && sb == OctaveName(b)[7..];
    IntToStringSign(a);
    IntToStringSign(b);
    if a < 0 {
      assert sa[1..] == NatToString(-a) && sb[1..] == NatToString(-b);
      NatToStringInjective(-a, -b);
    } else {
      NatToStringInjective(a, b);
    }
  }

  /** Sub-streams of different octaves are different streams. */
  lemma ModernStreamsDistinct(firstOctave: int, k1: nat, k2: nat)
    requires k1 != k2
    ensures OctaveName(firstOctave + k1) != OctaveName(firstOctave + k2)
  {
    if OctaveName(firstOctave + k1) == OctaveName(firstOctave + k2) {
      OctaveNameInjective(firstOctave + k1, firstOctave + k2);
    }
  }

  /** A slot of `samplers`: the permutation of its sampler, or none. */
  type Slot = Option<seq<int>>

  /** Whether the legacy walk builds a sampler for index `kx` below `j`. */
  predicate LegacyBuilds(amplitudes: seq<real>, kx: nat)
  {
    kx < |amplitudes| && amplitudes[kx] != 0.0
  }

  /** The draws the legacy walk makes at index `kx`: a whole sampler, or `skip(262)`. */
  function LegacyStep(amplitudes: seq<real>, kx: nat): seq<Draw>
  {
    if LegacyBuilds(amplitudes, kx) then SamplerDraws else [SkipDraws(262)]
  }

  /** The draws of the legacy walk over the indices `hi - 1` down to `lo`. */
  function LegacySteps(amplitudes: seq<real>, hi: nat, lo: nat): seq<Draw>
    decreases hi - lo
  {
    if lo >= hi then [] else LegacySteps(amplitudes, hi, lo + 1) + LegacyStep(amplitudes, lo)
  }

  /** How many of the indices `lo .. hi - 1` get a sampler in the legacy walk. */
  function LegacyBuilt(amplitudes: seq<real>, hi: nat, lo: nat): nat
    decreases hi - lo
  {
    if lo >= hi then 0 else LegacyBuilt(amplitudes, hi, lo + 1) + (if LegacyBuilds(amplitudes, lo) then 1 else 0)
  }

  lemma SamplerDrawCounts()
    ensures multiset(SamplerDraws)[FloatDraw] == 3
    ensures multiset(SamplerDraws)[SkipDraws(262)] == 0
    ensures |SamplerDraws| == 259
  {
    assert forall d :: d in BoundedDraws(256) ==> d.BoundedDraw?;
    assert multiset(BoundedDraws(256))[FloatDraw] == 0;
    assert multiset(BoundedDraws(256))[SkipDraws(262)] == 0;
  }

  /**
   * The legacy walk over `lo .. hi - 1` calls `skip(262)` once for every
   * index without a sampler and draws three floats for every sampler it
   * builds.
   */
  lemma {:induction false} LegacyDrawCounts(amplitudes: seq<real>, hi: nat, lo: nat)
    ensures multiset(LegacySteps(amplitudes, hi, lo))[SkipDraws(262)] == (if hi > lo then hi - lo else 0) - LegacyBuilt(amplitudes, hi, lo)
    ensures multiset(LegacySteps(amplitudes, hi, lo))[FloatDraw] == 3 * LegacyBuilt(amplitudes, hi, lo)
    ensures LegacyBuilt(amplitudes, hi, lo) <= (if hi > lo then hi - lo else 0)
    decreases hi - lo
  {
    if lo < hi {
      LegacyDrawCounts(amplitudes, hi, lo + 1);
      SamplerDrawCounts();
    }
  }

  /** The parent log at the moment the legacy walk builds the sampler of slot `k` (`k <= j`). */
  function LegacyLogBefore(log0: seq<Draw>, amplitudes: seq<real>, j: nat, k: nat): seq<Draw>
    requires k <= j
  {
    if k == j then log0 else log0 + SamplerDraws + LegacySteps(amplitudes, j, k + 1)
  }

  /** What legacy construction leaves in slot `k`: only indices up to `j` can hold a sampler. */
  function LegacySlot(pick: Picker, name: string, log0: seq<Draw>, amplitudes: seq<real>, j: nat, k: nat): Slot
    requires PickBounded(pick) && k < |amplitudes|
  {
    if k <= j && amplitudes[k] != 0.0 then Some(SamplerPermutation(pick, name, LegacyLogBefore(log0, amplitudes, j, k)))
    else Option.None
  }

  function LegacySlots(pick: Picker, name: string, log0: seq<Draw>, amplitudes: seq<real>, j: nat): (slots: seq<Slot>)
    requires PickBounded(pick)
    ensures |slots| == |amplitudes|
  {
    seq(|amplitudes|, k requires 0 <= k < |amplitudes| => LegacySlot(pick, name, log0, amplitudes, j, k))
  }

  /** What modern construction leaves in slot `k`: a sampler from the sub-stream `octave_{first + k}`. */
  function ModernSlot(pick: Picker, firstOctave: int, amplitudes: seq<real>, k: nat): Slot
    requires PickBounded(pick) && k < |amplitudes|
  {
    if amplitudes[k] != 0.0 then Some(SamplerPermutation(pick, OctaveName(firstOctave + k), []))
    else Option.None
  }

  function ModernSlots(pick: Picker, firstOctave: int, amplitudes: seq<real>): (slots: seq<Slot>)
    requires PickBounded(pick)
    ensures |slots| == |amplitudes|
  {
    seq(|amplitudes|, k requires 0 <= k < |amplitudes| => ModernSlot(pick, firstOctave, amplitudes, k))
  }

  /**
   * Which slots hold a sampler: in legacy mode exactly the indices up to
   * `j` with a nonzero amplitude (none above `j`), in modern mode exactly
   * those with a nonzero amplitude, each from the stream of its own octave.
   */
  lemma SlotOccupancy(pick: Picker, name: string, log0: seq<Draw>, firstOctave: int, amplitudes: seq<real>, j: nat, k: nat)
    requires PickBounded(pick) && k < |amplitudes|
    ensures LegacySlots(pick, name, log0, amplitudes, j)[k].Some? <==> k <= j && amplitudes[k] != 0.0
    ensures k > j ==> LegacySlots(pick, name, log0, amplitudes, j)[k].None?
    ensures ModernSlots(pick, firstOctave, amplitudes)[k].Some? <==> amplitudes[k] != 0.0
    ensures amplitudes[k] != 0.0 ==>
              ModernSlots(pick, firstOctave, amplitudes)[k] == Some(SamplerPermutation(pick, OctaveName(firstOctave + k), []))
  {
  }

  /** One index of the legacy walk: build a sampler when the slot exists with a nonzero amplitude, else `skip(262)`. */
  method LegacyVisit(random: Random, amplitudes: seq<real>, kx: nat) returns (built: Slot)
    requires PickBounded(random.pick)
    modifies random`log
    ensures random.log == old(random.log) + LegacyStep(amplitudes, kx)
    ensures built == if LegacyBuilds(amplitudes, kx) then Some(SamplerPermutation(random.pick, random.name, old(random.log))) else Option.None
  {
    built := Option.None;
    if kx < |amplitudes| {
      var e := amplitudes[kx];
      if e != 0.0 {
        var p := NewSampler(random);
        built := Some(p[..]);
      } else {
        random.Skip(262);
      }
    } else {
      random.Skip(262);
    }
  }

  /** One step of the legacy walk, seen from the draw log. */
  lemma LegacyLogStep(log0: seq<Draw>, amplitudes: seq<real>, j: nat, m: nat)
    requires 0 < m <= j
    ensures LegacyLogBefore(log0, amplitudes, j, m - 1) == log0 + SamplerDraws + LegacySteps(amplitudes, j, m)
    ensures log0 + SamplerDraws + LegacySteps(amplitudes, j, m - 1)
            == (log0 + SamplerDraws + LegacySteps(amplitudes, j, m)) + LegacyStep(amplitudes, m - 1)
  {
    assert LegacySteps(amplitudes, j, m - 1) == LegacySteps(amplitudes, j, m) + LegacyStep(amplitudes, m - 1);
  }

  /** The slots after the legacy walk has reached index `m`: slots `m` and above are final, the rest empty. */
  predicate WalkedDownTo(slots: seq<Slot>, pick: Picker, name: string, log0: seq<Draw>, amplitudes: seq<real>, j: nat, m: nat)
    requires PickBounded(pick)
  {
    && |slots| == |amplitudes|
    && forall k :: 0 <= k < |slots| ==>
         slots[k] == if k >= m then LegacySlot(pick, name, log0, amplitudes, j, k) else Option.None
  }

  /**
   * Visiting index `m - 1` from the log `before` the walk has reached: the
   * log grows by that index's draws, and the slot gets the sampler that log
   * gives.
   */
  lemma WalkStep(slots: seq<Slot>, built: Slot, before: seq<Draw>, pick: Picker, name: string, log0: seq<Draw>, amplitudes: seq<real>, j: nat, m: nat)
    requires PickBounded(pick) && 0 < m <= j
    requires WalkedDownTo(slots, pick, name, log0, amplitudes, j, m)
    requires before == log0 + SamplerDraws + LegacySteps(amplitudes, j, m)
    requires built == if LegacyBuilds(amplitudes, m - 1) then Some(SamplerPermutation(pick, name, before)) else Option.None
    ensures before + LegacyStep(amplitudes, m - 1) == log0 + SamplerDraws + LegacySteps(amplitudes, j, m - 1)
    ensures WalkedDownTo(if m - 1 < |slots| then slots[m - 1 := built] else slots, pick, name, log0, amplitudes, j, m - 1)
  {
    LegacyLogStep(log0, amplitudes, j, m);
  }

  /** Before the walk, only slot `j` can hold a sampler: the one built first, from the parent log as it was. */
  lemma WalkStart(slots: seq<Slot>, sampler: seq<int>, pick: Picker, name: string, log0: seq<Draw>, amplitudes: seq<real>, j: nat)
    requires PickBounded(pick) && sampler == SamplerPermutation(pick, name, log0)
    requires |slots| == |amplitudes|
    requires forall k :: 0 <= k < |slots| && k != j ==> slots[k].None?
    requires j < |slots| ==> slots[j] == if amplitudes[j] != 0.0 then Some(sampler) else Option.None
    ensures WalkedDownTo(slots, pick, name, log0, amplitudes, j, j)
  {
  }

  /** The finished walk is `LegacySlots`. */
  lemma WalkDone(slots: seq<Slot>, pick: Picker, name: string, log0: seq<Draw>, amplitudes: seq<real>, j: nat)
    requires PickBounded(pick) && WalkedDownTo(slots, pick, name, log0, amplitudes, j, 0)
    ensures slots == LegacySlots(pick, name, log0, amplitudes, j)
  {
  }

  /**
   * The legacy branch of `OctavePerlinNoiseSampler::new`: one sampler is
   * always built first and kept only at slot `j = -first_octave`; then the
   * indices `j - 1` down to 0 each get a sampler or a `skip(262)`.
   */
  method FillLegacy(random: Random, firstOctave: int, amplitudes: seq<real>) returns (slots: seq<Slot>)
    requires firstOctave <= 0 && PickBounded(random.pick)
    modifies random`log
    ensures random.log == old(random.log) + SamplerDraws + LegacySteps(amplitudes, -firstOctave, 0)
    ensures slots == LegacySlots(random.pick, random.name, old(random.log), amplitudes, -firstOctave)
  {
    ghost var log0 := random.log;
    var i := |amplitudes|;
    var j: nat := -firstOctave;
    slots := seq(i, k => Option.None);
    var sampler := NewSampler(random);
    if j < i {
      var d := amplitudes[j];
      if d != 0.0 {
        slots := slots[j := Some(sampler[..])];
      }
    }
    WalkStart(slots, sampler[..], random.pick, random.name, log0, amplitudes, j);
    var m := j;
    while m > 0
      invariant 0 <= m <= j
      invariant random.log == log0 + SamplerDraws + LegacySteps(amplitudes, j, m)
      invariant WalkedDownTo(slots, random.pick, random.name, log0, amplitudes, j, m)
    {
      var kx := m - 1;
      ghost var before := random.log;
      var built := LegacyVisit(random, amplitudes, kx);
      WalkStep(slots, built, before, random.pick, random.name, log0, amplitudes, j, m);
      if kx < i {
        slots := slots[kx := built];
      }
      m := kx;
    }
    WalkDone(slots, random.pick, random.name, log0, amplitudes, j);
  }

  /** The slots after the modern loop has visited the indices below `k`. */
  predicate FilledUpTo(slots: seq<Slot>, pick: Picker, firstOctave: int, amplitudes: seq<real>, k: nat)
    requires PickBounded(pick)
  {
    && |slots| == |amplitudes|
    && forall t :: 0 <= t < |slots| ==>
         slots[t] == if t < k then ModernSlot(pick, firstOctave, amplitudes, t) else Option.None
  }

  /** Visiting index `k` stores the sampler of the octave's own stream, if its amplitude is nonzero. */
  lemma FillStep(slots: seq<Slot>, built: Slot, pick: Picker, firstOctave: int, amplitudes: seq<real>, k: nat)
    requires PickBounded(pick) && k < |amplitudes|
    requires FilledUpTo(slots, pick, firstOctave, amplitudes, k)
    requires built == if amplitudes[k] != 0.0 then Some(SamplerPermutation(pick, OctaveName(firstOctave + k), [])) else Option.None
    ensures FilledUpTo(if built.Some? then slots[k := built] else slots, pick, firstOctave, amplitudes, k + 1)
  {
  }

  /** The finished loop is `ModernSlots`. */
  lemma FillDone(slots: seq<Slot>, pick: Picker, firstOctave: int, amplitudes: seq<real>)
    requires PickBounded(pick) && FilledUpTo(slots, pick, firstOctave, amplitudes, |amplitudes|)
    ensures slots == ModernSlots(pick, firstOctave, amplitudes)
  {
  }

  /**
   * The modern branch: the parent stream only gives one splitter, and slot
   * `k` gets a sampler from the sub-stream `octave_{first_octave + k}`
   * exactly when its amplitude is not 0.
   */
  method FillModern(random: Random, firstOctave: int, amplitudes: seq<real>) returns (slots: seq<Slot>)
    requires PickBounded(random.pick)
    modifies random`log
    ensures random.log == old(random.log) + [SplitterDraw]
    ensures slots == ModernSlots(random.pick, firstOctave, amplitudes)
  {
    var i := |amplitudes|;
    slots := seq(i, k => Option.None);
    var splitter := random.NextSplitter();
    for k := 0 to i
      invariant random.log == old(random.log) + [SplitterDraw]
      invariant FilledUpTo(slots, random.pick, firstOctave, amplitudes, k)
    {
      var built: Slot := Option.None;
      if amplitudes[k] != 0.0 {
        var l := firstOctave + k;
        var sub := splitter.SplitString(OctaveName(l));
        var p := NewSampler(sub);
        built := Some(p[..]);
      }
      FillStep(slots, built, random.pick, firstOctave, amplitudes, k);
      if built.Some? {
        slots := slots[k := built];
      }
    }
    FillDone(slots, random.pick, firstOctave, amplitudes);
  }


  /** A kept sampler with its slot, amplitude and lacunarity (`SamplerData`, persistence left out). */
  datatype SamplerData = SamplerData(slot: nat, permutation: seq<int>, amplitude: real, lacunarity: real)

  /** The kept samplers among the first `k` slots, in slot order. */
  function Collected(slots: seq<Slot>, amplitudes: seq<real>, firstOctave: int, k: nat): seq<SamplerData>
    requires |slots| == |amplitudes| && k <= |slots|
  {
    if k == 0 then []
    else
      var t := k - 1;
      Collected(slots, amplitudes, firstOctave, t)
      + (if slots[t].Some? then [SamplerData(t, slots[t].value, amplitudes[t], Pow2(firstOctave + t))] else [])
  }

  /** A kept sampler sits in a filled slot below `k`, with that slot's amplitude and lacunarity. */
  predicate EntryFits(d: SamplerData, slots: seq<Slot>, amplitudes: seq<real>, firstOctave: int, k: nat)
    requires |slots| == |amplitudes| && k <= |slots|
  {
    && d.slot < k
    && slots[d.slot] == Some(d.permutation)
    && d.amplitude == amplitudes[d.slot]
    && d.lacunarity == Pow2(firstOctave + d.slot)
  }

  /**
   * `data` lists exactly the filled slots among the first `k`, in ascending
   * slot order, each with its own amplitude and the lacunarity
   * `2^(first_octave + slot)`.
   */
  predicate CollectsFilled(data: seq<SamplerData>, slots: seq<Slot>, amplitudes: seq<real>, firstOctave: int, k: nat)
    requires |slots| == |amplitudes| && k <= |slots|
  {
    && (forall t :: 0 <= t < |data| ==> EntryFits(data[t], slots, amplitudes, firstOctave, k))
    && (forall a, b :: 0 <= a < b < |data| ==> data[a].slot < data[b].slot)
    && (forall s :: 0 <= s < k && slots[s].Some? ==> exists t :: 0 <= t < |data| && data[t].slot == s)
  }

  /** The samplers kept from the first `k` slots, as the last one is added. */
  lemma CollectedUnfolds(slots: seq<Slot>, amplitudes: seq<real>, firstOctave: int, k: nat)
    requires |slots| == |amplitudes| && 0 < k <= |slots|
    ensures var front := Collected(slots, amplitudes, firstOctave, k - 1);
            var data := Collected(slots, amplitudes, firstOctave, k);
            && (slots[k - 1].None? ==> data == front)
            && (slots[k - 1].Some? ==>
                  data == front + [SamplerData(k - 1, slots[k - 1].value, amplitudes[k - 1], Pow2(firstOctave + (k - 1)))])
  {
  }

  lemma {:induction false} CollectedEntries(slots: seq<Slot>, amplitudes: seq<real>, firstOctave: int, k: nat)
    requires |slots| == |amplitudes| && k <= |slots|
    ensures var data := Collected(slots, amplitudes, firstOctave, k);
            forall t :: 0 <= t < |data| ==> EntryFits(data[t], slots, amplitudes, firstOctave, k)
  {
    if k > 0 {
      CollectedEntries(slots, amplitudes, firstOctave, k - 1);
      CollectedUnfolds(slots, amplitudes, firstOctave, k);
      var front := Collected(slots, amplitudes, firstOctave, k - 1);
      var data := Collected(slots, amplitudes, firstOctave, k);
      forall t | 0 <= t < |data| ensures EntryFits(data[t], slots, amplitudes, firstOctave, k) {
        if t < |front| {
          assert data[t] == front[t];
          assert EntryFits(front[t], slots, amplitudes, firstOctave, k - 1);
        }
      }
    }
  }

  lemma {:induction false} CollectedOrdered(slots: seq<Slot>, amplitudes: seq<real>, firstOctave: int, k: nat)
    requires |slots| == |amplitudes| && k <= |slots|
    ensures var data := Collected(slots, amplitudes, firstOctave, k);
            forall a, b :: 0 <= a < b < |data| ==> data[a].slot < data[b].slot
  {
    if k > 0 {
      CollectedOrdered(slots, amplitudes, firstOctave, k - 1);
      CollectedEntries(slots, amplitudes, firstOctave, k - 1);
      CollectedUnfolds(slots, amplitudes, firstOctave, k);
      var front := Collected(slots, amplitudes, firstOctave, k - 1);
      var data := Collected(slots, amplitudes, firstOctave, k);
      forall a, b | 0 <= a < b < |data| ensures data[a].slot < data[b].slot {
        assert data[a] == front[a];
        assert EntryFits(front[a], slots, amplitudes, firstOctave, k - 1);
        if b < |front| {
          assert data[b] == front[b];
        }
      }
    }
  }

  lemma {:induction false} CollectedComplete(slots: seq<Slot>, amplitudes: seq<real>, firstOctave: int, k: nat)
    requires |slots| == |amplitudes| && k <= |slots|
    ensures var data := Collected(slots, amplitudes, firstOctave, k);
            forall s :: 0 <= s < k && slots[s].Some? ==> exists t :: 0 <= t < |data| && data[t].slot == s
  {
    if k > 0 {
      CollectedComplete(slots, amplitudes, firstOctave, k - 1);
      CollectedUnfolds(slots, amplitudes, firstOctave, k);
      var front := Collected(slots, amplitudes, firstOctave, k - 1);
      var data := Collected(slots, amplitudes, firstOctave, k);
      forall s | 0 <= s < k && slots[s].Some? ensures exists t :: 0 <= t < |data| && data[t].slot == s {
        if s < k - 1 {
          var t :| 0 <= t < |front| && front[t].slot == s;
          assert data[t] == front[t];
        } else {
          assert data[|front|].slot == s;
        }
      }
    }
  }

  /** The samplers `Collected` keeps are exactly the filled slots, in order. */
  lemma CollectedFacts(slots: seq<Slot>, amplitudes: seq<real>, firstOctave: int, k: nat)
    requires |slots| == |amplitudes| && k <= |slots|
    ensures CollectsFilled(Collected(slots, amplitudes, firstOctave, k), slots, amplitudes, firstOctave, k)
  {
    CollectedEntries(slots, amplitudes, firstOctave, k);
    CollectedOrdered(slots, amplitudes, firstOctave, k);
    CollectedComplete(slots, amplitudes, firstOctave, k);
  }

  /** The `filter_map` over the slots, with the lacunarity doubling from `2^first_octave`. */
  method CollectSamplers(slots: seq<Slot>, amplitudes: seq<real>, firstOctave: int) returns (data: seq<SamplerData>)
    requires |slots| == |amplitudes|
    ensures data == Collected(slots, amplitudes, firstOctave, |slots|)
  {
    var lacunarity := Pow2(firstOctave);
    data := [];
    for k := 0 to |slots|
      invariant lacunarity == Pow2(firstOctave + k)
      invariant data == Collected(slots, amplitudes, firstOctave, k)
    {
      if slots[k].Some? {
        data := data + [SamplerData(k, slots[k].value, amplitudes[k], lacunarity)];
      }
      Pow2Step(firstOctave + k);
      lacunarity := lacunarity * 2.0;
    }
  }

  /** `OctavePerlinNoiseSampler::new` (slots, draws and lacunarities). */
  method NewOctaveSampler(random: Random, firstOctave: int, amplitudes: seq<real>, legacy: bool)
    returns (data: seq<SamplerData>)
    requires PickBounded(random.pick)
    requires legacy ==> firstOctave <= 0
    modifies random`log
    ensures legacy ==>
              && random.log == old(random.log) + SamplerDraws + LegacySteps(amplitudes, -firstOctave, 0)
              && data == Collected(LegacySlots(random.pick, random.name, old(random.log), amplitudes, -firstOctave),
                                   amplitudes, firstOctave, |amplitudes|)
    ensures !legacy ==>
              && random.log == old(random.log) + [SplitterDraw]
              && data == Collected(ModernSlots(random.pick, firstOctave, amplitudes), amplitudes, firstOctave, |amplitudes|)
  {
    var slots;
    if legacy {
      slots := FillLegacy(random, firstOctave, amplitudes);
    } else {
      slots := FillModern(random, firstOctave, amplitudes);
    }
    data := CollectSamplers(slots, amplitudes, firstOctave);
  }

  /** Every sampler's table is a true permutation of 0..255, so every filled slot holds one. */
  lemma SamplerPermutationIsPermutation(pick: Picker, name: string, log0: seq<Draw>)
    requires PickBounded(pick)
    ensures IsPermutation(SamplerPermutation(pick, name, log0))
  {
    DrawnValid(pick, name, log0 + [FloatDraw, FloatDraw, FloatDraw], 256);
    ShuffleIsPermutation(Drawn(pick, name, log0 + [FloatDraw, FloatDraw, FloatDraw], 256));
  }
}
