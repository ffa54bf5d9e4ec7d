// The multi-noise biome lookup generated by pumpkin-data/build/biome.rs: a
// branch-and-bound nearest-leaf search over a fixed tree of parameter ranges,
// warm-started from the previous answer, and the biome name and id tables.

module BiomeSearch {
  import opened Common

  /** A biome; two biomes are the same biome exactly when their ids agree. */
  datatype Biome = Biome(id: nat, registryId: string)

  /** `PartialEq for Biome`. */
  predicate SameBiome(a: Biome, b: Biome)
  {
    a.id == b.id
  }

  /** `ParameterRange`. */
  datatype Range = Range(min: int, max: int)

  /** `BiomeTree`: every node carries seven ranges (one per climate axis). */
  datatype Node =
    | Leaf(params: seq<Range>, biome: Biome)
    | Branch(params: seq<Range>, nodes: seq<Node>)

  const I64Max: int := 0x7fff_ffff_ffff_ffff

  /** `calc_distance`: how far `noise` lies outside the range. */
  function CalcDistance(r: Range, noise: int): (d: int)
    ensures d >= 0
    ensures d == 0 <==> r.min <= noise <= r.max
    ensures noise > r.max ==> d == noise - r.max
    ensures noise <= r.max && noise < r.min ==> d == r.min - noise
  {
    if noise > r.max then noise - r.max
    else if noise < r.min then r.min - noise
    else 0
  }

  /** A range that contains another is never farther from any noise value. */
  lemma CalcDistanceMonotone(outer: Range, inner: Range, noise: int)
    requires outer.min <= inner.min <= inner.max <= outer.max
    ensures CalcDistance(outer, noise) <= CalcDistance(inner, noise)
  {
  }

  /** The sum over the zipped axes of the squared `calc_distance`. */
  function SquaredSum(ps: seq<Range>, point: seq<int>): int
    decreases |ps|
  {
    if ps == [] || point == [] then 0
    else CalcDistance(ps[0], point[0]) * CalcDistance(ps[0], point[0]) + SquaredSum(ps[1..], point[1..])
  }

  /** `get_squared_distance`, with the node's own ranges for leaves and branches alike. */
  function SqDist(n: Node, point: seq<int>): int
  {
    SquaredSum(n.params, point)
  }

  /**
   * The squared distance is never negative, and it is 0 exactly when the
   * point lies inside every range it is zipped with.
   */
  lemma {:induction false} SquaredSumZero(ps: seq<Range>, point: seq<int>)
    ensures SquaredSum(ps, point) >= 0
    ensures SquaredSum(ps, point) == 0 <==>
              forall j :: 0 <= j < |ps| && j < |point| ==> ps[j].min <= point[j] <= ps[j].max
    decreases |ps|
  {
    if ps != [] && point != [] {
      SquaredSumZero(ps[1..], point[1..]);
      var d := CalcDistance(ps[0], point[0]);
      assert d * d >= 0;
      assert d * d == 0 <==> d == 0;
      InsideSplits(ps, point);
    }
  }

  /** Being inside every zipped range means being inside the first and inside the rest. */
  lemma InsideSplits(ps: seq<Range>, point: seq<int>)
    requires ps != [] && point != []
    ensures (forall j :: 0 <= j < |ps| && j < |point| ==> ps[j].min <= point[j] <= ps[j].max)
        <==> (ps[0].min <= point[0] <= ps[0].max
              && forall j :: 0 <= j < |ps[1..]| && j < |point[1..]| ==> ps[1..][j].min <= point[1..][j] <= ps[1..][j].max)
  {
    if forall j :: 0 <= j < |ps[1..]| && j < |point[1..]| ==> ps[1..][j].min <= point[1..][j] <= ps[1..][j].max {
      forall j | 1 <= j < |ps| && j < |point| ensures ps[j].min <= point[j] <= ps[j].max {
        assert ps[1..][j - 1] == ps[j] && point[1..][j - 1] == point[j];
      }
    }
  }

  /** Ranges that contain other ranges, axis by axis. */
  predicate RangesEnclose(outer: seq<Range>, inner: seq<Range>)
  {
    |outer| == |inner|
    && forall j :: 0 <= j < |outer| ==> outer[j].min <= inner[j].min <= inner[j].max <= outer[j].max
  }

  lemma {:induction false} SquaredSumMonotone(outer: seq<Range>, inner: seq<Range>, point: seq<int>)
    requires RangesEnclose(outer, inner)
    ensures SquaredSum(outer, point) <= SquaredSum(inner, point)
    decreases |outer|
  {
    if outer != [] && point != [] {
      assert RangesEnclose(outer[1..], inner[1..]);
      SquaredSumMonotone(outer[1..], inner[1..], point[1..]);
      CalcDistanceMonotone(outer[0], inner[0], point[0]);
      SquareMonotone(CalcDistance(outer[0], point[0]), CalcDistance(inner[0], point[0]));
    }
  }

  lemma SquareMonotone(a: int, b: int)
    requires 0 <= a <= b
    ensures a * a <= b * b
  {
    assert a * a <= a * b;
    assert a * b <= b * b;
  }

  /** `l` is a leaf somewhere in the tree `n`. */
  ghost predicate IsLeafOf(l: Node, n: Node)
    decreases n
  {
    if n.Leaf? then l == n
    else exists k :: 0 <= k < |n.nodes| && IsLeafOf(l, n.nodes[k])
  }

  lemma {:induction false} LeavesAreLeaves(l: Node, n: Node)
    requires IsLeafOf(l, n)
    ensures l.Leaf?
    decreases n
  {
    if n.Branch? {
      var k :| 0 <= k < |n.nodes| && IsLeafOf(l, n.nodes[k]);
      LeavesAreLeaves(l, n.nodes[k]);
    }
  }

  /** Every branch's ranges contain those of its children, all the way down. */
  ghost predicate Encloses(n: Node)
    decreases n
  {
    n.Branch? ==>
      forall k :: 0 <= k < |n.nodes| ==> RangesEnclose(n.params, n.nodes[k].params) && Encloses(n.nodes[k])
  }

  /** Under enclosure a node's distance bounds the distance of each of its leaves from below. */
  lemma {:induction false} NodeBoundsLeaves(n: Node, l: Node, point: seq<int>)
    requires Encloses(n) && IsLeafOf(l, n)
    ensures SqDist(n, point) <= SqDist(l, point)
    decreases n
  {
    if n.Branch? {
      var k :| 0 <= k < |n.nodes| && IsLeafOf(l, n.nodes[k]);
      NodeBoundsLeaves(n.nodes[k], l, point);
      SquaredSumMonotone(n.params, n.nodes[k].params, point);
    }
  }

  /** The result of `get_resulting_node`, or the panic of its `expect`. */
  datatype Outcome = Found(node: Node) | Panic

  /** The distance the search starts from: the hint's, or `i64::MAX` without one. */
  function HintDistance(hint: Option<Node>, point: seq<int>): int
  {
    if hint.Some? then SqDist(hint.value, point) else I64Max
  }

  /** `get_resulting_node`. */
  function Resolve(n: Node, point: seq<int>, hint: Option<Node>): Outcome
    decreases n, 1
  {
    match n
    case Leaf(_, _) => Found(n)
    case Branch(_, _) => Scan(n, point, 0, hint, HintDistance(hint, point))
  }

  /** The loop of `get_resulting_node` from child `i` on, with the running best and its distance. */
  function Scan(parent: Node, point: seq<int>, i: nat, best: Option<Node>, distance: int): Outcome
    requires parent.Branch? && i <= |parent.nodes|
    decreases parent, 0, |parent.nodes| - i
  {
    if i == |parent.nodes| then
      if best.Some? then Found(best.value) else Panic
    else
      var node := parent.nodes[i];
      var nodeDistance := SqDist(node, point);
      if distance > nodeDistance then
        match Resolve(node, point, best)
        case Panic => Panic
        case Found(node2) =>
          var node2Distance := if node == node2 then nodeDistance else SqDist(node2, point);
          if distance > node2Distance then Scan(parent, point, i + 1, Some(node2), node2Distance)
          else Scan(parent, point, i + 1, best, distance)
      else Scan(parent, point, i + 1, best, distance)
  }

  /**
   * The running best distance only goes down: the answer is never farther
   * than the distance the scan started from, and anything but the starting
   * best is strictly closer (ties keep the earlier best).
   */
  lemma {:induction false} ScanBound(parent: Node, point: seq<int>, i: nat, best: Option<Node>, distance: int)
    requires parent.Branch? && i <= |parent.nodes|
    requires best.Some? ==> distance == SqDist(best.value, point)
    ensures Scan(parent, point, i, best, distance).Found? ==>
              && SqDist(Scan(parent, point, i, best, distance).node, point) <= distance
              && (Some(Scan(parent, point, i, best, distance).node) != best ==>
                    SqDist(Scan(parent, point, i, best, distance).node, point) < distance)
    decreases |parent.nodes| - i
  {
    if i < |parent.nodes| {
      var node := parent.nodes[i];
      if distance > SqDist(node, point) && Resolve(node, point, best).Found? {
        var node2 := Resolve(node, point, best).node;
        if distance > SqDist(node2, point) {
          ScanBound(parent, point, i + 1, Some(node2), SqDist(node2, point));
        } else {
          ScanBound(parent, point, i + 1, best, distance);
        }
      } else {
        ScanBound(parent, point, i + 1, best, distance);
      }
    }
  }

  /**
   * On a branch the answer is never farther than the hint (or `i64::MAX`),
   * and an answer other than the hint is strictly closer than it.
   */
  lemma BranchNeverFartherThanHint(n: Node, point: seq<int>, hint: Option<Node>)
    requires n.Branch?
    ensures Resolve(n, point, hint).Found? ==>
              && SqDist(Resolve(n, point, hint).node, point) <= HintDistance(hint, point)
              && (Some(Resolve(n, point, hint).node) != hint ==>
                    SqDist(Resolve(n, point, hint).node, point) < HintDistance(hint, point))
  {
    ScanBound(n, point, 0, hint, HintDistance(hint, point));
  }

  /** A leaf answers with itself, whatever the point or hint. */
  lemma LeafResolvesToItself(n: Node, point: seq<int>, hint: Option<Node>)
    requires n.Leaf?
    ensures Resolve(n, point, hint) == Found(n)
  {
  }

  /** The answer is a leaf of the tree or the hint itself. */
  lemma {:induction false} ResolveOrigin(n: Node, point: seq<int>, hint: Option<Node>)
    ensures Resolve(n, point, hint).Found? ==>
              IsLeafOf(Resolve(n, point, hint).node, n) || hint == Some(Resolve(n, point, hint).node)
    decreases n, 1
  {
    if n.Branch? {
      ScanOrigin(n, point, 0, hint, HintDistance(hint, point));
      if Resolve(n, point, hint).Found? && hint != Some(Resolve(n, point, hint).node) {
        var k :| 0 <= k < |n.nodes| && IsLeafOf(Resolve(n, point, hint).node, n.nodes[k]);
      }
    }
  }

  lemma {:induction false} ScanOrigin(parent: Node, point: seq<int>, i: nat, best: Option<Node>, distance: int)
    requires parent.Branch? && i <= |parent.nodes|
    ensures Scan(parent, point, i, best, distance).Found? ==>
              || best == Some(Scan(parent, point, i, best, distance).node)
              || exists k :: i <= k < |parent.nodes| && IsLeafOf(Scan(parent, point, i, best, distance).node, parent.nodes[k])
    decreases parent, 0, |parent.nodes| - i
  {
    if i < |parent.nodes| {
      var node := parent.nodes[i];
      var nodeDistance := SqDist(node, point);
      if distance > nodeDistance && Resolve(node, point, best).Found? {
        var node2 := Resolve(node, point, best).node;
        ResolveOrigin(node, point, best);
        if distance > SqDist(node2, point) {
          ScanOrigin(parent, point, i + 1, Some(node2), SqDist(node2, point));
        } else {
          ScanOrigin(parent, point, i + 1, best, distance);
        }
      } else {
        ScanOrigin(parent, point, i + 1, best, distance);
      }
    }
  }

  /** With a hint the search never reaches its `expect`. */
  lemma {:induction false} HintPreventsPanic(n: Node, point: seq<int>, hint: Option<Node>)
    requires hint.Some?
    ensures Resolve(n, point, hint).Found?
    decreases n, 1
  {
    if n.Branch? {
      ScanWithBestFinds(n, point, 0, hint, HintDistance(hint, point));
    }
  }

  lemma {:induction false} ScanWithBestFinds(parent: Node, point: seq<int>, i: nat, best: Option<Node>, distance: int)
    requires parent.Branch? && i <= |parent.nodes|
    requires best.Some?
    ensures Scan(parent, point, i, best, distance).Found?
    decreases parent, 0, |parent.nodes| - i
  {
    if i < |parent.nodes| {
      var node := parent.nodes[i];
      if distance > SqDist(node, point) {
        HintPreventsPanic(node, point, best);
        var node2 := Resolve(node, point, best).node;
        if distance > SqDist(node2, point) {
          ScanWithBestFinds(parent, point, i + 1, Some(node2), SqDist(node2, point));
        } else {
          ScanWithBestFinds(parent, point, i + 1, best, distance);
        }
      } else {
        ScanWithBestFinds(parent, point, i + 1, best, distance);
      }
    }
  }

  /** Without a hint, a branch with no children panics. */
  lemma EmptyBranchPanics(params: seq<Range>, point: seq<int>)
    ensures Resolve(Branch(params, []), point, Option.None) == Panic
  {
  }

  /**
   * When every branch encloses its children, the answer is a nearest leaf:
   * no leaf of the tree is closer.
   */
  lemma {:induction false} ResolveIsNearest(n: Node, point: seq<int>, hint: Option<Node>)
    requires Encloses(n)
    ensures Resolve(n, point, hint).Found? ==>
              forall l :: IsLeafOf(l, n) ==> SqDist(Resolve(n, point, hint).node, point) <= SqDist(l, point)
    decreases n, 1
  {
    if n.Branch? && Resolve(n, point, hint).Found? {
      ScanIsNearest(n, point, 0, hint, HintDistance(hint, point));
      forall l | IsLeafOf(l, n) ensures SqDist(Resolve(n, point, hint).node, point) <= SqDist(l, point) {
        var k :| 0 <= k < |n.nodes| && IsLeafOf(l, n.nodes[k]);
      }
    }
  }

  lemma {:induction false} ScanIsNearest(parent: Node, point: seq<int>, i: nat, best: Option<Node>, distance: int)
    requires parent.Branch? && i <= |parent.nodes| && Encloses(parent)
    requires best.Some? ==> distance == SqDist(best.value, point)
    requires forall k, l :: 0 <= k < i && IsLeafOf(l, parent.nodes[k]) ==> distance <= SqDist(l, point)
    ensures Scan(parent, point, i, best, distance).Found? ==>
              forall k, l :: 0 <= k < |parent.nodes| && IsLeafOf(l, parent.nodes[k]) ==>
                SqDist(Scan(parent, point, i, best, distance).node, point) <= SqDist(l, point)
    decreases parent, 0, |parent.nodes| - i
  {
    if i < |parent.nodes| {
      var node := parent.nodes[i];
      var nodeDistance := SqDist(node, point);
      if distance > nodeDistance {
        if Resolve(node, point, best).Found? {
          var node2 := Resolve(node, point, best).node;
          ResolveIsNearest(node, point, best);
          ResolveOrigin(node, point, best);
          if node2 == node {
            assert IsLeafOf(node2, node);
          }
          if distance > SqDist(node2, point) {
            ScanIsNearest(parent, point, i + 1, Some(node2), SqDist(node2, point));
          } else {
            ScanIsNearest(parent, point, i + 1, best, distance);
          }
        }
      } else {
        forall l | IsLeafOf(l, node) ensures distance <= SqDist(l, point) {
          NodeBoundsLeaves(node, l, point);
        }
        ScanIsNearest(parent, point, i + 1, best, distance);
      }
    }
  }

  /**
   * Under enclosure, a hint taken from the same tree does not change the
   * distance of the answer: with or without it, the search finds a leaf at
   * the minimum distance.
   */
  lemma HintDoesNotChangeMinimum(n: Node, point: seq<int>, h: Node)
    requires Encloses(n) && IsLeafOf(h, n)
    requires Resolve(n, point, Option.None).Found?
    ensures Resolve(n, point, Some(h)).Found?
    ensures SqDist(Resolve(n, point, Some(h)).node, point) == SqDist(Resolve(n, point, Option.None).node, point)
  {
    HintPreventsPanic(n, point, Some(h));
    ResolveOrigin(n, point, Some(h));
    ResolveOrigin(n, point, Option.None);
    ResolveIsNearest(n, point, Some(h));
    ResolveIsNearest(n, point, Option.None);
  }

  /** `get_resulting_node`: recursion into the children, with the running best in two variables. */
  method GetResultingNode(n: Node, point: seq<int>, hint: Option<Node>) returns (r: Node)
    requires Resolve(n, point, hint).Found?
    ensures Resolve(n, point, hint) == Found(r)
    ensures n.Leaf? ==> r == n
    ensures n.Branch? ==> SqDist(r, point) <= HintDistance(hint, point)
    decreases n
  {
    match n {
      case Leaf(_, _) =>
        return n;
      case Branch(_, nodes) =>
        var distance := if hint.Some? then SqDist(hint.value, point) else I64Max;
        var bestNode := hint;
        var i := 0;
        while i < |nodes|
          invariant 0 <= i <= |nodes|
          invariant Scan(n, point, i, bestNode, distance) == Resolve(n, point, hint)
        {
          var node := nodes[i];
          var nodeDistance := SqDist(node, point);
          if distance > nodeDistance {
            var node2 := GetResultingNode(node, point, bestNode);
            var node2Distance := if node == node2 then nodeDistance else SqDist(node2, point);
            if distance > node2Distance {
              distance := node2Distance;
              bestNode := Some(node2);
            }
          }
          i := i + 1;
        }
        BranchNeverFartherThanHint(n, point, hint);
        return bestNode.value;
    }
  }

  /** A hint slot that only ever holds a leaf (or nothing). */
  class Cache {
    var previous: Option<Node>

    constructor ()
      ensures previous == Option.None
    {
      previous := Option.None;
    }

    ghost predicate Valid()
      reads this
    {
      previous.Some? ==> previous.value.Leaf?
    }

    /**
     * `get`: the answer, warm-started from the slot, is stored back in the
     * slot and its biome returned. With a leaf (or no) hint the answer is
     * always a leaf, so the `unreachable!` arm is never taken.
     */
    method Get(tree: Node, point: seq<int>) returns (b: Biome)
      requires Valid()
      requires Resolve(tree, point, previous).Found?
      modifies this
      ensures Valid()
      ensures previous == Some(Resolve(tree, point, old(previous)).node)
      ensures b == Resolve(tree, point, old(previous)).node.biome
    {
      var node := GetResultingNode(tree, point, previous);
      ResolveOrigin(tree, point, previous);
      if IsLeafOf(node, tree) {
        LeavesAreLeaves(node, tree);
      }
      match node {
        case Leaf(_, biome) =>
          previous := Some(node);
          b := biome;
        case Branch(_, _) =>
          assert false;
      }
    }
  }

  /** `Biome::from_name`: the biome registered under `name`. */
  function FromName(table: seq<Biome>, name: string): (r: Option<Biome>)
    ensures r.Some? ==> r.value in table && r.value.registryId == name
    ensures r.None? <==> forall b :: b in table ==> b.registryId != name
  {
    if table == [] then Option.None
    else if table[0].registryId == name then Some(table[0])
    else FromName(table[1..], name)
  }

  /** `Biome::from_id`: the biome with id `id`. */
  function FromId(table: seq<Biome>, id: nat): (r: Option<Biome>)
    ensures r.Some? ==> r.value in table && r.value.id == id
    ensures r.None? <==> forall b :: b in table ==> b.id != id
  {
    if table == [] then Option.None
    else if table[0].id == id then Some(table[0])
    else FromId(table[1..], id)
  }

  /** Names are keys of the biome file, and ids are distinct. */
  ghost predicate TableWellFormed(table: seq<Biome>)
  {
    forall i, j :: 0 <= i < j < |table| ==> table[i].registryId != table[j].registryId && table[i].id != table[j].id
  }

  /** Each registered biome is found again by its name and by its id. */
  lemma {:induction false} LookupsRoundTrip(table: seq<Biome>, b: Biome)
    requires TableWellFormed(table) && b in table
    ensures FromName(table, b.registryId) == Some(b)
    ensures FromId(table, b.id) == Some(b)
    decreases |table|
  {
    if table[0] != b {
      assert b in table[1..];
      assert TableWellFormed(table[1..]) by {
        forall i, j | 0 <= i < j < |table[1..]|
          ensures table[1..][i].registryId != table[1..][j].registryId && table[1..][i].id != table[1..][j].id
        {
          assert table[1..][i] == table[i + 1] && table[1..][j] == table[j + 1];
        }
      }
      var k :| 0 <= k < |table| && table[k] == b;
      assert k > 0;
      LookupsRoundTrip(table[1..], b);
    }
  }

  const MinecraftPrefix: string := "minecraft:"

  /** The biome deserialiser: an optional `minecraft:` prefix, then `from_name`. */
  function ParseBiome(table: seq<Biome>, s: string): (r: Option<Biome>)
    ensures |s| >= |MinecraftPrefix| && s[..|MinecraftPrefix|] == MinecraftPrefix ==>
              r == FromName(table, s[|MinecraftPrefix|..])
    ensures !(|s| >= |MinecraftPrefix| && s[..|MinecraftPrefix|] == MinecraftPrefix) ==> r == FromName(table, s)
    ensures r.Some? ==> r.value in table
  {
    if |s| >= |MinecraftPrefix| && s[..|MinecraftPrefix|] == MinecraftPrefix then FromName(table, s[|MinecraftPrefix|..])
    else FromName(table, s)
  }

  /** A string naming no biome, with or without the prefix, is an error. */
  lemma ParseBiomeRejectsUnknown(table: seq<Biome>, s: string)
    requires forall b :: b in table ==> b.registryId != s
    requires forall b :: b in table ==> MinecraftPrefix + b.registryId != s
    ensures ParseBiome(table, s).None?
  {
    if |s| >= |MinecraftPrefix| && s[..|MinecraftPrefix|] == MinecraftPrefix {
      assert s == MinecraftPrefix + s[|MinecraftPrefix|..];
    }
  }

  /** A biome name parses with or without its namespace. */
  lemma ParseBiomeAcceptsBothForms(table: seq<Biome>, b: Biome)
    requires TableWellFormed(table) && b in table
    requires |b.registryId| < |MinecraftPrefix| || b.registryId[..|MinecraftPrefix|] != MinecraftPrefix
    ensures ParseBiome(table, b.registryId) == Some(b)
    ensures ParseBiome(table, MinecraftPrefix + b.registryId) == Some(b)
  {
    LookupsRoundTrip(table, b);
    var s := MinecraftPrefix + b.registryId;
    assert s[..|MinecraftPrefix|] == MinecraftPrefix && s[|MinecraftPrefix|..] == b.registryId;
  }
}
