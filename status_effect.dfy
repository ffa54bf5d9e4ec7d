// The generated `EffectType` name tables (pumpkin-data/build/status_effect.rs).
// The build step reads the list of status names and emits, per name, one
// enum variant and one arm in each of four `match` tables. An effect is
// modelled as its index in that list, and each parser as a first-match
// lookup over the arms it was generated with.

module StatusEffects {
  import opened Common

  const MinecraftPrefix: string := "minecraft:"

  /** ASCII lower-casing of one character. */
  function LowerChar(c: char): (r: char)
    ensures !('A' <= r <= 'Z')
    ensures 'A' <= c <= 'Z' ==> r as int == c as int + 32
    ensures !('A' <= c <= 'Z') ==> r == c
  {
    if 'A' <= c <= 'Z' then (c as int + 32) as char else c
  }

  /** `to_lowercase`, character by character. */
  function Lower(s: string): (r: string)
    ensures |r| == |s|
    ensures forall i :: 0 <= i < |s| ==> r[i] == LowerChar(s[i])
    decreases |s|
  {
    if s == [] then [] else [LowerChar(s[0])] + Lower(s[1..])
  }

  /** Lower-casing twice is lower-casing once. */
  lemma LowerIdempotent(s: string)
    ensures Lower(Lower(s)) == Lower(s)
  {
    var l := Lower(s);
    assert forall i :: 0 <= i < |l| ==> Lower(l)[i] == l[i];
  }

  /** One arm of a generated parser: the string it matches and the effect it yields. */
  type Arm = (string, nat)

  /** The parser arms generated for the status list, each pattern led by `prefix`. */
  function Arms(statuses: seq<string>, prefix: string): (r: seq<Arm>)
    ensures |r| == |statuses|
    ensures forall i :: 0 <= i < |statuses| ==> r[i] == (prefix + Lower(statuses[i]), i)
  {
    seq(|statuses|, i requires 0 <= i < |statuses| => (prefix + Lower(statuses[i]), i))
  }

  /** The printer arms generated for the status list: the effect's name led by `prefix`. */
  function Names(statuses: seq<string>, prefix: string): (r: seq<string>)
    ensures |r| == |statuses|
    ensures forall i :: 0 <= i < |statuses| ==> r[i] == prefix + Lower(statuses[i])
  {
    seq(|statuses|, i requires 0 <= i < |statuses| => prefix + Lower(statuses[i]))
  }

  /**
   * A string `match`: the first arm whose pattern equals `name` decides;
   * with none, the `_ => None` arm.
   */
  function Match(arms: seq<Arm>, name: string): (r: Option<nat>)
    ensures r.None? <==> forall i :: 0 <= i < |arms| ==> arms[i].0 != name
    ensures r.Some? ==> exists i :: 0 <= i < |arms| && arms[i] == (name, r.value)
                                    && forall j :: 0 <= j < i ==> arms[j].0 != name
    decreases |arms|
  {
    if arms == [] then Option.None
    else if arms[0].0 == name then Some(arms[0].1)
    else
      var r := Match(arms[1..], name);
      if r.Some? then
        var k :| 0 <= k < |arms[1..]| && arms[1..][k] == (name, r.value)
                 && forall j :: 0 <= j < k ==> arms[1..][j].0 != name;
        assert arms[k + 1] == (name, r.value);
        r
      else r
  }

  /** `from_name`. */
  function FromName(statuses: seq<string>, name: string): Option<nat>
  {
    Match(Arms(statuses, ""), name)
  }

  /** `from_minecraft_name`. */
  function FromMinecraftName(statuses: seq<string>, name: string): Option<nat>
  {
    Match(Arms(statuses, MinecraftPrefix), name)
  }

  /** `to_name`: the lower-cased status string. */
  function ToName(statuses: seq<string>, e: nat): (r: string)
    requires e < |statuses|
    ensures r == Lower(statuses[e])
  {
    assert "" + Lower(statuses[e]) == Lower(statuses[e]);
    Names(statuses, "")[e]
  }

  /** `to_minecraft_name`: the name under the `minecraft:` namespace. */
  function ToMinecraftName(statuses: seq<string>, e: nat): (r: string)
    requires e < |statuses|
    ensures r == MinecraftPrefix + ToName(statuses, e)
  {
    Names(statuses, MinecraftPrefix)[e]
  }

  /** No two status names lower-case to the same string. */
  predicate DistinctNames(statuses: seq<string>)
  {
    forall i, j :: 0 <= i < j < |statuses| ==> Lower(statuses[i]) != Lower(statuses[j])
  }

  lemma PrefixCancels(p: string, a: string, b: string)
    ensures p + a == p + b <==> a == b
  {
    if p + a == p + b {
      assert a == (p + a)[|p|..];
      assert b == (p + b)[|p|..];
    }
  }

  /** A parser answers only effects whose printed name is the string it was given. */
  lemma ParseSound(statuses: seq<string>, prefix: string, name: string)
    ensures var r := Match(Arms(statuses, prefix), name);
            r.Some? ==> r.value < |statuses| && Names(statuses, prefix)[r.value] == name
  {
  }

  /** With distinct names, parsing a printed name gives back the effect, under either prefix. */
  lemma ParsePrinted(statuses: seq<string>, prefix: string, e: nat)
    requires DistinctNames(statuses) && e < |statuses|
    ensures Match(Arms(statuses, prefix), Names(statuses, prefix)[e]) == Some(e)
  {
    var name := Names(statuses, prefix)[e];
    var arms := Arms(statuses, prefix);
    assert arms[e].0 == name;
    var r := Match(arms, name);
    var i :| 0 <= i < |arms| && arms[i] == (name, r.value) && forall j :: 0 <= j < i ==> arms[j].0 != name;
    PrefixCancels(prefix, Lower(statuses[i]), Lower(statuses[e]));
    assert i == e;
  }

  /** `from_name(to_name(e)) == Some(e)` and `from_minecraft_name(to_minecraft_name(e)) == Some(e)`. */
  lemma NameRoundTrips(statuses: seq<string>, e: nat)
    requires DistinctNames(statuses) && e < |statuses|
    ensures FromName(statuses, ToName(statuses, e)) == Some(e)
    ensures FromMinecraftName(statuses, ToMinecraftName(statuses, e)) == Some(e)
  {
    ParsePrinted(statuses, "", e);
    ParsePrinted(statuses, MinecraftPrefix, e);
  }

  /** Only lower-case strings name an effect. */
  lemma FromNameIsLowercase(statuses: seq<string>, name: string)
    requires FromName(statuses, name).Some?
    ensures Lower(name) == name
  {
    ParseSound(statuses, "", name);
    var e := FromName(statuses, name).value;
    assert "" + Lower(statuses[e]) == Lower(statuses[e]);
    LowerIdempotent(statuses[e]);
  }

  /** Two tables whose patterns differ only by a leading `prefix` answer alike. */
  lemma {:induction false} MatchUnderPrefix(a: seq<Arm>, b: seq<Arm>, prefix: string, name: string)
    requires |a| == |b|
    requires forall i :: 0 <= i < |a| ==> a[i].0 == prefix + b[i].0 && a[i].1 == b[i].1
    ensures Match(a, prefix + name) == Match(b, name)
    decreases |a|
  {
    if a != [] {
      PrefixCancels(prefix, b[0].0, name);
      MatchUnderPrefix(a[1..], b[1..], prefix, name);
    }
  }

  /** `from_minecraft_name("minecraft:" + n) == from_name(n)`, unknown names included. */
  lemma MinecraftNameStrips(statuses: seq<string>, name: string)
    ensures FromMinecraftName(statuses, MinecraftPrefix + name) == FromName(statuses, name)
  {
    var a := Arms(statuses, MinecraftPrefix);
    var b := Arms(statuses, "");
    forall i | 0 <= i < |a| ensures a[i].0 == MinecraftPrefix + b[i].0 && a[i].1 == b[i].1 {
      assert "" + Lower(statuses[i]) == Lower(statuses[i]);
    }
    MatchUnderPrefix(a, b, MinecraftPrefix, name);
  }

  /** A string outside the `minecraft:` namespace never parses as a minecraft name. */
  lemma MinecraftNameNeedsPrefix(statuses: seq<string>, name: string)
    requires !(|MinecraftPrefix| <= |name| && name[..|MinecraftPrefix|] == MinecraftPrefix)
    ensures FromMinecraftName(statuses, name).None?
  {
    var arms := Arms(statuses, MinecraftPrefix);
    forall i | 0 <= i < |arms| ensures arms[i].0 != name {
      var p := MinecraftPrefix + Lower(statuses[i]);
      assert p[..|MinecraftPrefix|] == MinecraftPrefix;
    }
  }

  /** The token streams the build step generates. */
  datatype Tables = Tables(
    variants: seq<string>,
    fromName: seq<Arm>,
    toName: seq<string>,
    fromMinecraftName: seq<Arm>,
    toMinecraftName: seq<string>)

  /**
   * `build`: one variant and one arm per status, in list order (the
   * variant's identifier is represented by the status string itself).
   */
  method Build(statuses: seq<string>) returns (t: Tables)
    ensures t.variants == statuses
    ensures t.fromName == Arms(statuses, "") && t.toName == Names(statuses, "")
    ensures t.fromMinecraftName == Arms(statuses, MinecraftPrefix)
    ensures t.toMinecraftName == Names(statuses, MinecraftPrefix)
  {
    t := Tables([], [], [], [], []);
    for i := 0 to |statuses|
      invariant t.variants == statuses[..i]
      invariant t.fromName == Arms(statuses[..i], "") && t.toName == Names(statuses[..i], "")
      invariant t.fromMinecraftName == Arms(statuses[..i], MinecraftPrefix)
      invariant t.toMinecraftName == Names(statuses[..i], MinecraftPrefix)
    {
      var status := statuses[i];
      var resourceName := Lower(status);
      assert statuses[..i + 1] == statuses[..i] + [status];
      t := Tables(
        t.variants + [status],
        t.fromName + [(resourceName, i)],
        t.toName + [resourceName],
        t.fromMinecraftName + [(MinecraftPrefix + resourceName, i)],
        t.toMinecraftName + [MinecraftPrefix + resourceName]);
      assert "" + resourceName == resourceName;
    }
    assert statuses[..|statuses|] == statuses;
  }
}
