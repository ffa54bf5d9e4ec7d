// The dimension-type names and the list of registries synced to a client
// during configuration (pumpkin-registry/src/lib.rs). The registry files'
// entry payloads are opaque; only names, order and the custom `raw` chat
// type are modelled.

module SyncedRegistries {
  import opened Common

  /** A namespaced identifier such as `minecraft:overworld`. */
  datatype ResourceLocation = ResourceLocation(namespace: string, path: string)

  const Vanilla: string := "minecraft"

  /** `ResourceLocation::vanilla`. */
  function VanillaLocation(path: string): (r: ResourceLocation)
    ensures r.namespace == "minecraft" && r.path == path
  {
    ResourceLocation(Vanilla, path)
  }

  /** The textual form `namespace:path`. */
  function LocationString(r: ResourceLocation): string
  {
    r.namespace + ":" + r.path
  }

  datatype VanillaDimensionType = Overworld | OverworldCaves | TheEnd | TheNether

  /** `resource_location`: the vanilla location of each dimension type. */
  function DimensionLocation(d: VanillaDimensionType): (r: ResourceLocation)
    ensures r.namespace == Vanilla
  {
    match d
    case Overworld => VanillaLocation("overworld")
    case OverworldCaves => VanillaLocation("overworld_caves")
    case TheEnd => VanillaLocation("the_end")
    case TheNether => VanillaLocation("the_nether")
  }

  /** `from_resource_location_string`: exactly four strings are accepted. */
  function DimensionFromString(s: string): (r: Option<VanillaDimensionType>)
    ensures r.Some? <==> s in ["minecraft:overworld", "minecraft:overworld_caves", "minecraft:the_end", "minecraft:the_nether"]
  {
    if s == "minecraft:overworld" then Some(Overworld)
    else if s == "minecraft:overworld_caves" then Some(OverworldCaves)
    else if s == "minecraft:the_end" then Some(TheEnd)
    else if s == "minecraft:the_nether" then Some(TheNether)
    else Option.None
  }

  /** Parsing a printed dimension location gives the dimension back. */
  lemma DimensionRoundTrip(d: VanillaDimensionType)
    ensures DimensionFromString(LocationString(DimensionLocation(d))) == Some(d)
  {
    var s := LocationString(DimensionLocation(d));
    // The four accepted strings have distinct lengths: 19, 25, 17 and 20.
    match d
    case Overworld =>
      assert s == "minecraft:overworld";
    case OverworldCaves =>
      assert s == "minecraft:overworld_caves";
      assert s != "minecraft:overworld" by { assert |s| == 25; }
    case TheEnd =>
      assert s == "minecraft:the_end";
      assert s != "minecraft:overworld" && s != "minecraft:overworld_caves" by { assert |s| == 17; }
    case TheNether =>
      assert s == "minecraft:the_nether";
      assert s != "minecraft:overworld" && s != "minecraft:overworld_caves" && s != "minecraft:the_end" by { assert |s| == 20; }
  }

  /** Every accepted string is the printed location of the dimension it yields. */
  lemma DimensionParseSound(s: string)
    requires DimensionFromString(s).Some?
    ensures LocationString(DimensionLocation(DimensionFromString(s).value)) == s
  {
    DimensionRoundTrip(DimensionFromString(s).value);
  }

  /** The chat decorations of a chat type. */
  datatype Decoration = Decoration(translationKey: string, parameters: seq<string>, style: Option<nat>)

  datatype ChatType = ChatType(chat: Decoration, narration: Decoration)

  /** An entry's payload: data read from the registry file, or the custom chat type. */
  datatype EntryData = FileData(value: nat) | CustomChat(chatType: ChatType)

  /** A registry entry sent to the client (`RegistryEntry`). */
  datatype RegistryEntry = RegistryEntry(name: string, data: EntryData)

  datatype Registry = Registry(id: ResourceLocation, entries: seq<RegistryEntry>)

  /** The synced-registries file: for each registry, its entries in file order. */
  datatype SyncedRegistry = SyncedRegistry(
    biome: seq<(string, nat)>,
    chatType: seq<(string, nat)>,
    trimPattern: seq<(string, nat)>,
    trimMaterial: seq<(string, nat)>,
    wolfVariant: seq<(string, nat)>,
    paintingVariant: seq<(string, nat)>,
    dimensionType: seq<(string, nat)>,
    damageType: seq<(string, nat)>,
    catVariant: seq<(string, nat)>,
    chickenVariant: seq<(string, nat)>,
    cowVariant: seq<(string, nat)>,
    frogVariant: seq<(string, nat)>,
    pigVariant: seq<(string, nat)>,
    wolfSoundVariant: seq<(string, nat)>,
    bannerPattern: seq<(string, nat)>,
    enchantment: seq<(string, nat)>,
    jukeboxSong: seq<(string, nat)>,
    instrument: seq<(string, nat)>)

  /** The custom `raw` chat type: the bare content, narrated as "<sender> says <content>". */
  const RawChatType: ChatType := ChatType(
    Decoration("%s", ["content"], Option.None),
    Decoration("%s says %s", ["sender", "content"], Option.None))

  const RawEntry: RegistryEntry := RegistryEntry("raw", CustomChat(RawChatType))

  /** `RegistryEntry::from_nbt` over a file map, in order. */
  function EntriesOf(file: seq<(string, nat)>): (r: seq<RegistryEntry>)
    ensures |r| == |file|
    ensures forall i :: 0 <= i < |file| ==> r[i] == RegistryEntry(file[i].0, FileData(file[i].1))
  {
    seq(|file|, i requires 0 <= i < |file| => RegistryEntry(file[i].0, FileData(file[i].1)))
  }

  /** The registries sent, by path, in the order they are sent. */
  const SyncedOrder: seq<string> := [
    "cat_variant", "chicken_variant", "cow_variant", "frog_variant", "pig_variant",
    "worldgen/biome", "chat_type", "wolf_variant", "painting_variant", "wolf_sound_variant",
    "dimension_type", "damage_type", "banner_pattern", "jukebox_song"]

  /** The file's entries for each synced registry, in `SyncedOrder`. */
  function SyncedFiles(f: SyncedRegistry): (r: seq<seq<(string, nat)>>)
    ensures |r| == |SyncedOrder|
  {
    [f.catVariant, f.chickenVariant, f.cowVariant, f.frogVariant, f.pigVariant,
     f.biome, f.chatType, f.wolfVariant, f.paintingVariant, f.wolfSoundVariant,
     f.dimensionType, f.damageType, f.bannerPattern, f.jukeboxSong]
  }

  const ChatTypeIndex: nat := 6

  /** The registries the file holds but the server does not send. */
  const NeverSynced: seq<string> := ["trim_pattern", "trim_material", "enchantment", "instrument"]

  /** The paths of the synced registries are distinct, and none of the unsent four is among them. */
  lemma SyncedOrderFacts()
    ensures SyncedOrder[ChatTypeIndex] == "chat_type"
    ensures forall i, j :: 0 <= i < j < |SyncedOrder| ==> SyncedOrder[i] != SyncedOrder[j]
    ensures forall i, j :: 0 <= i < |SyncedOrder| && 0 <= j < |NeverSynced| ==> SyncedOrder[i] != NeverSynced[j]
  {
    forall i, j | 0 <= i < j < |SyncedOrder| ensures SyncedOrder[i] != SyncedOrder[j] {
      assert SyncedOrder[i][..2] != SyncedOrder[j][..2] || SyncedOrder[i][2] != SyncedOrder[j][2]
             || |SyncedOrder[i]| != |SyncedOrder[j]|;
    }
    forall i, j | 0 <= i < |SyncedOrder| && 0 <= j < |NeverSynced| ensures SyncedOrder[i] != NeverSynced[j] {
      assert SyncedOrder[i][0] != NeverSynced[j][0];
    }
  }

  /**
   * `get_synced`: fourteen registries in `SyncedOrder`, each holding its
   * file's entries in order; the chat-type registry also gets the custom
   * `raw` entry, pushed last.
   */
  method GetSynced(f: SyncedRegistry) returns (registries: seq<Registry>)
    ensures |registries| == |SyncedOrder|
    ensures forall i :: 0 <= i < |SyncedOrder| ==> registries[i].id == VanillaLocation(SyncedOrder[i])
    ensures forall i :: 0 <= i < |SyncedOrder| && i != ChatTypeIndex ==>
              registries[i].entries == EntriesOf(SyncedFiles(f)[i])
    ensures registries[ChatTypeIndex].entries == EntriesOf(f.chatType) + [RawEntry]
  {
    var chatEntries: seq<RegistryEntry> := [];
    for i := 0 to |f.chatType|
      invariant chatEntries == EntriesOf(f.chatType[..i])
    {
      chatEntries := chatEntries + [RegistryEntry(f.chatType[i].0, FileData(f.chatType[i].1))];
    }
    assert f.chatType[..|f.chatType|] == f.chatType;
    chatEntries := chatEntries + [RawEntry];
    registries := [
      Registry(VanillaLocation("cat_variant"), EntriesOf(f.catVariant)),
      Registry(VanillaLocation("chicken_variant"), EntriesOf(f.chickenVariant)),
      Registry(VanillaLocation("cow_variant"), EntriesOf(f.cowVariant)),
      Registry(VanillaLocation("frog_variant"), EntriesOf(f.frogVariant)),
      Registry(VanillaLocation("pig_variant"), EntriesOf(f.pigVariant)),
      Registry(VanillaLocation("worldgen/biome"), EntriesOf(f.biome)),
      Registry(VanillaLocation("chat_type"), chatEntries),
      Registry(VanillaLocation("wolf_variant"), EntriesOf(f.wolfVariant)),
      Registry(VanillaLocation("painting_variant"), EntriesOf(f.paintingVariant)),
      Registry(VanillaLocation("wolf_sound_variant"), EntriesOf(f.wolfSoundVariant)),
      Registry(VanillaLocation("dimension_type"), EntriesOf(f.dimensionType)),
      Registry(VanillaLocation("damage_type"), EntriesOf(f.damageType)),
      Registry(VanillaLocation("banner_pattern"), EntriesOf(f.bannerPattern)),
      Registry(VanillaLocation("jukebox_song"), EntriesOf(f.jukeboxSong))];
  }

  /** The sent list never names a trim, enchantment or instrument registry. */
  lemma NeverSyncedIsOmitted(f: SyncedRegistry, registries: seq<Registry>)
    requires |registries| == |SyncedOrder|
    requires forall i :: 0 <= i < |SyncedOrder| ==> registries[i].id == VanillaLocation(SyncedOrder[i])
    ensures forall r, n :: r in registries && n in NeverSynced ==> r.id.path != n
  {
    SyncedOrderFacts();
    forall r, n | r in registries && n in NeverSynced ensures r.id.path != n {
      var i :| 0 <= i < |registries| && registries[i] == r;
      var j :| 0 <= j < |NeverSynced| && NeverSynced[j] == n;
    }
  }
}
