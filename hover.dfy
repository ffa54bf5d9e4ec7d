// Hover events on chat text: the two constructors and the fields a hover
// event writes when serialised (pumpkin-util/src/text/hover.rs).

module Hover {
  import opened Common
  import opened Text

  /** `show_text`: a tooltip holding exactly the given component. */
  function ShowTextOf(t: TextComponent): (e: HoverEvent)
    ensures e.ShowText? && e.value == [t.base]
  {
    ShowText([t.base])
  }

  /** `show_entity`: the kind goes to `id`, the uuid to `uuid`, and a name, if any, becomes a one-element list. */
  function ShowEntityOf(uuid: string, kind: string, name: Option<TextComponent>): (e: HoverEvent)
    ensures e.ShowEntity? && e.id == kind && e.uuid == uuid
    ensures name.None? <==> e.name.None?
    ensures name.Some? ==> e.name == Some([name.value.base])
  {
    ShowEntity(kind, uuid, match name case Some(n) => Some([n.base]) case None => Option.None)
  }

  /** The `action` tag: the variant name in snake case. */
  function Action(e: HoverEvent): string
  {
    match e
    case ShowText(_) => "show_text"
    case ShowItem(_, _) => "show_item"
    case ShowEntity(_, _, _) => "show_entity"
  }

  /** The keys a serialised hover event carries: the tag, then the fields, leaving out absent options. */
  function SerializedKeys(e: HoverEvent): (keys: seq<string>)
    ensures |keys| >= 2 && keys[0] == "action"
    ensures e.ShowItem? ==> ("count" in keys <==> e.count.Some?)
    ensures e.ShowEntity? ==> ("name" in keys <==> e.name.Some?)
  {
    match e
    case ShowText(_) => ["action", "value"]
    case ShowItem(_, count) => ["action", "id"] + (if count.Some? then ["count"] else [])
    case ShowEntity(_, _, name) => ["action", "id", "uuid"] + (if name.Some? then ["name"] else [])
  }

  /** The tags tell the variants apart. */
  lemma ActionsDistinct(a: HoverEvent, b: HoverEvent)
    ensures Action(a) == Action(b) <==> (a.ShowText? && b.ShowText?) || (a.ShowItem? && b.ShowItem?) || (a.ShowEntity? && b.ShowEntity?)
  {
  }

  /** An entity tooltip without a name serialises without a `name` key, with one it has it. */
  lemma ShowEntityKeys(uuid: string, kind: string, name: Option<TextComponent>)
    ensures SerializedKeys(ShowEntityOf(uuid, kind, name)) ==
              ["action", "id", "uuid"] + (if name.Some? then ["name"] else [])
  {
  }
}
