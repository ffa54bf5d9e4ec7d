// Chat text components: content, style and children, their builders, the
// chat template, and the shapes a string or a list deserialises to
// (pumpkin-util/src/text/mod.rs). The hover event lives here too, because a
// style holds a hover event and a hover event holds text.

module Text {
  import opened Common

  /** A text colour (the colour module is not part of this model: named or RGB). */
  datatype Color = Named(name: string) | Rgb(rgb: nat)

  /** A click event (its variants are not part of this model). */
  datatype ClickEvent = ClickEvent(action: string, value: string)

  /** `TextContent`. */
  datatype TextContent =
    | PlainText(text: string)
    | Translate(key: string, with: seq<TextBase>)
    | EntityNames(selector: string, separator: Option<string>)
    | Keybind(keybind: string)

  /** `Style`: every field optional. */
  datatype Style = Style(
    color: Option<Color>,
    bold: Option<bool>,
    italic: Option<bool>,
    underlined: Option<bool>,
    strikethrough: Option<bool>,
    obfuscated: Option<bool>,
    insertion: Option<string>,
    clickEvent: Option<ClickEvent>,
    hoverEvent: Option<HoverEvent>,
    font: Option<string>,
    shadowColor: Option<nat>)

  /** `TextComponentBase`. */
  datatype TextBase = TextBase(content: TextContent, style: Style, extra: seq<TextBase>)

  /** `HoverEvent`: serialised with an `action` tag in snake_case. */
  datatype HoverEvent =
    | ShowText(value: seq<TextBase>)
    | ShowItem(id: string, count: Option<int>)
    | ShowEntity(id: string, uuid: string, name: Option<seq<TextBase>>)

  /** `TextComponent`, a wrapper around its base. */
  datatype TextComponent = TextComponent(base: TextBase)

  const DefaultStyle: Style := Style(Option.None, Option.None, Option.None, Option.None, Option.None,
                                     Option.None, Option.None, Option.None, Option.None, Option.None, Option.None)

  /** A component with the given content, the default style and no children. */
  function Plain(content: TextContent): TextComponent
  {
    TextComponent(TextBase(content, DefaultStyle, []))
  }

  /** `text`: plain text with the default style and no children. */
  function Text(s: string): (t: TextComponent)
    ensures t.base.content == PlainText(s) && t.base.style == DefaultStyle && t.base.extra == []
  {
    Plain(PlainText(s))
  }

  /** `translate`: the arguments' bases, in order. */
  function TranslateOf(key: string, with: seq<TextComponent>): (t: TextComponent)
    ensures t.base.content.Translate? && t.base.content.key == key
    ensures |t.base.content.with| == |with| && forall i :: 0 <= i < |with| ==> t.base.content.with[i] == with[i].base
    ensures t.base.style == DefaultStyle && t.base.extra == []
  {
    Plain(Translate(key, seq(|with|, i requires 0 <= i < |with| => with[i].base)))
  }

  /** `from_content`. */
  function FromContent(c: TextContent): (t: TextComponent)
    ensures t.base.content == c && t.base.style == DefaultStyle && t.base.extra == []
  {
    Plain(c)
  }

  /** `add_child`: one child more, at the end; content and style are kept. */
  function AddChild(t: TextComponent, child: TextComponent): (r: TextComponent)
    ensures r.base.content == t.base.content && r.base.style == t.base.style
    ensures |r.base.extra| == |t.base.extra| + 1 && r.base.extra[..|t.base.extra|] == t.base.extra
    ensures r.base.extra[|t.base.extra|] == child.base
  {
    TextComponent(t.base.(extra := t.base.extra + [child.base]))
  }

  /** `add_text`: appends a plain child with the default style. */
  function AddText(t: TextComponent, s: string): (r: TextComponent)
    ensures r == AddChild(t, Text(s))
  {
    TextComponent(t.base.(extra := t.base.extra + [TextBase(PlainText(s), DefaultStyle, [])]))
  }

  /** Building with children in turn lists them in the order they were added. */
  lemma AddChildrenInOrder(t: TextComponent, a: TextComponent, b: TextComponent)
    ensures AddChild(AddChild(t, a), b).base.extra == t.base.extra + [a.base, b.base]
  {
  }

  // Style setters: each sets its own field and leaves every other part alone.

  function WithStyle(t: TextComponent, s: Style): TextComponent
  {
    TextComponent(t.base.(style := s))
  }

  function ColorOf(t: TextComponent, c: Color): (r: TextComponent)
    ensures r.base.style.color == Some(c) && r.base.style.(color := t.base.style.color) == t.base.style
    ensures r.base.content == t.base.content && r.base.extra == t.base.extra
  {
    WithStyle(t, t.base.style.(color := Some(c)))
  }

  function Bold(t: TextComponent): (r: TextComponent)
    ensures r.base.style.bold == Some(true) && r.base.style.(bold := t.base.style.bold) == t.base.style
    ensures r.base.content == t.base.content && r.base.extra == t.base.extra
  {
    WithStyle(t, t.base.style.(bold := Some(true)))
  }

  function Italic(t: TextComponent): (r: TextComponent)
    ensures r.base.style.italic == Some(true) && r.base.style.(italic := t.base.style.italic) == t.base.style
    ensures r.base.content == t.base.content && r.base.extra == t.base.extra
  {
    WithStyle(t, t.base.style.(italic := Some(true)))
  }

  function Underlined(t: TextComponent): (r: TextComponent)
    ensures r.base.style.underlined == Some(true) && r.base.style.(underlined := t.base.style.underlined) == t.base.style
    ensures r.base.content == t.base.content && r.base.extra == t.base.extra
  {
    WithStyle(t, t.base.style.(underlined := Some(true)))
  }

  function Strikethrough(t: TextComponent): (r: TextComponent)
    ensures r.base.style.strikethrough == Some(true) && r.base.style.(strikethrough := t.base.style.strikethrough) == t.base.style
    ensures r.base.content == t.base.content && r.base.extra == t.base.extra
  {
    WithStyle(t, t.base.style.(strikethrough := Some(true)))
  }

  function Obfuscated(t: TextComponent): (r: TextComponent)
    ensures r.base.style.obfuscated == Some(true) && r.base.style.(obfuscated := t.base.style.obfuscated) == t.base.style
    ensures r.base.content == t.base.content && r.base.extra == t.base.extra
  {
    WithStyle(t, t.base.style.(obfuscated := Some(true)))
  }

  function Insertion(t: TextComponent, s: string): (r: TextComponent)
    ensures r.base.style.insertion == Some(s) && r.base.style.(insertion := t.base.style.insertion) == t.base.style
    ensures r.base.content == t.base.content && r.base.extra == t.base.extra
  {
    WithStyle(t, t.base.style.(insertion := Some(s)))
  }

  function WithClickEvent(t: TextComponent, e: ClickEvent): (r: TextComponent)
    ensures r.base.style.clickEvent == Some(e) && r.base.style.(clickEvent := t.base.style.clickEvent) == t.base.style
    ensures r.base.content == t.base.content && r.base.extra == t.base.extra
  {
    WithStyle(t, t.base.style.(clickEvent := Some(e)))
  }

  function WithHoverEvent(t: TextComponent, e: HoverEvent): (r: TextComponent)
    ensures r.base.style.hoverEvent == Some(e) && r.base.style.(hoverEvent := t.base.style.hoverEvent) == t.base.style
    ensures r.base.content == t.base.content && r.base.extra == t.base.extra
  {
    WithStyle(t, t.base.style.(hoverEvent := Some(e)))
  }

  function Font(t: TextComponent, location: string): (r: TextComponent)
    ensures r.base.style.font == Some(location) && r.base.style.(font := t.base.style.font) == t.base.style
    ensures r.base.content == t.base.content && r.base.extra == t.base.extra
  {
    WithStyle(t, t.base.style.(font := Some(location)))
  }

  function ShadowColor(t: TextComponent, argb: nat): (r: TextComponent)
    ensures r.base.style.shadowColor == Some(argb) && r.base.style.(shadowColor := t.base.style.shadowColor) == t.base.style
    ensures r.base.content == t.base.content && r.base.extra == t.base.extra
  {
    WithStyle(t, t.base.style.(shadowColor := Some(argb)))
  }

  /** Setters of different fields commute, and setting a flag twice is setting it once. */
  lemma SettersCommute(t: TextComponent, c: Color)
    ensures Bold(Italic(t)) == Italic(Bold(t))
    ensures Bold(ColorOf(t, c)) == ColorOf(Bold(t), c)
    ensures Bold(Bold(t)) == Bold(t)
  {
  }

  /**
   * `get_text`: the text of plain text, the selector of entity names (the
   * separator is ignored) and the key name of a keybind; a translation is
   * looked up by `translation`, falling back to its key.
   */
  function GetText(t: TextComponent, translation: (string, seq<TextBase>) -> Option<string>): (s: string)
    ensures t.base.content.PlainText? ==> s == t.base.content.text
    ensures t.base.content.EntityNames? ==> s == t.base.content.selector
    ensures t.base.content.Keybind? ==> s == t.base.content.keybind
    ensures t.base.content.Translate? && translation(t.base.content.key, t.base.content.with).None? ==> s == t.base.content.key
  {
    match t.base.content
    case PlainText(text) => text
    case Translate(key, with) =>
      (match translation(key, with) case Some(v) => v case None => key)
    case EntityNames(selector, _) => selector
    case Keybind(keybind) => keybind
  }

  /**
   * `str::replace`: every non-overlapping occurrence of `pat`, left to right,
   * replaced by `rep`.
   */
  function ReplaceAll(s: string, pat: string, rep: string): string
    requires pat != []
    decreases |s|
  {
    if |s| < |pat| then s
    else if s[..|pat|] == pat then rep + ReplaceAll(s[|pat|..], pat, rep)
    else [s[0]] + ReplaceAll(s[1..], pat, rep)
  }

  /** Replacing one character by another is a character-wise map: same length, every `c` now `d`. */
  lemma {:induction false} ReplaceChar(s: string, c: char, d: char)
    ensures |ReplaceAll(s, [c], [d])| == |s|
    ensures forall i :: 0 <= i < |s| ==> ReplaceAll(s, [c], [d])[i] == if s[i] == c then d else s[i]
    decreases |s|
  {
    if |s| >= 1 {
      ReplaceChar(s[1..], c, d);
      var rest := ReplaceAll(s[1..], [c], [d]);
      assert s[..1] == [s[0]];
      assert ReplaceAll(s, [c], [d]) == [if s[0] == c then d else s[0]] + rest;
    }
  }

  /** `pat` occurs in `s` starting at index `i`. */
  predicate OccursAt(s: string, pat: string, i: nat)
  {
    i + |pat| <= |s| && s[i..i + |pat|] == pat
  }

  /** Text with no occurrence of the pattern is left as it is. */
  lemma {:induction false} ReplaceAbsent(s: string, pat: string, rep: string)
    requires pat != []
    requires forall i: nat :: !OccursAt(s, pat, i)
    ensures ReplaceAll(s, pat, rep) == s
    decreases |s|
  {
    if |s| >= |pat| {
      assert !OccursAt(s, pat, 0);
      forall i: nat ensures !OccursAt(s[1..], pat, i) {
        assert !OccursAt(s, pat, i + 1);
        if i + |pat| <= |s[1..]| {
          assert s[1..][i..i + |pat|] == s[i + 1..i + 1 + |pat|];
        }
      }
      ReplaceAbsent(s[1..], pat, rep);
      assert s == [s[0]] + s[1..];
    }
  }

  /** A string that is exactly the pattern becomes exactly the replacement. */
  lemma ReplaceWhole(pat: string, rep: string)
    requires pat != []
    ensures ReplaceAll(pat, pat, rep) == rep
  {
    assert pat[..|pat|] == pat && pat[|pat|..] == [];
    assert ReplaceAll(pat, pat, rep) == rep + ReplaceAll([], pat, rep);
  }

  /** A string without the character is left as it is by replacing that character. */
  lemma ReplaceCharAbsent(s: string, c: char, d: char)
    requires c !in s
    ensures ReplaceAll(s, [c], [d]) == s
  {
    ReplaceChar(s, c, d);
  }

  const DisplayNameField: string := "{DISPLAYNAME}"
  const MessageField: string := "{MESSAGE}"

  /** The chat template with colour codes and both fields resolved, in that order. */
  function Decorated(format: string, playerName: string, content: string): string
  {
    ReplaceAll(ReplaceAll(ReplaceAll(format, "&", "§"), DisplayNameField, playerName), MessageField, content)
  }

  /** `chat_decorated`: the resolved template as plain text. */
  function ChatDecorated(format: string, playerName: string, content: string): (t: TextComponent)
    ensures t.base.content == PlainText(Decorated(format, playerName, content))
    ensures t.base.style == DefaultStyle && t.base.extra == []
  {
    Plain(PlainText(Decorated(format, playerName, content)))
  }

  /** After the first step no `&` is left in the template itself. */
  lemma AmpersandsResolved(format: string)
    ensures |ReplaceAll(format, "&", "§")| == |format|
    ensures forall i :: 0 <= i < |format| ==> ReplaceAll(format, "&", "§")[i] != '&'
  {
    ReplaceChar(format, '&', '§');
  }

  /**
   * Text inserted by an earlier step is rewritten by a later one: a player
   * named `{MESSAGE}` in a template that is only the name is shown as the
   * message.
   */
  lemma NameIsSubjectToMessageField(content: string)
    ensures Decorated(DisplayNameField, MessageField, content) == content
  {
    assert '&' !in DisplayNameField;
    ReplaceCharAbsent(DisplayNameField, '&', '§');
    ReplaceWhole(DisplayNameField, MessageField);
    ReplaceWhole(MessageField, content);
  }

  /** Deserialising a bare string: plain text, default style, no children. */
  function FromString(s: string): (t: TextComponent)
    ensures t.base.content == PlainText(s) && t.base.style == DefaultStyle && t.base.extra == []
  {
    Plain(PlainText(s))
  }

  /** Deserialising a list: empty text whose children are the elements, in order. */
  function FromSequence(elements: seq<TextComponent>): (t: TextComponent)
    ensures t.base.content == PlainText("") && t.base.style == DefaultStyle
    ensures |t.base.extra| == |elements| && forall i :: 0 <= i < |elements| ==> t.base.extra[i] == elements[i].base
  {
    TextComponent(TextBase(PlainText(""), DefaultStyle, seq(|elements|, i requires 0 <= i < |elements| => elements[i].base)))
  }
}
