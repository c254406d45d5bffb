/**
 * Page, grid and typography constants and the icon theme loaded from the two
 * configuration documents (deck_pdf_generator/config.py). Lengths are in
 * PDF points, exact reals rather than floats.
 */
module Config {
  import opened Wrappers
  import opened Strings
  import opened Xml

  /** reportlab's `mm`: 72 points per inch, 25.4 mm per inch. */
  const MM: real := 72.0 / 25.4

  /** The page and grid geometry `render_pdf` reads. */
  datatype Layout = Layout(
    pageW: real, pageH: real,
    cardW: real, cardH: real,
    cols: nat, rows: nat,
    marginLeft: real, marginRight: real, marginY: real,
    gapX: real, gapY: real)

  /** A4 = 210 x 297 mm, 3 x 3 cards of 62 x 87 mm, 10 mm margins, 4 mm gaps. */
  const DefaultLayout: Layout :=
    Layout(210.0 * MM, 297.0 * MM, 62.0 * MM, 87.0 * MM, 3, 3, 10.0 * MM, 10.0 * MM, 10.0 * MM, 4.0 * MM, 4.0 * MM)

  const Padding: real := 3.5 * MM
  const HeaderH: real := 12.0 * MM
  const FooterH: real := 8.0 * MM
  const IconSize: real := 10.0 * MM

  const TitleSize: nat := 12
  const SubtitleSize: nat := 8
  const BodySize: nat := 9
  const CostSize: nat := 18
  const MetaSize: nat := 7

  /** The four read-only icon maps the renderer and the parser consult. */
  datatype Theme = Theme(
    typeIcons: map<string, string>,
    frontDeckIcons: map<string, string>,
    backDeckIcons: map<string, string>,
    lootFrontDefaults: map<string, string>)

  /** Every glyph in every map is non-empty, as the loaders guarantee. */
  predicate WellFormed(t: Theme) {
    && (forall k :: k in t.typeIcons ==> t.typeIcons[k] != "")
    && (forall k :: k in t.frontDeckIcons ==> t.frontDeckIcons[k] != "")
    && (forall k :: k in t.backDeckIcons ==> t.backDeckIcons[k] != "")
    && (forall k :: k in t.lootFrontDefaults ==> t.lootFrontDefaults[k] != "")
  }

  // ---------------------------------------------------------------- loader specifications

  /** Element `e` adds the entry `k` when attribute `key` is `k` (non-empty) and attribute `val` is non-empty. */
  predicate Contributes(e: Element, key: string, val: string, k: string) {
    Attr(e, key) == Some(k) && k != "" && Present(Attr(e, val))
  }

  /**
   * The map a loader loop builds: for each element in order, when both
   * attributes are present and non-empty, `map[name] = value`, later
   * elements overwriting earlier ones.
   */
  function AttrMap(es: seq<Element>, key: string, val: string): (m: map<string, string>)
    ensures forall k :: k in m ==> k != "" && m[k] != ""
    decreases |es|
  {
    if es == [] then map[]
    else
      var m := AttrMap(es[..|es| - 1], key, val);
      var e := es[|es| - 1];
      if Present(Attr(e, key)) && Present(Attr(e, val)) then m[Attr(e, key).value := Attr(e, val).value] else m
  }

  /** A key is in the map exactly when some element contributes it, and its value is that of the last such element. */
  lemma {:induction false} AttrMapEntry(es: seq<Element>, key: string, val: string, k: string)
    ensures k in AttrMap(es, key, val) <==> exists i :: 0 <= i < |es| && Contributes(es[i], key, val, k)
    ensures k in AttrMap(es, key, val) ==>
      exists i :: 0 <= i < |es| && Contributes(es[i], key, val, k)
        && AttrMap(es, key, val)[k] == Attr(es[i], val).value
        && forall j :: i < j < |es| ==> !Contributes(es[j], key, val, k)
    decreases |es|
  {
    if es != [] {
      var n := |es| - 1;
      var pre := es[..n];
      AttrMapEntry(pre, key, val, k);
      if Contributes(es[n], key, val, k) {
        assert AttrMap(es, key, val)[k] == Attr(es[n], val).value;
      } else {
        AttrMapSkip(es, key, val, k);
      }
    }
  }

  /** An element that does not contribute `k` leaves `k`'s entry as the prefix had it. */
  lemma AttrMapSkip(es: seq<Element>, key: string, val: string, k: string)
    requires es != [] && !Contributes(es[|es| - 1], key, val, k)
    requires var pre := es[..|es| - 1];
      (k in AttrMap(pre, key, val) <==> exists i :: 0 <= i < |pre| && Contributes(pre[i], key, val, k))
      && (k in AttrMap(pre, key, val) ==>
        exists i :: 0 <= i < |pre| && Contributes(pre[i], key, val, k)
          && AttrMap(pre, key, val)[k] == Attr(pre[i], val).value
          && forall j :: i < j < |pre| ==> !Contributes(pre[j], key, val, k))
    ensures k in AttrMap(es, key, val) <==> exists i :: 0 <= i < |es| && Contributes(es[i], key, val, k)
    ensures k in AttrMap(es, key, val) ==>
      exists i :: 0 <= i < |es| && Contributes(es[i], key, val, k)
        && AttrMap(es, key, val)[k] == Attr(es[i], val).value
        && forall j :: i < j < |es| ==> !Contributes(es[j], key, val, k)
  {
    var n := |es| - 1;
    var pre := es[..n];
    assert forall i :: 0 <= i < n ==> pre[i] == es[i];
    assert k in AttrMap(es, key, val) <==> k in AttrMap(pre, key, val);
    if k in AttrMap(pre, key, val) {
      assert AttrMap(es, key, val)[k] == AttrMap(pre, key, val)[k];
    }
  }

  /**
   * The colour map: as `AttrMap`, but an entry is added only when the colour
   * oracle accepts the value, so it names no deck that lacks a non-empty name
   * and a non-empty colour.
   */
  function ColorMap<C>(es: seq<Element>, hexColor: string -> Option<C>): (m: map<string, C>)
    ensures forall k :: k in m ==> k in AttrMap(es, "name", "color")
    decreases |es|
  {
    if es == [] then map[]
    else
      var m := ColorMap(es[..|es| - 1], hexColor);
      var e := es[|es| - 1];
      var name := Attr(e, "name");
      var color := Attr(e, "color");
      if Present(name) && Present(color) && hexColor(color.value).Some? then
        m[name.value := hexColor(color.value).value]
      else m
  }

  /** Deck `e` adds the colour entry `k`: name `k` (non-empty), a non-empty colour, and one the oracle accepts. */
  predicate ColorContributes<C>(e: Element, hexColor: string -> Option<C>, k: string) {
    Contributes(e, "name", "color", k) && hexColor(Attr(e, "color").value).Some?
  }

  /** A deck name is in the colour map exactly when some deck contributes it, and its colour is that of the last such deck. */
  lemma {:induction false} ColorMapEntry<C>(es: seq<Element>, hexColor: string -> Option<C>, k: string)
    ensures k in ColorMap(es, hexColor) <==> exists i :: 0 <= i < |es| && ColorContributes(es[i], hexColor, k)
    ensures k in ColorMap(es, hexColor) ==>
      exists i :: 0 <= i < |es| && ColorContributes(es[i], hexColor, k)
        && ColorMap(es, hexColor)[k] == hexColor(Attr(es[i], "color").value).value
        && forall j :: i < j < |es| ==> !ColorContributes(es[j], hexColor, k)
    decreases |es|
  {
    if es != [] {
      var n := |es| - 1;
      var pre := es[..n];
      ColorMapEntry(pre, hexColor, k);
      if ColorContributes(es[n], hexColor, k) {
        assert ColorMap(es, hexColor)[k] == hexColor(Attr(es[n], "color").value).value;
      } else {
        ColorMapSkip(es, hexColor, k);
      }
    }
  }

  /** A deck that does not contribute `k` leaves `k`'s colour as the prefix had it. */
  lemma ColorMapSkip<C>(es: seq<Element>, hexColor: string -> Option<C>, k: string)
    requires es != [] && !ColorContributes(es[|es| - 1], hexColor, k)
    requires var pre := es[..|es| - 1];
      (k in ColorMap(pre, hexColor) <==> exists i :: 0 <= i < |pre| && ColorContributes(pre[i], hexColor, k))
      && (k in ColorMap(pre, hexColor) ==>
        exists i :: 0 <= i < |pre| && ColorContributes(pre[i], hexColor, k)
          && ColorMap(pre, hexColor)[k] == hexColor(Attr(pre[i], "color").value).value
          && forall j :: i < j < |pre| ==> !ColorContributes(pre[j], hexColor, k))
    ensures k in ColorMap(es, hexColor) <==> exists i :: 0 <= i < |es| && ColorContributes(es[i], hexColor, k)
    ensures k in ColorMap(es, hexColor) ==>
      exists i :: 0 <= i < |es| && ColorContributes(es[i], hexColor, k)
        && ColorMap(es, hexColor)[k] == hexColor(Attr(es[i], "color").value).value
        && forall j :: i < j < |es| ==> !ColorContributes(es[j], hexColor, k)
  {
    var pre := es[..|es| - 1];
    ColorMapLast(es, hexColor, k);
    if k in ColorMap(pre, hexColor) {
      var i :| 0 <= i < |pre| && ColorContributes(pre[i], hexColor, k)
        && ColorMap(pre, hexColor)[k] == hexColor(Attr(pre[i], "color").value).value
        && forall j :: i < j < |pre| ==> !ColorContributes(pre[j], hexColor, k);
      ColorMapSkipHit(es, hexColor, k, i);
    } else {
      ColorMapSkipMiss(es, hexColor, k);
    }
  }

  /** The last contributor in the prefix stays the last one when the new deck does not contribute. */
  lemma ColorMapSkipHit<C>(es: seq<Element>, hexColor: string -> Option<C>, k: string, i: nat)
    requires es != [] && !ColorContributes(es[|es| - 1], hexColor, k)
    requires var pre := es[..|es| - 1];
      i < |pre| && ColorContributes(pre[i], hexColor, k)
      && forall j :: i < j < |pre| ==> !ColorContributes(pre[j], hexColor, k)
    ensures i < |es| && ColorContributes(es[i], hexColor, k)
    ensures forall j :: i < j < |es| ==> !ColorContributes(es[j], hexColor, k)
  {
    var n := |es| - 1;
    var pre := es[..n];
    assert pre[i] == es[i];
    forall j | i < j < |es|
      ensures !ColorContributes(es[j], hexColor, k)
    {
      if j < n {
        assert pre[j] == es[j];
      }
    }
  }

  /** No deck of the prefix contributes, nor does the new one. */
  lemma ColorMapSkipMiss<C>(es: seq<Element>, hexColor: string -> Option<C>, k: string)
    requires es != [] && !ColorContributes(es[|es| - 1], hexColor, k)
    requires var pre := es[..|es| - 1];
      forall i :: 0 <= i < |pre| ==> !ColorContributes(pre[i], hexColor, k)
    ensures forall i :: 0 <= i < |es| ==> !ColorContributes(es[i], hexColor, k)
  {
    var n := |es| - 1;
    var pre := es[..n];
    forall j | 0 <= j < |es|
      ensures !ColorContributes(es[j], hexColor, k)
    {
      if j < n {
        assert pre[j] == es[j];
      }
    }
  }

  /** The last deck, when it does not contribute `k`, leaves `k`'s entry alone. */
  lemma ColorMapLast<C>(es: seq<Element>, hexColor: string -> Option<C>, k: string)
    requires es != [] && !ColorContributes(es[|es| - 1], hexColor, k)
    ensures k in ColorMap(es, hexColor) <==> k in ColorMap(es[..|es| - 1], hexColor)
    ensures k in ColorMap(es, hexColor) ==> ColorMap(es, hexColor)[k] == ColorMap(es[..|es| - 1], hexColor)[k]
  {
  }

  /** The `<deck>` children of the root, none when the document did not parse. */
  function Decks(doc: Option<Element>): seq<Element> {
    match doc
    case None => []
    case Some(root) => FindAll(root, "deck")
  }

  /** The `<lootType>` children of the root's first `<lootDefaults>`, if any. */
  function LootTypes(doc: Option<Element>): seq<Element> {
    match doc
    case None => []
    case Some(root) =>
      match Find(root, "lootDefaults")
      case None => []
      case Some(ld) => FindAll(ld, "lootType")
  }

  function TypeEntries(doc: Option<Element>): seq<Element> {
    match doc
    case None => []
    case Some(root) => FindAll(root, "type")
  }

  // ---------------------------------------------------------------- loaders

  /**
   * `load_type_icons`: `doc` is the parsed `config/types.xml`, `None` when it
   * is missing or malformed (the parse error is swallowed).
   */
  method LoadTypeIcons(doc: Option<Element>) returns (icons: map<string, string>)
    ensures icons == AttrMap(TypeEntries(doc), "name", "icon")
    ensures doc.None? ==> icons == map[]
  {
    icons := map[];
    if doc.Some? {
      var types := FindAll(doc.value, "type");
      for i := 0 to |types|
        invariant icons == AttrMap(types[..i], "name", "icon")
      {
        AttrMapStep(types, i, "name", "icon");
        var name := Attr(types[i], "name");
        var icon := Attr(types[i], "icon");
        if Present(name) && Present(icon) {
          icons := icons[name.value := icon.value];
        }
      }
      assert types[..|types|] == types;
    }
  }

  /** What deck `i` adds to the three maps the deck loop builds. */
  lemma DeckStep<C>(decks: seq<Element>, i: nat, hexColor: string -> Option<C>)
    requires i < |decks|
    ensures var d, pre := decks[i], decks[..i];
      && AttrMap(decks[..i + 1], "name", "front") ==
        (if Present(Attr(d, "name")) && Present(Attr(d, "front")) then AttrMap(pre, "name", "front")[Attr(d, "name").value := Attr(d, "front").value]
         else AttrMap(pre, "name", "front"))
      && AttrMap(decks[..i + 1], "name", "back") ==
        (if Present(Attr(d, "name")) && Present(Attr(d, "back")) then AttrMap(pre, "name", "back")[Attr(d, "name").value := Attr(d, "back").value]
         else AttrMap(pre, "name", "back"))
      && ColorMap(decks[..i + 1], hexColor) ==
        (if Present(Attr(d, "name")) && Present(Attr(d, "color")) && hexColor(Attr(d, "color").value).Some?
         then ColorMap(pre, hexColor)[Attr(d, "name").value := hexColor(Attr(d, "color").value).value]
         else ColorMap(pre, hexColor))
  {
    assert decks[..i + 1][..i] == decks[..i];
  }

  /**
   * `load_front_icons`: `doc` is the parsed `config/front_icons.xml`;
   * `hexColor` is reportlab's `HexColor`, `None` where it raises.
   */
  method LoadFrontIcons<C>(doc: Option<Element>, hexColor: string -> Option<C>)
    returns (front: map<string, string>, back: map<string, string>, loot: map<string, string>, colors: map<string, C>)
    ensures front == AttrMap(Decks(doc), "name", "front")
    ensures back == AttrMap(Decks(doc), "name", "back")
    ensures colors == ColorMap(Decks(doc), hexColor)
    ensures loot == AttrMap(LootTypes(doc), "name", "front")
    ensures doc.None? ==> front == map[] && back == map[] && loot == map[] && colors == map[]
  {
    front, back, loot, colors := map[], map[], map[], map[];
    if doc.Some? {
      var root := doc.value;
      var decks := FindAll(root, "deck");
      for i := 0 to |decks|
        invariant front == AttrMap(decks[..i], "name", "front")
        invariant back == AttrMap(decks[..i], "name", "back")
        invariant colors == ColorMap(decks[..i], hexColor)
      {
        DeckStep(decks, i, hexColor);
        var d := decks[i];
        var name := Attr(d, "name");
        var f := Attr(d, "front");
        var b := Attr(d, "back");
        var color := Attr(d, "color");
        if Present(name) && Present(f) {
          front := front[name.value := f.value];
        }
        if Present(name) && Present(b) {
          back := back[name.value := b.value];
        }
        if Present(name) && Present(color) {
          var parsed := hexColor(color.value);
          if parsed.Some? {
            colors := colors[name.value := parsed.value];
          }
        }
      }
      assert decks[..|decks|] == decks;
      var ld := Find(root, "lootDefaults");
      if ld.Some? {
        loot := ReadLootDefaults(ld.value);
      }
    }
  }

  /** One more element: the entry it adds, if any, goes on top of the prefix's map. */
  lemma AttrMapStep(es: seq<Element>, i: nat, key: string, val: string)
    requires i < |es|
    ensures AttrMap(es[..i + 1], key, val) ==
      (if Present(Attr(es[i], key)) && Present(Attr(es[i], val))
       then AttrMap(es[..i], key, val)[Attr(es[i], key).value := Attr(es[i], val).value]
       else AttrMap(es[..i], key, val))
  {
    assert es[..i + 1][..i] == es[..i];
  }

  /** The `lootDefaults` loop of `load_front_icons`. */
  method ReadLootDefaults(ld: Element) returns (loot: map<string, string>)
    ensures loot == AttrMap(FindAll(ld, "lootType"), "name", "front")
  {
    loot := map[];
    var lts := FindAll(ld, "lootType");
    for i := 0 to |lts|
      invariant loot == AttrMap(lts[..i], "name", "front")
    {
      AttrMapStep(lts, i, "name", "front");
      var name := Attr(lts[i], "name");
      var f := Attr(lts[i], "front");
      if Present(name) && Present(f) {
        loot := loot[name.value := f.value];
      }
    }
    assert lts[..|lts|] == lts;
  }

  /** The module-level globals `TYPE_ICONS`, `FRONT_DECK_ICONS`, `BACK_DECK_ICONS`, `LOOT_FRONT_DEFAULTS`, `DECK_COLORS`. */
  method LoadTheme<C>(typesDoc: Option<Element>, frontDoc: Option<Element>, hexColor: string -> Option<C>)
    returns (theme: Theme, colors: map<string, C>)
    ensures theme == Theme(
      AttrMap(TypeEntries(typesDoc), "name", "icon"),
      AttrMap(Decks(frontDoc), "name", "front"),
      AttrMap(Decks(frontDoc), "name", "back"),
      AttrMap(LootTypes(frontDoc), "name", "front"))
    ensures colors == ColorMap(Decks(frontDoc), hexColor)
    ensures WellFormed(theme)
  {
    var typeIcons := LoadTypeIcons(typesDoc);
    var front, back, loot;
    front, back, loot, colors := LoadFrontIcons(frontDoc, hexColor);
    theme := Theme(typeIcons, front, back, loot);
  }

  // ---------------------------------------------------------------- loader properties

  /** A deck with a back glyph but no front glyph anywhere appears in the back map only. */
  lemma BackOnlyDeck(doc: Option<Element>, n: string)
    requires exists i :: 0 <= i < |Decks(doc)| && Contributes(Decks(doc)[i], "name", "back", n)
    requires forall i :: 0 <= i < |Decks(doc)| ==> !Contributes(Decks(doc)[i], "name", "front", n)
    ensures n in AttrMap(Decks(doc), "name", "back")
    ensures n !in AttrMap(Decks(doc), "name", "front")
  {
    AttrMapEntry(Decks(doc), "name", "back", n);
    AttrMapEntry(Decks(doc), "name", "front", n);
  }

  /**
   * A deck whose colour the oracle rejects adds nothing to the colour map but
   * still adds its front and back glyphs.
   */
  lemma {:induction false} InvalidColorSkipped<C>(es: seq<Element>, e: Element, hexColor: string -> Option<C>)
    requires Present(Attr(e, "color")) && hexColor(Attr(e, "color").value).None?
    ensures ColorMap(es + [e], hexColor) == ColorMap(es, hexColor)
    ensures Present(Attr(e, "name")) && Present(Attr(e, "front")) ==>
      AttrMap(es + [e], "name", "front")[Attr(e, "name").value] == Attr(e, "front").value
    ensures Present(Attr(e, "name")) && Present(Attr(e, "back")) ==>
      AttrMap(es + [e], "name", "back")[Attr(e, "name").value] == Attr(e, "back").value
  {
    assert (es + [e])[..|es|] == es;
  }

  /** Loot defaults come only from `<lootType>` children of `<lootDefaults>` that carry both a name and a front glyph. */
  lemma LootDefaultSource(doc: Option<Element>, k: string)
    ensures k in AttrMap(LootTypes(doc), "name", "front") <==>
      exists i :: 0 <= i < |LootTypes(doc)| && Contributes(LootTypes(doc)[i], "name", "front", k)
  {
    AttrMapEntry(LootTypes(doc), "name", "front", k);
  }
}
