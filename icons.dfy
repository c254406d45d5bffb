/**
 * Icon resolution in deck_pdf_generator/render.py: the header glyph
 * (`icon_for`), the large front icon, the small header icon and the back
 * icon. Whether `icons/<key>.png` exists is the set `images`; whether drawing
 * it raises is the set `broken`; whether the icon font was registered selects
 * the font glyphs are drawn in.
 */
module Icons {
  import opened Wrappers
  import opened Strings
  import opened Config
  import opened Cards
  import opened Marks

  /** What is drawn for an icon: a picture file, or a glyph string. */
  datatype Icon = Image(key: string) | Glyph(text: string, font: Font)

  /** The environment the renderer probes: files present, files whose drawing fails, and the icon font. */
  datatype Assets = Assets(images: set<string>, broken: set<string>, iconFontRegistered: bool)

  const Bullet: string := "\U{2022}"
  const Lozenge: string := "\U{25C8}"

  /** `ICON_FONT if ICON_FONT_PATH else FONT_REG`. */
  function FontOf(a: Assets): (f: Font)
    ensures f != Bold
  {
    if a.iconFontRegistered then Symbol else Regular
  }

  /**
   * The `if os.path.exists(...)` / `try: drawImage` / `except: draw the glyph`
   * pattern: the picture when its file is there and draws, the glyph otherwise.
   */
  function Drawn(a: Assets, key: string, glyph: string): (r: Icon)
    ensures r.Image? <==> key in a.images && key !in a.broken
    ensures r.Image? ==> r.key == key
    ensures r.Glyph? ==> r.text == glyph && r.font == FontOf(a)
  {
    if key in a.images && key !in a.broken then Image(key) else Glyph(glyph, FontOf(a))
  }

  /** `icon_for`: the type's glyph, else the (non-empty) school's glyph, else a bullet. */
  function IconFor(t: Theme, c: Card): (r: string)
    ensures c.cardType in t.typeIcons ==> r == t.typeIcons[c.cardType]
    ensures c.cardType !in t.typeIcons && Present(c.school) && c.school.value in t.typeIcons ==>
      r == t.typeIcons[c.school.value]
    ensures r == Bullet || r in t.typeIcons.Values
    ensures WellFormed(t) ==> r != ""
  {
    if c.cardType in t.typeIcons then t.typeIcons[c.cardType]
    else if Present(c.school) && c.school.value in t.typeIcons then t.typeIcons[c.school.value]
    else Bullet
  }

  /** The glyph of the large icon: `TYPE_ICONS.get(front_icon) or front_icon or icon_for(card)`. */
  function LargeGlyph(t: Theme, c: Card): string {
    Or(Get(t.typeIcons, c.frontIcon.GetOr("")), Or(c.frontIcon, Some(IconFor(t, c)))).value
  }

  /** The large centred icon: drawn only for a non-empty `front_icon`, from `icons/<front_icon>.png` or its glyph. */
  function LargeIcon(a: Assets, t: Theme, c: Card): (r: Option<Icon>)
    ensures r.Some? <==> Present(c.frontIcon)
  {
    if Present(c.frontIcon) then Some(Drawn(a, c.frontIcon.value, LargeGlyph(t, c))) else None
  }

  /** The small header icon: `icons/<type>.png`, falling back to `icon_for`. The same on both branches of `draw_card`. */
  function HeaderIcon(a: Assets, t: Theme, c: Card): (r: Icon)
    ensures r.Image? <==> c.cardType in a.images && c.cardType !in a.broken
    ensures r.Image? ==> r.key == c.cardType
    ensures r.Glyph? ==> r.text == IconFor(t, c) && r.font == FontOf(a)
  {
    Drawn(a, c.cardType, IconFor(t, c))
  }

  /** `BACK_DECK_ICONS.get("loot", TYPE_ICONS.get("coin", "◈"))`. */
  function BackDefault(t: Theme): (r: string)
    ensures "loot" in t.backDeckIcons ==> r == t.backDeckIcons["loot"]
    ensures "loot" !in t.backDeckIcons && "coin" in t.typeIcons ==> r == t.typeIcons["coin"]
    ensures "loot" !in t.backDeckIcons && "coin" !in t.typeIcons ==> r == Lozenge
  {
    Get(t.backDeckIcons, "loot").GetOr(Get(t.typeIcons, "coin").GetOr(Lozenge))
  }

  /** The glyph on a back, for a card or for an empty slot. */
  function BackGlyph(t: Theme, card: Option<Card>): string {
    match card
    case None => BackDefault(t)
    case Some(c) =>
      if Present(c.deck) && c.deck.value in t.backDeckIcons then t.backDeckIcons[c.deck.value]
      else if c.cardType in t.lootFrontDefaults then Get(t.backDeckIcons, "loot").GetOr(BackDefault(t))
      else IconFor(t, c)
  }

  /**
   * The back icon: an empty slot never shows a picture; a card shows one exactly
   * when its type's `icons/<type>.png` exists and draws, and the back glyph otherwise.
   */
  function BackIcon(a: Assets, t: Theme, card: Option<Card>): (r: Icon)
    ensures r.Image? <==> card.Some? && card.value.cardType in a.images && card.value.cardType !in a.broken
    ensures r.Image? ==> r.key == card.value.cardType
    ensures r.Glyph? ==> r.text == BackGlyph(t, card) && r.font == FontOf(a)
  {
    match card
    case None => Glyph(BackDefault(t), FontOf(a))
    case Some(c) => Drawn(a, c.cardType, BackGlyph(t, card))
  }

  // ---------------------------------------------------------------- properties

  /** A deck listed in the back map decides the back glyph, whatever the card's type. */
  lemma DeckBackWins(t: Theme, c: Card)
    requires Present(c.deck) && c.deck.value in t.backDeckIcons
    ensures BackGlyph(t, Some(c)) == t.backDeckIcons[c.deck.value]
  {
  }

  /** Without a listed deck, a loot-default type shows the same back as an empty slot. */
  lemma LootTypeBackIsDefault(t: Theme, c: Card)
    requires !(Present(c.deck) && c.deck.value in t.backDeckIcons)
    requires c.cardType in t.lootFrontDefaults
    ensures BackGlyph(t, Some(c)) == BackGlyph(t, None)
  {
  }

  /** Without a listed deck or a loot-default type, the back shows the header glyph. */
  lemma PlainBackIsHeaderGlyph(t: Theme, c: Card)
    requires !(Present(c.deck) && c.deck.value in t.backDeckIcons)
    requires c.cardType !in t.lootFrontDefaults
    ensures BackGlyph(t, Some(c)) == IconFor(t, c)
  {
  }

  /** Under a well-formed theme no glyph the renderer draws is empty. */
  lemma GlyphsNonEmpty(a: Assets, t: Theme, c: Card, card: Option<Card>)
    requires WellFormed(t)
    ensures IconFor(t, c) != ""
    ensures BackDefault(t) != ""
    ensures BackGlyph(t, card) != ""
    ensures Present(c.frontIcon) ==> LargeGlyph(t, c) != ""
    ensures BackIcon(a, t, card).Glyph? ==> BackIcon(a, t, card).text != ""
  {
  }

  /**
   * The third fallback of the large glyph is dead: whenever the large icon is
   * drawn, its glyph is the type map's entry for `front_icon` or `front_icon`
   * itself, never `icon_for(card)`.
   */
  lemma LargeGlyphChoice(t: Theme, c: Card)
    requires Present(c.frontIcon)
    ensures Present(Get(t.typeIcons, c.frontIcon.value)) ==> LargeGlyph(t, c) == t.typeIcons[c.frontIcon.value]
    ensures !Present(Get(t.typeIcons, c.frontIcon.value)) ==> LargeGlyph(t, c) == c.frontIcon.value
  {
  }

  /** No icon depends on a card's `back_icon` or `biome`: the renderer never reads them. */
  lemma IconsIgnoreBackIconAndBiome(a: Assets, t: Theme, c: Card, bi: Option<string>, bm: Option<string>)
    ensures var c' := c.(backIcon := bi, biome := bm);
      && IconFor(t, c') == IconFor(t, c)
      && HeaderIcon(a, t, c') == HeaderIcon(a, t, c)
      && LargeIcon(a, t, c') == LargeIcon(a, t, c)
      && BackIcon(a, t, Some(c')) == BackIcon(a, t, Some(c))
  {
  }

  /** The header icon ignores `front_icon`: both branches of `draw_card` draw the same one. */
  lemma HeaderIconIgnoresFrontIcon(a: Assets, t: Theme, c: Card, fi: Option<string>)
    ensures HeaderIcon(a, t, c.(frontIcon := fi)) == HeaderIcon(a, t, c)
  {
  }
}
