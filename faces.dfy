/**
 * What `draw_card` and `draw_back` (deck_pdf_generator/render.py) put on a
 * card: the text decisions (meta line, cost, footer, truncation, the body
 * line limit) and the marks of a front and of a back, in drawing order.
 */
module Faces {
  import opened Wrappers
  import opened Strings
  import opened Decimal
  import opened Config
  import opened Cards
  import opened Marks
  import opened Icons
  import TextWrap

  /** Everything a card is drawn against: the theme, the asset oracle, the body font's width function, colour mode. */
  datatype Context = Context(theme: Theme, assets: Assets, measure: string -> real, color: bool)

  /** Python's `int(r)` on a float: truncation toward zero. */
  function Trunc(r: real): (n: int)
    ensures r >= 0.0 ==> 0 <= n && n as real <= r < n as real + 1.0
    ensures r < 0.0 ==> n <= 0 && n as real - 1.0 < r <= n as real
  {
    if r >= 0.0 then r.Floor else -((-r).Floor)
  }

  function Min(a: real, b: real): real {
    if a <= b then a else b
  }

  // ---------------------------------------------------------------- text decisions

  /** One optional meta field: its value when present and non-empty, nothing otherwise. */
  function Part(o: Option<string>): (r: seq<string>)
    ensures |r| <= 1
  {
    if Present(o) then [o.value] else []
  }

  /** `meta_parts`: school, type, slot and class, each when non-empty, in that order. */
  function MetaParts(c: Card): seq<string> {
    Part(c.school) + Part(Some(c.cardType)) + Part(c.slot) + Part(c.klass)
  }

  /** The meta line, before truncation. */
  function Meta(c: Card): string {
    Join(" \U{2022} ", MetaParts(c))
  }

  /** `TYPE_ICONS.get("coin", "◈")`. */
  function Coin(t: Theme): string {
    Get(t.typeIcons, "coin").GetOr(Lozenge)
  }

  /** The front cost label: drawn only for a non-zero cost, as the coin glyph, a space and the number. */
  function CostText(t: Theme, c: Card): (r: Option<string>)
    ensures r.Some? <==> c.cost != 0
  {
    if c.cost != 0 then Some(Coin(t) + " " + IntToString(c.cost)) else None
  }

  /** The back cost label: drawn only for a present card with a non-zero cost, as the bare number. */
  function BackCostText(card: Option<Card>): (r: Option<string>)
    ensures r.Some? <==> card.Some? && card.value.cost != 0
  {
    if card.Some? && card.value.cost != 0 then Some(IntToString(card.value.cost)) else None
  }

  /** `", ".join(card.tags or [])`. */
  function TagsText(c: Card): string {
    Join(", ", TagsOrEmpty(c))
  }

  /** The footer, before truncation: the id, then `" | "` and the tags when they are non-empty. */
  function Footer(c: Card): string {
    if TagsText(c) != "" then c.id + " | " + TagsText(c) else c.id
  }

  const TitleLimit: nat := 40
  const SubtitleLimit: nat := 55
  const MetaLimit: nat := 80
  const FooterLimit: nat := 95

  /** The vertical advance of a body line: `BODY_SIZE + 2`. */
  const Lead: real := BodySize as real + 2.0

  /** `max(1, int(body_h / (BODY_SIZE + 2)))`. */
  function MaxLines(bodyH: real): (n: nat)
    ensures n >= 1
    ensures bodyH >= Lead ==> n as real * Lead <= bodyH < (n + 1) as real * Lead
    ensures bodyH < 2.0 * Lead ==> n == 1
  {
    var k := Trunc(bodyH / Lead);
    if k < 1 then 1 else k
  }

  // ---------------------------------------------------------------- card geometry

  function HeaderTop(y: real, h: real): real { y + h - Padding }
  function HeaderBottom(y: real, h: real): real { y + h - Padding - HeaderH }
  function ContentTop(y: real, h: real): real { HeaderBottom(y, h) - 4.0 }
  function ContentBottom(y: real): real { y + Padding + FooterH }
  function LargeSize(w: real, h: real): real { Min(w * 0.5, h * 0.35) }
  function IconCentreY(y: real, h: real): real {
    ContentBottom(y) + (ContentTop(y, h) - ContentBottom(y)) * 0.66
  }

  /** Where the body text starts: below the large icon when there is one, below the header otherwise. */
  function BodyTop(c: Card, y: real, w: real, h: real): real {
    if Present(c.frontIcon) then IconCentreY(y, h) - LargeSize(w, h) / 2.0 - 4.0 else ContentTop(y, h)
  }

  function BodyH(c: Card, y: real, w: real, h: real): real {
    BodyTop(c, y, w, h) - ContentBottom(y)
  }

  /** The body lines drawn: the wrapped effect text, cut to the line limit. */
  function BodyLines(ctx: Context, c: Card, y: real, w: real, h: real): seq<string> {
    Take(TextWrap.Wrap(c.effect, w - 2.0 * Padding, ctx.measure), MaxLines(BodyH(c, y, w, h)))
  }

  // ---------------------------------------------------------------- the marks of a front

  const CutSize: real := 2.5 * MM

  function HeaderBand(color: bool, x: real, y: real, w: real, h: real): (r: seq<Mark>)
    ensures |r| == if color then 1 else 0
  {
    if color then [Band(WhiteSmoke, x + 0.5, y + h - HeaderH - 0.5, w - 1.0, HeaderH)] else []
  }

  function CostMarks(t: Theme, c: Card, x: real, y: real, w: real, h: real): (r: seq<Mark>)
    ensures |r| == if c.cost != 0 then 1 else 0
  {
    match CostText(t, c)
    case None => []
    case Some(s) => [Text(Right, x + w - Padding, HeaderTop(y, h) - CostSize as real / 2.0 - 2.0, Bold, CostSize as real, s)]
  }

  /** The large icon: the picture, or its glyph at 28 pt when the picture fails, or at up to 48 pt when there is none. */
  function LargeIconMarks(a: Assets, t: Theme, c: Card, x: real, y: real, w: real, h: real): (r: seq<Mark>)
    ensures |r| == if Present(c.frontIcon) then 1 else 0
  {
    var cx := x + w / 2.0;
    var ls := LargeSize(w, h);
    var cy := IconCentreY(y, h);
    match LargeIcon(a, t, c)
    case None => []
    case Some(Image(k)) => [Picture(k, cx - ls / 2.0, cy - ls / 2.0, ls, ls)]
    case Some(Glyph(g, f)) =>
      if c.frontIcon.GetOr("") in a.images then [Text(Centre, cx, cy + 6.0, f, 28.0, g)]
      else [Text(Centre, cx, cy, f, Trunc(Min(48.0, ls / MM * 4.0)) as real, g)]
  }

  function HeaderIconMark(a: Assets, t: Theme, c: Card, x: real, y: real, h: real): Mark {
    match HeaderIcon(a, t, c)
    case Image(k) => Picture(k, x + Padding, HeaderTop(y, h) - IconSize, IconSize, IconSize)
    case Glyph(g, f) => Text(Left, x + Padding, HeaderTop(y, h) - 12.0, f, 12.0, g)
  }

  function TitleMarks(c: Card, x: real, y: real, h: real): seq<Mark> {
    var tx := x + Padding + 14.0;
    var ty := HeaderTop(y, h) - 12.0;
    [ Text(Left, tx, ty, Bold, TitleSize as real, Take(c.name, TitleLimit)),
      Text(Left, tx, ty - 10.0, Regular, SubtitleSize as real, Take(c.subtitle, SubtitleLimit)),
      Text(Left, x + Padding, HeaderBottom(y, h) + 2.0, Regular, MetaSize as real, Take(Meta(c), MetaLimit)) ]
  }

  /** Body line `k` sits `k` leads below the first, which sits one lead below `top`. */
  function BodyMarks(lines: seq<string>, x: real, first: real): (r: seq<Mark>)
    ensures |r| == |lines|
  {
    seq(|lines|, k requires 0 <= k < |lines| => Text(Left, x, first - k as real * Lead, Regular, BodySize as real, lines[k]))
  }

  function FooterMark(c: Card, x: real, y: real): Mark {
    Text(Left, x + Padding, y + Padding + 2.0, Regular, MetaSize as real, Take(Footer(c), FooterLimit))
  }

  /** The upper half of a front: outline, header band, cut marks, cost and icons. */
  function FrontHeader(ctx: Context, c: Card, x: real, y: real, w: real, h: real): (r: seq<Mark>)
    ensures |r| == 3 + (if ctx.color then 1 else 0) + (if c.cost != 0 then 1 else 0) + (if Present(c.frontIcon) then 1 else 0)
    ensures r[0] == Frame(x, y, w, h)
    ensures r[1].Band? <==> ctx.color
  {
    [Frame(x, y, w, h)] + HeaderBand(ctx.color, x, y, w, h) + [CutMarks(x, y, w, h, CutSize)]
    + CostMarks(ctx.theme, c, x, y, w, h)
    + LargeIconMarks(ctx.assets, ctx.theme, c, x, y, w, h)
    + [HeaderIconMark(ctx.assets, ctx.theme, c, x, y, h)]
  }

  /** The text of a front: title, subtitle, meta line, body lines and footer. */
  function FrontText(ctx: Context, c: Card, x: real, y: real, w: real, h: real): (r: seq<Mark>)
    ensures |r| == 4 + |BodyLines(ctx, c, y, w, h)|
    ensures r[|r| - 1] == FooterMark(c, x, y)
  {
    TitleMarks(c, x, y, h)
    + BodyMarks(BodyLines(ctx, c, y, w, h), x + Padding, BodyTop(c, y, w, h) - Lead)
    + [FooterMark(c, x, y)]
  }

  /**
   * Everything `draw_card` draws, in order: the outline first and the footer
   * last; a header band only in colour mode; seven marks every front has, one
   * more for each of the band, a non-zero cost and a large icon, and one per
   * body line.
   */
  function FrontMarks(ctx: Context, c: Card, x: real, y: real, w: real, h: real): (r: seq<Mark>)
    ensures |r| == 7 + (if ctx.color then 1 else 0) + (if c.cost != 0 then 1 else 0)
      + (if Present(c.frontIcon) then 1 else 0) + |BodyLines(ctx, c, y, w, h)|
    ensures r[0] == Frame(x, y, w, h) && r[|r| - 1] == FooterMark(c, x, y)
    ensures r[1].Band? <==> ctx.color
  {
    FrontHeader(ctx, c, x, y, w, h) + FrontText(ctx, c, x, y, w, h)
  }

  // ---------------------------------------------------------------- the marks of a back

  /** `ICON_SIZE * 4`, the back picture's side. */
  const BackIconSide: real := IconSize * 4.0

  /** The back icon: the picture 15 mm below the centre, or the glyph at `int(ICON_SIZE * 4)` points. */
  function BackIconMark(a: Assets, t: Theme, card: Option<Card>, x: real, y: real, w: real, h: real): Mark {
    var cx := x + w / 2.0;
    var cy := y + h / 2.0;
    match BackIcon(a, t, card)
    case Image(k) => Picture(k, cx - BackIconSide / 2.0, cy - 15.0 * MM, BackIconSide, BackIconSide)
    case Glyph(g, f) =>
      if card.Some? && card.value.cardType in a.images then
        Text(Centre, cx, cy - 15.0 * MM + Trunc(BackIconSide / 4.0) as real, f, Trunc(BackIconSide) as real, g)
      else
        Text(Centre, cx, cy - 15.0 * MM + Trunc(IconSize * 4.0 / 4.0) as real, f, Trunc(IconSize * 4.0) as real, g)
  }

  function BackTint(color: bool, x: real, y: real, w: real, h: real): seq<Mark> {
    if color then [Band(LightBlue, x + 1.0, y + 1.0, w - 2.0, h - 2.0)] else []
  }

  /** `int(COST_SIZE * 1.8)`. */
  const BackCostSize: int := Trunc(CostSize as real * 1.8)

  function BackCostMarks(card: Option<Card>, x: real, y: real, w: real, h: real): seq<Mark> {
    match BackCostText(card)
    case None => []
    case Some(s) =>
      [Text(Centre, x + w / 2.0, y + h / 2.0 - BackCostSize as real / 2.0 - 14.0 * MM, Bold, BackCostSize as real, s)]
  }

  const BackLabel: string := "Gnarl"

  /**
   * Everything `draw_back` draws, in order: the outline, then the icon, then the
   * tint over it only in colour mode, the cost only for a card with a non-zero
   * cost, and the brand label last.
   */
  function BackMarks(ctx: Context, card: Option<Card>, x: real, y: real, w: real, h: real): (r: seq<Mark>)
    ensures |r| == 3 + (if ctx.color then 1 else 0) + (if card.Some? && card.value.cost != 0 then 1 else 0)
    ensures r[0] == Frame(x, y, w, h) && r[1] == BackIconMark(ctx.assets, ctx.theme, card, x, y, w, h)
    ensures r[2].Band? <==> ctx.color
    ensures r[|r| - 1] == Text(Centre, x + w / 2.0, y + Padding + 2.0, Bold, MetaSize as real, BackLabel)
  {
    [Frame(x, y, w, h), BackIconMark(ctx.assets, ctx.theme, card, x, y, w, h)]
    + BackTint(ctx.color, x, y, w, h)
    + BackCostMarks(card, x, y, w, h)
    + [Text(Centre, x + w / 2.0, y + Padding + 2.0, Bold, MetaSize as real, BackLabel)]
  }

  // ---------------------------------------------------------------- properties

  /** A value is a part of the meta line exactly when it is the non-empty school, type, slot or class. */
  lemma MetaPartsMembers(c: Card, s: string)
    ensures s in MetaParts(c) <==>
      s != "" && (c.school == Some(s) || c.cardType == s || c.slot == Some(s) || c.klass == Some(s))
  {
  }

  lemma {:induction false} JoinEmpty(sep: string, parts: seq<string>)
    requires forall j :: 0 <= j < |parts| ==> parts[j] != ""
    ensures Join(sep, parts) == "" <==> parts == []
    decreases |parts|
  {
  }

  /** The meta line is empty exactly when school, type, slot and class are all empty or missing. */
  lemma MetaEmptyIff(c: Card)
    ensures Meta(c) == "" <==> !Present(c.school) && c.cardType == "" && !Present(c.slot) && !Present(c.klass)
  {
    forall j | 0 <= j < |MetaParts(c)| ensures MetaParts(c)[j] != "" {
      MetaPartsMembers(c, MetaParts(c)[j]);
    }
    JoinEmpty(" \U{2022} ", MetaParts(c));
    if Present(c.school) { MetaPartsMembers(c, c.school.value); }
    if c.cardType != "" { MetaPartsMembers(c, c.cardType); }
    if Present(c.slot) { MetaPartsMembers(c, c.slot.value); }
    if Present(c.klass) { MetaPartsMembers(c, c.klass.value); }
    if MetaParts(c) != [] { MetaPartsMembers(c, MetaParts(c)[0]); }
  }

  /** The number after the coin on the front, and the number on the back, both read back as the card's cost. */
  lemma CostTextsAgree(t: Theme, c: Card)
    ensures CostText(t, c).Some? <==> BackCostText(Some(c)).Some?
    ensures CostText(t, c).Some? ==> CostText(t, c).value == Coin(t) + " " + BackCostText(Some(c)).value
    ensures BackCostText(Some(c)).Some? ==> ParseInt(BackCostText(Some(c)).value) == Some(c.cost)
    ensures CostText(t, c).Some? ==> ParseInt(CostText(t, c).value[|Coin(t)| + 1..]) == Some(c.cost)
  {
    if c.cost != 0 {
      ParseIntToString(c.cost);
      var s := Coin(t) + " " + IntToString(c.cost);
      assert s[|Coin(t)| + 1..] == IntToString(c.cost);
    }
  }

  /** The footer starts with the id and is just the id exactly when there is no tag text. */
  lemma FooterShape(c: Card)
    ensures Footer(c)[..|c.id|] == c.id
    ensures Footer(c) == c.id <==> TagsText(c) == ""
    ensures TagsText(c) != "" ==> Footer(c)[|c.id|..] == " | " + TagsText(c)
  {
    if TagsText(c) != "" {
      assert |Footer(c)| > |c.id|;
    }
  }

  /**
   * The body lines are the first `MaxLines` lines of the wrapped effect,
   * at least one whenever the effect has a word, each non-empty and either
   * fitting the inner width or a single word.
   */
  lemma BodyLinesProperties(ctx: Context, c: Card, y: real, w: real, h: real)
    ensures var lines := BodyLines(ctx, c, y, w, h);
      var all := TextWrap.Wrap(c.effect, w - 2.0 * Padding, ctx.measure);
      && |lines| <= MaxLines(BodyH(c, y, w, h))
      && lines == all[..|lines|]
      && (|lines| < |all| ==> |lines| == MaxLines(BodyH(c, y, w, h)))
      && (Words(c.effect) != [] ==> lines != [])
      && (forall i :: 0 <= i < |lines| ==> lines[i] != "")
      && TextWrap.FitsOrLone(lines, w - 2.0 * Padding, ctx.measure)
  {
    var all := TextWrap.Wrap(c.effect, w - 2.0 * Padding, ctx.measure);
    TextWrap.WrapProperties(c.effect, w - 2.0 * Padding, ctx.measure);
    WordsEmpty(c.effect);
    var lines := BodyLines(ctx, c, y, w, h);
    forall i | 0 <= i < |lines|
      ensures lines[i] != ""
      ensures ctx.measure(lines[i]) <= w - 2.0 * Padding || |Words(lines[i])| == 1
    {
      assert lines[i] == all[i];
    }
  }

  /**
   * Each text line of a front is a prefix of its field, of at most 40, 55, 80
   * or 95 characters, and the whole field when it is no longer than that.
   */
  lemma TextLimits(c: Card, x: real, y: real, h: real)
    ensures var tm := TitleMarks(c, x, y, h);
      && tm[0].text <= c.name && |tm[0].text| <= TitleLimit && (|c.name| <= TitleLimit ==> tm[0].text == c.name)
      && tm[1].text <= c.subtitle && |tm[1].text| <= SubtitleLimit && (|c.subtitle| <= SubtitleLimit ==> tm[1].text == c.subtitle)
      && tm[2].text <= Meta(c) && |tm[2].text| <= MetaLimit && (|Meta(c)| <= MetaLimit ==> tm[2].text == Meta(c))
    ensures var f := FooterMark(c, x, y).text;
      f <= Footer(c) && |f| <= FooterLimit && (|Footer(c)| <= FooterLimit ==> f == Footer(c))
  {
  }

  /** The body's room does not depend on where the card is placed. */
  lemma BodyRoomIgnoresPlacement(c: Card, y1: real, y2: real, w: real, h: real)
    ensures BodyH(c, y1, w, h) == BodyH(c, y2, w, h)
  {
  }

  /** On a card tall enough for a header and footer, a large icon never gives the body more lines. */
  lemma IconNeverAddsLines(c: Card, y: real, w: real, h: real)
    requires w > 0.0 && h > 0.0
    requires ContentTop(y, h) >= ContentBottom(y)
    ensures MaxLines(BodyH(c, y, w, h)) <= MaxLines(BodyH(c.(frontIcon := None), y, w, h))
  {
    var with := IconCentreY(y, h) - LargeSize(w, h) / 2.0 - 4.0 - ContentBottom(y);
    var without := ContentTop(y, h) - ContentBottom(y);
    assert with <= without;
    assert Trunc(with / Lead) <= Trunc(without / Lead);
  }

  /** A 62 x 87 mm card holds 5 body lines under a large icon and 15 without. */
  lemma DefaultBodyCapacity(c: Card, y: real)
    ensures Present(c.frontIcon) ==> MaxLines(BodyH(c, y, DefaultLayout.cardW, DefaultLayout.cardH)) == 5
    ensures !Present(c.frontIcon) ==> MaxLines(BodyH(c, y, DefaultLayout.cardW, DefaultLayout.cardH)) == 15
  {
    var w, h := DefaultLayout.cardW, DefaultLayout.cardH;
    assert LargeSize(w, h) == h * 0.35;
    var room := ContentTop(y, h) - ContentBottom(y);
    assert room == 60.0 * MM - 4.0;
    if Present(c.frontIcon) {
      assert BodyH(c, y, w, h) == room * 0.66 - h * 0.175 - 4.0;
      assert 5.0 * Lead <= BodyH(c, y, w, h) < 6.0 * Lead;
    } else {
      assert BodyH(c, y, w, h) == room;
      assert 15.0 * Lead <= room < 16.0 * Lead;
    }
  }

  /** A back whose picture fails to draw shows exactly the glyph mark of a back with no picture. */
  lemma BrokenBackIsGlyphBack(a: Assets, t: Theme, c: Card, x: real, y: real, w: real, h: real)
    requires c.cardType in a.broken
    ensures BackIconMark(a, t, Some(c), x, y, w, h) == BackIconMark(a.(images := a.images - {c.cardType}), t, Some(c), x, y, w, h)
  {
  }

  /** The back cost is `int(18 * 1.8)` = 32 points. */
  lemma BackCostSizeValue()
    ensures BackCostSize == 32
  {
  }
}
