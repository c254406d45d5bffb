/**
 * The drawing side of deck_pdf_generator/render.py: `draw_card`, `draw_back`
 * and the page loop of `render_pdf`, as methods that place marks on a
 * canvas, each proved to draw exactly what the specifications in `Faces`
 * and below describe.
 */
module Render {
  import opened Wrappers
  import opened Strings
  import opened Decimal
  import opened Config
  import opened Cards
  import opened Marks
  import opened Icons
  import opened Faces
  import opened Grid
  import TextWrap

  lemma Assoc<T>(a: seq<T>, b: seq<T>, c: seq<T>)
    ensures a + b + c == a + (b + c)
  {
  }

  /** Titles, body and footer drawn one after the other make the text of a front. */
  lemma FrontTextDrawn(ctx: Context, card: Card, x: real, y: real, w: real, h: real, s0: seq<Mark>, s1: seq<Mark>, s2: seq<Mark>, s3: seq<Mark>)
    requires s1 == s0 + TitleMarks(card, x, y, h)
    requires s2 == s1 + BodyMarks(BodyLines(ctx, card, y, w, h), x + Padding, BodyTop(card, y, w, h) - Lead)
    requires s3 == s2 + [FooterMark(card, x, y)]
    ensures s3 == s0 + FrontText(ctx, card, x, y, w, h)
  {
    Chain3(s0, s1, s2, s3, TitleMarks(card, x, y, h),
      BodyMarks(BodyLines(ctx, card, y, w, h), x + Padding, BodyTop(card, y, w, h) - Lead), [FooterMark(card, x, y)]);
  }

  /** Three pieces drawn one after the other. */
  lemma Chain3<T>(s0: seq<T>, s1: seq<T>, s2: seq<T>, s3: seq<T>, a: seq<T>, b: seq<T>, c: seq<T>)
    requires s1 == s0 + a && s2 == s1 + b && s3 == s2 + c
    ensures s3 == s0 + (a + b + c)
  {
  }

  // ---------------------------------------------------------------- draw_card

  /** One more body line: line `i` is drawn one line height below line `i - 1`. */
  lemma BodyMarksSnoc(lines: seq<string>, i: nat, x: real, first: real)
    requires i < |lines|
    ensures BodyMarks(lines[..i + 1], x, first) ==
      BodyMarks(lines[..i], x, first) + [Text(Left, x, first - i as real * Lead, Regular, BodySize as real, lines[i])]
  {
  }

  /** The small header icon, drawn the same way on both branches of `draw_card`. */
  method DrawHeaderIcon(c: Canvas, a: Assets, t: Theme, card: Card, x: real, y: real, h: real)
    modifies c
    ensures c.current == old(c.current) + [HeaderIconMark(a, t, card, x, y, h)]
    ensures c.pages == old(c.pages) && c.saved == old(c.saved)
  {
    var ix := x + Padding;
    var headerTop := y + h - Padding;
    var ic := IconFor(t, card);
    if card.cardType in a.images {
      if card.cardType !in a.broken {
        c.Draw(Picture(card.cardType, ix, headerTop - IconSize, IconSize, IconSize));
      } else {
        c.Draw(Text(Left, ix, headerTop - 12.0, FontOf(a), 12.0, ic));
      }
    } else {
      c.Draw(Text(Left, ix, headerTop - 12.0, FontOf(a), 12.0, ic));
    }
  }

  /** The large icon of a card with a front icon: the picture, or its glyph when the picture is missing or fails. */
  method DrawLargeIcon(c: Canvas, a: Assets, t: Theme, card: Card, x: real, y: real, w: real, h: real)
    requires Present(card.frontIcon)
    modifies c
    ensures c.current == old(c.current) + LargeIconMarks(a, t, card, x, y, w, h)
    ensures c.pages == old(c.pages) && c.saved == old(c.saved)
  {
    var fi := card.frontIcon.value;
    var ic := IconFor(t, card);
    var iconText := Or(Get(t.typeIcons, fi), Or(card.frontIcon, Some(ic))).value;
    var cx := x + w / 2.0;
    var largeSize := Min(w * 0.5, h * 0.35);
    var contentTop := y + h - Padding - HeaderH - 4.0;
    var contentBottom := y + Padding + FooterH;
    var iconCentreY := contentBottom + (contentTop - contentBottom) * 0.66;
    var font := FontOf(a);
    if fi in a.images {
      if fi !in a.broken {
        c.Draw(Picture(fi, cx - largeSize / 2.0, iconCentreY - largeSize / 2.0, largeSize, largeSize));
      } else {
        c.Draw(Text(Centre, cx, iconCentreY + 6.0, font, 28.0, iconText));
      }
    } else {
      c.Draw(Text(Centre, cx, iconCentreY, font, Trunc(Min(48.0, largeSize / MM * 4.0)) as real, iconText));
    }
  }

  /** The body lines, the first at `first` and each next one a lead lower. */
  method DrawLines(c: Canvas, lines: seq<string>, x: real, first: real)
    modifies c
    ensures c.current == old(c.current) + BodyMarks(lines, x, first)
    ensures c.pages == old(c.pages) && c.saved == old(c.saved)
  {
    var lineY := first;
    ghost var start := c.current;
    for i := 0 to |lines|
      invariant c.current == start + BodyMarks(lines[..i], x, first)
      invariant lineY == first - i as real * Lead
      invariant c.pages == old(c.pages) && c.saved == old(c.saved)
    {
      BodyMarksSnoc(lines, i, x, first);
      Assoc(start, BodyMarks(lines[..i], x, first), [Text(Left, x, lineY, Regular, BodySize as real, lines[i])]);
      c.Draw(Text(Left, x, lineY, Regular, BodySize as real, lines[i]));
      lineY := lineY - (BodySize as real + 2.0);
    }
    assert lines[..|lines|] == lines;
  }

  /** The wrapped body text, at most `MaxLines` lines of it. */
  method DrawBody(c: Canvas, ctx: Context, card: Card, x: real, y: real, w: real, h: real)
    modifies c
    ensures c.current == old(c.current) +
      BodyMarks(BodyLines(ctx, card, y, w, h), x + Padding, BodyTop(card, y, w, h) - Lead)
    ensures c.pages == old(c.pages) && c.saved == old(c.saved)
  {
    var ix := x + Padding;
    var iw := w - 2.0 * Padding;
    var bodyTop := BodyTop(card, y, w, h);
    var bodyBottom := y + Padding + FooterH;
    var bodyH := bodyTop - bodyBottom;
    var k := Trunc(bodyH / (BodySize as real + 2.0));
    var maxLines: nat := if k < 1 then 1 else k;
    assert maxLines == MaxLines(BodyH(card, y, w, h));
    var wrapped := TextWrap.WrapText(card.effect, iw, ctx.measure);
    var lines := Take(wrapped, maxLines);
    DrawLines(c, lines, ix, bodyTop - (BodySize as real + 2.0));
  }

  /** The card outline, the header band in colour mode, and the cut marks. */
  method DrawFrame(c: Canvas, color: bool, x: real, y: real, w: real, h: real)
    modifies c
    ensures c.current == old(c.current) + ([Frame(x, y, w, h)] + HeaderBand(color, x, y, w, h) + [CutMarks(x, y, w, h, CutSize)])
    ensures c.pages == old(c.pages) && c.saved == old(c.saved)
  {
    c.Draw(Frame(x, y, w, h));
    if color {
      c.Draw(Band(WhiteSmoke, x + 0.5, y + h - HeaderH - 0.5, w - 1.0, HeaderH));
    }
    c.Draw(CutMarks(x, y, w, h, CutSize));
  }

  /** The cost at the top right, only when it is not zero. */
  method DrawCost(c: Canvas, t: Theme, card: Card, x: real, y: real, w: real, h: real)
    modifies c
    ensures c.current == old(c.current) + CostMarks(t, card, x, y, w, h)
    ensures c.pages == old(c.pages) && c.saved == old(c.saved)
  {
    var headerTop := y + h - Padding;
    if card.cost != 0 {
      var coin := Get(t.typeIcons, "coin").GetOr(Lozenge);
      var costText := coin + " " + IntToString(card.cost);
      c.Draw(Text(Right, x + w - Padding, headerTop - CostSize as real / 2.0 - 2.0, Bold, CostSize as real, costText));
    }
  }

  /** The large icon when the card has a front icon, then the header icon either way. */
  method DrawIcons(c: Canvas, a: Assets, t: Theme, card: Card, x: real, y: real, w: real, h: real)
    modifies c
    ensures c.current == old(c.current) + (LargeIconMarks(a, t, card, x, y, w, h) + [HeaderIconMark(a, t, card, x, y, h)])
    ensures c.pages == old(c.pages) && c.saved == old(c.saved)
  {
    if Present(card.frontIcon) {
      DrawLargeIcon(c, a, t, card, x, y, w, h);
      DrawHeaderIcon(c, a, t, card, x, y, h);
    } else {
      DrawHeaderIcon(c, a, t, card, x, y, h);
    }
  }

  /** The title, the subtitle and the meta line, each cut to its length. */
  method DrawTitles(c: Canvas, card: Card, x: real, y: real, h: real)
    modifies c
    ensures c.current == old(c.current) + TitleMarks(card, x, y, h)
    ensures c.pages == old(c.pages) && c.saved == old(c.saved)
  {
    var ix := x + Padding;
    var headerTop := y + h - Padding;
    var headerBottom := y + h - Padding - HeaderH;
    var metaParts: seq<string> := [];
    if Present(card.school) { metaParts := metaParts + [card.school.value]; }
    assert metaParts == Part(card.school);
    if card.cardType != "" { metaParts := metaParts + [card.cardType]; }
    assert metaParts == Part(card.school) + Part(Some(card.cardType));
    if Present(card.slot) { metaParts := metaParts + [card.slot.value]; }
    assert metaParts == Part(card.school) + Part(Some(card.cardType)) + Part(card.slot);
    if Present(card.klass) { metaParts := metaParts + [card.klass.value]; }
    assert metaParts == MetaParts(card);
    var meta := Join(" \U{2022} ", metaParts);
    var titleX := ix + 14.0;
    var titleY := headerTop - 12.0;
    c.Draw(Text(Left, titleX, titleY, Bold, TitleSize as real, Take(card.name, TitleLimit)));
    c.Draw(Text(Left, titleX, titleY - 10.0, Regular, SubtitleSize as real, Take(card.subtitle, SubtitleLimit)));
    c.Draw(Text(Left, ix, headerBottom + 2.0, Regular, MetaSize as real, Take(meta, MetaLimit)));
  }

  /** The footer: the id, then the tags when there are any. */
  method DrawFooter(c: Canvas, card: Card, x: real, y: real)
    modifies c
    ensures c.current == old(c.current) + [FooterMark(card, x, y)]
    ensures c.pages == old(c.pages) && c.saved == old(c.saved)
  {
    var footerY := y + Padding + 2.0;
    var tags := Join(", ", card.tags.GetOr([]));
    var footer := card.id;
    if tags != "" {
      footer := footer + " | " + tags;
    }
    c.Draw(Text(Left, x + Padding, footerY, Regular, MetaSize as real, Take(footer, FooterLimit)));
  }

  /** The upper half of a front, in the order it is drawn. */
  method DrawFrontHeader(c: Canvas, ctx: Context, card: Card, x: real, y: real, w: real, h: real)
    modifies c
    ensures c.current == old(c.current) + FrontHeader(ctx, card, x, y, w, h)
    ensures c.pages == old(c.pages) && c.saved == old(c.saved)
  {
    ghost var start := c.current;
    ghost var frame := [Frame(x, y, w, h)] + HeaderBand(ctx.color, x, y, w, h) + [CutMarks(x, y, w, h, CutSize)];
    ghost var cost := CostMarks(ctx.theme, card, x, y, w, h);
    ghost var large := LargeIconMarks(ctx.assets, ctx.theme, card, x, y, w, h);
    ghost var small := [HeaderIconMark(ctx.assets, ctx.theme, card, x, y, h)];
    DrawFrame(c, ctx.color, x, y, w, h);
    DrawCost(c, ctx.theme, card, x, y, w, h);
    Assoc(start, frame, cost);
    DrawIcons(c, ctx.assets, ctx.theme, card, x, y, w, h);
    Assoc(start, frame + cost, large + small);
    Assoc(frame + cost, large, small);
  }

  method DrawFrontText(c: Canvas, ctx: Context, card: Card, x: real, y: real, w: real, h: real)
    modifies c
    ensures c.current == old(c.current) + FrontText(ctx, card, x, y, w, h)
    ensures c.pages == old(c.pages) && c.saved == old(c.saved)
  {
    ghost var start := c.current;
    DrawTitles(c, card, x, y, h);
    ghost var s1 := c.current;
    DrawBody(c, ctx, card, x, y, w, h);
    ghost var s2 := c.current;
    DrawFooter(c, card, x, y);
    FrontTextDrawn(ctx, card, x, y, w, h, start, s1, s2, c.current);
  }

  /** `draw_card`: everything a front shows, in the order it is drawn. */
  method DrawCard(c: Canvas, ctx: Context, card: Card, x: real, y: real, w: real, h: real)
    modifies c
    ensures c.current == old(c.current) + FrontMarks(ctx, card, x, y, w, h)
    ensures c.pages == old(c.pages) && c.saved == old(c.saved)
  {
    ghost var start := c.current;
    DrawFrontHeader(c, ctx, card, x, y, w, h);
    DrawFrontText(c, ctx, card, x, y, w, h);
    Assoc(start, FrontHeader(ctx, card, x, y, w, h), FrontText(ctx, card, x, y, w, h));
  }

  // ---------------------------------------------------------------- draw_back

  /** The back icon: the deck's back glyph, the loot back, or the header glyph; a picture when the type has one. */
  method DrawBackIcon(c: Canvas, a: Assets, t: Theme, card: Option<Card>, x: real, y: real, w: real, h: real)
    modifies c
    ensures c.current == old(c.current) + [BackIconMark(a, t, card, x, y, w, h)]
    ensures c.pages == old(c.pages) && c.saved == old(c.saved)
  {
    var cx := x + w / 2.0;
    var cy := y + h / 2.0;
    var iconText := Get(t.backDeckIcons, "loot").GetOr(Get(t.typeIcons, "coin").GetOr(Lozenge));
    var imgPath: Option<string> := None;
    if card.Some? {
      var cd := card.value;
      if Present(cd.deck) && cd.deck.value in t.backDeckIcons {
        iconText := Get(t.backDeckIcons, cd.deck.value).GetOr(iconText);
      } else {
        if cd.cardType in t.lootFrontDefaults {
          iconText := Get(t.backDeckIcons, "loot").GetOr(iconText);
        } else {
          iconText := IconFor(t, cd);
        }
      }
      if cd.cardType in a.images {
        imgPath := Some(cd.cardType);
      }
    }
    assert iconText == BackGlyph(t, card);
    var font := FontOf(a);
    if imgPath.Some? {
      var side := IconSize * 4.0;
      if imgPath.value !in a.broken {
        c.Draw(Picture(imgPath.value, cx - side / 2.0, cy - 15.0 * MM, side, side));
      } else {
        c.Draw(Text(Centre, cx, cy - 15.0 * MM + Trunc(side / 4.0) as real, font, Trunc(side) as real, iconText));
      }
    } else {
      c.Draw(Text(Centre, cx, cy - 15.0 * MM + Trunc(IconSize * 4.0 / 4.0) as real, font, Trunc(IconSize * 4.0) as real, iconText));
    }
  }

  /** `draw_back`, for a card or for an empty position (`None`). */
  method DrawBack(c: Canvas, ctx: Context, card: Option<Card>, x: real, y: real, w: real, h: real)
    modifies c
    ensures c.current == old(c.current) + BackMarks(ctx, card, x, y, w, h)
    ensures c.pages == old(c.pages) && c.saved == old(c.saved)
  {
    ghost var start := c.current;
    c.Draw(Frame(x, y, w, h));
    DrawBackIcon(c, ctx.assets, ctx.theme, card, x, y, w, h);
    var cx := x + w / 2.0;
    var cy := y + h / 2.0;
    if ctx.color {
      c.Draw(Band(LightBlue, x + 1.0, y + 1.0, w - 2.0, h - 2.0));
    }
    ghost var drawn := [Frame(x, y, w, h), BackIconMark(ctx.assets, ctx.theme, card, x, y, w, h)] + BackTint(ctx.color, x, y, w, h);
    assert c.current == start + drawn;
    if card.Some? && card.value.cost != 0 {
      var backCostSize := Trunc(CostSize as real * 1.8);
      var costStr := IntToString(card.value.cost);
      c.Draw(Text(Centre, cx, cy - backCostSize as real / 2.0 - 14.0 * MM, Bold, backCostSize as real, costStr));
    }
    Assoc(start, drawn, BackCostMarks(card, x, y, w, h));
    drawn := drawn + BackCostMarks(card, x, y, w, h);
    assert c.current == start + drawn;
    var brand := "Gnarl";
    c.Draw(Text(Centre, cx, y + Padding + 2.0, Bold, MetaSize as real, brand));
    Assoc(start, drawn, [Text(Centre, x + w / 2.0, y + Padding + 2.0, Bold, MetaSize as real, BackLabel)]);
  }

  // ---------------------------------------------------------------- the document render_pdf writes

  /** The title line at the top of every front page. */
  function PageHeader(L: Layout): Mark {
    Text(Left, L.marginLeft, L.pageH - 6.0 * MM, Bold, 10.0, "Gnarl \U{2013} beta cards")
  }

  /** The page label centred in the bottom margin: `"<page+1>. front"` or `"<page+1>. back"`. */
  function Caption(L: Layout, page: nat, side: string): Mark {
    Text(Centre, L.pageW / 2.0, L.marginY / 2.0, Regular, MetaSize as real, IntToString(page + 1) + side)
  }

  const FrontSide: string := ". front"
  const BackSide: string := ". back"

  /** The index of the card at position `pos` of page `page`. */
  function CardIndex(L: Layout, page: nat, pos: nat): nat {
    page * CardsPerPage(L) + pos
  }

  /** Position `pos` of a front page: the card's front in its cell, or nothing past the last card. */
  function FrontCell(ctx: Context, L: Layout, cards: seq<Card>, page: nat, pos: nat): seq<Mark>
    requires L.cols >= 1
  {
    var i := CardIndex(L, page, pos);
    if i < |cards| then FrontMarks(ctx, cards[i], CellX(L, pos % L.cols), CellY(L, pos / L.cols), L.cardW, L.cardH)
    else []
  }

  /** Position `pos` of a back page: the card's back in the same cell, or an empty back past the last card. */
  function BackCell(ctx: Context, L: Layout, cards: seq<Card>, page: nat, pos: nat): seq<Mark>
    requires L.cols >= 1
  {
    var i := CardIndex(L, page, pos);
    BackMarks(ctx, if i < |cards| then Some(cards[i]) else None, CellX(L, pos % L.cols), CellY(L, pos / L.cols), L.cardW, L.cardH)
  }

  /** The marks of cells `0 .. k - 1`, one after another. */
  function Cells<T>(k: nat, cell: nat -> seq<T>): seq<T> {
    if k == 0 then [] else Cells(k - 1, cell) + cell(k - 1)
  }

  /** Sheets `0 .. n - 1`, each a front page followed by its back page. */
  function Sheets<P>(n: nat, front: nat -> P, back: nat -> P): seq<P> {
    if n == 0 then [] else Sheets(n - 1, front, back) + [front(n - 1), back(n - 1)]
  }

  /** The marks of the first `k` positions of a front page. */
  function FrontCells(ctx: Context, L: Layout, cards: seq<Card>, page: nat, k: nat): seq<Mark>
    requires L.cols >= 1
  {
    Cells(k, (pos: nat) => FrontCell(ctx, L, cards, page, pos))
  }

  /** The marks of the first `k` positions of a back page. */
  function BackCells(ctx: Context, L: Layout, cards: seq<Card>, page: nat, k: nat): seq<Mark>
    requires L.cols >= 1
  {
    Cells(k, (pos: nat) => BackCell(ctx, L, cards, page, pos))
  }

  function FrontPage(ctx: Context, L: Layout, cards: seq<Card>, page: nat): seq<Mark>
    requires L.cols >= 1
  {
    [PageHeader(L)] + FrontCells(ctx, L, cards, page, CardsPerPage(L)) + [Caption(L, page, FrontSide)]
  }

  function BackPage(ctx: Context, L: Layout, cards: seq<Card>, page: nat): seq<Mark>
    requires L.cols >= 1
  {
    BackCells(ctx, L, cards, page, CardsPerPage(L)) + [Caption(L, page, BackSide)]
  }

  /** The first `n` sheets of the document: two pages each (which page is which is `DocumentPages`). */
  function Document(ctx: Context, L: Layout, cards: seq<Card>, n: nat): (r: seq<seq<Mark>>)
    requires L.cols >= 1
    ensures |r| == 2 * n
  {
    var front := (p: nat) => FrontPage(ctx, L, cards, p);
    var back := (p: nat) => BackPage(ctx, L, cards, p);
    SheetsPages(n, front, back, 0);
    Sheets(n, front, back)
  }

  lemma DocumentSnoc(ctx: Context, L: Layout, cards: seq<Card>, n: nat)
    requires L.cols >= 1
    ensures Document(ctx, L, cards, n + 1) == Document(ctx, L, cards, n) + [FrontPage(ctx, L, cards, n)] + [BackPage(ctx, L, cards, n)]
  {
    assert [FrontPage(ctx, L, cards, n), BackPage(ctx, L, cards, n)] == [FrontPage(ctx, L, cards, n)] + [BackPage(ctx, L, cards, n)];
  }

  const TooTall: string := "Grid doesn't fit on page vertically with current settings. Adjust margins/gaps or card size."
  const DivisionByZero: string := "division by zero"

  /** One position of a front page: the card's front in its cell, or nothing past the last card. */
  method DrawFrontCell(c: Canvas, ctx: Context, L: Layout, cards: seq<Card>, page: nat, pos: nat, endIdx: nat)
    requires L.cols >= 1 && pos < CardsPerPage(L)
    requires endIdx == if |cards| < page * CardsPerPage(L) + CardsPerPage(L) then |cards| else page * CardsPerPage(L) + CardsPerPage(L)
    modifies c
    ensures c.current == old(c.current) + FrontCell(ctx, L, cards, page, pos)
    ensures c.pages == old(c.pages) && c.saved == old(c.saved)
  {
    var cardIdx := page * (L.cols * L.rows) + pos;
    var col := pos % L.cols;
    var r := pos / L.cols;
    var x := CellX(L, col);
    var y := CellY(L, r);
    if cardIdx < endIdx {
      DrawCard(c, ctx, cards[cardIdx], x, y, L.cardW, L.cardH);
    }
  }

  /** The fronts of one page, position by position; positions past the last card stay empty. */
  method DrawFronts(c: Canvas, ctx: Context, L: Layout, cards: seq<Card>, page: nat)
    requires L.cols >= 1
    modifies c
    ensures c.current == old(c.current) + FrontCells(ctx, L, cards, page, CardsPerPage(L))
    ensures c.pages == old(c.pages) && c.saved == old(c.saved)
  {
    ghost var start := c.current;
    var cpp := L.cols * L.rows;
    var startIdx := page * cpp;
    var endIdx := if |cards| < startIdx + cpp then |cards| else startIdx + cpp;
    for pos := 0 to cpp
      invariant c.current == start + FrontCells(ctx, L, cards, page, pos)
      invariant c.pages == old(c.pages) && c.saved == old(c.saved)
    {
      Assoc(start, FrontCells(ctx, L, cards, page, pos), FrontCell(ctx, L, cards, page, pos));
      DrawFrontCell(c, ctx, L, cards, page, pos, endIdx);
    }
  }

  /** One position of a back page: the card's back in the same cell as its front, or an empty back. */
  method DrawBackCell(c: Canvas, ctx: Context, L: Layout, cards: seq<Card>, page: nat, pos: nat)
    requires L.cols >= 1
    modifies c
    ensures c.current == old(c.current) + BackCell(ctx, L, cards, page, pos)
    ensures c.pages == old(c.pages) && c.saved == old(c.saved)
  {
    var cardIdx := page * (L.cols * L.rows) + pos;
    var col := pos % L.cols;
    var r := pos / L.cols;
    var x := CellX(L, col);
    var y := CellY(L, r);
    var card: Option<Card> := if cardIdx < |cards| then Some(cards[cardIdx]) else None;
    BackCellAt(ctx, L, cards, page, pos, card, x, y);
    DrawBack(c, ctx, card, x, y, L.cardW, L.cardH);
  }

  /** The back of position `pos`, in the cell at column `pos % cols` and row `pos / cols`. */
  lemma BackCellAt(ctx: Context, L: Layout, cards: seq<Card>, page: nat, pos: nat, card: Option<Card>, x: real, y: real)
    requires L.cols >= 1
    requires card == if CardIndex(L, page, pos) < |cards| then Some(cards[CardIndex(L, page, pos)]) else None
    requires x == CellX(L, pos % L.cols) && y == CellY(L, pos / L.cols)
    ensures BackCell(ctx, L, cards, page, pos) == BackMarks(ctx, card, x, y, L.cardW, L.cardH)
  {
  }

  /** The backs of one page, position by position. */
  method DrawBacks(c: Canvas, ctx: Context, L: Layout, cards: seq<Card>, page: nat)
    requires L.cols >= 1
    modifies c
    ensures c.current == old(c.current) + BackCells(ctx, L, cards, page, CardsPerPage(L))
    ensures c.pages == old(c.pages) && c.saved == old(c.saved)
  {
    ghost var start := c.current;
    var cpp := L.cols * L.rows;
    for pos := 0 to cpp
      invariant c.current == start + BackCells(ctx, L, cards, page, pos)
      invariant c.pages == old(c.pages) && c.saved == old(c.saved)
    {
      Assoc(start, BackCells(ctx, L, cards, page, pos), BackCell(ctx, L, cards, page, pos));
      DrawBackCell(c, ctx, L, cards, page, pos);
    }
  }

  /** A front page: the title line, the fronts and the caption, then the page is finished. */
  method DrawFrontPage(c: Canvas, ctx: Context, L: Layout, cards: seq<Card>, page: nat)
    requires L.cols >= 1
    requires c.current == []
    modifies c
    ensures c.pages == old(c.pages) + [FrontPage(ctx, L, cards, page)]
    ensures c.current == [] && c.saved == old(c.saved)
  {
    c.Draw(PageHeader(L));
    ghost var s1 := c.current;
    DrawFronts(c, ctx, L, cards, page);
    ghost var s2 := c.current;
    c.Draw(Caption(L, page, FrontSide));
    FrontPageDrawn(ctx, L, cards, page, s1, s2, c.current);
    c.ShowPage();
  }

  /** The title line, the fronts and the caption drawn on an empty page make the front page. */
  lemma FrontPageDrawn(ctx: Context, L: Layout, cards: seq<Card>, page: nat, s1: seq<Mark>, s2: seq<Mark>, s3: seq<Mark>)
    requires L.cols >= 1
    requires s1 == [PageHeader(L)]
    requires s2 == s1 + FrontCells(ctx, L, cards, page, CardsPerPage(L))
    requires s3 == s2 + [Caption(L, page, FrontSide)]
    ensures s3 == FrontPage(ctx, L, cards, page)
  {
  }

  /** A back page: the backs and the caption, then the page is finished. */
  method DrawBackPage(c: Canvas, ctx: Context, L: Layout, cards: seq<Card>, page: nat)
    requires L.cols >= 1
    requires c.current == []
    modifies c
    ensures c.pages == old(c.pages) + [BackPage(ctx, L, cards, page)]
    ensures c.current == [] && c.saved == old(c.saved)
  {
    ghost var backs := BackCells(ctx, L, cards, page, CardsPerPage(L));
    DrawBacks(c, ctx, L, cards, page);
    assert c.current == backs;
    c.Draw(Caption(L, page, BackSide));
    c.ShowPage();
  }

  /**
   * `render_pdf`: the returned canvas holds the pages drawn; `advisory` is
   * whether the margin warning was printed. A grid too tall for the page
   * raises before any page is drawn, and so does an empty grid, through the
   * division in the page count.
   */
  method RenderPdf(cards: seq<Card>, L: Layout, ctx: Context) returns (c: Canvas, advisory: bool, result: Outcome<string>)
    ensures fresh(c)
    ensures advisory == MarginAdvisory(L)
    ensures !FitsVertically(L) ==> result == Fail(TooTall) && c.pages == [] && c.current == [] && !c.saved
    ensures FitsVertically(L) && CardsPerPage(L) == 0 ==> result == Fail(DivisionByZero) && c.pages == [] && c.current == [] && !c.saved
    ensures FitsVertically(L) && CardsPerPage(L) >= 1 ==>
      && L.cols >= 1
      && result == Pass
      && c.pages == Document(ctx, L, cards, TotalPages(|cards|, CardsPerPage(L)))
      && c.current == [] && c.saved
  {
    c := new Canvas();
    var pageW, pageH := L.pageW, L.pageH;
    var gridW := L.cols as real * L.cardW + (L.cols as real - 1.0) * L.gapX;
    var gridH := L.rows as real * L.cardH + (L.rows as real - 1.0) * L.gapY;
    var startX := (pageW - gridW) / 2.0;
    var actualLeft := startX;
    var actualRight := pageW - (startX + gridW);
    advisory := actualLeft < L.marginLeft || actualRight < L.marginRight;
    var startY := pageH - L.marginY - gridH;
    assert gridW == GridW(L);
    assert startX == StartX(L);
    assert actualRight == ActualRight(L);
    assert startY == StartY(L);
    if startY < 0.0 {
      result := Fail(TooTall);
      return;
    }
    var cpp := L.cols * L.rows;
    if cpp == 0 {
      result := Fail(DivisionByZero);
      return;
    }
    var totalPages := TotalPages(|cards|, cpp);
    for page := 0 to totalPages
      invariant c.pages == Document(ctx, L, cards, page)
      invariant c.current == [] && !c.saved
    {
      DrawFrontPage(c, ctx, L, cards, page);
      DrawBackPage(c, ctx, L, cards, page);
      DocumentSnoc(ctx, L, cards, page);
    }
    c.Save();
    result := Pass;
  }

  // ---------------------------------------------------------------- properties

  lemma {:induction false} SheetsPages<P>(n: nat, front: nat -> P, back: nat -> P, p: nat)
    ensures |Sheets(n, front, back)| == 2 * n
    ensures p < n ==> Sheets(n, front, back)[2 * p] == front(p) && Sheets(n, front, back)[2 * p + 1] == back(p)
  {
    if n > 0 {
      SheetsPages(n - 1, front, back, p);
    }
  }

  /** The document has two pages per sheet: page `2p` is sheet `p`'s front, page `2p + 1` its back. */
  lemma DocumentPages(ctx: Context, L: Layout, cards: seq<Card>, n: nat, p: nat)
    requires L.cols >= 1
    ensures p < n ==> Document(ctx, L, cards, n)[2 * p] == FrontPage(ctx, L, cards, p)
    ensures p < n ==> Document(ctx, L, cards, n)[2 * p + 1] == BackPage(ctx, L, cards, p)
  {
    SheetsPages(n, (q: nat) => FrontPage(ctx, L, cards, q), (q: nat) => BackPage(ctx, L, cards, q), p);
  }

  /** A front page opens with the title line and closes with `"<p+1>. front"`; a back page closes with `"<p+1>. back"`. */
  lemma PageCaptions(ctx: Context, L: Layout, cards: seq<Card>, p: nat)
    requires L.cols >= 1
    ensures FrontPage(ctx, L, cards, p)[0] == PageHeader(L)
    ensures var f := FrontPage(ctx, L, cards, p); f[|f| - 1].Text? && f[|f| - 1].text == IntToString(p + 1) + ". front"
    ensures var b := BackPage(ctx, L, cards, p); b[|b| - 1].Text? && b[|b| - 1].text == IntToString(p + 1) + ". back"
  {
  }

  /** The cells of the first `j` positions come first. */
  lemma {:induction false} CellsPrefix<T>(cell: nat -> seq<T>, j: nat, k: nat)
    requires j <= k
    ensures |Cells(j, cell)| <= |Cells(k, cell)|
    ensures Cells(k, cell)[..|Cells(j, cell)|] == Cells(j, cell)
    decreases k
  {
    if j < k {
      CellsPrefix(cell, j, k - 1);
      var a := Cells(k - 1, cell);
      var n := |Cells(j, cell)|;
      assert (a + cell(k - 1))[..n] == a[..n];
    }
  }

  /** Position `pos` is drawn after positions `0 .. pos - 1` and before the rest. */
  lemma {:induction false} CellsSplit<T>(cell: nat -> seq<T>, pos: nat, k: nat)
    requires pos < k
    ensures |Cells(pos, cell)| + |cell(pos)| <= |Cells(k, cell)|
    ensures Cells(k, cell)[..|Cells(pos, cell)| + |cell(pos)|] == Cells(pos, cell) + cell(pos)
    decreases k
  {
    CellsPrefix(cell, pos + 1, k);
  }

  /** Each card index belongs to exactly one sheet and position: sheet `i / cpp`, position `i % cpp`. */
  lemma AtLeastOnce(a: int, b: int)
    requires a >= 1 && b >= 0
    ensures a * b >= b
  {
    assert a * b == (a - 1) * b + b;
  }

  /** Euclidean division is unique: `q * cpp + r` with `r < cpp` has quotient `q` and remainder `r`. */
  lemma DivModUnique(i: nat, cpp: nat, q: nat, r: nat)
    requires cpp >= 1 && r < cpp && i == q * cpp + r
    ensures i / cpp == q && i % cpp == r
  {
    var q', r' := i / cpp, i % cpp;
    assert q' * cpp + r' == i;
    assert (q - q') * cpp == q * cpp - q' * cpp;
    if q > q' {
      AtLeastOnce(q - q', cpp);
    } else if q < q' {
      AtLeastOnce(q' - q, cpp);
    }
  }

  /** Each card index belongs to exactly one sheet and position: sheet `i / cpp`, position `i % cpp`. */
  lemma CellOfCard(L: Layout, i: nat, page: nat, pos: nat)
    requires CardsPerPage(L) >= 1 && pos < CardsPerPage(L)
    ensures CardIndex(L, page, pos) == i <==> page == i / CardsPerPage(L) && pos == i % CardsPerPage(L)
  {
    var cpp := CardsPerPage(L);
    if CardIndex(L, page, pos) == i {
      DivModUnique(i, cpp, page, pos);
    }
  }

  /** Card `i` is drawn on sheet `i / cpp`, which exists, at position `i % cpp`. */
  lemma CardSheet(L: Layout, n: nat, i: nat)
    requires CardsPerPage(L) >= 1 && i < n
    ensures var cpp := CardsPerPage(L);
      && i / cpp < TotalPages(n, cpp)
      && i % cpp < cpp
      && CardIndex(L, i / cpp, i % cpp) == i
  {
    PageOfCard(i, n, CardsPerPage(L));
  }

  /** At that position the front page shows card `i`'s front in the cell of column `pos % cols`, row `pos / cols`. */
  lemma CardFront(ctx: Context, L: Layout, cards: seq<Card>, i: nat)
    requires CardsPerPage(L) >= 1 && i < |cards|
    ensures L.cols >= 1
    ensures var pos := i % CardsPerPage(L);
      FrontCell(ctx, L, cards, i / CardsPerPage(L), pos) ==
        FrontMarks(ctx, cards[i], CellX(L, pos % L.cols), CellY(L, pos / L.cols), L.cardW, L.cardH)
  {
    CardSheet(L, |cards|, i);
  }

  /** The back page shows card `i`'s back in the same cell: the same column, with no mirroring. */
  lemma CardBack(ctx: Context, L: Layout, cards: seq<Card>, i: nat)
    requires CardsPerPage(L) >= 1 && i < |cards|
    ensures L.cols >= 1
    ensures var pos := i % CardsPerPage(L);
      BackCell(ctx, L, cards, i / CardsPerPage(L), pos) ==
        BackMarks(ctx, Some(cards[i]), CellX(L, pos % L.cols), CellY(L, pos / L.cols), L.cardW, L.cardH)
  {
    CardSheet(L, |cards|, i);
  }

  /** Positions past the last card get no front and an empty back. */
  lemma EmptyPositions(ctx: Context, L: Layout, cards: seq<Card>, page: nat, pos: nat)
    requires L.cols >= 1
    requires CardIndex(L, page, pos) >= |cards|
    ensures FrontCell(ctx, L, cards, page, pos) == []
    ensures BackCell(ctx, L, cards, page, pos) ==
      BackMarks(ctx, None, CellX(L, pos % L.cols), CellY(L, pos / L.cols), L.cardW, L.cardH)
  {
  }

  /** With the shipped layout, nine cards go on each sheet and a deck of `n` cards takes `ceil(n / 9)` sheets, at least one. */
  lemma DefaultSheets(n: nat)
    ensures CardsPerPage(DefaultLayout) == 9
    ensures TotalPages(n, 9) == if n == 0 then 1 else (n + 8) / 9
  {
  }
}
