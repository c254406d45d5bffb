# deck-pdf-generator, modelled in Dafny

deck-pdf-generator turns an XML deck of trading-card definitions into a
print sheet PDF. Cards sit on a 3 x 3 grid of 62 x 87 mm cells on A4. Each
sheet is a page of fronts followed by a page of backs.

This project models the core of that program:

- **Card records.** `parse_cards` turns `<card>` elements into `Card`
  records. It handles defaults, cost and count parsing, tag splitting, the
  loot / variant / plain selection of type, deck and front icon, the generated
  id, monster stats, and repetition.
- **The theme.** The config loaders fold `<type>`, `<deck>` and `<lootType>`
  elements into the icon maps.
- **Card faces.** The renderer makes these decisions for each face:
  - which icon appears where (`icon_for`, the large front icon, the header
    icon, the back icon);
  - when the cost appears, and how;
  - how the meta line and footer are built and cut;
  - how the body text is wrapped (`wrap_text`) and clipped.
- **The document.** `render_pdf` computes the grid, paginates, and runs the
  page loop.

The model's modules follow the program's structure:

| module | models |
|---|---|
| `Cards` | the `Card` dataclass (`types.py`), with `Option` for its `None` defaults |
| `Xml` | the parsed element tree, with `find`, `findall`, `findtext` and `attrib.get` |
| `Strings`, `Decimal` | `strip`, `split()`, `split(",")`, `join`, slicing, `str(int)` and `int(str)` |
| `Config` | the layout and typography constants, and the loaders as folds over element lists plus the loops that compute them |
| `Icons` | icon resolution as pure functions to `Image(key) \| Glyph(text, font)` |
| `TextWrap` | `wrap_text` as a loop method, proved equal to a greedy specification function |
| `Faces` | what one front or back shows, as a sequence of marks in drawing order |
| `Marks` | the canvas as a class: a finished-page list, a current page and a saved flag |
| `Grid` | the geometry of `render_pdf` |
| `Render` | `draw_card`, `draw_back` and `render_pdf` as methods that draw onto the canvas, proved to draw exactly `FrontMarks`, `BackMarks` and `Document` |
| `Parser` | `parse_cards` as loop methods, proved to build `Parse`, the repetition expansion of `RecordOf` |

The environment is passed in as parameters:

- **Files.** The PNG files that exist are `Assets.images`. A picture whose
  drawing raises is listed in `Assets.broken`. A registered icon font is
  `Assets.iconFontRegistered`.
- **Colours.** Colour parsing (`HexColor`) is a function into `Option`.
- **Text width.** `stringWidth` of the body font is `measure: string -> real`.
- **XML.** A config file that did not parse is `None`.

Every drawing call appends one `Mark` to the canvas's current page.
`showPage` closes that page, and `save` sets the saved flag.

### Intended behaviour the code does not implement

What a duplex print sheet of game cards would call for differs from what the
code does in the cases below. The model follows the code in each:

- **No mirroring of backs.** For duplex alignment a back belongs at column
  `cols - 1 - col`. The code places each back in the same column as its
  front (render.py:289-294). `Render.CardBack` states what the code does.
  `Grid.BackBehindFrontOnlyInMiddleColumn` shows that a back lands behind
  its front, on a flipped sheet, only in the middle column.
- **No paragraphs.** Wrapping each paragraph on its own would keep blank
  lines. The code turns every newline into a space and wraps the text as
  one run of words (render.py:13). `TextWrap.NewlineWrapsAsSpace` states
  this.
- **Cost.** Monster cards would show their loot budget in place of a cost,
  and a value of zero or less would be hidden. The code shows `cost` on both
  faces whenever it is non-zero, negative values included (render.py:90,
  224). The comment at render.py:223 says "cost > 0", but the test is
  Python truthiness, so a negative cost is drawn; `Faces.BackCostText`
  states the code's rule.
- **No stats row or biome glyph.** Monster fronts would carry a stats row,
  and monster backs or headers a biome glyph. The code draws neither, and
  no icon depends on the `biome` field (`Icons.IconsIgnoreBackIconAndBiome`).
- **`back_icon` is never read.** A card's own `back_icon` would rank first
  among the back glyphs. The renderer never reads the field: the back glyph
  is the deck's, then the loot default, then `icon_for` (render.py:186-195),
  whatever `back_icon` holds (`Icons.IconsIgnoreBackIconAndBiome`).
- **Front icon sources.** A plain card's front icon would come from its
  variant's deck default; the code prefers the variant child's own
  `front_icon` attribute and falls back to the deck default only when that is
  missing (parser.py:81-86, `Parser.PlainBranch`). A loot card uses the
  school map before the loot-type default (parser.py:54-66,
  `Parser.LootSelection`).
- **Header band colour.** The header band and the back would be coloured
  by deck. The code uses a fixed whitesmoke band and a fixed lightblue tint.
  `DECK_COLORS` is loaded but never read by the renderer.
- **Tint order.** The code draws the back tint after the back icon, over it
  (render.py:218-221), where a background tint would come first.
- **Back label.** The back label is the fixed brand `"Gnarl"`, without a
  deck name (render.py:231-232).
- **Empty deck.** An empty deck still yields one sheet, a front page and a
  back page of empty cells, since the page count is `max(1, …)`
  (render.py:265, `Grid.TotalPages`, `Render.DefaultSheets`).

### Shape of the model

Where the source changes state step by step, the model is imperative:

- the parser's node loop and copy loop;
- the loaders' loops over elements;
- `wrap_text`'s word loop;
- the drawing in `draw_card`, `draw_back` and `render_pdf`.

Each such method is proved against a specification function. Each section
of `draw_card` and each grid cell of `render_pdf` is a method of its own,
and those methods follow the source statements in order.

## Model

| member | source | states |
|---|---|---|
| Cards.NewCard | deck_pdf_generator/types.py:5-24 | a card built from the six required fields has count 1, and every optional field (stats, biome, back icon, school, slot, class, front icon, deck, tags) is `None` |
| Xml.ChildrenTagged | deck_pdf_generator/parser.py:24 | `findall(tag)` returns every child with that tag and nothing else, and no more elements than there are children |
| Xml.ChildrenTaggedCount | deck_pdf_generator/parser.py:24 | each child with the tag occurs in `findall(tag)` as often as among the children, and no other element occurs at all |
| Xml.ChildrenTaggedSnoc | deck_pdf_generator/config.py:47 | `findall(tag)` keeps document order: a later matching child comes after all earlier matches |
| Xml.FindIsFirstOfFindAll | deck_pdf_generator/parser.py:41 | `find(tag)` is the first element of `findall(tag)`, or none when there is none |
| Strings.Or | deck_pdf_generator/render.py:100 | Python's `a or b` on optional strings: `a` when it is present and non-empty, `b` otherwise |
| Strings.Take | deck_pdf_generator/render.py:149 | `s[:n]` is the prefix of `s` of length `min(n, len(s))` |
| Strings.Strip | deck_pdf_generator/parser.py:25 | `strip()` removes exactly the leading whitespace in front and only whitespace behind, and what it keeps has no whitespace at either end |
| Strings.StripChars | deck_pdf_generator/parser.py:25 | the characters `strip()` keeps are the input's, in place, starting right after its leading whitespace |
| Strings.StripIdempotent | deck_pdf_generator/parser.py:29-31 | stripping twice is stripping once |
| Strings.StripAfterSpaces | deck_pdf_generator/parser.py:27 | `strip()` of whitespace followed by a clean non-empty string is that string |
| Strings.Words | deck_pdf_generator/render.py:13 | `split()` returns only non-empty, whitespace-free words |
| Strings.WordsEmpty | deck_pdf_generator/render.py:13 | `split()` returns no words exactly when the text is whitespace only |
| Strings.WordsOfJoin | deck_pdf_generator/render.py:27 | splitting words joined by single spaces gives back the same words |
| Strings.JoinWordsClean | deck_pdf_generator/render.py:20 | words joined by single spaces are non-empty and have no whitespace at either end |
| Strings.SplitOn | deck_pdf_generator/parser.py:27 | `split(",")` returns at least one piece, and no piece contains a comma |
| Strings.JoinSplitOn | deck_pdf_generator/parser.py:27 | joining the pieces of `split(c)` with `c` gives the string back |
| Decimal.IntToString | deck_pdf_generator/render.py:227 | `str(n)` is non-empty and has no surrounding whitespace |
| Decimal.ParseInt | deck_pdf_generator/parser.py:47 | `int(s)` succeeds exactly when the stripped text is an optional sign followed by one or more ASCII digits; its value is the decimal value of those digits, negated after a minus sign and unchanged after a plus sign or no sign |
| Decimal.Unsigned | deck_pdf_generator/parser.py:47 | the digits after the optional sign of a literal `int()` accepts are non-empty and all ASCII digits |
| Decimal.ParseIntPlus | deck_pdf_generator/parser.py:47 | `int("+7")` is 7 |
| Decimal.ParseIntMinus | deck_pdf_generator/parser.py:47 | `int("-05")` is -5: the sign negates and leading zeros are accepted |
| Decimal.ParseIntSpacesAndErrors | deck_pdf_generator/parser.py:47-49 | `int(" 3")` is 3, while `"3a"` and a bare `"-"` raise `ValueError` |
| Decimal.ParseIntToString | deck_pdf_generator/parser.py:47 | `int(str(n)) == n` for every integer, negative ones included |
| Decimal.ParseIntOfStrip | deck_pdf_generator/parser.py:70-72 | `int()` ignores surrounding whitespace, so the `.strip()` before it changes nothing |
| Config.AttrMap | deck_pdf_generator/config.py:47-51 | a loader map holds only non-empty keys with non-empty values |
| Config.AttrMapEntry | deck_pdf_generator/config.py:47-51 | a name is a key exactly when some element has that name and a non-empty value; its value is the last such element's, and a later duplicate overwrites an earlier one |
| Config.ColorMap | deck_pdf_generator/config.py:74-79 | the colour map names only decks that have a non-empty name and a non-empty colour |
| Config.ColorMapEntry | deck_pdf_generator/config.py:74-79 | a deck name is a key exactly when some deck has that name, a non-empty colour and one `HexColor` accepts; its value is `HexColor` of the last such deck's colour, and an invalid colour is skipped without removing an earlier entry |
| Config.DeckStep | deck_pdf_generator/config.py:65-79 | one pass of the deck loop sets the deck's front, back and (when the colour parses) colour entries, overwriting earlier ones, and leaves each map unchanged otherwise |
| Config.LoadTypeIcons | deck_pdf_generator/config.py:42-54 | the loop builds the `name -> icon` fold over the `<type>` elements, and an unparsed file gives the empty map |
| Config.LoadFrontIcons | deck_pdf_generator/config.py:57-89 | the loop builds the front, back, loot and colour maps as their folds, and an unparsed file gives four empty maps |
| Config.ReadLootDefaults | deck_pdf_generator/config.py:80-86 | the loot map is the `name -> front` fold over the `<lootType>` children of `<lootDefaults>` |
| Config.LoadTheme | deck_pdf_generator/config.py:91-93 | the module globals are exactly these folds over the two documents, and no glyph in the theme is empty |
| Config.BackOnlyDeck | deck_pdf_generator/config.py:65-73 | a deck with a back attribute and no front attribute is in the back map and not in the front map |
| Config.InvalidColorSkipped | deck_pdf_generator/config.py:74-79 | a colour that does not parse adds no colour entry, and that deck's front and back entries are still made |
| Config.LootDefaultSource | deck_pdf_generator/config.py:80-86 | a loot default exists exactly when some `<lootType>` has that name and a non-empty front |
| Grid.ActualRight | deck_pdf_generator/render.py:243-248 | the centred grid leaves equal left and right margins, which together with the grid width fill the page |
| Grid.TotalPages | deck_pdf_generator/render.py:265 | `max(1, ceil(n / cpp))`: at least one page, exactly one for no cards, and otherwise the fewest pages that hold all cards |
| Grid.ColumnInsideGrid | deck_pdf_generator/render.py:276-278 | every column's cell lies within the grid horizontally |
| Grid.RowInsideGrid | deck_pdf_generator/render.py:277-279 | every row's cell lies within the grid vertically |
| Grid.CellSpacing | deck_pdf_generator/render.py:278-279 | neighbouring columns are `CARD_W + GAP_X` apart, and each row lies `CARD_H + GAP_Y` below the one before |
| Grid.GridAnchoredAtTop | deck_pdf_generator/render.py:259-279 | row 0 touches the top margin, and the last row sits at `start_y` |
| Grid.RowsOnPage | deck_pdf_generator/render.py:259-262 | when `start_y >= 0`, every cell lies on the page below the top margin |
| Grid.BackBehindFrontOnlyInMiddleColumn | deck_pdf_generator/render.py:289-294 | with backs in the same column as fronts, a back sits behind its front on a sheet flipped left to right exactly in the middle column |
| Grid.DefaultGeometry | deck_pdf_generator/config.py:9-18 | the default grid is 194 x 269 mm, with 8 mm side margins (so the margin advisory fires), a `start_y` of 18 mm (so it fits) and 9 cards per page |
| Grid.PageOfCard | deck_pdf_generator/render.py:267-275 | card `i` falls on a page below the total, at position `i % cpp` |
| Icons.FontOf | deck_pdf_generator/render.py:110 | glyph icons are drawn in the icon font when it is registered, and in the regular font otherwise, never in bold |
| Icons.Drawn | deck_pdf_generator/render.py:118-129 | a picture is drawn exactly when its file exists and drawing it does not raise; otherwise the glyph is drawn |
| Icons.IconFor | deck_pdf_generator/render.py:38-43 | `TYPE_ICONS[type]` if present, else `TYPE_ICONS[school]` for a non-empty school, else the bullet; the result is a theme glyph or the bullet |
| Icons.LargeIcon | deck_pdf_generator/render.py:98-116 | a large icon is drawn exactly when `front_icon` is non-empty |
| Icons.LargeGlyphChoice | deck_pdf_generator/render.py:100 | the large glyph is `TYPE_ICONS[front_icon]` when that is non-empty, else `front_icon` itself |
| Icons.HeaderIconIgnoresFrontIcon | deck_pdf_generator/render.py:118-144 | both branches of `draw_card` draw the same small header icon, whatever `front_icon` is |
| Icons.HeaderIcon | deck_pdf_generator/render.py:118-129 | the header icon is the type's picture exactly when `icons/<type>.png` exists and draws, and otherwise the `icon_for` glyph in the icon font (regular when none is registered) |
| Icons.IconsIgnoreBackIconAndBiome | deck_pdf_generator/render.py:38-216 | no icon on either face depends on the card's `back_icon` or `biome` |
| Icons.BackDefault | deck_pdf_generator/render.py:186 | the default back glyph is `BACK_DECK_ICONS["loot"]`, else `TYPE_ICONS["coin"]`, else the lozenge |
| Icons.BackIcon | deck_pdf_generator/render.py:183-216 | an empty slot never shows a picture; a card shows one exactly when its `icons/<type>.png` exists and draws, and the back glyph in the icon font otherwise |
| Icons.DeckBackWins | deck_pdf_generator/render.py:189-190 | a deck listed in the back map decides the back glyph |
| Icons.LootTypeBackIsDefault | deck_pdf_generator/render.py:192-193 | otherwise, a loot-default type shows the same glyph as an empty slot |
| Icons.PlainBackIsHeaderGlyph | deck_pdf_generator/render.py:194-195 | otherwise, the back shows `icon_for(card)` |
| Icons.GlyphsNonEmpty | deck_pdf_generator/render.py:38-198 | under a theme loaded by the loaders, no glyph drawn on either face is empty |
| TextWrap.NewlinesToSpaces | deck_pdf_generator/render.py:13 | `replace("\n", " ")` changes each newline into a space and keeps every other character in place |
| TextWrap.WrapText | deck_pdf_generator/render.py:12-35 | the loop over words, with its `cur` and `lines` state, yields exactly the greedy wrap `Wrap` |
| TextWrap.Wrap | deck_pdf_generator/render.py:12-35 | no returned line is empty, and there are no lines exactly when the text is whitespace only |
| TextWrap.WrapProperties | deck_pdf_generator/render.py:13-35 | the wrapped lines, split into words, are the text's words in order with none dropped, duplicated or reordered; each line is non-empty and single-spaced, and fits the width or is one word; each line was cut only where the next word did not fit |
| TextWrap.RunInv | deck_pdf_generator/render.py:19-30 | each step of the word loop keeps the wrapping invariant |
| TextWrap.TrialNeverEmpty | deck_pdf_generator/render.py:20-22 | the trial line is never empty and `strip()` does not change it, so the `continue` branch is never taken |
| TextWrap.WordsIgnoreNewlines | deck_pdf_generator/render.py:13 | turning newlines into spaces does not change the words |
| TextWrap.NewlineWrapsAsSpace | deck_pdf_generator/render.py:13 | a newline wraps exactly like a space, so no paragraph break survives |
| Faces.Trunc | deck_pdf_generator/render.py:161 | Python's `int()` on a number truncates toward zero |
| Faces.CostText | deck_pdf_generator/render.py:89-95 | the front cost label is drawn exactly when the cost is non-zero |
| Faces.BackCostText | deck_pdf_generator/render.py:223-228 | the back cost label is drawn exactly when a card is present and its cost is non-zero |
| Faces.CostTextsAgree | deck_pdf_generator/render.py:89-95 | both faces show a cost in the same cases; the front label is the coin glyph, a space and the back label; both read back as the card's cost |
| Faces.MetaPartsMembers | deck_pdf_generator/render.py:78-86 | a value is a meta part exactly when it is the non-empty school, type, slot or class |
| Faces.MetaEmptyIff | deck_pdf_generator/render.py:78-87 | the meta line is empty exactly when school, type, slot and class are all missing or empty |
| Faces.TextLimits | deck_pdf_generator/render.py:146-176 | title, subtitle, meta and footer are prefixes of their fields, of at most 40, 55, 80 and 95 characters, and are the whole field when it is short enough |
| Faces.FooterShape | deck_pdf_generator/render.py:170-176 | the footer starts with the id, and is the id alone exactly when there are no tags; otherwise the id is followed by `" \| "` and the tags |
| Faces.MaxLines | deck_pdf_generator/render.py:161 | at least one body line; otherwise as many whole line-heights as fit in the body height |
| Faces.BodyMarks | deck_pdf_generator/render.py:165-168 | one drawn line per body line |
| Faces.HeaderBand | deck_pdf_generator/render.py:60-63 | the header band is drawn in colour mode only |
| Faces.CostMarks | deck_pdf_generator/render.py:89-95 | one cost mark exactly when the cost is non-zero |
| Faces.LargeIconMarks | deck_pdf_generator/render.py:97-116 | one large-icon mark exactly when `front_icon` is non-empty |
| Faces.FrontHeader | deck_pdf_generator/render.py:57-144 | the upper part of a front starts with the outline, holds the band only in colour mode, and has three marks plus one each for the band, a non-zero cost and a large icon |
| Faces.FrontText | deck_pdf_generator/render.py:146-176 | the text of a front is four marks plus one per drawn body line, and ends with the footer |
| Faces.FrontMarks | deck_pdf_generator/render.py:57-176 | a front starts with its outline and ends with its footer, has a header band in colour mode only, and has seven marks plus one each for the band, a non-zero cost and a large icon, plus one per body line |
| Faces.BackMarks | deck_pdf_generator/render.py:179-232 | a back is the outline, then the icon, then the tint in colour mode only, the cost only for a card with non-zero cost, and the brand label last |
| Faces.BodyLinesProperties | deck_pdf_generator/render.py:157-168 | the drawn body lines are the first `max_lines` wrapped lines (every wrapped line when fewer); at least one is drawn when the effect has a word; each is non-empty and fits the inner width or is a single word |
| Faces.BodyRoomIgnoresPlacement | deck_pdf_generator/render.py:157-160 | the body height is the same wherever the card is placed |
| Faces.IconNeverAddsLines | deck_pdf_generator/render.py:131-161 | a large icon never gives the body more lines than the same card without one |
| Faces.DefaultBodyCapacity | deck_pdf_generator/render.py:101-161 | a default-size card holds 5 body lines under a large icon and 15 without one |
| Faces.BrokenBackIsGlyphBack | deck_pdf_generator/render.py:200-216 | a back picture that fails to draw gives the same glyph mark as a back with no picture |
| Faces.BackCostSizeValue | deck_pdf_generator/render.py:225 | the back cost is drawn at `int(18 * 1.8)` = 32 points |
| Marks.Canvas.constructor | deck_pdf_generator/render.py:237 | a new canvas has no pages, an empty current page, and is not saved |
| Marks.Canvas.Draw | deck_pdf_generator/render.py:281 | a drawing call appends one mark to the current page and changes nothing else |
| Marks.Canvas.ShowPage | deck_pdf_generator/render.py:287 | `showPage` closes the current page and starts an empty one |
| Marks.Canvas.Save | deck_pdf_generator/render.py:307 | `save` closes a non-empty current page and marks the document saved |
| Render.DrawHeaderIcon | deck_pdf_generator/render.py:118-129 | draws the small header icon: the type's picture, or the `icon_for` glyph at 12 pt |
| Render.DrawLargeIcon | deck_pdf_generator/render.py:98-116 | draws the large icon: the picture, or the glyph at 28 pt when the picture fails, or at up to 48 pt when there is none |
| Render.DrawLines | deck_pdf_generator/render.py:165-168 | draws line `k` one line-height below line `k - 1` |
| Render.DrawBody | deck_pdf_generator/render.py:157-168 | draws the first `max_lines` wrapped lines of the effect, starting one line-height below the body top |
| Render.DrawFrame | deck_pdf_generator/render.py:58-67 | draws the outline, the header band in colour mode only, and the cut marks |
| Render.DrawCost | deck_pdf_generator/render.py:89-95 | draws the cost label at top right exactly when the cost is non-zero |
| Render.DrawIcons | deck_pdf_generator/render.py:97-144 | draws the large icon only for a non-empty `front_icon`, then the header icon |
| Render.DrawTitles | deck_pdf_generator/render.py:78-155 | draws the title, subtitle and meta line, each cut to its limit |
| Render.DrawFooter | deck_pdf_generator/render.py:170-176 | draws the footer cut to 95 characters |
| Render.DrawFrontHeader | deck_pdf_generator/render.py:57-144 | draws the upper part of a front in source order |
| Render.DrawFrontText | deck_pdf_generator/render.py:146-176 | draws the text of a front in source order |
| Render.DrawCard | deck_pdf_generator/render.py:57-176 | `draw_card` draws exactly `FrontMarks` onto the current page |
| Render.DrawBackIcon | deck_pdf_generator/render.py:183-216 | draws the back picture, or the back glyph at `int(ICON_SIZE * 4)` points |
| Render.DrawBack | deck_pdf_generator/render.py:179-232 | `draw_back` draws exactly `BackMarks`: outline, icon, tint in colour mode, cost, brand label |
| Render.DrawFrontCell | deck_pdf_generator/render.py:275-281 | a grid position draws the front of card `page * cpp + pos` at `(pos % cols, pos // cols)` when that index is below `end_idx`, and nothing otherwise |
| Render.DrawFronts | deck_pdf_generator/render.py:274-281 | the front loop draws every position of the page in row-major order |
| Render.DrawBackCell | deck_pdf_generator/render.py:290-298 | a grid position draws the back of card `page * cpp + pos` in the same cell as its front, or an empty back past the last card |
| Render.DrawBacks | deck_pdf_generator/render.py:289-298 | the back loop draws every position of the page in row-major order |
| Render.DrawFrontPage | deck_pdf_generator/render.py:268-287 | a front page is the header, the fronts and the `"k. front"` caption, and is then closed |
| Render.DrawBackPage | deck_pdf_generator/render.py:289-305 | a back page is the backs and the `"k. back"` caption, and is then closed |
| Render.DocumentSnoc | deck_pdf_generator/render.py:267-305 | each pass of the page loop appends one front page and then one back page |
| Render.Document | deck_pdf_generator/render.py:267-305 | a document of `n` sheets has `2n` pages |
| Render.RenderPdf | deck_pdf_generator/render.py:235-307 | the margin advisory is reported exactly when a margin is short; a too-tall grid fails with the source's message and draws nothing; otherwise the saved document is `Document` over `max(1, ceil(n / cpp))` sheets |
| Render.DocumentPages | deck_pdf_generator/render.py:267-305 | page `2p` of the document is sheet `p`'s front page and page `2p + 1` its back page |
| Render.PageCaptions | deck_pdf_generator/render.py:268-303 | a front page starts with the brand header and ends with `"k. front"`; a back page ends with `"k. back"`, for `k = page + 1` |
| Render.CellOfCard | deck_pdf_generator/render.py:271-275 | position `pos` of page `page` holds card `i` exactly when `page = i / cpp` and `pos = i % cpp`, so each card has one place |
| Render.CardSheet | deck_pdf_generator/render.py:265-275 | every card's page lies below the page count |
| Render.CardFront | deck_pdf_generator/render.py:271-281 | card `i`'s front is drawn at its cell on page `i / cpp` |
| Render.CardBack | deck_pdf_generator/render.py:289-296 | card `i`'s back is drawn on page `i / cpp` in the same cell as its front, with the column not mirrored |
| Render.EmptyPositions | deck_pdf_generator/render.py:280-298 | a position past the last card gets no front and an empty back |
| Render.DefaultSheets | deck_pdf_generator/render.py:264-265 | with the default grid there are 9 cards per page, and `n` cards take one sheet when `n = 0` and `ceil(n / 9)` sheets otherwise |
| Parser.CleanPieces | deck_pdf_generator/parser.py:27 | the kept tag pieces are non-empty and stripped |
| Parser.SplitTagsValid | deck_pdf_generator/parser.py:27 | every tag is non-empty, stripped and free of commas |
| Parser.SplitTagsOfJoin | deck_pdf_generator/parser.py:27 | splitting the renderer's `", "`-joined tags gives back the same tags |
| Parser.VariantFrom | deck_pdf_generator/parser.py:81-91 | the variant loop stops at the first present child among monster, biome, npc, quest, curse and health, or finds none |
| Parser.CountOf | deck_pdf_generator/parser.py:93-99 | the count used is at least 1 |
| Parser.CountRule | deck_pdf_generator/parser.py:93-99 | a missing count is 1; a count that `int()` reads as `n` gives `n` copies when `n` is at least 1 and one copy otherwise; a count that does not parse is 1 |
| Parser.IdOf | deck_pdf_generator/parser.py:101-102 | the id is never empty; a non-empty stripped id attribute is used as it is, and otherwise the id is `<type>_<k>` with `k` one more than the cards emitted so far |
| Parser.RecordOf | deck_pdf_generator/parser.py:25-144 | each record has a non-empty id and a count of at least 1, no biome or back icon, and a tag list whose tags are non-empty |
| Parser.Repeat | deck_pdf_generator/parser.py:126 | `n` copies of one record |
| Parser.LootCostRule | deck_pdf_generator/parser.py:44-49 | a loot cost is 0 when missing or not an integer, and otherwise whatever value `int()` reads from the attribute |
| Parser.PlainCostRule | deck_pdf_generator/parser.py:70-74 | a plain card's cost is 0 when missing or not an integer, and otherwise whatever value `int()` reads from the attribute |
| Parser.LootSelection | deck_pdf_generator/parser.py:41-67 | with a `<loot>` child the deck is "loot", the type is `lootType` or "ability", school, slot and class are the child's, a non-zero cost is the child's parsed `cost`, and the front icon is the explicit one, else the school map's, else the loot-type default |
| Parser.VariantFirst | deck_pdf_generator/parser.py:81-83 | the loop finds exactly the first variant child present |
| Parser.PlainSelection | deck_pdf_generator/parser.py:68-91 | the cost, school, slot and class are the card's own; a deck is set exactly when the card has no front icon and a variant child, and it is one of the variants; with no deck, the front icon and the stripped type are the card's own |
| Parser.PlainNoVariant | deck_pdf_generator/parser.py:68-91 | with no front icon and no variant child, the deck stays `None` |
| Parser.PlainBranch | deck_pdf_generator/parser.py:80-91 | the first variant child sets the deck, and the front icon from its attribute or else `FRONT_DECK_ICONS`; it sets the type only when the card has no type attribute |
| Parser.StatsOf | deck_pdf_generator/parser.py:104-124 | hp, atk and lootBudget come from the first `<monster>` child, each `None` when missing or unparsed, with `lootbudget` used only when `lootBudget` is missing or empty; all are `None` without a monster |
| Parser.ReadLoot | deck_pdf_generator/parser.py:41-67 | the loot branch's assignments compute `LootSelection` |
| Parser.ReadPlain | deck_pdf_generator/parser.py:68-91 | the plain branch's assignments and its for/break compute `PlainSelection` |
| Parser.ReadCard | deck_pdf_generator/parser.py:25-124 | one loop body builds `RecordOf` and `CountOf` for a node |
| Parser.ParseCards | deck_pdf_generator/parser.py:22-146 | the node loop and the copy loop build exactly `Parse` over the `<card>` children |
| Parser.AppendCopies | deck_pdf_generator/parser.py:126-144 | the copy loop appends exactly `count` copies of the record after the cards already built |
| Parser.Parse | deck_pdf_generator/parser.py:22-146 | the number of cards is the sum of every node's clamped count |
| Parser.ParseStep | deck_pdf_generator/parser.py:101-126 | each node appends its copies after the earlier ones, and its generated id counts the cards already emitted |
| Parser.DefaultIds | deck_pdf_generator/parser.py:101-144 | every copy from a node without an id attribute gets the id `<type>_<k>`, with `k` one more than the number of cards the earlier nodes produced |
| Parser.NodeBlock | deck_pdf_generator/parser.py:126-144 | all copies from one node are equal records, including their id and stored count, and they sit together |
| Parser.ExpandMembers | deck_pdf_generator/parser.py:126-144 | every card comes from some node |
| Parser.ParsedCardsWellFormed | deck_pdf_generator/parser.py:101-144 | every parsed card has a non-empty id, a count of at least 1, and no biome or back icon |

## Left out

- XML reading is not modelled: `ET.parse`, the optional lxml import and `xinclude` (parser.py:8-20, config.py:45 and 63). The input is an abstract `Element` tree. A config file that fails to parse is `None`, and any failure yields empty maps.
- deck_pdf_generator/fonts.py is not part of this model. Font registration becomes `Assets.iconFontRegistered`, and `ensure_fonts()` at render.py:238 is left out.
- render_cards.py is not part of this model: argument parsing, file discovery, schema validation, logging and statistics.
- `os.makedirs` (render.py:236) and output to a file are left out. The document is the canvas's page list.
- reportlab is not modelled:
  - line widths and fill-colour changes;
  - the eight segments of each cut mark, drawn as one `CutMarks` mark;
  - font objects, replaced by `Regular`, `Bold` and `Symbol`.
  `stringWidth` is the parameter `measure`, and `HexColor` is the parameter `hexColor`.
- `os.path.exists` is membership in `Assets.images`. An exception from `drawImage` is membership in `Assets.broken`. Other exceptions a drawing call could raise are left out.
- Floating point is not modelled. Millimetre arithmetic uses exact reals, and `int()` of a float is `Faces.Trunc` on reals.
- Python `int()` on strings is `Decimal.ParseInt`: surrounding whitespace, an optional sign, then ASCII digits. Underscores and non-ASCII digits are left out.
- Printed warnings are left out. The margin warning at render.py:250-257 becomes the `advisory` result of `Render.RenderPdf`.
- `Render.RenderPdf`: the division by zero that an empty grid would cause at render.py:265 is reported as `Fail(DivisionByZero)` rather than as a Python exception.
- `Cards.Card`: `hp`, `atk` and `lootBudget` are typed `int` in types.py but default to `None`. They are modelled as `Option<int>`.
