/**
 * The part of a reportlab canvas the renderer relies on: marks placed on the
 * current page, `showPage` closing it, and `save`. Line widths and the fill
 * colour reset to black after each band are not recorded; every text is black.
 */
module Marks {
  /** The three faces text is set in: `FONT_REG`, `FONT_BOLD` and the icon font `ICON_FONT`. */
  datatype Font = Regular | Bold | Symbol

  /** `drawString`, `drawCentredString` and `drawRightString`. */
  datatype Align = Left | Centre | Right

  /** The two fill colours of the colour mode: the front header band and the back tint. */
  datatype Colour = WhiteSmoke | LightBlue

  /** One thing drawn on a page, at PDF coordinates (points, origin bottom left). */
  datatype Mark =
    | Frame(x: real, y: real, w: real, h: real)
    | Band(colour: Colour, x: real, y: real, w: real, h: real)
    | CutMarks(x: real, y: real, w: real, h: real, size: real)
    | Text(align: Align, x: real, y: real, font: Font, size: real, text: string)
    | Picture(key: string, x: real, y: real, w: real, h: real)

  /** A canvas: the finished pages, the marks of the page being drawn, and whether the file was written. */
  class Canvas {
    var pages: seq<seq<Mark>>
    var current: seq<Mark>
    var saved: bool

    constructor ()
      ensures pages == [] && current == [] && !saved
    {
      pages, current, saved := [], [], false;
    }

    /** Place one mark on the current page. */
    method Draw(m: Mark)
      modifies this
      ensures current == old(current) + [m]
      ensures pages == old(pages) && saved == old(saved)
    {
      current := current + [m];
    }

    /** `showPage`: the current page is finished and a fresh one begins. */
    method ShowPage()
      modifies this
      ensures pages == old(pages) + [old(current)]
      ensures current == [] && saved == old(saved)
    {
      pages := pages + [current];
      current := [];
    }

    /** `save`: a page still holding marks is finished first, then the document is written. */
    method Save()
      modifies this
      ensures pages == old(pages) + (if old(current) != [] then [old(current)] else [])
      ensures current == [] && saved
    {
      if current != [] {
        pages := pages + [current];
      }
      current := [];
      saved := true;
    }
  }
}
