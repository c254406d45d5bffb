/**
 * The grid geometry and the pagination arithmetic of `render_pdf`
 * (deck_pdf_generator/render.py): a `cols` x `rows` grid centred
 * horizontally, its top edge `marginY` below the page top.
 */
module Grid {
  import opened Config

  function GridW(L: Layout): real {
    L.cols as real * L.cardW + (L.cols as real - 1.0) * L.gapX
  }

  function GridH(L: Layout): real {
    L.rows as real * L.cardH + (L.rows as real - 1.0) * L.gapY
  }

  /** The left edge of the grid: the grid is centred on the page. */
  function StartX(L: Layout): real {
    (L.pageW - GridW(L)) / 2.0
  }

  /** The bottom edge of the grid. */
  function StartY(L: Layout): real {
    L.pageH - L.marginY - GridH(L)
  }

  function ActualLeft(L: Layout): real {
    StartX(L)
  }

  /** The margin right of the grid equals the one left of it. */
  function ActualRight(L: Layout): (r: real)
    ensures r == ActualLeft(L)
    ensures r + GridW(L) + ActualLeft(L) == L.pageW
  {
    L.pageW - (StartX(L) + GridW(L))
  }

  /** The condition for the (non-fatal) margin warning. */
  predicate MarginAdvisory(L: Layout) {
    ActualLeft(L) < L.marginLeft || ActualRight(L) < L.marginRight
  }

  /** The grid fits vertically; otherwise `render_pdf` raises before drawing any page. */
  predicate FitsVertically(L: Layout) {
    StartY(L) >= 0.0
  }

  /** The left edge of column `col` (0 = leftmost). */
  function CellX(L: Layout, col: int): real {
    StartX(L) + col as real * (L.cardW + L.gapX)
  }

  /** The bottom edge of row `r` (0 = topmost). */
  function CellY(L: Layout, r: int): real {
    StartY(L) + (L.rows as int - 1 - r) as real * (L.cardH + L.gapY)
  }

  function CardsPerPage(L: Layout): nat {
    L.cols * L.rows
  }

  /** `max(1, ceil(n / cpp))`. */
  function TotalPages(n: nat, cpp: nat): (p: nat)
    requires cpp >= 1
    ensures p >= 1
    ensures n == 0 ==> p == 1
    ensures n > 0 ==> (p - 1) * cpp < n <= p * cpp
  {
    if n == 0 then 1
    else
      var q := (n + cpp - 1) / cpp;
      var rem := (n + cpp - 1) % cpp;
      assert q * cpp + rem == n + cpp - 1;
      assert (q - 1) * cpp == q * cpp - cpp;
      q
  }

  // ---------------------------------------------------------------- properties

  /** Every column lies inside the grid's horizontal extent. */
  lemma ColumnInsideGrid(L: Layout, col: int)
    requires 0 <= col < L.cols
    requires L.cardW + L.gapX >= 0.0
    ensures StartX(L) <= CellX(L, col) && CellX(L, col) + L.cardW <= StartX(L) + GridW(L)
  {
    var sx := L.cardW + L.gapX;
    assert col as real * sx >= 0.0;
    assert (L.cols - 1 - col) as real * sx >= 0.0;
    assert GridW(L) == (L.cols - 1) as real * sx + L.cardW;
    assert (L.cols - 1) as real * sx == col as real * sx + (L.cols - 1 - col) as real * sx;
  }

  /** Every row lies inside the grid's vertical extent. */
  lemma RowInsideGrid(L: Layout, r: int)
    requires 0 <= r < L.rows
    requires L.cardH + L.gapY >= 0.0
    ensures StartY(L) <= CellY(L, r) && CellY(L, r) + L.cardH <= StartY(L) + GridH(L)
  {
    var sy := L.cardH + L.gapY;
    assert (L.rows - 1 - r) as real * sy >= 0.0;
    assert r as real * sy >= 0.0;
    assert GridH(L) == (L.rows - 1) as real * sy + L.cardH;
    assert (L.rows - 1) as real * sy == (L.rows - 1 - r) as real * sy + r as real * sy;
  }

  /** Neighbouring columns and rows are one card plus one gap apart. */
  lemma CellSpacing(L: Layout, col: int, r: int)
    ensures CellX(L, col + 1) - CellX(L, col) == L.cardW + L.gapX
    ensures CellY(L, r) - CellY(L, r + 1) == L.cardH + L.gapY
  {
    assert (col + 1) as real * (L.cardW + L.gapX) == col as real * (L.cardW + L.gapX) + (L.cardW + L.gapX);
    assert (L.rows as int - 1 - r) as real * (L.cardH + L.gapY)
      == (L.rows as int - 1 - (r + 1)) as real * (L.cardH + L.gapY) + (L.cardH + L.gapY);
  }

  /** The top row touches the line `marginY` below the page top; the bottom row sits on `StartY`. */
  lemma GridAnchoredAtTop(L: Layout)
    requires L.rows >= 1
    ensures CellY(L, 0) + L.cardH == L.pageH - L.marginY
    ensures CellY(L, L.rows - 1) == StartY(L)
  {
    var sy := L.cardH + L.gapY;
    assert (L.rows - 1) as real * sy == (L.rows - 1) as real * L.cardH + (L.rows - 1) as real * L.gapY;
    assert L.rows as real * L.cardH == (L.rows - 1) as real * L.cardH + L.cardH;
  }

  /** When the vertical check passes, every row lies between the page bottom and the top margin. */
  lemma RowsOnPage(L: Layout, r: int)
    requires FitsVertically(L)
    requires 0 <= r < L.rows
    requires L.cardH + L.gapY >= 0.0
    ensures 0.0 <= CellY(L, r) && CellY(L, r) + L.cardH <= L.pageH - L.marginY
  {
    RowInsideGrid(L, r);
  }

  /**
   * Duplex: turning the sheet over its vertical centre line takes a back
   * drawn at `x` to `pageW - x - cardW`. Backs are drawn in the SAME column as
   * their fronts, so a back lands behind its own front only in the middle
   * column of an odd number of columns.
   */
  lemma BackBehindFrontOnlyInMiddleColumn(L: Layout, col: int)
    requires L.cardW + L.gapX > 0.0
    ensures L.pageW - CellX(L, col) - L.cardW == CellX(L, col) <==> 2 * col + 1 == L.cols
  {
    var s := L.cardW + L.gapX;
    var lhs := L.pageW - CellX(L, col) - L.cardW - CellX(L, col);
    assert GridW(L) == (L.cols - 1) as real * s + L.cardW;
    assert lhs == GridW(L) - 2.0 * col as real * s - L.cardW;
    assert lhs == (L.cols - 1 - 2 * col) as real * s;
    if lhs == 0.0 {
      assert (L.cols - 1 - 2 * col) as real == 0.0;
    }
  }

  /** The shipped constants: 8 mm side margins (below the 10 mm asked for, so the warning fires) and an 18 mm bottom margin. */
  lemma DefaultGeometry()
    ensures GridW(DefaultLayout) == 194.0 * MM && GridH(DefaultLayout) == 269.0 * MM
    ensures ActualLeft(DefaultLayout) == 8.0 * MM && ActualRight(DefaultLayout) == 8.0 * MM
    ensures MarginAdvisory(DefaultLayout)
    ensures StartY(DefaultLayout) == 18.0 * MM && FitsVertically(DefaultLayout)
    ensures CardsPerPage(DefaultLayout) == 9
  {
  }

  /** Every card index lands on an existing page. */
  lemma PageOfCard(i: nat, n: nat, cpp: nat)
    requires cpp >= 1 && i < n
    ensures i / cpp < TotalPages(n, cpp)
    ensures (i / cpp) * cpp + i % cpp == i && i % cpp < cpp
  {
    var p := TotalPages(n, cpp);
    var q := i / cpp;
    assert q * cpp <= i;
    assert q >= p ==> q * cpp >= p * cpp;
  }
}
