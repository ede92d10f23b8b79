/** The table renderer `_draw_table` (main.py:119-194) as the sequence of
    drawing commands it issues on a canvas of a computed size: the title, the
    header band and labels, one band per row (shaded on even rows) with the
    number, icon and name, and the metric cells, and the source caption. The
    win-rate colour rule (main.py:178-186) picks each metric cell's colour. */
module Layout {
  import opened Common

  datatype Colour = RGB(r: int, g: int, b: int)

  const BG_COLOR: Colour := RGB(30, 33, 36)
  const HEADER_BG: Colour := RGB(40, 43, 48)
  const TEXT_COLOR: Colour := RGB(255, 255, 255)
  const ACCENT_COLOR: Colour := RGB(236, 121, 5)
  const ROW_ALT_COLOR: Colour := RGB(35, 38, 41)
  const HEADER_TEXT_COLOR: Colour := RGB(200, 200, 200)
  const GOOD_COLOR: Colour := RGB(100, 255, 100)
  const BAD_COLOR: Colour := RGB(255, 100, 100)
  const CAPTION_COLOR: Colour := RGB(100, 100, 100)

  /** The four fonts, of sizes 32, 22, 20 and 18. */
  datatype Font = TitleFont | TextFont | NameFont | SmallFont

  datatype DrawCmd =
    | Text(x: int, y: int, text: string, font: Font, colour: Colour)
    | Band(x0: int, y0: int, x1: int, y1: int, fill: Colour)
    | PasteIcon(heroId: string, x: int, y: int)

  datatype Picture = Picture(width: int, height: int, background: Colour, cmds: seq<DrawCmd>)

  const ROW_HEIGHT: int := 50
  const HEADER_HEIGHT: int := 60
  const TITLE_HEIGHT: int := 70
  const PADDING: int := 20
  const NAME_OFFSET: int := 50
  const CAPTION: string := "Data: blizzard.cn"

  // ---------------------------------------------------------------------
  // Geometry
  // ---------------------------------------------------------------------

  function CanvasWidth(widths: seq<int>): int
  {
    Sum(widths) + PADDING * 2
  }

  function CanvasHeight(rowCount: nat): int
  {
    TITLE_HEIGHT + HEADER_HEIGHT + rowCount * ROW_HEIGHT + PADDING
  }

  /** Where column `k` starts: the padding plus the widths before it. */
  function ColumnX(widths: seq<int>, k: nat): int
    requires k <= |widths|
  {
    PADDING + Sum(widths[..k])
  }

  /** Where row `i`'s band starts. */
  function RowY(i: nat): int
  {
    TITLE_HEIGHT + HEADER_HEIGHT + i * ROW_HEIGHT
  }

  lemma ColumnStep(widths: seq<int>, k: nat)
    requires k < |widths|
    ensures ColumnX(widths, k + 1) == ColumnX(widths, k) + widths[k]
  {
    assert widths[..k + 1][..k] == widths[..k];
  }

  /** With non-negative widths the columns start left to right, the first at
      the padding and the end of the last one padding away from the right edge. */
  lemma ColumnsInsideCanvas(widths: seq<int>, j: nat, k: nat)
    requires forall i :: 0 <= i < |widths| ==> widths[i] >= 0
    requires j <= k <= |widths|
    ensures ColumnX(widths, 0) == PADDING
    ensures PADDING <= ColumnX(widths, j) <= ColumnX(widths, k) <= CanvasWidth(widths) - PADDING
    ensures ColumnX(widths, |widths|) == CanvasWidth(widths) - PADDING
  {
    assert widths[..0] == [] && widths[..|widths|] == widths;
    SumPrefixMonotone(widths, 0, j);
    SumPrefixMonotone(widths, j, k);
    SumPrefixMonotone(widths, k, |widths|);
  }

  /** Rows are stacked one row height apart below the header band, and the
      last one ends a padding above the bottom edge. */
  lemma RowsStacked(i: nat, rowCount: nat)
    requires i < rowCount
    ensures RowY(0) == TITLE_HEIGHT + HEADER_HEIGHT
    ensures RowY(i + 1) == RowY(i) + ROW_HEIGHT
    ensures RowY(i) + ROW_HEIGHT <= CanvasHeight(rowCount) - PADDING
    ensures RowY(rowCount - 1) + ROW_HEIGHT == CanvasHeight(rowCount) - PADDING
  { }

  // ---------------------------------------------------------------------
  // Win-rate colour (main.py:178-186)
  // ---------------------------------------------------------------------

  /** The colour of metric cell `j`: only the first metric, when it carries a
      "%", is coloured, by its parsed value; an unparsable value keeps the
      default colour. */
  function CellColour(j: int, val: string, parse: string -> Option<real>): Colour
  {
    if j == 0 && Contains(val, "%") then
      match parse(Without(val, '%'))
      case Some(num) => if num > 52.0 then GOOD_COLOR else if num < 48.0 then BAD_COLOR else TEXT_COLOR
      case None => TEXT_COLOR
    else TEXT_COLOR
  }

  /** A cell is green exactly when it is the first metric, has a "%", and its
      value without the "%" parses above 52; red exactly likewise below 48;
      every other cell keeps the default colour. */
  lemma ColourRule(j: int, val: string, parse: string -> Option<real>)
    ensures CellColour(j, val, parse) == GOOD_COLOR <==>
      j == 0 && '%' in val && parse(Without(val, '%')).Some? && parse(Without(val, '%')).value > 52.0
    ensures CellColour(j, val, parse) == BAD_COLOR <==>
      j == 0 && '%' in val && parse(Without(val, '%')).Some? && parse(Without(val, '%')).value < 48.0
    ensures j != 0 || '%' !in val || parse(Without(val, '%')).None? ==> CellColour(j, val, parse) == TEXT_COLOR
    ensures CellColour(j, val, parse) == TEXT_COLOR <==>
      !(j == 0 && '%' in val && parse(Without(val, '%')).Some? && parse(Without(val, '%')).value > 52.0) &&
      !(j == 0 && '%' in val && parse(Without(val, '%')).Some? && parse(Without(val, '%')).value < 48.0)
    ensures CellColour(j, val, parse) in {GOOD_COLOR, BAD_COLOR, TEXT_COLOR}
  {
    ContainsCharIffIn(val, '%');
  }

  /** A win rate of 53.2% is shown green. */
  lemma HighWinRateGreen(parse: string -> Option<real>)
    requires parse("53.2") == Some(53.2)
    ensures CellColour(0, "53.2%", parse) == GOOD_COLOR
  {
    ContainsCharIffIn("53.2%", '%');
    assert Without("53.2%", '%') == "53.2";
  }

  /** A win rate of 47.9% is shown red. */
  lemma LowWinRateRed(parse: string -> Option<real>)
    requires parse("47.9") == Some(47.9)
    ensures CellColour(0, "47.9%", parse) == BAD_COLOR
  {
    ContainsCharIffIn("47.9%", '%');
    assert Without("47.9%", '%') == "47.9";
  }

  /** A win rate of 50.0% keeps the default colour. */
  lemma EvenWinRateDefault(parse: string -> Option<real>)
    requires parse("50.0") == Some(50.0)
    ensures CellColour(0, "50.0%", parse) == TEXT_COLOR
  {
    ContainsCharIffIn("50.0%", '%');
    assert Without("50.0%", '%') == "50.0";
  }

  // ---------------------------------------------------------------------
  // Commands
  // ---------------------------------------------------------------------

  /** The renderer indexes `col_widths` by header and by cell, and reads the
      first, second and last cell of every row. */
  predicate Drawable(headers: seq<string>, rows: seq<seq<string>>, widths: seq<int>)
  {
    |headers| <= |widths| && AllRowsFit(rows, widths)
  }

  predicate AllRowsFit(rows: seq<seq<string>>, widths: seq<int>)
  {
    forall i :: 0 <= i < |rows| ==> RowFits(rows[i], widths)
  }

  predicate RowFits(row: seq<string>, widths: seq<int>)
  {
    2 <= |row| && 2 <= |widths| && |row| - 1 <= |widths|
  }

  /** The header labels, one per column. */
  function HeaderCmds(headers: seq<string>, widths: seq<int>): seq<DrawCmd>
    requires |headers| <= |widths|
  {
    if headers == [] then []
    else
      var k := |headers| - 1;
      HeaderCmds(headers[..k], widths) + [Text(ColumnX(widths, k), TITLE_HEIGHT + 15, headers[k], TextFont, HEADER_TEXT_COLOR)]
  }

  /** The first `n` metric cells of a row (cells 2 to the one before the id). */
  function MetricCmds(row: seq<string>, widths: seq<int>, y: int, parse: string -> Option<real>, n: nat): seq<DrawCmd>
    requires n + 2 <= |widths| && n + 2 <= |row|
  {
    if n == 0 then []
    else
      MetricCmds(row, widths, y, parse, n - 1)
      + [Text(ColumnX(widths, n + 1), y + 12, row[n + 1], TextFont, CellColour(n - 1, row[n + 1], parse))]
  }

  function MetricCount(row: seq<string>): nat
  {
    if |row| >= 3 then |row| - 3 else 0
  }

  /** The icon and name of a row: shifted right past the icon when the row
      names a hero id, at the column start otherwise. */
  function NameCmds(row: seq<string>, widths: seq<int>, y: int): seq<DrawCmd>
    requires RowFits(row, widths)
  {
    var id := row[|row| - 1];
    var x := ColumnX(widths, 1);
    if id != "" then [PasteIcon(id, x, y + 5), Text(x + NAME_OFFSET, y + 12, row[1], NameFont, TEXT_COLOR)]
    else [Text(x, y + 12, row[1], NameFont, TEXT_COLOR)]
  }

  /** Row `i`: the band on even rows, the number, the icon and name, and the metrics. */
  function RowCmds(i: nat, row: seq<string>, widths: seq<int>, parse: string -> Option<real>): seq<DrawCmd>
    requires RowFits(row, widths)
  {
    var y := RowY(i);
    (if i % 2 == 0 then [Band(0, y, CanvasWidth(widths), y + ROW_HEIGHT, ROW_ALT_COLOR)] else [])
    + [Text(PADDING, y + 12, row[0], TextFont, TEXT_COLOR)]
    + NameCmds(row, widths, y)
    + MetricCmds(row, widths, y, parse, MetricCount(row))
  }

  function RowsCmds(rows: seq<seq<string>>, widths: seq<int>, parse: string -> Option<real>): seq<DrawCmd>
    requires AllRowsFit(rows, widths)
  {
    if rows == [] then []
    else
      var n := |rows| - 1;
      RowsCmds(rows[..n], widths, parse) + RowCmds(n, rows[n], widths, parse)
  }

  function TitleCmds(title: string, widths: seq<int>): seq<DrawCmd>
  {
    [Text(PADDING, 15, title, TitleFont, ACCENT_COLOR),
     Band(0, TITLE_HEIGHT, CanvasWidth(widths), TITLE_HEIGHT + HEADER_HEIGHT, HEADER_BG)]
  }

  function CaptionCmd(widths: seq<int>, rowCount: nat): DrawCmd
  {
    Text(CanvasWidth(widths) - 200, CanvasHeight(rowCount) - 25, CAPTION, SmallFont, CAPTION_COLOR)
  }

  /** Everything the renderer draws, in drawing order. */
  function TableCmds(title: string, headers: seq<string>, rows: seq<seq<string>>, widths: seq<int>,
                     parse: string -> Option<real>): seq<DrawCmd>
    requires Drawable(headers, rows, widths)
  {
    TitleCmds(title, widths) + HeaderCmds(headers, widths) + RowsCmds(rows, widths, parse)
    + [CaptionCmd(widths, |rows|)]
  }

  // ---------------------------------------------------------------------
  // The renderer
  // ---------------------------------------------------------------------

  /** The metric loop of one row, advancing the column start by each width. */
  method DrawMetrics(row: seq<string>, widths: seq<int>, y: int, parse: string -> Option<real>)
    returns (cmds: seq<DrawCmd>)
    requires RowFits(row, widths)
    ensures cmds == MetricCmds(row, widths, y, parse, MetricCount(row))
  {
    cmds := [];
    var x := ColumnX(widths, 2);
    var metrics := MetricCount(row);
    var j := 0;
    while j < metrics
      invariant 0 <= j <= metrics
      invariant x == ColumnX(widths, j + 2)
      invariant cmds == MetricCmds(row, widths, y, parse, j)
    {
      var val := row[j + 2];
      cmds := cmds + [Text(x, y + 12, val, TextFont, CellColour(j, val, parse))];
      ColumnStep(widths, j + 2);
      x := x + widths[j + 2];
      j := j + 1;
    }
  }

  /** One row's commands. */
  method DrawRow(i: nat, row: seq<string>, widths: seq<int>, y: int, parse: string -> Option<real>)
    returns (cmds: seq<DrawCmd>)
    requires RowFits(row, widths) && y == RowY(i)
    ensures cmds == RowCmds(i, row, widths, parse)
  {
    var totalWidth := Sum(widths) + PADDING * 2;
    cmds := [];
    if i % 2 == 0 {
      cmds := cmds + [Band(0, y, totalWidth, y + ROW_HEIGHT, ROW_ALT_COLOR)];
    }
    var x := PADDING;
    cmds := cmds + [Text(x, y + 12, row[0], TextFont, TEXT_COLOR)];
    assert widths[..0] == [];
    ColumnStep(widths, 0);
    x := x + widths[0];
    var heroId := row[|row| - 1];
    if heroId != "" {
      cmds := cmds + [PasteIcon(heroId, x, y + 5), Text(x + NAME_OFFSET, y + 12, row[1], NameFont, TEXT_COLOR)];
    } else {
      cmds := cmds + [Text(x, y + 12, row[1], NameFont, TEXT_COLOR)];
    }
    var metrics := DrawMetrics(row, widths, y, parse);
    cmds := cmds + metrics;
  }

  /** The header loop, advancing the column start by each width. */
  method DrawHeaders(headers: seq<string>, widths: seq<int>) returns (cmds: seq<DrawCmd>)
    requires |headers| <= |widths|
    ensures cmds == HeaderCmds(headers, widths)
  {
    cmds := [];
    var x := PADDING;
    assert widths[..0] == [];
    var k := 0;
    while k < |headers|
      invariant 0 <= k <= |headers|
      invariant x == ColumnX(widths, k)
      invariant cmds == HeaderCmds(headers[..k], widths)
    {
      assert headers[..k + 1][..k] == headers[..k];
      cmds := cmds + [Text(x, TITLE_HEIGHT + 15, headers[k], TextFont, HEADER_TEXT_COLOR)];
      ColumnStep(widths, k);
      x := x + widths[k];
      k := k + 1;
    }
    assert headers[..k] == headers;
  }

  lemma RowsCmdsStep(rows: seq<seq<string>>, widths: seq<int>, parse: string -> Option<real>, i: nat)
    requires i < |rows|
    requires AllRowsFit(rows, widths)
    ensures AllRowsFit(rows[..i], widths) && AllRowsFit(rows[..i + 1], widths)
    ensures RowsCmds(rows[..i + 1], widths, parse) == RowsCmds(rows[..i], widths, parse) + RowCmds(i, rows[i], widths, parse)
  {
    assert rows[..i + 1][..i] == rows[..i];
  }

  /** The row loop, moving down one row height per row. */
  method DrawRows(rows: seq<seq<string>>, widths: seq<int>, parse: string -> Option<real>)
    returns (cmds: seq<DrawCmd>)
    requires AllRowsFit(rows, widths)
    ensures cmds == RowsCmds(rows, widths, parse)
  {
    cmds := [];
    var y := TITLE_HEIGHT + HEADER_HEIGHT;
    var i := 0;
    while i < |rows|
      invariant 0 <= i <= |rows|
      invariant y == RowY(i)
      invariant AllRowsFit(rows[..i], widths)
      invariant cmds == RowsCmds(rows[..i], widths, parse)
    {
      var rowCmds := DrawRow(i, rows[i], widths, y, parse);
      RowsCmdsStep(rows, widths, parse, i);
      cmds := cmds + rowCmds;
      y := y + ROW_HEIGHT;
      i := i + 1;
    }
    assert rows[..i] == rows;
  }

  /** `_draw_table`: a canvas `sum(col_widths) + 40` wide and
      `150 + 50 * len(rows)` high, and its commands. */
  method DrawTable(title: string, headers: seq<string>, rows: seq<seq<string>>, widths: seq<int>,
                   parse: string -> Option<real>) returns (pic: Picture)
    requires Drawable(headers, rows, widths)
    ensures pic.width == Sum(widths) + 40 && pic.height == 150 + 50 * |rows|
    ensures pic == Picture(CanvasWidth(widths), CanvasHeight(|rows|), BG_COLOR, TableCmds(title, headers, rows, widths, parse))
  {
    var totalWidth := Sum(widths) + PADDING * 2;
    var totalHeight := TITLE_HEIGHT + HEADER_HEIGHT + |rows| * ROW_HEIGHT + PADDING;
    var cmds := [Text(PADDING, 15, title, TitleFont, ACCENT_COLOR),
                 Band(0, TITLE_HEIGHT, totalWidth, TITLE_HEIGHT + HEADER_HEIGHT, HEADER_BG)];
    var headerCmds := DrawHeaders(headers, widths);
    var rowCmds := DrawRows(rows, widths, parse);
    cmds := cmds + headerCmds + rowCmds;
    cmds := cmds + [Text(totalWidth - 200, totalHeight - 25, CAPTION, SmallFont, CAPTION_COLOR)];
    pic := Picture(totalWidth, totalHeight, BG_COLOR, cmds);
  }

  // ---------------------------------------------------------------------
  // Properties of the drawing
  // ---------------------------------------------------------------------

  lemma {:induction false} MetricCmdsAreText(row: seq<string>, widths: seq<int>, y: int, parse: string -> Option<real>, n: nat)
    requires n + 2 <= |widths| && n + 2 <= |row|
    ensures forall c :: c in MetricCmds(row, widths, y, parse, n) ==> c.Text? && c.font == TextFont && c.y == y + 12
  {
    if n > 0 {
      MetricCmdsAreText(row, widths, y, parse, n - 1);
    }
  }

  /** A row is shaded exactly when its index is even. */
  lemma RowShadedIffEven(i: nat, row: seq<string>, widths: seq<int>, parse: string -> Option<real>)
    requires RowFits(row, widths)
    ensures (exists c :: c in RowCmds(i, row, widths, parse) && c.Band?) <==> i % 2 == 0
  {
    var y := RowY(i);
    MetricCmdsAreText(row, widths, y, parse, MetricCount(row));
    var cmds := RowCmds(i, row, widths, parse);
    if i % 2 == 0 {
      assert cmds[0].Band?;
    }
  }

  /** The icon is pasted exactly when the row's last cell names a hero id,
      and the name is then drawn past it; otherwise at the column start. */
  lemma NameShiftedIffIcon(i: nat, row: seq<string>, widths: seq<int>, parse: string -> Option<real>)
    requires RowFits(row, widths)
    ensures var id := row[|row| - 1];
      PasteIcon(id, ColumnX(widths, 1), RowY(i) + 5) in RowCmds(i, row, widths, parse) <==> id != ""
    ensures var id := row[|row| - 1];
      forall c :: c in RowCmds(i, row, widths, parse) && c.Text? && c.font == NameFont ==>
        c.text == row[1] && c.x == ColumnX(widths, 1) + (if id != "" then NAME_OFFSET else 0)
  {
    MetricCmdsAreText(row, widths, RowY(i), parse, MetricCount(row));
  }

  /** How many bands the rows draw: one per even row. */
  function BandCount(cmds: seq<DrawCmd>): nat
  {
    if cmds == [] then 0 else BandCount(cmds[..|cmds| - 1]) + (if cmds[|cmds| - 1].Band? then 1 else 0)
  }

  lemma {:induction false} BandCountAppend(a: seq<DrawCmd>, b: seq<DrawCmd>)
    ensures BandCount(a + b) == BandCount(a) + BandCount(b)
    decreases |b|
  {
    if b == [] {
      assert a + b == a;
    } else {
      BandCountAppend(a, b[..|b| - 1]);
      assert (a + b)[..|a + b| - 1] == a + b[..|b| - 1];
      assert (a + b)[|a + b| - 1] == b[|b| - 1];
    }
  }

  lemma {:induction false} NoBandsIn(cmds: seq<DrawCmd>)
    requires forall c :: c in cmds ==> !c.Band?
    ensures BandCount(cmds) == 0
  {
    if cmds != [] {
      NoBandsIn(cmds[..|cmds| - 1]);
    }
  }

  lemma RowBandCount(i: nat, row: seq<string>, widths: seq<int>, parse: string -> Option<real>)
    requires RowFits(row, widths)
    ensures BandCount(RowCmds(i, row, widths, parse)) == (if i % 2 == 0 then 1 else 0)
  {
    var y := RowY(i);
    MetricCmdsAreText(row, widths, y, parse, MetricCount(row));
    var shade := if i % 2 == 0 then [Band(0, y, CanvasWidth(widths), y + ROW_HEIGHT, ROW_ALT_COLOR)] else [];
    var rest := [Text(PADDING, y + 12, row[0], TextFont, TEXT_COLOR)] + NameCmds(row, widths, y)
      + MetricCmds(row, widths, y, parse, MetricCount(row));
    assert RowCmds(i, row, widths, parse) == shade + rest;
    NoBandsIn(rest);
    BandCountAppend(shade, rest);
    assert BandCount(shade) == (if i % 2 == 0 then 1 else 0) by {
      if i % 2 == 0 {
        assert shade[..0] == [];
      }
    }
  }

  lemma HalfStep(n: nat)
    ensures (n + 1) / 2 + (if n % 2 == 0 then 1 else 0) == (n + 2) / 2
  { }

  /** Of `n` rows, `(n + 1) / 2` are shaded. */
  lemma {:induction false} ShadedRowCount(rows: seq<seq<string>>, widths: seq<int>, parse: string -> Option<real>)
    requires AllRowsFit(rows, widths)
    ensures BandCount(RowsCmds(rows, widths, parse)) == (|rows| + 1) / 2
  {
    if rows != [] {
      var n := |rows| - 1;
      ShadedRowCount(rows[..n], widths, parse);
      var before, last := RowsCmds(rows[..n], widths, parse), RowCmds(n, rows[n], widths, parse);
      assert RowsCmds(rows, widths, parse) == before + last;
      RowBandCount(n, rows[n], widths, parse);
      BandCountAppend(before, last);
      HalfStep(n);
    }
  }
}
