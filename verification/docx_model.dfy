/** python-docx objects, as abstract records.

    The input side is what `Document(path)` exposes: body paragraphs with their runs, the package
    relationships, and tables of rows of cells of paragraphs. The output side is the document that
    `Document()` creates and the recreation code fills in place: a body of paragraphs, pictures and
    tables, held by the class `WordDocument`. */
module DocxModel {
  import opened Wrappers
  import opened Colour

  /** A run's text and the properties python-docx reports for it: `bold`, `italic` and
      `underline` are None when inherited; `font.name`, `font.size` (in points) and
      `font.color.rgb` are None when not set explicitly. */
  datatype Run = Run(text: string, bold: Option<bool>, italic: Option<bool>, underline: Option<bool>,
                     fontName: Option<string>, fontSize: Option<real>, color: Option<Rgb>)

  /** A style looked up in the document: missing, or present with the font name it sets
      (`style.font.name`, None when unset). A paragraph's `style` is missing when the document
      has no default paragraph style; the 'Normal' style is missing when no style has that name. */
  datatype StyleRef = Missing | Present(font: Option<string>)

  /** A paragraph's `text`, its runs, and its style. */
  datatype Paragraph = Paragraph(text: string, runs: seq<Run>, style: StyleRef)

  datatype Cell = Cell(paragraphs: seq<Paragraph>)

  datatype Row = Row(cells: seq<Cell>)

  datatype Table = Table(rows: seq<Row>)

  /** A package relationship of the main document part: its `target_ref`, the content type of
      its target part, and whether its target mode is External. An external relationship (a
      hyperlink, a linked picture) has a URL for `target_ref` and no target part: reading
      `rel.target_part` raises ValueError and `rel._target` is the URL string, which has no
      `blob`. */
  datatype Rel = Rel(targetRef: string, contentType: string, external: bool)

  /** An opened document; `normal` is its style named 'Normal'. */
  datatype Document = Document(paragraphs: seq<Paragraph>, rels: seq<Rel>, tables: seq<Table>,
                               normal: StyleRef)

  /** Whether `run.font.size = Pt(points)` is accepted. `Pt` converts to a whole number of EMUs
      (12700 per point), truncating toward zero, and the `w:sz` setter validates that number as
      an unsigned 64-bit integer, raising ValueError otherwise. */
  predicate SizeAccepted(points: real)
  {
    -1.0 < points * 12700.0 < 18446744073709551616.0
  }

  /** A run whose size and colour python-docx can write back: the size is accepted and the colour
      bytes are in 0..255, as `RGBColor` demands. Every colour python-docx reads is an `RGBColor`,
      and every size it reads is a non-negative count of half-points. */
  predicate Writable(run: Run)
  {
    && (run.fontSize.Some? ==> SizeAccepted(run.fontSize.value))
    && (run.color.Some? ==> run.color.value.InRange())
  }

  /** The run `add_run(text)` creates: nothing but its text is set. */
  function PlainRun(text: string): Run
  {
    Run(text, None, None, None, None, None, None)
  }

  // ---- the document being built ----

  datatype OutParagraph = OutParagraph(runs: seq<Run>)

  datatype OutCell = OutCell(paragraphs: seq<OutParagraph>)

  /** A table built by `add_table(rows=0, cols)` and `add_row()`. */
  datatype OutTable = OutTable(cols: nat, rows: seq<seq<OutCell>>)

  /** A block of the body; `add_picture` puts the picture in a paragraph of its own, with the
      width in points when one is given. */
  datatype BodyItem =
    | Para(paragraph: OutParagraph)
    | Picture(path: string, width: Option<int>)
    | TableItem(table: OutTable)

  /** A cell of a row `add_row()` creates: it holds one empty paragraph. */
  function EmptyCell(): OutCell
  {
    OutCell([OutParagraph([])])
  }

  function NewRow(cols: nat): (row: seq<OutCell>)
    ensures |row| == cols && forall c :: 0 <= c < cols ==> row[c] == EmptyCell()
  {
    seq(cols, _ => EmptyCell())
  }

  /** The body ends with a table that has a row, and that row has a cell `c`. */
  predicate HasOpenCell(body: seq<BodyItem>, c: nat)
  {
    && |body| > 0
    && body[|body| - 1].TableItem?
    && |body[|body| - 1].table.rows| > 0
    && c < |body[|body| - 1].table.rows[|body[|body| - 1].table.rows| - 1]|
  }

  /** Cell `c` of the last row of the last table. */
  function OpenCell(body: seq<BodyItem>, c: nat): OutCell
    requires HasOpenCell(body, c)
  {
    var t := body[|body| - 1].table;
    t.rows[|t.rows| - 1][c]
  }

  /** The body with cell `c` of the last row of the last table replaced, and nothing else changed. */
  function WithOpenCell(body: seq<BodyItem>, c: nat, cell: OutCell): (r: seq<BodyItem>)
    requires HasOpenCell(body, c)
    ensures |r| == |body| && r[..|r| - 1] == body[..|body| - 1]
    ensures HasOpenCell(r, c) && OpenCell(r, c) == cell
  {
    var t := body[|body| - 1].table;
    var row := t.rows[|t.rows| - 1];
    body[..|body| - 1] + [TableItem(OutTable(t.cols, t.rows[..|t.rows| - 1] + [row[c := cell]]))]
  }

  /** Replacing the same cell twice keeps only the second replacement. */
  lemma WithOpenCellTwice(body: seq<BodyItem>, c: nat, x: OutCell, y: OutCell)
    requires HasOpenCell(body, c)
    ensures WithOpenCell(WithOpenCell(body, c, x), c, y) == WithOpenCell(body, c, y)
  {
    var t := body[|body| - 1].table;
    var row := t.rows[|t.rows| - 1];
    var b1 := WithOpenCell(body, c, x);
    var t1 := b1[|b1| - 1].table;
    assert t1 == OutTable(t.cols, t.rows[..|t.rows| - 1] + [row[c := x]]);
    assert t1.rows[..|t1.rows| - 1] == t.rows[..|t.rows| - 1];
    assert t1.rows[|t1.rows| - 1][c := y] == row[c := y];
  }

  /** Replacing a cell by itself changes nothing. */
  lemma WithOpenCellSame(body: seq<BodyItem>, c: nat)
    requires HasOpenCell(body, c)
    ensures WithOpenCell(body, c, OpenCell(body, c)) == body
  {
    var t := body[|body| - 1].table;
    var row := t.rows[|t.rows| - 1];
    assert row[c := row[c]] == row;
    assert t.rows[..|t.rows| - 1] + [row] == t.rows;
    assert TableItem(OutTable(t.cols, t.rows)) == body[|body| - 1];
    assert body[..|body| - 1] + [body[|body| - 1]] == body;
  }

  /** Replacing a cell of the last row, spelled out on a body whose last table is given. */
  lemma WithOpenCellOf(pre: seq<BodyItem>, cols: nat, rows: seq<seq<OutCell>>, row: seq<OutCell>, c: nat, x: OutCell)
    requires c < |row|
    ensures HasOpenCell(pre + [TableItem(OutTable(cols, rows + [row]))], c)
    ensures WithOpenCell(pre + [TableItem(OutTable(cols, rows + [row]))], c, x) ==
            pre + [TableItem(OutTable(cols, rows + [row[c := x]]))]
  {
    var body := pre + [TableItem(OutTable(cols, rows + [row]))];
    assert body[..|body| - 1] == pre;
    assert (rows + [row])[..|rows|] == rows;
  }

  /** The document `Document()` creates and the recreation code fills. */
  class WordDocument {
    var body: seq<BodyItem>

    constructor ()
      ensures body == []
    {
      body := [];
    }

    /** `doc.add_paragraph()` */
    method AddParagraph()
      modifies this
      ensures body == old(body) + [Para(OutParagraph([]))]
    {
      body := body + [Para(OutParagraph([]))];
    }

    /** `para.add_run(...)` on the body paragraph at position `k`, then the property setters. */
    method AddRun(k: nat, run: Run)
      requires k < |body| && body[k].Para?
      modifies this
      ensures body == old(body)[k := Para(OutParagraph(old(body)[k].paragraph.runs + [run]))]
    {
      body := body[k := Para(OutParagraph(body[k].paragraph.runs + [run]))];
    }

    /** `doc.add_picture(path, width)` */
    method AddPicture(path: string, width: Option<int>)
      modifies this
      ensures body == old(body) + [Picture(path, width)]
    {
      body := body + [Picture(path, width)];
    }

    /** `doc.add_table(rows=0, cols=cols)` */
    method AddTable(cols: nat)
      modifies this
      ensures body == old(body) + [TableItem(OutTable(cols, []))]
    {
      body := body + [TableItem(OutTable(cols, []))];
    }

    /** `table.add_row()` on the table just added: one cell per column. */
    method AddRow()
      requires |body| > 0 && body[|body| - 1].TableItem?
      modifies this
      ensures var t := old(body)[|old(body)| - 1].table;
              body == old(body)[..|old(body)| - 1] + [TableItem(OutTable(t.cols, t.rows + [NewRow(t.cols)]))]
    {
      var t := body[|body| - 1].table;
      body := body[..|body| - 1] + [TableItem(OutTable(t.cols, t.rows + [NewRow(t.cols)]))];
    }

    /** `cell._element.clear_content()` on cell `c` of the row just added. */
    method ClearCell(c: nat)
      requires HasOpenCell(body, c)
      modifies this
      ensures body == WithOpenCell(old(body), c, OutCell([]))
    {
      body := WithOpenCell(body, c, OutCell([]));
    }

    /** `cell.add_paragraph()` on cell `c` of the row just added. */
    method AddCellParagraph(c: nat)
      requires HasOpenCell(body, c)
      modifies this
      ensures body == WithOpenCell(old(body), c, OutCell(OpenCell(old(body), c).paragraphs + [OutParagraph([])]))
    {
      body := WithOpenCell(body, c, OutCell(OpenCell(body, c).paragraphs + [OutParagraph([])]));
    }

    /** `para.add_run(...)` on the paragraph just added to cell `c`. */
    method AddCellRun(c: nat, run: Run)
      requires HasOpenCell(body, c) && |OpenCell(body, c).paragraphs| > 0
      modifies this
      ensures var ps := OpenCell(old(body), c).paragraphs;
              body == WithOpenCell(old(body), c, OutCell(ps[..|ps| - 1] + [OutParagraph(ps[|ps| - 1].runs + [run])]))
    {
      var ps := OpenCell(body, c).paragraphs;
      body := WithOpenCell(body, c, OutCell(ps[..|ps| - 1] + [OutParagraph(ps[|ps| - 1].runs + [run])]));
    }
  }
}
