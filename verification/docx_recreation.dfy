/** `recreate_docx` (file_manipulator.py:198-249, extractor.py:147-192): rebuilds a document
    from the DOCX sidecar: a paragraph per paragraph record, a 300-point picture per image record,
    then a table per table record.

    The two variants differ only on runs inside table cells: file_manipulator.py treats them like
    body runs, extractor.py copies their text verbatim and applies font name, size and colour
    whenever the key is present, raising a TypeError on a null size or colour. */
module DocxRecreation {
  import opened Wrappers
  import opened Seqs
  import opened Colour
  import opened DocxModel
  import opened Sidecar
  import opened Processing

  datatype Variant = Manipulator | Extractor

  /** The errors a rebuild raises: the TypeError of `Pt(None)` and of `RGBColor(*None)`, and the
      ValueError of a size python-docx cannot store and of a colour byte outside 0..255. */
  datatype RecreateError = PtOfNone | RgbOfNone | SizeOutOfRange | ColourOutOfRange {
    predicate IsValueError()
    {
      SizeOutOfRange? || ColourOutOfRange?
    }
  }

  /** The size a body run sets: `run_meta.get("font_size")` when truthy. */
  function BodySize(rm: RunRecord): Option<real>
  {
    if rm.fontSize.Val? && rm.fontSize.value != 0.0 then Some(rm.fontSize.value) else None
  }

  /** A run record the body path writes without raising: a truthy size is one `Pt` and the size
      setter accept, and a colour has its bytes in 0..255. */
  predicate RecordWritable(rm: RunRecord)
  {
    && (BodySize(rm).Some? ==> SizeAccepted(BodySize(rm).value))
    && (rm.color.Val? ==> rm.color.value.InRange())
  }

  /** A body run (both variants), and a table run in file_manipulator.py: the processed text,
      bold and italic from `.get(key, False)`, the size only when truthy, the colour when set
      (an `[r, g, b]` list is always truthy), the font name from `.get`. Setting the size comes
      before setting the colour, so an unstorable size is the error reported. */
  function RecreatedRun(rm: RunRecord, processor: Option<string -> string>): (r: Result<Run, RecreateError>)
    ensures r.Ok? <==> RecordWritable(rm)
    ensures r.Err? ==> r.error.IsValueError()
    ensures BodySize(rm).Some? && !SizeAccepted(BodySize(rm).value) ==> r == Err(SizeOutOfRange)
    ensures r.Ok? ==> Writable(r.value)
  {
    var size := BodySize(rm);
    if size.Some? && !SizeAccepted(size.value) then Err(SizeOutOfRange)
    else if rm.color.Val? && !rm.color.value.InRange() then Err(ColourOutOfRange)
    else Ok(Run(ProcessText(rm.text, processor), GetOrFalse(rm.bold), GetOrFalse(rm.italic), None,
                Get(rm.fontName), size, Get(rm.color)))
  }

  /** A table run in extractor.py: the text as recorded; name, size and colour are set whenever
      their key is present, the size first, so a null size or colour raises a TypeError and an
      unstorable one a ValueError. */
  function ExtractorTableRun(rm: RunRecord): (r: Result<Run, RecreateError>)
    ensures r.Err? <==>
      || rm.fontSize.Null? || rm.color.Null?
      || (rm.fontSize.Val? && !SizeAccepted(rm.fontSize.value))
      || (rm.color.Val? && !rm.color.value.InRange())
    ensures rm.fontSize.Null? ==> r == Err(PtOfNone)
    ensures rm.fontSize.Val? && !SizeAccepted(rm.fontSize.value) ==> r == Err(SizeOutOfRange)
    ensures (rm.fontSize.Absent? || (rm.fontSize.Val? && SizeAccepted(rm.fontSize.value))) && rm.color.Null?
      ==> r == Err(RgbOfNone)
    ensures ((rm.fontSize.Absent? || (rm.fontSize.Val? && SizeAccepted(rm.fontSize.value)))
             && rm.color.Val? && !rm.color.value.InRange()) ==> r == Err(ColourOutOfRange)
    ensures r.Ok? ==> Writable(r.value) && r.value.text == rm.text && r.value.fontSize == Get(rm.fontSize)
  {
    if rm.fontSize.Null? then Err(PtOfNone)
    else if rm.fontSize.Val? && !SizeAccepted(rm.fontSize.value) then Err(SizeOutOfRange)
    else if rm.color.Null? then Err(RgbOfNone)
    else if rm.color.Val? && !rm.color.value.InRange() then Err(ColourOutOfRange)
    else Ok(Run(rm.text, GetOrFalse(rm.bold), GetOrFalse(rm.italic), None,
                Get(rm.fontName), Get(rm.fontSize), Get(rm.color)))
  }

  function TableRun(v: Variant, rm: RunRecord, processor: Option<string -> string>): Result<Run, RecreateError>
  {
    match v
    case Manipulator => RecreatedRun(rm, processor)
    case Extractor => ExtractorTableRun(rm)
  }

  function CellParagraph(v: Variant, pm: ParaRecord, processor: Option<string -> string>): Result<OutParagraph, RecreateError>
  {
    match MapResult((rm: RunRecord) => TableRun(v, rm, processor), pm.runs)
    case Err(e) => Err(e)
    case Ok(runs) => Ok(OutParagraph(runs))
  }

  /** A body paragraph: in both variants its runs are rebuilt as file_manipulator.py rebuilds
      the runs of a cell paragraph. */
  function BodyParagraph(pm: ParaRecord, processor: Option<string -> string>): Result<OutParagraph, RecreateError>
  {
    CellParagraph(Manipulator, pm, processor)
  }

  function BodyParaItem(pm: ParaRecord, processor: Option<string -> string>): Result<BodyItem, RecreateError>
  {
    match BodyParagraph(pm, processor)
    case Err(e) => Err(e)
    case Ok(p) => Ok(Para(p))
  }

  /** A cell after `clear_content()`: one paragraph per paragraph record. */
  function RecreatedCell(v: Variant, cm: CellRecord, processor: Option<string -> string>): Result<OutCell, RecreateError>
  {
    match MapResult((pm: ParaRecord) => CellParagraph(v, pm, processor), cm.paragraphs)
    case Err(e) => Err(e)
    case Ok(ps) => Ok(OutCell(ps))
  }

  /** `len(table_meta["rows"][0]["cells"]) if table_meta["rows"] else 0` */
  function Columns(tm: TableRecord): (cols: nat)
    ensures tm.rows == [] ==> cols == 0
    ensures tm.rows != [] ==> cols == |tm.rows[0].cells|
  {
    if tm.rows == [] then 0 else |tm.rows[0].cells|
  }

  function Min(a: nat, b: nat): nat
  {
    if a < b then a else b
  }

  /** A row from `add_row()`, with `zip(row_meta["cells"], row.cells)` filling the first
      cells in order and leaving the rest as created. */
  function RecreatedRow(v: Variant, cols: nat, rm: RowRecord, processor: Option<string -> string>): Result<seq<OutCell>, RecreateError>
  {
    var n := Min(|rm.cells|, cols);
    match MapResult((cm: CellRecord) => RecreatedCell(v, cm, processor), rm.cells[..n])
    case Err(e) => Err(e)
    case Ok(cells) => Ok(cells + NewRow(cols)[n..])
  }

  function RecreatedTable(v: Variant, tm: TableRecord, processor: Option<string -> string>): Result<OutTable, RecreateError>
  {
    var cols := Columns(tm);
    match MapResult((rm: RowRecord) => RecreatedRow(v, cols, rm, processor), tm.rows)
    case Err(e) => Err(e)
    case Ok(rows) => Ok(OutTable(cols, rows))
  }

  function PictureOf(im: DocxImageRecord): BodyItem
  {
    Picture(im.path, Some(300))
  }

  /** The body paragraphs, one per paragraph record, or the first paragraph's error. */
  function ParaItems(paragraphs: seq<ParaRecord>, processor: Option<string -> string>)
    : Result<seq<BodyItem>, RecreateError>
  {
    MapResult((pm: ParaRecord) => BodyParaItem(pm, processor), paragraphs)
  }

  /** The rebuilt tables, or the first table's error. */
  function RecreatedTables(v: Variant, tables: seq<TableRecord>, processor: Option<string -> string>)
    : Result<seq<OutTable>, RecreateError>
  {
    MapResult((tm: TableRecord) => RecreatedTable(v, tm, processor), tables)
  }

  function TableItems(tables: seq<OutTable>): seq<BodyItem>
  {
    Map((t: OutTable) => TableItem(t), tables)
  }

  /** The body of the rebuilt document, or the error that stops the rebuild. */
  function RecreatedBody(v: Variant, meta: DocxMetadata, processor: Option<string -> string>): Result<seq<BodyItem>, RecreateError>
  {
    match ParaItems(meta.paragraphs, processor)
    case Err(e) => Err(e)
    case Ok(paras) =>
      match RecreatedTables(v, meta.tables, processor)
      case Err(e) => Err(e)
      case Ok(tables) => Ok(paras + Map(PictureOf, meta.images) + TableItems(tables))
  }

  /** `RecreatedBody` by cases: the paragraphs' error first, then the tables' error. */
  lemma RecreatedBodyCases(v: Variant, meta: DocxMetadata, processor: Option<string -> string>)
    ensures var paras := ParaItems(meta.paragraphs, processor);
      var tables := RecreatedTables(v, meta.tables, processor);
      && (paras.Err? ==> RecreatedBody(v, meta, processor) == Err(paras.error))
      && (paras.Ok? && tables.Err? ==> RecreatedBody(v, meta, processor) == Err(tables.error))
      && (paras.Ok? && tables.Ok? ==>
            RecreatedBody(v, meta, processor) == Ok(paras.value + Map(PictureOf, meta.images) + TableItems(tables.value)))
  {
  }

  // ---- properties ----

  /** A row holds exactly `cols` cells: the first min(#cell records, cols) rebuilt from the
      records in order, the others as `add_row()` created them. */
  lemma RowFill(v: Variant, cols: nat, rm: RowRecord, processor: Option<string -> string>)
    requires RecreatedRow(v, cols, rm, processor).Ok?
    ensures var cells := RecreatedRow(v, cols, rm, processor).value;
      && |cells| == cols
      && (forall c :: 0 <= c < Min(|rm.cells|, cols) ==> RecreatedCell(v, rm.cells[c], processor) == Ok(cells[c]))
      && (forall c :: Min(|rm.cells|, cols) <= c < cols ==> cells[c] == EmptyCell())
  {
    var n := Min(|rm.cells|, cols);
    MapResultOk((cm: CellRecord) => RecreatedCell(v, cm, processor), rm.cells[..n]);
  }

  // ---- when file_manipulator.py's rebuild raises ----

  predicate ParaWritable(pm: ParaRecord)
  {
    forall i :: 0 <= i < |pm.runs| ==> RecordWritable(pm.runs[i])
  }

  predicate CellWritable(cm: CellRecord)
  {
    forall j :: 0 <= j < |cm.paragraphs| ==> ParaWritable(cm.paragraphs[j])
  }

  /** The cells of a row that `zip` reaches are writable; the others are never read. */
  predicate RowWritable(cols: nat, rm: RowRecord)
  {
    forall c :: 0 <= c < Min(|rm.cells|, cols) ==> CellWritable(rm.cells[c])
  }

  predicate TableWritable(tm: TableRecord)
  {
    forall r :: 0 <= r < |tm.rows| ==> RowWritable(Columns(tm), tm.rows[r])
  }

  /** Every run record file_manipulator.py's rebuild reads is writable. */
  predicate MetadataWritable(meta: DocxMetadata)
  {
    && (forall k :: 0 <= k < |meta.paragraphs| ==> ParaWritable(meta.paragraphs[k]))
    && (forall t :: 0 <= t < |meta.tables| ==> TableWritable(meta.tables[t]))
  }

  /** A body paragraph, or a cell paragraph in file_manipulator.py, raises exactly when one of
      its runs is not writable, and then with a ValueError. */
  lemma ParagraphOk(pm: ParaRecord, processor: Option<string -> string>)
    ensures BodyParagraph(pm, processor).Ok? <==> ParaWritable(pm)
    ensures BodyParagraph(pm, processor).Err? ==> BodyParagraph(pm, processor).error.IsValueError()
  {
    var f := (rm: RunRecord) => TableRun(Manipulator, rm, processor);
    MapResultErr(f, pm.runs);
    if MapResult(f, pm.runs).Err? {
      MapResultErrFrom(f, pm.runs);
    }
  }

  /** The body paragraphs (either variant) are rebuilt exactly when every one is writable, and
      otherwise raise a ValueError. */
  lemma BodyParagraphsOk(paragraphs: seq<ParaRecord>, processor: Option<string -> string>)
    ensures ParaItems(paragraphs, processor).Ok? <==> forall k :: 0 <= k < |paragraphs| ==> ParaWritable(paragraphs[k])
    ensures ParaItems(paragraphs, processor).Err? ==> ParaItems(paragraphs, processor).error.IsValueError()
  {
    var f := (pm: ParaRecord) => BodyParaItem(pm, processor);
    forall k | 0 <= k < |paragraphs|
      ensures f(paragraphs[k]).Ok? <==> ParaWritable(paragraphs[k])
      ensures f(paragraphs[k]).Err? ==> f(paragraphs[k]).error.IsValueError()
    {
      ParagraphOk(paragraphs[k], processor);
    }
    MapResultErr(f, paragraphs);
    if MapResult(f, paragraphs).Err? {
      MapResultErrFrom(f, paragraphs);
    }
  }

  lemma CellOk(cm: CellRecord, processor: Option<string -> string>)
    ensures RecreatedCell(Manipulator, cm, processor).Ok? <==> CellWritable(cm)
    ensures RecreatedCell(Manipulator, cm, processor).Err? ==> RecreatedCell(Manipulator, cm, processor).error.IsValueError()
  {
    var g := (pm: ParaRecord) => CellParagraph(Manipulator, pm, processor);
    forall j | 0 <= j < |cm.paragraphs|
      ensures g(cm.paragraphs[j]).Ok? <==> ParaWritable(cm.paragraphs[j])
      ensures g(cm.paragraphs[j]).Err? ==> g(cm.paragraphs[j]).error.IsValueError()
    {
      ParagraphOk(cm.paragraphs[j], processor);
    }
    MapResultErr(g, cm.paragraphs);
    if MapResult(g, cm.paragraphs).Err? {
      MapResultErrFrom(g, cm.paragraphs);
    }
  }

  lemma RowOk(cols: nat, rm: RowRecord, processor: Option<string -> string>)
    ensures RecreatedRow(Manipulator, cols, rm, processor).Ok? <==> RowWritable(cols, rm)
    ensures RecreatedRow(Manipulator, cols, rm, processor).Err? ==> RecreatedRow(Manipulator, cols, rm, processor).error.IsValueError()
  {
    var h := (cm: CellRecord) => RecreatedCell(Manipulator, cm, processor);
    var zipped := rm.cells[..Min(|rm.cells|, cols)];
    forall c | 0 <= c < |zipped|
      ensures h(zipped[c]).Ok? <==> CellWritable(zipped[c])
      ensures h(zipped[c]).Err? ==> h(zipped[c]).error.IsValueError()
    {
      CellOk(zipped[c], processor);
    }
    MapResultErr(h, zipped);
    if MapResult(h, zipped).Err? {
      MapResultErrFrom(h, zipped);
    }
  }

  lemma TableOk(tm: TableRecord, processor: Option<string -> string>)
    ensures RecreatedTable(Manipulator, tm, processor).Ok? <==> TableWritable(tm)
    ensures RecreatedTable(Manipulator, tm, processor).Err? ==> RecreatedTable(Manipulator, tm, processor).error.IsValueError()
  {
    var fr := (rm: RowRecord) => RecreatedRow(Manipulator, Columns(tm), rm, processor);
    forall r | 0 <= r < |tm.rows|
      ensures fr(tm.rows[r]).Ok? <==> RowWritable(Columns(tm), tm.rows[r])
      ensures fr(tm.rows[r]).Err? ==> fr(tm.rows[r]).error.IsValueError()
    {
      RowOk(Columns(tm), tm.rows[r], processor);
    }
    MapResultErr(fr, tm.rows);
    if MapResult(fr, tm.rows).Err? {
      MapResultErrFrom(fr, tm.rows);
    }
  }

  /** file_manipulator.py's rebuild reads every optional key with `.get` and skips falsy values,
      so it never raises a TypeError: it raises exactly when a run it reads has a size or colour
      python-docx refuses, and then with that ValueError. */
  lemma ManipulatorRebuildOk(meta: DocxMetadata, processor: Option<string -> string>)
    ensures RecreatedBody(Manipulator, meta, processor).Ok? <==> MetadataWritable(meta)
    ensures RecreatedBody(Manipulator, meta, processor).Err? ==>
      RecreatedBody(Manipulator, meta, processor).error.IsValueError()
  {
    BodyParagraphsOk(meta.paragraphs, processor);
    var ft := (tm: TableRecord) => RecreatedTable(Manipulator, tm, processor);
    forall t | 0 <= t < |meta.tables|
      ensures ft(meta.tables[t]).Ok? <==> TableWritable(meta.tables[t])
      ensures ft(meta.tables[t]).Err? ==> ft(meta.tables[t]).error.IsValueError()
    {
      TableOk(meta.tables[t], processor);
    }
    MapResultErr(ft, meta.tables);
    if MapResult(ft, meta.tables).Err? {
      MapResultErrFrom(ft, meta.tables);
    }
  }

  /** The rebuilt body: paragraphs first, then pictures, then tables, each in record order. */
  lemma BodyLayout(v: Variant, meta: DocxMetadata, processor: Option<string -> string>)
    requires RecreatedBody(v, meta, processor).Ok?
    ensures var body := RecreatedBody(v, meta, processor).value;
      var np := |meta.paragraphs|;
      var ni := |meta.images|;
      && |body| == np + ni + |meta.tables|
      && (forall k :: 0 <= k < np ==>
            BodyParagraph(meta.paragraphs[k], processor).Ok?
            && body[k] == Para(BodyParagraph(meta.paragraphs[k], processor).value))
      && (forall i :: 0 <= i < ni ==> body[np + i] == Picture(meta.images[i].path, Some(300)))
      && (forall t :: 0 <= t < |meta.tables| ==>
            RecreatedTable(v, meta.tables[t], processor) == Ok(body[np + ni + t].table))
  {
    var fp := (pm: ParaRecord) => BodyParaItem(pm, processor);
    var ft := (tm: TableRecord) => RecreatedTable(v, tm, processor);
    var paras := MapResult(fp, meta.paragraphs).value;
    var tables := MapResult(ft, meta.tables).value;
    var pictures := Map(PictureOf, meta.images);
    assert RecreatedBody(v, meta, processor).value == paras + pictures + TableItems(tables);
    MapResultOk(fp, meta.paragraphs);
    MapResultOk(ft, meta.tables);
    forall k | 0 <= k < |meta.paragraphs|
      ensures BodyParagraph(meta.paragraphs[k], processor).Ok?
      ensures paras[k] == Para(BodyParagraph(meta.paragraphs[k], processor).value)
    {
      assert fp(meta.paragraphs[k]).Ok?;
    }
  }

  /** Every cell run a successful extractor.py rebuild writes carries its record's text as
      recorded, whatever the processor. */
  lemma ExtractorCellTextVerbatim(cm: CellRecord, processor: Option<string -> string>)
    requires RecreatedCell(Extractor, cm, processor).Ok?
    ensures var cell := RecreatedCell(Extractor, cm, processor).value;
      && |cell.paragraphs| == |cm.paragraphs|
      && forall j :: 0 <= j < |cm.paragraphs| ==>
           |cell.paragraphs[j].runs| == |cm.paragraphs[j].runs|
           && forall i :: 0 <= i < |cm.paragraphs[j].runs| ==>
                cell.paragraphs[j].runs[i].text == cm.paragraphs[j].runs[i].text
  {
    var cell := RecreatedCell(Extractor, cm, processor).value;
    MapResultOk((pm: ParaRecord) => CellParagraph(Extractor, pm, processor), cm.paragraphs);
    forall j | 0 <= j < |cm.paragraphs|
      ensures |cell.paragraphs[j].runs| == |cm.paragraphs[j].runs|
      ensures forall i :: 0 <= i < |cm.paragraphs[j].runs| ==>
                cell.paragraphs[j].runs[i].text == cm.paragraphs[j].runs[i].text
    {
      MapResultOk((rm: RunRecord) => TableRun(Extractor, rm, processor), cm.paragraphs[j].runs);
    }
  }

  /** In file_manipulator.py a writable cell is rebuilt, and every cell run's text goes through
      the processor. */
  lemma ManipulatorCellTextProcessed(cm: CellRecord, processor: Option<string -> string>)
    ensures RecreatedCell(Manipulator, cm, processor).Ok? <==> CellWritable(cm)
    ensures var r := RecreatedCell(Manipulator, cm, processor);
      r.Ok? ==>
      && |r.value.paragraphs| == |cm.paragraphs|
      && forall j :: 0 <= j < |cm.paragraphs| ==>
           |r.value.paragraphs[j].runs| == |cm.paragraphs[j].runs|
           && forall i :: 0 <= i < |cm.paragraphs[j].runs| ==>
                r.value.paragraphs[j].runs[i].text == ProcessText(cm.paragraphs[j].runs[i].text, processor)
  {
    CellOk(cm, processor);
    var r := RecreatedCell(Manipulator, cm, processor);
    if r.Ok? {
      MapResultOk((pm: ParaRecord) => CellParagraph(Manipulator, pm, processor), cm.paragraphs);
      forall j | 0 <= j < |cm.paragraphs|
        ensures |r.value.paragraphs[j].runs| == |cm.paragraphs[j].runs|
        ensures forall i :: 0 <= i < |cm.paragraphs[j].runs| ==>
                  r.value.paragraphs[j].runs[i].text == ProcessText(cm.paragraphs[j].runs[i].text, processor)
      {
        MapResultOk((rm: RunRecord) => TableRun(Manipulator, rm, processor), cm.paragraphs[j].runs);
      }
    }
  }

  // ---- the rebuild, in place ----

  /** `para = doc.add_paragraph()`, then `for run_meta in para_meta["runs"]`; stops at the
      first run that raises. */
  method AddBodyParagraph(doc: WordDocument, pm: ParaRecord, processor: Option<string -> string>)
    returns (err: Option<RecreateError>)
    modifies doc
    ensures var r := BodyParagraph(pm, processor);
      && (err.None? <==> r.Ok?)
      && (err.Some? ==> err.value == r.error)
      && (r.Ok? ==> doc.body == old(doc.body) + [Para(r.value)])
  {
    var f := (rm: RunRecord) => TableRun(Manipulator, rm, processor);
    var runs := pm.runs;
    ghost var body0 := doc.body;
    doc.AddParagraph();
    var k := |doc.body| - 1;
    for i := 0 to |runs|
      invariant MapResult(f, runs[..i]).Ok?
      invariant doc.body == body0 + [Para(OutParagraph(MapResult(f, runs[..i]).value))]
    {
      MapResultSnoc(f, runs, i);
      var run := RecreatedRun(runs[i], processor);
      if run.Err? {
        assert runs[..|runs|] == runs;
        MapResultFirstErr(f, runs, i);
        return Some(run.error);
      }
      doc.AddRun(k, run.value);
    }
    assert runs[..|runs|] == runs;
    return None;
  }

  /** `para = cell.add_paragraph()` on cell `c` of the row just added, then
      `for run_meta in para_meta["runs"]`; stops at the first run that raises. */
  method AddCellParagraph(doc: WordDocument, c: nat, v: Variant, pm: ParaRecord, processor: Option<string -> string>)
    returns (err: Option<RecreateError>)
    requires HasOpenCell(doc.body, c)
    modifies doc
    ensures var r := CellParagraph(v, pm, processor);
      && (err.None? <==> r.Ok?)
      && (err.Some? ==> err.value == r.error)
      && (r.Ok? ==> doc.body == WithOpenCell(old(doc.body), c, OutCell(OpenCell(old(doc.body), c).paragraphs + [r.value])))
  {
    var f := (rm: RunRecord) => TableRun(v, rm, processor);
    var runs := pm.runs;
    ghost var body0 := doc.body;
    ghost var ps0 := OpenCell(body0, c).paragraphs;
    doc.AddCellParagraph(c);
    for i := 0 to |runs|
      invariant MapResult(f, runs[..i]).Ok?
      invariant doc.body == WithOpenCell(body0, c, OutCell(ps0 + [OutParagraph(MapResult(f, runs[..i]).value)]))
    {
      MapResultSnoc(f, runs, i);
      var run := TableRun(v, runs[i], processor);
      if run.Err? {
        assert runs[..|runs|] == runs;
        MapResultFirstErr(f, runs, i);
        return Some(run.error);
      }
      ghost var ps := ps0 + [OutParagraph(MapResult(f, runs[..i]).value)];
      assert ps[..|ps| - 1] == ps0;
      doc.AddCellRun(c, run.value);
      WithOpenCellTwice(body0, c, OutCell(ps), OutCell(ps0 + [OutParagraph(MapResult(f, runs[..i + 1]).value)]));
    }
    assert runs[..|runs|] == runs;
    return None;
  }

  /** One cell of the row just added: `clear_content()`, then a paragraph per paragraph record. */
  method FillCell(doc: WordDocument, c: nat, v: Variant, cm: CellRecord, processor: Option<string -> string>)
    returns (err: Option<RecreateError>)
    requires HasOpenCell(doc.body, c)
    modifies doc
    ensures var r := RecreatedCell(v, cm, processor);
      && (err.None? <==> r.Ok?)
      && (err.Some? ==> err.value == r.error)
      && (r.Ok? ==> doc.body == WithOpenCell(old(doc.body), c, r.value))
  {
    var g := (pm: ParaRecord) => CellParagraph(v, pm, processor);
    ghost var body0 := doc.body;
    doc.ClearCell(c);
    for j := 0 to |cm.paragraphs|
      invariant MapResult(g, cm.paragraphs[..j]).Ok?
      invariant doc.body == WithOpenCell(body0, c, OutCell(MapResult(g, cm.paragraphs[..j]).value))
    {
      MapResultSnoc(g, cm.paragraphs, j);
      ghost var done := MapResult(g, cm.paragraphs[..j]).value;
      err := AddCellParagraph(doc, c, v, cm.paragraphs[j], processor);
      if err.Some? {
        assert cm.paragraphs[..|cm.paragraphs|] == cm.paragraphs;
        MapResultFirstErr(g, cm.paragraphs, j);
        return;
      }
      WithOpenCellTwice(body0, c, OutCell(done), OutCell(MapResult(g, cm.paragraphs[..j + 1]).value));
    }
    assert cm.paragraphs[..|cm.paragraphs|] == cm.paragraphs;
    err := None;
  }

  /** Filling cell c of a row whose first c cells are filled and whose others are as created. */
  lemma RowStep(done: seq<OutCell>, cols: nat, x: OutCell)
    requires |done| < cols
    ensures (done + NewRow(cols)[|done|..])[|done| := x] == (done + [x]) + NewRow(cols)[|done| + 1..]
  {
  }

  /** `row = table.add_row()` on the table just added, then the zipped cells in order. */
  method FillRow(doc: WordDocument, v: Variant, rm: RowRecord, processor: Option<string -> string>)
    returns (err: Option<RecreateError>)
    requires |doc.body| > 0 && doc.body[|doc.body| - 1].TableItem?
    modifies doc
    ensures var t := old(doc.body)[|old(doc.body)| - 1].table;
      var r := RecreatedRow(v, t.cols, rm, processor);
      && (err.None? <==> r.Ok?)
      && (err.Some? ==> err.value == r.error)
      && (r.Ok? ==> doc.body == old(doc.body)[..|old(doc.body)| - 1] + [TableItem(OutTable(t.cols, t.rows + [r.value]))])
  {
    var h := (cm: CellRecord) => RecreatedCell(v, cm, processor);
    ghost var pre := doc.body[..|doc.body| - 1];
    ghost var t := doc.body[|doc.body| - 1].table;
    doc.AddRow();
    var table := doc.body[|doc.body| - 1].table;
    var width := |table.rows[|table.rows| - 1]|;
    var n := Min(|rm.cells|, width);
    ghost var zipped := rm.cells[..n];
    assert zipped[..0] == [] && NewRow(t.cols)[0..] == NewRow(t.cols);
    assert MapResult(h, zipped[..0]) == Ok([]);
    assert doc.body == pre + [TableItem(OutTable(t.cols, t.rows + [NewRow(t.cols)]))];
    assert MapResult(h, zipped[..0]).value + NewRow(t.cols)[0..] == NewRow(t.cols);
    assert doc.body == pre + [TableItem(OutTable(t.cols, t.rows + [MapResult(h, zipped[..0]).value + NewRow(t.cols)[0..]]))];
    for c := 0 to n
      invariant MapResult(h, zipped[..c]).Ok?
      invariant doc.body == pre + [TableItem(OutTable(t.cols, t.rows + [MapResult(h, zipped[..c]).value + NewRow(t.cols)[c..]]))]
    {
      MapResultSnoc(h, zipped, c);
      ghost var row := MapResult(h, zipped[..c]).value + NewRow(t.cols)[c..];
      WithOpenCellOf(pre, t.cols, t.rows, row, c, OutCell([]));
      err := FillCell(doc, c, v, rm.cells[c], processor);
      if err.Some? {
        assert zipped[..n] == zipped;
        MapResultFirstErr(h, zipped, c);
        return;
      }
      WithOpenCellOf(pre, t.cols, t.rows, row, c, h(zipped[c]).value);
      RowStep(MapResult(h, zipped[..c]).value, t.cols, h(zipped[c]).value);
    }
    assert zipped[..n] == zipped;
    err := None;
  }

  /** `table = doc.add_table(rows=0, cols=...)`, then a row per row record. */
  method AddTableRecord(doc: WordDocument, v: Variant, tm: TableRecord, processor: Option<string -> string>)
    returns (err: Option<RecreateError>)
    modifies doc
    ensures var r := RecreatedTable(v, tm, processor);
      && (err.None? <==> r.Ok?)
      && (err.Some? ==> err.value == r.error)
      && (r.Ok? ==> doc.body == old(doc.body) + [TableItem(r.value)])
  {
    var cols := if tm.rows != [] then |tm.rows[0].cells| else 0;
    var fr := (rm: RowRecord) => RecreatedRow(v, cols, rm, processor);
    ghost var body0 := doc.body;
    doc.AddTable(cols);
    for i := 0 to |tm.rows|
      invariant MapResult(fr, tm.rows[..i]).Ok?
      invariant doc.body == body0 + [TableItem(OutTable(cols, MapResult(fr, tm.rows[..i]).value))]
    {
      MapResultSnoc(fr, tm.rows, i);
      err := FillRow(doc, v, tm.rows[i], processor);
      if err.Some? {
        assert tm.rows[..|tm.rows|] == tm.rows;
        MapResultFirstErr(fr, tm.rows, i);
        return;
      }
      assert (body0 + [TableItem(OutTable(cols, MapResult(fr, tm.rows[..i]).value))])[..|body0|] == body0;
    }
    assert tm.rows[..|tm.rows|] == tm.rows;
    err := None;
  }

  /** `for para_meta in metadata["paragraphs"]`: a paragraph per record, its runs in order;
      stops at the first paragraph that raises. */
  method AddBodyParagraphs(doc: WordDocument, paragraphs: seq<ParaRecord>, processor: Option<string -> string>)
    returns (err: Option<RecreateError>)
    modifies doc
    ensures var r := ParaItems(paragraphs, processor);
      && (err.None? <==> r.Ok?)
      && (err.Some? ==> err.value == r.error)
      && (r.Ok? ==> doc.body == old(doc.body) + r.value)
  {
    var fp := (pm: ParaRecord) => BodyParaItem(pm, processor);
    ghost var body0 := doc.body;
    for k := 0 to |paragraphs|
      invariant MapResult(fp, paragraphs[..k]).Ok?
      invariant doc.body == body0 + MapResult(fp, paragraphs[..k]).value
    {
      MapResultSnoc(fp, paragraphs, k);
      ghost var done := MapResult(fp, paragraphs[..k]).value;
      err := AddBodyParagraph(doc, paragraphs[k], processor);
      if err.Some? {
        assert paragraphs[..|paragraphs|] == paragraphs;
        MapResultFirstErr(fp, paragraphs, k);
        return;
      }
      assert body0 + done + [fp(paragraphs[k]).value] == body0 + (done + [fp(paragraphs[k]).value]);
    }
    assert paragraphs[..|paragraphs|] == paragraphs;
    err := None;
  }

  /** `for img_meta in metadata["images"]`: a 300-point-wide picture per record. */
  method AddPictures(doc: WordDocument, images: seq<DocxImageRecord>)
    modifies doc
    ensures doc.body == old(doc.body) + Map(PictureOf, images)
  {
    ghost var body0 := doc.body;
    for i := 0 to |images|
      invariant doc.body == body0 + Map(PictureOf, images[..i])
    {
      doc.AddPicture(images[i].path, Some(300));
      assert images[..i + 1] == images[..i] + [images[i]];
      MapSnoc(PictureOf, images[..i], images[i]);
    }
    assert images[..|images|] == images;
  }

  /** `for table_meta in metadata["tables"]`; stops at the first table that raises. */
  method AddTables(doc: WordDocument, v: Variant, tables: seq<TableRecord>, processor: Option<string -> string>)
    returns (err: Option<RecreateError>)
    modifies doc
    ensures var r := RecreatedTables(v, tables, processor);
      && (err.None? <==> r.Ok?)
      && (err.Some? ==> err.value == r.error)
      && (r.Ok? ==> doc.body == old(doc.body) + TableItems(r.value))
  {
    ghost var body0 := doc.body;
    var ft := (tm: TableRecord) => RecreatedTable(v, tm, processor);
    var fi := (t: OutTable) => TableItem(t);
    for t := 0 to |tables|
      invariant MapResult(ft, tables[..t]).Ok?
      invariant doc.body == body0 + Map(fi, MapResult(ft, tables[..t]).value)
    {
      MapResultSnoc(ft, tables, t);
      ghost var done := MapResult(ft, tables[..t]).value;
      err := AddTableRecord(doc, v, tables[t], processor);
      if err.Some? {
        assert tables[..|tables|] == tables;
        MapResultFirstErr(ft, tables, t);
        return;
      }
      MapSnoc(fi, done, ft(tables[t]).value);
    }
    assert tables[..|tables|] == tables;
    err := None;
  }

  /** The whole rebuild: the document it returns has exactly the body `RecreatedBody` describes,
      and it raises exactly when that fails, with the same error. */
  method RecreateDocx(v: Variant, meta: DocxMetadata, processor: Option<string -> string>)
    returns (res: Result<WordDocument, RecreateError>)
    ensures res.Ok? <==> RecreatedBody(v, meta, processor).Ok?
    ensures res.Err? ==> res.error == RecreatedBody(v, meta, processor).error
    ensures res.Ok? ==> fresh(res.value) && res.value.body == RecreatedBody(v, meta, processor).value
  {
    RecreatedBodyCases(v, meta, processor);
    var doc := new WordDocument();
    var err := AddBodyParagraphs(doc, meta.paragraphs, processor);
    if err.Some? {
      return Err(err.value);
    }
    AddPictures(doc, meta.images);
    err := AddTables(doc, v, meta.tables, processor);
    if err.Some? {
      return Err(err.value);
    }
    res := Ok(doc);
  }
}
