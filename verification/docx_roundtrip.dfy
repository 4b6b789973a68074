/** DOCX extraction followed by recreation: what comes back, and where the two recreation
    variants part ways. */
module DocxRoundTrip {
  import opened Wrappers
  import opened Seqs
  import opened Strings
  import opened Colour
  import opened DocxModel
  import opened Sidecar
  import opened Processing
  import opened DocxExtraction
  import opened DocxRecreation

  /** A run whose underline is inherited, whose size is not zero, and which python-docx can write
      back: everything the sidecar records about it is all there is to it. */
  predicate Recordable(run: Run)
  {
    run.underline.None? && run.fontSize != Some(0.0) && Writable(run)
  }

  /** Recording a run and rebuilding it succeeds exactly when the run's size and colour can be
      written back; the text comes back processed, and a recordable run comes back as it was:
      bold and italic keep their None, name, size and colour are unchanged. */
  lemma RunRoundTrip(run: Run, processor: Option<string -> string>)
    ensures RecreatedRun(RunRecordOf(run), processor).Ok? <==> Writable(run)
    ensures RecreatedRun(RunRecordOf(run), processor).Ok? ==>
      RecreatedRun(RunRecordOf(run), processor).value.text == ProcessText(run.text, processor)
    ensures Recordable(run) ==> RecreatedRun(RunRecordOf(run), None) == Ok(run)
  {
  }

  /** The runs of a paragraph record made from recordable runs come back in order. */
  lemma RunsRoundTrip(pm: ParaRecord, runs: seq<Run>)
    requires pm.runs == Map(RunRecordOf, runs)
    requires forall i :: 0 <= i < |runs| ==> Recordable(runs[i])
    ensures BodyParagraph(pm, None) == Ok(OutParagraph(runs))
  {
    var f := (rm: RunRecord) => TableRun(Manipulator, rm, None);
    forall i | 0 <= i < |runs|
      ensures f(pm.runs[i]) == Ok(runs[i])
    {
      RunRoundTrip(runs[i], None);
    }
    MapResultAllOk(f, pm.runs);
    assert MapResult(f, pm.runs).value == runs;
  }

  /** Every run of the document's body paragraphs is recordable. */
  predicate BodyRecordable(doc: Document)
  {
    forall k, i :: 0 <= k < |doc.paragraphs| && 0 <= i < |doc.paragraphs[k].runs| ==>
      Recordable(doc.paragraphs[k].runs[i])
  }

  /** Rebuilding without a processor gives back each body paragraph's runs exactly, in order,
      followed by one 300-point picture per image relationship, in order. */
  lemma BodyRoundTrip(v: Variant, doc: Document, folder: string, meta: DocxMetadata)
    requires IsDocxMetadata(doc, folder, meta)
    requires BodyRecordable(doc)
    requires RecreatedBody(v, meta, None).Ok?
    ensures var body := RecreatedBody(v, meta, None).value;
      var np := |doc.paragraphs|;
      && |body| == np + |ImageRecords(folder, doc.rels)| + |doc.tables|
      && (forall k :: 0 <= k < np ==> body[k] == Para(OutParagraph(doc.paragraphs[k].runs)))
      && (forall i :: 0 <= i < |ImageRecords(folder, doc.rels)| ==>
            body[np + i] == Picture(ImageRecords(folder, doc.rels)[i].path, Some(300)))
  {
    BodyLayout(v, meta, None);
    forall k | 0 <= k < |doc.paragraphs|
      ensures BodyParagraph(meta.paragraphs[k], None) == Ok(OutParagraph(doc.paragraphs[k].runs))
    {
      RunsRoundTrip(meta.paragraphs[k], doc.paragraphs[k].runs);
    }
  }

  /** The paragraphs a cell holds after recording and rebuilding it in file_manipulator.py. */
  function CellBack(cell: Cell): OutCell
  {
    OutCell(Map((p: Paragraph) => OutParagraph(p.runs), cell.paragraphs))
  }

  predicate CellRecordable(cell: Cell)
  {
    forall j, i :: 0 <= j < |cell.paragraphs| && 0 <= i < |cell.paragraphs[j].runs| ==>
      Recordable(cell.paragraphs[j].runs[i])
  }

  lemma CellRoundTrip(cell: Cell)
    requires CellRecordable(cell)
    ensures RecreatedCell(Manipulator, CellRecordOf(cell), None) == Ok(CellBack(cell))
  {
    var cm := CellRecordOf(cell);
    var g := (pm: ParaRecord) => CellParagraph(Manipulator, pm, None);
    forall j | 0 <= j < |cm.paragraphs|
      ensures g(cm.paragraphs[j]) == Ok(OutParagraph(cell.paragraphs[j].runs))
    {
      RunsRoundTrip(cm.paragraphs[j], cell.paragraphs[j].runs);
    }
    MapResultAllOk(g, cm.paragraphs);
    assert MapResult(g, cm.paragraphs).value == CellBack(cell).paragraphs;
  }

  /** In file_manipulator.py a table whose rows all have `n` cells comes back with `n` columns
      and every cell's paragraphs and runs as they were. */
  lemma {:induction false} TableRoundTrip(k: int, table: Table, n: nat)
    requires table.rows != []
    requires forall r :: 0 <= r < |table.rows| ==> |table.rows[r].cells| == n
    requires forall r, c :: 0 <= r < |table.rows| && 0 <= c < n ==> CellRecordable(table.rows[r].cells[c])
    ensures RecreatedTable(Manipulator, TableRecordOf(k, table), None).Ok?
    ensures var t := RecreatedTable(Manipulator, TableRecordOf(k, table), None).value;
      && t.cols == n && |t.rows| == |table.rows|
      && forall r, c :: 0 <= r < |table.rows| && 0 <= c < n ==> |t.rows[r]| == n && t.rows[r][c] == CellBack(table.rows[r].cells[c])
  {
    var tm := TableRecordOf(k, table);
    assert Columns(tm) == n;
    var fr := (rm: RowRecord) => RecreatedRow(Manipulator, n, rm, None);
    forall r | 0 <= r < |table.rows|
      ensures fr(tm.rows[r]).Ok?
      ensures |fr(tm.rows[r]).value| == n
      ensures forall c :: 0 <= c < n ==> fr(tm.rows[r]).value[c] == CellBack(table.rows[r].cells[c])
    {
      var rm := tm.rows[r];
      assert rm == RowRecordOf(r, table.rows[r]);
      var h := (cm: CellRecord) => RecreatedCell(Manipulator, cm, None);
      var zipped := rm.cells[..Min(|rm.cells|, n)];
      forall c | 0 <= c < |zipped|
        ensures h(zipped[c]).Ok?
      {
        CellRoundTrip(table.rows[r].cells[c]);
      }
      MapResultAllOk(h, zipped);
      RowFill(Manipulator, n, rm, None);
      forall c | 0 <= c < n
        ensures fr(rm).value[c] == CellBack(table.rows[r].cells[c])
      {
        CellRoundTrip(table.rows[r].cells[c]);
      }
    }
    MapResultAllOk(fr, tm.rows);
  }

  // ---- rebuilding an extracted sidecar ----

  predicate CellRunsWritable(cell: Cell)
  {
    forall j, i :: 0 <= j < |cell.paragraphs| && 0 <= i < |cell.paragraphs[j].runs| ==>
      Writable(cell.paragraphs[j].runs[i])
  }

  predicate TableRunsWritable(table: Table)
  {
    forall r, c :: 0 <= r < |table.rows| && 0 <= c < |table.rows[r].cells| ==>
      CellRunsWritable(table.rows[r].cells[c])
  }

  /** Every run of the document, in its body and in its tables, can be written back. */
  predicate DocWritable(doc: Document)
  {
    && (forall k, i :: 0 <= k < |doc.paragraphs| && 0 <= i < |doc.paragraphs[k].runs| ==>
          Writable(doc.paragraphs[k].runs[i]))
    && (forall t :: 0 <= t < |doc.tables| ==> TableRunsWritable(doc.tables[t]))
  }

  lemma RecordsWritable(pm: ParaRecord, runs: seq<Run>)
    requires pm.runs == Map(RunRecordOf, runs)
    requires forall i :: 0 <= i < |runs| ==> Writable(runs[i])
    ensures ParaWritable(pm)
  {
    forall i | 0 <= i < |runs|
      ensures RecordWritable(pm.runs[i])
    {
      RunRoundTrip(runs[i], None);
    }
  }

  lemma TableRecordWritable(k: int, table: Table)
    requires TableRunsWritable(table)
    ensures TableWritable(TableRecordOf(k, table))
  {
    var tm := TableRecordOf(k, table);
    forall r, c | 0 <= r < |tm.rows| && 0 <= c < Min(|tm.rows[r].cells|, Columns(tm))
      ensures CellWritable(tm.rows[r].cells[c])
    {
      var cell := table.rows[r].cells[c];
      assert tm.rows[r].cells[c] == CellRecordOf(cell);
      forall j | 0 <= j < |cell.paragraphs|
        ensures ParaWritable(CellRecordOf(cell).paragraphs[j])
      {
        RecordsWritable(CellRecordOf(cell).paragraphs[j], cell.paragraphs[j].runs);
      }
    }
  }

  /** Extraction followed by file_manipulator.py's rebuild does not raise when every run of the
      document can be written back. */
  lemma ExtractedRebuildOk(doc: Document, folder: string, meta: DocxMetadata, processor: Option<string -> string>)
    requires IsDocxMetadata(doc, folder, meta)
    requires DocWritable(doc)
    ensures RecreatedBody(Manipulator, meta, processor).Ok?
  {
    forall k | 0 <= k < |meta.paragraphs|
      ensures ParaWritable(meta.paragraphs[k])
    {
      RecordsWritable(meta.paragraphs[k], doc.paragraphs[k].runs);
    }
    forall t | 0 <= t < |meta.tables|
      ensures TableWritable(meta.tables[t])
    {
      TableRecordWritable(t, doc.tables[t]);
    }
    ManipulatorRebuildOk(meta, processor);
  }

  // ---- extractor.py's table runs ----

  /** A document whose only content is a one-cell table holding one run `text` with the given size
      and colour. */
  function OneCellDoc(text: string, size: Option<real>, color: Option<Rgb>): Document
  {
    Document([], [], [Table([Row([Cell([Paragraph(text, [Run(text, None, None, None, None, size, color)], Missing)])])])], Missing)
  }

  /** The sidecar of `OneCellDoc`, level by level. */
  lemma OneCellRecords(text: string, size: Option<real>, color: Option<Rgb>, folder: string, meta: DocxMetadata)
    requires IsDocxMetadata(OneCellDoc(text, size, color), folder, meta)
    ensures meta.paragraphs == [] && meta.images == []
    ensures var rm := RunRecordOf(Run(text, None, None, None, None, size, color));
      meta.tables == [TableRecord(1, [RowRecord(1, [CellRecord([ParaRecord(None, text, [rm])])])])]
  {
    var doc := OneCellDoc(text, size, color);
    var run := Run(text, None, None, None, None, size, color);
    var p := Paragraph(text, [run], Missing);
    var cell := Cell([p]);
    var row := Row([cell]);
    assert Map(RunRecordOf, [run]) == [RunRecordOf(run)];
    assert Map(CellParaRecordOf, [p]) == [ParaRecord(None, text, [RunRecordOf(run)])];
    assert Map(CellRecordOf, [cell]) == [CellRecordOf(cell)];
    assert TableRecordOf(0, doc.tables[0]).rows == [RowRecordOf(0, row)];
    assert meta.tables == [meta.tables[0]];
    assert ImageRels(doc.rels) == [];
  }

  /** The rebuild of the one-cell sidecar, level by level, for either variant. */
  lemma OneCellRebuild(v: Variant, rm: RunRecord, text: string, processor: Option<string -> string>)
    ensures var tm := TableRecord(1, [RowRecord(1, [CellRecord([ParaRecord(None, text, [rm])])])]);
      RecreatedBody(v, DocxMetadata([], [], [tm]), processor) ==
        match TableRun(v, rm, processor)
        case Err(e) => Err(e)
        case Ok(run) => Ok([TableItem(OutTable(1, [[OutCell([OutParagraph([run])])]]))])
  {
    var pm := ParaRecord(None, text, [rm]);
    var cm := CellRecord([pm]);
    var row := RowRecord(1, [cm]);
    var tm := TableRecord(1, [row]);
    MapResultSingle((r: RunRecord) => TableRun(v, r, processor), rm);
    MapResultSingle((p: ParaRecord) => CellParagraph(v, p, processor), pm);
    assert row.cells[..Min(|row.cells|, 1)] == [cm];
    MapResultSingle((c: CellRecord) => RecreatedCell(v, c, processor), cm);
    assert NewRow(1)[1..] == [];
    MapResultSingle((r: RowRecord) => RecreatedRow(v, 1, r, processor), row);
    MapResultSingle((t: TableRecord) => RecreatedTable(v, t, processor), tm);
    assert Columns(tm) == 1;
    match TableRun(v, rm, processor)
    case Err(e) =>
    case Ok(run) =>
      var c := OutCell([OutParagraph([run])]);
      var t := OutTable(1, [[c]]);
      assert CellParagraph(v, pm, processor) == Ok(OutParagraph([run]));
      assert RecreatedCell(v, cm, processor) == Ok(c);
      assert [c] + NewRow(1)[1..] == [c];
      assert RecreatedRow(v, 1, row, processor) == Ok([c]);
      assert RecreatedTable(v, tm, processor) == Ok(t);
      assert Map((x: OutTable) => TableItem(x), [t]) == [TableItem(t)];
      assert ParaItems([], processor) == Ok([]);
      assert Map(PictureOf, []) == [];
      assert MapResult((x: TableRecord) => RecreatedTable(v, x, processor), [tm]) == Ok([t]);
      assert RecreatedBody(v, DocxMetadata([], [], [tm]), processor) == Ok([] + [] + [TableItem(t)]);
      assert [] + [] + [TableItem(t)] == [TableItem(t)];
  }

  /** As written, extractor.py raises on a table run without an explicit size: its record holds
      null and `Pt(None)` fails, where file_manipulator.py rebuilds the same sidecar. */
  lemma ExtractorUnsizedTableRunRaises(folder: string, meta: DocxMetadata)
    requires IsDocxMetadata(OneCellDoc("x", None, Some(Rgb(0, 0, 0))), folder, meta)
    ensures RecreatedBody(Extractor, meta, None) == Err(PtOfNone)
    ensures RecreatedBody(Manipulator, meta, None).Ok?
  {
    var rm := RunRecordOf(Run("x", None, None, None, None, None, Some(Rgb(0, 0, 0))));
    OneCellRecords("x", None, Some(Rgb(0, 0, 0)), folder, meta);
    OneCellRebuild(Extractor, rm, "x", None);
    OneCellRebuild(Manipulator, rm, "x", None);
  }

  /** As written, extractor.py also raises on a sized table run without an explicit colour: its
      record holds null and `RGBColor(*None)` fails, where file_manipulator.py rebuilds it. */
  lemma ExtractorUncolouredTableRunRaises(folder: string, meta: DocxMetadata)
    requires IsDocxMetadata(OneCellDoc("x", Some(12.0), None), folder, meta)
    ensures RecreatedBody(Extractor, meta, None) == Err(RgbOfNone)
    ensures RecreatedBody(Manipulator, meta, None).Ok?
  {
    var rm := RunRecordOf(Run("x", None, None, None, None, Some(12.0), None));
    OneCellRecords("x", Some(12.0), None, folder, meta);
    OneCellRebuild(Extractor, rm, "x", None);
    OneCellRebuild(Manipulator, rm, "x", None);
  }

  /** As written, extractor.py leaves table text as recorded: upper-casing a document with the
      table run "a" (size and colour set, so nothing raises) keeps "a" in the table, where
      file_manipulator.py writes "A". */
  lemma ExtractorUppercaseSkipsTables(folder: string, meta: DocxMetadata)
    requires IsDocxMetadata(OneCellDoc("a", Some(12.0), Some(Rgb(0, 0, 0))), folder, meta)
    ensures RecreatedBody(Extractor, meta, Some(Upper)).Ok?
    ensures RecreatedBody(Manipulator, meta, Some(Upper)).Ok?
    ensures RecreatedBody(Extractor, meta, Some(Upper)).value[0].table.rows[0][0].paragraphs[0].runs[0].text == "a"
    ensures RecreatedBody(Manipulator, meta, Some(Upper)).value[0].table.rows[0][0].paragraphs[0].runs[0].text == "A"
  {
    var rm := RunRecordOf(Run("a", None, None, None, None, Some(12.0), Some(Rgb(0, 0, 0))));
    OneCellRecords("a", Some(12.0), Some(Rgb(0, 0, 0)), folder, meta);
    OneCellRebuild(Extractor, rm, "a", Some(Upper));
    OneCellRebuild(Manipulator, rm, "a", Some(Upper));
    assert Upper("a") == "A";
  }
}
