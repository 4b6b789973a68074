/** `extract_text_images_from_docx` (file_manipulator.py:112-183, extractor.py:71-139): one
    numbered record per body paragraph with one record per run, one record per image
    relationship, and one numbered record per table, row by row and cell by cell. */
module DocxExtraction {
  import opened Wrappers
  import opened Seqs
  import opened Strings
  import opened Colour
  import opened DocxModel
  import opened Sidecar

  /** The record of one run: every key is written, None as null; a size of zero is falsy and is
      written as null too. */
  function RunRecordOf(run: Run): RunRecord
  {
    RunRecord(run.text, FieldOf(run.bold), FieldOf(run.italic), FieldOf(run.fontName),
              if run.fontSize.Some? && run.fontSize.value != 0.0 then Val(run.fontSize.value) else Null,
              FieldOf(run.color))
  }

  /** Reading a run record back with `.get` gives the run's own properties, except that a size of
      zero reads as unset; no key of an extracted record is ever absent. */
  lemma RunRecordReadsBack(run: Run)
    ensures var rec := RunRecordOf(run);
      && rec.text == run.text
      && Get(rec.bold) == run.bold && Get(rec.italic) == run.italic
      && Get(rec.fontName) == run.fontName && Get(rec.color) == run.color
      && Get(rec.fontSize) == (if run.fontSize == Some(0.0) then None else run.fontSize)
      && !rec.bold.Absent? && !rec.italic.Absent? && !rec.fontName.Absent?
      && !rec.fontSize.Absent? && !rec.color.Absent?
  {
  }

  /** The record of body paragraph `k` (0-based). */
  function ParaRecordOf(k: int, p: Paragraph): ParaRecord
  {
    ParaRecord(Some(k + 1), p.text, Map(RunRecordOf, p.runs))
  }

  /** The record of a paragraph inside a table cell: it has no number. */
  function CellParaRecordOf(p: Paragraph): ParaRecord
  {
    ParaRecord(None, p.text, Map(RunRecordOf, p.runs))
  }

  function CellRecordOf(cell: Cell): CellRecord
  {
    CellRecord(Map(CellParaRecordOf, cell.paragraphs))
  }

  function RowRecordOf(k: int, row: Row): RowRecord
  {
    RowRecord(k + 1, Map(CellRecordOf, row.cells))
  }

  function TableRecordOf(k: int, table: Table): TableRecord
  {
    TableRecord(k + 1, seq(|table.rows|, i requires 0 <= i < |table.rows| => RowRecordOf(i, table.rows[i])))
  }

  /** The record of an image relationship: the extension is the content type after its last '/',
      and the file is "image_<last segment of target_ref>.<ext>" in the output folder. */
  function ImageRecordOf(folder: string, rel: Rel): DocxImageRecord
  {
    var ext := AfterLast(rel.contentType, '/');
    DocxImageRecord(JoinPath(folder, "image_" + (AfterLast(rel.targetRef, '/') + ("." + ext))), ext)
  }

  /** The relationships whose target_ref contains "image", in order. */
  function ImageRels(rels: seq<Rel>): (r: seq<Rel>)
    ensures |r| <= |rels|
  {
    if rels == [] then []
    else ImageRels(rels[..|rels| - 1]) + (if Contains("image", rels[|rels| - 1].targetRef) then [rels[|rels| - 1]] else [])
  }

  /** The positions of the relationships whose target_ref contains "image". */
  function ImageIndices(rels: seq<Rel>): set<nat>
  {
    set i: nat | i < |rels| && Contains("image", rels[i].targetRef)
  }

  /** ImageRels keeps exactly the image relationships, one entry per image relationship: each
      one it keeps is one, each one is kept, and it keeps none exactly when there is none. */
  lemma ImageRelsExactly(rels: seq<Rel>)
    ensures forall r :: r in ImageRels(rels) ==> r in rels && Contains("image", r.targetRef)
    ensures forall r :: r in rels && Contains("image", r.targetRef) ==> r in ImageRels(rels)
    ensures |ImageRels(rels)| == |ImageIndices(rels)|
    ensures ImageRels(rels) == [] <==> forall r :: r in rels ==> !Contains("image", r.targetRef)
  {
    ImageRelsMembers(rels);
    ImageRelsCount(rels);
  }

  lemma {:induction false} ImageRelsMembers(rels: seq<Rel>)
    ensures forall r :: r in ImageRels(rels) ==> r in rels && Contains("image", r.targetRef)
    ensures forall r :: r in rels && Contains("image", r.targetRef) ==> r in ImageRels(rels)
  {
    if rels != [] {
      var n := |rels| - 1;
      var init, last := rels[..n], rels[n];
      ImageRelsMembers(init);
      assert rels == init + [last];
      assert forall r :: r in rels <==> r in init || r == last;
    }
  }

  lemma {:induction false} ImageRelsCount(rels: seq<Rel>)
    ensures |ImageRels(rels)| == |ImageIndices(rels)|
  {
    if rels == [] {
      assert ImageIndices(rels) == {};
    } else {
      var n := |rels| - 1;
      var init := rels[..n];
      ImageRelsCount(init);
      assert forall i :: 0 <= i < n ==> init[i] == rels[i];
      if Contains("image", rels[n].targetRef) {
        assert ImageIndices(rels) == ImageIndices(init) + {n};
      } else {
        assert ImageIndices(rels) == ImageIndices(init);
      }
    }
  }

  /** Every image relationship has a target part, so reading `rel.target_part` does not raise. */
  predicate ImageTargetsInternal(rels: seq<Rel>)
  {
    forall i :: 0 <= i < |rels| && Contains("image", rels[i].targetRef) ==> !rels[i].external
  }

  lemma ImageTargetsSnoc(rels: seq<Rel>, k: nat)
    requires k < |rels|
    ensures ImageTargetsInternal(rels[..k + 1]) <==>
      ImageTargetsInternal(rels[..k]) && (Contains("image", rels[k].targetRef) ==> !rels[k].external)
  {
    assert forall i :: 0 <= i < k ==> rels[..k + 1][i] == rels[..k][i];
  }

  lemma ImageRelsSnoc(rels: seq<Rel>, k: nat)
    requires k < |rels|
    ensures ImageRels(rels[..k + 1]) ==
      ImageRels(rels[..k]) + (if Contains("image", rels[k].targetRef) then [rels[k]] else [])
  {
    assert rels[..k + 1][..k] == rels[..k];
  }

  /** An image relationship at `k` counts: fewer image relationships come before it than in all. */
  lemma {:induction false} ImageRelsPrefixCount(rels: seq<Rel>, k: nat)
    requires k < |rels| && Contains("image", rels[k].targetRef)
    ensures |ImageRels(rels[..k])| < |ImageRels(rels)|
  {
    var n := |rels| - 1;
    assert rels[..n + 1] == rels;
    ImageRelsSnoc(rels, n);
    if k < n {
      ImageRelsPrefixCount(rels[..n], k);
      assert rels[..n][..k] == rels[..k];
    }
  }

  /** The image records: one per image relationship, in relationship order. */
  function ImageRecords(folder: string, rels: seq<Rel>): seq<DocxImageRecord>
  {
    Map((rel: Rel) => ImageRecordOf(folder, rel), ImageRels(rels))
  }

  /** A record's path is the output folder joined with a name ending in "." and its extension,
      and the extension holds no '/'. */
  lemma ImageRecordShape(folder: string, rel: Rel)
    ensures var rec := ImageRecordOf(folder, rel);
      && '/' !in rec.ext
      && exists name :: rec.path == JoinPath(folder, "image_" + name + "." + rec.ext)
  {
    var rec := ImageRecordOf(folder, rel);
    var name := AfterLast(rel.targetRef, '/');
    var ext := AfterLast(rel.contentType, '/');
    assert rec.ext == ext;
    assert "image_" + (name + ("." + ext)) == "image_" + name + "." + ext;
    assert rec.path == JoinPath(folder, "image_" + name + "." + ext);
  }

  // ---- the loops ----

  /** `for run in para.runs: para_data["runs"].append(run_data)` */
  method ExtractRunRecords(runs: seq<Run>) returns (records: seq<RunRecord>)
    ensures records == Map(RunRecordOf, runs)
  {
    records := [];
    for i := 0 to |runs|
      invariant records == Map(RunRecordOf, runs[..i])
    {
      var run := runs[i];
      var size := if run.fontSize.Some? && run.fontSize.value != 0.0 then Val(run.fontSize.value) else Null;
      records := records + [RunRecord(run.text, FieldOf(run.bold), FieldOf(run.italic), FieldOf(run.fontName),
                                      size, FieldOf(run.color))];
      assert runs[..i + 1] == runs[..i] + [run];
      MapSnoc(RunRecordOf, runs[..i], run);
    }
    assert runs[..|runs|] == runs;
  }

  /** The body paragraph loop: record k has `para_num` k + 1 and one run record per run. */
  method ExtractParagraphs(paragraphs: seq<Paragraph>) returns (records: seq<ParaRecord>)
    ensures |records| == |paragraphs|
    ensures forall k :: 0 <= k < |paragraphs| ==> records[k] == ParaRecordOf(k, paragraphs[k])
  {
    records := [];
    for k := 0 to |paragraphs|
      invariant |records| == k
      invariant forall j :: 0 <= j < k ==> records[j] == ParaRecordOf(j, paragraphs[j])
    {
      var runs := ExtractRunRecords(paragraphs[k].runs);
      records := records + [ParaRecord(Some(k + 1), paragraphs[k].text, runs)];
    }
  }

  /** The relationship loop: a record for each relationship whose target_ref contains "image";
      it raises at the first such relationship that is external. */
  method ExtractImages(folder: string, rels: seq<Rel>) returns (images: seq<DocxImageRecord>, ok: bool)
    ensures ok <==> ImageTargetsInternal(rels)
    ensures ok ==> images == ImageRecords(folder, rels)
  {
    images := [];
    for k := 0 to |rels|
      invariant images == ImageRecords(folder, rels[..k])
      invariant ImageTargetsInternal(rels[..k])
    {
      var rel := rels[k];
      ImageRelsSnoc(rels, k);
      ImageTargetsSnoc(rels, k);
      if Contains("image", rel.targetRef) {
        if rel.external {
          assert !ImageTargetsInternal(rels) by {
            assert rels[k] == rel;
          }
          return images, false;
        }
        var ext := AfterLast(rel.contentType, '/');
        var path := JoinPath(folder, "image_" + (AfterLast(rel.targetRef, '/') + ("." + ext)));
        images := images + [DocxImageRecord(path, ext)];
        MapSnoc((r: Rel) => ImageRecordOf(folder, r), ImageRels(rels[..k]), rel);
      } else {
        assert ImageRels(rels[..k + 1]) == ImageRels(rels[..k]);
      }
    }
    assert rels[..|rels|] == rels;
    ok := true;
  }

  /** `for para in cell.paragraphs` */
  method ExtractCell(cell: Cell) returns (record: CellRecord)
    ensures record == CellRecordOf(cell)
  {
    var paragraphs := [];
    for k := 0 to |cell.paragraphs|
      invariant paragraphs == Map(CellParaRecordOf, cell.paragraphs[..k])
    {
      var p := cell.paragraphs[k];
      var runs := ExtractRunRecords(p.runs);
      paragraphs := paragraphs + [ParaRecord(None, p.text, runs)];
      assert cell.paragraphs[..k + 1] == cell.paragraphs[..k] + [p];
      MapSnoc(CellParaRecordOf, cell.paragraphs[..k], p);
    }
    assert cell.paragraphs[..|cell.paragraphs|] == cell.paragraphs;
    record := CellRecord(paragraphs);
  }

  /** `for cell in row.cells` */
  method ExtractRow(k: int, row: Row) returns (record: RowRecord)
    ensures record == RowRecordOf(k, row)
  {
    var cells := [];
    for c := 0 to |row.cells|
      invariant cells == Map(CellRecordOf, row.cells[..c])
    {
      var cell := ExtractCell(row.cells[c]);
      assert row.cells[..c + 1] == row.cells[..c] + [row.cells[c]];
      MapSnoc(CellRecordOf, row.cells[..c], row.cells[c]);
      cells := cells + [cell];
    }
    assert row.cells[..|row.cells|] == row.cells;
    record := RowRecord(k + 1, cells);
  }

  /** `for row_num, row in enumerate(table.rows)` */
  method ExtractTable(k: int, table: Table) returns (record: TableRecord)
    ensures record == TableRecordOf(k, table)
  {
    var rows := [];
    for i := 0 to |table.rows|
      invariant |rows| == i
      invariant forall j :: 0 <= j < i ==> rows[j] == RowRecordOf(j, table.rows[j])
    {
      var row := ExtractRow(i, table.rows[i]);
      rows := rows + [row];
    }
    record := TableRecord(k + 1, rows);
  }

  /** `for table_num, table in enumerate(doc.tables)` */
  method ExtractTables(tables: seq<Table>) returns (records: seq<TableRecord>)
    ensures |records| == |tables|
    ensures forall k :: 0 <= k < |tables| ==> records[k] == TableRecordOf(k, tables[k])
  {
    records := [];
    for k := 0 to |tables|
      invariant |records| == k
      invariant forall j :: 0 <= j < k ==> records[j] == TableRecordOf(j, tables[j])
    {
      var table := ExtractTable(k, tables[k]);
      records := records + [table];
    }
  }

  /** `meta` is the sidecar extraction writes for `doc`: numbered paragraph records, one image
      record per image relationship (its file in `outputFolder`), and numbered table records, each
      in document order. Extraction writes one only when no image relationship is external. */
  predicate IsDocxMetadata(doc: Document, outputFolder: string, meta: DocxMetadata)
  {
    && ImageTargetsInternal(doc.rels)
    && |meta.paragraphs| == |doc.paragraphs|
    && (forall k :: 0 <= k < |doc.paragraphs| ==> meta.paragraphs[k] == ParaRecordOf(k, doc.paragraphs[k]))
    && meta.images == ImageRecords(outputFolder, doc.rels)
    && |meta.tables| == |doc.tables|
    && (forall k :: 0 <= k < |doc.tables| ==> meta.tables[k] == TableRecordOf(k, doc.tables[k]))
  }

  /** The whole extraction; it raises, writing no sidecar, when an image relationship is external. */
  method ExtractTextImagesFromDocx(doc: Document, outputFolder: string) returns (meta: DocxMetadata, ok: bool)
    ensures ok <==> ImageTargetsInternal(doc.rels)
    ensures ok ==> IsDocxMetadata(doc, outputFolder, meta)
    ensures ok ==> forall k :: 0 <= k < |doc.paragraphs| ==>
      meta.paragraphs[k].paraNum == Some(k + 1) && meta.paragraphs[k].text == doc.paragraphs[k].text
      && |meta.paragraphs[k].runs| == |doc.paragraphs[k].runs|
  {
    var paragraphs := ExtractParagraphs(doc.paragraphs);
    var images;
    images, ok := ExtractImages(outputFolder, doc.rels);
    if !ok {
      return DocxMetadata(paragraphs, [], []), false;
    }
    var tables := ExtractTables(doc.tables);
    meta := DocxMetadata(paragraphs, images, tables);
  }
}
