/** The records of the `metadata.json` sidecar that extraction writes and recreation reads.

    A key that recreation reads with `.get(key)` or tests with `key in record` may be absent, hold
    JSON null, or hold a value; `Field` keeps the three apart. Keys read with `record[key]` are
    plain fields: a sidecar without them is not modelled. */
module Sidecar {
  import opened Wrappers
  import opened Colour
  import opened PdfModel

  datatype Field<T> = Absent | Null | Val(value: T)

  /** The field a Python value becomes in the sidecar: None is written as null. */
  function FieldOf<T>(v: Option<T>): Field<T>
  {
    match v
    case None => Null
    case Some(x) => Val(x)
  }

  /** `record.get(key)`: None when the key is absent or null. */
  function Get<T>(f: Field<T>): Option<T>
  {
    if f.Val? then Some(f.value) else None
  }

  /** `record.get(key, False)` for a boolean key. */
  function GetOrFalse(f: Field<bool>): Option<bool>
  {
    match f
    case Absent => Some(false)
    case Null => None
    case Val(b) => Some(b)
  }

  // ---- PDF sidecar: {"pages": [{"page_num", "text_instances", "images"}]} ----

  datatype TextMeta = TextMeta(text: string, fontSize: real, fontColor: int, fontName: string,
                               bbox: BBox, bold: bool, italic: bool)

  datatype ImageMeta = ImageMeta(index: int, path: string, ext: string)

  datatype PageMeta = PageMeta(pageNum: int, textInstances: seq<TextMeta>, images: seq<ImageMeta>)

  // ---- DOCX sidecar: {"paragraphs", "images", "tables"} ----

  /** A run's "text", "bold", "italic", "font_name", "font_size" (points) and "color". */
  datatype RunRecord = RunRecord(text: string, bold: Field<bool>, italic: Field<bool>,
                                 fontName: Field<string>, fontSize: Field<real>, color: Field<Rgb>)

  /** A paragraph's "para_num" (body paragraphs only), "text" and "runs". */
  datatype ParaRecord = ParaRecord(paraNum: Option<int>, text: string, runs: seq<RunRecord>)

  datatype DocxImageRecord = DocxImageRecord(path: string, ext: string)

  datatype CellRecord = CellRecord(paragraphs: seq<ParaRecord>)

  datatype RowRecord = RowRecord(rowNum: int, cells: seq<CellRecord>)

  datatype TableRecord = TableRecord(tableNum: int, rows: seq<RowRecord>)

  datatype DocxMetadata = DocxMetadata(paragraphs: seq<ParaRecord>, images: seq<DocxImageRecord>,
                                       tables: seq<TableRecord>)
}
