/** PyMuPDF's view of a PDF page, as the source reads it from `page.get_text("dict")` and
    `page.get_images(full=True)`: blocks of lines of spans, and a list of images. */
module PdfModel {
  import opened Wrappers

  /** A span's `bbox`; coordinates are floating point and are only copied. */
  datatype BBox = BBox(x0: real, y0: real, x1: real, y1: real)

  /** A span's "text", "size", "color", "font", "flags" and "bbox". */
  datatype Span = Span(text: string, size: real, color: int, font: string, flags: int, bbox: BBox)

  datatype Line = Line(spans: seq<Span>)

  /** A block's "type" and, when the key is present, its "lines". */
  datatype Block = Block(blockType: int, lines: Option<seq<Line>>)

  /** The extension `doc.extract_image(xref)` reports for one image of the page (the bytes are
      written to a file and are not modelled). */
  datatype PageImage = PageImage(ext: string)

  datatype Page = Page(blocks: seq<Block>, images: seq<PageImage>)

  /** The spans of the given lines, line by line and in order within each line. */
  function LineSpans(lines: seq<Line>): seq<Span>
  {
    if lines == [] then [] else LineSpans(lines[..|lines| - 1]) + lines[|lines| - 1].spans
  }

  lemma LineSpansSnoc(lines: seq<Line>, k: nat)
    requires k < |lines|
    ensures LineSpans(lines[..k + 1]) == LineSpans(lines[..k]) + lines[k].spans
  {
    assert lines[..k + 1][..k] == lines[..k];
  }
}
