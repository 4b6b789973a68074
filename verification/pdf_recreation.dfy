/** `recreate_pdf` (file_manipulator.py:251-279, extractor.py:194-216): one new page per page
    record; each text record is drawn at the top-left corner of its box in its size and colour,
    then each image is placed in a fixed column by its index. */
module PdfRecreation {
  import opened Wrappers
  import opened Seqs
  import opened Colour
  import opened PdfModel
  import opened Sidecar
  import opened Processing
  import opened PdfExtraction

  /** `fitz.Rect(x0, y0, x1, y1)` with integer corners. */
  datatype Rect = Rect(x0: int, y0: int, x1: int, y1: int)

  /** One insertion into a page: `page.insert_text(point, text, fontsize, color)` (the colour as
      its three bytes, before the division by 255) or `page.insert_image(rect, filename)`. */
  datatype Drawing =
    | TextAt(x: real, y: real, text: string, fontSize: real, color: Rgb)
    | ImageIn(rect: Rect, path: string)

  /** The document `fitz.open()` creates: its pages, each the list of what was inserted into it. */
  class PdfWriter {
    var pages: seq<seq<Drawing>>

    constructor ()
      ensures pages == []
    {
      pages := [];
    }

    /** `doc.new_page()` */
    method NewPage()
      modifies this
      ensures pages == old(pages) + [[]]
    {
      pages := pages + [[]];
    }

    /** An insertion into the page created last. */
    method Insert(d: Drawing)
      requires pages != []
      modifies this
      ensures |pages| == |old(pages)|
      ensures pages == old(pages)[..|old(pages)| - 1] + [old(pages)[|old(pages)| - 1] + [d]]
    {
      pages := pages[..|pages| - 1] + [pages[|pages| - 1] + [d]];
    }
  }

  /** `fitz.Rect(72, 72 + index * 200, 300, 400 + index * 200)`. */
  function ImageRect(index: int): Rect
  {
    Rect(72, 72 + index * 200, 300, 400 + index * 200)
  }

  /** Every image gets a 228 by 328 box at x = 72; later indices sit strictly lower on the page,
      200 points apart, so consecutive images overlap by 128 points. */
  lemma ImageRectGeometry(i: int, j: int)
    ensures ImageRect(i).x0 == 72 && ImageRect(i).x1 - ImageRect(i).x0 == 228
    ensures ImageRect(i).y1 - ImageRect(i).y0 == 328
    ensures i < j ==> ImageRect(i).y0 < ImageRect(j).y0
    ensures j == i + 1 ==> ImageRect(i).y1 - ImageRect(j).y0 == 128
  {
  }

  function TextDrawing(tm: TextMeta, processor: Option<string -> string>): Drawing
  {
    TextAt(tm.bbox.x0, tm.bbox.y0, ProcessText(tm.text, processor), tm.fontSize, Split(tm.fontColor))
  }

  function ImageDrawing(im: ImageMeta): Drawing
  {
    ImageIn(ImageRect(im.index), im.path)
  }

  /** What one page record produces: its texts, in order, then its images, in order. */
  function PageDrawings(pm: PageMeta, processor: Option<string -> string>): (ds: seq<Drawing>)
  {
    Map((tm: TextMeta) => TextDrawing(tm, processor), pm.textInstances) + Map(ImageDrawing, pm.images)
  }

  /** Rebuilds the document from the page records: one page per record, in order. */
  method RecreatePdf(meta: seq<PageMeta>, processor: Option<string -> string>) returns (doc: PdfWriter)
    ensures fresh(doc)
    ensures |doc.pages| == |meta|
    ensures forall k :: 0 <= k < |meta| ==> doc.pages[k] == PageDrawings(meta[k], processor)
  {
    doc := new PdfWriter();
    for k := 0 to |meta|
      invariant |doc.pages| == k
      invariant forall p :: 0 <= p < k ==> doc.pages[p] == PageDrawings(meta[p], processor)
    {
      var pageMeta := meta[k];
      doc.NewPage();
      ghost var done := doc.pages[..k];
      for t := 0 to |pageMeta.textInstances|
        invariant |doc.pages| == k + 1 && doc.pages[..k] == done
        invariant doc.pages[k] == Map((tm: TextMeta) => TextDrawing(tm, processor), pageMeta.textInstances[..t])
      {
        var tm := pageMeta.textInstances[t];
        doc.Insert(TextAt(tm.bbox.x0, tm.bbox.y0, ProcessText(tm.text, processor), tm.fontSize, Split(tm.fontColor)));
        assert pageMeta.textInstances[..t + 1] == pageMeta.textInstances[..t] + [tm];
        MapSnoc((tm: TextMeta) => TextDrawing(tm, processor), pageMeta.textInstances[..t], tm);
      }
      assert pageMeta.textInstances[..|pageMeta.textInstances|] == pageMeta.textInstances;
      ghost var texts := doc.pages[k];
      for i := 0 to |pageMeta.images|
        invariant |doc.pages| == k + 1 && doc.pages[..k] == done
        invariant doc.pages[k] == texts + Map(ImageDrawing, pageMeta.images[..i])
      {
        var im := pageMeta.images[i];
        doc.Insert(ImageIn(ImageRect(im.index), im.path));
        assert pageMeta.images[..i + 1] == pageMeta.images[..i] + [im];
        MapSnoc(ImageDrawing, pageMeta.images[..i], im);
      }
      assert pageMeta.images[..|pageMeta.images|] == pageMeta.images;
    }
  }

  /** Extraction followed by recreation: page k of the new document holds, for each span of the
      page's text blocks in order, that span's text (through the processor) at its box's corner in
      its size and in the colour bytes of its colour integer, followed by image i in the i-th box of
      the column with the file extraction wrote for it. */
  lemma {:induction false} ExtractRecreatePage(folder: string, k: nat, page: Page, m: PageMeta,
                                               processor: Option<string -> string>)
    requires IsPageRecord(folder, k, page, m)
    ensures |PageDrawings(m, processor)| == |TextSpans(page.blocks)| + |page.images|
    ensures forall j :: 0 <= j < |TextSpans(page.blocks)| ==>
      var s := TextSpans(page.blocks)[j];
      PageDrawings(m, processor)[j] == TextAt(s.bbox.x0, s.bbox.y0, ProcessText(s.text, processor), s.size, Split(s.color))
    ensures forall i :: 0 <= i < |page.images| ==>
      PageDrawings(m, processor)[|TextSpans(page.blocks)| + i] ==
        ImageIn(ImageRect(i), ImageRecord(folder, k, i, page.images[i]).path)
  {
    var n := |TextSpans(page.blocks)|;
    var ds := PageDrawings(m, processor);
    forall i | 0 <= i < |page.images|
      ensures ds[n + i] == ImageIn(ImageRect(i), ImageRecord(folder, k, i, page.images[i]).path)
    {
      assert ds[n + i] == ImageDrawing(m.images[i]);
    }
  }

  /** The colour drawn for a span with a 24-bit colour is that colour: packing the drawn bytes
      gives back the span's colour integer. */
  lemma RecreatedColourExact(tm: TextMeta, processor: Option<string -> string>)
    requires 0 <= tm.fontColor < Mask24
    ensures Pack(TextDrawing(tm, processor).color) == tm.fontColor
  {
    SplitPack(tm.fontColor);
  }
}
