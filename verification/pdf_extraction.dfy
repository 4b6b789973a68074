/** `extract_text_images_from_pdf` (file_manipulator.py:52-110; extractor.py:14-69 is the same code
    with the folder creation and the JSON write inlined): one page record per page, holding the
    styled spans of the page's text blocks and one record per image. */
module PdfExtraction {
  import opened Wrappers
  import opened Seqs
  import opened Strings
  import opened SpanStyle
  import opened PdfModel
  import opened Sidecar

  /** `block["lines"]` on a text block without that key raises KeyError. */
  datatype ExtractError = MissingKey(key: string)

  /** A block the extraction can read: a text block (type 0) must carry "lines". */
  predicate ReadableBlock(b: Block)
  {
    b.blockType == 0 ==> b.lines.Some?
  }

  predicate ReadablePage(p: Page)
  {
    forall j :: 0 <= j < |p.blocks| ==> ReadableBlock(p.blocks[j])
  }

  /** The spans a block contributes: those of every line of a text block, nothing otherwise. */
  function BlockSpans(b: Block): seq<Span>
  {
    if b.blockType == 0 && b.lines.Some? then LineSpans(b.lines.value) else []
  }

  /** The spans of all text blocks of a page, block by block. */
  function TextSpans(blocks: seq<Block>): seq<Span>
  {
    if blocks == [] then [] else TextSpans(blocks[..|blocks| - 1]) + BlockSpans(blocks[|blocks| - 1])
  }

  lemma TextSpansSnoc(blocks: seq<Block>, k: nat)
    requires k < |blocks|
    ensures TextSpans(blocks[..k + 1]) == TextSpans(blocks[..k]) + BlockSpans(blocks[k])
  {
    assert blocks[..k + 1][..k] == blocks[..k];
  }

  lemma TextSpansUnfold(blocks: seq<Block>)
    requires blocks != []
    ensures TextSpans(blocks) == TextSpans(blocks[..|blocks| - 1]) + BlockSpans(blocks[|blocks| - 1])
  {
  }

  /** Text of the page is the concatenation of the text of its parts, in order. */
  lemma {:induction false} TextSpansAppend(a: seq<Block>, b: seq<Block>)
    ensures TextSpans(a + b) == TextSpans(a) + TextSpans(b)
    decreases |b|
  {
    if b == [] {
      assert a + b == a;
    } else {
      var init, last := b[..|b| - 1], b[|b| - 1];
      var ab := a + b;
      assert ab[..|ab| - 1] == a + init;
      assert ab[|ab| - 1] == last;
      calc {
        TextSpans(ab);
      == { TextSpansUnfold(ab); }
        TextSpans(a + init) + BlockSpans(last);
      == { TextSpansAppend(a, init); }
        (TextSpans(a) + TextSpans(init)) + BlockSpans(last);
      == { assert (TextSpans(a) + TextSpans(init)) + BlockSpans(last) == TextSpans(a) + (TextSpans(init) + BlockSpans(last)); }
        TextSpans(a) + (TextSpans(init) + BlockSpans(last));
      == { TextSpansUnfold(b); }
        TextSpans(a) + TextSpans(b);
      }
    }
  }

  /** Blocks that are not text blocks contribute nothing. */
  lemma NonTextBlockIgnored(a: seq<Block>, b: Block, c: seq<Block>)
    requires b.blockType != 0
    ensures TextSpans(a + [b] + c) == TextSpans(a + c)
  {
    assert TextSpans([b]) == [] by {
      assert [b][..0] == [];
    }
    TextSpansAppend(a, [b]);
    TextSpansAppend(a + [b], c);
    TextSpansAppend(a, c);
  }

  /** The record of one span: its style copied, bold and italic decoded from flags and font. */
  function SpanMeta(s: Span): TextMeta
  {
    TextMeta(s.text, s.size, s.color, s.font, s.bbox, IsBold(s.flags, s.font), IsItalic(s.flags, s.font))
  }

  /** `f"page_{page_num + 1}_image_{img_index + 1}.{image_ext}"`. */
  function ImageFileName(pageIndex: nat, imageIndex: nat, ext: string): string
  {
    "page_" + (Decimal(pageIndex + 1) + ("_image_" + (Decimal(imageIndex + 1) + ("." + ext))))
  }

  function ImageRecord(folder: string, pageIndex: nat, imageIndex: nat, img: PageImage): ImageMeta
  {
    ImageMeta(imageIndex, JoinPath(folder, ImageFileName(pageIndex, imageIndex, img.ext)), img.ext)
  }

  /** Two images of an extraction share a file name only if they are the same image of the same
      page, so no image file overwrites another. */
  lemma ImageFileNameInjective(p1: nat, i1: nat, e1: string, p2: nat, i2: nat, e2: string)
    requires ImageFileName(p1, i1, e1) == ImageFileName(p2, i2, e2)
    ensures p1 == p2 && i1 == i2 && e1 == e2
  {
    var x1 := "_image_" + (Decimal(i1 + 1) + ("." + e1));
    var x2 := "_image_" + (Decimal(i2 + 1) + ("." + e2));
    NumberedNameInjective("page_", p1 + 1, x1, p2 + 1, x2);
    NumberedNameInjective("_image_", i1 + 1, "." + e1, i2 + 1, "." + e2);
    StripPrefix(".", e1, e2);
  }

  /** A fixed prefix, a number, then text starting with a non-digit: the number and the text can be
      read back. */
  lemma NumberedNameInjective(prefix: string, n1: nat, x1: string, n2: nat, x2: string)
    requires x1 != [] && !IsDigit(x1[0]) && x2 != [] && !IsDigit(x2[0])
    requires prefix + (Decimal(n1) + x1) == prefix + (Decimal(n2) + x2)
    ensures n1 == n2 && x1 == x2
  {
    StripPrefix(prefix, Decimal(n1) + x1, Decimal(n2) + x2);
    DigitRunSplit(Decimal(n1), x1, Decimal(n2), x2);
    DecimalInjective(n1, n2);
  }

  lemma StripPrefix(p: string, x: string, y: string)
    requires p + x == p + y
    ensures x == y
  {
    assert x == (p + x)[|p|..];
    assert y == (p + y)[|p|..];
  }

  /** Distinct images get distinct paths inside the output folder. */
  lemma ImagePathsDistinct(folder: string, p1: nat, i1: nat, g1: PageImage, p2: nat, i2: nat, g2: PageImage)
    requires ImageRecord(folder, p1, i1, g1).path == ImageRecord(folder, p2, i2, g2).path
    ensures p1 == p2 && i1 == i2 && g1 == g2
  {
    JoinPathInjective(folder, ImageFileName(p1, i1, g1.ext), ImageFileName(p2, i2, g2.ext));
    ImageFileNameInjective(p1, i1, g1.ext, p2, i2, g2.ext);
  }

  /** `m` is the record extraction writes for page `page` at 0-based position `k`: numbered k + 1,
      listing the records of the spans of the page's text blocks in order, and giving the i-th
      image index i and the file name of image i + 1 of page k + 1. */
  predicate IsPageRecord(folder: string, k: nat, page: Page, m: PageMeta)
  {
    && m.pageNum == k + 1
    && m.textInstances == Map(SpanMeta, TextSpans(page.blocks))
    && |m.images| == |page.images|
    && (forall i :: 0 <= i < |page.images| ==> m.images[i] == ImageRecord(folder, k, i, page.images[i]))
  }

  /** The page records of the whole document: one per page, in order, or the KeyError raised by a
      text block without "lines". */
  method ExtractTextImagesFromPdf(doc: seq<Page>, outputFolder: string)
    returns (res: Result<seq<PageMeta>, ExtractError>)
    ensures res.Ok? <==> forall k :: 0 <= k < |doc| ==> ReadablePage(doc[k])
    ensures res.Ok? ==> |res.value| == |doc|
    ensures res.Ok? ==> forall k :: 0 <= k < |doc| ==> IsPageRecord(outputFolder, k, doc[k], res.value[k])
  {
    var pages: seq<PageMeta> := [];
    for pageNum := 0 to |doc|
      invariant |pages| == pageNum
      invariant forall k :: 0 <= k < pageNum ==> ReadablePage(doc[k])
      invariant forall k :: 0 <= k < pageNum ==> IsPageRecord(outputFolder, k, doc[k], pages[k])
    {
      var page := doc[pageNum];
      var textMetadata, ok := ExtractPageText(page.blocks);
      if !ok {
        return Err(MissingKey("lines"));
      }
      var imageMetadata := ExtractPageImages(outputFolder, pageNum, page.images);
      var record := PageMeta(pageNum + 1, textMetadata, imageMetadata);
      assert IsPageRecord(outputFolder, pageNum, page, record);
      pages := pages + [record];
    }
    return Ok(pages);
  }

  /** The `image_metadata` loop of page `pageNum`: one record per image, in order. */
  method ExtractPageImages(outputFolder: string, pageNum: nat, images: seq<PageImage>)
    returns (imageMetadata: seq<ImageMeta>)
    ensures |imageMetadata| == |images|
    ensures forall i :: 0 <= i < |images| ==> imageMetadata[i] == ImageRecord(outputFolder, pageNum, i, images[i])
  {
    imageMetadata := [];
    for imgIndex := 0 to |images|
      invariant |imageMetadata| == imgIndex
      invariant forall i :: 0 <= i < imgIndex ==>
        imageMetadata[i] == ImageRecord(outputFolder, pageNum, i, images[i])
    {
      var ext := images[imgIndex].ext;
      var imagePath := JoinPath(outputFolder, ImageFileName(pageNum, imgIndex, ext));
      imageMetadata := imageMetadata + [ImageMeta(imgIndex, imagePath, ext)];
    }
  }

  /** The `text_metadata` loop of one page: the records of the spans of every line of every
      text block, in order; `ok` is false when a text block has no "lines". */
  method ExtractPageText(blocks: seq<Block>) returns (textMetadata: seq<TextMeta>, ok: bool)
    ensures ok <==> ReadablePage(Page(blocks, []))
    ensures ok ==> textMetadata == Map(SpanMeta, TextSpans(blocks))
  {
    textMetadata := [];
    for bi := 0 to |blocks|
      invariant forall j :: 0 <= j < bi ==> ReadableBlock(blocks[j])
      invariant textMetadata == Map(SpanMeta, TextSpans(blocks[..bi]))
    {
      TextSpansSnoc(blocks, bi);
      var readable;
      textMetadata, readable := AppendBlockRecords(textMetadata, TextSpans(blocks[..bi]), blocks[bi]);
      if !readable {
        assert !ReadableBlock(Page(blocks, []).blocks[bi]);
        return textMetadata, false;
      }
    }
    assert blocks[..|blocks|] == blocks;
    assert Page(blocks, []).blocks == blocks;
    ok := true;
  }

  /** One block of the page loop: a text block's line records, nothing for other blocks, and
      failure for a text block without lines. */
  method AppendBlockRecords(textMetadata: seq<TextMeta>, ghost spansSoFar: seq<Span>, block: Block)
    returns (extended: seq<TextMeta>, readable: bool)
    requires textMetadata == Map(SpanMeta, spansSoFar)
    ensures readable <==> ReadableBlock(block)
    ensures readable ==> extended == Map(SpanMeta, spansSoFar + BlockSpans(block))
  {
    extended, readable := textMetadata, true;
    if block.blockType == 0 {
      if block.lines.None? {
        return extended, false;
      }
      extended := AppendLineRecords(textMetadata, spansSoFar, block.lines.value);
    } else {
      assert spansSoFar + BlockSpans(block) == spansSoFar;
    }
  }

  /** The loop over the lines of one text block. */
  method AppendLineRecords(textMetadata: seq<TextMeta>, ghost spansSoFar: seq<Span>, lines: seq<Line>)
    returns (extended: seq<TextMeta>)
    requires textMetadata == Map(SpanMeta, spansSoFar)
    ensures extended == Map(SpanMeta, spansSoFar + LineSpans(lines))
  {
    extended := textMetadata;
    for li := 0 to |lines|
      invariant extended == Map(SpanMeta, spansSoFar + LineSpans(lines[..li]))
    {
      LineSpansSnoc(lines, li);
      extended := AppendSpanRecords(extended, spansSoFar + LineSpans(lines[..li]), lines[li].spans);
      assert spansSoFar + LineSpans(lines[..li]) + lines[li].spans == spansSoFar + LineSpans(lines[..li + 1]);
    }
    assert lines[..|lines|] == lines;
  }

  /** The innermost loop, over the spans of one line: appends one record per span, in order. */
  method AppendSpanRecords(textMetadata: seq<TextMeta>, ghost spansSoFar: seq<Span>, spans: seq<Span>)
    returns (extended: seq<TextMeta>)
    requires textMetadata == Map(SpanMeta, spansSoFar)
    ensures extended == Map(SpanMeta, spansSoFar + spans)
  {
    extended := textMetadata;
    for si := 0 to |spans|
      invariant extended == Map(SpanMeta, spansSoFar + spans[..si])
    {
      assert spansSoFar + spans[..si + 1] == (spansSoFar + spans[..si]) + [spans[si]];
      MapSnoc(SpanMeta, spansSoFar + spans[..si], spans[si]);
      extended := extended + [SpanMeta(spans[si])];
    }
    assert spans[..|spans|] == spans;
  }
}
