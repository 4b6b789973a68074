/** `build_pdf_tree` (tree_docx.py:69-107) past the opening of the file: a "document" root with one
    "page" node per page, numbered from 0, holding a "text" node per span of every block that
    has lines, then an "image" node per image of the page. */
module PdfTreeBuilder {
  import opened Wrappers
  import opened Seqs
  import opened Strings
  import opened Colour
  import opened PdfModel
  import opened PdfExtraction
  import opened DocTree

  // ---- the value the builder produces ----

  /** The spans of a block that has "lines"; none for a block without. */
  function LinedBlockSpans(b: Block): seq<Span>
  {
    if b.lines.Some? then LineSpans(b.lines.value) else []
  }

  /** The spans of every block that has "lines", block by block. */
  function LinedSpans(blocks: seq<Block>): seq<Span>
  {
    if blocks == [] then [] else LinedSpans(blocks[..|blocks| - 1]) + LinedBlockSpans(blocks[|blocks| - 1])
  }

  lemma LinedSpansSnoc(blocks: seq<Block>, k: nat)
    requires k < |blocks|
    ensures LinedSpans(blocks[..k + 1]) == LinedSpans(blocks[..k]) + LinedBlockSpans(blocks[k])
  {
    assert blocks[..k + 1][..k] == blocks[..k];
  }

  /** A "text" node: the span text, its font name and size, and its colour as "#rrggbb". */
  function TextTree(s: Span): Tree
  {
    Tree("text", Some(s.text),
         [Attr("font_name", StrValue(s.font)), Attr("font_size", RealValue(s.size)),
          Attr("color", StrValue(ColourHex(s.color)))], [])
  }

  /** `os.path.join("./img", f"page_{page_num}_image_{image_index}.png")`, both counted from 0. */
  function PdfImagePath(k: nat, i: nat): string
  {
    JoinPath("./img", "page_" + (Decimal(k) + ("_image_" + (Decimal(i) + ".png"))))
  }

  /** The image nodes of the first `n` images of page `k`. */
  function PageImageTrees(k: nat, n: nat): (ts: seq<Tree>)
    ensures |ts| == n
  {
    if n == 0 then [] else PageImageTrees(k, n - 1) + [Tree("image", Some(PdfImagePath(k, n - 1)), [], [])]
  }

  /** The `i`-th image node of page `k` is named after `k` and `i`. */
  lemma {:induction false} PageImageTreesAt(k: nat, n: nat)
    ensures forall i :: 0 <= i < n ==> PageImageTrees(k, n)[i] == Tree("image", Some(PdfImagePath(k, i)), [], [])
  {
    if n > 0 {
      PageImageTreesAt(k, n - 1);
      var ts, init := PageImageTrees(k, n), PageImageTrees(k, n - 1);
      assert ts == init + [Tree("image", Some(PdfImagePath(k, n - 1)), [], [])];
      forall i | 0 <= i < n
        ensures ts[i] == Tree("image", Some(PdfImagePath(k, i)), [], [])
      {
        if i < n - 1 {
          assert ts[i] == init[i];
        }
      }
    }
  }

  function PageTree(k: nat, page: Page): Tree
  {
    Tree("page", None, [Attr("number", IntValue(k))],
         Map(TextTree, LinedSpans(page.blocks)) + PageImageTrees(k, |page.images|))
  }

  /** The page nodes of the first `n` pages. */
  function PageTrees(pages: seq<Page>, n: nat): (ts: seq<Tree>)
    requires n <= |pages|
    ensures |ts| == n
    ensures forall k :: 0 <= k < n ==> ts[k] == PageTree(k, pages[k])
  {
    if n == 0 then [] else PageTrees(pages, n - 1) + [PageTree(n - 1, pages[n - 1])]
  }

  lemma PageTreesSnoc(pages: seq<Page>, k: nat)
    requires k < |pages|
    ensures Tree("document", None, [], PageTrees(pages, k)).(children := PageTrees(pages, k) + [PageTree(k, pages[k])])
         == Tree("document", None, [], PageTrees(pages, k + 1))
  {
  }

  function PdfTree(pages: seq<Page>): Tree
  {
    Tree("document", None, [], PageTrees(pages, |pages|))
  }

  // ---- what the tree looks like ----

  /** The root is a "document" node with one "page" node per page, in order, the `k`-th carrying
      the attribute "number" = k. */
  lemma PdfTreePages(pages: seq<Page>)
    ensures var t := PdfTree(pages);
      && t.kind == "document" && |t.children| == |pages|
      && forall k :: 0 <= k < |pages| ==>
           t.children[k].kind == "page" && t.children[k].attributes == [Attr("number", IntValue(k))]
  {
  }

  /** The first children of page `k` are one text node per span of its lined blocks, in order,
      each carrying the span's text, font name, size and colour. */
  lemma PageTreeTexts(k: nat, page: Page)
    ensures var kids := PageTree(k, page).children; var spans := LinedSpans(page.blocks);
      && |kids| == |spans| + |page.images|
      && forall j :: 0 <= j < |spans| ==> kids[j] == TextTree(spans[j])
  {
    var texts := Map(TextTree, LinedSpans(page.blocks));
    var kids := PageTree(k, page).children;
    assert kids == texts + PageImageTrees(k, |page.images|);
    assert forall j :: 0 <= j < |texts| ==> kids[j] == texts[j];
  }

  /** After the text nodes, page `k` has one image node per image, in order, named by the
      0-based page and image numbers. */
  lemma PageTreeImages(k: nat, page: Page)
    ensures var kids := PageTree(k, page).children; var n := |LinedSpans(page.blocks)|;
      && |kids| == n + |page.images|
      && forall i :: 0 <= i < |page.images| ==>
           kids[n + i].kind == "image" && kids[n + i].content == Some(PdfImagePath(k, i))
  {
    var texts := Map(TextTree, LinedSpans(page.blocks));
    var images := PageImageTrees(k, |page.images|);
    var kids := PageTree(k, page).children;
    var n := |LinedSpans(page.blocks)|;
    assert kids == texts + images && |texts| == n;
    PageImageTreesAt(k, |page.images|);
    forall i | 0 <= i < |page.images|
      ensures kids[n + i].kind == "image" && kids[n + i].content == Some(PdfImagePath(k, i))
    {
      AppendIndex(texts, images, i);
    }
  }

  /** On a page whose blocks have "lines" exactly when they are text blocks (type 0), the text
      nodes follow the same spans, in the same order, as the text records of the extraction. */
  lemma {:induction false} LinedSpansAreTextSpans(blocks: seq<Block>)
    requires forall j :: 0 <= j < |blocks| ==> (blocks[j].blockType == 0 <==> blocks[j].lines.Some?)
    ensures LinedSpans(blocks) == TextSpans(blocks)
  {
    if blocks != [] {
      LinedSpansAreTextSpans(blocks[..|blocks| - 1]);
    }
  }

  /** Distinct images get distinct paths. */
  lemma PdfImagePathsDistinct(k1: nat, i1: nat, k2: nat, i2: nat)
    requires PdfImagePath(k1, i1) == PdfImagePath(k2, i2)
    ensures k1 == k2 && i1 == i2
  {
    var x1 := "_image_" + (Decimal(i1) + ".png");
    var x2 := "_image_" + (Decimal(i2) + ".png");
    JoinPathInjective("./img", "page_" + (Decimal(k1) + x1), "page_" + (Decimal(k2) + x2));
    NumberedNameInjective("page_", k1, x1, k2, x2);
    NumberedNameInjective("_image_", i1, ".png", i2, ".png");
  }

  // ---- the builder ----

  /** `node` is a valid node that does not contain `outside` and stands for `base` with the trees
      `added` appended to its children. */
  ghost predicate Grown(node: TreeNode, outside: object, base: Tree, added: seq<Tree>)
    reads node, node.Repr
  {
    node.Valid() && outside !in node.Repr && node.model == base.(children := base.children + added)
  }

  lemma SpansStep(kids: seq<Tree>, done: seq<Tree>, spans: seq<Span>, i: nat)
    requires i < |spans|
    ensures kids + (done + Map(TextTree, spans[..i + 1])) == (kids + (done + Map(TextTree, spans[..i]))) + [TextTree(spans[i])]
  {
    assert spans[..i + 1] == spans[..i] + [spans[i]];
    MapSnoc(TextTree, spans[..i], spans[i]);
  }

  lemma PageImagesStep(kids: seq<Tree>, done: seq<Tree>, k: nat, i: nat)
    ensures kids + (done + PageImageTrees(k, i + 1))
         == (kids + (done + PageImageTrees(k, i))) + [Tree("image", Some(PdfImagePath(k, i)), [], [])]
  {
  }

  lemma PageStep(texts: seq<Tree>, images: seq<Tree>)
    ensures [] + ([] + texts + images) == texts + images
  {
  }

  lemma LinesStep(done: seq<Tree>, lines: seq<Line>, i: nat)
    requires i < |lines|
    ensures done + Map(TextTree, LineSpans(lines[..i + 1]))
         == (done + Map(TextTree, LineSpans(lines[..i]))) + Map(TextTree, lines[i].spans)
  {
    LineSpansSnoc(lines, i);
    MapAppend(TextTree, LineSpans(lines[..i]), lines[i].spans);
  }

  lemma BlocksStep(done: seq<Tree>, blocks: seq<Block>, i: nat)
    requires i < |blocks|
    ensures done + Map(TextTree, LinedSpans(blocks[..i + 1]))
         == (done + Map(TextTree, LinedSpans(blocks[..i]))) + Map(TextTree, LinedBlockSpans(blocks[i]))
  {
    LinedSpansSnoc(blocks, i);
    MapAppend(TextTree, LinedSpans(blocks[..i]), LinedBlockSpans(blocks[i]));
  }

  /** `for span in line["spans"]: ... page_node.add_child(text_node)` */
  method AddSpanNodes(node: TreeNode, ghost outside: object, ghost base: Tree, ghost done: seq<Tree>,
                      spans: seq<Span>)
    requires Grown(node, outside, base, done)
    modifies node
    ensures Grown(node, outside, base, done + Map(TextTree, spans))
  {
    for i := 0 to |spans|
      invariant Grown(node, outside, base, done + Map(TextTree, spans[..i]))
    {
      var span := spans[i];
      var colorHex := ColourHex(span.color);
      var textNode := new TreeNode("text", Some(span.text),
        Some([Attr("font_name", StrValue(span.font)), Attr("font_size", RealValue(span.size)),
              Attr("color", StrValue(colorHex))]));
      node.AddChild(textNode);
      SpansStep(base.children, done, spans, i);
    }
    assert spans[..|spans|] == spans;
  }

  /** `for line in block["lines"]: ...` */
  method AddLineNodes(node: TreeNode, ghost outside: object, ghost base: Tree, ghost done: seq<Tree>,
                      lines: seq<Line>)
    requires Grown(node, outside, base, done)
    modifies node
    ensures Grown(node, outside, base, done + Map(TextTree, LineSpans(lines)))
  {
    for i := 0 to |lines|
      invariant Grown(node, outside, base, done + Map(TextTree, LineSpans(lines[..i])))
    {
      AddSpanNodes(node, outside, base, done + Map(TextTree, LineSpans(lines[..i])), lines[i].spans);
      LinesStep(done, lines, i);
    }
    assert lines[..|lines|] == lines;
  }

  /** `if "lines" in block: ...` */
  method AddBlockNode(node: TreeNode, ghost outside: object, ghost base: Tree, ghost done: seq<Tree>,
                      block: Block)
    requires Grown(node, outside, base, done)
    modifies node
    ensures Grown(node, outside, base, done + Map(TextTree, LinedBlockSpans(block)))
  {
    if block.lines.Some? {
      AddLineNodes(node, outside, base, done, block.lines.value);
    } else {
      assert done + Map(TextTree, []) == done;
    }
  }

  /** `for block in blocks: ...` */
  method AddBlockNodes(node: TreeNode, ghost outside: object, ghost base: Tree, ghost done: seq<Tree>,
                       blocks: seq<Block>)
    requires Grown(node, outside, base, done)
    modifies node
    ensures Grown(node, outside, base, done + Map(TextTree, LinedSpans(blocks)))
  {
    for i := 0 to |blocks|
      invariant Grown(node, outside, base, done + Map(TextTree, LinedSpans(blocks[..i])))
    {
      AddBlockNode(node, outside, base, done + Map(TextTree, LinedSpans(blocks[..i])), blocks[i]);
      BlocksStep(done, blocks, i);
    }
    assert blocks[..|blocks|] == blocks;
  }

  /** `for image_index, img in enumerate(image_list): ... page_node.add_child(image_node)` */
  method AddPageImageNodes(node: TreeNode, ghost outside: object, ghost base: Tree, ghost done: seq<Tree>,
                           pageNum: nat, images: seq<PageImage>)
    requires Grown(node, outside, base, done)
    modifies node
    ensures Grown(node, outside, base, done + PageImageTrees(pageNum, |images|))
  {
    for i := 0 to |images|
      invariant Grown(node, outside, base, done + PageImageTrees(pageNum, i))
    {
      var imagePath := PdfImagePath(pageNum, i);
      var imageNode := new TreeNode("image", Some(imagePath), None);
      node.AddChild(imageNode);
      PageImagesStep(base.children, done, pageNum, i);
    }
  }

  /** The "page" node of page `pageNum`, not containing `outside`. */
  method BuildPageNode(pageNum: nat, page: Page, ghost outside: object) returns (node: TreeNode)
    ensures node.Valid() && outside !in node.Repr
    ensures node.model == PageTree(pageNum, page)
  {
    node := new TreeNode("page", None, Some([Attr("number", IntValue(pageNum))]));
    ghost var base := node.model;
    assert Grown(node, outside, base, []);
    AddBlockNodes(node, outside, base, [], page.blocks);
    AddPageImageNodes(node, outside, base, [] + Map(TextTree, LinedSpans(page.blocks)), pageNum, page.images);
    PageStep(Map(TextTree, LinedSpans(page.blocks)), PageImageTrees(pageNum, |page.images|));
  }

  /** `build_pdf_tree`, given the pages of the converted document: the tree `PdfTree(pages)`. */
  method BuildPdfTree(pages: seq<Page>) returns (root: TreeNode)
    ensures root.Valid()
    ensures root.model == PdfTree(pages)
  {
    root := new TreeNode("document", None, None);
    for k := 0 to |pages|
      invariant Represents(root, Tree("document", None, [], PageTrees(pages, k)))
    {
      var pageNode := BuildPageNode(k, pages[k], root);
      root.AddChild(pageNode);
      PageTreesSnoc(pages, k);
    }
  }
}
