/** `build_docx_tree` (tree_docx.py:18-59): a "document" root holding one "paragraph" node per
    paragraph, each holding one "run" node per run, followed by a single "images" node that is
    looked up again, or created, for every image relationship. */
module DocxTreeBuilder {
  import opened Wrappers
  import opened Seqs
  import opened Strings
  import opened Colour
  import opened DocxModel
  import opened DocxExtraction
  import opened PdfExtraction
  import opened DocTree

  // ---- the value the builder produces ----

  function BoolOrNone(b: Option<bool>): Value
  {
    match b
    case None => NoneValue
    case Some(x) => BoolValue(x)
  }

  function StrOrNone(s: Option<string>): Value
  {
    match s
    case None => NoneValue
    case Some(x) => StrValue(x)
  }

  /** `run.font.size.pt if run.font.size else None`: a zero size is falsy too. */
  function PointsOrNone(size: Option<real>): Value
  {
    if size.Some? && size.value != 0.0 then RealValue(size.value) else NoneValue
  }

  /** `run.font.color.rgb if run.font.color and run.font.color.rgb else None`; an RGBColor is a
      non-empty tuple, so any colour that is set is kept. */
  function RgbOrNone(c: Option<Rgb>): Value
  {
    match c
    case None => NoneValue
    case Some(x) => RgbValue(x)
  }

  /** The attribute dict of a run node, in the order the source writes its keys. */
  function RunAttributes(run: Run): seq<Attr>
  {
    [Attr("bold", BoolOrNone(run.bold)), Attr("italic", BoolOrNone(run.italic)),
     Attr("underline", BoolOrNone(run.underline)), Attr("font_name", StrOrNone(run.fontName)),
     Attr("font_size", PointsOrNone(run.fontSize)), Attr("text_color", RgbOrNone(run.color))]
  }

  function RunTree(run: Run): Tree
  {
    Tree("run", Some(run.text), RunAttributes(run), [])
  }

  function ParagraphTree(p: Paragraph): Tree
  {
    Tree("paragraph", None, [], Map(RunTree, p.runs))
  }

  /** `os.path.join("./img", f"image{image_count}.png")` */
  function DocxImagePath(k: nat): string
  {
    JoinPath("./img", "image" + (Decimal(k) + ".png"))
  }

  function ImageTree(path: string): Tree
  {
    Tree("image", Some(path), [], [])
  }

  /** The image nodes for the first `n` image relationships. */
  function ImageTrees(n: nat): (ts: seq<Tree>)
    ensures |ts| == n
  {
    if n == 0 then [] else ImageTrees(n - 1) + [ImageTree(DocxImagePath(n - 1))]
  }

  /** The `k`-th image node is named after `k`. */
  lemma {:induction false} ImageTreesAt(n: nat)
    ensures forall k :: 0 <= k < n ==> ImageTrees(n)[k] == ImageTree(DocxImagePath(k))
  {
    if n > 0 {
      ImageTreesAt(n - 1);
      var ts, init := ImageTrees(n), ImageTrees(n - 1);
      assert ts == init + [ImageTree(DocxImagePath(n - 1))];
      forall k | 0 <= k < n
        ensures ts[k] == ImageTree(DocxImagePath(k))
      {
        if k < n - 1 {
          assert ts[k] == init[k];
        }
      }
    }
  }

  /** The "images" node after `n` image relationships: absent while `n` is 0. */
  function ImagesGroup(n: nat): (ts: seq<Tree>)
    ensures |ts| <= 1
  {
    if n == 0 then [] else [Tree("images", None, [], ImageTrees(n))]
  }

  function DocxTree(doc: Document): Tree
  {
    Tree("document", None, [], Map(ParagraphTree, doc.paragraphs) + ImagesGroup(|ImageRels(doc.rels)|))
  }

  // ---- what the tree looks like ----

  /** The root is a "document" node whose first children are the paragraphs in order, each
      holding its runs in order with the run text as content. */
  lemma DocxTreeParagraphs(doc: Document)
    ensures var t := DocxTree(doc);
      && t.kind == "document"
      && |doc.paragraphs| <= |t.children|
      && forall k :: 0 <= k < |doc.paragraphs| ==>
           && t.children[k].kind == "paragraph"
           && |t.children[k].children| == |doc.paragraphs[k].runs|
           && forall r :: 0 <= r < |doc.paragraphs[k].runs| ==>
                && t.children[k].children[r].kind == "run"
                && t.children[k].children[r].content == Some(doc.paragraphs[k].runs[r].text)
  {
  }

  /** The root has at most one "images" child; it has one exactly when some relationship's
      target contains "image", and then it comes right after the paragraphs, last. */
  lemma {:induction false} DocxTreeImagesNode(doc: Document)
    ensures var t := DocxTree(doc);
      var n := |ImageRels(doc.rels)|;
      && (forall j1, j2 :: 0 <= j1 < j2 < |t.children| ==>
            !(t.children[j1].kind == "images" && t.children[j2].kind == "images"))
      && ((exists j :: 0 <= j < |t.children| && t.children[j].kind == "images") <==>
            (exists r :: r in doc.rels && Contains("image", r.targetRef)))
      && (n > 0 ==> |t.children| == |doc.paragraphs| + 1 && t.children[|doc.paragraphs|].kind == "images")
      && (n == 0 ==> |t.children| == |doc.paragraphs|)
  {
    var t := DocxTree(doc);
    var p := |doc.paragraphs|;
    var n := |ImageRels(doc.rels)|;
    var ps := Map(ParagraphTree, doc.paragraphs);
    assert t.children == ps + ImagesGroup(n);
    assert forall j :: 0 <= j < p ==> t.children[j] == ps[j];
    ImageRelsExactly(doc.rels);
    if n > 0 {
      var r := ImageRels(doc.rels)[0];
      assert r in ImageRels(doc.rels);
      assert t.children[p].kind == "images";
    }
  }

  /** The "images" child holds one "image" node per image relationship, in order, the `k`-th
      (from 0) with path "./img/image{k}.png". */
  lemma DocxTreeImagePaths(doc: Document)
    ensures var t := DocxTree(doc);
      var n := |ImageRels(doc.rels)|;
      var p := |doc.paragraphs|;
      n > 0 ==>
        && |t.children| == p + 1
        && |t.children[p].children| == n
        && forall k :: 0 <= k < n ==> t.children[p].children[k] == ImageTree(DocxImagePath(k))
  {
    var t := DocxTree(doc);
    var n := |ImageRels(doc.rels)|;
    var p := |doc.paragraphs|;
    if n > 0 {
      var ps := Map(ParagraphTree, doc.paragraphs);
      assert t.children == ps + [Tree("images", None, [], ImageTrees(n))];
      AppendIndex(ps, [Tree("images", None, [], ImageTrees(n))], 0);
      ImageTreesAt(n);
    }
  }

  /** Distinct image nodes get distinct paths. */
  lemma DocxImagePathsDistinct(k1: nat, k2: nat)
    requires DocxImagePath(k1) == DocxImagePath(k2)
    ensures k1 == k2
  {
    JoinPathInjective("./img", "image" + (Decimal(k1) + ".png"), "image" + (Decimal(k2) + ".png"));
    NumberedNameInjective("image", k1, ".png", k2, ".png");
  }

  // ---- the builder ----

  /** The "paragraph" node of one paragraph: `para_node.add_child(run_node)` for every run. */
  method BuildParagraphNode(p: Paragraph, ghost outside: object) returns (node: TreeNode)
    ensures node.Valid() && outside !in node.Repr
    ensures node.model == ParagraphTree(p)
  {
    node := new TreeNode("paragraph", None, None);
    for i := 0 to |p.runs|
      invariant node.Valid() && outside !in node.Repr
      invariant node.model == Tree("paragraph", None, [], Map(RunTree, p.runs[..i]))
    {
      var run := p.runs[i];
      var runNode := new TreeNode("run", Some(run.text), Some(RunAttributes(run)));
      node.AddChild(runNode);
      MapSnoc(RunTree, p.runs[..i], run);
      assert p.runs[..i + 1] == p.runs[..i] + [run];
    }
    assert p.runs[..|p.runs|] == p.runs;
  }

  /** `for para in doc.paragraphs: ... root.add_child(para_node)` */
  method AddParagraphNodes(root: TreeNode, paragraphs: seq<Paragraph>)
    requires root.Valid()
    modifies root
    ensures root.Valid()
    ensures |old(root.children)| <= |root.children| && root.children[..|old(root.children)|] == old(root.children)
    ensures root.model == old(root.model).(children := old(root.model).children + Map(ParagraphTree, paragraphs))
  {
    for i := 0 to |paragraphs|
      invariant root.Valid()
      invariant |old(root.children)| <= |root.children| && root.children[..|old(root.children)|] == old(root.children)
      invariant root.model == old(root.model).(children := old(root.model).children + Map(ParagraphTree, paragraphs[..i]))
    {
      var node := BuildParagraphNode(paragraphs[i], root);
      root.AddChild(node);
      MapSnoc(ParagraphTree, paragraphs[..i], paragraphs[i]);
      assert paragraphs[..i + 1] == paragraphs[..i] + [paragraphs[i]];
    }
    assert paragraphs[..|paragraphs|] == paragraphs;
  }

  /** The root after the paragraph loop and `imageCount` image relationships; a single name for
      the facts below, so that the loops over relationships carry one invariant. */
  ghost predicate ImagesStage(root: TreeNode, base: Tree, imageCount: nat)
    reads root, root.Repr
  {
    ImagesStageFacts(root, base, imageCount)
  }

  /** The facts of `ImagesStage`: the children of `base` (none of them an "images" node), then
      the "images" node, if any, which shares no object with the children before it. */
  ghost predicate ImagesStageFacts(root: TreeNode, base: Tree, imageCount: nat)
    reads root, root.Repr
  {
    var p := |base.children|;
    && root.Valid()
    && |root.children| == p + (if imageCount == 0 then 0 else 1)
    && root.model == base.(children := base.children + ImagesGroup(imageCount))
    && (forall j :: 0 <= j < p ==> base.children[j].kind != "images")
    && (imageCount > 0 ==> forall j :: 0 <= j < p ==> root.children[p] !in root.children[j].Repr)
  }

  /** Before the relationship loop, the root is at stage 0 over its own model. */
  lemma ImagesStageStart(root: TreeNode)
    requires root.Valid()
    requires forall j :: 0 <= j < |root.model.children| ==> root.model.children[j].kind != "images"
    ensures ImagesStage(root, root.model, 0)
  {
    assert root.model.children + [] == root.model.children;
  }

  /** `images_node = next((child for child in root.children if child.type == "images"), None)`,
      and when there is none, a new "images" node added at the end of the root. */
  method ImagesNode(root: TreeNode, ghost base: Tree, imageCount: nat) returns (imagesNode: TreeNode)
    requires ImagesStage(root, base, imageCount)
    modifies root
    ensures root.Valid()
    ensures |root.children| == |base.children| + 1 && root.children[|base.children|] == imagesNode
    ensures root.children[..|base.children|] == old(root.children[..|base.children|])
    ensures root.model == base.(children := base.children + [Tree("images", None, [], ImageTrees(imageCount))])
    ensures imageCount == 0 ==> fresh(imagesNode)
    ensures imageCount > 0 ==> imagesNode == old(root.children[|base.children|])
    ensures forall j :: 0 <= j < |base.children| ==> imagesNode !in root.children[j].Repr
  {
    ghost var p := |base.children|;
    root.ChildKinds();
    assert imageCount > 0 ==> root.children[p].kind == "images";
    var found, m := root.FindChild("images");
    if found == null {
      imagesNode := new TreeNode("images", None, None);
      root.AddChild(imagesNode);
    } else {
      assert m == p;
      imagesNode := found;
    }
  }

  /** Appending image `c` to the "images" node that ends the children of `base`. */
  lemma ImagesGroupStep(base: Tree, c: nat)
    ensures var m := base.(children := base.children + [Tree("images", None, [], ImageTrees(c))]);
      var p := |base.children|;
      m.(children := m.children[p := m.children[p].(children := m.children[p].children + [ImageTree(DocxImagePath(c))])])
        == base.(children := base.children + ImagesGroup(c + 1))
  {
  }

  /** One image relationship: the "image" node is made and added to the "images" child. */
  method AddImageNode(root: TreeNode, ghost base: Tree, imageCount: nat)
    requires ImagesStage(root, base, imageCount)
    modifies root, if imageCount > 0 then {root.children[|base.children|]} else {}
    ensures ImagesStage(root, base, imageCount + 1)
    ensures imageCount == 0 ==> fresh(root.children[|base.children|])
    ensures imageCount > 0 ==> root.children[|base.children|] == old(root.children[|base.children|])
  {
    ghost var p := |base.children|;
    var imagesNode := ImagesNode(root, base, imageCount);
    var imagePath := DocxImagePath(imageCount);
    var imageNode := new TreeNode("image", Some(imagePath), None);
    root.AddToChild(imagesNode, p, imageNode);
    ImagesGroupStep(base, imageCount);
  }

  /** The body of the relationship loop for relationship `i`. An image relationship whose target
      is external has a string as `rel._target`, so reading `.blob` raises before any node is
      made: `ok` is false and the root is left as it was. */
  method AddImageRel(root: TreeNode, ghost base: Tree, rels: seq<Rel>, i: nat, imageCount: nat)
    returns (newCount: nat, ok: bool)
    requires i < |rels| && imageCount == |ImageRels(rels[..i])|
    requires ImagesStage(root, base, imageCount)
    modifies root, if imageCount > 0 then {root.children[|base.children|]} else {}
    ensures ok <==> !(Contains("image", rels[i].targetRef) && rels[i].external)
    ensures newCount == if ok then |ImageRels(rels[..i + 1])| else imageCount
    ensures imageCount <= newCount && ImagesStage(root, base, newCount)
    ensures imageCount == 0 < newCount ==> fresh(root.children[|base.children|])
    ensures 0 < imageCount ==> root.children[|base.children|] == old(root.children[|base.children|])
  {
    ImageRelsSnoc(rels, i);
    newCount := imageCount;
    ok := true;
    if Contains("image", rels[i].targetRef) {
      if rels[i].external {
        return imageCount, false;
      }
      AddImageNode(root, base, imageCount);
      newCount := imageCount + 1;
    }
  }

  /** `for rel in doc.part.rels.values(): if "image" in rel.target_ref: ...`, counting the image
      relationships in `image_count`; it stops (`ok` false) at the first external image target. */
  method AddImageNodes(root: TreeNode, ghost base: Tree, rels: seq<Rel>) returns (ok: bool)
    requires ImagesStage(root, base, 0)
    modifies root
    ensures ok <==> ImageTargetsInternal(rels)
    ensures ok ==> ImagesStage(root, base, |ImageRels(rels)|)
  {
    var imageCount := 0;
    for i := 0 to |rels|
      invariant imageCount == |ImageRels(rels[..i])|
      invariant ImagesStage(root, base, imageCount)
      invariant imageCount > 0 ==> fresh(root.children[|base.children|])
      invariant ImageTargetsInternal(rels[..i])
    {
      ImageTargetsSnoc(rels, i);
      imageCount, ok := AddImageRel(root, base, rels, i, imageCount);
      if !ok {
        assert !ImageTargetsInternal(rels) by {
          assert Contains("image", rels[i].targetRef) && rels[i].external;
        }
        return false;
      }
    }
    assert rels[..|rels|] == rels;
    ok := true;
  }

  /** `build_docx_tree(doc)`: the tree `DocxTree(doc)`, unless an image relationship has an
      external target, where the source raises (`ok` false). */
  method BuildDocxTree(doc: Document) returns (root: TreeNode, ok: bool)
    ensures ok <==> ImageTargetsInternal(doc.rels)
    ensures ok ==> root.Valid() && root.model == DocxTree(doc)
  {
    root := new TreeNode("document", None, None);
    AddParagraphNodes(root, doc.paragraphs);
    assert [] + Map(ParagraphTree, doc.paragraphs) == Map(ParagraphTree, doc.paragraphs);
    ImagesStageStart(root);
    ok := AddImageNodes(root, root.model, doc.rels);
  }
}
