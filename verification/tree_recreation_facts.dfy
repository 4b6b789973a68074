/** What `recreate_docx_from_tree` makes of the trees the two builders produce, and of any tree:
    the root's document gets one paragraph per "paragraph" node and one picture per "image" node,
    in pre-order, leaving out the subtrees of "document" nodes below the root. */
module TreeRecreationFacts {
  import opened Wrappers
  import opened Seqs
  import opened Colour
  import opened DocxModel
  import opened DocxExtraction
  import opened PdfModel
  import opened DocTree
  import opened DocxTreeBuilder
  import opened PdfTreeBuilder
  import opened TreeRecreation

  // ---- pre-order ----

  /** The kind of a block, with a picture's path. */
  datatype Mark = ParaMark | PictureMark(path: string) | TableMark

  function MarkOf(item: BodyItem): Mark
  {
    match item
    case Para(_) => ParaMark
    case Picture(path, _) => PictureMark(path)
    case TableItem(_) => TableMark
  }

  function Marks(body: seq<BodyItem>): seq<Mark>
  {
    Map(MarkOf, body)
  }

  /** The blocks the nodes of `t` add to the document they are in, in pre-order: a paragraph per
      "paragraph" node, a picture per "image" node; nothing below a "document" node, which writes
      to a document of its own. */
  function Emitted(t: Tree): seq<Mark>
    decreases t
  {
    if t.kind == "document" then [] else OwnMarks(t) + EmittedAll(t.children)
  }

  /** The block a node adds by itself to the document it is in. */
  function OwnMarks(t: Tree): seq<Mark>
  {
    if t.kind == "paragraph" then [ParaMark]
    else if t.kind == "image" && t.content.Some? then [PictureMark(t.content.value)]
    else []
  }

  function EmittedAll(ts: seq<Tree>): seq<Mark>
    decreases ts
  {
    if ts == [] then [] else EmittedAll(ts[..|ts| - 1]) + Emitted(ts[|ts| - 1])
  }

  /** Adding a run to a paragraph changes no block's kind. */
  lemma AddRunAtMarks(body: seq<BodyItem>, k: nat, run: Run)
    requires k < |body| && body[k].Para?
    ensures Marks(AddRunAt(body, k, run)) == Marks(body)
  {
    var r := AddRunAt(body, k, run);
    assert forall j :: 0 <= j < |body| ==> MarkOf(r[j]) == MarkOf(body[j]);
  }

  /** What one node adds by itself. */
  lemma StepMarks(t: Tree, body: seq<BodyItem>, d: DocRef, p: ParaRef)
    requires ParaOk(body, p) && Step(t, body, d, p).Ok?
    ensures var s := Step(t, body, d, p).value;
      && Marks(s.body) == Marks(body) + (if s.d == RootDoc then OwnMarks(t) else [])
      && (s.d == RootDoc <==> d == RootDoc && t.kind != "document")
  {
    var s := Step(t, body, d, p).value;
    if t.kind == "document" {
    } else if t.kind == "paragraph" {
      if d == RootDoc {
        MapAppend(MarkOf, body, [Para(OutParagraph([]))]);
      }
    } else if t.kind == "run" && p != NoPara {
      if p.RootPara? {
        AddRunAtMarks(body, p.index, RunFrom(t.content, t.attributes).value);
      }
    } else if t.kind == "image" {
      if d == RootDoc {
        MapAppend(MarkOf, body, [Picture(t.content.value, None)]);
      }
    }
  }

  /** The document held while visiting `t` gains the blocks of `Emitted(t)`, in that order, and
      only when it is the root's document; every other block keeps its kind. */
  lemma {:induction false} VisitMarks(t: Tree, body: seq<BodyItem>, d: DocRef, p: ParaRef)
    requires ParaOk(body, p) && Visit(t, body, d, p).Ok?
    ensures Marks(Visit(t, body, d, p).value) == Marks(body) + (if d == RootDoc then Emitted(t) else [])
    decreases t, 1
  {
    var s := Step(t, body, d, p).value;
    StepMarks(t, body, d, p);
    assert Visit(t, body, d, p) == VisitChildren(t.children, s.body, s.d, s.p);
    VisitChildrenMarks(t.children, s.body, s.d, s.p);
    if s.d == RootDoc {
      assert Emitted(t) == OwnMarks(t) + EmittedAll(t.children);
      assert Marks(body) + OwnMarks(t) + EmittedAll(t.children) == Marks(body) + Emitted(t);
    }
  }

  lemma {:induction false} VisitChildrenMarks(ts: seq<Tree>, body: seq<BodyItem>, d: DocRef, p: ParaRef)
    requires ParaOk(body, p) && VisitChildren(ts, body, d, p).Ok?
    ensures Marks(VisitChildren(ts, body, d, p).value) == Marks(body) + (if d == RootDoc then EmittedAll(ts) else [])
    decreases ts, 0
  {
    if ts != [] {
      var init, last := ts[..|ts| - 1], ts[|ts| - 1];
      var rest := VisitChildren(init, body, d, p);
      assert rest.Ok?;
      VisitChildrenMarks(init, body, d, p);
      assert VisitChildren(ts, body, d, p) == Visit(last, rest.value, d, p);
      VisitMarks(last, rest.value, d, p);
      EmittedSnoc(ts, Marks(body), Marks(rest.value), Marks(VisitChildren(ts, body, d, p).value), d == RootDoc);
    }
  }

  /** The marks of the children up to the last, then those of the last, are the marks of all. */
  lemma {:induction false} EmittedSnoc(ts: seq<Tree>, m0: seq<Mark>, m1: seq<Mark>, m2: seq<Mark>, root: bool)
    requires ts != []
    requires m1 == m0 + (if root then EmittedAll(ts[..|ts| - 1]) else [])
    requires m2 == m1 + (if root then Emitted(ts[|ts| - 1]) else [])
    ensures m2 == m0 + (if root then EmittedAll(ts) else [])
  {
    if root {
      var a, e := EmittedAll(ts[..|ts| - 1]), Emitted(ts[|ts| - 1]);
      ConcatAssoc(m0, a, e);
    }
  }

  /** Output blocks correspond one to one, in pre-order, to the "paragraph" and "image" nodes of
      a "document" root outside the subtrees of "document" nodes further down. */
  lemma RecreatedInPreOrder(t: Tree)
    requires t.kind == "document" && RecreateFromTree(t).Ok?
    ensures RecreateFromTree(t).value.Some?
    ensures Marks(RecreateFromTree(t).value.value) == EmittedAll(t.children)
  {
    VisitChildrenMarks(t.children, [], RootDoc, NoPara);
  }

  /** A root other than a "document" node returns no document. */
  lemma RecreatedNothingWithoutDocument(t: Tree)
    requires t.kind != "document" && RecreateFromTree(t).Ok?
    ensures RecreateFromTree(t).value == None
  {
  }

  // ---- sequences of children ----

  /** Visiting `a + b` is visiting `a`, then `b` from where `a` ended. */
  lemma {:induction false} VisitChildrenAppend(a: seq<Tree>, b: seq<Tree>, body: seq<BodyItem>, d: DocRef, p: ParaRef)
    requires ParaOk(body, p)
    ensures VisitChildren(a + b, body, d, p) ==
            match VisitChildren(a, body, d, p)
            case Err(e) => Err(e)
            case Ok(x) => VisitChildren(b, x, d, p)
    decreases |b|
  {
    if b == [] {
      assert a + b == a;
    } else {
      var ab := a + b;
      var init := b[..|b| - 1];
      assert ab[..|ab| - 1] == a + init;
      assert ab[|ab| - 1] == b[|b| - 1];
      VisitChildrenAppend(a, init, body, d, p);
    }
  }

  /** Visiting a single child is visiting it. */
  lemma VisitChildrenSingle(t: Tree, body: seq<BodyItem>, d: DocRef, p: ParaRef)
    requires ParaOk(body, p)
    ensures VisitChildren([t], body, d, p) == Visit(t, body, d, p)
  {
    assert [t][..0] == [];
  }

  /** Visiting one more child. */
  lemma VisitChildrenSnoc(init: seq<Tree>, last: Tree, body: seq<BodyItem>, d: DocRef, p: ParaRef)
    requires ParaOk(body, p)
    ensures VisitChildren(init + [last], body, d, p) ==
            match VisitChildren(init, body, d, p)
            case Err(e) => Err(e)
            case Ok(x) => Visit(last, x, d, p)
  {
    assert (init + [last])[..|init|] == init;
  }

  /** A node without children does its own step and nothing else. */
  lemma VisitLeaf(t: Tree, body: seq<BodyItem>, d: DocRef, p: ParaRef)
    requires ParaOk(body, p) && t.children == []
    ensures Visit(t, body, d, p) ==
            match Step(t, body, d, p)
            case Err(e) => Err(e)
            case Ok(s) => Ok(s.body)
  {
  }

  /** A node of a kind the walk does not act on hands everything down unchanged. */
  lemma StepPassive(t: Tree, body: seq<BodyItem>, d: DocRef, p: ParaRef)
    requires ParaOk(body, p)
    requires t.kind != "document" && t.kind != "paragraph" && t.kind != "image"
    requires t.kind != "run" || p == NoPara
    ensures Step(t, body, d, p) == Ok(Position(body, d, p))
  {
  }

  /** An "image" node with a path adds its picture to the root's document. */
  lemma StepImage(t: Tree, body: seq<BodyItem>, p: ParaRef)
    requires ParaOk(body, p) && t.kind == "image" && t.content.Some?
    ensures Step(t, body, RootDoc, p) == Ok(Position(body + [Picture(t.content.value, None)], RootDoc, p))
  {
  }

  /** A "run" node under a paragraph of the root's document adds its run to that paragraph. */
  lemma StepRun(t: Tree, body: seq<BodyItem>, d: DocRef, k: nat)
    requires ParaOk(body, RootPara(k)) && t.kind == "run" && RunFrom(t.content, t.attributes).Ok?
    ensures Step(t, body, d, RootPara(k)) ==
            Ok(Position(AddRunAt(body, k, RunFrom(t.content, t.attributes).value), d, RootPara(k)))
  {
  }

  /** A "paragraph" node in the root's document adds an empty paragraph and makes it current. */
  lemma StepParagraph(t: Tree, body: seq<BodyItem>, p: ParaRef)
    requires ParaOk(body, p) && t.kind == "paragraph"
    ensures Step(t, body, RootDoc, p) == Ok(Position(body + [Para(OutParagraph([]))], RootDoc, RootPara(|body|)))
  {
  }

  // ---- the tree of a Word document ----

  /** A flag that was set to true survives; one that was false or inherited is left inherited. */
  function OnlyTrue(b: Option<bool>): Option<bool>
  {
    if b == Some(true) then b else None
  }

  lemma OnlyTrueKeeps(b: Option<bool>)
    ensures OnlyTrue(b) == b <==> b != Some(false)
  {
    match b
    case None =>
    case Some(x) =>
  }

  /** A run after `build_docx_tree` and this walk: the text and colour are kept; flags are kept
      when true, a font name when non-empty, a size when non-zero. */
  function RebuiltRun(run: Run): (r: Run)
    ensures r.text == run.text && r.color == run.color
  {
    Run(run.text, OnlyTrue(run.bold), OnlyTrue(run.italic), OnlyTrue(run.underline),
        if run.fontName == Some("") then None else run.fontName,
        if run.fontSize == Some(0.0) then None else run.fontSize,
        run.color)
  }

  /** A run comes back unchanged exactly when no flag is false and no font name or size is set to
      an empty name or a zero size. */
  lemma RebuiltRunUnchanged(run: Run)
    ensures RebuiltRun(run) == run <==>
      && run.bold != Some(false) && run.italic != Some(false) && run.underline != Some(false)
      && run.fontName != Some("") && run.fontSize != Some(0.0)
  {
    OnlyTrueKeeps(run.bold);
    OnlyTrueKeeps(run.italic);
    OnlyTrueKeeps(run.underline);
    var r := RebuiltRun(run);
    if r == run {
      assert r.bold == run.bold && r.italic == run.italic && r.underline == run.underline;
      assert r.fontName == run.fontName && r.fontSize == run.fontSize;
    }
  }

  /** `get` looks at the first entry, then at the rest. */
  lemma GetCons(a: Attr, rest: seq<Attr>, key: string)
    ensures Get([a] + rest, key) == if a.key == key then a.value else Get(rest, key)
  {
    assert ([a] + rest)[1..] == rest;
  }

  /** The attribute dict of a run node holds each property under its own key. */
  lemma RunAttributesGet(run: Run)
    ensures var attrs := RunAttributes(run);
      && Get(attrs, "bold") == BoolOrNone(run.bold) && Get(attrs, "italic") == BoolOrNone(run.italic)
      && Get(attrs, "underline") == BoolOrNone(run.underline) && Get(attrs, "font_name") == StrOrNone(run.fontName)
      && Get(attrs, "font_size") == PointsOrNone(run.fontSize) && Get(attrs, "text_color") == RgbOrNone(run.color)
  {
    var attrs := RunAttributes(run);
    var t5 := [attrs[5]];
    var t4 := [attrs[4]] + t5;
    var t3 := [attrs[3]] + t4;
    var t2 := [attrs[2]] + t3;
    var t1 := [attrs[1]] + t2;
    assert attrs == [attrs[0]] + t1;
    var keys := ["bold", "italic", "underline", "font_name", "font_size", "text_color"];
    assert |keys[0]| == 4 && |keys[1]| == 6 && |keys[2]| == 9 && |keys[3]| == 9 && |keys[4]| == 9 && |keys[5]| == 10;
    assert keys[2][0] != keys[3][0] && keys[2][0] != keys[4][0] && keys[3][5] != keys[4][5];
    GetCons(attrs[5], [], "text_color");
    GetCons(attrs[4], t5, "text_color");
    GetCons(attrs[4], t5, "font_size");
    GetCons(attrs[3], t4, "text_color");
    GetCons(attrs[3], t4, "font_size");
    GetCons(attrs[3], t4, "font_name");
    GetCons(attrs[2], t3, "text_color");
    GetCons(attrs[2], t3, "font_size");
    GetCons(attrs[2], t3, "font_name");
    GetCons(attrs[2], t3, "underline");
    GetCons(attrs[1], t2, "text_color");
    GetCons(attrs[1], t2, "font_size");
    GetCons(attrs[1], t2, "font_name");
    GetCons(attrs[1], t2, "underline");
    GetCons(attrs[1], t2, "italic");
    GetCons(attrs[0], t1, "text_color");
    GetCons(attrs[0], t1, "font_size");
    GetCons(attrs[0], t1, "font_name");
    GetCons(attrs[0], t1, "underline");
    GetCons(attrs[0], t1, "italic");
    GetCons(attrs[0], t1, "bold");
  }

  /** The font name, size and colour of a run node are all accepted, and come back as
      `RebuiltRun` has them. */
  lemma RunNodeFont(run: Run)
    ensures var attrs := RunAttributes(run);
      && FontNameOf(Get(attrs, "font_name")) == Ok(RebuiltRun(run).fontName)
      && FontSizeOf(Get(attrs, "font_size")) == Ok(RebuiltRun(run).fontSize)
      && ColorOf(Get(attrs, "text_color")) == Ok(run.color)
  {
    RunAttributesGet(run);
    FontNameBack(run.fontName);
    FontSizeBack(run.fontSize);
    ColorBack(run.color);
  }

  lemma FontNameBack(name: Option<string>)
    ensures FontNameOf(StrOrNone(name)) == Ok(if name == Some("") then None else name)
  {
    match name
    case None =>
    case Some(s) =>
  }

  lemma FontSizeBack(size: Option<real>)
    ensures FontSizeOf(PointsOrNone(size)) == Ok(if size == Some(0.0) then None else size)
  {
    match size
    case None =>
    case Some(x) =>
  }

  lemma ColorBack(color: Option<Rgb>)
    ensures ColorOf(RgbOrNone(color)) == Ok(color)
  {
    match color
    case None =>
    case Some(c) =>
  }

  /** Only the flags that were true come back. */
  lemma RunNodeFlags(run: Run)
    ensures var attrs := RunAttributes(run);
      && Flag(attrs, "bold") == OnlyTrue(run.bold)
      && Flag(attrs, "italic") == OnlyTrue(run.italic)
      && Flag(attrs, "underline") == OnlyTrue(run.underline)
  {
    RunAttributesGet(run);
    var attrs := RunAttributes(run);
    FlagBack(attrs, "bold", run.bold);
    FlagBack(attrs, "italic", run.italic);
    FlagBack(attrs, "underline", run.underline);
  }

  lemma FlagBack(attrs: seq<Attr>, key: string, b: Option<bool>)
    requires Get(attrs, key) == BoolOrNone(b)
    ensures Flag(attrs, key) == OnlyTrue(b)
  {
    match b
    case None =>
    case Some(x) =>
  }

  /** A run node made by `build_docx_tree` is recreated as `RebuiltRun`. */
  lemma RunNodeRecreated(run: Run)
    ensures RunFrom(RunTree(run).content, RunTree(run).attributes) == Ok(RebuiltRun(run))
  {
    RunNodeFont(run);
    RunNodeFlags(run);
  }

  function RebuiltParagraph(p: Paragraph): BodyItem
  {
    Para(OutParagraph(Map(RebuiltRun, p.runs)))
  }

  /** The run nodes of a paragraph fill the paragraph the walk has just added at position `k`. */
  lemma {:induction false} RunNodesRecreated(runs: seq<Run>, pre: seq<BodyItem>, done: seq<Run>)
    ensures VisitChildren(Map(RunTree, runs), pre + [Para(OutParagraph(done))], RootDoc, RootPara(|pre|))
         == Ok(pre + [Para(OutParagraph(done + Map(RebuiltRun, runs)))])
    decreases |runs|
  {
    var body := pre + [Para(OutParagraph(done))];
    if runs == [] {
      assert done + [] == done;
    } else {
      var init, last := runs[..|runs| - 1], runs[|runs| - 1];
      assert runs == init + [last];
      MapSnoc(RunTree, init, last);
      MapSnoc(RebuiltRun, init, last);
      VisitChildrenSnoc(Map(RunTree, init), RunTree(last), body, RootDoc, RootPara(|pre|));
      RunNodesRecreated(init, pre, done);
      RunNodeAdded(pre, done + Map(RebuiltRun, init), last);
      assert done + Map(RebuiltRun, init) + [RebuiltRun(last)] == done + Map(RebuiltRun, runs);
    }
  }

  /** A run node adds its rebuilt run to the paragraph the walk holds. */
  lemma RunNodeAdded(pre: seq<BodyItem>, done: seq<Run>, run: Run)
    ensures Visit(RunTree(run), pre + [Para(OutParagraph(done))], RootDoc, RootPara(|pre|))
         == Ok(pre + [Para(OutParagraph(done + [RebuiltRun(run)]))])
  {
    var body := pre + [Para(OutParagraph(done))];
    RunNodeRecreated(run);
    StepRun(RunTree(run), body, RootDoc, |pre|);
    VisitLeaf(RunTree(run), body, RootDoc, RootPara(|pre|));
    RunAppended(pre, done, RebuiltRun(run));
  }

  /** Adding a run to the last block, a paragraph. */
  lemma RunAppended(pre: seq<BodyItem>, runs: seq<Run>, run: Run)
    ensures AddRunAt(pre + [Para(OutParagraph(runs))], |pre|, run) == pre + [Para(OutParagraph(runs + [run]))]
  {
  }

  /** A paragraph node adds one paragraph holding its rebuilt runs. */
  lemma ParagraphNodeRecreated(p: Paragraph, body: seq<BodyItem>)
    ensures Visit(ParagraphTree(p), body, RootDoc, NoPara) == Ok(body + [RebuiltParagraph(p)])
  {
    StepParagraph(ParagraphTree(p), body, NoPara);
    RunNodesRecreated(p.runs, body, []);
    assert [] + Map(RebuiltRun, p.runs) == Map(RebuiltRun, p.runs);
  }

  lemma {:induction false} ParagraphNodesRecreated(ps: seq<Paragraph>, body: seq<BodyItem>)
    ensures VisitChildren(Map(ParagraphTree, ps), body, RootDoc, NoPara) == Ok(body + Map(RebuiltParagraph, ps))
    decreases |ps|
  {
    if ps == [] {
      assert body + [] == body;
    } else {
      var init, last := ps[..|ps| - 1], ps[|ps| - 1];
      assert ps == init + [last];
      MapSnoc(ParagraphTree, init, last);
      MapSnoc(RebuiltParagraph, init, last);
      VisitChildrenSnoc(Map(ParagraphTree, init), ParagraphTree(last), body, RootDoc, NoPara);
      ParagraphNodesRecreated(init, body);
      ParagraphNodeRecreated(last, body + Map(RebuiltParagraph, init));
      assert body + Map(RebuiltParagraph, init) + [RebuiltParagraph(last)] == body + Map(RebuiltParagraph, ps);
    }
  }

  /** The pictures of the first `n` image relationships, named as `build_docx_tree` names them. */
  function DocxPictures(n: nat): (items: seq<BodyItem>)
    ensures |items| == n
  {
    if n == 0 then [] else DocxPictures(n - 1) + [Picture(DocxImagePath(n - 1), None)]
  }

  lemma {:induction false} ImageNodesRecreated(n: nat, body: seq<BodyItem>)
    ensures VisitChildren(ImageTrees(n), body, RootDoc, NoPara) == Ok(body + DocxPictures(n))
  {
    if n == 0 {
      assert body + [] == body;
    } else {
      var last := ImageTree(DocxImagePath(n - 1));
      VisitChildrenSnoc(ImageTrees(n - 1), last, body, RootDoc, NoPara);
      ImageNodesRecreated(n - 1, body);
      StepImage(last, body + DocxPictures(n - 1), NoPara);
      VisitLeaf(last, body + DocxPictures(n - 1), RootDoc, NoPara);
      assert body + DocxPictures(n - 1) + [Picture(DocxImagePath(n - 1), None)] == body + DocxPictures(n);
    }
  }

  /** The "images" node, when there is one, adds the pictures; it is not a paragraph, so they stay
      outside every paragraph. */
  lemma ImagesGroupRecreated(n: nat, body: seq<BodyItem>)
    ensures VisitChildren(ImagesGroup(n), body, RootDoc, NoPara) == Ok(body + DocxPictures(n))
  {
    if n == 0 {
      assert body + [] == body;
    } else {
      VisitChildrenSingle(Tree("images", None, [], ImageTrees(n)), body, RootDoc, NoPara);
      StepPassive(Tree("images", None, [], ImageTrees(n)), body, RootDoc, NoPara);
      ImageNodesRecreated(n, body);
    }
  }

  /** Building the tree of a Word document and recreating a document from it gives one paragraph
      per paragraph, holding its rebuilt runs, then one picture per image relationship. */
  lemma DocxTreeRoundTrip(doc: Document)
    ensures RecreateFromTree(DocxTree(doc)) ==
            Ok(Some(Map(RebuiltParagraph, doc.paragraphs) + DocxPictures(|ImageRels(doc.rels)|)))
  {
    var n := |ImageRels(doc.rels)|;
    VisitChildrenAppend(Map(ParagraphTree, doc.paragraphs), ImagesGroup(n), [], RootDoc, NoPara);
    ParagraphNodesRecreated(doc.paragraphs, []);
    assert [] + Map(RebuiltParagraph, doc.paragraphs) == Map(RebuiltParagraph, doc.paragraphs);
    ImagesGroupRecreated(n, Map(RebuiltParagraph, doc.paragraphs));
  }

  // ---- the tree of a PDF ----

  /** The pictures of the first `n` images of page `k`, named as `build_pdf_tree` names them. */
  function PagePictures(k: nat, n: nat): (items: seq<BodyItem>)
    ensures |items| == n
  {
    if n == 0 then [] else PagePictures(k, n - 1) + [Picture(PdfImagePath(k, n - 1), None)]
  }

  /** The pictures of the first `n` pages, page by page. */
  function PdfPictures(pages: seq<Page>, n: nat): seq<BodyItem>
    requires n <= |pages|
  {
    if n == 0 then [] else PdfPictures(pages, n - 1) + PagePictures(n - 1, |pages[n - 1].images|)
  }

  /** Text nodes add nothing: they are not runs, and there is no paragraph for them anyway. */
  lemma {:induction false} TextNodesRecreated(spans: seq<Span>, body: seq<BodyItem>)
    ensures VisitChildren(Map(TextTree, spans), body, RootDoc, NoPara) == Ok(body)
    decreases |spans|
  {
    if spans != [] {
      var init, last := spans[..|spans| - 1], spans[|spans| - 1];
      assert spans == init + [last];
      MapSnoc(TextTree, init, last);
      VisitChildrenSnoc(Map(TextTree, init), TextTree(last), body, RootDoc, NoPara);
      TextNodesRecreated(init, body);
      StepPassive(TextTree(last), body, RootDoc, NoPara);
      VisitLeaf(TextTree(last), body, RootDoc, NoPara);
    }
  }

  lemma {:induction false} PageImageNodesRecreated(k: nat, n: nat, body: seq<BodyItem>)
    ensures VisitChildren(PageImageTrees(k, n), body, RootDoc, NoPara) == Ok(body + PagePictures(k, n))
  {
    if n == 0 {
      assert body + [] == body;
    } else {
      var last := Tree("image", Some(PdfImagePath(k, n - 1)), [], []);
      VisitChildrenSnoc(PageImageTrees(k, n - 1), last, body, RootDoc, NoPara);
      PageImageNodesRecreated(k, n - 1, body);
      StepImage(last, body + PagePictures(k, n - 1), NoPara);
      VisitLeaf(last, body + PagePictures(k, n - 1), RootDoc, NoPara);
      assert body + PagePictures(k, n - 1) + [Picture(PdfImagePath(k, n - 1), None)] == body + PagePictures(k, n);
    }
  }

  lemma PageNodeRecreated(k: nat, page: Page, body: seq<BodyItem>)
    ensures Visit(PageTree(k, page), body, RootDoc, NoPara) == Ok(body + PagePictures(k, |page.images|))
  {
    var texts := Map(TextTree, LinedSpans(page.blocks));
    StepPassive(PageTree(k, page), body, RootDoc, NoPara);
    VisitChildrenAppend(texts, PageImageTrees(k, |page.images|), body, RootDoc, NoPara);
    TextNodesRecreated(LinedSpans(page.blocks), body);
    PageImageNodesRecreated(k, |page.images|, body);
  }

  lemma {:induction false} PageNodesRecreated(pages: seq<Page>, n: nat)
    requires n <= |pages|
    ensures VisitChildren(PageTrees(pages, n), [], RootDoc, NoPara) == Ok(PdfPictures(pages, n))
  {
    if n > 0 {
      VisitChildrenSnoc(PageTrees(pages, n - 1), PageTree(n - 1, pages[n - 1]), [], RootDoc, NoPara);
      PageNodesRecreated(pages, n - 1);
      PageNodeRecreated(n - 1, pages[n - 1], PdfPictures(pages, n - 1));
    }
  }

  /** Recreating a document from the tree of a PDF gives only the pictures, page by page and in
      page order: the text nodes produce nothing, since no node above them is a paragraph. */
  lemma PdfTreeRecreated(pages: seq<Page>)
    ensures RecreateFromTree(PdfTree(pages)) == Ok(Some(PdfPictures(pages, |pages|)))
    ensures forall item | item in PdfPictures(pages, |pages|) :: item.Picture?
  {
    PageNodesRecreated(pages, |pages|);
    PdfPicturesArePictures(pages, |pages|);
  }

  lemma {:induction false} PdfPicturesArePictures(pages: seq<Page>, n: nat)
    requires n <= |pages|
    ensures forall item | item in PdfPictures(pages, n) :: item.Picture?
  {
    if n > 0 {
      PdfPicturesArePictures(pages, n - 1);
      PagePicturesArePictures(n - 1, |pages[n - 1].images|);
    }
  }

  lemma {:induction false} PagePicturesArePictures(k: nat, n: nat)
    ensures forall item | item in PagePictures(k, n) :: item.Picture?
  {
    if n > 0 {
      PagePicturesArePictures(k, n - 1);
    }
  }
}
