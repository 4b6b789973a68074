/** `recreate_docx_from_tree` (tree_docx.py:115-141): a pre-order walk of a document tree that
    writes into Word documents. A "document" node makes a new document for the nodes below it, a
    "paragraph" node adds a paragraph to the current document and makes it the current paragraph
    of the nodes below it, a "run" node adds a run to the current paragraph, if there is one, and
    an "image" node adds a picture to the current document. The root call returns the document
    the root made, if the root is a "document" node.

    Only the document the root makes is ever returned: one made by a "document" node further
    down is dropped once that node's subtree is done, but the runs its subtree adds to an outer
    paragraph stay there, and the errors it raises still end the walk. */
module TreeRecreation {
  import opened Wrappers
  import opened Colour
  import opened DocxModel
  import opened DocTree

  /** Why the walk raises. */
  datatype TreeError =
    | NoDocument(kind: string)  // a "paragraph" or "image" node with no document above it
    | ImageWithoutPath          // `add_picture(None)`
    | BadAttribute(key: string) // an attribute value python-docx refuses for that property

  /** The document the walk writes to: none yet, the one the root made, or one made further down. */
  datatype DocRef = NoDoc | RootDoc | OtherDoc

  /** The current paragraph: none, the `index`-th block of the root's document, or a paragraph
      of a document made further down. */
  datatype ParaRef = NoPara | RootPara(index: nat) | OtherPara

  // ---- the attribute dict ----

  /** `attributes.get(key)`: the value of the entry with that key, None when there is none. */
  function Get(attrs: seq<Attr>, key: string): (v: Value)
    ensures v == NoneValue || Attr(key, v) in attrs
    ensures (forall a | a in attrs :: a.key != key) ==> v == NoneValue
    ensures forall i :: 0 <= i < |attrs| && attrs[i].key == key && (forall j :: 0 <= j < i ==> attrs[j].key != key)
              ==> v == attrs[i].value
  {
    if attrs == [] then NoneValue
    else if attrs[0].key == key then attrs[0].value
    else Get(attrs[1..], key)
  }

  /** Python's truth value; an RGBColor is a tuple of three ints, so it is never empty. */
  predicate Truthy(v: Value)
  {
    match v
    case NoneValue => false
    case BoolValue(b) => b
    case IntValue(i) => i != 0
    case RealValue(r) => r != 0.0
    case StrValue(s) => s != ""
    case RgbValue(_) => true
  }

  /** `if node.attributes.get(key): run.<key> = True` (for underline, `WD_UNDERLINE.SINGLE`). */
  function Flag(attrs: seq<Attr>, key: string): (b: Option<bool>)
    ensures b == Some(true) <==> Truthy(Get(attrs, key))
    ensures b != Some(false)
  {
    if Truthy(Get(attrs, key)) then Some(true) else None
  }

  /** `run.font.name = value` when the value is truthy: python-docx only takes a string. */
  function FontNameOf(v: Value): (r: Result<Option<string>, TreeError>)
    ensures r.Ok? && r.value.Some? <==> v.StrValue? && v.s != ""
    ensures r.Ok? && r.value.Some? ==> r.value.value == v.s
    ensures r.Err? <==> Truthy(v) && !v.StrValue?
    ensures r.Err? ==> r.error == BadAttribute("font_name")
  {
    if !Truthy(v) then Ok(None)
    else if v.StrValue? then Ok(Some(v.s))
    else Err(BadAttribute("font_name"))
  }

  /** `run.font.size = Pt(value)` when the value is truthy: a number, `True` counting as 1, is a
      size in points; `Pt` of a string or of a colour raises. */
  function FontSizeOf(v: Value): (r: Result<Option<real>, TreeError>)
    ensures r.Ok? && r.value.Some? <==> Truthy(v) && (v.BoolValue? || v.IntValue? || v.RealValue?)
    ensures r.Err? <==> Truthy(v) && (v.StrValue? || v.RgbValue?)
    ensures r.Err? ==> r.error == BadAttribute("font_size")
    ensures v.RealValue? && v.r != 0.0 ==> r == Ok(Some(v.r))
    ensures v.IntValue? && v.i != 0 ==> r == Ok(Some(v.i as real))
    ensures v == BoolValue(true) ==> r == Ok(Some(1.0))
  {
    if !Truthy(v) then Ok(None)
    else match v
      case BoolValue(_) => Ok(Some(1.0))
      case IntValue(i) => Ok(Some(i as real))
      case RealValue(x) => Ok(Some(x))
      case _ => Err(BadAttribute("font_size"))
  }

  /** `run.font.color.rgb = value` when the value is truthy: only an RGBColor is accepted. */
  function ColorOf(v: Value): (r: Result<Option<Rgb>, TreeError>)
    ensures r.Ok? && r.value.Some? <==> v.RgbValue?
    ensures r.Ok? && r.value.Some? ==> r.value.value == v.rgb
    ensures r.Err? <==> Truthy(v) && !v.RgbValue?
    ensures r.Err? ==> r.error == BadAttribute("text_color")
  {
    if !Truthy(v) then Ok(None)
    else if v.RgbValue? then Ok(Some(v.rgb))
    else Err(BadAttribute("text_color"))
  }

  /** The run `add_run(node.content)` and the attribute setters make: its text is the content (none
      gives an empty run), and the setters run in the order font name, size, colour, so the first
      value refused is the error. */
  function RunFrom(content: Option<string>, attrs: seq<Attr>): (r: Result<Run, TreeError>)
    ensures r.Ok? <==> FontNameOf(Get(attrs, "font_name")).Ok? && FontSizeOf(Get(attrs, "font_size")).Ok?
                       && ColorOf(Get(attrs, "text_color")).Ok?
    ensures r.Ok? ==> r.value.text == content.GetOr("")
    ensures FontNameOf(Get(attrs, "font_name")).Err? ==> r == Err(BadAttribute("font_name"))
  {
    match FontNameOf(Get(attrs, "font_name"))
    case Err(e) => Err(e)
    case Ok(name) =>
      match FontSizeOf(Get(attrs, "font_size"))
      case Err(e) => Err(e)
      case Ok(size) =>
        match ColorOf(Get(attrs, "text_color"))
        case Err(e) => Err(e)
        case Ok(color) =>
          Ok(Run(content.GetOr(""), Flag(attrs, "bold"), Flag(attrs, "italic"), Flag(attrs, "underline"),
                 name, size, color))
  }

  /** The setters run in the order font name, size, colour: a refused size is the error only
      when the name was accepted, a refused colour only when both were. A run that is made has
      each flag set by its truthy attribute and the name, size and colour the setters took. */
  lemma RunFromFields(content: Option<string>, attrs: seq<Attr>)
    ensures var r := RunFrom(content, attrs);
      var name := FontNameOf(Get(attrs, "font_name"));
      var size := FontSizeOf(Get(attrs, "font_size"));
      var color := ColorOf(Get(attrs, "text_color"));
      && (name.Ok? && size.Err? ==> r == Err(BadAttribute("font_size")))
      && (name.Ok? && size.Ok? && color.Err? ==> r == Err(BadAttribute("text_color")))
      && (r.Ok? ==>
            && r.value.bold == Flag(attrs, "bold") && r.value.italic == Flag(attrs, "italic")
            && r.value.underline == Flag(attrs, "underline")
            && r.value.fontName == name.value && r.value.fontSize == size.value
            && r.value.color == color.value)
  {
  }

  // ---- the walk, on values ----

  /** The current paragraph, when it is in the root's document, is a paragraph of it. */
  predicate ParaOk(body: seq<BodyItem>, p: ParaRef)
  {
    p.RootPara? ==> p.index < |body| && body[p.index].Para?
  }

  /** `b` is `a` after blocks were appended and runs added to paragraphs: no block disappears and
      every paragraph stays a paragraph. */
  predicate Extends(a: seq<BodyItem>, b: seq<BodyItem>)
  {
    |a| <= |b| && forall k :: 0 <= k < |a| && a[k].Para? ==> b[k].Para?
  }

  /** `current_paragraph.add_run(...)` on the `k`-th block. */
  function AddRunAt(body: seq<BodyItem>, k: nat, run: Run): (r: seq<BodyItem>)
    requires k < |body| && body[k].Para?
    ensures |r| == |body| && r[k] == Para(OutParagraph(body[k].paragraph.runs + [run]))
    ensures forall j :: 0 <= j < |body| && j != k ==> r[j] == body[j]
  {
    body[k := Para(OutParagraph(body[k].paragraph.runs + [run]))]
  }

  /** Where the walk stands: the body of the root's document, the document it writes to and the
      current paragraph. */
  datatype Position = Position(body: seq<BodyItem>, d: DocRef, p: ParaRef)

  /** The if/elif chain of one call: what the node itself does before its children are visited,
      and the document and paragraph it hands down to them, or the error it raises. */
  function Step(t: Tree, body: seq<BodyItem>, d: DocRef, p: ParaRef): (r: Result<Position, TreeError>)
    requires ParaOk(body, p)
    ensures r.Ok? ==> Extends(body, r.value.body) && ParaOk(r.value.body, r.value.p)
  {
    if t.kind == "document" then
      Ok(Position(body, OtherDoc, p))
    else if t.kind == "paragraph" then
      match d
      case NoDoc => Err(NoDocument("paragraph"))
      case RootDoc => Ok(Position(body + [Para(OutParagraph([]))], d, RootPara(|body|)))
      case OtherDoc => Ok(Position(body, d, OtherPara))
    else if t.kind == "run" && p != NoPara then
      match RunFrom(t.content, t.attributes)
      case Err(e) => Err(e)
      case Ok(run) => Ok(Position(if p.RootPara? then AddRunAt(body, p.index, run) else body, d, p))
    else if t.kind == "image" then
      if d == NoDoc then Err(NoDocument("image"))
      else if t.content == None then Err(ImageWithoutPath)
      else Ok(Position(if d == RootDoc then body + [Picture(t.content.value, None)] else body, d, p))
    else
      Ok(Position(body, d, p))
  }

  /** The body of the root's document after the walk visits `t`, holding document `d` and
      paragraph `p`, or the error the walk raises. */
  function Visit(t: Tree, body: seq<BodyItem>, d: DocRef, p: ParaRef): (r: Result<seq<BodyItem>, TreeError>)
    requires ParaOk(body, p)
    ensures r.Ok? ==> Extends(body, r.value)
    decreases t
  {
    match Step(t, body, d, p)
    case Err(e) => Err(e)
    case Ok(s) => VisitChildren(t.children, s.body, s.d, s.p)
  }

  /** `for child in node.children: recreate_docx_from_tree(child, doc, current_paragraph)`: the
      children in order, each with the same document and paragraph; the first error ends it. */
  function VisitChildren(ts: seq<Tree>, body: seq<BodyItem>, d: DocRef, p: ParaRef): (r: Result<seq<BodyItem>, TreeError>)
    requires ParaOk(body, p)
    ensures r.Ok? ==> Extends(body, r.value)
    decreases ts
  {
    if ts == [] then Ok(body)
    else
      match VisitChildren(ts[..|ts| - 1], body, d, p)
      case Err(e) => Err(e)
      case Ok(b) => Visit(ts[|ts| - 1], b, d, p)
  }

  /** `recreate_docx_from_tree(root)`: the body of the document a "document" root makes, None for
      any other root, or the error the walk raises. */
  function RecreateFromTree(t: Tree): Result<Option<seq<BodyItem>>, TreeError>
  {
    if t.kind == "document" then
      match VisitChildren(t.children, [], RootDoc, NoPara)
      case Ok(b) => Ok(Some(b))
      case Err(e) => Err(e)
    else
      match Visit(t, [], NoDoc, NoPara)
      case Ok(_) => Ok(None)
      case Err(e) => Err(e)
  }

  /** The first error among the children ends the walk over all of them. */
  lemma {:induction false} ChildrenErrSticks(ts: seq<Tree>, k: nat, body: seq<BodyItem>, d: DocRef, p: ParaRef)
    requires ParaOk(body, p) && k <= |ts| && VisitChildren(ts[..k], body, d, p).Err?
    ensures VisitChildren(ts, body, d, p) == VisitChildren(ts[..k], body, d, p)
    decreases |ts| - k
  {
    if k < |ts| {
      assert ts[..k + 1][..k] == ts[..k];
      ChildrenErrSticks(ts, k + 1, body, d, p);
    } else {
      assert ts[..k] == ts;
    }
  }

  /** The walk over the first `i + 1` children is the walk over the first `i`, then child `i`. */
  lemma ChildrenStep(ts: seq<Tree>, i: nat, body: seq<BodyItem>, d: DocRef, p: ParaRef)
    requires ParaOk(body, p) && i < |ts|
    ensures VisitChildren(ts[..i + 1], body, d, p) ==
            match VisitChildren(ts[..i], body, d, p)
            case Err(e) => Err(e)
            case Ok(b) => Visit(ts[i], b, d, p)
  {
    assert ts[..i + 1][..i] == ts[..i];
  }

  // ---- the walk, over the nodes and documents ----

  /** The document reference the walk holds, as seen from the root's document `main`. */
  ghost function DocRefOf(doc: WordDocument?, main: WordDocument?): DocRef
  {
    if doc == null then NoDoc else if doc == main then RootDoc else OtherDoc
  }

  /** The paragraph reference the walk holds: block `index` of `paraDoc`. */
  ghost function ParaRefOf(paraDoc: WordDocument?, index: nat, main: WordDocument?): ParaRef
  {
    if paraDoc == null then NoPara else if paraDoc == main then RootPara(index) else OtherPara
  }

  ghost function BodyOf(main: WordDocument?): seq<BodyItem>
    reads main
  {
    if main == null then [] else main.body
  }

  /** The current paragraph, if any, is a paragraph of its document. */
  ghost predicate HoldsPara(paraDoc: WordDocument?, index: nat)
    reads paraDoc
  {
    paraDoc != null ==> index < |paraDoc.body| && paraDoc.body[index].Para?
  }

  /** The method's error and the root document's body agree with the walk's result. */
  ghost predicate Outcome(r: Result<seq<BodyItem>, TreeError>, err: Option<TreeError>, body: seq<BodyItem>)
  {
    match r
    case Ok(b) => err == None && body == b
    case Err(e) => err == Some(e)
  }

  /** The position the walk holds: the root document's body and the references. */
  ghost function PositionOf(main: WordDocument?, doc: WordDocument?, paraDoc: WordDocument?, index: nat): Position
    reads main
  {
    Position(BodyOf(main), DocRefOf(doc, main), ParaRefOf(paraDoc, index, main))
  }

  /** The method's error and position agree with the step's result. */
  ghost predicate Entered(r: Result<Position, TreeError>, err: Option<TreeError>, pos: Position)
  {
    match r
    case Err(e) => err == Some(e)
    case Ok(s) => err == None && s == pos
  }

  /** The if/elif chain of one call: the node's own effect on the documents, and the document
      and paragraph handed down to its children. */
  method Enter(node: TreeNode, doc: WordDocument?, paraDoc: WordDocument?, paraIndex: nat, ghost main: WordDocument?)
    returns (err: Option<TreeError>, d: WordDocument?, pd: WordDocument?, pi: nat)
    requires node.Valid() && HoldsPara(paraDoc, paraIndex)
    modifies doc, paraDoc
    ensures Entered(Step(node.model, old(BodyOf(main)), DocRefOf(doc, main), ParaRefOf(paraDoc, paraIndex, main)),
                    err, PositionOf(main, d, pd, pi))
    ensures err == None ==> HoldsPara(pd, pi)
    ensures d == doc || (d != null && fresh(d))
    ensures pd == paraDoc || pd == doc
    ensures doc != null ==> Extends(old(doc.body), doc.body)
    ensures paraDoc != null ==> Extends(old(paraDoc.body), paraDoc.body)
  {
    d, pd, pi := doc, paraDoc, paraIndex;
    if node.kind == "document" {
      d := new WordDocument();
    } else if node.kind == "paragraph" {
      if doc == null {
        return Some(NoDocument("paragraph")), d, pd, pi;
      }
      doc.AddParagraph();
      pd, pi := doc, |doc.body| - 1;
    } else if node.kind == "run" && paraDoc != null {
      var run := RunFrom(node.content, node.attributes);
      if run.Err? {
        return Some(run.error), d, pd, pi;
      }
      paraDoc.AddRun(paraIndex, run.value);
    } else if node.kind == "image" {
      if doc == null {
        return Some(NoDocument("image")), d, pd, pi;
      }
      if node.content == None {
        return Some(ImageWithoutPath), d, pd, pi;
      }
      doc.AddPicture(node.content.value, None);
    }
    err := None;
  }

  /** One call of `recreate_docx_from_tree(node, doc, current_paragraph)` below the root, with the
      current paragraph held as block `paraIndex` of `paraDoc`; `main` is the root's document. */
  method Recreate(node: TreeNode, doc: WordDocument?, paraDoc: WordDocument?, paraIndex: nat, ghost main: WordDocument?)
    returns (err: Option<TreeError>)
    requires node.Valid() && HoldsPara(paraDoc, paraIndex)
    modifies doc, paraDoc
    ensures Outcome(Visit(node.model, old(BodyOf(main)), DocRefOf(doc, main), ParaRefOf(paraDoc, paraIndex, main)),
                    err, BodyOf(main))
    ensures doc != null ==> Extends(old(doc.body), doc.body)
    ensures paraDoc != null ==> Extends(old(paraDoc.body), paraDoc.body)
    decreases node.Repr, 1
  {
    var d, pd, pi;
    err, d, pd, pi := Enter(node, doc, paraDoc, paraIndex, main);
    if err.Some? {
      return;
    }
    err := RecreateChildren(node, d, pd, pi, main);
  }

  /** The loop over the node's children, in order, stopping at the first error. */
  method RecreateChildren(node: TreeNode, doc: WordDocument?, paraDoc: WordDocument?, paraIndex: nat, ghost main: WordDocument?)
    returns (err: Option<TreeError>)
    requires node.Valid() && HoldsPara(paraDoc, paraIndex)
    modifies doc, paraDoc
    ensures Outcome(VisitChildren(node.model.children, old(BodyOf(main)), DocRefOf(doc, main),
                                  ParaRefOf(paraDoc, paraIndex, main)), err, BodyOf(main))
    ensures doc != null ==> Extends(old(doc.body), doc.body)
    ensures paraDoc != null ==> Extends(old(paraDoc.body), paraDoc.body)
    decreases node.Repr, 0
  {
    ghost var body0, d, p := BodyOf(main), DocRefOf(doc, main), ParaRefOf(paraDoc, paraIndex, main);
    ghost var ts := node.model.children;
    for i := 0 to |node.children|
      invariant HoldsPara(paraDoc, paraIndex)
      invariant doc != null ==> Extends(old(doc.body), doc.body)
      invariant paraDoc != null ==> Extends(old(paraDoc.body), paraDoc.body)
      invariant VisitChildren(ts[..i], body0, d, p) == Ok(BodyOf(main))
    {
      err := Recreate(node.children[i], doc, paraDoc, paraIndex, main);
      ChildrenStep(ts, i, body0, d, p);
      if err.Some? {
        ChildrenErrSticks(ts, i + 1, body0, d, p);
        return;
      }
    }
    assert ts[..|ts|] == ts;
    err := None;
  }

  /** `recreate_docx_from_tree(root)`: the root's document, null when the root is not a
      "document" node, or the error the walk raises. */
  method RecreateDocxFromTree(root: TreeNode) returns (r: Result<WordDocument?, TreeError>)
    requires root.Valid()
    ensures r.Err? <==> RecreateFromTree(root.model).Err?
    ensures r.Err? ==> RecreateFromTree(root.model) == Err(r.error)
    ensures r.Ok? ==> (r.value == null <==> RecreateFromTree(root.model).value == None)
    ensures r.Ok? && r.value != null ==> RecreateFromTree(root.model).value == Some(r.value.body)
  {
    if root.kind == "document" {
      var doc := new WordDocument();
      var err := RecreateChildren(root, doc, null, 0, doc);
      if err.Some? {
        return Err(err.value);
      }
      return Ok(doc);
    } else {
      var err := Recreate(root, null, null, 0, null);
      if err.Some? {
        return Err(err.value);
      }
      return Ok(null);
    }
  }
}
