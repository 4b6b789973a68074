/** The generic document tree of tree_docx.py: `TreeNode` objects whose children lists grow by
    `add_child`, the two builders that fill them from a Word document and from a PDF, and the
    value (`Tree`) each node stands for. */
module DocTree {
  import opened Wrappers
  import opened Seqs
  import opened Strings
  import opened Colour
  import opened PdfModel
  import opened DocxModel
  import opened DocxExtraction

  /** The Python values the builders store as attributes. */
  datatype Value =
    | NoneValue
    | BoolValue(b: bool)
    | IntValue(i: int)
    | RealValue(r: real)
    | StrValue(s: string)
    | RgbValue(rgb: Rgb)

  /** One entry of a node's `attributes` dict, in insertion order. */
  datatype Attr = Attr(key: string, value: Value)

  /** The value a node stands for: its type, content, attributes and the children's values. */
  datatype Tree = Tree(kind: string, content: Option<string>, attributes: seq<Attr>, children: seq<Tree>)

  /** `TreeNode`: the node's own fields, plus two ghost fields: the set of objects the node and its
      descendants are made of, and the value (`Tree`) the node currently stands for. */
  class TreeNode {
    var kind: string
    var content: Option<string>
    var attributes: seq<Attr>
    var children: seq<TreeNode>
    ghost var Repr: set<TreeNode>
    ghost var model: Tree

    /** The model holds this node's fields, and each child is a valid node inside this one's
        footprint, not containing this node, whose model is the matching child of the model. */
    ghost predicate Valid()
      reads this, Repr
      decreases Repr
    {
      && this in Repr
      && model.kind == kind && model.content == content && model.attributes == attributes
      && |model.children| == |children|
      && (forall i :: 0 <= i < |children| ==>
            && children[i] in Repr
            && children[i].Repr <= Repr
            && this !in children[i].Repr
            && children[i].Valid()
            && children[i].model == model.children[i])
    }

    /** `TreeNode(type, content, attributes)`: no children yet, and an absent or empty
        attribute dict becomes the empty dict. */
    constructor (kind: string, content: Option<string>, attributes: Option<seq<Attr>>)
      ensures Valid() && fresh(Repr)
      ensures model == Tree(kind, content, attributes.GetOr([]), [])
    {
      this.kind := kind;
      this.content := content;
      this.attributes := attributes.GetOr([]);
      this.children := [];
      Repr := {this};
      model := Tree(kind, content, attributes.GetOr([]), []);
    }

    /** `add_child`: the node goes at the end; the existing children and every other field keep
        their values. The node may be shared with other parts of the tree, but must not contain
        this one (a cycle would make the tree infinite). */
    method AddChild(node: TreeNode)
      requires Valid() && node.Valid() && this !in node.Repr
      modifies this
      ensures Valid()
      ensures children == old(children) + [node]
      ensures Repr == old(Repr) + node.Repr
      ensures model == old(model).(children := old(model).children + [node.model])
    {
      children := children + [node];
      Repr := Repr + node.Repr;
      model := model.(children := model.children + [node.model]);
    }

    /** `images_node.add_child(image_node)` where `images_node` is the `m`-th child: that child gains
        the node at the end, this node's children stay the same objects, and the footprint grows
        by the new node's. The child must not be shared with a sibling, and the new node must not
        contain this node or the child. */
    method AddToChild(child: TreeNode, ghost m: nat, node: TreeNode)
      requires Valid() && m < |children| && children[m] == child && node.Valid()
      requires this !in node.Repr && child !in node.Repr
      requires forall j :: 0 <= j < |children| && j != m ==> children[m] !in children[j].Repr
      modifies this, child
      ensures Valid()
      ensures children == old(children)
      ensures children[m].children == old(children[m].children) + [node]
      ensures forall j :: 0 <= j < |children| && j != m ==> children[j].Repr == old(children[j].Repr)
      ensures Repr == old(Repr) + node.Repr
      ensures model == old(model).(children := old(model).children[m :=
                old(model).children[m].(children := old(model).children[m].children + [node.model])])
    {
      child.AddChild(node);
      Repr := Repr + node.Repr;
      model := model.(children := model.children[m := child.model]);
    }

    /** The type of each child is the type recorded in the model. */
    lemma ChildKinds()
      requires Valid()
      ensures forall j :: 0 <= j < |children| ==> children[j].kind == model.children[j].kind
    {
    }

    /** `next((child for child in self.children if child.type == kind), None)`: the first child of
        that type, or null when there is none. */
    method FindChild(kind: string) returns (found: TreeNode?, ghost m: nat)
      ensures found == null <==> forall j :: 0 <= j < |children| ==> children[j].kind != kind
      ensures found != null ==> m < |children| && children[m] == found && found.kind == kind
      ensures found != null ==> forall j :: 0 <= j < m ==> children[j].kind != kind
    {
      var i := 0;
      while i < |children|
        invariant i <= |children|
        invariant forall j :: 0 <= j < i ==> children[j].kind != kind
      {
        if children[i].kind == kind {
          return children[i], i;
        }
        i := i + 1;
      }
      return null, 0;
    }
  }

  /** `node` is a valid node standing for `t`. */
  ghost predicate Represents(node: TreeNode, t: Tree)
    reads node, node.Repr
  {
    node.Valid() && node.model == t
  }

}
