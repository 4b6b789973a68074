/** `display_tree` (tree_docx.py:61-67): the lines it prints for a tree, one header line per node
    indented by four spaces per level, followed by one line per attribute, then the children's
    lines one level deeper. */
module TreeDisplay {
  import opened Wrappers
  import opened Strings
  import opened Colour
  import opened DocTree

  /** `" " * n` */
  function Spaces(n: nat): (s: string)
    ensures |s| == n && forall i :: 0 <= i < n ==> s[i] == ' '
  {
    seq(n, _ => ' ')
  }

  /** `str(i)` for any int. */
  function IntText(i: int): string
  {
    if i < 0 then "-" + Decimal(-i) else Decimal(i)
  }

  /** `str(value)`; a float and an RGBColor are rendered by the given functions. */
  function ValueText(v: Value, realText: real -> string, rgbText: Rgb -> string): string
  {
    match v
    case NoneValue => "None"
    case BoolValue(b) => if b then "True" else "False"
    case IntValue(i) => IntText(i)
    case RealValue(r) => realText(r)
    case StrValue(s) => s
    case RgbValue(c) => rgbText(c)
  }

  /** `node.content if node.content else ''` */
  function ShownContent(content: Option<string>): string
  {
    if content.Some? then content.value else ""
  }

  /** `f"{indent}{node.type.upper()}: {...}"` */
  function HeaderLine(t: Tree, level: nat): string
  {
    Spaces(level * 4) + Upper(t.kind) + ": " + ShownContent(t.content)
  }

  /** `f"{indent}  {attr}: {value}"` */
  function AttrLine(a: Attr, level: nat, realText: real -> string, rgbText: Rgb -> string): string
  {
    Spaces(level * 4) + "  " + a.key + ": " + ValueText(a.value, realText, rgbText)
  }

  function AttrLines(attrs: seq<Attr>, level: nat, realText: real -> string, rgbText: Rgb -> string): (lines: seq<string>)
    ensures |lines| == |attrs|
    ensures forall i :: 0 <= i < |attrs| ==> lines[i] == AttrLine(attrs[i], level, realText, rgbText)
  {
    seq(|attrs|, i requires 0 <= i < |attrs| => AttrLine(attrs[i], level, realText, rgbText))
  }

  /** The lines `display_tree(node, level)` prints. */
  function DisplayLines(t: Tree, level: nat, realText: real -> string, rgbText: Rgb -> string): seq<string>
    decreases t
  {
    [HeaderLine(t, level)] + AttrLines(t.attributes, level, realText, rgbText)
    + DisplayAll(t.children, level + 1, realText, rgbText)
  }

  /** The children's lines, child after child. */
  function DisplayAll(ts: seq<Tree>, level: nat, realText: real -> string, rgbText: Rgb -> string): seq<string>
    decreases ts
  {
    if ts == [] then []
    else DisplayAll(ts[..|ts| - 1], level, realText, rgbText) + DisplayLines(ts[|ts| - 1], level, realText, rgbText)
  }

  /** The number of nodes of a tree. */
  function NodeCount(t: Tree): nat
    decreases t
  {
    1 + NodeCountAll(t.children)
  }

  function NodeCountAll(ts: seq<Tree>): nat
    decreases ts
  {
    if ts == [] then 0 else NodeCountAll(ts[..|ts| - 1]) + NodeCount(ts[|ts| - 1])
  }

  /** The number of attribute entries over all nodes of a tree. */
  function AttrCount(t: Tree): nat
    decreases t
  {
    |t.attributes| + AttrCountAll(t.children)
  }

  function AttrCountAll(ts: seq<Tree>): nat
    decreases ts
  {
    if ts == [] then 0 else AttrCountAll(ts[..|ts| - 1]) + AttrCount(ts[|ts| - 1])
  }

  /** One line per node and one per attribute entry, whatever the level. */
  lemma {:induction false} DisplayLineCount(t: Tree, level: nat, realText: real -> string, rgbText: Rgb -> string)
    ensures |DisplayLines(t, level, realText, rgbText)| == NodeCount(t) + AttrCount(t)
    decreases t, 1
  {
    DisplayAllLineCount(t.children, level + 1, realText, rgbText);
  }

  lemma {:induction false} DisplayAllLineCount(ts: seq<Tree>, level: nat, realText: real -> string, rgbText: Rgb -> string)
    ensures |DisplayAll(ts, level, realText, rgbText)| == NodeCountAll(ts) + AttrCountAll(ts)
    decreases ts, 0
  {
    if ts != [] {
      DisplayAllLineCount(ts[..|ts| - 1], level, realText, rgbText);
      DisplayLineCount(ts[|ts| - 1], level, realText, rgbText);
    }
  }

  /** Every line of `lines` starts with `n` spaces. */
  predicate IndentedAll(lines: seq<string>, n: nat)
  {
    forall i :: 0 <= i < |lines| ==> Spaces(n) <= lines[i]
  }

  /** Every line printed for a node at `level`, its descendants' included, starts with the
      node's indent of `4 * level` spaces; the first line is the node's own header. */
  lemma {:induction false} DisplayIndented(t: Tree, level: nat, realText: real -> string, rgbText: Rgb -> string)
    ensures DisplayLines(t, level, realText, rgbText)[0] == Spaces(level * 4) + Upper(t.kind) + ": " + ShownContent(t.content)
    ensures IndentedAll(DisplayLines(t, level, realText, rgbText), level * 4)
    decreases t, 1
  {
    var head := [HeaderLine(t, level)] + AttrLines(t.attributes, level, realText, rgbText);
    var rest := DisplayAll(t.children, level + 1, realText, rgbText);
    assert DisplayLines(t, level, realText, rgbText) == head + rest;
    HeadIndented(t, level, realText, rgbText);
    DisplayAllIndented(t.children, level + 1, realText, rgbText);
    IndentedWeaken(rest, level * 4, (level + 1) * 4);
    IndentedAppend(head, rest, level * 4);
  }

  /** The header and the attribute lines carry the node's own indent. */
  lemma HeadIndented(t: Tree, level: nat, realText: real -> string, rgbText: Rgb -> string)
    ensures IndentedAll([HeaderLine(t, level)] + AttrLines(t.attributes, level, realText, rgbText), level * 4)
  {
    var head := [HeaderLine(t, level)] + AttrLines(t.attributes, level, realText, rgbText);
    forall i | 0 <= i < |head|
      ensures Spaces(level * 4) <= head[i]
    {
      if i == 0 {
        assert HeaderLine(t, level)[..level * 4] == Spaces(level * 4);
      } else {
        var a := AttrLine(t.attributes[i - 1], level, realText, rgbText);
        assert head[i] == a;
        assert a[..level * 4] == Spaces(level * 4);
      }
    }
  }

  lemma {:induction false} DisplayAllIndented(ts: seq<Tree>, level: nat, realText: real -> string, rgbText: Rgb -> string)
    ensures IndentedAll(DisplayAll(ts, level, realText, rgbText), level * 4)
    decreases ts, 0
  {
    if ts != [] {
      var init := DisplayAll(ts[..|ts| - 1], level, realText, rgbText);
      var last := DisplayLines(ts[|ts| - 1], level, realText, rgbText);
      DisplayAllIndented(ts[..|ts| - 1], level, realText, rgbText);
      DisplayIndented(ts[|ts| - 1], level, realText, rgbText);
      IndentedAppend(init, last, level * 4);
      assert DisplayAll(ts, level, realText, rgbText) == init + last;
    }
  }

  lemma IndentedAppend(a: seq<string>, b: seq<string>, n: nat)
    requires IndentedAll(a, n) && IndentedAll(b, n)
    ensures IndentedAll(a + b, n)
  {
    forall i | 0 <= i < |a + b|
      ensures Spaces(n) <= (a + b)[i]
    {
      if i < |a| {
        assert (a + b)[i] == a[i];
      } else {
        assert (a + b)[i] == b[i - |a|];
      }
    }
  }

  lemma IndentedWeaken(lines: seq<string>, m: nat, n: nat)
    requires m <= n && IndentedAll(lines, n)
    ensures IndentedAll(lines, m)
  {
    forall i | 0 <= i < |lines|
      ensures Spaces(m) <= lines[i]
    {
      IndentedBy(m, n, lines[i]);
    }
  }

  /** A line with the longer indent also has the shorter one. */
  lemma IndentedBy(m: nat, n: nat, s: string)
    requires m <= n && Spaces(n) <= s
    ensures Spaces(m) <= s
  {
    assert s[..m] == Spaces(n)[..m] == Spaces(m);
  }
}
