/** The detail listing of docx-test.py: the effective font name of a run (docx-test.py:5-17), the
    Markdown-style delimiters wrapped around a run's text (docx-test.py:51-62), and the lines and
    image file names `read_docx_with_details_and_extract_images` produces (docx-test.py:20-49). */
module DocxDetails {
  import opened Wrappers
  import opened Strings
  import opened Colour
  import opened DocxModel
  import opened DocxExtraction

  // ---- get_effective_font_name ----

  /** A font name Python treats as set: neither None nor the empty string. */
  predicate Named(o: Option<string>)
  {
    o.Some? && o.value != ""
  }

  /** The exceptions `get_effective_font_name` can raise: an AttributeError when the paragraph
      has no style (`run._parent.style` is None), a KeyError when the document has no style named
      'Normal'. Each is reached only when the names before it are unset. */
  datatype FontError = NoParagraphStyle | NoNormalStyle

  /** The font name a style sets, None when the style is missing. */
  function StyleFont(style: StyleRef): Option<string>
  {
    match style
    case Missing => None
    case Present(font) => font
  }

  /** `get_effective_font_name(run, doc)`, where `run._parent` is `para`: the run's own font, then
      the paragraph style's font, then the 'Normal' style's font, then "Default Font". */
  function EffectiveFontName(run: Run, para: Paragraph, doc: Document): (r: Result<string, FontError>)
    ensures r.Ok? ==> r.value != ""
    ensures Named(run.fontName) ==> r == Ok(run.fontName.value)
    ensures r == Err(NoParagraphStyle) <==> !Named(run.fontName) && para.style.Missing?
    ensures r == Err(NoNormalStyle) <==>
      !Named(run.fontName) && para.style.Present? && !Named(para.style.font) && doc.normal.Missing?
  {
    if Named(run.fontName) then Ok(run.fontName.value)
    else
      match para.style
      case Missing => Err(NoParagraphStyle)
      case Present(styleFont) =>
        if Named(styleFont) then Ok(styleFont.value)
        else
          match doc.normal
          case Missing => Err(NoNormalStyle)
          case Present(normalFont) =>
            if Named(normalFont) then Ok(normalFont.value) else Ok("Default Font")
  }

  /** The first set name of a list of candidates, or `fallback` when none is set. */
  function FirstNamed(candidates: seq<Option<string>>, fallback: string): string
  {
    if candidates == [] then fallback
    else if Named(candidates[0]) then candidates[0].value
    else FirstNamed(candidates[1..], fallback)
  }

  /** `FirstNamed` picks the earliest set candidate, and the fallback only when none is set. */
  lemma {:induction false} FirstNamedIsFirst(candidates: seq<Option<string>>, fallback: string)
    ensures (forall k :: 0 <= k < |candidates| ==> !Named(candidates[k])) ==>
      FirstNamed(candidates, fallback) == fallback
    ensures forall k :: (0 <= k < |candidates| && Named(candidates[k])
                         && forall j :: 0 <= j < k ==> !Named(candidates[j])) ==>
      FirstNamed(candidates, fallback) == candidates[k].value
  {
    if candidates != [] {
      var tail := candidates[1..];
      FirstNamedIsFirst(tail, fallback);
      forall k | 0 <= k < |candidates| && Named(candidates[k])
        && (forall j :: 0 <= j < k ==> !Named(candidates[j]))
        ensures FirstNamed(candidates, fallback) == candidates[k].value
      {
        if k > 0 {
          assert !Named(candidates[0]);
          assert tail[k - 1] == candidates[k];
          forall j | 0 <= j < k - 1
            ensures !Named(tail[j])
          {
            assert tail[j] == candidates[j + 1];
          }
        }
      }
      if forall k :: 0 <= k < |candidates| ==> !Named(candidates[k]) {
        assert !Named(candidates[0]);
        forall j | 0 <= j < |tail|
          ensures !Named(tail[j])
        {
          assert tail[j] == candidates[j + 1];
        }
      }
    }
  }

  /** When no exception is raised, the fallback chain is the first set name among the run font,
      the paragraph style font and the 'Normal' font, and "Default Font" exactly when none of
      them is set. */
  lemma EffectiveFontNameIsFirstNamed(run: Run, para: Paragraph, doc: Document)
    requires EffectiveFontName(run, para, doc).Ok?
    ensures EffectiveFontName(run, para, doc).value
      == FirstNamed([run.fontName, StyleFont(para.style), StyleFont(doc.normal)], "Default Font")
    ensures EffectiveFontName(run, para, doc).value == "Default Font" <==>
      var styleFont, normalFont := StyleFont(para.style), StyleFont(doc.normal);
      || (!Named(run.fontName) && !Named(styleFont) && !Named(normalFont))
      || (Named(run.fontName) && run.fontName.value == "Default Font")
      || (!Named(run.fontName) && Named(styleFont) && styleFont.value == "Default Font")
      || (!Named(run.fontName) && !Named(styleFont) && Named(normalFont)
          && normalFont.value == "Default Font")
  {
    var styleFont, normalFont := StyleFont(para.style), StyleFont(doc.normal);
    var cs := [run.fontName, styleFont, normalFont];
    var c1 := [styleFont, normalFont];
    var c2 := [normalFont];
    assert cs[1..] == c1 && c1[1..] == c2 && c2[1..] == [];
    assert FirstNamed(c2, "Default Font")
      == if Named(normalFont) then normalFont.value else "Default Font";
    assert FirstNamed(c1, "Default Font")
      == if Named(styleFont) then styleFont.value else FirstNamed(c2, "Default Font");
    assert FirstNamed(cs, "Default Font")
      == if Named(run.fontName) then run.fontName.value else FirstNamed(c1, "Default Font");
  }

  // ---- apply_formatting ----

  /** The delimiters of `formatting_actions`, in its order: bold, italic, underline. */
  const Markers: seq<string> := ["**", "*", "__"]

  /** `getattr(run, style)` is truthy: python-docx reports True, False or None (inherited). */
  predicate IsOn(o: Option<bool>)
  {
    o == Some(true)
  }

  /** Which of bold, italic and underline are on, in the order of `Markers`. */
  function StyleFlags(run: Run): (flags: seq<bool>)
    ensures |flags| == |Markers|
  {
    [IsOn(run.bold), IsOn(run.italic), IsOn(run.underline)]
  }

  /** The text after wrapping it in each marker whose flag is on, the first marker innermost. */
  function Formatted(markers: seq<string>, flags: seq<bool>, text: string): string
    requires |flags| == |markers|
  {
    if markers == [] then text
    else
      var inner := Formatted(markers[..|markers| - 1], flags[..|flags| - 1], text);
      var m := markers[|markers| - 1];
      if flags[|flags| - 1] then m + inner + m else inner
  }

  lemma FormattedSnoc(markers: seq<string>, flags: seq<bool>, text: string, k: nat)
    requires |flags| == |markers| && k < |markers|
    ensures Formatted(markers[..k + 1], flags[..k + 1], text) ==
      (if flags[k] then markers[k] + Formatted(markers[..k], flags[..k], text) + markers[k]
       else Formatted(markers[..k], flags[..k], text))
  {
    assert markers[..k + 1][..k] == markers[..k];
    assert flags[..k + 1][..k] == flags[..k];
  }

  /** The markers in front of the text: the set ones, the last applied first. */
  function Opening(markers: seq<string>, flags: seq<bool>): string
    requires |flags| == |markers|
  {
    if markers == [] then ""
    else
      var m := if flags[|flags| - 1] then markers[|markers| - 1] else "";
      m + Opening(markers[..|markers| - 1], flags[..|flags| - 1])
  }

  function Reverse(s: string): (r: string)
    ensures |r| == |s|
  {
    if s == [] then [] else [s[|s| - 1]] + Reverse(s[..|s| - 1])
  }

  lemma {:induction false} ReverseAppend(a: string, b: string)
    ensures Reverse(a + b) == Reverse(b) + Reverse(a)
  {
    if b != [] {
      var init := b[..|b| - 1];
      assert (a + b)[..|a + b| - 1] == a + init;
      ReverseAppend(a, init);
    } else {
      assert a + b == a;
    }
  }

  predicate Palindrome(s: string)
  {
    Reverse(s) == s
  }

  /** With palindromic markers the result is the opening markers, the text, and the opening
      markers mirrored: every delimiter is closed in the reverse order of opening. */
  lemma {:induction false} FormattedShape(markers: seq<string>, flags: seq<bool>, text: string)
    requires |flags| == |markers|
    requires forall k :: 0 <= k < |markers| ==> Palindrome(markers[k])
    ensures Formatted(markers, flags, text) ==
      Opening(markers, flags) + text + Reverse(Opening(markers, flags))
  {
    if markers != [] {
      var n := |markers|;
      var mi := markers[..n - 1];
      var fi := flags[..n - 1];
      forall k | 0 <= k < |mi|
        ensures Palindrome(mi[k])
      {
        assert mi[k] == markers[k];
      }
      FormattedShape(mi, fi, text);
      var o := Opening(mi, fi);
      var inner := Formatted(mi, fi, text);
      if flags[n - 1] {
        var m := markers[n - 1];
        assert Palindrome(markers[n - 1]);
        WrapShape(m, o, text);
      } else {
        assert Opening(markers, flags) == o;
      }
    }
  }

  /** Wrapping `o + text + Reverse(o)` in a palindrome `m` gives the same shape for `m + o`. */
  lemma WrapShape(m: string, o: string, text: string)
    requires Palindrome(m)
    ensures m + (o + text + Reverse(o)) + m == (m + o) + text + Reverse(m + o)
  {
    ReverseAppend(m, o);
  }

  lemma MarkersPalindromes()
    ensures forall k :: 0 <= k < |Markers| ==> Palindrome(Markers[k])
  {
    assert Reverse("**") == "**" by {
      assert "**"[..1] == "*";
      assert Reverse("*") == "*" by { assert "*"[..0] == ""; }
    }
    assert Reverse("*") == "*" by { assert "*"[..0] == ""; }
    assert Reverse("__") == "__" by {
      assert "__"[..1] == "_";
      assert Reverse("_") == "_" by { assert "_"[..0] == ""; }
    }
  }

  /** The opening markers of `apply_formatting`: underline outermost, bold innermost. */
  lemma OpeningOfMarkers(flags: seq<bool>)
    requires |flags| == 3
    ensures Opening(Markers, flags) ==
      (if flags[2] then "__" else "") + (if flags[1] then "*" else "") + (if flags[0] then "**" else "")
  {
    var m2 := Markers[..2];
    var m1 := Markers[..1];
    assert m2 == ["**", "*"] && m2[..1] == m1 && m1 == ["**"] && m1[..0] == [];
    assert flags[..2][..1] == flags[..1] && flags[..1][..0] == [];
    assert Opening(m1, flags[..1]) == (if flags[0] then "**" else "") + "";
    assert Opening(m2, flags[..2]) == (if flags[1] then "*" else "") + Opening(m1, flags[..1]);
    assert Opening(Markers, flags) == (if flags[2] then "__" else "") + Opening(m2, flags[..2]);
  }

  /** `apply_formatting(run, run_text)`: each of bold, italic and underline that is on wraps the
      text so far in its delimiter, in that order. */
  method ApplyFormatting(run: Run, runText: string) returns (r: string)
    ensures r == Formatted(Markers, StyleFlags(run), runText)
    ensures r == Opening(Markers, StyleFlags(run)) + runText + Reverse(Opening(Markers, StyleFlags(run)))
    ensures |r| == |runText| + (if IsOn(run.bold) then 4 else 0) + (if IsOn(run.italic) then 2 else 0)
      + (if IsOn(run.underline) then 4 else 0)
  {
    var flags := StyleFlags(run);
    r := runText;
    for k := 0 to |Markers|
      invariant r == Formatted(Markers[..k], flags[..k], runText)
    {
      FormattedSnoc(Markers, flags, runText, k);
      if flags[k] {
        r := Markers[k] + r + Markers[k];
      }
    }
    assert Markers[..|Markers|] == Markers && flags[..|flags|] == flags;
    MarkersPalindromes();
    FormattedShape(Markers, flags, runText);
    OpeningOfMarkers(flags);
  }

  /** With bold, italic and underline all off the text comes back unchanged. */
  lemma FormattingPlain(run: Run, text: string)
    requires !IsOn(run.bold) && !IsOn(run.italic) && !IsOn(run.underline)
    ensures Formatted(Markers, StyleFlags(run), text) == text
  {
    MarkersPalindromes();
    FormattedShape(Markers, StyleFlags(run), text);
    OpeningOfMarkers(StyleFlags(run));
  }

  /** With all three on, bold is innermost and underline outermost. */
  lemma FormattingAll(run: Run, text: string)
    requires IsOn(run.bold) && IsOn(run.italic) && IsOn(run.underline)
    ensures Formatted(Markers, StyleFlags(run), text) == "__***" + text + "***__"
  {
    MarkersPalindromes();
    FormattedShape(Markers, StyleFlags(run), text);
    OpeningOfMarkers(StyleFlags(run));
    assert Reverse("__***") == "***__" by {
      ReverseAppend("__", "***");
      ReverseAppend("*", "**");
      assert "__" + "***" == "__***";
      assert "*" + "**" == "***";
      assert "**" + "*" == "***";
      MarkersPalindromes();
      assert Palindrome(Markers[0]) && Palindrome(Markers[1]) && Palindrome(Markers[2]);
    }
  }

  // ---- read_docx_with_details_and_extract_images ----

  /** `run.font.size.pt if run.font.size else "Default Size"`; `str` of a float is a parameter. */
  function SizeShown(size: Option<real>, sizeText: real -> string): string
  {
    if size.Some? && size.value != 0.0 then sizeText(size.value) else "Default Size"
  }

  /** `run.font.color.rgb if ... else "Default Color"`; `str` of an RGBColor is a parameter. */
  function ColorShown(color: Option<Rgb>, colorText: Rgb -> string): string
  {
    if color.Some? then colorText(color.value) else "Default Color"
  }

  /** The font name of every run of `para` can be looked up without an exception. */
  predicate FontsResolve(para: Paragraph, doc: Document)
  {
    forall k :: 0 <= k < |para.runs| ==> EffectiveFontName(para.runs[k], para, doc).Ok?
  }

  /** The same for every paragraph of `ps`. */
  predicate AllFontsResolve(ps: seq<Paragraph>, doc: Document)
  {
    forall i :: 0 <= i < |ps| ==> FontsResolve(ps[i], doc)
  }

  /** The `details` line of a run of `para`. */
  function RunDetail(run: Run, para: Paragraph, doc: Document, sizeText: real -> string,
                     colorText: Rgb -> string): string
    requires EffectiveFontName(run, para, doc).Ok?
  {
    "Text: " + Formatted(Markers, StyleFlags(run), run.text)
    + ", Font: " + EffectiveFontName(run, para, doc).value
    + ", Size: " + SizeShown(run.fontSize, sizeText)
    + ", Color: " + ColorShown(run.color, colorText)
  }

  function RunDetails(runs: seq<Run>, para: Paragraph, doc: Document, sizeText: real -> string,
                      colorText: Rgb -> string): (lines: seq<string>)
    requires forall k :: 0 <= k < |runs| ==> EffectiveFontName(runs[k], para, doc).Ok?
    ensures |lines| == |runs|
    ensures forall k :: 0 <= k < |runs| ==> lines[k] == RunDetail(runs[k], para, doc, sizeText, colorText)
  {
    seq(|runs|, k requires 0 <= k < |runs| => RunDetail(runs[k], para, doc, sizeText, colorText))
  }

  /** The entries one paragraph adds to `detailed_text`: one per run, then "\n". */
  function ParagraphDetails(para: Paragraph, doc: Document, sizeText: real -> string,
                            colorText: Rgb -> string): seq<string>
    requires FontsResolve(para, doc)
  {
    RunDetails(para.runs, para, doc, sizeText, colorText) + ["\n"]
  }

  /** `detailed_text` after the paragraphs `ps` of `doc`. */
  function DetailLines(ps: seq<Paragraph>, doc: Document, sizeText: real -> string,
                       colorText: Rgb -> string): seq<string>
    requires AllFontsResolve(ps, doc)
  {
    if ps == [] then []
    else
      var init := DetailLines(ps[..|ps| - 1], doc, sizeText, colorText);
      init + ParagraphDetails(ps[|ps| - 1], doc, sizeText, colorText)
  }

  /** `image{k}.png` */
  function ImageName(k: nat): string
  {
    "image" + Decimal(k) + ".png"
  }

  /** The files the image loop writes, in `./img`. */
  function ImagePaths(n: nat): (paths: seq<string>)
    ensures |paths| == n
    ensures forall k :: 0 <= k < n ==> paths[k] == JoinPath("./img", ImageName(k))
  {
    seq(n, k requires 0 <= k < n => JoinPath("./img", ImageName(k)))
  }

  /** The listing and the image files of `read_docx_with_details_and_extract_images`: the
      returned text joins one line per run and a "\n" entry per paragraph with "\n", and one
      image file is written per image relationship, numbered from 0. Writing the files is
      not modelled; their paths are returned. The source raises (`ok` false) when a run's font
      name lookup does, before any image is written, and at an image relationship with an
      external target, which has no `target_part`: the files written before it are the first
      ones of the full numbering. The listing is returned only when nothing is raised. */
  method ReadDetails(doc: Document, sizeText: real -> string, colorText: Rgb -> string)
    returns (text: string, imagePaths: seq<string>, ok: bool)
    ensures ok <==> AllFontsResolve(doc.paragraphs, doc) && ImageTargetsInternal(doc.rels)
    ensures ok ==> text == JoinWith(DetailLines(doc.paragraphs, doc, sizeText, colorText), "\n")
    ensures ok ==> imagePaths == ImagePaths(|ImageRels(doc.rels)|)
    ensures !AllFontsResolve(doc.paragraphs, doc) ==> imagePaths == []
    ensures AllFontsResolve(doc.paragraphs, doc) && !ok ==>
      exists n :: 0 <= n < |ImageRels(doc.rels)| && imagePaths == ImagePaths(n)
  {
    var detailed: seq<string> := [];
    for i := 0 to |doc.paragraphs|
      invariant AllFontsResolve(doc.paragraphs[..i], doc)
      invariant detailed == DetailLines(doc.paragraphs[..i], doc, sizeText, colorText)
    {
      var para := doc.paragraphs[i];
      ghost var before := detailed;
      for j := 0 to |para.runs|
        invariant forall k :: 0 <= k < j ==> EffectiveFontName(para.runs[k], para, doc).Ok?
        invariant detailed == before + RunDetails(para.runs[..j], para, doc, sizeText, colorText)
      {
        var run := para.runs[j];
        var runText := ApplyFormatting(run, run.text);
        var fontName := EffectiveFontName(run, para, doc);
        if fontName.Err? {
          assert !FontsResolve(doc.paragraphs[i], doc);
          return "", [], false;
        }
        var fontSize := SizeShown(run.fontSize, sizeText);
        var textColor := ColorShown(run.color, colorText);
        detailed := detailed + ["Text: " + runText + ", Font: " + fontName.value + ", Size: " + fontSize
          + ", Color: " + textColor];
        RunDetailsSnoc(para.runs, j, para, doc, sizeText, colorText);
      }
      assert para.runs[..|para.runs|] == para.runs;
      detailed := detailed + ["\n"];
      DetailLinesSnoc(doc.paragraphs, i, doc, sizeText, colorText);
    }
    assert doc.paragraphs[..|doc.paragraphs|] == doc.paragraphs;
    text := JoinWith(detailed, "\n");
    imagePaths, ok := SaveImages(doc.rels);
  }

  /** The image loop of `read_docx_with_details_and_extract_images`: `image{k}.png` for the `k`-th
      image relationship, stopping at the first one whose target is external. */
  method SaveImages(rels: seq<Rel>) returns (imagePaths: seq<string>, ok: bool)
    ensures ok <==> ImageTargetsInternal(rels)
    ensures ok ==> imagePaths == ImagePaths(|ImageRels(rels)|)
    ensures !ok ==> exists n :: 0 <= n < |ImageRels(rels)| && imagePaths == ImagePaths(n)
  {
    imagePaths := [];
    var imageCount := 0;
    for k := 0 to |rels|
      invariant imageCount == |ImageRels(rels[..k])| && imagePaths == ImagePaths(imageCount)
      invariant ImageTargetsInternal(rels[..k])
    {
      ImageRelsSnoc(rels, k);
      ImageTargetsSnoc(rels, k);
      if Contains("image", rels[k].targetRef) {
        if rels[k].external {
          ImageRelsPrefixCount(rels, k);
          assert !ImageTargetsInternal(rels) by {
            assert Contains("image", rels[k].targetRef) && rels[k].external;
          }
          return imagePaths, false;
        }
        imagePaths := imagePaths + [JoinPath("./img", ImageName(imageCount))];
        imageCount := imageCount + 1;
      }
    }
    assert rels[..|rels|] == rels;
    ok := true;
  }

  lemma RunDetailsSnoc(runs: seq<Run>, j: nat, para: Paragraph, doc: Document, sizeText: real -> string,
                       colorText: Rgb -> string)
    requires j < |runs| && forall k :: 0 <= k <= j ==> EffectiveFontName(runs[k], para, doc).Ok?
    ensures RunDetails(runs[..j + 1], para, doc, sizeText, colorText)
      == RunDetails(runs[..j], para, doc, sizeText, colorText) + [RunDetail(runs[j], para, doc, sizeText, colorText)]
  {
  }

  lemma DetailLinesSnoc(ps: seq<Paragraph>, i: nat, doc: Document, sizeText: real -> string,
                        colorText: Rgb -> string)
    requires i < |ps| && AllFontsResolve(ps[..i + 1], doc)
    ensures DetailLines(ps[..i + 1], doc, sizeText, colorText)
      == DetailLines(ps[..i], doc, sizeText, colorText) + ParagraphDetails(ps[i], doc, sizeText, colorText)
  {
    assert ps[..i + 1][..i] == ps[..i];
  }

  // ---- properties of the listing ----

  function RunTotal(ps: seq<Paragraph>): nat
  {
    if ps == [] then 0 else RunTotal(ps[..|ps| - 1]) + |ps[|ps| - 1].runs|
  }

  /** How many entries of `lines` are `line`. */
  function Occurrences(lines: seq<string>, line: string): nat
  {
    if lines == [] then 0
    else Occurrences(lines[..|lines| - 1], line) + (if lines[|lines| - 1] == line then 1 else 0)
  }

  lemma {:induction false} OccurrencesAppend(a: seq<string>, b: seq<string>, line: string)
    ensures Occurrences(a + b, line) == Occurrences(a, line) + Occurrences(b, line)
  {
    if b != [] {
      assert (a + b)[..|a + b| - 1] == a + b[..|b| - 1];
      OccurrencesAppend(a, b[..|b| - 1], line);
    } else {
      assert a + b == a;
    }
  }

  lemma {:induction false} NoOccurrences(lines: seq<string>, line: string)
    requires forall k :: 0 <= k < |lines| ==> lines[k] != line
    ensures Occurrences(lines, line) == 0
  {
    if lines != [] {
      NoOccurrences(lines[..|lines| - 1], line);
    }
  }

  /** A run without a size (or with size zero) and without a colour is listed with the defaults. */
  lemma RunDetailDefaults(run: Run, para: Paragraph, doc: Document, sizeText: real -> string,
                          colorText: Rgb -> string)
    requires EffectiveFontName(run, para, doc).Ok?
    requires (run.fontSize.None? || run.fontSize == Some(0.0)) && run.color.None?
    ensures var line := RunDetail(run, para, doc, sizeText, colorText);
      var tail := ", Size: " + "Default Size" + ", Color: " + "Default Color";
      |tail| <= |line| && line[|line| - |tail|..] == tail && line[..6] == "Text: "
  {
    var size := SizeShown(run.fontSize, sizeText);
    var color := ColorShown(run.color, colorText);
    assert size == "Default Size" && color == "Default Color";
    LineShape(Formatted(Markers, StyleFlags(run), run.text), EffectiveFontName(run, para, doc).value, size, color);
  }

  /** A detail line starts with "Text: " and ends with its size and colour fields. */
  lemma LineShape(text: string, font: string, size: string, color: string)
    ensures var line := "Text: " + text + ", Font: " + font + ", Size: " + size + ", Color: " + color;
      var tail := ", Size: " + size + ", Color: " + color;
      |tail| <= |line| && line[|line| - |tail|..] == tail && line[..6] == "Text: "
  {
    var head := "Text: " + text + ", Font: " + font;
    var tail := ", Size: " + size + ", Color: " + color;
    assert "Text: " + text + ", Font: " + font + ", Size: " + size + ", Color: " + color == head + tail;
    assert (head + tail)[..6] == head[..6];
  }

  /** `detailed_text` holds one entry per run and one per paragraph. */
  lemma {:induction false} DetailLinesCount(ps: seq<Paragraph>, doc: Document, sizeText: real -> string,
                                            colorText: Rgb -> string)
    requires AllFontsResolve(ps, doc)
    ensures |DetailLines(ps, doc, sizeText, colorText)| == RunTotal(ps) + |ps|
  {
    if ps != [] {
      DetailLinesCount(ps[..|ps| - 1], doc, sizeText, colorText);
    }
  }

  /** Exactly one entry per paragraph is the "\n" separator: a run's line never is, since it
      starts with "Text: ". */
  lemma {:induction false} DetailLinesSeparators(ps: seq<Paragraph>, doc: Document, sizeText: real -> string,
                                                 colorText: Rgb -> string)
    requires AllFontsResolve(ps, doc)
    ensures Occurrences(DetailLines(ps, doc, sizeText, colorText), "\n") == |ps|
    ensures ps != [] ==> DetailLines(ps, doc, sizeText, colorText)[|DetailLines(ps, doc, sizeText, colorText)| - 1] == "\n"
  {
    if ps != [] {
      var p := ps[|ps| - 1];
      var runs := RunDetails(p.runs, p, doc, sizeText, colorText);
      DetailLinesSeparators(ps[..|ps| - 1], doc, sizeText, colorText);
      forall k | 0 <= k < |runs|
        ensures runs[k] != "\n"
      {
        assert runs[k][0] == 'T';
      }
      NoOccurrences(runs, "\n");
      OccurrencesAppend(runs, ["\n"], "\n");
      assert Occurrences(["\n"], "\n") == 1 by { assert ["\n"][..0] == []; }
      OccurrencesAppend(DetailLines(ps[..|ps| - 1], doc, sizeText, colorText), runs + ["\n"], "\n");
    }
  }

  /** The image files have distinct names, so none overwrites another. */
  lemma ImagePathsDistinct(n: nat)
    ensures forall j, k :: 0 <= j < k < n ==> ImagePaths(n)[j] != ImagePaths(n)[k]
  {
    forall j, k | 0 <= j < k < n
      ensures ImagePaths(n)[j] != ImagePaths(n)[k]
    {
      if ImagePaths(n)[j] == ImagePaths(n)[k] {
        JoinPathInjective("./img", ImageName(j), ImageName(k));
        var a := ImageName(j);
        var b := ImageName(k);
        assert a[5..|a| - 4] == Decimal(j);
        assert b[5..|b| - 4] == Decimal(k);
        DecimalInjective(j, k);
      }
    }
  }
}
