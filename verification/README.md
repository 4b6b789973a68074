# Document extraction and recreation, modelled in Dafny

The repository extracts text, styles and images from PDF and Word documents into a JSON sidecar
(`metadata.json`), and rebuilds documents from that sidecar, optionally passing every text through
a content processor such as upper-casing. It also holds a generic document tree (`TreeNode`) with
builders for Word and PDF input, a Word rebuild from such a tree, and a tree printer, plus a
script that lists a Word document's runs with their effective formatting.

This project models that core:

- **PDF extraction.** `extract_text_images_from_pdf` produces page records of styled spans and
  image records. Bold and italic come from the span flags and the font name.
- **Word extraction.** `extract_text_images_from_docx` produces paragraph, image and table records.
- **The two recreations.** `recreate_pdf` draws into pages. `recreate_docx` fills a Word body. It
  exists in two variants, `file_manipulator.py` and `extractor.py`, and the model keeps them apart.
- **The upper-casing dispatch.**
- **The document tree.** Covered: `TreeNode` as a class with `add_child`, `build_docx_tree`, the
  node shaping of `build_pdf_tree`, the `#rrggbb` colour encoder, `recreate_docx_from_tree` as a
  walk over a class-based tree that mutates Word documents, and the lines `display_tree` prints.
- **docx-test.py.** Covered: `get_effective_font_name`, `apply_formatting`, and the listing and
  image numbering of `read_docx_with_details_and_extract_images`.

Library objects are records:
- PyMuPDF's `get_text("dict")` blocks, lines and spans, and its image list;
- python-docx runs, paragraphs, tables and relationships.

Documents being built are classes (`WordDocument`, `PdfWriter`, `TreeNode`) whose methods update
their fields in place. The loops of the source are `for` loops proved against specification
functions. The properties are proved about those functions:
- round trips (extract then rebuild; build a tree then rebuild; colour split and pack; hex encode
  and parse);
- ordering and numbering;
- the single "images" node;
- pre-order output of the tree walk;
- the shape of the formatting delimiters.

## Model

| member | source | states |
|---|---|---|
| Colour.Split | file_manipulator.py:268-270 | each channel of any colour integer lies in 0..255 |
| Colour.SplitPack | file_manipulator.py:268-270 | for 0 <= c < 2^24, r*65536 + g*256 + b == c |
| Colour.PackSplit | file_manipulator.py:268-270 | splitting packed bytes gives the bytes back |
| Colour.SplitLow24 | extractor.py:205-207 | only the low 24 bits of the colour integer are read, negative integers included |
| Colour.ColourHex | tree_docx.py:88-89 | the rendering is '#' followed by six lower-case hex digits |
| Colour.ColourHexRoundTrip | tree_docx.py:88-89 | parsing the `#rrggbb` string gives back the colour's low 24 bits |
| SpanStyle.StyleBitsRoundTrip | file_manipulator.py:82-83 | when the font name names neither style, bold is exactly bit 0 and italic exactly bit 1, whatever the other bits |
| SpanStyle.StyleBitsDecompose | extractor.py:39-41 | every flags integer is its two style bits over the higher bits |
| SpanStyle.StyleIgnoresFontCase | file_manipulator.py:82-83 | the font-name test gives the same answer for the name, its upper-case and its lower-case forms |
| Processing.UppercaseDispatch | file_manipulator.py:185-196 | both variants run a rebuild exactly for "pdf" and "docx", the PDF rebuild exactly for "pdf"; file_manipulator.py reads the given folder, extractor.py the folder "output_" + type |
| Processing.ExtractorIgnoresPath | extractor.py:141-145 | the variant's result does not depend on its path argument, and agrees with file_manipulator.py's exactly when the type is unknown or the path is "output_pdf" for "pdf" and "output_docx" for "docx" |
| PdfExtraction.ExtractTextImagesFromPdf | file_manipulator.py:52-110 | succeeds iff every text block has "lines"; then one record per page, in order, the k-th numbered k+1 with its spans' records and its image records |
| PdfExtraction.ExtractPageText | file_manipulator.py:67-85 | the text records are the span records of every line of every type-0 block, in order; a type-0 block without "lines" fails |
| PdfExtraction.ExtractPageImages | file_manipulator.py:87-102 | image i gets index i and the file `page_{p+1}_image_{i+1}.{ext}` in the output folder |
| PdfExtraction.AppendBlockRecords | file_manipulator.py:71-85 | succeeds exactly when the block is readable (not a text block, or a text block with lines), and then appends the records of the block's spans |
| PdfExtraction.AppendLineRecords | file_manipulator.py:73-85 | appends the records of all spans of the block's lines, line by line |
| PdfExtraction.AppendSpanRecords | file_manipulator.py:74-85 | appends one record per span, in order |
| PdfExtraction.TextSpansAppend | file_manipulator.py:71-85 | the spans of concatenated block lists are the concatenation of their spans |
| PdfExtraction.NonTextBlockIgnored | file_manipulator.py:72 | a block whose type is not 0 contributes nothing |
| PdfExtraction.ImageFileNameInjective | file_manipulator.py:95 | equal image file names imply the same page, index and extension |
| PdfExtraction.ImagePathsDistinct | file_manipulator.py:95 | distinct images of an extraction get distinct paths |
| PdfRecreation.PdfWriter.NewPage | file_manipulator.py:264 | a new empty page is appended |
| PdfRecreation.PdfWriter.Insert | file_manipulator.py:272-277 | the drawing goes at the end of the last page, and the other pages are unchanged |
| PdfRecreation.RecreatePdf | file_manipulator.py:251-279 | one page per page record; each page holds its texts (processed, at the box corner, with split colour), then its images in their rectangles |
| PdfRecreation.ImageRectGeometry | file_manipulator.py:276 | the box is 228 wide and 328 high at x=72, its top edge strictly increases with the index, and neighbours overlap by 128 |
| PdfRecreation.ExtractRecreatePage | file_manipulator.py:71-108 | extracting then rebuilding a page draws each span of its text blocks in order, then image i in box i with its extracted file |
| PdfRecreation.RecreatedColourExact | file_manipulator.py:268-271 | a 24-bit span colour is drawn with exactly its own bytes |
| DocxExtraction.RunRecordReadsBack | file_manipulator.py:131-139 | reading a run record back gives the run's text, flags, font name and colour; a zero size reads as unset; no key is absent |
| DocxExtraction.ImageRelsExactly | file_manipulator.py:144-145 | every kept relationship is an image relationship and every image relationship is kept, one entry per image relationship; none is kept exactly when there is none |
| DocxExtraction.ImageRecordShape | file_manipulator.py:147-148 | the record's extension holds no '/', and its path is the folder joined with `image_<name>.<ext>` |
| DocxExtraction.ExtractRunRecords | file_manipulator.py:131-140 | one record per run, in order |
| DocxExtraction.ExtractParagraphs | file_manipulator.py:125-141 | record k has para_num k+1, the paragraph's text and one record per run |
| DocxExtraction.ExtractImages | file_manipulator.py:144-154 | fails exactly when an image relationship is external (no target part); otherwise one record per image relationship, in relationship order |
| DocxExtraction.ImageRelsPrefixCount | file_manipulator.py:144-153 | an image relationship at position k has fewer image relationships before it than the whole list holds |
| DocxExtraction.ExtractCell | file_manipulator.py:161-178 | a cell record holds one unnumbered paragraph record per paragraph |
| DocxExtraction.ExtractRow | file_manipulator.py:159-179 | row k has row_num k+1 and one record per cell |
| DocxExtraction.ExtractTable | file_manipulator.py:157-180 | table k has table_num k+1 and its rows numbered from 1 |
| DocxExtraction.ExtractTables | file_manipulator.py:157-181 | one record per table, in order |
| DocxExtraction.ExtractTextImagesFromDocx | file_manipulator.py:112-183 | fails exactly when an image relationship is external; otherwise the sidecar holds the numbered paragraph, image and table records of the document |
| DocxModel.WordDocument.AddParagraph | file_manipulator.py:212 | appends an empty paragraph |
| DocxModel.WordDocument.AddRun | file_manipulator.py:215-222 | the run goes at the end of paragraph k; nothing else changes |
| DocxModel.WordDocument.AddPicture | file_manipulator.py:227 | appends a picture |
| DocxModel.WordDocument.AddTable | file_manipulator.py:231 | appends a table with the given column count and no rows |
| DocxModel.WordDocument.AddRow | file_manipulator.py:233 | the last table gains a row of `cols` cells, each holding one empty paragraph |
| DocxModel.WordDocument.ClearCell | file_manipulator.py:235 | cell c of the new row becomes empty; nothing else changes |
| DocxModel.WordDocument.AddCellParagraph | file_manipulator.py:237 | cell c gains an empty paragraph |
| DocxModel.WordDocument.AddCellRun | file_manipulator.py:240-247 | the run goes at the end of the last paragraph of cell c |
| DocxModel.WithOpenCellTwice | file_manipulator.py:234-247 | replacing the same cell twice keeps only the second replacement |
| DocxRecreation.ExtractorTableRun | extractor.py:185-190 | a table run fails iff its size or colour is null or refused by python-docx; a null size is `Pt(None)`'s TypeError and a refused size a ValueError, checked first; then a null colour is `RGBColor(*None)`'s TypeError and an out-of-range byte a ValueError; otherwise it is writable, its text is the recorded text, unprocessed, and its size the recorded one |
| DocxRecreation.RecreatedRun | file_manipulator.py:213-222 | a run fails exactly when its truthy size is one the size setter refuses or a colour byte lies outside 0..255, always with a ValueError and the size first; a run that is made can be written back |
| DocxRecreation.RowFill | file_manipulator.py:232-234 | a row holds exactly `cols` cells: the zipped ones rebuilt in order, the rest as created |
| DocxRecreation.ManipulatorRebuildOk | file_manipulator.py:198-247 | file_manipulator.py's rebuild succeeds iff every run record it reads is writable, and otherwise raises a ValueError, never a TypeError |
| DocxRecreation.ParagraphOk | file_manipulator.py:213-222 | a paragraph fails exactly when one of its runs is not writable, with a ValueError |
| DocxRecreation.BodyParagraphsOk | file_manipulator.py:211-222 | the body paragraphs are rebuilt iff all are writable; otherwise a ValueError |
| DocxRecreation.CellOk | file_manipulator.py:236-247 | a cell fails exactly when one of its paragraphs does, with a ValueError |
| DocxRecreation.RowOk | file_manipulator.py:232-247 | a row fails exactly when a cell that `zip` reaches does, with a ValueError |
| DocxRecreation.TableOk | file_manipulator.py:230-247 | a table fails exactly when one of its rows does, with a ValueError |
| DocxRecreation.BodyLayout | file_manipulator.py:210-247 | the body is the rebuilt paragraphs, then 300-point pictures, then tables, each in record order |
| DocxRecreation.ExtractorCellTextVerbatim | extractor.py:177-182 | extractor.py's cell runs keep their recorded text whatever the processor |
| DocxRecreation.ManipulatorCellTextProcessed | file_manipulator.py:234-247 | a cell is rebuilt iff its runs are writable, and then every cell run's text has gone through the processor |
| DocxRecreation.AddBodyParagraph | file_manipulator.py:212-222 | appends the rebuilt paragraph, or stops with the first run's error |
| DocxRecreation.AddBodyParagraphs | file_manipulator.py:211-222 | appends one rebuilt paragraph per record, or stops with the first error |
| DocxRecreation.AddPictures | file_manipulator.py:225-227 | appends a 300-point picture per image record |
| DocxRecreation.AddCellParagraph | extractor.py:179-190 | cell c gains the rebuilt paragraph, or the rebuild stops with its error |
| DocxRecreation.FillCell | file_manipulator.py:234-247 | the cell is cleared and then holds the rebuilt paragraphs, or the rebuild stops with the error |
| DocxRecreation.FillRow | file_manipulator.py:232-247 | the table gains the rebuilt row, or the first error |
| DocxRecreation.AddTableRecord | file_manipulator.py:230-247 | a table with the computed column count and its rebuilt rows, or the first error |
| DocxRecreation.AddTables | file_manipulator.py:230-247 | the tables in order, stopping at the first that raises |
| DocxRecreation.RecreateDocx | extractor.py:147-192 | the document's body is exactly the specified body; the rebuild raises exactly when that fails, with the same error |
| DocxRoundTrip.RunRoundTrip | file_manipulator.py:131-139 | rebuilding a recorded run succeeds iff its size and colour can be written back; its text comes back processed, and a recordable run comes back unchanged |
| DocxRoundTrip.RunsRoundTrip | file_manipulator.py:213-222 | a paragraph of recordable runs comes back with those runs, in order |
| DocxRoundTrip.BodyRoundTrip | file_manipulator.py:125-227 | without a processor, each body paragraph comes back with its runs, followed by one picture per image relationship |
| DocxRoundTrip.CellRoundTrip | file_manipulator.py:161-178 | a recordable cell comes back with its paragraphs and runs |
| DocxRoundTrip.TableRoundTrip | file_manipulator.py:230-247 | a table whose rows have n cells comes back with n columns and every cell as it was |
| DocxRoundTrip.ExtractedRebuildOk | file_manipulator.py:112-247 | extracting a document whose runs can all be written back and rebuilding it with file_manipulator.py never raises |
| DocxRoundTrip.ExtractorUnsizedTableRunRaises | extractor.py:187-188 | as written, a table run without an explicit size makes extractor.py raise, where file_manipulator.py succeeds |
| DocxRoundTrip.ExtractorUncolouredTableRunRaises | extractor.py:189-190 | as written, a sized table run without an explicit colour makes extractor.py raise, where file_manipulator.py succeeds |
| DocxRoundTrip.ExtractorUppercaseSkipsTables | extractor.py:182 | as written, upper-casing leaves table text "a" unchanged in extractor.py and gives "A" in file_manipulator.py |
| DocTree.TreeNode.constructor | tree_docx.py:8-12 | the node has no children, and a missing attribute dict is empty |
| DocTree.TreeNode.AddChild | tree_docx.py:14-15 | the child goes at the end; the other fields and children are unchanged |
| DocTree.TreeNode.AddToChild | tree_docx.py:56 | child m gains the node at its end; the other children are unchanged |
| DocTree.TreeNode.FindChild | tree_docx.py:52 | returns the first child of the kind, or null exactly when there is none |
| DocxTreeBuilder.BuildParagraphNode | tree_docx.py:26-37 | a "paragraph" node holding a run node per run, in order |
| DocxTreeBuilder.AddParagraphNodes | tree_docx.py:25-38 | the root gains one paragraph node per paragraph, in order |
| DocxTreeBuilder.ImagesNode | tree_docx.py:52-55 | an "images" node is looked up, or created at the end of the root |
| DocxTreeBuilder.AddImageNode | tree_docx.py:50-56 | the image node goes to the single "images" node |
| DocxTreeBuilder.AddImageRel | tree_docx.py:42-57 | image_count counts the image relationships so far; an external image target fails before any node is made, leaving the root at its stage |
| DocxTreeBuilder.AddImageNodes | tree_docx.py:42-57 | fails exactly when an image relationship is external; otherwise the root holds its paragraphs, then the images node for all image relationships |
| DocxTreeBuilder.BuildDocxTree | tree_docx.py:18-59 | fails exactly when an image relationship is external; otherwise the tree built is `DocxTree(doc)` |
| DocxTreeBuilder.DocxTreeParagraphs | tree_docx.py:25-38 | the root's first children are the paragraph nodes, holding run nodes with the run text |
| DocxTreeBuilder.DocxTreeImagesNode | tree_docx.py:42-57 | there is at most one "images" child; there is one iff some relationship's target contains "image", and then it comes last |
| DocxTreeBuilder.DocxTreeImagePaths | tree_docx.py:44-56 | the "images" node holds one image node per image relationship, the k-th with path ./img/image{k}.png |
| DocxTreeBuilder.ImageTreesAt | tree_docx.py:44-50 | the k-th image node is named after k |
| DocxTreeBuilder.DocxImagePathsDistinct | tree_docx.py:44 | distinct counters give distinct paths |
| PdfTreeBuilder.BuildPdfTree | tree_docx.py:73-107 | the tree built is `PdfTree(pages)` |
| PdfTreeBuilder.BuildPageNode | tree_docx.py:78-105 | the page node holds the text nodes, then the image nodes |
| PdfTreeBuilder.AddBlockNodes | tree_docx.py:80-93 | one text node per span of every block with "lines", in order |
| PdfTreeBuilder.AddPageImageNodes | tree_docx.py:95-103 | one image node per image, in order |
| PdfTreeBuilder.PageTrees | tree_docx.py:77-105 | the k-th page node is the tree of page k, numbered from 0 |
| PdfTreeBuilder.PdfTreePages | tree_docx.py:73-78 | the root is a "document" node with one "page" node per page, in order, the k-th with "number" = k |
| PdfTreeBuilder.PageTreeTexts | tree_docx.py:80-93 | the first children of a page are its text nodes, with each span's text, font, size and hex colour |
| PdfTreeBuilder.PageTreeImages | tree_docx.py:95-103 | after the text nodes come the image nodes, the i-th with path ./img/page_{k}_image_{i}.png |
| PdfTreeBuilder.PageImageTreesAt | tree_docx.py:99-102 | the i-th image node of page k is named after k and i |
| PdfTreeBuilder.LinedSpansAreTextSpans | tree_docx.py:81 | when blocks have "lines" exactly when they are text blocks, the tree's spans are the extraction's spans |
| PdfTreeBuilder.PdfImagePathsDistinct | tree_docx.py:99 | distinct (page, index) pairs give distinct paths |
| TreeRecreation.Get | tree_docx.py:123-134 | `get` returns the value of the first entry with the key, or None when no entry has the key |
| TreeRecreation.FontNameOf | tree_docx.py:129-130 | a non-empty string sets the name to that string; any other truthy value raises |
| TreeRecreation.FontSizeOf | tree_docx.py:131-132 | a truthy number sets the size to its value, True counting as 1.0; a truthy string or colour raises |
| TreeRecreation.ColorOf | tree_docx.py:133-134 | a colour sets that colour; any other truthy value raises |
| TreeRecreation.RunFrom | tree_docx.py:121-134 | the run has the node's content as its text; it is made iff name, size and colour are all accepted, and a refused name is the error |
| TreeRecreation.RunFromFields | tree_docx.py:121-134 | a refused size is the error only after an accepted name, a refused colour only after both; a made run has each flag set by its truthy attribute and the name, size and colour the setters took |
| TreeRecreation.Step | tree_docx.py:116-136 | one node's if/elif chain only appends blocks and runs, and keeps the current paragraph a paragraph |
| TreeRecreation.Visit | tree_docx.py:115-141 | the walk of a subtree only appends blocks and runs |
| TreeRecreation.VisitChildren | tree_docx.py:138-139 | the children are walked in order with the same document and paragraph |
| TreeRecreation.ChildrenErrSticks | tree_docx.py:138-139 | the first error among the children ends the walk |
| TreeRecreation.Enter | tree_docx.py:116-136 | the method's effect on the documents and its error match `Step` |
| TreeRecreation.Recreate | tree_docx.py:115-141 | the method's effect on the root document and its error match `Visit` |
| TreeRecreation.RecreateChildren | tree_docx.py:138-139 | the children loop's effect and error match `VisitChildren` |
| TreeRecreation.RecreateDocxFromTree | tree_docx.py:115-141 | the returned document and error are those of `RecreateFromTree`: a document only for a "document" root |
| TreeRecreationFacts.StepMarks | tree_docx.py:116-136 | a node adds its own block only to the root's document |
| TreeRecreationFacts.VisitMarks | tree_docx.py:115-141 | the held document gains the subtree's pre-order blocks, and only when it is the root's |
| TreeRecreationFacts.VisitChildrenMarks | tree_docx.py:138-139 | the children add their blocks in order |
| TreeRecreationFacts.RecreatedInPreOrder | tree_docx.py:115-141 | output blocks correspond one to one, in pre-order, to the paragraph and image nodes outside nested documents |
| TreeRecreationFacts.RecreatedNothingWithoutDocument | tree_docx.py:115-141 | a root that is not a "document" node yields no document |
| TreeRecreationFacts.StepPassive | tree_docx.py:120 | a run outside any paragraph, or a node of another kind, changes nothing |
| TreeRecreationFacts.StepImage | tree_docx.py:135-136 | an image node with a path appends its picture |
| TreeRecreationFacts.StepParagraph | tree_docx.py:118-119 | a paragraph node appends an empty paragraph and makes it current |
| TreeRecreationFacts.RebuiltRun | tree_docx.py:28-36 | a rebuilt run keeps its text and colour |
| TreeRecreationFacts.RebuiltRunUnchanged | tree_docx.py:123-134 | a run survives the tree round trip unchanged iff no flag is False and neither an empty font name nor a zero size is set |
| TreeRecreationFacts.OnlyTrueKeeps | tree_docx.py:123-128 | a flag survives iff it is not False |
| TreeRecreationFacts.RunNodeFont | tree_docx.py:129-134 | a built run node's name, size and colour are accepted and come back |
| TreeRecreationFacts.RunNodeFlags | tree_docx.py:123-128 | a built run node's flags come back only when True |
| TreeRecreationFacts.RunNodeRecreated | tree_docx.py:28-36 | a built run node is recreated as `RebuiltRun` |
| TreeRecreationFacts.RunAttributesGet | tree_docx.py:28-35 | the run attribute dict holds each property under its own key |
| TreeRecreationFacts.ParagraphNodeRecreated | tree_docx.py:118-121 | a paragraph node adds one paragraph holding its rebuilt runs |
| TreeRecreationFacts.ParagraphNodesRecreated | tree_docx.py:138-139 | the paragraph nodes add their paragraphs in order |
| TreeRecreationFacts.ImagesGroupRecreated | tree_docx.py:135-139 | the "images" node adds its pictures outside every paragraph |
| TreeRecreationFacts.DocxTreeRoundTrip | tree_docx.py:18-141 | building the tree of a Word document and recreating from it gives each paragraph's rebuilt runs, then one picture per image relationship |
| TreeRecreationFacts.TextNodesRecreated | tree_docx.py:120 | PDF text nodes produce nothing |
| TreeRecreationFacts.PageNodeRecreated | tree_docx.py:135-139 | a page node adds only its pictures |
| TreeRecreationFacts.PdfTreeRecreated | tree_docx.py:69-141 | recreating from a PDF tree gives only the pictures, page by page |
| TreeRecreationFacts.PdfPicturesArePictures | tree_docx.py:135-136 | every block recreated from a PDF tree is a picture |
| TreeDisplay.DisplayLineCount | tree_docx.py:61-67 | one line per node and one per attribute entry |
| TreeDisplay.DisplayIndented | tree_docx.py:62-67 | the first line is the upper-cased header, and every line of a subtree carries at least its 4*level indent |
| TreeDisplay.DisplayAllIndented | tree_docx.py:66-67 | the children's lines carry the deeper indent |
| TreeDisplay.HeadIndented | tree_docx.py:62-65 | the header and attribute lines start with the node's own indent |
| DocxDetails.EffectiveFontName | docx-test.py:5-17 | a set run font always wins; otherwise a missing paragraph style raises (AttributeError), and after an unset style font a missing 'Normal' style raises (KeyError); a name returned is never empty |
| DocxDetails.EffectiveFontNameIsFirstNamed | docx-test.py:5-17 | when nothing is raised, the result is the first set name among run, paragraph style and Normal style; it is "Default Font" exactly when none is set or the winner is literally that |
| DocxDetails.FirstNamedIsFirst | docx-test.py:7-17 | the chosen name is the earliest set candidate, and the fallback when none is set |
| DocxDetails.ApplyFormatting | docx-test.py:51-62 | the result is prefix + text + reverse(prefix), and its length is len(text) + 4*bold + 2*italic + 4*underline |
| DocxDetails.FormattedShape | docx-test.py:52-60 | with palindromic delimiters, the closing delimiters mirror the opening ones |
| DocxDetails.FormattingPlain | docx-test.py:58-62 | with bold, italic and underline all off, the text is unchanged |
| DocxDetails.FormattingAll | docx-test.py:52-60 | with all three on, the result is "__***" + text + "***__" |
| DocxDetails.OpeningOfMarkers | docx-test.py:52-56 | the opening is underline, then italic, then bold delimiters, each only when on |
| DocxDetails.ReverseAppend | docx-test.py:53-55 | the reverse of a concatenation is the reversed parts in swapped order |
| DocxDetails.ReadDetails | docx-test.py:20-49 | fails exactly when a run's font lookup raises or an image relationship is external; a font failure comes before any image file; otherwise the text is the "\n"-join of one detail line per run and a "\n" entry per paragraph, and image files are numbered image0.png, image1.png, ... per image relationship |
| DocxDetails.SaveImages | docx-test.py:40-47 | image{k}.png for the k-th image relationship; at an external target it stops, having written a proper prefix of the full numbering |
| DocxDetails.RunDetailDefaults | docx-test.py:33-35 | a run without size or colour is listed as "Text: ..." ending in ", Size: Default Size, Color: Default Color" |
| DocxDetails.DetailLinesCount | docx-test.py:29-37 | detailed_text has one entry per run plus one per paragraph |
| DocxDetails.DetailLinesSeparators | docx-test.py:35-37 | exactly one entry per paragraph is "\n", and it ends that paragraph's entries |
| DocxDetails.ImagePathsDistinct | docx-test.py:44 | the image files have distinct paths, so none overwrites another |

## Left out

- File and directory I/O is not modelled. This covers `_ensure_folder_exists`, `os.makedirs`, image byte writes, `doc.save` and `pymupdf.open`/`convert_to_pdf`. The paths that would be written are computed and returned.
- JSON (de)serialisation (`_save_metadata`, `_load_metadata`) is not modelled. The sidecar is a record value.
- A missing `record[key]` is not modelled. Keys read with `.get` or `in` distinguish absent, null and value.
- The libraries (PyMuPDF, python-docx, `Pt`, `RGBColor`) are abstract records. Image bytes and decoding are not modelled.
- Floating point is not modelled. Font sizes and bounding boxes are `real` and are only copied or tested against zero. The division `r/255` in `recreate_pdf` is left as the three colour bytes.
- `str.upper()` is an abstract processor function. `Strings.Upper` and `Strings.Lower` are ASCII-only.
- `str()` of a float and of an `RGBColor` in `display_tree` and in docx-test.py are parameters.
- `translate_text_in_pptx`, `change_text_in_pptx`, server.py, pdf-test.py and test_pptx.py are not part of this model. Their logic is a network call or HTTP and printing glue.
- `WD_UNDERLINE` values are abstracted to a boolean.
- Attribute dicts are entry sequences. The builders only create distinct keys.
- TreeNode.AddChild requires that the added node does not contain the parent, because a cycle would make the tree infinite. Shared subtrees remain allowed.
- TreeRecreation.FontSizeOf does not model `Pt`'s rounding to EMU or python-docx's range check on huge or negative sizes.
- `Pt`'s truncation to whole EMUs is not modelled in `recreate_docx`: a rebuilt size is the recorded number of points. Only the size setter's range check is modelled.
- TreeRecreation.Step does not model whether `add_picture` finds the file at the path.
- The state after an exception is not described for the tree walk, `recreate_docx` and the extraction paths. An error ends the operation, and only the fact of failure (and, where the source distinguishes them, its kind) is stated. On an external image target `rel.target_part` raises a ValueError in `extract_text_images_from_docx` and docx-test.py, and `rel._target.blob` an AttributeError in `build_docx_tree`; the model returns `ok == false`.
- DocxTreeBuilder.AddImageNode: the source creates the image node before looking up the "images" node. The model creates it after, which gives the same tree.

## Findings

| source | as written | input that shows it | evidently intended | confidence | as-written member | corrected member |
|---|---|---|---|---|---|---|
| extractor.py:187-188 | a table run applies the size whenever the key is present, so `Pt(None)` raises on the null that extraction writes for an unset size | a one-cell table whose run has no explicit size (sidecar "font_size": null) | apply it only when truthy, as for body runs (file_manipulator.py:243-244) | high, not executed | DocxRoundTrip.ExtractorUnsizedTableRunRaises | DocxRecreation.ManipulatorRebuildOk |
| extractor.py:189-190 | a table run applies the colour whenever the key is present, so `RGBColor(*None)` raises on the null that extraction writes for an unset colour | a one-cell table whose sized run has no explicit colour (sidecar "color": null) | apply it only when truthy, as for body runs (file_manipulator.py:245-246) | high, not executed | DocxRoundTrip.ExtractorUncolouredTableRunRaises | DocxRecreation.ManipulatorRebuildOk |
| extractor.py:182 | table run text is added without the content processor, so upper-casing leaves tables unchanged | a one-cell table with the run "a", upper-cased | process table text like body text (file_manipulator.py:239) | high, not executed | DocxRoundTrip.ExtractorUppercaseSkipsTables | DocxRecreation.ManipulatorCellTextProcessed |
