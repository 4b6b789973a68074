/** The content processor hook and the upper-casing entry points.

    `str.upper()` is Unicode-aware in Python; it stays an abstract function `upper` here. */
module Processing {
  import opened Wrappers

  /** `_process_text` (file_manipulator.py:50) and the inline form
      `content_processor(text) if content_processor else text` (extractor.py:157, 210):
      a processor is a function, which Python always treats as true. */
  function ProcessText(text: string, processor: Option<string -> string>): (r: string)
    ensures processor.None? ==> r == text
    ensures processor.Some? ==> r == processor.value(text)
  {
    match processor
    case None => text
    case Some(f) => f(text)
  }

  /** Which recreation an upper-casing request runs, and from which metadata folder. */
  datatype Recreation = RecreatePdf(folder: string) | RecreateDocx(folder: string)

  /** file_manipulator.py `convert_text_to_uppercase`: the first argument is the metadata folder;
      an unknown file type does nothing. */
  function ConvertToUppercase(filePath: string, fileType: string): (r: Option<Recreation>)
    ensures fileType == "pdf" <==> r == Some(RecreatePdf(filePath))
    ensures fileType == "docx" <==> r == Some(RecreateDocx(filePath))
    ensures r.None? <==> fileType != "pdf" && fileType != "docx"
  {
    if fileType == "pdf" then Some(RecreatePdf(filePath))
    else if fileType == "docx" then Some(RecreateDocx(filePath))
    else None
  }

  /** extractor.py `convert_text_to_uppercase`: the path argument is ignored and the metadata is
      always read from the fixed folder "output_pdf" or "output_docx". */
  function ExtractorConvertToUppercase(pdfPath: string, fileType: string): (r: Option<Recreation>)
    ensures fileType == "pdf" <==> r == Some(RecreatePdf("output_pdf"))
    ensures fileType == "docx" <==> r == Some(RecreateDocx("output_docx"))
    ensures r.None? <==> fileType != "pdf" && fileType != "docx"
  {
    if fileType == "pdf" then Some(RecreatePdf("output_pdf"))
    else if fileType == "docx" then Some(RecreateDocx("output_docx"))
    else None
  }

  /** Both variants run a rebuild for the same file types, "pdf" and "docx", and the same kind
      of rebuild for each; file_manipulator.py reads the folder it is given, extractor.py the
      folder "output_" followed by the type. */
  lemma UppercaseDispatch(path: string, fileType: string)
    ensures ConvertToUppercase(path, fileType).Some? <==> fileType == "pdf" || fileType == "docx"
    ensures ExtractorConvertToUppercase(path, fileType).Some? <==> ConvertToUppercase(path, fileType).Some?
    ensures ConvertToUppercase(path, fileType).Some? ==>
      && (ConvertToUppercase(path, fileType).value.RecreatePdf? <==> fileType == "pdf")
      && (ExtractorConvertToUppercase(path, fileType).value.RecreatePdf? <==> fileType == "pdf")
      && ConvertToUppercase(path, fileType).value.folder == path
      && ExtractorConvertToUppercase(path, fileType).value.folder == "output_" + fileType
  {
    assert "output_" + "pdf" == "output_pdf";
    assert "output_" + "docx" == "output_docx";
  }

  /** The extractor variant's choice does not depend on its first argument, and agrees with
      file_manipulator.py's exactly when the type is unknown (both do nothing) or that argument
      names the fixed folder of the type. */
  lemma ExtractorIgnoresPath(p1: string, p2: string, fileType: string)
    ensures ExtractorConvertToUppercase(p1, fileType) == ExtractorConvertToUppercase(p2, fileType)
    ensures ExtractorConvertToUppercase(p1, fileType) == ConvertToUppercase(p1, fileType) <==>
      (fileType != "pdf" && fileType != "docx") || p1 == "output_" + fileType
    ensures fileType == "pdf" ==>
      (ExtractorConvertToUppercase(p1, fileType) == ConvertToUppercase(p1, fileType) <==> p1 == "output_pdf")
    ensures fileType == "docx" ==>
      (ExtractorConvertToUppercase(p1, fileType) == ConvertToUppercase(p1, fileType) <==> p1 == "output_docx")
  {
    assert "output_" + "pdf" == "output_pdf";
    assert "output_" + "docx" == "output_docx";
  }
}
