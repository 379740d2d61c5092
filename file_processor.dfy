/**
  The format processor registry: each processor says which MIME types it
  accepts and turns a source file into the file to upload. Slide decks are
  converted to PDF and sliced, PDFs are sliced, everything else is uploaded
  as it is.
*/
module FileProcessor {
  import opened Wrappers
  import opened PosixPath
  import opened NodeFs
  import opened TempFiles

  const POWERPOINT_MIME_TYPE: string :=
    "application/vnd.openxmlformats-officedocument.presentationml.presentation"
  const PDF_MIME_TYPE: string := "application/pdf"
  const MAX_PDF_PAGES: nat := 10

  /** The file handed to the upload step; `mimeType` `None` lets the service infer it. */
  datatype ProcessedFile = ProcessedFile(
    filePath: string,
    mimeType: Option<string>,
    tempFilePath: Option<string>,
    displayName: string)

  /** A PDF page as the PDF library copies it between documents. */
  datatype Page = Page(content: Bytes)

  /**
    The PDF library (`pdf-lib`): `load` parses a document into its pages,
    `copyable` says whether `copyPages` can copy a page into a new document,
    and `save` serialises a document; `None` and `false` stand for a throw.
  */
  datatype PdfLibrary = PdfLibrary(
    load: Bytes -> Option<seq<Page>>,
    copyable: Page -> bool,
    save: seq<Page> -> Option<Bytes>)

  /** The external tools the processors call: LibreOffice's converter and the PDF library. */
  datatype Tools = Tools(convert: Bytes -> Option<Bytes>, pdf: PdfLibrary)

  /**
    `newPdfDoc.copyPages(pdfDoc, Array.from({ length: n }, (_, i) => i))`:
    copies of the first `n` pages, or a throw.
  */
  function CopyFirstPages(lib: PdfLibrary, doc: seq<Page>, n: nat): Option<seq<Page>>
    requires n <= |doc|
  {
    if forall k :: 0 <= k < n ==> lib.copyable(doc[k]) then Some(doc[..n]) else None
  }

  /** The bytes `slicePdfToPages(pdfBuffer, maxPages)` resolves to. */
  function Sliced(lib: PdfLibrary, pdfBuffer: Bytes, maxPages: nat): Bytes
  {
    match lib.load(pdfBuffer)
    case None => pdfBuffer
    case Some(doc) =>
      if |doc| <= maxPages then pdfBuffer
      else match CopyFirstPages(lib, doc, maxPages)
        case None => pdfBuffer
        case Some(pages) =>
          match lib.save(pages)
          case None => pdfBuffer
          case Some(out) => out
  }

  /** A PDF library whose `load` reads back exactly the pages that `save` wrote. */
  ghost predicate LoadsWhatItSaves(lib: PdfLibrary)
  {
    forall pages: seq<Page> :: lib.save(pages).Some? ==> lib.load(lib.save(pages).value) == Some(pages)
  }

  /** Slicing `doc` copies and saves without a throw (trivially so when no slicing is needed). */
  predicate SliceWorks(lib: PdfLibrary, doc: seq<Page>, maxPages: nat)
  {
    |doc| <= maxPages
    || ((forall k :: 0 <= k < maxPages ==> lib.copyable(doc[k])) && lib.save(doc[..maxPages]).Some?)
  }

  function Min(a: nat, b: nat): nat { if a <= b then a else b }

  /**
    When slicing works, the result loads as exactly the first
    min(totalPages, maxPages) pages of the source, in their original order.
  */
  lemma SlicedPages(lib: PdfLibrary, pdfBuffer: Bytes, maxPages: nat)
    requires LoadsWhatItSaves(lib)
    requires lib.load(pdfBuffer).Some? && SliceWorks(lib, lib.load(pdfBuffer).value, maxPages)
    ensures var doc := lib.load(pdfBuffer).value;
      lib.load(Sliced(lib, pdfBuffer, maxPages)) == Some(doc[..Min(|doc|, maxPages)])
  {
    var doc := lib.load(pdfBuffer).value;
    if |doc| > maxPages {
      assert lib.load(lib.save(doc[..maxPages]).value) == Some(doc[..maxPages]);
    } else {
      assert doc[..|doc|] == doc;
    }
  }

  /**
    Slicing is fail-soft and never re-encodes a small document: the input comes
    back unchanged when it cannot be loaded, when it already has at most
    `maxPages` pages, or when copying or saving throws.
  */
  lemma SliceKeepsInput(lib: PdfLibrary, pdfBuffer: Bytes, maxPages: nat)
    requires lib.load(pdfBuffer).None? || !SliceWorks(lib, lib.load(pdfBuffer).value, maxPages)
      || |lib.load(pdfBuffer).value| <= maxPages
    ensures Sliced(lib, pdfBuffer, maxPages) == pdfBuffer
  {
  }

  /** `slicePdfToPages`: builds the sliced document page by page; `maxPages` defaults to `MAX_PDF_PAGES`. */
  method SlicePdfToPages(lib: PdfLibrary, pdfBuffer: Bytes, maxPages: nat := MAX_PDF_PAGES) returns (r: Bytes)
    ensures r == Sliced(lib, pdfBuffer, maxPages)
  {
    var loaded := lib.load(pdfBuffer);
    if loaded.None? {
      return pdfBuffer;
    }
    var pdfDoc := loaded.value;
    var totalPages := |pdfDoc|;
    if totalPages <= maxPages {
      return pdfBuffer;
    }
    var copied := CopyFirstPages(lib, pdfDoc, maxPages);
    if copied.None? {
      return pdfBuffer;
    }
    var pagesToCopy := copied.value;
    var newPdfDoc: seq<Page> := [];
    var i := 0;
    while i < |pagesToCopy|
      invariant 0 <= i <= |pagesToCopy|
      invariant newPdfDoc == pagesToCopy[..i]
    {
      newPdfDoc := newPdfDoc + [pagesToCopy[i]];
      i := i + 1;
    }
    assert newPdfDoc == pagesToCopy;
    var saved := lib.save(newPdfDoc);
    if saved.None? {
      return pdfBuffer;
    }
    return saved.value;
  }

  datatype Cause = FileNotFound(path: string) | ConversionFailed

  /** The errors `process` and `processFile` throw. */
  datatype ProcessError =
    | PowerPointFailed(cause: Cause)
    | PdfFailed(cause: Cause)
    | NoProcessorFound(mimeType: string)

  datatype Processor = PowerPointProcessor | PdfProcessor | DefaultProcessor

  /** `canHandle` of each processor. */
  predicate CanHandle(p: Processor, mimeType: string): (r: bool)
    ensures p == PowerPointProcessor ==> (r <==> mimeType == POWERPOINT_MIME_TYPE)
    ensures p == PdfProcessor ==> (r <==> mimeType == PDF_MIME_TYPE)
    ensures p == DefaultProcessor ==> r
  {
    match p
    case PowerPointProcessor => mimeType == POWERPOINT_MIME_TYPE
    case PdfProcessor => mimeType == PDF_MIME_TYPE
    case DefaultProcessor => true
  }

  /** `DefaultProcessor.process`: the original path under its own name, no temporary file. */
  function ProcessDefault(filePath: string): (pf: ProcessedFile)
    ensures pf.filePath == filePath && pf.mimeType.None? && pf.tempFilePath.None?
    ensures pf.displayName == BaseName(filePath) && '/' !in pf.displayName
  {
    ProcessedFile(filePath, None, None, BaseName(filePath))
  }

  /** The record the PowerPoint and PDF processors return for a temporary file. */
  function ProcessedPdf(info: TempFileInfo): ProcessedFile
  {
    ProcessedFile(info.tempFilePath, Some(PDF_MIME_TYPE), Some(info.tempFilePath), info.displayName)
  }

  /** What `p.process(filePath)` returns and the file system it leaves behind. */
  function Processed(p: Processor, files: map<string, Bytes>, tools: Tools, filePath: string)
    : (Result<ProcessedFile, ProcessError>, map<string, Bytes>)
  {
    match p
    case DefaultProcessor => (Success(ProcessDefault(filePath)), files)
    case PdfProcessor =>
      if filePath !in files then (Failure(PdfFailed(FileNotFound(filePath))), files)
      else
        var info := CreateTempFilePath(filePath, "sliced", "pdf");
        (Success(ProcessedPdf(info)),
         files[info.tempFilePath := Sliced(tools.pdf, files[filePath], MAX_PDF_PAGES)])
    case PowerPointProcessor =>
      if filePath !in files then (Failure(PowerPointFailed(FileNotFound(filePath))), files)
      else match tools.convert(files[filePath])
        case None => (Failure(PowerPointFailed(ConversionFailed)), files)
        case Some(pdf) =>
          var info := CreateTempFilePath(filePath, "converted_sliced", "pdf");
          (Success(ProcessedPdf(info)), files[info.tempFilePath := Sliced(tools.pdf, pdf, MAX_PDF_PAGES)])
  }

  /** `PowerPointProcessor.process`: convert to PDF, slice, write `<name>_converted_sliced.pdf`. */
  method ProcessPowerPoint(fs: FileSystem, tools: Tools, filePath: string)
    returns (r: Result<ProcessedFile, ProcessError>)
    modifies fs
    ensures (r, fs.files) == Processed(PowerPointProcessor, old(fs.files), tools, filePath)
  {
    var inputBuffer := fs.ReadFileSync(filePath);
    if inputBuffer.None? {
      return Failure(PowerPointFailed(FileNotFound(filePath)));
    }
    var tempInfo := CreateTempFilePath(filePath, "converted_sliced", "pdf");
    var pdfBuffer := tools.convert(inputBuffer.value);
    if pdfBuffer.None? {
      return Failure(PowerPointFailed(ConversionFailed));
    }
    var slicedPdfBuffer := SlicePdfToPages(tools.pdf, pdfBuffer.value);
    WriteTempFile(fs, tempInfo.tempFilePath, slicedPdfBuffer);
    return Success(ProcessedFile(tempInfo.tempFilePath, Some(PDF_MIME_TYPE), Some(tempInfo.tempFilePath), tempInfo.displayName));
  }

  /** `PdfProcessor.process`: slice, write `<name>_sliced.pdf`. */
  method ProcessPdf(fs: FileSystem, tools: Tools, filePath: string)
    returns (r: Result<ProcessedFile, ProcessError>)
    modifies fs
    ensures (r, fs.files) == Processed(PdfProcessor, old(fs.files), tools, filePath)
  {
    var pdfBuffer := fs.ReadFileSync(filePath);
    if pdfBuffer.None? {
      return Failure(PdfFailed(FileNotFound(filePath)));
    }
    var tempInfo := CreateTempFilePath(filePath, "sliced", "pdf");
    var slicedPdfBuffer := SlicePdfToPages(tools.pdf, pdfBuffer.value);
    WriteTempFile(fs, tempInfo.tempFilePath, slicedPdfBuffer);
    return Success(ProcessedFile(tempInfo.tempFilePath, Some(PDF_MIME_TYPE), Some(tempInfo.tempFilePath), tempInfo.displayName));
  }

  /** `processor.process(filePath)` */
  method Process(p: Processor, fs: FileSystem, tools: Tools, filePath: string)
    returns (r: Result<ProcessedFile, ProcessError>)
    modifies fs
    ensures (r, fs.files) == Processed(p, old(fs.files), tools, filePath)
  {
    match p
    case PowerPointProcessor => r := ProcessPowerPoint(fs, tools, filePath);
    case PdfProcessor => r := ProcessPdf(fs, tools, filePath);
    case DefaultProcessor => r := Success(ProcessDefault(filePath));
  }

  /** The record for a temporary PDF named `<stem>_<suffix>.pdf` beside `filePath`. */
  ghost predicate TempPdfRecord(filePath: string, suffix: string, pf: ProcessedFile)
  {
    var name := Stem(BaseName(filePath)) + "_" + suffix + "." + "pdf";
    && pf.tempFilePath == Some(pf.filePath)
    && pf.mimeType == Some(PDF_MIME_TYPE)
    && pf.displayName == name
    && BaseName(pf.filePath) == name
    && TrimTrailingSlashes(DirName(pf.filePath)) == TrimTrailingSlashes(DirName(filePath))
    && (NoEmptySegments(filePath) ==> DirName(pf.filePath) == DirName(filePath))
    && pf.filePath != filePath
  }

  /** `files'` is `files` with `path` added or replaced and every other file kept. */
  ghost predicate WritesOnly(files: map<string, Bytes>, path: string, files': map<string, Bytes>)
  {
    && files'.Keys == files.Keys + {path}
    && (forall q :: q in files && q != path ==> files'[q] == files[q])
  }

  /**
    The record for a temporary PDF named with `suffix`, and the file system
    after writing it.
  */
  ghost predicate TempPdfShape(filePath: string, suffix: string, files: map<string, Bytes>,
                               pf: ProcessedFile, files': map<string, Bytes>)
  {
    TempPdfRecord(filePath, suffix, pf) && WritesOnly(files, pf.filePath, files')
  }

  /** Writing one path adds it and keeps every other file. */
  lemma WriteKeepsOthers(files: map<string, Bytes>, path: string, content: Bytes)
    ensures WritesOnly(files, path, files[path := content])
  {
  }

  lemma TempPdfNamed(filePath: string, suffix: string)
    requires PlainNameParts(suffix, "pdf")
    ensures TempPdfRecord(filePath, suffix, ProcessedPdf(CreateTempFilePath(filePath, suffix, "pdf")))
  {
    TempPathLocation(filePath, suffix, "pdf");
    TempPathIsFresh(filePath, suffix, "pdf");
  }

  /** The two suffixes the converting processors use keep the temporary name a single segment. */
  lemma SuffixesArePlain()
    ensures PlainNameParts("sliced", "pdf") && PlainNameParts("converted_sliced", "pdf")
  {
  }

  lemma TempPdfWritten(filePath: string, suffix: string, files: map<string, Bytes>, content: Bytes)
    requires PlainNameParts(suffix, "pdf")
    ensures var info := CreateTempFilePath(filePath, suffix, "pdf");
      TempPdfShape(filePath, suffix, files, ProcessedPdf(info), files[info.tempFilePath := content])
  {
    var info := CreateTempFilePath(filePath, suffix, "pdf");
    TempPdfNamed(filePath, suffix);
    WriteKeepsOthers(files, info.tempFilePath, content);
  }

  /**
    The PowerPoint and PDF processors upload the temporary PDF they wrote, named
    `<stem>_converted_sliced.pdf` or `<stem>_sliced.pdf` beside the original, and
    write nothing else; when they throw, the file system is unchanged.
  */
  lemma ConvertingProcessorShape(p: Processor, files: map<string, Bytes>, tools: Tools, filePath: string)
    requires p != DefaultProcessor
    ensures var (r, files') := Processed(p, files, tools, filePath);
      && (r.Success? ==>
            TempPdfShape(filePath, if p == PowerPointProcessor then "converted_sliced" else "sliced",
                         files, r.value, files'))
      && (r.Failure? ==> files' == files)
  {
    SuffixesArePlain();
    if filePath in files {
      if p == PdfProcessor {
        var info := CreateTempFilePath(filePath, "sliced", "pdf");
        var content := Sliced(tools.pdf, files[filePath], MAX_PDF_PAGES);
        assert Processed(p, files, tools, filePath) == (Success(ProcessedPdf(info)), files[info.tempFilePath := content]);
        TempPdfWritten(filePath, "sliced", files, content);
      } else if tools.convert(files[filePath]).Some? {
        var info := CreateTempFilePath(filePath, "converted_sliced", "pdf");
        var content := Sliced(tools.pdf, tools.convert(files[filePath]).value, MAX_PDF_PAGES);
        assert Processed(p, files, tools, filePath) == (Success(ProcessedPdf(info)), files[info.tempFilePath := content]);
        TempPdfWritten(filePath, "converted_sliced", files, content);
      }
    }
  }

  /**
    The PDF processor fails only when the source cannot be read: slicing
    errors are absorbed, while the PowerPoint processor also fails when the
    conversion fails.
  */
  lemma FailSoftSlicingFailFastConversion(files: map<string, Bytes>, tools: Tools, filePath: string)
    ensures Processed(PdfProcessor, files, tools, filePath).0.Success? <==> filePath in files
    ensures Processed(PowerPointProcessor, files, tools, filePath).0.Success?
      <==> filePath in files && tools.convert(files[filePath]).Some?
  {
  }

  /**
    With a PDF library that reads back what it saves, the temporary PDF holds
    the first min(n, MAX_PDF_PAGES) pages of the n-page source document.
  */
  lemma PdfTempFileIsBounded(files: map<string, Bytes>, tools: Tools, filePath: string)
    requires LoadsWhatItSaves(tools.pdf)
    requires filePath in files && tools.pdf.load(files[filePath]).Some?
    requires SliceWorks(tools.pdf, tools.pdf.load(files[filePath]).value, MAX_PDF_PAGES)
    ensures var (r, files') := Processed(PdfProcessor, files, tools, filePath);
      var doc := tools.pdf.load(files[filePath]).value;
      && r.Success?
      && tools.pdf.load(files'[r.value.filePath]) == Some(doc[..Min(|doc|, MAX_PDF_PAGES)])
  {
    SlicedPages(tools.pdf, files[filePath], MAX_PDF_PAGES);
  }

  /** The order in which `FileProcessorRegistry` tries its processors. */
  const DefaultProcessors: seq<Processor> := [PowerPointProcessor, PdfProcessor, DefaultProcessor]

  /** `k` is the index `find` stops at: the first processor that accepts `mimeType`. */
  predicate IsFirstHandler(processors: seq<Processor>, mimeType: string, k: nat)
  {
    && k < |processors|
    && CanHandle(processors[k], mimeType)
    && forall j :: 0 <= j < k ==> !CanHandle(processors[j], mimeType)
  }

  /** `processors.find(p => p.canHandle(mimeType))`, as an index. */
  function FirstHandler(processors: seq<Processor>, mimeType: string): (r: Option<nat>)
    ensures r.Some? ==> IsFirstHandler(processors, mimeType, r.value)
    ensures r.None? ==> forall j :: 0 <= j < |processors| ==> !CanHandle(processors[j], mimeType)
  {
    if processors == [] then None
    else if CanHandle(processors[0], mimeType) then Some(0)
    else match FirstHandler(processors[1..], mimeType)
      case None => None
      case Some(k) => Some(k + 1)
  }

  /** There is only one first processor accepting a type. */
  lemma FirstHandlerUnique(processors: seq<Processor>, mimeType: string, i: nat, j: nat)
    requires IsFirstHandler(processors, mimeType, i) && IsFirstHandler(processors, mimeType, j)
    ensures i == j
  {
  }

  /** The linear search of `processFile`. */
  method FindProcessor(processors: seq<Processor>, mimeType: string) returns (found: Option<nat>)
    ensures found.Some? ==> IsFirstHandler(processors, mimeType, found.value)
    ensures found.None? ==> forall j :: 0 <= j < |processors| ==> !CanHandle(processors[j], mimeType)
  {
    var i := 0;
    while i < |processors|
      invariant 0 <= i <= |processors|
      invariant forall j :: 0 <= j < i ==> !CanHandle(processors[j], mimeType)
    {
      if CanHandle(processors[i], mimeType) {
        return Some(i);
      }
      i := i + 1;
    }
    return None;
  }

  /** What `processFile(filePath, mimeType)` returns and the file system it leaves behind. */
  function Dispatched(processors: seq<Processor>, files: map<string, Bytes>, tools: Tools,
                      filePath: string, mimeType: string)
    : (Result<ProcessedFile, ProcessError>, map<string, Bytes>)
  {
    match FirstHandler(processors, mimeType)
    case None => (Failure(NoProcessorFound(mimeType)), files)
    case Some(k) => Processed(processors[k], files, tools, filePath)
  }

  /**
    The registry picks the PowerPoint processor exactly for the PowerPoint
    type, the PDF processor exactly for the PDF type, and the default
    processor for every other type, so "No processor found" never happens.
  */
  lemma RegistryDispatch(mimeType: string)
    ensures FirstHandler(DefaultProcessors, mimeType) ==
      Some(if mimeType == POWERPOINT_MIME_TYPE then 0 else if mimeType == PDF_MIME_TYPE then 1 else 2)
  {
    assert |POWERPOINT_MIME_TYPE| != |PDF_MIME_TYPE|;
    var rest := DefaultProcessors[1..];
    assert rest == [PdfProcessor, DefaultProcessor];
    assert rest[1..] == [DefaultProcessor];
    assert FirstHandler(rest[1..], mimeType) == Some(0);
    if mimeType != POWERPOINT_MIME_TYPE {
      if mimeType == PDF_MIME_TYPE {
        assert FirstHandler(rest, mimeType) == Some(0);
      } else {
        assert FirstHandler(rest, mimeType) == Some(1);
      }
    }
  }

  /**
    A file of any type other than PowerPoint or PDF is uploaded from its own
    path, under its base name, with no MIME type and no temporary file.
  */
  lemma OtherTypesPassThrough(files: map<string, Bytes>, tools: Tools, filePath: string, mimeType: string)
    requires mimeType != POWERPOINT_MIME_TYPE && mimeType != PDF_MIME_TYPE
    ensures Dispatched(DefaultProcessors, files, tools, filePath, mimeType)
      == (Success(ProcessedFile(filePath, None, None, BaseName(filePath))), files)
  {
    RegistryDispatch(mimeType);
  }

  /** `FileProcessorRegistry`: an ordered list of processors, the catch-all last. */
  class FileProcessorRegistry {
    const processors: seq<Processor>

    constructor ()
      ensures processors == DefaultProcessors
    {
      processors := [PowerPointProcessor, PdfProcessor, DefaultProcessor];
    }

    /** `processFile`: hand the file to the first processor that accepts its type. */
    method ProcessFile(fs: FileSystem, tools: Tools, filePath: string, mimeType: string)
      returns (r: Result<ProcessedFile, ProcessError>)
      modifies fs
      ensures (r, fs.files) == Dispatched(processors, old(fs.files), tools, filePath, mimeType)
    {
      var found := FindProcessor(processors, mimeType);
      var expected := FirstHandler(processors, mimeType);
      if found.None? {
        assert expected.None?;
        return Failure(NoProcessorFound(mimeType));
      }
      assert expected.Some?;
      FirstHandlerUnique(processors, mimeType, found.value, expected.value);
      r := Process(processors[found.value], fs, tools, filePath);
    }
  }
}
