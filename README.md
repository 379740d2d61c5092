# Document ingestion core of the RAG assignment, in Dafny

This project models the preprocessing and control flow of the indexer's
ingestion pipeline, plus the routing table of the retrieval chat graph.

The ingestion pipeline takes one document file and sniffs its MIME type. For
a slide deck it uploads the deck's extracted text instead; any other file,
a PDF included, is uploaded unchanged from its own path. It polls the
document service until processing has settled, asks for the metadata
(title, agency, year, topics) and validates it against the zod schema.
Temporary files are removed afterwards. The processor registry in
`src/indexer/fileProcessor.ts`, which the pipeline does not call, converts
slide decks to PDF and slices PDFs to at most 10 pages.

Modules, one per source file plus two for the Node libraries used:

- `Wrappers`: `Option`, `Result` and `Outcome`.
- `PosixPath`: the parts of Node's `path` that the indexer uses.
  - `basename` and `dirname` follow Node's algorithm character by character, and so does `parse(..).name` for a file name without separators, the only kind the indexer passes to it.
  - `join` is limited to a directory plus one file name.
- `NodeFs`: a `FileSystem` class whose `files` map stands for the disk, with `existsSync`, `readFileSync`, `writeFileSync` and `unlinkSync`.
- `TempFiles` (`src/indexer/utils.ts`): temporary-file naming, writing and cleanup.
- `FileProcessor` (`src/indexer/fileProcessor.ts`): the page slicer, the three processors and the registry.
- `MetadataSchema`: the JSON values `JSON.parse` yields and `zodMetadataSchema.parse`.
- `ExtractMetadata` (`src/indexer/extractMetadata.ts`): slide-deck text extraction, upload configuration, upload with a `try/finally` cleanup, status polling and metadata extraction.
- `ChatGraph` (`src/rag/index.ts`): `shouldRetrieve`, `gradeDocumentsDecision` and the edge table of the state graph.

### How the model is built

Every effect outside the program becomes a parameter.

- The libraries and the remote service are records of functions: the `Tools` and `PdfLibrary` records (LibreOffice, pdf-lib) and the `Services` record (file-type, officeparser, Gemini, `JSON.parse`). A function returning an `Option` returns `None` where the real call throws, with one exception: `sniff` returns `None` where `fileTypeFromBuffer` resolves to `undefined`. `PdfLibrary.copyable` returns `false` where `copyPages` would throw, and `Services.encodeText` cannot fail.
- The successive answers of `ai.files.get` form an input sequence of `StatusReply`s: either a reported `FileState` or `FetchFailed`, for a call that throws.
- Every method that changes the disk is specified by a pure function of the old file map and its inputs: `Processed`, `Dispatched`, `TextExtracted`, `ConfigCreated`, `Uploaded`, `Extracted`.
  - That function returns the result together with the new file map.
  - Where remote calls happen, it also returns the sequence of calls (`Event`s).
  - The properties are lemmas about these functions.

### Behaviour worth knowing

- **Missing `agency` or `year` is rejected.** `z.string().nullable()` and `z.number().nullable()` accept `null` but not a missing key, so `zodMetadataSchema.parse` throws. `MetadataSchema.MissingNullableKeysRejected` proves this for the response `{"title":"Q3 Report","topics":["finance"]}`.
- **Polling has a fixed interval and no retry.** `waitForFileProcessing` fetches the status again every 5000 ms while it is PROCESSING. No call in `src/indexer/extractMetadata.ts` is retried.
- **Slicing never fails a processor.** `slicePdfToPages` catches every failure itself and returns the original bytes. A PDF processor therefore fails only when it cannot read its source, or cannot write its temporary file, which the model treats as always succeeding.
- **Slide decks are handled two ways.** `extractMetadata.ts` uploads a slide deck as its extracted text, while the registry of `fileProcessor.ts` converts it to PDF. The registry is not called from `extractMetadata.ts`; each file is modelled as written.
- **The temporary file is gone before generation.** The `finally` of `uploadFile` removes it, so once `uploadFile` returns or throws, the file no longer exists. The generation call and the validation run afterwards.

## Model

| member | source | states |
|---|---|---|
| FileProcessor.SlicePdfToPages | src/indexer/fileProcessor.ts:26-62 | Builds the new document page by page and returns exactly the bytes the slicing rule gives: the input when loading throws, when the document has at most `maxPages` pages, or when copying or saving throws; otherwise the saved copy of the first `maxPages` pages. `maxPages` defaults to `MAX_PDF_PAGES`, which is 10. |
| FileProcessor.SlicedPages | src/indexer/fileProcessor.ts:31-56 | With a PDF library that reads back what it saves, and no throw during copying or saving, the result loads as exactly the first min(totalPages, maxPages) pages of the source, in their original order. |
| FileProcessor.SliceKeepsInput | src/indexer/fileProcessor.ts:30-61 | Fail-soft, and no re-encoding of small documents: the input bytes come back unchanged when loading, copying or saving fails, or when the page count is at most `maxPages`. |
| FileProcessor.ProcessPowerPoint | src/indexer/fileProcessor.ts:69-97 | Reads the deck, converts it to PDF, slices it and writes `<stem>_converted_sliced.pdf`. The result and the new disk are those of `Processed(PowerPointProcessor, ..)`. A failed read or conversion throws and writes nothing. |
| FileProcessor.ProcessPdf | src/indexer/fileProcessor.ts:105-129 | Reads the PDF, slices it and writes `<stem>_sliced.pdf`. The result and the new disk are those of `Processed(PdfProcessor, ..)`. Only a failed read throws. |
| FileProcessor.Process | src/indexer/fileProcessor.ts:164 | Each processor's `process` has the result and disk effect of `Processed` for that processor. |
| FileProcessor.ConvertingProcessorShape | src/indexer/fileProcessor.ts:69-129 | On success, the PowerPoint and PDF processors return a record whose `filePath` equals its `tempFilePath` and whose `mimeType` is `application/pdf`. Its `displayName` is `<stem>_converted_sliced.pdf` or `<stem>_sliced.pdf`, which is also the last segment of the path. `dirname` of the path names the original's directory up to trailing separators, and is exactly the original's `dirname` when the original path has no empty segments. The path is never the original path. It is the only file added or changed. When the processor throws, the disk is unchanged. |
| FileProcessor.FailSoftSlicingFailFastConversion | src/indexer/fileProcessor.ts:72-128 | The PDF processor succeeds exactly when its source can be read. The PowerPoint processor succeeds exactly when its source can be read and converted. |
| FileProcessor.PdfTempFileIsBounded | src/indexer/fileProcessor.ts:105-124 | With a faithful PDF library and a slice that does not throw, the temporary file written by the PDF processor holds the first min(n, 10) pages of the n-page source. |
| FileProcessor.CanHandle | src/indexer/fileProcessor.ts:65-67 | The PowerPoint processor accepts exactly the PowerPoint MIME type, the PDF processor exactly `application/pdf`, and the catch-all every type (also lines 101-103 and 133-135). |
| FileProcessor.ProcessDefault | src/indexer/fileProcessor.ts:137-145 | The catch-all passes the file on from its own path, with no MIME type and no temporary file, under its base name, which has no separator. |
| FileProcessor.FirstHandler | src/indexer/fileProcessor.ts:159 | The index `find` returns is that of the first processor whose `canHandle` accepts the type; `None` means no processor accepts it. |
| FileProcessor.FindProcessor | src/indexer/fileProcessor.ts:159 | The linear search stops at the first processor that accepts the type, or reports that none does. |
| FileProcessor.RegistryDispatch | src/indexer/fileProcessor.ts:133-162 | The default processor list picks the PowerPoint processor exactly for the PowerPoint type and the PDF processor exactly for `application/pdf`. For every other type it picks the catch-all, so "No processor found" is never thrown. |
| FileProcessor.OtherTypesPassThrough | src/indexer/fileProcessor.ts:137-145 | Any type other than PowerPoint or PDF is passed on from its own path, under its base name, with no MIME type and no temporary file, and the disk is untouched. |
| FileProcessor.FileProcessorRegistry.constructor | src/indexer/fileProcessor.ts:149-153 | The registry holds the processors in the order PowerPoint, PDF, catch-all. |
| FileProcessor.FileProcessorRegistry.ProcessFile | src/indexer/fileProcessor.ts:155-165 | Hands the file to the first processor that accepts its type, with that processor's result and disk effect. If no processor accepts it, it throws "No processor found" and leaves the disk as it was. |
| TempFiles.CreateTempFilePath | src/indexer/utils.ts:9-20 | The display name is `<stem>_<suffix>.<extension>`, built from the original's base name without its extension, and the temporary path ends with it. |
| TempFiles.TempFileNameParts | src/indexer/utils.ts:14-16 | The temporary name is a single segment `<stem>_<suffix>.<extension>`. Parsing it back gives the original name's stem followed by `_<suffix>`. |
| TempFiles.TempPathLocation | src/indexer/utils.ts:14-21 | `displayName` is the last segment of `tempFilePath`. For every original path, `dirname` of the temporary path names the same directory as `dirname` of the original, up to trailing separators. When the original path has no empty segments, the two `dirname`s are the same string. |
| TempFiles.TempPathIsFresh | src/indexer/utils.ts:14-17 | The temporary path is never the original path. |
| TempFiles.Cleaned | src/indexer/utils.ts:25-30 | `cleanupTempFile` leaves the disk unchanged for an absent or empty path. Otherwise the path is no longer on the disk afterwards, whether or not it was there before. No other file is removed or altered. |
| TempFiles.CleanupIdempotent | src/indexer/utils.ts:25-30 | Cleaning up twice is the same as cleaning up once. |
| TempFiles.CleanupTempFile | src/indexer/utils.ts:25-30 | The disk after the call is `Cleaned(old disk, path)`. |
| TempFiles.WriteTempFile | src/indexer/utils.ts:32-34 | The path now holds the content, and every other file is as it was. |
| MetadataSchema.Strings | src/indexer/extractMetadata.ts:23 | `z.array(z.string())` accepts an array exactly when every item is a string, and yields those strings in order. |
| MetadataSchema.InvalidKeys | src/indexer/extractMetadata.ts:17-24 | A key is reported if and only if its field fails its schema, and only schema keys are ever reported. |
| MetadataSchema.ParseMetadata | src/indexer/extractMetadata.ts:17-24 | Validation succeeds exactly when the value is an object in which `title` is a string, `agency` is a string or null, `year` is a number or null, and `topics` is an array of strings. The record then carries those values. A non-object yields "expected object". Otherwise exactly the offending keys are reported: each of the four keys is reported if and only if its field fails its schema, and at least one is. |
| MetadataSchema.ParseToJson | src/indexer/extractMetadata.ts:17-24 | Every metadata record validates from its own JSON form and comes back unchanged. |
| MetadataSchema.UnknownKeysIgnored | src/indexer/extractMetadata.ts:17-24 | Keys outside the schema never change the outcome of validation. |
| MetadataSchema.TopicsStringRejected | src/indexer/extractMetadata.ts:23 | A string in `topics` is not coerced to a list: validation throws and names `topics`. |
| MetadataSchema.MissingNullableKeysRejected | src/indexer/extractMetadata.ts:21-22 | `{"title":"Q3 Report","topics":["finance"]}` is rejected, with `agency` and `year` reported, rather than completed with nulls. |
| ExtractMetadata.FirstSettled | src/indexer/extractMetadata.ts:85 | The poll stops at the first answer that is not a PROCESSING report; every earlier answer was PROCESSING. |
| ExtractMetadata.PollTraceShape | src/indexer/extractMetadata.ts:83-93 | After k PROCESSING reports, the calls alternate: a status fetch, then for each report a 5000 ms sleep and another fetch, 2k + 1 events in all. |
| ExtractMetadata.PollCounts | src/indexer/extractMetadata.ts:83-93 | k PROCESSING reports cost exactly k sleeps and k + 1 status fetches. |
| ExtractMetadata.WaitForFileProcessing | src/indexer/extractMetadata.ts:82-98 | Fetches again every 5000 ms while the status is PROCESSING and stops at the first other answer. If that fetch throws, the error is passed on. If it reports FAILED, it throws "File processing failed.". Otherwise it returns normally. In every case the calls made are the fetches and sleeps up to that answer. |
| ExtractMetadata.PollExample | src/indexer/extractMetadata.ts:58 | The states PROCESSING, PROCESSING, ACTIVE give two sleeps and three fetches. |
| ExtractMetadata.ExtractedTextPathIsTempPath | src/indexer/extractMetadata.ts:67-70 | The slide deck's text file is `<dir>/<stem>_extracted.txt`, the same path `createTempFilePath(.., "extracted", "txt")` builds. It is never the source path. |
| ExtractMetadata.UploadConfigShape | src/indexer/extractMetadata.ts:114-134 | For a slide deck, the upload comes from the text file, which the configuration owns as its temporary file, with display name `<stem>_extracted.txt` and MIME type `text/plain`. Any other file is uploaded from its own path, under its base name, with no MIME type and no temporary file. |
| ExtractMetadata.ExtractTextFromPowerPoint | src/indexer/extractMetadata.ts:60-80 | Parses the deck and writes its text next to it, returning the text file's path. If parsing fails it throws and writes nothing. The text itself, which the source also returns, is not returned, because its only caller uses just the path. |
| ExtractMetadata.CreateUploadConfig | src/indexer/extractMetadata.ts:107-135 | Returns the configuration and disk effect of `ConfigCreated`: the text extraction runs only for the PowerPoint type. |
| ExtractMetadata.UploadFile | src/indexer/extractMetadata.ts:137-159 | Reads and sniffs the file, then builds the configuration. It uploads and polls inside `try`, and removes the configuration's temporary file in `finally`, whether the upload succeeds, the upload throws, a status fetch throws or processing fails. |
| ExtractMetadata.UnsupportedTypeFailsClosed | src/indexer/extractMetadata.ts:138-146 | When sniffing finds no type, `uploadFile` throws "Unsupported file type" before any file is written or any remote call is made. |
| ExtractMetadata.ConfigOwnsWhatItWrites | src/indexer/extractMetadata.ts:107-135 | Building a configuration either throws and leaves the disk as it was, or leaves behind only the one temporary file that the configuration records. |
| ExtractMetadata.UploadLeavesNoTempFile | src/indexer/extractMetadata.ts:146-158 | On every path through `uploadFile`, including a throwing upload or status fetch, the disk ends as it started. The only exception is a slide deck's text file, which, if it existed before, no longer does. The source file is never touched. |
| ExtractMetadata.UploadWaitsForProcessing | src/indexer/extractMetadata.ts:148-154 | An upload returns only after its status has settled on a reported state other than PROCESSING or FAILED, with one more fetch than sleeps. FAILED, or a status fetch that throws, ends the upload with that error after the same polling. |
| ExtractMetadata.ExtractMetadata | src/indexer/extractMetadata.ts:162-182 | Upload, then generation, then `JSON.parse`, then schema validation, with each failure thrown in turn. The result, the call sequence and the disk are those of `Extracted`. |
| ExtractMetadata.ExtractedMetadataIsValidated | src/indexer/extractMetadata.ts:163-181 | Metadata is returned only for an upload whose final status was reported as a state other than PROCESSING or FAILED. It is exactly what validation makes of the parsed generation response for that upload; generation is the last call, and the disk is as `uploadFile` left it. |
| ChatGraph.ShouldRetrieve | src/rag/index.ts:38-45 | Routes to `retrieve` exactly when the last message is an AI message with at least one tool call, and to END in every other case, including an empty list. |
| ChatGraph.GradeDocumentsDecision | src/rag/index.ts:47-50 | Throws on an empty list. Otherwise it routes to `generate` exactly when the last message's content is `generate`, and to `rewrite` exactly when it is not. |
| ChatGraph.RouterTargetsExact | src/rag/index.ts:38-50 | Each router returns only its two targets, and each target is chosen for some message list. |
| ChatGraph.EdgeTable | src/rag/index.ts:59-66 | The edges are exactly these eight: START to generateQueryOrRespond; generateQueryOrRespond to retrieve or END; retrieve to gradeDocuments; gradeDocuments to generate or rewrite; generate to END; rewrite to generateQueryOrRespond. |
| ChatGraph.EndOnlyFrom | src/rag/index.ts:61-65 | END is entered exactly from generateQueryOrRespond and from generate. |
| ChatGraph.StartAndEndAreTerminals | src/rag/index.ts:59-66 | No edge enters START and no edge leaves END. |
| ChatGraph.Outgoing | src/rag/index.ts:58-66 | The declaration found for a node is one of the builder's declarations and leaves that node; when none is found, no declaration leaves it. |
| ChatGraph.NextFollowsEdges | src/rag/index.ts:58-66 | Every step the graph takes is an edge of the table. Only END has no next node. Only gradeDocuments can fail to choose one, on an empty message list. |
| ChatGraph.GenerateFollowsGrading | src/rag/index.ts:61-64 | In every run, the answer is generated only right after the sequence generateQueryOrRespond, retrieve, gradeDocuments. |
| ChatGraph.PredecessorOf | src/rag/index.ts:59-66 | A node with a single predecessor in the table is entered only from that predecessor. |
| ChatGraph.SinglePredecessors | src/rag/index.ts:62-66 | generate and rewrite are entered only from gradeDocuments, gradeDocuments only from retrieve, and retrieve only from generateQueryOrRespond. |
| ChatGraph.EveryNodeOnACompleteRun | src/rag/index.ts:52-66 | Every node lies on some run from START to END. |

## Left out

- I/O, timers and logging.
  - `console` output is not modelled.
  - `setTimeout` waits (`src/indexer/extractMetadata.ts:89-91`) are recorded only as `Sleep(5000)` events.
  - The `sleep` helper (`src/indexer/utils.ts:36-37`) is called nowhere and is not modelled.
  - Asynchrony is not modelled: every `await` is a plain call.
- Disk failures other than a missing file.
  - `writeFileSync` and `unlinkSync` are modelled as always succeeding.
  - `readFileSync` fails only for a missing path.
- Library internals.
  - A throwing `fileTypeFromBuffer` (`src/indexer/extractMetadata.ts:139`) is not modelled; `sniff` always answers, with `None` for an unrecognised type.
  - pdf-lib, LibreOffice, officeparser, file-type, Gemini and `JSON.parse` are functions supplied as parameters.
  - A PDF is its sequence of pages.
  - `parseOfficeAsync` reads the deck's bytes from the disk model.
  - The upload oracle sees the upload configuration, not the bytes behind its path.
- FileProcessor.SlicePdfToPages: `maxPages` is a natural number. A negative or fractional `maxPages`, which JavaScript would accept, is not modelled.
- ExtractMetadata.WaitForFileProcessing: requires that some status fetch eventually reports a state other than PROCESSING or throws (`Settles`). The source loops for ever otherwise; that non-terminating run is not modelled. `Uploaded`, `UploadFile`, `Extracted`, `ExtractMetadata` and `UnsupportedTypeFailsClosed` carry the same assumption on every path, including the read-failure, unsupported-type, configuration-failure and upload-throw paths, where it is never used because no status is fetched.
- ExtractMetadata.ExtractTextFromPowerPoint: returns only the text file's path. The source also returns the extracted text (`src/indexer/extractMetadata.ts:75`), which its only caller never uses.
- Retry of transient generation errors: the modelled code has no retry loop, so none is modelled.
- MetadataSchema.ParseMetadata:
  - JSON numbers are mathematical reals, so floating-point rounding is not captured.
  - Thrown errors report the offending fields, not zod's full issue list.
- ChatGraph.ShouldRetrieve and ChatGraph.GradeDocumentsDecision:
  - A message's content is its text. langchain's content-part arrays, which never equal `"generate"`, are not modelled.
  - `AIMessage.isInstance(undefined)` is taken to be false.
- The graph's nodes:
  - `generateQueryOrRespond`, the retriever tool node, `gradeDocumentsNode`, `rewriteNode` and `generateNode` call language models and the vector store, and are not modelled.
  - `gradeDocumentsNode` returns the bare string `generate` or `rewrite` rather than a state update (`src/rag/nodes/gradeDocuments.ts:38-41`), so its verdict never reaches the message list that `gradeDocumentsDecision` reads. The source's own TODO at `src/rag/index.ts:71-73` records the resulting `InvalidUpdateError`.
  - The graph's `main` driver and streaming are not modelled.
- Path normalisation:
  - `path.join` is modelled for a directory and one file name, without Node's normalisation of `.` and `..` segments or of doubled separators inside the directory.
  - The same-directory property is therefore stated as equality of `dirname`s up to trailing separators; exact equality is stated for original paths with no empty segments.
- `cleanupTempFile` in `src/indexer/extractMetadata.ts:100-105` is the same function as the one in `src/indexer/utils.ts:25-30`, apart from its log message. It is modelled once, as `TempFiles.CleanupTempFile`.
- Files outside the core:
  - `src/indexer/indexer.ts` and `src/indexer/getFilePaths.ts` (directory loading, embedding, splitting).
  - `src/rag/vectorStore.ts`, `src/rag/embeddings.ts`, `src/rag/state.ts` and `src/rag/tools/retrieve.ts` (client construction and schema declarations).
  - `src/rag/nodes/generate.ts` and `src/rag/nodes/rewrite.ts` (prompt templates).
- Gemini's response schema (`geminiMetadataSchema`) is a request parameter; only the zod validation of the answer is modelled.
