# Favicon converter: a verified model of its conversion logic

The favicon converter turns one uploaded image into a set of favicon files
and offers them as a ZIP archive. It does this in two places:

- **In the browser**, the `ImageUploader` component runs the conversion.
  It compresses the dropped file to a fixed list of sizes, one after
  another. It adds each result to a JSZip archive, updates a progress bar
  and a log, and saves the archive as `favicons.zip`.
- **On the server**, the upload route's `POST` handler runs nine
  conversions concurrently under `Promise.all`. It writes them into a
  per-request temporary directory, zips that directory, removes it, and
  answers with the archive. The log travels in the `X-Conversion-Logs`
  header.

Two small pure builders sit beside these. One produces the page metadata
(`constructMetadata` over `siteConfig`); the other produces the sitemap.

The model is written in Dafny, one module per source file:

| module | file | source |
|---|---|---|
| `Common` | `common.dfy` | shared value types: `Option`, bytes, decimal text of a number |
| `Uploader` | `image_uploader.dfy` | `src/components/ImageUploader.tsx`. The five `useState` fields become the fields of the class `ImageUploader`. The handlers become its methods, and each loop is a `while`/`for` loop. The conversion methods are proved against specification functions (`IcoBlob`, `RunTasks`, `Package`, `Convert`); `OnDrop`, `Log`, `ProcessImage` and `HandleReset` state their new state directly. The lemmas relate those functions to the reference run: the 11-line log, the progress trace `0, 15, 30, 45, 60, 95, 100` and the five archive entries. |
| `UploadRoute` | `upload_route.dfy` | `src/app/api/upload/route.ts`. `Post` is an imperative method with the `logs`, `dir` and `chunks` state of the handler. It is proved equal to the specification function `Respond`. |
| `SiteMetadata` | `metadata.dfy` | `src/config/metadata.ts` |
| `Sitemap` | `sitemap.dfy` | `src/app/sitemap.ts` |
| `Consistency` | `consistency.dfy` | relates the browser's archive to the server's |

The image libraries are parameters of the model: sharp, archiver,
browser-image-compression and JSZip. Each call is a function that returns
`Some(bytes)` or `None` (a rejected promise or an error event). The order
in which the server's nine promises settle is a parameter as well. It is
`order`, any permutation of the plan's indices (`IsSchedule`).
`Promise.all` rejects at the first failure in that order, so the log holds
the completion lines of the promises that settled before it.

Some of what the code does may surprise a reader; the model keeps it:

- **The server leaves its temporary directory behind on failure.** The
  directory is removed only on the path that sends the archive. When a
  conversion, the archiver or the removal itself fails, the handler
  answers 500 and the directory stays on disk. `Post` returns what is left
  on disk as `tempDir`.
- **The browser's `favicon.ico` is the compressed 48-px blob.** It is
  whatever `imageCompression` returns for the third of the `[16, 32, 48]`
  renditions, in the uploaded file's own format; nothing builds an ICO
  container from the three.
- **The server's ICO encoder only sees the 16-px rendition.** It receives
  `buffers[0]` together with the size list. The 32-px and 48-px
  renditions matter only in that they must succeed.
- **`onDrop` throws when no file is accepted.** With an empty list,
  `file` becomes undefined, and then `URL.createObjectURL(undefined)`
  throws before the image and the logs are set. `OnDrop` models this
  with its `threw` result.

## Model

| member | source | states |
|---|---|---|
| `Common.Decimal` | src/components/ImageUploader.tsx:41 | the text of a size in `${size}` is non-empty, all decimal digits, with no leading zero |
| `Common.DecimalValue` | src/components/ImageUploader.tsx:41 | that text, read back digit by digit (`Value`), is the size itself |
| `Uploader.ProcessingLines` | src/components/ImageUploader.tsx:53 | mapping processImage over a size list logs one "Processing image to NxN..." line per size, in list order |
| `Uploader.Steps` | src/components/ImageUploader.tsx:78-82 | after j+1 loop steps from `base`, `setProgress(prev => prev + 15)` has set the progress to base + 15·(j+1) |
| `Uploader.IcoBlob` | src/components/ImageUploader.tsx:50-58 | createICO yields a blob exactly when the 16, 32 and 48 px compressions all succeed, and that blob is the 48-px one |
| `Uploader.Convert` | src/components/ImageUploader.tsx:60-103 | the progress trace of a run always opens with the `setProgress(0)` value 0 |
| `Uploader.ImageUploader.constructor` | src/components/ImageUploader.tsx:14-18 | the initial state: no image, no file, not processing, progress 0, no logs |
| `Uploader.ImageUploader.OnDrop` | src/components/ImageUploader.tsx:20-25 | keeps the first accepted file, shows its object URL and clears the logs; progress and isProcessing are untouched; with no file accepted, file becomes undefined and the call throws before image and logs change |
| `Uploader.ImageUploader.Log` | src/components/ImageUploader.tsx:36-38 | appends exactly the message to the logs and changes nothing else |
| `Uploader.ImageUploader.ProcessImage` | src/components/ImageUploader.tsx:40-48 | logs the size line, then yields the compressor's result for that size |
| `Uploader.ImageUploader.ProcessSizes` | src/components/ImageUploader.tsx:53 | starts a compression for every size in order; logs `ProcessingLines(sizes)`; the k-th blob is the k-th compression |
| `Uploader.ImageUploader.CreateIco` | src/components/ImageUploader.tsx:50-58 | logs "Creating ICO file..." and all three size lines, and returns `IcoBlob` |
| `Uploader.ImageUploader.ConvertImages` | src/components/ImageUploader.tsx:78-82 | the task loop's logs, archive entries and stop flag are those of `RunTasks`; progress rises by 15 per stored entry, and every value it takes is recorded |
| `Uploader.ImageUploader.PackageArchive` | src/components/ImageUploader.tsx:84-96 | createICO, the favicon.ico entry, progress 95, generateAsync, progress 100 and the completion line, as given by `Package` |
| `Uploader.ImageUploader.PackageOrReport` | src/components/ImageUploader.tsx:84-99 | `PackageArchive`, followed by the catch block's error line exactly when it saves nothing |
| `Uploader.ImageUploader.ConvertFile` | src/components/ImageUploader.tsx:64-99 | the logs, the saved archive, the full progress history and the final progress of the try/catch body equal those of `Convert`; it runs only while isProcessing is set and keeps it set for the whole run |
| `Uploader.ImageUploader.HandleConvert` | src/components/ImageUploader.tsx:60-103 | with no file it returns at once and changes nothing; otherwise logs, saved archive, progress history and final progress are `Convert`'s; isProcessing is set before the run, stays set throughout it (the precondition of `ConvertFile`) and ends false; file and image are unchanged |
| `Uploader.ImageUploader.HandleReset` | src/components/ImageUploader.tsx:105-111 | all five fields are back to their initial values |
| `Uploader.RunTasksFailureSticks` | src/components/ImageUploader.tsx:78-82 | once a compression in the loop is rejected, the later tasks change nothing |
| `Uploader.RunTasksShape` | src/components/ImageUploader.tsx:78-82 | the loop logs one line per task it reaches and stores one entry per successful task, in task order; it stops right after the first rejection, which is logged but stores nothing |
| `Uploader.LoopLinesAsLogged` | src/components/ImageUploader.tsx:71-82 | the four loop lines are "Processing image to 512x512..." down to "96x96...", as in the reference log |
| `Uploader.IcoLinesAsLogged` | src/components/ImageUploader.tsx:52-53 | the three ICO lines are "Processing image to 16x16...", "32x32...", "48x48..." |
| `Uploader.FixedLinesAsLogged` | src/components/ImageUploader.tsx:51-96 | the start, "Creating ICO", "Generating ZIP" and completion lines sit at positions 0, 5, 9 and 10 of the reference log |
| `Uploader.LoopAgainstReference` | src/components/ImageUploader.tsx:71-82 | the loop's lines are a prefix of the reference log's lines 1..4; its entries are the named blobs of the compressed sizes; it gets through exactly when the 512, 192, 180 and 96 px compressions succeed |
| `Uploader.ConvertLoopFailure` | src/components/ImageUploader.tsx:78-99 | a rejected loop compression (task k, all earlier ones fine) leaves the log as the reference log up to that task's line plus the error line, the progress at 15·k, and nothing saved |
| `Uploader.ConvertIcoFailure` | src/components/ImageUploader.tsx:84-99 | a rejected ICO compression leaves the first 9 reference lines (all three ICO sizes logged) plus the error line, progress stopped at 60, nothing saved |
| `Uploader.ArchiveEntries` | src/components/ImageUploader.tsx:71-86 | with every compression successful, the archive handed to generateAsync is exactly the five reference entries |
| `Uploader.ConvertZipFailure` | src/components/ImageUploader.tsx:89-99 | a rejected generateAsync leaves the first 10 reference lines plus the error line, progress stopped at 95, nothing saved |
| `Uploader.SuccessLogged` | src/components/ImageUploader.tsx:41-96 | a successful run logs exactly the 11-line reference log |
| `Uploader.ConvertSuccess` | src/components/ImageUploader.tsx:60-103 | a successful run logs the reference log, sets the progress to 0, 15, 30, 45, 60, 95, 100, archives the five entries and saves the generated archive |
| `Uploader.ConvertSaves` | src/components/ImageUploader.tsx:60-103 | the archive reaches saveAs if and only if all seven compressions and generateAsync succeed |
| `Uploader.ConvertTracePrefix` | src/components/ImageUploader.tsx:64-95 | whatever fails, the progress values are a prefix of the reference trace, the whole of it exactly on success |
| `Uploader.ConvertProgress` | src/components/ImageUploader.tsx:64-95 | progress starts at 0, strictly increases, stays within 0..100, and ends at 100 if and only if the archive is saved |
| `Uploader.SuccessEntryNames` | src/components/ImageUploader.tsx:71-86 | the saved archive holds exactly the four task names and favicon.ico: no 48/32/16 px PNG and no favicon.svg |
| `UploadRoute.Renditions` | src/app/api/upload/route.ts:107-109 | `Promise.all` over the PNG renditions succeeds if and only if each one does, and then yields them in size order |
| `UploadRoute.MultiSizeIcoBytes` | src/app/api/upload/route.ts:105-117 | an ICO exists only if the 16, 32 and 48 px renditions do, and it is the encoder's output for the 16-px PNG and the size list [16, 32, 48] |
| `UploadRoute.Post` | src/app/api/upload/route.ts:9-103 | the response and the leftover temporary directory are those of `Respond`, for any completion order |
| `UploadRoute.RespondKinds` | src/app/api/upload/route.ts:13-101 | 400 "No file uploaded" if and only if there is no file, with no directory created; every 500 says "Error processing image" and carries a log opening with "Starting image conversion process..." and leaves the directory; a 200 carries `application/zip`, a Content-Length equal to the body length and the log, and leaves no directory |
| `UploadRoute.RespondSuccess` | src/app/api/upload/route.ts:34-94 | the archive is sent if and only if all nine conversions, the archiver and the removal succeed; its log then has 15 lines: the start line, one completion line for every target in some order, and the fixed five-line tail; the zipped directory holds exactly the nine names, and the body (whose length is the Content-Length) is the archiver's output for that directory |
| `UploadRoute.RespondFailure` | src/app/api/upload/route.ts:95-101 | a failed run answers with the log so far: the start line, the completion lines of the conversions settled before the failure, and the first 0, 2 or 3 tail lines (0 exactly when a conversion failed); the directory is left on disk |
| `UploadRoute.SettleFailureSticks` | src/app/api/upload/route.ts:34-55 | once a conversion promise has rejected, later settlements change nothing |
| `UploadRoute.SettleLines` | src/app/api/upload/route.ts:34-55 | the completion lines are those of the conversions settled before the first failure, in completion order; the run is ok exactly when all settled fine |
| `UploadRoute.SettleLength` | src/app/api/upload/route.ts:34-55 | at most one completion line per settled promise, one for each when all succeed |
| `UploadRoute.PlanNamesDistinct` | src/app/api/upload/route.ts:35-54 | the nine target file names are pairwise distinct |
| `UploadRoute.PlanNameSet` | src/app/api/upload/route.ts:35-54 | the plan's names are exactly the nine archive entry names |
| `UploadRoute.SettleDirNames` | src/app/api/upload/route.ts:34-55 | every conversion that settled successfully has its file in the temporary directory |
| `UploadRoute.SettleDirKeys` | src/app/api/upload/route.ts:21-55 | the temporary directory holds only the plan's file names |
| `UploadRoute.SettleDirBytes` | src/app/api/upload/route.ts:34-55 | the file under each target's name holds the bytes that target's conversion produced |
| `UploadRoute.CompletionLinesDiffer` | src/app/api/upload/route.ts:36-54 | different targets log different completion lines |
| `UploadRoute.CompleteRunLines` | src/app/api/upload/route.ts:34-57 | when all conversions succeed, in any order, each target's completion line appears exactly once among nine lines |
| `UploadRoute.CompleteRunDir` | src/app/api/upload/route.ts:34-71 | when all conversions succeed, the directory archived holds exactly the nine names, each with its conversion's bytes |
| `UploadRoute.SettleOkIff` | src/app/api/upload/route.ts:34-55 | for any completion order, `Promise.all` resolves if and only if every conversion succeeds |
| `UploadRoute.OrderIndependentOutcome` | src/app/api/upload/route.ts:34-55 | the completion order changes neither whether the run succeeds nor the directory that is archived |
| `UploadRoute.OrderIndependentLines` | src/app/api/upload/route.ts:34-55 | in a successful run the completion order changes only the order of the completion lines, not which lines appear |
| `UploadRoute.SvgEntryBytes` | src/app/api/upload/route.ts:51-54 | favicon.svg is byte-identical to an `image/svg+xml` upload, and is the 48 x 48 SVG conversion otherwise |
| `UploadRoute.SvgLinesOnlyFromSvg` | src/app/api/upload/route.ts:36-54 | no target other than favicon.svg logs "Copied original favicon.svg" or "Created favicon.svg" |
| `UploadRoute.SvgEntryLog` | src/app/api/upload/route.ts:51-54 | an SVG upload logs "Copied original favicon.svg" and never "Created favicon.svg"; any other upload the reverse |
| `UploadRoute.IcoEntry` | src/app/api/upload/route.ts:105-117 | favicon.ico is the ICO encoder's output for the 16-px rendition and the sizes [16, 32, 48], after all three renditions succeeded |
| `UploadRoute.NoIcoEncoderNoDownload` | src/app/api/upload/route.ts:111-114 | if the ICO encoder never produces output, every upload with a file is answered 500 "Error processing image" |
| `SiteMetadata.ConstructMetadata` | src/config/metadata.ts:39-105 | the page, Open Graph and Twitter titles agree: "title \| FaviconConverter.com" for a non-empty title, else the site name; the three descriptions agree and fall back to the site description; canonical is the first non-empty of canonical, url and the site URL, at the top level and in alternates; the Open Graph url is url or the site URL; one 1200 x 630 image whose url both cards share and whose alt is the bare title or the site name; type defaults to website |
| `SiteMetadata.JoinAppend` | src/config/metadata.ts:60 | joining a concatenation is joining the parts with one separator between |
| `SiteMetadata.KeywordsExtendDefaults` | src/config/metadata.ts:45-60 | keywords are the six defaults then the caller's, in order, joined with ", "; no (or an empty list of) caller keywords gives exactly the six defaults |
| `SiteMetadata.EmptyStringIsAbsent` | src/config/metadata.ts:57-103 | an empty-string argument builds the same metadata as leaving it out |
| `SiteMetadata.OpenGraphIgnoresCanonical` | src/config/metadata.ts:73-93 | the Open Graph and Twitter objects do not depend on the canonical argument |
| `SiteMetadata.ConstantFields` | src/config/metadata.ts:61-100 | robots, icons, manifest, metadataBase, the Twitter card and the site name are the same for every argument |
| `Sitemap.DatePart` | src/app/sitemap.ts:12 | `split('T')[0]` is the longest prefix without a 'T': it stops at the first 'T' or at the end |
| `Sitemap.MapRoutes` | src/app/sitemap.ts:5-15 | one entry per route, in route order, each built from its route and its own clock reading |
| `Sitemap.Sitemap` | src/app/sitemap.ts:4-18 | four entries for '', /code-platform, /nocode-platform and /blog, each url the site URL followed by the route (the root's is the site URL itself); priority 1 for the root and 0.8 otherwise; daily; lastModified the date part of that entry's clock reading |
| `Sitemap.DatePartOfIso` | src/app/sitemap.ts:12 | of an ISO timestamp date + "T" + time, lastModified keeps exactly the date |
| `Sitemap.SameDaySameSitemap` | src/app/sitemap.ts:10-15 | readings on the same day give the same sitemap, whatever the times |
| `Consistency.SharedPngTargets` | src/components/ImageUploader.tsx:71-76 | the browser's four tasks are the server plan's first four targets, with the same names and sizes; both ICO size lists are [16, 32, 48] |
| `Consistency.BrowserArchiveIsServerArchiveMinusSmallPngsAndSvg` | src/components/ImageUploader.tsx:71-86 | a successful browser archive holds the server's entry names minus favicon-48x48.png, favicon-32x32.png, favicon-16x16.png and favicon.svg |

## Left out

- Image processing itself (resizing, PNG, ICO and SVG encoding, zlib compression): the libraries are parameters that either give bytes or fail. Whether sharp can really write `ico` or `svg` is not decided here either; those encoders are ordinary parameters that may fail, and `UploadRoute.NoIcoEncoderNoDownload` states what follows if the ICO encoder always fails: no upload is ever answered with an archive.
- The file system and transport: `request.formData`, `mkdir`, `writeFile`, `rm`, the `Readable` stream, `NextResponse`, `saveAs` and `URL.createObjectURL`. `mkdir` is taken to succeed; a write or a removal is a boolean input; the object URL is a parameter. The temporary directory's name (`randomUUID`) is left out, since each run's directory is modelled on its own.
- Real concurrency: the server's nine conversions become one settlement order. A promise that is still running after `Promise.all` has rejected may still write a file or a log line. The model does not capture this, since the response has already been built from the logs at that point.
- The browser's `Promise.all` in createICO: all three compressions are started and logged before any result is awaited. The model keeps that, but it does not model the order in which they finish.
- `X-Conversion-Logs` holds `JSON.stringify(logs)` and `Content-Length` holds the length as decimal text. The model keeps the log sequence and the number, not their serialisation.
- `Uploader.ImageUploader.HandleConvert`: React batches state updates and re-renders between awaits. The model applies each `setState` at once in program order, which gives the same final values because every update inside the run uses the previous value or a constant.
- `Uploader.ImageUploader.HandleConvert`: a run is modelled as atomic. In the component, the Reset button stays enabled and the dropzone is never disabled during a run, so `handleReset` or `onDrop` (and, after them, a second run) can interleave at any of the awaits. The run then keeps logging onto the cleared log, adds 15 to the reset progress and still reaches `saveAs`. The contract describes only a run that nothing interleaves with.
- `UploadRoute.Post`: `formData.get('file')` may also return a string. A non-empty string passes the 400 check, and `arrayBuffer()` then throws outside the `try`, so the route answers with no JSON response of its own. `Option<Upload>` covers only a missing field and a file.
- `metadataBase` is `new URL(siteConfig.url)`. The model keeps the URL's source text, not the parsed URL object.
- `new Date()`: the sitemap takes the clock's ISO strings as a parameter instead.
- The log's `console.log`/`console.error` output, React rendering, the `useDropzone` configuration (its accepted types and 5 MB limit are enforced by that library), src/components/OgImage.tsx and src/app/page.tsx: markup and output only.
- `siteConfig.features` is recorded as constants, but nothing in these files reads it.
