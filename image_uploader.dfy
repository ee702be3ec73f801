/**
 * The browser-side converter: the `ImageUploader` component of
 * src/components/ImageUploader.tsx, without its markup.
 *
 * The component's five pieces of React state are the fields of a class and
 * its handlers are methods.  The image compression library and the ZIP
 * generator are parameters: each call either yields a blob or fails.
 */
module Uploader {
  import opened Common

  /** A dropped file: its name, declared media type and contents. */
  datatype FileRef = FileRef(name: string, mediaType: string, bytes: Bytes)

  /** `imageCompression(file, { maxWidthOrHeight: size })`: a blob, or a rejection. */
  type Compressor = (FileRef, nat) -> Option<Bytes>

  /** One entry added to the JSZip archive with `zip.file(name, blob)`. */
  datatype ZipEntry = ZipEntry(name: string, data: Bytes)

  /** `zip.generateAsync({ type: 'blob' })`: the archive, or a rejection. */
  type ZipGenerator = seq<ZipEntry> -> Option<Bytes>

  /** One step of the conversion loop: an archive entry name and a size. */
  datatype Task = Task(name: string, size: nat)

  const Tasks: seq<Task> := [
    Task("web-app-manifest-512x512.png", 512),
    Task("web-app-manifest-192x192.png", 192),
    Task("apple-touch-icon.png", 180),
    Task("favicon-96x96.png", 96)
  ]

  /** The sizes createICO compresses to; it keeps only the last of them. */
  const IcoSizes: seq<nat> := [16, 32, 48]

  const IcoEntryName := "favicon.ico"

  const StartLine := "Starting conversion process..."
  const CreatingIcoLine := "Creating ICO file..."
  const GeneratingLine := "Generating ZIP file..."
  const DoneLine := "Conversion completed. ZIP file downloaded."
  const ErrorLine := "An error occurred during conversion. Please try again."

  /** The line processImage logs before it compresses. */
  function ProcessingLine(size: nat): string {
    "Processing image to " + Decimal(size) + "x" + Decimal(size) + "..."
  }

  function ProcessingLines(sizes: seq<nat>): (r: seq<string>)
    ensures |r| == |sizes|
    ensures forall j :: 0 <= j < |sizes| ==> r[j] == ProcessingLine(sizes[j])
    decreases |sizes|
  {
    if sizes == [] then [] else ProcessingLines(sizes[..|sizes| - 1]) + [ProcessingLine(sizes[|sizes| - 1])]
  }

  // ---------------------------------------------------------------------------
  // The reference run
  // ---------------------------------------------------------------------------

  /** The log of a successful conversion, line by line. */
  const SuccessLog: seq<string> := [
    "Starting conversion process...",
    "Processing image to 512x512...",
    "Processing image to 192x192...",
    "Processing image to 180x180...",
    "Processing image to 96x96...",
    "Creating ICO file...",
    "Processing image to 16x16...",
    "Processing image to 32x32...",
    "Processing image to 48x48...",
    "Generating ZIP file...",
    "Conversion completed. ZIP file downloaded."
  ]

  /** The values `progress` is set to during a successful conversion. */
  const SuccessTrace: seq<int> := [0, 15, 30, 45, 60, 95, 100]

  /** Every size the conversion compresses to. */
  predicate AllRenditions(f: FileRef, compress: Compressor) {
    && compress(f, 512).Some? && compress(f, 192).Some? && compress(f, 180).Some?
    && compress(f, 96).Some? && compress(f, 16).Some? && compress(f, 32).Some? && compress(f, 48).Some?
  }

  /** The archive of a successful conversion; favicon.ico is the 48-px blob. */
  function SuccessEntries(f: FileRef, compress: Compressor): seq<ZipEntry>
    requires AllRenditions(f, compress)
  {
    [ ZipEntry("web-app-manifest-512x512.png", compress(f, 512).value),
      ZipEntry("web-app-manifest-192x192.png", compress(f, 192).value),
      ZipEntry("apple-touch-icon.png", compress(f, 180).value),
      ZipEntry("favicon-96x96.png", compress(f, 96).value),
      ZipEntry("favicon.ico", compress(f, 48).value) ]
  }

  // ---------------------------------------------------------------------------
  // The conversion, step by step
  // ---------------------------------------------------------------------------

  /** What the `for` loop over `ts` has logged and added, and whether it got through. */
  datatype TaskRun = TaskRun(lines: seq<string>, entries: seq<ZipEntry>, ok: bool)

  function RunTasks(f: FileRef, compress: Compressor, ts: seq<Task>): TaskRun
    decreases |ts|
  {
    if ts == [] then TaskRun([], [], true)
    else
      var before := RunTasks(f, compress, ts[..|ts| - 1]);
      var t := ts[|ts| - 1];
      if !before.ok then before
      else match compress(f, t.size)
        case None => TaskRun(before.lines + [ProcessingLine(t.size)], before.entries, false)
        case Some(blob) =>
          TaskRun(before.lines + [ProcessingLine(t.size)], before.entries + [ZipEntry(t.name, blob)], true)
  }

  /** The progress values after each of n loop steps from `base`: base + 15, base + 30, ... */
  function Steps(base: int, n: nat): (r: seq<int>)
    ensures |r| == n
    ensures forall j :: 0 <= j < n ==> r[j] == base + 15 * (j + 1)
  {
    if n == 0 then [] else Steps(base, n - 1) + [base + 15 * n]
  }

  /**
   * createICO: the three compressions are all started (and logged); if all
   * succeed, `Promise.all` yields their blobs and the last, 48-px one is
   * returned as the ICO.
   */
  function IcoBlob(f: FileRef, compress: Compressor): (r: Option<Bytes>)
    ensures r.Some? <==> compress(f, 16).Some? && compress(f, 32).Some? && compress(f, 48).Some?
    ensures r.Some? ==> r == compress(f, 48)
  {
    var pngBlobs := [compress(f, IcoSizes[0]), compress(f, IcoSizes[1]), compress(f, IcoSizes[2])];
    if pngBlobs[0].Some? && pngBlobs[1].Some? && pngBlobs[2].Some? then pngBlobs[2] else None
  }

  /**
   * What follows the loop: createICO, the favicon.ico entry, progress 95,
   * generateAsync, progress 100 and the completion line.  The error line of
   * the catch block is not part of it.
   */
  datatype PackageRun = PackageRun(lines: seq<string>, trace: seq<int>, entries: seq<ZipEntry>, saved: Option<Bytes>)

  function Package(f: FileRef, compress: Compressor, generate: ZipGenerator, entries: seq<ZipEntry>): PackageRun {
    var lines := [CreatingIcoLine] + ProcessingLines(IcoSizes);
    match IcoBlob(f, compress)
    case None => PackageRun(lines, [], entries, None)
    case Some(ico) =>
      var all := entries + [ZipEntry(IcoEntryName, ico)];
      match generate(all)
      case None => PackageRun(lines + [GeneratingLine], [95], all, None)
      case Some(content) => PackageRun(lines + [GeneratingLine, DoneLine], [95, 100], all, Some(content))
  }

  /** Everything one run of handleConvert on a selected file produces. */
  datatype ConvertRun = ConvertRun(logs: seq<string>, trace: seq<int>, entries: seq<ZipEntry>, saved: Option<Bytes>)

  function Convert(f: FileRef, compress: Compressor, generate: ZipGenerator): (r: ConvertRun)
    ensures r.trace != [] && r.trace[0] == 0
  {
    var tasks := RunTasks(f, compress, Tasks);
    var logs := [StartLine] + tasks.lines;
    var trace := [0] + Steps(0, |tasks.entries|);
    if !tasks.ok then ConvertRun(logs + [ErrorLine], trace, tasks.entries, None)
    else
      var p := Package(f, compress, generate, tasks.entries);
      ConvertRun(if p.saved.None? then logs + p.lines + [ErrorLine] else logs + p.lines, trace + p.trace, p.entries, p.saved)
  }

  // ---------------------------------------------------------------------------
  // The component
  // ---------------------------------------------------------------------------

  class ImageUploader {
    var image: Option<string>
    var file: Option<FileRef>
    var isProcessing: bool
    var progress: int
    var logs: seq<string>
    /** Every value `progress` has been set to, oldest first. */
    ghost var progressHistory: seq<int>

    /** The initial values of the five `useState` hooks. */
    constructor ()
      ensures image == None && file == None && !isProcessing && progress == 0 && logs == []
      ensures progressHistory == []
    {
      image, file, isProcessing, progress, logs := None, None, false, 0, [];
      progressHistory := [];
    }

    /**
     * onDrop: keep the first accepted file, show its object URL `objectUrl`
     * and clear the logs.  With no accepted file, `file` becomes undefined and
     * `URL.createObjectURL(undefined)` throws before the image and the logs
     * are set; `threw` reports that.
     */
    method OnDrop(acceptedFiles: seq<FileRef>, objectUrl: string) returns (threw: bool)
      modifies this
      ensures threw <==> acceptedFiles == []
      ensures file == if acceptedFiles == [] then None else Some(acceptedFiles[0])
      ensures image == if threw then old(image) else Some(objectUrl)
      ensures logs == if threw then old(logs) else []
      ensures isProcessing == old(isProcessing) && progress == old(progress)
      ensures progressHistory == old(progressHistory)
    {
      if acceptedFiles == [] {
        file := None;
        return true;
      }
      file := Some(acceptedFiles[0]);
      image := Some(objectUrl);
      logs := [];
      threw := false;
    }

    /** log: append one line. */
    method Log(message: string)
      modifies this`logs
      ensures logs == old(logs) + [message]
    {
      logs := logs + [message];
    }

    /** processImage: log the target size, then compress. */
    method ProcessImage(f: FileRef, size: nat, compress: Compressor) returns (blob: Option<Bytes>)
      modifies this`logs
      ensures logs == old(logs) + [ProcessingLine(size)]
      ensures blob == compress(f, size)
    {
      Log(ProcessingLine(size));
      blob := compress(f, size);
    }

    /** `sizes.map(size => processImage(file, size))`: every compression is started and logged, in order. */
    method ProcessSizes(f: FileRef, sizes: seq<nat>, compress: Compressor) returns (blobs: seq<Option<Bytes>>)
      modifies this`logs
      ensures logs == old(logs) + ProcessingLines(sizes)
      ensures |blobs| == |sizes|
      ensures forall k :: 0 <= k < |sizes| ==> blobs[k] == compress(f, sizes[k])
    {
      blobs := [];
      for i := 0 to |sizes|
        invariant |blobs| == i
        invariant forall k :: 0 <= k < i ==> blobs[k] == compress(f, sizes[k])
        invariant logs == old(logs) + ProcessingLines(sizes[..i])
      {
        assert sizes[..i + 1][..i] == sizes[..i];
        var b := ProcessImage(f, sizes[i], compress);
        blobs := blobs + [b];
      }
      assert sizes[..|sizes|] == sizes;
    }

    /**
     * createICO: log, start the three compressions and, once `Promise.all`
     * has them all, keep the 48-px blob.
     */
    method CreateIco(f: FileRef, compress: Compressor) returns (blob: Option<Bytes>)
      modifies this`logs
      ensures logs == old(logs) + [CreatingIcoLine] + ProcessingLines(IcoSizes)
      ensures blob == IcoBlob(f, compress)
    {
      Log(CreatingIcoLine);
      var pngBlobs := ProcessSizes(f, IcoSizes, compress);
      if pngBlobs[0].Some? && pngBlobs[1].Some? && pngBlobs[2].Some? {
        blob := pngBlobs[2];
      } else {
        blob := None;
      }
    }

    /**
     * The `for` loop of handleConvert: compress to each task's size, add the
     * blob to the archive and advance `progress` by 15; a rejected
     * compression ends the loop (`failed`).
     */
    method ConvertImages(f: FileRef, compress: Compressor, ts: seq<Task>) returns (zip: seq<ZipEntry>, failed: bool)
      modifies this`logs, this`progress, this`progressHistory
      ensures var t := RunTasks(f, compress, ts);
        && logs == old(logs) + t.lines
        && zip == t.entries
        && failed == !t.ok
        && progress == old(progress) + 15 * |zip|
        && progressHistory == old(progressHistory) + Steps(old(progress), |zip|)
    {
      zip, failed := [], false;
      var i := 0;
      while i < |ts| && !failed
        invariant 0 <= i <= |ts|
        invariant logs == old(logs) + RunTasks(f, compress, ts[..i]).lines
        invariant zip == RunTasks(f, compress, ts[..i]).entries
        invariant failed == !RunTasks(f, compress, ts[..i]).ok
        invariant progress == old(progress) + 15 * |zip|
        invariant progressHistory == old(progressHistory) + Steps(old(progress), |zip|)
      {
        assert ts[..i + 1][..i] == ts[..i];
        var blob := ProcessImage(f, ts[i].size, compress);
        if blob.None? {
          failed := true;
        } else {
          zip := zip + [ZipEntry(ts[i].name, blob.value)];
          progress := progress + 15;
          progressHistory := progressHistory + [progress];
        }
        i := i + 1;
      }
      if failed {
        RunTasksFailureSticks(f, compress, ts, i);
      } else {
        assert ts[..i] == ts;
      }
    }

    /** The part of handleConvert's `try` block after the loop. */
    method PackageArchive(f: FileRef, compress: Compressor, generate: ZipGenerator, zip: seq<ZipEntry>)
      returns (saved: Option<Bytes>)
      modifies this`logs, this`progress, this`progressHistory
      ensures var p := Package(f, compress, generate, zip);
        && logs == old(logs) + p.lines
        && saved == p.saved
        && progressHistory == old(progressHistory) + p.trace
        && progress == if p.trace == [] then old(progress) else p.trace[|p.trace| - 1]
    {
      saved := None;
      var icoBlob := CreateIco(f, compress);
      if icoBlob.None? {
        return;
      }
      var entries := zip + [ZipEntry(IcoEntryName, icoBlob.value)];
      progress := 95;
      progressHistory := progressHistory + [progress];
      Log(GeneratingLine);
      var content := generate(entries);
      if content.None? {
        return;
      }
      saved := content;
      progress := 100;
      progressHistory := progressHistory + [progress];
      Log(DoneLine);
    }

    /**
     * The body of handleConvert between `setIsProcessing(true)` and the
     * `finally` block: reset the progress and the logs, run the loop, the
     * packaging and, on a rejection, the catch block.  It runs only with
     * `isProcessing` set and leaves it alone, so the flag stays set
     * throughout the run.
     */
    method ConvertFile(f: FileRef, compress: Compressor, generate: ZipGenerator) returns (saved: Option<Bytes>)
      requires isProcessing
      modifies this`logs, this`progress, this`progressHistory
      ensures isProcessing
      ensures var r := Convert(f, compress, generate);
        && logs == r.logs
        && saved == r.saved
        && progressHistory == old(progressHistory) + r.trace
        && progress == r.trace[|r.trace| - 1]
    {
      saved := None;
      progress := 0;
      progressHistory := progressHistory + [progress];
      logs := [StartLine];
      var zip, failed := ConvertImages(f, compress, Tasks);
      ghost var t := RunTasks(f, compress, Tasks);
      ghost var loopTrace := [0] + Steps(0, |t.entries|);
      AppendAssoc(old(progressHistory), [0], Steps(0, |t.entries|));
      assert progress == loopTrace[|loopTrace| - 1];
      if failed {
        Log(ErrorLine);
        ConvertLoopFailed(f, compress, generate);
      } else {
        ghost var p := Package(f, compress, generate, zip);
        ghost var historyAfterLoop := progressHistory;
        saved := PackageOrReport(f, compress, generate, zip);
        ConvertAfterLoop(f, compress, generate);
        AppendAssoc(old(progressHistory), loopTrace, p.trace);
        assert progressHistory == historyAfterLoop + p.trace;
      }
    }

    /** PackageArchive, followed by the catch block's error line when it fails. */
    method PackageOrReport(f: FileRef, compress: Compressor, generate: ZipGenerator, zip: seq<ZipEntry>)
      returns (saved: Option<Bytes>)
      modifies this`logs, this`progress, this`progressHistory
      ensures var p := Package(f, compress, generate, zip);
        && logs == (if p.saved.None? then old(logs) + p.lines + [ErrorLine] else old(logs) + p.lines)
        && saved == p.saved
        && progressHistory == old(progressHistory) + p.trace
        && progress == if p.trace == [] then old(progress) else p.trace[|p.trace| - 1]
    {
      saved := PackageArchive(f, compress, generate, zip);
      if saved.None? {
        Log(ErrorLine);
      }
    }

    /**
     * handleConvert: with a file selected, run the conversion and hand the
     * archive to `saveAs`; `saved` is what `saveAs` receives.  `isProcessing`
     * is set before the run starts, stays set while it goes on (ConvertFile
     * demands it) and is cleared once it ends, as the `finally` block does.
     */
    method HandleConvert(compress: Compressor, generate: ZipGenerator) returns (saved: Option<Bytes>)
      modifies this
      ensures file == old(file) && image == old(image)
      ensures old(file).None? ==>
        && saved == None && isProcessing == old(isProcessing) && progress == old(progress)
        && logs == old(logs) && progressHistory == old(progressHistory)
      ensures old(file).Some? ==>
        var r := Convert(old(file).value, compress, generate);
        && !isProcessing
        && logs == r.logs
        && saved == r.saved
        && progressHistory == old(progressHistory) + r.trace
        && progress == r.trace[|r.trace| - 1]
    {
      saved := None;
      if file.None? {
        return;
      }
      isProcessing := true;
      saved := ConvertFile(file.value, compress, generate);
      isProcessing := false;
    }

    /** handleReset: every piece of state back to its initial value. */
    method HandleReset()
      modifies this
      ensures image == None && file == None && !isProcessing && progress == 0 && logs == []
      ensures progressHistory == old(progressHistory) + [0]
    {
      image := None;
      file := None;
      isProcessing := false;
      progress := 0;
      progressHistory := progressHistory + [progress];
      logs := [];
    }
  }

  // ---------------------------------------------------------------------------
  // Properties
  // ---------------------------------------------------------------------------

  lemma AppendAssoc<T>(a: seq<T>, b: seq<T>, c: seq<T>)
    ensures a + b + c == a + (b + c)
  {
  }

  /** Convert, when the loop stops at a failed compression. */
  lemma ConvertLoopFailed(f: FileRef, compress: Compressor, generate: ZipGenerator)
    requires !RunTasks(f, compress, Tasks).ok
    ensures var t := RunTasks(f, compress, Tasks);
      var r := Convert(f, compress, generate);
      && r.logs == [StartLine] + t.lines + [ErrorLine]
      && r.trace == [0] + Steps(0, |t.entries|)
      && r.saved == None
  {
  }

  /** Convert, once the loop has got through: the rest is Package. */
  lemma ConvertAfterLoop(f: FileRef, compress: Compressor, generate: ZipGenerator)
    requires RunTasks(f, compress, Tasks).ok
    ensures var t := RunTasks(f, compress, Tasks);
      var p := Package(f, compress, generate, t.entries);
      var r := Convert(f, compress, generate);
      && r.logs == (if p.saved.None? then [StartLine] + t.lines + p.lines + [ErrorLine] else [StartLine] + t.lines + p.lines)
      && r.trace == [0] + Steps(0, |t.entries|) + p.trace
      && r.saved == p.saved
  {
  }

  /** Once a compression in the loop has failed, the later tasks change nothing. */
  lemma {:induction false} RunTasksFailureSticks(f: FileRef, compress: Compressor, ts: seq<Task>, n: nat)
    requires n <= |ts|
    requires !RunTasks(f, compress, ts[..n]).ok
    ensures RunTasks(f, compress, ts) == RunTasks(f, compress, ts[..n])
    decreases |ts|
  {
    if n == |ts| {
      assert ts[..n] == ts;
    } else {
      var front := ts[..|ts| - 1];
      assert front[..n] == ts[..n];
      RunTasksFailureSticks(f, compress, front, n);
    }
  }

  /**
   * The loop logs one line per task it reaches and adds an entry per task
   * whose compression succeeded; it stops after the first failure, which is
   * logged but adds nothing.
   */
  lemma {:induction false} RunTasksShape(f: FileRef, compress: Compressor, ts: seq<Task>)
    ensures var t := RunTasks(f, compress, ts);
      && |t.entries| <= |ts|
      && (t.ok ==> |t.entries| == |ts| && |t.lines| == |ts|)
      && (!t.ok ==> |t.entries| < |ts| && |t.lines| == |t.entries| + 1 && compress(f, ts[|t.entries|].size).None?)
      && (forall j :: 0 <= j < |t.lines| ==> t.lines[j] == ProcessingLine(ts[j].size))
      && (forall j :: 0 <= j < |t.entries| ==>
            compress(f, ts[j].size).Some? && t.entries[j] == ZipEntry(ts[j].name, compress(f, ts[j].size).value))
    decreases |ts|
  {
    if ts != [] {
      var front := ts[..|ts| - 1];
      RunTasksShape(f, compress, front);
      assert forall j :: 0 <= j < |front| ==> front[j] == ts[j];
    }
  }

  /** The decimal text of each size the conversion compresses to. */
  lemma SizeTexts()
    ensures Decimal(512) == "512" && Decimal(192) == "192" && Decimal(180) == "180" && Decimal(96) == "96"
    ensures Decimal(16) == "16" && Decimal(32) == "32" && Decimal(48) == "48"
  {
  }

  /** The lines processImage logs for the four loop sizes are those of the reference log. */
  lemma LoopLinesAsLogged()
    ensures forall j :: 0 <= j < |Tasks| ==> SuccessLog[1 + j] == ProcessingLine(Tasks[j].size)
  {
    ManifestLinesAsLogged();
    TouchLinesAsLogged();
  }

  lemma ManifestLinesAsLogged()
    ensures ProcessingLine(512) == SuccessLog[1] && ProcessingLine(192) == SuccessLog[2]
  {
    SizeTexts();
  }

  lemma TouchLinesAsLogged()
    ensures ProcessingLine(180) == SuccessLog[3] && ProcessingLine(96) == SuccessLog[4]
  {
    SizeTexts();
  }

  /** The lines processImage logs for the three ICO sizes are those of the reference log. */
  lemma IcoLinesAsLogged()
    ensures forall j :: 0 <= j < |IcoSizes| ==> SuccessLog[6 + j] == ProcessingLine(IcoSizes[j])
  {
    SizeTexts();
    assert ProcessingLine(16) == SuccessLog[6];
    assert ProcessingLine(32) == SuccessLog[7];
    assert ProcessingLine(48) == SuccessLog[8];
  }

  /** The fixed lines of the reference log. */
  lemma FixedLinesAsLogged()
    ensures SuccessLog[0] == StartLine && SuccessLog[5] == CreatingIcoLine
    ensures SuccessLog[9] == GeneratingLine && SuccessLog[10] == DoneLine
  {
  }

  /**
   * The loop against the reference run: its lines are the reference log's,
   * its entries are the compressed task sizes, and it gets through exactly
   * when the four compressions succeed.
   */
  lemma LoopAgainstReference(f: FileRef, compress: Compressor)
    ensures var t := RunTasks(f, compress, Tasks);
      && |t.entries| <= |Tasks|
      && |t.lines| == |t.entries| + (if t.ok then 0 else 1)
      && (forall j :: 0 <= j < |t.lines| ==> t.lines[j] == SuccessLog[1 + j])
      && (forall j :: 0 <= j < |t.entries| ==>
            compress(f, Tasks[j].size).Some? && t.entries[j] == ZipEntry(Tasks[j].name, compress(f, Tasks[j].size).value))
      && (!t.ok ==> |t.entries| < |Tasks| && compress(f, Tasks[|t.entries|].size).None?)
      && (t.ok <==> compress(f, 512).Some? && compress(f, 192).Some? && compress(f, 180).Some? && compress(f, 96).Some?)
  {
    var t := RunTasks(f, compress, Tasks);
    RunTasksShape(f, compress, Tasks);
    LoopLinesAsLogged();
    assert Tasks[0].size == 512 && Tasks[1].size == 192 && Tasks[2].size == 180 && Tasks[3].size == 96;
    if t.ok {
      assert t.entries[0].data == compress(f, 512).value;
      assert t.entries[3].data == compress(f, 96).value;
    }
  }

  /** The four loop compressions. */
  predicate LoopRenditions(f: FileRef, compress: Compressor) {
    compress(f, 512).Some? && compress(f, 192).Some? && compress(f, 180).Some? && compress(f, 96).Some?
  }

  /**
   * A compression in the loop fails: the run logs the start, the sizes up to
   * and including the failed one (the k-th task) and the error line; the
   * progress has reached 15 * k and nothing is saved.
   */
  lemma ConvertLoopFailure(f: FileRef, compress: Compressor, generate: ZipGenerator)
    requires !LoopRenditions(f, compress)
    ensures var r := Convert(f, compress, generate); var k := |r.logs| - 3;
      && 0 <= k < |Tasks|
      && (forall j :: 0 <= j < k ==> compress(f, Tasks[j].size).Some?)
      && compress(f, Tasks[k].size).None?
      && r.logs == SuccessLog[..k + 2] + [ErrorLine]
      && r.trace == SuccessTrace[..k + 1]
      && r.saved == None
  {
    var t := RunTasks(f, compress, Tasks);
    var r := Convert(f, compress, generate);
    LoopAgainstReference(f, compress);
    FixedLinesAsLogged();
    var k := |t.entries|;
    assert r.logs == [StartLine] + t.lines + [ErrorLine];
    assert [StartLine] + t.lines == SuccessLog[..k + 2];
    assert r.trace == SuccessTrace[..k + 1];
  }

  /** A loop that gets through logs the first five reference lines and sets the first five progress values. */
  lemma LoopPrefix(f: FileRef, compress: Compressor)
    requires LoopRenditions(f, compress)
    ensures var t := RunTasks(f, compress, Tasks);
      && t.ok
      && [StartLine] + t.lines == SuccessLog[..5]
      && [0] + Steps(0, |t.entries|) == SuccessTrace[..5]
  {
    var t := RunTasks(f, compress, Tasks);
    LoopAgainstReference(f, compress);
    FixedLinesAsLogged();
    assert [StartLine] + t.lines == SuccessLog[..5];
  }

  /** What createICO logs: reference lines 5 to 8. */
  lemma IcoPrefix()
    ensures [CreatingIcoLine] + ProcessingLines(IcoSizes) == SuccessLog[5..9]
  {
    FixedLinesAsLogged();
    IcoLinesAsLogged();
  }

  /**
   * The loop gets through but one of createICO's compressions fails: all
   * three ICO sizes are logged, the progress stops at 60 and nothing is saved.
   */
  lemma ConvertIcoFailure(f: FileRef, compress: Compressor, generate: ZipGenerator)
    requires LoopRenditions(f, compress)
    requires !(compress(f, 16).Some? && compress(f, 32).Some? && compress(f, 48).Some?)
    ensures var r := Convert(f, compress, generate);
      && r.logs == SuccessLog[..9] + [ErrorLine]
      && r.trace == SuccessTrace[..5]
      && r.saved == None
  {
    var t := RunTasks(f, compress, Tasks);
    LoopPrefix(f, compress);
    IcoPrefix();
    ConvertAfterLoop(f, compress, generate);
    assert SuccessLog[..9] == SuccessLog[..5] + SuccessLog[5..9];
  }

  /** Every compression succeeds: the entries handed to generateAsync. */
  lemma ArchiveEntries(f: FileRef, compress: Compressor, generate: ZipGenerator)
    requires AllRenditions(f, compress)
    ensures var t := RunTasks(f, compress, Tasks);
      && t.ok
      && IcoBlob(f, compress) == compress(f, 48)
      && Package(f, compress, generate, t.entries).entries == SuccessEntries(f, compress)
  {
    var t := RunTasks(f, compress, Tasks);
    LoopAgainstReference(f, compress);
    assert t.entries[0] == SuccessEntries(f, compress)[0];
    assert t.entries[3] == SuccessEntries(f, compress)[3];
  }

  /**
   * Every compression succeeds but generateAsync fails: the log reaches the
   * "Generating" line, the progress stops at 95 and nothing is saved.
   */
  lemma ConvertZipFailure(f: FileRef, compress: Compressor, generate: ZipGenerator)
    requires AllRenditions(f, compress) && generate(SuccessEntries(f, compress)).None?
    ensures var r := Convert(f, compress, generate);
      && r.logs == SuccessLog[..10] + [ErrorLine]
      && r.trace == SuccessTrace[..6]
      && r.entries == SuccessEntries(f, compress)
      && r.saved == None
  {
    var t := RunTasks(f, compress, Tasks);
    LoopAgainstReference(f, compress);
    FixedLinesAsLogged();
    IcoLinesAsLogged();
    ArchiveEntries(f, compress, generate);
    ConvertAfterLoop(f, compress, generate);
    var p := Package(f, compress, generate, t.entries);
    assert [StartLine] + t.lines + p.lines == SuccessLog[..10];
    assert [0] + Steps(0, |t.entries|) + p.trace == SuccessTrace[..6];
  }

  /** Every step succeeds: the run logs the reference log. */
  lemma SuccessLogged(f: FileRef, compress: Compressor, generate: ZipGenerator)
    requires AllRenditions(f, compress) && generate(SuccessEntries(f, compress)).Some?
    ensures Convert(f, compress, generate).logs == SuccessLog
  {
    var t := RunTasks(f, compress, Tasks);
    ConvertZipPrefix(f, compress, generate);
    ArchiveEntries(f, compress, generate);
    ConvertAfterLoop(f, compress, generate);
    var p := Package(f, compress, generate, t.entries);
    assert p.lines == p.lines[..|p.lines| - 1] + [DoneLine];
    AppendAssoc([StartLine] + t.lines, p.lines[..|p.lines| - 1], [DoneLine]);
    FixedLinesAsLogged();
    assert SuccessLog == SuccessLog[..10] + [SuccessLog[10]];
  }

  /** The log of a run that reaches generateAsync, up to its "Generating" line. */
  lemma ConvertZipPrefix(f: FileRef, compress: Compressor, generate: ZipGenerator)
    requires AllRenditions(f, compress)
    ensures var t := RunTasks(f, compress, Tasks);
      var p := Package(f, compress, generate, t.entries);
      && |p.lines| >= 5
      && [StartLine] + t.lines + p.lines[..5] == SuccessLog[..10]
      && [0] + Steps(0, |t.entries|) + [p.trace[0]] == SuccessTrace[..6]
  {
    var t := RunTasks(f, compress, Tasks);
    LoopPrefix(f, compress);
    IcoPrefix();
    FixedLinesAsLogged();
    var p := Package(f, compress, generate, t.entries);
    assert p.lines[..5] == SuccessLog[5..9] + [SuccessLog[9]];
    assert SuccessLog[..10] == SuccessLog[..5] + (SuccessLog[5..9] + [SuccessLog[9]]);
  }

  /**
   * Every step succeeds: the run logs the reference log, sets the progress
   * to 0, 15, 30, 45, 60, 95, 100 and saves the archive of the five entries.
   */
  lemma ConvertSuccess(f: FileRef, compress: Compressor, generate: ZipGenerator)
    requires AllRenditions(f, compress) && generate(SuccessEntries(f, compress)).Some?
    ensures Convert(f, compress, generate)
      == ConvertRun(SuccessLog, SuccessTrace, SuccessEntries(f, compress), generate(SuccessEntries(f, compress)))
  {
    var t := RunTasks(f, compress, Tasks);
    SuccessLogged(f, compress, generate);
    ConvertZipPrefix(f, compress, generate);
    ArchiveEntries(f, compress, generate);
    ConvertAfterLoop(f, compress, generate);
    var p := Package(f, compress, generate, t.entries);
    assert p.trace == [p.trace[0]] + [100];
    AppendAssoc([0] + Steps(0, |t.entries|), [p.trace[0]], [100]);
    assert SuccessTrace == SuccessTrace[..6] + [100];
  }

  /** The archive is saved exactly when all seven compressions and generateAsync succeed. */
  lemma ConvertSaves(f: FileRef, compress: Compressor, generate: ZipGenerator)
    ensures Convert(f, compress, generate).saved.Some?
      <==> AllRenditions(f, compress) && generate(SuccessEntries(f, compress)).Some?
  {
    if !LoopRenditions(f, compress) {
      ConvertLoopFailure(f, compress, generate);
    } else if !AllRenditions(f, compress) {
      ConvertIcoFailure(f, compress, generate);
    } else if generate(SuccessEntries(f, compress)).None? {
      ConvertZipFailure(f, compress, generate);
    } else {
      ConvertSuccess(f, compress, generate);
    }
  }

  /** Whatever fails, the progress values of a run are a prefix of the reference trace, all of it exactly on success. */
  lemma ConvertTracePrefix(f: FileRef, compress: Compressor, generate: ZipGenerator)
    ensures var r := Convert(f, compress, generate);
      && 1 <= |r.trace| <= |SuccessTrace|
      && r.trace == SuccessTrace[..|r.trace|]
      && (|r.trace| == |SuccessTrace| <==> r.saved.Some?)
  {
    if !LoopRenditions(f, compress) {
      ConvertLoopFailure(f, compress, generate);
    } else if !AllRenditions(f, compress) {
      ConvertIcoFailure(f, compress, generate);
    } else if generate(SuccessEntries(f, compress)).None? {
      ConvertZipFailure(f, compress, generate);
    } else {
      ConvertSuccess(f, compress, generate);
    }
  }

  /**
   * The progress values of a run start at 0, only grow, stay within 0..100,
   * and reach 100 exactly when the archive is saved.
   */
  lemma ConvertProgress(f: FileRef, compress: Compressor, generate: ZipGenerator)
    ensures var r := Convert(f, compress, generate);
      && r.trace[0] == 0
      && (forall i, j :: 0 <= i < j < |r.trace| ==> r.trace[i] < r.trace[j])
      && (forall i :: 0 <= i < |r.trace| ==> 0 <= r.trace[i] <= 100)
      && (r.trace[|r.trace| - 1] == 100 <==> r.saved.Some?)
  {
    var r := Convert(f, compress, generate);
    ConvertTracePrefix(f, compress, generate);
    SuccessTraceShape();
    assert forall i :: 0 <= i < |r.trace| ==> r.trace[i] == SuccessTrace[i];
  }

  /** The reference trace rises strictly from 0 to 100. */
  lemma SuccessTraceShape()
    ensures forall i, j :: 0 <= i < j < |SuccessTrace| ==> SuccessTrace[i] < SuccessTrace[j]
    ensures forall i :: 0 <= i < |SuccessTrace| ==> 0 <= SuccessTrace[i] <= 100
    ensures forall i :: 0 <= i < |SuccessTrace| - 1 ==> SuccessTrace[i] < 100
  {
  }

  /** The names of the files in an archive. */
  function EntryNames(entries: seq<ZipEntry>): set<string> {
    set e | e in entries :: e.name
  }

  /** The archive of a successful run holds these five files. */
  lemma SuccessEntryNames(f: FileRef, compress: Compressor)
    requires AllRenditions(f, compress)
    ensures EntryNames(SuccessEntries(f, compress))
      == {"web-app-manifest-512x512.png", "web-app-manifest-192x192.png", "apple-touch-icon.png",
          "favicon-96x96.png", "favicon.ico"}
  {
    var es := SuccessEntries(f, compress);
    assert es[0].name in EntryNames(es) && es[1].name in EntryNames(es) && es[2].name in EntryNames(es);
    assert es[3].name in EntryNames(es) && es[4].name in EntryNames(es);
  }
}
