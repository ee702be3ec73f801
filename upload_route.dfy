/**
 * The server-side conversion route: `POST` in src/app/api/upload/route.ts.
 *
 * The image library (resizing and PNG, ICO and SVG encoding), the archiver
 * and the file system are parameters of the model (`Env`): each step either
 * yields its bytes or fails.  The order in which the nine conversion
 * promises settle under `Promise.all` is a parameter too (`order`, a
 * permutation of the plan's indices).
 */
module UploadRoute {
  import opened Common

  // ---------------------------------------------------------------------------
  // The asset plan
  // ---------------------------------------------------------------------------

  /** How one archive entry is derived from the upload. */
  datatype Job =
    | ResizePng(size: nat)          // resize to size x size, written as PNG
    | MultiSizeIco                  // createMultiSizeIco over IcoSizes
    | SvgFavicon(fallbackSize: nat) // verbatim copy of an SVG upload, else an SVG at fallbackSize

  datatype Target = Target(name: string, job: Job)

  /** The nine conversions the route starts together, in source order. */
  const Plan: seq<Target> := [
    Target("web-app-manifest-512x512.png", ResizePng(512)),
    Target("web-app-manifest-192x192.png", ResizePng(192)),
    Target("apple-touch-icon.png", ResizePng(180)),
    Target("favicon-96x96.png", ResizePng(96)),
    Target("favicon-48x48.png", ResizePng(48)),
    Target("favicon-32x32.png", ResizePng(32)),
    Target("favicon-16x16.png", ResizePng(16)),
    Target("favicon.ico", MultiSizeIco),
    Target("favicon.svg", SvgFavicon(48))
  ]

  /** The renditions createMultiSizeIco computes before asking for an ICO. */
  const IcoSizes: seq<nat> := [16, 32, 48]

  /** The nine names the route writes into its temporary directory. */
  const ArchiveEntryNames: set<string> := {
    "web-app-manifest-512x512.png", "web-app-manifest-192x192.png",
    "apple-touch-icon.png", "favicon-96x96.png", "favicon-48x48.png",
    "favicon-32x32.png", "favicon-16x16.png", "favicon.ico", "favicon.svg"
  }

  type TaskIndex = k: nat | k < |Plan|

  const SvgMediaType := "image/svg+xml"

  // ---------------------------------------------------------------------------
  // Inputs, outcomes and the response
  // ---------------------------------------------------------------------------

  /** The uploaded form field: its bytes and its declared media type. */
  datatype Upload = Upload(bytes: Bytes, mediaType: string)

  /**
   * The collaborators the route calls.  `png(b, n)`: the input resized to
   * n x n and PNG-encoded; `ico(b, sizes)`: the ICO encoder applied to a PNG
   * buffer; `svg(b, n)`: the input resized to n x n and SVG-encoded;
   * `write(name, b)`: whether writing a file of the temporary directory
   * succeeds; `archive(dir)`: the data chunks of a maximum-compression ZIP of
   * the directory, or an archiver error; `removeSucceeds`: whether removing
   * the temporary directory succeeds.
   */
  datatype Env = Env(
    png: (Bytes, nat) -> Option<Bytes>,
    ico: (Bytes, seq<nat>) -> Option<Bytes>,
    svg: (Bytes, nat) -> Option<Bytes>,
    write: (string, Bytes) -> bool,
    archive: map<string, Bytes> -> Option<seq<Bytes>>,
    removeSucceeds: bool)

  datatype Response =
    | Json(status: nat, success: bool, message: string, logs: Option<seq<string>>)
    | Download(status: nat, contentType: string, disposition: string,
               contentLength: nat, conversionLogs: seq<string>, body: Bytes)

  const NoFileMessage := "No file uploaded"
  const ErrorMessage := "Error processing image"
  const ZipContentType := "application/zip"
  const ZipDisposition := "attachment; filename=\"favicons.zip\""

  function BadRequest(): Response { Json(400, false, NoFileMessage, None) }

  function ServerError(logs: seq<string>): Response { Json(500, false, ErrorMessage, Some(logs)) }

  // ---------------------------------------------------------------------------
  // Log lines
  // ---------------------------------------------------------------------------

  const StartLine := "Starting image conversion process..."
  const ConvertedLine := "All image conversions completed."
  const ZipStartLine := "Starting ZIP file creation..."
  const ZipDoneLine := "ZIP file creation completed."
  const CleanedLine := "Temporary directory cleaned up."
  const SendingLine := "Sending ZIP file for download..."
  const CopiedSvgLine := "Copied original favicon.svg"

  /** The lines logged after the conversions on a successful run, in order. */
  const SuccessTail: seq<string> := [ConvertedLine, ZipStartLine, ZipDoneLine, CleanedLine, SendingLine]

  /** The line a conversion logs when its promise settles successfully. */
  function CompletionLine(t: Target, mediaType: string): string {
    if t.job.SvgFavicon? && mediaType == SvgMediaType then CopiedSvgLine else "Created " + t.name
  }

  // ---------------------------------------------------------------------------
  // One conversion
  // ---------------------------------------------------------------------------

  /** `Promise.all` over PNG renditions: all of them, in size order, or a failure. */
  function Renditions(env: Env, b: Bytes, sizes: seq<nat>): (r: Option<seq<Bytes>>)
    ensures r.Some? <==> forall i :: 0 <= i < |sizes| ==> env.png(b, sizes[i]).Some?
    ensures r.Some? ==> |r.value| == |sizes|
    ensures r.Some? ==> forall i :: 0 <= i < |sizes| ==> r.value[i] == env.png(b, sizes[i]).value
    decreases |sizes|
  {
    if sizes == [] then Some([])
    else match Renditions(env, b, sizes[..|sizes| - 1])
      case None => None
      case Some(prefix) =>
        match env.png(b, sizes[|sizes| - 1])
        case None => None
        case Some(last) => Some(prefix + [last])
  }

  /**
   * createMultiSizeIco: all three renditions must succeed, and the ICO
   * encoder is then given the first of them (the 16-px PNG) and the size list.
   */
  function MultiSizeIcoBytes(env: Env, b: Bytes): (r: Option<Bytes>)
    ensures r.Some? ==> env.png(b, 16).Some? && env.png(b, 32).Some? && env.png(b, 48).Some?
    ensures env.png(b, 16).Some? && env.png(b, 32).Some? && env.png(b, 48).Some? ==>
              r == env.ico(env.png(b, 16).value, [16, 32, 48])
  {
    assert IcoSizes[0] == 16 && IcoSizes[1] == 32 && IcoSizes[2] == 48;
    match Renditions(env, b, IcoSizes)
    case None => None
    case Some(buffers) => env.ico(buffers[0], IcoSizes)
  }

  /** The bytes a conversion writes into the temporary directory, before writing. */
  function Produce(env: Env, up: Upload, job: Job): Option<Bytes> {
    match job
    case ResizePng(n) => env.png(up.bytes, n)
    case MultiSizeIco => MultiSizeIcoBytes(env, up.bytes)
    case SvgFavicon(n) => if up.mediaType == SvgMediaType then Some(up.bytes) else env.svg(up.bytes, n)
  }

  /** One conversion promise: produce the bytes, then write them under the target's name. */
  function RunTask(env: Env, up: Upload, t: Target): Option<Bytes> {
    match Produce(env, up, t.job)
    case None => None
    case Some(b) => if env.write(t.name, b) then Some(b) else None
  }

  predicate AllTasksSucceed(env: Env, up: Upload) {
    forall k: TaskIndex :: RunTask(env, up, Plan[k]).Some?
  }

  // ---------------------------------------------------------------------------
  // Promise.all over the plan
  // ---------------------------------------------------------------------------

  /** A completion order of the nine conversion promises: every index exactly once. */
  predicate IsSchedule(order: seq<TaskIndex>) {
    && |order| == |Plan|
    && (forall k: TaskIndex :: k in order)
    && (forall i, j :: 0 <= i < j < |order| ==> order[i] != order[j])
  }

  /**
   * What the awaited `Promise.all` has done once the promises in `order` have
   * settled one after another: the completion lines logged, the files in the
   * temporary directory, and whether every one of them succeeded.  The first
   * failure rejects `Promise.all`, and nothing settling after it is seen.
   */
  datatype Settlement = Settlement(lines: seq<string>, dir: map<string, Bytes>, ok: bool)

  function Settle(env: Env, up: Upload, order: seq<TaskIndex>): Settlement
    decreases |order|
  {
    if order == [] then Settlement([], map[], true)
    else
      var before := Settle(env, up, order[..|order| - 1]);
      var t := Plan[order[|order| - 1]];
      if !before.ok then before
      else match RunTask(env, up, t)
        case None => Settlement(before.lines, before.dir, false)
        case Some(b) => Settlement(before.lines + [CompletionLine(t, up.mediaType)], before.dir[t.name := b], true)
  }

  /** The data chunks of the archive, concatenated (`Buffer.concat`). */
  function Concat(chunks: seq<Bytes>): (r: Bytes)
    decreases |chunks|
  {
    if chunks == [] then [] else Concat(chunks[..|chunks| - 1]) + chunks[|chunks| - 1]
  }

  // ---------------------------------------------------------------------------
  // The route handler
  // ---------------------------------------------------------------------------

  /** The response, and what is left of the run's temporary directory on disk (`None`: never created, or removed). */
  datatype Outcome = Outcome(resp: Response, tempDir: Option<map<string, Bytes>>)

  /**
   * What `POST` answers: 400 without a file; 500 with the logs so far when a
   * conversion, the archiver or the removal of the directory fails; the
   * archive with the whole log otherwise.
   */
  function Respond(file: Option<Upload>, env: Env, order: seq<TaskIndex>): Outcome {
    if file.None? then Outcome(BadRequest(), None)
    else
      var s := Settle(env, file.value, order);
      var logs := [StartLine] + s.lines;
      if !s.ok then Outcome(ServerError(logs), Some(s.dir))
      else match env.archive(s.dir)
        case None => Outcome(ServerError(logs + [ConvertedLine, ZipStartLine]), Some(s.dir))
        case Some(chunks) =>
          if !env.removeSucceeds then
            Outcome(ServerError(logs + [ConvertedLine, ZipStartLine, ZipDoneLine]), Some(s.dir))
          else
            Outcome(Download(200, ZipContentType, ZipDisposition, |Concat(chunks)|, logs + SuccessTail, Concat(chunks)), None)
  }

  /**
   * `POST`: `file` is the form's `file` field, `order` the completion order
   * of the conversions.
   */
  method Post(file: Option<Upload>, env: Env, order: seq<TaskIndex>)
    returns (resp: Response, tempDir: Option<map<string, Bytes>>)
    requires IsSchedule(order)
    ensures Outcome(resp, tempDir) == Respond(file, env, order)
  {
    if file.None? {
      return BadRequest(), None;
    }
    var up := file.value;
    var dir: map<string, Bytes> := map[];
    var logs := [StartLine];
    var failed := false;
    var i := 0;
    while i < |order| && !failed
      invariant 0 <= i <= |order|
      invariant logs == [StartLine] + Settle(env, up, order[..i]).lines
      invariant dir == Settle(env, up, order[..i]).dir
      invariant failed == !Settle(env, up, order[..i]).ok
    {
      assert order[..i + 1][..i] == order[..i];
      var t := Plan[order[i]];
      var produced := RunTask(env, up, t);
      if produced.None? {
        failed := true;
      } else {
        dir := dir[t.name := produced.value];
        logs := logs + [CompletionLine(t, up.mediaType)];
      }
      i := i + 1;
    }
    if failed {
      SettleFailureSticks(env, up, order, i);
      return ServerError(logs), Some(dir);
    }
    assert order[..i] == order;
    ghost var s := Settle(env, up, order);
    logs := logs + [ConvertedLine];
    logs := logs + [ZipStartLine];
    assert logs == [StartLine] + s.lines + [ConvertedLine, ZipStartLine];
    var archived := env.archive(dir);
    if archived.None? {
      return ServerError(logs), Some(dir);
    }
    var chunks := archived.value;
    var zipBuffer: Bytes := [];
    for j := 0 to |chunks|
      invariant zipBuffer == Concat(chunks[..j])
    {
      assert chunks[..j + 1][..j] == chunks[..j];
      zipBuffer := zipBuffer + chunks[j];
    }
    assert chunks[..|chunks|] == chunks;
    logs := logs + [ZipDoneLine];
    assert logs == [StartLine] + s.lines + [ConvertedLine, ZipStartLine, ZipDoneLine];
    if !env.removeSucceeds {
      return ServerError(logs), Some(dir);
    }
    logs := logs + [CleanedLine];
    logs := logs + [SendingLine];
    assert logs == [StartLine] + s.lines + SuccessTail;
    resp := Download(200, ZipContentType, ZipDisposition, |zipBuffer|, logs, zipBuffer);
    tempDir := None;
  }

  // ---------------------------------------------------------------------------
  // Properties
  // ---------------------------------------------------------------------------

  /** Once a conversion has failed, later settlements change nothing. */
  lemma {:induction false} SettleFailureSticks(env: Env, up: Upload, order: seq<TaskIndex>, n: nat)
    requires n <= |order|
    requires !Settle(env, up, order[..n]).ok
    ensures Settle(env, up, order) == Settle(env, up, order[..n])
    decreases |order|
  {
    if n == |order| {
      assert order[..n] == order;
    } else {
      var front := order[..|order| - 1];
      assert front[..n] == order[..n];
      SettleFailureSticks(env, up, front, n);
    }
  }

  /**
   * The completion lines are those of the longest prefix of `order` whose
   * conversions succeeded; the run is ok exactly when that prefix is all of
   * `order`, and otherwise the conversion right after it failed.
   */
  lemma {:induction false} SettleLines(env: Env, up: Upload, order: seq<TaskIndex>)
    ensures var s := Settle(env, up, order);
      && |s.lines| <= |order|
      && (s.ok <==> |s.lines| == |order|)
      && (forall j :: 0 <= j < |s.lines| ==> RunTask(env, up, Plan[order[j]]).Some?)
      && (forall j :: 0 <= j < |s.lines| ==> s.lines[j] == CompletionLine(Plan[order[j]], up.mediaType))
      && (!s.ok ==> RunTask(env, up, Plan[order[|s.lines|]]).None?)
    decreases |order|
  {
    if order != [] {
      var front := order[..|order| - 1];
      SettleLines(env, up, front);
      assert forall j :: 0 <= j < |front| ==> front[j] == order[j];
    }
  }

  /** The plan's names are distinct. */
  lemma PlanNamesDistinct()
    ensures forall i: TaskIndex, j: TaskIndex :: i != j ==> Plan[i].name != Plan[j].name
  {
    forall i: TaskIndex, j: TaskIndex | i != j ensures Plan[i].name != Plan[j].name {
      var a, b := Plan[i].name, Plan[j].name;
      assert |a| == |b| ==> a[8] != b[8] || (|a| > 17 && a[17] != b[17]);
    }
  }

  /** The plan's names are exactly the nine names of ArchiveEntryNames. */
  lemma PlanNameSet()
    ensures (set k: TaskIndex :: Plan[k].name) == ArchiveEntryNames
  {
    var names := set k: TaskIndex :: Plan[k].name;
    assert Plan[0].name in names && Plan[1].name in names && Plan[2].name in names;
    assert Plan[3].name in names && Plan[4].name in names && Plan[5].name in names;
    assert Plan[6].name in names && Plan[7].name in names && Plan[8].name in names;
  }

  /** Every plan name is one of the nine names of ArchiveEntryNames. */
  lemma PlanNameIn(k: TaskIndex)
    ensures Plan[k].name in ArchiveEntryNames
  {
  }

  /** One completion line per settled conversion, one for each of them when every one succeeded. */
  lemma {:induction false} SettleLength(env: Env, up: Upload, order: seq<TaskIndex>)
    ensures |Settle(env, up, order).lines| <= |order|
    ensures Settle(env, up, order).ok ==> |Settle(env, up, order).lines| == |order|
    decreases |order|
  {
    if order != [] {
      SettleLength(env, up, order[..|order| - 1]);
    }
  }

  /** The directory holds a file for each settled conversion. */
  lemma {:induction false} SettleDirNames(env: Env, up: Upload, order: seq<TaskIndex>)
    ensures |Settle(env, up, order).lines| <= |order|
    ensures var s := Settle(env, up, order);
      forall j :: 0 <= j < |s.lines| ==> Plan[order[j]].name in s.dir
    decreases |order|
  {
    SettleLength(env, up, order);
    if order != [] {
      var front := order[..|order| - 1];
      SettleDirNames(env, up, front);
      SettleLength(env, up, front);
      var before := Settle(env, up, front);
      var s := Settle(env, up, order);
      if before.ok && RunTask(env, up, Plan[order[|order| - 1]]).Some? {
        forall j | 0 <= j < |s.lines| ensures Plan[order[j]].name in s.dir {
          if j < |before.lines| {
            assert front[j] == order[j];
          }
        }
      }
    }
  }

  /** The directory holds only files named in the plan. */
  lemma {:induction false} SettleDirKeys(env: Env, up: Upload, order: seq<TaskIndex>)
    ensures Settle(env, up, order).dir.Keys <= ArchiveEntryNames
    decreases |order|
  {
    if order != [] {
      var front := order[..|order| - 1];
      SettleDirKeys(env, up, front);
      PlanNameIn(order[|order| - 1]);
    }
  }

  /** Under each plan name it holds, the directory holds the bytes that conversion produced. */
  lemma {:induction false} SettleDirBytes(env: Env, up: Upload, order: seq<TaskIndex>)
    ensures var s := Settle(env, up, order);
      forall k: TaskIndex :: Plan[k].name in s.dir ==> RunTask(env, up, Plan[k]) == Some(s.dir[Plan[k].name])
    decreases |order|
  {
    if order != [] {
      var front := order[..|order| - 1];
      SettleDirBytes(env, up, front);
      var before := Settle(env, up, front);
      var m: TaskIndex := order[|order| - 1];
      if before.ok && RunTask(env, up, Plan[m]).Some? {
        PlanNamesDistinct();
      }
    }
  }

  /** Completion lines of different targets differ. */
  lemma CompletionLinesDiffer(i: TaskIndex, j: TaskIndex, mediaType: string)
    requires i != j
    ensures CompletionLine(Plan[i], mediaType) != CompletionLine(Plan[j], mediaType)
  {
    var a, b := CompletionLine(Plan[i], mediaType), CompletionLine(Plan[j], mediaType);
    PlanNamesDistinct();
    if a == CopiedSvgLine {
      assert b == "Created " + Plan[j].name;
      assert a[1] != b[1];
    } else if b == CopiedSvgLine {
      assert a == "Created " + Plan[i].name;
      assert a[1] != b[1];
    } else {
      assert a[8..] == Plan[i].name;
      assert b[8..] == Plan[j].name;
    }
  }

  /**
   * In a run where every conversion succeeds, whatever the completion order,
   * there is exactly one completion line per target.
   */
  lemma CompleteRunLines(env: Env, up: Upload, order: seq<TaskIndex>)
    requires IsSchedule(order)
    requires AllTasksSucceed(env, up)
    ensures var s := Settle(env, up, order);
      && s.ok
      && |s.lines| == |Plan|
      && (forall k: TaskIndex :: CompletionLine(Plan[k], up.mediaType) in s.lines)
      && (forall i, j :: 0 <= i < j < |s.lines| ==> s.lines[i] != s.lines[j])
  {
    var s := Settle(env, up, order);
    SettleLines(env, up, order);
    forall k: TaskIndex ensures CompletionLine(Plan[k], up.mediaType) in s.lines {
      assert k in order;
      var j :| 0 <= j < |order| && order[j] == k;
      assert s.lines[j] == CompletionLine(Plan[k], up.mediaType);
    }
    forall i, j | 0 <= i < j < |s.lines| ensures s.lines[i] != s.lines[j] {
      CompletionLinesDiffer(order[i], order[j], up.mediaType);
    }
  }

  /**
   * In a run where every conversion succeeds, the directory the archive is
   * built from holds exactly the nine entry names, each with the bytes its
   * conversion produced.
   */
  lemma CompleteRunDir(env: Env, up: Upload, order: seq<TaskIndex>)
    requires IsSchedule(order)
    requires AllTasksSucceed(env, up)
    ensures var s := Settle(env, up, order);
      && s.dir.Keys == ArchiveEntryNames
      && (forall k: TaskIndex :: s.dir[Plan[k].name] == RunTask(env, up, Plan[k]).value)
  {
    var s := Settle(env, up, order);
    SettleLines(env, up, order);
    SettleDirNames(env, up, order);
    SettleDirKeys(env, up, order);
    SettleDirBytes(env, up, order);
    forall k: TaskIndex ensures Plan[k].name in s.dir {
      assert k in order;
      var j :| 0 <= j < |order| && order[j] == k;
    }
    PlanNameSet();
    forall x | x in ArchiveEntryNames ensures x in s.dir {
      assert x in set k: TaskIndex :: Plan[k].name;
    }
  }

  /** For a permutation, the run succeeds exactly when every conversion does. */
  lemma SettleOkIff(env: Env, up: Upload, order: seq<TaskIndex>)
    requires IsSchedule(order)
    ensures Settle(env, up, order).ok <==> AllTasksSucceed(env, up)
  {
    SettleLines(env, up, order);
    if Settle(env, up, order).ok {
      forall k: TaskIndex ensures RunTask(env, up, Plan[k]).Some? {
        assert k in order;
        var j :| 0 <= j < |order| && order[j] == k;
      }
    }
  }

  /**
   * The completion order does not change whether the run succeeds, nor the
   * directory the archive is built from.
   */
  lemma OrderIndependentOutcome(env: Env, up: Upload, o1: seq<TaskIndex>, o2: seq<TaskIndex>)
    requires IsSchedule(o1) && IsSchedule(o2)
    ensures Settle(env, up, o1).ok == Settle(env, up, o2).ok
    ensures Settle(env, up, o1).ok ==> Settle(env, up, o1).dir == Settle(env, up, o2).dir
  {
    SettleOkIff(env, up, o1);
    SettleOkIff(env, up, o2);
    if Settle(env, up, o1).ok {
      var s1, s2 := Settle(env, up, o1), Settle(env, up, o2);
      CompleteRunDir(env, up, o1);
      CompleteRunDir(env, up, o2);
      PlanNameSet();
      forall name | name in s1.dir ensures s1.dir[name] == s2.dir[name] {
        assert name in set k: TaskIndex :: Plan[k].name;
      }
    }
  }

  /** The completion order changes only the order of the completion lines, not which lines appear. */
  lemma OrderIndependentLines(env: Env, up: Upload, o1: seq<TaskIndex>, o2: seq<TaskIndex>)
    requires IsSchedule(o1) && IsSchedule(o2)
    requires AllTasksSucceed(env, up)
    ensures forall line :: line in Settle(env, up, o1).lines ==> line in Settle(env, up, o2).lines
  {
    var s1, s2 := Settle(env, up, o1), Settle(env, up, o2);
    CompleteRunLines(env, up, o2);
    SettleLines(env, up, o1);
    forall line | line in s1.lines ensures line in s2.lines {
      var j :| 0 <= j < |s1.lines| && s1.lines[j] == line;
      assert line == CompletionLine(Plan[o1[j]], up.mediaType);
    }
  }

  /** Completion lines of the targets other than favicon.svg. */
  lemma OtherCompletionLine(k: TaskIndex, mediaType: string)
    requires k != 8
    ensures CompletionLine(Plan[k], mediaType) != CopiedSvgLine
    ensures CompletionLine(Plan[k], mediaType) != "Created favicon.svg"
  {
    var a := CompletionLine(Plan[k], mediaType);
    assert a == "Created " + Plan[k].name;
    assert a[1] != CopiedSvgLine[1];
    PlanNamesDistinct();
    assert a[8..] == Plan[k].name;
    assert Plan[k].name != Plan[8].name;
  }

  /**
   * favicon.svg: for an `image/svg+xml` upload the entry is the upload itself;
   * otherwise it is the 48 x 48 SVG conversion.
   */
  lemma SvgEntryBytes(env: Env, up: Upload, order: seq<TaskIndex>)
    requires IsSchedule(order)
    requires Settle(env, up, order).ok
    ensures var s := Settle(env, up, order);
      && "favicon.svg" in s.dir
      && (up.mediaType == SvgMediaType ==> s.dir["favicon.svg"] == up.bytes)
      && (up.mediaType != SvgMediaType ==> Some(s.dir["favicon.svg"]) == env.svg(up.bytes, 48))
  {
    SettleOkIff(env, up, order);
    CompleteRunDir(env, up, order);
    var svg: TaskIndex := 8;
    assert Plan[svg].name == "favicon.svg";
    assert RunTask(env, up, Plan[svg]).Some?;
  }

  lemma CreatedSvgLineText()
    ensures "Created " + Plan[8].name == "Created favicon.svg"
  {
  }

  /** Only the favicon.svg conversion logs a line about favicon.svg. */
  lemma SvgLinesOnlyFromSvg(env: Env, up: Upload, order: seq<TaskIndex>)
    ensures var s := Settle(env, up, order);
      && |s.lines| <= |order|
      && forall j :: 0 <= j < |s.lines| && order[j] != 8 ==>
           s.lines[j] != CopiedSvgLine && s.lines[j] != "Created favicon.svg"
  {
    SettleLines(env, up, order);
    var s := Settle(env, up, order);
    forall j | 0 <= j < |s.lines| && order[j] != 8
      ensures s.lines[j] != CopiedSvgLine && s.lines[j] != "Created favicon.svg"
    {
      OtherCompletionLine(order[j], up.mediaType);
    }
  }

  /**
   * The favicon.svg conversion is logged as "Copied original favicon.svg" for
   * an `image/svg+xml` upload and as "Created favicon.svg" otherwise, and the
   * other line never appears.
   */
  lemma SvgEntryLog(env: Env, up: Upload, order: seq<TaskIndex>)
    requires IsSchedule(order)
    requires Settle(env, up, order).ok
    ensures var s := Settle(env, up, order);
      && (up.mediaType == SvgMediaType ==> CopiedSvgLine in s.lines && "Created favicon.svg" !in s.lines)
      && (up.mediaType != SvgMediaType ==> "Created favicon.svg" in s.lines && CopiedSvgLine !in s.lines)
  {
    SettleOkIff(env, up, order);
    CompleteRunLines(env, up, order);
    SettleLines(env, up, order);
    SvgLinesOnlyFromSvg(env, up, order);
    var s := Settle(env, up, order);
    var svg: TaskIndex := 8;
    var line := CompletionLine(Plan[svg], up.mediaType);
    assert line in s.lines;
    assert |CopiedSvgLine| != |"Created favicon.svg"|;
    if up.mediaType != SvgMediaType {
      CreatedSvgLineText();
      assert line == "Created " + Plan[svg].name;
    }
    assert forall j :: 0 <= j < |s.lines| ==> s.lines[j] == line || order[j] != svg;
  }

  /**
   * favicon.ico: the ICO encoder's output for the 16-px rendition, after the
   * 16, 32 and 48-px renditions have all succeeded.
   */
  lemma IcoEntry(env: Env, up: Upload, order: seq<TaskIndex>)
    requires IsSchedule(order)
    requires Settle(env, up, order).ok
    ensures var s := Settle(env, up, order);
      && "favicon.ico" in s.dir
      && env.png(up.bytes, 16).Some? && env.png(up.bytes, 32).Some? && env.png(up.bytes, 48).Some?
      && Some(s.dir["favicon.ico"]) == env.ico(env.png(up.bytes, 16).value, [16, 32, 48])
  {
    SettleOkIff(env, up, order);
    CompleteRunDir(env, up, order);
    var ico: TaskIndex := 7;
    assert Plan[ico].name == "favicon.ico";
    assert RunTask(env, up, Plan[ico]).Some?;
  }

  /**
   * The three kinds of response: 400 without a file, before any directory
   * exists; 500 with the log so far, leaving the directory behind; 200 with
   * the archive, its length and the whole log, the directory removed.  Every
   * log starts with the start line.
   */
  lemma RespondKinds(file: Option<Upload>, env: Env, order: seq<TaskIndex>)
    ensures var o := Respond(file, env, order);
      && (file.None? <==> o.resp == Json(400, false, "No file uploaded", None))
      && (file.None? ==> o.tempDir == None)
      && (file.Some? && o.resp.Json? ==>
            && o.resp.status == 500 && !o.resp.success && o.resp.message == "Error processing image"
            && o.resp.logs.Some? && |o.resp.logs.value| >= 1 && o.resp.logs.value[0] == StartLine
            && o.tempDir.Some?)
      && (o.resp.Download? ==>
            && o.resp.status == 200 && o.resp.contentType == "application/zip"
            && o.resp.contentLength == |o.resp.body|
            && |o.resp.conversionLogs| >= 1 && o.resp.conversionLogs[0] == StartLine
            && o.tempDir == None)
  {
  }

  /**
   * For any completion order, the archive is sent exactly when every
   * conversion, the archiver and the removal succeed; its log is then the
   * start line, one completion line per target in completion order, and the
   * fixed tail, and the archive is built from the nine entry names.
   */
  lemma RespondSuccess(file: Option<Upload>, env: Env, order: seq<TaskIndex>)
    requires IsSchedule(order) && file.Some?
    ensures var o := Respond(file, env, order); var s := Settle(env, file.value, order);
      && (o.resp.Download? <==> AllTasksSucceed(env, file.value) && env.archive(s.dir).Some? && env.removeSucceeds)
      && (o.resp.Download? ==>
            && |o.resp.conversionLogs| == 1 + |Plan| + |SuccessTail|
            && o.resp.conversionLogs[0] == StartLine
            && o.resp.conversionLogs[1 + |Plan|..] == SuccessTail
            && (forall k: TaskIndex :: CompletionLine(Plan[k], file.value.mediaType) in o.resp.conversionLogs[1..1 + |Plan|])
            && s.dir.Keys == ArchiveEntryNames
            && o.resp.body == Concat(env.archive(s.dir).value)
            && o.resp.contentLength == |o.resp.body|)
  {
    var up := file.value;
    var s := Settle(env, up, order);
    SettleOkIff(env, up, order);
    if s.ok {
      CompleteRunLines(env, up, order);
      CompleteRunDir(env, up, order);
      var logs := [StartLine] + s.lines + SuccessTail;
      assert logs[1..1 + |Plan|] == s.lines;
    }
  }

  /**
   * A failed run answers 500 with the log so far: the start line, the
   * completion lines of the conversions settled before the failure and a
   * prefix of the fixed tail that stops before "Temporary directory cleaned up.".
   */
  lemma RespondFailure(file: Option<Upload>, env: Env, order: seq<TaskIndex>)
    requires file.Some? && !Respond(file, env, order).resp.Download?
    ensures var o := Respond(file, env, order); var s := Settle(env, file.value, order);
      && o.resp.Json? && o.resp.logs.Some?
      && var n := |o.resp.logs.value| - 1 - |s.lines|;
      && (n == 0 || n == 2 || n == 3)
      && (n == 0 <==> !s.ok)
      && o.resp.logs.value == [StartLine] + s.lines + SuccessTail[..n]
      && o.tempDir == Some(s.dir)
  {
    var s := Settle(env, file.value, order);
    assert SuccessTail[..0] == [];
    assert SuccessTail[..2] == [ConvertedLine, ZipStartLine];
    assert SuccessTail[..3] == [ConvertedLine, ZipStartLine, ZipDoneLine];
  }

  /**
   * favicon.ico is one of the nine conversions, so an ICO encoder that always
   * fails (a sharp build without ICO output) makes every upload with a file
   * answer 500, whatever the other collaborators do.
   */
  lemma NoIcoEncoderNoDownload(file: Option<Upload>, env: Env, order: seq<TaskIndex>)
    requires IsSchedule(order) && file.Some?
    requires forall b: Bytes, sizes: seq<nat> :: env.ico(b, sizes).None?
    ensures var o := Respond(file, env, order);
      o.resp.Json? && o.resp.status == 500 && o.resp.message == ErrorMessage && o.tempDir.Some?
  {
    var up := file.value;
    var ico: TaskIndex := 7;
    assert Plan[ico].job == MultiSizeIco;
    assert RunTask(env, up, Plan[ico]).None?;
    SettleOkIff(env, up, order);
  }
}
