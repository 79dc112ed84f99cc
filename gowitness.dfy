/**
 * gowitness-mcp/src/index.ts: screenshots with gowitness. The single and
 * batch screenshot tools build `scan single` / `scan file` command lines
 * push by push; the report tool builds `report`; a screenshot asked for as
 * binary data is looked up in the screenshot directory by the URL's
 * hostname; every path a caller names is checked against its base first.
 */
module Gowitness {
  import opened Wrappers
  import opened Text
  import opened Js
  import opened Argv
  import opened Sanitize
  import PosixPath
  import opened ToolResult

  // ---------------------------------------------------------------- shared groups

  /** The browser window size, each left out when absent or 0. */
  function Window(x: Option<int>, y: Option<int>): (r: seq<Arg>)
    ensures forall s :: s in r ==> s.Pair?
  {
    NumTruthy("--chrome-window-x", x) + NumTruthy("--chrome-window-y", y)
  }

  /** The page timeout and the delay before the shot. */
  function Pacing(timeout: Option<int>, delay: Option<int>): (r: seq<Arg>)
    ensures forall s :: s in r ==> s.Pair?
  {
    NumTruthy("--timeout", timeout) + NumTruthy("--delay", delay)
  }

  /** The requested result writers. */
  function Writers(db: Option<bool>, jsonl: Option<bool>): (r: seq<Arg>)
    ensures forall s :: s in r ==> s == Flag("--write-db") || s == Flag("--write-jsonl")
  {
    Switch("--write-db", db) + Switch("--write-jsonl", jsonl)
  }

  /** "--write-none" when no writer was requested. */
  function WriteNone(db: Option<bool>, jsonl: Option<bool>): (r: seq<Arg>)
    ensures r == [] || r == [Flag("--write-none")]
  {
    if !IsTrue(db) && !IsTrue(jsonl) then [Flag("--write-none")] else []
  }

  // ---------------------------------------------------------------- gowitness-screenshot

  /** The parameters of `gowitness-screenshot`; numbers are whole numbers. */
  datatype Screenshot = Screenshot(
    url: string,
    windowX: Option<int>,
    windowY: Option<int>,
    screenshotPath: Option<string>,
    returnBinary: Option<bool>,
    timeout: Option<int>,
    delay: Option<int>,
    fullpage: Option<bool>,
    format: Option<string>,
    threads: Option<int>,
    writeDb: Option<bool>,
    writeJsonl: Option<bool>,
    userAgent: Option<string>)

  /** The window size and the screenshot directory. */
  function Frame(o: Screenshot): (r: seq<Arg>)
    ensures forall s :: s in r ==> s.Pair?
  {
    Window(o.windowX, o.windowY) + TextOpt("--screenshot-path", o.screenshotPath)
  }

  /** A full-page shot and the image format. */
  function Look(fullpage: Option<bool>, format: Option<string>): (r: seq<Arg>)
    ensures Flag("--write-none") !in r
  {
    Switch("--screenshot-fullpage", fullpage) + TextOpt("--screenshot-format", format)
  }

  /** Everything pushed after the URL and before the writer fallback. */
  function ShotOptions(o: Screenshot): (r: seq<Arg>)
    ensures Flag("--write-none") !in r
  {
    Frame(o) + Pacing(o.timeout, o.delay) + Look(o.fullpage, o.format)
    + NumTruthy("--threads", o.threads) + Writers(o.writeDb, o.writeJsonl)
    + TextOpt("--chrome-user-agent", o.userAgent)
  }

  function ShotHead(url: string): seq<Arg>
  {
    [Word("scan"), Word("single"), Pair("--url", url)]
  }

  function ShotSegments(o: Screenshot): seq<Arg>
  {
    ShotHead(o.url) + (ShotOptions(o) + WriteNone(o.writeDb, o.writeJsonl))
  }

  method PushFrame(a: seq<Arg>, o: Screenshot) returns (r: seq<Arg>)
    ensures r == a + Frame(o)
  {
    r := PushWindow(a, o.windowX, o.windowY);
    r := PushText(r, "--screenshot-path", o.screenshotPath);
  }

  method PushWindow(a: seq<Arg>, x: Option<int>, y: Option<int>) returns (r: seq<Arg>)
    ensures r == a + Window(x, y)
  {
    r := PushNumTruthy(a, "--chrome-window-x", x);
    r := PushNumTruthy(r, "--chrome-window-y", y);
  }

  method PushPacing(a: seq<Arg>, timeout: Option<int>, delay: Option<int>) returns (r: seq<Arg>)
    ensures r == a + Pacing(timeout, delay)
  {
    r := PushNumTruthy(a, "--timeout", timeout);
    r := PushNumTruthy(r, "--delay", delay);
  }

  method PushLook(a: seq<Arg>, fullpage: Option<bool>, format: Option<string>) returns (r: seq<Arg>)
    ensures r == a + Look(fullpage, format)
  {
    r := PushSwitch(a, "--screenshot-fullpage", fullpage);
    r := PushText(r, "--screenshot-format", format);
  }

  method PushWriters(a: seq<Arg>, db: Option<bool>, jsonl: Option<bool>) returns (r: seq<Arg>)
    ensures r == a + Writers(db, jsonl)
  {
    r := PushSwitch(a, "--write-db", db);
    r := PushSwitch(r, "--write-jsonl", jsonl);
  }

  /** The fallback flag, pushed only when neither writer was asked for. */
  method PushWriteNone(a: seq<Arg>, db: Option<bool>, jsonl: Option<bool>) returns (r: seq<Arg>)
    ensures r == a + WriteNone(db, jsonl)
  {
    r := a;
    if !IsTrue(db) && !IsTrue(jsonl) {
      r := r + [Flag("--write-none")];
    }
  }

  /** The `gowitness-screenshot` handler's argument array. */
  method ShotArgs(o: Screenshot) returns (args: seq<string>)
    ensures args == Render(ShotSegments(o))
  {
    var h := ShotHead(o.url);
    var g1, g2, g3 := Frame(o), Pacing(o.timeout, o.delay), Look(o.fullpage, o.format);
    var g4, g5, g6 := NumTruthy("--threads", o.threads), Writers(o.writeDb, o.writeJsonl),
      TextOpt("--chrome-user-agent", o.userAgent);
    var segs := PushFrame(h, o);
    segs := PushPacing(segs, o.timeout, o.delay);
    AppendAssoc(h, g1, g2);
    segs := PushLook(segs, o.fullpage, o.format);
    AppendAssoc(h, g1 + g2, g3);
    segs := PushNumTruthy(segs, "--threads", o.threads);
    AppendAssoc(h, g1 + g2 + g3, g4);
    segs := PushWriters(segs, o.writeDb, o.writeJsonl);
    AppendAssoc(h, g1 + g2 + g3 + g4, g5);
    segs := PushText(segs, "--chrome-user-agent", o.userAgent);
    AppendAssoc(h, g1 + g2 + g3 + g4 + g5, g6);
    segs := PushWriteNone(segs, o.writeDb, o.writeJsonl);
    AppendAssoc(h, ShotOptions(o), WriteNone(o.writeDb, o.writeJsonl));
    args := Render(segs);
  }

  lemma ShotHeadRender(url: string)
    ensures Render(ShotHead(url)) == ["scan", "single", "--url", url]
  {
    assert ShotHead(url) == [Word("scan")] + ([Word("single")] + [Pair("--url", url)]);
    RenderAppend([Word("single")], [Pair("--url", url)]);
    RenderAppend([Word("scan")], [Word("single")] + [Pair("--url", url)]);
  }

  /** The screenshot command line starts with "scan", "single", "--url" and the URL. */
  lemma ShotStart(o: Screenshot)
    ensures var r := Render(ShotSegments(o));
      |r| >= 4 && r[..4] == ["scan", "single", "--url", o.url]
  {
    ShotHeadRender(o.url);
    RenderAppend(ShotHead(o.url), ShotOptions(o) + WriteNone(o.writeDb, o.writeJsonl));
  }

  /**
   * "--write-none" is passed exactly when neither writer is requested, and
   * then it is the last argument.
   */
  lemma ShotWriteNone(o: Screenshot)
    ensures Flag("--write-none") in ShotSegments(o) <==> !IsTrue(o.writeDb) && !IsTrue(o.writeJsonl)
    ensures !IsTrue(o.writeDb) && !IsTrue(o.writeJsonl) ==>
      var r := Render(ShotSegments(o)); |r| > 0 && r[|r| - 1] == "--write-none"
  {
    var h := ShotHead(o.url);
    var w := WriteNone(o.writeDb, o.writeJsonl);
    AppendAssoc(h, ShotOptions(o), w);
    assert Flag("--write-none") !in h;
    RenderAppend(h + ShotOptions(o), w);
  }

  /** The exit-code error every gowitness tool throws, with the combined output. */
  function ExitError(result: SpawnResult): string
  {
    "gowitness exited with code " + IntToString(result.exitCode) + ":\n" + result.stdout + result.stderr
  }

  /** What the screenshot tool gives back once gowitness has succeeded. */
  datatype Capture = Saved(text: string) | ReadFrom(path: string)

  /** The directory a binary screenshot is looked up in. */
  function ShotDir(o: Screenshot): string
  {
    OptOrElse(o.screenshotPath, "./screenshots")
  }

  /**
   * The screenshot tool after gowitness has run, from the working directory
   * `cwd`, with `host` the hostname the URL parses to (none when it does not
   * parse) and `files` the names in the screenshot directory.
   */
  function ShotOutcome(cwd: string, o: Screenshot, host: Option<string>, result: SpawnResult, files: seq<string>)
    : (r: Result<Capture>)
    ensures result.exitCode != 0 ==> r == Err(ExitError(result))
    ensures result.exitCode == 0 && !IsTrue(o.returnBinary) ==> r.Ok? && r.value.Saved?
    ensures r.Ok? && r.value.ReadFrom? ==> IsTrue(o.returnBinary)
  {
    if result.exitCode != 0 then Err(ExitError(result))
    else if IsTrue(o.returnBinary) then
      match SelectScreenshot(files, HostnameFromUrl(host))
      case Err(msg) => Err(msg)
      case Ok(file) =>
        match SanitizePath(cwd, file, PosixPath.Resolve(cwd, [ShotDir(o)]))
        case Err(msg) => Err(msg)
        case Ok(path) => Ok(ReadFrom(path))
    else
      Ok(Saved(result.stdout + result.stderr + "\nGowitness screenshot completed successfully"
        + " Screenshots saved to: " + ShotDir(o)))
  }

  /**
   * A binary screenshot is read from a file in the directory listing that
   * is an image, and only when its path stays inside the screenshot directory.
   */
  lemma BinaryShotConfined(cwd: string, o: Screenshot, host: Option<string>, result: SpawnResult, files: seq<string>)
    requires ShotOutcome(cwd, o, host, result, files).Ok?
    requires ShotOutcome(cwd, o, host, result, files).value.ReadFrom?
    ensures var file := SelectScreenshot(files, HostnameFromUrl(host));
      var base := PosixPath.Resolve(cwd, [ShotDir(o)]);
      file.Ok? && file.value in files && IsImage(file.value) &&
      SanitizePath(cwd, file.value, base) == Ok(ShotOutcome(cwd, o, host, result, files).value.path)
  {
    SelectedIsImage(files, HostnameFromUrl(host));
  }

  // ---------------------------------------------------------------- hostname

  /** Every character that is not an ASCII letter or digit replaced by an underscore. */
  function Underscored(h: string): (r: string)
    ensures |r| == |h|
    ensures forall i :: 0 <= i < |h| ==> (IsAsciiAlnum(h[i]) ==> r[i] == h[i]) && (!IsAsciiAlnum(h[i]) ==> r[i] == '_')
  {
    seq(|h|, i requires 0 <= i < |h| => if IsAsciiAlnum(h[i]) then h[i] else '_')
  }

  /**
   * `getHostnameFromUrl`: the hostname the URL parses to, every character
   * other than an ASCII letter or digit replaced by "_"; "unknown" when the
   * URL does not parse.
   */
  function HostnameFromUrl(host: Option<string>): (r: string)
    ensures host.None? ==> r == "unknown"
    ensures forall i :: 0 <= i < |r| ==> IsAsciiAlnum(r[i]) || r[i] == '_'
  {
    if host.Some? then Underscored(host.value) else "unknown"
  }

  /** Replacing is idempotent: a sanitised hostname is left as it is. */
  lemma UnderscoredIdempotent(h: string)
    ensures Underscored(Underscored(h)) == Underscored(h)
  {
    var u := Underscored(h);
    forall i | 0 <= i < |u|
      ensures Underscored(u)[i] == u[i]
    {
      assert IsAsciiAlnum(u[i]) || u[i] == '_';
    }
  }

  // ---------------------------------------------------------------- picking the screenshot

  predicate IsImage(file: string)
  {
    EndsWith(file, ".jpeg") || EndsWith(file, ".png") || EndsWith(file, ".jpg")
  }

  /** The non-empty "_"-separated parts of the hostname. */
  function DomainParts(host: string): (r: seq<string>)
    ensures forall part :: part in r ==> part != ""
  {
    Filter(Split(host, '_'), (part: string) => |part| > 0)
  }

  /** An image whose name contains the hostname. */
  predicate NamesHost(file: string, host: string)
  {
    IsImage(file) && Contains(file, host)
  }

  /** An image whose name contains one of the parts. */
  predicate NamesAPart(file: string, parts: seq<string>)
  {
    IsImage(file) && Any(parts, (part: string) => Contains(file, part))
  }

  const NotFoundMessage := "Screenshot file not found after gowitness execution"

  /**
   * The file read back: the first image naming the hostname, else the
   * first image naming one of its parts, else the last image, else an error.
   */
  function SelectScreenshot(files: seq<string>, host: string): (r: Result<string>)
    ensures r.Err? ==> r.msg == NotFoundMessage
  {
    var byHost := Find(files, (f: string) => NamesHost(f, host));
    if byHost.Some? then Ok(byHost.value)
    else
      var byPart := Find(files, (f: string) => NamesAPart(f, DomainParts(host)));
      if byPart.Some? then Ok(byPart.value)
      else
        var images := Filter(files, IsImage);
        if |images| > 0 then Ok(images[|images| - 1]) else Err(NotFoundMessage)
  }

  /** The chosen file is an image of the listing, and there is one exactly when the listing holds an image. */
  lemma SelectedIsImage(files: seq<string>, host: string)
    ensures var r := SelectScreenshot(files, host);
      (r.Ok? ==> r.value in files && IsImage(r.value)) &&
      (r.Err? <==> forall f :: f in files ==> !IsImage(f))
  {
    var r := SelectScreenshot(files, host);
    var images := Filter(files, IsImage);
    if r.Err? {
      assert |images| == 0;
    } else if |images| > 0 {
      assert images[|images| - 1] in images;
    }
  }

  /** An image naming the hostname wins, and of those the first in the listing. */
  lemma HostMatchFirst(files: seq<string>, host: string, i: nat)
    requires i < |files| && NamesHost(files[i], host)
    requires forall j :: 0 <= j < i ==> !NamesHost(files[j], host)
    ensures SelectScreenshot(files, host) == Ok(files[i])
  {
    var p := (f: string) => NamesHost(f, host);
    var k := FindIndex(files, p);
    assert p(files[i]);
    assert k == i;
  }

  /**
   * With no image naming the hostname, the first image naming one of its
   * non-empty parts is chosen.
   */
  lemma PartMatchFirst(files: seq<string>, host: string, i: nat)
    requires forall f :: f in files ==> !NamesHost(f, host)
    requires i < |files| && NamesAPart(files[i], DomainParts(host))
    requires forall j :: 0 <= j < i ==> !NamesAPart(files[j], DomainParts(host))
    ensures SelectScreenshot(files, host) == Ok(files[i])
  {
    var p := (f: string) => NamesAPart(f, DomainParts(host));
    var k := FindIndex(files, p);
    assert p(files[i]);
    assert k == i;
    assert Find(files, (f: string) => NamesHost(f, host)).None?;
  }

  /**
   * With no image naming the hostname or a part of it, the last image of
   * the listing is chosen.
   */
  lemma LastImageFallback(files: seq<string>, host: string, k: nat)
    requires forall f :: f in files ==> !NamesHost(f, host) && !NamesAPart(f, DomainParts(host))
    requires k < |files| && IsImage(files[k])
    requires forall j :: k < j < |files| ==> !IsImage(files[j])
    ensures SelectScreenshot(files, host) == Ok(files[k])
  {
    assert Find(files, (f: string) => NamesHost(f, host)).None?;
    assert Find(files, (f: string) => NamesAPart(f, DomainParts(host))).None?;
    assert files[k] in Filter(files, IsImage);
    var last := FilterLast(files, IsImage);
    assert last == k;
  }

  // ---------------------------------------------------------------- gowitness-report

  /** The parameters of `gowitness-report`; the output format is accepted but never passed on. */
  datatype Report = Report(screenshotPath: Option<string>, dbUri: Option<string>, outputFormat: Option<string>)

  function ReportSegments(o: Report): (r: seq<Arg>)
    ensures |r| >= 1 && r[0] == Word("report")
  {
    [Word("report")] + TextOpt("--screenshot-path", o.screenshotPath) + TextOpt("--write-db-uri", o.dbUri)
  }

  method ReportArgs(o: Report) returns (args: seq<string>)
    ensures args == Render(ReportSegments(o))
  {
    var segs := [Word("report")];
    segs := PushText(segs, "--screenshot-path", o.screenshotPath);
    segs := PushText(segs, "--write-db-uri", o.dbUri);
    args := Render(segs);
  }

  /** The report command line is "report" and at most two flag pairs: the format is not among them. */
  lemma ReportShape(o: Report)
    ensures var r := Render(ReportSegments(o));
      r[0] == "report" && |r| == 1 + (if Truthy(o.screenshotPath) then 2 else 0) + (if Truthy(o.dbUri) then 2 else 0)
  {
    var t1 := TextOpt("--screenshot-path", o.screenshotPath);
    var t2 := TextOpt("--write-db-uri", o.dbUri);
    RenderAppend([Word("report")], t1);
    RenderAppend([Word("report")] + t1, t2);
  }

  /** The report text: the combined output and a fixed closing line, or the exit-code error. */
  function ReportOutcome(result: SpawnResult): (r: Result<string>)
    ensures r.Err? <==> result.exitCode != 0
    ensures r.Ok? ==> EndsWith(r.value, "\nGowitness report generated successfully")
  {
    if result.exitCode != 0 then Err(ExitError(result))
    else Ok(result.stdout + result.stderr + "\nGowitness report generated successfully")
  }

  // ---------------------------------------------------------------- gowitness-batch-screenshot

  /** The parameters of `gowitness-batch-screenshot`. */
  datatype Batch = Batch(
    urls: seq<string>,
    screenshotPath: string,
    windowX: Option<int>,
    windowY: Option<int>,
    timeout: Option<int>,
    delay: Option<int>,
    threads: Option<int>,
    format: Option<string>,
    writeDb: Option<bool>,
    writeJsonl: Option<bool>)

  /** The thread count and the image format, in the batch tool's order. */
  function Tuning(threads: Option<int>, format: Option<string>): (r: seq<Arg>)
    ensures forall s :: s in r ==> s.Pair?
  {
    NumTruthy("--threads", threads) + TextOpt("--screenshot-format", format)
  }

  function BatchOptions(o: Batch): (r: seq<Arg>)
    ensures Flag("--write-none") !in r
  {
    Window(o.windowX, o.windowY) + Pacing(o.timeout, o.delay)
    + Tuning(o.threads, o.format) + Writers(o.writeDb, o.writeJsonl)
  }

  function BatchHead(urlsFile: string, safeDir: string): seq<Arg>
  {
    [Word("scan"), Word("file"), Pair("-f", urlsFile), Pair("--screenshot-path", safeDir)]
  }

  function BatchSegments(o: Batch, urlsFile: string, safeDir: string): seq<Arg>
  {
    BatchHead(urlsFile, safeDir) + (BatchOptions(o) + WriteNone(o.writeDb, o.writeJsonl))
  }

  method PushTuning(a: seq<Arg>, threads: Option<int>, format: Option<string>) returns (r: seq<Arg>)
    ensures r == a + Tuning(threads, format)
  {
    r := PushNumTruthy(a, "--threads", threads);
    r := PushText(r, "--screenshot-format", format);
  }

  method BatchArgs(o: Batch, urlsFile: string, safeDir: string) returns (args: seq<string>)
    ensures args == Render(BatchSegments(o, urlsFile, safeDir))
  {
    var h := BatchHead(urlsFile, safeDir);
    var g1, g2 := Window(o.windowX, o.windowY), Pacing(o.timeout, o.delay);
    var g3, g4 := Tuning(o.threads, o.format), Writers(o.writeDb, o.writeJsonl);
    var segs := PushWindow(h, o.windowX, o.windowY);
    segs := PushPacing(segs, o.timeout, o.delay);
    AppendAssoc(h, g1, g2);
    segs := PushTuning(segs, o.threads, o.format);
    AppendAssoc(h, g1 + g2, g3);
    segs := PushWriters(segs, o.writeDb, o.writeJsonl);
    AppendAssoc(h, g1 + g2 + g3, g4);
    segs := PushWriteNone(segs, o.writeDb, o.writeJsonl);
    AppendAssoc(h, BatchOptions(o), WriteNone(o.writeDb, o.writeJsonl));
    args := Render(segs);
  }

  lemma BatchHeadRender(urlsFile: string, safeDir: string)
    ensures Render(BatchHead(urlsFile, safeDir)) == ["scan", "file", "-f", urlsFile, "--screenshot-path", safeDir]
  {
    var t := [Pair("-f", urlsFile)] + [Pair("--screenshot-path", safeDir)];
    assert BatchHead(urlsFile, safeDir) == [Word("scan")] + ([Word("file")] + t);
    RenderAppend([Pair("-f", urlsFile)], [Pair("--screenshot-path", safeDir)]);
    RenderAppend([Word("file")], t);
    RenderAppend([Word("scan")], [Word("file")] + t);
  }

  /** The batch command line names the URL file and the checked directory first. */
  lemma BatchStart(o: Batch, urlsFile: string, safeDir: string)
    ensures var r := Render(BatchSegments(o, urlsFile, safeDir));
      |r| >= 6 && r[..6] == ["scan", "file", "-f", urlsFile, "--screenshot-path", safeDir]
  {
    BatchHeadRender(urlsFile, safeDir);
    RenderAppend(BatchHead(urlsFile, safeDir), BatchOptions(o) + WriteNone(o.writeDb, o.writeJsonl));
  }

  /** As for a single shot, "--write-none" is passed exactly when no writer is requested, and last. */
  lemma BatchWriteNone(o: Batch, urlsFile: string, safeDir: string)
    ensures Flag("--write-none") in BatchSegments(o, urlsFile, safeDir) <==> !IsTrue(o.writeDb) && !IsTrue(o.writeJsonl)
    ensures !IsTrue(o.writeDb) && !IsTrue(o.writeJsonl) ==>
      var r := Render(BatchSegments(o, urlsFile, safeDir)); |r| > 0 && r[|r| - 1] == "--write-none"
  {
    var h := BatchHead(urlsFile, safeDir);
    var w := WriteNone(o.writeDb, o.writeJsonl);
    AppendAssoc(h, BatchOptions(o), w);
    assert Flag("--write-none") !in h;
    RenderAppend(h + BatchOptions(o), w);
  }

  /** What the batch tool does before spawning: the URL file to write and the command line. */
  datatype BatchPlan = BatchPlan(urlsFile: string, urlsContent: string, args: seq<string>)

  /**
   * The screenshot directory is checked against the working directory
   * before anything is written; the URL file "urls.txt" inside it holds the
   * URLs one per line.
   */
  function PlanBatch(cwd: string, o: Batch): (r: Result<BatchPlan>)
    ensures r.Err? <==> SanitizePath(cwd, o.screenshotPath, cwd).Err?
    ensures r.Err? ==> r.msg == TraversalMessage
  {
    match SanitizePath(cwd, o.screenshotPath, cwd)
    case Err(msg) => Err(msg)
    case Ok(safeDir) =>
      var urlsFile := PosixPath.JoinPaths([safeDir, "urls.txt"]);
      Ok(BatchPlan(urlsFile, Join(o.urls, "\n"), Render(BatchSegments(o, urlsFile, safeDir))))
  }

  /** The URL file reads back, line by line, as the URL list when no URL holds a newline. */
  lemma BatchFileLines(cwd: string, o: Batch)
    requires PlanBatch(cwd, o).Ok? && |o.urls| > 0 && FreeOf(o.urls, '\n')
    ensures Split(PlanBatch(cwd, o).value.urlsContent, '\n') == o.urls
  {
    SplitJoin(o.urls, '\n');
  }

  const BatchFailure := "Failed to process batch screenshots: "

  /**
   * The batch text once gowitness has run; a non-zero exit is rethrown by
   * the surrounding `catch` with the batch prefix in front.
   */
  function BatchOutcome(o: Batch, safeDir: string, result: SpawnResult): (r: Result<string>)
    ensures r.Err? <==> result.exitCode != 0
    ensures r.Err? ==> r.msg == BatchFailure + ExitError(result)
  {
    if result.exitCode != 0 then Err(BatchFailure + ExitError(result))
    else
      Ok("Batch screenshot completed for " + IntToString(|o.urls|) + " URLs.\nOutput: "
        + result.stdout + result.stderr + "\n\nScreenshots saved to: " + safeDir)
  }

  /** The URL count reads back from the batch text. */
  lemma BatchCount(o: Batch, safeDir: string, result: SpawnResult)
    requires result.exitCode == 0
    ensures var r := BatchOutcome(o, safeDir, result).value;
      var h := "Batch screenshot completed for ";
      |h| <= |r| && r[..|h|] == h && ParseInt(r[|h|..]) == Some(|o.urls|)
  {
    var r := BatchOutcome(o, safeDir, result).value;
    var rest := " URLs.\nOutput: " + result.stdout + result.stderr + "\n\nScreenshots saved to: " + safeDir;
    assert r == "Batch screenshot completed for " + (IntToString(|o.urls|) + rest);
    assert rest[0] == ' ';
    ParseIntAfter("Batch screenshot completed for ", |o.urls|, rest, r);
  }

  // ---------------------------------------------------------------- gowitness-read-binary, gowitness-list-screenshots

  /**
   * `gowitness-read-binary`: the file is resolved under the screenshot
   * directory (default "./screenshots"), and refused when it leaves it.
   */
  function ReadBinaryPath(cwd: string, filePath: string, screenshotDir: Option<string>): (r: Result<string>)
    ensures r.Err? ==> r.msg == TraversalMessage
  {
    SanitizePath(cwd, filePath, PosixPath.Resolve(cwd, [OptOrElse(screenshotDir, "./screenshots")]))
  }

  /** A read is allowed exactly when the file lands on or below the screenshot directory. */
  lemma ReadBinaryConfined(cwd: string, filePath: string, screenshotDir: Option<string>)
    requires PosixPath.IsAbsolute(cwd)
    ensures var baseDir := PosixPath.Resolve(cwd, [OptOrElse(screenshotDir, "./screenshots")]);
      var base := BaseNames(cwd, baseDir);
      var target := PosixPath.Locate(base, filePath);
      ReadBinaryPath(cwd, filePath, screenshotDir) ==
        if Within(target, base) then Ok("/" + Join(target, "/")) else Err(TraversalMessage)
  {
    var baseDir := PosixPath.Resolve(cwd, [OptOrElse(screenshotDir, "./screenshots")]);
    SanitizePathMeaning(cwd, filePath, baseDir);
  }

  /**
   * `gowitness-list-screenshots`: the directory (default "./screenshots"
   * when not given) is checked against the working directory, and the
   * image files of its listing are kept; the handler's sort by modification
   * time needs `stat` and is not modelled, so they stay in listing order.
   */
  function ListScreenshots(cwd: string, screenshotDir: Option<string>, files: seq<string>)
    : (r: Result<seq<string>>)
    ensures r.Err? ==> r.msg == TraversalMessage
    ensures r.Ok? ==> forall f :: f in r.value <==> f in files && IsImage(f)
  {
    var dir := if screenshotDir.Some? then screenshotDir.value else "./screenshots";
    match SanitizePath(cwd, dir, cwd)
    case Err(msg) => Err(msg)
    case Ok(_) => Ok(Filter(files, IsImage))
  }
}
