/** wpscan-mcp/src/index.ts: the `do-wpscan` WordPress-scan command line and its result text. */
module Wpscan {
  import opened Wrappers
  import opened Text
  import opened Js
  import opened Argv

  /** The tool parameters; numbers are whole numbers. */
  datatype Options = Options(
    url: string,
    detectionMode: Option<string>,
    randomUserAgent: Option<bool>,
    maxThreads: Option<int>,
    disableTlsChecks: Option<bool>,
    proxy: Option<string>,
    cookies: Option<string>,
    force: Option<bool>,
    enumerate: seq<string>)

  /** The schema: the detection mode and every enumeration value come from wpscan's own lists. */
  predicate Valid(o: Options)
  {
    (o.detectionMode.None? || o.detectionMode.value in {"mixed", "passive", "aggressive"})
    && forall i :: 0 <= i < |o.enumerate| ==> o.enumerate[i] in {"vp", "ap", "p", "vt", "at", "t", "tt", "cb", "dbe"}
  }

  /** The URL and the options before the enumeration. */
  function Front(o: Options): (r: seq<Arg>)
    ensures forall s :: s in r ==> !(s.Pair? && s.name == "-e")
  {
    [Pair("-u", o.url)]
    + TextOpt("--detection-mode", o.detectionMode)
    + Switch("--random-user-agent", o.randomUserAgent)
    + NumTruthy("-t", o.maxThreads)
    + Switch("--disable-tls-checks", o.disableTlsChecks)
    + TextOpt("--proxy", o.proxy)
    + TextOpt("--cookie-string", o.cookies)
    + Switch("--force", o.force)
  }

  function Segments(o: Options): seq<Arg>
  {
    Front(o) + JoinedOpt("-e", Some(o.enumerate))
  }

  /** The `do-wpscan` handler's argument array, built push by push. */
  method BuildArgs(o: Options) returns (args: seq<string>)
    requires Valid(o)
    ensures args == Render(Segments(o))
  {
    var segs := [Pair("-u", o.url)];
    segs := PushText(segs, "--detection-mode", o.detectionMode);
    segs := PushSwitch(segs, "--random-user-agent", o.randomUserAgent);
    segs := PushNumTruthy(segs, "-t", o.maxThreads);
    segs := PushSwitch(segs, "--disable-tls-checks", o.disableTlsChecks);
    segs := PushText(segs, "--proxy", o.proxy);
    segs := PushText(segs, "--cookie-string", o.cookies);
    segs := PushSwitch(segs, "--force", o.force);
    segs := PushJoined(segs, "-e", Some(o.enumerate));
    args := Render(segs);
  }

  /** The command line opens with the URL. */
  lemma ArgsStart(o: Options)
    ensures var args := Render(Segments(o));
      |args| >= 2 && args[..2] == ["-u", o.url]
  {
    var head := [Pair("-u", o.url)];
    var segs := Segments(o);
    assert segs == head + segs[1..];
    RenderAppend(head, segs[1..]);
  }

  /** The enumeration comes last, comma-joined, and only when the list is non-empty. */
  lemma EnumerateLast(o: Options)
    ensures var args := Render(Segments(o));
      |o.enumerate| > 0 ==> |args| >= 2 && args[|args| - 2..] == ["-e", Join(o.enumerate, ",")]
    ensures |o.enumerate| == 0 ==> ValuesOf(Segments(o), "-e") == []
  {
    var front := Front(o);
    var e := JoinedOpt("-e", Some(o.enumerate));
    RenderAppend(front, e);
    if |o.enumerate| == 0 {
      assert Segments(o) == front;
      ValuesOfNoPair(front, "-e");
    }
  }

  /** A thread count of 0 is left out, like an absent one. */
  lemma ThreadsTruthy(o: Options)
    ensures NonZero(o.maxThreads) ==> Pair("-t", IntToString(o.maxThreads.value)) in Segments(o)
    ensures !NonZero(o.maxThreads) ==> forall v :: Pair("-t", v) !in Segments(o)
  {
  }

  const ExitPrefix := "wpscan exited with code "
  const CompletedSuffix := "\n wpscan completed successfully"

  /** The text of the single content item; a non-zero exit is reported as text, not as an error. */
  function ResultText(exitCode: int, stdout: string, stderr: string): (text: string)
    ensures exitCode == 0 ==> text == stdout + stderr + CompletedSuffix
  {
    if exitCode != 0 then ExitPrefix + IntToString(exitCode) + ("\n" + stderr)
    else stdout + stderr + CompletedSuffix
  }

  /** A failed run's text names the exit code, which reads back as a number, and ends with stderr. */
  lemma FailureNamesCode(exitCode: int, stdout: string, stderr: string)
    requires exitCode != 0
    ensures var text := ResultText(exitCode, stdout, stderr);
      |ExitPrefix| <= |text| && text[..|ExitPrefix|] == ExitPrefix && ParseInt(text[|ExitPrefix|..]) == Some(exitCode)
      && EndsWith(text, stderr)
  {
    var text := ResultText(exitCode, stdout, stderr);
    ParseIntAfter(ExitPrefix, exitCode, "\n" + stderr, text);
    assert text == (ExitPrefix + IntToString(exitCode) + "\n") + stderr;
  }
}
