/** servers/dalfox-mcp/src/index.ts: the `do-dalfox` URL guard and XSS-scan command line. */
module Dalfox {
  import opened Wrappers
  import opened Text
  import opened Js
  import opened Argv

  /** The tool parameters; numbers are whole numbers. */
  datatype Options = Options(
    url: string,
    headers: Option<seq<string>>,
    cookie: Option<string>,
    httpMethod: Option<string>,
    data: Option<string>,
    blind: Option<string>,
    worker: Option<int>,
    delay: Option<int>,
    param: Option<seq<string>>,
    format: Option<string>,
    followRedirects: Option<bool>,
    onlyDiscovery: Option<bool>,
    deepDomxss: Option<bool>,
    userAgent: Option<string>,
    proxy: Option<string>)

  /** The schema: the output format is one of the three dalfox writes. */
  predicate Valid(o: Options)
  {
    o.format.None? || o.format.value in {"plain", "json", "jsonl"}
  }

  const EmptyUrlMessage := "URL parameter is required and cannot be empty"

  /** The guard: an empty URL, or one of white space only, is refused. */
  predicate BlankUrl(url: string)
  {
    url == "" || Trim(url) == ""
  }

  /** The options between the header pairs and the parameter pairs. */
  function Middle(o: Options): (r: seq<Arg>)
    ensures forall s :: s in r ==> s.Pair? && s.name != "-H" && s.name != "-p"
  {
    TextOpt("-C", o.cookie)
    + TextOpt("-X", o.httpMethod)
    + TextOpt("-d", o.data)
    + TextOpt("-b", o.blind)
    + NumOpt("-w", o.worker)
    + NumOpt("--delay", o.delay)
  }

  /** The options after the parameter pairs. */
  function Tail(o: Options): (r: seq<Arg>)
    ensures forall s :: s in r ==> !(s.Pair? && (s.name == "-H" || s.name == "-p"))
  {
    TextOpt("--format", o.format)
    + Switch("-F", o.followRedirects)
    + Switch("--only-discovery", o.onlyDiscovery)
    + Switch("--deep-domxss", o.deepDomxss)
    + TextOpt("--user-agent", o.userAgent)
    + TextOpt("--proxy", o.proxy)
  }

  /** The "url" subcommand and the URL, the headers, the middle options, the parameters, the rest. */
  function Segments(o: Options): seq<Arg>
  {
    [Word("url"), Word(o.url)]
    + EachPair("-H", ListOrEmpty(o.headers))
    + Middle(o)
    + EachPair("-p", ListOrEmpty(o.param))
    + Tail(o)
  }

  /** The pushes between the header loop and the parameter loop. */
  method PushMiddle(segs: seq<Arg>, o: Options) returns (r: seq<Arg>)
    ensures r == segs + Middle(o)
  {
    ghost var s1, s2, s3 := TextOpt("-C", o.cookie), TextOpt("-X", o.httpMethod), TextOpt("-d", o.data);
    ghost var s4, s5, s6 := TextOpt("-b", o.blind), NumOpt("-w", o.worker), NumOpt("--delay", o.delay);
    r := PushText(segs, "-C", o.cookie);
    r := PushText(r, "-X", o.httpMethod);
    r := PushText(r, "-d", o.data);
    r := PushText(r, "-b", o.blind);
    r := PushNum(r, "-w", o.worker);
    r := PushNum(r, "--delay", o.delay);
    assert r == segs + s1 + s2 + s3 + s4 + s5 + s6;
    AppendAssoc6(segs, s1, s2, s3, s4, s5, s6);
  }

  /** The pushes after the parameter loop. */
  method PushTail(segs: seq<Arg>, o: Options) returns (r: seq<Arg>)
    ensures r == segs + Tail(o)
  {
    ghost var s1, s2, s3 := TextOpt("--format", o.format), Switch("-F", o.followRedirects), Switch("--only-discovery", o.onlyDiscovery);
    ghost var s4, s5, s6 := Switch("--deep-domxss", o.deepDomxss), TextOpt("--user-agent", o.userAgent), TextOpt("--proxy", o.proxy);
    r := PushText(segs, "--format", o.format);
    r := PushSwitch(r, "-F", o.followRedirects);
    r := PushSwitch(r, "--only-discovery", o.onlyDiscovery);
    r := PushSwitch(r, "--deep-domxss", o.deepDomxss);
    r := PushText(r, "--user-agent", o.userAgent);
    r := PushText(r, "--proxy", o.proxy);
    assert r == segs + s1 + s2 + s3 + s4 + s5 + s6;
    AppendAssoc6(segs, s1, s2, s3, s4, s5, s6);
  }

  /** The `do-dalfox` handler: the guard, then the argument array with a loop for headers and one for parameters. */
  method BuildArgs(o: Options) returns (r: Result<seq<string>>)
    requires Valid(o)
    ensures r == if BlankUrl(o.url) then Err(EmptyUrlMessage) else Ok(Render(Segments(o)))
  {
    if o.url == "" || Trim(o.url) == "" {
      return Err(EmptyUrlMessage);
    }
    var segs := [Word("url"), Word(o.url)];
    segs := PushEach(segs, "-H", ListOrEmpty(o.headers));
    segs := PushMiddle(segs, o);
    segs := PushEach(segs, "-p", ListOrEmpty(o.param));
    segs := PushTail(segs, o);
    return Ok(Render(segs));
  }

  /** The command line opens with the subcommand "url" and the URL. */
  lemma ArgsStart(o: Options)
    ensures var args := Render(Segments(o));
      |args| >= 2 && args[..2] == ["url", o.url]
  {
    var head := [Word("url"), Word(o.url)];
    var segs := Segments(o);
    assert segs == head + segs[2..];
    RenderAppend(head, segs[2..]);
  }

  /** Every header is passed as its own "-H" pair, all of them and in list order. */
  lemma HeadersInOrder(o: Options)
    ensures ValuesOf(Segments(o), "-H") == ListOrEmpty(o.headers)
  {
    var head := [Word("url"), Word(o.url)];
    var rest := Middle(o) + EachPair("-p", ListOrEmpty(o.param)) + Tail(o);
    assert Segments(o) == head + EachPair("-H", ListOrEmpty(o.headers)) + rest;
    assert forall s :: s in rest ==> !(s.Pair? && s.name == "-H");
    ValuesBetween(head, "-H", ListOrEmpty(o.headers), rest);
  }

  /** Every parameter is passed as its own "-p" pair, all of them and in list order. */
  lemma ParamsInOrder(o: Options)
    ensures ValuesOf(Segments(o), "-p") == ListOrEmpty(o.param)
  {
    var front := [Word("url"), Word(o.url)] + EachPair("-H", ListOrEmpty(o.headers)) + Middle(o);
    assert Segments(o) == front + EachPair("-p", ListOrEmpty(o.param)) + Tail(o);
    assert forall s :: s in front ==> !(s.Pair? && s.name == "-p");
    ValuesBetween(front, "-p", ListOrEmpty(o.param), Tail(o));
  }

  /** The worker count and the delay are passed whenever given, 0 included. */
  lemma NumbersAlwaysPassed(o: Options)
    ensures o.worker.Some? ==> Pair("-w", IntToString(o.worker.value)) in Segments(o)
    ensures o.delay.Some? ==> Pair("--delay", IntToString(o.delay.value)) in Segments(o)
  {
  }
}
