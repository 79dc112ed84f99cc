/**
 * servers/gobuster-mcp/src/index.ts: the seven gobuster modes. Every
 * handler pushes its mode's arguments one by one, and `runGobuster` puts the
 * mode in front and three fixed switches behind them.
 */
module Gobuster {
  import opened Wrappers
  import opened Text
  import opened Js
  import opened Argv

  /** The switches `runGobuster` always appends. */
  const Trailer: seq<string> := ["--no-progress", "--no-color", "-q"]

  /** `runGobuster(mode, modeArgs, …)`: the spawned argument array. */
  function Spawned(mode: string, modeArgs: seq<string>): (r: seq<string>)
    ensures |r| == |modeArgs| + 4 && r[0] == mode
    ensures r[1..|r| - 3] == modeArgs && r[|r| - 3..] == Trailer
  {
    var r := [mode] + modeArgs + Trailer;
    assert r[1..|r| - 3] == modeArgs;
    r
  }

  // ---------------------------------------------------------------- option groups

  /** The HTTP request options shared by the dir, vhost and fuzz modes. */
  datatype Request = Request(
    httpMethod: Option<string>,
    headers: Option<seq<string>>,
    cookies: Option<string>,
    username: Option<string>,
    password: Option<string>,
    useragent: Option<string>,
    randomAgent: Option<bool>,
    followRedirect: Option<bool>)

  /** The connection options shared by the dir, vhost, fuzz, s3 and gcs modes; numbers are whole. */
  datatype Transport = Transport(
    noTlsValidation: Option<bool>,
    proxy: Option<string>,
    timeout: Option<string>,
    threads: Option<int>,
    retry: Option<bool>,
    retryAttempts: Option<int>)

  /** Two required pairs: the target and the wordlist. */
  function Target(flag: string, target: string, wordlist: string): (r: seq<Arg>)
    ensures forall s :: s in r ==> s.Pair? && s.name in {flag, "-w"}
  {
    [Pair(flag, target), Pair("-w", wordlist)]
  }

  function RequestSegments(q: Request): (r: seq<Arg>)
    ensures forall s :: s in r ==> s.Word? == false
    ensures forall s :: s in r && s.Pair? ==> s.name in {"-m", "-H", "-c", "-U", "-P", "-a"}
    ensures forall s :: s in r && s.Flag? ==> s.name in {"--random-agent", "-r"}
  {
    TextOpt("-m", q.httpMethod)
    + EachPair("-H", ListOrEmpty(q.headers))
    + TextOpt("-c", q.cookies)
    + TextOpt("-U", q.username)
    + TextOpt("-P", q.password)
    + TextOpt("-a", q.useragent)
    + Switch("--random-agent", q.randomAgent)
    + Switch("-r", q.followRedirect)
  }

  function TransportSegments(t: Transport): (r: seq<Arg>)
    ensures forall s :: s in r ==> s.Word? == false
    ensures forall s :: s in r && s.Pair? ==> s.name in {"--proxy", "--timeout", "-t", "--retry-attempts"}
    ensures forall s :: s in r && s.Flag? ==> s.name in {"-k", "--retry"}
  {
    Switch("-k", t.noTlsValidation)
    + TextOpt("--proxy", t.proxy)
    + TextOpt("--timeout", t.timeout)
    + NumTruthy("-t", t.threads)
    + Switch("--retry", t.retry)
    + NumTruthy("--retry-attempts", t.retryAttempts)
  }

  method PushRequest(a: seq<Arg>, q: Request) returns (r: seq<Arg>)
    ensures r == a + RequestSegments(q)
  {
    ghost var s1, s2, s3, s4 := TextOpt("-m", q.httpMethod), EachPair("-H", ListOrEmpty(q.headers)), TextOpt("-c", q.cookies), TextOpt("-U", q.username);
    ghost var s5, s6, s7, s8 := TextOpt("-P", q.password), TextOpt("-a", q.useragent), Switch("--random-agent", q.randomAgent), Switch("-r", q.followRedirect);
    r := PushText(a, "-m", q.httpMethod);
    r := PushEach(r, "-H", ListOrEmpty(q.headers));
    r := PushText(r, "-c", q.cookies);
    r := PushText(r, "-U", q.username);
    r := PushText(r, "-P", q.password);
    r := PushText(r, "-a", q.useragent);
    r := PushSwitch(r, "--random-agent", q.randomAgent);
    r := PushSwitch(r, "-r", q.followRedirect);
    assert r == a + s1 + s2 + s3 + s4 + s5 + s6 + s7 + s8;
    AppendAssoc8(a, s1, s2, s3, s4, s5, s6, s7, s8);
  }

  method PushTransport(a: seq<Arg>, t: Transport) returns (r: seq<Arg>)
    ensures r == a + TransportSegments(t)
  {
    ghost var s1, s2, s3 := Switch("-k", t.noTlsValidation), TextOpt("--proxy", t.proxy), TextOpt("--timeout", t.timeout);
    ghost var s4, s5, s6 := NumTruthy("-t", t.threads), Switch("--retry", t.retry), NumTruthy("--retry-attempts", t.retryAttempts);
    r := PushSwitch(a, "-k", t.noTlsValidation);
    r := PushText(r, "--proxy", t.proxy);
    r := PushText(r, "--timeout", t.timeout);
    r := PushNumTruthy(r, "-t", t.threads);
    r := PushSwitch(r, "--retry", t.retry);
    r := PushNumTruthy(r, "--retry-attempts", t.retryAttempts);
    assert r == a + s1 + s2 + s3 + s4 + s5 + s6;
    AppendAssoc6(a, s1, s2, s3, s4, s5, s6);
  }

  /** Every header is passed as its own "-H" pair, all of them and in list order. */
  lemma RequestHeadersInOrder(q: Request)
    ensures ValuesOf(RequestSegments(q), "-H") == ListOrEmpty(q.headers)
  {
    var p1 := TextOpt("-m", q.httpMethod) + EachPair("-H", ListOrEmpty(q.headers));
    var p2 := p1 + TextOpt("-c", q.cookies);
    var p3 := p2 + TextOpt("-U", q.username);
    var p4 := p3 + TextOpt("-P", q.password);
    var p5 := p4 + TextOpt("-a", q.useragent);
    var p6 := p5 + Switch("--random-agent", q.randomAgent);
    ValuesOfNoPairAppend(p6, Switch("-r", q.followRedirect), "-H");
    ValuesOfNoPairAppend(p5, Switch("--random-agent", q.randomAgent), "-H");
    ValuesOfNoPairAppend(p4, TextOpt("-a", q.useragent), "-H");
    ValuesOfNoPairAppend(p3, TextOpt("-P", q.password), "-H");
    ValuesOfNoPairAppend(p2, TextOpt("-U", q.username), "-H");
    ValuesOfNoPairAppend(p1, TextOpt("-c", q.cookies), "-H");
    ValuesOfAppend(TextOpt("-m", q.httpMethod), EachPair("-H", ListOrEmpty(q.headers)), "-H");
    ValuesOfNoPair(TextOpt("-m", q.httpMethod), "-H");
    ValuesOfEachPair("-H", ListOrEmpty(q.headers));
  }

  /** The thread count is passed only when it is non-zero. */
  lemma ThreadsTruthy(t: Transport)
    ensures ValuesOf(TransportSegments(t), "-t") == if NonZero(t.threads) then [IntToString(t.threads.value)] else []
  {
    var p2 := Switch("-k", t.noTlsValidation) + TextOpt("--proxy", t.proxy);
    var p3 := p2 + TextOpt("--timeout", t.timeout);
    var p4 := p3 + NumTruthy("-t", t.threads);
    var p5 := p4 + Switch("--retry", t.retry);
    ValuesOfNoPairAppend(p5, NumTruthy("--retry-attempts", t.retryAttempts), "-t");
    ValuesOfNoPairAppend(p4, Switch("--retry", t.retry), "-t");
    ValuesOfAppend(p3, NumTruthy("-t", t.threads), "-t");
    ValuesOfNoPair(p3, "-t");
  }

  /** The retry count is passed only when it is non-zero. */
  lemma RetryAttemptsTruthy(t: Transport)
    ensures ValuesOf(TransportSegments(t), "--retry-attempts") ==
      if NonZero(t.retryAttempts) then [IntToString(t.retryAttempts.value)] else []
  {
    var p5 := Switch("-k", t.noTlsValidation) + TextOpt("--proxy", t.proxy) + TextOpt("--timeout", t.timeout)
      + NumTruthy("-t", t.threads) + Switch("--retry", t.retry);
    ValuesOfAppend(p5, NumTruthy("--retry-attempts", t.retryAttempts), "--retry-attempts");
    ValuesOfNoPair(p5, "--retry-attempts");
  }

  // ---------------------------------------------------------------- dir

  datatype Dir = Dir(
    url: string,
    wordlist: string,
    extensions: Option<string>,
    extensionsFile: Option<string>,
    statusCodes: Option<string>,
    statusCodesBlacklist: Option<string>,
    request: Request,
    addSlash: Option<bool>,
    discoverBackup: Option<bool>,
    expanded: Option<bool>,
    noStatus: Option<bool>,
    hideLength: Option<bool>,
    excludeLength: Option<string>,
    transport: Transport,
    noCanonicalizeHeaders: Option<bool>)

  /** Which files and answers count: extensions, extension file, wanted and unwanted status codes. */
  function DirFilters(o: Dir): (r: seq<Arg>)
    ensures forall s :: s in r ==> s.Pair? && s.name in {"-x", "-X", "-s", "-b"}
  {
    TextOpt("-x", o.extensions) + TextOpt("-X", o.extensionsFile)
    + TextOpt("-s", o.statusCodes) + TextOpt("-b", o.statusCodesBlacklist)
  }

  /** How the search and its report look: slash, backups, full URLs, status, length. */
  function DirDisplay(o: Dir): (r: seq<Arg>)
    ensures forall s :: s in r ==> s.Flag? && s.name in {"-f", "-d", "-e", "-n", "--hide-length"}
  {
    Switch("-f", o.addSlash) + Switch("-d", o.discoverBackup) + Switch("-e", o.expanded)
    + Switch("-n", o.noStatus) + Switch("--hide-length", o.hideLength)
  }

  /** The dir mode's optional arguments, in the order the handler pushes them. */
  function DirOptions(o: Dir): seq<Arg>
  {
    DirFilters(o) + RequestSegments(o.request) + DirDisplay(o)
    + WebTail(o.excludeLength, o.transport, o.noCanonicalizeHeaders)
  }

  function DirSegments(o: Dir): seq<Arg>
  {
    Target("-u", o.url, o.wordlist) + DirOptions(o)
  }

  method PushDirFilters(a: seq<Arg>, o: Dir) returns (r: seq<Arg>)
    ensures r == a + DirFilters(o)
  {
    r := PushText(a, "-x", o.extensions);
    r := PushText(r, "-X", o.extensionsFile);
    assert r == a + (TextOpt("-x", o.extensions) + TextOpt("-X", o.extensionsFile));
    r := PushText(r, "-s", o.statusCodes);
    r := PushText(r, "-b", o.statusCodesBlacklist);
  }

  method PushDirDisplay(a: seq<Arg>, o: Dir) returns (r: seq<Arg>)
    ensures r == a + DirDisplay(o)
  {
    r := PushSwitch(a, "-f", o.addSlash);
    r := PushSwitch(r, "-d", o.discoverBackup);
    assert r == a + (Switch("-f", o.addSlash) + Switch("-d", o.discoverBackup));
    r := PushSwitch(r, "-e", o.expanded);
    r := PushSwitch(r, "-n", o.noStatus);
    assert r == a + (Switch("-f", o.addSlash) + Switch("-d", o.discoverBackup)
      + Switch("-e", o.expanded) + Switch("-n", o.noStatus));
    r := PushSwitch(r, "--hide-length", o.hideLength);
  }

  /** `do-gobuster-dir`. */
  method DirArgs(o: Dir) returns (args: seq<string>)
    ensures args == Spawned("dir", Render(DirSegments(o)))
  {
    var t := Target("-u", o.url, o.wordlist);
    ghost var g1, g2, g3 := DirFilters(o), RequestSegments(o.request), DirDisplay(o);
    ghost var g4 := WebTail(o.excludeLength, o.transport, o.noCanonicalizeHeaders);
    var segs := PushDirFilters(t, o);
    segs := PushRequest(segs, o.request);
    segs := PushDirDisplay(segs, o);
    segs := PushWebTail(segs, o.excludeLength, o.transport, o.noCanonicalizeHeaders);
    assert segs == t + g1 + g2 + g3 + g4;
    AppendAssoc4(t, g1, g2, g3, g4);
    args := ["dir"] + Render(segs) + Trailer;
  }

  /** Every mode's command line starts with the mode, its target pair and the wordlist pair. */
  lemma StartOf(mode: string, flag: string, target: string, wordlist: string, opts: seq<Arg>)
    ensures var r := Spawned(mode, Render(Target(flag, target, wordlist) + opts));
      |r| >= 5 && r[..5] == [mode, flag, target, "-w", wordlist]
  {
    var t := Target(flag, target, wordlist);
    RenderAppend(t, opts);
    assert Render(t) == [flag, target, "-w", wordlist];
    var m := Render(t + opts);
    assert m[..4] == [flag, target, "-w", wordlist];
    var r := Spawned(mode, m);
    assert r[1..5] == r[1..|r| - 3][..4];
  }

  /** The dir command line starts with the mode, the URL and the wordlist. */
  lemma DirStart(o: Dir)
    ensures var r := Spawned("dir", Render(DirSegments(o)));
      |r| >= 5 && r[..5] == ["dir", "-u", o.url, "-w", o.wordlist]
  {
    StartOf("dir", "-u", o.url, o.wordlist, DirOptions(o));
  }

  /** In dir mode every header is passed as its own "-H" pair, all of them and in list order. */
  lemma DirHeadersInOrder(o: Dir)
    ensures ValuesOf(DirSegments(o), "-H") == ListOrEmpty(o.request.headers)
  {
    var pre, post := DirSplit(o);
    HeadersBetween(pre, o.request, post);
  }

  /** The dir command line around its request options. */
  lemma DirSplit(o: Dir) returns (pre: seq<Arg>, post: seq<Arg>)
    ensures DirSegments(o) == pre + RequestSegments(o.request) + post
    ensures pre == Target("-u", o.url, o.wordlist) + DirFilters(o)
    ensures post == DirDisplay(o) + WebTail(o.excludeLength, o.transport, o.noCanonicalizeHeaders)
  {
    var t, f, q := Target("-u", o.url, o.wordlist), DirFilters(o), RequestSegments(o.request);
    var d, w := DirDisplay(o), WebTail(o.excludeLength, o.transport, o.noCanonicalizeHeaders);
    pre, post := t + f, d + w;
    AppendAssoc4(t, f, q, d, w);
    AppendAssoc(t + f + q, d, w);
  }

  /**
   * Every header is passed as its own "-H" pair, all of them and in list
   * order, whatever surrounds the request options as long as it holds no "-H" pair.
   */
  lemma HeadersBetween(pre: seq<Arg>, q: Request, post: seq<Arg>)
    requires forall s :: s in pre ==> !(s.Pair? && s.name == "-H")
    requires forall s :: s in post ==> !(s.Pair? && s.name == "-H")
    ensures ValuesOf(pre + RequestSegments(q) + post, "-H") == ListOrEmpty(q.headers)
  {
    ValuesOfNoPairAppend(pre + RequestSegments(q), post, "-H");
    ValuesOfAppend(pre, RequestSegments(q), "-H");
    ValuesOfNoPair(pre, "-H");
    RequestHeadersInOrder(q);
  }

  /** Among the request options, "-r" is the follow-redirects switch. */
  lemma RequestRedirectSwitch(q: Request)
    ensures Flag("-r") in RequestSegments(q) <==> IsTrue(q.followRedirect)
  {
    var p7 := TextOpt("-m", q.httpMethod) + EachPair("-H", ListOrEmpty(q.headers)) + TextOpt("-c", q.cookies)
      + TextOpt("-U", q.username) + TextOpt("-P", q.password) + TextOpt("-a", q.useragent)
      + Switch("--random-agent", q.randomAgent);
    assert RequestSegments(q) == p7 + Switch("-r", q.followRedirect);
    assert Flag("-r") !in p7;
  }

  /** Among the request options, "-c" carries the cookies. */
  lemma RequestCookiesPair(q: Request, v: string)
    ensures Pair("-c", v) in RequestSegments(q) <==> Truthy(q.cookies) && v == q.cookies.value
  {
    var p2 := TextOpt("-m", q.httpMethod) + EachPair("-H", ListOrEmpty(q.headers));
    var p3 := p2 + TextOpt("-c", q.cookies);
    var p8 := p3 + TextOpt("-U", q.username) + TextOpt("-P", q.password) + TextOpt("-a", q.useragent)
      + Switch("--random-agent", q.randomAgent) + Switch("-r", q.followRedirect);
    assert RequestSegments(q) == p8;
    assert Pair("-c", v) !in p2;
    assert Pair("-c", v) in p8 <==> Pair("-c", v) in p3;
  }

  /** In dir mode "-r" is the lone follow-redirects switch. */
  lemma DirRedirectSwitch(o: Dir)
    ensures Flag("-r") in DirSegments(o) <==> IsTrue(o.request.followRedirect)
  {
    RequestRedirectSwitch(o.request);
    var pre, post := DirSplit(o);
    assert Flag("-r") !in pre && Flag("-r") !in post;
  }

  /** In dir mode "-r" never carries a value. */
  lemma DirRedirectNoValue(o: Dir)
    ensures ValuesOf(DirSegments(o), "-r") == []
  {
    ValuesOfNoPair(DirSegments(o), "-r");
  }

  /** In dir mode "-c" carries the cookies. */
  lemma DirCookiesPair(o: Dir, v: string)
    ensures Pair("-c", v) in DirSegments(o) <==> Truthy(o.request.cookies) && v == o.request.cookies.value
  {
    RequestCookiesPair(o.request, v);
    var pre, post := DirSplit(o);
    assert Pair("-c", v) !in pre && Pair("-c", v) !in post;
  }

  /** In dir mode "-c" is never a lone switch. */
  lemma DirCookiesNotSwitch(o: Dir)
    ensures Flag("-c") !in DirSegments(o)
  {
  }

  // ---------------------------------------------------------------- vhost and fuzz

  datatype Vhost = Vhost(
    url: string,
    wordlist: string,
    domain: Option<string>,
    appendDomain: Option<bool>,
    request: Request,
    excludeLength: Option<string>,
    transport: Transport,
    noCanonicalizeHeaders: Option<bool>)

  /** The web modes' pieces after their request options. */
  function WebTail(excludeLength: Option<string>, t: Transport, noCanonicalizeHeaders: Option<bool>): (r: seq<Arg>)
    ensures forall s :: s in r ==> !s.Word? && s.name != "-H" && s.name != "-r" && s.name != "-c"
  {
    TextOpt("--exclude-length", excludeLength) + TransportSegments(t)
    + Switch("--no-canonicalize-headers", noCanonicalizeHeaders)
  }

  method PushWebTail(a: seq<Arg>, excludeLength: Option<string>, t: Transport, noCanonicalizeHeaders: Option<bool>)
    returns (r: seq<Arg>)
    ensures r == a + WebTail(excludeLength, t, noCanonicalizeHeaders)
  {
    r := PushText(a, "--exclude-length", excludeLength);
    r := PushTransport(r, t);
    AppendAssoc(a, TextOpt("--exclude-length", excludeLength), TransportSegments(t));
    r := PushSwitch(r, "--no-canonicalize-headers", noCanonicalizeHeaders);
    AppendAssoc(a, TextOpt("--exclude-length", excludeLength) + TransportSegments(t),
      Switch("--no-canonicalize-headers", noCanonicalizeHeaders));
  }

  /** The vhost mode's optional arguments. */
  function VhostOptions(o: Vhost): seq<Arg>
  {
    TextOpt("--domain", o.domain) + Switch("--append-domain", o.appendDomain)
    + RequestSegments(o.request) + WebTail(o.excludeLength, o.transport, o.noCanonicalizeHeaders)
  }

  function VhostSegments(o: Vhost): seq<Arg>
  {
    Target("-u", o.url, o.wordlist) + VhostOptions(o)
  }

  /** `do-gobuster-vhost`. */
  method VhostArgs(o: Vhost) returns (args: seq<string>)
    ensures args == Spawned("vhost", Render(VhostSegments(o)))
  {
    var t := Target("-u", o.url, o.wordlist);
    var g1, g2 := TextOpt("--domain", o.domain), Switch("--append-domain", o.appendDomain);
    var g3, g4 := RequestSegments(o.request), WebTail(o.excludeLength, o.transport, o.noCanonicalizeHeaders);
    var segs := PushText(t, "--domain", o.domain);
    segs := PushSwitch(segs, "--append-domain", o.appendDomain);
    AppendAssoc(t, g1, g2);
    segs := PushRequest(segs, o.request);
    AppendAssoc(t, g1 + g2, g3);
    segs := PushWebTail(segs, o.excludeLength, o.transport, o.noCanonicalizeHeaders);
    AppendAssoc(t, g1 + g2 + g3, g4);
    args := ["vhost"] + Render(segs) + Trailer;
  }

  /** The vhost command line starts with the mode, the URL and the wordlist. */
  lemma VhostStart(o: Vhost)
    ensures var r := Spawned("vhost", Render(VhostSegments(o)));
      |r| >= 5 && r[..5] == ["vhost", "-u", o.url, "-w", o.wordlist]
  {
    StartOf("vhost", "-u", o.url, o.wordlist, VhostOptions(o));
  }

  /** In vhost mode every header is passed as its own "-H" pair, all of them and in list order. */
  lemma VhostHeadersInOrder(o: Vhost)
    ensures ValuesOf(VhostSegments(o), "-H") == ListOrEmpty(o.request.headers)
  {
    var t := Target("-u", o.url, o.wordlist);
    var g1, g2 := TextOpt("--domain", o.domain), Switch("--append-domain", o.appendDomain);
    var g3, g4 := RequestSegments(o.request), WebTail(o.excludeLength, o.transport, o.noCanonicalizeHeaders);
    AppendAssoc4(t, g1, g2, g3, g4);
    AppendAssoc(t, g1, g2);
    HeadersBetween(t + (g1 + g2), o.request, g4);
  }

  datatype Fuzz = Fuzz(
    url: string,
    wordlist: string,
    body: Option<string>,
    excludeStatusCodes: Option<string>,
    request: Request,
    excludeLength: Option<string>,
    transport: Transport,
    noCanonicalizeHeaders: Option<bool>)

  /** The fuzz mode's optional arguments. */
  function FuzzOptions(o: Fuzz): seq<Arg>
  {
    TextOpt("-B", o.body) + TextOpt("-b", o.excludeStatusCodes)
    + RequestSegments(o.request) + WebTail(o.excludeLength, o.transport, o.noCanonicalizeHeaders)
  }

  function FuzzSegments(o: Fuzz): seq<Arg>
  {
    Target("-u", o.url, o.wordlist) + FuzzOptions(o)
  }

  /** `do-gobuster-fuzz`. */
  method FuzzArgs(o: Fuzz) returns (args: seq<string>)
    ensures args == Spawned("fuzz", Render(FuzzSegments(o)))
  {
    var t := Target("-u", o.url, o.wordlist);
    var g1, g2 := TextOpt("-B", o.body), TextOpt("-b", o.excludeStatusCodes);
    var g3, g4 := RequestSegments(o.request), WebTail(o.excludeLength, o.transport, o.noCanonicalizeHeaders);
    var segs := PushText(t, "-B", o.body);
    segs := PushText(segs, "-b", o.excludeStatusCodes);
    AppendAssoc(t, g1, g2);
    segs := PushRequest(segs, o.request);
    AppendAssoc(t, g1 + g2, g3);
    segs := PushWebTail(segs, o.excludeLength, o.transport, o.noCanonicalizeHeaders);
    AppendAssoc(t, g1 + g2 + g3, g4);
    args := ["fuzz"] + Render(segs) + Trailer;
  }

  /** The fuzz command line starts with the mode, the URL and the wordlist. */
  lemma FuzzStart(o: Fuzz)
    ensures var r := Spawned("fuzz", Render(FuzzSegments(o)));
      |r| >= 5 && r[..5] == ["fuzz", "-u", o.url, "-w", o.wordlist]
  {
    StartOf("fuzz", "-u", o.url, o.wordlist, FuzzOptions(o));
  }

  /** In fuzz mode every header is passed as its own "-H" pair, all of them and in list order. */
  lemma FuzzHeadersInOrder(o: Fuzz)
    ensures ValuesOf(FuzzSegments(o), "-H") == ListOrEmpty(o.request.headers)
  {
    var t := Target("-u", o.url, o.wordlist);
    var g1, g2 := TextOpt("-B", o.body), TextOpt("-b", o.excludeStatusCodes);
    var g3, g4 := RequestSegments(o.request), WebTail(o.excludeLength, o.transport, o.noCanonicalizeHeaders);
    AppendAssoc4(t, g1, g2, g3, g4);
    AppendAssoc(t, g1, g2);
    HeadersBetween(t + (g1 + g2), o.request, g4);
  }

  // ---------------------------------------------------------------- s3 and gcs

  /** The bucket modes' parameters, the same for s3 and gcs; numbers are whole. */
  datatype Buckets = Buckets(
    wordlist: string,
    maxfiles: Option<int>,
    useragent: Option<string>,
    randomAgent: Option<bool>,
    transport: Transport)

  /** What follows the file limit: the user agent options and the connection options. */
  function BucketTail(o: Buckets): (r: seq<Arg>)
    ensures forall s :: s in r ==> s.Word? == false && s.name != "-m"
  {
    TextOpt("-a", o.useragent) + Switch("--random-agent", o.randomAgent) + TransportSegments(o.transport)
  }

  function BucketOptions(o: Buckets): seq<Arg>
  {
    NumTruthy("-m", o.maxfiles) + BucketTail(o)
  }

  function BucketSegments(o: Buckets): seq<Arg>
  {
    [Pair("-w", o.wordlist)] + BucketOptions(o)
  }

  /** `do-gobuster-s3` (mode "s3") and `do-gobuster-gcs` (mode "gcs"). */
  method BucketArgs(mode: string, o: Buckets) returns (args: seq<string>)
    requires mode in {"s3", "gcs"}
    ensures args == Spawned(mode, Render(BucketSegments(o)))
  {
    var w := [Pair("-w", o.wordlist)];
    var segs := PushNumTruthy(w, "-m", o.maxfiles);
    segs := PushText(segs, "-a", o.useragent);
    segs := PushSwitch(segs, "--random-agent", o.randomAgent);
    segs := PushTransport(segs, o.transport);
    assert segs == w + NumTruthy("-m", o.maxfiles) + TextOpt("-a", o.useragent)
      + Switch("--random-agent", o.randomAgent) + TransportSegments(o.transport);
    AppendAssoc(w + NumTruthy("-m", o.maxfiles), TextOpt("-a", o.useragent) + Switch("--random-agent", o.randomAgent),
      TransportSegments(o.transport));
    AppendAssoc(w + NumTruthy("-m", o.maxfiles), TextOpt("-a", o.useragent), Switch("--random-agent", o.randomAgent));
    AppendAssoc(w, NumTruthy("-m", o.maxfiles), BucketTail(o));
    args := [mode] + Render(segs) + Trailer;
  }

  /** The bucket modes start with the wordlist. */
  lemma BucketStart(mode: string, o: Buckets)
    ensures var r := Spawned(mode, Render(BucketSegments(o)));
      |r| >= 3 && r[..3] == [mode, "-w", o.wordlist]
  {
    WordlistFirst(mode, o.wordlist, BucketOptions(o));
  }

  lemma WordlistFirst(mode: string, wordlist: string, rest: seq<Arg>)
    ensures var r := Spawned(mode, Render([Pair("-w", wordlist)] + rest));
      |r| >= 3 && r[..3] == [mode, "-w", wordlist]
  {
    var m := Render([Pair("-w", wordlist)] + rest);
    RenderAppend([Pair("-w", wordlist)], rest);
    assert Render([Pair("-w", wordlist)]) == ["-w", wordlist];
    var r := Spawned(mode, m);
    assert r[1..|r| - 3] == m;
    assert r[1] == m[0] && r[2] == m[1];
  }

  /** The file limit is passed only when non-zero, as "-m" and its value right after the wordlist. */
  lemma BucketFileLimit(mode: string, o: Buckets)
    ensures var r := Spawned(mode, Render(BucketSegments(o)));
      (NonZero(o.maxfiles) <==> |r| >= 5 && r[3] == "-m")
      && (NonZero(o.maxfiles) ==> r[4] == IntToString(o.maxfiles.value))
  {
    FileLimitAfterWordlist(mode, o.wordlist, o.maxfiles, BucketTail(o));
  }

  lemma FileLimitAfterWordlist(mode: string, wordlist: string, maxfiles: Option<int>, tail: seq<Arg>)
    requires forall s :: s in tail ==> s.Word? == false && s.name != "-m"
    ensures var r := Spawned(mode, Render([Pair("-w", wordlist)] + (NumTruthy("-m", maxfiles) + tail)));
      (NonZero(maxfiles) <==> |r| >= 5 && r[3] == "-m")
      && (NonZero(maxfiles) ==> r[4] == IntToString(maxfiles.value))
  {
    var w := [Pair("-w", wordlist)] + NumTruthy("-m", maxfiles);
    AppendAssoc([Pair("-w", wordlist)], NumTruthy("-m", maxfiles), tail);
    RenderAppend(w, tail);
    var m := Render(w + tail);
    var r := Spawned(mode, m);
    assert r[1..|r| - 3] == m;
    if !NonZero(maxfiles) {
      assert Render(w) == ["-w", wordlist];
      if |tail| > 0 {
        assert tail[0] in tail;
        assert Render(tail)[0] == tail[0].name;
        assert r[3] == m[2] == Render(tail)[0];
      }
    } else {
      assert Render(w) == ["-w", wordlist, "-m", IntToString(maxfiles.value)];
      assert r[3] == m[2] && r[4] == m[3];
    }
  }

  // ---------------------------------------------------------------- dns and tftp

  datatype Dns = Dns(
    domain: string,
    wordlist: string,
    resolver: Option<string>,
    showIps: Option<bool>,
    showCname: Option<bool>,
    noFqdn: Option<bool>,
    wildcard: Option<bool>,
    timeout: Option<string>,
    threads: Option<int>)

  /** What the dns mode reports: addresses, canonical names, qualified names, wildcards. */
  function DnsDisplay(o: Dns): (r: seq<Arg>)
    ensures forall s :: s in r ==> s.Flag? && s.name in {"-i", "-c", "--no-fqdn", "--wildcard"}
  {
    Switch("-i", o.showIps) + Switch("-c", o.showCname) + Switch("--no-fqdn", o.noFqdn) + Switch("--wildcard", o.wildcard)
  }

  /** The timeout and thread count closing the dns and tftp modes. */
  function Timing(timeout: Option<string>, threads: Option<int>): (r: seq<Arg>)
    ensures forall s :: s in r ==> s.Pair? && s.name in {"--timeout", "-t"}
  {
    TextOpt("--timeout", timeout) + NumTruthy("-t", threads)
  }

  function DnsOptions(o: Dns): seq<Arg>
  {
    TextOpt("-r", o.resolver) + DnsDisplay(o) + Timing(o.timeout, o.threads)
  }

  function DnsSegments(o: Dns): seq<Arg>
  {
    Target("-d", o.domain, o.wordlist) + DnsOptions(o)
  }

  /** `do-gobuster-dns`. */
  method DnsArgs(o: Dns) returns (args: seq<string>)
    ensures args == Spawned("dns", Render(DnsSegments(o)))
  {
    var t := Target("-d", o.domain, o.wordlist);
    var segs := PushText(t, "-r", o.resolver);
    segs := PushSwitch(segs, "-i", o.showIps);
    segs := PushSwitch(segs, "-c", o.showCname);
    assert segs == t + TextOpt("-r", o.resolver) + (Switch("-i", o.showIps) + Switch("-c", o.showCname));
    segs := PushSwitch(segs, "--no-fqdn", o.noFqdn);
    segs := PushSwitch(segs, "--wildcard", o.wildcard);
    assert segs == t + TextOpt("-r", o.resolver) + DnsDisplay(o);
    segs := PushText(segs, "--timeout", o.timeout);
    segs := PushNumTruthy(segs, "-t", o.threads);
    AppendAssoc(t + TextOpt("-r", o.resolver) + DnsDisplay(o), TextOpt("--timeout", o.timeout), NumTruthy("-t", o.threads));
    AppendAssoc(t + TextOpt("-r", o.resolver), DnsDisplay(o), Timing(o.timeout, o.threads));
    AppendAssoc(t, TextOpt("-r", o.resolver), DnsDisplay(o) + Timing(o.timeout, o.threads));
    AppendAssoc(TextOpt("-r", o.resolver), DnsDisplay(o), Timing(o.timeout, o.threads));
    args := ["dns"] + Render(segs) + Trailer;
  }

  /** The dns command line starts with the mode, the domain and the wordlist. */
  lemma DnsStart(o: Dns)
    ensures var r := Spawned("dns", Render(DnsSegments(o)));
      |r| >= 5 && r[..5] == ["dns", "-d", o.domain, "-w", o.wordlist]
  {
    StartOf("dns", "-d", o.domain, o.wordlist, DnsOptions(o));
  }

  /** In dns mode "-r" carries the resolver: never a lone switch, and paired exactly with a given resolver. */
  lemma DnsResolverPair(o: Dns)
    ensures Flag("-r") !in DnsSegments(o)
    ensures ValuesOf(DnsSegments(o), "-r") == if Truthy(o.resolver) then [o.resolver.value] else []
  {
    DnsNoLoneResolver(o);
    DnsResolverValues(o);
  }

  lemma DnsNoLoneResolver(o: Dns)
    ensures Flag("-r") !in DnsSegments(o)
  {
    var t, r, d, tm := Target("-d", o.domain, o.wordlist), TextOpt("-r", o.resolver), DnsDisplay(o), Timing(o.timeout, o.threads);
    assert DnsSegments(o) == t + (r + d + tm);
    assert Flag("-r") !in t && Flag("-r") !in r && Flag("-r") !in d && Flag("-r") !in tm;
  }

  lemma DnsResolverValues(o: Dns)
    ensures ValuesOf(DnsSegments(o), "-r") == if Truthy(o.resolver) then [o.resolver.value] else []
  {
    var t := Target("-d", o.domain, o.wordlist);
    ValuesOfAppend(t, DnsOptions(o), "-r");
    ValuesOfNoPair(t, "-r");
    ValuesOfAppend(TextOpt("-r", o.resolver) + DnsDisplay(o), Timing(o.timeout, o.threads), "-r");
    ValuesOfNoPair(Timing(o.timeout, o.threads), "-r");
    ValuesOfAppend(TextOpt("-r", o.resolver), DnsDisplay(o), "-r");
    ValuesOfNoPair(DnsDisplay(o), "-r");
  }

  /** In dns mode "-c" is the lone show-CNAME switch and never carries a value. */
  lemma DnsCnameSwitch(o: Dns)
    ensures Flag("-c") in DnsSegments(o) <==> IsTrue(o.showCname)
    ensures forall s :: s in DnsSegments(o) ==> !(s.Pair? && s.name == "-c")
  {
  }

  /** The thread count is passed only when it is non-zero, in the dns and tftp modes alike. */
  lemma TimingThreads(timeout: Option<string>, threads: Option<int>)
    ensures ValuesOf(Timing(timeout, threads), "-t") == if NonZero(threads) then [IntToString(threads.value)] else []
  {
    ValuesOfAppend(TextOpt("--timeout", timeout), NumTruthy("-t", threads), "-t");
  }

  datatype Tftp = Tftp(server: string, wordlist: string, timeout: Option<string>, threads: Option<int>)

  function TftpSegments(o: Tftp): seq<Arg>
  {
    Target("-s", o.server, o.wordlist) + Timing(o.timeout, o.threads)
  }

  /** `do-gobuster-tftp`. */
  method TftpArgs(o: Tftp) returns (args: seq<string>)
    ensures args == Spawned("tftp", Render(TftpSegments(o)))
  {
    var t := Target("-s", o.server, o.wordlist);
    var segs := PushText(t, "--timeout", o.timeout);
    segs := PushNumTruthy(segs, "-t", o.threads);
    AppendAssoc(t, TextOpt("--timeout", o.timeout), NumTruthy("-t", o.threads));
    args := ["tftp"] + Render(segs) + Trailer;
  }

  /** The tftp command line is the mode, the server and the wordlist, at most two timing pairs, then the trailer. */
  lemma TftpShape(o: Tftp)
    ensures var r := Spawned("tftp", Render(TftpSegments(o)));
      |r| >= 5 && r[..5] == ["tftp", "-s", o.server, "-w", o.wordlist] && |r| <= 12
  {
    RenderAppend(Target("-s", o.server, o.wordlist), Timing(o.timeout, o.threads));
    RenderAppend(TextOpt("--timeout", o.timeout), NumTruthy("-t", o.threads));
  }
}
