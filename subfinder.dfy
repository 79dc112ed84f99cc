/** servers/subfinder-mcp/src/index.ts: the `do-subfinder` subdomain-enumeration command line. */
module Subfinder {
  import opened Wrappers
  import opened Text
  import opened Js
  import opened Argv

  /** The tool parameters; numbers are whole numbers. */
  datatype Options = Options(
    domain: string,
    sources: Option<seq<string>>,
    excludeSources: Option<seq<string>>,
    all: Option<bool>,
    recursive: Option<bool>,
    json: Option<bool>,
    active: Option<bool>,
    collectSources: Option<bool>,
    ip: Option<bool>,
    timeout: Option<int>,
    rateLimit: Option<int>,
    resolvers: Option<seq<string>>,
    matchPatterns: Option<seq<string>>,
    filterPatterns: Option<seq<string>>,
    verbose: Option<bool>)

  /** The segments of the command line, in the order the handler pushes them. */
  function Segments(o: Options): seq<Arg>
  {
    [Pair("-d", o.domain), Flag("-silent")]
    + JoinedOpt("-s", o.sources)
    + JoinedOpt("-es", o.excludeSources)
    + Switch("-all", o.all)
    + Switch("-recursive", o.recursive)
    + Switch("-oJ", o.json)
    + Switch("-nW", o.active)
    + Switch("-cs", o.collectSources)
    + Switch("-oI", o.ip)
    + NumTruthy("-timeout", o.timeout)
    + NumTruthy("-rl", o.rateLimit)
    + JoinedOpt("-r", o.resolvers)
    + JoinedOpt("-m", o.matchPatterns)
    + JoinedOpt("-f", o.filterPatterns)
    + Switch("-v", o.verbose)
  }

  /** The `do-subfinder` handler's argument array, built push by push. */
  method BuildArgs(o: Options) returns (args: seq<string>)
    ensures args == Render(Segments(o))
  {
    var segs := [Pair("-d", o.domain), Flag("-silent")];
    segs := PushJoined(segs, "-s", o.sources);
    segs := PushJoined(segs, "-es", o.excludeSources);
    segs := PushSwitch(segs, "-all", o.all);
    segs := PushSwitch(segs, "-recursive", o.recursive);
    segs := PushSwitch(segs, "-oJ", o.json);
    segs := PushSwitch(segs, "-nW", o.active);
    segs := PushSwitch(segs, "-cs", o.collectSources);
    segs := PushSwitch(segs, "-oI", o.ip);
    segs := PushNumTruthy(segs, "-timeout", o.timeout);
    segs := PushNumTruthy(segs, "-rl", o.rateLimit);
    segs := PushJoined(segs, "-r", o.resolvers);
    segs := PushJoined(segs, "-m", o.matchPatterns);
    segs := PushJoined(segs, "-f", o.filterPatterns);
    segs := PushSwitch(segs, "-v", o.verbose);
    args := Render(segs);
  }

  /** The command line always opens with the domain and "-silent". */
  lemma ArgsStart(o: Options)
    ensures var args := Render(Segments(o));
      |args| >= 3 && args[..3] == ["-d", o.domain, "-silent"]
  {
    var head := [Pair("-d", o.domain), Flag("-silent")];
    var segs := Segments(o);
    assert segs == head + segs[2..];
    RenderAppend(head, segs[2..]);
  }

  /** Source lists are passed comma-joined when non-empty, and not at all otherwise. */
  lemma SourcesJoined(o: Options)
    ensures NonEmpty(o.sources) ==> Pair("-s", Join(o.sources.value, ",")) in Segments(o)
    ensures !NonEmpty(o.sources) ==> forall v :: Pair("-s", v) !in Segments(o)
  {
  }

  lemma ExcludedSourcesJoined(o: Options)
    ensures NonEmpty(o.excludeSources) ==> Pair("-es", Join(o.excludeSources.value, ",")) in Segments(o)
    ensures !NonEmpty(o.excludeSources) ==> forall v :: Pair("-es", v) !in Segments(o)
  {
  }

  lemma ResolversJoined(o: Options)
    ensures NonEmpty(o.resolvers) ==> Pair("-r", Join(o.resolvers.value, ",")) in Segments(o)
    ensures !NonEmpty(o.resolvers) ==> forall v :: Pair("-r", v) !in Segments(o)
  {
  }

  lemma MatchJoined(o: Options)
    ensures NonEmpty(o.matchPatterns) ==> Pair("-m", Join(o.matchPatterns.value, ",")) in Segments(o)
    ensures !NonEmpty(o.matchPatterns) ==> forall v :: Pair("-m", v) !in Segments(o)
  {
  }

  lemma FilterJoined(o: Options)
    ensures NonEmpty(o.filterPatterns) ==> Pair("-f", Join(o.filterPatterns.value, ",")) in Segments(o)
    ensures !NonEmpty(o.filterPatterns) ==> forall v :: Pair("-f", v) !in Segments(o)
  {
  }

  /** A timeout or rate limit of 0 is left out, like an absent one. */
  lemma TimeoutTruthy(o: Options)
    ensures NonZero(o.timeout) ==> Pair("-timeout", IntToString(o.timeout.value)) in Segments(o)
    ensures !NonZero(o.timeout) ==> forall v :: Pair("-timeout", v) !in Segments(o)
  {
  }

  lemma RateLimitTruthy(o: Options)
    ensures NonZero(o.rateLimit) ==> Pair("-rl", IntToString(o.rateLimit.value)) in Segments(o)
    ensures !NonZero(o.rateLimit) ==> forall v :: Pair("-rl", v) !in Segments(o)
  {
  }

  /** The output switches under their subfinder names: JSON lines, active only, sources, IPs. */
  lemma JsonSwitch(o: Options)
    ensures Flag("-oJ") in Segments(o) <==> IsTrue(o.json)
  {
  }

  lemma ActiveSwitch(o: Options)
    ensures Flag("-nW") in Segments(o) <==> IsTrue(o.active)
  {
  }

  lemma CollectSourcesSwitch(o: Options)
    ensures Flag("-cs") in Segments(o) <==> IsTrue(o.collectSources)
  {
  }

  lemma IpSwitch(o: Options)
    ensures Flag("-oI") in Segments(o) <==> IsTrue(o.ip)
  {
  }
}
