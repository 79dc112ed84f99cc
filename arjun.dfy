/** servers/arjun-mcp/src/index.ts: the `do-arjun` input guard and hidden-parameter scan command line. */
module Arjun {
  import opened Wrappers
  import opened Js
  import opened Argv

  /** The tool parameters; numbers are whole numbers. */
  datatype Options = Options(
    url: string,
    textFile: Option<string>,
    wordlist: Option<string>,
    httpMethod: Option<string>,
    rateLimit: Option<int>,
    chunkSize: Option<int>)

  /** The schema: `url` is a URL (so never empty) and the method one of the four arjun knows. */
  predicate Valid(o: Options)
  {
    o.url != ""
    && (o.httpMethod.None? || o.httpMethod.value in {"GET", "POST", "JSON", "HEADERS"})
  }

  const NoInputMessage := "url or textFile parameter required"

  function Segments(o: Options): seq<Arg>
  {
    TextOpt("-u", Some(o.url))
    + TextOpt("-f", o.textFile)
    + TextOpt("-w", o.wordlist)
    + TextOpt("-m", o.httpMethod)
    + NumTruthy("--rate-limit", o.rateLimit)
    + NumTruthy("--chunk-size", o.chunkSize)
  }

  /**
   * The `do-arjun` handler: the guard, then the argument array built push by
   * push. The guard is stated as the handler writes it; the schema already
   * rules it out (see `ValidAlwaysBuilds`).
   */
  method BuildArgs(o: Options) returns (r: Result<seq<string>>)
    ensures r == if o.url == "" && !Truthy(o.textFile) then Err(NoInputMessage) else Ok(Render(Segments(o)))
  {
    if o.url == "" && !Truthy(o.textFile) {
      return Err(NoInputMessage);
    }
    var segs: seq<Arg> := [];
    segs := PushText(segs, "-u", Some(o.url));
    assert segs == TextOpt("-u", Some(o.url));
    segs := PushText(segs, "-f", o.textFile);
    segs := PushText(segs, "-w", o.wordlist);
    segs := PushText(segs, "-m", o.httpMethod);
    segs := PushNumTruthy(segs, "--rate-limit", o.rateLimit);
    segs := PushNumTruthy(segs, "--chunk-size", o.chunkSize);
    return Ok(Render(segs));
  }

  /** Arguments valid for the schema always pass the guard, and the URL comes first. */
  lemma ValidAlwaysBuilds(o: Options)
    requires Valid(o)
    ensures !(o.url == "" && !Truthy(o.textFile))
    ensures var args := Render(Segments(o));
      |args| >= 2 && args[..2] == ["-u", o.url]
  {
    var head := TextOpt("-u", Some(o.url));
    assert head == [Pair("-u", o.url)];
    var segs := Segments(o);
    assert segs == head + segs[1..];
    RenderAppend(head, segs[1..]);
  }

  /** The chunk size goes under "--chunk-size" and the rate limit under "--rate-limit", each left out when 0. */
  lemma ChunkSizeFlag(o: Options)
    ensures NonZero(o.chunkSize) ==> Pair("--chunk-size", IntToString(o.chunkSize.value)) in Segments(o)
    ensures !NonZero(o.chunkSize) ==> forall v :: Pair("--chunk-size", v) !in Segments(o)
  {
  }

  lemma RateLimitFlag(o: Options)
    ensures NonZero(o.rateLimit) ==> Pair("--rate-limit", IntToString(o.rateLimit.value)) in Segments(o)
    ensures !NonZero(o.rateLimit) ==> forall v :: Pair("--rate-limit", v) !in Segments(o)
  {
  }

  /** The rate limit and the chunk size never share a flag: the chunk size is not passed as a rate limit. */
  lemma ChunkSizeNotRateLimit(o: Options)
    requires NonZero(o.chunkSize) && !NonZero(o.rateLimit)
    ensures ValuesOf(Segments(o), "--rate-limit") == []
    ensures ValuesOf(Segments(o), "--chunk-size") == [IntToString(o.chunkSize.value)]
  {
    var front := TextOpt("-u", Some(o.url)) + TextOpt("-f", o.textFile) + TextOpt("-w", o.wordlist) + TextOpt("-m", o.httpMethod);
    var rate := NumTruthy("--rate-limit", o.rateLimit);
    var chunk := NumTruthy("--chunk-size", o.chunkSize);
    assert Segments(o) == front + rate + chunk;
    assert rate == [];
    ValuesOfAppend(front, chunk, "--rate-limit");
    ValuesOfAppend(front, chunk, "--chunk-size");
    ValuesOfNoPair(front, "--rate-limit");
    ValuesOfNoPair(front, "--chunk-size");
    assert front + rate == front;
  }
}
