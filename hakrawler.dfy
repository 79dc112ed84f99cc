/** servers/hakrawler-mcp/src/index.ts: the `do-hakrawler` crawl command line and the stdin text of URLs the handler hands to `buildSpawnOptions`. */
module Hakrawler {
  import opened Wrappers
  import opened Text
  import opened Js
  import opened Argv

  /** The tool parameters; numbers are whole numbers. */
  datatype Options = Options(
    urls: seq<string>,
    depth: Option<int>,
    disableRedirects: Option<bool>,
    headers: Option<string>,
    insidePath: Option<bool>,
    insecure: Option<bool>,
    json: Option<bool>,
    proxy: Option<string>,
    showSource: Option<bool>,
    pageSizeLimit: Option<int>,
    includeSubs: Option<bool>,
    threads: Option<int>,
    urlTimeout: Option<int>,
    unique: Option<bool>,
    showWhere: Option<bool>)

  /** The segments of the command line, in the order the handler pushes them. */
  function Segments(o: Options): seq<Arg>
  {
    NumOpt("-d", o.depth)
    + Switch("-dr", o.disableRedirects)
    + TextOpt("-h", o.headers)
    + Switch("-i", o.insidePath)
    + Switch("-insecure", o.insecure)
    + Switch("-json", o.json)
    + TextOpt("-proxy", o.proxy)
    + Switch("-s", o.showSource)
    + NumOpt("-size", o.pageSizeLimit)
    + Switch("-subs", o.includeSubs)
    + NumOpt("-t", o.threads)
    + NumOpt("-timeout", o.urlTimeout)
    + Switch("-u", o.unique)
    + Switch("-w", o.showWhere)
  }

  /** The `do-hakrawler` handler: the argument array, built push by push, and the stdin text it hands to `buildSpawnOptions` (which, as written, drops it). */
  method BuildInvocation(o: Options) returns (args: seq<string>, stdin: string)
    ensures args == Render(Segments(o))
    ensures stdin == UrlLines(o.urls)
  {
    var segs: seq<Arg> := [];
    segs := PushNum(segs, "-d", o.depth);
    assert segs == NumOpt("-d", o.depth);
    segs := PushSwitch(segs, "-dr", o.disableRedirects);
    segs := PushText(segs, "-h", o.headers);
    segs := PushSwitch(segs, "-i", o.insidePath);
    segs := PushSwitch(segs, "-insecure", o.insecure);
    segs := PushSwitch(segs, "-json", o.json);
    segs := PushText(segs, "-proxy", o.proxy);
    segs := PushSwitch(segs, "-s", o.showSource);
    segs := PushNum(segs, "-size", o.pageSizeLimit);
    segs := PushSwitch(segs, "-subs", o.includeSubs);
    segs := PushNum(segs, "-t", o.threads);
    segs := PushNum(segs, "-timeout", o.urlTimeout);
    segs := PushSwitch(segs, "-u", o.unique);
    segs := PushSwitch(segs, "-w", o.showWhere);
    args := Render(segs);
    stdin := Join(o.urls, "\n") + "\n";
  }

  /** No option given. */
  predicate NoOptions(o: Options)
  {
    o.depth.None? && o.disableRedirects.None? && o.headers.None? && o.insidePath.None?
    && o.insecure.None? && o.json.None? && o.proxy.None? && o.showSource.None?
    && o.pageSizeLimit.None? && o.includeSubs.None? && o.threads.None? && o.urlTimeout.None?
    && o.unique.None? && o.showWhere.None?
  }

  /** With no options the command line is empty: the URLs are handed over only as stdin text. */
  lemma NoOptionsNoArgs(o: Options)
    requires NoOptions(o)
    ensures Render(Segments(o)) == []
  {
    assert Segments(o) == [];
  }

  /** The command line does not depend on the URLs. */
  lemma UrlsNotInArgs(o: Options, urls: seq<string>)
    ensures Segments(o.(urls := urls)) == Segments(o)
  {
  }

  /** Depth, page size, threads and per-URL timeout are passed whenever given, 0 included. */
  lemma NumbersAlwaysPassed(o: Options)
    ensures o.depth.Some? ==> Pair("-d", IntToString(o.depth.value)) in Segments(o)
    ensures o.pageSizeLimit.Some? ==> Pair("-size", IntToString(o.pageSizeLimit.value)) in Segments(o)
  {
  }

  lemma TimingsAlwaysPassed(o: Options)
    ensures o.threads.Some? ==> Pair("-t", IntToString(o.threads.value)) in Segments(o)
    ensures o.urlTimeout.Some? ==> Pair("-timeout", IntToString(o.urlTimeout.value)) in Segments(o)
  {
  }
}
