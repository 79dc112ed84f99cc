/** servers/gau-mcp/src/index.ts: the `do-gau` command line (known URLs of the target domains). */
module Gau {
  import opened Wrappers
  import opened Text
  import opened Js
  import opened Argv

  /** The tool parameters; numbers are whole numbers. */
  datatype Options = Options(
    targets: seq<string>,
    providers: Option<seq<string>>,
    blacklist: Option<seq<string>>,
    includeSubs: Option<bool>,
    json: Option<bool>,
    matchStatusCodes: Option<string>,
    filterStatusCodes: Option<string>,
    matchMimeTypes: Option<string>,
    filterMimeTypes: Option<string>,
    from: Option<string>,
    to: Option<string>,
    removeDuplicates: Option<bool>,
    threads: Option<int>,
    proxy: Option<string>,
    retries: Option<int>,
    requestTimeout: Option<int>,
    verbose: Option<bool>)

  /** The option flags, in the order the handler pushes them. */
  function Flags(o: Options): (r: seq<Arg>)
    ensures forall s :: s in r ==> !s.Word?
  {
    JoinedOpt("--providers", o.providers)
    + JoinedOpt("--blacklist", o.blacklist)
    + Switch("--subs", o.includeSubs)
    + Switch("--json", o.json)
    + TextOpt("--mc", o.matchStatusCodes)
    + TextOpt("--fc", o.filterStatusCodes)
    + TextOpt("--mt", o.matchMimeTypes)
    + TextOpt("--ft", o.filterMimeTypes)
    + TextOpt("--from", o.from)
    + TextOpt("--to", o.to)
    + Switch("--fp", o.removeDuplicates)
    + NumOpt("--threads", o.threads)
    + TextOpt("--proxy", o.proxy)
    + NumOpt("--retries", o.retries)
    + NumOpt("--timeout", o.requestTimeout)
    + Switch("--verbose", o.verbose)
  }

  /** The whole command line: the flags, then the targets as positional arguments. */
  function Segments(o: Options): seq<Arg>
  {
    Flags(o) + Words(o.targets)
  }

  /** The `do-gau` handler's argument array, built push by push. */
  method BuildArgs(o: Options) returns (args: seq<string>)
    ensures args == Render(Segments(o))
  {
    var segs: seq<Arg> := [];
    segs := PushJoined(segs, "--providers", o.providers);
    assert segs == JoinedOpt("--providers", o.providers);
    segs := PushJoined(segs, "--blacklist", o.blacklist);
    segs := PushSwitch(segs, "--subs", o.includeSubs);
    segs := PushSwitch(segs, "--json", o.json);
    segs := PushText(segs, "--mc", o.matchStatusCodes);
    segs := PushText(segs, "--fc", o.filterStatusCodes);
    segs := PushText(segs, "--mt", o.matchMimeTypes);
    segs := PushText(segs, "--ft", o.filterMimeTypes);
    segs := PushText(segs, "--from", o.from);
    segs := PushText(segs, "--to", o.to);
    segs := PushSwitch(segs, "--fp", o.removeDuplicates);
    segs := PushNum(segs, "--threads", o.threads);
    segs := PushText(segs, "--proxy", o.proxy);
    segs := PushNum(segs, "--retries", o.retries);
    segs := PushNum(segs, "--timeout", o.requestTimeout);
    segs := PushSwitch(segs, "--verbose", o.verbose);
    segs := PushWords(segs, o.targets);
    args := Render(segs);
  }

  /** No option given. */
  predicate NoOptions(o: Options)
  {
    o.providers.None? && o.blacklist.None? && o.includeSubs.None? && o.json.None?
    && o.matchStatusCodes.None? && o.filterStatusCodes.None? && o.matchMimeTypes.None?
    && o.filterMimeTypes.None? && o.from.None? && o.to.None? && o.removeDuplicates.None?
    && o.threads.None? && o.proxy.None? && o.retries.None? && o.requestTimeout.None?
    && o.verbose.None?
  }

  /** The targets close the command line, in the order given; the flags before them are no positional words. */
  lemma TargetsLast(o: Options)
    ensures var args := Render(Segments(o));
      |args| >= |o.targets| && args[|args| - |o.targets|..] == o.targets
    ensures forall s :: s in Flags(o) && s.Word? ==> false
  {
    RenderAppend(Flags(o), Words(o.targets));
    RenderWords(o.targets);
  }

  /** With no options the command line is exactly the target list. */
  lemma NoOptionsTargetsOnly(o: Options)
    requires NoOptions(o)
    ensures Render(Segments(o)) == o.targets
  {
    assert Flags(o) == [];
    assert Segments(o) == Words(o.targets);
    RenderWords(o.targets);
  }

  /** Provider and blacklist lists are passed comma-joined when non-empty, and not at all otherwise. */
  lemma ProvidersJoined(o: Options)
    ensures NonEmpty(o.providers) ==> Pair("--providers", Join(o.providers.value, ",")) in Segments(o)
    ensures !NonEmpty(o.providers) ==> forall v :: Pair("--providers", v) !in Segments(o)
  {
  }

  lemma BlacklistJoined(o: Options)
    ensures NonEmpty(o.blacklist) ==> Pair("--blacklist", Join(o.blacklist.value, ",")) in Segments(o)
    ensures !NonEmpty(o.blacklist) ==> forall v :: Pair("--blacklist", v) !in Segments(o)
  {
  }

  /** Thread, retry and request-timeout numbers are passed whenever given, 0 included; the request timeout as "--timeout". */
  lemma NumbersAlwaysPassed(o: Options)
    ensures o.threads.Some? ==> Pair("--threads", IntToString(o.threads.value)) in Segments(o)
    ensures o.retries.Some? ==> Pair("--retries", IntToString(o.retries.value)) in Segments(o)
    ensures o.requestTimeout.Some? ==> Pair("--timeout", IntToString(o.requestTimeout.value)) in Segments(o)
  {
  }
}
