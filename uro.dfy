/** servers/uro-mcp/src/index.ts: the `do-uro` extension lists, filters and the stdin text of URLs the handler hands to `buildSpawnOptions`. */
module Uro {
  import opened Wrappers
  import opened Text
  import opened Js
  import opened Argv

  datatype Options = Options(
    urls: seq<string>,
    whitelist: Option<seq<string>>,
    blacklist: Option<seq<string>>,
    filters: Option<seq<string>>)

  /** "-w" and every kept extension, "-b" and every ignored one, then "-f" with the filters comma-joined. */
  function Segments(o: Options): seq<Arg>
  {
    FlagThenWords("-w", o.whitelist) + FlagThenWords("-b", o.blacklist) + JoinedOpt("-f", o.filters)
  }

  /** The `do-uro` handler: three spread pushes, and the stdin text it hands to `buildSpawnOptions` (which, as written, drops it). */
  method BuildInvocation(o: Options) returns (args: seq<string>, stdin: string)
    ensures args == Render(Segments(o))
    ensures stdin == UrlLines(o.urls)
  {
    var segs: seq<Arg> := [];
    segs := PushFlagThenAll(segs, "-w", o.whitelist);
    assert segs == FlagThenWords("-w", o.whitelist);
    segs := PushFlagThenAll(segs, "-b", o.blacklist);
    segs := PushJoined(segs, "-f", o.filters);
    args := Render(segs);
    stdin := Join(o.urls, "\n") + "\n";
  }

  /** A list option as it appears on the command line. */
  function ListArgs(flag: string, xs: Option<seq<string>>): seq<string>
  {
    if NonEmpty(xs) then [flag] + xs.value else []
  }

  lemma RenderFlagThenWords(name: string, xs: Option<seq<string>>)
    ensures Render(FlagThenWords(name, xs)) == ListArgs(name, xs)
  {
    if NonEmpty(xs) {
      RenderAppend([Flag(name)], Words(xs.value));
      RenderWords(xs.value);
    }
  }

  /**
   * The command line in full: each extension of a list is its own argument
   * after the list's flag, the filters are one comma-joined argument, the
   * order is -w, -b, -f, and an empty or absent list adds nothing.
   */
  lemma ArgsInFull(o: Options)
    ensures Render(Segments(o)) ==
      ListArgs("-w", o.whitelist) + ListArgs("-b", o.blacklist)
      + (if NonEmpty(o.filters) then ["-f", Join(o.filters.value, ",")] else [])
  {
    var w := FlagThenWords("-w", o.whitelist);
    var b := FlagThenWords("-b", o.blacklist);
    RenderAppend(w, b);
    RenderAppend(w + b, JoinedOpt("-f", o.filters));
    RenderFlagThenWords("-w", o.whitelist);
    RenderFlagThenWords("-b", o.blacklist);
  }

  /** The command line does not depend on the URLs. */
  lemma UrlsNotInArgs(o: Options, urls: seq<string>)
    ensures Segments(o.(urls := urls)) == Segments(o)
  {
  }
}
