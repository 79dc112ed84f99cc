/** servers/urldedupe-mcp/src/index.ts: the `do-urldedupe` switches and the stdin text of URLs the handler hands to `buildSpawnOptions`. */
module Urldedupe {
  import opened Wrappers
  import opened Text
  import opened Js
  import opened Argv
  import opened ToolArgs

  datatype Options = Options(
    urls: seq<string>,
    regexParse: Option<bool>,
    similar: Option<bool>,
    queryStringsOnly: Option<bool>,
    noExtensions: Option<bool>)

  /** Every switch urldedupe can be given, in the order the handler considers them. */
  const AllSwitches: seq<string> := ["-r", "-s", "-qs", "-ne"]

  function Segments(o: Options): seq<Arg>
  {
    Switch("-r", o.regexParse) + Switch("-s", o.similar) + Switch("-qs", o.queryStringsOnly) + Switch("-ne", o.noExtensions)
  }

  /** The `do-urldedupe` handler: four conditional pushes, and the stdin text it hands to `buildSpawnOptions` (which, as written, drops it). */
  method BuildInvocation(o: Options) returns (args: seq<string>, stdin: string)
    ensures args == Render(Segments(o))
    ensures stdin == UrlLines(o.urls)
  {
    var segs: seq<Arg> := [];
    segs := PushSwitch(segs, "-r", o.regexParse);
    assert segs == Switch("-r", o.regexParse);
    segs := PushSwitch(segs, "-s", o.similar);
    segs := PushSwitch(segs, "-qs", o.queryStringsOnly);
    segs := PushSwitch(segs, "-ne", o.noExtensions);
    args := Render(segs);
    stdin := Join(o.urls, "\n") + "\n";
  }

  /** The command line is exactly the switches whose options are set, in the fixed order. */
  lemma ArgsAreChosenSwitches(o: Options)
    ensures Render(Segments(o)) == Chosen([IsTrue(o.regexParse), IsTrue(o.similar), IsTrue(o.queryStringsOnly), IsTrue(o.noExtensions)], AllSwitches)
    ensures IsSubsequence(Render(Segments(o)), AllSwitches)
  {
    var a := Switch("-r", o.regexParse);
    var b := Switch("-s", o.similar);
    var c := Switch("-qs", o.queryStringsOnly);
    var d := Switch("-ne", o.noExtensions);
    RenderAppend(a, b);
    RenderAppend(a + b, c);
    RenderAppend(a + b + c, d);
    SwitchChosen("-r", o.regexParse);
    SwitchChosen("-s", o.similar);
    SwitchChosen("-qs", o.queryStringsOnly);
    SwitchChosen("-ne", o.noExtensions);
    var on1, on2, on3, on4 := [IsTrue(o.regexParse)], [IsTrue(o.similar)], [IsTrue(o.queryStringsOnly)], [IsTrue(o.noExtensions)];
    ChosenAppend(on1, ["-r"], on2, ["-s"]);
    ChosenAppend(on1 + on2, ["-r"] + ["-s"], on3, ["-qs"]);
    ChosenAppend(on1 + on2 + on3, ["-r"] + ["-s"] + ["-qs"], on4, ["-ne"]);
    assert on1 + on2 + on3 + on4 == [IsTrue(o.regexParse), IsTrue(o.similar), IsTrue(o.queryStringsOnly), IsTrue(o.noExtensions)];
    assert ["-r"] + ["-s"] + ["-qs"] + ["-ne"] == AllSwitches;
    ChosenIsSubsequence(on1 + on2 + on3 + on4, AllSwitches);
  }

  /** With no switch set the command line is empty; the URLs are handed over only as stdin text. */
  lemma NoOptionsNoArgs(o: Options)
    requires !IsTrue(o.regexParse) && !IsTrue(o.similar) && !IsTrue(o.queryStringsOnly) && !IsTrue(o.noExtensions)
    ensures Render(Segments(o)) == []
  {
    assert Segments(o) == [];
  }

  /** The command line does not depend on the URLs. */
  lemma UrlsNotInArgs(o: Options, urls: seq<string>)
    ensures Segments(o.(urls := urls)) == Segments(o)
  {
  }
}
