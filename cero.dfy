/** servers/cero-mcp/src/index.ts: the `do-cero` certificate-scan command line. */
module Cero {
  import opened Wrappers
  import opened Text
  import opened Js
  import opened Argv

  /** The tool parameters; numbers are whole numbers. */
  datatype Options = Options(
    target: string,
    concurrency: Option<int>,
    ports: Option<seq<string>>,
    timeOut: Option<int>)

  function Segments(o: Options): seq<Arg>
  {
    [Word(o.target)]
    + NumTruthy("-c", o.concurrency)
    + JoinedOpt("-p", o.ports)
    + NumTruthy("-t", o.timeOut)
  }

  /** The `do-cero` handler's argument array, built push by push. */
  method BuildArgs(o: Options) returns (args: seq<string>)
    ensures args == Render(Segments(o))
  {
    var segs := [Word(o.target)];
    segs := PushNumTruthy(segs, "-c", o.concurrency);
    segs := PushJoined(segs, "-p", o.ports);
    segs := PushNumTruthy(segs, "-t", o.timeOut);
    args := Render(segs);
  }

  /**
   * The command line in full: the target first, then -c, -p and -t, each
   * left out when its value is 0, absent or an empty list.
   */
  lemma ArgsInFull(o: Options)
    ensures Render(Segments(o)) ==
      [o.target]
      + (if NonZero(o.concurrency) then ["-c", IntToString(o.concurrency.value)] else [])
      + (if NonEmpty(o.ports) then ["-p", Join(o.ports.value, ",")] else [])
      + (if NonZero(o.timeOut) then ["-t", IntToString(o.timeOut.value)] else [])
  {
    var a := [Word(o.target)];
    var c := NumTruthy("-c", o.concurrency);
    var p := JoinedOpt("-p", o.ports);
    var t := NumTruthy("-t", o.timeOut);
    RenderAppend(a, c);
    RenderAppend(a + c, p);
    RenderAppend(a + c + p, t);
  }
}
