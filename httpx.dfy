/** servers/httpx-mcp/src/index.ts: the `do-httpx` probe command line. */
module Httpx {
  import opened Wrappers
  import opened Text
  import opened Js
  import opened Argv

  /** The tool parameters; ports are whole numbers, probes are probe names without the dash. */
  datatype Options = Options(
    target: seq<string>,
    ports: Option<seq<int>>,
    probes: Option<seq<string>>)

  /** `String(p)` for each port, as `join` writes numbers. */
  function PortStrings(ports: seq<int>): (r: seq<string>)
    ensures |r| == |ports| && forall i :: 0 <= i < |ports| ==> r[i] == IntToString(ports[i])
  {
    seq(|ports|, i requires 0 <= i < |ports| => IntToString(ports[i]))
  }

  /** The comma-joined ports, when there are any. */
  function PortsOpt(ports: Option<seq<int>>): Option<seq<string>>
  {
    if ports.Some? then Some(PortStrings(ports.value)) else None
  }

  function Segments(o: Options): seq<Arg>
  {
    [Pair("-u", Join(o.target, ",")), Flag("-silent")]
    + JoinedOpt("-p", PortsOpt(o.ports))
    + (if NonEmpty(o.probes) then Prefixed("-", o.probes.value) else [])
  }

  /** The `do-httpx` handler's argument array: the fixed head, the ports, then a loop over the probes. */
  method BuildArgs(o: Options) returns (args: seq<string>)
    ensures args == Render(Segments(o))
  {
    var segs := [Pair("-u", Join(o.target, ",")), Flag("-silent")];
    segs := PushJoined(segs, "-p", PortsOpt(o.ports));
    if NonEmpty(o.probes) {
      segs := PushPrefixed(segs, "-", o.probes.value);
    } else {
      assert segs + [] == segs;
    }
    args := Render(segs);
  }

  /**
   * The command line in full: the comma-joined targets and "-silent", the
   * comma-joined decimal ports when there are any, then exactly one
   * argument "-<probe>" per probe, in order.
   */
  lemma ArgsInFull(o: Options)
    ensures var args := Render(Segments(o));
      var head := ["-u", Join(o.target, ","), "-silent"]
        + (if NonEmpty(o.ports) then ["-p", Join(PortStrings(o.ports.value), ",")] else []);
      var probes := ListOrEmpty(o.probes);
      |args| == |head| + |probes|
      && args[..|head|] == head
      && forall i :: 0 <= i < |probes| ==> args[|head| + i] == "-" + probes[i]
  {
    var q := if NonEmpty(o.probes) then Prefixed("-", o.probes.value) else [];
    var head := ["-u", Join(o.target, ","), "-silent"]
      + (if NonEmpty(o.ports) then ["-p", Join(PortStrings(o.ports.value), ",")] else []);
    SegmentsRendered(o);
    RenderPrefixed("-", ListOrEmpty(o.probes));
    if !NonEmpty(o.probes) {
      assert Render(q) == [];
    }
    HeadThenPrefixed(head, Render(q), ListOrEmpty(o.probes));
  }

  /** The rendered array is the fixed head, the ports, then the rendered probes. */
  lemma SegmentsRendered(o: Options)
    ensures Render(Segments(o)) ==
      ["-u", Join(o.target, ","), "-silent"]
      + (if NonEmpty(o.ports) then ["-p", Join(PortStrings(o.ports.value), ",")] else [])
      + Render(if NonEmpty(o.probes) then Prefixed("-", o.probes.value) else [])
  {
    var a := [Pair("-u", Join(o.target, ",")), Flag("-silent")];
    var p := JoinedOpt("-p", PortsOpt(o.ports));
    var q := if NonEmpty(o.probes) then Prefixed("-", o.probes.value) else [];
    assert Segments(o) == a + p + q;
    RenderAppend(a, p);
    RenderAppend(a + p, q);
    assert a[1..] == [Flag("-silent")];
    assert Render(a) == ["-u", Join(o.target, ","), "-silent"];
    assert NonEmpty(PortsOpt(o.ports)) == NonEmpty(o.ports);
    if NonEmpty(o.ports) {
      assert Render(p) == ["-p", Join(PortStrings(o.ports.value), ",")];
    } else {
      assert p == [];
    }
  }

  lemma HeadThenPrefixed(head: seq<string>, rendered: seq<string>, probes: seq<string>)
    requires |rendered| == |probes| && forall i :: 0 <= i < |probes| ==> rendered[i] == "-" + probes[i]
    ensures var args := head + rendered;
      |args| == |head| + |probes|
      && args[..|head|] == head
      && forall i :: 0 <= i < |probes| ==> args[|head| + i] == "-" + probes[i]
  {
    var args := head + rendered;
    assert args[..|head|] == head;
    forall i | 0 <= i < |probes| ensures args[|head| + i] == "-" + probes[i] {
      assert args[|head| + i] == rendered[i];
    }
  }
}
