/** servers/naabu-mcp/src/index.ts: the `do-naabu` port-scan command line. */
module Naabu {
  import opened Wrappers
  import opened Js
  import opened Argv

  /** The tool parameters; numbers are whole numbers. */
  datatype Options = Options(
    host: string,
    ports: Option<string>,
    topPorts: Option<int>,
    excludePorts: Option<string>,
    scanType: Option<string>,
    rate: Option<int>,
    retries: Option<int>,
    probeTimeout: Option<int>,
    warmUpTime: Option<int>,
    json: Option<bool>,
    silent: Option<bool>,
    interfaceName: Option<string>,
    sourceIp: Option<string>,
    excludeCdn: Option<bool>,
    displayCdn: Option<bool>,
    serviceDiscovery: Option<bool>,
    serviceVersion: Option<bool>,
    ping: Option<bool>)

  /** The schema: `scan_type` is "s" or "c". */
  predicate Valid(o: Options)
  {
    o.scanType.None? || o.scanType.value == "s" || o.scanType.value == "c"
  }

  /** The segments of the command line, in the order the handler pushes them. */
  function Segments(o: Options): seq<Arg>
  {
    [Pair("-host", o.host), Flag("-no-stdin")]
    + TextOpt("-p", o.ports)
    + NumOpt("-top-ports", o.topPorts)
    + TextOpt("-exclude-ports", o.excludePorts)
    + TextOpt("-s", o.scanType)
    + NumOpt("-rate", o.rate)
    + NumOpt("-retries", o.retries)
    + NumOpt("-timeout", o.probeTimeout)
    + NumOpt("-warm-up-time", o.warmUpTime)
    + Switch("-json", o.json)
    + Switch("-silent", o.silent)
    + TextOpt("-interface", o.interfaceName)
    + TextOpt("-source-ip", o.sourceIp)
    + Switch("-exclude-cdn", o.excludeCdn)
    + Switch("-display-cdn", o.displayCdn)
    + Switch("-sD", o.serviceDiscovery)
    + Switch("-sV", o.serviceVersion)
    + Switch("-ping", o.ping)
  }

  /** The `do-naabu` handler's argument array, built push by push. */
  method BuildArgs(o: Options) returns (args: seq<string>)
    requires Valid(o)
    ensures args == Render(Segments(o))
  {
    var segs := [Pair("-host", o.host), Flag("-no-stdin")];
    segs := PushText(segs, "-p", o.ports);
    segs := PushNum(segs, "-top-ports", o.topPorts);
    segs := PushText(segs, "-exclude-ports", o.excludePorts);
    segs := PushText(segs, "-s", o.scanType);
    segs := PushNum(segs, "-rate", o.rate);
    segs := PushNum(segs, "-retries", o.retries);
    segs := PushNum(segs, "-timeout", o.probeTimeout);
    segs := PushNum(segs, "-warm-up-time", o.warmUpTime);
    segs := PushSwitch(segs, "-json", o.json);
    segs := PushSwitch(segs, "-silent", o.silent);
    segs := PushText(segs, "-interface", o.interfaceName);
    segs := PushText(segs, "-source-ip", o.sourceIp);
    segs := PushSwitch(segs, "-exclude-cdn", o.excludeCdn);
    segs := PushSwitch(segs, "-display-cdn", o.displayCdn);
    segs := PushSwitch(segs, "-sD", o.serviceDiscovery);
    segs := PushSwitch(segs, "-sV", o.serviceVersion);
    segs := PushSwitch(segs, "-ping", o.ping);
    args := Render(segs);
  }

  /** The command line always opens with the host and "-no-stdin". */
  lemma ArgsStart(o: Options)
    ensures var args := Render(Segments(o));
      |args| >= 3 && args[..3] == ["-host", o.host, "-no-stdin"]
  {
    var head := [Pair("-host", o.host), Flag("-no-stdin")];
    var segs := Segments(o);
    assert segs == head + segs[2..];
    RenderAppend(head, segs[2..]);
    assert Render(head) == ["-host", o.host, "-no-stdin"];
  }

  /** Numeric options appear whenever given, 0 included; "-timeout" carries the probe timeout. */
  lemma NumbersAlwaysPassed(o: Options)
    ensures o.topPorts.Some? ==> Pair("-top-ports", IntToString(o.topPorts.value)) in Segments(o)
    ensures o.rate.Some? ==> Pair("-rate", IntToString(o.rate.value)) in Segments(o)
    ensures o.retries.Some? ==> Pair("-retries", IntToString(o.retries.value)) in Segments(o)
  {
  }

  lemma TimingsAlwaysPassed(o: Options)
    ensures o.probeTimeout.Some? ==> Pair("-timeout", IntToString(o.probeTimeout.value)) in Segments(o)
    ensures o.warmUpTime.Some? ==> Pair("-warm-up-time", IntToString(o.warmUpTime.value)) in Segments(o)
  {
  }

  /** An empty string option is left out. */
  lemma EmptyStringsOmitted(o: Options)
    ensures o.ports == Some("") ==> forall v :: Pair("-p", v) !in Segments(o)
    ensures o.excludePorts == Some("") ==> forall v :: Pair("-exclude-ports", v) !in Segments(o)
    ensures o.scanType == Some("") ==> forall v :: Pair("-s", v) !in Segments(o)
    ensures o.interfaceName == Some("") ==> forall v :: Pair("-interface", v) !in Segments(o)
    ensures o.sourceIp == Some("") ==> forall v :: Pair("-source-ip", v) !in Segments(o)
  {
    EmptyPortsOmitted(o);
    EmptyExcludeOmitted(o);
    EmptyScanOmitted(o);
    EmptyInterfaceOmitted(o);
    EmptySourceIpOmitted(o);
  }

  lemma EmptyPortsOmitted(o: Options)
    ensures o.ports == Some("") ==> forall v :: Pair("-p", v) !in Segments(o)
  {
  }

  lemma EmptyExcludeOmitted(o: Options)
    ensures o.excludePorts == Some("") ==> forall v :: Pair("-exclude-ports", v) !in Segments(o)
  {
  }

  lemma EmptyScanOmitted(o: Options)
    ensures o.scanType == Some("") ==> forall v :: Pair("-s", v) !in Segments(o)
  {
  }

  lemma EmptyInterfaceOmitted(o: Options)
    ensures o.interfaceName == Some("") ==> forall v :: Pair("-interface", v) !in Segments(o)
  {
  }

  lemma EmptySourceIpOmitted(o: Options)
    ensures o.sourceIp == Some("") ==> forall v :: Pair("-source-ip", v) !in Segments(o)
  {
  }

  /** One for a present option, zero otherwise. */
  function Count(b: bool): nat
  {
    if b then 1 else 0
  }

  /** How many of the options that take a value are emitted. */
  function ValuedCount(o: Options): nat
  {
    Count(Truthy(o.ports)) + Count(o.topPorts.Some?) + Count(Truthy(o.excludePorts)) + Count(Truthy(o.scanType))
    + Count(o.rate.Some?) + Count(o.retries.Some?) + Count(o.probeTimeout.Some?) + Count(o.warmUpTime.Some?)
    + Count(Truthy(o.interfaceName)) + Count(Truthy(o.sourceIp))
  }

  /** How many switches are set. */
  function SwitchCount(o: Options): nat
  {
    Count(IsTrue(o.json)) + Count(IsTrue(o.silent)) + Count(IsTrue(o.excludeCdn)) + Count(IsTrue(o.displayCdn))
    + Count(IsTrue(o.serviceDiscovery)) + Count(IsTrue(o.serviceVersion)) + Count(IsTrue(o.ping))
  }

  /** A string option adds two strings when it is given and non-empty. */
  lemma GrowText(acc: seq<Arg>, name: string, v: Option<string>)
    ensures |Render(acc + TextOpt(name, v))| == |Render(acc)| + 2 * Count(Truthy(v))
  {
    RenderOneLength(TextOpt(name, v));
    RenderLengthAppend(acc, TextOpt(name, v));
  }

  /** A number option adds two strings whenever it is given. */
  lemma GrowNum(acc: seq<Arg>, name: string, n: Option<int>)
    ensures |Render(acc + NumOpt(name, n))| == |Render(acc)| + 2 * Count(n.Some?)
  {
    RenderOneLength(NumOpt(name, n));
    RenderLengthAppend(acc, NumOpt(name, n));
  }

  /** A switch adds one string when it is set. */
  lemma GrowSwitch(acc: seq<Arg>, name: string, b: Option<bool>)
    ensures |Render(acc + Switch(name, b))| == |Render(acc)| + Count(IsTrue(b))
  {
    RenderOneLength(Switch(name, b));
    RenderLengthAppend(acc, Switch(name, b));
  }

  lemma HeadLength(host: string)
    ensures |Render([Pair("-host", host), Flag("-no-stdin")])| == 3
  {
    RenderOneLength([Pair("-host", host)]);
    RenderOneLength([Flag("-no-stdin")]);
    RenderLengthAppend([Pair("-host", host)], [Flag("-no-stdin")]);
    assert [Pair("-host", host)] + [Flag("-no-stdin")] == [Pair("-host", host), Flag("-no-stdin")];
  }

  /** The command line holds three fixed strings, one per set switch and two per emitted valued option. */
  lemma ArgsLength(o: Options)
    ensures |Render(Segments(o))| == 3 + SwitchCount(o) + 2 * ValuedCount(o)
  {
    var s0 := [Pair("-host", o.host), Flag("-no-stdin")];
    HeadLength(o.host);
    var s1 := s0 + TextOpt("-p", o.ports);
    GrowText(s0, "-p", o.ports);
    var s2 := s1 + NumOpt("-top-ports", o.topPorts);
    GrowNum(s1, "-top-ports", o.topPorts);
    var s3 := s2 + TextOpt("-exclude-ports", o.excludePorts);
    GrowText(s2, "-exclude-ports", o.excludePorts);
    var s4 := s3 + TextOpt("-s", o.scanType);
    GrowText(s3, "-s", o.scanType);
    var s5 := s4 + NumOpt("-rate", o.rate);
    GrowNum(s4, "-rate", o.rate);
    var s6 := s5 + NumOpt("-retries", o.retries);
    GrowNum(s5, "-retries", o.retries);
    var s7 := s6 + NumOpt("-timeout", o.probeTimeout);
    GrowNum(s6, "-timeout", o.probeTimeout);
    var s8 := s7 + NumOpt("-warm-up-time", o.warmUpTime);
    GrowNum(s7, "-warm-up-time", o.warmUpTime);
    var s9 := s8 + Switch("-json", o.json);
    GrowSwitch(s8, "-json", o.json);
    var s10 := s9 + Switch("-silent", o.silent);
    GrowSwitch(s9, "-silent", o.silent);
    var s11 := s10 + TextOpt("-interface", o.interfaceName);
    GrowText(s10, "-interface", o.interfaceName);
    var s12 := s11 + TextOpt("-source-ip", o.sourceIp);
    GrowText(s11, "-source-ip", o.sourceIp);
    var s13 := s12 + Switch("-exclude-cdn", o.excludeCdn);
    GrowSwitch(s12, "-exclude-cdn", o.excludeCdn);
    var s14 := s13 + Switch("-display-cdn", o.displayCdn);
    GrowSwitch(s13, "-display-cdn", o.displayCdn);
    var s15 := s14 + Switch("-sD", o.serviceDiscovery);
    GrowSwitch(s14, "-sD", o.serviceDiscovery);
    var s16 := s15 + Switch("-sV", o.serviceVersion);
    GrowSwitch(s15, "-sV", o.serviceVersion);
    GrowSwitch(s16, "-ping", o.ping);
    assert Segments(o) == s16 + Switch("-ping", o.ping);
  }
}
