/**
 * testssl-mcp/src/index.ts: the six testssl.sh tools. Each handler collects
 * its own flags, then the shared connection options, then the output
 * options (whose file paths must stay inside the working directory), and
 * `runTestssl` frames the list with "--color 0" and the target.
 */
module Testssl {
  import opened Wrappers
  import opened Text
  import opened Js
  import opened Argv
  import opened Sanitize
  import opened ToolResult
  import opened ToolArgs

  // ---------------------------------------------------------------- shared options

  /** `ConnectionParams`; numbers are whole numbers. */
  datatype Connection = Connection(
    starttls: Option<string>,
    xmpphost: Option<string>,
    proxy: Option<string>,
    ip: Option<string>,
    ipv6: Option<bool>,
    connectTimeout: Option<int>,
    opensslTimeout: Option<int>,
    basicauth: Option<string>,
    reqheader: Option<seq<string>>,
    sneaky: Option<bool>,
    bugs: Option<bool>,
    assumeHttp: Option<bool>,
    phoneOut: Option<bool>,
    idsFriendly: Option<bool>)

  /** `OutputParams`. */
  datatype Output = Output(
    quiet: Option<bool>,
    wide: Option<bool>,
    jsonfile: Option<string>,
    jsonfilePretty: Option<string>,
    csvfile: Option<string>,
    htmlfile: Option<string>,
    logfile: Option<string>,
    severity: Option<string>,
    append: Option<bool>,
    overwrite: Option<bool>)

  /** The schema enumerations shared by every tool. */
  predicate ValidCommon(c: Connection, out: Output)
  {
    (c.starttls.None? || c.starttls.value in {"smtp", "pop3", "imap", "ftp", "ldap", "nntp", "postgres", "mysql", "xmpp", "xmpp-server", "telnet", "irc", "lmtp", "sieve"})
    && (out.severity.None? || out.severity.value in {"LOW", "MEDIUM", "HIGH", "CRITICAL"})
  }

  /** No piece of `segs` is a request header. */
  predicate NoReqheader(segs: seq<Arg>)
  {
    forall s :: s in segs ==> !(s.Pair? && s.name == "--reqheader")
  }

  /** Where and how to connect: STARTTLS, XMPP host, proxy, IP, IPv6. */
  function ConnectTo(c: Connection): (r: seq<Arg>)
    ensures NoReqheader(r)
  {
    TextOpt("--starttls", c.starttls)
    + TextOpt("--xmpphost", c.xmpphost)
    + TextOpt("--proxy", c.proxy)
    + TextOpt("--ip", c.ip)
    + Switch("-6", c.ipv6)
  }

  /** The two timeouts, passed when non-zero, and the credentials. */
  function Timeouts(c: Connection): (r: seq<Arg>)
    ensures NoReqheader(r)
  {
    NumTruthy("--connect-timeout", c.connectTimeout)
    + NumTruthy("--openssl-timeout", c.opensslTimeout)
    + TextOpt("--basicauth", c.basicauth)
  }

  /** The behaviour switches after the request headers. */
  function Habits(c: Connection): (r: seq<Arg>)
    ensures NoReqheader(r)
  {
    Switch("--sneaky", c.sneaky)
    + Switch("--bugs", c.bugs)
    + Switch("--assume-http", c.assumeHttp)
    + Switch("--phone-out", c.phoneOut)
    + Switch("--ids-friendly", c.idsFriendly)
  }

  /** What `addConnectionArgs` pushes, in order. */
  function ConnectionSegments(c: Connection): seq<Arg>
  {
    ConnectTo(c) + Timeouts(c) + EachPair("--reqheader", ListOrEmpty(c.reqheader)) + Habits(c)
  }

  method PushConnectTo(a: seq<Arg>, c: Connection) returns (r: seq<Arg>)
    ensures r == a + ConnectTo(c)
  {
    r := PushText(a, "--starttls", c.starttls);
    r := PushText(r, "--xmpphost", c.xmpphost);
    assert r == a + (TextOpt("--starttls", c.starttls) + TextOpt("--xmpphost", c.xmpphost));
    r := PushText(r, "--proxy", c.proxy);
    r := PushText(r, "--ip", c.ip);
    assert r == a + (TextOpt("--starttls", c.starttls) + TextOpt("--xmpphost", c.xmpphost)
      + TextOpt("--proxy", c.proxy) + TextOpt("--ip", c.ip));
    r := PushSwitch(r, "-6", c.ipv6);
  }

  method PushTimeouts(a: seq<Arg>, c: Connection) returns (r: seq<Arg>)
    ensures r == a + Timeouts(c)
  {
    r := PushNumTruthy(a, "--connect-timeout", c.connectTimeout);
    r := PushNumTruthy(r, "--openssl-timeout", c.opensslTimeout);
    assert r == a + (NumTruthy("--connect-timeout", c.connectTimeout) + NumTruthy("--openssl-timeout", c.opensslTimeout));
    r := PushText(r, "--basicauth", c.basicauth);
  }

  method PushHabits(a: seq<Arg>, c: Connection) returns (r: seq<Arg>)
    ensures r == a + Habits(c)
  {
    r := PushSwitch(a, "--sneaky", c.sneaky);
    r := PushSwitch(r, "--bugs", c.bugs);
    assert r == a + (Switch("--sneaky", c.sneaky) + Switch("--bugs", c.bugs));
    r := PushSwitch(r, "--assume-http", c.assumeHttp);
    r := PushSwitch(r, "--phone-out", c.phoneOut);
    assert r == a + (Switch("--sneaky", c.sneaky) + Switch("--bugs", c.bugs)
      + Switch("--assume-http", c.assumeHttp) + Switch("--phone-out", c.phoneOut));
    r := PushSwitch(r, "--ids-friendly", c.idsFriendly);
  }

  /** `addConnectionArgs(a, p)`: pushes onto the caller's list. */
  method AddConnectionArgs(a: seq<Arg>, c: Connection) returns (r: seq<Arg>)
    ensures r == a + ConnectionSegments(c)
  {
    ghost var s1, s2, s3, s4 := ConnectTo(c), Timeouts(c), EachPair("--reqheader", ListOrEmpty(c.reqheader)), Habits(c);
    r := PushConnectTo(a, c);
    r := PushTimeouts(r, c);
    r := PushEach(r, "--reqheader", ListOrEmpty(c.reqheader));
    r := PushHabits(r, c);
    assert r == a + s1 + s2 + s3 + s4;
    AppendAssoc4(a, s1, s2, s3, s4);
  }

  /** Every request header is passed as its own "--reqheader" pair, all of them and in list order. */
  lemma ReqheadersInOrder(c: Connection)
    ensures ValuesOf(ConnectionSegments(c), "--reqheader") == ListOrEmpty(c.reqheader)
  {
    var front := ConnectTo(c) + Timeouts(c);
    var hs := EachPair("--reqheader", ListOrEmpty(c.reqheader));
    assert ConnectionSegments(c) == front + hs + Habits(c);
    ValuesOfAppend(front + hs, Habits(c), "--reqheader");
    ValuesOfAppend(front, hs, "--reqheader");
    ValuesOfNoPair(front, "--reqheader");
    ValuesOfNoPair(Habits(c), "--reqheader");
    ValuesOfEachPair("--reqheader", ListOrEmpty(c.reqheader));
  }

  // ---------------------------------------------------------------- output files

  /** An output file is absent, or its path stays inside the working directory. */
  predicate FileOk(cwd: string, f: Option<string>)
  {
    !Truthy(f) || SanitizePath(cwd, f.value, cwd).Ok?
  }

  /** The flag and the checked path of a given output file. */
  function FileArg(cwd: string, name: string, f: Option<string>): (r: seq<Arg>)
    ensures forall s :: s in r ==> s.Pair? && s.name == name
  {
    if Truthy(f) && SanitizePath(cwd, f.value, cwd).Ok? then [Pair(name, SanitizePath(cwd, f.value, cwd).value)] else []
  }

  predicate OutputOk(cwd: string, out: Output)
  {
    FileOk(cwd, out.jsonfile) && FileOk(cwd, out.jsonfilePretty) && FileOk(cwd, out.csvfile)
    && FileOk(cwd, out.htmlfile) && FileOk(cwd, out.logfile)
  }

  /** The five output files, in the order they are checked. */
  function OutputFiles(cwd: string, out: Output): seq<Arg>
  {
    FileArg(cwd, "--jsonfile", out.jsonfile)
    + FileArg(cwd, "--jsonfile-pretty", out.jsonfilePretty)
    + FileArg(cwd, "--csvfile", out.csvfile)
    + FileArg(cwd, "--htmlfile", out.htmlfile)
    + FileArg(cwd, "--logfile", out.logfile)
  }

  /** The display switches pushed before the files. */
  function Display(out: Output): seq<Arg>
  {
    Switch("-q", out.quiet) + Switch("--wide", out.wide)
  }

  /** The severity filter and the file-handling switches pushed after the files. */
  function Handling(out: Output): seq<Arg>
  {
    TextOpt("--severity", out.severity) + Switch("--append", out.append) + Switch("--overwrite", out.overwrite)
  }

  /** What `addOutputArgs` pushes when no path is refused. */
  function OutputSegments(cwd: string, out: Output): seq<Arg>
  {
    Display(out) + OutputFiles(cwd, out) + Handling(out)
  }

  method PushHandling(a: seq<Arg>, out: Output) returns (r: seq<Arg>)
    ensures r == a + Handling(out)
  {
    r := PushText(a, "--severity", out.severity);
    r := PushSwitch(r, "--append", out.append);
    assert r == a + (TextOpt("--severity", out.severity) + Switch("--append", out.append));
    r := PushSwitch(r, "--overwrite", out.overwrite);
  }

  /** Checks one output file and pushes its flag and checked path; a refused path ends the call. */
  method PushFile(a: seq<Arg>, cwd: string, name: string, f: Option<string>) returns (r: Result<seq<Arg>>)
    ensures r == if FileOk(cwd, f) then Ok(a + FileArg(cwd, name, f)) else Err(TraversalMessage)
  {
    if Truthy(f) {
      var safe := SanitizePath(cwd, f.value, cwd);
      if safe.Err? {
        return Err(safe.msg);
      }
      return Ok(a + [Pair(name, safe.value)]);
    }
    assert a + [] == a;
    return Ok(a);
  }

  /** The five checked pushes; the first refused path ends the call. */
  method PushFiles(a: seq<Arg>, cwd: string, out: Output) returns (r: Result<seq<Arg>>)
    ensures r == if OutputOk(cwd, out) then Ok(a + OutputFiles(cwd, out)) else Err(TraversalMessage)
  {
    ghost var f1, f2, f3 := FileArg(cwd, "--jsonfile", out.jsonfile), FileArg(cwd, "--jsonfile-pretty", out.jsonfilePretty), FileArg(cwd, "--csvfile", out.csvfile);
    ghost var f4, f5 := FileArg(cwd, "--htmlfile", out.htmlfile), FileArg(cwd, "--logfile", out.logfile);
    r := PushFile(a, cwd, "--jsonfile", out.jsonfile);
    if r.Err? { return; }
    r := PushFile(r.value, cwd, "--jsonfile-pretty", out.jsonfilePretty);
    if r.Err? { return; }
    r := PushFile(r.value, cwd, "--csvfile", out.csvfile);
    if r.Err? { return; }
    r := PushFile(r.value, cwd, "--htmlfile", out.htmlfile);
    if r.Err? { return; }
    r := PushFile(r.value, cwd, "--logfile", out.logfile);
    if r.Ok? {
      assert r.value == a + f1 + f2 + f3 + f4 + f5;
      AppendAssoc5(a, f1, f2, f3, f4, f5);
    }
  }

  /** `addOutputArgs(a, p)` run in the working directory `cwd`; `sanitizePath` throws on a refused path. */
  method AddOutputArgs(a: seq<Arg>, cwd: string, out: Output) returns (r: Result<seq<Arg>>)
    ensures r == if OutputOk(cwd, out) then Ok(a + OutputSegments(cwd, out)) else Err(TraversalMessage)
  {
    var segs := PushSwitch(a, "-q", out.quiet);
    segs := PushSwitch(segs, "--wide", out.wide);
    assert segs == a + Display(out);
    var d := segs;
    r := PushFiles(segs, cwd, out);
    if r.Err? {
      assert !OutputOk(cwd, out);
      return;
    }
    AppendAssoc(a, Display(out), OutputFiles(cwd, out));
    segs := PushHandling(r.value, out);
    AppendAssoc(a, Display(out) + OutputFiles(cwd, out), Handling(out));
    return Ok(segs);
  }

  // ---------------------------------------------------------------- framing

  /** The arguments after a tool's own flags: connection options, then output options. */
  function SharedArgs(cwd: string, c: Connection, out: Output): Result<seq<string>>
  {
    if OutputOk(cwd, out) then Ok(Render(ConnectionSegments(c) + OutputSegments(cwd, out)))
    else Err(TraversalMessage)
  }

  /** `runTestssl(a, target)`: colours off, the arguments, then the target unless it is absent or empty. */
  function FinalArgs(a: seq<string>, target: Option<string>): (r: seq<string>)
    ensures |r| >= 2 && r[..2] == ["--color", "0"]
    ensures Truthy(target) ==> r == ["--color", "0"] + a + [target.value]
    ensures !Truthy(target) ==> r == ["--color", "0"] + a
  {
    ["--color", "0"] + a + (if Truthy(target) then [target.value] else [])
  }

  /** The spawned command line for a tool whose own flags are `own`, or the error raised before spawning. */
  function Command(own: seq<string>, cwd: string, c: Connection, out: Output, target: Option<string>): Result<seq<string>>
  {
    var shared := SharedArgs(cwd, c, out);
    if shared.Ok? then Ok(FinalArgs(own + shared.value, target)) else Err(shared.msg)
  }

  /** The shared tail of every handler: connection options, output options, then `runTestssl`'s framing. */
  method Finish(own: seq<string>, cwd: string, c: Connection, out: Output, target: Option<string>)
    returns (r: Result<seq<string>>)
    ensures r == Command(own, cwd, c, out, target)
  {
    var a := AddConnectionArgs([], c);
    assert a == ConnectionSegments(c);
    var full := AddOutputArgs(a, cwd, out);
    if full.Err? {
      return Err(full.msg);
    }
    var finalArgs := ["--color", "0"] + (own + Render(full.value));
    if Truthy(target) {
      finalArgs := finalArgs + [target.value];
    }
    return Ok(finalArgs);
  }

  /**
   * A refused output path fails the whole call, whatever the tool; when
   * every path is accepted, the tool's own flags directly follow
   * "--color 0" and a non-empty target closes the command line.
   */
  lemma OutputPathsGuard(own: seq<string>, cwd: string, c: Connection, out: Output, target: string)
    ensures !OutputOk(cwd, out) ==> Command(own, cwd, c, out, Some(target)) == Err(TraversalMessage)
    ensures OutputOk(cwd, out) ==>
      var r := Command(own, cwd, c, out, Some(target));
      r.Ok? && |r.value| >= 2 + |own| && r.value[2..2 + |own|] == own
      && (target != "" ==> r.value[|r.value| - 1] == target)
  {
    if OutputOk(cwd, out) {
      OwnAfterColour(own, SharedArgs(cwd, c, out).value, target);
    }
  }

  /** The tool's own flags directly follow "--color 0", and a non-empty target comes last. */
  lemma OwnAfterColour(own: seq<string>, shared: seq<string>, target: string)
    ensures var r := FinalArgs(own + shared, Some(target));
      |r| >= 2 + |own| && r[2..2 + |own|] == own
      && (target != "" ==> r[|r| - 1] == target)
  {
    var r := FinalArgs(own + shared, Some(target));
    assert r[2..2 + |own|] == (own + shared)[..|own|];
  }

  /** A given output file travels as its flag and the path `sanitizePath` returned for it. */
  lemma OutputFileChecked(cwd: string, out: Output)
    requires OutputOk(cwd, out) && Truthy(out.jsonfile)
    ensures Pair("--jsonfile", SanitizePath(cwd, out.jsonfile.value, cwd).value) in OutputSegments(cwd, out)
  {
  }

  // ---------------------------------------------------------------- the tools' own flags

  /** `do-testssl`: a full scan has no flags of its own. */
  method FullScan(target: string, cwd: string, c: Connection, out: Output) returns (r: Result<seq<string>>)
    ensures r == Command([], cwd, c, out, Some(target))
  {
    r := Finish([], cwd, c, out, Some(target));
  }

  /** `do-testssl-protocols`: "-p". */
  method Protocols(target: string, cwd: string, c: Connection, out: Output) returns (r: Result<seq<string>>)
    ensures r == Command(["-p"], cwd, c, out, Some(target))
  {
    r := Finish(["-p"], cwd, c, out, Some(target));
  }

  /** The schema's cipher test modes. */
  datatype CipherMode = Standard | EachCipher | CipherPerProto | ForwardSecrecy | ServerPreference

  /** `modeMap`. */
  function ModeFlag(m: CipherMode): string
  {
    match m
    case Standard => "-s"
    case EachCipher => "-e"
    case CipherPerProto => "-E"
    case ForwardSecrecy => "-f"
    case ServerPreference => "-P"
  }

  /** Distinct modes ask testssl for distinct tests. */
  lemma ModeFlagInjective(m1: CipherMode, m2: CipherMode)
    ensures ModeFlag(m1) == ModeFlag(m2) ==> m1 == m2
  {
  }

  function CipherSegments(mode: CipherMode, pattern: Option<string>, showEach: Option<bool>): seq<Arg>
  {
    [Flag(ModeFlag(mode))] + TextOpt("-x", pattern) + Switch("--show-each", showEach)
  }

  /** `do-testssl-ciphers`: the mode's flag, the cipher pattern, "--show-each". */
  method Ciphers(target: string, mode: CipherMode, pattern: Option<string>, showEach: Option<bool>,
                 cwd: string, c: Connection, out: Output) returns (r: Result<seq<string>>)
    ensures r == Command(Render(CipherSegments(mode, pattern, showEach)), cwd, c, out, Some(target))
  {
    var a := PushText([Flag(ModeFlag(mode))], "-x", pattern);
    a := PushSwitch(a, "--show-each", showEach);
    r := Finish(Render(a), cwd, c, out, Some(target));
  }

  /** The cipher mode is the first argument after "--color 0"; a pattern follows it as "-x" and its value. */
  lemma CipherModeFirst(mode: CipherMode, pattern: Option<string>, showEach: Option<bool>)
    ensures var own := Render(CipherSegments(mode, pattern, showEach));
      |own| >= 1 && own[0] == ModeFlag(mode)
      && (Truthy(pattern) ==> |own| >= 3 && own[1..3] == ["-x", pattern.value])
  {
  }

  /**
   * The flags whose request is set, in table order, or `dflt` when none is;
   * what both the vulnerability and the server-information handlers compute
   * with their `has…Flag` variable.
   */
  function SelectedOrDefault(on: seq<bool>, names: seq<string>, dflt: seq<string>): seq<string>
    requires |on| == |names|
  {
    if true in on then Chosen(on, names) else dflt
  }

  /** One conditional push per table entry, then the default when nothing was pushed. */
  method PushSelected(on: seq<bool>, names: seq<string>, dflt: seq<string>) returns (a: seq<string>)
    requires |on| == |names|
    ensures a == SelectedOrDefault(on, names, dflt)
  {
    a := [];
    var hasFlag := false;
    for i := 0 to |names|
      invariant a == Chosen(on[..i], names[..i])
      invariant hasFlag <==> true in on[..i]
    {
      ChosenAppend(on[..i], names[..i], [on[i]], [names[i]]);
      assert on[..i + 1] == on[..i] + [on[i]];
      assert names[..i + 1] == names[..i] + [names[i]];
      if on[i] {
        a := a + [names[i]];
        hasFlag := true;
      }
    }
    assert on[..|names|] == on && names[..|names|] == names;
    if !hasFlag {
      ChosenNone(on, names);
      a := a + dflt;
    }
  }

  /**
   * With no request the default alone is passed; otherwise exactly the
   * requested flags, each present precisely when asked for, in table order.
   */
  lemma SelectedOrDefaultMeaning(on: seq<bool>, names: seq<string>, dflt: seq<string>, k: nat)
    requires |on| == |names| && k < |names|
    requires forall i, j :: 0 <= i < j < |names| ==> names[i] != names[j]
    ensures !(true in on) ==> SelectedOrDefault(on, names, dflt) == dflt
    ensures true in on ==> (names[k] in SelectedOrDefault(on, names, dflt) <==> on[k])
  {
    if true in on {
      ChosenMembership(on, names, k);
    }
  }

  /** Requested selections keep the table's order. */
  lemma SelectedInOrder(on: seq<bool>, names: seq<string>, dflt: seq<string>)
    requires |on| == |names| && true in on
    ensures IsSubsequence(SelectedOrDefault(on, names, dflt), names)
  {
    ChosenIsSubsequence(on, names);
  }

  /** The vulnerability checks, in the order the handler tests them. */
  const VulnFlags: seq<string> :=
    ["-U", "-H", "-I", "-T", "--BB", "--SI", "-R", "-C", "-B", "-O", "-Z", "-W", "-F", "-D", "-J", "-A", "-L", "-WS", "-4"]

  datatype Vulnerabilities = Vulnerabilities(
    testAll: Option<bool>, heartbleed: Option<bool>, ccsInjection: Option<bool>, ticketbleed: Option<bool>,
    robot: Option<bool>, starttlsInjection: Option<bool>, renegotiation: Option<bool>, crime: Option<bool>,
    breach: Option<bool>, poodle: Option<bool>, tlsFallback: Option<bool>, sweet32: Option<bool>,
    freak: Option<bool>, drown: Option<bool>, logjam: Option<bool>, beast: Option<bool>,
    lucky13: Option<bool>, winshock: Option<bool>, rc4: Option<bool>)

  /** Which checks are asked for, aligned with `VulnFlags`. */
  function VulnRequests(v: Vulnerabilities): (on: seq<bool>)
    ensures |on| == |VulnFlags|
  {
    [IsTrue(v.testAll), IsTrue(v.heartbleed), IsTrue(v.ccsInjection), IsTrue(v.ticketbleed),
     IsTrue(v.robot), IsTrue(v.starttlsInjection), IsTrue(v.renegotiation), IsTrue(v.crime),
     IsTrue(v.breach), IsTrue(v.poodle), IsTrue(v.tlsFallback), IsTrue(v.sweet32),
     IsTrue(v.freak), IsTrue(v.drown), IsTrue(v.logjam), IsTrue(v.beast),
     IsTrue(v.lucky13), IsTrue(v.winshock), IsTrue(v.rc4)]
  }

  lemma VulnFlagsDistinct()
    ensures forall i, j :: 0 <= i < j < |VulnFlags| ==> VulnFlags[i] != VulnFlags[j]
  {
  }

  /** `do-testssl-vulnerabilities`: the requested checks, or "-U" (all of them) when none is. */
  method VulnerabilityScan(target: string, v: Vulnerabilities, cwd: string, c: Connection, out: Output)
    returns (r: Result<seq<string>>)
    ensures r == Command(SelectedOrDefault(VulnRequests(v), VulnFlags, ["-U"]), cwd, c, out, Some(target))
  {
    var a := PushSelected(VulnRequests(v), VulnFlags, ["-U"]);
    r := Finish(a, cwd, c, out, Some(target));
  }

  /** Without a request every vulnerability is tested; otherwise each check runs exactly when asked for. */
  lemma VulnerabilitySelection(v: Vulnerabilities, k: nat)
    requires k < |VulnFlags|
    ensures !(true in VulnRequests(v)) ==> SelectedOrDefault(VulnRequests(v), VulnFlags, ["-U"]) == ["-U"]
    ensures true in VulnRequests(v) ==>
      (VulnFlags[k] in SelectedOrDefault(VulnRequests(v), VulnFlags, ["-U"]) <==> VulnRequests(v)[k])
  {
    VulnFlagsDistinct();
    SelectedOrDefaultMeaning(VulnRequests(v), VulnFlags, ["-U"], k);
  }

  /** The server-information tests, in the order the handler tests them. */
  const InfoFlags: seq<string> := ["-S", "-h", "-c", "-g"]

  datatype ServerInfo = ServerInfo(serverDefaults: Option<bool>, headers: Option<bool>,
                                   clientSimulation: Option<bool>, grease: Option<bool>)

  function InfoRequests(s: ServerInfo): (on: seq<bool>)
    ensures |on| == |InfoFlags|
  {
    [IsTrue(s.serverDefaults), IsTrue(s.headers), IsTrue(s.clientSimulation), IsTrue(s.grease)]
  }

  /** `do-testssl-server-info`: the requested tests, or server defaults and headers when none is. */
  method ServerInfoScan(target: string, s: ServerInfo, cwd: string, c: Connection, out: Output)
    returns (r: Result<seq<string>>)
    ensures r == Command(SelectedOrDefault(InfoRequests(s), InfoFlags, ["-S", "-h"]), cwd, c, out, Some(target))
  {
    var a := PushSelected(InfoRequests(s), InfoFlags, ["-S", "-h"]);
    r := Finish(a, cwd, c, out, Some(target));
  }

  /** Without a request the defaults "-S -h" are used; otherwise each test runs exactly when asked for. */
  lemma ServerInfoSelection(s: ServerInfo, k: nat)
    requires k < |InfoFlags|
    ensures !(true in InfoRequests(s)) ==> SelectedOrDefault(InfoRequests(s), InfoFlags, ["-S", "-h"]) == ["-S", "-h"]
    ensures true in InfoRequests(s) ==>
      (InfoFlags[k] in SelectedOrDefault(InfoRequests(s), InfoFlags, ["-S", "-h"]) <==> InfoRequests(s)[k])
  {
    SelectedOrDefaultMeaning(InfoRequests(s), InfoFlags, ["-S", "-h"], k);
  }

  // ---------------------------------------------------------------- mass scan

  datatype MassScan = MassScan(filePath: string, mode: Option<string>, warnings: Option<string>)

  /** The schema: mode "serial" or "parallel", warnings "batch" or "off". */
  predicate ValidMassScan(m: MassScan)
  {
    (m.mode.None? || m.mode.value in {"serial", "parallel"})
    && (m.warnings.None? || m.warnings.value in {"batch", "off"})
  }

  /** The flags after the target file: the execution mode, then the warning handling ("batch" by default). */
  function MassScanFlags(m: MassScan): seq<string>
  {
    (if m.mode == Some("serial") then ["--serial"] else [])
    + (if m.mode == Some("parallel") then ["--parallel"] else [])
    + ["--warnings", OptOrElse(m.warnings, "batch")]
  }

  /** The whole command of `do-testssl-mass-scan`, which names no target. */
  function MassScanCommand(m: MassScan, cwd: string, c: Connection, out: Output): Result<seq<string>>
  {
    var safe := SanitizePath(cwd, m.filePath, cwd);
    if safe.Err? then Err(safe.msg)
    else Command(["--file", safe.value] + MassScanFlags(m), cwd, c, out, None)
  }

  /** `do-testssl-mass-scan`: the checked target file, mode and warnings, then the shared options. */
  method MassScanArgs(m: MassScan, cwd: string, c: Connection, out: Output) returns (r: Result<seq<string>>)
    requires ValidMassScan(m)
    ensures r == MassScanCommand(m, cwd, c, out)
  {
    var safe := SanitizePath(cwd, m.filePath, cwd);
    if safe.Err? {
      return Err(safe.msg);
    }
    var flags := MassFlags(m);
    r := Finish(["--file", safe.value] + flags, cwd, c, out, None);
  }

  /** The mode and warnings flags of a mass scan, pushed one by one. */
  method MassFlags(m: MassScan) returns (a: seq<string>)
    ensures a == MassScanFlags(m)
  {
    a := [];
    if m.mode == Some("serial") {
      a := a + ["--serial"];
    }
    if m.mode == Some("parallel") {
      a := a + ["--parallel"];
    }
    if Truthy(m.warnings) {
      a := a + ["--warnings", m.warnings.value];
    } else {
      a := a + ["--warnings", "batch"];
    }
  }

  /**
   * A target file outside the working directory is refused; otherwise the
   * command starts with the checked file, passes "--warnings batch" unless
   * told otherwise, and ends without a target.
   */
  lemma MassScanShape(m: MassScan, cwd: string, c: Connection, out: Output)
    requires ValidMassScan(m)
    ensures SanitizePath(cwd, m.filePath, cwd).Err? ==> MassScanCommand(m, cwd, c, out) == Err(TraversalMessage)
    ensures SanitizePath(cwd, m.filePath, cwd).Ok? && OutputOk(cwd, out) ==>
      var r := MassScanCommand(m, cwd, c, out);
      r.Ok? && |r.value| >= 4 && r.value[..4] == ["--color", "0", "--file", SanitizePath(cwd, m.filePath, cwd).value]
  {
    var safe := SanitizePath(cwd, m.filePath, cwd);
    if safe.Ok? && OutputOk(cwd, out) {
      assert MassScanCommand(m, cwd, c, out) == Ok(FinalArgs((["--file", safe.value] + MassScanFlags(m)) + Render(ConnectionSegments(c) + OutputSegments(cwd, out)), None));
      FileHead(safe.value, MassScanFlags(m), Render(ConnectionSegments(c) + OutputSegments(cwd, out)));
    }
  }

  lemma FileHead(path: string, flags: seq<string>, shared: seq<string>)
    ensures var r := FinalArgs((["--file", path] + flags) + shared, None);
      |r| >= 4 && r[..4] == ["--color", "0", "--file", path]
  {
    var r := FinalArgs((["--file", path] + flags) + shared, None);
    assert r == ["--color", "0", "--file", path] + (flags + shared);
  }

  /** "--serial" and "--parallel" are passed exactly for their mode. */
  lemma MassScanModes(m: MassScan)
    requires ValidMassScan(m)
    ensures var f := MassScanFlags(m);
      ("--serial" in f <==> m.mode == Some("serial")) && ("--parallel" in f <==> m.mode == Some("parallel"))
  {
    var f := MassScanFlags(m);
    assert "--serial" != "--warnings" && "--parallel" != "--warnings";
    if m.warnings.Some? {
      assert m.warnings.value != "--serial" && m.warnings.value != "--parallel";
    }
  }

  /** The warning handling closes the scan's own flags, "batch" unless another is chosen. */
  lemma MassScanWarnings(m: MassScan)
    requires ValidMassScan(m)
    ensures var f := MassScanFlags(m);
      |f| >= 2 && f[|f| - 2..] == ["--warnings", if m.warnings.Some? then m.warnings.value else "batch"]
  {
  }

  // ---------------------------------------------------------------- runTestssl's result

  const ExitPrefix := "testssl exited with code "

  /** The handler's text: the ANSI-stripped stdout and stderr, or an error naming the exit code. */
  function RunResult(result: SpawnResult): (r: Result<string>)
    ensures r.Ok? <==> result.exitCode == 0
    ensures r.Ok? ==> r.value != ""
  {
    var output := RemoveAnsiCodes(result.stdout + result.stderr);
    if result.exitCode == 0 then Ok(OrElse(output, "testssl completed with no output"))
    else Err(ExitPrefix + IntToString(result.exitCode) + (": " + output))
  }

  /** A failed run's error names the exit code, which reads back as a number. */
  lemma FailureNamesCode(result: SpawnResult)
    requires result.exitCode != 0
    ensures var r := RunResult(result);
      r.Err? && |ExitPrefix| <= |r.msg| && r.msg[..|ExitPrefix|] == ExitPrefix
      && ParseInt(r.msg[|ExitPrefix|..]) == Some(result.exitCode)
  {
    var output := RemoveAnsiCodes(result.stdout + result.stderr);
    ParseIntAfter(ExitPrefix, result.exitCode, ": " + output, RunResult(result).msg);
  }
}
