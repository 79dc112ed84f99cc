/**
 * scoutsuite-mcp/src/index.ts: the `do-scoutsuite-aws` command line, with
 * AWS credentials taken from the environment before the tool parameters,
 * and the handler's way from the scan's output to the findings. The
 * environment is a map, the report file system a function from path to
 * text (or the error reading it throws), and `JSON.parse` a parameter.
 */
module Scoutsuite {
  import opened Wrappers
  import opened Text
  import opened Js
  import opened Argv
  import opened Json
  import opened ToolResult
  import opened Sanitize
  import opened ScoutsuiteParser

  /** The tool parameters, with the schema's own spellings of two names kept apart as fields. */
  datatype Options = Options(
    fullReport: Option<bool>,
    maxWorkers: Option<int>,
    services: Option<seq<string>>,
    skipServices: Option<seq<string>>,
    profile: Option<string>,
    accessKeys: Option<string>,
    accessKeyId: Option<string>,
    secretAccessKey: Option<string>,
    sessionToken: Option<string>,
    regions: Option<string>,
    excludeRegions: Option<string>,
    ipRanges: Option<string>,
    ipRangesNameKey: Option<string>)

  /** `process.env[name] || param`: a non-empty variable wins over the parameter. */
  function Prefer(env: map<string, string>, name: string, param: Option<string>): (r: Option<string>)
    ensures name in env && env[name] != "" ==> r == Some(env[name])
    ensures !(name in env && env[name] != "") ==> r == param
  {
    if name in env && env[name] != "" then Some(env[name]) else param
  }

  /** `if (v) args.push(name)`: a lone flag for a truthy string. */
  function FlagIf(name: string, v: Option<string>): (r: seq<Arg>)
    ensures forall s :: s in r ==> s == Flag(name)
  {
    if Truthy(v) then [Flag(name)] else []
  }

  const Head := ["aws", "--force", "--no-browser"]

  /** The worker count, then the services to include and to skip, each list after its flag. */
  function Scope(o: Options): (r: seq<Arg>)
  {
    NumTruthy("--max-workers", o.maxWorkers) + FlagThenWords("--services", o.services)
    + FlagThenWords("--skip", o.skipServices)
  }

  /** The three credentials, each from the environment when it is set there. */
  function Credentials(env: map<string, string>, o: Options): (r: seq<Arg>)
  {
    TextOpt("--access-key-id", Prefer(env, "AWS_ACCESS_KEY_ID", o.accessKeyId))
    + TextOpt("--secret-access-key", Prefer(env, "AWS_SECRET_ACCESS_KEY", o.secretAccessKey))
    + TextOpt("--session-token", Prefer(env, "AWS_SESSION_TOKEN", o.sessionToken))
  }

  /** The profile, the access-keys switch and the credentials. */
  function Auth(env: map<string, string>, o: Options): (r: seq<Arg>)
  {
    TextOpt("--profile", o.profile) + FlagIf("--access-keys", o.accessKeys) + Credentials(env, o)
  }

  /** The region filters and the IP-range files. */
  function Ranges(o: Options): (r: seq<Arg>)
    ensures forall s :: s in r ==> s.Pair?
  {
    TextOpt("--regions", o.regions) + TextOpt("--exclude-regions", o.excludeRegions)
    + TextOpt("--ip-ranges", o.ipRanges) + TextOpt("--ip-ranges-name-key", o.ipRangesNameKey)
  }

  function Segments(env: map<string, string>, o: Options): seq<Arg>
  {
    Words(Head) + (Scope(o) + Auth(env, o) + Ranges(o))
  }

  /** The flag once, then one bare word per element, pushed by an indexed loop. */
  method PushList(a: seq<Arg>, name: string, xs: Option<seq<string>>) returns (r: seq<Arg>)
    ensures r == a + FlagThenWords(name, xs)
  {
    r := a;
    if NonEmpty(xs) {
      var start := a + [Flag(name)];
      r := start;
      var i := 0;
      while i < |xs.value|
        invariant 0 <= i <= |xs.value|
        invariant r == start + Words(xs.value[..i])
      {
        WordsSnoc(xs.value, i);
        AppendAssoc(start, Words(xs.value[..i]), [Word(xs.value[i])]);
        r := r + [Word(xs.value[i])];
        i := i + 1;
      }
      assert xs.value[..i] == xs.value;
      AppendAssoc(a, [Flag(name)], Words(xs.value));
    }
  }

  lemma WordsSnoc(xs: seq<string>, i: nat)
    requires i < |xs|
    ensures Words(xs[..i + 1]) == Words(xs[..i]) + [Word(xs[i])]
  {
  }

  method PushScope(a: seq<Arg>, o: Options) returns (r: seq<Arg>)
    ensures r == a + Scope(o)
  {
    r := PushNumTruthy(a, "--max-workers", o.maxWorkers);
    r := PushList(r, "--services", o.services);
    r := PushList(r, "--skip", o.skipServices);
  }

  method PushCredentials(a: seq<Arg>, env: map<string, string>, o: Options) returns (r: seq<Arg>)
    ensures r == a + Credentials(env, o)
  {
    var keyId := Prefer(env, "AWS_ACCESS_KEY_ID", o.accessKeyId);
    var secretKey := Prefer(env, "AWS_SECRET_ACCESS_KEY", o.secretAccessKey);
    var sessToken := Prefer(env, "AWS_SESSION_TOKEN", o.sessionToken);
    r := PushText(a, "--access-key-id", keyId);
    r := PushText(r, "--secret-access-key", secretKey);
    r := PushText(r, "--session-token", sessToken);
  }

  method PushAuth(a: seq<Arg>, env: map<string, string>, o: Options) returns (r: seq<Arg>)
    ensures r == a + Auth(env, o)
  {
    r := PushText(a, "--profile", o.profile);
    if Truthy(o.accessKeys) {
      r := r + [Flag("--access-keys")];
    }
    var g := TextOpt("--profile", o.profile) + FlagIf("--access-keys", o.accessKeys);
    assert r == a + g;
    r := PushCredentials(r, env, o);
    AppendAssoc(a, g, Credentials(env, o));
  }

  method PushRanges(a: seq<Arg>, o: Options) returns (r: seq<Arg>)
    ensures r == a + Ranges(o)
  {
    r := PushText(a, "--regions", o.regions);
    r := PushText(r, "--exclude-regions", o.excludeRegions);
    r := PushText(r, "--ip-ranges", o.ipRanges);
    r := PushText(r, "--ip-ranges-name-key", o.ipRangesNameKey);
  }

  /** The `do-scoutsuite-aws` handler's argument array, built push by push. */
  method BuildArgs(env: map<string, string>, o: Options) returns (args: seq<string>)
    ensures args == Render(Segments(env, o))
  {
    var h := Words(Head);
    var g1, g2, g3 := Scope(o), Auth(env, o), Ranges(o);
    var segs := PushScope(h, o);
    segs := PushAuth(segs, env, o);
    AppendAssoc(h, g1, g2);
    segs := PushRanges(segs, o);
    AppendAssoc(h, g1 + g2, g3);
    args := Render(segs);
  }

  /** The command line opens with the fixed three words, followed by the rendered groups in order. */
  lemma ArgsLayout(env: map<string, string>, o: Options)
    ensures Render(Segments(env, o)) == Head + Render(Scope(o)) + Render(Auth(env, o)) + Render(Ranges(o))
  {
    var r1, r2, r3 := Render(Scope(o)), Render(Auth(env, o)), Render(Ranges(o));
    RenderWords(Head);
    RenderAppend(Words(Head), Scope(o) + Auth(env, o) + Ranges(o));
    RenderAppend(Scope(o) + Auth(env, o), Ranges(o));
    RenderAppend(Scope(o), Auth(env, o));
    assert Render(Segments(env, o)) == Head + ((r1 + r2) + r3);
    AppendAssoc(Head, r1 + r2, r3);
    AppendAssoc(Head, r1, r2);
  }

  /** A non-empty list renders as its flag followed by every element in order; an absent or empty one vanishes. */
  lemma ListRender(name: string, xs: Option<seq<string>>)
    ensures NonEmpty(xs) ==> Render(FlagThenWords(name, xs)) == [name] + xs.value
    ensures !NonEmpty(xs) ==> Render(FlagThenWords(name, xs)) == []
  {
    if NonEmpty(xs) {
      RenderAppend([Flag(name)], Words(xs.value));
      RenderWords(xs.value);
    }
  }

  /** The scope group: the worker count, then "--services" and each service, then "--skip" and each skipped one. */
  lemma ScopeRender(o: Options)
    ensures Render(Scope(o)) == Render(NumTruthy("--max-workers", o.maxWorkers))
      + (if NonEmpty(o.services) then ["--services"] + o.services.value else [])
      + (if NonEmpty(o.skipServices) then ["--skip"] + o.skipServices.value else [])
  {
    var w := NumTruthy("--max-workers", o.maxWorkers);
    RenderAppend(w + FlagThenWords("--services", o.services), FlagThenWords("--skip", o.skipServices));
    RenderAppend(w, FlagThenWords("--services", o.services));
    ListRender("--services", o.services);
    ListRender("--skip", o.skipServices);
  }

  /** Words and lone flags pair no value with any name. */
  lemma NoPairs(segs: seq<Arg>, name: string)
    requires forall s :: s in segs ==> !s.Pair?
    ensures ValuesOf(segs, name) == []
  {
    ValuesOfNoPair(segs, name);
  }

  lemma ScopeHasNoCredential(o: Options, name: string)
    requires name != "--max-workers"
    ensures ValuesOf(Scope(o), name) == []
  {
    var a := NumTruthy("--max-workers", o.maxWorkers);
    var b := FlagThenWords("--services", o.services);
    var c := FlagThenWords("--skip", o.skipServices);
    ValuesOfAppend(a + b, c, name);
    ValuesOfAppend(a, b, name);
    ValuesOfNoPair(a, name);
    if NonEmpty(o.services) {
      assert forall s :: s in b ==> s == Flag("--services") || s in Words(o.services.value);
    }
    if NonEmpty(o.skipServices) {
      assert forall s :: s in c ==> s == Flag("--skip") || s in Words(o.skipServices.value);
    }
    NoPairs(b, name);
    NoPairs(c, name);
  }

  /** The value a credential gets on the command line, as the three pushes compute it. */
  function CredentialArg(env: map<string, string>, o: Options, name: string): seq<string>
    requires name in {"--access-key-id", "--secret-access-key", "--session-token"}
  {
    var v := if name == "--access-key-id" then Prefer(env, "AWS_ACCESS_KEY_ID", o.accessKeyId)
      else if name == "--secret-access-key" then Prefer(env, "AWS_SECRET_ACCESS_KEY", o.secretAccessKey)
      else Prefer(env, "AWS_SESSION_TOKEN", o.sessionToken);
    if Truthy(v) then [v.value] else []
  }

  /** A text option's value, or nothing, for its own name; nothing for any other. */
  lemma TextOptValues(flag: string, v: Option<string>, name: string)
    ensures ValuesOf(TextOpt(flag, v), name) == if flag == name && Truthy(v) then [v.value] else []
  {
  }

  /**
   * For each credential, the value on the command line is the environment's
   * when that is set and non-empty, else the parameter's when that is
   * non-empty, else there is none.
   */
  lemma CredentialPrecedence(env: map<string, string>, o: Options, name: string)
    requires name in {"--access-key-id", "--secret-access-key", "--session-token"}
    ensures ValuesOf(Segments(env, o), name) == CredentialArg(env, o, name)
  {
    CredentialValue(env, o, name);
    var k := TextOpt("--access-key-id", Prefer(env, "AWS_ACCESS_KEY_ID", o.accessKeyId));
    var s := TextOpt("--secret-access-key", Prefer(env, "AWS_SECRET_ACCESS_KEY", o.secretAccessKey));
    var t := TextOpt("--session-token", Prefer(env, "AWS_SESSION_TOKEN", o.sessionToken));
    ValuesOfAppend(k + s, t, name);
    ValuesOfAppend(k, s, name);
    TextOptValues("--access-key-id", Prefer(env, "AWS_ACCESS_KEY_ID", o.accessKeyId), name);
    TextOptValues("--secret-access-key", Prefer(env, "AWS_SECRET_ACCESS_KEY", o.secretAccessKey), name);
    TextOptValues("--session-token", Prefer(env, "AWS_SESSION_TOKEN", o.sessionToken), name);
  }

  /** A set environment variable decides the access key id whatever the parameter says. */
  lemma EnvironmentWins(env: map<string, string>, o: Options)
    requires "AWS_ACCESS_KEY_ID" in env && env["AWS_ACCESS_KEY_ID"] != ""
    ensures ValuesOf(Segments(env, o), "--access-key-id") == [env["AWS_ACCESS_KEY_ID"]]
  {
    CredentialPrecedence(env, o, "--access-key-id");
  }

  /** A credential's values come from the credentials group alone. */
  lemma CredentialValue(env: map<string, string>, o: Options, name: string)
    requires name in {"--access-key-id", "--secret-access-key", "--session-token"}
    ensures ValuesOf(Segments(env, o), name) == ValuesOf(Credentials(env, o), name)
  {
    var h := Words(Head);
    var p := TextOpt("--profile", o.profile);
    var f := FlagIf("--access-keys", o.accessKeys);
    NoPairs(h, name);
    NoPairs(f, name);
    ValuesOfNoPair(p, name);
    ValuesOfNoPair(Ranges(o), name);
    ScopeHasNoCredential(o, name);
    OnlyMiddleValues(h, Scope(o), p, f, Credentials(env, o), Ranges(o), name);
  }

  /** Only the pairs of `c` count when every other piece around it has no pair of that name. */
  lemma OnlyMiddleValues(h: seq<Arg>, sc: seq<Arg>, p: seq<Arg>, f: seq<Arg>, c: seq<Arg>, rg: seq<Arg>, name: string)
    requires ValuesOf(h, name) == [] && ValuesOf(sc, name) == [] && ValuesOf(p, name) == []
    requires ValuesOf(f, name) == [] && ValuesOf(rg, name) == []
    ensures ValuesOf(h + (sc + (p + f + c) + rg), name) == ValuesOf(c, name)
  {
    ValuesOfAppend(h, sc + (p + f + c) + rg, name);
    ValuesOfAppend(sc + (p + f + c), rg, name);
    ValuesOfAppend(sc, p + f + c, name);
    ValuesOfAppend(p + f, c, name);
    ValuesOfAppend(p, f, name);
  }

  // ---------------------------------------------------------------- the handler

  const NoReportPath := "Could not extract report path from ScoutSuite output"

  /** The message thrown on a nonzero exit: the code and the combined output, colour codes removed. */
  function ExitMessage(result: SpawnResult): (r: string)
    ensures StartsWith(r, "scoutsuite exited with code ")
  {
    "scoutsuite exited with code " + IntToString(result.exitCode) + ":\n"
    + RemoveAnsiCodes(result.stdout + result.stderr)
  }

  /**
   * The handler after the scan: a nonzero exit throws; so does output that
   * names no report; otherwise the report file `read` yields is searched
   * for findings, whole when `full_report` is true and as names otherwise.
   */
  function Outcome(o: Options, result: SpawnResult, read: string -> Result<string>,
                   parse: string -> Result<Json>): (r: Result<map<string, Listing>>)
    ensures result.exitCode != 0 ==> r == Err(ExitMessage(result))
    ensures result.exitCode == 0 && ExtractReportJsPath(RemoveAnsiCodes(result.stdout + result.stderr)).None? ==>
      r == Err(NoReportPath)
    ensures r.Ok? ==> result.exitCode == 0 && exists path :: (
      ExtractReportJsPath(RemoveAnsiCodes(result.stdout + result.stderr)) == Some(path)
      && read(path).Ok? && r == FindingsFromReport(read(path).value, parse, IsTrue(o.fullReport)))
  {
    var output := RemoveAnsiCodes(result.stdout + result.stderr);
    if result.exitCode != 0 then Err(ExitMessage(result))
    else
      match ExtractReportJsPath(output)
      case None => Err(NoReportPath)
      case Some(path) =>
        match read(path)
        case Err(msg) => Err(msg)
        case Ok(content) => FindingsFromReport(content, parse, IsTrue(o.fullReport))
  }
}
