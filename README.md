# mcp-for-security, modelled in Dafny

mcp-for-security is a collection of Model Context Protocol (MCP) servers.
Each server exposes one or more security command-line tools (naabu,
gobuster, testssl.sh, ScoutSuite, gowitness, smuggler and others) as MCP
tools. A handler takes a validated option record, turns it into an argument
array for the tool, runs the tool, and turns its exit code and output into a
reply. This project models the deterministic logic between those steps and
proves what it promises:

- **The shared library** (`packages/mcp-shared/src`):
  - the path-traversal guard `sanitizePath`;
  - ANSI stripping and output truncation;
  - `getToolArgs`, which removes the `--transport`/`--port` framework flags;
  - `formatToolResult`;
  - the seconds-to-milliseconds timeout rule and `getEnvOrArg`;
  - the HTTP transport's `parseArg` and its request routing (health check,
    CORS preflight, parse errors, session creation and reuse).
- **The argument builders** of naabu, gau, hakrawler, subfinder, asnmap,
  amass, dalfox, uro, urldedupe, httpx, cero, wpscan, arjun, testssl,
  gobuster, gowitness and ScoutSuite. Each builder is a method that pushes
  onto an array step by step, as the handler does. It is proved equal to
  the rendering of a specification function `Segments`. Lemmas about
  `Segments` state the option order, the truthiness and `!== undefined`
  tests, list joining, the defaults and the validation errors.
- **Output parsers**:
  - crt.sh `name_value` splitting and deduplication;
  - smuggler's CL.TE/TE.CL finding extraction;
  - ScoutSuite's report path extraction and findings collection;
  - gowitness screenshot selection.
- **SecLists browsing**: the dedicated server and the shared
  `do-list-wordlists` tool. Directory trees are values, and the recursive
  search and the listing loops are proved sound and complete against them.
- **HTTP header analysis**: which headers to remove and which to add.

Processes, file contents, directory listings, `JSON.parse` and URL parsing
are parameters of the model. Spawning a process yields a record of exit
code, stdout and stderr.

Modules follow the source files. Helper modules hold the JavaScript and
Node semantics the handlers rely on:

- `Js`: truthiness, `String(n)`, `parseInt`, `slice`, `find`, `filter`.
- `PosixPath`: `path.normalize`, `path.join` and `path.resolve`.
- `Text`: `split` and `join`.
- `Argv`: argument segments and the push helpers.
- `Json`: parsed JSON values.
- `DirTree`: directory trees, `stat` and the stable sort.

## Model

| member | source | states |
|---|---|---|
| Env.GetEnvOrArg | packages/mcp-shared/src/env.ts:5-7 | a non-empty environment variable wins; otherwise a non-empty argument at that index; otherwise nothing, and a result is never the empty string |
| Env.EmptyVariableIsUnset | packages/mcp-shared/src/env.ts:6 | an empty variable falls through to the argument exactly as a missing one does (the `\|\|` chain tests truthiness) |
| Env.OnlyNamedVariable | packages/mcp-shared/src/env.ts:6 | no other variable influences the lookup |
| Timeout.BuildSpawnOptions | packages/mcp-shared/src/timeout.ts:27-35 | a non-zero client limit becomes that many seconds times 1000 and beats the server default; without one the default is used; the limit field is absent exactly when neither is there; the abort signal is passed through |
| Timeout.ValidTimeoutIsPositive | packages/mcp-shared/src/timeout.ts:10-33 | every limit the schema admits (positive) yields a positive millisecond limit, whatever the default |
| Timeout.TimeoutMonotone | packages/mcp-shared/src/timeout.ts:31-33 | a longer client limit never yields a shorter spawn limit |
| Timeout.SchemaExamples | packages/mcp-shared/src/timeout.ts:10-16 | the schema refuses zero and negative limits, admits fractions and an absent limit |
| Timeout.StdinDropped | packages/mcp-shared/src/timeout.ts:27-35 | as written, the stdin text a handler passes makes no difference to the spawn options: with "hello\n" or with none they are the same |
| Timeout.BuildPipedSpawnOptions | packages/mcp-shared/src/__tests__/timeout.test.ts:56-63 | corrected: the limit and the signal as `buildSpawnOptions` gives them, and the stdin text passed through exactly, absent when none was given |
| Timeout.PipedStdinDistinguishes | packages/mcp-shared/src/__tests__/timeout.test.ts:56-63 | corrected, different stdin texts give different spawn options; as written they give the same |
| Timeout.PipedStdinExamples | packages/mcp-shared/src/__tests__/timeout.test.ts:56-63 | "hello\n" is passed through; a request with only a 60-second limit has no stdin text and a 60000 ms limit |
| Sanitize.MoreParams | packages/mcp-shared/src/sanitize.ts:10 | the `(?:;[0-9]{0,4})*` group followed by the final character, tried in backtracking order, ends strictly after its start and within the text |
| Sanitize.LeadDigits | packages/mcp-shared/src/sanitize.ts:10 | the optional `[0-9]{1,4}` group, greedy first, then fewer digits, ends within the text |
| Sanitize.MatchLength | packages/mcp-shared/src/sanitize.ts:10 | a match of the escape-sequence pattern at the start of the text is non-empty, fits in the text and starts with ESC or CSI |
| Sanitize.RemoveAnsiCodes | packages/mcp-shared/src/sanitize.ts:7-13 | the global replace deletes each leftmost match and scans on; the result is never longer than the input |
| Sanitize.RemoveAnsiPlainStep | packages/mcp-shared/src/sanitize.ts:10 | a character that is not ESC or CSI is always kept |
| Sanitize.RemoveAnsiPlainPrefix | packages/mcp-shared/src/sanitize.ts:7-13 | text before the first ESC/CSI passes through untouched, and the rest is cleaned on its own |
| Sanitize.RemoveAnsiNoEscape | packages/mcp-shared/src/sanitize.ts:7-13 | text with no ESC or CSI is returned unchanged |
| Sanitize.RemoveSgr | packages/mcp-shared/src/sanitize.ts:10 | a colour sequence ESC "[dd" "m" is removed whole |
| Sanitize.RemoveSgrOneDigit | packages/mcp-shared/src/sanitize.ts:10 | the reset sequence ESC "[0m" (any one digit) is removed whole |
| Sanitize.RemoveAnsiColouredText | packages/mcp-shared/src/sanitize.ts:7-13 | text wrapped in ESC "[31m" and ESC "[0m" comes out bare |
| Sanitize.TruncateOutput | packages/mcp-shared/src/sanitize.ts:18-24 | input within the limit is returned as it is; longer input is cut and followed by the notice with the omitted count |
| Sanitize.TruncateKeepsPrefix | packages/mcp-shared/src/sanitize.ts:18-24 | with a non-negative limit the output keeps exactly the first maxLength characters and the notice counts the rest, so kept plus omitted is the input length |
| Sanitize.TruncateNegativeLimit | packages/mcp-shared/src/sanitize.ts:21-22 | a negative limit counts from the end, as `slice` does, and the notice reports more characters than the input has |
| Sanitize.SanitizePath | packages/mcp-shared/src/sanitize.ts:31-40 | failure carries the traversal message; success returns the user path resolved against the resolved, normalized base |
| Sanitize.SanitizePathMeaning | packages/mcp-shared/src/sanitize.ts:31-40 | component by component: the path is accepted, as an absolute path, exactly when it lands on the base or below it; a root base admits only the root |
| Sanitize.SanitizePlainRelative | packages/mcp-shared/src/sanitize.ts:31-40 | a relative path of plain names below a non-root base is accepted and appended to the base |
| Sanitize.SanitizeRootBase | packages/mcp-shared/src/sanitize.ts:35 | with "/" as base only the root passes, since nothing starts with "//" |
| Sanitize.SanitizeAcceptsInside | packages/mcp-shared/src/sanitize.ts:31-40 | "subdir/file.txt" under "/tmp/base" is accepted as "/tmp/base/subdir/file.txt" |
| Sanitize.SanitizeAcceptsBase | packages/mcp-shared/src/sanitize.ts:35 | "." under "/tmp/base" is the base itself and is accepted |
| Sanitize.SanitizeRejectsOutside | packages/mcp-shared/src/sanitize.ts:35-37 | "../../etc/passwd" and "/etc/shadow" are refused with the traversal message for the base "/tmp/base" |
| ToolResult.FormatToolResult | packages/mcp-shared/src/result.ts:29-65 | the call fails exactly when the exit code is non-zero, with a message that starts "<tool> exited with code <code>:\n"; success is exactly one text item, never empty |
| ToolResult.ErrorMessageCode | packages/mcp-shared/src/result.ts:39-41 | the exit code can be read back from the error message |
| ToolResult.ErrorBodyPrecedence | packages/mcp-shared/src/result.ts:37 | without stripping, the error message ends in stderr, else stdout, else "Unknown error" |
| ToolResult.SuccessStreams | packages/mcp-shared/src/result.ts:45-51 | the success text is stdout followed by stderr when stderr is requested and present, stdout alone otherwise, and stderr only as a stand-in for an empty stdout |
| ToolResult.SuccessEmpty | packages/mcp-shared/src/result.ts:61 | with both streams empty the text is the non-empty custom message, else "No output from <tool>." |
| ToolResult.StripPlainOutput | packages/mcp-shared/src/result.ts:38-55 | ANSI stripping changes nothing when neither stream holds an escape character |
| ToolResult.StripColouredOutput | packages/mcp-shared/src/result.ts:53-55 | a stdout wrapped in colour codes comes out bare when stripping is asked for |
| ToolArgs.GetToolArgs | packages/mcp-shared/src/args.ts:20-52 | the loop keeps exactly the arguments after argv[1] that are not framework options or their values; fewer than minArgs gives the usage message and exit status 1 |
| ToolArgs.PositionalIsSubsequence | packages/mcp-shared/src/args.ts:24-44 | the kept arguments appear in the command line in the same order |
| ToolArgs.PositionalHasNoFrameworkFlag | packages/mcp-shared/src/args.ts:7-40 | no "--transport"/"--port" option, in either spelling, reaches the tool |
| ToolArgs.PositionalWithoutFlags | packages/mcp-shared/src/args.ts:24-44 | a command line without framework options is passed through whole |
| ToolArgs.PositionalExamples | packages/mcp-shared/src/args.ts:29-40 | "--transport http" and "--port=8080" are removed with their values, a trailing lone "--port" is dropped, "--portal" is kept |
| Transport.FindPrefixed | packages/mcp-shared/src/transport.ts:6 | `find` returns the first argument starting with "--name=", and nothing only when none does |
| Transport.IndexOf | packages/mcp-shared/src/transport.ts:9 | `indexOf` returns the first position holding the bare "--name", and nothing only when none does |
| Transport.ParseArgEqualsForm | packages/mcp-shared/src/transport.ts:6-7 | the first "--name=value" wins over any separate form and gives back the value whole when it holds no further '=' |
| Transport.ParseArgSeparateForm | packages/mcp-shared/src/transport.ts:9-10 | without an '=' form, the element after the first bare "--name" is the value |
| Transport.ParseArgMissing | packages/mcp-shared/src/transport.ts:5-13 | a bare "--name" in last place, or no mention at all, gives nothing |
| Transport.Port | packages/mcp-shared/src/transport.ts:41 | the chosen port is never 0: a non-zero parsed "--port", else a non-zero default, else 3000 |
| Transport.Mode | packages/mcp-shared/src/transport.ts:32-34 | HTTP is chosen exactly for "--transport http" or "--transport sse" (absent means "stdio"), and then on the chosen port |
| Transport.ModeWithoutTransport | packages/mcp-shared/src/transport.ts:32-34 | a command line that never mentions "--transport" starts the stdio transport |
| Transport.ModeExamples | packages/mcp-shared/src/transport.ts:32-34 | "--transport sse" as two arguments and "--transport=http" as one both start HTTP on the chosen port |
| Transport.PortFromArgument | packages/mcp-shared/src/transport.ts:41 | a non-zero decimal "--port" is the port used |
| Transport.PortFallback | packages/mcp-shared/src/transport.ts:41 | without "--port" the non-zero default and then 3000 apply |
| Transport.Messages | packages/mcp-shared/src/transport.ts:93 | a body that is not an array is a one-message batch |
| Transport.RouteRequest | packages/mcp-shared/src/transport.ts:46-132 | a request is routed to a session only when it names that live session |
| Transport.HealthFirst | packages/mcp-shared/src/transport.ts:50-54 | "/healthz" is answered before anything else |
| Transport.SessionRouting | packages/mcp-shared/src/transport.ts:71-75 | past the health check and preflight, a request goes to a session exactly when its non-empty session id is live, whatever its body |
| Transport.StartSessionExactly | packages/mcp-shared/src/transport.ts:78-122 | a new session starts exactly for a POST, outside "/healthz", naming no live session, whose body parses and holds an initialize message |
| Transport.ParseErrorExactly | packages/mcp-shared/src/transport.ts:78-91 | the parse-error answer comes exactly for a POST, outside "/healthz", naming no live session, whose body does not parse |
| Transport.InitializeInBatch | packages/mcp-shared/src/transport.ts:93-99 | an initialize message counts alone and inside a batch, but not inside a nested array |
| Transport.SingleInitialize | packages/mcp-shared/src/transport.ts:93-99 | a non-array body is an initialize request iff it is an object whose method is "initialize" |
| Transport.BatchInitialize | packages/mcp-shared/src/transport.ts:93-99 | a batch is an initialize request iff one of its non-array elements is an initialize message |
| Transport.JsonRpcErrorCode | packages/mcp-shared/src/transport.ts:85-89 | the JSON-RPC error code reads back from the serialised error body |
| Transport.Respond | packages/mcp-shared/src/transport.ts:50-131 | the server answers itself for every route except a live session and a new session; every 400 answer carries the CORS origin and the JSON content type |
| Transport.ErrorCodes | packages/mcp-shared/src/transport.ts:84-131 | the parse error carries -32700 and the missing session -32000 |
| Transport.SessionRouter.constructor | packages/mcp-shared/src/transport.ts:44 | the session map starts empty and nothing is closed |
| Transport.SessionRouter.Handle | packages/mcp-shared/src/transport.ts:46-132 | the route is the routing decision on the live session ids; an initialize request closes and forgets every live session; any other request leaves the map alone |
| Transport.SessionRouter.CloseAll | packages/mcp-shared/src/transport.ts:104-107 | every live transport is closed and the map ends empty |
| Transport.SessionRouter.SessionInitialized | packages/mcp-shared/src/transport.ts:111-113 | a new session is registered under its id |
| Transport.SessionRouter.SessionClosed | packages/mcp-shared/src/transport.ts:114-116 | a closed session is forgotten and nothing else changes |
| Transport.RemoveOne | packages/mcp-shared/src/transport.ts:106 | deleting one session removes its key and keeps the other transports |
| Crtsh.ParseNameValue | servers/crtsh-mcp/src/crtsh.ts:55-63 | every name kept is non-empty and holds no newline |
| Crtsh.ParseNameValueAppend | servers/crtsh-mcp/src/crtsh.ts:57-60 | parsing two texts joined by a newline gives the names of the first, then those of the second |
| Crtsh.ParseNameValueJoin | servers/crtsh-mcp/src/crtsh.ts:55-63 | non-empty, newline-free names written one per line are read back exactly, in order |
| Crtsh.Domains | servers/crtsh-mcp/src/crtsh.ts:40-46 | every gathered name is non-empty and newline-free |
| Crtsh.DomainsOfJoin | servers/crtsh-mcp/src/crtsh.ts:40-46 | gathering certificate by certificate reads the same names as parsing all name_value fields joined by newlines |
| Crtsh.TestLength | servers/crtsh-mcp/src/crtsh.ts:70 | a name matching the target pattern is at least two characters longer than the target |
| Crtsh.BareTargetDropped | servers/crtsh-mcp/src/crtsh.ts:70 | the bare target does not match its own pattern |
| Crtsh.SubdomainMatches | servers/crtsh-mcp/src/crtsh.ts:70 | a dot-free label, a dot and a target ending in a word character always match |
| Crtsh.TestNarrow | servers/crtsh-mcp/src/crtsh.ts:70 | any match can be narrowed to the one label character before the dot |
| Crtsh.IndexOf | servers/crtsh-mcp/src/crtsh.ts:77 | the first index of a name in the list, the length exactly when it is absent |
| Crtsh.ClearResult | servers/crtsh-mcp/src/crtsh.ts:65-86 | the loop over the names with the `unique` dictionary produces exactly the filtered list Cleared |
| Crtsh.ClearedMembers | servers/crtsh-mcp/src/crtsh.ts:76-83 | a name is kept exactly when it occurs in the input and matches the target pattern |
| Crtsh.ClearedNoDuplicates | servers/crtsh-mcp/src/crtsh.ts:77-81 | no name is kept twice |
| Crtsh.ClearedFirstOccurrenceOrder | servers/crtsh-mcp/src/crtsh.ts:76-83 | kept names appear in the order of their first occurrences |
| Crtsh.ClearedFixed | servers/crtsh-mcp/src/crtsh.ts:76-83 | a list of distinct matching names passes through unchanged |
| Crtsh.ClearedIdempotent | servers/crtsh-mcp/src/crtsh.ts:65-86 | filtering twice is filtering once |
| Crtsh.ClearedDropsTarget | servers/crtsh-mcp/src/crtsh.ts:70 | the bare target never survives the filter |
| HttpHeaders.HeaderLines | http-headers-security-mcp/build/index.js:23 | one "key: value" line per response header, in the client's order |
| HttpHeaders.HeaderNameOfLine | http-headers-security-mcp/build/index.js:23-35 | the name read back from a header line (text before the first ':', trimmed, lower-cased) is the key, trimmed and lower-cased |
| HttpHeaders.ListedMeaning | http-headers-security-mcp/build/index.js:36 | a line is listed exactly when some configured name, lower-cased, equals its header name |
| HttpHeaders.RemoveMatches | http-headers-security-mcp/build/index.js:32-38 | the remove list holds exactly the response headers whose name is listed |
| HttpHeaders.RemoveMatchesAppend | http-headers-security-mcp/build/index.js:34 | the matches of a concatenation are the matches of each part, in order |
| HttpHeaders.RemoveMatchesSingle | http-headers-security-mcp/build/index.js:34-37 | one header is kept exactly when its name is listed |
| HttpHeaders.RemoveMatchesInOrder | http-headers-security-mcp/build/index.js:34 | the remove list is a subsequence of the response headers |
| HttpHeaders.ExistingNames | http-headers-security-mcp/build/index.js:41 | one trimmed, lower-cased name per response header, in order |
| HttpHeaders.Missing | http-headers-security-mcp/build/index.js:42-43 | a recommendation is kept exactly when its lower-cased name is not among the response's names |
| HttpHeaders.AddedHeaders | http-headers-security-mcp/build/index.js:39-45 | one "Name: value" line per missing recommendation, in recommendation order |
| HttpHeaders.PresentNotRecommended | http-headers-security-mcp/build/index.js:41-43 | a recommendation present in the response in any letter case is never made |
| HttpHeaders.AbsentRecommended | http-headers-security-mcp/build/index.js:41-43 | a recommendation whose name no response header has is made |
| HttpHeaders.MissingAppend | http-headers-security-mcp/build/index.js:42-43 | recommendations are considered one after the other, in order |
| HttpHeaders.OrPlaceholder | http-headers-security-mcp/build/index.js:53-54 | a non-empty list is kept; an empty one becomes the single placeholder |
| HttpHeaders.Analyze | http-headers-security-mcp/build/index.js:49-55 | both lists of the report are non-empty |
| HttpHeaders.NothingToRemove | http-headers-security-mcp/build/index.js:53 | when no header is listed, the remove list is exactly "No headers to remove" |
| HttpHeaders.NothingToAdd | http-headers-security-mcp/build/index.js:54 | when every recommendation is present, the added list is exactly "No headers to add" |
| HttpHeaders.Escape | http-headers-security-mcp/build/index.js:59 | JSON string escaping never shortens a string |
| HttpHeaders.EscapePlain | http-headers-security-mcp/build/index.js:59 | a string without quotes, backslashes or control characters is written unchanged |
| HttpHeaders.EscapeCharMarked | http-headers-security-mcp/build/index.js:59 | a non-plain character is written as a backslash escape, a plain one as itself |
| HttpHeaders.ReportTextLines | http-headers-security-mcp/build/index.js:56-59 | the reply read line by line (for non-empty lists, which `Analyze` guarantees): "{", the "removeHeaders" key and "[", each remove item escaped, quoted and indented by four spaces in list order with a comma after all but the last, "  ],", the "addedHeaders" key and "[", its items the same way, "  ]" and "}" — and nothing else |
| HttpHeaders.ReportTextJoined | http-headers-security-mcp/build/index.js:59 | the reply is exactly those lines joined by line breaks |
| HttpHeaders.JoinCommas | http-headers-security-mcp/build/index.js:59 | separating array items by ",\n" is ending every item but the last with a comma and joining by line breaks |
| HttpHeaders.ReportLinesFree | http-headers-security-mcp/build/index.js:59 | no line of the reply holds a line break, because escaping writes one as a backslash sequence |
| Naabu.BuildArgs | servers/naabu-mcp/src/index.ts:36-56 | the pushes produce exactly the rendering of the segment list, in source order |
| Naabu.ArgsStart | servers/naabu-mcp/src/index.ts:37 | the command line opens with "-host", the host, "-no-stdin" |
| Naabu.NumbersAlwaysPassed | servers/naabu-mcp/src/index.ts:40-44 | top_ports, rate and retries are passed whenever given, 0 included |
| Naabu.TimingsAlwaysPassed | servers/naabu-mcp/src/index.ts:45-46 | probe_timeout is passed as "-timeout" and warm_up_time as "-warm-up-time" whenever given, 0 included |
| Naabu.EmptyStringsOmitted | servers/naabu-mcp/src/index.ts:39-50 | an empty ports, exclude-ports, scan-type, interface or source-ip string is left out: no "-p", "-exclude-ports", "-s", "-interface" or "-source-ip" pair appears |
| Naabu.ArgsLength | servers/naabu-mcp/src/index.ts:37-55 | the command line has 3 strings plus one per set switch plus two per emitted valued option |
| Gau.Flags | servers/gau-mcp/src/index.ts:38-53 | the option part holds no positional word |
| Gau.BuildArgs | servers/gau-mcp/src/index.ts:35-56 | the pushes produce exactly the rendering of the flags followed by the targets |
| Gau.TargetsLast | servers/gau-mcp/src/index.ts:55-56 | the targets close the command line, in the order given, after every flag |
| Gau.NoOptionsTargetsOnly | servers/gau-mcp/src/index.ts:36-56 | with no options the command line is exactly the target list |
| Gau.ProvidersJoined | servers/gau-mcp/src/index.ts:38 | providers are passed comma-joined when non-empty, and not at all otherwise |
| Gau.BlacklistJoined | servers/gau-mcp/src/index.ts:39 | the blacklist is passed comma-joined when non-empty, and not at all otherwise |
| Gau.NumbersAlwaysPassed | servers/gau-mcp/src/index.ts:49-52 | threads, retries and request_timeout (as "--timeout") are passed whenever given, 0 included |
| Hakrawler.BuildInvocation | servers/hakrawler-mcp/src/index.ts:33-52 | the pushes produce exactly the rendered segments, and the stdin text handed to `buildSpawnOptions` is the URLs one per line with a final newline |
| Hakrawler.NoOptionsNoArgs | servers/hakrawler-mcp/src/index.ts:34-49 | with no options the command line is empty |
| Hakrawler.UrlsNotInArgs | servers/hakrawler-mcp/src/index.ts:34-49 | the command line does not depend on the URLs |
| Hakrawler.NumbersAlwaysPassed | servers/hakrawler-mcp/src/index.ts:36-44 | depth and page_size_limit are passed whenever given, 0 included |
| Hakrawler.TimingsAlwaysPassed | servers/hakrawler-mcp/src/index.ts:46-47 | threads and url_timeout are passed whenever given, 0 included |
| Subfinder.BuildArgs | servers/subfinder-mcp/src/index.ts:33-49 | the pushes produce exactly the rendering of the segment list, in source order |
| Subfinder.ArgsStart | servers/subfinder-mcp/src/index.ts:34 | the command line opens with "-d", the domain, "-silent" |
| Subfinder.SourcesJoined | servers/subfinder-mcp/src/index.ts:36 | sources are passed comma-joined when non-empty, and not at all otherwise |
| Subfinder.ExcludedSourcesJoined | servers/subfinder-mcp/src/index.ts:37 | excluded sources are passed comma-joined when non-empty, and not at all otherwise |
| Subfinder.ResolversJoined | servers/subfinder-mcp/src/index.ts:46 | resolvers are passed comma-joined when non-empty, and not at all otherwise |
| Subfinder.MatchJoined | servers/subfinder-mcp/src/index.ts:47 | match patterns are passed comma-joined when non-empty, and not at all otherwise |
| Subfinder.FilterJoined | servers/subfinder-mcp/src/index.ts:48 | filter patterns are passed comma-joined when non-empty, and not at all otherwise |
| Subfinder.TimeoutTruthy | servers/subfinder-mcp/src/index.ts:44 | a timeout is passed iff it is given and non-zero |
| Subfinder.RateLimitTruthy | servers/subfinder-mcp/src/index.ts:45 | a rate limit is passed iff it is given and non-zero |
| Subfinder.JsonSwitch | servers/subfinder-mcp/src/index.ts:40 | "-oJ" appears iff json is true |
| Subfinder.ActiveSwitch | servers/subfinder-mcp/src/index.ts:41 | "-nW" appears iff active is true |
| Subfinder.CollectSourcesSwitch | servers/subfinder-mcp/src/index.ts:42 | "-cs" appears iff collect_sources is true |
| Subfinder.IpSwitch | servers/subfinder-mcp/src/index.ts:43 | "-oI" appears iff ip is true |
| Asnmap.Lookups | servers/asnmap-mcp/src/index.ts:36-39 | the lookup part holds only "-a", "-i", "-d" and "-org" pairs |
| Asnmap.Outputs | servers/asnmap-mcp/src/index.ts:40-43 | the output part holds only "-json", "-csv", "-v6" and "-r" |
| Asnmap.PushLookups | servers/asnmap-mcp/src/index.ts:36-39 | the four conditional pushes append exactly the lookup part |
| Asnmap.PushOutputs | servers/asnmap-mcp/src/index.ts:40-43 | the four conditional pushes append exactly the output part |
| Asnmap.BuildArgs | servers/asnmap-mcp/src/index.ts:26-45 | with no asn, ip, domain or org the handler returns the error text and builds nothing; otherwise exactly the rendered segments |
| Asnmap.ArgsEnd | servers/asnmap-mcp/src/index.ts:45 | the command line always ends "-silent", "-disable-update-check" |
| Asnmap.AllLookups | servers/asnmap-mcp/src/index.ts:36-39 | several lookups combine, in the order -a, -i, -d, -org, ahead of everything else |
| Asnmap.OutputsAfterLookups | servers/asnmap-mcp/src/index.ts:36-45 | no lookup pair follows the lookup part |
| Amass.BuildArgs | amass-mcp/src/index.ts:35-87 | the pushes interleaved with the throws produce exactly the command (or the error) the specification function gives |
| Amass.SubcommandFirst | amass-mcp/src/index.ts:36 | a built command line starts with the subcommand |
| Amass.EnumShape | amass-mcp/src/index.ts:39-51 | enum fails exactly without a domain; otherwise it starts "enum", "-d", domain, and "-passive" comes next exactly for the passive type |
| Amass.EnumBruteWordlist | amass-mcp/src/index.ts:54-61 | with brute force and a wordlist the command ends "-brute", "-w", wordlist; without brute force nothing but "-passive" follows the domain |
| Amass.IntelChecks | amass-mcp/src/index.ts:64-76 | intel fails without domain and organization, and fails with a domain when WHOIS is not true |
| Amass.IntelWhoisLast | amass-mcp/src/index.ts:83-85 | a built intel command ends in "-whois" exactly when WHOIS is true |
| Amass.IntelOrganizationQuoted | amass-mcp/src/index.ts:80-82 | the organization is passed as "-org" followed by its name in single quotes |
| Amass.FailureDetail | amass-mcp/src/index.ts:97 | the text after the exit code starts with ". Output: ", stdout and stderr, then ". Args:", and ends with the arguments joined by "," |
| Amass.FailureArgsReadBack | amass-mcp/src/index.ts:97 | a failed run's text starts with the prefix, the code, both streams and ". Args:", and the rest splits at "," back into the arguments when none holds a "," |
| Amass.ResultText | amass-mcp/src/index.ts:93-107 | a zero exit reports stdout as it is |
| Amass.FailureNamesCode | amass-mcp/src/index.ts:93-99 | a non-zero exit is reported as text starting "Amass exited with code ", from which the code reads back |
| Dalfox.Middle | servers/dalfox-mcp/src/index.ts:42-47 | the options between the header loop and the parameter loop hold no "-H" or "-p" pair |
| Dalfox.Tail | servers/dalfox-mcp/src/index.ts:51-56 | the options after the parameter loop hold no "-H" or "-p" pair |
| Dalfox.PushMiddle | servers/dalfox-mcp/src/index.ts:42-47 | the pushes append exactly the middle options |
| Dalfox.PushTail | servers/dalfox-mcp/src/index.ts:51-56 | the pushes append exactly the trailing options |
| Dalfox.BuildArgs | servers/dalfox-mcp/src/index.ts:33-56 | an empty or whitespace-only URL fails before anything is built; otherwise the loops and pushes produce exactly the rendered segments |
| Dalfox.ArgsStart | servers/dalfox-mcp/src/index.ts:37 | the command line opens with "url" and the URL |
| Dalfox.HeadersInOrder | servers/dalfox-mcp/src/index.ts:39-41 | the values of the "-H" pairs are exactly the headers, in list order |
| Dalfox.ParamsInOrder | servers/dalfox-mcp/src/index.ts:48-50 | the values of the "-p" pairs are exactly the parameters, in list order |
| Dalfox.NumbersAlwaysPassed | servers/dalfox-mcp/src/index.ts:46-47 | worker and delay are passed whenever given, 0 included |
| Uro.BuildInvocation | servers/uro-mcp/src/index.ts:22-35 | the spread pushes produce exactly the rendered segments, and the stdin text handed to `buildSpawnOptions` is the URLs one per line with a final newline |
| Uro.RenderFlagThenWords | servers/uro-mcp/src/index.ts:25-30 | a spread push renders as the flag followed by every element, or nothing for an empty list |
| Uro.ArgsInFull | servers/uro-mcp/src/index.ts:25-33 | "-w" then each whitelist extension, "-b" then each blacklist extension, "-f" with the comma-joined filters, in that order, empty lists adding nothing |
| Uro.UrlsNotInArgs | servers/uro-mcp/src/index.ts:23-33 | the command line does not depend on the URLs |
| Urldedupe.BuildInvocation | servers/urldedupe-mcp/src/index.ts:23-31 | the pushes produce exactly the rendered segments, and the stdin text handed to `buildSpawnOptions` is the URLs one per line with a final newline |
| Urldedupe.ArgsAreChosenSwitches | servers/urldedupe-mcp/src/index.ts:26-29 | the command line is the subsequence of "-r", "-s", "-qs", "-ne" whose options are set, in that order |
| Urldedupe.NoOptionsNoArgs | servers/urldedupe-mcp/src/index.ts:24-29 | with no switch set the command line is empty |
| Urldedupe.UrlsNotInArgs | servers/urldedupe-mcp/src/index.ts:24-29 | the command line does not depend on the URLs |
| Httpx.PortStrings | servers/httpx-mcp/src/index.ts:26 | one decimal string per port, in order, as `join` writes numbers |
| Httpx.BuildArgs | servers/httpx-mcp/src/index.ts:24-29 | the fixed head, the ports push and the loop over the probes produce exactly the rendered segments |
| Httpx.ArgsInFull | servers/httpx-mcp/src/index.ts:25-29 | "-u", the comma-joined targets, "-silent", then "-p" and the comma-joined ports when there are any, then exactly one "-<probe>" per probe, in order |
| Httpx.SegmentsRendered | servers/httpx-mcp/src/index.ts:25-29 | the rendered array is the fixed head, the optional ports pair, then the rendered probes |
| Httpx.HeadThenPrefixed | servers/httpx-mcp/src/index.ts:27-29 | after the head, position i holds "-" followed by probe i |
| Cero.BuildArgs | servers/cero-mcp/src/index.ts:22-26 | the pushes produce exactly the rendered segments |
| Cero.ArgsInFull | servers/cero-mcp/src/index.ts:23-26 | the target first, then -c, -p (comma-joined) and -t, each left out when 0, absent or an empty list |
| Wpscan.Front | wpscan-mcp/src/index.ts:49-84 | the options before the enumeration hold no "-e" pair |
| Wpscan.BuildArgs | wpscan-mcp/src/index.ts:48-89 | the pushes produce exactly the rendered segments |
| Wpscan.ArgsStart | wpscan-mcp/src/index.ts:49 | the command line opens with "-u" and the URL |
| Wpscan.EnumerateLast | wpscan-mcp/src/index.ts:86-89 | a non-empty enumerate list ends the command line as "-e" and its comma-joined values; an empty one passes no "-e" |
| Wpscan.ThreadsTruthy | wpscan-mcp/src/index.ts:62-64 | max_threads is passed iff it is given and non-zero |
| Wpscan.ResultText | wpscan-mcp/src/index.ts:102-107 | success text is stdout, stderr and "\n wpscan completed successfully" |
| Wpscan.FailureNamesCode | wpscan-mcp/src/index.ts:93-100 | a non-zero exit is reported as text naming the code, which reads back, and ending with stderr |
| Arjun.BuildArgs | servers/arjun-mcp/src/index.ts:23-31 | with neither url nor textFile the call fails before anything is built; otherwise the pushes produce exactly the rendered segments |
| Arjun.ValidAlwaysBuilds | servers/arjun-mcp/src/index.ts:25-26 | arguments the schema admits always pass the guard, and the command line opens with "-u" and the URL |
| Arjun.ChunkSizeFlag | servers/arjun-mcp/src/index.ts:31 | the chunk size is passed as "--chunk-size" iff it is given and non-zero |
| Arjun.RateLimitFlag | servers/arjun-mcp/src/index.ts:30 | the rate limit is passed as "--rate-limit" iff it is given and non-zero |
| Arjun.ChunkSizeNotRateLimit | servers/arjun-mcp/src/index.ts:30-31 | a chunk size alone is never passed as a rate limit |
| Testssl.ConnectTo | testssl-mcp/src/index.ts:76-80 | the connection-target options hold no "--reqheader" pair |
| Testssl.Timeouts | testssl-mcp/src/index.ts:81-83 | the timeout and credential options hold no "--reqheader" pair |
| Testssl.Habits | testssl-mcp/src/index.ts:85-89 | the behaviour switches hold no "--reqheader" pair |
| Testssl.PushConnectTo | testssl-mcp/src/index.ts:76-80 | the pushes append exactly the connection-target options |
| Testssl.PushTimeouts | testssl-mcp/src/index.ts:81-83 | the pushes append exactly the timeouts (when non-zero) and the credentials |
| Testssl.PushHabits | testssl-mcp/src/index.ts:85-89 | the pushes append exactly the behaviour switches |
| Testssl.AddConnectionArgs | testssl-mcp/src/index.ts:75-90 | the caller's list is extended by exactly the connection segments |
| Testssl.ReqheadersInOrder | testssl-mcp/src/index.ts:84 | the "--reqheader" values are exactly the request headers, in list order |
| Testssl.FileArg | testssl-mcp/src/index.ts:96-100 | a given output file contributes only pairs under its own flag |
| Testssl.PushHandling | testssl-mcp/src/index.ts:101-103 | the pushes append exactly the severity and file-handling options |
| Testssl.PushFile | testssl-mcp/src/index.ts:96-100 | one output file is pushed as its flag and checked path, and a refused path ends the call with the traversal error |
| Testssl.PushFiles | testssl-mcp/src/index.ts:96-100 | the five checked pushes succeed exactly when every given path is accepted |
| Testssl.AddOutputArgs | testssl-mcp/src/index.ts:92-104 | the caller's list is extended by exactly the output segments when every path is accepted, and the call fails with the traversal error otherwise |
| Testssl.FinalArgs | testssl-mcp/src/index.ts:28-29 | the arguments start "--color", "0"; a non-empty target is appended last, an absent or empty one is not |
| Testssl.Finish | testssl-mcp/src/index.ts:148-150 | the shared tail of every handler produces exactly the specified command |
| Testssl.OutputPathsGuard | testssl-mcp/src/index.ts:92-104 | a refused output path fails the whole call, whatever the tool; otherwise the tool's own flags directly follow "--color 0" and a non-empty target closes the line |
| Testssl.OwnAfterColour | testssl-mcp/src/index.ts:28-29 | the tool's own flags sit at positions 2 onward and a non-empty target is last |
| Testssl.OutputFileChecked | testssl-mcp/src/index.ts:96 | a JSON output file travels as "--jsonfile" and the path `sanitizePath` returned |
| Testssl.FullScan | testssl-mcp/src/index.ts:146-151 | a full scan passes no flags of its own |
| Testssl.Protocols | testssl-mcp/src/index.ts:163-168 | the protocol scan passes "-p" as its own flag |
| Testssl.ModeFlagInjective | testssl-mcp/src/index.ts:184-190 | distinct cipher modes map to distinct testssl flags |
| Testssl.Ciphers | testssl-mcp/src/index.ts:183-197 | the cipher scan passes the mode's flag, the "-x" pattern and "--show-each" as its own flags |
| Testssl.CipherModeFirst | testssl-mcp/src/index.ts:191-193 | the mode flag comes first, a pattern follows as "-x" and its value |
| Testssl.PushSelected | testssl-mcp/src/index.ts:229-253 | one conditional push per table entry with the flag variable, then the default when nothing was pushed, gives exactly the selected-or-default list |
| Testssl.SelectedOrDefaultMeaning | testssl-mcp/src/index.ts:229-253 | with no request the default alone is passed; otherwise each flag is present exactly when asked for |
| Testssl.SelectedInOrder | testssl-mcp/src/index.ts:232-250 | the requested flags keep the table order |
| Testssl.VulnRequests | testssl-mcp/src/index.ts:232-250 | one request bit per vulnerability flag |
| Testssl.VulnFlagsDistinct | testssl-mcp/src/index.ts:232-250 | the nineteen vulnerability flags are pairwise distinct |
| Testssl.VulnerabilityScan | testssl-mcp/src/index.ts:228-258 | the vulnerability scan passes the requested checks, or "-U" when none is |
| Testssl.VulnerabilitySelection | testssl-mcp/src/index.ts:252-253 | without a request "-U" alone is passed; otherwise each check runs exactly when asked for |
| Testssl.InfoRequests | testssl-mcp/src/index.ts:278-281 | one request bit per server-info flag |
| Testssl.ServerInfoScan | testssl-mcp/src/index.ts:274-291 | the server-info scan passes the requested tests, or "-S", "-h" when none is |
| Testssl.ServerInfoSelection | testssl-mcp/src/index.ts:284-286 | without a request "-S", "-h" is passed; otherwise each test runs exactly when asked for |
| Testssl.MassScanArgs | testssl-mcp/src/index.ts:305-323 | the mass scan produces exactly the specified command |
| Testssl.MassFlags | testssl-mcp/src/index.ts:310-318 | the mode and warning pushes give exactly the mass-scan flags |
| Testssl.MassScanShape | testssl-mcp/src/index.ts:307-322 | a target file outside the working directory is refused; otherwise the command starts with "--file" and the checked path and ends without a target |
| Testssl.FileHead | testssl-mcp/src/index.ts:308-322 | after "--color 0" come "--file" and the path, and no target follows |
| Testssl.MassScanModes | testssl-mcp/src/index.ts:310-311 | "--serial" and "--parallel" are passed exactly for their mode |
| Testssl.MassScanWarnings | testssl-mcp/src/index.ts:314-318 | the warnings pair closes the scan's own flags, "batch" unless another is chosen |
| Testssl.RunResult | testssl-mcp/src/index.ts:31-40 | success exactly for exit code 0, with a non-empty text |
| Testssl.FailureNamesCode | testssl-mcp/src/index.ts:39 | a failed run's error names the exit code, which reads back |
| Gobuster.Spawned | servers/gobuster-mcp/src/index.ts:13-14 | the spawned array is the mode, the mode's arguments unchanged, then "--no-progress", "--no-color", "-q" |
| Gobuster.Target | servers/gobuster-mcp/src/index.ts:54-55 | the required head holds only the target pair and the "-w" wordlist pair |
| Gobuster.RequestSegments | servers/gobuster-mcp/src/index.ts:60-67 | the HTTP request options hold no positional word, only the pairs -m, -H, -c, -U, -P, -a and the switches --random-agent, -r |
| Gobuster.TransportSegments | servers/gobuster-mcp/src/index.ts:74-79 | the connection options hold no positional word, only the pairs --proxy, --timeout, -t, --retry-attempts and the switches -k, --retry |
| Gobuster.PushRequest | servers/gobuster-mcp/src/index.ts:60-67 | the pushes, with the forEach over the headers, append exactly the request options |
| Gobuster.PushTransport | servers/gobuster-mcp/src/index.ts:74-79 | the pushes append exactly the connection options |
| Gobuster.RequestHeadersInOrder | servers/gobuster-mcp/src/index.ts:61 | the "-H" values are exactly the headers, in list order |
| Gobuster.ThreadsTruthy | servers/gobuster-mcp/src/index.ts:77 | the thread count is passed only when non-zero |
| Gobuster.RetryAttemptsTruthy | servers/gobuster-mcp/src/index.ts:79 | the retry count is passed only when non-zero |
| Gobuster.DirFilters | servers/gobuster-mcp/src/index.ts:56-59 | the dir filters are only the pairs -x, -X, -s, -b |
| Gobuster.DirDisplay | servers/gobuster-mcp/src/index.ts:68-72 | the dir display options are only the switches -f, -d, -e, -n, --hide-length |
| Gobuster.PushDirFilters | servers/gobuster-mcp/src/index.ts:56-59 | the pushes append exactly the dir filters |
| Gobuster.PushDirDisplay | servers/gobuster-mcp/src/index.ts:68-72 | the pushes append exactly the dir display options |
| Gobuster.DirArgs | servers/gobuster-mcp/src/index.ts:52-81 | the dir handler spawns exactly the mode "dir" around the rendered dir segments |
| Gobuster.StartOf | servers/gobuster-mcp/src/index.ts:13-55 | every mode's command line starts with the mode, its target pair and the wordlist pair |
| Gobuster.DirStart | servers/gobuster-mcp/src/index.ts:54-55 | the dir command line starts "dir", "-u", url, "-w", wordlist |
| Gobuster.DirHeadersInOrder | servers/gobuster-mcp/src/index.ts:61 | in dir mode the "-H" values are exactly the headers, in list order |
| Gobuster.DirSplit | servers/gobuster-mcp/src/index.ts:54-80 | the dir segments are the head and filters, the request options, then the display and connection options |
| Gobuster.HeadersBetween | servers/gobuster-mcp/src/index.ts:61 | whatever surrounds the request options, when it holds no "-H" pair, the "-H" values are exactly the headers in order |
| Gobuster.RequestRedirectSwitch | servers/gobuster-mcp/src/index.ts:67 | among the request options "-r" is the follow-redirects switch, present iff asked for |
| Gobuster.RequestCookiesPair | servers/gobuster-mcp/src/index.ts:62 | among the request options "-c" carries exactly the cookies |
| Gobuster.DirRedirectSwitch | servers/gobuster-mcp/src/index.ts:67 | in dir mode "-r" is present iff follow_redirect is true |
| Gobuster.DirRedirectNoValue | servers/gobuster-mcp/src/index.ts:67 | in dir mode "-r" never carries a value |
| Gobuster.DirCookiesPair | servers/gobuster-mcp/src/index.ts:62 | in dir mode "-c" carries exactly the cookies |
| Gobuster.DirCookiesNotSwitch | servers/gobuster-mcp/src/index.ts:62 | in dir mode "-c" is never a lone switch |
| Gobuster.WebTail | servers/gobuster-mcp/src/index.ts:73-80 | the options after the request options hold no word and no -H, -r or -c |
| Gobuster.PushWebTail | servers/gobuster-mcp/src/index.ts:73-80 | the pushes append exactly the exclude-length, connection and canonicalisation options |
| Gobuster.VhostArgs | servers/gobuster-mcp/src/index.ts:143-165 | the vhost handler spawns exactly the mode "vhost" around the rendered vhost segments |
| Gobuster.VhostStart | servers/gobuster-mcp/src/index.ts:145-146 | the vhost command line starts "vhost", "-u", url, "-w", wordlist |
| Gobuster.VhostHeadersInOrder | servers/gobuster-mcp/src/index.ts:150 | in vhost mode the "-H" values are exactly the headers, in list order |
| Gobuster.FuzzArgs | servers/gobuster-mcp/src/index.ts:196-218 | the fuzz handler spawns exactly the mode "fuzz" around the rendered fuzz segments |
| Gobuster.FuzzStart | servers/gobuster-mcp/src/index.ts:198-199 | the fuzz command line starts "fuzz", "-u", url, "-w", wordlist |
| Gobuster.FuzzHeadersInOrder | servers/gobuster-mcp/src/index.ts:203 | in fuzz mode the "-H" values are exactly the headers, in list order |
| Gobuster.BucketTail | servers/gobuster-mcp/src/index.ts:243-250 | what follows the file limit holds no word and no "-m" |
| Gobuster.BucketArgs | servers/gobuster-mcp/src/index.ts:239-251 | the s3 and gcs handlers spawn exactly their mode around the rendered bucket segments |
| Gobuster.BucketStart | servers/gobuster-mcp/src/index.ts:241-274 | the bucket modes start with the mode, "-w" and the wordlist |
| Gobuster.BucketFileLimit | servers/gobuster-mcp/src/index.ts:242-275 | maxfiles is passed only when non-zero, as "-m" and its value right after the wordlist |
| Gobuster.DnsDisplay | servers/gobuster-mcp/src/index.ts:106-109 | the dns display options are only the switches -i, -c, --no-fqdn, --wildcard |
| Gobuster.Timing | servers/gobuster-mcp/src/index.ts:110-111 | the closing timing options are only the pairs --timeout and -t |
| Gobuster.DnsArgs | servers/gobuster-mcp/src/index.ts:101-112 | the dns handler spawns exactly the mode "dns" around the rendered dns segments |
| Gobuster.DnsStart | servers/gobuster-mcp/src/index.ts:103-104 | the dns command line starts "dns", "-d", domain, "-w", wordlist |
| Gobuster.DnsResolverPair | servers/gobuster-mcp/src/index.ts:105 | in dns mode "-r" is never a lone switch and carries exactly the given resolver |
| Gobuster.DnsNoLoneResolver | servers/gobuster-mcp/src/index.ts:105 | in dns mode "-r" is never a lone switch |
| Gobuster.DnsResolverValues | servers/gobuster-mcp/src/index.ts:105 | in dns mode the "-r" values are the resolver when one is given, and none otherwise |
| Gobuster.DnsCnameSwitch | servers/gobuster-mcp/src/index.ts:107 | in dns mode "-c" is the show-CNAME switch, present iff asked for, and never carries a value |
| Gobuster.TimingThreads | servers/gobuster-mcp/src/index.ts:111 | in dns and tftp mode the thread count is passed only when non-zero |
| Gobuster.TftpArgs | servers/gobuster-mcp/src/index.ts:299-305 | the tftp handler spawns exactly the mode "tftp" around the rendered tftp segments |
| Gobuster.TftpShape | servers/gobuster-mcp/src/index.ts:300-305 | the tftp command line is the mode, "-s" and the server, "-w" and the wordlist, at most two timing pairs, then the trailer |
| Smuggler.Invocation | servers/smuggler-mcp/src/index.ts:20-21 | the argument array is the script path, "-u", the URL, then the extra arguments unchanged (none when absent) |
| Smuggler.Lead | servers/smuggler-mcp/src/index.ts:41-42 | the literal "] Potential CL.TE " (or "TE.CL ") is 18 characters, lower case, on one line |
| Smuggler.WordRun | servers/smuggler-mcp/src/index.ts:41-42 | the `\w` run at the start of a text fits in the text |
| Smuggler.WordRunSpec | servers/smuggler-mcp/src/index.ts:41-42 | the run holds only word characters and stops at the first other character |
| Smuggler.TailAt | servers/smuggler-mcp/src/index.ts:41-42 | " (<word>)" at a position captures a non-empty word and fits in the text |
| Smuggler.LineEnd | servers/smuggler-mcp/src/index.ts:41-42 | the end of the line `.` may not cross lies between the start and the end of the text |
| Smuggler.LineEndSpec | servers/smuggler-mcp/src/index.ts:41-42 | no line terminator stands before the line's end, and one stands there unless the text ends |
| Smuggler.LastTail | servers/smuggler-mcp/src/index.ts:41-42 | the greedy `.*` settles on a position in range where " (<word>)" matches |
| Smuggler.LastTailSpec | servers/smuggler-mcp/src/index.ts:41-42 | the tail chosen is the last one before the line's end, and none is chosen only when there is none |
| Smuggler.MatchAt | servers/smuggler-mcp/src/index.ts:41-42 | a match at a position starts there with "[+]" or "[!]" and the lead, and ends within the text |
| Smuggler.FirstMatch | servers/smuggler-mcp/src/index.ts:45-48 | `exec` from lastIndex finds a non-empty match at or after lastIndex |
| Smuggler.FirstMatchIsMatch | servers/smuggler-mcp/src/index.ts:45-48 | the match `exec` returns is the pattern's match at the position it stopped at |
| Smuggler.FirstMatchLeftmost | servers/smuggler-mcp/src/index.ts:45-48 | the match found is the leftmost: no earlier position matches, and none at all when nothing is found |
| Smuggler.FirstMatchReaches | servers/smuggler-mcp/src/index.ts:45-48 | any position that matches bounds the start of the match found |
| Smuggler.AllMatchesStep | servers/smuggler-mcp/src/index.ts:45-47 | one loop step yields the entry of the next match, then the search resumes where that match ended |
| Smuggler.ParseResults | servers/smuggler-mcp/src/index.ts:38-53 | the two lists are exactly the successive CL.TE and TE.CL matches of the output |
| Smuggler.Collect | servers/smuggler-mcp/src/index.ts:45-50 | one `while` loop over `exec` pushes exactly one entry per successive match |
| Smuggler.SeverityFromSign | servers/smuggler-mcp/src/index.ts:46-49 | the severity is "high" exactly for "[+]" and "medium" for "[!]" |
| Smuggler.MutationIsLast | servers/smuggler-mcp/src/index.ts:41-42 | a match is "[", the sign, the lead in any letter case, and the word of the last " (<word>)" on its line |
| Smuggler.NextMatchOnLaterLine | servers/smuggler-mcp/src/index.ts:41-45 | a later match starts only after a line terminator: at most one entry per line |
| Smuggler.SingleFinding | servers/smuggler-mcp/src/index.ts:41-49 | a one-line report "[<sign>]<lead><free> (<word>)", lead in any letter case, yields exactly one entry with that word and the sign's severity |
| Smuggler.SingleMatch | servers/smuggler-mcp/src/index.ts:41-49 | a head at the front and a last tail closing the only line give exactly one entry |
| Smuggler.WithFindings | servers/smuggler-mcp/src/index.ts:28-30 | with no entries the text is unchanged |
| Smuggler.Response | servers/smuggler-mcp/src/index.ts:22-32 | the tool fails exactly on a non-zero exit |
| Smuggler.Handle | servers/smuggler-mcp/src/index.ts:23-32 | scanning the text and appending in place yields exactly the specified response |
| Smuggler.NoFindingsUnchanged | servers/smuggler-mcp/src/index.ts:23-32 | with no entry of either kind the text is exactly what formatToolResult produced |
| Smuggler.FindingsCounts | servers/smuggler-mcp/src/index.ts:29 | with some entry the original text is kept as a prefix and both counts read back as the list lengths |
| Smuggler.FindingsIffEntries | servers/smuggler-mcp/src/index.ts:28-30 | the findings section is appended exactly when some entry was found |
| Gowitness.Window | gowitness-mcp/src/index.ts:52-53 | the window size options are flag-value pairs only |
| Gowitness.Pacing | gowitness-mcp/src/index.ts:55-56 | the timeout and delay options are flag-value pairs only |
| Gowitness.Writers | gowitness-mcp/src/index.ts:60-61 | the writer options are only "--write-db" and "--write-jsonl" |
| Gowitness.WriteNone | gowitness-mcp/src/index.ts:64-66 | the fallback is nothing or the lone "--write-none" |
| Gowitness.Frame | gowitness-mcp/src/index.ts:52-54 | the window size and screenshot directory are flag-value pairs only |
| Gowitness.Look | gowitness-mcp/src/index.ts:57-58 | the full-page and format options never hold "--write-none" |
| Gowitness.ShotOptions | gowitness-mcp/src/index.ts:52-62 | the options between the URL and the fallback never hold "--write-none" |
| Gowitness.PushFrame | gowitness-mcp/src/index.ts:52-54 | the pushes append exactly the frame options |
| Gowitness.PushWindow | gowitness-mcp/src/index.ts:52-53 | the pushes append exactly the window size options |
| Gowitness.PushPacing | gowitness-mcp/src/index.ts:55-56 | the pushes append exactly the timeout and delay options |
| Gowitness.PushLook | gowitness-mcp/src/index.ts:57-58 | the pushes append exactly the full-page and format options |
| Gowitness.PushWriters | gowitness-mcp/src/index.ts:60-61 | the pushes append exactly the requested writers |
| Gowitness.PushWriteNone | gowitness-mcp/src/index.ts:64-66 | the fallback push appends exactly the fallback |
| Gowitness.ShotArgs | gowitness-mcp/src/index.ts:50-66 | the screenshot handler's pushes produce exactly the rendered segments |
| Gowitness.ShotHeadRender | gowitness-mcp/src/index.ts:50 | the head renders as "scan", "single", "--url", url |
| Gowitness.ShotStart | gowitness-mcp/src/index.ts:50 | the screenshot command line starts "scan", "single", "--url", url |
| Gowitness.ShotWriteNone | gowitness-mcp/src/index.ts:64-66 | "--write-none" is passed exactly when neither writer is requested, and then last |
| Gowitness.ShotOutcome | gowitness-mcp/src/index.ts:68-126 | a non-zero exit fails with the exit-code error; otherwise without return_binary the saved text is returned, and a file is read only with return_binary |
| Gowitness.BinaryShotConfined | gowitness-mcp/src/index.ts:75-110 | a binary shot is read from the chosen image of the listing, and only when its path stays inside the screenshot directory |
| Gowitness.Underscored | gowitness-mcp/src/index.ts:317 | the same length; ASCII letters and digits kept, every other character "_" |
| Gowitness.HostnameFromUrl | gowitness-mcp/src/index.ts:314-321 | an unparsable URL gives "unknown"; the result holds only ASCII letters, digits and "_" |
| Gowitness.UnderscoredIdempotent | gowitness-mcp/src/index.ts:317 | replacing twice is replacing once |
| Gowitness.DomainParts | gowitness-mcp/src/index.ts:86 | the "_"-separated parts kept are non-empty |
| Gowitness.SelectScreenshot | gowitness-mcp/src/index.ts:79-106 | the only failure is "Screenshot file not found after gowitness execution" |
| Gowitness.SelectedIsImage | gowitness-mcp/src/index.ts:79-106 | the chosen file is an image of the listing, and one is chosen exactly when the listing holds an image |
| Gowitness.HostMatchFirst | gowitness-mcp/src/index.ts:79-82 | the first image naming the hostname wins |
| Gowitness.PartMatchFirst | gowitness-mcp/src/index.ts:84-92 | failing that, the first image naming a non-empty part of it is chosen |
| Gowitness.LastImageFallback | gowitness-mcp/src/index.ts:94-102 | failing both, the last image of the listing is chosen |
| Gowitness.ReportSegments | gowitness-mcp/src/index.ts:140 | the report command starts with "report" |
| Gowitness.ReportArgs | gowitness-mcp/src/index.ts:139-143 | the report handler's pushes produce exactly the rendered segments |
| Gowitness.ReportShape | gowitness-mcp/src/index.ts:140-143 | the report command is "report" and at most two flag pairs; the output format is never passed |
| Gowitness.ReportOutcome | gowitness-mcp/src/index.ts:145-157 | failure exactly on a non-zero exit; success ends "\nGowitness report generated successfully" |
| Gowitness.Tuning | gowitness-mcp/src/index.ts:205-206 | the thread count and format are flag-value pairs only |
| Gowitness.BatchOptions | gowitness-mcp/src/index.ts:201-208 | the batch options never hold "--write-none" |
| Gowitness.PushTuning | gowitness-mcp/src/index.ts:205-206 | the pushes append exactly the thread count and format |
| Gowitness.BatchArgs | gowitness-mcp/src/index.ts:198-212 | the batch handler's pushes produce exactly the rendered segments |
| Gowitness.BatchHeadRender | gowitness-mcp/src/index.ts:198-200 | the head renders as "scan", "file", "-f", the URL file, "--screenshot-path", the checked directory |
| Gowitness.BatchStart | gowitness-mcp/src/index.ts:198-200 | the batch command line names the URL file and the checked directory first |
| Gowitness.BatchWriteNone | gowitness-mcp/src/index.ts:210-212 | "--write-none" is passed exactly when no writer is requested, and then last |
| Gowitness.PlanBatch | gowitness-mcp/src/index.ts:189-193 | the call fails with the traversal error exactly when the screenshot path leaves the working directory, before anything is written |
| Gowitness.BatchFileLines | gowitness-mcp/src/index.ts:193 | the URL file splits back into the URL list when no URL holds a newline |
| Gowitness.BatchOutcome | gowitness-mcp/src/index.ts:214-231 | failure exactly on a non-zero exit, with the batch prefix in front of the exit-code error |
| Gowitness.BatchCount | gowitness-mcp/src/index.ts:226 | the URL count reads back from the batch text |
| Gowitness.ReadBinaryPath | gowitness-mcp/src/index.ts:243-247 | the only failure is the traversal error |
| Gowitness.ReadBinaryConfined | gowitness-mcp/src/index.ts:244-247 | a read is allowed exactly when the file lands on or below the screenshot directory (default "./screenshots") |
| Gowitness.ListScreenshots | gowitness-mcp/src/index.ts:277-285 | the directory is checked against the working directory; the files kept are exactly the images of the listing |
| Scoutsuite.Prefer | scoutsuite-mcp/src/index.ts:58-60 | a set, non-empty environment variable wins over the parameter; otherwise the parameter stands |
| Scoutsuite.FlagIf | scoutsuite-mcp/src/index.ts:55 | a truthy string adds only the lone flag |
| Scoutsuite.Ranges | scoutsuite-mcp/src/index.ts:65-68 | the region and IP-range options are flag-value pairs only |
| Scoutsuite.PushList | scoutsuite-mcp/src/index.ts:41-53 | the indexed loop appends the flag and then every element in order, and nothing for an absent or empty list |
| Scoutsuite.PushScope | scoutsuite-mcp/src/index.ts:40-53 | the pushes append exactly the scope group |
| Scoutsuite.PushCredentials | scoutsuite-mcp/src/index.ts:57-64 | the pushes append exactly the credential group |
| Scoutsuite.PushAuth | scoutsuite-mcp/src/index.ts:54-64 | the pushes append exactly the authentication group |
| Scoutsuite.PushRanges | scoutsuite-mcp/src/index.ts:65-68 | the pushes append exactly the region and IP-range group |
| Scoutsuite.BuildArgs | scoutsuite-mcp/src/index.ts:38-68 | the handler's pushes produce exactly the rendered segments |
| Scoutsuite.ArgsLayout | scoutsuite-mcp/src/index.ts:38-68 | the command line is "aws", "--force", "--no-browser", then the scope, authentication and range groups in that order |
| Scoutsuite.ListRender | scoutsuite-mcp/src/index.ts:41-53 | a non-empty list renders as its flag followed by every element in order; an absent or empty one renders to nothing |
| Scoutsuite.ScopeRender | scoutsuite-mcp/src/index.ts:40-53 | the scope is the worker count, then "--services" and each service, then "--skip" and each skipped service |
| Scoutsuite.ScopeHasNoCredential | scoutsuite-mcp/src/index.ts:40-53 | the scope group pairs no value with any other flag |
| Scoutsuite.TextOptValues | scoutsuite-mcp/src/index.ts:54 | a text option contributes its value under its own name exactly when truthy, and nothing under any other |
| Scoutsuite.CredentialPrecedence | scoutsuite-mcp/src/index.ts:57-64 | each credential on the command line is the environment's when set and non-empty, else the parameter's when non-empty, else absent |
| Scoutsuite.EnvironmentWins | scoutsuite-mcp/src/index.ts:58-62 | a set AWS_ACCESS_KEY_ID is the only access key id passed, whatever the parameter says |
| Scoutsuite.CredentialValue | scoutsuite-mcp/src/index.ts:62-64 | the credential flags take their values from the credential group alone |
| Scoutsuite.ExitMessage | scoutsuite-mcp/src/index.ts:77 | the error starts "scoutsuite exited with code " |
| Scoutsuite.Outcome | scoutsuite-mcp/src/index.ts:74-92 | a non-zero exit throws the exit message; output naming no report throws "Could not extract report path from ScoutSuite output"; success is the findings of the report file the output names |
| ScoutsuiteParser.NameRun | scoutsuite-mcp/src/parser.ts:68 | the longest run of word characters and "-" from a position |
| ScoutsuiteParser.PathEnd | scoutsuite-mcp/src/parser.ts:68 | a path end found gives a path of the expected directory, name and extension |
| ScoutsuiteParser.PathShape | scoutsuite-mcp/src/parser.ts:68 | the directory, a non-empty name run and the extension make a report path |
| ScoutsuiteParser.OccursJoin | scoutsuite-mcp/src/parser.ts:68 | a concatenation occurs at a position exactly when both halves occur in turn |
| ScoutsuiteParser.CaptureAt | scoutsuite-mcp/src/parser.ts:68 | a capture at a position is a report path preceded there by the lead text |
| ScoutsuiteParser.FirstCapture | scoutsuite-mcp/src/parser.ts:68-69 | a capture is a report path that occurs after the lead text |
| ScoutsuiteParser.FirstCaptureLeftmost | scoutsuite-mcp/src/parser.ts:69 | the leftmost match is the one captured |
| ScoutsuiteParser.FirstCaptureNone | scoutsuite-mcp/src/parser.ts:69-70 | nothing is captured exactly when the pattern matches nowhere |
| ScoutsuiteParser.NameRunExact | scoutsuite-mcp/src/parser.ts:68 | a run ended by a non-name character has exactly its length |
| ScoutsuiteParser.PathEndOf | scoutsuite-mcp/src/parser.ts:68 | a report path in the text is read back whole |
| ScoutsuiteParser.CaptureRoundTrip | scoutsuite-mcp/src/parser.ts:68-70 | text opening with the lead and a path yields that path, whatever follows |
| ScoutsuiteParser.ExtractReportJsPath | scoutsuite-mcp/src/parser.ts:67-71 | a result is a "scoutsuite-report/scoutsuite-results/scoutsuite_results_<name>.js" path announced by "Saving data to " |
| ScoutsuiteParser.ReportRoundTrip | scoutsuite-mcp/src/parser.ts:67-71 | "Saving data to " and a report path yield that path, whatever follows |
| ScoutsuiteParser.SpaceRun | scoutsuite-mcp/src/parser.ts:38 | the longest run of white space from a position |
| ScoutsuiteParser.OpenAt | scoutsuite-mcp/src/parser.ts:38 | the object opens at a "{" after the name, spaces, "=" and spaces |
| ScoutsuiteParser.LastBrace | scoutsuite-mcp/src/parser.ts:38 | the index of the last "}", and none exactly when the text holds none |
| ScoutsuiteParser.TailEndsAtLastBrace | scoutsuite-mcp/src/parser.ts:38 | a brace followed only by an optional ";" and white space is the last brace |
| ScoutsuiteParser.OpenFrom | scoutsuite-mcp/src/parser.ts:38 | the assignment found opens a "{" before the closing brace |
| ScoutsuiteParser.ObjectAssigned | scoutsuite-mcp/src/parser.ts:38-41 | the captured object runs from "{" to the last "}", which only the optional ";" and white space follow |
| ScoutsuiteParser.OpenLaidOut | scoutsuite-mcp/src/parser.ts:37-38 | the name, " = " and "{" open the object right after the equals sign |
| ScoutsuiteParser.TailLaidOut | scoutsuite-mcp/src/parser.ts:37-38 | ";" and a line break after the brace make it the last brace |
| ScoutsuiteParser.ObjectAssignedWrapped | scoutsuite-mcp/src/parser.ts:37-38 | an assignment laid out as ScoutSuite writes it gives the object back |
| ScoutsuiteParser.Captured | scoutsuite-mcp/src/parser.ts:38 | the object assigned to scoutsuite_results opens with "{" and closes with "}" |
| ScoutsuiteParser.CapturedWrapped | scoutsuite-mcp/src/parser.ts:37-38 | "scoutsuite_results = " an object and ";" gives that object back |
| ScoutsuiteParser.Keys | scoutsuite-mcp/src/parser.ts:56-60 | an object has one key per member; values other than objects, arrays and strings have none |
| ScoutsuiteParser.Entries | scoutsuite-mcp/src/parser.ts:53 | an object's entries are its members in order |
| ScoutsuiteParser.Collected | scoutsuite-mcp/src/parser.ts:53-62 | the only error the loop throws is reading findings of a null service |
| ScoutsuiteParser.CollectedErrSticks | scoutsuite-mcp/src/parser.ts:53-62 | once the loop has thrown, later services change nothing |
| ScoutsuiteParser.CollectFindings | scoutsuite-mcp/src/parser.ts:51-64 | the loop over the services' entries leaves exactly the collected dictionary or the null-service error |
| ScoutsuiteParser.CollectedNext | scoutsuite-mcp/src/parser.ts:53-61 | one more service adds its listing when it has findings, throws when it is null, and changes nothing otherwise |
| ScoutsuiteParser.CollectedErr | scoutsuite-mcp/src/parser.ts:53-57 | the loop throws exactly when some service is null |
| ScoutsuiteParser.CollectedIncludes | scoutsuite-mcp/src/parser.ts:54-61 | every service with findings is in the result |
| ScoutsuiteParser.CollectedStep | scoutsuite-mcp/src/parser.ts:53-61 | one more service keeps every name listed so far |
| ScoutsuiteParser.CollectedValue | scoutsuite-mcp/src/parser.ts:54-61 | each listed service has findings in the input and maps to them, whole or as their names |
| ScoutsuiteParser.ListingShape | scoutsuite-mcp/src/parser.ts:58-60 | listings are the findings whole exactly with a full report, and their key names otherwise |
| ScoutsuiteParser.ServicesOf | scoutsuite-mcp/src/parser.ts:50-53 | success is the non-null "services" member of an object |
| ScoutsuiteParser.FindingsFromReport | scoutsuite-mcp/src/parser.ts:34-64 | no assignment throws "Could not extract scoutsuite_results from report file"; a parse failure throws the parse prefix and message; success is the loop over the parsed services |
| SeclistsServer.SafePathAsWritten | seclists-mcp/src/index.ts:37-43 | the containment check as written: success is the joined path, which starts with the root as a plain string; the only failure is the traversal error |
| SeclistsServer.SafePath | seclists-mcp/src/index.ts:37-43 | the corrected check: success is the root itself or a path below it past a "/"; the only failure is the traversal error |
| SeclistsServer.JoinUnderRoot | seclists-mcp/src/index.ts:38 | joining a user path onto a normal absolute root gives "/" and the names reached, with the user path's trailing "/" kept |
| SeclistsServer.RootThenUser | seclists-mcp/src/index.ts:38 | joining two non-empty paths normalizes them with a "/" between |
| SeclistsServer.SafePathMeaning | seclists-mcp/src/index.ts:37-43 | the corrected check accepts, with the joined path, exactly the user paths whose names stay at or below the root |
| SeclistsServer.SafePathAsWrittenWeaker | seclists-mcp/src/index.ts:39 | the plain-prefix check accepts everything the corrected check accepts, with the same path |
| SeclistsServer.SafePathAsWrittenEscapes | seclists-mcp/src/index.ts:38-39 | with root "/s", "../s2" reaches the sibling "/s2"; the check as written accepts it and the corrected check refuses it |
| SeclistsServer.SiblingPath | seclists-mcp/src/index.ts:38 | joining "/s" and "../s2" gives "/s2" |
| SeclistsServer.JoinedNamesOf | seclists-mcp/src/index.ts:38 | the names `stat` reads off `join(root, userPath)` are the user path's names folded onto the root's |
| SeclistsServer.AsWrittenInside | seclists-mcp/src/index.ts:37-43 | when the joined names stay at or below the root, the check as written and the corrected check agree and accept the joined path |
| SeclistsServer.AsWrittenOutside | seclists-mcp/src/index.ts:37-43 | whatever the check as written accepts outside the root is `stat`ed in the rest of the file system, at the names the join reaches |
| SeclistsServer.CategoryNamesMembers | seclists-mcp/src/index.ts:52-54 | the names kept are exactly those of the visible top-level directories other than node_modules |
| SeclistsServer.ListCategories | seclists-mcp/src/index.ts:50-61 | the reply is "SecLists categories (" and the number of visible top-level directories other than node_modules, "):", a blank line, then exactly those directory names in sorted order, one per line |
| SeclistsServer.CategoriesMeaning | seclists-mcp/src/index.ts:51-55 | the categories are sorted, and are exactly the visible top-level directories other than node_modules, each once per entry |
| SeclistsServer.DirLines | seclists-mcp/src/index.ts:104 | one folder line per directory, in order |
| SeclistsServer.FileLines | seclists-mcp/src/index.ts:107 | one line per file with its name and size, in order |
| SeclistsServer.WordlistsReply | seclists-mcp/src/index.ts:75-113 | the path is gated by the check as written: a path it refuses gives the traversal error; a path whose `stat` fails gives the ENOENT/ENOTDIR error for the joined path; a file gives the "is not a directory" line; success only for an entry `stat` finds |
| SeclistsServer.ListWordlists | seclists-mcp/src/index.ts:75-113 | the handler, with its collecting loop, answers exactly the listing reply |
| SeclistsServer.NothingVisible | seclists-mcp/src/index.ts:88-97 | nothing is collected exactly when every entry is hidden |
| SeclistsServer.ContentsEmpty | seclists-mcp/src/index.ts:102-111 | a directory is listed as "(empty)" exactly when all its entries are hidden |
| SeclistsServer.FindFiles | seclists-mcp/src/index.ts:21-34 | the recursion appends exactly the root-relative paths of the matching files, in readdir order, skipping .git and node_modules |
| SeclistsServer.FindIn | seclists-mcp/src/index.ts:25-31 | one entry appends its own path when it is a matching file, and its search results when it is a directory not skipped |
| SeclistsServer.SearchText | seclists-mcp/src/index.ts:126-134 | the reply holds the full count, the note "showing first" with the limit exactly when the count exceeds it, and the first limit matches; a negative limit shows all but that many matches from the end and always carries the note |
| SeclistsServer.Search | seclists-mcp/src/index.ts:125-136 | the handler searches from the root and answers the cut list, with limit 50 when none is given |
| SeclistsServer.GetPath | seclists-mcp/src/index.ts:147-158 | the path is gated by the check as written: a refused path gives the traversal error; for an accepted one the reply is "Absolute path: ", the joined path, "Size: " and the size, and "Type: directory" or "Type: file" when `stat` finds the entry, and the `stat` error otherwise |
| SeclistsServer.ReadText | seclists-mcp/src/index.ts:183-203 | a zero limit gives the counts alone; otherwise the counts, a line break, "Showing first N lines:" and a blank line when the file has more lines than the limit (a lone line break when it has not), then the preview |
| SeclistsServer.ReadTextNote | seclists-mcp/src/index.ts:196-202 | with a non-zero limit, the text after the counts starts with "Showing first N lines:" exactly when the file has more lines than the limit |
| SeclistsServer.ReadWordlist | seclists-mcp/src/index.ts:170-205 | the path is gated by the check as written: a path it refuses gives the traversal error; a path whose `stat` fails gives the `stat` error for the joined path; a directory gives the "is a directory" refusal; success only for an entry `stat` finds |
| SeclistsServer.HandlersOutside | seclists-mcp/src/index.ts:37-43 | when the check as written lets a path out of the root, no handler answers the traversal error: whatever exists there is sized by get-path, listed when a directory and read when a file; only when nothing is there do all three answer the `stat` error |
| SeclistsServer.HandlersSibling | seclists-mcp/src/index.ts:37-43 | under the root "/s", with an entry at the sibling "/s2", the path "../s2" gets "Absolute path: /s2" with its size and type, the sibling directory's listing, or the sibling file's contents |
| SeclistsServer.PreviewWhole | seclists-mcp/src/index.ts:196 | a limit at or above the line count previews the whole file |
| SeclistsServer.PreviewPrefix | seclists-mcp/src/index.ts:196-199 | a smaller positive limit previews the first lines, the rest of the file following a line break |
| SeclistsTool.DefaultBase | packages/mcp-shared/src/seclists.ts:7 | the default root is "/opt/seclists" |
| SeclistsTool.BoundReached | packages/mcp-shared/src/seclists.ts:28-32 | once the bound is reached the remaining entries add nothing |
| SeclistsTool.FoundSplit | packages/mcp-shared/src/seclists.ts:31-40 | the search over the entries is the search over a prefix followed by the rest |
| SeclistsTool.CapFull | packages/mcp-shared/src/seclists.ts:28 | a full result list is not extended |
| SeclistsTool.BoundedStep | packages/mcp-shared/src/seclists.ts:31-40 | one more entry, capped, is the capped search of the longer prefix |
| SeclistsTool.FindFilesBounded | packages/mcp-shared/src/seclists.ts:21-42 | a full list is returned as is; otherwise the list followed by the matching paths, cut at the bound |
| SeclistsTool.SearchMatches | packages/mcp-shared/src/seclists.ts:84 | at most 50 matches are reported |
| SeclistsTool.SearchMatchesSound | packages/mcp-shared/src/seclists.ts:31-39 | every reported path is a matching file reachable without entering .git or node_modules |
| SeclistsTool.SearchMatchesComplete | packages/mcp-shared/src/seclists.ts:31-39 | while the bound is not reached every such matching file is reported |
| SeclistsTool.TargetPath | packages/mcp-shared/src/seclists.ts:81-102 | an empty path is the root; any other is the sanitized path |
| SeclistsTool.MatchLines | packages/mcp-shared/src/seclists.ts:93 | one line per match, the root, "/" and the match |
| SeclistsTool.SearchReply | packages/mcp-shared/src/seclists.ts:80-96 | a refused path gives the traversal error |
| SeclistsTool.ListLines | packages/mcp-shared/src/seclists.ts:139 | one indented line per directory |
| SeclistsTool.SizedLines | packages/mcp-shared/src/seclists.ts:142 | one indented line per file with its name and size |
| SeclistsTool.ListReply | packages/mcp-shared/src/seclists.ts:100-148 | a refused path gives the traversal error |
| SeclistsTool.ToolReply | packages/mcp-shared/src/seclists.ts:78-148 | a non-empty pattern selects the search; otherwise the listing |
| SeclistsTool.ListWordlists | packages/mcp-shared/src/seclists.ts:78-148 | the handler, with its loops, answers exactly the tool reply |
| SeclistsTool.RootBaseNames | packages/mcp-shared/src/sanitize.ts:31-40 | the root's own path resolves to the root's names |
| SeclistsTool.TargetMeaning | packages/mcp-shared/src/seclists.ts:100-102 | a non-empty path is refused exactly when its names leave the root, and otherwise names the directory reached |
| SeclistsTool.EscapeRefused | packages/mcp-shared/src/seclists.ts:81-102 | a path leaving the root is refused by the search and the listing alike |
| SeclistsTool.SearchWholeTree | packages/mcp-shared/src/seclists.ts:81-93 | with no path the search covers the whole tree, paths relative to the root |
| SeclistsTool.ListRoot | packages/mcp-shared/src/seclists.ts:100-146 | with no path the root's entries are listed under "SecLists categories:" |
| DirTree.FindChild | seclists-mcp/src/index.ts:77 | the child found has the name; none exactly when no child has it |
| DirTree.Walk | seclists-mcp/src/index.ts:77 | a missing name is ENOENT; a name below a file, or a trailing "/" after one, is ENOTDIR |
| DirTree.StatPath | seclists-mcp/src/index.ts:77 | a path at or below the root is walked down the tree from the root; any other path is answered by the rest of the file system |
| DirTree.StatBase | packages/mcp-shared/src/seclists.ts:104 | the root's own path finds the root |
| DirTree.Paths | seclists-mcp/src/index.ts:30 | one path per result, its names joined with "/" |
| DirTree.PathsAppend | seclists-mcp/src/index.ts:30 | paths of a concatenation are the concatenated paths |
| DirTree.FoundStep | seclists-mcp/src/index.ts:24-32 | one more entry adds what is found at that entry |
| DirTree.FoundAppend | seclists-mcp/src/index.ts:24-32 | searching a list of entries is searching its two halves in turn |
| DirTree.FoundSound | seclists-mcp/src/index.ts:24-32 | every result is a matching file reachable without entering .git or node_modules |
| DirTree.FoundComplete | seclists-mcp/src/index.ts:24-32 | every such matching file is found |
| DirTree.Cap | seclists-mcp/src/index.ts:128 | at most the bound, the start of the list, and all of it when it fits |
| DirTree.CapCap | packages/mcp-shared/src/seclists.ts:28-38 | cutting before appending and cutting after agree |
| DirTree.Insert | seclists-mcp/src/index.ts:99-100 | insertion adds exactly the one element |
| DirTree.Sort | seclists-mcp/src/index.ts:99-100 | the stable sort is a permutation |
| DirTree.InsertSorted | seclists-mcp/src/index.ts:99-100 | inserting into a sorted list keeps it sorted |
| DirTree.SortSorted | seclists-mcp/src/index.ts:99-100 | under a total, transitive order the result is sorted |
| DirTree.CodeUnitLeTotal | seclists-mcp/src/index.ts:99 | the default string order is total |
| DirTree.CodeUnitLeTransitive | seclists-mcp/src/index.ts:99 | the default string order is transitive |
| DirTree.CodeUnitLeAntisymmetric | seclists-mcp/src/index.ts:99 | the default string order is antisymmetric |
| DirTree.ByName | seclists-mcp/src/index.ts:100 | files are ordered by their names under the collation |
| DirTree.ByNameOrder | seclists-mcp/src/index.ts:100 | a total, transitive collation orders files totally and transitively |
| DirTree.DirNamesMembers | seclists-mcp/src/index.ts:89-92 | the directories collected are exactly the visible ones, with "/" appended |
| DirTree.FileEntriesMembers | seclists-mcp/src/index.ts:89-95 | the files collected are exactly the visible ones |
| DirTree.Collect | seclists-mcp/src/index.ts:84-100 | the loop leaves the visible directories sorted and the visible files sorted by name |
| DirTree.CollectedGroups | seclists-mcp/src/index.ts:88-100 | the sorted groups are sorted permutations of the visible directories and files |
| DirTree.ListingText | seclists-mcp/src/index.ts:102-111 | the listing starts with its header |
| DirTree.ListingEmpty | seclists-mcp/src/index.ts:109-111 | the listing is the header and "(empty)" exactly when there are no lines |
| Argv.Render | servers/naabu-mcp/src/index.ts:37-55 | the pushed strings, in order: a flag with its value renders as two strings, anything else as one |
| Argv.RenderAppend | servers/naabu-mcp/src/index.ts:39-55 | pushing two groups one after the other renders as the two renderings in turn |
| Argv.EachPair | servers/dalfox-mcp/src/index.ts:40 | one flag-value pair per element, in order |
| Argv.Words | servers/uro-mcp/src/index.ts:26 | one bare word per element, in order |
| Argv.RenderWords | servers/uro-mcp/src/index.ts:26 | bare words render as themselves |
| Argv.Prefixed | servers/httpx-mcp/src/index.ts:28 | one argument per element, the prefix followed by the element |
| Argv.PushText | servers/naabu-mcp/src/index.ts:39 | appends exactly the flag and value when the value is non-empty, nothing otherwise |
| Argv.PushNum | servers/naabu-mcp/src/index.ts:40 | appends exactly the flag and the number whenever it is given, 0 included |
| Argv.PushNumTruthy | scoutsuite-mcp/src/index.ts:40 | appends exactly the flag and the number when it is given and not 0 |
| Argv.PushSwitch | servers/naabu-mcp/src/index.ts:47 | appends exactly the lone flag when the switch is on |
| Argv.PushJoined | servers/subfinder-mcp/src/index.ts:36 | appends exactly the flag and the comma-joined list when the list is non-empty |
| Argv.PushEach | servers/dalfox-mcp/src/index.ts:40 | the loop appends one pair per element, in order |
| Argv.PushFlagThenAll | servers/uro-mcp/src/index.ts:26 | appends exactly the flag followed by every element, when the list is non-empty |
| Argv.PushWords | servers/uro-mcp/src/index.ts:26 | appends exactly the elements as bare words |
| Argv.PushPrefixed | servers/httpx-mcp/src/index.ts:28 | the loop appends exactly one prefixed argument per element |
| Argv.ValuesOfEachPair | servers/dalfox-mcp/src/index.ts:40 | repeated pairs keep every value, in list order |
| Argv.ValuesBetween | servers/dalfox-mcp/src/index.ts:40-49 | a repeated flag among pieces free of it reads back exactly the list |
| Argv.ChosenIsSubsequence | servers/urldedupe-mcp/src/index.ts:26-29 | the switches passed keep the order in which they are tested |
| Argv.SwitchChosen | servers/urldedupe-mcp/src/index.ts:26 | one switch renders as the choice of its single name |
| Argv.ChosenMembership | servers/urldedupe-mcp/src/index.ts:26-29 | with distinct names, a switch is passed exactly when it is on |
| Argv.ChosenWithin | servers/urldedupe-mcp/src/index.ts:26-29 | only the listed switches are passed |
| Argv.ChosenNone | servers/urldedupe-mcp/src/index.ts:26-29 | no switch is passed when none is on |
| Argv.UrlLinesSplit | servers/hakrawler-mcp/src/index.ts:51 | splitting the stdin text at line breaks gives the URLs and one empty piece after the last newline |
| Js.OrElse | packages/mcp-shared/src/env.ts:6 | the first string unless it is empty; empty only when both are |
| Js.OptOrElse | packages/mcp-shared/src/transport.ts:41 | a non-empty given string, else the fallback |
| Js.NatToString | packages/mcp-shared/src/transport.ts:41 | decimal digits, at least one, with no leading zero |
| Js.IntToString | servers/naabu-mcp/src/index.ts:40 | at least one character, a leading "-" exactly for a negative number |
| Js.ParseIntOfIntToString | packages/mcp-shared/src/transport.ts:41 | parseInt reads back every number String wrote |
| Js.ParseIntOfIntToStringThen | packages/mcp-shared/src/transport.ts:41 | parseInt reads back the number also when text not starting with a digit or "x" follows |
| Js.SliceEnd | seclists-mcp/src/index.ts:128 | the end index of slice(0, end), counting a negative end from the back and clamped to the length |
| Js.SliceTo | seclists-mcp/src/index.ts:128 | slice(0, end) is the prefix up to that end index |
| Js.FindIndex | packages/mcp-shared/src/transport.ts:6 | the first index whose element satisfies the test, or none |
| Js.Find | gowitness-mcp/src/index.ts:79 | a result satisfies the test and is in the array; none exactly when no element does |
| Js.Filter | gowitness-mcp/src/index.ts:283 | the elements kept are exactly the array's elements that satisfy the test |
| Js.FilterLast | gowitness-mcp/src/index.ts:95-101 | the last element kept is the array's last element that satisfies the test |
| Js.FilterAppend | gowitness-mcp/src/index.ts:283 | filtering a concatenation filters each part |
| Js.FilterKeepsAll | gowitness-mcp/src/index.ts:283 | an array whose elements all satisfy the test is kept whole |
| Json.Get | scoutsuite-mcp/src/parser.ts:50 | a property is absent exactly when no member has the key; otherwise its value is one of the key's members |
| Json.GetLastWins | scoutsuite-mcp/src/parser.ts:45-50 | a later member with the same key shadows an earlier one |
| Json.GetIgnoresOthers | scoutsuite-mcp/src/parser.ts:50 | members with other keys play no part |
| PosixPath.ResolveShape | packages/mcp-shared/src/sanitize.ts:32-33 | resolve from an absolute directory gives "/" and names joined by "/" |
| PosixPath.JoinComponentsInjective | packages/mcp-shared/src/sanitize.ts:35 | equal joined paths come from equal name lists |
| PosixPath.JoinPrefix | packages/mcp-shared/src/sanitize.ts:35 | a path starts with the base and "/" exactly when the base's names are a proper prefix of its names |
| PosixPath.NormalizePieces | packages/mcp-shared/src/sanitize.ts:33 | normalizing before resolving reaches the same names |
| PosixPath.NormalizeKeepsAbsolute | packages/mcp-shared/src/sanitize.ts:32-33 | normalize never gives the empty string and keeps a path absolute or relative |
| PosixPath.ResolveNormalized | packages/mcp-shared/src/sanitize.ts:32 | resolving a normalized path from the working directory reaches the names the path locates |
| PosixPath.ResolveUnder | packages/mcp-shared/src/sanitize.ts:33 | resolving a normalized user path under a normal absolute base reaches the names it locates below the base |
| Text.Split | seclists-mcp/src/index.ts:182 | split always gives at least one piece |
| Text.JoinSplit | seclists-mcp/src/index.ts:182-196 | joining the pieces of a split with the separator gives the string back |
| Text.SplitJoin | servers/hakrawler-mcp/src/index.ts:51 | splitting a join of separator-free pieces gives the pieces back |
| Text.SplitCount | seclists-mcp/src/index.ts:182-183 | the line count is one more than the number of line breaks |
| Text.ToLower | seclists-mcp/src/index.ts:23-29 | the same length, each character lower-cased |
| ToolResult.ErrorBody | packages/mcp-shared/src/result.ts:36-42 | the error body is never empty |
| ToolResult.Clean | packages/mcp-shared/src/result.ts:53-55 | without stripping, the text is left as it is |
| ToolResult.ComposedPlain | packages/mcp-shared/src/result.ts:45-55 | output composed from streams without escape codes has none |
| Smuggler.CountsReadBack | servers/smuggler-mcp/src/index.ts:29 | both counts written into the findings section read back with parseInt |

## Left out

- `formatSize`, in seclists-mcp/src/index.ts:209-213 and packages/mcp-shared/src/seclists.ts:12-16, divides in floating point and calls `toFixed`. It is a parameter `sizeText` of the handlers.
- `localeCompare` collation, used to sort files by name, is a parameter `before`. Its properties are assumed only as preconditions (total, transitive) of the sorting lemmas.
- `Text.ToLower` lower-cases ASCII letters only. Unicode case mapping is not modelled.
- `DirTree.CodeUnitLe` compares strings by character code, as Dafny characters are. JavaScript compares UTF-16 code units, so the two orders differ for characters outside the Basic Multilingual Plane.
- `readdir` order is taken as the order of a directory's entries in the tree value. The file system is the SecLists tree under its root, plus an input that says what `stat` answers anywhere else; `readdir` and `readFile` are not modelled outside the root, so a directory or file found there is served as that input gives it.
- `SeclistsServer.SafePath`, `SeclistsServer.SafePathMeaning`, `SeclistsServer.AsWrittenInside`, `SeclistsServer.AsWrittenOutside`, `SeclistsServer.HandlersOutside`: the SecLists root given on the command line is taken to be a normal absolute path (no ".", "..", empty names or trailing "/").
- `Sanitize.TruncateOutput`: lengths and cut points count Unicode scalar values, as Dafny characters are, not the UTF-16 code units that `length` and `slice` count. For text outside the Basic Multilingual Plane the model keeps more characters and reports a smaller omitted count than the source. The same holds for `Sanitize.TruncateKeepsPrefix` and `Sanitize.TruncateNegativeLimit`.
- `ScoutsuiteParser.Entries`, `ScoutsuiteParser.CollectedErr`: a JSON object is its members in document order, duplicates included. `JSON.parse` keeps one member per key, with the last value at the first occurrence's position. `Object.entries` then lists integer-like keys first, in ascending order. The model agrees with the source only for objects without duplicate keys whose keys are not integer-like.
- `SeclistsTool.SearchReply`, `SeclistsTool.ListWordlists`: a search directory outside the root, which the sanitized path never is under a normal root, has its results named relative to itself, not by `path.relative` from the root.
- `Scoutsuite.Outcome`: the reply text (`JSON.stringify` of the findings) and the order in which it lists the services are not modelled. The collected findings are a map from service name to listing.
- `HttpHeaders.ReportTextLines`: stated only for reports whose two lists are both non-empty, which are the only reports `Analyze` makes. An empty list is written "[]" by `HttpHeaders.ArrayText`, but the line-by-line reading of that layout is not stated.
- `Hakrawler.BuildInvocation`, `Uro.BuildInvocation`, `Urldedupe.BuildInvocation`: the stdin text they return is what each handler hands to `buildSpawnOptions`. As written that function drops it (see "## Findings"), so the model does not claim the URLs reach the process; `Timeout.BuildPipedSpawnOptions` gives the options that would carry the text. Writing the text to the child process is part of `secureSpawn`, which is not modelled.
- Fractional `max_results` and `max_lines` are not modelled: the limits are integers.
- Numbers written with `toString`/`String` are integers. Fractions, NaN and exponent notation are not modelled.
- `fetchHttpHeaders` and its HTTP request (axios) are not modelled. The response headers are an input.
- The OWASP header lists of the header analyser are parameters, not the published lists.
- JSON string escaping of lone surrogates is not modelled.
- `Crtsh.ClearResult`: the target is matched literally. The source escapes only "." before building its regular expression, so other metacharacters in a target are not modelled.
- crt.sh's `sendReqCrtSh` request is not modelled.
- `secureSpawn` is not modelled: process creation, timers, kill signals and byte counting. Its result is an input.
- The timeouts of the spawn options are not modelled.
- URL parsing (`new URL`) is an input (the parsed hostname or none), and so is `JSON.parse`.
- gowitness file I/O (`readdir`, `readFile`, `writeFile`, `unlink`, `stat`) is modelled as inputs.
- `Gowitness.ListScreenshots`: the sort by modification time (gowitness-mcp/src/index.ts:300) and the per-file details need `stat` and are not modelled. The images are kept in listing order.
- `Smuggler.FirstMatch`: its own contract states only that a match is a match. That it is the leftmost match, and that it equals the matcher at that position, are the lemmas `Smuggler.FirstMatchLeftmost` and `Smuggler.FirstMatchIsMatch`.
- testssl's `resolveTestsslPath` (testssl-mcp/src/index.ts:14-19) checks the file system to find the script. The script path is an input.
- The transport's listening, shutdown handling and MCP SDK transports are not modelled. Sessions are a map from session id to a transport handle.
- Per-tool decoding of an argument array back into options is not modelled. The builders are related to `Segments` and to lemmas about it instead.
- Thin wrappers are not modelled: nmap, ffuf, sqlmap, masscan, sslscan, assetfinder, waybackurls, commix, alterx, shuffledns, nuclei, and the crt.sh entry file. Each has at most one conditional or a fixed argument array.
- Compiled `build/` copies and superseded top-level copies of servers that also live under `servers/` are not modelled.
- The MCP SDK registration and the Zod schemas are not modelled. Their constraints become preconditions, such as enums, `.url()` and positive numbers.

## Findings

| source | as written | input that shows it | evidently intended | confidence | as-written member | corrected member |
|---|---|---|---|---|---|---|
| seclists-mcp/src/index.ts:37-43 | `safePath` accepts `join(root, userPath)` whenever it starts with the root as a plain string | root "/s" and path "../s2" join to "/s2", which starts with "/s", so the sibling directory is accepted | accept only the root itself or paths starting with the root and "/" (as `sanitizePath` in packages/mcp-shared/src/sanitize.ts:35 does) | not executed | SeclistsServer.SafePathAsWritten, SeclistsServer.HandlersSibling | SeclistsServer.SafePath, SeclistsServer.SafePathMeaning |
| packages/mcp-shared/src/timeout.ts:27-35 | `buildSpawnOptions` reads only `timeoutSeconds` and `defaultTimeoutMs` and returns `{timeoutMs, signal}`; `SpawnOptions` (packages/mcp-shared/src/spawn.ts:6-12) has no stdin field | the hakrawler, uro and urldedupe handlers pass `{ timeoutSeconds, stdinData: urls.join("\n") + "\n" }`; the options returned are the same as with no `stdinData`, so the URLs never reach the process | pass `stdinData` through, as packages/mcp-shared/src/__tests__/timeout.test.ts:56-63 expects ("hello\n" in, "hello\n" out) | not executed | Timeout.StdinDropped | Timeout.BuildPipedSpawnOptions, Timeout.PipedStdinDistinguishes, Timeout.PipedStdinExamples |
