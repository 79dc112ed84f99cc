/**
 * packages/mcp-shared/src/transport.ts: how a server picks its transport
 * from the command line, and how the HTTP transport routes each request
 * between the health check, CORS preflight, live MCP sessions and the
 * start of a new session.
 */
module Transport {
  import opened Wrappers
  import opened Text
  import opened Js
  import opened Json

  // ---------------------------------------------------------------- parseArg

  /** Index of the first element starting with `prefix` (`Array.prototype.find`). */
  function FindPrefixed(argv: seq<string>, prefix: string): (r: Option<nat>)
    ensures r.Some? ==> r.value < |argv| && StartsWith(argv[r.value], prefix)
    ensures r.Some? ==> forall j :: 0 <= j < r.value ==> !StartsWith(argv[j], prefix)
    ensures r.None? ==> forall j :: 0 <= j < |argv| ==> !StartsWith(argv[j], prefix)
    decreases |argv|
  {
    if |argv| == 0 then None
    else if StartsWith(argv[0], prefix) then Some(0)
    else match FindPrefixed(argv[1..], prefix)
      case Some(k) => Some(k + 1)
      case None => None
  }

  /** `argv.indexOf(x)`, with `None` for -1. */
  function IndexOf(argv: seq<string>, x: string): (r: Option<nat>)
    ensures r.Some? ==> r.value < |argv| && argv[r.value] == x
    ensures r.Some? ==> forall j :: 0 <= j < r.value ==> argv[j] != x
    ensures r.None? ==> forall j :: 0 <= j < |argv| ==> argv[j] != x
    decreases |argv|
  {
    if |argv| == 0 then None
    else if argv[0] == x then Some(0)
    else match IndexOf(argv[1..], x)
      case Some(k) => Some(k + 1)
      case None => None
  }

  /**
   * `parseArg(name)` over the process arguments `argv`: the first
   * `--name=...` element anywhere gives the text between its first and
   * second '='; otherwise the element after the first bare `--name`;
   * otherwise nothing.
   */
  function ParseArg(argv: seq<string>, name: string): (r: Option<string>)
  {
    match FindPrefixed(argv, "--" + name + "=")
    case Some(i) =>
      var pieces := Split(argv[i], '=');
      assert HasChar(argv[i], '=') by {
        var k := |"--" + name + "="| - 1;
        assert argv[i][k] == '=';
      }
      SplitHasTwoPieces(argv[i], '=');
      Some(pieces[1])
    case None =>
      match IndexOf(argv, "--" + name)
      case Some(k) => if k + 1 < |argv| then Some(argv[k + 1]) else None
      case None => None
  }

  /**
   * The `--name=value` form beats the separate form wherever each appears,
   * and gives back `value` whole when neither the name nor the value holds
   * an '='.
   */
  lemma ParseArgEqualsForm(argv: seq<string>, name: string, value: string, i: nat)
    requires i < |argv| && argv[i] == "--" + name + "=" + value
    requires !HasChar(name, '=') && !HasChar(value, '=')
    requires forall j :: 0 <= j < i ==> !StartsWith(argv[j], "--" + name + "=")
    ensures ParseArg(argv, name) == Some(value)
  {
    var head := "--" + name;
    assert StartsWith(argv[i], head + "=") by {
      assert argv[i] == (head + "=") + value;
      assert argv[i][..|head + "="|] == head + "=";
    }
    assert FindPrefixed(argv, head + "=") == Some(i);
    assert !HasChar(head, '=') by {
      forall k | 0 <= k < |head| ensures head[k] != '=' {
        if k >= 2 { assert head[k] == name[k - 2]; }
      }
    }
    assert argv[i] == head + ['='] + value;
    SplitAppend(head, value, '=');
    SplitFree(head, '=');
    SplitFree(value, '=');
  }

  /** Without an '=' form, the element after the first bare `--name` is the value. */
  lemma ParseArgSeparateForm(argv: seq<string>, name: string, k: nat)
    requires k + 1 < |argv| && argv[k] == "--" + name
    requires forall j :: 0 <= j < |argv| ==> !StartsWith(argv[j], "--" + name + "=")
    requires forall j :: 0 <= j < k ==> argv[j] != "--" + name
    ensures ParseArg(argv, name) == Some(argv[k + 1])
  {
    assert IndexOf(argv, "--" + name) == Some(k);
  }

  /** A bare `--name` in last place, or no mention at all, gives nothing. */
  lemma ParseArgMissing(argv: seq<string>, name: string)
    requires forall j :: 0 <= j < |argv| ==> !StartsWith(argv[j], "--" + name + "=")
    requires forall j :: 0 <= j < |argv| - 1 ==> argv[j] != "--" + name
    ensures ParseArg(argv, name) == None
  {
  }

  // ---------------------------------------------------------------- startServer

  datatype ServerMode = Stdio | Http(port: int)

  /** The port: a non-zero `parseInt` of `--port`, else a non-zero default, else 3000. */
  function Port(argv: seq<string>, defaultPort: Option<int>): (p: int)
    ensures p != 0
  {
    var parsed := ParseInt(OptOrElse(ParseArg(argv, "port"), ""));
    if NonZero(parsed) then parsed.value
    else if NonZero(defaultPort) then defaultPort.value
    else 3000
  }

  /** `--transport http` or `--transport sse` selects HTTP; anything else, or nothing, stdio. */
  function Mode(argv: seq<string>, defaultPort: Option<int>): (m: ServerMode)
    ensures m.Http? <==> OptOrElse(ParseArg(argv, "transport"), "stdio") in {"http", "sse"}
    ensures m.Http? ==> m.port == Port(argv, defaultPort)
  {
    var transportArg := OptOrElse(ParseArg(argv, "transport"), "stdio");
    if transportArg == "http" || transportArg == "sse" then Http(Port(argv, defaultPort)) else Stdio
  }

  /** Without any `--transport` on the command line the server speaks stdio. */
  lemma ModeWithoutTransport(argv: seq<string>, defaultPort: Option<int>)
    requires forall j :: 0 <= j < |argv| ==> !StartsWith(argv[j], "--transport=") && argv[j] != "--transport"
    ensures Mode(argv, defaultPort) == Stdio
  {
    ParseArgMissing(argv, "transport");
  }

  /** `--transport sse` and `--transport=http` both select HTTP on the chosen port. */
  lemma ModeExamples(defaultPort: Option<int>)
    ensures Mode(["--transport", "sse"], defaultPort) == Http(Port(["--transport", "sse"], defaultPort))
    ensures Mode(["--transport=http"], defaultPort) == Http(Port(["--transport=http"], defaultPort))
  {
    var separate := ["--transport", "sse"];
    assert !StartsWith(separate[1], "--transport=");
    ParseArgSeparateForm(separate, "transport", 0);
    assert !HasChar("transport", '=') && !HasChar("http", '=');
    ParseArgEqualsForm(["--transport=http"], "transport", "http", 0);
  }

  /** A non-zero port written in decimal on the command line is the one used. */
  lemma PortFromArgument(argv: seq<string>, defaultPort: Option<int>, n: int)
    requires n != 0 && ParseArg(argv, "port") == Some(IntToString(n))
    ensures Port(argv, defaultPort) == n
  {
    ParseIntOfIntToString(n);
  }

  /** Without a usable `--port`, the default port and then 3000 apply. */
  lemma PortFallback(argv: seq<string>, defaultPort: Option<int>)
    requires ParseArg(argv, "port") == None
    ensures Port(argv, defaultPort) == if NonZero(defaultPort) then defaultPort.value else 3000
  {
    assert ParseInt("") == None;
  }

  // ---------------------------------------------------------------- routing

  /**
   * What the routing looks at: the URL path, the method, the
   * Mcp-Session-Id header, and for a POST the outcome of `JSON.parse` on
   * the body (`None` when it throws).
   */
  datatype Request = Request(pathname: string, httpMethod: string, sessionId: Option<string>, body: Option<Json>)

  /** Where a request goes. */
  datatype Route =
    | Health               // 200 {"status":"ok"}
    | Preflight            // 204 with the CORS headers
    | ToSession(id: string) // handed to that session's MCP transport
    | ParseError           // 400, JSON-RPC error -32700
    | StartSession         // old sessions closed, a new MCP transport takes the request
    | NoSession            // 400, JSON-RPC error -32000

  /** A JSON-RPC message asking to initialize: a non-null object whose `method` is "initialize". */
  predicate IsInitializeMessage(m: Json)
  {
    m.JObject? && Get(m.members, "method") == Some(JString("initialize"))
  }

  /** The body, single message or batch, holds an initialize request. */
  predicate IsInitialize(body: Json)
  {
    exists i :: 0 <= i < |Messages(body)| && IsInitializeMessage(Messages(body)[i])
  }

  /** The messages of a body: the elements of a batch, or the body alone. */
  function Messages(body: Json): (ms: seq<Json>)
    ensures !body.JArray? ==> ms == [body]
  {
    if body.JArray? then body.items else [body]
  }

  /** The routing decision for one request, given the ids of the live sessions. */
  function RouteRequest(sessions: set<string>, req: Request): (r: Route)
    ensures r.ToSession? ==> r.id in sessions && req.sessionId == Some(r.id)
  {
    if req.pathname == "/healthz" then Health
    else if req.httpMethod == "OPTIONS" then Preflight
    else if Truthy(req.sessionId) && req.sessionId.value in sessions then ToSession(req.sessionId.value)
    else if req.httpMethod == "POST" then
      match req.body
      case None => ParseError
      case Some(body) => if IsInitialize(body) then StartSession else NoSession
    else NoSession
  }

  /** The health check answers before anything else. */
  lemma HealthFirst(sessions: set<string>, req: Request)
    requires req.pathname == "/healthz"
    ensures RouteRequest(sessions, req) == Health
  {
  }

  /**
   * Outside the health check and preflight, a request naming a live session
   * goes to it whatever its body; one naming no live session never does.
   */
  lemma SessionRouting(sessions: set<string>, req: Request)
    requires req.pathname != "/healthz" && req.httpMethod != "OPTIONS"
    ensures RouteRequest(sessions, req).ToSession? <==> Truthy(req.sessionId) && req.sessionId.value in sessions
  {
  }

  /**
   * A new session starts exactly for a POST, outside the health check, with
   * no live session named, whose parsed body holds an initialize message.
   */
  lemma StartSessionExactly(sessions: set<string>, req: Request)
    ensures RouteRequest(sessions, req) == StartSession <==>
      req.pathname != "/healthz" && req.httpMethod == "POST" &&
      !(Truthy(req.sessionId) && req.sessionId.value in sessions) &&
      req.body.Some? && IsInitialize(req.body.value)
  {
  }

  /** Only a POST without a live session can fail to parse; other methods never read the body. */
  lemma ParseErrorExactly(sessions: set<string>, req: Request)
    ensures RouteRequest(sessions, req) == ParseError <==>
      req.pathname != "/healthz" && req.httpMethod == "POST" &&
      !(Truthy(req.sessionId) && req.sessionId.value in sessions) && req.body.None?
  {
  }

  /** An initialize message inside a batch counts; one inside a nested array does not. */
  lemma InitializeInBatch(m: Json, other: Json)
    requires IsInitializeMessage(m)
    ensures IsInitialize(m)
    ensures IsInitialize(JArray([other, m]))
    ensures !IsInitialize(JArray([JArray([m])]))
  {
    assert Messages(m)[0] == m;
    assert Messages(JArray([other, m]))[1] == m;
    var batch := Messages(JArray([JArray([m])]));
    assert forall i :: 0 <= i < |batch| ==> !IsInitializeMessage(batch[i]);
  }

  /** A body that is not a batch is an initialize request iff it is an initialize message. */
  lemma SingleInitialize(m: Json)
    requires !m.JArray?
    ensures IsInitialize(m) <==> IsInitializeMessage(m)
  {
    assert Messages(m) == [m];
    assert Messages(m)[0] == m;
  }

  /** A batch is an initialize request iff one of its elements, not itself an array, is. */
  lemma BatchInitialize(items: seq<Json>)
    ensures IsInitialize(JArray(items)) <==> exists i :: 0 <= i < |items| && !items[i].JArray? && IsInitialize(items[i])
  {
    forall i | 0 <= i < |items| && !items[i].JArray?
      ensures IsInitialize(items[i]) <==> IsInitializeMessage(items[i])
    {
      SingleInitialize(items[i]);
    }
    assert Messages(JArray(items)) == items;
  }

  // ---------------------------------------------------------------- responses

  /** An HTTP answer written by the routing itself. */
  datatype Response = Response(status: int, headers: seq<(string, string)>, body: string)

  const JsonContent: (string, string) := ("Content-Type", "application/json")
  const AllowOrigin: (string, string) := ("Access-Control-Allow-Origin", "*")

  const RpcErrorHead := "{\"jsonrpc\":\"2.0\",\"error\":{\"code\":"

  /** `JSON.stringify` of a JSON-RPC error object with a null id. */
  function JsonRpcError(code: int, message: string): string
  {
    RpcErrorHead + IntToString(code) + ",\"message\":\"" + message + "\"},\"id\":null}"
  }

  /** The error code reads back from the serialised error. */
  lemma JsonRpcErrorCode(code: int, message: string)
    ensures |RpcErrorHead| <= |JsonRpcError(code, message)|
    ensures ParseInt(JsonRpcError(code, message)[|RpcErrorHead|..]) == Some(code)
  {
    var tail := ",\"message\":\"" + message + "\"},\"id\":null}";
    assert tail[0] == ',';
    assert JsonRpcError(code, message) == RpcErrorHead + (IntToString(code) + tail);
    ParseIntOfIntToStringThen(code, tail);
  }

  /** The answer for a route the routing answers itself; `None` when an MCP transport answers. */
  function Respond(r: Route): (res: Option<Response>)
    ensures res.None? <==> r.ToSession? || r.StartSession?
    ensures res.Some? && res.value.status == 400 ==> AllowOrigin in res.value.headers && JsonContent in res.value.headers
  {
    match r
    case Health => Some(Response(200, [JsonContent], "{\"status\":\"ok\"}"))
    case Preflight => Some(Response(204, [
        AllowOrigin,
        ("Access-Control-Allow-Methods", "GET, POST, DELETE, OPTIONS"),
        ("Access-Control-Allow-Headers", "Content-Type, Accept, Mcp-Session-Id")], ""))
    case ParseError => Some(Response(400, [AllowOrigin, JsonContent], JsonRpcError(-32700, "Parse error")))
    case NoSession => Some(Response(400, [AllowOrigin, JsonContent], JsonRpcError(-32000, "Bad Request: No active session")))
    case ToSession(_) => None
    case StartSession => None
  }

  /** The two error answers carry their JSON-RPC codes. */
  lemma ErrorCodes()
    ensures ParseInt(Respond(ParseError).value.body[|RpcErrorHead|..]) == Some(-32700)
    ensures ParseInt(Respond(NoSession).value.body[|RpcErrorHead|..]) == Some(-32000)
  {
    JsonRpcErrorCode(-32700, "Parse error");
    JsonRpcErrorCode(-32000, "Bad Request: No active session");
  }

  // ---------------------------------------------------------------- session map

  /**
   * The HTTP transport's session map: session id to MCP transport (a
   * handle), and the transports closed so far.
   */
  class SessionRouter {
    var sessions: map<string, nat>
    var closed: set<nat>

    constructor()
      ensures sessions == map[] && closed == {}
    {
      sessions := map[];
      closed := {};
    }

    /**
     * Routes one request. An initialize request closes and forgets every
     * live session before the new transport takes over; every other
     * request leaves the map alone.
     */
    method Handle(req: Request) returns (route: Route)
      modifies this
      ensures route == RouteRequest(old(sessions).Keys, req)
      ensures route == StartSession ==> sessions == map[] && closed == old(closed) + old(sessions).Values
      ensures route != StartSession ==> sessions == old(sessions) && closed == old(closed)
    {
      route := RouteRequest(sessions.Keys, req);
      if route == StartSession {
        CloseAll();
      }
    }

    /** Closes every live transport and forgets its session. */
    method CloseAll()
      modifies this
      ensures sessions == map[] && closed == old(closed) + old(sessions).Values
    {
      ghost var before := closed + sessions.Values;
      while sessions != map[]
        invariant closed + sessions.Values == before
        decreases |sessions.Keys|
      {
        var sid :| sid in sessions;
        var oldTransport := sessions[sid];
        closed := closed + {oldTransport};
        var rest := sessions - {sid};
        RemoveOne(sessions, sid);
        sessions := rest;
      }
    }

    /** `onsessioninitialized`: the new session is registered under its id. */
    method SessionInitialized(sid: string, transport: nat)
      modifies this
      ensures sessions == old(sessions)[sid := transport] && closed == old(closed)
    {
      sessions := sessions[sid := transport];
    }

    /** `onsessionclosed`: the session is forgotten. */
    method SessionClosed(sid: string)
      modifies this
      ensures sessions == old(sessions) - {sid} && closed == old(closed)
    {
      sessions := sessions - {sid};
    }
  }

  /** Forgetting one session removes its key and leaves the other transports. */
  lemma RemoveOne(m: map<string, nat>, k: string)
    requires k in m
    ensures m.Values == (m - {k}).Values + {m[k]}
    ensures (m - {k}).Keys == m.Keys - {k}
  {
    var rest := m - {k};
    forall v | v in m.Values ensures v in rest.Values + {m[k]} {
      var s :| s in m && m[s] == v;
      if s != k { assert rest[s] == v; }
    }
  }
}
