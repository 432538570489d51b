/**
 * `serverHandler` and `httpRedirect` (server/server.go) end to end: the
 * decision chain, then either the one-shot HTTP relay or the WebSocket
 * upgrade and upstream dial. Library calls (`http.NewRequest`,
 * `httpClient.Do`, `io.Copy`, the upgrader, the dialer) are inputs that say
 * whether each succeeds and what the upstream answers.
 */
module Relay {
  import opened Base
  import opened KeyStore
  import opened Gate
  import opened HopHeaders

  /** The key file `serverHandler` reads on every authorized-looking request. */
  const KeyFilePath := "./keys.txt"

  const ForbiddenText := "403 Forbidden - Unauthorized."
  const BadRequestText := "400 Bad Request - Invalid scheme."
  const InternalText := "500 Internal - Something is fucked up."

  /** The inbound request, with its query already parsed into `url.Values`. */
  datatype Request = Request(verb: string, query: Values, header: Values, body: Bytes)

  /** The request `httpRedirect` builds: method, target URL and body, and no headers. */
  datatype Outbound = Outbound(verb: string, url: string, body: Bytes)

  datatype UpstreamResponse = UpstreamResponse(status: int, header: Values, body: Bytes)

  /** How `io.Copy` of the response body ends: completely, or after `written` bytes. */
  datatype CopyResult = Copied | CopyFailed(written: nat)

  /** What the outside world does when the handler calls into it. */
  datatype Environment = Environment(
    httpRpc: string,                                 // HTTP_RPC
    wsRpc: string,                                   // WS_RPC
    requestBuilds: bool,                             // http.NewRequest succeeds
    exchange: Outbound -> Option<UpstreamResponse>,  // httpClient.Do; None is a transport error
    copy: CopyResult,                                // io.Copy(w, res.Body)
    upgrades: bool,                                  // upgrader.Upgrade succeeds
    dials: bool)                                     // client.NewClient(WS_RPC) succeeds

  /** What the handler does with the request. */
  datatype Outcome =
    | Refused(status: int, text: string)
      // `http.Error` and return; the server keeps running
    | Fatal(status: int, text: string)
      // the handler hands this error to `w`, then `log.Fatalln` ends the whole process
      // before the handler returns, so the buffered reply need not reach the client
    | Relayed(sent: Outbound, status: int, body: Bytes, copyBroke: bool)
      // the upstream status and body were handed to `w`; when `copyBroke`, `body` is the
      // part `io.Copy` wrote before failing, after which the handler's late `http.Error`
      // cannot change the status already written, and the process exits
    | Abandoned
      // `upgrader.Upgrade` failed and answered the client with its own HTTP error;
      // the handler only logs and returns
    | Session(key: string, upstream: string)
      // both legs are open and the pumps take over

  /** `httpRedirect`: forward method and body to HTTP_RPC and write back the status and body. */
  function Redirect(req: Request, env: Environment): Outcome {
    var sent := Outbound(req.verb, env.httpRpc, req.body);
    if !env.requestBuilds then Fatal(500, InternalText)
    else match env.exchange(sent)
      case None => Fatal(500, InternalText)
      case Some(res) =>
        match env.copy
        case Copied => Relayed(sent, res.status, res.body, false)
        case CopyFailed(n) =>
          Relayed(sent, res.status, res.body[..if n < |res.body| then n else |res.body|], true)
  }

  /** `serverHandler` from the request to its outcome. */
  function Serve(req: Request, fs: FileSystem, env: Environment): Outcome {
    match Decide(req.query, LoadKeys(fs, KeyFilePath), req.header)
    case Forbidden403 => Refused(403, ForbiddenText)
    case Internal500 => Fatal(500, InternalText)
    case BadRequest400 => Refused(400, BadRequestText)
    case HttpRelay => Redirect(req, env)
    case WebSocketSession =>
      // After a failed dial the handler's 500 goes to a writer the upgrade has already
      // hijacked, so the client has seen only the handshake when the process exits.
      if !env.upgrades then Abandoned
      else if !env.dials then Fatal(500, InternalText)
      else Session(QueryGet(req.query, "auth"), env.wsRpc)
  }

  /** The upstream, HTTP or WebSocket, is reached only through an outcome that says so. */
  predicate ContactsUpstream(o: Outcome) {
    o.Relayed? || o.Session?
  }

  // ---------------------------------------------------------------------------
  // The handler, step by step

  /**
   * `httpRedirect`, including the in-place removal of the hop-by-hop
   * headers from the upstream response (which is never copied to the client).
   */
  method HttpRedirect(req: Request, env: Environment) returns (o: Outcome)
    ensures o == Redirect(req, env)
  {
    var sent := Outbound(req.verb, env.httpRpc, req.body);
    if !env.requestBuilds {
      return Fatal(500, InternalText);
    }
    var res := env.exchange(sent);
    if res.None? {
      return Fatal(500, InternalText);
    }
    var header := new HeaderMap(res.value.header);
    StripHopHeaders(header);
    match env.copy {
      case Copied =>
        o := Relayed(sent, res.value.status, res.value.body, false);
      case CopyFailed(n) =>
        var body := res.value.body;
        o := Relayed(sent, res.value.status, body[..if n < |body| then n else |body|], true);
    }
  }

  /**
   * `serverHandler` as the source runs it: the key file is read only after
   * the `auth` check passes, and the Upgrade values are scanned only for a
   * request whose key was accepted. `readKeyFile` only marks the branch that
   * calls `ImportKeys`; that the key file cannot matter without `auth` is
   * stated over all file systems by `MissingAuthForbidden`.
   */
  method HandleRequest(req: Request, fs: FileSystem, env: Environment)
    returns (o: Outcome, readKeyFile: bool)
    ensures o == Serve(req, fs, env)
    ensures readKeyFile <==> "auth" in req.query
  {
    if "auth" !in req.query {
      return Refused(403, ForbiddenText), false;
    }
    readKeyFile := true;
    var load := ImportKeys(fs, KeyFilePath);
    if load.OpenError? {
      return Fatal(500, InternalText), true;
    }
    var key := QueryGet(req.query, "auth");
    if key !in load.keys {
      return Refused(400, BadRequestText), true;
    }
    var upgrade := ScanUpgrade(UpgradeValues(req.header));
    if !upgrade {
      o := HttpRedirect(req, env);
      return;
    }
    if !env.upgrades {
      return Abandoned, true;
    }
    if !env.dials {
      return Fatal(500, InternalText), true;
    }
    o := Session(key, env.wsRpc);
  }

  // ---------------------------------------------------------------------------
  // Properties

  /** No `auth`: 403, whatever the key file and the upstream would do, and no upstream contact. */
  lemma MissingAuthForbidden(req: Request, fs1: FileSystem, fs2: FileSystem, env1: Environment, env2: Environment)
    requires "auth" !in req.query
    ensures Serve(req, fs1, env1) == Serve(req, fs2, env2) == Refused(403, ForbiddenText)
    ensures !ContactsUpstream(Serve(req, fs1, env1))
  {
  }

  /** An unreadable key file: 500 and process exit, before any key comparison or relay. */
  lemma UnreadableKeyFileFatal(req: Request, fs: FileSystem, env1: Environment, env2: Environment)
    requires "auth" in req.query && KeyFilePath !in fs
    ensures Serve(req, fs, env1) == Serve(req, fs, env2) == Fatal(500, InternalText)
  {
  }

  /** A key not in the list: 400, and no upstream contact. */
  lemma UnknownKeyBadRequest(req: Request, fs: FileSystem, env: Environment)
    requires "auth" in req.query && KeyFilePath in fs
    requires QueryGet(req.query, "auth") !in Lines(fs[KeyFilePath])
    ensures Serve(req, fs, env) == Refused(400, BadRequestText)
  {
    FilterMembership(Lines(fs[KeyFilePath]), QueryGet(req.query, "auth"));
  }

  /** A presented key holding whitespace never reaches the upstream. */
  lemma WhitespaceKeyNeverRelayed(req: Request, fs: FileSystem, env: Environment)
    requires "auth" in req.query && HasSpace(QueryGet(req.query, "auth"))
    ensures !ContactsUpstream(Serve(req, fs, env))
  {
    WhitespaceKeyNeverAuthorizes(req.query, fs, KeyFilePath, req.header);
  }

  /** The upstream is contacted only for a key that is a whitespace-free line of the key file. */
  lemma UpstreamOnlyWhenAuthorized(req: Request, fs: FileSystem, env: Environment)
    requires ContactsUpstream(Serve(req, fs, env))
    ensures "auth" in req.query && KeyFilePath in fs
    ensures QueryGet(req.query, "auth") in Lines(fs[KeyFilePath])
    ensures !HasSpace(QueryGet(req.query, "auth"))
  {
    RelayIffAuthorized(req.query, LoadKeys(fs, KeyFilePath), req.header);
    AcceptedIffCleanLine(req.query, fs, KeyFilePath);
  }

  /**
   * The HTTP relay sends the inbound method and body to HTTP_RPC and
   * writes the upstream's status code unchanged, and the whole body when
   * the copy succeeds.
   */
  lemma RelayPassesThrough(req: Request, fs: FileSystem, env: Environment)
    requires Serve(req, fs, env).Relayed?
    ensures Serve(req, fs, env).sent == Outbound(req.verb, env.httpRpc, req.body)
    ensures env.exchange(Serve(req, fs, env).sent).Some?
    ensures Serve(req, fs, env).status == env.exchange(Serve(req, fs, env).sent).value.status
    ensures env.copy.Copied? ==> Serve(req, fs, env).body == env.exchange(Serve(req, fs, env).sent).value.body
    ensures Serve(req, fs, env).body <= env.exchange(Serve(req, fs, env).sent).value.body
    ensures "websocket" !in UpgradeValues(req.header)
  {
  }

  /** Upstream response headers never reach the client: the outcome does not depend on them. */
  lemma UpstreamHeadersNotCopied(req: Request, fs: FileSystem, env1: Environment, env2: Environment)
    requires env1.httpRpc == env2.httpRpc && env1.wsRpc == env2.wsRpc
    requires env1.requestBuilds == env2.requestBuilds && env1.copy == env2.copy
    requires env1.upgrades == env2.upgrades && env1.dials == env2.dials
    requires forall sent :: env1.exchange(sent).None? == env2.exchange(sent).None?
    requires forall sent :: env1.exchange(sent).Some? ==>
      env1.exchange(sent).value.status == env2.exchange(sent).value.status &&
      env1.exchange(sent).value.body == env2.exchange(sent).value.body
    ensures Serve(req, fs, env1) == Serve(req, fs, env2)
  {
    var sent := Outbound(req.verb, env1.httpRpc, req.body);
    assert env1.exchange(sent).None? == env2.exchange(sent).None?;
  }

  /** A session is opened only for an accepted key and an Upgrade value of exactly "websocket". */
  lemma SessionNeedsExactUpgrade(req: Request, fs: FileSystem, env: Environment)
    requires Serve(req, fs, env).Session?
    ensures "websocket" in UpgradeValues(req.header)
    ensures LoadKeys(fs, KeyFilePath).Keys? && Serve(req, fs, env).key in LoadKeys(fs, KeyFilePath).keys
    ensures Serve(req, fs, env).upstream == env.wsRpc
  {
  }

  /** The key file "abc123\ndef456\n" holds the keys "abc123" and "def456". */
  lemma SampleKeys()
    ensures LoadKeys(map[KeyFilePath := "abc123\ndef456\n"], KeyFilePath) == Keys(["abc123", "def456"])
  {
    TwoKeyText();
    var a, b := "abc123", "def456";
    assert forall j :: 0 <= j < |a| ==> a[j] != '\n' && !IsSpace(a[j]);
    assert forall j :: 0 <= j < |b| ==> b[j] != '\n' && !IsSpace(b[j]);
    TwoKeyFile(a, b);
  }

  /**
   * A key file holding "abc123" and "def456" (such as the one above);
   * `GET /geth?auth=abc123` with no upgrade and an upstream answering 200:
   * the client gets 200 and the upstream body.
   */
  lemma SampleRelayed(fs: FileSystem, body: Bytes, answer: Bytes, env: Environment)
    requires LoadKeys(fs, KeyFilePath) == Keys(["abc123", "def456"])
    requires env.requestBuilds && env.copy == Copied
    requires env.exchange(Outbound("GET", env.httpRpc, body)) == Some(UpstreamResponse(200, map[], answer))
    ensures Serve(Request("GET", map["auth" := ["abc123"]], map[], body), fs, env)
         == Relayed(Outbound("GET", env.httpRpc, body), 200, answer, false)
  {
    var req := Request("GET", map["auth" := ["abc123"]], map[], body);
    assert QueryGet(req.query, "auth") == "abc123";
    assert UpgradeValues(req.header) == [];
    assert Decide(req.query, LoadKeys(fs, KeyFilePath), req.header) == HttpRelay;
    assert Redirect(req, env) == Relayed(Outbound("GET", env.httpRpc, body), 200, answer, false);
  }

  /** The same keys and `auth=zzz`: 400, and the upstream is not contacted. */
  lemma SampleRefused(fs: FileSystem, body: Bytes, env: Environment)
    requires LoadKeys(fs, KeyFilePath) == Keys(["abc123", "def456"])
    ensures Serve(Request("GET", map["auth" := ["zzz"]], map[], body), fs, env) == Refused(400, BadRequestText)
  {
    assert QueryGet(map["auth" := ["zzz"]], "auth") == "zzz";
    assert "zzz"[0] != "abc123"[0] && "zzz"[0] != "def456"[0];
  }
}
