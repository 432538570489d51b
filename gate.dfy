/**
 * The decision chain at the top of `serverHandler` (server/server.go): the
 * `auth` query parameter, the key-file read, exact membership of the
 * presented key, and the WebSocket upgrade test, checked in that order with
 * an early return at each failure.
 */
module Gate {
  import opened Base
  import opened KeyStore

  /** `url.Values.Get`: the first value of `name`, or "" when there is none. */
  function QueryGet(query: Values, name: string): string {
    if name in query && |query[name]| > 0 then query[name][0] else ""
  }

  /** `r.Header["Upgrade"]`: a direct lookup, no canonicalization; absent means no values. */
  function UpgradeValues(header: Values): seq<string> {
    if "Upgrade" in header then header["Upgrade"] else []
  }

  /** Where the chain sends a request. */
  datatype Route =
    | Forbidden403      // no `auth` parameter
    | Internal500       // the key file could not be opened; the process then exits
    | BadRequest400     // the presented key is not in the list
    | HttpRelay         // authorized, no WebSocket upgrade: `httpRedirect`
    | WebSocketSession  // authorized and upgrading

  /** The request carries a key that is in the list that was read. */
  predicate Authorized(query: Values, load: KeyLoad) {
    "auth" in query && load.Keys? && QueryGet(query, "auth") in load.keys
  }

  /** Lines 72-104 of `serverHandler`, given the outcome of reading the key file. */
  function Decide(query: Values, load: KeyLoad, header: Values): Route {
    if "auth" !in query then Forbidden403
    else if load.OpenError? then Internal500
    else if QueryGet(query, "auth") !in load.keys then BadRequest400
    else if "websocket" in UpgradeValues(header) then WebSocketSession
    else HttpRelay
  }

  /**
   * The loop over the Upgrade values: true as soon as one of them is exactly
   * "websocket" (case-sensitive, no token splitting).
   */
  method ScanUpgrade(values: seq<string>) returns (upgrade: bool)
    ensures upgrade <==> exists i :: 0 <= i < |values| && values[i] == "websocket"
  {
    upgrade := false;
    var i := 0;
    while i < |values|
      invariant 0 <= i <= |values|
      invariant forall j :: 0 <= j < i ==> values[j] != "websocket"
    {
      if values[i] == "websocket" {
        upgrade := true;
        break;
      }
      i := i + 1;
    }
  }

  /** Exactly the authorized requests reach a relay; the rest are refused. */
  lemma RelayIffAuthorized(query: Values, load: KeyLoad, header: Values)
    ensures Decide(query, load, header) in {HttpRelay, WebSocketSession} <==> Authorized(query, load)
    ensures Decide(query, load, header) == WebSocketSession
        <==> Authorized(query, load) && "websocket" in UpgradeValues(header)
  {
  }

  /**
   * Without `auth` the answer is 403 whatever the key file holds or
   * whether it opens: the key file is never consulted.
   */
  lemma MissingAuthIgnoresKeyFile(query: Values, load1: KeyLoad, load2: KeyLoad, header: Values)
    requires "auth" !in query
    ensures Decide(query, load1, header) == Decide(query, load2, header) == Forbidden403
  {
  }

  /**
   * A key-file open error is checked before the key and before the
   * upgrade headers: neither can change the 500.
   */
  lemma KeyFileErrorBeforeComparison(query: Values, header1: Values, header2: Values)
    requires "auth" in query
    ensures Decide(query, OpenError, header1) == Decide(query, OpenError, header2) == Internal500
  {
  }

  /**
   * A presented key containing tab, line feed, form feed, carriage return or
   * space never authorizes: the lines that hold one were filtered out.
   */
  lemma WhitespaceKeyNeverAuthorizes(query: Values, fs: FileSystem, path: string, header: Values)
    requires "auth" in query && HasSpace(QueryGet(query, "auth"))
    ensures !Authorized(query, LoadKeys(fs, path))
    ensures Decide(query, LoadKeys(fs, path), header) in {Internal500, BadRequest400}
  {
    if path in fs {
      FilterKeysHaveNoSpace(Lines(fs[path]));
    }
  }

  /**
   * `?auth=` (or `?auth` with no value) is accepted exactly when the key
   * file has an empty line: membership is exact.
   */
  lemma EmptyKeyAcceptedIffBlankLine(query: Values, fs: FileSystem, path: string)
    requires "auth" in query && QueryGet(query, "auth") == "" && path in fs
    ensures Authorized(query, LoadKeys(fs, path)) <==> "" in Lines(fs[path])
  {
    FilterMembership(Lines(fs[path]), "");
  }

  /**
   * A key is accepted exactly when it is, character for character, a line
   * of the key file free of whitespace.
   */
  lemma AcceptedIffCleanLine(query: Values, fs: FileSystem, path: string)
    requires "auth" in query && path in fs
    ensures Authorized(query, LoadKeys(fs, path))
        <==> QueryGet(query, "auth") in Lines(fs[path]) && !HasSpace(QueryGet(query, "auth"))
  {
    FilterMembership(Lines(fs[path]), QueryGet(query, "auth"));
  }

  /** "WebSocket" and "websocket, x" are not "websocket": such requests go to the HTTP relay. */
  lemma UpgradeMatchIsExact(query: Values, keys: seq<string>)
    requires Authorized(query, Keys(keys))
    ensures Decide(query, Keys(keys), map["Upgrade" := ["WebSocket"]]) == HttpRelay
    ensures Decide(query, Keys(keys), map["Upgrade" := ["websocket, x"]]) == HttpRelay
    ensures Decide(query, Keys(keys), map["Upgrade" := ["h2c", "websocket"]]) == WebSocketSession
  {
    assert "WebSocket"[0] != "websocket"[0];
    assert |"websocket, x"| != |"websocket"|;
    assert ["h2c", "websocket"][1] == "websocket";
  }
}
