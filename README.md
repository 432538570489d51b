# GethAuth relay core in Dafny

GethAuth is a small Go server that sits in front of an Ethereum node's
JSON-RPC endpoint and lets a request through only when its `auth` query
parameter is one of the keys listed in `./keys.txt`. This project models
its core and proves properties of the model:

- **Key store** (`keystore.dfy`, `utils/files.go`). `ImportKeys` opens the
  key file, splits it the way `bufio.ScanLines` does (cut at each line
  feed, drop one trailing carriage return per line, no empty token after a
  final line feed) and keeps every line in which RE2's `\s` (tab, line
  feed, form feed, carriage return, space) finds nothing. The scanner is a
  small class driving the same `for scanner.Scan()` loop as the source.
- **Hop-by-hop headers** (`headers.dfy`, `server/server.go`). The eight
  names of `hopHeaders` and the loop that deletes them from the upstream
  response's header map. `Header.Del` canonicalizes the name it is given,
  so `textproto`'s canonical header key is modelled and each of the eight
  names is proved canonical.
- **Decision chain** (`gate.dfy`). The order of checks in `serverHandler`:
  `auth` present, then the key file is read, then exact membership of the
  key, then an Upgrade value equal to `"websocket"`.
- **Handler** (`relay.dfy`). `serverHandler` and `httpRedirect` end to end.
  The environment (the `HTTP_RPC` and `WS_RPC` addresses, whether the
  outbound request builds, what the upstream answers, whether `io.Copy`
  completes, whether the upgrade and the upstream dial succeed) is an input.
- **Message pumps** (`pump.dfy`). The two loops of a WebSocket session.
  Each one reads from one connection and writes the same message type and
  payload to the other. On the first read or write error it writes one
  close frame with code 1011 (internal server error, registered under section 11.7 of RFC 6455) to the client
  connection and stops. A connection is a class whose reads and write
  outcomes come from a finite script. A read past the end of the script
  fails, as on a closed peer. A write past the end succeeds.

The pumps are specified by a step function `Forward` over connection
states. `Run` is a separate description of the same loop: the messages
forwarded and the number of reads. `ForwardFollowsRun` proves that the two
agree, and the `Run*` lemmas prove what a pump forwards and when it stops.

The model follows the code, including where it may surprise a reader:

- A key that is not in the list gets 400 "Invalid scheme".
- A key file that cannot be opened makes the handler call `http.Error`
  with a 500 and then `log.Fatalln`, which ends the whole process (outcome
  `Fatal`). The same exit follows a failed outbound request, a failed
  upstream exchange and a failed upstream dial.
- A body copy that breaks after the upstream status was written ends the
  process too (`copyBroke`); the status the client was given stays the
  upstream's.
- The upgrade test compares each `Upgrade` value with `"websocket"`
  exactly. There is no case folding and no token splitting.
- A blank line in the key file is the key `""`, so `?auth=` is accepted
  exactly when the file has a blank line (`Gate.EmptyKeyAcceptedIffBlankLine`).
- The hop-by-hop names are deleted from the upstream response's header
  map, but that map is never copied to the client. The client receives the
  upstream status and body and no upstream headers
  (`Relay.UpstreamHeadersNotCopied`).

## Model

| member | source | states |
|---|---|---|
| KeyStore.ImportKeys | utils/files.go:15-37 | an absent file is the open error; otherwise the keys are exactly the whitespace-free `ScanLines` tokens of the file, in order |
| KeyStore.LineScanner.Scan | utils/files.go:23-28 | each successful `Scan` yields exactly the next `ScanLines` token and consumes input; it returns false exactly when the text is used up |
| KeyStore.LinesHaveNoNewline | utils/files.go:23-24 | no token contains a line feed |
| KeyStore.LinesOfJoined | utils/files.go:23-24 | splitting lines written with `\n` or `\r\n` endings gives them back; a final unterminated line is a token only when non-empty, and a final line feed adds no empty token |
| KeyStore.LinesCons | utils/files.go:23-24 | a line feed ends exactly one token, with one trailing carriage return dropped |
| KeyStore.FilterKeysHaveNoSpace | utils/files.go:28-34 | no returned key contains a character `\s` matches |
| KeyStore.FilterMembership | utils/files.go:28-34 | a string is a key iff it is a line and contains no whitespace |
| KeyStore.FilterIsSubsequence | utils/files.go:27-34 | the keys are the lines with some left out, in file order |
| KeyStore.FilterMultiplicity | utils/files.go:27-34 | no deduplication: a whitespace-free line occurs among the keys as often as among the lines |
| KeyStore.FilterIdempotent | utils/files.go:31-33 | filtering the keys again changes nothing |
| KeyStore.SampleKeyFile | utils/files.go:15-37 | a file with a blank line, a line holding a space, a CRLF ending and a repeated key loads as `["abc123", "", "abc123"]` |
| KeyStore.TwoKeyFile | utils/files.go:23-34 | two whitespace-free keys on their own lines load as those two keys, in order |
| HopHeaders.CanonicalKeyShape | server/server.go:57 | canonicalizing keeps the length, yields a canonical name for token input and leaves a canonical name unchanged |
| HopHeaders.CanonicalKeyIdempotent | server/server.go:57 | canonicalizing twice is canonicalizing once |
| HopHeaders.HopHeaderNamesCanonical | server/server.go:27-36 | every listed hop-by-hop name is already canonical, so `Del` removes exactly that key |
| HopHeaders.CanonicalTE | server/server.go:32 | "TE" canonicalizes to "Te", the spelling in the list |
| HopHeaders.HeaderMap.Del | server/server.go:57 | deleting removes the canonical form of the name and nothing else |
| HopHeaders.StripHopHeaders | server/server.go:55-58 | afterwards the map is the old map without the eight names: none of them is present, every other key is kept with its values |
| KeyStore.IsSpace | utils/files.go:11 | definition of the characters `\s` matches; properties in `KeyStore.FilterKeysHaveNoSpace`, `KeyStore.FilterMembership` |
| KeyStore.HasSpace | utils/files.go:31 | definition of `spaceRegex.MatchString`; properties in `KeyStore.FilterKeysHaveNoSpace`, `KeyStore.FilterMembership`, `Gate.WhitespaceKeyNeverAuthorizes` |
| KeyStore.Lines | utils/files.go:22-28 | definition of the tokens `bufio.ScanLines` yields; properties in `KeyStore.LinesOfJoined`, `KeyStore.LinesHaveNoNewline`, `KeyStore.LinesCons`, `KeyStore.LineScanner.Scan` |
| KeyStore.Filter | utils/files.go:27-34 | definition of the key-keeping loop; properties in `KeyStore.FilterMembership`, `KeyStore.FilterIsSubsequence`, `KeyStore.FilterMultiplicity`, `KeyStore.FilterIdempotent`, `KeyStore.ImportKeys` |
| KeyStore.LoadKeys | utils/files.go:15-37 | definition of `ImportKeys`' result; properties in `KeyStore.ImportKeys`, `KeyStore.SampleKeyFile`, `KeyStore.TwoKeyFile`, `Gate.AcceptedIffCleanLine` |
| HopHeaders.CanonicalKey | server/server.go:57 | definition of the canonical form `Header.Del` looks up; properties in `HopHeaders.CanonicalKeyShape`, `HopHeaders.CanonicalKeyIdempotent`, `HopHeaders.CanonicalTE` |
| HopHeaders.HopHeaderSet | server/server.go:27-36 | definition of the set of the eight `hopHeaders` names; properties in `HopHeaders.HopHeaderNamesCanonical`, `HopHeaders.StripHopHeaders` |
| Gate.QueryGet | server/server.go:87 | definition of `url.Values.Get`: the first value, or "" when the name is absent or has none; properties in `Gate.AcceptedIffCleanLine`, `Gate.EmptyKeyAcceptedIffBlankLine` |
| Gate.UpgradeValues | server/server.go:95 | definition of `r.Header["Upgrade"]`, empty when absent; properties in `Gate.ScanUpgrade`, `Gate.UpgradeMatchIsExact` |
| Gate.Decide | server/server.go:72-104 | definition of the order of checks; properties in `Gate.RelayIffAuthorized`, `Gate.MissingAuthIgnoresKeyFile`, `Gate.KeyFileErrorBeforeComparison`, `Gate.WhitespaceKeyNeverAuthorizes`, `Gate.AcceptedIffCleanLine` |
| Gate.ScanUpgrade | server/server.go:93-100 | the loop reports an upgrade iff some Upgrade value is exactly "websocket" |
| Gate.RelayIffAuthorized | server/server.go:72-104 | a request reaches either relay iff its key is in the list read; it reaches the WebSocket path iff, in addition, an Upgrade value is "websocket" |
| Gate.MissingAuthIgnoresKeyFile | server/server.go:72-76 | without `auth` the answer is 403 whatever the key file holds or whether it opens |
| Gate.KeyFileErrorBeforeComparison | server/server.go:78-84 | with `auth` present, an unopenable key file gives 500 whatever the headers say |
| Gate.WhitespaceKeyNeverAuthorizes | server/server.go:86-91 | a presented key containing whitespace is never accepted: it yields 500 or 400 |
| Gate.EmptyKeyAcceptedIffBlankLine | server/server.go:86-91 | the empty key is accepted iff the key file has a blank line |
| Gate.AcceptedIffCleanLine | server/server.go:79-91 | a key is accepted iff it is, character for character, a whitespace-free line of the key file |
| Gate.UpgradeMatchIsExact | server/server.go:95-97 | "WebSocket" and "websocket, x" do not upgrade; "websocket" as a later value does |
| Relay.Redirect | server/server.go:39-67 | definition of `httpRedirect`'s outcome; properties in `Relay.HttpRedirect`, `Relay.RelayPassesThrough`, `Relay.UpstreamHeadersNotCopied` |
| Relay.Serve | server/server.go:70-121 | definition of `serverHandler`'s outcome; properties in `Relay.HandleRequest`, `Relay.MissingAuthForbidden`, `Relay.UnreadableKeyFileFatal`, `Relay.UnknownKeyBadRequest`, `Relay.UpstreamOnlyWhenAuthorized`, `Relay.SessionNeedsExactUpgrade` |
| Relay.HttpRedirect | server/server.go:39-67 | the step-by-step `httpRedirect`, with the in-place header deletion, produces the outcome `Redirect` describes |
| Relay.HandleRequest | server/server.go:70-121 | the step-by-step `serverHandler` produces the outcome `Serve` describes, and reads the key file iff `auth` is present |
| Relay.MissingAuthForbidden | server/server.go:72-76 | without `auth`: 403 whatever the key file and upstream do, and the upstream is not contacted |
| Relay.UnreadableKeyFileFatal | server/server.go:78-84 | an unopenable key file: the handler writes a 500 and the process exits (`Fatal`), whatever the upstream would do |
| Relay.UnknownKeyBadRequest | server/server.go:86-91 | a key that is not a line of the file: 400 |
| Relay.WhitespaceKeyNeverRelayed | server/server.go:79-91 | a key holding whitespace never reaches the upstream |
| Relay.UpstreamOnlyWhenAuthorized | server/server.go:70-121 | whenever the upstream is contacted, `auth` was present, the key file opened and the key is a whitespace-free line of it |
| Relay.RelayPassesThrough | server/server.go:41-66 | the relay sends the inbound method and body to HTTP_RPC, writes the upstream status unchanged, and the whole body when the copy completes (a prefix otherwise) |
| Relay.UpstreamHeadersNotCopied | server/server.go:55-62 | the outcome does not depend on the upstream response headers |
| Relay.SessionNeedsExactUpgrade | server/server.go:93-121 | a session starts only for an accepted key and an Upgrade value of exactly "websocket", and it is dialled to WS_RPC |
| Relay.SampleKeys | utils/files.go:15-37 | the file "abc123\ndef456\n" loads as the two keys |
| Relay.SampleRelayed | server/server.go:70-104 | with those keys, `GET ?auth=abc123` and an upstream answering 200, the client gets 200 and the upstream body |
| Relay.SampleRefused | server/server.go:86-91 | with those keys, `?auth=zzz` gets 400 |
| Pump.FormatCloseMessage | server/server.go:134 | definition of `websocket.FormatCloseMessage`; properties in `Pump.CloseMessageRoundTrip`, `Pump.InternalErrorClose` |
| Pump.Run | server/server.go:129-145 | definition of what one pump forwards and how often it reads; properties in `Pump.RunForwardsPrefix`, `Pump.RunStopsAtFirstError`, `Pump.RunWithoutWriteErrors`, `Pump.RunReadBound` |
| Pump.Forward | server/server.go:129-145 | definition of the loop as a step function on the two connections; properties in `Pump.ForwardFollowsRun`, `Pump.UpstreamToClient`, `Pump.ClientToUpstream` |
| Pump.InternalErrorClose | server/server.go:134 | the close frame both pumps send is the payload 0x03 0xF3, which parses back to code 1011 and an empty reason |
| Pump.CloseMessageRoundTrip | server/server.go:134 | every sendable close code and reason survive formatting and parsing |
| Pump.DataFramesAt | server/server.go:138 | each data frame written carries the message read at the same position, with its type and payload |
| Pump.RunForwardsPrefix | server/server.go:129-145 | a pump forwards a prefix of what its source delivered before the first read error, in order |
| Pump.RunStopsAtFirstError | server/server.go:129-145 | every write but the last succeeded; the pump stops early only at a failed write; it reads once more than it forwarded unless the last write failed |
| Pump.RunWithoutWriteErrors | server/server.go:129-145 | with no write errors a pump forwards everything its source delivered, then makes one more read, the failing one |
| Pump.RunReadBound | server/server.go:129-137 | a pump never reads past its source's first error |
| Pump.ForwardFollowsRun | server/server.go:129-145 | the loop reads `Run`'s number of times from the source and writes exactly the forwarded messages, in order, to the destination; nothing else changes |
| Pump.UpstreamPumpClientLog | server/server.go:125-146 | the client is sent the forwarded messages as data frames in order, then exactly one close frame, which is the last |
| Pump.ClientPumpClientLog | server/server.go:150-167 | in the client-to-upstream loop the client is sent only the one close frame, and the upstream gets the forwarded messages |
| Pump.Conn.ReadMessage | server/server.go:131 | a read takes the next scripted result and counts one call |
| Pump.Conn.WriteMessage | server/server.go:138 | a write takes the next scripted outcome and logs the frame |
| Pump.UpstreamToClient | server/server.go:125-146 | the goroutine leaves both connections in the states `Forward` gives, plus one close frame written to the client |
| Pump.ClientToUpstream | server/server.go:150-167 | the loop leaves both connections in the states `Forward` gives, plus one close frame written back to the client |

## Left out

- Concurrency: the two pumps run at the same time and share the client connection. Each is modelled on its own, over its own view of the connections.
- Paired shutdown: the deferred `Close` calls (server/server.go:112, 122, 126-127) are not modelled, and neither is how one pump's exit ends the other's blocked read.
- Network I/O, the upgrade handshake (45-second timeout, compression, origin check) and the upstream dial are inputs that say whether each succeeds. client/client.go and main.go are not part of this model.
- Logging: `log.Println` output is dropped. `log.Fatalln` is modelled only as the outcome `Fatal`, which ends the process.
- `bufio.Scanner` errors: a line longer than 64 KiB or a read error ends the loop early. `ImportKeys` never checks `Scanner.Err()`, so it silently returns the keys read so far. The model reads the whole file.
- The regular expression engine: `\s` is modelled directly as its five characters.
- Bytes vs characters: the key file and the query are modelled as sequences of characters. Invalid UTF-8 is not modelled.
- Query and header parsing (`r.URL.Query()`, Go's canonicalization of incoming header names) happen before the model: a request carries its parsed query and header maps.
- After a failed `io.Copy`, `http.Error`'s text may be appended to the partial body. The model records only that the copy broke (`copyBroke`), followed by process exit.
- What reaches the client is not modelled, only what the handler hands to `w`. `Fatal` records the 500 the handler writes, but `log.Fatalln` exits before the handler returns, so the buffered reply may never be flushed; after a failed dial the writer is already hijacked and the client sees only the handshake. `Abandoned` does not carry the error status `upgrader.Upgrade` sends on its own (for example 405 for an authorized `POST` with `Upgrade: websocket`).
- `WriteHeader` with a status code Go rejects (below 100 or above 999) is not modelled.
- Ping, pong and close frames from the peer are handled inside the WebSocket library and never reach `ReadMessage`. The model's reads yield only text and binary messages or an error.
- Time: "within a bounded time" properties are not expressible in this model.
