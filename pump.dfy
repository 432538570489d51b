/**
 * One message pump of a WebSocket session (server/server.go): read a
 * message from one connection, write it with the same type to the other,
 * and on the first read or write error write one close frame with code
 * 1011 (`CloseInternalServerErr`, section 11.7 of RFC 6455) to the client
 * connection and stop. Each connection's reads and write outcomes are a
 * finite script; the two pumps run concurrently in the source and are
 * modelled one at a time.
 */
module Pump {
  import opened Base

  /** The data message types `ReadMessage` returns; control frames never surface there. */
  datatype MessageType = TextMessage | BinaryMessage

  datatype Message = Message(kind: MessageType, payload: Bytes)

  datatype ReadResult = Received(msg: Message) | ReadFailed

  /** What a pump passes to `WriteMessage`: a data message, or a close frame with its payload. */
  datatype Frame = Data(msg: Message) | Close(payload: Bytes)

  const CloseNoStatusReceived := 1005
  const CloseInternalServerErr := 1011

  // ---------------------------------------------------------------------------
  // websocket.FormatCloseMessage

  /**
   * The close payload of section 5.5.1 of RFC 6455: the code as a big-endian
   * 16-bit integer (Go's `uint16` conversion keeps the low 16 bits), then the
   * reason. Code 1005 may not be sent, so it yields an empty payload.
   */
  function FormatCloseMessage(code: int, reason: Bytes): Bytes {
    if code == CloseNoStatusReceived then []
    else [((code % 65536) / 256) as byte, (code % 256) as byte] + reason
  }

  /** Reads a close payload back into its code and reason. */
  function ParseCloseMessage(payload: Bytes): Option<(int, Bytes)> {
    if |payload| < 2 then None
    else Some((payload[0] as int * 256 + payload[1] as int, payload[2..]))
  }

  /** Every sendable 16-bit code and its reason survive the round trip. */
  lemma CloseMessageRoundTrip(code: int, reason: Bytes)
    requires 0 <= code < 65536 && code != CloseNoStatusReceived
    ensures ParseCloseMessage(FormatCloseMessage(code, reason)) == Some((code, reason))
  {
    var p := FormatCloseMessage(code, reason);
    var hi, lo := code / 256, code % 256;
    assert code % 65536 == code;
    assert p == [hi as byte, lo as byte] + reason;
    assert p[0] as int == hi && p[1] as int == lo && p[2..] == reason;
    assert hi * 256 + lo == code;
  }

  /** The frame both pumps send on error: code 1011, no reason, bytes 0x03 0xF3. */
  function InternalErrorClose(): (f: Frame)
    ensures f.Close? && f.payload == [3, 243]
    ensures ParseCloseMessage(f.payload) == Some((CloseInternalServerErr, []))
  {
    Close(FormatCloseMessage(CloseInternalServerErr, []))
  }

  // ---------------------------------------------------------------------------
  // Scripts

  /** The result of the next read: a read past the end of the script fails, as on a closed peer. */
  function NextRead(incoming: seq<ReadResult>): ReadResult {
    if incoming == [] then ReadFailed else incoming[0]
  }

  /** The result of the next write: a write past the end of the script succeeds. */
  function NextWrite(outcomes: seq<bool>): bool {
    outcomes == [] || outcomes[0]
  }

  /** The script after `n` steps. */
  function Drop<T>(s: seq<T>, n: nat): seq<T> {
    if n >= |s| then [] else s[n..]
  }

  /** The messages a connection delivers before its first read error. */
  function Delivered(incoming: seq<ReadResult>): seq<Message> {
    match NextRead(incoming)
    case ReadFailed => []
    case Received(m) => [m] + Delivered(incoming[1..])
  }

  /** Whether the `j`-th write (from 0) of a script succeeds. */
  predicate WriteSucceeds(outcomes: seq<bool>, j: nat) {
    j >= |outcomes| || outcomes[j]
  }

  /** What a pump does before it stops: the messages it passed to `WriteMessage`, and how many reads it made. */
  datatype PumpRun = PumpRun(forwarded: seq<Message>, readCalls: nat)

  /** One pump over a read script and the destination's write script, step by step. */
  function Run(incoming: seq<ReadResult>, outcomes: seq<bool>): PumpRun
    decreases |incoming|
  {
    match NextRead(incoming)
    case ReadFailed => PumpRun([], 1)
    case Received(m) =>
      if !NextWrite(outcomes) then PumpRun([m], 1)
      else
        var more := Run(incoming[1..], Drop(outcomes, 1));
        PumpRun([m] + more.forwarded, 1 + more.readCalls)
  }

  /** The frames written for a run of forwarded messages. */
  function DataFrames(ms: seq<Message>): (fs: seq<Frame>)
    ensures |fs| == |ms|
  {
    if ms == [] then [] else [Data(ms[0])] + DataFrames(ms[1..])
  }

  /** Each frame written for a run carries the message at the same position. */
  lemma {:induction false} DataFramesAt(ms: seq<Message>, i: int)
    requires 0 <= i < |ms|
    ensures DataFrames(ms)[i] == Data(ms[i])
    decreases |ms|
  {
    if i > 0 {
      DataFramesAt(ms[1..], i - 1);
    }
  }

  /** Forwarding two runs one after the other writes their frames one after the other. */
  lemma {:induction false} DataFramesAppend(a: seq<Message>, b: seq<Message>)
    ensures DataFrames(a + b) == DataFrames(a) + DataFrames(b)
    decreases |a|
  {
    if a == [] {
      assert a + b == b;
    } else {
      assert (a + b)[0] == a[0];
      assert (a + b)[1..] == a[1..] + b;
      DataFramesAppend(a[1..], b);
    }
  }

  // ---------------------------------------------------------------------------
  // Properties of a run

  /** A pump forwards a prefix of what its source delivered, in order and with the same types. */
  lemma {:induction false} RunForwardsPrefix(incoming: seq<ReadResult>, outcomes: seq<bool>)
    ensures |Run(incoming, outcomes).forwarded| <= |Delivered(incoming)|
    ensures Run(incoming, outcomes).forwarded == Delivered(incoming)[..|Run(incoming, outcomes).forwarded|]
    decreases |incoming|
  {
    match NextRead(incoming)
    case ReadFailed =>
    case Received(m) =>
      var d := Delivered(incoming[1..]);
      assert Delivered(incoming) == [m] + d;
      if NextWrite(outcomes) {
        var more := Run(incoming[1..], Drop(outcomes, 1));
        RunForwardsPrefix(incoming[1..], Drop(outcomes, 1));
        assert ([m] + d)[..1 + |more.forwarded|] == [m] + d[..|more.forwarded|];
      }
  }

  /** The `j`-th write of the destination's script is the `j - 1`-th of what remains after one write. */
  lemma WriteSucceedsAfterDrop(outcomes: seq<bool>, j: nat)
    ensures WriteSucceeds(Drop(outcomes, 1), j) == WriteSucceeds(outcomes, j + 1)
  {
  }

  /**
   * Every write but the last succeeded; the pump stops before the end of
   * what its source delivered only at a failed write; and it reads once
   * more than it forwarded unless the last write failed.
   */
  lemma {:induction false} RunStopsAtFirstError(incoming: seq<ReadResult>, outcomes: seq<bool>)
    ensures var run := Run(incoming, outcomes);
      var k := |run.forwarded|;
      && (forall j :: 0 <= j < k - 1 ==> WriteSucceeds(outcomes, j))
      && (k < |Delivered(incoming)| ==> k > 0 && !WriteSucceeds(outcomes, k - 1))
      && run.readCalls == if k > 0 && !WriteSucceeds(outcomes, k - 1) then k else k + 1
    decreases |incoming|
  {
    match NextRead(incoming)
    case ReadFailed =>
    case Received(m) =>
      assert Delivered(incoming) == [m] + Delivered(incoming[1..]);
      if NextWrite(outcomes) {
        var w := Drop(outcomes, 1);
        var more := Run(incoming[1..], w);
        RunStopsAtFirstError(incoming[1..], w);
        var k' := |more.forwarded|;
        assert WriteSucceeds(outcomes, 0);
        forall j | 0 <= j < k'
          ensures WriteSucceeds(outcomes, j)
        {
          if j > 0 {
            WriteSucceedsAfterDrop(outcomes, j - 1);
          }
        }
        if k' > 0 {
          WriteSucceedsAfterDrop(outcomes, k' - 1);
        }
      } else {
        assert !WriteSucceeds(outcomes, 0);
      }
  }

  /** With no write errors the pump relays everything its source delivered, then reads the error. */
  lemma RunWithoutWriteErrors(incoming: seq<ReadResult>, outcomes: seq<bool>)
    requires forall j :: 0 <= j < |outcomes| ==> outcomes[j]
    ensures Run(incoming, outcomes) == PumpRun(Delivered(incoming), |Delivered(incoming)| + 1)
  {
    RunForwardsPrefix(incoming, outcomes);
    RunStopsAtFirstError(incoming, outcomes);
    var k := |Run(incoming, outcomes).forwarded|;
    assert k > 0 ==> WriteSucceeds(outcomes, k - 1);
    assert Delivered(incoming)[..|Delivered(incoming)|] == Delivered(incoming);
  }

  /** A pump never reads past its source's first error and never reads more than once past a message. */
  lemma RunReadBound(incoming: seq<ReadResult>, outcomes: seq<bool>)
    ensures Run(incoming, outcomes).readCalls <= |Delivered(incoming)| + 1
    ensures |Run(incoming, outcomes).forwarded| <= Run(incoming, outcomes).readCalls
  {
    RunForwardsPrefix(incoming, outcomes);
    RunStopsAtFirstError(incoming, outcomes);
  }

  // ---------------------------------------------------------------------------
  // Connections and the two loops

  /** What one side of a `*websocket.Conn` looks like to a pump at one moment. */
  datatype Endpoint = Endpoint(
    incoming: seq<ReadResult>,  // outcomes of the reads still to come
    outcomes: seq<bool>,        // outcomes of the writes still to come
    readCount: nat,             // `ReadMessage` calls so far
    sent: seq<Frame>)           // frames passed to `WriteMessage`, in call order

  /** The endpoint after one `ReadMessage` call. */
  function AfterRead(e: Endpoint): Endpoint {
    e.(incoming := Drop(e.incoming, 1), readCount := e.readCount + 1)
  }

  /** The endpoint after one `WriteMessage(f)` call. */
  function AfterWrite(e: Endpoint, f: Frame): Endpoint {
    e.(outcomes := Drop(e.outcomes, 1), sent := e.sent + [f])
  }

  /**
   * The loop body of either pump, run until it stops: read from `src`; on
   * a read error stop; otherwise write the message to `dst`; on a write
   * error stop. The close frame written after it is not part of this.
   */
  function Forward(src: Endpoint, dst: Endpoint): (Endpoint, Endpoint)
    decreases |src.incoming|
  {
    match NextRead(src.incoming)
    case ReadFailed => (AfterRead(src), dst)
    case Received(m) =>
      if !NextWrite(dst.outcomes) then (AfterRead(src), AfterWrite(dst, Data(m)))
      else Forward(AfterRead(src), AfterWrite(dst, Data(m)))
  }

  lemma DropAfterDrop<T>(s: seq<T>, n: nat)
    ensures Drop(Drop(s, 1), n) == Drop(s, n + 1)
  {
  }

  /**
   * The loop reads `Run(...).readCalls` times from its source and writes
   * exactly the forwarded messages, as data frames in order, to its
   * destination; nothing else in either endpoint changes.
   */
  lemma {:induction false} ForwardFollowsRun(src: Endpoint, dst: Endpoint)
    ensures var run := Run(src.incoming, dst.outcomes);
      Forward(src, dst) == (
        src.(incoming := Drop(src.incoming, run.readCalls), readCount := src.readCount + run.readCalls),
        dst.(outcomes := Drop(dst.outcomes, |run.forwarded|), sent := dst.sent + DataFrames(run.forwarded)))
    decreases |src.incoming|
  {
    match NextRead(src.incoming)
    case ReadFailed =>
      assert dst.sent + DataFrames([]) == dst.sent;
    case Received(m) =>
      assert DataFrames([m]) == [Data(m)] + DataFrames([]);
      if NextWrite(dst.outcomes) {
        var src', dst' := AfterRead(src), AfterWrite(dst, Data(m));
        assert src'.incoming == src.incoming[1..];
        var more := Run(src'.incoming, dst'.outcomes);
        ForwardFollowsRun(src', dst');
        DropAfterDrop(src.incoming, more.readCalls);
        DropAfterDrop(dst.outcomes, |more.forwarded|);
        DataFramesAppend([m], more.forwarded);
        assert Run(src.incoming, dst.outcomes) == PumpRun([m] + more.forwarded, 1 + more.readCalls);
        assert Forward(src, dst) == Forward(src', dst');
        assert dst'.sent + DataFrames(more.forwarded) == dst.sent + DataFrames([m] + more.forwarded);
      } else {
        assert DataFrames([m]) == [Data(m)];
      }
  }

  /**
   * What the client is sent by the upstream-to-client pump: the forwarded
   * messages as data frames, in order, then exactly one close frame, which
   * is the last frame.
   */
  lemma UpstreamPumpClientLog(upstream: Endpoint, client: Endpoint)
    ensures var run := Run(upstream.incoming, client.outcomes);
      var log := AfterWrite(Forward(upstream, client).1, InternalErrorClose()).sent;
      && log == client.sent + DataFrames(run.forwarded) + [InternalErrorClose()]
      && (forall i :: |client.sent| <= i < |log| - 1 ==> log[i] == Data(run.forwarded[i - |client.sent|]))
  {
    ForwardFollowsRun(upstream, client);
    var run := Run(upstream.incoming, client.outcomes);
    var log := AfterWrite(Forward(upstream, client).1, InternalErrorClose()).sent;
    forall i | |client.sent| <= i < |log| - 1
      ensures log[i] == Data(run.forwarded[i - |client.sent|])
    {
      DataFramesAt(run.forwarded, i - |client.sent|);
    }
  }

  /**
   * What the client is sent by the client-to-upstream pump: one close frame
   * and nothing else; the forwarded messages all go to the upstream.
   */
  lemma ClientPumpClientLog(client: Endpoint, upstream: Endpoint)
    ensures var run := Run(client.incoming, upstream.outcomes);
      var (c, u) := Forward(client, upstream);
      && AfterWrite(c, InternalErrorClose()).sent == client.sent + [InternalErrorClose()]
      && u.sent == upstream.sent + DataFrames(run.forwarded)
  {
    ForwardFollowsRun(client, upstream);
  }

  /** A `*websocket.Conn` seen from one pump. */
  class Conn {
    var incoming: seq<ReadResult>
    var outcomes: seq<bool>
    var readCount: nat
    var sent: seq<Frame>

    function State(): Endpoint
      reads this
    {
      Endpoint(incoming, outcomes, readCount, sent)
    }

    constructor (incoming: seq<ReadResult>, outcomes: seq<bool>)
      ensures State() == Endpoint(incoming, outcomes, 0, [])
    {
      this.incoming := incoming;
      this.outcomes := outcomes;
      readCount := 0;
      sent := [];
    }

    method ReadMessage() returns (r: ReadResult)
      modifies this
      ensures r == NextRead(old(incoming)) && State() == AfterRead(old(State()))
    {
      r := NextRead(incoming);
      incoming := Drop(incoming, 1);
      readCount := readCount + 1;
    }

    method WriteMessage(f: Frame) returns (ok: bool)
      modifies this
      ensures ok == NextWrite(old(outcomes)) && State() == AfterWrite(old(State()), f)
    {
      ok := NextWrite(outcomes);
      outcomes := Drop(outcomes, 1);
      sent := sent + [f];
    }
  }

  /**
   * The goroutine at lines 125-146: upstream to client. The client gets the
   * forwarded messages and then one close frame; the upstream is only read.
   */
  method UpstreamToClient(upstream: Conn, client: Conn)
    requires upstream != client
    modifies upstream, client
    ensures var (u, c) := Forward(old(upstream.State()), old(client.State()));
      upstream.State() == u && client.State() == AfterWrite(c, InternalErrorClose())
  {
    while true
      invariant Forward(upstream.State(), client.State()) == Forward(old(upstream.State()), old(client.State()))
      decreases |upstream.incoming|
    {
      var r := upstream.ReadMessage();
      if r.ReadFailed? {
        var _ := client.WriteMessage(InternalErrorClose());
        break;
      }
      var ok := client.WriteMessage(Data(r.msg));
      if !ok {
        var _ := client.WriteMessage(InternalErrorClose());
        break;
      }
    }
  }

  /**
   * The loop at lines 150-167: client to upstream. The upstream gets the
   * forwarded messages; the close frame goes back to the client, which is
   * both the source and the connection that is told about the error.
   */
  method ClientToUpstream(client: Conn, upstream: Conn)
    requires client != upstream
    modifies client, upstream
    ensures var (c, u) := Forward(old(client.State()), old(upstream.State()));
      client.State() == AfterWrite(c, InternalErrorClose()) && upstream.State() == u
  {
    while true
      invariant Forward(client.State(), upstream.State()) == Forward(old(client.State()), old(upstream.State()))
      decreases |client.incoming|
    {
      var r := client.ReadMessage();
      if r.ReadFailed? {
        var _ := client.WriteMessage(InternalErrorClose());
        break;
      }
      var ok := upstream.WriteMessage(Data(r.msg));
      if !ok {
        var _ := client.WriteMessage(InternalErrorClose());
        break;
      }
    }
  }
}
