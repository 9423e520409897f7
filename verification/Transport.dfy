/** The read-only request/response connection (openapi.py): `receive`, `request` and
    `wait_for` over a socket that hands out its bytes in arbitrary chunks. */
module Transport {
  import opened Framing
  import Exchange

  class Socket {
    var input: seq<byte>
    var output: seq<byte>

    constructor (bytes: seq<byte>)
      ensures input == bytes && output == []
    {
      input, output := bytes, [];
    }

    /** Any non-empty part of what is there, up to `size` bytes; nothing once the server has
        closed the stream. */
    method Recv(size: nat) returns (chunk: seq<byte>)
      requires size > 0
      modifies this`input
      ensures |chunk| <= size && chunk + input == old(input)
      ensures chunk == [] <==> old(input) == []
    {
      if input == [] {
        return [];
      }
      var k :| 1 <= k <= size && k <= |input|;
      chunk := input[..k];
      input := input[k..];
    }

    method SendAll(bytes: seq<byte>)
      modifies this`output
      ensures output == old(output) + bytes
    {
      output := output + bytes;
    }
  }

  class ReadOnlyOpenApi {
    const protocol: Protocol
    const socket: Socket
    var nextId: nat
    var pending: seq<Envelope>
    ghost var sent: seq<Envelope>

    /** The bytes written are the envelopes sent. */
    ghost predicate Valid()
      reads this, socket
    {
      Fits(protocol, sent) && socket.output == Wire(protocol, sent)
    }

    ghost function State(): Exchange.Conn
      reads this, socket
    {
      Exchange.Conn(socket.input, nextId, pending, sent)
    }

    constructor (protocol: Protocol, socket: Socket)
      requires socket.output == []
      ensures Valid() && State() == Exchange.Conn(socket.input, 1, [], [])
      ensures this.protocol == protocol && this.socket == socket
    {
      this.protocol, this.socket := protocol, socket;
      nextId, pending, sent := 1, [], [];
    }

    method Write(e: Envelope) returns (done: bool)
      requires Valid()
      modifies this`sent, socket`output
      ensures Valid() && done == Sendable(protocol, e)
      ensures sent == if done then old(sent) + [e] else old(sent)
    {
      var envelope := protocol.encode(e);
      if |envelope| >= HEADER_LIMIT {
        return false;
      }
      socket.SendAll(Pack(|envelope|) + envelope);
      WireAppend(protocol, sent, e);
      sent := sent + [e];
      return true;
    }

    method ReadExactly(size: nat) returns (r: Result<seq<byte>>)
      modifies socket`input
      ensures if |old(socket.input)| >= size
              then r == Ok(old(socket.input)[..size]) && socket.input == old(socket.input)[size..]
              else r == Err(Closed) && socket.input == []
    {
      var chunks: seq<byte> := [];
      while |chunks| < size
        invariant |chunks| <= size && chunks + socket.input == old(socket.input)
        decreases size - |chunks|
      {
        var chunk := socket.Recv(size - |chunks|);
        if chunk == [] {
          return Err(Closed);
        }
        chunks := chunks + chunk;
      }
      return Ok(chunks);
    }

    /** The two reads of `receive`. */
    method ReadBody() returns (r: Result<seq<byte>>)
      modifies socket`input
      ensures ReadFrame(old(socket.input)) ==
              match r case Ok(body) => Body(body, socket.input) case Err(f) => Broken(f, socket.input)
    {
      var header := ReadExactly(4);
      if header.Err? {
        return Err(header.failure);
      }
      var size := Unpack(header.value);
      if size <= 0 || size > MAX_FRAME {
        return Err(BadSize(size));
      }
      r := ReadExactly(size);
    }

    /** One heartbeat under the next number, which is used up even if it cannot be sent. */
    method AnswerHeartbeat() returns (done: bool)
      requires Valid()
      modifies this`nextId, this`sent, socket`output
      ensures Valid() && nextId == old(nextId) + 1
      ensures done == Sendable(protocol, Beat(protocol, old(nextId)))
      ensures sent == if done then old(sent) + [Beat(protocol, old(nextId))] else old(sent)
    {
      var n := nextId;
      nextId := nextId + 1;
      done := Write(Beat(protocol, n));
    }

    /** Reading one frame and parsing it. */
    method ReadMessage() returns (r: Result<Envelope>)
      requires Valid()
      modifies socket`input
      ensures Valid() && State() == old(State()).(input := ReadFrame(old(socket.input)).rest)
      ensures match ReadFrame(old(socket.input))
              case Broken(f, _) => r == Err(f)
              case Body(body, rest) =>
                |rest| < |old(socket.input)| &&
                match ItemOf(protocol, body) case Bad(f) => r == Err(f) case Got(e) => r == Ok(e)
    {
      var body := ReadBody();
      if body.Err? {
        return Err(body.failure);
      }
      var message := protocol.parse(body.value);
      return if message.None? then Err(Malformed) else Ok(message.value);
    }

    method Receive() returns (r: Result<Envelope>)
      requires Valid()
      modifies this`nextId, this`sent, socket
      ensures Valid()
      ensures r == Exchange.Receive(protocol, old(State())).result
      ensures State() == Exchange.Receive(protocol, old(State())).conn
      decreases |socket.input|
    {
      ghost var start := State();
      var message := ReadMessage();
      if message.Err? {
        return message;
      }
      var e := message.value;
      if e.kind == protocol.heartbeat {
        var done := AnswerHeartbeat();
        if !done {
          return Err(BeatTooLong);
        }
        assert Exchange.Receive(protocol, start) == Exchange.Receive(protocol, State());
        r := Receive();
        return;
      }
      if e.kind == protocol.error {
        if !protocol.decodes(protocol.error, e.payload) {
          return Err(Malformed);
        }
        return Err(if protocol.isAuthError(e.payload) then AuthRequired else Rejected);
      }
      return Ok(e);
    }

    method Request(kind: nat, payload: seq<byte>, nonce: nat) returns (r: Result<Envelope>)
      requires Valid()
      modifies this, socket
      ensures Valid()
      ensures r == Exchange.Request(protocol, old(State()), kind, payload, nonce).result
      ensures State() == Exchange.Request(protocol, old(State()), kind, payload, nonce).conn
    {
      if kind !in protocol.readOnly {
        return Err(Blocked);
      }
      var clientMsgId := RequestId(nextId, nonce);
      var done := WriteRequest(kind, payload, clientMsgId);
      if !done {
        return Err(TooLong);
      }
      r := AwaitReply(clientMsgId, kind);
    }

    /** A request under the next number. */
    method WriteRequest(kind: nat, payload: seq<byte>, id: MsgId) returns (done: bool)
      requires Valid()
      modifies this`nextId, this`sent, socket`output
      ensures Valid()
      ensures var e, c := Envelope(kind, payload, id), old(State()).(nextId := old(nextId) + 1);
              && done == Sendable(protocol, e)
              && State() == if done then c.(sent := c.sent + [e]) else c
    {
      nextId := nextId + 1;
      done := Write(Envelope(kind, payload, id));
    }

    /** The loop of `request`. */
    method AwaitReply(clientMsgId: MsgId, kind: nat) returns (r: Result<Envelope>)
      requires Valid()
      modifies this, socket
      ensures Valid()
      ensures r == Exchange.Await(protocol, old(State()), clientMsgId, kind).result
      ensures State() == Exchange.Await(protocol, old(State()), clientMsgId, kind).conn
    {
      ghost var start := State();
      while true
        invariant Valid()
        invariant Exchange.Await(protocol, start, clientMsgId, kind)
               == Exchange.Await(protocol, State(), clientMsgId, kind)
        decreases |socket.input|
      {
        var envelope := Receive();
        if envelope.Err? {
          return envelope;
        }
        var e := envelope.value;
        if e.id != clientMsgId {
          pending := pending + [e];
          continue;
        }
        if e.kind != kind + 1 {
          return Err(UnexpectedType(e.kind));
        }
        if !protocol.knows(kind + 1) {
          return Err(UnknownType);
        }
        if !protocol.decodes(kind + 1, e.payload) {
          return Err(Malformed);
        }
        return envelope;
      }
    }

    method WaitFor(kind: nat, accept: seq<byte> -> bool) returns (r: Result<Envelope>)
      requires Valid()
      modifies this, socket
      ensures Valid()
      ensures r == Exchange.WaitFor(protocol, old(State()), kind, accept).result
      ensures State() == Exchange.WaitFor(protocol, old(State()), kind, accept).conn
    {
      while true
        invariant Valid()
        invariant var now, start := Exchange.WaitFor(protocol, State(), kind, accept),
                                    Exchange.WaitFor(protocol, old(State()), kind, accept);
                  now.result == start.result && now.conn == start.conn
        decreases |socket.input|, |pending|
      {
        var envelope: Result<Envelope>;
        if pending != [] {
          envelope := Ok(pending[0]);
          pending := pending[1..];
        } else {
          envelope := Receive();
        }
        if envelope.Err? {
          return envelope;
        }
        var e := envelope.value;
        if e.kind != kind {
          continue;
        }
        if !protocol.decodes(kind, e.payload) {
          return Err(Malformed);
        }
        if accept(e.payload) {
          return envelope;
        }
      }
    }
  }
}
