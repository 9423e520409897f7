/** What `receive`, `request` and `wait_for` of openapi.py do to a connection, as
    functions of its state. */
module Exchange {
  import opened Framing

  /** A connection: what the server will still send, the message counter, the queue of
      unrelated messages, and everything sent so far. */
  datatype Conn = Conn(input: seq<byte>, nextId: nat, pending: seq<Envelope>, sent: seq<Envelope>)

  /** The answer of an operation and the connection after it. */
  datatype Reply = Reply(result: Result<Envelope>, conn: Conn)

  /** The connection after its stream's first frame has been read. */
  function Past(c: Conn): Conn {
    c.(input := ReadFrame(c.input).rest)
  }

  function Counted(c: Conn): Conn {
    c.(nextId := c.nextId + 1)
  }

  function BeatSent(p: Protocol, c: Conn): Conn {
    Counted(c).(sent := c.sent + [Beat(p, c.nextId)])
  }

  /** `receive`: heartbeats are answered and skipped, the queue is not looked at. */
  function Receive(p: Protocol, c: Conn): (r: Reply)
    ensures |r.conn.input| <= |c.input| && (r.result.Ok? ==> |r.conn.input| < |c.input|)
    decreases |c.input|, 1
  {
    match ReadFrame(c.input)
    case Broken(f, _) => Reply(Err(f), Past(c))
    case Body(body, _) => ReceiveItem(p, c, ItemOf(p, body))
  }

  /** What `receive` does when `x` is the stream's first item. */
  function ReceiveItem(p: Protocol, c: Conn, x: Item): (r: Reply)
    requires |Past(c).input| < |c.input|
    ensures |r.conn.input| < |c.input|
    decreases |c.input|, 0
  {
    if x.Bad? then Reply(Err(x.failure), Past(c))
    else if x.e.kind != p.heartbeat then
      Reply(if x.e.kind == p.error then Err(ErrorOf(p, x.e.payload)) else Ok(x.e), Past(c))
    else if Sendable(p, Beat(p, c.nextId)) then Receive(p, BeatSent(p, Past(c)))
    else Reply(Err(BeatTooLong), Counted(Past(c)))
  }

  lemma RestOfItems(p: Protocol, c: Conn)
    requires Items(p, c.input) != []
    ensures |Past(c).input| < |c.input| && Items(p, Past(c).input) == Items(p, c.input)[1..]
  {
  }

  lemma ReceiveByItem(p: Protocol, c: Conn)
    ensures Items(p, c.input) != [] ==> |Past(c).input| < |c.input|
    ensures Receive(p, c) == if Items(p, c.input) == [] then Reply(Err(Closed), c.(input := []))
                             else ReceiveItem(p, c, Items(p, c.input)[0])
  {
  }

  /** The envelope with our id has arrived: it has to be of the type that answers ours. */
  function Answer(p: Protocol, e: Envelope, kind: nat): Result<Envelope> {
    if e.kind != kind + 1 then Err(UnexpectedType(e.kind))
    else if !p.knows(kind + 1) then Err(UnknownType)
    else if !p.decodes(kind + 1, e.payload) then Err(Malformed)
    else Ok(e)
  }

  /** The loop of `request`: queue everything until the envelope with our id arrives. */
  function Await(p: Protocol, c: Conn, id: MsgId, kind: nat): Reply
    decreases |c.input|
  {
    var r := Receive(p, c);
    match r.result
    case Err(f) => r
    case Ok(e) =>
      if e.id != id then Await(p, r.conn.(pending := r.conn.pending + [e]), id, kind)
      else r.(result := Answer(p, e, kind))
  }

  /** `request`: only read-only types get as far as the socket. */
  function Request(p: Protocol, c: Conn, kind: nat, payload: seq<byte>, nonce: nat): Reply {
    if kind !in p.readOnly then Reply(Err(Blocked), c)
    else
      var id := RequestId(c.nextId, nonce);
      var e := Envelope(kind, payload, id);
      var counted := c.(nextId := c.nextId + 1);
      if !Sendable(p, e) then Reply(Err(TooLong), counted) else Await(p, counted.(sent := c.sent + [e]), id, kind)
  }

  /** The oldest message at hand: from the queue, else from the socket. */
  function Pop(p: Protocol, c: Conn): (r: Reply)
    ensures r.result.Ok? ==>
              |r.conn.input| < |c.input| || (r.conn.input == c.input && |r.conn.pending| < |c.pending|)
  {
    if c.pending != [] then Reply(Ok(c.pending[0]), c.(pending := c.pending[1..])) else Receive(p, c)
  }

  /** Messages of another type are dropped, and those the predicate turns down. */
  predicate Skips(p: Protocol, kind: nat, accept: seq<byte> -> bool, e: Envelope) {
    e.kind != kind || (p.decodes(kind, e.payload) && !accept(e.payload))
  }

  /** `wait_for`: the queue first, then the socket; everything that does not match is
      dropped. */
  function WaitFor(p: Protocol, c: Conn, kind: nat, accept: seq<byte> -> bool): Reply
    decreases |c.input|, |c.pending|
  {
    var r := Pop(p, c);
    match r.result
    case Err(f) => r
    case Ok(e) =>
      if Skips(p, kind, accept, e) then WaitFor(p, r.conn, kind, accept)
      else if !p.decodes(kind, e.payload) then r.(result := Err(Malformed))
      else r
  }
}
