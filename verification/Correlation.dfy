/** Ids over whole runs on one connection, going on after errors: all are distinct, only reads
    and heartbeats are sent, and a reply cannot be missed. */
module Correlation {
  import opened Framing
  import opened Exchange
  import opened Conservation

  function Number(id: MsgId): nat {
    match id
    case RequestId(n, _) => n
    case HeartbeatId(n) => n
    case OtherId(_) => 0
  }

  /** Everything sent is an allowed read or a heartbeat, and the message numbers used grow
      strictly and stay below the counter. */
  ghost predicate SentOk(p: Protocol, c: Conn) {
    && (forall e | e in c.sent :: IsOwn(p, e) && Number(e.id) < c.nextId)
    && (forall i, j | 0 <= i < j < |c.sent| :: Number(c.sent[i].id) < Number(c.sent[j].id))
  }

  ghost predicate IsOwn(p: Protocol, e: Envelope) {
    || (e.kind in p.readOnly && e.id.RequestId?)
    || (e.kind == p.heartbeat && e.id.HeartbeatId?)
  }

  /** `d` has sent more than `c`, in good order. */
  ghost predicate SendsOn(p: Protocol, c: Conn, d: Conn) {
    SentOk(p, c) ==> SentOk(p, d) && c.sent <= d.sent
  }

  lemma SendingKeepsOrder(p: Protocol, c: Conn, e: Envelope)
    requires SentOk(p, c) && IsOwn(p, e) && Number(e.id) == c.nextId
    ensures SentOk(p, c.(sent := c.sent + [e], nextId := c.nextId + 1))
  {
    assert forall i | 0 <= i < |c.sent| :: c.sent[i] in c.sent;
  }

  lemma {:induction false} ReceiveSendsOn(p: Protocol, c: Conn)
    ensures SendsOn(p, c, Receive(p, c).conn) && Receive(p, c).conn.pending == c.pending
    decreases |c.input|
  {
    ReceiveByItem(p, c);
    if Items(p, c.input) != [] && IsBeat(p, Items(p, c.input)[0]) && Sendable(p, Beat(p, c.nextId)) {
      if SentOk(p, c) {
        SendingKeepsOrder(p, Past(c), Beat(p, c.nextId));
      }
      ReceiveSendsOn(p, BeatSent(p, Past(c)));
    }
  }

  lemma {:induction false} AwaitSendsOn(p: Protocol, c: Conn, id: MsgId, kind: nat)
    ensures SendsOn(p, c, Await(p, c, id, kind).conn)
    decreases |c.input|
  {
    ReceiveSendsOn(p, c);
    var r := Receive(p, c);
    if r.result.Ok? && r.result.value.id != id {
      AwaitSendsOn(p, r.conn.(pending := r.conn.pending + [r.result.value]), id, kind);
    }
  }

  lemma {:induction false} WaitSendsOn(p: Protocol, c: Conn, kind: nat, accept: seq<byte> -> bool)
    ensures SendsOn(p, c, WaitFor(p, c, kind, accept).conn)
    decreases |c.input|, |c.pending|
  {
    ReceiveSendsOn(p, c);
    var r := Pop(p, c);
    if r.result.Ok? {
      WaitSendsOn(p, r.conn, kind, accept);
    }
  }

  lemma PerformSendsOn(p: Protocol, c: Conn, op: Op)
    ensures SendsOn(p, c, Perform(p, c, op).conn)
  {
    match op {
      case Ask(kind, payload, nonce) =>
        var e := Envelope(kind, payload, RequestId(c.nextId, nonce));
        if kind in p.readOnly && SentOk(p, c) {
          SendingKeepsOrder(p, c, e);
          AwaitSendsOn(p, c.(sent := c.sent + [e], nextId := c.nextId + 1), e.id, kind);
        }
      case Watch(kind, accept) => WaitSendsOn(p, c, kind, accept);
    }
  }

  /** On any run of a fresh connection, failures included, all ids written are pairwise
      distinct and every envelope written is an allowed read request or a heartbeat. */
  lemma {:induction false} OnlyReadsWithDistinctIds(p: Protocol, c: Conn, ops: seq<Op>)
    requires SentOk(p, c)
    ensures SentOk(p, Run(p, c, ops).conn)
    ensures var s := Run(p, c, ops).conn.sent; forall i, j | 0 <= i < j < |s| :: s[i].id != s[j].id
    decreases |ops|
  {
    if ops != [] {
      PerformSendsOn(p, c, ops[0]);
      OnlyReadsWithDistinctIds(p, Perform(p, c, ops[0]).conn, ops[1..]);
    } else {
      assert forall i, j | 0 <= i < j < |c.sent| :: Number(c.sent[i].id) < Number(c.sent[j].id);
    }
  }

  // ---- what is sent --------------------------------------------------------

  predicate AreBeats(p: Protocol, es: seq<Envelope>) {
    forall e | e in es :: e.kind == p.heartbeat && e.payload == p.beatPayload && e.id.HeartbeatId?
  }

  /** `d` has sent what `c` has, and heartbeats. */
  ghost predicate BeatsOnly(p: Protocol, c: Conn, d: Conn) {
    c.sent <= d.sent && AreBeats(p, d.sent[|c.sent|..])
  }

  lemma BeatsOnlyTwice(p: Protocol, c: Conn, d: Conn, e: Conn)
    requires BeatsOnly(p, c, d) && BeatsOnly(p, d, e)
    ensures BeatsOnly(p, c, e)
  {
    assert e.sent[|c.sent|..] == d.sent[|c.sent|..] + e.sent[|d.sent|..];
  }

  lemma {:induction false} ReceiveSendsBeats(p: Protocol, c: Conn)
    ensures BeatsOnly(p, c, Receive(p, c).conn)
    decreases |c.input|
  {
    ReceiveByItem(p, c);
    if Items(p, c.input) != [] && IsBeat(p, Items(p, c.input)[0]) && Sendable(p, Beat(p, c.nextId)) {
      var d := BeatSent(p, Past(c));
      assert d.sent[|c.sent|..] == [Beat(p, c.nextId)];
      ReceiveSendsBeats(p, d);
      BeatsOnlyTwice(p, c, d, Receive(p, c).conn);
    }
  }

  lemma {:induction false} AwaitSendsBeats(p: Protocol, c: Conn, id: MsgId, kind: nat)
    ensures BeatsOnly(p, c, Await(p, c, id, kind).conn)
    decreases |c.input|
  {
    ReceiveSendsBeats(p, c);
    var r := Receive(p, c);
    if r.result.Ok? && r.result.value.id != id {
      var d := r.conn.(pending := r.conn.pending + [r.result.value]);
      AwaitSendsBeats(p, d, id, kind);
      BeatsOnlyTwice(p, c, d, Await(p, d, id, kind).conn);
    }
  }

  /** A request sends exactly itself, under the next number, and then only heartbeats. */
  lemma RequestSendsItself(p: Protocol, c: Conn, kind: nat, payload: seq<byte>, nonce: nat)
    requires kind in p.readOnly && Sendable(p, Envelope(kind, payload, RequestId(c.nextId, nonce)))
    ensures var sent := Request(p, c, kind, payload, nonce).conn.sent;
            && c.sent + [Envelope(kind, payload, RequestId(c.nextId, nonce))] <= sent
            && AreBeats(p, sent[|c.sent| + 1..])
  {
    var e := Envelope(kind, payload, RequestId(c.nextId, nonce));
    AwaitSendsBeats(p, c.(nextId := c.nextId + 1, sent := c.sent + [e]), e.id, kind);
  }

  /** A wait sends only heartbeats. */
  lemma {:induction false} WaitSendsBeats(p: Protocol, c: Conn, kind: nat, accept: seq<byte> -> bool)
    ensures BeatsOnly(p, c, WaitFor(p, c, kind, accept).conn)
    decreases |c.input|, |c.pending|
  {
    ReceiveSendsBeats(p, c);
    var r := Pop(p, c);
    if r.result.Ok? && Skips(p, kind, accept, r.result.value) {
      WaitSendsBeats(p, r.conn, kind, accept);
      BeatsOnlyTwice(p, c, r.conn, WaitFor(p, r.conn, kind, accept).conn);
    }
  }

  /** The types and payloads of the requests among `es`, in order. */
  function Asked(es: seq<Envelope>): seq<(nat, seq<byte>)> {
    if es == [] then []
    else
      var e := es[|es| - 1];
      Asked(es[..|es| - 1]) + if e.id.RequestId? then [(e.kind, e.payload)] else []
  }

  lemma {:induction false} BeatsAskNothing(p: Protocol, es: seq<Envelope>, beats: seq<Envelope>)
    requires AreBeats(p, beats)
    ensures Asked(es + beats) == Asked(es)
    decreases |beats|
  {
    if beats == [] {
      assert es + beats == es;
    } else {
      var n := |beats| - 1;
      assert (es + beats)[..|es| + n] == es + beats[..n];
      BeatsAskNothing(p, es, beats[..n]);
      assert beats[n] in beats;
    }
  }

  lemma AnsweredIsSent(p: Protocol, c: Conn, kind: nat, payload: seq<byte>, nonce: nat)
    requires Request(p, c, kind, payload, nonce).result.Ok?
    ensures Asked(Request(p, c, kind, payload, nonce).conn.sent) == Asked(c.sent) + [(kind, payload)]
  {
    RequestSendsItself(p, c, kind, payload, nonce);
    var e, sent := Envelope(kind, payload, RequestId(c.nextId, nonce)), Request(p, c, kind, payload, nonce).conn.sent;
    var own := c.sent + [e];
    assert sent == own + sent[|own|..];
    BeatsAskNothing(p, own, sent[|own|..]);
    assert own[..|own| - 1] == c.sent;
  }

  lemma WaitAsksNothing(p: Protocol, c: Conn, kind: nat, accept: seq<byte> -> bool)
    ensures Asked(WaitFor(p, c, kind, accept).conn.sent) == Asked(c.sent)
  {
    WaitSendsBeats(p, c, kind, accept);
    var sent := WaitFor(p, c, kind, accept).conn.sent;
    assert sent == c.sent + sent[|c.sent|..];
    BeatsAskNothing(p, c.sent, sent[|c.sent|..]);
  }

  // ---- a server that only echoes -------------------------------------------

  /** Request ids among `es` are ids that have been sent. */
  ghost predicate Echoes(es: seq<Envelope>, sent: seq<Envelope>) {
    forall e | e in es && e.id.RequestId? :: exists s :: s in sent && s.id == e.id
  }

  /** The request ids that each operation adds to the queue are ids sent by then. */
  ghost predicate EchoingServer(p: Protocol, c: Conn, ops: seq<Op>)
    decreases |ops|
  {
    ops != [] ==>
      var d := Perform(p, c, ops[0]).conn;
      && (forall e | e in d.pending && e !in c.pending && e.id.RequestId? :: exists s :: s in d.sent && s.id == e.id)
      && EchoingServer(p, d, ops[1..])
  }

  /** No request of the run starts with its own reply already in the queue, so waiting on
      the socket alone cannot miss it. */
  ghost predicate RepliesStillToCome(p: Protocol, c: Conn, ops: seq<Op>)
    decreases |ops|
  {
    ops != [] ==>
      && (ops[0].Ask? ==> forall e | e in c.pending :: e.id != RequestId(c.nextId, ops[0].nonce))
      && RepliesStillToCome(p, Perform(p, c, ops[0]).conn, ops[1..])
  }

  lemma StillEchoes(before: seq<Envelope>, sent: seq<Envelope>, after: seq<Envelope>, later: seq<Envelope>)
    requires Echoes(before, sent) && sent <= later
    requires forall e | e in after && e !in before && e.id.RequestId? :: exists s :: s in later && s.id == e.id
    ensures Echoes(after, later)
  {
    forall e | e in after && e.id.RequestId?
      ensures exists s :: s in later && s.id == e.id
    {
      if e in before {
        var s :| s in sent && s.id == e.id;
        assert s in later;
      }
    }
  }

  /** Over any run, failures included, the reply a request waits for is never in the queue. */
  lemma {:induction false} AwaitedRepliesAreNeverQueued(p: Protocol, c: Conn, ops: seq<Op>)
    requires SentOk(p, c) && Echoes(c.pending, c.sent) && EchoingServer(p, c, ops)
    ensures RepliesStillToCome(p, c, ops)
    decreases |ops|
  {
    if ops != [] {
      var d := Perform(p, c, ops[0]).conn;
      PerformSendsOn(p, c, ops[0]);
      StillEchoes(c.pending, c.sent, d.pending, d.sent);
      AwaitedRepliesAreNeverQueued(p, d, ops[1..]);
    }
  }
}
