/** Repeated `receive` on a stream of legal frames. */
module Delivery {
  import opened Framing
  import opened Exchange

  /** Receiving until the first failure. */
  datatype Drained = Drained(messages: seq<Envelope>, failure: Failure, conn: Conn)

  function Drain(p: Protocol, c: Conn): Drained
    decreases |c.input|
  {
    var r := Receive(p, c);
    match r.result
    case Err(f) => Drained([], f, r.conn)
    case Ok(e) =>
      var d := Drain(p, r.conn);
      d.(messages := [e] + d.messages)
  }

  /** The frame that ends the delivery: an error, or a heartbeat that cannot be answered
      under the number that has been reached. */
  predicate Ends(p: Protocol, e: Envelope, n: nat) {
    if e.kind == p.heartbeat then !Sendable(p, Beat(p, n)) else e.kind == p.error
  }

  function EndOf(p: Protocol, e: Envelope): Failure {
    if e.kind == p.heartbeat then BeatTooLong else ErrorOf(p, e.payload)
  }

  /** The frames before the one that ends the delivery, counting from `n`. */
  function UpToEnd(p: Protocol, es: seq<Envelope>, n: nat): seq<Envelope> {
    if es == [] || Ends(p, es[0], n) then []
    else [es[0]] + UpToEnd(p, es[1..], if es[0].kind == p.heartbeat then n + 1 else n)
  }

  function WithoutBeats(p: Protocol, es: seq<Envelope>): seq<Envelope> {
    if es == [] then []
    else if es[0].kind == p.heartbeat then WithoutBeats(p, es[1..])
    else [es[0]] + WithoutBeats(p, es[1..])
  }

  /** The heartbeats sent in answer to those in `es`, numbered from `n`. */
  function Answers(p: Protocol, es: seq<Envelope>, n: nat): seq<Envelope> {
    if es == [] then []
    else if es[0].kind == p.heartbeat then [Beat(p, n)] + Answers(p, es[1..], n + 1)
    else Answers(p, es[1..], n)
  }

  /** What a drained stream of legal frames must look like. */
  ghost predicate Delivers(p: Protocol, es: seq<Envelope>, c: Conn, d: Drained) {
    var good := UpToEnd(p, es, c.nextId);
    && d.messages == WithoutBeats(p, good)
    && d.conn.pending == c.pending && d.conn.sent == c.sent + Answers(p, good, c.nextId)
    && |good| <= |es|
    && (if |good| == |es| then d.failure == Closed && d.conn.input == []
        else d.failure == EndOf(p, es[|good|])
             && Fits(p, es[|good| + 1..]) && d.conn.input == Wire(p, es[|good| + 1..]))
  }

  lemma FirstFrame(p: Protocol, es: seq<Envelope>)
    requires IsCodec(p) && Legal(p, es) && es != [] && Fits(p, es)
    ensures Fits(p, es[1..]) && ReadFrame(Wire(p, es)) == Body(p.encode(es[0]), Wire(p, es[1..]))
  {
    FrameIsReadBack(p, es[0], Wire(p, es[1..]));
  }

  /** Draining a stream of legal frames begins with its first frame. */
  lemma DrainFrame(p: Protocol, es: seq<Envelope>, c: Conn)
    requires IsCodec(p) && Legal(p, es) && es != [] && Fits(p, es) && c.input == Wire(p, es)
    ensures Fits(p, es[1..]) && Legal(p, es[1..]) && Past(c).input == Wire(p, es[1..])
    ensures Drain(p, c) == DrainOne(p, c, es[0])
  {
    FirstFrame(p, es);
    ReceiveByItem(p, c);
    assert Items(p, c.input)[0] == Got(es[0]);
  }

  function DrainOne(p: Protocol, c: Conn, e: Envelope): Drained {
    if e.kind == p.heartbeat then
      if Sendable(p, Beat(p, c.nextId)) then Drain(p, BeatSent(p, Past(c)))
      else Drained([], BeatTooLong, Counted(Past(c)))
    else if e.kind == p.error then Drained([], ErrorOf(p, e.payload), Past(c))
    else
      var d := Drain(p, Past(c));
      d.(messages := [e] + d.messages)
  }

  /** For every sequence of legal frames, receiving until the first failure returns exactly
      the non-heartbeat envelopes before the frame that ends the delivery, in order; answers
      each heartbeat before it once, in order, under the next numbers; fails with what that
      frame says, or because the stream ends; and leaves exactly the frames after it. */
  lemma {:induction false} LegalStreamsAreDelivered(p: Protocol, es: seq<Envelope>, c: Conn)
    requires IsCodec(p) && Legal(p, es) && Fits(p, es) && c.input == Wire(p, es)
    ensures Delivers(p, es, c, Drain(p, c))
    decreases |es|
  {
    if es == [] {
      assert c.sent + [] == c.sent;
    } else {
      DrainFrame(p, es, c);
      if Ends(p, es[0], c.nextId) {
        assert c.sent + [] == c.sent && es[0 + 1..] == es[1..];
      } else if es[0].kind == p.heartbeat {
        var answered := BeatSent(p, Past(c));
        LegalStreamsAreDelivered(p, es[1..], answered);
        BeatDelivers(p, es, c, answered, Drain(p, c));
      } else {
        LegalStreamsAreDelivered(p, es[1..], Past(c));
        MessageDelivers(p, es, c, Past(c), Drain(p, Past(c)));
      }
    }
  }

  lemma BeatDelivers(p: Protocol, es: seq<Envelope>, c: Conn, next: Conn, d: Drained)
    requires es != [] && es[0].kind == p.heartbeat && Sendable(p, Beat(p, c.nextId))
    requires next.nextId == c.nextId + 1 && next.sent == c.sent + [Beat(p, c.nextId)] && next.pending == c.pending
    requires Delivers(p, es[1..], next, d)
    ensures Delivers(p, es, c, d)
  {
    var good, rest := UpToEnd(p, es, c.nextId), UpToEnd(p, es[1..], c.nextId + 1);
    assert good == [es[0]] + rest && good[1..] == rest;
    var beat := Beat(p, c.nextId);
    assert c.sent + [beat] + Answers(p, rest, c.nextId + 1) == c.sent + ([beat] + Answers(p, rest, c.nextId + 1));
    if |rest| < |es[1..]| {
      assert es[1..][|rest|] == es[|good|] && es[1..][|rest| + 1..] == es[|good| + 1..];
    }
  }

  lemma MessageDelivers(p: Protocol, es: seq<Envelope>, c: Conn, next: Conn, d: Drained)
    requires es != [] && es[0].kind != p.heartbeat && es[0].kind != p.error
    requires next.nextId == c.nextId && next.sent == c.sent && next.pending == c.pending
    requires Delivers(p, es[1..], next, d)
    ensures Delivers(p, es, c, d.(messages := [es[0]] + d.messages))
  {
    var good, rest := UpToEnd(p, es, c.nextId), UpToEnd(p, es[1..], c.nextId);
    assert good == [es[0]] + rest && good[1..] == rest;
    if |rest| < |es[1..]| {
      assert es[1..][|rest|] == es[|good|] && es[1..][|rest| + 1..] == es[|good| + 1..];
    }
  }
}
