/** Which item of the arrivals decides a request or a wait, and what is left afterwards. */
module Replies {
  import opened Contracts
  import opened Framing
  import opened Exchange
  import opened Conservation

  // ---- requests ------------------------------------------------------------

  function WithoutBeats(p: Protocol, items: seq<Item>): seq<Item> {
    if items == [] then []
    else (if IsBeat(p, items[0]) then [] else [items[0]]) + WithoutBeats(p, items[1..])
  }

  /** An item a request does not stop at: a heartbeat, or somebody else's message. */
  predicate IsForeign(p: Protocol, id: MsgId, x: Item) {
    x.Got? && (x.e.kind == p.heartbeat || (x.e.kind != p.error && x.e.id != id))
  }

  /** `extra` heartbeats more than there are items can be answered under the numbers to come. */
  predicate CanAnswer(p: Protocol, c: Conn, extra: nat) {
    forall n | c.nextId <= n < c.nextId + |Items(p, c.input)| + extra :: Sendable(p, Beat(p, n))
  }

  /** What the item a request stops at makes of it: a message of its own id is its answer, for
      better or worse. */
  function RequestVerdict(p: Protocol, kind: nat, x: Item): Result<Envelope> {
    match x
    case Bad(f) => Err(f)
    case Got(e) =>
      if e.kind == p.heartbeat then Err(BeatTooLong)
      else if e.kind == p.error then Err(ErrorOf(p, e.payload))
      else Answer(p, e, kind)
  }

  /** Item `k` is where a request for `id` ends: everything before is foreign and, heartbeats
      apart, has been queued in order; everything after is still there; and the result is what
      that item says.  It is the first item that is not foreign, unless a heartbeat before it
      cannot be answered. */
  ghost predicate TakesItsReply(p: Protocol, c: Conn, id: MsgId, kind: nat, r: Reply, k: nat, extra: nat) {
    var items := Items(p, c.input);
    && k <= |items|
    && (forall i | 0 <= i < k :: IsForeign(p, id, items[i]))
    && Gots(r.conn.pending) == Gots(c.pending) + WithoutBeats(p, items[..k])
    && (if k == |items| then r.result == Err(Closed) && Items(p, r.conn.input) == []
        else
          && Items(p, r.conn.input) == items[k + 1..]
          && r.result == RequestVerdict(p, kind, items[k])
          && (if IsBeat(p, items[k]) then !CanAnswer(p, c, extra) else !IsForeign(p, id, items[k])))
  }

  lemma OneMoreForeign(p: Protocol, c: Conn, d: Conn, id: MsgId, kind: nat, r: Reply, k: nat)
    requires GoesOn(p, c, id, d)
    requires TakesItsReply(p, d, id, kind, r, k, 0)
    ensures TakesItsReply(p, c, id, kind, r, k + 1, 0)
  {
    RestOfItems(p, c);
    var items := Items(p, c.input);
    assert items[..k + 1][1..] == items[1..][..k] && items[..k + 1][0] == items[0];
    assert items[1..][k..] == items[k + 1..];
    forall i | 0 <= i < k + 1
      ensures IsForeign(p, id, items[i])
    {
      if i > 0 {
        assert items[i] == items[1..][i - 1];
      }
    }
    if k < |items| - 1 {
      assert items[1..][k] == items[k + 1] && items[1..][k + 1..] == items[k + 1 + 1..];
    }
    QueuedFirst(p, c.pending, d.pending, items[0], WithoutBeats(p, items[1..][..k]));
  }

  lemma QueuedFirst(p: Protocol, before: seq<Envelope>, after: seq<Envelope>, x: Item, rest: seq<Item>)
    requires x.Got? && after == if IsBeat(p, x) then before else before + [x.e]
    ensures Gots(after) + rest == Gots(before) + ((if IsBeat(p, x) then [] else [x]) + rest)
  {
    if !IsBeat(p, x) {
      assert Gots(before + [x.e]) == Gots(before) + [x];
    }
  }

  /** A request goes on as `d` after an item it does not stop at. */
  ghost predicate GoesOn(p: Protocol, c: Conn, id: MsgId, d: Conn) {
    && Items(p, c.input) != []
    && var x := Items(p, c.input)[0];
    && IsForeign(p, id, x)
    && if IsBeat(p, x) then Sendable(p, Beat(p, c.nextId)) && d == BeatSent(p, Past(c))
       else d == Past(c).(pending := c.pending + [x.e])
  }

  lemma AwaitGoesOn(p: Protocol, c: Conn, id: MsgId, kind: nat, d: Conn)
    requires GoesOn(p, c, id, d)
    ensures |d.input| < |c.input| && Await(p, c, id, kind) == Await(p, d, id, kind)
  {
    RestOfItems(p, c);
    ReceiveByItem(p, c);
  }

  lemma AwaitEnds(p: Protocol, c: Conn, id: MsgId, kind: nat)
    requires forall d :: !GoesOn(p, c, id, d)
    ensures TakesItsReply(p, c, id, kind, Await(p, c, id, kind), 0, 0)
  {
    ReceiveByItem(p, c);
    if Items(p, c.input) != [] {
      RestOfItems(p, c);
      var x := Items(p, c.input)[0];
      assert !GoesOn(p, c, id, BeatSent(p, Past(c)));
      assert x.Got? ==> !GoesOn(p, c, id, Past(c).(pending := c.pending + [x.e]));
    }
  }

  lemma {:induction false} AwaitTakes(p: Protocol, c: Conn, id: MsgId, kind: nat) returns (k: nat)
    ensures TakesItsReply(p, c, id, kind, Await(p, c, id, kind), k, 0)
    decreases |c.input|
  {
    if d :| GoesOn(p, c, id, d) {
      AwaitGoesOn(p, c, id, kind, d);
      k := AwaitTakes(p, d, id, kind);
      OneMoreForeign(p, c, d, id, kind, Await(p, d, id, kind), k);
      k := k + 1;
    } else {
      AwaitEnds(p, c, id, kind);
      k := 0;
    }
  }

  /** A request that is sent ends at one item of the stream, and its result is exactly the
      verdict on that item: its own reply is returned, or raised if it cannot be read, and
      nobody else's message is ever taken.  One that is not sent leaves queue and stream alone. */
  lemma RequestTakesItsReply(p: Protocol, c: Conn, kind: nat, payload: seq<byte>, nonce: nat) returns (k: nat)
    ensures var r, id := Request(p, c, kind, payload, nonce), RequestId(c.nextId, nonce);
            if kind in p.readOnly && Sendable(p, Envelope(kind, payload, id)) then
              TakesItsReply(p, c, id, kind, r, k, 1)
            else r.result == Err(if kind in p.readOnly then TooLong else Blocked)
                 && r.conn == c.(nextId := r.conn.nextId)
  {
    var id := RequestId(c.nextId, nonce);
    k := AwaitTakes(p, c.(nextId := c.nextId + 1, sent := c.sent + [Envelope(kind, payload, id)]), id, kind);
  }

  /** The first item that is not foreign to `id`. */
  function FirstOwn(p: Protocol, id: MsgId, items: seq<Item>): Option<Item> {
    if items == [] then None
    else if !IsForeign(p, id, items[0]) then Some(items[0])
    else FirstOwn(p, id, items[1..])
  }

  lemma {:induction false} FirstOwnAt(p: Protocol, id: MsgId, items: seq<Item>, k: nat)
    requires k <= |items| && forall i | 0 <= i < k :: IsForeign(p, id, items[i])
    ensures k == |items| ==> FirstOwn(p, id, items) == None
    ensures k < |items| && !IsForeign(p, id, items[k]) ==> FirstOwn(p, id, items) == Some(items[k])
  {
    if k > 0 {
      forall i | 0 <= i < k - 1
        ensures IsForeign(p, id, items[1..][i])
      {
        assert items[1..][i] == items[i + 1];
      }
      FirstOwnAt(p, id, items[1..], k - 1);
    }
  }

  /** When heartbeats can be answered, a request that is sent gets exactly the verdict on the
      first item of the stream that is its own, an error or broken; and a stream without any
      closes on it.  In particular a good reply before any error is always returned. */
  lemma RequestIsDecided(p: Protocol, c: Conn, kind: nat, payload: seq<byte>, nonce: nat)
    requires kind in p.readOnly && Sendable(p, Envelope(kind, payload, RequestId(c.nextId, nonce)))
    requires CanAnswer(p, c, 1)
    ensures var first := FirstOwn(p, RequestId(c.nextId, nonce), Items(p, c.input));
            var verdict := if first.None? then Err(Closed) else RequestVerdict(p, kind, first.value);
            Request(p, c, kind, payload, nonce).result == verdict
  {
    var k := RequestTakesItsReply(p, c, kind, payload, nonce);
    FirstOwnAt(p, RequestId(c.nextId, nonce), Items(p, c.input), k);
  }

  // ---- waits ---------------------------------------------------------------

  /** The items a wait does not go past: a match, an error, a broken frame, and an event of the
      wanted type that cannot be decoded. */
  predicate Decides(p: Protocol, kind: nat, accept: seq<byte> -> bool, x: Item) {
    x.Bad? || (x.e.kind != p.heartbeat && (x.e.kind == p.error || !Skips(p, kind, accept, x.e)))
  }

  predicate Matches(p: Protocol, kind: nat, accept: seq<byte> -> bool, e: Envelope) {
    e.kind == kind && p.decodes(kind, e.payload) && accept(e.payload)
  }

  /** What the item a wait stops at makes of it. */
  function Verdict(p: Protocol, kind: nat, x: Item): Result<Envelope> {
    match x
    case Bad(f) => Err(f)
    case Got(e) =>
      if e.kind == p.error then Err(ErrorOf(p, e.payload))
      else if !p.decodes(kind, e.payload) then Err(Malformed)
      else Ok(e)
  }

  /** Arrival `k` is where a wait ends: nothing before decides it, everything after is still
      there, and the result is what that item says.  A wait can end before its verdict only at
      a heartbeat that cannot be answered. */
  ghost predicate TakesTheEarliest(p: Protocol, c: Conn, kind: nat, accept: seq<byte> -> bool, r: Reply, k: nat) {
    var a := Arrivals(p, c);
    && k <= |a|
    && (forall i | 0 <= i < k :: !Decides(p, kind, accept, a[i]))
    && (if k == |a| then r.result == Err(Closed) && Arrivals(p, r.conn) == []
        else
          && Arrivals(p, r.conn) == a[k + 1..]
          && (if Decides(p, kind, accept, a[k]) then r.result == Verdict(p, kind, a[k])
              else r.result == Err(BeatTooLong) && IsBeat(p, a[k]) && !CanAnswer(p, c, 0)))
  }

  /** A wait goes on as `d` after an item that does not decide it. */
  ghost predicate WaitsOn(p: Protocol, c: Conn, kind: nat, accept: seq<byte> -> bool, d: Conn) {
    && Arrivals(p, c) != [] && !Decides(p, kind, accept, Arrivals(p, c)[0])
    && var x := Arrivals(p, c)[0];
    && if c.pending != [] then d == c.(pending := c.pending[1..])
       else if IsBeat(p, x) then Sendable(p, Beat(p, c.nextId)) && d == BeatSent(p, Past(c))
       else d == Past(c)
  }

  lemma QueueComesFirst(p: Protocol, c: Conn)
    ensures c.pending != [] ==>
              Arrivals(p, c) == [Got(c.pending[0])] + Arrivals(p, c.(pending := c.pending[1..]))
    ensures c.pending == [] ==> Arrivals(p, c) == Items(p, c.input)
  {
    if c.pending != [] {
      assert Gots(c.pending) == [Got(c.pending[0])] + Gots(c.pending[1..]);
    }
  }

  lemma QueuedGoesOn(p: Protocol, c: Conn, kind: nat, accept: seq<byte> -> bool)
    requires Orderly(p, c) && c.pending != [] && !Decides(p, kind, accept, Got(c.pending[0]))
    ensures WaitFor(p, c, kind, accept) == WaitFor(p, c.(pending := c.pending[1..]), kind, accept)
  {
    assert c.pending[0] in c.pending;
  }

  lemma StreamGoesOn(p: Protocol, c: Conn, kind: nat, accept: seq<byte> -> bool, d: Conn)
    requires WaitsOn(p, c, kind, accept, d) && c.pending == []
    ensures |d.input| < |c.input| && d.pending == [] && Items(p, d.input) == Items(p, c.input)[1..]
    ensures WaitFor(p, c, kind, accept) == WaitFor(p, d, kind, accept)
  {
    QueueComesFirst(p, c);
    ReceiveByItem(p, c);
    RestOfItems(p, c);
  }

  lemma WaitGoesOn(p: Protocol, c: Conn, kind: nat, accept: seq<byte> -> bool, d: Conn)
    requires WaitsOn(p, c, kind, accept, d) && Orderly(p, c)
    ensures |d.input| < |c.input| || (d.input == c.input && |d.pending| < |c.pending|)
    ensures WaitFor(p, c, kind, accept) == WaitFor(p, d, kind, accept)
    ensures Arrivals(p, d) == Arrivals(p, c)[1..] && Orderly(p, d)
    ensures CanAnswer(p, c, 0) ==> CanAnswer(p, d, 0)
  {
    QueueComesFirst(p, c);
    if c.pending != [] {
      QueuedGoesOn(p, c, kind, accept);
    } else {
      StreamGoesOn(p, c, kind, accept, d);
      QueueComesFirst(p, d);
    }
  }

  lemma QueuedEnds(p: Protocol, c: Conn, kind: nat, accept: seq<byte> -> bool)
    requires c.pending != [] && Orderly(p, c) && Decides(p, kind, accept, Got(c.pending[0]))
    ensures WaitFor(p, c, kind, accept) == Reply(Verdict(p, kind, Got(c.pending[0])), c.(pending := c.pending[1..]))
  {
    assert c.pending[0] in c.pending;
  }

  lemma StreamEnds(p: Protocol, c: Conn, kind: nat, accept: seq<byte> -> bool)
    requires c.pending == [] && (forall d :: !WaitsOn(p, c, kind, accept, d))
    ensures var r := WaitFor(p, c, kind, accept);
            if Items(p, c.input) == [] then r == Reply(Err(Closed), c.(input := []))
            else
              var x := Items(p, c.input)[0];
              if Decides(p, kind, accept, x) then r == Reply(Verdict(p, kind, x), Past(c))
              else r == Reply(Err(BeatTooLong), Counted(Past(c))) && IsBeat(p, x) && !Sendable(p, Beat(p, c.nextId))
  {
    QueueComesFirst(p, c);
    ReceiveByItem(p, c);
    if Items(p, c.input) != [] {
      assert !WaitsOn(p, c, kind, accept, BeatSent(p, Past(c))) && !WaitsOn(p, c, kind, accept, Past(c));
    }
  }

  lemma WaitEnds(p: Protocol, c: Conn, kind: nat, accept: seq<byte> -> bool)
    requires (forall d :: !WaitsOn(p, c, kind, accept, d)) && Orderly(p, c)
    ensures TakesTheEarliest(p, c, kind, accept, WaitFor(p, c, kind, accept), 0)
  {
    QueueComesFirst(p, c);
    if c.pending != [] {
      assert !WaitsOn(p, c, kind, accept, c.(pending := c.pending[1..]));
      QueuedEnds(p, c, kind, accept);
    } else {
      StreamEnds(p, c, kind, accept);
      QueueComesFirst(p, WaitFor(p, c, kind, accept).conn);
      if Items(p, c.input) != [] {
        RestOfItems(p, c);
      }
    }
  }

  /** `wait_for` takes the earliest match of the queue followed by the unread stream, unless
      something before it fails. */
  lemma {:induction false} WaitForTakesTheEarliest(p: Protocol, c: Conn, kind: nat, accept: seq<byte> -> bool)
    returns (k: nat)
    requires Orderly(p, c)
    ensures TakesTheEarliest(p, c, kind, accept, WaitFor(p, c, kind, accept), k)
    ensures var result := WaitFor(p, c, kind, accept).result;
            result.Ok? ==> Matches(p, kind, accept, result.value)
    decreases |c.input|, |c.pending|
  {
    if d :| WaitsOn(p, c, kind, accept, d) {
      WaitGoesOn(p, c, kind, accept, d);
      var j := WaitForTakesTheEarliest(p, d, kind, accept);
      k := j + 1;
      OneLater(p, c, d, kind, accept, WaitFor(p, d, kind, accept), j);
    } else {
      WaitEnds(p, c, kind, accept);
      k := 0;
      if WaitFor(p, c, kind, accept).result.Ok? {
        OkMatches(p, c, kind, accept, WaitFor(p, c, kind, accept), 0);
      }
    }
  }

  lemma OkMatches(p: Protocol, c: Conn, kind: nat, accept: seq<byte> -> bool, r: Reply, k: nat)
    requires TakesTheEarliest(p, c, kind, accept, r, k) && r.result.Ok?
    ensures k < |Arrivals(p, c)| && Arrivals(p, c)[k] == Got(r.result.value)
    ensures Matches(p, kind, accept, r.result.value)
  {
  }

  lemma OneLater(p: Protocol, c: Conn, d: Conn, kind: nat, accept: seq<byte> -> bool, r: Reply, j: nat)
    requires Arrivals(p, c) != [] && !Decides(p, kind, accept, Arrivals(p, c)[0])
    requires Arrivals(p, d) == Arrivals(p, c)[1..] && (CanAnswer(p, c, 0) ==> CanAnswer(p, d, 0))
    requires TakesTheEarliest(p, d, kind, accept, r, j)
    ensures TakesTheEarliest(p, c, kind, accept, r, j + 1)
  {
    var a := Arrivals(p, c);
    forall i | 0 <= i < j + 1
      ensures !Decides(p, kind, accept, a[i])
    {
      if i > 0 {
        assert a[i] == a[1..][i - 1];
      }
    }
    if j < |a| - 1 {
      assert a[1..][j] == a[j + 1] && a[1..][j + 1..] == a[j + 1 + 1..];
    }
  }

  // ---- case by case --------------------------------------------------------

  /** What an error frame raises: what cannot be read, a token problem, or a refusal. */
  predicate IsErrorFailure(p: Protocol, e: Envelope, f: Failure) {
    && (!p.decodes(p.error, e.payload) ==> f == Malformed)
    && (p.decodes(p.error, e.payload) && p.isAuthError(e.payload) ==> f == AuthRequired)
    && (p.decodes(p.error, e.payload) && !p.isAuthError(e.payload) ==> f == Rejected)
  }

  /** The stream's items before `k` do not concern a request for `id`: heartbeats, and messages
      with another id. */
  predicate OthersBefore(p: Protocol, id: MsgId, items: seq<Item>, k: nat) {
    k <= |items|
    && forall i | 0 <= i < k ::
         items[i].Got? && (items[i].e.kind == p.heartbeat || (items[i].e.kind != p.error && items[i].e.id != id))
  }

  lemma FirstOwnIs(p: Protocol, id: MsgId, items: seq<Item>, k: nat)
    requires OthersBefore(p, id, items, k) && k < |items|
    requires items[k].Got? ==> items[k].e.kind != p.heartbeat && (items[k].e.kind == p.error || items[k].e.id == id)
    ensures FirstOwn(p, id, items) == Some(items[k])
  {
    FirstOwnAt(p, id, items, k);
  }

  /** A request whose own message comes first returns it exactly when it is of the answering
      type, known and readable, and otherwise raises what is wrong with it. */
  lemma OwnReplyIsReturned(p: Protocol, c: Conn, kind: nat, payload: seq<byte>, nonce: nat, k: nat)
    requires kind in p.readOnly && Sendable(p, Envelope(kind, payload, RequestId(c.nextId, nonce)))
    requires CanAnswer(p, c, 1)
    requires var items, id := Items(p, c.input), RequestId(c.nextId, nonce);
             && OthersBefore(p, id, items, k) && k < |items| && items[k].Got? && items[k].e.id == id
             && items[k].e.kind != p.heartbeat && items[k].e.kind != p.error
    ensures var e, result := Items(p, c.input)[k].e, Request(p, c, kind, payload, nonce).result;
            && (result == Ok(e) <==> e.kind == kind + 1 && p.knows(kind + 1) && p.decodes(kind + 1, e.payload))
            && (e.kind != kind + 1 ==> result == Err(UnexpectedType(e.kind)))
            && (e.kind == kind + 1 && !p.knows(kind + 1) ==> result == Err(UnknownType))
            && (e.kind == kind + 1 && p.knows(kind + 1) && !p.decodes(kind + 1, e.payload) ==> result == Err(Malformed))
  {
    FirstOwnIs(p, RequestId(c.nextId, nonce), Items(p, c.input), k);
    RequestIsDecided(p, c, kind, payload, nonce);
  }

  /** A request before whose reply an error or a broken frame comes raises that. */
  lemma ErrorsAreRaised(p: Protocol, c: Conn, kind: nat, payload: seq<byte>, nonce: nat, k: nat)
    requires kind in p.readOnly && Sendable(p, Envelope(kind, payload, RequestId(c.nextId, nonce)))
    requires CanAnswer(p, c, 1)
    requires var items := Items(p, c.input);
             && OthersBefore(p, RequestId(c.nextId, nonce), items, k) && k < |items|
             && (items[k].Got? ==> items[k].e.kind == p.error && p.error != p.heartbeat)
    ensures var x, result := Items(p, c.input)[k], Request(p, c, kind, payload, nonce).result;
            result.Err? && (x.Bad? ==> result.failure == x.failure)
            && (x.Got? ==> IsErrorFailure(p, x.e, result.failure))
  {
    FirstOwnIs(p, RequestId(c.nextId, nonce), Items(p, c.input), k);
    RequestIsDecided(p, c, kind, payload, nonce);
  }

  /** The arrivals before `k` do not concern a wait: heartbeats, messages of another type, and
      readable ones that are not accepted. */
  predicate PassedBefore(p: Protocol, kind: nat, accept: seq<byte> -> bool, a: seq<Item>, k: nat) {
    k <= |a|
    && forall i | 0 <= i < k ::
         a[i].Got? &&
         (|| a[i].e.kind == p.heartbeat
          || (a[i].e.kind != p.error
              && (a[i].e.kind != kind || (p.decodes(kind, a[i].e.payload) && !accept(a[i].e.payload)))))
  }

  /** A wait returns the first message of its type that is accepted, and raises the first error,
      broken frame or unreadable message of its type if that comes earlier; a stream without
      any closes on it. */
  lemma FirstAcceptedIsReturned(p: Protocol, c: Conn, kind: nat, accept: seq<byte> -> bool, k: nat)
    requires Orderly(p, c) && CanAnswer(p, c, 0) && kind != p.heartbeat && kind != p.error && p.error != p.heartbeat
    requires PassedBefore(p, kind, accept, Arrivals(p, c), k)
    ensures var a, result := Arrivals(p, c), WaitFor(p, c, kind, accept).result;
            if k == |a| then result == Err(Closed)
            else
              var x := a[k];
              && (x.Bad? ==> result == Err(x.failure))
              && (x.Got? && x.e.kind == p.error ==> result.Err? && IsErrorFailure(p, x.e, result.failure))
              && (x.Got? && x.e.kind == kind && !p.decodes(kind, x.e.payload) ==> result == Err(Malformed))
              && (x.Got? && x.e.kind == kind && p.decodes(kind, x.e.payload) && accept(x.e.payload) ==>
                    result == Ok(x.e))
  {
    var j := WaitForTakesTheEarliest(p, c, kind, accept);
    var a := Arrivals(p, c);
    if k < j {
      assert !Decides(p, kind, accept, a[k]);
    }
  }

  /** What the accounts of a run say of an operation that returned: its message is one it had to
      return. */
  lemma ReturnedIsGood(p: Protocol, op: Op, n: nat, e: Envelope, o: Tally)
    requires Told(p, op, n, Ok(e), o)
    ensures o.returned == [e] && o.raised == []
    ensures op.Ask? ==>
              e.id == RequestId(n, op.nonce) && e.kind == op.kind + 1 && p.knows(op.kind + 1)
              && p.decodes(op.kind + 1, e.payload)
    ensures op.Watch? ==> e.kind == op.kind && p.decodes(op.kind, e.payload) && op.accept(e.payload)
  {
  }

  /** And of one that raised what is wrong with a message: it is its own, and that is wrong. */
  lemma RaisedIsWrong(p: Protocol, op: Op, n: nat, f: Failure, o: Tally)
    requires Told(p, op, n, Err(f), o) && (f == UnknownType || f.UnexpectedType?)
    ensures op.Ask? && |o.raised| == 1 && o.raised[0].Got? && o.raised[0].e.id == RequestId(n, op.nonce)
    ensures f == UnknownType ==> o.raised[0].e.kind == op.kind + 1 && !p.knows(op.kind + 1)
    ensures f.UnexpectedType? ==> o.raised[0].e.kind == f.kind != op.kind + 1
  {
  }
}
