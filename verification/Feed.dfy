/** The quote the market-data adapter waits for (feed.py). */
module Feed {
  import opened Contracts
  import opened Framing
  import Exchange
  import opened Conservation
  import opened Replies
  import opened Correlation
  import Transport

  datatype SymbolRow = SymbolRow(name: string, symbolId: nat)
  datatype Spot = Spot(symbolId: nat, bid: Option<int>, ask: Option<int>)

  /** The message types involved and the contents of their payloads; `upper` is the text
      normalisation of symbol names. */
  datatype Quotes = Quotes(
    listKind: nat, subscribeKind: nat, spotKind: nat,
    listRequest: seq<byte>, subscribeRequest: nat -> seq<byte>,
    rows: seq<byte> -> seq<SymbolRow>, spot: seq<byte> -> Spot, upper: string -> string)

  /** The rows as a dictionary: of two rows with one name the later counts. */
  function FindSymbol(q: Quotes, rows: seq<SymbolRow>, name: string): Option<SymbolRow> {
    if rows == [] then None
    else
      var last := rows[|rows| - 1];
      if last.name != "" && q.upper(last.name) == q.upper(name) then Some(last)
      else FindSymbol(q, rows[..|rows| - 1], name)
  }

  function IsQuoteFor(q: Quotes, symbolId: nat): seq<byte> -> bool {
    payload => q.spot(payload).symbolId == symbolId && q.spot(payload).bid.Some? && q.spot(payload).ask.Some?
  }

  datatype Ticked = NoConnection(failure: Failure) | NoSymbol | Quote(symbolId: nat, event: Envelope)

  datatype Subscribed = Failed(result: Ticked, conn: Exchange.Conn) | Ready(symbolId: nat, conn: Exchange.Conn)

  /** Look the symbol up, then subscribe. */
  function Subscribe(p: Protocol, q: Quotes, c: Exchange.Conn, name: string, nonce: nat, nonce2: nat): Subscribed {
    var listed := Exchange.Request(p, c, q.listKind, q.listRequest, nonce);
    if listed.result.Err? then Failed(NoConnection(listed.result.failure), listed.conn)
    else
      var row := FindSymbol(q, q.rows(listed.result.value.payload), name);
      if row.None? then Failed(NoSymbol, listed.conn)
      else
        var id := row.value.symbolId;
        var subscribed := Exchange.Request(p, listed.conn, q.subscribeKind, q.subscribeRequest(id), nonce2);
        if subscribed.result.Err? then Failed(NoConnection(subscribed.result.failure), subscribed.conn)
        else Ready(id, subscribed.conn)
  }

  datatype TickReply = TickReply(result: Ticked, conn: Exchange.Conn)

  function Ticking(symbolId: nat, waited: Result<Envelope>): Ticked {
    match waited
    case Ok(e) => Quote(symbolId, e)
    case Err(f) => NoConnection(f)
  }

  /** Subscribe, then wait for a two-sided quote of the symbol. */
  function TickOf(p: Protocol, q: Quotes, c: Exchange.Conn, name: string, nonce: nat, nonce2: nat): TickReply {
    match Subscribe(p, q, c, name, nonce, nonce2)
    case Failed(r, conn) => TickReply(r, conn)
    case Ready(id, conn) =>
      var waited := Exchange.WaitFor(p, conn, q.spotKind, IsQuoteFor(q, id));
      TickReply(Ticking(id, waited.result), waited.conn)
  }

  method Tick(api: Transport.ReadOnlyOpenApi, q: Quotes, name: string, nonce: nat, nonce2: nat) returns (r: Ticked)
    requires api.Valid()
    modifies api, api.socket
    ensures api.Valid() && TickReply(r, api.State()) == TickOf(api.protocol, q, old(api.State()), name, nonce, nonce2)
  {
    var listed := api.Request(q.listKind, q.listRequest, nonce);
    if listed.Err? {
      return NoConnection(listed.failure);
    }
    var row := FindSymbol(q, q.rows(listed.value.payload), name);
    if row.None? {
      return NoSymbol;
    }
    var subscribed := api.Request(q.subscribeKind, q.subscribeRequest(row.value.symbolId), nonce2);
    if subscribed.Err? {
      return NoConnection(subscribed.failure);
    }
    var event := api.WaitFor(q.spotKind, IsQuoteFor(q, row.value.symbolId));
    return Ticking(row.value.symbolId, event);
  }

  /** The first arrival that decides a wait. */
  function FirstDecider(p: Protocol, kind: nat, accept: seq<byte> -> bool, a: seq<Item>): Option<Item> {
    if a == [] then None
    else if Decides(p, kind, accept, a[0]) then Some(a[0])
    else FirstDecider(p, kind, accept, a[1..])
  }

  /** What a wait ends with when `first` is what decides it: a stream without any ends. */
  function Outcome(p: Protocol, kind: nat, first: Option<Item>): Result<Envelope> {
    match first
    case None => Err(Closed)
    case Some(x) => Verdict(p, kind, x)
  }

  lemma {:induction false} FirstOfConcat(p: Protocol, kind: nat, accept: seq<byte> -> bool, a: seq<Item>, b: seq<Item>)
    ensures FirstDecider(p, kind, accept, a + b)
         == if FirstDecider(p, kind, accept, a).Some? then FirstDecider(p, kind, accept, a)
            else FirstDecider(p, kind, accept, b)
    decreases |a|
  {
    if a == [] {
      assert a + b == b;
    } else {
      assert (a + b)[1..] == a[1..] + b;
      FirstOfConcat(p, kind, accept, a[1..], b);
    }
  }

  lemma {:induction false} BeatsDecideNothing(p: Protocol, kind: nat, accept: seq<byte> -> bool, a: seq<Item>)
    ensures FirstDecider(p, kind, accept, WithoutBeats(p, a)) == FirstDecider(p, kind, accept, a)
  {
    if a != [] {
      BeatsDecideNothing(p, kind, accept, a[1..]);
      FirstOfConcat(p, kind, accept, if IsBeat(p, a[0]) then [] else [a[0]], WithoutBeats(p, a[1..]));
      if !IsBeat(p, a[0]) {
        assert [a[0]][1..] == [];
      }
    }
  }

  /** What `TakesTheEarliest` found is the first that decides. */
  lemma {:induction false} EarliestIsFirst(p: Protocol, kind: nat, accept: seq<byte> -> bool, a: seq<Item>, k: nat)
    requires k <= |a| && forall i | 0 <= i < k :: !Decides(p, kind, accept, a[i])
    ensures k == |a| ==> FirstDecider(p, kind, accept, a) == None
    ensures k < |a| && Decides(p, kind, accept, a[k]) ==> FirstDecider(p, kind, accept, a) == Some(a[k])
  {
    if k > 0 {
      forall i | 0 <= i < k - 1
        ensures !Decides(p, kind, accept, a[1..][i])
      {
        assert a[1..][i] == a[i + 1];
      }
      EarliestIsFirst(p, kind, accept, a[1..], k - 1);
    }
  }

  lemma WaitIsDecided(p: Protocol, c: Exchange.Conn, kind: nat, accept: seq<byte> -> bool)
    requires Orderly(p, c)
    ensures var result, o := Exchange.WaitFor(p, c, kind, accept).result,
                             Outcome(p, kind, FirstDecider(p, kind, accept, Arrivals(p, c)));
            result == o || (result == Err(BeatTooLong) && !CanAnswer(p, c, 0))
  {
    var k := WaitForTakesTheEarliest(p, c, kind, accept);
    EarliestIsFirst(p, kind, accept, Arrivals(p, c), k);
  }

  lemma ArrivalsAround(p: Protocol, c: Exchange.Conn, k: nat)
    requires k < |Items(p, c.input)|
    ensures var items := Items(p, c.input);
            Arrivals(p, c) == Gots(c.pending) + (items[..k] + ([items[k]] + items[k + 1..]))
  {
    var items := Items(p, c.input);
    assert items == items[..k] + ([items[k]] + items[k + 1..]);
  }

  lemma ArrivalsAfterReply(p: Protocol, c: Exchange.Conn, id: MsgId, ask: nat, r: Exchange.Reply, k: nat)
    requires TakesItsReply(p, c, id, ask, r, k, 1) && r.result.Ok?
    ensures k < |Items(p, c.input)| && Items(p, c.input)[k] == Got(r.result.value) && r.result.value.kind == ask + 1
    ensures !IsControl(p, Items(p, c.input)[k])
    ensures var items := Items(p, c.input);
            Arrivals(p, r.conn) == Gots(c.pending) + (WithoutBeats(p, items[..k]) + items[k + 1..])
  {
    var items := Items(p, c.input);
    var before, rest := WithoutBeats(p, items[..k]), items[k + 1..];
    assert (Gots(c.pending) + before) + rest == Gots(c.pending) + (before + rest);
  }

  /** A request whose reply is of another type leaves the first decider as it was. */
  lemma RequestKeepsFirst(p: Protocol, c: Exchange.Conn, ask: nat, payload: seq<byte>, nonce: nat,
                          kind: nat, accept: seq<byte> -> bool)
    requires Orderly(p, c) && kind != ask + 1 && Exchange.Request(p, c, ask, payload, nonce).result.Ok?
    ensures var d := Exchange.Request(p, c, ask, payload, nonce).conn;
            && Orderly(p, d)
            && FirstDecider(p, kind, accept, Arrivals(p, d)) == FirstDecider(p, kind, accept, Arrivals(p, c))
  {
    var r := Exchange.Request(p, c, ask, payload, nonce);
    var k := RequestTakesItsReply(p, c, ask, payload, nonce);
    ReplyKeepsFirst(p, c, RequestId(c.nextId, nonce), ask, r, k, kind, accept);
    OneStaysOrderly(p, c, Ask(ask, payload, nonce));
  }

  lemma OneStaysOrderly(p: Protocol, c: Exchange.Conn, op: Op)
    requires Orderly(p, c)
    ensures Orderly(p, Perform(p, c, op).conn)
  {
    var d := Perform(p, c, op).conn;
    assert [op][1..] == [] && Run(p, d, []).conn == d;
    assert Run(p, c, [op]).conn == d;
    RunsStayOrderly(p, c, [op]);
  }

  lemma ReplyKeepsFirst(p: Protocol, c: Exchange.Conn, id: MsgId, ask: nat, r: Exchange.Reply, k: nat,
                        kind: nat, accept: seq<byte> -> bool)
    requires TakesItsReply(p, c, id, ask, r, k, 1) && r.result.Ok? && kind != ask + 1
    ensures FirstDecider(p, kind, accept, Arrivals(p, r.conn)) == FirstDecider(p, kind, accept, Arrivals(p, c))
  {
    ArrivalsAfterReply(p, c, id, ask, r, k);
    ArrivalsAround(p, c, k);
    var items := Items(p, c.input);
    var before, rest := items[..k], items[k + 1..];
    FirstOfConcat(p, kind, accept, Gots(c.pending), WithoutBeats(p, before) + rest);
    FirstOfConcat(p, kind, accept, Gots(c.pending), before + ([items[k]] + rest));
    FirstOfConcat(p, kind, accept, WithoutBeats(p, before), rest);
    FirstOfConcat(p, kind, accept, before, [items[k]] + rest);
    FirstOfConcat(p, kind, accept, [items[k]], rest);
    BeatsDecideNothing(p, kind, accept, before);
    assert [items[k]][1..] == [];
  }

  lemma {:induction false} AwaitCounts(p: Protocol, c: Exchange.Conn, id: MsgId, kind: nat)
    requires Exchange.Await(p, c, id, kind).result.Ok?
    ensures var d := Exchange.Await(p, c, id, kind).conn;
            c.nextId <= d.nextId && d.nextId + |Items(p, d.input)| <= c.nextId + |Items(p, c.input)|
    decreases |c.input|
  {
    if d :| GoesOn(p, c, id, d) {
      AwaitGoesOn(p, c, id, kind, d);
      Exchange.RestOfItems(p, c);
      AwaitCounts(p, d, id, kind);
    } else {
      AwaitEnds(p, c, id, kind);
      Exchange.ReceiveByItem(p, c);
      assert !IsControl(p, Items(p, c.input)[0]);
    }
  }

  lemma RequestCounts(p: Protocol, c: Exchange.Conn, ask: nat, payload: seq<byte>, nonce: nat, extra: nat)
    requires Exchange.Request(p, c, ask, payload, nonce).result.Ok? && CanAnswer(p, c, extra + 1)
    ensures CanAnswer(p, Exchange.Request(p, c, ask, payload, nonce).conn, extra)
  {
    var id := RequestId(c.nextId, nonce);
    var d := c.(nextId := c.nextId + 1, sent := c.sent + [Envelope(ask, payload, id)]);
    AwaitCounts(p, d, id, ask);
  }

  lemma SubscribeKeepsFirst(p: Protocol, q: Quotes, c: Exchange.Conn, name: string, nonce: nat, nonce2: nat,
                            accept: seq<byte> -> bool)
    requires Orderly(p, c) && q.spotKind != q.listKind + 1 && q.spotKind != q.subscribeKind + 1
    requires Subscribe(p, q, c, name, nonce, nonce2).Ready?
    ensures var d := Subscribe(p, q, c, name, nonce, nonce2).conn;
            && Orderly(p, d) && (CanAnswer(p, c, 2) ==> CanAnswer(p, d, 0))
            && FirstDecider(p, q.spotKind, accept, Arrivals(p, d))
               == FirstDecider(p, q.spotKind, accept, Arrivals(p, c))
  {
    var id := Subscribe(p, q, c, name, nonce, nonce2).symbolId;
    var listed := Exchange.Request(p, c, q.listKind, q.listRequest, nonce);
    RequestKeepsFirst(p, c, q.listKind, q.listRequest, nonce, q.spotKind, accept);
    RequestKeepsFirst(p, listed.conn, q.subscribeKind, q.subscribeRequest(id), nonce2, q.spotKind, accept);
    if CanAnswer(p, c, 2) {
      RequestCounts(p, c, q.listKind, q.listRequest, nonce, 1);
      RequestCounts(p, listed.conn, q.subscribeKind, q.subscribeRequest(id), nonce2, 0);
    }
  }

  /** Once the symbol is subscribed, the first arrival that decides, in the queue and stream
      as they were before the call, is what `tick` makes of it: a two-sided quote of that
      symbol is returned, even one that came before the subscription reply, and everything
      else raises.  Only a heartbeat that cannot be answered can get in between. */
  lemma TickReturnsTheFirstQuote(p: Protocol, q: Quotes, c: Exchange.Conn, name: string, nonce: nat, nonce2: nat)
    requires Orderly(p, c) && q.spotKind != q.listKind + 1 && q.spotKind != q.subscribeKind + 1
    requires Subscribe(p, q, c, name, nonce, nonce2).Ready?
    ensures var id, t := Subscribe(p, q, c, name, nonce, nonce2).symbolId, TickOf(p, q, c, name, nonce, nonce2).result;
            var first := FirstDecider(p, q.spotKind, IsQuoteFor(q, id), Arrivals(p, c));
            && (t == Ticking(id, Outcome(p, q.spotKind, first)) || t == NoConnection(BeatTooLong))
            && (CanAnswer(p, c, 2) ==> t == Ticking(id, Outcome(p, q.spotKind, first)))
  {
    var s := Subscribe(p, q, c, name, nonce, nonce2);
    SubscribeKeepsFirst(p, q, c, name, nonce, nonce2, IsQuoteFor(q, s.symbolId));
    WaitIsDecided(p, s.conn, q.spotKind, IsQuoteFor(q, s.symbolId));
  }

  // ---- in terms of the rows and payloads -----------------------------------

  /** Row `i` has that name in upper case, and no later row has. */
  predicate IsLastNamed(q: Quotes, rows: seq<SymbolRow>, name: string, i: nat) {
    && i < |rows| && rows[i].name != "" && q.upper(rows[i].name) == q.upper(name)
    && forall j | i < j < |rows| :: rows[j].name == "" || q.upper(rows[j].name) != q.upper(name)
  }

  /** The symbol found is the last row of the name asked for; it is missing when none has it. */
  lemma {:induction false} SymbolIsTheLast(q: Quotes, rows: seq<SymbolRow>, name: string)
    ensures match FindSymbol(q, rows, name)
            case Some(row) => exists i: nat :: IsLastNamed(q, rows, name, i) && rows[i] == row
            case None => forall i | 0 <= i < |rows| :: rows[i].name == "" || q.upper(rows[i].name) != q.upper(name)
  {
    if rows != [] {
      var n := |rows| - 1;
      if rows[n].name != "" && q.upper(rows[n].name) == q.upper(name) {
        assert IsLastNamed(q, rows, name, n);
      } else {
        SymbolIsTheLast(q, rows[..n], name);
        if FindSymbol(q, rows[..n], name).Some? {
          var i: nat :| IsLastNamed(q, rows[..n], name, i) && rows[..n][i] == FindSymbol(q, rows[..n], name).value;
          assert forall j | i < j < n :: rows[j] == rows[..n][j];
          assert IsLastNamed(q, rows, name, i);
        } else {
          assert forall i | 0 <= i < n :: rows[i] == rows[..n][i];
        }
      }
    }
  }

  lemma {:induction false} WaitedIsAccepted(p: Protocol, c: Exchange.Conn, kind: nat, accept: seq<byte> -> bool)
    requires Exchange.WaitFor(p, c, kind, accept).result.Ok?
    ensures var e := Exchange.WaitFor(p, c, kind, accept).result.value;
            e.kind == kind && p.decodes(kind, e.payload) && accept(e.payload)
    decreases |c.input|, |c.pending|
  {
    var r := Exchange.Pop(p, c);
    if r.result.Ok? && Exchange.Skips(p, kind, accept, r.result.value) {
      WaitedIsAccepted(p, r.conn, kind, accept);
    }
  }

  /** A quote that is returned is a readable spot event with both prices, of the symbol that the
      last row of the name asked for gives.  An unknown name is reported only when no row has it. */
  lemma QuotesAreOfTheSymbol(p: Protocol, q: Quotes, c: Exchange.Conn, name: string, nonce: nat, nonce2: nat)
    ensures var t := TickOf(p, q, c, name, nonce, nonce2).result;
            var listed := Exchange.Request(p, c, q.listKind, q.listRequest, nonce).result;
            && (t.Quote? ==>
                  && listed.Ok?
                  && (exists i: nat ::
                        var rows := q.rows(listed.value.payload);
                        IsLastNamed(q, rows, name, i) && rows[i].symbolId == t.symbolId)
                  && t.event.kind == q.spotKind && p.decodes(q.spotKind, t.event.payload)
                  && q.spot(t.event.payload).symbolId == t.symbolId
                  && q.spot(t.event.payload).bid.Some? && q.spot(t.event.payload).ask.Some?)
            && (t.NoSymbol? <==>
                  listed.Ok? && forall row | row in q.rows(listed.value.payload) ::
                    row.name == "" || q.upper(row.name) != q.upper(name))
  {
    var listed := Exchange.Request(p, c, q.listKind, q.listRequest, nonce).result;
    if listed.Ok? {
      var rows := q.rows(listed.value.payload);
      SymbolIsTheLast(q, rows, name);
      var s := Subscribe(p, q, c, name, nonce, nonce2);
      if s.Ready? && Exchange.WaitFor(p, s.conn, q.spotKind, IsQuoteFor(q, s.symbolId)).result.Ok? {
        WaitedIsAccepted(p, s.conn, q.spotKind, IsQuoteFor(q, s.symbolId));
      }
    }
  }

  /** A call that returns a quote has asked for the list of symbols and then for the quotes of
      that symbol, and for nothing else. */
  lemma QuotesAreAskedFor(p: Protocol, q: Quotes, c: Exchange.Conn, name: string, nonce: nat, nonce2: nat)
    requires TickOf(p, q, c, name, nonce, nonce2).result.Quote?
    ensures var t := TickOf(p, q, c, name, nonce, nonce2);
            Asked(t.conn.sent)
            == Asked(c.sent) + [(q.listKind, q.listRequest), (q.subscribeKind, q.subscribeRequest(t.result.symbolId))]
  {
    var s := Subscribe(p, q, c, name, nonce, nonce2);
    var listed := Exchange.Request(p, c, q.listKind, q.listRequest, nonce);
    AnsweredIsSent(p, c, q.listKind, q.listRequest, nonce);
    AnsweredIsSent(p, listed.conn, q.subscribeKind, q.subscribeRequest(s.symbolId), nonce2);
    WaitAsksNothing(p, s.conn, q.spotKind, IsQuoteFor(q, s.symbolId));
  }
}
