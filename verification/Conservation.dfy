/** Conservation of messages over any mix of operations, going on after errors: each item of
    the queue and of the stream that is consumed ends in exactly one place. */
module Conservation {
  import opened Framing
  import opened Exchange
  import opened Fates
  import opened Paths

  datatype Op = Ask(kind: nat, payload: seq<byte>, nonce: nat) | Watch(kind: nat, accept: seq<byte> -> bool)

  function Perform(p: Protocol, c: Conn, op: Op): Reply {
    match op
    case Ask(kind, payload, nonce) => Request(p, c, kind, payload, nonce)
    case Watch(kind, accept) => WaitFor(p, c, kind, accept)
  }

  datatype Ran = Ran(results: seq<Result<Envelope>>, conn: Conn)

  /** Operations one after the other on one connection, whatever they return or raise. */
  function Run(p: Protocol, c: Conn, ops: seq<Op>): Ran
    decreases |ops|
  {
    if ops == [] then Ran([], c)
    else
      var r := Perform(p, c, ops[0]);
      var later := Run(p, r.conn, ops[1..]);
      Ran([r.result] + later.results, later.conn)
  }

  // ---- the account ---------------------------------------------------------

  /** The queue, then everything the stream still holds. */
  function Arrivals(p: Protocol, c: Conn): seq<Item> {
    Gots(c.pending) + Items(p, c.input)
  }

  /** Exactly `n` items have been read off `input`, and perhaps its end. */
  predicate Leaves(p: Protocol, input: seq<byte>, n: nat, rest: seq<byte>) {
    n <= |Items(p, input)| && (rest == After(input, n) || (n == |Items(p, input)| && rest == []))
  }

  function BeatsSent(sent: seq<Envelope>): nat {
    if sent == [] then 0
    else BeatsSent(sent[..|sent| - 1]) + if sent[|sent| - 1].id.HeartbeatId? then 1 else 0
  }

  predicate IsBeat(p: Protocol, x: Item) {
    x.Got? && x.e.kind == p.heartbeat
  }

  /** Items that never leave `receive` as messages. */
  predicate IsControl(p: Protocol, x: Item) {
    x.Bad? || x.e.kind == p.heartbeat || x.e.kind == p.error
  }

  /** Nothing but messages is queued, as on every connection from its start. */
  predicate Orderly(p: Protocol, c: Conn) {
    forall e | e in c.pending :: !IsControl(p, Got(e))
  }

  ghost predicate SkippedBy(p: Protocol, ops: seq<Op>, x: Item) {
    x.Got? && exists op :: op in ops && op.Watch? && Skips(p, op.kind, op.accept, x.e)
  }

  /** What operations handed out, and what made them raise. */
  datatype Tally = Tally(returned: seq<Envelope>, raised: seq<Item>)

  /** What the fates say about the connection: a prefix of the arrivals has been consumed, the
      queue is what they queue, in order, and each answered item was answered by one beat. */
  ghost predicate Moves(p: Protocol, c: Conn, d: Conn, fates: seq<Fate>) {
    var a := Arrivals(p, c);
    && |c.pending| <= |fates| <= |a|
    && Leaves(p, c.input, |fates| - |c.pending|, d.input)
    && Gots(d.pending) == Pick(a, fates, Queued)
    && BeatsSent(d.sent) == BeatsSent(c.sent) + |Pick(a, fates, Answered)|
  }

  /** How many of each item end in each place. */
  datatype Ends = Ends(queued: multiset<Item>, returned: multiset<Item>, dropped: multiset<Item>,
                       answered: multiset<Item>, raised: multiset<Item>)

  function EndsOf(a: seq<Item>, fates: seq<Fate>): Ends
    requires |fates| <= |a|
  {
    Ends(Count(a, fates, Queued), Count(a, fates, Returned), Count(a, fates, Dropped),
         Count(a, fates, Answered), Count(a, fates, Raised))
  }

  /** What may end as `x`: those returned and raised are the ones in the tally, only heartbeats
      are answered, only what a wait skips is dropped, and no heartbeat, error or broken frame
      is ever queued, returned or dropped. */
  ghost predicate FairAt(p: Protocol, orderly: bool, ops: seq<Op>, o: Tally, items: multiset<Item>, x: Fate) {
    match x
    case Queued => orderly ==> NoControl(p, items)
    case Returned => items == multiset(Gots(o.returned)) && (orderly ==> NoControl(p, items))
    case Dropped => AllSkipped(p, ops, items) && (orderly ==> NoControl(p, items))
    case Answered => AllBeats(p, items)
    case Raised => items == multiset(o.raised)
  }

  ghost predicate Fair(p: Protocol, orderly: bool, ops: seq<Op>, o: Tally, ends: Ends) {
    && FairAt(p, orderly, ops, o, ends.queued, Queued)
    && FairAt(p, orderly, ops, o, ends.returned, Returned)
    && FairAt(p, orderly, ops, o, ends.dropped, Dropped)
    && FairAt(p, orderly, ops, o, ends.answered, Answered)
    && FairAt(p, orderly, ops, o, ends.raised, Raised)
  }

  ghost predicate AllBeats(p: Protocol, items: multiset<Item>) {
    forall x | x in items :: IsBeat(p, x)
  }

  ghost predicate AllSkipped(p: Protocol, ops: seq<Op>, items: multiset<Item>) {
    forall x | x in items :: SkippedBy(p, ops, x)
  }

  ghost predicate NoControl(p: Protocol, items: multiset<Item>) {
    forall x | x in items :: !IsControl(p, x)
  }

  ghost predicate EndsWell(p: Protocol, c: Conn, ops: seq<Op>, o: Tally, fates: seq<Fate>, x: Fate)
    requires |fates| <= |Arrivals(p, c)|
  {
    FairAt(p, Orderly(p, c), ops, o, Count(Arrivals(p, c), fates, x), x)
  }

  /** An account of what happened between `c` and `d`. */
  ghost predicate Settles(p: Protocol, c: Conn, d: Conn, ops: seq<Op>, o: Tally, fates: seq<Fate>) {
    && Moves(p, c, d, fates)
    && forall x: Fate {:trigger EndsWell(p, c, ops, o, fates, x)} :: EndsWell(p, c, ops, o, fates, x)
  }

  lemma SettlesIsFair(p: Protocol, c: Conn, d: Conn, ops: seq<Op>, o: Tally, fates: seq<Fate>)
    requires Settles(p, c, d, ops, o, fates)
    ensures Fair(p, Orderly(p, c), ops, o, EndsOf(Arrivals(p, c), fates))
  {
    assert EndsWell(p, c, ops, o, fates, Queued) && EndsWell(p, c, ops, o, fates, Returned);
    assert EndsWell(p, c, ops, o, fates, Dropped) && EndsWell(p, c, ops, o, fates, Answered);
    assert EndsWell(p, c, ops, o, fates, Raised);
  }

  lemma FairSettles(p: Protocol, c: Conn, d: Conn, ops: seq<Op>, o: Tally, fates: seq<Fate>)
    requires Moves(p, c, d, fates) && Fair(p, Orderly(p, c), ops, o, EndsOf(Arrivals(p, c), fates))
    ensures Settles(p, c, d, ops, o, fates)
  {
    forall x: Fate
      ensures EndsWell(p, c, ops, o, fates, x)
    {
    }
  }

  // ---- two accounts make one -----------------------------------------------

  lemma ArrivalsLeft(p: Protocol, c: Conn, d: Conn, fates: seq<Fate>)
    requires Moves(p, c, d, fates)
    ensures Arrivals(p, d) == Rest(Arrivals(p, c), fates)
  {
    var n := |fates| - |c.pending|;
    ItemsAfter(p, c.input, n);
    assert Items(p, []) == [];
    assert Arrivals(p, c)[|fates|..] == Items(p, c.input)[n..];
  }

  lemma LeavesLeaves(p: Protocol, input: seq<byte>, n: nat, mid: seq<byte>, m: nat, rest: seq<byte>)
    requires Leaves(p, input, n, mid) && Leaves(p, mid, m, rest)
    ensures Leaves(p, input, n + m, rest)
  {
    ItemsAfter(p, input, n);
    AfterAfter(input, n, m);
    EndStays(m);
    assert Items(p, []) == [];
  }

  lemma {:induction false} EndStays(n: nat)
    ensures After([], n) == []
    decreases n
  {
    if n > 0 {
      EndStays(n - 1);
    }
  }

  lemma AccountsFit(p: Protocol, c: Conn, d: Conn, e: Conn, first: seq<Fate>, later: seq<Fate>)
    requires Moves(p, c, d, first) && Moves(p, d, e, later)
    ensures Fit(Arrivals(p, c), first, later)
    ensures |Refine(first, later)| == |first| - |d.pending| + |later| <= |Arrivals(p, c)|
  {
    ArrivalsLeft(p, c, d, first);
    RefineSize(Arrivals(p, c), first, later);
  }

  lemma BeatsAdd(p: Protocol, c: Conn, d: Conn, e: Conn, first: seq<Fate>, later: seq<Fate>)
    requires Moves(p, c, d, first) && Moves(p, d, e, later) && |Refine(first, later)| <= |Arrivals(p, c)|
    ensures |Pick(Arrivals(p, c), Refine(first, later), Answered)|
         == |Pick(Arrivals(p, c), first, Answered)| + |Pick(Arrivals(p, d), later, Answered)|
  {
    var a := Arrivals(p, c);
    AccountsFit(p, c, d, e, first, later);
    ArrivalsLeft(p, c, d, first);
    RefineGone(a, first, later, Answered);
    assert |Count(a, Refine(first, later), Answered)|
        == |Count(a, first, Answered)| + |Count(Arrivals(p, d), later, Answered)|;
  }

  lemma ComposeMoves(p: Protocol, c: Conn, d: Conn, e: Conn, first: seq<Fate>, later: seq<Fate>)
    requires Moves(p, c, d, first) && Moves(p, d, e, later)
    ensures Moves(p, c, e, Refine(first, later))
  {
    AccountsFit(p, c, d, e, first, later);
    ArrivalsLeft(p, c, d, first);
    LeavesLeaves(p, c.input, |first| - |c.pending|, d.input, |later| - |d.pending|, e.input);
    RefineQueue(Arrivals(p, c), first, later);
    BeatsAdd(p, c, d, e, first, later);
  }

  function Both(o: Tally, q: Tally): Tally {
    Tally(o.returned + q.returned, o.raised + q.raised)
  }

  function Together(x: Ends, y: Ends): Ends {
    Ends(y.queued, x.returned + y.returned, x.dropped + y.dropped, x.answered + y.answered, x.raised + y.raised)
  }

  lemma ComposeEnds(p: Protocol, c: Conn, d: Conn, e: Conn, first: seq<Fate>, later: seq<Fate>)
    requires Moves(p, c, d, first) && Moves(p, d, e, later)
    ensures |Refine(first, later)| <= |Arrivals(p, c)|
    ensures EndsOf(Arrivals(p, c), Refine(first, later))
         == Together(EndsOf(Arrivals(p, c), first), EndsOf(Arrivals(p, d), later))
  {
    var a := Arrivals(p, c);
    AccountsFit(p, c, d, e, first, later);
    ArrivalsLeft(p, c, d, first);
    RefineQueue(a, first, later);
    RefineGone(a, first, later, Returned);
    RefineGone(a, first, later, Raised);
    RefineGone(a, first, later, Answered);
    RefineGone(a, first, later, Dropped);
  }

  lemma FairTogether(p: Protocol, start: bool, mid: bool, ops: seq<Op>, o: Tally, q: Tally, x: Ends, y: Ends)
    requires Fair(p, start, ops, o, x) && Fair(p, mid, ops, q, y) && (start ==> mid)
    ensures Fair(p, start, ops, Both(o, q), Together(x, y))
  {
    assert Gots(o.returned + q.returned) == Gots(o.returned) + Gots(q.returned);
  }

  lemma StaysOrderly(p: Protocol, c: Conn, d: Conn, ops: seq<Op>, o: Tally, fates: seq<Fate>)
    requires Settles(p, c, d, ops, o, fates) && Orderly(p, c)
    ensures Orderly(p, d)
  {
    assert EndsWell(p, c, ops, o, fates, Queued);
    forall e | e in d.pending
      ensures !IsControl(p, Got(e))
    {
      assert Got(e) in Gots(d.pending);
      assert Got(e) in Count(Arrivals(p, c), fates, Queued);
    }
  }

  lemma Compose(p: Protocol, c: Conn, d: Conn, e: Conn, ops: seq<Op>, o: Tally, q: Tally,
                first: seq<Fate>, later: seq<Fate>)
    requires Settles(p, c, d, ops, o, first) && Settles(p, d, e, ops, q, later)
    ensures Settles(p, c, e, ops, Both(o, q), Refine(first, later))
  {
    ComposeMoves(p, c, d, e, first, later);
    ComposeEnds(p, c, d, e, first, later);
    if Orderly(p, c) {
      StaysOrderly(p, c, d, ops, o, first);
    }
    SettlesIsFair(p, c, d, ops, o, first);
    SettlesIsFair(p, d, e, ops, q, later);
    FairTogether(p, Orderly(p, c), Orderly(p, d), ops, o, q,
                 EndsOf(Arrivals(p, c), first), EndsOf(Arrivals(p, d), later));
    FairSettles(p, c, e, ops, Both(o, q), Refine(first, later));
  }

  // ---- one item ------------------------------------------------------------

  /** The stream's first item ends as `x`. */
  ghost predicate TakesItem(p: Protocol, c: Conn, d: Conn, x: Fate) {
    && Items(p, c.input) != [] && d.input == ReadFrame(c.input).rest
    && var item := Items(p, c.input)[0];
    && (x != Raised ==> item.Got?)
    && d.pending == (if x == Queued then c.pending + [item.e] else c.pending)
    && BeatsSent(d.sent) == BeatsSent(c.sent) + (if x == Answered then 1 else 0)
  }

  ghost predicate MayEnd(p: Protocol, orderly: bool, ops: seq<Op>, item: Item, x: Fate) {
    && (x == Answered ==> IsBeat(p, item))
    && (x == Dropped ==> SkippedBy(p, ops, item))
    && (orderly && (x == Queued || x == Returned || x == Dropped) ==> !IsControl(p, item))
  }

  function TallyOf(item: Item, x: Fate): Tally {
    Tally(if x == Returned && item.Got? then [item.e] else [], if x == Raised then [item] else [])
  }

  lemma FirstItem(p: Protocol, input: seq<byte>)
    requires Items(p, input) != []
    ensures Items(p, ReadFrame(input).rest) == Items(p, input)[1..]
    ensures After(input, 1) == ReadFrame(input).rest
  {
    assert After(ReadFrame(input).rest, 0) == ReadFrame(input).rest;
  }

  lemma ItemLeaves(p: Protocol, c: Conn, d: Conn, x: Fate)
    requires TakesItem(p, c, d, x)
    ensures Leaves(p, c.input, 1, d.input)
  {
    FirstItem(p, c.input);
  }

  lemma ItemPicks(p: Protocol, c: Conn, x: Fate, y: Fate)
    requires Items(p, c.input) != []
    ensures Pick(Arrivals(p, c), Waiting(|c.pending|) + [x], y)
         == (if y == Queued then Gots(c.pending) else []) + if x == y then [Items(p, c.input)[0]] else []
  {
    var a, n := Arrivals(p, c), |c.pending|;
    assert a[..n] == Gots(c.pending) && a[n] == Items(p, c.input)[0];
    PickWaiting(a, n, y);
    PickOneMore(a, Waiting(n), x, y);
  }

  lemma ItemMoves(p: Protocol, c: Conn, d: Conn, x: Fate)
    requires TakesItem(p, c, d, x)
    ensures Moves(p, c, d, Waiting(|c.pending|) + [x])
  {
    ItemLeaves(p, c, d, x);
    ItemPicks(p, c, x, Queued);
    ItemPicks(p, c, x, Answered);
    assert Gots(d.pending) == Gots(c.pending) + if x == Queued then [Items(p, c.input)[0]] else [];
  }

  function One(item: Item, x: Fate, y: Fate): multiset<Item> {
    if x == y then multiset{item} else multiset{}
  }

  /** A queue that stays, and one item that ends as `x`. */
  function OneMore(queue: multiset<Item>, item: Item, x: Fate): Ends {
    Ends(queue + One(item, x, Queued), One(item, x, Returned), One(item, x, Dropped),
         One(item, x, Answered), One(item, x, Raised))
  }

  lemma CountOneMore(a: seq<Item>, n: nat, x: Fate, y: Fate)
    requires n < |a|
    ensures Count(a, Waiting(n) + [x], y)
         == (if y == Queued then multiset(a[..n]) else multiset{}) + One(a[n], x, y)
  {
    PickWaiting(a, n, y);
    PickOneMore(a, Waiting(n), x, y);
  }

  lemma EndsOneMore(a: seq<Item>, n: nat, x: Fate)
    requires n < |a|
    ensures EndsOf(a, Waiting(n) + [x]) == OneMore(multiset(a[..n]), a[n], x)
  {
    CountOneMore(a, n, x, Queued);
    CountOneMore(a, n, x, Returned);
    CountOneMore(a, n, x, Dropped);
    CountOneMore(a, n, x, Answered);
    CountOneMore(a, n, x, Raised);
  }

  lemma QueueHasNoControl(p: Protocol, queue: seq<Envelope>)
    requires forall e | e in queue :: !IsControl(p, Got(e))
    ensures NoControl(p, multiset(Gots(queue)))
  {
    forall x | x in multiset(Gots(queue))
      ensures !IsControl(p, x)
    {
      assert x in Gots(queue);
    }
  }

  lemma OneHasNoControl(p: Protocol, orderly: bool, ops: seq<Op>, item: Item, x: Fate)
    requires MayEnd(p, orderly, ops, item, x)
    ensures orderly ==>
              NoControl(p, One(item, x, Queued)) && NoControl(p, One(item, x, Returned))
              && NoControl(p, One(item, x, Dropped))
    ensures AllBeats(p, One(item, x, Answered)) && AllSkipped(p, ops, One(item, x, Dropped))
  {
  }

  lemma OneIsTold(item: Item, x: Fate)
    requires x != Raised ==> item.Got?
    ensures multiset(Gots(TallyOf(item, x).returned)) == One(item, x, Returned)
    ensures multiset(TallyOf(item, x).raised) == One(item, x, Raised)
  {
    assert Gots(TallyOf(item, x).returned) == if x == Returned then [item] else [];
  }

  lemma OneMoreIsFair(p: Protocol, queue: seq<Envelope>, orderly: bool, ops: seq<Op>, item: Item, x: Fate)
    requires MayEnd(p, orderly, ops, item, x) && (x != Raised ==> item.Got?)
    requires orderly ==> forall e | e in queue :: !IsControl(p, Got(e))
    ensures Fair(p, orderly, ops, TallyOf(item, x), OneMore(multiset(Gots(queue)), item, x))
  {
    OneIsTold(item, x);
    OneHasNoControl(p, orderly, ops, item, x);
    if orderly {
      QueueHasNoControl(p, queue);
      NoControlTogether(p, multiset(Gots(queue)), One(item, x, Queued));
    }
  }

  lemma NoControlTogether(p: Protocol, a: multiset<Item>, b: multiset<Item>)
    requires NoControl(p, a) && NoControl(p, b)
    ensures NoControl(p, a + b)
  {
  }

  lemma ItemSettles(p: Protocol, c: Conn, d: Conn, ops: seq<Op>, x: Fate)
    requires TakesItem(p, c, d, x) && MayEnd(p, true, ops, Items(p, c.input)[0], x)
    ensures Settles(p, c, d, ops, TallyOf(Items(p, c.input)[0], x), Waiting(|c.pending|) + [x])
  {
    ItemMoves(p, c, d, x);
    var a, n := Arrivals(p, c), |c.pending|;
    assert a[..n] == Gots(c.pending) && a[n] == Items(p, c.input)[0];
    EndsOneMore(a, n, x);
    OneMoreIsFair(p, c.pending, Orderly(p, c), ops, a[n], x);
    FairSettles(p, c, d, ops, TallyOf(a[n], x), Waiting(n) + [x]);
  }

  /** The queue's first message ends as `x`. */
  lemma HeadSettles(p: Protocol, c: Conn, ops: seq<Op>, x: Fate) returns (fates: seq<Fate>)
    requires c.pending != [] && (x == Returned || x == Dropped || x == Raised)
    requires x == Dropped ==> SkippedBy(p, ops, Got(c.pending[0]))
    ensures Settles(p, c, c.(pending := c.pending[1..]), ops, TallyOf(Got(c.pending[0]), x), fates)
  {
    var d := c.(pending := c.pending[1..]);
    fates := [x] + Waiting(|d.pending|);
    HeadMoves(p, c, d, x);
    HeadIsFair(p, c, d, ops, x);
    FairSettles(p, c, d, ops, TallyOf(Got(c.pending[0]), x), fates);
  }

  lemma HeadIsFair(p: Protocol, c: Conn, d: Conn, ops: seq<Op>, x: Fate)
    requires c.pending != [] && d == c.(pending := c.pending[1..]) && (x == Returned || x == Dropped || x == Raised)
    requires x == Dropped ==> SkippedBy(p, ops, Got(c.pending[0]))
    ensures Fair(p, Orderly(p, c), ops, TallyOf(Got(c.pending[0]), x),
                 EndsOf(Arrivals(p, c), [x] + Waiting(|d.pending|)))
  {
    assert Arrivals(p, c) == [Got(c.pending[0])] + Arrivals(p, d);
    HeadFair(p, d.pending, Items(p, c.input), Orderly(p, c), ops, Got(c.pending[0]), x);
  }

  lemma HeadFair(p: Protocol, queue: seq<Envelope>, rest: seq<Item>, orderly: bool, ops: seq<Op>, item: Item, x: Fate)
    requires MayEnd(p, orderly, ops, item, x) && (x != Raised ==> item.Got?)
    requires orderly ==> forall e | e in queue :: !IsControl(p, Got(e))
    ensures Fair(p, orderly, ops, TallyOf(item, x), EndsOf([item] + (Gots(queue) + rest), [x] + Waiting(|queue|)))
  {
    HeadEnds(item, Gots(queue) + rest, |queue|, x);
    OneMoreIsFair(p, queue, orderly, ops, item, x);
  }

  lemma HeadEnds(item: Item, rest: seq<Item>, n: nat, x: Fate)
    requires n <= |rest|
    ensures EndsOf([item] + rest, [x] + Waiting(n)) == OneMore(multiset(rest[..n]), item, x)
  {
    CountHeadFirst(item, rest, n, x, Queued);
    CountHeadFirst(item, rest, n, x, Returned);
    CountHeadFirst(item, rest, n, x, Dropped);
    CountHeadFirst(item, rest, n, x, Answered);
    CountHeadFirst(item, rest, n, x, Raised);
  }

  lemma CountHeadFirst(item: Item, rest: seq<Item>, n: nat, x: Fate, y: Fate)
    requires n <= |rest|
    ensures Count([item] + rest, [x] + Waiting(n), y)
         == (if y == Queued then multiset(rest[..n]) else multiset{}) + One(item, x, y)
  {
    CountHead(item, rest, x, Waiting(n), y);
    PickWaiting(rest, n, y);
  }

  lemma HeadMoves(p: Protocol, c: Conn, d: Conn, x: Fate)
    requires c.pending != [] && d == c.(pending := c.pending[1..]) && x != Queued && x != Answered
    ensures Moves(p, c, d, [x] + Waiting(|c.pending| - 1))
  {
    var n, item, rest := |c.pending| - 1, Got(c.pending[0]), Arrivals(p, d);
    assert Arrivals(p, c) == [item] + rest && rest[..n] == Gots(d.pending);
    PickHead(item, rest, x, Waiting(n), Queued);
    PickHead(item, rest, x, Waiting(n), Answered);
    PickWaiting(rest, n, Queued);
    PickWaiting(rest, n, Answered);
  }

  /** Nothing is taken: at most the end of the stream is noticed. */
  lemma NothingSettles(p: Protocol, c: Conn, d: Conn, ops: seq<Op>)
    requires d.pending == c.pending && BeatsSent(d.sent) == BeatsSent(c.sent)
    requires d.input == c.input || (Items(p, c.input) == [] && d.input == [])
    ensures Settles(p, c, d, ops, Tally([], []), Waiting(|c.pending|))
  {
    var a, n := Arrivals(p, c), |c.pending|;
    assert a[..n] == Gots(c.pending);
    NothingMoves(p, c, d);
    NothingEnds(a, n);
    if Orderly(p, c) {
      QueueHasNoControl(p, c.pending);
    }
    assert Gots([]) == [];
    FairSettles(p, c, d, ops, Tally([], []), Waiting(n));
  }

  lemma NothingMoves(p: Protocol, c: Conn, d: Conn)
    requires d.pending == c.pending && BeatsSent(d.sent) == BeatsSent(c.sent)
    requires d.input == c.input || (Items(p, c.input) == [] && d.input == [])
    ensures Moves(p, c, d, Waiting(|c.pending|))
  {
    var a, n := Arrivals(p, c), |c.pending|;
    assert a[..n] == Gots(c.pending);
    PickWaiting(a, n, Queued);
    PickWaiting(a, n, Answered);
  }

  lemma NothingEnds(a: seq<Item>, n: nat)
    requires n <= |a|
    ensures EndsOf(a, Waiting(n)) == Ends(multiset(a[..n]), multiset{}, multiset{}, multiset{}, multiset{})
  {
    PickWaiting(a, n, Queued);
    PickWaiting(a, n, Returned);
    PickWaiting(a, n, Dropped);
    PickWaiting(a, n, Answered);
    PickWaiting(a, n, Raised);
  }

  // ---- one step ------------------------------------------------------------

  /** Failures that something received is the cause of. */
  predicate IsComplaint(f: Failure) {
    f != Closed && f != Blocked && f != TooLong
  }

  /** Some heartbeat numbered `n` or later does not fit a frame. */
  ghost predicate CannotAnswer(p: Protocol, n: nat) {
    exists m: nat :: m >= n && !Sendable(p, Beat(p, m))
  }

  /** `receive`, at number `n` or later, raises `f` because of `x`: a broken frame, an error, or
      a heartbeat it cannot answer. */
  ghost predicate IsFault(p: Protocol, n: nat, x: Item, f: Failure) {
    match x
    case Bad(g) => f == g && (g == Malformed || g.BadSize?)
    case Got(e) =>
      || (e.kind == p.heartbeat && f == BeatTooLong && CannotAnswer(p, n))
      || (e.kind != p.heartbeat && e.kind == p.error && f == ErrorOf(p, e.payload))
  }

  /** What `op`, started at number `n`, makes of the message it stops at: a request stops at the
      message with its own id only, a wait at one of its type that it does not skip. */
  predicate StopsAt(op: Op, n: nat, p: Protocol, e: Envelope) {
    match op
    case Ask(_, _, nonce) => e.id == RequestId(n, nonce)
    case Watch(kind, accept) => !Skips(p, kind, accept, e)
  }

  function Reading(op: Op, p: Protocol, e: Envelope): Result<Envelope> {
    match op
    case Ask(kind, _, _) => Answer(p, e, kind)
    case Watch(kind, _) => if p.decodes(kind, e.payload) then Ok(e) else Err(Malformed)
  }

  /** `x` is the cause for `op`, started at number `n`, to raise `f`. */
  ghost predicate Explains(p: Protocol, op: Op, n: nat, x: Item, f: Failure) {
    IsFault(p, n, x, f) || (x.Got? && StopsAt(op, n, p, x.e) && Reading(op, p, x.e) == Err(f))
  }

  /** The tally of one operation: it returns the one message it stops at and can read, or raises
      because of one item that is the cause, or raises because of none. */
  ghost predicate Told(p: Protocol, op: Op, n: nat, r: Result<Envelope>, o: Tally) {
    match r
    case Ok(e) => o == Tally([e], []) && StopsAt(op, n, p, e) && Reading(op, p, e) == Ok(e)
    case Err(f) =>
      && o.returned == []
      && if IsComplaint(f) then |o.raised| == 1 && Explains(p, op, n, o.raised[0], f) else o.raised == []
  }

  const NOTHING: Tally := Tally([], [])

  lemma BeatCounts(sent: seq<Envelope>, e: Envelope)
    ensures BeatsSent(sent + [e]) == BeatsSent(sent) + if e.id.HeartbeatId? then 1 else 0
  {
    assert (sent + [e])[..|sent|] == sent;
  }

  // An operation is a path of single steps; what the path says about fates comes after.

  datatype Step = FromStream(fate: Fate, item: Item, to: Conn)
                | FromQueue(fate: Fate, item: Item, to: Conn)
                | Silent(to: Conn)

  ghost predicate Takes(p: Protocol, c: Conn, ops: seq<Op>, s: Step) {
    match s
    case FromStream(x, item, to) =>
      TakesItem(p, c, to, x) && item == Items(p, c.input)[0] && MayEnd(p, true, ops, item, x)
    case FromQueue(x, item, to) =>
      && c.pending != [] && item == Got(c.pending[0]) && to == c.(pending := c.pending[1..])
      && (x == Returned || x == Raised || (x == Dropped && SkippedBy(p, ops, item)))
    case Silent(to) =>
      && to.pending == c.pending && BeatsSent(to.sent) == BeatsSent(c.sent)
      && (to.input == c.input || (Items(p, c.input) == [] && to.input == []))
  }

  ghost function TakesOf(p: Protocol, ops: seq<Op>): (Conn, Step) -> bool {
    (c, s) => Takes(p, c, ops, s)
  }

  function To(): Step -> Conn {
    (s: Step) => s.to
  }

  ghost predicate Path(p: Protocol, c: Conn, ops: seq<Op>, steps: seq<Step>, d: Conn) {
    Leads(TakesOf(p, ops), To(), c, steps, d)
  }

  function TallyOfStep(s: Step): Tally {
    if s.Silent? then NOTHING else TallyOf(s.item, s.fate)
  }

  function TallyOfPath(steps: seq<Step>): Tally {
    if steps == [] then NOTHING else Both(TallyOfStep(steps[0]), TallyOfPath(steps[1..]))
  }

  lemma OneStep(p: Protocol, c: Conn, ops: seq<Op>, s: Step)
    requires Takes(p, c, ops, s)
    ensures Path(p, c, ops, [s], s.to) && TallyOfPath([s]) == TallyOfStep(s)
  {
    assert [s][1..] == [];
  }

  lemma BothAssociates(x: Tally, y: Tally, z: Tally)
    ensures Both(Both(x, y), z) == Both(x, Both(y, z)) && Both(NOTHING, x) == x
  {
  }

  lemma TallyHead(s: Step, rest: seq<Step>)
    ensures TallyOfPath([s] + rest) == Both(TallyOfStep(s), TallyOfPath(rest))
  {
    assert ([s] + rest)[1..] == rest;
  }

  lemma {:induction false} TalliesJoin(a: seq<Step>, b: seq<Step>)
    ensures TallyOfPath(a + b) == Both(TallyOfPath(a), TallyOfPath(b))
    decreases |a|
  {
    if a == [] {
      assert a + b == b;
      BothAssociates(TallyOfPath(b), NOTHING, NOTHING);
    } else {
      TalliesJoin(a[1..], b);
      assert a + b == [a[0]] + (a[1..] + b) && a == [a[0]] + a[1..];
      TallyHead(a[0], a[1..] + b);
      BothAssociates(TallyOfStep(a[0]), TallyOfPath(a[1..]), TallyOfPath(b));
    }
  }

  lemma PathConcat(p: Protocol, c: Conn, ops: seq<Op>, a: seq<Step>, d: Conn, b: seq<Step>, e: Conn)
    requires Path(p, c, ops, a, d) && Path(p, d, ops, b, e)
    ensures Path(p, c, ops, a + b, e) && TallyOfPath(a + b) == Both(TallyOfPath(a), TallyOfPath(b))
  {
    Join(TakesOf(p, ops), To(), c, a, d, b, e);
    TalliesJoin(a, b);
  }

  /** A single step has its fates. */
  lemma StepSettles(p: Protocol, c: Conn, ops: seq<Op>, s: Step) returns (fates: seq<Fate>)
    requires Takes(p, c, ops, s)
    ensures Settles(p, c, s.to, ops, TallyOfStep(s), fates)
  {
    match s {
      case FromStream(x, item, to) =>
        fates := Waiting(|c.pending|) + [x];
        ItemSettles(p, c, to, ops, x);
      case FromQueue(x, item, to) =>
        fates := HeadSettles(p, c, ops, x);
      case Silent(to) =>
        fates := Waiting(|c.pending|);
        NothingSettles(p, c, to, ops);
    }
  }

  /** And so has a path. */
  lemma {:induction false} PathSettles(p: Protocol, c: Conn, ops: seq<Op>, steps: seq<Step>, d: Conn)
    returns (fates: seq<Fate>)
    requires Path(p, c, ops, steps, d)
    ensures Settles(p, c, d, ops, TallyOfPath(steps), fates) && |fates| >= |c.pending|
    decreases |steps|
  {
    if steps == [] {
      fates := Waiting(|c.pending|);
      NothingSettles(p, c, c, ops);
    } else {
      Tail(TakesOf(p, ops), To(), c, steps, d);
      var first := StepSettles(p, c, ops, steps[0]);
      var later := PathSettles(p, steps[0].to, ops, steps[1..], d);
      fates := Refine(first, later);
      Compose(p, c, steps[0].to, d, ops, TallyOfStep(steps[0]), TallyOfPath(steps[1..]), first, later);
    }
  }

  /** `Settles`, with fates for the queue and the first `n` items of the stream. */
  ghost predicate Settled(p: Protocol, c: Conn, d: Conn, ops: seq<Op>, o: Tally, n: nat) {
    && Leaves(p, c.input, n, d.input)
    && exists fates :: |fates| == |c.pending| + n && Settles(p, c, d, ops, o, fates)
  }

  lemma SettlesIsSettled(p: Protocol, c: Conn, d: Conn, ops: seq<Op>, o: Tally, fates: seq<Fate>)
    requires Settles(p, c, d, ops, o, fates) && |fates| >= |c.pending|
    ensures Settled(p, c, d, ops, o, |fates| - |c.pending|)
  {
  }

  lemma PathIsSettled(p: Protocol, c: Conn, ops: seq<Op>, steps: seq<Step>, d: Conn) returns (n: nat)
    requires Path(p, c, ops, steps, d)
    ensures Settled(p, c, d, ops, TallyOfPath(steps), n)
  {
    var fates := PathSettles(p, c, ops, steps, d);
    SettlesIsSettled(p, c, d, ops, TallyOfPath(steps), fates);
    n := |fates| - |c.pending|;
  }

  // ---- one operation -------------------------------------------------------

  /** `receive` answers heartbeats until it is at an item that decides it. */
  lemma {:induction false} AnswerBeats(p: Protocol, c: Conn, ops: seq<Op>) returns (mid: Conn, steps: seq<Step>)
    ensures Path(p, c, ops, steps, mid) && TallyOfPath(steps) == NOTHING
    ensures mid.pending == c.pending && mid.nextId >= c.nextId && Receive(p, mid) == Receive(p, c)
    ensures Items(p, mid.input) != [] && IsBeat(p, Items(p, mid.input)[0]) ==> !Sendable(p, Beat(p, mid.nextId))
    decreases |c.input|
  {
    ReceiveByItem(p, c);
    if Items(p, c.input) != [] && IsBeat(p, Items(p, c.input)[0]) && Sendable(p, Beat(p, c.nextId)) {
      var beat := Beat(p, c.nextId);
      var d := BeatSent(p, Past(c));
      BeatCounts(c.sent, beat);
      var s := FromStream(Answered, Items(p, c.input)[0], d);
      OneStep(p, c, ops, s);
      var later;
      mid, later := AnswerBeats(p, d, ops);
      steps := [s] + later;
      PathConcat(p, c, ops, [s], d, later, mid);
    } else {
      mid, steps := c, [];
    }
  }

  /** When receiving fails, the item it fails on is raised, and is the fault. */
  ghost predicate Faults(p: Protocol, n: nat, r: Result<Envelope>, o: Tally) {
    && r.Err? && o.returned == []
    && if r.failure == Closed then o.raised == []
       else IsComplaint(r.failure) && |o.raised| == 1 && IsFault(p, n, o.raised[0], r.failure)
  }

  lemma FailureStep(p: Protocol, c: Conn, ops: seq<Op>) returns (s: Step)
    requires Receive(p, c).result.Err?
    requires Items(p, c.input) != [] && IsBeat(p, Items(p, c.input)[0]) ==> !Sendable(p, Beat(p, c.nextId))
    ensures Takes(p, c, ops, s) && s.to == Receive(p, c).conn
    ensures Faults(p, c.nextId, Receive(p, c).result, TallyOfStep(s))
  {
    ReceiveByItem(p, c);
    s := if Items(p, c.input) == [] then Silent(Receive(p, c).conn)
         else FromStream(Raised, Items(p, c.input)[0], Receive(p, c).conn);
  }

  lemma FailurePath(p: Protocol, c: Conn, ops: seq<Op>) returns (steps: seq<Step>)
    requires Receive(p, c).result.Err?
    ensures Path(p, c, ops, steps, Receive(p, c).conn)
    ensures Faults(p, c.nextId, Receive(p, c).result, TallyOfPath(steps))
  {
    var mid, first := AnswerBeats(p, c, ops);
    var s := FailureStep(p, mid, ops);
    OneStep(p, mid, ops, s);
    steps := first + [s];
    PathConcat(p, c, ops, first, mid, [s], s.to);
  }

  /** When receiving succeeds with `e`, `e` may end as `x` if the connection is left so. */
  ghost predicate EndsAs(p: Protocol, c: Conn, d: Conn, ops: seq<Op>, x: Fate) {
    var r := Receive(p, c);
    && r.result.Ok? && x != Answered
    && (x == Dropped ==> SkippedBy(p, ops, Got(r.result.value)))
    && d == if x == Queued then r.conn.(pending := r.conn.pending + [r.result.value]) else r.conn
  }

  lemma MessageStep(p: Protocol, c: Conn, d: Conn, ops: seq<Op>, x: Fate) returns (s: Step)
    requires EndsAs(p, c, d, ops, x)
    requires Items(p, c.input) != [] && IsBeat(p, Items(p, c.input)[0]) ==> !Sendable(p, Beat(p, c.nextId))
    ensures Takes(p, c, ops, s) && s.to == d && TallyOfStep(s) == TallyOf(Got(Receive(p, c).result.value), x)
  {
    ReceiveByItem(p, c);
    s := FromStream(x, Items(p, c.input)[0], d);
  }

  lemma MessagePath(p: Protocol, c: Conn, d: Conn, ops: seq<Op>, x: Fate) returns (steps: seq<Step>)
    requires EndsAs(p, c, d, ops, x)
    ensures Path(p, c, ops, steps, d) && TallyOfPath(steps) == TallyOf(Got(Receive(p, c).result.value), x)
  {
    var mid, first := AnswerBeats(p, c, ops);
    var s := MessageStep(p, mid, d, ops, x);
    OneStep(p, mid, ops, s);
    steps := first + [s];
    PathConcat(p, c, ops, first, mid, [s], d);
    BothAssociates(TallyOfStep(s), NOTHING, NOTHING);
  }

  /** A failure of `receive` at a later number tells on the operation that receives. */
  lemma FaultsAreTold(p: Protocol, op: Op, n: nat, m: nat, r: Result<Envelope>, o: Tally)
    requires n <= m && Faults(p, m, r, o)
    ensures Told(p, op, n, r, o)
  {
  }

  /** And so does the message it stops at. */
  lemma ReadingIsTold(p: Protocol, op: Op, n: nat, e: Envelope, o: Tally)
    requires StopsAt(op, n, p, e) && o == TallyOf(Got(e), if Reading(op, p, e).Ok? then Returned else Raised)
    ensures Told(p, op, n, Reading(op, p, e), o)
  {
  }

  lemma ReceiveCounts(p: Protocol, c: Conn)
    ensures c.nextId <= Receive(p, c).conn.nextId
    decreases |c.input|
  {
    ReceiveByItem(p, c);
    if Items(p, c.input) != [] && IsBeat(p, Items(p, c.input)[0]) && Sendable(p, Beat(p, c.nextId)) {
      ReceiveCounts(p, BeatSent(p, Past(c)));
    }
  }

  lemma AwaitEndPath(p: Protocol, c: Conn, op: Op, n: nat, ops: seq<Op>) returns (steps: seq<Step>)
    requires op.Ask? && n <= c.nextId
    requires Receive(p, c).result.Ok? ==> Receive(p, c).result.value.id == RequestId(n, op.nonce)
    ensures var r := Await(p, c, RequestId(n, op.nonce), op.kind);
            Path(p, c, ops, steps, r.conn) && Told(p, op, n, r.result, TallyOfPath(steps))
  {
    var r := Receive(p, c);
    if r.result.Err? {
      steps := FailurePath(p, c, ops);
      FaultsAreTold(p, op, n, c.nextId, r.result, TallyOfPath(steps));
    } else {
      steps := MessagePath(p, c, r.conn, ops, if Reading(op, p, r.result.value).Ok? then Returned else Raised);
      ReadingIsTold(p, op, n, r.result.value, TallyOfPath(steps));
    }
  }

  lemma QueueFirst(p: Protocol, c: Conn, d: Conn, ops: seq<Op>, later: seq<Step>, e: Conn) returns (steps: seq<Step>)
    requires var r := Receive(p, c);
             r.result.Ok? && d == r.conn.(pending := r.conn.pending + [r.result.value])
    requires Path(p, d, ops, later, e)
    ensures Path(p, c, ops, steps, e) && TallyOfPath(steps) == TallyOfPath(later)
  {
    var first := MessagePath(p, c, d, ops, Queued);
    steps := first + later;
    Join(TakesOf(p, ops), To(), c, first, d, later, e);
    TalliesJoin(first, later);
    BothAssociates(TallyOfPath(later), NOTHING, NOTHING);
  }

  lemma {:induction false} AwaitPath(p: Protocol, c: Conn, op: Op, n: nat, ops: seq<Op>) returns (steps: seq<Step>)
    requires op.Ask? && n <= c.nextId
    ensures var r := Await(p, c, RequestId(n, op.nonce), op.kind);
            Path(p, c, ops, steps, r.conn) && Told(p, op, n, r.result, TallyOfPath(steps))
    decreases |c.input|
  {
    var r, id := Receive(p, c), RequestId(n, op.nonce);
    if r.result.Ok? && r.result.value.id != id {
      ReceiveCounts(p, c);
      var d := r.conn.(pending := r.conn.pending + [r.result.value]);
      var later := AwaitPath(p, d, op, n, ops);
      steps := QueueFirst(p, c, d, ops, later, Await(p, d, id, op.kind).conn);
    } else {
      steps := AwaitEndPath(p, c, op, n, ops);
    }
  }

  lemma SentRequestPath(p: Protocol, c: Conn, op: Op, ops: seq<Op>) returns (steps: seq<Step>)
    requires op.Ask?
    ensures var e := Envelope(op.kind, op.payload, RequestId(c.nextId, op.nonce));
            var r := Await(p, c.(nextId := c.nextId + 1, sent := c.sent + [e]), e.id, op.kind);
            Path(p, c, ops, steps, r.conn) && Told(p, op, c.nextId, r.result, TallyOfPath(steps))
  {
    var e := Envelope(op.kind, op.payload, RequestId(c.nextId, op.nonce));
    var d := c.(nextId := c.nextId + 1, sent := c.sent + [e]);
    BeatCounts(c.sent, e);
    OneStep(p, c, ops, Silent(d));
    var later := AwaitPath(p, d, op, c.nextId, ops);
    steps := [Silent(d)] + later;
    Join(TakesOf(p, ops), To(), c, [Silent(d)], d, later, Await(p, d, e.id, op.kind).conn);
    TalliesJoin([Silent(d)], later);
    BothAssociates(TallyOfPath(later), NOTHING, NOTHING);
  }

  lemma UnsentRequestPath(p: Protocol, c: Conn, op: Op, ops: seq<Op>) returns (steps: seq<Step>)
    requires op.Ask?
    requires op.kind !in p.readOnly || !Sendable(p, Envelope(op.kind, op.payload, RequestId(c.nextId, op.nonce)))
    ensures var r := Request(p, c, op.kind, op.payload, op.nonce);
            Path(p, c, ops, steps, r.conn) && Told(p, op, c.nextId, r.result, TallyOfPath(steps))
  {
    steps := [Silent(Request(p, c, op.kind, op.payload, op.nonce).conn)];
    OneStep(p, c, ops, steps[0]);
  }

  lemma RequestPath(p: Protocol, c: Conn, op: Op, ops: seq<Op>) returns (steps: seq<Step>)
    requires op.Ask?
    ensures var r := Request(p, c, op.kind, op.payload, op.nonce);
            Path(p, c, ops, steps, r.conn) && Told(p, op, c.nextId, r.result, TallyOfPath(steps))
  {
    if op.kind in p.readOnly && Sendable(p, Envelope(op.kind, op.payload, RequestId(c.nextId, op.nonce))) {
      steps := SentRequestPath(p, c, op, ops);
    } else {
      steps := UnsentRequestPath(p, c, op, ops);
    }
  }

  /** The next message a wait looks at may end as `x`. */
  lemma PopPath(p: Protocol, c: Conn, ops: seq<Op>, x: Fate) returns (steps: seq<Step>)
    requires Pop(p, c).result.Ok? && (x == Returned || x == Dropped || x == Raised)
    requires x == Dropped ==> SkippedBy(p, ops, Got(Pop(p, c).result.value))
    ensures Path(p, c, ops, steps, Pop(p, c).conn)
    ensures TallyOfPath(steps) == TallyOf(Got(Pop(p, c).result.value), x)
  {
    if c.pending != [] {
      var s := FromQueue(x, Got(c.pending[0]), Pop(p, c).conn);
      OneStep(p, c, ops, s);
      steps := [s];
    } else {
      steps := MessagePath(p, c, Receive(p, c).conn, ops, x);
    }
  }

  /** A wait that ends with the next message, or because there is none. */
  lemma WaitEndPath(p: Protocol, c: Conn, op: Op, n: nat, ops: seq<Op>) returns (steps: seq<Step>)
    requires op.Watch? && n <= c.nextId
    requires Pop(p, c).result.Ok? ==> !Skips(p, op.kind, op.accept, Pop(p, c).result.value)
    ensures var r := WaitFor(p, c, op.kind, op.accept);
            Path(p, c, ops, steps, r.conn) && Told(p, op, n, r.result, TallyOfPath(steps))
  {
    var r := Pop(p, c);
    if r.result.Err? {
      steps := FailurePath(p, c, ops);
      FaultsAreTold(p, op, n, c.nextId, r.result, TallyOfPath(steps));
    } else {
      steps := PopPath(p, c, ops, if Reading(op, p, r.result.value).Ok? then Returned else Raised);
      ReadingIsTold(p, op, n, r.result.value, TallyOfPath(steps));
    }
  }

  lemma DropFirst(p: Protocol, c: Conn, op: Op, ops: seq<Op>, later: seq<Step>, e: Conn) returns (steps: seq<Step>)
    requires op.Watch? && op in ops
    requires Pop(p, c).result.Ok? && Skips(p, op.kind, op.accept, Pop(p, c).result.value)
    requires Path(p, Pop(p, c).conn, ops, later, e)
    ensures Path(p, c, ops, steps, e) && TallyOfPath(steps) == TallyOfPath(later)
  {
    var first := PopPath(p, c, ops, Dropped);
    steps := first + later;
    Join(TakesOf(p, ops), To(), c, first, Pop(p, c).conn, later, e);
    TalliesJoin(first, later);
    BothAssociates(TallyOfPath(later), NOTHING, NOTHING);
  }

  lemma {:induction false} WaitPath(p: Protocol, c: Conn, op: Op, n: nat, ops: seq<Op>) returns (steps: seq<Step>)
    requires op.Watch? && op in ops && n <= c.nextId
    ensures var r := WaitFor(p, c, op.kind, op.accept);
            Path(p, c, ops, steps, r.conn) && Told(p, op, n, r.result, TallyOfPath(steps))
    decreases |c.input|, |c.pending|
  {
    var r := Pop(p, c);
    if r.result.Ok? && Skips(p, op.kind, op.accept, r.result.value) {
      ReceiveCounts(p, c);
      var later := WaitPath(p, r.conn, op, n, ops);
      steps := DropFirst(p, c, op, ops, later, WaitFor(p, r.conn, op.kind, op.accept).conn);
    } else {
      steps := WaitEndPath(p, c, op, n, ops);
    }
  }

  /** Each operation consumes a prefix of the arrivals, with a fate for each item. */
  lemma PerformPath(p: Protocol, c: Conn, op: Op, ops: seq<Op>) returns (steps: seq<Step>)
    requires op in ops
    ensures var r := Perform(p, c, op);
            Path(p, c, ops, steps, r.conn) && Told(p, op, c.nextId, r.result, TallyOfPath(steps))
  {
    match op {
      case Ask(_, _, _) => steps := RequestPath(p, c, op, ops);
      case Watch(_, _) => steps := WaitPath(p, c, op, c.nextId, ops);
    }
  }

  // ---- any run -------------------------------------------------------------

  /** One tally for each operation of a run. */
  ghost predicate AllTold(p: Protocol, c: Conn, ops: seq<Op>, os: seq<Tally>)
    decreases |ops|
  {
    |os| == |ops| &&
    (ops != [] ==>
       var r := Perform(p, c, ops[0]);
       Told(p, ops[0], c.nextId, r.result, os[0]) && AllTold(p, r.conn, ops[1..], os[1..]))
  }

  function Total(os: seq<Tally>): Tally {
    if os == [] then NOTHING else Both(os[0], Total(os[1..]))
  }

  lemma {:induction false} RunPath(p: Protocol, c: Conn, ops: seq<Op>, all: seq<Op>)
    returns (steps: seq<Step>, os: seq<Tally>)
    requires forall op | op in ops :: op in all
    ensures Path(p, c, all, steps, Run(p, c, ops).conn) && AllTold(p, c, ops, os) && TallyOfPath(steps) == Total(os)
    decreases |ops|
  {
    if ops == [] {
      steps, os := [], [];
    } else {
      var d := Perform(p, c, ops[0]).conn;
      var first := PerformPath(p, c, ops[0], all);
      var later, rest := RunPath(p, d, ops[1..], all);
      steps, os := first + later, [TallyOfPath(first)] + rest;
      assert os[1..] == rest;
      PathConcat(p, c, all, first, d, later, Run(p, c, ops).conn);
    }
  }

  /** A run consumes `n` items of the stream, and each item of the queue or among those ends in
      exactly one place: returned by the one operation that stopped at it and could read it,
      raised by the one operation it made fail, dropped by a wait that skips it, answered as a
      heartbeat, or still queued. */
  ghost predicate Conserves(p: Protocol, c: Conn, ops: seq<Op>, n: nat) {
    exists os :: AllTold(p, c, ops, os) && Settled(p, c, Run(p, c, ops).conn, ops, Total(os), n)
  }

  /** Conservation: over any mix of requests and waits, going on after errors, every item
      consumed has its one place, the queue keeps the order of arrival, and the stream is left
      exactly after the last item consumed. */
  lemma MessagesAreConserved(p: Protocol, c: Conn, ops: seq<Op>) returns (n: nat)
    ensures Conserves(p, c, ops, n) && Leaves(p, c.input, n, Run(p, c, ops).conn.input)
  {
    var steps, os := RunPath(p, c, ops, ops);
    n := PathIsSettled(p, c, ops, steps, Run(p, c, ops).conn);
  }

  /** On a stream of legal frames: the frames consumed are a prefix of them, and those left are
      still on the wire, frame for frame, whatever failed in between. */
  lemma FramesAreConserved(p: Protocol, c: Conn, es: seq<Envelope>, ops: seq<Op>) returns (n: nat)
    requires IsCodec(p) && Legal(p, es) && Fits(p, es) && c.input == Wire(p, es)
    ensures Conserves(p, c, ops, n) && Arrivals(p, c) == Gots(c.pending + es)
    ensures n <= |es| && Fits(p, es[n..]) && Run(p, c, ops).conn.input == Wire(p, es[n..])
  {
    n := MessagesAreConserved(p, c, ops);
    LeftOnTheWire(p, es, n, Run(p, c, ops).conn.input);
    ArrivalsOnTheWire(p, c, es);
  }

  lemma ArrivalsOnTheWire(p: Protocol, c: Conn, es: seq<Envelope>)
    requires IsCodec(p) && Legal(p, es) && Fits(p, es) && c.input == Wire(p, es)
    ensures Arrivals(p, c) == Gots(c.pending + es)
  {
    WireItems(p, es);
    GotsOfConcat(c.pending, es);
  }

  lemma WireItems(p: Protocol, es: seq<Envelope>)
    requires IsCodec(p) && Legal(p, es) && Fits(p, es)
    ensures Items(p, Wire(p, es)) == Gots(es)
  {
    WireIsReadBack(p, es, 0);
  }

  lemma GotsOfConcat(a: seq<Envelope>, b: seq<Envelope>)
    ensures Gots(a + b) == Gots(a) + Gots(b)
  {
  }

  lemma LeftOnTheWire(p: Protocol, es: seq<Envelope>, n: nat, rest: seq<byte>)
    requires IsCodec(p) && Legal(p, es) && Fits(p, es) && Leaves(p, Wire(p, es), n, rest)
    ensures n <= |es| && Fits(p, es[n..]) && rest == Wire(p, es[n..])
  {
    WireIsReadBack(p, es, 0);
    WireIsReadBack(p, es, n);
    assert n == |es| ==> es[n..] == [];
  }

  /** A connection never queues anything but messages. */
  lemma RunsStayOrderly(p: Protocol, c: Conn, ops: seq<Op>)
    requires Orderly(p, c)
    ensures Orderly(p, Run(p, c, ops).conn)
  {
    var steps, _ := RunPath(p, c, ops, ops);
    var fates := PathSettles(p, c, ops, steps, Run(p, c, ops).conn);
    StaysOrderly(p, c, Run(p, c, ops).conn, ops, TallyOfPath(steps), fates);
  }
}
