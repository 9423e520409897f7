/** The account the market-data adapter joins together from the rows of five responses
    (feed.py). */
module Portfolio {
  import opened Contracts
  import opened Framing
  import Exchange
  import Transport
  import opened Feed
  import opened Correlation

  datatype PositionRow = PositionRow(positionId: int, symbolId: int, buy: bool, volume: int, price: real)
  datatype PnlRow = PnlRow(positionId: int, net: int)
  datatype Position = Position(
    positionId: int, symbol: string, side: Side, volume: real, entry: real, unrealized: real)
  datatype AccountView = AccountView(
    balance: real, equity: real, currency: string, asOf: Instant, positions: seq<Position>)

  function Pow10(n: nat): (r: real)
    ensures r >= 1.0
  {
    if n == 0 then 1.0 else 10.0 * Pow10(n - 1)
  }

  /** The dictionary of unrealized results, unscaled: a later row replaces an earlier one. */
  function Net(rows: seq<PnlRow>, id: int): int {
    if rows == [] then 0
    else if rows[|rows| - 1].positionId == id then rows[|rows| - 1].net
    else Net(rows[..|rows| - 1], id)
  }

  function SumOfPositions(open: seq<PositionRow>, rows: seq<PnlRow>): int {
    if open == [] then 0
    else SumOfPositions(open[..|open| - 1], rows) + Net(rows, open[|open| - 1].positionId)
  }

  /** `names` gives the symbol of a position. */
  function View(names: int -> string, row: PositionRow, unrealized: real): Position {
    Position(row.positionId, names(row.symbolId), if row.buy then Buy else Sell, row.volume as real / 100.0, row.price,
             unrealized)
  }

  /** The join: a dictionary of results by position, then one entry for each position. */
  method Positions(names: int -> string, open: seq<PositionRow>, rows: seq<PnlRow>, moneyDigits: nat)
    returns (out: seq<Position>, total: real)
    ensures |out| == |open|
    ensures forall i | 0 <= i < |open| ::
              out[i] == View(names, open[i], Net(rows, open[i].positionId) as real / Pow10(moneyDigits))
    ensures total == SumOfPositions(open, rows) as real / Pow10(moneyDigits)
  {
    var scale := Pow10(moneyDigits);
    var pnl: map<int, real> := map[];
    for i := 0 to |rows|
      invariant forall id :: (if id in pnl then pnl[id] else 0.0) == Net(rows[..i], id) as real / scale
    {
      assert rows[..i + 1][..i] == rows[..i];
      pnl := pnl[rows[i].positionId := rows[i].net as real / scale];
    }
    assert rows[..|rows|] == rows;
    out, total := [], 0.0;
    for i := 0 to |open|
      invariant |out| == i
      invariant forall k | 0 <= k < i :: out[k] == View(names, open[k], Net(rows, open[k].positionId) as real / scale)
      invariant total == SumOfPositions(open[..i], rows) as real / scale
    {
      assert open[..i + 1][..i] == open[..i];
      var id := open[i].positionId;
      var unrealized := if id in pnl then pnl[id] else 0.0;
      assert unrealized == Net(rows, id) as real / scale;
      out := out + [View(names, open[i], unrealized)];
      total := total + unrealized;
      SumsOfFractions(SumOfPositions(open[..i], rows), Net(rows, id), scale);
    }
    assert open[..|open|] == open;
  }

  lemma SumsOfFractions(x: int, y: int, scale: real)
    requires scale >= 1.0
    ensures x as real / scale + y as real / scale == (x + y) as real / scale
  {
    assert x as real + y as real == (x + y) as real;
  }

  predicate DistinctPositions(open: seq<PositionRow>) {
    forall i, j | 0 <= i < j < |open| :: open[i].positionId != open[j].positionId
  }

  predicate DistinctRows(rows: seq<PnlRow>) {
    forall i, j | 0 <= i < j < |rows| :: rows[i].positionId != rows[j].positionId
  }

  function OpenIds(open: seq<PositionRow>): set<int> {
    set i | 0 <= i < |open| :: open[i].positionId
  }

  /** The unrealized results of exactly the rows whose position is open. */
  function SumOfOpenRows(rows: seq<PnlRow>, ids: set<int>): int {
    if rows == [] then 0
    else SumOfOpenRows(rows[1..], ids) + if rows[0].positionId in ids then rows[0].net else 0
  }

  lemma {:induction false} NetOfTail(rows: seq<PnlRow>, id: int)
    requires rows != [] && DistinctRows(rows)
    ensures Net(rows, id) == if rows[0].positionId == id then rows[0].net else Net(rows[1..], id)
    decreases |rows|
  {
    var n := |rows| - 1;
    if n > 0 {
      assert rows[1..][..n - 1] == rows[..n][1..] && rows[1..][n - 1] == rows[n];
      if rows[n].positionId != id {
        NetOfTail(rows[..n], id);
      }
    }
  }

  lemma {:induction false} OneMoreOpenId(rows: seq<PnlRow>, ids: set<int>, id: int)
    requires DistinctRows(rows) && id !in ids
    ensures SumOfOpenRows(rows, ids + {id}) == SumOfOpenRows(rows, ids) + Net(rows, id)
  {
    if rows != [] {
      NetOfTail(rows, id);
      OneMoreOpenId(rows[1..], ids, id);
      if rows[0].positionId == id {
        AbsentRow(rows[1..], id);
      }
    }
  }

  lemma {:induction false} AbsentRow(rows: seq<PnlRow>, id: int)
    requires forall r | r in rows :: r.positionId != id
    ensures Net(rows, id) == 0
  {
    if rows != [] {
      AbsentRow(rows[..|rows| - 1], id);
    }
  }

  /** The join is exact: given distinct ids in each list, what equity has over balance is
      the sum of exactly the rows whose position is open; a missing row counts zero and a
      row without a position nothing. */
  lemma {:induction false} JoinIsExact(open: seq<PositionRow>, rows: seq<PnlRow>)
    requires DistinctPositions(open) && DistinctRows(rows)
    ensures SumOfPositions(open, rows) == SumOfOpenRows(rows, OpenIds(open))
  {
    if open == [] {
      NothingOpen(rows);
      assert OpenIds(open) == {};
    } else {
      var n := |open| - 1;
      JoinIsExact(open[..n], rows);
      var front, id := OpenIds(open[..n]), open[n].positionId;
      assert OpenIds(open) == front + {id} by {
        forall x | x in front + {id}
          ensures x in OpenIds(open)
        {
          if x in front {
            var i :| 0 <= i < n && open[..n][i].positionId == x;
            assert open[i].positionId == x;
          }
        }
        forall x | x in OpenIds(open)
          ensures x in front + {id}
        {
          var i :| 0 <= i < |open| && open[i].positionId == x;
          assert i < n ==> open[..n][i].positionId == x;
        }
      }
      assert id !in front;
      OneMoreOpenId(rows, front, id);
    }
  }

  lemma {:induction false} NothingOpen(rows: seq<PnlRow>)
    ensures SumOfOpenRows(rows, {}) == 0
  {
    if rows != [] {
      NothingOpen(rows[1..]);
    }
  }

  lemma {:induction false} SumWithout(rows: seq<PnlRow>, ids: set<int>, k: nat)
    requires k < |rows|
    ensures SumOfOpenRows(rows, ids)
         == SumOfOpenRows(rows[..k] + rows[k + 1..], ids) + if rows[k].positionId in ids then rows[k].net else 0
    decreases k
  {
    if k == 0 {
      assert rows[..0] + rows[1..] == rows[1..];
    } else {
      SumWithout(rows[1..], ids, k - 1);
      assert rows[1..][..k - 1] + rows[1..][k..] == (rows[..k] + rows[k + 1..])[1..];
    }
  }

  lemma {:induction false} RowOrderDoesNotMatter(rows: seq<PnlRow>, others: seq<PnlRow>, ids: set<int>)
    requires multiset(rows) == multiset(others)
    ensures SumOfOpenRows(rows, ids) == SumOfOpenRows(others, ids)
    decreases |rows|
  {
    if rows == [] {
      assert |multiset(others)| == 0;
    } else {
      assert rows[0] in multiset(others);
      var k :| 0 <= k < |others| && others[k] == rows[0];
      SumWithout(others, ids, k);
      SameRest(rows, others, k);
      RowOrderDoesNotMatter(rows[1..], others[..k] + others[k + 1..], ids);
    }
  }

  lemma SameRest(rows: seq<PnlRow>, others: seq<PnlRow>, k: nat)
    requires rows != [] && k < |others| && others[k] == rows[0] && multiset(rows) == multiset(others)
    ensures multiset(rows[1..]) == multiset(others[..k] + others[k + 1..])
  {
    assert others == others[..k] + [others[k]] + others[k + 1..];
    assert rows == [rows[0]] + rows[1..];
    assert multiset(rows[1..]) == multiset(rows) - multiset{rows[0]};
  }

  /** Neither list's order matters to the equity. */
  lemma JoinIgnoresOrder(open: seq<PositionRow>, rows: seq<PnlRow>, open2: seq<PositionRow>, rows2: seq<PnlRow>)
    requires DistinctPositions(open) && DistinctRows(rows) && DistinctPositions(open2) && DistinctRows(rows2)
    requires OpenIds(open) == OpenIds(open2) && multiset(rows) == multiset(rows2)
    ensures SumOfPositions(open, rows) == SumOfPositions(open2, rows2)
  {
    JoinIsExact(open, rows);
    JoinIsExact(open2, rows2);
    RowOrderDoesNotMatter(rows, rows2, OpenIds(open));
  }

  // ---- over the connection -------------------------------------------------

  datatype Trader = Trader(balance: int, moneyDigits: Option<nat>, depositAssetId: int)
  datatype Asset = Asset(id: int, name: string)
  datatype Owner = Owner(trader: Trader, assets: seq<Asset>, symbols: seq<SymbolRow>)
  datatype PnlSheet = PnlSheet(moneyDigits: nat, rows: seq<PnlRow>)

  /** A request: its type and payload, and the random part of its id. */
  datatype Ask = Ask(kind: nat, payload: seq<byte>, nonce: nat)

  /** The five requests, and what their responses carry. */
  datatype Books = Books(
    traderAsk: Ask, assetAsk: Ask, symbolAsk: Ask, positionAsk: Ask, pnlAsk: Ask,
    trader: seq<byte> -> Trader, assets: seq<byte> -> seq<Asset>, symbols: seq<byte> -> seq<SymbolRow>,
    positions: seq<byte> -> seq<PositionRow>, pnl: seq<byte> -> PnlSheet,
    upper: string -> string, spell: int -> string)

  function AskOf(p: Protocol, c: Exchange.Conn, a: Ask): Exchange.Reply {
    Exchange.Request(p, c, a.kind, a.payload, a.nonce)
  }

  /** The name of the first asset with that id. */
  function AssetName(assets: seq<Asset>, id: int): string {
    if assets == [] then "USD" else if assets[0].id == id then assets[0].name else AssetName(assets[1..], id)
  }

  function Currency(b: Books, assets: seq<Asset>, id: int): string {
    var name := AssetName(assets, id);
    b.upper(if |name| <= 3 then name else name[..3])
  }

  /** Put a row into the dictionary of symbols: a name already there keeps its place. */
  function Place(b: Books, kept: seq<SymbolRow>, row: SymbolRow): seq<SymbolRow> {
    if kept == [] then [row]
    else if b.upper(kept[0].name) == b.upper(row.name) then [row] + kept[1..]
    else [kept[0]] + Place(b, kept[1..], row)
  }

  /** The rows with a name as the values of a dictionary by upper-case name, in its order. */
  function Keyed(b: Books, rows: seq<SymbolRow>): seq<SymbolRow> {
    if rows == [] then []
    else
      var kept, last := Keyed(b, rows[..|rows| - 1]), rows[|rows| - 1];
      if last.name == "" then kept else Place(b, kept, last)
  }

  /** The last of them with that id names it, else the number does. */
  function NameOf(b: Books, kept: seq<SymbolRow>, id: int): string {
    if kept == [] then b.spell(id)
    else if kept[|kept| - 1].symbolId == id then kept[|kept| - 1].name
    else NameOf(b, kept[..|kept| - 1], id)
  }

  function Names(b: Books, rows: seq<SymbolRow>): int -> string {
    var kept := Keyed(b, rows);
    id => NameOf(b, kept, id)
  }

  datatype Rows = Rows(open: seq<PositionRow>, sheet: PnlSheet)
  datatype Response<T> = Response(result: Result<T>, conn: Exchange.Conn)

  /** The requests of `_positions`. */
  function RowsOf(p: Protocol, b: Books, c: Exchange.Conn): Response<Rows> {
    var open := AskOf(p, c, b.positionAsk);
    if open.result.Err? then Response(Err(open.result.failure), open.conn)
    else
      var pnl := AskOf(p, open.conn, b.pnlAsk);
      if pnl.result.Err? then Response(Err(pnl.result.failure), pnl.conn)
      else Response(Ok(Rows(b.positions(open.result.value.payload), b.pnl(pnl.result.value.payload))), pnl.conn)
  }

  function Views(names: int -> string, rows: Rows): seq<Position> {
    var Rows(open, sheet) := rows;
    seq(|open|, i requires 0 <= i < |open| =>
          View(names, open[i], Net(sheet.rows, open[i].positionId) as real / Pow10(sheet.moneyDigits)))
  }

  function Balance(t: Trader): real {
    t.balance as real / Pow10(if t.moneyDigits.Some? then t.moneyDigits.value else 2)
  }

  /** What the rows are worth on top of the balance. */
  function Unrealized(rows: Rows): real {
    SumOfPositions(rows.open, rows.sheet.rows) as real / Pow10(rows.sheet.moneyDigits)
  }

  function Snapshot(b: Books, owner: Owner, now: Instant, positions: seq<Position>, unrealized: real): AccountView {
    var balance := Balance(owner.trader);
    AccountView(balance, balance + unrealized, Currency(b, owner.assets, owner.trader.depositAssetId), now, positions)
  }

  function Summary(b: Books, owner: Owner, now: Instant, rows: Rows): AccountView {
    Snapshot(b, owner, now, Views(Names(b, owner.symbols), rows), Unrealized(rows))
  }

  /** The first three requests of `account`. */
  function OwnerOf(p: Protocol, b: Books, c: Exchange.Conn): Response<Owner> {
    var trader := AskOf(p, c, b.traderAsk);
    if trader.result.Err? then Response(Err(trader.result.failure), trader.conn)
    else
      var assets := AskOf(p, trader.conn, b.assetAsk);
      if assets.result.Err? then Response(Err(assets.result.failure), assets.conn)
      else
        var symbols := AskOf(p, assets.conn, b.symbolAsk);
        if symbols.result.Err? then Response(Err(symbols.result.failure), symbols.conn)
        else
          var owner := Owner(b.trader(trader.result.value.payload), b.assets(assets.result.value.payload),
                             b.symbols(symbols.result.value.payload));
          Response(Ok(owner), symbols.conn)
  }

  /** The account, from what the two groups of requests gave. */
  function AccountFrom(b: Books, now: Instant, owner: Response<Owner>, rows: Response<Rows>): Response<AccountView> {
    if owner.result.Err? then Response(Err(owner.result.failure), owner.conn)
    else if rows.result.Err? then Response(Err(rows.result.failure), rows.conn)
    else Response(Ok(Summary(b, owner.result.value, now, rows.result.value)), rows.conn)
  }

  /** The requests of `account`, in order, until one raises. */
  function AccountOf(p: Protocol, b: Books, c: Exchange.Conn, now: Instant): Response<AccountView> {
    var owner := OwnerOf(p, b, c);
    AccountFrom(b, now, owner, RowsOf(p, b, owner.conn))
  }

  lemma AccountIs(p: Protocol, b: Books, c: Exchange.Conn, now: Instant, owner: Response<Owner>, rows: Response<Rows>)
    requires owner == OwnerOf(p, b, c) && (owner.result.Ok? ==> rows == RowsOf(p, b, owner.conn))
    ensures AccountOf(p, b, c, now) == AccountFrom(b, now, owner, rows)
  {
  }

  method AskFor(api: Transport.ReadOnlyOpenApi, a: Ask) returns (r: Result<seq<byte>>)
    requires api.Valid()
    modifies api, api.socket
    ensures api.Valid() && api.State() == AskOf(api.protocol, old(api.State()), a).conn
    ensures var reply := AskOf(api.protocol, old(api.State()), a).result;
            r == match reply case Ok(e) => Ok(e.payload) case Err(f) => Err(f)
  {
    var reply := api.Request(a.kind, a.payload, a.nonce);
    return if reply.Err? then Err(reply.failure) else Ok(reply.value.payload);
  }

  method OpenPositions(api: Transport.ReadOnlyOpenApi, b: Books, names: int -> string)
    returns (r: Result<Rows>, out: seq<Position>, total: real)
    requires api.Valid()
    modifies api, api.socket
    ensures api.Valid() && Response(r, api.State()) == RowsOf(api.protocol, b, old(api.State()))
    ensures r.Ok? ==> out == Views(names, r.value) && total == Unrealized(r.value)
  {
    out, total := [], 0.0;
    var open := AskFor(api, b.positionAsk);
    if open.Err? {
      return Err(open.failure), out, total;
    }
    var pnl := AskFor(api, b.pnlAsk);
    if pnl.Err? {
      return Err(pnl.failure), out, total;
    }
    var rows := Rows(b.positions(open.value), b.pnl(pnl.value));
    out, total := Positions(names, rows.open, rows.sheet.rows, rows.sheet.moneyDigits);
    r := Ok(rows);
  }

  method AskOwner(api: Transport.ReadOnlyOpenApi, b: Books) returns (r: Result<Owner>)
    requires api.Valid()
    modifies api, api.socket
    ensures api.Valid() && Response(r, api.State()) == OwnerOf(api.protocol, b, old(api.State()))
  {
    var trader := AskFor(api, b.traderAsk);
    if trader.Err? {
      return Err(trader.failure);
    }
    var assets := AskFor(api, b.assetAsk);
    if assets.Err? {
      return Err(assets.failure);
    }
    var symbols := AskFor(api, b.symbolAsk);
    if symbols.Err? {
      return Err(symbols.failure);
    }
    return Ok(Owner(b.trader(trader.value), b.assets(assets.value), b.symbols(symbols.value)));
  }

  method Account(api: Transport.ReadOnlyOpenApi, b: Books, now: Instant) returns (r: Result<AccountView>)
    requires api.Valid()
    modifies api, api.socket
    ensures api.Valid() && Response(r, api.State()) == AccountOf(api.protocol, b, old(api.State()), now)
  {
    ghost var start := api.State();
    var owner := AskOwner(api, b);
    ghost var asked := Response(owner, api.State());
    if owner.Err? {
      AccountIs(api.protocol, b, start, now, asked, Response(Err(Closed), start));
      return Err(owner.failure);
    }
    var rows, positions, unrealized := OpenPositions(api, b, Names(b, owner.value.symbols));
    AccountIs(api.protocol, b, start, now, asked, Response(rows, api.State()));
    if rows.Err? {
      return Err(rows.failure);
    }
    r := Ok(Snapshot(b, owner.value, now, positions, unrealized));
  }

  /** Whatever the connection delivers, an account has equity over its balance of exactly the
      scaled sum of the result rows whose position is open, given distinct ids in each list. */
  lemma EquityIsTheOpenRows(p: Protocol, b: Books, c: Exchange.Conn, now: Instant)
    requires AccountOf(p, b, c, now).result.Ok?
    ensures RowsOf(p, b, OwnerOf(p, b, c).conn).result.Ok?
    ensures var a := AccountOf(p, b, c, now).result.value;
            var Rows(open, sheet) := RowsOf(p, b, OwnerOf(p, b, c).conn).result.value;
            DistinctPositions(open) && DistinctRows(sheet.rows) ==>
              a.equity - a.balance == SumOfOpenRows(sheet.rows, OpenIds(open)) as real / Pow10(sheet.moneyDigits)
  {
    var Rows(open, sheet) := RowsOf(p, b, OwnerOf(p, b, c).conn).result.value;
    if DistinctPositions(open) && DistinctRows(sheet.rows) {
      JoinIsExact(open, sheet.rows);
    }
  }

  // ---- names ---------------------------------------------------------------

  /** Row `i` is the last of those kept with that id. */
  predicate IsLastKept(kept: seq<SymbolRow>, id: int, i: nat) {
    i < |kept| && kept[i].symbolId == id && forall j | i < j < |kept| :: kept[j].symbolId != id
  }

  /** A position is called by the last row kept of its id, or by its number when none of the rows
      kept has that id. */
  lemma {:induction false} NamesAreFound(b: Books, kept: seq<SymbolRow>, id: int)
    ensures (forall row | row in kept :: row.symbolId != id) ==> NameOf(b, kept, id) == b.spell(id)
    ensures (exists row :: row in kept && row.symbolId == id) ==>
              exists i: nat :: IsLastKept(kept, id, i) && kept[i].name == NameOf(b, kept, id)
  {
    if kept != [] {
      var n := |kept| - 1;
      NamesAreFound(b, kept[..n], id);
      assert kept == kept[..n] + [kept[n]];
      if kept[n].symbolId == id {
        assert IsLastKept(kept, id, n);
      } else if i: nat :| IsLastKept(kept[..n], id, i) && kept[..n][i].name == NameOf(b, kept[..n], id) {
        assert forall j | i < j < n :: kept[j] == kept[..n][j];
        assert IsLastKept(kept, id, i);
      }
    }
  }

  predicate NamesDiffer(b: Books, kept: seq<SymbolRow>) {
    forall i, j | 0 <= i < j < |kept| :: b.upper(kept[i].name) != b.upper(kept[j].name)
  }

  lemma {:induction false} PlacedRows(b: Books, kept: seq<SymbolRow>, last: SymbolRow, row: SymbolRow)
    requires NamesDiffer(b, kept)
    ensures row in Place(b, kept, last) <==>
              row == last || (row in kept && b.upper(row.name) != b.upper(last.name))
  {
    if kept != [] {
      assert kept == [kept[0]] + kept[1..];
      if b.upper(kept[0].name) == b.upper(last.name) {
        assert row in kept[1..] ==> b.upper(row.name) != b.upper(last.name);
      } else {
        PlacedRows(b, kept[1..], last, row);
      }
    }
  }

  lemma {:induction false} PlaceKeepsApart(b: Books, kept: seq<SymbolRow>, last: SymbolRow)
    requires NamesDiffer(b, kept)
    ensures NamesDiffer(b, Place(b, kept, last))
  {
    if kept != [] && b.upper(kept[0].name) != b.upper(last.name) {
      PlaceKeepsApart(b, kept[1..], last);
      var rest := Place(b, kept[1..], last);
      forall j | 0 <= j < |rest|
        ensures b.upper(kept[0].name) != b.upper(rest[j].name)
      {
        PlacedRows(b, kept[1..], last, rest[j]);
        assert rest[j] in rest;
      }
    }
  }

  lemma {:induction false} KeptNamesDiffer(b: Books, rows: seq<SymbolRow>)
    ensures NamesDiffer(b, Keyed(b, rows))
  {
    if rows != [] {
      var n := |rows| - 1;
      KeptNamesDiffer(b, rows[..n]);
      PlaceKeepsApart(b, Keyed(b, rows[..n]), rows[n]);
    }
  }

  /** Row `i` has a name, and no later row has that name in upper case. */
  predicate IsLastOf(b: Books, rows: seq<SymbolRow>, row: SymbolRow, i: nat) {
    && i < |rows| && rows[i] == row && row.name != ""
    && forall j | i < j < |rows| :: rows[j].name == "" || b.upper(rows[j].name) != b.upper(row.name)
  }

  lemma LastOfLonger(b: Books, front: seq<SymbolRow>, last: SymbolRow, row: SymbolRow)
    ensures (exists i: nat :: IsLastOf(b, front + [last], row, i)) <==>
            || (row == last && last.name != "")
            || ((last.name == "" || b.upper(last.name) != b.upper(row.name))
                && exists i: nat :: IsLastOf(b, front, row, i))
  {
    var rows, n := front + [last], |front|;
    if row == last && last.name != "" {
      assert IsLastOf(b, rows, row, n);
    }
    if i: nat :| IsLastOf(b, front, row, i) {
      assert rows[i] == front[i];
      if last.name == "" || b.upper(last.name) != b.upper(row.name) {
        assert IsLastOf(b, rows, row, i);
      }
    }
    if i: nat :| IsLastOf(b, rows, row, i) {
      if i < n {
        assert rows[n] == last && forall j | i < j < n :: rows[j] == front[j];
        assert IsLastOf(b, front, row, i);
      }
    }
  }

  /** Exactly the last row of each upper-case name is kept. */
  lemma {:induction false} LastRowIsKept(b: Books, rows: seq<SymbolRow>, row: SymbolRow)
    ensures row in Keyed(b, rows) <==> exists i: nat :: IsLastOf(b, rows, row, i)
  {
    if rows != [] {
      var front, last := rows[..|rows| - 1], rows[|rows| - 1];
      assert rows == front + [last];
      LastRowIsKept(b, front, row);
      KeptNamesDiffer(b, front);
      PlacedRows(b, Keyed(b, front), last, row);
      LastOfLonger(b, front, last, row);
    }
  }

  // ---- order of the dictionary ---------------------------------------------

  function Key(b: Books, row: SymbolRow): string {
    b.upper(row.name)
  }

  function Keys(b: Books, kept: seq<SymbolRow>): seq<string> {
    seq(|kept|, i requires 0 <= i < |kept| => Key(b, kept[i]))
  }

  /** The place of the first row with a name that has that key; the length when there is none. */
  function FirstOf(b: Books, rows: seq<SymbolRow>, key: string): (k: nat)
    ensures k <= |rows| && forall i | 0 <= i < k :: rows[i].name == "" || Key(b, rows[i]) != key
    ensures k < |rows| ==> rows[k].name != "" && Key(b, rows[k]) == key
  {
    if rows == [] then 0
    else if rows[0].name != "" && Key(b, rows[0]) == key then 0
    else 1 + FirstOf(b, rows[1..], key)
  }

  lemma FirstOfLonger(b: Books, front: seq<SymbolRow>, last: SymbolRow, key: string)
    ensures FirstOf(b, front, key) < |front| ==> FirstOf(b, front + [last], key) == FirstOf(b, front, key)
    ensures FirstOf(b, front, key) == |front| ==>
              FirstOf(b, front + [last], key)
              == if last.name != "" && Key(b, last) == key then |front| else |front| + 1
  {
    var rows := front + [last];
    var k, f := FirstOf(b, rows, key), FirstOf(b, front, key);
    assert forall i | 0 <= i < |front| :: rows[i] == front[i];
    assert rows[|front|] == last;
    assert f < |front| ==> rows[f] == front[f];
    assert k < |front| ==> rows[k] == front[k];
  }

  lemma KeysOfConcat(b: Books, front: seq<SymbolRow>, rest: seq<SymbolRow>)
    ensures Keys(b, front + rest) == Keys(b, front) + Keys(b, rest)
  {
  }

  lemma {:induction false} KeysAfterPlace(b: Books, kept: seq<SymbolRow>, row: SymbolRow)
    ensures Keys(b, Place(b, kept, row))
         == if Key(b, row) in Keys(b, kept) then Keys(b, kept) else Keys(b, kept) + [Key(b, row)]
  {
    if kept == [] {
      assert Keys(b, [row]) == [Key(b, row)];
    } else {
      var first, rest := kept[0], kept[1..];
      assert kept == [first] + rest;
      KeysOfConcat(b, [first], rest);
      assert Keys(b, [first]) == [Key(b, first)];
      if Key(b, first) == Key(b, row) {
        KeysOfConcat(b, [row], rest);
        assert Keys(b, [row]) == [Key(b, row)];
      } else {
        KeysAfterPlace(b, rest, row);
        KeysOfConcat(b, [first], Place(b, rest, row));
      }
    }
  }

  /** The keys of the rows, in the order in which they first come. */
  ghost predicate InOrder(b: Books, rows: seq<SymbolRow>, keys: seq<string>) {
    && (forall key :: key in keys <==> FirstOf(b, rows, key) < |rows|)
    && (forall i, j | 0 <= i < j < |keys| :: FirstOf(b, rows, keys[i]) < FirstOf(b, rows, keys[j]))
  }

  lemma {:induction false} KeysComeInOrder(b: Books, rows: seq<SymbolRow>)
    ensures InOrder(b, rows, Keys(b, Keyed(b, rows)))
  {
    if rows != [] {
      var front, last := rows[..|rows| - 1], rows[|rows| - 1];
      assert rows == front + [last];
      KeysComeInOrder(b, front);
      KeysAfterPlace(b, Keyed(b, front), last);
      OneMoreInOrder(b, front, last, Keys(b, Keyed(b, front)));
    }
  }

  lemma OneMoreInOrder(b: Books, front: seq<SymbolRow>, last: SymbolRow, keys: seq<string>)
    requires InOrder(b, front, keys)
    ensures InOrder(b, front + [last],
                    if last.name == "" || Key(b, last) in keys then keys else keys + [Key(b, last)])
  {
    forall key
      ensures var k, f := FirstOf(b, front + [last], key), FirstOf(b, front, key);
              && (f < |front| ==> k == f)
              && (f == |front| ==> k == if last.name != "" && Key(b, last) == key then |front| else |front| + 1)
    {
      FirstOfLonger(b, front, last, key);
    }
    assert forall i | 0 <= i < |keys| :: keys[i] in keys;
  }

  // ---- in terms of the rows ------------------------------------------------

  /** Row `i` is the last result for that position. */
  predicate IsLastResult(rows: seq<PnlRow>, id: int, i: nat) {
    i < |rows| && rows[i].positionId == id && forall j | i < j < |rows| :: rows[j].positionId != id
  }

  lemma {:induction false} NetIsTheLastResult(rows: seq<PnlRow>, id: int)
    ensures (forall r | r in rows :: r.positionId != id) ==> Net(rows, id) == 0
    ensures forall i: nat | IsLastResult(rows, id, i) :: Net(rows, id) == rows[i].net
  {
    if rows != [] {
      var n := |rows| - 1;
      NetIsTheLastResult(rows[..n], id);
      forall i: nat | IsLastResult(rows, id, i)
        ensures Net(rows, id) == rows[i].net
      {
        assert i < n ==> IsLastResult(rows[..n], id, i) && rows[..n][i] == rows[i];
      }
    }
  }

  lemma {:induction false} PowersMultiply(m: nat, n: nat)
    ensures Pow10(m + n) == Pow10(m) * Pow10(n) && Pow10(1) == 10.0
  {
    if m > 0 {
      PowersMultiply(m - 1, n);
    }
  }

  lemma Divided(x: real, y: real)
    requires y >= 1.0
    ensures x / y * y == x
  {
  }

  /** A position says what its row says: side, volume in hundredths, price, its last result, and
      the name of its symbol or the number. */
  predicate Shows(b: Books, symbols: seq<SymbolRow>, sheet: PnlSheet, x: Position, row: PositionRow) {
    && x.positionId == row.positionId && (x.side == Buy <==> row.buy)
    && x.volume * 100.0 == row.volume as real && x.entry == row.price
    && x.unrealized * Pow10(sheet.moneyDigits) == Net(sheet.rows, row.positionId) as real
    && x.symbol == NameOf(b, Keyed(b, symbols), row.symbolId)
  }

  lemma ViewShows(b: Books, symbols: seq<SymbolRow>, sheet: PnlSheet, row: PositionRow)
    ensures var unrealized := Net(sheet.rows, row.positionId) as real / Pow10(sheet.moneyDigits);
            Shows(b, symbols, sheet, View(Names(b, symbols), row, unrealized), row)
  {
    Divided(Net(sheet.rows, row.positionId) as real, Pow10(sheet.moneyDigits));
  }

  lemma AccountIsSummed(p: Protocol, b: Books, c: Exchange.Conn, now: Instant)
    requires AccountOf(p, b, c, now).result.Ok?
    ensures OwnerOf(p, b, c).result.Ok? && RowsOf(p, b, OwnerOf(p, b, c).conn).result.Ok?
    ensures AccountOf(p, b, c, now).result.value
         == Summary(b, OwnerOf(p, b, c).result.value, now, RowsOf(p, b, OwnerOf(p, b, c).conn).result.value)
  {
  }

  /** An account has one position for each open one, in order. */
  lemma PositionsAreTheRows(p: Protocol, b: Books, c: Exchange.Conn, now: Instant)
    requires AccountOf(p, b, c, now).result.Ok?
    ensures OwnerOf(p, b, c).result.Ok? && RowsOf(p, b, OwnerOf(p, b, c).conn).result.Ok?
    ensures var xs, Rows(open, sheet) := AccountOf(p, b, c, now).result.value.positions,
                                         RowsOf(p, b, OwnerOf(p, b, c).conn).result.value;
            && |xs| == |open|
            && forall i | 0 <= i < |open| :: Shows(b, OwnerOf(p, b, c).result.value.symbols, sheet, xs[i], open[i])
  {
    AccountIsSummed(p, b, c, now);
    SummaryShows(b, OwnerOf(p, b, c).result.value, now, RowsOf(p, b, OwnerOf(p, b, c).conn).result.value);
  }

  lemma SummaryShows(b: Books, owner: Owner, now: Instant, rows: Rows)
    ensures var xs := Summary(b, owner, now, rows).positions;
            && |xs| == |rows.open|
            && forall i | 0 <= i < |rows.open| :: Shows(b, owner.symbols, rows.sheet, xs[i], rows.open[i])
  {
    forall i | 0 <= i < |rows.open|
      ensures Shows(b, owner.symbols, rows.sheet, Summary(b, owner, now, rows).positions[i], rows.open[i])
    {
      ViewShows(b, owner.symbols, rows.sheet, rows.open[i]);
    }
  }

  /** The asset `i` is the first with that id. */
  predicate IsFirstAsset(assets: seq<Asset>, id: int, i: nat) {
    i < |assets| && assets[i].id == id && forall j | 0 <= j < i :: assets[j].id != id
  }

  lemma {:induction false} AssetIsTheFirst(assets: seq<Asset>, id: int)
    ensures (forall a | a in assets :: a.id != id) ==> AssetName(assets, id) == "USD"
    ensures forall i: nat | IsFirstAsset(assets, id, i) :: AssetName(assets, id) == assets[i].name
  {
    if assets != [] {
      AssetIsTheFirst(assets[1..], id);
      forall i: nat | IsFirstAsset(assets, id, i)
        ensures AssetName(assets, id) == assets[i].name
      {
        if i > 0 {
          assert assets[0].id != id;
          assert forall j | 0 <= j < i - 1 :: assets[1..][j] == assets[j + 1];
          assert IsFirstAsset(assets[1..], id, i - 1);
        }
      }
    }
  }

  /** The balance scaled by the trader's digits, or by two. */
  predicate IsBalance(x: real, t: Trader) {
    && (t.moneyDigits.None? ==> x * 100.0 == t.balance as real)
    && (t.moneyDigits.Some? ==> x * Pow10(t.moneyDigits.value) == t.balance as real)
  }

  lemma BalanceIs(t: Trader)
    ensures IsBalance(Balance(t), t)
  {
    PowersMultiply(1, 1);
    Divided(t.balance as real, Pow10(if t.moneyDigits.Some? then t.moneyDigits.value else 2));
  }

  /** At most three letters of `name`, in upper case. */
  ghost predicate IsCode(b: Books, code: string, name: string) {
    exists short :: code == b.upper(short) && short <= name && |short| == if |name| < 3 then |name| else 3
  }

  /** The currency of the first asset with that id, or of dollars when there is none. */
  ghost predicate IsCurrency(b: Books, code: string, assets: seq<Asset>, id: int) {
    && ((forall x | x in assets :: x.id != id) ==> IsCode(b, code, "USD"))
    && (forall i: nat | IsFirstAsset(assets, id, i) :: IsCode(b, code, assets[i].name))
  }

  lemma CurrencyIs(b: Books, assets: seq<Asset>, id: int)
    ensures IsCurrency(b, Currency(b, assets, id), assets, id)
  {
    AssetIsTheFirst(assets, id);
    var name := AssetName(assets, id);
    var short := if |name| <= 3 then name else name[..3];
    assert short <= name && Currency(b, assets, id) == b.upper(short);
    assert IsCode(b, Currency(b, assets, id), name);
  }

  /** Balance, currency and time of an account are those of the trader, the assets and the clock. */
  lemma BalanceIsTheTraders(p: Protocol, b: Books, c: Exchange.Conn, now: Instant)
    requires AccountOf(p, b, c, now).result.Ok?
    ensures OwnerOf(p, b, c).result.Ok?
    ensures var a, Owner(t, assets, _) := AccountOf(p, b, c, now).result.value, OwnerOf(p, b, c).result.value;
            a.asOf == now && IsBalance(a.balance, t) && IsCurrency(b, a.currency, assets, t.depositAssetId)
  {
    AccountIsSummed(p, b, c, now);
    var owner := OwnerOf(p, b, c).result.value;
    BalanceIs(owner.trader);
    CurrencyIs(b, owner.assets, owner.trader.depositAssetId);
  }

  /** An account that is returned has been asked for in five requests, in this order, and in no
      others. */
  lemma AccountIsAskedFor(p: Protocol, b: Books, c: Exchange.Conn, now: Instant)
    requires AccountOf(p, b, c, now).result.Ok?
    ensures Asked(AccountOf(p, b, c, now).conn.sent)
         == Asked(c.sent) + [Content(b.traderAsk), Content(b.assetAsk), Content(b.symbolAsk),
                             Content(b.positionAsk), Content(b.pnlAsk)]
  {
    AccountIsSummed(p, b, c, now);
    OwnerIsAskedFor(p, b, c);
    RowsAreAskedFor(p, b, OwnerOf(p, b, c).conn);
  }

  lemma OwnerIsAskedFor(p: Protocol, b: Books, c: Exchange.Conn)
    requires OwnerOf(p, b, c).result.Ok?
    ensures Asked(OwnerOf(p, b, c).conn.sent)
         == Asked(c.sent) + [Content(b.traderAsk), Content(b.assetAsk), Content(b.symbolAsk)]
  {
    var trader := AskOf(p, c, b.traderAsk);
    var assets := AskOf(p, trader.conn, b.assetAsk);
    AskedOnce(p, c, b.traderAsk);
    AskedOnce(p, trader.conn, b.assetAsk);
    AskedOnce(p, assets.conn, b.symbolAsk);
  }

  lemma RowsAreAskedFor(p: Protocol, b: Books, c: Exchange.Conn)
    requires RowsOf(p, b, c).result.Ok?
    ensures Asked(RowsOf(p, b, c).conn.sent) == Asked(c.sent) + [Content(b.positionAsk), Content(b.pnlAsk)]
  {
    var open := AskOf(p, c, b.positionAsk);
    AskedOnce(p, c, b.positionAsk);
    AskedOnce(p, open.conn, b.pnlAsk);
  }

  function Content(a: Ask): (nat, seq<byte>) {
    (a.kind, a.payload)
  }

  lemma AskedOnce(p: Protocol, c: Exchange.Conn, a: Ask)
    requires AskOf(p, c, a).result.Ok?
    ensures Asked(AskOf(p, c, a).conn.sent) == Asked(c.sent) + [Content(a)]
  {
    AnsweredIsSent(p, c, a.kind, a.payload, a.nonce);
  }
}
