/**
 Paper positions, fills and settlement (execution/service.py, bankroll.py, settlements.py).

 `Attempt` is the money side of `execute_signal` on values: every gate from the closed-market check
 on, in the program's order, then the fill.  `PaperBot` is the program, updating rows and account
 in place.  The signal has already passed the approval, delay and age gates (module CopyBoundary).
 */
module PaperBook {
  import opened Wrappers
  import opened Pnl
  import B = Bankroll
  import W = BookWalk

  datatype Key = Key(wallet: int, market: int, outcome: string)

  /** One position row; `settledPnl` is set once, when the market resolves. */
  datatype Position = Position(key: Key, qty: real, avg: real, realized: real, settledPnl: Option<real>)

  datatype Fill = Fill(wallet: int, market: int, leg: Leg) {
    function PositionKey(): Key {
      Key(wallet, market, leg.outcome)
    }
  }

  datatype Settings = Settings(sizeUsd: real, maxPerMarket: real, maxGlobal: real, maxCopyPrice: real)

  /** A pending signal: whose, on which outcome, which side, and whether a token identity is known. */
  datatype Signal = Signal(key: Key, side: Side, tokenKnown: bool)

  datatype Quote = Quote(bids: seq<W.BookLevel>, asks: seq<W.BookLevel>)

  datatype Miss =
    | MarketClosed | NoToken | NoPositionToSell | ExposureCap | StopLoss | BankrollInsufficient
    | NoBookDepth | PriceZone

  /** What became of a signal: a recorded miss, a fill, or an exception that rolls everything back. */
  datatype Attempted = Skipped(reason: Miss) | Executed(fill: Fill) | Raised

  datatype Book = Book(
    funds: B.Funds, rows: seq<Position>, fills: seq<Fill>,
    markets: map<int, bool>, settlements: map<int, string>)

  // ---------- sums over the position rows ----------

  function Value(qty: real, price: real): real { qty * price }

  function Basis(p: Position): real { Value(p.qty, p.avg) }

  datatype Column =
    | Exposure | OpenCost | Realized
    | ExposureIn(market: int) | RealizedIn(wallet: int, market: int)

  function Cell(c: Column, p: Position): real {
    match c
    case Exposure => Basis(p)
    case OpenCost => if p.qty > 0.0 && p.settledPnl.None? then Basis(p) else 0.0
    case Realized => p.realized
    case ExposureIn(m) => if p.key.market == m then Basis(p) else 0.0
    case RealizedIn(w, m) => if p.key.wallet == w && p.key.market == m then p.realized else 0.0
  }

  function Sum(c: Column, rows: seq<Position>): real {
    if rows == [] then 0.0 else Sum(c, rows[..|rows| - 1]) + Cell(c, rows[|rows| - 1])
  }

  lemma {:induction false} SumUpdate(c: Column, rows: seq<Position>, i: nat, p: Position)
    requires i < |rows|
    ensures Sum(c, rows[i := p]) == Sum(c, rows) - Cell(c, rows[i]) + Cell(c, p)
  {
    hide Cell;
    var k := |rows| - 1;
    if i == k {
      assert rows[i := p][..k] == rows[..k];
    } else {
      assert rows[i := p][..k] == rows[..k][i := p];
      SumUpdate(c, rows[..k], i, p);
    }
  }

  lemma SumAppend(c: Column, rows: seq<Position>, p: Position)
    ensures Sum(c, rows + [p]) == Sum(c, rows) + Cell(c, p)
  {
    assert (rows + [p])[..|rows|] == rows;
  }

  /** Index of the row with this key, or the number of rows. */
  function Find(rows: seq<Position>, key: Key): (i: nat)
    ensures i <= |rows| && (i < |rows| ==> rows[i].key == key)
    ensures i == |rows| <==> forall p :: p in rows ==> p.key != key
  {
    if rows == [] then 0
    else if rows[0].key == key then 0
    else 1 + Find(rows[1..], key)
  }

  function FreshRow(key: Key): Position {
    Position(key, 0.0, 0.0, 0.0, None)
  }

  /** The rows with a row for `key`, created empty if there was none. */
  function WithRow(rows: seq<Position>, key: Key): (r: seq<Position>)
    ensures Find(rows, key) < |r| && r[Find(rows, key)].key == key
  {
    if Find(rows, key) < |rows| then rows else rows + [FreshRow(key)]
  }

  function Owned(rows: seq<Position>, key: Key): real {
    if Find(rows, key) < |rows| then rows[Find(rows, key)].qty else 0.0
  }

  // ---------- position arithmetic ----------

  /** BUY: the fee goes into the cost basis. */
  function Bought(p: Position, size: real, price: real, fee: real): Position {
    var qty := p.qty + size;
    p.(avg := if qty > 0.0 then (Value(p.qty, p.avg) + Value(size, price) + fee) / qty else 0.0, qty := qty)
  }

  function SellDelta(p: Position, size: real, price: real, fee: real): real {
    Value(B.Min(p.qty, size), price - p.avg) - fee
  }

  /** SELL: the fee comes out of realized profit. */
  function Sold(p: Position, size: real, price: real, fee: real): Position {
    p.(realized := p.realized + SellDelta(p, size, price, fee), qty := p.qty - B.Min(p.qty, size))
  }

  function SettleDelta(p: Position, winner: string): real {
    Value(p.qty, (if p.key.outcome == winner then 1.0 else 0.0) - p.avg)
  }

  function SettledRow(p: Position, winner: string): Position {
    p.(settledPnl := Some(SettleDelta(p, winner)), realized := p.realized + SettleDelta(p, winner), qty := 0.0)
  }

  /** A position is settled when its market has a settlement, once, while shares are held. */
  predicate Due(p: Position, settlements: map<int, string>) {
    p.qty > 0.0 && p.settledPnl.None? && p.key.market in settlements
  }

  // ---------- one signal ----------

  function SideName(side: Side): string { if side.Buy? then "BUY" else "SELL" }

  function Walked(side: Side, q: Quote): (ls: seq<W.Level>)
    ensures W.Walkable(ls)
  {
    var ls := W.WalkedSide(SideName(side), q.bids, q.asks);
    W.UsableLevelsWalkable(if SideName(side) == "BUY" then q.asks else q.bids);
    W.SortedIsBestFirst(ls, SideName(side) == "SELL");
    W.Sorted(ls, SideName(side) == "SELL")
  }

  /** The gates before the order book is requested. */
  function EarlyMiss(b: Book, sig: Signal, s: Settings): Option<Miss> {
    if sig.key.market !in b.markets || b.markets[sig.key.market] then Some(MarketClosed)
    else if !sig.tokenKnown then Some(NoToken)
    else if sig.side.Sell? then
      if Owned(b.rows, sig.key) <= 0.0 then Some(NoPositionToSell) else None
    else if Sum(Exposure, b.rows) + s.sizeUsd > s.maxGlobal
         || Sum(ExposureIn(sig.key.market), b.rows) + s.sizeUsd > s.maxPerMarket then Some(ExposureCap)
    else if b.funds.account.StopLossHit() then Some(StopLoss)
    else if b.funds.account.Balance() - Sum(Exposure, b.rows) <= 0.0 then Some(BankrollInsufficient)
    else None
  }

  /** The gates on the walked fill; `cost` is its notional plus fee. */
  function LateMiss(b: Book, sig: Signal, s: Settings, cost: real): Option<Miss> {
    if sig.side.Sell? then None
    else if Sum(Exposure, b.rows) + cost > s.maxGlobal
         || Sum(ExposureIn(sig.key.market), b.rows) + cost > s.maxPerMarket then Some(ExposureCap)
    else if cost > b.funds.account.Balance() - Sum(Exposure, b.rows) then Some(BankrollInsufficient)
    else None
  }

  /** The fill booked: row, ledger and fill log. */
  function BookFill(b: Book, fill: Fill): Book {
    var key, leg := fill.PositionKey(), fill.leg;
    var i, rows := Find(b.rows, key), WithRow(b.rows, key);
    var p := rows[i];
    if leg.side.Buy? then
      b.(rows := rows[i := Bought(p, leg.size, leg.price, leg.fee)], fills := b.fills + [fill])
    else
      b.(rows := rows[i := Sold(p, leg.size, leg.price, leg.fee)], fills := b.fills + [fill],
         funds := B.Post(b.funds, SellDelta(p, leg.size, leg.price, leg.fee)))
  }

  /** `execute_signal` from the market gate on; `fee` is None when the fee lookup fails. */
  function Attempt(b: Book, sig: Signal, s: Settings, q: Quote, fee: Option<real>): (Book, Attempted) {
    var early := EarlyMiss(b, sig, s);
    if early.Some? then (b, Skipped(early.value))
    else if s.sizeUsd <= 0.0 then (b, Raised)
    else
      var r := W.WalkResult(Walked(sig.side, q), s.sizeUsd, if sig.side.Sell? then Some(Owned(b.rows, sig.key)) else None);
      if r.status.Missed? then (b, Skipped(NoBookDepth))
      else if sig.side.Buy? && r.fillPrice.value >= s.maxCopyPrice then (b, Skipped(PriceZone))
      else if fee.None? then (b, Raised)
      else
        var late := LateMiss(b, sig, s, Value(r.filledSize, r.fillPrice.value) + fee.value);
        if late.Some? then (b, Skipped(late.value))
        else
          var fill := Fill(sig.key.wallet, sig.key.market,
                           Leg(sig.key.outcome, sig.side, r.filledSize, r.fillPrice.value, fee.value));
          (BookFill(b, fill), Executed(fill))
  }

  // ---------- settlement ----------

  function SettleFrom(b: Book, i: nat): Book
    requires i <= |b.rows|
    decreases |b.rows| - i
  {
    if i == |b.rows| then b
    else if !Due(b.rows[i], b.settlements) then SettleFrom(b, i + 1)
    else
      var p, winner := b.rows[i], b.settlements[b.rows[i].key.market];
      SettleFrom(b.(rows := b.rows[i := SettledRow(p, winner)], funds := B.Post(b.funds, SettleDelta(p, winner))), i + 1)
  }

  /** One market found resolved: recorded once, closed in the same commit. */
  function Resolve(b: Book, market: int, winner: string): Book {
    if market !in b.markets || market in b.settlements then b
    else b.(markets := b.markets[market := true], settlements := b.settlements[market := winner])
  }

  /** Market metadata seen at ingestion or at a settlement check: never for a settled market. */
  function SeeMarket(b: Book, market: int, closed: bool): Book {
    if market in b.settlements then b else b.(markets := b.markets[market := closed])
  }
}
