/**
 Whole runs of the paper book: free cash, exposure caps, the account statement, and the agreement
 of average-cost bookkeeping with cash-flow accounting.
 */
module PaperBookRuns {
  import opened Wrappers
  import opened Pnl
  import opened PaperBook
  import B = Bankroll
  import W = BookWalk

  // ---------- runs ----------

  datatype Event =
    | Execute(sig: Signal, q: Quote, fee: Option<real>)
    | SettlePositions
    | SweepProfit
    | SetLimits(profitLimit: Option<real>, stopLossFloor: Option<real>)
    | ResolveMarket(market: int, winner: string)
    | MarketSeen(id: int, closed: bool)

  function SweepBook(b: Book): Book {
    b.(funds := B.Sweep(b.funds, Sum(OpenCost, b.rows)))
  }

  function SweepDue(b: Book): real {
    B.SweepAmount(b.funds.account, Sum(OpenCost, b.rows))
  }

  /** The sweep that ends a cycle: the session commits only a positive amount, any other change is lost. */
  function SweepCycle(b: Book): Book {
    if SweepDue(b) > 0.0 then SweepBook(b) else b
  }

  /** `update_bankroll_settings`: only the fields present are changed. */
  function WithLimits(b: Book, profitLimit: Option<real>, stopLossFloor: Option<real>): Book {
    var a := b.funds.account;
    b.(funds := b.funds.(account := a.(
         profitLimit := if profitLimit.Some? then profitLimit else a.profitLimit,
         stopLossFloor := if stopLossFloor.Some? then stopLossFloor else a.stopLossFloor)))
  }

  function Step(b: Book, s: Settings, ev: Event): Book {
    match ev
    case Execute(sig, q, fee) => Attempt(b, sig, s, q, fee).0
    case SettlePositions => SettleFrom(b, 0)
    case SweepProfit => SweepCycle(b)
    case SetLimits(limit, floor) => WithLimits(b, limit, floor)
    case ResolveMarket(m, winner) => Resolve(b, m, winner)
    case MarketSeen(m, closed) => SeeMarket(b, m, closed)
  }

  function Run(b: Book, s: Settings, evs: seq<Event>): Book {
    if evs == [] then b else Step(Run(b, s, evs[..|evs| - 1]), s, evs[|evs| - 1])
  }

  /** Fees are never negative, and no SELL fee takes free cash below `least`. */
  ghost predicate FeesWithin(b: Book, s: Settings, ev: Event, least: real) {
    ev.Execute? ==>
      && (ev.fee.Some? ==> ev.fee.value >= 0.0)
      && var outcome := Attempt(b, ev.sig, s, ev.q, ev.fee).1;
      outcome.Executed? && ev.sig.side.Sell? ==>
        outcome.fill.leg.fee <= Value(outcome.fill.leg.size, outcome.fill.leg.price) + FreeCash(b) - least
  }

  /** A SELL fee is at most what the sale raises and the free cash there is. */
  ghost predicate FeesOk(b: Book, s: Settings, ev: Event) {
    FeesWithin(b, s, ev, 0.0)
  }

  ghost predicate RunOk(b: Book, s: Settings, evs: seq<Event>) {
    evs != [] ==>
      RunOk(b, s, evs[..|evs| - 1]) && FeesOk(Run(b, s, evs[..|evs| - 1]), s, evs[|evs| - 1])
  }

  /** A fresh account with a nonnegative stake, no positions, no settlement. */
  function NewBook(stake: real, profitLimit: Option<real>, stopLossFloor: Option<real>, markets: map<int, bool>): Book {
    Book(B.Funds(B.Account(stake, 0.0, 0.0, profitLimit, stopLossFloor, false), []), [], [], markets, map[])
  }

  // ---------- the rows ----------

  /** One row per key; no short position; a settled row is empty and its market has a settlement. */
  ghost predicate RowsOk(b: Book) {
    && (forall i, j :: 0 <= i < j < |b.rows| ==> b.rows[i].key != b.rows[j].key)
    && (forall p :: p in b.rows ==>
          && p.qty >= 0.0 && p.avg >= 0.0
          && (p.settledPnl.Some? ==> p.qty == 0.0 && p.key.market in b.settlements))
    && (forall m :: m in b.settlements ==> m in b.markets && b.markets[m])
  }

  function FreeCash(b: Book): real {
    b.funds.account.Balance() - Sum(OpenCost, b.rows)
  }

  lemma ValueFacts(qty: real, price: real)
    ensures qty == 0.0 ==> Value(qty, price) == 0.0
    ensures qty >= 0.0 && price >= 0.0 ==> Value(qty, price) >= 0.0
    ensures qty > 0.0 && price > 0.0 ==> Value(qty, price) > 0.0
  {
  }

  lemma ValueSplits(a: real, b: real, price: real)
    ensures Value(a + b, price) == Value(a, price) + Value(b, price)
    ensures Value(a - b, price) == Value(a, price) - Value(b, price)
    ensures Value(price, a + b) == Value(price, a) + Value(price, b)
    ensures Value(price, a - b) == Value(price, a) - Value(price, b)
  {
  }

  /** The exposure the BUY check subtracts and the open cost the sweep subtracts are the same sum. */
  lemma {:induction false} OpenCostIsExposure(rows: seq<Position>)
    requires forall p :: p in rows ==> p.qty >= 0.0 && (p.settledPnl.Some? ==> p.qty == 0.0)
    ensures Sum(OpenCost, rows) == Sum(Exposure, rows)
  {
    hide Value;
    if rows != [] {
      var p := rows[|rows| - 1];
      OpenCostIsExposure(rows[..|rows| - 1]);
      ValueFacts(p.qty, p.avg);
    }
  }

  lemma {:induction false} ExposureNonnegative(rows: seq<Position>, c: Column)
    requires forall p :: p in rows ==> p.qty >= 0.0 && p.avg >= 0.0
    requires c.Exposure? || c.ExposureIn?
    ensures Sum(c, rows) >= 0.0
  {
    hide Value;
    if rows != [] {
      ExposureNonnegative(rows[..|rows| - 1], c);
      ValueFacts(rows[|rows| - 1].qty, rows[|rows| - 1].avg);
    }
  }

  // ---------- one fill ----------

  /** What every executed fill satisfies, whatever the book and the quote. */
  ghost predicate FillOk(b: Book, s: Settings, fill: Fill) {
    var key, leg := fill.PositionKey(), fill.leg;
    var cost := Value(leg.size, leg.price) + leg.fee;
    && key.market in b.markets && !b.markets[key.market]
    && leg.size > 0.0 && 0.0 < leg.price <= 1.0
    && (leg.side.Sell? ==> leg.size <= Owned(b.rows, key))
    && (leg.side.Buy? ==>
          && leg.price < s.maxCopyPrice
          && !b.funds.account.StopLossHit()
          && cost <= b.funds.account.Balance() - Sum(Exposure, b.rows)
          && Sum(Exposure, b.rows) + cost <= s.maxGlobal
          && Sum(ExposureIn(key.market), b.rows) + cost <= s.maxPerMarket)
  }

  /** A signal that executes passed every gate: the fill is within cash, caps, price and holdings. */
  lemma ExecutedFillOk(b: Book, sig: Signal, s: Settings, q: Quote, fee: Option<real>)
    requires Attempt(b, sig, s, q, fee).1.Executed?
    ensures var fill := Attempt(b, sig, s, q, fee).1.fill;
      && FillOk(b, s, fill) && fill.PositionKey() == sig.key && fee == Some(fill.leg.fee)
      && Attempt(b, sig, s, q, fee).0 == BookFill(b, fill)
      && (sig.side.Buy? ==> Value(fill.leg.size, fill.leg.price) <= s.sizeUsd)
  {
    hide Value, Sum, BookFill, Owned, W.WalkResult, W.Takes, W.Cost, W.Total, W.Notional, W.LevelsUsed, W.Depth, Walked;
    var ls := Walked(sig.side, q);
    var cap := if sig.side.Sell? then Some(Owned(b.rows, sig.key)) else None;
    var r := W.WalkResult(ls, s.sizeUsd, cap);
    FillFacts(r, ls, s.sizeUsd, cap, sig.side, q);
  }

  lemma FillFacts(r: W.FillResult, ls: seq<W.Level>, usd: real, cap: Option<real>, side: Side, q: Quote)
    requires ls == Walked(side, q) && usd > 0.0 && r == W.WalkResult(ls, usd, cap) && !r.status.Missed?
    requires cap.Some? ==> cap.value > 0.0
    ensures r.fillPrice.Some? && r.filledSize > 0.0 && 0.0 < r.fillPrice.value <= 1.0
    ensures cap.Some? ==> r.filledSize <= cap.value
    ensures Value(r.filledSize, r.fillPrice.value) <= usd
  {
    hide W.WalkResult, W.Takes, W.Total, W.Notional, W.LevelsUsed, W.Depth;
    var given := W.WalkedSide(SideName(side), q.bids, q.asks);
    W.SortedIsBestFirst(given, SideName(side) == "SELL");
    W.FillWithinLimits(r, ls, usd, cap);
    W.FillPriceWithinConsumedLevels(r, ls, usd, cap, SideName(side) == "SELL");
    assert W.Cost(r.fillPrice.value, r.filledSize) == Value(r.filledSize, r.fillPrice.value);
  }

  lemma BoughtBasis(p: Position, size: real, price: real, fee: real)
    requires p.qty >= 0.0 && size > 0.0
    ensures Basis(Bought(p, size, price, fee)) == Basis(p) + Value(size, price) + fee
  {
    var cost, qty := Value(p.qty, p.avg) + Value(size, price) + fee, p.qty + size;
    QuotientTimes(qty, cost);
  }

  lemma QuotientTimes(qty: real, cost: real)
    requires qty > 0.0
    ensures Value(qty, cost / qty) == cost
    ensures cost >= 0.0 ==> cost / qty >= 0.0
  {
  }

  /** A SELL turns cost basis into cash: what leaves the basis plus the gain is the net proceeds. */
  lemma SoldBasis(p: Position, size: real, price: real, fee: real)
    requires size <= p.qty
    ensures Basis(p) - Basis(Sold(p, size, price, fee)) + SellDelta(p, size, price, fee) == Value(size, price) - fee
    ensures p.avg >= 0.0 && size >= 0.0 ==> Basis(Sold(p, size, price, fee)) <= Basis(p)
  {
    hide Value;
    ValueSplits(p.qty, size, p.avg);
    ValueSplits(price, p.avg, size);
    ValueFacts(size, p.avg);
    ValueFacts(p.qty, p.avg);
  }

  lemma SettledBasis(p: Position, winner: string)
    ensures Basis(SettledRow(p, winner)) == 0.0
    ensures Basis(p) + SettleDelta(p, winner) == if p.key.outcome == winner then p.qty else 0.0
  {
  }

  /** Row-level facts of a fill: which sums move, and by how much. */
  lemma FillMovesSums(b: Book, s: Settings, fill: Fill)
    requires RowsOk(b) && FillOk(b, s, fill) && fill.leg.fee >= 0.0
    ensures var b', leg := BookFill(b, fill), fill.leg;
      && RowsOk(b')
      && (leg.side.Buy? ==>
            var cost := Value(leg.size, leg.price) + leg.fee;
            && cost >= 0.0
            && Sum(Exposure, b'.rows) == Sum(Exposure, b.rows) + cost
            && (forall m :: Sum(ExposureIn(m), b'.rows) == Sum(ExposureIn(m), b.rows) + (if m == fill.market then cost else 0.0))
            && Sum(Realized, b'.rows) == Sum(Realized, b.rows)
            && b'.funds == b.funds)
      && (leg.side.Sell? ==>
            && Sum(Exposure, b'.rows) <= Sum(Exposure, b.rows)
            && (forall m :: Sum(ExposureIn(m), b'.rows) <= Sum(ExposureIn(m), b.rows))
            && (exists delta: real ::
                  && Sum(Realized, b'.rows) == Sum(Realized, b.rows) + delta
                  && b'.funds == B.Post(b.funds, delta)
                  && Sum(Exposure, b.rows) - Sum(Exposure, b'.rows) + delta == Value(leg.size, leg.price) - leg.fee))
  {
    hide Value, Sum, Basis, Bought, Sold, SellDelta, B.Post, WithRow;
    var key, leg := fill.PositionKey(), fill.leg;
    var i, rows := Find(b.rows, key), WithRow(b.rows, key);
    WithRowFacts(b, key);
    var p := rows[i];
    ValueFacts(leg.size, leg.price);
    var p' := if leg.side.Buy? then Bought(p, leg.size, leg.price, leg.fee) else Sold(p, leg.size, leg.price, leg.fee);
    if leg.side.Buy? {
      BoughtBasis(p, leg.size, leg.price, leg.fee);
    } else {
      SoldBasis(p, leg.size, leg.price, leg.fee);
    }
    NewRowOk(p, leg);
    SumUpdate(Exposure, rows, i, p');
    SumUpdate(Realized, rows, i, p');
    forall m {
      SumUpdate(ExposureIn(m), rows, i, p');
    }
    RowReplaced(b, rows, i, p');
    if leg.side.Sell? {
      var delta := SellDelta(p, leg.size, leg.price, leg.fee);
      assert p'.realized == p.realized + delta by { RealizedOfSold(p, leg); }
      assert BookFill(b, fill).funds == B.Post(b.funds, delta);
    } else {
      assert p'.realized == p.realized by { RealizedOfSold(p, leg); }
    }
  }

  lemma RealizedOfSold(p: Position, leg: Leg)
    ensures Sold(p, leg.size, leg.price, leg.fee).realized == p.realized + SellDelta(p, leg.size, leg.price, leg.fee)
    ensures Bought(p, leg.size, leg.price, leg.fee).realized == p.realized
  {
  }

  lemma NewRowOk(p: Position, leg: Leg)
    requires p.qty >= 0.0 && p.avg >= 0.0 && leg.size > 0.0 && leg.price > 0.0 && leg.fee >= 0.0
    requires leg.side.Sell? ==> leg.size <= p.qty
    ensures var p' := if leg.side.Buy? then Bought(p, leg.size, leg.price, leg.fee) else Sold(p, leg.size, leg.price, leg.fee);
      p'.qty >= 0.0 && p'.avg >= 0.0 && p'.key == p.key && p'.settledPnl == p.settledPnl
  {
    hide Value;
    ValueFacts(p.qty, p.avg);
    ValueFacts(leg.size, leg.price);
    QuotientTimes(p.qty + leg.size, Value(p.qty, p.avg) + Value(leg.size, leg.price) + leg.fee);
  }

  /** Looking up a row, creating it empty if needed, changes no sum and no other row. */
  lemma WithRowFacts(b: Book, key: Key)
    requires RowsOk(b)
    ensures var rows, i := WithRow(b.rows, key), Find(b.rows, key);
      && RowsOk(b.(rows := rows)) && i < |rows| && rows[i].key == key
      && rows[i].qty == Owned(b.rows, key)
      && (forall c :: Sum(c, rows) == Sum(c, b.rows))
  {
    if Find(b.rows, key) == |b.rows| {
      forall c {
        SumAppend(c, b.rows, FreshRow(key));
      }
    }
  }

  lemma RowReplaced(b: Book, rows: seq<Position>, i: nat, p': Position)
    requires RowsOk(b.(rows := rows)) && i < |rows| && p'.key == rows[i].key && p'.settledPnl == rows[i].settledPnl
    requires p'.qty >= 0.0 && p'.avg >= 0.0
    requires rows[i].settledPnl.None?
    ensures RowsOk(b.(rows := rows[i := p']))
  {
    forall p | p in rows[i := p']
      ensures p.qty >= 0.0 && p.avg >= 0.0 && (p.settledPnl.Some? ==> p.qty == 0.0 && p.key.market in b.settlements)
    {
      assert p == p' || p in rows;
    }
  }

  // ---------- free cash, caps and the account statement over every run ----------

  /** Cost basis at risk never exceeds the configured caps. */
  ghost predicate CapsOk(b: Book, s: Settings) {
    && Sum(Exposure, b.rows) <= B.Max(0.0, s.maxGlobal)
    && forall m :: Sum(ExposureIn(m), b.rows) <= B.Max(0.0, s.maxPerMarket)
  }

  /** The account statement is right and its profit is the profit recorded on the position rows. */
  ghost predicate StatementOk(b: Book) {
    B.Consistent(b.funds) && b.funds.account.realized == Sum(Realized, b.rows)
  }

  ghost predicate MoneyAbove(b: Book, s: Settings, least: real) {
    RowsOk(b) && FreeCash(b) >= least && CapsOk(b, s) && StatementOk(b)
  }

  ghost predicate MoneyOk(b: Book, s: Settings) {
    MoneyAbove(b, s, 0.0)
  }

  lemma PostFacts(f: B.Funds, amount: real)
    ensures B.Post(f, amount).account.Balance() == f.account.Balance() + amount
    ensures B.Post(f, amount).account.realized == f.account.realized + amount
    ensures B.Consistent(f) ==> B.Consistent(B.Post(f, amount))
  {
    if B.Consistent(f) {
      B.PostKeepsConsistent(f, amount);
    }
  }

  /** How a fill changes free cash: a BUY spends cost, a SELL brings in net proceeds. */
  lemma FillMovesFreeCash(b: Book, s: Settings, fill: Fill)
    requires RowsOk(b) && FillOk(b, s, fill) && fill.leg.fee >= 0.0
    ensures var gross := Value(fill.leg.size, fill.leg.price);
      FreeCash(BookFill(b, fill)) == FreeCash(b) + (if fill.leg.side.Buy? then -gross else gross) - fill.leg.fee
  {
    hide Value, Sum, BookFill, B.Post;
    var b' := BookFill(b, fill);
    FillMovesSums(b, s, fill);
    OpenCostIsExposure(b.rows);
    OpenCostIsExposure(b'.rows);
    if fill.leg.side.Sell? {
      var delta :| b'.funds == B.Post(b.funds, delta)
        && Sum(Exposure, b.rows) - Sum(Exposure, b'.rows) + delta == Value(fill.leg.size, fill.leg.price) - fill.leg.fee;
      PostFacts(b.funds, delta);
    }
  }

  /**
   Exactly when a SELL leaves free cash nonnegative: the fee may eat the proceeds and the free
   cash there was, no more.  A fee above that - a flat fee on a low-priced token - breaks it.
   */
  lemma SellKeepsCashIffFeeCovered(b: Book, s: Settings, fill: Fill)
    requires RowsOk(b) && FillOk(b, s, fill) && fill.leg.side.Sell? && fill.leg.fee >= 0.0
    ensures FreeCash(BookFill(b, fill)) >= 0.0
       <==> fill.leg.fee <= Value(fill.leg.size, fill.leg.price) + FreeCash(b)
  {
    FillMovesFreeCash(b, s, fill);
  }

  lemma FillKeepsMoney(b: Book, s: Settings, fill: Fill, was: real, least: real)
    requires MoneyAbove(b, s, was) && least <= was <= 0.0 && FillOk(b, s, fill) && fill.leg.fee >= 0.0
    requires fill.leg.side.Sell? ==> fill.leg.fee <= Value(fill.leg.size, fill.leg.price) + FreeCash(b) - least
    ensures MoneyAbove(BookFill(b, fill), s, least)
  {
    hide Value, Sum, BookFill, B.Post, B.Consistent;
    var b' := BookFill(b, fill);
    FillMovesSums(b, s, fill);
    FillMovesFreeCash(b, s, fill);
    OpenCostIsExposure(b.rows);
    if fill.leg.side.Sell? {
      var delta :| Sum(Realized, b'.rows) == Sum(Realized, b.rows) + delta && b'.funds == B.Post(b.funds, delta);
      PostFacts(b.funds, delta);
    }
    forall m
      ensures Sum(ExposureIn(m), b'.rows) <= B.Max(0.0, s.maxPerMarket)
    {
      assert Sum(ExposureIn(m), b.rows) <= B.Max(0.0, s.maxPerMarket);
    }
  }

  /** Settling one due row pays its winning shares into free cash and takes nothing out. */
  lemma SettleRowKeepsMoney(b: Book, s: Settings, i: nat, least: real)
    requires MoneyAbove(b, s, least) && i < |b.rows| && Due(b.rows[i], b.settlements)
    ensures var p := b.rows[i]; var winner := b.settlements[p.key.market];
      var b' := b.(rows := b.rows[i := SettledRow(p, winner)], funds := B.Post(b.funds, SettleDelta(p, winner)));
      && MoneyAbove(b', s, least)
      && FreeCash(b') == FreeCash(b) + (if p.key.outcome == winner then p.qty else 0.0)
  {
    hide Value, Sum, Basis, B.Post, B.Consistent;
    var p := b.rows[i];
    var winner := b.settlements[p.key.market];
    var p', delta := SettledRow(p, winner), SettleDelta(p, winner);
    var b' := b.(rows := b.rows[i := p'], funds := B.Post(b.funds, delta));
    SettledBasis(p, winner);
    BasisNonnegative(p);
    PostFacts(b.funds, delta);
    SumUpdate(Exposure, b.rows, i, p');
    SumUpdate(Realized, b.rows, i, p');
    forall m
      ensures Sum(ExposureIn(m), b'.rows) <= Sum(ExposureIn(m), b.rows)
    {
      SumUpdate(ExposureIn(m), b.rows, i, p');
    }
    forall q | q in b'.rows
      ensures q.qty >= 0.0 && q.avg >= 0.0 && (q.settledPnl.Some? ==> q.qty == 0.0 && q.key.market in b.settlements)
    {
      assert q == p' || q in b.rows;
    }
    OpenCostIsExposure(b.rows);
    OpenCostIsExposure(b'.rows);
    forall m
      ensures Sum(ExposureIn(m), b'.rows) <= B.Max(0.0, s.maxPerMarket)
    {
      assert Sum(ExposureIn(m), b.rows) <= B.Max(0.0, s.maxPerMarket);
    }
  }

  lemma BasisNonnegative(p: Position)
    requires p.qty >= 0.0 && p.avg >= 0.0
    ensures Basis(p) >= 0.0
  {
    ValueFacts(p.qty, p.avg);
  }

  lemma {:induction false} SettleKeepsMoney(b: Book, s: Settings, i: nat, least: real)
    requires MoneyAbove(b, s, least) && i <= |b.rows|
    ensures MoneyAbove(SettleFrom(b, i), s, least) && FreeCash(SettleFrom(b, i)) >= FreeCash(b)
    decreases |b.rows| - i
  {
    hide MoneyAbove, FreeCash;
    if i < |b.rows| {
      if Due(b.rows[i], b.settlements) {
        SettleRowKeepsMoney(b, s, i, least);
        var p := b.rows[i];
        var winner := b.settlements[p.key.market];
        SettleKeepsMoney(b.(rows := b.rows[i := SettledRow(p, winner)], funds := B.Post(b.funds, SettleDelta(p, winner))), s, i + 1, least);
      } else {
        SettleKeepsMoney(b, s, i + 1, least);
      }
    }
  }

  lemma StepKeepsMoney(b: Book, s: Settings, ev: Event, was: real, least: real)
    requires MoneyAbove(b, s, was) && FeesWithin(b, s, ev, least) && least <= was <= 0.0
    ensures MoneyAbove(Step(b, s, ev), s, least)
  {
    hide Value, Sum, BookFill, B.SumOf, B.SumOfKind, B.PeakRealized, B.Statement, EarlyMiss, LateMiss, W.WalkResult, SweepBook, SweepCycle, SettleFrom;
    match ev
    case Execute(sig, q, fee) =>
      if Attempt(b, sig, s, q, fee).1.Executed? {
        ExecutedFillOk(b, sig, s, q, fee);
        FillKeepsMoney(b, s, Attempt(b, sig, s, q, fee).1.fill, was, least);
      }
    case SettlePositions => SettleKeepsMoney(b, s, 0, was);
    case SweepProfit => SweepKeepsMoney(b, s, was);
    case SetLimits(_, _) =>
    case ResolveMarket(_, _) =>
    case MarketSeen(_, _) =>
  }

  lemma SweepKeepsMoney(b: Book, s: Settings, least: real)
    requires MoneyAbove(b, s, least) && least <= 0.0
    ensures MoneyAbove(SweepBook(b), s, least) && MoneyAbove(SweepCycle(b), s, least)
  {
    hide Sum, B.SumOf, B.SumOfKind, B.PeakRealized, B.Statement;
    B.SweepKeepsConsistent(b.funds, Sum(OpenCost, b.rows));
    B.SweepIsSafe(b.funds, Sum(OpenCost, b.rows));
  }

  /**
   Every run of BUYs, SELLs, settlements, sweeps and limit changes: free cash never goes negative,
   exposure stays within both caps, every ledger line is the stake plus what moved before it, the
   account's profit is the sum over position rows, and only profit once reached was withdrawn.
   */
  lemma {:induction false} RunKeepsMoney(
    stake: real, limit: Option<real>, floor: Option<real>, markets: map<int, bool>, s: Settings, evs: seq<Event>)
    requires stake >= 0.0 && RunOk(NewBook(stake, limit, floor, markets), s, evs)
    ensures MoneyOk(Run(NewBook(stake, limit, floor, markets), s, evs), s)
    decreases |evs|
  {
    var b := NewBook(stake, limit, floor, markets);
    if evs == [] {
      assert forall m :: Sum(ExposureIn(m), b.rows) == 0.0;
    } else {
      RunKeepsMoney(stake, limit, floor, markets, s, evs[..|evs| - 1]);
      StepKeepsMoney(Run(b, s, evs[..|evs| - 1]), s, evs[|evs| - 1], 0.0, 0.0);
    }
  }
}
