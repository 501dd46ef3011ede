/**
 Two independent accountings agree.  Average-cost rows with fee-inclusive basis on one side, the
 cash-flow accounting of the same fills on the other: equal after every run, and equal to the
 market's realized profit once it is settled.
 */
module PaperAccounting {
  import opened Wrappers
  import opened Pnl
  import opened PaperBook
  import opened PaperBookRuns
  import B = Bankroll
  import W = BookWalk

  // ---------- the fills of one position ----------

  function SharesOf(fills: seq<Fill>, key: Key): real {
    if fills == [] then 0.0
    else
      var last := fills[|fills| - 1];
      SharesOf(fills[..|fills| - 1], key) + (if last.PositionKey() == key then SignedSize(last.leg) else 0.0)
  }

  function CashOf(fills: seq<Fill>, key: Key): real {
    if fills == [] then 0.0
    else
      var last := fills[|fills| - 1];
      CashOf(fills[..|fills| - 1], key) + (if last.PositionKey() == key then Cash(last.leg) else 0.0)
  }

  function Payout(fills: seq<Fill>, key: Key, winner: string): real {
    if key.outcome == winner then SharesOf(fills, key) else 0.0
  }

  /**
   One row against its own fills.  While open: its quantity is the net shares, and its realized
   profit less its cost basis is the net cash.  Once settled: all of the net cash plus the payout.
   */
  ghost predicate RowMatches(fills: seq<Fill>, settlements: map<int, string>, p: Position) {
    && SharesOf(fills, p.key) >= 0.0
    && if p.settledPnl.None? then p.qty == SharesOf(fills, p.key) && p.realized - Basis(p) == CashOf(fills, p.key)
       else p.qty == 0.0 && p.key.market in settlements
            && p.realized == CashOf(fills, p.key) + Payout(fills, p.key, settlements[p.key.market])
  }

  ghost predicate BooksAgree(b: Book) {
    && (forall p :: p in b.rows ==> RowMatches(b.fills, b.settlements, p))
    && (forall f :: f in b.fills ==> Find(b.rows, f.PositionKey()) < |b.rows|)
  }

  lemma SumsAppend(fills: seq<Fill>, f: Fill, key: Key)
    ensures SharesOf(fills + [f], key) == SharesOf(fills, key) + (if f.PositionKey() == key then SignedSize(f.leg) else 0.0)
    ensures CashOf(fills + [f], key) == CashOf(fills, key) + (if f.PositionKey() == key then Cash(f.leg) else 0.0)
  {
    hide Cash;
    assert (fills + [f])[..|fills|] == fills;
  }

  lemma {:induction false} NoFillsNoSums(fills: seq<Fill>, key: Key)
    requires forall f :: f in fills ==> f.PositionKey() != key
    ensures SharesOf(fills, key) == 0.0 && CashOf(fills, key) == 0.0
  {
    if fills != [] {
      NoFillsNoSums(fills[..|fills| - 1], key);
    }
  }

  /** The row a fill updates matches its fills before, and with the fill, after. */
  lemma FilledRowMatches(fills: seq<Fill>, settlements: map<int, string>, p: Position, f: Fill)
    requires RowMatches(fills, settlements, p) && p.settledPnl.None? && f.PositionKey() == p.key
    requires p.qty >= 0.0 && f.leg.size > 0.0 && (f.leg.side.Sell? ==> f.leg.size <= p.qty)
    ensures var leg := f.leg;
      var p' := if leg.side.Buy? then Bought(p, leg.size, leg.price, leg.fee) else Sold(p, leg.size, leg.price, leg.fee);
      RowMatches(fills + [f], settlements, p')
  {
    hide Value, Basis, Bought, Sold, SellDelta, SharesOf, CashOf, Gross;
    var leg := f.leg;
    SumsAppend(fills, f, p.key);
    GrossIsValue(leg);
    RealizedOfSold(p, leg);
    QuantityOf(p, leg);
    if leg.side.Buy? {
      BoughtBasis(p, leg.size, leg.price, leg.fee);
    } else {
      SoldBasis(p, leg.size, leg.price, leg.fee);
    }
  }

  lemma GrossIsValue(leg: Leg)
    ensures Gross(leg) == if leg.side.Buy? then -Value(leg.size, leg.price) else Value(leg.size, leg.price)
  {
  }

  lemma QuantityOf(p: Position, leg: Leg)
    ensures var q := Bought(p, leg.size, leg.price, leg.fee);
      q.qty == p.qty + leg.size && q.key == p.key && q.settledPnl == p.settledPnl
    ensures var q := Sold(p, leg.size, leg.price, leg.fee);
      q.qty == p.qty - B.Min(p.qty, leg.size) && q.key == p.key && q.settledPnl == p.settledPnl
  {
  }

  lemma SettledRowMatches(fills: seq<Fill>, settlements: map<int, string>, p: Position)
    requires RowMatches(fills, settlements, p) && Due(p, settlements)
    ensures RowMatches(fills, settlements, SettledRow(p, settlements[p.key.market]))
  {
    hide SharesOf, CashOf;
    SettledBasis(p, settlements[p.key.market]);
  }

  // ---------- every run ----------

  lemma FillKeepsAgreement(b: Book, s: Settings, fill: Fill)
    requires RowsOk(b) && BooksAgree(b) && FillOk(b, s, fill)
    ensures BooksAgree(BookFill(b, fill))
  {
    hide Value, Basis, Bought, Sold, SellDelta, SharesOf, CashOf, Sum, B.Post, Cash;
    var key, leg := fill.PositionKey(), fill.leg;
    var i, rows := Find(b.rows, key), WithRow(b.rows, key);
    WithRowAgrees(b, key);
    var p := rows[i];
    var p' := if leg.side.Buy? then Bought(p, leg.size, leg.price, leg.fee) else Sold(p, leg.size, leg.price, leg.fee);
    QuantityOf(p, leg);
    FilledRowMatches(b.fills, b.settlements, p, fill);
    var b' := BookFill(b, fill);
    assert b'.rows == rows[i := p'];
    forall q | q in b'.rows
      ensures RowMatches(b'.fills, b'.settlements, q)
    {
      if q != p' {
        SumsAppend(b.fills, fill, q.key);
        OtherRow(rows, i, p', q);
      }
    }
    forall f | f in b'.fills
      ensures Find(b'.rows, f.PositionKey()) < |b'.rows|
    {
      if f in b.fills {
        var j := Find(rows, f.PositionKey());
        assert b'.rows[j].key == f.PositionKey() && b'.rows[j] in b'.rows;
      } else {
        assert b'.rows[i].key == f.PositionKey() && b'.rows[i] in b'.rows;
      }
    }
  }

  /** A row other than the updated one is an old row with another key. */
  lemma OtherRow(rows: seq<Position>, i: nat, p': Position, q: Position)
    requires i < |rows| && forall j, k :: 0 <= j < k < |rows| ==> rows[j].key != rows[k].key
    requires q in rows[i := p'] && q != p'
    ensures q in rows && q.key != rows[i].key
  {
    var j :| 0 <= j < |rows| && rows[i := p'][j] == q;
    assert rows[j] == q;
  }

  /** Looking up the row of an executable fill: it matches its fills and is not settled. */
  lemma WithRowAgrees(b: Book, key: Key)
    requires RowsOk(b) && BooksAgree(b) && key.market in b.markets && !b.markets[key.market]
    ensures var rows, i := WithRow(b.rows, key), Find(b.rows, key);
      && i < |rows| && rows[i].key == key && rows[i].settledPnl.None?
      && rows[i].qty == Owned(b.rows, key) >= 0.0
      && (forall j, k :: 0 <= j < k < |rows| ==> rows[j].key != rows[k].key)
      && (forall p :: p in rows ==> RowMatches(b.fills, b.settlements, p))
      && (forall f :: f in b.fills ==> Find(rows, f.PositionKey()) < |rows|)
  {
    hide SharesOf, CashOf;
    var rows, i := WithRow(b.rows, key), Find(b.rows, key);
    if i == |b.rows| {
      NoFillsNoSums(b.fills, key);
      assert RowMatches(b.fills, b.settlements, FreshRow(key));
      forall f | f in b.fills
        ensures Find(rows, f.PositionKey()) < |rows|
      {
        var j := Find(b.rows, f.PositionKey());
        assert rows[j].key == f.PositionKey() && rows[j] in rows;
      }
    } else {
      assert b.rows[i] in b.rows;
    }
  }

  lemma {:induction false} SettleKeepsAgreement(b: Book, i: nat)
    requires BooksAgree(b) && i <= |b.rows|
    ensures var b' := SettleFrom(b, i);
      && BooksAgree(b')
      && |b'.rows| == |b.rows| && b'.fills == b.fills && b'.settlements == b.settlements
      && (forall j :: 0 <= j < |b.rows| ==> b'.rows[j].key == b.rows[j].key)
      && (forall j :: 0 <= j < i ==> b'.rows[j] == b.rows[j])
      && (forall j :: i <= j < |b.rows| ==> !Due(b'.rows[j], b.settlements))
    decreases |b.rows| - i
  {
    hide SharesOf, CashOf, B.Post, SettleDelta, Basis;
    if i < |b.rows| {
      if Due(b.rows[i], b.settlements) {
        var p := b.rows[i];
        var winner := b.settlements[p.key.market];
        var p' := SettledRow(p, winner);
        SettledRowMatches(b.fills, b.settlements, p);
        var b1 := b.(rows := b.rows[i := p'], funds := B.Post(b.funds, SettleDelta(p, winner)));
        forall q | q in b1.rows
          ensures RowMatches(b1.fills, b1.settlements, q)
        {
          assert q == p' || q in b.rows;
        }
        SameKeysFound(b.rows, b1.rows);
        SettleKeepsAgreement(b1, i + 1);
      } else {
        SettleKeepsAgreement(b, i + 1);
      }
    }
  }

  lemma SameKeysFound(rows: seq<Position>, rows': seq<Position>)
    requires |rows| == |rows'| && forall j :: 0 <= j < |rows| ==> rows'[j].key == rows[j].key
    ensures forall key :: Find(rows, key) < |rows| ==> Find(rows', key) < |rows'|
  {
    forall key | Find(rows, key) < |rows|
      ensures Find(rows', key) < |rows'|
    {
      assert rows'[Find(rows, key)] in rows';
    }
  }

  lemma StepKeepsAgreement(b: Book, s: Settings, ev: Event)
    requires MoneyOk(b, s) && BooksAgree(b)
    ensures BooksAgree(Step(b, s, ev))
  {
    hide Value, Sum, BookFill, EarlyMiss, LateMiss, W.WalkResult, SharesOf, CashOf, CapsOk, StatementOk, FreeCash, Basis;
    match ev
    case Execute(sig, q, fee) =>
      if Attempt(b, sig, s, q, fee).1.Executed? {
        ExecutedFillOk(b, sig, s, q, fee);
        FillKeepsAgreement(b, s, Attempt(b, sig, s, q, fee).1.fill);
      }
    case SettlePositions => SettleKeepsAgreement(b, 0);
    case SweepProfit =>
    case SetLimits(_, _) =>
    case ResolveMarket(_, _) =>
    case MarketSeen(_, _) =>
  }

  /** Every run: each position row agrees with the cash-flow accounting of its own fills. */
  lemma {:induction false} RunKeepsAgreement(
    stake: real, limit: Option<real>, floor: Option<real>, markets: map<int, bool>, s: Settings, evs: seq<Event>)
    requires stake >= 0.0 && RunOk(NewBook(stake, limit, floor, markets), s, evs)
    ensures BooksAgree(Run(NewBook(stake, limit, floor, markets), s, evs))
    decreases |evs|
  {
    if evs != [] {
      RunKeepsAgreement(stake, limit, floor, markets, s, evs[..|evs| - 1]);
      RunKeepsMoney(stake, limit, floor, markets, s, evs[..|evs| - 1]);
      StepKeepsAgreement(Run(NewBook(stake, limit, floor, markets), s, evs[..|evs| - 1]), s, evs[|evs| - 1]);
    }
  }

  // ---------- one market, resolved ----------

  /** The legs of one wallet's paper fills in one market, in order: what `account_market` is given. */
  function LegsOf(fills: seq<Fill>, wallet: int, market: int): seq<Leg> {
    if fills == [] then []
    else
      var last, before := fills[|fills| - 1], LegsOf(fills[..|fills| - 1], wallet, market);
      if last.wallet == wallet && last.market == market then before + [last.leg] else before
  }

  lemma {:induction false} LegSharesAreFillShares(fills: seq<Fill>, wallet: int, market: int, outcome: string)
    ensures SharesIn(LegsOf(fills, wallet, market), outcome) == SharesOf(fills, Key(wallet, market, outcome))
  {
    if fills != [] {
      LegSharesAreFillShares(fills[..|fills| - 1], wallet, market, outcome);
      var last, before := fills[|fills| - 1], LegsOf(fills[..|fills| - 1], wallet, market);
      assert (before + [last.leg])[..|before|] == before;
    }
  }

  /** Cash of one wallet in one market, summed over its position rows. */
  ghost function RowCash(rows: seq<Position>, fills: seq<Fill>, wallet: int, market: int): real {
    if rows == [] then 0.0
    else
      var p := rows[|rows| - 1];
      RowCash(rows[..|rows| - 1], fills, wallet, market)
      + (if p.key.wallet == wallet && p.key.market == market then CashOf(fills, p.key) else 0.0)
  }

  lemma {:induction false} RowCashEmpty(rows: seq<Position>, wallet: int, market: int)
    ensures RowCash(rows, [], wallet, market) == 0.0
  {
    if rows != [] {
      RowCashEmpty(rows[..|rows| - 1], wallet, market);
    }
  }

  /** A fill adds its cash to exactly one row. */
  lemma {:induction false} RowCashStep(rows: seq<Position>, fills: seq<Fill>, f: Fill, wallet: int, market: int)
    requires forall i, j :: 0 <= i < j < |rows| ==> rows[i].key != rows[j].key
    ensures RowCash(rows, fills + [f], wallet, market)
         == RowCash(rows, fills, wallet, market)
            + (if f.wallet == wallet && f.market == market && Find(rows, f.PositionKey()) < |rows| then Cash(f.leg) else 0.0)
  {
    hide Cash;
    if rows != [] {
      var k := |rows| - 1;
      var p, init := rows[k], rows[..k];
      RowCashStep(init, fills, f, wallet, market);
      SumsAppend(fills, f, p.key);
      FindInPrefix(rows, f.PositionKey());
    }
  }

  lemma FindInPrefix(rows: seq<Position>, key: Key)
    requires rows != [] && forall i, j :: 0 <= i < j < |rows| ==> rows[i].key != rows[j].key
    ensures var k := |rows| - 1;
      && (Find(rows, key) < |rows| <==> Find(rows[..k], key) < k || rows[k].key == key)
      && !(Find(rows[..k], key) < k && rows[k].key == key)
  {
    var k := |rows| - 1;
    assert rows == rows[..k] + [rows[k]];
    if Find(rows[..k], key) < k {
      assert rows[Find(rows[..k], key)].key == key;
    }
  }

  lemma {:induction false} RowCashIsTotalCash(rows: seq<Position>, fills: seq<Fill>, wallet: int, market: int)
    requires forall i, j :: 0 <= i < j < |rows| ==> rows[i].key != rows[j].key
    requires forall f :: f in fills ==> Find(rows, f.PositionKey()) < |rows|
    ensures RowCash(rows, fills, wallet, market) == TotalCash(LegsOf(fills, wallet, market))
  {
    if fills == [] {
      RowCashEmpty(rows, wallet, market);
    } else {
      var k := |fills| - 1;
      RowCashIsTotalCash(rows, fills[..k], wallet, market);
      RowCashStep(rows, fills[..k], fills[k], wallet, market);
      assert fills == fills[..k] + [fills[k]];
      var before := LegsOf(fills[..k], wallet, market);
      assert (before + [fills[k].leg])[..|before|] == before;
    }
  }

  /** With every row of the market closed out, row profits are row cash plus the winning shares. */
  lemma {:induction false} RealizedIsCashPlusPayout(rows: seq<Position>, b: Book, wallet: int, market: int)
    requires forall i, j :: 0 <= i < j < |rows| ==> rows[i].key != rows[j].key
    requires forall p :: p in rows ==> RowMatches(b.fills, b.settlements, p)
    requires market in b.settlements
    requires forall p :: p in rows && p.key.market == market ==> p.qty == 0.0
    ensures Sum(RealizedIn(wallet, market), rows)
         == RowCash(rows, b.fills, wallet, market)
            + (var win := Key(wallet, market, b.settlements[market]);
               if Find(rows, win) < |rows| then SharesOf(b.fills, win) else 0.0)
  {
    hide Value, SharesOf, CashOf, RowMatches, Find;
    if rows != [] {
      var k := |rows| - 1;
      var p := rows[k];
      assert rows == rows[..k] + [p] && p in rows;
      RealizedIsCashPlusPayout(rows[..k], b, wallet, market);
      FindInPrefix(rows, Key(wallet, market, b.settlements[market]));
      if p.key.market == market {
        ClosedRowRealized(b.fills, b.settlements, p);
      }
    }
  }

  lemma ClosedRowRealized(fills: seq<Fill>, settlements: map<int, string>, p: Position)
    requires RowMatches(fills, settlements, p) && p.qty == 0.0 && p.key.market in settlements
    ensures p.realized == CashOf(fills, p.key) + Payout(fills, p.key, settlements[p.key.market])
  {
    hide Value, SharesOf, CashOf;
    ValueFacts(p.qty, p.avg);
  }

  /**
   The two accountings of a resolved market: after any run followed by settlement, the profits on
   the wallet's position rows in that market add up to what `account_market` computes from the
   wallet's fills.
   */
  lemma SettledRowsEqualMarketAccounting(
    stake: real, limit: Option<real>, floor: Option<real>, markets: map<int, bool>, s: Settings, evs: seq<Event>,
    wallet: int, market: int)
    requires stake >= 0.0 && RunOk(NewBook(stake, limit, floor, markets), s, evs)
    requires market in Run(NewBook(stake, limit, floor, markets), s, evs).settlements
    ensures var b := SettleFrom(Run(NewBook(stake, limit, floor, markets), s, evs), 0);
      && market in b.settlements
      && Sum(RealizedIn(wallet, market), b.rows)
         == ResolvedPnl(LegsOf(b.fills, wallet, market), b.settlements[market])
  {
    hide SharesOf, CashOf, Sum, SettleFrom, RowMatches;
    var b0 := Run(NewBook(stake, limit, floor, markets), s, evs);
    RunKeepsAgreement(stake, limit, floor, markets, s, evs);
    RunKeepsMoney(stake, limit, floor, markets, s, evs);
    SettleKeepsAgreement(b0, 0);
    SettleKeepsMoney(b0, s, 0, 0.0);
    var b := SettleFrom(b0, 0);
    forall p | p in b.rows && p.key.market == market
      ensures p.qty == 0.0
    {
      var j :| 0 <= j < |b.rows| && b.rows[j] == p;
      assert !Due(b.rows[j], b0.settlements);
    }
    RealizedIsCashPlusPayout(b.rows, b, wallet, market);
    RowCashIsTotalCash(b.rows, b.fills, wallet, market);
    var win := Key(wallet, market, b.settlements[market]);
    LegSharesAreFillShares(b.fills, wallet, market, b.settlements[market]);
    if Find(b.rows, win) < |b.rows| {
      SharesNonnegative(b, Find(b.rows, win));
    } else {
      NoFillsNoSums(b.fills, win);
    }
  }

  lemma SharesNonnegative(b: Book, i: nat)
    requires BooksAgree(b) && i < |b.rows|
    ensures SharesOf(b.fills, b.rows[i].key) >= 0.0
  {
    assert b.rows[i] in b.rows;
    assert RowMatches(b.fills, b.settlements, b.rows[i]);
  }
}
