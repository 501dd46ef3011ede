/**
 What becomes of a paper signal, gate by gate; what an executed one is worth against the book as it was
 quoted; and when a sweep moves money.
 */
module PaperOutcomes {
  import opened Wrappers
  import opened Pnl
  import opened PaperBook
  import opened PaperBookRuns
  import B = Bankroll
  import W = BookWalk
  import S = BookSides

  // ---------- the gates of one signal ----------

  /** Cost basis already at risk. */
  function AtRisk(b: Book): real { Sum(Exposure, b.rows) }

  /** Spending `usd` more would take the book or the market over its cap. */
  predicate OverCap(b: Book, sig: Signal, s: Settings, usd: real) {
    AtRisk(b) + usd > s.maxGlobal || Sum(ExposureIn(sig.key.market), b.rows) + usd > s.maxPerMarket
  }

  /** The account is at or under its stop-loss floor; a floor of zero or less is none. */
  predicate UnderFloor(a: B.Account) {
    a.stopLossFloor.Some? && 0.0 < a.stopLossFloor.value && a.starting + a.realized - a.withdrawn <= a.stopLossFloor.value
  }

  function CashLeft(b: Book): real {
    b.funds.account.starting + b.funds.account.realized - b.funds.account.withdrawn - AtRisk(b)
  }

  /** The first gate closed before the order book is asked for, if any is. */
  ghost predicate FirstClosed(b: Book, sig: Signal, s: Settings, why: Miss) {
    var open := sig.key.market in b.markets && !b.markets[sig.key.market];
    match why
    case MarketClosed => !open
    case NoToken => open && !sig.tokenKnown
    case NoPositionToSell => open && sig.tokenKnown && sig.side.Sell? && Owned(b.rows, sig.key) <= 0.0
    case ExposureCap => open && sig.tokenKnown && sig.side.Buy? && OverCap(b, sig, s, s.sizeUsd)
    case StopLoss => open && sig.tokenKnown && sig.side.Buy? && !OverCap(b, sig, s, s.sizeUsd) && UnderFloor(b.funds.account)
    case BankrollInsufficient =>
      open && sig.tokenKnown && sig.side.Buy? && !OverCap(b, sig, s, s.sizeUsd) && !UnderFloor(b.funds.account) && CashLeft(b) <= 0.0
    case _ => false
  }

  /** None of them is. */
  ghost predicate GatesOpen(b: Book, sig: Signal, s: Settings) {
    && sig.key.market in b.markets && !b.markets[sig.key.market] && sig.tokenKnown
    && (sig.side.Sell? ==> Owned(b.rows, sig.key) > 0.0)
    && (sig.side.Buy? ==> !OverCap(b, sig, s, s.sizeUsd) && !UnderFloor(b.funds.account) && CashLeft(b) > 0.0)
  }

  /** The walk the signal asks for: its size in money, and for a SELL at most the shares owned. */
  function TheWalk(b: Book, sig: Signal, s: Settings, q: Quote): W.FillResult
    requires s.sizeUsd > 0.0
  {
    W.WalkResult(Walked(sig.side, q), s.sizeUsd, if sig.side.Sell? then Some(Owned(b.rows, sig.key)) else None)
  }

  /** A BUY that filled at or above the price cap. */
  predicate TooDear(sig: Signal, s: Settings, r: W.FillResult) {
    sig.side.Buy? && r.fillPrice.Some? && r.fillPrice.value >= s.maxCopyPrice
  }

  /** Gates open, the book filled something, the price is allowed and the fee is known. */
  ghost predicate Walks(b: Book, sig: Signal, s: Settings, q: Quote, fee: Option<real>) {
    && GatesOpen(b, sig, s) && s.sizeUsd > 0.0
    && TheWalk(b, sig, s, q).filledSize > 0.0 && !TooDear(sig, s, TheWalk(b, sig, s, q)) && fee.Some?
  }

  /** What the fill costs, its fee included. */
  function CostOf(r: W.FillResult, fee: real): real
    requires r.fillPrice.Some?
  {
    Value(r.filledSize, r.fillPrice.value) + fee
  }

  lemma EarlyMissIff(b: Book, sig: Signal, s: Settings)
    ensures forall why :: EarlyMiss(b, sig, s) == Some(why) <==> FirstClosed(b, sig, s, why)
    ensures EarlyMiss(b, sig, s).None? <==> GatesOpen(b, sig, s)
  {
    hide Sum, Owned;
  }

  lemma WalkFills(b: Book, sig: Signal, s: Settings, q: Quote)
    requires s.sizeUsd > 0.0
    ensures var r := TheWalk(b, sig, s, q);
      (r.filledSize > 0.0 <==> !r.status.Missed?) && (r.fillPrice.Some? <==> !r.status.Missed?)
  {
    hide Walked, W.Takes, W.Total, W.Notional, W.LevelsUsed, W.Depth, Owned;
  }

  /**
   Every outcome of a signal and exactly when it comes: each miss where its gate is the first one closed,
   an exception where the configured size is not positive or a fill has no fee, and a fill otherwise, of
   the walked shares at the walked price; a signal that is not filled changes nothing.
   */
  lemma OutcomeIff(b: Book, sig: Signal, s: Settings, q: Quote, fee: Option<real>)
    ensures var (b', out) := Attempt(b, sig, s, q, fee); var open := GatesOpen(b, sig, s);
      && (forall why :: why in {MarketClosed, NoToken, NoPositionToSell, StopLoss} ==>
            (out == Skipped(why) <==> FirstClosed(b, sig, s, why)))
      && (out == Skipped(NoBookDepth) <==> open && s.sizeUsd > 0.0 && TheWalk(b, sig, s, q).filledSize <= 0.0)
      && (out == Skipped(PriceZone) <==> open && s.sizeUsd > 0.0 && TooDear(sig, s, TheWalk(b, sig, s, q)))
      && (out.Raised? <==>
            open && (s.sizeUsd <= 0.0
                     || (TheWalk(b, sig, s, q).filledSize > 0.0 && !TooDear(sig, s, TheWalk(b, sig, s, q)) && fee.None?)))
      && (!out.Executed? ==> b' == b)
  {
    hide Sum, Owned, W.WalkResult, Walked, GatesOpen, EarlyMiss, BookFill, Value, OverCap, UnderFloor, CashLeft;
    EarlyMissIff(b, sig, s);
    if s.sizeUsd > 0.0 {
      WalkFills(b, sig, s, q);
    }
  }

  /** The last two gates look at the exact cost of the fill, and only for a BUY. */
  lemma LastGatesIff(b: Book, sig: Signal, s: Settings, q: Quote, fee: Option<real>)
    ensures var (b', out) := Attempt(b, sig, s, q, fee); var walks := Walks(b, sig, s, q, fee);
      && (walks ==> TheWalk(b, sig, s, q).fillPrice.Some?)
      && (out == Skipped(ExposureCap) <==>
            FirstClosed(b, sig, s, ExposureCap)
            || (walks && sig.side.Buy? && OverCap(b, sig, s, CostOf(TheWalk(b, sig, s, q), fee.value))))
      && (out == Skipped(BankrollInsufficient) <==>
            FirstClosed(b, sig, s, BankrollInsufficient)
            || (walks && sig.side.Buy? && !OverCap(b, sig, s, CostOf(TheWalk(b, sig, s, q), fee.value))
                && CostOf(TheWalk(b, sig, s, q), fee.value) > CashLeft(b)))
      && (out.Executed? <==>
            walks && (sig.side.Buy? ==>
                        !OverCap(b, sig, s, CostOf(TheWalk(b, sig, s, q), fee.value))
                        && CostOf(TheWalk(b, sig, s, q), fee.value) <= CashLeft(b)))
      && (out.Executed? ==>
            var r := TheWalk(b, sig, s, q);
            out.fill == Fill(sig.key.wallet, sig.key.market, Leg(sig.key.outcome, sig.side, r.filledSize, r.fillPrice.value, fee.value)))
  {
    hide Sum, Owned, W.WalkResult, Walked, FirstClosed, GatesOpen, EarlyMiss, BookFill, Value;
    EarlyMissIff(b, sig, s);
    if s.sizeUsd > 0.0 {
      WalkFills(b, sig, s, q);
    }
  }

  // ---------- what an executed signal is worth ----------

  /**
   An executed BUY got the most shares its money could buy from the quoted asks; an executed SELL raised
   the most money the quoted bids would pay for no more than the shares owned, within its size.
   */
  lemma ExecutedIsBest(b: Book, sig: Signal, s: Settings, q: Quote, fee: Option<real>, a: seq<real>)
    requires Attempt(b, sig, s, q, fee).1.Executed?
    ensures var leg := Attempt(b, sig, s, q, fee).1.fill.leg;
      && (sig.side.Buy? && S.OnBook(q.asks, a) && S.Spent(q.asks, a) <= s.sizeUsd ==> W.Total(a) <= leg.size)
      && (sig.side.Sell? && S.OnBook(q.bids, a) && S.Spent(q.bids, a) <= s.sizeUsd && W.Total(a) <= Owned(b.rows, sig.key) ==>
            S.Spent(q.bids, a) <= Value(leg.size, leg.price))
  {
    hide Sum, Owned, W.WalkResult, W.Sorted, W.WalkedSide, FirstClosed, GatesOpen, Attempt, OverCap, W.Total, S.OnBook;
    LastGatesIff(b, sig, s, q, fee);
    if sig.side.Buy? {
      S.BuyIsBestOnAsks(q.bids, q.asks, s.sizeUsd, None);
    } else {
      S.SellIsBestOnBids(q.bids, q.asks, s.sizeUsd, Some(Owned(b.rows, sig.key)));
      WorthIsValue(TheWalk(b, sig, s, q));
    }
  }

  lemma WorthIsValue(r: W.FillResult)
    requires r.fillPrice.Some?
    ensures S.Worth(r) == Value(r.filledSize, r.fillPrice.value)
  {
  }

  // ---------- settling ----------

  /** The market resolved while shares were held and the row was not settled yet. */
  predicate Owes(b: Book, i: nat)
    requires i < |b.rows|
  {
    b.rows[i].qty > 0.0 && b.rows[i].settledPnl.None? && b.rows[i].key.market in b.settlements
  }

  /** What a row makes: a winning share pays one, a losing one nothing, and its average cost is gone. */
  function Gain(b: Book, i: nat): real
    requires i < |b.rows| && b.rows[i].key.market in b.settlements
  {
    var p := b.rows[i];
    if p.key.outcome == b.settlements[p.key.market] then Value(p.qty, 1.0) - Value(p.qty, p.avg) else -Value(p.qty, p.avg)
  }

  /** The gains of the rows from `i` on that are owed them. */
  function Gains(b: Book, i: nat): real
    requires i <= |b.rows|
    decreases |b.rows| - i
  {
    if i == |b.rows| then 0.0 else (if Owes(b, i) then Gain(b, i) else 0.0) + Gains(b, i + 1)
  }

  /** A row settled with its gain, its shares gone. */
  ghost predicate SettledWith(p: Position, q: Position, gain: real) {
    q == p.(settledPnl := Some(gain), realized := p.realized + gain, qty := 0.0)
  }

  lemma GainIsDelta(b: Book, i: nat)
    requires i < |b.rows| && b.rows[i].key.market in b.settlements
    ensures SettleDelta(b.rows[i], b.settlements[b.rows[i].key.market]) == Gain(b, i)
  {
    var p := b.rows[i];
    ValueSplits(1.0, 0.0, p.qty);
    ValueSplits(if p.key.outcome == b.settlements[p.key.market] then 1.0 else 0.0, p.avg, p.qty);
  }

  /** Gains of later rows do not look at earlier ones, nor at the account. */
  lemma {:induction false} GainsLater(b: Book, b': Book, i: nat)
    requires i <= |b.rows| == |b'.rows| && b.rows[i..] == b'.rows[i..] && b.settlements == b'.settlements
    ensures Gains(b, i) == Gains(b', i)
    decreases |b.rows| - i
  {
    hide Value;
    if i < |b.rows| {
      assert b.rows[i] == b.rows[i..][0] == b'.rows[i..][0] == b'.rows[i];
      assert b.rows[i + 1..] == b.rows[i..][1..] && b'.rows[i + 1..] == b'.rows[i..][1..];
      GainsLater(b, b', i + 1);
    }
  }

  lemma {:induction false} SettlesFrom(b: Book, i: nat)
    requires i <= |b.rows|
    ensures var b' := SettleFrom(b, i);
      && |b'.rows| == |b.rows| && b'.rows[..i] == b.rows[..i]
      && (forall k :: i <= k < |b.rows| ==> if Owes(b, k) then SettledWith(b.rows[k], b'.rows[k], Gain(b, k)) else b'.rows[k] == b.rows[k])
      && b'.funds.account == b.funds.account.(realized := b.funds.account.realized + Gains(b, i))
      && b' == b.(rows := b'.rows, funds := b'.funds)
    decreases |b.rows| - i
  {
    hide Value, B.Post, Gain, SettleDelta;
    if i < |b.rows| {
      if Owes(b, i) {
        GainIsDelta(b, i);
        var gain := Gain(b, i);
        var b1 := b.(rows := b.rows[i := SettledRow(b.rows[i], b.settlements[b.rows[i].key.market])], funds := B.Post(b.funds, gain));
        PostIff(b.funds, gain);
        SettlesFrom(b1, i + 1);
        GainsLater(b, b1, i + 1);
        SameGain(b, b1, i + 1);
        var b' := SettleFrom(b1, i + 1);
        assert b'.rows[i] == b'.rows[..i + 1][i] == b1.rows[i];
        assert b'.rows[..i] == b'.rows[..i + 1][..i] && b1.rows[..i + 1][..i] == b.rows[..i];
      } else {
        SettlesFrom(b, i + 1);
        var b' := SettleFrom(b, i + 1);
        assert b'.rows[i] == b'.rows[..i + 1][i] == b.rows[i];
        assert b'.rows[..i] == b'.rows[..i + 1][..i] && b.rows[..i + 1][..i] == b.rows[..i];
      }
    }
  }

  lemma SameGain(b: Book, b': Book, i: nat)
    requires |b.rows| == |b'.rows| && b.settlements == b'.settlements && (forall k :: i <= k < |b.rows| ==> b.rows[k] == b'.rows[k])
    ensures forall k :: i <= k < |b.rows| ==> Owes(b, k) == Owes(b', k) && (Owes(b, k) ==> Gain(b, k) == Gain(b', k))
  {
    hide Value;
  }

  /**
   A settlement pass settles every row that is owed one, with what its shares pay less what they cost, and
   no other; the account gains the sum; nothing else changes.
   */
  lemma SettlesExactly(b: Book)
    ensures var b' := SettleFrom(b, 0);
      && |b'.rows| == |b.rows|
      && (forall k :: 0 <= k < |b.rows| ==> if Owes(b, k) then SettledWith(b.rows[k], b'.rows[k], Gain(b, k)) else b'.rows[k] == b.rows[k])
      && b'.funds.account == b.funds.account.(realized := b.funds.account.realized + Gains(b, 0))
      && b' == b.(rows := b'.rows, funds := b'.funds)
  {
    hide SettleFrom, Gains, Gain;
    SettlesFrom(b, 0);
  }

  /** A result is recorded once, for a known market, and closes it; what is seen of a settled market later changes nothing. */
  lemma ResultIsFinal(b: Book, s: Settings, ev: Event, m: int)
    ensures var b' := Step(b, s, ev);
      && (m in b.settlements ==> m in b'.settlements && b'.settlements[m] == b.settlements[m])
      && (m !in b.settlements ==> (m in b'.settlements <==> ev.ResolveMarket? && ev.market == m && m in b.markets))
      && (m !in b.settlements && m in b'.settlements ==> b'.settlements[m] == ev.winner && b'.markets[m])
      && (m !in b.settlements && ev == MarketSeen(m, true) ==> m in b'.markets && b'.markets[m])
      && (m !in b.settlements && ev == MarketSeen(m, false) ==> m in b'.markets && !b'.markets[m])
      && (m in b.settlements && m in b.markets ==> m in b'.markets && b'.markets[m] == b.markets[m])
  {
    hide Attempt, SettleFrom, B.Sweep, Sum;
    if ev.Execute? {
      AttemptAside(b, ev.sig, s, ev.q, ev.fee);
    }
    if ev.SettlePositions? {
      SettlesExactly(b);
    }
  }

  lemma AttemptAside(b: Book, sig: Signal, s: Settings, q: Quote, fee: Option<real>)
    ensures var b' := Attempt(b, sig, s, q, fee).0; b'.settlements == b.settlements && b'.markets == b.markets
  {
    hide Sum, Owned, W.WalkResult, Walked, EarlyMiss, LateMiss, Value, B.Post, WithRow, Find, Bought, Sold, SellDelta;
  }

  // ---------- the stop-loss over a statement ----------

  /**
   No BUY is executed while the stake plus every amount on the statement is at or under a positive floor;
   and with every other gate open that is what stops it.
   */
  lemma NoBuyUnderFloor(b: Book, sig: Signal, s: Settings, q: Quote, fee: Option<real>)
    requires B.Consistent(b.funds) && sig.side.Buy?
    ensures var a, out := b.funds.account, Attempt(b, sig, s, q, fee).1;
      var under := a.stopLossFloor.Some? && a.stopLossFloor.value > 0.0 && a.starting + B.SumOf(b.funds.ledger) <= a.stopLossFloor.value;
      && (under ==> !out.Executed?)
      && (out == Skipped(StopLoss) ==> under)
      && (under && sig.key.market in b.markets && !b.markets[sig.key.market] && sig.tokenKnown && !OverCap(b, sig, s, s.sizeUsd) ==>
            out == Skipped(StopLoss))
  {
    hide Sum, Owned, Attempt, OverCap, B.SumOf, B.SumOfKind, B.PeakRealized, B.Statement;
    OutcomeIff(b, sig, s, q, fee);
    LastGatesIff(b, sig, s, q, fee);
  }

  // ---------- sweeps ----------

  /** Profit not yet withdrawn, and cash not in positions. */
  function Profit(a: B.Account): real { a.realized - a.withdrawn }
  function Idle(a: B.Account, openCost: real): real { a.starting + Profit(a) - openCost }

  predicate SweepOn(a: B.Account) {
    a.profitLimit.Some? && a.profitLimit.value > 0.0
  }

  /**
   A sweep moves money exactly when a limit is set, there is profit, the limit is reached or a remainder is
   owed, and there is idle cash; it then moves the most that both allow, as one entry of the statement, and
   owes the rest; with all profit gone it forgets what it owed; and it changes nothing else.
   */
  lemma SweepIff(f: B.Funds, openCost: real)
    ensures var a, f' := f.account, B.Sweep(f, openCost); var moved := f'.account.withdrawn - a.withdrawn;
      && (moved > 0.0 <==>
            SweepOn(a) && Profit(a) > 0.0 && (a.sweepPending || Profit(a) >= a.profitLimit.value) && Idle(a, openCost) > 0.0)
      && moved >= 0.0 && moved == B.SweepAmount(a, openCost)
      && (moved > 0.0 ==> moved <= Profit(a) && moved <= Idle(a, openCost) && (moved == Profit(a) || moved == Idle(a, openCost)))
      && (moved > 0.0 ==> f'.ledger == f.ledger + [B.Entry(B.ProfitWithdrawal, -moved, a.Balance() - moved)])
      && (moved == 0.0 ==> f'.ledger == f.ledger)
      && (f'.account.sweepPending <==> if moved > 0.0 then moved < Profit(a) else a.sweepPending && !(SweepOn(a) && Profit(a) <= 0.0))
      && f'.account == a.(withdrawn := a.withdrawn + moved, sweepPending := f'.account.sweepPending)
  {
  }

  /** The operator's limits: each one given replaces the old one, each one left out stays, and nothing else moves. */
  lemma LimitsAreKept(b: Book, s: Settings, limit: Option<real>, floor: Option<real>)
    ensures var a, a' := b.funds.account, Step(b, s, SetLimits(limit, floor)).funds.account;
      && (limit.Some? ==> a'.profitLimit == limit) && (limit.None? ==> a'.profitLimit == a.profitLimit)
      && (floor.Some? ==> a'.stopLossFloor == floor) && (floor.None? ==> a'.stopLossFloor == a.stopLossFloor)
      && a' == a.(profitLimit := a'.profitLimit, stopLossFloor := a'.stopLossFloor)
      && Step(b, s, SetLimits(limit, floor)) == b.(funds := b.funds.(account := a'))
  {
  }

  /** Posting an amount moves the realized total and one line of the statement; posting nothing leaves no line. */
  lemma PostIff(f: B.Funds, amount: real)
    ensures var f' := B.Post(f, amount);
      && f'.account == f.account.(realized := f.account.realized + amount)
      && (amount != 0.0 ==> f'.ledger == f.ledger + [B.Entry(B.RealizedPnl, amount, f.account.Balance() + amount)])
      && (amount == 0.0 ==> f'.ledger == f.ledger)
  {
  }

  /** The peak is the largest realized total after any part of the statement, the empty one included. */
  lemma {:induction false} PeakIsLargest(ledger: seq<B.Entry>)
    ensures forall n: nat :: n <= |ledger| ==> B.SumOfKind(ledger[..n], B.RealizedPnl) <= B.PeakRealized(ledger)
    ensures exists n: nat :: n <= |ledger| && B.SumOfKind(ledger[..n], B.RealizedPnl) == B.PeakRealized(ledger)
  {
    assert ledger[..|ledger|] == ledger;
    if ledger == [] {
      assert B.SumOfKind(ledger[..0], B.RealizedPnl) == B.PeakRealized(ledger);
    } else {
      var before := ledger[..|ledger| - 1];
      PeakIsLargest(before);
      forall n: nat | n <= |ledger|
        ensures B.SumOfKind(ledger[..n], B.RealizedPnl) <= B.PeakRealized(ledger)
      {
        if n < |ledger| {
          assert ledger[..n] == before[..n];
        }
      }
      if B.PeakRealized(ledger) == B.SumOfKind(ledger, B.RealizedPnl) {
        assert B.SumOfKind(ledger[..|ledger|], B.RealizedPnl) == B.PeakRealized(ledger);
      } else {
        var n: nat :| n <= |before| && B.SumOfKind(before[..n], B.RealizedPnl) == B.PeakRealized(before);
        assert ledger[..n] == before[..n];
      }
    }
  }
}
