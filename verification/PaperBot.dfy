/**
 The paper bot's cash side as the program has it: account fields, ledger, position rows and market
 flags updated in place, each method proved to do what the value functions of `PaperBook` say.
 */
module PaperBot {
  import opened Wrappers
  import opened Pnl
  import opened PaperBook
  import B = Bankroll
  import R = PaperBookRuns
  import W = BookWalk

  class Bot {
    var startingBankroll: real
    var realizedPnlTotal: real
    var withdrawnTotal: real
    var profitLimit: Option<real>
    var stopLossFloor: Option<real>
    var sweepPending: bool
    var ledger: seq<B.Entry>
    var positions: seq<Position>
    var fills: seq<Fill>
    var markets: map<int, bool>
    var settlements: map<int, string>

    function Account(): B.Account
      reads this
    {
      B.Account(startingBankroll, realizedPnlTotal, withdrawnTotal, profitLimit, stopLossFloor, sweepPending)
    }

    ghost function View(): Book
      reads this
    {
      Book(B.Funds(Account(), ledger), positions, fills, markets, settlements)
    }

    constructor (stake: real, limit: Option<real>, floor: Option<real>, known: map<int, bool>)
      ensures View() == R.NewBook(stake, limit, floor, known)
    {
      startingBankroll, realizedPnlTotal, withdrawnTotal := stake, 0.0, 0.0;
      profitLimit, stopLossFloor, sweepPending := limit, floor, false;
      ledger, positions, fills, markets, settlements := [], [], [], known, map[];
    }

    /** Sum of one column over the position rows. */
    method SumRows(c: Column) returns (total: real)
      ensures total == Sum(c, positions)
    {
      total := 0.0;
      for i := 0 to |positions|
        invariant total == Sum(c, positions[..i])
      {
        assert positions[..i + 1][..i] == positions[..i];
        total := total + Cell(c, positions[i]);
      }
      assert positions[..|positions|] == positions;
    }

    /** `post_realized_pnl`. */
    method PostRealizedPnl(amount: real)
      modifies `realizedPnlTotal, `ledger
      ensures View() == old(View()).(funds := B.Post(old(View()).funds, amount))
    {
      if amount == 0.0 {
        return;
      }
      realizedPnlTotal := realizedPnlTotal + amount;
      ledger := ledger + [B.Entry(B.RealizedPnl, amount, Account().Balance())];
    }

    /** `sweep_profit_if_due`. */
    method SweepProfitIfDue() returns (swept: real)
      modifies `withdrawnTotal, `sweepPending, `ledger
      ensures View() == R.SweepBook(old(View()))
      ensures swept == B.SweepAmount(old(Account()), Sum(OpenCost, old(positions)))
    {
      hide Sum;
      if profitLimit.None? || profitLimit.value <= 0.0 {
        return 0.0;
      }
      var unwithdrawn := B.Max(0.0, realizedPnlTotal - withdrawnTotal);
      if unwithdrawn <= 0.0 {
        sweepPending := false;
        return 0.0;
      }
      if !sweepPending && unwithdrawn < profitLimit.value {
        return 0.0;
      }
      var openCost := SumRows(OpenCost);
      var freeCash := B.Max(0.0, Account().Balance() - openCost);
      var amount := B.Min(unwithdrawn, freeCash);
      if amount <= 0.0 {
        return 0.0;
      }
      sweepPending := amount < unwithdrawn;
      withdrawnTotal := withdrawnTotal + amount;
      ledger := ledger + [B.Entry(B.ProfitWithdrawal, -amount, Account().Balance())];
      return amount;
    }

    /** The end of `run_execution_cycle`: a sweep that moved nothing is not committed, and the session's close undoes it. */
    method SweepAtCycleEnd() returns (swept: real)
      modifies `withdrawnTotal, `sweepPending, `ledger
      ensures View() == R.SweepCycle(old(View()))
      ensures swept == R.SweepDue(old(View()))
    {
      hide Sum;
      var withdrawn, pending, saved := withdrawnTotal, sweepPending, ledger;
      swept := SweepProfitIfDue();
      if swept <= 0.0 {
        withdrawnTotal, sweepPending, ledger := withdrawn, pending, saved;
      }
    }

    /** The BUY checks made before any book request. */
    method BuyMiss(sig: Signal, s: Settings) returns (miss: Option<Miss>, globalExp: real, marketExp: real, cash: real)
      requires sig.side.Buy? && sig.key.market in markets && !markets[sig.key.market] && sig.tokenKnown
      ensures miss == EarlyMiss(View(), sig, s)
      ensures globalExp == Sum(Exposure, positions) && marketExp == Sum(ExposureIn(sig.key.market), positions)
      ensures cash == Account().Balance() - globalExp
    {
      globalExp := SumRows(Exposure);
      marketExp := SumRows(ExposureIn(sig.key.market));
      cash := Account().Balance() - globalExp;
      if globalExp + s.sizeUsd > s.maxGlobal || marketExp + s.sizeUsd > s.maxPerMarket {
        miss := Some(ExposureCap);
      } else if Account().StopLossHit() {
        miss := Some(StopLoss);
      } else if cash <= 0.0 {
        miss := Some(BankrollInsufficient);
      } else {
        miss := None;
      }
    }

    /** `execute_signal` from the market gate on. */
    method ExecuteSignal(sig: Signal, s: Settings, q: Quote, fee: Option<real>) returns (r: Attempted)
      modifies `positions, `fills, `realizedPnlTotal, `ledger
      ensures (View(), r) == Attempt(old(View()), sig, s, q, fee)
    {
      hide Sum, Value, Bought, Sold, SellDelta, B.Post, W.WalkResult, W.Takes, W.Sorted;
      if sig.key.market !in markets || markets[sig.key.market] {
        return Skipped(MarketClosed);
      }
      if !sig.tokenKnown {
        return Skipped(NoToken);
      }
      var owned: Option<real> := None;
      if sig.side.Sell? {
        owned := Some(Owned(positions, sig.key));
        if owned.value <= 0.0 {
          return Skipped(NoPositionToSell);
        }
      }
      var globalExp, marketExp, cash := 0.0, 0.0, 0.0;
      if sig.side.Buy? {
        var miss;
        miss, globalExp, marketExp, cash := BuyMiss(sig, s);
        if miss.Some? {
          return Skipped(miss.value);
        }
      }
      assert EarlyMiss(View(), sig, s) == None;
      var walked := W.WalkBook(SideName(sig.side), s.sizeUsd, q.bids, q.asks, owned);
      if walked.Err? {
        return Raised;
      }
      var result := walked.value;
      assert result == W.WalkResult(Walked(sig.side, q), s.sizeUsd, owned);
      if result.status.Missed? {
        return Skipped(NoBookDepth);
      }
      if sig.side.Buy? && result.fillPrice.value >= s.maxCopyPrice {
        return Skipped(PriceZone);
      }
      if fee.None? {
        return Raised;
      }
      var cost := Value(result.filledSize, result.fillPrice.value) + fee.value;
      if sig.side.Buy? && (globalExp + cost > s.maxGlobal || marketExp + cost > s.maxPerMarket) {
        return Skipped(ExposureCap);
      }
      if sig.side.Buy? && cost > cash {
        return Skipped(BankrollInsufficient);
      }
      var fill := Fill(sig.key.wallet, sig.key.market,
                       Leg(sig.key.outcome, sig.side, result.filledSize, result.fillPrice.value, fee.value));
      RecordFill(fill);
      return Executed(fill);
    }

    /** The order row and the position update of an executed fill. */
    method RecordFill(fill: Fill)
      modifies `positions, `fills, `realizedPnlTotal, `ledger
      ensures View() == BookFill(old(View()), fill)
    {
      hide Value, B.Post;
      var key, leg := fill.PositionKey(), fill.leg;
      fills := fills + [fill];
      var i := Find(positions, key);
      if i == |positions| {
        positions := positions + [FreshRow(key)];
      }
      var position := positions[i];
      if leg.side.Buy? {
        var newQty := position.qty + leg.size;
        var newAvg := if newQty > 0.0
                      then (Value(position.qty, position.avg) + Value(leg.size, leg.price) + leg.fee) / newQty
                      else 0.0;
        positions := positions[i := position.(qty := newQty, avg := newAvg)];
      } else {
        var sellQty := B.Min(position.qty, leg.size);
        var delta := Value(sellQty, leg.price - position.avg) - leg.fee;
        positions := positions[i := position.(realized := position.realized + delta, qty := position.qty - sellQty)];
        PostRealizedPnl(delta);
      }
    }

    /** `settle_paper_positions`: every open row of a resolved market, exactly once. */
    method SettlePaperPositions() returns (settled: nat)
      modifies `positions, `realizedPnlTotal, `ledger
      ensures View() == SettleFrom(old(View()), 0)
      ensures settled == DueCount(old(positions), settlements)
    {
      hide Value, B.Post;
      settled := 0;
      var i := 0;
      while i < |positions|
        invariant 0 <= i <= |positions|
        invariant SettleFrom(View(), i) == SettleFrom(old(View()), 0)
        invariant |positions| == |old(positions)| && positions[i..] == old(positions)[i..]
        invariant settled + DueCount(positions[i..], settlements) == DueCount(old(positions), settlements)
        invariant settlements == old(settlements) && fills == old(fills) && markets == old(markets)
      {
        var position := positions[i];
        assert positions[i..][0] == position && positions[i..][1..] == positions[i + 1..];
        if position.qty > 0.0 && position.settledPnl.None? && position.key.market in settlements {
          var won := position.key.outcome == settlements[position.key.market];
          var settlePrice := if won then 1.0 else 0.0;
          var delta := Value(position.qty, settlePrice - position.avg);
          positions := positions[i := position.(settledPnl := Some(delta), realized := position.realized + delta, qty := 0.0)];
          settled := settled + 1;
          PostRealizedPnl(delta);
        }
        i := i + 1;
      }
      assert positions[i..] == [];
    }
  }

  function DueCount(rows: seq<Position>, settlements: map<int, string>): nat {
    if rows == [] then 0 else (if Due(rows[0], settlements) then 1 else 0) + DueCount(rows[1..], settlements)
  }

  /** Settling is idempotent: a second pass finds nothing due and changes nothing. */
  lemma SettlingTwiceIsOnce(b: Book)
    requires R.RowsOk(b)
    ensures SettleFrom(SettleFrom(b, 0), 0) == SettleFrom(b, 0)
  {
    SettleLeavesNoneDue(b, 0);
    NothingDueNothingSettled(SettleFrom(b, 0), 0);
  }

  lemma {:induction false} SettleLeavesNoneDue(b: Book, i: nat)
    requires i <= |b.rows| && forall j :: 0 <= j < i ==> !Due(b.rows[j], b.settlements)
    ensures var b' := SettleFrom(b, i);
      |b'.rows| == |b.rows| && b'.settlements == b.settlements && forall j :: 0 <= j < |b.rows| ==> !Due(b'.rows[j], b.settlements)
    decreases |b.rows| - i
  {
    hide B.Post;
    if i < |b.rows| {
      if Due(b.rows[i], b.settlements) {
        var p := b.rows[i];
        var winner := b.settlements[p.key.market];
        SettleLeavesNoneDue(b.(rows := b.rows[i := SettledRow(p, winner)], funds := B.Post(b.funds, SettleDelta(p, winner))), i + 1);
      } else {
        SettleLeavesNoneDue(b, i + 1);
      }
    }
  }

  lemma {:induction false} NothingDueNothingSettled(b: Book, i: nat)
    requires i <= |b.rows| && forall j :: i <= j < |b.rows| ==> !Due(b.rows[j], b.settlements)
    ensures SettleFrom(b, i) == b
    decreases |b.rows| - i
  {
    if i < |b.rows| {
      NothingDueNothingSettled(b, i + 1);
    }
  }
}
