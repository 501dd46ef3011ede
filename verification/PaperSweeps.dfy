/**
 Profit sweeps over whole runs (bankroll.py, run_execution_cycle): a sweep below the limit is meant to
 finish an earlier, partial one.  The program keeps the flag that says so, but the reset it makes when
 losses eat the remainder moves no money, and a cycle that moves none commits nothing.
 */
module PaperSweeps {
  import opened Wrappers
  import opened Pnl
  import opened PaperBook
  import opened PaperBookRuns
  import opened PaperFees
  import B = Bankroll
  import W = BookWalk

  /** Losses ate what was left to withdraw: the branch that clears the flag. */
  predicate Eaten(a: B.Account) {
    a.profitLimit.Some? && a.profitLimit.value > 0.0 && a.Unwithdrawn() <= 0.0
  }

  /** What the flag is for: the last sweep was partial and no sweep turn since found the remainder eaten. */
  ghost predicate RemainderOwed(start: Book, s: Settings, evs: seq<Event>) {
    if evs == [] then start.funds.account.sweepPending
    else
      var before := evs[..|evs| - 1];
      var b := Run(start, s, before);
      if !evs[|evs| - 1].SweepProfit? then RemainderOwed(start, s, before)
      else if SweepDue(b) > 0.0 then SweepDue(b) < b.funds.account.Unwithdrawn()
      else RemainderOwed(start, s, before) && !Eaten(b.funds.account)
  }

  /** Since the last sweep that moved money, a sweep turn found the remainder eaten and the flag set. */
  ghost predicate ResetLost(start: Book, s: Settings, evs: seq<Event>) {
    if evs == [] then false
    else
      var before := evs[..|evs| - 1];
      var b := Run(start, s, before);
      if !evs[|evs| - 1].SweepProfit? then ResetLost(start, s, before)
      else if SweepDue(b) > 0.0 then false
      else ResetLost(start, s, before) || (Eaten(b.funds.account) && b.funds.account.sweepPending)
  }

  /** Only a sweep that moves money touches the flag. */
  lemma StepFlag(b: Book, s: Settings, ev: Event)
    ensures var a, a' := b.funds.account, Step(b, s, ev).funds.account;
      a'.sweepPending == if ev.SweepProfit? && SweepDue(b) > 0.0 then SweepDue(b) < a.Unwithdrawn() else a.sweepPending
  {
    hide Sum, Value, EarlyMiss, LateMiss, W.WalkResult, Walked, SettleDelta, SellDelta;
    match ev
    case Execute(_, _, _) =>
    case SettlePositions => SettleFlag(b, 0);
    case SweepProfit =>
    case SetLimits(_, _) =>
    case ResolveMarket(_, _) =>
    case MarketSeen(_, _) =>
  }

  lemma {:induction false} SettleFlag(b: Book, i: nat)
    requires i <= |b.rows|
    ensures SettleFrom(b, i).funds.account.sweepPending == b.funds.account.sweepPending
    decreases |b.rows| - i
  {
    hide SettleDelta;
    if i < |b.rows| {
      if Due(b.rows[i], b.settlements) {
        var p := b.rows[i];
        var winner := b.settlements[p.key.market];
        SettleFlag(b.(rows := b.rows[i := SettledRow(p, winner)], funds := B.Post(b.funds, SettleDelta(p, winner))), i + 1);
      } else {
        SettleFlag(b, i + 1);
      }
    }
  }

  /** The kept flag is right but for the resets lost. */
  lemma {:induction false} FlagIsOwedOrLost(start: Book, s: Settings, evs: seq<Event>)
    ensures Run(start, s, evs).funds.account.sweepPending <==> RemainderOwed(start, s, evs) || ResetLost(start, s, evs)
    ensures !(RemainderOwed(start, s, evs) && ResetLost(start, s, evs))
    decreases |evs|
  {
    hide Step, SweepDue;
    if evs != [] {
      FlagIsOwedOrLost(start, s, evs[..|evs| - 1]);
      StepFlag(Run(start, s, evs[..|evs| - 1]), s, evs[|evs| - 1]);
    }
  }

  /**
   Over every run: a sweep that moves money below the profit limit finishes a partial one - unless,
   and only unless, an earlier turn's reset was lost.
   */
  lemma SweepBelowLimitIffResetLost(start: Book, s: Settings, evs: seq<Event>)
    requires SweepDue(Run(start, s, evs)) > 0.0
    ensures var a := Run(start, s, evs).funds.account;
      && a.profitLimit.Some?
      && (a.Unwithdrawn() >= a.profitLimit.value || RemainderOwed(start, s, evs)
          <==> a.Unwithdrawn() >= a.profitLimit.value || !ResetLost(start, s, evs))
  {
    hide Step, Sum;
    FlagIsOwedOrLost(start, s, evs);
  }

  // ---------- a lost reset ----------

  const RICH: seq<W.BookLevel> := [W.BookLevel(W.Finite(1.0), W.Finite(2.0))]
  const TOP: Quote := Quote(RICH, RICH)
  const TWO: W.Level := W.Level(1.0, 2.0)

  lemma WalkedRich()
    ensures Walked(Sell, TOP) == [TWO]
  {
    assert RICH[1..] == [];
    assert W.UsableLevels(RICH) == [TWO];
    assert [TWO][1..] == [];
    assert W.Sorted([], true) == [];
    assert W.Insert(TWO, [], true) == [TWO];
  }

  lemma WalkRich(held: real)
    requires held >= 2.0
    ensures W.Walkable([TWO])
    ensures var r := W.WalkResult([TWO], 2.0, Some(held)); r.status.Filled? && r.filledSize == 2.0 && r.fillPrice == Some(1.0)
  {
    assert [TWO][1..] == [];
    var g := W.Takes([TWO], 2.0, Some(held));
    assert W.TakeAt(TWO, 2.0, Some(held)) == 2.0;
    assert g == [2.0];
    assert g[1..] == [];
    assert W.Cost(1.0, 2.0) == 2.0 && W.Cost(2.0, 1.0) == 2.0;
    assert W.Total(g) == 2.0;
    assert W.Notional([TWO], g) == 2.0;
  }

  /** One holding at average price 0.5, a stake of 2.5 and a profit limit of 1. */
  predicate Holds(b: Book, qty: real, realized: real, withdrawn: real, pending: bool) {
    && b.rows == [Position(HOLDING, qty, 0.5, realized, None)]
    && b.funds.account == B.Account(2.5, realized, withdrawn, Some(1.0), None, pending)
    && b.markets == map[1 := false]
  }

  lemma HeldSums(qty: real, realized: real)
    ensures var rows := [Position(HOLDING, qty, 0.5, realized, None)];
      && (qty >= 0.0 ==> Sum(Exposure, rows) == Sum(ExposureIn(1), rows) == Sum(OpenCost, rows) == qty * 0.5)
      && Find(rows, HOLDING) == 0 && Owned(rows, HOLDING) == qty && WithRow(rows, HOLDING) == rows
  {
    var rows := [Position(HOLDING, qty, 0.5, realized, None)];
    assert rows[..0] == [];
    assert Sum(Exposure, []) == 0.0 && Sum(ExposureIn(1), []) == 0.0 && Sum(OpenCost, []) == 0.0;
  }

  function Trade(side: Side, q: Quote, fee: real): Event {
    Execute(Signal(HOLDING, side, true), q, Some(fee))
  }

  lemma FirstBuy()
    ensures Holds(Step(NewBook(2.5, Some(1.0), None, map[1 := false]), LIMITS, Trade(Buy, QUOTE, 0.0)), 4.0, 0.0, 0.0, false)
  {
    WalkedThin(Buy);
    WalkThin(None);
    assert Sum(Exposure, []) == 0.0 && Sum(ExposureIn(1), []) == 0.0;
    assert Find([], HOLDING) == 0;
    assert WithRow([], HOLDING) == [FreshRow(HOLDING)];
  }

  lemma BuyFour(b: Book)
    requires Holds(b, 2.0, 1.0, 0.0, false)
    ensures Holds(Step(b, LIMITS, Trade(Buy, QUOTE, 0.0)), 6.0, 1.0, 0.0, false)
  {
    hide Sum, Find, Owned, WithRow, W.WalkResult, Walked, W.Walkable;
    WalkedThin(Buy);
    WalkThin(None);
    HeldSums(2.0, 1.0);
  }

  lemma SellFour(b: Book, qty: real, realized: real, withdrawn: real, pending: bool, fee: real)
    requires Holds(b, qty, realized, withdrawn, pending) && qty >= 4.0 && fee >= 0.0
    ensures Holds(Step(b, LIMITS, Trade(Sell, QUOTE, fee)), qty - 4.0, realized - fee, withdrawn, pending)
  {
    hide Sum, Find, Owned, WithRow, W.WalkResult, Walked, W.Walkable;
    WalkedThin(Sell);
    WalkThin(Some(qty));
    HeldSums(qty, realized);
  }

  lemma SellTwo(b: Book, qty: real, realized: real, withdrawn: real, pending: bool, fee: real)
    requires Holds(b, qty, realized, withdrawn, pending) && qty >= 2.0 && fee >= 0.0
    ensures Holds(Step(b, LIMITS, Trade(Sell, TOP, fee)), qty - 2.0, realized + 1.0 - fee, withdrawn, pending)
  {
    hide Sum, Find, Owned, WithRow, W.WalkResult, Walked, W.Walkable;
    WalkedRich();
    WalkRich(qty);
    HeldSums(qty, realized);
  }

  const START: Book := NewBook(2.5, Some(1.0), None, map[1 := false])
  const EVENTS: seq<Event> := [
    Trade(Buy, QUOTE, 0.0), Trade(Sell, TOP, 0.0), Trade(Buy, QUOTE, 0.0), SweepProfit,
    Trade(Sell, QUOTE, 0.5), SweepProfit, Trade(Sell, TOP, 0.5)]

  lemma RunGrows(n: nat)
    requires n < |EVENTS|
    ensures Run(START, LIMITS, EVENTS[..n + 1]) == Step(Run(START, LIMITS, EVENTS[..n]), LIMITS, EVENTS[n])
  {
    hide Step;
    assert EVENTS[..n + 1][..n] == EVENTS[..n];
  }

  lemma PartialSweep()
    ensures Holds(Run(START, LIMITS, EVENTS[..4]), 6.0, 1.0, 0.5, true)
  {
    hide Attempt, Sum, Run;
    assert Run(START, LIMITS, EVENTS[..0]) == START by { EmptyRun(); }
    RunGrows(0);
    FirstBuy();
    RunGrows(1);
    SellTwo(Run(START, LIMITS, EVENTS[..1]), 4.0, 0.0, 0.0, false, 0.0);
    RunGrows(2);
    BuyFour(Run(START, LIMITS, EVENTS[..2]));
    RunGrows(3);
    HeldSums(6.0, 1.0);
  }

  lemma EmptyRun()
    ensures Run(START, LIMITS, EVENTS[..0]) == START
  {
  }

  lemma EatenThenGained()
    ensures var b := Run(START, LIMITS, EVENTS[..5]); Eaten(b.funds.account) && b.funds.account.sweepPending && SweepDue(b) == 0.0
    ensures Holds(Run(START, LIMITS, EVENTS[..7]), 0.0, 1.0, 0.5, true)
  {
    hide Attempt, Sum, Run;
    PartialSweep();
    RunGrows(4);
    SellFour(Run(START, LIMITS, EVENTS[..4]), 6.0, 1.0, 0.5, true, 0.5);
    RunGrows(5);
    HeldSums(2.0, 0.5);
    RunGrows(6);
    SellTwo(Run(START, LIMITS, EVENTS[..6]), 2.0, 0.5, 0.5, true, 0.5);
  }

  /**
   A reachable early sweep, profit limit 1: a partial sweep of 0.5 while 3 are deployed, a loss that
   eats the remainder, a sweep turn whose reset is lost, and a gain of 0.5 - swept at once.
   */
  lemma LostResetSweepsEarly()
    ensures var b := Run(START, LIMITS, EVENTS);
      SweepDue(b) == b.funds.account.Unwithdrawn() == 0.5 && b.funds.account.profitLimit == Some(1.0)
    ensures ResetLost(START, LIMITS, EVENTS) && !RemainderOwed(START, LIMITS, EVENTS)
  {
    hide Attempt, Sum, Run, Step;
    EatenThenGained();
    HeldSums(0.0, 1.0);
    assert EVENTS[..7] == EVENTS;
    assert EVENTS[..7][..6] == EVENTS[..6] && EVENTS[..6][..5] == EVENTS[..5];
    FlagIsOwedOrLost(START, LIMITS, EVENTS);
  }
}
