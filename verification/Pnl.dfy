/**
 Cash-flow accounting of one market (accounting/pnl.py): shares and cash per outcome, a payout of
 one dollar a winning share, realized profit only once the market is resolved.
 */
module Pnl {
  import opened Wrappers

  datatype Side = Buy | Sell

  datatype Leg = Leg(outcome: string, side: Side, size: real, price: real, fee: real)

  function SignedSize(leg: Leg): real {
    if leg.side.Buy? then leg.size else -leg.size
  }

  function Gross(leg: Leg): real {
    if leg.side.Buy? then -leg.size * leg.price else leg.size * leg.price
  }

  /** Cash moved by a fill: fees are money out on both sides. */
  function Cash(leg: Leg): real {
    Gross(leg) - leg.fee
  }

  datatype MarketPosition = MarketPosition(shares: real, cashFlow: real)

  datatype MarketAccounting = MarketAccounting(
    outcomes: seq<string>, positions: map<string, MarketPosition>,
    payout: real, realizedPnl: Option<real>, tradeCount: nat)

  // ---------- reference definitions ----------

  /** Net shares of one outcome over a list of legs. */
  function SharesIn(legs: seq<Leg>, outcome: string): real {
    if legs == [] then 0.0
    else
      var last := legs[|legs| - 1];
      SharesIn(legs[..|legs| - 1], outcome) + (if last.outcome == outcome then SignedSize(last) else 0.0)
  }

  /** Net cash of one outcome over a list of legs. */
  function CashIn(legs: seq<Leg>, outcome: string): real {
    if legs == [] then 0.0
    else
      var last := legs[|legs| - 1];
      CashIn(legs[..|legs| - 1], outcome) + (if last.outcome == outcome then Cash(last) else 0.0)
  }

  /** Net cash of the whole market. */
  function TotalCash(legs: seq<Leg>): real {
    if legs == [] then 0.0 else TotalCash(legs[..|legs| - 1]) + Cash(legs[|legs| - 1])
  }

  function PositivePart(x: real): real { if x > 0.0 then x else 0.0 }

  /** Profit of a resolved market: all cash that moved, plus a dollar a winning share held. */
  function ResolvedPnl(legs: seq<Leg>, winner: string): real {
    TotalCash(legs) + PositivePart(SharesIn(legs, winner))
  }

  // ---------- what the definitions are worth ----------

  /** Accounts add up: two lists of legs booked one after the other, in either order, make the sum of both. */
  lemma {:induction false} AccountsAdd(a: seq<Leg>, b: seq<Leg>, outcome: string)
    ensures SharesIn(a + b, outcome) == SharesIn(a, outcome) + SharesIn(b, outcome) == SharesIn(b + a, outcome)
    ensures CashIn(a + b, outcome) == CashIn(a, outcome) + CashIn(b, outcome) == CashIn(b + a, outcome)
    ensures TotalCash(a + b) == TotalCash(a) + TotalCash(b) == TotalCash(b + a)
  {
    AccountsAddOneWay(a, b, outcome);
    AccountsAddOneWay(b, a, outcome);
  }

  lemma {:induction false} AccountsAddOneWay(a: seq<Leg>, b: seq<Leg>, outcome: string)
    ensures SharesIn(a + b, outcome) == SharesIn(a, outcome) + SharesIn(b, outcome)
    ensures CashIn(a + b, outcome) == CashIn(a, outcome) + CashIn(b, outcome)
    ensures TotalCash(a + b) == TotalCash(a) + TotalCash(b)
    decreases |b|
  {
    hide Cash, SignedSize;
    if b == [] {
      assert a + b == a;
    } else {
      var init := b[..|b| - 1];
      assert (a + b)[..|a + b| - 1] == a + init;
      AccountsAddOneWay(a, init, outcome);
    }
  }

  /**
   Profit is marked to the result - a dollar a winning share, none for the others - exactly where no winning
   shares were sold short; a short winner owes nothing here, and the profit is too high by its shares.
   */
  lemma MarkedToResultIffNotShort(legs: seq<Leg>, winner: string)
    ensures ResolvedPnl(legs, winner) == TotalCash(legs) + SharesIn(legs, winner) <==> SharesIn(legs, winner) >= 0.0
    ensures SharesIn(legs, winner) < 0.0 ==> ResolvedPnl(legs, winner) == TotalCash(legs)
  {
  }

  // ---------- the program ----------

  /** The outcomes a list of legs touches, in first-seen order, with their running positions. */
  ghost predicate Tallies(legs: seq<Leg>, outcomes: seq<string>, positions: map<string, MarketPosition>) {
    && (forall i, j :: 0 <= i < j < |outcomes| ==> outcomes[i] != outcomes[j])
    && (forall o :: o in positions <==> o in outcomes)
    && (forall o :: o in outcomes ==> positions[o] == MarketPosition(SharesIn(legs, o), CashIn(legs, o)))
    && (forall o :: o !in outcomes ==> SharesIn(legs, o) == 0.0 && CashIn(legs, o) == 0.0)
  }

  function SumCash(outcomes: seq<string>, legs: seq<Leg>): real {
    if outcomes == [] then 0.0
    else SumCash(outcomes[..|outcomes| - 1], legs) + CashIn(legs, outcomes[|outcomes| - 1])
  }

  /** Adding a leg moves exactly one outcome's cash. */
  lemma {:induction false} SumCashStep(outcomes: seq<string>, legs: seq<Leg>, leg: Leg)
    requires forall i, j :: 0 <= i < j < |outcomes| ==> outcomes[i] != outcomes[j]
    ensures SumCash(outcomes, legs + [leg])
         == SumCash(outcomes, legs) + (if leg.outcome in outcomes then Cash(leg) else 0.0)
  {
    hide Gross;
    if outcomes != [] {
      var k := |outcomes| - 1;
      SumCashStep(outcomes[..k], legs, leg);
      assert (legs + [leg])[..|legs|] == legs;
      assert outcomes == outcomes[..k] + [outcomes[k]];
    }
  }

  lemma {:induction false} SumCashNone(outcomes: seq<string>)
    ensures SumCash(outcomes, []) == 0.0
  {
    if outcomes != [] {
      SumCashNone(outcomes[..|outcomes| - 1]);
    }
  }

  lemma SumCashNewOutcome(outcomes: seq<string>, legs: seq<Leg>, o: string)
    requires CashIn(legs, o) == 0.0
    ensures SumCash(outcomes + [o], legs) == SumCash(outcomes, legs)
  {
    assert (outcomes + [o])[..|outcomes|] == outcomes;
  }

  function Booked(pos: MarketPosition, leg: Leg): MarketPosition {
    MarketPosition(pos.shares + SignedSize(leg), pos.cashFlow + Cash(leg))
  }

  /** Booking one more leg on its outcome, opened first if it is new. */
  lemma TallyStep(legs: seq<Leg>, leg: Leg, outcomes: seq<string>, positions: map<string, MarketPosition>)
    requires Tallies(legs, outcomes, positions)
    ensures leg.outcome in positions ==>
              Tallies(legs + [leg], outcomes, positions[leg.outcome := Booked(positions[leg.outcome], leg)])
    ensures leg.outcome !in positions ==>
              Tallies(legs, outcomes + [leg.outcome], positions[leg.outcome := MarketPosition(0.0, 0.0)])
  {
    hide Gross, SignedSize;
    assert (legs + [leg])[..|legs|] == legs;
  }

  /** `account_market`. */
  method AccountMarket(legs: seq<Leg>, winner: Option<string>) returns (r: MarketAccounting)
    ensures Tallies(legs, r.outcomes, r.positions) && r.tradeCount == |legs|
    ensures winner.None? ==> r.realizedPnl == None && r.payout == 0.0
    ensures winner.Some? ==> r.realizedPnl == Some(ResolvedPnl(legs, winner.value))
                             && r.payout == PositivePart(SharesIn(legs, winner.value))
  {
    var outcomes, positions := TallyLegs(legs);
    var payout, realized := 0.0, None;
    if winner.Some? {
      if winner.value in positions && positions[winner.value].shares > 0.0 {
        payout := positions[winner.value].shares;
      }
      var totalCash := 0.0;
      for i := 0 to |outcomes|
        invariant totalCash == SumCash(outcomes[..i], legs)
      {
        assert outcomes[..i + 1][..i] == outcomes[..i];
        totalCash := totalCash + positions[outcomes[i]].cashFlow;
      }
      assert outcomes[..|outcomes|] == outcomes;
      realized := Some(totalCash + payout);
    }
    r := MarketAccounting(outcomes, positions, payout, realized, |legs|);
  }

  /** The loop of `account_market` over the legs. */
  method TallyLegs(legs: seq<Leg>) returns (outcomes: seq<string>, positions: map<string, MarketPosition>)
    ensures Tallies(legs, outcomes, positions)
    ensures SumCash(outcomes, legs) == TotalCash(legs)
  {
    hide Gross, SignedSize, Tallies, SharesIn, CashIn, SumCash, TotalCash;
    outcomes, positions := [], map[];
    EmptyTally();
    assert legs[..0] == [];
    for i := 0 to |legs|
      invariant Tallies(legs[..i], outcomes, positions)
      invariant SumCash(outcomes, legs[..i]) == TotalCash(legs[..i])
    {
      var leg := legs[i];
      assert legs[..i + 1] == legs[..i] + [leg];
      if leg.outcome !in positions {
        OpenOutcome(legs[..i], leg, outcomes, positions);
        outcomes := outcomes + [leg.outcome];
        positions := positions[leg.outcome := MarketPosition(0.0, 0.0)];
      }
      BookLeg(legs[..i], leg, outcomes, positions);
      var pos := positions[leg.outcome];
      var signed := SignedSize(leg);
      var gross := Gross(leg);
      positions := positions[leg.outcome := MarketPosition(pos.shares + signed, pos.cashFlow + (gross - leg.fee))];
    }
    assert legs[..|legs|] == legs;
  }

  lemma EmptyTally()
    ensures Tallies([], [], map[]) && SumCash([], []) == TotalCash([])
  {
  }

  lemma OpenOutcome(legs: seq<Leg>, leg: Leg, outcomes: seq<string>, positions: map<string, MarketPosition>)
    requires Tallies(legs, outcomes, positions) && leg.outcome !in positions
    ensures Tallies(legs, outcomes + [leg.outcome], positions[leg.outcome := MarketPosition(0.0, 0.0)])
    ensures SumCash(outcomes + [leg.outcome], legs) == SumCash(outcomes, legs)
    ensures leg.outcome in positions[leg.outcome := MarketPosition(0.0, 0.0)]
  {
    hide SharesIn, CashIn, SumCash;
    TallyStep(legs, leg, outcomes, positions);
    SumCashNewOutcome(outcomes, legs, leg.outcome);
  }

  lemma BookLeg(legs: seq<Leg>, leg: Leg, outcomes: seq<string>, positions: map<string, MarketPosition>)
    requires Tallies(legs, outcomes, positions) && leg.outcome in positions
    ensures Tallies(legs + [leg], outcomes, positions[leg.outcome := Booked(positions[leg.outcome], leg)])
    ensures SumCash(outcomes, legs) == TotalCash(legs) ==> SumCash(outcomes, legs + [leg]) == TotalCash(legs + [leg])
  {
    hide SharesIn, CashIn, SumCash, Gross, SignedSize;
    TallyStep(legs, leg, outcomes, positions);
    SumCashStep(outcomes, legs, leg);
    assert (legs + [leg])[..|legs|] == legs;
  }
}
