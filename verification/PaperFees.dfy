/**
 The taker fee curve (execution/fees.py) against the paper cash: any finite nonnegative rate and
 exponent is taken from the market, so a SELL fee may exceed what the sale raises.
 */
module PaperFees {
  import opened Wrappers
  import opened Pnl
  import opened PaperBook
  import opened PaperBookRuns
  import W = BookWalk

  /** What is used of a power function on [0, 1], the exponent any real. */
  type Power = (real, real) -> real

  ghost predicate PowerLaws(pow: Power) {
    && (forall x :: pow(x, 0.0) == 1.0)
    && (forall x :: pow(x, 1.0) == x)
    && (forall x, e :: 0.0 <= x <= 1.0 && e >= 1.0 ==> 0.0 <= pow(x, e) <= x)
  }

  /** The fee before rounding. */
  function RawFee(pow: Power, shares: real, rate: real, e: real, price: real): real {
    Value(Value(shares, rate), pow(Value(price, 1.0 - price), e))
  }

  const QUANTA: real := 100000.0
  const HALF_QUANTUM: real := 0.000005

  /** Five places, halves up. */
  function Quantized(x: real): real {
    (x * QUANTA + 0.5).Floor as real / QUANTA
  }

  /** `taker_fee`: a zero rate charges nothing whatever the power. */
  function TakerFee(pow: Power, shares: real, rate: real, e: real, price: real): real {
    if rate == 0.0 then 0.0 else Quantized(RawFee(pow, shares, rate, e, price))
  }

  /** Whole-number powers are one such function. */
  function WholePower(x: real, e: nat): real {
    if e == 0 then 1.0 else Value(x, WholePower(x, e - 1))
  }

  function FloorPower(x: real, e: real): real {
    WholePower(x, if e < 0.0 then 0 else e.Floor)
  }

  lemma PowerExists()
    ensures PowerLaws(FloorPower)
  {
    hide FloorPower;
    forall x: real
      ensures FloorPower(x, 0.0) == 1.0 && FloorPower(x, 1.0) == x
    {
      FloorPowerAt(x);
    }
    forall x: real, e: real | 0.0 <= x <= 1.0 && e >= 1.0
      ensures 0.0 <= FloorPower(x, e) <= x
    {
      FloorPowerShrinks(x, e);
    }
  }

  lemma FloorPowerAt(x: real)
    ensures FloorPower(x, 0.0) == 1.0 && FloorPower(x, 1.0) == x
  {
    hide Value;
    TimesOne(x);
    assert (0.0).Floor == 0 && (1.0).Floor == 1;
    assert WholePower(x, 0) == 1.0;
  }

  lemma FloorPowerShrinks(x: real, e: real)
    requires 0.0 <= x <= 1.0 && e >= 1.0
    ensures 0.0 <= FloorPower(x, e) <= x
  {
    WholePowerShrinks(x, e.Floor);
  }

  lemma {:induction false} WholePowerShrinks(x: real, e: nat)
    requires 0.0 <= x <= 1.0 && e > 0
    ensures 0.0 <= WholePower(x, e) <= x
  {
    hide Value;
    if e == 1 {
      TimesOne(x);
      assert WholePower(x, 0) == 1.0;
    } else {
      WholePowerShrinks(x, e - 1);
      ProductShrinks(x, WholePower(x, e - 1));
    }
  }

  lemma TimesOne(x: real)
    ensures Value(x, 1.0) == x
  {
  }

  lemma TimesNonnegative(x: real, y: real)
    requires x >= 0.0 && y >= 0.0
    ensures x * y >= 0.0
  {
  }

  lemma ProductShrinks(x: real, y: real)
    requires 0.0 <= x <= 1.0 && 0.0 <= y <= 1.0
    ensures 0.0 <= Value(x, y) <= x
  {
    TimesNonnegative(x, 1.0 - y);
    TimesNonnegative(x, y);
  }

  /** On a curve with rate at most 1 and exponent at least 1, the unrounded fee is covered by the proceeds. */
  lemma RawFeeIsCovered(pow: Power, shares: real, rate: real, e: real, price: real)
    requires PowerLaws(pow) && shares > 0.0 && 0.0 <= rate <= 1.0 && e >= 1.0 && 0.0 < price <= 1.0
    ensures 0.0 <= RawFee(pow, shares, rate, e, price) <= Value(shares, price)
  {
    hide Value;
    var spread := Value(price, 1.0 - price);
    ProductShrinks(price, 1.0 - price);
    var p := pow(spread, e);
    ProductShrinks(p, rate);
    Scales(shares, rate, p, price);
  }

  lemma Scales(shares: real, rate: real, p: real, price: real)
    requires shares > 0.0 && 0.0 <= Value(p, rate) <= price
    ensures 0.0 <= Value(Value(shares, rate), p) <= Value(shares, price)
  {
    var x := p * rate;
    assert shares * rate * p == shares * x;
    assert shares * (price - x) >= 0.0;
  }

  /**
   Rounding moves an amount by half a quantum at most, up or down.  It lifts it above a bound exactly when
   the amount reaches the midpoint over the last whole quantum in that bound.
   */
  lemma QuantizedCoveredIff(raw: real, bound: real)
    requires raw >= 0.0
    ensures 0.0 <= Quantized(raw) <= raw + HALF_QUANTUM
    ensures Quantized(raw) <= bound <==> raw * QUANTA < (bound * QUANTA).Floor as real + 0.5
  {
    var n := (raw * QUANTA + 0.5).Floor;
    assert n as real <= raw * QUANTA + 0.5 < n as real + 1.0;
    assert Quantized(raw) <= bound <==> n as real <= bound * QUANTA;
    var k := (bound * QUANTA).Floor;
    assert n as real <= bound * QUANTA <==> n <= k;
  }

  /** The fee charged on a sale exceeds what the sale raises exactly when it is rounded up past it. */
  predicate Dust(raw: real, proceeds: real) {
    raw * QUANTA >= (proceeds * QUANTA).Floor as real + 0.5
  }

  /** A SELL fee on such a curve: at most half a quantum above the proceeds, and covered exactly but for dust. */
  lemma CurveFeeIsCovered(pow: Power, shares: real, rate: real, e: real, price: real)
    requires PowerLaws(pow) && shares > 0.0 && 0.0 <= rate <= 1.0 && e >= 1.0 && 0.0 < price <= 1.0
    ensures var fee, proceeds := TakerFee(pow, shares, rate, e, price), Value(shares, price);
      && 0.0 <= fee <= proceeds + HALF_QUANTUM
      && (fee <= proceeds <==> rate == 0.0 || !Dust(RawFee(pow, shares, rate, e, price), proceeds))
  {
    hide Value, Quantized, RawFee;
    RawFeeIsCovered(pow, shares, rate, e, price);
    QuantizedCoveredIff(RawFee(pow, shares, rate, e, price), Value(shares, price));
  }

  /** Dust there is: 0.000056 shares at 0.1, rate 1, exponent 1, pay 0.00001 on 0.0000056. */
  lemma DustSaleOverpays(pow: Power)
    requires PowerLaws(pow)
    ensures TakerFee(pow, 0.000056, 1.0, 1.0, 0.1) == 0.00001 && Value(0.000056, 0.1) == 0.0000056
  {
    assert pow(0.09, 1.0) == 0.09;
    assert RawFee(pow, 0.000056, 1.0, 1.0, 0.1) == 0.00000504;
    assert (0.00000504 * QUANTA + 0.5).Floor == 1;
  }

  /** A market's taker curve. */
  datatype Curve = Curve(rate: real, exponent: real)

  ghost predicate Gentle(curve: int -> Curve) {
    forall m :: 0.0 <= curve(m).rate <= 1.0 && curve(m).exponent >= 1.0
  }

  /** Fees are nonnegative, and an executed fill's fee is the curve's. */
  ghost predicate OnCurve(pow: Power, b: Book, s: Settings, ev: Event, curve: int -> Curve) {
    ev.Execute? ==>
      && (ev.fee.Some? ==> ev.fee.value >= 0.0)
      && var outcome := Attempt(b, ev.sig, s, ev.q, ev.fee).1;
      outcome.Executed? ==>
        var c, leg := curve(outcome.fill.market), outcome.fill.leg;
        leg.fee == TakerFee(pow, leg.size, c.rate, c.exponent, leg.price)
  }

  ghost predicate RunOnCurve(pow: Power, b: Book, s: Settings, evs: seq<Event>, curve: int -> Curve) {
    evs != [] ==>
      && RunOnCurve(pow, b, s, evs[..|evs| - 1], curve)
      && OnCurve(pow, Run(b, s, evs[..|evs| - 1]), s, evs[|evs| - 1], curve)
  }

  /** SELL signals of a run. */
  function Sells(evs: seq<Event>): nat {
    if evs == [] then 0
    else Sells(evs[..|evs| - 1]) + if evs[|evs| - 1].Execute? && evs[|evs| - 1].sig.side.Sell? then 1 else 0
  }

  /** Half a quantum for every SELL signal. */
  function Slack(evs: seq<Event>): real {
    Sells(evs) as real * HALF_QUANTUM
  }

  lemma SlackGrows(evs: seq<Event>)
    requires evs != []
    ensures var ev := evs[|evs| - 1];
      Slack(evs) == Slack(evs[..|evs| - 1]) + (if ev.Execute? && ev.sig.side.Sell? then HALF_QUANTUM else 0.0)
    ensures Slack(evs[..|evs| - 1]) >= 0.0
  {
  }

  lemma CurveFeesWithin(pow: Power, b: Book, s: Settings, ev: Event, curve: int -> Curve, was: real)
    requires PowerLaws(pow) && OnCurve(pow, b, s, ev, curve) && Gentle(curve) && FreeCash(b) >= was
    ensures FeesWithin(b, s, ev, was - (if ev.Execute? && ev.sig.side.Sell? then HALF_QUANTUM else 0.0))
  {
    hide Attempt, TakerFee, RawFee, Dust, Value, FreeCash;
    if ev.Execute? && Attempt(b, ev.sig, s, ev.q, ev.fee).1.Executed? {
      ExecutedFillOk(b, ev.sig, s, ev.q, ev.fee);
      var fill := Attempt(b, ev.sig, s, ev.q, ev.fee).1.fill;
      CurveFeeIsCovered(pow, fill.leg.size, curve(fill.market).rate, curve(fill.market).exponent, fill.leg.price);
    }
  }

  /**
   Where every market's curve has a rate of at most 1 and an exponent of at least 1, no run needs a
   condition on its fees: free cash stays within half a quantum per SELL of zero, and the caps and the
   statement hold throughout.
   */
  lemma {:induction false} CurveRunsKeepMoney(
    pow: Power, stake: real, limit: Option<real>, floor: Option<real>, markets: map<int, bool>, s: Settings,
    evs: seq<Event>, curve: int -> Curve)
    requires PowerLaws(pow) && stake >= 0.0 && Gentle(curve)
    requires RunOnCurve(pow, NewBook(stake, limit, floor, markets), s, evs, curve)
    ensures MoneyAbove(Run(NewBook(stake, limit, floor, markets), s, evs), s, -Slack(evs))
    decreases |evs|
  {
    hide OnCurve, FeesWithin, Step, Slack, PowerLaws, Gentle;
    var b := NewBook(stake, limit, floor, markets);
    if evs == [] {
      RunKeepsMoney(stake, limit, floor, markets, s, []);
      assert Slack([]) == 0.0 by { NoSlack(); }
    } else {
      var before := evs[..|evs| - 1];
      CurveRunsKeepMoney(pow, stake, limit, floor, markets, s, before, curve);
      CurveFeesWithin(pow, Run(b, s, before), s, evs[|evs| - 1], curve, -Slack(before));
      SlackGrows(evs);
      StepKeepsMoney(Run(b, s, before), s, evs[|evs| - 1], -Slack(before), -Slack(evs));
    }
  }

  lemma NoSlack()
    ensures Slack([]) == 0.0
  {
  }

  /** No SELL of this event that executes pays dust. */
  ghost predicate NoDust(pow: Power, b: Book, s: Settings, ev: Event, curve: int -> Curve) {
    ev.Execute? && ev.sig.side.Sell? ==>
      var outcome := Attempt(b, ev.sig, s, ev.q, ev.fee).1;
      outcome.Executed? ==>
        var c, leg := curve(outcome.fill.market), outcome.fill.leg;
        c.rate == 0.0 || !Dust(RawFee(pow, leg.size, c.rate, c.exponent, leg.price), Value(leg.size, leg.price))
  }

  lemma NoDustFeesOk(pow: Power, b: Book, s: Settings, ev: Event, curve: int -> Curve)
    requires PowerLaws(pow) && OnCurve(pow, b, s, ev, curve) && Gentle(curve) && NoDust(pow, b, s, ev, curve)
    requires FreeCash(b) >= 0.0
    ensures FeesOk(b, s, ev)
  {
    hide Attempt, TakerFee, RawFee, Dust, Value, FreeCash;
    if ev.Execute? && Attempt(b, ev.sig, s, ev.q, ev.fee).1.Executed? {
      ExecutedFillOk(b, ev.sig, s, ev.q, ev.fee);
      var fill := Attempt(b, ev.sig, s, ev.q, ev.fee).1.fill;
      CurveFeeIsCovered(pow, fill.leg.size, curve(fill.market).rate, curve(fill.market).exponent, fill.leg.price);
    }
  }

  ghost predicate RunNoDust(pow: Power, b: Book, s: Settings, evs: seq<Event>, curve: int -> Curve) {
    evs != [] ==>
      && RunNoDust(pow, b, s, evs[..|evs| - 1], curve)
      && NoDust(pow, Run(b, s, evs[..|evs| - 1]), s, evs[|evs| - 1], curve)
  }

  /** Without dust sales free cash never goes negative on such curves. */
  lemma {:induction false} NoDustKeepsCash(
    pow: Power, stake: real, limit: Option<real>, floor: Option<real>, markets: map<int, bool>, s: Settings,
    evs: seq<Event>, curve: int -> Curve)
    requires PowerLaws(pow) && stake >= 0.0 && Gentle(curve)
    requires var b := NewBook(stake, limit, floor, markets); RunOnCurve(pow, b, s, evs, curve) && RunNoDust(pow, b, s, evs, curve)
    ensures RunOk(NewBook(stake, limit, floor, markets), s, evs)
    ensures MoneyOk(Run(NewBook(stake, limit, floor, markets), s, evs), s)
    decreases |evs|
  {
    hide OnCurve, NoDust, FeesOk, Step, FreeCash, CapsOk, StatementOk, RowsOk, NewBook, PowerLaws, Gentle;
    if evs != [] {
      var before := evs[..|evs| - 1];
      NoDustKeepsCash(pow, stake, limit, floor, markets, s, before, curve);
      NoDustFeesOk(pow, Run(NewBook(stake, limit, floor, markets), s, before), s, evs[|evs| - 1], curve);
    }
    RunKeepsMoney(stake, limit, floor, markets, s, evs);
  }

  // ---------- one market, one level, rate 2, exponent 0 ----------

  const HOLDING: Key := Key(1, 1, "Yes")
  const LIMITS: Settings := Settings(2.0, 100.0, 100.0, 0.9)
  const THIN: seq<W.BookLevel> := [W.BookLevel(W.Finite(0.5), W.Finite(4.0))]
  const QUOTE: Quote := Quote(THIN, THIN)
  const FOUR: W.Level := W.Level(0.5, 4.0)

  lemma WalkedThin(side: Side)
    ensures Walked(side, QUOTE) == [FOUR]
  {
    assert THIN[1..] == [];
    assert W.UsableLevels(THIN) == [FOUR];
    assert [FOUR][1..] == [];
    assert W.Sorted([], SideName(side) == "SELL") == [];
    assert W.Insert(FOUR, [], SideName(side) == "SELL") == [FOUR];
  }

  lemma WalkThin(cap: Option<real>)
    requires cap.Some? ==> cap.value >= 4.0
    ensures W.Walkable([FOUR])
    ensures var r := W.WalkResult([FOUR], 2.0, cap); r.status.Filled? && r.filledSize == 4.0 && r.fillPrice == Some(0.5)
  {
    assert [FOUR][1..] == [];
    var g := W.Takes([FOUR], 2.0, cap);
    assert W.TakeAt(FOUR, 2.0, cap) == 4.0;
    assert g == [4.0];
    assert g[1..] == [];
    assert W.Total(g) == 4.0 && W.Notional([FOUR], g) == 2.0;
  }

  const FEE: real := 8.0

  lemma FeeIsEight(pow: Power)
    requires PowerLaws(pow)
    ensures TakerFee(pow, 4.0, 2.0, 0.0, 0.5) == FEE
  {
    assert pow(0.25, 0.0) == 1.0;
    assert RawFee(pow, 4.0, 2.0, 0.0, 0.5) == 8.0;
    assert (8.0 * QUANTA + 0.5).Floor == 800000;
  }

  function ThinFill(side: Side): Fill {
    Fill(1, 1, Leg("Yes", side, 4.0, 0.5, FEE))
  }

  function Bought1(): Position {
    Position(HOLDING, 4.0, 2.5, 0.0, None)
  }

  function Stake(): Book {
    NewBook(10.0, None, None, map[1 := false])
  }

  lemma BuyThin()
    ensures var (b, a) := Attempt(Stake(), Signal(HOLDING, Buy, true), LIMITS, QUOTE, Some(FEE));
      a == Executed(ThinFill(Buy)) && b == Stake().(rows := [Bought1()], fills := [ThinFill(Buy)])
  {
    WalkedThin(Buy);
    WalkThin(None);
    assert Sum(Exposure, []) == 0.0 && Sum(ExposureIn(1), []) == 0.0;
    assert Find([], HOLDING) == 0;
    assert WithRow([], HOLDING) == [FreshRow(HOLDING)];
  }

  lemma SellThin()
    ensures var held := Stake().(rows := [Bought1()], fills := [ThinFill(Buy)]);
      var (b, a) := Attempt(held, Signal(HOLDING, Sell, true), LIMITS, QUOTE, Some(FEE));
      && a == Executed(ThinFill(Sell))
      && b.rows == [Bought1().(qty := 0.0, realized := -16.0)] && b.funds.account.Balance() == -6.0
  {
    WalkedThin(Sell);
    WalkThin(Some(4.0));
    assert Find([Bought1()], HOLDING) == 0;
    assert Owned([Bought1()], HOLDING) == 4.0;
    assert SellDelta(Bought1(), 4.0, 0.5, 8.0) == -16.0;
  }

  /**
   Free cash below zero: a stake of 10, an order size of 2, one level of 4 shares at 0.5 on both sides
   and a market fee of rate 2, exponent 0.  The BUY costs 2 plus 8 and spends everything; the SELL
   raises 2 and costs 8.
   */
  lemma ThinMarketOverdraws(pow: Power)
    requires PowerLaws(pow)
    ensures TakerFee(pow, 4.0, 2.0, 0.0, 0.5) == FEE
    ensures var buy := Execute(Signal(HOLDING, Buy, true), QUOTE, Some(FEE));
      var sell := Execute(Signal(HOLDING, Sell, true), QUOTE, Some(FEE));
      FreeCash(Run(Stake(), LIMITS, [buy, sell])) == -6.0
  {
    hide Attempt;
    FeeIsEight(pow);
    var buy := Execute(Signal(HOLDING, Buy, true), QUOTE, Some(FEE));
    var sell := Execute(Signal(HOLDING, Sell, true), QUOTE, Some(FEE));
    assert [buy, sell][..1] == [buy] && [buy][..0] == [];
    BuyThin();
    SellThin();
    assert Run(Stake(), LIMITS, []) == Stake();
    assert Run(Stake(), LIMITS, [buy]) == Stake().(rows := [Bought1()], fills := [ThinFill(Buy)]);
    var end := Run(Stake(), LIMITS, [buy, sell]);
    assert end == Attempt(Run(Stake(), LIMITS, [buy]), Signal(HOLDING, Sell, true), LIMITS, QUOTE, Some(FEE)).0;
    var left := Bought1().(qty := 0.0, realized := -16.0);
    assert [left][..0] == [] && Cell(OpenCost, left) == 0.0;
  }
}
