/**
 The settlement feed (accounting/settlements.py): which outcome may be recorded as a market's result,
 and when a market may be asked about again.  The order of a call's markets and the answers they get
 are given; a call may die after any request, before that market's update is committed.
 */
module Settlements {
  import opened Wrappers

  /** A Gamma market; prices are None when missing or unreadable. */
  datatype Gamma = Gamma(closed: Option<bool>, outcomes: seq<string>, prices: Option<seq<real>>)

  // ---------- the winning outcome ----------

  /** A closed market, one price of exactly 1, every other price below it and none negative. */
  predicate Wins(g: Gamma, i: int) {
    && g.closed == Some(true) && g.prices.Some? && |g.prices.value| == |g.outcomes| && 0 <= i < |g.outcomes|
    && g.prices.value[i] == 1.0
    && forall j :: 0 <= j < |g.outcomes| && j != i ==> 0.0 <= g.prices.value[j] < 1.0
  }

  /** `detect_winning_outcome`: a result exactly when one outcome wins, and then that one. */
  method DetectWinningOutcome(g: Gamma) returns (w: Option<string>)
    ensures w.Some? <==> exists i :: Wins(g, i)
    ensures w.Some? ==> exists i :: Wins(g, i) && w == Some(g.outcomes[i])
    ensures w == Winner(g)
  {
    if g.closed != Some(true) || g.prices.None? || |g.outcomes| == 0 || |g.outcomes| != |g.prices.value| {
      return None;
    }
    var prices := g.prices.value;
    var winners: seq<nat> := [];
    var inRange := true;
    for i := 0 to |prices|
      invariant forall k :: k in winners <==> 0 <= k < i && prices[k] == 1.0
      invariant forall a :: 0 <= a < |winners| ==> winners[a] < i
      invariant forall a, b :: 0 <= a < b < |winners| ==> winners[a] < winners[b]
      invariant inRange <==> forall j :: 0 <= j < i ==> 0.0 <= prices[j] <= 1.0
    {
      if prices[i] == 1.0 {
        winners := winners + [i];
      }
      inRange := inRange && 0.0 <= prices[i] <= 1.0;
    }
    if |winners| == 1 && inRange {
      assert winners[0] in winners;
      assert forall k :: k in winners ==> k == winners[0];
      assert Wins(g, winners[0]);
      WinnerIsUnique(g, winners[0]);
      return Some(g.outcomes[winners[0]]);
    }
    WinnerIsAlone(g, winners);
    w := None;
  }

  /** Among the ascending places of price 1, a winner is the only one, and every price is in range. */
  lemma WinnerIsAlone(g: Gamma, winners: seq<nat>)
    requires g.prices.Some? && |g.outcomes| == |g.prices.value|
    requires forall k :: k in winners <==> 0 <= k < |g.prices.value| && g.prices.value[k] == 1.0
    requires forall a, b :: 0 <= a < b < |winners| ==> winners[a] < winners[b]
    ensures (exists i :: Wins(g, i)) ==>
              |winners| == 1 && forall j :: 0 <= j < |g.prices.value| ==> 0.0 <= g.prices.value[j] <= 1.0
  {
    if exists i :: Wins(g, i) {
      var i :| Wins(g, i);
      assert i in winners;
      forall a | 0 <= a < |winners|
        ensures winners[a] == i
      {
        assert winners[a] in winners;
      }
      assert winners[0] == winners[|winners| - 1];
    }
  }

  ghost function Winner(g: Gamma): Option<string> {
    if exists i :: Wins(g, i) then
      var i :| Wins(g, i);
      Some(g.outcomes[i])
    else None
  }

  lemma WinnerIsUnique(g: Gamma, i: int)
    requires Wins(g, i)
    ensures Winner(g) == Some(g.outcomes[i])
  {
    var j :| Wins(g, j);
  }

  // ---------- one market checked ----------

  datatype Market = Market(closed: bool, resolved: Option<string>, nextCheck: Option<int>, attempts: nat)

  /** Found and readable, not there, an API failure with its retry-after, or the end of the process. */
  datatype Answer = Found(g: Gamma) | NotFound | Failed(retryAfter: Option<int>) | Dies

  /** A request, the number of checks recorded with it, and what came of it. */
  datatype Ask = Ask(market: int, at: int, recorded: bool, attempt: nat, settled: bool, retryAfter: Option<int>)

  datatype Desk = Desk(markets: map<int, Market>, settled: map<int, string>, throttle: Option<int>, asked: seq<Ask>)

  function Power(n: nat): nat {
    if n == 0 then 1 else 2 * Power(n - 1)
  }

  /** Seconds until the next check after the k-th: one minute doubling, at most twelve hours. */
  function Delay(attempts: nat): int {
    var doubled := 60 * Power(if attempts == 0 then 0 else if attempts > 11 then 10 else attempts - 1);
    if doubled < 43200 then doubled else 43200
  }

  function Later(a: int, b: int): int {
    if a < b then b else a
  }

  predicate Due(m: Market, now: int) {
    m.nextCheck.None? || m.nextCheck.value <= now
  }

  /** The committed effect of one check. */
  ghost function Checked(d: Desk, id: int, now: int, a: Answer): Desk
    requires id in d.markets
  {
    var m := d.markets[id];
    var k := m.attempts + 1;
    var waiting := m.(attempts := k, nextCheck := Some(now + Delay(k)));
    match a
    case Dies => d.(asked := d.asked + [Ask(id, now, false, m.attempts, false, None)])
    case NotFound =>
      d.(markets := d.markets[id := waiting], asked := d.asked + [Ask(id, now, true, k, false, None)])
    case Failed(retry) =>
      var m' := if retry.Some? then waiting.(nextCheck := Some(now + Later(Delay(k), retry.value))) else waiting;
      d.(markets := d.markets[id := m'], asked := d.asked + [Ask(id, now, true, k, false, retry)],
         throttle := if retry.None? then d.throttle
                     else Some(Later(if d.throttle.Some? then d.throttle.value else now, now + retry.value)))
    case Found(g) =>
      var seen := if g.closed.Some? then waiting.(closed := g.closed.value) else waiting;
      var winner := Winner(g);
      if winner.None? then
        d.(markets := d.markets[id := seen], asked := d.asked + [Ask(id, now, true, k, false, None)])
      else
        d.(markets := d.markets[id := seen.(closed := true, resolved := winner, nextCheck := None)],
           settled := d.settled[id := winner.value], asked := d.asked + [Ask(id, now, true, k, true, None)])
  }

  /** A call goes on after this answer: not after a death, and not after a cool-down. */
  predicate GoesOn(a: Answer) {
    !a.Dies? && !(a.Failed? && a.retryAfter.Some?)
  }

  ghost function RefreshFrom(d: Desk, picked: seq<int>, now: int, answers: seq<Answer>): Desk
    requires |answers| == |picked| && forall i :: 0 <= i < |picked| ==> picked[i] in d.markets
    decreases |picked|
  {
    if picked == [] then d
    else
      var d' := Checked(d, picked[0], now, answers[0]);
      if GoesOn(answers[0]) then RefreshFrom(d', picked[1..], now, answers[1..]) else d'
  }

  predicate Throttled(d: Desk, now: int) {
    d.throttle.Some? && d.throttle.value > now
  }

  /** What the query may return: distinct unsettled markets that are due. */
  predicate Eligible(d: Desk, picked: seq<int>, now: int) {
    && (forall i, j :: 0 <= i < j < |picked| ==> picked[i] != picked[j])
    && (forall i :: 0 <= i < |picked| ==>
          picked[i] in d.markets && picked[i] !in d.settled && Due(d.markets[picked[i]], now))
  }

  ghost function Refreshed(d: Desk, picked: seq<int>, now: int, answers: seq<Answer>): Desk
    requires |answers| == |picked| && Eligible(d, picked, now)
  {
    if Throttled(d, now) then d else RefreshFrom(d, picked, now, answers)
  }

  // ---------- the object ----------

  class SettlementFeed {
    var markets: map<int, Market>
    var settled: map<int, string>
    var throttle: Option<int>
    ghost var asked: seq<Ask>

    ghost function View(): Desk
      reads this
    {
      Desk(markets, settled, throttle, asked)
    }

    constructor (known: map<int, Market>)
      ensures View() == Desk(known, map[], None, [])
    {
      markets, settled, throttle, asked := known, map[], None, [];
    }

    /** `refresh_settlements`: one market after the other, each committed by itself. */
    method RefreshSettlements(now: int, picked: seq<int>, answers: seq<Answer>)
      requires |answers| == |picked| && Eligible(View(), picked, now)
      modifies this
      ensures View() == Refreshed(old(View()), picked, now, answers)
    {
      hide Checked, Eligible;
      if throttle.Some? && throttle.value > now {
        return;
      }
      EligibleKnown(View(), picked, now);
      var i := 0;
      assert picked[0..] == picked && answers[0..] == answers;
      while i < |picked|
        invariant 0 <= i <= |picked|
        invariant forall j :: 0 <= j < |picked| ==> picked[j] in markets
        invariant RefreshFrom(View(), picked[i..], now, answers[i..]) == RefreshFrom(old(View()), picked, now, answers)
      {
        ghost var before := View();
        assert picked[i..][1..] == picked[i + 1..] && answers[i..][1..] == answers[i + 1..];
        CheckedKeys(before, picked[i], now, answers[i]);
        CheckMarket(picked[i], now, answers[i]);
        if !GoesOn(answers[i]) {
          return;
        }
        i := i + 1;
      }
    }

    /** One turn of the loop, its commit included. */
    method CheckMarket(id: int, now: int, a: Answer)
      requires id in markets
      modifies this
      ensures View() == Checked(old(View()), id, now, a)
    {
      hide Winner, Delay;
      var m := markets[id];
      m := m.(attempts := m.attempts + 1);
      var delay := Delay(m.attempts);
      m := m.(nextCheck := Some(now + delay));
      match a {
        case Dies =>
          asked := asked + [Ask(id, now, false, m.attempts - 1, false, None)];
        case NotFound =>
          markets := markets[id := m];
          asked := asked + [Ask(id, now, true, m.attempts, false, None)];
        case Failed(retry) =>
          if retry.Some? {
            m := m.(nextCheck := Some(now + Later(delay, retry.value)));
            throttle := Some(Later(if throttle.Some? then throttle.value else now, now + retry.value));
          }
          markets := markets[id := m];
          asked := asked + [Ask(id, now, true, m.attempts, false, retry)];
        case Found(g) =>
          if g.closed.Some? {
            m := m.(closed := g.closed.value);
          }
          var winner := DetectWinningOutcome(g);
          if winner.Some? {
            m := m.(closed := true, resolved := winner, nextCheck := None);
            settled := settled[id := winner.value];
          }
          markets := markets[id := m];
          asked := asked + [Ask(id, now, true, m.attempts, winner.Some?, None)];
      }
    }
  }

  lemma EligibleKnown(d: Desk, picked: seq<int>, now: int)
    requires Eligible(d, picked, now)
    ensures forall i :: 0 <= i < |picked| ==> picked[i] in d.markets
  {
  }

  lemma CheckedKeys(d: Desk, id: int, now: int, a: Answer)
    requires id in d.markets
    ensures Checked(d, id, now, a).markets.Keys == d.markets.Keys
  {
    hide Winner, Delay;
  }

  // ---------- every run ----------

  /** A settled market is closed with that result, for good. */
  ghost predicate SettledOk(d: Desk) {
    forall m :: m in d.settled ==>
      m in d.markets && d.markets[m].closed && d.markets[m].resolved == Some(d.settled[m])
  }

  /** What an earlier request demands of a later one about the same market, or about any. */
  ghost predicate Spaced(earlier: Ask, later: Ask) {
    && (earlier.market == later.market ==> !earlier.settled)
    && (earlier.market == later.market && earlier.recorded ==> later.at >= earlier.at + Delay(earlier.attempt))
    && (earlier.retryAfter.Some? ==> later.at >= earlier.at + earlier.retryAfter.value)
  }

  ghost predicate AllSpaced(asked: seq<Ask>) {
    forall i, j :: 0 <= i < j < |asked| ==> Spaced(asked[i], asked[j])
  }

  /** The row remembers what a request demands of the next one. */
  ghost predicate Remembered(d: Desk, k: Ask) {
    && (k.settled ==> k.market in d.settled)
    && (k.recorded && k.market !in d.settled ==>
          k.market in d.markets && d.markets[k.market].nextCheck.Some?
          && d.markets[k.market].nextCheck.value >= k.at + Delay(k.attempt))
    && (k.retryAfter.Some? ==> d.throttle.Some? && d.throttle.value >= k.at + k.retryAfter.value)
  }

  ghost predicate AllRemembered(d: Desk) {
    forall i :: 0 <= i < |d.asked| ==> Remembered(d, d.asked[i])
  }

  ghost predicate Sound(d: Desk) {
    SettledOk(d) && AllSpaced(d.asked) && AllRemembered(d) && d.settled.Keys <= d.markets.Keys
  }

  /** A market may be asked about: unsettled, due, and no cool-down running. */
  predicate MayAsk(d: Desk, id: int, now: int) {
    id in d.markets && id !in d.settled && Due(d.markets[id], now) && !Throttled(d, now)
  }

  lemma NewAskIsSpaced(d: Desk, id: int, now: int, k: Ask)
    requires Sound(d) && MayAsk(d, id, now) && k.market == id && k.at == now
    ensures AllSpaced(d.asked + [k])
  {
    hide Delay;
    var asked := d.asked + [k];
    forall i, j | 0 <= i < j < |asked|
      ensures Spaced(asked[i], asked[j])
    {
      if j < |d.asked| {
        assert Spaced(d.asked[i], d.asked[j]);
      } else {
        assert Remembered(d, d.asked[i]);
      }
    }
  }

  /** Every earlier demand is still remembered once the checked market's row has moved on. */
  lemma CheckRemembers(d: Desk, id: int, now: int, a: Answer)
    requires Sound(d) && MayAsk(d, id, now)
    ensures AllRemembered(Checked(d, id, now, a))
  {
    hide Winner, Delay, AllSpaced, SettledOk;
    var d' := Checked(d, id, now, a);
    DelayPositive(d.markets[id].attempts + 1);
    forall i | 0 <= i < |d'.asked|
      ensures Remembered(d', d'.asked[i])
    {
      if i < |d.asked| {
        assert Remembered(d, d.asked[i]);
      }
    }
  }

  lemma {:induction false} PowerPositive(n: nat)
    ensures Power(n) >= 1
  {
    if n > 0 {
      PowerPositive(n - 1);
    }
  }

  lemma DelayPositive(attempts: nat)
    ensures 60 <= Delay(attempts) <= 43200
  {
    PowerPositive(if attempts == 0 then 0 else if attempts > 11 then 10 else attempts - 1);
  }

  /** The waits never get shorter. */
  lemma DelayGrows(attempts: nat)
    ensures Delay(attempts) <= Delay(attempts + 1)
  {
    var k := if attempts == 0 then 0 else if attempts > 11 then 10 else attempts - 1;
    PowerPositive(k);
    assert Power(k + 1) == 2 * Power(k);
  }

  lemma CheckKeepsSound(d: Desk, id: int, now: int, a: Answer)
    requires Sound(d) && MayAsk(d, id, now)
    ensures Sound(Checked(d, id, now, a))
    ensures GoesOn(a) ==> forall other :: other != id && MayAsk(d, other, now) ==> MayAsk(Checked(d, id, now, a), other, now)
  {
    hide Winner, Delay, AllRemembered;
    CheckRemembers(d, id, now, a);
    var d' := Checked(d, id, now, a);
    NewAskIsSpaced(d, id, now, d'.asked[|d.asked|]);
    assert d'.asked == d.asked + [d'.asked[|d.asked|]];
  }

  lemma {:induction false} RefreshKeepsSound(d: Desk, picked: seq<int>, now: int, answers: seq<Answer>)
    requires |answers| == |picked| && Sound(d)
    requires forall i, j :: 0 <= i < j < |picked| ==> picked[i] != picked[j]
    requires forall i :: 0 <= i < |picked| ==> picked[i] in d.markets && MayAsk(d, picked[i], now)
    ensures Sound(RefreshFrom(d, picked, now, answers))
    decreases |picked|
  {
    hide Sound, Checked, MayAsk;
    if picked != [] {
      CheckKeepsSound(d, picked[0], now, answers[0]);
      if GoesOn(answers[0]) {
        CheckedKeys(d, picked[0], now, answers[0]);
        RefreshKeepsSound(Checked(d, picked[0], now, answers[0]), picked[1..], now, answers[1..]);
      }
    }
  }

  /** One call of the feed; `now` is the caller's clock and need not grow from call to call. */
  datatype Call = Call(now: int, picked: seq<int>, answers: seq<Answer>)

  ghost predicate Possible(d: Desk, calls: seq<Call>)
    decreases |calls|
  {
    calls != [] ==>
      && |calls[0].answers| == |calls[0].picked| && Eligible(d, calls[0].picked, calls[0].now)
      && Possible(Refreshed(d, calls[0].picked, calls[0].now, calls[0].answers), calls[1..])
  }

  ghost function Run(d: Desk, calls: seq<Call>): Desk
    requires Possible(d, calls)
    decreases |calls|
  {
    if calls == [] then d else Run(Refreshed(d, calls[0].picked, calls[0].now, calls[0].answers), calls[1..])
  }

  lemma CallKeepsSound(d: Desk, c: Call)
    requires Sound(d) && |c.answers| == |c.picked| && Eligible(d, c.picked, c.now)
    ensures Sound(Refreshed(d, c.picked, c.now, c.answers))
  {
    hide Sound, RefreshFrom;
    if !Throttled(d, c.now) {
      RefreshKeepsSound(d, c.picked, c.now, c.answers);
    }
  }

  lemma {:induction false} RunKeepsSound(d: Desk, calls: seq<Call>)
    requires Sound(d) && Possible(d, calls)
    ensures Sound(Run(d, calls))
    decreases |calls|
  {
    hide Sound, Refreshed, Eligible;
    if calls != [] {
      CallKeepsSound(d, calls[0]);
      RunKeepsSound(Refreshed(d, calls[0].picked, calls[0].now, calls[0].answers), calls[1..]);
    }
  }

  /**
   Over every run of calls, failures and deaths: a settled market is closed with its one result and
   never asked about again; after a recorded check the market is left alone for the full back-off; and
   after a 429 nothing at all is asked until its retry-after has passed.
   */
  lemma FeedIsPatient(known: map<int, Market>, calls: seq<Call>)
    requires Possible(Desk(known, map[], None, []), calls)
    ensures var d := Run(Desk(known, map[], None, []), calls);
      SettledOk(d) && AllSpaced(d.asked)
  {
    RunKeepsSound(Desk(known, map[], None, []), calls);
  }

  /**
   The back-off is committed after the request it counts: a market that is due may be asked about
   again at once exactly when the process died before that commit.
   */
  lemma DeathForgetsTheCheck(d: Desk, id: int, now: int, a: Answer)
    requires MayAsk(d, id, now) && !(a.Failed? && a.retryAfter.Some?)
    ensures MayAsk(Checked(d, id, now, a), id, now) <==> a.Dies?
  {
    hide Winner;
    DelayPositive(d.markets[id].attempts + 1);
  }
}
