/**
 The settlement feed told from its history alone: which answer settles a market, how long each wait is,
 which markets one call asks about, and when a market may be asked about again.
 */
module SettlementHistory {
  import opened Wrappers
  import opened Settlements

  // ---------- the waits ----------

  /** One minute after the first check, twice as long after each of the next nine, twelve hours from the eleventh on. */
  lemma DelaySchedule(k: nat)
    ensures k <= 1 ==> Delay(k) == 60
    ensures 1 <= k <= 9 ==> Delay(k + 1) == 2 * Delay(k)
    ensures k >= 11 ==> Delay(k) == 43200
  {
    assert Power(0) == 1 && Power(1) == 2 && Power(2) == 4 && Power(3) == 8 && Power(4) == 16;
    assert Power(5) == 32 && Power(6) == 64 && Power(7) == 128 && Power(8) == 256;
    assert Power(9) == 512 && Power(10) == 1024;
  }

  // ---------- what one answer does ----------

  /** Closed, a price for every outcome, all within 0 and 1, and the one at `i` alone is 1. */
  ghost predicate SoleWinner(g: Gamma, i: nat) {
    && g.closed == Some(true) && g.prices.Some? && |g.prices.value| == |g.outcomes| && i < |g.outcomes|
    && (forall j: nat :: j < |g.outcomes| ==> 0.0 <= g.prices.value[j] <= 1.0)
    && (forall j: nat :: j < |g.outcomes| ==> (g.prices.value[j] == 1.0 <==> j == i))
  }

  ghost predicate Settles(a: Answer, w: string) {
    a.Found? && exists i: nat :: SoleWinner(a.g, i) && a.g.outcomes[i] == w
  }

  lemma SoleWinnerWins(g: Gamma, i: nat)
    ensures SoleWinner(g, i) <==> Wins(g, i)
  {
    if SoleWinner(g, i) {
      forall j | 0 <= j < |g.outcomes| && j != i
        ensures 0.0 <= g.prices.value[j] < 1.0
      {
        var k: nat := j;
        assert g.prices.value[k] != 1.0;
      }
    }
  }

  lemma WinnerIff(a: Answer, w: string)
    requires a.Found?
    ensures Settles(a, w) <==> Winner(a.g) == Some(w)
  {
    if Settles(a, w) {
      var i: nat :| SoleWinner(a.g, i) && a.g.outcomes[i] == w;
      SoleWinnerWins(a.g, i);
      WinnerIsUnique(a.g, i);
    }
    if Winner(a.g) == Some(w) {
      var i: nat :| Wins(a.g, i) && a.g.outcomes[i] == w;
      SoleWinnerWins(a.g, i);
    }
  }

  /** The result a check records is exactly that of its own answer, and the check touches no other market. */
  lemma CheckedIff(d: Desk, id: int, now: int, a: Answer)
    requires id in d.markets && id !in d.settled
    ensures var d' := Checked(d, id, now, a);
      && (id in d'.settled <==> exists w :: Settles(a, w))
      && (id in d'.settled ==> Settles(a, d'.settled[id]) && d'.markets[id].closed && d'.markets[id].resolved == Some(d'.settled[id]))
      && (a.Found? && a.g.closed.Some? ==> d'.markets[id].closed == a.g.closed.value)
      && (!a.Found? || a.g.closed.None? ==> d'.markets[id].closed == d.markets[id].closed)
      && d'.markets.Keys == d.markets.Keys
      && (forall m :: m in d.markets && m != id ==> d'.markets[m] == d.markets[m])
      && (forall m :: m != id ==> (m in d'.settled <==> m in d.settled))
      && (forall m :: m in d.settled ==> m in d'.settled && d'.settled[m] == d.settled[m])
  {
    hide Delay, Winner;
    if a.Found? {
      if Winner(a.g).Some? {
        WinnerIff(a, Winner(a.g).value);
        WinnerMeansClosed(a.g);
      }
      forall w | Settles(a, w)
        ensures Winner(a.g) == Some(w)
      {
        WinnerIff(a, w);
      }
    }
  }

  lemma WinnerMeansClosed(g: Gamma)
    requires Winner(g).Some?
    ensures g.closed == Some(true)
  {
    var i :| Wins(g, i);
  }

  // ---------- one call ----------

  /** An answer after which the call stops: the process died, or the service asked for a pause. */
  predicate Stops(a: Answer) {
    a.Dies? || (a.Failed? && a.retryAfter.Some?)
  }

  /** How many of the picked markets are asked about: up to and including the first that stops the call. */
  function Reached(answers: seq<Answer>): (n: nat)
    ensures n <= |answers|
    ensures forall i :: 0 <= i < n - 1 ==> !Stops(answers[i])
    ensures n < |answers| ==> n > 0 && Stops(answers[n - 1])
  {
    if answers == [] then 0 else if Stops(answers[0]) then 1 else 1 + Reached(answers[1..])
  }

  /**
   Unless a pause is running, a call asks about its markets one after the other, up to and including the
   first whose answer stops it, at the call's own time; and while one is running, about none.
   */
  lemma CallAsks(d: Desk, picked: seq<int>, now: int, answers: seq<Answer>)
    requires |answers| == |picked| && Eligible(d, picked, now)
    ensures var d' := Refreshed(d, picked, now, answers);
      var n := if d.throttle.Some? && d.throttle.value > now then 0 else Reached(answers);
      && |d'.asked| == |d.asked| + n && d'.asked[..|d.asked|] == d.asked
      && (forall i :: 0 <= i < n ==> d'.asked[|d.asked| + i].market == picked[i] && d'.asked[|d.asked| + i].at == now)
  {
    hide RefreshFrom;
    if !Throttled(d, now) {
      RefreshAsks(d, picked, now, answers);
    }
  }

  lemma {:induction false} RefreshAsks(d: Desk, picked: seq<int>, now: int, answers: seq<Answer>)
    requires |answers| == |picked| && forall i :: 0 <= i < |picked| ==> picked[i] in d.markets
    ensures var d' := RefreshFrom(d, picked, now, answers);
      && |d'.asked| == |d.asked| + Reached(answers) && d'.asked[..|d.asked|] == d.asked
      && (forall i :: 0 <= i < Reached(answers) ==> d'.asked[|d.asked| + i].market == picked[i] && d'.asked[|d.asked| + i].at == now)
    decreases |picked|
  {
    hide Checked;
    if picked != [] {
      CheckAsks(d, picked[0], now, answers[0]);
      var d1 := Checked(d, picked[0], now, answers[0]);
      if GoesOn(answers[0]) {
        CheckedKeys(d, picked[0], now, answers[0]);
        RefreshAsks(d1, picked[1..], now, answers[1..]);
        var d' := RefreshFrom(d1, picked[1..], now, answers[1..]);
        assert d'.asked[..|d.asked|] == d'.asked[..|d1.asked|][..|d.asked|];
        assert d'.asked[|d.asked|] == d'.asked[..|d1.asked|][|d.asked|];
        forall i | 0 <= i < Reached(answers)
          ensures d'.asked[|d.asked| + i].market == picked[i] && d'.asked[|d.asked| + i].at == now
        {
          if i > 0 {
            assert d'.asked[|d1.asked| + (i - 1)].market == picked[1..][i - 1];
          }
        }
      }
    }
  }

  /** What the request left behind says, answer by answer. */
  lemma CheckAsks(d: Desk, id: int, now: int, a: Answer)
    requires id in d.markets
    ensures var d' := Checked(d, id, now, a);
      && |d'.asked| == |d.asked| + 1 && d'.asked[..|d.asked|] == d.asked
      && var k := d'.asked[|d.asked|];
         && k.market == id && k.at == now && (k.recorded <==> !a.Dies?)
         && (k.recorded ==> k.attempt == d.markets[id].attempts + 1)
         && k.retryAfter == (if a.Failed? then a.retryAfter else None)
         && (k.settled <==> a.Found? && Winner(a.g).Some?)
  {
    hide Delay, Winner;
  }

  // ---------- when a market may be asked about again ----------

  /** The last recorded check of a market. */
  function LastRecorded(asked: seq<Ask>, id: int): Option<Ask> {
    if asked == [] then None
    else
      var k := asked[|asked| - 1];
      if k.market == id && k.recorded then Some(k) else LastRecorded(asked[..|asked| - 1], id)
  }

  function TimesRecorded(asked: seq<Ask>, id: int): nat {
    if asked == [] then 0
    else
      var k := asked[|asked| - 1];
      TimesRecorded(asked[..|asked| - 1], id) + if k.market == id && k.recorded then 1 else 0
  }

  function Larger(a: int, b: int): int { if a >= b then a else b }

  /** The wait a recorded check asks for: its back-off, or the service's own if that is longer. */
  function Wait(k: Ask): int {
    if k.retryAfter.Some? then Larger(Delay(k.attempt), k.retryAfter.value) else Delay(k.attempt)
  }

  /** What the history says of a market's row, `first` being the row before any check. */
  ghost predicate RowTold(first: Market, asked: seq<Ask>, id: int, row: Market, settled: bool) {
    && (settled <==> exists i :: 0 <= i < |asked| && asked[i].market == id && asked[i].settled)
    && row.attempts == first.attempts + TimesRecorded(asked, id)
    && (LastRecorded(asked, id).Some? ==> LastRecorded(asked, id).value.attempt == row.attempts)
    && (!settled ==>
          row.nextCheck == match LastRecorded(asked, id)
                           case None => first.nextCheck
                           case Some(k) => Some(k.at + Wait(k)))
  }

  /** Some answered request asked for a pause that reaches beyond `now`. */
  ghost predicate Pausing(asked: seq<Ask>, now: int) {
    exists i :: 0 <= i < |asked| && asked[i].retryAfter.Some? && asked[i].at + asked[i].retryAfter.value > now
  }

  ghost predicate RowsTold(known: map<int, Market>, d: Desk) {
    && d.markets.Keys == known.Keys && d.settled.Keys <= known.Keys
    && forall id :: id in known ==> RowTold(known[id], d.asked, id, d.markets[id], id in d.settled)
  }

  /** No request is later than this. */
  ghost predicate NoneLater(asked: seq<Ask>, now: int) {
    forall i :: 0 <= i < |asked| ==> asked[i].at <= now
  }

  ghost predicate PauseTold(d: Desk) {
    forall now :: NoneLater(d.asked, now) ==> (Throttled(d, now) <==> Pausing(d.asked, now))
  }

  lemma LastOfMore(asked: seq<Ask>, k: Ask, id: int)
    ensures LastRecorded(asked + [k], id) == if k.market == id && k.recorded then Some(k) else LastRecorded(asked, id)
    ensures TimesRecorded(asked + [k], id) == TimesRecorded(asked, id) + if k.market == id && k.recorded then 1 else 0
  {
    assert (asked + [k])[..|asked|] == asked;
  }

  lemma SettledOfMore(asked: seq<Ask>, k: Ask, id: int)
    ensures (exists i :: 0 <= i < |asked + [k]| && (asked + [k])[i].market == id && (asked + [k])[i].settled)
       <==> (exists i :: 0 <= i < |asked| && asked[i].market == id && asked[i].settled) || (k.market == id && k.settled)
  {
    var more := asked + [k];
    assert more[|asked|] == k;
    if i :| 0 <= i < |asked| && asked[i].market == id && asked[i].settled {
      assert more[i] == asked[i];
    }
  }

  lemma PausingMore(asked: seq<Ask>, k: Ask, now: int)
    ensures Pausing(asked + [k], now) <==>
      Pausing(asked, now) || (k.retryAfter.Some? && k.at + k.retryAfter.value > now)
  {
    var more := asked + [k];
    assert more[|asked|] == k;
    if Pausing(asked, now) {
      var i :| 0 <= i < |asked| && asked[i].retryAfter.Some? && asked[i].at + asked[i].retryAfter.value > now;
      assert more[i] == asked[i];
    }
  }

  lemma CheckTellsRow(known: map<int, Market>, d: Desk, id: int, now: int, a: Answer, other: int)
    requires RowsTold(known, d) && id in d.markets && id !in d.settled && other in known
    ensures var d' := Checked(d, id, now, a);
      RowTold(known[other], d'.asked, other, d'.markets[other], other in d'.settled)
  {
    hide Delay, Winner, LastRecorded, TimesRecorded;
    var d' := Checked(d, id, now, a);
    var k := d'.asked[|d.asked|];
    assert d'.asked == d.asked + [k];
    assert RowTold(known[other], d.asked, other, d.markets[other], other in d.settled);
    LastOfMore(d.asked, k, other);
    SettledOfMore(d.asked, k, other);
  }

  lemma CheckTellsRows(known: map<int, Market>, d: Desk, id: int, now: int, a: Answer)
    requires RowsTold(known, d) && id in d.markets && id !in d.settled
    ensures RowsTold(known, Checked(d, id, now, a))
  {
    hide Delay, Winner, RowTold;
    forall other | other in known
      ensures RowTold(known[other], Checked(d, id, now, a).asked, other, Checked(d, id, now, a).markets[other], other in Checked(d, id, now, a).settled)
    {
      CheckTellsRow(known, d, id, now, a, other);
    }
  }

  lemma CheckTellsPause(d: Desk, id: int, now: int, a: Answer)
    requires PauseTold(d) && id in d.markets && !Throttled(d, now)
    ensures PauseTold(Checked(d, id, now, a))
  {
    hide Delay, Winner, Pausing;
    var d' := Checked(d, id, now, a);
    var k := d'.asked[|d.asked|];
    assert d'.asked == d.asked + [k];
    forall at | NoneLater(d'.asked, at)
      ensures Throttled(d', at) <==> Pausing(d'.asked, at)
    {
      PausingMore(d.asked, k, at);
      assert d'.asked[|d.asked|].at <= at;
      assert NoneLater(d.asked, at) by {
        forall i | 0 <= i < |d.asked|
          ensures d.asked[i].at <= at
        {
          assert d'.asked[i] == d.asked[i];
        }
      }
    }
  }

  lemma {:induction false} RefreshTells(known: map<int, Market>, d: Desk, picked: seq<int>, now: int, answers: seq<Answer>)
    requires |answers| == |picked| && RowsTold(known, d) && PauseTold(d) && !Throttled(d, now)
    requires forall i, j :: 0 <= i < j < |picked| ==> picked[i] != picked[j]
    requires forall i :: 0 <= i < |picked| ==> picked[i] in d.markets && picked[i] !in d.settled
    ensures var d' := RefreshFrom(d, picked, now, answers); RowsTold(known, d') && PauseTold(d')
    decreases |picked|
  {
    hide RowsTold, PauseTold, Checked;
    if picked != [] {
      CheckTellsRows(known, d, picked[0], now, answers[0]);
      CheckTellsPause(d, picked[0], now, answers[0]);
      if GoesOn(answers[0]) {
        NoPauseYet(d, picked[0], now, answers[0]);
        CheckedIff(d, picked[0], now, answers[0]);
        RefreshTells(known, Checked(d, picked[0], now, answers[0]), picked[1..], now, answers[1..]);
      }
    }
  }

  lemma NoPauseYet(d: Desk, id: int, now: int, a: Answer)
    requires id in d.markets && !Throttled(d, now) && GoesOn(a)
    ensures !Throttled(Checked(d, id, now, a), now)
  {
    hide Delay, Winner;
  }

  lemma CallTells(known: map<int, Market>, d: Desk, c: Call)
    requires RowsTold(known, d) && PauseTold(d) && |c.answers| == |c.picked| && Eligible(d, c.picked, c.now)
    ensures var d' := Refreshed(d, c.picked, c.now, c.answers); RowsTold(known, d') && PauseTold(d')
  {
    hide RowsTold, PauseTold, RefreshFrom;
    if !Throttled(d, c.now) {
      RefreshTells(known, d, c.picked, c.now, c.answers);
    }
  }

  lemma {:induction false} RunTells(known: map<int, Market>, d: Desk, calls: seq<Call>)
    requires RowsTold(known, d) && PauseTold(d) && Possible(d, calls)
    ensures var d' := Run(d, calls); RowsTold(known, d') && PauseTold(d')
    decreases |calls|
  {
    hide RowsTold, PauseTold, Refreshed, Eligible;
    if calls != [] {
      CallTells(known, d, calls[0]);
      RunTells(known, Refreshed(d, calls[0].picked, calls[0].now, calls[0].answers), calls[1..]);
    }
  }

  /**
   After any run of calls, failures and deaths, a market may be asked about exactly when no request ever
   settled it, no pause the service asked for is still running, and the wait of its last recorded check is
   over (or, never checked, its first due time has come).  Back-offs count the recorded checks.  `now` is
   any time no earlier than the requests so far.
   */
  lemma AskableIff(known: map<int, Market>, calls: seq<Call>, id: int, now: int)
    requires Possible(Desk(known, map[], None, []), calls) && id in known
    requires NoneLater(Run(Desk(known, map[], None, []), calls).asked, now)
    ensures var d := Run(Desk(known, map[], None, []), calls);
      && (MayAsk(d, id, now) <==>
            && !(exists i :: 0 <= i < |d.asked| && d.asked[i].market == id && d.asked[i].settled)
            && !Pausing(d.asked, now)
            && match LastRecorded(d.asked, id)
               case None => known[id].nextCheck.None? || known[id].nextCheck.value <= now
               case Some(k) => k.at + Wait(k) <= now)
      && (LastRecorded(d.asked, id).Some? ==>
            LastRecorded(d.asked, id).value.attempt == known[id].attempts + TimesRecorded(d.asked, id))
  {
    hide Run, Possible, Wait, Pausing, LastRecorded, TimesRecorded;
    var start := Desk(known, map[], None, []);
    NothingTold(known);
    RunTells(known, start, calls);
    var d := Run(start, calls);
    assert RowTold(known[id], d.asked, id, d.markets[id], id in d.settled);
    assert Throttled(d, now) <==> Pausing(d.asked, now);
  }

  lemma NothingTold(known: map<int, Market>)
    ensures RowsTold(known, Desk(known, map[], None, [])) && PauseTold(Desk(known, map[], None, []))
  {
  }
}
