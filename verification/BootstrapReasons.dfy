/**
 What one turn of the history bootstrap stops for, what it commits and counts, when a run does anything
 at all, and which reason its last record carries.
 */
module BootstrapReasons {
  import opened Wrappers
  import opened Bootstrap

  // ---------- caps and sizes ----------

  /** `m` is the largest of the two numbers. */
  predicate LargerOf(m: int, a: int, b: int) {
    m >= a && m >= b && (m == a || m == b)
  }

  /** `m` is the smallest of the three numbers. */
  predicate SmallestOf(m: int, a: int, b: int, c: int) {
    m <= a && m <= b && m <= c && (m == a || m == b || m == c)
  }

  /** Every cap is the configured one, but at least one; a page is at most 500 rows and the cap on trades. */
  lemma CapsAre(c: Config)
    ensures LargerOf(MaxTrades(c), c.maxTrades, 1) && LargerOf(MaxPages(c), c.maxPages, 1) && LargerOf(MaxRequests(c), c.maxRequests, 1)
    ensures forall size :: LargerOf(size, c.pageSize, 1) ==> SmallestOf(PageSize(c), size, MaxTrades(c), 500)
  {
  }

  /** The most markets one check may take: as many as are due, the cap allows, and the budget pays two requests for. */
  predicate MayCheck(c: Config, r: Record, due: nat, k: nat) {
    k <= due && (k == 0 || (r.checked + k <= c.maxSettle && r.requests + 2 * k <= MaxRequests(c)))
  }

  lemma MarketsAreMost(c: Config, r: Record, due: nat)
    ensures Markets(c, r, due) >= 0 && MayCheck(c, r, due, Markets(c, r, due))
    ensures forall k: nat :: MayCheck(c, r, due, k) ==> k <= Markets(c, r, due)
  {
  }

  // ---------- one turn ----------

  /** The window is used up and there is no older row to start the next one from. */
  predicate NoWindowLeft(r: Record) {
    r.offset >= MAX_OFFSET && !(r.oldest.Some? && r.oldest.value < r.end)
  }

  /** The counters once the page is requested. */
  function Requested(v: Vars): Record
    requires !NoWindowLeft(v.r)
  {
    var r := v.r.(pages := v.r.pages + 1, requests := v.r.requests + 1);
    if v.r.offset >= MAX_OFFSET then r.(end := v.r.oldest.value, offset := 0) else r
  }

  /** ... once its rows are in. */
  function Ingested(v: Vars, a: Answer): Record
    requires !NoWindowLeft(v.r) && a.page.Some?
  {
    var r := Requested(v);
    r.(rows := r.rows + a.page.value, offset := r.offset + a.page.value, oldest := if a.oldest.Some? then a.oldest else r.oldest)
  }

  predicate GotRows(v: Vars, a: Answer) {
    !NoWindowLeft(v.r) && a.page.Some? && a.page.value > 0
  }

  predicate Checks(c: Config, v: Vars, a: Answer) {
    GotRows(v, a) && Markets(c, Ingested(v, a), a.due) > 0
  }

  /** The page came, and the settlement check, if there was one, went through. */
  predicate TurnDone(c: Config, v: Vars, a: Answer) {
    GotRows(v, a) && !(Checks(c, v, a) && a.settleFails)
  }

  /** ... once the settlement check is paid for. */
  function Charged(c: Config, v: Vars, a: Answer): Record
    requires GotRows(v, a)
  {
    var r := Ingested(v, a);
    r.(requests := r.requests + 2 * Markets(c, r, a.due))
  }

  /** The page is shorter than every one of the limits that sized the request. */
  predicate ShortPage(c: Config, v: Vars, a: Answer) {
    && GotRows(v, a)
    && a.page.value < PageSize(c) && a.page.value < MaxTrades(c) - v.r.rows
    && a.page.value < MAX_OFFSET - Requested(v).offset
  }

  ghost function Opening(v: Vars): seq<Entry>
    requires !NoWindowLeft(v.r)
  {
    (if v.r.offset >= MAX_OFFSET then [Progress(v.r.(end := v.r.oldest.value, offset := 0), 0)] else []) + [Progress(Requested(v), 1)]
  }

  /** The turn up to the page, and its rest where the page has rows. */
  lemma TurnStages(c: Config, v: Vars, a: Answer)
    ensures var t := TakeTurn(c, v, a);
      if NoWindowLeft(v.r) then t == Turn([], v, Some(LimitReached), false)
      else
        var w := Vars(Requested(v), v.thisRun + 1);
        if a.page.None? then t == Turn(Opening(v), w, Some(UpstreamError), false)
        else if a.page.value == 0 then t == Turn(Opening(v), w, Some(HistoryExhausted), false)
        else t == AfterFetch(c, w, a.page.value, Limit(c, Requested(v)), Opening(v), a)
  {
    hide AfterFetch, Limit;
  }

  lemma FetchStages(c: Config, v: Vars, a: Answer)
    requires GotRows(v, a)
    ensures var t, k := TakeTurn(c, v, a), Markets(c, Ingested(v, a), a.due);
      var checking := if k > 0 then [Progress(Charged(c, v, a), a.settleSends)] else [];
      && t.entries == Opening(v) + [Progress(Ingested(v, a), 0)] + checking
      && t.v.thisRun == v.thisRun + 1
      && t.v.r == Charged(c, v, a).(checked := v.r.checked + if k > 0 && !a.settleFails && a.allChecked then k else 0)
      && t.stop == (if k > 0 && a.settleFails then Some(UpstreamError)
                    else if a.mature then Some(MaturitySatisfied)
                    else if a.page.value < Limit(c, Requested(v)) then Some(HistoryExhausted)
                    else if CapsReached(c, Charged(c, v, a)) then Some(LimitReached) else None)
      && (t.mature <==> t.stop == Some(MaturitySatisfied))
  {
    TurnStages(c, v, a);
    MarketsAreMost(c, Ingested(v, a), a.due);
    hide Markets, TakeTurn, Opening, Limit, PageSize, MaxTrades, MaxRequests, MaxPages;
  }

  lemma ShortIff(c: Config, v: Vars, a: Answer)
    requires GotRows(v, a)
    ensures ShortPage(c, v, a) <==> a.page.value < Limit(c, Requested(v))
  {
    hide PageSize, MaxTrades;
  }

  /**
   Why a turn leaves the loop: an error for a failed page or a failed settlement check; maturity, if the
   check went through; else the end of history for an empty or a short page; else the limit where a cap is
   reached, or where the window cannot move; and otherwise it does not.
   */
  lemma TurnStopsIff(c: Config, v: Vars, a: Answer)
    ensures var t, stop := TakeTurn(c, v, a), TakeTurn(c, v, a).stop;
      && (stop == Some(UpstreamError) <==> !NoWindowLeft(v.r) && (a.page.None? || (Checks(c, v, a) && a.settleFails)))
      && (stop == Some(MaturitySatisfied) <==> TurnDone(c, v, a) && a.mature)
      && (stop == Some(HistoryExhausted) <==>
            !NoWindowLeft(v.r) && a.page.Some? && (a.page.value == 0 || (TurnDone(c, v, a) && !a.mature && ShortPage(c, v, a))))
      && (stop == Some(LimitReached) <==>
            NoWindowLeft(v.r) || (TurnDone(c, v, a) && !a.mature && !ShortPage(c, v, a) && CapsReached(c, Charged(c, v, a))))
      && (stop.None? <==> TurnDone(c, v, a) && !a.mature && !ShortPage(c, v, a) && !CapsReached(c, Charged(c, v, a)))
      && stop != Some(InProgress)
      && (t.mature <==> stop == Some(MaturitySatisfied))
  {
    TurnStages(c, v, a);
    if GotRows(v, a) {
      FetchStages(c, v, a);
      ShortIff(c, v, a);
    }
    hide TakeTurn, AfterFetch, Markets, ShortPage, Limit, CapsReached, Requested, Ingested, Charged, Opening;
  }

  /** What a turn counts: one page and one request, the rows, and two requests for each market it checks. */
  lemma TurnCounts(c: Config, v: Vars, a: Answer)
    ensures var w := TakeTurn(c, v, a).v;
      && (NoWindowLeft(v.r) ==> w == v)
      && (!NoWindowLeft(v.r) ==> w.thisRun == v.thisRun + 1)
      && (!NoWindowLeft(v.r) && !GotRows(v, a) ==> w.r == Requested(v))
      && (GotRows(v, a) ==>
            && w.r.(checked := v.r.checked) == Charged(c, v, a)
            && w.r.checked == v.r.checked + if TurnDone(c, v, a) && a.allChecked then Markets(c, Ingested(v, a), a.due) else 0)
  {
    TurnStages(c, v, a);
    if GotRows(v, a) {
      FetchStages(c, v, a);
      MarketsAreMost(c, Ingested(v, a), a.due);
    }
    hide TakeTurn, AfterFetch, Markets, Limit, CapsReached, Opening;
  }

  /** Committed before the work it pays for is done, and never final. */
  predicate Commits(e: Entry, r: Record, sends: nat) {
    e == Entry(r.(reason := InProgress, mature := false), sends, false)
  }

  /**
   What a turn commits, in this order: the moved window, if it moves; the page it is about to request, with
   that one request to be sent; the rows it got; and the settlement check it is about to make.
   */
  lemma TurnCommits(c: Config, v: Vars, a: Answer)
    ensures var log := TakeTurn(c, v, a).entries; var moved := if v.r.offset >= MAX_OFFSET then 1 else 0;
      && (NoWindowLeft(v.r) ==> log == [])
      && (!NoWindowLeft(v.r) ==>
            && |log| == moved + 1 + (if GotRows(v, a) then 1 else 0) + (if Checks(c, v, a) then 1 else 0)
            && (moved == 1 ==> Commits(log[0], v.r.(end := v.r.oldest.value, offset := 0), 0))
            && Commits(log[moved], Requested(v), 1)
            && (GotRows(v, a) ==> Commits(log[moved + 1], Ingested(v, a), 0))
            && (Checks(c, v, a) ==> Commits(log[moved + 2], Charged(c, v, a), a.settleSends)))
  {
    TurnStages(c, v, a);
    if GotRows(v, a) {
      FetchStages(c, v, a);
    }
    hide TakeTurn, AfterFetch, Markets, Limit, CapsReached, Requested, Ingested, Charged;
  }

  // ---------- the loop ----------

  /** Pages, rows, requests and pages of this run are all below their limits. */
  predicate RoomLeft(c: Config, v: Vars) {
    !CapsReached(c, v.r) && v.thisRun < c.perRun
  }

  /** The variables after the first `n` answers. */
  ghost function VarsAfter(c: Config, v: Vars, answers: seq<Answer>, n: nat): Vars
    requires n <= |answers|
    decreases n
  {
    if n == 0 then v else VarsAfter(c, TakeTurn(c, v, answers[0]).v, answers[1..], n - 1)
  }

  ghost predicate RunsOn(c: Config, v: Vars, answers: seq<Answer>, n: nat)
    requires n <= |answers|
    decreases n
  {
    n > 0 ==> RoomLeft(c, v) && TakeTurn(c, v, answers[0]).stop.None? && RunsOn(c, TakeTurn(c, v, answers[0]).v, answers[1..], n - 1)
  }

  /** The loop is left after `n` full turns, before the next one. */
  ghost predicate LeftBefore(c: Config, v: Vars, answers: seq<Answer>, n: nat, last: Entry) {
    && n <= |answers| && RunsOn(c, v, answers, n)
    && var w := VarsAfter(c, v, answers, n);
       && !RoomLeft(c, w)
       && last == Entry(w.r.(reason := if CapsReached(c, w.r) then LimitReached else InProgress, mature := false), 0, true)
  }

  /** ... or by the turn after them. */
  ghost predicate LeftBy(c: Config, v: Vars, answers: seq<Answer>, n: nat, last: Entry) {
    && n < |answers| && RunsOn(c, v, answers, n)
    && var w := VarsAfter(c, v, answers, n);
       var t := TakeTurn(c, w, answers[n]);
       && RoomLeft(c, w) && t.stop.Some?
       && last == Entry(t.v.r.(reason := t.stop.value, mature := t.stop == Some(MaturitySatisfied)), 0, true)
  }

  /** ... or the process died after `n` turns. */
  ghost predicate CutShort(c: Config, v: Vars, answers: seq<Answer>, n: nat) {
    n == |answers| && RunsOn(c, v, answers, n) && RoomLeft(c, VarsAfter(c, v, answers, n))
  }

  ghost predicate EndsAfter(c: Config, v: Vars, answers: seq<Answer>, n: nat) {
    var log := LoopLog(c, v, answers);
    || CutShort(c, v, answers, n)
    || (log != [] && (LeftBefore(c, v, answers, n, log[|log| - 1]) || LeftBy(c, v, answers, n, log[|log| - 1])))
  }

  lemma LeftLater(c: Config, v: Vars, answers: seq<Answer>, n: nat, last: Entry)
    requires answers != [] && RoomLeft(c, v) && TakeTurn(c, v, answers[0]).stop.None?
    ensures LeftBefore(c, TakeTurn(c, v, answers[0]).v, answers[1..], n, last) ==> LeftBefore(c, v, answers, n + 1, last)
    ensures LeftBy(c, TakeTurn(c, v, answers[0]).v, answers[1..], n, last) ==> LeftBy(c, v, answers, n + 1, last)
    ensures CutShort(c, TakeTurn(c, v, answers[0]).v, answers[1..], n) ==> CutShort(c, v, answers, n + 1)
  {
    hide TakeTurn, RoomLeft, CapsReached;
  }

  /** The limit stops a turn only where a cap is reached or the window cannot move: never for the run's own share of pages. */
  lemma ClosingReason(c: Config, v: Vars, a: Answer)
    requires RoomLeft(c, v) && TakeTurn(c, v, a).stop.Some?
    ensures var t := TakeTurn(c, v, a);
      Closing(c, t.v, t.stop.value, t.mature) == Entry(t.v.r.(reason := t.stop.value, mature := t.stop == Some(MaturitySatisfied)), 0, true)
  {
    hide Markets, PageSize, MaxTrades, MaxPages, MaxRequests;
    TurnStopsIff(c, v, a);
    TurnCounts(c, v, a);
  }

  /**
   How a loop ends: with a closing record that says `limit_reached` exactly where a cap is reached, or
   `in_progress` where only the run's share of pages is used up; or by the turn that stopped it, with that
   turn's reason and its counters; or, the process dead, with no closing record.
   */
  lemma {:induction false} LoopCloses(c: Config, v: Vars, answers: seq<Answer>) returns (n: nat)
    ensures EndsAfter(c, v, answers, n)
    decreases |answers|
  {
    hide TakeTurn, LeftBefore, LeftBy, CutShort, CapsReached, Closing;
    RoomIs(c, v);
    n := 0;
    if !RoomLeft(c, v) {
      LeavesNow(c, v, answers);
    } else if answers == [] {
      DiesNow(c, v);
    } else {
      var t := TakeTurn(c, v, answers[0]);
      if t.stop.Some? {
        ClosingReason(c, v, answers[0]);
        StopsNow(c, v, answers);
      } else {
        var m := LoopCloses(c, t.v, answers[1..]);
        n := m + 1;
        var log, rest := LoopLog(c, v, answers), LoopLog(c, t.v, answers[1..]);
        LeftLater(c, v, answers, m, if rest != [] then rest[|rest| - 1] else Closing(c, v, LimitReached, false));
        assert log == t.entries + rest;
      }
    }
  }

  lemma RoomIs(c: Config, v: Vars)
    ensures RoomLeft(c, v) <==> MayGoOn(c, v)
  {
  }

  lemma DiesNow(c: Config, v: Vars)
    requires RoomLeft(c, v)
    ensures CutShort(c, v, [], 0)
  {
  }

  lemma LeavesNow(c: Config, v: Vars, answers: seq<Answer>)
    requires !RoomLeft(c, v)
    ensures var log := LoopLog(c, v, answers); log != [] && LeftBefore(c, v, answers, 0, log[|log| - 1])
  {
  }

  lemma StopsNow(c: Config, v: Vars, answers: seq<Answer>)
    requires answers != [] && RoomLeft(c, v) && TakeTurn(c, v, answers[0]).stop.Some?
    requires var t := TakeTurn(c, v, answers[0]);
      Closing(c, t.v, t.stop.value, t.mature) == Entry(t.v.r.(reason := t.stop.value, mature := t.stop == Some(MaturitySatisfied)), 0, true)
    ensures var log := LoopLog(c, v, answers); log != [] && LeftBy(c, v, answers, 0, log[|log| - 1])
  {
    hide TakeTurn, Closing;
  }

  // ---------- a run ----------

  /** A run has nothing left to do: proven mature before, at the end of history, or out of its caps. */
  predicate NothingToDo(c: Config, prior: Option<Record>) {
    && prior.Some?
    && (prior.value.mature || prior.value.reason == HistoryExhausted || (prior.value.reason == LimitReached && CapsReached(c, prior.value)))
  }

  /** Some record pays for the request of the page after `from`. */
  ghost predicate AsksFirst(log: seq<Entry>, from: Record) {
    exists i :: 0 <= i < |log| && log[i].sends == 1 && log[i].record.pages == from.pages + 1 && !log[i].closing
  }

  /** Not mature, something left to do, room left in this run, and a window to look at. */
  predicate Asks(c: Config, prior: Option<Record>, from: Record, locallyMature: bool) {
    && !(prior.Some? && prior.value.mature) && !locallyMature && !NothingToDo(c, prior)
    && RoomLeft(c, Vars(from, 0)) && !NoWindowLeft(from)
  }

  /**
   A run writes a record of maturity exactly where local data already prove it and none is recorded yet; it
   asks the network for anything exactly where it is not mature, has something left to do, has room left in
   this run, and a window to look at; and it goes on from the newest record.
   */
  lemma RunStartsIff(c: Config, prior: Option<Record>, now: int, locallyMature: bool, answers: seq<Answer>)
    requires answers != []
    ensures var log := RunLog(c, prior, now, locallyMature, answers);
      var from := if prior.Some? then prior.value else Record(0, 0, 0, 0, now, None, 0, false, InProgress);
      && (Sends(log) > 0 <==> Asks(c, prior, from, locallyMature))
      && (Asks(c, prior, from, locallyMature) ==> AsksFirst(log, from))
      && (log == [] <==> (prior.Some? && prior.value.mature) || (!locallyMature && NothingToDo(c, prior)))
      && (locallyMature && !(prior.Some? && prior.value.mature) ==>
            log == [Entry(Record(0, 0, 0, 0, now, None, 0, true, MaturitySatisfied), 0, true)])
  {
    hide Markets, AfterFetch, Limit, CapsReached;
    var from := if prior.Some? then prior.value else Fresh(now);
    var v := Vars(from, 0);
    var log := RunLog(c, prior, now, locallyMature, answers);
    RoomIs(c, v);
    if locallyMature {
      LocalMaturityCostsNothing(c, now);
    } else if !NothingToDo(c, prior) {
      FirstTurn(c, v, answers);
    }
    NothingSent();
    if AsksFirst(log, from) {
      var i :| 0 <= i < |log| && log[i].sends == 1 && log[i].record.pages == from.pages + 1 && !log[i].closing;
      SendsAtLeast(log, i);
    }
  }

  lemma {:induction false} SendsAtLeast(entries: seq<Entry>, i: nat)
    requires i < |entries|
    ensures Sends(entries) >= entries[i].sends
  {
    if i < |entries| - 1 {
      SendsAtLeast(entries[..|entries| - 1], i);
    }
  }

  lemma NothingSent()
    ensures Sends([]) == 0
  {
  }

  lemma FirstTurn(c: Config, v: Vars, answers: seq<Answer>)
    requires answers != []
    ensures var log := LoopLog(c, v, answers);
      && log != []
      && (RoomLeft(c, v) && !NoWindowLeft(v.r) ==> AsksFirst(log, v.r))
      && (Sends(log) > 0 ==> RoomLeft(c, v) && !NoWindowLeft(v.r))
  {
    hide TakeTurn, CapsReached, MayGoOn, NoWindowLeft;
    RoomIs(c, v);
    var log := LoopLog(c, v, answers);
    if RoomLeft(c, v) && !NoWindowLeft(v.r) {
      TurnAsks(c, v, answers[0]);
      var t := TakeTurn(c, v, answers[0]);
      var i := if v.r.offset >= MAX_OFFSET then 1 else 0;
      assert log[i] == t.entries[i];
    } else {
      if RoomLeft(c, v) {
        TurnStages(c, v, answers[0]);
      }
      assert |log| == 1 && log[0].sends == 0;
      SendsAppend([], log[0]);
      assert [] + [log[0]] == log;
      NothingSent();
    }
  }

  lemma TurnAsks(c: Config, v: Vars, a: Answer)
    requires !NoWindowLeft(v.r)
    ensures var t, i := TakeTurn(c, v, a), if v.r.offset >= MAX_OFFSET then 1 else 0;
      i < |t.entries| && t.entries[i].sends == 1 && t.entries[i].record.pages == v.r.pages + 1 && !t.entries[i].closing
  {
    hide TakeTurn, Checks, GotRows;
    TurnCommits(c, v, a);
  }
}
