/**
 The bounded history bootstrap (ingestion/service.py): progress records committed before and after
 every network exchange, so that no crash gives back budget already spent.  What the network and the
 database answer in one turn of the loop is an `Answer`; a crash keeps a prefix of the records.
 */
module Bootstrap {
  import opened Wrappers

  datatype Config = Config(maxTrades: int, pageSize: int, maxPages: int, maxRequests: int, perRun: int, maxSettle: int)

  function AtLeast(a: int, b: int): int {
    if a < b then b else a
  }

  function AtMost(a: int, b: int): int {
    if a < b then a else b
  }

  function MaxTrades(c: Config): int { AtLeast(c.maxTrades, 1) }
  function MaxPages(c: Config): int { AtLeast(c.maxPages, 1) }
  function MaxRequests(c: Config): int { AtLeast(c.maxRequests, 1) }
  function PageSize(c: Config): int { AtMost(AtMost(AtLeast(c.pageSize, 1), MaxTrades(c)), 500) }

  const MAX_OFFSET: int := 10000

  datatype Reason = InProgress | UpstreamError | HistoryExhausted | LimitReached | MaturitySatisfied

  /** One committed record. */
  datatype Record = Record(
    pages: int, rows: int, requests: int, offset: int, end: int, oldest: Option<int>, checked: int,
    mature: bool, reason: Reason)

  /**
   What one turn meets: the page (None for an error, else its length and oldest row), the markets due
   for a settlement check, how many requests that check makes, how it ends, and the maturity verdict.
   */
  datatype Answer = Answer(
    page: Option<nat>, oldest: Option<int>, due: nat, settleSends: nat, settleFails: bool, allChecked: bool, mature: bool)

  /** The loop's variables; the record part is what gets committed. */
  datatype Vars = Vars(r: Record, thisRun: int)

  /** A record, the requests sent before the next one, and whether the run is over. */
  datatype Entry = Entry(record: Record, sends: nat, closing: bool)

  predicate MayGoOn(c: Config, v: Vars) {
    v.r.pages < MaxPages(c) && v.r.rows < MaxTrades(c) && v.r.requests < MaxRequests(c) && v.thisRun < c.perRun
  }

  /** Rolling the window needs an older end than the one already used. */
  predicate Stuck(r: Record) {
    r.offset >= MAX_OFFSET && (r.oldest.None? || r.oldest.value >= r.end)
  }

  function Rolled(r: Record): Record
    requires r.offset >= MAX_OFFSET ==> r.oldest.Some?
  {
    if r.offset >= MAX_OFFSET then r.(end := r.oldest.value, offset := 0) else r
  }

  function Progress(r: Record, sends: nat): Entry {
    Entry(r.(reason := InProgress, mature := false), sends, false)
  }

  function Limit(c: Config, r: Record): int {
    AtMost(AtMost(PageSize(c), MaxTrades(c) - r.rows), MAX_OFFSET - r.offset)
  }

  /** Markets checked this turn: within the cap, and two requests each within the budget. */
  function Markets(c: Config, r: Record, due: nat): int {
    AtMost(AtMost(due, AtLeast(c.maxSettle - r.checked, 0)), AtLeast(MaxRequests(c) - r.requests, 0) / 2)
  }

  /** One turn: the records it commits, the variables it leaves, and why it leaves the loop, if it does. */
  datatype Turn = Turn(entries: seq<Entry>, v: Vars, stop: Option<Reason>, mature: bool)

  function AfterFetch(c: Config, v: Vars, len: nat, limit: int, before: seq<Entry>, a: Answer): Turn {
    var r := v.r.(rows := v.r.rows + len, offset := v.r.offset + len,
                  oldest := if a.oldest.Some? then a.oldest else v.r.oldest);
    var fetched := before + [Progress(r, 0)];
    var k := Markets(c, r, a.due);
    var r' := if k > 0 then r.(requests := r.requests + 2 * k) else r;
    var settled := if k > 0 then fetched + [Progress(r', a.settleSends)] else fetched;
    if k > 0 && a.settleFails then Turn(settled, v.(r := r'), Some(UpstreamError), false)
    else
      var r'' := if k > 0 && a.allChecked then r'.(checked := r'.checked + k) else r';
      if a.mature then Turn(settled, v.(r := r''), Some(MaturitySatisfied), true)
      else if len < limit then Turn(settled, v.(r := r''), Some(HistoryExhausted), false)
      else if r''.requests >= MaxRequests(c) || r''.pages >= MaxPages(c) || r''.rows >= MaxTrades(c)
      then Turn(settled, v.(r := r''), Some(LimitReached), false)
      else Turn(settled, v.(r := r''), None, false)
  }

  function TakeTurn(c: Config, v: Vars, a: Answer): Turn {
    if Stuck(v.r) then Turn([], v, Some(LimitReached), false)
    else
      var rolled := Rolled(v.r);
      var roll := if v.r.offset >= MAX_OFFSET then [Progress(rolled, 0)] else [];
      var r := rolled.(pages := rolled.pages + 1, requests := rolled.requests + 1);
      var reserved := roll + [Progress(r, 1)];
      var w := Vars(r, v.thisRun + 1);
      if a.page.None? then Turn(reserved, w, Some(UpstreamError), false)
      else if a.page.value == 0 then Turn(reserved, w, Some(HistoryExhausted), false)
      else AfterFetch(c, w, a.page.value, Limit(c, r), reserved, a)
  }

  /** The reason recorded when the loop is over. */
  function FinalReason(c: Config, v: Vars, reason: Reason): Reason {
    if reason == LimitReached && v.thisRun >= c.perRun
       && v.r.pages < MaxPages(c) && v.r.rows < MaxTrades(c) && v.r.requests < MaxRequests(c)
    then InProgress else reason
  }

  function Closing(c: Config, v: Vars, reason: Reason, mature: bool): Entry {
    Entry(v.r.(reason := FinalReason(c, v, reason), mature := mature), 0, true)
  }

  /** Everything the loop commits; when the answers run out the process has died. */
  function LoopLog(c: Config, v: Vars, answers: seq<Answer>): seq<Entry>
    decreases |answers|
  {
    if !MayGoOn(c, v) then [Closing(c, v, LimitReached, false)]
    else if answers == [] then []
    else
      var t := TakeTurn(c, v, answers[0]);
      if t.stop.Some? then t.entries + [Closing(c, t.v, t.stop.value, t.mature)]
      else t.entries + LoopLog(c, t.v, answers[1..])
  }

  predicate CapsReached(c: Config, r: Record) {
    r.pages >= MaxPages(c) || r.rows >= MaxTrades(c) || r.requests >= MaxRequests(c)
  }

  function Fresh(now: int): Record {
    Record(0, 0, 0, 0, now, None, 0, false, InProgress)
  }

  /** A whole run over the newest record, if any. */
  function RunLog(c: Config, prior: Option<Record>, now: int, locallyMature: bool, answers: seq<Answer>): seq<Entry> {
    if prior.Some? && prior.value.mature then []
    else if locallyMature then [Entry(Fresh(now).(mature := true, reason := MaturitySatisfied), 0, true)]
    else if prior.Some? && (prior.value.reason == HistoryExhausted || (prior.value.reason == LimitReached && CapsReached(c, prior.value)))
    then []
    else LoopLog(c, Vars(if prior.Some? then prior.value else Fresh(now), 0), answers)
  }

  // ---------- the object ----------

  class WalletBootstrap {
    const config: Config
    var log: seq<Entry>

    constructor (c: Config)
      ensures config == c && log == []
    {
      config, log := c, [];
    }

    function Newest(): Option<Record>
      reads this
    {
      if log == [] then None else Some(log[|log| - 1].record)
    }

    method PersistProgress(e: Entry)
      modifies `log
      ensures log == old(log) + [e]
    {
      log := log + [e];
    }

    /** `bootstrap_wallet_history`. */
    method Run(now: int, locallyMature: bool, answers: seq<Answer>)
      modifies `log
      ensures log == old(log) + RunLog(config, old(Newest()), now, locallyMature, answers)
    {
      hide TakeTurn, LoopLog, MayGoOn;
      var prior := Newest();
      if prior.Some? && prior.value.mature {
        return;
      }
      if locallyMature {
        PersistProgress(Entry(Fresh(now).(mature := true, reason := MaturitySatisfied), 0, true));
        return;
      }
      if prior.Some? && (prior.value.reason == HistoryExhausted || (prior.value.reason == LimitReached && CapsReached(config, prior.value))) {
        return;
      }
      Loop(Vars(if prior.Some? then prior.value else Fresh(now), 0), answers);
    }

    method Loop(start: Vars, answers: seq<Answer>)
      modifies `log
      ensures log == old(log) + LoopLog(config, start, answers)
    {
      hide TakeTurn, LoopLog, MayGoOn;
      var v := start;
      var i := 0;
      ghost var goal := log + LoopLog(config, start, answers);
      assert answers[0..] == answers;
      while i < |answers| && MayGoOn(config, v)
        invariant 0 <= i <= |answers|
        invariant log + LoopLog(config, v, answers[i..]) == goal
      {
        LoopLogTurn(config, v, answers, i);
        ghost var before := log;
        var t := OneTurn(v, answers[i]);
        if t.stop.Some? {
          PersistProgress(Closing(config, t.v, t.stop.value, t.mature));
          assert log == before + (t.entries + [Closing(config, t.v, t.stop.value, t.mature)]);
          return;
        }
        assert log + LoopLog(config, t.v, answers[i + 1..]) == before + (t.entries + LoopLog(config, t.v, answers[i + 1..]));
        v, i := t.v, i + 1;
      }
      LoopLogEnds(config, v, answers[i..]);
      if !MayGoOn(config, v) {
        PersistProgress(Closing(config, v, LimitReached, false));
      } else {
        assert log + [] == log;
      }
    }

    /** The body of the loop, each record committed where the program commits it. */
    method OneTurn(start: Vars, a: Answer) returns (t: Turn)
      modifies `log
      ensures t == TakeTurn(config, start, a)
      ensures log == old(log) + t.entries
    {
      hide AfterFetch, Limit;
      if Stuck(start.r) {
        return Turn([], start, Some(LimitReached), false);
      }
      var r := start.r;
      var roll: seq<Entry> := [];
      if r.offset >= MAX_OFFSET {
        r := r.(end := r.oldest.value, offset := 0);
        roll := [Progress(r, 0)];
        PersistProgress(Progress(r, 0));
      }
      r := r.(pages := r.pages + 1, requests := r.requests + 1);
      var w, reserved := Vars(r, start.thisRun + 1), roll + [Progress(r, 1)];
      PersistProgress(Progress(r, 1));
      assert log == old(log) + reserved;
      if a.page.None? {
        return Turn(reserved, w, Some(UpstreamError), false);
      }
      if a.page.value == 0 {
        return Turn(reserved, w, Some(HistoryExhausted), false);
      }
      ghost var base := old(log);
      t := AfterPage(base, w, a.page.value, Limit(config, r), reserved, a);
    }

    /** The rest of the turn once a nonempty page is in: ingest, check settlements, decide. */
    method AfterPage(ghost base: seq<Entry>, v: Vars, len: nat, limit: int, before: seq<Entry>, a: Answer) returns (t: Turn)
      requires log == base + before
      modifies `log
      ensures t == AfterFetch(config, v, len, limit, before, a)
      ensures log == base + t.entries
    {
      hide Markets;
      var r := v.r.(rows := v.r.rows + len, offset := v.r.offset + len,
                    oldest := if a.oldest.Some? then a.oldest else v.r.oldest);
      var entries := before + [Progress(r, 0)];
      PersistProgress(Progress(r, 0));
      assert log == base + entries;
      var k := Markets(config, r, a.due);
      if k > 0 {
        r := r.(requests := r.requests + 2 * k);
        PersistProgress(Progress(r, a.settleSends));
        entries := entries + [Progress(r, a.settleSends)];
        assert log == base + entries;
        if a.settleFails {
          return Turn(entries, v.(r := r), Some(UpstreamError), false);
        }
        if a.allChecked {
          r := r.(checked := r.checked + k);
        }
      }
      if a.mature {
        return Turn(entries, v.(r := r), Some(MaturitySatisfied), true);
      }
      if len < limit {
        return Turn(entries, v.(r := r), Some(HistoryExhausted), false);
      }
      if r.requests >= MaxRequests(config) || r.pages >= MaxPages(config) || r.rows >= MaxTrades(config) {
        return Turn(entries, v.(r := r), Some(LimitReached), false);
      }
      return Turn(entries, v.(r := r), None, false);
    }
  }

  lemma LoopLogTurn(c: Config, v: Vars, answers: seq<Answer>, i: nat)
    requires i < |answers| && MayGoOn(c, v)
    ensures var t := TakeTurn(c, v, answers[i]);
      LoopLog(c, v, answers[i..]) ==
        if t.stop.Some? then t.entries + [Closing(c, t.v, t.stop.value, t.mature)]
        else t.entries + LoopLog(c, t.v, answers[i + 1..])
  {
    hide TakeTurn, MayGoOn;
    assert answers[i..][1..] == answers[i + 1..];
  }

  lemma LoopLogEnds(c: Config, v: Vars, answers: seq<Answer>)
    ensures !MayGoOn(c, v) ==> LoopLog(c, v, answers) == [Closing(c, v, LimitReached, false)]
    ensures MayGoOn(c, v) && answers == [] ==> LoopLog(c, v, answers) == []
  {
    hide TakeTurn;
  }

  // ---------- caps ----------

  /** Every counter within its cap. */
  ghost predicate Within(c: Config, r: Record) {
    && 0 <= r.pages <= MaxPages(c) && 0 <= r.rows <= MaxTrades(c) && 0 <= r.requests <= MaxRequests(c)
    && 0 <= r.checked <= AtLeast(c.maxSettle, 0) && 0 <= r.offset <= MAX_OFFSET
  }

  /** Pages no longer than asked, and at most two requests per market checked. */
  ghost predicate Honest(c: Config, v: Vars, a: Answer) {
    !Stuck(v.r) ==>
      var r := Rolled(v.r).(pages := v.r.pages + 1, requests := v.r.requests + 1);
      && (a.page.Some? ==> a.page.value <= Limit(c, r))
      && (a.page.Some? && a.page.value <= Limit(c, r) ==>
            a.settleSends <= 2 * Markets(c, r.(rows := r.rows + a.page.value, offset := r.offset + a.page.value), a.due))
  }

  ghost predicate AllHonest(c: Config, v: Vars, answers: seq<Answer>)
    decreases |answers|
  {
    answers != [] && MayGoOn(c, v) ==>
      && Honest(c, v, answers[0])
      && (TakeTurn(c, v, answers[0]).stop.None? ==> AllHonest(c, TakeTurn(c, v, answers[0]).v, answers[1..]))
  }

  function Sends(entries: seq<Entry>): nat {
    if entries == [] then 0 else Sends(entries[..|entries| - 1]) + entries[|entries| - 1].sends
  }

  /** Every record is within the caps and accounts for every request sent until the next one. */
  ghost predicate Paid(c: Config, entries: seq<Entry>, spent: int) {
    forall n :: 0 < n <= |entries| ==> PaidAt(c, entries, n, spent)
  }

  ghost predicate PaidAt(c: Config, entries: seq<Entry>, n: int, spent: int)
    requires 0 < n <= |entries|
  {
    Within(c, entries[n - 1].record) && spent + Sends(entries[..n]) <= entries[n - 1].record.requests
  }

  lemma SendsAppend(entries: seq<Entry>, e: Entry)
    ensures Sends(entries + [e]) == Sends(entries) + e.sends
  {
    assert (entries + [e])[..|entries|] == entries;
  }

  lemma {:induction false} SendsConcat(a: seq<Entry>, b: seq<Entry>)
    ensures Sends(a + b) == Sends(a) + Sends(b)
    decreases |b|
  {
    if b == [] {
      assert a + b == a;
    } else {
      var n := |b| - 1;
      assert (a + b)[..|a| + n] == a + b[..n];
      SendsConcat(a, b[..n]);
    }
  }

  lemma PaidAppend(c: Config, entries: seq<Entry>, e: Entry, spent: int)
    requires Paid(c, entries, spent) && Within(c, e.record) && spent + Sends(entries) + e.sends <= e.record.requests
    ensures Paid(c, entries + [e], spent)
  {
    hide Within, Sends;
    var more := entries + [e];
    forall n | 0 < n <= |more|
      ensures PaidAt(c, more, n, spent)
    {
      if n <= |entries| {
        assert PaidAt(c, entries, n, spent);
        assert more[..n] == entries[..n];
      } else {
        assert more[..n] == more;
        SendsAppend(entries, e);
      }
    }
  }

  lemma PaidConcat(c: Config, a: seq<Entry>, b: seq<Entry>, spent: int)
    requires Paid(c, a, spent) && Paid(c, b, spent + Sends(a))
    ensures Paid(c, a + b, spent)
  {
    hide Within, Sends;
    var both := a + b;
    forall n | 0 < n <= |both|
      ensures PaidAt(c, both, n, spent)
    {
      if n <= |a| {
        assert PaidAt(c, a, n, spent);
        assert both[..n] == a[..n];
      } else {
        assert PaidAt(c, b, n - |a|, spent + Sends(a));
        assert both[..n] == a + b[..n - |a|];
        SendsConcat(a, b[..n - |a|]);
      }
    }
  }

  /** What a turn is handed: counters within their caps, and everything sent so far accounted for. */
  ghost predicate Ready(c: Config, v: Vars, spent: int) {
    Within(c, v.r) && spent <= v.r.requests
  }

  lemma MarketsWithin(c: Config, r: Record, due: nat)
    requires Within(c, r)
    ensures 0 <= Markets(c, r, due) && 2 * Markets(c, r, due) <= MaxRequests(c) - r.requests
    ensures r.checked + Markets(c, r, due) <= AtLeast(c.maxSettle, 0)
  {
  }

  lemma FetchKeepsPaid(c: Config, v: Vars, len: nat, limit: int, before: seq<Entry>, a: Answer, spent: int)
    requires Paid(c, before, spent) && Within(c, v.r) && spent + Sends(before) <= v.r.requests
    requires len <= limit && limit <= MaxTrades(c) - v.r.rows && limit <= MAX_OFFSET - v.r.offset
    requires a.settleSends <= 2 * Markets(c, v.r.(rows := v.r.rows + len, offset := v.r.offset + len), a.due)
    ensures var t := AfterFetch(c, v, len, limit, before, a);
      Paid(c, t.entries, spent) && Ready(c, t.v, spent + Sends(t.entries)) && (t.mature ==> t.stop.Some?)
  {
    hide Markets, Paid, Sends;
    var r0 := v.r.(rows := v.r.rows + len, offset := v.r.offset + len);
    var r := r0.(oldest := if a.oldest.Some? then a.oldest else v.r.oldest);
    assert Markets(c, r, a.due) == Markets(c, r0, a.due) by { MarketsLooksAtBudget(c, r0, r, a.due); }
    PaidAppend(c, before, Progress(r, 0), spent);
    SendsAppend(before, Progress(r, 0));
    MarketsWithin(c, r, a.due);
    var k := Markets(c, r, a.due);
    var fetched := before + [Progress(r, 0)];
    if k > 0 {
      var r' := r.(requests := r.requests + 2 * k);
      PaidAppend(c, fetched, Progress(r', a.settleSends), spent);
      SendsAppend(fetched, Progress(r', a.settleSends));
    }
  }

  lemma MarketsLooksAtBudget(c: Config, r: Record, r': Record, due: nat)
    requires r'.checked == r.checked && r'.requests == r.requests
    ensures Markets(c, r', due) == Markets(c, r, due)
  {
  }

  lemma TurnKeepsPaid(c: Config, v: Vars, a: Answer, spent: int)
    requires Ready(c, v, spent) && MayGoOn(c, v) && Honest(c, v, a)
    ensures var t := TakeTurn(c, v, a);
      Paid(c, t.entries, spent) && Ready(c, t.v, spent + Sends(t.entries)) && (t.mature ==> t.stop.Some?)
  {
    hide Paid, Sends, AfterFetch, Markets;
    NothingPaid(c, spent);
    if !Stuck(v.r) {
      var rolled := Rolled(v.r);
      var r := rolled.(pages := rolled.pages + 1, requests := rolled.requests + 1);
      PaidAppend(c, [], Progress(rolled, 0), spent);
      SendsAppend([], Progress(rolled, 0));
      assert [] + [Progress(rolled, 0)] == [Progress(rolled, 0)];
      var roll := if v.r.offset >= MAX_OFFSET then [Progress(rolled, 0)] else [];
      assert Sends(roll) == 0;
      PaidAppend(c, roll, Progress(r, 1), spent);
      SendsAppend(roll, Progress(r, 1));
      var reserved := roll + [Progress(r, 1)];
      if a.page.Some? && a.page.value > 0 {
        FetchKeepsPaid(c, Vars(r, v.thisRun + 1), a.page.value, Limit(c, r), reserved, a, spent);
      }
    }
  }

  lemma NothingPaid(c: Config, spent: int)
    ensures Paid(c, [], spent) && Sends([]) == 0
  {
  }

  lemma {:induction false} LoopKeepsPaid(c: Config, v: Vars, answers: seq<Answer>, spent: int)
    requires Ready(c, v, spent) && AllHonest(c, v, answers)
    ensures Paid(c, LoopLog(c, v, answers), spent)
    decreases |answers|
  {
    hide Paid, Sends, TakeTurn, Honest;
    NothingPaid(c, spent);
    if !MayGoOn(c, v) {
      CloseKeepsPaid(c, [], v, LimitReached, false, spent);
      assert [] + [Closing(c, v, LimitReached, false)] == [Closing(c, v, LimitReached, false)];
    } else if answers != [] {
      var t := TakeTurn(c, v, answers[0]);
      TurnKeepsPaid(c, v, answers[0], spent);
      if t.stop.Some? {
        CloseKeepsPaid(c, t.entries, t.v, t.stop.value, t.mature, spent);
      } else {
        LoopKeepsPaid(c, t.v, answers[1..], spent + Sends(t.entries));
        PaidConcat(c, t.entries, LoopLog(c, t.v, answers[1..]), spent);
      }
    }
  }

  lemma CloseKeepsPaid(c: Config, entries: seq<Entry>, v: Vars, reason: Reason, mature: bool, spent: int)
    requires Paid(c, entries, spent) && Ready(c, v, spent + Sends(entries))
    ensures Paid(c, entries + [Closing(c, v, reason, mature)], spent)
  {
    hide Paid, Sends;
    PaidAppend(c, entries, Closing(c, v, reason, mature), spent);
  }

  // ---------- runs and crashes ----------

  /** The newest record, and how many requests were really sent, in all runs so far. */
  datatype State = State(newest: Option<Record>, spent: int)

  /** One run, cut by a crash after any number of its records and any part of the sends that follow. */
  datatype Attempt = Attempt(now: int, locallyMature: bool, answers: seq<Answer>, cut: nat, unsent: nat)

  ghost predicate Possible(c: Config, s: State, a: Attempt) {
    var entries := RunLog(c, s.newest, a.now, a.locallyMature, a.answers);
    && a.cut <= |entries| && (a.cut > 0 ==> a.unsent <= entries[a.cut - 1].sends)
    && AllHonest(c, Vars(if s.newest.Some? then s.newest.value else Fresh(a.now), 0), a.answers)
  }

  function After(c: Config, s: State, a: Attempt): State
    requires a.cut <= |RunLog(c, s.newest, a.now, a.locallyMature, a.answers)|
  {
    if a.cut == 0 then s
    else
      var kept := RunLog(c, s.newest, a.now, a.locallyMature, a.answers)[..a.cut];
      State(Some(kept[a.cut - 1].record), s.spent + Sends(kept) - a.unsent)
  }

  /** The budget: never overspent, and never forgotten while more could still be sent. */
  ghost predicate Budget(c: Config, s: State) {
    && s.spent <= MaxRequests(c)
    && (s.newest.None? ==> s.spent == 0)
    && (s.newest.Some? ==> Within(c, s.newest.value) && (s.newest.value.mature || s.spent <= s.newest.value.requests))
  }

  lemma AttemptKeepsBudget(c: Config, s: State, a: Attempt)
    requires Budget(c, s) && Possible(c, s, a)
    ensures Budget(c, After(c, s, a))
  {
    hide LoopLog, AllHonest, Sends;
    var entries := RunLog(c, s.newest, a.now, a.locallyMature, a.answers);
    if a.cut > 0 {
      var kept := entries[..a.cut];
      if a.locallyMature {
        LocalMaturityCostsNothing(c, a.now);
        assert kept == entries;
      } else {
        var v := Vars(if s.newest.Some? then s.newest.value else Fresh(a.now), 0);
        LoopKeepsPaid(c, v, a.answers, s.spent);
        assert PaidAt(c, entries, a.cut, s.spent);
      }
    }
  }

  lemma LocalMaturityCostsNothing(c: Config, now: int)
    ensures Sends([Entry(Fresh(now).(mature := true, reason := MaturitySatisfied), 0, true)]) == 0
  {
    SendsAppend([], Entry(Fresh(now).(mature := true, reason := MaturitySatisfied), 0, true));
    assert [] + [Entry(Fresh(now).(mature := true, reason := MaturitySatisfied), 0, true)]
        == [Entry(Fresh(now).(mature := true, reason := MaturitySatisfied), 0, true)];
  }

  ghost predicate AllPossible(c: Config, s: State, attempts: seq<Attempt>)
    decreases |attempts|
  {
    attempts != [] ==> Possible(c, s, attempts[0]) && AllPossible(c, After(c, s, attempts[0]), attempts[1..])
  }

  ghost function Outcome(c: Config, s: State, attempts: seq<Attempt>): State
    requires AllPossible(c, s, attempts)
    decreases |attempts|
  {
    if attempts == [] then s else Outcome(c, After(c, s, attempts[0]), attempts[1..])
  }

  /**
   The budget survives crashes: over any number of runs, resumed and cut anywhere, the requests really
   sent stay within `bootstrap_max_requests`, and pages, rows and checked markets within their caps.
   */
  lemma {:induction false} BudgetSurvivesCrashes(c: Config, s: State, attempts: seq<Attempt>)
    requires Budget(c, s) && AllPossible(c, s, attempts)
    ensures Budget(c, Outcome(c, s, attempts))
    decreases |attempts|
  {
    hide Budget, RunLog, AllHonest, Sends;
    if attempts != [] {
      AttemptKeepsBudget(c, s, attempts[0]);
      BudgetSurvivesCrashes(c, After(c, s, attempts[0]), attempts[1..]);
    }
  }

  /** Every run ends: it takes no more turns than pages are left, and then closes. */
  lemma {:induction false} EveryRunCloses(c: Config, v: Vars, answers: seq<Answer>)
    requires v.r.pages + |answers| >= MaxPages(c)
    ensures LoopLog(c, v, answers) != [] && LoopLog(c, v, answers)[|LoopLog(c, v, answers)| - 1].closing
    decreases |answers|
  {
    hide Markets, Limit;
    if MayGoOn(c, v) {
      var t := TakeTurn(c, v, answers[0]);
      if t.stop.None? {
        TurnUsesPage(c, v, answers[0]);
        EveryRunCloses(c, t.v, answers[1..]);
      }
    }
  }

  lemma TurnUsesPage(c: Config, v: Vars, a: Answer)
    requires TakeTurn(c, v, a).stop.None?
    ensures TakeTurn(c, v, a).v.r.pages == v.r.pages + 1
  {
    hide Markets, Limit;
  }

  /**
   What is asked of the Data API: a page of 1 to 500 rows inside its 10000-row window, and a roll only
   ever to a strictly older end.
   */
  lemma RequestFitsWindow(c: Config, v: Vars)
    requires Within(c, v.r) && MayGoOn(c, v) && !Stuck(v.r)
    ensures var r := Rolled(v.r);
      && 0 <= r.offset < MAX_OFFSET && 1 <= Limit(c, r) <= 500 && r.offset + Limit(c, r) <= MAX_OFFSET
      && (v.r.offset >= MAX_OFFSET ==> r.end < v.r.end)
  {
  }
}
