/** Whole runs of the recovery protocol: safety, progress, and the one way to lose the baseline. */
module CatchUpRuns {
  import opened Wrappers
  import opened CatchUp
  import opened CatchUpSafety

  /** A call cut off after `survives` commits, or trades of the wallet stored by another path. */
  datatype Event = Cycle(call: Call, survives: nat) | Elsewhere(rows: seq<Trade>, visible: nat)

  function LastVisible(rounds: seq<Round>, from: nat): nat {
    if rounds == [] then from else rounds[|rounds| - 1].visible
  }

  function SeenBy(ev: Event): nat {
    match ev
    case Cycle(call, _) => LastVisible(call.rounds, call.visible)
    case Elsewhere(_, visible) => visible
  }

  ghost predicate EventOk(h: seq<Trade>, n: nat, ev: Event) {
    match ev
    case Cycle(call, _) => CallOk(h, call, n) && VisibleWithin(h, call.rounds)
    case Elsewhere(rows, visible) => n <= visible <= |h| && forall t :: t in rows ==> t in h[..visible]
  }

  ghost function Occur(h: seq<Trade>, db: Db, ev: Event): Db
    requires ev.Cycle? ==> ev.call.visible <= |h| && VisibleWithin(h, ev.call.rounds)
  {
    match ev
    case Cycle(call, survives) =>
      var cs := CycleCommits(h, db, call);
      ApplyAll(db, if survives <= |cs| then cs[..survives] else cs)
    case Elsewhere(rows, _) => Apply(db, Page(rows))
  }

  /** A run: the source only grows from one request to the next. */
  ghost predicate RunOk(h: seq<Trade>, n: nat, evs: seq<Event>)
    decreases |evs|
  {
    evs != [] ==> EventOk(h, n, evs[0]) && RunOk(h, SeenBy(evs[0]), evs[1..])
  }

  ghost function Run(h: seq<Trade>, n: nat, db: Db, evs: seq<Event>): Db
    requires RunOk(h, n, evs)
    decreases |evs|
  {
    if evs == [] then db else Run(h, SeenBy(evs[0]), Occur(h, db, evs[0]), evs[1..])
  }

  ghost function Seen(n: nat, evs: seq<Event>): nat {
    if evs == [] then n else SeenBy(evs[|evs| - 1])
  }

  lemma {:induction false} LastVisibleIsGreatest(h: seq<Trade>, rounds: seq<Round>, from: nat)
    requires Fits(h, rounds, from)
    ensures from <= LastVisible(rounds, from) <= |h|
    ensures forall i :: 0 <= i < |rounds| ==> rounds[i].visible <= LastVisible(rounds, from)
  {
    if rounds != [] {
      LastVisibleIsGreatest(h, rounds[1..], rounds[0].visible);
      assert forall i :: 1 <= i < |rounds| ==> rounds[i] == rounds[1..][i - 1];
    }
  }

  lemma EventIsSafe(h: seq<Trade>, n: nat, db: Db, ev: Event)
    requires n <= |h| && SourceOk(h) && Sound(h, n, db) && EventOk(h, n, ev)
    ensures n <= SeenBy(ev) <= |h| && Sound(h, SeenBy(ev), Occur(h, db, ev))
  {
    hide Sound;
    match ev
    case Cycle(call, survives) =>
      LastVisibleIsGreatest(h, call.rounds, call.visible);
      CycleIsSafe(h, n, SeenBy(ev), db, call);
      var cs := CycleCommits(h, db, call);
      assert SafeAt(h, SeenBy(ev), db, cs, |cs|) && cs[..|cs|] == cs;
      if survives <= |cs| {
        assert SafeAt(h, SeenBy(ev), db, cs, survives);
      }
    case Elsewhere(rows, visible) =>
      SoundMonotone(h, n, visible, db);
      PageKeepsSound(h, visible, db, rows);
  }

  lemma {:induction false} RunIsSafe(h: seq<Trade>, n: nat, db: Db, evs: seq<Event>)
    requires Sound(h, n, db) && RunOk(h, n, evs)
    ensures Seen(n, evs) <= |h| && Sound(h, Seen(n, evs), Run(h, n, db, evs))
    decreases |evs|
  {
    if evs != [] {
      EventIsSafe(h, n, db, evs[0]);
      RunIsSafe(h, SeenBy(evs[0]), Occur(h, db, evs[0]), evs[1..]);
      assert Seen(n, evs) == Seen(SeenBy(evs[0]), evs[1..]);
    }
  }

  /** No trade strictly between two known positions is missing. */
  ghost predicate NoGap(h: seq<Trade>, stored: seq<Trade>, from: Id, to: Id) {
    PosOf(h, from) <= PosOf(h, to) && Covered(h, Keys(stored), PosOf(h, from), PosOf(h, to))
  }

  /**
   Every run, from any stored history and no checkpoint yet: whatever checkpoint says "caught up"
   is right - nothing between the first anchor ever recorded and its own anchor is missing - and
   so is what a recovering checkpoint says about its anchor.
   */
  lemma CaughtUpMeansNoGap(h: seq<Trade>, n: nat, stored: seq<Trade>, evs: seq<Event>, cp: Checkpoint)
    requires SourceOk(h) && n <= |h| && FromSource(h, n, stored)
    requires RunOk(h, n, evs)
    requires cp in Run(h, n, Db(stored, []), evs).log && cp.Anchor().Some?
    ensures var db := Run(h, n, Db(stored, []), evs);
      Baseline(db.log).Some? && NoGap(h, db.stored, Baseline(db.log).value, cp.Anchor().value)
  {
    RunIsSafe(h, n, Db(stored, []), evs);
  }

  /**
   Every run: recovery never reports exhausted history, and it reports a stalled window only when
   `MAX_OFFSET` trades of the source share one timestamp.
   */
  lemma StallsOnlyOnCrowdedSecond(h: seq<Trade>, n: nat, stored: seq<Trade>, evs: seq<Event>, cp: Checkpoint)
    requires SourceOk(h) && n <= |h| && FromSource(h, n, stored)
    requires RunOk(h, n, evs)
    requires cp in Run(h, n, Db(stored, []), evs).log && cp.Recovering?
    ensures cp.reason != HistoryExhausted
    ensures cp.reason == WindowStalled ==>
              Seen(n, evs) <= |h| && CrowdedSecond(h, Seen(n, evs), cp.window.end)
  {
    RunIsSafe(h, n, Db(stored, []), evs);
  }

  // ---------- progress ----------

  /** Later window, or the same window read further: the order in which recovery advances. */
  ghost predicate Advances(h: seq<Trade>, w: Window, w': Window) {
    || PosOf(h, w'.anchor) > PosOf(h, w.anchor)
    || (w'.anchor == w.anchor && (w'.end < w.end || (w'.end == w.end && w'.offset > w.offset)))
  }

  ghost predicate Newest(h: seq<Trade>, n: nat, cp: Checkpoint)
    requires 0 < n <= |h|
  {
    cp.CaughtUp? && cp.at == Some(h[n - 1].id)
  }

  /** A source that stays as it is, an approved wallet. */
  ghost predicate Quiet(call: Call, n: nat) {
    && call.size >= 1 && call.visible == n && call.rounds != []
    && forall i :: 0 <= i < |call.rounds| ==> call.rounds[i] == Round(true, n)
  }

  /** How a paging loop that was not cut off ends. */
  ghost predicate EndsWell(h: seq<Trade>, n: nat, w: Window, cs: seq<Commit>)
    requires 0 < n <= |h|
  {
    && cs != [] && cs[|cs| - 1].Check?
    && var cp := cs[|cs| - 1].cp;
    Newest(h, n, cp) || (cp.Recovering? && (cp.reason == WindowStalled || Advances(h, w, cp.window)))
  }

  /** One round that is not stalled ends the window, or moves it strictly further. */
  lemma RoundAdvances(
    h: seq<Trade>, n: nat, keys: set<Id>, b: nat, call: Call, latest: seq<Trade>, w: Window)
    requires SourceOk(h) && 0 < n <= |h| && call.size >= 1 && !Stalled(w)
    requires latest != [] && latest[0] == h[n - 1]
    requires WindowSound(h, n, keys, b, w)
    ensures var w1 := Rolled(w);
      var rows := PageRows(h, call.size, w1, n);
      if w.anchor in Keys(rows) then EndsWell(h, n, w, [Check(Connected(w1, latest, call.now))])
      else |rows| == PageLimit(call.size, w1.offset) && Advances(h, w, AfterPage(w1, rows))
           && WindowSound(h, n, keys + Keys(rows), b, AfterPage(w1, rows))
  {
    hide PosOf, Keys, PageRows, MinTs, MaxTs, SourceOk, UpTo, Covered, CoveredAfter;
    assert PosOf(h, w.anchor) < PosOf(h, w.head);
    RollKeepsWindow(h, n, keys, b, w);
    PageMovesCursor(h, n, keys, b, Rolled(w), call.size);
  }

  lemma {:induction false} PagingAdvances(
    h: seq<Trade>, n: nat, keys: set<Id>, b: nat, call: Call, latest: seq<Trade>, w: Window, rounds: seq<Round>)
    requires SourceOk(h) && 0 < n <= |h| && VisibleWithin(h, rounds) && call.size >= 1
    requires rounds != [] && forall i :: 0 <= i < |rounds| ==> rounds[i] == Round(true, n)
    requires latest != [] && latest[0] == h[n - 1]
    requires WindowSound(h, n, keys, b, w)
    ensures EndsWell(h, n, w, PagingCommits(h, call, latest, w, rounds))
    decreases |rounds|
  {
    hide PosOf, Keys, PageRows, MinTs, MaxTs, SourceOk, WindowSound, Connected;
    if !Stalled(w) {
      RoundAdvances(h, n, keys, b, call, latest, w);
      var rows := PageRows(h, call.size, Rolled(w), n);
      var w2 := AfterPage(Rolled(w), rows);
      var rest := AfterPageCommits(h, call, latest, w, rounds);
      if w.anchor !in Keys(rows) {
        var pages := PagingCommits(h, call, latest, w2, rounds[1..]);
        assert rest == [Check(Recovering(w2, BudgetReached))] + pages;
        if |rounds| > 1 {
          PagingAdvances(h, n, keys + Keys(rows), b, call, latest, w2, rounds[1..]);
          assert rest[|rest| - 1] == pages[|pages| - 1];
        } else {
          assert pages == [];
        }
      }
      var cs := PagingCommits(h, call, latest, w, rounds);
      assert cs[|cs| - 1] == rest[|rest| - 1];
    }
  }

  lemma LastCommitIsPrior(db: Db, cs: seq<Commit>)
    requires cs != [] && cs[|cs| - 1].Check?
    ensures Prior(ApplyAll(db, cs)) == Some(cs[|cs| - 1].cp)
  {
    var k := |cs| - 1;
    assert cs == cs[..k] + [cs[k]];
    ApplyAllAppend(db, cs[..k], [cs[k]]);
    var before := ApplyAll(db, cs[..k]);
    ApplyOne(before, cs[k]);
  }

  /** The goal of recovery: a checkpoint at the newest trade, or a stall. */
  ghost predicate Settled(h: seq<Trade>, n: nat, db: Db)
    requires 0 < n <= |h|
  {
    Prior(db).Some? &&
    (Newest(h, n, Prior(db).value) || (Prior(db).value.Recovering? && Prior(db).value.reason == WindowStalled))
  }

  ghost predicate AdvancesOver(h: seq<Trade>, db: Db, w: Window) {
    Prior(db).Some? && Prior(db).value.Recovering? ==> Advances(h, Prior(db).value.window, w)
  }

  lemma {:induction false} BaselineKept(db: Db, cs: seq<Commit>)
    requires Baseline(db.log).Some?
    ensures Baseline(ApplyAll(db, cs).log) == Baseline(db.log)
    decreases |cs|
  {
    if cs != [] {
      if cs[0].Check? {
        BaselineAppend(db.log, cs[0].cp);
      }
      BaselineKept(Apply(db, cs[0]), cs[1..]);
    }
  }

  /** One undisturbed call: caught up with the newest trade, stalled, or strictly further. */
  lemma CycleAdvances(h: seq<Trade>, n: nat, db: Db, call: Call)
    requires Sound(h, n, db) && 0 < n && Quiet(call, n) && CallOk(h, call, n) && VisibleWithin(h, call.rounds)
    requires Baseline(db.log).Some?
    ensures var db' := ApplyAll(db, CycleCommits(h, db, call));
      && Sound(h, n, db')
      && Baseline(db'.log).Some?
      && Prior(db').Some?
      && (Settled(h, n, db') || (Prior(db').value.Recovering? && AdvancesOver(h, db, Prior(db').value.window)))
  {
    hide PosOf, Keys, GetTrades, MaxTs, PagingCommits, Covered, CoveredAfter, UpTo, NewestStored;
    var latest, anchor := TailRows(h, call), StartAnchor(db);
    var w := StartWindow(db, latest, call.now);
    var cs := CycleCommits(h, db, call);
    CycleIsSafe(h, n, n, db, call);
    assert SafeAt(h, n, db, cs, |cs|) && cs[..|cs|] == cs;
    BaselineKept(db, cs);
    TailIsNewest(h, n, call.size);
    PosOfAt(h, n - 1);
    var db1 := Apply(db, Page(latest));
    if w.Some? {
      StartedWindowSound(h, n, db, call);
      PagingAdvances(h, n, Keys(db1.stored), PosOf(h, Baseline(db.log).GetOr(w.value.anchor)), call, latest, w.value, call.rounds);
      var pages := PagingCommits(h, call, latest, w.value, call.rounds);
      assert cs[|cs| - 1] == pages[|pages| - 1];
      LastCommitIsPrior(db, cs);
    } else if |cs| > 1 {
      LastCommitIsPrior(db, cs);
    } else {
      assert cs == [Page(latest)];
      assert ApplyAll(db, cs) == db1;
      var prior := Prior(db).value;
      assert prior in db.log;
    }
  }

  /** The window a call pages through is sound once its tail page is stored. */
  lemma StartedWindowSound(h: seq<Trade>, n: nat, db: Db, call: Call)
    requires Sound(h, n, db) && CallOk(h, call, n) && call.visible == n
    requires StartWindow(db, TailRows(h, call), call.now).Some?
    ensures var latest := TailRows(h, call); var w := StartWindow(db, latest, call.now).value;
      latest != [] && WindowSound(h, n, Keys(Apply(db, Page(latest)).stored), PosOf(h, Baseline(db.log).GetOr(w.anchor)), w)
  {
    hide PosOf, Keys, GetTrades, Covered, CoveredAfter, UpTo, StartWindow, TailSound, RunOf;
    TailPageSound(h, n, db, call);
  }

  ghost function Repeat(h: seq<Trade>, db: Db, call: Call, times: nat): Db
    requires call.visible <= |h| && VisibleWithin(h, call.rounds)
    decreases times
  {
    if times == 0 then db else Repeat(h, ApplyAll(db, CycleCommits(h, db, call)), call, times - 1)
  }

  /**
   Liveness: once an anchor is recorded, the source is quiet and the wallet stays approved, finitely
   many calls record "caught up" at the newest trade, unless they record a stall on a crowded second.
   */
  lemma {:induction false} EventuallySettles(h: seq<Trade>, n: nat, db: Db, call: Call) returns (times: nat)
    requires Sound(h, n, db) && 0 < n && Quiet(call, n) && CallOk(h, call, n) && VisibleWithin(h, call.rounds)
    requires Baseline(db.log).Some?
    ensures Sound(h, n, Repeat(h, db, call, times)) && Settled(h, n, Repeat(h, db, call, times))
    decreases if Prior(db).Some? && Prior(db).value.Recovering? then 0 else 1,
              RankAnchor(h, n, db), RankEnd(db), RankOffset(db)
  {
    hide PosOf, Keys, CycleCommits, Covered, CoveredAfter, UpTo;
    CycleAdvances(h, n, db, call);
    var db' := ApplyAll(db, CycleCommits(h, db, call));
    if Settled(h, n, db') {
      times := 1;
      assert Repeat(h, db, call, 1) == Repeat(h, db', call, 0) == db';
    } else {
      RanksSound(h, n, db');
      if Prior(db).Some? && Prior(db).value.Recovering? {
        RanksSound(h, n, db);
      }
      var more := EventuallySettles(h, n, db', call);
      times := 1 + more;
    }
  }

  ghost function RankAnchor(h: seq<Trade>, n: nat, db: Db): int {
    if Prior(db).Some? && Prior(db).value.Recovering? then n - PosOf(h, Prior(db).value.window.anchor) else 0
  }

  ghost function RankEnd(db: Db): int {
    if Prior(db).Some? && Prior(db).value.Recovering? then Prior(db).value.window.end else 0
  }

  ghost function RankOffset(db: Db): int {
    if Prior(db).Some? && Prior(db).value.Recovering? then MAX_OFFSET - Prior(db).value.window.offset else 0
  }

  lemma RanksSound(h: seq<Trade>, n: nat, db: Db)
    requires Sound(h, n, db) && Prior(db).Some? && Prior(db).value.Recovering?
    ensures RankAnchor(h, n, db) > 0 && RankEnd(db) >= 1 && RankOffset(db) >= 0
  {
    var cp := Prior(db).value;
    assert cp in db.log;
    var a := PosOf(h, cp.window.anchor);
    UpToSplits(h[..n], cp.window.end);
    assert h[..n][a] == h[a];
  }

  // ---------- the first checkpoint ----------

  const OLD: Trade := Trade("a", 1)
  const LOST: Trade := Trade("b", 2)
  const NEW: Trade := Trade("c", 3)

  lemma OneNewRow(t: Trade, known: set<Id>)
    requires t.id !in known
    ensures NotIn(FirstOccurrences([t]), known) == [t]
  {
    assert [t][..0] == [];
    assert FirstOccurrences([t]) == [t];
  }

  lemma NewestOfTwo(a: Trade, b: Trade)
    requires a.ts <= b.ts
    ensures NewestStored([a, b]) == Some(b)
  {
    assert [a, b][..1] == [a] && [a][..0] == [];
  }

  lemma StoreTail()
    ensures InsertNew([OLD], [NEW]) == [OLD, NEW] && NewestStored([OLD, NEW]) == Some(NEW)
    ensures Keys([NEW]) == {"c"} && Keys([OLD, NEW]) == {"a", "c"}
  {
    hide NotIn, FirstOccurrences, Keys, NewestStored;
    KeysOne(OLD);
    KeysOne(NEW);
    KeysConcat([OLD], [NEW]);
    OneNewRow(NEW, {"a"});
    NewestOfTwo(OLD, NEW);
    assert [OLD] + [NEW] == [OLD, NEW];
  }

  lemma TailOfThree(call: Call)
    requires call == Call(1, 0, 3, [Round(true, 3)])
    ensures TailRows([OLD, LOST, NEW], call) == [NEW]
  {
    var h := [OLD, LOST, NEW];
    TailIsNewest(h, 3, 1);
    assert h[..3] == h;
  }

  /** The first call stores the newest trade and dies before its checkpoint. */
  lemma FirstCallDies(call: Call)
    requires call == Call(1, 0, 3, [Round(true, 3)])
    ensures Occur([OLD, LOST, NEW], Db([OLD], []), Cycle(call, 1)) == Db([OLD, NEW], [])
  {
    hide GetTrades, PagingCommits, StartWindow, InsertNew;
    var h, start := [OLD, LOST, NEW], Db([OLD], []);
    TailOfThree(call);
    StoreTail();
    var cs := CycleCommits(h, start, call);
    assert cs[..1] == [Page([NEW])];
    ApplyOne(start, Page([NEW]));
  }

  /** The next call takes that trade for its anchor and finds it at once. */
  lemma NextCallSaysCaughtUp(call: Call)
    requires call == Call(1, 0, 3, [Round(true, 3)])
    ensures var db := Occur([OLD, LOST, NEW], Db([OLD, NEW], []), Cycle(call, 2));
      db.log == [CaughtUp(Some("c"), Some("c"), OverlapFound)] && Keys(db.stored) == {"a", "c"}
  {
    hide GetTrades, PagingCommits, InsertNew, NewestStored, Keys;
    var h, mid := [OLD, LOST, NEW], Db([OLD, NEW], []);
    TailOfThree(call);
    StoreTail();
    InsertNewKeys(mid.stored, [NEW]);
    var cp := CaughtUp(Some("c"), Some("c"), OverlapFound);
    var cs := CycleCommits(h, mid, call);
    assert cs == [Page([NEW]), Check(cp)];
    assert cs[..2] == cs;
    ApplyTwo(mid, Page([NEW]), Check(cp));
  }

  /**
   Before any checkpoint exists the anchor is read back from the stored trades, so a crash between
   the tail page and the first checkpoint forgets the old anchor: the oldest of three trades is
   stored, one call dies after its first commit, and the next says "caught up" over a gap.
   */
  lemma CrashBeforeFirstCheckpointHidesGap()
    ensures var h, call := [OLD, LOST, NEW], Call(1, 0, 3, [Round(true, 3)]);
      var evs := [Cycle(call, 1), Cycle(call, 2)];
      && SourceOk(h) && FromSource(h, 3, [OLD]) && RunOk(h, 3, evs)
      && var db := Run(h, 3, Db([OLD], []), evs);
      db.log == [CaughtUp(Some(NEW.id), Some(NEW.id), OverlapFound)] && LOST.id !in Keys(db.stored)
  {
    hide Occur, Keys;
    var h, call := [OLD, LOST, NEW], Call(1, 0, 3, [Round(true, 3)]);
    var evs := [Cycle(call, 1), Cycle(call, 2)];
    assert Fits(h, call.rounds, 3) by {
      assert call.rounds[1..] == [];
    }
    assert CallOk(h, call, 3) && VisibleWithin(h, call.rounds);
    assert evs[1..] == [Cycle(call, 2)] && evs[1..][1..] == [];
    assert h[..3] == h;
    assert SeenBy(evs[0]) == SeenBy(evs[1]) == 3;
    assert RunOk(h, 3, []);
    assert RunOk(h, 3, evs[1..]);
    FirstCallDies(call);
    NextCallSaysCaughtUp(call);
    var mid := Db([OLD, NEW], []);
    assert Run(h, 3, Db([OLD], []), evs) == Run(h, 3, mid, evs[1..]) == Run(h, 3, Occur(h, mid, evs[1]), []);
  }

  /** Rows inserted later and no older than the newest one: the newest is then one of them. */
  lemma {:induction false} NewestIsInserted(stored: seq<Trade>, more: seq<Trade>)
    requires more != [] && forall t :: t in more ==> NewestStored(stored).None? || NewestStored(stored).value.ts <= t.ts
    ensures NewestStored(stored + more).Some? && NewestStored(stored + more).value in more
  {
    var n := |more| - 1;
    assert (stored + more)[..|stored + more| - 1] == stored + more[..n];
    if n > 0 {
      assert forall t :: t in more[..n] ==> t in more;
      NewestIsInserted(stored, more[..n]);
    } else {
      assert stored + more[..n] == stored;
      assert more[0] in more;
    }
  }

  /**
   Exactly when the first call is safe to cut off.  No checkpoint exists, the tail page misses the
   stored anchor, and a trade between the anchor and the page is missing: the anchor the next call
   starts from hides a gap if and only if the crash falls after the tail page is stored and before the
   first checkpoint, and that page held a trade not stored before.
   */
  lemma FirstCheckpointGuardsAnchor(h: seq<Trade>, n: nat, db: Db, call: Call, survives: nat, lost: nat)
    requires Sound(h, n, db) && db.log == [] && StartAnchor(db).Some? && EventOk(h, n, Cycle(call, survives))
    requires StartAnchor(db).value !in Keys(TailRows(h, call))
    requires PosOf(h, StartAnchor(db).value) < lost < call.visible
    requires h[lost].id !in Keys(db.stored) + Keys(TailRows(h, call))
    ensures var db' := Occur(h, db, Cycle(call, survives));
      && StartAnchor(db').Some?
      && (NoGap(h, db'.stored, StartAnchor(db).value, StartAnchor(db').value)
          <==> survives != 1 || Keys(TailRows(h, call)) <= Keys(db.stored))
  {
    hide PosOf, Keys, GetTrades, PagingCommits, NewestStored, InsertNew, UpTo, WindowSound, Covered, Sound, StartAnchor, CycleCommits;
    var cs, latest := CycleCommits(h, db, call), TailRows(h, call);
    if survives == 0 {
      assert cs[..0] == [];
      assert Occur(h, db, Cycle(call, survives)) == db;
      StartAnchorSound(h, n, db);
    } else if survives == 1 {
      assert cs[..1] == [Page(latest)] by { FirstCommit(h, db, call); }
      ApplyOne(db, Page(latest));
      if Keys(latest) <= Keys(db.stored) {
        NothingNew(db.stored, latest);
        assert Occur(h, db, Cycle(call, survives)) == db;
        StartAnchorSound(h, n, db);
      } else {
        TailHidesAnchor(h, n, db, call, lost);
      }
    } else {
      FirstCheckpointCovers(h, n, db, call, survives);
    }
  }

  lemma NothingNew(stored: seq<Trade>, rows: seq<Trade>)
    requires Keys(rows) <= Keys(stored)
    ensures InsertNew(stored, rows) == stored
  {
    hide FirstOccurrences, NotIn, Keys;
    FirstOccurrencesKeepKeys(rows);
    NotInKeys(FirstOccurrences(rows), Keys(stored));
    var more := NotIn(FirstOccurrences(rows), Keys(stored));
    if more != [] {
      KeyOfRow(more, 0);
      assert false;
    }
  }

  lemma FirstCommit(h: seq<Trade>, db: Db, call: Call)
    requires call.visible <= |h| && VisibleWithin(h, call.rounds)
    ensures CycleCommits(h, db, call) != [] && CycleCommits(h, db, call)[0] == Page(TailRows(h, call))
  {
    hide GetTrades, PagingCommits, Keys, MaxTs;
  }

  /** A first call that gets as far as its first checkpoint has recorded the stored anchor for good. */
  lemma FirstCheckpointCovers(h: seq<Trade>, n: nat, db: Db, call: Call, survives: nat)
    requires Sound(h, n, db) && db.log == [] && StartAnchor(db).Some? && EventOk(h, n, Cycle(call, survives))
    requires StartAnchor(db).value !in Keys(TailRows(h, call)) && survives >= 2
    ensures var db' := Occur(h, db, Cycle(call, survives));
      StartAnchor(db').Some? && NoGap(h, db'.stored, StartAnchor(db).value, StartAnchor(db').value)
  {
    hide PosOf, Keys, GetTrades, MaxTs, PagingCommits, NewestStored, InsertNew, UpTo, WindowSound, Covered;
    var ev, latest, anchor := Cycle(call, survives), TailRows(h, call), StartAnchor(db).value;
    var cs, db' := CycleCommits(h, db, call), Occur(h, db, Cycle(call, survives));
    EventIsSafe(h, n, db, ev);
    var w := StartWindow(db, latest, call.now).value;
    var first := Check(Recovering(w, RecoveryInProgress));
    var applied := if survives <= |cs| then cs[..survives] else cs;
    assert applied == [Page(latest), first] + applied[2..];
    ApplyAllAppend(db, [Page(latest), first], applied[2..]);
    var db2 := Apply(Apply(db, Page(latest)), first);
    ApplyTwo(db, Page(latest), first);
    assert Baseline(db2.log) == Some(anchor);
    BaselineKept(db2, applied[2..]);
    AnchoredStateCovers(h, SeenBy(ev), db', anchor);
  }

  lemma AnchoredStateCovers(h: seq<Trade>, n: nat, db: Db, base: Id)
    requires Sound(h, n, db) && Baseline(db.log) == Some(base)
    ensures StartAnchor(db).Some? && NoGap(h, db.stored, base, StartAnchor(db).value)
  {
    hide PosOf, Keys, WindowSound, Covered;
    var last := db.log[|db.log| - 1];
    assert last in db.log;
    AnchorCovered(h, n, Keys(db.stored), PosOf(h, base), last);
  }

  lemma ApplyOne(db: Db, a: Commit)
    ensures ApplyAll(db, [a]) == Apply(db, a)
  {
    assert [a][1..] == [];
    assert ApplyAll(db, [a]) == ApplyAll(Apply(db, a), []);
  }

  lemma ApplyTwo(db: Db, a: Commit, b: Commit)
    ensures ApplyAll(db, [a, b]) == Apply(Apply(db, a), b)
  {
    assert [a, b][1..] == [b];
    ApplyOne(Apply(db, a), b);
  }

  lemma AnchorCovered(h: seq<Trade>, n: nat, keys: set<Id>, b: nat, cp: Checkpoint)
    requires n <= |h| && CheckpointSound(h, n, keys, b, cp) && cp.Anchor().Some?
    ensures b <= PosOf(h, cp.Anchor().value) < n && Covered(h, keys, b, PosOf(h, cp.Anchor().value))
  {
  }

  /** A tail page with a new trade makes one of its own new trades the anchor, and the lost one lies before it. */
  lemma TailHidesAnchor(h: seq<Trade>, n: nat, db: Db, call: Call, lost: nat)
    requires Sound(h, n, db) && CallOk(h, call, n) && db.log == [] && StartAnchor(db).Some?
    requires PosOf(h, StartAnchor(db).value) < lost < call.visible
    requires h[lost].id !in Keys(db.stored) + Keys(TailRows(h, call)) && !(Keys(TailRows(h, call)) <= Keys(db.stored))
    ensures var db' := Apply(db, Page(TailRows(h, call)));
      && StartAnchor(db').Some?
      && !NoGap(h, db'.stored, StartAnchor(db).value, StartAnchor(db').value)
  {
    hide PosOf, Keys, GetTrades, NewestStored, FirstOccurrences, NotIn, SourceOk, FromSource, RunOf;
    var latest, v := TailRows(h, call), call.visible;
    var db' := Apply(db, Page(latest));
    TailIsNewest(h, v, call.size);
    InsertNewKeys(db.stored, latest);
    FirstOccurrencesKeepKeys(latest);
    NotInKeys(FirstOccurrences(latest), Keys(db.stored));
    var more := NotIn(FirstOccurrences(latest), Keys(db.stored));
    assert db'.stored == db.stored + more;
    var newest := NewestStored(db.stored).value;
    StoredVisible(h, n, call.visible, db.stored, newest);
    PositionAt(h, lost);
    RowPosition(h, latest, v - 1, h[lost].id);
    forall t | t in more
      ensures lost < PosOf(h, t.id) && newest.ts <= t.ts
    {
      LaterThanLost(h, latest, v, lost, newest, t);
    }
    var k :| k in Keys(latest) && k !in Keys(db.stored);
    assert k in Keys(more);
    NoKeys();
    NewestIsInserted(db.stored, more);
    var after := NewestStored(db'.stored).value;
    assert lost < PosOf(h, after.id);
  }

  lemma StoredVisible(h: seq<Trade>, n: nat, v: nat, stored: seq<Trade>, t: Trade)
    requires n <= v <= |h| && FromSource(h, n, stored) && t in stored
    ensures t in h[..v]
  {
    assert t in h[..n];
  }

  lemma NoKeys()
    ensures Keys([]) == {}
  {
  }

  /** A row of the tail page lies after a trade that is older than the whole page. */
  lemma LaterThanLost(h: seq<Trade>, latest: seq<Trade>, v: nat, lost: nat, anchor: Trade, t: Trade)
    requires SourceOk(h) && v <= |h| && RunOf(h, latest, v - 1) && t in latest && lost <= v - 1 - |latest|
    requires anchor in h[..v] && PosOf(h, anchor.id) < lost
    ensures lost < PosOf(h, t.id) && anchor.ts <= t.ts
  {
    hide PosOf, SourceOk;
    var j :| 0 <= j < |latest| && latest[j] == t;
    PositionAt(h, v - 1 - j);
    var q :| 0 <= q < v && h[q] == anchor;
    PositionAt(h, q);
    OldestFirst(h, q, v - 1 - j);
  }

  lemma PositionAt(h: seq<Trade>, p: nat)
    requires SourceOk(h) && p < |h|
    ensures PosOf(h, h[p].id) == p
  {
    PosOfAt(h, p);
  }

  lemma OldestFirst(h: seq<Trade>, p: nat, q: nat)
    requires SourceOk(h) && p <= q < |h|
    ensures h[p].ts <= h[q].ts
  {
  }

  lemma KeyOfRow(rows: seq<Trade>, j: nat)
    requires j < |rows|
    ensures rows[j].id in Keys(rows)
  {
  }
}
