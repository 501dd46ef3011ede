/**
 "Caught up" means nothing was skipped: the invariant of the recovery protocol over every run,
 with trades arriving between any two requests and a crash after any commit.
 */
module CatchUpSafety {
  import opened Wrappers
  import opened CatchUp

  // ---------- positions in the history ----------

  function PosOf(h: seq<Trade>, id: Id): (p: nat)
    ensures p <= |h|
  {
    if h == [] || h[0].id == id then 0 else 1 + PosOf(h[1..], id)
  }

  lemma {:induction false} PosOfAt(h: seq<Trade>, p: nat)
    requires p < |h| && forall i, j :: 0 <= i < j < |h| ==> h[i].id != h[j].id
    ensures PosOf(h, h[p].id) == p
  {
    if p > 0 {
      PosOfAt(h[1..], p - 1);
    }
  }

  lemma {:induction false} AtPosOf(h: seq<Trade>, id: Id)
    requires PosOf(h, id) < |h|
    ensures h[PosOf(h, id)].id == id
  {
    if h[0].id != id {
      AtPosOf(h[1..], id);
    }
  }

  /** Every trade at positions `lo` to `hi` is stored. */
  ghost predicate Covered(h: seq<Trade>, keys: set<Id>, lo: int, hi: int) {
    forall p :: 0 <= p < |h| && lo <= p <= hi ==> h[p].id in keys
  }

  /** Every trade up to `hi` made after `w` is stored. */
  ghost predicate CoveredAfter(h: seq<Trade>, keys: set<Id>, w: int, hi: int) {
    forall p :: 0 <= p < |h| && p <= hi && h[p].ts > w ==> h[p].id in keys
  }

  // ---------- the invariant ----------

  /**
   A recovery window, when `n` trades exist: the anchor lies strictly below the page cursor and
   below the head, everything from the baseline `b` to the anchor is stored, and so is everything
   from the cursor up to the head.
   */
  ghost predicate WindowSound(h: seq<Trade>, n: nat, keys: set<Id>, b: nat, w: Window)
    requires n <= |h|
  {
    var a, hd, top := PosOf(h, w.anchor), PosOf(h, w.head), UpTo(h[..n], w.end);
    && b <= a < hd < n
    && Covered(h, keys, b, a)
    && w.offset <= MAX_OFFSET
    && a + w.offset < top
    && Covered(h, keys, top - w.offset, hd)
    && (w.oldest.None? ==> w.offset == 0)
    && (w.oldest.Some? ==>
          && h[a].ts <= w.oldest.value <= w.end
          && CoveredAfter(h, keys, w.oldest.value, hd)
          && (w.offset > 0 ==> h[top - w.offset].ts >= w.oldest.value))
  }

  /** At least `MAX_OFFSET` visible trades carry the timestamp `e`. */
  ghost predicate CrowdedSecond(h: seq<Trade>, n: nat, e: int)
    requires n <= |h|
  {
    var top := UpTo(h[..n], e);
    top >= MAX_OFFSET && forall p :: top - MAX_OFFSET <= p < top ==> h[p].ts == e
  }

  lemma StallMeansCrowdedSecond(h: seq<Trade>, n: nat, keys: set<Id>, b: nat, w: Window)
    requires SourceOk(h) && n <= |h| && WindowSound(h, n, keys, b, w) && Stalled(w)
    ensures CrowdedSecond(h, n, w.end)
  {
    var top := UpTo(h[..n], w.end);
    UpToSplits(h[..n], w.end);
    forall p | top - MAX_OFFSET <= p < top
      ensures h[p].ts == w.end
    {
      assert h[..n][p] == h[p];
    }
  }

  lemma CrowdedStays(h: seq<Trade>, n: nat, n': nat, e: int)
    requires SourceOk(h) && n <= n' <= |h| && CrowdedSecond(h, n, e)
    ensures CrowdedSecond(h, n', e)
  {
    var top, top' := UpTo(h[..n], e), UpTo(h[..n'], e);
    UpToGrows(h, n, n', e);
    UpToSplits(h[..n'], e);
    forall p | top' - MAX_OFFSET <= p < top'
      ensures h[p].ts == e
    {
      assert h[..n'][p] == h[p];
      assert h[top - MAX_OFFSET].ts == e;
    }
  }

  /** The first anchor ever recorded. */
  function Baseline(log: seq<Checkpoint>): (r: Option<Id>)
    ensures r.Some? ==> log != []
  {
    if log == [] then None
    else if log[0].Anchor().Some? then log[0].Anchor()
    else Baseline(log[1..])
  }

  ghost predicate CheckpointSound(h: seq<Trade>, n: nat, keys: set<Id>, b: nat, cp: Checkpoint)
    requires n <= |h|
  {
    match cp
    case CaughtUp(at, _, _) => at.Some? ==> b <= PosOf(h, at.value) < n && Covered(h, keys, b, PosOf(h, at.value))
    case Recovering(w, reason) =>
      && WindowSound(h, n, keys, b, w)
      && reason != HistoryExhausted
      && (reason == WindowStalled ==> CrowdedSecond(h, n, w.end))
  }

  ghost predicate FromSource(h: seq<Trade>, n: nat, stored: seq<Trade>)
    requires n <= |h|
  {
    forall t :: t in stored ==> t in h[..n]
  }

  /** What holds of the durable state at every moment of every run. */
  ghost predicate Sound(h: seq<Trade>, n: nat, db: Db) {
    && n <= |h| && SourceOk(h) && FromSource(h, n, db.stored)
    && (Baseline(db.log).Some? ==> db.log[|db.log| - 1].Anchor().Some?)
    && (forall cp :: cp in db.log && cp.Anchor().Some? ==>
          && Baseline(db.log).Some?
          && CheckpointSound(h, n, Keys(db.stored), PosOf(h, Baseline(db.log).value), cp))
  }

  /** A tail page: the newest trades, contiguous, already stored. */
  ghost predicate TailSound(h: seq<Trade>, n: nat, keys: set<Id>, latest: seq<Trade>)
    requires n <= |h|
  {
    latest != [] ==>
      var top := PosOf(h, latest[0].id);
      && top < n
      && RunOf(h, latest, top)
      && Keys(latest) <= keys
  }

  // ---------- more trades, more storage ----------

  lemma UpToGrows(h: seq<Trade>, n: nat, n': nat, e: int)
    requires SourceOk(h) && n <= n' <= |h|
    ensures UpTo(h[..n], e) <= UpTo(h[..n'], e)
  {
    UpToSplits(h[..n], e);
    UpToSplits(h[..n'], e);
    var k := UpTo(h[..n], e);
    if k > 0 {
      assert h[..n][k - 1] == h[..n'][k - 1];
    }
  }

  lemma WindowStaysSound(h: seq<Trade>, n: nat, n': nat, keys: set<Id>, keys': set<Id>, b: nat, w: Window)
    requires SourceOk(h) && n <= n' <= |h| && keys <= keys' && WindowSound(h, n, keys, b, w)
    ensures WindowSound(h, n', keys', b, w)
  {
    UpToGrows(h, n, n', w.end);
  }

  lemma SoundMonotone(h: seq<Trade>, n: nat, n': nat, db: Db)
    requires Sound(h, n, db) && n <= n' <= |h|
    ensures Sound(h, n', db)
  {
    forall cp | cp in db.log && cp.Anchor().Some?
      ensures CheckpointSound(h, n', Keys(db.stored), PosOf(h, Baseline(db.log).value), cp)
    {
      SoundMonotoneCheckpoint(h, n, n', Keys(db.stored), PosOf(h, Baseline(db.log).value), cp);
    }
    assert forall t :: t in h[..n] ==> t in h[..n'];
  }

  /** Storing rows of the source, by whatever path, keeps every recorded claim. */
  lemma PageKeepsSound(h: seq<Trade>, n: nat, db: Db, rows: seq<Trade>)
    requires Sound(h, n, db) && forall t :: t in rows ==> t in h[..n]
    ensures Sound(h, n, Apply(db, Page(rows)))
    ensures Keys(Apply(db, Page(rows)).stored) == Keys(db.stored) + Keys(rows)
  {
    InsertNewKeys(db.stored, rows);
    var db' := Apply(db, Page(rows));
    forall cp | cp in db'.log && cp.Anchor().Some?
      ensures CheckpointSound(h, n, Keys(db'.stored), PosOf(h, Baseline(db.log).value), cp)
    {
      assert cp in db.log;
      if cp.Recovering? {
        WindowStaysSound(h, n, n, Keys(db.stored), Keys(db'.stored), PosOf(h, Baseline(db.log).value), cp.window);
      }
    }
  }

  lemma {:induction false} BaselineAppend(log: seq<Checkpoint>, cp: Checkpoint)
    ensures Baseline(log + [cp]) == if Baseline(log).Some? then Baseline(log) else cp.Anchor()
    ensures Baseline(log).None? ==> forall c :: c in log ==> c.Anchor().None?
  {
    if log == [] {
      assert log + [cp] == [cp];
    } else {
      assert (log + [cp])[1..] == log[1..] + [cp];
      BaselineAppend(log[1..], cp);
    }
  }

  /** The claim a checkpoint would make if it were recorded now. */
  ghost predicate Claims(h: seq<Trade>, n: nat, db: Db, cp: Checkpoint)
    requires n <= |h|
  {
    && (Baseline(db.log).Some? ==> cp.Anchor().Some?)
    && (cp.Anchor().Some? ==>
          CheckpointSound(h, n, Keys(db.stored), PosOf(h, Baseline(db.log).GetOr(cp.Anchor().value)), cp))
  }

  /** Recording a checkpoint whose claim holds keeps the invariant. */
  lemma CheckKeepsSound(h: seq<Trade>, n: nat, db: Db, cp: Checkpoint)
    requires Sound(h, n, db) && Claims(h, n, db, cp)
    ensures Sound(h, n, Apply(db, Check(cp)))
  {
    BaselineAppend(db.log, cp);
  }

  // ---------- what a request returns ----------

  /** `rows` are the positions `top`, `top - 1`, ... of the history. */
  ghost predicate RunOf(h: seq<Trade>, rows: seq<Trade>, top: int) {
    |rows| <= top + 1 <= |h| && forall j :: 0 <= j < |rows| ==> rows[j] == h[top - j]
  }

  lemma RunVisible(h: seq<Trade>, v: nat, rows: seq<Trade>)
    requires v <= |h| && RunOf(h, rows, v - 1)
    ensures forall t :: t in rows ==> t in h[..v]
  {
    RunVisibleBelow(h, v, rows, v);
  }

  lemma RunVisibleBelow(h: seq<Trade>, v: nat, rows: seq<Trade>, cur: nat)
    requires cur <= v <= |h| && RunOf(h, rows, cur - 1)
    ensures forall t :: t in rows ==> t in h[..v]
  {
    forall t | t in rows
      ensures t in h[..v]
    {
      var j :| 0 <= j < |rows| && rows[j] == t;
      assert h[..v][cur - 1 - j] == t;
    }
  }

  /** One page of the reversed leading `top` trades. */
  lemma SliceOfReversed(h: seq<Trade>, top: nat, limit: nat, offset: nat)
    requires offset <= top <= |h|
    ensures var rows := Slice(Reversed(h[..top]), offset, limit);
      && |rows| == (if limit <= top - offset then limit else top - offset)
      && RunOf(h, rows, top - offset - 1)
  {
    var r := Reversed(h[..top]);
    assert |r| == top && forall i :: 0 <= i < top ==> r[i] == h[top - 1 - i];
    hide Reversed;
    var rows := Slice(r, offset, limit);
    assert forall j :: 0 <= j < |rows| ==> rows[j] == r[offset + j];
  }

  /** A page of the frozen window is the run of positions just below the cursor. */
  lemma PageIsBelowCursor(h: seq<Trade>, v: nat, limit: nat, offset: nat, e: int)
    requires SourceOk(h) && v <= |h| && offset <= UpTo(h[..v], e)
    ensures var rows, top := GetTrades(h[..v], limit, offset, Some(1), Some(e)), UpTo(h[..v], e);
      && |rows| == (if limit <= top - offset then limit else top - offset)
      && RunOf(h, rows, top - offset - 1)
  {
    hide Matching, Reversed, Slice, UpTo, RunOf;
    MatchingIsPrefix(h[..v], e);
    var top := UpTo(h[..v], e);
    assert h[..v][..top] == h[..top];
    SliceOfReversed(h, top, limit, offset);
  }

  lemma TailIsNewest(h: seq<Trade>, v: nat, limit: nat)
    requires v <= |h|
    ensures var rows := GetTrades(h[..v], limit, 0, None, None);
      && |rows| == (if limit <= v then limit else v)
      && RunOf(h, rows, v - 1)
  {
    hide Matching, Reversed, Slice, RunOf;
    MatchingAll(h[..v]);
    SliceOfReversed(h, v, limit, 0);
  }

  lemma TailRowsSound(h: seq<Trade>, v: nat, limit: nat, keys: set<Id>)
    requires SourceOk(h) && v <= |h|
    requires Keys(GetTrades(h[..v], limit, 0, None, None)) <= keys
    ensures TailSound(h, v, keys, GetTrades(h[..v], limit, 0, None, None))
  {
    hide GetTrades, Keys;
    TailIsNewest(h, v, limit);
    var rows := GetTrades(h[..v], limit, 0, None, None);
    if rows != [] {
      PosOfAt(h, v - 1);
    }
  }

  lemma KeyOnRun(h: seq<Trade>, rows: seq<Trade>, top: int, id: Id)
    requires SourceOk(h) && RunOf(h, rows, top) && id in Keys(rows)
    ensures top - |rows| < PosOf(h, id) <= top
  {
    hide PosOf;
    var t :| t in rows && t.id == id;
    var j :| 0 <= j < |rows| && rows[j] == t;
    PosOfAt(h, top - j);
  }

  lemma PositionOnRun(h: seq<Trade>, rows: seq<Trade>, top: int, id: Id)
    requires RunOf(h, rows, top) && top - |rows| < PosOf(h, id) <= top
    ensures id in Keys(rows)
  {
    hide PosOf;
    AtPosOf(h, id);
    assert rows[top - PosOf(h, id)] in rows;
  }

  /** An identity is on a contiguous run of rows exactly when its position is. */
  lemma RowPosition(h: seq<Trade>, rows: seq<Trade>, top: int, id: Id)
    requires SourceOk(h) && RunOf(h, rows, top)
    ensures id in Keys(rows) <==> top - |rows| < PosOf(h, id) <= top
  {
    hide PosOf, SourceOk, RunOf;
    if id in Keys(rows) {
      KeyOnRun(h, rows, top, id);
    }
    if top - |rows| < PosOf(h, id) <= top {
      PositionOnRun(h, rows, top, id);
    }
  }

  lemma RowsCover(h: seq<Trade>, rows: seq<Trade>, top: int, keys: set<Id>)
    requires RunOf(h, rows, top) && Keys(rows) <= keys
    ensures Covered(h, keys, top - |rows| + 1, top)
  {
    forall p | 0 <= p < |h| && top - |rows| + 1 <= p <= top
      ensures h[p].id in keys
    {
      assert rows[top - p] in rows;
      assert h[p].id in Keys(rows);
    }
  }

  lemma {:induction false} ExtremeTs(h: seq<Trade>, rows: seq<Trade>, top: int, default: int)
    requires SourceOk(h) && rows != [] && RunOf(h, rows, top)
    ensures MaxTs(rows, default) == h[top].ts && MinTs(rows) == h[top - |rows| + 1].ts
    decreases |rows|
  {
    if |rows| > 1 {
      ExtremeTs(h, rows[..|rows| - 1], top, default);
    }
  }

  // ---------- one page ----------

  /** Rolling the window at the offset limit loses nothing: the boundary second is read again. */
  lemma RollKeepsWindow(h: seq<Trade>, n: nat, keys: set<Id>, b: nat, w: Window)
    requires SourceOk(h) && n <= |h| && WindowSound(h, n, keys, b, w) && !Stalled(w)
    ensures WindowSound(h, n, keys, b, Rolled(w))
  {
    if MustRoll(w) {
      var e := w.oldest.value;
      UpToSplits(h[..n], e);
      var a := PosOf(h, w.anchor);
      assert h[..n][a] == h[a];
      forall p | 0 <= p < |h| && UpTo(h[..n], e) <= p <= PosOf(h, w.head)
        ensures h[p].id in keys
      {
        assert h[..n][p] == h[p];
      }
    }
  }

  /** The page below the cursor reaches the anchor: everything from the baseline to the head is stored. */
  lemma PageReachesAnchor(h: seq<Trade>, keys: set<Id>, b: int, anchor: Id, hd: int, cur: int, rows: seq<Trade>)
    requires SourceOk(h) && RunOf(h, rows, cur - 1) && anchor in Keys(rows)
    requires Covered(h, keys, b, PosOf(h, anchor)) && Covered(h, keys, cur, hd)
    ensures Covered(h, keys + Keys(rows), b, hd)
  {
    hide PosOf, RunOf, Covered, Keys, SourceOk;
    var a, keys' := PosOf(h, anchor), keys + Keys(rows);
    RowPosition(h, rows, cur - 1, anchor);
    RowsCover(h, rows, cur - 1, keys');
    CoveredWiden(h, keys, keys', b, a);
    CoveredWiden(h, keys, keys', cur, hd);
    CoveredExtend(h, keys', b, a, cur - |rows|, cur - 1);
    CoveredJoin(h, keys', b, cur, hd);
  }

  lemma CoveredJoin(h: seq<Trade>, keys: set<Id>, lo: int, mid: int, hi: int)
    requires Covered(h, keys, lo, mid - 1) && Covered(h, keys, mid, hi)
    ensures Covered(h, keys, lo, hi)
  {
  }

  lemma CoveredFrom(h: seq<Trade>, keys: set<Id>, low: nat, hi: int)
    requires SourceOk(h) && low < |h| && Covered(h, keys, low, hi)
    ensures CoveredAfter(h, keys, h[low].ts, hi)
  {
    forall p | 0 <= p < |h| && p <= hi && h[p].ts > h[low].ts
      ensures h[p].id in keys
    {
      assert p > low;
    }
  }

  /** It does not reach the anchor: the cursor moved down and did not pass it. */
  lemma PageStaysAboveAnchor(h: seq<Trade>, v: nat, keys: set<Id>, b: nat, w: Window, rows: seq<Trade>)
    requires SourceOk(h) && v <= |h| && WindowSound(h, v, keys, b, w)
    requires RunOf(h, rows, UpTo(h[..v], w.end) - w.offset - 1) && w.anchor !in Keys(rows)
    requires rows != [] && w.offset + |rows| <= MAX_OFFSET
    ensures WindowSound(h, v, keys + Keys(rows), b, AfterPage(w, rows))
  {
    hide PosOf, UpTo, RunOf, Covered, CoveredAfter, Keys, MinTs;
    var a, hd, top := PosOf(h, w.anchor), PosOf(h, w.head), UpTo(h[..v], w.end);
    var cur := top - w.offset;
    var keys', low := keys + Keys(rows), cur - |rows|;
    RowPosition(h, rows, cur - 1, w.anchor);
    RowsCover(h, rows, cur - 1, keys');
    CoveredWiden(h, keys, keys', b, a);
    CoveredWiden(h, keys, keys', cur, hd);
    CoveredJoin(h, keys', low, cur, hd);
    CoveredFrom(h, keys', low, hd);
    ExtremeTs(h, rows, cur - 1, 0);
    UpToSplits(h[..v], w.end);
    assert h[..v][low] == h[low];
  }

  lemma CoveredWiden(h: seq<Trade>, keys: set<Id>, keys': set<Id>, lo: int, hi: int)
    requires Covered(h, keys, lo, hi) && keys <= keys'
    ensures Covered(h, keys', lo, hi)
  {
  }

  /** What a page of the window is, and that it is full unless it reaches the anchor. */
  lemma PageMovesCursor(h: seq<Trade>, v: nat, keys: set<Id>, b: nat, w: Window, size: nat)
    requires SourceOk(h) && v <= |h| && WindowSound(h, v, keys, b, w) && w.offset < MAX_OFFSET && size >= 1
    ensures var rows := PageRows(h, size, w, v);
      && (forall t :: t in rows ==> t in h[..v])
      && (w.anchor in Keys(rows) ==> Covered(h, keys + Keys(rows), b, PosOf(h, w.head)))
      && (w.anchor !in Keys(rows) ==>
            && |rows| == PageLimit(size, w.offset) > 0
            && WindowSound(h, v, keys + Keys(rows), b, AfterPage(w, rows)))
  {
    hide PosOf, UpTo, GetTrades, Covered, CoveredAfter, Keys, SourceOk, RunOf, MinTs;
    var rows, top := PageRows(h, size, w, v), UpTo(h[..v], w.end);
    PageIsBelowCursor(h, v, PageLimit(size, w.offset), w.offset, w.end);
    var cur := top - w.offset;
    RunVisibleBelow(h, v, rows, cur);
    if w.anchor in Keys(rows) {
      PageReachesAnchor(h, keys, b, w.anchor, PosOf(h, w.head), cur, rows);
    } else {
      RowPosition(h, rows, cur - 1, w.anchor);
      PageStaysAboveAnchor(h, v, keys, b, w, rows);
    }
  }

  /** The window that follows starts at the old head, which everything stored so far reaches. */
  lemma ConnectKeepsSound(h: seq<Trade>, n: nat, keys: set<Id>, b: nat, w: Window, latest: seq<Trade>, now: int)
    requires SourceOk(h) && n <= |h| && TailSound(h, n, keys, latest) && latest != []
    requires b <= PosOf(h, w.head) <= PosOf(h, latest[0].id)
    requires Covered(h, keys, b, PosOf(h, w.head))
    ensures CheckpointSound(h, n, keys, b, Connected(w, latest, now))
  {
    var top, hd := PosOf(h, latest[0].id), PosOf(h, w.head);
    RowPosition(h, latest, top, w.head);
    RowsCover(h, latest, top, keys);
    if w.head in Keys(latest) {
    } else {
      ExtremeTs(h, latest, top, now);
      UpToSplits(h[..n], h[top].ts);
      assert h[..n][top] == h[top] && h[..n][hd] == h[hd];
    }
  }

  // ---------- a whole cycle, stopped anywhere ----------

  /** Every prefix of the commits keeps the invariant. */
  ghost predicate SafeAt(h: seq<Trade>, n: nat, db: Db, cs: seq<Commit>, k: nat) {
    k <= |cs| ==> Sound(h, n, ApplyAll(db, cs[..k]))
  }

  lemma SafeCons(h: seq<Trade>, n: nat, db: Db, c: Commit, rest: seq<Commit>)
    requires Sound(h, n, db)
    requires forall k: nat :: SafeAt(h, n, Apply(db, c), rest, k)
    ensures forall k: nat :: SafeAt(h, n, db, [c] + rest, k)
  {
    forall k: nat
      ensures SafeAt(h, n, db, [c] + rest, k)
    {
      if 0 < k <= |[c] + rest| {
        assert ([c] + rest)[..k] == [c] + rest[..k - 1];
        assert ([c] + rest[..k - 1])[1..] == rest[..k - 1];
        assert SafeAt(h, n, Apply(db, c), rest, k - 1);
      }
    }
  }

  lemma SafeEmpty(h: seq<Trade>, n: nat, db: Db)
    requires Sound(h, n, db)
    ensures forall k: nat :: SafeAt(h, n, db, [], k)
  {
    forall k: nat
      ensures SafeAt(h, n, db, [], k)
    {
      var none: seq<Commit> := [];
      assert k <= |none| ==> none[..k] == none;
    }
  }

  lemma SafeOne(h: seq<Trade>, n: nat, db: Db, cp: Checkpoint)
    requires Sound(h, n, db) && Claims(h, n, db, cp)
    ensures forall k: nat :: SafeAt(h, n, db, [Check(cp)], k)
  {
    CheckKeepsSound(h, n, db, cp);
    SafeEmpty(h, n, Apply(db, Check(cp)));
    SafeCons(h, n, db, Check(cp), []);
    assert [Check(cp)] + [] == [Check(cp)];
  }

  lemma {:induction false} PagingIsSafe(
    h: seq<Trade>, call: Call, latest: seq<Trade>, w: Window, rounds: seq<Round>,
    n: nat, end: nat, db: Db, base: Id)
    requires SourceOk(h) && n <= end <= |h| && VisibleWithin(h, rounds)
    requires Sound(h, n, db) && Baseline(db.log) == Some(base) && call.size >= 1
    requires WindowSound(h, n, Keys(db.stored), PosOf(h, base), w)
    requires TailSound(h, n, Keys(db.stored), latest) && latest != [] && PosOf(h, w.head) <= PosOf(h, latest[0].id)
    requires Fits(h, rounds, n) && forall i :: 0 <= i < |rounds| ==> rounds[i].visible <= end
    ensures forall k: nat :: SafeAt(h, end, db, PagingCommits(h, call, latest, w, rounds), k)
    decreases |rounds|, 1
  {
    hide Sound, WindowSound, TailSound, PosOf, Keys, PageRows, AfterPageCommits, SourceOk, SafeAt;
    var keys, b := Keys(db.stored), PosOf(h, base);
    SoundMonotone(h, n, end, db);
    if rounds == [] {
      SafeEmpty(h, end, db);
    } else if !rounds[0].approved {
      WindowStaysSound(h, n, end, keys, keys, b, w);
      SafeOne(h, end, db, Recovering(w, WalletDisabled));
    } else if Stalled(w) {
      WindowStaysSound(h, n, end, keys, keys, b, w);
      StallMeansCrowdedSecond(h, end, keys, b, w);
      SafeOne(h, end, db, Recovering(w, WindowStalled));
    } else {
      var v, w1 := rounds[0].visible, Rolled(w);
      RollKeepsWindow(h, n, keys, b, w);
      WindowStaysSound(h, n, v, keys, keys, b, w1);
      SoundMonotone(h, n, v, db);
      var roll := Recovering(w1, WindowRolled);
      var db1 := if MustRoll(w) then Apply(db, Check(roll)) else db;
      if MustRoll(w) {
        CheckKeepsSound(h, v, db, roll);
        BaselineAppend(db.log, roll);
      }
      var rows := PageRows(h, call.size, w1, v);
      var db2 := Apply(db1, Page(rows));
      PageMovesCursor(h, v, keys, b, w1, call.size);
      PageKeepsSound(h, v, db1, rows);
      TailStaysSound(h, n, v, keys, Keys(db2.stored), latest);
      AfterPageIsSafe(h, call, latest, w, rounds, v, end, db2, base);
      SoundMonotone(h, v, end, db1);
      SafeCons(h, end, db1, Page(rows), AfterPageCommits(h, call, latest, w, rounds));
      if MustRoll(w) {
        SafeCons(h, end, db, Check(roll), [Page(rows)] + AfterPageCommits(h, call, latest, w, rounds));
      }
    }
  }

  lemma TailStaysSound(h: seq<Trade>, n: nat, n': nat, keys: set<Id>, keys': set<Id>, latest: seq<Trade>)
    requires n <= n' <= |h| && keys <= keys' && TailSound(h, n, keys, latest)
    ensures TailSound(h, n', keys', latest)
  {
  }

  /** The rest of a round, from a state in which its page is stored. */
  lemma {:induction false} AfterPageIsSafe(
    h: seq<Trade>, call: Call, latest: seq<Trade>, w: Window, rounds: seq<Round>,
    v: nat, end: nat, db: Db, base: Id)
    requires SourceOk(h) && v <= end <= |h| && VisibleWithin(h, rounds)
    requires rounds != [] && !Stalled(w) && rounds[0].visible == v && call.size >= 1
    requires Sound(h, v, db) && Baseline(db.log) == Some(base)
    requires TailSound(h, v, Keys(db.stored), latest) && latest != []
    requires PosOf(h, base) <= PosOf(h, w.head) <= PosOf(h, latest[0].id)
    requires Fits(h, rounds[1..], v) && forall i :: 0 <= i < |rounds| ==> rounds[i].visible <= end
    requires var rows := PageRows(h, call.size, Rolled(w), v);
      && (w.anchor in Keys(rows) ==> Covered(h, Keys(db.stored), PosOf(h, base), PosOf(h, w.head)))
      && (w.anchor !in Keys(rows) ==>
            && |rows| == PageLimit(call.size, Rolled(w).offset)
            && WindowSound(h, v, Keys(db.stored), PosOf(h, base), AfterPage(Rolled(w), rows)))
    ensures forall k: nat :: SafeAt(h, end, db, AfterPageCommits(h, call, latest, w, rounds), k)
    decreases |rounds|, 0
  {
    hide Sound, WindowSound, TailSound, PosOf, Keys, PageRows, SourceOk, SafeAt, PagingCommits;
    var w1, keys, b := Rolled(w), Keys(db.stored), PosOf(h, base);
    var rows := PageRows(h, call.size, w1, v);
    SoundMonotone(h, v, end, db);
    if w.anchor in Keys(rows) {
      ConnectKeepsSound(h, v, keys, b, w1, latest, call.now);
      SoundMonotoneCheckpoint(h, v, end, keys, b, Connected(w1, latest, call.now));
      SafeOne(h, end, db, Connected(w1, latest, call.now));
    } else {
      var w2 := AfterPage(w1, rows);
      var cp := Recovering(w2, BudgetReached);
      CheckKeepsSound(h, v, db, cp);
      BaselineAppend(db.log, cp);
      PagingIsSafe(h, call, latest, w2, rounds[1..], v, end, Apply(db, Check(cp)), base);
      SafeCons(h, end, db, Check(cp), PagingCommits(h, call, latest, w2, rounds[1..]));
    }
  }

  // ---------- the tail page ----------

  /** A head on the tail page moves up to the newest trade without opening a gap. */
  lemma HeadMovesToTail(h: seq<Trade>, n: nat, keys: set<Id>, b: nat, w: Window, latest: seq<Trade>)
    requires SourceOk(h) && n <= |h| && WindowSound(h, n, keys, b, w)
    requires TailSound(h, n, keys, latest) && latest != []
    requires w.head in Keys(latest)
    ensures WindowSound(h, n, keys, b, w.(head := latest[0].id))
  {
    hide PosOf, UpTo, RunOf, Covered, CoveredAfter, Keys;
    var hd, top := PosOf(h, w.head), PosOf(h, latest[0].id);
    RowPosition(h, latest, top, w.head);
    RowsCover(h, latest, top, keys);
    CoveredExtend(h, keys, UpTo(h[..n], w.end) - w.offset, hd, top - |latest| + 1, top);
    if w.oldest.Some? {
      CoveredAfterExtend(h, keys, w.oldest.value, hd, top - |latest| + 1, top);
    }
  }

  lemma CoveredExtend(h: seq<Trade>, keys: set<Id>, lo: int, hi: int, lo': int, hi': int)
    requires Covered(h, keys, lo, hi) && Covered(h, keys, lo', hi') && lo' <= hi + 1
    ensures Covered(h, keys, lo, hi')
  {
  }

  lemma CoveredAfterExtend(h: seq<Trade>, keys: set<Id>, w: int, hi: int, lo': int, hi': int)
    requires CoveredAfter(h, keys, w, hi) && Covered(h, keys, lo', hi') && lo' <= hi + 1
    ensures CoveredAfter(h, keys, w, hi')
  {
  }

  /** A tail page that reaches a covered anchor covers everything up to its first row. */
  lemma TailConnects(h: seq<Trade>, n: nat, keys: set<Id>, b: nat, anchor: Id, latest: seq<Trade>)
    requires SourceOk(h) && n <= |h| && TailSound(h, n, keys, latest) && latest != []
    requires b <= PosOf(h, anchor) && Covered(h, keys, b, PosOf(h, anchor)) && anchor in Keys(latest)
    ensures b <= PosOf(h, latest[0].id) < n && Covered(h, keys, b, PosOf(h, latest[0].id))
  {
    hide PosOf, RunOf, Covered, Keys;
    var top := PosOf(h, latest[0].id);
    RowPosition(h, latest, top, anchor);
    RowsCover(h, latest, top, keys);
    CoveredExtend(h, keys, b, PosOf(h, anchor), top - |latest| + 1, top);
  }

  /** A tail page that misses the anchor opens a window between the two. */
  lemma NewWindowSound(h: seq<Trade>, v: nat, keys: set<Id>, b: nat, anchor: Id, latest: seq<Trade>, now: int)
    requires SourceOk(h) && v <= |h| && TailSound(h, v, keys, latest) && latest != []
    requires PosOf(h, latest[0].id) == v - 1
    requires b <= PosOf(h, anchor) < v && Covered(h, keys, b, PosOf(h, anchor)) && anchor !in Keys(latest)
    ensures WindowSound(h, v, keys, b, Window(anchor, latest[0].id, MaxTs(latest, now), 0, None))
  {
    hide PosOf, UpTo, RunOf, Keys, MaxTs;
    var top := PosOf(h, latest[0].id);
    RowPosition(h, latest, top, anchor);
    ExtremeTs(h, latest, top, now);
    UpToSplits(h[..v], h[top].ts);
    assert h[..v][top] == h[top] && h[..v][PosOf(h, anchor)] == h[PosOf(h, anchor)];
  }

  lemma StoredPosition(h: seq<Trade>, n: nat, stored: seq<Trade>, t: Trade)
    requires SourceOk(h) && n <= |h| && FromSource(h, n, stored) && t in stored
    ensures PosOf(h, t.id) < n && Covered(h, Keys(stored), PosOf(h, t.id), PosOf(h, t.id))
  {
    assert t in h[..n];
    var p :| 0 <= p < n && h[p] == t;
    PosOfAt(h, p);
  }

  /** The anchor a cycle starts from: known to the source, and covered back to the baseline. */
  lemma StartAnchorSound(h: seq<Trade>, n: nat, db: Db)
    requires Sound(h, n, db) && StartAnchor(db).Some?
    ensures var anchor := StartAnchor(db).value; var b := PosOf(h, Baseline(db.log).GetOr(anchor));
      b <= PosOf(h, anchor) < n && Covered(h, Keys(db.stored), b, PosOf(h, anchor))
  {
    hide PosOf, Covered, Keys;
    var prior := Prior(db);
    if prior.Some? && prior.value.Anchor().Some? {
      assert prior.value in db.log;
    } else {
      StoredPosition(h, n, db.stored, NewestStored(db.stored).value);
    }
  }

  /** The checkpoint or window decided after the tail page makes a claim that holds. */
  lemma StartDecisionSound(h: seq<Trade>, v: nat, db0: Db, db: Db, latest: seq<Trade>, now: int)
    requires Sound(h, v, db0) && Sound(h, v, db) && db.log == db0.log && Keys(db0.stored) <= Keys(db.stored)
    requires TailSound(h, v, Keys(db.stored), latest)
    requires latest == [] ==> v == 0
    requires latest != [] ==> PosOf(h, latest[0].id) == v - 1
    ensures var anchor, w := StartAnchor(db0), StartWindow(db0, latest, now);
      if w.None? then Claims(h, v, db, CaughtUp(LatestAnchor(latest, anchor), TailHead(db0, latest), OverlapFound))
      else latest != [] && PosOf(h, w.value.head) <= PosOf(h, latest[0].id) && Claims(h, v, db, Recovering(w.value, RecoveryInProgress))
  {
    hide PosOf, UpTo, RunOf, Covered, CoveredAfter, Keys, MaxTs, NewestStored;
    var prior, anchor, w := Prior(db0), StartAnchor(db0), StartWindow(db0, latest, now);
    var keys := Keys(db.stored);
    if anchor.Some? {
      StartAnchorSound(h, v, db0);
      var b := PosOf(h, Baseline(db.log).GetOr(anchor.value));
      CoveredWiden(h, Keys(db0.stored), keys, b, PosOf(h, anchor.value));
      if w.None? {
        TailConnects(h, v, keys, b, anchor.value, latest);
        CoveredOne(h, keys, b, PosOf(h, latest[0].id));
      } else if prior.Some? && prior.value.Recovering? {
        assert prior.value in db.log;
        var pw := prior.value.window;
        assert WindowSound(h, v, keys, b, pw);
        if pw.head in Keys(latest) {
          HeadMovesToTail(h, v, keys, b, pw, latest);
        }
      } else {
        NewWindowSound(h, v, keys, b, anchor.value, latest, now);
      }
    } else if latest != [] {
      RowsCover(h, latest, v - 1, keys);
      CoveredOne(h, keys, v - |latest|, v - 1);
    }
  }

  lemma CoveredOne(h: seq<Trade>, keys: set<Id>, lo: int, hi: int)
    requires Covered(h, keys, lo, hi) && lo <= hi
    ensures Covered(h, keys, hi, hi)
  {
  }

  /** What `StartDecisionSound` concludes, as one fact about a state in which the tail is stored. */
  ghost predicate Decided(h: seq<Trade>, v: nat, db0: Db, db1: Db, latest: seq<Trade>, now: int)
    requires v <= |h|
  {
    var w := StartWindow(db0, latest, now);
    if w.None? then Claims(h, v, db1, CaughtUp(LatestAnchor(latest, StartAnchor(db0)), TailHead(db0, latest), OverlapFound))
    else latest != [] && PosOf(h, w.value.head) <= PosOf(h, latest[0].id) && Claims(h, v, db1, Recovering(w.value, RecoveryInProgress))
  }

  /** The state right after the tail page is stored. */
  lemma TailPageSound(h: seq<Trade>, n: nat, db: Db, call: Call)
    requires SourceOk(h) && n <= |h| && Sound(h, n, db) && CallOk(h, call, n)
    ensures var v, latest := call.visible, TailRows(h, call); var db1 := Apply(db, Page(latest));
      && Sound(h, v, db) && Sound(h, v, db1) && Keys(db1.stored) == Keys(db.stored) + Keys(latest)
      && RunOf(h, latest, v - 1) && TailSound(h, v, Keys(db1.stored), latest)
      && Decided(h, v, db, db1, latest, call.now)
  {
    hide WindowSound, TailSound, PosOf, Keys, GetTrades, MaxTs, RunOf, Sound, StartWindow, Claims, Apply;
    var v, latest := call.visible, TailRows(h, call);
    var db1 := Apply(db, Page(latest));
    SoundMonotone(h, n, v, db);
    TailIsNewest(h, v, call.size);
    RunVisible(h, v, latest);
    PageKeepsSound(h, v, db, latest);
    TailRowsSound(h, v, call.size, Keys(db1.stored));
    TopOfRun(h, v, latest);
    PageKeepsLog(db, latest);
    StartDecisionSound(h, v, db, db1, latest, call.now);
  }

  lemma PageKeepsLog(db: Db, rows: seq<Trade>)
    ensures Apply(db, Page(rows)).log == db.log
  {
  }

  lemma TopOfRun(h: seq<Trade>, v: nat, latest: seq<Trade>)
    requires SourceOk(h) && v <= |h| && RunOf(h, latest, v - 1)
    ensures latest != [] ==> PosOf(h, latest[0].id) == v - 1 && latest[0] == h[v - 1]
  {
    hide PosOf;
    if latest != [] {
      PosOfAt(h, v - 1);
      assert latest[0] == h[v - 1 - 0];
    }
  }

  /** A whole cycle, cut off after any commit, keeps the invariant. */
  lemma CycleIsSafe(h: seq<Trade>, n: nat, end: nat, db: Db, call: Call)
    requires SourceOk(h) && n <= |h| && Sound(h, n, db) && CallOk(h, call, n) && call.visible <= end <= |h|
    requires VisibleWithin(h, call.rounds) && forall i :: 0 <= i < |call.rounds| ==> call.rounds[i].visible <= end
    ensures forall k: nat :: SafeAt(h, end, db, CycleCommits(h, db, call), k)
  {
    hide WindowSound, TailSound, PosOf, Keys, SafeAt, PagingCommits, GetTrades, MaxTs, StartWindow, RunOf, Sound;
    var v, latest := call.visible, TailRows(h, call);
    var db1 := Apply(db, Page(latest));
    TailPageSound(h, n, db, call);
    SoundMonotone(h, n, end, db);
    SoundMonotone(h, v, end, db1);
    var rest := CycleCommits(h, db, call)[1..];
    if StartWindow(db, latest, call.now).None? {
      CaughtUpIsSafe(h, v, end, db, db1, call, rest);
    } else {
      RecoveryIsSafe(h, v, end, db, db1, call, rest);
    }
    SafeCons(h, end, db, Page(latest), rest);
    assert CycleCommits(h, db, call) == [Page(latest)] + rest;
  }

  lemma CaughtUpIsSafe(h: seq<Trade>, v: nat, end: nat, db: Db, db1: Db, call: Call, rest: seq<Commit>)
    requires v <= end <= |h| && call.visible == v && VisibleWithin(h, call.rounds) && SourceOk(h)
    requires Sound(h, end, db1) && Decided(h, v, db, db1, TailRows(h, call), call.now)
    requires StartWindow(db, TailRows(h, call), call.now).None? && rest == CycleCommits(h, db, call)[1..]
    ensures forall k: nat :: SafeAt(h, end, db1, rest, k)
  {
    hide WindowSound, PosOf, Keys, SafeAt, GetTrades, StartWindow, Sound;
    var latest, anchor := TailRows(h, call), StartAnchor(db);
    var cp := CaughtUp(LatestAnchor(latest, anchor), TailHead(db, latest),
                       if anchor.Some? then OverlapFound else InitialBaseline);
    ClaimsLater(h, v, end, db1, cp);
    if rest == [] {
      SafeEmpty(h, end, db1);
    } else {
      assert rest == [Check(cp)];
      SafeOne(h, end, db1, cp);
    }
  }

  lemma RecoveryIsSafe(h: seq<Trade>, v: nat, end: nat, db: Db, db1: Db, call: Call, rest: seq<Commit>)
    requires v <= end <= |h| && call.visible == v && VisibleWithin(h, call.rounds) && SourceOk(h) && call.size >= 1
    requires Fits(h, call.rounds, v) && forall i :: 0 <= i < |call.rounds| ==> call.rounds[i].visible <= end
    requires Sound(h, v, db1) && Sound(h, end, db1) && Decided(h, v, db, db1, TailRows(h, call), call.now)
    requires TailSound(h, v, Keys(db1.stored), TailRows(h, call))
    requires StartWindow(db, TailRows(h, call), call.now).Some? && rest == CycleCommits(h, db, call)[1..]
    ensures forall k: nat :: SafeAt(h, end, db1, rest, k)
  {
    hide WindowSound, TailSound, PosOf, Keys, SafeAt, PagingCommits, GetTrades, StartWindow, Sound;
    var latest := TailRows(h, call);
    var w := StartWindow(db, latest, call.now).value;
    var cp := Recovering(w, RecoveryInProgress);
    CheckKeepsSound(h, v, db1, cp);
    BaselineAppend(db1.log, cp);
    var db2 := Apply(db1, Check(cp));
    var pages := PagingCommits(h, call, latest, w, call.rounds);
    PagingIsSafe(h, call, latest, w, call.rounds, v, end, db2, Baseline(db2.log).value);
    SafeCons(h, end, db1, Check(cp), pages);
    assert rest == [Check(cp)] + pages;
  }

  lemma ClaimsLater(h: seq<Trade>, n: nat, n': nat, db: Db, cp: Checkpoint)
    requires SourceOk(h) && n <= n' <= |h| && Claims(h, n, db, cp)
    ensures Claims(h, n', db, cp)
  {
    if cp.Anchor().Some? {
      SoundMonotoneCheckpoint(h, n, n', Keys(db.stored), PosOf(h, Baseline(db.log).GetOr(cp.Anchor().value)), cp);
    }
  }

  lemma SoundMonotoneCheckpoint(h: seq<Trade>, n: nat, n': nat, keys: set<Id>, b: nat, cp: Checkpoint)
    requires SourceOk(h) && n <= n' <= |h| && CheckpointSound(h, n, keys, b, cp)
    ensures CheckpointSound(h, n', keys, b, cp)
  {
    if cp.Recovering? {
      WindowStaysSound(h, n, n', keys, keys, b, cp.window);
      if cp.reason == WindowStalled {
        CrowdedStays(h, n, n', cp.window.end);
      }
    }
  }
}
