/**
 Gap-free catch-up of an approved wallet (ingestion/catchup.py).

 The source is an append-only history `h`, oldest trade first; a request made while the first `v`
 trades exist sees `h[..v]` and answers newest first.  One cycle is described by the durable commits
 it makes, in order (`CycleCommits`): a crash, or a failing request, is any prefix of them.
 `WalletCatchUp.IngestApprovedWallet` is the program's loop, proved to make exactly those commits.

 Well-formed rows only: every row has an identity, and identities are distinct.
 */
module CatchUp {
  import opened Wrappers

  type Id = string
  datatype Trade = Trade(id: Id, ts: int)

  /** The recovery window a checkpoint preserves. */
  datatype Window = Window(anchor: Id, head: Id, end: int, offset: nat, oldest: Option<int>)

  datatype Reason =
    | InitialBaseline | OverlapFound | RecoveryInProgress | WalletDisabled | WindowStalled
    | WindowRolled | NextWindowPending | BudgetReached | HistoryExhausted

  datatype Checkpoint =
    | CaughtUp(at: Option<Id>, head: Option<Id>, reason: Reason)
    | Recovering(window: Window, reason: Reason)
  {
    function Anchor(): Option<Id> {
      if CaughtUp? then at else Some(window.anchor)
    }
  }

  /** What the program commits: the rows of a page, or a checkpoint. */
  datatype Commit = Page(rows: seq<Trade>) | Check(cp: Checkpoint)

  /** Durable state: stored trades in insertion order, and the checkpoint log. */
  datatype Db = Db(stored: seq<Trade>, log: seq<Checkpoint>)

  const MAX_OFFSET: nat := 10000

  // ---------- the source ----------

  function Matching(src: seq<Trade>, start: Option<int>, end: Option<int>): seq<Trade> {
    if src == [] then []
    else
      var rest := Matching(src[1..], start, end);
      if (start.Some? && src[0].ts < start.value) || (end.Some? && src[0].ts > end.value) then rest
      else [src[0]] + rest
  }

  function Reversed(s: seq<Trade>): (r: seq<Trade>)
    ensures |r| == |s|
    ensures forall i :: 0 <= i < |s| ==> r[i] == s[|s| - 1 - i]
  {
    if s == [] then [] else Reversed(s[1..]) + [s[0]]
  }

  function Slice(s: seq<Trade>, offset: nat, limit: nat): seq<Trade> {
    if offset >= |s| then []
    else if offset + limit >= |s| then s[offset..]
    else s[offset..offset + limit]
  }

  /** The Data API: trades within the bounds, newest first, one limit/offset page of them. */
  function GetTrades(src: seq<Trade>, limit: nat, offset: nat, start: Option<int>, end: Option<int>): seq<Trade> {
    Slice(Reversed(Matching(src, start, end)), offset, limit)
  }

  /** Timestamps never decrease, every one is positive, and identities are distinct. */
  ghost predicate SourceOk(h: seq<Trade>) {
    && (forall p, q :: 0 <= p <= q < |h| ==> h[p].ts <= h[q].ts)
    && (forall p :: 0 <= p < |h| ==> h[p].ts >= 1)
    && (forall p, q :: 0 <= p < q < |h| ==> h[p].id != h[q].id)
  }

  /** Number of leading trades at or before `e`. */
  function UpTo(src: seq<Trade>, e: int): (n: nat)
    ensures n <= |src|
  {
    if src == [] || src[0].ts > e then 0 else 1 + UpTo(src[1..], e)
  }

  lemma {:induction false} UpToSplits(src: seq<Trade>, e: int)
    requires forall p, q :: 0 <= p <= q < |src| ==> src[p].ts <= src[q].ts
    ensures forall p :: 0 <= p < |src| ==> (p < UpTo(src, e) <==> src[p].ts <= e)
  {
    if src != [] && src[0].ts <= e {
      UpToSplits(src[1..], e);
      forall p | 0 <= p < |src|
        ensures p < UpTo(src, e) <==> src[p].ts <= e
      {
        if p > 0 {
          assert src[1..][p - 1] == src[p];
        }
      }
    }
  }

  lemma {:induction false} MatchingIsPrefix(src: seq<Trade>, e: int)
    requires forall p, q :: 0 <= p <= q < |src| ==> src[p].ts <= src[q].ts
    requires forall p :: 0 <= p < |src| ==> src[p].ts >= 1
    ensures Matching(src, Some(1), Some(e)) == src[..UpTo(src, e)]
  {
    if src != [] {
      MatchingIsPrefix(src[1..], e);
      if src[0].ts > e {
        forall p | 0 <= p < |src[1..]|
          ensures src[1..][p].ts > e
        {
          assert src[1..][p] == src[p + 1];
        }
        if src[1..] != [] {
          assert src[1..][0].ts > e;
        }
      } else {
        assert src[..UpTo(src, e)] == [src[0]] + src[1..][..UpTo(src[1..], e)];
      }
    }
  }

  lemma {:induction false} MatchingAll(src: seq<Trade>)
    ensures Matching(src, None, None) == src
  {
    if src != [] {
      MatchingAll(src[1..]);
    }
  }

  // ---------- storage ----------

  function Keys(rows: seq<Trade>): set<Id> {
    set t | t in rows :: t.id
  }

  lemma KeysConcat(a: seq<Trade>, b: seq<Trade>)
    ensures Keys(a + b) == Keys(a) + Keys(b)
  {
    assert forall t :: t in a + b <==> t in a || t in b;
    assert forall k :: k in Keys(a) + Keys(b) ==> exists t :: t in a + b && t.id == k;
  }

  lemma KeysOne(t: Trade)
    ensures Keys([t]) == {t.id}
  {
    assert t in [t];
  }

  function FirstOccurrences(rows: seq<Trade>): seq<Trade> {
    if rows == [] then []
    else
      var init := FirstOccurrences(rows[..|rows| - 1]);
      var row := rows[|rows| - 1];
      if row.id in Keys(init) then init else init + [row]
  }

  function NotIn(rows: seq<Trade>, known: set<Id>): seq<Trade> {
    if rows == [] then []
    else
      var init := NotIn(rows[..|rows| - 1], known);
      var row := rows[|rows| - 1];
      if row.id in known then init else init + [row]
  }

  /** Rows new to the table are appended once, in page order. */
  function InsertNew(stored: seq<Trade>, rows: seq<Trade>): seq<Trade> {
    stored + NotIn(FirstOccurrences(rows), Keys(stored))
  }

  lemma {:induction false} FirstOccurrencesKeepKeys(rows: seq<Trade>)
    ensures Keys(FirstOccurrences(rows)) == Keys(rows)
    ensures forall t :: t in FirstOccurrences(rows) ==> t in rows
  {
    if rows != [] {
      var k := |rows| - 1;
      FirstOccurrencesKeepKeys(rows[..k]);
      assert rows == rows[..k] + [rows[k]];
      KeysConcat(rows[..k], [rows[k]]);
      KeysConcat(FirstOccurrences(rows[..k]), [rows[k]]);
      KeysOne(rows[k]);
    }
  }

  lemma {:induction false} NotInKeys(rows: seq<Trade>, known: set<Id>)
    ensures Keys(NotIn(rows, known)) == Keys(rows) - known
    ensures forall t :: t in NotIn(rows, known) ==> t in rows
  {
    if rows != [] {
      var k := |rows| - 1;
      NotInKeys(rows[..k], known);
      assert rows == rows[..k] + [rows[k]];
      KeysConcat(rows[..k], [rows[k]]);
      KeysConcat(NotIn(rows[..k], known), [rows[k]]);
      KeysOne(rows[k]);
    }
  }

  /** Storing a page adds exactly its identities, and only rows of that page. */
  lemma InsertNewKeys(stored: seq<Trade>, rows: seq<Trade>)
    ensures Keys(InsertNew(stored, rows)) == Keys(stored) + Keys(rows)
    ensures forall t :: t in InsertNew(stored, rows) ==> t in stored || t in rows
  {
    FirstOccurrencesKeepKeys(rows);
    NotInKeys(FirstOccurrences(rows), Keys(stored));
    KeysConcat(stored, NotIn(FirstOccurrences(rows), Keys(stored)));
  }

  /** Stored trade with the greatest timestamp; among equals the one inserted last. */
  function NewestStored(stored: seq<Trade>): (r: Option<Trade>)
    ensures r.None? <==> stored == []
    ensures r.Some? ==> r.value in stored
  {
    if stored == [] then None
    else
      var init := NewestStored(stored[..|stored| - 1]);
      var t := stored[|stored| - 1];
      if init.Some? && init.value.ts > t.ts then init else Some(t)
  }

  function Apply(db: Db, c: Commit): Db {
    match c
    case Page(rows) => db.(stored := InsertNew(db.stored, rows))
    case Check(cp) => db.(log := db.log + [cp])
  }

  function ApplyAll(db: Db, cs: seq<Commit>): Db
    decreases |cs|
  {
    if cs == [] then db else ApplyAll(Apply(db, cs[0]), cs[1..])
  }

  lemma {:induction false} ApplyAllAppend(db: Db, a: seq<Commit>, b: seq<Commit>)
    ensures ApplyAll(db, a + b) == ApplyAll(ApplyAll(db, a), b)
    decreases |a|
  {
    if a == [] {
      assert a + b == b;
    } else {
      assert (a + b)[1..] == a[1..] + b;
      ApplyAllAppend(Apply(db, a[0]), a[1..], b);
    }
  }

  // ---------- one cycle ----------

  /** What one paging round meets: the approval read before it, and how long the source then is. */
  datatype Round = Round(approved: bool, visible: nat)

  /** One call: page size, wall clock, length of the source at the first request, and the rounds. */
  datatype Call = Call(size: nat, now: int, visible: nat, rounds: seq<Round>)

  function Prior(db: Db): Option<Checkpoint> {
    if db.log == [] then None else Some(db.log[|db.log| - 1])
  }

  function StartAnchor(db: Db): Option<Id> {
    var prior := Prior(db);
    if prior.Some? && prior.value.Anchor().Some? then prior.value.Anchor()
    else
      var newest := NewestStored(db.stored);
      if newest.Some? then Some(newest.value.id) else None
  }

  function MaxTs(rows: seq<Trade>, default: int): int {
    if rows == [] then default
    else if |rows| == 1 then rows[0].ts
    else
      var m := MaxTs(rows[..|rows| - 1], default);
      if rows[|rows| - 1].ts > m then rows[|rows| - 1].ts else m
  }

  function MinTs(rows: seq<Trade>): int
    requires rows != []
  {
    if |rows| == 1 then rows[0].ts
    else
      var m := MinTs(rows[..|rows| - 1]);
      if rows[|rows| - 1].ts < m then rows[|rows| - 1].ts else m
  }

  function LatestAnchor(latest: seq<Trade>, anchor: Option<Id>): Option<Id> {
    if latest == [] then anchor else Some(latest[0].id)
  }

  /** The window the cycle works on, if it is not caught up after the tail page. */
  function StartWindow(db: Db, latest: seq<Trade>, now: int): Option<Window> {
    var prior, anchor := Prior(db), StartAnchor(db);
    if prior.Some? && prior.value.Recovering? then
      var w := prior.value.window;
      if w.anchor in Keys(latest) then None
      else Some(w.(head := if w.head in Keys(latest) then LatestAnchor(latest, anchor).GetOr(w.head) else w.head))
    else if anchor.Some? && anchor.value !in Keys(latest) then
      Some(Window(anchor.value, LatestAnchor(latest, anchor).value, MaxTs(latest, now), 0, None))
    else None
  }

  /** `head_anchor` of the checkpoint written when the tail page already connects. */
  function TailHead(db: Db, latest: seq<Trade>): Option<Id> {
    var prior, anchor := Prior(db), StartAnchor(db);
    if prior.Some? && prior.value.Recovering? && prior.value.window.head !in Keys(latest)
    then Some(prior.value.window.head)
    else LatestAnchor(latest, anchor)
  }

  function NextWindow(w: Window, latest: seq<Trade>, now: int): Window {
    Window(w.head, LatestAnchor(latest, Some(w.anchor)).value, MaxTs(latest, now), 0, None)
  }

  function PageLimit(size: nat, offset: nat): nat
    requires offset <= MAX_OFFSET
  {
    if size <= MAX_OFFSET - offset then size else MAX_OFFSET - offset
  }

  predicate MustRoll(w: Window) { w.offset >= MAX_OFFSET }

  predicate Stalled(w: Window) { MustRoll(w) && (w.oldest.None? || w.oldest.value >= w.end) }

  function Rolled(w: Window): (r: Window)
    requires !Stalled(w)
    ensures r.offset < MAX_OFFSET
  {
    if MustRoll(w) then w.(end := w.oldest.value, offset := 0) else w
  }

  function AfterPage(w: Window, rows: seq<Trade>): Window {
    w.(offset := w.offset + |rows|, oldest := if rows == [] then w.oldest else Some(MinTs(rows)))
  }

  function PageRows(h: seq<Trade>, size: nat, w: Window, visible: nat): seq<Trade>
    requires w.offset < MAX_OFFSET && visible <= |h|
  {
    GetTrades(h[..visible], PageLimit(size, w.offset), w.offset, Some(1), Some(w.end))
  }

  /** The commit that ends a window whose anchor was reached. */
  function Connected(w: Window, latest: seq<Trade>, now: int): Checkpoint {
    if w.head !in Keys(latest) then Recovering(NextWindow(w, latest, now), NextWindowPending)
    else CaughtUp(LatestAnchor(latest, Some(w.anchor)), Some(w.head), OverlapFound)
  }

  predicate Fits(h: seq<Trade>, rounds: seq<Round>, from: nat) {
    from <= |h| && (rounds == [] || (from <= rounds[0].visible <= |h| && Fits(h, rounds[1..], rounds[0].visible)))
  }

  predicate VisibleWithin(h: seq<Trade>, rounds: seq<Round>) {
    forall i :: 0 <= i < |rounds| ==> rounds[i].visible <= |h|
  }

  /** The durable commits of the paging loop. */
  function PagingCommits(h: seq<Trade>, call: Call, latest: seq<Trade>, w: Window, rounds: seq<Round>): seq<Commit>
    requires VisibleWithin(h, rounds)
    decreases |rounds|, 1
  {
    if rounds == [] then []
    else if !rounds[0].approved then [Check(Recovering(w, WalletDisabled))]
    else if Stalled(w) then [Check(Recovering(w, WindowStalled))]
    else
      var paged := [Page(PageRows(h, call.size, Rolled(w), rounds[0].visible))] + AfterPageCommits(h, call, latest, w, rounds);
      if MustRoll(w) then [Check(Recovering(Rolled(w), WindowRolled))] + paged else paged
  }

  /** What a round commits once its page is stored, and the rounds after it. */
  function AfterPageCommits(h: seq<Trade>, call: Call, latest: seq<Trade>, w: Window, rounds: seq<Round>): seq<Commit>
    requires rounds != [] && !Stalled(w) && VisibleWithin(h, rounds)
    decreases |rounds|, 0
  {
    var w1 := Rolled(w);
    var rows := PageRows(h, call.size, w1, rounds[0].visible);
    var w2 := AfterPage(w1, rows);
    if w.anchor in Keys(rows) then [Check(Connected(w1, latest, call.now))]
    else if |rows| < PageLimit(call.size, w1.offset) then [Check(Recovering(w2, HistoryExhausted))]
    else [Check(Recovering(w2, BudgetReached))] + PagingCommits(h, call, latest, w2, rounds[1..])
  }

  predicate CallOk(h: seq<Trade>, call: Call, from: nat) {
    && call.size >= 1
    && from <= call.visible <= |h|
    && call.rounds != []
    && Fits(h, call.rounds, call.visible)
  }

  lemma {:induction false} FitsVisible(h: seq<Trade>, rounds: seq<Round>, from: nat)
    requires Fits(h, rounds, from)
    ensures forall i :: 0 <= i < |rounds| ==> from <= rounds[i].visible <= |h|
    ensures VisibleWithin(h, rounds)
  {
    if rounds != [] {
      FitsVisible(h, rounds[1..], rounds[0].visible);
      assert forall i :: 1 <= i < |rounds| ==> rounds[i] == rounds[1..][i - 1];
    }
  }

  function TailRows(h: seq<Trade>, call: Call): seq<Trade>
    requires call.visible <= |h|
  {
    GetTrades(h[..call.visible], call.size, 0, None, None)
  }

  /** Every durable commit of one uninterrupted call, in order. */
  function CycleCommits(h: seq<Trade>, db: Db, call: Call): seq<Commit>
    requires call.visible <= |h| && VisibleWithin(h, call.rounds)
  {
    var latest := TailRows(h, call);
    var anchor := StartAnchor(db);
    var w := StartWindow(db, latest, call.now);
    [Page(latest)]
    + if w.None? then
        if Prior(db).None? || LatestAnchor(latest, anchor) != anchor
        then [Check(CaughtUp(LatestAnchor(latest, anchor), TailHead(db, latest),
                             if anchor.Some? then OverlapFound else InitialBaseline))]
        else []
      else [Check(Recovering(w.value, RecoveryInProgress))]
           + PagingCommits(h, call, latest, w.value, call.rounds)
  }

  // ---------- the program ----------

  lemma {:induction false} AppliedMore(db: Db, done: seq<Commit>, c: Commit)
    ensures ApplyAll(db, done + [c]) == Apply(ApplyAll(db, done), c)
  {
    ApplyAllAppend(db, done, [c]);
    assert [c][1..] == [];
    var mid := ApplyAll(db, done);
    assert ApplyAll(mid, [c]) == ApplyAll(Apply(mid, c), []);
  }

  /**
   One wallet's stored trades and checkpoint log.  `commits` lists every durable commit since the
   state `base`, in order; `Valid` says the stored state is what those commits add up to.
   */
  class WalletCatchUp {
    var stored: seq<Trade>
    var log: seq<Checkpoint>
    ghost var base: Db
    ghost var commits: seq<Commit>

    ghost function State(): Db
      reads this
    {
      Db(stored, log)
    }

    ghost predicate Valid()
      reads this
    {
      State() == ApplyAll(base, commits)
    }

    constructor (existing: seq<Trade>)
      ensures Valid() && stored == existing && log == [] && commits == []
    {
      stored, log, commits, base := existing, [], [], Db(existing, []);
    }

    /** `ingest_trade_rows`: first row per identity, then the identities not stored yet. */
    method IngestTradeRows(rows: seq<Trade>)
      requires Valid()
      modifies `stored, `commits
      ensures Valid() && State() == Apply(old(State()), Page(rows))
      ensures commits == old(commits) + [Page(rows)]
    {
      var keyed: seq<Trade> := [];
      for i := 0 to |rows|
        invariant keyed == FirstOccurrences(rows[..i])
      {
        assert rows[..i + 1][..i] == rows[..i];
        if rows[i].id !in Keys(keyed) {
          keyed := keyed + [rows[i]];
        }
      }
      assert rows[..|rows|] == rows;
      var existing := Keys(stored);
      var newRows: seq<Trade> := [];
      for i := 0 to |keyed|
        invariant newRows == NotIn(keyed[..i], existing)
      {
        assert keyed[..i + 1][..i] == keyed[..i];
        if keyed[i].id !in existing {
          newRows := newRows + [keyed[i]];
        }
      }
      assert keyed[..|keyed|] == keyed;
      AppliedMore(base, commits, Page(rows));
      stored, commits := stored + newRows, commits + [Page(rows)];
    }

    /** The `checkpoint` closure: append the checkpoint to the log and commit. */
    method WriteCheckpoint(cp: Checkpoint)
      requires Valid()
      modifies `log, `commits
      ensures Valid() && State() == Apply(old(State()), Check(cp))
      ensures commits == old(commits) + [Check(cp)]
    {
      AppliedMore(base, commits, Check(cp));
      log, commits := log + [cp], commits + [Check(cp)];
    }

    /** `ingest_approved_wallet`: the tail page, then bounded older pages until the anchor is seen. */
    method IngestApprovedWallet(h: seq<Trade>, call: Call)
      requires Valid() && call.visible <= |h| && VisibleWithin(h, call.rounds)
      modifies `stored, `log, `commits
      ensures Valid()
      ensures commits == old(commits) + CycleCommits(h, old(State()), call)
      ensures State() == ApplyAll(old(State()), CycleCommits(h, old(State()), call))
    {
      hide GetTrades, Keys, MaxTs, NewestStored, PagingCommits, InsertNew, ApplyAll;
      ghost var before, all := commits, CycleCommits(h, State(), call);
      var prior := if log == [] then None else Some(log[|log| - 1]);
      var anchor: Option<Id> := None;
      if prior.Some? {
        anchor := prior.value.Anchor();
      }
      if anchor.None? {
        var newest := NewestStored(stored);
        anchor := if newest.Some? then Some(newest.value.id) else None;
      }

      var latest := GetTrades(h[..call.visible], call.size, 0, None, None);
      var latestKeys := Keys(latest);
      var latestAnchor := if latest == [] then anchor else Some(latest[0].id);
      IngestTradeRows(latest);

      var w: Option<Window> := None;
      var head := latestAnchor;
      if prior.Some? && prior.value.Recovering? {
        if prior.value.window.head !in latestKeys {
          head := Some(prior.value.window.head);
        }
        if prior.value.window.anchor !in latestKeys {
          w := Some(prior.value.window.(head := head.GetOr(prior.value.window.head)));
        }
      } else if anchor.Some? && anchor.value !in latestKeys {
        w := Some(Window(anchor.value, latestAnchor.value, MaxTs(latest, call.now), 0, None));
      }

      if w.None? {
        if prior.None? || latestAnchor != anchor {
          WriteCheckpoint(CaughtUp(latestAnchor, head, if anchor.Some? then OverlapFound else InitialBaseline));
        }
      } else {
        WriteCheckpoint(Recovering(w.value, RecoveryInProgress));
        PageOlder(h, call, latest, w.value);
      }
      assert commits == before + all;
      ApplyAllAppend(base, before, all);
    }

    /** The paging loop: at most one page a round, each stored before its checkpoint. */
    method PageOlder(h: seq<Trade>, call: Call, latest: seq<Trade>, w: Window)
      requires Valid() && VisibleWithin(h, call.rounds)
      modifies `stored, `log, `commits
      ensures Valid()
      ensures commits == old(commits) + PagingCommits(h, call, latest, w, call.rounds)
    {
      hide GetTrades, Keys, MaxTs, MinTs, InsertNew, ApplyAll, Valid, State;
      var state := w;
      assert call.rounds[0..] == call.rounds;
      var i := 0;
      while i < |call.rounds|
        invariant 0 <= i <= |call.rounds| && Valid()
        invariant commits + PagingCommits(h, call, latest, state, call.rounds[i..])
               == old(commits) + PagingCommits(h, call, latest, w, call.rounds)
      {
        ghost var rounds := call.rounds[i..];
        assert rounds[0] == call.rounds[i] && rounds[1..] == call.rounds[i + 1..];
        if !call.rounds[i].approved {
          WriteCheckpoint(Recovering(state, WalletDisabled));
          return;
        }
        ghost var unrolled := state;
        if state.offset >= MAX_OFFSET {
          if state.oldest.None? || state.oldest.value >= state.end {
            WriteCheckpoint(Recovering(state, WindowStalled));
            return;
          }
          state := state.(end := state.oldest.value, offset := 0);
          WriteCheckpoint(Recovering(state, WindowRolled));
        }
        ghost var page := [Page(PageRows(h, call.size, state, call.rounds[i].visible))];
        ghost var after := AfterPageCommits(h, call, latest, unrolled, rounds);
        assert commits + page + after == old(commits) + PagingCommits(h, call, latest, w, call.rounds);
        var more;
        state, more := ReadPage(h, call, latest, state, call.rounds[i].visible, unrolled, rounds);
        if !more {
          return;
        }
        i := i + 1;
      }
    }

    /** One page of the window: store it, then record whether the anchor was reached. */
    method ReadPage(
      h: seq<Trade>, call: Call, latest: seq<Trade>, state: Window, visible: nat,
      ghost unrolled: Window, ghost rounds: seq<Round>) returns (next: Window, more: bool)
      requires Valid() && VisibleWithin(h, rounds) && rounds != [] && visible == rounds[0].visible
      requires !Stalled(unrolled) && state == Rolled(unrolled)
      modifies `stored, `log, `commits
      ensures Valid()
      ensures commits + (if more then PagingCommits(h, call, latest, next, rounds[1..]) else [])
           == old(commits) + [Page(PageRows(h, call.size, state, visible))]
              + AfterPageCommits(h, call, latest, unrolled, rounds)
    {
      hide GetTrades, Keys, MaxTs, MinTs, InsertNew, ApplyAll, Valid, State, PagingCommits;
      var latestKeys := Keys(latest);
      var latestAnchor := if latest == [] then state.anchor else latest[0].id;
      next, more := state, false;
      var limit := PageLimit(call.size, state.offset);
      var rows := GetTrades(h[..visible], limit, state.offset, Some(1), Some(state.end));
      var keys := Keys(rows);
      IngestTradeRows(rows);
      if state.anchor in keys {
        if state.head !in latestKeys {
          WriteCheckpoint(Recovering(Window(state.head, latestAnchor, MaxTs(latest, call.now), 0, None), NextWindowPending));
        } else {
          WriteCheckpoint(CaughtUp(Some(latestAnchor), Some(state.head), OverlapFound));
        }
        return;
      }
      next := state.(offset := state.offset + |rows|,
                     oldest := if rows == [] then state.oldest else Some(MinTs(rows)));
      if |rows| < limit {
        WriteCheckpoint(Recovering(next, HistoryExhausted));
        return;
      }
      WriteCheckpoint(Recovering(next, BudgetReached));
      more := true;
    }
  }
}
