/**
 Why one call of the catch-up stops where it does: lost approval, what the first checkpoint says, and what
 storing a page adds.
 */
module CatchUpReasons {
  import opened Wrappers
  import opened CatchUp

  // ---------- lost approval ----------

  function Pages(cs: seq<Commit>): nat {
    if cs == [] then 0 else Pages(cs[..|cs| - 1]) + if cs[|cs| - 1].Page? then 1 else 0
  }

  lemma {:induction false} PagesConcat(a: seq<Commit>, b: seq<Commit>)
    ensures Pages(a + b) == Pages(a) + Pages(b)
  {
    if b == [] {
      assert a + b == a;
    } else {
      PagesConcat(a, b[..|b| - 1]);
      assert (a + b)[..|a + b| - 1] == a + b[..|b| - 1];
    }
  }

  predicate Approved(rounds: seq<Round>, n: nat) {
    n <= |rounds| && forall i :: 0 <= i < n ==> rounds[i].approved
  }

  /** The loop is still going: nothing yet, or a page of the window stored and the budget left. */
  predicate StillOpen(cs: seq<Commit>) {
    cs == [] || (cs[|cs| - 1].Check? && cs[|cs| - 1].cp.Recovering? && cs[|cs| - 1].cp.reason == BudgetReached)
  }

  function OpenWindow(w: Window, cs: seq<Commit>): Window
    requires StillOpen(cs)
  {
    if cs == [] then w else cs[|cs| - 1].cp.window
  }

  lemma StillOpenAfter(a: seq<Commit>, b: seq<Commit>, w: Window, w': Window)
    requires a != [] && StillOpen(a) && OpenWindow(w, a) == w'
    ensures StillOpen(a + b) <==> StillOpen(b)
    ensures StillOpen(b) ==> OpenWindow(w, a + b) == OpenWindow(w', b)
  {
    if b == [] {
      assert a + b == a;
    }
  }

  /** One approved round that leaves the loop open. */
  ghost function RoundCommits(h: seq<Trade>, call: Call, w: Window, visible: nat): seq<Commit>
    requires !Stalled(w) && visible <= |h|
  {
    var rows := PageRows(h, call.size, Rolled(w), visible);
    (if MustRoll(w) then [Check(Recovering(Rolled(w), WindowRolled))] else [])
    + [Page(rows), Check(Recovering(AfterPage(Rolled(w), rows), BudgetReached))]
  }

  predicate GoesOn(h: seq<Trade>, call: Call, w: Window, visible: nat)
    requires visible <= |h|
  {
    && !Stalled(w)
    && var rows := PageRows(h, call.size, Rolled(w), visible);
       w.anchor !in Keys(rows) && |rows| >= PageLimit(call.size, Rolled(w).offset)
  }

  lemma RoundGoesOn(h: seq<Trade>, call: Call, latest: seq<Trade>, w: Window, rounds: seq<Round>)
    requires VisibleWithin(h, rounds) && rounds != [] && rounds[0].approved && GoesOn(h, call, w, rounds[0].visible)
    ensures var done := RoundCommits(h, call, w, rounds[0].visible);
      && done != [] && StillOpen(done) && Pages(done) == 1
      && PagingCommits(h, call, latest, w, rounds) == done + PagingCommits(h, call, latest, OpenWindow(w, done), rounds[1..])
  {
    hide PageRows, Keys, MinTs, Pages, MaxTs, PagingCommits, AfterPageCommits, PageLimit, AfterPage;
    RoundPages(h, call, w, rounds[0].visible);
    PagedOn(h, call, latest, w, rounds);
    PagingUnfolds(h, call, latest, w, rounds);
    var rows := PageRows(h, call.size, Rolled(w), rounds[0].visible);
    var w2 := AfterPage(Rolled(w), rows);
    var rest := PagingCommits(h, call, latest, w2, rounds[1..]);
    var roll := if MustRoll(w) then [Check(Recovering(Rolled(w), WindowRolled))] else [];
    assert roll + ([Page(rows)] + ([Check(Recovering(w2, BudgetReached))] + rest))
        == roll + [Page(rows), Check(Recovering(w2, BudgetReached))] + rest;
  }

  lemma PagedOn(h: seq<Trade>, call: Call, latest: seq<Trade>, w: Window, rounds: seq<Round>)
    requires VisibleWithin(h, rounds) && rounds != [] && GoesOn(h, call, w, rounds[0].visible)
    ensures var w2 := AfterPage(Rolled(w), PageRows(h, call.size, Rolled(w), rounds[0].visible));
      AfterPageCommits(h, call, latest, w, rounds) == [Check(Recovering(w2, BudgetReached))] + PagingCommits(h, call, latest, w2, rounds[1..])
  {
    hide PageRows, Keys, PageLimit, AfterPage, PagingCommits;
  }

  lemma PagingUnfolds(h: seq<Trade>, call: Call, latest: seq<Trade>, w: Window, rounds: seq<Round>)
    requires VisibleWithin(h, rounds) && rounds != [] && rounds[0].approved && !Stalled(w)
    ensures PagingCommits(h, call, latest, w, rounds)
         == (if MustRoll(w) then [Check(Recovering(Rolled(w), WindowRolled))] else [])
            + ([Page(PageRows(h, call.size, Rolled(w), rounds[0].visible))] + AfterPageCommits(h, call, latest, w, rounds))
  {
    hide PageRows, AfterPageCommits, Stalled, MustRoll;
  }

  lemma RoundPages(h: seq<Trade>, call: Call, w: Window, visible: nat)
    requires !Stalled(w) && visible <= |h|
    ensures Pages(RoundCommits(h, call, w, visible)) == 1
  {
    hide PageRows, Keys, MinTs, Pages;
    var rows := PageRows(h, call.size, Rolled(w), visible);
    var w2 := AfterPage(Rolled(w), rows);
    PagesOf(Page(rows), Check(Recovering(w2, BudgetReached)));
    PagesConcat(if MustRoll(w) then [Check(Recovering(Rolled(w), WindowRolled))] else [], [Page(rows), Check(Recovering(w2, BudgetReached))]);
    PagesOne(Check(Recovering(Rolled(w), WindowRolled)));
    NoPages();
  }

  lemma NoPages()
    ensures Pages([]) == 0
  {
  }

  lemma PagesOne(c: Commit)
    ensures Pages([c]) == if c.Page? then 1 else 0
  {
    assert [c][..0] == [];
  }

  lemma PagesOf(a: Commit, b: Commit)
    ensures Pages([a, b]) == (if a.Page? then 1 else 0) + (if b.Page? then 1 else 0)
  {
    assert [a, b][..1] == [a];
    PagesOne(a);
  }

  /** A round that is approved and does not go on ends the loop whatever rounds would follow. */
  lemma RoundEnds(h: seq<Trade>, call: Call, latest: seq<Trade>, w: Window, rounds: seq<Round>, k: nat)
    requires VisibleWithin(h, rounds) && 0 < k <= |rounds| && rounds[0].approved && !GoesOn(h, call, w, rounds[0].visible)
    ensures PagingCommits(h, call, latest, w, rounds) == PagingCommits(h, call, latest, w, rounds[..k])
    ensures var cs := PagingCommits(h, call, latest, w, rounds); !StillOpen(cs) && Pages(cs) <= 1 && NoneDisabled(cs)
  {
    hide PageRows, Keys, MinTs, Pages, MaxTs;
    assert rounds[..k][0] == rounds[0];
    var cs := PagingCommits(h, call, latest, w, rounds);
    if !Stalled(w) {
      var after := AfterPageCommits(h, call, latest, w, rounds);
      assert |after| == 1 && after[0].Check?;
      assert |cs| == if MustRoll(w) then 3 else 2;
      PagesOf(cs[|cs| - 2], cs[|cs| - 1]);
      if MustRoll(w) {
        PagesOne(cs[0]);
        PagesConcat([cs[0]], [cs[1], cs[2]]);
        assert cs == [cs[0]] + [cs[1], cs[2]];
      } else {
        assert cs == [cs[0], cs[1]];
      }
    } else {
      PagesOne(cs[0]);
    }
  }

  predicate NoneDisabled(cs: seq<Commit>) {
    forall i :: 0 <= i < |cs| && cs[i].Check? && cs[i].cp.Recovering? ==> cs[i].cp.reason != WalletDisabled
  }

  /**
   Lost approval, exactly.  Let `k` be the first round that finds the wallet not approved.  The call makes
   the commits of the rounds before it; if those leave the loop open, one checkpoint follows, with reason
   `WalletDisabled` and the very window they left, and nothing else - no page above all; and if they ended
   the loop, nothing follows.
   */
  lemma {:induction false} LostApprovalStops(h: seq<Trade>, call: Call, latest: seq<Trade>, w: Window, rounds: seq<Round>, k: nat)
    requires VisibleWithin(h, rounds) && k < |rounds| && Approved(rounds, k) && !rounds[k].approved
    ensures var before := PagingCommits(h, call, latest, w, rounds[..k]);
      && PagingCommits(h, call, latest, w, rounds)
         == before + (if StillOpen(before) then [Check(Recovering(OpenWindow(w, before), WalletDisabled))] else [])
      && Pages(before) <= k && NoneDisabled(before)
    decreases k
  {
    hide PageRows, Keys, MinTs, Pages, MaxTs, PagingCommits, RoundCommits;
    if k == 0 {
      assert rounds[..0] == [];
      NothingPaged(h, call, latest, w, rounds);
    } else if GoesOn(h, call, w, rounds[0].visible) {
      var done := RoundCommits(h, call, w, rounds[0].visible);
      RoundGoesOn(h, call, latest, w, rounds);
      assert rounds[..k][0] == rounds[0] && rounds[..k][1..] == rounds[1..][..k - 1];
      RoundGoesOn(h, call, latest, w, rounds[..k]);
      var w' := OpenWindow(w, done);
      LostApprovalStops(h, call, latest, w', rounds[1..], k - 1);
      var rest := PagingCommits(h, call, latest, w', rounds[1..][..k - 1]);
      StillOpenAfter(done, rest, w, w');
      PagesConcat(done, rest);
      if StillOpen(rest) {
        assert done + rest + [Check(Recovering(OpenWindow(w', rest), WalletDisabled))]
            == done + (rest + [Check(Recovering(OpenWindow(w', rest), WalletDisabled))]);
      }
      DoneNotDisabled(h, call, w, rounds[0].visible);
    } else {
      RoundEnds(h, call, latest, w, rounds, k);
      assert PagingCommits(h, call, latest, w, rounds[..k]) == PagingCommits(h, call, latest, w, rounds);
    }
  }

  lemma DoneNotDisabled(h: seq<Trade>, call: Call, w: Window, visible: nat)
    requires !Stalled(w) && visible <= |h|
    ensures NoneDisabled(RoundCommits(h, call, w, visible))
  {
    hide GetTrades, Keys, MinTs;
  }

  lemma NothingPaged(h: seq<Trade>, call: Call, latest: seq<Trade>, w: Window, rounds: seq<Round>)
    requires VisibleWithin(h, rounds) && rounds != [] && !rounds[0].approved
    ensures PagingCommits(h, call, latest, w, []) == [] && Pages([]) == 0
    ensures PagingCommits(h, call, latest, w, rounds) == [Check(Recovering(w, WalletDisabled))]
  {
  }

  /** With every round approved, `WalletDisabled` is never recorded, and there is at most a page a round. */
  lemma {:induction false} ApprovedNeverDisabled(h: seq<Trade>, call: Call, latest: seq<Trade>, w: Window, rounds: seq<Round>)
    requires VisibleWithin(h, rounds) && Approved(rounds, |rounds|)
    ensures var cs := PagingCommits(h, call, latest, w, rounds); NoneDisabled(cs) && Pages(cs) <= |rounds|
    decreases |rounds|
  {
    hide PageRows, Keys, MinTs, Pages, MaxTs, RoundCommits, PagingCommits;
    if rounds == [] {
      EmptyPaging(h, call, latest, w);
    } else if GoesOn(h, call, w, rounds[0].visible) {
      RoundGoesOn(h, call, latest, w, rounds);
      var done := RoundCommits(h, call, w, rounds[0].visible);
      ApprovedNeverDisabled(h, call, latest, OpenWindow(w, done), rounds[1..]);
      PagesConcat(done, PagingCommits(h, call, latest, OpenWindow(w, done), rounds[1..]));
      DoneNotDisabled(h, call, w, rounds[0].visible);
    } else {
      RoundEnds(h, call, latest, w, rounds, |rounds|);
    }
  }

  lemma EmptyPaging(h: seq<Trade>, call: Call, latest: seq<Trade>, w: Window)
    ensures PagingCommits(h, call, latest, w, []) == [] && Pages([]) == 0
  {
  }

  /**
   The whole call: the tail page, the window recorded, then the commits of the rounds before approval was
   lost - at most a page each - and one `WalletDisabled` checkpoint that keeps the window, if they had not
   ended the loop.
   */
  lemma DisabledCall(h: seq<Trade>, db: Db, call: Call, k: nat)
    requires call.visible <= |h| && VisibleWithin(h, call.rounds)
    requires k < |call.rounds| && Approved(call.rounds, k) && !call.rounds[k].approved
    requires StartWindow(db, TailRows(h, call), call.now).Some?
    ensures var w, before := StartWindow(db, TailRows(h, call), call.now).value, CycleCommits(h, db, call.(rounds := call.rounds[..k]));
      && |before| >= 2 && before[0] == Page(TailRows(h, call)) && before[1] == Check(Recovering(w, RecoveryInProgress))
      && Pages(before) <= k + 1
      && CycleCommits(h, db, call)
         == before + (if StillOpen(before[2..]) then [Check(Recovering(OpenWindow(w, before[2..]), WalletDisabled))] else [])
  {
    hide GetTrades, Keys, MinTs, Pages, MaxTs, PagingCommits, StartWindow, StartAnchor;
    var latest, cut := TailRows(h, call), call.(rounds := call.rounds[..k]);
    var w := StartWindow(db, latest, call.now).value;
    assert TailRows(h, cut) == latest;
    SameRounds(h, call, cut, latest, w, cut.rounds);
    LostApprovalStops(h, call, latest, w, call.rounds, k);
    var head := [Page(latest), Check(Recovering(w, RecoveryInProgress))];
    var paged := PagingCommits(h, call, latest, w, call.rounds[..k]);
    var before := CycleCommits(h, db, cut);
    assert before == head + paged && before[2..] == paged;
    PagesConcat(head, paged);
    PagesOf(head[0], head[1]);
  }

  /** Paging looks at the call's size and clock only. */
  lemma {:induction false} SameRounds(h: seq<Trade>, call: Call, call': Call, latest: seq<Trade>, w: Window, rounds: seq<Round>)
    requires VisibleWithin(h, rounds) && call'.size == call.size && call'.now == call.now
    ensures PagingCommits(h, call', latest, w, rounds) == PagingCommits(h, call, latest, w, rounds)
    decreases |rounds|
  {
    hide GetTrades, Keys, MinTs, MaxTs;
    if rounds != [] && rounds[0].approved && !Stalled(w) {
      SameRounds(h, call, call', latest, AfterPage(Rolled(w), PageRows(h, call.size, Rolled(w), rounds[0].visible)), rounds[1..]);
    }
  }

  // ---------- what the first checkpoint says ----------

  /** The greatest timestamp there is, or the default where there is none. */
  lemma {:induction false} MaxTsIs(rows: seq<Trade>, default: int)
    ensures rows == [] ==> MaxTs(rows, default) == default
    ensures rows != [] ==> (exists t :: t in rows && t.ts == MaxTs(rows, default)) && forall t :: t in rows ==> t.ts <= MaxTs(rows, default)
  {
    if |rows| > 1 {
      var n := |rows| - 1;
      MaxTsIs(rows[..n], default);
      assert forall t :: t in rows <==> t in rows[..n] || t == rows[n];
    } else if |rows| == 1 {
      assert rows[0] in rows;
    }
  }

  lemma {:induction false} MinTsIs(rows: seq<Trade>)
    requires rows != []
    ensures (exists t :: t in rows && t.ts == MinTs(rows)) && forall t :: t in rows ==> MinTs(rows) <= t.ts
  {
    if |rows| > 1 {
      var n := |rows| - 1;
      MinTsIs(rows[..n]);
      assert forall t :: t in rows <==> t in rows[..n] || t == rows[n];
    } else {
      assert rows[0] in rows;
    }
  }

  /** Newest by timestamp; of several, the one inserted last. */
  ghost predicate IsNewest(stored: seq<Trade>, i: nat) {
    && i < |stored|
    && (forall j :: 0 <= j < |stored| ==> stored[j].ts <= stored[i].ts)
    && (forall j :: i < j < |stored| ==> stored[j].ts < stored[i].ts)
  }

  lemma {:induction false} NewestStoredIs(stored: seq<Trade>) returns (i: nat)
    requires stored != []
    ensures IsNewest(stored, i) && NewestStored(stored) == Some(stored[i])
  {
    var n := |stored| - 1;
    if n == 0 || NewestStored(stored[..n]).value.ts <= stored[n].ts {
      i := n;
      if n > 0 {
        var k := NewestStoredIs(stored[..n]);
        assert forall j :: 0 <= j < n ==> stored[..n][j].ts <= stored[..n][k].ts;
      }
    } else {
      i := NewestStoredIs(stored[..n]);
      assert forall j :: 0 <= j < n ==> stored[..n][j] == stored[j];
    }
  }

  /** The anchor of a call: that of the last checkpoint, or the newest trade stored. */
  ghost predicate AnchorIs(db: Db, anchor: Option<Id>) {
    if db.log != [] && db.log[|db.log| - 1].Recovering? then anchor == Some(db.log[|db.log| - 1].window.anchor)
    else if db.log != [] && db.log[|db.log| - 1].at.Some? then anchor == db.log[|db.log| - 1].at
    else if db.stored == [] then anchor == None
    else exists i: nat :: IsNewest(db.stored, i) && anchor == Some(db.stored[i].id)
  }

  lemma AnchorHolds(db: Db)
    ensures AnchorIs(db, StartAnchor(db))
  {
    hide NewestStored;
    if db.stored != [] {
      var i := NewestStoredIs(db.stored);
    } else {
      assert NewestStored([]).None? by { NoneStored(); }
    }
  }

  lemma NoneStored()
    ensures NewestStored([]).None?
  {
  }

  ghost predicate Held(latest: seq<Trade>, id: Id) {
    exists i :: 0 <= i < |latest| && latest[i].id == id
  }

  lemma HeldIsKey(latest: seq<Trade>, id: Id)
    ensures id in Keys(latest) <==> Held(latest, id)
  {
    if id in Keys(latest) {
      var t :| t in latest && t.id == id;
      var i :| 0 <= i < |latest| && latest[i] == t;
      assert latest[i].id == id;
    }
  }

  function NewestId(latest: seq<Trade>, anchor: Option<Id>): Option<Id> {
    if latest == [] then anchor else Some(latest[0].id)
  }

  /** The head an open window keeps: its own until the tail page holds it, then the newest trade. */
  ghost predicate HeadIs(db: Db, latest: seq<Trade>, anchor: Option<Id>, head: Option<Id>) {
    if db.log != [] && db.log[|db.log| - 1].Recovering? && !Held(latest, db.log[|db.log| - 1].window.head)
    then head == Some(db.log[|db.log| - 1].window.head)
    else head == NewestId(latest, anchor)
  }

  /** An interrupted window goes on as it was; a new one is frozen at the newest time on the tail page. */
  ghost predicate WindowIs(db: Db, latest: seq<Trade>, now: int, anchor: Id, w: Window) {
    && w.anchor == anchor && HeadIs(db, latest, Some(anchor), Some(w.head))
    && if db.log != [] && db.log[|db.log| - 1].Recovering? then
         var was := db.log[|db.log| - 1].window;
         w.end == was.end && w.offset == was.offset && w.oldest == was.oldest
       else
         && w.offset == 0 && w.oldest == None
         && if latest == [] then w.end == now
            else (exists t :: t in latest && t.ts == w.end) && forall t :: t in latest ==> t.ts <= w.end
  }

  /**
   The tail page decides.  With no anchor, or the anchor on the page, the call pages nothing: it records
   "caught up" at the newest trade exactly where there was no checkpoint or the newest trade is another
   than the anchor - as an initial baseline exactly where there was no anchor.  Otherwise its next commit is the window it will page.
   */
  lemma TailDecides(h: seq<Trade>, db: Db, call: Call, anchor: Option<Id>)
    requires call.visible <= |h| && VisibleWithin(h, call.rounds) && anchor == StartAnchor(db)
    ensures var latest, cs := TailRows(h, call), CycleCommits(h, db, call);
      && AnchorIs(db, anchor) && cs != [] && cs[0] == Page(latest)
      && if anchor.None? || Held(latest, anchor.value) then
           if db.log == [] || NewestId(latest, anchor) != anchor then
             && |cs| == 2 && cs[1].Check? && cs[1].cp.CaughtUp? && cs[1].cp.at == NewestId(latest, anchor)
             && HeadIs(db, latest, anchor, cs[1].cp.head)
             && cs[1].cp.reason == (if anchor.None? then InitialBaseline else OverlapFound)
           else |cs| == 1
         else
           && |cs| >= 2 && cs[1].Check? && cs[1].cp.Recovering? && cs[1].cp.reason == RecoveryInProgress
           && WindowIs(db, latest, call.now, anchor.value, cs[1].cp.window)
  {
    hide GetTrades, Keys, MaxTs, PagingCommits, NewestStored, Held;
    var latest := TailRows(h, call);
    AnchorHolds(db);
    MaxTsIs(latest, call.now);
    if anchor.Some? {
      HeldIsKey(latest, anchor.value);
    }
    if db.log != [] && db.log[|db.log| - 1].Recovering? {
      HeldIsKey(latest, db.log[|db.log| - 1].window.head);
    }
  }

  // ---------- the window's requests ----------

  /** A request asks for as much as the page size and the source's window of 10000 rows allow. */
  lemma RequestIsLargest(size: nat, offset: nat)
    requires offset <= MAX_OFFSET
    ensures var n := PageLimit(size, offset);
      && n <= size && offset + n <= MAX_OFFSET && (n == size || offset + n == MAX_OFFSET) && MAX_OFFSET == 10000
  {
  }

  /** After a page that missed the anchor the cursor stands behind it, and the oldest time seen is the page's. */
  lemma CursorMoves(w: Window, rows: seq<Trade>)
    ensures var w' := AfterPage(w, rows);
      && w'.offset == w.offset + |rows| && w'.anchor == w.anchor && w'.head == w.head && w'.end == w.end
      && (rows == [] ==> w'.oldest == w.oldest)
      && (rows != [] ==> w'.oldest.Some? && (exists t :: t in rows && t.ts == w'.oldest.value) && forall t :: t in rows ==> w'.oldest.value <= t.ts)
  {
    if rows != [] {
      MinTsIs(rows);
    }
  }

  // ---------- storing a page ----------

  ghost predicate NoRepeats(rows: seq<Trade>) {
    forall i, j :: 0 <= i < j < |rows| ==> rows[i].id != rows[j].id
  }

  /** Row `i` is the first of its identity on the page. */
  ghost predicate FirstOnPage(rows: seq<Trade>, i: nat) {
    i < |rows| && forall j :: 0 <= j < i ==> rows[j].id != rows[i].id
  }

  /** `added` are rows of the page at increasing places `at`. */
  ghost predicate PickedAt(rows: seq<Trade>, added: seq<Trade>, at: seq<nat>) {
    && |at| == |added|
    && (forall a :: 0 <= a < |at| ==> at[a] < |rows| && rows[at[a]] == added[a])
    && (forall a, b :: 0 <= a < b < |at| ==> at[a] < at[b])
  }

  lemma {:induction false} FirstsPicked(rows: seq<Trade>) returns (at: seq<nat>)
    ensures PickedAt(rows, FirstOccurrences(rows), at)
    ensures forall i :: 0 <= i < |rows| ==> (i in at <==> FirstOnPage(rows, i))
  {
    hide PickedAt, Keys, FirstOnPage;
    if rows == [] {
      at := [];
      NonePicked();
    } else {
      var n := |rows| - 1;
      var init := rows[..n];
      at := FirstsPicked(init);
      hide FirstOccurrences;
      OneMorePicked(rows, FirstOccurrences(init), at);
      FirstsStep(rows);
      SameFirsts(rows);
      SeenBefore(rows, n);
      if rows[n].id !in Keys(FirstOccurrences(init)) {
        at := at + [n];
      }
    }
  }

  lemma FirstsStep(rows: seq<Trade>)
    requires rows != []
    ensures var n := |rows| - 1; var init := FirstOccurrences(rows[..n]);
      FirstOccurrences(rows) == if rows[n].id in Keys(init) then init else init + [rows[n]]
  {
    hide Keys;
  }

  lemma SameFirsts(rows: seq<Trade>)
    requires rows != []
    ensures forall i :: 0 <= i < |rows| - 1 ==> (FirstOnPage(rows[..|rows| - 1], i) <==> FirstOnPage(rows, i))
  {
  }

  lemma SeenBefore(rows: seq<Trade>, n: nat)
    requires n < |rows|
    ensures rows[n].id !in Keys(FirstOccurrences(rows[..n])) <==> FirstOnPage(rows, n)
  {
    hide FirstOccurrences, Keys;
    var init := rows[..n];
    FirstOccurrencesKeepKeys(init);
    HeldIsKey(init, rows[n].id);
    if !FirstOnPage(rows, n) {
      var j :| 0 <= j < n && rows[j].id == rows[n].id;
      assert init[j].id == rows[n].id;
    }
    if Held(init, rows[n].id) {
      var j :| 0 <= j < |init| && init[j].id == rows[n].id;
      assert rows[j].id == rows[n].id;
    }
  }

  lemma NonePicked()
    ensures PickedAt([], [], [])
  {
  }

  lemma OneMorePicked(rows: seq<Trade>, added: seq<Trade>, at: seq<nat>)
    requires rows != [] && PickedAt(rows[..|rows| - 1], added, at)
    ensures var n := |rows| - 1; PickedAt(rows, added, at) && PickedAt(rows, added + [rows[n]], at + [n]) && n !in at
  {
  }

  lemma {:induction false} NewPicked(rows: seq<Trade>, known: set<Id>) returns (at: seq<nat>)
    ensures PickedAt(rows, NotIn(rows, known), at)
    ensures forall i :: 0 <= i < |rows| ==> (i in at <==> rows[i].id !in known)
  {
    hide PickedAt;
    if rows == [] {
      at := [];
      NonePicked();
    } else {
      var n := |rows| - 1;
      at := NewPicked(rows[..n], known);
      OneMorePicked(rows, NotIn(rows[..n], known), at);
      assert forall i :: 0 <= i < n ==> rows[..n][i] == rows[i];
      if rows[n].id !in known {
        at := at + [n];
      }
    }
  }

  /**
   A page is stored behind what is there: its rows of unknown identity, each identity once - the first row
   that has it - in the order of the page.
   */
  lemma StoresFirstUnknown(stored: seq<Trade>, rows: seq<Trade>) returns (at: seq<nat>)
    ensures var after := InsertNew(stored, rows);
      && |after| >= |stored| && after[..|stored|] == stored && PickedAt(rows, after[|stored|..], at)
      && forall i :: 0 <= i < |rows| ==> (i in at <==> FirstOnPage(rows, i) && !Held(stored, rows[i].id))
  {
    hide Keys, FirstOccurrences, NotIn, PickedAt, FirstOnPage;
    var firsts := FirstOccurrences(rows);
    var a := FirstsPicked(rows);
    var b := NewPicked(firsts, Keys(stored));
    assert |a| == |firsts| && |b| == |NotIn(firsts, Keys(stored))| by { PickedSizes(rows, firsts, a); PickedSizes(firsts, NotIn(firsts, Keys(stored)), b); }
    at := PickedThrough(rows, firsts, NotIn(firsts, Keys(stored)), a, b);
    assert InsertNew(stored, rows)[|stored|..] == NotIn(firsts, Keys(stored));
    forall i | 0 <= i < |rows|
      ensures i in at <==> FirstOnPage(rows, i) && !Held(stored, rows[i].id)
    {
      HeldIsKey(stored, rows[i].id);
      PickedMember(rows, firsts, a, b, at, i, Keys(stored));
    }
  }

  lemma PickedSizes(rows: seq<Trade>, added: seq<Trade>, at: seq<nat>)
    requires PickedAt(rows, added, at)
    ensures |at| == |added|
  {
  }

  /** Picking out of what was picked. */
  lemma PickedThrough(rows: seq<Trade>, firsts: seq<Trade>, news: seq<Trade>, a: seq<nat>, b: seq<nat>) returns (at: seq<nat>)
    requires PickedAt(rows, firsts, a) && PickedAt(firsts, news, b)
    ensures PickedAt(rows, news, at) && |at| == |b| && forall k :: 0 <= k < |b| ==> b[k] < |a| && at[k] == a[b[k]]
  {
    at := seq(|b|, i requires 0 <= i < |b| => a[b[i]]);
  }

  lemma PickedMember(rows: seq<Trade>, firsts: seq<Trade>, a: seq<nat>, b: seq<nat>, at: seq<nat>, i: nat, known: set<Id>)
    requires PickedAt(rows, firsts, a) && i < |rows| && |at| == |b| && (forall k :: 0 <= k < |b| ==> b[k] < |a| && at[k] == a[b[k]])
    requires (i in a <==> FirstOnPage(rows, i)) && forall j :: 0 <= j < |firsts| ==> (j in b <==> firsts[j].id !in known)
    ensures i in at <==> FirstOnPage(rows, i) && rows[i].id !in known
  {
    hide FirstOnPage;
    if i in at {
      var k :| 0 <= k < |at| && at[k] == i;
      assert b[k] in b && a[b[k]] in a;
    }
    if FirstOnPage(rows, i) && rows[i].id !in known {
      var j :| 0 <= j < |a| && a[j] == i;
      assert j in b;
      var k :| 0 <= k < |b| && b[k] == j;
      assert at[k] == i;
    }
  }

  /** So no identity is ever stored twice. */
  lemma StoredOnce(stored: seq<Trade>, rows: seq<Trade>)
    requires NoRepeats(stored)
    ensures NoRepeats(InsertNew(stored, rows))
  {
    hide InsertNew, FirstOnPage;
    var at := StoresFirstUnknown(stored, rows);
    var after, n := InsertNew(stored, rows), |stored|;
    forall i, j | 0 <= i < j < |after|
      ensures after[i].id != after[j].id
    {
      if j >= n {
        assert after[n..][j - n] == after[j] && at[j - n] in at;
        if i >= n {
          assert after[n..][i - n] == after[i] && at[i - n] in at;
          FirstsDiffer(rows, at[i - n], at[j - n]);
        } else {
          assert after[..n][i] == after[i];
        }
      } else {
        assert after[..n][i] == after[i] && after[..n][j] == after[j];
      }
    }
  }

  lemma FirstsDiffer(rows: seq<Trade>, i: nat, j: nat)
    requires i < j && FirstOnPage(rows, j)
    ensures rows[i].id != rows[j].id
  {
  }
}
