/**
 One process at the fence: the shared journal, its incrementally kept state, the trigger-kept
 attempt counters, and the transactions around every append.  Other processes append between this
 process's transactions; an append may fail after the in-memory state has already moved.
 */
module FenceProcess {
  import opened Wrappers
  import opened Fence
  import opened FenceLaws

  // ---------- trigger-kept counters ----------

  datatype Counts = Counts(outstanding: int, committed: int, rolledBack: int)

  const ZERO_COUNTS: Counts := Counts(0, 0, 0)

  function CountOf(c: Counts, f: Fate): int {
    match f
    case Outstanding => c.outstanding
    case WasCommitted => c.committed
    case WasRolledBack => c.rolledBack
  }

  function Bump(c: Counts, f: Fate, delta: int): Counts {
    match f
    case Outstanding => c.(outstanding := c.outstanding + delta)
    case WasCommitted => c.(committed := c.committed + delta)
    case WasRolledBack => c.(rolledBack := c.rolledBack + delta)
  }

  /** AFTER INSERT trigger. */
  function OnInsert(c: Counts, row: AttemptRow): Counts {
    if row.epoch == 0 then Bump(c, row.fate, 1) else c
  }

  /** AFTER UPDATE trigger: it looks at the new epoch only. */
  function OnUpdate(c: Counts, before: AttemptRow, after: AttemptRow): Counts {
    if after.epoch == 0 then Bump(Bump(c, before.fate, -1), after.fate, 1) else c
  }

  /** AFTER DELETE trigger. */
  function OnDelete(c: Counts, row: AttemptRow): Counts {
    if row.epoch == 0 then Bump(c, row.fate, -1) else c
  }

  /** `DiskMap.__setitem__`: insert, or update on conflict. */
  function OnUpsert(c: Counts, rows: map<Token, AttemptRow>, t: Token, row: AttemptRow): Counts {
    if t in rows then OnUpdate(c, rows[t], row) else OnInsert(c, row)
  }

  /** The counters equal a recount. */
  ghost predicate Agree(c: Counts, rows: map<Token, AttemptRow>) {
    forall f :: CountOf(c, f) == Count(rows, f)
  }

  /** Does this row count as an epoch-0 attempt with fate f? */
  predicate Counted(row: AttemptRow, f: Fate) {
    row.epoch == 0 && row.fate == f
  }

  function One(counted: bool): nat {
    if counted then 1 else 0
  }

  lemma MembersAfterUpsert(rows: map<Token, AttemptRow>, t: Token, row: AttemptRow, f: Fate)
    ensures EpochZero(rows[t := row], f) == (EpochZero(rows, f) - {t}) + (if Counted(row, f) then {t} else {})
    ensures t in EpochZero(rows, f) <==> t in rows && Counted(rows[t], f)
  {
  }

  lemma MembersAfterDelete(rows: map<Token, AttemptRow>, t: Token, f: Fate)
    requires t in rows
    ensures EpochZero(rows - {t}, f) == EpochZero(rows, f) - {t}
    ensures t in EpochZero(rows, f) <==> Counted(rows[t], f)
  {
  }

  lemma SizeWithout(s: set<Token>, t: Token)
    ensures |s - {t}| == |s| - One(t in s)
  {
    if t !in s {
      assert s - {t} == s;
    }
  }

  lemma CountAfterUpsert(rows: map<Token, AttemptRow>, t: Token, row: AttemptRow, f: Fate)
    ensures Count(rows[t := row], f) == Count(rows, f) - One(t in rows && Counted(rows[t], f)) + One(Counted(row, f))
  {
    hide EpochZero, Counted;
    MembersAfterUpsert(rows, t, row, f);
    SizeWithout(EpochZero(rows, f), t);
    if Counted(row, f) {
      assert |(EpochZero(rows, f) - {t}) + {t}| == |EpochZero(rows, f) - {t}| + 1;
    } else {
      assert (EpochZero(rows, f) - {t}) + {} == EpochZero(rows, f) - {t};
    }
  }

  lemma CountAfterDelete(rows: map<Token, AttemptRow>, t: Token, f: Fate)
    requires t in rows
    ensures Count(rows - {t}, f) == Count(rows, f) - One(Counted(rows[t], f))
  {
    hide EpochZero, Counted;
    MembersAfterDelete(rows, t, f);
    SizeWithout(EpochZero(rows, f), t);
  }

  /** What the triggers do to each counter. */
  lemma TriggerEffect(c: Counts, rows: map<Token, AttemptRow>, t: Token, row: AttemptRow, f: Fate)
    ensures CountOf(OnUpsert(c, rows, t, row), f)
         == CountOf(c, f) + (if row.epoch == 0 then One(row.fate == f) - One(t in rows && rows[t].fate == f) else 0)
  {
  }

  /**
   Exactly when an upsert keeps the fast counters right: when it does not move an attempt into or
   out of epoch 0.
   */
  lemma UpsertAgreesIffEpochKept(c: Counts, rows: map<Token, AttemptRow>, t: Token, row: AttemptRow)
    requires Agree(c, rows)
    ensures Agree(OnUpsert(c, rows, t, row), rows[t := row])
       <==> (t in rows ==> (rows[t].epoch == 0 <==> row.epoch == 0))
  {
    hide Count, OnUpsert, CountOf;
    forall f
      ensures CountOf(OnUpsert(c, rows, t, row), f) - Count(rows[t := row], f)
           == One(t in rows && Counted(rows[t], f)) - One(Counted(row, f))
            + (if row.epoch == 0 then One(row.fate == f) - One(t in rows && rows[t].fate == f) else 0)
    {
      CountAfterUpsert(rows, t, row, f);
      TriggerEffect(c, rows, t, row, f);
    }
    if t in rows && (rows[t].epoch == 0) != (row.epoch == 0) {
      assert CountOf(OnUpsert(c, rows, t, row), rows[t].fate) != Count(rows[t := row], rows[t].fate);
    }
  }

  lemma DeleteAgrees(c: Counts, rows: map<Token, AttemptRow>, t: Token)
    requires Agree(c, rows) && t in rows
    ensures Agree(OnDelete(c, rows[t]), rows - {t})
  {
    hide Count;
    forall f {
      CountAfterDelete(rows, t, f);
    }
  }

  /** Both branches of `receipt` give the same result whenever the counters agree. */
  lemma FastReceiptIsReceipt(s: State, b: Binding, c: Counts)
    requires Agree(c, s.attempts)
    ensures ReceiptWith(s, b, f => CountOf(c, f)) == ReceiptOf(s, b)
  {
    hide Count;
  }

  /** The attempt row an event writes. */
  function Touched(e: Event): Option<Token> {
    match e.payload
    case Attempt(t, _, _, _) => Some(t)
    case Committed(t, _) => Some(t)
    case RolledBack(t) => Some(t)
    case _ => None
  }

  function CountsAfter(c: Counts, s: State, e: Event, s': State): Counts {
    if Touched(e).Some? && Touched(e).value in s'.attempts
    then OnUpsert(c, s.attempts, Touched(e).value, s'.attempts[Touched(e).value])
    else c
  }

  /** No accepted event changes an attempt's epoch, so the counters stay right. */
  lemma AcceptedEventKeepsCounts(
    c: Counts, s: State, e: Event, index: int, previous: Option<Event>, b: Binding, auth: Option<Authority>)
    requires Agree(c, s.attempts) && Accept(s, e, index, previous, b, auth).Ok? && index != 1
    ensures var s' := Accept(s, e, index, previous, b, auth).value; Agree(CountsAfter(c, s, e, s'), s'.attempts)
  {
    hide Agree, FreezeOk, ReceiptOf, DistinctFacts, BeforeEnd, WorkerSet, OnUpsert;
    var s' := Accept(s, e, index, previous, b, auth).value;
    if Touched(e).Some? {
      var t := Touched(e).value;
      UpsertAgreesIffEpochKept(c, s.attempts, t, s'.attempts[t]);
      assert s'.attempts == s.attempts[t := s'.attempts[t]];
    } else {
      assert s'.attempts == s.attempts;
    }
  }

  // ---------- the process ----------

  class Process {
    const binding: Binding
    const authority: Option<Authority>
    var events: seq<Event>
    var cached: State
    var counts: Counts
    var indexed: nat
    var inTransaction: bool
    var saved: seq<Event>
    var savedRows: map<Token, AttemptRow>
    var savedCounts: Counts
    var localError: Option<string>

    /** The shared journal is accepted as a whole. */
    ghost predicate JournalOk()
      reads this
    {
      ReplayAll(events, binding, authority).Ok?
    }

    /** The kept state is the replay of the first `indexed` events, and its counters are right. */
    ghost predicate CacheOk()
      reads this
    {
      && 0 < indexed <= |events|
      && ReplayAll(events[..indexed], binding, authority) == Ok(cached)
      && Agree(counts, cached.attempts)
    }

    ghost predicate Valid()
      reads this
    {
      JournalOk() && CacheOk()
    }

    /** What ROLLBACK would restore: an accepted journal, and index tables that agree. */
    ghost predicate SavedOk()
      reads this
    {
      inTransaction ==>
        && saved != [] && saved <= events && ReplayAll(saved, binding, authority).Ok?
        && Agree(savedCounts, savedRows)
    }

    /** Open the journal, writing ARM if there is none, and index it. */
    constructor (b: Binding, auth: Option<Authority>, journal: seq<Event>, now: int)
      requires Admissible(b, auth)
      requires if journal == [] then now <= b.start && (auth.Some? ==> now < b.start) else ReplayAll(journal, b, auth).Ok?
      ensures Valid() && SavedOk() && !inTransaction && binding == b && authority == auth && localError == None
      ensures journal != [] ==> events == journal
      ensures journal == [] ==> |events| == 1 && events[0].payload == Arm(b)
      ensures indexed == |events|
    {
      binding, authority, inTransaction, saved, savedRows, savedCounts := b, auth, false, [], map[], ZERO_COUNTS;
      var arm := Event(1, None, b, now, Arm(b), true);
      events := if journal == [] then [arm] else journal;
      cached, counts, indexed, localError := START, ZERO_COUNTS, 0, None;
      new;
      if journal == [] {
        ReplayOne(arm, START, 1, None, b, auth);
      }
      Reindex();
    }

    /** Trigger-kept deletion of every row: `DELETE FROM attempt_index`. */
    method DeleteAllAttempts()
      requires Agree(counts, cached.attempts)
      modifies `cached, `counts
      ensures cached == old(cached).(attempts := map[]) && counts == ZERO_COUNTS && Agree(counts, map[])
    {
      hide Count, Agree;
      ghost var was := cached;
      while |cached.attempts| > 0
        invariant Agree(counts, cached.attempts)
        invariant cached == was.(attempts := cached.attempts)
        decreases |cached.attempts|
      {
        var t :| t in cached.attempts.Keys;
        DeleteAgrees(counts, cached.attempts, t);
        ghost var size := |cached.attempts|;
        assert |cached.attempts - {t}| == size - 1 by { SmallerMap(cached.attempts, t); }
        counts := OnDelete(counts, cached.attempts[t]);
        cached := cached.(attempts := cached.attempts - {t});
      }
      assert cached.attempts == map[];
      EmptyCounts(counts);
    }

    /** `_rebuild`: drop the index and replay the journal from its first event. */
    method Rebuild()
      requires JournalOk() && Agree(counts, cached.attempts)
      modifies `cached, `counts, `indexed
      ensures Valid() && indexed == |events|
    {
      DeleteAllAttempts();
      cached, indexed := START, 0;
      Reindex();
    }

    /** Replay every event not yet indexed, from an empty index. */
    method Reindex()
      requires JournalOk() && cached == START && counts == ZERO_COUNTS && indexed == 0
      modifies `cached, `counts, `indexed
      ensures Valid() && indexed == |events|
    {
      hide Accept, Replay;
      FirstEventArms(events, binding, authority);
      EmptyAgrees();
      indexed := 1;
      Refresh();
    }

    /** `state`: consume every new journal event, other processes' included. */
    method Refresh()
      requires Valid()
      modifies `cached, `counts, `indexed
      ensures Valid() && indexed == |events|
    {
      hide Accept, ReplayAll, Agree;
      while indexed < |events|
        invariant Valid()
        decreases |events| - indexed
      {
        var e, previous := events[indexed], events[indexed - 1];
        NextIsAccepted(events, indexed, binding, authority);
        var r := Accept(cached, e, indexed + 1, Some(previous), binding, authority);
        AcceptedEventKeepsCounts(counts, cached, e, indexed + 1, Some(previous), binding, authority);
        counts := CountsAfter(counts, cached, e, r.value);
        cached := r.value;
        indexed := indexed + 1;
      }
      assert events[..|events|] == events;
    }

    /** BEGIN IMMEDIATE: no other process appends until this transaction ends. */
    method Begin()
      requires Valid() && !inTransaction
      modifies `inTransaction, `saved, `savedRows, `savedCounts
      ensures Valid() && inTransaction && saved == events && SavedOk()
    {
      hide Agree;
      inTransaction, saved, savedRows, savedCounts := true, events, cached.attempts, counts;
    }

    /** COMMIT, or ROLLBACK - of the journal and of the index tables - and rebuild when the block raised. */
    method End(raised: bool)
      requires inTransaction && SavedOk()
      requires !raised ==> Valid()
      modifies `events, `cached, `counts, `indexed, `inTransaction
      ensures Valid() && !inTransaction && SavedOk()
      ensures events == if raised then saved else old(events)
      ensures if raised then indexed == |events| else cached == old(cached) && counts == old(counts) && indexed == old(indexed)
    {
      hide ReplayAll, Agree;
      inTransaction := false;
      if raised {
        events := saved;
        cached := cached.(attempts := savedRows);
        counts := savedCounts;
        Rebuild();
      }
    }

    /**
     COMMIT itself fails and SQLite rolls the transaction back: nothing rebuilds.  What the transaction
     had consumed or appended stays in the kept state while rows, counters and journal go back, and the
     kept state is still right exactly when it is not ahead of the journal and its rows had not moved.
     */
    method CommitFails()
      requires Valid() && inTransaction && SavedOk()
      modifies `events, `cached, `counts, `inTransaction
      ensures !inTransaction && JournalOk() && events == saved && Agree(counts, cached.attempts)
      ensures cached == old(cached).(attempts := savedRows) && counts == savedCounts
      ensures CacheOk() <==> indexed <= |saved| && old(cached).attempts == savedRows
    {
      hide ReplayAll, Agree;
      ghost var was := events[..indexed];
      inTransaction, events, counts := false, saved, savedCounts;
      cached := cached.(attempts := savedRows);
      assert indexed <= |saved| ==> events[..indexed] == was;
    }

    /**
     `_append` inside a transaction.  The state moves before the INSERT; when the INSERT fails the
     state is ahead of the journal until the transaction is rolled back.
     */
    method Append(payload: Payload, now: int, signed: bool, insertFails: bool) returns (r: Result<Event, Refusal>)
      requires Valid() && inTransaction && SavedOk()
      modifies `events, `cached, `counts, `indexed
      ensures SavedOk()
      ensures r.Ok? ==> Valid() && indexed == |events| && events == old(events) + [r.value] && r.value.payload == payload
      ensures r.Err? ==> events == old(events)
      ensures ReplayAll(old(events), binding, authority).Ok?
      ensures var s := ReplayAll(old(events), binding, authority).value;
        var e := Event(|old(events)| + 1, Some(old(events)[|old(events)| - 1]), binding, now, payload, signed);
        var verdict := Accept(s, e, |old(events)| + 1, e.previous, binding, authority);
        && (r.Ok? <==> verdict.Ok? && !insertFails)
        && (r.Ok? ==> r.value == e && cached == verdict.value)
    {
      hide Accept, ReplayAll, Agree, CountsAfter;
      var e := Event(|events| + 1, Some(events[|events| - 1]), binding, now, payload, signed);
      Refresh();
      assert events[..|events|] == events;
      var verdict := Accept(cached, e, e.seqNo, e.previous, binding, authority);
      if verdict.Err? {
        return Err(verdict.error);
      }
      AcceptedEventKeepsCounts(counts, cached, e, e.seqNo, e.previous, binding, authority);
      counts := CountsAfter(counts, cached, e, verdict.value);
      cached := verdict.value;
      if insertFails {
        return Err(ChainConflict);
      }
      JournalExtended(events, e, binding, authority);
      events := events + [e];
      indexed := |events|;
      assert events[..indexed] == events;
      return Ok(e);
    }

    /** One accepted event appended by another process, which validates as this one does. */
    method OtherProcessAppends(e: Event)
      requires Valid() && !inTransaction && ReplayAll(events + [e], binding, authority).Ok?
      modifies `events
      ensures Valid() && !inTransaction && events == old(events) + [e]
    {
      assert (events + [e])[..indexed] == events[..indexed];
      events := events + [e];
    }

    /** Another process tries one event on the whole journal, and appends it if it is accepted. */
    method OtherProcessTries(p: Payload, now: int, signed: bool)
      requires Valid() && !inTransaction
      modifies `events
      ensures Valid() && !inTransaction
      ensures events == old(events) || (|events| == |old(events)| + 1 && old(events) <= events && events[|old(events)|].payload == p)
    {
      hide ReplayAll, Agree;
      AcceptedIsNonempty(events, binding, authority);
      var e := Event(|events| + 1, Some(events[|events| - 1]), binding, now, p, signed);
      if ReplayAll(events + [e], binding, authority).Ok? {
        OtherProcessAppends(e);
      }
    }

    // The public operations: a transaction, the program's guard, at most one append.

    /** `_admit`: a new attempt in the current epoch, exactly when the roster and the retry rule allow it. */
    method Admit(token: Token, worker: Worker, retry: Option<Token>, now: int, insertFails: bool) returns (ok: bool)
      requires Valid() && !inTransaction
      modifies `events, `cached, `counts, `indexed, `inTransaction, `saved, `savedRows, `savedCounts
      ensures Valid() && !inTransaction && SavedOk()
      ensures if ok then |events| == |old(events)| + 1 && old(events) <= events else events == old(events)
      ensures ok ==> indexed == |events| && token in cached.attempts
                     && cached.attempts[token].fate == Outstanding && cached.attempts[token].epoch == cached.epoch
      ensures ReplayAll(old(events), binding, authority).Ok?
      ensures ok <==> !insertFails && Admits(ReplayAll(old(events), binding, authority).value, token, worker, retry)
    {
      hide ReplayAll;
      Begin();
      Refresh();
      assert events[..|events|] == events;
      AcceptedIsNonempty(events, binding, authority);
      var r := Append(Attempt(token, worker, cached.epoch, retry), now, true, insertFails);
      End(r.Err?);
      ok := r.Ok?;
    }

    /** When `replay` accepts a new attempt of the current epoch. */
    predicate Admits(s: State, token: Token, worker: Worker, retry: Option<Token>) {
      && s.archive.None? && (authority.Some? ==> s.workers == WorkerSet(binding.workers))
      && worker in s.workers && token !in s.attempts
      && (retry.Some? ==> retry.value in s.attempts && s.attempts[retry.value].fate == WasRolledBack)
    }

    /**
     The transaction inside `recover`: a visible witness resolves an outstanding attempt, agrees with
     one already committed, and is a conflict with anything else.
     */
    method Resolve(token: Token, w: Witness, now: int, insertFails: bool) returns (raised: bool)
      requires Valid() && !inTransaction
      modifies `events, `cached, `counts, `indexed, `inTransaction, `saved, `savedRows, `savedCounts
      ensures Valid() && !inTransaction && SavedOk()
      ensures if raised then events == old(events) else indexed == |events| && old(events) <= events
      ensures !raised ==> token in cached.attempts && cached.attempts[token].fate == WasCommitted
                          && cached.attempts[token].evidence == Some(w)
      ensures ReplayAll(old(events), binding, authority).Ok?
      ensures var rows := ReplayAll(old(events), binding, authority).value.attempts;
        !raised ==>
          && token in rows && (rows[token].fate != Outstanding ==> events == old(events))
          && cached.attempts == if rows[token].fate == Outstanding then Resolved(rows, token, w) else rows
    {
      hide ReplayAll, Transition;
      Begin();
      Refresh();
      assert events[..|events|] == events;
      AcceptedIsNonempty(events, binding, authority);
      if token !in cached.attempts {
        End(true);
        return true;
      }
      if cached.attempts[token].fate != Outstanding {
        raised := cached.attempts[token].evidence != Some(w);
        CommittedHasWitness(events, token, binding, authority);
        End(raised);
        return;
      }
      var before := cached;
      var r := Append(Committed(token, w), now, true, insertFails);
      if r.Ok? {
        CommitResolves(before, r.value, |events|, r.value.previous, binding, authority);
      }
      End(r.Err?);
      return r.Err?;
    }

    /** Python truthiness of `local_error`. */
    predicate Reported()
      reads this
    {
      localError.Some? && localError.value != ""
    }

    /** `error`: recorded here at once, and in the journal if that still works. */
    method ReportError(message: string, now: int, insertFails: bool)
      requires Valid() && !inTransaction
      modifies `events, `cached, `counts, `indexed, `inTransaction, `saved, `savedRows, `savedCounts, `localError
      ensures Valid() && !inTransaction && SavedOk() && localError == Some(message)
      ensures events == old(events) || (|events| == |old(events)| + 1 && old(events) <= events)
    {
      hide ReplayAll, Agree;
      localError := Some(message);
      Begin();
      var r := Append(Error(message), now, true, insertFails);
      End(r.Err?);
    }

    /**
     The loop of `recover`: outstanding attempts are looked up once each, in any order, while other
     processes append between reading an attempt and resolving it.  Unless it raises, no attempt there
     was at the start and whose witness is visible stays outstanding; and what no other process touched
     changed exactly by its own witness, or not at all - absence resolves nothing.
     */
    method Recover(visible: map<Token, WitnessRow>, foreign: seq<seq<Payload>>, now: int, insertFails: bool)
      returns (raised: bool)
      requires Valid() && !inTransaction
      modifies `events, `cached, `counts, `indexed, `inTransaction, `saved, `savedRows, `savedCounts, `localError
      ensures Valid() && !inTransaction && old(events) <= events
      ensures ReplayAll(old(events), binding, authority).Ok? && ReplayAll(events, binding, authority).Ok?
      ensures raised ==> localError.Some?
      ensures !raised ==> localError == old(localError)
      ensures !raised ==> AfterRecovery(
                ReplayAll(old(events), binding, authority).value.attempts, ReplayAll(events, binding, authority).value.attempts,
                visible, foreign)
    {
      hide ReplayAll, Agree, Grown, Chased, AfterRecovery, Resolved;
      Refresh();
      assert events[..|events|] == events;
      ghost var rows, start := cached.attempts, events;
      var visited: set<Token> := {};
      var i := 0;
      GrownStart(rows, visible, foreign);
      ChasedStart(rows, visible);
      while Unvisited(cached.attempts, visited)
        invariant Valid() && !inTransaction && localError == old(localError) && i <= |foreign|
        invariant start == old(events) <= events && |start| <= indexed
        invariant Grown(rows, Rows(), visible, foreign) && Chased(Rows(), visible, visited)
        decreases |foreign| - i, |Rows().Keys - visited|
      {
        var t :| t in cached.attempts && t !in visited && cached.attempts[t].fate == Outstanding;
        raised := RecoveryTurn(t, rows, visible, foreign, i, visited, now, insertFails);
        visited := visited + {t};
        if raised {
          return;
        }
        i := if i < |foreign| then i + 1 else i;
      }
      assert events[..|start|] == start;
      RecoveryDone(events, |start|, indexed, visible, foreign, visited, binding, authority);
      raised := false;
    }

    /** The attempts of the whole journal. */
    ghost function Rows(): map<Token, AttemptRow>
      requires JournalOk()
      reads this
    {
      ReplayAll(events, binding, authority).value.attempts
    }

    method RecoveryTurn(
      t: Token, ghost rows: map<Token, AttemptRow>, visible: map<Token, WitnessRow>, foreign: seq<seq<Payload>>, i: nat,
      ghost visited: set<Token>, now: int, insertFails: bool) returns (raised: bool)
      requires Valid() && !inTransaction && t in cached.attempts && t !in visited && i <= |foreign|
      requires Grown(rows, Rows(), visible, foreign) && Chased(Rows(), visible, visited)
      modifies `events, `cached, `counts, `indexed, `inTransaction, `saved, `savedRows, `savedCounts, `localError
      ensures Valid() && !inTransaction && old(events) <= events
      ensures raised ==> localError.Some?
      ensures !raised ==> localError == old(localError) && old(indexed) <= indexed
      ensures !raised ==> Grown(rows, Rows(), visible, foreign) && Chased(Rows(), visible, visited + {t})
      ensures !raised && i == |foreign| ==> |Rows().Keys - (visited + {t})| < |old(Rows()).Keys - visited|
    {
      hide ReplayAll, Agree, Grown, Chased;
      RowsOnlyGrow(events, indexed, |events|, binding, authority);
      assert events[..|events|] == events;
      FewerLeft(Rows().Keys, visited, t);
      if i < |foreign| {
        OthersAppend(rows, foreign, i, visible, visited, now);
      }
      raised := LookUp(t, rows, visible, foreign, visited, now, insertFails);
    }

    /** What other processes get in during one turn of the recovery loop. */
    method OthersAppend(
      ghost rows: map<Token, AttemptRow>, foreign: seq<seq<Payload>>, i: nat, ghost visible: map<Token, WitnessRow>,
      ghost visited: set<Token>, now: int)
      requires Valid() && !inTransaction && i < |foreign|
      requires Grown(rows, Rows(), visible, foreign) && Chased(Rows(), visible, visited)
      modifies `events
      ensures Valid() && !inTransaction && old(events) <= events
      ensures Grown(rows, Rows(), visible, foreign) && Chased(Rows(), visible, visited)
      ensures old(Rows()).Keys <= Rows().Keys
    {
      hide ReplayAll, Agree, Grown, Chased;
      ghost var before := Rows();
      for j := 0 to |foreign[i]|
        invariant Valid() && !inTransaction && old(events) <= events
        invariant Grown(rows, Rows(), visible, foreign) && Chased(Rows(), visible, visited)
        invariant before.Keys <= Rows().Keys
      {
        ghost var was := events;
        OtherProcessTries(foreign[i][j], now, true);
        if events != was {
          ForeignGrows(was, events, rows, visible, foreign, i, j, visited, binding, authority);
        }
      }
    }

    /** One turn: read the witness row, then resolve. */
    method LookUp(
      t: Token, ghost rows: map<Token, AttemptRow>, visible: map<Token, WitnessRow>, ghost foreign: seq<seq<Payload>>,
      ghost visited: set<Token>, now: int, insertFails: bool) returns (raised: bool)
      requires Valid() && !inTransaction && t in Rows()
      requires Grown(rows, Rows(), visible, foreign) && Chased(Rows(), visible, visited)
      modifies `events, `cached, `counts, `indexed, `inTransaction, `saved, `savedRows, `savedCounts, `localError
      ensures Valid() && !inTransaction && old(events) <= events
      ensures raised ==> localError.Some?
      ensures !raised ==> localError == old(localError) && Rows().Keys == old(Rows()).Keys && old(indexed) <= indexed
      ensures !raised ==> Grown(rows, Rows(), visible, foreign) && Chased(Rows(), visible, visited + {t})
    {
      hide ReplayAll, Agree, Grown, Chased, Resolved;
      ghost var before := Rows();
      if t !in visible {
        ChasedMore(before, visible, visited, t);
        return false;
      }
      if visible[t].Corrupt? {
        ReportError("corrupt commit witness", now, insertFails);
        return true;
      }
      ghost var was := indexed;
      raised := Resolve(t, visible[t].note, now, insertFails);
      if raised {
        ReportError("witness recovery failed", now, insertFails);
        return;
      }
      assert events[..|events|] == events;
      OwnGrows(rows, before, t, visible, foreign, visited);
    }

    /**
     `complete`: FENCE once every expected worker acknowledged and the closed epoch is resolved.
     The receipt written from the fast counters is the one a recount gives.
     */
    method Complete(now: int, insertFails: bool) returns (done: bool, raised: bool)
      requires Valid() && !inTransaction
      modifies `events, `cached, `counts, `indexed, `inTransaction, `saved, `savedRows, `savedCounts
      ensures Valid() && !inTransaction && SavedOk() && indexed == |events|
      ensures done ==> cached.receipt.Some? && cached.receipt.value.payload == FenceDone(ReceiptOf(cached, binding))
      ensures ReplayAll(old(events), binding, authority).Ok?
      ensures var s := ReplayAll(old(events), binding, authority).value;
        && (raised <==> Reported() || Failed(s) || (insertFails && s.receipt.None? && ReadyToFence(s, binding)))
        && (done <==> !raised && (s.receipt.Some? || ReadyToFence(s, binding)))
        && (events == old(events) || (done && s.receipt.None? && |events| == |old(events)| + 1 && old(events) <= events))
    {
      hide ReplayAll, Accept, ReceiptOf, ReceiptWith, StateOk, Agree, WorkerSet;
      Begin();
      Refresh();
      assert events[..|events|] == events;
      AcceptedJournalOk(events, binding, authority);
      if Reported() || Failed(cached) {
        End(true);
        return false, true;
      }
      if cached.receipt.Some? {
        End(false);
        FrozenFacts(cached, binding);
        return true, false;
      }
      var c := counts;
      FastReceiptIsReceipt(cached, binding, c);
      var r := ReceiptWith(cached, binding, f => CountOf(c, f));
      if cached.closed.None? || r.outstanding != 0 || cached.acks != WorkerSet(binding.workers) {
        End(false);
        return false, false;
      }
      CompleteIsAccepted(cached, binding, authority, |events| + 1, Some(events[|events| - 1]), now);
      var appended := Append(FenceDone(r), now, true, insertFails);
      if appended.Ok? {
        assert events[..|events|] == events;
        AcceptedJournalOk(events, binding, authority);
        FrozenFacts(cached, binding);
      }
      End(appended.Err?);
      return appended.Ok?, appended.Err?;
    }
  }

  function Recovered(row: AttemptRow, w: Witness): AttemptRow {
    row.(fate := WasCommitted, evidence := Some(w))
  }

  /** What a reader finds for a token: a witness, or a row whose digest does not match. */
  datatype WitnessRow = Readable(note: Witness) | Corrupt

  function PayloadTouches(p: Payload): Option<Token> {
    match p
    case Attempt(t, _, _, _) => Some(t)
    case Committed(t, _) => Some(t)
    case RolledBack(t) => Some(t)
    case _ => None
  }

  /** Another process tried an event about this attempt. */
  predicate ForeignTouches(foreign: seq<seq<Payload>>, t: Token) {
    exists i, j :: 0 <= i < |foreign| && 0 <= j < |foreign[i]| && PayloadTouches(foreign[i][j]) == Some(t)
  }

  /** A row is as it was, or was outstanding and is now resolved by its own witness or touched elsewhere. */
  ghost predicate Grown(
    rows: map<Token, AttemptRow>, rows': map<Token, AttemptRow>, visible: map<Token, WitnessRow>, foreign: seq<seq<Payload>>)
  {
    forall t :: t in rows ==> t in rows' && RowGrown(rows[t], rows'[t], t, visible, foreign)
  }

  ghost predicate RowGrown(
    row: AttemptRow, row': AttemptRow, t: Token, visible: map<Token, WitnessRow>, foreign: seq<seq<Payload>>)
  {
    row' == row || (row.fate == Outstanding && (ForeignTouches(foreign, t)
                    || (t in visible && visible[t].Readable? && row' == Recovered(row, visible[t].note))))
  }

  /** Every attempt looked up whose witness is visible has been resolved. */
  ghost predicate Chased(rows: map<Token, AttemptRow>, visible: map<Token, WitnessRow>, visited: set<Token>) {
    visited <= rows.Keys && forall t :: t in visited && t in visible ==> rows[t].fate != Outstanding
  }

  /** No attempt of `rows` with a visible witness is outstanding any more, and nothing else moved by itself. */
  ghost predicate AfterRecovery(
    rows: map<Token, AttemptRow>, rows': map<Token, AttemptRow>, visible: map<Token, WitnessRow>, foreign: seq<seq<Payload>>)
  {
    && Grown(rows, rows', visible, foreign)
    && forall t :: t in rows && t in visible ==> t in rows' && rows'[t].fate != Outstanding
  }

  /** An outstanding attempt not looked up yet. */
  predicate Unvisited(rows: map<Token, AttemptRow>, visited: set<Token>) {
    exists t :: t in rows && t !in visited && rows[t].fate == Outstanding
  }

  lemma GrownStart(rows: map<Token, AttemptRow>, visible: map<Token, WitnessRow>, foreign: seq<seq<Payload>>)
    ensures Grown(rows, rows, visible, foreign)
  {
  }

  lemma ChasedStart(rows: map<Token, AttemptRow>, visible: map<Token, WitnessRow>)
    ensures Chased(rows, visible, {})
  {
  }

  lemma ChasedMore(rows: map<Token, AttemptRow>, visible: map<Token, WitnessRow>, visited: set<Token>, t: Token)
    requires Chased(rows, visible, visited) && t in rows && (t in visible ==> rows[t].fate != Outstanding)
    ensures Chased(rows, visible, visited + {t})
  {
  }

  /** An accepted event leaves alone every attempt it does not name, and every resolved one. */
  lemma OtherRowsStay(s: State, e: Event, b: Binding, auth: Option<Authority>)
    requires Transition(s, e, b, auth).Ok?
    ensures var s' := Transition(s, e, b, auth).value;
      if Touched(e).None? then s'.attempts == s.attempts
      else
        && Touched(e).value in s'.attempts && s'.attempts == s.attempts[Touched(e).value := s'.attempts[Touched(e).value]]
        && (Touched(e).value in s.attempts ==> s.attempts[Touched(e).value].fate == Outstanding)
  {
    hide DistinctFacts, BeforeEnd, FreezeOk, ReceiptOf, WorkerSet, Failed;
    var s' := Transition(s, e, b, auth).value;
    match e.payload
    case Attempt(t, _, _, _) => assert s'.attempts == s.attempts[t := s'.attempts[t]];
    case Committed(t, _) => assert s'.attempts == s.attempts[t := s'.attempts[t]];
    case RolledBack(t) => assert s'.attempts == s.attempts[t := s'.attempts[t]];
    case _ =>
  }

  ghost predicate OnlyGrows(rows: map<Token, AttemptRow>, rows': map<Token, AttemptRow>) {
    forall t :: t in rows ==> t in rows' && (rows[t].fate != Outstanding ==> rows'[t] == rows[t])
  }

  /** Along an accepted journal no attempt vanishes, and a resolved one never changes. */
  lemma {:induction false} RowsOnlyGrow(events: seq<Event>, j: nat, k: nat, b: Binding, auth: Option<Authority>)
    requires ReplayAll(events, b, auth).Ok? && 0 < j <= k <= |events|
    ensures ReplayAll(events[..j], b, auth).Ok? && ReplayAll(events[..k], b, auth).Ok?
    ensures OnlyGrows(ReplayAll(events[..j], b, auth).value.attempts, ReplayAll(events[..k], b, auth).value.attempts)
    decreases k
  {
    hide Transition, ReplayAll;
    ReplayPrefix(events, j, b, auth);
    ReplayPrefix(events, k, b, auth);
    if j < k {
      RowsOnlyGrow(events, j, k - 1, b, auth);
      NextIsAccepted(events, k - 1, b, auth);
      OtherRowsStay(ReplayAll(events[..k - 1], b, auth).value, events[k - 1], b, auth);
    }
  }

  /** One event of another process. */
  lemma ForeignGrows(
    was: seq<Event>, events: seq<Event>, rows: map<Token, AttemptRow>, visible: map<Token, WitnessRow>,
    foreign: seq<seq<Payload>>, i: nat, j: nat, visited: set<Token>, b: Binding, auth: Option<Authority>)
    requires ReplayAll(was, b, auth).Ok? && ReplayAll(events, b, auth).Ok? && |events| == |was| + 1 && was <= events
    requires i < |foreign| && j < |foreign[i]| && events[|was|].payload == foreign[i][j]
    requires var cur := ReplayAll(was, b, auth).value.attempts;
      Grown(rows, cur, visible, foreign) && Chased(cur, visible, visited)
    ensures var cur, cur' := ReplayAll(was, b, auth).value.attempts, ReplayAll(events, b, auth).value.attempts;
      Grown(rows, cur', visible, foreign) && Chased(cur', visible, visited) && cur.Keys <= cur'.Keys
  {
    hide Transition, ReplayAll;
    AcceptedIsNonempty(was, b, auth);
    assert events[..|was|] == was && events[..|was| + 1] == events;
    NextIsAccepted(events, |was|, b, auth);
    OtherRowsStay(ReplayAll(was, b, auth).value, events[|was|], b, auth);
    assert Touched(events[|was|]) == PayloadTouches(foreign[i][j]);
  }

  /** One resolution of this process. */
  lemma OwnGrows(
    rows: map<Token, AttemptRow>, cur: map<Token, AttemptRow>, t: Token, visible: map<Token, WitnessRow>,
    foreign: seq<seq<Payload>>, visited: set<Token>)
    requires Grown(rows, cur, visible, foreign) && Chased(cur, visible, visited)
    requires t in cur && t in visible && visible[t].Readable?
    ensures var cur' := if cur[t].fate == Outstanding then Resolved(cur, t, visible[t].note) else cur;
      Grown(rows, cur', visible, foreign) && Chased(cur', visible, visited + {t}) && cur'.Keys == cur.Keys
  {
  }

  /** When the index shows nothing left to look up, the journal has nothing left to resolve. */
  lemma RecoveryDone(
    events: seq<Event>, start: nat, indexed: nat, visible: map<Token, WitnessRow>, foreign: seq<seq<Payload>>,
    visited: set<Token>, b: Binding, auth: Option<Authority>)
    requires ReplayAll(events, b, auth).Ok? && 0 < start <= indexed <= |events|
    requires ReplayAll(events[..start], b, auth).Ok? && ReplayAll(events[..indexed], b, auth).Ok?
    requires var rows, cur := ReplayAll(events[..start], b, auth).value.attempts, ReplayAll(events, b, auth).value.attempts;
      Grown(rows, cur, visible, foreign) && Chased(cur, visible, visited)
    requires !Unvisited(ReplayAll(events[..indexed], b, auth).value.attempts, visited)
    ensures AfterRecovery(
      ReplayAll(events[..start], b, auth).value.attempts, ReplayAll(events, b, auth).value.attempts, visible, foreign)
  {
    hide ReplayAll, RowGrown;
    RowsOnlyGrow(events, start, indexed, b, auth);
    RowsOnlyGrow(events, indexed, |events|, b, auth);
    assert events[..|events|] == events;
  }

  lemma FewerLeft(all: set<Token>, visited: set<Token>, t: Token)
    requires t in all && t !in visited
    ensures |all - (visited + {t})| < |all - visited|
  {
    assert all - visited == (all - (visited + {t})) + {t};
  }

  lemma CommittedHasWitness(events: seq<Event>, t: Token, b: Binding, auth: Option<Authority>)
    requires ReplayAll(events, b, auth).Ok? && t in ReplayAll(events, b, auth).value.attempts
    ensures var row := ReplayAll(events, b, auth).value.attempts[t]; row.fate == WasCommitted <==> row.evidence.Some?
  {
    AcceptedJournalOk(events, b, auth);
    assert RowOk(t, ReplayAll(events, b, auth).value.attempts[t], ReplayAll(events, b, auth).value.epoch, b);
  }

  function Resolved(rows: map<Token, AttemptRow>, t: Token, w: Witness): map<Token, AttemptRow>
    requires t in rows
  {
    rows[t := Recovered(rows[t], w)]
  }

  lemma CommitResolves(s: State, e: Event, index: int, previous: Option<Event>, b: Binding, auth: Option<Authority>)
    requires Accept(s, e, index, previous, b, auth).Ok? && e.payload.Committed? && index != 1
    ensures e.payload.token in s.attempts
    ensures Accept(s, e, index, previous, b, auth).value.attempts == Resolved(s.attempts, e.payload.token, e.payload.evidence)
  {
    hide DistinctFacts, BeforeEnd;
  }

  /** All that `complete` waits for. */
  predicate ReadyToFence(s: State, b: Binding) {
    s.closed.Some? && ReceiptOf(s, b).outstanding == 0 && s.acks == WorkerSet(b.workers)
  }

  lemma SmallerMap(m: map<Token, AttemptRow>, t: Token)
    requires t in m
    ensures |m - {t}| == |m| - 1
  {
    assert m.Keys == (m - {t}).Keys + {t};
  }

  lemma EmptyAgrees()
    ensures Agree(ZERO_COUNTS, map[])
  {
    forall f
      ensures Count(map[], f) == 0
    {
      assert EpochZero(map[], f) == {};
    }
  }

  lemma EmptyCounts(c: Counts)
    requires Agree(c, map[])
    ensures c == ZERO_COUNTS
  {
    EmptyAgrees();
    assert CountOf(c, Outstanding) == 0 && CountOf(c, WasCommitted) == 0 && CountOf(c, WasRolledBack) == 0;
  }

  /** The first event of an accepted journal leaves the start state. */
  lemma FirstEventArms(events: seq<Event>, b: Binding, auth: Option<Authority>)
    requires ReplayAll(events, b, auth).Ok?
    ensures events != [] && ReplayAll(events[..1], b, auth) == Ok(START)
  {
    ReplayPrefix(events, 1, b, auth);
    assert events[..1] == [events[0]];
    ReplayOne(events[0], START, 1, None, b, auth);
  }

  /** The next event of an accepted journal is accepted by the state its prefix left. */
  lemma NextIsAccepted(events: seq<Event>, k: nat, b: Binding, auth: Option<Authority>)
    requires ReplayAll(events, b, auth).Ok? && 0 < k < |events|
    ensures ReplayAll(events[..k], b, auth).Ok?
    ensures ReplayAll(events[..k + 1], b, auth)
         == Accept(ReplayAll(events[..k], b, auth).value, events[k], k + 1, Some(events[k - 1]), b, auth)
    ensures ReplayAll(events[..k + 1], b, auth).Ok?
  {
    hide Accept;
    ReplayPrefix(events, k, b, auth);
    ReplayPrefix(events, k + 1, b, auth);
    assert events[..k + 1] == events[..k] + [events[k]];
    ReplayAppend(events[..k], events[k], b, auth);
  }

  lemma JournalExtended(events: seq<Event>, e: Event, b: Binding, auth: Option<Authority>)
    requires ReplayAll(events, b, auth).Ok?
    ensures events != []
    ensures ReplayAll(events + [e], b, auth)
         == Accept(ReplayAll(events, b, auth).value, e, |events| + 1, Some(events[|events| - 1]), b, auth)
  {
    ReplayAppend(events, e, b, auth);
  }
}
