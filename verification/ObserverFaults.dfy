/**
 Contained failures.  One whose message is not empty stays on record and stops every later witness.
 One with an empty message need not: for each callback that keeps the observer's books, exactly when
 the COMMIT that follows carries a witness, what is wrong with it, and what can become of it.
 */
module ObserverFaults {
  import opened Wrappers
  import opened Fence
  import opened Observer
  import opened ObserverRuns
  import opened ObserverSafety
  import opened ObserverFate
  import opened ObserverLatch
  import P = FenceProcess

  // ---------- failures that say something ----------

  /** A failure that left the fields out of step is still on record, and no witness was sent out of step. */
  ghost predicate Recorded(w: World) {
    && (w.missed ==> Truthy(w.watch.localError) || Silent(w.watch))
    && (forall id :: id in w.durable && w.durable[id].note.Some? ==> w.durable[id].tracked)
    && (forall id :: id in w.limbo && w.limbo[id].note.Some? ==> w.limbo[id].tracked)
  }

  /** The record, once made, stays through a callback. */
  ghost predicate Keeps(w: Watch, w': Watch) {
    Silent(w') == Silent(w) && (Truthy(w.localError) ==> Truthy(w'.localError))
  }

  lemma LoudBefore(c: Config, w: World, f: Flush)
    requires w.levels != [] && LoudFault(f.before)
    ensures Keeps(w.watch, Begun(c, w, f).watch)
    ensures FlushUnseen(c, w.watch, f.facts, f.token, f.now, f.before) ==> Truthy(Begun(c, w, f).watch.localError)
  {
    hide Transition;
    var e := Ev(c, f.now, Attempt(f.token, c.worker, w.watch.fence.epoch, None));
    if Transition(w.watch.fence, e, c.binding, c.authority).Ok? {
      AttemptRowAdded(w.watch.fence, e, c.binding, c.authority);
    }
  }

  lemma LoudInsert(c: Config, w: World, f: Flush)
    requires w.levels != [] && LoudFlush(f) && Recorded(w)
    ensures Recorded(Inserted(c, w, f)) && Keeps(w.watch, Inserted(c, w, f).watch)
  {
    hide BeforeFlush, FlushUnseen, ById, OwnersOf;
    LoudBefore(c, w, f);
  }

  lemma LoudInsertFails(c: Config, w: World, f: Flush, sub: int, soft: Fault)
    requires w.levels != [] && LoudFlush(f) && LoudFault(soft) && Recorded(w)
    ensures Recorded(InsertFailed(c, w, f, sub, soft))
  {
    hide BeforeFlush;
    LoudBefore(c, w, f);
  }

  lemma LoudEnd(w: Watch, fault: Fault)
    requires LoudFault(fault)
    ensures Keeps(w, AfterRootEnd(w, fault))
    ensures !Silent(w) && !EndRuns(w, fault) ==> Truthy(AfterRootEnd(w, fault).localError)
  {
  }

  lemma LoudSoft(c: Config, w: Watch, now: int, fault: Fault)
    requires LoudFault(fault)
    ensures Keeps(w, AfterRootRollback(c, w, now, fault))
    ensures !Silent(w) && !SoftRuns(c, w, now, fault) ==> Truthy(AfterRootRollback(c, w, now, fault).localError)
  {
    hide Transition;
    SoftClears(c, w, now, fault);
  }

  lemma LoudLeft(c: Config, w: Watch, l: Leave)
    requires LoudFault(l.end) && LoudFault(l.soft)
    ensures Keeps(w, Left(c, w, l))
    ensures !Silent(w) && !Cleared(c, w, l) ==> Truthy(Left(c, w, l).localError)
  {
    hide AfterRootEnd, AfterRootRollback, EndRuns, SoftRuns, Silent, Truthy;
    match l.how
    case EndThenSoft =>
      LoudEnd(w, l.end);
      LoudSoft(c, AfterRootEnd(w, l.end), l.now, l.soft);
    case SoftThenEnd =>
      LoudSoft(c, w, l.now, l.soft);
      LoudEnd(AfterRootRollback(c, w, l.now, l.soft), l.end);
    case EndOnly => LoudEnd(w, l.end);
  }

  lemma LoudWitness(w: Watch, fault: Fault)
    requires LoudFault(fault)
    ensures Keeps(w, AfterWitness(w, fault)) && AfterWitness(w, fault).obs == w.obs
  {
  }

  lemma LoudCommit(c: Config, w: World, f: Flush, noting: Fault, reply: Reply, l: Leave)
    requires w.levels != [] && LoudFlush(f) && LoudFault(noting) && LoudFault(l.end) && LoudFault(l.soft) && Recorded(w)
    ensures Recorded(Committing(c, w, f, noting, reply, l))
  {
    hide Inserted, AfterWitness, AfterRootEnd, Left, Cleared, EndRuns, Listing, Truthy, Silent, Taken;
    assert Recorded(Starting(w)) by { StartingRecorded(w); }
    LoudInsert(c, Starting(w), f);
    var b := Inserted(c, Starting(w), f);
    FlushKeepsFlag(c, Starting(w), f);
    LoudNoting(c, b, noting);
    LoudWitness(b.watch, Noting(c, b, noting));
    var sent := Sending(c, w, f, noting);
    LoudEnd(sent.watch, l.end);
    LoudLeft(c, sent.watch, l);
    NoteNeedsHealth(c, b.watch, Noting(c, b, noting));
  }

  lemma StartingRecorded(w: World)
    requires Recorded(w)
    ensures Recorded(Starting(w))
  {
  }

  lemma LoudNoting(c: Config, w: World, noting: Fault)
    requires LoudFault(noting)
    ensures LoudFault(Noting(c, w, noting))
  {
    hide Taken, Listing;
  }

  lemma NoteNeedsHealth(c: Config, w: Watch, fault: Fault)
    ensures WitnessOf(c, w, fault).Some? ==> !Silent(w) && !Truthy(w.localError)
  {
    hide Listing;
  }

  lemma LoudStep(c: Config, w: World, s: Step)
    requires Recorded(w) && Enabled(c, w, s) && Loud(s)
    ensures Recorded(Next(c, w, s))
  {
    hide Inserted, InsertFailed, Committing, Left, Cleared, Transition, Truthy, LoudFlush, FreshFlush, Merged, Waits,
         Recovered, Report, Controlled, Installed;
    match s
    case Insert(f) => LoudInsert(c, w, f);
    case InsertFails(f, sub, soft) => LoudInsertFails(c, w, f, sub, soft);
    case Release(fault) => LoudRelease(c, w, fault);
    case RollbackTo(fault) => LoudRollback(c, w, fault);
    case Abandon(l) => LoudLeft(c, w.watch, l);
    case Commit(f, noting, reply, l) => LoudCommit(c, w, f, noting, reply, l);
    case CommitFlushFails(f, sub, soft) =>
      StartingRecorded(w);
      LoudInsertFails(c, Starting(w), f, sub, soft);
    case Recover(pass, id, now, sink) => LoudRecover(c, w, pass, id, now, sink);
    case Elsewhere(e) =>
    case ProcessFault(message, sink) => LoudReport(w.watch, message, sink);
    case Tick(sink) => LoudTick(w.watch, sink);
    case _ =>
  }

  lemma LoudReport(w: Watch, message: string, sink: Sink)
    requires message != ""
    ensures Keeps(w, Report(w, message, sink))
  {
  }

  lemma LoudTick(w: Watch, sink: Sink)
    ensures Silent(w) ==> Silent(Controlled(w, sink))
    ensures Truthy(w.localError) ==> Truthy(Controlled(w, sink).localError)
  {
  }

  lemma LoudRelease(c: Config, w: World, fault: Fault)
    requires Recorded(w) && Enabled(c, w, Release(fault)) && LoudFault(fault)
    ensures Recorded(Next(c, w, Release(fault)))
  {
    hide Merged;
  }

  lemma LoudRollback(c: Config, w: World, fault: Fault)
    requires Recorded(w) && Enabled(c, w, RollbackTo(fault)) && LoudFault(fault)
    ensures Recorded(Next(c, w, RollbackTo(fault)))
  {
  }

  lemma LoudRecover(c: Config, w: World, pass: int, id: int, now: int, sink: Sink)
    requires Recorded(w) && Enabled(c, w, Recover(pass, id, now, sink))
    ensures Recorded(Next(c, w, Recover(pass, id, now, sink)))
  {
    hide Recovered, Truthy;
    RecoveredRows(c, w.watch, now, w.durable[id].note.value, sink);
  }

  lemma {:induction false} LoudRun(c: Config, w: World, steps: seq<Step>)
    requires Recorded(w) && Possible(c, w, steps) && forall i :: 0 <= i < |steps| ==> Loud(steps[i])
    ensures Recorded(Run(c, w, steps))
    decreases |steps|
  {
    hide Recorded, Enabled, Next, Loud;
    if steps != [] {
      LoudStep(c, w, steps[0]);
      LoudRun(c, Next(c, w, steps[0]), steps[1..]);
    }
  }

  /**
   When every contained failure carries a message, every witness is sent in step: COMMITTED then names
   its own transaction with exactly its rows, and an ambiguous commit stays outstanding.
   */
  lemma LoudFailuresNeverMislead(c: Config, journal: State, steps: seq<Step>, t: Token)
    requires Possible(c, NewWorld(journal), steps) && forall i :: 0 <= i < |steps| ==> Loud(steps[i])
    requires var w := Run(c, NewWorld(journal), steps); t in w.admitted && t in w.watch.fence.attempts
    ensures var w := Run(c, NewWorld(journal), steps);
      var row, id := w.watch.fence.attempts[t], w.admitted[t];
      && (row.fate == WasCommitted ==>
            && id in w.durable && row.evidence.Some? && w.durable[id].note == row.evidence
            && ById(row.evidence.value.trades) == w.durable[id].rows)
      && (id in w.limbo || (id in w.durable && w.durable[id].note.None?) ==> row.fate == Outstanding)
  {
    hide Possible, Run, Loud, Sound, Recorded;
    NewWorldSound(c, journal);
    RunKeepsSound(c, NewWorld(journal), steps);
    assert Recorded(NewWorld(journal)) by { NewWorldRecorded(journal); }
    LoudRun(c, NewWorld(journal), steps);
    LoudVerdict(c, Run(c, NewWorld(journal), steps), t);
  }

  lemma NewWorldRecorded(journal: State)
    ensures Recorded(NewWorld(journal))
  {
  }

  lemma LoudVerdict(c: Config, w: World, t: Token)
    requires Sound(c, w) && Recorded(w) && t in w.admitted && t in w.watch.fence.attempts
    ensures var row, id := w.watch.fence.attempts[t], w.admitted[t];
      && (row.fate == WasCommitted ==>
            && id in w.durable && row.evidence.Some? && w.durable[id].note == row.evidence
            && ById(row.evidence.value.trades) == w.durable[id].rows)
      && (id in w.limbo || (id in w.durable && w.durable[id].note.None?) ==> row.fate == Outstanding)
  {
    hide CoreOk, Tracks;
    VerdictFacts(c, w, t);
    NotSentYet(c, w);
  }

  // ---------- what goes on beside the session ----------

  /** Other reports in the process, other processes, the control loop, controllers coming and going. */
  predicate Beside(s: Step) {
    s.ProcessFault? || s.Elsewhere? || s.DeniedElsewhere? || s.Tick? || s.OpenPass? || s.ClosePass?
  }

  ghost predicate AllBeside(c: Config, w: World, later: seq<Step>) {
    Possible(c, w, later) && forall i :: 0 <= i < |later| ==> Beside(later[i])
  }

  /** The newest message recorded in the process. */
  function NewestLocal(first: Option<string>, later: seq<Step>): Option<string>
    decreases |later|
  {
    if later == [] then first
    else NewestLocal(if later[0].ProcessFault? then Some(later[0].message) else first, later[1..])
  }

  /** The message of the newest ERROR in the journal. */
  function NewestJournaled(first: Option<string>, later: seq<Step>): Option<string>
    decreases |later|
  {
    if later == [] then first
    else
      NewestJournaled(if later[0].ProcessFault? && later[0].sink.journaled then Some(later[0].message)
                      else if later[0].Elsewhere? && later[0].e.payload.Error? then Some(later[0].e.payload.message)
                      else first, later[1..])
  }

  /** Nothing on record stops a witness: the observer still listens, and both newest messages are empty or none. */
  ghost predicate Unheard(c: Config, w: World, later: seq<Step>)
    requires Possible(c, w, later)
  {
    && !Silent(Run(c, w, later).watch)
    && !Truthy(NewestLocal(w.watch.localError, later)) && !Truthy(NewestJournaled(w.watch.fence.error, later))
  }

  lemma BesideStep(c: Config, w: World, s: Step, t: Token)
    requires Enabled(c, w, s) && Beside(s) && t in w.admitted && t in w.watch.fence.attempts
    ensures var n := Next(c, w, s);
      && n == w.(watch := n.watch, passes := n.passes) && n.watch.obs == w.watch.obs
      && t in n.watch.fence.attempts && n.watch.fence.attempts[t] == w.watch.fence.attempts[t]
      && (Silent(w.watch) ==> Silent(n.watch)) && (w.watch.latched ==> n.watch.latched)
      && (!Silent(n.watch) ==>
            && n.watch.localError == NewestLocal(w.watch.localError, [s])
            && n.watch.fence.error == NewestJournaled(w.watch.fence.error, [s]))
  {
    hide Transition;
    assert [s][1..] == [];
    if s.Elsewhere? {
      P.OtherRowsStay(w.watch.fence, s.e, c.binding, c.authority);
      ErrorMoves(c, w.watch.fence, s.e);
      SilentStays(w.watch, s.e, c);
    }
  }

  lemma ErrorMoves(c: Config, f: State, e: Event)
    requires Transition(f, e, c.binding, c.authority).Ok?
    ensures Transition(f, e, c.binding, c.authority).value.error == if e.payload.Error? then Some(e.payload.message) else f.error
  {
    hide DistinctFacts, BeforeEnd, FreezeOk, ReceiptOf;
  }

  /** Whatever goes on beside it leaves the session alone; only the records of failure can move. */
  lemma {:induction false} BesideRun(c: Config, w: World, later: seq<Step>, t: Token)
    requires AllBeside(c, w, later) && t in w.admitted && t in w.watch.fence.attempts
    ensures var v := Run(c, w, later);
      && v == w.(watch := v.watch, passes := v.passes) && v.watch.obs == w.watch.obs
      && t in v.watch.fence.attempts && v.watch.fence.attempts[t] == w.watch.fence.attempts[t]
      && (Silent(w.watch) ==> Silent(v.watch)) && (w.watch.latched ==> v.watch.latched)
      && (!Silent(v.watch) ==>
            && v.watch.localError == NewestLocal(w.watch.localError, later)
            && v.watch.fence.error == NewestJournaled(w.watch.fence.error, later))
    decreases |later|
  {
    hide Enabled, Next, Silent, Beside;
    if later != [] {
      BesideStep(c, w, later[0], t);
      BesideRun(c, Next(c, w, later[0]), later[1..], t);
      OneNewest(w, later);
    }
  }

  lemma OneNewest(w: World, later: seq<Step>)
    requires later != []
    ensures NewestLocal(w.watch.localError, later) == NewestLocal(NewestLocal(w.watch.localError, [later[0]]), later[1..])
    ensures NewestJournaled(w.watch.fence.error, later) == NewestJournaled(NewestJournaled(w.watch.fence.error, [later[0]]), later[1..])
  {
    assert [later[0]][1..] == [];
  }

  // ---------- the COMMIT that follows ----------

  /** COMMIT of a session with nothing left to flush, acknowledged. */
  ghost function Acked(c: Config, v: World, g: Flush, noting: Fault, l: Leave): World
    requires v.levels != []
  {
    Committing(c, v, g, noting, Acknowledged, l)
  }

  ghost function CommittedTxn(c: Config, v: World, g: Flush, noting: Fault, l: Leave): Txn
    requires v.levels != []
  {
    Acked(c, v, g, noting, l).durable[v.levels[0].id]
  }

  lemma {:induction false} BesideLevels(c: Config, w: World, later: seq<Step>)
    requires AllBeside(c, w, later)
    ensures Run(c, w, later).levels == w.levels
    decreases |later|
  {
    hide Enabled, Transition, Report, Controlled;
    if later != [] {
      BesideLevels(c, Next(c, w, later[0]), later[1..]);
    }
  }

  /** The transaction as it becomes durable, `later` having gone on beside the session left as `i`. */
  ghost function CommittedAfter(c: Config, i: World, later: seq<Step>, g: Flush, noting: Fault, l: Leave): Txn
    requires i.levels != [] && AllBeside(c, i, later)
  {
    BesideLevels(c, i, later);
    CommittedTxn(c, Run(c, i, later), g, noting, l)
  }

  /**
   A clean COMMIT of any world carries a witness if and only if its token is journaled, no witness for it
   is there yet, and nothing on record says no: no message in the process, no ERROR in the journal.
   */
  lemma WitnessIffNothingRecorded(c: Config, v: World, g: Flush, noting: Fault, l: Leave)
    requires |v.levels| == 1 && !g.dirty && noting.Fine?
    ensures var txn, token := CommittedTxn(c, v, g, noting, l), v.watch.obs.token;
      && txn.rows == v.levels[0].rows && txn.tracked == !v.missed
      && (txn.note.Some? <==>
            && token.Some? && token.value in v.watch.fence.attempts && !Taken(v.durable, token.value)
            && !Silent(v.watch) && !Truthy(v.watch.localError) && !Failed(v.watch.fence))
      && (txn.note.Some? ==> Some(txn.note.value.token) == token && txn.note.value.trades == Listing(v.watch.obs.trades))
  {
    hide Listing, AfterRootEnd, Taken;
  }

  /** The same after a failure that left the session as `i`, and whatever went on beside it since. */
  lemma CommitAfter(c: Config, i: World, t: Token, later: seq<Step>, g: Flush, noting: Fault, l: Leave)
    requires |i.levels| == 1 && i.watch.obs.token == Some(t) && t in i.admitted && t in i.watch.fence.attempts
    requires !Taken(i.durable, t) && AllBeside(c, i, later) && !g.dirty && noting.Fine?
    ensures var txn := CommittedAfter(c, i, later, g, noting, l);
      && txn.rows == i.levels[0].rows && (txn.note.Some? <==> Unheard(c, i, later))
      && (txn.note.Some? ==> txn.note.value.token == t && txn.note.value.trades == Listing(i.watch.obs.trades))
  {
    hide Listing, Acked, Taken, Possible, Run;
    BesideRun(c, i, later, t);
    WitnessIffNothingRecorded(c, Run(c, i, later), g, noting, l);
  }

  // ---------- the open transaction a failure falls into ----------

  /** A transaction admitted under `t`, so far observed in step. */
  ghost predicate Observed(c: Config, w: World, t: Token) {
    && Sound(c, w) && InStep(w) && Alive(w)
    && w.watch.obs.token == Some(t) && t in w.watch.fence.attempts
  }

  /** A token whose transaction is still open is outstanding, and no transaction carries a witness for it. */
  lemma OpenTokenIsFree(c: Config, w: World, t: Token)
    requires Observed(c, w, t)
    ensures !Taken(w.durable, t) && !Taken(w.limbo, t)
    ensures t in w.admitted && w.admitted[t] == w.levels[0].id && w.watch.fence.attempts[t].fate == Outstanding
    ensures w.levels[0].id !in w.durable && w.levels[0].id !in w.limbo && w.levels[0].id in w.used
  {
    hide Mirrors, NotesUnique;
    var k := CoreOf(w);
    assert VerdictOk(c, k, t);
  }

  /** Facts held in step are the rows, and listing them is exact. */
  lemma HeldIsRows(c: Config, w: World, t: Token)
    requires Observed(c, w, t)
    ensures WellKeyed(w.watch.obs.trades) && w.watch.obs.candidates == [] && w.watch.obs.trades == Survivors(w.levels)
    ensures |w.levels| == 1 ==> w.watch.obs.trades == w.levels[0].rows
  {
    hide CoreOk, Mirrors, Survivors;
    MirrorsMeansSurvivors(w.watch.obs, w.levels, w.used);
    TradesKeyed(w.watch.obs, w.levels);
    if |w.levels| == 1 {
      OneLevelSurvives(w.levels);
    }
  }

  // ---------- flush ----------

  lemma {:induction false} LastIdIsNew(facts: seq<Fact>, n: nat)
    requires n < |facts|
    requires forall i, j :: 0 <= i < j < |facts| ==> facts[i].recordId != facts[j].recordId
    ensures facts[|facts| - 1].recordId !in ById(facts[..n])
    ensures facts[|facts| - 1].recordId in ById(facts)
  {
    if n > 0 {
      LastIdIsNew(facts, n - 1);
      assert facts[..n][..n - 1] == facts[..n - 1];
    }
  }

  /** All of a flush is stored, or its last fact is missing. */
  lemma StoredMissesLast(facts: seq<Fact>, reach: nat, half: bool)
    requires facts != [] && forall i, j :: 0 <= i < j < |facts| ==> facts[i].recordId != facts[j].recordId
    ensures facts[|facts| - 1].recordId in ById(facts)
    ensures if half && reach + 1 >= |facts| then Stored(facts, reach, half) == facts
            else facts[|facts| - 1].recordId !in ById(Stored(facts, reach, half))
  {
    hide ById;
    var n := if reach < |facts| then reach else |facts| - 1;
    var stored := if half then n + 1 else n;
    assert Stored(facts, reach, half) == facts[..stored];
    LastIdIsNew(facts, 0);
    if stored == |facts| {
      assert facts[..stored] == facts;
    } else {
      LastIdIsNew(facts, stored);
    }
  }

  /**
   Detaching the facts of a flush fails, after any number of them: the next COMMIT carries a witness if
   and only if the newest messages are empty, and it omits rows unless the very last fact raised after it
   was stored.
   */
  lemma UndetachedFlushIsWitnessed(
    c: Config, w: World, t: Token, f: Flush, later: seq<Step>, g: Flush, noting: Fault, l: Leave)
    requires Observed(c, w, t) && |w.levels| == 1 && FreshFlush(w, f) && f.dirty && f.facts != []
    requires f.before.Fine? && !f.after.Fine? && !g.dirty && noting.Fine?
    requires AllBeside(c, Inserted(c, w, f), later)
    ensures var i := Inserted(c, w, f); var txn := CommittedAfter(c, i, later, g, noting, l);
      && i.watch.localError == Some(f.after.message) && i.watch.fence == Journaled(w.watch.fence, f.after.message, f.after.sink)
      && txn.rows == w.levels[0].rows + ById(f.facts)
      && (txn.note.Some? <==> Unheard(c, i, later))
      && (txn.note.Some? ==> (ById(txn.note.value.trades) == txn.rows <==> f.half && f.reach + 1 >= |f.facts|))
  {
    hide CoreOk, Mirrors, ById, Listing, CommittedAfter, Sound, Unheard, Possible, Run, Stored;
    assert InStep(w) && Alive(w);
    HeldIsRows(c, w, t);
    OpenTokenIsFree(c, w, t);
    UndetachedState(c, w, f);
    CommitAfter(c, Inserted(c, w, f), t, later, g, noting, l);
    StoredMissesLast(f.facts, f.reach, f.half);
    ListingOfHeld(w.watch.obs.trades, Stored(f.facts, f.reach, f.half));
    var last := f.facts[|f.facts| - 1].recordId;
    assert last in ById(f.facts).Keys && last !in w.levels[0].rows.Keys;
  }

  lemma ListingOfHeld(held: Rows, facts: seq<Fact>)
    requires WellKeyed(held)
    ensures ById(Listing(held + ById(facts))) == held + ById(facts)
  {
    ByIdWellKeyed(facts);
    ListingRoundTrip(held + ById(facts));
  }

  lemma UndetachedState(c: Config, w: World, f: Flush)
    requires |w.levels| == 1 && !Silent(w.watch) && w.watch.obs.token.Some? && w.watch.obs.candidates == []
    requires f.dirty && f.facts != [] && f.before.Fine? && !f.after.Fine?
    ensures var i := Inserted(c, w, f);
      && i.levels == [w.levels[0].(rows := w.levels[0].rows + ById(f.facts))]
      && i.durable == w.durable && i.admitted == w.admitted && i.watch.obs.token == w.watch.obs.token
      && i.watch.fence == Journaled(w.watch.fence, f.after.message, f.after.sink)
      && i.watch.localError == Some(f.after.message)
      && i.watch.obs.trades == w.watch.obs.trades + ById(Stored(f.facts, f.reach, f.half))
  {
    hide ById, Transition, OwnersOf, Stored, Reached;
    assert [] + f.facts == f.facts;
  }

  /**
   The flush callback itself fails in a transaction already admitted: its facts are never candidates.
   The next COMMIT carries a witness if and only if the newest messages are empty, without any of them.
   */
  lemma UnseenFlushIsWitnessed(
    c: Config, w: World, t: Token, f: Flush, later: seq<Step>, g: Flush, noting: Fault, l: Leave)
    requires Observed(c, w, t) && |w.levels| == 1 && FreshFlush(w, f) && f.dirty && f.facts != []
    requires !f.before.Fine? && !g.dirty && noting.Fine? && AllBeside(c, Inserted(c, w, f), later)
    ensures var i := Inserted(c, w, f); var txn := CommittedAfter(c, i, later, g, noting, l);
      && i.watch == Contain(w.watch, f.before.message, f.before.sink)
      && txn.rows == w.levels[0].rows + ById(f.facts)
      && (txn.note.Some? <==> Unheard(c, i, later))
      && (txn.note.Some? ==> ById(txn.note.value.trades) == w.levels[0].rows != txn.rows)
  {
    hide CoreOk, Mirrors, ById, Listing, CommittedAfter, Sound, Unheard, Possible, Run;
    assert InStep(w) && Alive(w);
    HeldIsRows(c, w, t);
    OpenTokenIsFree(c, w, t);
    UnseenState(c, w, f);
    CommitAfter(c, Inserted(c, w, f), t, later, g, noting, l);
    ListingRoundTrip(w.watch.obs.trades);
    StoredMissesLast(f.facts, f.reach, f.half);
    var last := f.facts[|f.facts| - 1].recordId;
    assert last in ById(f.facts).Keys && last !in w.levels[0].rows.Keys;
  }

  lemma UnseenState(c: Config, w: World, f: Flush)
    requires |w.levels| == 1 && !Silent(w.watch) && w.watch.obs.token.Some? && w.watch.obs.candidates == []
    requires f.dirty && f.facts != [] && !f.before.Fine?
    ensures var i := Inserted(c, w, f);
      && i.levels == [w.levels[0].(rows := w.levels[0].rows + ById(f.facts))]
      && i.durable == w.durable && i.admitted == w.admitted && i.watch == Contain(w.watch, f.before.message, f.before.sink)
  {
    hide ById, Transition, OwnersOf;
  }

  // ---------- savepoints ----------

  /**
   Rolling back a savepoint is not noticed: its rows are gone, its facts are not.  The next COMMIT
   carries a witness if and only if the newest messages are empty, exact only if the savepoint was empty.
   */
  lemma UnnoticedRollbackIsWitnessed(
    c: Config, w: World, t: Token, fault: Fault, later: seq<Step>, g: Flush, noting: Fault, l: Leave)
    requires Observed(c, w, t) && |w.levels| == 2 && !fault.Fine? && !g.dirty && noting.Fine?
    requires AllBeside(c, Next(c, w, RollbackTo(fault)), later)
    ensures var i := Next(c, w, RollbackTo(fault)); var txn := CommittedAfter(c, i, later, g, noting, l);
      && i.watch == Contain(w.watch, fault.message, fault.sink)
      && txn.rows == w.levels[0].rows
      && (txn.note.Some? <==> Unheard(c, i, later))
      && (txn.note.Some? ==> ById(txn.note.value.trades) == w.levels[0].rows + w.levels[1].rows)
      && (txn.note.Some? ==> (ById(txn.note.value.trades) == txn.rows <==> w.levels[1].rows == map[]))
  {
    hide CoreOk, Listing, ById, CommittedAfter, Mirrors, Unheard, Possible, Run;
    HeldIsRows(c, w, t);
    OpenTokenIsFree(c, w, t);
    assert w.levels[..1] == [w.levels[0]];
    CommitAfter(c, Next(c, w, RollbackTo(fault)), t, later, g, noting, l);
    ListingRoundTrip(w.watch.obs.trades);
    TwoLevelsSurvive(w.levels);
    LevelsApart(w.watch.obs, w.levels, w.used, 0, 1);
    ApartSum(w.levels[0].rows, w.levels[1].rows);
  }

  lemma TwoLevelsSurvive(levels: seq<Level>)
    requires |levels| == 2
    ensures Survivors(levels) == levels[0].rows + levels[1].rows
  {
    OneLevelSurvives(levels[..1]);
  }

  /** Live levels never share a record ID. */
  lemma LevelsApart(o: Obs, levels: seq<Level>, used: set<int>, i: nat, j: nat)
    requires Mirrors(o, levels) && StackOk(levels, used) && i < j < |levels| && !levels[i].dead && !levels[j].dead
    ensures levels[i].rows.Keys !! levels[j].rows.Keys
  {
    hide LevelOk;
    PairApart(o, levels[i], levels[j], i == 0);
  }

  lemma PairApart(o: Obs, a: Level, b: Level, root: bool)
    requires LevelOk(o, a, root) && LevelOk(o, b, false) && !a.dead && !b.dead && a.id != b.id
    ensures a.rows.Keys !! b.rows.Keys
  {
    forall k | k in a.rows
      ensures k !in b.rows
    {
      assert OwnedBy(o.owners[k], a.id, root);
    }
  }

  lemma ApartSum(a: Rows, b: Rows)
    requires a.Keys !! b.Keys
    ensures a + b == a <==> b == map[]
  {
    if b != map[] {
      var k := Member(b.Keys);
      assert k in (a + b).Keys && k !in a.Keys;
    }
  }

  /** The parent of a savepoint whose release went unnoticed is rolled back. */
  ghost function ReleasedUnnoticed(c: Config, w: World, fault: Fault, sink: Sink): World
    requires |w.levels| == 3 && Alive(w)
  {
    Next(c, Next(c, w, Release(fault)), RollbackTo(Fine(sink)))
  }

  /**
   Releasing a savepoint is not noticed, and its parent is rolled back: the released facts stay behind.
   The next COMMIT carries a witness if and only if the newest messages are empty, exact only if the
   released savepoint was empty.
   */
  lemma UnnoticedReleaseIsWitnessed(
    c: Config, w: World, t: Token, fault: Fault, sink: Sink, later: seq<Step>, g: Flush, noting: Fault, l: Leave)
    requires Observed(c, w, t) && |w.levels| == 3 && !fault.Fine? && !g.dirty && noting.Fine?
    requires AllBeside(c, ReleasedUnnoticed(c, w, fault, sink), later)
    ensures var i := ReleasedUnnoticed(c, w, fault, sink); var txn := CommittedAfter(c, i, later, g, noting, l);
      && i.watch == Contain(w.watch, fault.message, fault.sink).(obs := i.watch.obs)
      && txn.rows == w.levels[0].rows
      && (txn.note.Some? <==> Unheard(c, i, later))
      && (txn.note.Some? ==> ById(txn.note.value.trades) == w.levels[0].rows + w.levels[2].rows)
      && (txn.note.Some? ==> (ById(txn.note.value.trades) == txn.rows <==> w.levels[2].rows == map[]))
  {
    hide CoreOk, Listing, ById, CommittedAfter, Mirrors, Unheard, Possible, Run, ReleasedUnnoticed;
    HeldIsRows(c, w, t);
    OpenTokenIsFree(c, w, t);
    ReleasedThenRolledBack(c, w, fault, sink);
    var i := ReleasedUnnoticed(c, w, fault, sink);
    CommitAfter(c, i, t, later, g, noting, l);
    ForgetMiddle(w.watch.obs, w.levels, w.used);
    ListingRoundTrip(i.watch.obs.trades);
    LevelsApart(w.watch.obs, w.levels, w.used, 0, 2);
    ApartSum(w.levels[0].rows, w.levels[2].rows);
  }

  lemma ReleasedThenRolledBack(c: Config, w: World, fault: Fault, sink: Sink)
    requires |w.levels| == 3 && Alive(w) && !Silent(w.watch) && !fault.Fine?
    ensures var v := ReleasedUnnoticed(c, w, fault, sink);
      && v.levels == [w.levels[0]] && v.durable == w.durable && v.admitted == w.admitted
      && v.watch == Contain(w.watch, fault.message, fault.sink).(obs := Forgotten(w.watch.obs, w.levels[1].id))
  {
    var v1 := Next(c, w, Release(fault));
    assert |v1.levels| == 2 && v1.levels[0] == w.levels[0] && v1.levels[1].id == w.levels[1].id;
  }

  /** Forgetting the middle of three levels leaves the facts of the other two. */
  lemma ForgetMiddle(o: Obs, levels: seq<Level>, used: set<int>)
    requires Mirrors(o, levels) && StackOk(levels, used) && |levels| == 3 && !Top(levels).dead
    ensures Forgotten(o, levels[1].id).trades == levels[0].rows + levels[2].rows
    ensures WellKeyed(Forgotten(o, levels[1].id).trades)
  {
    var left, both := Forgotten(o, levels[1].id).trades, levels[0].rows + levels[2].rows;
    assert LevelOk(o, levels[0], true) && LevelOk(o, levels[1], false) && LevelOk(o, levels[2], false);
    forall k
      ensures k in left <==> k in both
    {
      if k in o.trades {
        var i :| 0 <= i < |levels| && OwnedBy(o.owners[k], levels[i].id, i == 0);
      }
    }
    forall k | k in left
      ensures left[k] == both[k]
    {
      assert k in both;
    }
    assert left.Keys == both.Keys;
  }

  // ---------- the end of a transaction ----------

  /** Every outer callback that runs fails. */
  predicate AllFail(l: Leave) {
    !l.end.Fine? && (l.how.EndOnly? || !l.soft.Fine?)
  }

  /** What the failing outer callbacks leave: the fields as they were, and their reports in order. */
  function Unfinished(w: Watch, l: Leave): Watch
    requires AllFail(l)
  {
    match l.how
    case EndThenSoft => Contain(Contain(w, l.end.message, l.end.sink), l.soft.message, l.soft.sink)
    case SoftThenEnd => Contain(Contain(w, l.soft.message, l.soft.sink), l.end.message, l.end.sink)
    case EndOnly => Contain(w, l.end.message, l.end.sink)
  }

  /** One of the failing outer callbacks got its denial stored. */
  predicate StoredBy(l: Leave) {
    l.end.sink.stored || (!l.how.EndOnly? && l.soft.sink.stored)
  }

  /** One outer callback that works is enough: the fields are clear, and the next transaction is in step. */
  lemma OneOuterCallbackClears(c: Config, w: World, t: Token, l: Leave)
    requires Observed(c, w, t)
    ensures Cleared(c, w.watch, l) <==> !AllFail(l)
    ensures InStep(Next(c, w, Abandon(l))) <==> !AllFail(l)
    ensures AllFail(l) ==> Left(c, w.watch, l) == Unfinished(w.watch, l)
  {
    hide CoreOk, Mirrors, Transition;
    OpenTokenIsFree(c, w, t);
    LeftClears(c, w.watch, l);
    RollbackAccepted(c, w.watch, t, l.now);
    RollbackAccepted(c, AfterRootEnd(w.watch, l.end), t, l.now);
  }

  lemma RollbackAccepted(c: Config, w: Watch, t: Token, now: int)
    requires t in w.fence.attempts && w.fence.attempts[t].fate == Outstanding
    ensures Transition(w.fence, Ev(c, now, RolledBack(t)), c.binding, c.authority).Ok?
  {
  }

  /** The journal accepts these facts as a commit. */
  predicate Acceptable(c: Config, note: Witness) {
    DistinctFacts(note.trades) && (note.epoch > 0 ==> !BeforeEnd(note.trades, c.binding.end))
  }

  /** The next transaction, open after `l`. */
  ghost function Following(c: Config, w: World, l: Leave, next: int): World
    requires w.levels != [] && next !in w.used
  {
    Next(c, Next(c, w, Abandon(l)), BeginOuter(next))
  }

  /** Token `t` was admitted in a transaction that is over, and that the database did not commit. */
  ghost predicate NeverCommitted(w: World, t: Token) {
    t in w.admitted && w.admitted[t] !in w.durable && w.admitted[t] !in w.limbo && w.levels == []
  }

  ghost predicate EndsCommitted(c: Config, w: World, steps: seq<Step>, t: Token) {
    && Possible(c, w, steps)
    && var v := Run(c, w, steps);
       t in v.admitted && t in v.watch.fence.attempts && v.watch.fence.attempts[t].fate == WasCommitted
  }

  /** Some continuation of the run journals COMMITTED for `t`. */
  ghost predicate CanBecomeCommitted(c: Config, w: World, t: Token) {
    exists steps: seq<Step> :: EndsCommitted(c, w, steps, t)
  }

  /**
   The stale token.  A transaction is abandoned and no outer callback gets to clear the fields.  The
   next transaction, though it wrote nothing itself, commits with a witness that carries the abandoned
   transaction's token and facts if and only if the newest messages are empty.  The journal can then come
   to say COMMITTED for a transaction the database never committed if and only if a recovery is open
   already or the denial latch is not there; it is there, and no recovery opens, once one of the failing
   callbacks stored it.
   */
  lemma StaleTokenIsWitnessed(
    c: Config, w: World, t: Token, l: Leave, next: int, later: seq<Step>, g: Flush, noting: Fault, l': Leave)
    requires Observed(c, w, t) && AllFail(l) && next !in w.used && !g.dirty && noting.Fine?
    requires var i := Following(c, w, l, next); AllBeside(c, i, later) && FreshFlush(Run(c, i, later), g)
    ensures var i := Following(c, w, l, next); var v := Run(c, i, later);
      && i.watch == Unfinished(w.watch, l)
      && Enabled(c, v, Commit(g, noting, Acknowledged, l'))
      && var txn, after := CommittedAfter(c, i, later, g, noting, l'), Acked(c, v, g, noting, l');
         && (txn.note.Some? <==> Unheard(c, i, later))
         && (txn.note.Some? ==>
               && txn.note.value.token == t && txn.note.value.trades == Listing(w.watch.obs.trades)
               && NeverCommitted(after, t)
               && (Acceptable(c, txn.note.value) ==> (CanBecomeCommitted(c, after, t) <==> !ShutOut(after))))
         && (StoredBy(l) ==> after.watch.latched && after.passes <= w.passes)
  {
    hide CoreOk, Mirrors, Listing, ById, Sound, Left, Cleared, Acceptable, CanBecomeCommitted, NeverCommitted, Acked, Waits,
         CommittedTxn, Unheard, Possible, Run, FreshFlush, Unfinished;
    OpenTokenIsFree(c, w, t);
    var i := Following(c, w, l, next);
    FollowingState(c, w, t, l, next);
    CommitAfter(c, i, t, later, g, noting, l');
    BesideRun(c, i, later, t);
    BesideSound(c, i, later);
    var v := Run(c, i, later);
    StaleCommit(c, v, g, noting, l', t);
    if StoredBy(l) {
      StoredIsLatched(w.watch, l);
      BesidePasses(c, i, later);
      AckedLatch(c, v, g, noting, l');
    }
  }

  lemma StoredIsLatched(w: Watch, l: Leave)
    requires AllFail(l) && StoredBy(l)
    ensures Unfinished(w, l).latched
  {
  }

  lemma FollowingState(c: Config, w: World, t: Token, l: Leave, next: int)
    requires Observed(c, w, t) && AllFail(l) && next !in w.used
    ensures var i := Following(c, w, l, next);
      && Sound(c, i) && i.levels == [Level(next, map[], false)] && i.watch == Unfinished(w.watch, l)
      && i.watch.obs == w.watch.obs && i.watch.fence.attempts == w.watch.fence.attempts
      && i.durable == w.durable && i.limbo == w.limbo && i.admitted == w.admitted && i.passes == w.passes
  {
    hide CoreOk, Mirrors, Sound, Left, Cleared;
    assert Sound(c, w) && Alive(w);
    OneOuterCallbackClears(c, w, t, l);
    AbandonSound(c, w, l);
    BeginSound(c, Next(c, w, Abandon(l)), next);
  }

  lemma {:induction false} BesideSound(c: Config, w: World, later: seq<Step>)
    requires Sound(c, w) && AllBeside(c, w, later)
    ensures Sound(c, Run(c, w, later))
  {
    RunKeepsSound(c, w, later);
  }

  /** Under the latch no recovery opens. */
  lemma {:induction false} BesidePasses(c: Config, w: World, later: seq<Step>)
    requires w.watch.latched && AllBeside(c, w, later)
    ensures Run(c, w, later).watch.latched && Run(c, w, later).passes <= w.passes
    decreases |later|
  {
    hide Enabled, Next, Beside;
    if later != [] {
      LatchedStep(c, w, later[0]);
      BesidePasses(c, Next(c, w, later[0]), later[1..]);
    }
  }

  lemma LatchedStep(c: Config, w: World, s: Step)
    requires w.watch.latched && Beside(s) && Enabled(c, w, s)
    ensures Next(c, w, s).watch.latched && Next(c, w, s).passes <= w.passes
  {
    hide Transition, Report, Controlled;
    if s.ProcessFault? {
      ReportRecords(w.watch, s.message, s.sink);
    } else if s.Tick? {
      ControlledRecords(w.watch, s.sink);
    }
  }

  lemma AckedLatch(c: Config, v: World, g: Flush, noting: Fault, l: Leave)
    requires v.levels != [] && !g.dirty
    ensures v.watch.latched ==> Acked(c, v, g, noting, l).watch.latched
    ensures Acked(c, v, g, noting, l).passes == v.passes
  {
    hide Listing, Taken;
  }

  /** The commit is possible; and a witness for a token of another transaction leaves that one never committed. */
  lemma StaleCommit(c: Config, v: World, g: Flush, noting: Fault, l: Leave, t: Token)
    requires Sound(c, v) && |v.levels| == 1 && Alive(v) && !g.dirty && noting.Fine? && FreshFlush(v, g)
    requires v.watch.obs.token == Some(t) && t in v.watch.fence.attempts && v.watch.fence.attempts[t].fate == Outstanding
    requires !Taken(v.durable, t) && !Taken(v.limbo, t) && t in v.admitted && v.admitted[t] != v.levels[0].id
    requires v.admitted[t] !in v.durable && v.admitted[t] !in v.limbo
    ensures Enabled(c, v, Commit(g, noting, Acknowledged, l))
    ensures var txn, after := CommittedTxn(c, v, g, noting, l), Acked(c, v, g, noting, l);
      txn.note.Some? ==>
        && NeverCommitted(after, t)
        && (Acceptable(c, txn.note.value) ==> (CanBecomeCommitted(c, after, t) <==> !ShutOut(after)))
  {
    hide CoreOk, Mirrors, Listing, ById, Sound, Taken, FreshFlush, Committing, Acceptable, Acked, CanBecomeCommitted;
    CleanFlush(c, v, g, noting);
    var step := Commit(g, noting, Acknowledged, l);
    assert Enabled(c, v, step);
    StepKeepsSound(c, v, step);
    var after := Acked(c, v, g, noting, l);
    assert Sound(c, after) by { AckedIsNext(c, v, g, noting, l); }
    AckedKeepsJournal(c, v, g, noting, l);
    if CommittedTxn(c, v, g, noting, l).note.Some? && Acceptable(c, CommittedTxn(c, v, g, noting, l).note.value) {
      WitnessRecovers(c, after, v.levels[0].id, t);
    }
  }

  lemma AckedIsNext(c: Config, v: World, g: Flush, noting: Fault, l: Leave)
    requires v.levels != [] && Enabled(c, v, Commit(g, noting, Acknowledged, l))
    ensures Acked(c, v, g, noting, l) == Next(c, v, Commit(g, noting, Acknowledged, l))
  {
    hide Committing;
  }

  lemma CleanFlush(c: Config, v: World, g: Flush, noting: Fault)
    requires v.levels != [] && !g.dirty
    ensures Inserted(c, Starting(v), g) == Starting(v)
    ensures Outgoing(c, v, g, noting).note.Some? ==> Some(Outgoing(c, v, g, noting).note.value.token) == v.watch.obs.token
  {
    hide Listing, Taken;
  }

  lemma AckedKeepsJournal(c: Config, v: World, g: Flush, noting: Fault, l: Leave)
    requires v.levels != [] && !g.dirty && noting.Fine?
    ensures var txn, after := CommittedTxn(c, v, g, noting, l), Acked(c, v, g, noting, l);
      && (txn.note.Some? ==> Some(txn.note.value.token) == v.watch.obs.token && after.watch.fence.archive.None?)
      && after.watch.fence.attempts == v.watch.fence.attempts && after.admitted == v.admitted && after.limbo == v.limbo
      && after.levels == [] && after.durable == v.durable[v.levels[0].id := txn]
  {
    hide Listing, Taken;
  }

  /** A durable witness of an outstanding attempt, acceptable to the journal: recovered unless all are shut out. */
  lemma WitnessRecovers(c: Config, w: World, id: int, t: Token)
    requires Sound(c, w) && id in w.durable && w.durable[id].note.Some? && w.durable[id].note.value.token == t
    requires t in w.admitted && t in w.watch.fence.attempts && w.watch.fence.attempts[t].fate == Outstanding
    requires w.watch.fence.archive.None? && Acceptable(c, w.durable[id].note.value)
    ensures CanBecomeCommitted(c, w, t) <==> !ShutOut(w)
  {
    hide CoreOk, Mirrors, Sound, Acceptable;
    if ShutOut(w) {
      forall steps: seq<Step> | EndsCommitted(c, w, steps, t)
        ensures false
      {
        DenialIsFinal(c, w, steps, t);
      }
    } else if w.passes != {} {
      var pass := Member(w.passes);
      RecoveryCommits(c, w, pass, id, t);
    } else {
      var open := Next(c, w, OpenPass(0));
      PassesAside(c, w, open);
      RecoveryCommits(c, open, 0, id, t);
      var steps := [OpenPass(0), Recover(0, id, 0, Sink(false, false))];
      assert steps[1..] == [Recover(0, id, 0, Sink(false, false))];
      assert EndsCommitted(c, w, steps, t);
    }
  }

  lemma RecoveryCommits(c: Config, w: World, pass: int, id: int, t: Token)
    requires Sound(c, w) && pass in w.passes && id in w.durable && w.durable[id].note.Some?
    requires w.durable[id].note.value.token == t && t in w.admitted && t in w.watch.fence.attempts
    requires w.watch.fence.attempts[t].fate == Outstanding && w.watch.fence.archive.None?
    requires Acceptable(c, w.durable[id].note.value)
    ensures EndsCommitted(c, w, [Recover(pass, id, 0, Sink(false, false))], t)
  {
    hide CoreOk, Mirrors, Sound, Recovered, DistinctFacts, BeforeEnd;
    var sink := Sink(false, false);
    var step := Recover(pass, id, 0, sink);
    assert Enabled(c, w, step);
    VisibleWitnessResolves(c, w, pass, id, 0, sink);
    RecoveredRows(c, w.watch, 0, w.durable[id].note.value, sink);
    var n := Next(c, w, step);
    assert n.admitted == w.admitted && t in n.watch.fence.attempts;
    assert n.watch.fence.attempts[t].fate == WasCommitted;
    assert [step][1..] == [];
    assert Possible(c, n, []);
    assert Possible(c, w, [step]);
    assert Run(c, w, [step]) == Run(c, n, []) == n;
  }
}
