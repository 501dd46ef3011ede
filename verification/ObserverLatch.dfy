/**
 The denial latch.  Every contained failure stores it, and a controller opens the journal for recovery
 only where there is none.  So a witness sent out of step is not recovered - unless the recovery was
 open before the failure, or the latch was lost.
 */
module ObserverLatch {
  import opened Wrappers
  import opened Fence
  import opened Observer
  import opened ObserverRuns
  import opened ObserverSafety
  import opened ObserverFate
  import P = FenceProcess

  /** A failure is on record: by the latch, or by nothing but the loss of it. */
  predicate Told(w: Watch) {
    w.latched || w.lost
  }

  /** No row goes, and every committed row was there before. */
  ghost predicate RowsKept(s: State, s': State) {
    s.attempts.Keys <= s'.attempts.Keys &&
    forall t :: t in s'.attempts && s'.attempts[t].fate == WasCommitted ==> t in s.attempts && s.attempts[t] == s'.attempts[t]
  }

  /** What any callback may do: records grow, and no row becomes COMMITTED. */
  ghost predicate Moves(w: Watch, w': Watch) {
    (w.latched ==> w'.latched) && (w.lost ==> w'.lost) && RowsKept(w.fence, w'.fence) && Silent(w') == Silent(w)
  }

  // ---------- one callback ----------

  lemma BeforeMoves(c: Config, w: Watch, f: Flush)
    ensures var w' := BeforeFlush(c, w, f.facts, f.token, f.now, f.before);
      Moves(w, w') && (FlushUnseen(c, w, f.facts, f.token, f.now, f.before) ==> Told(w'))
  {
    hide Transition;
    var e := Ev(c, f.now, Attempt(f.token, c.worker, w.fence.epoch, None));
    if Transition(w.fence, e, c.binding, c.authority).Ok? {
      AttemptRowAdded(w.fence, e, c.binding, c.authority);
    }
  }

  lemma AfterMoves(w: Watch, nested: Option<int>, fault: Fault, reach: nat, half: bool)
    ensures var w' := AfterFlush(w, nested, fault, reach, half);
      Moves(w, w') && (w.obs.candidates != [] && Fails(w, fault) ==> Told(w'))
  {
    hide ById, OwnersOf, Stored, Reached;
  }

  lemma NestedMoves(w: Watch, previous: int, fault: Fault)
    ensures var w' := AfterNestedRollback(w, previous, fault); Moves(w, w') && (Fails(w, fault) ==> Told(w'))
  {
  }

  lemma ReleaseMoves(w: Watch, child: int, parent: int, fault: Fault)
    ensures var w' := AfterRelease(w, child, parent, fault); Moves(w, w') && (Fails(w, fault) ==> Told(w'))
  {
  }

  lemma WitnessMoves(w: Watch, fault: Fault)
    ensures Moves(w, AfterWitness(w, fault))
  {
  }

  lemma EndMoves(w: Watch, fault: Fault)
    ensures var w' := AfterRootEnd(w, fault); Moves(w, w') && (!Silent(w) && !EndRuns(w, fault) ==> Told(w'))
  {
  }

  lemma SoftMoves(c: Config, w: Watch, now: int, fault: Fault)
    ensures var w' := AfterRootRollback(c, w, now, fault);
      Moves(w, w') && (!Silent(w) && !SoftRuns(c, w, now, fault) ==> Told(w'))
  {
    hide Transition;
    if Resolving(w.obs).Some? {
      var e := Ev(c, now, RolledBack(Resolving(w.obs).value));
      if Transition(w.fence, e, c.binding, c.authority).Ok? {
        RowRolledBack(w.fence, e, c.binding, c.authority);
      }
    }
  }

  lemma LeftMoves(c: Config, w: Watch, l: Leave)
    ensures var w' := Left(c, w, l); Moves(w, w') && (!Silent(w) && !Cleared(c, w, l) ==> Told(w'))
  {
    hide AfterRootEnd, AfterRootRollback, EndRuns, SoftRuns, Silent;
    match l.how
    case EndThenSoft =>
      EndMoves(w, l.end);
      SoftMoves(c, AfterRootEnd(w, l.end), l.now, l.soft);
    case SoftThenEnd =>
      SoftMoves(c, w, l.now, l.soft);
      EndMoves(AfterRootRollback(c, w, l.now, l.soft), l.end);
    case EndOnly => EndMoves(w, l.end);
  }

  // ---------- the invariant ----------

  /** A durable transaction carries this witness, sent in step - or read late, or the latch was lost. */
  ghost predicate Traced(w: World, note: Witness) {
    exists x :: x in w.durable && w.durable[x].note == Some(note) && Excused(w, x)
  }

  ghost predicate Excused(w: World, x: int)
    requires x in w.durable
  {
    w.durable[x].tracked || x in w.late || w.watch.lost
  }

  ghost predicate NotesTold(w: World) {
    && (forall id :: id in w.durable && w.durable[id].note.Some? && !w.durable[id].tracked ==> Told(w.watch))
    && (forall id :: id in w.limbo && w.limbo[id].note.Some? && !w.limbo[id].tracked ==> Told(w.watch))
  }

  ghost predicate RowsTraced(w: World) {
    forall t :: t in w.admitted && t in w.watch.fence.attempts && w.watch.fence.attempts[t].fate == WasCommitted ==>
      w.watch.fence.attempts[t].evidence.Some? && Traced(w, w.watch.fence.attempts[t].evidence.value)
  }

  ghost predicate Latches(w: World) {
    (w.missed ==> Told(w.watch) || Silent(w.watch)) && NotesTold(w) && RowsTraced(w)
  }

  lemma TracedStays(w: World, w': World, note: Witness)
    requires Traced(w, note) && w.late <= w'.late && (w.watch.lost ==> w'.watch.lost)
    requires forall x :: x in w.durable ==> x in w'.durable && w'.durable[x] == w.durable[x]
    ensures Traced(w', note)
  {
    var x :| x in w.durable && w.durable[x].note == Some(note) && Excused(w, x);
    assert w'.durable[x].note == Some(note) && Excused(w', x);
  }

  /** No row became COMMITTED, and what was durable still is. */
  lemma RowsStayTraced(w: World, w': World)
    requires RowsTraced(w) && RowsKept(w.watch.fence, w'.watch.fence)
    requires forall t :: t in w'.admitted && t in w.watch.fence.attempts ==> t in w.admitted
    requires w.late <= w'.late && (w.watch.lost ==> w'.watch.lost)
    requires forall x :: x in w.durable ==> x in w'.durable && w'.durable[x] == w.durable[x]
    ensures RowsTraced(w')
  {
    hide Traced;
    forall t | t in w'.admitted && t in w'.watch.fence.attempts && w'.watch.fence.attempts[t].fate == WasCommitted
      ensures w'.watch.fence.attempts[t].evidence.Some? && Traced(w', w'.watch.fence.attempts[t].evidence.value)
    {
      TracedStays(w, w', w.watch.fence.attempts[t].evidence.value);
    }
  }

  // ---------- flushes ----------

  /** The transactions and the history of recovery are as they were. */
  ghost predicate SameStore(w: World, w': World) {
    w'.durable == w.durable && w'.limbo == w.limbo && w'.late == w.late
  }

  lemma StoreAside(w: World, w': World)
    requires Latches(w) && SameStore(w, w') && Moves(w.watch, w'.watch)
    requires forall t :: t in w'.admitted && t in w.watch.fence.attempts ==> t in w.admitted
    requires w'.missed ==> w.missed || Told(w'.watch) || Silent(w'.watch)
    ensures Latches(w')
  {
    hide Silent, RowsTraced, RowsKept;
    RowsStayTraced(w, w');
  }

  lemma BegunMoves(c: Config, w: World, f: Flush)
    requires w.levels != [] && FreshFlush(w, f)
    ensures var b := Begun(c, w, f);
      && Moves(w.watch, b.watch) && SameStore(w, b)
      && (forall t :: t in b.admitted && t in w.watch.fence.attempts ==> t in w.admitted)
      && (FlushUnseen(c, w.watch, f.facts, f.token, f.now, f.before) ==> Told(b.watch))
  {
    hide BeforeFlush, FlushUnseen, Moves, ById;
    BeforeMoves(c, w.watch, f);
    FlushAside(c, w.watch, f);
  }

  lemma InsertLatches(c: Config, w: World, f: Flush)
    requires Latches(w) && w.levels != [] && FreshFlush(w, f)
    ensures Latches(Inserted(c, w, f))
  {
    hide BeforeFlush, FlushUnseen, AfterFlush, Latches, FreshFlush, RowsKept;
    if f.dirty {
      var b, i := Begun(c, w, f), Inserted(c, w, f);
      BegunMoves(c, w, f);
      AfterMoves(b.watch, NestedId(w.levels), f.after, f.reach, f.half);
      assert Moves(w.watch, i.watch) by { MovesOn(w.watch, b.watch, i.watch); }
      StoreAside(w, i);
    }
  }

  lemma MovesOn(w: Watch, w1: Watch, w2: Watch)
    requires Moves(w, w1) && Moves(w1, w2)
    ensures Moves(w, w2)
  {
    hide Silent;
  }

  lemma InsertFailsLatches(c: Config, w: World, f: Flush, sub: int, soft: Fault)
    requires Latches(w) && w.levels != [] && FreshFlush(w, f)
    ensures Latches(InsertFailed(c, w, f, sub, soft))
  {
    hide BeforeFlush, AfterNestedRollback, Latches, FreshFlush, RowsKept;
    var b, i := Begun(c, w, f), InsertFailed(c, w, f, sub, soft);
    BegunMoves(c, w, f);
    NestedMoves(b.watch, sub, soft);
    assert Moves(w.watch, i.watch) by { MovesOn(w.watch, b.watch, i.watch); }
    StoreAside(w, i);
  }

  // ---------- commit ----------

  /** The transaction as sent: out of step, it carries a witness only if a failure is on record. */
  lemma OutgoingTold(c: Config, w: World, f: Flush, noting: Fault)
    requires Latches(w) && w.levels != [] && FreshFlush(w, f)
    ensures var b, txn := Sending(c, w, f, noting), Outgoing(c, w, f, noting);
      && Latches(b) && SameStore(w, b) && (txn.note.Some? && !txn.tracked ==> Told(b.watch))
  {
    hide Inserted, AfterWitness, Listing, Taken, FreshFlush, RowsTraced, Moves;
    StartingLatches(w);
    var i := Inserted(c, Starting(w), f);
    assert FreshFlush(Starting(w), f) by { StillFresh(w, f); }
    InsertLatches(c, Starting(w), f);
    FlushKeepsFlag(c, Starting(w), f);
    LateAside(c, Starting(w), f);
    var fault := Noting(c, i, noting);
    WitnessMoves(i.watch, fault);
    var b := Sending(c, w, f, noting);
    assert Latches(b) by { StoreAside(i, b); }
    assert Moves(i.watch, b.watch);
    ToldStays(i.watch, b.watch);
  }

  lemma StillFresh(w: World, f: Flush)
    requires FreshFlush(w, f)
    ensures FreshFlush(Starting(w), f)
  {
  }

  lemma ToldStays(w: Watch, w': Watch)
    requires Moves(w, w')
    ensures Told(w) ==> Told(w')
  {
  }

  lemma LateAside(c: Config, w: World, f: Flush)
    requires w.levels != []
    ensures Inserted(c, w, f).late == w.late && Inserted(c, w, f).passes == w.passes
  {
    hide BeforeFlush, AfterFlush, ById;
  }

  lemma StartingLatches(w: World)
    requires Latches(w)
    ensures Latches(Starting(w)) && SameStore(w, Starting(w))
  {
    hide RowsTraced;
    assert Moves(w.watch, Starting(w).watch);
    StoreAside(w, Starting(w));
  }

  lemma CommitLatches(c: Config, w: World, f: Flush, noting: Fault, reply: Reply, l: Leave)
    requires Latches(w) && w.levels != [] && FreshFlush(w, f)
    requires w.levels[0].id !in w.durable
    ensures Latches(Committing(c, w, f, noting, reply, l))
  {
    hide Sending, Outgoing, AfterRootEnd, Left, Cleared, EndRuns, FreshFlush, Latches, Moves;
    OutgoingTold(c, w, f, noting);
    var b, txn, id := Sending(c, w, f, noting), Outgoing(c, w, f, noting), w.levels[0].id;
    match reply
    case Acknowledged =>
      assert Latches(b.(levels := [], durable := w.durable[id := txn])) by { SentLatches(b, b.(levels := [], durable := w.durable[id := txn]), id, txn); }
      EndMoves(b.watch, l.end);
      GoneLatches(b.(levels := [], durable := w.durable[id := txn]), Committing(c, w, f, noting, reply, l), EndRuns(b.watch, l.end));
    case ReplyLost =>
      assert Latches(b.(levels := [], limbo := w.limbo[id := txn])) by { SentLatches(b, b.(levels := [], limbo := w.limbo[id := txn]), id, txn); }
      LeftMoves(c, b.watch, l);
      GoneLatches(b.(levels := [], limbo := w.limbo[id := txn]), Committing(c, w, f, noting, reply, l), Cleared(c, b.watch, l));
    case Refused =>
      assert Latches(b.(levels := [])) by { SentLatches(b, b.(levels := []), id, txn); }
      LeftMoves(c, b.watch, l);
      GoneLatches(b.(levels := []), Committing(c, w, f, noting, reply, l), Cleared(c, b.watch, l));
  }

  /** One transaction more, or none. */
  lemma SentLatches(b: World, b': World, id: int, txn: Txn)
    requires Latches(b) && b' == b.(levels := [], durable := b'.durable, limbo := b'.limbo)
    requires b'.durable == b.durable || (b'.durable == b.durable[id := txn] && id !in b.durable)
    requires b'.limbo == b.limbo || b'.limbo == b.limbo[id := txn]
    requires txn.note.Some? && !txn.tracked ==> Told(b.watch)
    ensures Latches(b')
  {
    hide RowsTraced;
    RowsStayTraced(b, b');
  }

  /** The outer callbacks after it. */
  lemma GoneLatches(b: World, b': World, cleared: bool)
    requires Latches(b) && b' == b.(watch := b'.watch, missed := StillOut(b.missed, b.watch, cleared))
    requires Moves(b.watch, b'.watch) && (!Silent(b.watch) && !cleared ==> Told(b'.watch))
    ensures Latches(b')
  {
    hide RowsTraced, RowsKept;
    StoreAside(b, b');
  }

  // ---------- recovery ----------

  lemma RecoverLatches(c: Config, w: World, pass: int, id: int, now: int, sink: Sink)
    requires Latches(w) && Enabled(c, w, Recover(pass, id, now, sink))
    ensures Latches(Next(c, w, Recover(pass, id, now, sink)))
  {
    hide Recovered, Traced, Latches;
    var note, w' := w.durable[id].note.value, Next(c, w, Recover(pass, id, now, sink));
    RecoveredRows(c, w.watch, now, note, sink);
    assert Excused(w', id) by { ReadIsExcused(w, w', id); }
    assert Traced(w', note) by { HereTraced(w', id); }
    assert RowsTraced(w') by { RecoveredTraced(w, w', note); }
    RecoveredTold(w, w');
  }

  /** Read before the latch, the witness is in step; read after it, it is on the list. */
  lemma ReadIsExcused(w: World, w': World, id: int)
    requires Latches(w) && id in w.durable && w.durable[id].note.Some?
    requires w'.durable == w.durable && w'.watch.lost == w.watch.lost
    requires w'.late == if w.watch.latched then w.late + {id} else w.late
    ensures Excused(w', id)
  {
    hide RowsTraced;
  }

  lemma HereTraced(w: World, x: int)
    requires x in w.durable && w.durable[x].note.Some? && Excused(w, x)
    ensures Traced(w, w.durable[x].note.value)
  {
  }

  lemma RecoveredTraced(w: World, w': World, note: Witness)
    requires Latches(w) && Traced(w', note) && w'.admitted == w.admitted && w'.durable == w.durable
    requires w.late <= w'.late && w'.watch.lost == w.watch.lost && note.token in w.watch.fence.attempts
    requires var rows := w.watch.fence.attempts;
      w'.watch.fence.attempts == rows
      || w'.watch.fence.attempts == rows[note.token := rows[note.token].(fate := WasCommitted, evidence := Some(note))]
    ensures RowsTraced(w')
  {
    hide Traced, NotesTold;
    forall t | t in w'.admitted && t in w'.watch.fence.attempts && w'.watch.fence.attempts[t].fate == WasCommitted
      ensures w'.watch.fence.attempts[t].evidence.Some? && Traced(w', w'.watch.fence.attempts[t].evidence.value)
    {
      if t != note.token || w'.watch.fence.attempts == w.watch.fence.attempts {
        TracedStays(w, w', w.watch.fence.attempts[t].evidence.value);
      }
    }
  }

  lemma RecoveredTold(w: World, w': World)
    requires Latches(w) && RowsTraced(w')
    requires w' == w.(watch := w'.watch, late := w'.late) && Silent(w'.watch) == Silent(w.watch)
    requires w'.watch.lost == w.watch.lost && (w.watch.latched ==> w'.watch.latched)
    ensures Latches(w')
  {
    hide RowsTraced, Silent;
  }

  // ---------- every step ----------

  lemma LandLatches(w: World, id: int)
    requires Latches(w) && id in w.limbo && id !in w.durable
    ensures Latches(w.(durable := w.durable[id := w.limbo[id]], limbo := w.limbo - {id}))
    ensures Latches(w.(limbo := w.limbo - {id}))
  {
    hide RowsTraced;
    RowsStayTraced(w, w.(durable := w.durable[id := w.limbo[id]], limbo := w.limbo - {id}));
    RowsStayTraced(w, w.(limbo := w.limbo - {id}));
  }

  /** Events of other processes resolve none of this observer's tokens. */
  lemma ElsewhereLatches(c: Config, w: World, e: Event)
    requires Latches(w) && Enabled(c, w, Elsewhere(e))
    ensures Latches(Next(c, w, Elsewhere(e)))
  {
    hide Transition, Traced;
    var w' := Next(c, w, Elsewhere(e));
    P.OtherRowsStay(w.watch.fence, e, c.binding, c.authority);
    forall t | t in w'.admitted && t in w'.watch.fence.attempts && w'.watch.fence.attempts[t].fate == WasCommitted
      ensures w'.watch.fence.attempts[t].evidence.Some? && Traced(w', w'.watch.fence.attempts[t].evidence.value)
    {
      TracedStays(w, w', w.watch.fence.attempts[t].evidence.value);
    }
    SilentStays(w.watch, e, c);
  }

  lemma SilentStays(w: Watch, e: Event, c: Config)
    requires Transition(w.fence, e, c.binding, c.authority).Ok?
    ensures Silent(w) ==> Silent(w.(fence := Transition(w.fence, e, c.binding, c.authority).value))
  {
  }

  /** Reports, retirement, a new process. */
  lemma RecordsLatches(w: World, w': World)
    requires Latches(w) && SameStore(w, w') && w'.admitted == w.admitted
    requires w'.watch.fence == w.watch.fence.(error := w'.watch.fence.error)
    requires (w.watch.latched ==> w'.watch.latched) && (w.watch.lost ==> w'.watch.lost)
    requires w'.missed ==> w.missed && (Silent(w.watch) ==> Silent(w'.watch))
    ensures Latches(w')
  {
    hide RowsTraced, Silent;
    RowsStayTraced(w, w');
  }

  lemma ReportRecords(w: Watch, message: string, sink: Sink)
    ensures OnlyRecords(w, Report(w, message, sink))
    ensures var w' := Report(w, message, sink); (w.latched ==> w'.latched) && (w.lost ==> w'.lost)
  {
  }

  lemma ControlledRecords(w: Watch, sink: Sink)
    ensures OnlyRecords(w, Controlled(w, sink))
    ensures var w' := Controlled(w, sink); (w.latched ==> w'.latched) && (w.lost ==> w'.lost)
  {
  }

  lemma InstalledRecords(w: Watch, sink: Sink)
    ensures var w' := Installed(w, sink);
      w'.fence == w.fence.(error := w'.fence.error) && (w.latched ==> w'.latched) && (w.lost ==> w'.lost)
  {
  }

  lemma StepLatches(c: Config, w: World, s: Step)
    requires Sound(c, w) && Latches(w) && Enabled(c, w, s)
    ensures Latches(Next(c, w, s))
  {
    hide Sound, Latches, Transition, Inserted, InsertFailed, Committing, Left, Cleared, AfterRelease, AfterNestedRollback, Recovered,
         Merged, ById, Waits, Report, Controlled, Installed, FreshFlush, Silent, RowsKept;
    var w' := Next(c, w, s);
    match s
    case Insert(f) => InsertLatches(c, w, f);
    case InsertFails(f, sub, soft) => InsertFailsLatches(c, w, f, sub, soft);
    case Release(fault) =>
      ReleaseMoves(w.watch, Top(w.levels).id, w.levels[|w.levels| - 2].id, fault);
      StoreAside(w, w');
    case RollbackTo(fault) =>
      NestedMoves(w.watch, Top(w.levels).id, fault);
      StoreAside(w, w');
    case Abandon(l) =>
      LeftMoves(c, w.watch, l);
      AbandonLatches(c, w, l);
    case Commit(f, noting, reply, l) =>
      NotSentYet(c, w);
      CommitLatches(c, w, f, noting, reply, l);
    case CommitFlushFails(f, sub, soft) =>
      StartingLatches(w);
      StillFresh(w, f);
      InsertFailsLatches(c, Starting(w), f, sub, soft);
    case LandLate(id) =>
      NotSentYet(c, w);
      LandLatches(w, id);
    case DropLate(id) =>
      NotSentYet(c, w);
      LandLatches(w, id);
    case Recover(pass, id, now, sink) => RecoverLatches(c, w, pass, id, now, sink);
    case Elsewhere(e) => ElsewhereLatches(c, w, e);
    case _ => RecordsOnlyLatches(c, w, s);
  }

  /** Steps that touch neither rows nor transactions sent. */
  lemma RecordsOnlyLatches(c: Config, w: World, s: Step)
    requires Latches(w) && Enabled(c, w, s)
    requires s.BeginOuter? || s.Savepoint? || s.Crash? || s.OpenPass? || s.ClosePass? || s.DeniedElsewhere? || s.ProcessFault?
             || s.Tick? || s.Retire?
    ensures Latches(Next(c, w, s))
  {
    hide Latches, Report, Controlled, Installed;
    var w' := Next(c, w, s);
    if s.Crash? {
      InstalledRecords(w.watch, s.sink);
    } else if s.ProcessFault? {
      ReportRecords(w.watch, s.message, s.sink);
    } else if s.Tick? {
      ControlledRecords(w.watch, s.sink);
    }
    RecordsLatches(w, w');
  }

  lemma AbandonLatches(c: Config, w: World, l: Leave)
    requires Latches(w) && w.levels != []
    ensures Latches(Next(c, w, Abandon(l)))
  {
    hide Left, Cleared, Latches, Silent, Moves;
    LeftMoves(c, w.watch, l);
    var bare := w.(levels := []);
    assert Latches(bare) by { BareLatches(w); }
    GoneLatches(bare, Next(c, w, Abandon(l)), Cleared(c, w.watch, l));
  }

  lemma BareLatches(w: World)
    requires Latches(w)
    ensures Latches(w.(levels := []))
  {
    hide RowsTraced;
    RowsStayTraced(w, w.(levels := []));
  }

  lemma NotSentYet(c: Config, w: World)
    requires Sound(c, w)
    ensures w.levels != [] ==> w.levels[0].id !in w.durable
    ensures w.durable.Keys !! w.limbo.Keys
  {
    hide VerdictsOk, NotesOk, NotesUnique, Tracks, StackOk;
  }

  lemma {:induction false} RunLatches(c: Config, w: World, steps: seq<Step>)
    requires Sound(c, w) && Latches(w) && Possible(c, w, steps)
    ensures Sound(c, Run(c, w, steps)) && Latches(Run(c, w, steps))
    decreases |steps|
  {
    hide Sound, Latches, Enabled, Next;
    if steps != [] {
      StepKeepsSound(c, w, steps[0]);
      StepLatches(c, w, steps[0]);
      RunLatches(c, Next(c, w, steps[0]), steps[1..]);
    }
  }

  // ---------- the verdicts ----------

  /** A durable transaction carries this witness: `id` itself, with exactly these trades - or one excused. */
  ghost predicate Backed(w: World, id: int, note: Witness) {
    exists x :: x in w.durable && w.durable[x].note == Some(note) && Exact(w, x, id, note)
  }

  ghost predicate Exact(w: World, x: int, id: int, note: Witness)
    requires x in w.durable
  {
    (x == id && ById(note.trades) == w.durable[x].rows) || x in w.late || w.watch.lost
  }

  /**
   Fate, over every run without exception.  ROLLED_BACK means the database did not commit the
   transaction and never will.  COMMITTED means the database holds the transaction admitted under the
   token, with the recorded witness and exactly the witnessed rows - unless the witness was read by a
   recovery after the denial latch was stored, which that recovery must have been opened before, or the
   latch of a contained failure was lost.  With the same exceptions, a commit still open, or durable
   without a witness, is outstanding.
   */
  lemma FateNeverMisjudged(c: Config, journal: State, steps: seq<Step>, t: Token)
    requires Possible(c, NewWorld(journal), steps)
    requires var w := Run(c, NewWorld(journal), steps); t in w.admitted && t in w.watch.fence.attempts
    ensures var w := Run(c, NewWorld(journal), steps);
      var row, id := w.watch.fence.attempts[t], w.admitted[t];
      && (row.fate == WasRolledBack ==> id !in w.durable && id !in w.limbo && (w.levels != [] ==> w.levels[0].id != id))
      && (row.fate == WasCommitted ==>
            row.evidence.Some? && row.evidence.value.token == t && Backed(w, id, row.evidence.value))
      && ((id in w.limbo || (id in w.durable && w.durable[id].note.None?)) && w.late == {} && !w.watch.lost ==>
            row.fate == Outstanding)
  {
    hide Possible, Run, Latches, Sound;
    var w := Run(c, NewWorld(journal), steps);
    NewWorldSound(c, journal);
    assert Latches(NewWorld(journal)) by { NewWorldLatches(journal); }
    RunLatches(c, NewWorld(journal), steps);
    VerdictHolds(c, w, t);
  }

  lemma NewWorldLatches(journal: State)
    ensures Latches(NewWorld(journal))
  {
  }

  lemma VerdictHolds(c: Config, w: World, t: Token)
    requires Sound(c, w) && Latches(w) && t in w.admitted && t in w.watch.fence.attempts
    ensures var row, id := w.watch.fence.attempts[t], w.admitted[t];
      && (row.fate == WasRolledBack ==> id !in w.durable && id !in w.limbo && (w.levels != [] ==> w.levels[0].id != id))
      && (row.fate == WasCommitted ==>
            row.evidence.Some? && row.evidence.value.token == t && Backed(w, id, row.evidence.value))
      && ((id in w.limbo || (id in w.durable && w.durable[id].note.None?)) && w.late == {} && !w.watch.lost ==>
            row.fate == Outstanding)
  {
    hide NotesUnique, Tracks, StackOk, NotesTold, NumbersOk, TokensOk;
    var k, row := CoreOf(w), w.watch.fence.attempts[t];
    assert VerdictOk(c, k, t);
    NotSentYet(c, w);
    if row.fate == WasCommitted {
      var note := row.evidence.value;
      var x :| x in w.durable && w.durable[x].note == Some(note) && Excused(w, x);
      assert NoteOk(c, k, x, w.durable[x]);
      assert Exact(w, x, w.admitted[t], note);
    }
  }

  // ---------- denial is final ----------

  /** No recovery is open and none can be opened. */
  predicate ShutOut(w: World) {
    w.watch.latched && w.passes == {}
  }

  /** Nothing is resolved, no token known before is admitted, and the latch stays. */
  ghost predicate Unresolved(w: World, n: World) {
    && Unmoved(w, n)
    && (forall t :: t in n.admitted && t in w.watch.fence.attempts ==> t in w.admitted)
    && (w.watch.latched ==> n.watch.latched)
  }

  /** Without a recovery, a step makes no attempt of this observer COMMITTED, and admits no token known before. */
  lemma StepResolvesNone(c: Config, w: World, s: Step)
    requires Enabled(c, w, s) && !s.Recover?
    ensures Unresolved(w, Next(c, w, s)) && (!s.OpenPass? ==> Next(c, w, s).passes <= w.passes)
  {
    hide Transition, Left, Cleared, Merged, ById, Waits, Report, Controlled, Installed, FreshFlush, Silent, Unresolved,
         AfterRelease, AfterNestedRollback, Inserted, InsertFailed, Committing, RowsKept;
    var n := Next(c, w, s);
    match s
    case Insert(f) =>
      InsertResolvesNone(c, w, f);
      MovedUnresolved(w, n);
    case InsertFails(f, sub, soft) =>
      FailResolvesNone(c, w, f, sub, soft);
      MovedUnresolved(w, n);
    case Release(fault) =>
      ReleaseMoves(w.watch, Top(w.levels).id, w.levels[|w.levels| - 2].id, fault);
      MovedUnresolved(w, n);
    case RollbackTo(fault) =>
      NestedMoves(w.watch, Top(w.levels).id, fault);
      MovedUnresolved(w, n);
    case Abandon(l) =>
      LeftMoves(c, w.watch, l);
      MovedUnresolved(w, n);
    case Commit(f, noting, reply, l) =>
      CommitResolvesNone(c, w, f, noting, reply, l);
      MovedUnresolved(w, n);
    case CommitFlushFails(f, sub, soft) =>
      StillFresh(w, f);
      FailResolvesNone(c, Starting(w), f, sub, soft);
      StartingMoves(w);
      MovesOn(w.watch, Starting(w).watch, n.watch);
      MovedUnresolved(w, n);
    case Elsewhere(e) => ElsewhereResolvesNone(c, w, e);
    case _ => RecordsResolveNone(c, w, s);
  }

  lemma MovedUnresolved(w: World, n: World)
    requires Moves(w.watch, n.watch) && forall t :: t in n.admitted && t in w.watch.fence.attempts ==> t in w.admitted
    ensures Unresolved(w, n)
  {
    hide Silent;
  }

  lemma RecordsResolveNone(c: Config, w: World, s: Step)
    requires Enabled(c, w, s)
    requires s.BeginOuter? || s.Savepoint? || s.LandLate? || s.DropLate? || s.Crash? || s.OpenPass? || s.ClosePass?
             || s.DeniedElsewhere? || s.ProcessFault? || s.Tick? || s.Retire?
    ensures Unresolved(w, Next(c, w, s)) && (!s.OpenPass? ==> Next(c, w, s).passes <= w.passes)
  {
    hide Report, Controlled, Installed;
    if s.Crash? {
      InstalledRecords(w.watch, s.sink);
    } else if s.ProcessFault? {
      ReportRecords(w.watch, s.message, s.sink);
    } else if s.Tick? {
      ControlledRecords(w.watch, s.sink);
    }
  }

  /** No row goes, and a committed row of this observer was there before. */
  ghost predicate Unmoved(w: World, n: World) {
    && w.watch.fence.attempts.Keys <= n.watch.fence.attempts.Keys
    && forall t :: t in n.watch.fence.attempts && t in n.admitted && n.watch.fence.attempts[t].fate == WasCommitted ==>
         t in w.watch.fence.attempts && w.watch.fence.attempts[t] == n.watch.fence.attempts[t]
  }

  lemma InsertResolvesNone(c: Config, w: World, f: Flush)
    requires w.levels != [] && FreshFlush(w, f)
    ensures var n := Inserted(c, w, f);
      && Moves(w.watch, n.watch) && n.passes == w.passes && n.late == w.late
      && (forall t :: t in n.admitted && t in w.watch.fence.attempts ==> t in w.admitted)
  {
    hide BeforeFlush, FlushUnseen, AfterFlush, FreshFlush, RowsKept, Silent;
    if f.dirty {
      var b := Begun(c, w, f);
      BegunMoves(c, w, f);
      AfterMoves(b.watch, NestedId(w.levels), f.after, f.reach, f.half);
      MovesOn(w.watch, b.watch, Inserted(c, w, f).watch);
    } else {
      MovesNowhere(w.watch);
    }
  }

  lemma MovesNowhere(w: Watch)
    ensures Moves(w, w)
  {
  }

  lemma FailResolvesNone(c: Config, w: World, f: Flush, sub: int, soft: Fault)
    requires w.levels != [] && FreshFlush(w, f)
    ensures var n := InsertFailed(c, w, f, sub, soft);
      && Moves(w.watch, n.watch) && n.passes == w.passes && n.late == w.late
      && (forall t :: t in n.admitted && t in w.watch.fence.attempts ==> t in w.admitted)
  {
    hide BeforeFlush, AfterNestedRollback, FreshFlush, RowsKept, Silent;
    var b := Begun(c, w, f);
    BegunMoves(c, w, f);
    NestedMoves(b.watch, sub, soft);
    MovesOn(w.watch, b.watch, InsertFailed(c, w, f, sub, soft).watch);
  }

  lemma CommitResolvesNone(c: Config, w: World, f: Flush, noting: Fault, reply: Reply, l: Leave)
    requires w.levels != [] && FreshFlush(w, f)
    ensures var n := Committing(c, w, f, noting, reply, l);
      && Moves(w.watch, n.watch) && n.passes == w.passes && n.late == w.late
      && (forall t :: t in n.admitted && t in w.watch.fence.attempts ==> t in w.admitted)
  {
    hide Inserted, Left, Cleared, Silent, FreshFlush, AfterWitness, AfterRootEnd, Listing, Taken, RowsKept;
    StillFresh(w, f);
    var i := Inserted(c, Starting(w), f);
    InsertResolvesNone(c, Starting(w), f);
    assert Moves(w.watch, Starting(w).watch) by { StartingMoves(w); }
    MovesOn(w.watch, Starting(w).watch, i.watch);
    WitnessMoves(i.watch, Noting(c, i, noting));
    var b := Sending(c, w, f, noting);
    MovesOn(w.watch, i.watch, b.watch);
    EndMoves(b.watch, l.end);
    MovesOn(w.watch, b.watch, AfterRootEnd(b.watch, l.end));
    LeftMoves(c, b.watch, l);
    MovesOn(w.watch, b.watch, Left(c, b.watch, l));
  }

  lemma StartingMoves(w: World)
    ensures Moves(w.watch, Starting(w).watch)
  {
  }

  lemma ElsewhereResolvesNone(c: Config, w: World, e: Event)
    requires Enabled(c, w, Elsewhere(e))
    ensures Unresolved(w, Next(c, w, Elsewhere(e)))
  {
    hide Transition;
    P.OtherRowsStay(w.watch.fence, e, c.binding, c.authority);
    NoRowGoes(w.watch.fence, e, c.binding, c.authority);
  }

  lemma NoRowGoes(s: State, e: Event, b: Binding, auth: Option<Authority>)
    requires Transition(s, e, b, auth).Ok?
    ensures s.attempts.Keys <= Transition(s, e, b, auth).value.attempts.Keys
  {
    hide DistinctFacts, BeforeEnd, FreezeOk, ReceiptOf;
  }

  /** A token journaled and not admitted here is never admitted here. */
  lemma {:induction false} StrangerStays(c: Config, w: World, steps: seq<Step>, t: Token)
    requires Sound(c, w) && Possible(c, w, steps) && ShutOut(w)
    requires t in w.watch.fence.attempts && t !in w.admitted
    ensures t !in Run(c, w, steps).admitted
    decreases |steps|
  {
    hide Sound, Enabled, Next;
    if steps != [] {
      assert !steps[0].Recover? && !steps[0].OpenPass? by { ShutOutSteps(c, w, steps[0]); }
      StepKeepsSound(c, w, steps[0]);
      StepResolvesNone(c, w, steps[0]);
      StrangerStays(c, Next(c, w, steps[0]), steps[1..], t);
    }
  }

  lemma ShutOutSteps(c: Config, w: World, s: Step)
    requires Enabled(c, w, s) && ShutOut(w)
    ensures !s.Recover? && !s.OpenPass?
  {
  }

  /**
   Once the latch is stored and no recovery is open, no continuation of the run makes any attempt of this
   observer COMMITTED, whatever witnesses it still sends.
   */
  lemma {:induction false} DenialIsFinal(c: Config, w: World, steps: seq<Step>, t: Token)
    requires Sound(c, w) && Possible(c, w, steps) && ShutOut(w)
    requires var v := Run(c, w, steps);
      t in v.admitted && t in v.watch.fence.attempts && v.watch.fence.attempts[t].fate == WasCommitted
    ensures t in w.watch.fence.attempts && w.watch.fence.attempts[t] == Run(c, w, steps).watch.fence.attempts[t]
    decreases |steps|
  {
    hide Sound, Enabled, Next;
    if steps != [] {
      var n := Next(c, w, steps[0]);
      assert !steps[0].Recover? && !steps[0].OpenPass? by { ShutOutSteps(c, w, steps[0]); }
      StepKeepsSound(c, w, steps[0]);
      StepResolvesNone(c, w, steps[0]);
      DenialIsFinal(c, n, steps[1..], t);
      if t !in n.admitted {
        StrangerStays(c, n, steps[1..], t);
      }
    }
  }
}
