/**
 The observer at work: a source database with savepoints, commits whose reply may be lost, crashes,
 recovery from visible witnesses, and whatever other processes write to the journal in between.
 The journal's verdict on a transaction is never wrong.
 */
module ObserverRuns {
  import opened Wrappers
  import opened Fence
  import opened Observer
  import P = FenceProcess

  // ---------- the source database ----------

  /** One open transaction or savepoint; dead after a failed flush, until it is rolled back. */
  datatype Level = Level(id: int, rows: Rows, dead: bool)

  /**
   What COMMIT makes durable at once: the inserted trades, and the witness if one was written.  For the
   record: whether the observer was in step with the transaction when it was sent.
   */
  datatype Txn = Txn(rows: Rows, note: Option<Witness>, tracked: bool)

  function Top(levels: seq<Level>): Level
    requires levels != []
  {
    levels[|levels| - 1]
  }

  function SetTop(levels: seq<Level>, top: Level): seq<Level>
    requires levels != []
  {
    levels[|levels| - 1 := top]
  }

  /** Rows that survive if everything still open commits. */
  function Survivors(levels: seq<Level>): Rows {
    if levels == [] then map[] else Survivors(levels[..|levels| - 1]) + levels[|levels| - 1].rows
  }

  function NestedId(levels: seq<Level>): Option<int> {
    if |levels| > 1 then Some(Top(levels).id) else None
  }

  function Merged(levels: seq<Level>): seq<Level>
    requires |levels| > 1
  {
    var rest := levels[..|levels| - 1];
    SetTop(rest, Top(rest).(rows := Top(rest).rows + Top(levels).rows))
  }

  // ---------- the world ----------

  /**
   `passes` are the recoveries a controller process has under way.  Two fields are history.  `missed`: a
   callback that keeps the books failed since the observer's fields were last cleared, and left them out
   of step.  `late`: the transactions whose witness a recovery read although the denial latch was there.
   */
  datatype World = World(
    watch: Watch, levels: seq<Level>, durable: map<int, Txn>, limbo: map<int, Txn>,
    admitted: map<Token, int>, used: set<int>, missed: bool, passes: set<int>, late: set<int>)

  /**
   One flush: whether the session has anything to write at all, the new trades, a fresh token should
   one be needed, how the callbacks end, how far a failing detach got, and whether it had stored the
   fact it failed on.
   */
  datatype Flush = Flush(
    dirty: bool, facts: seq<Fact>, token: Token, now: int, before: Fault, after: Fault, reach: nat, half: bool)

  /** How COMMIT ends: applied, sent with its reply lost, or refused. */
  datatype Reply = Acknowledged | ReplyLost | Refused

  /** Which outer callbacks run when a transaction goes away, and in which order. */
  datatype Cleanup = EndThenSoft | SoftThenEnd | EndOnly

  datatype Leave = Leave(how: Cleanup, now: int, end: Fault, soft: Fault)

  datatype Step =
    | BeginOuter(id: int)
    | Savepoint(id: int)
    | Insert(f: Flush)
    | InsertFails(f: Flush, sub: int, soft: Fault)
    | Release(fault: Fault)
    | RollbackTo(fault: Fault)
    | Abandon(leave: Leave)
    | Commit(f: Flush, noting: Fault, reply: Reply, leave: Leave)
    | CommitFlushFails(f: Flush, sub: int, soft: Fault)
    | LandLate(id: int)
    | DropLate(id: int)
    | Crash(sink: Sink)
    | OpenPass(pass: int)
    | Recover(pass: int, id: int, now: int, sink: Sink)
    | ClosePass(pass: int)
    | Elsewhere(e: Event)
    | DeniedElsewhere
    | ProcessFault(message: string, sink: Sink)
    | Tick(sink: Sink)
    | Retire

  function Begun(c: Config, w: World, f: Flush): World
    requires w.levels != []
  {
    var watch := BeforeFlush(c, w.watch, f.facts, f.token, f.now, f.before);
    w.(watch := watch,
       admitted := if w.watch.obs.token.None? && watch.obs.token.Some?
                   then w.admitted[watch.obs.token.value := w.levels[0].id] else w.admitted)
  }

  /** A callback that ran and failed. */
  predicate Fails(w: Watch, fault: Fault) {
    !Silent(w) && !fault.Fine?
  }

  function Inserted(c: Config, w: World, f: Flush): World
    requires w.levels != []
  {
    var b := Begun(c, w, f);
    if !f.dirty then w
    else
      b.(levels := SetTop(w.levels, Top(w.levels).(rows := Top(w.levels).rows + ById(f.facts))),
         watch := AfterFlush(b.watch, NestedId(w.levels), f.after, f.reach, f.half),
         missed := w.missed || FlushUnseen(c, w.watch, f.facts, f.token, f.now, f.before)
                   || (b.watch.obs.candidates != [] && Fails(b.watch, f.after)))
  }

  /** The failed rows are gone with their level; only what `after_soft_rollback` leaves can be out of step. */
  function InsertFailed(c: Config, w: World, f: Flush, sub: int, soft: Fault): World
    requires w.levels != []
  {
    var b := Begun(c, w, f);
    b.(levels := SetTop(w.levels, Top(w.levels).(rows := map[], dead := true)),
       watch := AfterNestedRollback(b.watch, sub, soft),
       missed := w.missed || (b.watch.obs.candidates != [] && Fails(b.watch, soft)))
  }

  function Left(c: Config, watch: Watch, l: Leave): Watch {
    match l.how
    case EndThenSoft => AfterRootRollback(c, AfterRootEnd(watch, l.end), l.now, l.soft)
    case SoftThenEnd => AfterRootEnd(AfterRootRollback(c, watch, l.now, l.soft), l.end)
    case EndOnly => AfterRootEnd(watch, l.end)
  }

  /** Some outer callback got to clear the fields. */
  predicate Cleared(c: Config, watch: Watch, l: Leave) {
    match l.how
    case EndThenSoft => EndRuns(watch, l.end) || SoftRuns(c, AfterRootEnd(watch, l.end), l.now, l.soft)
    case SoftThenEnd => SoftRuns(c, watch, l.now, l.soft) || EndRuns(AfterRootRollback(c, watch, l.now, l.soft), l.end)
    case EndOnly => EndRuns(watch, l.end)
  }

  /** Fields that were not cleared are out of step if they still hold a token. */
  predicate StillOut(missed: bool, watch: Watch, cleared: bool) {
    !cleared && (missed || watch.obs.token.Some?)
  }

  function Starting(w: World): World {
    w.(watch := CommitStarts(w.watch))
  }

  /** A witness row for this token is already there. */
  predicate Taken(txns: map<int, Txn>, t: Token) {
    exists id :: id in txns && txns[id].note.Some? && txns[id].note.value.token == t
  }

  /** How inserting the witness ends: the token is the table's primary key. */
  ghost function Noting(c: Config, w: World, noting: Fault): Fault {
    var note := WitnessOf(c, w.watch, noting);
    if note.Some? && Taken(w.durable, note.value.token) then Late(DUPLICATE_WITNESS, noting.sink) else noting
  }

  /** COMMIT up to the database's answer: flag, last flush, witness. */
  ghost function Sending(c: Config, w: World, f: Flush, noting: Fault): World
    requires w.levels != []
  {
    var b := Inserted(c, Starting(w), f);
    b.(watch := AfterWitness(b.watch, Noting(c, b, noting)))
  }

  /** The transaction as it is sent. */
  ghost function Outgoing(c: Config, w: World, f: Flush, noting: Fault): Txn
    requires w.levels != []
  {
    var b := Inserted(c, Starting(w), f);
    Txn(if b.levels == [] then map[] else b.levels[0].rows, WitnessOf(c, b.watch, Noting(c, b, noting)), !b.missed)
  }

  /** COMMIT with the database's answer. */
  ghost function Committing(c: Config, w: World, f: Flush, noting: Fault, reply: Reply, l: Leave): World
    requires w.levels != []
  {
    var b, txn := Sending(c, w, f, noting), Outgoing(c, w, f, noting);
    match reply
    case Acknowledged =>
      b.(levels := [], durable := w.durable[w.levels[0].id := txn], watch := AfterRootEnd(b.watch, l.end),
         missed := StillOut(b.missed, b.watch, EndRuns(b.watch, l.end)))
    case ReplyLost =>
      b.(levels := [], limbo := w.limbo[w.levels[0].id := txn], watch := Left(c, b.watch, l),
         missed := StillOut(b.missed, b.watch, Cleared(c, b.watch, l)))
    case Refused =>
      b.(levels := [], watch := Left(c, b.watch, l), missed := StillOut(b.missed, b.watch, Cleared(c, b.watch, l)))
  }

  /**
   `recover` with the witness of a durable transaction in view.  It runs in a controller process: when it
   raises, the ERROR and the latch may be written, and this process has no record of it.
   */
  function Recovered(c: Config, w: Watch, now: int, note: Witness, sink: Sink): Watch
    requires note.token in w.fence.attempts
  {
    var row := w.fence.attempts[note.token];
    var refused := w.(fence := Journaled(w.fence, REFUSED_EVENT, sink), latched := w.latched || sink.stored);
    if row.fate == Outstanding then
      var r := Transition(w.fence, Ev(c, now, Committed(note.token, note)), c.binding, c.authority);
      if r.Ok? then w.(fence := r.value) else refused
    else if row.evidence == Some(note) then w
    else refused
  }

  /** Fresh token, and record IDs that are nobody's primary key. */
  predicate FreshFlush(w: World, f: Flush) {
    && f.token !in w.admitted && f.token !in w.watch.fence.attempts
    && (forall i, j :: 0 <= i < j < |f.facts| ==> f.facts[i].recordId != f.facts[j].recordId)
    && forall i :: 0 <= i < |w.levels| ==> ById(f.facts).Keys !! w.levels[i].rows.Keys
  }

  /** A witness for the same token is in an unsettled transaction: the INSERT waits for it. */
  ghost predicate Waits(c: Config, w: World, f: Flush, noting: Fault)
    requires w.levels != []
  {
    var note := Outgoing(c, w, f, noting).note;
    note.Some? && Taken(w.limbo, note.value.token)
  }

  predicate Alive(w: World) {
    w.levels != [] && !Top(w.levels).dead
  }

  /**
   Numbers and tokens are fresh, savepoints nest, a dead transaction can only be rolled back, and a
   controller opens the journal only where no denial latch is.
   */
  ghost predicate Enabled(c: Config, w: World, s: Step) {
    match s
    case BeginOuter(id) => w.levels == [] && id !in w.used
    case Savepoint(id) => Alive(w) && id !in w.used
    case Insert(f) => Alive(w) && FreshFlush(w, f)
    case InsertFails(f, sub, _) => Alive(w) && FreshFlush(w, f) && sub !in w.used
    case Release(_) => Alive(w) && |w.levels| > 1
    case RollbackTo(_) => |w.levels| > 1
    case Abandon(_) => w.levels != []
    case Commit(f, noting, _, _) => Alive(w) && |w.levels| == 1 && FreshFlush(w, f) && !Waits(c, w, f, noting)
    case CommitFlushFails(f, sub, _) => Alive(w) && |w.levels| == 1 && FreshFlush(w, f) && sub !in w.used
    case LandLate(id) => id in w.limbo
    case DropLate(id) => id in w.limbo
    case Crash(_) => true
    case OpenPass(pass) => pass !in w.passes && !w.watch.latched
    case Recover(pass, id, _, _) =>
      && pass in w.passes
      && id in w.durable && w.durable[id].note.Some? && w.watch.fence.archive.None?
      && w.durable[id].note.value.token in w.watch.fence.attempts
    case Elsewhere(e) =>
      && w.watch.fence.archive.None? && Transition(w.watch.fence, e, c.binding, c.authority).Ok?
      && (P.Touched(e).Some? ==> P.Touched(e).value !in w.admitted)
    case ClosePass(_) => true
    case DeniedElsewhere => true
    case ProcessFault(_, _) => true
    case Tick(_) => true
    case Retire => true
  }

  ghost function Next(c: Config, w: World, s: Step): World
    requires Enabled(c, w, s)
  {
    match s
    case BeginOuter(id) => w.(levels := [Level(id, map[], false)], used := w.used + {id})
    case Savepoint(id) => w.(levels := w.levels + [Level(id, map[], false)], used := w.used + {id})
    case Insert(f) => Inserted(c, w, f)
    case InsertFails(f, sub, soft) => InsertFailed(c, w, f, sub, soft)
    case Release(fault) =>
      w.(levels := Merged(w.levels),
         watch := AfterRelease(w.watch, Top(w.levels).id, w.levels[|w.levels| - 2].id, fault),
         missed := w.missed || Fails(w.watch, fault))
    case RollbackTo(fault) =>
      w.(levels := w.levels[..|w.levels| - 1], watch := AfterNestedRollback(w.watch, Top(w.levels).id, fault),
         missed := w.missed || Fails(w.watch, fault))
    case Abandon(l) =>
      w.(levels := [], watch := Left(c, w.watch, l), missed := StillOut(w.missed, w.watch, Cleared(c, w.watch, l)))
    case Commit(f, noting, reply, l) => Committing(c, w, f, noting, reply, l)
    case CommitFlushFails(f, sub, soft) => InsertFailed(c, Starting(w), f, sub, soft)
    case LandLate(id) => w.(durable := w.durable[id := w.limbo[id]], limbo := w.limbo - {id})
    case DropLate(id) => w.(limbo := w.limbo - {id})
    case Crash(sink) => w.(levels := [], watch := Installed(w.watch, sink), missed := false)
    case OpenPass(pass) => w.(passes := w.passes + {pass})
    case Recover(_, id, now, sink) =>
      w.(watch := Recovered(c, w.watch, now, w.durable[id].note.value, sink),
         late := if w.watch.latched then w.late + {id} else w.late)
    case ClosePass(pass) => w.(passes := w.passes - {pass})
    case Elsewhere(e) => w.(watch := w.watch.(fence := Transition(w.watch.fence, e, c.binding, c.authority).value))
    case DeniedElsewhere => w.(watch := w.watch.(latched := true))
    case ProcessFault(message, sink) => w.(watch := Report(w.watch, message, sink))
    case Tick(sink) => w.(watch := Controlled(w.watch, sink))
    case Retire => w.(watch := w.watch.(retired := true))
  }

  /** A step whose contained failures, if any, say something. */
  predicate Loud(s: Step) {
    match s
    case Insert(f) => LoudFlush(f)
    case InsertFails(f, _, soft) => LoudFlush(f) && LoudFault(soft)
    case Release(fault) => LoudFault(fault)
    case RollbackTo(fault) => LoudFault(fault)
    case Abandon(l) => LoudFault(l.end) && LoudFault(l.soft)
    case Commit(f, noting, _, l) => LoudFlush(f) && LoudFault(noting) && LoudFault(l.end) && LoudFault(l.soft)
    case CommitFlushFails(f, _, soft) => LoudFlush(f) && LoudFault(soft)
    case ProcessFault(message, _) => message != ""
    case _ => true
  }

  predicate LoudFault(f: Fault) {
    f.Fine? || f.message != ""
  }

  predicate LoudFlush(f: Flush) {
    LoudFault(f.before) && LoudFault(f.after)
  }

  // ---------- the invariant: the observer mirrors the savepoint stack ----------

  predicate OwnedBy(owner: Option<int>, id: int, root: bool) {
    owner == Some(id) || (root && owner == None)
  }

  /** A live level's rows are exactly the facts the observer says it owns. */
  ghost predicate LevelOk(o: Obs, l: Level, root: bool) {
    l.dead || forall k ::
      && (k in l.rows <==> k in o.trades && k in o.owners && OwnedBy(o.owners[k], l.id, root))
      && (k in l.rows ==> l.rows[k] == o.trades[k])
  }

  /** The level an owner names. */
  ghost predicate Placed(levels: seq<Level>, owner: Option<int>) {
    exists i :: 0 <= i < |levels| && OwnedBy(owner, levels[i].id, i == 0)
  }

  ghost predicate KeysOk(o: Obs, levels: seq<Level>) {
    && o.trades.Keys == o.owners.Keys && WellKeyed(o.trades)
    && (forall k :: k in o.owners ==> Placed(levels, o.owners[k]))
  }

  ghost predicate LevelsOk(o: Obs, levels: seq<Level>) {
    forall i :: 0 <= i < |levels| ==> LevelOk(o, levels[i], i == 0)
  }

  ghost predicate Mirrors(o: Obs, levels: seq<Level>) {
    KeysOk(o, levels) && LevelsOk(o, levels)
  }

  ghost predicate StackOk(levels: seq<Level>, used: set<int>) {
    && (forall i :: 0 <= i < |levels| ==> levels[i].id in used)
    && (forall i, j :: 0 <= i < j < |levels| ==> levels[i].id != levels[j].id)
    && (forall i :: 0 <= i < |levels| - 1 ==> !levels[i].dead)
  }

  /** Owners keep their place when the stack keeps its numbers. */
  lemma PlacedStays(levels: seq<Level>, levels': seq<Level>, owner: Option<int>)
    requires Placed(levels, owner) && |levels| <= |levels'|
    requires forall i :: 0 <= i < |levels| ==> levels'[i].id == levels[i].id
    ensures Placed(levels', owner)
  {
    var i :| 0 <= i < |levels| && OwnedBy(owner, levels[i].id, i == 0);
    assert OwnedBy(owner, levels'[i].id, i == 0);
  }

  // ----- insert -----

  function Tracking(o: Obs, rows: Rows, nested: Option<int>): Obs {
    o.(trades := o.trades + rows, owners := o.owners + OwnersOf(rows, nested), candidates := [])
  }

  lemma InsertElsewhere(o: Obs, l: Level, root: bool, rows: Rows, nested: Option<int>)
    requires LevelOk(o, l, root) && rows.Keys !! o.trades.Keys && !OwnedBy(nested, l.id, root)
    ensures LevelOk(Tracking(o, rows, nested), l, root)
  {
  }

  lemma InsertHere(o: Obs, l: Level, root: bool, rows: Rows, nested: Option<int>)
    requires LevelOk(o, l, root) && !l.dead && rows.Keys !! o.trades.Keys && OwnedBy(nested, l.id, root)
    ensures LevelOk(Tracking(o, rows, nested), l.(rows := l.rows + rows), root)
  {
  }

  lemma NothingElseTracked(o: Obs, levels: seq<Level>, used: set<int>, rows: Rows)
    requires Mirrors(o, levels) && StackOk(levels, used) && levels != [] && !Top(levels).dead
    requires forall i :: 0 <= i < |levels| ==> rows.Keys !! levels[i].rows.Keys
    ensures rows.Keys !! o.trades.Keys
  {
    forall k | k in o.trades
      ensures k !in rows
    {
      assert k in o.owners;
      var i :| 0 <= i < |levels| && OwnedBy(o.owners[k], levels[i].id, i == 0);
      assert LevelOk(o, levels[i], i == 0);
      assert k in levels[i].rows;
    }
  }

  lemma InsertMirrors(o: Obs, levels: seq<Level>, used: set<int>, rows: Rows)
    requires Mirrors(o, levels) && StackOk(levels, used) && levels != [] && !Top(levels).dead && WellKeyed(rows)
    requires forall i :: 0 <= i < |levels| ==> rows.Keys !! levels[i].rows.Keys
    ensures Mirrors(Tracking(o, rows, NestedId(levels)), SetTop(levels, Top(levels).(rows := Top(levels).rows + rows)))
  {
    hide LevelOk, Placed;
    var o' := Tracking(o, rows, NestedId(levels));
    var levels' := SetTop(levels, Top(levels).(rows := Top(levels).rows + rows));
    var n := |levels| - 1;
    NothingElseTracked(o, levels, used, rows);
    InsertPlaced(o, levels, rows, levels');
    forall i | 0 <= i < |levels'|
      ensures LevelOk(o', levels'[i], i == 0)
    {
      assert LevelOk(o, levels[i], i == 0);
      if i < n {
        InsertElsewhere(o, levels[i], i == 0, rows, NestedId(levels));
      } else {
        InsertHere(o, levels[i], i == 0, rows, NestedId(levels));
      }
    }
  }

  lemma InsertPlaced(o: Obs, levels: seq<Level>, rows: Rows, levels': seq<Level>)
    requires KeysOk(o, levels) && levels != [] && WellKeyed(rows)
    requires |levels'| == |levels| && forall i :: 0 <= i < |levels| ==> levels'[i].id == levels[i].id
    ensures KeysOk(Tracking(o, rows, NestedId(levels)), levels')
  {
    hide Placed;
    var o' := Tracking(o, rows, NestedId(levels));
    forall k | k in o'.owners
      ensures Placed(levels', o'.owners[k])
    {
      if k in rows {
        TopIsPlaced(levels');
      } else {
        PlacedStays(levels, levels', o.owners[k]);
      }
    }
  }

  lemma TopIsPlaced(levels: seq<Level>)
    requires levels != []
    ensures Placed(levels, NestedId(levels))
  {
    var n := |levels| - 1;
    assert OwnedBy(NestedId(levels), levels[n].id, n == 0);
  }

  // ----- failed flush -----

  lemma FailMirrors(o: Obs, levels: seq<Level>)
    requires Mirrors(o, levels) && levels != []
    ensures Mirrors(o, SetTop(levels, Top(levels).(rows := map[], dead := true)))
  {
    hide Placed;
    var levels' := SetTop(levels, Top(levels).(rows := map[], dead := true));
    forall k | k in o.owners
      ensures Placed(levels', o.owners[k])
    {
      PlacedStays(levels, levels', o.owners[k]);
    }
    forall i | 0 <= i < |levels'|
      ensures LevelOk(o, levels'[i], i == 0)
    {
      assert LevelOk(o, levels[i], i == 0);
    }
  }

  // ----- savepoint -----

  lemma NotPlacedNotOwned(o: Obs, levels: seq<Level>, used: set<int>, id: int)
    requires KeysOk(o, levels) && StackOk(levels, used) && id !in used
    ensures forall k :: k in o.owners ==> o.owners[k] != Some(id)
  {
    forall k | k in o.owners
      ensures o.owners[k] != Some(id)
    {
      var i :| 0 <= i < |levels| && OwnedBy(o.owners[k], levels[i].id, i == 0);
    }
  }

  lemma PushMirrors(o: Obs, levels: seq<Level>, used: set<int>, id: int)
    requires Mirrors(o, levels) && StackOk(levels, used) && levels != [] && id !in used
    ensures Mirrors(o, levels + [Level(id, map[], false)])
  {
    hide Placed;
    var levels' := levels + [Level(id, map[], false)];
    NotPlacedNotOwned(o, levels, used, id);
    forall k | k in o.owners
      ensures Placed(levels', o.owners[k])
    {
      PlacedStays(levels, levels', o.owners[k]);
    }
    forall i | 0 <= i < |levels'|
      ensures LevelOk(o, levels'[i], i == 0)
    {
      if i < |levels| {
        assert LevelOk(o, levels[i], i == 0);
      }
    }
  }

  // ----- release -----

  function Reowned(o: Obs, child: int, parent: int): Obs {
    o.(owners := map k | k in o.owners :: if o.owners[k] == Some(child) then Some(parent) else o.owners[k])
  }

  lemma ReleaseElsewhere(o: Obs, l: Level, root: bool, child: int, parent: int)
    requires LevelOk(o, l, root) && l.id != child && l.id != parent
    ensures LevelOk(Reowned(o, child, parent), l, root)
  {
  }

  lemma ReleaseHere(o: Obs, l: Level, root: bool, c: Level)
    requires LevelOk(o, l, root) && LevelOk(o, c, false) && !l.dead && !c.dead && l.id != c.id
    ensures LevelOk(Reowned(o, c.id, l.id), l.(rows := l.rows + c.rows), root)
  {
  }

  lemma ReleaseMirrors(o: Obs, levels: seq<Level>, used: set<int>)
    requires Mirrors(o, levels) && StackOk(levels, used) && |levels| > 1 && !Top(levels).dead
    ensures Mirrors(Reowned(o, Top(levels).id, levels[|levels| - 2].id), Merged(levels))
  {
    hide LevelOk, Placed;
    var n := |levels| - 1;
    var o' := Reowned(o, levels[n].id, levels[n - 1].id);
    var levels' := Merged(levels);
    forall k | k in o'.owners
      ensures Placed(levels', o'.owners[k])
    {
      ReleasePlaced(levels, levels', o.owners[k]);
    }
    forall i | 0 <= i < |levels'|
      ensures LevelOk(o', levels'[i], i == 0)
    {
      assert LevelOk(o, levels[i], i == 0) && LevelOk(o, levels[n], n == 0);
      if i < n - 1 {
        ReleaseElsewhere(o, levels[i], i == 0, levels[n].id, levels[n - 1].id);
      } else {
        ReleaseHere(o, levels[i], i == 0, levels[n]);
      }
    }
  }

  lemma ReleasePlaced(levels: seq<Level>, levels': seq<Level>, owner: Option<int>)
    requires |levels| > 1 && levels' == Merged(levels) && Placed(levels, owner)
    ensures Placed(levels', if owner == Some(Top(levels).id) then Some(levels[|levels| - 2].id) else owner)
  {
    var i :| 0 <= i < |levels| && OwnedBy(owner, levels[i].id, i == 0);
    var j := if owner == Some(Top(levels).id) then |levels| - 2 else i;
    assert OwnedBy(if owner == Some(Top(levels).id) then Some(levels[|levels| - 2].id) else owner, levels'[j].id, j == 0);
  }

  // ----- rollback -----

  function Forgotten(o: Obs, gone: int): Obs {
    o.(trades := map k | k in o.trades && !(k in o.owners && o.owners[k] == Some(gone)) :: o.trades[k],
       owners := map k | k in o.owners && o.owners[k] != Some(gone) :: o.owners[k],
       candidates := [])
  }

  lemma RollbackElsewhere(o: Obs, l: Level, root: bool, gone: int)
    requires LevelOk(o, l, root) && l.id != gone
    ensures LevelOk(Forgotten(o, gone), l, root)
  {
  }

  lemma RollbackMirrors(o: Obs, levels: seq<Level>, used: set<int>)
    requires Mirrors(o, levels) && StackOk(levels, used) && |levels| > 1
    ensures Mirrors(Forgotten(o, Top(levels).id), levels[..|levels| - 1])
  {
    hide LevelOk, Placed;
    var n := |levels| - 1;
    var o', levels' := Forgotten(o, levels[n].id), levels[..n];
    forall k | k in o'.owners
      ensures Placed(levels', o'.owners[k])
    {
      RollbackPlaced(levels, o.owners[k]);
    }
    forall i | 0 <= i < |levels'|
      ensures LevelOk(o', levels'[i], i == 0)
    {
      assert LevelOk(o, levels[i], i == 0);
      RollbackElsewhere(o, levels[i], i == 0, levels[n].id);
    }
  }

  lemma RollbackPlaced(levels: seq<Level>, owner: Option<int>)
    requires |levels| > 1 && Placed(levels, owner) && owner != Some(Top(levels).id)
    ensures Placed(levels[..|levels| - 1], owner)
  {
    var levels' := levels[..|levels| - 1];
    var i :| 0 <= i < |levels| && OwnedBy(owner, levels[i].id, i == 0);
    assert OwnedBy(owner, levels'[i].id, i == 0);
  }

  /** Rolling back what the stack never held forgets nothing. */
  lemma StrangerForgetsNothing(o: Obs, levels: seq<Level>, used: set<int>, sub: int)
    requires Mirrors(o, levels) && StackOk(levels, used) && sub !in used
    ensures Forgotten(o, sub) == o.(candidates := [])
  {
    NotPlacedNotOwned(o, levels, used, sub);
    var o' := Forgotten(o, sub);
    assert forall k :: k in o.trades <==> k in o'.trades;
    assert forall k :: k in o.owners <==> k in o'.owners;
    assert o'.trades == o.trades && o'.owners == o.owners;
  }

  // ----- savepoint refinement -----

  /**
   Savepoint refinement: whatever savepoints were opened, released and rolled back, the facts the
   observer holds are the rows that survive in the database.
   */
  lemma MirrorsMeansSurvivors(o: Obs, levels: seq<Level>, used: set<int>)
    requires Mirrors(o, levels) && StackOk(levels, used) && levels != [] && !Top(levels).dead
    ensures o.trades == Survivors(levels)
  {
    hide LevelOk, Survivors;
    SurvivorsAreOwned(o, levels, |levels|);
    assert levels[..|levels|] == levels;
    forall k | k in o.trades
      ensures k in Survivors(levels)
    {
      assert k in o.owners && Placed(levels, o.owners[k]);
      var i :| 0 <= i < |levels| && OwnedBy(o.owners[k], levels[i].id, i == 0);
      assert k in Survivors(levels[..|levels|]);
    }
    var kept := Survivors(levels);
    assert forall k :: k in kept ==> k in o.trades && kept[k] == o.trades[k];
    assert forall k :: k in o.trades <==> k in kept;
    assert o.trades == kept;
  }

  lemma {:induction false} SurvivorsAreOwned(o: Obs, levels: seq<Level>, n: nat)
    requires LevelsOk(o, levels) && n <= |levels| && o.trades.Keys == o.owners.Keys
    requires forall i :: 0 <= i < n ==> !levels[i].dead
    ensures forall k :: k in Survivors(levels[..n]) ==> k in o.trades && Survivors(levels[..n])[k] == o.trades[k]
    ensures forall k, i :: 0 <= i < n && k in o.owners && OwnedBy(o.owners[k], levels[i].id, i == 0) ==> k in Survivors(levels[..n])
  {
    if n > 0 {
      SurvivorsAreOwned(o, levels, n - 1);
      assert levels[..n][..n - 1] == levels[..n - 1];
      assert LevelOk(o, levels[n - 1], n - 1 == 0);
    }
  }
}
