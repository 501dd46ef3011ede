/**
 The journal never misjudges a transaction: over every run of flushes, savepoints, commits with or
 without a reply, crashes and recoveries, COMMITTED and ROLLED_BACK say what the database did.
 */
module ObserverFate {
  import opened Wrappers
  import opened Fence
  import opened Observer
  import opened ObserverRuns
  import opened ObserverSafety
  import P = FenceProcess

  /** The observer still listens, and no failure has left its fields out of step. */
  predicate InStep(w: World) {
    !Silent(w.watch) && !w.missed
  }

  /** In step: the observer's fields mirror the open transaction. */
  ghost predicate Tracks(w: World) {
    var o := w.watch.obs;
    && o.candidates == []
    && (w.levels == [] || o.token.None? ==> o.trades == map[] && o.owners == map[])
    && (w.levels == [] ==> o.token.None?)
    && (w.levels != [] ==> Mirrors(o, w.levels) && TokenHere(o.token, w))
  }

  ghost predicate TokenHere(token: Option<Token>, w: World)
    requires w.levels != []
  {
    token.Some? ==> token.value in w.admitted && w.admitted[token.value] == w.levels[0].id
  }

  ghost predicate Sound(c: Config, w: World) {
    CoreOk(c, CoreOf(w)) && StackOk(w.levels, w.used) && (InStep(w) ==> Tracks(w))
  }

  // ---------- flushes ----------

  lemma BegunCore(c: Config, w: World, f: Flush)
    requires CoreOk(c, CoreOf(w)) && w.levels != [] && FreshFlush(w, f)
    ensures CoreOk(c, CoreOf(Begun(c, w, f)))
  {
    hide CoreOk, BeforeFlush;
    var k := CoreOf(w);
    if BeforeFlush(c, w.watch, f.facts, f.token, f.now, f.before).obs.token != w.watch.obs.token {
      MintedByFlush(c, w.watch, f);
      MintIfNew(c, k, f.token, Some(AttemptRow(c.worker, w.watch.fence.epoch, None, f.now, Outstanding, None)));
      MintIfNew(c, k, f.token, None);
    } else {
      NothingMinted(c, w.watch, f);
      assert CoreOf(Begun(c, w, f)) == k;
    }
  }

  ghost predicate SameFlags(o: Obs, o': Obs) {
    o'.endedToken == o.endedToken && o'.commitStarted == o.commitStarted && o'.endedUnknown == o.endedUnknown
  }

  lemma MintedByFlush(c: Config, w: Watch, f: Flush)
    requires BeforeFlush(c, w, f.facts, f.token, f.now, f.before).obs.token != w.obs.token
    ensures var w' := BeforeFlush(c, w, f.facts, f.token, f.now, f.before);
      && w.obs.token.None? && w'.obs.token == Some(f.token) && SameFlags(w.obs, w'.obs)
      && (w'.fence.attempts == w.fence.attempts ||
          w'.fence.attempts == w.fence.attempts[f.token := AttemptRow(c.worker, w.fence.epoch, None, f.now, Outstanding, None)])
  {
    hide Transition;
    var e := Ev(c, f.now, Attempt(f.token, c.worker, w.fence.epoch, None));
    if Transition(w.fence, e, c.binding, c.authority).Ok? {
      AttemptRowAdded(w.fence, e, c.binding, c.authority);
    }
  }

  lemma NothingMinted(c: Config, w: Watch, f: Flush)
    requires BeforeFlush(c, w, f.facts, f.token, f.now, f.before).obs.token == w.obs.token
    ensures var w' := BeforeFlush(c, w, f.facts, f.token, f.now, f.before);
      w'.fence == w.fence.(error := w'.fence.error) && SameFlags(w.obs, w'.obs)
  {
    hide Transition;
  }

  lemma MintIfNew(c: Config, k: Core, t: Token, row: Option<AttemptRow>)
    requires CoreOk(c, k) && k.root.Some? && t !in k.admitted && t !in k.attempts
    requires row.Some? ==> row.value.worker == c.worker && row.value.fate == Outstanding
    ensures k.token.None? ==>
              CoreOk(c, k.(token := Some(t), admitted := k.admitted[t := k.root.value],
                           attempts := if row.Some? then k.attempts[t := row.value] else k.attempts))
  {
    if k.token.None? {
      MintKeeps(c, k, t, row);
    }
  }

  /** What `before_flush` does to the watch when it sees the flush. */
  lemma FlushSeen(c: Config, w: Watch, f: Flush)
    requires !Silent(w) && !FlushUnseen(c, w, f.facts, f.token, f.now, f.before)
    ensures var w' := BeforeFlush(c, w, f.facts, f.token, f.now, f.before);
      && w'.localError == w.localError
      && w'.obs == w.obs.(token := w'.obs.token, candidates := w.obs.candidates + f.facts)
      && (if f.facts == [] || w.obs.token.Some? then w'.obs.token == w.obs.token else w'.obs.token == Some(f.token))
  {
    hide Transition;
    if f.facts == [] {
      assert w.obs.candidates + f.facts == w.obs.candidates;
    }
  }

  /** Seen or not, `before_flush` leaves the facts held alone, and a token once held. */
  lemma FlushAside(c: Config, w: Watch, f: Flush)
    ensures var w' := BeforeFlush(c, w, f.facts, f.token, f.now, f.before);
      && Silent(w') == Silent(w) && w'.obs.trades == w.obs.trades && w'.obs.owners == w.obs.owners
      && (w'.obs.token == w.obs.token || (w.obs.token.None? && w'.obs.token == Some(f.token)))
  {
    hide Transition;
    var e := Ev(c, f.now, Attempt(f.token, c.worker, w.fence.epoch, None));
    if Transition(w.fence, e, c.binding, c.authority).Ok? {
      AttemptRowAdded(w.fence, e, c.binding, c.authority);
    }
  }

  /** A flush that `before_flush` sees: its facts are candidates under a token of this transaction. */
  lemma BegunTracks(c: Config, w: World, f: Flush)
    requires w.levels != [] && !Silent(w.watch) && !FlushUnseen(c, w.watch, f.facts, f.token, f.now, f.before)
    ensures var b := Begun(c, w, f);
      && !Silent(b.watch) && b.watch.localError == w.watch.localError
      && b.watch.obs == w.watch.obs.(token := b.watch.obs.token, candidates := w.watch.obs.candidates + f.facts)
      && (f.facts != [] ==> b.watch.obs.token.Some?) && (f.facts == [] ==> b.watch.obs.token == w.watch.obs.token)
      && (TokenHere(w.watch.obs.token, w) ==> TokenHere(b.watch.obs.token, b))
  {
    hide BeforeFlush, FlushUnseen, Silent;
    FlushSeen(c, w.watch, f);
    FlushAside(c, w.watch, f);
  }

  lemma BegunKeepsFacts(c: Config, w: World, f: Flush)
    requires w.levels != []
    ensures var b := Begun(c, w, f);
      && Silent(b.watch) == Silent(w.watch)
      && b.watch.obs.trades == w.watch.obs.trades && b.watch.obs.owners == w.watch.obs.owners
      && (w.watch.obs.token.Some? ==> b.watch.obs.token == w.watch.obs.token)
      && (TokenHere(w.watch.obs.token, w) ==> TokenHere(b.watch.obs.token, b))
  {
    hide BeforeFlush, Silent;
    FlushAside(c, w.watch, f);
  }

  lemma InsertedCore(c: Config, w: World, f: Flush)
    requires CoreOk(c, CoreOf(w)) && w.levels != [] && FreshFlush(w, f)
    ensures CoreOk(c, CoreOf(Inserted(c, w, f)))
    ensures Inserted(c, w, f).levels != [] && Inserted(c, w, f).levels[0].id == w.levels[0].id
  {
    hide CoreOk, BeforeFlush, ById;
    BegunCore(c, w, f);
    if f.dirty {
      assert CoreOf(Inserted(c, w, f)) == CoreOf(Begun(c, w, f));
    }
  }

  lemma InsertFailedCore(c: Config, w: World, f: Flush, sub: int, soft: Fault)
    requires CoreOk(c, CoreOf(w)) && w.levels != [] && FreshFlush(w, f)
    ensures CoreOk(c, CoreOf(InsertFailed(c, w, f, sub, soft)))
  {
    hide CoreOk, BeforeFlush;
    BegunCore(c, w, f);
    assert CoreOf(InsertFailed(c, w, f, sub, soft)) == CoreOf(Begun(c, w, f));
  }

  lemma InsertedTracks(c: Config, w: World, f: Flush)
    requires StackOk(w.levels, w.used) && Alive(w) && FreshFlush(w, f)
    requires InStep(w) ==> Tracks(w)
    ensures InStep(Inserted(c, w, f)) ==> Tracks(Inserted(c, w, f))
    ensures StackOk(Inserted(c, w, f).levels, Inserted(c, w, f).used) && Alive(Inserted(c, w, f))
  {
    hide BeforeFlush, Mirrors, ById, Transition, OwnersOf, FlushUnseen;
    var b, i := Begun(c, w, f), Inserted(c, w, f);
    if f.dirty && InStep(i) {
      BegunKeepsFacts(c, w, f);
      assert InStep(w) && Tracks(w);
      BegunTracks(c, w, f);
      ByIdWellKeyed(f.facts);
      InsertMirrors(w.watch.obs, w.levels, w.used, ById(f.facts));
      assert [] + f.facts == f.facts;
      if f.facts == [] {
        EmptyInsert(w.watch.obs, w.levels);
      }
      assert TokenHere(i.watch.obs.token, i);
      TokenAside(Tracking(w.watch.obs, ById(f.facts), NestedId(w.levels)), i.watch.obs, i.levels);
    }
  }

  lemma EmptyInsert(o: Obs, levels: seq<Level>)
    requires levels != []
    ensures Tracking(o, ById([]), NestedId(levels)) == o.(candidates := [])
  {
    assert o.trades + map[] == o.trades;
    assert o.owners + map[] == o.owners;
  }

  /** Mirroring is about trades and owners only. */
  lemma TokenAside(o: Obs, o': Obs, levels: seq<Level>)
    requires Mirrors(o, levels) && o'.trades == o.trades && o'.owners == o.owners
    ensures Mirrors(o', levels)
  {
    hide Placed;
    forall i | 0 <= i < |levels|
      ensures LevelOk(o', levels[i], i == 0)
    {
      assert LevelOk(o, levels[i], i == 0);
    }
  }

  lemma InsertFailedTracks(c: Config, w: World, f: Flush, sub: int, soft: Fault)
    requires StackOk(w.levels, w.used) && Alive(w) && sub !in w.used
    requires InStep(w) ==> Tracks(w)
    ensures var i := InsertFailed(c, w, f, sub, soft);
      (InStep(i) ==> Tracks(i)) && StackOk(i.levels, i.used)
  {
    hide BeforeFlush, Mirrors, Transition;
    var b, i := Begun(c, w, f), InsertFailed(c, w, f, sub, soft);
    if InStep(i) {
      BegunKeepsFacts(c, w, f);
      assert InStep(w) && Tracks(w);
      FailMirrors(w.watch.obs, w.levels);
      if soft.Fine? {
        StrangerForgetsNothing(w.watch.obs, w.levels, w.used, sub);
        SameFactsForgotten(w.watch.obs, b.watch.obs, sub);
        assert i.watch.obs == Forgotten(b.watch.obs, sub);
      }
      assert i.watch.obs.trades == w.watch.obs.trades && i.watch.obs.owners == w.watch.obs.owners;
      TokenAside(w.watch.obs, i.watch.obs, i.levels);
      assert TokenHere(i.watch.obs.token, i);
    }
  }

  lemma SameFactsForgotten(o: Obs, o': Obs, gone: int)
    requires o'.trades == o.trades && o'.owners == o.owners
    ensures Forgotten(o', gone).trades == Forgotten(o, gone).trades && Forgotten(o', gone).owners == Forgotten(o, gone).owners
  {
  }

  // ---------- the end of a transaction ----------

  lemma EndCore(c: Config, w: World, fault: Fault)
    requires CoreOk(c, CoreOf(w)) && w.levels == []
    ensures CoreOk(c, CoreOf(w.(watch := AfterRootEnd(w.watch, fault))))
  {
    hide CoreOk;
    LetGoKeeps(c, CoreOf(w), w.watch.obs.token, w.watch.obs.commitStarted);
  }

  lemma SoftCore(c: Config, w: World, now: int, fault: Fault)
    requires CoreOk(c, CoreOf(w)) && w.levels == []
    ensures CoreOk(c, CoreOf(w.(watch := AfterRootRollback(c, w.watch, now, fault))))
  {
    hide CoreOk, Transition;
    var k, o := CoreOf(w), w.watch.obs;
    LetGoKeeps(c, k, None, false);
    if Resolving(o).Some? && !o.commitStarted && !o.endedUnknown {
      var t := Resolving(o).value;
      var e := Ev(c, now, RolledBack(t));
      if Transition(w.watch.fence, e, c.binding, c.authority).Ok? {
        RowRolledBack(w.watch.fence, e, c.binding, c.authority);
        NeverSent(c, k, t);
        RolledBackKeeps(c, k, t);
        LetGoKeeps(c, k.(attempts := k.attempts[t := k.attempts[t].(fate := WasRolledBack)]), None, false);
      }
    }
  }

  lemma NeverSent(c: Config, k: Core, t: Token)
    requires CoreOk(c, k) && !k.started && !k.unknown && (k.token == Some(t) || (k.token.None? && k.ended == Some(t)))
    ensures t in k.admitted && !Sent(k, k.admitted[t])
  {
    hide NotesOk, VerdictsOk;
  }

  lemma LeftCore(c: Config, w: World, l: Leave)
    requires CoreOk(c, CoreOf(w)) && w.levels == []
    ensures CoreOk(c, CoreOf(w.(watch := Left(c, w.watch, l))))
  {
    hide CoreOk, AfterRootEnd, AfterRootRollback;
    match l.how
    case EndThenSoft =>
      EndCore(c, w, l.end);
      SoftCore(c, w.(watch := AfterRootEnd(w.watch, l.end)), l.now, l.soft);
    case SoftThenEnd =>
      SoftCore(c, w, l.now, l.soft);
      EndCore(c, w.(watch := AfterRootRollback(c, w.watch, l.now, l.soft)), l.end);
    case EndOnly =>
      EndCore(c, w, l.end);
  }

  ghost predicate Blank(o: Obs) {
    o.candidates == [] && o.token.None? && o.trades == map[] && o.owners == map[]
  }

  /** Either outer callback clears the fields when it runs, and leaves them as they are when it does not. */
  lemma EndClears(w: Watch, fault: Fault)
    ensures var w' := AfterRootEnd(w, fault);
      && Silent(w') == Silent(w)
      && if EndRuns(w, fault) then Blank(w'.obs) else w'.obs == w.obs
  {
  }

  lemma SoftClears(c: Config, w: Watch, now: int, fault: Fault)
    ensures var w' := AfterRootRollback(c, w, now, fault);
      && Silent(w') == Silent(w)
      && if SoftRuns(c, w, now, fault) then Blank(w'.obs) else w'.obs == w.obs
  {
    hide Transition;
    if !Silent(w) && fault.Fine? && Resolving(w.obs).Some? && !w.obs.commitStarted && !w.obs.endedUnknown {
      var e := Ev(c, now, RolledBack(Resolving(w.obs).value));
      if Transition(w.fence, e, c.binding, c.authority).Ok? {
        RowRolledBack(w.fence, e, c.binding, c.authority);
      }
    }
  }

  lemma LeftClears(c: Config, w: Watch, l: Leave)
    ensures var w' := Left(c, w, l);
      && Silent(w') == Silent(w)
      && if Cleared(c, w, l) then Blank(w'.obs) else w'.obs == w.obs
  {
    hide AfterRootEnd, AfterRootRollback, EndRuns, SoftRuns, Silent;
    match l.how
    case EndThenSoft =>
      EndClears(w, l.end);
      SoftClears(c, AfterRootEnd(w, l.end), l.now, l.soft);
    case SoftThenEnd =>
      SoftClears(c, w, l.now, l.soft);
      EndClears(AfterRootRollback(c, w, l.now, l.soft), l.end);
    case EndOnly => EndClears(w, l.end);
  }

  /** A transaction that went away leaves the observer in step if its fields are empty. */
  lemma GoneTracks(w: World, w': World)
    requires InStep(w) ==> Tracks(w)
    requires w'.levels == [] && Silent(w'.watch) == Silent(w.watch)
    requires !w'.missed ==> Blank(w'.watch.obs) || (!w.missed && w.watch.obs.token.None? && w'.watch.obs == w.watch.obs)
    ensures InStep(w') ==> Tracks(w')
  {
    hide Mirrors;
  }

  // ---------- commit ----------

  /** A witness written in step lists exactly the rows that COMMIT will make durable. */
  lemma WitnessIsExact(c: Config, w: World, noting: Fault)
    requires Sound(c, w) && |w.levels| == 1 && Alive(w)
    ensures NoteOk(c, CoreOf(w).(root := None), w.levels[0].id,
                   Txn(w.levels[0].rows, WitnessOf(c, w.watch, noting), !w.missed))
  {
    hide Mirrors, Listing, NotesOk, NotesUnique;
    if WitnessOf(c, w.watch, noting).Some? {
      assert VerdictOk(c, CoreOf(w), w.watch.obs.token.value);
      if !w.missed {
        assert Tracks(w);
        var o := w.watch.obs;
        MirrorsMeansSurvivors(o, w.levels, w.used);
        OneLevelSurvives(w.levels);
        assert WellKeyed(o.trades) by { TradesKeyed(o, w.levels); }
        ListingRoundTrip(o.trades);
        ListingAscends(o.trades);
      }
    }
  }

  lemma TradesKeyed(o: Obs, levels: seq<Level>)
    requires Mirrors(o, levels)
    ensures WellKeyed(o.trades)
  {
  }

  lemma OneLevelSurvives(levels: seq<Level>)
    requires |levels| == 1
    ensures Survivors(levels) == levels[0].rows
  {
    assert levels[..0] == [];
    assert map[] + levels[0].rows == levels[0].rows;
  }

  lemma LastFlushOk(c: Config, w: World, f: Flush)
    requires Sound(c, w) && Alive(w) && |w.levels| == 1 && FreshFlush(w, f)
    ensures var b := Inserted(c, Starting(w), f);
      && Sound(c, b) && Alive(b) && |b.levels| == 1 && b.levels[0].id == w.levels[0].id
      && b.durable == w.durable && b.limbo == w.limbo && b.watch.obs.commitStarted
  {
    hide CoreOk, Inserted, Tracks, ById;
    StartingSound(c, w);
    InsertedCore(c, Starting(w), f);
    InsertedTracks(c, Starting(w), f);
    FlushKeepsFlag(c, Starting(w), f);
  }

  lemma SendingOk(c: Config, w: World, f: Flush, noting: Fault)
    requires Sound(c, w) && Alive(w) && |w.levels| == 1 && FreshFlush(w, f)
    ensures var b, txn := Sending(c, w, f, noting), Outgoing(c, w, f, noting);
      && Sound(c, b) && b.watch.obs.commitStarted && b.levels != [] && b.levels[0].id == w.levels[0].id
      && b.durable == w.durable && b.limbo == w.limbo
      && NoteOk(c, CoreOf(b).(root := None), w.levels[0].id, txn)
      && (txn.note.Some? ==> !Taken(w.durable, txn.note.value.token))
  {
    hide CoreOk, Inserted, NoteOk, FreshFlush, Taken, Mirrors;
    LastFlushOk(c, w, f);
    var b := Inserted(c, Starting(w), f);
    WitnessIsExact(c, b, Noting(c, b, noting));
    AfterWitnessAside(b.watch, Noting(c, b, noting));
    assert CoreOf(Sending(c, w, f, noting)) == CoreOf(b);
    NotingAvoidsTaken(c, b, noting);
  }

  lemma AfterWitnessAside(w: Watch, fault: Fault)
    ensures var w' := AfterWitness(w, fault);
      w'.obs == w.obs && w'.retired == w.retired && w'.fence == w.fence.(error := w'.fence.error) && Silent(w') == Silent(w)
  {
  }

  lemma NotingAvoidsTaken(c: Config, w: World, noting: Fault)
    ensures var note := WitnessOf(c, w.watch, Noting(c, w, noting));
      note.Some? ==> !Taken(w.durable, note.value.token) && note == WitnessOf(c, w.watch, noting)
  {
    hide Taken, Listing;
  }

  lemma StartingTracks(w: World)
    requires InStep(w) ==> Tracks(w)
    ensures InStep(Starting(w)) ==> Tracks(Starting(w))
  {
    hide Mirrors;
    if InStep(w) && w.levels != [] {
      TokenAside(w.watch.obs, Starting(w).watch.obs, w.levels);
    }
  }

  lemma FlushKeepsFlag(c: Config, w: World, f: Flush)
    requires w.levels != []
    ensures Inserted(c, w, f).watch.obs.commitStarted == w.watch.obs.commitStarted
    ensures |Inserted(c, w, f).levels| == |w.levels|
    ensures Inserted(c, w, f).durable == w.durable && Inserted(c, w, f).limbo == w.limbo
  {
    hide BeforeFlush, ById, OwnersOf;
    if Begun(c, w, f).watch.obs.token != w.watch.obs.token {
      MintedByFlush(c, w.watch, f);
    } else {
      NothingMinted(c, w.watch, f);
    }
  }

  lemma CommittingCore(c: Config, w: World, f: Flush, noting: Fault, reply: Reply, l: Leave)
    requires Sound(c, w) && Enabled(c, w, Commit(f, noting, reply, l))
    ensures CoreOk(c, CoreOf(Committing(c, w, f, noting, reply, l)))
    ensures Committing(c, w, f, noting, reply, l).levels == []
  {
    hide CoreOk, Sending, Outgoing, AfterRootEnd, Left, NoteOk, FreshFlush, Taken, Tracks;
    SendingOk(c, w, f, noting);
    var b, txn := Sending(c, w, f, noting), Outgoing(c, w, f, noting);
    var k := CoreOf(b);
    match reply
    case Acknowledged =>
      SendKeeps(c, k, txn, true);
      var sent := b.(levels := [], durable := w.durable[w.levels[0].id := txn]);
      assert CoreOf(sent) == k.(root := None, durable := k.durable[k.root.value := txn], limbo := k.limbo);
      EndCore(c, sent, l.end);
    case ReplyLost =>
      SendKeeps(c, k, txn, false);
      var sent := b.(levels := [], limbo := w.limbo[w.levels[0].id := txn]);
      assert CoreOf(sent) == k.(root := None, durable := k.durable, limbo := k.limbo[k.root.value := txn]);
      LeftCore(c, sent, l);
    case Refused =>
      ForgetRootKeeps(c, k);
      var sent := b.(levels := []);
      assert CoreOf(sent) == k.(root := None);
      LeftCore(c, sent, l);
  }

  lemma CommittingTracks(c: Config, w: World, f: Flush, noting: Fault, reply: Reply, l: Leave)
    requires Sound(c, w) && Enabled(c, w, Commit(f, noting, reply, l))
    ensures var b := Committing(c, w, f, noting, reply, l); InStep(b) ==> Tracks(b)
  {
    hide CoreOk, Sending, Outgoing, AfterRootEnd, Left, NoteOk, FreshFlush, Taken, Tracks, EndRuns, Cleared, Silent;
    SendingOk(c, w, f, noting);
    var b := Sending(c, w, f, noting);
    EndClears(b.watch, l.end);
    LeftClears(c, b.watch, l);
    GoneTracks(b, Committing(c, w, f, noting, reply, l));
  }

  lemma CommitSound(c: Config, w: World, f: Flush, noting: Fault, reply: Reply, l: Leave)
    requires Sound(c, w) && Enabled(c, w, Commit(f, noting, reply, l))
    ensures Sound(c, Committing(c, w, f, noting, reply, l))
  {
    hide CoreOk, Committing, Tracks, Waits, FreshFlush;
    CommittingCore(c, w, f, noting, reply, l);
    CommittingTracks(c, w, f, noting, reply, l);
  }

  // ---------- every step ----------

  lemma StepKeepsSound(c: Config, w: World, s: Step)
    requires Sound(c, w) && Enabled(c, w, s)
    ensures Sound(c, Next(c, w, s))
  {
    hide CoreOk, Tracks, Transition, Inserted, InsertFailed, Committing, Left, AfterRelease, AfterNestedRollback, Recovered, Merged,
         ById, Waits, Sound, Report, Controlled, Installed;
    match s
    case BeginOuter(id) => BeginSound(c, w, id);
    case Savepoint(id) => SavepointSound(c, w, id);
    case Insert(f) => InsertSound(c, w, f);
    case InsertFails(f, sub, soft) => InsertFailsSound(c, w, f, sub, soft);
    case Release(fault) => ReleaseSound(c, w, fault);
    case RollbackTo(fault) => RollbackToSound(c, w, fault);
    case Abandon(l) => AbandonSound(c, w, l);
    case Commit(f, noting, reply, l) =>
      CommitSound(c, w, f, noting, reply, l);
    case CommitFlushFails(f, sub, soft) =>
      StartingSound(c, w);
      InsertFailsSound(c, Starting(w), f, sub, soft);
    case LandLate(id) => SettleSound(c, w, id, true);
    case DropLate(id) => SettleSound(c, w, id, false);
    case Crash(sink) => CrashSound(c, w, sink);
    case OpenPass(_) => PassesAside(c, w, Next(c, w, s));
    case Recover(pass, id, now, sink) => RecoverSound(c, w, pass, id, now, sink);
    case ClosePass(_) => PassesAside(c, w, Next(c, w, s));
    case Elsewhere(e) => ElsewhereSound(c, w, e);
    case DeniedElsewhere => AsideSound(c, w, Next(c, w, s));
    case ProcessFault(message, sink) =>
      ReportAside(w.watch, message, sink);
      AsideSound(c, w, Next(c, w, s));
    case Tick(sink) =>
      ControlledAside(w.watch, sink);
      AsideSound(c, w, Next(c, w, s));
    case Retire => AsideSound(c, w, Next(c, w, s));
  }

  /** Nothing but records of failure, and perhaps silence. */
  ghost predicate OnlyRecords(w: Watch, w': Watch) {
    w'.obs == w.obs && w'.fence == w.fence.(error := w'.fence.error) && (Silent(w) ==> Silent(w'))
  }

  lemma AsideSound(c: Config, w: World, w': World)
    requires Sound(c, w) && w' == w.(watch := w'.watch) && OnlyRecords(w.watch, w'.watch)
    ensures Sound(c, w')
  {
    hide CoreOk, Mirrors;
    assert CoreOf(w') == CoreOf(w);
  }

  lemma PassesAside(c: Config, w: World, w': World)
    requires Sound(c, w) && w' == w.(passes := w'.passes)
    ensures Sound(c, w')
  {
    hide CoreOk, Mirrors;
    assert CoreOf(w') == CoreOf(w);
  }

  lemma ReportAside(w: Watch, message: string, sink: Sink)
    ensures OnlyRecords(w, Report(w, message, sink))
  {
  }

  lemma ControlledAside(w: Watch, sink: Sink)
    ensures OnlyRecords(w, Controlled(w, sink))
  {
  }

  lemma BeginSound(c: Config, w: World, id: int)
    requires Sound(c, w) && w.levels == [] && id !in w.used
    ensures Sound(c, w.(levels := [Level(id, map[], false)], used := w.used + {id}))
  {
    hide CoreOk;
    var w' := w.(levels := [Level(id, map[], false)], used := w.used + {id});
    BeginKeeps(c, CoreOf(w), id);
    assert CoreOf(w') == CoreOf(w).(root := Some(id), used := w.used + {id});
    if InStep(w) {
      assert LevelOk(w.watch.obs, w'.levels[0], true);
    }
  }

  lemma SavepointSound(c: Config, w: World, id: int)
    requires Sound(c, w) && Alive(w) && id !in w.used
    ensures Sound(c, w.(levels := w.levels + [Level(id, map[], false)], used := w.used + {id}))
  {
    hide CoreOk, Mirrors;
    var w' := w.(levels := w.levels + [Level(id, map[], false)], used := w.used + {id});
    NumberTaken(c, CoreOf(w), id);
    assert CoreOf(w') == CoreOf(w).(used := w.used + {id});
    if InStep(w) {
      PushMirrors(w.watch.obs, w.levels, w.used, id);
    }
  }

  lemma InsertSound(c: Config, w: World, f: Flush)
    requires Sound(c, w) && Alive(w) && FreshFlush(w, f)
    ensures Sound(c, Inserted(c, w, f))
  {
    hide CoreOk, Tracks, Inserted;
    InsertedCore(c, w, f);
    InsertedTracks(c, w, f);
  }

  lemma InsertFailsSound(c: Config, w: World, f: Flush, sub: int, soft: Fault)
    requires Sound(c, w) && Alive(w) && FreshFlush(w, f) && sub !in w.used
    ensures Sound(c, InsertFailed(c, w, f, sub, soft))
  {
    hide CoreOk, Tracks, InsertFailed;
    InsertFailedCore(c, w, f, sub, soft);
    InsertFailedTracks(c, w, f, sub, soft);
  }

  lemma ReleaseSound(c: Config, w: World, fault: Fault)
    requires Sound(c, w) && Alive(w) && |w.levels| > 1
    ensures Sound(c, Next(c, w, Release(fault)))
  {
    hide CoreOk, Mirrors;
    var w' := Next(c, w, Release(fault));
    assert w'.levels[0].id == w.levels[0].id;
    assert CoreOf(w') == CoreOf(w);
    if InStep(w') {
      ReleaseMirrors(w.watch.obs, w.levels, w.used);
    }
  }

  lemma RollbackToSound(c: Config, w: World, fault: Fault)
    requires Sound(c, w) && |w.levels| > 1
    ensures Sound(c, Next(c, w, RollbackTo(fault)))
  {
    hide CoreOk, Mirrors;
    var w' := Next(c, w, RollbackTo(fault));
    assert w'.levels[0].id == w.levels[0].id;
    assert CoreOf(w') == CoreOf(w);
    if InStep(w') {
      RollbackMirrors(w.watch.obs, w.levels, w.used);
      assert w'.watch.obs == Forgotten(w.watch.obs, Top(w.levels).id);
    }
  }

  lemma AbandonSound(c: Config, w: World, l: Leave)
    requires Sound(c, w) && w.levels != []
    ensures Sound(c, Next(c, w, Abandon(l)))
  {
    hide CoreOk, Left, Cleared, Tracks, Silent;
    ForgetRootKeeps(c, CoreOf(w));
    assert CoreOf(w.(levels := [])) == CoreOf(w).(root := None);
    LeftCore(c, w.(levels := []), l);
    LeftClears(c, w.watch, l);
    GoneTracks(w, Next(c, w, Abandon(l)));
  }

  lemma StartingSound(c: Config, w: World)
    requires Sound(c, w)
    ensures Sound(c, Starting(w))
  {
    hide CoreOk, Tracks;
    StartKeeps(c, CoreOf(w));
    assert CoreOf(Starting(w)) == CoreOf(w).(started := true);
    StartingTracks(w);
  }

  lemma SettleSound(c: Config, w: World, id: int, applied: bool)
    requires Sound(c, w) && id in w.limbo
    ensures Sound(c, w.(durable := if applied then w.durable[id := w.limbo[id]] else w.durable, limbo := w.limbo - {id}))
  {
    hide CoreOk, Mirrors;
    SettleKeeps(c, CoreOf(w), id, applied);
    var w' := w.(durable := if applied then w.durable[id := w.limbo[id]] else w.durable, limbo := w.limbo - {id});
    assert CoreOf(w') == CoreOf(w).(durable := w'.durable, limbo := w'.limbo);
  }

  lemma CrashSound(c: Config, w: World, sink: Sink)
    requires Sound(c, w)
    ensures Sound(c, Next(c, w, Crash(sink)))
  {
    hide CoreOk, Installed;
    var k := CoreOf(w);
    ForgetRootKeeps(c, k);
    LetGoKeeps(c, k.(root := None), None, false);
    InstalledBlank(w.watch, sink);
    assert CoreOf(Next(c, w, Crash(sink))) == k.(root := None, token := None, ended := None, started := false, unknown := false);
  }

  lemma InstalledBlank(w: Watch, sink: Sink)
    ensures Installed(w, sink).obs == IDLE && Installed(w, sink).fence == w.fence.(error := Installed(w, sink).fence.error)
  {
  }

  /** Recovery moves one row, by its witness, or none. */
  lemma RecoveredRows(c: Config, w: Watch, now: int, note: Witness, sink: Sink)
    requires note.token in w.fence.attempts
    ensures var w', rows, row := Recovered(c, w, now, note, sink), w.fence.attempts, w.fence.attempts[note.token];
      && w'.obs == w.obs && w'.fence.archive == w.fence.archive && w'.retired == w.retired && w'.localError == w.localError
      && w'.lost == w.lost && (w.latched ==> w'.latched)
      && (w'.fence.attempts == rows
          || (row.fate == Outstanding && w'.fence.attempts == rows[note.token := row.(fate := WasCommitted, evidence := Some(note))]))
  {
    hide Transition;
    var e := Ev(c, now, Committed(note.token, note));
    if Transition(w.fence, e, c.binding, c.authority).Ok? {
      RowCommitted(w.fence, e, c.binding, c.authority);
    }
  }

  lemma RecoverSound(c: Config, w: World, pass: int, id: int, now: int, sink: Sink)
    requires Sound(c, w) && Enabled(c, w, Recover(pass, id, now, sink))
    ensures Sound(c, Next(c, w, Recover(pass, id, now, sink)))
  {
    hide CoreOk, Mirrors, Recovered;
    var n, k := w.durable[id].note.value, CoreOf(w);
    var w' := Next(c, w, Recover(pass, id, now, sink));
    RecoveredRows(c, w.watch, now, n, sink);
    if w'.watch.fence.attempts != w.watch.fence.attempts {
      CommittedKeeps(c, k, id);
    }
    assert CoreOf(w') == k.(attempts := w'.watch.fence.attempts);
  }

  lemma ElsewhereSound(c: Config, w: World, e: Event)
    requires Sound(c, w) && Enabled(c, w, Elsewhere(e))
    ensures Sound(c, Next(c, w, Elsewhere(e)))
  {
    hide CoreOk, Mirrors, Transition;
    var k, w' := CoreOf(w), Next(c, w, Elsewhere(e));
    P.OtherRowsStay(w.watch.fence, e, c.binding, c.authority);
    ElsewhereKeeps(c, k, w'.watch.fence.attempts);
    assert CoreOf(w') == k.(attempts := w'.watch.fence.attempts);
  }

  // ---------- every run ----------

  /** Every step of the run was possible when it was taken. */
  ghost predicate Possible(c: Config, w: World, steps: seq<Step>)
    decreases |steps|
  {
    steps == [] || (Enabled(c, w, steps[0]) && Possible(c, Next(c, w, steps[0]), steps[1..]))
  }

  ghost function Run(c: Config, w: World, steps: seq<Step>): World
    requires Possible(c, w, steps)
    decreases |steps|
  {
    if steps == [] then w else Run(c, Next(c, w, steps[0]), steps[1..])
  }

  /** A session about to begin, with whatever the journal already holds. */
  function NewWorld(journal: State): World {
    World(Watch(IDLE, journal, None, false, false, false), [], map[], map[], map[], {}, false, {}, {})
  }

  lemma {:induction false} RunKeepsSound(c: Config, w: World, steps: seq<Step>)
    requires Sound(c, w) && Possible(c, w, steps)
    ensures Sound(c, Run(c, w, steps))
    decreases |steps|
  {
    hide Sound, Enabled, Next;
    if steps != [] {
      StepKeepsSound(c, w, steps[0]);
      RunKeepsSound(c, Next(c, w, steps[0]), steps[1..]);
    }
  }

  /** A durable transaction carries this witness; if sent in step, it is transaction `id` with exactly these trades. */
  ghost predicate BackedInStep(w: World, id: int, note: Witness) {
    exists x :: x in w.durable && w.durable[x].note == Some(note) && ExactInStep(w.durable[x], x, id, note)
  }

  ghost predicate ExactInStep(txn: Txn, x: int, id: int, note: Witness) {
    txn.tracked ==> x == id && ById(note.trades) == txn.rows
  }

  lemma NewWorldSound(c: Config, journal: State)
    ensures Sound(c, NewWorld(journal))
  {
  }

  lemma VerdictFacts(c: Config, w: World, t: Token)
    requires CoreOk(c, CoreOf(w)) && t in w.admitted && t in w.watch.fence.attempts
    ensures var row, id := w.watch.fence.attempts[t], w.admitted[t];
      && (row.fate == WasRolledBack ==> id !in w.durable && id !in w.limbo && (w.levels != [] ==> w.levels[0].id != id))
      && (row.fate == WasCommitted ==>
            row.evidence.Some? && row.evidence.value.token == t && BackedInStep(w, id, row.evidence.value))
      && (id in w.limbo || (id in w.durable && w.durable[id].note.None?) ==>
            row.fate == Outstanding || (exists x :: x in w.durable && !w.durable[x].tracked && w.durable[x].note == row.evidence))
  {
    hide NotesUnique;
    var k := CoreOf(w);
    assert VerdictOk(c, k, t);
    if k.attempts[t].fate == WasCommitted {
      var note := k.attempts[t].evidence.value;
      var x :| x in k.durable && k.durable[x].note == Some(note);
      assert NoteOk(c, k, x, k.durable[x]);
      assert ExactInStep(w.durable[x], x, w.admitted[t], note);
    }
  }

  /** No two transactions, durable or unsettled, ever carry witnesses for one token. */
  lemma OneWitnessPerToken(c: Config, journal: State, steps: seq<Step>, x: int, y: int)
    requires Possible(c, NewWorld(journal), steps)
    requires var k := CoreOf(Run(c, NewWorld(journal), steps)); NoteAt(k, x).Some? && NoteAt(k, x) == NoteAt(k, y)
    ensures x == y
  {
    hide Possible, Run;
    NewWorldSound(c, journal);
    RunKeepsSound(c, NewWorld(journal), steps);
  }

  // ---------- recovery ----------

  /**
   A visible witness settles its outstanding transaction, exactly unless the journal itself must
   refuse the facts: an event ID listed twice, or a post-close row ingested before the window's end.
   */
  lemma VisibleWitnessResolves(c: Config, w: World, pass: int, id: int, now: int, sink: Sink)
    requires Sound(c, w) && Enabled(c, w, Recover(pass, id, now, sink))
    requires w.watch.fence.attempts[w.durable[id].note.value.token].fate == Outstanding
    ensures var n := w.durable[id].note.value;
      var row := Recovered(c, w.watch, now, n, sink).fence.attempts[n.token];
      (row.fate == WasCommitted && row.evidence == Some(n))
        <==> DistinctFacts(n.trades) && (n.epoch > 0 ==> !BeforeEnd(n.trades, c.binding.end))
  {
    hide CoreOk, Mirrors, DistinctFacts, BeforeEnd;
    var n, k := w.durable[id].note.value, CoreOf(w);
    NoteAndRow(c, k, id);
    var e := Ev(c, now, Committed(n.token, n));
    assert Transition(w.watch.fence, e, c.binding, c.authority) == OnCommitted(w.watch.fence, n.token, n, c.binding);
  }

  lemma NoteAndRow(c: Config, k: Core, id: int)
    requires CoreOk(c, k) && id in k.durable && k.durable[id].note.Some? && k.durable[id].note.value.token in k.attempts
    ensures var n := k.durable[id].note.value;
      && n.token in k.admitted && n.binding == c.binding
      && n.worker == k.attempts[n.token].worker && n.epoch == k.attempts[n.token].epoch
  {
    assert NoteOk(c, k, id, k.durable[id]);
    assert VerdictOk(c, k, k.durable[id].note.value.token);
  }
}
