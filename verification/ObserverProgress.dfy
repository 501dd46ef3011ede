/**
 What the observer owes the journal: one ATTEMPT for a transaction that writes trades, ROLLED_BACK for one
 that goes away with no COMMIT ever started, and silence where a failure is on record.
 */
module ObserverProgress {
  import opened Wrappers
  import opened Fence
  import opened Observer
  import opened ObserverRuns
  import opened ObserverSafety
  import opened ObserverFate

  // ---------- admission ----------

  /** The journal takes attempts of this worker: it is enrolled, and under authority so is everyone. */
  ghost predicate Admits(c: Config, s: State) {
    c.worker in s.workers && (c.authority.Some? ==> forall w :: w in c.binding.workers <==> w in s.workers)
  }

  lemma AdmitsIff(c: Config, s: State, t: Token, now: int)
    requires t !in s.attempts
    ensures var r := Transition(s, Ev(c, now, Attempt(t, c.worker, s.epoch, None)), c.binding, c.authority);
      && (r.Ok? <==> Admits(c, s))
      && (r.Ok? ==> r.value == s.(attempts := s.attempts[t := AttemptRow(c.worker, s.epoch, None, now, Outstanding, None)]))
  {
    if forall w :: w in c.binding.workers <==> w in s.workers {
      assert forall w :: w in WorkerSet(c.binding.workers) <==> w in s.workers;
    }
  }

  /**
   The first flush that writes trades admits the outer transaction, whatever savepoint it runs in: one
   outstanding attempt of this worker in the journal's epoch - if the flush callback works and the journal
   takes attempts, and only then.
   */
  lemma FirstFlushAdmits(c: Config, w: World, f: Flush)
    requires Alive(w) && FreshFlush(w, f) && f.dirty && f.facts != [] && !Silent(w.watch) && w.watch.obs.token.None?
    ensures var n := Next(c, w, Insert(f));
      && (f.token in n.watch.fence.attempts <==> f.before.Fine? && Admits(c, w.watch.fence))
      && (f.token in n.watch.fence.attempts ==>
            && n.watch.fence.attempts[f.token] == AttemptRow(c.worker, w.watch.fence.epoch, None, f.now, Outstanding, None)
            && n.watch.obs.token == Some(f.token) && f.token in n.admitted && n.admitted[f.token] == w.levels[0].id)
      && n.watch.fence.attempts.Keys - {f.token} == w.watch.fence.attempts.Keys
  {
    hide BeforeFlush, AfterFlush, FlushUnseen, Admits, ById, FreshFlush;
    assert f.token !in w.watch.fence.attempts && f.token !in w.admitted by { TokenIsFresh(w, f); }
    FirstBefore(c, w.watch, f);
    AfterAside(Begun(c, w, f).watch, NestedId(w.levels), f.after, f.reach, f.half);
  }

  lemma TokenIsFresh(w: World, f: Flush)
    requires FreshFlush(w, f)
    ensures f.token !in w.watch.fence.attempts && f.token !in w.admitted
  {
  }

  lemma FirstBefore(c: Config, w: Watch, f: Flush)
    requires f.token !in w.fence.attempts && f.facts != [] && !Silent(w) && w.obs.token.None?
    ensures var w' := BeforeFlush(c, w, f.facts, f.token, f.now, f.before); var rows := w'.fence.attempts;
      && (f.token in rows <==> f.before.Fine? && Admits(c, w.fence))
      && (f.token in rows ==>
            rows[f.token] == AttemptRow(c.worker, w.fence.epoch, None, f.now, Outstanding, None) && w'.obs.token == Some(f.token))
      && rows.Keys - {f.token} == w.fence.attempts.Keys
  {
    hide Transition, Admits;
    AdmitsIff(c, w.fence, f.token, f.now);
  }

  /** Detaching touches neither the attempts nor the token nor the flags. */
  lemma AfterAside(w: Watch, nested: Option<int>, fault: Fault, reach: nat, half: bool)
    ensures var w' := AfterFlush(w, nested, fault, reach, half);
      && w'.fence.attempts == w.fence.attempts && w'.obs.token == w.obs.token
      && SameFlags(w.obs, w'.obs)
  {
    hide ById, OwnersOf, Stored, Reached;
  }

  /** Once admitted, a transaction is not admitted again; and a flush without trades admits nothing. */
  lemma AdmittedOnce(c: Config, w: World, f: Flush)
    requires Alive(w) && FreshFlush(w, f) && (w.watch.obs.token.Some? || f.facts == [] || !f.dirty || Silent(w.watch))
    ensures var n := Next(c, w, Insert(f));
      n.watch.fence.attempts == w.watch.fence.attempts && n.watch.obs.token == w.watch.obs.token && n.admitted == w.admitted
  {
    hide BeforeFlush, AfterFlush, FlushUnseen, ById, FreshFlush, Silent;
    LaterBefore(c, w.watch, f);
    AfterAside(Begun(c, w, f).watch, NestedId(w.levels), f.after, f.reach, f.half);
  }

  lemma LaterBefore(c: Config, w: Watch, f: Flush)
    ensures w.obs.token.Some? || f.facts == [] || Silent(w) ==>
      var w' := BeforeFlush(c, w, f.facts, f.token, f.now, f.before);
      w'.fence.attempts == w.fence.attempts && w'.obs.token == w.obs.token
  {
    hide Transition;
  }

  // ---------- the end of a transaction without a commit ----------

  /** Nothing of the transaction's own: neither its end, nor a COMMIT sent, nor a crash. */
  predicate Within(s: Step) {
    !(s.Abandon? || s.Commit? || s.Crash? || s.BeginOuter?)
  }

  lemma StepStarts(c: Config, w: World, s: Step)
    requires Enabled(c, w, s) && Within(s)
    ensures var n := Next(c, w, s);
      && (n.watch.obs.commitStarted <==> w.watch.obs.commitStarted || s.CommitFlushFails?)
      && n.watch.obs.endedUnknown == w.watch.obs.endedUnknown
  {
    hide BeforeFlush, AfterFlush, FlushUnseen, AfterRelease, AfterNestedRollback, Report, Controlled, Transition, Merged, ById,
         FreshFlush, Recovered, Silent;
    match s
    case Insert(f) =>
      BeforeFlags(c, w.watch, f);
      AfterAside(Begun(c, w, f).watch, NestedId(w.levels), f.after, f.reach, f.half);
    case InsertFails(f, sub, soft) =>
      BeforeFlags(c, w.watch, f);
      NestedFlags(Begun(c, w, f).watch, sub, soft);
    case Release(fault) => ReleaseFlags(w.watch, Top(w.levels).id, w.levels[|w.levels| - 2].id, fault);
    case RollbackTo(fault) => NestedFlags(w.watch, Top(w.levels).id, fault);
    case CommitFlushFails(f, sub, soft) =>
      BeforeFlags(c, Starting(w).watch, f);
      NestedFlags(Begun(c, Starting(w), f).watch, sub, soft);
    case Recover(pass, id, now, sink) => RecoveredRows(c, w.watch, now, w.durable[id].note.value, sink);
    case ProcessFault(message, sink) => ReportAside(w.watch, message, sink);
    case Tick(sink) => ControlledAside(w.watch, sink);
    case _ =>
  }

  lemma BeforeFlags(c: Config, w: Watch, f: Flush)
    ensures SameFlags(w.obs, BeforeFlush(c, w, f.facts, f.token, f.now, f.before).obs)
  {
    hide Transition;
  }

  lemma NestedFlags(w: Watch, previous: int, fault: Fault)
    ensures SameFlags(w.obs, AfterNestedRollback(w, previous, fault).obs)
  {
  }

  lemma ReleaseFlags(w: Watch, child: int, parent: int, fault: Fault)
    ensures SameFlags(w.obs, AfterRelease(w, child, parent, fault).obs)
  {
  }

  /** The flag says that a COMMIT was started: only a COMMIT whose own flush failed leaves its transaction open. */
  lemma {:induction false} StartedIff(c: Config, w: World, steps: seq<Step>)
    requires Possible(c, w, steps) && forall i :: 0 <= i < |steps| ==> Within(steps[i])
    ensures var v := Run(c, w, steps);
      && (v.watch.obs.commitStarted <==> w.watch.obs.commitStarted || exists i :: 0 <= i < |steps| && steps[i].CommitFlushFails?)
      && v.watch.obs.endedUnknown == w.watch.obs.endedUnknown
    decreases |steps|
  {
    hide Enabled, Next, Within;
    if steps != [] {
      StepStarts(c, w, steps[0]);
      StartedIff(c, Next(c, w, steps[0]), steps[1..]);
      if exists i :: 0 <= i < |steps| && steps[i].CommitFlushFails? {
        var i :| 0 <= i < |steps| && steps[i].CommitFlushFails?;
        if i > 0 {
          assert steps[1..][i - 1].CommitFlushFails?;
        }
      }
    }
  }

  /** The end of the transaction was noted before its rollback is reported. */
  predicate EndNoted(l: Leave) {
    l.how.EndThenSoft? && l.end.Fine?
  }

  /**
   A transaction goes away and the outer rollback callback works.  Its outstanding attempt is journaled
   ROLLED_BACK exactly when no COMMIT was started for it - provided the end of the transaction was noted
   first, or no flag of an earlier transaction is left standing.  Where only the end is heard of, nothing
   is journaled.
   */
  lemma AbandonedIsRolledBackIff(c: Config, w: World, l: Leave, t: Token)
    requires w.levels != [] && !Silent(w.watch) && w.watch.obs.token == Some(t)
    requires t in w.watch.fence.attempts && w.watch.fence.attempts[t].fate == Outstanding
    requires l.how.EndOnly? || l.soft.Fine?
    ensures var n := Next(c, w, Abandon(l));
      && t in n.watch.fence.attempts
      && (n.watch.fence.attempts[t].fate == WasRolledBack <==>
            !l.how.EndOnly? && !w.watch.obs.commitStarted && (EndNoted(l) || !w.watch.obs.endedUnknown))
      && n.watch.fence.attempts == w.watch.fence.attempts[t := n.watch.fence.attempts[t]]
      && n.watch.fence.attempts[t].fate in {Outstanding, WasRolledBack}
  {
    hide AfterRootEnd, AfterRootRollback, Cleared, Silent;
    var w1 := AfterRootEnd(w.watch, l.end);
    EndLeaves(w.watch, l.end, t);
    match l.how
    case EndThenSoft => SoftReports(c, w1, l.now, l.soft, t);
    case SoftThenEnd =>
      SoftReports(c, w.watch, l.now, l.soft, t);
      EndAside(AfterRootRollback(c, w.watch, l.now, l.soft), l.end);
    case EndOnly => EndAside(w.watch, l.end);
  }

  /** What the end callback leaves for the rollback callback to report. */
  lemma EndLeaves(w: Watch, fault: Fault, t: Token)
    requires !Silent(w) && w.obs.token == Some(t)
    ensures var w' := AfterRootEnd(w, fault);
      && !Silent(w') && w'.fence.attempts == w.fence.attempts && Resolving(w'.obs) == Some(t)
      && (w'.obs.commitStarted || w'.obs.endedUnknown <==> w.obs.commitStarted || (!fault.Fine? && w.obs.endedUnknown))
  {
  }

  lemma EndAside(w: Watch, fault: Fault)
    ensures AfterRootEnd(w, fault).fence.attempts == w.fence.attempts
  {
  }

  lemma SoftReports(c: Config, w: Watch, now: int, fault: Fault, t: Token)
    requires !Silent(w) && fault.Fine? && Resolving(w.obs) == Some(t)
    requires t in w.fence.attempts && w.fence.attempts[t].fate == Outstanding
    ensures AfterRootRollback(c, w, now, fault).fence.attempts ==
      if w.obs.commitStarted || w.obs.endedUnknown then w.fence.attempts
      else w.fence.attempts[t := w.fence.attempts[t].(fate := WasRolledBack)]
  {
    hide Transition;
    RollsBack(c, w.fence, t, now);
  }

  lemma RollsBack(c: Config, s: State, t: Token, now: int)
    requires t in s.attempts && s.attempts[t].fate == Outstanding
    ensures Transition(s, Ev(c, now, RolledBack(t)), c.binding, c.authority)
         == Ok(s.(attempts := s.attempts[t := s.attempts[t].(fate := WasRolledBack)]))
  {
  }

  /**
   Over every run of one transaction, from the first step after it was opened with clean flags: abandoned
   with a working rollback callback, its outstanding attempt is ROLLED_BACK if and only if no COMMIT was
   started in it.
   */
  lemma CleanRollbackIsJournaled(c: Config, w: World, steps: seq<Step>, l: Leave, t: Token)
    requires Possible(c, w, steps) && (forall i :: 0 <= i < |steps| ==> Within(steps[i]))
    requires !w.watch.obs.commitStarted && (EndNoted(l) || !w.watch.obs.endedUnknown)
    requires !l.how.EndOnly? && l.soft.Fine?
    requires var v := Run(c, w, steps);
      && v.levels != [] && !Silent(v.watch) && v.watch.obs.token == Some(t)
      && t in v.watch.fence.attempts && v.watch.fence.attempts[t].fate == Outstanding
    ensures var n := Next(c, Run(c, w, steps), Abandon(l));
      t in n.watch.fence.attempts
      && (n.watch.fence.attempts[t].fate == WasRolledBack <==> forall i :: 0 <= i < |steps| ==> !steps[i].CommitFlushFails?)
  {
    hide Possible, Run, Next, Within;
    StartedIff(c, w, steps);
    AbandonedIsRolledBackIff(c, Run(c, w, steps), l, t);
  }

  /**
   A flag left standing: after an acknowledged COMMIT no rollback callback clears it, so where the next
   transaction's rollback is reported before - or without - its end being noted, its attempt stays
   outstanding although no COMMIT was started.
   */
  lemma StandingFlagHidesRollback(c: Config, w: World, g: Flush, noting: Fault, sink: Sink)
    requires |w.levels| == 1 && !g.dirty && !Silent(w.watch)
    ensures var n := Committing(c, w, g, noting, Acknowledged, Leave(EndOnly, 0, Fine(sink), Fine(sink)));
      n.watch.obs.endedUnknown && !n.watch.obs.commitStarted && n.watch.obs.token.None?
  {
    hide Listing, Taken;
  }

  // ---------- silence ----------

  // ---------- failures and silence ----------

  /** What `invalidate` leaves: the process's record, the ERROR if it could be journaled, the latch if it could be stored. */
  predicate Recorded(w: Watch, w': Watch, message: string, sink: Sink) {
    && w'.localError == Some(message)
    && w'.fence == w.fence.(error := if sink.journaled then Some(message) else w.fence.error)
    && (w'.latched <==> w.latched || sink.stored)
  }

  predicate SameRecord(w: Watch, w': Watch) {
    w'.localError == w.localError && w'.fence.error == w.fence.error && w'.latched == w.latched
  }

  /** A callback that raised is on record with its message; one that did not leaves the record as it was. */
  predicate Told(w: Watch, w': Watch, fault: Fault) {
    if fault.Fine? then SameRecord(w, w') else Recorded(w, w', fault.message, fault.sink)
  }

  /**
   A listening observer records a failure exactly where a callback of it failed: each one that raises is in
   the process's record at once, in the journal if the append works, and in the latch if it can be stored.
   A commit whose token the journal does not know is such a failure too, unless one is on record already.
   */
  lemma FailuresAreRecorded(c: Config, w: Watch, fault: Fault, a: int, b: int, nested: Option<int>, reach: nat, half: bool, now: int)
    requires !Silent(w)
    ensures w.obs.candidates != [] ==> Told(w, AfterFlush(w, nested, fault, reach, half), fault)
    ensures Told(w, AfterRelease(w, a, b, fault), fault) && Told(w, AfterNestedRollback(w, a, fault), fault)
    ensures Told(w, AfterRootEnd(w, fault), fault)
    ensures !fault.Fine? ==> Told(w, AfterRootRollback(c, w, now, fault), fault)
    ensures
      var unknown := w.obs.token.Some? && !(w.localError.Some? && w.localError.value != "")
                     && !(w.fence.error.Some? && w.fence.error.value != "") && w.obs.token.value !in w.fence.attempts;
      if unknown then Recorded(w, AfterWitness(w, fault), MISSING_ATTEMPT, fault.sink) else Told(w, AfterWitness(w, fault), fault)
    ensures AfterWitness(w, fault).obs == w.obs
  {
  }

  /** A flush that writes trades is on record as failed exactly where its callback raised or the journal refused its attempt. */
  lemma FlushIsRecorded(c: Config, w: Watch, f: Flush)
    requires !Silent(w) && f.facts != []
    ensures var w' := BeforeFlush(c, w, f.facts, f.token, f.now, f.before);
      var refused := w.obs.token.None? && f.before.Fine?
                     && Transition(w.fence, Ev(c, f.now, Attempt(f.token, c.worker, w.fence.epoch, None)), c.binding, c.authority).Err?;
      if refused then Recorded(w, w', REFUSED_EVENT, f.before.sink)
      else if !f.before.Fine? then Recorded(w, w', f.before.message, f.before.sink)
      else w'.localError == w.localError && w'.latched == w.latched
  {
    hide Transition;
  }

  /** Retired, or the journal archived: no callback and no report changes anything. */
  lemma SilenceChangesNothing(
    c: Config, w: Watch, f: Flush, fault: Fault, a: int, b: int, nested: Option<int>, reach: nat, half: bool, now: int,
    message: string, sink: Sink)
    requires w.retired || w.fence.archive.Some?
    ensures BeforeFlush(c, w, f.facts, f.token, f.now, f.before) == w && AfterFlush(w, nested, fault, reach, half) == w
    ensures AfterWitness(w, fault) == w && WitnessOf(c, w, fault).None?
    ensures AfterRelease(w, a, b, fault) == w && AfterNestedRollback(w, a, fault) == w
    ensures AfterRootRollback(c, w, now, fault) == w && AfterRootEnd(w, fault) == w
    ensures w.fence.archive.Some? ==> Report(w, message, sink) == w
    ensures w.retired ==> Controlled(w, sink) == w
  {
    hide Transition;
  }

  /** A failure reported by another part of the process. */
  lemma ReportIsRecorded(c: Config, w: World, message: string, sink: Sink)
    ensures var w' := Next(c, w, ProcessFault(message, sink)).watch;
      if w.watch.fence.archive.Some? then w' == w.watch else Recorded(w.watch, w', message, sink)
  {
  }

  /** A control tick retires a listening observer exactly where a failure is on record or the journal archived. */
  lemma TickRetiresIff(c: Config, w: World, sink: Sink)
    requires !w.watch.retired
    ensures Next(c, w, Tick(sink)).watch.retired <==>
      || (w.watch.localError.Some? && w.watch.localError.value != "")
      || (w.watch.fence.error.Some? && w.watch.fence.error.value != "")
      || w.watch.latched || w.watch.fence.archive.Some?
  {
  }

  /** A new process observes exactly where no latch is stored and the journal is not failed. */
  lemma RestartObservesIff(c: Config, w: World, sink: Sink)
    ensures var n := Next(c, w, Crash(sink));
      && (!n.watch.retired <==> !w.watch.latched && !(w.watch.fence.error.Some? && w.watch.fence.error.value != ""))
      && n.watch.obs == IDLE && n.levels == [] && (!n.watch.retired ==> n.watch.localError.None?)
  {
  }
}
