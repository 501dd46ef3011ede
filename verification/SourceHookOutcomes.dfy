/**
 When each operation of the hook succeeds, in terms of the state before it; and what must have happened
 before a stream is active, has committed or has ended.
 */
module SourceHookOutcomes {
  import opened Wrappers
  import opened SourceHook
  import opened SourceHookRuns

  /** What a healthy hook asks of its caller, its clock and its files before an operation goes through. */
  ghost predicate Proper(b: Binding, h: Hook, step: Step) {
    match step
    case Enroll(w, sink) => sink && !h.active && (w == Ingestion || w == Execution)
    case Arm(now, _, sink) =>
      sink && b.synthetic && !h.active && now <= b.start && (forall w :: w in h.writers <==> w == Ingestion || w == Execution)
    case Start(w, _, sink) => sink && h.active && !h.ended && w in h.writers
    case Intend(t, _, sink) => sink && t in h.pending
    case Done(t, trades, decisions, _, _, sink, ackSink) =>
      if t in h.commits then
        h.commits[t].body.CommitBody? && h.commits[t].body.trades == trades && h.commits[t].body.decisions == decisions
      else sink && ackSink && t in h.pending && h.pending[t].before.Some?
    case Undo(t, sink) => sink && t in h.pending
    case Finish(now, _, sink, stopSink) =>
      sink && stopSink && h.active && !h.ended && (forall t :: t !in h.pending) && now >= b.end
    case _ => false
  }

  predicate Operation(step: Step) {
    !(step.Die? || step.DieBeforeAck? || step.DieBeforeStop? || step.DieMidAppend?)
  }

  /**
   An operation leaves the hook healthy exactly when it was healthy and the operation was proper; a failure
   is latched for good.
   */
  lemma HealthyIffProper(b: Binding, s: Store, step: Step)
    requires Operation(step)
    ensures Next(b, s, step).hook.healthy <==> s.hook.healthy && Proper(b, s.hook, step)
    ensures s.hook.healthy && !Next(b, s, step).hook.healthy ==> Next(b, s, step).disk.latched
    ensures s.disk.latched ==> Next(b, s, step).disk.latched
  {
    if step.Arm? {
      BothWriters(s.hook.writers);
    } else if step.Finish? {
      NonePending(s.hook.pending);
    }
  }

  lemma BothWriters(ws: set<Writer>)
    ensures ws == WRITERS <==> forall w :: w in ws <==> w == Ingestion || w == Execution
  {
  }

  lemma NonePending(p: map<Token, Intent>)
    ensures |p| == 0 <==> forall t :: t !in p
  {
    assert (forall t :: t !in p) ==> p == map[];
  }

  /** What the enrolments and the activation leave: one writer more; one frame and an active stream. */
  lemma SetupEffects(b: Binding, s: Store, step: Step)
    requires s.hook.healthy && Proper(b, s.hook, step)
    ensures step.Enroll? ==>
      Next(b, s, step) == Store(s.hook.(writers := s.hook.writers + {step.writer}),
                                s.disk.(controls := s.disk.controls + [Register(step.writer)]))
    ensures step.Arm? ==>
      Next(b, s, step) == Store(
        s.hook.(active := true, cursor := s.hook.cursor + 1),
        s.disk.(frames := s.disk.frames + [Frame(b, s.hook.cursor + 1, s.hook.cursor, step.observed, Activation)]))
  {
    BothWriters(s.hook.writers);
  }

  /** What the steps of a transaction leave: it is pending, intended, committed at the next cursor, or gone. */
  lemma TransactionEffects(b: Binding, s: Store, step: Step)
    requires s.hook.healthy && Proper(b, s.hook, step)
    ensures step.Start? ==>
      Next(b, s, step) == Store(s.hook.(pending := s.hook.pending[step.token := Intent(step.writer, None)]),
                                s.disk.(controls := s.disk.controls + [Begin(step.token, step.writer)]))
    ensures step.Intend? ==>
      Next(b, s, step) == Store(
        s.hook.(pending := s.hook.pending[step.token := Intent(s.hook.pending[step.token].writer, Some(step.now))]),
        s.disk.(controls := s.disk.controls + [BeforeCommit(step.token, step.now)]))
    ensures step.Undo? ==>
      Next(b, s, step) == Store(s.hook.(pending := s.hook.pending - {step.token}),
                                s.disk.(controls := s.disk.controls + [RollbackAck(step.token)]))
    ensures step.Done? && step.token in s.hook.commits ==> Next(b, s, step) == s
    ensures step.Done? && step.token !in s.hook.commits ==>
      var t, n := step.token, s.hook.cursor + 1;
      var f := Frame(b, n, s.hook.cursor, step.observed,
                     CommitBody(t, step.trades, step.decisions, s.hook.pending[t].before.value, step.after));
      Next(b, s, step) == Store(
        s.hook.(cursor := n, commits := s.hook.commits[t := f], pending := s.hook.pending - {t}),
        s.disk.(frames := s.disk.frames + [f], controls := s.disk.controls + [CommitAck(t, n)]))
  {
  }

  /** What the end leaves: a fence frame through the last cursor, and the owner's stop at its own. */
  lemma FinishEffects(b: Binding, s: Store, step: Step)
    requires s.hook.healthy && Proper(b, s.hook, step) && step.Finish?
    ensures var n := s.hook.cursor + 1;
      Next(b, s, step) == Store(
        s.hook.(cursor := n, ended := true),
        s.disk.(frames := s.disk.frames + [Frame(b, n, s.hook.cursor, step.observed, EndFence(EndNote(s.hook.writers, 0, s.hook.cursor)))],
                controls := s.disk.controls + [OwnerStop(n)]))
  {
    NonePending(s.hook.pending);
  }

  /** Everything was in order but the acknowledgement behind the frame. */
  ghost predicate FrameOnly(b: Binding, s: Store, step: Step) {
    s.hook.healthy && match step
    case Done(t, _, _, _, _, sink, ackSink) =>
      sink && !ackSink && t !in s.hook.commits && t in s.hook.pending && s.hook.pending[t].before.Some?
    case Finish(now, _, sink, stopSink) =>
      sink && !stopSink && s.hook.active && !s.hook.ended && (forall t :: t !in s.hook.pending) && now >= b.end
    case _ => false
  }

  /**
   What any other operation leaves: nothing but the failure - no line in either journal, no writer, token,
   commit or cursor moved - unless only the acknowledgement was missing, and then the frame alone.
   */
  lemma RefusalEffects(b: Binding, s: Store, step: Step)
    requires Operation(step) && !(s.hook.healthy && Proper(b, s.hook, step))
    ensures var n := Next(b, s, step);
      && !n.hook.healthy && (s.hook.healthy ==> n.disk.latched)
      && (!FrameOnly(b, s, step) ==>
            n == Store(s.hook.(healthy := false), s.disk.(latched := n.disk.latched)))
      && (FrameOnly(b, s, step) && step.Finish? ==>
            n == Store(s.hook.(healthy := false, cursor := s.hook.cursor + 1),
                       s.disk.(latched := true, frames := n.disk.frames))
            && n.disk.frames == s.disk.frames
               + [Frame(b, s.hook.cursor + 1, s.hook.cursor, step.observed, EndFence(EndNote(s.hook.writers, 0, s.hook.cursor)))])
      && (FrameOnly(b, s, step) && step.Done? ==>
            var t := step.token;
            var f := Frame(b, s.hook.cursor + 1, s.hook.cursor, step.observed,
                           CommitBody(t, step.trades, step.decisions, s.hook.pending[t].before.value, step.after));
            n == Store(s.hook.(healthy := false, cursor := s.hook.cursor + 1, commits := s.hook.commits[t := f]),
                       s.disk.(latched := true, frames := s.disk.frames + [f])))
  {
    if step.Arm? {
      BothWriters(s.hook.writers);
    } else if step.Finish? {
      NonePending(s.hook.pending);
    }
  }

  // ---------- over every run ----------

  /** An activation went through: the stream synthetic, the start not past, both writers enrolled. */
  ghost predicate ArmedAt(b: Binding, s: Store, steps: seq<Step>, i: nat)
    requires i < |steps|
  {
    && steps[i].Arm? && steps[i].now <= b.start && b.synthetic
    && Run(b, s, steps[..i]).hook.writers == WRITERS && !Run(b, s, steps[..i]).hook.active
  }

  lemma {:induction false} RunSplits(b: Binding, s: Store, steps: seq<Step>, last: Step)
    ensures Run(b, s, steps + [last]) == Next(b, Run(b, s, steps), last)
    decreases |steps|
  {
    hide Next;
    if steps == [] {
      assert [last][1..] == [];
    } else {
      assert (steps + [last])[1..] == steps[1..] + [last];
      RunSplits(b, Next(b, s, steps[0]), steps[1..], last);
    }
  }

  lemma ActiveStep(b: Binding, s: Store, now: int, step: Step)
    requires Sound(b, s, now) && Enabled(b, s, now, step) && Next(b, s, step).hook.active && !s.hook.active
    ensures step.Arm? && step.now <= b.start && b.synthetic && s.hook.writers == WRITERS
  {
    hide FoldControls, FoldFrames, Twice, Conclude;
    match step
    case Die => RestoredActive(b, s, now);
    case DieBeforeAck(t, trades, decisions, after, observed) => PendingMeansActive(b, s, now);
    case DieBeforeStop(at, observed) =>
    case DieMidAppend => TornRefuses(b, s.disk.(torn := true));
    case _ =>
  }

  /** A restart is no more active than the process it follows. */
  lemma RestoredActive(b: Binding, s: Store, now: int)
    requires Sound(b, s, now)
    ensures Restarted(b, s.disk).hook.active ==> s.hook.active
  {
    hide FoldControls, FoldFrames, Twice, RestoreOf, Mirrors;
    if s.hook.healthy {
      RestartIff(b, s, now);
    } else {
      LatchedRefuses(b, s.disk);
    }
  }

  /** Over every run, deaths included: a stream is active only if it was activated, no later than its window starts. */
  lemma {:induction false} ActiveWasArmed(b: Binding, now: int, steps: seq<Step>)
    requires Possible(b, Fresh(b), now, steps) && Run(b, Fresh(b), steps).hook.active
    ensures exists i :: 0 <= i < |steps| && ArmedAt(b, Fresh(b), steps, i)
    decreases |steps|
  {
    hide Enabled, Next, Clock, Sound;
    if steps != [] {
      var n := |steps| - 1;
      var init := steps[..n];
      assert steps == init + [steps[n]];
      PossiblePrefix(b, Fresh(b), now, init, steps[n]);
      RunSplits(b, Fresh(b), init, steps[n]);
      var s := Run(b, Fresh(b), init);
      if s.hook.active {
        ActiveWasArmed(b, now, init);
        var i :| 0 <= i < n && ArmedAt(b, Fresh(b), init, i);
        assert init[..i] == steps[..i];
        assert ArmedAt(b, Fresh(b), steps, i);
      } else {
        FreshIsSound(b, now);
        RunKeepsSound(b, Fresh(b), now, init);
        ActiveStep(b, s, ClockAfter(now, init), steps[n]);
        assert ArmedAt(b, Fresh(b), steps, n);
      }
    }
  }

  lemma {:induction false} PossiblePrefix(b: Binding, s: Store, now: int, steps: seq<Step>, last: Step)
    requires Possible(b, s, now, steps + [last])
    ensures Possible(b, s, now, steps) && Enabled(b, Run(b, s, steps), ClockAfter(now, steps), last)
    decreases |steps|
  {
    hide Enabled, Next, Clock;
    if steps == [] {
      assert [last][1..] == [];
    } else {
      assert (steps + [last])[1..] == steps[1..] + [last] && (steps + [last])[0] == steps[0];
      PossiblePrefix(b, Next(b, s, steps[0]), Clock(now, steps[0]), steps[1..], last);
    }
  }
}
