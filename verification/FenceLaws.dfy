/** What every accepted fence journal keeps, and what a completed fence fixes for good. */
module FenceLaws {
  import opened Wrappers
  import opened Fence

  // ---------- the invariant ----------

  /** One attempt: admitted in a known epoch; a commit carries exactly its own witness. */
  ghost predicate RowOk(t: Token, row: AttemptRow, epoch: int, b: Binding) {
    && 0 <= row.epoch <= epoch
    && (row.fate == WasCommitted <==> row.evidence.Some?)
    && (row.evidence.Some? ==>
          var w := row.evidence.value;
          && w.token == t && w.binding == b && w.worker == row.worker && w.epoch == row.epoch && DistinctFacts(w.trades)
          && (row.epoch > 0 ==> forall i :: 0 <= i < |w.trades| ==> w.trades[i].ingested > b.end))
  }

  ghost predicate StateOk(s: State, b: Binding) {
    && s.epoch == (if s.closed.Some? then 1 else 0)
    && (forall t :: t in s.attempts ==> RowOk(t, s.attempts[t], s.epoch, b))
    && s.acks <= s.workers <= WorkerSet(b.workers)
    && (s.receipt.Some? ==>
          && s.closed.Some? && s.acks == WorkerSet(b.workers)
          && EpochZero(s.attempts, Outstanding) == {}
          && s.receipt.value.payload == FenceDone(ReceiptOf(s, b)))
    && (s.population.Some? ==>
          && s.receipt.Some? && s.population.value.payload.Freeze?
          && Population(s, b) == Some(s.population.value.payload.facts))
    && (s.archive.Some? ==> s.population.Some?)
  }

  // ---------- what an event leaves alone ----------

  /** Epoch-0 attempts and the population they determine are the same in both states. */
  ghost predicate SameClosedPart(s: State, s': State, b: Binding) {
    && (forall t :: t in s.attempts && s.attempts[t].epoch == 0 ==> t in s'.attempts && s'.attempts[t] == s.attempts[t])
    && (forall t :: t in s'.attempts && s'.attempts[t].epoch == 0 ==> t in s.attempts && s.attempts[t].epoch == 0)
    && (forall t :: t in s.attempts && s.attempts[t].epoch > 0 ==> FactsOf(s.attempts[t], b) == {})
    && (forall t :: t in s'.attempts && s'.attempts[t].epoch > 0 ==> FactsOf(s'.attempts[t], b) == {})
  }

  /** A post-close attempt contributes nothing: its facts were all ingested after the window. */
  lemma LateRowContributesNothing(t: Token, row: AttemptRow, epoch: int, b: Binding)
    requires RowOk(t, row, epoch, b) && row.epoch > 0
    ensures FactsOf(row, b) == {}
  {
  }

  lemma SameFactsSamePopulation(s: State, s': State, b: Binding)
    requires forall t, f :: InPopulation(s, b, t, f) <==> InPopulation(s', b, t, f)
    ensures Population(s, b) == Population(s', b)
  {
    ContestedTransfers(s, s', b);
    ContestedTransfers(s', s, b);
    assert AllFacts(s, b) == AllFacts(s', b);
  }

  lemma ContestedTransfers(s: State, s': State, b: Binding)
    requires forall t, f :: InPopulation(s, b, t, f) <==> InPopulation(s', b, t, f)
    ensures Contested(s, b) ==> Contested(s', b)
  {
    if Contested(s, b) {
      var t, t' :| t in s.attempts && t' in s.attempts && Clash(FactsOf(s.attempts[t], b), FactsOf(s.attempts[t'], b), t == t');
      var f, f' :| f in FactsOf(s.attempts[t], b) && f' in FactsOf(s.attempts[t'], b) && f.recordId == f'.recordId && (t != t' || f != f');
      assert InPopulation(s, b, t, f) && InPopulation(s, b, t', f');
      assert Clash(FactsOf(s'.attempts[t], b), FactsOf(s'.attempts[t'], b), t == t');
    }
  }

  lemma SameClosedPartSamePopulation(s: State, s': State, b: Binding)
    requires SameClosedPart(s, s', b)
    requires forall t :: t in s.attempts ==> s.attempts[t].epoch >= 0
    requires forall t :: t in s'.attempts ==> s'.attempts[t].epoch >= 0
    ensures Population(s, b) == Population(s', b)
    ensures forall fate :: EpochZero(s.attempts, fate) == EpochZero(s'.attempts, fate)
  {
    forall t, f
      ensures InPopulation(s, b, t, f) <==> InPopulation(s', b, t, f)
    {
    }
    SameFactsSamePopulation(s, s', b);
  }

  lemma SameCountsSameReceipt(s: State, s': State, b: Binding)
    requires forall fate :: EpochZero(s.attempts, fate) == EpochZero(s'.attempts, fate)
    requires s.acks == s'.acks && s.closed == s'.closed
    ensures ReceiptOf(s, b) == ReceiptOf(s', b)
  {
    assert Count(s.attempts, Outstanding) == Count(s'.attempts, Outstanding);
    assert Count(s.attempts, WasCommitted) == Count(s'.attempts, WasCommitted);
    assert Count(s.attempts, WasRolledBack) == Count(s'.attempts, WasRolledBack);
  }

  ghost predicate RowsOk(s: State, b: Binding) {
    forall t :: t in s.attempts ==> RowOk(t, s.attempts[t], s.epoch, b)
  }

  /** Changing or adding one attempt row. */
  lemma RowChangeKeepsRows(s: State, t: Token, row: AttemptRow, b: Binding)
    requires RowsOk(s, b) && RowOk(t, row, s.epoch, b)
    ensures RowsOk(s.(attempts := s.attempts[t := row]), b)
  {
  }

  lemma CommittedRowOk(s: State, t: Token, w: Witness, b: Binding)
    requires RowsOk(s, b) && OnCommitted(s, t, w, b).Ok?
    ensures RowsOk(OnCommitted(s, t, w, b).value, b)
  {
    hide DistinctFacts;
    var a := s.attempts[t];
    assert RowOk(t, a, s.epoch, b);
    RowChangeKeepsRows(s, t, a.(fate := WasCommitted, evidence := Some(w)), b);
  }

  lemma RolledBackRowOk(s: State, t: Token, b: Binding)
    requires RowsOk(s, b) && OnRolledBack(s, t).Ok?
    ensures RowsOk(OnRolledBack(s, t).value, b)
  {
    hide DistinctFacts;
    var a := s.attempts[t];
    assert RowOk(t, a, s.epoch, b);
    RowChangeKeepsRows(s, t, a.(fate := WasRolledBack), b);
  }

  lemma AttemptRowOk(
    s: State, e: Event, t: Token, w: Worker, ep: int, retry: Option<Token>, b: Binding, auth: Option<Authority>)
    requires RowsOk(s, b) && s.epoch >= 0 && OnAttempt(s, e, t, w, ep, retry, b, auth).Ok?
    ensures RowsOk(OnAttempt(s, e, t, w, ep, retry, b, auth).value, b)
  {
    RowChangeKeepsRows(s, t, AttemptRow(w, ep, retry, e.observed, Outstanding, None), b);
  }

  lemma CloseKeepsRows(s: State, e: Event, closing: int, next: int, b: Binding)
    requires RowsOk(s, b) && OnClose(s, e, closing, next, b).Ok?
    ensures RowsOk(OnClose(s, e, closing, next, b).value, b)
  {
    hide DistinctFacts;
    forall t | t in s.attempts
      ensures RowOk(t, s.attempts[t], s.epoch + 1, b)
    {
      assert RowOk(t, s.attempts[t], s.epoch, b);
    }
  }

  /** The part of the invariant that every event keeps on its own. */
  ghost predicate BaseOk(s: State, b: Binding) {
    s.epoch == (if s.closed.Some? then 1 else 0) && RowsOk(s, b) && s.acks <= s.workers <= WorkerSet(b.workers)
  }

  lemma TransitionKeepsBase(s: State, e: Event, b: Binding, auth: Option<Authority>)
    requires BaseOk(s, b) && Transition(s, e, b, auth).Ok?
    ensures BaseOk(Transition(s, e, b, auth).value, b)
  {
    hide RowsOk, OnCommitted, OnRolledBack, OnAttempt, FreezeOk, ReceiptOf;
    match e.payload
    case Attempt(t, w, ep, retry) =>
      AttemptRowOk(s, e, t, w, ep, retry, b, auth);
      OnlyAttemptsChange(s, e, b, auth);
    case Committed(t, w) =>
      CommittedRowOk(s, t, w, b);
      OnlyAttemptsChange(s, e, b, auth);
    case RolledBack(t) =>
      RolledBackRowOk(s, t, b);
      OnlyAttemptsChange(s, e, b, auth);
    case Close(closing, next) => CloseKeepsRows(s, e, closing, next, b);
    case Enroll(_, _) => SameAttemptsSameRows(s, Transition(s, e, b, auth).value, b);
    case Ack(_, _) => SameAttemptsSameRows(s, Transition(s, e, b, auth).value, b);
    case Archive(_, _) => SameAttemptsSameRows(s, Transition(s, e, b, auth).value, b);
    case Error(_) => SameAttemptsSameRows(s, Transition(s, e, b, auth).value, b);
    case FenceDone(_) => SameAttemptsSameRows(s, Transition(s, e, b, auth).value, b);
    case Freeze(_, _, _, _, _) => SameAttemptsSameRows(s, Transition(s, e, b, auth).value, b);
    case Arm(_) =>
    case Unknown =>
  }

  lemma SameAttemptsSameRows(s: State, s': State, b: Binding)
    requires RowsOk(s, b) && s'.attempts == s.attempts && s'.epoch == s.epoch
    ensures RowsOk(s', b)
  {
  }

  /** Admission and resolution change the attempts and nothing else. */
  lemma OnlyAttemptsChange(s: State, e: Event, b: Binding, auth: Option<Authority>)
    requires e.payload.Attempt? || e.payload.Committed? || e.payload.RolledBack?
    requires Transition(s, e, b, auth).Ok?
    ensures Transition(s, e, b, auth).value == s.(attempts := Transition(s, e, b, auth).value.attempts)
  {
  }

  /** Admission and resolution touch one row: a new one of this epoch, or an outstanding one that keeps its epoch. */
  lemma OneRowChanges(s: State, e: Event, b: Binding, auth: Option<Authority>)
    requires Transition(s, e, b, auth).Ok?
    ensures var s' := Transition(s, e, b, auth).value;
      s'.attempts == s.attempts ||
      exists t :: t in s'.attempts && s'.attempts == s.attempts[t := s'.attempts[t]]
        && (t !in s.attempts ==> s'.attempts[t].epoch == s.epoch)
        && (t in s.attempts ==> s.attempts[t].fate == Outstanding && s'.attempts[t].epoch == s.attempts[t].epoch)
  {
    hide FreezeOk, ReceiptOf, DistinctFacts, BeforeEnd, WorkerSet, Failed;
    var s' := Transition(s, e, b, auth).value;
    match e.payload
    case Attempt(t, w, ep, retry) => assert s'.attempts == s.attempts[t := s'.attempts[t]];
    case Committed(t, w) => assert s'.attempts == s.attempts[t := s'.attempts[t]];
    case RolledBack(t) => assert s'.attempts == s.attempts[t := s'.attempts[t]];
    case _ =>
  }

  /** Events other than the ones named leave the fence fields as they were. */
  lemma FencedStepKeepsFields(s: State, e: Event, b: Binding, auth: Option<Authority>)
    requires s.receipt.Some? && s.closed.Some? && s.workers <= s.acks && Transition(s, e, b, auth).Ok?
    ensures var s' := Transition(s, e, b, auth).value;
      && s'.receipt == s.receipt && s'.closed == s.closed && s'.acks == s.acks && s'.epoch == s.epoch
      && (s.population.Some? ==> s'.population == s.population)
      && (s'.population != s.population ==>
            && e.payload.Freeze? && s'.population == Some(e) && s'.attempts == s.attempts
            && FreezeOk(s, e.payload, b))
      && (s'.archive != s.archive ==> s.population.Some?)
  {
    hide FreezeOk, ReceiptOf, DistinctFacts, BeforeEnd, WorkerSet, Failed;
  }

  /** Once the fence is complete, no accepted event touches the closed epoch. */
  lemma FencedStepKeepsClosedPart(s: State, e: Event, b: Binding, auth: Option<Authority>)
    requires StateOk(s, b) && s.receipt.Some? && Transition(s, e, b, auth).Ok?
    ensures SameClosedPart(s, Transition(s, e, b, auth).value, b)
  {
    hide Transition, Population, ReceiptOf, FactsOf, EpochZero, WorkerSet;
    var s' := Transition(s, e, b, auth).value;
    assert RowsOk(s, b);
    TransitionKeepsBase(s, e, b, auth);
    FencedStepKeepsFields(s, e, b, auth);
    OneRowChanges(s, e, b, auth);
    LateRowsContributeNothing(s, b);
    LateRowsContributeNothing(s', b);
    NoneOutstandingInClosedEpoch(s, b);
  }

  lemma LateRowsContributeNothing(s: State, b: Binding)
    requires RowsOk(s, b)
    ensures forall t :: t in s.attempts && s.attempts[t].epoch > 0 ==> FactsOf(s.attempts[t], b) == {}
    ensures forall t :: t in s.attempts ==> s.attempts[t].epoch >= 0
  {
    hide FactsOf;
    forall t | t in s.attempts
      ensures s.attempts[t].epoch >= 0 && (s.attempts[t].epoch > 0 ==> FactsOf(s.attempts[t], b) == {})
    {
      assert RowOk(t, s.attempts[t], s.epoch, b);
      if s.attempts[t].epoch > 0 {
        LateRowContributesNothing(t, s.attempts[t], s.epoch, b);
      }
    }
  }

  lemma NoneOutstandingInClosedEpoch(s: State, b: Binding)
    requires EpochZero(s.attempts, Outstanding) == {}
    ensures forall t :: t in s.attempts && s.attempts[t].epoch == 0 ==> s.attempts[t].fate != Outstanding
  {
    forall t | t in s.attempts && s.attempts[t].epoch == 0
      ensures s.attempts[t].fate != Outstanding
    {
      assert s.attempts[t].fate == Outstanding ==> t in EpochZero(s.attempts, Outstanding);
    }
  }

  /** What a completed fence fixes: receipt, closed-epoch attempts, and the population. */
  ghost predicate SameFence(s: State, s': State, b: Binding) {
    && s'.receipt == s.receipt && s'.closed == s.closed && s'.acks == s.acks
    && (forall t :: t in s.attempts && s.attempts[t].epoch == 0 ==>
          t in s'.attempts && s'.attempts[t] == s.attempts[t] && s.attempts[t].fate != Outstanding)
    && (forall t :: t in s'.attempts && s'.attempts[t].epoch == 0 ==> t in s.attempts && s.attempts[t].epoch == 0)
    && Population(s', b) == Population(s, b)
    && ReceiptOf(s', b) == ReceiptOf(s, b)
    && (s.population.Some? ==> s'.population == s.population)
  }

  /** What a completed fence fixes, one accepted event at a time. */
  lemma FencedStepKeepsFence(s: State, e: Event, b: Binding, auth: Option<Authority>)
    requires StateOk(s, b) && s.receipt.Some? && s.archive.None? && Transition(s, e, b, auth).Ok?
    ensures StateOk(Transition(s, e, b, auth).value, b) && SameFence(s, Transition(s, e, b, auth).value, b)
  {
    hide Transition, Population, ReceiptOf, FactsOf, EpochZero, WorkerSet, RowOk, FreezeOk;
    var s' := Transition(s, e, b, auth).value;
    assert RowsOk(s, b);
    TransitionKeepsBase(s, e, b, auth);
    FencedStepKeepsFields(s, e, b, auth);
    FencedStepKeepsClosedPart(s, e, b, auth);
    LateRowsContributeNothing(s, b);
    LateRowsContributeNothing(s', b);
    SameClosedPartSamePopulation(s, s', b);
    SameCountsSameReceipt(s, s', b);
    NoneOutstandingInClosedEpoch(s, b);
    if s'.population != s.population {
      FrozenMatches(s, e, b);
    }
  }

  lemma FrozenMatches(s: State, e: Event, b: Binding)
    requires e.payload.Freeze? && s.receipt.Some? && FreezeOk(s, e.payload, b)
    ensures Population(s, b) == Some(e.payload.facts)
  {
  }

  /** Before the fence: only FENCE itself sets the receipt, and then everything is resolved. */
  lemma UnfencedStepKeepsOk(s: State, e: Event, b: Binding, auth: Option<Authority>)
    requires StateOk(s, b) && s.receipt.None? && s.archive.None? && Transition(s, e, b, auth).Ok?
    ensures StateOk(Transition(s, e, b, auth).value, b)
  {
    hide Population, FactsOf, EpochZero, WorkerSet, RowOk, FreezeOk, RowsOk, Count, ReceiptOf;
    var s' := Transition(s, e, b, auth).value;
    assert BaseOk(s, b) by { RowsFromState(s, b); }
    TransitionKeepsBase(s, e, b, auth);
    RowsToState(s', b);
    if e.payload.FenceDone? {
      NothingOutstanding(s, b);
      SameCountsSameReceipt(s, s', b);
    }
  }

  lemma RowsFromState(s: State, b: Binding)
    requires StateOk(s, b)
    ensures RowsOk(s, b)
  {
  }

  lemma RowsToState(s: State, b: Binding)
    requires RowsOk(s, b)
    ensures forall t :: t in s.attempts ==> RowOk(t, s.attempts[t], s.epoch, b)
  {
  }

  /** Every accepted event keeps the invariant. */
  lemma TransitionKeepsOk(s: State, e: Event, b: Binding, auth: Option<Authority>)
    requires StateOk(s, b) && s.archive.None? && Transition(s, e, b, auth).Ok?
    ensures StateOk(Transition(s, e, b, auth).value, b)
  {
    hide StateOk, Transition, SameFence;
    if s.receipt.Some? {
      FencedStepKeepsFence(s, e, b, auth);
    } else {
      UnfencedStepKeepsOk(s, e, b, auth);
    }
  }

  lemma NothingOutstanding(s: State, b: Binding)
    requires ReceiptOf(s, b).outstanding == 0
    ensures EpochZero(s.attempts, Outstanding) == {}
  {
    assert Count(s.attempts, Outstanding) == 0;
  }

  lemma {:induction false} ReplayKeepsOk(
    events: seq<Event>, s: State, start: int, previous: Option<Event>, b: Binding, auth: Option<Authority>)
    requires StateOk(s, b) && Replay(events, s, start, previous, b, auth).Ok?
    ensures StateOk(Replay(events, s, start, previous, b, auth).value, b)
    decreases |events|
  {
    hide StateOk, Transition;
    if events != [] {
      var r := Accept(s, events[0], start, previous, b, auth);
      if start != 1 {
        TransitionKeepsOk(s, events[0], b, auth);
      }
      ReplayKeepsOk(events[1..], r.value, start + 1, Some(events[0]), b, auth);
    }
  }

  /** Every accepted journal leaves a state that satisfies the invariant. */
  lemma AcceptedJournalOk(events: seq<Event>, b: Binding, auth: Option<Authority>)
    requires ReplayAll(events, b, auth).Ok?
    ensures StateOk(ReplayAll(events, b, auth).value, b)
  {
    assert StateOk(START, b);
    ReplayKeepsOk(events, START, 1, None, b, auth);
  }

  // ---------- the closed population is final ----------

  lemma {:induction false} FencedReplayChangesNothing(
    events: seq<Event>, s: State, start: int, previous: Option<Event>, b: Binding, auth: Option<Authority>)
    requires StateOk(s, b) && s.receipt.Some? && start > 1 && Replay(events, s, start, previous, b, auth).Ok?
    ensures SameFence(s, Replay(events, s, start, previous, b, auth).value, b)
    decreases |events|
  {
    hide Population, ReceiptOf, Transition, StateOk;
    if events == [] {
      FencedStateIsItsOwnFence(s, b);
    } else {
      var s' := Accept(s, events[0], start, previous, b, auth).value;
      FencedStepKeepsFence(s, events[0], b, auth);
      FencedReplayChangesNothing(events[1..], s', start + 1, Some(events[0]), b, auth);
    }
  }

  lemma FencedStateIsItsOwnFence(s: State, b: Binding)
    requires StateOk(s, b) && s.receipt.Some?
    ensures SameFence(s, s, b)
  {
    hide Population, ReceiptOf;
    NoneOutstandingInClosedEpoch(s, b);
  }

  /**
   Finality: once a journal contains the FENCE, every accepted extension has the same resolved
   closed-epoch attempts, the same receipt counts and the same committed population; and when the
   population was frozen, the recorded facts are that population in every later state.
   */
  lemma ClosedPopulationIsFinal(events: seq<Event>, more: seq<Event>, b: Binding, auth: Option<Authority>)
    requires ReplayAll(events, b, auth).Ok? && ReplayAll(events + more, b, auth).Ok?
    requires ReplayAll(events, b, auth).value.receipt.Some?
    ensures var s, s' := ReplayAll(events, b, auth).value, ReplayAll(events + more, b, auth).value;
      && SameFence(s, s', b)
      && s'.receipt.value.payload == FenceDone(ReceiptOf(s', b))
      && (s'.population.Some? ==>
            s'.population.value.payload.Freeze? && Population(s, b) == Some(s'.population.value.payload.facts))
  {
    hide StateOk, Population, ReceiptOf, Replay;
    AcceptedJournalOk(events, b, auth);
    AcceptedJournalOk(events + more, b, auth);
    ReplaySplits(events, more, START, 1, None, b, auth);
    var s := ReplayAll(events, b, auth).value;
    FencedReplayChangesNothing(more, s, 1 + |events|, LastOf(events, None), b, auth);
    FrozenFacts(ReplayAll(events + more, b, auth).value, b);
  }

  lemma FrozenFacts(s: State, b: Binding)
    requires StateOk(s, b)
    ensures s.receipt.Some? ==> s.receipt.value.payload == FenceDone(ReceiptOf(s, b))
    ensures s.population.Some? ==>
              s.population.value.payload.Freeze? && Population(s, b) == Some(s.population.value.payload.facts)
  {
  }

  // ---------- the error latch ----------

  /** The message of the last ERROR event, if any. */
  function LastError(events: seq<Event>, error: Option<string>): Option<string> {
    if events == [] then error
    else LastError(events[1..], if events[0].payload.Error? then Some(events[0].payload.message) else error)
  }

  predicate Authorizing(e: Event) {
    e.payload.FenceDone? || e.payload.Freeze? || e.payload.Archive?
  }

  lemma {:induction false} ErrorIsLastMessage(
    events: seq<Event>, s: State, start: int, previous: Option<Event>, b: Binding, auth: Option<Authority>)
    requires start > 1 && Replay(events, s, start, previous, b, auth).Ok?
    ensures Replay(events, s, start, previous, b, auth).value.error == LastError(events, s.error)
    decreases |events|
  {
    hide Transition;
    if events != [] {
      var s' := Accept(s, events[0], start, previous, b, auth).value;
      OnlyErrorSetsError(s, events[0], b, auth);
      ErrorIsLastMessage(events[1..], s', start + 1, Some(events[0]), b, auth);
    }
  }

  lemma OnlyErrorSetsError(s: State, e: Event, b: Binding, auth: Option<Authority>)
    requires Transition(s, e, b, auth).Ok?
    ensures Transition(s, e, b, auth).value.error == if e.payload.Error? then Some(e.payload.message) else s.error
  {
    hide FreezeOk, ReceiptOf, DistinctFacts, BeforeEnd, WorkerSet;
  }

  /**
   The latch, exactly: from a failed state, an accepted continuation is still failed if and only if
   its last ERROR (if it has one) carries a nonempty message - the program tests truthiness.
   */
  lemma FailureLatchesIffMessageNonempty(
    events: seq<Event>, s: State, start: int, previous: Option<Event>, b: Binding, auth: Option<Authority>)
    requires start > 1 && Failed(s) && Replay(events, s, start, previous, b, auth).Ok?
    ensures Failed(Replay(events, s, start, previous, b, auth).value)
       <==> LastError(events, s.error) != Some("")
  {
    ErrorIsLastMessage(events, s, start, previous, b, auth);
    LastErrorStays(events, s.error);
  }

  lemma {:induction false} LastErrorStays(events: seq<Event>, error: Option<string>)
    requires error.Some?
    ensures LastError(events, error).Some?
  {
    if events != [] {
      LastErrorStays(events[1..], if events[0].payload.Error? then Some(events[0].payload.message) else error);
    }
  }

  /** While failed, nothing is authorized: no FENCE, FREEZE or ARCHIVE is accepted. */
  lemma FailedAuthorizesNothing(
    s: State, e: Event, start: int, previous: Option<Event>, b: Binding, auth: Option<Authority>)
    requires start > 1 && Failed(s) && Authorizing(e)
    ensures Accept(s, e, start, previous, b, auth).Err?
  {
  }

  /** An empty message, signed where signatures are asked for, is accepted from any open failed state and clears the failure. */
  lemma EmptyMessageClearsFailure(
    s: State, b: Binding, auth: Option<Authority>, start: int, previous: Option<Event>, observed: int, signed: bool)
    requires Failed(s) && s.archive.None? && start > 1
    ensures var e := Event(start, previous, b, observed, Error(""), signed);
      var r := Accept(s, e, start, previous, b, auth);
      && (r.Ok? <==> auth.None? || signed)
      && (r.Ok? ==> r.value == s.(error := Some("")) && !Failed(r.value))
  {
  }

  // ---------- the program's own guards are enough ----------

  /** `complete` appends FENCE only when `replay` accepts it. */
  lemma CompleteIsAccepted(s: State, b: Binding, auth: Option<Authority>, start: int, previous: Option<Event>, observed: int)
    requires StateOk(s, b) && start > 1
    requires !Failed(s) && s.receipt.None? && s.closed.Some?
    requires ReceiptOf(s, b).outstanding == 0 && s.acks == WorkerSet(b.workers)
    ensures var e := Event(start, previous, b, observed, FenceDone(ReceiptOf(s, b)), true);
      Accept(s, e, start, previous, b, auth) == Ok(s.(receipt := Some(e)))
  {
  }

  /** A freeze over exactly the committed population is accepted. */
  lemma FreezeIsAccepted(s: State, b: Binding, auth: Option<Authority>, start: int, previous: Option<Event>, observed: int)
    requires StateOk(s, b) && start > 1
    requires !Failed(s) && s.receipt.Some? && s.population.None? && Population(s, b).Some?
    ensures var facts := Population(s, b).value;
      var p := Freeze(facts, facts.Keys, |facts|, s.receipt.value, Checkpoint(true, true, true, facts, facts.Keys));
      var e := Event(start, previous, b, observed, p, true);
      Accept(s, e, start, previous, b, auth) == Ok(s.(population := Some(e)))
  {
    hide Population;
  }

  /**
   `freeze` compares the scanned facts with the population before it opens its transaction.  The
   comparison cannot go stale: whatever other processes append in between, the FREEZE is refused only
   because they recorded a failure or froze the population themselves.
   */
  lemma FreezeCheckStaysValid(
    events: seq<Event>, more: seq<Event>, b: Binding, auth: Option<Authority>, facts: map<int, Fact>, now: int)
    requires ReplayAll(events, b, auth).Ok? && ReplayAll(events + more, b, auth).Ok?
    requires var s := ReplayAll(events, b, auth).value; s.receipt.Some? && Population(s, b) == Some(facts)
    ensures var s, s' := ReplayAll(events, b, auth).value, ReplayAll(events + more, b, auth).value;
      var p := Freeze(facts, facts.Keys, |facts|, s.receipt.value, Checkpoint(true, true, true, facts, facts.Keys));
      var e := Event(|events + more| + 1, LastOf(events + more, None), b, now, p, true);
      Accept(s', e, e.seqNo, e.previous, b, auth).Ok? <==> !Failed(s') && s'.population.None?
  {
    hide StateOk, Population, ReceiptOf, ReplayAll, Accept, SameFence;
    var s, s' := ReplayAll(events, b, auth).value, ReplayAll(events + more, b, auth).value;
    AcceptedJournalOk(events + more, b, auth);
    ClosedPopulationIsFinal(events, more, b, auth);
    FenceFieldsKept(s, s', b);
    assert events != [] by { AcceptedIsNonempty(events, b, auth); }
    var p := Freeze(facts, facts.Keys, |facts|, s.receipt.value, Checkpoint(true, true, true, facts, facts.Keys));
    var e := Event(|events + more| + 1, LastOf(events + more, None), b, now, p, true);
    if !Failed(s') && s'.population.None? {
      FreezeIsAccepted(s', b, auth, e.seqNo, e.previous, now);
    } else {
      LateFreezeRefused(s', e, e.seqNo, e.previous, b, auth);
    }
  }

  lemma AcceptedIsNonempty(events: seq<Event>, b: Binding, auth: Option<Authority>)
    requires ReplayAll(events, b, auth).Ok?
    ensures events != []
  {
  }

  lemma FenceFieldsKept(s: State, s': State, b: Binding)
    requires SameFence(s, s', b)
    ensures s'.receipt == s.receipt && Population(s', b) == Population(s, b)
  {
  }

  lemma LateFreezeRefused(s: State, e: Event, index: int, previous: Option<Event>, b: Binding, auth: Option<Authority>)
    requires e.payload.Freeze? && index != 1 && (Failed(s) || s.population.Some?)
    ensures Accept(s, e, index, previous, b, auth).Err?
  {
    hide FreezeOk;
  }

  // ---------- the chain ----------

  /** The last event of an accepted journal determines the whole journal. */
  lemma {:induction false} LastEventCommitsToHistory(
    events: seq<Event>, others: seq<Event>, b: Binding, auth: Option<Authority>)
    requires ReplayAll(events, b, auth).Ok? && ReplayAll(others, b, auth).Ok?
    requires events[|events| - 1] == others[|others| - 1]
    ensures events == others
    decreases |events|
  {
    hide Accept, Replay;
    LastIsChained(events, b, auth);
    LastIsChained(others, b, auth);
    var n := |events| - 1;
    if n == 0 {
      assert events == others;
    } else {
      LastEventCommitsToHistory(events[..n], others[..n], b, auth);
      assert events == events[..n] + [events[n]];
      assert others == others[..n] + [others[n]];
    }
  }

  lemma LastIsChained(events: seq<Event>, b: Binding, auth: Option<Authority>)
    requires ReplayAll(events, b, auth).Ok?
    ensures events != []
    ensures var n := |events| - 1;
      && events[n].seqNo == |events|
      && (n > 0 ==> ReplayAll(events[..n], b, auth).Ok? && events[n].previous == Some(events[n - 1]))
  {
    var n := |events| - 1;
    if n == 0 {
      assert events == [events[0]];
      ReplayOne(events[0], START, 1, None, b, auth);
    } else {
      ReplayPrefix(events, n, b, auth);
      assert events == events[..n] + [events[n]];
      ReplayAppend(events[..n], events[n], b, auth);
      AcceptedIsChained(ReplayAll(events[..n], b, auth).value, events[n], |events|, Some(events[n - 1]), b, auth);
    }
  }

  lemma AcceptedIsChained(
    s: State, e: Event, index: int, previous: Option<Event>, b: Binding, auth: Option<Authority>)
    requires Accept(s, e, index, previous, b, auth).Ok?
    ensures e.seqNo == index && e.previous == previous
  {
    hide Transition;
  }
}
