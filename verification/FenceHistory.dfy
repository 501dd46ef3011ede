/**
 What a journal must look like, read off its events alone.  `Legal` says of one more event whether the
 history before it permits it, without any replayed state; replay accepts exactly the journals all of
 whose events were legal when they were appended.
 */
module FenceHistory {
  import opened Wrappers
  import opened Fence
  import opened FenceLaws
  import P = FenceProcess

  // ---------- questions to a history ----------

  datatype Query =
    | EnrollOf(worker: Worker)
    | AckOf(worker: Worker)
    | AttemptOf(token: Token)
    | CommitOf(token: Token)
    | RollbackOf(token: Token)
    | AnyClose
    | AnyFence
    | AnyFreeze
    | AnyArchive

  predicate Answers(q: Query, p: Payload) {
    match q
    case EnrollOf(w) => p.Enroll? && p.worker == w
    case AckOf(w) => p.Ack? && p.worker == w
    case AttemptOf(t) => p.Attempt? && p.token == t
    case CommitOf(t) => p.Committed? && p.token == t
    case RollbackOf(t) => p.RolledBack? && p.token == t
    case AnyClose => p.Close?
    case AnyFence => p.FenceDone?
    case AnyFreeze => p.Freeze?
    case AnyArchive => p.Archive?
  }

  ghost predicate Has(es: seq<Event>, q: Query) {
    exists i :: 0 <= i < |es| && Answers(q, es[i].payload)
  }

  lemma HasMore(es: seq<Event>, e: Event, q: Query)
    ensures Has(es + [e], q) <==> Has(es, q) || Answers(q, e.payload)
  {
    var more := es + [e];
    if Has(es, q) {
      var i :| 0 <= i < |es| && Answers(q, es[i].payload);
      assert more[i] == es[i];
    }
    if Answers(q, e.payload) {
      assert more[|es|] == e;
    }
    if Has(more, q) && !Answers(q, e.payload) {
      var i :| 0 <= i < |more| && Answers(q, more[i].payload);
      assert es[i] == more[i];
    }
  }

  lemma HasMoreOf(es: seq<Event>, e: Event)
    ensures forall q :: Has(es + [e], q) <==> Has(es, q) || Answers(q, e.payload)
  {
    forall q
      ensures Has(es + [e], q) <==> Has(es, q) || Answers(q, e.payload)
    {
      HasMore(es, e, q);
    }
  }

  /** The message of the newest ERROR, if any. */
  function LastMessage(es: seq<Event>): Option<string> {
    if es == [] then None
    else if es[|es| - 1].payload.Error? then Some(es[|es| - 1].payload.message)
    else LastMessage(es[..|es| - 1])
  }

  predicate FailedIn(es: seq<Event>) {
    LastMessage(es).Some? && LastMessage(es).value != ""
  }

  ghost predicate Resolved(es: seq<Event>, t: Token) {
    Has(es, CommitOf(t)) || Has(es, RollbackOf(t))
  }

  /** The attempt was admitted to this worker in this epoch. */
  ghost predicate AdmittedTo(es: seq<Event>, t: Token, w: Worker, epoch: int) {
    exists i :: 0 <= i < |es| && es[i].payload.Attempt? && es[i].payload.token == t
             && es[i].payload.worker == w && es[i].payload.epoch == epoch
  }

  ghost predicate AdmittedIn(es: seq<Event>, t: Token, epoch: int) {
    exists i :: 0 <= i < |es| && es[i].payload.Attempt? && es[i].payload.token == t && es[i].payload.epoch == epoch
  }

  function Attempted(es: seq<Event>): set<Token> {
    set i | 0 <= i < |es| && es[i].payload.Attempt? :: es[i].payload.token
  }

  // ---------- the population, from the evidence alone ----------

  /** Event `i` commits an attempt whose evidence lists `f`: a fact of a cohort wallet, ingested in the window. */
  predicate Contributes(e: Event, b: Binding, f: Fact) {
    && e.payload.Committed? && f in e.payload.evidence.trades
    && f.wallet in b.cohort && b.start <= f.ingested && f.ingested <= b.end
  }

  ghost predicate Witnessed(es: seq<Event>, b: Binding, f: Fact) {
    exists i :: 0 <= i < |es| && Contributes(es[i], b, f)
  }

  /** Two commits contribute facts of one record. */
  ghost predicate Shared(es: seq<Event>, b: Binding) {
    exists i, j, f, g :: 0 <= i < j < |es| && Contributes(es[i], b, f) && Contributes(es[j], b, g) && f.recordId == g.recordId
  }

  /** The facts by record ID: each one witnessed, and none missing. */
  ghost predicate AllWitnessed(facts: map<int, Fact>, es: seq<Event>, b: Binding) {
    && (forall k :: k in facts ==> facts[k].recordId == k && Witnessed(es, b, facts[k]))
    && (forall f :: Witnessed(es, b, f) ==> f.recordId in facts)
  }

  // ---------- one more event ----------

  predicate ApprovedFor(auth: Option<Authority>, w: Worker, inst: Option<string>) {
    auth.Some? ==> w in auth.value.installations && inst == Some(auth.value.installations[w])
  }

  function EpochAfter(closed: bool): int { if closed then 1 else 0 }

  ghost predicate EveryoneEnrolled(es: seq<Event>, b: Binding) {
    forall w :: w in b.workers <==> Has(es, EnrollOf(w))
  }

  ghost predicate EveryoneAcked(es: seq<Event>, b: Binding) {
    forall w :: w in b.workers <==> Has(es, AckOf(w))
  }

  /** Attempts of the closed epoch with a given resolution. */
  ghost predicate InClosed(es: seq<Event>, t: Token) {
    t in Attempted(es) && AdmittedIn(es, t, 0)
  }

  ghost function ClosedCommitted(es: seq<Event>): set<Token> {
    set t | t in Attempted(es) && AdmittedIn(es, t, 0) && Has(es, CommitOf(t))
  }

  ghost function ClosedRolledBack(es: seq<Event>): set<Token> {
    set t | t in Attempted(es) && AdmittedIn(es, t, 0) && Has(es, RollbackOf(t))
  }

  ghost predicate HighWaterIs(es: seq<Event>, n: Option<int>) {
    exists i :: 0 <= i < |es| && es[i].payload.Close? && n == Some(es[i].seqNo)
  }

  /** The receipt counts the resolved attempts of the closed epoch and names the CLOSE event. */
  ghost predicate ReceiptTells(r: Receipt, es: seq<Event>, b: Binding) {
    && r.runId == b.runId && r.endpoint == b.end && r.closingEpoch == 0
    && (forall w :: w in r.workers <==> w in b.workers) && (forall w :: w in r.acks <==> w in b.workers)
    && r.committed == |ClosedCommitted(es)| && r.rolledBack == |ClosedRolledBack(es)| && r.outstanding == 0
    && r.admitted == r.committed + r.rolledBack
    && HighWaterIs(es, r.highWaterMark)
  }

  ghost predicate WitnessTells(es: seq<Event>, t: Token, w: Witness, b: Binding) {
    && w.token == t && w.binding == b && AdmittedTo(es, t, w.worker, w.epoch)
    && (forall i, j :: 0 <= i < j < |w.trades| ==>
          w.trades[i].recordId != w.trades[j].recordId && w.trades[i].eventId != w.trades[j].eventId)
    && (w.epoch > 0 ==> forall i :: 0 <= i < |w.trades| ==> w.trades[i].ingested > b.end)
  }

  ghost predicate FenceIs(es: seq<Event>, f: Event) {
    exists i :: 0 <= i < |es| && es[i].payload.FenceDone? && f == es[i]
  }

  ghost predicate FreezeTells(p: Payload, es: seq<Event>, b: Binding)
    requires p.Freeze?
  {
    && !Shared(es, b) && AllWitnessed(p.facts, es, b)
    && (forall k :: k in p.ids <==> k in p.facts) && p.count == |p.facts|
    && FenceIs(es, p.fence)
    && p.checkpoint.repeatableRead && p.checkpoint.readOnly && p.checkpoint.hasSnapshot
    && p.checkpoint.facts == p.facts && p.checkpoint.ids == p.ids
  }

  /** What the history before it asks of an event's payload. */
  ghost predicate Permits(es: seq<Event>, e: Event, b: Binding, auth: Option<Authority>) {
    match e.payload
    case Enroll(w, inst) =>
      && w in b.workers && !Has(es, EnrollOf(w)) && !Has(es, AnyClose)
      && ApprovedFor(auth, w, inst) && (auth.Some? ==> e.observed < b.start)
    case Attempt(t, w, epoch, retry) =>
      && Has(es, EnrollOf(w)) && !Has(es, AttemptOf(t)) && epoch == EpochAfter(Has(es, AnyClose))
      && (auth.Some? ==> EveryoneEnrolled(es, b))
      && (retry.Some? ==> Has(es, RollbackOf(retry.value)))
    case Close(closing, next) => !Has(es, AnyClose) && closing == 0 && next == 1 && e.observed > b.end
    case Ack(w, epoch) => Has(es, AnyClose) && Has(es, EnrollOf(w)) && epoch == 1
    case Committed(t, w) => Has(es, AttemptOf(t)) && !Resolved(es, t) && WitnessTells(es, t, w, b)
    case RolledBack(t) => Has(es, AttemptOf(t)) && !Resolved(es, t)
    case Error(_) => true
    case FenceDone(r) =>
      && Has(es, AnyClose) && !Has(es, AnyFence) && !FailedIn(es) && EveryoneAcked(es, b)
      && (forall t :: InClosed(es, t) ==> Resolved(es, t)) && ReceiptTells(r, es, b)
    case Freeze(_, _, _, _, _) => Has(es, AnyFence) && !Has(es, AnyFreeze) && !FailedIn(es) && FreezeTells(e.payload, es, b)
    case Archive(wellFormed, population) =>
      && auth.Some? && wellFormed && !FailedIn(es)
      && exists i :: 0 <= i < |es| && es[i].payload.Freeze? && population == es[i]
    case Arm(_) => false
    case Unknown => false
  }

  /** The event is chained to the history, and the history permits it; nothing follows an ARCHIVE. */
  ghost predicate Legal(es: seq<Event>, e: Event, b: Binding, auth: Option<Authority>)
    requires es != []
  {
    && !Has(es, AnyArchive) && (auth.Some? ==> e.signed)
    && e.seqNo == |es| + 1 && e.previous == Some(es[|es| - 1]) && e.binding == b
    && Permits(es, e, b, auth)
  }

  /** The first event arms the run, before its window starts - strictly before it under authority. */
  ghost predicate Armed(e: Event, b: Binding, auth: Option<Authority>) {
    && e.payload == Arm(b) && e.seqNo == 1 && e.previous.None? && e.binding == b
    && (auth.Some? ==> e.signed) && (if auth.Some? then e.observed < b.start else e.observed <= b.start)
  }

  /** The roster: no worker twice, some backend and some bot, nothing else; observational runs need authority. */
  ghost predicate Rostered(b: Binding, auth: Option<Authority>) {
    && (forall i, j :: 0 <= i < j < |b.workers| ==> b.workers[i] != b.workers[j])
    && (exists w :: w in b.workers && w.service == Backend) && (exists w :: w in b.workers && w.service == Bot)
    && (forall w :: w in b.workers ==> w.service == Backend || w.service == Bot)
    && (b.observational ==> auth.Some?)
  }

  ghost predicate LegalJournal(es: seq<Event>, b: Binding, auth: Option<Authority>) {
    && Rostered(b, auth) && es != [] && Armed(es[0], b, auth)
    && forall k :: 1 <= k < |es| ==> Legal(es[..k], es[k], b, auth)
  }

  // ---------- the replayed state is the history ----------

  ghost predicate RowTells(t: Token, row: AttemptRow, es: seq<Event>) {
    && AdmittedTo(es, t, row.worker, row.epoch)
    && (row.fate == WasCommitted <==> Has(es, CommitOf(t)))
    && (row.fate == WasRolledBack <==> Has(es, RollbackOf(t)))
    && (row.evidence.Some? <==> row.fate == WasCommitted)
  }

  /** Every ATTEMPT in the history is the one its row remembers. */
  ghost predicate AttemptRead(s: State, p: Payload) {
    p.Attempt? ==> p.token in s.attempts && s.attempts[p.token].worker == p.worker && s.attempts[p.token].epoch == p.epoch
  }

  ghost predicate ResolutionRead(s: State, p: Payload) {
    && (p.Committed? ==> p.token in s.attempts && s.attempts[p.token].evidence == Some(p.evidence))
    && (p.RolledBack? ==> p.token in s.attempts)
  }

  ghost predicate OnceRead(s: State, e: Event) {
    && (e.payload.Close? ==> s.closed == Some(e))
    && (e.payload.FenceDone? ==> s.receipt == Some(e))
    && (e.payload.Freeze? ==> s.population == Some(e))
  }

  ghost predicate WorkersTell(s: State, es: seq<Event>) {
    && (forall w :: w in s.workers <==> Has(es, EnrollOf(w)))
    && (forall w :: w in s.acks <==> Has(es, AckOf(w)))
  }

  ghost predicate RowsTell(s: State, es: seq<Event>) {
    && (forall t :: t in s.attempts <==> Has(es, AttemptOf(t)))
    && (forall t :: t in s.attempts ==> RowTells(t, s.attempts[t], es))
    && (forall i :: 0 <= i < |es| ==> AttemptRead(s, es[i].payload) && ResolutionRead(s, es[i].payload))
  }

  /** A commit has one event. */
  ghost predicate OneCommitEach(es: seq<Event>) {
    forall i, j :: 0 <= i < j < |es| && es[i].payload.Committed? && es[j].payload.Committed? ==>
      es[i].payload.token != es[j].payload.token
  }

  ghost predicate MilestonesTell(s: State, es: seq<Event>) {
    && (s.closed.Some? <==> Has(es, AnyClose)) && (s.receipt.Some? <==> Has(es, AnyFence))
    && (s.population.Some? <==> Has(es, AnyFreeze)) && (s.archive.Some? <==> Has(es, AnyArchive))
    && s.epoch == EpochAfter(Has(es, AnyClose)) && s.error == LastMessage(es)
    && (forall i :: 0 <= i < |es| ==> OnceRead(s, es[i]))
  }

  ghost predicate Tells(s: State, es: seq<Event>) {
    WorkersTell(s, es) && RowsTell(s, es) && MilestonesTell(s, es) && OneCommitEach(es)
  }

  lemma MessageMore(es: seq<Event>, e: Event)
    ensures LastMessage(es + [e]) == if e.payload.Error? then Some(e.payload.message) else LastMessage(es)
  {
    assert (es + [e])[..|es|] == es;
  }

  lemma AdmittedMore(es: seq<Event>, e: Event, t: Token, w: Worker, epoch: int)
    ensures AdmittedTo(es + [e], t, w, epoch)
       <==> AdmittedTo(es, t, w, epoch) || (e.payload.Attempt? && e.payload.token == t && e.payload.worker == w && e.payload.epoch == epoch)
  {
    var more := es + [e];
    if AdmittedTo(es, t, w, epoch) {
      var i :| 0 <= i < |es| && es[i].payload.Attempt? && es[i].payload.token == t
            && es[i].payload.worker == w && es[i].payload.epoch == epoch;
      assert more[i] == es[i];
    }
    if e.payload.Attempt? && e.payload.token == t && e.payload.worker == w && e.payload.epoch == epoch {
      assert more[|es|] == e;
    }
  }

  // ---------- one step ----------

  lemma WorkersStep(s: State, es: seq<Event>, e: Event, b: Binding, auth: Option<Authority>)
    requires WorkersTell(s, es) && Transition(s, e, b, auth).Ok?
    ensures WorkersTell(Transition(s, e, b, auth).value, es + [e])
  {
    hide Has, DistinctFacts, BeforeEnd, FreezeOk, ReceiptOf;
    HasMoreOf(es, e);
  }

  lemma MilestonesStep(s: State, es: seq<Event>, e: Event, b: Binding, auth: Option<Authority>)
    requires MilestonesTell(s, es) && Transition(s, e, b, auth).Ok? && s.archive.None?
    ensures MilestonesTell(Transition(s, e, b, auth).value, es + [e])
  {
    hide Has, Transition, LastMessage;
    MilestoneMoves(s, e, b, auth);
    HasMoreOf(es, e);
    MessageMore(es, e);
    OnceStep(s, es, e, b, auth);
  }

  lemma OnceStep(s: State, es: seq<Event>, e: Event, b: Binding, auth: Option<Authority>)
    requires MilestonesTell(s, es) && Transition(s, e, b, auth).Ok?
    ensures forall i :: 0 <= i < |es + [e]| ==> OnceRead(Transition(s, e, b, auth).value, (es + [e])[i])
  {
    hide Has, Transition, LastMessage;
    var s', more := Transition(s, e, b, auth).value, es + [e];
    NothingTwice(es);
    MilestoneMoves(s, e, b, auth);
    forall i | 0 <= i < |more|
      ensures OnceRead(s', more[i])
    {
      if i < |es| {
        assert more[i] == es[i] && OnceRead(s, es[i]);
      }
    }
  }

  lemma MilestoneMoves(s: State, e: Event, b: Binding, auth: Option<Authority>)
    requires Transition(s, e, b, auth).Ok?
    ensures var s', p := Transition(s, e, b, auth).value, e.payload;
      && s'.closed == (if p.Close? then Some(e) else s.closed) && (p.Close? ==> s.closed.None?)
      && s'.receipt == (if p.FenceDone? then Some(e) else s.receipt) && (p.FenceDone? ==> s.receipt.None?)
      && s'.population == (if p.Freeze? then Some(e) else s.population) && (p.Freeze? ==> s.population.None?)
      && s'.archive == (if p.Archive? then Some(e) else s.archive)
      && s'.error == (if p.Error? then Some(p.message) else s.error)
      && s'.epoch == (if p.Close? then s.epoch + 1 else s.epoch)
  {
    hide DistinctFacts, BeforeEnd, FreezeOk, ReceiptOf;
  }

  lemma NothingTwice(es: seq<Event>)
    ensures forall i :: 0 <= i < |es| && es[i].payload.Close? ==> Has(es, AnyClose)
    ensures forall i :: 0 <= i < |es| && es[i].payload.FenceDone? ==> Has(es, AnyFence)
    ensures forall i :: 0 <= i < |es| && es[i].payload.Freeze? ==> Has(es, AnyFreeze)
    ensures forall i :: 0 <= i < |es| && es[i].payload.Committed? ==> Has(es, CommitOf(es[i].payload.token))
  {
    forall i | 0 <= i < |es|
      ensures es[i].payload.Close? ==> Has(es, AnyClose)
      ensures es[i].payload.FenceDone? ==> Has(es, AnyFence)
      ensures es[i].payload.Freeze? ==> Has(es, AnyFreeze)
      ensures es[i].payload.Committed? ==> Has(es, CommitOf(es[i].payload.token))
    {
      assert es[i].payload.Close? ==> Answers(AnyClose, es[i].payload);
      assert es[i].payload.FenceDone? ==> Answers(AnyFence, es[i].payload);
      assert es[i].payload.Freeze? ==> Answers(AnyFreeze, es[i].payload);
      assert es[i].payload.Committed? ==> Answers(CommitOf(es[i].payload.token), es[i].payload);
    }
  }

  /** The one row an event may add or move. */
  lemma RowMoves(s: State, e: Event, b: Binding, auth: Option<Authority>)
    requires Transition(s, e, b, auth).Ok?
    ensures var rows, p := Transition(s, e, b, auth).value.attempts, e.payload;
      match p
      case Attempt(t, w, epoch, retry) => t !in s.attempts && rows == s.attempts[t := AttemptRow(w, epoch, retry, e.observed, Outstanding, None)]
      case Committed(t, w) =>
        && t in s.attempts && s.attempts[t].fate == Outstanding
        && rows == s.attempts[t := s.attempts[t].(fate := WasCommitted, evidence := Some(w))]
      case RolledBack(t) =>
        && t in s.attempts && s.attempts[t].fate == Outstanding
        && rows == s.attempts[t := s.attempts[t].(fate := WasRolledBack)]
      case _ => rows == s.attempts
  {
    hide DistinctFacts, BeforeEnd, FreezeOk, ReceiptOf;
  }

  lemma RowsStep(s: State, es: seq<Event>, e: Event, b: Binding, auth: Option<Authority>)
    requires RowsTell(s, es) && Transition(s, e, b, auth).Ok?
    ensures RowsTell(Transition(s, e, b, auth).value, es + [e])
  {
    hide Has, Transition, RowTells, AttemptRead, ResolutionRead;
    RowMoves(s, e, b, auth);
    HasMoreOf(es, e);
    forall t | t in Transition(s, e, b, auth).value.attempts
      ensures RowTells(t, Transition(s, e, b, auth).value.attempts[t], es + [e])
    {
      RowTellsStep(s, es, e, b, auth, t);
    }
    ReadsStep(s, es, e, b, auth);
  }

  lemma RowTellsStep(s: State, es: seq<Event>, e: Event, b: Binding, auth: Option<Authority>, t: Token)
    requires RowsTell(s, es) && Transition(s, e, b, auth).Ok? && t in Transition(s, e, b, auth).value.attempts
    ensures RowTells(t, Transition(s, e, b, auth).value.attempts[t], es + [e])
  {
    hide Has, Transition, AdmittedTo, AttemptRead, ResolutionRead;
    var row := Transition(s, e, b, auth).value.attempts[t];
    RowMoves(s, e, b, auth);
    HasMoreOf(es, e);
    AdmittedMore(es, e, t, row.worker, row.epoch);
    if t in s.attempts {
      assert RowTells(t, s.attempts[t], es);
    } else {
      Unadmitted(s, es, t);
    }
  }

  lemma ReadsStep(s: State, es: seq<Event>, e: Event, b: Binding, auth: Option<Authority>)
    requires RowsTell(s, es) && Transition(s, e, b, auth).Ok?
    ensures var s' := Transition(s, e, b, auth).value;
      forall i :: 0 <= i < |es + [e]| ==> AttemptRead(s', (es + [e])[i].payload) && ResolutionRead(s', (es + [e])[i].payload)
  {
    hide Has, Transition, AdmittedTo;
    var s', more := Transition(s, e, b, auth).value, es + [e];
    RowMoves(s, e, b, auth);
    forall i | 0 <= i < |more|
      ensures AttemptRead(s', more[i].payload) && ResolutionRead(s', more[i].payload)
    {
      if i < |es| {
        assert more[i] == es[i] && AttemptRead(s, es[i].payload) && ResolutionRead(s, es[i].payload);
        assert es[i].payload.Committed? ==> RowTells(es[i].payload.token, s.attempts[es[i].payload.token], es);
      }
    }
  }

  /** A token never attempted was never resolved. */
  lemma Unadmitted(s: State, es: seq<Event>, t: Token)
    requires RowsTell(s, es) && t !in s.attempts
    ensures !Has(es, CommitOf(t)) && !Has(es, RollbackOf(t))
  {
  }

  lemma CommitsStep(s: State, es: seq<Event>, e: Event, b: Binding, auth: Option<Authority>)
    requires RowsTell(s, es) && OneCommitEach(es) && Transition(s, e, b, auth).Ok?
    ensures OneCommitEach(es + [e])
  {
    hide Has, Transition;
    var more := es + [e];
    RowMoves(s, e, b, auth);
    forall i, j | 0 <= i < j < |more| && more[i].payload.Committed? && more[j].payload.Committed?
      ensures more[i].payload.token != more[j].payload.token
    {
      assert more[i] == es[i];
      if j == |es| {
        assert ResolutionRead(s, es[i].payload) && RowTells(es[i].payload.token, s.attempts[es[i].payload.token], es);
      } else {
        assert more[j] == es[j];
      }
    }
  }

  /** The replayed state goes on telling the history. */
  lemma TellsStep(s: State, es: seq<Event>, e: Event, b: Binding, auth: Option<Authority>)
    requires Tells(s, es) && Transition(s, e, b, auth).Ok? && s.archive.None?
    ensures Tells(Transition(s, e, b, auth).value, es + [e])
  {
    hide WorkersTell, RowsTell, MilestonesTell, OneCommitEach, Transition;
    WorkersStep(s, es, e, b, auth);
    RowsStep(s, es, e, b, auth);
    MilestonesStep(s, es, e, b, auth);
    CommitsStep(s, es, e, b, auth);
  }

  // ---------- permitted is accepted ----------

  lemma EnrollPermitted(s: State, es: seq<Event>, e: Event, b: Binding, auth: Option<Authority>)
    requires Tells(s, es) && e.payload.Enroll?
    ensures Transition(s, e, b, auth).Ok? <==> Permits(es, e, b, auth)
  {
    hide Has, RowsTell;
  }

  lemma AttemptPermitted(s: State, es: seq<Event>, e: Event, b: Binding, auth: Option<Authority>)
    requires Tells(s, es) && e.payload.Attempt?
    ensures Transition(s, e, b, auth).Ok? <==> Permits(es, e, b, auth)
  {
    hide Has, AdmittedTo;
    assert s.workers == WorkerSet(b.workers) <==> EveryoneEnrolled(es, b) by { SameWorkers(s.workers, b); }
    var retry := e.payload.retryOf;
    if retry.Some? {
      if retry.value in s.attempts {
        assert RowTells(retry.value, s.attempts[retry.value], es);
      } else {
        Unadmitted(s, es, retry.value);
      }
    }
  }

  lemma SameWorkers(ws: set<Worker>, b: Binding)
    ensures ws == WorkerSet(b.workers) <==> forall w :: w in b.workers <==> w in ws
  {
    if forall w :: w in b.workers <==> w in ws {
      assert forall w :: w in WorkerSet(b.workers) <==> w in ws;
    }
  }

  lemma SmallPermitted(s: State, es: seq<Event>, e: Event, b: Binding, auth: Option<Authority>)
    requires Tells(s, es)
    requires e.payload.Close? || e.payload.Ack? || e.payload.Error? || e.payload.Arm? || e.payload.Unknown?
    ensures Transition(s, e, b, auth).Ok? <==> Permits(es, e, b, auth)
  {
    hide Has, RowsTell;
  }

  lemma ResolutionPermitted(s: State, es: seq<Event>, e: Event, b: Binding, auth: Option<Authority>)
    requires Tells(s, es) && (e.payload.Committed? || e.payload.RolledBack?)
    ensures Transition(s, e, b, auth).Ok? <==> Permits(es, e, b, auth)
  {
    hide Has, WorkersTell, MilestonesTell;
    var t := e.payload.token;
    if t in s.attempts {
      assert RowTells(t, s.attempts[t], es);
      OneAdmission(s, es, t);
    }
  }

  /** A row's worker and epoch are those of its one ATTEMPT. */
  lemma OneAdmission(s: State, es: seq<Event>, t: Token)
    requires RowsTell(s, es) && t in s.attempts
    ensures forall w, epoch :: AdmittedTo(es, t, w, epoch) <==> w == s.attempts[t].worker && epoch == s.attempts[t].epoch
  {
    hide Has;
    assert RowTells(t, s.attempts[t], es);
    forall w, epoch | AdmittedTo(es, t, w, epoch)
      ensures w == s.attempts[t].worker && epoch == s.attempts[t].epoch
    {
      var i :| 0 <= i < |es| && es[i].payload.Attempt? && es[i].payload.token == t
            && es[i].payload.worker == w && es[i].payload.epoch == epoch;
      assert AttemptRead(s, es[i].payload);
    }
  }

  lemma ArchivePermitted(s: State, es: seq<Event>, e: Event, b: Binding, auth: Option<Authority>)
    requires Tells(s, es) && e.payload.Archive?
    ensures Transition(s, e, b, auth).Ok? <==> Permits(es, e, b, auth)
  {
    hide RowsTell, WorkersTell, LastMessage;
    if s.population.Some? {
      var i :| 0 <= i < |es| && Answers(AnyFreeze, es[i].payload);
      assert OnceRead(s, es[i]);
    }
    if exists i :: 0 <= i < |es| && es[i].payload.Freeze? && e.payload.population == es[i] {
      var i :| 0 <= i < |es| && es[i].payload.Freeze? && e.payload.population == es[i];
      assert OnceRead(s, es[i]);
    }
  }

  // ----- the fence -----

  lemma ClosedSets(s: State, es: seq<Event>)
    requires RowsTell(s, es)
    ensures EpochZero(s.attempts, WasCommitted) == ClosedCommitted(es)
    ensures EpochZero(s.attempts, WasRolledBack) == ClosedRolledBack(es)
    ensures EpochZero(s.attempts, Outstanding) == {} <==> forall t :: InClosed(es, t) ==> Resolved(es, t)
  {
    hide Has, AdmittedTo, AdmittedIn;
    forall t
      ensures t in Attempted(es) <==> t in s.attempts
      ensures t in s.attempts ==> (AdmittedIn(es, t, 0) <==> s.attempts[t].epoch == 0)
      ensures t in s.attempts ==> RowTells(t, s.attempts[t], es)
    {
      AttemptedIs(es, t);
      if t in s.attempts {
        EpochRead(s, es, t);
      }
    }
    var rows := s.attempts;
    assert forall t :: t in EpochZero(rows, WasCommitted) <==> t in ClosedCommitted(es);
    assert forall t :: t in EpochZero(rows, WasRolledBack) <==> t in ClosedRolledBack(es);
    assert forall t :: t in EpochZero(rows, Outstanding) <==> InClosed(es, t) && !Resolved(es, t);
  }

  lemma AttemptedIs(es: seq<Event>, t: Token)
    ensures t in Attempted(es) <==> Has(es, AttemptOf(t))
  {
    if t in Attempted(es) {
      var i :| 0 <= i < |es| && es[i].payload.Attempt? && es[i].payload.token == t;
      assert Answers(AttemptOf(t), es[i].payload);
    }
  }

  lemma EpochRead(s: State, es: seq<Event>, t: Token)
    requires RowsTell(s, es) && t in s.attempts
    ensures AdmittedIn(es, t, 0) <==> s.attempts[t].epoch == 0
  {
    hide Has;
    assert RowTells(t, s.attempts[t], es);
    if AdmittedIn(es, t, 0) {
      var i :| 0 <= i < |es| && es[i].payload.Attempt? && es[i].payload.token == t && es[i].payload.epoch == 0;
      assert AttemptRead(s, es[i].payload);
    }
    if s.attempts[t].epoch == 0 {
      var i :| 0 <= i < |es| && es[i].payload.Attempt? && es[i].payload.token == t
            && es[i].payload.worker == s.attempts[t].worker && es[i].payload.epoch == s.attempts[t].epoch;
      assert AdmittedIn(es, t, 0);
    }
  }

  lemma FencePermitted(s: State, es: seq<Event>, e: Event, b: Binding, auth: Option<Authority>)
    requires Tells(s, es) && e.payload.FenceDone?
    ensures Transition(s, e, b, auth).Ok? <==> Permits(es, e, b, auth)
  {
    hide Has, RowsTell, LastMessage, EpochZero, ClosedCommitted, ClosedRolledBack, OneCommitEach, InClosed, Resolved;
    ClosedSets(s, es);
    assert s.acks == WorkerSet(b.workers) <==> EveryoneAcked(es, b) by { SameWorkers(s.acks, b); }
    if s.closed.Some? {
      HighWater(s, es, e.payload.receipt.highWaterMark);
      ReceiptRead(s, es, e.payload.receipt, b);
    }
  }

  lemma HighWater(s: State, es: seq<Event>, n: Option<int>)
    requires MilestonesTell(s, es) && s.closed.Some?
    ensures HighWaterIs(es, n) <==> n == Some(s.closed.value.seqNo)
  {
    hide LastMessage;
    var i :| 0 <= i < |es| && Answers(AnyClose, es[i].payload);
    assert OnceRead(s, es[i]);
    if HighWaterIs(es, n) {
      var j :| 0 <= j < |es| && es[j].payload.Close? && n == Some(es[j].seqNo);
      assert OnceRead(s, es[j]);
    }
  }

  lemma ReceiptRead(s: State, es: seq<Event>, r: Receipt, b: Binding)
    requires EpochZero(s.attempts, WasCommitted) == ClosedCommitted(es) && EpochZero(s.attempts, WasRolledBack) == ClosedRolledBack(es)
    requires s.closed.Some?
    requires HighWaterIs(es, r.highWaterMark) <==> r.highWaterMark == Some(s.closed.value.seqNo)
    ensures s.acks == WorkerSet(b.workers) ==>
      (r == ReceiptOf(s, b) && r.outstanding == 0 <==> EpochZero(s.attempts, Outstanding) == {} && ReceiptTells(r, es, b))
  {
    hide EpochZero, ClosedCommitted, ClosedRolledBack, HighWaterIs;
    if s.acks == WorkerSet(b.workers) {
      assert (forall w :: w in r.workers <==> w in b.workers) <==> r.workers == WorkerSet(b.workers) by { SameWorkers(r.workers, b); }
      assert (forall w :: w in r.acks <==> w in b.workers) <==> r.acks == WorkerSet(b.workers) by { SameWorkers(r.acks, b); }
    }
  }

  // ----- the population -----

  /** A committed row's facts are those its commit event contributes. */
  lemma RowContributes(s: State, es: seq<Event>, b: Binding, i: nat)
    requires RowsTell(s, es) && i < |es| && es[i].payload.Committed?
    ensures var t := es[i].payload.token;
      t in s.attempts && forall f :: f in FactsOf(s.attempts[t], b) <==> Contributes(es[i], b, f)
  {
    hide Has;
    var t := es[i].payload.token;
    assert ResolutionRead(s, es[i].payload);
    assert RowTells(t, s.attempts[t], es);
  }

  lemma CommitEvent(s: State, es: seq<Event>, b: Binding, t: Token) returns (i: nat)
    requires RowsTell(s, es) && t in s.attempts && s.attempts[t].fate == WasCommitted
    ensures i < |es| && es[i].payload.Committed? && es[i].payload.token == t
  {
    assert RowTells(t, s.attempts[t], es);
    i :| 0 <= i < |es| && Answers(CommitOf(t), es[i].payload);
  }

  lemma PopulationWitnessed(s: State, es: seq<Event>, b: Binding, f: Fact)
    requires RowsTell(s, es)
    ensures f in AllFacts(s, b) <==> Witnessed(es, b, f)
  {
    hide FactsOf, RowsTell, AllFacts, Contributes;
    AllFactsAre(s, b, f);
    if f in AllFacts(s, b) {
      var t :| InPopulation(s, b, t, f);
      assert s.attempts[t].fate == WasCommitted by { OnlyCommittedContribute(s.attempts[t], b, f); }
      var i := CommitEvent(s, es, b, t);
      RowContributes(s, es, b, i);
    }
    if Witnessed(es, b, f) {
      var i :| 0 <= i < |es| && Contributes(es[i], b, f);
      ContributesCommits(es[i], b, f);
      RowContributes(s, es, b, i);
      assert InPopulation(s, b, es[i].payload.token, f);
    }
  }

  lemma AllFactsAre(s: State, b: Binding, f: Fact)
    ensures f in AllFacts(s, b) <==> exists t :: InPopulation(s, b, t, f)
  {
  }

  lemma OnlyCommittedContribute(row: AttemptRow, b: Binding, f: Fact)
    requires f in FactsOf(row, b)
    ensures row.fate == WasCommitted
  {
  }

  lemma ContributesCommits(e: Event, b: Binding, f: Fact)
    requires Contributes(e, b, f)
    ensures e.payload.Committed?
  {
  }

  lemma ContestedIsShared(s: State, es: seq<Event>, b: Binding)
    requires RowsTell(s, es) && OneCommitEach(es) && StateOk(s, b)
    ensures Contested(s, b) <==> Shared(es, b)
  {
    hide RowsTell, OneCommitEach, StateOk, Clash, FactsOf, Contributes;
    if Contested(s, b) {
      var t, u :| t in s.attempts && u in s.attempts && Clash(FactsOf(s.attempts[t], b), FactsOf(s.attempts[u], b), t == u);
      ClashIsShared(s, es, b, t, u);
    }
    if Shared(es, b) {
      var i, j, f, g :| 0 <= i < j < |es| && Contributes(es[i], b, f) && Contributes(es[j], b, g) && f.recordId == g.recordId;
      SharedIsClash(s, es, b, i, j, f, g);
    }
  }

  lemma ClashIsShared(s: State, es: seq<Event>, b: Binding, t: Token, u: Token)
    requires RowsTell(s, es) && StateOk(s, b) && t in s.attempts && u in s.attempts
    requires Clash(FactsOf(s.attempts[t], b), FactsOf(s.attempts[u], b), t == u)
    ensures Shared(es, b)
  {
    hide FactsOf, RowsTell, Contributes, StateOk;
    var f, g :| f in FactsOf(s.attempts[t], b) && g in FactsOf(s.attempts[u], b) && f.recordId == g.recordId && (t != u || f != g);
    if t == u {
      OneRowDiffers(s, b, t, f, g);
    } else {
      OnlyCommittedContribute(s.attempts[t], b, f);
      OnlyCommittedContribute(s.attempts[u], b, g);
      var i := CommitEvent(s, es, b, t);
      var j := CommitEvent(s, es, b, u);
      RowContributes(s, es, b, i);
      RowContributes(s, es, b, j);
      assert i < j || j < i;
    }
  }

  lemma SharedIsClash(s: State, es: seq<Event>, b: Binding, i: nat, j: nat, f: Fact, g: Fact)
    requires RowsTell(s, es) && OneCommitEach(es) && i < j < |es|
    requires Contributes(es[i], b, f) && Contributes(es[j], b, g) && f.recordId == g.recordId
    ensures Contested(s, b)
  {
    hide FactsOf, RowsTell, Contributes;
    ContributesCommits(es[i], b, f);
    ContributesCommits(es[j], b, g);
    RowContributes(s, es, b, i);
    RowContributes(s, es, b, j);
    var t, u := es[i].payload.token, es[j].payload.token;
    assert t != u;
    assert Clash(FactsOf(s.attempts[t], b), FactsOf(s.attempts[u], b), t == u);
  }

  /** One witness lists a record once. */
  lemma OneRowDiffers(s: State, b: Binding, t: Token, f: Fact, g: Fact)
    requires StateOk(s, b) && t in s.attempts && f in FactsOf(s.attempts[t], b) && g in FactsOf(s.attempts[t], b)
    ensures f.recordId == g.recordId ==> f == g
  {
    assert RowOk(t, s.attempts[t], s.epoch, b);
  }

  lemma PopulationIs(s: State, es: seq<Event>, b: Binding, facts: map<int, Fact>)
    requires RowsTell(s, es) && OneCommitEach(es) && StateOk(s, b)
    ensures Population(s, b) == Some(facts) <==> !Shared(es, b) && AllWitnessed(facts, es, b)
  {
    hide RowsTell, OneCommitEach, StateOk, Contested, Shared, AllFacts, Witnessed;
    ContestedIsShared(s, es, b);
    if !Contested(s, b) {
      PopulationFacts(s, b);
      forall f: Fact
        ensures f in AllFacts(s, b) <==> Witnessed(es, b, f)
      {
        PopulationWitnessed(s, es, b, f);
      }
      TableIs(AllFacts(s, b), Population(s, b).value, facts, es, b);
    }
  }

  /** A table holds these facts, each under its own ID. */
  ghost predicate Holds(all: map<int, Fact>, fs: set<Fact>) {
    && (forall k :: k in all ==> all[k].recordId == k && all[k] in fs)
    && (forall f :: f in fs ==> f.recordId in all && all[f.recordId] == f)
  }

  lemma PopulationFacts(s: State, b: Binding)
    requires !Contested(s, b)
    ensures Population(s, b).Some? && Holds(Population(s, b).value, AllFacts(s, b))
  {
    hide Contested, AllFacts;
    UncontestedFactsDiffer(s, b);
  }

  lemma TableIs(fs: set<Fact>, all: map<int, Fact>, facts: map<int, Fact>, es: seq<Event>, b: Binding)
    requires Holds(all, fs) && forall f: Fact :: f in fs <==> Witnessed(es, b, f)
    ensures all == facts <==> AllWitnessed(facts, es, b)
  {
    hide Witnessed;
    if AllWitnessed(facts, es, b) {
      forall k
        ensures k in facts <==> k in all
        ensures k in facts ==> k in all && facts[k] == all[k]
      {
        if k in facts {
          assert facts[k] in fs && facts[k].recordId == k;
        }
      }
      assert facts.Keys == all.Keys;
    }
  }

  lemma FreezePermitted(s: State, es: seq<Event>, e: Event, b: Binding, auth: Option<Authority>)
    requires Tells(s, es) && StateOk(s, b) && e.payload.Freeze?
    ensures Transition(s, e, b, auth).Ok? <==> Permits(es, e, b, auth)
  {
    hide Has, RowsTell, LastMessage, Population, Shared, AllWitnessed, OneCommitEach, StateOk, FreezeOk, FreezeTells, FenceIs;
    PopulationIs(s, es, b, e.payload.facts);
    if s.receipt.Some? {
      FenceRead(s, es, e.payload.fence);
      FreezeReads(s, es, e.payload, b);
    }
  }

  lemma FreezeReads(s: State, es: seq<Event>, p: Payload, b: Binding)
    requires p.Freeze? && s.receipt.Some?
    requires Population(s, b) == Some(p.facts) <==> !Shared(es, b) && AllWitnessed(p.facts, es, b)
    requires p.fence == s.receipt.value <==> FenceIs(es, p.fence)
    ensures FreezeOk(s, p, b) <==> FreezeTells(p, es, b)
  {
    hide Population, Shared, AllWitnessed, FenceIs;
    if FreezeTells(p, es, b) {
      assert forall k :: k in p.ids <==> k in p.facts.Keys;
      assert p.ids == p.facts.Keys;
    }
  }

  lemma FenceRead(s: State, es: seq<Event>, f: Event)
    requires MilestonesTell(s, es) && s.receipt.Some?
    ensures f == s.receipt.value <==> FenceIs(es, f)
  {
    hide LastMessage;
    var i :| 0 <= i < |es| && Answers(AnyFence, es[i].payload);
    assert OnceRead(s, es[i]);
    if FenceIs(es, f) {
      var j :| 0 <= j < |es| && es[j].payload.FenceDone? && f == es[j];
      assert OnceRead(s, es[j]);
    }
  }

  // ---------- replay accepts exactly the legal journals ----------

  lemma PermittedIffAccepted(s: State, es: seq<Event>, e: Event, b: Binding, auth: Option<Authority>)
    requires Tells(s, es) && StateOk(s, b)
    ensures Transition(s, e, b, auth).Ok? <==> Permits(es, e, b, auth)
  {
    hide Tells, StateOk, Transition, Permits;
    match e.payload
    case Enroll(_, _) => EnrollPermitted(s, es, e, b, auth);
    case Attempt(_, _, _, _) => AttemptPermitted(s, es, e, b, auth);
    case Committed(_, _) => ResolutionPermitted(s, es, e, b, auth);
    case RolledBack(_) => ResolutionPermitted(s, es, e, b, auth);
    case Archive(_, _) => ArchivePermitted(s, es, e, b, auth);
    case FenceDone(_) => FencePermitted(s, es, e, b, auth);
    case Freeze(_, _, _, _, _) => FreezePermitted(s, es, e, b, auth);
    case _ => SmallPermitted(s, es, e, b, auth);
  }

  lemma RosterRead(b: Binding, auth: Option<Authority>)
    ensures Admissible(b, auth) <==> Rostered(b, auth)
  {
    if Rostered(b, auth) {
      var x :| x in b.workers && x.service == Backend;
      var y :| y in b.workers && y.service == Bot;
      var services := set w | w in b.workers :: w.service;
      assert x.service in services && y.service in services;
      assert services == {Backend, Bot};
    }
    if RosterOk(b) {
      var services := set w | w in b.workers :: w.service;
      assert Backend in services && Bot in services;
      var x :| x in b.workers && x.service == Backend;
      var y :| y in b.workers && y.service == Bot;
      assert forall w :: w in b.workers ==> w.service in services;
    }
  }

  lemma ArmRead(e: Event, b: Binding, auth: Option<Authority>)
    ensures ReplayAll([e], b, auth).Ok? <==> Rostered(b, auth) && Armed(e, b, auth)
    ensures ReplayAll([e], b, auth).Ok? ==> ReplayAll([e], b, auth).value == START && Tells(START, [e])
  {
    RosterRead(b, auth);
    ReplayOne(e, START, 1, None, b, auth);
    if Rostered(b, auth) && Armed(e, b, auth) {
      forall q
        ensures !Has([e], q)
      {
      }
      assert [e][..0] == [];
      assert LastMessage([e]).None?;
    }
  }

  /**
   Replay against the history alone: a journal is accepted if and only if it starts with the right ARM
   and every later event was legal, by the events before it, when it was appended.
   */
  lemma {:induction false} AcceptedIffLegal(es: seq<Event>, b: Binding, auth: Option<Authority>)
    ensures ReplayAll(es, b, auth).Ok? <==> LegalJournal(es, b, auth)
    ensures ReplayAll(es, b, auth).Ok? ==> Tells(ReplayAll(es, b, auth).value, es)
    decreases |es|
  {
    hide ReplayAll, Tells, Legal, Armed, Rostered, Accept;
    if |es| == 0 {
      NoJournal(b, auth);
    } else if |es| == 1 {
      assert es == [es[0]];
      ArmRead(es[0], b, auth);
    } else {
      var init, e := es[..|es| - 1], es[|es| - 1];
      assert es == init + [e];
      AcceptedIffLegal(init, b, auth);
      LegalMore(init, e, b, auth);
      if ReplayAll(init, b, auth).Ok? {
        OneMoreLegal(init, e, b, auth);
      } else if ReplayAll(es, b, auth).Ok? {
        ReplayPrefix(es, |es| - 1, b, auth);
      }
    }
  }

  lemma NoJournal(b: Binding, auth: Option<Authority>)
    ensures ReplayAll([], b, auth).Err?
  {
  }

  lemma LegalMore(es: seq<Event>, e: Event, b: Binding, auth: Option<Authority>)
    requires es != []
    ensures LegalJournal(es + [e], b, auth) <==> LegalJournal(es, b, auth) && Legal(es, e, b, auth)
  {
    hide Legal, Armed, Rostered;
    var more := es + [e];
    assert more[..|es|] == es && more[0] == es[0];
    assert forall k :: 1 <= k < |es| ==> more[..k] == es[..k] && more[k] == es[k];
    if LegalJournal(more, b, auth) {
      forall k | 1 <= k < |es|
        ensures Legal(es[..k], es[k], b, auth)
      {
        assert Legal(more[..k], more[k], b, auth);
      }
    }
    if LegalJournal(es, b, auth) && Legal(es, e, b, auth) {
      forall k | 1 <= k < |more|
        ensures Legal(more[..k], more[k], b, auth)
      {
        if k < |es| {
          assert Legal(es[..k], es[k], b, auth);
        }
      }
    }
  }

  lemma OneMoreLegal(es: seq<Event>, e: Event, b: Binding, auth: Option<Authority>)
    requires es != [] && ReplayAll(es, b, auth).Ok? && Tells(ReplayAll(es, b, auth).value, es)
    ensures ReplayAll(es + [e], b, auth).Ok? <==> Legal(es, e, b, auth)
    ensures ReplayAll(es + [e], b, auth).Ok? ==> Tells(ReplayAll(es + [e], b, auth).value, es + [e])
  {
    hide ReplayAll, Transition, Permits, Has, WorkersTell, RowsTell, OneCommitEach;
    var s := ReplayAll(es, b, auth).value;
    AcceptedJournalOk(es, b, auth);
    ReplayAppend(es, e, b, auth);
    PermittedIffAccepted(s, es, e, b, auth);
    if s.archive.None? && Transition(s, e, b, auth).Ok? {
      TellsStep(s, es, e, b, auth);
    }
  }

  // ---------- what a FREEZE records ----------

  /** One event's witness lists a record once. */
  lemma ListedOnce(es: seq<Event>, b: Binding, auth: Option<Authority>, i: nat)
    requires LegalJournal(es, b, auth) && i < |es| && es[i].payload.Committed?
    ensures forall f, g :: f in es[i].payload.evidence.trades && g in es[i].payload.evidence.trades && f.recordId == g.recordId ==> f == g
  {
    hide AdmittedTo, Has;
    assert i > 0;
    assert Legal(es[..i], es[i], b, auth);
  }

  lemma WitnessedIsRecorded(es: seq<Event>, b: Binding, auth: Option<Authority>, facts: map<int, Fact>, f: Fact)
    requires LegalJournal(es, b, auth) && AllWitnessed(facts, es, b) && !Shared(es, b) && Witnessed(es, b, f)
    ensures f.recordId in facts && facts[f.recordId] == f
  {
    hide LegalJournal;
    var g := facts[f.recordId];
    var i :| 0 <= i < |es| && Contributes(es[i], b, f);
    var j :| 0 <= j < |es| && Contributes(es[j], b, g);
    if i == j {
      ListedOnce(es, b, auth, i);
    }
  }

  lemma LegalPrefix(es: seq<Event>, k: nat, b: Binding, auth: Option<Authority>)
    requires LegalJournal(es, b, auth) && 0 < k <= |es|
    ensures LegalJournal(es[..k], b, auth)
  {
    hide Legal, Armed, Rostered;
    forall i | 1 <= i < k
      ensures Legal(es[..k][..i], es[..k][i], b, auth)
    {
      assert es[..k][..i] == es[..i];
    }
  }

  /**
   In every accepted journal a FREEZE records, by record ID, exactly the facts that the evidence of
   commits before it lists for wallets of the cohort, ingested within the window.
   */
  lemma FreezeRecordsTheCohort(es: seq<Event>, b: Binding, auth: Option<Authority>, k: nat)
    requires ReplayAll(es, b, auth).Ok? && k < |es| && es[k].payload.Freeze?
    ensures var facts := es[k].payload.facts;
      && (forall f: Fact :: f.recordId in facts && facts[f.recordId] == f <==> Witnessed(es[..k], b, f))
      && (forall id :: id in facts ==> facts[id].recordId == id)
  {
    hide ReplayAll, LegalJournal, Witnessed, Shared, Has;
    AcceptedIffLegal(es, b, auth);
    var facts, past := es[k].payload.facts, es[..k];
    FreezeLegal(es, b, auth, k);
    LegalPrefix(es, k, b, auth);
    forall f: Fact
      ensures f.recordId in facts && facts[f.recordId] == f <==> Witnessed(past, b, f)
    {
      if Witnessed(past, b, f) {
        WitnessedIsRecorded(past, b, auth, facts, f);
      }
    }
  }

  lemma FreezeLegal(es: seq<Event>, b: Binding, auth: Option<Authority>, k: nat)
    requires LegalJournal(es, b, auth) && k < |es| && es[k].payload.Freeze?
    ensures k > 0 && AllWitnessed(es[k].payload.facts, es[..k], b) && !Shared(es[..k], b)
  {
    hide Has, AllWitnessed, Shared;
    assert k > 0;
    assert Legal(es[..k], es[k], b, auth);
  }

  /** As soon as two commits contribute facts of one record, every FREEZE is refused. */
  lemma SharedRecordRefusesFreeze(es: seq<Event>, e: Event, b: Binding, auth: Option<Authority>)
    requires ReplayAll(es, b, auth).Ok? && e.payload.Freeze? && Shared(es, b)
    ensures ReplayAll(es + [e], b, auth).Err?
  {
    hide ReplayAll, Shared, Has, AllWitnessed, Tells, Armed, Rostered;
    AcceptedIffLegal(es, b, auth);
    AcceptedIffLegal(es + [e], b, auth);
    LegalMore(es, e, b, auth);
  }

  /**
   What `complete` waits for, in an accepted journal: a CLOSE, the ACKs of exactly the roster's workers, and a
   resolution of every attempt of the closed epoch.
   */
  lemma ReadyIff(es: seq<Event>, b: Binding, auth: Option<Authority>)
    requires ReplayAll(es, b, auth).Ok?
    ensures P.ReadyToFence(ReplayAll(es, b, auth).value, b) <==>
      && Has(es, AnyClose) && (forall w :: w in b.workers <==> Has(es, AckOf(w)))
      && (forall t :: AdmittedIn(es, t, 0) ==> Has(es, CommitOf(t)) || Has(es, RollbackOf(t)))
  {
    hide Has, ReplayAll, RowsTell, AdmittedIn, EpochZero;
    AcceptedIffLegal(es, b, auth);
    var s := ReplayAll(es, b, auth).value;
    ClosedSets(s, es);
    assert s.acks == WorkerSet(b.workers) <==> EveryoneAcked(es, b) by { SameWorkers(s.acks, b); }
    forall t
      ensures InClosed(es, t) <==> AdmittedIn(es, t, 0)
    {
      AdmittedIsAttempted(es, t);
    }
    NoneOutstanding(s, b);
  }

  lemma AdmittedIsAttempted(es: seq<Event>, t: Token)
    ensures InClosed(es, t) <==> AdmittedIn(es, t, 0)
  {
  }

  lemma NoneOutstanding(s: State, b: Binding)
    ensures ReceiptOf(s, b).outstanding == 0 <==> EpochZero(s.attempts, Outstanding) == {}
  {
    hide EpochZero;
  }
}
