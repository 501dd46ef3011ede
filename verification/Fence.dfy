/**
 The source epoch fence as an event journal (poly2-comparison-fence.py).

 `Accept` is one turn of `replay`: every check, in the program's order, and the state it leaves.
 A digest stands for the value it was taken of, so an event carries its predecessor itself: equal
 digests mean equal values and nothing else is assumed of hashing.  A list of facts sorted by its
 stable record ID, one fact per ID, is the map from ID to fact.  Clocks are integers.
 */
module Fence {
  import opened Wrappers

  type Token = string
  datatype Service = Backend | Bot | OtherService
  datatype Worker = Worker(service: Service, name: string)

  /** One inserted trade as a witness records it. */
  datatype Fact = Fact(recordId: int, eventId: string, wallet: string, ingested: int)

  datatype Binding = Binding(
    runId: string, workers: seq<Worker>, cohort: set<string>, start: int, end: int, observational: bool)

  /** Approved installations; present exactly when production authority is in force. */
  datatype Authority = Authority(installations: map<Worker, string>)

  datatype Witness = Witness(token: Token, binding: Binding, worker: Worker, epoch: int, trades: seq<Fact>)

  datatype Receipt = Receipt(
    runId: string, endpoint: int, closingEpoch: int, workers: set<Worker>, acks: set<Worker>,
    admitted: int, committed: int, rolledBack: int, outstanding: int, highWaterMark: Option<int>)

  /** The read-only database checkpoint a freeze cites. */
  datatype Checkpoint = Checkpoint(repeatableRead: bool, readOnly: bool, hasSnapshot: bool, facts: map<int, Fact>, ids: set<int>)

  datatype Payload =
    | Arm(binding: Binding)
    | Enroll(worker: Worker, installation: Option<string>)
    | Attempt(token: Token, worker: Worker, epoch: int, retryOf: Option<Token>)
    | Close(closingEpoch: int, nextEpoch: int)
    | Ack(worker: Worker, epoch: int)
    | Committed(token: Token, evidence: Witness)
    | RolledBack(token: Token)
    | Archive(wellFormed: bool, population: Event)
    | Error(message: string)
    | FenceDone(receipt: Receipt)
    | Freeze(facts: map<int, Fact>, ids: set<int>, count: int, fence: Event, checkpoint: Checkpoint)
    | Unknown

  datatype Event = Event(
    seqNo: int, previous: Option<Event>, binding: Binding, observed: int, payload: Payload, signed: bool)

  datatype Fate = Outstanding | WasCommitted | WasRolledBack

  datatype AttemptRow = AttemptRow(
    worker: Worker, epoch: int, retryOf: Option<Token>, admitted: int, fate: Fate, evidence: Option<Witness>)

  datatype State = State(
    epoch: int, closed: Option<Event>, workers: set<Worker>, acks: set<Worker>,
    attempts: map<Token, AttemptRow>, error: Option<string>,
    receipt: Option<Event>, population: Option<Event>, archive: Option<Event>)

  /** Why `replay` raises. */
  datatype Refusal =
    | LateWorker | UnapprovedInstallation | EnrollmentIncomplete | AttemptConflict | RetryWithoutRollback
    | CloseConflict | AckConflict | ResolutionConflict | WitnessConflict | DuplicateFacts | BoundaryViolated
    | ArchiveRefused | FenceInvalid | FenceIncomplete | FreezeTooEarly | PopulationMismatch | UnknownEvent
    | ChainConflict | ArmRequired | RosterIncomplete | MissingArm

  type Outcome = Result<State, Refusal>

  const START: State := State(0, None, {}, {}, map[], None, None, None, None)

  /** Python truthiness of `state['error']`. */
  predicate Failed(s: State) {
    s.error.Some? && s.error.value != ""
  }

  // ---------- writer roster ----------

  function WorkerSet(ws: seq<Worker>): set<Worker> {
    set w | w in ws
  }

  predicate RosterOk(b: Binding) {
    && b.workers != []
    && (forall i, j :: 0 <= i < j < |b.workers| ==> b.workers[i] != b.workers[j])
    && (set w | w in b.workers :: w.service) == {Backend, Bot}
  }

  // ---------- derived values ----------

  function EpochZero(attempts: map<Token, AttemptRow>, fate: Fate): set<Token> {
    set t | t in attempts && attempts[t].epoch == 0 && attempts[t].fate == fate
  }

  /** Recount of epoch-0 attempts by fate: the slow branch of `receipt`. */
  function Count(attempts: map<Token, AttemptRow>, fate: Fate): nat {
    |EpochZero(attempts, fate)|
  }

  function ReceiptOf(s: State, b: Binding): Receipt {
    ReceiptWith(s, b, f => Count(s.attempts, f))
  }

  function ReceiptWith(s: State, b: Binding, count: Fate -> int): Receipt {
    Receipt(b.runId, b.end, 0, WorkerSet(b.workers), s.acks,
            count(Outstanding) + count(WasCommitted) + count(WasRolledBack),
            count(WasCommitted), count(WasRolledBack), count(Outstanding),
            if s.closed.Some? then Some(s.closed.value.seqNo) else None)
  }

  predicate InScope(f: Fact, b: Binding) {
    f.wallet in b.cohort && b.start <= f.ingested <= b.end
  }

  /** The in-scope facts a committed attempt contributes. */
  function FactsOf(row: AttemptRow, b: Binding): set<Fact> {
    if row.fate == WasCommitted && row.evidence.Some?
    then set f | f in row.evidence.value.trades && InScope(f, b)
    else {}
  }

  predicate InPopulation(s: State, b: Binding, t: Token, f: Fact) {
    t in s.attempts && f in FactsOf(s.attempts[t], b)
  }

  /** One record ID claimed by two committed attempts, or by two facts. */
  predicate Contested(s: State, b: Binding) {
    exists t, t' :: t in s.attempts && t' in s.attempts && Clash(FactsOf(s.attempts[t], b), FactsOf(s.attempts[t'], b), t == t')
  }

  predicate Clash(fs: set<Fact>, fs': set<Fact>, sameAttempt: bool) {
    exists f, f' :: f in fs && f' in fs' && f.recordId == f'.recordId && (!sameAttempt || f != f')
  }

  /** `committed_population`: the facts by record ID, or None where the program raises. */
  function Population(s: State, b: Binding): Option<map<int, Fact>> {
    if Contested(s, b) then None
    else
      UncontestedFactsDiffer(s, b);
      Some(map f | f in AllFacts(s, b) :: f.recordId := f)
  }

  function AllFacts(s: State, b: Binding): (r: set<Fact>)
    ensures forall f :: f in r <==> exists t :: InPopulation(s, b, t, f)
  {
    var r := set t, f | t in s.attempts && f in FactsOf(s.attempts[t], b) :: f;
    assert forall f :: f in r ==> exists t :: InPopulation(s, b, t, f) by {
      forall f | f in r
        ensures exists t :: InPopulation(s, b, t, f)
      {
        var t :| t in s.attempts && f in FactsOf(s.attempts[t], b);
        assert InPopulation(s, b, t, f);
      }
    }
    r
  }

  lemma UncontestedFactsDiffer(s: State, b: Binding)
    requires !Contested(s, b)
    ensures forall f, f' :: f in AllFacts(s, b) && f' in AllFacts(s, b) && f.recordId == f'.recordId ==> f == f'
  {
    forall f, f' | f in AllFacts(s, b) && f' in AllFacts(s, b) && f.recordId == f'.recordId
      ensures f == f'
    {
      var t :| InPopulation(s, b, t, f);
      var t' :| InPopulation(s, b, t', f');
      assert !Clash(FactsOf(s.attempts[t], b), FactsOf(s.attempts[t'], b), t == t');
    }
  }

  predicate DistinctFacts(trades: seq<Fact>) {
    forall i, j :: 0 <= i < j < |trades| ==> trades[i].recordId != trades[j].recordId && trades[i].eventId != trades[j].eventId
  }

  // ---------- one event ----------

  /** Chain, binding and signature checks made for every event. */
  predicate Chained(s: State, e: Event, index: int, previous: Option<Event>, b: Binding, auth: Option<Authority>) {
    && s.archive.None?
    && (auth.Some? ==> e.signed)
    && e.seqNo == index && e.previous == previous && e.binding == b
  }

  predicate FreezeOk(s: State, p: Payload, b: Binding)
    requires p.Freeze? && s.receipt.Some?
  {
    var facts := Population(s, b);
    && facts.Some?
    && p.facts == facts.value && p.ids == facts.value.Keys && p.fence == s.receipt.value
    && p.count == |facts.value|
    && p.checkpoint.repeatableRead && p.checkpoint.readOnly && p.checkpoint.hasSnapshot
    && p.checkpoint.facts == facts.value && p.checkpoint.ids == p.ids
  }

  // One function per event kind: the checks of `replay` in its order, and the state they leave.

  function OnEnroll(s: State, e: Event, w: Worker, inst: Option<string>, b: Binding, auth: Option<Authority>): Outcome {
    if s.closed.Some? || w !in b.workers || w in s.workers then Err(LateWorker)
    else if auth.Some? && (e.observed >= b.start || w !in auth.value.installations || inst != Some(auth.value.installations[w]))
    then Err(UnapprovedInstallation)
    else Ok(s.(workers := s.workers + {w}))
  }

  function OnAttempt(
    s: State, e: Event, t: Token, w: Worker, ep: int, retry: Option<Token>, b: Binding, auth: Option<Authority>): Outcome
  {
    if auth.Some? && s.workers != WorkerSet(b.workers) then Err(EnrollmentIncomplete)
    else if w !in s.workers || t in s.attempts || ep != s.epoch then Err(AttemptConflict)
    else if retry.Some? && (retry.value !in s.attempts || s.attempts[retry.value].fate != WasRolledBack)
    then Err(RetryWithoutRollback)
    else Ok(s.(attempts := s.attempts[t := AttemptRow(w, ep, retry, e.observed, Outstanding, None)]))
  }

  function OnClose(s: State, e: Event, closing: int, next: int, b: Binding): Outcome {
    if s.closed.Some? || closing != s.epoch || next != s.epoch + 1 || e.observed <= b.end
    then Err(CloseConflict)
    else Ok(s.(closed := Some(e), epoch := s.epoch + 1))
  }

  function OnAck(s: State, w: Worker, ep: int): Outcome {
    if s.closed.None? || w !in s.workers || ep != s.epoch then Err(AckConflict)
    else Ok(s.(acks := s.acks + {w}))
  }

  predicate BeforeEnd(trades: seq<Fact>, end: int) {
    exists i :: 0 <= i < |trades| && trades[i].ingested <= end
  }

  function OnCommitted(s: State, t: Token, w: Witness, b: Binding): Outcome {
    if t !in s.attempts || s.attempts[t].fate != Outstanding then Err(ResolutionConflict)
    else
      var a := s.attempts[t];
      if w.token != t || w.binding != b || w.worker != a.worker || w.epoch != a.epoch then Err(WitnessConflict)
      else if !DistinctFacts(w.trades) then Err(DuplicateFacts)
      else if a.epoch > 0 && BeforeEnd(w.trades, b.end)
      then Err(BoundaryViolated)
      else Ok(s.(attempts := s.attempts[t := a.(fate := WasCommitted, evidence := Some(w))]))
  }

  function OnRolledBack(s: State, t: Token): Outcome {
    if t !in s.attempts || s.attempts[t].fate != Outstanding then Err(ResolutionConflict)
    else Ok(s.(attempts := s.attempts[t := s.attempts[t].(fate := WasRolledBack)]))
  }

  function OnArchive(s: State, e: Event, wellFormed: bool, pop: Event, auth: Option<Authority>): Outcome {
    if auth.None? || s.population.None? || Failed(s) || !wellFormed || pop != s.population.value
    then Err(ArchiveRefused)
    else Ok(s.(archive := Some(e)))
  }

  function OnFence(s: State, e: Event, r: Receipt, b: Binding): Outcome {
    if s.receipt.Some? || Failed(s) || s.closed.None? then Err(FenceInvalid)
    else if r != ReceiptOf(s, b) || r.outstanding != 0 || s.acks != WorkerSet(b.workers)
    then Err(FenceIncomplete)
    else Ok(s.(receipt := Some(e)))
  }

  function OnFreeze(s: State, e: Event, b: Binding): Outcome
    requires e.payload.Freeze?
  {
    if s.receipt.None? || s.population.Some? || Failed(s) then Err(FreezeTooEarly)
    else if !FreezeOk(s, e.payload, b) then Err(PopulationMismatch)
    else Ok(s.(population := Some(e)))
  }

  /** One turn of the loop of `replay`, the ARM event apart. */
  function Transition(s: State, e: Event, b: Binding, auth: Option<Authority>): Outcome {
    match e.payload
    case Enroll(w, inst) => OnEnroll(s, e, w, inst, b, auth)
    case Attempt(t, w, ep, retry) => OnAttempt(s, e, t, w, ep, retry, b, auth)
    case Close(closing, next) => OnClose(s, e, closing, next, b)
    case Ack(w, ep) => OnAck(s, w, ep)
    case Committed(t, w) => OnCommitted(s, t, w, b)
    case RolledBack(t) => OnRolledBack(s, t)
    case Archive(wellFormed, pop) => OnArchive(s, e, wellFormed, pop, auth)
    case Error(msg) => Ok(s.(error := Some(msg)))
    case FenceDone(r) => OnFence(s, e, r, b)
    case Freeze(_, _, _, _, _) => OnFreeze(s, e, b)
    case Arm(_) => Err(UnknownEvent)
    case Unknown => Err(UnknownEvent)
  }

  function Accept(
    s: State, e: Event, index: int, previous: Option<Event>, b: Binding, auth: Option<Authority>): Outcome
  {
    if !Chained(s, e, index, previous, b, auth) then Err(ChainConflict)
    else if index == 1 then
      if e.payload != Arm(b) || e.observed > b.start || (auth.Some? && e.observed >= b.start)
      then Err(ArmRequired)
      else Ok(s)
    else Transition(s, e, b, auth)
  }

  predicate Admissible(b: Binding, auth: Option<Authority>) {
    RosterOk(b) && (b.observational ==> auth.Some?)
  }

  /** The loop of `replay`, continued from a state, an index and the previous event. */
  function Replay(
    events: seq<Event>, s: State, start: int, previous: Option<Event>, b: Binding, auth: Option<Authority>): Outcome
    decreases |events|
  {
    if events == [] then Ok(s)
    else
      var r := Accept(s, events[0], start, previous, b, auth);
      if r.Err? then r else Replay(events[1..], r.value, start + 1, Some(events[0]), b, auth)
  }

  /** A whole journal is accepted: nonempty, and every event in its place. */
  function ReplayAll(events: seq<Event>, b: Binding, auth: Option<Authority>): Outcome {
    if !Admissible(b, auth) then Err(RosterIncomplete)
    else if events == [] then Err(MissingArm)
    else Replay(events, START, 1, None, b, auth)
  }

  function LastOf(events: seq<Event>, previous: Option<Event>): Option<Event> {
    if events == [] then previous else Some(events[|events| - 1])
  }

  /** Replay may stop anywhere and be continued from the state it left. */
  lemma {:induction false} ReplaySplits(
    a: seq<Event>, c: seq<Event>, s: State, start: int, previous: Option<Event>, b: Binding, auth: Option<Authority>)
    ensures Replay(a + c, s, start, previous, b, auth)
         == var r := Replay(a, s, start, previous, b, auth);
            if r.Err? then r else Replay(c, r.value, start + |a|, LastOf(a, previous), b, auth)
    decreases |a|
  {
    hide Accept;
    if a == [] {
      assert a + c == c;
    } else {
      assert (a + c)[1..] == a[1..] + c;
      var r := Accept(s, a[0], start, previous, b, auth);
      if r.Ok? {
        ReplaySplits(a[1..], c, r.value, start + 1, Some(a[0]), b, auth);
        assert LastOf(a[1..], Some(a[0])) == LastOf(a, previous);
      }
    }
  }

  lemma ReplayOne(e: Event, s: State, start: int, previous: Option<Event>, b: Binding, auth: Option<Authority>)
    ensures Replay([e], s, start, previous, b, auth) == Accept(s, e, start, previous, b, auth)
  {
    hide Accept;
    var r := Accept(s, e, start, previous, b, auth);
    assert [e][1..] == [];
    if r.Ok? {
      assert Replay([e][1..], r.value, start + 1, Some(e), b, auth) == Ok(r.value);
    }
  }

  /** Every prefix of an accepted journal is accepted. */
  lemma ReplayPrefix(events: seq<Event>, k: nat, b: Binding, auth: Option<Authority>)
    requires ReplayAll(events, b, auth).Ok? && 0 < k <= |events|
    ensures ReplayAll(events[..k], b, auth).Ok?
  {
    assert events == events[..k] + events[k..];
    ReplaySplits(events[..k], events[k..], START, 1, None, b, auth);
  }

  /** An accepted journal extended by one event. */
  lemma ReplayAppend(events: seq<Event>, e: Event, b: Binding, auth: Option<Authority>)
    requires ReplayAll(events, b, auth).Ok?
    ensures ReplayAll(events + [e], b, auth)
         == Accept(ReplayAll(events, b, auth).value, e, |events| + 1, Some(events[|events| - 1]), b, auth)
  {
    hide Accept;
    ReplaySplits(events, [e], START, 1, None, b, auth);
    ReplayOne(e, ReplayAll(events, b, auth).value, |events| + 1, LastOf(events, None), b, auth);
  }
}
