/**
 The frozen decision drain (poly2-comparison-drain.py) and the fence's streaming re-validation of its
 journal.  A frame carries its predecessor in place of the predecessor's digest; a frame's digests of
 its own fields are left out.
 */
module Drain {
  import opened Wrappers

  datatype Fact = Fact(recordId: int, eventId: string, detail: int)
  datatype Decision = Decision(eventId: string, decided: Option<int>, detail: int)
  datatype MarkState = Recorded | NoDecisionExpected | Pending | CaptureError
  datatype Mark = Mark(state: MarkState, decision: Option<Decision>)
  datatype Counts = Counts(recorded: int, noDecision: int, pending: int, captureError: int)
  datatype FrameState = Failed | Complete | Draining

  datatype Fault =
    | SafetyTimeout
    | SourceChanged
    | DecisionRetention
    | OutsideFrozenSet
    | DecisionConflict
    | OtherFault(text: string)

  datatype Frame = Frame(
    binding: int, cursor: int, previous: Option<Frame>, observed: int, frozenIds: seq<int>, facts: seq<Fact>,
    perId: map<string, Mark>, counts: Counts, error: Option<Fault>, state: FrameState,
    eligible: bool, admissionUnproven: bool)

  /** Who vouches for the population: nobody, or a fence that froze exactly these facts. */
  datatype Authority = Standalone | Fenced(frozen: seq<Fact>, healthy: bool)

  datatype Config = Config(binding: int, end: int, authority: Authority)

  /** `_population_proof` raises for a fenced drain whose facts or fence do not match. */
  predicate ProofAvailable(a: Authority, facts: seq<Fact>) {
    a.Fenced? ==> a.healthy && facts == a.frozen
  }

  predicate Truthy(e: Option<Fault>) {
    e.Some? && e.value != OtherFault("")
  }

  function IdsOf(facts: seq<Fact>): seq<int> {
    seq(|facts|, i requires 0 <= i < |facts| => facts[i].recordId)
  }

  function EventsOf(facts: seq<Fact>): set<string> {
    set i | 0 <= i < |facts| :: facts[i].eventId
  }

  predicate Distinct(facts: seq<Fact>) {
    forall i, j :: 0 <= i < j < |facts| ==> facts[i].recordId != facts[j].recordId && facts[i].eventId != facts[j].eventId
  }

  function Marked(perId: map<string, Mark>, s: MarkState): set<string> {
    set k | k in perId && perId[k].state == s
  }

  function CountsOf(perId: map<string, Mark>): Counts {
    Counts(|Marked(perId, Recorded)|, |Marked(perId, NoDecisionExpected)|, |Marked(perId, Pending)|, |Marked(perId, CaptureError)|)
  }

  function Total(c: Counts): int {
    c.recorded + c.noDecision + c.pending + c.captureError
  }

  predicate AllSettled(c: Counts) {
    c.pending == 0 && c.captureError == 0
  }

  function StateOf(error: Option<Fault>, counts: Counts): FrameState {
    if Truthy(error) then Failed else if AllSettled(counts) then Complete else Draining
  }

  predicate MarkOk(event: string, m: Mark) {
    && m.state != NoDecisionExpected
    && (m.state == Recorded ==> m.decision.Some? && m.decision.value.eventId == event && m.decision.value.decided.Some?)
  }

  predicate Terminal(f: Frame) {
    f.state == Failed || f.state == Complete
  }

  // ---------- validation ----------

  /** What a frame must say of itself. */
  predicate BodyOk(c: Config, f: Frame) {
    && f.frozenIds == IdsOf(f.facts) && Distinct(f.facts)
    && f.perId.Keys == EventsOf(f.facts)
    && f.counts == CountsOf(f.perId) && Total(f.counts) == |f.frozenIds|
    && (forall k :: k in f.perId ==> MarkOk(k, f.perId[k]))
    && f.state == StateOf(f.error, f.counts)
    && ProofAvailable(c.authority, f.facts)
    && f.eligible == (c.authority.Fenced? && AllSettled(f.counts) && !Truthy(f.error))
    && f.admissionUnproven == c.authority.Standalone?
  }

  /** What a frame may change of the one before it. */
  predicate Follows(f: Frame, p: Frame) {
    && !Terminal(p) && f.frozenIds == p.frozenIds && f.facts == p.facts
    && (forall k :: k in p.perId && p.perId[k].state == Recorded ==> k in f.perId && f.perId[k] == p.perId[k])
  }

  /** `_validate`, given the previous frame and the cursor expected. */
  predicate Valid(c: Config, f: Frame, previous: Option<Frame>, cursor: int) {
    && f.binding == c.binding && f.cursor == cursor && f.previous == previous
    && BodyOk(c, f)
    && (previous.Some? ==> Follows(f, previous.value))
  }

  function Before(frames: seq<Frame>, i: nat): Option<Frame>
    requires i <= |frames|
  {
    if i == 0 then None else Some(frames[i - 1])
  }

  function Last(frames: seq<Frame>): Option<Frame> {
    Before(frames, |frames|)
  }

  /** One frame against the one before and its own position. */
  ghost predicate ValidAt(c: Config, frames: seq<Frame>, i: nat)
    requires i < |frames|
  {
    Valid(c, frames[i], Before(frames, i), i + 1)
  }

  /** A journal read from its start. */
  ghost predicate FullValid(c: Config, frames: seq<Frame>) {
    forall i :: 0 <= i < |frames| ==> ValidAt(c, frames, i)
  }

  /** One frame against the one before, the cursor taken from the frame itself. */
  ghost predicate StreamedAt(c: Config, frames: seq<Frame>, i: nat)
    requires i < |frames|
  {
    Valid(c, frames[i], Before(frames, i), frames[i].cursor - 1 + 1)
  }

  /** `_validate_terminal`. */
  ghost predicate StreamValid(c: Config, frames: seq<Frame>) {
    forall i :: 0 <= i < |frames| ==> StreamedAt(c, frames, i)
  }

  ghost predicate Numbered(frames: seq<Frame>) {
    forall i :: 0 <= i < |frames| ==> frames[i].cursor == i + 1
  }

  // ---------- producing ----------

  function Contained(perId: map<string, Mark>, error: Option<Fault>): map<string, Mark> {
    if Truthy(error) && error != Some(SafetyTimeout)
    then map k | k in perId :: if perId[k].state == Pending then Mark(CaptureError, None) else perId[k]
    else perId
  }

  /** The frame `_append` builds, before it is validated. */
  function Build(c: Config, frames: seq<Frame>, facts: seq<Fact>, perId: map<string, Mark>, error: Option<Fault>, observed: int): Frame {
    var marks := Contained(perId, error);
    var counts := CountsOf(marks);
    Frame(c.binding, |frames| + 1, Last(frames), observed, IdsOf(facts), facts, marks, counts, error,
          StateOf(error, counts), c.authority.Fenced? && AllSettled(counts) && !Truthy(error), c.authority.Standalone?)
  }

  /** The newest decision the scan lists for each event. */
  function Latest(decisions: seq<Decision>): map<string, Decision> {
    if decisions == [] then map[]
    else Latest(decisions[..|decisions| - 1])[decisions[|decisions| - 1].eventId := decisions[|decisions| - 1]]
  }

  /** A decision already held is gone from the scan, or differs. */
  predicate Lost(perId: map<string, Mark>, latest: map<string, Decision>) {
    exists k :: k in perId && perId[k].decision.Some? && !(k in latest && latest[k] == perId[k].decision.value)
  }

  datatype Absorbed = Absorbed(perId: map<string, Mark>, error: Option<Fault>)

  /** The decision loop of `step`. */
  function Absorb(perId: map<string, Mark>, decisions: seq<Decision>): Absorbed {
    if decisions == [] then Absorbed(perId, None)
    else
      var d := decisions[0];
      if d.eventId !in perId then Absorbed(perId, Some(OutsideFrozenSet))
      else if perId[d.eventId].decision.Some? && perId[d.eventId].decision.value != d then Absorbed(perId, Some(DecisionConflict))
      else Absorb(if d.decided.Some? then perId[d.eventId := Mark(Recorded, Some(d))] else perId, decisions[1..])
  }

  function AllPending(facts: seq<Fact>): map<string, Mark> {
    map k | k in EventsOf(facts) :: Mark(Pending, None)
  }

  /** The frame `step` proposes for one scan. */
  function Proposal(c: Config, frames: seq<Frame>, trades: seq<Fact>, decisions: seq<Decision>, observed: int): Frame {
    var facts := if frames == [] then trades else frames[|frames| - 1].facts;
    var perId := if frames == [] then AllPending(facts) else frames[|frames| - 1].perId;
    if frames != [] && trades != facts then Build(c, frames, facts, perId, Some(SourceChanged), observed)
    else if Lost(perId, Latest(decisions)) then Build(c, frames, facts, perId, Some(DecisionRetention), observed)
    else
      var a := Absorb(perId, decisions);
      Build(c, frames, facts, a.perId, a.error, observed)
  }
}
