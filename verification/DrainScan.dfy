/**
 What one scan does to the drain: which decisions it records, which fault it finds, and the state of the
 frame that says so.  Everything is stated of the scan's two lists and the marks before it.
 */
module DrainScan {
  import opened Wrappers
  import opened Drain
  import opened DrainLaws

  // ---------- the scan, decision by decision ----------

  predicate Decides(d: Decision, event: string) {
    d.eventId == event && d.decided.Some?
  }

  /** Decision `i` contradicts the decision held before the scan, or one decided earlier in it. */
  ghost predicate Contradicts(perId: map<string, Mark>, ds: seq<Decision>, i: nat)
    requires i < |ds| && ds[i].eventId in perId
  {
    || (perId[ds[i].eventId].decision.Some? && perId[ds[i].eventId].decision.value != ds[i])
    || (exists j :: 0 <= j < i && Decides(ds[j], ds[i].eventId) && ds[j] != ds[i])
  }

  ghost predicate Foreign(perId: map<string, Mark>, ds: seq<Decision>, i: nat)
    requires i < |ds|
  {
    ds[i].eventId !in perId
  }

  ghost predicate Bad(perId: map<string, Mark>, ds: seq<Decision>, i: nat)
    requires i < |ds|
  {
    Foreign(perId, ds, i) || Contradicts(perId, ds, i)
  }

  ghost predicate FirstBad(perId: map<string, Mark>, ds: seq<Decision>, i: nat) {
    i < |ds| && Bad(perId, ds, i) && forall j :: 0 <= j < i ==> !Bad(perId, ds, j)
  }

  /** Every decided event is marked with its decision, every other mark is as it was. */
  ghost predicate Took(perId: map<string, Mark>, ds: seq<Decision>, marks: map<string, Mark>) {
    && marks.Keys == perId.Keys
    && (forall i :: 0 <= i < |ds| && ds[i].decided.Some? && ds[i].eventId in perId ==>
          marks[ds[i].eventId] == Mark(Recorded, Some(ds[i])))
    && (forall k :: k in perId && (forall i :: 0 <= i < |ds| ==> !Decides(ds[i], k)) ==> marks[k] == perId[k])
  }

  function AfterOne(perId: map<string, Mark>, d: Decision): map<string, Mark> {
    if d.decided.Some? && d.eventId in perId then perId[d.eventId := Mark(Recorded, Some(d))] else perId
  }

  /** Having taken the first decision, the rest of the scan is as bad as it was. */
  lemma BadShifts(perId: map<string, Mark>, ds: seq<Decision>, i: nat)
    requires 0 < i < |ds| && !Bad(perId, ds, 0)
    ensures Bad(AfterOne(perId, ds[0]), ds[1..], i - 1) <==> Bad(perId, ds, i)
  {
    var rest, e := ds[1..], ds[i].eventId;
    assert rest[i - 1] == ds[i];
    if e in perId {
      if exists j :: 0 <= j < i && Decides(ds[j], e) && ds[j] != ds[i] {
        var j :| 0 <= j < i && Decides(ds[j], e) && ds[j] != ds[i];
        if j > 0 {
          assert rest[j - 1] == ds[j];
        }
      }
      if exists j :: 0 <= j < i - 1 && Decides(rest[j], e) && rest[j] != ds[i] {
        var j :| 0 <= j < i - 1 && Decides(rest[j], e) && rest[j] != ds[i];
        assert ds[j + 1] == rest[j];
      }
    }
  }

  /** What the decision loop leaves, fault or none. */
  lemma {:induction false} AbsorbTakes(perId: map<string, Mark>, ds: seq<Decision>, n: nat)
    requires n <= |ds| && (forall j :: 0 <= j < n ==> !Bad(perId, ds, j)) && (n < |ds| ==> Bad(perId, ds, n))
    ensures var a := Absorb(perId, ds);
      && Took(perId, ds[..n], a.perId)
      && a.error == if n == |ds| then None else if Foreign(perId, ds, n) then Some(OutsideFrozenSet) else Some(DecisionConflict)
    decreases |ds|
  {
    if ds != [] && n > 0 {
      var next, rest := AfterOne(perId, ds[0]), ds[1..];
      assert !Bad(perId, ds, 0);
      forall j | 0 <= j < n - 1
        ensures !Bad(next, rest, j)
      {
        BadShifts(perId, ds, j + 1);
      }
      if n < |ds| {
        BadShifts(perId, ds, n);
      }
      AbsorbTakes(next, rest, n - 1);
      TookFirst(perId, ds, n, Absorb(next, rest).perId);
    }
  }

  lemma TookFirst(perId: map<string, Mark>, ds: seq<Decision>, n: nat, marks: map<string, Mark>)
    requires 0 < n <= |ds| && forall j :: 0 <= j < n ==> !Bad(perId, ds, j)
    requires Took(AfterOne(perId, ds[0]), ds[1..][..n - 1], marks)
    ensures Took(perId, ds[..n], marks)
  {
    var next, rest, taken := AfterOne(perId, ds[0]), ds[1..][..n - 1], ds[..n];
    assert forall i :: 0 < i < n ==> taken[i] == rest[i - 1];
    forall i | 0 <= i < n && taken[i].decided.Some? && taken[i].eventId in perId
      ensures marks[taken[i].eventId] == Mark(Recorded, Some(taken[i]))
    {
      if i == 0 {
        var k := ds[0].eventId;
        if exists j :: 0 <= j < |rest| && Decides(rest[j], k) {
          var j :| 0 <= j < |rest| && Decides(rest[j], k);
          assert rest[j] == ds[j + 1] && !Bad(perId, ds, j + 1);
          assert Decides(ds[0], ds[j + 1].eventId);
        }
      } else {
        assert rest[i - 1] == taken[i];
      }
    }
    forall k | k in perId && forall i :: 0 <= i < |taken| ==> !Decides(taken[i], k)
      ensures marks[k] == perId[k]
    {
      assert !Decides(taken[0], k);
      forall j | 0 <= j < |rest|
        ensures !Decides(rest[j], k)
      {
        assert taken[j + 1] == rest[j];
      }
    }
  }

  // ---------- decisions withdrawn ----------

  /** The newest decision the scan lists for an event. */
  ghost predicate NewestFor(ds: seq<Decision>, event: string, d: Decision) {
    exists i :: 0 <= i < |ds| && ds[i] == d && d.eventId == event && forall j :: i < j < |ds| ==> ds[j].eventId != event
  }

  lemma {:induction false} LatestIsNewest(ds: seq<Decision>, event: string, d: Decision)
    ensures event in Latest(ds) && Latest(ds)[event] == d <==> NewestFor(ds, event, d)
  {
    if ds != [] {
      var n := |ds| - 1;
      LatestIsNewest(ds[..n], event, d);
      if ds[n].eventId != event {
        if NewestFor(ds, event, d) {
          var i :| 0 <= i < |ds| && ds[i] == d && d.eventId == event && forall j :: i < j < |ds| ==> ds[j].eventId != event;
          assert ds[..n][i] == d;
        }
        if NewestFor(ds[..n], event, d) {
          var i :| 0 <= i < n && ds[..n][i] == d && d.eventId == event && forall j :: i < j < n ==> ds[..n][j].eventId != event;
          assert forall j :: i < j < n ==> ds[..n][j] == ds[j];
        }
      }
    }
  }

  /** A decision held before the scan is not the newest one it lists. */
  ghost predicate Withdrawn(perId: map<string, Mark>, ds: seq<Decision>) {
    exists k :: k in perId && perId[k].decision.Some? && !NewestFor(ds, k, perId[k].decision.value)
  }

  lemma LostIsWithdrawn(perId: map<string, Mark>, ds: seq<Decision>)
    ensures Lost(perId, Latest(ds)) <==> Withdrawn(perId, ds)
  {
    hide Latest, NewestFor;
    if Lost(perId, Latest(ds)) {
      var k :| k in perId && perId[k].decision.Some? && !(k in Latest(ds) && Latest(ds)[k] == perId[k].decision.value);
      LatestIsNewest(ds, k, perId[k].decision.value);
    }
    if Withdrawn(perId, ds) {
      var k :| k in perId && perId[k].decision.Some? && !NewestFor(ds, k, perId[k].decision.value);
      LatestIsNewest(ds, k, perId[k].decision.value);
    }
  }

  // ---------- the frame ----------

  ghost function FactsBefore(frames: seq<Frame>, trades: seq<Fact>): seq<Fact> {
    if frames == [] then trades else frames[|frames| - 1].facts
  }

  /** Every event pending where nothing was drained yet. */
  ghost predicate MarksBefore(frames: seq<Frame>, trades: seq<Fact>, perId: map<string, Mark>) {
    if frames != [] then perId == frames[|frames| - 1].perId
    else perId.Keys == EventsOf(trades) && forall k :: k in perId ==> perId[k] == Mark(Pending, None)
  }

  /** The fault of a scan, the first that applies. */
  ghost predicate FaultIs(frames: seq<Frame>, trades: seq<Fact>, ds: seq<Decision>, perId: map<string, Mark>, fault: Option<Fault>) {
    if frames != [] && trades != frames[|frames| - 1].facts then fault == Some(SourceChanged)
    else if Withdrawn(perId, ds) then fault == Some(DecisionRetention)
    else
      && (fault == Some(OutsideFrozenSet) <==> exists i: nat :: FirstBad(perId, ds, i) && Foreign(perId, ds, i))
      && (fault == Some(DecisionConflict) <==> exists i: nat :: FirstBad(perId, ds, i) && !Foreign(perId, ds, i))
      && (fault == None <==> forall i :: 0 <= i < |ds| ==> !Bad(perId, ds, i))
  }

  /** Nothing stays pending in a failed frame; recorded marks stay. */
  ghost predicate Spoiled(was: map<string, Mark>, marks: map<string, Mark>) {
    && marks.Keys == was.Keys
    && (forall k :: k in was && was[k].state == Pending ==> marks[k] == Mark(CaptureError, None))
    && (forall k :: k in was && was[k].state != Pending ==> marks[k] == was[k])
  }

  ghost predicate TookUntil(perId: map<string, Mark>, ds: seq<Decision>, fault: Option<Fault>, marks: map<string, Mark>) {
    if fault == Some(SourceChanged) || fault == Some(DecisionRetention) then Spoiled(perId, marks)
    else if fault == None then Took(perId, ds, marks)
    else exists n: nat, mid :: FirstBad(perId, ds, n) && Took(perId, ds[..n], mid) && Spoiled(mid, marks)
  }

  lemma ContainedSpoils(perId: map<string, Mark>, error: Option<Fault>)
    ensures if Truthy(error) && error != Some(SafetyTimeout) then Spoiled(perId, Contained(perId, error))
            else Contained(perId, error) == perId
  {
  }

  /** The first bad decision, or the end of the scan. */
  lemma {:induction false} Reach(perId: map<string, Mark>, ds: seq<Decision>, n: nat) returns (r: nat)
    requires n <= |ds| && forall j :: 0 <= j < n ==> !Bad(perId, ds, j)
    ensures r <= |ds| && (forall j :: 0 <= j < r ==> !Bad(perId, ds, j)) && (r < |ds| ==> FirstBad(perId, ds, r))
    decreases |ds| - n
  {
    if n == |ds| || Bad(perId, ds, n) {
      r := n;
    } else {
      r := Reach(perId, ds, n + 1);
    }
  }

  lemma AbsorbOutcome(perId: map<string, Mark>, ds: seq<Decision>)
    ensures var a := Absorb(perId, ds);
      && (a.error == Some(OutsideFrozenSet) <==> exists i: nat :: FirstBad(perId, ds, i) && Foreign(perId, ds, i))
      && (a.error == Some(DecisionConflict) <==> exists i: nat :: FirstBad(perId, ds, i) && !Foreign(perId, ds, i))
      && (a.error == None <==> forall i :: 0 <= i < |ds| ==> !Bad(perId, ds, i))
      && (a.error in {None, Some(OutsideFrozenSet), Some(DecisionConflict)})
      && (a.error == None ==> Took(perId, ds, a.perId))
      && (a.error != None ==> exists n: nat :: FirstBad(perId, ds, n) && Took(perId, ds[..n], a.perId))
  {
    hide Absorb, Took, Bad, Foreign;
    var n := Reach(perId, ds, 0);
    AbsorbTakes(perId, ds, n);
    if n == |ds| {
      assert ds[..n] == ds;
    }
    OnlyFirst(perId, ds);
  }

  lemma OnlyFirst(perId: map<string, Mark>, ds: seq<Decision>)
    ensures forall i: nat, j: nat :: FirstBad(perId, ds, i) && FirstBad(perId, ds, j) ==> i == j
  {
    hide Bad;
  }

  /**
   One scan on an open journal.  The frame it proposes carries the fault of the scan and no other; without
   one, exactly the events the scan decides are marked with their decisions and all other marks stay;
   with one, marks stop at the first bad decision and what is pending becomes a capture error.
   */
  lemma ScanOutcome(c: Config, frames: seq<Frame>, trades: seq<Fact>, ds: seq<Decision>, observed: int, perId: map<string, Mark>)
    requires MarksBefore(frames, trades, perId)
    ensures var p := Proposal(c, frames, trades, ds, observed);
      && p.facts == FactsBefore(frames, trades)
      && FaultIs(frames, trades, ds, perId, p.error) && TookUntil(perId, ds, p.error, p.perId)
      && (p.state == Failed <==> p.error.Some?)
      && (p.state == Complete <==> p.error.None? && forall k :: k in p.perId ==> p.perId[k].state in {Recorded, NoDecisionExpected})
      && (p.eligible <==> c.authority.Fenced? && p.state == Complete)
  {
    hide Absorb, Took, FirstBad, Foreign, Withdrawn, Lost, Latest, Contained, Bad, Spoiled;
    assert perId == if frames == [] then AllPending(trades) else frames[|frames| - 1].perId;
    LostIsWithdrawn(perId, ds);
    AbsorbOutcome(perId, ds);
    var a := Absorb(perId, ds);
    ContainedSpoils(perId, Some(SourceChanged));
    ContainedSpoils(perId, Some(DecisionRetention));
    ContainedSpoils(a.perId, a.error);
    SettledMeans(Proposal(c, frames, trades, ds, observed).perId);
  }

  lemma SettledMeans(perId: map<string, Mark>)
    ensures AllSettled(CountsOf(perId)) <==> forall k :: k in perId ==> perId[k].state in {Recorded, NoDecisionExpected}
  {
    EmptyMarked(perId, Pending);
    EmptyMarked(perId, CaptureError);
    assert forall k :: k in perId && perId[k].state == Pending ==> k in Marked(perId, Pending);
    assert forall k :: k in perId && perId[k].state == CaptureError ==> k in Marked(perId, CaptureError);
  }

  /** An event is recorded after a scan without fault exactly when it was before or the scan decides it. */
  lemma RecordedIff(c: Config, frames: seq<Frame>, trades: seq<Fact>, ds: seq<Decision>, observed: int, perId: map<string, Mark>, k: string)
    requires MarksBefore(frames, trades, perId) && k in perId && Proposal(c, frames, trades, ds, observed).error.None?
    ensures var marks := Proposal(c, frames, trades, ds, observed).perId;
      && k in marks
      && (marks[k].state == Recorded <==> perId[k].state == Recorded || exists i :: 0 <= i < |ds| && Decides(ds[i], k))
      && (forall i :: 0 <= i < |ds| && Decides(ds[i], k) ==> marks[k].decision == Some(ds[i]))
      && ((forall i :: 0 <= i < |ds| ==> !Decides(ds[i], k)) ==> marks[k] == perId[k])
  {
    hide Proposal, FaultIs;
    ScanOutcome(c, frames, trades, ds, observed, perId);
  }

  /** A first scan that lists one decided decision for every trade, and nothing else, completes the drain at once. */
  lemma FirstScanCompletes(c: Config, trades: seq<Fact>, ds: seq<Decision>, observed: int)
    requires Distinct(trades) && |ds| == |trades|
    requires forall i :: 0 <= i < |trades| ==> Decides(ds[i], trades[i].eventId)
    ensures var p := Proposal(c, [], trades, ds, observed);
      && p.state == Complete && p.error.None? && (p.eligible <==> c.authority.Fenced?)
      && forall i :: 0 <= i < |trades| ==>
           trades[i].eventId in p.perId && p.perId[trades[i].eventId] == Mark(Recorded, Some(ds[i]))
  {
    hide Proposal, Took;
    var perId := AllPending(trades);
    ScanOutcome(c, [], trades, ds, observed, perId);
    forall i | 0 <= i < |ds|
      ensures !Bad(perId, ds, i)
    {
      assert trades[i].eventId in EventsOf(trades);
    }
    NothingWithdrawn(trades, ds);
    TookAll(trades, ds, Proposal(c, [], trades, ds, observed).perId);
  }

  lemma NothingWithdrawn(trades: seq<Fact>, ds: seq<Decision>)
    ensures !Withdrawn(AllPending(trades), ds)
  {
    hide NewestFor;
  }

  lemma TookAll(trades: seq<Fact>, ds: seq<Decision>, marks: map<string, Mark>)
    requires |ds| == |trades| && (forall i :: 0 <= i < |trades| ==> Decides(ds[i], trades[i].eventId)) && Took(AllPending(trades), ds, marks)
    ensures forall k :: k in marks ==> marks[k].state == Recorded
    ensures forall i :: 0 <= i < |trades| ==> trades[i].eventId in marks && marks[trades[i].eventId] == Mark(Recorded, Some(ds[i]))
  {
    forall k | k in marks
      ensures marks[k].state == Recorded
    {
      assert k in EventsOf(trades);
      var i :| 0 <= i < |trades| && trades[i].eventId == k;
      assert Decides(ds[i], k);
    }
    forall i | 0 <= i < |trades|
      ensures trades[i].eventId in marks && marks[trades[i].eventId] == Mark(Recorded, Some(ds[i]))
    {
      assert trades[i].eventId in EventsOf(trades);
    }
  }
}
