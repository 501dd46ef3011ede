/** The drain's producer always meets its validator, and what a validated journal can never do. */
module DrainLaws {
  import opened Wrappers
  import opened Drain

  // ---------- counting ----------

  lemma MarksPartition(perId: map<string, Mark>)
    ensures var a, b, p, e := Marked(perId, Recorded), Marked(perId, NoDecisionExpected), Marked(perId, Pending), Marked(perId, CaptureError);
      perId.Keys == (a + b) + (p + e) && a !! b && p !! e && (a + b) !! (p + e)
  {
  }

  /** Every event has exactly one mark, so the counts add up. */
  lemma CountsCover(perId: map<string, Mark>)
    ensures Total(CountsOf(perId)) == |perId.Keys|
  {
    hide Marked;
    MarksPartition(perId);
    var a, b, p, e := Marked(perId, Recorded), Marked(perId, NoDecisionExpected), Marked(perId, Pending), Marked(perId, CaptureError);
    assert |a + b| == |a| + |b|;
    assert |p + e| == |p| + |e|;
    assert |(a + b) + (p + e)| == |a + b| + |p + e|;
  }

  lemma {:induction false} DistinctEvents(facts: seq<Fact>)
    requires Distinct(facts)
    ensures |EventsOf(facts)| == |facts|
  {
    if facts != [] {
      var rest, last := facts[..|facts| - 1], facts[|facts| - 1];
      DistinctEvents(rest);
      assert EventsOf(facts) == EventsOf(rest) + {last.eventId} by {
        EventsOfSnoc(rest, last);
        assert facts == rest + [last];
      }
      assert last.eventId !in EventsOf(rest);
    }
  }

  lemma EventsOfSnoc(facts: seq<Fact>, f: Fact)
    ensures EventsOf(facts + [f]) == EventsOf(facts) + {f.eventId}
  {
    var more := facts + [f];
    forall k | k in EventsOf(facts) + {f.eventId}
      ensures k in EventsOf(more)
    {
      if k in EventsOf(facts) {
        var i :| 0 <= i < |facts| && facts[i].eventId == k;
        assert more[i].eventId == k;
      } else {
        assert more[|facts|].eventId == k;
      }
    }
  }

  // ---------- marks ----------

  ghost predicate MarksOk(perId: map<string, Mark>) {
    forall k :: k in perId ==> MarkOk(k, perId[k])
  }

  /** Recorded marks of the first table are marks of the second. */
  ghost predicate KeepsRecorded(perId: map<string, Mark>, later: map<string, Mark>) {
    forall k :: k in perId && perId[k].state == Recorded ==> k in later && later[k] == perId[k]
  }

  lemma {:induction false} AbsorbKeeps(perId: map<string, Mark>, decisions: seq<Decision>)
    requires MarksOk(perId)
    ensures var a := Absorb(perId, decisions);
      && a.perId.Keys == perId.Keys && MarksOk(a.perId) && KeepsRecorded(perId, a.perId)
      && (a.error.Some? ==> Truthy(a.error) && a.error != Some(SafetyTimeout))
    decreases |decisions|
  {
    if decisions != [] {
      var d := decisions[0];
      if d.eventId in perId && !(perId[d.eventId].decision.Some? && perId[d.eventId].decision.value != d) {
        var next := if d.decided.Some? then perId[d.eventId := Mark(Recorded, Some(d))] else perId;
        assert next.Keys == perId.Keys;
        assert KeepsRecorded(perId, next) by {
          assert MarkOk(d.eventId, perId[d.eventId]);
        }
        AbsorbKeeps(next, decisions[1..]);
      }
    }
  }

  lemma ContainedKeeps(perId: map<string, Mark>, error: Option<Fault>)
    requires MarksOk(perId)
    ensures Contained(perId, error).Keys == perId.Keys && MarksOk(Contained(perId, error))
    ensures KeepsRecorded(perId, Contained(perId, error))
  {
  }

  // ---------- producer meets validator ----------

  /** A frame built over a distinct population, from marks that keep the previous ones, is valid. */
  lemma BuiltIsValid(
    c: Config, frames: seq<Frame>, facts: seq<Fact>, perId: map<string, Mark>, error: Option<Fault>, observed: int)
    requires Distinct(facts) && perId.Keys == EventsOf(facts) && MarksOk(perId) && ProofAvailable(c.authority, facts)
    requires frames != [] ==>
      var p := frames[|frames| - 1];
      !Terminal(p) && p.facts == facts && p.frozenIds == IdsOf(facts) && KeepsRecorded(p.perId, perId)
    ensures Valid(c, Build(c, frames, facts, perId, error, observed), Last(frames), |frames| + 1)
  {
    hide CountsOf, Marked, Contained, EventsOf;
    var f := Build(c, frames, facts, perId, error, observed);
    ContainedKeeps(perId, error);
    CountsCover(f.perId);
    DistinctEvents(facts);
    assert |f.frozenIds| == |facts|;
    if frames != [] {
      assert KeepsRecorded(frames[|frames| - 1].perId, f.perId);
    }
  }

  /** A frame over a population with a repeated record or event ID is refused. */
  lemma RepeatedIdRefused(c: Config, f: Frame, previous: Option<Frame>, cursor: int)
    requires !Distinct(f.facts)
    ensures !Valid(c, f, previous, cursor)
  {
    hide CountsOf, EventsOf;
  }

  /**
   Whatever a scan returns, the frame `step` proposes on an open journal passes `_validate` exactly when
   the population is vouched for and - for the first frame - the scanned trades have distinct IDs.
   */
  lemma ProposalIsValidIff(c: Config, frames: seq<Frame>, trades: seq<Fact>, decisions: seq<Decision>, observed: int)
    requires FullValid(c, frames) && (frames != [] ==> !Terminal(frames[|frames| - 1]))
    ensures Valid(c, Proposal(c, frames, trades, decisions, observed), Last(frames), |frames| + 1)
       <==> ProofAvailable(c.authority, if frames == [] then trades else frames[|frames| - 1].facts)
            && (frames == [] ==> Distinct(trades))
  {
    hide CountsOf, EventsOf, Lost, Absorb, Contained, Latest, Valid, Distinct;
    var facts := if frames == [] then trades else frames[|frames| - 1].facts;
    var perId := if frames == [] then AllPending(facts) else frames[|frames| - 1].perId;
    if !ProofAvailable(c.authority, facts) {
      UnprovenRefused(c, Proposal(c, frames, trades, decisions, observed), Last(frames), |frames| + 1);
      return;
    }
    if frames == [] {
      PendingMarks(facts);
      if !Distinct(trades) {
        RepeatedIdRefused(c, Proposal(c, frames, trades, decisions, observed), None, 1);
        return;
      }
    } else {
      LastFrameFacts(c, frames);
    }
    AbsorbKeeps(perId, decisions);
    var a := Absorb(perId, decisions);
    BuiltIsValid(c, frames, facts, perId, Some(SourceChanged), observed);
    BuiltIsValid(c, frames, facts, perId, Some(DecisionRetention), observed);
    BuiltIsValid(c, frames, facts, a.perId, a.error, observed);
  }

  lemma UnprovenRefused(c: Config, f: Frame, previous: Option<Frame>, cursor: int)
    requires !ProofAvailable(c.authority, f.facts)
    ensures !Valid(c, f, previous, cursor)
  {
    hide CountsOf, EventsOf;
  }

  lemma PendingMarks(facts: seq<Fact>)
    ensures AllPending(facts).Keys == EventsOf(facts) && MarksOk(AllPending(facts))
  {
  }

  lemma LastFrameFacts(c: Config, frames: seq<Frame>)
    requires FullValid(c, frames) && frames != []
    ensures var p := frames[|frames| - 1];
      && Distinct(p.facts) && p.frozenIds == IdsOf(p.facts) && p.perId.Keys == EventsOf(p.facts) && MarksOk(p.perId)
      && KeepsRecorded(p.perId, p.perId) && ProofAvailable(c.authority, p.facts)
  {
    hide CountsOf, EventsOf, IdsOf, Distinct;
    var n := |frames| - 1;
    assert ValidAt(c, frames, n);
  }

  /** A timeout of an active drain always passes, and ends it. */
  lemma TimeoutIsValid(c: Config, frames: seq<Frame>, observed: int)
    requires FullValid(c, frames) && frames != [] && frames[|frames| - 1].state == Draining
    ensures var p := frames[|frames| - 1];
      var f := Build(c, frames, p.facts, p.perId, Some(SafetyTimeout), observed);
      Valid(c, f, Last(frames), |frames| + 1) && f.state == Failed && f.perId == p.perId
  {
    hide CountsOf, EventsOf, Valid, Distinct;
    var p := frames[|frames| - 1];
    LastFrameFacts(c, frames);
    BuiltIsValid(c, frames, p.facts, p.perId, Some(SafetyTimeout), observed);
  }

  lemma AppendKeepsFull(c: Config, frames: seq<Frame>, f: Frame)
    requires FullValid(c, frames) && Valid(c, f, Last(frames), |frames| + 1)
    ensures FullValid(c, frames + [f])
  {
    hide Valid;
    var more := frames + [f];
    forall i | 0 <= i < |more|
      ensures ValidAt(c, more, i)
    {
      if i < |frames| {
        assert ValidAt(c, frames, i);
        assert Before(more, i) == Before(frames, i);
      } else {
        assert Before(more, i) == Last(frames);
      }
    }
  }

  // ---------- what a valid journal can never do ----------

  lemma NextFollows(c: Config, frames: seq<Frame>, i: nat)
    requires FullValid(c, frames) && i + 1 < |frames|
    ensures Follows(frames[i + 1], frames[i])
  {
    hide BodyOk;
    assert ValidAt(c, frames, i + 1);
  }

  /**
   Along any valid journal: the frozen IDs and facts never change, a recorded decision never changes,
   and a terminal frame is the last one.
   */
  lemma {:induction false} FrozenForever(c: Config, frames: seq<Frame>, i: nat, j: nat)
    requires FullValid(c, frames) && i <= j < |frames|
    ensures frames[j].frozenIds == frames[i].frozenIds && frames[j].facts == frames[i].facts
    ensures KeepsRecorded(frames[i].perId, frames[j].perId)
    ensures Terminal(frames[i]) ==> i == j
    decreases j - i
  {
    hide FullValid, Terminal, Follows;
    if i < j {
      FrozenForever(c, frames, i, j - 1);
      NextFollows(c, frames, j - 1);
      FollowFacts(frames[j], frames[j - 1]);
    }
  }

  lemma FollowFacts(f: Frame, p: Frame)
    requires Follows(f, p)
    ensures !Terminal(p) && f.frozenIds == p.frozenIds && f.facts == p.facts && KeepsRecorded(p.perId, f.perId)
  {
  }

  /** Counts add up to the population, and an eligible frame has a decision for every frozen fact. */
  lemma EligibleMeansDecided(c: Config, frames: seq<Frame>, i: nat)
    requires FullValid(c, frames) && i < |frames|
    ensures Total(frames[i].counts) == |frames[i].facts|
    ensures frames[i].eligible ==>
      && c.authority.Fenced? && frames[i].facts == c.authority.frozen
      && forall k :: 0 <= k < |frames[i].facts| ==>
           var e := frames[i].facts[k].eventId;
           && e in frames[i].perId && frames[i].perId[e].state == Recorded
           && frames[i].perId[e].decision.Some? && frames[i].perId[e].decision.value.eventId == e
           && frames[i].perId[e].decision.value.decided.Some?
  {
    hide Distinct, Follows;
    var f := frames[i];
    assert ValidAt(c, frames, i);
    if f.eligible {
      forall k | 0 <= k < |f.facts|
        ensures f.facts[k].eventId in f.perId && f.perId[f.facts[k].eventId].state == Recorded
      {
        var e := f.facts[k].eventId;
        assert e in EventsOf(f.facts);
        assert e !in Marked(f.perId, Pending) by { EmptyMarked(f.perId, Pending); }
        assert e !in Marked(f.perId, CaptureError) by { EmptyMarked(f.perId, CaptureError); }
        assert MarkOk(e, f.perId[e]);
      }
    }
  }

  lemma EmptyMarked(perId: map<string, Mark>, s: MarkState)
    ensures |Marked(perId, s)| == 0 ==> Marked(perId, s) == {}
  {
  }

  // ---------- streaming ----------

  /**
   Streaming re-validation takes its cursor from the very frame it checks, so that one check is void:
   it accepts exactly the journals whole-history validation accepts, but for the numbering.
   */
  lemma StreamingEqualsFullButNumbers(c: Config, frames: seq<Frame>)
    ensures FullValid(c, frames) <==> StreamValid(c, frames) && Numbered(frames)
  {
    hide BodyOk, Follows;
    if FullValid(c, frames) {
      forall i | 0 <= i < |frames|
        ensures StreamedAt(c, frames, i) && frames[i].cursor == i + 1
      {
        assert ValidAt(c, frames, i);
      }
    }
    if StreamValid(c, frames) && Numbered(frames) {
      forall i | 0 <= i < |frames|
        ensures ValidAt(c, frames, i)
      {
        assert StreamedAt(c, frames, i);
      }
    }
  }

  /** The difference is real: renumber the frame of any valid one-frame journal. */
  lemma RenumberedFrameStreams(c: Config, f: Frame, cursor: int)
    requires FullValid(c, [f])
    ensures StreamValid(c, [f.(cursor := cursor)])
    ensures FullValid(c, [f.(cursor := cursor)]) <==> cursor == 1
  {
    hide BodyOk;
    var g := f.(cursor := cursor);
    assert ValidAt(c, [f], 0);
    assert BodyOk(c, g) by { CursorAside(c, f, cursor); }
    assert Valid(c, g, None, cursor);
    if FullValid(c, [g]) {
      assert ValidAt(c, [g], 0);
    }
  }

  lemma CursorAside(c: Config, f: Frame, cursor: int)
    requires BodyOk(c, f)
    ensures BodyOk(c, f.(cursor := cursor))
  {
    hide Distinct, EventsOf, IdsOf, CountsOf, MarkOk, ProofAvailable, AllSettled, StateOf;
  }

  /** On the journals this process can hold - validated from their start - the two agree. */
  lemma HeldJournalsStream(c: Config, frames: seq<Frame>, f: Frame)
    requires FullValid(c, frames)
    ensures StreamValid(c, frames)
    ensures StreamValid(c, frames + [f]) && f.cursor == |frames| + 1 <==> FullValid(c, frames + [f])
  {
    hide Valid;
    StreamingEqualsFullButNumbers(c, frames);
    StreamingEqualsFullButNumbers(c, frames + [f]);
    assert (frames + [f])[|frames|] == f;
    assert forall i :: 0 <= i < |frames| ==> (frames + [f])[i] == frames[i];
  }
}
