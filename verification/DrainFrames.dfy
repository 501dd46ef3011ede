/**
 Which frames pass validation, told by what they list, and what that makes of a whole journal.
 */
module DrainFrames {
  import opened Wrappers
  import opened Drain
  import opened DrainLaws

  // ---------- one frame ----------

  function RecordIds(facts: seq<Fact>): set<int> {
    set i | 0 <= i < |facts| :: facts[i].recordId
  }

  function EventIds(facts: seq<Fact>): set<string> {
    set i | 0 <= i < |facts| :: facts[i].eventId
  }

  /** How many events carry a mark of this state. */
  function Carrying(f: Frame, s: MarkState): nat {
    |set k | k in f.perId && f.perId[k].state == s|
  }

  /** The frame lists as many records, and as many events, as it has facts; and marks exactly those events. */
  ghost predicate ListsOnce(f: Frame) {
    && |f.frozenIds| == |f.facts| && (forall i :: 0 <= i < |f.facts| ==> f.frozenIds[i] == f.facts[i].recordId)
    && |RecordIds(f.facts)| == |f.facts| && |EventIds(f.facts)| == |f.facts| && f.perId.Keys == EventIds(f.facts)
  }

  /** Its counts are of its marks, and add up; no event is excused from a decision, and each recorded one is its own and made. */
  ghost predicate CountsRight(f: Frame) {
    && f.counts == Counts(Carrying(f, Recorded), 0, Carrying(f, Pending), Carrying(f, CaptureError))
    && Carrying(f, Recorded) + Carrying(f, Pending) + Carrying(f, CaptureError) == |f.facts|
    && forall k :: k in f.perId ==>
         && f.perId[k].state != NoDecisionExpected
         && (f.perId[k].state == Recorded ==>
               f.perId[k].decision.Some? && f.perId[k].decision.value.eventId == k && f.perId[k].decision.value.decided.Some?)
  }

  /** It has failed exactly with a fault that says something, and is complete exactly if without one every event is decided. */
  ghost predicate StateRight(f: Frame) {
    && (f.state == Failed <==> f.error.Some? && f.error.value != OtherFault(""))
    && (f.state == Complete <==> f.state != Failed && forall k :: k in f.perId ==> f.perId[k].state != Pending && f.perId[k].state != CaptureError)
  }

  /** It claims to be comparable exactly if it is complete and a healthy fence froze these very facts; else it says what is missing. */
  ghost predicate ClaimsRight(c: Config, f: Frame) {
    && (c.authority.Fenced? ==> c.authority.healthy && c.authority.frozen == f.facts)
    && (f.eligible <==> c.authority.Fenced? && f.state == Complete)
    && (f.admissionUnproven <==> c.authority.Standalone?)
  }

  lemma {:induction false} NoRepeats<T>(xs: seq<T>)
    ensures |set x | x in xs| <= |xs|
    ensures |set x | x in xs| == |xs| <==> forall i, j :: 0 <= i < j < |xs| ==> xs[i] != xs[j]
  {
    if xs != [] {
      var rest, last := xs[..|xs| - 1], xs[|xs| - 1];
      NoRepeats(rest);
      assert xs == rest + [last];
      assert (set x | x in xs) == (set x | x in rest) + {last};
      if last in rest {
        assert (set x | x in xs) == (set x | x in rest);
        var i :| 0 <= i < |rest| && rest[i] == last;
        assert xs[i] == xs[|xs| - 1];
      } else {
        assert forall i :: 0 <= i < |rest| ==> rest[i] == xs[i] != last;
      }
    }
  }

  lemma AllDiffer(facts: seq<Fact>)
    ensures |RecordIds(facts)| == |facts| && |EventIds(facts)| == |facts| <==> Distinct(facts)
  {
    var ids, events := IdsOf(facts), seq(|facts|, i requires 0 <= i < |facts| => facts[i].eventId);
    NoRepeats(ids);
    NoRepeats(events);
    assert (set x | x in ids) == RecordIds(facts) by {
      assert forall i :: 0 <= i < |facts| ==> ids[i] == facts[i].recordId;
    }
    assert (set x | x in events) == EventIds(facts) by {
      assert forall i :: 0 <= i < |facts| ==> events[i] == facts[i].eventId;
    }
    DistinctMeans(facts, ids, events);
  }

  lemma DistinctMeans(facts: seq<Fact>, ids: seq<int>, events: seq<string>)
    requires |ids| == |facts| == |events|
    requires forall i :: 0 <= i < |facts| ==> ids[i] == facts[i].recordId && events[i] == facts[i].eventId
    ensures Distinct(facts) <==>
      (forall i, j :: 0 <= i < j < |ids| ==> ids[i] != ids[j]) && (forall i, j :: 0 <= i < j < |events| ==> events[i] != events[j])
  {
    if (forall i, j :: 0 <= i < j < |ids| ==> ids[i] != ids[j]) && (forall i, j :: 0 <= i < j < |events| ==> events[i] != events[j]) {
      forall i, j | 0 <= i < j < |facts|
        ensures facts[i].recordId != facts[j].recordId && facts[i].eventId != facts[j].eventId
      {
        assert ids[i] != ids[j] && events[i] != events[j];
      }
    }
  }

  lemma CountsAre(f: Frame)
    ensures CountsOf(f.perId).recorded == Carrying(f, Recorded) && CountsOf(f.perId).noDecision == Carrying(f, NoDecisionExpected)
    ensures CountsOf(f.perId).pending == Carrying(f, Pending) && CountsOf(f.perId).captureError == Carrying(f, CaptureError)
  {
    forall s: MarkState
      ensures Marked(f.perId, s) == set k | k in f.perId && f.perId[k].state == s
    {
    }
  }

  lemma NoneExcused(f: Frame)
    ensures Carrying(f, NoDecisionExpected) == 0 <==> forall k :: k in f.perId ==> f.perId[k].state != NoDecisionExpected
    ensures Carrying(f, Pending) == 0 && Carrying(f, CaptureError) == 0 <==>
      forall k :: k in f.perId ==> f.perId[k].state != Pending && f.perId[k].state != CaptureError
  {
    NoneCarries(f, NoDecisionExpected);
    NoneCarries(f, Pending);
    NoneCarries(f, CaptureError);
  }

  lemma NoneCarries(f: Frame, s: MarkState)
    ensures Carrying(f, s) == 0 <==> forall k :: k in f.perId ==> f.perId[k].state != s
  {
    var marked := set k | k in f.perId && f.perId[k].state == s;
    if k :| k in f.perId && f.perId[k].state == s {
      assert k in marked;
    } else {
      assert marked == {};
    }
  }

  lemma ListsIff(f: Frame)
    ensures f.frozenIds == IdsOf(f.facts) && Distinct(f.facts) && f.perId.Keys == EventsOf(f.facts) <==> ListsOnce(f)
  {
    hide Distinct, RecordIds, EventIds, EventsOf;
    AllDiffer(f.facts);
    SameEvents(f.facts);
  }

  lemma CountsIff(f: Frame)
    requires |f.frozenIds| == |f.facts|
    ensures f.counts == CountsOf(f.perId) && Total(f.counts) == |f.frozenIds| && (forall k :: k in f.perId ==> MarkOk(k, f.perId[k]))
       <==> CountsRight(f)
  {
    hide CountsOf, Carrying;
    CountsAre(f);
    NoneExcused(f);
  }

  lemma StateIff(f: Frame)
    requires f.counts == CountsOf(f.perId)
    ensures f.state == StateOf(f.error, f.counts) <==> StateRight(f)
    ensures AllSettled(f.counts) && !Truthy(f.error) <==> StateOf(f.error, f.counts) == Complete
  {
    hide CountsOf, Carrying;
    CountsAre(f);
    NoneExcused(f);
  }

  lemma BodyIff(c: Config, f: Frame)
    ensures BodyOk(c, f) <==> ListsOnce(f) && CountsRight(f) && StateRight(f) && ClaimsRight(c, f)
  {
    hide CountsOf, Carrying, Distinct, EventsOf, CountsRight, StateRight, MarkOk, StateOf, AllSettled, Truthy, RecordIds, EventIds, Total, IdsOf;
    ListsIff(f);
    if |f.frozenIds| == |f.facts| {
      CountsIff(f);
      if f.counts == CountsOf(f.perId) {
        StateIff(f);
      }
    }
    assert f.frozenIds == IdsOf(f.facts) ==> |f.frozenIds| == |f.facts| by { IdsAreAsMany(f.facts); }
  }

  lemma IdsAreAsMany(facts: seq<Fact>)
    ensures |IdsOf(facts)| == |facts|
  {
  }

  lemma SameEvents(facts: seq<Fact>)
    ensures EventsOf(facts) == EventIds(facts)
  {
  }

  /**
   Exactly the frames that pass: of this binding, behind the right predecessor at the right place, listing
   every record and event once with right counts, state and claims; and, behind another frame, an open one
   over the same facts whose recorded decisions are all still there.
   */
  lemma ValidIff(c: Config, f: Frame, previous: Option<Frame>, cursor: int)
    ensures Valid(c, f, previous, cursor) <==>
      && f.binding == c.binding && f.cursor == cursor && f.previous == previous
      && ListsOnce(f) && CountsRight(f) && StateRight(f) && ClaimsRight(c, f)
      && (previous.Some? ==>
            && previous.value.state == Draining && f.facts == previous.value.facts && f.frozenIds == previous.value.frozenIds
            && forall k :: k in previous.value.perId && previous.value.perId[k].state == Recorded ==>
                 k in f.perId && f.perId[k] == previous.value.perId[k])
  {
    hide BodyOk, ListsOnce, CountsRight, StateRight, ClaimsRight;
    BodyIff(c, f);
  }

  // ---------- the journal ----------

  /** In a valid journal the frames are numbered and chained from the first, and only the last one may have ended the drain. */
  lemma JournalIsChained(c: Config, frames: seq<Frame>, i: nat)
    requires FullValid(c, frames) && i < |frames|
    ensures frames[i].binding == c.binding && frames[i].cursor == i + 1
    ensures frames[i].previous == if i == 0 then None else Some(frames[i - 1])
    ensures i < |frames| - 1 ==> frames[i].state == Draining
  {
    hide BodyOk, ListsOnce, CountsRight, StateRight, ClaimsRight;
    assert ValidAt(c, frames, i);
    if i < |frames| - 1 {
      assert ValidAt(c, frames, i + 1);
    }
  }
}
