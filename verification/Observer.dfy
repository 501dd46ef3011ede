/**
 The session observer (shadow_observer.py): what its callbacks do to its own fields and to the fence
 journal.  Every callback is contained: an exception changes nothing but the records of the failure -
 the process's own and the journal's, whose truthiness is what later callbacks test, and the denial
 latch on disk (shadow_failure.py), whose presence is what opening the journal again tests.
 */
module Observer {
  import opened Wrappers
  import opened Fence

  /** This worker's place in the run. */
  datatype Config = Config(binding: Binding, authority: Option<Authority>, worker: Worker)

  type Rows = map<int, Fact>

  /** Observer fields; a transaction object is its number, and no savepoint at all is None. */
  datatype Obs = Obs(
    token: Option<Token>, trades: Rows, candidates: seq<Fact>, owners: map<int, Option<int>>,
    endedToken: Option<Token>, commitStarted: bool, endedUnknown: bool)

  const IDLE: Obs := Obs(None, map[], [], map[], None, false, false)

  /**
   The observer, the journal state it reads and writes, the process-wide failure record, and the denial
   latch.  `lost`: a failure was contained and no latch is there to tell.
   */
  datatype Watch = Watch(
    obs: Obs, fence: State, localError: Option<string>, retired: bool, latched: bool, lost: bool)

  /** What becomes of a report, should there be one: its ERROR is journaled or not, the latch stored or not. */
  datatype Sink = Sink(journaled: bool, stored: bool)

  /** How a callback ends: normally, or raising before or after it minted a token. */
  datatype Fault = Fine(sink: Sink) | Early(message: string, sink: Sink) | Late(message: string, sink: Sink)

  const MISSING_ATTEMPT: string := "missing attempt"
  const REFUSED_EVENT: string := "refused event"
  const DUPLICATE_WITNESS: string := "duplicate witness"

  predicate Truthy(message: Option<string>) {
    message.Some? && message.value != ""
  }

  /** Callbacks do nothing once the observer is retired or the journal archived. */
  predicate Silent(w: Watch) {
    w.retired || w.fence.archive.Some?
  }

  function Journaled(s: State, message: string, sink: Sink): State {
    if sink.journaled then s.(error := Some(message)) else s
  }

  /** The journal accepts an ERROR as long as it is open. */
  lemma ErrorIsAccepted(
    s: State, message: string, index: int, previous: Option<Event>, b: Binding, auth: Option<Authority>, now: int)
    requires s.archive.None? && index > 1
    ensures Accept(s, Event(index, previous, b, now, Error(message), true), index, previous, b, auth)
         == Ok(Journaled(s, message, Sink(true, true)))
  {
  }

  /** `invalidate` on an open journal: the process's record, the ERROR, the latch. */
  function Contain(w: Watch, message: string, sink: Sink): Watch {
    w.(localError := Some(message), fence := Journaled(w.fence, message, sink),
       latched := w.latched || sink.stored, lost := w.lost || !(w.latched || sink.stored))
  }

  /** `invalidate`: an archived journal is left alone. */
  function Report(w: Watch, message: string, sink: Sink): Watch {
    if w.fence.archive.Some? then w else Contain(w, message, sink)
  }

  const RETAINED_FAILURE: string := "retained capture failure"
  const ENROLLMENT_FAILED: string := "capture enrollment failed"

  /** `control`, ten times a second and before every new session: any record of a failure retires the observers. */
  function Controlled(w: Watch, sink: Sink): Watch {
    if w.retired then w
    else if Truthy(w.localError) || Failed(w.fence) || w.latched then Report(w, RETAINED_FAILURE, sink).(retired := true)
    else if w.fence.archive.Some? then w.(retired := true)
    else w
  }

  /** `install_factory` in a new process: no observer where a failure is on record. */
  function Installed(w: Watch, sink: Sink): Watch {
    var blank := w.(obs := IDLE, localError := None, retired := false);
    if w.latched then blank.(retired := true)
    else if Failed(w.fence) then Report(blank, ENROLLMENT_FAILED, sink).(retired := true)
    else blank
  }

  function Clear(o: Obs): Obs {
    o.(token := None, trades := map[], candidates := [], owners := map[], commitStarted := false)
  }

  /** The journal event this process would append; its place in the chain is not looked at here. */
  function Ev(c: Config, now: int, p: Payload): Event {
    Event(0, None, c.binding, now, p, true)
  }

  // ---------- rows ----------

  /** The table a list of facts fills, later entries winning. */
  function ById(facts: seq<Fact>): Rows {
    if facts == [] then map[]
    else ById(facts[..|facts| - 1])[facts[|facts| - 1].recordId := facts[|facts| - 1]]
  }

  function OwnersOf(rows: Rows, nested: Option<int>): map<int, Option<int>> {
    map k | k in rows :: nested
  }

  ghost predicate WellKeyed(m: Rows) {
    forall k :: k in m ==> m[k].recordId == k
  }

  ghost predicate IsGreatest(k: int, s: set<int>) {
    k in s && forall j :: j in s ==> j <= k
  }

  lemma Member<T>(s: set<T>) returns (k: T)
    requires s != {}
    ensures k in s
  {
    k :| k in s;
  }

  lemma {:induction false} GreatestExists(s: set<int>)
    requires s != {}
    ensures exists k :: IsGreatest(k, s)
    decreases |s|
  {
    var k := Member(s);
    var rest := s - {k};
    if rest == {} {
      assert forall j :: j in s ==> j == k by {
        assert forall j :: j in s ==> j in rest || j == k;
      }
      assert IsGreatest(k, s);
    } else {
      GreatestExists(rest);
      var m :| IsGreatest(m, rest);
      assert forall j :: j in s ==> j in rest || j == k;
      assert IsGreatest(if k <= m then m else k, s);
    }
  }

  ghost function Greatest(s: set<int>): (k: int)
    requires s != {}
    ensures IsGreatest(k, s)
  {
    GreatestExists(s);
    var k :| IsGreatest(k, s);
    k
  }

  /** The facts of a table by ascending record ID. */
  ghost function Listing(m: Rows): seq<Fact>
    decreases |m|
  {
    if m.Keys == {} then []
    else
      var k := Greatest(m.Keys);
      Fewer(m, k);
      Listing(m - {k}) + [m[k]]
  }

  lemma Fewer(m: Rows, k: int)
    requires k in m
    ensures |m - {k}| < |m|
  {
    assert m.Keys == (m - {k}).Keys + {k};
  }

  /** Listing a table and filling a table from the list is the identity. */
  lemma {:induction false} ListingRoundTrip(m: Rows)
    requires WellKeyed(m)
    ensures ById(Listing(m)) == m
    decreases |m|
  {
    if m.Keys == {} {
      assert m == map[];
    } else {
      var k := Greatest(m.Keys);
      Fewer(m, k);
      ListingRoundTrip(m - {k});
      var l := Listing(m - {k});
      assert (l + [m[k]])[..|l|] == l;
      assert (m - {k})[k := m[k]] == m;
    }
  }

  ghost predicate Ascending(l: seq<Fact>) {
    forall i, j :: 0 <= i < j < |l| ==> l[i].recordId < l[j].recordId
  }

  lemma {:induction false} ListingAscends(m: Rows)
    requires WellKeyed(m)
    ensures Ascending(Listing(m))
    ensures forall i :: 0 <= i < |Listing(m)| ==> Listing(m)[i].recordId in m
    decreases |m|
  {
    if m.Keys != {} {
      var k := Greatest(m.Keys);
      Fewer(m, k);
      ListingAscends(m - {k});
    }
  }

  lemma {:induction false} ByIdWellKeyed(facts: seq<Fact>)
    ensures WellKeyed(ById(facts))
  {
    if facts != [] {
      ByIdWellKeyed(facts[..|facts| - 1]);
    }
  }

  // ---------- callbacks ----------

  /** Whether `before_flush` raises: by itself, or because the journal refuses the new attempt. */
  predicate FlushUnseen(c: Config, w: Watch, facts: seq<Fact>, token: Token, now: int, fault: Fault) {
    && !Silent(w) && facts != []
    && (!fault.Fine? || (w.obs.token.None?
          && Transition(w.fence, Ev(c, now, Attempt(token, c.worker, w.fence.epoch, None)), c.binding, c.authority).Err?))
  }

  /** `before_flush`: admit the outer transaction once, and remember the new trades. */
  function BeforeFlush(c: Config, w: Watch, facts: seq<Fact>, token: Token, now: int, fault: Fault): Watch {
    if Silent(w) || facts == [] then w
    else if w.obs.token.Some? then
      if fault.Fine? then w.(obs := w.obs.(candidates := w.obs.candidates + facts)) else Contain(w, fault.message, fault.sink)
    else if fault.Early? then Contain(w, fault.message, fault.sink)
    else
      var minted := w.(obs := w.obs.(token := Some(token)));
      var r := Transition(w.fence, Ev(c, now, Attempt(token, c.worker, w.fence.epoch, None)), c.binding, c.authority);
      if fault.Late? then Contain(minted, fault.message, fault.sink)
      else if r.Err? then Contain(minted, REFUSED_EVENT, fault.sink)
      else minted.(fence := r.value, obs := minted.obs.(candidates := w.obs.candidates + facts))
  }

  /** Facts detached before the failing one: never all of them. */
  function Reached(facts: seq<Fact>, reach: nat): seq<Fact> {
    if reach < |facts| then facts[..reach] else if facts == [] then [] else facts[..|facts| - 1]
  }

  /** Facts stored when the failing one raises: itself too, if it raised after it was stored. */
  function Stored(facts: seq<Fact>, reach: nat, half: bool): seq<Fact> {
    if half && facts != [] then facts[..|Reached(facts, reach)| + 1] else Reached(facts, reach)
  }

  /**
   `after_flush`: detach the persisted facts, owned by the savepoint now open.  When a fact raises, the
   ones before it stay detached, it may itself be stored without an owner, and the list of candidates
   stays as it was.
   */
  function AfterFlush(w: Watch, nested: Option<int>, fault: Fault, reach: nat, half: bool): Watch {
    if Silent(w) || w.obs.candidates == [] then w
    else if !fault.Fine? then
      Contain(w, fault.message, fault.sink).(obs := w.obs.(
        trades := w.obs.trades + ById(Stored(w.obs.candidates, reach, half)),
        owners := w.obs.owners + OwnersOf(ById(Reached(w.obs.candidates, reach)), nested)))
    else
      var rows := ById(w.obs.candidates);
      w.(obs := w.obs.(trades := w.obs.trades + rows, owners := w.obs.owners + OwnersOf(rows, nested), candidates := []))
  }

  /** `source_then_observe`: an outer COMMIT is on its way, whatever is observed of it. */
  function CommitStarts(w: Watch): Watch {
    w.(obs := w.obs.(commitStarted := true))
  }

  /** `before_commit` of the outer transaction: the witness row, if any, put inside it. */
  ghost function WitnessOf(c: Config, w: Watch, fault: Fault): Option<Witness> {
    if Silent(w) || !fault.Fine? || w.obs.token.None? || Truthy(w.localError) || Failed(w.fence)
       || w.obs.token.value !in w.fence.attempts
    then None
    else
      var t := w.obs.token.value;
      Some(Witness(t, c.binding, c.worker, w.fence.attempts[t].epoch, Listing(w.obs.trades)))
  }

  /** `before_commit` never changes more than the failure record. */
  function AfterWitness(w: Watch, fault: Fault): Watch {
    if Silent(w) then w
    else if w.obs.token.None? || Truthy(w.localError) || Failed(w.fence) then
      if fault.Fine? then w else Contain(w, fault.message, fault.sink)
    else if w.obs.token.value !in w.fence.attempts then Contain(w, MISSING_ATTEMPT, fault.sink)
    else if fault.Fine? then w
    else Contain(w, fault.message, fault.sink)
  }

  /** `after_commit` of a savepoint: its facts now belong to the enclosing one. */
  function AfterRelease(w: Watch, child: int, parent: int, fault: Fault): Watch {
    if Silent(w) then w
    else if !fault.Fine? then Contain(w, fault.message, fault.sink)
    else
      w.(obs := w.obs.(owners := map k | k in w.obs.owners :: if w.obs.owners[k] == Some(child) then Some(parent) else w.obs.owners[k]))
  }

  /** `after_soft_rollback` of a savepoint or a flush: what it owned is gone. */
  function AfterNestedRollback(w: Watch, previous: int, fault: Fault): Watch {
    if Silent(w) then w
    else if !fault.Fine? then Contain(w, fault.message, fault.sink)
    else w.(obs := w.obs.(
        trades := map k | k in w.obs.trades && !(k in w.obs.owners && w.obs.owners[k] == Some(previous)) :: w.obs.trades[k],
        owners := map k | k in w.obs.owners && w.obs.owners[k] != Some(previous) :: w.obs.owners[k],
        candidates := []))
  }

  function Resolving(o: Obs): Option<Token> {
    if o.token.Some? then o.token else o.endedToken
  }

  /** `after_soft_rollback` of the outer transaction: ROLLED_BACK, unless a COMMIT was ever sent. */
  function AfterRootRollback(c: Config, w: Watch, now: int, fault: Fault): Watch {
    var done := Clear(w.obs.(endedToken := None, endedUnknown := false));
    if Silent(w) then w
    else if !fault.Fine? then Contain(w, fault.message, fault.sink)
    else if Resolving(w.obs).None? || w.obs.commitStarted || w.obs.endedUnknown then w.(obs := done)
    else
      var r := Transition(w.fence, Ev(c, now, RolledBack(Resolving(w.obs).value)), c.binding, c.authority);
      if r.Err? then Contain(w, REFUSED_EVENT, fault.sink) else w.(obs := done, fence := r.value)
  }

  /** `after_transaction_end` of the outer transaction. */
  function AfterRootEnd(w: Watch, fault: Fault): Watch {
    if Silent(w) then w
    else if !fault.Fine? then Contain(w, fault.message, fault.sink)
    else w.(obs := Clear(w.obs.(endedToken := w.obs.token, endedUnknown := w.obs.commitStarted)))
  }

  /** Whether `after_transaction_end` of the outer transaction gets to clear the fields. */
  predicate EndRuns(w: Watch, fault: Fault) {
    !Silent(w) && fault.Fine?
  }

  /** Whether `after_soft_rollback` of the outer transaction gets to clear the fields. */
  predicate SoftRuns(c: Config, w: Watch, now: int, fault: Fault) {
    && !Silent(w) && fault.Fine?
    && (Resolving(w.obs).Some? && !w.obs.commitStarted && !w.obs.endedUnknown ==>
          Transition(w.fence, Ev(c, now, RolledBack(Resolving(w.obs).value)), c.binding, c.authority).Ok?)
  }

  lemma NothingDetached(trades: Rows, owners: map<int, Option<int>>, nested: Option<int>)
    ensures trades == trades + ById([]) && owners == owners + OwnersOf(ById([]), nested)
  {
  }

  lemma OneMoreDetached(
    trades: Rows, owners: map<int, Option<int>>, facts: seq<Fact>, i: nat, nested: Option<int>)
    requires i < |facts|
    ensures var id := facts[i].recordId;
      && trades + ById(facts[..i + 1]) == (trades + ById(facts[..i]))[id := facts[i]]
      && owners + OwnersOf(ById(facts[..i + 1]), nested) == (owners + OwnersOf(ById(facts[..i]), nested))[id := nested]
  {
    assert facts[..i + 1][..i] == facts[..i];
    var rows := ById(facts[..i]);
    assert ById(facts[..i + 1]) == rows[facts[i].recordId := facts[i]];
  }

  // ---------- the object ----------

  class SessionObserver {
    const config: Config
    var fence: State
    var localError: Option<string>
    var retired: bool
    var latched: bool
    var lost: bool
    var token: Option<Token>
    var trades: Rows
    var candidates: seq<Fact>
    var owners: map<int, Option<int>>
    var endedToken: Option<Token>
    var commitStarted: bool
    var endedUnknown: bool

    function View(): Watch
      reads this
    {
      Watch(Obs(token, trades, candidates, owners, endedToken, commitStarted, endedUnknown), fence, localError, retired, latched, lost)
    }

    constructor (c: Config, journal: State)
      ensures config == c && View() == Watch(IDLE, journal, None, false, false, false)
    {
      config, fence, localError, retired, latched, lost := c, journal, None, false, false, false;
      token, trades, candidates, owners := None, map[], [], map[];
      endedToken, commitStarted, endedUnknown := None, false, false;
    }

    /** `invalidate`, the callbacks having found the journal open. */
    method Invalidate(message: string, sink: Sink)
      modifies `fence, `localError, `latched, `lost
      ensures View() == Contain(old(View()), message, sink)
    {
      localError := Some(message);
      if sink.journaled {
        fence := fence.(error := Some(message));
      }
      latched := latched || sink.stored;
      lost := lost || !latched;
    }

    /** `control`. */
    method Control(sink: Sink)
      modifies `fence, `localError, `latched, `lost, `retired
      ensures View() == Controlled(old(View()), sink)
    {
      if retired {
        return;
      }
      if Truthy(localError) || Failed(fence) || latched {
        if fence.archive.None? {
          Invalidate(RETAINED_FAILURE, sink);
        }
        retired := true;
      } else if fence.archive.Some? {
        retired := true;
      }
    }

    method ClearFields()
      modifies `token, `trades, `candidates, `owners, `commitStarted
      ensures View() == old(View()).(obs := Clear(old(View()).obs))
    {
      token, trades, candidates, owners, commitStarted := None, map[], [], map[], false;
    }

    method OnBeforeFlush(facts: seq<Fact>, minted: Token, now: int, fault: Fault)
      modifies `fence, `localError, `latched, `lost, `token, `candidates
      ensures View() == BeforeFlush(config, old(View()), facts, minted, now, fault)
    {
      hide Transition;
      if Silent(View()) || facts == [] {
        return;
      }
      if fault.Early? || (token.Some? && !fault.Fine?) {
        Invalidate(fault.message, fault.sink);
        return;
      }
      if token.None? {
        token := Some(minted);
        if fault.Late? {
          Invalidate(fault.message, fault.sink);
          return;
        }
        var p := Attempt(minted, config.worker, fence.epoch, None);
        var r := Transition(fence, Ev(config, now, p), config.binding, config.authority);
        if r.Err? {
          Invalidate(REFUSED_EVENT, fault.sink);
          return;
        }
        fence := r.value;
      }
      candidates := candidates + facts;
    }

    method OnAfterFlush(nested: Option<int>, fault: Fault, reach: nat, half: bool)
      modifies `fence, `localError, `latched, `lost, `trades, `candidates, `owners
      ensures View() == AfterFlush(old(View()), nested, fault, reach, half)
    {
      hide ById, OwnersOf, Stored, Reached;
      if Silent(View()) || candidates == [] {
        return;
      }
      var raised := DetachFacts(nested, if fault.Fine? then None else Some(reach), half);
      if raised {
        Invalidate(fault.message, fault.sink);
      } else {
        candidates := [];
      }
    }

    /** The loop of `detach_facts`, raising at one of the candidates or at none. */
    method DetachFacts(nested: Option<int>, reach: Option<nat>, half: bool) returns (raised: bool)
      requires candidates != []
      modifies `trades, `owners
      ensures raised == reach.Some?
      ensures trades == old(trades) + ById(if raised then Stored(candidates, reach.value, half) else candidates)
      ensures owners == old(owners) + OwnersOf(ById(if raised then Reached(candidates, reach.value) else candidates), nested)
    {
      hide ById, OwnersOf;
      var bad := if reach.None? then |candidates| else if reach.value < |candidates| then reach.value else |candidates| - 1;
      NothingDetached(trades, owners, nested);
      for i := 0 to |candidates|
        invariant i <= bad
        invariant trades == old(trades) + ById(candidates[..i])
        invariant owners == old(owners) + OwnersOf(ById(candidates[..i]), nested)
      {
        OneMoreDetached(old(trades), old(owners), candidates, i, nested);
        var trade := candidates[i];
        if i < bad || half {
          trades := trades[trade.recordId := trade];
        }
        if i == bad {
          return true;
        }
        owners := owners[trade.recordId := nested];
      }
      assert candidates[..|candidates|] == candidates;
      return false;
    }

    /** The outer `before_commit`: flag the COMMIT, then write the witness unless something failed. */
    method OnBeforeCommit(fault: Fault) returns (written: Option<Witness>)
      modifies `commitStarted, `fence, `localError, `latched, `lost
      ensures written == WitnessOf(config, CommitStarts(old(View())), fault)
      ensures View() == AfterWitness(CommitStarts(old(View())), fault)
    {
      commitStarted := true;
      written := None;
      if Silent(View()) {
        return;
      }
      if token.None? || Truthy(localError) || Failed(fence) {
        if !fault.Fine? {
          Invalidate(fault.message, fault.sink);
        }
        return;
      }
      if token.value !in fence.attempts {
        Invalidate(MISSING_ATTEMPT, fault.sink);
        return;
      }
      var sorted := SortedTrades();
      if !fault.Fine? {
        Invalidate(fault.message, fault.sink);
        return;
      }
      written := Some(Witness(token.value, config.binding, config.worker, fence.attempts[token.value].epoch, sorted));
    }

    method SortedTrades() returns (sorted: seq<Fact>)
      ensures sorted == Listing(trades)
    {
      var rest := trades;
      sorted := [];
      while rest.Keys != {}
        invariant Listing(trades) == Listing(rest) + sorted
        decreases |rest|
      {
        GreatestExists(rest.Keys);
        var k :| k in rest.Keys && forall j :: j in rest.Keys ==> j <= k;
        assert k == Greatest(rest.Keys);
        Fewer(rest, k);
        sorted := [rest[k]] + sorted;
        rest := rest - {k};
      }
    }

    method OnAfterRelease(child: int, parent: int, fault: Fault)
      modifies `fence, `localError, `latched, `lost, `owners
      ensures View() == AfterRelease(old(View()), child, parent, fault)
    {
      if Silent(View()) {
        return;
      }
      if !fault.Fine? {
        Invalidate(fault.message, fault.sink);
        return;
      }
      Reown(child, parent);
    }

    /** The loop of `after_commit`. */
    method Reown(child: int, parent: int)
      modifies `owners
      ensures owners == map k | k in old(owners) :: if old(owners)[k] == Some(child) then Some(parent) else old(owners)[k]
    {
      var was := owners;
      var todo := owners.Keys;
      while todo != {}
        invariant todo <= owners.Keys == was.Keys
        invariant forall k :: k in was ==>
          owners[k] == if k !in todo && was[k] == Some(child) then Some(parent) else was[k]
        decreases |todo|
      {
        ghost var some := Member(todo);
        var ident :| ident in todo;
        if owners[ident] == Some(child) {
          owners := owners[ident := Some(parent)];
        }
        todo := todo - {ident};
      }
      ghost var target := map k | k in was :: if was[k] == Some(child) then Some(parent) else was[k];
      assert owners.Keys == target.Keys;
      assert forall k :: k in was ==> k !in todo && owners[k] == target[k];
      assert owners == target;
    }

    method OnAfterSoftRollback(previous: int, hasParent: bool, now: int, fault: Fault)
      modifies `fence, `localError, `latched, `lost, `token, `trades, `candidates, `owners, `endedToken, `commitStarted, `endedUnknown
      ensures View() == if hasParent then AfterNestedRollback(old(View()), previous, fault)
                        else AfterRootRollback(config, old(View()), now, fault)
    {
      hide Transition;
      if Silent(View()) {
        return;
      }
      if !fault.Fine? {
        Invalidate(fault.message, fault.sink);
        return;
      }
      if hasParent {
        var was := owners;
        trades := map k | k in trades && !(k in was && was[k] == Some(previous)) :: trades[k];
        owners := map k | k in was && was[k] != Some(previous) :: was[k];
        candidates := [];
        return;
      }
      ReportRollback(now, fault);
    }

    /** The outer half of `after_soft_rollback`. */
    method ReportRollback(now: int, fault: Fault)
      requires !Silent(View()) && fault.Fine?
      modifies `fence, `localError, `latched, `lost, `token, `trades, `candidates, `owners, `endedToken, `commitStarted, `endedUnknown
      ensures View() == AfterRootRollback(config, old(View()), now, fault)
    {
      hide Transition;
      var resolving := if token.Some? then token else endedToken;
      if resolving.Some? && !(commitStarted || endedUnknown) {
        var r := Transition(fence, Ev(config, now, RolledBack(resolving.value)), config.binding, config.authority);
        if r.Err? {
          Invalidate(REFUSED_EVENT, fault.sink);
          return;
        }
        fence := r.value;
      }
      endedToken, endedUnknown := None, false;
      ClearFields();
    }

    method OnAfterTransactionEnd(hasParent: bool, fault: Fault)
      modifies `fence, `localError, `latched, `lost, `token, `trades, `candidates, `owners, `endedToken, `commitStarted, `endedUnknown
      ensures View() == if hasParent && fault.Fine? then old(View()) else AfterRootEnd(old(View()), fault)
    {
      if Silent(View()) {
        return;
      }
      if !fault.Fine? {
        Invalidate(fault.message, fault.sink);
        return;
      }
      if !hasParent {
        endedToken, endedUnknown := token, commitStarted;
        ClearFields();
      }
    }
  }
}
