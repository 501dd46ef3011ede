/** Every step keeps the observer's books sound, so every run does. */
module ObserverSafety {
  import opened Wrappers
  import opened Fence
  import opened Observer
  import opened ObserverRuns

  // ---------- journal rows ----------

  lemma AttemptRowAdded(s: State, e: Event, b: Binding, auth: Option<Authority>)
    requires e.payload.Attempt? && Transition(s, e, b, auth).Ok?
    ensures var s' := Transition(s, e, b, auth).value;
      && s'.attempts == s.attempts[e.payload.token := AttemptRow(e.payload.worker, e.payload.epoch, e.payload.retryOf, e.observed, Outstanding, None)]
      && s'.archive == s.archive
  {
  }

  lemma RowRolledBack(s: State, e: Event, b: Binding, auth: Option<Authority>)
    requires e.payload.RolledBack? && Transition(s, e, b, auth).Ok?
    ensures var s', t := Transition(s, e, b, auth).value, e.payload.token;
      && t in s.attempts && s.attempts[t].fate == Outstanding
      && s'.attempts == s.attempts[t := s.attempts[t].(fate := WasRolledBack)] && s'.archive == s.archive
  {
  }

  lemma RowCommitted(s: State, e: Event, b: Binding, auth: Option<Authority>)
    requires e.payload.Committed? && Transition(s, e, b, auth).Ok?
    ensures var s', t := Transition(s, e, b, auth).value, e.payload.token;
      && t in s.attempts && s.attempts[t].fate == Outstanding
      && s'.attempts == s.attempts[t := s.attempts[t].(fate := WasCommitted, evidence := Some(e.payload.evidence))]
      && s'.archive == s.archive
  {
    hide DistinctFacts, BeforeEnd;
  }

  // ---------- what decides a verdict ----------

  /** The part of the world that verdicts rest on. */
  datatype Core = Core(
    attempts: map<Token, AttemptRow>, token: Option<Token>, ended: Option<Token>, started: bool, unknown: bool,
    root: Option<int>, durable: map<int, Txn>, limbo: map<int, Txn>, admitted: map<Token, int>, used: set<int>)

  function CoreOf(w: World): Core {
    Core(w.watch.fence.attempts, w.watch.obs.token, w.watch.obs.endedToken, w.watch.obs.commitStarted,
         w.watch.obs.endedUnknown, if w.levels == [] then None else Some(w.levels[0].id),
         w.durable, w.limbo, w.admitted, w.used)
  }

  /** A COMMIT was sent for this transaction and not known to have failed. */
  predicate Sent(k: Core, id: int) {
    id in k.durable || id in k.limbo
  }

  ghost predicate NumbersOk(k: Core) {
    && k.durable.Keys <= k.used && k.limbo.Keys <= k.used && k.durable.Keys !! k.limbo.Keys
    && (forall t :: t in k.admitted ==> k.admitted[t] in k.used)
    && (k.root.Some? ==> k.root.value in k.used && !Sent(k, k.root.value))
  }

  /** A token the observer may still report rolled back: its transaction was never sent. */
  ghost predicate TokensOk(k: Core) {
    && (k.token.Some? ==> k.token.value in k.admitted)
    && (k.token.Some? && !k.started ==> !Sent(k, k.admitted[k.token.value]))
    && (k.ended.Some? ==> k.ended.value in k.admitted)
    && (k.ended.Some? && !k.unknown ==> !Sent(k, k.admitted[k.ended.value]) && k.root != Some(k.admitted[k.ended.value]))
  }

  /** A durable transaction carries this witness. */
  ghost predicate Witnessed(durable: map<int, Txn>, w: Witness) {
    exists id :: id in durable && durable[id].note == Some(w)
  }

  /** A verdict rests on the database: COMMITTED on a durable witness, ROLLED_BACK on a COMMIT never sent. */
  ghost predicate VerdictOk(c: Config, k: Core, t: Token)
    requires t in k.attempts && t in k.admitted
  {
    var row, id := k.attempts[t], k.admitted[t];
    && row.worker == c.worker
    && (row.fate == WasCommitted ==> row.evidence.Some? && row.evidence.value.token == t && Witnessed(k.durable, row.evidence.value))
    && (row.fate == WasRolledBack ==> !Sent(k, id) && k.root != Some(id))
  }

  ghost predicate VerdictsOk(c: Config, k: Core) {
    forall t :: t in k.attempts && t in k.admitted ==> VerdictOk(c, k, t)
  }

  /**
   A witness carries a token of a transaction that is over.  If the observer was in step, it is the
   transaction's own token, and the witness lists exactly its trades.
   */
  ghost predicate NoteOk(c: Config, k: Core, id: int, txn: Txn) {
    txn.note.Some? ==>
      var n := txn.note.value;
      n.token in k.admitted && k.root != Some(k.admitted[n.token])
      && n.binding == c.binding && n.worker == c.worker
      && n.token in k.attempts && n.epoch == k.attempts[n.token].epoch
      && (txn.tracked ==> k.admitted[n.token] == id && ById(n.trades) == txn.rows && Ascending(n.trades))
  }

  ghost predicate NotesOk(c: Config, k: Core) {
    && (forall id :: id in k.durable ==> NoteOk(c, k, id, k.durable[id]))
    && (forall id :: id in k.limbo ==> NoteOk(c, k, id, k.limbo[id]))
  }

  /** The token of the witness a transaction carries. */
  function NoteAt(k: Core, id: int): Option<Token> {
    if id in k.durable && k.durable[id].note.Some? then Some(k.durable[id].note.value.token)
    else if id in k.limbo && k.limbo[id].note.Some? then Some(k.limbo[id].note.value.token)
    else None
  }

  /** One witness per token. */
  ghost predicate NotesUnique(k: Core) {
    forall id, id' :: NoteAt(k, id).Some? && NoteAt(k, id) == NoteAt(k, id') ==> id == id'
  }

  ghost predicate CoreOk(c: Config, k: Core) {
    NumbersOk(k) && TokensOk(k) && VerdictsOk(c, k) && NotesOk(c, k) && NotesUnique(k)
  }

  // ----- the moves of the core -----

  lemma BeginKeeps(c: Config, k: Core, id: int)
    requires CoreOk(c, k) && k.root.None? && id !in k.used
    ensures CoreOk(c, k.(root := Some(id), used := k.used + {id}))
  {
    hide NoteOk, NotesUnique, NoteAt, Witnessed;
    var k' := k.(root := Some(id), used := k.used + {id});
    forall t | t in k'.attempts && t in k'.admitted
      ensures VerdictOk(c, k', t)
    {
      assert VerdictOk(c, k, t);
    }
    SameNotes(c, k, k');
  }

  lemma NumberTaken(c: Config, k: Core, id: int)
    requires CoreOk(c, k) && id !in k.used
    ensures CoreOk(c, k.(used := k.used + {id}))
  {
    hide NoteOk, NotesUnique, NoteAt, Witnessed;
    var k' := k.(used := k.used + {id});
    forall t | t in k'.attempts && t in k'.admitted
      ensures VerdictOk(c, k', t)
    {
      assert VerdictOk(c, k, t);
    }
    SameNotes(c, k, k');
  }

  /** Notes only look at tokens' transactions and epochs, and at what is open. */
  lemma SameNotes(c: Config, k: Core, k': Core)
    requires NotesOk(c, k) && NotesUnique(k)
    requires forall t :: t in k.admitted && t in k.attempts ==>
      t in k'.admitted && k'.admitted[t] == k.admitted[t] && t in k'.attempts && k'.attempts[t].epoch == k.attempts[t].epoch
    requires k'.root.None? || k'.root == k.root || forall t :: t in k.admitted ==> k.admitted[t] != k'.root.value
    requires k'.durable == k.durable && k'.limbo == k.limbo
    ensures NotesOk(c, k') && NotesUnique(k')
  {
    forall id | id in k'.durable
      ensures NoteOk(c, k', id, k'.durable[id])
    {
      assert NoteOk(c, k, id, k.durable[id]);
    }
    forall id | id in k'.limbo
      ensures NoteOk(c, k', id, k'.limbo[id])
    {
      assert NoteOk(c, k, id, k.limbo[id]);
    }
    forall id, id' | NoteAt(k', id).Some? && NoteAt(k', id) == NoteAt(k', id')
      ensures id == id'
    {
      assert NoteAt(k, id) == NoteAt(k', id) && NoteAt(k, id') == NoteAt(k', id');
    }
  }

  /** A token is minted inside the open transaction, and journaled or not. */
  lemma MintKeeps(c: Config, k: Core, t: Token, row: Option<AttemptRow>)
    requires CoreOk(c, k) && k.root.Some? && k.token.None? && t !in k.admitted && t !in k.attempts
    requires row.Some? ==> row.value.worker == c.worker && row.value.fate == Outstanding
    ensures CoreOk(c, k.(token := Some(t), admitted := k.admitted[t := k.root.value],
                         attempts := if row.Some? then k.attempts[t := row.value] else k.attempts))
  {
    hide NoteOk, NotesUnique, NoteAt, Witnessed;
    var k' := k.(token := Some(t), admitted := k.admitted[t := k.root.value],
                 attempts := if row.Some? then k.attempts[t := row.value] else k.attempts);
    forall u | u in k'.attempts && u in k'.admitted
      ensures VerdictOk(c, k', u)
    {
      if u != t {
        assert VerdictOk(c, k, u);
      }
    }
    SameNotes(c, k, k');
  }

  lemma StartKeeps(c: Config, k: Core)
    requires CoreOk(c, k)
    ensures CoreOk(c, k.(started := true))
  {
    hide NoteOk, NotesUnique, NoteAt, Witnessed;
    var k' := k.(started := true);
    forall t | t in k'.attempts && t in k'.admitted
      ensures VerdictOk(c, k', t)
    {
      assert VerdictOk(c, k, t);
    }
    SameNotes(c, k, k');
  }

  /** The transaction is gone without having been sent. */
  lemma ForgetRootKeeps(c: Config, k: Core)
    requires CoreOk(c, k)
    ensures CoreOk(c, k.(root := None))
  {
    hide NoteOk, NotesUnique, NoteAt, Witnessed;
    var k' := k.(root := None);
    forall t | t in k'.attempts && t in k'.admitted
      ensures VerdictOk(c, k', t)
    {
      assert VerdictOk(c, k, t);
    }
    SameNotes(c, k, k');
  }

  /** The observer lets go of every token; nothing it held can be reported any more. */
  lemma LetGoKeeps(c: Config, k: Core, ended: Option<Token>, unknown: bool)
    requires CoreOk(c, k) && k.root.None?
    requires ended.Some? ==> k.token == ended && unknown == k.started
    ensures CoreOk(c, k.(token := None, ended := ended, started := false, unknown := unknown))
  {
    hide NoteOk, NotesUnique, NoteAt, Witnessed;
    var k' := k.(token := None, ended := ended, started := false, unknown := unknown);
    forall t | t in k'.attempts && t in k'.admitted
      ensures VerdictOk(c, k', t)
    {
      assert VerdictOk(c, k, t);
    }
    SameNotes(c, k, k');
  }

  /** ROLLED_BACK is journaled for a token whose transaction was never sent. */
  lemma RolledBackKeeps(c: Config, k: Core, t: Token)
    requires CoreOk(c, k) && k.root.None? && t in k.attempts && t in k.admitted
    requires k.attempts[t].fate == Outstanding && !Sent(k, k.admitted[t])
    ensures CoreOk(c, k.(attempts := k.attempts[t := k.attempts[t].(fate := WasRolledBack)]))
  {
    hide NoteOk, NotesUnique, NoteAt, Witnessed;
    var k' := k.(attempts := k.attempts[t := k.attempts[t].(fate := WasRolledBack)]);
    assert VerdictOk(c, k, t);
    forall u | u in k'.attempts && u in k'.admitted
      ensures VerdictOk(c, k', u)
    {
      assert VerdictOk(c, k, u);
    }
    SameNotes(c, k, k');
  }

  /** COMMITTED is journaled with the witness of a durable transaction. */
  lemma CommittedKeeps(c: Config, k: Core, id: int)
    requires CoreOk(c, k) && id in k.durable && k.durable[id].note.Some?
    requires k.durable[id].note.value.token in k.attempts
    requires k.attempts[k.durable[id].note.value.token].fate == Outstanding
    ensures var n := k.durable[id].note.value;
      CoreOk(c, k.(attempts := k.attempts[n.token := k.attempts[n.token].(fate := WasCommitted, evidence := Some(n))]))
  {
    hide NotesUnique, NoteAt;
    var n := k.durable[id].note.value;
    var k' := k.(attempts := k.attempts[n.token := k.attempts[n.token].(fate := WasCommitted, evidence := Some(n))]);
    assert NoteOk(c, k, id, k.durable[id]);
    assert k.durable[id].note == Some(n) && Witnessed(k'.durable, n);
    assert VerdictOk(c, k, n.token);
    forall u | u in k'.attempts && u in k'.admitted
      ensures VerdictOk(c, k', u)
    {
      assert VerdictOk(c, k, u);
    }
    SameNotes(c, k, k');
  }

  /** Attempts of other processes come and go. */
  lemma ElsewhereKeeps(c: Config, k: Core, attempts: map<Token, AttemptRow>)
    requires CoreOk(c, k)
    requires forall t :: t in k.admitted ==> (t in attempts <==> t in k.attempts) && (t in attempts ==> attempts[t] == k.attempts[t])
    ensures CoreOk(c, k.(attempts := attempts))
  {
    hide NoteOk, NotesUnique, NoteAt, Witnessed;
    var k' := k.(attempts := attempts);
    forall t | t in k'.attempts && t in k'.admitted
      ensures VerdictOk(c, k', t)
    {
      assert VerdictOk(c, k, t);
    }
    SameNotes(c, k, k');
  }

  /** The same world but for one more transaction sent, and none open. */
  ghost predicate OneSent(k: Core, k': Core, txn: Txn) {
    && k.root.Some? && k' == k.(root := None, durable := k'.durable, limbo := k'.limbo)
    && ((k'.durable == k.durable[k.root.value := txn] && k'.limbo == k.limbo)
        || (k'.durable == k.durable && k'.limbo == k.limbo[k.root.value := txn]))
  }

  /** COMMIT leaves this process: the transaction is durable, or nobody here knows. */
  lemma SendKeeps(c: Config, k: Core, txn: Txn, applied: bool)
    requires CoreOk(c, k) && k.root.Some? && k.started && NoteOk(c, k.(root := None), k.root.value, txn)
    requires txn.note.Some? ==> !Taken(k.durable, txn.note.value.token) && !Taken(k.limbo, txn.note.value.token)
    ensures CoreOk(c, k.(root := None, durable := if applied then k.durable[k.root.value := txn] else k.durable,
                         limbo := if applied then k.limbo else k.limbo[k.root.value := txn]))
  {
    hide NoteOk, Taken, NotesUnique, VerdictOk, TokensOk, NotesOk, NumbersOk;
    var k' := k.(root := None, durable := if applied then k.durable[k.root.value := txn] else k.durable,
                 limbo := if applied then k.limbo else k.limbo[k.root.value := txn]);
    SentNumbers(k, k', txn);
    SentTokens(k, k', txn);
    forall t | t in k'.attempts && t in k'.admitted
      ensures VerdictOk(c, k', t)
    {
      SentVerdict(c, k, k', t, txn);
    }
    SameNotes(c, k, k.(root := None));
    SentNotes(c, k.(root := None), k', k.root.value, txn);
    OneMoreNote(k, k', k.root.value, txn);
  }

  lemma SentNumbers(k: Core, k': Core, txn: Txn)
    requires NumbersOk(k) && OneSent(k, k', txn)
    ensures NumbersOk(k') && k.root.value !in k.durable && k.root.value !in k.limbo
    ensures forall id :: Sent(k', id) <==> Sent(k, id) || id == k.root.value
  {
  }

  lemma SentVerdict(c: Config, k: Core, k': Core, t: Token, txn: Txn)
    requires NumbersOk(k) && OneSent(k, k', txn) && t in k.attempts && t in k.admitted && VerdictOk(c, k, t)
    ensures VerdictOk(c, k', t)
  {
    hide Witnessed;
    SentNumbers(k, k', txn);
    if k.attempts[t].fate == WasCommitted {
      WitnessKept(k, k', k.attempts[t].evidence.value);
    }
  }

  lemma SentTokens(k: Core, k': Core, txn: Txn)
    requires NumbersOk(k) && TokensOk(k) && k.started && OneSent(k, k', txn)
    ensures TokensOk(k')
  {
    hide NumbersOk;
    SentNumbers(k, k', txn);
  }

  lemma SentNotes(c: Config, k: Core, k': Core, id: int, txn: Txn)
    requires NotesOk(c, k) && NoteOk(c, k, id, txn)
    requires k' == k.(durable := k'.durable, limbo := k'.limbo)
    requires (k'.durable == k.durable[id := txn] && k'.limbo == k.limbo) || (k'.durable == k.durable && k'.limbo == k.limbo[id := txn])
    ensures NotesOk(c, k')
  {
    hide NoteOk;
    NotesCarry(c, k, k');
  }

  lemma WitnessKept(k: Core, k': Core, w: Witness)
    requires Witnessed(k.durable, w) && forall id :: id in k.durable ==> id in k'.durable && k'.durable[id] == k.durable[id]
    ensures Witnessed(k'.durable, w)
  {
    var id :| id in k.durable && k.durable[id].note == Some(w);
    assert k'.durable[id].note == Some(w);
  }

  lemma OneMoreNote(k: Core, k': Core, id: int, txn: Txn)
    requires NotesUnique(k) && id !in k.durable && id !in k.limbo
    requires txn.note.Some? ==> !Taken(k.durable, txn.note.value.token) && !Taken(k.limbo, txn.note.value.token)
    requires (k'.durable == k.durable[id := txn] && k'.limbo == k.limbo) || (k'.durable == k.durable && k'.limbo == k.limbo[id := txn])
    ensures NotesUnique(k')
  {
    forall x, y | NoteAt(k', x).Some? && NoteAt(k', x) == NoteAt(k', y)
      ensures x == y
    {
      assert x != id ==> NoteAt(k, x) == NoteAt(k', x);
      assert y != id ==> NoteAt(k, y) == NoteAt(k', y);
    }
  }

  lemma NotesCarry(c: Config, k: Core, k': Core)
    requires k'.admitted == k.admitted && k'.attempts == k.attempts && k'.root == k.root
    requires forall id :: id in k'.durable ==> NoteOk(c, k, id, k'.durable[id])
    requires forall id :: id in k'.limbo ==> NoteOk(c, k, id, k'.limbo[id])
    ensures NotesOk(c, k')
  {
  }

  /** The server settles a commit whose reply was lost. */
  lemma SettleKeeps(c: Config, k: Core, id: int, applied: bool)
    requires CoreOk(c, k) && id in k.limbo
    ensures CoreOk(c, k.(durable := if applied then k.durable[id := k.limbo[id]] else k.durable, limbo := k.limbo - {id}))
  {
    hide NoteOk, Witnessed;
    var k' := k.(durable := if applied then k.durable[id := k.limbo[id]] else k.durable, limbo := k.limbo - {id});
    forall t | t in k'.attempts && t in k'.admitted
      ensures VerdictOk(c, k', t)
    {
      assert VerdictOk(c, k, t);
      if k.attempts[t].fate == WasCommitted {
        WitnessKept(k, k', k.attempts[t].evidence.value);
      }
    }
    NotesCarry(c, k, k');
    SettledNotes(k, k', id, applied);
  }

  lemma SettledNotes(k: Core, k': Core, id: int, applied: bool)
    requires NotesUnique(k) && id in k.limbo && id !in k.durable
    requires k'.durable == (if applied then k.durable[id := k.limbo[id]] else k.durable) && k'.limbo == k.limbo - {id}
    ensures NotesUnique(k')
  {
    forall x, y | NoteAt(k', x).Some? && NoteAt(k', x) == NoteAt(k', y)
      ensures x == y
    {
      assert NoteAt(k, x) == NoteAt(k', x) && NoteAt(k, y) == NoteAt(k', y);
    }
  }
}
