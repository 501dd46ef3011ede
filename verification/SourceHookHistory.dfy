/**
 What the two journals of the hook must look like for a restart to accept them, read off their lines: each
 control and each frame against the lines before it, and the two against each other.
 */
module SourceHookHistory {
  import opened Wrappers
  import opened SourceHook
  import opened SourceHookRuns

  // ---------- questions to the controls ----------

  datatype Query =
    | RegisterOf(writer: Writer)
    | BeginOf(token: Token)
    | IntentOf(token: Token)
    | AckOf(token: Token)
    | UndoOf(token: Token)
    | AnyStop

  predicate Answers(q: Query, c: Control) {
    match q
    case RegisterOf(w) => c.Register? && c.writer == w
    case BeginOf(t) => c.Begin? && c.token == t
    case IntentOf(t) => c.BeforeCommit? && c.token == t
    case AckOf(t) => c.CommitAck? && c.token == t
    case UndoOf(t) => c.RollbackAck? && c.token == t
    case AnyStop => c.OwnerStop?
  }

  ghost predicate Has(cs: seq<Control>, q: Query) {
    exists i :: 0 <= i < |cs| && Answers(q, cs[i])
  }

  lemma HasMore(cs: seq<Control>, c: Control)
    ensures forall q :: Has(cs + [c], q) <==> Has(cs, q) || Answers(q, c)
  {
    var more := cs + [c];
    forall q
      ensures Has(more, q) <==> Has(cs, q) || Answers(q, c)
    {
      if Has(cs, q) {
        var i :| 0 <= i < |cs| && Answers(q, cs[i]);
        assert more[i] == cs[i];
      }
      if Answers(q, c) {
        assert more[|cs|] == c;
      }
      if Has(more, q) && !Answers(q, c) {
        var i :| 0 <= i < |more| && Answers(q, more[i]);
        assert cs[i] == more[i];
      }
    }
  }

  /** The intent given for a token, and the cursor its commit was acknowledged at. */
  ghost predicate IntendedAt(cs: seq<Control>, t: Token, before: int) {
    exists i :: 0 <= i < |cs| && cs[i] == BeforeCommit(t, before)
  }

  ghost predicate AckedAt(cs: seq<Control>, t: Token, cursor: int) {
    exists i :: 0 <= i < |cs| && cs[i] == CommitAck(t, cursor)
  }

  ghost predicate StoppedAt(cs: seq<Control>, cursor: int) {
    exists i :: 0 <= i < |cs| && cs[i] == OwnerStop(cursor)
  }

  lemma AtMore(cs: seq<Control>, c: Control)
    ensures forall t, n :: IntendedAt(cs + [c], t, n) <==> IntendedAt(cs, t, n) || c == BeforeCommit(t, n)
    ensures forall t, n :: AckedAt(cs + [c], t, n) <==> AckedAt(cs, t, n) || c == CommitAck(t, n)
    ensures forall n :: StoppedAt(cs + [c], n) <==> StoppedAt(cs, n) || c == OwnerStop(n)
  {
    forall t, n
      ensures IntendedAt(cs + [c], t, n) <==> IntendedAt(cs, t, n) || c == BeforeCommit(t, n)
    {
      ListedMore(cs, c, BeforeCommit(t, n));
    }
    forall t, n
      ensures AckedAt(cs + [c], t, n) <==> AckedAt(cs, t, n) || c == CommitAck(t, n)
    {
      ListedMore(cs, c, CommitAck(t, n));
    }
    forall n
      ensures StoppedAt(cs + [c], n) <==> StoppedAt(cs, n) || c == OwnerStop(n)
    {
      ListedMore(cs, c, OwnerStop(n));
    }
  }

  lemma ListedMore(cs: seq<Control>, c: Control, x: Control)
    ensures (exists i :: 0 <= i < |cs + [c]| && (cs + [c])[i] == x) <==> (exists i :: 0 <= i < |cs| && cs[i] == x) || c == x
  {
    var more := cs + [c];
    if exists i :: 0 <= i < |cs| && cs[i] == x {
      var i :| 0 <= i < |cs| && cs[i] == x;
      assert more[i] == x;
    }
    if c == x {
      assert more[|cs|] == x;
    }
  }

  // ---------- one more control ----------

  /** What the controls before it ask of a control. */
  ghost predicate LegalControl(cs: seq<Control>, c: Control) {
    && !Has(cs, AnyStop)
    && match c
       case OwnerStart(_) => false
       case Register(w) => w == Ingestion || w == Execution
       case Begin(t, w) => Has(cs, RegisterOf(w)) && !Has(cs, BeginOf(t))
       case BeforeCommit(t, _) => Has(cs, BeginOf(t)) && !Has(cs, IntentOf(t))
       case CommitAck(t, _) => Has(cs, BeginOf(t)) && !Has(cs, AckOf(t)) && !Has(cs, UndoOf(t))
       case RollbackAck(t) => Has(cs, BeginOf(t)) && !Has(cs, AckOf(t)) && !Has(cs, UndoOf(t))
       case OwnerStop(_) => true
  }

  ghost predicate LegalControls(b: Binding, cs: seq<Control>) {
    && cs != [] && cs[0] == OwnerStart(b)
    && forall k :: 1 <= k < |cs| ==> LegalControl(cs[..k], cs[k])
  }

  ghost predicate PendingIs(r: Said, cs: seq<Control>) {
    && (forall t :: t in r.pending <==> Has(cs, BeginOf(t)))
    && (forall t, n :: t in r.pending && r.pending[t].before == Some(n) <==> IntendedAt(cs, t, n))
    && (forall t :: t in r.pending && r.pending[t].before.Some? <==> Has(cs, IntentOf(t)))
  }

  ghost predicate AcksAre(r: Said, cs: seq<Control>) {
    && (forall t :: t in r.acks <==> Has(cs, AckOf(t)))
    && (forall t, n :: t in r.acks && r.acks[t] == n <==> AckedAt(cs, t, n))
    && (forall t :: t in r.rolled <==> Has(cs, UndoOf(t)))
  }

  ghost predicate RestIs(r: Said, cs: seq<Control>) {
    && (forall w :: w in r.writers <==> Has(cs, RegisterOf(w)))
    && (r.stopped.Some? <==> Has(cs, AnyStop))
    && (forall n :: r.stopped == Some(n) <==> StoppedAt(cs, n))
  }

  /** The rebuilt table is what the controls say. */
  ghost predicate SaidIs(r: Said, cs: seq<Control>) {
    PendingIs(r, cs) && AcksAre(r, cs) && RestIs(r, cs)
  }

  lemma ControlAccepted(r: Said, cs: seq<Control>, c: Control)
    requires SaidIs(r, cs)
    ensures OnControl(r, c).Ok? <==> LegalControl(cs, c)
  {
    hide Has, IntendedAt, AckedAt, StoppedAt;
  }

  lemma PendingStep(r: Said, cs: seq<Control>, c: Control)
    requires PendingIs(r, cs) && OnControl(r, c).Ok?
    ensures PendingIs(OnControl(r, c).value, cs + [c])
  {
    hide Has, IntendedAt, AckedAt, StoppedAt;
    HasMore(cs, c);
    AtMore(cs, c);
    if c.BeforeCommit? {
      assert r.pending[c.token].before.None?;
    }
  }

  lemma AcksStep(r: Said, cs: seq<Control>, c: Control)
    requires AcksAre(r, cs) && OnControl(r, c).Ok?
    ensures AcksAre(OnControl(r, c).value, cs + [c])
  {
    hide Has, IntendedAt, AckedAt, StoppedAt;
    HasMore(cs, c);
    AtMore(cs, c);
  }

  lemma RestStep(r: Said, cs: seq<Control>, c: Control)
    requires RestIs(r, cs) && OnControl(r, c).Ok?
    ensures RestIs(OnControl(r, c).value, cs + [c])
  {
    hide Has, IntendedAt, AckedAt, StoppedAt;
    HasMore(cs, c);
    AtMore(cs, c);
  }

  lemma ControlStep(r: Said, cs: seq<Control>, c: Control)
    requires SaidIs(r, cs)
    ensures OnControl(r, c).Ok? <==> LegalControl(cs, c)
    ensures OnControl(r, c).Ok? ==> SaidIs(OnControl(r, c).value, cs + [c])
  {
    hide OnControl, LegalControl, PendingIs, AcksAre, RestIs;
    ControlAccepted(r, cs, c);
    if OnControl(r, c).Ok? {
      PendingStep(r, cs, c);
      AcksStep(r, cs, c);
      RestStep(r, cs, c);
    }
  }

  lemma {:induction false} ControlsIffLegal(b: Binding, cs: seq<Control>)
    ensures FoldControls(b, cs).Ok? <==> LegalControls(b, cs)
    ensures FoldControls(b, cs).Ok? ==> SaidIs(FoldControls(b, cs).value, cs)
    decreases |cs|
  {
    hide OnControl, LegalControl, SaidIs;
    if |cs| == 1 {
      assert cs == [cs[0]];
      if cs[0] == OwnerStart(b) {
        StartIs(b, cs[0]);
      }
    } else if |cs| > 1 {
      var init, c := cs[..|cs| - 1], cs[|cs| - 1];
      assert cs == init + [c];
      ControlsIffLegal(b, init);
      LegalMore(b, init, c);
      if FoldControls(b, init).Ok? {
        ControlStep(FoldControls(b, init).value, init, c);
      }
    }
  }

  lemma StartIs(b: Binding, c: Control)
    requires c == OwnerStart(b)
    ensures SaidIs(Said(map[], {}, map[], {}, None), [c])
  {
  }

  lemma LegalMore(b: Binding, cs: seq<Control>, c: Control)
    requires cs != []
    ensures LegalControls(b, cs + [c]) <==> LegalControls(b, cs) && LegalControl(cs, c)
  {
    hide LegalControl;
    var more := cs + [c];
    assert more[..|cs|] == cs && more[0] == cs[0];
    assert forall k :: 1 <= k < |cs| ==> more[..k] == cs[..k] && more[k] == cs[k];
    if LegalControls(b, more) {
      forall k | 1 <= k < |cs|
        ensures LegalControl(cs[..k], cs[k])
      {
        assert LegalControl(more[..k], more[k]);
      }
    }
    if LegalControls(b, cs) && LegalControl(cs, c) {
      forall k | 1 <= k < |more|
        ensures LegalControl(more[..k], more[k])
      {
        if k < |cs| {
          assert LegalControl(cs[..k], cs[k]);
        }
      }
    }
  }

  // ---------- one more frame ----------

  ghost predicate CommittedIn(fs: seq<Frame>, t: Token) {
    exists i :: 0 <= i < |fs| && fs[i].body.CommitBody? && fs[i].body.token == t
  }

  ghost predicate FencedIn(fs: seq<Frame>) {
    exists i :: 0 <= i < |fs| && fs[i].body.EndFence?
  }

  /** Both writers are registered. */
  ghost predicate BothRegistered(cs: seq<Control>) {
    forall w :: w == Ingestion || w == Execution <==> Has(cs, RegisterOf(w))
  }

  /** What the frames before it, and the controls, ask of a frame. */
  ghost predicate LegalFrame(b: Binding, cs: seq<Control>, fs: seq<Frame>, f: Frame) {
    && f.binding == b && f.previousCursor == |fs| && f.cursor == |fs| + 1
    && match f.body
       case Activation => fs == [] && BothRegistered(cs)
       case CommitBody(t, _, _, before, after) =>
         && fs != [] && !FencedIn(fs) && !CommittedIn(fs, t)
         && Has(cs, BeginOf(t)) && !Has(cs, UndoOf(t)) && IntendedAt(cs, t, before) && before <= after
         && (Has(cs, AckOf(t)) ==> AckedAt(cs, t, f.cursor))
       case EndFence(note) =>
         && fs != [] && !FencedIn(fs) && f.observed >= b.end
         && (forall w :: w in note.writers <==> Has(cs, RegisterOf(w))) && note.outstanding == 0 && note.throughCursor == |fs|
  }

  ghost predicate LegalFrames(b: Binding, cs: seq<Control>, fs: seq<Frame>) {
    forall k :: 0 <= k < |fs| ==> LegalFrame(b, cs, fs[..k], fs[k])
  }

  ghost predicate ShownIs(r: Shown, fs: seq<Frame>) {
    && r.cursor == |fs| && (r.active <==> fs != []) && (r.ended <==> FencedIn(fs))
    && (forall t :: t in r.commits <==> CommittedIn(fs, t))
    && (forall t :: t in r.commits ==> exists i :: 0 <= i < |fs| && fs[i] == r.commits[t] && fs[i].body.CommitBody? && fs[i].body.token == t)
  }

  lemma FramesMore(fs: seq<Frame>, f: Frame)
    ensures forall t :: CommittedIn(fs + [f], t) <==> CommittedIn(fs, t) || (f.body.CommitBody? && f.body.token == t)
    ensures FencedIn(fs + [f]) <==> FencedIn(fs) || f.body.EndFence?
  {
    var more := fs + [f];
    assert more[|fs|] == f;
    forall t
      ensures CommittedIn(more, t) <==> CommittedIn(fs, t) || (f.body.CommitBody? && f.body.token == t)
    {
      if CommittedIn(fs, t) {
        var i :| 0 <= i < |fs| && fs[i].body.CommitBody? && fs[i].body.token == t;
        assert more[i] == fs[i];
      }
    }
    if FencedIn(fs) {
      var i :| 0 <= i < |fs| && fs[i].body.EndFence?;
      assert more[i] == fs[i];
    }
  }

  lemma WritersAre(ws: set<Writer>)
    ensures ws == WRITERS <==> forall w :: w == Ingestion || w == Execution <==> w in ws
  {
  }

  lemma FrameStep(b: Binding, cs: seq<Control>, said: Said, r: Shown, fs: seq<Frame>, f: Frame)
    requires SaidIs(said, cs) && ShownIs(r, fs)
    ensures OnFrame(b, said, r, f).Ok? <==> LegalFrame(b, cs, fs, f)
  {
    hide Has, IntendedAt, AckedAt, StoppedAt, CommittedIn, FencedIn;
    WritersAre(said.writers);
    if f.body.EndFence? {
      NoteIs(f.body.note, said, cs, r.cursor);
    }
  }

  lemma NoteIs(note: EndNote, said: Said, cs: seq<Control>, cursor: int)
    requires SaidIs(said, cs)
    ensures note == EndNote(said.writers, 0, cursor) <==>
      (forall w :: w in note.writers <==> Has(cs, RegisterOf(w))) && note.outstanding == 0 && note.throughCursor == cursor
  {
    hide Has, IntendedAt, AckedAt, StoppedAt;
    if forall w :: w in note.writers <==> Has(cs, RegisterOf(w)) {
      assert forall w :: w in note.writers <==> w in said.writers;
      assert note.writers == said.writers;
    }
  }

  lemma ShownStep(b: Binding, said: Said, r: Shown, fs: seq<Frame>, f: Frame)
    requires ShownIs(r, fs) && OnFrame(b, said, r, f).Ok?
    ensures ShownIs(OnFrame(b, said, r, f).value, fs + [f])
  {
    hide CommittedIn, FencedIn;
    FramesMore(fs, f);
    var r', more := OnFrame(b, said, r, f).value, fs + [f];
    assert more[|fs|] == f;
    forall t | t in r'.commits
      ensures exists i :: 0 <= i < |more| && more[i] == r'.commits[t] && more[i].body.CommitBody? && more[i].body.token == t
    {
      if t in r.commits && r'.commits[t] == r.commits[t] {
        var i :| 0 <= i < |fs| && fs[i] == r.commits[t] && fs[i].body.CommitBody? && fs[i].body.token == t;
        assert more[i] == fs[i];
      }
    }
  }

  lemma {:induction false} FramesIffLegal(b: Binding, cs: seq<Control>, said: Said, fs: seq<Frame>)
    requires SaidIs(said, cs)
    ensures FoldFrames(b, said, fs).Ok? <==> LegalFrames(b, cs, fs)
    ensures FoldFrames(b, said, fs).Ok? ==> ShownIs(FoldFrames(b, said, fs).value, fs)
    decreases |fs|
  {
    hide OnFrame, LegalFrame, SaidIs, ShownIs, FoldFrames, LegalFrames;
    if fs == [] {
      NoFrames(b, cs, said);
    } else {
      var init, f := fs[..|fs| - 1], fs[|fs| - 1];
      assert fs == init + [f];
      FramesIffLegal(b, cs, said, init);
      LegalFramesMore(b, cs, init, f);
      FoldFramesAppend(b, said, init, f);
      if FoldFrames(b, said, init).Ok? {
        FrameStep(b, cs, said, FoldFrames(b, said, init).value, init, f);
        if FoldFrames(b, said, fs).Ok? {
          ShownStep(b, said, FoldFrames(b, said, init).value, init, f);
        }
      }
    }
  }

  lemma NoFrames(b: Binding, cs: seq<Control>, said: Said)
    ensures FoldFrames(b, said, []) == Ok(NOTHING) && LegalFrames(b, cs, []) && ShownIs(NOTHING, [])
  {
  }

  lemma LegalFramesMore(b: Binding, cs: seq<Control>, fs: seq<Frame>, f: Frame)
    ensures LegalFrames(b, cs, fs + [f]) <==> LegalFrames(b, cs, fs) && LegalFrame(b, cs, fs, f)
  {
    hide LegalFrame;
    var more := fs + [f];
    assert more[..|fs|] == fs;
    assert forall k :: 0 <= k < |fs| ==> more[..k] == fs[..k] && more[k] == fs[k];
    if LegalFrames(b, cs, more) {
      forall k | 0 <= k < |fs|
        ensures LegalFrame(b, cs, fs[..k], fs[k])
      {
        assert LegalFrame(b, cs, more[..k], more[k]);
      }
      assert LegalFrame(b, cs, more[..|fs|], more[|fs|]);
    }
  }

  // ---------- both journals ----------

  /** The two journals together: acknowledged means framed, begun means resolved, stopped means ended there. */
  ghost predicate Closed(b: Binding, cs: seq<Control>, fs: seq<Frame>) {
    && (forall t :: Has(cs, AckOf(t)) ==> CommittedIn(fs, t))
    && (forall t :: Has(cs, BeginOf(t)) ==> Has(cs, UndoOf(t)) || CommittedIn(fs, t))
    && (Has(cs, AnyStop) ==> FencedIn(fs) && StoppedAt(cs, |fs|))
    && (b.synthetic || FencedIn(fs))
  }

  /**
   A restart accepts the two journals if and only if neither ends in a torn line and no failure is
   latched, every control and every frame was legal by the lines before it, and together they leave
   nothing open; it then holds every frame's commit, and the cursor of the last.
   */
  lemma RestoresIffLegal(b: Binding, d: Disk)
    ensures RestoreOf(b, d).Ok? <==>
      && !d.torn && !d.latched
      && LegalControls(b, d.controls) && LegalFrames(b, d.controls, d.frames) && Closed(b, d.controls, d.frames)
    ensures RestoreOf(b, d).Ok? ==>
      var h := RestoreOf(b, d).value;
      && h.healthy && h.cursor == |d.frames| && (h.active <==> d.frames != []) && (h.ended <==> FencedIn(d.frames)) && h.pending == map[]
      && (forall t :: t in h.commits <==> CommittedIn(d.frames, t)) && (forall w :: w in h.writers <==> Has(d.controls, RegisterOf(w)))
  {
    hide FoldControls, FoldFrames, LegalControls, LegalFrames, Has, CommittedIn, FencedIn, StoppedAt, IntendedAt, AckedAt, Conclude, Closed;
    ControlsIffLegal(b, d.controls);
    if FoldControls(b, d.controls).Ok? {
      var said := FoldControls(b, d.controls).value;
      FramesIffLegal(b, d.controls, said, d.frames);
      if FoldFrames(b, said, d.frames).Ok? {
        ConcludesIff(b, d.controls, said, d.frames, FoldFrames(b, said, d.frames).value, d.latched);
      }
    }
  }

  lemma ConcludesIff(b: Binding, cs: seq<Control>, said: Said, fs: seq<Frame>, shown: Shown, latched: bool)
    requires SaidIs(said, cs) && ShownIs(shown, fs)
    ensures Conclude(b, said, shown, latched).Ok? <==> !latched && Closed(b, cs, fs)
    ensures Conclude(b, said, shown, latched).Ok? ==>
      Conclude(b, said, shown, latched).value == Hook(true, shown.cursor, map[], shown.commits, said.writers, shown.active, shown.ended)
  {
    hide Has, CommittedIn, FencedIn, StoppedAt, IntendedAt, AckedAt;
    assert said.acks.Keys <= shown.commits.Keys <==> forall t :: Has(cs, AckOf(t)) ==> CommittedIn(fs, t);
    assert Open(said, shown) == {} <==> forall t :: Has(cs, BeginOf(t)) ==> Has(cs, UndoOf(t)) || CommittedIn(fs, t) by {
      OpenIs(said, shown);
    }
    if said.stopped.Some? {
      assert said.stopped == Some(|fs|) <==> StoppedAt(cs, |fs|);
    }
  }

  lemma OpenIs(said: Said, shown: Shown)
    ensures Open(said, shown) == {} <==> forall t :: t in said.pending ==> t in said.rolled || t in shown.commits
  {
    if Open(said, shown) == {} {
      forall t | t in said.pending
        ensures t in said.rolled || t in shown.commits
      {
        assert t !in Open(said, shown);
      }
    }
  }
}
