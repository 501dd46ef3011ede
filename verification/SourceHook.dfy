/**
 The observation hook of the source (poly2-comparison-source-hook.py): operations over two durable
 journals - controls and frames - and the restart that rebuilds everything from them.  An append may
 fail, which latches in memory and in the health file, or die part way, which leaves a torn line.
 */
module SourceHook {
  import opened Wrappers

  type Token = string
  datatype Writer = Ingestion | Execution | OtherWriter(name: string)

  const WRITERS: set<Writer> := {Ingestion, Execution}

  datatype Binding = Binding(runId: string, synthetic: bool, start: int, end: int)

  datatype Control =
    | OwnerStart(binding: Binding)
    | Register(writer: Writer)
    | Begin(token: Token, writer: Writer)
    | BeforeCommit(token: Token, before: int)
    | CommitAck(token: Token, cursor: int)
    | RollbackAck(token: Token)
    | OwnerStop(cursor: int)

  /** The drain statement of an END_FENCE frame. */
  datatype EndNote = EndNote(writers: set<Writer>, outstanding: int, throughCursor: int)

  datatype Body =
    | Activation
    | CommitBody(token: Token, trades: seq<int>, decisions: seq<int>, before: int, after: int)
    | EndFence(note: EndNote)

  datatype Frame = Frame(binding: Binding, cursor: int, previousCursor: int, observed: int, body: Body)

  /** A registered transaction, and its commit intent once given. */
  datatype Intent = Intent(writer: Writer, before: Option<int>)

  datatype Hook = Hook(
    healthy: bool, cursor: int, pending: map<Token, Intent>, commits: map<Token, Frame>,
    writers: set<Writer>, active: bool, ended: bool)

  /** Everything that survives a crash: the whole lines of both journals, a failure latched, a torn last line. */
  datatype Disk = Disk(controls: seq<Control>, frames: seq<Frame>, latched: bool, torn: bool)

  datatype Store = Store(hook: Hook, disk: Disk)

  const COLD: Hook := Hook(true, 0, map[], map[], {}, false, false)

  function Fresh(b: Binding): Store {
    Store(COLD, Disk([OwnerStart(b)], [], false, false))
  }

  function Risk(s: Store): Store {
    s.(hook := s.hook.(healthy := false), disk := s.disk.(latched := true))
  }

  function Log(s: Store, c: Control): Store {
    s.(disk := s.disk.(controls := s.disk.controls + [c]))
  }

  // ---------- operations ----------

  function RegisterWriter(s: Store, w: Writer, sink: bool): Store {
    if !s.hook.healthy || s.hook.active || w !in WRITERS || !sink then Risk(s)
    else Log(s, Register(w)).(hook := s.hook.(writers := s.hook.writers + {w}))
  }

  function NextFrame(b: Binding, h: Hook, observed: int, body: Body): Frame {
    Frame(b, h.cursor + 1, h.cursor, observed, body)
  }

  /** A frame is durable before the cursor moves. */
  function Framed(b: Binding, s: Store, observed: int, body: Body): Store {
    s.(disk := s.disk.(frames := s.disk.frames + [NextFrame(b, s.hook, observed, body)]),
       hook := s.hook.(cursor := s.hook.cursor + 1))
  }

  function Activate(b: Binding, s: Store, now: int, observed: int, sink: bool): Store {
    if !b.synthetic || s.hook.active || s.hook.writers != WRITERS || now > b.start then Risk(s)
    else if !s.hook.healthy then s
    else if !sink then Risk(s)
    else
      var f := Framed(b, s, observed, Activation);
      f.(hook := f.hook.(active := true))
  }

  function BeginTransaction(s: Store, w: Writer, t: Token, sink: bool): Store {
    if !s.hook.healthy || !s.hook.active || s.hook.ended || w !in s.hook.writers || !sink then Risk(s)
    else Log(s, Begin(t, w)).(hook := s.hook.(pending := s.hook.pending[t := Intent(w, None)]))
  }

  /** No check that the token has no intent yet. */
  function IntendCommit(s: Store, t: Token, before: int, sink: bool): Store {
    if !s.hook.healthy || t !in s.hook.pending || !sink then Risk(s)
    else
      Log(s, BeforeCommit(t, before)).(
        hook := s.hook.(pending := s.hook.pending[t := s.hook.pending[t].(before := Some(before))]))
  }

  /** The COMMIT frame alone: what is durable if the process dies before the acknowledgement. */
  function CommitFramed(b: Binding, s: Store, t: Token, trades: seq<int>, decisions: seq<int>, after: int, observed: int): Store
    requires t in s.hook.pending && s.hook.pending[t].before.Some?
  {
    var body := CommitBody(t, trades, decisions, s.hook.pending[t].before.value, after);
    var f := Framed(b, s, observed, body);
    f.(hook := f.hook.(commits := s.hook.commits[t := NextFrame(b, s.hook, observed, body)]))
  }

  function Settle(s: Store, t: Token): Store {
    s.(hook := s.hook.(pending := s.hook.pending - {t}))
  }

  function ReportCommitted(
    b: Binding, s: Store, t: Token, trades: seq<int>, decisions: seq<int>, after: int, observed: int, sink: bool, ackSink: bool): Store
  {
    if !s.hook.healthy then s
    else if t in s.hook.commits then
      var body := s.hook.commits[t].body;
      if body.CommitBody? && body.trades == trades && body.decisions == decisions then s else Risk(s)
    else if t !in s.hook.pending || s.hook.pending[t].before.None? || !sink then Risk(s)
    else
      var f := CommitFramed(b, s, t, trades, decisions, after, observed);
      if !ackSink then Risk(f) else Settle(Log(f, CommitAck(t, f.hook.cursor)), t)
  }

  function ReportRolledBack(s: Store, t: Token, sink: bool): Store {
    if !s.hook.healthy || t !in s.hook.pending || !sink then Risk(s)
    else Settle(Log(s, RollbackAck(t)), t)
  }

  /** The END_FENCE frame alone. */
  function EndFramed(b: Binding, s: Store, observed: int): Store {
    Framed(b, s, observed, EndFence(EndNote(s.hook.writers, 0, s.hook.cursor)))
  }

  predicate MayEnd(b: Binding, h: Hook, now: int) {
    h.healthy && h.active && !h.ended && |h.pending| == 0 && now >= b.end
  }

  function EndRun(b: Binding, s: Store, now: int, observed: int, sink: bool, stopSink: bool): Store {
    if !MayEnd(b, s.hook, now) || !sink then Risk(s)
    else
      var f := EndFramed(b, s, observed);
      if !stopSink then Risk(f)
      else Log(f, OwnerStop(f.hook.cursor)).(hook := f.hook.(ended := true))
  }

  // ---------- restart ----------

  datatype Refusal =
    | WrongOwner | AfterStop | UnknownWriter | BadBegin | BadIntent | BadAck | BadRollback | UnknownControl
    | BadPosition | BadActivation | BadCommit | BadFence | AckWithoutFrame | Unresolved | BadStop
    | NoContinuity | Latched | Torn

  /** What the controls say. */
  datatype Said = Said(
    pending: map<Token, Intent>, writers: set<Writer>, acks: map<Token, int>, rolled: set<Token>, stopped: Option<int>)

  function OnControl(r: Said, c: Control): Result<Said, Refusal> {
    if r.stopped.Some? then Err(AfterStop)
    else
      match c
      case Register(w) =>
        if w !in WRITERS then Err(UnknownWriter) else Ok(r.(writers := r.writers + {w}))
      case Begin(t, w) =>
        if t in r.pending || w !in r.writers then Err(BadBegin)
        else Ok(r.(pending := r.pending[t := Intent(w, None)]))
      case BeforeCommit(t, before) =>
        if t !in r.pending || r.pending[t].before.Some? then Err(BadIntent)
        else Ok(r.(pending := r.pending[t := r.pending[t].(before := Some(before))]))
      case CommitAck(t, cursor) =>
        if t !in r.pending || t in r.acks || t in r.rolled then Err(BadAck)
        else Ok(r.(acks := r.acks[t := cursor]))
      case RollbackAck(t) =>
        if t !in r.pending || t in r.acks || t in r.rolled then Err(BadRollback)
        else Ok(r.(rolled := r.rolled + {t}))
      case OwnerStop(cursor) => Ok(r.(stopped := Some(cursor)))
      case OwnerStart(_) => Err(UnknownControl)
  }

  function FoldControls(b: Binding, cs: seq<Control>): Result<Said, Refusal> {
    if cs == [] then Err(WrongOwner)
    else if |cs| == 1 then
      if cs[0] == OwnerStart(b) then Ok(Said(map[], {}, map[], {}, None)) else Err(WrongOwner)
    else
      var r := FoldControls(b, cs[..|cs| - 1]);
      if r.Err? then r else OnControl(r.value, cs[|cs| - 1])
  }

  /** What the frames say, given everything the controls say. */
  datatype Shown = Shown(cursor: int, commits: map<Token, Frame>, active: bool, ended: bool)

  const NOTHING: Shown := Shown(0, map[], false, false)

  function OnFrame(b: Binding, said: Said, r: Shown, f: Frame): Result<Shown, Refusal> {
    if f.binding != b || f.previousCursor != r.cursor || f.cursor != r.cursor + 1 then Err(BadPosition)
    else
      match f.body
      case Activation =>
        if r.active || r.cursor != 0 || said.writers != WRITERS then Err(BadActivation)
        else Ok(r.(active := true, cursor := f.cursor))
      case CommitBody(t, _, _, before, after) =>
        if !r.active || r.ended || t !in said.pending || t in said.rolled || t in r.commits
           || said.pending[t].before != Some(before) || before > after
           || (t in said.acks && said.acks[t] != f.cursor)
        then Err(BadCommit)
        else Ok(r.(commits := r.commits[t := f], cursor := f.cursor))
      case EndFence(note) =>
        if !r.active || r.ended || f.observed < b.end || note != EndNote(said.writers, 0, r.cursor) then Err(BadFence)
        else Ok(r.(ended := true, cursor := f.cursor))
  }

  function FoldFrames(b: Binding, said: Said, fs: seq<Frame>): Result<Shown, Refusal> {
    if fs == [] then Ok(NOTHING)
    else
      var r := FoldFrames(b, said, fs[..|fs| - 1]);
      if r.Err? then r else OnFrame(b, said, r.value, fs[|fs| - 1])
  }

  /** Tokens begun but neither rolled back nor durably committed. */
  function Open(said: Said, shown: Shown): set<Token> {
    said.pending.Keys - said.rolled - shown.commits.Keys
  }

  /** The checks after both journals were read. */
  function Conclude(b: Binding, said: Said, shown: Shown, latched: bool): Result<Hook, Refusal> {
    if !(said.acks.Keys <= shown.commits.Keys) then Err(AckWithoutFrame)
    else if Open(said, shown) != {} then Err(Unresolved)
    else if said.stopped.Some? && (!shown.ended || said.stopped.value != shown.cursor) then Err(BadStop)
    else if !b.synthetic && !shown.ended then Err(NoContinuity)
    else if latched then Err(Latched)
    else Ok(Hook(true, shown.cursor, map[], shown.commits, said.writers, shown.active, shown.ended))
  }

  function RestoreOf(b: Binding, d: Disk): Result<Hook, Refusal> {
    var said := FoldControls(b, d.controls);
    if d.torn then Err(Torn)
    else if said.Err? then Err(said.error)
    else
      var shown := FoldFrames(b, said.value, d.frames);
      if shown.Err? then Err(shown.error) else Conclude(b, said.value, shown.value, d.latched)
  }

  // ---------- the object ----------

  class ObservationHook {
    const binding: Binding
    var healthy: bool
    var cursor: int
    var pending: map<Token, Intent>
    var commits: map<Token, Frame>
    var writers: set<Writer>
    var active: bool
    var ended: bool
    var controls: seq<Control>
    var frames: seq<Frame>
    var latched: bool
    var torn: bool

    function View(): Store
      reads this
    {
      Store(Hook(healthy, cursor, pending, commits, writers, active, ended), Disk(controls, frames, latched, torn))
    }

    /** A first start, or a restart over what an earlier process left. */
    constructor (b: Binding, disk: Option<Disk>)
      ensures binding == b
      ensures disk.None? ==> View() == Fresh(b)
      ensures disk.Some? ==> controls == disk.value.controls && frames == disk.value.frames
      ensures disk.Some? && RestoreOf(b, disk.value).Ok? ==> View() == Store(RestoreOf(b, disk.value).value, disk.value)
      ensures disk.Some? && RestoreOf(b, disk.value).Err? ==> !healthy && latched
    {
      binding, healthy, cursor, pending, commits := b, true, 0, map[], map[];
      writers, active, ended := {}, false, false;
      controls := if disk.None? then [OwnerStart(b)] else disk.value.controls;
      frames := if disk.None? then [] else disk.value.frames;
      latched, torn := disk.Some? && disk.value.latched, disk.Some? && disk.value.torn;
      new;
      if disk.Some? {
        var ok := Restore();
        if !ok {
          AtRisk();
        }
      }
    }

    method AtRisk()
      modifies `healthy, `latched
      ensures View() == Risk(old(View()))
    {
      healthy, latched := false, true;
    }

    /** `_restore`: one pass over the controls, one over the frames, then the closing checks. */
    method Restore() returns (ok: bool)
      requires View().hook == COLD
      modifies `cursor, `pending, `commits, `writers, `active, `ended
      ensures ok <==> RestoreOf(binding, View().disk).Ok?
      ensures ok ==> View() == Store(RestoreOf(binding, old(View()).disk).value, old(View()).disk)
      ensures healthy
    {
      hide OnControl, OnFrame, Conclude, FoldControls, FoldFrames;
      if torn {
        return false;
      }
      if controls == [] || controls[0] != OwnerStart(binding) {
        NoOwner(binding, controls);
        return false;
      }
      var said := Said(map[], {}, map[], {}, None);
      var i := 1;
      OwnerFold(binding, controls);
      while i < |controls|
        invariant 1 <= i <= |controls|
        invariant FoldControls(binding, controls[..i]) == Ok(said)
        invariant View().hook == COLD
      {
        FoldControlsStep(binding, controls, i);
        var r := OnControl(said, controls[i]);
        if r.Err? {
          FoldControlsStops(binding, controls, i + 1);
          return false;
        }
        said, i := r.value, i + 1;
      }
      assert controls[..i] == controls;
      pending, writers := said.pending, said.writers;
      var read := RestoreFrames(said);
      if read.None? {
        return false;
      }
      var shown := read.value;
      var result := Conclude(binding, said, shown, latched);
      if result.Ok? {
        cursor, pending, commits := result.value.cursor, result.value.pending, result.value.commits;
        writers, active, ended := result.value.writers, result.value.active, result.value.ended;
        ConcludedHealthy(binding, said, shown, latched);
      }
      return result.Ok?;
    }

    /** The second pass of `_restore`: the frames, given what the controls say. */
    method RestoreFrames(said: Said) returns (r: Option<Shown>)
      requires cursor == 0 && commits == map[] && !active && !ended
      modifies `cursor, `commits, `active, `ended
      ensures r == (if FoldFrames(binding, said, frames).Ok? then Some(FoldFrames(binding, said, frames).value) else None)
    {
      hide OnFrame, FoldFrames;
      var shown := NOTHING;
      FoldNoFrames(binding, said, frames);
      var i := 0;
      while i < |frames|
        invariant 0 <= i <= |frames|
        invariant FoldFrames(binding, said, frames[..i]) == Ok(shown)
        invariant frames == old(frames)
      {
        FoldFramesStep(binding, said, frames, i);
        var next := OnFrame(binding, said, shown, frames[i]);
        if next.Err? {
          FoldFramesStops(binding, said, frames, i + 1);
          return None;
        }
        shown, i := next.value, i + 1;
        cursor, commits, active, ended := shown.cursor, shown.commits, shown.active, shown.ended;
      }
      assert frames[..i] == frames;
      return Some(shown);
    }

    method AppendControl(c: Control)
      modifies `controls
      ensures View() == Log(old(View()), c)
    {
      controls := controls + [c];
    }

    /** `_frame`. */
    method AppendFrame(observed: int, body: Body)
      modifies `frames, `cursor
      ensures View() == Framed(binding, old(View()), observed, body)
    {
      frames := frames + [NextFrame(binding, View().hook, observed, body)];
      cursor := cursor + 1;
    }

    method RegisterOne(w: Writer, sink: bool) returns (ok: bool)
      modifies this
      ensures View() == RegisterWriter(old(View()), w, sink)
      ensures ok ==> w in writers && healthy
    {
      if !healthy || active || w !in WRITERS || !sink {
        AtRisk();
        return false;
      }
      AppendControl(Register(w));
      writers := writers + {w};
      return true;
    }

    method ActivateStream(now: int, observed: int, sink: bool) returns (ok: bool)
      modifies this
      ensures View() == Activate(binding, old(View()), now, observed, sink)
      ensures ok ==> active && writers == WRITERS
    {
      if !binding.synthetic || active || writers != WRITERS || now > binding.start {
        AtRisk();
        return false;
      }
      if !healthy {
        return false;
      }
      if !sink {
        AtRisk();
        return false;
      }
      AppendFrame(observed, Activation);
      active := true;
      return true;
    }

    method BeginOne(w: Writer, t: Token, sink: bool) returns (ok: bool)
      modifies this
      ensures View() == BeginTransaction(old(View()), w, t, sink)
      ensures ok ==> t in pending
    {
      if !healthy || !active || ended || w !in writers || !sink {
        AtRisk();
        return false;
      }
      AppendControl(Begin(t, w));
      pending := pending[t := Intent(w, None)];
      return true;
    }

    method BeforeCommitOne(t: Token, now: int, sink: bool) returns (ok: bool)
      modifies this
      ensures View() == IntendCommit(old(View()), t, now, sink)
      ensures ok ==> t in pending && pending[t].before == Some(now)
    {
      if !healthy || t !in pending || !sink {
        AtRisk();
        return false;
      }
      AppendControl(BeforeCommit(t, now));
      pending := pending[t := pending[t].(before := Some(now))];
      return true;
    }

    method CommittedOne(t: Token, trades: seq<int>, decisions: seq<int>, after: int, observed: int, sink: bool, ackSink: bool)
      returns (ok: bool)
      modifies this
      ensures View() == ReportCommitted(binding, old(View()), t, trades, decisions, after, observed, sink, ackSink)
      ensures ok ==> t in commits
    {
      if !healthy {
        return false;
      }
      if t in commits {
        var body := commits[t].body;
        if !(body.CommitBody? && body.trades == trades && body.decisions == decisions) {
          AtRisk();
          return false;
        }
        return true;
      }
      if t !in pending || pending[t].before.None? || !sink {
        AtRisk();
        return false;
      }
      var body := CommitBody(t, trades, decisions, pending[t].before.value, after);
      var frame := NextFrame(binding, View().hook, observed, body);
      AppendFrame(observed, body);
      commits := commits[t := frame];
      if !ackSink {
        AtRisk();
        return false;
      }
      AppendControl(CommitAck(t, cursor));
      pending := pending - {t};
      return true;
    }

    method RolledBackOne(t: Token, sink: bool) returns (ok: bool)
      modifies this
      ensures View() == ReportRolledBack(old(View()), t, sink)
      ensures ok ==> t !in pending
    {
      if !healthy || t !in pending || !sink {
        AtRisk();
        return false;
      }
      AppendControl(RollbackAck(t));
      pending := pending - {t};
      return true;
    }

    method EndFenceOnce(now: int, observed: int, sink: bool, stopSink: bool) returns (ok: bool)
      modifies this
      ensures View() == EndRun(binding, old(View()), now, observed, sink, stopSink)
      ensures ok ==> ended && |pending| == 0
    {
      if !healthy || !active || ended || |pending| != 0 || now < binding.end || !sink {
        AtRisk();
        return false;
      }
      AppendFrame(observed, EndFence(EndNote(writers, 0, cursor)));
      if !stopSink {
        AtRisk();
        return false;
      }
      AppendControl(OwnerStop(cursor));
      ended := true;
      return true;
    }
  }

  // ---------- folds stop at the first refusal ----------

  lemma {:induction false} NoOwner(b: Binding, cs: seq<Control>)
    requires cs == [] || cs[0] != OwnerStart(b)
    ensures FoldControls(b, cs).Err?
    decreases |cs|
  {
    if |cs| > 1 {
      NoOwner(b, cs[..|cs| - 1]);
    }
  }

  lemma OwnerFold(b: Binding, cs: seq<Control>)
    requires cs != [] && cs[0] == OwnerStart(b)
    ensures FoldControls(b, cs[..1]) == Ok(Said(map[], {}, map[], {}, None))
  {
    assert cs[..1] == [cs[0]];
  }

  lemma FoldNoFrames(b: Binding, said: Said, fs: seq<Frame>)
    ensures FoldFrames(b, said, fs[..0]) == Ok(NOTHING)
  {
  }

  lemma FoldFramesStep(b: Binding, said: Said, fs: seq<Frame>, i: nat)
    requires i < |fs| && FoldFrames(b, said, fs[..i]).Ok?
    ensures FoldFrames(b, said, fs[..i + 1]) == OnFrame(b, said, FoldFrames(b, said, fs[..i]).value, fs[i])
  {
    hide OnFrame;
    assert fs[..i + 1][..i] == fs[..i];
  }

  lemma FoldControlsStep(b: Binding, cs: seq<Control>, i: nat)
    requires 1 <= i < |cs| && FoldControls(b, cs[..i]).Ok?
    ensures FoldControls(b, cs[..i + 1]) == OnControl(FoldControls(b, cs[..i]).value, cs[i])
  {
    hide OnControl;
    assert cs[..i + 1][..i] == cs[..i];
  }

  lemma {:induction false} FoldControlsStops(b: Binding, cs: seq<Control>, i: nat)
    requires i <= |cs| && FoldControls(b, cs[..i]).Err? && i > 0
    ensures FoldControls(b, cs).Err?
    decreases |cs|
  {
    hide OnControl;
    if i < |cs| {
      assert cs[..|cs| - 1][..i] == cs[..i];
      FoldControlsStops(b, cs[..|cs| - 1], i);
    } else {
      assert cs[..i] == cs;
    }
  }

  lemma {:induction false} FoldFramesStops(b: Binding, said: Said, fs: seq<Frame>, i: nat)
    requires i <= |fs| && FoldFrames(b, said, fs[..i]).Err?
    ensures FoldFrames(b, said, fs).Err?
    decreases |fs|
  {
    hide OnFrame;
    if i < |fs| {
      assert fs[..|fs| - 1][..i] == fs[..i];
      FoldFramesStops(b, said, fs[..|fs| - 1], i);
    } else {
      assert fs[..i] == fs;
    }
  }

  lemma ConcludedHealthy(b: Binding, said: Said, shown: Shown, latched: bool)
    ensures Conclude(b, said, shown, latched).Ok? ==> Conclude(b, said, shown, latched).value.healthy
  {
  }
}
