/**
 Runs of the observation hook, crashes included: what a restart rebuilds is what the live hook held,
 and it refuses exactly when a transaction is unresolved, an intent was given twice, or something
 failed.
 */
module SourceHookRuns {
  import opened Wrappers
  import opened SourceHook

  // ---------- what the controls mention ----------

  ghost predicate Begun(cs: seq<Control>, t: Token) {
    exists i :: 0 <= i < |cs| && cs[i].Begin? && cs[i].token == t
  }

  ghost predicate Intended(cs: seq<Control>, t: Token) {
    exists i :: 0 <= i < |cs| && cs[i].BeforeCommit? && cs[i].token == t
  }

  /** Some token was given two commit intents. */
  ghost predicate Twice(cs: seq<Control>) {
    exists i, j :: 0 <= i < j < |cs| && cs[i].BeforeCommit? && cs[j].BeforeCommit? && cs[i].token == cs[j].token
  }

  lemma BegunAppend(cs: seq<Control>, c: Control, t: Token)
    ensures Begun(cs + [c], t) <==> Begun(cs, t) || (c.Begin? && c.token == t)
  {
    var more := cs + [c];
    if Begun(cs, t) {
      var i :| 0 <= i < |cs| && cs[i].Begin? && cs[i].token == t;
      assert more[i].Begin? && more[i].token == t;
    }
    if c.Begin? && c.token == t {
      assert more[|cs|].Begin? && more[|cs|].token == t;
    }
  }

  lemma IntendedAppend(cs: seq<Control>, c: Control, t: Token)
    ensures Intended(cs + [c], t) <==> Intended(cs, t) || (c.BeforeCommit? && c.token == t)
  {
    var more := cs + [c];
    if Intended(cs, t) {
      var i :| 0 <= i < |cs| && cs[i].BeforeCommit? && cs[i].token == t;
      assert more[i].BeforeCommit? && more[i].token == t;
    }
    if c.BeforeCommit? && c.token == t {
      assert more[|cs|].BeforeCommit? && more[|cs|].token == t;
    }
  }

  lemma TwiceAppend(cs: seq<Control>, c: Control)
    ensures Twice(cs + [c]) <==> Twice(cs) || (c.BeforeCommit? && Intended(cs, c.token))
  {
    var more := cs + [c];
    if Twice(cs) {
      var i, j :| 0 <= i < j < |cs| && cs[i].BeforeCommit? && cs[j].BeforeCommit? && cs[i].token == cs[j].token;
      assert more[i].BeforeCommit? && more[j].BeforeCommit? && more[i].token == more[j].token;
    }
    if c.BeforeCommit? && Intended(cs, c.token) {
      var i :| 0 <= i < |cs| && cs[i].BeforeCommit? && cs[i].token == c.token;
      assert more[i].BeforeCommit? && more[|cs|].BeforeCommit? && more[i].token == more[|cs|].token;
    }
    if Twice(more) {
      var i, j :| 0 <= i < j < |more| && more[i].BeforeCommit? && more[j].BeforeCommit? && more[i].token == more[j].token;
      if j < |cs| {
        assert cs[i].BeforeCommit? && cs[j].BeforeCommit?;
      } else {
        assert cs[i].BeforeCommit? && cs[i].token == c.token;
      }
    }
  }

  lemma FoldControlsAppend(b: Binding, cs: seq<Control>, c: Control)
    requires cs != []
    ensures FoldControls(b, cs + [c])
         == if FoldControls(b, cs).Err? then FoldControls(b, cs) else OnControl(FoldControls(b, cs).value, c)
  {
    hide OnControl;
    assert (cs + [c])[..|cs|] == cs;
  }

  /** The rebuilt table knows exactly the tokens begun, and exactly the intents given. */
  lemma {:induction false} SaidMatchesControls(b: Binding, cs: seq<Control>, t: Token)
    requires FoldControls(b, cs).Ok?
    ensures var said := FoldControls(b, cs).value;
      && (t in said.pending <==> Begun(cs, t))
      && (t in said.pending && said.pending[t].before.Some? <==> Intended(cs, t))
    decreases |cs|
  {
    hide Begun, Intended;
    if |cs| > 1 {
      var rest, c := cs[..|cs| - 1], cs[|cs| - 1];
      assert cs == rest + [c];
      SaidMatchesControls(b, rest, t);
      BegunAppend(rest, c, t);
      IntendedAppend(rest, c, t);
    } else {
      OwnerMentionsNothing(cs, t);
    }
  }

  lemma OwnerMentionsNothing(cs: seq<Control>, t: Token)
    requires |cs| == 1 && cs[0].OwnerStart?
    ensures !Begun(cs, t) && !Intended(cs, t)
  {
  }

  // ---------- later controls do not disturb earlier frames ----------

  /** What the frames read of the controls is the same in both. */
  ghost predicate Agree(said: Said, said': Said, commits: map<Token, Frame>) {
    forall t :: t in commits ==>
      && t in said.pending && t in said'.pending && said'.pending[t].before == said.pending[t].before
      && t !in said'.rolled && (t in said'.acks ==> said'.acks[t] == commits[t].cursor)
  }

  lemma {:induction false} FramesUnmoved(b: Binding, said: Said, said': Said, fs: seq<Frame>)
    requires FoldFrames(b, said, fs).Ok? && (said'.writers == said.writers || fs == [])
    requires Agree(said, said', FoldFrames(b, said, fs).value.commits)
    ensures FoldFrames(b, said', fs) == FoldFrames(b, said, fs)
    decreases |fs|
  {
    if fs != [] {
      var rest, f := fs[..|fs| - 1], fs[|fs| - 1];
      var shown, before := FoldFrames(b, said, fs).value, FoldFrames(b, said, rest).value;
      OneFrame(b, said, before, f);
      assert Agree(said, said', before.commits) by {
        forall t | t in before.commits
          ensures t in shown.commits && shown.commits[t] == before.commits[t]
        {
        }
      }
      FramesUnmoved(b, said, said', rest);
    }
  }

  lemma OneFrame(b: Binding, said: Said, r: Shown, f: Frame)
    requires OnFrame(b, said, r, f).Ok?
    ensures var r' := OnFrame(b, said, r, f).value;
      forall t :: t in r.commits ==> t in r'.commits && r'.commits[t] == r.commits[t]
  {
  }

  lemma FoldFramesAppend(b: Binding, said: Said, fs: seq<Frame>, f: Frame)
    ensures FoldFrames(b, said, fs + [f])
         == if FoldFrames(b, said, fs).Err? then FoldFrames(b, said, fs) else OnFrame(b, said, FoldFrames(b, said, fs).value, f)
  {
    hide OnFrame;
    assert (fs + [f])[..|fs|] == fs;
  }

  // ---------- the live hook and its journals ----------

  ghost predicate CommitsOk(said: Said, commits: map<Token, Frame>) {
    forall t :: t in commits ==>
      && t in said.pending && t !in said.rolled
      && commits[t].body.CommitBody? && commits[t].body.token == t
      && said.pending[t].before == Some(commits[t].body.before)
      && (t in said.acks ==> said.acks[t] == commits[t].cursor)
  }

  ghost predicate PendingOk(said: Said, h: Hook) {
    && h.pending.Keys == said.pending.Keys - said.rolled - h.commits.Keys
    && (forall t :: t in h.pending ==> t in said.pending && h.pending[t] == said.pending[t])
  }

  ghost predicate Agrees(b: Binding, said: Said, s: Store) {
    var h := s.hook;
    && FoldFrames(b, said, s.disk.frames) == Ok(Shown(h.cursor, h.commits, h.active, h.ended))
    && said.writers == h.writers && said.acks.Keys <= h.commits.Keys
    && CommitsOk(said, h.commits) && PendingOk(said, h) && said.rolled <= said.pending.Keys
    && (said.stopped.Some? ==> h.ended && said.stopped.value == h.cursor)
  }

  /** What the live fields keep on their own. */
  ghost predicate HookOk(b: Binding, s: Store, now: int) {
    var h := s.hook;
    && (h.active ==> h.writers == WRITERS && b.synthetic)
    && (!h.active ==> s.disk.frames == [] && h.commits == map[] && h.cursor == 0 && !h.ended && h.pending.Keys == {})
    && (h.ended ==> h.pending.Keys == {})
    && (forall t :: t in h.pending && h.pending[t].before.Some? ==> h.pending[t].before.value <= now)
  }

  /** The journals reproduce the live hook - or, an intent having been given twice, are refused. */
  ghost predicate Mirrors(b: Binding, s: Store, now: int) {
    && s.disk.controls != [] && HookOk(b, s, now)
    && if Twice(s.disk.controls) then FoldControls(b, s.disk.controls).Err?
       else FoldControls(b, s.disk.controls).Ok? && Agrees(b, FoldControls(b, s.disk.controls).value, s)
  }

  /** Failure is latched on disk; health means the journals mirror the hook. */
  ghost predicate Sound(b: Binding, s: Store, now: int) {
    if s.hook.healthy then !s.disk.latched && !s.disk.torn && Mirrors(b, s, now) else s.disk.latched
  }

  /** A control whose effect on both sides is known. */
  lemma LogKeeps(b: Binding, s: Store, s': Store, c: Control, now: int, now': int)
    requires Mirrors(b, s, now) && s'.disk.controls == s.disk.controls + [c] && HookOk(b, s', now')
    requires !Twice(s.disk.controls) ==>
      var said := FoldControls(b, s.disk.controls).value;
      if Twice(s'.disk.controls) then OnControl(said, c).Err?
      else OnControl(said, c).Ok? && Agrees(b, OnControl(said, c).value, s')
    ensures Mirrors(b, s', now')
  {
    hide OnControl, Agrees, Twice;
    FoldControlsAppend(b, s.disk.controls, c);
    TwiceAppend(s.disk.controls, c);
  }

  lemma RegisterKeeps(b: Binding, s: Store, w: Writer, now: int)
    requires Mirrors(b, s, now) && !s.hook.active && w in WRITERS
    ensures Mirrors(b, Log(s, Register(w)).(hook := s.hook.(writers := s.hook.writers + {w})), now)
  {
    hide Twice, FoldControls;
    var s' := Log(s, Register(w)).(hook := s.hook.(writers := s.hook.writers + {w}));
    TwiceAppend(s.disk.controls, Register(w));
    LogKeeps(b, s, s', Register(w), now, now);
  }

  lemma BeginAgrees(b: Binding, s: Store, s': Store, said: Said, w: Writer, t: Token)
    requires Agrees(b, said, s) && t !in said.pending
    requires s'.disk.frames == s.disk.frames && s'.hook == s.hook.(pending := s.hook.pending[t := Intent(w, None)])
    ensures Agrees(b, said.(pending := said.pending[t := Intent(w, None)]), s')
  {
    hide FoldFrames, CommitsOk, PendingOk, Agree;
    var said' := said.(pending := said.pending[t := Intent(w, None)]);
    BeginCommits(said, said', s.hook.commits, t);
    BeginPending(said, said', s.hook, s'.hook, w, t);
    FramesUnmoved(b, said, said', s.disk.frames);
  }

  lemma BeginCommits(said: Said, said': Said, commits: map<Token, Frame>, t: Token)
    requires CommitsOk(said, commits) && t !in said.pending && said'.acks == said.acks && said'.rolled == said.rolled
    requires forall u :: u in said.pending ==> u in said'.pending && said'.pending[u] == said.pending[u]
    ensures CommitsOk(said', commits) && Agree(said, said', commits)
  {
  }

  lemma BeginPending(said: Said, said': Said, h: Hook, h': Hook, w: Writer, t: Token)
    requires PendingOk(said, h) && t !in said.pending && said.rolled <= said.pending.Keys && CommitsOk(said, h.commits)
    requires said' == said.(pending := said.pending[t := Intent(w, None)])
    requires h' == h.(pending := h.pending[t := Intent(w, None)])
    ensures PendingOk(said', h')
  {
    assert h'.pending.Keys == h.pending.Keys + {t};
  }

  lemma BeginKeeps(b: Binding, s: Store, w: Writer, t: Token, now: int)
    requires Mirrors(b, s, now) && s.hook.active && !s.hook.ended && w in s.hook.writers && !Begun(s.disk.controls, t)
    ensures Mirrors(b, Log(s, Begin(t, w)).(hook := s.hook.(pending := s.hook.pending[t := Intent(w, None)])), now)
  {
    hide Twice, FoldControls, FoldFrames, Begun, OnFrame, CommitsOk, PendingOk;
    var s' := Log(s, Begin(t, w)).(hook := s.hook.(pending := s.hook.pending[t := Intent(w, None)]));
    TwiceAppend(s.disk.controls, Begin(t, w));
    if !Twice(s.disk.controls) {
      var said := FoldControls(b, s.disk.controls).value;
      SaidMatchesControls(b, s.disk.controls, t);
      assert t !in said.pending && OnControl(said, Begin(t, w)).Ok?;
      BeginAgrees(b, s, s', said, w, t);
    }
    assert HookOk(b, s', now);
    LogKeeps(b, s, s', Begin(t, w), now, now);
  }

  /** A second intent is written as readily as the first: the journal then refuses it. */
  lemma IntendKeeps(b: Binding, s: Store, t: Token, before: int, now: int)
    requires Mirrors(b, s, now) && t in s.hook.pending && now <= before
    ensures Mirrors(b, IntendCommit(s.(hook := s.hook.(healthy := true)), t, before, true), before)
  {
    hide Twice, FoldControls, FoldFrames, Begun, Intended;
    var h := s.hook;
    var s' := Log(s, BeforeCommit(t, before)).(
      hook := h.(healthy := true, pending := h.pending[t := h.pending[t].(before := Some(before))]));
    TwiceAppend(s.disk.controls, BeforeCommit(t, before));
    if !Twice(s.disk.controls) {
      var said := FoldControls(b, s.disk.controls).value;
      SaidMatchesControls(b, s.disk.controls, t);
      if !Twice(s'.disk.controls) {
        FramesUnmoved(b, said, OnControl(said, BeforeCommit(t, before)).value, s.disk.frames);
        assert s'.hook.pending.Keys == h.pending.Keys;
      }
    }
    LogKeeps(b, s, s', BeforeCommit(t, before), now, before);
  }

  lemma RollbackKeeps(b: Binding, s: Store, t: Token, now: int)
    requires Mirrors(b, s, now) && t in s.hook.pending
    ensures Mirrors(b, Settle(Log(s, RollbackAck(t)), t), now)
  {
    hide Twice, FoldControls, FoldFrames;
    var s' := Settle(Log(s, RollbackAck(t)), t);
    TwiceAppend(s.disk.controls, RollbackAck(t));
    if !Twice(s.disk.controls) {
      var said := FoldControls(b, s.disk.controls).value;
      FramesUnmoved(b, said, OnControl(said, RollbackAck(t)).value, s.disk.frames);
      assert s'.hook.pending.Keys == s.hook.pending.Keys - {t};
    }
    LogKeeps(b, s, s', RollbackAck(t), now, now);
  }

  lemma ActivateKeeps(b: Binding, s: Store, observed: int, now: int)
    requires Mirrors(b, s, now) && !s.hook.active && s.hook.writers == WRITERS && b.synthetic
    ensures var f := Framed(b, s, observed, Activation); Mirrors(b, f.(hook := f.hook.(active := true)), now)
  {
    hide Twice, FoldControls;
    if !Twice(s.disk.controls) {
      FoldFramesAppend(b, FoldControls(b, s.disk.controls).value, s.disk.frames, NextFrame(b, s.hook, observed, Activation));
    }
  }

  /** The COMMIT frame alone already settles the transaction. */
  lemma CommitFrameKeeps(
    b: Binding, s: Store, t: Token, trades: seq<int>, decisions: seq<int>, after: int, observed: int, now: int)
    requires Mirrors(b, s, now) && s.hook.active && !s.hook.ended
    requires t in s.hook.pending && s.hook.pending[t].before.Some? && now <= after
    ensures Mirrors(b, Settle(CommitFramed(b, s, t, trades, decisions, after, observed), t), after)
  {
    hide Twice, FoldControls, FoldFrames;
    var h := s.hook;
    var body := CommitBody(t, trades, decisions, h.pending[t].before.value, after);
    var f := NextFrame(b, h, observed, body);
    var s' := Settle(CommitFramed(b, s, t, trades, decisions, after, observed), t);
    if !Twice(s.disk.controls) {
      var said := FoldControls(b, s.disk.controls).value;
      FoldFramesAppend(b, said, s.disk.frames, f);
      assert s'.hook.pending.Keys == h.pending.Keys - {t};
      assert s'.hook.commits.Keys == h.commits.Keys + {t};
    }
  }

  /** Acknowledging a framed commit changes nothing a restart would rebuild. */
  lemma AckKeeps(b: Binding, s: Store, t: Token, now: int)
    requires Mirrors(b, s, now) && t in s.hook.commits && s.hook.commits[t].cursor == s.hook.cursor && s.hook.active && !s.hook.ended
    requires !Twice(s.disk.controls) ==> t !in FoldControls(b, s.disk.controls).value.acks
    ensures Mirrors(b, Log(s, CommitAck(t, s.hook.cursor)), now)
  {
    hide Twice, FoldControls, FoldFrames;
    var s' := Log(s, CommitAck(t, s.hook.cursor));
    TwiceAppend(s.disk.controls, CommitAck(t, s.hook.cursor));
    if !Twice(s.disk.controls) {
      var said := FoldControls(b, s.disk.controls).value;
      FramesUnmoved(b, said, OnControl(said, CommitAck(t, s.hook.cursor)).value, s.disk.frames);
    }
    LogKeeps(b, s, s', CommitAck(t, s.hook.cursor), now, now);
  }

  lemma EndFrameKeeps(b: Binding, s: Store, observed: int, now: int)
    requires Mirrors(b, s, now) && s.hook.active && !s.hook.ended && s.hook.pending.Keys == {} && b.end <= observed
    ensures var f := EndFramed(b, s, observed); Mirrors(b, f.(hook := f.hook.(ended := true)), now)
  {
    hide Twice, FoldControls;
    if !Twice(s.disk.controls) {
      FoldFramesAppend(b, FoldControls(b, s.disk.controls).value, s.disk.frames,
                       NextFrame(b, s.hook, observed, EndFence(EndNote(s.hook.writers, 0, s.hook.cursor))));
    }
  }

  lemma StopKeeps(b: Binding, s: Store, now: int)
    requires Mirrors(b, s, now) && s.hook.ended
    requires !Twice(s.disk.controls) ==> FoldControls(b, s.disk.controls).value.stopped.None?
    ensures Mirrors(b, Log(s, OwnerStop(s.hook.cursor)), now)
  {
    hide Twice, FoldControls, FoldFrames;
    var c := OwnerStop(s.hook.cursor);
    TwiceAppend(s.disk.controls, c);
    if !Twice(s.disk.controls) {
      var said := FoldControls(b, s.disk.controls).value;
      FramesUnmoved(b, said, OnControl(said, c).value, s.disk.frames);
    }
    LogKeeps(b, s, Log(s, c), c, now, now);
  }

  // ---------- restart ----------

  /**
   Restart, exactly: over the journals a healthy hook has left, a restart succeeds if and only if the
   stream is synthetic, no transaction is unresolved, and no token was given two intents; and then it
   rebuilds the live hook.
   */
  lemma RestartIff(b: Binding, s: Store, now: int)
    requires Sound(b, s, now) && s.hook.healthy
    ensures RestoreOf(b, s.disk).Ok? <==> b.synthetic && s.hook.pending == map[] && !Twice(s.disk.controls)
    ensures RestoreOf(b, s.disk).Ok? ==> RestoreOf(b, s.disk).value == s.hook
  {
    hide Twice, FoldControls, FoldFrames, CommitsOk;
    if !Twice(s.disk.controls) {
      var said := FoldControls(b, s.disk.controls).value;
      var shown := FoldFrames(b, said, s.disk.frames).value;
      assert Open(said, shown) == s.hook.pending.Keys;
      assert s.hook.pending.Keys == {} <==> s.hook.pending == map[];
    }
  }

  /** A failure, once latched, forbids every restart. */
  lemma LatchedRefuses(b: Binding, d: Disk)
    requires d.latched
    ensures RestoreOf(b, d).Err?
  {
  }

  /** So does a line cut short. */
  lemma TornRefuses(b: Binding, d: Disk)
    requires d.torn
    ensures RestoreOf(b, d).Err?
  {
  }

  // ---------- runs ----------

  /** Operations, each append of which may fail, and deaths between two appends or in the middle of one. */
  datatype Step =
    | Enroll(writer: Writer, sink: bool)
    | Arm(now: int, observed: int, sink: bool)
    | Start(writer: Writer, token: Token, sink: bool)
    | Intend(token: Token, now: int, sink: bool)
    | Done(token: Token, trades: seq<int>, decisions: seq<int>, after: int, observed: int, sink: bool, ackSink: bool)
    | Undo(token: Token, sink: bool)
    | Finish(now: int, observed: int, sink: bool, stopSink: bool)
    | Die
    | DieBeforeAck(token: Token, trades: seq<int>, decisions: seq<int>, after: int, observed: int)
    | DieBeforeStop(now: int, observed: int)
    | DieMidAppend

  /** Fresh tokens, a clock that never goes back, and deaths only where the operation would write. */
  ghost predicate Enabled(b: Binding, s: Store, now: int, step: Step) {
    match step
    case Start(_, t, _) => !Begun(s.disk.controls, t)
    case Intend(_, at, _) => now <= at
    case Done(_, _, _, after, _, _, _) => now <= after
    case Arm(at, _, _) => now <= at
    case Finish(at, observed, _, _) => now <= at <= observed
    case DieBeforeAck(t, _, _, after, _) =>
      && now <= after && s.hook.healthy && t !in s.hook.commits
      && t in s.hook.pending && s.hook.pending[t].before.Some?
    case DieBeforeStop(at, observed) => now <= at <= observed && MayEnd(b, s.hook, at)
    case _ => true
  }

  /** The next process: what `_restore` rebuilds, or a latched refusal. */
  function Restarted(b: Binding, d: Disk): Store {
    var r := RestoreOf(b, d);
    if r.Ok? then Store(r.value, d) else Risk(Store(COLD, d))
  }

  function Next(b: Binding, s: Store, step: Step): Store {
    match step
    case Enroll(w, sink) => RegisterWriter(s, w, sink)
    case Arm(now, observed, sink) => Activate(b, s, now, observed, sink)
    case Start(w, t, sink) => BeginTransaction(s, w, t, sink)
    case Intend(t, now, sink) => IntendCommit(s, t, now, sink)
    case Done(t, trades, decisions, after, observed, sink, ackSink) =>
      ReportCommitted(b, s, t, trades, decisions, after, observed, sink, ackSink)
    case Undo(t, sink) => ReportRolledBack(s, t, sink)
    case Finish(now, observed, sink, stopSink) => EndRun(b, s, now, observed, sink, stopSink)
    case Die => Restarted(b, s.disk)
    case DieBeforeAck(t, trades, decisions, after, observed) =>
      if t in s.hook.pending && s.hook.pending[t].before.Some?
      then Restarted(b, CommitFramed(b, s, t, trades, decisions, after, observed).disk)
      else s
    case DieBeforeStop(now, observed) => Restarted(b, EndFramed(b, s, observed).disk)
    case DieMidAppend => Restarted(b, s.disk.(torn := true))
  }

  function Clock(now: int, step: Step): int {
    match step
    case Intend(_, at, _) => at
    case Done(_, _, _, after, _, _, _) => after
    case DieBeforeAck(_, _, _, after, _) => after
    case Arm(at, _, _) => at
    case Finish(_, observed, _, _) => observed
    case DieBeforeStop(_, observed) => observed
    case _ => now
  }

  lemma LaterIsSound(b: Binding, s: Store, now: int, later: int)
    requires Sound(b, s, now) && now <= later
    ensures Sound(b, s, later)
  {
    hide Twice, FoldControls, FoldFrames, CommitsOk;
  }

  /** A token still pending was never acknowledged, and a running stream was never stopped. */
  lemma NotYetSaid(b: Binding, s: Store, now: int)
    requires Mirrors(b, s, now) && !Twice(s.disk.controls)
    ensures forall t :: t in s.hook.pending ==> t !in FoldControls(b, s.disk.controls).value.acks
    ensures !s.hook.ended ==> FoldControls(b, s.disk.controls).value.stopped.None?
  {
    hide Twice, FoldControls, FoldFrames;
  }

  lemma TornIsSound(b: Binding, d: Disk, now: int)
    requires d.torn
    ensures Sound(b, Restarted(b, d), now)
  {
    TornRefuses(b, d);
  }

  lemma DoneIsSound(
    b: Binding, s: Store, now: int, t: Token, trades: seq<int>, decisions: seq<int>, after: int, observed: int, sink: bool, ackSink: bool)
    requires Sound(b, s, now) && now <= after
    ensures Sound(b, ReportCommitted(b, s, t, trades, decisions, after, observed, sink, ackSink), after)
  {
    hide Twice, FoldControls, Mirrors;
    LaterIsSound(b, s, now, after);
    if s.hook.healthy && t !in s.hook.commits && t in s.hook.pending && s.hook.pending[t].before.Some? && sink && ackSink {
      assert s.hook.active && !s.hook.ended by { PendingMeansActive(b, s, now); }
      var f := CommitFramed(b, s, t, trades, decisions, after, observed);
      CommitFrameKeeps(b, s, t, trades, decisions, after, observed, now);
      if !Twice(s.disk.controls) {
        NotYetSaid(b, s, now);
      }
      AckKeeps(b, Settle(f, t), t, after);
      assert Settle(Log(f, CommitAck(t, f.hook.cursor)), t) == Log(Settle(f, t), CommitAck(t, f.hook.cursor));
    }
  }

  lemma PendingMeansActive(b: Binding, s: Store, now: int)
    requires Mirrors(b, s, now)
    ensures s.hook.pending.Keys != {} ==> s.hook.active && !s.hook.ended
  {
    hide Twice, FoldControls, FoldFrames;
  }

  lemma NothingPending(b: Binding, s: Store, now: int)
    requires |s.hook.pending| == 0
    ensures s.hook.pending.Keys == {}
  {
    assert |s.hook.pending.Keys| == 0;
  }

  lemma FinishIsSound(b: Binding, s: Store, now: int, at: int, observed: int, sink: bool, stopSink: bool)
    requires Sound(b, s, now) && now <= at <= observed
    ensures Sound(b, EndRun(b, s, at, observed, sink, stopSink), observed)
  {
    hide Twice, FoldControls, Mirrors;
    LaterIsSound(b, s, now, observed);
    if MayEnd(b, s.hook, at) && sink && stopSink {
      NothingPending(b, s, now);
      EndFrameKeeps(b, s, observed, observed);
      if !Twice(s.disk.controls) {
        NotYetSaid(b, s, now);
      }
      var f := EndFramed(b, s, observed);
      var g := f.(hook := f.hook.(ended := true));
      StopKeeps(b, g, observed);
      assert Log(f, OwnerStop(f.hook.cursor)).(hook := f.hook.(ended := true)) == Log(g, OwnerStop(g.hook.cursor));
    }
  }

  /** Any process that stops leaves journals from which the next one starts soundly, or not at all. */
  lemma RestartIsSound(b: Binding, s: Store, now: int)
    requires Sound(b, s, now)
    ensures Sound(b, Restarted(b, s.disk), now)
  {
    hide Twice, FoldControls, Mirrors, RestoreOf;
    if s.hook.healthy {
      RestartIff(b, s, now);
    } else {
      LatchedRefuses(b, s.disk);
    }
  }

  lemma StepKeepsSound(b: Binding, s: Store, now: int, step: Step)
    requires Sound(b, s, now) && Enabled(b, s, now, step)
    ensures Sound(b, Next(b, s, step), Clock(now, step)) && now <= Clock(now, step)
  {
    hide Twice, FoldControls, FoldFrames, Mirrors, ReportCommitted, EndRun, RestoreOf, Restarted, Begun;
    LaterIsSound(b, s, now, Clock(now, step));
    match step
    case Enroll(w, sink) =>
      if s.hook.healthy && !s.hook.active && w in WRITERS && sink {
        RegisterKeeps(b, s, w, now);
      }
    case Arm(at, observed, sink) =>
      if s.hook.healthy && b.synthetic && !s.hook.active && s.hook.writers == WRITERS && at <= b.start && sink {
        ActivateKeeps(b, s, observed, at);
      }
    case Start(w, t, sink) =>
      if s.hook.healthy && s.hook.active && !s.hook.ended && w in s.hook.writers && sink {
        BeginKeeps(b, s, w, t, now);
      }
    case Intend(t, at, sink) =>
      if s.hook.healthy && t in s.hook.pending && sink {
        IntendKeeps(b, s, t, at, now);
        assert s.(hook := s.hook.(healthy := true)) == s;
      }
    case Done(t, trades, decisions, after, observed, sink, ackSink) =>
      DoneIsSound(b, s, now, t, trades, decisions, after, observed, sink, ackSink);
    case Undo(t, sink) =>
      if s.hook.healthy && t in s.hook.pending && sink {
        RollbackKeeps(b, s, t, now);
      }
    case Finish(at, observed, sink, stopSink) => FinishIsSound(b, s, now, at, observed, sink, stopSink);
    case Die => RestartIsSound(b, s, now);
    case DieBeforeAck(t, trades, decisions, after, observed) =>
      PendingMeansActive(b, s, now);
      CommitFrameKeeps(b, s, t, trades, decisions, after, observed, now);
      RestartIsSound(b, Settle(CommitFramed(b, s, t, trades, decisions, after, observed), t), after);
    case DieBeforeStop(at, observed) =>
      NothingPending(b, s, now);
      EndFrameKeeps(b, s, observed, observed);
      var f := EndFramed(b, s, observed);
      RestartIsSound(b, f.(hook := f.hook.(ended := true)), observed);
    case DieMidAppend => TornIsSound(b, s.disk.(torn := true), now);
  }

  ghost predicate Possible(b: Binding, s: Store, now: int, steps: seq<Step>)
    decreases |steps|
  {
    steps == [] || (Enabled(b, s, now, steps[0]) && Possible(b, Next(b, s, steps[0]), Clock(now, steps[0]), steps[1..]))
  }

  function Run(b: Binding, s: Store, steps: seq<Step>): Store
    decreases |steps|
  {
    if steps == [] then s else Run(b, Next(b, s, steps[0]), steps[1..])
  }

  function ClockAfter(now: int, steps: seq<Step>): int
    decreases |steps|
  {
    if steps == [] then now else ClockAfter(Clock(now, steps[0]), steps[1..])
  }

  lemma {:induction false} RunKeepsSound(b: Binding, s: Store, now: int, steps: seq<Step>)
    requires Sound(b, s, now) && Possible(b, s, now, steps)
    ensures Sound(b, Run(b, s, steps), ClockAfter(now, steps))
    decreases |steps|
  {
    hide Sound, Enabled, Next, Clock;
    if steps != [] {
      StepKeepsSound(b, s, now, steps[0]);
      RunKeepsSound(b, Next(b, s, steps[0]), Clock(now, steps[0]), steps[1..]);
    }
  }

  /**
   Restart equals live, over every run of operations, failed appends and crashes.  As long as nothing
   has failed, a restart succeeds exactly when the stream is synthetic, nothing is unresolved and no
   token was given two intents - and then cursor, commits, writers, activation and end are the live
   ones.  Once anything has failed, every restart is refused.
   */
  lemma RestartEqualsLive(b: Binding, steps: seq<Step>, now: int)
    requires Possible(b, Fresh(b), now, steps)
    ensures var s := Run(b, Fresh(b), steps);
      if s.hook.healthy then
        && (RestoreOf(b, s.disk).Ok? <==> b.synthetic && s.hook.pending == map[] && !Twice(s.disk.controls))
        && (RestoreOf(b, s.disk).Ok? ==> RestoreOf(b, s.disk).value == s.hook)
      else RestoreOf(b, s.disk).Err?
  {
    var s := Run(b, Fresh(b), steps);
    FreshIsSound(b, now);
    RunKeepsSound(b, Fresh(b), now, steps);
    if s.hook.healthy {
      RestartIff(b, s, ClockAfter(now, steps));
    } else {
      LatchedRefuses(b, s.disk);
    }
  }

  lemma FreshIsSound(b: Binding, now: int)
    ensures Sound(b, Fresh(b), now)
  {
    assert !Twice([OwnerStart(b)]);
  }

  /**
   The crash between a COMMIT frame and its acknowledgement: a restart holds the transaction as
   committed, at the next cursor - exactly when every other transaction is resolved.
   */
  lemma UnacknowledgedCommitRestores(
    b: Binding, s: Store, now: int, t: Token, trades: seq<int>, decisions: seq<int>, after: int, observed: int)
    requires Sound(b, s, now) && Enabled(b, s, now, DieBeforeAck(t, trades, decisions, after, observed))
    requires !Twice(s.disk.controls)
    ensures var r := RestoreOf(b, CommitFramed(b, s, t, trades, decisions, after, observed).disk);
      && (r.Ok? <==> s.hook.pending.Keys == {t})
      && (r.Ok? ==> t in r.value.commits && r.value.cursor == s.hook.cursor + 1
                    && r.value.commits[t].body == CommitBody(t, trades, decisions, s.hook.pending[t].before.value, after)
                    && r.value.commits == s.hook.commits[t := r.value.commits[t]])
  {
    hide Twice, FoldControls, FoldFrames, RestoreOf, Mirrors;
    PendingMeansActive(b, s, now);
    CommitFrameKeeps(b, s, t, trades, decisions, after, observed, now);
    var f := Settle(CommitFramed(b, s, t, trades, decisions, after, observed), t);
    RestartIff(b, f, after);
    assert f.hook.pending == map[] <==> f.hook.pending.Keys == {};
    assert f.hook.pending.Keys == s.hook.pending.Keys - {t};
    ActiveIsSynthetic(b, s, now);
  }

  lemma ActiveIsSynthetic(b: Binding, s: Store, now: int)
    requires Mirrors(b, s, now) && s.hook.active
    ensures b.synthetic
  {
  }

  /**
   `before_commit` does not look for an earlier intent.  It leaves the hook healthy either way, and
   spoils the journal for every restart exactly when the token had one already.
   */
  lemma SecondIntentSpoilsRestart(b: Binding, s: Store, now: int, t: Token, before: int)
    requires Sound(b, s, now) && s.hook.healthy && !Twice(s.disk.controls) && t in s.hook.pending
    ensures IntendCommit(s, t, before, true).hook.healthy
    ensures FoldControls(b, IntendCommit(s, t, before, true).disk.controls).Err? <==> s.hook.pending[t].before.Some?
    ensures Twice(IntendCommit(s, t, before, true).disk.controls) <==> s.hook.pending[t].before.Some?
  {
    hide Twice, FoldFrames, CommitsOk;
    SaidMatchesControls(b, s.disk.controls, t);
    TwiceAppend(s.disk.controls, BeforeCommit(t, before));
    FoldControlsAppend(b, s.disk.controls, BeforeCommit(t, before));
    if !s.hook.ended {
      NotYetSaid(b, s, now);
    }
  }
}
