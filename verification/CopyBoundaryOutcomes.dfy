/**
 Which way each decision at the copy boundary goes: operator transitions, detection, the gates, and what
 a recorded order does to its signal.
 */
module CopyBoundaryOutcomes {
  import opened Wrappers
  import opened CopyBoundary
  import opened CopyBoundaryRuns

  // ---------- the operator ----------

  /** The transitions there are. */
  predicate Moves(a: Action, was: Approval, next: Approval) {
    || (a == Approve && was == PendingReview && next == Approved)
    || (a == Reject && was == PendingReview && next == Rejected)
    || (a == Disable && was == Approved && next == Disabled)
    || (a == Reenable && was == Disabled && next == Approved)
  }

  /**
   A decision goes through exactly where its transition exists; the wallet is then in the new state, with a
   new copy boundary exactly where it became approved, and no other wallet moves.
   */
  lemma TransitionIff(d: Desk, wallet: int, a: Action, now: int)
    ensures var d' := Transitioned(d, wallet, a, now);
      if wallet in d.wallets && (exists next :: Moves(a, d.wallets[wallet].state, next)) then
        && d'.wallets.Keys == d.wallets.Keys && Moves(a, d.wallets[wallet].state, d'.wallets[wallet].state)
        && d'.wallets[wallet].approvedAt == (if a == Approve || a == Reenable then Some(now) else d.wallets[wallet].approvedAt)
        && (forall w :: w in d.wallets && w != wallet ==> d'.wallets[w] == d.wallets[w])
        && d'.log == d.log + [Change(wallet, d'.wallets[wallet].state, now)]
        && d'.signals == d.signals && d'.orders == d.orders && d'.trades == d.trades
      else d' == d
  {
    if wallet in d.wallets {
      var was := d.wallets[wallet].state;
      assert was == RequiredFrom(a) ==> Moves(a, was, Target(a));
    }
  }

  // ---------- detection ----------

  /** A trade may become a signal exactly while its wallet is approved, from the boundary on by both clocks, and has none yet. */
  lemma CopyableIff(d: Desk, id: TradeId)
    ensures Copyable(d, id) <==>
      && id in d.trades && d.trades[id].wallet in d.wallets
      && var w, t := d.wallets[d.trades[id].wallet], d.trades[id];
         && w.state == Approved && w.approvedAt.Some?
         && t.traded >= w.approvedAt.value && t.ingested >= w.approvedAt.value
         && forall i :: 0 <= i < |d.signals| ==> d.signals[i].source != id
  {
  }

  /** A detected batch is inserted whole, in order - unless one of its trades has a signal by then, and then not at all. */
  lemma BatchAllOrNothing(d: Desk, batch: seq<Signal>)
    ensures var d' := Detected(d, batch);
      && d' == d.(signals := d'.signals)
      && (d'.signals == d.signals + batch || d'.signals == d.signals)
      && ((forall i, j :: 0 <= i < |batch| && 0 <= j < |d.signals| ==> d.signals[j].source != batch[i].source) ==> d'.signals == d.signals + batch)
      && ((exists i, j :: 0 <= i < |batch| && 0 <= j < |d.signals| && d.signals[j].source == batch[i].source) ==> d'.signals == d.signals)
  {
    if exists i, j :: 0 <= i < |batch| && 0 <= j < |d.signals| && d.signals[j].source == batch[i].source {
      var i, j :| 0 <= i < |batch| && 0 <= j < |d.signals| && d.signals[j].source == batch[i].source;
      assert Signaled(d.signals, batch[i].source);
    }
  }

  /** Some approval of the wallet came before both clocks. */
  ghost predicate AfterApproval(log: seq<Change>, s: Signal) {
    exists i :: 0 <= i < |log| && log[i].wallet == s.wallet && log[i].target == Approved && log[i].at <= s.t0 && log[i].at <= s.t1
  }

  ghost predicate AllAfterApproval(log: seq<Change>, signals: seq<Signal>) {
    forall i :: 0 <= i < |signals| ==> AfterApproval(log, signals[i])
  }

  // ---------- the gates ----------

  /** The wallet is approved now and was from before both clocks of the signal on. */
  predicate OpenTo(d: Desk, s: Signal) {
    && s.wallet in d.wallets && d.wallets[s.wallet].state == Approved
    && d.wallets[s.wallet].approvedAt.Some?
    && d.wallets[s.wallet].approvedAt.value <= s.t0 && d.wallets[s.wallet].approvedAt.value <= s.t1
  }

  /**
   What becomes of a signal: too old, and it is a recorded miss, kill switch or not; else deferred exactly
   while the kill switch is on or its review delay runs; else missed for want of approval, or for the first
   later gate that closes; and filled exactly where none of this holds.
   */
  lemma VerdictIff(c: Settings, d: Desk, s: Signal, now: int, later: Option<string>)
    ensures var v := Gates(c, d, s, now, later); var stale := now > s.t0 + c.maxAge;
      && (v.Deferred? <==> !stale && (c.killSwitch || now < s.t1 + c.reviewDelay))
      && (v.Decided? ==>
            && v.order.source == s.source && v.order.wallet == s.wallet && v.order.t0 == s.t0 && v.order.t1 == s.t1 && v.order.decided == now
            && (v.order.miss == Some(StaleSignal) <==> stale)
            && (v.order.miss == Some(WalletNotApproved) <==> !stale && !OpenTo(d, s))
            && (v.order.miss.None? <==> !stale && OpenTo(d, s) && later.None?)
            && (v.order.miss.Some? && v.order.miss.value.OtherMiss? <==> !stale && OpenTo(d, s) && later.Some?)
            && (v.order.miss.Some? && v.order.miss.value.OtherMiss? ==> v.order.miss.value.reason == later.value))
  {
  }

  /** The kill-switch counter: one more on the deferred signal, nothing else. */
  lemma DeferralCounts(signals: seq<Signal>, id: TradeId)
    ensures var after := Deferring(signals, id);
      && |after| == |signals|
      && forall i :: 0 <= i < |signals| ==>
           after[i] == if signals[i].source == id then signals[i].(deferrals := signals[i].deferrals + 1) else signals[i]
  {
  }

  // ---------- orders and their signals ----------

  /** A new signal repeats its trade's wallet and clocks, is pending, and was never deferred. */
  lemma BatchFields(d: Desk, picked: seq<TradeId>)
    requires forall i :: 0 <= i < |picked| ==> picked[i] in d.trades
    ensures |BatchOf(d, picked)| == |picked|
    ensures forall i :: 0 <= i < |picked| ==>
      var t := d.trades[picked[i]];
      BatchOf(d, picked)[i] == Signal(t.id, t.wallet, t.traded, t.ingested, Pending, 0)
  {
  }

  /** An order is booked exactly where its trade has none; its signal then says what became of it, and no other changes. */
  lemma BookedIff(d: Desk, o: Order)
    ensures var d' := Booked(d, o);
      if exists i :: 0 <= i < |d.orders| && d.orders[i].source == o.source then d' == d
      else
        && d'.orders == d.orders + [o] && d' == d.(orders := d'.orders, signals := d'.signals)
        && |d'.signals| == |d.signals|
        && forall i :: 0 <= i < |d.signals| ==>
             d'.signals[i] == if d.signals[i].source == o.source
                              then d.signals[i].(status := if o.miss.None? then Executed else Skipped) else d.signals[i]
  {
  }

  ghost predicate FilledIn(orders: seq<Order>, id: TradeId) {
    exists i :: 0 <= i < |orders| && orders[i].source == id && orders[i].miss.None?
  }

  ghost predicate MissedIn(orders: seq<Order>, id: TradeId) {
    exists i :: 0 <= i < |orders| && orders[i].source == id && orders[i].miss.Some?
  }

  ghost predicate StatusOk(d: Desk) {
    forall i :: 0 <= i < |d.signals| ==>
      && (d.signals[i].status == Executed ==> FilledIn(d.orders, d.signals[i].source))
      && (d.signals[i].status == Skipped ==> MissedIn(d.orders, d.signals[i].source))
  }

  /** Under the kill switch nothing but staleness was ever decided. */
  ghost predicate KillOk(c: Settings, w: World) {
    c.killSwitch ==>
      && (forall i :: 0 <= i < |w.desk.orders| ==> w.desk.orders[i].miss == Some(StaleSignal))
      && (forall o :: o in w.deciding ==> o.miss == Some(StaleSignal))
  }

  ghost predicate PeriodsOk(w: World) {
    && AllAfterApproval(w.desk.log, w.desk.signals)
    && (forall batch :: batch in w.detecting ==> AllAfterApproval(w.desk.log, batch))
  }

  ghost predicate OutcomesOk(c: Settings, w: World) {
    StatusOk(w.desk) && KillOk(c, w) && PeriodsOk(w)
  }

  lemma LogGrows(log: seq<Change>, ch: Change, signals: seq<Signal>)
    requires AllAfterApproval(log, signals)
    ensures AllAfterApproval(log + [ch], signals)
  {
    forall i | 0 <= i < |signals|
      ensures AfterApproval(log + [ch], signals[i])
    {
      assert AfterApproval(log, signals[i]);
      var j :| 0 <= j < |log| && log[j].wallet == signals[i].wallet && log[j].target == Approved
            && log[j].at <= signals[i].t0 && log[j].at <= signals[i].t1;
      assert (log + [ch])[j] == log[j];
    }
  }

  lemma OperateOutcomes(c: Settings, w: World, wallet: int, a: Action)
    requires OutcomesOk(c, w)
    ensures OutcomesOk(c, w.(desk := Transitioned(w.desk, wallet, a, w.now)))
  {
    hide AllAfterApproval, FilledIn, MissedIn;
    if Transitioned(w.desk, wallet, a, w.now).log != w.desk.log {
      var ch := Change(wallet, Target(a), w.now);
      LogGrows(w.desk.log, ch, w.desk.signals);
      forall batch | batch in w.detecting
        ensures AllAfterApproval(w.desk.log + [ch], batch)
      {
        LogGrows(w.desk.log, ch, batch);
      }
    }
  }

  /** The last approval of an approved wallet is in the log. */
  lemma ApprovalLogged(d: Desk, now: int, wallet: int) returns (i: nat)
    requires WalletsOk(d, now) && wallet in d.wallets && d.wallets[wallet].state == Approved
    ensures i < |d.log| && d.wallets[wallet].approvedAt.Some? && d.log[i] == Change(wallet, Approved, d.wallets[wallet].approvedAt.value)
  {
    i := LastChangePlace(d.log, wallet);
  }

  lemma DetectOutcomes(c: Settings, w: World, picked: seq<TradeId>)
    requires OutcomesOk(c, w) && Sound(c, w) && Enabled(c, w, Detect(picked))
    ensures OutcomesOk(c, Next(c, w, Detect(picked)))
  {
    hide FilledIn, MissedIn, SignalsOk, OrdersOk, PendingOk, BatchOk, AfterApproval;
    var batch := BatchOf(w.desk, picked);
    forall i | 0 <= i < |batch|
      ensures AfterApproval(w.desk.log, batch[i])
    {
      PickedAfterApproval(w.desk, w.now, picked[i]);
    }
    assert AllAfterApproval(w.desk.log, batch);
  }

  lemma PickedAfterApproval(d: Desk, now: int, id: TradeId)
    requires WalletsOk(d, now) && Copyable(d, id)
    ensures AfterApproval(d.log, SignalFor(d.trades[id]))
  {
    var i := ApprovalLogged(d, now, d.trades[id].wallet);
  }

  lemma BatchOutcomes(c: Settings, w: World, batch: seq<Signal>)
    requires OutcomesOk(c, w) && Sound(c, w) && batch in w.detecting
    ensures OutcomesOk(c, Next(c, w, CommitBatch(batch)))
  {
    hide FilledIn, MissedIn, AfterApproval, WalletsOk, SignalsOk, OrdersOk, PendingOk;
    assert BatchOk(w.desk.trades, batch);
  }

  lemma BookOutcomes(c: Settings, w: World, o: Order)
    requires OutcomesOk(c, w) && o in w.deciding
    ensures OutcomesOk(c, Next(c, w, CommitOrder(o)))
  {
    hide AfterApproval;
    var d := Booked(w.desk, o);
    if !Ordered(w.desk.orders, o.source) {
      BookedStatus(w.desk, o);
      assert AllAfterApproval(w.desk.log, d.signals) by {
        forall i | 0 <= i < |d.signals|
          ensures AfterApproval(w.desk.log, d.signals[i])
        {
          SameClocks(w.desk.log, w.desk.signals[i], d.signals[i]);
        }
      }
    }
  }

  lemma SameClocks(log: seq<Change>, s: Signal, s': Signal)
    requires AfterApproval(log, s) && s'.wallet == s.wallet && s'.t0 == s.t0 && s'.t1 == s.t1
    ensures AfterApproval(log, s')
  {
  }

  lemma BookedStatus(d: Desk, o: Order)
    requires StatusOk(d) && !Ordered(d.orders, o.source)
    ensures StatusOk(Booked(d, o))
  {
    hide FilledIn, MissedIn;
    var d' := Booked(d, o);
    forall i | 0 <= i < |d'.signals|
      ensures d'.signals[i].status == Executed ==> FilledIn(d'.orders, d'.signals[i].source)
      ensures d'.signals[i].status == Skipped ==> MissedIn(d'.orders, d'.signals[i].source)
    {
      OrdersGrow(d.orders, o, d.signals[i].source);
    }
  }

  lemma OrdersGrow(orders: seq<Order>, o: Order, id: TradeId)
    ensures FilledIn(orders + [o], id) <==> FilledIn(orders, id) || (o.source == id && o.miss.None?)
    ensures MissedIn(orders + [o], id) <==> MissedIn(orders, id) || (o.source == id && o.miss.Some?)
  {
    var more := orders + [o];
    assert more[|orders|] == o;
    if FilledIn(orders, id) {
      var i :| 0 <= i < |orders| && orders[i].source == id && orders[i].miss.None?;
      assert more[i] == orders[i];
    }
    if MissedIn(orders, id) {
      var i :| 0 <= i < |orders| && orders[i].source == id && orders[i].miss.Some?;
      assert more[i] == orders[i];
    }
  }

  lemma DeferOutcomes(c: Settings, w: World, id: TradeId)
    requires OutcomesOk(c, w)
    ensures OutcomesOk(c, Next(c, w, Defer(id)))
  {
    hide FilledIn, MissedIn, AfterApproval;
    var d := w.desk;
    var signals := Deferring(d.signals, id);
    forall i | 0 <= i < |signals|
      ensures AfterApproval(d.log, signals[i])
      ensures signals[i].status == d.signals[i].status && signals[i].source == d.signals[i].source
    {
      SameClocks(d.log, d.signals[i], signals[i]);
    }
    var d' := d.(signals := signals);
    assert StatusOk(d') by {
      assert d'.orders == d.orders;
      forall i | 0 <= i < |d'.signals|
        ensures d'.signals[i].status == Executed ==> FilledIn(d'.orders, d'.signals[i].source)
        ensures d'.signals[i].status == Skipped ==> MissedIn(d'.orders, d'.signals[i].source)
      {
        assert d'.signals[i].status == d.signals[i].status;
      }
    }
    assert AllAfterApproval(d'.log, d'.signals);
  }

  lemma DecideOutcomes(c: Settings, w: World, k: nat, at: int, later: Option<string>)
    requires OutcomesOk(c, w) && Enabled(c, w, Decide(k, at, later))
    ensures OutcomesOk(c, Next(c, w, Decide(k, at, later)))
  {
    hide StatusOk, AllAfterApproval, Gates;
    VerdictIff(c, w.desk, w.desk.signals[k], at, later);
  }

  lemma StepOutcomes(c: Settings, w: World, s: Step)
    requires OutcomesOk(c, w) && Sound(c, w) && Enabled(c, w, s)
    ensures OutcomesOk(c, Next(c, w, s))
  {
    hide Sound, StatusOk, AllAfterApproval, Transitioned, Detected, Booked, Gates;
    match s
    case Operate(id, a) => OperateOutcomes(c, w, id, a);
    case Detect(picked) => DetectOutcomes(c, w, picked);
    case CommitBatch(batch) => BatchOutcomes(c, w, batch);
    case Decide(k, at, later) => DecideOutcomes(c, w, k, at, later);
    case Defer(id) => DeferOutcomes(c, w, id);
    case CommitOrder(o) => BookOutcomes(c, w, o);
    case AddWallet(id) => WalletsAside(c, w, Next(c, w, s));
    case Score(id, review) => WalletsAside(c, w, Next(c, w, s));
    case Ingest(t) => WalletsAside(c, w, Next(c, w, s));
    case _ =>
  }

  lemma WalletsAside(c: Settings, w: World, w': World)
    requires OutcomesOk(c, w) && w' == w.(desk := w'.desk) && w'.desk == w.desk.(wallets := w'.desk.wallets, trades := w'.desk.trades)
    ensures OutcomesOk(c, w')
  {
    hide FilledIn, MissedIn, AllAfterApproval;
  }

  lemma {:induction false} RunOutcomes(c: Settings, w: World, steps: seq<Step>)
    requires OutcomesOk(c, w) && Sound(c, w) && TradesKeyed(w.desk) && Possible(c, w, steps)
    ensures OutcomesOk(c, Run(c, w, steps))
    decreases |steps|
  {
    hide OutcomesOk, Sound, Enabled, Next, TradesKeyed;
    if steps != [] {
      StepOutcomes(c, w, steps[0]);
      StepKeepsSound(c, w, steps[0]);
      RunOutcomes(c, Next(c, w, steps[0]), steps[1..]);
    }
  }

  /**
   Over every run: a signal is executed exactly where its trade was filled and skipped exactly where it was
   missed; with the kill switch on nothing is ever filled, and the only misses are stale signals; and no
   trade made or ingested before an approval of its wallet ever became a signal.
   */
  lemma OutcomesHold(c: Settings, steps: seq<Step>)
    requires Possible(c, EMPTY, steps)
    ensures var d := Run(c, EMPTY, steps).desk;
      && (forall i :: 0 <= i < |d.signals| ==>
            && (d.signals[i].status == Executed <==> FilledIn(d.orders, d.signals[i].source))
            && (d.signals[i].status == Skipped <==> MissedIn(d.orders, d.signals[i].source)))
      && (c.killSwitch ==> forall i :: 0 <= i < |d.orders| ==> d.orders[i].miss == Some(StaleSignal))
      && AllAfterApproval(d.log, d.signals)
  {
    hide Run, Possible, FillOk;
    assert OutcomesOk(c, EMPTY);
    EmptyIsSound(c);
    RunOutcomes(c, EMPTY, steps);
    CopyBoundaryHolds(c, steps);
    ExactStatus(Run(c, EMPTY, steps).desk);
  }

  // ---------- the way through ----------

  lemma OneStep(c: Settings, w: World, s: Step, rest: seq<Step>)
    requires Enabled(c, w, s) && Possible(c, Next(c, w, s), rest)
    ensures Possible(c, w, [s] + rest) && Run(c, w, [s] + rest) == Run(c, Next(c, w, s), rest)
  {
    hide Enabled, Next;
    assert ([s] + rest)[1..] == rest;
  }

  /** The order the gates decide for a trade they find open. */
  function OpenOrder(t: Trade, at: int, later: Option<string>): Order {
    Order(t.id, t.wallet, t.traded, t.ingested, at, if later.Some? then Some(OtherMiss(later.value)) else None)
  }

  function Picking(t: Trade): Step { Detect([t.id]) }
  function Inserting(t: Trade): Step { CommitBatch([SignalFor(t)]) }

  function Handling(w: World, t: Trade, at: int, later: Option<string>): seq<Step> {
    [Picking(t)] + ([Inserting(t)] + ([Decide(|w.desk.signals|, at, later)] + ([CommitOrder(OpenOrder(t, at, later))] + [])))
  }

  /**
   A trade that may be copied, young enough and past its review delay, with the kill switch off, gets through:
   detected, inserted, decided and booked, it is filled - or missed for the later gate that closed.
   */
  lemma CopyGoesThrough(c: Settings, w: World, t: Trade, at: int, later: Option<string>)
    requires t.id in w.desk.trades && w.desk.trades[t.id] == t && Copyable(w.desk, t.id) && !Ordered(w.desk.orders, t.id)
    requires !c.killSwitch && t.traded + c.maxAge >= at >= t.ingested + c.reviewDelay && at <= w.now
    ensures Possible(c, w, Handling(w, t, at, later))
    ensures var d := Run(c, w, Handling(w, t, at, later)).desk;
      && d.orders == w.desk.orders + [OpenOrder(t, at, later)]
      && d.signals == w.desk.signals
         + [Signal(t.id, t.wallet, t.traded, t.ingested, if later.None? then Executed else Skipped, 0)]
      && d.wallets == w.desk.wallets
  {
    hide Possible, Run;
    var order := OpenOrder(t, at, later);
    var n := |w.desk.signals|;
    assert BatchOf(w.desk, [t.id]) == [SignalFor(t)];
    var w1 := Next(c, w, Picking(t));
    assert w1 == w.(detecting := w.detecting + {[SignalFor(t)]});
    var w2 := Next(c, w1, Inserting(t));
    assert w2.desk == w.desk.(signals := w.desk.signals + [SignalFor(t)]);
    assert w2.desk.signals[n] == SignalFor(t);
    var w3 := Next(c, w2, Decide(n, at, later));
    assert order in w3.deciding && w3.desk == w2.desk;
    var w4 := Next(c, w3, CommitOrder(order));
    Unsignaled(w.desk.signals, t, order);
    NoSteps(c, w4);
    OneStep(c, w3, CommitOrder(order), []);
    OneStep(c, w2, Decide(n, at, later), [CommitOrder(order)] + []);
    OneStep(c, w1, Inserting(t), [Decide(n, at, later)] + ([CommitOrder(order)] + []));
    OneStep(c, w, Picking(t), [Inserting(t)] + ([Decide(n, at, later)] + ([CommitOrder(order)] + [])));
  }

  lemma NoSteps(c: Settings, w: World)
    ensures Possible(c, w, []) && Run(c, w, []) == w
  {
  }

  lemma Unsignaled(signals: seq<Signal>, t: Trade, o: Order)
    requires !Signaled(signals, t.id) && o.source == t.id
    ensures var status := if o.miss.None? then Executed else Skipped;
      Marked(signals + [SignalFor(t)], o.source, status) == signals + [SignalFor(t).(status := status)]
  {
  }

  function Onboarding(t: Trade): seq<Step> {
    [AddWallet(t.wallet)] + ([Score(t.wallet, true)] + ([Operate(t.wallet, Approve)] + ([Tick(t.ingested)] + ([Ingest(t)] + []))))
  }

  /** A new wallet, scored, sent to review and approved: the trades it makes from then on may be copied. */
  lemma OnboardedIsCopyable(c: Settings, w: World, t: Trade)
    requires t.wallet !in w.desk.wallets && t.id !in w.desk.trades && !Signaled(w.desk.signals, t.id)
    requires w.now <= t.traded && w.now <= t.ingested
    ensures Possible(c, w, Onboarding(t))
    ensures var w' := Run(c, w, Onboarding(t));
      && Copyable(w'.desk, t.id) && w'.desk.trades == w.desk.trades[t.id := t] && w'.now == t.ingested
      && w'.desk.wallets == w.desk.wallets[t.wallet := Wallet(Approved, Some(w.now))]
      && w'.desk.orders == w.desk.orders && w'.desk.signals == w.desk.signals
  {
    hide Possible, Run;
    var w1 := Next(c, w, AddWallet(t.wallet));
    var w2 := Next(c, w1, Score(t.wallet, true));
    var w3 := Next(c, w2, Operate(t.wallet, Approve));
    var w4 := Next(c, w3, Tick(t.ingested));
    var w5 := Next(c, w4, Ingest(t));
    NoSteps(c, w5);
    OneStep(c, w4, Ingest(t), []);
    OneStep(c, w3, Tick(t.ingested), [Ingest(t)] + []);
    OneStep(c, w2, Operate(t.wallet, Approve), [Tick(t.ingested)] + ([Ingest(t)] + []));
    OneStep(c, w1, Score(t.wallet, true), [Operate(t.wallet, Approve)] + ([Tick(t.ingested)] + ([Ingest(t)] + [])));
    OneStep(c, w, AddWallet(t.wallet), [Score(t.wallet, true)] + ([Operate(t.wallet, Approve)] + ([Tick(t.ingested)] + ([Ingest(t)] + []))));
  }

  lemma ExactStatus(d: Desk)
    requires StatusOk(d) && PendingOk(d)
    requires forall i, j :: 0 <= i < j < |d.orders| ==> d.orders[i].source != d.orders[j].source
    ensures forall i :: 0 <= i < |d.signals| ==>
      && (d.signals[i].status == Executed <==> FilledIn(d.orders, d.signals[i].source))
      && (d.signals[i].status == Skipped <==> MissedIn(d.orders, d.signals[i].source))
  {
    forall i | 0 <= i < |d.signals|
      ensures d.signals[i].status == Executed <==> FilledIn(d.orders, d.signals[i].source)
      ensures d.signals[i].status == Skipped <==> MissedIn(d.orders, d.signals[i].source)
    {
      var id := d.signals[i].source;
      assert FilledIn(d.orders, id) || MissedIn(d.orders, id) ==> Ordered(d.orders, id);
      assert !(FilledIn(d.orders, id) && MissedIn(d.orders, id));
    }
  }
}
