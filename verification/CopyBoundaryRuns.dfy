/**
 Over every interleaving of operator, scorer, ingestion and bots: one signal and one order per trade
 at most, a signal pending exactly while it has no order, and every fill inside the approval period
 that was open when it was decided.
 */
module CopyBoundaryRuns {
  import opened Wrappers
  import opened CopyBoundary

  // ---------- approval periods ----------

  /** The newest change of a wallet. */
  function LastChange(log: seq<Change>, wallet: int): Option<Change> {
    if log == [] then None
    else if log[|log| - 1].wallet == wallet then Some(log[|log| - 1])
    else LastChange(log[..|log| - 1], wallet)
  }

  lemma {:induction false} LastChangePlace(log: seq<Change>, wallet: int) returns (i: nat)
    requires LastChange(log, wallet).Some?
    ensures i < |log| && log[i] == LastChange(log, wallet).value && log[i].wallet == wallet
    ensures forall j :: i < j < |log| ==> log[j].wallet != wallet
  {
    if log[|log| - 1].wallet == wallet {
      i := |log| - 1;
    } else {
      i := LastChangePlace(log[..|log| - 1], wallet);
    }
  }

  lemma LastChangeAppend(log: seq<Change>, c: Change, wallet: int)
    ensures LastChange(log + [c], wallet) == if c.wallet == wallet then Some(c) else LastChange(log, wallet)
  {
    assert (log + [c])[..|log|] == log;
  }

  /**
   The copy rule: the trade was made and ingested in an approval period of its wallet that no change
   of that wallet had ended when the fill was decided, late enough after t1 and soon enough after t0.
   */
  ghost predicate FillOk(c: Settings, log: seq<Change>, o: Order) {
    && o.decided >= o.t1 + c.reviewDelay && o.decided - o.t0 <= c.maxAge
    && exists i :: 0 <= i < |log| && PeriodCovers(c, log, i, o)
  }

  ghost predicate PeriodCovers(c: Settings, log: seq<Change>, i: int, o: Order)
    requires 0 <= i < |log|
  {
    && log[i].wallet == o.wallet && log[i].target == Approved
    && log[i].at <= o.t0 && log[i].at <= o.t1 && (c.reviewDelay >= 0 ==> log[i].at <= o.decided)
    && forall j :: i < j < |log| && log[j].wallet == o.wallet ==> log[j].at >= o.decided
  }

  lemma FillStaysOk(c: Settings, log: seq<Change>, o: Order, ch: Change)
    requires FillOk(c, log, o) && ch.at >= o.decided
    ensures FillOk(c, log + [ch], o)
  {
    var i :| 0 <= i < |log| && PeriodCovers(c, log, i, o);
    assert PeriodCovers(c, log + [ch], i, o);
  }

  // ---------- the invariant ----------

  ghost predicate WalletsOk(d: Desk, now: int) {
    && (forall w :: w in d.wallets && d.wallets[w].state == Approved ==>
          d.wallets[w].approvedAt.Some? && LastChange(d.log, w) == Some(Change(w, Approved, d.wallets[w].approvedAt.value)))
    && (forall i :: 0 <= i < |d.log| ==> d.log[i].at <= now)
  }

  /** A signal carries its trade's wallet and clocks. */
  ghost predicate FromTrade(trades: map<TradeId, Trade>, s: Signal) {
    s.source in trades && s.wallet == trades[s.source].wallet && s.t0 == trades[s.source].traded && s.t1 == trades[s.source].ingested
  }

  ghost predicate SignalsOk(trades: map<TradeId, Trade>, signals: seq<Signal>) {
    && (forall i :: 0 <= i < |signals| ==> FromTrade(trades, signals[i]))
    && (forall i, j :: 0 <= i < j < |signals| ==> signals[i].source != signals[j].source)
  }

  ghost predicate BatchOk(trades: map<TradeId, Trade>, batch: seq<Signal>) {
    SignalsOk(trades, batch) && forall i :: 0 <= i < |batch| ==> batch[i].status == Pending
  }

  ghost predicate OrderOk(c: Settings, d: Desk, o: Order, now: int) {
    && o.source in d.trades && o.wallet == d.trades[o.source].wallet
    && o.t0 == d.trades[o.source].traded && o.t1 == d.trades[o.source].ingested
    && o.decided <= now && Signaled(d.signals, o.source)
    && (o.miss.None? ==> FillOk(c, d.log, o))
  }

  ghost predicate OrdersOk(c: Settings, w: World) {
    && (forall i :: 0 <= i < |w.desk.orders| ==> OrderOk(c, w.desk, w.desk.orders[i], w.now))
    && (forall i, j :: 0 <= i < j < |w.desk.orders| ==> w.desk.orders[i].source != w.desk.orders[j].source)
    && (forall o :: o in w.deciding ==> OrderOk(c, w.desk, o, w.now))
  }

  /** Pending means undecided, and the other way round. */
  ghost predicate PendingOk(d: Desk) {
    forall i :: 0 <= i < |d.signals| ==> (d.signals[i].status == Pending <==> !Ordered(d.orders, d.signals[i].source))
  }

  ghost predicate Sound(c: Settings, w: World) {
    && WalletsOk(w.desk, w.now) && SignalsOk(w.desk.trades, w.desk.signals)
    && (forall batch :: batch in w.detecting ==> BatchOk(w.desk.trades, batch))
    && OrdersOk(c, w) && PendingOk(w.desk)
  }

  // ---------- steps ----------

  /** Trades are stored under their own identity. */
  ghost predicate TradesKeyed(d: Desk) {
    forall t :: t in d.trades ==> d.trades[t].id == t
  }

  lemma TickKeeps(c: Settings, w: World, now: int)
    requires Sound(c, w) && w.now <= now
    ensures Sound(c, w.(now := now))
  {
    hide LastChange, FillOk, SignalsOk, PendingOk;
    var w' := w.(now := now);
    forall i | 0 <= i < |w'.desk.orders|
      ensures OrderOk(c, w'.desk, w'.desk.orders[i], now)
    {
      assert OrderOk(c, w.desk, w.desk.orders[i], w.now);
    }
    forall o | o in w'.deciding
      ensures OrderOk(c, w'.desk, o, now)
    {
      assert OrderOk(c, w.desk, o, w.now);
    }
  }

  /** Orders survive a desk whose trades, signals and log only grow. */
  lemma OrdersCarry(c: Settings, w: World, d: Desk)
    requires OrdersOk(c, w) && d.orders == w.desk.orders && d.log == w.desk.log
    requires forall t :: t in w.desk.trades ==> t in d.trades && d.trades[t] == w.desk.trades[t]
    requires forall id :: Signaled(w.desk.signals, id) ==> Signaled(d.signals, id)
    ensures OrdersOk(c, w.(desk := d))
  {
    hide FillOk, Signaled;
    forall i | 0 <= i < |d.orders|
      ensures OrderOk(c, d, d.orders[i], w.now)
    {
      assert OrderOk(c, w.desk, w.desk.orders[i], w.now);
    }
    forall o | o in w.deciding
      ensures OrderOk(c, d, o, w.now)
    {
      assert OrderOk(c, w.desk, o, w.now);
    }
  }

  lemma WalletsChange(c: Settings, w: World, wallets: map<int, Wallet>)
    requires Sound(c, w)
    requires forall k :: k in wallets && wallets[k].state == Approved ==> k in w.desk.wallets && wallets[k] == w.desk.wallets[k]
    ensures Sound(c, w.(desk := w.desk.(wallets := wallets)))
  {
    hide FillOk, Signaled, SignalsOk, LastChange;
    OrdersCarry(c, w, w.desk.(wallets := wallets));
  }

  lemma OperateKeeps(c: Settings, w: World, id: int, a: Action)
    requires Sound(c, w)
    ensures Sound(c, w.(desk := Transitioned(w.desk, id, a, w.now)))
  {
    hide FillOk, Signaled, SignalsOk, LastChange, PeriodCovers;
    var d' := Transitioned(w.desk, id, a, w.now);
    var w' := w.(desk := d');
    if d' != w.desk {
      var ch := Change(id, Target(a), w.now);
      forall k | k in d'.wallets && d'.wallets[k].state == Approved
        ensures d'.wallets[k].approvedAt.Some? && LastChange(d'.log, k) == Some(Change(k, Approved, d'.wallets[k].approvedAt.value))
      {
        LastChangeAppend(w.desk.log, ch, k);
      }
      forall o | OrderOk(c, w.desk, o, w.now)
        ensures OrderOk(c, d', o, w.now)
      {
        if o.miss.None? {
          FillStaysOk(c, w.desk.log, o, ch);
        }
      }
    }
  }

  lemma IngestKeeps(c: Settings, w: World, t: Trade)
    requires Sound(c, w) && t.id !in w.desk.trades
    ensures Sound(c, w.(desk := w.desk.(trades := w.desk.trades[t.id := t])))
  {
    hide FillOk, Signaled, LastChange, Ordered, SignalsOk, OrderOk;
    var trades := w.desk.trades[t.id := t];
    OrdersCarry(c, w, w.desk.(trades := trades));
    SignalsCarry(w.desk.trades, w.desk.signals, t);
    forall batch | batch in w.detecting
      ensures BatchOk(trades, batch)
    {
      assert BatchOk(w.desk.trades, batch);
      SignalsCarry(w.desk.trades, batch, t);
    }
  }

  lemma SignalsCarry(trades: map<TradeId, Trade>, signals: seq<Signal>, t: Trade)
    requires SignalsOk(trades, signals) && t.id !in trades
    ensures SignalsOk(trades[t.id := t], signals)
  {
    forall i | 0 <= i < |signals|
      ensures FromTrade(trades[t.id := t], signals[i])
    {
      assert FromTrade(trades, signals[i]);
    }
  }

  lemma DetectKeeps(c: Settings, w: World, picked: seq<TradeId>)
    requires Sound(c, w) && Enabled(c, w, Detect(picked)) && TradesKeyed(w.desk)
    ensures Sound(c, Next(c, w, Detect(picked)))
  {
    hide WalletsOk, SignalsOk, OrdersOk, PendingOk, BatchOk;
    var w' := Next(c, w, Detect(picked));
    assert forall i :: 0 <= i < |picked| ==> Copyable(w.desk, picked[i]);
    PickedIsBatch(w.desk, picked);
    assert w'.desk == w.desk && w'.detecting == w.detecting + {BatchOf(w.desk, picked)};
    SameOrders(c, w, w');
    forall batch | batch in w'.detecting
      ensures BatchOk(w'.desk.trades, batch)
    {
    }
  }

  lemma SameOrders(c: Settings, w: World, w': World)
    requires OrdersOk(c, w) && w'.desk == w.desk && w'.deciding <= w.deciding && w'.now == w.now
    ensures OrdersOk(c, w')
  {
    hide OrderOk;
  }

  lemma PickedIsBatch(d: Desk, picked: seq<TradeId>)
    requires Unique(picked) && TradesKeyed(d)
    requires forall i :: 0 <= i < |picked| ==> picked[i] in d.trades
    ensures BatchOk(d.trades, BatchOf(d, picked))
  {
  }

  lemma SignaledConcat(a: seq<Signal>, b: seq<Signal>, id: TradeId)
    ensures Signaled(a + b, id) <==> Signaled(a, id) || Signaled(b, id)
  {
    if Signaled(a, id) {
      var i :| 0 <= i < |a| && a[i].source == id;
      assert (a + b)[i].source == id;
    }
    if Signaled(b, id) {
      var i :| 0 <= i < |b| && b[i].source == id;
      assert (a + b)[|a| + i].source == id;
    }
  }

  lemma BatchKeeps(c: Settings, w: World, batch: seq<Signal>)
    requires Sound(c, w) && batch in w.detecting
    ensures Sound(c, Next(c, w, CommitBatch(batch)))
  {
    hide FillOk, LastChange;
    var d' := Detected(w.desk, batch);
    if d' != w.desk {
      forall id
        ensures Signaled(w.desk.signals, id) ==> Signaled(d'.signals, id)
      {
        SignaledConcat(w.desk.signals, batch, id);
      }
      OrdersCarry(c, w, d');
      BatchSignals(c, w, batch);
    }
  }

  lemma BatchSignals(c: Settings, w: World, batch: seq<Signal>)
    requires Sound(c, w) && batch in w.detecting
    requires !exists i :: 0 <= i < |batch| && Signaled(w.desk.signals, batch[i].source)
    ensures SignalsOk(w.desk.trades, w.desk.signals + batch)
    ensures PendingOk(w.desk.(signals := w.desk.signals + batch))
  {
    hide FillOk, LastChange;
    var signals := w.desk.signals + batch;
    assert BatchOk(w.desk.trades, batch);
    forall i | 0 <= i < |batch|
      ensures !Ordered(w.desk.orders, batch[i].source) && !Signaled(w.desk.signals, batch[i].source)
    {
      OrderedIsSignaled(c, w, batch[i].source);
    }
    forall i, j | 0 <= i < j < |signals|
      ensures signals[i].source != signals[j].source
    {
      if i < |w.desk.signals| {
        SignalIsSignaled(w.desk.signals, i);
      }
    }
  }

  lemma OrderedIsSignaled(c: Settings, w: World, id: TradeId)
    requires OrdersOk(c, w)
    ensures Ordered(w.desk.orders, id) ==> Signaled(w.desk.signals, id)
  {
    hide FillOk, Signaled;
    if Ordered(w.desk.orders, id) {
      var k :| 0 <= k < |w.desk.orders| && w.desk.orders[k].source == id;
      assert OrderOk(c, w.desk, w.desk.orders[k], w.now);
    }
  }

  lemma SignalIsSignaled(signals: seq<Signal>, i: nat)
    requires i < |signals|
    ensures Signaled(signals, signals[i].source)
  {
  }

  /** A fill is decided inside the open period. */
  lemma DecisionIsOk(c: Settings, w: World, k: nat, at: int, later: Option<string>)
    requires Sound(c, w) && Enabled(c, w, Decide(k, at, later))
    requires Gates(c, w.desk, w.desk.signals[k], at, later).Decided?
    ensures OrderOk(c, w.desk, Gates(c, w.desk, w.desk.signals[k], at, later).order, w.now)
  {
    hide LastChange, PendingOk, OrderOk;
    var s := w.desk.signals[k];
    var o := Gates(c, w.desk, s, at, later).order;
    assert FromTrade(w.desk.trades, s);
    assert Signaled(w.desk.signals, o.source);
    if o.miss.None? {
      var i := LastChangePlace(w.desk.log, s.wallet);
      assert PeriodCovers(c, w.desk.log, i, o);
    }
    OrderMadeOk(c, w.desk, o, w.now);
  }

  lemma OrderMadeOk(c: Settings, d: Desk, o: Order, now: int)
    requires o.source in d.trades && o.wallet == d.trades[o.source].wallet
    requires o.t0 == d.trades[o.source].traded && o.t1 == d.trades[o.source].ingested
    requires o.decided <= now && Signaled(d.signals, o.source) && (o.miss.None? ==> FillOk(c, d.log, o))
    ensures OrderOk(c, d, o, now)
  {
  }

  lemma MarkedSignaled(signals: seq<Signal>, id: TradeId, status: Status, any: TradeId)
    ensures Signaled(signals, any) ==> Signaled(Marked(signals, id, status), any)
  {
    if Signaled(signals, any) {
      var i :| 0 <= i < |signals| && signals[i].source == any;
      assert Marked(signals, id, status)[i].source == any;
    }
  }

  lemma BookKeeps(c: Settings, w: World, o: Order)
    requires Sound(c, w) && o in w.deciding
    ensures Sound(c, Next(c, w, CommitOrder(o)))
  {
    hide FillOk, LastChange, Signaled;
    var d' := Booked(w.desk, o);
    var w' := Next(c, w, CommitOrder(o));
    if d' != w.desk && !Ordered(w.desk.orders, o.source) {
      var status := if o.miss.None? then Executed else Skipped;
      forall any
        ensures Signaled(w.desk.signals, any) ==> Signaled(d'.signals, any)
      {
        MarkedSignaled(w.desk.signals, o.source, status, any);
      }
      OrdersCarry(c, w, w.desk.(signals := d'.signals));
      BookedOrders(c, w, w.desk.(signals := d'.signals), o);
      BookedPending(w.desk, o);
      SignalsMarked(w.desk.trades, w.desk.signals, o.source, status);
    }
  }

  lemma SignalsMarked(trades: map<TradeId, Trade>, signals: seq<Signal>, id: TradeId, status: Status)
    requires SignalsOk(trades, signals)
    ensures SignalsOk(trades, Marked(signals, id, status))
  {
    forall i | 0 <= i < |signals|
      ensures FromTrade(trades, Marked(signals, id, status)[i])
    {
      assert FromTrade(trades, signals[i]);
    }
  }

  lemma BookedOrders(c: Settings, w: World, d: Desk, o: Order)
    requires OrdersOk(c, w.(desk := d)) && o in w.deciding && !Ordered(d.orders, o.source)
    ensures OrdersOk(c, w.(desk := d.(orders := d.orders + [o]), deciding := w.deciding - {o}))
  {
    hide FillOk, Signaled;
    var d' := d.(orders := d.orders + [o]);
    assert OrderOk(c, d, o, w.now);
    forall i | 0 <= i < |d'.orders|
      ensures OrderOk(c, d', d'.orders[i], w.now)
    {
      assert i < |d.orders| ==> OrderOk(c, d, d.orders[i], w.now);
    }
    forall x | x in w.deciding - {o}
      ensures OrderOk(c, d', x, w.now)
    {
      assert OrderOk(c, d, x, w.now);
    }
  }

  lemma OrderedAppend(orders: seq<Order>, o: Order, id: TradeId)
    ensures Ordered(orders + [o], id) <==> Ordered(orders, id) || o.source == id
  {
    var more := orders + [o];
    if Ordered(orders, id) {
      var i :| 0 <= i < |orders| && orders[i].source == id;
      assert more[i].source == id;
    }
    if o.source == id {
      assert more[|orders|].source == id;
    }
  }

  lemma BookedPending(d: Desk, o: Order)
    requires PendingOk(d) && !Ordered(d.orders, o.source)
    ensures PendingOk(Booked(d, o))
  {
    hide Ordered;
    var d' := Booked(d, o);
    forall i | 0 <= i < |d'.signals|
      ensures d'.signals[i].status == Pending <==> !Ordered(d'.orders, d'.signals[i].source)
    {
      OrderedAppend(d.orders, o, d.signals[i].source);
    }
  }

  lemma DeferKeeps(c: Settings, w: World, id: TradeId)
    requires Sound(c, w)
    ensures Sound(c, Next(c, w, Defer(id)))
  {
    hide FillOk, LastChange, Ordered;
    var signals := Deferring(w.desk.signals, id);
    forall any
      ensures Signaled(w.desk.signals, any) ==> Signaled(signals, any)
    {
      if Signaled(w.desk.signals, any) {
        var i :| 0 <= i < |w.desk.signals| && w.desk.signals[i].source == any;
        assert signals[i].source == any;
      }
    }
    OrdersCarry(c, w, w.desk.(signals := signals));
    forall i | 0 <= i < |signals|
      ensures FromTrade(w.desk.trades, signals[i])
    {
      assert FromTrade(w.desk.trades, w.desk.signals[i]);
    }
  }

  lemma StepKeepsSound(c: Settings, w: World, s: Step)
    requires Sound(c, w) && TradesKeyed(w.desk) && Enabled(c, w, s)
    ensures Sound(c, Next(c, w, s)) && TradesKeyed(Next(c, w, s).desk)
  {
    hide WalletsOk, SignalsOk, BatchOk, OrdersOk, PendingOk, Gates, Sound, Detected, Booked, Transitioned;
    match s
    case Tick(now) => TickKeeps(c, w, now);
    case AddWallet(id) =>
      if id !in w.desk.wallets {
        WalletsChange(c, w, w.desk.wallets[id := Wallet(Discovered, None)]);
      }
    case Score(id, review) =>
      if id in w.desk.wallets {
        WalletsChange(c, w, w.desk.wallets[id := w.desk.wallets[id].(state := if review then PendingReview else Discovered)]);
      }
    case Operate(id, a) =>
      OperateKeeps(c, w, id, a);
      assert Transitioned(w.desk, id, a, w.now).trades == w.desk.trades by { OperateKeepsTrades(w.desk, id, a, w.now); }
    case Ingest(t) =>
      if t.id !in w.desk.trades {
        IngestKeeps(c, w, t);
      }
    case Detect(picked) => DetectKeeps(c, w, picked);
    case CommitBatch(batch) =>
      BatchKeeps(c, w, batch);
      BatchKeepsTrades(w.desk, batch);
    case Decide(k, at, later) => DecideKeeps(c, w, k, at, later);
    case Defer(id) => DeferKeeps(c, w, id);
    case CommitOrder(o) =>
      BookKeeps(c, w, o);
      BookKeepsTrades(w.desk, o);
    case DropOrder(o) => DropKeeps(c, w, w.deciding - {o}, w.detecting);
    case DropBatch(batch) => DropKeeps(c, w, w.deciding, w.detecting - {batch});
  }

  lemma OperateKeepsTrades(d: Desk, id: int, a: Action, now: int)
    ensures Transitioned(d, id, a, now).trades == d.trades
  {
  }

  lemma BatchKeepsTrades(d: Desk, batch: seq<Signal>)
    ensures Detected(d, batch).trades == d.trades
  {
  }

  lemma BookKeepsTrades(d: Desk, o: Order)
    ensures Booked(d, o).trades == d.trades
  {
  }

  lemma DecideKeeps(c: Settings, w: World, k: nat, at: int, later: Option<string>)
    requires Sound(c, w) && Enabled(c, w, Decide(k, at, later))
    ensures Sound(c, Next(c, w, Decide(k, at, later)))
  {
    hide WalletsOk, SignalsOk, BatchOk, PendingOk, OrderOk, Gates;
    if Gates(c, w.desk, w.desk.signals[k], at, later).Decided? {
      DecisionIsOk(c, w, k, at, later);
    }
  }

  lemma DropKeeps(c: Settings, w: World, deciding: set<Order>, detecting: set<seq<Signal>>)
    requires Sound(c, w) && deciding <= w.deciding && detecting <= w.detecting
    ensures Sound(c, w.(deciding := deciding, detecting := detecting))
  {
    hide WalletsOk, SignalsOk, BatchOk, PendingOk, OrderOk;
  }

  // ---------- runs ----------

  const EMPTY: World := World(Desk(map[], map[], [], [], []), {}, {}, 0)

  ghost predicate Possible(c: Settings, w: World, steps: seq<Step>)
    decreases |steps|
  {
    steps == [] || (Enabled(c, w, steps[0]) && Possible(c, Next(c, w, steps[0]), steps[1..]))
  }

  function Run(c: Settings, w: World, steps: seq<Step>): World
    requires Possible(c, w, steps)
    decreases |steps|
  {
    if steps == [] then w else Run(c, Next(c, w, steps[0]), steps[1..])
  }

  lemma {:induction false} RunKeepsSound(c: Settings, w: World, steps: seq<Step>)
    requires Sound(c, w) && TradesKeyed(w.desk) && Possible(c, w, steps)
    ensures Sound(c, Run(c, w, steps)) && TradesKeyed(Run(c, w, steps).desk)
    decreases |steps|
  {
    hide Sound, Enabled, Next, TradesKeyed;
    if steps != [] {
      StepKeepsSound(c, w, steps[0]);
      RunKeepsSound(c, Next(c, w, steps[0]), steps[1..]);
    }
  }

  /**
   The copy boundary over every run: signals and orders are one per source trade, a signal is pending
   exactly while no order exists for it, and every recorded fill obeys the copy rule for the very
   trade it names.
   */
  lemma CopyBoundaryHolds(c: Settings, steps: seq<Step>)
    requires Possible(c, EMPTY, steps)
    ensures var d := Run(c, EMPTY, steps).desk;
      && (forall i, j :: 0 <= i < j < |d.signals| ==> d.signals[i].source != d.signals[j].source)
      && (forall i, j :: 0 <= i < j < |d.orders| ==> d.orders[i].source != d.orders[j].source)
      && PendingOk(d)
      && (forall i :: 0 <= i < |d.orders| && d.orders[i].miss.None? ==>
            && d.orders[i].source in d.trades
            && FillOk(c, d.log, d.orders[i])
            && d.trades[d.orders[i].source] == Trade(d.orders[i].source, d.orders[i].wallet, d.orders[i].t0, d.orders[i].t1))
  {
    hide FillOk, PendingOk, LastChange;
    var w := Run(c, EMPTY, steps);
    assert Sound(c, w) && TradesKeyed(w.desk) by {
      EmptyIsSound(c);
      RunKeepsSound(c, EMPTY, steps);
    }
    forall i | 0 <= i < |w.desk.orders|
      ensures OrderOk(c, w.desk, w.desk.orders[i], w.now)
    {
    }
  }

  lemma EmptyIsSound(c: Settings)
    ensures Sound(c, EMPTY) && TradesKeyed(EMPTY.desk)
  {
  }

  /** A disabled or rejected wallet is never filled, whatever it was when the signal was detected. */
  lemma UnapprovedNeverFills(c: Settings, d: Desk, s: Signal, now: int, later: Option<string>)
    requires s.wallet in d.wallets ==> d.wallets[s.wallet].state != Approved
    ensures var v := Gates(c, d, s, now, later); v.Decided? ==> v.order.miss.Some?
  {
  }

  /** Reenabling starts a new period: what was made or ingested before it stays uncopyable for good. */
  lemma ReenableForgetsThePast(c: Settings, d: Desk, wallet: int, now: int, s: Signal, at: int, later: Option<string>)
    requires wallet in d.wallets && d.wallets[wallet].state == Disabled && s.wallet == wallet
    requires s.t0 < now || s.t1 < now
    ensures var v := Gates(c, Transitioned(d, wallet, Reenable, now), s, at, later); v.Decided? ==> v.order.miss.Some?
  {
  }
}
