/**
 What may be copied: wallet approval periods (api/routes.py), signal detection and the execution gates
 (execution/service.py), with the operator, ingestion and any number of bots interleaving.  Times are
 integers; a decision takes effect in the database some time after the moment it was made at.
 */
module CopyBoundary {
  import opened Wrappers

  type TradeId = string
  datatype Approval = Discovered | PendingReview | Approved | Rejected | Disabled
  datatype Action = Approve | Reject | Disable | Reenable

  datatype Wallet = Wallet(state: Approval, approvedAt: Option<int>)
  datatype Trade = Trade(id: TradeId, wallet: int, traded: int, ingested: int)

  datatype Status = Pending | Executed | Skipped
  datatype Signal = Signal(source: TradeId, wallet: int, t0: int, t1: int, status: Status, deferrals: nat)

  datatype Miss = StaleSignal | WalletNotApproved | OtherMiss(reason: string)
  datatype Order = Order(source: TradeId, wallet: int, t0: int, t1: int, decided: int, miss: Option<Miss>)

  /** A successful approval decision. */
  datatype Change = Change(wallet: int, target: Approval, at: int)

  datatype Settings = Settings(maxAge: int, reviewDelay: int, killSwitch: bool)

  datatype Desk = Desk(
    wallets: map<int, Wallet>, trades: map<TradeId, Trade>, signals: seq<Signal>, orders: seq<Order>, log: seq<Change>)

  // ---------- approval ----------

  function RequiredFrom(a: Action): Approval {
    match a
    case Approve => PendingReview
    case Reject => PendingReview
    case Disable => Approved
    case Reenable => Disabled
  }

  function Target(a: Action): Approval {
    match a
    case Approve => Approved
    case Reject => Rejected
    case Disable => Disabled
    case Reenable => Approved
  }

  /** `transition_wallet`: one conditional update; an approval starts a new copy period. */
  function Transitioned(d: Desk, wallet: int, a: Action, now: int): Desk {
    if wallet in d.wallets && d.wallets[wallet].state == RequiredFrom(a) then
      d.(wallets := d.wallets[wallet := Wallet(Target(a), if Target(a) == Approved then Some(now) else d.wallets[wallet].approvedAt)],
         log := d.log + [Change(wallet, Target(a), now)])
    else d
  }

  // ---------- detection ----------

  predicate Signaled(signals: seq<Signal>, id: TradeId) {
    exists i :: 0 <= i < |signals| && signals[i].source == id
  }

  /** The approved wallet's copy period covers both clocks of a trade. */
  predicate WithinApproval(w: Wallet, t0: int, t1: int) {
    w.state == Approved && w.approvedAt.Some? && t0 >= w.approvedAt.value && t1 >= w.approvedAt.value
  }

  predicate Copyable(d: Desk, id: TradeId) {
    && id in d.trades && d.trades[id].wallet in d.wallets
    && WithinApproval(d.wallets[d.trades[id].wallet], d.trades[id].traded, d.trades[id].ingested)
    && !Signaled(d.signals, id)
  }

  function SignalFor(t: Trade): Signal {
    Signal(t.id, t.wallet, t.traded, t.ingested, Pending, 0)
  }

  predicate Unique(ids: seq<TradeId>) {
    forall i, j :: 0 <= i < j < |ids| ==> ids[i] != ids[j]
  }

  /** The insert of a detected batch: all of it, or - on a duplicate - none. */
  function Detected(d: Desk, batch: seq<Signal>): Desk {
    if exists i :: 0 <= i < |batch| && Signaled(d.signals, batch[i].source) then d
    else d.(signals := d.signals + batch)
  }

  // ---------- execution ----------

  datatype Verdict = Deferred | Decided(order: Order)

  function Decision(s: Signal, now: int, miss: Option<Miss>): Verdict {
    Decided(Order(s.source, s.wallet, s.t0, s.t1, now, miss))
  }

  /** The gates of `execute_signal` in their order; the later ones (market, caps, cash, book) are given. */
  function Gates(c: Settings, d: Desk, s: Signal, now: int, later: Option<string>): Verdict {
    if now - s.t0 > c.maxAge then Decision(s, now, Some(StaleSignal))
    else if c.killSwitch || now < s.t1 + c.reviewDelay then Deferred
    else if s.wallet !in d.wallets || !WithinApproval(d.wallets[s.wallet], s.t0, s.t1)
    then Decision(s, now, Some(WalletNotApproved))
    else Decision(s, now, if later.Some? then Some(OtherMiss(later.value)) else None)
  }

  predicate Ordered(orders: seq<Order>, id: TradeId) {
    exists i :: 0 <= i < |orders| && orders[i].source == id
  }

  function Marked(signals: seq<Signal>, id: TradeId, status: Status): seq<Signal> {
    seq(|signals|, i requires 0 <= i < |signals| => if signals[i].source == id then signals[i].(status := status) else signals[i])
  }

  function Deferring(signals: seq<Signal>, id: TradeId): seq<Signal> {
    seq(|signals|, i requires 0 <= i < |signals| =>
      if signals[i].source == id then signals[i].(deferrals := signals[i].deferrals + 1) else signals[i])
  }

  /** Order and signal status are committed together; a second order for one trade violates its key. */
  function Booked(d: Desk, o: Order): Desk {
    if Ordered(d.orders, o.source) then d
    else d.(orders := d.orders + [o], signals := Marked(d.signals, o.source, if o.miss.None? then Executed else Skipped))
  }

  // ---------- the object ----------

  class CopyDesk {
    const settings: Settings
    var wallets: map<int, Wallet>
    var trades: map<TradeId, Trade>
    var signals: seq<Signal>
    var orders: seq<Order>
    var log: seq<Change>

    function View(): Desk
      reads this
    {
      Desk(wallets, trades, signals, orders, log)
    }

    constructor (c: Settings)
      ensures settings == c && View() == Desk(map[], map[], [], [], [])
    {
      settings, wallets, trades, signals, orders, log := c, map[], map[], [], [], [];
    }

    /** False stands for the 404 and 409 answers. */
    method TransitionWallet(wallet: int, a: Action, now: int) returns (ok: bool)
      modifies `wallets, `log
      ensures View() == Transitioned(old(View()), wallet, a, now)
      ensures ok <==> wallet in old(wallets) && old(wallets)[wallet].state == RequiredFrom(a)
      ensures ok && Target(a) == Approved ==> wallets[wallet] == Wallet(Approved, Some(now))
    {
      if wallet !in wallets || wallets[wallet].state != RequiredFrom(a) {
        return false;
      }
      var boundary := if Target(a) == Approved then Some(now) else wallets[wallet].approvedAt;
      wallets := wallets[wallet := Wallet(Target(a), boundary)];
      log := log + [Change(wallet, Target(a), now)];
      return true;
    }

    /** `detect_signals` over the rows its query picked. */
    method DetectSignals(picked: seq<TradeId>) returns (created: nat)
      requires Unique(picked) && forall i :: 0 <= i < |picked| ==> Copyable(View(), picked[i])
      modifies `signals
      ensures created == |picked| && |signals| == old(|signals|) + created
      ensures signals[..old(|signals|)] == old(signals)
      ensures forall i :: 0 <= i < created ==>
                picked[i] in trades && signals[old(|signals|) + i] == SignalFor(trades[picked[i]])
    {
      created := 0;
      var before := signals;
      for i := 0 to |picked|
        invariant created == i && |signals| == |before| + i
        invariant signals[..|before|] == before
        invariant forall j :: 0 <= j < i ==> signals[|before| + j] == SignalFor(trades[picked[j]])
      {
        signals := signals + [SignalFor(trades[picked[i]])];
        created := created + 1;
      }
    }

    /** `execute_signal` up to its commit. */
    method ExecuteSignal(k: nat, now: int, later: Option<string>) returns (v: Verdict)
      requires k < |signals|
      modifies `signals
      ensures v == Gates(settings, old(View()), old(signals)[k], now, later)
      ensures signals == if settings.killSwitch && now - old(signals)[k].t0 <= settings.maxAge
                         then old(signals)[k := old(signals)[k].(deferrals := old(signals)[k].deferrals + 1)] else old(signals)
    {
      var signal := signals[k];
      if now - signal.t0 > settings.maxAge {
        return Decision(signal, now, Some(StaleSignal));
      }
      if settings.killSwitch {
        signals := signals[k := signal.(deferrals := signal.deferrals + 1)];
        return Deferred;
      }
      if now < signal.t1 + settings.reviewDelay {
        return Deferred;
      }
      if signal.wallet !in wallets || !WithinApproval(wallets[signal.wallet], signal.t0, signal.t1) {
        return Decision(signal, now, Some(WalletNotApproved));
      }
      return Decision(signal, now, if later.Some? then Some(OtherMiss(later.value)) else None);
    }

    /** The commit of an order with its signal's new status. */
    method BookOrder(o: Order) returns (ok: bool)
      modifies `signals, `orders
      ensures View() == Booked(old(View()), o)
      ensures ok <==> !Ordered(old(orders), o.source)
    {
      if Ordered(orders, o.source) {
        return false;
      }
      orders := orders + [o];
      signals := Marked(signals, o.source, if o.miss.None? then Executed else Skipped);
      return true;
    }
  }

  // ---------- every interleaving ----------

  /** The database, decisions and detected batches not yet committed, and the clock. */
  datatype World = World(desk: Desk, deciding: set<Order>, detecting: set<seq<Signal>>, now: int)

  datatype Step =
    | Tick(now: int)
    | AddWallet(wallet: int)
    | Score(wallet: int, review: bool)
    | Operate(wallet: int, action: Action)
    | Ingest(trade: Trade)
    | Detect(picked: seq<TradeId>)
    | CommitBatch(batch: seq<Signal>)
    | Decide(k: nat, at: int, later: Option<string>)
    | Defer(id: TradeId)
    | CommitOrder(order: Order)
    | DropOrder(order: Order)
    | DropBatch(batch: seq<Signal>)

  function BatchOf(d: Desk, picked: seq<TradeId>): seq<Signal>
    requires forall i :: 0 <= i < |picked| ==> picked[i] in d.trades
  {
    seq(|picked|, i requires 0 <= i < |picked| => SignalFor(d.trades[picked[i]]))
  }

  predicate Enabled(c: Settings, w: World, s: Step) {
    match s
    case Tick(now) => w.now <= now
    case Ingest(t) => t.ingested <= w.now
    case Detect(picked) => Unique(picked) && forall i :: 0 <= i < |picked| ==> Copyable(w.desk, picked[i])
    case CommitBatch(batch) => batch in w.detecting
    case Decide(k, at, _) => k < |w.desk.signals| && w.desk.signals[k].status == Pending && at <= w.now
    case CommitOrder(o) => o in w.deciding
    case _ => true
  }

  function Next(c: Settings, w: World, s: Step): World
    requires Enabled(c, w, s)
  {
    match s
    case Tick(now) => w.(now := now)
    case AddWallet(id) =>
      if id in w.desk.wallets then w else w.(desk := w.desk.(wallets := w.desk.wallets[id := Wallet(Discovered, None)]))
    case Score(id, review) =>
      if id in w.desk.wallets && w.desk.wallets[id].state in {Discovered, PendingReview}
      then w.(desk := w.desk.(wallets := w.desk.wallets[id := w.desk.wallets[id].(state := if review then PendingReview else Discovered)]))
      else w
    case Operate(id, a) => w.(desk := Transitioned(w.desk, id, a, w.now))
    case Ingest(t) => if t.id in w.desk.trades then w else w.(desk := w.desk.(trades := w.desk.trades[t.id := t]))
    case Detect(picked) => w.(detecting := w.detecting + {BatchOf(w.desk, picked)})
    case CommitBatch(batch) => w.(desk := Detected(w.desk, batch), detecting := w.detecting - {batch})
    case Decide(k, at, later) =>
      var v := Gates(c, w.desk, w.desk.signals[k], at, later);
      if v.Deferred? then w else w.(deciding := w.deciding + {v.order})
    case Defer(id) => w.(desk := w.desk.(signals := Deferring(w.desk.signals, id)))
    case CommitOrder(o) => w.(desk := Booked(w.desk, o), deciding := w.deciding - {o})
    case DropOrder(o) => w.(deciding := w.deciding - {o})
    case DropBatch(batch) => w.(detecting := w.detecting - {batch})
  }
}
