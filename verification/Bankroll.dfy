/**
 The paper bankroll (bankroll.py, models.py): a derived balance, an append-only ledger, profit
 sweeps that move only free cash, and the stop-loss floor.  Amounts are exact reals.
 */
module Bankroll {
  import opened Wrappers

  datatype Account = Account(
    starting: real, realized: real, withdrawn: real,
    profitLimit: Option<real>, stopLossFloor: Option<real>, sweepPending: bool)
  {
    /** Never stored: stake plus realized profit minus what was swept out. */
    function Balance(): real {
      starting + realized - withdrawn
    }

    function Unwithdrawn(): real {
      Max(0.0, realized - withdrawn)
    }

    predicate StopLossHit() {
      stopLossFloor.Some? && stopLossFloor.value > 0.0 && Balance() <= stopLossFloor.value
    }
  }

  datatype EntryKind = RealizedPnl | ProfitWithdrawal
  datatype Entry = Entry(kind: EntryKind, amount: real, balanceAfter: real)

  datatype Funds = Funds(account: Account, ledger: seq<Entry>)

  function Max(a: real, b: real): real { if a >= b then a else b }
  function Min(a: real, b: real): real { if a <= b then a else b }

  // ---------- movements ----------

  /** `post_realized_pnl`: a zero delta leaves no trace. */
  function Post(f: Funds, amount: real): Funds {
    if amount == 0.0 then f
    else
      var a := f.account.(realized := f.account.realized + amount);
      Funds(a, f.ledger + [Entry(RealizedPnl, amount, a.Balance())])
  }

  /** The amount `sweep_profit_if_due` moves when `openCost` is deployed in positions. */
  function SweepAmount(a: Account, openCost: real): real {
    if a.profitLimit.None? || a.profitLimit.value <= 0.0 || a.Unwithdrawn() <= 0.0 then 0.0
    else if !a.sweepPending && a.Unwithdrawn() < a.profitLimit.value then 0.0
    else Min(a.Unwithdrawn(), Max(0.0, a.Balance() - openCost))
  }

  function Sweep(f: Funds, openCost: real): Funds {
    var a, amount := f.account, SweepAmount(f.account, openCost);
    if amount > 0.0 then
      var a' := a.(sweepPending := amount < a.Unwithdrawn(), withdrawn := a.withdrawn + amount);
      Funds(a', f.ledger + [Entry(ProfitWithdrawal, -amount, a'.Balance())])
    else if a.profitLimit.Some? && a.profitLimit.value > 0.0 && a.Unwithdrawn() <= 0.0 then
      f.(account := a.(sweepPending := false))
    else f
  }

  // ---------- the ledger as an account statement ----------

  function SumOf(ledger: seq<Entry>): real {
    if ledger == [] then 0.0 else SumOf(ledger[..|ledger| - 1]) + ledger[|ledger| - 1].amount
  }

  function SumOfKind(ledger: seq<Entry>, kind: EntryKind): real {
    if ledger == [] then 0.0
    else
      var last := ledger[|ledger| - 1];
      SumOfKind(ledger[..|ledger| - 1], kind) + (if last.kind == kind then last.amount else 0.0)
  }

  /** Highest realized total ever reached, counting the start. */
  function PeakRealized(ledger: seq<Entry>): (p: real)
    ensures p >= 0.0 && p >= SumOfKind(ledger, RealizedPnl)
  {
    if ledger == [] then 0.0
    else Max(PeakRealized(ledger[..|ledger| - 1]), SumOfKind(ledger, RealizedPnl))
  }

  /** Every entry's cached balance is the stake plus all amounts up to and including it. */
  ghost predicate Statement(starting: real, ledger: seq<Entry>) {
    forall i :: 0 <= i < |ledger| ==> LineOk(starting, ledger, i)
  }

  ghost predicate LineOk(starting: real, ledger: seq<Entry>, i: nat)
    requires i < |ledger|
  {
    ledger[i].balanceAfter == starting + SumOf(ledger[..i + 1])
  }

  /** The account and its ledger never disagree, and only profit was ever withdrawn. */
  ghost predicate Consistent(f: Funds) {
    && Statement(f.account.starting, f.ledger)
    && f.account.Balance() == f.account.starting + SumOf(f.ledger)
    && f.account.realized == SumOfKind(f.ledger, RealizedPnl)
    && f.account.withdrawn == -SumOfKind(f.ledger, ProfitWithdrawal)
    && 0.0 <= f.account.withdrawn <= PeakRealized(f.ledger)
  }

  lemma EntryKeepsStatement(starting: real, ledger: seq<Entry>, e: Entry)
    requires Statement(starting, ledger) && e.balanceAfter == starting + SumOf(ledger) + e.amount
    ensures Statement(starting, ledger + [e])
    ensures SumOf(ledger + [e]) == SumOf(ledger) + e.amount
    ensures forall k :: SumOfKind(ledger + [e], k) == SumOfKind(ledger, k) + (if e.kind == k then e.amount else 0.0)
    ensures PeakRealized(ledger + [e]) == Max(PeakRealized(ledger), SumOfKind(ledger + [e], RealizedPnl))
  {
    var out := ledger + [e];
    assert out[..|out| - 1] == ledger;
    forall i | 0 <= i < |out|
      ensures LineOk(starting, out, i)
    {
      if i < |ledger| {
        assert LineOk(starting, ledger, i);
        assert out[..i + 1] == ledger[..i + 1];
      } else {
        assert out[..i + 1] == out;
      }
    }
  }

  /** Posting keeps the statement, and moves the balance by exactly the amount. */
  lemma PostKeepsConsistent(f: Funds, amount: real)
    requires Consistent(f)
    ensures Consistent(Post(f, amount)) && Post(f, amount).account.Balance() == f.account.Balance() + amount
  {
    if amount != 0.0 {
      EntryKeepsStatement(f.account.starting, f.ledger, Post(f, amount).ledger[|f.ledger|]);
    }
  }

  /** Sweeping keeps the statement; no more is ever withdrawn than the highest profit reached. */
  lemma SweepKeepsConsistent(f: Funds, openCost: real)
    requires Consistent(f)
    ensures Consistent(Sweep(f, openCost))
    ensures Sweep(f, openCost).account.Balance() == f.account.Balance() - SweepAmount(f.account, openCost)
  {
    if SweepAmount(f.account, openCost) > 0.0 {
      EntryKeepsStatement(f.account.starting, f.ledger, Sweep(f, openCost).ledger[|f.ledger|]);
    }
  }

  /**
   What a sweep promises: it moves only free cash and only profit; after a positive sweep the
   balance is at least the stake, the pending flag says whether a remainder waits for cash, and
   sweeping again with nothing changed moves nothing and changes nothing.
   */
  lemma SweepIsSafe(f: Funds, openCost: real)
    ensures var amount, f' := SweepAmount(f.account, openCost), Sweep(f, openCost);
      && 0.0 <= amount <= f.account.Unwithdrawn()
      && (amount > 0.0 ==>
            && amount <= f.account.Balance() - openCost
            && f'.account.Balance() >= f.account.starting
            && f'.account.Balance() - openCost >= 0.0
            && (f'.account.sweepPending <==> f'.account.Unwithdrawn() > 0.0)
            && (f'.account.sweepPending ==> f'.account.Balance() == openCost))
      && SweepAmount(f'.account, openCost) == 0.0
      && Sweep(f', openCost) == f'
  {
  }

  /** A remainder left by a partial sweep is finished without crossing the limit again. */
  lemma PendingSweepFinishes(f: Funds, openCost: real, later: real)
    requires SweepAmount(f.account, openCost) > 0.0 && Sweep(f, openCost).account.sweepPending
    requires 0.0 <= later < openCost
    ensures var a := Sweep(f, openCost).account;
      SweepAmount(a, later) == Min(a.Unwithdrawn(), openCost - later) > 0.0
  {
  }
}
