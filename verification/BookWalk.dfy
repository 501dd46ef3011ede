/**
 Order-book walking (execution/bookwalk.py).

 `WalkBook` is the greedy loop of the program.  It is tied to `Takes`, the shares taken level by
 level, and the lemmas say what that greedy choice is worth: no other way of trading against the
 same book does better, and trading more never improves the average price.
 Decimals are exact reals; NaN and the infinities are the one value `NonFinite`.
 */
module BookWalk {
  import opened Wrappers

  datatype Num = Finite(v: real) | NonFinite
  datatype BookLevel = BookLevel(price: Num, size: Num)

  /** A level that passed the filter: price in (0, 1], positive size. */
  datatype Level = Level(price: real, size: real)

  datatype Status = Filled | Partial | Missed
  datatype FillResult = FillResult(
    status: Status, filledSize: real, fillPrice: Option<real>, depthAvailable: real, levelsConsumed: nat)

  // ---------- the walked side of the book ----------

  predicate Usable(lv: BookLevel) {
    lv.price.Finite? && lv.size.Finite? && 0.0 < lv.price.v <= 1.0 && lv.size.v > 0.0
  }

  function UsableLevels(book: seq<BookLevel>): seq<Level> {
    if book == [] then []
    else if Usable(book[0]) then [Level(book[0].price.v, book[0].size.v)] + UsableLevels(book[1..])
    else UsableLevels(book[1..])
  }

  predicate Walkable(ls: seq<Level>) {
    forall i :: 0 <= i < |ls| ==> 0.0 < ls[i].price <= 1.0 && ls[i].size > 0.0
  }

  /** `a` may stand before `b`: cheapest first, or dearest first when `descending`. */
  predicate InOrder(a: Level, b: Level, descending: bool) {
    if descending then a.price >= b.price else a.price <= b.price
  }

  predicate BestFirst(ls: seq<Level>, descending: bool) {
    forall i, j :: 0 <= i <= j < |ls| ==> InOrder(ls[i], ls[j], descending)
  }

  function Insert(x: Level, ls: seq<Level>, descending: bool): seq<Level> {
    if ls == [] || InOrder(x, ls[0], descending) then [x] + ls
    else [ls[0]] + Insert(x, ls[1..], descending)
  }

  /** Python's `sorted`: stable, also when reversed. */
  function Sorted(ls: seq<Level>, descending: bool): seq<Level> {
    if ls == [] then [] else Insert(ls[0], Sorted(ls[1..], descending), descending)
  }

  function WalkedSide(side: string, bids: seq<BookLevel>, asks: seq<BookLevel>): seq<Level> {
    UsableLevels(if side == "BUY" then asks else bids)
  }

  function Depth(ls: seq<Level>): real {
    if ls == [] then 0.0 else ls[0].size + Depth(ls[1..])
  }

  lemma {:induction false} UsableLevelsWalkable(book: seq<BookLevel>)
    ensures Walkable(UsableLevels(book))
  {
    if book != [] {
      UsableLevelsWalkable(book[1..]);
    }
  }

  lemma {:induction false} InsertKeepsOrder(x: Level, ls: seq<Level>, descending: bool)
    requires BestFirst(ls, descending)
    ensures BestFirst(Insert(x, ls, descending), descending)
    ensures multiset(Insert(x, ls, descending)) == multiset(ls) + multiset{x}
  {
    if ls == [] || InOrder(x, ls[0], descending) {
    } else {
      InsertKeepsOrder(x, ls[1..], descending);
      var rest := Insert(x, ls[1..], descending);
      assert ls == [ls[0]] + ls[1..];
      forall j | 0 <= j < |rest|
        ensures InOrder(ls[0], rest[j], descending)
      {
        assert rest[j] in multiset(rest);
        assert rest[j] == x || rest[j] in ls[1..];
      }
    }
  }

  /** The walked levels are the same levels, best price first. */
  lemma {:induction false} SortedIsBestFirst(ls: seq<Level>, descending: bool)
    ensures BestFirst(Sorted(ls, descending), descending)
    ensures multiset(Sorted(ls, descending)) == multiset(ls)
    ensures Walkable(ls) ==> Walkable(Sorted(ls, descending))
  {
    hide InOrder, BestFirst, Walkable;
    if ls != [] {
      SortedIsBestFirst(ls[1..], descending);
      InsertKeepsOrder(ls[0], Sorted(ls[1..], descending), descending);
      assert ls == [ls[0]] + ls[1..];
    } else {
      assert BestFirst([], descending) by { EmptyIsBestFirst(descending); }
    }
    if Walkable(ls) {
      ReorderedWalkable(ls, Sorted(ls, descending));
    }
  }

  lemma EmptyIsBestFirst(descending: bool)
    ensures BestFirst([], descending)
  {
  }

  lemma ReorderedWalkable(ls: seq<Level>, out: seq<Level>)
    requires Walkable(ls) && multiset(out) == multiset(ls)
    ensures Walkable(out)
  {
    forall i | 0 <= i < |out|
      ensures 0.0 < out[i].price <= 1.0 && out[i].size > 0.0
    {
      assert out[i] in multiset(out);
    }
  }

  // ---------- allocations ----------

  /** Shares bought or sold over all levels. */
  function Total(a: seq<real>): real {
    if a == [] then 0.0 else a[0] + Total(a[1..])
  }

  /** What an allocation costs (BUY) or raises (SELL). */
  function Notional(ls: seq<Level>, a: seq<real>): real
    requires |ls| == |a|
  {
    if ls == [] then 0.0 else Cost(a[0], ls[0].price) + Notional(ls[1..], a[1..])
  }

  function Cost(shares: real, price: real): real { shares * price }

  function LevelsUsed(a: seq<real>): nat {
    if a == [] then 0 else (if a[0] > 0.0 then 1 else 0) + LevelsUsed(a[1..])
  }

  predicate WithinCap(shares: real, cap: Option<real>) {
    cap.None? || shares <= cap.value
  }

  predicate WithinLevels(ls: seq<Level>, a: seq<real>) {
    |a| == |ls| && forall i :: 0 <= i < |ls| ==> 0.0 <= a[i] <= ls[i].size
  }

  /** A way to trade against the book: within level sizes, the notional limit and the share cap. */
  predicate Feasible(ls: seq<Level>, a: seq<real>, usd: real, cap: Option<real>) {
    WithinLevels(ls, a) && Notional(ls, a) <= usd && WithinCap(Total(a), cap)
  }

  // ---------- the greedy choice ----------

  function Min(a: real, b: real): real { if a <= b then a else b }

  predicate Exhausted(usd: real, cap: Option<real>) {
    usd <= 0.0 || (cap.Some? && cap.value <= 0.0)
  }

  function TakeAt(lv: Level, usd: real, cap: Option<real>): real
    requires lv.price > 0.0
  {
    var take := Min(lv.size, usd / lv.price);
    if cap.Some? then Min(take, cap.value) else take
  }

  function UsdAfter(lv: Level, usd: real, take: real): real
    requires lv.price > 0.0
  {
    if take == usd / lv.price then 0.0 else usd - Cost(take, lv.price)
  }

  function CapAfter(cap: Option<real>, take: real): Option<real> {
    if cap.Some? then Some(cap.value - take) else None
  }

  /** Shares the walk takes at each level; zero once a limit is used up. */
  function Takes(ls: seq<Level>, usd: real, cap: Option<real>): (g: seq<real>)
    requires Walkable(ls)
    ensures |g| == |ls|
  {
    if ls == [] then []
    else if Exhausted(usd, cap) then seq(|ls|, _ => 0.0)
    else
      var take := TakeAt(ls[0], usd, cap);
      [take] + Takes(ls[1..], UsdAfter(ls[0], usd, take), CapAfter(cap, take))
  }

  lemma {:induction false} ZerosSum(ls: seq<Level>, a: seq<real>)
    requires |a| == |ls| && forall i :: 0 <= i < |a| ==> a[i] == 0.0
    ensures Total(a) == 0.0 && Notional(ls, a) == 0.0 && LevelsUsed(a) == 0
  {
    if ls != [] {
      ZerosSum(ls[1..], a[1..]);
      assert Cost(a[0], ls[0].price) == 0.0;
    }
  }

  /** One level: the take is positive, fits the level, the money and the cap. */
  lemma TakeFits(lv: Level, usd: real, cap: Option<real>)
    requires lv.price > 0.0 && lv.size > 0.0 && !Exhausted(usd, cap)
    ensures var t := TakeAt(lv, usd, cap);
      && 0.0 < t <= lv.size && 0.0 < Cost(t, lv.price) <= usd && WithinCap(t, cap)
      && UsdAfter(lv, usd, t) == usd - Cost(t, lv.price)
      && (t == lv.size || UsdAfter(lv, usd, t) == 0.0 || (cap.Some? && t == cap.value))
      && (UsdAfter(lv, usd, t) == 0.0 <==> t == usd / lv.price)
  {
    var affordable := usd / lv.price;
    assert affordable * lv.price == usd;
    assert affordable > 0.0;
    var t := TakeAt(lv, usd, cap);
    assert t <= affordable;
    MulMono(t, affordable, lv.price);
    assert t * lv.price > 0.0;
    if t < affordable {
      assert (affordable - t) * lv.price > 0.0;
    }
  }

  lemma MulMono(a: real, b: real, p: real)
    requires a <= b && p >= 0.0
    ensures a * p <= b * p
  {
    assert (b - a) * p >= 0.0;
  }

  /** The walk stays within every limit it was given. */
  lemma {:induction false} TakesFeasible(ls: seq<Level>, usd: real, cap: Option<real>)
    requires Walkable(ls)
    ensures WithinLevels(ls, Takes(ls, usd, cap))
    ensures usd >= 0.0 ==> Notional(ls, Takes(ls, usd, cap)) <= usd
    ensures (cap.Some? ==> cap.value >= 0.0) ==> WithinCap(Total(Takes(ls, usd, cap)), cap)
    ensures Notional(ls, Takes(ls, usd, cap)) >= 0.0
  {
    hide Cost, TakeAt, UsdAfter;
    if ls == [] {
    } else if Exhausted(usd, cap) {
      ZerosSum(ls, Takes(ls, usd, cap));
    } else {
      var t := TakeAt(ls[0], usd, cap);
      var usd', cap' := UsdAfter(ls[0], usd, t), CapAfter(cap, t);
      TakeFits(ls[0], usd, cap);
      TakesFeasible(ls[1..], usd', cap');
      TakesStep(ls, usd, cap);
      WithinLevelsStep(ls, t, Takes(ls[1..], usd', cap'));
    }
  }

  lemma TakesStep(ls: seq<Level>, usd: real, cap: Option<real>)
    requires Walkable(ls) && ls != [] && !Exhausted(usd, cap)
    ensures var t := TakeAt(ls[0], usd, cap);
      var g, rest := Takes(ls, usd, cap), Takes(ls[1..], UsdAfter(ls[0], usd, t), CapAfter(cap, t));
      && g == [t] + rest
      && Total(g) == t + Total(rest)
      && Notional(ls, g) == Cost(t, ls[0].price) + Notional(ls[1..], rest)
      && LevelsUsed(g) == (if t > 0.0 then 1 else 0) + LevelsUsed(rest)
  {
    hide Cost, TakeAt, UsdAfter;
    var t := TakeAt(ls[0], usd, cap);
    var rest := Takes(ls[1..], UsdAfter(ls[0], usd, t), CapAfter(cap, t));
    assert ([t] + rest)[1..] == rest;
  }

  lemma WithinLevelsStep(ls: seq<Level>, t: real, rest: seq<real>)
    requires ls != [] && 0.0 <= t <= ls[0].size && WithinLevels(ls[1..], rest)
    ensures WithinLevels(ls, [t] + rest)
  {
    assert ls == [ls[0]] + ls[1..];
  }

  /** First level the walk does not empty (or the number of levels). */
  ghost function Cut(ls: seq<Level>, usd: real, cap: Option<real>): (k: nat)
    requires Walkable(ls)
    ensures k <= |ls|
  {
    if ls == [] || Exhausted(usd, cap) then 0
    else
      var t := TakeAt(ls[0], usd, cap);
      if t < ls[0].size then 0 else 1 + Cut(ls[1..], UsdAfter(ls[0], usd, t), CapAfter(cap, t))
  }

  /** Shape of the walk: full levels, at most one partial level, then nothing - and why it stopped. */
  lemma {:induction false} TakesShape(ls: seq<Level>, usd: real, cap: Option<real>)
    requires Walkable(ls) && usd >= 0.0 && (cap.Some? ==> cap.value >= 0.0)
    ensures var g, k := Takes(ls, usd, cap), Cut(ls, usd, cap);
      && (forall i :: 0 <= i < k ==> g[i] == ls[i].size)
      && (forall i :: k < i < |ls| ==> g[i] == 0.0)
      && (k == |ls| || Notional(ls, g) == usd || (cap.Some? && Total(g) == cap.value))
  {
    hide Cost, TakeAt, UsdAfter;
    if ls == [] {
    } else if Exhausted(usd, cap) {
      ZerosSum(ls, Takes(ls, usd, cap));
    } else {
      var t := TakeAt(ls[0], usd, cap);
      TakeFits(ls[0], usd, cap);
      var usd', cap' := UsdAfter(ls[0], usd, t), CapAfter(cap, t);
      TakesShape(ls[1..], usd', cap');
      if t < ls[0].size {
        assert Exhausted(usd', cap');
        ZerosSum(ls[1..], Takes(ls[1..], usd', cap'));
      }
    }
  }

  // ---------- optimality ----------

  /** Moving shares to worse prices around a pivot price cannot pay. */
  lemma {:induction false} PivotBound(ls: seq<Level>, a: seq<real>, g: seq<real>, pivot: real, descending: bool)
    requires |a| == |g| == |ls|
    requires forall i :: 0 <= i < |ls| ==>
      Beats(Cost(a[i] - g[i], ls[i].price - pivot), descending)
    ensures Beats(Gain(ls, a, g, pivot), descending)
  {
    hide Cost;
    if ls != [] {
      PivotBound(ls[1..], a[1..], g[1..], pivot, descending);
      GainStep(Notional(ls[1..], a[1..]) - Notional(ls[1..], g[1..]), Total(a[1..]) - Total(g[1..]),
               a[0], g[0], ls[0].price, pivot);
    } else {
      CostSign(0.0, pivot);
    }
  }

  /** What allocation `a` gains over `g` beyond trading the difference in shares at the pivot price. */
  ghost function Gain(ls: seq<Level>, a: seq<real>, g: seq<real>, pivot: real): real
    requires |a| == |g| == |ls|
  {
    Notional(ls, a) - Notional(ls, g) - Cost(Total(a) - Total(g), pivot)
  }

  ghost predicate Beats(gain: real, descending: bool) {
    if descending then gain <= 0.0 else gain >= 0.0
  }

  lemma GainStep(dn: real, dt: real, a0: real, g0: real, price: real, pivot: real)
    ensures Cost(a0, price) + dn - Cost(g0, price) - Cost(a0 + dt - g0, pivot)
         == Cost(a0 - g0, price - pivot) + (dn - Cost(dt, pivot))
  {
    assert (a0 - g0) * (price - pivot) == a0 * price - g0 * price - (a0 - g0) * pivot;
    assert (a0 + dt - g0) * pivot == (a0 - g0) * pivot + dt * pivot;
  }

  lemma {:induction false} PointwiseSums(ls: seq<Level>, a: seq<real>, g: seq<real>)
    requires |a| == |g| == |ls| && Walkable(ls)
    requires forall i :: 0 <= i < |ls| ==> a[i] <= g[i]
    ensures Total(a) <= Total(g) && Notional(ls, a) <= Notional(ls, g)
  {
    hide Cost;
    if ls != [] {
      PointwiseSums(ls[1..], a[1..], g[1..]);
      CostMono(a[0], g[0], ls[0].price);
    }
  }

  lemma CostMono(a: real, b: real, p: real)
    requires a <= b && p >= 0.0
    ensures Cost(a, p) <= Cost(b, p)
  {
    MulMono(a, b, p);
  }

  lemma CostSign(d: real, e: real)
    ensures d >= 0.0 && e >= 0.0 ==> Cost(d, e) >= 0.0
    ensures d <= 0.0 && e <= 0.0 ==> Cost(d, e) >= 0.0
    ensures d >= 0.0 && e <= 0.0 ==> Cost(d, e) <= 0.0
    ensures d <= 0.0 && e >= 0.0 ==> Cost(d, e) <= 0.0
    ensures d > 0.0 && e > 0.0 ==> Cost(d, e) > 0.0
  {
    if d == 0.0 || e == 0.0 {
      assert d * e == 0.0;
    } else if (d > 0.0) == (e > 0.0) {
      assert d * e > 0.0;
    } else {
      assert d * e < 0.0;
    }
  }

  /** Any other allocation differs from the greedy one only by giving up better levels for worse ones. */
  lemma GreedyPivot(ls: seq<Level>, a: seq<real>, usd: real, cap: Option<real>, descending: bool)
    requires Walkable(ls) && BestFirst(ls, descending) && WithinLevels(ls, a)
    requires usd >= 0.0 && (cap.Some? ==> cap.value >= 0.0) && Cut(ls, usd, cap) < |ls|
    ensures Beats(Gain(ls, a, Takes(ls, usd, cap), ls[Cut(ls, usd, cap)].price), descending)
  {
    hide Cost, TakeAt, UsdAfter, Takes, Cut, Notional, Total;
    var g, k := Takes(ls, usd, cap), Cut(ls, usd, cap);
    var pivot := ls[k].price;
    TakesShape(ls, usd, cap);
    forall i | 0 <= i < |ls|
      ensures Beats(Cost(a[i] - g[i], ls[i].price - pivot), descending)
    {
      assert InOrder(ls[i], ls[k], descending) || i > k;
      assert InOrder(ls[k], ls[i], descending) || i < k;
      CostSign(a[i] - g[i], ls[i].price - pivot);
    }
    PivotBound(ls, a, g, pivot, descending);
  }

  lemma BuyWalkBestOnSorted(ls: seq<Level>, a: seq<real>, usd: real, cap: Option<real>)
    requires Walkable(ls) && BestFirst(ls, false) && usd > 0.0 && Feasible(ls, a, usd, cap)
    ensures Total(a) <= Total(Takes(ls, usd, cap))
  {
    hide Cost, TakeAt, UsdAfter, Takes, Cut, Notional, Total;
    TotalNonnegative(ls, a);
    TakesShape(ls, usd, cap);
    TakesFeasible(ls, usd, cap);
    var g, k := Takes(ls, usd, cap), Cut(ls, usd, cap);
    if k == |ls| {
      PointwiseSums(ls, a, g);
    } else if Notional(ls, g) == usd {
      GreedyPivot(ls, a, usd, cap, false);
      CostSign(Total(a) - Total(g), ls[k].price);
    }
  }

  lemma SellWalkBestOnSorted(ls: seq<Level>, a: seq<real>, usd: real, cap: Option<real>)
    requires Walkable(ls) && BestFirst(ls, true) && usd > 0.0 && Feasible(ls, a, usd, cap)
    ensures Notional(ls, a) <= Notional(ls, Takes(ls, usd, cap))
  {
    hide Cost, TakeAt, UsdAfter, Takes, Cut, Notional, Total;
    TotalNonnegative(ls, a);
    TakesShape(ls, usd, cap);
    var g, k := Takes(ls, usd, cap), Cut(ls, usd, cap);
    if k == |ls| {
      PointwiseSums(ls, a, g);
    } else if cap.Some? && Total(g) == cap.value {
      GreedyPivot(ls, a, usd, cap, true);
      CostSign(Total(a) - Total(g), ls[k].price);
    }
  }

  lemma {:induction false} TotalNonnegative(ls: seq<Level>, a: seq<real>)
    requires WithinLevels(ls, a)
    ensures Total(a) >= 0.0
  {
    if ls != [] {
      TotalNonnegative(ls[1..], a[1..]);
    }
  }

  // Allocations are stated against the book in the order it was given; sorting only permutes them.

  ghost function InsertTake(x: Level, t: real, ls: seq<Level>, a: seq<real>, descending: bool): (b: seq<real>)
    requires |a| == |ls|
    ensures |b| == |Insert(x, ls, descending)|
  {
    if ls == [] || InOrder(x, ls[0], descending) then [t] + a
    else [a[0]] + InsertTake(x, t, ls[1..], a[1..], descending)
  }

  ghost function SortedTakes(ls: seq<Level>, a: seq<real>, descending: bool): (b: seq<real>)
    requires |a| == |ls|
    ensures |b| == |Sorted(ls, descending)|
  {
    if ls == [] then []
    else InsertTake(ls[0], a[0], Sorted(ls[1..], descending), SortedTakes(ls[1..], a[1..], descending), descending)
  }

  lemma {:induction false} InsertTakeSums(x: Level, t: real, ls: seq<Level>, a: seq<real>, descending: bool)
    requires WithinLevels(ls, a) && 0.0 <= t <= x.size
    ensures var out, b := Insert(x, ls, descending), InsertTake(x, t, ls, a, descending);
      && WithinLevels(out, b)
      && Total(b) == t + Total(a)
      && Notional(out, b) == Cost(t, x.price) + Notional(ls, a)
  {
    hide Cost;
    if ls == [] || InOrder(x, ls[0], descending) {
      assert ([t] + a)[1..] == a && ([x] + ls)[1..] == ls;
    } else {
      InsertTakeSums(x, t, ls[1..], a[1..], descending);
      var rest, restTakes := Insert(x, ls[1..], descending), InsertTake(x, t, ls[1..], a[1..], descending);
      assert ([ls[0]] + rest)[1..] == rest && ([a[0]] + restTakes)[1..] == restTakes;
    }
  }

  lemma {:induction false} SortedTakesSums(ls: seq<Level>, a: seq<real>, descending: bool)
    requires WithinLevels(ls, a)
    ensures var out, b := Sorted(ls, descending), SortedTakes(ls, a, descending);
      WithinLevels(out, b) && Total(b) == Total(a) && Notional(out, b) == Notional(ls, a)
  {
    hide Cost;
    if ls != [] {
      SortedTakesSums(ls[1..], a[1..], descending);
      InsertTakeSums(ls[0], a[0], Sorted(ls[1..], descending), SortedTakes(ls[1..], a[1..], descending), descending);
    }
  }

  /** No feasible way of spending the same money on the same asks buys more shares. */
  lemma BuyWalkIsOptimal(asks: seq<BookLevel>, a: seq<real>, usd: real, cap: Option<real>)
    requires usd > 0.0 && Feasible(UsableLevels(asks), a, usd, cap)
    ensures Walkable(Sorted(UsableLevels(asks), false))
    ensures Total(a) <= Total(Takes(Sorted(UsableLevels(asks), false), usd, cap))
  {
    var ls := UsableLevels(asks);
    UsableLevelsWalkable(asks);
    SortedIsBestFirst(ls, false);
    SortedTakesSums(ls, a, false);
    BuyWalkBestOnSorted(Sorted(ls, false), SortedTakes(ls, a, false), usd, cap);
  }

  /** No feasible way of selling into the same bids, under the same limits, raises more. */
  lemma SellWalkIsOptimal(bids: seq<BookLevel>, a: seq<real>, usd: real, cap: Option<real>)
    requires usd > 0.0 && Feasible(UsableLevels(bids), a, usd, cap)
    ensures Walkable(Sorted(UsableLevels(bids), true))
    ensures var ls := Sorted(UsableLevels(bids), true);
      Notional(UsableLevels(bids), a) <= Notional(ls, Takes(ls, usd, cap))
  {
    var ls := UsableLevels(bids);
    UsableLevelsWalkable(bids);
    SortedIsBestFirst(ls, true);
    SortedTakesSums(ls, a, true);
    SellWalkBestOnSorted(Sorted(ls, true), SortedTakes(ls, a, true), usd, cap);
  }

  // ---------- impact ----------

  predicate NoLooser(cap: Option<real>, cap': Option<real>) {
    cap'.None? || (cap.Some? && cap.value <= cap'.value)
  }

  lemma TakeMonotone(lv: Level, usd: real, usd': real, cap: Option<real>, cap': Option<real>)
    requires lv.price > 0.0 && usd <= usd' && NoLooser(cap, cap')
    ensures TakeAt(lv, usd, cap) <= TakeAt(lv, usd', cap')
  {
    assert usd' / lv.price - usd / lv.price == (usd' - usd) / lv.price >= 0.0;
  }

  /** Raising either limit never takes fewer shares at any level. */
  lemma {:induction false} TakesMonotone(ls: seq<Level>, usd: real, usd': real, cap: Option<real>, cap': Option<real>)
    requires Walkable(ls) && 0.0 <= usd <= usd' && NoLooser(cap, cap')
    ensures forall i :: 0 <= i < |ls| ==> Takes(ls, usd, cap)[i] <= Takes(ls, usd', cap')[i]
  {
    hide Cost, TakeAt, UsdAfter, Total, Notional;
    TakesFeasible(ls, usd', cap');
    if ls == [] || Exhausted(usd, cap) {
    } else {
      var t, t' := TakeAt(ls[0], usd, cap), TakeAt(ls[0], usd', cap');
      TakeFits(ls[0], usd, cap);
      TakeFits(ls[0], usd', cap');
      TakeMonotone(ls[0], usd, usd', cap, cap');
      var u, c := UsdAfter(ls[0], usd, t), CapAfter(cap, t);
      var u', c' := UsdAfter(ls[0], usd', t'), CapAfter(cap', t');
      TakesFeasible(ls[1..], u', c');
      if Exhausted(u, c) {
        assert forall i :: 0 <= i < |ls[1..]| ==> Takes(ls[1..], u, c)[i] == 0.0;
      } else {
        assert t == ls[0].size;
        TakesMonotone(ls[1..], u, u', c, c');
      }
    }
  }

  /** Price paid per share never improves when a limit is raised (cross-multiplied averages). */
  lemma ImpactIsMonotone(ls: seq<Level>, usd: real, usd': real, cap: Option<real>, cap': Option<real>, descending: bool)
    requires Walkable(ls) && BestFirst(ls, descending)
    requires 0.0 < usd <= usd' && NoLooser(cap, cap') && (cap.Some? ==> cap.value >= 0.0)
    ensures var g, g' := Takes(ls, usd, cap), Takes(ls, usd', cap');
      && Total(g) <= Total(g')
      && (Total(g) > 0.0 ==>
          var vwap, vwap' := Notional(ls, g) / Total(g), Notional(ls, g') / Total(g');
          if descending then vwap' <= vwap else vwap <= vwap')
  {
    hide Cost, TakeAt, UsdAfter, Takes, Cut, Notional, Total;
    var g, g', k := Takes(ls, usd, cap), Takes(ls, usd', cap'), Cut(ls, usd, cap);
    TakesMonotone(ls, usd, usd', cap, cap');
    TakesFeasible(ls, usd, cap);
    TakesFeasible(ls, usd', cap');
    TotalNonnegative(ls, g);
    TakesShape(ls, usd, cap);
    PointwiseSums(ls, g, g');
    if k == |ls| {
      PointwiseSums(ls, g', g);
    } else {
      var zero := seq(|ls|, _ => 0.0);
      ZerosSum(ls, zero);
      GreedyPivot(ls, g', usd, cap, descending);
      GreedyPivot(ls, zero, usd, cap, descending);
      var n, s, n', s', p := Notional(ls, g), Total(g), Notional(ls, g'), Total(g'), ls[k].price;
      if s > 0.0 {
        if descending {
          AverageWorsens(n, s, n', s', p, true);
          DivCompare(n', s', n, s);
        } else {
          AverageWorsens(n, s, n', s', p, false);
          DivCompare(n, s, n', s');
        }
      }
    }
  }

  lemma AverageWorsens(n: real, s: real, n': real, s': real, p: real, descending: bool)
    requires s > 0.0 && s' >= s
    requires Beats(0.0 - n - Cost(0.0 - s, p), descending) && Beats(n' - n - Cost(s' - s, p), descending)
    ensures if descending then n' * s <= n * s' else n * s' <= n' * s
  {
    var d := s' - s;
    assert (0.0 - s) * p == -(p * s);
    var sign := if descending then -1.0 else 1.0;
    MulMono(sign * n, sign * (p * s), d);
    MulMono(sign * (p * d), sign * (n' - n), s);
    assert n * s' == n * s + n * d;
    assert n' * s == n * s + (n' - n) * s;
    assert p * s * d == p * d * s;
  }

  lemma DivCompare(a: real, b: real, c: real, d: real)
    requires b > 0.0 && d > 0.0 && a * d <= c * b
    ensures a / b <= c / d
  {
    var x, y := a / b, c / d;
    assert x * b == a && y * d == c;
    assert (x - y) * (b * d) == (x * b) * d - (y * d) * b <= 0.0;
    CostSign(x - y, b * d);
  }

  /** The average price lies between the best level and the last level consumed. */
  lemma {:induction false} AverageBetweenBestAndLast(ls: seq<Level>, a: seq<real>, last: nat, descending: bool)
    requires Walkable(ls) && BestFirst(ls, descending) && WithinLevels(ls, a) && last < |ls|
    requires forall i :: last < i < |ls| ==> a[i] == 0.0
    requires Total(a) > 0.0
    ensures var vwap := Notional(ls, a) / Total(a);
      if descending then ls[last].price <= vwap <= ls[0].price else ls[0].price <= vwap <= ls[last].price
  {
    hide Cost, Notional, Total;
    var zero := seq(|ls|, _ => 0.0);
    ZerosSum(ls, zero);
    var best, worst := ls[0].price, ls[last].price;
    forall i | 0 <= i < |ls|
      ensures Beats(Cost(a[i] - zero[i], ls[i].price - best), descending)
      ensures Beats(Cost(a[i] - zero[i], ls[i].price - worst), !descending)
    {
      assert InOrder(ls[0], ls[i], descending);
      assert i <= last ==> InOrder(ls[i], ls[last], descending);
      CostSign(a[i] - zero[i], ls[i].price - best);
      CostSign(a[i] - zero[i], ls[i].price - worst);
    }
    PivotBound(ls, a, zero, best, descending);
    PivotBound(ls, a, zero, worst, !descending);
    AverageAgainst(Notional(ls, a), Total(a), best);
    AverageAgainst(Notional(ls, a), Total(a), worst);
  }

  lemma AverageAgainst(n: real, s: real, price: real)
    requires s > 0.0
    ensures n >= Cost(s, price) ==> n / s >= price
    ensures n <= Cost(s, price) ==> n / s <= price
  {
    assert n / s * s == n;
    CostSign(n / s - price, s);
    CostSign(price - n / s, s);
  }

  // ---------- the loop ----------

  lemma {:induction false} DepthPositive(ls: seq<Level>)
    requires Walkable(ls)
    ensures Depth(ls) >= 0.0 && (ls != [] ==> Depth(ls) > 0.0)
  {
    if ls != [] {
      DepthPositive(ls[1..]);
    }
  }

  /** The loop of `walk_book`, level by level from the best price. */
  method WalkLevels(levels: seq<Level>, sizeUsd: real, maxShares: Option<real>)
    returns (shares: real, notional: real, remainingUsd: real, used: nat)
    requires Walkable(levels) && sizeUsd > 0.0
    ensures var g := Takes(levels, sizeUsd, maxShares);
      shares == Total(g) && notional == Notional(levels, g) && used == LevelsUsed(g)
    ensures remainingUsd == sizeUsd - notional >= 0.0 && shares >= 0.0 && (used > 0 <==> shares > 0.0)
  {
    hide Takes, Total, Notional, LevelsUsed, Cost;
    ghost var g := Takes(levels, sizeUsd, maxShares);
    remainingUsd := sizeUsd;
    var remainingShares := maxShares;
    shares, notional, used := 0.0, 0.0, 0;
    var i := 0;
    assert levels[0..] == levels;
    while i < |levels|
      invariant 0 <= i <= |levels|
      invariant remainingUsd == sizeUsd - notional && remainingUsd >= 0.0
      invariant shares >= 0.0 && (used > 0 <==> shares > 0.0)
      invariant Remainder(levels, g, levels[i..], remainingUsd, remainingShares, shares, notional, used)
    {
      if remainingUsd <= 0.0 {
        break;
      }
      if remainingShares.Some? && remainingShares.value <= 0.0 {
        break;
      }
      assert levels[i..][0] == levels[i] && levels[i..][1..] == levels[i + 1..];
      var lv := levels[i];
      var affordable := remainingUsd / lv.price;
      var take := Min(lv.size, affordable);
      if remainingShares.Some? {
        take := Min(take, remainingShares.value);
      }
      TakeFits(lv, remainingUsd, remainingShares);
      TakesStep(levels[i..], remainingUsd, remainingShares);
      var notionalBound := take == affordable;
      if remainingShares.Some? {
        remainingShares := Some(remainingShares.value - take);
      }
      shares := shares + take;
      notional := notional + Cost(take, lv.price);
      used := used + 1;
      i := i + 1;
      if notionalBound {
        remainingUsd := 0.0;
        break;
      }
      remainingUsd := remainingUsd - Cost(take, lv.price);
    }
    ZerosAfter(levels[i..], remainingUsd, remainingShares);
  }

  /**
   The market-order simulation: `walk_book`.  A fill reports the shares, the volume-weighted price,
   the depth and the levels of the greedy choice; it is `Filled` exactly when the money was spent.
   */
  method WalkBook(side: string, sizeUsd: real, bids: seq<BookLevel>, asks: seq<BookLevel>, maxShares: Option<real>)
    returns (r: Result<FillResult, string>)
    ensures r.Err? <==> sizeUsd <= 0.0 || (side != "BUY" && side != "SELL")
    ensures r.Ok? ==> var ls := Sorted(WalkedSide(side, bids, asks), side == "SELL");
      Walkable(ls) && r.value == WalkResult(ls, sizeUsd, maxShares)
  {
    hide Takes, Total, Notional, LevelsUsed, Cost;
    if sizeUsd <= 0.0 {
      return Err("size_usd must be positive");
    }
    if side != "BUY" && side != "SELL" {
      return Err("side must be BUY or SELL");
    }
    var levels := Sorted(WalkedSide(side, bids, asks), side == "SELL");
    UsableLevelsWalkable(if side == "BUY" then asks else bids);
    SortedIsBestFirst(WalkedSide(side, bids, asks), side == "SELL");
    var depth := Depth(levels);
    DepthPositive(levels);
    if levels == [] || depth <= 0.0 {
      ZerosAfter(levels, sizeUsd, maxShares);
      return Ok(FillResult(Missed, 0.0, None, 0.0, 0));
    }
    var shares, notional, remainingUsd, used := WalkLevels(levels, sizeUsd, maxShares);
    if shares <= 0.0 {
      ZeroSharesCostNothing(levels, Takes(levels, sizeUsd, maxShares), sizeUsd, maxShares);
      return Ok(FillResult(Missed, 0.0, None, depth, 0));
    }
    return Ok(FillResult(if remainingUsd <= 0.0 then Filled else Partial, shares, Some(notional / shares), depth, used));
  }

  /** The one result that reports the greedy walk of the given levels. */
  function WalkResult(ls: seq<Level>, sizeUsd: real, maxShares: Option<real>): (r: FillResult)
    requires Walkable(ls) && sizeUsd > 0.0
    ensures ReportsWalk(r, ls, sizeUsd, maxShares)
  {
    hide Cost, TakeAt, UsdAfter;
    var g := Takes(ls, sizeUsd, maxShares);
    ZeroSharesIfNone(ls, sizeUsd, maxShares);
    if Total(g) <= 0.0 then FillResult(Missed, 0.0, None, Depth(ls), 0)
    else FillResult(if Notional(ls, g) == sizeUsd then Filled else Partial,
                    Total(g), Some(Notional(ls, g) / Total(g)), Depth(ls), LevelsUsed(g))
  }

  lemma ZeroSharesIfNone(ls: seq<Level>, usd: real, cap: Option<real>)
    requires Walkable(ls)
    ensures var g := Takes(ls, usd, cap);
      Total(g) <= 0.0 ==> Total(g) == 0.0 && Notional(ls, g) == 0.0 && LevelsUsed(g) == 0
  {
    if Total(Takes(ls, usd, cap)) <= 0.0 {
      ZeroSharesCostNothing(ls, Takes(ls, usd, cap), usd, cap);
    }
  }

  /** What a fill result says about the greedy walk of the given levels. */
  ghost predicate ReportsWalk(r: FillResult, ls: seq<Level>, sizeUsd: real, maxShares: Option<real>)
    requires Walkable(ls)
  {
    var g := Takes(ls, sizeUsd, maxShares);
    && r.filledSize == Total(g) && r.depthAvailable == Depth(ls) && r.levelsConsumed == LevelsUsed(g)
    && (r.status.Missed? <==> Total(g) <= 0.0)
    && (r.status.Filled? <==> Notional(ls, g) == sizeUsd)
    && (if Total(g) > 0.0 then r.fillPrice == Some(Notional(ls, g) / Total(g)) else r.fillPrice == None)
  }

  lemma {:induction false} ZeroSharesCostNothing(ls: seq<Level>, g: seq<real>, usd: real, cap: Option<real>)
    requires Walkable(ls) && g == Takes(ls, usd, cap) && Total(g) <= 0.0
    ensures Total(g) == 0.0 && Notional(ls, g) == 0.0 && LevelsUsed(g) == 0
  {
    TakesFeasible(ls, usd, cap);
    AllZero(ls, g);
    ZerosSum(ls, g);
  }

  lemma {:induction false} AllZero(ls: seq<Level>, g: seq<real>)
    requires WithinLevels(ls, g) && Total(g) <= 0.0
    ensures forall i :: 0 <= i < |g| ==> g[i] == 0.0
  {
    if ls != [] {
      TotalNonnegative(ls[1..], g[1..]);
      AllZero(ls[1..], g[1..]);
    }
  }

  /** The shares, money and levels seen so far, plus those of the rest of the walk, make up the whole. */
  ghost predicate Remainder(
    ls: seq<Level>, g: seq<real>, rest: seq<Level>, usd: real, cap: Option<real>,
    shares: real, notional: real, used: nat)
    requires |g| == |ls| && Walkable(rest)
  {
    var tail := Takes(rest, usd, cap);
    && Total(g) == shares + Total(tail)
    && Notional(ls, g) == notional + Notional(rest, tail)
    && LevelsUsed(g) == used + LevelsUsed(tail)
  }

  lemma ZerosAfter(ls: seq<Level>, usd: real, cap: Option<real>)
    requires Walkable(ls) && (ls == [] || Exhausted(usd, cap))
    ensures var g := Takes(ls, usd, cap); Total(g) == 0.0 && Notional(ls, g) == 0.0 && LevelsUsed(g) == 0
  {
    ZerosSum(ls, Takes(ls, usd, cap));
  }

  // ---------- what a reported fill is worth ----------

  lemma {:induction false} WithinDepth(ls: seq<Level>, g: seq<real>)
    requires WithinLevels(ls, g)
    ensures Total(g) <= Depth(ls)
    ensures (forall i :: 0 <= i < |ls| ==> g[i] == ls[i].size) ==> Total(g) == Depth(ls)
  {
    if ls != [] {
      WithinDepth(ls[1..], g[1..]);
    }
  }

  /**
   A fill never exceeds the depth, the cap or the money; a walk that did not spend the money
   ran out of depth or into the cap, and nothing else makes it stop.
   */
  lemma FillWithinLimits(r: FillResult, ls: seq<Level>, usd: real, cap: Option<real>)
    requires Walkable(ls) && usd > 0.0 && ReportsWalk(r, ls, usd, cap)
    ensures 0.0 <= r.filledSize <= r.depthAvailable
    ensures (cap.Some? && cap.value >= 0.0) ==> r.filledSize <= cap.value
    ensures (cap.Some? && cap.value <= 0.0) ==> r.status.Missed?
    ensures r.fillPrice.Some? ==> 0.0 <= Cost(r.fillPrice.value, r.filledSize) <= usd
    ensures !r.status.Filled? && (cap.Some? ==> cap.value > 0.0) ==>
              r.filledSize == r.depthAvailable || (cap.Some? && r.filledSize == cap.value)
  {
    hide Takes, Cut, Total, Notional, LevelsUsed, Cost;
    var g := Takes(ls, usd, cap);
    TakesFeasible(ls, usd, cap);
    TotalNonnegative(ls, g);
    WithinDepth(ls, g);
    if Total(g) > 0.0 {
      AverageTimesShares(Notional(ls, g), Total(g));
    }
    if cap.Some? && cap.value <= 0.0 {
      ZerosAfterIfExhausted(ls, usd, cap);
    } else {
      TakesShape(ls, usd, cap);
    }
  }

  lemma AverageTimesShares(n: real, s: real)
    requires s > 0.0
    ensures Cost(n / s, s) == n
  {
  }

  lemma ZerosAfterIfExhausted(ls: seq<Level>, usd: real, cap: Option<real>)
    requires Walkable(ls) && Exhausted(usd, cap)
    ensures Total(Takes(ls, usd, cap)) == 0.0
  {
    ZerosSum(ls, Takes(ls, usd, cap));
  }

  /** The levels consumed are the first ones, each of them gives shares, and no later one does. */
  lemma {:induction false} UsedLevelsComeFirst(ls: seq<Level>, usd: real, cap: Option<real>)
    requires Walkable(ls)
    ensures var g := Takes(ls, usd, cap);
      && LevelsUsed(g) <= |ls|
      && (forall i :: 0 <= i < LevelsUsed(g) ==> g[i] > 0.0)
      && (forall i :: LevelsUsed(g) <= i < |ls| ==> g[i] == 0.0)
  {
    hide Cost, TakeAt, UsdAfter, Total, Notional;
    if ls == [] {
    } else if Exhausted(usd, cap) {
      ZerosSum(ls, Takes(ls, usd, cap));
    } else {
      var t := TakeAt(ls[0], usd, cap);
      TakeFits(ls[0], usd, cap);
      TakesStep(ls, usd, cap);
      UsedLevelsComeFirst(ls[1..], UsdAfter(ls[0], usd, t), CapAfter(cap, t));
    }
  }

  /** The reported price lies between the best price and that of the last level consumed. */
  lemma FillPriceWithinConsumedLevels(r: FillResult, ls: seq<Level>, usd: real, cap: Option<real>, descending: bool)
    requires Walkable(ls) && BestFirst(ls, descending) && ReportsWalk(r, ls, usd, cap) && !r.status.Missed?
    ensures 0 < r.levelsConsumed <= |ls|
    ensures var best, last, price := ls[0].price, ls[r.levelsConsumed - 1].price, r.fillPrice.value;
      if descending then last <= price <= best else best <= price <= last
  {
    hide Cost, TakeAt, UsdAfter, Takes, Notional;
    var g := Takes(ls, usd, cap);
    TakesFeasible(ls, usd, cap);
    UsedLevelsComeFirst(ls, usd, cap);
    if LevelsUsed(g) == 0 {
      ZerosSum(ls, g);
    }
    AverageBetweenBestAndLast(ls, g, LevelsUsed(g) - 1, descending);
  }
}
