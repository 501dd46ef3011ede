/**
 The walked side of the order book, stated on the book as it was given: bad levels, both sides, any
 order.  `BookWalk` filters, sorts and walks; nothing below mentions how.
 */
module BookSides {
  import opened Wrappers
  import opened BookWalk

  /** Shares traded level by level of the raw book: nothing at a level that is not a real price and size. */
  predicate OnBook(book: seq<BookLevel>, a: seq<real>) {
    && |a| == |book|
    && forall i :: 0 <= i < |book| ==>
         && a[i] >= 0.0
         && (a[i] > 0.0 ==>
               && book[i].price.Finite? && book[i].size.Finite?
               && 0.0 < book[i].price.v <= 1.0 && a[i] <= book[i].size.v)
  }

  /** What they cost, or raise. */
  function Spent(book: seq<BookLevel>, a: seq<real>): real
    requires |a| == |book|
  {
    if book == [] then 0.0
    else (if book[0].price.Finite? then Cost(a[0], book[0].price.v) else 0.0) + Spent(book[1..], a[1..])
  }

  /** The shares on offer at real prices. */
  function Offered(book: seq<BookLevel>): real {
    if book == [] then 0.0
    else
      var lv := book[0];
      (if lv.price.Finite? && lv.size.Finite? && 0.0 < lv.price.v <= 1.0 && lv.size.v > 0.0 then lv.size.v else 0.0)
      + Offered(book[1..])
  }

  // ---------- from the raw book to the filtered one, and back ----------

  ghost function Kept(book: seq<BookLevel>, a: seq<real>): seq<real>
    requires |a| == |book|
  {
    if book == [] then []
    else if Usable(book[0]) then [a[0]] + Kept(book[1..], a[1..])
    else Kept(book[1..], a[1..])
  }

  lemma {:induction false} KeptSums(book: seq<BookLevel>, a: seq<real>)
    requires OnBook(book, a)
    ensures var ls, b := UsableLevels(book), Kept(book, a);
      WithinLevels(ls, b) && Total(b) == Total(a) && Notional(ls, b) == Spent(book, a)
  {
    hide Cost;
    if book != [] {
      KeptSums(book[1..], a[1..]);
      var ls, b := UsableLevels(book[1..]), Kept(book[1..], a[1..]);
      if Usable(book[0]) {
        var first := Level(book[0].price.v, book[0].size.v);
        assert ([first] + ls)[1..] == ls && ([a[0]] + b)[1..] == b;
        WithinLevelsStep([first] + ls, a[0], b);
      } else {
        NothingCosts(book[0]);
      }
    }
  }

  lemma NothingCosts(lv: BookLevel)
    ensures lv.price.Finite? ==> Cost(0.0, lv.price.v) == 0.0
  {
  }

  ghost function Spread(book: seq<BookLevel>, b: seq<real>): (a: seq<real>)
    requires |b| == |UsableLevels(book)|
    ensures |a| == |book|
  {
    if book == [] then []
    else if Usable(book[0]) then [b[0]] + Spread(book[1..], b[1..])
    else [0.0] + Spread(book[1..], b)
  }

  lemma {:induction false} SpreadSums(book: seq<BookLevel>, b: seq<real>)
    requires WithinLevels(UsableLevels(book), b)
    ensures var a := Spread(book, b);
      OnBook(book, a) && Total(a) == Total(b) && Spent(book, a) == Notional(UsableLevels(book), b)
  {
    hide Cost;
    if book != [] {
      var ls := UsableLevels(book[1..]);
      NothingCosts(book[0]);
      if Usable(book[0]) {
        var first := Level(book[0].price.v, book[0].size.v);
        assert UsableLevels(book) == [first] + ls;
        assert ([first] + ls)[1..] == ls;
        forall i | 0 <= i < |ls|
          ensures 0.0 <= b[1..][i] <= ls[i].size
        {
          assert ([first] + ls)[i + 1] == ls[i];
        }
        SpreadSums(book[1..], b[1..]);
        SpreadStep(book, b[0], Spread(book[1..], b[1..]));
      } else {
        SpreadSums(book[1..], b);
        SpreadStep(book, 0.0, Spread(book[1..], b));
      }
    }
  }

  lemma SpreadStep(book: seq<BookLevel>, t: real, rest: seq<real>)
    requires book != [] && OnBook(book[1..], rest) && t >= 0.0
    requires t > 0.0 ==> Usable(book[0]) && t <= book[0].size.v
    ensures var a := [t] + rest;
      && OnBook(book, a) && Total(a) == t + Total(rest)
      && Spent(book, a) == (if book[0].price.Finite? then Cost(t, book[0].price.v) else 0.0) + Spent(book[1..], rest)
  {
    hide Cost;
    var a := [t] + rest;
    assert a[1..] == rest;
    forall i | 0 <= i < |book|
      ensures a[i] >= 0.0
      ensures a[i] > 0.0 ==>
        book[i].price.Finite? && book[i].size.Finite? && 0.0 < book[i].price.v <= 1.0 && a[i] <= book[i].size.v
    {
      if i > 0 {
        assert a[i] == rest[i - 1] && book[i] == book[1..][i - 1];
      }
    }
  }

  // ---------- from the sorted levels back to the unsorted ones ----------

  ghost function Uninsert(x: Level, ls: seq<Level>, b: seq<real>, descending: bool): (r: (real, seq<real>))
    requires |b| == |Insert(x, ls, descending)|
    ensures |r.1| == |ls|
  {
    if ls == [] || InOrder(x, ls[0], descending) then (b[0], b[1..])
    else
      var r := Uninsert(x, ls[1..], b[1..], descending);
      (r.0, [b[0]] + r.1)
  }

  lemma {:induction false} UninsertSums(x: Level, ls: seq<Level>, b: seq<real>, descending: bool)
    requires WithinLevels(Insert(x, ls, descending), b)
    ensures var r := Uninsert(x, ls, b, descending);
      && 0.0 <= r.0 <= x.size && WithinLevels(ls, r.1)
      && Total(b) == r.0 + Total(r.1)
      && Notional(Insert(x, ls, descending), b) == Cost(r.0, x.price) + Notional(ls, r.1)
  {
    hide Cost;
    if ls == [] || InOrder(x, ls[0], descending) {
      WithinTail([x] + ls, b);
      assert ([x] + ls)[1..] == ls;
    } else {
      var rest := Insert(x, ls[1..], descending);
      assert ([ls[0]] + rest)[1..] == rest;
      WithinTail([ls[0]] + rest, b);
      UninsertSums(x, ls[1..], b[1..], descending);
      var r := Uninsert(x, ls[1..], b[1..], descending);
      WithinLevelsStep(ls, b[0], r.1);
      assert ([b[0]] + r.1)[1..] == r.1;
    }
  }

  lemma WithinTail(ls: seq<Level>, b: seq<real>)
    requires ls != [] && WithinLevels(ls, b)
    ensures WithinLevels(ls[1..], b[1..])
  {
  }

  ghost function Unsorted(ls: seq<Level>, b: seq<real>, descending: bool): (a: seq<real>)
    requires |b| == |Sorted(ls, descending)|
    ensures |a| == |ls|
  {
    if ls == [] then []
    else
      var r := Uninsert(ls[0], Sorted(ls[1..], descending), b, descending);
      [r.0] + Unsorted(ls[1..], r.1, descending)
  }

  lemma {:induction false} UnsortedSums(ls: seq<Level>, b: seq<real>, descending: bool)
    requires WithinLevels(Sorted(ls, descending), b)
    ensures var a := Unsorted(ls, b, descending);
      WithinLevels(ls, a) && Total(a) == Total(b) && Notional(ls, a) == Notional(Sorted(ls, descending), b)
  {
    hide Cost;
    if ls != [] {
      UninsertSums(ls[0], Sorted(ls[1..], descending), b, descending);
      var r := Uninsert(ls[0], Sorted(ls[1..], descending), b, descending);
      UnsortedSums(ls[1..], r.1, descending);
      var rest := Unsorted(ls[1..], r.1, descending);
      WithinLevelsStep(ls, r.0, rest);
      assert ([r.0] + rest)[1..] == rest;
    }
  }

  lemma {:induction false} OfferedIsDepth(book: seq<BookLevel>)
    ensures Depth(UsableLevels(book)) == Offered(book)
  {
    if book != [] {
      OfferedIsDepth(book[1..]);
    }
  }

  lemma {:induction false} InsertDepth(x: Level, ls: seq<Level>, descending: bool)
    ensures Depth(Insert(x, ls, descending)) == x.size + Depth(ls)
  {
    if !(ls == [] || InOrder(x, ls[0], descending)) {
      InsertDepth(x, ls[1..], descending);
    }
  }

  lemma {:induction false} SortedDepth(ls: seq<Level>, descending: bool)
    ensures Depth(Sorted(ls, descending)) == Depth(ls)
  {
    if ls != [] {
      SortedDepth(ls[1..], descending);
      InsertDepth(ls[0], Sorted(ls[1..], descending), descending);
    }
  }

  // ---------- the market order on the raw book ----------

  /** What the fill of an order is worth in money. */
  function Worth(r: FillResult): real {
    if r.fillPrice.Some? then Cost(r.filledSize, r.fillPrice.value) else 0.0
  }

  /** The fill is one that the book, the money and the cap allow. */
  ghost predicate Achieved(book: seq<BookLevel>, r: FillResult, usd: real, cap: Option<real>) {
    exists a :: OnBook(book, a) && Spent(book, a) <= usd && WithinCap(Total(a), cap)
      && Total(a) == r.filledSize && Spent(book, a) == Worth(r)
  }

  lemma WalkAchieved(book: seq<BookLevel>, usd: real, cap: Option<real>, descending: bool)
    requires usd > 0.0 && (cap.Some? ==> cap.value >= 0.0) && Walkable(Sorted(UsableLevels(book), descending))
    ensures Achieved(book, WalkResult(Sorted(UsableLevels(book), descending), usd, cap), usd, cap)
  {
    hide Cost, Takes, Total, Notional, LevelsUsed, Depth, WithinLevels, Spent, OnBook, UsableLevels, Sorted;
    var ls := UsableLevels(book);
    var out := Sorted(ls, descending);
    var g := Takes(out, usd, cap);
    TakesFeasible(out, usd, cap);
    assert WithinLevels(out, g);
    UnsortedSums(ls, g, descending);
    var b := Unsorted(ls, g, descending);
    SpreadSums(book, b);
    var a := Spread(book, b);
    var r := WalkResult(out, usd, cap);
    WorthIsNotional(out, usd, cap);
    assert OnBook(book, a) && Total(a) == r.filledSize && Spent(book, a) == Worth(r);
  }

  lemma WorthIsNotional(ls: seq<Level>, usd: real, cap: Option<real>)
    requires Walkable(ls) && usd > 0.0
    ensures var r := WalkResult(ls, usd, cap);
      && Worth(r) == Notional(ls, Takes(ls, usd, cap)) && r.filledSize == Total(Takes(ls, usd, cap))
      && (r.status.Filled? <==> Worth(r) == usd) && (r.status.Missed? <==> r.filledSize == 0.0)
      && r.depthAvailable == Depth(ls)
  {
    hide Takes, Notional, Total, LevelsUsed, Depth, Cost;
    var g := Takes(ls, usd, cap);
    ZeroSharesIfNone(ls, usd, cap);
    if Total(g) > 0.0 {
      SharesTimesAverage(Notional(ls, g), Total(g));
    }
  }

  lemma SharesTimesAverage(n: real, s: real)
    requires s > 0.0
    ensures Cost(s, n / s) == n
  {
  }

  /**
   A BUY is the most shares the given asks can sell for the money under the cap, whatever the bids, the
   order of the levels and the bad levels among them; and it is attained.
   */
  lemma BuyIsBestOnAsks(bids: seq<BookLevel>, asks: seq<BookLevel>, usd: real, cap: Option<real>)
    requires usd > 0.0
    ensures Walkable(Sorted(WalkedSide("BUY", bids, asks), false))
    ensures var r := WalkResult(Sorted(WalkedSide("BUY", bids, asks), false), usd, cap);
      && ((cap.Some? ==> cap.value >= 0.0) ==> Achieved(asks, r, usd, cap))
      && (forall a :: OnBook(asks, a) && Spent(asks, a) <= usd && WithinCap(Total(a), cap) ==> Total(a) <= r.filledSize)
      && r.depthAvailable == Offered(asks)
      && (r.status.Filled? <==> Worth(r) == usd) && (r.status.Missed? <==> r.filledSize == 0.0)
  {
    hide Cost, Takes, Total, Notional, LevelsUsed, Depth, WithinLevels, Spent, UsableLevels, Sorted, Offered, WithinCap, WalkResult;
    var ls := UsableLevels(asks);
    UsableLevelsWalkable(asks);
    SortedIsBestFirst(ls, false);
    WorthIsNotional(Sorted(ls, false), usd, cap);
    if cap.Some? ==> cap.value >= 0.0 {
      WalkAchieved(asks, usd, cap, false);
    }
    forall a | OnBook(asks, a) && Spent(asks, a) <= usd && WithinCap(Total(a), cap)
      ensures Total(a) <= Total(Takes(Sorted(ls, false), usd, cap))
    {
      KeptSums(asks, a);
      BuyWalkIsOptimal(asks, Kept(asks, a), usd, cap);
    }
    OfferedIsDepth(asks);
    SortedDepth(ls, false);
  }

  /** A SELL raises the most money the given bids can pay under the cap and the money limit; and it is attained. */
  lemma SellIsBestOnBids(bids: seq<BookLevel>, asks: seq<BookLevel>, usd: real, cap: Option<real>)
    requires usd > 0.0
    ensures Walkable(Sorted(WalkedSide("SELL", bids, asks), true))
    ensures var r := WalkResult(Sorted(WalkedSide("SELL", bids, asks), true), usd, cap);
      && ((cap.Some? ==> cap.value >= 0.0) ==> Achieved(bids, r, usd, cap))
      && (forall a :: OnBook(bids, a) && Spent(bids, a) <= usd && WithinCap(Total(a), cap) ==> Spent(bids, a) <= Worth(r))
      && r.depthAvailable == Offered(bids)
      && (r.status.Filled? <==> Worth(r) == usd) && (r.status.Missed? <==> r.filledSize == 0.0)
  {
    hide Cost, Takes, Total, Notional, LevelsUsed, Depth, WithinLevels, Spent, UsableLevels, Sorted, Offered, WithinCap, WalkResult;
    var ls := UsableLevels(bids);
    UsableLevelsWalkable(bids);
    SortedIsBestFirst(ls, true);
    WorthIsNotional(Sorted(ls, true), usd, cap);
    if cap.Some? ==> cap.value >= 0.0 {
      WalkAchieved(bids, usd, cap, true);
    }
    forall a | OnBook(bids, a) && Spent(bids, a) <= usd && WithinCap(Total(a), cap)
      ensures Spent(bids, a) <= Notional(Sorted(ls, true), Takes(Sorted(ls, true), usd, cap))
    {
      KeptSums(bids, a);
      SellWalkIsOptimal(bids, Kept(bids, a), usd, cap);
    }
    OfferedIsDepth(bids);
    SortedDepth(ls, true);
  }
}
