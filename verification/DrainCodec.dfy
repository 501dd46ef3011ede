/**
 Frames can be written as lines the way the drain's file needs it: here is one encoder, its decoder, and
 the proof that together they are a `Codec`.  A frame becomes a binary tree, a tree a word over two
 bytes that no other word starts with, and a line is that word between a byte used nowhere else and a
 newline.
 */
module DrainCodec {
  import opened Wrappers
  import opened Drain
  import opened OffsetIndex
  import opened DrainFile

  datatype Tree = Leaf(n: nat) | Pair(left: Tree, right: Tree)

  // ---------- trees as words ----------

  function Unary(n: nat): Bytes {
    if n == 0 then [0] else [1] + Unary(n - 1)
  }

  function Word(t: Tree): Bytes {
    match t
    case Leaf(n) => [0] + Unary(n)
    case Pair(a, b) => [1] + (Word(a) + Word(b))
  }

  predicate Binary(b: Bytes) {
    forall i :: 0 <= i < |b| ==> b[i] == 0 || b[i] == 1
  }

  lemma {:induction false} UnaryBinary(n: nat)
    ensures Binary(Unary(n))
  {
    if n > 0 {
      UnaryBinary(n - 1);
    }
  }

  lemma {:induction false} WordBinary(t: Tree)
    ensures Binary(Word(t))
  {
    match t
    case Leaf(n) => UnaryBinary(n);
    case Pair(a, b) =>
      WordBinary(a);
      WordBinary(b);
  }

  lemma {:induction false} UnaryReads(m: nat, n: nat, r: Bytes, s: Bytes)
    requires Unary(m) + r == Unary(n) + s
    ensures m == n && r == s
  {
    assert (Unary(m) + r)[0] == (Unary(n) + s)[0];
    if m > 0 && n > 0 {
      assert (Unary(m) + r)[1..] == Unary(m - 1) + r;
      assert (Unary(n) + s)[1..] == Unary(n - 1) + s;
      UnaryReads(m - 1, n - 1, r, s);
    } else {
      assert (Unary(m) + r)[1..] == r;
      assert (Unary(n) + s)[1..] == s;
    }
  }

  /** No word starts another. */
  lemma {:induction false} WordReads(t: Tree, u: Tree, r: Bytes, s: Bytes)
    requires Word(t) + r == Word(u) + s
    ensures t == u && r == s
    decreases t
  {
    hide Unary;
    assert (Word(t) + r)[0] == (Word(u) + s)[0];
    match t
    case Leaf(m) =>
      assert u.Leaf?;
      AfterFirst(0, Unary(m), r);
      AfterFirst(0, Unary(u.n), s);
      UnaryReads(m, u.n, r, s);
    case Pair(a, b) =>
      assert u.Pair?;
      AfterFirst(1, Word(a) + Word(b), r);
      AfterFirst(1, Word(u.left) + Word(u.right), s);
      Regrouped(Word(a), Word(b), r);
      Regrouped(Word(u.left), Word(u.right), s);
      WordReads(a, u.left, Word(b) + r, Word(u.right) + s);
      WordReads(b, u.right, r, s);
  }

  lemma AfterFirst(x: Byte, a: Bytes, r: Bytes)
    ensures ([x] + a + r)[1..] == a + r
  {
  }

  lemma Regrouped(a: Bytes, b: Bytes, r: Bytes)
    ensures a + b + r == a + (b + r)
  {
  }

  // ---------- frames as trees ----------

  function IntTree(n: int): Tree {
    if n >= 0 then Leaf(2 * n) else Leaf(-2 * n - 1)
  }

  function CharTree(c: char): Tree {
    Leaf(c as int)
  }

  function FlagTree(b: bool): Tree {
    Leaf(if b then 1 else 0)
  }

  function OptionTree<T>(o: Option<T>, f: T -> Tree): Tree {
    match o
    case None => Leaf(0)
    case Some(x) => Pair(Leaf(0), f(x))
  }

  function ListTree<T>(xs: seq<T>, f: T -> Tree): Tree {
    if xs == [] then Leaf(0) else Pair(f(xs[0]), ListTree(xs[1..], f))
  }

  ghost predicate Injective<T(!new)>(f: T -> Tree) {
    forall x, y :: f(x) == f(y) ==> x == y
  }

  lemma {:induction false} ListReads<T(!new)>(xs: seq<T>, ys: seq<T>, f: T -> Tree)
    requires Injective(f) && ListTree(xs, f) == ListTree(ys, f)
    ensures xs == ys
    decreases |xs|
  {
    if xs != [] {
      assert ys != [];
      ListReads(xs[1..], ys[1..], f);
      assert xs == [xs[0]] + xs[1..] && ys == [ys[0]] + ys[1..];
    }
  }

  lemma OptionReads<T(!new)>(o: Option<T>, p: Option<T>, f: T -> Tree)
    requires Injective(f) && OptionTree(o, f) == OptionTree(p, f)
    ensures o == p
  {
  }

  function TextTree(s: string): Tree {
    ListTree(s, CharTree)
  }

  function FactTree(f: Fact): Tree {
    Pair(IntTree(f.recordId), Pair(TextTree(f.eventId), IntTree(f.detail)))
  }

  function DecisionTree(d: Decision): Tree {
    Pair(TextTree(d.eventId), Pair(OptionTree(d.decided, IntTree), IntTree(d.detail)))
  }

  function MarkTree(m: Mark): Tree {
    Pair(Leaf(match m.state case Recorded => 0 case NoDecisionExpected => 1 case Pending => 2 case CaptureError => 3),
         OptionTree(m.decision, DecisionTree))
  }

  function FaultTree(f: Fault): Tree {
    match f
    case SafetyTimeout => Leaf(0)
    case SourceChanged => Leaf(1)
    case DecisionRetention => Leaf(2)
    case OutsideFrozenSet => Leaf(3)
    case DecisionConflict => Leaf(4)
    case OtherFault(text) => Pair(Leaf(0), TextTree(text))
  }

  datatype Entry = Entry(key: string, mark: Mark)

  function EntryTree(e: Entry): Tree {
    Pair(TextTree(e.key), MarkTree(e.mark))
  }

  lemma IntInjective()
    ensures Injective(IntTree)
  {
  }

  lemma TextInjective()
    ensures Injective(TextTree)
  {
    forall s, t | TextTree(s) == TextTree(t)
      ensures s == t
    {
      assert Injective(CharTree);
      ListReads(s, t, CharTree);
    }
  }

  lemma FactInjective()
    ensures Injective(FactTree)
  {
    TextInjective();
    IntInjective();
  }

  lemma DecisionInjective()
    ensures Injective(DecisionTree)
  {
    TextInjective();
    IntInjective();
    forall d, e | DecisionTree(d) == DecisionTree(e)
      ensures d == e
    {
      OptionReads(d.decided, e.decided, IntTree);
    }
  }

  lemma MarkInjective()
    ensures Injective(MarkTree)
  {
    DecisionInjective();
    forall m, n | MarkTree(m) == MarkTree(n)
      ensures m == n
    {
      OptionReads(m.decision, n.decision, DecisionTree);
    }
  }

  lemma FaultInjective()
    ensures Injective(FaultTree)
  {
    TextInjective();
  }

  lemma EntryInjective()
    ensures Injective(EntryTree)
  {
    TextInjective();
    MarkInjective();
  }

  // ----- the table of marks -----

  ghost predicate Lists(m: map<string, Mark>, entries: seq<Entry>) {
    forall k, v :: Entry(k, v) in entries <==> k in m && m[k] == v
  }

  lemma {:induction false} ListingExists(m: map<string, Mark>)
    ensures exists entries :: Lists(m, entries)
    decreases |m|
  {
    if m == map[] {
      assert Lists(m, []);
    } else {
      var k :| k in m;
      var rest := m - {k};
      assert m.Keys == rest.Keys + {k};
      ListingExists(rest);
      var entries :| Lists(rest, entries);
      assert Lists(m, entries + [Entry(k, m[k])]);
    }
  }

  ghost function Listed(m: map<string, Mark>): (entries: seq<Entry>)
    ensures Lists(m, entries)
  {
    ListingExists(m);
    var entries :| Lists(m, entries);
    entries
  }

  lemma ListedInjective(m: map<string, Mark>, n: map<string, Mark>)
    requires Listed(m) == Listed(n)
    ensures m == n
  {
    forall k
      ensures k in m <==> k in n
      ensures k in m ==> k in n && m[k] == n[k]
    {
      if k in m {
        assert Entry(k, m[k]) in Listed(m);
      }
      if k in n {
        assert Entry(k, n[k]) in Listed(n);
      }
    }
  }

  function CountsTree(c: Counts): Tree {
    Pair(Pair(IntTree(c.recorded), IntTree(c.noDecision)), Pair(IntTree(c.pending), IntTree(c.captureError)))
  }

  ghost function FrameTree(f: Frame): Tree {
    Pair(Pair(Pair(Pair(IntTree(f.binding), IntTree(f.cursor)), Pair(PreviousTree(f.previous), IntTree(f.observed))),
              Pair(ListTree(f.frozenIds, IntTree), ListTree(f.facts, FactTree))),
         Pair(Pair(ListTree(Listed(f.perId), EntryTree), Pair(CountsTree(f.counts), OptionTree(f.error, FaultTree))),
              Pair(Leaf(match f.state case Failed => 0 case Complete => 1 case Draining => 2),
                   Pair(FlagTree(f.eligible), FlagTree(f.admissionUnproven)))))
  }

  ghost function PreviousTree(p: Option<Frame>): Tree {
    match p
    case None => Leaf(0)
    case Some(f) => Pair(Leaf(0), FrameTree(f))
  }

  lemma {:induction false} FrameReads(f: Frame, g: Frame)
    requires FrameTree(f) == FrameTree(g)
    ensures f == g
    decreases f
  {
    hide ListTree, OptionTree, Listed, CountsTree;
    IntInjective();
    FactInjective();
    EntryInjective();
    FaultInjective();
    ListReads(f.frozenIds, g.frozenIds, IntTree);
    ListReads(f.facts, g.facts, FactTree);
    ListReads(Listed(f.perId), Listed(g.perId), EntryTree);
    ListedInjective(f.perId, g.perId);
    OptionReads(f.error, g.error, FaultTree);
    CountsRead(f.counts, g.counts);
    if f.previous.Some? {
      assert g.previous.Some?;
      FrameReads(f.previous.value, g.previous.value);
    }
  }

  lemma CountsRead(c: Counts, d: Counts)
    requires CountsTree(c) == CountsTree(d)
    ensures c == d
  {
  }

  // ---------- lines ----------

  const MARK: Byte := 2

  ghost function Encoded(f: Frame): Bytes {
    [MARK] + Word(FrameTree(f)) + [NEWLINE]
  }

  ghost predicate Encodes(b: Bytes, f: Frame) {
    Encoded(f) == b
  }

  ghost function Decoded(b: Bytes): Option<Frame> {
    if f :| Encodes(b, f) then Some(f) else None
  }

  lemma EncodedShape(f: Frame)
    ensures var b := Encoded(f);
      && |b| >= 2 && b[0] == MARK && IsLine(b)
      && forall i :: 1 <= i < |b| ==> b[i] != MARK
  {
    WordBinary(FrameTree(f));
  }

  lemma EncodedReads(f: Frame, g: Frame)
    requires Encoded(f) == Encoded(g)
    ensures f == g
  {
    hide Word, FrameTree;
    assert Encoded(f)[1..] == Word(FrameTree(f)) + [NEWLINE];
    assert Encoded(g)[1..] == Word(FrameTree(g)) + [NEWLINE];
    WordReads(FrameTree(f), FrameTree(g), [NEWLINE], [NEWLINE]);
    FrameReads(f, g);
  }

  /** What the file theorems ask of an encoder and its decoder can be met. */
  lemma CodecExists()
    ensures Codec(Encoded, Decoded)
  {
    hide Encoded, IsLine;
    forall f
      ensures IsLine(Encoded(f)) && Decoded(Encoded(f)) == Some(f)
    {
      EncodedShape(f);
      assert Encodes(Encoded(f), f);
      EncodedReads(f, Decoded(Encoded(f)).value);
    }
    forall f, g, k | 0 < k < |Encoded(f)|
      ensures Decoded(Encoded(f)[..k] + Encoded(g)).None?
    {
      GluedIsNoFrame(f, g, k);
    }
  }

  /** The mark would stand inside the line. */
  lemma GluedIsNoFrame(f: Frame, g: Frame, k: nat)
    requires 0 < k < |Encoded(f)|
    ensures Decoded(Encoded(f)[..k] + Encoded(g)).None?
  {
    hide Encoded, IsLine;
    var b := Encoded(f)[..k] + Encoded(g);
    EncodedShape(g);
    assert b[k] == MARK;
    forall h
      ensures !Encodes(b, h)
    {
      EncodedShape(h);
    }
  }
}
