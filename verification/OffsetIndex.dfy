/**
 The byte-offset index over an append-only line journal (bounded_journal.py, `JournalSequence`).  The
 index holds positions and lengths only; the file's bytes are the authority.  A line is any bytes
 that end in a newline and hold no other.
 */
module OffsetIndex {
  import opened Wrappers

  type Byte = bv8
  type Bytes = seq<Byte>

  const NEWLINE: Byte := 10

  predicate IsLine(line: Bytes) {
    && line != [] && line[|line| - 1] == NEWLINE
    && forall i :: 0 <= i < |line| - 1 ==> line[i] != NEWLINE
  }

  ghost predicate AllLines(lines: seq<Bytes>) {
    forall i :: 0 <= i < |lines| ==> IsLine(lines[i])
  }

  /** The plain file: the lines one after another. */
  function Concat(lines: seq<Bytes>): Bytes {
    if lines == [] then [] else Concat(lines[..|lines| - 1]) + lines[|lines| - 1]
  }

  datatype Row = Row(position: nat, length: nat)

  /** The row `append` inserts: right after the last one. */
  function NextRow(rows: seq<Row>, length: nat): Row {
    if rows == [] then Row(0, length) else Row(rows[|rows| - 1].position + rows[|rows| - 1].length, length)
  }

  /** Positions are the prefix sums of the line lengths. */
  ghost predicate Indexes(rows: seq<Row>, lines: seq<Bytes>) {
    && |rows| == |lines|
    && forall i :: 0 <= i < |rows| ==> rows[i] == Row(|Concat(lines[..i])|, |lines[i]|)
  }

  /** The bytes a row names, or None where the program reports changed or torn authority. */
  function ReadRow(file: Bytes, r: Row): Option<Bytes>
  {
    if r.position > |file| then None
    else
      var end := if r.position + r.length <= |file| then r.position + r.length else |file|;
      var data := file[r.position..end];
      if |data| != r.length || data == [] || data[|data| - 1] != NEWLINE then None else Some(data)
  }

  /** A row reads back exactly where the file still has all its bytes, one at least, the last of them a line end; and it reads those. */
  lemma ReadRowIff(file: Bytes, r: Row)
    ensures ReadRow(file, r).Some? <==>
      r.length > 0 && r.position + r.length <= |file| && file[r.position + r.length - 1] == NEWLINE
    ensures ReadRow(file, r).Some? ==> ReadRow(file, r).value == file[r.position..r.position + r.length]
  {
  }

  lemma {:induction false} ConcatSplits(lines: seq<Bytes>, i: nat)
    requires i <= |lines|
    ensures Concat(lines) == Concat(lines[..i]) + Concat(lines[i..])
    decreases |lines|
  {
    if i == |lines| {
      assert lines[..i] == lines && lines[i..] == [];
    } else {
      var n := |lines| - 1;
      ConcatSplits(lines[..n], i);
      assert lines[..n][..i] == lines[..i];
      assert lines[i..][..n - i] == lines[..n][i..];
      assert lines[i..][|lines[i..]| - 1] == lines[n];
    }
  }

  /** The line at an index sits in the file where the prefix sums put it. */
  lemma LineInPlace(lines: seq<Bytes>, i: nat)
    requires i < |lines|
    ensures var p := |Concat(lines[..i])|;
      p + |lines[i]| <= |Concat(lines)| && Concat(lines)[p..p + |lines[i]|] == lines[i]
  {
    ConcatSplits(lines, i + 1);
    assert lines[..i + 1][..i] == lines[..i];
    var p, rest := Concat(lines[..i]), Concat(lines[i + 1..]);
    assert Concat(lines[..i + 1]) == p + lines[i];
    assert Concat(lines) == p + lines[i] + rest;
  }

  /** An appended line gets the next row. */
  lemma AppendIndexes(rows: seq<Row>, lines: seq<Bytes>, line: Bytes)
    requires Indexes(rows, lines)
    ensures Indexes(rows + [NextRow(rows, |line|)], lines + [line])
  {
    var rows', lines' := rows + [NextRow(rows, |line|)], lines + [line];
    forall i | 0 <= i < |rows'|
      ensures rows'[i] == Row(|Concat(lines'[..i])|, |lines'[i]|)
    {
      assert lines'[..i] == lines[..i];
      if i == |rows| && i > 0 {
        assert lines[..i] == lines;
        assert Concat(lines) == Concat(lines[..i - 1]) + lines[i - 1];
      }
    }
  }

  /** Reading through the index gives back the appended line, whatever was appended after it. */
  lemma IndexedReadIsLine(rows: seq<Row>, lines: seq<Bytes>, more: Bytes, i: nat)
    requires Indexes(rows, lines) && AllLines(lines) && i < |lines|
    ensures ReadRow(Concat(lines) + more, rows[i]) == Some(lines[i])
  {
    hide Concat, ReadRow, IsLine;
    LineInPlace(lines, i);
    var p, all := rows[i].position, Concat(lines);
    SliceOfPrefix(all, more, p, p + |lines[i]|);
    ReadInside(all + more, p, lines[i]);
  }

  lemma SliceOfPrefix(file: Bytes, more: Bytes, p: nat, q: nat)
    requires p <= q <= |file|
    ensures (file + more)[p..q] == file[p..q]
  {
  }

  lemma ReadInside(file: Bytes, p: nat, line: Bytes)
    requires p + |line| <= |file| && file[p..p + |line|] == line && IsLine(line)
    ensures ReadRow(file, Row(p, |line|)) == Some(line)
  {
  }

  /** A file cut short inside a line is noticed when that line is read. */
  lemma TornLineRefused(rows: seq<Row>, lines: seq<Bytes>, i: nat, cut: nat)
    requires Indexes(rows, lines) && AllLines(lines) && i < |lines| && cut <= |Concat(lines)|
    ensures ReadRow(Concat(lines)[..cut], rows[i]).None? <==> cut < rows[i].position + rows[i].length
  {
    hide Concat, IsLine;
    LineInPlace(lines, i);
    var p, all := rows[i].position, Concat(lines);
    if p + |lines[i]| <= cut {
      assert all[..cut][p..p + |lines[i]|] == all[p..p + |lines[i]|];
      ReadInside(all[..cut], p, lines[i]);
    }
  }

  // ---------- the plain file, line by line ----------

  /** Length of the first line of a nonempty file, its newline included; all of it when there is none. */
  function FirstBreak(file: Bytes): (n: nat)
    requires file != []
    ensures 0 < n <= |file|
    ensures forall i :: 0 <= i < n - 1 ==> file[i] != NEWLINE
    ensures n < |file| ==> file[n - 1] == NEWLINE
  {
    if file[0] == NEWLINE || |file| == 1 then 1 else 1 + FirstBreak(file[1..])
  }

  /** `for line in stream`: maximal pieces ending at a newline, the last one perhaps torn. */
  function Split(file: Bytes): seq<Bytes>
    decreases |file|
  {
    if file == [] then [] else [file[..FirstBreak(file)]] + Split(file[FirstBreak(file)..])
  }

  lemma FirstLineBreak(line: Bytes, rest: Bytes)
    requires IsLine(line)
    ensures FirstBreak(line + rest) == |line|
  {
    hide FirstBreak;
    var file := line + rest;
    assert forall i :: 0 <= i < |line| ==> file[i] == line[i];
    var n := FirstBreak(file);
  }

  lemma ConcatFront(lines: seq<Bytes>)
    requires lines != []
    ensures Concat(lines) == lines[0] + Concat(lines[1..])
  {
    ConcatSplits(lines, 1);
    assert lines[..1] == [lines[0]];
    assert Concat([lines[0]]) == Concat([]) + lines[0] by {
      assert [lines[0]][..0] == [];
    }
  }

  /** Writing lines and reading the file line by line is the identity. */
  lemma {:induction false} LinesRoundTrip(lines: seq<Bytes>)
    requires AllLines(lines)
    ensures Split(Concat(lines)) == lines
  {
    if lines != [] {
      ConcatFront(lines);
      FirstLineBreak(lines[0], Concat(lines[1..]));
      var file := Concat(lines);
      assert file[..|lines[0]|] == lines[0];
      assert file[|lines[0]|..] == Concat(lines[1..]);
      LinesRoundTrip(lines[1..]);
    }
  }

  lemma NothingConcats()
    ensures Concat([]) == []
  {
  }

  /** Reading a file line by line loses no byte, torn tail included. */
  lemma {:induction false} FileRoundTrip(file: Bytes)
    ensures Concat(Split(file)) == file
    decreases |file|
  {
    hide Concat, FirstBreak;
    if file == [] {
      assert Concat([]) == [] by { NothingConcats(); }
    } else {
      var n := FirstBreak(file);
      FileRoundTrip(file[n..]);
      ConcatFront(Split(file));
      assert Split(file)[1..] == Split(file[n..]);
      assert file == file[..n] + file[n..];
    }
  }

  // ---------- the object ----------

  class JournalSequence {
    var file: Bytes
    var rows: seq<Row>
    ghost var lines: seq<Bytes>

    /** The index describes a prefix of the file made of whole lines. */
    ghost predicate Valid()
      reads this
    {
      AllLines(lines) && Indexes(rows, lines) && Concat(lines) <= file
    }

    constructor ()
      ensures Valid() && file == [] && lines == []
    {
      file, rows, lines := [], [], [];
    }

    /** The journal's writer appends to the file first, then indexes the line. */
    method Append(line: Bytes)
      requires Valid() && IsLine(line) && file == Concat(lines)
      modifies this
      ensures Valid() && lines == old(lines) + [line] && file == Concat(lines)
    {
      AppendIndexes(rows, lines, line);
      assert (lines + [line])[..|lines|] == lines;
      file := file + line;
      rows := rows + [NextRow(rows, |line|)];
      lines := lines + [line];
    }

    /** `__getitem__`: negative indexes count from the end; None stands for IndexError. */
    method Get(index: int) returns (r: Option<Bytes>)
      requires Valid()
      ensures var i := if index < 0 then index + |lines| else index;
        r == if 0 <= i < |lines| then Some(lines[i]) else None
    {
      var i := if index < 0 then index + |rows| else index;
      if !(0 <= i < |rows|) {
        return None;
      }
      IndexedReadIsLine(rows, lines, file[|Concat(lines)|..], i);
      assert file == Concat(lines) + file[|Concat(lines)|..];
      r := ReadRow(file, rows[i]);
    }

    /** `__iter__`: every indexed line in order. */
    method Iterate() returns (out: seq<Bytes>)
      requires Valid()
      ensures out == lines
      ensures file == Concat(lines) ==> out == Split(file)
    {
      out := [];
      for i := 0 to |rows|
        invariant out == lines[..i]
      {
        IndexedReadIsLine(rows, lines, file[|Concat(lines)|..], i);
        assert file == Concat(lines) + file[|Concat(lines)|..];
        var data := ReadRow(file, rows[i]);
        out := out + [data.value];
      }
      LinesRoundTrip(lines);
    }

    /** The restart scan: index the plain file line by line, refusing a torn tail. */
    method Rebuild() returns (ok: bool)
      modifies `rows, `lines
      ensures ok <==> AllLines(Split(file))
      ensures ok ==> Valid() && lines == Split(file) && file == Concat(lines)
    {
      hide Concat;
      var found := Split(file);
      rows, lines := [], [];
      for i := 0 to |found|
        invariant lines == found[..i] && Indexes(rows, lines) && AllLines(lines)
        invariant file == old(file)
      {
        if !IsLine(found[i]) {
          return false;
        }
        AppendIndexes(rows, lines, found[i]);
        rows := rows + [NextRow(rows, |found[i]|)];
        lines := lines + [found[i]];
      }
      FileRoundTrip(file);
      assert found[..|found|] == found;
      return true;
    }
  }
}
