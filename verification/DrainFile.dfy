/**
 The drain's file: what a restart accepts of it, what streaming re-validation through the byte-offset
 index accepts of it, and what an append leaves when it dies part way.
 */
module DrainFile {
  import opened Wrappers
  import opened Drain
  import opened DrainLaws
  import opened OffsetIndex

  type Encoder = Frame -> Bytes
  type Decoder = Bytes -> Option<Frame>

  /**
   Frames are written as one line each and read back as written; an unfinished line with another one
   after it is no frame.
   */
  ghost predicate Codec(enc: Encoder, dec: Decoder) {
    && (forall f :: IsLine(enc(f)) && dec(enc(f)) == Some(f))
    && (forall f, g, k :: 0 < k < |enc(f)| ==> dec(enc(f)[..k] + enc(g)).None?)
  }

  ghost predicate AllParse(dec: Decoder, lines: seq<Bytes>) {
    forall i :: 0 <= i < |lines| ==> dec(lines[i]).Some?
  }

  ghost function Parsed(dec: Decoder, lines: seq<Bytes>): seq<Frame>
    requires AllParse(dec, lines)
  {
    seq(|lines|, i requires 0 <= i < |lines| => dec(lines[i]).value)
  }

  /** The restart scan: whole lines, each one a frame valid after those before it. */
  ghost predicate Restarts(c: Config, dec: Decoder, file: Bytes) {
    var lines := Split(file);
    AllLines(lines) && AllParse(dec, lines) && FullValid(c, Parsed(dec, lines))
  }

  ghost predicate AllRead(file: Bytes, rows: seq<Row>) {
    forall i :: 0 <= i < |rows| ==> ReadRow(file, rows[i]).Some?
  }

  ghost function Read(file: Bytes, rows: seq<Row>): seq<Bytes>
    requires AllRead(file, rows)
  {
    seq(|rows|, i requires 0 <= i < |rows| => ReadRow(file, rows[i]).value)
  }

  /** Streaming re-validation: each row read from the file as it is now. */
  ghost predicate Streams(c: Config, dec: Decoder, file: Bytes, rows: seq<Row>) {
    && AllRead(file, rows)
    && AllParse(dec, Read(file, rows))
    && StreamValid(c, Parsed(dec, Read(file, rows)))
  }

  ghost predicate NumberedLines(dec: Decoder, lines: seq<Bytes>) {
    AllParse(dec, lines) && Numbered(Parsed(dec, lines))
  }

  /** Streaming goes on exactly when the next row reads, parses and is valid after the frame before. */
  lemma StreamGrows(c: Config, dec: Decoder, file: Bytes, rows: seq<Row>, i: nat)
    requires i < |rows| && Streams(c, dec, file, rows[..i])
    ensures Streams(c, dec, file, rows[..i + 1]) <==>
      && ReadRow(file, rows[i]).Some?
      && var parsed := dec(ReadRow(file, rows[i]).value);
         parsed.Some? && Valid(c, parsed.value, Last(Parsed(dec, Read(file, rows[..i]))), parsed.value.cursor - 1 + 1)
    ensures Streams(c, dec, file, rows[..i + 1]) ==>
      Last(Parsed(dec, Read(file, rows[..i + 1]))) == dec(ReadRow(file, rows[i]).value)
  {
    hide ReadRow, Valid, StreamValid;
    var less, more := rows[..i], rows[..i + 1];
    var lines := Read(file, less);
    assert more[..i] == less && more[i] == rows[i];
    assert AllRead(file, more) <==> ReadRow(file, rows[i]).Some?;
    if ReadRow(file, rows[i]).Some? {
      var line := ReadRow(file, rows[i]).value;
      assert Read(file, more) == lines + [line];
      assert AllParse(dec, lines + [line]) <==> dec(line).Some? by {
        assert (lines + [line])[i] == line;
        assert forall k :: 0 <= k < i ==> (lines + [line])[k] == lines[k];
      }
      if dec(line).Some? {
        ParsedMore(dec, lines, line);
        StreamedOneMore(c, Parsed(dec, lines), dec(line).value);
      }
    }
  }

  lemma StreamedOneMore(c: Config, frames: seq<Frame>, f: Frame)
    requires StreamValid(c, frames)
    ensures StreamValid(c, frames + [f]) <==> Valid(c, f, Last(frames), f.cursor - 1 + 1)
  {
    hide Valid;
    var more := frames + [f];
    assert more[|frames|] == f && Before(more, |frames|) == Last(frames);
    if StreamValid(c, more) {
      assert StreamedAt(c, more, |frames|);
    }
    if Valid(c, f, Last(frames), f.cursor - 1 + 1) {
      forall i | 0 <= i < |more|
        ensures StreamedAt(c, more, i)
      {
        if i < |frames| {
          assert StreamedAt(c, frames, i);
          assert Before(more, i) == Before(frames, i);
        }
      }
    }
  }

  lemma StreamPrefix(c: Config, dec: Decoder, file: Bytes, rows: seq<Row>, i: nat)
    requires i <= |rows| && Streams(c, dec, file, rows)
    ensures Streams(c, dec, file, rows[..i])
  {
    hide ReadRow, Valid;
    var less := rows[..i];
    assert forall k :: 0 <= k < i ==> less[k] == rows[k];
    assert AllRead(file, less);
    var lines, all := Read(file, less), Read(file, rows);
    assert lines == all[..i];
    assert AllParse(dec, lines) by {
      assert forall k :: 0 <= k < i ==> lines[k] == all[k];
    }
    var frames, every := Parsed(dec, lines), Parsed(dec, all);
    assert frames == every[..i];
    forall k | 0 <= k < i
      ensures StreamedAt(c, frames, k)
    {
      assert StreamedAt(c, every, k);
      assert Before(frames, k) == Before(every, k);
    }
  }

  /** Reading every row of an untouched file, whatever follows, gives the indexed lines. */
  lemma ReadIsLines(rows: seq<Row>, lines: seq<Bytes>, more: Bytes)
    requires Indexes(rows, lines) && AllLines(lines)
    ensures AllRead(Concat(lines) + more, rows) && Read(Concat(lines) + more, rows) == lines
  {
    hide Concat, ReadRow, IsLine, Indexes;
    assert |rows| == |lines| by { SameCount(rows, lines); }
    forall i | 0 <= i < |rows|
      ensures ReadRow(Concat(lines) + more, rows[i]) == Some(lines[i])
    {
      IndexedReadIsLine(rows, lines, more, i);
    }
  }

  lemma SameCount(rows: seq<Row>, lines: seq<Bytes>)
    requires Indexes(rows, lines)
    ensures |rows| == |lines|
  {
  }

  /**
   Streaming through the index accepts what a restart over the same bytes accepts, but for the
   numbering; bytes appended later do not matter.
   */
  lemma StreamedEqualsRestart(c: Config, dec: Decoder, rows: seq<Row>, lines: seq<Bytes>, more: Bytes)
    requires Indexes(rows, lines) && AllLines(lines)
    ensures Restarts(c, dec, Concat(lines))
       <==> Streams(c, dec, Concat(lines) + more, rows) && NumberedLines(dec, lines)
  {
    hide Concat, ReadRow, IsLine, Indexes, StreamValid, FullValid, Numbered, Split, AllLines;
    ReadIsLines(rows, lines, more);
    LinesRoundTrip(lines);
    if AllParse(dec, lines) {
      StreamingEqualsFullButNumbers(c, Parsed(dec, lines));
    }
  }

  /** A file cut short anywhere is refused by the streaming pass. */
  lemma CutFileRefused(c: Config, dec: Decoder, rows: seq<Row>, lines: seq<Bytes>, cut: nat)
    requires Indexes(rows, lines) && AllLines(lines) && cut < |Concat(lines)|
    ensures !Streams(c, dec, Concat(lines)[..cut], rows)
  {
    hide ReadRow, IsLine, StreamValid;
    var n := |lines| - 1;
    TornLineRefused(rows, lines, n, cut);
    assert ReadRow(Concat(lines)[..cut], rows[n]).None?;
  }

  // ---------- a file rewritten in place ----------

  ghost predicate SameLengths(a: seq<Bytes>, b: seq<Bytes>) {
    |a| == |b| && forall i :: 0 <= i < |a| ==> |a[i]| == |b[i]|
  }

  lemma {:induction false} SameLengthConcat(a: seq<Bytes>, b: seq<Bytes>)
    requires SameLengths(a, b)
    ensures |Concat(a)| == |Concat(b)|
  {
    if a != [] {
      SameLengthConcat(a[..|a| - 1], b[..|b| - 1]);
    }
  }

  lemma LengthsIndex(rows: seq<Row>, a: seq<Bytes>, b: seq<Bytes>)
    requires Indexes(rows, a) && SameLengths(a, b)
    ensures Indexes(rows, b)
  {
    hide Concat;
    forall i | 0 <= i < |rows|
      ensures rows[i] == Row(|Concat(b[..i])|, |b[i]|)
    {
      SameLengthConcat(a[..i], b[..i]);
    }
  }

  /** The pieces the rows name, joined, are the file up to where the rows end. */
  lemma {:induction false} PiecesJoin(rows: seq<Row>, lines: seq<Bytes>, pieces: seq<Bytes>, file: Bytes)
    requires Indexes(rows, lines) && SameLengths(lines, pieces) && |Concat(lines)| <= |file|
    requires forall i :: 0 <= i < |rows| ==> ReadRow(file, rows[i]) == Some(pieces[i])
    ensures Concat(pieces) == file[..|Concat(lines)|]
  {
    hide ReadRow, Concat, Indexes;
    SameCount(rows, lines);
    if rows == [] {
      NothingConcats();
      assert lines == [] && pieces == [];
    } else {
      var n := |rows| - 1;
      PrefixIndexes(rows, lines);
      LastRow(rows, lines);
      var p, q := rows[n].position, rows[n].position + rows[n].length;
      PiecesJoin(rows[..n], lines[..n], pieces[..n], file);
      PieceIsSlice(file, rows[n]);
      assert pieces[n] == file[p..q];
      LastConcats(pieces);
      assert file[..p] + file[p..q] == file[..q];
    }
  }

  lemma LastConcats(lines: seq<Bytes>)
    requires lines != []
    ensures Concat(lines) == Concat(lines[..|lines| - 1]) + lines[|lines| - 1]
  {
  }

  lemma LastRow(rows: seq<Row>, lines: seq<Bytes>)
    requires Indexes(rows, lines) && rows != []
    ensures var n := |rows| - 1;
      rows[n] == Row(|Concat(lines[..n])|, |lines[n]|) && rows[n].position + rows[n].length == |Concat(lines)|
  {
    hide Concat;
    LastConcats(lines);
  }

  lemma PrefixIndexes(rows: seq<Row>, lines: seq<Bytes>)
    requires Indexes(rows, lines) && rows != []
    ensures Indexes(rows[..|rows| - 1], lines[..|lines| - 1])
  {
    hide Concat;
    var n := |rows| - 1;
    forall i | 0 <= i < n
      ensures rows[i] == Row(|Concat(lines[..n][..i])|, |lines[i]|)
    {
      assert lines[..n][..i] == lines[..i];
    }
  }

  lemma PieceIsSlice(file: Bytes, r: Row)
    requires r.position + r.length <= |file|
    ensures ReadRow(file, r).Some? ==> ReadRow(file, r).value == file[r.position..r.position + r.length]
  {
  }

  /**
   A file of the same size rewritten in place: the streaming pass and a restart agree on it, numbering
   aside, exactly when the lines still start and end where the index has them.
   */
  lemma RewrittenStreamsAsRestart(c: Config, dec: Decoder, rows: seq<Row>, lines: seq<Bytes>, file: Bytes)
    requires Indexes(rows, lines) && |file| == |Concat(lines)|
    ensures Restarts(c, dec, file) && SameLengths(lines, Split(file))
       <==> Streams(c, dec, file, rows) && AllLines(Read(file, rows)) && NumberedLines(dec, Read(file, rows))
  {
    hide Concat, ReadRow, IsLine, Indexes, FullValid, StreamValid, Numbered, Split;
    if Restarts(c, dec, file) && SameLengths(lines, Split(file)) {
      var found := Split(file);
      FileRoundTrip(file);
      LengthsIndex(rows, lines, found);
      ReadIsLines(rows, found, []);
      StreamedEqualsRestart(c, dec, rows, found, []);
      assert Concat(found) + [] == file;
    }
    if Streams(c, dec, file, rows) && AllLines(Read(file, rows)) && NumberedLines(dec, Read(file, rows)) {
      var pieces := Read(file, rows);
      SameCount(rows, lines);
      PiecesFit(rows, lines, file);
      LengthsIndex(rows, lines, pieces);
      PiecesJoin(rows, lines, pieces, file);
      assert Concat(pieces) == file;
      LinesRoundTrip(pieces);
      StreamedEqualsRestart(c, dec, rows, pieces, []);
      assert Concat(pieces) + [] == file;
    }
  }

  lemma PiecesFit(rows: seq<Row>, lines: seq<Bytes>, file: Bytes)
    requires Indexes(rows, lines) && AllRead(file, rows)
    ensures SameLengths(lines, Read(file, rows))
  {
    hide Concat;
  }

  // ---------- an append that dies part way ----------

  /** Whole lines at the front of a file split off as they are. */
  lemma {:induction false} SplitAfterLines(lines: seq<Bytes>, tail: Bytes)
    requires AllLines(lines)
    ensures Split(Concat(lines) + tail) == lines + Split(tail)
  {
    hide Concat, FirstBreak, IsLine;
    if lines == [] {
      NothingConcats();
      assert Concat(lines) + tail == tail;
    } else {
      ConcatFront(lines);
      var rest := Concat(lines[1..]) + tail;
      var file := Concat(lines) + tail;
      assert file == lines[0] + rest;
      FirstLineBreak(lines[0], rest);
      assert file[..|lines[0]|] == lines[0];
      assert file[|lines[0]|..] == rest;
      SplitAfterLines(lines[1..], tail);
    }
  }

  /** A started line without its newline is the last, torn piece. */
  lemma TornTail(line: Bytes, k: nat)
    requires IsLine(line) && 0 < k < |line|
    ensures Split(line[..k]) == [line[..k]] && !IsLine(line[..k])
  {
    hide FirstBreak;
    var tail := line[..k];
    assert forall i :: 0 <= i < k ==> tail[i] == line[i];
    var n := FirstBreak(tail);
    assert n == k;
    assert tail[n..] == [] && tail[..n] == tail;
    NothingSplits();
  }

  lemma OneLine(line: Bytes)
    requires IsLine(line)
    ensures Split(line) == [line]
  {
    FirstLineBreak(line, []);
    assert line + [] == line;
    assert line[|line|..] == [];
  }

  lemma ParsedMore(dec: Decoder, lines: seq<Bytes>, line: Bytes)
    requires AllParse(dec, lines) && dec(line).Some?
    ensures AllParse(dec, lines + [line]) && Parsed(dec, lines + [line]) == Parsed(dec, lines) + [dec(line).value]
  {
  }

  /** A journal held in memory and the file behind it. */
  ghost predicate Held(c: Config, dec: Decoder, lines: seq<Bytes>) {
    AllLines(lines) && AllParse(dec, lines) && FullValid(c, Parsed(dec, lines))
  }

  /**
   An append of a valid frame cut off after k bytes: the file restarts exactly when nothing or all of
   the line was written, and then with the old journal or with the frame added.
   */
  lemma CutAppendRestarts(c: Config, enc: Encoder, dec: Decoder, lines: seq<Bytes>, f: Frame, k: nat)
    requires Codec(enc, dec) && Held(c, dec, lines) && k <= |enc(f)|
    requires Valid(c, f, Last(Parsed(dec, lines)), |lines| + 1)
    ensures var file := Concat(lines) + enc(f)[..k];
      && (Restarts(c, dec, file) <==> k == 0 || k == |enc(f)|)
      && Split(file) == (if k == 0 then lines else lines + [enc(f)[..k]])
  {
    hide Concat, Split, FullValid, Valid, IsLine;
    var tail := enc(f)[..k];
    SplitAfterLines(lines, tail);
    if k == 0 {
      assert tail == [];
      NothingSplits();
      assert Split(Concat(lines) + tail) == lines;
    } else if k < |enc(f)| {
      TornTail(enc(f), k);
      assert !IsLine((lines + [tail])[|lines|]);
    } else {
      assert tail == enc(f);
      OneLine(tail);
      ParsedMore(dec, lines, tail);
      AppendKeepsFull(c, Parsed(dec, lines), f);
    }
  }

  lemma NothingSplits()
    ensures Split([]) == []
  {
  }

  /**
   An append of `f` fails with k bytes written and its line is not indexed.  The
   timeout frame `g` goes behind those bytes, and the file restarts exactly when there were none: a
   torn line swallows it, and behind a whole line it repeats that line's cursor.
   */
  lemma LatchedTimeoutRestartsIffNothingWritten(
    c: Config, enc: Encoder, dec: Decoder, lines: seq<Bytes>, f: Frame, k: nat, g: Frame)
    requires Codec(enc, dec) && Held(c, dec, lines) && k <= |enc(f)|
    requires Valid(c, f, Last(Parsed(dec, lines)), |lines| + 1) && Valid(c, g, Last(Parsed(dec, lines)), |lines| + 1)
    ensures Restarts(c, dec, Concat(lines) + enc(f)[..k] + enc(g)) <==> k == 0
  {
    hide Concat, Split, FullValid, Valid, IsLine;
    var tail := enc(f)[..k];
    var file := Concat(lines) + tail + enc(g);
    assert file == Concat(lines) + (tail + enc(g));
    SplitAfterLines(lines, tail + enc(g));
    if k == 0 {
      assert tail + enc(g) == enc(g);
      OneLine(enc(g));
      ParsedMore(dec, lines, enc(g));
      AppendKeepsFull(c, Parsed(dec, lines), g);
    } else if k < |enc(f)| {
      GluedLine(enc(f), k, enc(g));
      OneLine(tail + enc(g));
      assert dec((lines + [tail + enc(g)])[|lines|]).None?;
    } else {
      assert tail == enc(f);
      OneLine(enc(g));
      TwoLines(enc(f), enc(g));
      var more := lines + [enc(f), enc(g)];
      assert more == (lines + [enc(f)]) + [enc(g)];
      ParsedMore(dec, lines, enc(f));
      ParsedMore(dec, lines + [enc(f)], enc(g));
      RepeatedCursorRefused(c, Parsed(dec, lines), f, g);
    }
  }

  lemma GluedLine(a: Bytes, k: nat, b: Bytes)
    requires IsLine(a) && IsLine(b) && 0 < k < |a|
    ensures IsLine(a[..k] + b)
  {
  }

  lemma TwoLines(a: Bytes, b: Bytes)
    requires IsLine(a) && IsLine(b)
    ensures Split(a + b) == [a, b]
  {
    hide Split, IsLine;
    assert Concat([a]) == a by { assert [a][..0] == []; }
    assert AllLines([a]);
    SplitAfterLines([a], b);
    OneLine(b);
  }

  lemma RepeatedCursorRefused(c: Config, frames: seq<Frame>, f: Frame, g: Frame)
    requires Valid(c, g, Last(frames), |frames| + 1)
    ensures !FullValid(c, frames + [f] + [g])
  {
    hide BodyOk, Follows;
    var more := frames + [f] + [g];
    assert more[|frames| + 1] == g;
    assert !ValidAt(c, more, |frames| + 1);
  }
}
