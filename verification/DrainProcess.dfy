/**
 The drain as the program has it: the journal is the file, frames are read back through the byte-offset
 index, each new frame is validated before it is written, and a failing write or publication latches.
 */
module DrainProcess {
  import opened Wrappers
  import opened Drain
  import opened DrainLaws
  import opened OffsetIndex
  import opened DrainFile

  /** What the operating system does with an append: all of it, part of the line, or the line but no publication. */
  datatype Sink = Works | WriteStops(written: nat) | PublishFails

  /** The bytes of a line that reach the file. */
  function Written(line: Bytes, sink: Sink): Bytes {
    if sink.WriteStops? && sink.written < |line| then line[..sink.written] else line
  }

  /** The file, the indexed lines and the latch. */
  datatype Store = Store(file: Bytes, lines: seq<Bytes>, latched: bool)

  /** What an append of a frame does to them, `takes` telling whether the frame gets as far as the file. */
  ghost predicate Appended(enc: Encoder, f: Frame, takes: bool, sink: Sink, was: Store, now: Store) {
    && now.file == was.file + (if takes then Written(enc(f), sink) else [])
    && now.lines == was.lines + (if takes && !sink.WriteStops? then [enc(f)] else [])
    && now.latched == (was.latched || (takes && !sink.Works?))
  }

  lemma NotTaken(enc: Encoder, f: Frame, sink: Sink, now: Store)
    ensures Appended(enc, f, false, sink, now, now)
  {
  }

  /** A frame can be proposed: the population is vouched for and, for the first frame, its IDs are distinct. */
  predicate Proposable(c: Config, frames: seq<Frame>, trades: seq<Fact>) {
    && ProofAvailable(c.authority, if frames == [] then trades else frames[|frames| - 1].facts)
    && (frames == [] ==> Distinct(trades))
  }

  /** On an open journal it can exactly if the frame that `step` proposes passes validation, whatever the scan's decisions. */
  lemma ProposableIffValid(c: Config, frames: seq<Frame>, trades: seq<Fact>, decisions: seq<Decision>, observed: int)
    requires FullValid(c, frames) && (frames != [] ==> !Terminal(frames[|frames| - 1]))
    ensures Proposable(c, frames, trades)
       <==> Valid(c, Proposal(c, frames, trades, decisions, observed), Last(frames), |frames| + 1)
  {
    hide Valid, Proposal, FullValid, Distinct, ProofAvailable;
    ProposalIsValidIff(c, frames, trades, decisions, observed);
  }

  lemma NothingStreams(c: Config, dec: Decoder, file: Bytes)
    ensures Streams(c, dec, file, []) && Last(Parsed(dec, Read(file, []))) == None
  {
  }

  lemma EmptyHeld(c: Config, dec: Decoder)
    ensures Held(c, dec, []) && Concat([]) == [] && Indexes([], [])
  {
  }

  lemma ConcatMore(lines: seq<Bytes>, line: Bytes)
    ensures Concat(lines + [line]) == Concat(lines) + line
  {
    assert (lines + [line])[..|lines|] == lines;
  }

  lemma PrefixConcat(lines: seq<Bytes>, i: nat)
    requires i < |lines|
    ensures Concat(lines[..i]) + lines[i] <= Concat(lines)
  {
    hide *;
    ConcatSplits(lines, i + 1);
    var front, rest := Concat(lines[..i + 1]), Concat(lines[i + 1..]);
    assert front == Concat(lines[..i]) + lines[i] by { PrefixMore(lines, i); }
    assert Concat(lines) == front + rest;
    assert front <= front + rest;
  }

  lemma PrefixMore(lines: seq<Bytes>, i: nat)
    requires i < |lines|
    ensures Concat(lines[..i + 1]) == Concat(lines[..i]) + lines[i]
  {
    assert lines[..i + 1] == lines[..i] + [lines[i]];
    ConcatMore(lines[..i], lines[i]);
  }

  /**
   `timeout` does not look at the latch.  After an append of `f` that latched, the file with the timeout
   frame `g` behind it restarts exactly when the line of `f` is indexed - only its publication failed -
   or none of it was written.
   */
  lemma LatchedTimeoutRestartsIff(
    c: Config, enc: Encoder, dec: Decoder, was: Store, f: Frame, sink: Sink, now: Store, g: Frame)
    requires Codec(enc, dec) && Held(c, dec, was.lines) && was.file == Concat(was.lines) && !sink.Works?
    requires Valid(c, f, Last(Parsed(dec, was.lines)), |was.lines| + 1) && Appended(enc, f, true, sink, was, now)
    requires AllParse(dec, now.lines) && Valid(c, g, Last(Parsed(dec, now.lines)), |now.lines| + 1)
    ensures Restarts(c, dec, now.file + enc(g)) <==> sink.PublishFails? || Written(enc(f), sink) == []
  {
    hide Concat, Valid, FullValid, Restarts, IsLine;
    if sink.PublishFails? {
      ParsedMore(dec, was.lines, enc(f));
      AppendKeepsFull(c, Parsed(dec, was.lines), f);
      ConcatMore(was.lines, enc(f));
      CutAppendRestarts(c, enc, dec, now.lines, g, |enc(g)|);
      assert enc(g)[..|enc(g)|] == enc(g);
    } else {
      var k := if sink.written < |enc(f)| then sink.written else |enc(f)|;
      assert Written(enc(f), sink) == enc(f)[..k];
      LatchedTimeoutRestartsIffNothingWritten(c, enc, dec, was.lines, f, k, g);
    }
  }

  /** A line that is no valid successor of those before it refuses the file. */
  lemma RefusedAt(c: Config, dec: Decoder, lines: seq<Bytes>, i: nat)
    requires i < |lines| && AllParse(dec, lines[..i]) && dec(lines[i]).Some?
    requires !Valid(c, dec(lines[i]).value, Last(Parsed(dec, lines[..i])), i + 1)
    ensures !(AllParse(dec, lines) && FullValid(c, Parsed(dec, lines)))
  {
    hide Valid;
    if AllParse(dec, lines) {
      assert !ValidAt(c, Parsed(dec, lines), i);
    }
  }

  class FrozenDrain {
    const config: Config
    const encode: Encoder
    const decode: Decoder
    var file: Bytes
    var rows: seq<Row>
    var latched: bool
    ghost var lines: seq<Bytes>

    /** The indexed lines are a journal valid from its start, at the front of the file. */
    ghost predicate Readable()
      reads this
    {
      Codec(encode, decode) && Held(config, decode, lines) && Indexes(rows, lines) && Concat(lines) <= file
    }

    /** Until a failure latches, the file holds nothing else. */
    ghost predicate Sound()
      reads this
    {
      Readable() && (!latched ==> file == Concat(lines))
    }

    ghost function Frames(): seq<Frame>
      reads this
      requires AllParse(decode, lines)
    {
      Parsed(decode, lines)
    }

    constructor (c: Config, enc: Encoder, dec: Decoder)
      requires Codec(enc, dec)
      ensures Sound() && file == [] && Frames() == [] && !latched
      ensures config == c && encode == enc && decode == dec
    {
      config, encode, decode := c, enc, dec;
      file, rows, latched, lines := [], [], false, [];
    }

    /** `self.frames[i]`: the row's bytes, read from the file and parsed. */
    method FrameAt(i: nat) returns (f: Frame)
      requires Readable() && i < |rows|
      ensures |rows| == |Frames()| && f == Frames()[i]
    {
      hide Concat, ReadRow, FullValid;
      ghost var more := file[|Concat(lines)|..];
      assert file == Concat(lines) + more;
      SameCount(rows, lines);
      IndexedReadIsLine(rows, lines, more, i);
      return decode(ReadRow(file, rows[i]).value).value;
    }

    method Newest() returns (f: Option<Frame>)
      requires Readable()
      ensures |rows| == |Frames()| && f == Last(Frames())
    {
      SameCount(rows, lines);
      if rows == [] {
        return None;
      }
      var g := FrameAt(|rows| - 1);
      return Some(g);
    }

    /** Restart: every line of the file is validated against the ones already read. */
    method Open(bytes: Bytes) returns (ok: bool)
      requires Codec(encode, decode)
      modifies this
      ensures ok <==> Restarts(config, decode, bytes)
      ensures ok ==> Sound() && !latched && file == bytes && lines == Split(bytes)
    {
      hide Concat, Split, Valid, FullValid, IsLine, ReadRow, Indexes;
      var found := Split(bytes);
      file, rows, latched, lines := bytes, [], false, [];
      FileRoundTrip(bytes);
      EmptyHeld(config, decode);
      for i := 0 to |found|
        invariant file == bytes && !latched && lines == found[..i]
        invariant Readable()
      {
        if !IsLine(found[i]) || decode(found[i]).None? {
          return false;
        }
        var frame := decode(found[i]).value;
        var last := Newest();
        if !Valid(config, frame, last, |rows| + 1) {
          RefusedAt(config, decode, found, i);
          return false;
        }
        PrefixConcat(found, i);
        IndexLine(found[i], frame);
      }
      assert found[..|found|] == found;
      return true;
    }

    /** `self.frames.append`: one more row, wherever the line is in the file. */
    method IndexLine(line: Bytes, frame: Frame)
      requires Held(config, decode, lines) && Indexes(rows, lines) && IsLine(line) && decode(line) == Some(frame)
      requires Valid(config, frame, Last(Frames()), |lines| + 1)
      modifies `rows, `lines
      ensures Held(config, decode, lines) && Indexes(rows, lines)
      ensures lines == old(lines) + [line] && Concat(lines) == Concat(old(lines)) + line
      ensures Frames() == old(Frames()) + [frame]
    {
      hide Concat, Valid, FullValid, IsLine, Indexes;
      ParsedMore(decode, lines, line);
      AppendKeepsFull(config, Parsed(decode, lines), frame);
      AppendIndexes(rows, lines, line);
      ConcatMore(lines, line);
      rows := rows + [NextRow(rows, |line|)];
      lines := lines + [line];
    }

    ghost function Stored(): Store
      reads this
    {
      Store(file, lines, latched)
    }

    /** The fence stands behind the population now. */
    predicate Vouched(fenceFailed: bool) {
      config.authority.Fenced? ==> !fenceFailed
    }

    /**
     `_append`: validate, write the line, index it, publish; any failure from the write on latches.  The
     latch itself is not looked at.
     */
    method Append(frame: Frame, fenceFailed: bool, sink: Sink) returns (ok: bool)
      requires Sound()
      modifies `file, `rows, `latched, `lines
      ensures var takes := Vouched(fenceFailed) && Valid(config, frame, Last(old(Frames())), |old(Frames())| + 1);
        ok == (takes && sink.Works?) && Appended(encode, frame, takes, sink, old(Stored()), Stored())
      ensures !old(latched) ==> Sound()
      ensures lines != old(lines) ==> Held(config, decode, lines) && Frames() == old(Frames()) + [frame]
    {
      hide Concat, Valid, Held, IsLine, Indexes;
      SameCount(rows, lines);
      var last := Newest();
      if !Vouched(fenceFailed) || !Valid(config, frame, last, |rows| + 1) {
        return false;
      }
      var line := encode(frame);
      if sink.WriteStops? {
        file, latched := file + Written(line, sink), true;
        return false;
      }
      file := file + line;
      IndexLine(line, frame);
      latched := latched || sink.PublishFails?;
      return sink.Works?;
    }

    predicate Over(frames: seq<Frame>) {
      frames != [] && Terminal(frames[|frames| - 1])
    }

    /** `step`: None where it raises. */
    method Step(now: int, trades: seq<Fact>, decisions: seq<Decision>, observed: int, fenceFailed: bool, sink: Sink)
      returns (r: Option<Frame>)
      requires Sound()
      modifies `file, `rows, `latched, `lines
      ensures Sound()
      ensures old(latched) ==> r.None? && Stored() == old(Stored())
      ensures !old(latched) && Over(old(Frames())) ==> r == Last(old(Frames())) && Stored() == old(Stored())
      ensures !old(latched) && !Over(old(Frames())) ==>
        var due := now >= config.end && Vouched(fenceFailed) && Proposable(config, old(Frames()), trades);
        var p := Proposal(config, old(Frames()), trades, decisions, observed);
        && r == (if due && sink.Works? then Some(p) else None)
        && Appended(encode, p, due, sink, old(Stored()), Stored())
    {
      hide Concat, Valid, FullValid, Indexes, Codec, ProofAvailable, Distinct, Build, Lost, Appended, Terminal;
      if latched {
        return None;
      }
      var previous := Newest();
      if previous.Some? && Terminal(previous.value) {
        return previous;
      }
      if now < config.end {
        NotTaken(encode, Proposal(config, Frames(), trades, decisions, observed), sink, Stored());
        return None;
      }
      ProposalIsValidIff(config, Frames(), trades, decisions, observed);
      var facts := if previous.Some? then previous.value.facts else trades;
      var perId := if previous.Some? then previous.value.perId else AllPending(facts);
      var error: Option<Fault> := None;
      if previous.Some? && trades != facts {
        error := Some(SourceChanged);
      } else if Lost(perId, Latest(decisions)) {
        error := Some(DecisionRetention);
      } else {
        perId, error := Absorbing(perId, decisions);
      }
      var frame := BuildNext(facts, perId, error, observed);
      var ok := Append(frame, fenceFailed, sink);
      return if ok then Some(frame) else None;
    }

    /** The frame `_append` builds on the newest one read back. */
    method BuildNext(facts: seq<Fact>, perId: map<string, Mark>, error: Option<Fault>, observed: int) returns (f: Frame)
      requires Readable()
      ensures f == Build(config, Frames(), facts, perId, error, observed)
    {
      hide Concat, FullValid, Indexes, Codec, Contained, CountsOf;
      var last := Newest();
      var marks := Contained(perId, error);
      var counts := CountsOf(marks);
      return Frame(config.binding, |rows| + 1, last, observed, IdsOf(facts), facts, marks, counts, error,
                   StateOf(error, counts), config.authority.Fenced? && AllSettled(counts) && !Truthy(error),
                   config.authority.Standalone?);
    }

    method Absorbing(start: map<string, Mark>, decisions: seq<Decision>) returns (perId: map<string, Mark>, error: Option<Fault>)
      ensures Absorbed(perId, error) == Absorb(start, decisions)
    {
      perId, error := start, None;
      for i := 0 to |decisions|
        invariant error == None && Absorb(perId, decisions[i..]) == Absorb(start, decisions)
      {
        var d := decisions[i];
        assert decisions[i..][1..] == decisions[i + 1..];
        if d.eventId !in perId {
          error := Some(OutsideFrozenSet);
          return;
        }
        var was := perId[d.eventId];
        if was.decision.Some? && was.decision.value != d {
          error := Some(DecisionConflict);
          return;
        }
        if d.decided.Some? {
          perId := perId[d.eventId := Mark(Recorded, Some(d))];
        }
      }
    }

    /** `timeout`: fail an active drain as it stands - latched or not. */
    method Timeout(observed: int, fenceFailed: bool, sink: Sink) returns (ok: bool)
      requires Sound()
      modifies `file, `rows, `latched, `lines
      ensures !old(latched) ==> Sound()
      ensures var last := Last(old(Frames()));
        if last.Some? && last.value.state == Draining then
          var f := Build(config, old(Frames()), last.value.facts, last.value.perId, Some(SafetyTimeout), observed);
          && ok == (Vouched(fenceFailed) && sink.Works?)
          && Appended(encode, f, Vouched(fenceFailed), sink, old(Stored()), Stored())
          && f.state == Failed && f.perId == last.value.perId
          && Valid(config, f, last, |old(Frames())| + 1)
        else
          !ok && Stored() == old(Stored())
    {
      hide Concat, Valid, FullValid, Indexes, Codec, Build, Appended;
      var last := Newest();
      if last.None? || last.value.state != Draining {
        return false;
      }
      TimeoutIsValid(config, Frames(), observed);
      var f := BuildNext(last.value.facts, last.value.perId, Some(SafetyTimeout), observed);
      ok := Append(f, fenceFailed, sink);
    }

    /** `_validate_terminal`, whose callers ask the fence first: rows read one at a time, one previous frame held. */
    method ValidateTerminal() returns (ok: bool)
      ensures ok <==> Streams(config, decode, file, rows)
    {
      hide Valid, ReadRow, StreamValid, AllRead, AllParse;
      var held: Option<Frame> := None;
      assert Streams(config, decode, file, []) by { NothingStreams(config, decode, file); }
      assert rows[..0] == [];
      for i := 0 to |rows|
        invariant Streams(config, decode, file, rows[..i]) && held == Last(Parsed(decode, Read(file, rows[..i])))
      {
        StreamGrows(config, decode, file, rows, i);
        var data := ReadRow(file, rows[i]);
        var frame := if data.None? then None else decode(data.value);
        if frame.None? || !Valid(config, frame.value, held, (frame.value.cursor - 1) + 1) {
          if Streams(config, decode, file, rows) {
            StreamPrefix(config, decode, file, rows, i + 1);
          }
          return false;
        }
        held := frame;
      }
      assert rows[..|rows|] == rows;
      return true;
    }
  }
}
