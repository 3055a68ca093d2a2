// What ignored partial writes do to the history file: which records survive them, and exactly when a restart still
// recovers the last 1000 written ones. The decoder is only asked to reject what a cut-short write can leave behind.
module TornWrites {
  import opened Wrappers
  import opened Seqs
  import opened Lines
  import opened HistoryFile
  import opened HistoryModel
  import opened HistoryProofs
  import DG = DiskGrowth

  // ----- Broken lines -----

  /** What one write that did not complete leaves: a non-empty beginning of the record's encoding, at most all of it. */
  datatype Fragment = Fragment(record: ToolCallRecord, chars: nat)

  predicate IsFragment(c: Codec, f: Fragment) {
    c.enc(f.record).Some? && 0 < f.chars <= |c.enc(f.record).value|
  }

  function FragmentText(c: Codec, f: Fragment): string {
    if IsFragment(c, f) then c.enc(f.record).value[..f.chars] else ""
  }

  /** Fragments written one after the other, with no line break between them. */
  function Joined(c: Codec, fs: seq<Fragment>): string {
    if fs == [] then "" else Joined(c, fs[..|fs| - 1]) + FragmentText(c, fs[|fs| - 1])
  }

  /** Several fragments in one line, or one that is cut short. */
  ghost predicate BrokenBy(c: Codec, line: string, fs: seq<Fragment>) {
    && (forall k :: 0 <= k < |fs| ==> IsFragment(c, fs[k]))
    && line == Joined(c, fs)
    && (|fs| > 1 || (|fs| == 1 && fs[0].chars < |c.enc(fs[0].record).value|))
  }

  ghost predicate Broken(c: Codec, line: string) {
    exists fs :: BrokenBy(c, line, fs)
  }

  /** The decoder rejects broken lines. One JSON object per line has this property: a cut-short object is not closed,
      and whatever stands before a second opening brace makes the line malformed. */
  ghost predicate Rejecting(c: Codec) {
    && (forall r :: c.enc(r).Some? ==> c.enc(r).value != "")
    && forall line :: Broken(c, line) ==> c.dec(line) == None
  }

  lemma {:induction false} JoinedIsPlain(c: Codec, fs: seq<Fragment>)
    requires PlainOutput(c) && forall k :: 0 <= k < |fs| ==> IsFragment(c, fs[k])
    ensures Plain(Joined(c, fs))
  {
    if fs != [] {
      JoinedIsPlain(c, fs[..|fs| - 1]);
      assert IsFragment(c, fs[|fs| - 1]);
      assert Plain(c.enc(fs[|fs| - 1].record).value);
    }
  }

  lemma BrokenIsPlain(c: Codec, line: string)
    requires PlainOutput(c) && Broken(c, line)
    ensures Plain(line)
  {
    var fs :| BrokenBy(c, line, fs);
    JoinedIsPlain(c, fs);
  }

  lemma JoinedSnoc(c: Codec, fs: seq<Fragment>, f: Fragment)
    requires IsFragment(c, f)
    ensures Joined(c, fs + [f]) == Joined(c, fs) + c.enc(f.record).value[..f.chars]
  {
    SnocParts(fs, f);
  }

  // ----- The unfinished line -----

  /** What the file ends with: a line start, a record that lacks only its line break, or an unfinished line that no
      decoder accepts any more. */
  datatype Tail = Clean | Unbroken(record: ToolCallRecord) | Spoiled

  predicate Partial(c: Codec, r: ToolCallRecord, chars: nat) {
    c.enc(r).Some? && 0 < chars <= |c.enc(r).value|
  }

  function NextTail(c: Codec, tail: Tail, r: ToolCallRecord, chars: nat): Tail {
    if Complete(c, r, chars) then Clean
    else if !Partial(c, r, chars) then tail
    else if tail.Clean? && chars == |c.enc(r).value| then Unbroken(r)
    else Spoiled
  }

  function TailAfter(c: Codec, tail: Tail, rs: seq<ToolCallRecord>, chars: nat -> nat): Tail {
    if rs == [] then tail else
    var k := |rs| - 1;
    NextTail(c, TailAfter(c, tail, rs[..k], chars), rs[k], chars(k))
  }

  /** The completely written records whose write began at a line start. */
  function Surviving(c: Codec, tail: Tail, rs: seq<ToolCallRecord>, chars: nat -> nat): (s: seq<ToolCallRecord>)
    ensures |s| <= |Completed(c, rs, chars)|
  {
    if rs == [] then [] else
    var k := |rs| - 1;
    var before := Surviving(c, tail, rs[..k], chars);
    if Complete(c, rs[k], chars(k)) && TailAfter(c, tail, rs[..k], chars).Clean? then before + [rs[k]] else before
  }

  /** A record that lacks only its line break is read although its write failed. */
  function Dangling(tail: Tail): seq<ToolCallRecord> {
    if tail.Unbroken? then [tail.record] else []
  }

  /** The part of a text after its last line break, and the part up to it. */
  function Unfinished(text: string): (u: string)
    ensures |u| <= |text|
  {
    if AtLineStart(text) then "" else Unfinished(text[..|text| - 1]) + [text[|text| - 1]]
  }

  function Finished(text: string): string {
    if AtLineStart(text) then text else Finished(text[..|text| - 1])
  }

  lemma OneMoreCharacter(text: string, x: char)
    requires x != '\n'
    ensures Finished(text + [x]) == Finished(text) && Unfinished(text + [x]) == Unfinished(text) + [x]
  {
    SnocParts(text, x);
  }

  lemma {:induction false} TextParts(text: string)
    ensures text == Finished(text) + Unfinished(text)
    ensures AtLineStart(Finished(text)) && '\n' !in Unfinished(text)
  {
    if !AtLineStart(text) {
      var init, x := text[..|text| - 1], text[|text| - 1];
      TextParts(init);
      assert text == init + [x];
      OneMoreCharacter(init, x);
      hide Finished, Unfinished;
      Assoc(Finished(init), Unfinished(init), [x]);
    }
  }

  lemma {:induction false} UnfinishedGrows(text: string, more: string)
    requires '\n' !in more
    ensures Finished(text + more) == Finished(text) && Unfinished(text + more) == Unfinished(text) + more
  {
    hide Finished, Unfinished;
    if more == "" {
      AppendNothing(text);
      AppendNothing(Unfinished(text));
    } else {
      var init, x := more[..|more| - 1], more[|more| - 1];
      assert more == init + [x];
      UnfinishedGrows(text, init);
      OneMoreCharacter(text + init, x);
      Assoc(text, init, [x]);
      Assoc(Unfinished(text), init, [x]);
    }
  }

  lemma FinishedIs(text: string)
    requires AtLineStart(text)
    ensures Finished(text) == text && Unfinished(text) == ""
  {}

  /** Cutting a text: the finished lines, then the unfinished one if there is one. */
  lemma SplitParts(text: string)
    ensures Split(text) == Split(Finished(text)) + if Unfinished(text) == "" then [] else [Unfinished(text)]
  {
    var u := Unfinished(text);
    TextParts(text);
    hide Finished, Unfinished;
    SplitConcat(Finished(text), u);
    NoBreak(u);
  }

  /** Completing the unfinished line. */
  lemma SplitFinishing(text: string, more: string)
    requires Plain(Unfinished(text) + more)
    ensures Split(text + more + "\n") == Split(Finished(text)) + [Unfinished(text) + more]
    ensures AtLineStart(text + more + "\n")
  {
    var line := Unfinished(text) + more;
    TextParts(text);
    hide Finished, Unfinished, Split;
    SplitSnoc(Finished(text), line);
    Assoc(Finished(text), Unfinished(text), more);
    assert StripReturn(line) == line;
  }

  // ----- A description of the file without its characters -----

  /** A finished line. Each completely written record ends one, which has its number: an own line, or one with earlier
      fragments in it, which no decoder accepts. Lines a rotation finished have no number: one that can be read although
      its write failed at the line break, or one that cannot. */
  datatype Line = Own(index: nat, record: ToolCallRecord) | Glued(index: nat) | Extra(record: ToolCallRecord) | Junk

  predicate HasNumber(l: Line) {
    l.Own? || l.Glued?
  }

  predicate CanBeRead(l: Line) {
    l.Own? || l.Extra?
  }

  /** `written` counts the records ever completely written; lines with a number below `first` have been rotated away. */
  datatype Shadow = Shadow(lines: seq<Line>, tail: Tail, written: nat, first: nat)

  const NO_FILE := Shadow([], Clean, 0, 0)

  function WriteOne(c: Codec, f: Shadow, r: ToolCallRecord, chars: nat): Shadow {
    var tail := NextTail(c, f.tail, r, chars);
    if Complete(c, r, chars)
    then Shadow(
      f.lines + [if f.tail.Clean? then Own(f.written, r) else Glued(f.written)], tail, f.written + 1, f.first)
    else f.(tail := tail)
  }

  function WriteAll(c: Codec, f: Shadow, rs: seq<ToolCallRecord>, chars: nat -> nat): Shadow {
    if rs == [] then f else
    var k := |rs| - 1;
    WriteOne(c, WriteAll(c, f, rs[..k], chars), rs[k], chars(k))
  }

  /** All lines, the unfinished one included. */
  function AllLines(f: Shadow): seq<Line> {
    match f.tail
    case Clean => f.lines
    case Unbroken(r) => f.lines + [Extra(r)]
    case Spoiled => f.lines + [Junk]
  }

  /** The first number on the lines. */
  function FirstNumber(lines: seq<Line>, otherwise: nat): nat {
    if lines == [] then otherwise else
    if HasNumber(lines[0]) then lines[0].index else FirstNumber(lines[1..], otherwise)
  }

  predicate TooLong(f: Shadow) {
    |AllLines(f)| > MAX_DISK_ENTRIES
  }

  /** A rotation that ran to its end; it also finishes the unfinished line. */
  function Rotate(f: Shadow): Shadow {
    var kept := Last(AllLines(f), MAX_DISK_ENTRIES);
    Shadow(kept, Clean, f.written, FirstNumber(kept, f.written))
  }

  /** The lines that can be read. */
  function Legible(lines: seq<Line>): (legible: seq<Line>)
    ensures |legible| <= |lines|
    ensures forall k :: 0 <= k < |legible| ==> CanBeRead(legible[k])
  {
    if lines == [] then [] else
    var l := lines[|lines| - 1];
    Legible(lines[..|lines| - 1]) + if CanBeRead(l) then [l] else []
  }

  function RecordsOn(lines: seq<Line>): (rs: seq<ToolCallRecord>)
    requires forall k :: 0 <= k < |lines| ==> CanBeRead(lines[k])
    ensures |rs| == |lines|
  {
    seq(|lines|, k requires 0 <= k < |lines| && CanBeRead(lines[k]) => lines[k].record)
  }

  /** The records a loader finds, before it keeps the last 1000. */
  function Readable(lines: seq<Line>): seq<ToolCallRecord> {
    RecordsOn(Legible(lines))
  }

  ghost predicate LineIs(c: Codec, text: string, line: Line) {
    if CanBeRead(line) then c.enc(line.record) == Some(text) else Broken(c, text)
  }

  ghost predicate LinesAre(c: Codec, texts: seq<string>, lines: seq<Line>) {
    |texts| == |lines| && forall k :: 0 <= k < |texts| ==> LineIs(c, texts[k], lines[k])
  }

  ghost predicate TailIs(c: Codec, text: string, tail: Tail) {
    match tail
    case Clean => text == ""
    case Unbroken(r) => c.enc(r) == Some(text)
    case Spoiled => Broken(c, text)
  }

  /** The description fits the text. */
  ghost predicate Mirrors(c: Codec, text: string, f: Shadow) {
    LinesAre(c, Split(Finished(text)), f.lines) && TailIs(c, Unfinished(text), f.tail)
  }

  // ----- The description is kept by every write -----

  lemma TailIsPlain(c: Codec, text: string, tail: Tail)
    requires PlainOutput(c) && TailIs(c, text, tail)
    ensures Plain(text)
  {
    if tail.Spoiled? {
      BrokenIsPlain(c, text);
    }
  }

  /** Writing onto an unfinished line breaks it for good. */
  lemma GluedIsBroken(c: Codec, text: string, tail: Tail, r: ToolCallRecord, chars: nat)
    requires Rejecting(c) && TailIs(c, text, tail) && !tail.Clean? && Partial(c, r, chars)
    ensures Broken(c, text + c.enc(r).value[..chars])
  {
    var f := Fragment(r, chars);
    if tail.Unbroken? {
      var whole := Fragment(tail.record, |text|);
      assert c.enc(tail.record).value[..|text|] == text;
      JoinedSnoc(c, [], whole);
      JoinedSnoc(c, [whole], f);
      assert [] + [whole] == [whole];
      assert BrokenBy(c, text + c.enc(r).value[..chars], [whole] + [f]);
    } else {
      var fs :| BrokenBy(c, text, fs);
      JoinedSnoc(c, fs, f);
      assert BrokenBy(c, text + c.enc(r).value[..chars], fs + [f]);
    }
  }

  /** A cut-short write at a line start. */
  lemma CutIsBroken(c: Codec, r: ToolCallRecord, chars: nat)
    requires Partial(c, r, chars) && chars < |c.enc(r).value|
    ensures Broken(c, c.enc(r).value[..chars])
  {
    var f := Fragment(r, chars);
    JoinedSnoc(c, [], f);
    assert [] + [f] == [f];
    assert BrokenBy(c, c.enc(r).value[..chars], [f]);
  }

  lemma PartialTail(c: Codec, text: string, tail: Tail, r: ToolCallRecord, chars: nat)
    requires Rejecting(c) && TailIs(c, text, tail) && Partial(c, r, chars)
    ensures TailIs(c, text + c.enc(r).value[..chars], NextTail(c, tail, r, chars))
  {
    var all := c.enc(r).value;
    if !tail.Clean? {
      GluedIsBroken(c, text, tail, r, chars);
    } else {
      assert text + all[..chars] == all[..chars];
      if chars < |all| {
        CutIsBroken(c, r, chars);
      } else {
        assert all[..chars] == all;
      }
    }
  }

  lemma FinishedLine(c: Codec, text: string, tail: Tail, r: ToolCallRecord, index: nat)
    requires Rejecting(c) && TailIs(c, text, tail) && c.enc(r).Some?
    ensures LineIs(c, text + c.enc(r).value, if tail.Clean? then Own(index, r) else Glued(index))
  {
    var all := c.enc(r).value;
    if tail.Clean? {
      assert text + all == all;
    } else {
      GluedIsBroken(c, text, tail, r, |all|);
      assert all[..|all|] == all;
    }
  }

  lemma PieceIs(c: Codec, r: ToolCallRecord, chars: nat)
    ensures Complete(c, r, chars) ==> Piece(c, r, chars) == c.enc(r).value + "\n"
    ensures Partial(c, r, chars) ==> Piece(c, r, chars) == c.enc(r).value[..chars]
    ensures !Complete(c, r, chars) && !Partial(c, r, chars) ==> Piece(c, r, chars) == ""
  {}

  lemma WriteMirrors(c: Codec, text: string, f: Shadow, r: ToolCallRecord, chars: nat)
    requires Faithful(c) && Rejecting(c) && Mirrors(c, text, f)
    ensures Mirrors(c, text + Piece(c, r, chars), WriteOne(c, f, r, chars))
  {
    PieceIs(c, r, chars);
    hide Piece, Split, Finished, Unfinished, Broken, Rejecting;
    var u := Unfinished(text);
    if Complete(c, r, chars) {
      var line := c.enc(r).value;
      TailIsPlain(c, u, f.tail);
      assert Plain(line);
      SplitFinishing(text, line);
      Assoc(text, line, "\n");
      FinishedIs(text + line + "\n");
      FinishedLine(c, u, f.tail, r, f.written);
    } else if Partial(c, r, chars) {
      assert Plain(c.enc(r).value);
      UnfinishedGrows(text, c.enc(r).value[..chars]);
      PartialTail(c, u, f.tail, r, chars);
    } else {
      AppendNothing(text);
    }
  }

  lemma {:induction false} WritesMirror(c: Codec, text: string, f: Shadow, rs: seq<ToolCallRecord>, chars: nat -> nat)
    requires Faithful(c) && Rejecting(c) && Mirrors(c, text, f)
    ensures Mirrors(c, Appended(c, text, rs, chars), WriteAll(c, f, rs, chars))
  {
    if rs != [] {
      hide Mirrors, Faithful, Rejecting, Piece, WriteOne;
      var k := |rs| - 1;
      WritesMirror(c, text, f, rs[..k], chars);
      WriteMirrors(c, Appended(c, text, rs[..k], chars), WriteAll(c, f, rs[..k], chars), rs[k], chars(k));
    }
  }

  /** The lines of the text, the unfinished one included. */
  lemma MirroredLines(c: Codec, text: string, f: Shadow)
    requires Rejecting(c) && Mirrors(c, text, f)
    ensures LinesAre(c, Split(text), AllLines(f))
  {
    SplitParts(text);
    hide Split, Finished, Unfinished;
    if f.tail.Spoiled? {
      BrokenIsNotEmpty(c, Unfinished(text));
    }
  }

  lemma BrokenIsNotEmpty(c: Codec, line: string)
    requires Broken(c, line)
    ensures line != ""
  {
    var fs :| BrokenBy(c, line, fs);
    assert IsFragment(c, fs[|fs| - 1]);
  }

  lemma {:induction false} DecodeLines(c: Codec, texts: seq<string>, lines: seq<Line>)
    requires Faithful(c) && Rejecting(c) && LinesAre(c, texts, lines)
    ensures DecodeAll(c, texts) == Readable(lines)
  {
    if texts != [] {
      var k := |texts| - 1;
      assert LineIs(c, texts[k], lines[k]);
      DecodeLines(c, texts[..k], lines[..k]);
      hide Broken;
    }
  }

  lemma LinesArePlain(c: Codec, texts: seq<string>, lines: seq<Line>)
    requires PlainOutput(c) && LinesAre(c, texts, lines)
    ensures forall k :: 0 <= k < |texts| ==> Plain(texts[k])
  {
    forall k | 0 <= k < |texts| ensures Plain(texts[k]) {
      assert LineIs(c, texts[k], lines[k]);
      if !CanBeRead(lines[k]) {
        BrokenIsPlain(c, texts[k]);
      }
    }
  }

  lemma RotationMirrors(c: Codec, text: string, f: Shadow)
    requires Faithful(c) && Rejecting(c) && Mirrors(c, text, f) && |Split(text)| > MAX_DISK_ENTRIES
    ensures Mirrors(c, Frame(KeptLines(text)), Rotate(f))
  {
    MirroredLines(c, text, f);
    LinesArePlain(c, Split(text), AllLines(f));
    SplitFrame(KeptLines(text));
    hide Split, Frame, Broken;
    FinishedIs(Frame(KeptLines(text)));
  }

  // ----- Which records of a batch survive -----

  lemma ReadableSnoc(lines: seq<Line>, l: Line)
    ensures Readable(lines + [l]) == Readable(lines) + if CanBeRead(l) then [l.record] else []
  {
    SnocParts(lines, l);
  }

  lemma {:induction false} WriteAllReads(c: Codec, f: Shadow, rs: seq<ToolCallRecord>, chars: nat -> nat)
    ensures
      var g := WriteAll(c, f, rs, chars);
      && g.tail == TailAfter(c, f.tail, rs, chars)
      && Readable(g.lines) == Readable(f.lines) + Surviving(c, f.tail, rs, chars)
  {
    if rs == [] {
      AppendNothing(Readable(f.lines));
    } else {
      var k := |rs| - 1;
      WriteAllReads(c, f, rs[..k], chars);
      var before := WriteAll(c, f, rs[..k], chars);
      hide Readable;
      if Complete(c, rs[k], chars(k)) {
        ReadableSnoc(before.lines, if before.tail.Clean? then Own(before.written, rs[k]) else Glued(before.written));
        AppendNothing(Readable(before.lines));
        Assoc(Readable(f.lines), Surviving(c, f.tail, rs[..k], chars), [rs[k]]);
      }
    }
  }

  lemma ReadableAll(f: Shadow)
    ensures Readable(AllLines(f)) == Readable(f.lines) + Dangling(f.tail)
  {
    match f.tail {
      case Clean => AppendNothing(Readable(f.lines));
      case Unbroken(r) => ReadableSnoc(f.lines, Extra(r));
      case Spoiled => ReadableSnoc(f.lines, Junk); AppendNothing(Readable(f.lines));
    }
  }

  /** What survives on a file that such writes have made, whatever it ends with. */
  lemma SurvivesOnMirrored(c: Codec, text: string, f: Shadow, rs: seq<ToolCallRecord>, chars: nat -> nat)
    requires Faithful(c) && Rejecting(c) && Mirrors(c, text, f)
    ensures DecodeAll(c, Split(Appended(c, text, rs, chars)))
         == Readable(f.lines) + Surviving(c, f.tail, rs, chars) + Dangling(TailAfter(c, f.tail, rs, chars))
  {
    var g, text' := WriteAll(c, f, rs, chars), Appended(c, text, rs, chars);
    WritesMirror(c, text, f, rs, chars);
    hide Faithful, Rejecting, Mirrors, Readable, AllLines, Split, DecodeAll, Appended, WriteAll, LinesAre;
    MirroredLines(c, text', g);
    DecodeLines(c, Split(text'), AllLines(g));
    ReadableAll(g);
    WriteAllReads(c, f, rs, chars);
  }

  lemma {:induction false} AppendedBehind(c: Codec, text: string, rs: seq<ToolCallRecord>, chars: nat -> nat)
    ensures Appended(c, text, rs, chars) == text + Appended(c, "", rs, chars)
  {
    if rs == [] {
      AppendNothing(text);
    } else {
      hide Piece;
      var k := |rs| - 1;
      AppendedBehind(c, text, rs[..k], chars);
      Assoc(text, Appended(c, "", rs[..k], chars), Piece(c, rs[k], chars(k)));
    }
  }

  lemma NothingMirrored(c: Codec)
    ensures Mirrors(c, "", NO_FILE) && Readable([]) == []
  {}

  /** What can be read of a file: nothing at all once a write has stopped inside a character. */
  function Read(c: Codec, d: Disk): seq<ToolCallRecord> {
    if d.readable then DecodeAll(c, Split(Text(d))) else []
  }

  /** Everything is lost if a write stops inside a character; otherwise, what was read before, then what survived, then
      what dangles. */
  predicate SurvivesExactly(c: Codec, d: Disk, rs: seq<ToolCallRecord>, chars: nat -> nat, inside: nat -> bool) {
    Read(c, AppendedTo(c, d, rs, chars, inside)) ==
      if !d.readable || !NoneInside(c, rs, chars, inside) then []
      else Read(c, d) + Surviving(c, Clean, rs, chars) + Dangling(TailAfter(c, Clean, rs, chars))
  }

  /** What survives of the complete characters. */
  lemma LinesSurvive(c: Codec, text: string, rs: seq<ToolCallRecord>, chars: nat -> nat)
    requires Faithful(c) && Rejecting(c) && AtLineStart(text)
    ensures DecodeAll(c, Split(Appended(c, text, rs, chars)))
         == DecodeAll(c, Split(text)) + Surviving(c, Clean, rs, chars) + Dangling(TailAfter(c, Clean, rs, chars))
  {
    NothingMirrored(c);
    hide Mirrors, Readable, Split, DecodeAll, Appended, Surviving, TailAfter, Rejecting;
    var more := Appended(c, "", rs, chars);
    AppendedBehind(c, text, rs, chars);
    SplitConcat(text, more);
    DecodeConcat(c, Split(text), Split(more));
    SurvivesOnMirrored(c, "", NO_FILE, rs, chars);
    var surviving, dangling := Surviving(c, Clean, rs, chars), Dangling(TailAfter(c, Clean, rs, chars));
    assert [] + surviving == surviving;
    Assoc(DecodeAll(c, Split(text)), surviving, dangling);
  }

  /** Exactly what survives: onto any file that ends at a line start, foreign lines included, after any batch of
      complete, cut-short and failed writes. If one of them stops inside a character the file cannot be read any more,
      and nothing survives. Otherwise the decodable lines are those of before, then the completely written records whose
      write began at a line start, then the record, if any, whose last write lacked only the line break. */
  lemma WhatSurvives(c: Codec, d: Disk, rs: seq<ToolCallRecord>, chars: nat -> nat, inside: nat -> bool)
    requires Faithful(c) && Rejecting(c) && AtLineStart(Text(d))
    ensures SurvivesExactly(c, d, rs, chars, inside)
  {
    hide Split, DecodeAll, Appended, Surviving, TailAfter, Rejecting, NoneInside;
    LinesSurvive(c, Text(d), rs, chars);
  }

  /** No completely written record was written onto an unfinished line. */
  ghost predicate NoneGlued(c: Codec, rs: seq<ToolCallRecord>, chars: nat -> nat) {
    forall k :: 0 <= k < |rs| && Complete(c, rs[k], chars(k)) ==> TailAfter(c, Clean, rs[..k], chars).Clean?
  }

  lemma NoneGluedSnoc(c: Codec, rs: seq<ToolCallRecord>, chars: nat -> nat)
    requires rs != []
    ensures
      var k := |rs| - 1;
      NoneGlued(c, rs, chars) <==>
        (NoneGlued(c, rs[..k], chars) && (Complete(c, rs[k], chars(k)) ==> TailAfter(c, Clean, rs[..k], chars).Clean?))
  {
    hide TailAfter;
    var init := rs[..|rs| - 1];
    assert forall k :: 0 <= k < |init| ==> init[..k] == rs[..k];
    if NoneGlued(c, rs, chars) {
      forall k | 0 <= k < |init| && Complete(c, init[k], chars(k))
        ensures TailAfter(c, Clean, init[..k], chars).Clean?
      {
        assert rs[k] == init[k];
      }
    }
  }

  lemma {:induction false} SurvivingAll(c: Codec, rs: seq<ToolCallRecord>, chars: nat -> nat)
    ensures |Surviving(c, Clean, rs, chars)| == |Completed(c, rs, chars)| <==> NoneGlued(c, rs, chars)
    ensures NoneGlued(c, rs, chars) ==> Surviving(c, Clean, rs, chars) == Completed(c, rs, chars)
  {
    if rs != [] {
      NoneGluedSnoc(c, rs, chars);
      SurvivingAll(c, rs[..|rs| - 1], chars);
      hide NoneGlued;
      AppendNothing(Completed(c, rs[..|rs| - 1], chars));
    }
  }

  /** A record that lacks only its line break is not equal to a completed one. */
  ghost predicate DanglingIsNew(c: Codec, rs: seq<ToolCallRecord>, chars: nat -> nat) {
    forall r :: r in Dangling(TailAfter(c, Clean, rs, chars)) ==> r !in Completed(c, rs, chars)
  }

  /** What is read after the batch is what could be read before, followed by the completed records. */
  predicate BatchRecovered(c: Codec, d: Disk, rs: seq<ToolCallRecord>, chars: nat -> nat, inside: nat -> bool) {
    Read(c, AppendedTo(c, d, rs, chars, inside)) == Read(c, d) + Completed(c, rs, chars)
  }

  /** Every write of the batch that completed did so on a line of its own, and the last that did not left more missing
      than the line break. */
  ghost predicate LinesSound(c: Codec, rs: seq<ToolCallRecord>, chars: nat -> nat) {
    NoneGlued(c, rs, chars) && !TailAfter(c, Clean, rs, chars).Unbroken?
  }

  /** Onto any file that ends at a line start, what is read after a batch is what was read before and the completed
      records, as it should be, if and only if no write stopped inside a character, no completed record was written onto
      an unfinished line and the batch does not end in a record that lacks only its line break; or the file cannot be
      read any more and there was nothing in it to read. (The record that lacks its line break is read without having
      been completed; the equivalence needs that it is not equal to a completed one.) */
  lemma BatchRecoveredIff(c: Codec, d: Disk, rs: seq<ToolCallRecord>, chars: nat -> nat, inside: nat -> bool)
    requires Faithful(c) && Rejecting(c) && AtLineStart(Text(d)) && DanglingIsNew(c, rs, chars)
    ensures BatchRecovered(c, d, rs, chars, inside) <==>
      if d.readable && NoneInside(c, rs, chars, inside) then LinesSound(c, rs, chars)
      else Read(c, d) == [] && Completed(c, rs, chars) == []
  {
    hide Surviving, Completed, TailAfter, NoneGlued, Read, Appended, Rejecting, NoneInside;
    WhatSurvives(c, d, rs, chars, inside);
    SurvivingAll(c, rs, chars);
    SameTail(
      Read(c, d), Surviving(c, Clean, rs, chars), Dangling(TailAfter(c, Clean, rs, chars)), Completed(c, rs, chars));
  }

  /** The same for a file of encoded records, in terms of the records it holds. */
  lemma HeldRecoveredIff(
    c: Codec, d: Disk, held: seq<ToolCallRecord>, rs: seq<ToolCallRecord>, chars: nat -> nat, inside: nat -> bool)
    requires Faithful(c) && Rejecting(c) && Encodable(c, held) && DanglingIsNew(c, rs, chars)
    requires d.readable && Text(d) == Frame(Encodings(c, held))
    ensures Read(c, AppendedTo(c, d, rs, chars, inside)) == held + Completed(c, rs, chars) <==>
      if NoneInside(c, rs, chars, inside) then LinesSound(c, rs, chars) else held == [] && Completed(c, rs, chars) == []
  {
    FramingRoundTrip(c, held);
    LinesAreFramed(c, held);
    assert Read(c, d) == held;
    hide Frame, Encodings, AppendedTo, Completed, Rejecting, TailAfter, NoneGlued, NoneInside, LinesSound, Read;
    BatchRecoveredIff(c, d, rs, chars, inside);
  }

  lemma LinesAreFramed(c: Codec, held: seq<ToolCallRecord>)
    requires PlainOutput(c) && Encodable(c, held)
    ensures AtLineStart(Frame(Encodings(c, held)))
  {
    forall k | 0 <= k < |held| ensures Plain(Encodings(c, held)[k]) {
      assert c.enc(held[k]).Some?;
    }
    SplitFrame(Encodings(c, held));
  }

  lemma SameTail(held: seq<ToolCallRecord>, a: seq<ToolCallRecord>, extra: seq<ToolCallRecord>, b: seq<ToolCallRecord>)
    requires |extra| <= 1 && forall r :: r in extra ==> r !in b
    requires |a| == |b| ==> a == b
    ensures held + a + extra == held + b <==> |a| == |b| && extra == []
  {
    if extra != [] && |b| == |a| + 1 {
      assert extra[0] in extra && b[|a|] in b;
      assert (held + a + extra)[|held| + |a|] == extra[0];
      assert (held + b)[|held| + |a|] == b[|a|];
    }
  }

  // ----- Which records of a run survive -----

  /** One flush: the writes; and if the check finds more than 5000 lines in a readable file and the rotation succeeds,
      the last 5000 of the lines it found. */
  function TickShadow(c: Codec, s: Core, f: Shadow, io: TickIO): Shadow {
    var rs := Untag(Batch(s.queue, io.order));
    if rs == [] || !io.openOk then f else
    var all := WriteAll(c, f, rs, io.chars);
    if s.counter + |rs| < ROTATION_CHECK_INTERVAL then all else
    var seen := if io.late then WriteAll(c, f, rs[..BeforeLastWrite(c, rs)], io.chars) else all;
    if Seen(c, s.disk, rs, io).readable && io.rotateReadOk && io.fault.at >= ROTATION_CALLS && TooLong(seen)
    then Rotate(seen) else all
  }

  /** The description of the file after a run from no file at all. */
  function ShadowOf(c: Codec, es: seq<Event>): Shadow {
    if es == [] then NO_FILE else
    var init, e := es[..|es| - 1], es[|es| - 1];
    var w, f := FromEmpty(c, init), ShadowOf(c, init);
    if e.Tick? && Enabled(w, e) then TickShadow(c, w.core, f, e.io) else f
  }

  /** Own lines carry the records their numbers say, and the numbers increase. */
  ghost predicate OwnsIn(lines: seq<Line>, all: seq<ToolCallRecord>) {
    && (forall k :: 0 <= k < |lines| && HasNumber(lines[k]) ==> lines[k].index < |all|)
    && (forall k :: 0 <= k < |lines| && lines[k].Own? ==> all[lines[k].index] == lines[k].record)
    && (forall j, k :: 0 <= j < k < |lines| && HasNumber(lines[j]) && HasNumber(lines[k]) ==>
          lines[j].index < lines[k].index)
  }

  ghost predicate NumberOccurs(lines: seq<Line>, i: nat) {
    exists k :: 0 <= k < |lines| && HasNumber(lines[k]) && lines[k].index == i
  }

  /** The numbers that occur are those of the records written and not rotated away. */
  ghost predicate NumbersOccur(lines: seq<Line>, first: nat, written: nat) {
    first <= written && forall i: nat :: NumberOccurs(lines, i) <==> first <= i < written
  }

  lemma NumberAppended(lines: seq<Line>, first: nat, l: Line)
    requires HasNumber(l) && NumbersOccur(lines, first, l.index)
    ensures NumbersOccur(lines + [l], first, l.index + 1)
  {
    forall i: nat ensures NumberOccurs(lines + [l], i) <==> first <= i < l.index + 1 {
      LineAppended(lines, l, i);
      assert NumberOccurs(lines, i) <==> first <= i < l.index;
    }
  }

  lemma LineAppended(lines: seq<Line>, l: Line, i: nat)
    ensures NumberOccurs(lines + [l], i) <==> NumberOccurs(lines, i) || (HasNumber(l) && l.index == i)
  {
    var more := lines + [l];
    if NumberOccurs(lines, i) {
      var k :| 0 <= k < |lines| && HasNumber(lines[k]) && lines[k].index == i;
      assert more[k] == lines[k];
    }
    if HasNumber(l) && l.index == i {
      assert more[|lines|] == l;
    }
  }

  lemma UnnumberedAppended(f: Shadow)
    requires NumbersOccur(f.lines, f.first, f.written)
    ensures NumbersOccur(AllLines(f), f.first, f.written)
  {
    forall i: nat ensures NumberOccurs(AllLines(f), i) <==> NumberOccurs(f.lines, i) {
      match f.tail {
        case Clean =>
        case Unbroken(r) => LineAppended(f.lines, Extra(r), i);
        case Spoiled => LineAppended(f.lines, Junk, i);
      }
    }
  }

  /** Where the first number stands. */
  lemma {:induction false} FirstNumberAt(lines: seq<Line>, otherwise: nat) returns (at: nat)
    ensures at <= |lines| && forall k :: 0 <= k < at ==> !HasNumber(lines[k])
    ensures if at < |lines| then HasNumber(lines[at]) && lines[at].index == FirstNumber(lines, otherwise)
            else FirstNumber(lines, otherwise) == otherwise
  {
    if lines == [] || HasNumber(lines[0]) {
      at := 0;
    } else {
      at := FirstNumberAt(lines[1..], otherwise);
      at := at + 1;
    }
  }

  /** A number not below the one on a line behind the cut stands behind the cut. */
  lemma NumberKept(lines: seq<Line>, all: seq<ToolCallRecord>, cut: nat, at: nat, i: nat)
    requires OwnsIn(lines, all) && cut <= at < |lines| && HasNumber(lines[at])
    requires NumberOccurs(lines, i) && lines[at].index <= i
    ensures NumberOccurs(lines[cut..], i)
  {
    var p :| 0 <= p < |lines| && HasNumber(lines[p]) && lines[p].index == i;
    assert at <= p;
    assert lines[cut..][p - cut] == lines[p];
  }

  lemma NumberWasThere(lines: seq<Line>, cut: nat, i: nat)
    requires cut <= |lines| && NumberOccurs(lines[cut..], i)
    ensures NumberOccurs(lines, i)
  {
    var k :| 0 <= k < |lines[cut..]| && HasNumber(lines[cut..][k]) && lines[cut..][k].index == i;
    assert lines[cut + k] == lines[cut..][k];
  }

  lemma NotBelowFirst(lines: seq<Line>, all: seq<ToolCallRecord>, at: nat, i: nat)
    requires OwnsIn(lines, all) && NumberOccurs(lines, i)
    requires at <= |lines| && forall k :: 0 <= k < at ==> !HasNumber(lines[k])
    ensures at < |lines| && (HasNumber(lines[at]) ==> lines[at].index <= i)
  {}

  /** Dropping the oldest lines drops the lowest numbers. */
  lemma LowestDropped(lines: seq<Line>, first: nat, all: seq<ToolCallRecord>, n: nat)
    requires OwnsIn(lines, all) && NumbersOccur(lines, first, |all|)
    ensures NumbersOccur(Last(lines, n), FirstNumber(Last(lines, n), |all|), |all|)
  {
    var cut := if |lines| <= n then 0 else |lines| - n;
    var kept := lines[cut..];
    assert Last(lines, n) == kept;
    KeptOwns(lines, all, cut);
    var at := FirstNumberAt(kept, |all|);
    var lowest := FirstNumber(kept, |all|);
    if at < |kept| {
      assert HasNumber(lines[cut + at]) && NumberOccurs(lines, lowest);
    }
    hide OwnsIn, NumberOccurs, HasNumber, FirstNumber;
    forall i: nat ensures NumberOccurs(kept, i) <==> lowest <= i < |all| {
      if NumberOccurs(kept, i) {
        NumberWasThere(lines, cut, i);
        NotBelowFirst(kept, all, at, i);
      }
      if lowest <= i < |all| {
        NumberKept(lines, all, cut, cut + at, i);
      }
    }
  }

  lemma KeptOwns(lines: seq<Line>, all: seq<ToolCallRecord>, cut: nat)
    requires OwnsIn(lines, all) && cut <= |lines|
    ensures OwnsIn(lines[cut..], all)
  {}

  ghost predicate NumbersFit(f: Shadow, all: seq<ToolCallRecord>) {
    f.written == |all| && OwnsIn(f.lines, all) && NumbersOccur(f.lines, f.first, f.written)
  }

  ghost predicate ShadowFits(c: Codec, d: Disk, all: seq<ToolCallRecord>, f: Shadow) {
    Mirrors(c, Text(d), f) && NumbersFit(f, all)
  }

  lemma WriteOneFits(c: Codec, f: Shadow, r: ToolCallRecord, chars: nat, all: seq<ToolCallRecord>)
    requires NumbersFit(f, all)
    ensures NumbersFit(WriteOne(c, f, r, chars), all + if Complete(c, r, chars) then [r] else [])
  {
    if Complete(c, r, chars) {
      NumberAppended(f.lines, f.first, if f.tail.Clean? then Own(f.written, r) else Glued(f.written));
      hide NumbersOccur;
    } else {
      AppendNothing(all);
    }
  }

  lemma {:induction false} WriteAllFits(
    c: Codec, f: Shadow, rs: seq<ToolCallRecord>, chars: nat -> nat, all: seq<ToolCallRecord>)
    requires NumbersFit(f, all)
    ensures NumbersFit(WriteAll(c, f, rs, chars), all + Completed(c, rs, chars))
  {
    if rs == [] {
      AppendNothing(all);
    } else {
      hide NumbersFit, WriteOne;
      var k := |rs| - 1;
      WriteAllFits(c, f, rs[..k], chars, all);
      var done := Completed(c, rs[..k], chars);
      WriteOneFits(c, WriteAll(c, f, rs[..k], chars), rs[k], chars(k), all + done);
      Assoc(all, done, if Complete(c, rs[k], chars(k)) then [rs[k]] else []);
    }
  }

  lemma AllLinesOwn(f: Shadow, all: seq<ToolCallRecord>)
    requires OwnsIn(f.lines, all)
    ensures OwnsIn(AllLines(f), all)
  {}

  lemma RotateFits(f: Shadow, all: seq<ToolCallRecord>)
    requires NumbersFit(f, all)
    ensures NumbersFit(Rotate(f), all)
  {
    AllLinesOwn(f, all);
    UnnumberedAppended(f);
    LowestDropped(AllLines(f), f.first, all, MAX_DISK_ENTRIES);
    hide NumbersOccur, FirstNumber;
  }

  lemma AppendFits(c: Codec, d: Disk, all: seq<ToolCallRecord>, f: Shadow, rs: seq<ToolCallRecord>, io: TickIO)
    requires Faithful(c) && Rejecting(c) && ShadowFits(c, d, all, f)
    ensures ShadowFits(
      c, AppendedTo(c, d, rs, io.chars, io.inside), all + Completed(c, rs, io.chars), WriteAll(c, f, rs, io.chars))
  {
    WritesMirror(c, Text(d), f, rs, io.chars);
    WriteAllFits(c, f, rs, io.chars, all);
    hide Mirrors, NumbersFit;
  }

  lemma TooLongToRead(c: Codec, d: Disk, all: seq<ToolCallRecord>, f: Shadow)
    requires Rejecting(c) && ShadowFits(c, d, all, f)
    ensures TooLong(f) <==> |Split(Text(d))| > MAX_DISK_ENTRIES
  {
    MirroredLines(c, Text(d), f);
    hide Split, Mirrors, NumbersFit;
  }

  lemma RotationFits(c: Codec, d: Disk, all: seq<ToolCallRecord>, f: Shadow, readOk: bool, fault: Fault)
    requires Faithful(c) && Rejecting(c) && ShadowFits(c, d, all, f) && Replaces(d, readOk, fault)
    ensures ShadowFits(c, Rotated(d, readOk, fault), all, Rotate(f))
  {
    RotationCrashAtomic(d, readOk, fault);
    RotationMirrors(c, d.file.value, f);
    RotateFits(f, all);
    hide Mirrors, NumbersFit, Split, Rotated, Frame, KeptLines, Rotate;
  }

  /** Only the characters of the file matter. */
  lemma SameFileFits(c: Codec, d: Disk, d': Disk, all: seq<ToolCallRecord>, f: Shadow)
    requires ShadowFits(c, d, all, f) && d'.file == d.file
    ensures ShadowFits(c, d', all, f)
  {}

  lemma CheckFits(c: Codec, d: Disk, all: seq<ToolCallRecord>, f: Shadow, rs: seq<ToolCallRecord>, io: TickIO)
    requires Faithful(c) && Rejecting(c) && ShadowFits(c, d, all, f)
    ensures
      var landed := if io.late then rs[..BeforeLastWrite(c, rs)] else rs;
      var seen := WriteAll(c, f, landed, io.chars);
      var replaced := Replaces(Seen(c, d, rs, io), io.rotateReadOk, io.fault);
      && (replaced <==>
            Seen(c, d, rs, io).readable && io.rotateReadOk && io.fault.at >= ROTATION_CALLS && TooLong(seen))
      && (replaced ==> ShadowFits(c, Checked(c, d, rs, io), all + Completed(c, landed, io.chars), Rotate(seen)))
      && (!replaced ==>
            ShadowFits(c, Checked(c, d, rs, io), all + Completed(c, rs, io.chars), WriteAll(c, f, rs, io.chars)))
  {
    var landed := if io.late then rs[..BeforeLastWrite(c, rs)] else rs;
    var seen := WriteAll(c, f, landed, io.chars);
    AppendFits(c, d, all, f, landed, io);
    AppendFits(c, d, all, f, rs, io);
    SeenHasFile(c, d, rs, io);
    hide ShadowFits, Faithful, Rejecting, Rotated, WriteAll, Completed, AppendedTo, TooLong, Split, BeforeLastWrite,
      Rotate;
    TooLongToRead(c, Seen(c, d, rs, io), all + Completed(c, landed, io.chars), seen);
    if Replaces(Seen(c, d, rs, io), io.rotateReadOk, io.fault) {
      RotationFits(c, Seen(c, d, rs, io), all + Completed(c, landed, io.chars), seen, io.rotateReadOk, io.fault);
    } else {
      CheckKeeps(c, d, rs, io);
      SameFileFits(c, AppendedTo(c, d, rs, io.chars, io.inside), Checked(c, d, rs, io),
        all + Completed(c, rs, io.chars), WriteAll(c, f, rs, io.chars));
    }
  }

  lemma SeenHasFile(c: Codec, d: Disk, rs: seq<ToolCallRecord>, io: TickIO)
    ensures Seen(c, d, rs, io).file.Some?
  {}

  lemma TickFits(c: Codec, s: Core, io: TickIO, all: seq<ToolCallRecord>, f: Shadow)
    requires Faithful(c) && Rejecting(c) && ShadowFits(c, s.disk, all, f)
    ensures ShadowFits(c, TickCore(c, s, io).disk, all + Landed(c, s, io), TickShadow(c, s, f, io))
  {
    hide ShadowFits, Faithful, Rejecting, WriteAll, Completed, Batch, AppendedTo, Checked, Seen, Replaces, Rotate,
      TooLong, BeforeLastWrite;
    var rs := Untag(Batch(s.queue, io.order));
    if rs == [] || !io.openOk {
      NoneCompleted(c, io);
      assert rs == [] ==> rs[..BeforeLastWrite(c, rs)] == [];
      AppendNothing(all);
    } else {
      AppendFits(c, s.disk, all, f, rs, io);
      CheckFits(c, s.disk, all, f, rs, io);
    }
  }

  lemma FitsStep(c: Codec, w: World, e: Event, f: Shadow)
    requires Faithful(c) && Rejecting(c) && ShadowFits(c, w.core.disk, EverWritten(w.log), f)
    ensures
      var w' := Next(c, w, e);
      ShadowFits(c, w'.core.disk, EverWritten(w'.log),
        if e.Tick? && Enabled(w, e) then TickShadow(c, w.core, f, e.io) else f)
  {
    if Enabled(w, e) {
      match e {
        case Send(_) =>
        case Receive => ReceiveWritesNothing(w.log, w.core, w.channel[0]);
        case Tick(io) =>
          TickFits(c, w.core, io, EverWritten(w.log), f);
          TickWrites(c, w, io);
        case Restart(readOk) => RestartWritesNothing(c, w, readOk);
      }
    }
    hide ShadowFits, EverWritten, TickShadow;
  }

  lemma NothingFits(c: Codec)
    ensures
      var w := FromEmpty(c, []);
      ShadowFits(c, w.core.disk, EverWritten(w.log), NO_FILE)
  {}

  lemma {:induction false} RunFits(c: Codec, es: seq<Event>)
    requires Faithful(c) && Rejecting(c)
    ensures
      var w := FromEmpty(c, es);
      ShadowFits(c, w.core.disk, EverWritten(w.log), ShadowOf(c, es))
  {
    if es == [] {
      NothingFits(c);
    } else {
      hide ShadowFits, Faithful, Rejecting, EverWritten, Next, TickShadow, Enabled;
      var init := es[..|es| - 1];
      RunFits(c, init);
      FitsStep(c, FromEmpty(c, init), es[|es| - 1], ShadowOf(c, init));
    }
  }

  /** A written record still has its line in the file. */
  ghost predicate HasLine(lines: seq<Line>, i: nat) {
    exists k :: 0 <= k < |lines| && lines[k].Own? && lines[k].index == i
  }

  /** The number of the first of the last 1000 records. */
  function RecentFrom(written: nat): (first: nat)
    ensures first <= written
  {
    if written <= MAX_HISTORY_ENTRIES then 0 else written - MAX_HISTORY_ENTRIES
  }

  /** None of the last 1000 written records was rotated away or written onto an unfinished line, and none of the last
      1000 readable lines belongs to a write that failed at its line break. */
  ghost predicate RecentKept(f: Shadow) {
    && f.first <= RecentFrom(f.written)
    && (forall l :: l in AllLines(f) && l.Glued? ==> l.index < RecentFrom(f.written))
    && (forall l :: l in Last(Legible(AllLines(f)), MAX_HISTORY_ENTRIES) ==> l.Own?)
  }

  /** The numbers of the last 1000 written records are on lines of their own. */
  ghost predicate RecentHaveLines(lines: seq<Line>, written: nat) {
    forall i: nat :: RecentFrom(written) <= i < written ==> HasLine(lines, i)
  }

  lemma HaveLinesIff(lines: seq<Line>, first: nat, all: seq<ToolCallRecord>, recent: nat)
    requires OwnsIn(lines, all) && NumbersOccur(lines, first, |all|) && recent <= |all|
    ensures (forall i: nat :: recent <= i < |all| ==> HasLine(lines, i)) <==>
            (first <= recent && forall l :: l in lines && l.Glued? ==> l.index < recent)
  {
    if forall i: nat :: recent <= i < |all| ==> HasLine(lines, i) {
      assert recent < |all| ==> HasLine(lines, recent) && NumberOccurs(lines, recent);
      forall l | l in lines && l.Glued? ensures l.index < recent {
        var q :| 0 <= q < |lines| && lines[q] == l;
        assert HasNumber(lines[q]);
        assert l.index >= recent ==> HasLine(lines, l.index);
      }
    }
    if first <= recent && forall l :: l in lines && l.Glued? ==> l.index < recent {
      forall i: nat | recent <= i < |all| ensures HasLine(lines, i) {
        assert NumberOccurs(lines, i);
        var k :| 0 <= k < |lines| && HasNumber(lines[k]) && lines[k].index == i;
        assert lines[k] in lines;
      }
    }
  }

  lemma RecentKeptIff(f: Shadow, all: seq<ToolCallRecord>)
    requires NumbersFit(f, all)
    ensures RecentKept(f) <==>
      RecentHaveLines(AllLines(f), |all|)
      && forall l :: l in Last(Legible(AllLines(f)), MAX_HISTORY_ENTRIES) ==> l.Own?
  {
    AllLinesOwn(f, all);
    UnnumberedAppended(f);
    hide OwnsIn, NumbersOccur, HasLine, AllLines;
    HaveLinesIff(AllLines(f), f.first, all, RecentFrom(|all|));
  }

  /** Records can be told apart: no two written ones are equal, and none equals one read from an unbroken line. */
  ghost predicate ToldApart(lines: seq<Line>, all: seq<ToolCallRecord>) {
    && (forall i, j :: 0 <= i < j < |all| ==> all[i] != all[j])
    && (forall k :: 0 <= k < |lines| && lines[k].Extra? ==> lines[k].record !in all)
  }

  lemma {:induction false} LegibleMembers(lines: seq<Line>, l: Line)
    ensures l in Legible(lines) <==> l in lines && CanBeRead(l)
  {
    if lines != [] {
      LegibleMembers(lines[..|lines| - 1], l);
      assert lines == lines[..|lines| - 1] + [lines[|lines| - 1]];
    }
  }

  lemma {:induction false} LegibleOwns(lines: seq<Line>, all: seq<ToolCallRecord>)
    requires OwnsIn(lines, all)
    ensures OwnsIn(Legible(lines), all)
  {
    if lines != [] {
      var init, l := lines[..|lines| - 1], lines[|lines| - 1];
      LegibleOwns(init, all);
      forall k | 0 <= k < |Legible(init)| && Legible(init)[k].Own? && l.Own? ensures Legible(init)[k].index < l.index {
        LegibleMembers(init, Legible(init)[k]);
      }
    }
  }

  lemma LegibleHasLine(lines: seq<Line>, i: nat)
    ensures HasLine(Legible(lines), i) <==> HasLine(lines, i)
  {
    if HasLine(lines, i) {
      var k :| 0 <= k < |lines| && lines[k].Own? && lines[k].index == i;
      LegibleMembers(lines, lines[k]);
    }
    if HasLine(Legible(lines), i) {
      var k :| 0 <= k < |Legible(lines)| && Legible(lines)[k].Own? && Legible(lines)[k].index == i;
      LegibleMembers(lines, Legible(lines)[k]);
    }
  }

  /** The last m lines are those of the last m written records. */
  ghost predicate EndsIn(lines: seq<Line>, written: nat, m: nat) {
    && m <= |lines| && m <= written
    && forall k :: |lines| - m <= k < |lines| ==> lines[k].Own? && lines[k].index + |lines| == written + k
  }

  lemma OneLineBack(lines: seq<Line>, all: seq<ToolCallRecord>, m: nat)
    requires OwnsIn(lines, all) && 0 < m <= |all| && EndsIn(lines, |all|, m - 1)
    requires HasLine(lines, |all| - m) && (m <= |lines| ==> lines[|lines| - m].Own?)
    ensures EndsIn(lines, |all|, m)
  {
    var p :| 0 <= p < |lines| && lines[p].Own? && lines[p].index == |all| - m;
    var at := |lines| - m;
    assert p <= at;
    assert m > 1 ==> lines[at + 1].index == |all| - m + 1;
    assert lines[at].index == |all| - m;
  }

  lemma RecentIsOwn(lines: seq<Line>, m: nat)
    requires 0 < m <= Min(MAX_HISTORY_ENTRIES, |lines|)
    requires forall l :: l in Last(lines, MAX_HISTORY_ENTRIES) ==> l.Own?
    ensures lines[|lines| - m].Own?
  {
    var recent := Last(lines, MAX_HISTORY_ENTRIES);
    assert recent[|recent| - m] == lines[|lines| - m];
  }

  /** Going back from the end, line by line. */
  lemma {:induction false} LastLinesAre(lines: seq<Line>, all: seq<ToolCallRecord>, m: nat)
    requires OwnsIn(lines, all) && m <= Min(MAX_HISTORY_ENTRIES, |all|)
    requires RecentHaveLines(lines, |all|)
    requires forall l :: l in Last(lines, MAX_HISTORY_ENTRIES) ==> l.Own?
    ensures EndsIn(lines, |all|, m)
  {
    if m == 0 {
      assert EndsIn(lines, |all|, 0);
    } else {
      hide OwnsIn, HasLine, EndsIn;
      LastLinesAre(lines, all, m - 1);
      if m <= |lines| {
        RecentIsOwn(lines, m);
      }
      OneLineBack(lines, all, m);
    }
  }

  /** A line before those of all written records is nobody's. */
  lemma EarlierLine(lines: seq<Line>, all: seq<ToolCallRecord>)
    requires OwnsIn(lines, all) && EndsIn(lines, |all|, |all|)
    requires |all| < MAX_HISTORY_ENTRIES && |lines| > |all|
    ensures exists l :: l in Last(lines, MAX_HISTORY_ENTRIES) && !l.Own?
  {
    var at, recent := |lines| - |all| - 1, Last(lines, MAX_HISTORY_ENTRIES);
    assert |all| > 0 ==> lines[at + 1].Own? && lines[at + 1].index == 0;
    assert !lines[at].Own?;
    assert recent[|recent| - |all| - 1] == lines[at];
  }

  /** There is no further line among the last 1000. */
  lemma LastLinesAreAll(lines: seq<Line>, all: seq<ToolCallRecord>)
    requires OwnsIn(lines, all) && EndsIn(lines, |all|, Min(MAX_HISTORY_ENTRIES, |all|))
    requires forall l :: l in Last(lines, MAX_HISTORY_ENTRIES) ==> l.Own?
    ensures |Last(lines, MAX_HISTORY_ENTRIES)| == Min(MAX_HISTORY_ENTRIES, |all|)
  {
    if |all| < MAX_HISTORY_ENTRIES && |lines| > |all| {
      EarlierLine(lines, all);
    }
  }

  lemma RecordsOfEnd(lines: seq<Line>, all: seq<ToolCallRecord>)
    requires forall k :: 0 <= k < |lines| ==> CanBeRead(lines[k])
    requires OwnsIn(lines, all) && EndsIn(lines, |all|, Min(MAX_HISTORY_ENTRIES, |all|))
    requires |Last(lines, MAX_HISTORY_ENTRIES)| == Min(MAX_HISTORY_ENTRIES, |all|)
    ensures Last(RecordsOn(lines), MAX_HISTORY_ENTRIES) == Last(all, MAX_HISTORY_ENTRIES)
  {
    var m, recent := Min(MAX_HISTORY_ENTRIES, |all|), Last(RecordsOn(lines), MAX_HISTORY_ENTRIES);
    forall k | 0 <= k < m ensures recent[k] == Last(all, MAX_HISTORY_ENTRIES)[k] {
      var at := |lines| - m + k;
      assert recent[k] == lines[at].record;
      assert lines[at].index == |all| - m + k;
    }
  }

  lemma KeptIsRead(lines: seq<Line>, all: seq<ToolCallRecord>)
    requires OwnsIn(lines, all)
    requires RecentHaveLines(lines, |all|)
    requires forall l :: l in Last(Legible(lines), MAX_HISTORY_ENTRIES) ==> l.Own?
    ensures Last(Readable(lines), MAX_HISTORY_ENTRIES) == Last(all, MAX_HISTORY_ENTRIES)
  {
    var legible := Legible(lines);
    LegibleOwns(lines, all);
    forall i: nat | RecentFrom(|all|) <= i < |all| ensures HasLine(legible, i) {
      LegibleHasLine(lines, i);
    }
    hide OwnsIn, HasLine, EndsIn, Legible;
    LastLinesAre(legible, all, Min(MAX_HISTORY_ENTRIES, |all|));
    LastLinesAreAll(legible, all);
    RecordsOfEnd(legible, all);
  }

  lemma ReadIsKept(lines: seq<Line>, all: seq<ToolCallRecord>)
    requires OwnsIn(lines, all) && ToldApart(lines, all)
    requires Last(Readable(lines), MAX_HISTORY_ENTRIES) == Last(all, MAX_HISTORY_ENTRIES)
    ensures RecentHaveLines(lines, |all|)
    ensures forall l :: l in Last(Legible(lines), MAX_HISTORY_ENTRIES) ==> l.Own?
  {
    var recent, m := Last(Legible(lines), MAX_HISTORY_ENTRIES), Min(MAX_HISTORY_ENTRIES, |all|);
    assert |recent| == m;
    forall k | 0 <= k < m ensures recent[k] in lines && recent[k].Own? && recent[k].index == |all| - m + k {
      var l := recent[k];
      assert l == Legible(lines)[|Legible(lines)| - m + k];
      LegibleMembers(lines, l);
      assert Last(Readable(lines), MAX_HISTORY_ENTRIES)[k] == l.record;
      assert Last(all, MAX_HISTORY_ENTRIES)[k] == all[|all| - m + k];
    }
    forall i: nat | RecentFrom(|all|) <= i < |all| ensures HasLine(lines, i) {
      var l := recent[i - (|all| - m)];
      assert l in lines;
    }
  }

  lemma LoadIsReadable(c: Codec, d: Disk, all: seq<ToolCallRecord>, f: Shadow)
    requires Faithful(c) && Rejecting(c) && ShadowFits(c, d, all, f)
    ensures Loaded(c, d.file) == Last(Readable(AllLines(f)), MAX_HISTORY_ENTRIES)
  {
    MirroredLines(c, Text(d), f);
    DecodeLines(c, Split(Text(d)), AllLines(f));
    hide LinesAre, Mirrors, Rejecting, Readable, DecodeAll;
    NothingDecoded(c);
  }

  lemma NothingDecoded(c: Codec)
    ensures DecodeAll(c, Split("")) == []
  {}

  lemma LoadedIsRecovered(c: Codec, w: World)
    ensures RecoversLast(c, w) <==> LoadedFrom(c, w.core.disk) == Last(EverWritten(w.log), MAX_HISTORY_ENTRIES)
  {}

  /** Recovery under torn writes, exactly: in every run from an empty file, with any writes cut short or failing, failed
      opens, rotations stopped at any call, writes in flight during them, and restarts. Once a write has stopped inside
      a character a start loads nothing, and the last 1000 written records are recovered only if there are none. Until
      then loading gives the last 1000 readable records of the description. If none of the last 1000 written records was
      rotated away or written onto an unfinished line and no line of a failed write is among the last 1000 readable
      ones, these are the last 1000 written records; and when records can be told apart, they are only then. */
  lemma RecoveredIff(c: Codec, es: seq<Event>)
    requires Faithful(c) && Rejecting(c)
    ensures
      var w, f := FromEmpty(c, es), ShadowOf(c, es);
      var readable := w.core.disk.readable;
      && LoadedFrom(c, w.core.disk) == (if readable then Last(Readable(AllLines(f)), MAX_HISTORY_ENTRIES) else [])
      && f.written == |EverWritten(w.log)|
      && (readable && RecentKept(f) ==> RecoversLast(c, w))
      && (ToldApart(AllLines(f), EverWritten(w.log)) ==>
            (RecoversLast(c, w) <==> if readable then RecentKept(f) else EverWritten(w.log) == []))
  {
    var w, f := FromEmpty(c, es), ShadowOf(c, es);
    var all := EverWritten(w.log);
    RunFits(c, es);
    LoadIsReadable(c, w.core.disk, all, f);
    LoadedIsRecovered(c, w);
    AllLinesOwn(f, all);
    hide Faithful, Rejecting, Mirrors, OwnsIn, NumbersOccur, EverWritten, ShadowOf, FromEmpty, Loaded, RecoversLast,
      Readable, Legible, AllLines, HasLine, ToldApart, RecentKept, RecentHaveLines;
    RecentKeptIff(f, all);
    if w.core.disk.readable {
      if RecentKept(f) {
        KeptIsRead(AllLines(f), all);
      }
      if ToldApart(AllLines(f), all) && RecoversLast(c, w) {
        ReadIsKept(AllLines(f), all);
      }
    }
  }

  /** A flush of one connection's queue whose first write stops after one character. */
  function CutFirstWrite(c: Codec, next: ToolCallRecord): TickIO
    requires c.enc(next).Some?
  {
    var length := |c.enc(next).value| + 1;
    TickIO(["c"], true, k => if k == 0 then 1 else length, _ => false, false, true, Fault(ROTATION_CALLS, 0))
  }

  /** Two calls, then such a flush. */
  function TornRun(c: Codec, torn: ToolCallRecord, next: ToolCallRecord): seq<Event>
    requires c.enc(next).Some?
  {
    [Send(AddCall("c", torn)), Send(AddCall("c", next))] + [Receive, Receive] + [Tick(CutFirstWrite(c, next))]
  }

  /** Both calls are queued, and nothing is written yet. */
  ghost predicate BothQueued(w: World, torn: ToolCallRecord, next: ToolCallRecord) {
    && w.core.queue.Keys == {"c"} && Lookup(w.core.queue, "c") == [torn, next]
    && w.core.counter == 0 && w.core.disk == EMPTY_DISK && EverWritten(w.log) == []
  }

  lemma TwoCalls(c: Codec, torn: ToolCallRecord, next: ToolCallRecord)
    ensures
      var w := FromEmpty(c, [Send(AddCall("c", torn)), Send(AddCall("c", next))] + [Receive, Receive]);
      BothQueued(w, torn, next)
  {
    var w0, send0, send1 := Started(c, EMPTY_DISK, true, []), Send(AddCall("c", torn)), Send(AddCall("c", next));
    ExecTwo(c, w0, send0, send1);
    var w1 := Exec(c, w0, [send0, send1]);
    ExecTwo(c, w1, Receive, Receive);
    ExecConcat(c, w0, [send0, send1], [Receive, Receive]);
    hide Exec;
    assert w1.channel == [AddCall("c", torn), AddCall("c", next)] && w1.core == w0.core;
    var w2 := Next(c, w1, Receive);
    assert w2.channel == [AddCall("c", next)];
    assert w2.core.queue.Keys == {"c"} && Lookup(w2.core.queue, "c") == [torn];
  }

  lemma TornFlush(c: Codec, w: World, torn: ToolCallRecord, next: ToolCallRecord)
    requires Faithful(c) && Rejecting(c) && c.enc(torn).Some? && c.enc(next).Some? && BothQueued(w, torn, next)
    ensures
      var w' := Next(c, w, Tick(CutFirstWrite(c, next)));
      EverWritten(w'.log) == [next] && LoadedFrom(c, w'.core.disk) == []
  {
    var io := CutFirstWrite(c, next);
    assert IsOrder(["c"], {"c"});
    OneQueue(w.core.queue);
    TickWrites(c, w, io);
    AppendedTwo(c, "", torn, next, io.chars);
    hide Appended, WrittenOf, Completed, Batch, EverWritten, DecodeAll, Split, NoneInside;
    NothingSurvives(c, torn, next, io.chars);
  }

  lemma NothingSurvives(c: Codec, torn: ToolCallRecord, next: ToolCallRecord, chars: nat -> nat)
    requires Faithful(c) && Rejecting(c) && Partial(c, torn, chars(0)) && Complete(c, next, chars(1))
    ensures DecodeAll(c, Split(Appended(c, "", [torn, next], chars))) == []
  {
    NothingDecoded(c);
    hide Surviving, TailAfter, DecodeAll, Split, Appended;
    LinesSurvive(c, "", [torn, next], chars);
    TornPair(c, torn, next, chars);
  }

  /** A run that loses a completely written record: one record is written, and nothing can be read. */
  lemma TornRunLoses(c: Codec, torn: ToolCallRecord, next: ToolCallRecord)
    requires Faithful(c) && Rejecting(c) && c.enc(torn).Some? && c.enc(next).Some?
    ensures
      var w := FromEmpty(c, TornRun(c, torn, next));
      EverWritten(w.log) == [next] && LoadedFrom(c, w.core.disk) == [] && !RecoversLast(c, w)
  {
    var calls, flush :=
      [Send(AddCall("c", torn)), Send(AddCall("c", next))] + [Receive, Receive], Tick(CutFirstWrite(c, next));
    TwoCalls(c, torn, next);
    hide Exec, BothQueued, Next, EverWritten, LoadedFrom;
    ExecConcat(c, Started(c, EMPTY_DISK, true, []), calls, [flush]);
    ExecOne(c, FromEmpty(c, calls), flush);
    TornFlush(c, FromEmpty(c, calls), torn, next);
    LoadedIsRecovered(c, FromEmpty(c, TornRun(c, torn, next)));
  }

  lemma TornPair(c: Codec, torn: ToolCallRecord, next: ToolCallRecord, chars: nat -> nat)
    requires Partial(c, torn, chars(0)) && Complete(c, next, chars(1))
    ensures Surviving(c, Clean, [torn, next], chars) == []
    ensures TailAfter(c, Clean, [torn, next], chars) == Clean
  {
    assert [torn, next][..1] == [torn] && [torn][..0] == [];
    assert TailAfter(c, Clean, [torn], chars) != Clean;
    assert Surviving(c, Clean, [torn], chars) == [];
  }

  // ----- A write that stops inside a character -----

  /** A flush whose only write stops inside character number `at`. */
  function CutInside(at: nat): TickIO {
    TickIO(["c"], true, _ => at, _ => true, false, true, Fault(ROTATION_CALLS, 0))
  }

  /** n good records in one flush, one more call, and such a flush. */
  function InsideRun(c: Codec, good: ToolCallRecord, n: nat, bad: ToolCallRecord, at: nat): seq<Event>
    requires c.enc(good).Some?
  {
    DG.Burst(c, good, n, false) + [Send(AddCall("c", bad)), Receive] + [Tick(CutInside(at))]
  }

  /** One record is queued; n copies of another are written and can be read. */
  ghost predicate OneQueued(c: Codec, w: World, good: ToolCallRecord, n: nat, bad: ToolCallRecord) {
    && w.core.queue.Keys == {"c"} && Lookup(w.core.queue, "c") == [bad]
    && EverWritten(w.log) == Copies(good, n) && LoadedFrom(c, w.core.disk) == Last(Copies(good, n), MAX_HISTORY_ENTRIES)
  }

  lemma CopiesLoad(c: Codec, d: Disk, r: ToolCallRecord, n: nat)
    requires Faithful(c) && c.enc(r).Some? && d.readable && Text(d) == Frame(Copies(c.enc(r).value, n))
    ensures LoadedFrom(c, d) == Last(Copies(r, n), MAX_HISTORY_ENTRIES)
  {
    DG.EncodedCopies(c, r, n);
    FramingRoundTrip(c, Copies(r, n));
    NothingDecoded(c);
    hide Split, Frame, DecodeAll, Encodings, Encodable;
  }

  lemma OneMoreCall(c: Codec, w: World, good: ToolCallRecord, n: nat, counter: nat, bad: ToolCallRecord)
    requires Faithful(c) && c.enc(good).Some? && DG.Holds(c, w, good, n, 0, counter)
    ensures OneQueued(c, Next(c, Next(c, w, Send(AddCall("c", bad))), Receive), good, n, bad)
  {
    var sent := Next(c, w, Send(AddCall("c", bad)));
    ReceiveWritesNothing(sent.log, sent.core, AddCall("c", bad));
    CopiesLoad(c, w.core.disk, good, n);
    hide Frame, WrittenOf, LoadedFrom;
  }

  lemma InsideFlush(c: Codec, w: World, good: ToolCallRecord, n: nat, bad: ToolCallRecord, at: nat)
    requires OneQueued(c, w, good, n, bad) && c.enc(bad).Some?
    requires at < |c.enc(bad).value| && c.enc(bad).value[at] as int >= 0x80
    ensures
      var w' := Next(c, w, Tick(CutInside(at)));
      !w'.core.disk.readable && EverWritten(w'.log) == Copies(good, n)
  {
    var io := CutInside(at);
    assert IsOrder(["c"], {"c"});
    OneQueue(w.core.queue);
    TickWrites(c, w, io);
    assert StopsInside(c, [bad][0], io.chars(0), io.inside(0));
    assert [bad][..0] == [];
    assert Completed(c, [bad], io.chars) == [];
    assert Landed(c, w.core, io) == [];
    hide EverWritten, Batch, Appended, Split, Landed;
  }

  /** One write that stops inside a character takes everything: after n good records, all of which a restart would have
      loaded, and one record with a character of several bytes whose write stops in the middle of that character, a
      restart loads nothing, and by NeverReadableAgain no later one ever does. */
  lemma InsideRunLosesAll(c: Codec, good: ToolCallRecord, n: nat, bad: ToolCallRecord, at: nat)
    requires Faithful(c) && c.enc(good).Some? && c.enc(bad).Some? && 0 < n <= MAX_DISK_ENTRIES
    requires at < |c.enc(bad).value| && c.enc(bad).value[at] as int >= 0x80
    ensures
      var before := FromEmpty(c, InsideRun(c, good, n, bad, at)[..|InsideRun(c, good, n, bad, at)| - 1]);
      var after := FromEmpty(c, InsideRun(c, good, n, bad, at));
      && LoadedFrom(c, before.core.disk) == Last(Copies(good, n), MAX_HISTORY_ENTRIES)
      && EverWritten(after.log) == Copies(good, n)
      && LoadedFrom(c, after.core.disk) == [] && !after.core.disk.readable && !RecoversLast(c, after)
  {
    var w0, burst := Started(c, EMPTY_DISK, true, []), DG.Burst(c, good, n, false);
    var call, flush := [Send(AddCall("c", bad)), Receive], Tick(CutInside(at));
    DG.StartedHolds(c, good);
    hide Exec, Next, DG.Burst, DG.Holds, Started, OneQueued;
    DG.BurstEffect(c, w0, good, 0, n, false);
    var w1 := Exec(c, w0, burst);
    ExecTwo(c, w1, call[0], call[1]);
    OneMoreCall(c, w1, good, n, if n >= ROTATION_CHECK_INTERVAL then 0 else n, bad);
    ExecConcat(c, w0, burst, call);
    SnocParts(burst + call, flush);
    ExecConcat(c, w0, burst + call, [flush]);
    var w2 := Exec(c, w0, burst + call);
    ExecOne(c, w2, flush);
    InsideFlush(c, w2, good, n, bad, at);
    QueuedLoads(c, w2, good, n, bad);
    LoadedIsRecovered(c, FromEmpty(c, InsideRun(c, good, n, bad, at)));
  }

  lemma QueuedLoads(c: Codec, w: World, good: ToolCallRecord, n: nat, bad: ToolCallRecord)
    requires OneQueued(c, w, good, n, bad)
    ensures LoadedFrom(c, w.core.disk) == Last(Copies(good, n), MAX_HISTORY_ENTRIES)
  {}
}
