// The JSONL history file: appending, loading, and the temp-file-plus-rename rotation.
module HistoryFile {
  import opened Wrappers
  import opened Seqs
  import opened Lines

  const MAX_HISTORY_ENTRIES: nat := 1000
  const MAX_DISK_ENTRIES: nat := 5000
  /** Calls made by a rotation that has something to do. */
  const ROTATION_CALLS: nat := 2 * MAX_DISK_ENTRIES + 3

  datatype ToolCallRecord = ToolCallRecord(
    timestamp: string, toolName: string, argsJson: string, outputJson: string, durationMs: Option<nat>)

  /** The serializer pair. Encoding may fail; decoding rejects lines it does not understand. */
  datatype Codec = Codec(enc: ToolCallRecord -> Option<string>, dec: string -> Option<ToolCallRecord>)

  /** Encoded records are single lines and decode to themselves. */
  ghost predicate Faithful(c: Codec) {
    && PlainOutput(c)
    && forall r :: c.enc(r).Some? ==> c.dec(c.enc(r).value) == Some(r)
  }

  ghost predicate PlainOutput(c: Codec) {
    forall r :: c.enc(r).Some? ==> Plain(c.enc(r).value)
  }

  /** The two paths the component touches; None is a path that does not exist. `readable` is false once the history
      file holds a part of a multi-byte character, which makes the whole file fail to be read as text; `file` is then
      the complete characters in it. */
  datatype Disk = Disk(file: Option<string>, temp: Option<string>, readable: bool)

  const EMPTY_DISK := Disk(None, None, true)

  // ----- Loading -----

  /** The lines that decode, decoded, in order. */
  function DecodeAll(c: Codec, lines: seq<string>): (rs: seq<ToolCallRecord>)
    ensures |rs| <= |lines|
  {
    if lines == [] then [] else
    var r := c.dec(lines[|lines| - 1]);
    DecodeAll(c, lines[..|lines| - 1]) + if r.Some? then [r.value] else []
  }

  function Loaded(c: Codec, file: Option<string>): seq<ToolCallRecord> {
    if file.None? then [] else Last(DecodeAll(c, Split(file.value)), MAX_HISTORY_ENTRIES)
  }

  function LoadedFrom(c: Codec, d: Disk): seq<ToolCallRecord> {
    if d.readable then Loaded(c, d.file) else []
  }

  method LoadFromDisk(c: Codec, d: Disk, readOk: bool) returns (entries: seq<ToolCallRecord>)
    ensures entries == if readOk then LoadedFrom(c, d) else []
  {
    entries := [];
    if d.file.None? {
      return;
    }
    if !readOk || !d.readable {
      return;
    }
    var lines := Split(d.file.value);
    for i := 0 to |lines|
      invariant entries == DecodeAll(c, lines[..i])
    {
      assert lines[..i + 1][..i] == lines[..i];
      var record := c.dec(lines[i]);
      if record.Some? {
        entries := entries + [record.value];
      }
    }
    assert lines[..|lines|] == lines;
    ghost var all := entries;
    while |entries| > MAX_HISTORY_ENTRIES
      invariant |entries| >= Min(|all|, MAX_HISTORY_ENTRIES)
      invariant entries == Last(all, |entries|)
    {
      entries := entries[1..];
    }
  }

  lemma {:induction false} DecodeConcat(c: Codec, a: seq<string>, b: seq<string>)
    ensures DecodeAll(c, a + b) == DecodeAll(c, a) + DecodeAll(c, b)
  {
    if b == [] {
      assert a + b == a;
    } else {
      assert (a + b)[..|a + b| - 1] == a + b[..|b| - 1];
      DecodeConcat(c, a, b[..|b| - 1]);
    }
  }

  // ----- Appending -----

  /** What one record's write leaves in the file when only the first `chars` characters get through. */
  function Piece(c: Codec, r: ToolCallRecord, chars: nat): string {
    if c.enc(r).None? then "" else
    var line := c.enc(r).value + "\n";
    line[..Min(|line|, chars)]
  }

  /** The record's line is in the file as a whole. */
  predicate Complete(c: Codec, r: ToolCallRecord, chars: nat) {
    c.enc(r).Some? && chars > |c.enc(r).value|
  }

  /** The write of a record stops inside a character: after `chars` complete ones, at one of several bytes. */
  predicate StopsInside(c: Codec, r: ToolCallRecord, chars: nat, inside: bool) {
    inside && c.enc(r).Some? && chars < |c.enc(r).value| && c.enc(r).value[chars] as int >= 0x80
  }

  predicate NoneInside(c: Codec, rs: seq<ToolCallRecord>, chars: nat -> nat, inside: nat -> bool) {
    forall k :: 0 <= k < |rs| ==> !StopsInside(c, rs[k], chars(k), inside(k))
  }

  /** Appending records one by one; chars[k] bounds how much of the k-th write succeeds. */
  function Appended(c: Codec, text: string, rs: seq<ToolCallRecord>, chars: nat -> nat): string {
    if rs == [] then text else
    var k := |rs| - 1;
    Appended(c, text, rs[..k], chars) + Piece(c, rs[k], chars(k))
  }

  /** The disk after the writes of one flush. */
  function AppendedTo(c: Codec, d: Disk, rs: seq<ToolCallRecord>, chars: nat -> nat, inside: nat -> bool): Disk {
    d.(file := Some(Appended(c, Text(d), rs, chars)), readable := d.readable && NoneInside(c, rs, chars, inside))
  }

  function Text(d: Disk): string {
    if d.file.Some? then d.file.value else ""
  }

  /** Every write either completes or leaves no complete character behind. */
  ghost predicate NoTornLine(c: Codec, rs: seq<ToolCallRecord>, chars: nat -> nat) {
    forall k :: 0 <= k < |rs| ==> Complete(c, rs[k], chars(k)) || Piece(c, rs[k], chars(k)) == ""
  }

  /** The records whose lines were written as a whole. */
  function Completed(c: Codec, rs: seq<ToolCallRecord>, chars: nat -> nat): (done: seq<ToolCallRecord>)
    ensures |done| <= |rs|
  {
    if rs == [] then [] else
    var k := |rs| - 1;
    Completed(c, rs[..k], chars) + if Complete(c, rs[k], chars(k)) then [rs[k]] else []
  }

  ghost predicate Encodable(c: Codec, rs: seq<ToolCallRecord>) {
    forall k :: 0 <= k < |rs| ==> c.enc(rs[k]).Some?
  }

  function Encodings(c: Codec, rs: seq<ToolCallRecord>): (lines: seq<string>)
    requires Encodable(c, rs)
    ensures |lines| == |rs|
    ensures forall k :: 0 <= k < |rs| ==> lines[k] == c.enc(rs[k]).value
  {
    seq(|rs|, k requires 0 <= k < |rs| => c.enc(rs[k]).value)
  }

  /** Decoding the lines of encoded records gives the records back. */
  lemma {:induction false} DecodeEncodings(c: Codec, rs: seq<ToolCallRecord>)
    requires Faithful(c) && Encodable(c, rs)
    ensures DecodeAll(c, Encodings(c, rs)) == rs
  {
    if rs != [] {
      var init := rs[..|rs| - 1];
      DecodeEncodings(c, init);
      assert Encodings(c, rs)[..|rs| - 1] == Encodings(c, init);
    }
  }

  /** Framing round trip: a file holding encoded records is cut and decoded into exactly those records. */
  lemma FramingRoundTrip(c: Codec, rs: seq<ToolCallRecord>)
    requires Faithful(c) && Encodable(c, rs)
    ensures Split(Frame(Encodings(c, rs))) == Encodings(c, rs)
    ensures DecodeAll(c, Split(Frame(Encodings(c, rs)))) == rs
  {
    var lines := Encodings(c, rs);
    forall k | 0 <= k < |lines| ensures Plain(lines[k]) {
      assert c.enc(rs[k]).Some?;
    }
    SplitFrame(lines);
    DecodeEncodings(c, rs);
  }

  lemma EncodingsSnoc(c: Codec, rs: seq<ToolCallRecord>, r: ToolCallRecord)
    requires Encodable(c, rs) && c.enc(r).Some?
    ensures Encodable(c, rs + [r])
    ensures Frame(Encodings(c, rs + [r])) == Frame(Encodings(c, rs)) + (c.enc(r).value + "\n")
  {
    assert Encodings(c, rs + [r])[..|rs|] == Encodings(c, rs);
  }

  /** Appending without torn lines extends the framed text by exactly the completed records, whatever the batching. */
  lemma {:induction false} AppendFrames(c: Codec, held: seq<ToolCallRecord>, rs: seq<ToolCallRecord>, chars: nat -> nat)
    requires Encodable(c, held) && NoTornLine(c, rs, chars)
    ensures Encodable(c, held + Completed(c, rs, chars))
    ensures Appended(c, Frame(Encodings(c, held)), rs, chars)
         == Frame(Encodings(c, held + Completed(c, rs, chars)))
  {
    if rs == [] {
      assert held + [] == held;
    } else {
      var k := |rs| - 1;
      var before := held + Completed(c, rs[..k], chars);
      AppendFrames(c, held, rs[..k], chars);
      if Complete(c, rs[k], chars(k)) {
        assert held + Completed(c, rs, chars) == before + [rs[k]];
        EncodingsSnoc(c, before, rs[k]);
      } else {
        assert held + Completed(c, rs, chars) == before;
      }
    }
  }

  /** Why torn lines matter: a write that is cut short and ignored also destroys the next record, whose complete line is
      glued to the fragment, unless the decoder happens to accept the glued line. */
  lemma TornLineTakesTheNext(
    c: Codec, held: seq<ToolCallRecord>, torn: ToolCallRecord, next: ToolCallRecord, chars: nat -> nat)
    requires Faithful(c) && Encodable(c, held) && c.enc(torn).Some?
    requires 0 < chars(0) <= |c.enc(torn).value| && Complete(c, next, chars(1))
    requires c.dec(Piece(c, torn, chars(0)) + c.enc(next).value) == None
    ensures Completed(c, [torn, next], chars) == [next]
    ensures DecodeAll(c, Split(Appended(c, Frame(Encodings(c, held)), [torn, next], chars))) == held
  {
    var lines, piece, line := Encodings(c, held), Piece(c, torn, chars(0)), c.enc(next).value;
    forall k | 0 <= k < |lines| ensures Plain(lines[k]) {
      assert c.enc(held[k]).Some?;
    }
    hide Split, Frame, DecodeAll, Appended, Completed, Plain;
    AppendedTwo(c, Frame(lines), torn, next, chars);
    GluedIsPlain(c, torn, next, chars(0));
    Assoc(Frame(lines), piece, line + "\n");
    Assoc(piece, line, "\n");
    Assoc(Frame(lines), piece + line, "\n");
    ForeignLine(c, lines, piece + line);
    DecodeEncodings(c, held);
  }

  /** A line the decoder rejects contributes nothing. */
  lemma ForeignLine(c: Codec, lines: seq<string>, line: string)
    requires forall k :: 0 <= k < |lines| ==> Plain(lines[k])
    requires Plain(line) && c.dec(line) == None
    ensures DecodeAll(c, Split(Frame(lines) + line + "\n")) == DecodeAll(c, lines)
  {
    SplitFrame(lines);
    assert StripReturn(line) == line;
    SplitSnoc(Frame(lines), line);
    assert (lines + [line])[..|lines|] == lines;
  }

  lemma AppendedTwo(c: Codec, text: string, a: ToolCallRecord, b: ToolCallRecord, chars: nat -> nat)
    requires Complete(c, b, chars(1)) && !Complete(c, a, chars(0))
    ensures Appended(c, text, [a, b], chars) == text + Piece(c, a, chars(0)) + (c.enc(b).value + "\n")
    ensures Completed(c, [a, b], chars) == [b]
  {
    assert [a, b][..1] == [a] && [a][..0] == [];
    assert Appended(c, text, [a], chars) == text + Piece(c, a, chars(0));
    assert Completed(c, [a], chars) == [];
  }

  lemma GluedIsPlain(c: Codec, torn: ToolCallRecord, next: ToolCallRecord, chars: nat)
    requires PlainOutput(c) && c.enc(torn).Some? && c.enc(next).Some? && chars <= |c.enc(torn).value|
    ensures Plain(Piece(c, torn, chars) + c.enc(next).value)
  {
    var a, b := c.enc(torn).value, c.enc(next).value;
    assert Plain(a) && Plain(b);
    assert Piece(c, torn, chars) == a[..chars];
  }

  /** A batch adds at most one line per record, torn or not. */
  lemma {:induction false} AppendLineCount(c: Codec, text: string, rs: seq<ToolCallRecord>, chars: nat -> nat)
    requires PlainOutput(c)
    ensures |Split(Appended(c, text, rs, chars))| <= |Split(text)| + |rs|
  {
    if rs != [] {
      var k := |rs| - 1;
      AppendLineCount(c, text, rs[..k], chars);
      var piece := Piece(c, rs[k], chars(k));
      if c.enc(rs[k]).Some? {
        var line := c.enc(rs[k]).value;
        assert Plain(line);
        assert forall j :: 0 <= j < |line| ==> (line + "\n")[j] == line[j] && line[j] in line;
      }
      SplitAppendPiece(Appended(c, text, rs[..k], chars), piece);
    }
  }

  predicate Ascii(line: string) {
    forall k :: 0 <= k < |line| ==> line[k] as int < 128
  }

  /** A file stays readable as long as writes stop between characters, or anywhere in text of one byte per character. */
  lemma StaysReadable(c: Codec, d: Disk, rs: seq<ToolCallRecord>, chars: nat -> nat, inside: nat -> bool)
    requires forall k :: 0 <= k < |rs| && inside(k) && c.enc(rs[k]).Some? ==>
      chars(k) >= |c.enc(rs[k]).value| || Ascii(c.enc(rs[k]).value)
    ensures AppendedTo(c, d, rs, chars, inside).readable == d.readable
    ensures AppendedTo(c, d, rs, chars, inside).temp == d.temp
  {
    hide Appended;
    assert NoneInside(c, rs, chars, inside);
  }

  // ----- Rotation -----

  /** The file-system calls of a rotation. */
  datatype FsOp = CreateTemp | AppendTemp(text: string) | SyncTemp | RenameTemp

  function ApplyOp(d: Disk, op: FsOp): Disk {
    match op
    case CreateTemp => d.(temp := Some(""))
    case AppendTemp(t) => if d.temp.Some? then d.(temp := Some(d.temp.value + t)) else d
    case SyncTemp => d
    case RenameTemp => if d.temp.Some? then d.(file := d.temp, temp := None) else d
  }

  function Perform(d: Disk, ops: seq<FsOp>): Disk {
    if ops == [] then d else ApplyOp(Perform(d, ops[..|ops| - 1]), ops[|ops| - 1])
  }

  /** The first `at` calls succeed. The next one fails, or the process dies in it, after writing `chars` characters. */
  datatype Fault = Fault(at: nat, chars: nat)

  function Torn(d: Disk, op: FsOp, chars: nat): Disk {
    match op
    case AppendTemp(t) => ApplyOp(d, AppendTemp(t[..Min(|t|, chars)]))
    case _ => d
  }

  function Interrupted(d: Disk, ops: seq<FsOp>, fault: Fault): Disk {
    if fault.at >= |ops| then Perform(d, ops) else Torn(Perform(d, ops[..fault.at]), ops[fault.at], fault.chars)
  }

  function KeptLines(text: string): seq<string> {
    Last(Split(text), MAX_DISK_ENTRIES)
  }

  function WriteOps(lines: seq<string>): (ops: seq<FsOp>)
    ensures |ops| == 2 * |lines|
    ensures RenameTemp !in ops
  {
    if lines == [] then [] else
    WriteOps(lines[..|lines| - 1]) + [AppendTemp(lines[|lines| - 1]), AppendTemp("\n")]
  }

  function RotationOps(text: string): seq<FsOp> {
    if |Split(text)| <= MAX_DISK_ENTRIES then [] else
    [CreateTemp] + WriteOps(KeptLines(text)) + [SyncTemp, RenameTemp]
  }

  /** The disk after a rotation attempt, which reads the whole file as text first. */
  function Rotated(d: Disk, readOk: bool, fault: Fault): Disk {
    if d.file.None? || !readOk || !d.readable then d else Interrupted(d, RotationOps(d.file.value), fault)
  }

  /** The rotation attempt puts a new file in the place of the old one. */
  predicate Replaces(d: Disk, readOk: bool, fault: Fault) {
    && d.file.Some? && d.readable && readOk
    && |Split(d.file.value)| > MAX_DISK_ENTRIES && fault.at >= ROTATION_CALLS
  }

  /** Call number n of the sequence ops, made on the disk d after the calls before it. */
  method Syscall(current: Disk, op: FsOp, n: nat, fault: Fault, ghost d: Disk, ghost ops: seq<FsOp>)
    returns (r: Disk, ok: bool)
    requires n < |ops| && ops[n] == op && n <= fault.at
    requires current == Perform(d, ops[..n])
    ensures ok <==> n < fault.at
    ensures r == if ok then Perform(d, ops[..n + 1]) else Interrupted(d, ops, fault)
  {
    ok := n < fault.at;
    r := if ok then ApplyOp(current, op) else Torn(current, op, fault.chars);
    assert ops[..n + 1][..n] == ops[..n];
  }

  /** The loop writing the kept lines to the temp file, a line and its break at a time. */
  method WriteKept(current: Disk, kept: seq<string>, fault: Fault, ghost d: Disk, ghost text: string)
    returns (r: Disk, ok: bool)
    requires |Split(text)| > MAX_DISK_ENTRIES && kept == KeptLines(text)
    requires current == Perform(d, RotationOps(text)[..1]) && 1 <= fault.at
    ensures ok <==> 1 + 2 * |kept| <= fault.at
    ensures |RotationOps(text)| == ROTATION_CALLS
    ensures r == if ok then Perform(d, RotationOps(text)[..1 + 2 * |kept|]) else Interrupted(d, RotationOps(text), fault)
  {
    r, ok := current, true;
    ghost var ops := RotationOps(text);
    RotationEnds(text);
    hide RotationOps, WriteOps, Split, ApplyOp, Perform, Interrupted;
    for i := 0 to |kept|
      invariant ok && 1 + 2 * i <= fault.at
      invariant r == Perform(d, ops[..1 + 2 * i])
    {
      RotationWrites(text, i);
      r, ok := Syscall(r, AppendTemp(kept[i]), 1 + 2 * i, fault, d, ops);
      if !ok {
        return;
      }
      r, ok := Syscall(r, AppendTemp("\n"), 2 + 2 * i, fault, d, ops);
      if !ok {
        return;
      }
    }
  }

  method RotateIfNeeded(d: Disk, readOk: bool, fault: Fault) returns (r: Disk, ok: bool)
    ensures r == Rotated(d, readOk, fault)
    ensures ok <==> d.file.None? || (readOk && d.readable && |RotationOps(d.file.value)| <= fault.at)
  {
    r, ok := d, true;
    if d.file.None? {
      return;
    }
    if !readOk || !d.readable {
      ok := false;
      return;
    }
    var lines := Split(d.file.value);
    if |lines| <= MAX_DISK_ENTRIES {
      return;
    }
    var kept := lines[|lines| - MAX_DISK_ENTRIES..];
    ghost var ops := RotationOps(d.file.value);
    RotationEnds(d.file.value);
    hide RotationOps, WriteOps, Split, ApplyOp, Perform, Interrupted;
    assert Perform(d, ops[..0]) == d by {
      PerformNothing(d, ops);
    }
    r, ok := Syscall(r, CreateTemp, 0, fault, d, ops);
    if !ok {
      return;
    }
    r, ok := WriteKept(r, kept, fault, d, d.file.value);
    if !ok {
      return;
    }
    r, ok := Syscall(r, SyncTemp, 1 + 2 * |kept|, fault, d, ops);
    if !ok {
      return;
    }
    r, ok := Syscall(r, RenameTemp, 2 + 2 * |kept|, fault, d, ops);
    assert ok ==> r == Interrupted(d, ops, fault) by {
      AllPerformed(d, ops, fault);
    }
  }

  lemma AllPerformed(d: Disk, ops: seq<FsOp>, fault: Fault)
    ensures |ops| <= fault.at ==> Interrupted(d, ops, fault) == Perform(d, ops[..|ops|])
  {
    assert ops[..|ops|] == ops;
  }

  /** Which call stands where in a rotation: its ends... */
  lemma RotationEnds(text: string)
    requires |Split(text)| > MAX_DISK_ENTRIES
    ensures
      var ops := RotationOps(text);
      && |ops| == ROTATION_CALLS && ops[0] == CreateTemp
      && ops[ROTATION_CALLS - 2] == SyncTemp && ops[ROTATION_CALLS - 1] == RenameTemp
  {}

  /** ... and the two writes of each kept line. */
  lemma RotationWrites(text: string, i: nat)
    requires |Split(text)| > MAX_DISK_ENTRIES && i < MAX_DISK_ENTRIES
    ensures
      var ops := RotationOps(text);
      && |ops| == ROTATION_CALLS
      && ops[1 + 2 * i] == AppendTemp(KeptLines(text)[i]) && ops[2 + 2 * i] == AppendTemp("\n")
  {
    var ops, writes := RotationOps(text), WriteOps(KeptLines(text));
    WriteOpsAt(KeptLines(text), i);
    hide WriteOps, KeptLines, Split;
    assert ops[1 + 2 * i] == writes[2 * i];
    assert ops[2 + 2 * i] == writes[2 * i + 1];
  }

  lemma PerformNothing(d: Disk, ops: seq<FsOp>)
    ensures Perform(d, ops[..0]) == d
  {}

  lemma PerformSnoc(d: Disk, ops: seq<FsOp>, op: FsOp)
    ensures Perform(d, ops + [op]) == ApplyOp(Perform(d, ops), op)
  {
    assert (ops + [op])[..|ops|] == ops;
  }

  lemma {:induction false} WriteOpsAt(lines: seq<string>, i: nat)
    requires i < |lines|
    ensures WriteOps(lines)[2 * i] == AppendTemp(lines[i]) && WriteOps(lines)[2 * i + 1] == AppendTemp("\n")
  {
    if i < |lines| - 1 {
      WriteOpsAt(lines[..|lines| - 1], i);
    }
  }

  lemma {:induction false} PerformKeepsFile(d: Disk, ops: seq<FsOp>)
    requires RenameTemp !in ops
    ensures Perform(d, ops).file == d.file && Perform(d, ops).readable == d.readable
  {
    if ops != [] {
      PerformKeepsFile(d, ops[..|ops| - 1]);
      assert ops[|ops| - 1] in ops;
    }
  }

  lemma {:induction false} WriteOpsEffect(d: Disk, lines: seq<string>)
    ensures Perform(d, [CreateTemp] + WriteOps(lines)) == d.(temp := Some(Frame(lines)))
  {
    var ops := [CreateTemp] + WriteOps(lines);
    if lines == [] {
      assert ops == [] + [CreateTemp];
      PerformSnoc(d, [], CreateTemp);
    } else {
      var init, l := lines[..|lines| - 1], lines[|lines| - 1];
      var before := [CreateTemp] + WriteOps(init);
      WriteOpsEffect(d, init);
      PerformSnoc(d, before, AppendTemp(l));
      PerformSnoc(d, before + [AppendTemp(l)], AppendTemp("\n"));
      assert ops == before + [AppendTemp(l)] + [AppendTemp("\n")];
    }
  }

  /** Rotation is crash-atomic: wherever it stops, the history file is the old text until the very last call has
      succeeded, and from then on exactly the last 5000 lines of it. A text of at most 5000 lines is never touched, and
      neither is a file that cannot be read. */
  lemma RotationCrashAtomic(d: Disk, readOk: bool, fault: Fault)
    requires d.file.Some?
    ensures
      var after := Rotated(d, readOk, fault);
      && after.file == (if Replaces(d, readOk, fault) then Some(Frame(KeptLines(d.file.value))) else d.file)
      && after.readable == d.readable
  {
    var text := d.file.value;
    var ops := RotationOps(text);
    if readOk && d.readable && |Split(text)| > MAX_DISK_ENTRIES {
      RotationEnds(text);
      var body := [CreateTemp] + WriteOps(KeptLines(text));
      if fault.at >= |ops| {
        WriteOpsEffect(d, KeptLines(text));
        PerformSnoc(d, body, SyncTemp);
        PerformSnoc(d, body + [SyncTemp], RenameTemp);
        assert ops == body + [SyncTemp] + [RenameTemp];
      } else {
        assert forall k :: 0 <= k < fault.at ==> ops[..fault.at][k] == (body + [SyncTemp])[k];
        PerformKeepsFile(d, ops[..fault.at]);
      }
    }
  }

  /** What the writes among the calls write. */
  function TextOf(ops: seq<FsOp>): string {
    if ops == [] then "" else
    TextOf(ops[..|ops| - 1]) + if ops[|ops| - 1].AppendTemp? then ops[|ops| - 1].text else ""
  }

  /** The part of a write that got through. */
  function Through(op: FsOp, chars: nat): string {
    if op.AppendTemp? then op.text[..Min(|op.text|, chars)] else ""
  }

  lemma {:induction false} TextOfWrites(lines: seq<string>)
    ensures TextOf(WriteOps(lines)) == Frame(lines)
  {
    if lines != [] {
      var init, l := lines[..|lines| - 1], lines[|lines| - 1];
      TextOfWrites(init);
      var ops := WriteOps(init) + [AppendTemp(l)];
      SnocParts(WriteOps(init), AppendTemp(l));
      SnocParts(ops, AppendTemp("\n"));
      assert WriteOps(lines) == ops + [AppendTemp("\n")];
    }
  }

  /** Calls that only write extend the temporary file. */
  lemma {:induction false} WritesExtend(d: Disk, ops: seq<FsOp>)
    requires d.temp.Some? && forall k :: 0 <= k < |ops| ==> ops[k].AppendTemp? || ops[k].SyncTemp?
    ensures Perform(d, ops) == d.(temp := Some(d.temp.value + TextOf(ops)))
    ensures d.temp.value == "" ==> Perform(d, ops) == d.(temp := Some(TextOf(ops)))
  {
    assert "" + TextOf(ops) == TextOf(ops);
    if ops == [] {
      AppendNothing(d.temp.value);
    } else {
      var init, op := ops[..|ops| - 1], ops[|ops| - 1];
      WritesExtend(d, init);
      if op.AppendTemp? {
        Assoc(d.temp.value, TextOf(init), op.text);
      } else {
        AppendNothing(TextOf(init));
      }
    }
  }

  lemma {:induction false} PerformConcat(d: Disk, a: seq<FsOp>, b: seq<FsOp>)
    ensures Perform(d, a + b) == Perform(Perform(d, a), b)
  {
    if b == [] {
      AppendNothing(a);
    } else {
      PerformConcat(d, a, b[..|b| - 1]);
      assert (a + b)[..|a + b| - 1] == a + b[..|b| - 1];
    }
  }

  lemma {:induction false} OnlyWrites(lines: seq<string>)
    ensures forall k :: 0 <= k < |WriteOps(lines)| ==> WriteOps(lines)[k].AppendTemp?
  {
    if lines != [] {
      OnlyWrites(lines[..|lines| - 1]);
    }
  }

  /** What an interrupted rotation leaves beside the file: nothing before the temporary file is created; after that the
      part of the kept lines that the writes so far have written, with the part of the last write that got through; all
      of them once only the sync or the rename is missing. A completed rotation leaves no temporary file. */
  lemma RotationTemp(d: Disk, fault: Fault)
    requires d.file.Some? && d.readable && |Split(d.file.value)| > MAX_DISK_ENTRIES
    ensures
      var after, writes := Rotated(d, true, fault).temp, WriteOps(KeptLines(d.file.value));
      var n := fault.at - 1;
      if fault.at == 0 then after == d.temp
      else if n < |writes| then after == Some(TextOf(writes[..n]) + Through(writes[n], fault.chars))
      else if n < |writes| + 2 then after == Some(Frame(KeptLines(d.file.value)))
      else after == None
  {
    var text := d.file.value;
    var writes, ops := WriteOps(KeptLines(text)), RotationOps(text);
    var n := fault.at - 1;
    OnlyWrites(KeptLines(text));
    TextOfWrites(KeptLines(text));
    RotationEnds(text);
    hide Split, WriteOps, KeptLines, Frame;
    assert ops == [CreateTemp] + writes + [SyncTemp, RenameTemp];
    var created := d.(temp := Some(""));
    assert Perform(d, [CreateTemp]) == created by {
      PerformNothing(d, [CreateTemp]);
      assert [CreateTemp][..0] == [];
    }
    hide Perform, TextOf;
    if fault.at == 0 {
      PerformNothing(d, ops);
    } else if n < |writes| {
      assert ops[..fault.at] == [CreateTemp] + writes[..n] && ops[fault.at] == writes[n];
      PerformConcat(d, [CreateTemp], writes[..n]);
      WritesExtend(created, writes[..n]);
    } else {
      PerformConcat(d, [CreateTemp], writes);
      WritesExtend(created, writes);
      var body := [CreateTemp] + writes;
      PerformSnoc(d, body, SyncTemp);
      PerformSnoc(d, body + [SyncTemp], RenameTemp);
      assert ops == body + [SyncTemp] + [RenameTemp];
      if n == |writes| {
        assert ops[..fault.at] == body;
      } else if n == |writes| + 1 {
        assert ops[..fault.at] == body + [SyncTemp];
      }
    }
  }

  /** Decoding a framed text is decoding its lines, as long as the CR that cutting strips off a line does not matter. */
  lemma {:induction false} DecodeFrame(c: Codec, lines: seq<string>)
    requires forall k :: 0 <= k < |lines| ==> '\n' !in lines[k] && c.dec(StripReturn(lines[k])) == c.dec(lines[k])
    ensures DecodeAll(c, Split(Frame(lines))) == DecodeAll(c, lines)
    ensures AtLineStart(Frame(lines))
  {
    if lines != [] {
      hide Split, StripReturn;
      var init, l := lines[..|lines| - 1], lines[|lines| - 1];
      DecodeFrame(c, init);
      SplitSnoc(Frame(init), l);
      SnocParts(Split(Frame(init)), StripReturn(l));
    }
  }

  /** On any text none of whose kept lines decodes differently for ending in CR (with JSON, where CR is white space, on
      any text at all), a completed rotation leaves what a restart loads unchanged exactly when the last 5000 lines
      still hold enough decodable ones: a file with many foreign or torn lines at its end loses history. */
  lemma RotationPreservesLoadIff(c: Codec, text: string)
    requires forall k :: 0 <= k < |KeptLines(text)| ==>
      c.dec(StripReturn(KeptLines(text)[k])) == c.dec(KeptLines(text)[k])
    ensures Loaded(c, Some(Frame(KeptLines(text)))) == Loaded(c, Some(text))
       <==> |DecodeAll(c, KeptLines(text))| >= Min(MAX_HISTORY_ENTRIES, |DecodeAll(c, Split(text))|)
  {
    hide Split, Frame, DecodeAll, StripReturn;
    var lines, kept := Split(text), KeptLines(text);
    SplitBreakFree(text);
    DecodeFrame(c, kept);
    var dropped := lines[..|lines| - |kept|];
    assert lines == dropped + kept;
    DecodeConcat(c, dropped, kept);
    FrontDropped(DecodeAll(c, dropped), DecodeAll(c, kept), MAX_HISTORY_ENTRIES);
  }

  lemma {:induction false} DecodeCopies(c: Codec, line: string, n: nat)
    requires c.dec(line) == None
    ensures DecodeAll(c, Copies(line, n)) == []
  {
    if n > 0 {
      DecodeCopies(c, line, n - 1);
      assert Copies(line, n)[..n - 1] == Copies(line, n - 1);
    }
  }

  /** A file on which a rotation loses history: one record, followed by 5000 lines the decoder rejects. Before the
      rotation a restart loads the record, after it nothing. */
  lemma RotationLosesHistory(c: Codec, r: ToolCallRecord, bad: string)
    requires Faithful(c) && c.enc(r).Some? && Plain(bad) && c.dec(bad) == None
    ensures
      var text := Frame([c.enc(r).value] + Copies(bad, MAX_DISK_ENTRIES));
      var after := Rotated(Disk(Some(text), None, true), true, Fault(ROTATION_CALLS, 0)).file;
      Loaded(c, Some(text)) == [r] && after == Some(Frame(Copies(bad, MAX_DISK_ENTRIES))) && Loaded(c, after) == []
  {
    var good, foreign := [c.enc(r).value], Copies(bad, MAX_DISK_ENTRIES);
    var lines := good + foreign;
    assert Plain(c.enc(r).value);
    hide Plain, Frame, Split;
    SplitFrame(lines);
    SplitFrame(foreign);
    DecodeConcat(c, good, foreign);
    DecodeCopies(c, bad, MAX_DISK_ENTRIES);
    assert good[..0] == [];
    assert Last(lines, MAX_DISK_ENTRIES) == foreign;
    RotationCrashAtomic(Disk(Some(Frame(lines)), None, true), true, Fault(ROTATION_CALLS, 0));
  }
}
