// The last write of a flush may still be in flight when the rotation check reads the file: when its record survives.
module LateWrites {
  import opened Wrappers
  import opened Seqs
  import opened Lines
  import opened HistoryFile
  import opened HistoryModel
  import opened HistoryProofs
  import opened DiskGrowth

  lemma {:induction false} RunFileHolds(c: Codec, es: seq<Event>)
    requires Faithful(c) && NoTornFromEmpty(c, es)
    ensures FileHolds(c, FromEmpty(c, es).core.disk, EverWritten(FromEmpty(c, es).log))
  {
    var w0 := Started(c, EMPTY_DISK, true, []);
    assert EverWritten(w0.log) == [];
    RunHolds(c, w0, es);
  }

  /** A file of encoded records has as many lines as records, and each completed write adds one. */
  lemma HeldLines(c: Codec, d: Disk, all: seq<ToolCallRecord>, rs: seq<ToolCallRecord>, io: TickIO)
    requires Faithful(c) && FileHolds(c, d, all) && NothingTorn(c, rs, io)
    ensures |Split(Text(AppendedTo(c, d, rs, io.chars, io.inside)))|
         == |Split(Text(d))| + |Completed(c, rs, io.chars)|
  {
    var held := DecodeAll(c, Split(Text(d)));
    var done := Completed(c, rs, io.chars);
    FramingRoundTrip(c, held);
    AppendFrames(c, held, rs, io.chars);
    FramingRoundTrip(c, held + done);
    hide Split, Frame, DecodeAll, Appended, Completed;
  }

  /** Once the check is due, it finds more than 5000 lines without the write in flight, and the rotation succeeds. */
  predicate ReplacedUnderWrite(c: Codec, w: World, io: TickIO) {
    var rs := Untag(Batch(w.core.queue, io.order));
    && io.late && w.core.counter + |rs| >= ROTATION_CHECK_INTERVAL
    && |Split(Text(w.core.disk))| + |Completed(c, rs, io.chars)| > MAX_DISK_ENTRIES + 1
    && io.rotateReadOk && io.fault.at >= ROTATION_CALLS
  }

  /** The last record of the batch is written completely. */
  predicate LastCompletes(c: Codec, rs: seq<ToolCallRecord>, io: TickIO) {
    rs != [] && Complete(c, rs[|rs| - 1], io.chars(|rs| - 1))
  }

  lemma LosesLastIff(c: Codec, w: World, io: TickIO)
    requires Faithful(c) && FileHolds(c, w.core.disk, EverWritten(w.log)) && io.openOk
    requires
      var rs := Untag(Batch(w.core.queue, io.order));
      NothingTorn(c, rs, io) && LastCompletes(c, rs, io)
    ensures LosesLast(c, w.core, io) <==> ReplacedUnderWrite(c, w, io)
  {
    hide Split, Batch, Appended, Completed, FileHolds, NothingTorn, EverWritten, NoneInside, LastCompletes;
    var rs := Untag(Batch(w.core.queue, io.order));
    if io.late {
      SeenLines(c, w.core.disk, EverWritten(w.log), rs, io);
    }
  }

  lemma SeenLines(c: Codec, d: Disk, all: seq<ToolCallRecord>, rs: seq<ToolCallRecord>, io: TickIO)
    requires Faithful(c) && FileHolds(c, d, all) && NothingTorn(c, rs, io) && LastCompletes(c, rs, io) && io.late
    ensures
      var seen := Seen(c, d, rs, io);
      && seen.readable && seen.file.Some?
      && |Split(seen.file.value)| + 1 == |Split(Text(d))| + |Completed(c, rs, io.chars)|
  {
    var n := |rs| - 1;
    assert BeforeLastWrite(c, rs) == n && |Completed(c, rs, io.chars)| == |Completed(c, rs[..n], io.chars)| + 1;
    TornPrefix(c, rs, io, n);
    TornParts(c, rs[..n], io);
    FileIsReadable(c, d, all);
    hide Split, Appended, Completed, FileHolds, NothingTorn, NoneInside, BeforeLastWrite;
    HeldLines(c, d, all, rs[..n], io);
  }

  lemma FileIsReadable(c: Codec, d: Disk, all: seq<ToolCallRecord>)
    requires FileHolds(c, d, all)
    ensures d.readable
  {}

  /** A write in flight, exactly: in every run from an empty file without torn writes, when the next flush completes its
      last write, the records ever written grow by all it completed if and only if the rotation does not replace the
      file under that write; if it does, by all but the last. Either way a restart recovers the last 1000 of them. */
  lemma InFlightSurvivesIff(c: Codec, es: seq<Event>, io: TickIO)
    requires Faithful(c) && NoTornFromEmpty(c, es) && Enabled(FromEmpty(c, es), Tick(io)) && io.openOk
    requires
      var rs := Untag(Batch(FromEmpty(c, es).core.queue, io.order));
      NothingTorn(c, rs, io) && LastCompletes(c, rs, io)
    ensures
      var w, w' := FromEmpty(c, es), FromEmpty(c, es + [Tick(io)]);
      var done := Completed(c, Untag(Batch(w.core.queue, io.order)), io.chars);
      && done != []
      && (EverWritten(w'.log) == EverWritten(w.log) + done <==> !ReplacedUnderWrite(c, w, io))
      && (ReplacedUnderWrite(c, w, io) ==> EverWritten(w'.log) == EverWritten(w.log) + done[..|done| - 1])
      && RecoversLast(c, w')
  {
    var w := FromEmpty(c, es);
    var rs := Untag(Batch(w.core.queue, io.order));
    RunFileHolds(c, es);
    LosesLastIff(c, w, io);
    SnocParts(es, Tick(io));
    TickWrites(c, w, io);
    HoldingStep(c, w, Tick(io));
    LandedCases(c, w.core, io);
    hide FileHolds, EverWritten, LosesLast, Landed, Completed, RecoversLast, NothingTorn, Next;
    HeldIsLoaded(c, FromEmpty(c, es + [Tick(io)]));
    var done, all := Completed(c, rs, io.chars), EverWritten(w.log);
    assert |all + done[..|done| - 1]| < |all + done|;
  }

  lemma LandedCases(c: Codec, s: Core, io: TickIO)
    requires io.openOk && LastCompletes(c, Untag(Batch(s.queue, io.order)), io)
    ensures
      var done := Completed(c, Untag(Batch(s.queue, io.order)), io.chars);
      && done != []
      && Landed(c, s, io) == if LosesLast(c, s, io) then done[..|done| - 1] else done
  {
    var rs := Untag(Batch(s.queue, io.order));
    assert BeforeLastWrite(c, rs) == |rs| - 1;
    hide LosesLast, Batch;
    SnocParts(Completed(c, rs[..|rs| - 1], io.chars), rs[|rs| - 1]);
  }

  /** Fill the file, then a burst of 100 whose last write is in flight when the rotation reads the file. */
  function LateRun(c: Codec, r: ToolCallRecord): seq<Event>
    requires c.enc(r).Some?
  {
    Burst(c, r, MAX_DISK_ENTRIES, false) + Calls(r, 100) + [Tick(FullFlush(c, r, true))]
  }

  /** A run in which no write fails, no rotation fails and no process dies, and yet of 5100 records only 5099 ever get
      into a file that is still there. */
  lemma LateRunLosesOne(c: Codec, r: ToolCallRecord)
    requires Faithful(c) && c.enc(r).Some?
    ensures EverWritten(FromEmpty(c, LateRun(c, r)).log) == Copies(r, MAX_DISK_ENTRIES + 99)
  {
    var w0, burst := Started(c, EMPTY_DISK, true, []), Burst(c, r, MAX_DISK_ENTRIES, false);
    var io := FullFlush(c, r, true);
    StartedHolds(c, r);
    hide Exec, Next, Holds, Burst, Calls, EverWritten;
    BurstEffect(c, w0, r, 0, MAX_DISK_ENTRIES, false);
    var w1 := Exec(c, w0, burst);
    CallsEffect(c, w1, r, MAX_DISK_ENTRIES, 100);
    ExecConcat(c, w0, burst, Calls(r, 100));
    ExecConcat(c, w0, burst + Calls(r, 100), [Tick(io)]);
    var w2 := Exec(c, w1, Calls(r, 100));
    ExecOne(c, w2, Tick(io));
    LateFlush(c, w2, r);
  }

  lemma LateFlush(c: Codec, w: World, r: ToolCallRecord)
    requires Faithful(c) && c.enc(r).Some? && Holds(c, w, r, MAX_DISK_ENTRIES, 100, 0)
    ensures EverWritten(Next(c, w, Tick(FullFlush(c, r, true))).log) == Copies(r, MAX_DISK_ENTRIES + 99)
  {
    var io, rs := FullFlush(c, r, true), Copies(r, 100);
    OneKey(w);
    OneQueue(w.core.queue);
    FlushAppends(c, w.core, r, MAX_DISK_ENTRIES, 100, true);
    AllCompleted(c, r, 99, io.chars);
    LastIsWritten(c, r, 100);
    NothingInside(c, r, 99, io);
    TickWrites(c, w, io);
    hide EverWritten, Completed, Batch, Appended, Split, Frame, NoneInside, Copies, IsOrder;
    assert LosesLast(c, w.core, io);
    assert Landed(c, w.core, io) == Copies(r, 99);
    CopiesAdd(r, MAX_DISK_ENTRIES, 99);
  }
}
