// How far the history file can grow over restarts: the bound of HistoryProofs.DiskBound is reached.
module DiskGrowth {
  import opened Wrappers
  import opened Seqs
  import opened Lines
  import opened HistoryFile
  import opened HistoryModel
  import opened HistoryProofs

  /** An idle machine: n copies of one record written and in the file, m copies of it queued, nothing in the channel. */
  ghost predicate Holds(c: Codec, w: World, r: ToolCallRecord, n: nat, m: nat, counter: nat)
    requires c.enc(r).Some?
  {
    && w.channel == [] && w.core.counter == counter
    && w.core.queue.Keys <= {"c"} && Lookup(w.core.queue, "c") == Copies(r, m)
    && Text(w.core.disk) == Frame(Copies(c.enc(r).value, n)) && w.core.disk.readable
    && EverWritten(w.log) == Copies(r, n)
  }

  /** A flush of one connection's queue in which everything succeeds, the last write perhaps late. */
  function FullFlush(c: Codec, r: ToolCallRecord, late: bool): TickIO
    requires c.enc(r).Some?
  {
    var length := |c.enc(r).value| + 1;
    TickIO(["c"], true, _ => length, _ => false, late, true, Fault(ROTATION_CALLS, 0))
  }

  /** The line that a late write can add to a file the rotation has found short enough. */
  function Late(late: bool): nat {
    if late then 1 else 0
  }

  function Calls(r: ToolCallRecord, m: nat): seq<Event> {
    if m == 0 then [] else Calls(r, m - 1) + [Send(AddCall("c", r)), Receive]
  }

  /** m calls, then one flush. */
  function Burst(c: Codec, r: ToolCallRecord, m: nat, late: bool): seq<Event>
    requires c.enc(r).Some?
  {
    Calls(r, m) + [Tick(FullFlush(c, r, late))]
  }

  /** The file is filled up to the limit, by a late write even beyond it; then each process writes 99 records and is
      restarted. */
  function Lives(c: Codec, r: ToolCallRecord, restarts: nat, late: bool): seq<Event>
    requires c.enc(r).Some?
  {
    if restarts == 0 then Burst(c, r, MAX_DISK_ENTRIES + Late(late), late)
    else Lives(c, r, restarts - 1, late) + Burst(c, r, 99, false) + [Restart(true)]
  }

  function LongestFile(c: Codec, r: ToolCallRecord, restarts: nat, late: bool): seq<Event>
    requires c.enc(r).Some?
  {
    Lives(c, r, restarts, late) + Burst(c, r, 99, false)
  }

  lemma OneCall(c: Codec, w: World, r: ToolCallRecord, n: nat, m: nat, counter: nat)
    requires c.enc(r).Some? && Holds(c, w, r, n, m, counter)
    ensures Holds(c, Next(c, Next(c, w, Send(AddCall("c", r))), Receive), r, n, m + 1, counter)
  {
    var sent := Next(c, w, Send(AddCall("c", r)));
    ReceiveWritesNothing(sent.log, sent.core, AddCall("c", r));
    hide Frame, WrittenOf;
    assert Copies(r, m) + [r] == Copies(r, m + 1);
  }

  lemma {:induction false} CallsEffect(c: Codec, w: World, r: ToolCallRecord, n: nat, m: nat)
    requires c.enc(r).Some? && Holds(c, w, r, n, 0, 0)
    ensures Holds(c, Exec(c, w, Calls(r, m)), r, n, m, 0)
  {
    if m > 0 {
      CallsEffect(c, w, r, n, m - 1);
      hide Exec, Next, Holds;
      var before, call := Exec(c, w, Calls(r, m - 1)), [Send(AddCall("c", r)), Receive];
      ExecConcat(c, w, Calls(r, m - 1), call);
      ExecTwo(c, before, call[0], call[1]);
      OneCall(c, before, r, n, m - 1, 0);
    }
  }

  lemma {:induction false} AllCompleted(c: Codec, r: ToolCallRecord, m: nat, chars: nat -> nat)
    requires forall k :: 0 <= k < m ==> Complete(c, r, chars(k))
    ensures Completed(c, Copies(r, m), chars) == Copies(r, m)
  {
    if m > 0 {
      AllCompleted(c, r, m - 1, chars);
      assert Copies(r, m)[..m - 1] == Copies(r, m - 1);
    }
  }

  lemma EncodedCopies(c: Codec, r: ToolCallRecord, n: nat)
    requires c.enc(r).Some?
    ensures Encodable(c, Copies(r, n)) && Encodings(c, Copies(r, n)) == Copies(c.enc(r).value, n)
  {}

  lemma CopiesAdd(r: ToolCallRecord, n: nat, m: nat)
    ensures Copies(r, n) + Copies(r, m) == Copies(r, n + m)
  {}

  lemma NoneTorn(c: Codec, r: ToolCallRecord, m: nat, chars: nat -> nat)
    requires forall k :: 0 <= k < m ==> Complete(c, r, chars(k))
    ensures NoTornLine(c, Copies(r, m), chars)
  {}

  lemma AppendCopies(c: Codec, r: ToolCallRecord, n: nat, m: nat, chars: nat -> nat)
    requires c.enc(r).Some? && forall k :: 0 <= k < m ==> Complete(c, r, chars(k))
    ensures Appended(c, Frame(Copies(c.enc(r).value, n)), Copies(r, m), chars)
         == Frame(Copies(c.enc(r).value, n + m))
  {
    hide Appended, Frame, Completed, Encodings, Copies, Encodable;
    EncodedCopies(c, r, n);
    EncodedCopies(c, r, n + m);
    AllCompleted(c, r, m, chars);
    NoneTorn(c, r, m, chars);
    CopiesAdd(r, n, m);
    AppendFrames(c, Copies(r, n), Copies(r, m), chars);
  }

  lemma CopiesSplit(c: Codec, r: ToolCallRecord, n: nat)
    requires PlainOutput(c) && c.enc(r).Some?
    ensures |Split(Frame(Copies(c.enc(r).value, n)))| == n
  {
    SplitFrame(Copies(c.enc(r).value, n));
  }

  lemma OneKey(w: World)
    requires w.core.queue.Keys <= {"c"} && Lookup(w.core.queue, "c") != []
    ensures IsOrder(["c"], w.core.queue.Keys)
  {
    assert "c" in w.core.queue.Keys;
    assert forall k :: k in ["c"] <==> k == "c";
  }

  lemma NothingInside(c: Codec, r: ToolCallRecord, m: nat, io: TickIO)
    requires forall k :: 0 <= k < m ==> Complete(c, r, io.chars(k))
    ensures NoneInside(c, Copies(r, m), io.chars, io.inside)
  {}

  /** What a flush of m copies leaves in the file once it is written, and what the rotation check finds. */
  lemma FlushAppends(c: Codec, s: Core, r: ToolCallRecord, n: nat, m: nat, late: bool)
    requires PlainOutput(c) && c.enc(r).Some? && m > 0 && s.disk.readable
    requires Text(s.disk) == Frame(Copies(c.enc(r).value, n))
    ensures
      var io, rs := FullFlush(c, r, late), Copies(r, m);
      var all := AppendedTo(c, s.disk, rs, io.chars, io.inside);
      && all.file == Some(Frame(Copies(c.enc(r).value, n + m))) && all.readable
      && |Split(Text(Seen(c, s.disk, rs, io)))| == n + m - Late(late)
  {
    hide Split, Frame, Appended, NoneInside, Copies, BeforeLastWrite;
    var io := FullFlush(c, r, late);
    assert forall k: nat :: Complete(c, r, io.chars(k));
    AppendCopies(c, r, n, m, io.chars);
    NothingInside(c, r, m, io);
    if late {
      AppendCopies(c, r, n, m - 1, io.chars);
      CopiesSplit(c, r, n + m - 1);
      LastIsWritten(c, r, m);
    } else {
      CopiesSplit(c, r, n + m);
    }
  }

  lemma LastIsWritten(c: Codec, r: ToolCallRecord, m: nat)
    requires c.enc(r).Some? && m > 0
    ensures BeforeLastWrite(c, Copies(r, m)) == m - 1 && Copies(r, m)[..m - 1] == Copies(r, m - 1)
  {}

  lemma FlushWrites(c: Codec, s: Core, r: ToolCallRecord, n: nat, m: nat, late: bool)
    requires PlainOutput(c) && c.enc(r).Some? && m > 0
    requires m >= ROTATION_CHECK_INTERVAL ==> n + m <= MAX_DISK_ENTRIES + Late(late)
    requires s.counter == 0 && Lookup(s.queue, "c") == Copies(r, m)
    requires Text(s.disk) == Frame(Copies(c.enc(r).value, n)) && s.disk.readable
    ensures
      var io := FullFlush(c, r, late);
      var s' := TickCore(c, s, io);
      && s'.counter == (if m >= ROTATION_CHECK_INTERVAL then 0 else m)
      && Text(s'.disk) == Frame(Copies(c.enc(r).value, n + m)) && s'.disk.readable
      && Landed(c, s, io) == Copies(r, m)
  {
    var io, rs := FullFlush(c, r, late), Copies(r, m);
    OneQueue(s.queue);
    FlushAppends(c, s, r, n, m, late);
    AllCompleted(c, r, m, io.chars);
    hide Frame, Split, Batch, AppendedTo, Rotated, Lookup, Copies, Completed, Seen, Late;
    if m >= ROTATION_CHECK_INTERVAL {
      SeenIsFile(c, s.disk, rs, io);
      CheckKeeps(c, s.disk, rs, io);
    }
  }

  lemma SeenIsFile(c: Codec, d: Disk, rs: seq<ToolCallRecord>, io: TickIO)
    ensures Seen(c, d, rs, io).file.Some?
  {}

  lemma NoCopies(r: ToolCallRecord)
    ensures Copies(r, 0) == []
  {}

  /** A flush too small to trigger the check adds to the counter; one that triggers it on a file of at most 5000 lines
      sets it back and changes nothing else. */
  lemma FlushEffect(c: Codec, w: World, r: ToolCallRecord, n: nat, m: nat, late: bool)
    requires PlainOutput(c) && c.enc(r).Some? && Holds(c, w, r, n, m, 0) && m > 0
    requires m >= ROTATION_CHECK_INTERVAL ==> n + m <= MAX_DISK_ENTRIES + Late(late)
    ensures Holds(
      c, Next(c, w, Tick(FullFlush(c, r, late))), r, n + m, 0, if m >= ROTATION_CHECK_INTERVAL then 0 else m)
  {
    hide Frame, TickCore, IsOrder, TickFates, EverWritten, Landed, Copies, Late;
    var io := FullFlush(c, r, late);
    OneKey(w);
    FlushWrites(c, w.core, r, n, m, late);
    TakenQueues(c, w.core, io);
    TickWrites(c, w, io);
    CopiesAdd(r, n, m);
    NoCopies(r);
  }

  lemma TakenQueues(c: Codec, s: Core, io: TickIO)
    ensures TickCore(c, s, io).queue.Keys == s.queue.Keys && Lookup(TickCore(c, s, io).queue, "c") == []
  {}

  lemma BurstEffect(c: Codec, w: World, r: ToolCallRecord, n: nat, m: nat, late: bool)
    requires PlainOutput(c) && c.enc(r).Some? && Holds(c, w, r, n, 0, 0) && m > 0
    requires m >= ROTATION_CHECK_INTERVAL ==> n + m <= MAX_DISK_ENTRIES + Late(late)
    ensures Holds(c, Exec(c, w, Burst(c, r, m, late)), r, n + m, 0, if m >= ROTATION_CHECK_INTERVAL then 0 else m)
  {
    hide Exec, Next, Holds, Calls;
    var flush := Tick(FullFlush(c, r, late));
    CallsEffect(c, w, r, n, m);
    FlushEffect(c, Exec(c, w, Calls(r, m)), r, n, m, late);
    ExecConcat(c, w, Calls(r, m), [flush]);
    ExecOne(c, Exec(c, w, Calls(r, m)), flush);
  }

  lemma RestartResets(c: Codec, w: World, r: ToolCallRecord, n: nat, counter: nat)
    requires c.enc(r).Some? && Holds(c, w, r, n, 0, counter)
    ensures Holds(c, Next(c, w, Restart(true)), r, n, 0, 0)
  {
    RestartWritesNothing(c, w, true);
    hide EverWritten, Frame;
  }

  lemma {:induction false} LivesEffect(c: Codec, w: World, r: ToolCallRecord, restarts: nat, late: bool)
    requires PlainOutput(c) && c.enc(r).Some? && Holds(c, w, r, 0, 0, 0)
    ensures Holds(
      c, Exec(c, w, Lives(c, r, restarts, late)), r, MAX_DISK_ENTRIES + Late(late) + 99 * restarts, 0, 0)
  {
    hide Exec, Next, Holds, Burst;
    if restarts == 0 {
      BurstEffect(c, w, r, 0, MAX_DISK_ENTRIES + Late(late), late);
    } else {
      var lives, n := Lives(c, r, restarts - 1, late), MAX_DISK_ENTRIES + Late(late) + 99 * (restarts - 1);
      LivesEffect(c, w, r, restarts - 1, late);
      BurstEffect(c, Exec(c, w, lives), r, n, 99, false);
      ExecConcat(c, w, lives, Burst(c, r, 99, false));
      var last := Exec(c, w, lives + Burst(c, r, 99, false));
      RestartResets(c, last, r, n + 99, 99);
      ExecConcat(c, w, lives + Burst(c, r, 99, false), [Restart(true)]);
      ExecOne(c, last, Restart(true));
    }
  }

  /** A run without a failing rotation, and with late writes only if these are allowed. */
  ghost predicate Legal(es: seq<Event>, late: bool) {
    RotationsSucceed(es) && (late || NoneLate(es))
  }

  lemma {:induction false} CallsAreLegal(r: ToolCallRecord, m: nat)
    ensures Legal(Calls(r, m), false) && Restarts(Calls(r, m)) == 0
  {
    if m > 0 {
      CallsAreLegal(r, m - 1);
      hide Restarts;
      var send, call := Send(AddCall("c", r)), [Send(AddCall("c", r)), Receive];
      RestartsConcat(Calls(r, m - 1), call);
      assert call == [send] + [Receive];
      RestartsConcat([send], [Receive]);
      RestartsOne(send);
      RestartsOne(Receive);
    }
  }

  lemma {:induction false} RestartsConcat(a: seq<Event>, b: seq<Event>)
    ensures Restarts(a + b) == Restarts(a) + Restarts(b)
  {
    if b == [] {
      assert a + b == a;
    } else {
      assert (a + b)[..|a + b| - 1] == a + b[..|b| - 1];
      RestartsConcat(a, b[..|b| - 1]);
    }
  }

  lemma RestartsOne(e: Event)
    ensures Restarts([e]) == if e.Restart? then 1 else 0
  {
    assert [e][..0] == [];
  }

  lemma BurstIsLegal(c: Codec, r: ToolCallRecord, m: nat, late: bool)
    requires c.enc(r).Some?
    ensures Legal(Burst(c, r, m, late), late) && Restarts(Burst(c, r, m, late)) == 0
  {
    hide Calls, Restarts;
    CallsAreLegal(r, m);
    RestartsConcat(Calls(r, m), [Tick(FullFlush(c, r, late))]);
    RestartsOne(Tick(FullFlush(c, r, late)));
  }

  lemma LegalConcat(a: seq<Event>, b: seq<Event>, late: bool)
    requires Legal(a, late) && Legal(b, late)
    ensures Legal(a + b, late)
  {}

  lemma {:induction false} LivesAreLegal(c: Codec, r: ToolCallRecord, restarts: nat, late: bool)
    requires c.enc(r).Some?
    ensures Legal(Lives(c, r, restarts, late), late) && Restarts(Lives(c, r, restarts, late)) == restarts
  {
    hide Burst;
    if restarts == 0 {
      BurstIsLegal(c, r, MAX_DISK_ENTRIES + Late(late), late);
    } else {
      var lives, burst := Lives(c, r, restarts - 1, late), Burst(c, r, 99, false);
      LivesAreLegal(c, r, restarts - 1, late);
      BurstIsLegal(c, r, 99, false);
      RestartIsLegal(late);
      LegalConcat(lives, burst, late);
      LegalConcat(lives + burst, [Restart(true)], late);
      hide Restarts, Legal;
      RestartsConcat(lives, burst);
      RestartsConcat(lives + burst, [Restart(true)]);
    }
  }

  lemma RestartIsLegal(late: bool)
    ensures Legal([Restart(true)], late) && Restarts([Restart(true)]) == 1
  {
    RestartsOne(Restart(true));
  }

  lemma LongestFileIsLegal(c: Codec, r: ToolCallRecord, restarts: nat, late: bool)
    requires c.enc(r).Some?
    ensures Legal(LongestFile(c, r, restarts, late), late) && Restarts(LongestFile(c, r, restarts, late)) == restarts
  {
    LivesAreLegal(c, r, restarts, late);
    BurstIsLegal(c, r, 99, false);
    hide Lives, Burst, Restarts;
    LegalConcat(Lives(c, r, restarts, late), Burst(c, r, 99, false), late);
    RestartsConcat(Lives(c, r, restarts, late), Burst(c, r, 99, false));
  }

  /** A run with the given number of restarts after which the file has 5000 + 99 * (restarts + 1) lines, or one more
      with a late write. */
  lemma LongestFileEffect(c: Codec, r: ToolCallRecord, restarts: nat, late: bool)
    requires PlainOutput(c) && c.enc(r).Some?
    ensures
      var d := FromEmpty(c, LongestFile(c, r, restarts, late)).core.disk;
      d.readable && |Split(Text(d))| == MAX_DISK_ENTRIES + 99 * (restarts + 1) + Late(late)
  {
    hide Exec, Lives, Burst, Split, Frame;
    var w, lives, n :=
      Started(c, EMPTY_DISK, true, []), Lives(c, r, restarts, late), MAX_DISK_ENTRIES + Late(late) + 99 * restarts;
    StartedHolds(c, r);
    hide Started, Holds;
    LivesEffect(c, w, r, restarts, late);
    BurstEffect(c, Exec(c, w, lives), r, n, 99, false);
    ExecConcat(c, w, lives, Burst(c, r, 99, false));
    LinesHeld(c, FromEmpty(c, LongestFile(c, r, restarts, late)), r, n + 99, 0, 99);
  }

  lemma StartedHolds(c: Codec, r: ToolCallRecord)
    requires c.enc(r).Some?
    ensures Holds(c, Started(c, EMPTY_DISK, true, []), r, 0, 0, 0)
  {}

  lemma LinesHeld(c: Codec, w: World, r: ToolCallRecord, n: nat, m: nat, counter: nat)
    requires PlainOutput(c) && c.enc(r).Some? && Holds(c, w, r, n, m, counter)
    ensures w.core.disk.readable && |Split(Text(w.core.disk))| == n
  {
    CopiesSplit(c, r, n);
  }

  /** In every run from the given file, with at most so many restarts and no failing rotation, the file has at most x
      lines. */
  ghost predicate StaysWithin(
    c: Codec, d: Disk, readOk: bool, prior: seq<ToolCallRecord>, restarts: nat, late: bool, x: nat)
  {
    forall es :: Legal(es, late) && Restarts(es) <= restarts ==>
      LinesWithin(Exec(c, Started(c, d, readOk, prior), es).core.disk, x)
  }

  /** An unreadable file makes rotations fail, however the file system behaves. */
  predicate LinesWithin(d: Disk, x: nat) {
    d.readable ==> |Split(Text(d))| <= x
  }

  /** The same from every file of at most 5000 lines. */
  ghost predicate AlwaysStaysWithin(c: Codec, restarts: nat, late: bool, x: nat) {
    forall d, readOk, prior ::
      |Split(Text(d))| <= MAX_DISK_ENTRIES ==> StaysWithin(c, d, readOk, prior, restarts, late, x)
  }

  lemma StaysBelow(
    c: Codec, d: Disk, readOk: bool, prior: seq<ToolCallRecord>, restarts: nat, late: bool, x: nat)
    requires PlainOutput(c) && |Split(Text(d))| <= MAX_DISK_ENTRIES
    requires x >= MAX_DISK_ENTRIES + 99 * (restarts + 1) + Late(late)
    ensures StaysWithin(c, d, readOk, prior, restarts, late, x)
  {
    forall es | Legal(es, late) && Restarts(es) <= restarts
      ensures LinesWithin(Exec(c, Started(c, d, readOk, prior), es).core.disk, x)
    {
      hide Exec, Split, Restarts;
      DiskBound(c, d, readOk, prior, es);
    }
  }

  /** The disk bound is exact: with at most r restarts and no failing rotation the file stays within x lines, from every
      legal file and even from no file at all, if and only if x >= 5000 + 99 * (r + 1), and one line more when a write
      may still be in flight during a rotation. The expected 5099 lines hold for a process that is never restarted and
      whose writes are all in place before it rotates, and for no other. */
  lemma DiskBoundIsExact(c: Codec, r: ToolCallRecord, restarts: nat, late: bool, x: nat)
    requires PlainOutput(c) && c.enc(r).Some?
    ensures AlwaysStaysWithin(c, restarts, late, x) <==> x >= 5000 + 99 * (restarts + 1) + Late(late)
    ensures StaysWithin(c, EMPTY_DISK, true, [], restarts, late, x) <==>
            x >= 5000 + 99 * (restarts + 1) + Late(late)
  {
    NoFileIsLegal();
    if x >= MAX_DISK_ENTRIES + 99 * (restarts + 1) + Late(late) {
      hide StaysWithin, Split;
      forall d, readOk, prior | |Split(Text(d))| <= MAX_DISK_ENTRIES
        ensures StaysWithin(c, d, readOk, prior, restarts, late, x)
      {
        StaysBelow(c, d, readOk, prior, restarts, late, x);
      }
    } else {
      hide Exec, Split, Restarts, LongestFile, Legal;
      LongestFileIsLegal(c, r, restarts, late);
      LongestFileEffect(c, r, restarts, late);
      assert !StaysWithin(c, EMPTY_DISK, true, [], restarts, late, x);
    }
  }

  lemma NoFileIsLegal()
    ensures |Split(Text(EMPTY_DISK))| == 0
  {}
}
