// What every run of the tool-history pipeline guarantees.
module HistoryProofs {
  import opened Wrappers
  import opened Seqs
  import opened Lines
  import opened HistoryFile
  import opened HistoryModel

  // ----- The cache refines the log -----

  /** The records of a connection since its last removal, starting from base: never truncated. */
  function Since(base: seq<ToolCallRecord>, received: seq<Update>, conn: string): seq<ToolCallRecord> {
    if received == [] then base else
    var before := Since(base, received[..|received| - 1], conn);
    match received[|received| - 1]
    case AddCall(c, r) => if c == conn then before + [r] else before
    case RemoveConnection(c) => if c == conn then [] else before
  }

  function SinceOf(log: Log, conn: string): seq<ToolCallRecord> {
    Since(if conn == LEGACY then log.loaded else [], log.received, conn)
  }

  ghost predicate CacheRefines(w: World) {
    forall conn ::
      && (conn in w.core.entries <==> SinceOf(w.log, conn) != [])
      && Lookup(w.core.entries, conn) == Last(SinceOf(w.log, conn), 1000)
  }

  lemma SinceSnoc(base: seq<ToolCallRecord>, received: seq<Update>, u: Update, conn: string)
    ensures Since(base, received + [u], conn) ==
      var before := Since(base, received, conn);
      if u.conn != conn then before else if u.AddCall? then before + [u.record] else []
  {
    SnocParts(received, u);
  }

  lemma CacheStep(c: Codec, w: World, e: Event)
    requires CacheRefines(w)
    ensures CacheRefines(Next(c, w, e))
  {
    var w' := Next(c, w, e);
    if e.Receive? && Enabled(w, e) {
      var u := w.channel[0];
      forall conn
        ensures conn in w'.core.entries <==> SinceOf(w'.log, conn) != []
        ensures Lookup(w'.core.entries, conn) == Last(SinceOf(w'.log, conn), MAX_HISTORY_ENTRIES)
      {
        SinceSnoc(if conn == LEGACY then w.log.loaded else [], w.log.received, u, conn);
        if u.AddCall? && u.conn == conn {
          LastOfAppend(SinceOf(w.log, conn), [u.record], MAX_HISTORY_ENTRIES);
        }
      }
    }
  }

  lemma StartedCache(c: Codec, d: Disk, readOk: bool, prior: seq<ToolCallRecord>)
    ensures CacheRefines(Started(c, d, readOk, prior))
  {}

  /** In every run from any file, a connection's deque is the last 1000 records of its own sequence (what was loaded,
      then its calls since its last removal) and is absent exactly when that sequence is empty. */
  lemma {:induction false} CacheRefinesLog(c: Codec, d: Disk, readOk: bool, prior: seq<ToolCallRecord>, es: seq<Event>)
    ensures CacheRefines(Exec(c, Started(c, d, readOk, prior), es))
  {
    if es == [] {
      StartedCache(c, d, readOk, prior);
    } else {
      CacheRefinesLog(c, d, readOk, prior, es[..|es| - 1]);
      CacheStep(c, Exec(c, Started(c, d, readOk, prior), es[..|es| - 1]), es[|es| - 1]);
    }
  }

  /** A start that cannot read the file begins with nothing, whatever is in it, and leaves it alone. */
  lemma UnreadStartIsEmpty(c: Codec, d: Disk, prior: seq<ToolCallRecord>, conn: string)
    ensures Started(c, d, false, prior).core.entries == map[] && Started(c, d, false, prior).core.disk == d
    ensures SinceOf(Started(c, d, false, prior).log, conn) == []
  {}

  // ----- Conservation and order -----

  function AddedTo(received: seq<Update>, conn: string): seq<ToolCallRecord> {
    if received == [] then [] else
    var u := received[|received| - 1];
    AddedTo(received[..|received| - 1], conn) + if u.AddCall? && u.conn == conn then [u.record] else []
  }

  function RecordsOf(es: seq<Entry>, conn: string): seq<ToolCallRecord> {
    if es == [] then [] else
    var e := es[|es| - 1];
    RecordsOf(es[..|es| - 1], conn) + if e.conn == conn then [e.record] else []
  }

  /** The entries that left the queues, in that order. */
  function Departed(fs: seq<Fated>): (es: seq<Entry>)
    ensures |es| == |fs|
  {
    seq(|fs|, k requires 0 <= k < |fs| => fs[k].entry)
  }

  function FatedOf(fs: seq<Fated>, conn: string): seq<ToolCallRecord> {
    RecordsOf(Departed(fs), conn)
  }

  /** Each connection's records, in channel order, are those that left its queue followed by those still in it. */
  ghost predicate ConservedFor(log: Log, queue: map<string, seq<ToolCallRecord>>, conn: string) {
    AddedTo(log.received, conn) == FatedOf(log.fates, conn) + Lookup(queue, conn)
  }

  /** The records of a connection that a process which is gone has dealt with or taken with it: those that left its
      queue, those still in the queue, those still in its channel. */
  function EndedWith(p: Ended, conn: string): seq<ToolCallRecord> {
    FatedOf(p.fates, conn) + Lookup(p.queue, conn) + AddedTo(p.channel, conn)
  }

  function EndedRecords(ended: seq<Ended>, conn: string): seq<ToolCallRecord> {
    if ended == [] then [] else
    EndedRecords(ended[..|ended| - 1], conn) + EndedWith(ended[|ended| - 1], conn)
  }

  /** What was ever sent for a connection is, in order, what ended with earlier processes, what this one has received,
      and what is in its channel. */
  ghost predicate SentFor(w: World, conn: string) {
    AddedTo(w.log.sent, conn) ==
      EndedRecords(w.log.ended, conn) + AddedTo(w.log.received, conn) + AddedTo(w.channel, conn)
  }

  ghost predicate Conserved(w: World) {
    forall conn :: ConservedFor(w.log, w.core.queue, conn) && SentFor(w, conn)
  }

  /** Every record ever sent for a connection, in the order of sending: it ended with an earlier process, or has left
      its queue, or is in the queue, or in the channel. */
  ghost predicate AllAccounted(w: World) {
    forall conn ::
      AddedTo(w.log.sent, conn) ==
        EndedRecords(w.log.ended, conn)
        + (FatedOf(w.log.fates, conn) + Lookup(w.core.queue, conn)) + AddedTo(w.channel, conn)
  }

  lemma {:induction false} RecordsConcat(a: seq<Entry>, b: seq<Entry>, conn: string)
    ensures RecordsOf(a + b, conn) == RecordsOf(a, conn) + RecordsOf(b, conn)
  {
    if b == [] {
      assert a + b == a;
    } else {
      assert (a + b)[..|a + b| - 1] == a + b[..|b| - 1];
      RecordsConcat(a, b[..|b| - 1], conn);
    }
  }

  lemma FatedConcat(a: seq<Fated>, b: seq<Fated>, conn: string)
    ensures FatedOf(a + b, conn) == FatedOf(a, conn) + FatedOf(b, conn)
  {
    assert Departed(a + b) == Departed(a) + Departed(b);
    RecordsConcat(Departed(a), Departed(b), conn);
  }

  /** A block of records of one connection projects to itself or to nothing. */
  lemma {:induction false} RecordsTag(k: string, rs: seq<ToolCallRecord>, conn: string)
    ensures RecordsOf(Tag(k, rs), conn) == if k == conn then rs else []
  {
    if rs != [] {
      var init := rs[..|rs| - 1];
      RecordsTag(k, init, conn);
      assert Tag(k, rs)[..|rs| - 1] == Tag(k, init);
    }
  }

  lemma NoRepeatPrefix(order: seq<string>, conn: string)
    requires order != [] && NoRepeat(order)
    ensures
      var init, k := order[..|order| - 1], order[|order| - 1];
      NoRepeat(init) && k !in init && (conn in order <==> conn in init || conn == k)
  {
    assert order == order[..|order| - 1] + [order[|order| - 1]];
  }

  /** Whatever the iteration order, a batch holds each connection's queue once, in queue order. */
  lemma {:induction false} RecordsBatch(queue: map<string, seq<ToolCallRecord>>, order: seq<string>, conn: string)
    requires NoRepeat(order)
    ensures RecordsOf(Batch(queue, order), conn) == if conn in order then Lookup(queue, conn) else []
  {
    if order != [] {
      var init, k := order[..|order| - 1], order[|order| - 1];
      NoRepeatPrefix(order, conn);
      RecordsBatch(queue, init, conn);
      RecordsConcat(Batch(queue, init), Tag(k, Lookup(queue, k)), conn);
      RecordsTag(k, Lookup(queue, k), conn);
    }
  }

  lemma BatchHoldsQueue(queue: map<string, seq<ToolCallRecord>>, order: seq<string>, conn: string)
    requires IsOrder(order, queue.Keys)
    ensures RecordsOf(Batch(queue, order), conn) == Lookup(queue, conn)
  {
    hide RecordsOf, Batch;
    RecordsBatch(queue, order, conn);
    assert conn in order <==> conn in (set k | k in order);
  }

  lemma DepartedInTick(c: Codec, s: Core, io: TickIO)
    ensures Departed(TickFates(c, s, io)) == Batch(s.queue, io.order)
  {}

  lemma TickConserves(c: Codec, log: Log, s: Core, io: TickIO, conn: string)
    requires ConservedFor(log, s.queue, conn) && IsOrder(io.order, s.queue.Keys)
    ensures ConservedFor(log.(fates := log.fates + TickFates(c, s, io)), TickCore(c, s, io).queue, conn)
  {
    hide RecordsOf, Batch, Departed, AddedTo, TickFates, IsOrder;
    DepartedInTick(c, s, io);
    FatedConcat(log.fates, TickFates(c, s, io), conn);
    BatchHoldsQueue(s.queue, io.order, conn);
    assert Lookup(TickCore(c, s, io).queue, conn) == [];
    AppendNothing(FatedOf(log.fates, conn) + Lookup(s.queue, conn));
  }

  lemma AddedSnoc(received: seq<Update>, u: Update, conn: string)
    ensures AddedTo(received + [u], conn) ==
            AddedTo(received, conn) + if u.AddCall? && u.conn == conn then [u.record] else []
  {
    SnocParts(received, u);
  }

  lemma {:induction false} AddedConcat(a: seq<Update>, b: seq<Update>, conn: string)
    ensures AddedTo(a + b, conn) == AddedTo(a, conn) + AddedTo(b, conn)
  {
    if b == [] {
      assert a + b == a;
    } else {
      assert (a + b)[..|a + b| - 1] == a + b[..|b| - 1];
      AddedConcat(a, b[..|b| - 1], conn);
    }
  }

  lemma SendAccounts(c: Codec, w: World, u: Update, conn: string)
    requires SentFor(w, conn)
    ensures SentFor(Next(c, w, Send(u)), conn)
  {
    AddedConcat(w.log.sent, [u], conn);
    AddedConcat(w.channel, [u], conn);
    hide AddedTo, EndedRecords;
    var received := EndedRecords(w.log.ended, conn) + AddedTo(w.log.received, conn);
    Assoc(received, AddedTo(w.channel, conn), AddedTo([u], conn));
  }

  lemma ReceiveAccounts(c: Codec, w: World, conn: string)
    requires SentFor(w, conn) && w.channel != []
    ensures SentFor(Next(c, w, Receive), conn)
  {
    var u, rest := w.channel[0], w.channel[1..];
    assert w.channel == [u] + rest;
    AddedConcat([u], rest, conn);
    AddedConcat(w.log.received, [u], conn);
    hide AddedTo, EndedRecords, ApplyUpdate;
    var before, received := EndedRecords(w.log.ended, conn), AddedTo(w.log.received, conn);
    Assoc(before + received, AddedTo([u], conn), AddedTo(rest, conn));
    Assoc(before, received, AddedTo([u], conn));
  }

  lemma RestartAccounts(c: Codec, w: World, readOk: bool, conn: string)
    requires SentFor(w, conn) && ConservedFor(w.log, w.core.queue, conn)
    ensures SentFor(Next(c, w, Restart(readOk)), conn)
  {
    var w' := Next(c, w, Restart(readOk));
    var p := Ended(w.log.fates, w.core.queue, w.channel);
    SnocParts(w.log.ended, p);
    assert EndedRecords(w'.log.ended, conn) == EndedRecords(w.log.ended, conn) + EndedWith(p, conn);
    assert AddedTo(w'.log.received, conn) == [] && AddedTo(w'.channel, conn) == [];
    hide AddedTo, EndedRecords, FatedOf;
    AppendNothing(EndedRecords(w'.log.ended, conn));
    Assoc(EndedRecords(w.log.ended, conn), AddedTo(w.log.received, conn), AddedTo(w.channel, conn));
  }

  lemma AccountedNow(w: World)
    requires Conserved(w)
    ensures AllAccounted(w)
  {
    forall conn
      ensures AddedTo(w.log.sent, conn) ==
        EndedRecords(w.log.ended, conn)
        + (FatedOf(w.log.fates, conn) + Lookup(w.core.queue, conn)) + AddedTo(w.channel, conn)
    {
      assert ConservedFor(w.log, w.core.queue, conn) && SentFor(w, conn);
    }
  }

  lemma DiscardedOf(log: Log, s: Core, u: Update, conn: string)
    ensures FatedOf(LogUpdate(log, s, u).fates, conn) ==
            FatedOf(log.fates, conn) + if u.RemoveConnection? && u.conn == conn then Lookup(s.queue, conn) else []
  {
    if u.RemoveConnection? {
      var es := Tag(u.conn, Lookup(s.queue, u.conn));
      assert Departed(DiscardFates(es)) == es;
      RecordsTag(u.conn, Lookup(s.queue, u.conn), conn);
      FatedConcat(log.fates, DiscardFates(es), conn);
    } else {
      AppendNothing(log.fates);
      AppendNothing(FatedOf(log.fates, conn));
    }
  }

  lemma ReceiveConserves(log: Log, s: Core, u: Update, conn: string)
    requires ConservedFor(log, s.queue, conn)
    ensures ConservedFor(LogUpdate(log, s, u), ApplyUpdate(s, u).queue, conn)
  {
    AddedSnoc(log.received, u, conn);
    DiscardedOf(log, s, u, conn);
    hide AddedTo, FatedOf;
    var added, left, queued := AddedTo(log.received, conn), FatedOf(log.fates, conn), Lookup(s.queue, conn);
    AppendNothing(added);
    AppendNothing(left);
    AppendNothing(left + queued);
    if u.AddCall? && u.conn == conn {
      Assoc(left, queued, [u.record]);
    }
  }

  lemma ConservedStep(c: Codec, w: World, e: Event)
    requires Conserved(w)
    ensures Conserved(Next(c, w, e))
  {
    var w' := Next(c, w, e);
    forall conn ensures ConservedFor(w'.log, w'.core.queue, conn) && SentFor(w', conn) {
      assert ConservedFor(w.log, w.core.queue, conn) && SentFor(w, conn);
      if Enabled(w, e) {
        match e {
          case Send(u) => SendAccounts(c, w, u, conn);
          case Receive =>
            ReceiveConserves(w.log, w.core, w.channel[0], conn);
            ReceiveAccounts(c, w, conn);
          case Tick(io) => TickConserves(c, w.log, w.core, io, conn);
          case Restart(readOk) =>
            StartedConserved(c, w.core.disk, readOk, EverWritten(w.log), conn);
            RestartAccounts(c, w, readOk, conn);
        }
      }
      hide AddedTo, FatedOf, EndedRecords, ApplyUpdate, TickCore, TickFates;
    }
  }

  lemma StartedConserved(c: Codec, d: Disk, readOk: bool, prior: seq<ToolCallRecord>, conn: string)
    ensures
      var w := Started(c, d, readOk, prior);
      ConservedFor(w.log, w.core.queue, conn) && SentFor(w, conn)
  {}

  /** No record is lost track of, duplicated or reordered within its connection: in every run, restarts included, the
      records ever sent for a connection are, in order, those that ended with each earlier process (written, lost in a
      flush or discarded; then those it had queued; then those still in its channel), and of the present process those
      already written, lost or discarded, those still queued, and those still in the channel. */
  lemma {:induction false} ConservationAndOrder(
    c: Codec, d: Disk, readOk: bool, prior: seq<ToolCallRecord>, es: seq<Event>)
    ensures Conserved(Exec(c, Started(c, d, readOk, prior), es))
    ensures AllAccounted(Exec(c, Started(c, d, readOk, prior), es))
  {
    var w := Exec(c, Started(c, d, readOk, prior), es);
    if es == [] {
      forall conn ensures ConservedFor(w.log, w.core.queue, conn) && SentFor(w, conn) {
        StartedConserved(c, d, readOk, prior, conn);
      }
    } else {
      ConservationAndOrder(c, d, readOk, prior, es[..|es| - 1]);
      ConservedStep(c, Exec(c, Started(c, d, readOk, prior), es[..|es| - 1]), es[|es| - 1]);
    }
    hide ConservedFor, SentFor;
    AccountedNow(w);
  }

  // ----- Recovery -----

  /** The file is a framed suffix of everything ever written, long enough for the loader. */
  ghost predicate FileHolds(c: Codec, d: Disk, all: seq<ToolCallRecord>) {
    var held := DecodeAll(c, Split(Text(d)));
    && d.readable && Encodable(c, held)
    && Text(d) == Frame(Encodings(c, held))
    && held == Last(all, |held|)
    && |held| >= Min(MAX_DISK_ENTRIES, |all|)
  }

  /** No write of the batch leaves part of a line behind, not even part of a character. */
  ghost predicate NothingTorn(c: Codec, rs: seq<ToolCallRecord>, io: TickIO) {
    NoTornLine(c, rs, io.chars) && NoneInside(c, rs, io.chars, io.inside)
  }

  /** Along the run, no flush leaves part of a line behind. */
  ghost predicate NoTornRun(c: Codec, w: World, es: seq<Event>) {
    es == [] ||
    (var before, e := Exec(c, w, es[..|es| - 1]), es[|es| - 1];
     && NoTornRun(c, w, es[..|es| - 1])
     && (e.Tick? && Enabled(before, e) && e.io.openOk ==>
           NothingTorn(c, Untag(Batch(before.core.queue, e.io.order)), e.io)))
  }

  lemma {:induction false} WrittenConcat(a: seq<Fated>, b: seq<Fated>)
    ensures WrittenOf(a + b) == WrittenOf(a) + WrittenOf(b)
  {
    if b == [] {
      assert a + b == a;
    } else {
      assert (a + b)[..|a + b| - 1] == a + b[..|b| - 1];
      WrittenConcat(a, b[..|b| - 1]);
    }
  }

  lemma {:induction false} NoneWritten(fs: seq<Fated>)
    requires forall k :: 0 <= k < |fs| ==> !fs[k].fate.Written?
    ensures WrittenOf(fs) == []
  {
    if fs != [] {
      NoneWritten(fs[..|fs| - 1]);
    }
  }

  /** The log's account of a flush agrees with the file's. */
  lemma {:induction false} WrittenIsCompleted(c: Codec, fs: seq<Fated>, rs: seq<ToolCallRecord>, chars: nat -> nat)
    requires |fs| == |rs|
    requires forall k :: 0 <= k < |rs| ==>
      fs[k].entry.record == rs[k] && (fs[k].fate.Written? <==> Complete(c, rs[k], chars(k)))
    ensures WrittenOf(fs) == Completed(c, rs, chars)
  {
    if rs != [] {
      WrittenIsCompleted(c, fs[..|fs| - 1], rs[..|rs| - 1], chars);
    }
  }

  lemma AppendKeepsHolding(
    c: Codec, d: Disk, all: seq<ToolCallRecord>, rs: seq<ToolCallRecord>, chars: nat -> nat, inside: nat -> bool)
    requires Faithful(c) && FileHolds(c, d, all) && NoTornLine(c, rs, chars) && NoneInside(c, rs, chars, inside)
    ensures FileHolds(c, AppendedTo(c, d, rs, chars, inside), all + Completed(c, rs, chars))
  {
    var held := DecodeAll(c, Split(Text(d)));
    var done := Completed(c, rs, chars);
    AppendFrames(c, held, rs, chars);
    FramingRoundTrip(c, held + done);
    SuffixGrows(held, all, done);
    hide Appended, Completed, Split, DecodeAll, Frame;
  }

  lemma EncodingsOfLast(c: Codec, held: seq<ToolCallRecord>, n: nat)
    requires Encodable(c, held)
    ensures Encodable(c, Last(held, n)) && Encodings(c, Last(held, n)) == Last(Encodings(c, held), n)
  {}

  lemma RotationKeepsHolding(c: Codec, d: Disk, all: seq<ToolCallRecord>, readOk: bool, fault: Fault)
    requires Faithful(c) && FileHolds(c, d, all)
    ensures FileHolds(c, Rotated(d, readOk, fault), all)
  {
    if d.file.Some? {
      hide Split, Frame, Rotated;
      RotationCrashAtomic(d, readOk, fault);
      var held := DecodeAll(c, Split(Text(d)));
      FramingRoundTrip(c, held);
      if |held| > MAX_DISK_ENTRIES {
        var kept := Last(held, MAX_DISK_ENTRIES);
        EncodingsOfLast(c, held, MAX_DISK_ENTRIES);
        FramingRoundTrip(c, kept);
        LastOfLast(all, |held|, MAX_DISK_ENTRIES);
      }
    }
  }

  /** The records of the batch that end up in the file: all completed ones, or those before the write in flight. */
  function Landed(c: Codec, s: Core, io: TickIO): seq<ToolCallRecord> {
    var rs := Untag(Batch(s.queue, io.order));
    if !io.openOk then []
    else Completed(c, if LosesLast(c, s, io) then rs[..BeforeLastWrite(c, rs)] else rs, io.chars)
  }

  lemma LandedAreWritten(c: Codec, s: Core, io: TickIO)
    ensures WrittenOf(TickFates(c, s, io)) == Landed(c, s, io)
  {
    var rs, fs := Untag(Batch(s.queue, io.order)), TickFates(c, s, io);
    hide LosesLast, Batch;
    if !io.openOk {
      NoneWritten(fs);
    } else if LosesLast(c, s, io) {
      var n := BeforeLastWrite(c, rs);
      assert fs == fs[..n] + fs[n..];
      WrittenConcat(fs[..n], fs[n..]);
      WrittenIsCompleted(c, fs[..n], rs[..n], io.chars);
      NoneWritten(fs[n..]);
      AppendNothing(WrittenOf(fs[..n]));
    } else {
      WrittenIsCompleted(c, fs, rs, io.chars);
    }
  }

  lemma TornPrefix(c: Codec, rs: seq<ToolCallRecord>, io: TickIO, n: nat)
    requires NothingTorn(c, rs, io) && n <= |rs|
    ensures NothingTorn(c, rs[..n], io)
  {}

  lemma CheckKeepsHolding(c: Codec, d: Disk, all: seq<ToolCallRecord>, rs: seq<ToolCallRecord>, io: TickIO)
    requires Faithful(c) && FileHolds(c, d, all) && NothingTorn(c, rs, io)
    ensures
      var lost := io.late && Replaces(Seen(c, d, rs, io), io.rotateReadOk, io.fault);
      var landed := if lost then rs[..BeforeLastWrite(c, rs)] else rs;
      FileHolds(c, Checked(c, d, rs, io), all + Completed(c, landed, io.chars))
  {
    var n := BeforeLastWrite(c, rs);
    TornPrefix(c, rs, io, n);
    AppendKeepsHolding(c, d, all, rs, io.chars, io.inside);
    AppendKeepsHolding(c, d, all, rs[..n], io.chars, io.inside);
    hide Split, Frame, Rotated, Completed, AppendedTo, DecodeAll, Replaces, BeforeLastWrite;
    if !io.late {
      RotationKeepsHolding(c, Seen(c, d, rs, io), all + Completed(c, rs, io.chars), io.rotateReadOk, io.fault);
    } else {
      RotationKeepsHolding(c, Seen(c, d, rs, io), all + Completed(c, rs[..n], io.chars), io.rotateReadOk, io.fault);
    }
  }

  lemma TickKeepsHolding(c: Codec, s: Core, io: TickIO, all: seq<ToolCallRecord>)
    requires Faithful(c) && FileHolds(c, s.disk, all)
    requires io.openOk ==> NothingTorn(c, Untag(Batch(s.queue, io.order)), io)
    ensures FileHolds(c, TickCore(c, s, io).disk, all + Landed(c, s, io))
  {
    hide FileHolds, Faithful, NothingTorn, Checked, AppendedTo, Completed, Replaces, Batch;
    var rs := Untag(Batch(s.queue, io.order));
    AppendNothing(all);
    if io.openOk && rs != [] {
      if s.counter + |rs| < ROTATION_CHECK_INTERVAL {
        assert NoTornLine(c, rs, io.chars) && NoneInside(c, rs, io.chars, io.inside) by {
          TornParts(c, rs, io);
        }
        AppendKeepsHolding(c, s.disk, all, rs, io.chars, io.inside);
      } else {
        CheckKeepsHolding(c, s.disk, all, rs, io);
      }
    } else {
      assert rs[..0] == [];
      NoneCompleted(c, io);
    }
  }

  lemma TornParts(c: Codec, rs: seq<ToolCallRecord>, io: TickIO)
    requires NothingTorn(c, rs, io)
    ensures NoTornLine(c, rs, io.chars) && NoneInside(c, rs, io.chars, io.inside)
  {}

  lemma NoneCompleted(c: Codec, io: TickIO)
    ensures Completed(c, [], io.chars) == []
  {}

  lemma ReceiveWritesNothing(log: Log, s: Core, u: Update)
    ensures EverWritten(LogUpdate(log, s, u)) == EverWritten(log)
  {
    var added := LogUpdate(log, s, u).fates[|log.fates|..];
    assert LogUpdate(log, s, u).fates == log.fates + added;
    NoneWritten(added);
    WrittenConcat(log.fates, added);
  }

  lemma TickWrites(c: Codec, w: World, io: TickIO)
    requires Enabled(w, Tick(io))
    ensures EverWritten(Next(c, w, Tick(io)).log) == EverWritten(w.log) + Landed(c, w.core, io)
  {
    LandedAreWritten(c, w.core, io);
    hide Landed, TickFates;
    WrittenConcat(w.log.fates, TickFates(c, w.core, io));
  }

  lemma HoldingStep(c: Codec, w: World, e: Event)
    requires Faithful(c) && FileHolds(c, w.core.disk, EverWritten(w.log))
    requires e.Tick? && Enabled(w, e) && e.io.openOk ==>
      NothingTorn(c, Untag(Batch(w.core.queue, e.io.order)), e.io)
    ensures var w' := Next(c, w, e); FileHolds(c, w'.core.disk, EverWritten(w'.log))
  {
    if Enabled(w, e) {
      match e {
        case Send(_) =>
        case Receive => ReceiveWritesNothing(w.log, w.core, w.channel[0]);
        case Tick(io) =>
          TickKeepsHolding(c, w.core, io, EverWritten(w.log));
          TickWrites(c, w, io);
        case Restart(readOk) => RestartWritesNothing(c, w, readOk);
      }
    }
  }

  lemma RestartWritesNothing(c: Codec, w: World, readOk: bool)
    ensures EverWritten(Next(c, w, Restart(readOk)).log) == EverWritten(w.log)
  {
    var log := Next(c, w, Restart(readOk)).log;
    assert WrittenOf(log.fates) == [];
  }

  lemma {:induction false} RunHolds(c: Codec, w: World, es: seq<Event>)
    requires Faithful(c) && FileHolds(c, w.core.disk, EverWritten(w.log)) && NoTornRun(c, w, es)
    ensures var w' := Exec(c, w, es); FileHolds(c, w'.core.disk, EverWritten(w'.log))
  {
    if es != [] {
      RunHolds(c, w, es[..|es| - 1]);
      HoldingStep(c, Exec(c, w, es[..|es| - 1]), es[|es| - 1]);
    }
  }

  /** The world an arbitrary run from no file at all leads to. */
  function FromEmpty(c: Codec, es: seq<Event>): World {
    Exec(c, Started(c, EMPTY_DISK, true, []), es)
  }

  ghost predicate NoTornFromEmpty(c: Codec, es: seq<Event>) {
    NoTornRun(c, Started(c, EMPTY_DISK, true, []), es)
  }

  /** Loading the file gives exactly the last 1000 of all records ever written, and a restart puts exactly these under
      the legacy connection. */
  ghost predicate RecoversLast(c: Codec, w: World) {
    var recent := Last(EverWritten(w.log), 1000);
    && LoadedFrom(c, w.core.disk) == recent
    && Next(c, w, Restart(true)).core.entries == if recent == [] then map[] else map["__legacy__" := recent]
  }

  /** Recovery is blind to rotation: it recovers the last 1000 written records in every run from an empty file, across
      restarts, failed opens, failed writes that leave no torn line, rotations stopped at any call, and last writes of a
      flush still in flight when a rotation reads the file. */
  lemma RecoveryBlindToRotation(c: Codec, es: seq<Event>)
    requires Faithful(c) && NoTornFromEmpty(c, es)
    ensures RecoversLast(c, FromEmpty(c, es))
  {
    var w0 := Started(c, EMPTY_DISK, true, []);
    assert EverWritten(w0.log) == [];
    RunHolds(c, w0, es);
    hide RecoversLast, FileHolds, NoTornRun, Exec, EverWritten;
    HeldIsLoaded(c, FromEmpty(c, es));
  }

  lemma HeldIsLoaded(c: Codec, w: World)
    requires FileHolds(c, w.core.disk, EverWritten(w.log))
    ensures RecoversLast(c, w)
  {
    var all, held := EverWritten(w.log), DecodeAll(c, Split(Text(w.core.disk)));
    SuffixEnds(held, all, MAX_HISTORY_ENTRIES);
  }

  // ----- Putting runs together -----

  lemma {:induction false} ExecConcat(c: Codec, w: World, a: seq<Event>, b: seq<Event>)
    ensures Exec(c, w, a + b) == Exec(c, Exec(c, w, a), b)
  {
    if b == [] {
      assert a + b == a;
    } else {
      assert (a + b)[..|a + b| - 1] == a + b[..|b| - 1];
      ExecConcat(c, w, a, b[..|b| - 1]);
    }
  }

  lemma ExecOne(c: Codec, w: World, e: Event)
    ensures Exec(c, w, [e]) == Next(c, w, e)
  {
    assert [e][..0] == [];
    assert Exec(c, w, []) == w;
  }

  lemma ExecTwo(c: Codec, w: World, e: Event, f: Event)
    ensures Exec(c, w, [e, f]) == Next(c, Next(c, w, e), f)
  {
    assert [e, f] == [e] + [f];
    ExecConcat(c, w, [e], [f]);
    ExecOne(c, w, e);
    ExecOne(c, Next(c, w, e), f);
  }

  lemma OneQueue(queue: map<string, seq<ToolCallRecord>>)
    ensures Untag(Batch(queue, ["c"])) == Lookup(queue, "c")
  {
    assert ["c"][..0] == [];
    assert Batch(queue, []) == [];
  }

  /** A check that replaces nothing leaves the file with the whole batch. */
  lemma CheckKeeps(c: Codec, d: Disk, rs: seq<ToolCallRecord>, io: TickIO)
    requires !Replaces(Seen(c, d, rs, io), io.rotateReadOk, io.fault)
    ensures
      var checked, all := Checked(c, d, rs, io), AppendedTo(c, d, rs, io.chars, io.inside);
      checked.file == all.file && checked.readable == all.readable
  {
    RotationCrashAtomic(Seen(c, d, rs, io), io.rotateReadOk, io.fault);
    hide Rotated, Split, Frame, Appended, NoneInside;
  }

  // ----- Disk bound -----

  function Restarts(es: seq<Event>): nat {
    Count(es, (e: Event) => e.Restart?)
  }

  ghost predicate RotationsSucceed(es: seq<Event>) {
    forall k :: 0 <= k < |es| && es[k].Tick? ==> es[k].io.rotateReadOk && es[k].io.fault.at >= ROTATION_CALLS
  }

  /** No write is in flight when a rotation reads the file. */
  ghost predicate NoneLate(es: seq<Event>) {
    forall k :: 0 <= k < |es| && es[k].Tick? ==> !es[k].io.late
  }

  /** The write in flight adds at most one line to what the rotation saw. */
  lemma {:induction false} LateAddsOne(c: Codec, text: string, rs: seq<ToolCallRecord>, chars: nat -> nat)
    requires PlainOutput(c)
    ensures |Split(Appended(c, text, rs, chars))| <= |Split(Appended(c, text, rs[..BeforeLastWrite(c, rs)], chars))| + 1
  {
    if rs != [] {
      var k := |rs| - 1;
      var before := Appended(c, text, rs[..k], chars);
      if c.enc(rs[k]).Some? {
        OneMoreLine(c, before, rs[k], chars(k));
      } else {
        LateAddsOne(c, text, rs[..k], chars);
        AppendNothing(before);
        var n := BeforeLastWrite(c, rs[..k]);
        assert rs[..k][..n] == rs[..n];
      }
    }
  }

  lemma OneMoreLine(c: Codec, text: string, r: ToolCallRecord, chars: nat)
    requires PlainOutput(c)
    ensures |Split(text + Piece(c, r, chars))| <= |Split(text)| + 1
  {
    assert [r][..0] == [];
    var fixed := _ => chars;
    assert Appended(c, text, [r], fixed) == text + Piece(c, r, chars);
    AppendLineCount(c, text, [r], fixed);
  }

  lemma ReplacedLines(d: Disk, readOk: bool, fault: Fault)
    requires d.file.Some?
    ensures |Split(Text(Rotated(d, readOk, fault)))| <= |Split(d.file.value)|
    ensures d.readable && readOk && fault.at >= ROTATION_CALLS ==>
      |Split(Text(Rotated(d, readOk, fault)))| <= MAX_DISK_ENTRIES
  {
    RotationCrashAtomic(d, readOk, fault);
    SplitBreakFree(d.file.value);
    hide Split, Frame, Rotated;
    SplitFrameCount(KeptLines(d.file.value));
  }

  lemma CheckBound(c: Codec, d: Disk, rs: seq<ToolCallRecord>, io: TickIO)
    requires PlainOutput(c) && io.rotateReadOk && io.fault.at >= ROTATION_CALLS
    ensures Checked(c, d, rs, io).readable ==>
      |Split(Text(Checked(c, d, rs, io)))| <= MAX_DISK_ENTRIES + if io.late then 1 else 0
  {
    var seen := Seen(c, d, rs, io);
    ReplacedLines(seen, io.rotateReadOk, io.fault);
    RotationCrashAtomic(seen, io.rotateReadOk, io.fault);
    if io.late {
      LateAddsOne(c, Text(d), rs, io.chars);
      InsidePrefix(c, rs, BeforeLastWrite(c, rs), io);
    }
    hide Split, Frame, Rotated, Appended, NoneInside;
  }

  lemma InsidePrefix(c: Codec, rs: seq<ToolCallRecord>, n: nat, io: TickIO)
    requires n <= |rs|
    ensures NoneInside(c, rs, io.chars, io.inside) ==> NoneInside(c, rs[..n], io.chars, io.inside)
  {}

  lemma TickBound(c: Codec, s: Core, io: TickIO, base: nat)
    requires PlainOutput(c) && io.rotateReadOk && io.fault.at >= ROTATION_CALLS
    requires s.counter < ROTATION_CHECK_INTERVAL
    requires base >= MAX_DISK_ENTRIES + if io.late then 1 else 0
    requires s.disk.readable ==> |Split(Text(s.disk))| <= base + s.counter
    ensures
      var s' := TickCore(c, s, io);
      && s'.counter < ROTATION_CHECK_INTERVAL
      && (s'.disk.readable ==> |Split(Text(s'.disk))| <= base + s'.counter)
  {
    var rs := Untag(Batch(s.queue, io.order));
    AppendLineCount(c, Text(s.disk), rs, io.chars);
    CheckBound(c, s.disk, rs, io);
    hide Split, Appended, Checked, Batch, NoneInside;
  }

  /** Disk bound: from any file of at most 5000 lines, with no rotation failing, the file never has more than
      5000 + 99 * restarts + counter lines and the counter stays below 100, for any batch sizes and torn writes; and one
      line more when a write can be in flight during a rotation. Without a restart that is at most 5099 (5100) lines. A
      file that has become unreadable cannot be rotated: see NeverReadableAgain. */
  lemma {:induction false} DiskBound(
    c: Codec, d: Disk, readOk: bool, prior: seq<ToolCallRecord>, es: seq<Event>)
    requires PlainOutput(c) && |Split(Text(d))| <= MAX_DISK_ENTRIES && RotationsSucceed(es)
    ensures
      var s := Exec(c, Started(c, d, readOk, prior), es).core;
      && s.counter < ROTATION_CHECK_INTERVAL
      && (s.disk.readable ==>
            |Split(Text(s.disk))| <=
              MAX_DISK_ENTRIES + 99 * Restarts(es) + s.counter + if NoneLate(es) then 0 else 1)
  {
    if es != [] {
      var init, e := es[..|es| - 1], es[|es| - 1];
      assert RotationsSucceed(init) && (NoneLate(es) ==> NoneLate(init));
      DiskBound(c, d, readOk, prior, init);
      var w := Exec(c, Started(c, d, readOk, prior), init);
      if e.Tick? && Enabled(w, e) {
        TickBound(c, w.core, e.io, MAX_DISK_ENTRIES + 99 * Restarts(init) + if NoneLate(es) then 0 else 1);
      }
      hide Split;
    }
  }

  // ----- An unreadable file -----

  lemma {:induction false} AppendedGrows(c: Codec, text: string, rs: seq<ToolCallRecord>, chars: nat -> nat)
    ensures text <= Appended(c, text, rs, chars)
  {
    if rs != [] {
      AppendedGrows(c, text, rs[..|rs| - 1], chars);
    }
  }

  lemma UnreadableStep(c: Codec, w: World, e: Event)
    requires !w.core.disk.readable
    ensures
      var d, d' := w.core.disk, Next(c, w, e).core.disk;
      && !d'.readable && d'.temp == d.temp && Text(d) <= Text(d')
  {
    if e.Tick? && Enabled(w, e) {
      AppendedGrows(c, Text(w.core.disk), Untag(Batch(w.core.queue, e.io.order)), e.io.chars);
    }
    hide Appended, Batch;
  }

  /** Once a write has stopped inside a character, nothing repairs the file: in every run from there on it stays
      unreadable, is never rotated and only grows, and no start loads anything from it. */
  lemma {:induction false} NeverReadableAgain(c: Codec, w: World, es: seq<Event>)
    requires !w.core.disk.readable
    ensures
      var w' := Exec(c, w, es);
      && !w'.core.disk.readable && w'.core.disk.temp == w.core.disk.temp
      && Text(w.core.disk) <= Text(w'.core.disk)
      && Next(c, w', Restart(true)).core.entries == map[]
  {
    if es != [] {
      NeverReadableAgain(c, w, es[..|es| - 1]);
      UnreadableStep(c, Exec(c, w, es[..|es| - 1]), es[|es| - 1]);
      hide Next;
    }
    RestartLoadsNothing(c, Exec(c, w, es));
  }

  lemma RestartLoadsNothing(c: Codec, w: World)
    requires !w.core.disk.readable
    ensures Next(c, w, Restart(true)).core.entries == map[]
  {}
}
