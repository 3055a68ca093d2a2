// The tool-history pipeline as a machine over interleavings: senders, the channel, the background task that keeps
// the bounded caches and the write queues, the periodic flush, rotation faults and process restarts.
module HistoryModel {
  import opened Wrappers
  import opened HistoryFile

  const ROTATION_CHECK_INTERVAL: nat := 100
  const LEGACY := "__legacy__"

  datatype Update = AddCall(conn: string, record: ToolCallRecord) | RemoveConnection(conn: string)

  /** The state the background task owns, with the two files it writes. */
  datatype Core = Core(
    entries: map<string, seq<ToolCallRecord>>,
    queue: map<string, seq<ToolCallRecord>>,
    counter: nat,
    disk: Disk)

  /** What the environment decides about one flush: the map's iteration order, whether the file opens, how many
      characters of each write get through and whether it stops inside the next one, whether the last write is still in
      flight when a rotation reads the file (a write call returns before its bytes are in the file, and the next call
      waits for it; the last one has no next), and how far a rotation gets. */
  datatype TickIO = TickIO(
    order: seq<string>, openOk: bool, chars: nat -> nat, inside: nat -> bool, late: bool,
    rotateReadOk: bool, fault: Fault)

  datatype Entry = Entry(conn: string, record: ToolCallRecord)
  datatype Fate = Written | Discarded | Lost
  datatype Fated = Fated(entry: Entry, fate: Fate)

  /** A process that is gone: the fates of the records that left its queues, and what died with it in its queues and in
      its channel. */
  datatype Ended = Ended(fates: seq<Fated>, queue: map<string, seq<ToolCallRecord>>, channel: seq<Update>)

  /** What has happened: the simple description the state is compared with. `prior` is what earlier processes wrote,
      `loaded` what this one read at start, `received` what it took from the channel, `fates` where each queued
      record went, in the order in which records left the queues. Over all processes, `sent` is everything ever put
      into the channel and `ended` the processes before this one. */
  datatype Log = Log(
    prior: seq<ToolCallRecord>, loaded: seq<ToolCallRecord>, received: seq<Update>, fates: seq<Fated>,
    sent: seq<Update>, ended: seq<Ended>)

  datatype World = World(channel: seq<Update>, core: Core, log: Log)

  datatype Event =
    | Send(update: Update)
    | Receive
    | Tick(io: TickIO)
    | Restart(readOk: bool)

  // ----- The background task -----

  function Lookup<T>(m: map<string, seq<T>>, k: string): seq<T> {
    if k in m then m[k] else []
  }

  function PushBounded(entries: seq<ToolCallRecord>, r: ToolCallRecord): seq<ToolCallRecord> {
    var grown := entries + [r];
    if |grown| > MAX_HISTORY_ENTRIES then grown[1..] else grown
  }

  function ApplyUpdate(s: Core, u: Update): Core {
    match u
    case AddCall(c, r) =>
      s.(entries := s.entries[c := PushBounded(Lookup(s.entries, c), r)], queue := s.queue[c := Lookup(s.queue, c) + [r]])
    case RemoveConnection(c) =>
      s.(entries := s.entries - {c}, queue := s.queue - {c})
  }

  predicate NoRepeat(order: seq<string>) {
    forall i, j :: 0 <= i < j < |order| ==> order[i] != order[j]
  }

  predicate IsOrder(order: seq<string>, keys: set<string>) {
    && NoRepeat(order)
    && (set k | k in order) == keys
  }

  function Tag(conn: string, rs: seq<ToolCallRecord>): (es: seq<Entry>)
    ensures |es| == |rs|
  {
    seq(|rs|, k requires 0 <= k < |rs| => Entry(conn, rs[k]))
  }

  function Untag(es: seq<Entry>): (rs: seq<ToolCallRecord>)
    ensures |rs| == |es|
  {
    seq(|es|, k requires 0 <= k < |es| => es[k].record)
  }

  /** All queued records, queue by queue in the given order. */
  function Batch(queue: map<string, seq<ToolCallRecord>>, order: seq<string>): seq<Entry> {
    if order == [] then [] else
    var k := order[|order| - 1];
    Batch(queue, order[..|order| - 1]) + Tag(k, Lookup(queue, k))
  }

  function TickCore(c: Codec, s: Core, io: TickIO): Core {
    var rs := Untag(Batch(s.queue, io.order));
    var taken := s.(queue := map k | k in s.queue :: []);
    if rs == [] || !io.openOk then taken else
    if s.counter + |rs| < ROTATION_CHECK_INTERVAL
    then taken.(disk := AppendedTo(c, s.disk, rs, io.chars, io.inside), counter := s.counter + |rs|)
    else taken.(disk := Checked(c, s.disk, rs, io), counter := 0)
  }

  /** How many records precede the last one that is written at all: records that cannot be encoded are not. */
  function BeforeLastWrite(c: Codec, rs: seq<ToolCallRecord>): (n: nat)
    ensures n <= |rs|
    ensures forall k :: n < k < |rs| ==> c.enc(rs[k]).None?
  {
    if rs == [] then 0 else
    if c.enc(rs[|rs| - 1]).Some? then |rs| - 1 else BeforeLastWrite(c, rs[..|rs| - 1])
  }

  /** What the rotation check of a flush finds in the file. */
  function Seen(c: Codec, d: Disk, rs: seq<ToolCallRecord>, io: TickIO): Disk {
    AppendedTo(c, d, if io.late then rs[..BeforeLastWrite(c, rs)] else rs, io.chars, io.inside)
  }

  /** The disk after the writes and the rotation check. A write in flight lands in the old file: it is in place after
      the check unless that file has been replaced meanwhile. */
  function Checked(c: Codec, d: Disk, rs: seq<ToolCallRecord>, io: TickIO): Disk {
    var rotated := Rotated(Seen(c, d, rs, io), io.rotateReadOk, io.fault);
    if !io.late || Replaces(Seen(c, d, rs, io), io.rotateReadOk, io.fault) then rotated else
    var all := AppendedTo(c, d, rs, io.chars, io.inside);
    rotated.(file := all.file, readable := all.readable)
  }

  /** The last write of the flush was still in flight when a rotation replaced the file. */
  predicate LosesLast(c: Codec, s: Core, io: TickIO) {
    var rs := Untag(Batch(s.queue, io.order));
    && io.openOk && io.late && s.counter + |rs| >= ROTATION_CHECK_INTERVAL
    && Replaces(Seen(c, s.disk, rs, io), io.rotateReadOk, io.fault)
  }

  function Boot(c: Codec, d: Disk, readOk: bool): Core {
    var loaded := if readOk then LoadedFrom(c, d) else [];
    Core(if loaded == [] then map[] else map[LEGACY := loaded], map[], 0, d)
  }

  // ----- The log -----

  /** Record number k of the batch ends up in the file as a whole. */
  predicate Lands(c: Codec, s: Core, io: TickIO, k: nat)
    requires k < |Batch(s.queue, io.order)|
  {
    && io.openOk && Complete(c, Batch(s.queue, io.order)[k].record, io.chars(k))
    && (k >= BeforeLastWrite(c, Untag(Batch(s.queue, io.order))) ==> !LosesLast(c, s, io))
  }

  function TickFates(c: Codec, s: Core, io: TickIO): (fs: seq<Fated>)
    ensures |fs| == |Batch(s.queue, io.order)|
  {
    var batch := Batch(s.queue, io.order);
    seq(|batch|, k requires 0 <= k < |batch| =>
      Fated(batch[k], if Lands(c, s, io, k) then Written else Lost))
  }

  function LogSend(log: Log, u: Update): Log {
    log.(sent := log.sent + [u])
  }

  function DiscardFates(es: seq<Entry>): seq<Fated> {
    seq(|es|, k requires 0 <= k < |es| => Fated(es[k], Discarded))
  }

  function LogUpdate(log: Log, s: Core, u: Update): Log {
    log.(
      received := log.received + [u],
      fates := log.fates + if u.RemoveConnection? then DiscardFates(Tag(u.conn, Lookup(s.queue, u.conn))) else [])
  }

  /** The records written so far by this process, in file order. */
  function WrittenOf(fs: seq<Fated>): seq<ToolCallRecord> {
    if fs == [] then [] else
    var f := fs[|fs| - 1];
    WrittenOf(fs[..|fs| - 1]) + if f.fate.Written? then [f.entry.record] else []
  }

  /** Every record ever completely written to the history file and not lost with a replaced one. */
  function EverWritten(log: Log): seq<ToolCallRecord> {
    log.prior + WrittenOf(log.fates)
  }

  // ----- Runs -----

  predicate Enabled(w: World, e: Event) {
    match e
    case Send(_) => true
    case Receive => w.channel != []
    case Tick(io) => IsOrder(io.order, w.core.queue.Keys)
    case Restart(_) => true
  }

  function Next(c: Codec, w: World, e: Event): World {
    if !Enabled(w, e) then w else
    match e
    case Send(u) => w.(channel := w.channel + [u], log := LogSend(w.log, u))
    case Receive =>
      World(w.channel[1..], ApplyUpdate(w.core, w.channel[0]), LogUpdate(w.log, w.core, w.channel[0]))
    case Tick(io) =>
      w.(core := TickCore(c, w.core, io), log := w.log.(fates := w.log.fates + TickFates(c, w.core, io)))
    case Restart(readOk) => Restarted(c, w, readOk)
  }

  /** The next process on the same files. */
  function Restarted(c: Codec, w: World, readOk: bool): World {
    var next := Started(c, w.core.disk, readOk, EverWritten(w.log));
    next.(log := next.log.(
      sent := w.log.sent, ended := w.log.ended + [Ended(w.log.fates, w.core.queue, w.channel)]))
  }

  /** A process that has just loaded its file and spawned its background task. */
  function Started(c: Codec, d: Disk, readOk: bool, prior: seq<ToolCallRecord>): World {
    World([], Boot(c, d, readOk), Log(prior, if readOk then LoadedFrom(c, d) else [], [], [], [], []))
  }

  /** Any interleaving: events that are not enabled when their turn comes leave the world as it is. */
  function Exec(c: Codec, w: World, es: seq<Event>): World {
    if es == [] then w else Next(c, Exec(c, w, es[..|es| - 1]), es[|es| - 1])
  }
}
