// The history manager as the program has it: one object whose maps, counter and file its background task updates in
// place. Every method is specified by the machine of HistoryModel, so all its runs have the properties proved there.
module ToolHistory {
  import opened Wrappers
  import opened Seqs
  import opened Lines
  import opened HistoryFile
  import opened HistoryModel
  import opened HistoryProofs

  lemma BatchNext(queue: map<string, seq<ToolCallRecord>>, order: seq<string>, i: nat)
    requires i < |order|
    ensures Untag(Batch(queue, order[..i + 1])) == Untag(Batch(queue, order[..i])) + Lookup(queue, order[i])
  {
    assert order[..i + 1][..i] == order[..i];
    assert Batch(queue, order[..i + 1]) == Batch(queue, order[..i]) + Tag(order[i], Lookup(queue, order[i]));
  }

  lemma OrderNamesKeys(order: seq<string>, keys: set<string>)
    requires IsOrder(order, keys)
    ensures forall j :: 0 <= j < |order| ==> order[j] in keys
    ensures forall k :: k in keys ==> k in order
  {
    assert forall j :: 0 <= j < |order| ==> order[j] in (set k | k in order);
    assert forall k :: k in keys ==> k in (set k | k in order);
  }

  lemma AllTaken(
    before: map<string, seq<ToolCallRecord>>, after: map<string, seq<ToolCallRecord>>, order: seq<string>)
    requires IsOrder(order, before.Keys) && after.Keys == before.Keys
    requires forall j :: 0 <= j < |order| ==> order[j] in before && after[order[j]] == []
    ensures after == map k | k in before :: []
  {
    OrderNamesKeys(order, before.Keys);
  }

  method EmptyQueues(queues: map<string, seq<ToolCallRecord>>, order: seq<string>)
    returns (all: seq<ToolCallRecord>, emptied: map<string, seq<ToolCallRecord>>)
    requires IsOrder(order, queues.Keys)
    ensures all == Untag(Batch(queues, order))
    ensures emptied == map k | k in queues :: []
  {
    all, emptied := [], queues;
    OrderNamesKeys(order, queues.Keys);
    for i := 0 to |order|
      invariant all == Untag(Batch(queues, order[..i]))
      invariant emptied.Keys == queues.Keys
      invariant forall j :: 0 <= j < i ==> emptied[order[j]] == []
      invariant forall j :: i <= j < |order| ==> emptied[order[j]] == queues[order[j]]
    {
      BatchNext(queues, order, i);
      hide Batch, Untag;
      all := all + emptied[order[i]];
      emptied := emptied[order[i] := []];
    }
    assert order[..|order|] == order;
    AllTaken(queues, emptied, order);
  }

  lemma WriteNext(c: Codec, d: Disk, rs: seq<ToolCallRecord>, i: nat, chars: nat -> nat, inside: nat -> bool)
    requires i < |rs|
    ensures
      var written, next := AppendedTo(c, d, rs[..i], chars, inside), AppendedTo(c, d, rs[..i + 1], chars, inside);
      && next.file == Some(Text(written) + Piece(c, rs[i], chars(i)))
      && next.readable == (written.readable && !StopsInside(c, rs[i], chars(i), inside(i)))
      && next.temp == written.temp
  {
    assert rs[..i + 1][..i] == rs[..i];
    assert forall k :: 0 <= k < i ==> rs[..i + 1][k] == rs[..i][k];
    hide StopsInside, Piece;
  }

  class ToolHistory {
    const codec: Codec
    var entriesByConnection: map<string, seq<ToolCallRecord>>
    var writeQueue: map<string, seq<ToolCallRecord>>
    var writesSinceCheck: nat
    var disk: Disk
    var updates: seq<Update>
    ghost var log: Log

    ghost function State(): World
      reads this
    {
      World(updates, Core(entriesByConnection, writeQueue, writesSinceCheck, disk), log)
    }

    constructor (codec: Codec, disk: Disk, readOk: bool, ghost prior: seq<ToolCallRecord>)
      ensures this.codec == codec
      ensures State() == Started(codec, disk, readOk, prior)
    {
      this.codec, this.disk, this.updates := codec, disk, [];
      this.writeQueue, this.writesSinceCheck := map[], 0;
      var entries := LoadFromDisk(codec, disk, readOk);
      this.entriesByConnection := if entries != [] then map[LEGACY := entries] else map[];
      this.log := Log(prior, entries, [], [], [], []);
    }

    method SendUpdate(u: Update)
      modifies this
      ensures State() == Next(codec, old(State()), Send(u))
    {
      log := LogSend(log, u);
      updates := updates + [u];
    }

    /** Take one update from the channel and apply it. */
    method ReceiveUpdate()
      requires updates != []
      modifies this
      ensures State() == Next(codec, old(State()), Receive)
    {
      var update := updates[0];
      updates := updates[1..];
      log := LogUpdate(log, Core(entriesByConnection, writeQueue, writesSinceCheck, disk), update);
      match update {
        case AddCall(connectionId, record) =>
          var entries := Lookup(entriesByConnection, connectionId);
          entries := entries + [record];
          if |entries| > MAX_HISTORY_ENTRIES {
            entries := entries[1..];
          }
          entriesByConnection := entriesByConnection[connectionId := entries];
          writeQueue := writeQueue[connectionId := Lookup(writeQueue, connectionId) + [record]];
        case RemoveConnection(connectionId) =>
          entriesByConnection := entriesByConnection - {connectionId};
          writeQueue := writeQueue - {connectionId};
      }
    }

    /** Empty every queue in the given order. */
    method TakeAllQueued(order: seq<string>) returns (all: seq<ToolCallRecord>)
      requires IsOrder(order, writeQueue.Keys)
      modifies this`writeQueue
      ensures all == Untag(Batch(old(writeQueue), order))
      ensures writeQueue == map k | k in old(writeQueue) :: []
    {
      var emptied;
      all, emptied := EmptyQueues(writeQueue, order);
      writeQueue := emptied;
    }

    /** The writes of records number `from` to `to` of a batch, on a file that was `before` without the batch. */
    method AppendToFile(
      records: seq<ToolCallRecord>, from: nat, to: nat, chars: nat -> nat, inside: nat -> bool, ghost before: Disk)
      requires from <= to <= |records|
      requires disk == AppendedTo(codec, before, records[..from], chars, inside)
      modifies this`disk
      ensures disk == AppendedTo(codec, before, records[..to], chars, inside)
    {
      for i := from to to
        invariant disk == AppendedTo(codec, before, records[..i], chars, inside)
      {
        WriteNext(codec, before, records, i, chars, inside);
        hide AppendedTo, Piece, StopsInside;
        disk := disk.(
          file := Some(Text(disk) + Piece(codec, records[i], chars(i))),
          readable := disk.readable && !StopsInside(codec, records[i], chars(i), inside(i)));
      }
    }

    /** Reading the file for the rotation check and, if it is too long, rotating it. */
    method CheckRotation(io: TickIO) returns (replaced: bool)
      modifies this`disk
      ensures disk == Rotated(old(disk), io.rotateReadOk, io.fault)
      ensures replaced == Replaces(old(disk), io.rotateReadOk, io.fault)
      ensures !replaced && old(disk.file.Some?) ==> disk.file == old(disk.file) && disk.readable == old(disk.readable)
    {
      if disk.file.Some? {
        RotationCrashAtomic(disk, io.rotateReadOk, io.fault);
        if |Split(disk.file.value)| > MAX_DISK_ENTRIES {
          RotationEnds(disk.file.value);
        }
      }
      hide Rotated, RotationOps, Split, Frame;
      var long := disk.file.Some? && |Split(disk.file.value)| > MAX_DISK_ENTRIES;
      var rotated, ok := RotateIfNeeded(disk, io.rotateReadOk, io.fault);
      replaced := long && ok;
      disk := rotated;
    }

    /** The periodic flush. A write in flight lands in the file that was opened, which is the history file unless the
        rotation has replaced it. */
    method FlushTick(io: TickIO)
      requires IsOrder(io.order, writeQueue.Keys)
      modifies this
      ensures State() == Next(codec, old(State()), Tick(io))
    {
      ghost var core := Core(entriesByConnection, writeQueue, writesSinceCheck, disk);
      log := log.(fates := log.fates + TickFates(codec, core, io));
      var records := TakeAllQueued(io.order);
      if records == [] || !io.openOk {
        return;
      }
      writesSinceCheck := writesSinceCheck + |records|;
      var shouldRotate := writesSinceCheck >= ROTATION_CHECK_INTERVAL;
      if shouldRotate {
        writesSinceCheck := 0;
      }
      WriteAndCheck(records, shouldRotate, io);
    }

    /** The write loop on the opened file, then the rotation check. */
    method WriteAndCheck(records: seq<ToolCallRecord>, shouldRotate: bool, io: TickIO)
      modifies this`disk
      ensures disk ==
        if shouldRotate then Checked(codec, old(disk), records, io)
        else AppendedTo(codec, old(disk), records, io.chars, io.inside)
    {
      hide Rotated, Split, Frame;
      ghost var before := disk;
      disk := disk.(file := Some(Text(disk)));
      var landed := if shouldRotate && io.late then BeforeLastWrite(codec, records) else |records|;
      assert records[..0] == [] && records[..|records|] == records;
      AppendToFile(records, 0, landed, io.chars, io.inside, before);
      if shouldRotate {
        assert disk == Seen(codec, before, records, io);
        var replaced := CheckRotation(io);
        if !replaced {
          AppendToFile(records, landed, |records|, io.chars, io.inside, before.(temp := disk.temp));
        }
      }
    }

    /** The background loop against a schedule of arrivals and ready arms. The caches it leaves behind refine the log. */
    method RunBackground(schedule: seq<Event>)
      requires forall k :: 0 <= k < |schedule| ==> !schedule[k].Restart?
      requires CacheRefines(State()) && Conserved(State())
      modifies this
      ensures State() == Exec(codec, old(State()), schedule)
      ensures CacheRefines(State()) && Conserved(State())
    {
      for i := 0 to |schedule|
        invariant State() == Exec(codec, old(State()), schedule[..i])
        invariant CacheRefines(State()) && Conserved(State())
      {
        assert schedule[..i + 1][..i] == schedule[..i];
        CacheStep(codec, State(), schedule[i]);
        ConservedStep(codec, State(), schedule[i]);
        match schedule[i] {
          case Send(u) => SendUpdate(u);
          case Receive => if updates != [] { ReceiveUpdate(); }
          case Tick(io) => if IsOrder(io.order, writeQueue.Keys) { FlushTick(io); }
          case Restart(_) => assert false;
        }
      }
      assert schedule[..|schedule|] == schedule;
    }

    method GetHistoryForConnection(connectionId: string) returns (history: Option<seq<ToolCallRecord>>)
      requires CacheRefines(State())
      ensures history == var all := SinceOf(log, connectionId);
        if all == [] then None else Some(Last(all, 1000))
    {
      if connectionId in entriesByConnection {
        assert Lookup(entriesByConnection, connectionId) == Last(SinceOf(log, connectionId), MAX_HISTORY_ENTRIES);
        history := Some(entriesByConnection[connectionId]);
      } else {
        history := None;
      }
    }
  }
}
