// The usage tracker as the program has it: a map of statistics whose entries the background task updates in place.
module UsageTracker {
  import opened Wrappers
  import opened UsageModel
  import opened UsageProofs

  class UsageTracker {
    const codec: StatsCodec
    const category: string -> Option<Category>
    var statsByConnection: Stats
    var file: Option<string>
    var temp: Option<string>
    var running: bool

    ghost function State(): Processor
      reads this
    {
      Processor(statsByConnection, file, temp, running)
    }

    constructor (
      codec: StatsCodec, category: string -> Option<Category>, file: Option<string>, temp: Option<string>, readOk: bool)
      ensures this.codec == codec && this.category == category
      ensures State() == Boot(codec, file, temp, readOk)
    {
      this.codec, this.category, this.file, this.temp, this.running := codec, category, file, temp, true;
      var loaded: Stats := map[];
      if file.Some? && readOk {
        var parsed := codec.dec(file.value);
        if parsed.Some? {
          loaded := parsed.value;
        }
      }
      this.statsByConnection := loaded;
    }

    /** The category part of an event: exactly one counter rises, by one, if the tool's category is a counted one, and
        none otherwise; nothing else changes. */
    method CountInCategory(before: UsageStats, category: Option<Category>) returns (stats: UsageStats)
      ensures CategorySum(stats) == CategorySum(before) + if category.None? || category == Some(Other) then 0 else 1
      ensures stats.filesystemOperations > before.filesystemOperations <==> category == Some(Filesystem)
      ensures stats.terminalOperations > before.terminalOperations <==> category == Some(Terminal)
      ensures stats.configOperations > before.configOperations <==>
        category == Some(Introspection) || category == Some(Config) || category == Some(Prompt)
      ensures stats.processOperations > before.processOperations <==> category == Some(Process)
      ensures stats == CountCategory(before, category)
      ensures stats == before.(
        filesystemOperations := stats.filesystemOperations, terminalOperations := stats.terminalOperations,
        configOperations := stats.configOperations, processOperations := stats.processOperations)
    {
      stats := before;
      match category {
        case Some(Filesystem) => stats := stats.(filesystemOperations := stats.filesystemOperations + 1);
        case Some(Terminal) => stats := stats.(terminalOperations := stats.terminalOperations + 1);
        case Some(Introspection) => stats := stats.(configOperations := stats.configOperations + 1);
        case Some(Config) => stats := stats.(configOperations := stats.configOperations + 1);
        case Some(Prompt) => stats := stats.(configOperations := stats.configOperations + 1);
        case Some(Process) => stats := stats.(processOperations := stats.processOperations + 1);
        case _ =>
      }
    }

    /** One success or failure event. */
    method TrackCall(connectionId: string, call: Call)
      modifies this`statsByConnection
      ensures statsByConnection == Track(old(statsByConnection), connectionId, call, category)
    {
      var stats := if connectionId in statsByConnection then statsByConnection[connectionId]
                   else Default(call.clock.created);
      if IsNewSession(stats.lastUsed, call.clock.check) {
        stats := stats.(totalSessions := stats.totalSessions + 1);
      }
      stats := stats.(totalToolCalls := stats.totalToolCalls + 1);
      if call.ok {
        stats := stats.(successfulCalls := stats.successfulCalls + 1);
      } else {
        stats := stats.(failedCalls := stats.failedCalls + 1);
      }
      stats := stats.(lastUsed := call.clock.now);
      stats := stats.(toolCounts := stats.toolCounts[call.tool := ToolCount(stats, call.tool) + 1]);
      stats := CountInCategory(stats, category(call.tool));
      statsByConnection := statsByConnection[connectionId := stats];
    }

    /** Write the snapshot to the temp file, then rename it over the statistics file. */
    method Save(io: SaveIO)
      modifies this`file, this`temp
      ensures State() == Saved(old(State()), codec, io)
      ensures file == old(file) || file == codec.enc(statsByConnection)
    {
      var json := codec.enc(statsByConnection);
      if json.None? || !io.prepared {
        return;
      }
      if !io.writeOk {
        temp := Some(io.partialText);
        return;
      }
      temp := json;
      if io.renameOk {
        file := temp;
      }
      temp := None;
    }

    /** The background loop over the events taken from the channel; it leaves the loop on shutdown. */
    method RunBackground(events: seq<Event>, ghost loaded: Stats, ghost past: seq<Event>)
      requires StatsDescribe(State(), loaded, past, category)
      modifies this
      ensures State() == Exec(old(State()), codec, category, events)
      ensures StatsDescribe(State(), loaded, past + events, category)
    {
      assert past + [] == past;
      for i := 0 to |events|
        invariant State() == Exec(old(State()), codec, category, events[..i])
        invariant StatsDescribe(State(), loaded, past + events[..i], category)
      {
        hide StatsDescribe;
        assert events[..i + 1][..i] == events[..i];
        assert (past + events[..i + 1])[..|past| + i] == past + events[..i];
        DescribeStep(State(), codec, category, loaded, past + events[..i + 1]);
        if running {
          match events[i] {
            case Tracked(connectionId, call) => TrackCall(connectionId, call);
            case RemoveConnection(connectionId) => statsByConnection := statsByConnection - {connectionId};
            case SaveToDisk(io) => Save(io);
            case Shutdown(io) => Save(io); running := false;
          }
        }
      }
      assert events[..|events|] == events;
    }
  }
}
