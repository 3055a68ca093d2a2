// The usage-statistics processor: a channel-fed fold over per-connection statistics, saved by temp file and rename.
module UsageModel {
  import opened Wrappers

  const SESSION_TIMEOUT_SECS: int := 1800

  /** The categories the counters distinguish; Other stands for every category no counter exists for. */
  datatype Category = Filesystem | Terminal | Introspection | Config | Prompt | Process | Other

  datatype UsageStats = UsageStats(
    filesystemOperations: nat, terminalOperations: nat, editOperations: nat,
    searchOperations: nat, configOperations: nat, processOperations: nat,
    totalToolCalls: nat, successfulCalls: nat, failedCalls: nat,
    toolCounts: map<string, nat>,
    firstUsed: int, lastUsed: int, totalSessions: nat)

  type Stats = map<string, UsageStats>

  /** The clock reads of one event, in program order: by the default of a missing entry, for `now`, and by the session
      check. */
  datatype Clock = Clock(created: int, now: int, check: int)

  datatype Call = Call(tool: string, ok: bool, clock: Clock)

  /** How far a save gets: whether the snapshot serializes and the directory exists, then which calls succeed. */
  datatype SaveIO = SaveIO(prepared: bool, writeOk: bool, partialText: string, renameOk: bool)

  datatype Event =
    | Tracked(conn: string, call: Call)
    | RemoveConnection(conn: string)
    | SaveToDisk(io: SaveIO)
    | Shutdown(io: SaveIO)

  /** The serializer pair for whole snapshots. */
  datatype StatsCodec = StatsCodec(enc: Stats -> Option<string>, dec: string -> Option<Stats>)

  ghost predicate Faithful(c: StatsCodec) {
    forall s :: c.enc(s).Some? ==> c.dec(c.enc(s).value) == Some(s)
  }

  datatype Processor = Processor(stats: Stats, file: Option<string>, temp: Option<string>, running: bool)

  function Default(now: int): UsageStats {
    UsageStats(0, 0, 0, 0, 0, 0, 0, 0, 0, map[], now, now, 1)
  }

  /** Introspection, configuration and prompt tools share one counter. No category has the edit or search counter. */
  const CONFIG_CATEGORIES: set<Category> := {Introspection, Config, Prompt}
  const COUNTED_CATEGORIES: set<Category> := {Filesystem, Terminal, Introspection, Config, Prompt, Process}

  predicate IsIn(category: Option<Category>, categories: set<Category>) {
    category.Some? && category.value in categories
  }

  function CountCategory(s: UsageStats, category: Option<Category>): UsageStats {
    s.(filesystemOperations := s.filesystemOperations + if IsIn(category, {Filesystem}) then 1 else 0,
       terminalOperations := s.terminalOperations + if IsIn(category, {Terminal}) then 1 else 0,
       configOperations := s.configOperations + if IsIn(category, CONFIG_CATEGORIES) then 1 else 0,
       processOperations := s.processOperations + if IsIn(category, {Process}) then 1 else 0)
  }

  function CategorySum(s: UsageStats): nat {
    s.filesystemOperations + s.terminalOperations + s.editOperations
    + s.searchOperations + s.configOperations + s.processOperations
  }

  predicate IsNewSession(lastUsed: int, now: int) {
    now - lastUsed > SESSION_TIMEOUT_SECS
  }

  function ToolCount(s: UsageStats, tool: string): nat {
    if tool in s.toolCounts then s.toolCounts[tool] else 0
  }

  function Bump(s: UsageStats, call: Call, category: string -> Option<Category>): UsageStats {
    var bumped := s.(
      totalSessions := s.totalSessions + if IsNewSession(s.lastUsed, call.clock.check) then 1 else 0,
      totalToolCalls := s.totalToolCalls + 1,
      successfulCalls := s.successfulCalls + if call.ok then 1 else 0,
      failedCalls := s.failedCalls + if call.ok then 0 else 1,
      lastUsed := call.clock.now,
      toolCounts := s.toolCounts[call.tool := ToolCount(s, call.tool) + 1]);
    CountCategory(bumped, category(call.tool))
  }

  function Track(stats: Stats, conn: string, call: Call, category: string -> Option<Category>): Stats {
    var s := if conn in stats then stats[conn] else Default(call.clock.created);
    stats[conn := Bump(s, call, category)]
  }

  /** The files after a save attempt. */
  function Saved(p: Processor, c: StatsCodec, io: SaveIO): Processor {
    var text := c.enc(p.stats);
    if text.None? || !io.prepared then p
    else if !io.writeOk then p.(temp := Some(io.partialText))
    else if io.renameOk then p.(file := text, temp := None)
    else p.(temp := None)
  }

  predicate SaveSucceeds(p: Processor, c: StatsCodec, io: SaveIO) {
    c.enc(p.stats).Some? && io.prepared && io.writeOk && io.renameOk
  }

  function Handle(p: Processor, c: StatsCodec, category: string -> Option<Category>, e: Event): Processor {
    if !p.running then p else
    match e
    case Tracked(conn, call) => p.(stats := Track(p.stats, conn, call, category))
    case RemoveConnection(conn) => p.(stats := p.stats - {conn})
    case SaveToDisk(io) => Saved(p, c, io)
    case Shutdown(io) => Saved(p, c, io).(running := false)
  }

  function Exec(p: Processor, c: StatsCodec, category: string -> Option<Category>, es: seq<Event>): Processor {
    if es == [] then p else Handle(Exec(p, c, category, es[..|es| - 1]), c, category, es[|es| - 1])
  }

  /** What a new tracker starts from: the decoded file, or nothing when it is missing, unreadable or not decodable. */
  function LoadStats(c: StatsCodec, file: Option<string>, readOk: bool): Stats {
    if file.None? || !readOk || c.dec(file.value).None? then map[] else c.dec(file.value).value
  }

  function Boot(c: StatsCodec, file: Option<string>, temp: Option<string>, readOk: bool): Processor {
    Processor(LoadStats(c, file, readOk), file, temp, true)
  }
}
