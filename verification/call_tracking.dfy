// One tool call feeds two channels, the history first and the statistics second, and a connection's deletion feeds them
// in the opposite order. This is the system of both components with every interleaving of calls, deletions, dropped
// calls and the two background tasks.
module CallTracking {
  import opened Wrappers
  import opened Seqs
  import H = HistoryModel
  import HP = HistoryProofs
  import F = HistoryFile
  import U = UsageModel
  import UP = UsageProofs

  datatype StatsUpdate =
    | Success(conn: string, tool: string)
    | Failure(conn: string, tool: string)
    | RemoveConnection(conn: string)
    | SaveToDisk

  /** Where one of a call's two messages stands: not sent, sent and not yet followed by a removal of its connection in
      the same channel, or followed by one. */
  datatype Mark = NotSent | Live | Removed

  datatype CallMark = CallMark(conn: string, tool: string, ok: bool, history: Mark, usage: Mark, dropped: bool)

  /** `usageLog` is what the statistics task has processed; `calls` and `deletes` follow the callers: every call that has
      sent its history record, and every deletion that has sent its first removal but not its second. */
  datatype System = System(
    history: H.World,
    usageChannel: seq<StatsUpdate>,
    usage: U.Processor,
    usageLog: seq<U.Event>,
    calls: map<nat, CallMark>,
    deletes: map<nat, string>)

  datatype Setup = Setup(codec: F.Codec, statsCodec: U.StatsCodec, category: string -> Option<U.Category>)

  datatype Event =
    | TrackHistory(id: nat, conn: string, record: F.ToolCallRecord, ok: bool)
    | TrackUsage(id: nat)
    | DropCall(id: nat)
    | DeleteUsage(handler: nat, conn: string)
    | DeleteHistory(handler: nat)
    | HistoryReceive
    | HistoryTick(io: H.TickIO)
    | SaveTimer
    | UsageReceive(clock: U.Clock, saveIO: U.SaveIO)

  predicate Enabled(s: System, e: Event) {
    match e
    case TrackHistory(id, _, _, _) => id !in s.calls
    case TrackUsage(id) => id in s.calls && s.calls[id].usage.NotSent? && !s.calls[id].dropped
    case DropCall(id) => id in s.calls && s.calls[id].usage.NotSent?
    case DeleteUsage(d, _) => d !in s.deletes
    case DeleteHistory(d) => d in s.deletes
    case HistoryReceive => s.history.channel != []
    case HistoryTick(io) => H.Enabled(s.history, H.Tick(io))
    case SaveTimer => true
    case UsageReceive(_, _) => s.usageChannel != []
  }

  function Processed(u: StatsUpdate, clock: U.Clock, io: U.SaveIO): U.Event {
    match u
    case Success(conn, tool) => U.Tracked(conn, U.Call(tool, true, clock))
    case Failure(conn, tool) => U.Tracked(conn, U.Call(tool, false, clock))
    case RemoveConnection(conn) => U.RemoveConnection(conn)
    case SaveToDisk => U.SaveToDisk(io)
  }

  function UnmarkHistory(calls: map<nat, CallMark>, conn: string): map<nat, CallMark> {
    map id | id in calls :: if calls[id].conn == conn then calls[id].(history := Removed) else calls[id]
  }

  function UnmarkUsage(calls: map<nat, CallMark>, conn: string): map<nat, CallMark> {
    map id | id in calls ::
      if calls[id].conn == conn && calls[id].usage.Live? then calls[id].(usage := Removed) else calls[id]
  }

  function Next(x: Setup, s: System, e: Event): System {
    if !Enabled(s, e) then s else
    match e
    case TrackHistory(id, conn, record, ok) =>
      s.(history := H.Next(x.codec, s.history, H.Send(H.AddCall(conn, record))),
         calls := s.calls[id := CallMark(conn, record.toolName, ok, Live, NotSent, false)])
    case TrackUsage(id) =>
      var call := s.calls[id];
      s.(usageChannel := s.usageChannel +
           [if call.ok then Success(call.conn, call.tool) else Failure(call.conn, call.tool)],
         calls := s.calls[id := call.(usage := Live)])
    case DropCall(id) => s.(calls := s.calls[id := s.calls[id].(dropped := true)])
    case DeleteUsage(d, conn) =>
      s.(usageChannel := s.usageChannel + [RemoveConnection(conn)],
         calls := UnmarkUsage(s.calls, conn), deletes := s.deletes[d := conn])
    case DeleteHistory(d) =>
      s.(history := H.Next(x.codec, s.history, H.Send(H.RemoveConnection(s.deletes[d]))),
         calls := UnmarkHistory(s.calls, s.deletes[d]), deletes := s.deletes - {d})
    case HistoryReceive => s.(history := H.Next(x.codec, s.history, H.Receive))
    case HistoryTick(io) => s.(history := H.Next(x.codec, s.history, H.Tick(io)))
    case SaveTimer => s.(usageChannel := s.usageChannel + [SaveToDisk])
    case UsageReceive(clock, io) =>
      var event := Processed(s.usageChannel[0], clock, io);
      s.(usageChannel := s.usageChannel[1..], usageLog := s.usageLog + [event],
         usage := U.Handle(s.usage, x.statsCodec, x.category, event))
  }

  function Exec(x: Setup, s: System, es: seq<Event>): System {
    if es == [] then s else Next(x, Exec(x, s, es[..|es| - 1]), es[|es| - 1])
  }

  /** Both components freshly started on the given files. */
  function Fresh(x: Setup, d: F.Disk, readOk: bool, statsFile: Option<string>): System {
    System(H.Started(x.codec, d, readOk, []), [], U.Boot(x.statsCodec, statsFile, None, true), [], map[], map[])
  }

  ghost predicate IsFresh(x: Setup, d: F.Disk, readOk: bool, statsFile: Option<string>) {
    && (readOk ==> F.LoadedFrom(x.codec, d) == [])
    && U.LoadStats(x.statsCodec, statsFile, true) == map[]
  }

  // ----- Counting -----

  /** History records of a connection once the queued updates are applied, starting from n applied ones. */
  function HistoryCount(n: nat, channel: seq<H.Update>, conn: string): nat {
    if channel == [] then n else
    var before, u := HistoryCount(n, channel[..|channel| - 1], conn), channel[|channel| - 1];
    if u.conn != conn then before else if u.AddCall? then before + 1 else 0
  }

  /** Usage events of a connection once the queued updates are applied, starting from n applied ones. */
  function UsageCount(n: nat, channel: seq<StatsUpdate>, conn: string): nat {
    if channel == [] then n else
    var before, u := UsageCount(n, channel[..|channel| - 1], conn), channel[|channel| - 1];
    if u.SaveToDisk? || u.conn != conn then before else if u.RemoveConnection? then 0 else before + 1
  }

  function AllHistory(s: System, conn: string): nat {
    HistoryCount(|HP.SinceOf(s.history.log, conn)|, s.history.channel, conn)
  }

  function AllUsage(s: System, conn: string): nat {
    UsageCount(|UP.CallsSince(s.usageLog, conn)|, s.usageChannel, conn)
  }

  function InHistory(calls: map<nat, CallMark>, conn: string): set<nat> {
    set id | id in calls && calls[id].conn == conn && calls[id].history.Live?
  }

  function InUsage(calls: map<nat, CallMark>, conn: string): set<nat> {
    set id | id in calls && calls[id].conn == conn && calls[id].usage.Live?
  }

  /** Calls between their two sends, or dropped there. */
  function Unsent(calls: map<nat, CallMark>, conn: string): set<nat> {
    set id | id in calls && calls[id].conn == conn && calls[id].usage.NotSent?
  }

  /** Calls whose history record a deletion removed and whose usage event came after its other removal: the time between
      the call's two sends overlaps the time between the deletion's two. */
  function Straddling(calls: map<nat, CallMark>, conn: string): set<nat> {
    set id | id in calls && calls[id].conn == conn && calls[id].usage.Live? && calls[id].history.Removed?
  }

  lemma {:induction false} HistoryCountPeel(n: nat, channel: seq<H.Update>, conn: string)
    requires channel != []
    ensures HistoryCount(n, channel, conn) == HistoryCount(HistoryCount(n, channel[..1], conn), channel[1..], conn)
  {
    if |channel| == 1 {
      assert channel[..1] == channel;
    } else {
      var init := channel[..|channel| - 1];
      HistoryCountPeel(n, init, conn);
      assert init[..1] == channel[..1];
      assert init[1..] == channel[1..][..|channel| - 2];
    }
  }

  lemma {:induction false} UsageCountPeel(n: nat, channel: seq<StatsUpdate>, conn: string)
    requires channel != []
    ensures UsageCount(n, channel, conn) == UsageCount(UsageCount(n, channel[..1], conn), channel[1..], conn)
  {
    if |channel| == 1 {
      assert channel[..1] == channel;
    } else {
      var init := channel[..|channel| - 1];
      UsageCountPeel(n, init, conn);
      assert init[..1] == channel[..1];
      assert init[1..] == channel[1..][..|channel| - 2];
    }
  }

  // ----- The counts follow the marks -----

  ghost predicate CountsAgree(s: System, conn: string) {
    && AllHistory(s, conn) == |InHistory(s.calls, conn)|
    && AllUsage(s, conn) == |InUsage(s.calls, conn)|
  }

  /** A live history record whose usage event was removed belongs to a deletion still in progress. */
  ghost predicate DeletionPending(s: System, conn: string) {
    forall id :: id in s.calls && s.calls[id].conn == conn && s.calls[id].history.Live? && s.calls[id].usage.Removed? ==>
      conn in s.deletes.Values
  }

  lemma ReceivedCount(log: H.Log, core: H.Core, channel: seq<H.Update>, conn: string)
    requires channel != []
    ensures HistoryCount(|HP.SinceOf(H.LogUpdate(log, core, channel[0]), conn)|, channel[1..], conn)
         == HistoryCount(|HP.SinceOf(log, conn)|, channel, conn)
  {
    var n, u := |HP.SinceOf(log, conn)|, channel[0];
    HistoryCountPeel(n, channel, conn);
    HP.SinceSnoc(if conn == H.LEGACY then log.loaded else [], log.received, u, conn);
    assert channel[..1] == [u];
    SnocParts([], u);
    assert HistoryCount(n, [u], conn) == |HP.SinceOf(H.LogUpdate(log, core, u), conn)|;
  }

  lemma HistoryReceiveCounts(x: Setup, s: System, conn: string)
    requires s.history.channel != []
    ensures AllHistory(Next(x, s, HistoryReceive), conn) == AllHistory(s, conn)
  {
    ReceivedCount(s.history.log, s.history.core, s.history.channel, conn);
  }

  lemma UsageReceiveCounts(x: Setup, s: System, conn: string, clock: U.Clock, io: U.SaveIO)
    requires s.usageChannel != [] && !UP.Stopped(s.usageLog)
    ensures AllUsage(Next(x, s, UsageReceive(clock, io)), conn) == AllUsage(s, conn)
    ensures !UP.Stopped(Next(x, s, UsageReceive(clock, io)).usageLog)
  {
    var channel, event := s.usageChannel, Processed(s.usageChannel[0], clock, io);
    var n := |UP.CallsSince(s.usageLog, conn)|;
    UsageCountPeel(n, channel, conn);
    SnocParts(s.usageLog, event);
    UP.StoppedSnoc(s.usageLog + [event]);
    assert channel[..1] == [channel[0]];
    assert UsageCount(n, [], conn) == n;
  }

  lemma MarkStarted(calls: map<nat, CallMark>, id: nat, mark: CallMark, conn: string)
    requires id !in calls && mark.history.Live? && mark.usage.NotSent?
    ensures |InHistory(calls[id := mark], conn)| == |InHistory(calls, conn)| + if mark.conn == conn then 1 else 0
    ensures InUsage(calls[id := mark], conn) == InUsage(calls, conn)
  {
    var before, after := InHistory(calls, conn), InHistory(calls[id := mark], conn);
    if mark.conn == conn {
      assert after == before + {id};
    } else {
      assert after == before;
    }
  }

  lemma MarkUsed(calls: map<nat, CallMark>, id: nat, conn: string)
    requires id in calls && calls[id].usage.NotSent?
    ensures
      var after := calls[id := calls[id].(usage := Live)];
      && InHistory(after, conn) == InHistory(calls, conn)
      && |InUsage(after, conn)| == |InUsage(calls, conn)| + if calls[id].conn == conn then 1 else 0
  {
    var after := calls[id := calls[id].(usage := Live)];
    if calls[id].conn == conn {
      assert InUsage(after, conn) == InUsage(calls, conn) + {id};
    } else {
      assert InUsage(after, conn) == InUsage(calls, conn);
    }
  }

  lemma MarkDropped(calls: map<nat, CallMark>, id: nat, conn: string)
    requires id in calls
    ensures
      var after := calls[id := calls[id].(dropped := true)];
      InHistory(after, conn) == InHistory(calls, conn) && InUsage(after, conn) == InUsage(calls, conn)
  {}

  lemma MarkDeleted(calls: map<nat, CallMark>, c: string, conn: string)
    ensures InHistory(UnmarkHistory(calls, c), conn) == if c == conn then {} else InHistory(calls, conn)
    ensures InUsage(UnmarkHistory(calls, c), conn) == InUsage(calls, conn)
    ensures InHistory(UnmarkUsage(calls, c), conn) == InHistory(calls, conn)
    ensures InUsage(UnmarkUsage(calls, c), conn) == if c == conn then {} else InUsage(calls, conn)
  {}

  lemma HistorySent(n: nat, channel: seq<H.Update>, u: H.Update, conn: string)
    ensures HistoryCount(n, channel + [u], conn) ==
      if u.conn != conn then HistoryCount(n, channel, conn)
      else if u.AddCall? then HistoryCount(n, channel, conn) + 1 else 0
  {
    SnocParts(channel, u);
  }

  lemma UsageSent(n: nat, channel: seq<StatsUpdate>, u: StatsUpdate, conn: string)
    ensures UsageCount(n, channel + [u], conn) ==
      if u.SaveToDisk? || u.conn != conn then UsageCount(n, channel, conn)
      else if u.RemoveConnection? then 0 else UsageCount(n, channel, conn) + 1
  {
    SnocParts(channel, u);
  }

  lemma SendCounts(x: Setup, s: System, e: Event, conn: string)
    requires Enabled(s, e) && CountsAgree(s, conn)
    requires e.TrackHistory? || e.TrackUsage? || e.DropCall? || e.DeleteUsage? || e.DeleteHistory? || e.SaveTimer?
    ensures CountsAgree(Next(x, s, e), conn)
  {
    hide HistoryCount, UsageCount, InHistory, InUsage;
    var n, m := |HP.SinceOf(s.history.log, conn)|, |UP.CallsSince(s.usageLog, conn)|;
    match e {
      case TrackHistory(id, c, record, ok) =>
        HistorySent(n, s.history.channel, H.AddCall(c, record), conn);
        MarkStarted(s.calls, id, CallMark(c, record.toolName, ok, Live, NotSent, false), conn);
      case TrackUsage(id) =>
        var call := s.calls[id];
        UsageSent(m, s.usageChannel,
          if call.ok then Success(call.conn, call.tool) else Failure(call.conn, call.tool), conn);
        MarkUsed(s.calls, id, conn);
      case DropCall(id) => MarkDropped(s.calls, id, conn);
      case DeleteUsage(_, c) =>
        UsageSent(m, s.usageChannel, RemoveConnection(c), conn);
        MarkDeleted(s.calls, c, conn);
      case DeleteHistory(d) =>
        HistorySent(n, s.history.channel, H.RemoveConnection(s.deletes[d]), conn);
        MarkDeleted(s.calls, s.deletes[d], conn);
      case SaveTimer => UsageSent(m, s.usageChannel, SaveToDisk, conn);
    }
  }

  lemma PendingStep(x: Setup, s: System, e: Event, conn: string)
    requires DeletionPending(s, conn)
    ensures DeletionPending(Next(x, s, e), conn)
  {
    var s' := Next(x, s, e);
    forall id | id in s'.calls && s'.calls[id].conn == conn && s'.calls[id].history.Live? && s'.calls[id].usage.Removed?
      ensures conn in s'.deletes.Values
    {
      if Enabled(s, e) && e.DeleteUsage? && e.conn == conn {
        assert s'.deletes[e.handler] == conn;
      } else {
        assert id in s.calls && s.calls[id].history.Live? && s.calls[id].usage.Removed?;
        var d :| d in s.deletes && s.deletes[d] == conn;
        assert d in s'.deletes && s'.deletes[d] == conn;
      }
    }
  }

  ghost predicate Tracks(x: Setup, s: System, conn: string) {
    && CountsAgree(s, conn)
    && DeletionPending(s, conn)
    && HP.CacheRefines(s.history)
    && UP.StatsDescribe(s.usage, map[], s.usageLog, x.category)
    && !UP.Stopped(s.usageLog)
  }

  lemma TracksStep(x: Setup, s: System, e: Event, conn: string)
    requires Tracks(x, s, conn)
    ensures Tracks(x, Next(x, s, e), conn)
  {
    if Enabled(s, e) {
      PendingStep(x, s, e, conn);
      match e {
        case HistoryReceive =>
          HP.CacheStep(x.codec, s.history, H.Receive);
          HistoryReceiveCounts(x, s, conn);
        case HistoryTick(io) => HP.CacheStep(x.codec, s.history, H.Tick(io));
        case UsageReceive(clock, io) =>
          var log := s.usageLog + [Processed(s.usageChannel[0], clock, io)];
          SnocParts(s.usageLog, log[|s.usageLog|]);
          UP.DescribeStep(s.usage, x.statsCodec, x.category, map[], log);
          UsageReceiveCounts(x, s, conn, clock, io);
        case _ =>
          SendCounts(x, s, e, conn);
      }
    }
  }

  lemma FreshTracks(x: Setup, d: F.Disk, readOk: bool, statsFile: Option<string>, conn: string)
    requires IsFresh(x, d, readOk, statsFile)
    ensures Tracks(x, Fresh(x, d, readOk, statsFile), conn)
  {
    var s := Fresh(x, d, readOk, statsFile);
    HP.StartedCache(x.codec, d, readOk, []);
    UP.StatisticsAreAFold(x.statsCodec, x.category, statsFile, None, true, []);
    assert InHistory(s.calls, conn) == {} && InUsage(s.calls, conn) == {};
  }

  lemma {:induction false} RunTracks(
    x: Setup, d: F.Disk, readOk: bool, statsFile: Option<string>, es: seq<Event>, conn: string)
    requires IsFresh(x, d, readOk, statsFile)
    ensures Tracks(x, Exec(x, Fresh(x, d, readOk, statsFile), es), conn)
  {
    if es == [] {
      FreshTracks(x, d, readOk, statsFile, conn);
    } else {
      RunTracks(x, d, readOk, statsFile, es[..|es| - 1], conn);
      TracksStep(x, Exec(x, Fresh(x, d, readOk, statsFile), es[..|es| - 1]), es[|es| - 1], conn);
    }
  }

  // ----- Agreement -----

  function TotalCalls(s: System, conn: string): nat {
    if conn in s.usage.stats then s.usage.stats[conn].totalToolCalls else 0
  }

  function HistoryLength(s: System, conn: string): nat {
    |H.Lookup(s.history.core.entries, conn)|
  }

  /** Both channels are drained and no deletion of the connection is half-way. */
  predicate Quiescent(s: System, conn: string) {
    && s.history.channel == [] && s.usageChannel == []
    && conn !in s.deletes.Values
  }

  lemma AppliedCounts(x: Setup, s: System, conn: string)
    requires Tracks(x, s, conn) && s.history.channel == [] && s.usageChannel == []
    ensures TotalCalls(s, conn) == |InUsage(s.calls, conn)|
    ensures HistoryLength(s, conn) == Min(F.MAX_HISTORY_ENTRIES, |InHistory(s.calls, conn)|)
  {
    UP.BaseIsLoaded(map[], s.usageLog, conn);
    assert UP.ConnectionDescribed(s.usage.stats, None, UP.CallsSince(s.usageLog, conn), x.category, conn);
    assert H.Lookup(s.history.core.entries, conn) == Last(HP.SinceOf(s.history.log, conn), F.MAX_HISTORY_ENTRIES);
  }

  /** Calls whose history record is kept and whose usage event never came. */
  function KeptUnsent(calls: map<nat, CallMark>, conn: string): set<nat> {
    set id | id in calls && calls[id].conn == conn && calls[id].usage.NotSent? && calls[id].history.Live?
  }

  /** The two components' calls differ by exactly the straddling and the unsent ones. */
  lemma MarksBalance(s: System, conn: string)
    requires DeletionPending(s, conn) && AllMarked(s.calls) && conn !in s.deletes.Values
    ensures |InUsage(s.calls, conn)| + |KeptUnsent(s.calls, conn)|
         == |InHistory(s.calls, conn)| + |Straddling(s.calls, conn)|
  {
    var kept, used := InHistory(s.calls, conn), InUsage(s.calls, conn);
    var straddling, unsent := Straddling(s.calls, conn), KeptUnsent(s.calls, conn);
    forall id ensures id in used + unsent <==> id in kept + straddling {
      assert id in s.calls ==> !s.calls[id].history.NotSent?;
      assert id in kept ==> !s.calls[id].usage.Removed?;
    }
    assert used + unsent == kept + straddling;
    assert used !! unsent && kept !! straddling;
    assert |used + unsent| == |used| + |unsent| && |kept + straddling| == |kept| + |straddling|;
  }

  /** Cross-component agreement, exactly: in every run, deletions and dropped calls included, once both channels are
      drained and no deletion of the connection is half-way, its statistics and its kept history differ by the calls that
      straddle a deletion (counted, not kept) and the calls that never sent their usage event (kept, not counted). So
      the two components agree if and only if these are equally many, or at least 1000 calls count on either side. */
  lemma AgreementExactly(
    x: Setup, d: F.Disk, readOk: bool, statsFile: Option<string>, es: seq<Event>, conn: string)
    requires IsFresh(x, d, readOk, statsFile)
    requires Quiescent(Exec(x, Fresh(x, d, readOk, statsFile), es), conn)
    ensures
      var s := Exec(x, Fresh(x, d, readOk, statsFile), es);
      var straddling, unsent := |Straddling(s.calls, conn)|, |KeptUnsent(s.calls, conn)|;
      && TotalCalls(s, conn) + unsent == |HP.SinceOf(s.history.log, conn)| + straddling
      && ((HistoryLength(s, conn) == Min(F.MAX_HISTORY_ENTRIES, TotalCalls(s, conn)))
            <==> (straddling == unsent ||
                  (|InHistory(s.calls, conn)| >= F.MAX_HISTORY_ENTRIES
                    && |InUsage(s.calls, conn)| >= F.MAX_HISTORY_ENTRIES)))
  {
    RunTracks(x, d, readOk, statsFile, es, conn);
    HistoryMarked(x, Fresh(x, d, readOk, statsFile), es);
    var s := Exec(x, Fresh(x, d, readOk, statsFile), es);
    AppliedCounts(x, s, conn);
    MarksBalance(s, conn);
  }

  ghost predicate AllMarked(calls: map<nat, CallMark>) {
    forall id :: id in calls ==> !calls[id].history.NotSent?
  }

  /** Every started call has its history mark set. */
  lemma {:induction false} HistoryMarked(x: Setup, s: System, es: seq<Event>)
    requires AllMarked(s.calls)
    ensures AllMarked(Exec(x, s, es).calls)
  {
    if es != [] {
      HistoryMarked(x, s, es[..|es| - 1]);
      var before, after := Exec(x, s, es[..|es| - 1]).calls, Exec(x, s, es).calls;
      forall id | id in after ensures !after[id].history.NotSent? {
        assert id in before ==> !before[id].history.NotSent?;
      }
    }
  }

  ghost predicate NoDeletion(es: seq<Event>, conn: string) {
    forall k :: 0 <= k < |es| && es[k].DeleteUsage? ==> es[k].conn != conn
  }

  ghost predicate Untouched(s: System, conn: string) {
    && (forall id :: id in s.calls && s.calls[id].conn == conn ==>
          s.calls[id].history.Live? && !s.calls[id].usage.Removed?)
    && (forall d :: d in s.deletes ==> s.deletes[d] != conn)
  }

  lemma UntouchedStep(x: Setup, s: System, e: Event, conn: string)
    requires Untouched(s, conn) && !(e.DeleteUsage? && e.conn == conn)
    ensures Untouched(Next(x, s, e), conn)
  {
    var after := Next(x, s, e);
    forall id | id in after.calls && after.calls[id].conn == conn
      ensures after.calls[id].history.Live? && !after.calls[id].usage.Removed?
    {
      assert id in s.calls && s.calls[id].conn == conn ==>
        s.calls[id].history.Live? && !s.calls[id].usage.Removed?;
    }
  }

  lemma {:induction false} NothingRemoved(x: Setup, s: System, es: seq<Event>, conn: string)
    requires Untouched(s, conn) && NoDeletion(es, conn)
    ensures Untouched(Exec(x, s, es), conn)
  {
    if es != [] {
      hide Untouched, Next;
      assert NoDeletion(es[..|es| - 1], conn);
      NothingRemoved(x, s, es[..|es| - 1], conn);
      UntouchedStep(x, Exec(x, s, es[..|es| - 1]), es[|es| - 1], conn);
    }
  }

  /** Without a deletion of the connection the components never drift: at every point of every run the history records
      (applied and queued) are the usage events (applied and queued) plus the calls between their two sends or dropped
      there; and once both channels drain with no such call, the deque holds min(1000, total_tool_calls) records. */
  lemma AgreementWithoutDeletion(
    x: Setup, d: F.Disk, readOk: bool, statsFile: Option<string>, es: seq<Event>, conn: string)
    requires IsFresh(x, d, readOk, statsFile) && NoDeletion(es, conn)
    ensures
      var s := Exec(x, Fresh(x, d, readOk, statsFile), es);
      && AllHistory(s, conn) == AllUsage(s, conn) + |Unsent(s.calls, conn)|
      && (s.history.channel == [] && s.usageChannel == [] && Unsent(s.calls, conn) == {} ==>
            HistoryLength(s, conn) == Min(F.MAX_HISTORY_ENTRIES, TotalCalls(s, conn)))
  {
    RunTracks(x, d, readOk, statsFile, es, conn);
    NothingRemoved(x, Fresh(x, d, readOk, statsFile), es, conn);
    var s := Exec(x, Fresh(x, d, readOk, statsFile), es);
    forall id ensures id in InHistory(s.calls, conn) <==> id in InUsage(s.calls, conn) + Unsent(s.calls, conn) {
      assert id in s.calls && s.calls[id].conn == conn ==>
        s.calls[id].history.Live? && !s.calls[id].usage.Removed?;
    }
    assert InHistory(s.calls, conn) == InUsage(s.calls, conn) + Unsent(s.calls, conn);
    if s.history.channel == [] && s.usageChannel == [] {
      AppliedCounts(x, s, conn);
    }
  }

  /** A run in which the components disagree: the deletion's two removals fall between the two sends of one call. */
  function StraddlingRun(r: F.ToolCallRecord, clock: U.Clock, saveIO: U.SaveIO): seq<Event> {
    [TrackHistory(0, "c", r, true), DeleteUsage(0, "c"), DeleteHistory(0), TrackUsage(0),
     HistoryReceive, HistoryReceive, UsageReceive(clock, saveIO), UsageReceive(clock, saveIO)]
  }

  lemma ExecNext(x: Setup, s: System, es: seq<Event>, k: nat)
    requires k < |es|
    ensures Exec(x, s, es[..k + 1]) == Next(x, Exec(x, s, es[..k]), es[k])
  {
    assert es[..k + 1][..k] == es[..k];
  }

  lemma StraddlingSent(x: Setup, s0: System, r: F.ToolCallRecord, clock: U.Clock, saveIO: U.SaveIO)
    requires s0 == Fresh(x, F.EMPTY_DISK, true, None)
    ensures
      var s := Exec(x, s0, StraddlingRun(r, clock, saveIO)[..4]);
      && s.calls == map[0 := CallMark("c", r.toolName, true, Removed, Live, false)] && s.deletes == map[]
      && |s.history.channel| == 2 && |s.usageChannel| == 2
  {
    hide Exec;
    var es := StraddlingRun(r, clock, saveIO);
    assert es[..0] == [];
    assert Exec(x, s0, []) == s0 by { ExecNothing(x, s0); }
    ExecNext(x, s0, es, 0);
    ExecNext(x, s0, es, 1);
    var s2 := Exec(x, s0, es[..2]);
    assert s2.calls == map[0 := CallMark("c", r.toolName, true, Live, NotSent, false)];
    assert s2.deletes == map[0 := "c"] && |s2.history.channel| == 1 && |s2.usageChannel| == 1;
    ExecNext(x, s0, es, 2);
    ExecNext(x, s0, es, 3);
  }

  lemma ExecNothing(x: Setup, s: System)
    ensures Exec(x, s, []) == s
  {}

  /** Draining changes neither the callers nor anything but the drained channel's length. */
  lemma DrainFrames(x: Setup, s: System, e: Event)
    requires e.HistoryReceive? || e.UsageReceive?
    ensures
      var s' := Next(x, s, e);
      && s'.calls == s.calls && s'.deletes == s.deletes
      && |s'.history.channel| == |s.history.channel| - (if e.HistoryReceive? && s.history.channel != [] then 1 else 0)
      && |s'.usageChannel| == |s.usageChannel| - (if e.UsageReceive? && s.usageChannel != [] then 1 else 0)
  {}

  lemma StraddlingCallDisagrees(x: Setup, r: F.ToolCallRecord, clock: U.Clock, saveIO: U.SaveIO)
    ensures
      var s := Exec(x, Fresh(x, F.EMPTY_DISK, true, None), StraddlingRun(r, clock, saveIO));
      Quiescent(s, "c") && TotalCalls(s, "c") == 1 && HistoryLength(s, "c") == 0
  {
    var s0, es := Fresh(x, F.EMPTY_DISK, true, None), StraddlingRun(r, clock, saveIO);
    StraddlingSent(x, s0, r, clock, saveIO);
    for k := 4 to 8
      invariant Exec(x, s0, es[..k]).calls == Exec(x, s0, es[..4]).calls
      invariant Exec(x, s0, es[..k]).deletes == map[]
      invariant |Exec(x, s0, es[..k]).history.channel| == if k < 6 then 6 - k else 0
      invariant |Exec(x, s0, es[..k]).usageChannel| == if k < 6 then 2 else 8 - k
    {
      ExecNext(x, s0, es, k);
      DrainFrames(x, Exec(x, s0, es[..k]), es[k]);
    }
    assert es[..8] == es;
    var s := Exec(x, s0, es);
    RunTracks(x, F.EMPTY_DISK, true, None, es, "c");
    AppliedCounts(x, s, "c");
    assert InUsage(s.calls, "c") == {0} && InHistory(s.calls, "c") == {};
  }
}
