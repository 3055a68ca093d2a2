// What the two components know of the calls beyond their number: which succeeded, which tool each was of, and, in the
// history, the records themselves. The calls are followed by the events that start them.
module CallOutcomes {
  import opened Wrappers
  import opened Seqs
  import opened CallTracking
  import H = HistoryModel
  import HP = HistoryProofs
  import F = HistoryFile
  import U = UsageModel
  import UP = UsageProofs

  // ----- Calls by their events -----

  /** The event that started call number id; later ones of the same number have no effect. */
  function StartOf(es: seq<Event>, id: nat): (start: Option<Event>)
    ensures start.Some? ==> start.value.TrackHistory? && start.value.id == id
  {
    if es == [] then None else
    var before, e := StartOf(es[..|es| - 1], id), es[|es| - 1];
    if before.Some? then before else if e.TrackHistory? && e.id == id then Some(e) else None
  }

  /** The call has sent its usage event: after its start and without having been dropped before. */
  predicate HasReported(es: seq<Event>, id: nat) {
    es != [] &&
    var init, e := es[..|es| - 1], es[|es| - 1];
    HasReported(init, id) || (e == TrackUsage(id) && StartOf(init, id).Some? && !WasDropped(init, id))
  }

  predicate WasDropped(es: seq<Event>, id: nat) {
    es != [] &&
    var init, e := es[..|es| - 1], es[|es| - 1];
    WasDropped(init, id) || (e == DropCall(id) && StartOf(init, id).Some? && !HasReported(init, id))
  }

  /** The mark of a call is what its events say. */
  ghost predicate MarkFits(calls: map<nat, CallMark>, es: seq<Event>, id: nat) {
    && (id in calls <==> StartOf(es, id).Some?)
    && (id in calls ==>
          var start, mark := StartOf(es, id).value, calls[id];
          && start.TrackHistory? && mark.conn == start.conn && mark.tool == start.record.toolName && mark.ok == start.ok
          && (mark.usage.NotSent? <==> !HasReported(es, id))
          && (mark.dropped <==> WasDropped(es, id)))
    && (id !in calls ==> !HasReported(es, id) && !WasDropped(es, id))
  }

  /** What the last event says of a call. */
  lemma LastEvent(es: seq<Event>, id: nat)
    requires es != []
    ensures
      var init, e := es[..|es| - 1], es[|es| - 1];
      && StartOf(es, id) ==
           (if StartOf(init, id).None? && e.TrackHistory? && e.id == id then Some(e) else StartOf(init, id))
      && HasReported(es, id) ==
           (HasReported(init, id) || (e == TrackUsage(id) && StartOf(init, id).Some? && !WasDropped(init, id)))
      && WasDropped(es, id) ==
           (WasDropped(init, id) || (e == DropCall(id) && StartOf(init, id).Some? && !HasReported(init, id)))
  {}

  /** How one event changes the mark of a call, but for removals. */
  lemma MarkStep(x: Setup, s: System, e: Event, id: nat)
    ensures
      var after := Next(x, s, e).calls;
      && (id in after <==> id in s.calls || (e.TrackHistory? && e.id == id))
      && (id in after && id !in s.calls ==>
            after[id] == CallMark(e.conn, e.record.toolName, e.ok, Live, NotSent, false))
      && (id in s.calls ==>
            var mark := s.calls[id];
            && after[id].conn == mark.conn && after[id].tool == mark.tool && after[id].ok == mark.ok
            && (after[id].usage.NotSent? <==> mark.usage.NotSent? && !(e == TrackUsage(id) && !mark.dropped))
            && (after[id].dropped <==> mark.dropped || (e == DropCall(id) && mark.usage.NotSent?)))
  {}

  lemma {:induction false} MarksFollowEvents(x: Setup, s: System, es: seq<Event>, id: nat)
    requires s.calls == map[]
    ensures MarkFits(Exec(x, s, es).calls, es, id)
  {
    if es != [] {
      hide Next, StartOf, HasReported, WasDropped;
      MarksFollowEvents(x, s, es[..|es| - 1], id);
      LastEvent(es, id);
      MarkStep(x, Exec(x, s, es[..|es| - 1]), es[|es| - 1], id);
    }
  }

  // ----- Outcomes in the statistics -----

  /** A question about a call. */
  datatype Question = DidSucceed | DidFail | OfTool(tool: string)

  predicate Answers(u: StatsUpdate, q: Question)
    requires u.Success? || u.Failure?
  {
    match q
    case DidSucceed => u.Success?
    case DidFail => u.Failure?
    case OfTool(t) => u.tool == t
  }

  function AsSelector(q: Question): UP.Selector {
    match q
    case DidSucceed => UP.Succeeded
    case DidFail => UP.Failing
    case OfTool(t) => UP.OfTool(t)
  }

  predicate MarkAnswers(mark: CallMark, q: Question) {
    match q
    case DidSucceed => mark.ok
    case DidFail => !mark.ok
    case OfTool(t) => mark.tool == t
  }

  /** Usage events of a connection with this answer once the queued updates are applied, starting from n. */
  function Counted(n: nat, channel: seq<StatsUpdate>, conn: string, q: Question): nat {
    if channel == [] then n else
    var before, u := Counted(n, channel[..|channel| - 1], conn, q), channel[|channel| - 1];
    if u.SaveToDisk? || u.conn != conn then before
    else if u.RemoveConnection? then 0
    else before + if Answers(u, q) then 1 else 0
  }

  function Processed(x: Setup, s: System, conn: string, q: Question): nat {
    UP.CountCalls(UP.CallsSince(s.usageLog, conn), AsSelector(q), x.category)
  }

  function MarkedFor(calls: map<nat, CallMark>, conn: string, q: Question): set<nat> {
    set id | id in calls && calls[id].conn == conn && calls[id].usage.Live? && MarkAnswers(calls[id], q)
  }

  ghost predicate OutcomesAgree(x: Setup, s: System, conn: string, q: Question) {
    Counted(Processed(x, s, conn, q), s.usageChannel, conn, q) == |MarkedFor(s.calls, conn, q)|
  }

  lemma {:induction false} CountedPeel(n: nat, channel: seq<StatsUpdate>, conn: string, q: Question)
    requires channel != []
    ensures Counted(n, channel, conn, q) == Counted(Counted(n, channel[..1], conn, q), channel[1..], conn, q)
  {
    if |channel| == 1 {
      assert channel[..1] == channel;
    } else {
      var init := channel[..|channel| - 1];
      CountedPeel(n, init, conn, q);
      assert init[..1] == channel[..1];
      assert init[1..] == channel[1..][..|channel| - 2];
    }
  }

  lemma CountedSent(n: nat, channel: seq<StatsUpdate>, u: StatsUpdate, conn: string, q: Question)
    ensures Counted(n, channel + [u], conn, q) ==
      if u.SaveToDisk? || u.conn != conn then Counted(n, channel, conn, q)
      else if u.RemoveConnection? then 0
      else Counted(n, channel, conn, q) + if Answers(u, q) then 1 else 0
  {
    SnocParts(channel, u);
  }

  /** Processing one event counts what it counted in the channel. */
  lemma ProcessedNext(
    x: Setup, log: seq<U.Event>, u: StatsUpdate, clock: U.Clock, io: U.SaveIO, conn: string, q: Question)
    requires !UP.Stopped(log)
    ensures
      var event := CallTracking.Processed(u, clock, io);
      UP.CountCalls(UP.CallsSince(log + [event], conn), AsSelector(q), x.category) ==
        Counted(UP.CountCalls(UP.CallsSince(log, conn), AsSelector(q), x.category), [u], conn, q)
  {
    hide UP.CountCalls, UP.CallsSince, UP.Stopped, Counted;
    var event, calls := CallTracking.Processed(u, clock, io), UP.CallsSince(log, conn);
    var n := UP.CountCalls(calls, AsSelector(q), x.category);
    CallsNext(log, event, conn);
    if event.Tracked? {
      UP.CountSnoc(calls, event.call, AsSelector(q), x.category);
    }
    NoCalls(x, q);
    CountedOne(n, u, conn, q);
  }

  lemma CallsNext(log: seq<U.Event>, event: U.Event, conn: string)
    requires !UP.Stopped(log)
    ensures UP.CallsSince(log + [event], conn) ==
      if event.Tracked? && event.conn == conn then UP.CallsSince(log, conn) + [event.call]
      else if event.RemoveConnection? && event.conn == conn then []
      else UP.CallsSince(log, conn)
  {
    SnocParts(log, event);
  }

  lemma CountedOne(n: nat, u: StatsUpdate, conn: string, q: Question)
    ensures Counted(n, [u], conn, q) ==
      if u.SaveToDisk? || u.conn != conn then n
      else if u.RemoveConnection? then 0
      else n + if Answers(u, q) then 1 else 0
  {
    assert [u][..0] == [];
    assert Counted(n, [], conn, q) == n;
  }

  lemma ReceiveOutcomes(x: Setup, s: System, conn: string, clock: U.Clock, io: U.SaveIO, q: Question)
    requires s.usageChannel != [] && !UP.Stopped(s.usageLog) && OutcomesAgree(x, s, conn, q)
    ensures OutcomesAgree(x, Next(x, s, UsageReceive(clock, io)), conn, q)
  {
    CountedPeel(Processed(x, s, conn, q), s.usageChannel, conn, q);
    ProcessedNext(x, s.usageLog, s.usageChannel[0], clock, io, conn, q);
    assert s.usageChannel[..1] == [s.usageChannel[0]];
    hide UP.CountCalls, UP.CallsSince, Counted, MarkedFor, UP.Stopped;
  }

  lemma NoCalls(x: Setup, q: Question)
    ensures UP.CountCalls([], AsSelector(q), x.category) == 0
  {}

  lemma MarkLike(mark: CallMark, usage: Mark, q: Question)
    ensures MarkAnswers(mark.(usage := usage), q) == MarkAnswers(mark, q)
  {}

  lemma MarkReported(calls: map<nat, CallMark>, id: nat, conn: string, q: Question)
    requires id in calls && calls[id].usage.NotSent?
    ensures
      var after := calls[id := calls[id].(usage := Live)];
      |MarkedFor(after, conn, q)| ==
        |MarkedFor(calls, conn, q)| + if calls[id].conn == conn && MarkAnswers(calls[id], q) then 1 else 0
  {
    var before, after := MarkedFor(calls, conn, q), MarkedFor(calls[id := calls[id].(usage := Live)], conn, q);
    forall j ensures j in after <==> j in before || (j == id && calls[id].conn == conn && MarkAnswers(calls[id], q)) {
      if j == id {
        MarkLike(calls[id], Live, q);
      }
    }
    assert id !in before;
    hide MarkedFor, MarkAnswers;
    if calls[id].conn == conn && MarkAnswers(calls[id], q) {
      assert after == before + {id};
    } else {
      assert after == before;
    }
  }

  lemma MarksUnaffected(x: Setup, s: System, e: Event, conn: string, q: Question)
    requires Enabled(s, e) && !e.TrackUsage? && !(e.DeleteUsage? && e.conn == conn)
    ensures MarkedFor(Next(x, s, e).calls, conn, q) == MarkedFor(s.calls, conn, q)
  {}

  lemma MarksDeleted(x: Setup, s: System, e: Event, conn: string, q: Question)
    requires Enabled(s, e) && e.DeleteUsage? && e.conn == conn
    ensures MarkedFor(Next(x, s, e).calls, conn, q) == {}
  {}

  lemma OutcomesStep(x: Setup, s: System, e: Event, conn: string, q: Question)
    requires OutcomesAgree(x, s, conn, q) && !UP.Stopped(s.usageLog)
    ensures OutcomesAgree(x, Next(x, s, e), conn, q)
  {
    if Enabled(s, e) {
      var n := Processed(x, s, conn, q);
      hide Processed, Counted, MarkedFor;
      match e {
        case TrackUsage(id) =>
          var call := s.calls[id];
          MarkReported(s.calls, id, conn, q);
          CountedSent(n, s.usageChannel,
            if call.ok then Success(call.conn, call.tool) else Failure(call.conn, call.tool), conn, q);
          SameProcessed(x, s, Next(x, s, e), conn, q);
        case DeleteUsage(_, c) =>
          CountedSent(n, s.usageChannel, RemoveConnection(c), conn, q);
          SameProcessed(x, s, Next(x, s, e), conn, q);
          if c == conn {
            MarksDeleted(x, s, e, conn, q);
          } else {
            MarksUnaffected(x, s, e, conn, q);
          }
        case SaveTimer =>
          CountedSent(n, s.usageChannel, SaveToDisk, conn, q);
          SameProcessed(x, s, Next(x, s, e), conn, q);
          MarksUnaffected(x, s, e, conn, q);
        case UsageReceive(clock, io) => ReceiveOutcomes(x, s, conn, clock, io, q);
        case _ =>
          SameProcessed(x, s, Next(x, s, e), conn, q);
          MarksUnaffected(x, s, e, conn, q);
      }
    }
  }

  lemma SameProcessed(x: Setup, s: System, s': System, conn: string, q: Question)
    requires s'.usageLog == s.usageLog
    ensures Processed(x, s', conn, q) == Processed(x, s, conn, q)
  {}

  lemma {:induction false} RunOutcomes(
    x: Setup, d: F.Disk, readOk: bool, statsFile: Option<string>, es: seq<Event>, conn: string, q: Question)
    requires IsFresh(x, d, readOk, statsFile)
    ensures OutcomesAgree(x, Exec(x, Fresh(x, d, readOk, statsFile), es), conn, q)
  {
    if es == [] {
      assert MarkedFor(map[], conn, q) == {};
    } else {
      hide OutcomesAgree, Next;
      RunOutcomes(x, d, readOk, statsFile, es[..|es| - 1], conn, q);
      RunTracks(x, d, readOk, statsFile, es[..|es| - 1], conn);
      OutcomesStep(x, Exec(x, Fresh(x, d, readOk, statsFile), es[..|es| - 1]), es[|es| - 1], conn, q);
    }
  }

  /** What the statistics hold of a connection; nothing if it has none. */
  function SuccessfulCalls(s: System, conn: string): nat {
    if conn in s.usage.stats then s.usage.stats[conn].successfulCalls else 0
  }

  function FailedCalls(s: System, conn: string): nat {
    if conn in s.usage.stats then s.usage.stats[conn].failedCalls else 0
  }

  function CallsOf(s: System, conn: string, tool: string): nat {
    if conn in s.usage.stats && tool in s.usage.stats[conn].toolCounts
    then s.usage.stats[conn].toolCounts[tool] else 0
  }

  lemma StatsHold(x: Setup, s: System, conn: string, tool: string)
    requires UP.StatsDescribe(s.usage, map[], s.usageLog, x.category)
    ensures SuccessfulCalls(s, conn) == Processed(x, s, conn, DidSucceed)
    ensures FailedCalls(s, conn) == Processed(x, s, conn, DidFail)
    ensures CallsOf(s, conn, tool) == Processed(x, s, conn, OfTool(tool))
  {
    var calls := UP.CallsSince(s.usageLog, conn);
    UP.BaseIsLoaded(map[], s.usageLog, conn);
    assert UP.ConnectionDescribed(s.usage.stats, None, calls, x.category, conn);
    if conn in s.usage.stats {
      var st, b := s.usage.stats[conn], UP.Basis(None, calls);
      UP.BasisIs(None, calls);
      assert UP.ToolAdvanced(st, b, calls, x.category, tool);
    } else {
      NoCalls(x, DidSucceed);
      NoCalls(x, DidFail);
      NoCalls(x, OfTool(tool));
    }
    hide UP.CountCalls, UP.SumCounts;
  }

  /** Calls whose usage event counts: sent, and no removal of the connection's statistics since. */
  function Used(s: System, conn: string): set<nat> {
    InUsage(s.calls, conn)
  }

  /** What a call's start event says. */
  predicate StartAnswers(start: Option<Event>, q: Question) {
    start.Some? && start.value.TrackHistory? &&
    match q
    case DidSucceed => start.value.ok
    case DidFail => !start.value.ok
    case OfTool(t) => start.value.record.toolName == t
  }

  function UsedWith(s: System, es: seq<Event>, conn: string, q: Question): set<nat> {
    set id | id in Used(s, conn) && StartAnswers(StartOf(es, id), q)
  }

  ghost predicate MarksFit(s: System, es: seq<Event>) {
    forall id :: MarkFits(s.calls, es, id)
  }

  lemma UsedAreMarked(s: System, es: seq<Event>, conn: string, q: Question)
    requires MarksFit(s, es)
    ensures UsedWith(s, es, conn, q) == MarkedFor(s.calls, conn, q)
  {
    forall id ensures id in UsedWith(s, es, conn, q) <==> id in MarkedFor(s.calls, conn, q) {
      assert MarkFits(s.calls, es, id);
      hide StartOf, HasReported, WasDropped, MarksFit;
    }
  }

  /** The used calls of a connection, by their events, as long as it is not deleted. */
  ghost predicate UsedAreReported(s: System, es: seq<Event>, conn: string) {
    forall id ::
      id in Used(s, conn) <==> StartOf(es, id).Some? && StartOf(es, id).value.conn == conn && HasReported(es, id)
  }

  lemma UsedWithoutDeletion(s: System, es: seq<Event>, conn: string)
    requires Untouched(s, conn) && MarksFit(s, es)
    ensures UsedAreReported(s, es, conn)
  {
    forall id ensures
      id in Used(s, conn) <==> StartOf(es, id).Some? && StartOf(es, id).value.conn == conn && HasReported(es, id)
    {
      assert MarkFits(s.calls, es, id);
      hide StartOf, HasReported, WasDropped, MarksFit;
    }
  }

  /** Outcomes arrive as they were: in every run, deletions and dropped calls included, once the usage channel is
      drained the successful, the failed and each tool's calls in the statistics are as many as the used calls whose start
      event said so; and without a deletion the used calls are all that sent their usage event. */
  lemma OutcomesAreCounted(
    x: Setup, d: F.Disk, readOk: bool, statsFile: Option<string>, es: seq<Event>, conn: string, tool: string)
    requires IsFresh(x, d, readOk, statsFile)
    requires Exec(x, Fresh(x, d, readOk, statsFile), es).usageChannel == []
    ensures
      var s := Exec(x, Fresh(x, d, readOk, statsFile), es);
      && SuccessfulCalls(s, conn) == |UsedWith(s, es, conn, DidSucceed)|
      && FailedCalls(s, conn) == |UsedWith(s, es, conn, DidFail)|
      && CallsOf(s, conn, tool) == |UsedWith(s, es, conn, OfTool(tool))|
      && (NoDeletion(es, conn) ==> UsedAreReported(s, es, conn))
  {
    var s0 := Fresh(x, d, readOk, statsFile);
    var s := Exec(x, s0, es);
    forall id ensures MarkFits(s.calls, es, id) {
      MarksFollowEvents(x, s0, es, id);
    }
    assert MarksFit(s, es);
    hide Exec, Processed, MarkFits, MarksFit, UsedWith, UsedAreReported, MarkedFor, Fresh;
    RunTracks(x, d, readOk, statsFile, es, conn);
    OutcomesDrained(x, d, readOk, statsFile, es, conn, DidSucceed);
    OutcomesDrained(x, d, readOk, statsFile, es, conn, DidFail);
    OutcomesDrained(x, d, readOk, statsFile, es, conn, OfTool(tool));
    StatsHold(x, s, conn, tool);
    UsedAreMarked(s, es, conn, DidSucceed);
    UsedAreMarked(s, es, conn, DidFail);
    UsedAreMarked(s, es, conn, OfTool(tool));
    if NoDeletion(es, conn) {
      NothingUntouched(x, d, readOk, statsFile, es, conn);
      UsedWithoutDeletion(s, es, conn);
    }
  }

  lemma OutcomesDrained(
    x: Setup, d: F.Disk, readOk: bool, statsFile: Option<string>, es: seq<Event>, conn: string, q: Question)
    requires IsFresh(x, d, readOk, statsFile)
    requires Exec(x, Fresh(x, d, readOk, statsFile), es).usageChannel == []
    ensures
      var s := Exec(x, Fresh(x, d, readOk, statsFile), es);
      Processed(x, s, conn, q) == |MarkedFor(s.calls, conn, q)|
  {
    hide Exec, Processed, MarkedFor, Fresh;
    RunOutcomes(x, d, readOk, statsFile, es, conn, q);
  }

  lemma NothingUntouched(
    x: Setup, d: F.Disk, readOk: bool, statsFile: Option<string>, es: seq<Event>, conn: string)
    requires NoDeletion(es, conn)
    ensures Untouched(Exec(x, Fresh(x, d, readOk, statsFile), es), conn)
  {
    NothingRemoved(x, Fresh(x, d, readOk, statsFile), es, conn);
  }

  // ----- Records in the history -----

  /** The records of the calls started for a connection, in order. */
  function StartedRecords(es: seq<Event>, conn: string): seq<F.ToolCallRecord> {
    if es == [] then [] else
    var init, e := es[..|es| - 1], es[|es| - 1];
    StartedRecords(init, conn) +
      if e.TrackHistory? && e.conn == conn && StartOf(init, e.id).None? then [e.record] else []
  }

  /** What the history of a connection is once the queued updates are applied. */
  function HistoryToBe(s: System, conn: string): seq<F.ToolCallRecord> {
    HP.Since(if conn == H.LEGACY then s.history.log.loaded else [], s.history.log.received + s.history.channel, conn)
  }

  lemma RecordsStep(x: Setup, s: System, e: Event, conn: string)
    requires Untouched(s, conn)
    ensures HistoryToBe(Next(x, s, e), conn) ==
      HistoryToBe(s, conn) + if e.TrackHistory? && e.conn == conn && e.id !in s.calls then [e.record] else []
  {
    var w, base := s.history, if conn == H.LEGACY then s.history.log.loaded else [];
    AppendNothing(HistoryToBe(s, conn));
    if Enabled(s, e) {
      match e {
        case TrackHistory(_, c, r, _) => SentRecords(base, w.log.received, w.channel, H.AddCall(c, r), conn);
        case DeleteHistory(h) =>
          SentRecords(base, w.log.received, w.channel, H.RemoveConnection(s.deletes[h]), conn);
        case HistoryReceive =>
          assert w.log.received + [w.channel[0]] + w.channel[1..] == w.log.received + w.channel;
        case _ =>
      }
    }
    hide HP.Since;
  }

  lemma SentRecords(
    base: seq<F.ToolCallRecord>, received: seq<H.Update>, channel: seq<H.Update>, u: H.Update, conn: string)
    ensures HP.Since(base, received + (channel + [u]), conn) ==
      var before := HP.Since(base, received + channel, conn);
      if u.conn != conn then before else if u.AddCall? then before + [u.record] else []
  {
    Assoc(received, channel, [u]);
    HP.SinceSnoc(base, received + channel, u, conn);
  }

  lemma {:induction false} RunRecords(
    x: Setup, d: F.Disk, readOk: bool, statsFile: Option<string>, es: seq<Event>, conn: string)
    requires IsFresh(x, d, readOk, statsFile) && NoDeletion(es, conn)
    ensures HistoryToBe(Exec(x, Fresh(x, d, readOk, statsFile), es), conn) == StartedRecords(es, conn)
  {
    if es != [] {
      var s0, init := Fresh(x, d, readOk, statsFile), es[..|es| - 1];
      assert NoDeletion(init, conn);
      RunRecords(x, d, readOk, statsFile, init, conn);
      NothingRemoved(x, s0, init, conn);
      if es[|es| - 1].TrackHistory? {
        MarksFollowEvents(x, s0, init, es[|es| - 1].id);
      }
      RecordsStep(x, Exec(x, s0, init), es[|es| - 1], conn);
      hide Next, HistoryToBe, Untouched;
    }
  }

  /** Records arrive as they were: in every run without a deletion of the connection, once the history channel is
      drained its deque is the last 1000 records of the calls started for it, in order. */
  lemma RecordsAreKept(
    x: Setup, d: F.Disk, readOk: bool, statsFile: Option<string>, es: seq<Event>, conn: string)
    requires IsFresh(x, d, readOk, statsFile) && NoDeletion(es, conn)
    requires Exec(x, Fresh(x, d, readOk, statsFile), es).history.channel == []
    ensures H.Lookup(Exec(x, Fresh(x, d, readOk, statsFile), es).history.core.entries, conn)
         == Last(StartedRecords(es, conn), 1000)
  {
    RunRecords(x, d, readOk, statsFile, es, conn);
    RunTracks(x, d, readOk, statsFile, es, conn);
    hide Exec;
    var s := Exec(x, Fresh(x, d, readOk, statsFile), es);
    AppendNothing(s.history.log.received);
    assert H.Lookup(s.history.core.entries, conn) == Last(HP.SinceOf(s.history.log, conn), F.MAX_HISTORY_ENTRIES);
  }

  // ----- Each component runs as it does alone -----

  /** What the calls and deletions of the coupled system are to the history component. */
  function HistoryEvents(x: Setup, s: System, es: seq<Event>): seq<H.Event> {
    if es == [] then [] else
    var init, e := es[..|es| - 1], es[|es| - 1];
    var before := Exec(x, s, init);
    HistoryEvents(x, s, init) +
      match e
      case TrackHistory(id, conn, record, _) => if id in before.calls then [] else [H.Send(H.AddCall(conn, record))]
      case DeleteHistory(h) => if h in before.deletes then [H.Send(H.RemoveConnection(before.deletes[h]))] else []
      case HistoryReceive => [H.Receive]
      case HistoryTick(io) => [H.Tick(io)]
      case _ => []
  }

  /** What they send to the usage component. */
  function UsageSends(x: Setup, s: System, es: seq<Event>): seq<StatsUpdate> {
    if es == [] then [] else
    var init, e := es[..|es| - 1], es[|es| - 1];
    var before := Exec(x, s, init);
    UsageSends(x, s, init) +
      match e
      case TrackUsage(id) =>
        if id in before.calls && before.calls[id].usage.NotSent? && !before.calls[id].dropped then
          [if before.calls[id].ok then Success(before.calls[id].conn, before.calls[id].tool)
           else Failure(before.calls[id].conn, before.calls[id].tool)]
        else []
      case DeleteUsage(h, conn) => if h in before.deletes then [] else [RemoveConnection(conn)]
      case SaveTimer => [SaveToDisk]
      case _ => []
  }

  /** An event of the usage component came from this update. */
  predicate CameFrom(e: U.Event, u: StatsUpdate) {
    match u
    case Success(conn, tool) => e.Tracked? && e.conn == conn && e.call.tool == tool && e.call.ok
    case Failure(conn, tool) => e.Tracked? && e.conn == conn && e.call.tool == tool && !e.call.ok
    case RemoveConnection(conn) => e.RemoveConnection? && e.conn == conn
    case SaveToDisk => e.SaveToDisk?
  }

  /** What has been processed came, in order, from what was sent first; the rest is in the channel. */
  ghost predicate InOrder(log: seq<U.Event>, channel: seq<StatsUpdate>, sent: seq<StatsUpdate>) {
    && |log| <= |sent| && channel == sent[|log|..]
    && forall k :: 0 <= k < |log| ==> CameFrom(log[k], sent[k])
  }

  lemma UsageStep(x: Setup, s: System, es: seq<Event>, e: Event)
    requires InOrder(Exec(x, s, es).usageLog, Exec(x, s, es).usageChannel, UsageSends(x, s, es))
    ensures InOrder(Exec(x, s, es + [e]).usageLog, Exec(x, s, es + [e]).usageChannel, UsageSends(x, s, es + [e]))
  {
    SnocParts(es, e);
    AppendNothing(UsageSends(x, s, es));
  }

  lemma HistoryStep(x: Setup, s: System, es: seq<Event>, e: Event)
    requires Exec(x, s, es).history == H.Exec(x.codec, s.history, HistoryEvents(x, s, es))
    ensures Exec(x, s, es + [e]).history == H.Exec(x.codec, s.history, HistoryEvents(x, s, es + [e]))
  {
    SnocParts(es, e);
    var events := HistoryEvents(x, s, es);
    var more := HistoryEvents(x, s, es + [e])[|events|..];
    assert HistoryEvents(x, s, es + [e]) == events + more && |more| <= 1;
    if |more| == 1 {
      assert more == [more[0]];
      SnocParts(events, more[0]);
    } else {
      AppendNothing(events);
    }
    hide H.Next, H.Exec;
    if e.HistoryReceive? && Exec(x, s, es).history.channel == [] {
      NothingToReceive(x, Exec(x, s, es).history);
    }
  }

  lemma NothingToReceive(x: Setup, w: H.World)
    requires w.channel == []
    ensures H.Next(x.codec, w, H.Receive) == w
  {}

  /** The history is where its own machine gets to on the run's sends, receipts and flushes, and the statistics where
      theirs gets to on the updates sent, in the order of sending. */
  ghost predicate RunsComponents(x: Setup, s0: System, es: seq<Event>) {
    var s := Exec(x, s0, es);
    && s.history == H.Exec(x.codec, s0.history, HistoryEvents(x, s0, es))
    && s.usage == U.Exec(s0.usage, x.statsCodec, x.category, s.usageLog)
    && InOrder(s.usageLog, s.usageChannel, UsageSends(x, s0, es))
  }

  lemma ComponentsStep(x: Setup, s: System, es: seq<Event>, e: Event)
    requires RunsComponents(x, s, es)
    ensures RunsComponents(x, s, es + [e])
  {
    hide Exec, HistoryEvents, UsageSends, InOrder, H.Exec, U.Exec;
    HistoryStep(x, s, es, e);
    UsageStep(x, s, es, e);
    UsageRuns(x, s, es, e);
  }

  lemma ComponentsStart(x: Setup, d: F.Disk, readOk: bool, statsFile: Option<string>)
    ensures RunsComponents(x, Fresh(x, d, readOk, statsFile), [])
  {}

  /** The coupled system runs both components: in every run the history is in the state that its own machine reaches on
      the sends, receipts and flushes of the run, and the statistics are in the state that theirs reaches on the updates
      sent, in the order of sending. So everything proved of either alone holds in the coupled system. */
  lemma {:induction false} ComponentsRun(
    x: Setup, d: F.Disk, readOk: bool, statsFile: Option<string>, es: seq<Event>)
    ensures RunsComponents(x, Fresh(x, d, readOk, statsFile), es)
  {
    hide RunsComponents, Fresh;
    if es == [] {
      ComponentsStart(x, d, readOk, statsFile);
    } else {
      var init, e := es[..|es| - 1], es[|es| - 1];
      ComponentsRun(x, d, readOk, statsFile, init);
      ComponentsStep(x, Fresh(x, d, readOk, statsFile), init, e);
      assert es == init + [e];
    }
  }

  lemma UsageRuns(x: Setup, s: System, es: seq<Event>, e: Event)
    requires Exec(x, s, es).usage == U.Exec(s.usage, x.statsCodec, x.category, Exec(x, s, es).usageLog)
    ensures Exec(x, s, es + [e]).usage == U.Exec(s.usage, x.statsCodec, x.category, Exec(x, s, es + [e]).usageLog)
  {
    SnocParts(es, e);
    var before, after := Exec(x, s, es), Exec(x, s, es + [e]);
    if after.usageLog != before.usageLog {
      SnocParts(before.usageLog, after.usageLog[|before.usageLog|]);
    }
    hide U.Handle;
  }
}
