// What every run of the usage-statistics processor guarantees.
module UsageProofs {
  import opened Wrappers
  import opened Seqs
  import opened UsageModel

  type Categories = string -> Option<Category>

  // ----- The statistics describe the calls -----

  /** A question that can be asked of a call. */
  datatype Selector = Succeeded | Failing | OfTool(tool: string) | In(categories: set<Category>)

  predicate Matches(call: Call, s: Selector, category: Categories) {
    match s
    case Succeeded => call.ok
    case Failing => !call.ok
    case OfTool(t) => call.tool == t
    case In(cs) => category(call.tool).Some? && category(call.tool).value in cs
  }

  function CountCalls(calls: seq<Call>, s: Selector, category: Categories): (n: nat)
    ensures n <= |calls|
  {
    if calls == [] then 0 else
    CountCalls(calls[..|calls| - 1], s, category) + if Matches(calls[|calls| - 1], s, category) then 1 else 0
  }

  predicate Stopped(es: seq<Event>) {
    exists k :: 0 <= k < |es| && es[k].Shutdown?
  }

  /** The calls of a connection since its last removal, as far as the processor ran. */
  function CallsSince(es: seq<Event>, conn: string): seq<Call> {
    if es == [] then [] else
    var before, e := CallsSince(es[..|es| - 1], conn), es[|es| - 1];
    if Stopped(es[..|es| - 1]) then before
    else if e.Tracked? && e.conn == conn then before + [e.call]
    else if e.RemoveConnection? && e.conn == conn then []
    else before
  }

  /** The statistics a connection had when the process started, unless it was removed since. */
  function BaseOf(loaded: Stats, es: seq<Event>, conn: string): Option<UsageStats> {
    if es == [] then if conn in loaded then Some(loaded[conn]) else None else
    var init, e := es[..|es| - 1], es[|es| - 1];
    if !Stopped(init) && e.RemoveConnection? && e.conn == conn then None else BaseOf(loaded, init, conn)
  }

  /** What the calls are added to: the loaded entry, or the default made by the first call. */
  function Basis(base: Option<UsageStats>, calls: seq<Call>): UsageStats
    requires base.Some? || calls != []
  {
    if base.Some? then base.value else Default(calls[0].clock.created)
  }

  /** The time the session check of call k compares with. */
  function LastUseBefore(from: int, calls: seq<Call>, k: nat): int
    requires k <= |calls|
  {
    if k == 0 then from else calls[k - 1].clock.now
  }

  /** The connection had not been used for more than half an hour when call k was checked. */
  predicate AfterBreak(from: int, calls: seq<Call>, k: nat)
    requires k < |calls|
  {
    calls[k].clock.check - LastUseBefore(from, calls, k) > 1800
  }

  function SessionBreaks(from: int, calls: seq<Call>): (n: nat)
    ensures n <= |calls|
  {
    if calls == [] then 0 else
    var k := |calls| - 1;
    SessionBreaks(from, calls[..k]) + if AfterBreak(from, calls, k) then 1 else 0
  }

  ghost function SumCounts(m: map<string, nat>): nat {
    if m == map[] then 0 else
    var k :| k in m;
    m[k] + SumCounts(m - {k})
  }

  /** Every field in terms of what was loaded and the calls alone. */
  ghost predicate Describes(s: UsageStats, base: Option<UsageStats>, calls: seq<Call>, category: Categories) {
    (base.Some? || calls != []) && Advanced(s, Basis(base, calls), calls, category)
  }

  /** s is b advanced by the calls. */
  ghost predicate Advanced(s: UsageStats, b: UsageStats, calls: seq<Call>, category: Categories) {
    && TotalsAdvanced(s, b, calls, category)
    && CategoriesAdvanced(s, b, calls, category)
    && ToolsAdvanced(s, b, calls, category)
    && TimesAdvanced(s, b, calls)
  }

  ghost predicate TotalsAdvanced(s: UsageStats, b: UsageStats, calls: seq<Call>, category: Categories) {
    && s.totalToolCalls == b.totalToolCalls + |calls|
    && s.successfulCalls == b.successfulCalls + CountCalls(calls, Succeeded, category)
    && s.failedCalls == b.failedCalls + CountCalls(calls, Failing, category)
  }

  /** The edit and search counters never move. */
  ghost predicate CategoriesAdvanced(s: UsageStats, b: UsageStats, calls: seq<Call>, category: Categories) {
    && s.filesystemOperations == b.filesystemOperations + CountCalls(calls, In({Filesystem}), category)
    && s.terminalOperations == b.terminalOperations + CountCalls(calls, In({Terminal}), category)
    && s.configOperations == b.configOperations + CountCalls(calls, In(CONFIG_CATEGORIES), category)
    && s.processOperations == b.processOperations + CountCalls(calls, In({Process}), category)
    && s.editOperations == b.editOperations && s.searchOperations == b.searchOperations
  }

  ghost predicate ToolsAdvanced(s: UsageStats, b: UsageStats, calls: seq<Call>, category: Categories) {
    && (forall t :: ToolAdvanced(s, b, calls, category, t))
    && SumCounts(s.toolCounts) == SumCounts(b.toolCounts) + |calls|
  }

  predicate ToolAdvanced(s: UsageStats, b: UsageStats, calls: seq<Call>, category: Categories, t: string) {
    && ToolCount(s, t) == ToolCount(b, t) + CountCalls(calls, OfTool(t), category)
    && (t in s.toolCounts <==> t in b.toolCounts || CountCalls(calls, OfTool(t), category) > 0)
  }

  ghost predicate TimesAdvanced(s: UsageStats, b: UsageStats, calls: seq<Call>) {
    && s.firstUsed == b.firstUsed
    && s.lastUsed == LastUseBefore(b.lastUsed, calls, |calls|)
    && s.totalSessions == b.totalSessions + SessionBreaks(b.lastUsed, calls)
  }

  /** The sum does not depend on which key is taken first. */
  lemma {:induction false} SumTake(m: map<string, nat>, k: string)
    requires k in m
    ensures SumCounts(m) == m[k] + SumCounts(m - {k})
    decreases |m|
  {
    var j :| j in m && SumCounts(m) == m[j] + SumCounts(m - {j});
    if j != k {
      SumTake(m - {j}, k);
      SumTake(m - {k}, j);
      assert m - {j} - {k} == m - {k} - {j};
    }
  }

  lemma SumBump(m: map<string, nat>, k: string)
    ensures SumCounts(m[k := (if k in m then m[k] else 0) + 1]) == SumCounts(m) + 1
  {
    var bumped := m[k := (if k in m then m[k] else 0) + 1];
    SumTake(bumped, k);
    if k in m {
      SumTake(m, k);
      assert bumped - {k} == m - {k};
    } else {
      assert bumped - {k} == m;
    }
  }

  lemma CountSnoc(calls: seq<Call>, call: Call, s: Selector, category: Categories)
    ensures CountCalls(calls + [call], s, category) ==
            CountCalls(calls, s, category) + if Matches(call, s, category) then 1 else 0
  {
    SnocParts(calls, call);
  }

  lemma NothingAdded(s: UsageStats, category: Categories)
    ensures Advanced(s, s, [], category)
  {}

  lemma BumpTotals(s: UsageStats, b: UsageStats, calls: seq<Call>, call: Call, category: Categories)
    requires TotalsAdvanced(s, b, calls, category)
    ensures TotalsAdvanced(Bump(s, call, category), b, calls + [call], category)
  {
    CountSnoc(calls, call, Succeeded, category);
    CountSnoc(calls, call, Failing, category);
    hide CountCalls;
  }

  lemma BumpCategories(s: UsageStats, b: UsageStats, calls: seq<Call>, call: Call, category: Categories)
    requires CategoriesAdvanced(s, b, calls, category)
    ensures CategoriesAdvanced(Bump(s, call, category), b, calls + [call], category)
  {
    CountSnoc(calls, call, In({Filesystem}), category);
    CountSnoc(calls, call, In({Terminal}), category);
    CountSnoc(calls, call, In(CONFIG_CATEGORIES), category);
    CountSnoc(calls, call, In({Process}), category);
    hide CountCalls;
  }

  lemma BumpTimes(s: UsageStats, b: UsageStats, calls: seq<Call>, call: Call, category: Categories)
    requires TimesAdvanced(s, b, calls)
    ensures TimesAdvanced(Bump(s, call, category), b, calls + [call])
  {
    SnocParts(calls, call);
  }

  lemma BumpCounts(s: UsageStats, call: Call, category: Categories)
    ensures Bump(s, call, category).toolCounts == s.toolCounts[call.tool := ToolCount(s, call.tool) + 1]
  {}

  lemma BumpTool(s: UsageStats, b: UsageStats, calls: seq<Call>, call: Call, category: Categories, t: string)
    requires ToolAdvanced(s, b, calls, category, t)
    ensures ToolAdvanced(Bump(s, call, category), b, calls + [call], category, t)
  {
    BumpCounts(s, call, category);
    CountSnoc(calls, call, OfTool(t), category);
    hide CountCalls, Bump;
  }

  lemma BumpTools(s: UsageStats, b: UsageStats, calls: seq<Call>, call: Call, category: Categories)
    requires ToolsAdvanced(s, b, calls, category)
    ensures ToolsAdvanced(Bump(s, call, category), b, calls + [call], category)
  {
    BumpCounts(s, call, category);
    SumBump(s.toolCounts, call.tool);
    hide SumCounts, Bump, ToolAdvanced;
    forall t ensures ToolAdvanced(Bump(s, call, category), b, calls + [call], category, t) {
      assert ToolAdvanced(s, b, calls, category, t);
      BumpTool(s, b, calls, call, category, t);
    }
  }

  /** Counting one more call keeps the description, for a known connection and for a new one. */
  lemma BumpDescribes(
    s: UsageStats, base: Option<UsageStats>, calls: seq<Call>, call: Call, category: Categories)
    requires if base.None? && calls == [] then s == Default(call.clock.created) else Describes(s, base, calls, category)
    ensures Describes(Bump(s, call, category), base, calls + [call], category)
  {
    hide TotalsAdvanced, CategoriesAdvanced, ToolsAdvanced, TimesAdvanced, Bump, Default;
    var b := Basis(base, calls + [call]);
    if base.None? && calls == [] {
      NothingAdded(s, category);
    }
    BumpTotals(s, b, calls, call, category);
    BumpCategories(s, b, calls, call, category);
    BumpTools(s, b, calls, call, category);
    BumpTimes(s, b, calls, call, category);
  }

  ghost predicate ConnectionDescribed(
    stats: Stats, base: Option<UsageStats>, calls: seq<Call>, category: Categories, conn: string)
  {
    && (conn in stats <==> base.Some? || calls != [])
    && (conn in stats ==> Describes(stats[conn], base, calls, category))
  }

  /** `loaded` is what the process started from. */
  ghost predicate StatsDescribe(p: Processor, loaded: Stats, es: seq<Event>, category: Categories) {
    && p.running == !Stopped(es)
    && forall conn :: ConnectionDescribed(p.stats, BaseOf(loaded, es, conn), CallsSince(es, conn), category, conn)
  }

  lemma StoppedSnoc(es: seq<Event>)
    requires es != []
    ensures Stopped(es) <==> Stopped(es[..|es| - 1]) || es[|es| - 1].Shutdown?
  {
    if Stopped(es[..|es| - 1]) {
      var k :| 0 <= k < |es| - 1 && es[..|es| - 1][k].Shutdown?;
      assert es[k].Shutdown?;
    }
    if Stopped(es) && !es[|es| - 1].Shutdown? {
      var k :| 0 <= k < |es| && es[k].Shutdown?;
      assert es[..|es| - 1][k].Shutdown?;
    }
  }

  lemma TrackDescribes(
    stats: Stats, base: Option<UsageStats>, calls: seq<Call>, category: Categories, conn: string,
    target: string, call: Call)
    requires ConnectionDescribed(stats, base, calls, category, conn)
    ensures ConnectionDescribed(
      Track(stats, target, call, category), base, if conn == target then calls + [call] else calls, category, conn)
  {
    hide Describes, Bump, Default;
    if conn == target {
      BumpDescribes(
        if conn in stats then stats[conn] else Default(call.clock.created), base, calls, call, category);
    }
  }

  lemma DescribeStep(p: Processor, c: StatsCodec, category: Categories, loaded: Stats, es: seq<Event>)
    requires es != [] && StatsDescribe(p, loaded, es[..|es| - 1], category)
    ensures StatsDescribe(Handle(p, c, category, es[|es| - 1]), loaded, es, category)
  {
    var init, e := es[..|es| - 1], es[|es| - 1];
    var p' := Handle(p, c, category, e);
    StoppedSnoc(es);
    forall conn
      ensures ConnectionDescribed(p'.stats, BaseOf(loaded, es, conn), CallsSince(es, conn), category, conn)
    {
      assert ConnectionDescribed(p.stats, BaseOf(loaded, init, conn), CallsSince(init, conn), category, conn);
      if p.running && e.Tracked? {
        TrackDescribes(
          p.stats, BaseOf(loaded, init, conn), CallsSince(init, conn), category, conn, e.conn, e.call);
      }
      hide Describes;
    }
  }

  lemma StartDescribed(c: StatsCodec, category: Categories, file: Option<string>, temp: Option<string>, readOk: bool)
    ensures StatsDescribe(Boot(c, file, temp, readOk), LoadStats(c, file, readOk), [], category)
  {
    var loaded := LoadStats(c, file, readOk);
    forall conn ensures ConnectionDescribed(loaded, BaseOf(loaded, [], conn), CallsSince([], conn), category, conn) {
      if conn in loaded {
        NothingAdded(loaded[conn], category);
      }
    }
  }

  /** Statistics are a fold: in every run from any statistics file, a connection has statistics exactly when it was
      loaded or called since its last removal, and every field is the loaded value (or the default of a new entry)
      advanced by the count, time or session number of exactly those calls. */
  lemma {:induction false} StatisticsAreAFold(
    c: StatsCodec, category: Categories, file: Option<string>, temp: Option<string>, readOk: bool, es: seq<Event>)
    ensures StatsDescribe(Exec(Boot(c, file, temp, readOk), c, category, es), LoadStats(c, file, readOk), es, category)
  {
    if es == [] {
      StartDescribed(c, category, file, temp, readOk);
    } else {
      hide Handle, StatsDescribe;
      StatisticsAreAFold(c, category, file, temp, readOk, es[..|es| - 1]);
      DescribeStep(
        Exec(Boot(c, file, temp, readOk), c, category, es[..|es| - 1]), c, category, LoadStats(c, file, readOk), es);
    }
  }

  /** What the description says of one connection. */
  lemma DescribedEntry(
    c: StatsCodec, category: Categories, file: Option<string>, temp: Option<string>, readOk: bool,
    es: seq<Event>, conn: string)
    requires conn in Exec(Boot(c, file, temp, readOk), c, category, es).stats
    ensures
      var s := Exec(Boot(c, file, temp, readOk), c, category, es).stats[conn];
      Describes(s, BaseOf(LoadStats(c, file, readOk), es, conn), CallsSince(es, conn), category)
  {
    StatisticsAreAFold(c, category, file, temp, readOk, es);
    hide Exec, Describes;
    assert ConnectionDescribed(
      Exec(Boot(c, file, temp, readOk), c, category, es).stats,
      BaseOf(LoadStats(c, file, readOk), es, conn), CallsSince(es, conn), category, conn);
  }

  /** The loaded entry is the only base there can be. */
  lemma {:induction false} BaseIsLoaded(loaded: Stats, es: seq<Event>, conn: string)
    ensures BaseOf(loaded, es, conn).Some? ==> conn in loaded && BaseOf(loaded, es, conn).value == loaded[conn]
  {
    if es != [] {
      BaseIsLoaded(loaded, es[..|es| - 1], conn);
    }
  }

  // ----- Accounting -----

  predicate AllCounted(calls: seq<Call>, category: Categories) {
    forall k :: 0 <= k < |calls| ==> Matches(calls[k], In(COUNTED_CATEGORIES), category)
  }

  /** Each call succeeds or fails, and falls in at most one counted category. */
  lemma {:induction false} CountsPartition(calls: seq<Call>, category: Categories)
    ensures CountCalls(calls, Succeeded, category) + CountCalls(calls, Failing, category) == |calls|
    ensures CountCalls(calls, In({Filesystem}), category) + CountCalls(calls, In({Terminal}), category)
          + CountCalls(calls, In(CONFIG_CATEGORIES), category) + CountCalls(calls, In({Process}), category)
         == CountCalls(calls, In(COUNTED_CATEGORIES), category)
    ensures CountCalls(calls, In(COUNTED_CATEGORIES), category) == |calls|
       <==> AllCounted(calls, category)
  {
    if calls != [] {
      CountsPartition(calls[..|calls| - 1], category);
    }
  }

  /** The books of one connection. */
  ghost predicate Balanced(s: UsageStats) {
    && s.totalToolCalls == s.successfulCalls + s.failedCalls == SumCounts(s.toolCounts)
    && CategorySum(s) <= s.totalToolCalls
  }

  /** The calls keep every gap in the books but the categories' one, which grows by the uncounted calls. */
  lemma BooksKept(s: UsageStats, base: Option<UsageStats>, calls: seq<Call>, category: Categories)
    requires Describes(s, base, calls, category)
    ensures
      var b := Basis(base, calls);
      && s.totalToolCalls - s.successfulCalls - s.failedCalls == b.totalToolCalls - b.successfulCalls - b.failedCalls
      && s.totalToolCalls - SumCounts(s.toolCounts) == b.totalToolCalls - SumCounts(b.toolCounts)
      && s.totalToolCalls - CategorySum(s) >= b.totalToolCalls - CategorySum(b)
      && (s.totalToolCalls - CategorySum(s) == b.totalToolCalls - CategorySum(b) <==> AllCounted(calls, category))
  {
    CountsPartition(calls, category);
    hide CountCalls;
  }

  /** The books in every reachable state, whatever was loaded: total against successful + failed, and total against the
      sum of the per-tool counts, stand exactly as they stood in the loaded entry (or at 0 for a new one); the category
      counters fall behind the total by exactly the calls of no counted category. So books that balance when loaded
      balance for ever. */
  lemma BooksBalance(
    c: StatsCodec, category: Categories, file: Option<string>, temp: Option<string>, readOk: bool,
    es: seq<Event>, conn: string)
    requires conn in Exec(Boot(c, file, temp, readOk), c, category, es).stats
    ensures
      var s, calls := Exec(Boot(c, file, temp, readOk), c, category, es).stats[conn], CallsSince(es, conn);
      var base := BaseOf(LoadStats(c, file, readOk), es, conn);
      && (base.Some? || calls != [])
      && var b := Basis(base, calls);
      && s.totalToolCalls - s.successfulCalls - s.failedCalls == b.totalToolCalls - b.successfulCalls - b.failedCalls
      && s.totalToolCalls - SumCounts(s.toolCounts) == b.totalToolCalls - SumCounts(b.toolCounts)
      && (s.totalToolCalls - CategorySum(s) == b.totalToolCalls - CategorySum(b) <==> AllCounted(calls, category))
      && (base.None? || Balanced(base.value) ==> Balanced(s))
  {
    DescribedEntry(c, category, file, temp, readOk, es, conn);
    var s, calls := Exec(Boot(c, file, temp, readOk), c, category, es).stats[conn], CallsSince(es, conn);
    BooksKept(s, BaseOf(LoadStats(c, file, readOk), es, conn), calls, category);
    hide Describes, Exec, LoadStats, CallsSince, BaseOf, AllCounted;
    NewBooksBalance();
  }

  lemma NewBooksBalance()
    ensures forall now :: Balanced(Default(now))
  {
    assert SumCounts(map[]) == 0;
  }

  // ----- Sessions -----

  /** Clock reads never go back, and the two reads of one event are at most d seconds apart. */
  ghost predicate ClockRuns(es: seq<Event>, d: nat) {
    && (forall i :: 0 <= i < |es| && es[i].Tracked? ==> ReadsInOrder(es[i].call.clock, d))
    && (forall i, j :: 0 <= i < j < |es| && es[i].Tracked? && es[j].Tracked? ==>
          es[i].call.clock.check <= es[j].call.clock.created)
  }

  predicate ReadsInOrder(k: Clock, d: nat) {
    k.created <= k.now <= k.check <= k.now + d
  }

  ghost predicate CallsInOrder(calls: seq<Call>, d: nat) {
    && (forall i :: 0 <= i < |calls| ==> ReadsInOrder(calls[i].clock, d))
    && (forall i :: 0 < i < |calls| ==> calls[i - 1].clock.check <= calls[i].clock.created)
  }

  lemma {:induction false} CallsComeFromEvents(es: seq<Event>, conn: string)
    ensures
      var calls := CallsSince(es, conn);
      calls != [] ==> exists i :: 0 <= i < |es| && es[i] == Tracked(conn, calls[|calls| - 1])
  {
    if es != [] {
      var init, calls := es[..|es| - 1], CallsSince(es, conn);
      CallsComeFromEvents(init, conn);
      if calls != [] {
        if calls == CallsSince(init, conn) {
          var i :| 0 <= i < |init| && init[i] == Tracked(conn, calls[|calls| - 1]);
          assert es[i] == Tracked(conn, calls[|calls| - 1]);
        } else {
          assert es[|es| - 1] == Tracked(conn, calls[|calls| - 1]);
        }
      }
    }
  }

  lemma {:induction false} CallsKeepClockOrder(es: seq<Event>, conn: string, d: nat)
    requires ClockRuns(es, d)
    ensures CallsInOrder(CallsSince(es, conn), d)
  {
    if es != [] {
      var init, e := es[..|es| - 1], es[|es| - 1];
      assert ClockRuns(init, d);
      CallsKeepClockOrder(init, conn, d);
      CallsComeFromEvents(init, conn);
    }
  }

  /** Each session break costs at least 1801 - d seconds of use. */
  lemma {:induction false} BreaksCostTime(from: int, calls: seq<Call>, d: nat)
    requires CallsInOrder(calls, d) && d <= 1801 && (calls != [] ==> from <= calls[0].clock.created)
    ensures SessionBreaks(from, calls) * (1801 - d) <= LastUseBefore(from, calls, |calls|) - from
  {
    if calls != [] {
      var k := |calls| - 1;
      var init := calls[..k];
      assert ReadsInOrder(calls[k].clock, d);
      BreaksCostTime(from, init, d);
      if k > 0 {
        assert calls[k - 1].clock.check <= calls[k].clock.created;
        assert ReadsInOrder(calls[k - 1].clock, d);
      }
      OneMore(SessionBreaks(from, init), 1801 - d);
    }
  }

  lemma OneMore(b: nat, cost: nat)
    ensures (b + 1) * cost == b * cost + cost
  {}

  lemma CostsAdd(a: nat, b: nat, cost: nat)
    ensures (a + b) * cost == a * cost + b * cost
  {}

  /** No loaded last use lies in the future of the calls. */
  ghost predicate ClockContinues(loaded: Stats, es: seq<Event>, conn: string) {
    conn in loaded ==>
      forall i :: 0 <= i < |es| && es[i].Tracked? ==> loaded[conn].lastUsed <= es[i].call.clock.created
  }

  /** As many sessions as the time of use and the number of calls allow. */
  predicate SessionsFit(s: UsageStats, d: nat) {
    && 1 <= s.totalSessions <= 1 + s.totalToolCalls
    && (s.totalSessions - 1) * (1801 - d) <= s.lastUsed - s.firstUsed
  }

  lemma {:induction false} FirstCallIsLater(loaded: Stats, es: seq<Event>, conn: string)
    requires conn in loaded && ClockContinues(loaded, es, conn)
    ensures
      var calls := CallsSince(es, conn);
      calls != [] ==> loaded[conn].lastUsed <= calls[0].clock.created
  {
    if es != [] {
      assert ClockContinues(loaded, es[..|es| - 1], conn);
      FirstCallIsLater(loaded, es[..|es| - 1], conn);
    }
  }

  lemma SessionsGrow(s: UsageStats, base: Option<UsageStats>, calls: seq<Call>, category: Categories, d: nat)
    requires Describes(s, base, calls, category) && CallsInOrder(calls, d) && d <= 1801
    requires base.Some? && calls != [] ==> base.value.lastUsed <= calls[0].clock.created
    ensures
      var b := Basis(base, calls);
      && b.totalSessions <= s.totalSessions <= b.totalSessions + |calls|
      && (s.totalSessions - b.totalSessions) * (1801 - d) <= s.lastUsed - b.lastUsed
      && (SessionsFit(b, d) ==> SessionsFit(s, d))
  {
    hide CountCalls, SessionBreaks, ToolsAdvanced, CategoriesAdvanced;
    var b := Basis(base, calls);
    BreaksCostTime(b.lastUsed, calls, d);
    if SessionsFit(b, d) {
      CostsAdd(b.totalSessions - 1, s.totalSessions - b.totalSessions, 1801 - d);
    }
  }

  /** Session arithmetic: with a clock that never goes back and reads at most d <= 1801 seconds apart, in every run a
      process adds at most as many sessions to what it loaded as it sees calls, and 1801 - d seconds of use for each; so
      if total_sessions <= 1 + total_tool_calls and (total_sessions - 1) * (1801 - d) <= last_used - first_used held of
      the loaded entry, as they do of a new one, they hold for ever. */
  lemma SessionArithmetic(
    c: StatsCodec, category: Categories, file: Option<string>, temp: Option<string>, readOk: bool,
    es: seq<Event>, conn: string, d: nat)
    requires ClockRuns(es, d) && ClockContinues(LoadStats(c, file, readOk), es, conn) && d <= 1801
    requires conn in Exec(Boot(c, file, temp, readOk), c, category, es).stats
    ensures
      var s, calls := Exec(Boot(c, file, temp, readOk), c, category, es).stats[conn], CallsSince(es, conn);
      var base := BaseOf(LoadStats(c, file, readOk), es, conn);
      && (base.Some? || calls != [])
      && var b := Basis(base, calls);
      && b.totalSessions <= s.totalSessions <= b.totalSessions + |calls|
      && (s.totalSessions - b.totalSessions) * (1801 - d) <= s.lastUsed - b.lastUsed
      && (base.None? || SessionsFit(base.value, d) ==> SessionsFit(s, d))
  {
    hide Exec, LoadStats, CallsSince, BaseOf, CallsInOrder, ClockContinues, ClockRuns;
    DescribedEntry(c, category, file, temp, readOk, es, conn);
    var loaded, calls := LoadStats(c, file, readOk), CallsSince(es, conn);
    BaseIsLoaded(loaded, es, conn);
    CallsKeepClockOrder(es, conn, d);
    if conn in loaded {
      FirstCallIsLater(loaded, es, conn);
    }
    var s := Exec(Boot(c, file, temp, readOk), c, category, es).stats[conn];
    SessionsGrow(s, BaseOf(loaded, es, conn), calls, category, d);
  }

  /** What one call does to the session number and the times, whatever the statistics were: a check more than 1800 s
      after the last use raises the number by one, any other leaves it; a connection without statistics begins with one
      session at the first clock read. */
  lemma CallMovesSession(p: Processor, c: StatsCodec, category: Categories, conn: string, call: Call)
    requires p.running
    ensures
      var after := Handle(p, c, category, Tracked(conn, call)).stats;
      && conn in after && after[conn].lastUsed == call.clock.now
      && (conn in p.stats ==>
            && after[conn].firstUsed == p.stats[conn].firstUsed
            && after[conn].totalSessions ==
                 p.stats[conn].totalSessions + if call.clock.check - p.stats[conn].lastUsed > 1800 then 1 else 0)
      && (conn !in p.stats ==>
            && after[conn].firstUsed == call.clock.created
            && after[conn].totalSessions == 1 + if call.clock.check - call.clock.created > 1800 then 1 else 0)
      && (forall other :: other != conn ==>
            (other in after <==> other in p.stats) && (other in after ==> after[other] == p.stats[other]))
  {}

  /** Whether every call of a connection came after a break, or none did. */
  predicate AlwaysAfterBreak(from: int, calls: seq<Call>) {
    && (calls != [] ==> calls[0].clock.check - from > 1800)
    && forall k :: 1 <= k < |calls| ==> calls[k].clock.check - calls[k - 1].clock.now > 1800
  }

  predicate NeverAfterBreak(from: int, calls: seq<Call>) {
    && (calls != [] ==> calls[0].clock.check - from <= 1800)
    && forall k :: 1 <= k < |calls| ==> calls[k].clock.check - calls[k - 1].clock.now <= 1800
  }

  lemma {:induction false} BreaksExtreme(from: int, calls: seq<Call>)
    ensures AlwaysAfterBreak(from, calls) ==> SessionBreaks(from, calls) == |calls|
    ensures NeverAfterBreak(from, calls) ==> SessionBreaks(from, calls) == 0
  {
    if calls != [] {
      BreaksExtreme(from, calls[..|calls| - 1]);
    }
  }

  /** What a connection begins with: what was loaded, or what its first call makes. */
  lemma BasisIs(base: Option<UsageStats>, calls: seq<Call>)
    requires base.Some? || calls != []
    ensures base.Some? ==> Basis(base, calls) == base.value
    ensures base.None? ==>
      var b, t := Basis(base, calls), calls[0].clock.created;
      && b.firstUsed == t && b.lastUsed == t && b.totalSessions == 1
      && b.totalToolCalls == 0 && b.successfulCalls == 0 && b.failedCalls == 0 && b.toolCounts == map[]
      && CategorySum(b) == 0
  {}

  /** Sessions counted over whole runs: every call after a break begins one and no other does. In particular each call
      begins one when all gaps exceed 1800 s, and none does when no gap does. */
  lemma SessionsAreBreaks(
    c: StatsCodec, category: Categories, file: Option<string>, temp: Option<string>, readOk: bool,
    es: seq<Event>, conn: string)
    requires conn in Exec(Boot(c, file, temp, readOk), c, category, es).stats
    ensures
      var s, calls := Exec(Boot(c, file, temp, readOk), c, category, es).stats[conn], CallsSince(es, conn);
      var base := BaseOf(LoadStats(c, file, readOk), es, conn);
      && (base.Some? || calls != [])
      && var from := if base.Some? then base.value.lastUsed else calls[0].clock.created;
      && var sessions := if base.Some? then base.value.totalSessions else 1;
      && s.firstUsed == (if base.Some? then base.value.firstUsed else calls[0].clock.created)
      && (calls != [] ==> s.lastUsed == calls[|calls| - 1].clock.now)
      && (AlwaysAfterBreak(from, calls) ==> s.totalSessions == sessions + |calls|)
      && (NeverAfterBreak(from, calls) ==> s.totalSessions == sessions)
  {
    DescribedEntry(c, category, file, temp, readOk, es, conn);
    var base, calls := BaseOf(LoadStats(c, file, readOk), es, conn), CallsSince(es, conn);
    hide Exec, CallsSince, BaseOf, LoadStats, ToolsAdvanced, CategoriesAdvanced;
    BasisIs(base, calls);
    hide Default, SessionBreaks;
    BreaksExtreme(Basis(base, calls).lastUsed, calls);
  }

  // ----- Snapshots -----

  /** How many events had been processed when the file was last replaced; 0 when it never was. */
  function LastSave(p: Processor, c: StatsCodec, category: Categories, es: seq<Event>): (k: nat)
    ensures k <= |es|
  {
    if es == [] then 0 else
    var before, e := Exec(p, c, category, es[..|es| - 1]), es[|es| - 1];
    if before.running && (e.SaveToDisk? || e.Shutdown?) && SaveSucceeds(before, c, e.io) then |es|
    else LastSave(p, c, category, es[..|es| - 1])
  }

  /** What one save does, periodic or final: if the snapshot serializes, the directory exists and both file calls
      succeed, the file is the serialized present statistics; otherwise it is what it was. A temporary file is left
      behind only by a failing write. The statistics stay. */
  lemma SaveTakesEffect(p: Processor, c: StatsCodec, category: Categories, es: seq<Event>, e: Event)
    requires Exec(p, c, category, es).running && (e.SaveToDisk? || e.Shutdown?)
    ensures
      var before, after := Exec(p, c, category, es), Exec(p, c, category, es + [e]);
      var ok := c.enc(before.stats).Some? && e.io.prepared && e.io.writeOk && e.io.renameOk;
      && after.stats == before.stats && after.running == e.SaveToDisk?
      && after.file == (if ok then c.enc(before.stats) else before.file)
      && after.temp == (if c.enc(before.stats).None? || !e.io.prepared then before.temp
                        else if !e.io.writeOk then Some(e.io.partialText) else None)
      && LastSave(p, c, category, es + [e]) == if ok then |es| + 1 else LastSave(p, c, category, es)
  {
    SnocParts(es, e);
  }

  /** What a start loads: the statistics in the file if it can be read and decoded, and nothing otherwise. */
  lemma StartLoads(c: StatsCodec, file: Option<string>, temp: Option<string>, readOk: bool)
    ensures
      var p := Boot(c, file, temp, readOk);
      && p.running && p.file == file && p.temp == temp
      && (if readOk && file.Some? && c.dec(file.value).Some? then Some(p.stats) == c.dec(file.value)
          else p.stats == map[])
  {}

  /** Later in the run, the saved prefix is never shorter, and as long as it is the same the file is the same. */
  lemma {:induction false} SavesCoverLongerPrefixes(
    p: Processor, c: StatsCodec, category: Categories, es: seq<Event>, j: nat)
    requires j <= |es|
    ensures LastSave(p, c, category, es[..j]) <= LastSave(p, c, category, es)
    ensures LastSave(p, c, category, es[..j]) == LastSave(p, c, category, es) ==>
      Exec(p, c, category, es[..j]).file == Exec(p, c, category, es).file
  {
    if j < |es| {
      SavesCoverLongerPrefixes(p, c, category, es[..|es| - 1], j);
      assert es[..|es| - 1][..j] == es[..j];
    } else {
      assert es[..j] == es;
    }
  }

  /** The file is never anything but its initial content or the snapshot of one processed prefix, wherever a save
      stopped. */
  lemma {:induction false} SnapshotIsAPrefix(p: Processor, c: StatsCodec, category: Categories, es: seq<Event>)
    requires Faithful(c)
    ensures
      var k, file := LastSave(p, c, category, es), Exec(p, c, category, es).file;
      if k == 0 then file == p.file
      else file.Some? && c.dec(file.value) == Some(Exec(p, c, category, es[..k]).stats)
  {
    if es != [] {
      var init, e := es[..|es| - 1], es[|es| - 1];
      SnapshotIsAPrefix(p, c, category, init);
      var k, before := LastSave(p, c, category, es), Exec(p, c, category, init);
      if k == |es| {
        assert es[..k] == es;
      } else {
        assert es[..k] == init[..k];
        assert Exec(p, c, category, es).file == before.file;
      }
    }
  }

  lemma {:induction false} StatsIgnoreFiles(
    p: Processor, q: Processor, c: StatsCodec, category: Categories, es: seq<Event>)
    requires p.stats == q.stats && p.running == q.running
    ensures
      var p', q' := Exec(p, c, category, es), Exec(q, c, category, es);
      p'.stats == q'.stats && p'.running == q'.running
  {
    if es != [] {
      StatsIgnoreFiles(p, q, c, category, es[..|es| - 1]);
    }
  }

  lemma {:induction false} ExecConcat(p: Processor, c: StatsCodec, category: Categories, a: seq<Event>, b: seq<Event>)
    ensures Exec(p, c, category, a + b) == Exec(Exec(p, c, category, a), c, category, b)
  {
    if b == [] {
      assert a + b == a;
    } else {
      assert (a + b)[..|a + b| - 1] == a + b[..|b| - 1];
      ExecConcat(p, c, category, a, b[..|b| - 1]);
    }
  }

  /** The events the processor takes from its channel: all up to the first shutdown, and that one. */
  function Taken(es: seq<Event>): (taken: seq<Event>)
    ensures |taken| <= |es|
  {
    if es == [] then [] else if Stopped(es[..|es| - 1]) then Taken(es[..|es| - 1]) else es
  }

  lemma {:induction false} RunsUntilStopped(p: Processor, c: StatsCodec, category: Categories, es: seq<Event>)
    requires p.running
    ensures Exec(p, c, category, es).running == !Stopped(es)
  {
    if es != [] {
      RunsUntilStopped(p, c, category, es[..|es| - 1]);
      StoppedSnoc(es);
      hide Stopped;
    }
  }

  lemma StoppedEarlier(es: seq<Event>, j: nat)
    requires j <= |es| && Stopped(es[..j])
    ensures Stopped(es)
  {
    var k :| 0 <= k < j && es[..j][k].Shutdown?;
    assert es[k].Shutdown?;
  }

  /** Only taken events have an effect, and before the last of them the processor runs. */
  lemma {:induction false} TakenIsAll(p: Processor, c: StatsCodec, category: Categories, es: seq<Event>)
    requires p.running
    ensures Taken(es) == es[..|Taken(es)|]
    ensures Exec(p, c, category, Taken(es)) == Exec(p, c, category, es)
    ensures LastSave(p, c, category, es) <= |Taken(es)|
  {
    if es != [] {
      var init := es[..|es| - 1];
      TakenIsAll(p, c, category, init);
      RunsUntilStopped(p, c, category, init);
      hide Stopped;
      if Stopped(init) {
        assert init[..|Taken(init)|] == es[..|Taken(init)|];
      }
    }
  }

  lemma {:induction false} RunsBeforeTheEnd(
    p: Processor, c: StatsCodec, category: Categories, es: seq<Event>, k: nat)
    requires p.running && k < |Taken(es)|
    ensures Exec(p, c, category, es[..k]).running
  {
    if Stopped(es[..|es| - 1]) {
      RunsBeforeTheEnd(p, c, category, es[..|es| - 1], k);
      assert es[..|es| - 1][..k] == es[..k];
    } else {
      RunsUntilStopped(p, c, category, es[..k]);
      assert es[..|es| - 1][..k] == es[..k];
      if Stopped(es[..k]) {
        StoppedEarlier(es[..|es| - 1], k);
      }
    }
  }

  lemma ExecNothing(p: Processor, c: StatsCodec, category: Categories)
    ensures Exec(p, c, category, []) == p
  {}

  /** Resuming from a snapshot: in every run with a save, shut down or not, a process that loads the saved file and sees
      the events taken after that save ends with the statistics of the uninterrupted run. */
  lemma ResumeFromSnapshot(p: Processor, c: StatsCodec, category: Categories, es: seq<Event>)
    requires Faithful(c) && p.running && LastSave(p, c, category, es) > 0
    ensures
      var k, end := LastSave(p, c, category, es), Exec(p, c, category, es);
      && k <= |Taken(es)|
      && Exec(Boot(c, end.file, end.temp, true), c, category, Taken(es)[k..]).stats == end.stats
  {
    var k, end, taken := LastSave(p, c, category, es), Exec(p, c, category, es), Taken(es);
    hide Exec, LastSave, Taken;
    SnapshotIsAPrefix(p, c, category, es);
    TakenIsAll(p, c, category, es);
    if k < |taken| {
      RunsBeforeTheEnd(p, c, category, es, k);
      assert taken[..k] == es[..k] && taken == taken[..k] + taken[k..];
      ExecConcat(p, c, category, taken[..k], taken[k..]);
      StatsIgnoreFiles(Boot(c, end.file, end.temp, true), Exec(p, c, category, es[..k]), c, category, taken[k..]);
    } else {
      assert es[..k] == taken && taken[k..] == [];
      assert Exec(Boot(c, end.file, end.temp, true), c, category, []) == Boot(c, end.file, end.temp, true) by {
        ExecNothing(Boot(c, end.file, end.temp, true), c, category);
      }
    }
  }

  // ----- Many processes -----

  /** One process: whether it can read the file, and the events it sees. */
  datatype Life = Life(readOk: bool, events: seq<Event>)

  /** Process after process on the same two files. */
  function ExecLives(p: Processor, c: StatsCodec, category: Categories, lives: seq<Life>): Processor {
    if lives == [] then p else
    var before, life := ExecLives(p, c, category, lives[..|lives| - 1]), lives[|lives| - 1];
    Exec(Boot(c, before.file, before.temp, life.readOk), c, category, life.events)
  }

  ghost predicate AllBalanced(stats: Stats) {
    forall conn :: conn in stats ==> Balanced(stats[conn])
  }

  lemma LifeBalances(
    c: StatsCodec, category: Categories, file: Option<string>, temp: Option<string>, readOk: bool, es: seq<Event>)
    requires AllBalanced(LoadStats(c, file, readOk))
    ensures AllBalanced(Exec(Boot(c, file, temp, readOk), c, category, es).stats)
  {
    var loaded, stats := LoadStats(c, file, readOk), Exec(Boot(c, file, temp, readOk), c, category, es).stats;
    hide Exec, LoadStats, Balanced;
    forall conn | conn in stats ensures Balanced(stats[conn]) {
      BooksBalance(c, category, file, temp, readOk, es, conn);
      BaseIsLoaded(loaded, es, conn);
    }
  }

  /** The books balance across restarts: from a file whose entries balance, however many processes run on it, wherever
      their saves stop and their runs end, both the statistics in memory and those a restart would load balance. */
  lemma {:induction false} BooksBalanceAcrossRestarts(
    p: Processor, c: StatsCodec, category: Categories, lives: seq<Life>)
    requires Faithful(c) && AllBalanced(p.stats) && AllBalanced(LoadStats(c, p.file, true))
    ensures
      var end := ExecLives(p, c, category, lives);
      AllBalanced(end.stats) && AllBalanced(LoadStats(c, end.file, true))
  {
    if lives != [] {
      var before, life := ExecLives(p, c, category, lives[..|lives| - 1]), lives[|lives| - 1];
      BooksBalanceAcrossRestarts(p, c, category, lives[..|lives| - 1]);
      var start, es := Boot(c, before.file, before.temp, life.readOk), life.events;
      hide Exec, AllBalanced, LastSave;
      assert AllBalanced(LoadStats(c, before.file, life.readOk)) by {
        NothingBalances();
      }
      LifeBalances(c, category, before.file, before.temp, life.readOk, es);
      SnapshotIsAPrefix(start, c, category, es);
      var k := LastSave(start, c, category, es);
      LifeBalances(c, category, before.file, before.temp, life.readOk, es[..k]);
    }
  }

  lemma NothingBalances()
    ensures AllBalanced(map[])
  {}
}
