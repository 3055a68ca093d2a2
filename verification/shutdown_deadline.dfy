// How long a shutdown takes when timers fire on time: an upper bound for every run, and a run that reaches it.
module ShutdownDeadline {
  import opened Wrappers
  import opened Seqs
  import opened Shutdown
  import opened ShutdownTiming
  import opened ShutdownProgress
  import G = RequestGuards
  import M = Managers

  /** Shutdown deadline: with timers on time and no hook panic, in every run completion is sent within
      D + 5 s + 30.1 s + 10 s * n of cancellation (under TLS within 30.1 s + 10 s * n), n being the number of hooks
      counted; and a caller that starts waiting at or after cancellation with a longer timeout than that gets Ok. */
  lemma ShutdownDeadline(d: nat, tls: bool, hooks: seq<M.HookId>, es: seq<Event>)
    requires Timely(d, Serving(tls, hooks), es) && NoPanic(es)
    ensures
      var s := Exec(d, Serving(tls, hooks), es);
      && s.guards.tls == tls
      && (s.cancelled.Some? ==>
        && (s.now > s.cancelled.value + Limit(d, s) ==> s.completion.Sent?)
        && (s.completion.Sent? ==> s.completion.at <= s.cancelled.value + Limit(d, s))
        && (s.waiter.Returned? && s.waiter.since >= s.cancelled.value && s.waiter.timeout > Limit(d, s) ==>
              s.waiter.result.WaitOk?))
  {
    TlsAlways(d, Serving(tls, hooks), es);
    RunOnTime(d, tls, hooks, es);
    RunIsSafe(d, tls, hooks, es);
    NoPanicNoUnwind(d, Serving(tls, hooks), es);
    var s := Exec(d, Serving(tls, hooks), es);
    if s.cancelled.Some? && s.completion.Pending? {
      PendingWithinBound(d, s);
    }
  }

  // ----- The bound is reached -----

  /** A call that never ends (under TLS a connection that is never closed) is in flight when the caller cancels and at
      once starts to wait. */
  function Entry(tls: bool, x: nat): seq<Event> {
    Busy(tls) + [Cancel, StartWaiting(x)]
  }

  function Busy(tls: bool): seq<Event> {
    if tls then [Guard(G.AcceptConnection(0)), Guard(G.HandshakeDone(0))]
    else [Guard(G.CountCall(0)), Guard(G.GuardCall(0))]
  }

  /** The server task of plain HTTP never exits, and the whole join timeout passes; that of TLS ends at once. */
  function SlowestJoin(d: nat, tls: bool): seq<Event> {
    [SelectCancel] + if tls then [ServerExit, JoinReturns] else [Advance(d + JOIN_SLACK), JoinTimesOut]
  }

  function PollRound(): seq<Event> {
    [Load, Check] + [Advance(POLL_INTERVAL), Wake]
  }

  function Polls(n: nat): seq<Event> {
    if n == 0 then [] else Polls(n - 1) + PollRound()
  }

  function HangRound(): seq<Event> {
    [FetchHook] + [Advance(PER_MANAGER_TIMEOUT), HookTimesOut]
  }

  function Hangs(n: nat): seq<Event> {
    if n == 0 then [] else Hangs(n - 1) + HangRound()
  }

  /** The slowest monitor with n hooks, stopped just before it sends completion. */
  function SlowestMonitor(d: nat, tls: bool, n: nat): seq<Event> {
    SlowestJoin(d, tls) + Polls(MAX_LOADS - 1) + [Load, Check] + [CountHooks] + Hangs(n)
  }

  /** The slowest shutdown with n hooks under a caller that waits for at most x. */
  function SlowestRun(d: nat, tls: bool, n: nat, x: nat): seq<Event> {
    Entry(tls, x) + SlowestMonitor(d, tls, n)
  }

  lemma BusyEffect(d: nat, tls: bool, hooks: seq<M.HookId>)
    ensures
      var s0 := Serving(tls, hooks);
      var s := Exec(d, s0, Busy(tls));
      && Timely(d, s0, Busy(tls))
      && s == s0.(guards := s.guards) && s.guards.active == 1 && s.guards.tls == tls
  {
    TwoSteps(d, Serving(tls, hooks), Busy(tls)[0], Busy(tls)[1]);
    hide Exec, Timely;
  }

  lemma EntryEffect(d: nat, tls: bool, hooks: seq<M.HookId>, x: nat)
    ensures
      var s := Exec(d, Serving(tls, hooks), Entry(tls, x));
      && Timely(d, Serving(tls, hooks), Entry(tls, x))
      && s.now == 0 && s.phase.Racing? && s.guards.active == 1 && s.guards.tls == tls && !s.serverDone
      && s.cancelled == Some(0) && s.hooks == hooks && s.completion.Pending? && s.snapshot.None?
      && s.waiter == Waiting(0, x)
  {
    hide Exec, Timely, Busy;
    var s0 := Serving(tls, hooks);
    BusyEffect(d, tls, hooks);
    TwoSteps(d, Exec(d, s0, Busy(tls)), Cancel, StartWaiting(x));
    ExecConcat(d, s0, Busy(tls), [Cancel, StartWaiting(x)]);
  }

  lemma CancelSelected(d: nat, s: State)
    requires s.phase.Racing? && s.cancelled.Some?
    ensures
      && Timely(d, s, [SelectCancel])
      && Exec(d, s, [SelectCancel]) == s.(phase := Joining(s.now + d + JOIN_SLACK), trigger := Some(s.now))
  {
    ExecSnoc(d, s, [], SelectCancel);
    assert [] + [SelectCancel] == [SelectCancel];
  }

  lemma JoinGivesUp(d: nat, s: State, ms: nat)
    requires s.phase == Joining(s.now + ms) && !s.serverDone && !s.guards.tls
    ensures
      && Timely(d, s, [Advance(ms), JoinTimesOut])
      && Exec(d, s, [Advance(ms), JoinTimesOut]) == s.(now := s.now + ms, phase := Loading(s.now + ms, 0))
  {
    TwoSteps(d, s, Advance(ms), JoinTimesOut);
    hide Exec, Timely;
  }

  lemma JoinEndsAtOnce(d: nat, s: State)
    requires s.phase.Joining? && !s.serverDone
    ensures
      && Timely(d, s, [ServerExit, JoinReturns])
      && Exec(d, s, [ServerExit, JoinReturns]) == s.(serverDone := true, phase := Loading(s.now, 0))
  {
    TwoSteps(d, s, ServerExit, JoinReturns);
    hide Exec, Timely;
  }

  lemma SlowestJoinEffect(d: nat, s: State)
    requires s.phase.Racing? && s.cancelled.Some? && !s.serverDone
    ensures
      var tls := s.guards.tls;
      var later := s.now + JoinTime(d, tls);
      && Timely(d, s, SlowestJoin(d, tls))
      && Exec(d, s, SlowestJoin(d, tls)) ==
           s.(now := later, phase := Loading(later, 0), trigger := Some(s.now), serverDone := tls)
  {
    hide Exec, Timely;
    CancelSelected(d, s);
    var joining := Exec(d, s, [SelectCancel]);
    if s.guards.tls {
      JoinEndsAtOnce(d, joining);
      ExecConcat(d, s, [SelectCancel], [ServerExit, JoinReturns]);
    } else {
      JoinGivesUp(d, joining, d + JOIN_SLACK);
      ExecConcat(d, s, [SelectCancel], [Advance(d + JOIN_SLACK), JoinTimesOut]);
    }
  }

  /** One round of the drain loop on a busy counter. */
  lemma OnePoll(d: nat, s: State)
    requires s.phase.Loading? && s.guards.active != 0 && s.now <= s.phase.start + DRAIN_TIMEOUT
    ensures
      && Timely(d, s, PollRound())
      && Exec(d, s, PollRound()) == s.(now := s.now + POLL_INTERVAL, phase := Loading(s.phase.start, s.phase.loads + 1))
  {
    hide Exec, Timely;
    TwoSteps(d, s, Load, Check);
    var asleep := Exec(d, s, [Load, Check]);
    TwoSteps(d, asleep, Advance(POLL_INTERVAL), Wake);
    ExecConcat(d, s, [Load, Check], [Advance(POLL_INTERVAL), Wake]);
  }

  function AfterPolls(s: State, n: nat): State {
    s.(now := s.now + POLL_INTERVAL * n, phase := Loading(s.now, n))
  }

  lemma NextPoll(d: nat, s: State, n: nat)
    requires s.phase == Loading(s.now, 0) && s.guards.active != 0 && n + 1 < MAX_LOADS
    ensures Timely(d, AfterPolls(s, n), PollRound())
    ensures Exec(d, AfterPolls(s, n), PollRound()) == AfterPolls(s, n + 1)
  {
    OnePoll(d, AfterPolls(s, n));
  }

  lemma {:induction false} PollsEffect(d: nat, s: State, n: nat)
    requires s.phase == Loading(s.now, 0) && s.guards.active != 0 && n < MAX_LOADS
    ensures Timely(d, s, Polls(n))
    ensures Exec(d, s, Polls(n)) == AfterPolls(s, n)
  {
    if n > 0 {
      hide Exec, Timely, Next, AfterPolls, PollRound;
      PollsEffect(d, s, n - 1);
      NextPoll(d, s, n - 1);
      ExecConcat(d, s, Polls(n - 1), PollRound());
    }
  }

  /** The observable part of a state in the middle of the hooks. */
  predicate HooksLeft(s: State, next: nat, now: nat, count: nat) {
    && s.phase == Fetching(next) && s.now == now && s.cancelled == Some(0) && s.completion.Pending?
    && |s.hooks| == count && Visited(s) == count
  }

  lemma OneHang(d: nat, s: State, next: nat, now: nat, count: nat)
    requires HooksLeft(s, next, now, count) && 0 < next <= count
    ensures
      && Timely(d, s, HangRound())
      && HooksLeft(Exec(d, s, HangRound()), next - 1, now + PER_MANAGER_TIMEOUT, count)
  {
    var hang := [Advance(PER_MANAGER_TIMEOUT), HookTimesOut];
    FetchFinds(d, s);
    HangingHook(d, Exec(d, s, [FetchHook]));
    ExecConcat(d, s, [FetchHook], hang);
  }

  lemma FetchFinds(d: nat, s: State)
    requires s.phase.Fetching? && 0 < s.phase.next <= |s.hooks|
    ensures
      var i := s.phase.next - 1;
      && Timely(d, s, [FetchHook])
      && Exec(d, s, [FetchHook]) == s.(phase := Running(i, s.hooks[i], s.now))
  {
    ExecSnoc(d, s, [], FetchHook);
    assert [] + [FetchHook] == [FetchHook];
  }

  lemma HangingHook(d: nat, s: State)
    requires s.phase.Running? && s.now == s.phase.started
    ensures
      var hang := [Advance(PER_MANAGER_TIMEOUT), HookTimesOut];
      var s' := Exec(d, s, hang);
      && Timely(d, s, hang)
      && s' == s.(now := s.now + PER_MANAGER_TIMEOUT, phase := Fetching(s.phase.next), attempts := s'.attempts)
  {
    TwoSteps(d, s, Advance(PER_MANAGER_TIMEOUT), HookTimesOut);
  }

  lemma {:induction false} HangsEffect(d: nat, s: State, n: nat, count: nat)
    requires HooksLeft(s, count, s.now, count) && n <= count
    ensures Timely(d, s, Hangs(n))
    ensures HooksLeft(Exec(d, s, Hangs(n)), count - n, s.now + PER_MANAGER_TIMEOUT * n, count)
  {
    if n > 0 {
      HangsEffect(d, s, n - 1, count);
      hide Exec, Timely, Next, HangRound;
      OneHang(d, Exec(d, s, Hangs(n - 1)), count - n + 1, s.now + PER_MANAGER_TIMEOUT * (n - 1), count);
      ExecConcat(d, s, Hangs(n - 1), HangRound());
    }
  }

  lemma DrainGivesUp(d: nat, s: State)
    requires s.phase.Loading? && s.now > s.phase.start + DRAIN_TIMEOUT && s.guards.active != 0
    ensures Timely(d, s, [Load, Check] + [CountHooks])
    ensures
      var s' := Exec(d, s, [Load, Check] + [CountHooks]);
      && s'.phase == Fetching(|s.hooks|) && s'.snapshot == Some(s.hooks)
      && s'.now == s.now && s'.hooks == s.hooks && s'.cancelled == s.cancelled && s'.completion == s.completion
  {
    TwoSteps(d, s, Load, Check);
    ExecSnoc(d, s, [Load, Check], CountHooks);
  }

  /** The slowest run is timely and still has nothing sent at the bound itself. */
  lemma SlowestRunReachesBound(d: nat, tls: bool, hooks: seq<M.HookId>, x: nat)
    ensures
      var n := |hooks|;
      var s := Exec(d, Serving(tls, hooks), SlowestRun(d, tls, n, x));
      && Timely(d, Serving(tls, hooks), SlowestRun(d, tls, n, x))
      && s.cancelled == Some(0) && s.now == Bound(d, tls, n) && s.completion.Pending?
  {
    hide Exec, Timely, Entry, SlowestMonitor;
    EntryEffect(d, tls, hooks, x);
    SlowestMonitorEffect(d, Exec(d, Serving(tls, hooks), Entry(tls, x)));
    ExecConcat(d, Serving(tls, hooks), Entry(tls, x), SlowestMonitor(d, tls, |hooks|));
  }

  lemma SlowestMonitorEffect(d: nat, s: State)
    requires s.now == 0 && s.phase.Racing? && s.guards.active == 1 && !s.serverDone
    requires s.cancelled == Some(0) && s.completion.Pending? && s.snapshot.None?
    ensures
      var n := |s.hooks|;
      var s' := Exec(d, s, SlowestMonitor(d, s.guards.tls, n));
      && Timely(d, s, SlowestMonitor(d, s.guards.tls, n))
      && s'.cancelled == Some(0) && s'.now == Bound(d, s.guards.tls, n) && s'.completion.Pending?
      && s'.phase == Fetching(0)
  {
    hide Exec, Timely, SlowestJoin, Polls, Hangs;
    var n, join := |s.hooks|, SlowestJoin(d, s.guards.tls);
    SlowestJoinEffect(d, s);
    var s1 := Exec(d, s, join);
    PollsEffect(d, s1, MAX_LOADS - 1);
    ExecConcat(d, s, join, Polls(MAX_LOADS - 1));
    var s2 := Exec(d, s, join + Polls(MAX_LOADS - 1));
    DrainGivesUp(d, s2);
    ExecConcat(d, s, join + Polls(MAX_LOADS - 1), [Load, Check] + [CountHooks]);
    var s3 := Exec(d, s2, [Load, Check] + [CountHooks]);
    HangsEffect(d, s3, n, n);
    ExecConcat(d, s, join + Polls(MAX_LOADS - 1) + ([Load, Check] + [CountHooks]), Hangs(n));
    Assoc(join + Polls(MAX_LOADS - 1), [Load, Check], [CountHooks]);
  }

  ghost predicate NoRegistration(es: seq<Event>) {
    forall k :: 0 <= k < |es| ==> !es[k].Register?
  }

  /** A run of a server with these hooks: timers on time, no panic, no registration. */
  ghost predicate Regular(d: nat, tls: bool, hooks: seq<M.HookId>, es: seq<Event>) {
    Timely(d, Serving(tls, hooks), es) && NoPanic(es) && NoRegistration(es)
  }

  /** The run has a timely continuation, by the monitor task, the server task's exit and time alone, in which completion
      is sent within x of cancellation. */
  ghost predicate CanComplete(d: nat, tls: bool, hooks: seq<M.HookId>, es: seq<Event>, x: nat) {
    exists more :: Driven(more) && CompletesBy(d, tls, hooks, es + more, x)
  }

  ghost predicate CompletesBy(d: nat, tls: bool, hooks: seq<M.HookId>, es: seq<Event>, x: nat) {
    var s := Exec(d, Serving(tls, hooks), es);
    && Timely(d, Serving(tls, hooks), es)
    && s.cancelled.Some? && s.completion.Sent? && s.completion.at <= s.cancelled.value + x
  }

  /** Whatever happens, a server with these n hooks and no others completes within x of cancellation: completion is sent
      by then, and while it is not yet sent nothing is needed for it but that the monitor task goes on. */
  ghost predicate GuaranteedWithin(d: nat, tls: bool, hooks: seq<M.HookId>, x: nat) {
    forall es :: Regular(d, tls, hooks, es) ==> CompletionGuaranteed(d, tls, hooks, es, x)
  }

  ghost predicate CompletionGuaranteed(d: nat, tls: bool, hooks: seq<M.HookId>, es: seq<Event>, x: nat) {
    var s := Exec(d, Serving(tls, hooks), es);
    s.cancelled.Some? ==>
      && (s.now > s.cancelled.value + x ==> s.completion.Sent?)
      && (!s.completion.Sent? ==> CanComplete(d, tls, hooks, es, x))
  }

  lemma {:induction false} HooksStay(d: nat, s: State, es: seq<Event>)
    requires NoRegistration(es) && Visited(s) <= |s.hooks|
    ensures Exec(d, s, es).hooks == s.hooks && Visited(Exec(d, s, es)) <= |s.hooks|
  {
    if es != [] {
      hide Next;
      assert NoRegistration(es[..|es| - 1]);
      HooksStay(d, s, es[..|es| - 1]);
      HooksStep(d, Exec(d, s, es[..|es| - 1]), es[|es| - 1]);
    }
  }

  /** Neither a panic, nor a registration, nor a step of the waiting caller. */
  ghost predicate Undisturbed(es: seq<Event>) {
    NoPanic(es) && NoRegistration(es) && NoWaiterStep(es)
  }

  ghost predicate NoWaiterStep(es: seq<Event>) {
    forall k :: 0 <= k < |es| ==> !es[k].StartWaiting? && !es[k].WaitReturns?
  }

  lemma {:induction false} RoundsUndisturbed(n: nat)
    ensures Undisturbed(Polls(n)) && Undisturbed(Hangs(n))
  {
    if n > 0 {
      RoundsUndisturbed(n - 1);
    }
  }

  lemma MonitorUndisturbed(d: nat, tls: bool, n: nat)
    ensures Undisturbed(SlowestMonitor(d, tls, n))
  {
    RoundsUndisturbed(MAX_LOADS - 1);
    RoundsUndisturbed(n);
    hide Polls, Hangs;
  }

  /** A plan in which nobody is slow. */
  function Cooperative(): Plan {
    Plan(true, _ => M.ReturnsOk)
  }

  lemma NothingLost(d: nat, tls: bool, hooks: seq<M.HookId>, es: seq<Event>)
    requires Regular(d, tls, hooks, es)
    ensures !Exec(d, Serving(tls, hooks), es).completion.Lost?
  {
    RunIsSafe(d, tls, hooks, es);
    NoPanicNoUnwind(d, Serving(tls, hooks), es);
  }

  /** A run that is not driven on by registrations visits only the hooks it began with. */
  lemma LimitIsBound(d: nat, tls: bool, hooks: seq<M.HookId>, es: seq<Event>)
    requires Exec(d, Serving(tls, hooks), es).hooks == hooks
    ensures Limit(d, Exec(d, Serving(tls, hooks), es)) <= Bound(d, tls, |hooks|)
  {
    RunIsSafe(d, tls, hooks, es);
    TlsAlways(d, Serving(tls, hooks), es);
    hide Exec;
    var s := Exec(d, Serving(tls, hooks), es);
    assert Visited(s) <= |hooks|;
    BoundGrows(d, tls, Visited(s), |hooks|);
  }

  lemma CompletesInTime(d: nat, tls: bool, hooks: seq<M.HookId>, es: seq<Event>, x: nat)
    requires Regular(d, tls, hooks, es) && x >= Bound(d, tls, |hooks|)
    ensures CompletionGuaranteed(d, tls, hooks, es, x)
  {
    var s := Exec(d, Serving(tls, hooks), es);
    if s.cancelled.Some? {
      ShutdownDeadline(d, tls, hooks, es);
      HooksStay(d, Serving(tls, hooks), es);
      LimitIsBound(d, tls, hooks, es);
      NothingLost(d, tls, hooks, es);
      hide Exec, Timely, Limit;
      if !s.completion.Sent? {
        var more := ShutdownCompletes(d, tls, hooks, es, Cooperative());
        LimitIsBound(d, tls, hooks, es + more);
        assert CompletesBy(d, tls, hooks, es + more, x);
      }
    }
  }

  /** The deadline is exact: with n hooks, completion within x of cancellation is guaranteed if and only if
      x >= D + 35.1 s + 10 s * n with plain HTTP, and x >= 30.1 s + 10 s * n with TLS. */
  lemma DeadlineIsExact(d: nat, tls: bool, hooks: seq<M.HookId>, x: nat)
    ensures GuaranteedWithin(d, tls, hooks, x) <==>
            x >= (if tls then 30100 else d + 35100) + 10000 * |hooks|
  {
    var n := |hooks|;
    BoundInFull(d, tls, n);
    if x >= Bound(d, tls, n) {
      forall es | Regular(d, tls, hooks, es) ensures CompletionGuaranteed(d, tls, hooks, es, x) {
        CompletesInTime(d, tls, hooks, es, x);
      }
    } else {
      var es := SlowestRun(d, tls, n, x);
      SlowestRunReachesBound(d, tls, hooks, x);
      MonitorUndisturbed(d, tls, n);
      assert Regular(d, tls, hooks, es) by {
        hide SlowestMonitor, Exec, Timely;
      }
      hide SlowestRun;
      assert !CompletionGuaranteed(d, tls, hooks, es, x);
    }
  }

  lemma BoundInFull(d: nat, tls: bool, n: nat)
    ensures Bound(d, tls, n) == (if tls then 30100 else d + 35100) + 10000 * n
  {}

  // ----- Which waits are safe -----

  /** A wait for at most x that begins at or after cancellation. */
  predicate WaitsFor(w: Waiter, cancelled: Option<nat>, x: nat) {
    cancelled.Some? && !w.NotWaiting? && w.since >= cancelled.value && w.timeout == x
  }

  /** The run has a timely continuation, by the monitor task, the server task's exit and time alone, in which the wait
      returns Ok. */
  ghost predicate CanReturnOk(d: nat, tls: bool, hooks: seq<M.HookId>, es: seq<Event>) {
    exists more :: Driven(more) && ReturnsOkNext(d, tls, hooks, es + more)
  }

  ghost predicate ReturnsOkNext(d: nat, tls: bool, hooks: seq<M.HookId>, es: seq<Event>) {
    && Timely(d, Serving(tls, hooks), es + [WaitReturns])
    && Exec(d, Serving(tls, hooks), es + [WaitReturns]).waiter.Returned?
    && Exec(d, Serving(tls, hooks), es + [WaitReturns]).waiter.result.WaitOk?
  }

  /** Whatever happens, to a caller of a server with these n hooks and no others a wait for at most x returns Ok: no run
      ends it otherwise, and from every run in which it goes on it can come to that without the caller's or the clients'
      doing. */
  ghost predicate WaitSafe(d: nat, tls: bool, hooks: seq<M.HookId>, x: nat) {
    forall es :: Regular(d, tls, hooks, es) ==> WaitGuaranteed(d, tls, hooks, es, x)
  }

  ghost predicate WaitGuaranteed(d: nat, tls: bool, hooks: seq<M.HookId>, es: seq<Event>, x: nat) {
    var s := Exec(d, Serving(tls, hooks), es);
    WaitsFor(s.waiter, s.cancelled, x) ==>
      if s.waiter.Returned? then s.waiter.result.WaitOk? else CanReturnOk(d, tls, hooks, es)
  }

  lemma WaitGoesWell(d: nat, tls: bool, hooks: seq<M.HookId>, es: seq<Event>, x: nat)
    requires Regular(d, tls, hooks, es) && x > Bound(d, tls, |hooks|)
    ensures WaitGuaranteed(d, tls, hooks, es, x)
  {
    var s0 := Serving(tls, hooks);
    var s := Exec(d, s0, es);
    ShutdownDeadline(d, tls, hooks, es);
    HooksStay(d, s0, es);
    LimitIsBound(d, tls, hooks, es);
    NothingLost(d, tls, hooks, es);
    hide Exec, Timely, Limit;
    if s.waiter.Waiting? && s.cancelled.Some? {
      if s.completion.Sent? {
        SignalEndsWait(d, s);
        ExecSnoc(d, s0, es, WaitReturns);
        AppendNothing(es);
        assert Driven([]) && ReturnsOkNext(d, tls, hooks, es + []);
      } else {
        var more := WaitCanEnd(d, tls, hooks, es, Cooperative());
        assert ReturnsOkNext(d, tls, hooks, es + more);
      }
    }
  }

  lemma UndisturbedStep(d: nat, s: State, e: Event)
    requires !e.StartWaiting? && !e.WaitReturns? && s.cancelled.Some?
    ensures Next(d, s, e).waiter == s.waiter && Next(d, s, e).cancelled == s.cancelled
    ensures Next(d, s, e).completion.Pending? ==> s.completion.Pending?
    ensures Next(d, s, e).now == s.now + if e.Advance? then e.ms else 0
  {}

  lemma {:induction false} CallerKeepsWaiting(d: nat, s: State, es: seq<Event>)
    requires NoWaiterStep(es) && s.cancelled.Some?
    ensures Exec(d, s, es).waiter == s.waiter && Exec(d, s, es).cancelled == s.cancelled
  {
    if es != [] {
      hide Next;
      assert NoWaiterStep(es[..|es| - 1]);
      CallerKeepsWaiting(d, s, es[..|es| - 1]);
      UndisturbedStep(d, Exec(d, s, es[..|es| - 1]), es[|es| - 1]);
    }
  }

  lemma AdvanceStep(d: nat, s: State, ms: nat)
    ensures Next(d, s, Advance(ms)) == s.(now := s.now + ms)
  {}

  lemma AdvanceLess(s: State, ms: nat, less: nat)
    requires CanAdvance(s, ms) && less <= ms
    ensures CanAdvance(s, less)
  {}

  /** A timely run can be stopped at any instant it lasts through. */
  lemma {:induction false} StopAt(d: nat, s: State, es: seq<Event>, t: nat) returns (cut: seq<Event>)
    requires Timely(d, s, es) && Undisturbed(es) && s.cancelled.Some?
    requires s.now <= t <= Exec(d, s, es).now && Exec(d, s, es).completion.Pending?
    ensures Timely(d, s, cut) && Undisturbed(cut)
    ensures Exec(d, s, cut).now == t && Exec(d, s, cut).completion.Pending?
  {
    if es == [] {
      cut := [];
    } else {
      hide Next, CanAdvance;
      var init, e := es[..|es| - 1], es[|es| - 1];
      var before := Exec(d, s, init);
      assert Undisturbed(init);
      CallerKeepsWaiting(d, s, init);
      UndisturbedStep(d, before, e);
      if before.now >= t {
        cut := StopAt(d, s, init, t);
      } else {
        cut := init + [Advance(t - before.now)];
        AdvanceLess(before, e.ms, t - before.now);
        AdvanceStep(d, before, t - before.now);
        ExecSnoc(d, s, init, Advance(t - before.now));
      }
    }
  }

  /** A wait as long as the bound or shorter can time out, even for a caller whose own timer fires at once. */
  lemma ShortWaitTimesOut(d: nat, tls: bool, hooks: seq<M.HookId>, x: nat) returns (es: seq<Event>)
    requires x <= Bound(d, tls, |hooks|)
    ensures Regular(d, tls, hooks, es)
    ensures
      var s := Exec(d, Serving(tls, hooks), es);
      s.cancelled == Some(0) && s.waiter == Returned(0, x, Timeout, x)
  {
    hide Exec, Timely, SlowestMonitor;
    var s0 := Serving(tls, hooks);
    EntryEffect(d, tls, hooks, x);
    var s1 := Exec(d, s0, Entry(tls, x));
    SlowestMonitorEffect(d, s1);
    MonitorUndisturbed(d, tls, |hooks|);
    var cut := StopAt(d, s1, SlowestMonitor(d, tls, |hooks|), x);
    CallerKeepsWaiting(d, s1, cut);
    ExecConcat(d, s0, Entry(tls, x), cut);
    ExecSnoc(d, s0, Entry(tls, x) + cut, WaitReturns);
    es := Entry(tls, x) + cut + [WaitReturns];
  }

  /** A longer wait than the bound outlasts even the slowest shutdown and returns Ok when that ends, at the bound. */
  lemma LongWaitReturnsOk(d: nat, tls: bool, hooks: seq<M.HookId>, x: nat) returns (es: seq<Event>)
    requires x > Bound(d, tls, |hooks|)
    ensures Regular(d, tls, hooks, es)
    ensures
      var s := Exec(d, Serving(tls, hooks), es);
      s.cancelled == Some(0) && s.waiter == Returned(0, x, WaitOk, Bound(d, tls, |hooks|))
  {
    hide Exec, Timely, SlowestMonitor;
    var s0, monitor := Serving(tls, hooks), SlowestMonitor(d, tls, |hooks|);
    EntryEffect(d, tls, hooks, x);
    var s1 := Exec(d, s0, Entry(tls, x));
    SlowestMonitorEffect(d, s1);
    MonitorUndisturbed(d, tls, |hooks|);
    CallerKeepsWaiting(d, s1, monitor);
    ExecConcat(d, s0, Entry(tls, x), monitor);
    TwoSteps(d, Exec(d, s1, monitor), Complete, WaitReturns);
    ExecConcat(d, s0, Entry(tls, x) + monitor, [Complete, WaitReturns]);
    es := Entry(tls, x) + monitor + [Complete, WaitReturns];
  }

  /** Exactly which waits are safe: with n hooks, a wait for x that begins at or after cancellation is certain to return
      Ok if and only if x > D + 35.1 s + 10 s * n with plain HTTP, and x > 30.1 s + 10 s * n with TLS. */
  lemma WaitIsSafeIff(d: nat, tls: bool, hooks: seq<M.HookId>, x: nat)
    ensures WaitSafe(d, tls, hooks, x) <==> x > (if tls then 30100 else d + 35100) + 10000 * |hooks|
  {
    BoundInFull(d, tls, |hooks|);
    if x > Bound(d, tls, |hooks|) {
      forall es | Regular(d, tls, hooks, es) ensures WaitGuaranteed(d, tls, hooks, es, x) {
        WaitGoesWell(d, tls, hooks, es, x);
      }
    } else {
      var es := ShortWaitTimesOut(d, tls, hooks, x);
      hide Exec, Timely;
      assert !WaitGuaranteed(d, tls, hooks, es, x);
    }
  }

  /** The server gives 70% of its budget T to the HTTP drain, and its runner cancels and waits T for completion. With
      T = 10 * t ms that wait is certain to return Ok, with plain HTTP, if and only if 3 * t > 35.1 s + 10 s * n, and
      with TLS, where the drain share is not used, if and only if T > 30.1 s + 10 s * n. So up to 117 s plus 33.3 s per
      hook, or 30.1 s plus 10 s per hook, a legal shutdown outlasts the budget it was planned for; the 30 s an embedded
      server uses are too short in either case, whatever its hooks. */
  lemma BudgetIsEnoughIff(t: nat, tls: bool, hooks: seq<M.HookId>)
    ensures WaitSafe(7 * t, tls, hooks, 10 * t) <==>
            if tls then 10 * t > 30100 + 10000 * |hooks| else 3 * t > 35100 + 10000 * |hooks|
  {
    WaitIsSafeIff(7 * t, tls, hooks, 10 * t);
  }
}
