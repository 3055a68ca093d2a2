// The graceful-shutdown protocol as a machine over interleavings: requests and TLS connections taking and dropping
// guards, late registrations, cancellation, the server task ending early, the monitor task, and the caller that waits.
module Shutdown {
  import opened Wrappers
  import opened Seqs
  import G = RequestGuards
  import M = Managers

  // All times are in milliseconds.
  const JOIN_SLACK: nat := 5000
  const DRAIN_TIMEOUT: nat := 30000
  const POLL_INTERVAL: nat := 100
  const PER_MANAGER_TIMEOUT: nat := M.PER_MANAGER_TIMEOUT
  /** Polls that can find a busy counter without the elapsed time exceeding the drain timeout, plus the one after. */
  const MAX_LOADS: nat := 302

  /** What the monitor task is about to do or waiting for. */
  datatype Phase =
    | Racing
    | Joining(deadline: nat)
    | Loading(start: nat, loads: nat)
    | Checking(start: nat, loads: nat)
    | Sleeping(start: nat, loads: nat, wake: nat)
    | Counting
    | Fetching(next: nat)
    | Running(next: nat, hook: M.HookId, started: nat)
    | Finished
    | Unwound

  /** How the drain ended: on a zero counter, with the number of guards then alive, or past its timeout. */
  datatype DrainExit = Drained(at: nat, live: nat, loads: nat) | GaveUp(at: nat, start: nat, loads: nat)

  datatype Attempt = Attempt(index: nat, hook: M.HookId, started: nat, ended: nat, outcome: M.HookOutcome)

  datatype Completion = Pending | Sent(at: nat) | Lost
  datatype WaitResult = WaitOk | Timeout | SignalLost
  datatype Waiter =
    | NotWaiting
    | Waiting(since: nat, timeout: nat)
    | Returned(since: nat, timeout: nat, result: WaitResult, at: nat)

  /** `trigger`, `drain`, `snapshot` and `attempts` record what has happened; the protocol does not read them back,
      except for the length of the snapshot. */
  datatype State = State(
    now: nat, guards: G.Guards, hooks: seq<M.HookId>,
    cancelled: Option<nat>, serverDone: bool, phase: Phase, completion: Completion, waiter: Waiter,
    trigger: Option<nat>, drain: Option<DrainExit>, snapshot: Option<seq<M.HookId>>, attempts: seq<Attempt>)

  datatype Event =
    // The environment
    | Advance(ms: nat)
    | Cancel
    | ServerExit
    | Register(hook: M.HookId)
    | Guard(event: G.GuardEvent)
    | StartWaiting(timeout: nat)
    | WaitReturns
    // The monitor task
    | SelectCancel
    | SelectExit
    | JoinReturns
    | JoinTimesOut
    | Load
    | Check
    | Wake
    | CountHooks
    | FetchHook
    | HookReturns(ok: bool)
    | HookTimesOut
    | HookPanics
    | Complete

  predicate Enabled(s: State, e: Event) {
    match e
    case Advance(_) => true
    case Cancel => s.cancelled.None?
    case ServerExit => !s.serverDone
    case Register(_) => true
    case Guard(_) => true
    case StartWaiting(_) => s.waiter.NotWaiting?
    case WaitReturns => s.waiter.Waiting? && (!s.completion.Pending? || s.now >= s.waiter.since + s.waiter.timeout)
    case SelectCancel => s.phase.Racing? && s.cancelled.Some?
    case SelectExit => s.phase.Racing? && s.serverDone
    case JoinReturns => s.phase.Joining? && s.serverDone
    case JoinTimesOut => s.phase.Joining? && s.now >= s.phase.deadline
    case Load => s.phase.Loading?
    case Check => s.phase.Checking?
    case Wake => s.phase.Sleeping? && s.now >= s.phase.wake
    case CountHooks => s.phase.Counting?
    case FetchHook => s.phase.Fetching? && s.phase.next > 0
    case HookReturns(_) => s.phase.Running?
    case HookTimesOut => s.phase.Running? && s.now >= s.phase.started + PER_MANAGER_TIMEOUT
    case HookPanics => s.phase.Running?
    case Complete => s.phase.Fetching? && s.phase.next == 0
  }

  function EndAttempt(s: State, outcome: M.HookOutcome): seq<Attempt>
    requires s.phase.Running?
  {
    s.attempts + [Attempt(s.phase.next, s.phase.hook, s.phase.started, s.now, outcome)]
  }

  predicate ByEnvironment(e: Event) {
    e.Advance? || e.Cancel? || e.ServerExit? || e.Register? || e.Guard? || e.StartWaiting? || e.WaitReturns?
  }

  function Around(s: State, e: Event): State
    requires ByEnvironment(e) && Enabled(s, e)
  {
    match e
    case Advance(ms) => s.(now := s.now + ms)
    case Cancel => s.(cancelled := Some(s.now))
    case ServerExit => s.(serverDone := true)
    case Register(h) => s.(hooks := s.hooks + [h])
    case Guard(g) => s.(guards := G.Step(s.guards, g))
    case StartWaiting(timeout) => s.(waiter := Waiting(s.now, timeout))
    case WaitReturns =>
      var result := match s.completion case Sent(_) => WaitOk case Lost => SignalLost case Pending => Timeout;
      s.(waiter := Returned(s.waiter.since, s.waiter.timeout, result, s.now))
  }

  /** One step of the monitor task; drainTimeout is the HTTP share of the shutdown budget. */
  function Monitor(drainTimeout: nat, s: State, e: Event): State
    requires !ByEnvironment(e) && Enabled(s, e)
  {
    match e
    case SelectCancel => s.(phase := Joining(s.now + drainTimeout + JOIN_SLACK), trigger := Some(s.now))
    case SelectExit => s.(phase := Loading(s.now, 0), trigger := Some(s.now))
    case JoinReturns => s.(phase := Loading(s.now, 0))
    case JoinTimesOut => s.(phase := Loading(s.now, 0))
    case Load =>
      if s.guards.active == 0
      then s.(phase := Counting, drain := Some(Drained(s.now, G.Live(s.guards), s.phase.loads + 1)))
      else s.(phase := Checking(s.phase.start, s.phase.loads + 1))
    case Check =>
      if s.now > s.phase.start + DRAIN_TIMEOUT
      then s.(phase := Counting, drain := Some(GaveUp(s.now, s.phase.start, s.phase.loads)))
      else s.(phase := Sleeping(s.phase.start, s.phase.loads, s.now + POLL_INTERVAL))
    case Wake => s.(phase := Loading(s.phase.start, s.phase.loads))
    case CountHooks => s.(phase := Fetching(|s.hooks|), snapshot := Some(s.hooks))
    case FetchHook =>
      var i := s.phase.next - 1;
      s.(phase := if i < |s.hooks| then Running(i, s.hooks[i], s.now) else Fetching(i))
    case HookReturns(ok) =>
      s.(phase := Fetching(s.phase.next), attempts := EndAttempt(s, if ok then M.ReturnsOk else M.ReturnsErr))
    case HookTimesOut => s.(phase := Fetching(s.phase.next), attempts := EndAttempt(s, M.TimesOut))
    case HookPanics => s.(phase := Unwound, attempts := EndAttempt(s, M.Panics), completion := Lost)
    case Complete => s.(phase := Finished, completion := Sent(s.now))
  }

  function Next(drainTimeout: nat, s: State, e: Event): State {
    if !Enabled(s, e) then s else if ByEnvironment(e) then Around(s, e) else Monitor(drainTimeout, s, e)
  }

  function Exec(drainTimeout: nat, s: State, es: seq<Event>): State {
    if es == [] then s else Next(drainTimeout, Exec(drainTimeout, s, es[..|es| - 1]), es[|es| - 1])
  }

  /** A server that has just been started with the given hooks. */
  function Serving(tls: bool, hooks: seq<M.HookId>): State {
    State(0, G.NoGuards(tls), hooks, None, false, Racing, Pending, NotWaiting, None, None, None, [])
  }

  // ----- What every state of every run satisfies -----

  ghost predicate DrainRecorded(s: State) {
    && (s.drain.Some? <==>
          s.phase.Counting? || s.phase.Fetching? || s.phase.Running? || s.phase.Finished? || s.phase.Unwound?)
    && (s.drain.Some? ==>
          var d := s.drain.value;
          && d.at <= s.now
          && 1 <= d.loads <= MAX_LOADS
          && (d.Drained? ==> d.live % G.WORD == 0)
          && (d.GaveUp? ==> d.at > d.start + DRAIN_TIMEOUT))
  }

  /** The drain loop's variant: each poll leaves at least 100 ms less of the timeout. */
  ghost predicate DrainProgress(s: State) {
    match s.phase
    case Loading(start, loads) => loads < MAX_LOADS && s.now >= start + POLL_INTERVAL * loads
    case Checking(start, loads) => 1 <= loads <= MAX_LOADS && s.now >= start + POLL_INTERVAL * (loads - 1)
    case Sleeping(start, loads, wake) => 1 <= loads < MAX_LOADS && wake >= start + POLL_INTERVAL * loads
    case _ => true
  }

  /** Attempts visit the snapshot from its end, one after the other, after the drain; a panic can only be the last. */
  ghost predicate AttemptsInOrder(attempts: seq<Attempt>, snapshot: seq<M.HookId>, drainedAt: nat, now: nat) {
    && |attempts| <= |snapshot|
    && (forall k :: 0 <= k < |attempts| ==>
          var a := attempts[k];
          && a.index == |snapshot| - 1 - k && a.hook == snapshot[a.index]
          && drainedAt <= a.started <= a.ended <= now
          && (a.outcome.TimesOut? ==> a.ended - a.started >= PER_MANAGER_TIMEOUT))
    && (forall j, k :: 0 <= j < k < |attempts| ==>
          attempts[j].ended <= attempts[k].started && !attempts[j].outcome.Panics?)
  }

  /** All attempts are over by t, and none panicked. */
  ghost predicate QuietSince(attempts: seq<Attempt>, t: nat) {
    forall k :: 0 <= k < |attempts| ==> attempts[k].ended <= t && !attempts[k].outcome.Panics?
  }

  /** How far the visit of the snapshot has got. */
  ghost predicate VisitAt(
    phase: Phase, attempts: seq<Attempt>, snapshot: seq<M.HookId>, drainedAt: nat, now: nat)
  {
    match phase
    case Fetching(next) => next + |attempts| == |snapshot| && QuietSince(attempts, now)
    case Running(next, hook, started) =>
      && next + 1 + |attempts| == |snapshot| && hook == snapshot[next]
      && drainedAt <= started <= now && QuietSince(attempts, started)
    case Finished => |attempts| == |snapshot| && QuietSince(attempts, now)
    case Unwound => attempts != [] && attempts[|attempts| - 1].outcome.Panics?
    case _ => false
  }

  ghost predicate ShutdownOrdered(s: State) {
    && (s.snapshot.Some? <==> s.phase.Fetching? || s.phase.Running? || s.phase.Finished? || s.phase.Unwound?)
    && (s.snapshot.None? ==> s.attempts == [])
    && (s.snapshot.Some? ==>
          && s.drain.Some?
          && s.snapshot.value <= s.hooks
          && AttemptsInOrder(s.attempts, s.snapshot.value, s.drain.value.at, s.now)
          && VisitAt(s.phase, s.attempts, s.snapshot.value, s.drain.value.at, s.now))
  }

  ghost predicate SignalsMatch(s: State) {
    && (s.completion.Sent? <==> s.phase.Finished?)
    && (s.completion.Lost? <==> s.phase.Unwound?)
    && (s.waiter.Returned? && s.waiter.result.WaitOk? ==> s.completion.Sent?)
    && (s.waiter.Returned? && s.waiter.result.SignalLost? ==> s.completion.Lost?)
    && (s.waiter.Returned? && s.waiter.result.Timeout? ==> s.waiter.at >= s.waiter.since + s.waiter.timeout)
  }

  ghost predicate Safe(s: State) {
    G.Balanced(s.guards) && DrainRecorded(s) && DrainProgress(s) && ShutdownOrdered(s) && SignalsMatch(s)
  }

  lemma DrainAround(s: State, e: Event)
    requires DrainRecorded(s) && DrainProgress(s)
    requires ByEnvironment(e) && Enabled(s, e)
    ensures DrainRecorded(Around(s, e)) && DrainProgress(Around(s, e))
  {}

  lemma DrainMonitor(d: nat, s: State, e: Event)
    requires G.Balanced(s.guards) && DrainRecorded(s) && DrainProgress(s)
    requires !ByEnvironment(e) && Enabled(s, e)
    ensures DrainRecorded(Monitor(d, s, e)) && DrainProgress(Monitor(d, s, e))
  {}

  lemma DrainStep(d: nat, s: State, e: Event)
    requires G.Balanced(s.guards) && DrainRecorded(s) && DrainProgress(s)
    ensures DrainRecorded(Next(d, s, e)) && DrainProgress(Next(d, s, e))
  {
    if Enabled(s, e) {
      if ByEnvironment(e) { DrainAround(s, e); } else { DrainMonitor(d, s, e); }
    }
    hide DrainRecorded, DrainProgress, Around, Monitor;
  }

  lemma TimePasses(s: State, later: nat)
    requires ShutdownOrdered(s) && s.now <= later
    ensures ShutdownOrdered(s.(now := later))
  {}

  /** Recording the end of the running hook's attempt keeps the order. */
  lemma AttemptAppended(
    attempts: seq<Attempt>, snapshot: seq<M.HookId>, drainedAt: nat, now: nat, phase: Phase, outcome: M.HookOutcome)
    requires AttemptsInOrder(attempts, snapshot, drainedAt, now)
    requires phase.Running? && VisitAt(phase, attempts, snapshot, drainedAt, now)
    requires outcome.TimesOut? ==> now - phase.started >= PER_MANAGER_TIMEOUT
    ensures
      var all := attempts + [Attempt(phase.next, phase.hook, phase.started, now, outcome)];
      && AttemptsInOrder(all, snapshot, drainedAt, now)
      && VisitAt(if outcome.Panics? then Unwound else Fetching(phase.next), all, snapshot, drainedAt, now)
  {}

  lemma HookEnds(d: nat, s: State, e: Event)
    requires ShutdownOrdered(s) && Enabled(s, e)
    requires e.HookReturns? || e.HookTimesOut? || e.HookPanics?
    ensures ShutdownOrdered(Next(d, s, e))
  {
    var outcome := match e
      case HookReturns(ok) => if ok then M.ReturnsOk else M.ReturnsErr
      case HookTimesOut => M.TimesOut
      case _ => M.Panics;
    AttemptAppended(s.attempts, s.snapshot.value, s.drain.value.at, s.now, s.phase, outcome);
  }

  lemma OrderAround(s: State, e: Event)
    requires ShutdownOrdered(s) && ByEnvironment(e) && Enabled(s, e)
    ensures ShutdownOrdered(Around(s, e))
  {
    if e.Advance? {
      TimePasses(s, s.now + e.ms);
    }
  }

  lemma OrderStep(d: nat, s: State, e: Event)
    requires DrainRecorded(s) && ShutdownOrdered(s)
    ensures ShutdownOrdered(Next(d, s, e))
  {
    if Enabled(s, e) {
      if ByEnvironment(e) {
        OrderAround(s, e);
      } else if e.HookReturns? || e.HookTimesOut? || e.HookPanics? {
        HookEnds(d, s, e);
      }
    }
    hide Around;
  }

  lemma SignalsStep(d: nat, s: State, e: Event)
    requires SignalsMatch(s)
    ensures SignalsMatch(Next(d, s, e))
  {}

  lemma GuardsStep(d: nat, s: State, e: Event)
    requires G.Balanced(s.guards)
    ensures G.Balanced(Next(d, s, e).guards)
  {
    if e.Guard? {
      G.BalancedStep(s.guards, e.event);
    }
    hide G.Balanced, G.Step;
  }

  lemma SafeStep(d: nat, s: State, e: Event)
    requires Safe(s)
    ensures Safe(Next(d, s, e))
  {
    hide Next, DrainRecorded, DrainProgress, ShutdownOrdered, SignalsMatch, G.Balanced;
    GuardsStep(d, s, e);
    DrainStep(d, s, e);
    OrderStep(d, s, e);
    SignalsStep(d, s, e);
  }

  lemma {:induction false} RunIsSafe(d: nat, tls: bool, hooks: seq<M.HookId>, es: seq<Event>)
    ensures Safe(Exec(d, Serving(tls, hooks), es))
  {
    if es == [] {
      G.RunBalanced(tls, []);
    } else {
      hide Next, Safe;
      RunIsSafe(d, tls, hooks, es[..|es| - 1]);
      SafeStep(d, Exec(d, Serving(tls, hooks), es[..|es| - 1]), es[|es| - 1]);
    }
  }

  function HooksOf(attempts: seq<Attempt>): (hooks: seq<M.HookId>)
    ensures |hooks| == |attempts|
  {
    seq(|attempts|, k requires 0 <= k < |attempts| => attempts[k].hook)
  }

  lemma AttemptsReverse(attempts: seq<Attempt>, snapshot: seq<M.HookId>, drainedAt: nat, now: nat)
    requires AttemptsInOrder(attempts, snapshot, drainedAt, now)
    ensures HooksOf(attempts) <= Reverse(snapshot)
  {
    forall k | 0 <= k < |attempts| ensures HooksOf(attempts)[k] == Reverse(snapshot)[k] {
      assert attempts[k].index == |snapshot| - 1 - k;
    }
  }

  /** Shutdown safety: in every interleaving, when the caller's wait returns Ok then every hook present when the hooks
      were counted (all those the server started with, and any registered since) has been attempted exactly once, in
      strictly reverse registration order, one at a time and none of them panicking; and all attempts came after the
      drain loop had, within 302 loads, either seen a zero counter (with fewer than 2^64 guards: when no guard was
      alive) or run for more than 30 s. */
  lemma ShutdownSafety(d: nat, tls: bool, hooks: seq<M.HookId>, es: seq<Event>)
    ensures
      var s := Exec(d, Serving(tls, hooks), es);
      s.waiter.Returned? && s.waiter.result.WaitOk? ==>
        && s.snapshot.Some? && s.drain.Some?
        && hooks <= s.snapshot.value <= s.hooks
        && HooksOf(s.attempts) == Reverse(s.snapshot.value)
        && (forall k :: 0 <= k < |s.attempts| ==>
              s.attempts[k].started >= s.drain.value.at && !s.attempts[k].outcome.Panics?)
        && (forall j, k :: 0 <= j < k < |s.attempts| ==> s.attempts[j].ended <= s.attempts[k].started)
        && s.drain.value.loads <= MAX_LOADS
        && (s.drain.value.Drained? && s.drain.value.live < G.WORD ==> s.drain.value.live == 0)
        && (s.drain.value.GaveUp? ==> s.drain.value.at - s.drain.value.start > DRAIN_TIMEOUT)
  {
    hide Exec;
    RunIsSafe(d, tls, hooks, es);
    HooksOnlyGrow(d, Serving(tls, hooks), es);
    var s := Exec(d, Serving(tls, hooks), es);
    if s.snapshot.Some? {
      AttemptsReverse(s.attempts, s.snapshot.value, s.drain.value.at, s.now);
    }
  }

  lemma HooksStep(d: nat, s: State, e: Event)
    ensures
      var s' := Next(d, s, e);
      && s.hooks <= s'.hooks
      && (s'.hooks != s.hooks ==> e.Register?)
      && (s'.snapshot == s.snapshot || s'.snapshot == Some(s.hooks))
  {}

  /** Registration only appends, so an index always names the same hook and the snapshot covers all earlier hooks. */
  lemma {:induction false} HooksOnlyGrow(d: nat, s: State, es: seq<Event>)
    requires s.snapshot.None?
    ensures s.hooks <= Exec(d, s, es).hooks
    ensures Exec(d, s, es).snapshot.Some? ==> s.hooks <= Exec(d, s, es).snapshot.value
  {
    if es != [] {
      hide Next;
      HooksOnlyGrow(d, s, es[..|es| - 1]);
      HooksStep(d, Exec(d, s, es[..|es| - 1]), es[|es| - 1]);
    }
  }

  /** The attempts are a prefix of the reversed snapshot, none precedes the end of the drain, the next hook to fetch
      exists, and the signal is lost exactly when the last attempt panicked. */
  ghost predicate PrefixAttempted(s: State) {
    && (s.drain.None? ==> s.attempts == [])
    && (s.snapshot.Some? ==>
          && HooksOf(s.attempts) <= Reverse(s.snapshot.value)
          && (s.phase.Fetching? ==> s.phase.next <= |s.hooks|))
    && (s.completion.Lost? <==> s.attempts != [] && s.attempts[|s.attempts| - 1].outcome.Panics?)
  }

  /** Even an unfinished or unwound shutdown has attempted a prefix of the reversed snapshot. */
  lemma AttemptsArePrefix(d: nat, tls: bool, hooks: seq<M.HookId>, es: seq<Event>)
    ensures PrefixAttempted(Exec(d, Serving(tls, hooks), es))
  {
    RunIsSafe(d, tls, hooks, es);
    hide Exec;
    var s := Exec(d, Serving(tls, hooks), es);
    if s.snapshot.Some? {
      AttemptsReverse(s.attempts, s.snapshot.value, s.drain.value.at, s.now);
    }
  }

  // ----- The caller's wait -----

  /** When the signal was given: sent, or lost with the panic of the last attempt. */
  function SignalAt(s: State): Option<nat> {
    match s.completion
    case Sent(at) => Some(at)
    case Lost => if s.attempts == [] then None else Some(s.attempts[|s.attempts| - 1].ended)
    case Pending => None
  }

  /** A wait returns what had happened to the signal by the time it returned, and Timeout only after its timeout. */
  ghost predicate WaitToldRight(s: State) {
    && (SignalAt(s).Some? ==> SignalAt(s).value <= s.now)
    && (s.waiter.Waiting? ==> s.waiter.since <= s.now)
    && (s.waiter.Returned? ==>
          && s.waiter.since <= s.waiter.at <= s.now
          && match s.waiter.result
             case WaitOk => s.completion.Sent? && s.completion.at <= s.waiter.at
             case SignalLost => s.completion.Lost? && SignalAt(s).Some? && SignalAt(s).value <= s.waiter.at
             case Timeout =>
               && s.waiter.at >= s.waiter.since + s.waiter.timeout
               && (SignalAt(s).Some? ==> SignalAt(s).value >= s.waiter.at))
  }

  lemma WaitAround(s: State, e: Event)
    requires WaitToldRight(s) && (s.completion.Lost? ==> s.attempts != []) && ByEnvironment(e) && Enabled(s, e)
    ensures WaitToldRight(Around(s, e))
  {}

  lemma WaitMonitor(d: nat, s: State, e: Event)
    requires WaitToldRight(s) && SignalsMatch(s) && !ByEnvironment(e) && Enabled(s, e)
    ensures WaitToldRight(Monitor(d, s, e))
  {}

  lemma WaitStep(d: nat, s: State, e: Event)
    requires WaitToldRight(s) && SignalsMatch(s) && (s.completion.Lost? ==> s.attempts != [])
    ensures WaitToldRight(Next(d, s, e))
  {
    if Enabled(s, e) {
      if ByEnvironment(e) { WaitAround(s, e); } else { WaitMonitor(d, s, e); }
    }
    hide WaitToldRight, Around, Monitor;
  }

  lemma LostByAttempt(s: State)
    requires ShutdownOrdered(s) && SignalsMatch(s)
    ensures s.completion.Lost? ==> s.attempts != []
  {}

  lemma {:induction false} WaitsToldRight(d: nat, tls: bool, hooks: seq<M.HookId>, es: seq<Event>)
    ensures WaitToldRight(Exec(d, Serving(tls, hooks), es))
  {
    if es != [] {
      var before := Exec(d, Serving(tls, hooks), es[..|es| - 1]);
      WaitsToldRight(d, tls, hooks, es[..|es| - 1]);
      RunIsSafe(d, tls, hooks, es[..|es| - 1]);
      hide Next, WaitToldRight;
      LostByAttempt(before);
      WaitStep(d, before, es[|es| - 1]);
    }
  }

  /** The caller's wait in every interleaving: Ok means that the signal had been sent, SignalLost that a hook's panic had
      destroyed it, Timeout that the timeout had passed with neither having happened before the wait returned. So a
      signal sent or lost before the timeout has passed always decides the result. */
  lemma WaitReturnsTheSignal(d: nat, tls: bool, hooks: seq<M.HookId>, es: seq<Event>)
    ensures
      var s := Exec(d, Serving(tls, hooks), es);
      s.waiter.Returned? ==>
        && (s.waiter.result.WaitOk? ==> s.completion.Sent? && s.completion.at <= s.waiter.at)
        && (s.waiter.result.SignalLost? ==> s.completion.Lost? && SignalAt(s).Some? && SignalAt(s).value <= s.waiter.at)
        && (s.waiter.result.Timeout? ==>
              && s.waiter.at >= s.waiter.since + s.waiter.timeout
              && (SignalAt(s).Some? ==> SignalAt(s).value >= s.waiter.at))
        && (SignalAt(s).Some? && SignalAt(s).value < s.waiter.since + s.waiter.timeout ==>
              s.waiter.result == if s.completion.Sent? then WaitOk else SignalLost)
  {
    hide Exec;
    WaitsToldRight(d, tls, hooks, es);
    RunIsSafe(d, tls, hooks, es);
  }

  // ----- What the environment does is not lost -----

  function RegisteredIn(es: seq<Event>): seq<M.HookId> {
    if es == [] then [] else
    RegisteredIn(es[..|es| - 1]) + if es[|es| - 1].Register? then [es[|es| - 1].hook] else []
  }

  function GuardsIn(es: seq<Event>): seq<G.GuardEvent> {
    if es == [] then [] else
    GuardsIn(es[..|es| - 1]) + if es[|es| - 1].Guard? then [es[|es| - 1].event] else []
  }

  function TimeIn(es: seq<Event>): nat {
    if es == [] then 0 else TimeIn(es[..|es| - 1]) + if es[|es| - 1].Advance? then es[|es| - 1].ms else 0
  }

  /** Time passes; the server task ends, the caller cancels and begins to wait the first time they are said to. */
  ghost predicate SignalsTakePlace(s: State, es: seq<Event>) {
    && s.now == TimeIn(es)
    && (s.cancelled.Some? <==> Cancel in es)
    && (s.serverDone <==> ServerExit in es)
    && (s.waiter.NotWaiting? <==> forall k :: 0 <= k < |es| ==> !es[k].StartWaiting?)
  }

  lemma SignalTakesPlace(d: nat, s: State, es: seq<Event>, e: Event)
    requires SignalsTakePlace(s, es)
    ensures SignalsTakePlace(Next(d, s, e), es + [e])
    ensures s.cancelled.None? && e.Cancel? ==> Next(d, s, e).cancelled == Some(s.now)
    ensures s.waiter.NotWaiting? && e.StartWaiting? ==> Next(d, s, e).waiter == Waiting(s.now, e.timeout)
  {
    SnocParts(es, e);
    assert forall k :: 0 <= k < |es| ==> (es + [e])[k] == es[k];
  }

  /** In every run the signals of the environment take place whatever the monitor task is doing. */
  lemma {:induction false} SignalsAlwaysTakePlace(d: nat, tls: bool, hooks: seq<M.HookId>, es: seq<Event>)
    ensures SignalsTakePlace(Exec(d, Serving(tls, hooks), es), es)
  {
    if es != [] {
      hide Next, SignalsTakePlace;
      var init, e := es[..|es| - 1], es[|es| - 1];
      SignalsAlwaysTakePlace(d, tls, hooks, init);
      SignalTakesPlace(d, Exec(d, Serving(tls, hooks), init), init, e);
      assert es == init + [e];
    }
  }

  /** The join is patient: once a shutdown has begun, the drain has not, as long as the server task has neither ended nor
      had all of its time. */
  ghost predicate JoinPatient(d: nat, s: State) {
    && (s.phase.Racing? <==> s.trigger.None?)
    && (s.trigger.Some? && !s.serverDone ==>
          match s.phase
          case Joining(deadline) => deadline == s.trigger.value + d + 5000
          case Loading(start, _) => start >= s.trigger.value + d + 5000 && s.now >= start
          case Checking(start, _) => start >= s.trigger.value + d + 5000 && s.now >= start
          case Sleeping(start, _, _) => start >= s.trigger.value + d + 5000 && s.now >= start
          case _ => s.now >= s.trigger.value + d + 5000)
  }

  lemma JoinStep(d: nat, s: State, e: Event)
    requires JoinPatient(d, s)
    ensures JoinPatient(d, Next(d, s, e))
  {}

  lemma {:induction false} JoinIsPatient(d: nat, tls: bool, hooks: seq<M.HookId>, es: seq<Event>)
    ensures JoinPatient(d, Exec(d, Serving(tls, hooks), es))
  {
    if es != [] {
      hide Next, JoinPatient;
      JoinIsPatient(d, tls, hooks, es[..|es| - 1]);
      JoinStep(d, Exec(d, Serving(tls, hooks), es[..|es| - 1]), es[|es| - 1]);
    }
  }

  lemma EnvironmentStep(d: nat, s: State, e: Event)
    ensures Next(d, s, e).hooks == s.hooks + if e.Register? then [e.hook] else []
    ensures Next(d, s, e).guards == if e.Guard? then G.Step(s.guards, e.event) else s.guards
  {
    AppendNothing(s.hooks);
    hide G.Step;
  }

  /** In every run every registration takes place, at any time, and the guards are those of the guard events alone. */
  lemma {:induction false} EnvironmentTakesPlace(d: nat, tls: bool, hooks: seq<M.HookId>, es: seq<Event>)
    ensures Exec(d, Serving(tls, hooks), es).hooks == hooks + RegisteredIn(es)
    ensures Exec(d, Serving(tls, hooks), es).guards == G.Run(G.NoGuards(tls), GuardsIn(es))
  {
    if es == [] {
      AppendNothing(hooks);
    } else {
      hide Next, G.Step;
      var init, e := es[..|es| - 1], es[|es| - 1];
      EnvironmentTakesPlace(d, tls, hooks, init);
      EnvironmentStep(d, Exec(d, Serving(tls, hooks), init), e);
      if e.Register? {
        Assoc(hooks, RegisteredIn(init), [e.hook]);
      } else {
        AppendNothing(RegisteredIn(init));
        AppendNothing(hooks + RegisteredIn(init));
      }
      if e.Guard? {
        SnocParts(GuardsIn(init), e.event);
      } else {
        AppendNothing(GuardsIn(init));
      }
    }
  }

  /** A panic of a running hook ends the shutdown without a signal: a caller that waits is told SignalLost at once. */
  lemma PanicIsReported(d: nat, s: State)
    requires s.phase.Running? && s.waiter.Waiting?
    ensures
      var s' := Next(d, Next(d, s, HookPanics), WaitReturns);
      && s'.completion.Lost? && s'.phase.Unwound?
      && s'.waiter == Returned(s.waiter.since, s.waiter.timeout, SignalLost, s.now)
  {}

  // ----- The drain loop on its own -----

  /** The polling loop against any environment: active(k) is what the k-th load sees, elapsed(k) what the clock shows
      right after it; a sleep lasts at least 100 ms. It ends within 302 loads, on a zero counter or past the timeout. */
  method DrainInFlight(active: nat -> nat, elapsed: nat -> nat) returns (loads: nat, drained: bool)
    requires forall k: nat :: elapsed(k + 1) >= elapsed(k) + POLL_INTERVAL
    ensures 1 <= loads <= MAX_LOADS
    ensures drained <==> active(loads - 1) == 0
    ensures !drained ==> elapsed(loads - 1) > DRAIN_TIMEOUT
    ensures forall k :: 0 <= k < loads - 1 ==> active(k) != 0 && elapsed(k) <= DRAIN_TIMEOUT
  {
    loads := 0;
    while true
      invariant elapsed(loads) >= POLL_INTERVAL * loads
      invariant loads > 0 ==> POLL_INTERVAL * (loads - 1) <= DRAIN_TIMEOUT
      invariant forall k :: 0 <= k < loads ==> active(k) != 0 && elapsed(k) <= DRAIN_TIMEOUT
      decreases MAX_LOADS - loads
    {
      var seen := active(loads);
      loads := loads + 1;
      if seen == 0 {
        return loads, true;
      }
      if elapsed(loads - 1) > DRAIN_TIMEOUT {
        return loads, false;
      }
      assert elapsed(loads) >= elapsed(loads - 1) + POLL_INTERVAL;
    }
  }
}
