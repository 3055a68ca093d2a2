// When time may pass during a shutdown, and how long each phase can take.
module ShutdownTiming {
  import opened Wrappers
  import opened Seqs
  import opened Shutdown
  import G = RequestGuards
  import M = Managers

  /** Time may pass only while no task has anything to do at the present instant, and not beyond the timer the monitor
      waits on. Under TLS the server task is the accept loop, which waits for nothing but a connection or the
      cancellation: once cancelled it ends at once, however long the connections it has spawned live. The server task of
      plain HTTP waits for its connections. The caller's own timer is not constrained. */
  predicate CanAdvance(s: State, ms: nat) {
    match s.phase
    case Racing => s.cancelled.None? && !s.serverDone
    case Joining(deadline) => !s.serverDone && !s.guards.tls && s.now + ms <= deadline
    case Sleeping(_, _, wake) => s.now + ms <= wake
    case Running(_, _, started) => s.now + ms <= started + PER_MANAGER_TIMEOUT
    case Finished => true
    case Unwound => true
    case _ => false
  }

  /** Every passing of time along the run is one the timers allow. */
  ghost predicate Timely(d: nat, s: State, es: seq<Event>) {
    es == [] ||
    (var e := es[|es| - 1];
     && Timely(d, s, es[..|es| - 1])
     && (e.Advance? ==> CanAdvance(Exec(d, s, es[..|es| - 1]), e.ms)))
  }

  /** The time the join of the server task can take. */
  function JoinTime(d: nat, tls: bool): nat {
    if tls then 0 else d + JOIN_SLACK
  }

  /** The time from cancellation to completion that n hooks can take. */
  function Bound(d: nat, tls: bool, n: nat): nat {
    JoinTime(d, tls) + DRAIN_TIMEOUT + POLL_INTERVAL + PER_MANAGER_TIMEOUT * n
  }

  /** The same for the hooks this server has counted. */
  function Limit(d: nat, s: State): nat {
    Bound(d, s.guards.tls, Visited(s))
  }

  function Visited(s: State): nat {
    if s.snapshot.Some? then |s.snapshot.value| else 0
  }

  // ----- Upper bound -----

  /** Each phase ends early enough. */
  ghost predicate PhaseOnTime(d: nat, s: State, trigger: nat) {
    var drainBy := trigger + JoinTime(d, s.guards.tls);
    match s.phase
    case Racing => true
    case Joining(deadline) => deadline == trigger + d + JOIN_SLACK && s.now <= drainBy
    case Loading(start, _) => start <= drainBy && s.now <= start + DRAIN_TIMEOUT + POLL_INTERVAL
    case Checking(start, _) => start <= drainBy && s.now <= start + DRAIN_TIMEOUT + POLL_INTERVAL
    case Sleeping(start, _, wake) => start <= drainBy && s.now <= wake <= start + DRAIN_TIMEOUT + POLL_INTERVAL
    case Counting => s.now <= trigger + Bound(d, s.guards.tls, 0)
    case Fetching(next) => next <= Visited(s) && s.now <= trigger + Bound(d, s.guards.tls, Visited(s) - next)
    case Running(next, _, started) =>
      && next < Visited(s)
      && started <= trigger + Bound(d, s.guards.tls, Visited(s) - next - 1) && s.now <= started + PER_MANAGER_TIMEOUT
    case Finished => s.completion.Sent? && s.completion.at <= trigger + Limit(d, s)
    case Unwound => true
  }

  ghost predicate SignalsOnTime(s: State) {
    && (s.phase.Racing? <==> s.trigger.None?)
    && (s.trigger.None? && s.cancelled.Some? ==> s.cancelled.value == s.now)
    && (s.trigger.Some? && s.cancelled.Some? ==> s.trigger.value <= s.cancelled.value)
    && (s.trigger.Some? ==> s.trigger.value <= s.now)
    && (s.cancelled.Some? ==> s.cancelled.value <= s.now)
  }

  ghost predicate WaiterOnTime(d: nat, s: State) {
    && (s.waiter.Waiting? ==> s.waiter.since <= s.now)
    && (s.waiter.Returned? && s.waiter.result.Timeout? ==>
          && s.waiter.since + s.waiter.timeout <= s.waiter.at <= s.now
          && (s.cancelled.Some? ==> s.waiter.at <= s.cancelled.value + Limit(d, s)))
  }

  ghost predicate OnTime(d: nat, s: State) {
    && SignalsOnTime(s)
    && (s.trigger.Some? ==> PhaseOnTime(d, s, s.trigger.value))
    && WaiterOnTime(d, s)
  }

  lemma BoundGrows(d: nat, tls: bool, m: nat, n: nat)
    requires m <= n
    ensures Bound(d, tls, m) <= Bound(d, tls, n)
    ensures Bound(d, tls, m) + PER_MANAGER_TIMEOUT * (n - m) == Bound(d, tls, n)
  {}

  /** While completion is pending, the bound has not been passed. */
  lemma PendingWithinBound(d: nat, s: State)
    requires SignalsOnTime(s) && SignalsMatch(s) && (s.trigger.Some? ==> PhaseOnTime(d, s, s.trigger.value))
    requires s.completion.Pending? && s.cancelled.Some?
    ensures s.now <= s.cancelled.value + Limit(d, s)
  {
    if s.phase.Fetching? {
      BoundGrows(d, s.guards.tls, Visited(s) - s.phase.next, Visited(s));
    } else if s.phase.Running? {
      BoundGrows(d, s.guards.tls, Visited(s) - s.phase.next, Visited(s));
    }
  }

  lemma PhaseLater(d: nat, s: State, ms: nat, trigger: nat)
    requires PhaseOnTime(d, s, trigger) && CanAdvance(s, ms)
    ensures PhaseOnTime(d, s.(now := s.now + ms), trigger)
  {}

  lemma PhaseUnmoved(d: nat, s: State, s': State, trigger: nat)
    requires PhaseOnTime(d, s, trigger)
    requires s'.phase == s.phase && s'.now == s.now && s'.guards.tls == s.guards.tls
    requires s'.snapshot == s.snapshot && s'.completion == s.completion
    ensures PhaseOnTime(d, s', trigger)
  {}

  lemma EnvironmentKeeps(s: State, e: Event)
    requires ByEnvironment(e) && Enabled(s, e)
    ensures
      var s' := Around(s, e);
      && s'.phase == s.phase && s'.guards.tls == s.guards.tls && s'.trigger == s.trigger
      && s'.snapshot == s.snapshot && s'.completion == s.completion
      && s'.now == s.now + (if e.Advance? then e.ms else 0)
  {}

  lemma PhaseAround(d: nat, s: State, e: Event)
    requires ByEnvironment(e) && Enabled(s, e)
    requires s.trigger.Some? ==> PhaseOnTime(d, s, s.trigger.value)
    requires e.Advance? ==> CanAdvance(s, e.ms)
    ensures var s' := Around(s, e); s'.trigger.Some? ==> PhaseOnTime(d, s', s'.trigger.value)
  {
    EnvironmentKeeps(s, e);
    if s.trigger.Some? {
      if e.Advance? {
        PhaseLater(d, s, e.ms, s.trigger.value);
      } else {
        hide Around;
        PhaseUnmoved(d, s, Around(s, e), s.trigger.value);
      }
    }
    hide CanAdvance, PhaseOnTime;
  }

  lemma PhaseMonitor(d: nat, s: State, e: Event)
    requires SignalsOnTime(s) && !ByEnvironment(e) && Enabled(s, e)
    requires s.trigger.Some? ==> PhaseOnTime(d, s, s.trigger.value)
    ensures PhaseOnTime(d, Monitor(d, s, e), Monitor(d, s, e).trigger.value)
  {}

  lemma PhaseStep(d: nat, s: State, e: Event)
    requires SignalsOnTime(s)
    requires s.trigger.Some? ==> PhaseOnTime(d, s, s.trigger.value)
    requires e.Advance? ==> CanAdvance(s, e.ms)
    ensures var s' := Next(d, s, e); s'.trigger.Some? ==> PhaseOnTime(d, s', s'.trigger.value)
  {
    if Enabled(s, e) {
      if ByEnvironment(e) { PhaseAround(d, s, e); } else { PhaseMonitor(d, s, e); }
    }
    hide PhaseOnTime, Around, Monitor;
  }

  lemma SignalsStep(d: nat, s: State, e: Event)
    requires SignalsOnTime(s) && SignalsMatch(s)
    requires e.Advance? ==> CanAdvance(s, e.ms)
    ensures SignalsOnTime(Next(d, s, e))
  {}

  lemma WaiterReturns(d: nat, s: State)
    requires SignalsMatch(s) && OnTime(d, s) && Enabled(s, WaitReturns)
    ensures WaiterOnTime(d, Around(s, WaitReturns))
  {
    if s.completion.Pending? && s.cancelled.Some? {
      PendingWithinBound(d, s);
    }
    hide PhaseOnTime;
  }

  lemma WaiterStep(d: nat, s: State, e: Event)
    requires ShutdownOrdered(s) && SignalsMatch(s) && OnTime(d, s)
    ensures WaiterOnTime(d, Next(d, s, e))
  {
    if Enabled(s, e) && e.WaitReturns? {
      WaiterReturns(d, s);
    } else {
      WaiterStays(d, s, e);
    }
    hide PhaseOnTime, WaiterOnTime, SignalsOnTime;
  }

  lemma WaiterStays(d: nat, s: State, e: Event)
    requires ShutdownOrdered(s) && SignalsOnTime(s) && WaiterOnTime(d, s) && !(Enabled(s, e) && e.WaitReturns?)
    ensures WaiterOnTime(d, Next(d, s, e))
  {
    WaiterUntouched(d, s, e);
    BoundGrows(d, s.guards.tls, Visited(s), Visited(Next(d, s, e)));
    hide Next, ShutdownOrdered, Visited;
  }

  lemma WaiterUntouched(d: nat, s: State, e: Event)
    requires ShutdownOrdered(s) && !(Enabled(s, e) && e.WaitReturns?)
    ensures
      var s' := Next(d, s, e);
      && (s'.waiter == s.waiter || (s'.waiter.Waiting? && s'.waiter.since == s.now))
      && (s'.cancelled == s.cancelled || s'.cancelled == Some(s.now))
      && s'.guards.tls == s.guards.tls && s'.now >= s.now && Visited(s') >= Visited(s)
      && (s.cancelled.Some? ==> s'.cancelled == s.cancelled)
  {
    hide AttemptsInOrder, VisitAt;
  }

  lemma OnTimeStep(d: nat, s: State, e: Event)
    requires Safe(s) && OnTime(d, s)
    requires e.Advance? ==> CanAdvance(s, e.ms)
    ensures OnTime(d, Next(d, s, e))
  {
    PhaseStep(d, s, e);
    SignalsStep(d, s, e);
    WaiterStep(d, s, e);
  }

  lemma {:induction false} RunOnTime(d: nat, tls: bool, hooks: seq<M.HookId>, es: seq<Event>)
    requires Timely(d, Serving(tls, hooks), es)
    ensures OnTime(d, Exec(d, Serving(tls, hooks), es))
  {
    if es != [] {
      var init := es[..|es| - 1];
      RunOnTime(d, tls, hooks, init);
      RunIsSafe(d, tls, hooks, init);
      OnTimeStep(d, Exec(d, Serving(tls, hooks), init), es[|es| - 1]);
    }
  }

  ghost predicate NoPanic(es: seq<Event>) {
    forall k :: 0 <= k < |es| ==> !es[k].HookPanics?
  }

  lemma OnlyPanicUnwinds(d: nat, s: State, e: Event)
    requires !s.phase.Unwound? && !e.HookPanics?
    ensures !Next(d, s, e).phase.Unwound?
  {}

  lemma {:induction false} NoPanicNoUnwind(d: nat, s: State, es: seq<Event>)
    requires !s.phase.Unwound? && NoPanic(es)
    ensures !Exec(d, s, es).phase.Unwound?
  {
    if es != [] {
      hide Next;
      assert NoPanic(es[..|es| - 1]);
      NoPanicNoUnwind(d, s, es[..|es| - 1]);
      OnlyPanicUnwinds(d, Exec(d, s, es[..|es| - 1]), es[|es| - 1]);
    }
  }

  lemma TlsStays(d: nat, s: State, e: Event)
    ensures Next(d, s, e).guards.tls == s.guards.tls
  {}

  lemma {:induction false} TlsAlways(d: nat, s: State, es: seq<Event>)
    ensures Exec(d, s, es).guards.tls == s.guards.tls
  {
    if es != [] {
      hide Next;
      TlsAlways(d, s, es[..|es| - 1]);
      TlsStays(d, Exec(d, s, es[..|es| - 1]), es[|es| - 1]);
    }
  }

  // ----- Putting runs together -----

  lemma {:induction false} ExecConcat(d: nat, s: State, a: seq<Event>, b: seq<Event>)
    ensures Exec(d, s, a + b) == Exec(d, Exec(d, s, a), b)
    ensures Timely(d, s, a + b) <==> Timely(d, s, a) && Timely(d, Exec(d, s, a), b)
  {
    if b == [] {
      assert a + b == a;
    } else {
      assert (a + b)[..|a + b| - 1] == a + b[..|b| - 1];
      ExecConcat(d, s, a, b[..|b| - 1]);
    }
  }

  lemma ExecSnoc(d: nat, s: State, es: seq<Event>, e: Event)
    ensures Exec(d, s, es + [e]) == Next(d, Exec(d, s, es), e)
    ensures Timely(d, s, es + [e]) <==> Timely(d, s, es) && (e.Advance? ==> CanAdvance(Exec(d, s, es), e.ms))
  {
    SnocParts(es, e);
  }

  lemma TwoSteps(d: nat, s: State, e: Event, f: Event)
    ensures Exec(d, s, [e, f]) == Next(d, Next(d, s, e), f)
    ensures Timely(d, s, [e, f]) <==>
      && (e.Advance? ==> CanAdvance(s, e.ms))
      && (f.Advance? ==> CanAdvance(Next(d, s, e), f.ms))
  {
    ExecSnoc(d, s, [], e);
    ExecSnoc(d, s, [e], f);
    assert [] + [e] == [e] && [e] + [f] == [e, f];
  }

  /** A server may be cancelled after any time of serving, and any time may pass once its shutdown is over. */
  lemma AnyTimeMayPass(d: nat, tls: bool, hooks: seq<M.HookId>, es: seq<Event>, ms: nat)
    requires Timely(d, Serving(tls, hooks), es)
    ensures Timely(d, Serving(tls, hooks), [Advance(ms), Cancel])
    ensures Exec(d, Serving(tls, hooks), [Advance(ms), Cancel]).cancelled == Some(ms)
    ensures !Exec(d, Serving(tls, hooks), es).completion.Pending? ==>
      Timely(d, Serving(tls, hooks), es + [Advance(ms)])
  {
    RunIsSafe(d, tls, hooks, es);
    TwoSteps(d, Serving(tls, hooks), Advance(ms), Cancel);
    ExecSnoc(d, Serving(tls, hooks), es, Advance(ms));
    hide Exec, Timely;
  }
}
