// A shutdown that has begun gets to its end: from every state of every timely run the monitor task can be driven to its
// completion signal, whatever the requests, the connections and the hooks do.
module ShutdownProgress {
  import opened Wrappers
  import opened Seqs
  import opened Shutdown
  import opened ShutdownTiming
  import G = RequestGuards
  import M = Managers

  /** What the rest of the shutdown is to look like: whether the server task of plain HTTP exits when asked (that of TLS
      always does), and what each hook does. */
  datatype Plan = Plan(exits: bool, outcome: nat -> M.HookOutcome)

  ghost predicate NoPanicPlanned(plan: Plan) {
    forall i :: !plan.outcome(i).Panics?
  }

  /** Not finished and not merely serving. */
  predicate ShuttingDown(s: State) {
    s.completion.Pending? && (s.phase.Racing? ==> s.cancelled.Some? || s.serverDone)
  }

  /** Neither the caller nor a request, a connection or a registration takes part: only the monitor task, the exit of
      the server task and the passing of time. */
  predicate Driving(e: Event) {
    (!ByEnvironment(e) && !e.HookPanics?) || e.ServerExit? || e.Advance?
  }

  ghost predicate Driven(es: seq<Event>) {
    forall k :: 0 <= k < |es| ==> Driving(es[k])
  }

  /** The next event under the plan. */
  function Drive(s: State, plan: Plan): Event {
    match s.phase
    case Racing => if s.cancelled.Some? then SelectCancel else SelectExit
    case Joining(deadline) =>
      if s.serverDone then JoinReturns
      else if s.now >= deadline then JoinTimesOut
      else if s.guards.tls || plan.exits then ServerExit
      else Advance(deadline - s.now)
    case Loading(_, _) => Load
    case Checking(_, _) => Check
    case Sleeping(_, _, wake) => if s.now >= wake then Wake else Advance(wake - s.now)
    case Counting => CountHooks
    case Fetching(next) => if next > 0 then FetchHook else Complete
    case Running(next, _, started) =>
      (match plan.outcome(next)
       case ReturnsOk => HookReturns(true)
       case ReturnsErr => HookReturns(false)
       case _ =>
         if s.now >= started + PER_MANAGER_TIMEOUT then HookTimesOut
         else Advance(started + PER_MANAGER_TIMEOUT - s.now))
    case _ => Advance(0)
  }

  /** The phases still to come, and the steps left in the present one. */
  function Stage(s: State): nat {
    match s.phase
    case Racing => 5
    case Joining(_) => 4
    case Loading(_, _) => 3
    case Checking(_, _) => 3
    case Sleeping(_, _, _) => 3
    case Counting => 2
    case Fetching(_) => 1
    case Running(_, _, _) => 1
    case _ => 0
  }

  function LoadsLeft(loads: nat): nat {
    if loads <= MAX_LOADS then 4 * (MAX_LOADS - loads) else 0
  }

  function StepsLeft(s: State): nat {
    match s.phase
    case Joining(deadline) => if s.serverDone || s.now >= deadline then 0 else 1
    case Loading(_, loads) => LoadsLeft(loads) + 2
    case Checking(_, loads) => LoadsLeft(loads) + 5
    case Sleeping(_, loads, wake) => LoadsLeft(loads) + if s.now >= wake then 3 else 4
    case Fetching(next) => 3 * next + 1
    case Running(next, _, started) => 3 * next + if s.now >= started + PER_MANAGER_TIMEOUT then 2 else 3
    case _ => 0
  }

  /** Nothing makes the monitor wait: no request is in flight, the server task exits, the hooks return. */
  ghost predicate Unhindered(s: State, plan: Plan) {
    && s.guards.active == 0 && plan.exits && (forall i :: !plan.outcome(i).TimesOut?)
    && !s.phase.Checking? && !s.phase.Sleeping?
    && (s.phase.Joining? ==> s.serverDone || s.now < s.phase.deadline)
  }

  /** One attempt more, with the planned outcome, or none. */
  predicate AttemptsFollow(before: seq<Attempt>, after: seq<Attempt>, plan: Plan) {
    && before <= after
    && forall k :: |before| <= k < |after| ==> after[k].outcome == plan.outcome(after[k].index)
  }

  /** What one driven step keeps. */
  predicate CarriedOn(s: State, s': State, plan: Plan) {
    && s'.guards == s.guards && s'.hooks == s.hooks && s'.cancelled == s.cancelled && s'.waiter == s.waiter
    && AttemptsFollow(s.attempts, s'.attempts, plan)
  }

  lemma DriveIsPossible(d: nat, s: State, plan: Plan)
    requires Safe(s) && OnTime(d, s) && ShuttingDown(s)
    ensures
      var e := Drive(s, plan);
      Enabled(s, e) && Driving(e) && (e.Advance? ==> CanAdvance(s, e.ms))
  {}

  lemma DriveCarriesOn(d: nat, s: State, plan: Plan)
    requires NoPanicPlanned(plan) && Enabled(s, Drive(s, plan)) && ShuttingDown(s)
    ensures CarriedOn(s, Next(d, s, Drive(s, plan)), plan)
  {
    DriveKeeps(d, s, plan);
    DriveAttempts(d, s, plan);
    hide Next, Drive;
  }

  lemma DriveKeeps(d: nat, s: State, plan: Plan)
    requires Enabled(s, Drive(s, plan)) && ShuttingDown(s)
    ensures
      var s' := Next(d, s, Drive(s, plan));
      s'.guards == s.guards && s'.hooks == s.hooks && s'.cancelled == s.cancelled && s'.waiter == s.waiter
  {}

  lemma DriveAttempts(d: nat, s: State, plan: Plan)
    requires NoPanicPlanned(plan) && Enabled(s, Drive(s, plan)) && ShuttingDown(s)
    ensures AttemptsFollow(s.attempts, Next(d, s, Drive(s, plan)).attempts, plan)
  {}

  /** The drain loop cannot go on for ever. */
  lemma DrainGetsOn(d: nat, s: State, plan: Plan)
    requires Enabled(s, Drive(s, plan)) && ShuttingDown(s) && DrainProgress(s)
    requires s.phase.Loading? || s.phase.Checking? || s.phase.Sleeping?
    ensures
      var s' := Next(d, s, Drive(s, plan));
      && (Stage(s') < Stage(s) || (Stage(s') == Stage(s) && StepsLeft(s') < StepsLeft(s)))
      && ShuttingDown(s')
  {}

  lemma DriveGetsOn(d: nat, s: State, plan: Plan)
    requires Enabled(s, Drive(s, plan)) && ShuttingDown(s) && Safe(s)
    ensures
      var s' := Next(d, s, Drive(s, plan));
      && (Stage(s') < Stage(s) || (Stage(s') == Stage(s) && StepsLeft(s') < StepsLeft(s)))
      && (ShuttingDown(s') || s'.completion == Sent(s.now))
  {
    hide DrainRecorded, ShutdownOrdered, G.Balanced, DrainProgress;
    if s.phase.Loading? || s.phase.Checking? || s.phase.Sleeping? {
      hide SignalsMatch;
      DrainGetsOn(d, s, plan);
    } else {
      OthersGetOn(d, s, plan);
    }
  }

  lemma OthersGetOn(d: nat, s: State, plan: Plan)
    requires Enabled(s, Drive(s, plan)) && ShuttingDown(s) && SignalsMatch(s)
    requires !s.phase.Loading? && !s.phase.Checking? && !s.phase.Sleeping?
    ensures
      var s' := Next(d, s, Drive(s, plan));
      && (Stage(s') < Stage(s) || (Stage(s') == Stage(s) && StepsLeft(s') < StepsLeft(s)))
      && (ShuttingDown(s') || s'.completion == Sent(s.now))
  {}

  lemma DriveUnhindered(d: nat, s: State, plan: Plan)
    requires NoPanicPlanned(plan) && Enabled(s, Drive(s, plan)) && ShuttingDown(s) && Unhindered(s, plan)
    ensures Unhindered(Next(d, s, Drive(s, plan)), plan) && Next(d, s, Drive(s, plan)).now == s.now
  {}

  lemma CarriedFurther(s: State, s': State, s'': State, plan: Plan)
    requires CarriedOn(s, s', plan) && CarriedOn(s', s'', plan)
    ensures CarriedOn(s, s'', plan)
  {}

  lemma Prepended(d: nat, s: State, e: Event, es: seq<Event>)
    ensures Exec(d, s, [e] + es) == Exec(d, Next(d, s, e), es)
    ensures Timely(d, s, [e] + es) <==> (e.Advance? ==> CanAdvance(s, e.ms)) && Timely(d, Next(d, s, e), es)
  {
    ExecSnoc(d, s, [], e);
    assert [] + [e] == [e];
    ExecConcat(d, s, [e], es);
  }

  /** The monitor can be driven to its signal from every state it gets into, following the plan; and if nothing makes it
      wait, it gets there at once. */
  lemma {:induction false} DrivenToTheEnd(d: nat, s: State, plan: Plan) returns (es: seq<Event>)
    requires Safe(s) && OnTime(d, s) && ShuttingDown(s) && NoPanicPlanned(plan)
    ensures Timely(d, s, es) && Driven(es)
    ensures
      var s' := Exec(d, s, es);
      && Safe(s') && OnTime(d, s') && CarriedOn(s, s', plan)
      && s'.completion.Sent?
      && s'.completion.at == s'.now
      && (Unhindered(s, plan) ==> s'.now == s.now)
    decreases Stage(s), StepsLeft(s)
  {
    hide Exec, Timely, Next, Safe, OnTime, CarriedOn, Drive, CanAdvance, Unhindered, Stage, StepsLeft;
    var e := Drive(s, plan);
    var s' := Next(d, s, e);
    DriveIsPossible(d, s, plan);
    DriveCarriesOn(d, s, plan);
    DriveGetsOn(d, s, plan);
    if Unhindered(s, plan) {
      DriveUnhindered(d, s, plan);
    }
    SafeStep(d, s, e);
    OnTimeStep(d, s, e);
    if s'.completion.Sent? {
      es := [e];
      NothingMore(d, s');
      Prepended(d, s, e, []);
      assert [e] + [] == [e];
      assert s'.now == s.now by { SentNow(d, s, e); }
    } else {
      var more := DrivenToTheEnd(d, s', plan);
      es := [e] + more;
      Prepended(d, s, e, more);
      CarriedFurther(s, s', Exec(d, s', more), plan);
    }
  }

  lemma NothingMore(d: nat, s: State)
    ensures Exec(d, s, []) == s && Timely(d, s, [])
  {}

  lemma SentNow(d: nat, s: State, e: Event)
    requires s.completion.Pending? && Next(d, s, e).completion.Sent?
    ensures Next(d, s, e).now == s.now
  {}

  /** Progress: every timely run in which a shutdown has begun, by cancellation or by the server task ending, and has
      not yet come to its end, has a timely continuation in which only the monitor task, the server task's exit and time
      take part and that ends with the signal sent, no later than the limit after a cancellation. The hooks may do in it
      what they like but panic. When no request is in flight, the server task exits and the hooks return, it takes no
      time. */
  lemma ShutdownCompletes(d: nat, tls: bool, hooks: seq<M.HookId>, es: seq<Event>, plan: Plan)
    returns (more: seq<Event>)
    requires Timely(d, Serving(tls, hooks), es) && NoPanicPlanned(plan)
    requires ShuttingDown(Exec(d, Serving(tls, hooks), es))
    ensures Timely(d, Serving(tls, hooks), es + more) && Driven(more)
    ensures
      var s, s' := Exec(d, Serving(tls, hooks), es), Exec(d, Serving(tls, hooks), es + more);
      && s'.completion.Sent? && s'.completion.at == s'.now && CarriedOn(s, s', plan)
      && (s.cancelled.Some? ==> s'.completion.at <= s.cancelled.value + Limit(d, s'))
      && (Unhindered(s, plan) ==> s'.completion.at == s.now)
  {
    var s0 := Serving(tls, hooks);
    RunIsSafe(d, tls, hooks, es);
    RunOnTime(d, tls, hooks, es);
    more := DrivenToTheEnd(d, Exec(d, s0, es), plan);
    ExecConcat(d, s0, es, more);
    hide Exec, Timely, Unhindered, AttemptsFollow;
    FinishedInTime(d, Exec(d, s0, es + more));
  }

  lemma FinishedInTime(d: nat, s: State)
    requires Safe(s) && OnTime(d, s) && s.completion.Sent?
    ensures s.cancelled.Some? ==> s.completion.at <= s.cancelled.value + Limit(d, s)
  {}

  /** A wait ends as soon as there is a signal: in every state in which the caller waits and the signal has been sent or
      lost, the wait can return that at this very moment. */
  lemma SignalEndsWait(d: nat, s: State)
    requires s.waiter.Waiting? && !s.completion.Pending?
    ensures Next(d, s, WaitReturns).waiter ==
      Returned(s.waiter.since, s.waiter.timeout, if s.completion.Sent? then WaitOk else SignalLost, s.now)
  {}

  /** Every wait can end in Ok: a timely run in which the caller waits and the shutdown has begun has a timely
      continuation in which the wait returns Ok at the moment the signal is sent. */
  lemma WaitCanEnd(d: nat, tls: bool, hooks: seq<M.HookId>, es: seq<Event>, plan: Plan) returns (more: seq<Event>)
    requires Timely(d, Serving(tls, hooks), es) && NoPanicPlanned(plan)
    requires ShuttingDown(Exec(d, Serving(tls, hooks), es)) && Exec(d, Serving(tls, hooks), es).waiter.Waiting?
    ensures Timely(d, Serving(tls, hooks), es + more + [WaitReturns]) && Driven(more)
    ensures
      var s, s' := Exec(d, Serving(tls, hooks), es), Exec(d, Serving(tls, hooks), es + more + [WaitReturns]);
      && s'.completion.Sent? && s'.cancelled == s.cancelled && s'.hooks == s.hooks
      && s'.waiter == Returned(s.waiter.since, s.waiter.timeout, WaitOk, s'.completion.at)
      && (s.cancelled.Some? ==> s'.completion.at <= s.cancelled.value + Limit(d, s'))
      && (Unhindered(s, plan) ==> s'.completion.at == s.now)
  {
    more := ShutdownCompletes(d, tls, hooks, es, plan);
    var s' := Exec(d, Serving(tls, hooks), es + more);
    ExecSnoc(d, Serving(tls, hooks), es + more, WaitReturns);
    hide Exec, Timely, Unhindered;
    SignalEndsWait(d, s');
  }
}
