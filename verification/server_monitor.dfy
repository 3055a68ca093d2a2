// The monitor task as one sequential piece of code: the race, the bounded join, the drain loop, the hooks, the signal;
// and the handle its caller holds.
module ServerMonitor {
  import opened Wrappers
  import opened Seqs
  import Shutdown
  import M = Managers

  class ServerHandle {
    var cancelled: bool
    var completion: Shutdown.Completion

    constructor ()
      ensures !cancelled && completion.Pending?
    {
      cancelled, completion := false, Shutdown.Pending;
    }

    method Cancel()
      modifies this`cancelled
      ensures cancelled
    {
      cancelled := true;
    }
  }

  /** The race goes to what happens first; a tie is decided by the order of polling. */
  ghost predicate Decided(cancelledAt: Option<nat>, exitedAt: Option<nat>, cancelFirst: bool, earlyExit: bool) {
    if earlyExit
    then exitedAt.Some? && (cancelledAt.Some? ==>
      exitedAt.value <= cancelledAt.value && (exitedAt == cancelledAt ==> !cancelFirst))
    else cancelledAt.Some? && (exitedAt.Some? ==>
      cancelledAt.value <= exitedAt.value && (exitedAt == cancelledAt ==> cancelFirst))
  }

  /** An early exit starts the drain at once. After a cancellation the drain starts as soon as the server task exits,
      and drainTimeout + 5 s after the cancellation at the latest. */
  ghost predicate JoinedAt(
    cancelledAt: Option<nat>, exitedAt: Option<nat>, drainTimeout: nat, earlyExit: bool, drainStart: nat)
    requires if earlyExit then exitedAt.Some? else cancelledAt.Some?
  {
    if earlyExit then drainStart == exitedAt.value else
    var latest := cancelledAt.value + drainTimeout + 5000;
    drainStart == if exitedAt.Some? then Min(exitedAt.value, latest) else latest
  }

  /** The race between cancellation and the end of the server task, then the bounded join. The times are those at which
      the one is requested and the other exits, if ever; `cancelFirst` is which of two arms ready at once is taken. */
  method RaceAndJoin(cancelledAt: Option<nat>, exitedAt: Option<nat>, cancelFirst: bool, drainTimeout: nat)
    returns (earlyExit: bool, drainStart: nat)
    requires cancelledAt.Some? || exitedAt.Some?
    ensures Decided(cancelledAt, exitedAt, cancelFirst, earlyExit)
    ensures JoinedAt(cancelledAt, exitedAt, drainTimeout, earlyExit, drainStart)
  {
    earlyExit := exitedAt.Some? && (cancelledAt.None? || exitedAt.value < cancelledAt.value
      || (exitedAt.value == cancelledAt.value && !cancelFirst));
    if earlyExit {
      drainStart := exitedAt.value;
    } else {
      drainStart := cancelledAt.value + drainTimeout + Shutdown.JOIN_SLACK;
      if exitedAt.Some? && exitedAt.value <= drainStart {
        drainStart := exitedAt.value;
      }
    }
  }

  /** Every sleep of the drain loop ends on time, and nothing else takes any. */
  ghost predicate Punctual(elapsed: nat -> nat) {
    elapsed(0) == 0 && forall k: nat :: elapsed(k + 1) == elapsed(k) + Shutdown.POLL_INTERVAL
  }

  /** The monitor from the race to the signal. `before` are hooks registered by others up to the count, `late(i)` those
      registered before the lock is taken for index i. The k-th load of the counter is made elapsed(k) ms after the
      drain's start, and the hook at index i takes took(i) ms. */
  method RunMonitor(
    handle: ServerHandle, managers: M.Managers,
    cancelledAt: Option<nat>, exitedAt: Option<nat>, cancelFirst: bool, drainTimeout: nat,
    active: nat -> nat, elapsed: nat -> nat,
    before: seq<M.HookId>, late: nat -> seq<M.HookId>, outcome: nat -> M.HookOutcome, took: nat -> nat)
    returns (earlyExit: bool, drainStart: nat, drained: bool, loads: nat, visited: seq<M.HookId>)
    requires handle.completion.Pending? && (cancelledAt.Some? || exitedAt.Some?)
    requires forall k: nat :: elapsed(k + 1) >= elapsed(k) + Shutdown.POLL_INTERVAL
    requires M.WithinTimeout(outcome, took)
    modifies handle`completion, managers
    // The drain starts with the server task's exit, or at most drainTimeout + 5 s after cancellation.
    ensures Decided(cancelledAt, exitedAt, cancelFirst, earlyExit)
    ensures JoinedAt(cancelledAt, exitedAt, drainTimeout, earlyExit, drainStart)
    // Hooks are visited once a load has seen no request or has come after 30 s, and no earlier load did either.
    ensures 1 <= loads <= 302
    ensures drained <==> active(loads - 1) == 0
    ensures !drained ==> elapsed(loads - 1) > 30000
    ensures forall k :: 0 <= k < loads - 1 ==> active(k) != 0 && elapsed(k) <= 30000
    // The signal is sent exactly when no hook panicked, and then every hook was visited, last registered first.
    ensures handle.completion.Sent? <==>
      forall i :: 0 <= i < |old(managers.shutdownHooks) + before| ==> !outcome(i).Panics?
    ensures handle.completion.Sent? ==> visited == Reverse(old(managers.shutdownHooks) + before)
    ensures !handle.completion.Sent? ==> handle.completion.Lost?
    ensures visited <= Reverse(old(managers.shutdownHooks) + before)
    // It is sent when the drain and then all the hooks have taken their time.
    ensures handle.completion.Sent? ==>
      var n := |old(managers.shutdownHooks) + before|;
      handle.completion.at == drainStart + elapsed(loads - 1) + M.TimeSpent(took, n, n)
    // With sleeps that end on time that is at most 30.1 s and 10 s per hook after the drain's start.
    ensures handle.completion.Sent? && Punctual(elapsed) ==>
      handle.completion.at <= drainStart + 30100 + 10000 * |old(managers.shutdownHooks) + before|
    // Whatever has been registered stays registered.
    ensures old(managers.shutdownHooks) + before <= managers.shutdownHooks
  {
    earlyExit, drainStart := RaceAndJoin(cancelledAt, exitedAt, cancelFirst, drainTimeout);
    loads, drained := Shutdown.DrainInFlight(active, elapsed);
    managers.Interfere(before);
    var result, hooks, errors, spent := managers.Shutdown(late, outcome, took);
    visited := hooks;
    M.TimeIsBounded(outcome, took, |old(managers.shutdownHooks) + before|, |old(managers.shutdownHooks) + before|);
    assert loads >= 2 ==> elapsed(loads - 2) <= Shutdown.DRAIN_TIMEOUT;
    assert loads >= 2 && Punctual(elapsed) ==> elapsed(loads - 2 + 1) == elapsed(loads - 2) + Shutdown.POLL_INTERVAL;
    if result.Unwound? {
      handle.completion := Shutdown.Lost;
    } else {
      handle.completion := Shutdown.Sent(drainStart + elapsed(loads - 1) + spent);
    }
  }
}
