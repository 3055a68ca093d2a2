// The container of shutdown hooks and their sequential, reverse-order shutdown.
module Managers {
  import opened Seqs

  type HookId = nat

  /** In milliseconds. */
  const PER_MANAGER_TIMEOUT: nat := 10000

  /** What one hook's shutdown does within its own 10 s allowance. */
  datatype HookOutcome = ReturnsOk | ReturnsErr | TimesOut | Panics

  /** The result of a whole shutdown; a panic unwinds out of it. */
  datatype ShutdownResult = AllDown | Failures(failed: nat, count: nat) | Unwound

  predicate Fails(o: HookOutcome) {
    o.ReturnsErr? || o.TimesOut?
  }

  /** The durations of the last n of count hooks, which are the first n to be shut down. */
  function TimeSpent(took: nat -> nat, count: nat, n: nat): (ms: nat)
    requires n <= count
  {
    if n == 0 then 0 else TimeSpent(took, count, n - 1) + took(count - n)
  }

  /** What other tasks have registered before the locks for the last n of count indices. */
  function Registered(late: nat -> seq<HookId>, count: nat, n: nat): seq<HookId>
    requires n <= count
  {
    if n == 0 then [] else Registered(late, count, n - 1) + late(count - n)
  }

  /** No hook takes more than 10 s, and one that times out takes exactly that. */
  ghost predicate WithinTimeout(outcome: nat -> HookOutcome, took: nat -> nat) {
    forall i :: took(i) <= PER_MANAGER_TIMEOUT && (outcome(i).TimesOut? ==> took(i) == PER_MANAGER_TIMEOUT)
  }

  lemma NoHooks(late: nat -> seq<HookId>, took: nat -> nat, count: nat)
    ensures TimeSpent(took, count, 0) == 0 && Registered(late, count, 0) == []
  {}

  lemma OneMoreHook(late: nat -> seq<HookId>, took: nat -> nat, count: nat, n: nat)
    requires n < count
    ensures TimeSpent(took, count, n + 1) == TimeSpent(took, count, n) + took(count - n - 1)
    ensures Registered(late, count, n + 1) == Registered(late, count, n) + late(count - n - 1)
  {}

  /** The hooks run one after the other, each for at most 10 s. */
  lemma {:induction false} TimeIsBounded(outcome: nat -> HookOutcome, took: nat -> nat, count: nat, n: nat)
    requires WithinTimeout(outcome, took) && n <= count
    ensures TimeSpent(took, count, n) <= PER_MANAGER_TIMEOUT * n
  {
    if n > 0 {
      TimeIsBounded(outcome, took, count, n - 1);
    }
  }

  class Managers {
    var shutdownHooks: seq<HookId>

    constructor ()
      ensures shutdownHooks == []
    {
      shutdownHooks := [];
    }

    method Register(hook: HookId)
      modifies this
      ensures shutdownHooks == old(shutdownHooks) + [hook]
    {
      shutdownHooks := shutdownHooks + [hook];
    }

    /** Other tasks registering hooks while no lock is held. */
    method Interfere(late: seq<HookId>)
      modifies this
      ensures shutdownHooks == old(shutdownHooks) + late
    {
      for i := 0 to |late|
        invariant shutdownHooks == old(shutdownHooks) + late[..i]
      {
        Register(late[i]);
      }
    }

    /** Shut down every hook present at the start, last registered first. `late(i)` are the hooks other tasks register
        just before the lock is taken for index i, `outcome(i)` is what the hook at index i does and `took(i)` how long
        that takes; a hook that has not returned after 10 s is given up. */
    method Shutdown(late: nat -> seq<HookId>, outcome: nat -> HookOutcome, took: nat -> nat)
      returns (result: ShutdownResult, visited: seq<HookId>, errors: seq<nat>, spent: nat)
      requires WithinTimeout(outcome, took)
      modifies this
      // The list grows by what is registered meanwhile, and by nothing else.
      ensures |visited| <= |old(shutdownHooks)|
      ensures shutdownHooks == old(shutdownHooks) + Registered(late, |old(shutdownHooks)|, |visited|)
      // Strictly reverse order, each index once: a prefix of the reversed snapshot, all of it unless a hook panics.
      ensures visited <= Reverse(old(shutdownHooks))
      ensures result.Unwound? <==> exists i :: 0 <= i < |old(shutdownHooks)| && outcome(i).Panics?
      ensures !result.Unwound? ==> visited == Reverse(old(shutdownHooks))
      // A panic is the last thing that happens.
      ensures result.Unwound? ==>
        && visited != []
        && outcome(|old(shutdownHooks)| - |visited|).Panics?
        && forall i :: |old(shutdownHooks)| - |visited| < i < |old(shutdownHooks)| ==> !outcome(i).Panics?
      // The failures are exactly the visited indices that failed, and the count is exact.
      ensures forall i :: i in errors <==>
        |old(shutdownHooks)| - |visited| <= i < |old(shutdownHooks)| && Fails(outcome(i))
      ensures forall j, k :: 0 <= j < k < |errors| ==> errors[j] > errors[k]
      // The hooks run one after the other.
      ensures !result.Unwound? ==> spent == TimeSpent(took, |old(shutdownHooks)|, |old(shutdownHooks)|)
      ensures result.AllDown? <==> forall i :: 0 <= i < |old(shutdownHooks)| ==> outcome(i).ReturnsOk?
      ensures result.Failures? ==> result == Failures(|errors|, |old(shutdownHooks)|) && errors != []
    {
      hide TimeSpent, WithinTimeout, Registered;
      var count := |shutdownHooks|;
      ghost var snapshot := shutdownHooks;
      errors, visited, spent := [], [], 0;
      NoHooks(late, took, count);
      var i := count;
      while i > 0
        invariant 0 <= i <= count == |snapshot|
        invariant shutdownHooks == snapshot + Registered(late, count, count - i)
        invariant visited == Reverse(snapshot)[..count - i]
        invariant spent == TimeSpent(took, count, count - i)
        invariant forall j :: i <= j < count ==> !outcome(j).Panics?
        invariant forall j :: j in errors <==> i <= j < count && Fails(outcome(j))
        invariant forall j :: 0 <= j < |errors| ==> errors[j] >= i
        invariant forall j, k :: 0 <= j < k < |errors| ==> errors[j] > errors[k]
      {
        OneMoreHook(late, took, count, count - i);
        i := i - 1;
        Interfere(late(i));
        if i >= |shutdownHooks| {
          assert false;
        } else {
          var hook := shutdownHooks[i];
          visited, spent := visited + [hook], spent + took(i);
          match outcome(i) {
            case ReturnsOk =>
            case ReturnsErr => errors := errors + [i];
            case TimesOut => errors := errors + [i];
            case Panics =>
              result := Unwound;
              return;
          }
        }
      }
      if errors != [] {
        assert errors[0] in errors;
        result := Failures(|errors|, count);
      } else {
        result := AllDown;
      }
    }
  }
}
