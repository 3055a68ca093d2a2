// Accounting of in-flight work: the two atomic counters, call guards and TLS connection guards.
module RequestGuards {
  import opened Wrappers

  /** Both counters are 64-bit and wrap. */
  const WORD: nat := 0x1_0000_0000_0000_0000

  function FetchAdd(n: nat): nat {
    (n + 1) % WORD
  }

  function FetchSub(n: nat): nat {
    (n + WORD - 1) % WORD
  }

  class AtomicCounter {
    var value: nat

    constructor ()
      ensures value == 0
    {
      value := 0;
    }
  }

  /** Creating a guard counts one more request; dropping it, however the handler ends, counts one less. */
  class RequestGuard {
    const counter: AtomicCounter

    constructor (counter: AtomicCounter)
      modifies counter
      ensures this.counter == counter && counter.value == FetchAdd(old(counter.value))
    {
      this.counter := counter;
      new;
      counter.value := (counter.value + 1) % WORD;
    }

    method Drop()
      modifies counter
      ensures counter.value == FetchSub(old(counter.value))
    {
      counter.value := (counter.value + WORD - 1) % WORD;
    }
  }

  /** A tool call: counted, then guarded while its handler runs, then over. A handler that panics or whose future is
      dropped ends untracked. */
  datatype CallPhase = Counted | Guarded | Ended(tracked: bool)

  /** A TLS connection: guarded only after its handshake, for as long as it is served. */
  datatype ConnPhase = Handshaking | Serving | Closed

  datatype Guards = Guards(
    tls: bool, active: nat, processed: nat, calls: map<nat, CallPhase>, conns: map<nat, ConnPhase>)

  datatype GuardEvent =
    | CountCall(id: nat)
    | GuardCall(id: nat)
    | EndCall(id: nat, tracked: bool)
    | AcceptConnection(id: nat)
    | HandshakeDone(id: nat)
    | HandshakeFailed(id: nat)
    | CloseConnection(id: nat)

  function NoGuards(tls: bool): Guards {
    Guards(tls, 0, 0, map[], map[])
  }

  predicate Possible(g: Guards, e: GuardEvent) {
    match e
    case CountCall(id) => id !in g.calls
    case GuardCall(id) => id in g.calls && g.calls[id].Counted?
    case EndCall(id, _) => id in g.calls && g.calls[id].Guarded?
    case AcceptConnection(id) => g.tls && id !in g.conns
    case HandshakeDone(id) => id in g.conns && g.conns[id].Handshaking?
    case HandshakeFailed(id) => id in g.conns && g.conns[id].Handshaking?
    case CloseConnection(id) => id in g.conns && g.conns[id].Serving?
  }

  function Step(g: Guards, e: GuardEvent): Guards {
    if !Possible(g, e) then g else
    match e
    case CountCall(id) => g.(processed := FetchAdd(g.processed), calls := g.calls[id := Counted])
    case GuardCall(id) => g.(active := FetchAdd(g.active), calls := g.calls[id := Guarded])
    case EndCall(id, tracked) => g.(active := FetchSub(g.active), calls := g.calls[id := Ended(tracked)])
    case AcceptConnection(id) => g.(conns := g.conns[id := Handshaking])
    case HandshakeDone(id) => g.(active := FetchAdd(g.active), conns := g.conns[id := Serving])
    case HandshakeFailed(id) => g.(conns := g.conns[id := Closed])
    case CloseConnection(id) => g.(active := FetchSub(g.active), conns := g.conns[id := Closed])
  }

  function Run(g: Guards, es: seq<GuardEvent>): Guards {
    if es == [] then g else Step(Run(g, es[..|es| - 1]), es[|es| - 1])
  }

  function LiveCalls(g: Guards): set<nat> {
    set id | id in g.calls && g.calls[id].Guarded?
  }

  function LiveConns(g: Guards): set<nat> {
    set id | id in g.conns && g.conns[id].Serving?
  }

  function Live(g: Guards): nat {
    |LiveCalls(g)| + |LiveConns(g)|
  }

  function Tracked(g: Guards): set<nat> {
    set id | id in g.calls && g.calls[id] == Ended(true)
  }

  ghost predicate Balanced(g: Guards) {
    && g.active == Live(g) % WORD
    && g.processed == |g.calls| % WORD
    && (!g.tls ==> g.conns == map[])
  }

  /** How one event changes the number of live guards. */
  function Change(e: GuardEvent): int {
    match e
    case GuardCall(_) => 1
    case HandshakeDone(_) => 1
    case EndCall(_, _) => -1
    case CloseConnection(_) => -1
    case _ => 0
  }

  lemma LiveCallsStep(g: Guards, e: GuardEvent)
    requires Possible(g, e)
    ensures |LiveCalls(Step(g, e))| == |LiveCalls(g)| + if e.GuardCall? || e.EndCall? then Change(e) else 0
  {
    var after := LiveCalls(Step(g, e));
    if e.GuardCall? {
      assert after == LiveCalls(g) + {e.id};
    } else if e.EndCall? {
      assert after == LiveCalls(g) - {e.id};
    } else {
      assert after == LiveCalls(g);
    }
  }

  lemma LiveConnsStep(g: Guards, e: GuardEvent)
    requires Possible(g, e)
    ensures |LiveConns(Step(g, e))| == |LiveConns(g)| + if e.HandshakeDone? || e.CloseConnection? then Change(e) else 0
  {
    var after := LiveConns(Step(g, e));
    if e.HandshakeDone? {
      assert after == LiveConns(g) + {e.id};
    } else if e.CloseConnection? {
      assert after == LiveConns(g) - {e.id};
    } else {
      assert after == LiveConns(g);
    }
  }

  lemma CallsStep(g: Guards, e: GuardEvent)
    requires Possible(g, e)
    ensures |Step(g, e).calls| == |g.calls| + if e.CountCall? then 1 else 0
  {
    var before, after := g.calls.Keys, Step(g, e).calls.Keys;
    if e.CountCall? {
      assert after == before + {e.id};
    } else {
      assert after == before;
    }
    assert |before| == |g.calls| && |after| == |Step(g, e).calls|;
  }

  lemma WrapAdd(n: nat)
    ensures FetchAdd(n % WORD) == (n + 1) % WORD
  {}

  lemma WrapSub(n: nat)
    requires n > 0
    ensures FetchSub(n % WORD) == (n - 1) % WORD
  {}

  lemma BalancedStep(g: Guards, e: GuardEvent)
    requires Balanced(g)
    ensures Balanced(Step(g, e))
  {
    if Possible(g, e) {
      LiveCallsStep(g, e);
      LiveConnsStep(g, e);
      CallsStep(g, e);
      assert Live(Step(g, e)) == Live(g) + Change(e);
      WrapAdd(|g.calls|);
      WrapAdd(Live(g));
      if Change(e) == -1 {
        WrapSub(Live(g));
      }
    }
  }

  lemma {:induction false} RunBalanced(tls: bool, es: seq<GuardEvent>)
    ensures Balanced(Run(NoGuards(tls), es))
  {
    if es == [] {
      assert LiveCalls(NoGuards(tls)) == {} && LiveConns(NoGuards(tls)) == {};
    } else {
      RunBalanced(tls, es[..|es| - 1]);
      BalancedStep(Run(NoGuards(tls), es[..|es| - 1]), es[|es| - 1]);
    }
  }

  lemma SmallUnwrapped(n: nat)
    requires n < WORD
    ensures n % WORD == n
  {}

  /** A guard about to be dropped is one of those counted. */
  lemma DropsAreCovered(g: Guards, e: GuardEvent)
    requires Balanced(g) && Live(g) < WORD && Possible(g, e) && Change(e) == -1
    ensures g.active > 0 && Step(g, e).active == g.active - 1
  {
    LiveCallsStep(g, e);
    LiveConnsStep(g, e);
    WrapSub(Live(g));
    SmallUnwrapped(Live(g));
    SmallUnwrapped(Live(g) - 1);
  }

  lemma TrackedAreCounted(g: Guards)
    ensures |Tracked(g)| + |LiveCalls(g)| <= |g.calls|
  {
    assert Tracked(g) !! LiveCalls(g);
    assert |Tracked(g) + LiveCalls(g)| == |Tracked(g)| + |LiveCalls(g)|;
    Cardinality(Tracked(g) + LiveCalls(g), g.calls.Keys);
    assert |g.calls.Keys| == |g.calls|;
  }

  /** Guard accounting: in every interleaving of calls and connections, with fewer than 2^64 guards alive at once,
      active_requests is exactly the number of live guards, so it is 0 only when nothing guarded runs, and no drop takes
      it below 0; with fewer than 2^64 calls ever, completed tracked calls never exceed requests_processed. */
  lemma GuardAccounting(tls: bool, es: seq<GuardEvent>, e: GuardEvent)
    ensures
      var g := Run(NoGuards(tls), es);
      && (Live(g) < 0x1_0000_0000_0000_0000 ==> g.active == Live(g))
      && (|g.calls| < 0x1_0000_0000_0000_0000 ==> |Tracked(g)| + |LiveCalls(g)| <= g.processed)
      && (Live(g) < 0x1_0000_0000_0000_0000 && Possible(g, e) && Change(e) == -1 ==>
            g.active > 0 && Step(g, e).active == g.active - 1)
  {
    RunBalanced(tls, es);
    var g := Run(NoGuards(tls), es);
    TrackedAreCounted(g);
    if |g.calls| < WORD {
      SmallUnwrapped(|g.calls|);
    }
    if Live(g) < WORD {
      SmallUnwrapped(Live(g));
      if Possible(g, e) && Change(e) == -1 {
        DropsAreCovered(g, e);
      }
    }
  }

  lemma {:induction false} Cardinality(a: set<nat>, b: set<nat>)
    requires a <= b
    ensures |a| <= |b|
  {
    assert b == a + (b - a);
  }

  /** What is alive can end: from every state there are events, of calls ending and connections closing alone, after
      which no guard is alive and the counter is 0. */
  lemma {:induction false} GuardsCanEnd(tls: bool, es: seq<GuardEvent>) returns (ends: seq<GuardEvent>)
    ensures forall k :: 0 <= k < |ends| ==> ends[k].EndCall? || ends[k].CloseConnection?
    ensures Live(Run(NoGuards(tls), es + ends)) == 0 && Run(NoGuards(tls), es + ends).active == 0
    decreases Live(Run(NoGuards(tls), es))
  {
    var g := Run(NoGuards(tls), es);
    RunBalanced(tls, es);
    if Live(g) == 0 {
      ends := [];
      assert es + [] == es;
    } else {
      var e: GuardEvent;
      if LiveCalls(g) != {} {
        var id :| id in LiveCalls(g);
        e := EndCall(id, true);
      } else {
        var id :| id in LiveConns(g);
        e := CloseConnection(id);
      }
      assert Possible(g, e);
      LiveCallsStep(g, e);
      LiveConnsStep(g, e);
      assert (es + [e])[..|es|] == es;
      var more := GuardsCanEnd(tls, es + [e]);
      ends := [e] + more;
      assert es + ends == es + [e] + more;
    }
  }

  /** Where the events of one call alone bring it: counted, then guarded, then over as its last event says. */
  function CallAfter(es: seq<GuardEvent>, id: nat): Option<CallPhase> {
    if es == [] then None else
    match (CallAfter(es[..|es| - 1], id), es[|es| - 1])
    case (None, CountCall(i)) => if i == id then Some(Counted) else None
    case (Some(Counted), GuardCall(i)) => Some(if i == id then Guarded else Counted)
    case (Some(Guarded), EndCall(i, tracked)) => Some(if i == id then Ended(tracked) else Guarded)
    case (before, _) => before
  }

  /** The same for a connection, which there is only with TLS. */
  function ConnAfter(tls: bool, es: seq<GuardEvent>, id: nat): Option<ConnPhase> {
    if es == [] then None else
    match (ConnAfter(tls, es[..|es| - 1], id), es[|es| - 1])
    case (None, AcceptConnection(i)) => if tls && i == id then Some(Handshaking) else None
    case (Some(Handshaking), HandshakeDone(i)) => Some(if i == id then Serving else Handshaking)
    case (Some(Handshaking), HandshakeFailed(i)) => Some(if i == id then Closed else Handshaking)
    case (Some(Serving), CloseConnection(i)) => Some(if i == id then Closed else Serving)
    case (before, _) => before
  }

  function Find<T>(m: map<nat, T>, id: nat): Option<T> {
    if id in m then Some(m[id]) else None
  }

  lemma OwnStep(g: Guards, es: seq<GuardEvent>, e: GuardEvent, id: nat)
    requires Find(g.calls, id) == CallAfter(es, id) && Find(g.conns, id) == ConnAfter(g.tls, es, id)
    ensures Find(Step(g, e).calls, id) == CallAfter(es + [e], id)
    ensures Find(Step(g, e).conns, id) == ConnAfter(g.tls, es + [e], id)
  {
    assert (es + [e])[..|es|] == es;
  }

  lemma TlsKept(g: Guards, e: GuardEvent)
    ensures Step(g, e).tls == g.tls
  {}

  /** Calls and connections do not depend on one another: each is where its own events bring it. */
  lemma {:induction false} EachOnItsOwn(tls: bool, es: seq<GuardEvent>, id: nat)
    ensures Find(Run(NoGuards(tls), es).calls, id) == CallAfter(es, id)
    ensures Find(Run(NoGuards(tls), es).conns, id) == ConnAfter(tls, es, id)
    ensures Run(NoGuards(tls), es).tls == tls
  {
    if es != [] {
      hide Step, CallAfter, ConnAfter;
      var init, e := es[..|es| - 1], es[|es| - 1];
      EachOnItsOwn(tls, init, id);
      OwnStep(Run(NoGuards(tls), init), init, e, id);
      TlsKept(Run(NoGuards(tls), init), e);
      assert es == init + [e];
    }
  }
}
