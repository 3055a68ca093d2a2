// The memory monitor: a baseline that moves only when a growth of at least 100 MB is reported.
module MemoryMonitor {
  import opened Wrappers

  const THRESHOLD: nat := 100 * 1024 * 1024

  /** One tick's readings; the memory may be unavailable. */
  datatype Sample = Sample(memory: Option<nat>, requests: nat, at: nat)

  datatype Snapshot = Snapshot(memory: nat, requests: nat, at: nat)

  datatype Warning = Warning(growth: nat, requests: nat, elapsed: nat)

  datatype Monitor = Monitor(last: Option<Snapshot>, warnings: seq<Warning>)

  function SaturatingSub(a: nat, b: nat): nat {
    if a >= b then a - b else 0
  }

  function Tick(m: Monitor, s: Sample): Monitor {
    if s.memory.None? then m else
    var snapshot := Snapshot(s.memory.value, s.requests, s.at);
    if m.last.None? then m.(last := Some(snapshot)) else
    var prev := m.last.value;
    var growth := SaturatingSub(s.memory.value, prev.memory);
    if growth < THRESHOLD then m else
    Monitor(Some(snapshot),
      m.warnings + [Warning(growth, SaturatingSub(s.requests, prev.requests), SaturatingSub(s.at, prev.at))])
  }

  function Run(samples: seq<Sample>): Monitor {
    if samples == [] then Monitor(None, []) else Tick(Run(samples[..|samples| - 1]), samples[|samples| - 1])
  }

  /** The loop over the interval's ticks until cancellation. */
  method Watch(samples: seq<Sample>) returns (last: Option<Snapshot>, warnings: seq<Warning>)
    ensures Monitor(last, warnings) == Run(samples)
  {
    last, warnings := None, [];
    for i := 0 to |samples|
      invariant Monitor(last, warnings) == Run(samples[..i])
    {
      assert samples[..i + 1][..i] == samples[..i];
      if samples[i].memory.None? {
        continue;
      }
      var memory, requests, now := samples[i].memory.value, samples[i].requests, samples[i].at;
      if last.Some? {
        var growth := SaturatingSub(memory, last.value.memory);
        if growth >= THRESHOLD {
          var requestsDelta := SaturatingSub(requests, last.value.requests);
          warnings := warnings + [Warning(growth, requestsDelta, SaturatingSub(now, last.value.at))];
          last := Some(Snapshot(memory, requests, now));
        }
      } else {
        last := Some(Snapshot(memory, requests, now));
      }
    }
    assert samples[..|samples|] == samples;
  }

  /** What one reading does: nothing when memory is unavailable; the first sets the baseline; after that a reading at
      least 100 MB (104857600 bytes) above the baseline is reported, with how far everything has moved, and becomes the
      baseline; any other changes nothing. */
  lemma OneReading(m: Monitor, s: Sample)
    ensures
      var after := Tick(m, s);
      && (s.memory.None? ==> after == m)
      && (s.memory.Some? && m.last.None? ==>
            after.last == Some(Snapshot(s.memory.value, s.requests, s.at)) && after.warnings == m.warnings)
      && (s.memory.Some? && m.last.Some? ==>
            var last := m.last.value;
            if s.memory.value >= last.memory + 104857600 then
              && after.last == Some(Snapshot(s.memory.value, s.requests, s.at))
              && |after.warnings| == |m.warnings| + 1 && m.warnings <= after.warnings
              && var w := after.warnings[|m.warnings|];
              && last.memory + w.growth == s.memory.value
              && (if s.requests >= last.requests then last.requests + w.requests == s.requests else w.requests == 0)
              && (if s.at >= last.at then last.at + w.elapsed == s.at else w.elapsed == 0)
            else after == m)
  {}

  /** The first successful reading. */
  function FirstReading(samples: seq<Sample>): Option<Sample> {
    if samples == [] then None else
    var before := FirstReading(samples[..|samples| - 1]);
    if before.Some? then before else
    if samples[|samples| - 1].memory.Some? then Some(samples[|samples| - 1]) else None
  }

  function TotalGrowth(ws: seq<Warning>): nat {
    if ws == [] then 0 else TotalGrowth(ws[..|ws| - 1]) + ws[|ws| - 1].growth
  }

  function TotalRequests(ws: seq<Warning>): nat {
    if ws == [] then 0 else TotalRequests(ws[..|ws| - 1]) + ws[|ws| - 1].requests
  }

  function TotalElapsed(ws: seq<Warning>): nat {
    if ws == [] then 0 else TotalElapsed(ws[..|ws| - 1]) + ws[|ws| - 1].elapsed
  }

  /** The request counter and the clock never go back. */
  ghost predicate Forward(samples: seq<Sample>) {
    forall i, j :: 0 <= i <= j < |samples| ==>
      samples[i].requests <= samples[j].requests && samples[i].at <= samples[j].at
  }

  ghost predicate Amortised(samples: seq<Sample>) {
    var m, first := Run(samples), FirstReading(samples);
    && (m.last.Some? <==> first.Some?)
    && (m.last.None? ==> m.warnings == [])
    && (m.last.Some? ==>
          var last := m.last.value;
          && first.value.memory.Some?
          && first.value.memory.value + TotalGrowth(m.warnings) == last.memory
          && first.value.requests + TotalRequests(m.warnings) == last.requests
          && first.value.at + TotalElapsed(m.warnings) == last.at
          && |m.warnings| * 104857600 <= TotalGrowth(m.warnings)
          && last.requests <= samples[|samples| - 1].requests && last.at <= samples[|samples| - 1].at)
  }

  /** Memory warnings are amortised: over any samples, the reported growths, request deltas and durations sum to the
      move of the baseline since the first reading, k warnings mean it rose by at least k * 100 MB, and after every
      successful reading memory is less than 100 MB above it. */
  lemma {:induction false} WarningsAreAmortised(samples: seq<Sample>)
    requires Forward(samples)
    ensures Amortised(samples)
    ensures samples != [] && samples[|samples| - 1].memory.Some? ==>
      Run(samples).last.Some? && samples[|samples| - 1].memory.value < Run(samples).last.value.memory + 104857600
  {
    if samples != [] {
      var init, s := samples[..|samples| - 1], samples[|samples| - 1];
      assert Forward(init);
      WarningsAreAmortised(init);
      var before, after := Run(init), Run(samples);
      OneReading(before, s);
      hide Tick, SaturatingSub;
      if init != [] {
        assert init[|init| - 1] == samples[|init| - 1];
      }
      if after.warnings != before.warnings {
        var w := after.warnings[|before.warnings|];
        assert after.warnings == before.warnings + [w];
        assert after.warnings[..|before.warnings|] == before.warnings;
        assert (|before.warnings| + 1) * 104857600 == |before.warnings| * 104857600 + 104857600;
      }
    }
  }
}
