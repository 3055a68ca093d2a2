// Filtered, offset-based reading of a connection's history.
module Paging {
  import opened Wrappers
  import opened Seqs
  import opened HistoryFile

  const I64_MIN: int := -0x8000_0000_0000_0000
  const I64_MAX: int := 0x7fff_ffff_ffff_ffff

  /** The caller's filters. `parse` is the timestamp parser: a `since` or a record time it rejects filters nothing. */
  datatype Filter = Filter(toolName: Option<string>, since: Option<string>, parse: string -> Option<int>)

  datatype Outcome = Page(records: seq<ToolCallRecord>) | ArithmeticPanic

  predicate Passes(f: Filter, r: ToolCallRecord) {
    && (f.toolName.Some? ==> r.toolName == f.toolName.value)
    && (f.since.Some? && f.parse(f.since.value).Some? && f.parse(r.timestamp).Some? ==>
          f.parse(r.timestamp).value >= f.parse(f.since.value).value)
  }

  function Filtered(f: Filter, entries: seq<ToolCallRecord>): (rs: seq<ToolCallRecord>)
    ensures |rs| <= |entries|
  {
    if entries == [] then [] else
    var r := entries[|entries| - 1];
    Filtered(f, entries[..|entries| - 1]) + if Passes(f, r) then [r] else []
  }

  /** Filtering keeps the order of what passes... */
  lemma {:induction false} FilteredConcat(f: Filter, a: seq<ToolCallRecord>, b: seq<ToolCallRecord>)
    ensures Filtered(f, a + b) == Filtered(f, a) + Filtered(f, b)
  {
    if b == [] {
      assert a + b == a;
    } else {
      assert (a + b)[..|a + b| - 1] == a + b[..|b| - 1];
      FilteredConcat(f, a, b[..|b| - 1]);
    }
  }

  /** ... and keeps exactly the records that pass. */
  lemma {:induction false} FilteredMembers(f: Filter, entries: seq<ToolCallRecord>, r: ToolCallRecord)
    ensures r in Filtered(f, entries) <==> r in entries && Passes(f, r)
  {
    if entries != [] {
      FilteredMembers(f, entries[..|entries| - 1], r);
      assert entries == entries[..|entries| - 1] + [entries[|entries| - 1]];
    }
  }

  /** `checked` says whether the build traps arithmetic overflow; otherwise negating i64::MIN wraps to itself and the
      conversion to an unsigned count fails over to 0. */
  function RecentCalls(
    entries: Option<seq<ToolCallRecord>>, maxResults: nat, offset: int, f: Filter, checked: bool): Outcome
    requires I64_MIN <= offset <= I64_MAX
  {
    if entries.None? then Page([]) else
    var filtered := Filtered(f, entries.value);
    var total := |filtered|;
    if offset < 0 then
      if offset == I64_MIN && checked then ArithmeticPanic else
      var tailCount := if offset == I64_MIN then 0 else Min(-offset, total);
      Page(filtered[total - tailCount..])
    else
      var start := Min(offset, total);
      var end := Min(start + Min(maxResults, MAX_HISTORY_ENTRIES), total);
      Page(filtered[start..end])
  }

  /** A client reading page after page at offsets start, start + k, ... until a page comes back empty. */
  function ReadOn(entries: seq<ToolCallRecord>, f: Filter, k: nat, start: nat, checked: bool): seq<ToolCallRecord>
    requires 1 <= k && |entries| <= MAX_HISTORY_ENTRIES && start <= I64_MAX && k <= I64_MAX - MAX_HISTORY_ENTRIES
    decreases if start <= |entries| then |entries| - start else 0
  {
    var page := RecentCalls(Some(entries), k, start, f, checked).records;
    if page == [] then [] else page + ReadOn(entries, f, k, start + k, checked)
  }

  /** A page and what follows it make up the rest of the filtered history. */
  lemma PageThenRest(entries: seq<ToolCallRecord>, f: Filter, k: nat, start: nat, checked: bool)
    requires 1 <= k && |entries| <= MAX_HISTORY_ENTRIES && start <= I64_MAX
    ensures
      var all := Filtered(f, entries);
      var page := RecentCalls(Some(entries), k, start, f, checked).records;
      && (page == [] <==> start >= |all|)
      && page + all[Min(start + k, |all|)..] == all[Min(start, |all|)..]
  {
    hide Filtered;
    var all := Filtered(f, entries);
    var from, to := Min(start, |all|), Min(start + k, |all|);
    assert RecentCalls(Some(entries), k, start, f, checked) == Page(all[from..to]);
    assert all[from..to] + all[to..] == all[from..];
  }

  /** Paging is complete: for any filter, any page size and any build, reading from an offset until an empty page gives
      exactly the filtered history from there on, in order, nothing skipped and nothing repeated. */
  lemma {:induction false} PagingIsComplete(
    entries: seq<ToolCallRecord>, f: Filter, k: nat, start: nat, checked: bool)
    requires 1 <= k && |entries| <= MAX_HISTORY_ENTRIES && start <= I64_MAX && k <= I64_MAX - MAX_HISTORY_ENTRIES
    ensures ReadOn(entries, f, k, start, checked) == Filtered(f, entries)[Min(start, |Filtered(f, entries)|)..]
    ensures start == 0 ==> ReadOn(entries, f, k, start, checked) == Filtered(f, entries)
    decreases if start <= |entries| then |entries| - start else 0
  {
    PageThenRest(entries, f, k, start, checked);
    if RecentCalls(Some(entries), k, start, f, checked).records != [] {
      PagingIsComplete(entries, f, k, start + k, checked);
    }
  }

  /** One page: at most max_results records and at most 1000, and all that there are up to that. */
  lemma PageSize(entries: seq<ToolCallRecord>, f: Filter, maxResults: nat, start: nat, checked: bool)
    requires start <= I64_MAX
    ensures
      var page := RecentCalls(Some(entries), maxResults, start, f, checked);
      && page.Page?
      && |page.records| <= maxResults && |page.records| <= 1000
      && (|page.records| < maxResults && |page.records| < 1000 ==>
            start + |page.records| >= |Filtered(f, entries)|)
  {}

  /** A negative offset -m gives exactly the last m filtered records, whatever max_results says: the last m of what
      paging forward from 0 gives, whatever the page size. */
  lemma TailReading(entries: seq<ToolCallRecord>, f: Filter, m: int, maxResults: nat, checked: bool, k: nat)
    requires 1 <= m <= I64_MAX
    ensures RecentCalls(Some(entries), maxResults, -m, f, checked) == Page(Last(Filtered(f, entries), m))
    ensures 1 <= k <= I64_MAX - MAX_HISTORY_ENTRIES && |entries| <= MAX_HISTORY_ENTRIES ==>
      RecentCalls(Some(entries), maxResults, -m, f, checked) == Page(Last(ReadOn(entries, f, k, 0, checked), m))
  {
    if 1 <= k <= I64_MAX - MAX_HISTORY_ENTRIES && |entries| <= MAX_HISTORY_ENTRIES {
      PagingIsComplete(entries, f, k, 0, checked);
    }
    hide Filtered, ReadOn;
  }

  // ----- What the filters mean -----

  /** A record the caller asked for: of the named tool, if one is named, and, if both times can be parsed, not older
      than the time asked for. */
  predicate AskedFor(f: Filter, r: ToolCallRecord) {
    && (f.toolName == None || f.toolName == Some(r.toolName))
    && !(f.since.Some? && OlderThan(f.parse(r.timestamp), f.parse(f.since.value)))
  }

  predicate OlderThan(a: Option<int>, b: Option<int>) {
    match (a, b)
    case (Some(x), Some(y)) => x < y
    case _ => false
  }

  lemma {:induction false} FilteredTimes(f: Filter, entries: seq<ToolCallRecord>, r: ToolCallRecord)
    ensures multiset(Filtered(f, entries))[r] == if AskedFor(f, r) then multiset(entries)[r] else 0
  {
    if entries != [] {
      var init, last := entries[..|entries| - 1], entries[|entries| - 1];
      FilteredTimes(f, init, r);
      assert entries == init + [last];
    }
  }

  /** Forward paging, in a checked or unchecked build, reads every record that was asked for as often as the deque holds
      it, and no other: in particular one of the asked tool stamped at or after `since`, and not one stamped before. */
  lemma ReadsWhatWasAskedFor(
    entries: seq<ToolCallRecord>, f: Filter, k: nat, checked: bool, r: ToolCallRecord)
    requires 1 <= k <= I64_MAX - MAX_HISTORY_ENTRIES && |entries| <= MAX_HISTORY_ENTRIES
    ensures multiset(ReadOn(entries, f, k, 0, checked))[r] == if AskedFor(f, r) then multiset(entries)[r] else 0
    ensures f.since.Some? && f.parse(f.since.value).Some? && f.parse(r.timestamp).Some? && f.toolName.None? ==>
      (r in ReadOn(entries, f, k, 0, checked) <==>
        r in entries && f.parse(r.timestamp).value >= f.parse(f.since.value).value)
  {
    PagingIsComplete(entries, f, k, 0, checked);
    FilteredTimes(f, entries, r);
    hide Filtered, ReadOn;
    assert r in ReadOn(entries, f, k, 0, checked) <==> multiset(ReadOn(entries, f, k, 0, checked))[r] > 0;
    assert r in entries <==> multiset(entries)[r] > 0;
  }

  /** The records read are in the deque's order: those of a front are read before those of the rest. */
  lemma ReadInOrder(a: seq<ToolCallRecord>, b: seq<ToolCallRecord>, f: Filter, k: nat, checked: bool)
    requires 1 <= k <= I64_MAX - MAX_HISTORY_ENTRIES && |a + b| <= MAX_HISTORY_ENTRIES
    ensures ReadOn(a + b, f, k, 0, checked) == ReadOn(a, f, k, 0, checked) + ReadOn(b, f, k, 0, checked)
  {
    PagingIsComplete(a, f, k, 0, checked);
    PagingIsComplete(b, f, k, 0, checked);
    PagingIsComplete(a + b, f, k, 0, checked);
    hide Filtered, ReadOn;
    FilteredConcat(f, a, b);
  }

  /** A later `since` never adds a record. */
  lemma LaterSinceReadsLess(
    entries: seq<ToolCallRecord>, f: Filter, later: string, k: nat, checked: bool, r: ToolCallRecord)
    requires 1 <= k <= I64_MAX - MAX_HISTORY_ENTRIES && |entries| <= MAX_HISTORY_ENTRIES
    requires f.since.Some? && f.parse(f.since.value).Some? && f.parse(later).Some?
    requires f.parse(f.since.value).value <= f.parse(later).value
    ensures multiset(ReadOn(entries, f.(since := Some(later)), k, 0, checked))[r]
         <= multiset(ReadOn(entries, f, k, 0, checked))[r]
  {
    ReadsWhatWasAskedFor(entries, f, k, checked, r);
    ReadsWhatWasAskedFor(entries, f.(since := Some(later)), k, checked, r);
    hide ReadOn;
  }

  lemma {:induction false} FilteredAll(f: Filter, entries: seq<ToolCallRecord>)
    requires f.toolName.None? && (f.since.None? || f.parse(f.since.value).None?)
    ensures Filtered(f, entries) == entries
  {
    if entries != [] {
      FilteredAll(f, entries[..|entries| - 1]);
    }
  }

  /** With no filter, or with a time that cannot be parsed, forward paging reads the whole deque as it stands. */
  lemma UnfilteredReadsAll(entries: seq<ToolCallRecord>, f: Filter, k: nat, checked: bool)
    requires 1 <= k <= I64_MAX - MAX_HISTORY_ENTRIES && |entries| <= MAX_HISTORY_ENTRIES
    requires f.toolName.None? && (f.since.None? || f.parse(f.since.value).None?)
    ensures ReadOn(entries, f, k, 0, checked) == entries
  {
    PagingIsComplete(entries, f, k, 0, checked);
    FilteredAll(f, entries);
    hide Filtered, ReadOn;
  }

  /** The one input that does not return a page is offset i64::MIN on an existing connection in a checked build; in an
      unchecked build that input returns an empty page although the whole tail was asked for. A page never holds more
      than 1000 records when the deque does not. */
  lemma OnlyMinimumOffsetFails(
    entries: Option<seq<ToolCallRecord>>, maxResults: nat, offset: int, f: Filter, checked: bool)
    requires I64_MIN <= offset <= I64_MAX
    ensures
      var out := RecentCalls(entries, maxResults, offset, f, checked);
      && (out.ArithmeticPanic? <==> offset == -0x8000_0000_0000_0000 && checked && entries.Some?)
      && (offset == -0x8000_0000_0000_0000 && !checked ==> out == Page([]))
      && (out.Page? ==> forall r :: r in out.records ==> entries.Some? && r in entries.value && Passes(f, r))
      && (out.Page? && entries.Some? && |entries.value| <= MAX_HISTORY_ENTRIES ==> |out.records| <= MAX_HISTORY_ENTRIES)
  {
    if entries.Some? {
      var filtered := Filtered(f, entries.value);
      var out := RecentCalls(entries, maxResults, offset, f, checked);
      if out.Page? {
        forall r | r in out.records ensures r in entries.value && Passes(f, r) {
          assert r in filtered;
          FilteredMembers(f, entries.value, r);
        }
      }
    }
  }
}
