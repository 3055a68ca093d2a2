# A verified model of kodegen-server-http

This project models the stateful parts of the HTTP server library and proves what they keep over whole runs:

- the **tool history**: a channel, one background task with bounded per-connection caches and write queues, an
  append-only line file, a rotation by temp file and rename, and the loader that reads the file back
  (`lines.dfy`, `history_file.dfy`, `history_model.dfy`, `history_proofs.dfy`,
  `disk_growth.dfy`, `torn_writes.dfy`, `late_writes.dfy`, `tool_history.dfy`, `paging.dfy`);
- the **usage statistics**: a channel-fed fold with session and category counters, snapshots and reload
  (`usage_model.dfy`, `usage_proofs.dfy`, `usage_tracker.dfy`);
- the **coupling** of the two through tool calls and connection deletions (`call_tracking.dfy`, `call_outcomes.dfy`);
- the **graceful shutdown**: request guards, the monitor task (the same protocol in `serve_with_tls` and
  `serve_with_listener`, modelled once with TLS as a parameter), the drain loop, the LIFO hook shutdown and the caller's
  wait (`request_guards.dfy`, `managers.dfy`, `shutdown.dfy`, `shutdown_timing.dfy`, `shutdown_progress.dfy`,
  `shutdown_deadline.dfy`, `server_monitor.dfy`);
- the **memory monitor** (`memory_monitor.dfy`).

Concurrency is modelled by interleaving. Each component has a total function that applies an arbitrary sequence of
events to a start state, where an event that is not possible at its turn changes nothing; "in every run" means for
every such sequence. Beside the machines stand the classes and loops of the program itself, each method specified by
the machine's step, so that what is proved of the machine holds of the object. What happened is kept in logs (updates
received, the fate of every queued record, calls, attempts), and the state is related to those logs.

`dafny verify dfyconfig.toml` checks everything.

## What the code does not guarantee

Some natural expectations are false of the code. The lemmas named here say when they fail, and what holds instead.

- Statistics and history of a connection can disagree for good after a deletion: a call sends its history record first
  and its usage event second, a deletion sends its two removals in the other order, so a call whose two sends overlap in
  time with the deletion's two removals (a removal pair between the sends, or the sends between the removals, or half of
  each) can leave a counted call without a record. `StraddlingCallDisagrees` is such a run; `AgreementExactly` gives the
  condition for all runs.
- The shutdown budget (70% for the HTTP drain, 30% for cleanup) does not bound the shutdown: with plain HTTP the fixed
  5 s, 30.1 s and 10 s per hook come on top of the drain share; with TLS, where the server task is only the accept loop
  and ends at cancellation, 30.1 s and 10 s per hook remain. `ShortWaitTimesOut` gives, for every timeout up to that
  bound, a run in which the caller's wait ends in a timeout; `WaitIsSafeIff` says that exactly the longer waits are
  certain to return Ok, and `BudgetIsEnoughIff` what this means for a wait of the budget's own length: with plain HTTP
  it is safe exactly above 117 s plus a third of 100 s per hook, with TLS exactly above 30.1 s plus 10 s per hook.
- Rotation keeps the last 5000 lines, not the last 5000 records. `RotationLosesHistory` is a file from which a restart
  loads a record before a rotation and nothing after it; `RotationPreservesLoadIff` gives the condition for all files.
- A write that stops inside a multi-byte character makes the whole file unreadable, since loading and rotating read it as
  text. `InsideRunLosesAll` is a run in which every record could be loaded before one such write and none after it;
  `NeverReadableAgain` says that nothing repairs the file, that it is never rotated again and that it can only grow.
- An ignored partial write that stops between characters destroys the next completely written record, which is glued to
  it, and a record that lacks only its line break is read although its write failed. `WhatSurvives` says for any batch
  exactly which records can be read afterwards, `BatchRecoveredIff` when these are the completed ones. Over whole runs
  `TornRunLoses` is a run that loses a completely written record, and `RecoveredIff` gives the condition, for both
  kinds of partial write, under which a restart still recovers the last 1000 written records.
- The file is dropped without a flush, so the last write of a batch can still be in flight when a rotation reads the file,
  and is lost with the file that the rotation replaces. `LateRunLosesOne` is such a run without any failure;
  `InFlightSurvivesIff` says exactly when the record survives.
- The rotation counter starts at 0 in every process, so the disk bound grows by 99 lines per restart, and by one more line
  for a write in flight during a check. `DiskBound` is the upper bound; `DiskBoundIsExact` shows with a run for every
  number of restarts that no smaller one holds, so 5099 lines are only certain for a process on a file of at most 5000
  lines that is never restarted and whose writes are in place when it rotates.
- The edit and search counters of the statistics are never incremented (`StatisticsAreAFold`).
- Offset i64::MIN panics in a build with overflow checks, and returns an empty page otherwise (`OnlyMinimumOffsetFails`).
- The repository's README (lines 172-177) describes a parallel shutdown with a 2 s delay. The code is sequential, and the
  model follows the code.

## Model

| member | source | states |
|---|---|---|
| HistoryFile.LoadFromDisk | src/tool_history.rs:189-226 | The loop that decodes line by line and then pops from the front returns exactly the last 1000 decodable lines, and nothing when the file is missing, unreadable or not text as a whole. |
| Lines.Terminators | src/tool_history.rs:202-202 | Cutting into lines drops LF and CR LF terminators, and leaves an unterminated rest as it stands. |
| HistoryFile.FramingRoundTrip | src/tool_history.rs:202-206 | For an encoder without raw line breaks, cutting a file of encoded records into lines and decoding them gives back exactly those records. |
| HistoryFile.AppendFrames | src/tool_history.rs:302-306 | Appending any batch without torn lines to a file of encoded records gives the file of those records followed by exactly the completed ones. |
| HistoryFile.AppendLineCount | src/tool_history.rs:302-306 | A batch adds at most one line per record to any text, even when writes are cut short. |
| HistoryFile.StaysReadable | src/tool_history.rs:302-306 | A batch leaves the file as readable as it was if each write stops between characters or its text is ASCII. |
| HistoryFile.TornLineTakesTheNext | src/tool_history.rs:305-305 | The smallest case, for a decoder of which only the rejection of the one glued line is known: an ignored partial write makes the next, completely written record unreadable. All batches are in TornWrites.WhatSurvives. |
| HistoryFile.WriteKept | src/tool_history.rs:403-406 | The loop over the kept lines writes each line and its break in order and stops at the first failing write. |
| HistoryFile.RotateIfNeeded | src/tool_history.rs:379-415 | The rotation makes the calls create, write line and break for each kept line, sync, rename, stops at the first that fails, fails at once on a file that is not text, and reports success exactly when none failed. |
| HistoryFile.RotationCrashAtomic | src/tool_history.rs:399-412 | Wherever a rotation fails or dies, even inside a write, the history file is the old text; only after the last call is it the last 5000 lines; a file of at most 5000 lines or one that is not text is never touched. |
| HistoryFile.RotationTemp | src/tool_history.rs:396-412 | An interrupted rotation leaves beside the file exactly what its writes so far have written of the kept lines, or the old temporary file if it did not get to create one; a completed one leaves none. |
| HistoryFile.RotationPreservesLoadIff | src/tool_history.rs:387-408 | For any text of whose kept lines none decodes differently without a trailing carriage return, a rotation leaves what would be loaded unchanged if and only if its last 5000 lines hold at least min(1000, all) decodable ones. |
| HistoryFile.RotationLosesHistory | src/tool_history.rs:387-412 | One record followed by 5000 lines that do not decode: a restart loads the record before a complete rotation and nothing after it. |
| HistoryProofs.CacheRefinesLog | src/tool_history.rs:247-276 | In every run, restarts included, each connection's deque is the last 1000 records of what was loaded plus its calls since its last removal, and is absent exactly when that is empty. |
| HistoryProofs.UnreadStartIsEmpty | src/tool_history.rs:197-225 | A start that cannot read the file begins with nothing and leaves the file alone. |
| HistoryProofs.RecordsBatch | src/tool_history.rs:283-288 | Whatever order the map iterates in, a flush takes each connection's queue once and in queue order. |
| HistoryProofs.ConservationAndOrder | src/tool_history.rs:107-316 | In every run, restarts included, the records ever sent for a connection are, in order, those that ended with each earlier process (written, lost or discarded, then those it still had queued, then those in its channel) and, of the present one, those written, lost or discarded, those queued, and those in the channel: nothing vanishes, repeats or is reordered. |
| HistoryProofs.RecoveryBlindToRotation | src/tool_history.rs:281-340 | In every run from an empty file, across restarts, failed opens, rotations stopped at any call and last writes in flight during them, loading rebuilds exactly the last 1000 of all records ever written. |
| HistoryProofs.DiskBound | src/tool_history.rs:319-340 | From at most 5000 lines and with no rotation failing, the file has at most 5000 + 99 per restart + counter lines, one more with writes in flight, and the counter is below 100, for any batch sizes and torn writes. |
| HistoryProofs.NeverReadableAgain | src/tool_history.rs:197-223 | Once a write has stopped inside a character the file stays unreadable in every further run, is never rotated, only grows, and no start loads anything. |
| DiskGrowth.DiskBoundIsExact | src/tool_history.rs:319-340 | With at most r restarts and no failing rotation the file stays within x lines, from every file of at most 5000 lines and even from none, if and only if x >= 5000 + 99 (r + 1), plus one line if writes may be in flight during a check. |
| DiskGrowth.LongestFileEffect | src/tool_history.rs:319-340 | The run that reaches it: fill the file to 5000 lines (5001 with a write in flight), then write 99 records in each of r + 1 processes. |
| LateWrites.InFlightSurvivesIff | src/tool_history.rs:301-333 | In every run without torn writes, all records a flush completes are written to stay if and only if not (the last write is in flight, the check is due, finds more than 5000 lines without it and the rotation succeeds); otherwise all but the last, and either way loading gives the last 1000 written. |
| LateWrites.LateRunLosesOne | src/tool_history.rs:301-333 | A run without any failure in which 5100 records are flushed and 5099 stay. |
| TornWrites.WhatSurvives | src/tool_history.rs:302-306 | For any file that ends at a line start, any batch and any cut writes, with a decoder that rejects broken lines: nothing can be read if a write stops inside a character; otherwise what could be read before, then the completed records whose write began at a line start, then the one that lacks only its line break. |
| TornWrites.BatchRecoveredIff | src/tool_history.rs:302-306 | Onto such a file, that is what could be read before and the completed records if and only if no write stopped inside a character, no completed record was written onto an unfinished line and the batch does not end in one that lacks only its line break, or nothing can be read any more and there was nothing to read. |
| TornWrites.HeldRecoveredIff | src/tool_history.rs:302-306 | The same for a file of encoded records: the held and the completed records are read, under exactly that condition. |
| TornWrites.RecoveredIff | src/tool_history.rs:189-340 | In every run from an empty file, with writes cut anywhere, failed writes and opens, interrupted rotations, writes in flight and restarts: loading gives nothing once a write stopped inside a character, and until then the last 1000 readable lines of a character-free description of the file; the last 1000 written records are recovered if the file is readable, none of them was written onto an unfinished line or rotated away and no line of a failed write is among the last 1000 readable ones, and, when records can be told apart, only then (or when there are none and the file is unreadable). |
| TornWrites.TornRunLoses | src/tool_history.rs:302-306 | A run in which one record is completely written and a restart loads nothing. |
| TornWrites.InsideRunLosesAll | src/tool_history.rs:197-223 | A run in which all written records would be loaded before one write that stops inside a character, and nothing after it. |
| ToolHistory.ToolHistory.constructor | src/tool_history.rs:65-79 | A new manager is the machine's start state: loaded records under the legacy connection, empty queue and counter. |
| ToolHistory.ToolHistory.SendUpdate | src/tool_history.rs:107-110 | Sending appends to the channel and changes nothing else. |
| ToolHistory.ToolHistory.ReceiveUpdate | src/tool_history.rs:245-278 | Taking one update from the channel is the machine's receive step: bounded push and queueing, or removal from both maps. |
| ToolHistory.EmptyQueues | src/tool_history.rs:285-288 | The loop over the write queues returns their records in iteration order and leaves every queue empty but present. |
| ToolHistory.ToolHistory.TakeAllQueued | src/tool_history.rs:283-288 | Emptying the queues changes only the write queue. |
| ToolHistory.ToolHistory.AppendToFile | src/tool_history.rs:295-308 | The write loop appends each record's line, or the part of it that got through, and the file stays text exactly if no write stopped inside a character. |
| ToolHistory.ToolHistory.CheckRotation | src/tool_history.rs:331-340 | The check leaves the disk as the rotation attempt does and says whether the file was replaced. |
| ToolHistory.ToolHistory.WriteAndCheck | src/tool_history.rs:293-340 | Writes and check, with a last write in flight landing after the check unless the file it goes to was replaced. |
| ToolHistory.ToolHistory.FlushTick | src/tool_history.rs:281-340 | A flush is the machine's tick step, including the empty batch, the failed open and the rotation counter. |
| ToolHistory.ToolHistory.RunBackground | src/tool_history.rs:242-369 | Against any schedule of arrivals and ready arms the background loop reaches the machine's state, with cache refinement and conservation holding. |
| ToolHistory.ToolHistory.GetHistoryForConnection | src/tool_history.rs:114-118 | A reader gets the last 1000 records of the connection's sequence, or nothing when that is empty. |
| Paging.FilteredConcat | src/tool_history.rs:139-160 | Filtering keeps order and is independent of where the history is cut. |
| Paging.FilteredMembers | src/tool_history.rs:139-160 | Filtering keeps exactly the records that pass, in terms of the filter's own test; what that test means is in Paging.ReadsWhatWasAskedFor. |
| Paging.PagingIsComplete | src/tool_history.rs:163-178 | For any filter, any page size and any build, reading pages at offsets 0, k, 2k, ... until an empty one gives exactly the filtered history in order. |
| Paging.PageSize | src/tool_history.rs:170-178 | A page has at most max_results and at most 1000 records, and fewer only at the end. |
| Paging.ReadsWhatWasAskedFor | src/tool_history.rs:139-160 | Forward paging reads each record as often as the deque holds it if it is of the named tool and not stamped before since (where both times parse), and not at all otherwise. |
| Paging.LaterSinceReadsLess | src/tool_history.rs:146-156 | A later since never adds a record. |
| Paging.UnfilteredReadsAll | src/tool_history.rs:139-160 | With no filter, or an unparsable since and no tool name, forward paging reads the whole deque in order. |
| Paging.ReadInOrder | src/tool_history.rs:139-178 | What is read of a front of the deque comes before what is read of the rest. |
| Paging.TailReading | src/tool_history.rs:165-169 | A negative offset -m gives exactly the last m filtered records, whatever the maximum: the last m of what paging forward from 0 reads with any page size. |
| Paging.OnlyMinimumOffsetFails | src/tool_history.rs:165-178 | Every 64-bit offset but i64::MIN yields an in-range page; that one panics exactly in a checked build on an existing connection. |
| UsageProofs.StatisticsAreAFold | src/usage_tracker.rs:185-367 | In every run from any statistics file a connection has statistics exactly when it was loaded or called since its last removal, and every field is the loaded value advanced by the count, time or session number of exactly those calls. |
| UsageProofs.BooksBalance | src/usage_tracker.rs:290-317 | In every reachable state, whatever was loaded, total against successful + failed and against the sum of tool_counts stands as it stood in the loaded entry, and the category counters fall behind by exactly the calls of no counted category; so balanced books stay balanced. |
| UsageProofs.BooksBalanceAcrossRestarts | src/usage_tracker.rs:185-247 | Over any number of processes on the same file, wherever their saves stop, the statistics in memory and those in the file keep total = successful + failed = sum of tool_counts and category sum <= total. |
| UsageProofs.SessionArithmetic | src/usage_tracker.rs:283-293 | With a clock that never goes back and reads at most d <= 1801 s apart, the sessions a process adds to what it loaded cost 1801 - d seconds of use each and are no more than its calls; so (total_sessions - 1) * (1801 - d) <= last_used - first_used and total_sessions <= 1 + total_tool_calls stay true. |
| UsageProofs.CallMovesSession | src/usage_tracker.rs:277-296 | One call raises the session number by one exactly if its check comes more than 1800 s after the last use, sets the last use, keeps the first, starts a new connection at its first clock read, and touches no other connection. |
| UsageProofs.SessionsAreBreaks | src/usage_tracker.rs:277-296 | In every run, when every gap exceeds 1800 s each call adds a session, and when none does the number stays. |
| UsageProofs.StartLoads | src/usage_tracker.rs:88-111 | A start has the decoded statistics of a readable, decodable file, and none otherwise. |
| UsageProofs.SaveTakesEffect | src/usage_tracker.rs:209-247 | A periodic or final save in which nothing fails leaves exactly the present statistics in the file; any other leaves the file as it was. |
| UsageProofs.SnapshotIsAPrefix | src/usage_tracker.rs:209-247 | The statistics file is its initial content or decodes to the statistics after one processed prefix, wherever saves stopped. |
| UsageProofs.SavesCoverLongerPrefixes | src/usage_tracker.rs:368-377 | Later in a run the saved prefix is never shorter, and while it is the same the file is unchanged. |
| UsageProofs.ResumeFromSnapshot | src/usage_tracker.rs:185-206 | In every run with a save, shut down or not, loading the saved file and applying the events taken after that save gives the statistics of the uninterrupted run. |
| UsageTracker.UsageTracker.constructor | src/usage_tracker.rs:88-111 | A new tracker starts from the decoded file, or empty when it is missing, unreadable or not decodable. |
| UsageTracker.UsageTracker.CountInCategory | src/usage_tracker.rs:299-317 | The sum of the category counters rises by one exactly for a tool of a counted category; which counter rises for which category is stated case by case, and nothing else changes. |
| UsageTracker.UsageTracker.TrackCall | src/usage_tracker.rs:274-318 | The field-by-field update of one entry is the machine's fold step for that connection only. |
| UsageTracker.UsageTracker.Save | src/usage_tracker.rs:209-247 | A save leaves the file either as it was or as the current snapshot, for every way it can fail. |
| UsageTracker.UsageTracker.RunBackground | src/usage_tracker.rs:271-386 | The background loop reaches the machine's state for any events, keeps the statistics described by the loaded entries and the calls, and stops at a shutdown event. |
| CallTracking.AgreementWithoutDeletion | src/server.rs:1206-1232 | Without a deletion of the connection, history records equal usage events plus calls between their two sends or dropped there, at every point; drained, the deque holds min(1000, total_tool_calls). |
| CallTracking.AgreementExactly | src/server.rs:1206-1232 | With deletions and dropped calls, once drained, counted calls plus unsent ones equal kept records plus straddling calls; so the components agree if and only if these are equally many or at least 1000 calls count on either side. |
| CallTracking.StraddlingCallDisagrees | src/server.rs:350-361 | A concrete run in which a deletion between a call's two sends leaves one counted call and no record. |
| CallOutcomes.OutcomesAreCounted | src/server.rs:1225-1232 | Once the usage channel is drained, successful, failed and per-tool counts are the numbers of used calls whose start event had that outcome or tool; without a deletion the used calls are all that sent their usage event. |
| CallOutcomes.RecordsAreKept | src/server.rs:1206-1223 | Without a deletion, once the history channel is drained the deque is the last 1000 records of the calls started for the connection, in order. |
| CallOutcomes.ComponentsRun | src/server.rs:350-361 | In every run of the coupled system each component is where its own machine gets to on what was sent to it, in the order of sending. |
| RequestGuards.RequestGuard.constructor | src/server.rs:1404-1407 | Creating a guard adds one to the 64-bit counter. |
| RequestGuards.RequestGuard.Drop | src/server.rs:1411-1413 | Dropping a guard subtracts one, wrapping at 0. |
| RequestGuards.GuardAccounting | src/server.rs:1141-1145 | In every interleaving active_requests is the number of live call and post-handshake connection guards, no drop wraps it, and tracked calls never exceed requests_processed. |
| RequestGuards.GuardsCanEnd | src/server.rs:1404-1413 | From every state, calls ending and connections closing alone lead to no live guard and a zero counter. |
| RequestGuards.EachOnItsOwn | src/server.rs:1141-1145 | In every interleaving each call and each connection is where its own events bring it, whatever the others do. |
| Managers.Managers.constructor | src/managers.rs:37-41 | A new container has no hooks. |
| Managers.Managers.Register | src/managers.rs:70-72 | Registration appends. |
| Managers.Managers.Shutdown | src/managers.rs:116-179 | With registrations between any two iterations, every snapshotted hook is visited once in reverse order unless one panics, the missing-hook arm is dead, the list grows by exactly the late registrations, the reported failures are exact, and the time spent is the sum of the hooks' times. |
| Shutdown.ShutdownSafety | src/server.rs:1028-1101 | In every interleaving, if the wait returns Ok then every hook counted was attempted exactly once in strictly reverse order, one at a time, all after a drain that saw zero or passed 30 s within 302 loads. |
| Shutdown.AttemptsArePrefix | src/managers.rs:132-142 | At any moment the attempts are a prefix of the reversed snapshot and none precedes the drain; the signal is lost exactly when a hook panicked. |
| Shutdown.JoinIsPatient | src/server.rs:1031-1063 | The drain never begins before the server task has ended or had its drain time and 5 s. |
| Shutdown.EnvironmentTakesPlace | src/managers.rs:70-72 | In every run every registration takes place at any time, and the guards follow the guard events alone. |
| Shutdown.SignalsAlwaysTakePlace | src/server.rs:1360-1389 | In every run a cancellation, an end of the server task, a wait and the passing of time take place whatever the monitor is doing. |
| Shutdown.PanicIsReported | src/server.rs:1379-1382 | A hook's panic ends the shutdown without a signal, and a waiting caller is told SignalLost at once. |
| Shutdown.DrainInFlight | src/server.rs:1068-1090 | For any counter behaviour the polling loop ends within 302 loads, on a zero counter or past 30 s, and not before. |
| ServerMonitor.RaceAndJoin | src/server.rs:677-706 | The race goes to whichever of cancellation and server exit comes first; the drain starts with the exit, or drain timeout + 5 s after cancellation if that is earlier. |
| ServerMonitor.RunMonitor | src/server.rs:671-799 | The monitor as sequential code: the drain starts with the server's exit or the end of the join, whichever is earlier; hooks only after the first load that saw zero or came after 30 s; the signal sent exactly when no hook panicked, at the time the drain and all hooks have taken (with sleeps on time at most 30.1 s + 10 s per hook after the drain's start), and then every hook visited last-registered first. |
| ServerMonitor.ServerHandle.constructor | src/server.rs:1349-1357 | A new handle is not cancelled and has no completion yet. |
| ServerMonitor.ServerHandle.Cancel | src/server.rs:1360-1362 | Cancelling sets the token and nothing else. |
| Shutdown.WaitReturnsTheSignal | src/server.rs:1369-1389 | In every interleaving Ok means the signal had been sent, SignalLost that a panic had destroyed it, Timeout that the timeout passed before either; a signal sent or lost before the timeout always decides the result. |
| ShutdownDeadline.ShutdownDeadline | src/server.rs:1035-1100 | With timers on time and no panic, completion is sent within D + 5 s + 30.1 s + 10 s per hook of cancellation, with TLS within 30.1 s + 10 s per hook, and a caller with a longer timeout than that gets Ok. |
| ShutdownTiming.AnyTimeMayPass | src/server.rs:1031-1060 | A server may be cancelled after any time of serving, and any time may pass once its shutdown is over. |
| ShutdownProgress.ShutdownCompletes | src/server.rs:1031-1100 | Every timely run in which a shutdown has begun and is pending has a timely continuation, by the monitor task, the server task's exit and time alone, that sends the signal within the bound, with any planned hook outcomes but panics; with nothing in the way it takes no time. |
| ShutdownProgress.WaitCanEnd | src/server.rs:1369-1389 | From every such run in which the caller waits there is such a continuation in which the wait returns Ok at the moment of the signal. |
| ShutdownDeadline.SlowestRunReachesBound | src/server.rs:961-1090 | There is a timely run with nothing sent at exactly that bound: with plain HTTP a call that never ends, with TLS a connection that is never closed. |
| ShutdownDeadline.DeadlineIsExact | src/server.rs:1035-1100 | Completion within x of cancellation is guaranteed (sent by then in every run, and while not sent reachable within x without anyone's help) if and only if x >= D + 35.1 s + 10 s per hook with plain HTTP, x >= 30.1 s + 10 s per hook with TLS. |
| ShutdownDeadline.ShortWaitTimesOut | src/lib.rs:280-291 | For every timeout up to that bound there is a timely run without panic or registration in which the wait begins at cancellation and returns Timeout exactly when it is over. |
| ShutdownDeadline.LongWaitReturnsOk | src/lib.rs:280-291 | For every longer timeout there is a run in which the wait outlasts the slowest shutdown and returns Ok when that ends, exactly at the bound. |
| ShutdownDeadline.WaitIsSafeIff | src/lib.rs:280-291 | A wait of x that begins at or after cancellation is safe (no run ends it otherwise than in Ok, and from every run in which it goes on Ok can be reached without anyone's help) if and only if x exceeds that bound. |
| ShutdownDeadline.BudgetIsEnoughIff | src/server.rs:849-851 | With 70% of a budget of 10 t ms as drain time, a wait of the budget's length is safe if and only if 3 t > 35.1 s + 10 s per hook with plain HTTP, and 10 t > 30.1 s + 10 s per hook with TLS. |
| MemoryMonitor.Watch | src/monitor.rs:21-66 | The sampling loop, including unavailable readings, yields the baseline and warnings of the step-by-step description. |
| MemoryMonitor.OneReading | src/monitor.rs:25-63 | A reading is reported, with how far memory, requests and time have moved, exactly if it is at least 104857600 bytes above the baseline, and then becomes the baseline. |
| MemoryMonitor.WarningsAreAmortised | src/monitor.rs:34-63 | Reported growths, request deltas and durations sum to the baseline's move, k warnings mean at least k * 100 MB, and memory stays below baseline + 100 MB after each reading. |

## Left out

- HTTP, TLS, sockets, routing, sessions, CLI, environment, logging and signal handling: foreign or plumbing.
- RecoveryBlindToRotation: assumes that no write leaves part of a line, and nothing about the decoder but the round trip. `RecoveredIff` is about the runs with such writes; there the decoder rejects every line that holds a cut-short record or more than one.
- TornLineTakesTheNext: the smallest case only, for a decoder of which no more is known than that it rejects the one glued line; `WhatSurvives` has every batch for decoders that reject all broken lines.
- RecoveredIff: the "only then" half needs records that can be told apart, since a lost record equal to a kept one is not missed.
- DiskBound and DiskBoundIsExact: assume that rotations succeed; a rotation that keeps failing, or a file that is no longer text, leaves the file growing.
- ShutdownDeadline: assumes that hooks yield, that timers fire and ready tasks run on time, and takes the drain duration D as a parameter instead of modelling the float product with 0.7.
- GuardAccounting: shows what the counter equals, not that no request runs during the hooks: a TLS connection holds a guard only after its handshake, and a request may start after the drain.
- RunMonitor: takes the times of cancellation and server exit, the counter readings and the hook outcomes as parameters; their interleavings are in the machine of `shutdown.dfy`.
- The final flush after the history channel closes (src/tool_history.rs:343-367) and the closed-channel arm of the statistics task (src/usage_tracker.rs:380-384): unreachable, since the tick arm never disables and the save timer keeps a sender.
- Real JSON and RFC 3339 parsing: the encoder and decoder are an abstract pair, and timestamps go through an abstract parser. That a JSON decoder rejects broken lines is a hypothesis (`TornWrites.Rejecting`). No order of timestamps within a deque is claimed.
- A write that is in flight when its flush ends is in place, or has been cut short, before the next flush opens the file.
- The bytes of a partly written character: a file that holds one is only known to be unreadable, and the complete characters in it.
- Power loss: only process crashes, since the statistics file is not synced.
- The tracker's public shutdown message is an event of the statistics processor but not of `call_tracking.dfy`: the server never sends it.
- Wrap-around of the statistics' 64-bit counters and of the monitor's readings.
- Map iteration and reads by other threads inside one update: each update, flush or save is one step; `Tick` takes the iteration order as an input.
- The tool categories' own names: the category lookup is an abstract partial function onto the cases the code distinguishes.
- The order of the two updates of one event in different maps as seen by a concurrent reader.
- The display parts of a tool call, the health endpoint, and the connection cleanup callback.
