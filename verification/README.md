# A verified model of the TrustedRouter Python SDK's stateful core

The SDK sends inference requests through a gateway that has several host names. Four parts of it keep state that
is easy to get wrong, and this project models them in Dafny and proves what they promise.

**Telemetry store.** `TelemetryReporter` buffers at most 1000 events and one table of at most 256 counter rows
per minute. Full tables fold keys together; full buffers evict an event; closed minutes queue up to 524,288 bytes
and a day. A flush selects a batch, releases the lock, and handles the answer later, while requests keep coming.
`Values`, `WireEvents` and `Counters` model the normalisers and the table; `Store` gives each critical section as
a function on a state value; `Reporter` is the class whose in-place methods and loops are proved equal to those
functions; `StoreLaws` proves what one section keeps; `Runs`, `Ledgers` and `Histories` prove the theorems about
every run of request, select, answer, failure and shutdown steps, and of flushes that die without an answer; `Exactness`
and `Evictions` say exactly when those theorems have no correction to make. `Scenario`, `WireExamples`, `EvictionExample`,
`OrderExample` and `Counterexample` are the concrete runs where the wire rows, the events, the order of the queue, the
counts and the byte counter go wrong. `Recorder` is the per-call feeder.

Windows are shared objects in the source: the queue and the batch in flight both point at them. Here they live in
one map from ids to windows, and the queue and the batch hold ids, so that deleting a delivered row or re-measuring
a window that already left the queue has the same effect as in the source. Events carry an id for the same reason.

The conservation theorems are exact equations with no condition on the run. What counts as delivered is what the rows
of a batch answered 202 say. Four terms measure what the source gets wrong: `lost` is what folding a row above
10,000,000 clamps off; `twice` is what an answered batch still carried although it had been pruned or evicted while in
flight; `clipped` is what a delivered row held above 10,000,000, which the wire cuts off; `invented` is the one request
a delivered row without requests is sent with. `Exactness` proves, per step and per run, that all four are zero for
every counter if and only if every folded row is within the clamp, every row deleted from a pruned window is empty, and
every delivered row can be sent as it is stored. For events only `twice` can differ from zero: `Evictions` proves that it
is the number of events of the batch that are no longer buffered, and that it is zero if and only if no batch is removed
after one of its events was evicted. A full buffer does evict them, because it drops the oldest ok event and a selection
takes the oldest events. The drop counter needs no correction on any run.

`Folding`, `Windows`, `Answers`, `Schema` and `Reports` tell the same operations in numbers, without the functions that
compute them: which row a full table writes and which sums that leaves exact, which windows a prune drops, what is sampled
and what each answer does, what the normalisers let through, and what a finished call reports.

**Receipt framing.** `Framing` is the byte-level splitter and the strict frame decoder (the subset of section 9.2 of
the WHATWG HTML Standard the SDK accepts), `Grammar` the grammar of frames and streams it is proved to accept, `Digest` the
automaton that hashes a signed stream, `Capture` the incremental parser. SHA-256 and JSON stay uninterpreted: statements
are about the bytes hashed.

**Retry engine.** `Retry` holds the pure decisions and the controller class, `Routing` the candidate lists and the pool
with its region probe under any interleaving of threads, `Traces` the laws of a run and their consequences, `Drivers`
and `Streams` the two request loops. The network is an arbitrary function from attempt number to outcome. One outcome is
an exception the drivers do not catch, such as a response body that cannot be decompressed: it ends the call at once. A
buffered request or a stream opening that ends this way has no record; when the body of a refusal that is to be retried
ends this way, the record of the refusal stays and the driver does not sleep. A probe may raise as well: it then leaves the
pool pending, and the next reader probes again.

**Codecs and collector.** `Codecs` has the two readers of decoded event-stream lines, `CodecLaws` what lines, frames and
whole streams mean to them. `Collector` is the fold that rebuilds a completion (with the lists of text parts the source
keeps). `Shapes` says which streams collect at all, `Collected` what the completion says: each choice is its own deltas
merged in order; `LastValues` covers the fields that are not joined but overwritten. `CollectorLaws` proves that
independent chunks commute. `Alike`, `Parts` and `Readings` compare streams index by index, and on them `TextCuts`,
`FunctionCuts` and `CallCuts` prove when a string of a stream may be cut in two: into two neighbouring deltas always, as long as
those after them name their indexes, and into the next chunk exactly when its second half commutes with the strings that
come between. `CutExamples` has the inputs.

Whatever the model cannot see is a parameter that every theorem quantifies over: clock readings, random draws, JSON
sizes (`Env`), Python's number parsing (`Parser`), JSON parsing (`Reader`, `Claim.embedded`), the network
(`Network`, `outcome`), the region probe's winner.

`dafny verify dfyconfig.toml` checks the whole project.

Where code and comments disagree the model follows the code. The comment on `RetryController.on_transport_error`
says no server saw a byte of the request before the response opened; the controller is also asked after a failure in
mid-request, and only the drivers' replay test tells the two apart (`NotSent` and `NoAnswer` in `Traces`).

## Model

| member | source | states |
|---|---|---|
| WireEvents.WireAttemptsIdempotent | src/trustedrouter/_telemetry.py:458-494 | normalising attempts that were already normalised changes nothing |
| WireEvents.WireAttemptsOutcomes | src/trustedrouter/_telemetry.py:462-464 | every attempt that survives has an outcome from the closed vocabulary |
| WireEvents.FinalOutcomeKnown | src/trustedrouter/_telemetry.py:517-519 | whatever the caller wrote, an accepted event's final outcome is in the wire vocabulary |
| WireEvents.WireEventIdempotent | src/trustedrouter/_telemetry.py:497-554 | an event accepted once is accepted again at any later reading of the clock, and only its age changes |
| Values.BoundedInt | src/trustedrouter/_telemetry.py:333-337 | a number in range is returned unchanged, one outside becomes the nearer bound, and anything that is no number becomes the lower bound |
| Values.BoundedOptionalInt | src/trustedrouter/_telemetry.py:340-349 | a number in range is returned unchanged; everything else, a number out of range included, is null and never a clamped number |
| Schema.TruncateIs | src/trustedrouter/_telemetry.py:333-349 | conversion of a float to an integer drops the fraction, toward zero on both sides |
| Schema.WireAttemptFixes | src/trustedrouter/_telemetry.py:458-494 | every normalised attempt has each field in its vocabulary or range, and an attempt of that shape comes through as it is |
| Schema.WireAttemptReplaces | src/trustedrouter/_telemetry.py:458-494 | what stands in for a host, an outcome, a class or a retry verdict outside its vocabulary |
| Schema.WireEventIs | src/trustedrouter/_telemetry.py:497-554 | every accepted event has between one and sixteen such attempts and each field in its vocabulary or range |
| Schema.WireEventFixes | src/trustedrouter/_telemetry.py:497-554 | every event of that shape is accepted and comes through unchanged but for its age |
| Schema.WireEventReplaces | src/trustedrouter/_telemetry.py:509-530 | what stands in for a field outside its vocabulary; an unknown final outcome becomes the last attempt's |
| Schema.AgeIs | src/trustedrouter/_telemetry.py:504-508 | the age of an event: whole milliseconds since its completion, at least none and at most a day's |
| Counters.MergeAdds | src/trustedrouter/_telemetry.py:439-455 | a merge adds exactly the clamped increment to each of the four fields and each known histogram bucket |
| Schema.ClampedIs | src/trustedrouter/_telemetry.py:439-455 | an increment is worth, under each field and each bucket, the integer it carries there brought into 0..10,000,000, and nothing when there is none |
| Schema.NormaliseKeyFixes | src/trustedrouter/_telemetry.py:396-436 | the results are exactly the keys with every dimension in its vocabulary, and such keys come through as they are |
| Schema.NormaliseKeyReplaces | src/trustedrouter/_telemetry.py:396-436 | which keys are refused, and what stands in for each dimension outside its vocabulary |
| Counters.RefoldLosesExcess | src/trustedrouter/_telemetry.py:449-455 | merging a stored row into an empty one loses exactly what each number had above 10,000,000 |
| Counters.FirstCompatible | src/trustedrouter/_telemetry.py:784-791 | the first compatible key in insertion order, or none |
| Counters.FoldedCompatibleIsFoldedKey | src/trustedrouter/_telemetry.py:769-776 | two keys are compatible exactly when their folded forms are equal, so a folded compatible row lands on the folded form of the incoming key |
| Counters.TargetGroup | src/trustedrouter/_telemetry.py:778-817 | the row written agrees with the incoming key in every dimension but endpoint and error class exactly when the last-resort row is not used |
| Folding.TargetIs | src/trustedrouter/_telemetry.py:778-817 | the row written, read off the rows there are: in a full table an absent key loses its error class alone if some row differs from it in no more, its endpoint too if some row differs in no more than both, and goes to the first row only without such a row |
| Counters.AccumulateSums | src/trustedrouter/_telemetry.py:778-832 | one accepted counter grows each sum by its clamped worth less what a fold of a row above the clamp loses |
| Folding.AccumulatedInPlace | src/trustedrouter/_telemetry.py:778-832 | the whole table after a counter that folds nothing: the same keys in the same order, a new one last, and only the target's counts grow, by the clamped increment |
| Folding.AccumulatedFolding | src/trustedrouter/_telemetry.py:778-832 | the whole table after a counter that folds: the first row that may be folded leaves its place, the target comes last with that row's clamped counts and the increment, and every other row is untouched |
| Counters.GroupExactIff | src/trustedrouter/_telemetry.py:778-832 | sums grouped by all dimensions except endpoint and error class are exact if and only if the folded row is within the clamp and the last-resort row is not used for a non-empty increment |
| Folding.AlikeSums | src/trustedrouter/_telemetry.py:778-832 | the exact effect of one counter on every sum grouped by all dimensions except the error class |
| Folding.EndpointExactIff | src/trustedrouter/_telemetry.py:778-832 | those sums are exact if and only if the increment stays at its own endpoint or adds nothing, and a row folded to make room is within 10,000,000 if it stays at its endpoint and empty if it does not |
| Folding.EndpointKept | src/trustedrouter/_telemetry.py:781-801 | in a full table of rows within 10,000,000, a key that finds a row differing in the error class alone keeps its endpoint, and all those sums are exact |
| Counters.AccumulateKeepsCap | src/trustedrouter/_telemetry.py:778-832 | keys stay distinct and at most 256, and a table at the cap stays at the cap |
| Counters.MergeAllConserves | src/trustedrouter/_telemetry.py:819-832 | every accepted increment of a list is counted exactly once, up to what folds lose |
| Counters.LossFreeIff | src/trustedrouter/_telemetry.py:449-455 | a list of counters loses nothing if and only if every row it folds is within 10,000,000 |
| Counters.MergeAllKeepsCap | src/trustedrouter/_telemetry.py:819-832 | a whole list of counters keeps the cap |
| Store.EvictionIndex | src/trustedrouter/_telemetry.py:731-739 | the first ok event; the oldest event only when no ok event is buffered |
| StoreLaws.EvictionPrefersOk | src/trustedrouter/_telemetry.py:731-755 | at a full buffer exactly one event goes, an ok one while there is any, the others keep their order, and the byte total stays the sum of the estimates |
| Answers.AppendIs | src/trustedrouter/_telemetry.py:746-755 | below 1000 events a new one is appended, and nothing is evicted or dropped |
| StoreLaws.PruneAccounts | src/trustedrouter/_telemetry.py:893-904 | a prune drops a prefix, subtracting exactly its bytes and counting exactly its rows as dropped |
| StoreLaws.PruneBounds | src/trustedrouter/_telemetry.py:903-904 | after a prune the retained bytes are those queued and at most 524,288 |
| StoreLaws.PruneAges | src/trustedrouter/_telemetry.py:897-902 | from a queue sorted by start, a prune leaves no window older than 86,400 s anywhere in it |
| Windows.PruneIs | src/trustedrouter/_telemetry.py:897-904 | a prune drops from the front exactly while the window there is older than 86,400 s, then exactly while the counter is above 524,288, and nothing more |
| Windows.PruneIff | src/trustedrouter/_telemetry.py:897-904 | in a queue sorted by start, a window goes if and only if it is older than 86,400 s or the counter less everything before it is above 524,288 |
| Windows.MinuteStartIs | src/trustedrouter/_telemetry.py:757-758 | the multiple of sixty a reading falls behind by less than sixty seconds; readings below zero count as zero |
| Windows.RollIs | src/trustedrouter/_telemetry.py:760-767 | the open table is closed exactly from sixty seconds after its minute on; it then goes to the end of the queue whole, under that minute, before the prune |
| StoreLaws.TakenIsSendable | src/trustedrouter/_telemetry.py:840-853 | an event that on_request buffers is accepted by every later normalisation, whatever the clock reads |
| StoreLaws.InvalidIff | src/trustedrouter/_telemetry.py:715-729 | a sampled event is counted invalid if and only if none of its first sixteen attempts is a mapping |
| Answers.ReasonIff | src/trustedrouter/_telemetry.py:715-729 | a failure is always kept, then a retried success, then one above 30,000 ms, all at rate one; of the rest exactly those whose draw is below the rate, at that rate |
| Answers.SampleIs | src/trustedrouter/_telemetry.py:840-853 | a sampled event carries its reason, its rate, the time and the first sixteen attempts normalised |
| StoreLaws.ScanSendable | src/trustedrouter/_telemetry.py:924-945 | from buffered events a selection takes the first hundred and throws none out |
| StoreLaws.AllRefsLaws | src/trustedrouter/_telemetry.py:946-956 | the references offered to a batch are distinct and each finds its row in a queued window |
| Windows.AllRefsIs | src/trustedrouter/_telemetry.py:946-956 | every row of every queued window is offered, window after window in queue order and row after row in table order |
| Windows.CloseAllIs | src/trustedrouter/_telemetry.py:878-923 | a selection closes the open table even within its minute: all its rows are in one window under that minute, and none is left open |
| Windows.DraftIs | src/trustedrouter/_telemetry.py:924-968 | what a batch is drawn from: the oldest 100 events or all there are, and the first 200 rows of the queue or all there are, each row with its window's age in whole milliseconds between 0 and a day |
| Windows.SelectIs | src/trustedrouter/_telemetry.py:913-982 | what a selection sends is that draft of the closed and pruned queue, or a longest part of it within 65,536 bytes, under the next number; the number then grows by one |
| Windows.SelectsNothingIff | src/trustedrouter/_telemetry.py:957-982 | nothing is sent exactly when there is nothing to send or not even the empty part fits |
| StoreLaws.TrimLaws | src/trustedrouter/_telemetry.py:974-982 | trimming keeps references and rows aligned, fits 65,536 bytes, pops events before counters and no more than needed, and gives up only when nothing fits |
| StoreLaws.WireRowExactIff | src/trustedrouter/_telemetry.py:557-582 | a row crosses the wire unchanged if and only if its counts are in range and it holds at least one request |
| StoreLaws.SentEquation | src/trustedrouter/_telemetry.py:557-582 | cell by cell, what the wire rows of a batch say plus what the clamp cut off is what was stored plus what the floor of one request added |
| WireExamples.TwoFullCounters | src/trustedrouter/_telemetry.py:557-582 | two accepted counters of 10,000,000 requests under one key fold nothing, are stored as 20,000,000, and are acknowledged as 10,000,000 |
| WireExamples.EmptyCounter | src/trustedrouter/_telemetry.py:573-580 | a counter of no requests is sent and acknowledged as one request |
| WireExamples.MisstatementsHide | src/trustedrouter/_telemetry.py:573-580 | an empty row and a row one above the clamp make the sums of a batch agree in every cell although neither row is sent as stored, so the exact condition must be on rows |
| StoreLaws.DeleteRowsTotal | src/trustedrouter/_telemetry.py:1026-1030 | deleting delivered rows takes from the queue exactly what the references weighed, less the part in windows no longer queued |
| StoreLaws.DeleteRowsSurvivors | src/trustedrouter/_telemetry.py:1026-1030 | each window is left with exactly the rows the batch does not name, in order |
| StoreLaws.ChangedCovers | src/trustedrouter/_telemetry.py:1026-1033 | every window whose size went stale is among those re-measured |
| StoreLaws.ResizeAllLaws | src/trustedrouter/_telemetry.py:1031-1034 | re-measuring makes every size right again and moves the byte counter with the queued sizes, off by the shrinkage of windows no longer queued |
| StoreLaws.NonEmptyTotal | src/trustedrouter/_telemetry.py:1035-1037 | dropping emptied windows from the queue changes no total |
| StoreLaws.WithoutKeeps | src/trustedrouter/_telemetry.py:1018-1022 | removing delivered events keeps the others, in order |
| Runs.OnRequestKeeps | src/trustedrouter/_telemetry.py:834-860 | a request keeps the whole invariant and never touches a window already closed |
| Runs.SelectKeeps | src/trustedrouter/_telemetry.py:913-982 | a selection keeps the invariant; its batch has at most 100 events, 200 rows and 65,536 bytes and matches its references position by position; no buffered event is rejected |
| Ledgers.RemoveLaws | src/trustedrouter/_telemetry.py:1013-1037 | a 202 removes exactly the selected events and keeps the others in order, takes from each total what its references weighed, and moves the byte counter by the exact equation |
| Ledgers.RemovedRows | src/trustedrouter/_telemetry.py:1026-1037 | row by row, a 202 deletes exactly the rows it names: every window keeps the others unchanged and in order, no named reference still finds a row, and emptied windows leave the queue |
| Ledgers.PolicyOnlySlows | src/trustedrouter/_telemetry.py:1039-1058 | the server's policy can only lower the sampling rate, lengthen the flush interval and extend the pause |
| Ledgers.PolicyIsMinMax | src/trustedrouter/_telemetry.py:1039-1058 | each setting becomes the smaller or larger of its old value and an acceptable offer |
| Ledgers.BackoffDoubles | src/trustedrouter/_telemetry.py:1002-1011 | after any sequence of failures the delay is sixty seconds doubled once per failure up to six hundred, never below the last hint |
| Answers.FatalIff | src/trustedrouter/_telemetry.py:1071-1101 | the reporter is switched off by the kill header and by 400, 401, 403, 404 and 410, and by nothing else, and then holds nothing |
| Answers.WaitsIff | src/trustedrouter/_telemetry.py:1002-1011 | any other answer but 202 and 413 only waits: for the delay or a longer acceptable hint, at most 600 s, and the next delay is twice this one between 60 and 600 s |
| Answers.Accepted | src/trustedrouter/_telemetry.py:1084-1090 | a 202 takes the batch away, takes the drops it reported off the counter, and ends the waiting |
| Answers.TooLarge | src/trustedrouter/_telemetry.py:1097-1100 | a 413 takes the batch away and counts all of it as dropped |
| Histories.QuietUntil | src/trustedrouter/_telemetry.py:1103-1108 | with no batch in flight, whatever requests come in, the next selection is not before the backoff and the pause are over |
| Ledgers.RespondKeeps | src/trustedrouter/_telemetry.py:1071-1101 | every answer keeps the invariant |
| Ledgers.NextKeeps | src/trustedrouter/_telemetry.py:1103-1155 | every step of the reporter, with a batch in flight or not, and a flush that dies between selection and answer included, keeps the invariant and the batch's alignment |
| Ledgers.SentBalances | src/trustedrouter/_telemetry.py:557-582 | what the rows of a batch in flight say is what its references hold, up to the clamp and the floor of the wire |
| Ledgers.RespondBalances | src/trustedrouter/_telemetry.py:1071-1101 | each kind of answer moves counters, events and drops between the ledgers, with delivery measured by the rows of the batch and every deviation named by a term |
| Ledgers.StepBalances | src/trustedrouter/_telemetry.py:834-1101 | the same for every step |
| Histories.RunKeeps | src/trustedrouter/_telemetry.py:834-1155 | the invariant holds in every reachable state |
| Histories.RunBalances | src/trustedrouter/_telemetry.py:834-1155 | over any run, what entered is held, was said by a batch answered 202, was discarded or clamped off, up to what was pruned in flight and what the wire misstated |
| Histories.Conservation | src/trustedrouter/_telemetry.py:834-1155 | from a fresh reporter everything ever taken is accounted for, for each counter, for events and for drops: held + delivered + discarded + lost + clipped = taken + twice + invented |
| Histories.DropsExact | src/trustedrouter/_telemetry.py:1084-1100 | on every run, the drops counted are the pending counter, the drops reported in batches answered 202, and what a disable wiped, even when drops happen while a batch is in flight |
| Histories.GuardNeverBites | src/trustedrouter/_telemetry.py:1083-1085 | an acknowledged batch never reports more drops than are pending, so the guard at zero never acts |
| Exactness.TwiceFreeIff | src/trustedrouter/_telemetry.py:1026-1034 | a step counts nothing of a cell twice if and only if it neither delivers nor refuses, or every row it deletes from a window no longer queued is empty in that cell |
| Exactness.RunTwiceFreeIff | src/trustedrouter/_telemetry.py:834-1155 | the same over any run: exactly when it holds at each step |
| Exactness.MisstatesNothingIff | src/trustedrouter/_telemetry.py:557-582 | a batch is misstated in no cell, over or under, if and only if every row it carries can be sent as it is |
| Exactness.BatchIsStoredIff | src/trustedrouter/_telemetry.py:557-582 | the rows of a batch in flight are the stored ones, one by one, if and only if each has its counts in range and at least one request |
| Exactness.RunFaithfulIff | src/trustedrouter/_telemetry.py:834-1155 | on a run every correction term of every counter is zero if and only if each row folded is within the clamp, each row deleted from a pruned window is empty, and each row delivered can be sent as it is |
| Exactness.CountedExactlyOnce | src/trustedrouter/_telemetry.py:834-1101 | on every such run each accepted increment is in the open table, a closed window, the rows of a batch answered 202 as they were sent, or an explicit discard, exactly once |
| Evictions.GoneEvents | src/trustedrouter/_telemetry.py:1018-1022 | the events a batch still carries although they were evicted are exactly those whose id is no longer buffered |
| Evictions.EventsTwiceFreeIff | src/trustedrouter/_telemetry.py:1013-1022 | a step counts an event twice for each evicted event of the batch it removes, and none if and only if it removes no batch or every event of the batch is still buffered |
| Evictions.RunEventsTwiceFreeIff | src/trustedrouter/_telemetry.py:834-1155 | the same over any run: exactly when it holds at each step |
| Evictions.EventsCountedOnceIff | src/trustedrouter/_telemetry.py:834-1155 | from a fresh reporter, every sampled event is exactly once among those buffered, delivered and discarded if and only if no batch is removed after one of its events was evicted |
| Evictions.RunExactIff | src/trustedrouter/_telemetry.py:834-1155 | on a run no ledger, of counters, events or drops, needs a correction if and only if every step is clean for counters and no batch is removed after one of its events was evicted |
| Evictions.EvictsOne | src/trustedrouter/_telemetry.py:731-755 | of a batch still buffered in full, a request takes exactly one event, and only when it is sampled, finds the buffer full, and the event to evict is of the batch |
| Evictions.EvictedThenDelivered | src/trustedrouter/_telemetry.py:731-755 | from any such state, the request discards that event and a 202 then counts it as delivered too |
| EvictionExample.EvictedInFlight | src/trustedrouter/_telemetry.py:731-755 | the run that does it: a thousand sampled requests, a selection, one more request, and the 202 |
| Histories.StepDrifts | src/trustedrouter/_telemetry.py:878-904 | the exact equation of the byte counter for every step, including the prune in flight |
| Histories.BytesExact | src/trustedrouter/_telemetry.py:893-904 | when no answer deletes rows of a window pruned in flight, the byte counter is the sum of the queued sizes in every reachable state |
| Exactness.StrayBytesIff | src/trustedrouter/_telemetry.py:1031-1034 | an answer moves the byte counter for windows no longer queued if and only if the batch has rows of such windows |
| Exactness.StepBytesIff | src/trustedrouter/_telemetry.py:878-1037 | a step leaves an exact byte counter exact if and only if it deletes nothing from a window pruned in flight |
| Exactness.BytesExactIff | src/trustedrouter/_telemetry.py:834-1155 | on any run the byte counter is exact throughout if and only if no answer deletes rows of a window pruned in flight |
| Histories.MinuteStartMonotone | src/trustedrouter/_telemetry.py:757-758 | a later clock reading never gives an earlier minute |
| Histories.StepOrderedIff | src/trustedrouter/_telemetry.py:760-767 | requests, answers and shutdowns never disorder the queue, whatever the clock reads; a selection does exactly when it closes a table at a reading before that table's minute and something stays queued |
| Histories.QueueSorted | src/trustedrouter/_telemetry.py:878-891 | while no selection sets the open minute back like this, the queue is always sorted by start |
| OrderExample.QueueDisordered | src/trustedrouter/_telemetry.py:878-891 | the run without that condition: a window of second 60 closed by a selection that read second 0, and a request at second 0, leave the queue in the order 60, 0 |
| Histories.ChronologicalRuns | src/trustedrouter/_telemetry.py:760-767 | with clock readings in lock order no selection sets the open minute back and the open minute has always begun |
| Histories.RetentionHolds | src/trustedrouter/_telemetry.py:878-904 | from a sorted queue and an exact byte counter, every step that prunes restores the byte bound and the age bound |
| Histories.RetentionOverRuns | src/trustedrouter/_telemetry.py:878-904 | the same at the end of every run from a fresh reporter in which no selection sets the open minute back and no answer deletes rows of a window pruned in flight |
| Counterexample.PrunedInFlight | src/trustedrouter/_telemetry.py:1026-1034 | a concrete run in which a window is pruned in flight: the byte counter ends at -100 and one request is both discarded and delivered |
| Reporter.RotatePopRotate | src/trustedrouter/_telemetry.py:740-742 | rotate, popleft, rotate back removes one element and keeps the order of the others |
| Reporter.TelemetryReporter.constructor | src/trustedrouter/_telemetry.py:591-642 | starts empty, at the minimum backoff, in the modelled initial state |
| Reporter.TelemetryReporter.DropBufferedEvent | src/trustedrouter/_telemetry.py:731-744 | the rotations evict the event the specification names |
| Reporter.TelemetryReporter.AppendBuffered | src/trustedrouter/_telemetry.py:746-755 | appends, evicting first at a full buffer |
| Reporter.TelemetryReporter.PruneWindows | src/trustedrouter/_telemetry.py:897-904 | the two loops drop exactly the specified prefix |
| Reporter.TelemetryReporter.CloseCurrentWindow | src/trustedrouter/_telemetry.py:878-891 | queues the open table, then prunes; does nothing when the table is empty |
| Reporter.TelemetryReporter.RollWindow | src/trustedrouter/_telemetry.py:760-767 | closes the open window exactly when the minute advanced |
| Reporter.TelemetryReporter.CounterTarget | src/trustedrouter/_telemetry.py:778-817 | picks the specified row and leaves the specified table in each of its six cases |
| Reporter.TelemetryReporter.MergeIncoming | src/trustedrouter/_telemetry.py:819-832 | the loop merges accepted counters and counts rejected ones as dropped |
| Reporter.TelemetryReporter.Receive | src/trustedrouter/_telemetry.py:834-860 | on_request as a whole, keeping the invariant |
| Reporter.TelemetryReporter.SelectBatch | src/trustedrouter/_telemetry.py:913-982 | the batch and state the specification gives, aligned and bounded |
| Reporter.TelemetryReporter.TrimBatch | src/trustedrouter/_telemetry.py:974-981 | the popping loop is the specified trim |
| Reporter.TelemetryReporter.RemoveSelected | src/trustedrouter/_telemetry.py:1013-1037 | the three loops of the removal |
| Reporter.TelemetryReporter.BackOff | src/trustedrouter/_telemetry.py:1002-1011 | waits the larger of backoff and Retry-After, up to 600 s, and doubles the backoff between 60 s and 600 s |
| Reporter.TelemetryReporter.Apply | src/trustedrouter/_telemetry.py:1039-1058 | applies a policy field by field |
| Reporter.TelemetryReporter.DisableReporter | src/trustedrouter/_telemetry.py:1060-1069 | clears everything held, for good |
| Reporter.TelemetryReporter.HandleResponse | src/trustedrouter/_telemetry.py:1071-1101 | each answer's branch, keeping the invariant |
| Recorder.RequestRecorder.StoreAttempt | src/trustedrouter/_telemetry.py:1362-1368 | replaces the current record or appends it, so there is one record and one phase per attempt |
| Recorder.RequestRecorder.BeginAttempt | src/trustedrouter/_telemetry.py:1305-1311 | the next record's index is the number of records so far |
| Recorder.RequestRecorder.OnResponse | src/trustedrouter/_telemetry.py:1370-1413 | the whole record of an answered attempt |
| Recorder.RequestRecorder.OnTransportError | src/trustedrouter/_telemetry.py:1415-1454 | a failure keeps what the server told, and keeps status and first-byte time only if the response had opened |
| Recorder.RequestRecorder.OnMoved | src/trustedrouter/_telemetry.py:1456-1460 | marks the last attempt, adding one to the count of moves |
| Recorder.RequestRecorder.OnFirstEvent | src/trustedrouter/_telemetry.py:1462-1464 | only the first event sets the time |
| Recorder.RequestRecorder.OnAborted | src/trustedrouter/_telemetry.py:1466-1487 | an abort overwrites the outcome of the current attempt and nothing the server told |
| Recorder.RequestRecorder.Finish | src/trustedrouter/_telemetry.py:1590-1598 | at most one report per call, and only for a recordable call with an attempt |
| Recorder.ReportTotals | src/trustedrouter/_telemetry.py:1506-1588 | every counter of a finished call is accepted; there is one request row and one attempt row per send, and the attempt rows' failover marks are the host moves |
| Reports.LatencyIs | src/trustedrouter/_telemetry.py:241-248 | each duration goes to the bucket whose bounds enclose it; the bounds are 100 ms doubled ten times |
| Reports.FirstClassIs | src/trustedrouter/_telemetry.py:1536-1539 | the error class of the first attempt that had one, or none |
| Reports.CallReported | src/trustedrouter/_telemetry.py:1535-1562 | the call's own counter comes first, under the last attempt's dimensions, with the first error class, the status class and the timeout floor told in numbers; the total and the time to the first sign of an answer are counted once each |
| Reports.AttemptReported | src/trustedrouter/_telemetry.py:1563-1588 | each attempt has its own counter, in order after the call's, under its own dimensions and in no histogram |
| Reports.EventReported | src/trustedrouter/_telemetry.py:1506-1534 | the event says what the call was, every attempt of it, and how it ended: exhausted exactly when told so after more than one attempt, the last not ok |
| Recorder.ReportIsValidSample | src/trustedrouter/_telemetry.py:1522-1539 | a finished call's event is never counted as an invalid sample |
| Framing.Find | src/trustedrouter/receipts.py:475-476 | the least index at or after the offset where the terminator starts |
| Framing.NextEvent | src/trustedrouter/receipts.py:474-483 | the raw frame is the bytes from the offset to its end, and the end is past the offset |
| Framing.NoBoundaryNoEvent | src/trustedrouter/receipts.py:474-483 | no frame is found exactly when neither terminator occurs |
| Framing.FirstTerminatorStable | src/trustedrouter/receipts.py:474-483 | the first terminator found in a prefix is the first in every extension, though two terminators compete |
| Framing.DecodeEvent | src/trustedrouter/receipts.py:433-471 | the loop over lines is the specified decoder, error by error |
| Framing.DecodedHasNoLf | src/trustedrouter/receipts.py:433-471 | decoded names and payloads hold no line feed |
| Grammar.SplitIs | src/trustedrouter/receipts.py:444 | splitting into lines takes nothing away but the line feeds between them |
| Grammar.BearsIff | src/trustedrouter/receipts.py:445-464 | a line is a field with a value exactly when it is the name, a colon, an optional space, the value and an optional carriage return |
| Grammar.IncompleteIff | src/trustedrouter/receipts.py:434-439 | a frame is incomplete if and only if it ends in neither terminator |
| Grammar.DecodeIs | src/trustedrouter/receipts.py:433-471 | which error a complete frame gives: that of its first line that is no known field or whose field was there before, else that of a missing data line; without one, the values of its lines |
| Grammar.FrameIff | src/trustedrouter/receipts.py:433-471 | the decoder accepts exactly the frames of the grammar, one data line alone or with one event line before or after it, ended by one of the two terminators, and reads off their values |
| Grammar.FrameStands | src/trustedrouter/receipts.py:474-483 | a frame of the grammar is the next one found wherever it stands, whatever comes before and after it |
| Grammar.EventsIff | src/trustedrouter/receipts.py:502-518 | the parser finds exactly the streams that are such frames one after another, and their events |
| Grammar.PrintedIsFrame | src/trustedrouter/receipts.py:433-471 | a printed event is a frame of it, with either terminator |
| Grammar.DecodePrinted | src/trustedrouter/receipts.py:433-471 | decoding a printed event gives it back, with either terminator |
| Grammar.PrintedFrame | src/trustedrouter/receipts.py:474-483 | the first boundary of a printed frame is its own terminator, whatever precedes and follows it |
| Digest.Absorb | src/trustedrouter/receipts.py:518-557 | one event's effect on the digest automaton |
| Digest.DigestStream | src/trustedrouter/receipts.py:502-566 | the loop is the specified scan, and it terminates because the offset grows |
| Digest.AcceptsExactly | src/trustedrouter/receipts.py:502-566 | a stream is accepted if and only if it is, byte for byte, frames of the grammar one after another whose events are data events, then the expected receipt, then [DONE]; the result is their preimage and their count |
| Digest.ErrorIs | src/trustedrouter/receipts.py:502-566 | which error a stream gives, told by the frames it begins with that nothing is objected to: what those before make wrong with the next one, why it does not decode, that none follows, or what is missing at the end |
| Digest.PreimageIs | src/trustedrouter/receipts.py:543-557 | what is hashed are lines, each ended by a line feed: for each event its name, where the domain has names, and its payload |
| Digest.PreimageDetermines | src/trustedrouter/receipts.py:543-557 | equal preimages of events without line feeds come from equal events |
| Digest.PreimageInjective | src/trustedrouter/receipts.py:543-557 | two accepted streams with one preimage in one domain have the same data events and count |
| Digest.ReframingRoundTrip | src/trustedrouter/receipts.py:433-483 | printing any events with any mix of terminators and parsing gives the same events |
| Digest.ReframingKeepsDigest | src/trustedrouter/receipts.py:502-566 | the digest's result does not depend on the terminators used |
| Capture.ReceiptCapture.Next | src/trustedrouter/receipts.py:891-898 | a chunk is appended to the captured bytes and the receipt is that of a one-shot parse |
| Capture.ReceiptCapture.RefreshReceipt | src/trustedrouter/receipts.py:907-921 | the walk over complete frames keeps the latest receipt and skips frames that do not decode |
| Capture.ReceiptCapture.Drain | src/trustedrouter/receipts.py:880-905 | a whole source leaves its exact bytes and the last receipt embedded in them |
| Capture.RefreshIsOneShot | src/trustedrouter/receipts.py:907-921 | re-parsing from the receipt known so far equals parsing afresh |
| Capture.WalkIs | src/trustedrouter/receipts.py:907-921 | the receipt held is that of the last complete frame that embeds one, and the one held before when none does |
| Capture.ChunkIndependent | src/trustedrouter/receipts.py:891-921 | however the same bytes are cut into chunks, the capture ends with the same bytes and receipt |
| Capture.CapturedIsExpected | src/trustedrouter/receipts.py:907-921 | from a stream the digest accepts, the capture holds exactly the receipt expected |
| Retry.BoundedRetryAfter | src/trustedrouter/_retry.py:145-154 | a hint is rejected exactly when negative or not finite, and otherwise lies in [0, 60] |
| Retry.RetryAfterSeconds | src/trustedrouter/_retry.py:157-184 | nothing outside [0, 60] gets through, whatever the headers say |
| Retry.RetrySleep | src/trustedrouter/_retry.py:187-202 | at most 60 s, and at least the hint |
| Retry.RetryableIff | src/trustedrouter/_retry.py:96-104 | the server's verdict decides when there is one, and otherwise exactly 429 and everything from 500 on is retried |
| Retry.RetryAfterIs | src/trustedrouter/_retry.py:145-184 | a usable millisecond hint gives its thousandth, else a usable hint in seconds itself, each at most 60; otherwise there is none |
| Retry.JitterIs | src/trustedrouter/_retry.py:195 | the jitter ceiling starts at half a second, doubles up to attempt five, and is thirty seconds from attempt six on |
| Retry.RetrySleepIs | src/trustedrouter/_retry.py:187-202 | the sleep is the jitter, or a hint that is longer |
| Retry.RetryController.OnResponse | src/trustedrouter/_retry.py:281-302 | gives up exactly on a spent budget or a status that is not retryable; otherwise moves exactly after 502, 503 or 504 with failover on and another candidate |
| Retry.RetryController.OnTransportError | src/trustedrouter/_retry.py:304-321 | gives up exactly on a spent budget or an opened response; otherwise moves whenever it may |
| Routing.Dedup | src/trustedrouter/_routing.py:46-76 | the result holds exactly the entries not seen before, without repeats |
| Routing.DedupInOrder | src/trustedrouter/_routing.py:46-76 | what remains is in the order of first occurrence |
| Routing.StaticCandidates | src/trustedrouter/_routing.py:30-46 | a custom base stands alone; the default base comes first and is followed by every alias, without repeats |
| Routing.ProbedCandidates | src/trustedrouter/_routing.py:60-76 | the list after a probe has no repeats, starts with the winner, keeps every static candidate, and is no shorter |
| Routing.CandidatesAre | src/trustedrouter/_routing.py:30-76 | the lists are the first occurrences, in order, of the primary and behind the default base the aliases; and of the winner, the primary, the regions and those |
| Routing.BaseUrlPool.Current | src/trustedrouter/_routing.py:185-199 | one read by one thread: probes when pending and the client was not swapped; a probe that raises leaves the pool as it was, still pending, and anything else leaves it settled |
| Routing.AloneSkips | src/trustedrouter/_routing.py:185-190 | a thread alone, with the flag down or a swapped client, lowers the flag and reads the list as it is |
| Routing.AloneProbes | src/trustedrouter/_routing.py:191-199 | a thread alone, with the flag up, probes once and reads the probed list, with the flag down and the lock free |
| Routing.AloneRaises | src/trustedrouter/_routing.py:191-198 | a thread alone whose probe raises leaves the list, the flag and the lock as they were |
| Routing.TurnKeepsPool | src/trustedrouter/_routing.py:185-199 | every step of every thread, a raising probe included, keeps mutual exclusion, the count of probes and the list's shape, and never shortens the list |
| Routing.ReplacedAtMostOnce | src/trustedrouter/_routing.py:185-199 | over every interleaving, client swaps and raising probes included, at most one probe completes, the list is replaced at most once and keeps every static candidate, and at most one probe more starts than raises |
| Routing.NoProbeAfterCompletion | src/trustedrouter/_routing.py:185-199 | once a probe has completed no probe starts again, although readers may already be past the first check |
| Routing.RaisingProbesAgain | src/trustedrouter/_routing.py:191-198 | a concrete run in which a probe raises and the next reader probes again |
| Routing.IndexNeverStranded | src/trustedrouter/_routing.py:185-199 | an index in range at one read is in range at every later read |
| Routing.ReadsGrow | src/trustedrouter/_routing.py:185-199 | along any run of the pool later reads never find a shorter list, and no read finds an empty one |
| Traces.PoolIsSteady | src/trustedrouter/_routing.py:185-199 | what both drivers assume of their candidate lists holds of reads taken in order along any run of the pool |
| Traces.ReplaySafety | src/trustedrouter/_transport.py:72-93 | a request whose method is none of GET, HEAD, OPTIONS and TRACE in any case, and which has no idempotency-key header with a value, is sent again only after an attempt that never left or was answered with should-retry true |
| Traces.ReplayableIff | src/trustedrouter/_transport.py:66-74 | the drivers' replay test holds of exactly the requests with one of those four methods or such a header, letter by letter |
| Traces.MayRetryIff | src/trustedrouter/_transport.py:66-93 | another attempt is due exactly after one that never left, after no answer or an answer to retry when the request may be repeated, and after should-retry true |
| Traces.IndexCountsMoves | src/trustedrouter/_retry.py:281-321 | the candidate index is the number of moves so far, and stays put with failover off |
| Traces.OneCandidateStays | src/trustedrouter/_retry.py:281-321 | with one candidate the index is 0 and nothing moved before |
| Traces.RecordedIff | src/trustedrouter/_transport.py:149-198 | only the last send of a call can end in an exception the driver does not catch; there is one record per send if and only if none did, and one fewer otherwise |
| Traces.ExhaustedMeansSpent | src/trustedrouter/_transport.py:173-190 | exhaustion is passed only for max_retries + 1 > 1 attempts that all ended in a retryable failure |
| Traces.RetriedIsLawful | src/trustedrouter/_retry.py:281-321 | a decision to retry obeys the laws: allowed outcome, bounded sleep above the hint, index in range at the next read |
| Drivers.BufferedRunIsLawful | src/trustedrouter/_transport.py:123-198 | whatever the network does, exceptions the driver does not catch included, a buffered run makes at most max_retries + 1 sends, moves lawfully, and reports exhaustion exactly when the budget ended it |
| Drivers.SentAgainIff | src/trustedrouter/_transport.py:149-191 | an attempt is followed by another if and only if one is due, the budget is not spent and the sleep is not interrupted, so a request that may be repeated is sent again after a retryable answer; each record says where the next attempt goes and how long the sleep is, in the request's and the network's own terms |
| Drivers.LastSendIs | src/trustedrouter/_transport.py:149-198 | how a call ends: with its last answer, its last failure, or an interrupt of the request or of the sleep |
| Drivers.Observe | src/trustedrouter/_transport.py:158-177 | the recorder hook matches what became of the request |
| Drivers.NoteMove | src/trustedrouter/_transport.py:165-185 | after a retry decision the move is recorded on the attempt just made, before the sleep |
| Drivers.Sleep | src/trustedrouter/_transport.py:174-195 | an interrupted sleep is recorded as an abort, and any other changes no record |
| Drivers.Decide | src/trustedrouter/_transport.py:162-190 | the driver's replay test and the controller's decision, for each outcome |
| Drivers.BufferedAttempt | src/trustedrouter/_transport.py:149-191 | one pass of the loop is one step of the specified run |
| Drivers.BufferedPass | src/trustedrouter/_transport.py:149-191 | one pass keeps the records, the controller and the sends so far in agreement, up to a send whose exception escapes |
| Drivers.RequestWithRetry | src/trustedrouter/_transport.py:123-198 | the loop performs the specified run; the recorder holds one truthful record on the right host per send that did not escape, so as many as sends if and only if none escaped; moves equal the controller's index, failover_used holds exactly when it is positive, and a report is made exactly when there is a record |
| Streams.EventsRunIsLawful | src/trustedrouter/_transport.py:267-362 | stream runs obey the same laws; a send whose refusal escapes while it is drained is the last one and does not sleep |
| Streams.OpenedAgainIff | src/trustedrouter/_transport.py:284-355 | a stream is opened again if and only if it was no 2xx, another attempt is due, the budget is not spent, the refusal could be drained and the sleep is not interrupted |
| Streams.NeverStitched | src/trustedrouter/_transport.py:284-355 | no request follows a 2xx; what is yielded are the first items of that one body, all of them unless the consumer closes, and the call completes exactly when the body ends cleanly unclosed; a body cut by the transport ends in an error that is not called exhaustion |
| Streams.HandOn | src/trustedrouter/_transport.py:328-336 | items are handed on in order until the end, a cut, or the consumer's close, and the record of the attempt says which |
| Streams.DecideOpening | src/trustedrouter/_transport.py:303-353 | the stream driver's test and decision when nothing was opened successfully |
| Streams.DrainRefusal | src/trustedrouter/_transport.py:323-353 | a failure while reading the error body of a refused stream is terminal and is not exhaustion |
| Streams.AfterGrant | src/trustedrouter/_transport.py:309-322 | after a granted retry the move is recorded, then the refusal is drained and the driver sleeps; an exception that escapes the drain ends the call with the record of the refusal kept |
| Streams.StreamAttempt | src/trustedrouter/_transport.py:285-355 | one pass of the loop is one step of the specified run |
| Streams.StreamPass | src/trustedrouter/_transport.py:285-355 | one pass keeps the records, the controller and the sends so far in agreement, up to a send whose exception escapes |
| Streams.StreamEvents | src/trustedrouter/_transport.py:267-362 | the loop performs the specified run, with the same agreement of recorder and controller, and one record per send if and only if no send escaped |
| Codecs.IterChunks | src/trustedrouter/_sse.py:151-167 | the loop yields and fails as specified |
| Codecs.EndsNormallyIff | src/trustedrouter/_sse.py:151-167 | the line codec ends normally if and only if a [DONE] line occurs, every line before it is clean and only idle lines follow, and then yields exactly the chunks before it |
| CodecLaws.DataIff | src/trustedrouter/_sse.py:19-22 | a data line is the field name and a text with any white space around it |
| CodecLaws.LineIs | src/trustedrouter/_sse.py:25-52 | a data line is its object, or the fault of its text: no JSON, no object, or an object that reports an error; empty text and [DONE] are nothing |
| CodecLaws.TakeLineIs | src/trustedrouter/_sse.py:155-165 | text after [DONE] is an error whatever it says, and [DONE] itself never is |
| CodecLaws.ChunksAre | src/trustedrouter/_sse.py:151-167 | any stream gives the objects before its first faulty line and that line's fault, or all of them and no error exactly when there was a [DONE] |
| Codecs.CutLinesRaise | src/trustedrouter/_sse.py:166-167 | a stream cut before its [DONE] raises in the line codec |
| Codecs.IterEvents | src/trustedrouter/_sse.py:75-102 | the frame loop, including the unterminated last frame, yields and fails as specified |
| Codecs.FramesEndNormallyIff | src/trustedrouter/_sse.py:75-102 | the frame codec ends normally if and only if some frame has a [DONE] line, every frame before it reads without error and every frame after it has a [DONE] line or no data, and then yields exactly the events before it |
| CodecLaws.FramesAre | src/trustedrouter/_sse.py:75-93 | the frames are the lines between empty lines, the unterminated last one included |
| CodecLaws.PayloadsAre | src/trustedrouter/_sse.py:58-62 | the payloads of a frame are the texts of its data lines, in order |
| CodecLaws.JoinIs | src/trustedrouter/_sse.py:63 | the payloads are joined by line breaks, a single one left as it is |
| CodecLaws.NameIs | src/trustedrouter/_sse.py:58-60 | the name of a frame is the last one given |
| CodecLaws.FrameIs | src/trustedrouter/_sse.py:55-72 | what a frame is, by the text its payloads make and its name |
| CodecLaws.TakeFrameIs | src/trustedrouter/_sse.py:75-100 | a [DONE] line anywhere in a frame ends the stream; after that a data line with text is an error |
| CodecLaws.EventsAre | src/trustedrouter/_sse.py:75-102 | any stream gives the events before its first faulty frame and that frame's error, or all of them and no error exactly when there was a [DONE] |
| Codecs.CutFramesRaise | src/trustedrouter/_sse.py:101-102 | a stream cut before its [DONE] raises in the frame codec |
| Codecs.TameFrameAgrees | src/trustedrouter/_sse.py:19-102 | an unnamed frame with at most one data line, not an error object, means the same to both codecs |
| Codecs.CodecsAgree | src/trustedrouter/_sse.py:19-167 | on streams of such frames both codecs yield the same sequence and end the same way |
| Collector.Sorted | src/trustedrouter/_collect.py:92-103 | strictly increasing, with exactly the set's members |
| Collector.MergeToolCallDeltas | src/trustedrouter/_collect.py:138-174 | the loop over tool-call deltas is the specified fold |
| Collector.MergeLive | src/trustedrouter/_collect.py:60-86 | merging one choice into lists of parts is merging it into the joined texts |
| Collector.MergeChoices | src/trustedrouter/_collect.py:40-86 | the loop over one chunk's choices is the specified fold |
| Collector.CollectCompletion | src/trustedrouter/_collect.py:17-135 | the whole collector, with its lists of parts, is the specified fold and assembly |
| Shapes.CollectsIff | src/trustedrouter/_collect.py:17-59 | a stream collects if and only if every chunk is well shaped and some chunk has a choice, and the error says which of these failed; what was collected before a chunk does not matter |
| Indexed.TakenAt | src/trustedrouter/_collect.py:40-86 | what a fold by index leaves at an index is that index's own deltas merged in order, whatever ran between them |
| Alike.SameChunks | src/trustedrouter/_collect.py:17-86 | chunks that leave the same envelope and usage and fold alike at every index do the same to every accumulator |
| Parts.HalvesErased | src/trustedrouter/_collect.py:60-86 | a choice and its two halves, with any choices between these, leave the same state but for the one kind of string that is cut |
| Readings.ReadHalves | src/trustedrouter/_collect.py:70-78 | the string read off a choice and off its halves with others between them is the same if and only if the second half commutes with what is read between |
| TextCuts.CutTextIff | src/trustedrouter/_collect.py:40-86 | in any stream, moving the second half of a text to a chunk of its own leaves the completion or the failure unchanged if and only if the stream fails anyway or the half commutes with the text later choices of its chunk stream for the same index |
| TextCuts.CutTextInPlace | src/trustedrouter/_collect.py:40-86 | cutting a text into two neighbouring choices of one chunk changes nothing in any stream, if the choices after them name their indexes |
| CutExamples.TwoTextsIff | src/trustedrouter/_collect.py:40-86 | for two choices of one chunk at one index, the cut changes the completion exactly when the order of the second half and the other text shows |
| CutExamples.CutChangesText | src/trustedrouter/_collect.py:40-86 | concrete inputs: "ab" then "c" changes when cut after the "a", "ab" then "b" does not |
| CallCuts.CutCallIff | src/trustedrouter/_collect.py:138-174 | the same for a tool call's arguments: what comes between are the arguments of later calls of the delta and of later choices of the chunk, for the same call of the same choice |
| CallCuts.CutCallInPlace | src/trustedrouter/_collect.py:138-174 | cutting the arguments into two neighbouring calls of one delta changes nothing in any stream, if the calls after them name their indexes |
| FunctionCuts.CutFunctionIff | src/trustedrouter/_collect.py:177-190 | the same as for texts for the arguments of a legacy function call |
| FunctionCuts.CutFunctionInPlace | src/trustedrouter/_collect.py:177-190 | cutting them into two neighbouring choices changes nothing, if the choices after them name their indexes |
| CutExamples.TwoCallsIff | src/trustedrouter/_collect.py:138-174 | for two argument strings of one call in one delta, the cut changes the completion exactly when the order of the second half and the other string shows |
| CollectorLaws.TouchesOnly | src/trustedrouter/_collect.py:40-59 | a chunk changes only the choice indexes it names, and creates every one of them |
| CollectorLaws.DependsOnlyOn | src/trustedrouter/_collect.py:40-86 | what a chunk does to its indexes depends on those indexes alone |
| CollectorLaws.ChoicesCommute | src/trustedrouter/_collect.py:40-86 | choices at disjoint indexes commute, failures included |
| CollectorLaws.SwapAnywhere | src/trustedrouter/_collect.py:30-86 | swapping adjacent independent chunks anywhere in a stream leaves the completion unchanged |
| Collected.StateIsFold | src/trustedrouter/_collect.py:40-86 | the state collected for an index is that index's own choice objects merged in order, and the indexes are exactly those seen |
| Collected.CollectedChoices | src/trustedrouter/_collect.py:91-121 | the completion has one choice per index seen, in strictly increasing order |
| Collected.CollectedText | src/trustedrouter/_collect.py:70-78 | in the completion, each text field of each message is the in-order concatenation of its index's string deltas; with no string delta it is no text, except that content may default to the empty string |
| Collected.CollectedFunction | src/trustedrouter/_collect.py:177-190 | in the completion, a message has a function call exactly when some delta had one, and its arguments are theirs concatenated in order |
| Collected.CollectedCalls | src/trustedrouter/_collect.py:138-174 | in the completion, a message has tool calls exactly when some delta had one: one per call index seen, in increasing order, each with the in-order concatenation of its own argument strings |
| LastValues.CollectedCall | src/trustedrouter/_collect.py:138-174 | in the completion, a tool call's function name is the last non-null name among its own deltas, or empty, and its id, its type and every other field of its own is the last value given, the type "function" by default |
| LastValues.CollectedFunctionName | src/trustedrouter/_collect.py:177-190 | the name of a legacy function call is the last non-null one, or empty, and so is every other field of it but the arguments |
| LastValues.CollectedReason | src/trustedrouter/_collect.py:60-120 | a choice's finish reason is the last non-null one, or null, and every field of its own the last value it was given |
| LastValues.CollectedRole | src/trustedrouter/_collect.py:70-94 | the role is the last string, or "assistant"; a role that was no string, null included, is kept as it is and wins |
| LastValues.CollectedExtra | src/trustedrouter/_collect.py:83-94 | every other field of a message is the last value a delta gave it |
| LastValues.CollectedSilence | src/trustedrouter/_collect.py:74-113 | a text field without a string delta is the last other value it was given, else null if it was ever named, else absent; the content is there in any case, null when the message says something else and empty when it does not |
| LastValues.CollectedEnvelope | src/trustedrouter/_collect.py:30-135 | every field of the envelope is the last value a chunk gave it, with the defaults of id, created and model; the usage is the last object |

## Left out

- JSON text and sizes: byte lengths of events, windows and batches are arbitrary functions, so the 600-byte fallback for an event that cannot be serialised is one of their values.
- Number text: `int` and `float` of strings are parameters; floats are reals, so rounding and the overflow of huge integers are not modelled. Header text (`x-should-retry`, `retry-after`, `x-tr-telemetry`, `x-request-id`) arrives parsed.
- Exceptions inside on_request: a field value that cannot be hashed makes a vocabulary test raise, and on_request then drops the event and all its counters silently; here such a value is simply not in the vocabulary.
- The worker thread, its waiting loop, urgent-flush wake-ups, atexit and fork hooks, and the HTTP client of the reporter: only the atomic steps they trigger are kept.
- Histories.Conservation: a fork resets the reporter in the child; such runs are not among the modelled runs.
- The sampling rate is read before the lock in the source; here it is read in the same step as the rest of on_request.
- Histories.QueueSorted: assumes that no selection sets the open minute back, which the source does not enforce because it reads the clock before taking the lock; Histories.StepOrderedIff is the exact condition of a step and OrderExample.QueueDisordered the failing run.
- Histories.RetentionOverRuns: speaks about runs without set-back minutes in which no answer deletes rows of a window pruned in flight; Histories.StepDrifts is the byte equation without that condition, and OrderExample.QueueDisordered and Counterexample.PrunedInFlight are runs outside these conditions.
- Reporter.TelemetryReporter.SelectBatch: windows and events are ids into one map and one counter, not Python object identities; the schema version, ids and wall-clock time of the batch are left out except for one number.
- SHA-256, JSON classification of payloads, Ed25519 and every claim check of receipt verification.
- Capture.CapturedIsExpected: assumes that [DONE] itself does not parse as a receipt, which is a fact about JSON.
- Asynchronous drivers, codecs and pool, which are the same machines line by line.
- Drivers.RequestWithRetry: the request method and headers are constant over a call, closing a response never raises, an interrupt arrives during the request or the sleep, and a recorder is always present.
- Streams.StreamEvents: the same; the consumer may close after any item, but an interrupt in the middle of the body is not modelled, a failure of the transport while draining a refused stream that is retried has no effect, as in the source, and an interrupt while draining is not modelled.
- Letter case of request methods and header names is folded in ASCII only; HTTP has no other letters there.
- The x-tr-client header value, host and endpoint classification of URLs, and classification of transport exceptions, which arrive as data.
- The region probe itself (its parallel measurements and thresholds): the pool takes its winner, or that it raised, as given. An interrupt between two statements of the pool's critical section is not modelled.
- Drivers.BufferedRunIsLawful: reading the candidate list never raises here; in the source a probe that raises in that read ends the call before the next request is made, which leaves the records of the requests already made as they are.
- Exactness.BytesExactIff: sizes are arbitrary functions, so it says of them what holds of JSON, that deleting a row makes a window smaller; the direction of Histories.BytesExact needs no such assumption.
- Collector.CollectCompletion: the Synth metadata, the payloads inside errors, and the order of keys in Python dictionaries; a boolean index counts as its integer, and all shape failures are one error.
- Codecs.CodecsAgree: JSON parsing and the building of named or wrapped events are parameters; splitting bytes into lines is the HTTP library's.
- TLS, OAuth, attestation, the command line, models, request assembly and client facades.
