# Verified model of the Spurline relay and its witness

This project models three linked cores of Spurline and proves properties of them over all inputs, all runs
and all interleavings. `dafny verify dfyconfig.toml` checks everything.

**The event store and its queries** (`Text`, `Events`, `Filters`, `Normalize`, `Ordering`, `Store`,
`EventStore`, `Convergence`, `Answers`). The tables are a map of events, a set of tag-index rows, a map of
tombstones and a job table in row order. `EventStores.EventStore` is the object whose transactions change them; each of its
methods is proved against a function on `Store.Tables`. The query method compiles prefix ranges and index
look-ups per filter, limits per filter, merges, sorts and limits again; it is proved to return what a plain
scan returns. Batches of saves converge whatever their order, and `Answers` tells from what arrived which events a
query answers.

**The witness authorization lifecycle** (`Lifecycle`, `LifecycleRuns`, `WitnessAuthority`, `Authenticity`). A
ledger holds one current row, an append-only chain of grants and revocations, and a local control log.
`WitnessAuthority.WitnessAuthorization` validates the whole chain in a loop before every command and rolls back
when a later check fails. The results are invariants of every run of commands under arbitrary clocks,
the exact conditions under which commands succeed, who signed what, and the finality of stale or repeated evidence.

**Automatic receipts** (`Clock`, `Receipts`, `Witnessing`, `WitnessingFacts`, `Runs`, `RunTheorems`, `Worker`,
`AutomaticWitness`, `Subjects`, `Issuance`). `Runs.Op` interleaves submissions, issuance, administration, clock
checks, broadcasts and restarts with changed settings; every operation carries its own readings and may meet a storage failure. The main
result is `RunTheorems.AuthorizedTwice`: every receipt ever recorded was authorized, by one and the same head
grant, both when its subject was observed and when it was issued. `Issuance.IssuedWhenDue` is its converse.
The worker reads rows, broadcasts and marks in separate operations, with a copy of its rows that a restart loses; `AutomaticWitness.Drain` is proved to be such a
run and to send exactly what that run emits.

**Live delivery** (`Relay`, `RelayService`, `WitnessOnRelay`). Publication and subscription handlers are state machines
cut at their await points; `Relay.DeliveredAtLeastOnce` says exactly which new events can fail to reach an open
subscription. `WitnessOnRelay.OperationIsMoves` places the witness in that model, so that it covers receipts too.

## Assumptions

Hashes, canonical encodings and signatures are foreign. `Events.Crypto` holds them as arbitrary functions, and
lemmas that need more say so: `Sound` (outputs are hexadecimal and a signature verifies under the key that made
it), and freedom from collisions only among the events at hand: the saved events in `Convergence`
(`Events.IdDetermines`), the lifecycle events of one ledger in `RunTheorems` (`NoIdCollisions`). No hash is assumed
injective; a receipt for two subjects is shown to exhibit a collision. A JSON document is its typed value; a content
string is either the canonical encoding of one of the documents or any other text. The verified commissioning record
is the parameter `Lifecycle.Identity`. Clocks, health files, randomness and storage faults are parameters, and nothing
is assumed of them unless a lemma says so. Wall and monotonic time are reals.

## Results that differ from the plain expectation

- The range test p <= v < p + U+10FFFF is the prefix test only for values that do not carry U+10FFFF right after
  the prefix (`Text.PrefixRange`); on the relay's hexadecimal columns the two agree for every prefix.
- A grant signed inside the request's window and imported before the deadline is still refused if it is dated more
  than five minutes ahead of the relay's clock. `LifecycleRuns.RequestThenAuthorize` gives the exact condition, and
  `LifecycleRuns.SkewedSignatureIsRefused` a template 301 seconds ahead that is refused.
- Two orders of the same events need not leave equal tables: the first copy of an event is the one kept, and the
  last deletion request is the one recorded (`Convergence.BatchTables`). `Convergence.EqualTablesIff` says exactly when
  they do, and `TwoSignaturesDiffer` and `TwoRequestsDiffer` when they do not. All queries agree up to signatures all
  the same (`Convergence.OrderDoesNotMatter`).
- The subject of a job need not be stored as it was signed. A second signature over an id the store already holds is
  filed as a job of its own, while the store keeps the first (`Subjects.SecondSignatureIsFiled`). The exact condition is
  `Subjects.SubjectIsStoredIff`; up to signatures the subject is always stored (`Subjects.SubjectsThroughout`).
- The verifier accepts what the issuer builds exactly when its times are safe integers and the verifier's clock is
  not behind by more than the tolerance (`WitnessingFacts.BuiltReceiptVerifiesIff`).

## Model

| member | source | states |
|---|---|---|
| Text.PrefixRange | src/spurline/store.py:94-99 | for all strings, the half-open range test holds if and only if the value starts with the prefix and does not go on with U+10FFFF |
| Text.LessTotal | src/spurline/store.py:115 | code-point order, in which ids are compared, is total |
| Text.StripTrims | src/spurline/witness.py:231 | a stripped reason is the stretch between its first and last character that is no space |
| Text.Utf8LengthAdds | src/spurline/witness.py:74 | the byte length of a policy is the sum over its parts |
| Text.Utf8Widths | src/spurline/witness.py:74 | a character takes one to four bytes, by its range |
| Text.LineIsStretch | src/spurline/automatic_witness.py:97-98 | every line of a policy is a stretch of it between line breaks |
| Text.StretchIsLine | src/spurline/automatic_witness.py:97-98 | every such stretch is one of its lines |
| Events.SignedIsValid | src/spurline/events.py:73-106 | what the service or operator signs passes event validation if and only if it is not dated beyond the tolerance |
| WitnessingFacts.SignedSubjectHasDigest | src/spurline/receipts.py:23-30 | a signed subject has a digest if and only if its kind and time are safe integers and it is not dated beyond 900 s ahead |
| Filters.ValidateFilterBounds | src/spurline/filters.py:12-28 | the early-exit loops accept exactly the filter lists whose counts, integers, strings and prefixes are within bounds |
| Filters.FilterWithinBounds | src/spurline/filters.py:15-28 | one filter's running count and checks accept exactly the filters in bounds |
| Filters.InBoundsIff | src/spurline/filters.py:12-28 | the bounds in numbers: 16 filters, 2000 values each, 4096 characters, 128 prefixes that are not full values, 64-bit integers |
| Filters.FilterLimitIsLargestRequest | src/spurline/filters.py:79-83 | the limit is 500 when no filter asks, and otherwise the largest request clipped to 1..5000 |
| Normalize.NormalizeFilters | src/spurline/filters.py:57-76 | the loops raise exactly on more than 16 payload entries or out-of-bounds results, and otherwise return the objects' well-typed entries in order |
| Normalize.FilterRoundTrip | src/spurline/filters.py:57-76 | every filter with one-letter tag names survives being written out and normalized |
| Ordering.TopIsUnique | src/spurline/store.py:121 | a newest-first listing of the first k events of a set is unique |
| Ordering.MergePages | src/spurline/store.py:113-121 | limiting both sides of a union before merging, and the merge again, loses nothing |
| Ordering.TopIffRank | src/spurline/store.py:121 | an event is listed if and only if fewer than k events of the set come before it |
| Ordering.Listing | src/spurline/store.py:113-121 | selecting repeatedly the first remaining event computes the first k in order |
| Store.ColumnIsPrefix | src/spurline/store.py:85-100 | on 64-digit hexadecimal columns, equality for full-length values and ranges for the others agree with startswith, for every list of prefixes |
| Store.TagClauseIsHasTag | src/spurline/store.py:109-112 | a tag-index look-up answers as a scan of the event's own tags |
| Store.SelectedIsMatches | src/spurline/store.py:82-112 | the compiled WHERE clause selects exactly the visible events that match the filter |
| Store.MergeStep | src/spurline/store.py:118-121 | merging one more limited filter keeps the first-k answer of all filters so far |
| Store.SaveKeepsTablesOk | src/spurline/store.py:28-60 | after every committed save the tag index holds exactly the tags of length two or more of stored events |
| Store.InScanIffRank | src/spurline/store.py:77-121 | a stored event is in the answer if and only if it is visible, matches, and has fewer than the limit of visible matching events before it |
| Answers.AnsweredIff | src/spurline/store.py:77-121 | an event is answered if and only if it is stored, matches, is not deleted by its own author, and has fewer such events ahead of it, newer or as old with a greater id, than the limit |
| Answers.BatchAnswers | src/spurline/store.py:77-121 | after any batch of saves, requests of kind 5 by an event's author that tag it, and nobody else's, take it out of the answers |
| Answers.RunAnswers | src/spurline/store.py:77-121 | the same at every moment of every run, with faults, issuance and restarts |
| Answers.AnswersNewestFirst | src/spurline/store.py:121 | answers list later times first, and greater ids first among equal times |
| Answers.DescriptionMatches | src/spurline/filters.py:31-54 | an event is found by any filter made of prefixes of its id and author, its kind, its time as both bounds, and its tags, and such a filter finds only events that agree in all of them |
| EventStores.EventStore.Migrate | src/spurline/store.py:129-182 | migration backfills a missing tag index to exactly the tags of stored events and keeps every table; one that raises anywhere leaves the file as it was, to be migrated at the next start |
| EventStores.EventStore.IndexTags | src/spurline/store.py:123-127 | the loop adds exactly the index rows of one event |
| EventStores.EventStore.RecordDeletions | src/spurline/store.py:184-198 | the loop records exactly the well-formed e tags of a deletion request except itself, the later request winning |
| EventStores.EventStore.Save | src/spurline/store.py:28-60 | a save that raises at any statement, or on an integer SQLite cannot hold, changes no table; one that commits leaves exactly the specified tables and tells whether the event was new |
| EventStores.EventStore.Transaction | src/spurline/store.py:29-60 | the statements, run in order, amount to the specified save |
| EventStores.EventStore.WitnessUpdate | src/spurline/store.py:70-75 | only a pending row can become unavailable and only an issued row can be marked broadcast |
| EventStores.EventStore.WitnessRows | src/spurline/store.py:62-68 | returns the oldest outstanding rows, at most 32, in row order |
| EventStores.EventStore.Select | src/spurline/store.py:113-117 | the rows of one filter are its first limit selected events, newest first |
| EventStores.EventStore.Query | src/spurline/store.py:77-121 | raises exactly on out-of-bounds filters; otherwise the indexed, per-filter-limited, merged answer equals the plain scan's |
| Store.OutstandingIsComplete | src/spurline/store.py:67 | the outstanding list holds exactly the pending and the issued but unsent jobs |
| Convergence.SaveAllHolds | src/spurline/store.py:28-60 | after a batch, the stored ids and the tombstone keys are exactly those of the batch as a set, added to what was there |
| Convergence.AlikeStoresAnswerAlike | src/spurline/store.py:77-121 | stores with the same events up to signature and the same tombstone keys answer every query alike |
| Convergence.OrderDoesNotMatter | src/spurline/store.py:28-60 | any two orders of the same events, repeats included, give stores that answer every query alike |
| Convergence.BatchTables | src/spurline/store.py:35-45 | after any batch each id holds what it held before or the batch's first copy of it, and each tombstone records the batch's last request for it or what it recorded before |
| Convergence.EqualTablesIff | src/spurline/store.py:28-60 | two orders of the same events leave equal tables if and only if the first copies of new ids and the last requests for each target agree |
| Convergence.TwoSignaturesDiffer | src/spurline/store.py:35-45 | an event under two signatures, saved in either order, leaves different tables |
| Convergence.TwoRequestsDiffer | src/spurline/store.py:184-198 | two deletion requests for one target, saved in either order, leave different tombstones |
| Convergence.HiddenStaysHidden | src/spurline/store.py:83 | no later save lifts a tombstone |
| Convergence.NamesIffTagged | src/spurline/store.py:184-198 | a request deletes another event of its author exactly when it is of kind 5 and some tag of it, of any length, starts with "e" and the event's id |
| Convergence.DeletionHidesInEitherOrder | src/spurline/store.py:184-198 | a deletion request that names an event and its author keeps every copy of it, under whatever signature, out of all answers, whether it arrives before or after it, and whatever arrives later |
| Lifecycle.LatestGrantIsOk | src/spurline/witness.py:296-302 | a valid non-empty history has a latest grant, and it checks out |
| LifecycleRuns.ChainStaysOk | src/spurline/witness.py:256-288 | a history that validates at one second validates at every later one |
| LifecycleRuns.ApplyKeeps | src/spurline/witness.py:321-431 | every command, successful or rolled back, keeps the ledger invariant and only appends |
| LifecycleRuns.ValidChainIsWellFormed | src/spurline/witness.py:256-282 | a validated history is one linear chain: sequences 1..n, predecessor ids, non-decreasing times, first an authorization, then renewals, never two revocations in a row |
| LifecycleRuns.ReachableLedgers | src/spurline/witness.py:256-288 | every ledger reachable from a new or a legacy installation holds a well-formed chain that extends every earlier one, and its current row is empty, the latest grant, or a request for exactly the next place |
| LifecycleRuns.ApplyAppends | src/spurline/witness.py:219-224 | a command leaves the history alone or appends one entry, numbered next if it is a grant |
| LifecycleRuns.StaleForever | src/spurline/witness.py:383-390 | an authorization whose place was taken is refused now and after every later run of commands |
| LifecycleRuns.ReplayChangesNothing | src/spurline/witness.py:373-374 | importing an accepted grant or revocation again, at any later point, changes nothing |
| LifecycleRuns.SortedKindsIsSorted | src/spurline/witness.py:348 | the requested kinds are kept exactly, each once, in order |
| LifecycleRuns.RequestSucceedsIff | src/spurline/witness.py:321-367 | a request succeeds exactly under the stated conditions on validity, policy, history, renewal flag, clock, kinds and nonce; the service's own check of what it signed adds nothing |
| LifecycleRuns.AuthorizeNeverFailsLate | src/spurline/witness.py:383-393 | the checks on an authorization already imply that the extended history revalidates |
| LifecycleRuns.SignedTemplateIsOk | src/spurline/witness.py:103-148 | the signed template is acceptable evidence exactly inside the request's window and clock skew |
| LifecycleRuns.RequestThenAuthorize | src/spurline/witness.py:341-393 | after a request, the signed template is accepted if and only if it was signed in [request, deadline), arrives before the deadline and is not more than 300 s ahead; it becomes the head |
| LifecycleRuns.SkewedSignatureIsRefused | src/spurline/witness.py:103-148 | for any sound primitives, an hour's request on a new installation is granted, the template signed 301 s ahead is refused though inside the window, and the one signed 300 s ahead is accepted |
| LifecycleRuns.PermissionWindow | src/spurline/witness.py:53-62 | the permission a valid grant conveys is a non-empty window of at most one year |
| LifecycleRuns.RevocationRoundTrip | src/spurline/witness.py:403-418 | a signed revocation template is accepted if and only if the head is a grant, the reason is in bounds and its date lies between the head's and now; it drops any pending request and ends permission |
| LifecycleRuns.PermittedIff | src/spurline/witness.py:296-319 | witnessing is permitted at a second exactly when the head is a grant whose window holds it and the last control is not a suspension |
| LifecycleRuns.ControlSucceedsIff | src/spurline/witness.py:420-431 | a control is recorded exactly when its reason is in bounds and, to resume, the head is a grant in its window |
| LifecycleRuns.SuspensionOutlivesAuthority | src/spurline/witness.py:420-431 | no run of requests, grants, revocations and suspensions lifts a suspension |
| Authenticity.ReachableIsAuthentic | src/spurline/witness.py:256-282 | in every reachable ledger each entry bears its own id and a signature that verifies under the operator's key, and each grant answers, term for term, a request that verifies under the service's key |
| Authenticity.AuthorizeSucceedsIff | src/spurline/witness.py:369-393 | for every event: it is accepted if and only if it was accepted before, or the operator signed, inside the window and clock skew, exactly the grant the pending request asks for, not dated before the head; it becomes the head |
| Authenticity.RevokeSucceedsIff | src/spurline/witness.py:403-418 | for every event: it is accepted if and only if it was accepted before, or the operator signed exactly the revocation of a head that is a grant, dated between the head and now; it becomes the head and a pending request is dropped |
| Authenticity.RequestAsks | src/spurline/witness.py:321-367 | a successful request asks, under the service's signature, for permission from now for the time given, with a deadline of a day or its end, the kinds and policy given, and the place after the head |
| Authenticity.EvidenceStaysReadable | src/spurline/witness.py:256-319 | after any run of commands dated no later than a second, the whole evidence checks out at that second |
| WitnessAuthority.WitnessAuthorization.ValidateEntry | src/spurline/witness.py:259-281 | one loop round accepts exactly the entries in order after the previous one |
| WitnessAuthority.WitnessAuthorization.ValidateHistory | src/spurline/witness.py:256-288 | the loop with its running predecessor accepts exactly the histories of the declarative chain condition |
| WitnessAuthority.WitnessAuthorization.View | src/spurline/witness.py:296-319 | the view succeeds exactly on valid evidence and reports the specified state |
| WitnessAuthority.WitnessAuthorization.Request | src/spurline/witness.py:321-367 | commits the specified ledger, importing a legacy grant unchanged, or changes nothing |
| WitnessAuthority.WitnessAuthorization.Authorize | src/spurline/witness.py:369-393 | commits the specified ledger, or rolls back to the one it found; which events that accepts is Authenticity.AuthorizeSucceedsIff |
| WitnessAuthority.WitnessAuthorization.Revoke | src/spurline/witness.py:403-418 | commits the specified ledger, or rolls back to the one it found |
| WitnessAuthority.WitnessAuthorization.SetControl | src/spurline/witness.py:420-431 | appends the control, or changes nothing |
| Clock.WitnessClock.TakeSample | src/spurline/automatic_witness.py:41-72 | always remembers the new readings, latches a step, and reports exactly what the mode and the monitor allow |
| Clock.LatchedForever | src/spurline/automatic_witness.py:45-48 | after one step every later sample fails, in every mode |
| Clock.ReportsIff | src/spurline/automatic_witness.py:41-72 | an unlatched clock reports always in system mode, and otherwise exactly on a synchronized health file at most 30 s old that makes the mode's claims |
| Clock.MillisRoundDown | src/spurline/automatic_witness.py:53 | milliseconds are those of the wall clock rounded down |
| Clock.LatchedIff | src/spurline/automatic_witness.py:41-48 | the clock latches exactly when at some single sample wall and monotonic time drifted apart by more than 250 ms |
| Clock.DriftIsBounded | src/spurline/automatic_witness.py:41-48 | between the readings of any two samples of an unlatched clock, wall and monotonic time drift by at most 250 ms per sample |
| Clock.WallFallsSlowly | src/spurline/automatic_witness.py:41-48 | wall time then falls by at most 250 ms per sample |
| Receipts.ReceiptBindsOneSubject | src/spurline/receipts.py:39-95 | two subjects for which one receipt verifies are the same event, signature included, or exhibit a hash collision |
| WitnessingFacts.VerifiedIffBuilt | src/spurline/receipts.py:39-95 | the verifier accepts a live receipt if and only if its payload is the one issuance builds from the job it claims, under the key that signed it, with times and signature in order |
| WitnessingFacts.ReceiptIsFound | src/spurline/receipts.py:33-37 | a receipt that verifies is tagged with its subject's id, author and kind and with its version's profile |
| WitnessingFacts.GatesOpenIff | src/spurline/automatic_witness.py:87-103 | on valid evidence the gates are open if and only if some grant is the unrevoked, unsuspended head, in its window, under a policy marked for the mode, and then it is the viewed one |
| WitnessingFacts.PolicyAllowsIff | src/spurline/automatic_witness.py:96-103 | a policy allows bounded mode exactly if no line of it names a clock profile, and another mode exactly if it names that mode's profile only and the delay is at most 60 s |
| RunTheorems.WithinIff | src/spurline/automatic_witness.py:87-95 | the window test passes if and only if every time within the stated uncertainty of the reading lies in the grant's window |
| WitnessingFacts.FilesJobIff | src/spurline/automatic_witness.py:105-129 | a job is filed if and only if the subject is supported and validly signed, evidence is valid, the clock reports, and a grant in force covers the subject's kind |
| WitnessingFacts.IssuesIff | src/spurline/automatic_witness.py:131-172 | a receipt is committed if and only if the job is pending, evidence is valid, the clock reports, the grant the job names is in force, version and key are the present ones, the job is between 0 and maxDelay * 1000 ms old, and the built receipt verifies |
| WitnessingFacts.SampledUncertainty | src/spurline/automatic_witness.py:41-72 | a sample states an uncertainty, of at most a second, exactly in bounded mode |
| WitnessingFacts.ObservedInForce | src/spurline/automatic_witness.py:105-129 | a filed job names a grant in force at the reading the clock reported, whose kinds cover the subject, with that grant's policy digest and that reading's time and uncertainty |
| WitnessingFacts.IssuedInForce | src/spurline/automatic_witness.py:131-172 | an issued receipt was built from a pending job at the reading the clock reported, under a grant in force that the job names, and verifies for the job's subject |
| WitnessingFacts.BuiltReceiptVerifiesIff | src/spurline/receipts.py:39-95 | in all three versions, a receipt built from a well-formed job verifies if and only if its times are safe integers and the verifier's clock is within the tolerance |
| WitnessingFacts.IssueNeverFails | src/spurline/automatic_witness.py:157-172 | for a job filed by accept, issuance never raises after its gates while clocks do not run backwards and stay in range |
| RunTheorems.FiledJobsAreBuildable | src/spurline/automatic_witness.py:105-129 | over all runs, from every job filed by then a receipt that verifies can be built at any later second |
| WitnessingFacts.WindowTestsAgree | src/spurline/automatic_witness.py:87-95 | for one instant the millisecond test without uncertainty agrees with the second-level test, and with uncertainty implies it |
| Runs.Step | src/spurline/automatic_witness.py:105-172 | one operation keeps the job table in order; every new row was observed by that operation, and every new receipt was committed by it |
| RunTheorems.JobsThroughout | src/spurline/store.py:28-75 | over all runs inputs never change, issued and unavailable are terminal, a row's receipt never changes, issued holds exactly with a receipt, and the ids of subjects (all of kind 1415 or 1416) and of receipts are stored |
| RunTheorems.CommitOnce | src/spurline/automatic_witness.py:131-172 | at most one operation of a run commits a receipt for a digest |
| Subjects.SubjectsThroughout | src/spurline/store.py:28-60 | over all runs on validated submissions, every job's subject and every recorded receipt is the event stored under its id, up to signatures, or exhibits a collision |
| Subjects.SubjectIsStoredIff | src/spurline/store.py:30-45 | from its filing on, a job's subject is the very event stored, signature included, if and only if at its filing the id was absent or already held that same event |
| Subjects.SecondSignatureIsFiled | src/spurline/store.py:30-45 | for any sound primitives and any event of kind 1415 with two signatures, a new installation can store it under one and file a job for it under the other |
| RunTheorems.LedgerAppends | src/spurline/witness.py:219-224 | over whole runs, with crashes and restarts, the history only grows at its end |
| RunTheorems.SameHead | src/spurline/witness.py:256-282 | two valid heads with one id and no collision, in histories one of which extends the other, are one entry and nothing lies between |
| RunTheorems.AuthorizedTwice | src/spurline/automatic_witness.py:105-172 | every recorded receipt names one grant that was the unsuspended, unrevoked, in-window head at the readings the clock reported at observation and at issuance; it verifies for the submitted subject, whose kind, policy digest and version are that grant's; its delay is within the configured one, and within 60000 ms outside bounded mode (given that no two lifecycle events of the final ledger collide) |
| Issuance.IssuedWhenDue | src/spurline/automatic_witness.py:131-172 | conversely, a pending job gets its receipt at an issuance whenever mode and history are those of its filing, the grant still covers it, the delay is within maxDelay * 1000 ms, readings are in range and storage does not fail |
| Issuance.FiledRow | src/spurline/store.py:30-34 | a committed submission with a new job leaves its row, pending if and only if fewer rows than the limit were pending, otherwise unavailable, and touches no other row |
| Issuance.GivenUpBecause | src/spurline/automatic_witness.py:131-156 | over all runs a job is unavailable only if the queue was full when it was filed or some issuance refused it |
| Issuance.LatchStopsWitnessing | src/spurline/automatic_witness.py:41-48 | from the moment a clock has latched until the process restarts, nothing is filed and nothing is issued |
| Issuance.RestartStartsAfresh | src/spurline/automatic_witness.py:73-79 | a restart keeps tables and ledger, takes the new settings, and forgets the latch and the worker's place |
| Authenticity.EvidenceThroughout | src/spurline/events.py:99-120 | at every moment of every run the operator signed every entry of the history, every job's subject verifies under its own key with the digest of that signature, and every recorded receipt verifies under the service's key |
| RunTheorems.TrueTimesInWindow | src/spurline/automatic_witness.py:87-103 | for every recorded receipt of version 1, if true time was within the stated uncertainty whenever the clock reported, the true times of observation and issuance both lie in the named grant's window, at most the configured delay and 2000 ms apart |
| RunTheorems.QueueIsBounded | src/spurline/store.py:30-34 | if no settings of a run exceed a queue limit, the pending jobs never do |
| Worker.HandlingProgresses | src/spurline/automatic_witness.py:181-190 | each row handled without a raise strictly lowers twice the pending plus the unsent rows |
| Runs.WorkerStep | src/spurline/automatic_witness.py:174-192 | whatever else happens, the rows the worker has read stay behind the job table, and the row it has sent was issued |
| Worker.BroadcastsAreCommitted | src/spurline/automatic_witness.py:186-190 | what the worker broadcasts from the row it read some time before is the one committed receipt of that digest, then and ever after |
| Worker.MarkedAfterBroadcast | src/spurline/automatic_witness.py:189-190 | a row marked during a run had its recorded receipt broadcast to completion earlier in that run, with no restart and no new reading of the rows between the two |
| Worker.AcceptIsPlainSave | src/spurline/automatic_witness.py:105-129 | whichever branch accept takes, events, tags and tombstones change as by a plain save |
| Worker.SubmissionsArePlainSaves | src/spurline/automatic_witness.py:105-129 | for every sequence of submissions the relay's tables equal those of plain saves |
| Worker.TablesThroughout | src/spurline/store.py:28-60 | at every moment of every run the tag index is exact, and hidden events stay hidden |
| Worker.TombstonesThroughout | src/spurline/store.py:184-198 | at every moment of every run, with faults, issuance and restarts, the tombstones are the initial ones and exactly those named by the deletion requests committed since |
| AutomaticWitnesses.AutomaticWitness.Accept | src/spurline/automatic_witness.py:105-129 | the object leaves exactly the specified world and answers whether the event was new |
| AutomaticWitnesses.AutomaticWitness.Consider | src/spurline/automatic_witness.py:106-128 | the branches of accept file exactly the specified job and advance the clock only when evidence was valid |
| AutomaticWitnesses.AutomaticWitness.Issue | src/spurline/automatic_witness.py:131-172 | the object leaves exactly the specified world; a storage failure changes no table |
| AutomaticWitnesses.AutomaticWitness.Judge | src/spurline/automatic_witness.py:135-171 | the branches of issue reach exactly the specified outcome |
| AutomaticWitnesses.AutomaticWitness.HandleRow | src/spurline/automatic_witness.py:183-190 | handling a row is a run of worker operations that sends what it emits; an issued row's receipt is broadcast, and the row is marked exactly if neither the broadcast nor the update fails |
| AutomaticWitnesses.AutomaticWitness.Pass | src/spurline/automatic_witness.py:179-190 | one pass samples the clock and handles the oldest outstanding rows; it strictly lowers the remaining work unless it is idle or raises, and the receipt of every row it marks was sent |
| AutomaticWitnesses.AutomaticWitness.Drain | src/spurline/automatic_witness.py:174-199 | the worker's execution is a run of the modelled operations and sends exactly what that run emits: every row it marks had its receipt sent, everything sent is a recorded receipt; unless it raises it stops with nothing pending and every issued, not yet marked receipt sent; with no faults, readings in range and buildable jobs it never raises |
| Relay.MoveKeeps | src/spurline/main.py:66-132 | every handler step keeps the delivery invariant |
| Relay.SaveDecides | src/spurline/main.py:75-92 | after its save a publication goes on to be announced if and only if its integers fit and its id was absent, and is closed otherwise |
| Relay.NewEventBroadcast | src/spurline/main.py:66-92 | for every interleaving, a new event that its handler received, saved and announced was sent to every matching subscription open at the announcement |
| Relay.NewEventDelivered | src/spurline/main.py:66-132 | and to every matching subscription that is open and has finished its replay at the end, with the exceptions of Relay.DeliveredAtLeastOnce |
| Relay.RequestIsServed | src/spurline/main.py:94-117 | for every interleaving, a request within bounds is registered, and once it took enough replay steps all of the answer its query found was sent and its replay is over |
| Relay.DeliveredAtLeastOnce | src/spurline/main.py:66-132 | from any database and for every interleaving, a new event or receipt whose publication finished was sent to every open, unreplaced, matching subscription that finished its replay, unless its query ran after the save and the event was then hidden or beyond the limit |
| Relay.NothingElseDelivered | src/spurline/main.py:108-132 | no interleaving sends a subscription anything but stored events that match its filters |
| WitnessOnRelay.OperationIsMoves | src/spurline/automatic_witness.py:174-192 | from any relay state in order with the same tables, each operation of the witness is a sequence of moves of the delivery model that leaves the same tables, and a receipt it sends reaches every open matching subscription, or exhibits a collision |
| Relay.NoBroadcastAfterEnd | src/spurline/main.py:94-132 | once a subscription was closed, its connection ended, or its name was asked for again, no broadcast ever reaches it, whatever the handlers do later |
| RelayServices.RelayService.RegisterSubscription | src/spurline/main.py:94-106 | the old subscription of the name always goes, a new one with the normalized filters is open exactly when the payload has at most 16 entries and normalizes within bounds, and no other subscription opens or closes; this is the registration step of the delivery model |
| RelayServices.RelayService.HandleEvent | src/spurline/main.py:66-92 | a validated event is stored and sent to every matching open subscription exactly if its id was absent, is answered as a duplicate without a change otherwise, and a storage failure changes and sends nothing |
| RelayServices.RelayService.CloseSubscription | src/spurline/main.py:119-123 | exactly the subscriptions other than the named one that were open are open afterwards; what that means for delivery is Relay.NoBroadcastAfterEnd |
| RelayServices.RelayService.Broadcast | src/spurline/main.py:125-132 | the nested loops send to exactly the open subscriptions whose filters match |

## Left out

- Schnorr signatures, SHA-256, bech32 keys and canonical JSON text are foreign; they are the functions of `Events.Crypto`, with the assumptions above.
- `commissioning.py` and `service.py`: the verified record is a parameter; a service that is not commissioned, where every witness command raises and every submission is a plain save, is not modelled separately.
- Stored evidence that is not of the expected shape (tampered rows, missing keys, gaps in row numbers) is not representable; every check on well-shaped but wrong evidence is.
- Lifecycle commands read the clock once: WitnessAuthority.WitnessAuthorization.Request and its siblings take one second for all their checks, where the code asks the clock several times within one transaction.
- LifecycleRuns.RequestSucceedsIff: policy files are Unicode text, so bytes that do not decode as UTF-8, which make the code raise, are not modelled.
- EventStores.EventStore.Query: limits of SQLite itself are not modelled, such as its expression depth, which many tag entries of one filter can exceed within the filter bounds; lone surrogates in a filter, which the database driver refuses, are not representable.
- EventStores.EventStore.Save: strings are sequences of Unicode scalar values, so lone surrogates, which the database driver refuses, are not modelled.
- Clock.WitnessClock.TakeSample: times are reals, so floating-point rounding of the wall clock is not modelled.
- Relay.DeliveredAtLeastOnce: a send that fails is not modelled; a handler that stops after such a failure is one that never takes its next step, and the statement covers it only if it had broadcast.
- Worker.MarkedAfterBroadcast: a broadcast that fails or times out counts as emitted but not completed; which sockets it reached is not modelled.
- AutomaticWitnesses.AutomaticWitness.Drain: delays, back-off and the stop flag of the worker are left out; after a raise the method returns, where the code waits and starts over.
- Error messages, the displayed status dictionaries, `status`, `show`, `verify`, `revocation_request` and the HTTP, CLI and container layers are not modelled.
- SQLite's files, write-ahead log, threads and locks: a transaction is one atomic step that may fail.
