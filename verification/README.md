# Beacons: a verified model of the reconciler

Beacons keeps DNS records on several upstreams equal to what its sources ask for. This project models the
reconcile state machine and the parts it leans on, and proves what holds of every pass, every run of passes and every
interleaving.

One pass is: snapshot the sources (a failing one is replaced by its last good snapshot), read the store, treat records
of removed sources as deletable, list the upstreams that are due for verification, compute one op per record key, run
the ops with bounded workers per upstream, and write the outcomes back to the store and the retry gates.
`Reconcile.Reconciler.Reconcile` is that code over mutable objects; its contract says that the object moves from one
`World` value to the next exactly as `Reconcile.Step` allows. The results about runs (`Safety`, `Spacing`, `Healing`,
`Replay`) are about `Step`.

What is outside the program is a parameter of a pass: snapshot and list results, the clock, whether the store could be
read, where the pass was abandoned by a panic, and the outcome of every upstream call. An upstream is a map from slot
(upstream, type, name) to applied content; a call that succeeds sets or clears its own slot, and a call that fails,
panics or is canceled leaves anything at all in it. Orders that Go leaves open (ranging over maps, worker scheduling) are chosen arbitrarily by the methods, and the
contracts hold for every choice. Times are integers in nanoseconds.

| file | models |
|---|---|
| Arith, Text, Sets | units and powers of two; slash-joined strings; two facts about sets |
| Model | records, store keys, statuses |
| Drift | index of listed records and drift correction |
| Diff | the plan and its summary |
| Registry, FileStore, Stores | the in-memory store; the file store with its crash points; the store a reconciler is given |
| Effects, FanOut, Calls | op outcomes, backoff, the executor, order of concurrent calls |
| Collect, Reconcile | the collectors and the pass |
| Safety, Spacing, Plain, Healing, Replay | theorems over passes and runs; Plain holds passes without verification and small concrete settings |
| Loop | the event loop of `Run` |
| SessionAuth, CircuitBreaker, Retry, Chain, Attempt | the transport middlewares and their composition |
| Entries, Pihole, PiholeRace, Cloudflare | the Pi-hole adapter's list editing and its calls side by side; Cloudflare's name forms |

## What the model shows about the code

Where a promise of the code or its comments turned out to fail, a lemma gives the exact condition or a witness.

- A failing `List` call is not throttled: the interval starts only after a successful one, although the comment promises
  a minimum time between List calls (`Collect.ListedAgainIff`).
- Index keys joined with `/` can be confused. The verdict for a record is right for every listing exactly when none of
  its upstream, type, name and value has a slash (`Drift.SafeIffSlashFree`). The plan then depends on the order in which
  the upstreams are indexed, exactly when two upstreams list one joined key and are judged differently
  (`Diff.PlanOrderFreeIff`, `Diff.PlanOrderMatters`).
- A store key belongs to one identity exactly when source ID, ID and upstream have no slash (`Model.KeyUniqueIff`); a
  file path as source ID has one.
- Two keys on one slot, such as a recreated container under a new source ID, put a create and a delete of one name into
  one concurrent batch; the outcome depends on the interleaving exactly when two ops leave different contents
  (`Calls.OrderIrrelevantIffNoClash`, `Calls.RecreatedContainerClashes`).
- Renaming a record leaves the old name on the upstream: a clean pass empties a stored record's old slot exactly when
  its key is no longer desired (`Healing.OldSlotVacatedIff`, `Healing.RenameLeavesOldName`).
- A delete that reported failure but took effect is stored as `pending_delete`, and an equal record that reappears is
  then a noop: without verification no pass that asks for it recreates it (`Healing.FailedDeleteForgotten`,
  `Healing.FailedDeleteHappens`, `Healing.UnverifiedHealsIff`).
- A call canceled by shutdown after it reached the upstream can leave "synced" in the store untrue; exactly when is
  `Safety.PassSyncedIff`, with an input in `Safety.CanceledBreaksSynced`.
- The error of a pass's one flush is dropped (internal/reconcile/executor.go:98). Replay after a crash is safe exactly
  when the diff decides from the disk, key by key, as from the memory (`Replay.RecoversIff`); after a lost flush it may
  not, and a record nobody wants any more stays on the upstream for good (`Replay.LostFlushLeaks`).
- A panic inside a batch leaves the batching flag set, and the pass recovers from panics: from then on the process
  writes nothing to disk (`FileStores.FileStore.PanicStopsFlushing`).
- A panic in an upsert stores a count that starts over from the source's record, and sets the gate by it, unless the
  two counts are equal (`Spacing.PanicContinuesCountIff`, `Spacing.PanicRestartsCount`).
- A `Retry-After` value can wrap 64 bits and give a negative delay (`Retries.RetryAfterNonNegativeIff`).
- On Pi-hole a name's A and AAAA records displace each other (`Pihole.DualStackDisplaces`,
  `Pihole.UpsertIsSlotUpdateIff`); records its entries cannot express are upserted on every verified pass
  (`Pihole.UpsertHealsIff`).
- Pi-hole calls take no lock between fetching a list and patching it back, and the executor runs four at once
  (cmd/beacons/main.go:165). Two creates can both succeed and leave one record (`PiholeRaces.TwoHosts`); all that
  succeed are in effect exactly when each patch replaces the very list its call had fetched (`PiholeRaces.AllKeptIff`).
- `shortName` is not quite the inverse of `fqdn`: a record whose name already ends in the zone is reported missing on
  every verified pass, unless the zone appended once more is listed too (`Cloudflare.SuffixedMissingIff`); and a record
  under the zone appended to itself can hide the apex record (`Cloudflare.StoredApexIff`, `Cloudflare.ApexShadowed`).

## Model

| member | source | states |
|---|---|---|
| `Model.KeyIdentifies` | internal/model/model.go:66-70 | the store key is the identity (source ID, ID, upstream) when ID and upstream have no slash |
| `Model.KeyAmbiguousWithSlash` | internal/model/model.go:66-70 | a slash in source ID, ID or upstream lets another identity have the same key |
| `Model.KeyUniqueIff` | internal/model/model.go:66-70 | no other identity shares a record's key if and only if source ID, ID and upstream have no slash |
| `Drift.BuildActualIndex` | internal/reconcile/diff.go:116-138 | in whatever order the upstreams are ranged over, the index is that of the flattened listing in that order |
| `Drift.IndexList` | internal/reconcile/diff.go:126-135 | the inner loop adds one upstream's records in list order |
| `Drift.IndexKeepsFirst` | internal/reconcile/diff.go:116-138 | each index entry is the first listed record of its key, and every listed key has an entry |
| `Drift.IndexMatchesScan` | internal/reconcile/diff.go:170-196 | with unambiguous keys the indexed verdict is a first-match scan's, for every order |
| `Drift.IndexAgreesWithScan` | internal/reconcile/diff.go:170-196 | no slash in upstream names, types and names makes the verdict the scan's, for every order |
| `Drift.VerdictOrderFreeIff` | internal/reconcile/diff.go:116-138 | a verdict is the same for every order of ranging over the upstreams if and only if its upstream was not listed or all upstreams listing its joined key are judged alike |
| `Drift.OrderMatters` | internal/reconcile/diff.go:96-108 | upstreams `u` and `u/A`: one record is judged unchanged in one order and changed in the other |
| `Drift.SlashFreeVerdict` | internal/reconcile/diff.go:175-196 | a record without slashes gets the scan's verdict from any listing, in any order |
| `Drift.SafeIffSlashFree` | internal/reconcile/diff.go:96-108 | a record's verdict is the scan's on every listing the collector can produce if and only if its four key fields are slash-free |
| `Drift.ScanMeaning` | internal/reconcile/diff.go:184-195 | missing exactly when no record has the type and name; a hit by name and type alone differs in value |
| `Diff.IndexByKey` | internal/reconcile/diff.go:33-40 | later records of a key win |
| `Diff.ByKey` | internal/reconcile/diff.go:33-40 | the map holds each listed key, under it a listed record of that key |
| `Diff.ComputeDiff` | internal/reconcile/diff.go:28-80 | for every iteration order the plan holds exactly the one op of each key, each once, in its own record's upstream group |
| `Diff.PlanDesired` | internal/reconcile/diff.go:48-65 | the first loop plans every desired key and no other |
| `Diff.PlanDeletes` | internal/reconcile/diff.go:67-77 | the second loop adds deletes for recorded-only keys of snapshotted sources |
| `Diff.PlanAt` | internal/reconcile/diff.go:48-77 | a key has an op if and only if it is desired, or recorded under a snapshotted source; which op it is |
| `Diff.DesiredOp` | internal/reconcile/diff.go:49-65 | a desired record is left alone if and only if the store has it settled and verification finds no drift, created if and only if the store lacks it or has it settled and verification finds it missing, else updated; never deleted; the reason is the drift of a settled record |
| `Diff.SamePlanIff` | internal/reconcile/diff.go:43-80 | two plans agree per upstream as multisets if and only if they are plans of the same ops |
| `Diff.PlanOrderFreeIff` | internal/reconcile/diff.go:43-138 | plans of one pass agree for every order of indexing and of planning if and only if no record the diff checks has its joined key listed by two upstreams that are judged differently |
| `Diff.PlanIndependentOfOrder` | internal/reconcile/diff.go:43-138 | in particular they agree when upstream names, types and record names have no slash |
| `Diff.PlanOrderMatters` | internal/reconcile/diff.go:96-138 | one settled record, two upstreams: the indexing order decides between a noop and an update |
| `Diff.Summary` | internal/reconcile/plan.go:64-73 | each count is the number of keys planned with that kind, and the counts add up to the number of planned keys |
| `Diff.KindsPartition` | internal/reconcile/plan.go:64-73 | the four kinds partition the planned keys |
| `Registry.MemoryStore.constructor` | internal/registry/memory.go:16-18 | empty |
| `Registry.MemoryStore.Upsert` | internal/registry/memory.go:20-25 | sets the record's key |
| `Registry.MemoryStore.Delete` | internal/registry/memory.go:27-36 | drops exactly the records of one source ID |
| `Registry.MemoryStore.DeleteRecord` | internal/registry/memory.go:38-43 | drops the record's key |
| `Registry.RangeOver` | internal/registry/memory.go:45-53 | the loop of both stores' List: each record of the map once, in any order |
| `Registry.MemoryStore.List` | internal/registry/memory.go:45-53 | lists each record once, in any order |
| `Effects.BackoffIsCappedDoubling` | internal/reconcile/executor.go:317-329 | for every count n the delay is min(30s * 2^(n-1), 1h), positive, and the shifted base stays inside int64 |
| `Effects.AttemptKeepsContent` | internal/reconcile/executor.go:144-236 | whatever a call comes to, a panic included, only the record's bookkeeping changes: success is synced at its time with no error and no failures; an error stores its message, keeps the time of syncing, and is pending_delete if a delete reported it, else failed |
| `Effects.StoreStaysKeyed` | internal/reconcile/executor.go:240-270 | a store keyed by record key stays so |
| `Effects.BatchesCompose` | internal/reconcile/executor.go:114-122 | applying two groups one after the other is applying their union to the store |
| `Effects.GatesCompose` | internal/reconcile/executor.go:114-122 | likewise for the retry gates |
| `FanOut.ApplyUpstream` | internal/reconcile/executor.go:125-171 | under every interleaving of dispatcher and workers: each attempted op is called exactly once, each result is its own op's, at most maxConc workers are in flight, the slots are those of the calls in the order made |
| `FanOut.PersistOne` | internal/reconcile/executor.go:238-270 | writing one result back adds exactly its op to the batch already applied |
| `FanOut.RegateOne` | internal/reconcile/executor.go:246-255 | an error sets the key's gate to now plus its backoff, a success clears it, a skip leaves it |
| `FanOut.UnknownOne` | internal/reconcile/executor.go:272-290 | an op of an unknown upstream drops the store entry if it is a delete and else does nothing |
| `FanOut.Executor.constructor` | internal/reconcile/executor.go:53-81 | no gates at first; at least one worker |
| `FanOut.Executor.PersistResult` | internal/reconcile/executor.go:242-268 | one result's effect on store and gates |
| `FanOut.Executor.Persist` | internal/reconcile/executor.go:238-270 | a group's results leave store and gates as the key-by-key outcome says |
| `FanOut.Executor.ApplyUnknownUpstream` | internal/reconcile/executor.go:272-290 | only store entries of deletes go; no gate changes |
| `FanOut.Executor.ApplyGroup` | internal/reconcile/executor.go:114-122 | one group: calls first, store and gate writes after all of them |
| `FanOut.Executor.ApplyOps` | internal/reconcile/executor.go:107-123 | for every order of groups and every interleaving, store and gates are the key-by-key outcome and every attempted op was called exactly once; a file is not touched |
| `FanOut.Executor.Apply` | internal/reconcile/executor.go:92-105 | that outcome; over a file store the pass's writes are one batch, and the store it ends with is flushed exactly once, after all calls, whether or not that flush succeeds |
| `Calls.SlotUntouched` | internal/reconcile/executor.go:144-168 | a slot that no call is about keeps its content |
| `Calls.OrderIrrelevantIffNoClash` | internal/reconcile/executor.go:132-169 | the upstreams end the same for every order of the calls if and only if no two ops leave different contents in one slot |
| `Calls.RecreatedContainerClashes` | internal/reconcile/diff.go:49-77 | the same record under a new source ID gives a create and a delete that clash, even if every call succeeds |
| `Calls.OwnSlotSettled` | internal/reconcile/executor.go:132-169 | with one slot per key a slot ends as its own op's call left it |
| `Collect.Collector.constructor` | internal/reconcile/collect.go:32-43 | starts with an empty cache |
| `Collect.Collector.Collect` | internal/reconcile/collect.go:45-66 | desired records, snapshotted names and cache, for any mix of failing and clean sources |
| `Collect.UpstreamCollector.constructor` | internal/reconcile/upstream_collect.go:42-55 | no upstream has been listed yet |
| `Collect.UpstreamCollector.Collect` | internal/reconcile/upstream_collect.go:57-96 | exactly the due listers whose List succeeded are fetched, with their records and next check times |
| `Collect.ListedAgainIff` | internal/reconcile/upstream_collect.go:76-90 | after a List call another follows on a later pass if and only if it failed or the interval has passed |
| `Reconcile.OpAt` | internal/reconcile/reconcile.go:179-211 | the op a key gets in a pass |
| `Reconcile.PassAt` | internal/reconcile/reconcile.go:166-221 | what a pass does to one key's store entry and gate, and when it calls the upstream for it |
| `Reconcile.PassSlotAt` | internal/reconcile/reconcile.go:166-221 | what a pass does to the slot of one of its ops |
| `Reconcile.PassKeepsKeys` | internal/reconcile/reconcile.go:166-221 | every pass keeps the store keyed by record key |
| `Reconcile.StepsMakeRun` | internal/reconcile/reconcile.go:166-221 | any passes that follow one another from a well-keyed store satisfy the assumptions of the theorems over runs |
| `Reconcile.ReadBackoffIsCappedDoubling` | internal/reconcile/reconcile.go:262-275 | for every count n the read delay is min(1s * 2^(n-1), 30s) |
| `Reconcile.ReadFailuresCounted` | internal/reconcile/reconcile.go:180-196 | over every run the count that delay goes by is the number of unreadable passes in a row, on top of what came before; reading the store starts it over |
| `Reconcile.OrphansListed` | internal/reconcile/reconcile.go:248-260 | the names marked are those of stored records without a configured source |
| `Reconcile.Reconciler.constructor` | internal/reconcile/reconcile.go:57-88 | starts with empty caches and gates over the given store |
| `Reconcile.Reconciler.MarkOrphanSources` | internal/reconcile/reconcile.go:248-260 | adds exactly the orphaned source names |
| `Reconcile.Reconciler.ComputePlan` | internal/reconcile/reconcile.go:198-211 | orphans, upstream listing and diff give a plan of exactly the pass's ops |
| `Reconcile.Reconciler.FinishPass` | internal/reconcile/reconcile.go:196-220 | the rest of a pass once the sources are collected and the store is readable |
| `Reconcile.Reconciler.ApplyPlan` | internal/reconcile/reconcile.go:220 | applying the plan completes the step, and a file store has flushed exactly the store it ends with |
| `Reconcile.Reconciler.EndEarly` | internal/reconcile/reconcile.go:169-196 | a pass that cannot read the store, or is abandoned by a panic in a source, a List call or a comparer, completes a step that ends there |
| `Reconcile.EarlyEndChangesNothing` | internal/reconcile/reconcile.go:169-196 | such a pass calls no upstream for a change and leaves store, gates and upstreams as they were |
| `Reconcile.Reconciler.Reconcile` | internal/reconcile/reconcile.go:165-221 | one call is one step of the state machine, however far it gets: an unreadable store and a recovered panic included; or nothing if the context has ended. A completed pass over a file store flushes exactly once, the store it ends with; any other leaves the file alone |
| `Safety.DesiredIsLatestSnapshots` | internal/reconcile/collect.go:49-66 | in every pass of every run each source contributes exactly its most recent good snapshot |
| `Safety.NoDataNoChange` | internal/reconcile/diff.go:67-77 | a record of a configured source leaves the store or gets a delete only in a pass where that source snapshotted and no snapshot has its key |
| `Safety.OutageKeepsRecord` | internal/reconcile/collect.go:18-25 | over any run, a stored record stays while no source of its name snapshots |
| `Safety.PassSyncedIff` | internal/reconcile/executor.go:175-270 | after a pass every "synced" is true if and only if each canceled call about a synced record left exactly what that record promises; failed and panicking calls may leave anything in their own slot |
| `Safety.PassKeepsSyncedSound` | internal/reconcile/executor.go:175-270 | in particular an uncanceled pass keeps every "synced" true |
| `Safety.SyncedSoundOverRuns` | internal/reconcile/executor.go:175-270 | in every world of every uncanceled run from an empty store, a synced record has exactly its applied fields on its upstream |
| `Safety.CanceledBreaksSynced` | internal/reconcile/executor.go:187-192 | a whole pass: a TTL change whose update is canceled after clearing the slot leaves the store as it was, synced and now untrue |
| `Spacing.FailuresCountErrors` | internal/reconcile/executor.go:175-270 | in every run, from whatever store and gates, panics included: a key's stored Failures and its gate are exactly what its history makes of those loaded: an error counts one more and sets the gate to its time plus that count's backoff, a success clears both, a forgotten record counts zero, a panicking upsert counts on from its source's record |
| `Spacing.CountSince` | internal/reconcile/executor.go:175-270 | since a success, with no panic, the count is the number of errors; since any point it has grown by their number |
| `Spacing.RetryWaits` | internal/reconcile/executor.go:137-143 | in every run, from whatever store and gates, panics included: any call comes no earlier than each earlier error plus the backoff of the count that error stored |
| `Spacing.RetrySpacing` | internal/reconcile/executor.go:137-143 | likewise between an error and any later attempt lie min(30s * 2^(n-1), 1h), n being the errors since the last success on top of the count loaded |
| `Spacing.GatesOpenWithinTheHour` | internal/reconcile/executor.go:246-247 | in every run, panics included, a key's gate, if open at the start, is open an hour after the key's last error, whatever passes came since |
| `Spacing.PanicContinuesCountIff` | internal/reconcile/executor.go:149-163 | a pass in which a key's upsert panics stores one more than the source record's own count and sets the gate by it; that continues the stored count if and only if the two are equal |
| `Spacing.PanicRestartsCount` | internal/reconcile/executor.go:149-163 | a whole pass: after three failures a panicking update leaves a count of one and a gate 30s ahead |
| `Healing.CorrectionIsAcceptance` | internal/reconcile/diff.go:170-196 | on a faithful listing, no drift means not listed this pass or the slot is accepted by the comparer, and conversely |
| `Healing.NoopIff` | internal/reconcile/diff.go:49-65 | a desired key is a noop if and only if the store has it settled and verification, if any, agrees |
| `Healing.CleanPassHealsKey` | internal/reconcile/reconcile.go:166-221 | what a clean pass leaves for one key, in the store and on the upstream |
| `Healing.SelfHealing` | internal/reconcile/reconcile.go:166-221 | one clean verified pass, from any store and upstream contents: store keys are the desired keys, every desired slot is accepted, every recorded-only slot is empty, all other slots are untouched |
| `Healing.HealedIsQuiet` | internal/reconcile/diff.go:49-65 | from a healed world the next pass over the same desired set is all noops, calls nothing and changes nothing |
| `Healing.HealThenQuiet` | internal/reconcile/reconcile.go:166-221 | the two together: one verified pass, then nothing left to do |
| `Healing.CleanPassWellSlotted` | internal/reconcile/reconcile.go:166-221 | a clean pass leaves every slot holding content of its own type and name |
| `Healing.HourLaterHeals` | internal/reconcile/reconcile.go:166-221 | in every run, whatever failed or panicked before, a verified pass an hour after the last error of each key it plans, in which nothing else goes wrong, heals everything, whatever passes came in between |
| `Healing.FirstPassHeals` | internal/reconcile/reconcile.go:166-221 | from nothing, one pass puts in place the one record its source asks for: the assumptions above can be met |
| `Healing.UnverifiedHealsIff` | internal/reconcile/diff.go:170-178 | without verification a slot ends accepted if and only if it was already, or the store did not have the record settled |
| `Healing.FailedDeleteForgotten` | internal/reconcile/executor.go:209-230 | two passes: a delete that reports failure but takes effect is stored as pending_delete; if an equal record is asked for next and its upstream is not verified, that is a noop, no call is made for it and the slot stays empty |
| `Healing.FailedDeleteHappens` | internal/reconcile/executor.go:209-230 | those two passes, for any record |
| `Healing.OldSlotVacatedIff` | internal/reconcile/diff.go:49-77 | a clean pass empties a stored record's occupied slot, if no other op is about it, if and only if the record's key is no longer desired |
| `Healing.RenameLeavesOldName` | internal/reconcile/diff.go:62-63 | a whole pass over a rename: the store settles on the new name, the old slot keeps its content, and no store entry is left to delete it by |
| `Plain.PassOpIsPlain` | internal/reconcile/diff.go:49-77 | with clean sources and no verification a key's op depends on its desired and stored record alone |
| `Replay.DecidedCell` | internal/reconcile/reconcile.go:166-221 | in a pass where all goes well a key's store entry ends as its decision says, but for the time of syncing |
| `Replay.CrashReplay` | internal/reconcile/executor.go:92-123 | die after any subset of a pass's calls, whatever they came to, or in any state of its flush: what the disk then holds loads without error, and after one clean pass from there store (but for sync times) and upstreams are those of a pass that never crashed, provided the disk before the pass decides as the memory does |
| `Replay.FlushCrash` | internal/reconcile/executor.go:96-103 | those are the crashes a file-backed pass is exposed to while it flushes, and what they leave loads |
| `Replay.SavedDecidesAlike` | internal/registry/file.go:129-158 | that proviso holds for every desired set when the last flush, or the load, succeeded |
| `Replay.RecoversIff` | internal/reconcile/diff.go:49-77 | with a slot for each key, reloading an image and running one clean pass comes to the same for all upstream contents if and only if the diff decides from the image, key by key, as from the memory |
| `Replay.CrashHappens` | internal/reconcile/executor.go:92-123 | a first pass that dies after its call and before its flush meets the hypotheses of crash replay |
| `Replay.LostFlushLeaks` | internal/reconcile/executor.go:96-103 | after a flush whose error was dropped, a crash before the delete of a record no longer wanted leaves it on the upstream and nobody knows of it |
| `FileStores.FileStore.constructor` | internal/registry/file.go:24-31 | a missing file is an empty store, else the file's records are loaded |
| `FileStores.FileStore.Open` | internal/registry/file.go:24-31 | a file that cannot be read or decoded, and no other, is an error; otherwise the disk holds exactly the records loaded |
| `FileStores.FileStore.Flush` | internal/registry/file.go:129-158 | one flush attempt; at every step, and after any failing one, whatever a crash leaves at the path is what it could have left before or the memory, complete; success leaves only the memory |
| `FileStores.FileStore.WriteSynced` | internal/registry/file.go:138-153 | until the rename nothing a crash could find at the path changes; success leaves the memory complete and synced in the temp file |
| `FileStores.FileStore.FlushLocked` | internal/registry/file.go:108-115 | flushes exactly when no batch is open |
| `FileStores.FileStore.Upsert` | internal/registry/file.go:33-38 | memory as MemoryStore's; outside a batch that state is flushed once |
| `FileStores.FileStore.Delete` | internal/registry/file.go:40-49 | likewise for a source ID |
| `FileStores.FileStore.DeleteRecord` | internal/registry/file.go:51-56 | likewise for one record |
| `FileStores.FileStore.List` | internal/registry/file.go:58-66 | lists each record once, in any order |
| `FileStores.FileStore.Begin` | internal/registry/file.go:87-93 | opens a batch unless one is open |
| `FileStores.FileStore.End` | internal/registry/file.go:95-106 | the outermost end flushes the state fn left exactly once, even if fn failed |
| `FileStores.FileStore.Batch` | internal/registry/file.go:80-106 | an outermost batch attempts exactly one flush, of the state it ends in, even if fn fails, a nested one none; a crash finds what it could have found before the batch or that state |
| `FileStores.FileStore.BatchPanics` | internal/registry/file.go:86-98 | a panic in fn leaves the batch open and the disk alone |
| `FileStores.FileStore.PanicStopsFlushing` | internal/registry/file.go:86-115 | after it no sequence of operations reaches the disk, while the memory goes on changing |
| `FileStores.FileStore.Run` | internal/registry/file.go:33-106 | for every sequence of operations and nested batches the memory is the plain map's, the images flushed are exactly the states between outermost operations, and a crash finds one of them or what it could have found before |
| `FileStores.WholeCrash` | internal/registry/file.go:129-158 | after a crash the path holds the file from the start or one complete flushed image, never a torn one |
| `FileStores.CrashInFlush` | internal/registry/file.go:129-158 | a crash in any state of one flush finds what a crash before it could have found, or the flushed image |
| `FileStores.CrashLoads` | internal/registry/file.go:117-127 | after any crash the path loads without error, as the file from the start or a flushed image |
| `FileStores.RenameIsOpen` | internal/registry/file.go:154-157 | after the rename alone a crash may find the old file or the new one: only the directory sync settles it |
| `FileStores.FlushedHolds` | internal/registry/file.go:129-158 | after a successful flush a crash finds the flushed image and nothing else |
| `Stores.Store.Upsert` | internal/reconcile/executor.go:256-268 | sets the record's key; in a batch the disk is left alone |
| `Stores.Store.DeleteRecord` | internal/reconcile/executor.go:256-268 | drops the record's key; in a batch the disk is left alone |
| `Stores.Store.List` | internal/reconcile/reconcile.go:180 | lists each record once, in any order |
| `FileStores.FlushedAtBoundary` | internal/registry/file.go:80-115 | every flushed image is the map after a whole number of outermost operations |
| `FileStores.BatchingIsInvisible` | internal/registry/file.go:86-106 | batching, at any nesting, never changes the resulting map |
| `Loop.RunLoop.constructor` | internal/reconcile/reconcile.go:127-129 | no timer, no tick, nothing received |
| `Loop.RunLoop.OnNotify` | internal/reconcile/reconcile.go:138-156 | stop, drain and reset leave the timer armed for the debounce delay with no tick waiting; without a delay a pass starts at once |
| `Loop.RunLoop.Stop` | internal/reconcile/reconcile.go:146-151 | stopping disarms and discards an undelivered tick, and tells whether there was anything to stop |
| `Loop.RunLoop.OnFire` | internal/reconcile/reconcile.go:141-142 | a timer that reaches its deadline disarms and puts one tick in its channel |
| `Loop.RunLoop.OnTick` | internal/reconcile/reconcile.go:157-158 | a received tick starts a pass |
| `Loop.RunLoop.OnInterval` | internal/reconcile/reconcile.go:159-160 | an interval tick starts a pass at its own time and leaves the debounce timer alone |
| `Loop.NoLostWakeup` | internal/reconcile/reconcile.go:127-162 | at every point of every event sequence each received notification has had a pass start after it, or the timer stands at the last notification plus the delay, or its tick is waiting |
| `Loop.DebouncedPassesWait` | internal/reconcile/reconcile.go:143-152 | a debounced pass starts at least the delay after every notification received before it: no stale tick |
| `Loop.NoExtraPasses` | internal/reconcile/reconcile.go:143-152 | debounced passes, the pending one included, never outnumber notifications |
| `Loop.EventStartsPass` | internal/reconcile/reconcile.go:131-162 | an interval tick, a debounce tick received and, without a delay, a notification each start one pass at their own time; no other event starts any |
| `Loop.PassesAreCounted` | internal/reconcile/reconcile.go:131-162 | over every event sequence the passes started are as many as the interval ticks, the debounce ticks received and, without a delay, the notifications |
| `SessionAuths.SessionAuth.constructor` | pkg/upstream/transport/sessionauth.go:55-62 | no token, generation 0; a non-positive early expiry means 30 seconds |
| `SessionAuths.SessionAuth.EnsureToken` | pkg/upstream/transport/sessionauth.go:122-162 | Authenticate is called unless a plain lookup finds an unexpired token or the rejected generation is over; a grant lives its reported time, 30 minutes if that is not positive, less the early expiry if longer than it; a refusal drops the cached token; no call leaves everything as it was |
| `SessionAuths.ProtocolHolds` | pkg/upstream/transport/sessionauth.go:78-162 | over every interleaving of any number of requests: the generation counts successful authentications, tokens in use are the ones granted at their generation, after a 401 the generation passed is at least 1, and no Authenticate call follows a successful one for the same generation |
| `SessionAuths.GenerationNeverFalls` | pkg/upstream/transport/sessionauth.go:72-76 | the generation never falls |
| `SessionAuths.RetryCarriesLaterToken` | pkg/upstream/transport/sessionauth.go:96-101 | a retry after a 401 on generation g carries the token of a generation above g |
| `SessionAuths.OneReauthenticationPerGeneration` | pkg/upstream/transport/sessionauth.go:122-142 | at most one request rejected on g completes a successful re-authentication for it |
| `SessionAuths.ConcurrentRejectionsShareOneCall` | pkg/upstream/transport/sessionauth.go:125-141 | once one rejected request has re-authenticated, the others are served its token |
| `SessionAuths.PlainLookupServedIff` | pkg/upstream/transport/sessionauth.go:134-161 | over every interleaving, a plain lookup calls Authenticate unless the last call succeeded and its grant still lives; the request then carries the last token granted |
| `SessionAuths.RejectedLookupServedIff` | pkg/upstream/transport/sessionauth.go:134-161 | over every interleaving, a request told 401 calls Authenticate if and only if no token was granted since the one it used, and carries the latest |
| `CircuitBreakers.MaxFails` | pkg/upstream/transport/circuitbreaker.go:39-43 | the threshold is the low 32 bits of the configured one, or 5 if those are not a positive int32 |
| `CircuitBreakers.CircuitBreaker.constructor` | pkg/upstream/transport/circuitbreaker.go:44-51 | closed, nothing counted |
| `CircuitBreakers.CircuitBreaker.RecordAuthFailure` | pkg/upstream/transport/circuitbreaker.go:85-99 | counts one and opens at the threshold, setting the metric only when it was closed |
| `CircuitBreakers.CircuitBreaker.RoundTrip` | pkg/upstream/transport/circuitbreaker.go:63-83 | an open breaker does not ask next; otherwise one verdict per reply |
| `CircuitBreakers.OpenIffFatalStretch` | pkg/upstream/transport/circuitbreaker.go:34-38 | sequentially, open if and only if the replies contain maxFails authentication failures with no other response between them; network errors neither count nor reset |
| `CircuitBreakers.BreakerHolds` | pkg/upstream/transport/circuitbreaker.go:63-99 | under every interleaving, open implies such a stretch in counter order, and the open metric is set at most once |
| `CircuitBreakers.OpenForGood` | pkg/upstream/transport/circuitbreaker.go:63-66 | open is permanent, and from then on only requests already past the check reach next |
| `Retries.WithDefaults` | pkg/upstream/transport/retry.go:30-41 | positive values stay; others become 3 attempts, 500ms and 30s |
| `Retries.CalcDelay` | pkg/upstream/transport/retry.go:133-155 | a 429 with a positive Retry-After waits just as long, up to MaxDelay, if its nanoseconds fit 64 bits; otherwise the delay is BaseDelay * 2^(n-1), give or take a quarter, rounded down, up to MaxDelay; never more than MaxDelay |
| `Retries.BeforeRetry` | pkg/upstream/transport/retry.go:66-103 | drains the last response, then stops on a failed body or a canceled wait, or goes on with the books kept |
| `Retries.RetryAfterNonNegativeIff` | pkg/upstream/transport/retry.go:138-145 | a Retry-After delay is non-negative if and only if its nanoseconds modulo 2^64 are below 2^63 |
| `Retries.RetryAfterCanWrap` | pkg/upstream/transport/retry.go:138-145 | a Retry-After of about 292 years becomes a negative delay |
| `Retries.RoundTrip` | pkg/upstream/transport/retry.go:59-119 | for any behaviour of next, the result and the log of sends, drains and sleeps are those of one logical request that ended in attempt n; no absent response is read |
| `Retries.EndingIs` | pkg/upstream/transport/retry.go:59-119 | that log leaves no choice: result and number of attempts are those of trying again until something stops it |
| `Retries.RetryAccounting` | pkg/upstream/transport/retry.go:59-119 | at most MaxAttempts sends, one if the body cannot be replayed; every response not returned is drained; requested sleep is at most (MaxAttempts - 1) * MaxDelay; the reply returned is that of the first non-transient attempt or the last |
| `Retries.WaitsBackOff` | pkg/upstream/transport/retry.go:59-119 | the waits in the log are one before each attempt but the first, and the one a canceled context cuts short, each of the length above; so a request whose server asks for nothing sleeps at least three quarters of the doubled delays |
| `Retries.DrainedOnce` | pkg/upstream/transport/retry.go:85-86 | the drained responses are distinct and are exactly those received |
| `Chains.Chain` | pkg/upstream/transport/transport.go:76-87 | the reverse loop composes the middlewares with the first outermost |
| `Chains.Layers` | pkg/upstream/transport/transport.go:49-71 | for every request and server, the list composed is one logical request: an open breaker refuses; else retry, each attempt with a session token if there is a session, and the breaker judges the final reply once. Metrics, timeout and debug log lie inside the retry, the debug log inside authentication |
| `Chains.SessionBounds` | pkg/upstream/transport/sessionauth.go:78-102 | an attempt makes at most two wire sends and two Authenticate calls and leaves the breaker alone |
| `Chains.AttemptWithoutSend` | pkg/upstream/transport/sessionauth.go:78-82 | without a token the refusal is the reply, with an unreadable body an error, and nothing is sent |
| `Chains.AttemptWithOneSend` | pkg/upstream/transport/sessionauth.go:84-94 | a first reply other than 401, or a body that cannot be sent twice: exactly one send, carrying the token, and its reply |
| `Chains.AttemptWithTwoSends` | pkg/upstream/transport/sessionauth.go:95-102 | after a 401 Authenticate is called exactly once more; a refusal is the reply; a grant goes out with exactly one second send, whose reply is final |
| `Attempts.AttemptIsProtocol` | pkg/upstream/transport/sessionauth.go:78-102 | an attempt is one request of the interleaved protocol with nobody else around: same cache, same number of Authenticate calls, same tokens sent |
| `Chains.HttpClient.constructor` | pkg/upstream/transport/transport.go:36-71 | a closed breaker, defaulted retry options and no session |
| `Chains.RequestIs` | pkg/upstream/transport/retry.go:59-119 | what the retry loop's books say is what the composed request does |
| `Chains.HttpClient.DoRequest` | pkg/upstream/transport/transport.go:49-71 | reply and new state are those of the composition of the client's own middleware list |
| `Chains.RequestBounds` | pkg/upstream/transport/transport.go:36-71 | a logical request makes at most 2 * MaxAttempts wire sends and 2 * MaxAttempts Authenticate calls and adds at most one to the breaker's count |
| `Chains.SteadyRequest` | pkg/upstream/transport/transport.go:36-71 | while the session lasts, a request is sent with the cached token until a reply is not worth retrying or the attempts are used up, returns that reply, calls Authenticate not at all, shows the breaker that reply, and waits before each retry as its last reply asks or the backoff says |
| `Chains.CutShort` | pkg/upstream/transport/retry.go:85-103 | a request cut short in its first wait, by its context or its body, is a plain error that leaves the breaker as it was |
| `Chains.RejectedCredentialsCostMaxFails` | pkg/upstream/transport/transport.go:36-71 | if every Authenticate is rejected from the start, n requests make exactly min(n, maxFails) Authenticate calls and no wire send, and the breaker is open from the maxFails-th on |
| `Entries.IndexByte` | pkg/upstream/pihole/pihole.go:334-343 | the first position of the byte, or -1 if there is none |
| `Entries.AtoiUndoesPrint` | pkg/upstream/pihole/pihole.go:245-248 | every TTL reads back as printed |
| `Entries.Atoi` | pkg/upstream/pihole/pihole.go:379-381 | the number read is always an int64, whatever the text |
| `Entries.AtoiReads` | pkg/upstream/pihole/pihole.go:379-381 | digits with or without a sign read as the number they spell, or the nearest int64; a lone sign as 0 |
| `Entries.AtoiRejects` | pkg/upstream/pihole/pihole.go:379-381 | any other character after digits that fit 64 bits makes it 0 |
| `Entries.SplitN` | pkg/upstream/pihole/pihole.go:373-374 | between one and n parts |
| `Entries.TrimKeepsIff` | pkg/upstream/pihole/pihole.go:357-361 | trimming keeps a string if and only if it has no white space at its ends |
| `Pihole.ApplyByName` | pkg/upstream/pihole/pihole.go:301-328 | other names' entries stay in order, the name ends with the wanted entry or none, and changed says whether it owned anything else |
| `Pihole.ChangedIffContentsDiffer` | pkg/upstream/pihole/pihole.go:301-328 | changed is reported if and only if the multiset of entries changes |
| `Pihole.EditedOwned` | pkg/upstream/pihole/pihole.go:301-328 | after an edit the name owns exactly the wanted entry, provided that reads back under the name |
| `Pihole.EditedElsewhere` | pkg/upstream/pihole/pihole.go:301-328 | no other name gains or loses an entry |
| `Pihole.RepeatIsNoopIff` | pkg/upstream/pihole/pihole.go:301-328 | repeating an upsert changes nothing if and only if the entry reads back under the name; else every repeat appends a copy |
| `Pihole.HostEntryRoundTripIff` | pkg/upstream/pihole/pihole.go:348-362 | a hosts entry reads back as written if and only if the value has no space and the name is non-empty, without blanks, trimmed |
| `Pihole.CnameEntryRoundTripIff` | pkg/upstream/pihole/pihole.go:372-383 | a cname entry reads back as written if and only if name and target have no comma and the TTL is not negative |
| `Pihole.PatchedAlone` | pkg/upstream/pihole/pihole.go:192-269 | with nobody else writing, a call leaves the edited list, or the list as it was if a request was lost |
| `Pihole.Patch` | pkg/upstream/pihole/pihole.go:192-269 | whatever others write between fetch and patch: a patch that is due and takes effect leaves the edit of the list fetched, overwriting theirs; otherwise theirs stands |
| `Pihole.Upstream.PatchHosts` | pkg/upstream/pihole/pihole.go:192-228 | so for the hosts list, with failing requests and other writers; the other list is as others left it |
| `Pihole.Upstream.PatchCNAME` | pkg/upstream/pihole/pihole.go:230-269 | likewise for the cname list |
| `Pihole.Upstream.Upsert` | pkg/upstream/pihole/pihole.go:117-126 | A, AAAA and CNAME are supported and patch their list; any other type is an error and changes nothing; with nobody else writing, success means the edit is in place and failure that it is made whole or not at all |
| `Pihole.Upstream.Delete` | pkg/upstream/pihole/pihole.go:128-137 | likewise for removal |
| `Pihole.Upstream.List` | pkg/upstream/pihole/pihole.go:153-190 | every attributable entry as a record, hosts first, in list order |
| `Pihole.ListedIff` | pkg/upstream/pihole/pihole.go:153-190 | a record is listed if and only if an entry stands for it: a hosts line as AAAA exactly if its address has a colon, else as A, with no TTL; a cname line with its TTL |
| `Pihole.UpsertHealsIff` | pkg/upstream/pihole/pihole.go:117-190 | from any server contents, after an upsert verification agrees with the record if and only if entries can express it |
| `Pihole.UpsertHealsIndexed` | internal/reconcile/diff.go:175-196 | the same through the diff's index for every order, for a record without slashes |
| `Pihole.UpsertVerdicts` | pkg/upstream/pihole/pihole.go:139-151 | the exact verdict afterwards for every record of that name in the list |
| `Pihole.DualStackDisplaces` | pkg/upstream/pihole/pihole.go:192-228 | of a name's A and AAAA record only the one upserted last is left |
| `Pihole.DeleteVerdicts` | pkg/upstream/pihole/pihole.go:128-137 | after a delete every record of the name in its list is missing |
| `Pihole.OtherVerdictsStand` | pkg/upstream/pihole/pihole.go:301-328 | a call leaves the verdict for every other name and for the other list as it was |
| `Pihole.UpsertIsSlotUpdateIff` | pkg/upstream/pihole/pihole.go:301-328 | an upsert sets its own slot and no other if and only if no address of the other family is listed under the name |
| `Pihole.HandManagedKept` | pkg/upstream/pihole/pihole.go:330-338 | lines not attributable to one record, such as multi-host lines, stay |
| `PiholeRaces.ListIsSerial` | pkg/upstream/pihole/pihole.go:192-269 | in whatever order the fetches and patches of any number of calls arrive, the list is that of some of the calls made one after the other |
| `PiholeRaces.NothingLostIff` | pkg/upstream/pihole/pihole.go:192-269 | it is that of all calls whose patches were sent, in that order, if and only if each patch replaced the list its call had fetched; otherwise of fewer calls |
| `PiholeRaces.InEffectIff` | pkg/upstream/pihole/pihole.go:301-328 | a call is in effect on such a list if and only if it is among those that made it, or was in effect from the start |
| `PiholeRaces.AllKeptIff` | internal/reconcile/executor.go:132-169 | for the calls of one pass, each about a name of its own: every patch sent is in effect at the end if and only if none was sent over a list fetched before another patch |
| `PiholeRaces.TwoAtOnce` | internal/reconcile/executor.go:132-169 | any two needed calls about different names: fetch, fetch, patch, patch, and the first is as if never made |
| `PiholeRaces.TwoHosts` | pkg/upstream/pihole/pihole.go:192-228 | two new address records created side by side: both creates succeed and only the second is there |
| `Cloudflare.FqdnSettles` | pkg/upstream/cloudflare/cloudflare.go:86-94 | qualified names are in the zone and qualifying again changes nothing |
| `Cloudflare.ShortUndoesFqdnIff` | pkg/upstream/cloudflare/cloudflare.go:96-106 | shortName undoes fqdn if and only if the name is the apex or does not already end in the zone |
| `Cloudflare.FqdnUndoesShortIff` | pkg/upstream/cloudflare/cloudflare.go:96-106 | fqdn undoes shortName on a zone's name if and only if it is the apex or its short form is outside the zone |
| `Cloudflare.SameFqdnIff` | pkg/upstream/cloudflare/cloudflare.go:86-94 | two names share one Cloudflare name if and only if they are equal or one is the other spelled out |
| `Cloudflare.ListedUnderIff` | pkg/upstream/cloudflare/cloudflare.go:96-106 | a zone's name is listed under a record name if and only if it is that name with the zone appended, or both are the apex |
| `Cloudflare.SuffixedMissingIff` | pkg/upstream/cloudflare/cloudflare.go:185-211 | whatever the zone holds, a record whose name already ends in the zone is missing if and only if no record of its type stands under that name with the zone appended |
| `Cloudflare.StoredAgrees` | pkg/upstream/cloudflare/cloudflare.go:185-211 | any other name but the apex: no drift when its stored record is the only one of its type and qualified name, whatever else the zone holds |
| `Cloudflare.StoredAloneHappens` | pkg/upstream/cloudflare/cloudflare.go:86-94 | a zone that holds just the record, under its name if that is in the zone and else with the zone appended, meets that assumption |
| `Cloudflare.StoredApexIff` | pkg/upstream/cloudflare/cloudflare.go:185-211 | the apex, stored alone under its name: no drift if and only if no earlier record of its type and value under the zone appended to itself differs from it |
| `Cloudflare.ApexShadowed` | pkg/upstream/cloudflare/cloudflare.go:185-211 | such a zone, where the stored apex record is reported changed |

## Left out

- FanOut.Executor.Apply: a store is one of the two in the repository, whose record writes cannot fail inside a batch; an error of any other store would only be logged.
- Replay.CrashReplay: sources are clean in the crashed pass and in the two it is compared with, no upstream is verified, and no two keys act on one slot; with verification, Healing.SelfHealing settles any store and any slots.
- Replay.RecoversIff: assumes a slot of its own for each key in the desired set, in memory and in the image.
- FileStores.FileStore.Batch: fn is a program of store operations that may report failure at its end, or panic there; the mutex and concurrent callers are not modelled.
- FileStores.FileStore.Open: JSON encoding and decoding are taken to round-trip, so a file is an image or cannot be decoded.
- Reconcile.Reconciler.Reconcile: a panic while results are written back, where only the stores, metrics and logging run, is left out; waiting out the store read backoff is represented by its length only.
- Safety.SyncedSoundOverRuns: assumes a fixed slot per record key, no two keys on one slot, no outside edits, no cancellation, and calls that touch their own slot only, which concurrent Pi-hole calls may not; the lemmas on clashes, renames, cancellation and Pi-hole races show what happens otherwise.
- Healing.SelfHealing: assumes no two keys of the plan share a slot, listings that are faithful to the slots, names without slashes, and records their adapter can list back in a form its comparer accepts; per adapter that is the subject of Pihole and Cloudflare.
- Chains.Layers: metrics and debug log only watch, so they mean the transport inside them; an attempt that runs into its timeout is a failed reply of the transport inside.
- Retries.CalcDelay: float64 rounding and the conversion of an out-of-range float to a duration; the jittered delay is computed over the reals.
- SessionAuths.SessionAuth.EnsureToken: the generation is an unbounded number, without the wrap-around of a 64-bit counter.
- CircuitBreakers.CircuitBreaker.RecordAuthFailure: the counter is unbounded; wrap-around after 2^31 failures of requests already in flight is left out.
- Loop.NoLostWakeup: the notification channel's own buffer of one and the sources' senders; the model starts at the loop's receive. The pass at startup is not in the log.
- Cloudflare and Technitium requests, pagination and value-filtered deletes: server behaviour is not in the repository; those upstreams are slot maps.
- Docker, file watching, YAML decoding and environment expansion: a source is whatever its snapshots return.
- Configuration overlay, validation, HTTP endpoints, health checks and start-up wiring: no reconcile logic.
- Metrics, logging and the drift detail text: observability only.
- ListBySourceName: ranges over the same map as List.
