# Storage as coordination: queue, log and index over one path store

This project models the storage protocol of the Python package `stations`, and proves what the
protocol promises. Three state machines run over one key/value store: workers that lease items of a
queue and write their transforms into a log, compactors that fold the log into generations of an
index, and the leases and the lock they take on the way. The last-write-wins fold is what makes
the crash windows of the other three harmless, and a small calendar decides which day-of-month
partitions may be collected.

The same code appears twice, once as a transition system and once as methods.

* **Schedules.** `Lease`, `Compaction`, `Reading`, `Pipeline` and `Leased` take one backend primitive of one
  process per step. Processes, clock ticks, appends, foreign files and crashes interleave freely. A run is a
  sequence of states; the history of everything appended or enqueued is part of the state.
* **Methods.** `Store`, `PathQueueEdge`, `PathLogEdge`, `PathIndexEdge`, `DefaultCompactor` and
  `DefaultTransformEngine` are classes with the source's methods and loops, run by one process.

The two are proved to agree. The compactor's loops perform steps of the very `CompactCycle.Step` that the
transition system interleaves, and `CompactOnce` inherits the fold theorem. The steps of `run_once`, `enqueue`
and `acquire_lease`, taken by one worker alone, and those of `hybrid_read` on a store that does not change, end
where the methods end (`Alone`, `Quiet`).

| file | content |
|---|---|
| `Text.dfy` | Python strings: code-point order, prefixes and suffixes, substring search, padded numerals |
| `Folding.dfy` | the fold: function, specification, loop, algebra |
| `Codec.dfy` | checkpoint lines |
| `Naming.dfy` | every path the protocol builds or decodes |
| `Lease.dfy` | leases step by step, any number of workers |
| `Blobs.dfy`, `Backend.dfy`, `Claiming.dfy`, `Edges.dfy` | file contents, the store, `backends/claim.py`, log and index edges |
| `CompactCycle.dfy` | one compaction cycle, one primitive a step |
| `Ledger.dfy` | the invariant of the files, kept by each step of a cycle and each append |
| `Compaction.dfy`, `Guarantees.dfy` | many compactors with lock, clock and crashes; what holds in every reachable state |
| `Reading.dfy` | `hybrid_read` primitive by primitive, while workers and compactors run |
| `Solo.dfy`, `Resting.dfy`, `Compactor.dfy` | an undisturbed cycle and confluence; when the next one is idle; `DefaultCompactor` itself |
| `Racing.dfy` | where the guarantees end, as exact conditions |
| `Seen.dfy` | what a call of `hybrid_read` returns, in terms of the schedule alone |
| `FirstCommit.dfy`, `Overtaken.dfy` | the first two cycles step by step, and the schedules in which a reader or a second compactor comes in between |
| `QueueEdge.dfy`, `Engine.dfy`, `Drain.dfy` | the queue edge, `run_once`, and series of calls |
| `CycleEffect.dfy` | what an undisturbed cycle does to the store, file by file |
| `Alone.dfy`, `Quiet.dfy` | one process alone: the steps of the schedules end where the methods end |
| `Pipeline.dfy` | queue, log and index together, leases left open: what holds whoever holds what |
| `Leased.dfy` | the same with a lease file for each id, `acquire_lease` step by step, the clock, and the deletes of leases |
| `Punctual.dfy` | what being in time guarantees |
| `Overlap.dfy` | schedules of `Leased` in which two deliveries of one id, or a late `enqueue`, disturb each other |
| `Calendar.dfy` | day-of-month expiry |

## What the results rest on

These are the hypotheses the code itself needs. They are stated as `requires`, as the `Enabled`
predicates of the transition systems, or by the shape of the model.

* **Primitives are atomic, tags are collision-free.** A step is one primitive; equal contents are
  equal tags. The local backend's `replace_if_match` checks and then renames
  (`python/src/stations/backends/local.py:126-144`), so its atomicity is an assumption.
* **A reclaim compares with the tag of an expired lease.** At `python/src/stations/backends/claim.py:32`
  the tag is that of the bytes that were judged, and nothing more is asked. Backends with an `etag`
  method, the local and S3 ones included, take the tag again after judging (lines 27-31);
  `Lease.RereadTagBreaksExclusion` is a schedule in which that evicts a live owner. There the
  hypothesis is that the second look finds an expired lease or no file (`Lease.Careful`), and
  `Lease.RereadKeepsInvExactly` shows that nothing weaker will do. `Lease.LeaseExclusion` and
  `Compaction` cover both kinds of backend.
* **Clocks do not run backwards, and a lease is deleted by a live owner.** `Lease.ReleaseSafeExactly`
  says exactly which deletes keep exclusion; `Lease.LateReleaseCanBreakExclusion` is a schedule
  where a late one does not.
* **A cycle finishes within its lock's TTL or stops for good.** With exclusion this gives the single
  active compactor (`Guarantees.SingleActive`). Without the lock the protocol is not safe, whatever
  C12 of `spec/CONCURRENCY.md` says: see `Racing`.
* **A log path does not change under a cycle that has read it** (`Ledger.AppendOk`). It is enough
  that a path always carries the same record (`Ledger.SameRecordIsSafe`), which is the spirit of P7;
  `append` itself overwrites by identity. `Racing.DeleteIsSafeExactly` gives the exact condition at
  the delete.
* **Outputs that share a path are the same record** (`Pipeline.Agree`): the same hypothesis for the records
  that workers append.
* **A drained queue has logged what was placed in it** needs one of two things. Either an id always carries
  the same item (`Pipeline.OneItemPerId`; `Pipeline.DrainedLogIsImage`, `Pipeline.DrainedPipelineIsFold`), or
  everybody is in time (`Leased.Timely`; `Punctual.TimelyDrainIsImage`, `Punctual.TimelyPipelineIsFold`): a
  worker reaches the deletes of its pending item and of its lease before the lease runs out, a lease tag
  read again is that of a lease that has run out, and a late write of `enqueue` finds no other item in its
  place. `Overlap.SecondPayloadIsForgotten` and `Overlap.LateEnqueueOverwrites` are schedules, leases and clock
  included, in which an item is lost otherwise.
* **A directory walk yields every file that is there from its start to its end** (`Reading.WalkOk`).
* **Layout.** The index root does not lie inside a source root (`Ledger.Separate`), and no log record
  is named `checkpoint.…`: garbage collection lists the index root recursively and goes by base name.
* **Equal key, version and canonical content mean equal records** (`Folding.Canonical`), wherever
  folds of different inputs are compared. `Folding.OrderFreeExactly` shows how much of this is needed.
* **Records serialise to one non-blank line without CR or LF and round-trip alone.**
* **Queue roots hold no earlier `/pending/`** for `claim`; `Naming.ClaimRoundTripExactly` shows this is
  exactly what decoding needs.

## Where code and documentation differ

The model follows the code.

* C12 (safety rests on the commit CAS): the tag is taken at commit time and racers share one
  checkpoint name, which the loser deletes. `FirstCommit.UnlockedCompactorsLoseEverything` starts with one
  record and ends with a CURRENT that names no file and nothing else.
* C4 (no terminal state past expiry): the clock is compared with the expiry before and after the sink
  (`python/src/stations/engine.py:54-60`, `74-80`), never at the terminal record, and `fail` is not guarded at
  all (`48-51`, `69-72`). `Engine.LateTerminals` shows a late failure and a late completion,
  `Engine.LateTerminalExactly` exactly when a call writes late, and `Overlap.BothTerminal` an id that ends in
  both `completed/` and `failed/`, leases and clock included.
* P12 (a scan never under-approximates): `hybrid_read` reads the base first and each source's watermark and
  files later. A commit in between can hide a record from the call, in consuming and in retained mode
  (`FirstCommit.ConsumedRecordIsMissed`, `FirstCommit.RetainedRecordIsMissed`), and a commit with its collection
  between the look at CURRENT and the look for its checkpoint can hide a whole generation: `read_current`
  takes the missing file for an empty index (`Overtaken.GenerationIsMissed`). `Seen.ScheduleDecides` says
  exactly which schedules let a call be complete, and
  `Reading.UndisturbedCallIsComplete` that it is whenever CURRENT is at its end what it was at its start.
* The crash matrix of `spec/CONCURRENCY.md` section 2.5 lets a second worker find the terminal record
  and delete the pending copy; the code works the item again (`Engine.TerminalIsNotConsulted`). Duplicates
  converge all the same (`Pipeline.SinkHoldsOnlyOutputs`, `Pipeline.DrainedLogIsImage`).
* P11 (retained mode records the folded frontier): each commit records the paths of its own cycle
  only. This never under-reads (`Guarantees.HybridReadIsComplete`), but the mode comes to rest only
  under the condition of `Resting.RestsExactly`.
* The compactor skips every path that ends in `datapackage.json`, `iter_beyond` only a file of exactly
  that name (`Guarantees.SidecarsDifferExactly`). A record file called `x-datapackage.json` is read by
  `hybrid_read` but never folded; folds are therefore of the eligible records, and completeness of reads
  speaks of records without such names.

## Model

| member | source | states |
|---|---|---|
| Text.LeTotal | python/src/stations/compactor.py:310-322 | the comparison of versions, contents and keys is total and antisymmetric |
| Text.LeIsCodePointOrder | python/src/stations/compactor.py:310-322 | and it is the order of code points: a prefix comes first, otherwise the smaller character at the first difference |
| Text.DecimalRoundTrip | python/src/stations/compactor.py:149 | a zero-padded numeral of any width reads back as its number |
| Text.DecimalIsShortest | python/src/stations/compactor.py:149 | and carries no zero beyond the width asked for |
| Folding.FoldMeetsSpec | python/src/stations/compactor.py:310-322 | the fold is sorted strictly by key, holds input records only, and holds for each one a record of its key that ranks at least as high by version and canonical content |
| Folding.FoldKeepsNewest | python/src/stations/compactor.py:310-322 | the fold has one record for each key of the input, in ascending code-point order of keys: one whose version no record of the key exceeds, nor, among equal versions, whose content |
| Folding.FoldIsNewestExactly | python/src/stations/compactor.py:310-322 | a list meets the fold specification if and only if it is such a list |
| Folding.LastWriteWins | python/src/stations/compactor.py:310-322 | the dictionary loop, with its tie rule and its sorted read-out, computes the fold for every input, and of each key it keeps a record that no other of the key follows by code points, by version first and then by content |
| Folding.ReplaceRule | python/src/stations/compactor.py:314-321 | the nested tests that decide whether to overwrite an entry amount to one comparison of version and then content |
| Folding.Sorted | python/src/stations/compactor.py:322 | `sorted` over the dictionary's keys, by repeated least element |
| Folding.FoldAbsorption | python/src/stations/compactor.py:310-322 | for every input, ties included, folding a fold with more input is folding all at once, and folding the same input in again changes nothing |
| Folding.BestIsLastTop | python/src/stations/compactor.py:310-322 | what the loop keeps for a key is the last of its highest-ranked records |
| Folding.FoldIdempotent | python/src/stations/compactor.py:310-322 | a fold is its own fold, ties included |
| Folding.FoldOfSubset | python/src/stations/compactor.py:310-322 | two canonical inputs of which one is part of the other and absorbs it fold to the same list |
| Folding.OrderFreeExactly | python/src/stations/compactor.py:310-322 | every permutation of an input folds to the same list if and only if no two different records tie for the top of a key |
| Codec.LinesRoundTripExactly | python/src/stations/edges.py:313-321 | splitting the joined body at CR, LF or CRLF and dropping blank lines gives the lines back if and only if each line is non-blank and free of CR and LF |
| Codec.SplitJoinExactly | python/src/stations/compactor.py:151-161 | the body splits into exactly the lines written, blank ones included, if and only if none of them holds a CR or LF |
| Codec.EncodeInTurn | python/src/stations/compactor.py:151-161 | checkpoints concatenate, and a record adds its own line with one LF behind it and nothing else |
| Codec.DecodeEncode | python/src/stations/compactor.py:147-162 | reading a checkpoint body gives back exactly the records that were written |
| Naming.ClaimRoundTripExactly | python/src/stations/edges.py:109-134 | the id `claim` decodes from a pending path is the id that built it, shards, markers and suffixes inside it included, if and only if the root holds no earlier marker |
| Naming.CandidateHasId | python/src/stations/edges.py:96-104 | every candidate that survives the filters is the pending file of some id |
| Naming.QueuePathsDistinct | python/src/stations/edges.py:70-80 | item, lease and terminal files never alias, for any two ids |
| Naming.QueuePathsInjective | python/src/stations/edges.py:70-80 | each id has its own item, lease and terminal file |
| Naming.CheckpointNamesDistinct | python/src/stations/compactor.py:148-150 | generation names never collide, beyond six digits too |
| Naming.IndexFileUnderSourceExactly | python/src/stations/compactor.py:111-117 | a file of the index root turns up in a source's listing if and only if the index root lies inside that source |
| Lease.LeaseExclusion | python/src/stations/backends/claim.py:26-120 | over every schedule at most one worker holds an unexpired lease, the store then carries its record, and whoever is about to reclaim carries an expired tag: outright for the tag of the judged bytes, and for a tag read again as long as that read finds an expired lease or no file |
| Lease.RereadKeepsInvExactly | python/src/stations/backends/claim.py:26-31 | the step that reads the tag again keeps that invariant if and only if it finds an expired lease or no file |
| Lease.PrimitiveKeepsInv | python/src/stations/backends/claim.py:76-105 | every single primitive of `acquire_lease` and of the release keeps exclusion, for both kinds of tag, under the same condition |
| Lease.RereadTagBreaksExclusion | python/src/stations/backends/claim.py:26-31 | with the tag fetched after judging, a schedule ends with two live owners |
| Lease.RereadSafeExactly | python/src/stations/backends/claim.py:26-31 | fetching the tag late keeps exclusion if and only if the lease then in the store has expired or its owner no longer runs |
| Lease.ReleaseSafeExactly | python/src/stations/compactor.py:75-84 | deleting the lease after reading one's own id back keeps exclusion if and only if nobody else is live; a live owner's delete always does |
| Lease.LateReleaseCanBreakExclusion | python/src/stations/compactor.py:75-84 | a schedule in which a delete by an owner whose lease ran out removes a live one |
| Backend.Store.ReplaceIfMatch | python/src/stations/backends/local.py:126-144 | swaps exactly when the file is there and the tag is absent or matches, and changes nothing otherwise |
| Backend.Store.CreateIfAbsent | python/src/stations/backends/local.py:104-124 | creates exactly when the file is absent, and changes nothing otherwise |
| Backend.Store.List | python/src/stations/backends/local.py:78-95 | exactly the files under the prefix, each once, in no particular order |
| Claiming.AcquireLease | python/src/stations/backends/claim.py:108-120 | succeeds exactly when the lease is absent or readably expired; the caller's record is then the only change |
| Claiming.TryReclaimLease | python/src/stations/backends/claim.py:76-105 | the reclaiming half, with the same exact condition |
| Claiming.FreeExactly | python/src/stations/backends/claim.py:36-68 | a lease shuts everybody out up to and including its expiry and nobody after it; one without a readable expiry, or a file that is no lease, for good |
| Alone.AcquiresExactly | python/src/stations/backends/claim.py:71-120 | from any point of `acquire_lease` a worker left alone takes the lease exactly when nothing has been seen and it is free, when the file was gone and still is, or when what was judged has expired and the tag is that of what is there |
| Alone.AcquireMatches | python/src/stations/backends/claim.py:108-120 | so the primitives that schedules interleave are, undisturbed, the method: they take the lease exactly when it is free |
| Ledger.StepKeeps | python/src/stations/compactor.py:86-234 | each primitive of the one active cycle keeps the invariant: every appended record is in its file or absorbed by the committed generation, CURRENT names its own intact checkpoint, the frontier covers only what is absorbed |
| Ledger.AppendKeepsFiles | python/src/stations/edges.py:257-262 | an append under the stated condition keeps it, at any point of a cycle |
| Ledger.AppendKeepsCycle | python/src/stations/edges.py:257-262 | and keeps what the running cycle relies on |
| Ledger.SameRecordIsSafe | python/src/stations/edges.py:257-262 | when a path always carries the same record, appending to it is always safe |
| Ledger.NeverRaisesOrLoses | python/src/stations/compactor.py:178-199 | with one active compactor no read of the cycle raises and the abandon branches are never taken |
| Compaction.ApplyKeepsInv | python/src/stations/compactor.py:32-84 | every step of any process, lock, clock, crash and foreign file included, keeps the invariant |
| Compaction.ReachableInv | python/src/stations/compactor.py:32-84 | the invariant in every reachable state of any number of compactors |
| Guarantees.Conservation | python/src/stations/compactor.py:96-215 | in every reachable state the committed generation folded with the records still in the sources is the fold of all that was ever appended |
| Guarantees.HybridReadIsComplete | python/src/stations/edges.py:323-335 | in every reachable state the base and the records beyond the watermark, taken at that moment, fold to all that was ever appended, in retained mode too, over any number of cycles |
| Reading.CallIsCompleteExactly | python/src/stations/edges.py:264-342 | a call of `hybrid_read`, primitive by primitive amid every other process, absorbs everything appended before it began if and only if it still found in the sources, or outranked there, whatever was committed in between |
| Reading.MissedIsCommitted | python/src/stations/edges.py:323-335 | whatever the sources no longer gave to a call is committed by its end |
| Reading.UndisturbedCallIsComplete | python/src/stations/edges.py:323-335 | if CURRENT is the same at the end of a call as at its start, the call does not raise, its fold absorbs everything appended before it began, and it returns only what was appended, whatever is appended or deleted meanwhile |
| Reading.StepGains | python/src/stations/compactor.py:86-234 | a record once absorbed by the committed generation stays absorbed at every step of every process |
| FirstCommit.ConsumedRecordIsMissed | python/src/stations/edges.py:323-335 | a schedule in which a commit and a delete between base and sources make a call return nothing of a store with one record |
| FirstCommit.RetainedRecordIsMissed | python/src/stations/edges.py:323-342 | the same in retained mode with the file still there, through the watermark read after the base |
| Seen.ScheduleDecides | python/src/stations/edges.py:264-342 | the same exact condition over the schedule alone: the generation committed when the call read CURRENT, unless its checkpoint had gone when it was looked for, and what the source files held when they were opened |
| Seen.FoundIsOpened | python/src/stations/edges.py:264-280 | a call's sources absorb a record exactly when it opened, at some moment, a source file that then held it or something above it |
| Seen.StepKeepsCheckpoint | python/src/stations/compactor.py:148-234 | at every step of every process a committed generation's checkpoint keeps its bytes or goes |
| Overtaken.GenerationIsMissed | python/src/stations/edges.py:302-335 | a schedule in which CURRENT names a generation with the record before, during and after a call, and the call returns nothing |
| Overtaken.CallsCanMissGenerations | python/src/stations/edges.py:302-335 | there is such an index and such a call |
| Guarantees.SidecarsDifferExactly | python/src/stations/compactor.py:114-115 | compactor and `iter_beyond` agree on a record file beyond the watermark unless its name ends in the sidecar's without being it |
| CompactCycle.WatermarkExactly | python/src/stations/compactor.py:255-265 | a watermark hides a file by its path, and by its bare name in any directory |
| Guarantees.SkippedIsOnFrontier | python/src/stations/compactor.py:255-265 | the watermark hides a source path if and only if that path is on the frontier: the base-name test never hides another file |
| Guarantees.SingleActive | python/src/stations/compactor.py:46-64 | at most one process is inside a cycle under a live lock, and the lock file is its own |
| Guarantees.CommitIntegrity | python/src/stations/compactor.py:148-199 | CURRENT names an existing checkpoint, that of its own generation, with the recorded hash, holding a fold of appended records |
| Guarantees.StepMovesGeneration | python/src/stations/compactor.py:174-199 | a step leaves CURRENT untouched or moves it to the next generation |
| Guarantees.GenerationsIncrease | python/src/stations/compactor.py:174-199 | along a schedule CURRENT never disappears and changes only to a higher generation |
| Guarantees.DeletionAuthority | python/src/stations/compactor.py:205-212 | a file that leaves a source, garbage named `checkpoint.…` excepted, was read into the fold input of the deleting cycle, whose own commit is the current generation and absorbs what the file now holds |
| Guarantees.StepHonest | python/src/stations/compactor.py:105-212 | a cycle deletes only after its own commit succeeded, exactly what it enumerated, in that order; one that returns false has deleted nothing |
| Guarantees.UnlockedCycleHonest | python/src/stations/compactor.py:105-212 | the same of every cycle over its whole life, with no lock, whatever anybody else does to the store between its primitives |
| Guarantees.CyclesHonest | python/src/stations/compactor.py:105-212 | the same of every cycle in the schedules of the compaction system |
| Solo.SoloCycleFolds | python/src/stations/compactor.py:105-215 | an undisturbed cycle from any recoverable store leaves CURRENT naming the serialised fold of every eligible record ever appended, the idle short-circuit included |
| Solo.Confluence | python/src/stations/compactor.py:105-215 | two schedules that appended the same records, however batched, crashed or repeated, end after one undisturbed cycle each with byte-identical checkpoints |
| Racing.AbandonKeepsCommitExactly | python/src/stations/compactor.py:183-199 | the loser's delete keeps the commit intact if and only if the committed generation is not the one it was writing |
| Racing.WriteKeepsCommitExactly | python/src/stations/compactor.py:148-162 | writing the checkpoint keeps the commit intact if and only if its generation is not the committed one or the bytes agree |
| Racing.LoserRemovesWinner | python/src/stations/compactor.py:191-199 | two compactors at their first commit leave a CURRENT that names no file |
| Racing.UnlockedCommitDangles | python/src/stations/compactor.py:86-199 | the whole schedule for an index without sources, from any store without CURRENT |
| FirstCommit.UnlockedCompactorsLoseEverything | python/src/stations/compactor.py:86-212 | the whole schedule with a source record: the winner folds and deletes it, the loser removes the checkpoint, and the store holds a CURRENT that names nothing and no other file |
| Racing.CommitIsBlind | python/src/stations/compactor.py:148-190 | from the checkpoint write on, a cycle commits what it read whatever has been committed since |
| Racing.StaleCommitKeepsExactly | python/src/stations/compactor.py:174-190 | after such a commit a record is still accounted for if and only if it is in its file or absorbed by what this cycle read |
| Racing.DeleteIsSafeExactly | python/src/stations/compactor.py:206-212 | deleting a source keeps every appended record accounted for if and only if the generation absorbs the record now in the file |
| Resting.RestsExactly | python/src/stations/compactor.py:105-173 | after an undisturbed cycle that did something, in either mode, the next one returns false if and only if the watermark the first one started from had left no eligible record out |
| Resting.ConsumingRests | python/src/stations/compactor.py:105-212 | a consuming cycle on a store whose CURRENT records no frontier leaves no eligible record in the sources, and the next one returns false |
| Resting.NextWants | python/src/stations/compactor.py:111-128 | at its end a path is new to the next cycle exactly when it is an eligible record this one's watermark hid |
| Edges.PathLogEdge.Append | python/src/stations/edges.py:257-262 | overwrites the record's own path and nothing else |
| Edges.PathLogEdge.IterBeyond | python/src/stations/edges.py:264-280 | yields exactly the readable records beyond the watermark, each file once |
| Edges.PathIndexEdge.ReadBase | python/src/stations/edges.py:302-321 | the records of the checkpoint CURRENT names; nothing without CURRENT or checkpoint; an exception exactly where CURRENT or the checkpoint does not read |
| Edges.PathIndexEdge.ParseBody | python/src/stations/edges.py:317-321 | the line loop decodes the body, or raises at the first line that does not deserialise |
| Edges.PathIndexEdge.HybridRead | python/src/stations/edges.py:323-335 | raises exactly where CURRENT or the checkpoint does not read; otherwise the base as a prefix, empty where the checkpoint is missing, then source by source exactly the records beyond the watermark, each file once |
| Quiet.QuietCallMatches | python/src/stations/edges.py:264-342 | the primitives of a call, on a store that does not change, raise exactly where the method raises and otherwise return the same records |
| Edges.PathIndexEdge.Watermark | python/src/stations/edges.py:337-342 | the frontier CURRENT records, nothing without one |
| Edges.PathIndexEdge.ReadCurrentMeta | python/src/stations/edges.py:344-348 | CURRENT's document, nothing without one, an exception on any other content |
| Edges.PathIndexEdge.CurrentEtag | python/src/stations/edges.py:350-356 | the tag of CURRENT's bytes |
| Compactor.DefaultCompactor.EnumerateSource | python/src/stations/compactor.py:111-128 | the enumeration loop plays steps of the cycle and ends with its lists |
| Compactor.DefaultCompactor.LoadBase | python/src/stations/compactor.py:139-146 | `read_current` plays the cycle's reads and yields its fold base |
| Compactor.DefaultCompactor.SwingCurrent | python/src/stations/compactor.py:174-199 | the commit plays the cycle's compare-and-swap or create |
| Compactor.DefaultCompactor.DeleteSources | python/src/stations/compactor.py:206-212 | the delete loop plays the cycle's deletes, one per enumerated path |
| Compactor.DefaultCompactor.GcOldCheckpoints | python/src/stations/compactor.py:226-234 | the collection loop plays the cycle's deletes |
| Compactor.DefaultCompactor.CompactBody | python/src/stations/compactor.py:86-224 | the whole body is an undisturbed run of the cycle, from its first step to its end; on the way it touches only CURRENT, source files and files named like a generation; and what it has done, if it raises, finds nothing new or commits, is exact |
| Compactor.DefaultCompactor.CompactOnce | python/src/stations/compactor.py:32-84 | a held lock leaves the store untouched; otherwise the caller's lock is the first write and its removal the last, and in every store in between it names the caller and holds everybody else out up to its expiry and no longer; the call returns false exactly when there is a generation and nothing new, and then changes nothing; when it returns true, CURRENT is the commit record of this cycle, the batch and the superseded generations are gone as the mode says, and every other file is as it was; and from any store a crash can leave it ends with CURRENT naming the serialised fold of everything appended |
| Compactor.LockIsOwnFile | python/src/stations/compactor.py:48 | the lock file is no source, no checkpoint, not CURRENT, and never collected as garbage |
| QueueEdge.PathQueueEdge.Enqueue | python/src/stations/edges.py:82-90 | the first placement of an id wins, another changes nothing |
| QueueEdge.PathQueueEdge.Claim | python/src/stations/edges.py:92-147 | returns nothing if and only if no pending item's lease can be taken; otherwise the stored item of one that can, for every candidate order; the one change is then the lease file, which says what the returned lease says, and keeps the id from everybody up to its expiry and no longer; a malformed item raises with its lease taken |
| QueueEdge.PathQueueEdge.Candidates | python/src/stations/edges.py:96-104 | exactly the listed `.json` files |
| QueueEdge.PendingIsListed | python/src/stations/edges.py:96-104 | no pending item is filtered out, whatever its id |
| QueueEdge.PathQueueEdge.Complete | python/src/stations/edges.py:149-179 | the final store, and that the completed record is there at every point before a delete |
| QueueEdge.PathQueueEdge.Fail | python/src/stations/edges.py:181-196 | the same for a failed record |
| Engine.DefaultTransformEngine.RunOnce | python/src/stations/engine.py:22-91 | each call is exactly one of: idle with nothing claimable, raised on a malformed item, or one item worked; and a crash at any point loses no pending id and leaves no completed record without its output in the sink |
| Engine.WorkedExactly | python/src/stations/engine.py:42-91 | file by file, what a call that works leaves: the output's path carries it exactly when there is one, the first check passes and the write is not refused; which terminal record is written, and when; item and lease are gone exactly then, and otherwise the lease is held to its expiry; no other file changes |
| Engine.ChecksGuard | python/src/stations/engine.py:53-80 | a worker past its expiry at the first check touches nothing but its lease, and past it at the second only the lease and the output's file |
| Alone.CallMatches | python/src/stations/engine.py:42-91 | the steps that schedules interleave, taken by one worker alone, end in the very folders, terminal records and sink in which `run_once` ends, whatever the clock and the sink answer |
| Alone.EnqueueMatches | python/src/stations/edges.py:82-90 | and those of `enqueue` where `enqueue` ends |
| Engine.CompleteSurvives | python/src/stations/edges.py:149-179 | at each point of `complete` every id is pending or terminal, and the output is already in the sink |
| Engine.FailSurvives | python/src/stations/edges.py:181-196 | at each point of `fail` every id is pending or terminal |
| Engine.LateTerminalExactly | python/src/stations/engine.py:46-90 | a call writes its terminal record if and only if the transform raises, or the first check passes and the sink raises, or both checks pass; the moment of the record itself is not among the conditions |
| Engine.LateTerminals | python/src/stations/engine.py:48-90 | a late failure and a late completion, with readings of a clock that does not run backwards |
| Engine.TerminalIsNotConsulted | python/src/stations/engine.py:37-90 | an item still pending is worked again and its output appended again although its completed record exists |
| Engine.RootsDisjointExactly | python/src/stations/edges.py:247-262 | two roots share a path if and only if one lies inside the other |
| Drain.WorksExactly | python/src/stations/engine.py:32-40 | with well-formed, unheld items, a call works if and only if something is pending |
| Drain.CallMovesOne | python/src/stations/engine.py:32-91 | such a call moves exactly one id from the pending items to `completed/` or `failed/`, whether or not the transform or the sink raises, and leaves every other id's files untouched |
| Drain.WaitingShrinks | python/src/stations/engine.py:46-91 | and the set of pending files loses exactly that one |
| Drain.DrainTerminates | python/src/stations/engine.py:22-91 | with `n` items pending, exactly the first `n` calls of a series return true and all later ones false |
| Drain.DrainSettlesAll | python/src/stations/engine.py:46-91 | by then each item's output is in the sink and in its completed record, or it has a failed record if its transform raised, provided the sink itself never raises |
| Leased.PipelineReachable | python/src/stations/engine.py:32-91 | every state with leases and clock projects to a reachable state of the pipeline without them, so that all that is proved there of reachable states holds here |
| Leased.LeasesExclusive | python/src/stations/backends/claim.py:58-120 | over every timely schedule no two workers hold an unexpired lease on one id, although `complete` and `fail` delete the lease file without looking whose it is |
| Punctual.TimelyItemsAreSafe | python/src/stations/edges.py:82-196 | over every timely schedule every item ever placed, each of several payloads under one id included, is pending, or its output is in the log, or its id has failed |
| Punctual.TimelyDrainIsImage | python/src/stations/edges.py:82-196 | a queue drained in time has logged exactly the transforms of the items placed in it, besides what others appended |
| Punctual.TimelyPipelineIsFold | python/src/stations/compactor.py:135-212 | and one undisturbed cycle then leaves the serialised fold of them |
| Punctual.StepKeepsInv | python/src/stations/edges.py:82-196 | a worker in time knows its item: what it read is still pending under its id until it deletes it itself |
| Pipeline.QueueNoLoss | python/src/stations/engine.py:46-90 | over every interleaving of workers, crashes and duplicate deliveries, an id once enqueued is pending, completed or failed in every later state, with nothing assumed of leases, items, outputs or compactors |
| Pipeline.EndToEnd | python/src/stations/engine.py:46-90 | a completed item's transform is in its file in the sink or absorbed by the committed generation, whatever workers, compactors and other writers do, from any log there was at the start |
| Pipeline.SinkHoldsOnlyOutputs | python/src/stations/edges.py:257-262 | every record file in a source that nobody else put there is the transform of some item that was put in the pending folder, at its own path |
| Pipeline.StepKeepsItemsExactly | python/src/stations/edges.py:82-90 | a step keeps every placed item pending, delivered or failed if and only if the item it clears away, or that a late write of `enqueue` replaces, has been dealt with |
| Pipeline.UnforgottenItemsAreSafe | python/src/stations/edges.py:149-196 | over a whole schedule of such steps every item ever placed is safe, and in the end each one's transform has been appended |
| Overlap.SecondPayloadIsForgotten | python/src/stations/edges.py:149-179 | a schedule with leases and clock in which a worker that passed both checks in time completes too late and deletes a second payload of its id unprocessed, with nothing pending, nothing failed and its output never appended |
| Overlap.LateEnqueueOverwrites | python/src/stations/edges.py:82-90 | a schedule in which the fallback write of `enqueue` replaces another item, which is then neither pending, delivered nor failed |
| Overlap.BothTerminal | python/src/stations/engine.py:65-72 | a schedule with leases and clock in which one id ends completed and failed |
| Overlap.LateCompletionFreesAnothersLease | python/src/stations/edges.py:149-179 | a schedule in which a late completion deletes the lease of a worker who holds the item in time |
| Overlap.OneEndingExactly | python/src/stations/edges.py:149-196 | a step leaves each id in at most one terminal folder if and only if it writes no record for an id that has one in the other |
| Pipeline.DrainedLogIsImage | python/src/stations/edges.py:92-179 | where an id always carries one item, with nothing pending and nothing failed, exactly the transforms of the enqueued items have been logged, besides what others appended |
| Pipeline.CycleFoldsLog | python/src/stations/compactor.py:135-212 | after any schedule one undisturbed cycle leaves a checkpoint that is byte for byte the serialised fold of what has been logged |
| Pipeline.DrainedPipelineIsFold | python/src/stations/compactor.py:135-212 | and that is then the fold of those transforms and of what others appended |
| Calendar.OrdinalOrder | python/src/stations/segments.py:292-294 | comparing dates field by field agrees with the day numbers whose difference is the age |
| Calendar.OrdinalClosed | python/src/stations/segments.py:292-294 | the day number in closed form |
| Calendar.YearCycle | python/src/stations/segments.py:292-294 | the count begins with year 1, a year is a day longer under the Gregorian rule, and the calendar repeats after 146097 days |
| Calendar.MonthLengths | python/src/stations/segments.py:287-291 | the months a date may name have the twelve lengths of the table, February one more in leap years |
| Calendar.DaysBeforeMonthClosed | python/src/stations/segments.py:287-294 | the days before each month by the closed formula |
| Calendar.ExpiredExactly | python/src/stations/segments.py:279-296 | expired means an age in plain numbers: so many days into this month, or that and what the last month, by the table, had left after the partition's day |
| Calendar.IsExpired | python/src/stations/segments.py:262-296 | true if and only if the latest date with that day number, not after the reference, is in the reference month or the one before and more than the TTL ago; and if and only if the age by the table of months exceeds the TTL |
| Calendar.RecentNeverExpires | python/src/stations/segments.py:262-296 | a partition written within the TTL is never expired |
| Calendar.AgeAtMost30 | python/src/stations/segments.py:292-295 | the computed age lies between 0 and 30 |
| Calendar.CollectsExactlyBelow30 | python/src/stations/segments.py:262-296 | some partition is expired on some day if and only if the TTL is below 30 |
| Calendar.PartitionIsNotCollectedEarly | python/src/stations/segments.py:250-257 | the folder a date is written to names its day in two digits and is not collected within the TTL |

## Left out

- The S3 backend, real files, directories, fsync, write protection, and the temporary files of `write_atomic`: only the contracts of the primitives are kept.
- JSON, ISO-8601 and sha256 as text: each kind of document is a constructor, a lease's expiry is an optional number, canonical content is a string, content stands for its tag.
- `_key` and `_ver` field lookup and `_identity`: a record carries its key, version, canonical content and identity; an item its id.
- Path normalisation (`rstrip("/")`) and paths outside the backend root.
- `PathQueueEdge.renew`, emissions, trace ids and logging; nothing in the cycle or in `run_once` depends on them.
- Safety of several compactors without the lock: refuted in `Racing`, so not claimed.
- The inspector, the command line, the transform registry and schema sidecars.
- Sources on another backend or without a root, which the compactor reads through `iter_beyond` and never deletes; queues as sinks; a sink on a backend of its own.
- `serialize_many`, `deserialize_many`, and watermarks that are strings or integers: the compactor never writes one.
- The hash order of candidates in `claim`: the listing's order is arbitrary, so the contract holds for every order.
- The rendering of a completed record: it keeps the item, the worker, the time and the result; a failed record keeps no error text.
- Partition names are already parsed: `int` accepts spellings such as a padded numeral, a non-number is `None`.
- Pipeline.QueueNoLoss: leases are not part of `Pipeline`; any worker may hold any item at any time, which is weaker for workers and so stronger for the result. `Leased` adds them.
- QueueEdge.PathQueueEdge.Enqueue: alone, the file cannot vanish between a failed create and the exists check, so that write is modelled in `Pipeline` only.
- Claiming.TryReclaimLease: likewise the second create after a vanished file, modelled in `Lease` only.
- Guarantees.HybridReadIsComplete: about a snapshot; the call as it runs is `Reading`.
- Reading.CallIsCompleteExactly: a read of a file that is there succeeds, and the records are those without sidecar names.
- Compactor.DefaultCompactor.CompactOnce: one reading of the clock serves the lock and the commit record, where the source takes two.
