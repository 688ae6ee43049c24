# Verified models of the procurement pipeline's commit protocols

A day's data becomes visible only through a commit. This project models the places
where that has to survive crashes, retries, stale workers and concurrent writers, and
proves that it does:

* **Metadata** (`Metadata*.dfy`): the lease-fenced commit protocol over the PostgreSQL
  tables. A run is any sequence of atomic transactions of the service and of the two
  import tools, with any database clock. `MetadataProtocol` gives each transaction as a
  step on the tables; `MetadataService` is the row-by-row code, proved equal to the steps.
* **Ingestion** (`Pagination`, `BronzeBatches`, `BronzeWriter`, `DayAttempt`,
  `DailyRunner`): one day from its first search page to its commit, against any server,
  extractor, loader, store, cancellation and any clock that does not run backwards.
* **Transfer** (`Projection`, `Archive`, `Import*`, `Importer`, `Export`, `RoundTrip`):
  archives of committed days. An import may die between any two writes and be started
  again; `ImportSpec` is the import as a function of the writes it may still make,
  `Importer` the imperative code, proved equal to it.
* **Compaction** (`ParquetFiles`, `Rewrite`, `Compaction`, `CompactedDay`, `CommitBooks`,
  `CommitBarrier`, `CommittedReader`): rewriting the files of a day without changing what a
  reader finds, and the checkpointed commit of it. `CommitBarrier` runs `apply_day` against
  the store itself, with writes that are lost, land late or are cut off; `CommittedReader`
  reads what such a story leaves.
* **Readers and caches** (`Control`, `Coverage`, `CoverageGuard`, `OpsIndex`, `IndexSync`,
  `CooldownSweep`): which attempt of a day is effective, the cached coverage guard, the
  ops index against storage that others write to meanwhile, and the cooldown figure.

`Wrappers` and `Collections` hold an option type and the enumeration of finite sets;
`SmallArchive` is a concrete valid archive, so the import theorems speak of something.

How the outside is modelled: object storage is a map of atomically written objects;
whatever servers, loaders, stores, cancellation and other writers do is an arbitrary
finite script that a run consumes, so each theorem holds for every such script. After its
script the outside behaves, except that a dead process stays dead. Dates and
times are integers, SHA-256 and ETags are uninterpreted. UUIDs drawn by the metadata
service are inputs of a step, and a reused one is rejected by the key constraints.
`P(..) == true` in a contract is just `P(..)`, kept as one fact for the solver.

What the proofs found:

* A successful request replayed with another partition's identity is answered as done,
  with that partition's commit if it has one and else with what its own attempt began
  from, a commit or nothing (`MetadataSafety.ForeignReplayHappens` is a run that shows both,
  `ReplayOfSuccess` the exact condition); resolving the request by its id alone has no such
  case (`ResolveOfSuccess`).
* `import_resource_manifests` ignores leases. It breaks the rule that a lease holder's base
  is the current commit exactly when it commits a day whose lease is held
  (`MetadataFencing.HeldBasesKeptExactly`, `MigrationCanBreakBase`); the holder's
  publication is then refused for good (`MigrationFencesHolder`).
* The ops index is only as fresh as its fingerprints. Over quiet storage an incremental sync
  equals a rebuild exactly when every row it does not read anew shows storage already
  (`IndexSync.IncrementalIsRebuild`). With one write to a fingerprint that always holds
  (`OneWriteShows`). With fingerprints of the content alone it can fail for ever: an object
  overwritten between the listing and the reading of a sync, and written back, keeps a
  stale row through any number of incremental syncs (`StaleForEver`).
* When a daily run dies on the write of a page manifest that had landed all the same, that
  page is not among those its handlers mark FAILED: it stays RUNNING, or SUCCESS if the
  write was its confirmation (`DayAttempt.TornPageStays`; `DailyRunner.Runner.Crash` and
  `CutOff` say that every other page from `completed_pages` on is FAILED). A page stored
  SUCCESS was accepted in full even then.
* A finish time of exactly 0.0 counts as not finished in the benchmark metrics
  (`CooldownSweep.Metrics.End`), as the code's `or` says.

## Model

| member | source | states |
|---|---|---|
| MetadataInvariants.ReachableInv | src/procurement/metadata/postgres/schema.py:32-220 | every state reached by any interleaving of service steps and both import tools keeps the table constraints, leases that name a running attempt of their partition with its owner and generation, success exactly for attempts with one commit, and linear histories |
| MetadataSafety.OneLinearHistory | src/procurement/metadata/postgres/commits.py:136-198 | in every reachable state the commits of a partition form exactly one parent chain from the head to a root: no fork, no orphan |
| MetadataSafety.HistoryOnlyGrows | src/procurement/metadata/postgres/commits.py:145-198 | over any run a partition's history only grows at its head; what it was stays its prefix |
| MetadataSafety.ReplayOfSuccess | src/procurement/metadata/service.py:78-99 | a replayed successful request changes nothing, and its answer has the request's own commit as ancestor or self if and only if it is replayed with its own identity |
| MetadataSafety.ForeignReplayHappens | src/procurement/metadata/service.py:78-99 | a reachable run in which a successful request, replayed for another day, is answered as done with that day's commit, and for a day nobody crawled as done with none |
| MetadataSafety.ResolveOfSuccess | src/procurement/metadata/service.py:302-327 | resolving a successful request by id always answers a commit of its own partition with its own commit as ancestor or self |
| MetadataFencing.FencedForEver | src/procurement/metadata/postgres/leases.py:107-157 | an attempt that lost its lease can never again renew or publish, in any later state, whatever values the clock takes |
| MetadataFencing.LosingTheLeaseFences | src/procurement/metadata/postgres/leases.py:66-86 | one step that takes the lease from an attempt, by a newer claim or a release, refuses that attempt in every later state |
| MetadataFencing.GenerationNeverDecreases | src/procurement/metadata/postgres/leases.py:66-104 | the generation of a lease never decreases over any run |
| MetadataFencing.HeldLeaseMatches | src/procurement/metadata/service.py:168-191 | in every reachable state a held lease names a running attempt of its partition with the same owner and generation |
| MetadataFencing.HeldBasesKeptExactly | src/procurement/tools/import_metadata.py:174-306 | a step keeps every holder's base equal to the current commit if and only if it is not a manifest migration of a day without a commit whose lease is held, with fresh ids, times in order and files that can be inserted |
| MetadataFencing.GuardIsReply | src/procurement/tools/import_metadata.py:174-306 | those guards, all of them known before the step, hold exactly when the migration commits while somebody holds the lease |
| MetadataFencing.HeldBasesOverRuns | import_bid_opening_postgres.py:330-389 | over any run of service steps and `_publish_day` every lease holder's base stays the current commit |
| MetadataFencing.MigrationFencesHolder | src/procurement/tools/import_metadata.py:239-306 | after a migration committed under its lease, the holder of a first crawl can never publish on its own base |
| MetadataFencing.MigrationCanBreakBase | src/procurement/tools/import_metadata.py:174-306 | such a migration is reachable: a concrete run after which it commits under a held lease |
| MetadataTime.TimeExclusion | src/procurement/metadata/postgres/leases.py:66-86 | with a non-decreasing clock and positive durations, the tenancies of different attempts on one partition are pairwise disjoint over the whole run |
| MetadataAnswers.BeginAnswers | src/procurement/metadata/service.py:78-199 | in every state with the invariants: which request is replayed, reused, granted, refused for a running lease or rejected, each exactly; a reused one gets the head of its day and whether a lease on it still runs; a granted one leaves a running attempt on that head, which holds the lease under the next generation until its time is up; every other answer changes no row |
| MetadataAnswers.ResolveAnswers | src/procurement/metadata/service.py:302-327 | a request is found exactly when an attempt was begun for it, with that attempt, its partition and the partition's head |
| MetadataAnswers.RenewAnswers | src/procurement/metadata/postgres/leases.py:107-157 | a renewal succeeds exactly for the owner of a running lease under the attempt's own generation and a positive duration; it moves the end of that lease and changes nothing else; each error exactly |
| MetadataAnswers.PublishAnswers | src/procurement/metadata/postgres/commits.py:94-198 | a publication succeeds exactly for the owner of a running lease, on the head it names, with a commit and files the tables take; it adds the commit on that head with its counts and files, ends the attempt as success and frees the lease; each error exactly, with nothing changed |
| MetadataAnswers.FailAnswers | src/procurement/metadata/service.py:257-300 | a running attempt becomes failed or canceled as asked and gives its lease back, unless the caller is not the owner of the lease it holds; a finished one stays; each answer exactly |
| MetadataAnswers.ImportAnswers | src/procurement/tools/import_metadata.py:174-306 | a day with a head is skipped, `_publish_day` refuses a day whose lease is held and the migration does not, any other day is imported exactly when the tables take it: a finished attempt and a root commit with its counts and files, no lease taken |
| MetadataFiles.ReachableFilesOk | src/procurement/metadata/postgres/schema.py:163-220 | in every reachable state each commit has as many files as it says, each file belongs to a commit, and no two files lie at one place |
| MetadataFiles.InsertsExactly | src/procurement/metadata/postgres/commits.py:163-182 | files are stored if and only if each is well formed and no number or place is taken twice, and then exactly they are, each under its number |
| MetadataFiles.PublishedFilesStay | src/procurement/metadata/postgres/commits.py:145-182 | what is published or imported in a reachable state stores under a new commit exactly the files given, with the counts given, and they are that commit's files in every later state; no other commit, nor its files, ever changes |
| MetadataFiles.SnapshotOfPublished | src/procurement/metadata/postgres/commits.py:231-358 | in every later state a snapshot has one view for each identity asked that has a head, in the order asked, and a view of the published commit shows exactly the files and counts it was published with, by number |
| MetadataFiles.PublishedIsShown | src/procurement/metadata/postgres/commits.py:145-198 | a snapshot taken right after a publication shows the new commit for its day, with exactly its files by number |
| MetadataService.Service.BeginOrReuse | src/procurement/metadata/service.py:64-199 | the row-by-row transaction equals its atomic step, rollback included, which `MetadataAnswers.BeginAnswers` characterizes |
| MetadataService.Service.ResolveRequest | src/procurement/metadata/service.py:302-327 | the reads answer what the request became, from its own partition |
| MetadataService.Service.RenewLease | src/procurement/metadata/service.py:201-222 | the fencing checks and the lease update equal the atomic step |
| MetadataService.Service.PublishCommit | src/procurement/metadata/postgres/commits.py:94-228 | locks, fencing, inserts of commit and files, head update and release equal one atomic step that leaves nothing behind when refused; `MetadataAnswers.PublishAnswers` and `MetadataFiles.PublishedFilesStay` say what it leaves |
| MetadataService.Service.FailAttempt | src/procurement/metadata/service.py:257-300 | the checks and updates equal the atomic step |
| MetadataService.Service.ImportDay | import_bid_opening_postgres.py:330-389 | the transaction of `_publish_day`, and the per-day body of the manifest migration, equals its atomic step, which `MetadataAnswers.ImportAnswers` characterizes |
| MetadataService.Service.ImportDays | src/procurement/tools/import_metadata.py:170-306 | the manifest migration commits all its days in one transaction: it leaves the state after all of them, or nothing when one of them is refused |
| MetadataSnapshot.GetSnapshot | src/procurement/metadata/postgres/commits.py:231-358 | for every list of identities the answer is the specified sequence of views (`MetadataFiles.SnapshotShows` says which), duplicates and order kept |
| MetadataFiles.SnapshotShows | src/procurement/metadata/postgres/commits.py:231-358 | that sequence is one view for each identity asked that has a head, in order, each showing the head with exactly its files by number |
| MetadataSnapshot.OneByOne | src/procurement/metadata/postgres/commits.py:239-255 | the per-identity branch computes that sequence |
| MetadataSnapshot.InChunks | src/procurement/metadata/postgres/commits.py:257-358 | the chunked batch branch computes the same sequence |
| MetadataSnapshot.SelectFilesPerCommit | src/procurement/metadata/postgres/commits.py:300-324 | grouping the ordered file rows of many commits gives each commit its own files in order |
| Pagination.PageCountIsCeiling | src/procurement/ingestion/engine/pagination.py:88-95 | the pages of a window are max(1, ceil(total / size)) |
| Pagination.FitsMeaning | src/procurement/ingestion/engine/pagination.py:58-107 | a page fits exactly when its content is a list, it repeats the total of the window, which is below 10000, the first stated number, size and page count agree, an empty window may claim 0 pages, and it has exactly the items that fall on it |
| Pagination.AddKeysMeaning | src/procurement/ingestion/engine/pagination.py:109-119 | the seen-set accepts pages exactly when no two items share a non-null key |
| Pagination.Pager.FetchPage | src/procurement/ingestion/engine/pagination.py:50-121 | a fetched page is yielded exactly when its envelope, total, size and keys agree with the window so far |
| Pagination.Pager.Next | src/procurement/ingestion/engine/pagination.py:41-125 | resuming the generator yields the next page, ends at the last page of the window, or fails on an inconsistent one |
| Pagination.Drain | src/procurement/ingestion/engine/pagination.py:30-125 | against any server the crawl ends, after at most max(1, ceil(T / size)) fetches; it ends normally if and only if every page fits the window, and then holds exactly T < 10000 items and no repeated key; else it yielded exactly the pages before the first that does not |
| BronzeBatches.Group | src/procurement/bronze/writer.py:81-84 | the batch per table is the rows of the pending pages in page order, each table once |
| BronzeBatches.CallKeepsOrder | src/procurement/bronze/writer.py:86-92 | handing one table of a batch over keeps: per table, whole pages, each once, in page order |
| BronzeBatches.TotalInAdds | src/procurement/bronze/writer.py:87-92 | accepting a table adds exactly its rows to what is confirmed in all |
| BronzeWriter.Confirm | src/procurement/bronze/writer.py:91-92 | each pending page is confirmed for its rows of the accepted table, no other page changes |
| BronzeWriter.Acknowledge | src/procurement/bronze/writer.py:102-103 | receipts are given to the pending pages only, each for its row count |
| BronzeWriter.BufferedWriter.Flush | src/procurement/bronze/writer.py:79-106 | the buffer ends empty; receipts only on success; the count returned or carried by the error is what became persistent |
| BronzeWriter.BufferedWriter.LoadTable | src/procurement/bronze/writer.py:86-92 | one inner call: rows handed over once, counted, confirmed only when accepted in full |
| BronzeWriter.BufferedWriter.WritePage | src/procurement/bronze/writer.py:55-77 | every call keeps the books (rows at most once and in page order, one receipt per page and only when whole, persisted = confirmed + incomplete calls) and the buffer limits; returned or raised counts equal the growth of `persisted_records` |
| BronzeWriter.BufferedWriter.TakeReceipts | src/procurement/bronze/writer.py:108-110 | receipts are given once, never for a page that had one, and state its rows |
| BronzeWriter.BufferedWriter.Abort | src/procurement/bronze/writer.py:112-114 | pending pages are dropped: nothing of them was handed over, the books, counts and receipts stay, and as every later call spares the pages below its first pending one, nothing of them ever will be |
| BronzeWriter.Ledger.WholeConfirmed | src/procurement/bronze/writer.py:91-103 | a page accepted in full is confirmed for all its rows |
| DayAttempt.Attempt.Announce | src/procurement/ingestion/engine/daily_runner.py:191-193 | a yielded page is stored as running and waits for its receipt |
| DayAttempt.Attempt.Confirm | src/procurement/ingestion/engine/daily_runner.py:116-124 | exactly the pages of the receipts become SUCCESS with their counts, the day counts them |
| DayAttempt.Attempt.Discard | src/procurement/ingestion/engine/daily_runner.py:126-132 | exactly the waiting pages are stored FAILED, with what was confirmed of them, an error and a completion time; no other page changes |
| DayAttempt.TornPageStays | src/procurement/ingestion/engine/daily_runner.py:191-193 | a run in which the announcement of a page raised after it had landed: the page stays stored as RUNNING |
| DailyRunner.StatedAddUp | src/procurement/ingestion/engine/daily_runner.py:116-132 | page manifests that state what the writer confirmed add up to the rows of the accepted tables |
| DailyRunner.FinishedIsWellFormed | src/procurement/transfer/archive.py:187-227 | a finished day with all pages done passes `validate_day_metadata` under every run header of the attempt |
| DailyRunner.EveryRowHandedOver | src/procurement/bronze/writer.py:79-106 | when all pages were accepted in full the inner writer was given, per table, every row once and in page order |
| DailyRunner.Runner.RunPage | src/procurement/ingestion/engine/page_runner.py:24-68 | a page with no errors is handed over as extracted; any error keeps the writer consistent and is counted |
| DailyRunner.Runner.Conclude | src/procurement/ingestion/engine/daily_runner.py:203-236 | a turn ends with manifests, receipts and writer in agreement, or with a recorded failure that adds up |
| DailyRunner.Runner.RecordFailure | src/procurement/ingestion/engine/daily_runner.py:226-235 | the day is stored FAILED with errors, and its pages' records plus those of incomplete calls equal the day's; its stored pages are SUCCESS and accepted in full below `completed_pages`, and FAILED with an error and a completion time from there on |
| DailyRunner.Runner.Turn | src/procurement/ingestion/engine/daily_runner.py:144-236 | one turn of the loop keeps all agreements, ends the window, or records such a failure |
| DailyRunner.Runner.Finish | src/procurement/ingestion/engine/daily_runner.py:238-260 | after the last flush every page of the window is done, or such a failure is recorded |
| DailyRunner.Runner.Commit | src/procurement/storage/control.py:31-50 | success is reported only when the SUCCESS marker is stored, acknowledged or read back |
| DailyRunner.Runner.Run | src/procurement/ingestion/engine/daily_runner.py:91-327 | whatever fails, a stored commit is well formed and is the whole consistent window; at every end a page stored SUCCESS was accepted in full and states its rows; no marker follows a commit; a recorded failure adds up, with exactly the completed pages SUCCESS and all others FAILED; every other end leaves no commit; and when nothing fails, the window is consistent and the extractor notes no error, the day is committed |
| DailyRunner.Runner.Crash | src/procurement/ingestion/engine/daily_runner.py:296-322 | an unforeseen error never leaves a commit, and leaves a FAILED day with its errors and persisted records when the store still works; exactly the pages from `completed_pages` on are then FAILED, but the one page whose write raised after it had landed, which is not |
| DailyRunner.Runner.CutOff | src/procurement/ingestion/engine/daily_runner.py:261-295 | an interruption never leaves a commit, and leaves a FAILED day with one more error when the store still works; the pages from `completed_pages` on, the open one included, are then FAILED with the same one exception |
| Projection.ProjectionOrderFree | src/procurement/transfer/archive.py:230-257 | the projected summary does not depend on the order its days are listed in |
| Projection.SummaryMeaning | src/procurement/transfer/archive.py:230-257 | there is a summary exactly when the days are finished days of the run, one per date, and it is the one header that counts them all as successes and none as failed, spans them from the first to the last, ends when the last of them ended, or when the original header of a finished single-day run says, and otherwise says what the source header says |
| Archive.ValidateIndex | src/procurement/transfer/archive.py:140-174 | an index is accepted if and only if days and objects are not claimed twice and the missing dates are the exact complement |
| Archive.VerifyCommitted | src/procurement/storage/committed.py:82-88 | a committed day is verified exactly when every row of its files has its run, date and hash, and they are as many as it says |
| Archive.ValidIsSound | src/procurement/transfer/archive.py:260-331 | a validated archive holds every object of its days, consistent and with its digest, days owning disjoint objects |
| ImportConvergence.CrashSafeResume | src/procurement/transfer/importer.py:153-206 | after any imports of an archive cut off anywhere, preflight accepts the destination as it did at first, and a run has no header and no committed day, or a header that counts exactly its committed days and at most one pending day |
| ImportConvergence.Convergence | src/procurement/transfer/importer.py:273-371 | any number of cut-off imports and one complete import end where one complete import ends |
| ImportConvergence.RerunWritesNothing | src/procurement/transfer/importer.py:209-238 | an import after a complete one writes nothing |
| ImportConvergence.AtomicVisibility | src/procurement/transfer/importer.py:326-361 | at every point a reader sees a bundle day only with all its files and pages, as in the archive, and with rows that have its lineage, hashes and number |
| ImportConvergence.RefusedUntouched | src/procurement/transfer/importer.py:110-150 | a destination that preflight refuses is never written to |
| ImportConvergence.ImportedAlone | src/procurement/transfer/importer.py:257-270 | after a complete import the planned days are committed by their own runs alone, so the final check passes |
| ImportConvergence.ImportedHeaders | src/procurement/transfer/importer.py:190-206 | after any cut-off imports and a complete one the destination holds of each imported run exactly the imported days, and the header stored for it counts them, spans them and ends with them as above |
| ImportConvergence.PreflightExactly | src/procurement/transfer/importer.py:110-187 | preflight refuses, and nothing is written, if and only if a day without a commit is being worked on, has a foreign file or a differing object, or has a run with unfinished days, days that cannot be summed up, or a header that does not count its days or these and one pending day |
| ImportProgress.ImportCompletes | src/procurement/transfer/importer.py:326-371 | after any cut-off imports, one with enough writes left completes |
| Importer.Destination.PutMissing | src/procurement/transfer/importer.py:209-238 | an object is written only when absent, and a different one stops the import |
| Importer.Destination.Preflight | src/procurement/transfer/importer.py:110-187 | the planned days and the verdict are the specified ones, and the runs kept in memory match the destination |
| Importer.Destination.PutRun | src/procurement/transfer/importer.py:190-206 | the summary written from the state kept in memory is the one of the destination's days and the next |
| Importer.Destination.ImportBundle | src/procurement/transfer/importer.py:273-371 | the loops write exactly what the specification writes, cut off or not; success is reported only when not cut off and the effective attempt of every planned day is the bundle's; the header of every imported run is then right about the days that came in |
| Export.SourcePlan | src/procurement/transfer/export.py:52-101 | the plan holds the effective day of every date that has one, consistent and with its files, and lists the other dates; there is none only if some effective day cannot be exported or no day is committed |
| Export.IndexAccepted | src/procurement/transfer/export.py:154-180 | the index of every export passes `_validate_index` |
| Export.ExportBundle | src/procurement/transfer/export.py:121-199 | an archive is published only when it holds exactly its days' objects and passes validation; without equal start times it is published if and only if something is committed and every effective day is consistent, has its files, and their rows have its lineage, hashes and number |
| Export.VerifiedIsSound | src/procurement/storage/committed.py:82-88 | the row check of an exported entry is the check of all files the store holds for the day, in any order |
| RoundTrip.ExportThenImport | src/procurement/transfer/export.py:121-199 | importing an export into an empty store gives every exported date its effective run and record count, and no attempt anywhere else |
| Coverage.ReadCoverage | src/procurement/ingestion/coverage.py:30-67 | for every date: the attempts of finished and running runs, the effective and latest ones, and the active runs, as a scan of the store defines them |
| Coverage.StatusMeaning | src/procurement/ingestion/coverage.py:15-27 | success, running and failed told from the store alone, both directions |
| CoverageGuard.Guard.Read | src/procurement/quality/coverage.py:22-46 | with immutable terminal headers the cached guard finds what a fresh scan finds, and returns exactly when every run has a header |
| CoverageGuard.CoversAgree | src/procurement/ingestion/coverage.py:30-67 | two scans of a store agree on effective, latest and active runs when start times are distinct |
| Control.EffectiveMeaning | src/procurement/common/attempts.py:6-9 | the effective attempt is a latest-started success, whatever the order, and none only if there is none |
| Rewrite.RewriteTable | src/procurement/compaction/executor.py:93-157 | a table is rewritten if and only if schema and lineage are right; the outputs concatenate to the relabelled inputs in order across rotations, in as many files as the target size calls for |
| Rewrite.VerifyMultiset | src/procurement/compaction/verification.py:36-67 | the check passes if and only if the multisets of visible rows are equal |
| Rewrite.RewritePasses | src/procurement/compaction/verification.py:36-67 | a rewrite always passes that check |
| Rewrite.RewriteKeepsRows | src/procurement/compaction/executor.py:93-157 | a rewrite keeps the rows one for one and in order, with every column that any of the files has, of its kind and nullable when it is in one of them, every cell but `run_id` |
| Compaction.IterCommitted | src/procurement/storage/committed.py:53-79 | a reader gets exactly the stored records, if and only if lineage, hashes and count are right |
| Compaction.CompactDay | src/procurement/compaction/executor.py:335-395 | a day is refused exactly when a table cannot be rewritten or the count is off; else it is rewritten if and only if the files that the target size calls for are fewer, and otherwise declined |
| Compaction.SmallFiles | src/procurement/compaction/executor.py:93-157 | when every table fits in one file the day becomes as many files as it has tables |
| Compaction.ReaderSeesSameRows | src/procurement/storage/committed.py:53-79 | per table a reader finds the same multiset of rows, absent columns null and only `run_id` replaced |
| Compaction.ReaderAccepts | src/procurement/storage/committed.py:53-88 | the reader's checks pass on the new files, however they are listed |
| Compaction.SameRowsOrderFree | src/procurement/storage/committed.py:53-79 | nor does it matter in what order the old files are listed |
| CompactedDay.AssertBaseline | src/procurement/compaction/executor.py:160-186 | it passes only when the baseline is effective, nobody else is at work on the day, and its header, pages, files and quality evidence are the planned ones; with distinct start times and headers for all runs, whenever that holds |
| CompactedDay.CompactedIsValid | src/procurement/compaction/executor.py:423-446 | the day and page manifests written for the candidate pass `validate_day_metadata` |
| CompactedDay.UploadedListed | src/procurement/compaction/executor.py:397-405 | the uploaded objects, under the numbered names of their tables, are the output files, none overwriting another |
| CompactedDay.FaithfulFrom | src/procurement/compaction/executor.py:335-395 | when the output files compact the planned ones, a reader accepts them and finds per table the planned rows, however both are listed |
| CompactedDay.AssertedIsVouched | src/procurement/compaction/executor.py:278-281 | a candidate whose baseline was just asserted and whose clock is past it has no rival among the committed attempts of the day |
| CompactedDay.VouchedIsKept | src/procurement/common/attempts.py:6-9 | with its marker stored it is the only attempt readers may choose, its files show the rows of the planned ones, and its quality evidence is a copy of theirs |
| CompactedDay.VouchedStays | src/procurement/compaction/executor.py:450-455 | that survives every later write but one to the files of the two attempts, the candidate's pages or evidence, another commit of the day, or a header that brings one in |
| CommitBooks.BarrierMeaning | src/procurement/compaction/executor.py:452-507 | a commit that is last in what was sent means one committed candidate and no failure after it |
| CommitBooks.BooksArrive | src/procurement/compaction/executor.py:458-502 | a write that lands late, of any candidate, undoes nothing: the commit stays vouched for, and stored if it was |
| CommitBooks.FoundIsCommit | src/procurement/compaction/executor.py:258-260 | a stored SUCCESS marker of a candidate is the commit that was sent |
| CommitBarrier.Compactor.VerifyReceipt | src/procurement/compaction/executor.py:189-218 | it passes only when the stored files are the receipt's by digest and a reader accepts them, and whenever a reader accepts them in every order |
| CommitBarrier.Compactor.Prepare | src/procurement/compaction/executor.py:397-453 | uploads, evidence copies, checks, pages, metadata and the second assertion end in a checkpoint behind which everything of the candidate is in place and vouched for, or in an error |
| CommitBarrier.Compactor.CommitDay | src/procurement/storage/control.py:31-50 | the day is reported committed only with the sent SUCCESS marker stored, acknowledged or read back, behind a checkpoint that holds the candidate |
| CommitBarrier.Compactor.GiveUp | src/procurement/compaction/executor.py:458-503 | a candidate that failed is sent no commit and is recorded as failed, when the store acknowledges its writes, or else as failed or uncertain |
| CommitBarrier.Compactor.Resume | src/procurement/compaction/executor.py:254-277 | a checkpoint of another plan is refused; a stored commit is verified and closed, and reported when every operation is acknowledged; without one, a candidate that was given up allows a new one, one declined before is declined again, and any other is uncertain and never allows another |
| CommitBarrier.Compactor.ApplyDay | src/procurement/compaction/executor.py:241-507 | a reported day is stored, vouched for and the checkpoint's; a commit is never touched again; when nothing stands in the way and every operation is acknowledged the day is committed, or declined when that would save no files, at first and again after a candidate that was given up; a commit that landed is reported by the next run; an uncertain candidate is never followed by another |
| CommitBarrier.Story | src/procurement/compaction/executor.py:241-507 | over any crashes, failed or late writes, writes of others and retries at most one candidate is sent a SUCCESS, nothing is sent after it and no run is sent both verdicts; every reported day stays stored as SUCCESS to the end, under a run header closed as one successful date, is the one readers choose, and shows the planned rows and evidence |
| CommittedReader.ReadCommitted | src/procurement/storage/committed.py:23-79 | every date is read from the files of an effective attempt, complete, with lineage and hashes checked, or some date cannot be read |
| CommittedReader.RecordsByTable | src/procurement/storage/committed.py:53-79 | the records of a table are the rows of its files, in order |
| CommittedReader.WindowsAgree | src/procurement/ingestion/coverage.py:35-48 | readers of a longer window see the same attempts of a day when no marker lies outside its run's range |
| CommittedReader.CompactedDayReads | src/procurement/storage/committed.py:23-79 | a compacted day can be read in every such window, from the compacted run alone, and gives per table the planned rows with absent columns null and only `run_id` replaced |
| CommittedReader.StoryThenRead | src/procurement/compaction/executor.py:241-507 | whoever reads the day after any story that reported it committed takes the reported run and gets those rows |
| OpsIndex.UpsertedAt | src/procurement/ops/index.py:131-142 | a row that was downloaded has the fingerprint and payload downloaded, and the status the payload states |
| OpsIndex.Index.Apply | src/procurement/ops/index.py:127-156 | rows, error rows and counters change together: the upserts less the deletions, error rows mirroring the payloads |
| IndexSync.Choose | src/procurement/ops/sync.py:116-120 | exactly the objects that are new, changed, running, without fingerprint, or reconciled are read |
| IndexSync.UnchangedIsCurrent | src/procurement/ops/sync.py:116-120 | a row that is not read again is current, because its payload is not older than its fingerprint |
| IndexSync.IndexSynchronizer.ConfirmGone | src/procurement/ops/sync.py:121-122 | a row is dropped only for an object found absent during the sync |
| IndexSync.IndexSynchronizer.SyncOnce | src/procurement/ops/sync.py:101-133 | in every reachable state no payload is older than its fingerprint, and a row has the status its payload states; a sync that fails or stops changes no row; a finished one met no failed operation and no request to stop, read what its listing called for, kept the other listed rows and dropped only objects found absent, so every object is up to date, whatever others wrote meanwhile, when it reads everything or a fingerprint stands for one write; it finishes whenever others only overwrite; the times of the last success, scan and failure say so |
| IndexSync.IndexSynchronizer.RunOnce | src/procurement/ops/sync.py:211-220 | over quiet, readable storage one sync succeeds, and leaves what a rebuild gives if and only if every row it does not read anew shows storage; what is new, changed, running or without a fingerprint always does |
| IndexSync.IndexSynchronizer.FollowEvents | src/procurement/ops/sync.py:141-167 | what new events name is read or found gone, nothing else changes, and events of a failed sync stay pending; it finishes only if no operation fails and the events name objects the index keeps, and then whenever others only overwrite |
| IndexSync.IndexSynchronizer.SyncEvents | src/procurement/ops/sync.py:135-167 | a due full scan, which forgets the events, or the new events; failures keep the last snapshot and the events; it finishes whenever others only overwrite and the events name objects the index keeps |
| IndexSync.QuietSyncIsRebuild | src/procurement/ops/sync.py:101-133 | over quiet storage with complete listings the index is what a rebuild gives, when everything is read or a fingerprint stands for one write |
| IndexSync.QuietSyncExactly | src/procurement/ops/sync.py:101-133 | in general it is what a rebuild gives exactly when every known row that nothing calls to read shows storage, and such rows stay as they were |
| IndexSync.IncrementalIsRebuild | src/procurement/ops/sync.py:101-133 | over the same quiet storage an incremental sync and a rebuild leave the same rows if and only if every row the incremental sync does not read anew shows storage |
| IndexSync.OneWriteShows | src/procurement/ops/sync.py:116-120 | with one write to a fingerprint every such row does |
| IndexSync.StaleForEver | src/procurement/ops/sync.py:65-71 | for any two contents with different fingerprints: a sync that meets the change between listing and reading leaves a stale row that no number of incremental syncs over the quiet storage, its first content restored, ever reads again |
| IndexSync.SomeSwitch | src/procurement/ops/sync.py:65-71 | there are such contents for every tracked manifest |
| CooldownSweep.Metrics.CooldownSeconds | src/procurement/benchmark/metrics.py:62-68 | the sweep computes the measure of the union of all cooldowns clipped to the phase, which ends when it was recorded to, or now |
| CooldownSweep.MeasureUnique | src/procurement/benchmark/metrics.py:62-68 | that measure does not depend on how the union is cut into pieces |

## Left out

- HTTP clients, source adapters, DLT, S3, DuckDB, SQLAlchemy, SQLite and Dagster: library behaviour behind the scripts and atomic steps.
- `attempt_pages`, `attempt_errors`, `config`, `verification`, `dagster_run_id` and `data_version` columns of the metadata tables: written and read back without effect on the protocol.
- Deadlock freedom of the metadata service: `begin_or_reuse` and `publish_commit` lock in different orders; only the result of a transaction is modelled.
- `DltBronzeWriter`: the inner writer is any sequence of accepted counts and exceptions; interruptions inside a `BufferedBronzeWriter` call are not modelled.
- Parquet encoding, content hashes and `sink.tell()`: a row says whether its payload matches its hash, file sizes are arbitrary.
- The `dry_run`, progress, report and byte-count outputs of import and export, and changes of the source store during an export.
- Thread pools: parallel maps are done one after the other; only the storage they read may change between two of them.
- Provenance files, execution heartbeats and the copies of earlier receipts in the compaction: writing them may fail like anything else, what they hold is not modelled.
- Size and modification time in an object's signature: the plan's inventories of files and quality evidence are compared as whole objects.
- The quality validators, the compaction planner, watch scheduling, settings and date parsing: not modelled.
- Coverage.ReadCoverage: ties of equal start times are characterized as some latest attempt, because the listing order decides them in the code.
- CooldownSweep.Metrics.CooldownSeconds: the rounding of the figure to milliseconds is not modelled.
- DailyRunner.Runner.Run: a write that failed may have landed at once, but not after later writes of the same attempt.
- CommitBarrier.Story: others write, and late writes land, between two runs of the worker, not during one; others write neither the baseline's files, nor a commit of the day, nor a header that brings one in, which is the part of the execution lock; the clock of a run that closes a candidate may say anything.
- CommitBarrier.Compactor.ApplyDay: it asks that the guard it is given has seen no terminal header change since; a story gives every run a new guard, where `run_plan` shares one between the days of a plan.
- ImportConvergence.CrashSafeResume: the destination holds none of the bundle's runs before the first import; a destination that holds foreign copies of them is covered by `RefusedUntouched` and the preflight verdict.
