# Storage engine of the WAS teaching server, modelled in Dafny

The server stores Resources in Collections in Spaces, behind conditional HTTP writes, on one of two backends:
Postgres rows or a directory of files. This project models the code that makes those writes atomic, and proves
what the code's own comments promise about every interleaving, every crash and every history.

- **Concurrency control.** `PostgresTransactions` is the write paths of the Postgres backend as interleaved steps
  under READ COMMITTED: each statement sees the latest commit, row and advisory locks are held to the end of the
  transaction, a locking select of an absent row locks nothing, and any transaction may be rolled back anywhere.
  `PostgresAccounting` and `PostgresHistory` prove the usage counter, the capacity, chunk parentage and
  compare-and-swap of content, metadata and chunks over all runs, and that the commits are serial; `PostgresProgress`
  that every admitted operation has a run that commits it. `KeyedMutex` and `LockNesting` are the filesystem backend's promise-queue locks.
  `FileSystemSections` is each section under a Resource's lock as its single file writes and removals, and
  `FileSystemRuns` interleaves any number of them under the mutex and proves them serial; `ChunkDirectories` proves
  when an empty chunk directory is there. `UniquenessSteps` and `UniquenessRuns` interleave writes with the uniqueness
  scan file by file, `PostgresUniqueness` statement by statement, both for any notion of claim that content and
  metadata add up to (`UniqueClaims`); `UniquenessProgress` shows that a write without a conflict gets through.
- **One machine, two backends.** `CollectionStore` is a Collection of live Resources and tombstones with chunks.
  `StoreLaws` says what clients read after each operation and when it is admitted; `StoreFeed` lets a follower pull
  the change feed while the Collection works.
  `PostgresStore` (a class over rows) and `FileSystemStore` (a class over files, sidecars and chunk directories) are
  proved against it operation by operation, and `Lockstep` runs both and compares every answer and read.
  `RepresentationOverwrite` is what a reader may find while a file is being replaced.
- **Evaluators and feeds.** `EqualityIndex`, `BlindedIndex`, `Pagination` and `ChangeFeed`.
- **Files and archives.** `AtomicFile` is the write-sync-rename protocol with crashes. `ImportPlan` is the pre-flight
  and the merge of an archive that both backends share: which ids, descriptions and policies come in, and which quota
  refuses; `ImportReport` is what both report. `PostgresImport` and `FileSystemImport` carry it out and are proved against it. `PostgresSpaces` is one
  Postgres Space whose rows (`PostgresRows`) take writes, deletes, Collection deletes, policy writes and imports in
  any order. `ExportArchive` packs an archive with its manifest.
- **Encryption.** `Encryption` is the descriptor rails over whole histories; `KmsReencrypt` is the offline pass over
  stored key records, with ciphertexts symbolic.
- `Preconditions`, `JsonValues`, `Sizes` and `Wrappers` are shared. Conditional requests follow sections 13.1.1 and
  13.1.2 of RFC 9110 with the strong comparison of its section 8.8.3.2.

Code that updates objects in place is a class or a method with loops. Protocols whose claims range over
interleavings or crashes (Postgres transactions, lock schedules, the uniqueness scan, the file protocol, the
overwrite) are state machines, because a single method run cannot express them. The clock is an input.

## What turned out differently from the comments

- **Chunk ETags can be reused.** Deleting a chunk leaves no tombstone on either backend, so versions restart and a
  stale `If-Match` can be accepted: for every chunk there is such a run (`CollectionStore.ChunkEtagsAreReused`). A
  version has counted every write, and so identifies the bytes, exactly when no step of the run took the chunk away
  (`CollectionStore.ChunkVersionsIdentifyBytesIffNeverRemoved`).
- **A returned file write is durable exactly where directories can be synced.** The directory sync swallows the
  errors of platforms that cannot do it (`AtomicFile.ReturnedIsDurableIff`). Where it fails for real, the call
  throws with the new file already in place, so a failed call, and a failed key record, may be converted after all
  (`KmsReencrypt.FailedIsUntouchedIff`).
- **The change feed misses commits at or below the checkpoint**, such as one stamped in the same millisecond as the
  last delivered row, and a JSON Resource overwritten by a binary one drops out of it
  (`ChangeFeed.CommitReachesFollowerIff` gives the exact condition for a commit to arrive, `ChangeFeed.LostCommits`
  a history with one lost commit of each kind).
- **A blinded query term joins name and value with a colon**, so an element of a query is decided exactly when no name
  and no value in it holds one (`BlindedIndex.JoinedMatchExactIffColonFree`).
- **A key record under the current key id is not opened**, so a damaged one counts as current
  (`KmsReencrypt.NonFailedOpensIff`, and `KmsReencrypt.DamagedCurrentRecordIsNotNoticed` for the record).
- **Importing twice is idempotent but the second import may be refused.** Both capacity checks count bodies that will
  be skipped. After a finished import the same archive is refused, and then for the capacity, exactly when its bytes
  do not fit beside what is stored by then (`PostgresSpaces.ImportTwice`,
  `FileSystemImport.FileSystemSpace.ImportTwice`); `PostgresSpaces.SecondImportIsRefused` is one that fits and is
  refused at once when repeated.
- **"Nothing held changes" has two exceptions.** A held policy is replaced exactly when what it is for is missing and
  the archive carries another with it (`ImportPlan.HeldPolicyChangesIff` on both backends; `PolicyRequest` stores
  policies without looking for their target, and `PostgresSpaces.OrphanPolicyIsReplaced` is the history). On the
  filesystem a held chunk gains a second representation exactly when its Resource is live and the archive has the
  chunk under a media type that is not there (`FileSystemImport.SecondRepresentationIff`,
  `FileSystemImport.ChunkGetsTwoRepresentations`), where Postgres skips it.
- **An empty chunk directory can be left behind.** A chunk delete removes the directory with its last chunk so that
  none lingers, but a chunk write makes it before the body is capped, counted and digested. While nothing edits the
  Resource an empty one is there exactly when the last thing to decide it was the refusal of a chunk while the
  Resource had none (`ChunkDirectories.EmptyChunkDirIff`): a refused chunk leaves one exactly when there is no chunk
  (`ChunkDirectories.RefusalLeavesEmptyIff`), a section that is not refused exactly when it found one and left the
  chunks alone (`ChunkDirectories.FinishedSectionLeavesEmptyIff`). `ChunkDirectories.RefusedFirstChunk` and
  `ChunkDirectories.EmptyDirectoryIsLeft` are the runs that leave one.

## Model

| member | source | states |
|---|---|---|
| Preconditions.FormatEtagInjective | src/lib/etag.ts:15-17 | equal ETags are equal versions, both ways |
| Preconditions.FormatEtagQuotesDecimal | src/lib/etag.ts:15-17 | an ETag is the version in decimal, without leading zeros, between double quotes |
| Preconditions.IfMatchPinsVersion | src/lib/preconditions.ts:31-65 | a write guarded by the ETag of a version is admitted exactly while a live item is at that version |
| Preconditions.WriteAllowedIff | src/lib/preconditions.ts:31-65 | create-if-absent asks for nothing there, an ETag for a live item with exactly that ETag, neither for nothing |
| Preconditions.MetaWriteAllowedIff | src/lib/preconditions.ts:187-210 | a metadata write with an ETag is admitted exactly at the metadata version it names, 0 before the first write; create-if-absent exactly before the first |
| PostgresAccounting.StepKeepsInv | src/backends/postgres.ts:504-603 | every step of every transaction keeps the locking and accounting invariant, relying on the create lock |
| PostgresAccounting.ClampNeverFires | src/backends/postgres.ts:512-521 | no reachable charge would take the counter below zero |
| PostgresHistory.AccountingHolds | src/backends/postgres.ts:1627-1772 | from any stored rows that are counted, in every committed state of every interleaving the counter equals live Resource bytes plus chunk bytes, stays within the capacity, and each chunk has a live parent |
| PostgresHistory.ChargeIsExact | src/backends/postgres.ts:504-529 | whenever a transaction charges the counter, the new value is the plain sum of the old one and its delta |
| PostgresHistory.PlainInsertNeverConflicts | src/backends/postgres.ts:1720-1737 | an upsert that located no row under the create lock still finds none when its INSERT is due |
| PostgresHistory.WithoutCreateLockUsageDrifts | src/backends/postgres.ts:531-565 | a run of two creators without the create lock leaves the counter above what is stored |
| PostgresHistory.VersionsStrictlyIncrease | src/backends/postgres.ts:1689-1782 | the content version of an id strictly increases at each committed content write or delete, across tombstones |
| PostgresHistory.IfMatchCommitsAtMostOnce | src/backends/postgres.ts:1659-1668 | of all writes guarded by one ETag at most one commits, over any run |
| PostgresHistory.CreateIfAbsentCommitsOnce | src/backends/postgres.ts:1704-1737 | two create-if-absent writes both commit only with a delete between them |
| PostgresHistory.EqualEtagsMeanEqualBytes | src/backends/postgres.ts:1738-1772 | two states of a run showing the same ETag for a live Resource show the same bytes |
| PostgresHistory.OnlyContentOperationsMoveVersions | src/backends/postgres.ts:2055-2079 | a step that commits no content write or delete of an id leaves that id's version and bytes alone, whatever it commits of others or of its metadata and chunks |
| PostgresHistory.CommitsAreSerial | src/backends/postgres.ts:1549-1782 | in every state of every interleaving the rows are those the committed operations leave one after the other, each admitted on and computed from what those before it left |
| PostgresHistory.MetaGuardCommitsOnce | src/backends/postgres.ts:1976-2080 | of two committed metadata writes of a Resource under one ETag, or both under create-if-absent, a committed delete lies between |
| PostgresHistory.ChunkWriteCommits | src/backends/postgres.ts:2104-2230 | each committed chunk write was admitted beside a live Resource, raised the version by one and stored its own bytes |
| PostgresHistory.ChunkGuardCommitsOnce | src/backends/postgres.ts:2160-2230 | of two committed writes of a chunk under one ETag, or both under create-if-absent, a commit that removed the chunk lies between |
| PostgresProgress.AdmittedOperationCommits | src/backends/postgres.ts:1549-2375 | from any rows at rest, every operation that is admitted there and fits the capacity has a run in which it commits |
| KeyedMutexModel.SectionsRunInCallOrder | src/lib/keyedMutex.ts:18-45 | on one key a section starts only after every earlier call has settled: exclusion and call order, over all schedules |
| KeyedMutexModel.ReclaimedOnlyWhenSettled | src/lib/keyedMutex.ts:34-44 | a key is missing from the map only when everything ever queued on it has settled |
| KeyedMutexModel.MapDrains | src/lib/keyedMutex.ts:34-44 | once every call has finished the map is empty |
| KeyedMutexModel.NeverStuck | src/lib/keyedMutex.ts:28-33 | an unfinished call always leaves some step enabled |
| KeyedMutexModel.RejectionBlocksNothing | src/lib/keyedMutex.ts:28-33 | a section that rejects enables exactly what one that resolves does |
| KeyedMutexModel.KeyedMutex.Enqueue | src/lib/keyedMutex.ts:24-33 | the map update of a call, as the step of the machine |
| KeyedMutexModel.KeyedMutex.SwallowRejection | src/lib/keyedMutex.ts:30-33 | the tail settles however the section ended, as the step of the machine |
| KeyedMutexModel.KeyedMutex.Reclaim | src/lib/keyedMutex.ts:38-44 | the conditional map delete, as the step of the machine |
| LockNesting.KeysAreInjective | src/backends/filesystem.ts:2521-2550 | distinct locks have distinct keys across the resource, unique, description, metadata and keystore namespaces, for slash-free ids |
| LockNesting.KeyTexts | src/backends/filesystem.ts:2521-2550 | the text of each key |
| LockNesting.NoDeadlock | src/backends/filesystem.ts:2113-2124 | in every reachable state with an unfinished operation some step is enabled, the Collection lock being the outer one |
| LockNesting.EveryPathIsBounded | src/backends/filesystem.ts:2951-2986 | without new arrivals no run is longer than an explicit measure, so every operation finishes |
| LockNesting.SameKeyNestingIsStuck | src/backends/filesystem.ts:2113-2124 | nesting a key inside itself would deadlock |
| EqualityIndex.ExtractEqualityAttributes | src/lib/equalityIndex.ts:460-493 | what is extracted under a name is exactly the indexable values of the member its declaration reads |
| EqualityIndex.CollectUniqueEqualityTerms | src/lib/equalityIndex.ts:620-650 | the terms are exactly the claims under the unique declarations |
| EqualityIndex.AssertNoUniqueEqualityConflict | src/lib/equalityIndex.ts:671-704 | a conflict is reported exactly when some candidate shares a claim |
| EqualityIndex.CheckDecidesInvariant | src/lib/equalityIndex.ts:671-704 | given uniqueness of the rest, the check passes exactly when adding the document keeps it |
| EqualityIndex.FindEqualityUniqueViolation | src/lib/equalityIndex.ts:720-750 | nothing is found exactly when no two Resources share a claim, and a pair found really shares the one named |
| EqualityIndex.ClaimsSplit | src/backends/filesystem.ts:2163-2176 | a Resource's claims are those of its content and of its metadata, read separately |
| EqualityIndex.ClaimsAreCarried | src/lib/equalityIndex.ts:460-493 | a Resource claims exactly the strings, numbers and booleans that a unique declaration reads under its name off its own source, alone or in a list |
| EqualityIndex.MemberClaims | src/lib/equalityIndex.ts:112-124 | the claims of an object member by its shape: a string, number or boolean claims itself, a list its strings, numbers and booleans, null and objects nothing |
| EqualityIndex.NothingToClaim | src/lib/equalityIndex.ts:472-478 | a source that is no plain object, or lacks the member, claims nothing |
| EqualityIndex.SameValueIsShared | src/lib/equalityIndex.ts:671-750 | two Resources with one value under a unique declaration share a claim |
| EqualityIndex.RepeatedValueIsRefused | src/lib/equalityIndex.ts:671-704 | so the write-time check refuses a value another Resource holds |
| EqualityIndex.RepeatedValueIsFound | src/lib/equalityIndex.ts:720-750 | and the scan finds a value held twice |
| BlindedIndex.CollectUniqueBlindedTerms | src/lib/blindedIndex.ts:338-375 | the terms are exactly the triples marked unique in the document |
| BlindedIndex.AssertNoUniqueBlindedConflict | src/lib/blindedIndex.ts:406-430 | a conflict is reported exactly when a candidate claims one of the triples |
| BlindedIndex.BlindedCheckDecidesInvariant | src/lib/blindedIndex.ts:406-430 | given uniqueness of the rest over full triples, the check passes exactly when adding the document keeps it |
| BlindedIndex.MatchesBlindedIndexQuery | src/lib/blindedIndex.ts:229-262 | a document matches exactly when the in-scope names or joined terms satisfy the query |
| BlindedIndex.TermsComeFromPairs | src/lib/blindedIndex.ts:178-215 | a collected term is exactly the joined form of some in-scope pair |
| BlindedIndex.JoinedMatchExactIffColonFree | src/lib/blindedIndex.ts:178-262 | matching the joined terms of an element means holding its pairs, for all documents, exactly when every name and value in it is colon-free |
| BlindedIndex.ClaimsTripleIff | src/lib/blindedIndex.ts:338-375 | a triple is claimed exactly by an attribute with `unique` true and that string name and value, in an entry of `indexed` under a key of that id |
| BlindedIndex.HasPairIff | src/lib/blindedIndex.ts:178-215 | a pair is held under a key exactly by an attribute in an entry of that key, and under none in particular by one of any |
| BlindedIndex.HasNameIff | src/lib/blindedIndex.ts:178-215 | and so is a name |
| UniquenessRuns.CheckIsSound | src/backends/filesystem.ts:2125-2182 | a check over files read one by one under the Collection lock is sound although deletes and writes free of claims go on |
| UniquenessRuns.StepKeepsInv | src/backends/filesystem.ts:2951-2986 | every step of checked writes, writes free of claims, deletes and prunes keeps the invariant |
| UniquenessRuns.NoSharedClaim | src/backends/filesystem.ts:2113-2182 | for any claims that content and metadata add up to: from any directory without a shared claim, in no reachable state do two live Resources share one |
| UniquenessRuns.NoSharedEqualityClaim | src/lib/equalityIndex.ts:671-704 | so no two live Resources hold the same unique name and value |
| UniquenessRuns.NoSharedBlindedClaim | src/backends/filesystem.ts:2125-2160 | and no two live documents hold the same unique blinded triple |
| UniquenessRuns.FinishedSectionIsCarriedOut | src/backends/filesystem.ts:2194-2303 | whatever runs beside it, a content write ends with its one file and content, a metadata write with its metadata, a delete with nothing |
| UniquenessProgress.SectionFinishes | src/backends/filesystem.ts:2125-2182 | from any directory at rest, a write that shares no claim, one free of claims and a delete each have a run that carries them out |
| PostgresUniqueness.OthersOnlyShrink | src/backends/postgres.ts:1575-1625 | while a claimant holds the advisory lock, whatever else commits leaves its own read and its scan good |
| PostgresUniqueness.NoSharedClaim | src/backends/postgres.ts:1575-1625 | for any claims that content and metadata add up to: from rows without a shared claim, under any interleaving of content writes, metadata writes and deletes, with rollbacks, no two committed live rows share one |
| PostgresUniqueness.NoSharedEqualityClaim | src/lib/equalityIndex.ts:671-704 | so no two committed live rows hold the same unique name and value |
| PostgresUniqueness.NoSharedBlindedClaim | src/lib/blindedIndex.ts:406-430 | and no two hold the same unique blinded triple |
| PostgresUniqueness.CommitCarriesOut | src/backends/postgres.ts:1738-1772 | a commit leaves what its operation wrote, the side it does not write as it stands then, and every other row alone |
| UniquenessProgress.RowWriteCommits | src/backends/postgres.ts:1575-1625 | a write that shares no claim with another row has a run that commits it |
| Pagination.SeekPage | src/lib/pagination.ts:72-100 | the page is the slice past the cursor, with a next cursor exactly when more follows |
| Pagination.SeekPageIsKeysetPage | src/backends/postgres.ts:1358-1433 | seek-and-slice equals the keyset query with one row of lookahead |
| Pagination.LessIff | src/lib/pagination.ts:27-41 | the order is that of the first differing code unit, a proper prefix coming first |
| Pagination.PageSizeIsExact | src/lib/pagination.ts:24-51 | an absent limit is 100, any other is brought within 1 and 1000 |
| Pagination.MatchesIff | src/lib/equalityIndex.ts:512-538 | a Resource matches `equals` when some non-empty element has each value carried under its name, and `has` when every name carries one |
| Pagination.RunEqualityQuery | src/lib/equalityIndex.ts:560-605 | the page is that of the sorted matches, and the count form is how many there are |
| Pagination.CursorResumesAfterPage | src/lib/equalityIndex.ts:589-605 | when more follows, the cursor handed out resumes the seek exactly where its page ends |
| Pagination.TraversalAscends | src/lib/equalityIndex.ts:589-605 | following cursors with any page sizes over a changing Collection returns strictly ascending ids, so none twice |
| Pagination.PresentThroughoutIsReturned | src/lib/equalityIndex.ts:589-605 | a match present in every snapshot is returned, whatever is added or deleted between pages, the anchor included |
| Pagination.ReturnedWasPresent | src/lib/equalityIndex.ts:589-605 | whatever a page returns was in the snapshot that page was read from, past the previous page's cursor |
| Pagination.StaticTraversalIsComplete | src/lib/equalityIndex.ts:560-605 | over an unchanging Collection a traversal is all matches in order within a bounded number of pages |
| ChangeFeed.PositionOrdersLikePair | src/backends/filesystem.ts:3623-3632 | with fixed-width instants the single-string position orders like the pair of instant and id |
| ChangeFeed.ChangesSince | src/backends/filesystem.ts:3620-3698 | sort, seek past the checkpoint, slice and read gives a page of the one feed there is |
| ChangeFeed.PageIsKeysetQuery | src/backends/postgres.ts:2455-2518 | that page equals the keyset query's |
| ChangeFeed.LaterIsAbove | src/backends/filesystem.ts:3623-3632 | a commit stamped later than every stored row lands above every checkpoint a follower can have reached |
| ChangeFeed.FollowerAgreesBelowCheckpoint | src/backends/filesystem.ts:3637-3696 | with strictly increasing stamps and stable JSON types a follower agrees with the primary on every Resource at or below its checkpoint, under arbitrary changes between pages, and its checkpoint is a stored row's |
| ChangeFeed.DrainedFollowerEqualsPrimary | src/backends/filesystem.ts:3637-3696 | a follower whose pull comes back empty equals the primary |
| ChangeFeed.PullsDrain | src/backends/filesystem.ts:3654-3656 | each non-empty pull strictly shrinks what is pending |
| ChangeFeed.CommitReachesFollowerIff | src/backends/postgres.ts:2455-2470 | a commit reaches the follower exactly when it is JSON and stamped past the checkpoint |
| ChangeFeed.LostCommits | src/backends/postgres.ts:2455-2470 | after a drained history, a JSON commit in the same millisecond under a smaller id, and one that overwrites JSON by another type, both leave the follower drained and wrong |
| StoreFeed.OperationIsCommit | src/backends/postgres.ts:1738-1772 | each effective content write, metadata write or delete of a Collection commits one row stamped with its own time, later than everything stored; everything else leaves the feed alone |
| StoreFeed.FollowerHasWhatIsStored | src/backends/filesystem.ts:3637-3696 | under any operations between any pulls a follower has every JSON Resource at or below its checkpoint as the Collection holds it |
| StoreFeed.DrainedFollowerHasTheFeed | src/backends/filesystem.ts:3637-3696 | a follower whose pull comes back empty has exactly the Collection's feed |
| StoreFeed.EffectIsPending | src/backends/filesystem.ts:3637-3696 | an operation that takes effect on a JSON Resource is pending for every follower |
| CollectionStore.OriginIsForever | src/backends/filesystem.ts:2272-2285 | creator (or its absence), creation time and a non-decreasing version survive every run, tombstones included |
| CollectionStore.SameVersionSameContent | src/backends/filesystem.ts:2267-2302 | over any run an unchanged version means unchanged bytes and media type |
| CollectionStore.RecreatedStartsClean | src/backends/filesystem.ts:3056-3086 | a Resource created over a tombstone has no chunks, no metadata and only its own epoch |
| CollectionStore.VersionsStrictlyIncrease | src/backends/filesystem.ts:2267-2302 | over any run the version strictly increases from one effective content write or delete of an id to the next, whatever comes between |
| CollectionStore.IfMatchTakesEffectOnce | src/lib/preconditions.ts:31-65 | of all content writes and deletes of an id that carry one ETag, at most one takes effect in any run |
| CollectionStore.SecondWriterIsRefused | src/lib/preconditions.ts:31-65 | once one of them has taken effect every later one is refused, whatever happened between |
| CollectionStore.CreateIfAbsentTakesEffectOnce | src/lib/preconditions.ts:31-65 | between two effective create-if-absent writes of an id lies an effective delete of it |
| CollectionStore.ChunkEtagsAreReused | src/backends/filesystem.ts:3343-3395 | any chunk, deleted and written as often as before, has its old ETag over any bytes, and a write with that ETag is accepted |
| CollectionStore.ChunkVersionCountsWrites | src/backends/filesystem.ts:3249-3262 | over any run a chunk's version is its first one plus the writes accepted since, and less if it was ever taken away |
| CollectionStore.ChunkVersionsIdentifyBytesIffNeverRemoved | src/backends/filesystem.ts:3249-3262 | a chunk present at both ends has counted every write exactly when no step took it away, and then an unchanged version means an unchanged chunk |
| CollectionStore.ChunkVersionsIdentifyBytesInRuns | src/backends/filesystem.ts:3249-3262 | after any run from numbered chunks the same holds, equal ETags then meaning equal chunks |
| CollectionStore.ListingIsUnique | src/backends/postgres.ts:2389-2420 | there is one listing of a Resource's chunks by index |
| StoreLaws.AnswerIsExact | src/lib/preconditions.ts:31-65 | every answer of every operation, exactly, and a refusal changes nothing |
| StoreLaws.ReadAfterPut | src/backends/filesystem.ts:2267-2302 | a content write is read back with its bytes, type, version, epoch and time; over a live Resource it keeps metadata, chunks and origin, over a tombstone the origin alone |
| StoreLaws.ReadAfterPutMeta | src/backends/filesystem.ts:2910-2950 | a metadata write replaces `custom` whole, moves the metadata version and the time, and touches no content and no chunk |
| StoreLaws.ReadAfterDelete | src/backends/filesystem.ts:3056-3086 | after a delete nothing is read, and what was live leaves a stamped tombstone of the next version |
| StoreLaws.ReadAfterPutChunk | src/backends/filesystem.ts:3232-3262 | a chunk write is read back, and the Resource, its metadata and other chunks are as before |
| StoreLaws.ReadAfterDeleteChunk | src/backends/filesystem.ts:3389-3411 | a deleted chunk is gone, and nothing else changes |
| StoreLaws.ReadsAreStored | src/backends/filesystem.ts:2806-2846 | what each read and the feed show of a Resource |
| StoreLaws.ListingShowsChunks | src/backends/postgres.ts:2389-2420 | a listing shows each chunk that can be read, by ascending index |
| StoreLaws.MetaWriteTakesEffectIff | src/backends/filesystem.ts:2904-2909 | a conditional metadata write of a live Resource takes effect exactly at the version it names, a create-if-absent exactly before the first |
| StoreLaws.MetaGuardTakesEffectOnce | src/lib/preconditions.ts:187-210 | over any run, of two metadata writes that took effect under one ETag, or both under create-if-absent, an effective delete lies between |
| StoreLaws.ChunkGuardTakesEffectOnce | src/backends/filesystem.ts:3219-3230 | and of two accepted writes of a chunk, a step that took the chunk away |
| PostgresStore.PostgresStore.WriteResource | src/backends/postgres.ts:1549-1782 | the row transaction is the abstract content write, or is refused exactly when the growth overflows the capacity; the counter stays what is stored |
| PostgresStore.PostgresStore.WriteResourceMetadata | src/backends/postgres.ts:1976-2080 | the row update is the abstract metadata write |
| PostgresStore.PostgresStore.DeleteResource | src/backends/postgres.ts:1833-1904 | row and chunk rows become the abstract tombstone, their bytes returned |
| PostgresStore.PostgresStore.WriteChunk | src/backends/postgres.ts:2104-2230 | the chunk upsert is the abstract chunk write, or is refused exactly on overflow |
| PostgresStore.PostgresStore.DeleteChunk | src/backends/postgres.ts:2331-2375 | the chunk delete is the abstract one |
| PostgresStore.PostgresStore.DeleteCollection | src/backends/postgres.ts:1297-1331 | dropping a Collection returns exactly its own bytes |
| FileSystemStore.ReplaceRepresentation | src/backends/filesystem.ts:2442-2463 | write-then-prune from a listing leaves the new file and everything unlisted |
| FileSystemStore.FileSystemStore.WriteResource | src/backends/filesystem.ts:2194-2303 | files and sidecar follow the abstract content write, with one representation per Resource |
| FileSystemStore.FileSystemStore.WriteResourceMetadata | src/backends/filesystem.ts:2894-2950 | the sidecar rewrite is the abstract metadata write |
| FileSystemStore.FileSystemStore.DeleteResource | src/backends/filesystem.ts:3027-3087 | files and chunk directory go and the sidecar becomes the abstract tombstone |
| FileSystemStore.FileSystemStore.WriteChunk | src/backends/filesystem.ts:3186-3263 | the chunk directory follows the abstract chunk write |
| FileSystemStore.FileSystemStore.DeleteChunk | src/backends/filesystem.ts:3353-3413 | the chunk goes, and the directory with the last one |
| FileSystemStore.DescriptorsAreFeed | src/backends/filesystem.ts:3505-3619 | descriptors built from files and tombstone sidecars are exactly the JSON Resources and tombstones |
| FileSystemSections.PlanIsOperation | src/backends/filesystem.ts:3027-3087 | the file writes and removals of a section, in their order, lead from files that stand for a Resource to files that stand for it after the operation, with the operation's answer |
| FileSystemRuns.SectionsTakeEffectInLogOrder | src/backends/filesystem.ts:3160-3180 | from any files, under any schedule of the mutex, with refused bodies and removals in any order, finished sections have the answers of their operations one at a time in the order they finish, which is call order per Resource, and every Resource at rest has the files of that replay |
| FileSystemRuns.OrphansOnlyDuringDelete | src/backends/filesystem.ts:3056-3064 | chunk files without a representation exist only while a delete of their Resource is at work, so at no point where its lock is released |
| FileSystemRuns.NeverAbsent | src/backends/filesystem.ts:2422-2428 | under any schedule a live Resource that no delete is editing has a representation file at every moment |
| FileSystemRuns.IfMatchSucceedsOnce | src/backends/filesystem.ts:2099-2112 | under any interleaving one ETag admits at most one content write or delete of a Resource |
| FileSystemRuns.AnsweredVersionsIncrease | src/backends/filesystem.ts:2267-2302 | the versions answered to a Resource's content writes strictly increase in call order |
| FileSystemRuns.CreateIfAbsentSucceedsOnce | src/backends/filesystem.ts:2099-2112 | two creations by create-if-absent have an answered delete between them |
| FileSystemRuns.MetaGuardSucceedsOnce | src/backends/filesystem.ts:2904-2909 | under any schedule, of two metadata writes answered under one ETag, or both under create-if-absent, an answered delete lies between |
| FileSystemRuns.ChunkGuardSucceedsOnce | src/backends/filesystem.ts:3219-3230 | and of two answered writes of a chunk, an answered delete of the chunk or of its Resource |
| FileSystemRuns.NeverStuck | src/lib/keyedMutex.ts:28-33 | a call that has not finished always leaves some section or promise reaction its next step |
| ChunkDirectories.EmptyChunkDirIff | src/backends/filesystem.ts:3398-3410 | under any schedule, while nothing edits a Resource its chunk directory is there and empty exactly when a refused chunk last left it so, or it was so from the start |
| ChunkDirectories.RefusalLeavesEmptyIff | src/backends/filesystem.ts:3232-3235 | a refused chunk leaves an empty directory exactly when its Resource has no chunk; any other refused body leaves every file as it was |
| ChunkDirectories.FinishedSectionLeavesEmptyIff | src/backends/filesystem.ts:3389-3411 | a section that is not refused leaves an empty directory exactly when it found one and its operation left the chunks alone |
| ChunkDirectories.RefusedFirstChunk | src/backends/filesystem.ts:3232-3235 | wherever a Resource has no chunk there is a run whose refused chunk leaves the directory |
| ChunkDirectories.EmptyDirectoryIsLeft | src/backends/filesystem.ts:3232-3235 | such a run over a Collection of one file |
| Lockstep.RunBoth | src/backends/postgres.ts:1687-1782 | any operation sequence gets the same answers from both backends and leaves both standing for the same Collection |
| Lockstep.ReadBoth | src/backends/filesystem.ts:2806-2846 | backends in such states agree on content, metadata, chunks, chunk listings and change-feed pages |
| Lockstep.FeedIsStamped | src/backends/filesystem.ts:3623-3632 | runs with instants of fixed width have stamped feeds |
| RepresentationOverwrite.NeverAbsent | src/backends/filesystem.ts:2422-2428 | once present a Resource always has a representation, through failed, interrupted and complete overwrites |
| RepresentationOverwrite.CompletionLeavesExactlyTheNew | src/backends/filesystem.ts:2256-2265 | a completed overwrite leaves exactly the new representation, whatever was there |
| RepresentationOverwrite.UnwrittenChangesNothing | src/backends/filesystem.ts:2397-2419 | a failed byte write leaves every file as it was |
| RepresentationOverwrite.ReadersSeeWholeWrites | src/backends/filesystem.ts:2391-2396 | every representation found is whole, from the start or from one overwrite |
| RepresentationOverwrite.OverwriteCompletes | src/backends/filesystem.ts:2442-2463 | whatever was left before, an overwrite that meets no error can end with its own bytes alone |
| AtomicFile.CrashLeavesOldOrNew | src/lib/atomicFile.ts:86-116 | a crash at any step, or a read, finds a target wholly as it was or wholly as one publishing call wrote it |
| AtomicFile.ReturnedCallSurvives | src/lib/atomicFile.ts:115-116 | where directories sync, a returned call's data survives any crash until a later publication |
| AtomicFile.WithoutDirectorySyncTheOriginalMayReturn | src/lib/atomicFile.ts:40-61 | where they do not, the original may come back after any number of returned calls |
| AtomicFile.ReturnedIsDurableIff | src/lib/atomicFile.ts:40-61 | a returned change is sure to survive exactly where directories can be synced |
| AtomicFile.AtMostOneCreateWins | src/lib/atomicFile.ts:130-149 | at most one create publishes to a path, and none where it existed, whoever else writes there |
| AtomicFile.CreateLeavesExistingAlone | src/lib/atomicFile.ts:118-129 | creates never alter an existing target, running or after a crash |
| AtomicFile.ExactlyOneCreateWins | src/lib/atomicFile.ts:130-149 | of creates racing on an absent path exactly one wins and its data is in place |
| AtomicFile.UnpublishedCallsLeaveNoTrace | src/lib/atomicFile.ts:108-113 | a call that threw before publishing or was refused leaves nothing under any target |
| AtomicFile.LoneCallReturns | src/lib/atomicFile.ts:86-149 | met by no error, a write, a commit and a create of an absent path each can return with their data in place |
| Encryption.ValidateEpochs | src/lib/encryption.ts:193-297 | a descriptor passes exactly when well formed, and a rejection names its first fault |
| Encryption.WellFormedIsValid | src/lib/encryption.ts:193-297 | what passes has as many ids as epochs and lists its current one |
| Encryption.RecipientOkIff | src/lib/encryption.ts:258-280 | a recipient is in order exactly with a header of non-empty text `kid` and `alg` and a text `encrypted_key` |
| Encryption.EpochOkIff | src/lib/encryption.ts:221-257 | an epoch exactly with a non-empty text id and at least one recipient, all in order |
| Encryption.IdOfIff | src/lib/encryption.ts:230-245 | an epoch's id is its non-empty text member `id` |
| Encryption.DescriptorIsRead | src/lib/encryption.ts:381-399 | the rails read scheme, version, current epoch and listed ids off the members of those names |
| Encryption.CheckTransition | src/lib/encryption.ts:381-399 | the rails accept exactly the allowed transitions, and each error is returned exactly when its fault is the first: which epoch went, which one came back, from which version to which |
| Encryption.UpdateIsAcceptedIff | src/lib/encryption.ts:323-399 | an update is accepted exactly when the scheme stays, listed epochs stay listed, the current one stays or is new, and a version stays and does not drop |
| Encryption.AllowedIsPreorder | src/lib/encryption.ts:323-358 | accepted transitions are reflexive and transitive on valid descriptors |
| Encryption.DescriptorOnlyGrows | src/lib/encryption.ts:421-480 | over any history the scheme is constant, a version never drops or vanishes, epochs only grow, the current one is listed |
| Encryption.RetiredEpochNeverReturns | src/lib/encryption.ts:345-357 | an epoch that stopped being current is never current again |
| Encryption.ReachableIffAllowed | src/lib/encryption.ts:381-399 | many accepted updates reach exactly what one could |
| Encryption.RotationIsAccepted | src/lib/encryption.ts:345-357 | appending a new epoch and pointing to it is always accepted |
| Encryption.EarlyCheckAloneLosesEpochs | src/requests/CollectionRequest.ts:447-460 | without the check inside the write, two updates that pass against one read lose an epoch |
| PostgresImport.MergeChunkEntries | src/backends/postgres.ts:4211-4272 | one entry per chunk with a representation, with the bytes and type of its last representation file and the version of its last sidecar |
| PostgresImport.StagedIffRepresented | src/backends/postgres.ts:4211-4251 | a chunk is staged with a body exactly when the archive holds a representation of it |
| PostgresImport.AllSlotsAsArchived | src/backends/postgres.ts:4233-4251 | what is staged of a chunk is what the files of its Collection say: the last representation, the last sidecar |
| PostgresImport.EntriesAreStaged | src/backends/postgres.ts:4211-4272 | however the merged rows are ordered, their bytes are those the archive stages |
| ImportPlan.AssertBodiesFit | src/lib/importTar.ts:567-625 | the pre-flight reports the first offending body in archive order, or the sum of all bodies |
| ImportPlan.BodiesFitIff | src/lib/importTar.ts:567-625 | it passes exactly when every body is within the upload cap and every Resource body conforms to the encryption in force |
| ImportPlan.BodiesFitExactly | src/lib/importTar.ts:567-625 | spelled out: no body longer than the cap, and no Resource body that the description in force rejects |
| ImportPlan.MergedView | src/backends/postgres.ts:3831-3980 | after the merge every archived id is there, and of live Resources exactly those new to the destination were added |
| ImportPlan.CountsFitIff | src/backends/postgres.ts:3729-3746 | no count quota refuses exactly when, for Collections and live Resources alike, none is created or the quota holds old and new together |
| ImportPlan.SecondImportIsIdle | src/backends/filesystem.ts:1264-1277 | importing an archive again brings nothing and meets no count quota, whatever the quotas are by then |
| ImportPlan.PoliciesAfter | src/backends/postgres.ts:3867-3942 | every policy afterwards is the archive's where it carries one for something missing, and else the one that was there |
| ImportPlan.HeldPolicyChangesIff | src/requests/PolicyRequest.ts:108-122 | a held policy is replaced exactly when its target is missing and the archive carries another |
| ImportPlan.CarriedIff | src/backends/postgres.ts:3867-3942 | the archive carries the policy of the Space, of a Collection it has and of a Resource it has a representation of |
| ImportReport.ReportIsExact | src/backends/postgres.ts:3771-3980 | created are exactly the Collections without a description before, the ids not held before and the policies carried for what was not there; created and skipped together are all the archive has |
| ImportReport.SecondReportIsIdle | src/backends/filesystem.ts:1246-1263 | after an import nothing of the same archive counts as created |
| PostgresImport.ImportCollections | src/backends/postgres.ts:3831-3980 | the apply loop is refused exactly for the first count quota met, and otherwise ends in the shared merge, with prescribed rows and the shared report of what was created and skipped |
| PostgresImport.ImportChunks | src/backends/postgres.ts:3982-4040 | exactly the staged chunks under live parents are in, inserted once and counted when inserted |
| PostgresImport.Import | src/backends/postgres.ts:3682-4083 | the import is refused exactly as its verdict says, and otherwise brings exactly what the archive has and the Space lacks, every row and chunk field by field as archived, and reports it |
| PostgresImport.SecondVerdict | src/backends/postgres.ts:3771-3778 | after a finished import the same archive is refused exactly when its bytes do not fit the capacity |
| PostgresImport.SecondImportChangesNothing | src/backends/postgres.ts:3682-4083 | and otherwise changes nothing and creates nothing |
| PostgresImport.PolicyChangesIff | src/backends/postgres.ts:3867-3942 | the policy exception on Postgres, both ways |
| PostgresSpaces.PostgresSpace.Execute | src/backends/postgres.ts:1549-1782 | an operation on one Collection is that of its machine, or is refused exactly when its growth does not fit; every other Collection stays and the counter is exact |
| PostgresSpaces.PostgresSpace.DeleteCollection | src/backends/postgres.ts:1297-1331 | rows, row and policies of the Collection go, the others stay, and the counter stays exact |
| PostgresSpaces.DroppedBytes | src/backends/postgres.ts:1305-1330 | what it returns to the counter is exactly the bytes under the Collection |
| PostgresSpaces.PostgresSpace.ImportSpace | src/backends/postgres.ts:3682-4083 | refused exactly as the verdict says and then without a trace, else a merge of exactly what is new; the counter stays exact and within the capacity |
| PostgresSpaces.ImportTwice | src/backends/postgres.ts:3682-4083 | a second import succeeds exactly when the archive's bytes fit beside what is stored, and then changes nothing |
| PostgresSpaces.StoredIsHeld | src/backends/postgres.ts:4148-4194 | while rows agree with their content, the size columns sum to the lengths of what is held |
| PostgresSpaces.RunHistory | src/backends/postgres.ts:504-529 | over any history mixing writes, deletes, Collection deletes, policy writes and imports, the counter is at every moment exactly the bytes held, within the capacity, with every chunk under a live Resource |
| PostgresSpaces.SecondImportIsRefused | src/backends/postgres.ts:3771-3778 | an import that fits is refused when repeated |
| PostgresSpaces.OrphanPolicyIsReplaced | src/requests/PolicyRequest.ts:108-122 | a policy stored before its Resource is replaced by the Resource's import |
| FileSystemImport.ImportCollections | src/backends/filesystem.ts:1279-1477 | the apply loop stops exactly at the first count quota met, leaving a merge, and otherwise ends in the shared merge with the archive's files, sidecars, descriptions and chunk files |
| FileSystemImport.FileSystemSpace.ImportSpace | src/backends/filesystem.ts:1208-1477 | refused exactly as the verdict says: for a body or headroom without a trace, for a count with what was written; finished, exactly what is new is there and reported kind by kind; either way nothing held changes |
| FileSystemImport.FileSystemSpace.ImportTwice | src/backends/filesystem.ts:1208-1477 | a second import changes nothing, and is refused exactly when the archive's bytes do not fit the headroom by then |
| FileSystemImport.ChunkFileIsNewIff | src/backends/filesystem.ts:1441-1477 | a chunk file is new exactly when archived, absent before, and under a Resource that is live afterwards |
| FileSystemImport.SecondRepresentationIff | src/backends/filesystem.ts:1441-1477 | a held chunk gains a representation exactly when its Resource is live and the archive has it under a type not there |
| FileSystemImport.ChunkGetsTwoRepresentations | src/backends/filesystem.ts:1441-1477 | two imports that leave one chunk under two media types |
| FileSystemImport.PolicyChangesIff | src/backends/filesystem.ts:1329-1401 | the policy exception on the filesystem, both ways |
| KmsReencrypt.KeyTree.ReencryptRecordFile | scripts/reencrypt-kms-records.ts:141-215 | one record becomes its converted form or stays, and exactly one counter moves |
| KmsReencrypt.KeyTree.Walk | scripts/reencrypt-kms-records.ts:269-302 | the walk is the fold of that over every record file in order |
| KmsReencrypt.RunPreservesMeaning | scripts/reencrypt-kms-records.ts:178-215 | every record keeps its fields and secret; unopenable, dry-run and unvisited ones are untouched |
| KmsReencrypt.InTargetFormAfterRunIff | scripts/reencrypt-kms-records.ts:164-205 | a visited record ends in the target form exactly when it was, or opened and its write landed |
| KmsReencrypt.NonFailedOpensIff | scripts/reencrypt-kms-records.ts:164-176 | a non-failed record is in the target form, and opens exactly when it opened or was converted |
| KmsReencrypt.DamagedCurrentRecordIsNotNoticed | scripts/reencrypt-kms-records.ts:164-181 | a damaged record under the current key counts as current and stays unopenable |
| KmsReencrypt.FailedIsUntouchedIff | scripts/reencrypt-kms-records.ts:211-215 | a failed record is untouched exactly when its write did not throw after landing |
| KmsReencrypt.CountersSumToVisits | scripts/reencrypt-kms-records.ts:296-312 | the six counters sum to the records visited |
| KmsReencrypt.ActionIsExact | scripts/reencrypt-kms-records.ts:164-215 | which action each record calls for, exactly |
| KmsReencrypt.CountersCountActions | scripts/reencrypt-kms-records.ts:296-312 | each counter counts the actions of its name |
| KmsReencrypt.ActionOfFirstVisit | scripts/reencrypt-kms-records.ts:296-312 | the action counted at a record's first visit is the one its own form calls for |
| KmsReencrypt.OpensIff | scripts/reencrypt-kms-records.ts:174-176 | a record in the clear opens, a sealed one exactly under the key registered for its id |
| KmsReencrypt.SecondRunChangesNothing | scripts/reencrypt-kms-records.ts:318-326 | a second run over the same keys changes no file |
| KmsReencrypt.LaterRunKeepsConverted | scripts/reencrypt-kms-records.ts:318-326 | a later run leaves converted and unopenable records alone |
| KmsReencrypt.InterruptedRunCatchesUp | scripts/reencrypt-kms-records.ts:318-326 | stopping after any prefix and running again ends where one run ends, up to nonces |
| ExportArchive.ClassificationIsOrderFree | src/lib/exportManifest.ts:53-74 | a name is documented with a URL exactly when it has that URL's prefix |
| ExportArchive.Pack.PackDirectory | src/lib/exportTar.ts:75-100 | the recursive packer appends exactly the tree's entries in order |
| ExportArchive.Pack.PackSpaceArchive | src/lib/exportTar.ts:116-165 | the pack is header, tree and revocations |
| ExportArchive.BuildExportManifest | src/lib/exportManifest.ts:88-130 | the manifest describes the entries in order |
| ExportArchive.ManifestMatchesArchive | src/lib/exportTar.ts:58-165 | for every tree the files packed under the Space are the tree's with their bytes, and the manifest lists exactly their paths in order |
| ExportArchive.PathsAreDistinct | src/lib/exportTar.ts:75-100 | with slash-free, sibling-distinct names no two packed paths coincide |
| ExportArchive.EveryFileIsPacked | src/lib/exportTar.ts:75-100 | every file of the tree is packed with its bytes under the names along its route |
| ExportArchive.PackedFileIsInTree | src/lib/exportTar.ts:75-100 | and nothing else is packed as a file |
| ExportArchive.ArchiveLayout | src/lib/exportTar.ts:116-165 | an archive opens with its manifest, has the Space's files under its id and every revocation under its name |
| ExportArchive.ClassificationByPrefix | src/lib/exportManifest.ts:53-74 | which prefix is documented with which URL |

## Left out

- HTTP routing, capability and digest checking, the exchanges facet, caches and configuration: plumbing, or work done in libraries outside the repository.
- Directory-size measurement and the filesystem byte quota of writes: documented as a soft limit; `Lockstep` runs both backends away from any quota.
- Resource-count and Collection-count quotas under concurrency, and Collection deletion or import interleaved with writers: no lock in the code supports an exact claim; both are covered serially (`PostgresSpaces.RunHistory`).
- Legacy Resources without a sidecar, whose times come from file stat: `FileSystemStore` starts from an empty directory.
- Import restores a Resource without a sidecar at version 1 on Postgres and with no version on the filesystem; only the first is modelled as a number.
- Revocation records in an import, and the time at which they expire.
- Tar and YAML bytes, JSON text, file-name encoding and base64: abstract values, with file names as pairs of id and media type.
- AES key wrapping and authentication: ciphertexts are symbolic and open only under the sealing key.
- Collection descriptions and Collection metadata as conditional-write targets of their own: the same compare-and-swap on one document.
- Which bodies conform to a Collection's encryption is given to an import as a set; the conformance check of one body is not modelled there.
- One clock reading stands for the times of all rows an import creates without a sidecar.
- I/O errors in the middle of a section (a failed unlink or sidecar write) in `FileSystemRuns`: a section is refused before its first write or runs to its end; `AtomicFile` and `RepresentationOverwrite` cover failures of single writes.
- FileSystemImport.FileSystemSpace.ImportSpace: takes the disk measurement as an input.
