# A model of yappod2

yappod2 is a single-node search engine that stores documents and tombstones in immutable segments.
A manifest lists the segments, oldest first, and the newest event per document id decides what a
search returns. This project models the parts of the engine where correctness spans several
functions or several processes, and proves what they promise:

- **Index lifecycle** (`Catalog`, `Slices`, `Compaction`, `Lifecycle`, `LifecycleSafety`,
  `LifecycleTheorems`, `LifecycleCleanup`, `LogFate`, `LogLoss`): updates with a write-ahead log, recovery, compaction
  that merges without the writer lock, garbage collection, failures and crashes, as a state machine
  over any number of processes, together with the executable merge of a segment range.
- **Cached vector base** (`Probing`, `AnnPlan`): joining a cached base against a later manifest.
- **Lexical index format** (`LittleEndian`, `Occurrences`, `LexicalGroups`, `LexicalFormat`,
  `LexicalLayout`, `LexicalWriter`, `LexicalReader`, `LexicalSegment`, `LexicalRoundTrip`, `LexicalLookup`,
  `LexicalValidate`, `GroupsConverse`, `TitleCorpus`, `AcceptedBlocks`, `WrappedReads`,
  `WrappedPosting`): the three payloads as bytes, from token occurrences and back.
- **Lexical search** (`Bm25`, `TopHits`, `SearchPlan`, `MatchLists`, `Intersection`, `Pruning`, `PruningExact`,
  `PruningSound`, `PruningLoss`, `PruningCorpora`, `LexicalSearch`): leapfrog intersection, phrases,
  and disjunctive search with block-bound pruning.
- **Candidate set** (`ByteOrder`, `Candidates`, `CandidateHeap`, `CandidateHash`, `CandidateStore`): the bounded
  set of best ids, an indexed heap plus an open-addressing table, changed in place.
- **Update log** (`UpdateLog`, `UpdateLogFormat`, `Crc32c`): its bytes, written and read as a stream, and
  the checksum that guards them.
- **Segment planner** (`TermCounts`, `PayloadSizes`, `UnitCounting`, `SegmentSizer`, `SizeOrder`,
  `SegmentPlanner`, `PlannedSegments`): incremental size accounting and the slicing that uses it.
- **Runtime** (`Ledger`, `Reactor`, `ReactorSafety`, `ReactorWork`, `JobRing`, `Executor`, `ExecutorPool`): admission limiters,
  connection callbacks of all reactors, and the bounded executor.
- **Chunker** (`Chunker`): overlapping windows over a text.

`dafny verify dfyconfig.toml` checks everything.

## Where the code falls short of a general statement

Five statements one would like to make are false of the code. Each has concrete inputs that show it
and a statement of when it does hold:

- *Every synced log is eventually applied.* Three runs from the empty index say otherwise, each for
  any request. A compaction that waits for the writer lock publishes the generation a crashed
  update's log was meant for, and recovery discards the log (`LogIsOvertaken`). An update that looked
  for a log before a crash, without the lock, writes its own log over the one left behind
  (`LogIsWrittenOver`). A log whose batch was published but which a crash left behind conflicts with
  the manifest as soon as a waiting compaction publishes once more (`LogComesIntoConflict`), and then
  no recovery ever removes it (`ConflictIsForGood`). What holds, in every run: a written log stays
  replayable until the first publish, the first other log written, or its own update's clearing
  failure; its batch is in the index, once and for good, exactly when that first event is the publish
  of the batch itself (`FateOfLog`). What recovery finds says what happened: a log of the present
  generation was never applied, one of the generation before was applied if and only if nothing else
  was published since it was written, and any other means that something else was (`RecoveryFinds`).
- *Disjunctive search returns the exact top hits.* With three terms a cursor that already stands on
  the pivot's key is stepped over it (lines 480-481 of `src/query/yappo_lexical_search_v2.c`, where
  line 461 has a guard), and with two terms the bound of a list's present block says nothing about
  its later blocks (`ThreeTermsLose`, `TwoBlocksLose`: no order of equal keys helps). Titles of documents, the lists the writer
  makes of them and a search that loses the best one are given for every logarithm and for every
  number of places up to 127 (`ThreeTermsArise`) and any number of places (`TwoBlocksArise`). Among the
  kinds of queries that a caller can tell apart by the number of found terms, the places, whether each
  list has one bound, and whether matches fit the places, the reliable ones are precisely one term, two
  terms with one bound each, and no more matches than places; every other kind has a query of which no
  run gives the answer (`ReliableKinds`). Besides, an answer
  with fewer hits than asked for is always complete (`ShortAnswersAreComplete`), and for every query
  hits are real and never overstated (`AnswersAreReal`).
- *Block maxima of an accepted segment cover its postings.* The validator takes the count of a block
  from the file and checks the maxima of the counted postings only, so it accepts a block that counts
  one posting of two (`TwoDocumentsDoNotCover`). An accepted list is covered if and only if the
  maxima of each block also cover the postings it does not count (`SearchableExactly`). Told from the
  counts alone: all accepted lists with given counts are covered if and only if every block counts its
  whole share (`CountsDecide`, by documents and bytes for every other choice of counts,
  `ShortCountsDoNotCover`); the writer's blocks always do (`WrittenListsAreSearchable`).
- *The validator accepts only postings whose positions are records of their term.* The sum of position
  offset and count wraps at 2^64 (line 240 of `src/components/yappo_lexical_reader_v2.c`), and a posting
  that wraps is read from in front of its records; one is accepted whatever lies outside the payload
  (`WrappedSegmentPasses`). What passes the validator is what it should accept if and only if no
  posting has offset + count >= 2^64 (`SegmentPassesExactly`).
- *A written log can be loaded.* The writer accepts an operation with an empty id and the loader
  refuses it; loading succeeds if and only if no id is empty (`LogRoundTrip`).

## Model

| member | source | states |
|---|---|---|
| `Catalog.MergedIsNewest` | README.md:302-303 | the merged entries of a segment list hold, for each id, what its newest event says, by (segment, documents after tombstones, ordinal) |
| `Catalog.MergedHasEvent` | README.md:302-303 | an id is in the merged entries exactly when some segment has an event for it |
| `Catalog.MergedConcat` | src/indexing/yappo_compact_v2.c:356-506 | merging distributes over concatenation of segment lists, which is what lets a contiguous range be merged on its own |
| `Compaction.BuildEventMap` | src/indexing/yappo_compact_v2.c:383-403 | overwriting map slots in source order leaves exactly the newest event of every id |
| `Compaction.CheckGrouping` | src/indexing/yappo_compact_v2.c:413-433 | accepts exactly the segments whose passage array is used up by walking the documents in order, and counts the passages of the newest documents |
| `Compaction.CopyVectors` | src/indexing/yappo_compact_v2.c:454-492 | copies the vectors of the newest documents in order, and fails exactly when one is missing or stored under another id than its passage |
| `Compaction.CollectRange` | src/indexing/yappo_compact_v2.c:356-506 | fails exactly for badly grouped passages or misplaced vectors; otherwise the units have distinct ids, are well formed, stand for exactly the merged entries of the range (live ones only when tombstones are dropped), come in the order of their newest events, the reported counts are the visible documents and the passages of the units, and every passage keeps the vector stored under its id |
| `Compaction.FillSlice` | src/indexing/yappo_segment_planner_v2.c:717-732 | the loop that sorts units into tombstone, document and passage arrays builds the segment of the slice |
| `Compaction.WriteSliceJoins` | src/indexing/yappo_segment_planner_v2.c:717-732 | units keep their order: what two runs of units are written to is joined array by array |
| `Compaction.WriteSliceOne` | src/indexing/yappo_segment_planner_v2.c:717-732 | what one unit is written to |
| `Compaction.WriteSliceEntries` | src/indexing/yappo_segment_planner_v2.c:717-732 | reading a written slice back gives exactly the entries of its units |
| `Compaction.WrittenEntries` | src/indexing/yappo_compact_v2.c:716-746 | whatever ordered partition was planned, the written segments merge to the units' entries |
| `Compaction.SplicePreservesView` | src/indexing/yappo_compact_v2.c:696-700 | splicing compacted output into any current manifest that still holds the range at its place leaves the view unchanged, also when tombstones were dropped because the range was the whole base and segments were appended since |
| `Compaction.DropTombstonesExactly` | src/indexing/yappo_compact_v2.c:698-699 | dropping the tombstones of a range behind older segments keeps the view if and only if no dropped tombstone hides an older document that nothing newer decides |
| `Lifecycle.ApplyUnitsOverride` | src/indexing/yappo_update_v2.c:301-342 | applying a batch's operations one by one equals overriding the view with its entries |
| `LifecycleSafety.StepKeeps` | src/indexing/yappo_compact_v2.c:598-837 | every step of every process keeps locks, files, directories under construction, process knowledge, history and log file consistent |
| `LifecycleSafety.RunKeeps` | src/indexing/yappo_update_v2.c:108-349 | the invariant holds in every state of every run |
| `LifecycleSafety.PublishSpliceKeeps` | src/indexing/yappo_compact_v2.c:757-793 | publishing a splice after relocking keeps the invariant, so the view stays the replayed log |
| `LifecycleTheorems.ViewIsPublishedBatches` | src/indexing/yappo_update_v2.c:301-342 | in every reachable state the view is whole batches applied in publish order, none twice, and every update that returned OK is among them |
| `LifecycleTheorems.LogOnlyGrows` | src/indexing/yappo_update_v2.c:301-342 | along every run the published batches only grow and nothing acknowledged is lost |
| `LifecycleTheorems.ManifestIsOnDisk` | src/indexing/yappo_update_v2.c:267-284 | every segment named by the manifest is on disk with the pinned content |
| `LifecycleTheorems.RemovalsSpareLiveWork` | src/indexing/yappo_compact_v2.c:54-99 | garbage collection and the sweep after a compaction never remove a directory that the manifest names or a live process is building |
| `LifecycleTheorems.CompactionRangeSurvives` | src/indexing/yappo_compact_v2.c:508-521 | while one compaction runs, no other process can disturb its range: the recheck succeeds |
| `LifecycleTheorems.DiscardedLogIsApplied` | src/indexing/yappo_update_v2.c:394-408 | a log that recovery discards was applied exactly once if nothing else was published since it was written, and never otherwise |
| `LifecycleTheorems.ReplayedLogIsApplied` | src/indexing/yappo_update_v2.c:351-415 | a log that recovery replays was not applied before and is applied exactly once afterwards |
| `LifecycleCleanup.CollectionCleans` | src/indexing/yappo_compact_v2.c:54-99 | from every reachable state a collector can go on until the directories on disk are exactly those the manifest names, and nothing else changes |
| `LifecycleCleanup.CollectsWithoutLog` | src/indexing/yappo_compact_v2.c:598-690 | a directory is only collected under both locks, with no log on disk, and only that directory goes |
| `LifecycleCleanup.SweepRemoves` | src/indexing/yappo_compact_v2.c:795-815 | the sweep removes every doomed directory and no other, and both locks are free behind it |
| `LifecycleCleanup.CompactionReplaces` | src/indexing/yappo_compact_v2.c:757-815 | a relocked compaction can always publish and sweep: afterwards the manifest has its output in place of the range, exactly the directories of the range are gone, and the view is the same |
| `LifecycleCleanup.CompactionUnits` | src/indexing/yappo_compact_v2.c:696-700 | in every reachable state the units of a compaction stand for all entries of its range, tombstones included, unless the range was the whole manifest it started from; then for the live ones |
| `LifecycleCleanup.AcknowledgedUpdate` | src/indexing/yappo_update_v2.c:318-349 | an update that returns OK is published exactly once, is recorded, and leaves neither lock nor log |
| `LogLoss.CrashAfterSync` | src/indexing/yappo_update_v2.c:244-258 | whenever the writer lock is free an update can leave a synced, unpublished log behind, and changes nothing else |
| `LogLoss.CompactionOvertakesLog` | src/indexing/yappo_compact_v2.c:752-793 | a compaction that then relocks publishes the very generation the log was meant for |
| `LogLoss.OvertakenLogIsDiscarded` | src/indexing/yappo_update_v2.c:394-408 | after which recovery discards the log although its batch was never applied |
| `LogLoss.LogIsOvertaken` | src/indexing/yappo_compact_v2.c:752-793 | for any request, a run of 17 moves from the empty index in which its synced log is discarded and its batch never applied |
| `LogLoss.LogIsWrittenOver` | src/indexing/yappo_update_v2.c:351-425 | for any two requests, a run of five moves from the empty index in which the second log replaces the first, nothing is published, and the first batch is lost |
| `LogLoss.LogComesIntoConflict` | src/indexing/yappo_update_v2.c:318-334 | for any request, a run from the empty index after which its applied batch's log is neither replayable nor discardable |
| `LogFate.FateOfLog` | src/indexing/yappo_update_v2.c:244-349 | in every later state of every run: before the first deciding event the log is on disk and replayable and its batch unapplied; after it the batch is applied exactly once if the event was its own publish, and never otherwise |
| `LogFate.LostForGood` | src/indexing/yappo_update_v2.c:351-425 | a batch that is unpublished, held by no update and named by no replayable log stays so for ever |
| `LogFate.LogHasOrigin` | src/indexing/yappo_update_v2.c:244-258 | a log on disk was written by some move of the run, at the generation it names, and the record of other publishes since means what it says |
| `LogFate.RecoveryFinds` | src/indexing/yappo_update_v2.c:351-415 | what each of the three cases of recovery says about the batch and about other publishes since the log was written |
| `LogFate.ConflictIsForGood` | src/indexing/yappo_update_v2.c:400-405 | a log in conflict stays on disk and in conflict until some update writes over it |
| `AnnPlan.VisibleExactly` | src/query/yappo_ann_corpus_v2.c:189-197 | a document record is visible if and only if it is its segment's last word on the id and no newer segment has one |
| `AnnPlan.HiddenStaysHidden` | src/query/yappo_ann_corpus_v2.c:224-269 | a record hidden at one generation is hidden at every later one that still contains its segment |
| `AnnPlan.InsertBase` | src/query/yappo_ann_corpus_v2.c:504-510 | inserting by linear probing keeps every stored base segment reachable from its home slot |
| `AnnPlan.FindBase` | src/query/yappo_ann_corpus_v2.c:511-527 | probing finds a base segment by name if and only if there is one |
| `AnnPlan.BuildQueryPlan` | src/query/yappo_ann_corpus_v2.c:485-541 | each current segment is marked delta or mapped from exactly the base segment with its name and fingerprint, with correct counts |
| `AnnPlan.JoinIsInjective` | src/query/yappo_query_v2.c:374-396 | no two base segments serve one current segment |
| `AnnPlan.BaseAndDeltaCover` | src/query/yappo_query_v2.c:374-455 | every passage visible now is in a delta segment or in a mapped base segment where it was visible when the base was built |
| `Probing.TableSize` | src/query/yappo_query_v2.c:82-103 | the smallest power of two that leaves the table at most half full |
| `ByteOrder.LessExactly` | src/query/yappo_query_v2.c:35-40 | one byte string precedes another if and only if at their first difference it ends or has the smaller byte |
| `Candidates.FoundKeepsBest` | src/query/yappo_query_v2.c:171-199 | a better offer for a held id keeps the set best, a worse one is ignored |
| `Candidates.ReplacedKeepsBest` | src/query/yappo_query_v2.c:171-199 | replacing the worst of a full set by a better new id keeps exactly the best ids at their best offers |
| `Candidates.OffersHold` | src/query/yappo_query_v2.c:171-199 | what the best offers of a sequence are: exactly the offered ids, each at the first of its offers that beats all before it and is beaten by none after it |
| `Candidates.BestInFull` | src/query/yappo_query_v2.c:64-199 | the same in plain terms: distinct ids, each at the first of its offers with the highest score; an offered id is missing only if the set is full and every item has a higher score, or the same score and an id that differs first by a smaller byte or is a proper prefix |
| `CandidateHeap.RootIsWorst` | src/query/yappo_query_v2.c:64-72 | the heap root is the worst candidate held |
| `CandidateHeap.HeapUp` | src/query/yappo_query_v2.c:146-154 | restores heap order and inverse positions after an append |
| `CandidateHeap.HeapDown` | src/query/yappo_query_v2.c:156-169 | restores heap order and inverse positions after an item got better |
| `CandidateHash.FindSlot` | src/query/yappo_query_v2.c:105-123 | finds an id if and only if it is stored, over deletion marks and wrap-around, and otherwise returns the slot to use |
| `CandidateHash.Insert` | src/query/yappo_query_v2.c:125-130 | the table afterwards holds exactly one more item |
| `CandidateHash.Remove` | src/query/yappo_query_v2.c:132-136 | the table afterwards holds exactly one item less and every other stays reachable |
| `CandidateStore.CandidateSet.Add` | src/query/yappo_query_v2.c:171-199 | one offer keeps heap, inverse positions and table intact and the set best for everything offered so far |
| `CandidateStore.CollectBest` | src/query/yappo_query_v2.c:64-199 | after any sequence of offers the set holds exactly the best capacity ids by (score, id), each at the best offer made for it, also in the plain terms of `Candidates.BestInFull` |
| `Bm25.IdfSign` | src/query/yappo_lexical_search_v2.c:54-58 | the inverse document frequency is never negative and positive for a term that occurs |
| `Bm25.BlockBoundsScore` | src/query/yappo_lexical_search_v2.c:60-118 | stored block maxima bound the score of every wanted posting of the block |
| `Bm25.BoundIsPositive` | src/query/yappo_lexical_search_v2.c:84-118 | the bound of a block of an occurring term is positive as soon as some boost is |
| `Bm25.BoundIsAttained` | src/query/yappo_lexical_search_v2.c:84-118 | a positive bound is no larger than it must be: it is the score of a wanted posting that the block maxima allow |
| `Bm25.WeightInFull` | src/query/yappo_lexical_search_v2.c:43-82 | with k objects holding t tokens of a field, tf tokens in a field of n weigh 4 boost tf t / (t + 3 n k); titles and bodies over documents, passages over passages |
| `Bm25.WeightWithoutAverage` | src/query/yappo_lexical_search_v2.c:43-52 | a field of the other kind of object, or without statistics, is measured against one token |
| `Bm25.ScoreInFull` | src/query/yappo_lexical_search_v2.c:54-82 | a term that n of k objects have scores 11 w log(1 + (2k - 2n + 1) / (2n + 1)) / (6 + 5 w) at weight w > 0 when 0 < n <= k, and nothing otherwise |
| `TopHits.AddHit` | src/query/yappo_lexical_search_v2.c:183-196 | appends while there is room, else replaces a worst hit if the new one precedes it |
| `TopHits.AddedKeepsTop` | src/query/yappo_lexical_search_v2.c:183-196 | offering a new object keeps the first k of everything seen |
| `TopHits.HitThreshold` | src/query/yappo_lexical_search_v2.c:171-181 | zero until the buffer is full, then its lowest score |
| `TopHits.TopIsUnique` | src/query/yappo_lexical_search_v2.c:23-33 | hit order is total, so the first k of a set of hits are one sequence |
| `TopHits.SortedTop` | src/query/yappo_lexical_search_v2.c:507-508 | the final sort turns the buffer into the answer |
| `SearchPlan.PostingIsUnique` | src/query/yappo_lexical_search_v2.c:404-435 | no object has two postings under one term, so its score under a term is that of the one it has |
| `SearchPlan.RankedExactly` | src/query/yappo_lexical_search_v2.c:443-508 | the set of hits to rank holds exactly the hits of the objects sought: wanted, accepted, with a positive score, for a conjunction under every term, for a phrase with each token in place |
| `MatchLists.AdvanceTo` | src/query/yappo_lexical_search_v2.c:120-131 | steps at least once and stops at the first wanted object at or behind the key |
| `MatchLists.Arrange` | src/query/yappo_lexical_search_v2.c:450-455 | the live cursors, each once, in key order |
| `MatchLists.Evaluate` | src/query/yappo_lexical_search_v2.c:485-499 | adds up the scores of all cursors on the key and moves exactly those |
| `Intersection.PhraseMatches` | src/query/yappo_lexical_search_v2.c:133-169 | true if and only if the tokens stand at consecutive positions of one field |
| `Intersection.Leap` | src/query/yappo_lexical_search_v2.c:456-464 | leaping passes no object that all lists have, and makes progress |
| `Intersection.AllHitsComplete` | src/query/yappo_lexical_search_v2.c:443-508 | every object with all terms (and the phrase), wanted, accepted and with positive score is among those to rank |
| `Intersection.SearchAll` | src/query/yappo_lexical_search_v2.c:443-508 | terminates and returns exactly the first topK, in hit order, of all qualifying objects, for any number and length of lists |
| `Pruning.FindPivot` | src/query/yappo_lexical_search_v2.c:466-471 | the first cursor at which accumulated bounds reach the threshold |
| `Pruning.Turn` | src/query/yappo_lexical_search_v2.c:443-505 | one turn of the loop is a step of the search and makes progress |
| `Pruning.SearchAny` | src/query/yappo_lexical_search_v2.c:443-508 | terminates, and its answer is the sorted buffer of a complete run of steps |
| `PruningExact.SkipSafe` | src/query/yappo_lexical_search_v2.c:472-477 | without a pivot the one object skipped cannot be in the answer, for any number of terms and blocks |
| `PruningExact.JumpSafeTwo` | src/query/yappo_lexical_search_v2.c:478-483 | with two one-block lists no object jumped over can be in the answer |
| `PruningExact.FullIsComplete` | src/query/yappo_lexical_search_v2.c:171-181 | with no more matches than places, a full buffer holds every match |
| `PruningExact.StepKeeps` | src/query/yappo_lexical_search_v2.c:443-505 | every turn of an exact query keeps: passed objects are settled or cannot matter, the buffer holds the top of the settled |
| `PruningExact.PruningIsExact` | src/query/yappo_lexical_search_v2.c:443-508 | one term, at most two one-block terms, or no more matches than places: every complete run ends with exactly the first topK of all matches |
| `PruningExact.ShortAnswersAreComplete` | src/query/yappo_lexical_search_v2.c:171-181 | an answer with fewer hits than places is exactly all matches, for any number of terms and blocks |
| `PruningSound.AnswersAreReal` | src/query/yappo_lexical_search_v2.c:485-508 | for every query each hit is a wanted, accepted object with a positive score that is at most its true one, and none comes twice |
| `PruningLoss.ThreeTermsLose` | src/query/yappo_lexical_search_v2.c:478-483 | for every number of terms from three on, every number of places below 2^63 and all scores of the given proportions, complete runs exist and every one, whatever the order of equal keys, misses the best object |
| `PruningLoss.TwoBlocksLose` | src/query/yappo_lexical_search_v2.c:466-483 | two terms, the first with a higher bound in a later block, any number of places: complete runs exist and every one misses the best object |
| `PruningLoss.ReliableKinds` | src/query/yappo_lexical_search_v2.c:443-508 | over lists of scored and bounded items: every query of a kind (found terms, places, one bound per list, matches fit) is always answered exactly if and only if the kind is one term, two terms with one bound each, or fitting matches, and exactly the other kinds have a query that no run answers (given as items; documents behind such queries are in `PruningCorpora` for three terms up to 127 places and for two terms) |
| `PruningCorpora.ThreeTermsArise` | src/query/yappo_lexical_search_v2.c:43-118 | for every logarithm and 1 to 127 places: titles whose tokens group to the given lists, postings the reader accepts, and a search of three terms with the index's own frequencies that misses the best document |
| `PruningCorpora.TwoBlocksArise` | src/query/yappo_lexical_search_v2.c:43-118 | likewise with two terms and a list of two blocks, for every number of places: titles of both segments of an index of 2k + 260 documents, in which both terms occur in k + 129, and a search of the first that misses its best document |
| `LexicalSearch.QueryIsOk` | src/query/yappo_lexical_search_v2.c:404-435 | decoded lists are ordered and their block bounds cover their scores |
| `LexicalSearch.RankedAll` | src/query/yappo_lexical_search_v2.c:404-508 | what the intersection of the lists ranks is what the plan asks for, told by postings: a posting under every term, token j of a phrase at base + j in the posting of its term, scores added over the postings |
| `LexicalSearch.RankedAny` | src/query/yappo_lexical_search_v2.c:404-508 | what a disjunction over the lists ranks is what the plan asks for, told by postings |
| `LexicalSearch.ExactlyTame` | src/query/yappo_lexical_search_v2.c:443-508 | the conditions for exact pruning in terms of found terms and posting counts, when some field has a boost |
| `LexicalSearch.NoBoostNoHits` | src/query/yappo_lexical_search_v2.c:60-82 | without any boost nothing scores and the empty answer is the exact one |
| `LexicalSearch.Search` | src/query/yappo_lexical_search_v2.c:369-513 | which arguments are invalid (hit capacity included), when frequencies conflict with the corpus, and for every other call what the answer is, told by the postings of the plan and not by lists: every hit is accepted by the caller, passes the type filter and has a positive score, hits come by score, type and ordinal; a conjunction or phrase gives exactly the first topK of the objects that have a posting under every term (and the tokens in place); a disjunction does in the listed cases or when it is shorter than asked for, and otherwise gives distinct objects with at most their true scores and terms |
| `LittleEndian.FieldsLayout` | src/components/yappo_lexical_v2.c:20-31 | a record of fixed-width fields is read back field by field |
| `LittleEndian.GetInFull` | src/components/yappo_lexical_v2.c:20-31 | the byte that counts least comes first |
| `Occurrences.SortOrdered` | src/components/yappo_lexical_v2.c:242-260 | sorting distinct occurrences puts them into strictly increasing order |
| `Occurrences.SortUnique` | src/components/yappo_lexical_v2.c:242-260 | the order is total: equal multisets sort to the same list |
| `Occurrences.DirectExactly` | src/components/yappo_lexical_v2.c:214-240 | an occurrence is in the list of a segment if and only if it is a token of a title (field 1) or body (field 2) of a document (type 1) or of a passage (type 2, field 3), at its position and with the length of its field |
| `Occurrences.CombinePrepared` | src/components/yappo_lexical_v2.c:534-553 | the copying loop produces the rebased list and the document and passage counts |
| `Occurrences.CombinedIsDirect` | src/components/yappo_lexical_v2.c:484-593 | prepared units rebased one by one and direct tokenization hold the same occurrences |
| `Occurrences.CombinedOk` | src/components/yappo_lexical_v2.c:484-513 | the combined list of any units has distinct keys, fields of one length, and ordinals within the counts |
| `Occurrences.PreparedSortsAsDirect` | src/components/yappo_lexical_v2.c:515-593 | both lists sort to the same list |
| `LexicalWriter.PreparedPayloadsAreDirect` | src/components/yappo_lexical_v2.c:515-593 | both ways of writing give byte-identical payloads |
| `LexicalGroups.FlattenGroups` | src/components/yappo_lexical_v2.c:305-383 | grouping by term and object loses and invents nothing: reading the groups in order gives the list back |
| `LexicalGroups.GroupsOfOrdered` | src/components/yappo_lexical_v2.c:305-383 | groups of a sorted list have strictly increasing terms, objects and positions, frequencies that count positions, and positions inside their field |
| `GroupsConverse.GroupsOfFlatten` | src/components/yappo_lexical_v2.c:305-383 | grouping what well-formed groups list gives the groups back, so every well-formed segment content is the content of some occurrence list |
| `GroupsConverse.GroupsAreUnique` | src/components/yappo_lexical_v2.c:242-383 | well-formed groups that hold exactly the occurrences of a list are what sorting and grouping the list gives |
| `TitleCorpus.TitlesGroupTo` | src/components/yappo_lexical_v2.c:305-383 | groups that hold every token of every title at its place and nothing else are what the writer groups for those documents |
| `LexicalWriter.GroupsRun` | src/components/yappo_lexical_v2.c:336-383 | a run of one object adds exactly one posting |
| `LexicalWriter.CollectPostings` | src/components/yappo_lexical_v2.c:305-383 | walking a term run object by object yields exactly the group of the run |
| `LexicalWriter.WritePostings` | src/components/yappo_lexical_v2.c:336-383 | posting records with running position offsets, and the positions they point at |
| `LexicalWriter.WriteBlocks` | src/components/yappo_lexical_v2.c:384-422 | one record per 128 postings with the largest frequency and the shortest field |
| `LexicalWriter.BuildPayloads` | src/components/yappo_lexical_v2.c:270-449 | the three payloads are those of the groups of the sorted list; the only failure is a payload over 256 MiB |
| `LexicalLayout.PostingPlaces` | src/components/yappo_lexical_v2.c:356-380 | a posting record place by place: type at byte 0, ordinal at 4, frequencies at 12, 16, 20, lengths at 24, 28, 32, position offset at 36, count at 44 |
| `LexicalLayout.PositionPlaces` | src/components/yappo_lexical_v2.c:351-353 | a position record: field at byte 0, position at 4 |
| `LexicalLayout.BlockPlaces` | src/components/yappo_lexical_v2.c:384-422 | a block record: first posting 128 b at byte 0, count at 4, at 8 a frequency that some posting of the block has and none exceeds, at 12 a length that some term of the block stands in and none is below, or 0 |
| `LexicalLayout.TermHeads` | src/components/yappo_lexical_v2.c:321-333 | what stands in front of a term's postings and positions: its number, how many, and ceil(n / 128) blocks |
| `LexicalLayout.EntryPlaces` | src/components/yappo_lexical_v2.c:423-437 | a term entry: length and bytes of the term, its frequency, and where its postings and positions start and how long they are |
| `LexicalLayout.PayloadHeads` | src/components/yappo_lexical_v2.c:281-303 | the heads of the payloads: version 1, block size 128, object counts, totals and tokens per field at their places |
| `LexicalReader.TermsRoundTrip` | src/components/yappo_lexical_reader_v2.c:121-162 | the term stream of a built segment is accepted and gives back every term with its offsets |
| `LexicalReader.PostingIsWritten` | src/components/yappo_lexical_reader_v2.c:107-119 | reading a posting and its positions by offset gives exactly what was grouped |
| `LexicalReader.BlockIsWritten` | src/components/yappo_lexical_reader_v2.c:418-435 | block maxima read by offset are those of the block's postings |
| `LexicalSegment.TermCountBounded` | src/components/yappo_lexical_reader_v2.c:131-133 | a segment within the size limit never has more terms than a reader will load |
| `LexicalSegment.WriterAndReaderAgree` | src/components/yappo_lexical_v2.c:384-413 | frequency and shortest length taken from occurrences are what the reader recomputes from the stored fields |
| `LexicalSegment.TermIsAccepted` | src/components/yappo_lexical_reader_v2.c:189-298 | every check the validator makes on one term holds of a built segment |
| `LexicalRoundTrip.BuiltIsAccepted` | src/components/yappo_lexical_reader_v2.c:164-304 | the posting and position payloads of a built segment are accepted |
| `LexicalRoundTrip.SegmentRoundTrip` | src/components/yappo_lexical_v2.c:270-449 | for every well-formed occurrence list within capacity both validators accept, and reading everything back gives exactly the occurrences that went in |
| `LexicalValidate.ValidateTerms` | src/components/yappo_lexical_reader_v2.c:121-162 | the loop over the term stream decides what the specification decides |
| `LexicalValidate.CheckPositions` | src/components/yappo_lexical_reader_v2.c:240-260 | one pass with running counts accepts exactly well-formed positions whose counts match the frequencies |
| `LexicalValidate.ValidatePayloads` | src/components/yappo_lexical_reader_v2.c:164-304 | the loop over cursors accepts exactly the payloads that pass every check with position offset and count added in 64 bits and positions read where that leads |
| `WrappedReads.SegmentPassesExactly` | src/components/yappo_lexical_reader_v2.c:231-260 | everything the specification accepts passes, and what passes is accepted by the specification if and only if no posting has offset + count >= 2^64 |
| `WrappedPosting.WrappedSegmentPasses` | src/components/yappo_lexical_reader_v2.c:231-260 | bytes of a segment with a posting of offset 2^64 - 1 and count 2 that pass whatever lies outside the payload and that the specification refuses |
| `LexicalValidate.WrittenListsAreSearchable` | src/query/yappo_lexical_search_v2.c:404-428 | postings and blocks of a written segment satisfy everything search relies on |
| `AcceptedBlocks.SearchableExactly` | src/components/yappo_lexical_reader_v2.c:262-294 | an accepted list satisfies everything search relies on if and only if the maxima of its blocks cover the postings that no block counts |
| `AcceptedBlocks.AcceptedListsAreSearchable` | src/components/yappo_lexical_reader_v2.c:262-294 | in particular an accepted list whose blocks count their whole share does |
| `AcceptedBlocks.CountsDecide` | src/components/yappo_lexical_reader_v2.c:270-294 | for every length that fits a segment and all counts a validator can accept: every accepted list with these counts satisfies what search relies on if and only if all counts are full |
| `AcceptedBlocks.RecountedSegment` | src/components/yappo_lexical_reader_v2.c:262-294 | an accepted segment of one list stays accepted under any counts its blocks can have, with the maxima of the counted postings |
| `AcceptedBlocks.ShortCountsDoNotCover` | src/components/yappo_lexical_reader_v2.c:270-294 | for all counts that leave out some posting: documents, their written segment, and the same segment with those counts, which is accepted and reads back while its maxima do not cover that posting |
| `AcceptedBlocks.TwoDocumentsDoNotCover` | src/components/yappo_lexical_reader_v2.c:270-294 | the smallest such input: titles of one and of two words and a block that counts one posting |
| `LexicalLookup.FindTerm` | src/components/yappo_lexical_reader_v2.c:345-364 | binary search finds a term if and only if it is there |
| `LexicalLookup.AcceptedTypes` | src/components/yappo_lexical_reader_v2.c:231-260 | every accepted list has documents in front of passages, which counting by binary search relies on |
| `LexicalLookup.TypeFrequency` | src/components/yappo_lexical_reader_v2.c:366-391 | counts the postings of one object type; any other type is refused |
| `LexicalLookup.PostingIterator.Next` | src/components/yappo_lexical_reader_v2.c:393-416 | returns the records in order, then reports the end |
| `LexicalLookup.PositionIterator.Next` | src/components/yappo_lexical_reader_v2.c:437-463 | returns all positions of the term in order, then reports the end |
| `LexicalLookup.PositionOf` | src/components/yappo_lexical_reader_v2.c:465-483 | the position of a posting by index, with both error cases |
| `LexicalLookup.ReadList` | src/components/yappo_lexical_reader_v2.c:393-483 | walking the iterator and following positions decodes the whole list |
| `UpdateLog.WriteLog` | src/indexing/yappo_update_wal_v2.c:108-200 | succeeds exactly for 1 to 10000 writable operations, a base generation below the maximum and a payload that fits; the bytes are those of the specification; otherwise the error is that of the operation at which writing stops: all before it were written, and it is refused or makes the payload too long |
| `UpdateLog.StopsOnce` | src/indexing/yappo_update_wal_v2.c:135-180 | there is one such operation only, so the error is determined |
| `UpdateLog.LoadLog` | src/indexing/yappo_update_wal_v2.c:226-316 | reading front to back with running checksum and remaining count decides what `Decode` decides, which `UpdateLogFormat.LoadsExactly` tells place by place |
| `UpdateLog.ChecksumStreams` | src/indexing/yappo_update_wal_v2.c:50-61 | feeding pieces is feeding their concatenation, for any byte-at-a-time checksum |
| `UpdateLog.LogRoundTrip` | src/indexing/yappo_update_wal_v2.c:226-316 | loading a written log gives the same generations and operations, absent text as empty, if and only if no id is empty; otherwise it is refused |
| `UpdateLog.WrongLengthRefused` | src/indexing/yappo_update_wal_v2.c:243-257 | a file with the same header but another length is refused |
| `UpdateLog.PrefixRefused` | src/indexing/yappo_update_wal_v2.c:243-257 | every proper prefix of a written log is refused |
| `UpdateLogFormat.LoadsExactly` | src/indexing/yappo_update_wal_v2.c:226-316 | a file loads as a log if and only if it holds that log, told by bytes: magic, version and header size, generations that follow each other below 2^64, 1 to 10000 operations, the payload size, the checksum of everything behind the header, and records one after the other with nothing between or behind them |
| `UpdateLogFormat.WrittenIsLog` | src/indexing/yappo_update_wal_v2.c:108-200 | what the writer writes is a log in this form, with zeros in the unused bytes of header and records |
| `UpdateLogFormat.DamageRefused` | src/indexing/yappo_update_wal_v2.c:309-311 | a file with the header of a written log whose other bytes have another checksum modulo 2^32 is refused |
| `UpdateLogFormat.ChangedByteRefused` | src/indexing/yappo_update_wal_v2.c:309-311 | one changed byte behind the header is refused, for every byte step that separates bytes and states modulo 2^32 |
| `Crc32c.StepSeparates` | src/indexing/yappo_update_wal_v2.c:50-61 | the byte step of the code does: it is one-to-one in the state and in the byte |
| `UnitCounting.ScanUnit` | src/indexing/yappo_segment_planner_v2.c:247-260 | one pass remembering the last object counts occurrences and distinct objects per term |
| `UnitCounting.CombinedCounts` | src/indexing/yappo_segment_planner_v2.c:389-437 | adding a unit to a slice adds its counts, term by term, because rebased units share no object |
| `PayloadSizes.PayloadSizesExact` | src/components/yappo_lexical_v2.c:281-440 | the three payload lengths are 12 + sum(44 + length), 56 + sum(20 + 48p + 16 ceil(p/128)) and 12 + sum(16 + 8o) over the terms |
| `SegmentSizer.DeltaIsExact` | src/indexing/yappo_segment_planner_v2.c:349-368 | the increment for one term is the difference of the closed forms, changing block counts included |
| `SegmentSizer.Sizer.Add` | src/indexing/yappo_segment_planner_v2.c:389-437 | incremental accounting keeps all sizes equal to the sizes of the whole slice stated directly |
| `SegmentSizer.Sizer.Project` | src/indexing/yappo_segment_planner_v2.c:322-371 | projected sizes are those the slice would have with the unit |
| `SegmentSizer.TallyIsExact` | src/indexing/yappo_segment_planner_v2.c:322-437 | accounted term, posting and position sizes are the exact lengths of the payloads written for the slice |
| `SegmentPlanner.ComponentsInFull` | src/indexing/yappo_segment_planner_v2.c:300-320 | the accounted payload bytes of each file of a slice, by its documents, passages and tombstones; vectors are filled up to a multiple of four between ids and values |
| `SegmentPlanner.ProjectedFits` | src/indexing/yappo_segment_planner_v2.c:322-387 | true if and only if every component and count stays within the limits; reports the largest payload and the first component of that size, or limit + 1 and the documents or tombstones component when a count is exceeded |
| `SegmentPlanner.Cut` | src/indexing/yappo_segment_planner_v2.c:611-645 | how far the greedy cut goes and why it stops: to the end, before the lowest unit that does not fit the hard limit alone, with what that unit asks for, or at the 100000th slice with units left; its slices are within the target or single units, each ended because the next unit would exceed the target |
| `SegmentPlanner.MergeSmallTail` | src/indexing/yappo_segment_planner_v2.c:471-522 | the last two slices are merged exactly when the last is below half the target and every prefix of both fits the soft limit; the partition is kept |
| `SegmentPlanner.PlanSegments` | src/indexing/yappo_segment_planner_v2.c:581-653 | which arguments are invalid; otherwise the outcome is the one of `PlanIs`: the greedy cut with its last two slices merged exactly if the last is below half the target in every payload and both together fit the soft limit; or the lowest unit that alone exceeds the hard limit; or out of range, only when the cut needs more than 100000 slices.  Up to 100000 units that fit alone are always planned |
| `SegmentPlanner.PlanIsUnique` | src/indexing/yappo_segment_planner_v2.c:581-653 | for all units and policies there is one such outcome only, so the plan and every error are determined |
| `SizeOrder.PrefixWithin` | src/indexing/yappo_segment_planner_v2.c:389-437 | sizes only grow: every prefix of a slice needs at most what the slice needs |
| `SizeOrder.UnitWithin` | src/indexing/yappo_segment_planner_v2.c:322-371 | a slice needs at least what its last unit needs alone |
| `Slices.Bisect` | src/indexing/yappo_segment_planner_v2.c:542-565 | when it fails and why; otherwise one slice is halved, the others keep their place, and the plan stays an ordered partition |
| `SegmentPlanner.WriteWithRetries` | src/indexing/yappo_update_v2.c:259-294 | the write, overflow, bisect and retry loop ends; each plan tried is the one before it with its first overflowing slice halved and stays an ordered partition; the last one decides: written if it fits the manifest and nothing overflows, capacity error if the first overflowing slice has one unit, out of range if it does not fit the manifest or cannot grow |
| `PlannedSegments.PlannedSlicesRoundTrip` | src/indexing/yappo_segment_planner_v2.c:581-653 | every slice of every plan is written within the payload limit, and its segment is accepted by both validators and gives back exactly the tokens of its documents |
| `Ledger.Limiter.Acquire` | src/config/yappo_runtime_policy_v2.c:134-144 | admits exactly what both maxima allow |
| `Ledger.Limiter.Release` | src/config/yappo_runtime_policy_v2.c:146-153 | undoes the acquire that led to the present count, leaves the limiter alone when nothing of that size can be held, and keeps the maxima |
| `Ledger.ReleaseBalances` | src/config/yappo_runtime_policy_v2.c:146-153 | the release of a holder always takes effect and takes back exactly what it acquired |
| `ReactorSafety.CompletedKeeps` | src/server/yappo_core_reactor_v2.c:602-627 | completion releases the permit once, also for abandoned connections |
| `ReactorSafety.SubmittedKeeps` | src/server/yappo_core_reactor_v2.c:348-439 | a rejected submission undoes its permit, an accepted one keeps it |
| `ReactorSafety.ResetKeeps` | src/server/yappo_core_reactor_v2.c:152-170 | keep-alive releases the admission of the answered request |
| `ReactorSafety.StepKeeps` | src/server/yappo_core_reactor_v2.c:138-627 | every callback and completion keeps both ledgers and the links between connections and executions |
| `ReactorSafety.LedgersBalance` | src/server/yappo_core_reactor_v2.c:138-179 | in every state of every run both limiters count exactly the admitted connections and the held permits, within their maxima, and are empty when all connections are gone |
| `ReactorWork.WorkIsEntitled` | src/server/yappo_core_reactor_v2.c:348-439 | in every state of every run, whatever the interleaving, each piece of work belongs to a connection with a head of a known target and its method, a JSON body of the announced length within the limit (none for health); it is authorized and admitted if it writes, and holds a permit exactly if it searches |
| `ReactorWork.StepKeeps` | src/server/yappo_core_reactor_v2.c:348-627 | every callback and completion keeps that |
| `ReactorWork.SubmittedExactly` | src/server/yappo_core_reactor_v2.c:348-439 | a complete request gets work if and only if target, method, body, type and authorization are right, there is memory, a permit where one is needed, and the executor takes it; otherwise nothing is held, and it is answered or its connection is gone |
| `ReactorWork.AfterHeadExactly` | src/server/yappo_core_reactor_v2.c:513-545 | a head is read on exactly when its length is within the limit and, for writers, the limiter has room; only then it is admitted, and otherwise answered and closed |
| `ReactorWork.FlushedExactly` | src/server/yappo_core_reactor_v2.c:441-453 | a sent answer ends the connection or leaves it as new, and gives its admission back |
| `ReactorWork.HangUpExactly` | src/server/yappo_core_reactor_v2.c:455-478 | a peer that stops sending still gets the answer under way; any other end gives the socket up and keeps the record while work uses it |
| `ReactorWork.CompletedExactly` | src/server/yappo_core_reactor_v2.c:602-627 | work that comes back is answered exactly when the socket is still there and the answer could be made; otherwise the connection is freed |
| `JobRing.Ring.Push` | src/server/yappo_executor_v2.c:235-239 | stores at the tail of the ring |
| `JobRing.Ring.Pop` | src/server/yappo_executor_v2.c:61-64 | takes the oldest job |
| `JobRing.Ring.PopBatch` | src/server/yappo_executor_v2.c:96-100 | takes the oldest jobs, at most a batch |
| `ExecutorPool.Pool.TrySubmit` | src/server/yappo_executor_v2.c:219-265 | one locked section on ring and counters is exactly the submit step of the interleaved model; refused and counted if and only if the submission is of the other kind, the executor is closing or the ring is full |
| `ExecutorPool.Pool.Take` | src/server/yappo_executor_v2.c:50-101 | the worker's locked section is exactly the step that moves the oldest jobs, one or up to a batch and never none, into its hands |
| `ExecutorPool.Pool.Finished` | src/server/yappo_executor_v2.c:68-72 | the section after the jobs ran is the finish step, and the active count cannot wrap |
| `ExecutorPool.Pool.Snapshot` | src/server/yappo_executor_v2.c:267-285 | in every state the reported counts satisfy submitted = queued + active + completed |
| `Executor.StepKeeps` | src/server/yappo_executor_v2.c:50-112 | every locked section of submitters, workers and close keeps order and accounts |
| `Executor.JobsAccounted` | src/server/yappo_executor_v2.c:219-265 | in every interleaving submitted is queued plus active plus completed, jobs leave in order and exactly once, batches are non-empty and bounded |
| `Executor.CloseCompletes` | src/server/yappo_executor_v2.c:287-305 | when all workers have left, everything accepted has been completed |
| `Chunker.FindEnd` | src/common/yappo_unicode.c:161-171 | the window ends at the last sentence boundary, else the last grapheme boundary, within the maximum, or after one longer grapheme |
| `Chunker.FindNextStart` | src/common/yappo_unicode.c:189-191 | the nearest boundary that leaves the overlap, else the first one behind the old start |
| `Chunker.EndsAscend` | src/common/yappo_unicode.c:161-171 | a window that starts later never ends earlier |
| `Chunker.ChunkText` | src/common/yappo_unicode.c:146-194 | which arguments are invalid; otherwise the chunks are exactly the windows with text of a complete sequence of windows from the start of the text: each ends where `IsEnd` says, at the last sentence end within the maximum, else the last grapheme end, and the next starts at its overlap point, or at its end when it was only whitespace.  So starts strictly increase, ends never decrease, every non-whitespace code point is covered, and a chunk exceeds the maximum only as a single grapheme |
| `Chunker.CompleteIsUnique` | src/common/yappo_unicode.c:161-193 | there is one complete sequence of windows only, so text and boundaries determine the chunks |

## Left out

- File, lock, socket, mmap and event-loop calls: they appear as atomic steps that may fail or crash.
- Publishing the manifest is one atomic compare-and-publish; the source can rename the file and then fail to sync the directory.
- The look for a log that precedes an update's lock is not a step of the lifecycle: an update may start whether or not a log is there. The runs so include all of the source, where a log can appear between the look and the lock, and also some in which an update overlooks an older log.
- The event map of compaction and the term map of the planner are Dafny maps; open addressing itself is modelled in `AnnPlan` and `CandidateHash`.
- Vectors in the lifecycle: merging keeps them with their passages (`Compaction.CollectRange`), but the segments of the state machine carry none.
- Floating point: scores are exact reals, and the logarithm is any function that is positive on positive arguments.
- LexicalSearch.Search: a full disjunctive answer outside the three listed cases is only shown to be real and not overstated, because the code can lose objects there (`PruningLoss.ReliableKinds`).
- Bm25.BlockBoundsScore: does not model rounding of either side.
- LexicalValidate.ValidatePayloads: other sums of the validator are unbounded integers; they cannot wrap in the source, because block counts have 32 bits and cursors stay inside files of at most 256 MiB.
- Field lengths of 2^32 - 1 tokens, where writer and reader treat the shortest length of a block differently, cannot occur in a list that holds all tokens of its fields within the size limit.
- File headers and checksums of the three lexical files; payload offsets count from the start of the payload.
- The capacity test of every append is made once at the end of `LexicalWriter.BuildPayloads`, which fails for the same inputs because buffers only grow.
- Sizes of document, passage, metadata and vector records are inputs of the planner; only the lexical sizes are tied to written bytes.
- The reactor's shutdown drain, which frees queued executions without releasing permits; each callback is one step, although the limiter lock is held for less.
- The text and the hashed id of a chunk are not modelled, only its place.
- Text positions of the chunker count code points, where the source keeps UTF-16 offsets with a table of code point offsets.
- Tokenization, normalization and boundary rules of ICU; hashes and fingerprints are arbitrary functions, and so is the byte step of the log's checksum except in `Crc32c`.
- Selecting the range to compact (size tiers), filters, fusion of result lists, context assembly, metrics, configuration and command lines: easier members beside the above.
- Approximate nearest-neighbour search itself; only the visible key set and the split into base and delta are modelled.
