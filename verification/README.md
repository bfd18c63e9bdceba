# Verified model of the delivery service

A Dafny model of a scheduled news digest: a run collects stories, removes
duplicates, selects and packs a digest, freezes it in an SQLite outbox, and
sends it chunk by chunk to a chat.  The service's promise is that a text the
remote accepted is never sent again by itself, whatever crashes, lease
takeovers, restarts and operator verdicts lie in between; and that a restored
snapshot never sends a text again that it held when it was taken.

`dafny verify dfyconfig.toml` checks every file.

## How the model is built

- `Rows`, `Transactions`: the tables, one datatype per row, and what each store
  transaction commits as a function of them (`Err` is a rollback).
- `Store`: the class `StateStore` with the tables as fields; its methods update
  rows in place and are proved to commit exactly those functions.
- `OutboxInvariant`, `HistoryInvariant`, `Evolution`: what every transaction
  keeps, and what none ever takes back.
- `Protocol`, `ProtocolInvariant`, `ProtocolSteps`, `RunTheorems`: any number
  of processes with program counters, a clock that never goes back, crashes
  between any two calls, operators, and the texts on the wire; one joint
  invariant, and the delivery contract over every run from an empty database.
- `Spacing`: one active delivery and stories a window apart, over every run in
  which no operator verdict does harm, by an invariant that a restore keeps.
- `SampleRun`: a complete run, step by step, so that those statements are about
  something; `FailingRuns`: runs into the states they exclude.
- `SendLoop`: the send loop itself, with others free to act between its calls.
- `RestoreSwap`, `RestoreAcks`, `RestoreRuns`: the file swap of a restore under
  crashes and exceptions, the acknowledgements and history a restore must carry
  over, and the runs before and after one.
- `Ordering`, `Ranking`, `MergeOrder`, `RankingLoops`, `Selection`, `Identity`,
  `Pipeline`: deduplication, what it owes to the order of its input, selection,
  the identity queries, the pruning of history, and when what is selected can be
  frozen.
- `Packing`: the digest builder.  `Collector`: the worker scheduler.
  `SqlSplit`: the SQL splitter.

SHA-256 is symbolic, so digests are equal only when their preimages are.  Times
are integers, and a transaction reads the clock once.  A run's owner id and run
id are one number, the process id.

## What the code does not do

Properties that the code misses are stated with the exact condition under which
they hold, beside a concrete failing case.

- A run that exhausts its budget over another run's orphaned in-flight chunk
  leaves a failed delivery holding a chunk that recovery later makes ambiguous.
  An operator verdict on it revives that delivery: beside a newer active one
  (`VerdictKeepsSingleActive`, `SingleThroughoutIff`; `RevivedDeliveryIsSecond`
  is a run from an empty database that gets there), or with a story that was
  sent since (`RetryKeepsQuietIff`, `ConfirmationKeepsApartIff`;
  `RevivedStoryIsRepeated` is such a run).
- Deduplication groups titles with their source stripped, the frozen fingerprint
  leaves the source out, and the capped pick compares neither: two selected
  items can share a fingerprint, `prepare_delivery` then raises, and the run
  fails the day's delivery (`PipelineFreezesIff`, `DistinctForAllSettingsIff`;
  `SourcedTitleIsRefused`: "5G - Kompas Tekno" from "Kompas Tekno" beside "5G
  Kompas Tekno" from another source).
- An asynchronous exception between a rename of the restore and the assignment
  that records it defeats the rollback: an old journal can end up beside the
  new database (`RollbackIsAllOrNothing`, `NewDatabaseBesideOldJournal`).
- A crash after a sidecar without a database was quarantined leaves it there:
  the target is neither as it was nor restored (`CrashIsAllOrNothing`,
  `QuarantinedJournalStays`).
- The history merge of a restore compares stories without their dates: a story
  sent before the backup and again after it keeps only its old date
  (`HistoryCarriedIff`, `ResentStoryForgotten`).
- A restore that acknowledges any chunk also completes every unfinished delivery
  without chunks, failed ones included (`ChunklessConcludedIff`,
  `FailedBecomesComplete`); for a snapshot of the same database it never does,
  unless an operator revived a delivery (`SnapshotKeepsChunkless`).
- Deduplication depends on input order exactly when two usable items of one URL
  and one quality do not merge alike: title, URL, source, origin and summary
  must agree, hosts, dates and topics agree or be missing from one, and the
  matches unite to the same list (`OrderIsIgnoredIff`; `TwoQueriesShowTheOrder`:
  one article found by two search queries).
- Pruning with a retention shorter than a window in force forgets rows that
  still count (`PruningIsInvisibleIff`, `ShortRetentionForgets`).
- The error classes allowlisted for a terminal retry are never stored by a run,
  so the documented operator retry of a refused chunk never applies
  (`RefusedChunkStaysRefused`).

## Model

| member | source | states |
|---|---|---|
| `RunTheorems.AtMostOncePerAuthorization` | `meco_news/storage.py:1422-1610` | over every run, a chunk's attempts that are not definite rejections, and so its texts accepted by the remote, number at most one more than its audited `retry` verdicts on an ambiguous state |
| `RunTheorems.AcceptedTextIsNotResent` | `meco_news/app.py:917-1108` | when a process transmits a chunk, earlier accepted texts of that chunk number at most its audited retries: none without an operator |
| `RunTheorems.LapsedRunChangesNothing` | `meco_news/storage.py:1123-1139` | a process past start-up whose lease is not live leaves every table as it is, whatever it does |
| `RunTheorems.LapsedForever` | `meco_news/storage.py:1036-1102` | a lease that lapsed is never live again for that process, through any later events of anyone |
| `Spacing.AtMostOneActiveDelivery` | `meco_news/app.py:597-728` | as long as no verdict revives a failed delivery beside an active one and leaves it something to send, at most one delivery is ever non-terminal, although the check and the creation are separate transactions |
| `Spacing.SingleThroughoutIff` | `meco_news/app.py:597-728` | over every run, at most one delivery is non-terminal after each part of it exactly when no verdict of the run does so |
| `RunTheorems.VerdictKeepsSingleActive` | `meco_news/storage.py:1898-2006` | an operator verdict breaks the single active delivery exactly when it moves a chunk of a failed delivery, is a `retry` or leaves another of its chunks unsent, and some delivery is active |
| `RunTheorems.TerminalForever` | `meco_news/storage.py:1833-1851` | unless an operator revives one, a delivery that failed or completed keeps that state through every later event |
| `FailingRuns.RevivedDeliveryIsSecond` | `meco_news/app.py:888-945` | a run from an empty database, by three processes and two crashes, after which a `retry` verdict makes a second active delivery |
| `Spacing.NoStoryTwice` | `meco_news/storage.py:1612-1621` | unless a verdict revives a failed delivery while another is active, or with an unsent item that the history by then excludes, two history rows of one URL are more than the URL window apart, and of one title more than the title window |
| `Spacing.RetryKeepsQuietIff` | `meco_news/storage.py:1972-1977` | a `retry` that revives a failed delivery keeps one active delivery, with items still unseen, exactly when none is active and the unsent items of the revived one are still unseen |
| `Spacing.ConfirmationKeepsApartIff` | `meco_news/storage.py:1612-1621` | recording a confirmed chunk keeps all rows a window apart exactly when its stories were unseen until then and share no URL (or the URL window is negative) |
| `FailingRuns.RevivedStoryIsRepeated` | `meco_news/storage.py:1898-2006` | a run from an empty database in which the stranded story is delivered anew, after which a `sent` verdict on the stranded chunk records it a second time at the same time |
| `RunTheorems.UnsentChunkBlocksLater` | `meco_news/storage.py:1436-1461` | chunks of a delivery read sent*, one in any state, then pending and never attempted; a chunk after an unsent one cannot begin |
| `RunTheorems.UnresolvedChunkStopsDelivery` | `meco_news/storage.py:1201-1214` | an ambiguous, refused or in-flight chunk stops every begin in its delivery |
| `RunTheorems.OneInFlightPerDelivery` | `meco_news/storage.py:1454-1473` | at most one chunk of a delivery is in flight |
| `RunTheorems.CompletedExactlyWhenSent` | `meco_news/storage.py:1566-1595` | a delivery is completed or completed_empty exactly when it has chunks and all are sent, and completed_empty exactly when it has no items |
| `RunTheorems.CompletedForever` | `meco_news/storage.py:1833-1851` | a completed delivery keeps its verdict, items and history through every later event |
| `RunTheorems.ChunkFrozenForever` | `meco_news/storage.py:1274-1351` | a frozen text and its hash never change, and a sent chunk stays sent |
| `RunTheorems.AttemptsAreLedgered` | `meco_news/storage.py:1454-1473` | a chunk's attempts are numbered 1 to attempt_count; one is open exactly when the chunk is in flight, and it is the last |
| `RunTheorems.FrozenBudgetHolds` | `meco_news/storage.py:1711-1798` | every delivery has a policy frozen at creation, and no chunk's attempts exceed it, over restarts, config reloads and operator retries |
| `RunTheorems.HistoryIsWhatWasSent` | `meco_news/storage.py:1612-1621` | an item has a history row for its delivery exactly when the chunk its chunk_index names is sent |
| `RunTheorems.RefusedChunkStaysRefused` | `meco_news/storage.py:1924-1949` | no operator verdict is ever accepted on a failed_terminal chunk of a run |
| `ProtocolSteps.StepSafe` | `meco_news/app.py:597-1163` | every event of the protocol keeps the joint invariant of tables, processes and wire, and takes nothing back |
| `ProtocolSteps.RunSafe` | `meco_news/app.py:597-1163` | the joint invariant holds after every run from an empty database |
| `SampleRun.SomeRunDelivers` | `meco_news/app.py:597-1108` | a run exists that freezes a story, sends it, records it and completes its delivery |
| `OutboxInvariant.FinishKeepsOutbox` | `meco_news/storage.py:1496-1610` | recording an outcome keeps shape, ledger, accounting and verdict |
| `OutboxInvariant.ResolveKeepsOutbox` | `meco_news/storage.py:1898-2006` | so does an operator verdict |
| `OutboxInvariant.RecoverKeepsOutbox` | `meco_news/storage.py:1183-1220` | so does lease recovery, which makes every in-flight chunk ambiguous |
| `OutboxInvariant.PrepareKeepsOutbox` | `meco_news/storage.py:1274-1351` | so does freezing a delivery |
| `HistoryInvariant.FinishKeepsHistory` | `meco_news/storage.py:1566-1621` | history stays one row per item of each sent chunk, and nothing else |
| `Store.StateStore.AcquireLease` | `meco_news/storage.py:1036-1070` | refinement of `Transactions.Acquire`: the lease unless another owner's is live, nothing otherwise |
| `Store.StateStore.HeartbeatLease` | `meco_news/storage.py:1072-1089` | extends a live lease of the caller, or fails and changes nothing |
| `Store.StateStore.RecoverExpiredLease` | `meco_news/storage.py:1183-1220` | the row loop commits the recovery of all in-flight chunks at once, and nothing while a lease is live |
| `Store.StateStore.CreateDelivery` | `meco_news/storage.py:907-1001` | refinement of `Transactions.Create`: one collecting delivery with its frozen policy, or nothing |
| `Store.StateStore.PrepareDelivery` | `meco_news/storage.py:1274-1351` | commits items, chunks with their hashes and the new state together, or nothing |
| `Store.StateStore.DueChunks` | `meco_news/storage.py:1411-1420` | exactly the chunks that are due, in sequence order |
| `Store.StateStore.BeginChunkAttempt` | `meco_news/storage.py:1422-1494` | commits the in-flight chunk, its attempt row and the delivery's state together, or nothing |
| `Store.StateStore.FinishChunk` | `meco_news/storage.py:1496-1610` | commits outcome, history and verdict together, or nothing |
| `Store.StateStore.FailDelivery` | `meco_news/storage.py:1833-1851` | fails a delivery unless it is terminal or awaits an operator |
| `Store.StateStore.ReopenForCollection` | `meco_news/storage.py:1875-1896` | refinement of `Transactions.ReopenForCollection`: a due retry_wait delivery returns to collecting, or nothing |
| `Store.StateStore.MarkTargetMismatch` | `meco_news/storage.py:1245-1272` | refinement of `Transactions.MarkTargetMismatch`: a delivery whose destination changed is blocked, or nothing |
| `Store.StateStore.ResolveChunk` | `meco_news/storage.py:1898-2006` | commits the audited verdict with its chunk, history and delivery, or nothing |
| `Store.StateStore.ReconcileDelivery` | `meco_news/storage.py:2008-2071` | refinement of `Transactions.Reconcile`: a wholly unsent delivery whose destination matches again is resumed, or nothing |
| `SendLoop.OthersInterfere` | `meco_news/app.py:597-1163` | every event that is not the process's own leaves the tables alone while that process's lease is live, and keeps them safe otherwise |
| `SendLoop.Sender.SendAll` | `meco_news/app.py:888-1108` | the loop terminates: each pass returns or leaves strictly fewer unsent chunks; it reports completion only when every chunk is sent, and the empty verdict only without items |
| `SendLoop.Sender.SendOne` | `meco_news/app.py:917-1108` | one chunk through budget check, begin, transmit and finish: confirmed, it is the one chunk gone from the unsent ones; otherwise the run stops without reporting completion |
| `SendLoop.Sender.HandleException` | `meco_news/app.py:1109-1158` | the exception path keeps the tables safe and never reports completion |
| `RestoreSwap.CrashIsAllOrNothing` | `meco_news/backup.py:634-707` | a crash after any step and one recovery pass leave the old database with exactly its sidecars or the new one with none; without a database at the target exactly unless a sidecar was already quarantined |
| `RestoreSwap.RollbackIsAllOrNothing` | `meco_news/backup.py:684-707` | an exception after any step and the rollback do so exactly when the exception did not fall between a rename and its bookkeeping; no old file is ever lost |
| `RestoreSwap.NewDatabaseBesideOldJournal` | `meco_news/backup.py:680-697` | a concrete exception after which the rollback leaves the new database in place and the old journal beside it |
| `RestoreSwap.QuarantinedJournalStays` | `meco_news/backup.py:644-683` | a concrete crash, without a database at the target, after which the journal stays in quarantine and recovery finds nothing to do |
| `RestoreSwap.RecoveryCalms` | `meco_news/storage.py:57-100` | after a recovery pass nothing is left to repair, and a second pass changes nothing |
| `RestoreSwap.Restore.Swap` | `meco_news/backup.py:644-683` | wherever it is interrupted, disk and memory are exactly those of the stage reached |
| `RestoreSwap.Restore.RollBack` | `meco_news/backup.py:684-704` | the exception handler computes the rollback of the remembered renames |
| `RestoreSwap.Restore.Recover` | `meco_news/backup.py:372-404` | start-up recovery computes its specification, finding included |
| `RestoreSwap.Restore.Run` | `meco_news/backup.py:634-707` | a whole restore under any interruption: replaced when it completes, otherwise as the two results above say |
| `RestoreAcks.EveryChunkSentIffKnown` | `meco_news/backup.py:423-498` | an accepted restore leaves every chunk sent exactly when the target holds each text the backup thinks unsent, under the same id |
| `RestoreAcks.EveryVerdictFollows` | `meco_news/backup.py:476-489` | then every delivery with chunks is completed |
| `RestoreAcks.SnapshotRestoreForgetsNothing` | `meco_news/backup.py:609-655` | restoring any earlier snapshot of the same database, at any point of any run, leaves the snapshot's chunks sent and its deliveries with chunks completed in the restored tables |
| `RestoreRuns.RestoredSnapshotStaysSent` | `meco_news/backup.py:587-707` | in every run that starts from those tables, each chunk of the snapshot stays sent with its text, and no event puts a text of it on the wire |
| `RestoreRuns.FreshlyRestoredStaysHeld` | `meco_news/backup.py:547-584` | after a restore without a target, in every later run, a chunk keeps its state and text and no text of it goes out, until an operator decides on it |
| `RestoreRuns.ChunklessConcludedIff` | `meco_news/backup.py:476-489` | an accepted restore completes an unfinished delivery without chunks exactly when the target acknowledges any chunk of the backup |
| `RestoreRuns.SnapshotKeepsChunkless` | `meco_news/backup.py:423-498` | for a snapshot of a run in which no operator revived a delivery, it completes none |
| `RestoreRuns.FailedBecomesComplete` | `meco_news/backup.py:476-489` | two runs whose databases, one restored over the other, turn a failed delivery without chunks into a completed one |
| `RestoreAcks.FreshRestoreHoldsEverything` | `meco_news/backup.py:547-584` | without a target, what was sendable is held ambiguous and its delivery awaits an operator unless terminal, every other row and table is as in the backup, and no chunk can begin |
| `RestoreAcks.HistoryCarriedIff` | `meco_news/backup.py:501-544` | a history row of the target is carried over exactly when the backup has no row of that story, or one as recent |
| `RestoreAcks.RestoredHistoryExcludes` | `meco_news/backup.py:501-544` | when every row is carried over, the restored history excludes every story the target's would |
| `RestoreRuns.ResentStoryForgotten` | `meco_news/backup.py:516-522` | two runs, the second after the snapshot: a story they both sent looks unsent after the restore, although the database restored over excludes it |
| `RestoreRuns.RestoredStoriesStayApart` | `meco_news/backup.py:501-544` | a snapshot restored over any later state: in every run from the restored tables in which no verdict does harm, all history rows stay a window apart, and every new row is a window apart from each row of the database restored over that was carried, in the sense of `HistoryCarriedIff` |
| `RestoreRuns.FreshlyRestoredStoriesStayApart` | `meco_news/backup.py:547-584` | a snapshot restored without a target: in every such run the snapshot's rows and all new ones stay a window apart |
| `RestoreAcks.MergePostBackupHistory` | `meco_news/backup.py:501-544` | adds exactly the missing rows under one recovery delivery, refuses when two share a title, and changes nothing when it refuses |
| `RestoreAcks.ReconcileRestoredAcks` | `meco_news/backup.py:423-498` | the row loops carry over exactly the acknowledgements with equal hashes, count them, and conclude the deliveries they complete |
| `Identity.IdentityKeys` | `meco_news/storage.py:750-785` | the batches of 400 answer as one unbatched query |
| `Identity.UnseenIsNotFound` | `meco_news/storage.py:750-785` | a story is excluded by history exactly when one of its keys is in the answer |
| `Identity.PruningIsInvisible` | `meco_news/storage.py:2125-2218` | with a retention no shorter than the windows in force, pruning changes no identity answer, now or later |
| `Identity.PruningIsInvisibleIff` | `meco_news/storage.py:2125-2218` | it changes no answer of any reachable state exactly when the retention is that long |
| `Identity.ShortRetentionForgets` | `meco_news/storage.py:2125-2218` | with a retention shorter than the URL window, or than a title window in force, a run delivers a story that pruning makes look unsent |
| `Identity.UnresolvedIsKept` | `meco_news/storage.py:2157-2176` | a delivery that a run or an operator still owns keeps every attempt and history row |
| `Identity.PruneHistory` | `meco_news/storage.py:2125-2218` | a preview changes nothing; an applied run deletes exactly the rows it counts |
| `MergeOrder.DeduplicationIgnoresOrder` | `meco_news/ranking.py:241-344` | any rearrangement of the input gives the same output sequence and statistics, if tied items of one URL merge alike |
| `MergeOrder.OrderIsIgnoredIff` | `meco_news/ranking.py:241-344` | all lists drawn from a set of items come out alike in every order exactly when any two tied items of one URL in it merge alike |
| `MergeOrder.PairMergesAlike` | `meco_news/ranking.py:208-236` | two tied items merge to one item either way exactly when title, URL, source, origin and summary agree, hosts, dates and topics agree or are missing from one, and the matches unite to the same first 20 |
| `MergeOrder.TiesShowTheOrder` | `meco_news/ranking.py:241-344` | two tied items of one URL alone come out alike in both orders exactly when they merge alike |
| `MergeOrder.TwoQueriesShowTheOrder` | `meco_news/ranking.py:208-236` | one concrete article, ranked under the shipped watchlist, found by two search queries: the output names the query that came first |
| `Ranking.OnlyProvenDuplicatesDropped` | `meco_news/ranking.py:290-334` | a missing candidate is similar to some output item, kept items are pairwise dissimilar, comparisons never exceed the budget, and the pass stops early only when it is spent |
| `Ranking.OutputIsDistinct` | `meco_news/ranking.py:241-344` | canonical URLs and titles of the output are distinct, and budget_exhausted holds exactly when unprocessed items exist |
| `Ranking.EveryInputIsRepresented` | `meco_news/ranking.py:241-344` | every usable input item has a URL representative whose title representative is in the output or similar to an output item |
| `Ranking.MergeKeepsIdentity` | `meco_news/ranking.py:208-236` | a merged item has the identity of a best member, and a host, a date, a topic and a longest summary if any member has |
| `RankingLoops.Deduplicate` | `meco_news/ranking.py:241-344` | the loops compute the specification the lemmas are about, statistics included |
| `RankingLoops.Cluster` | `meco_news/ranking.py:292-333` | the budgeted fuzzy pass: kept items, unprocessed suffix and comparison count |
| `Selection.SelectDigest` | `meco_news/ranking.py:356-421` | the two picking loops compute the selection, counters and early exits included |
| `Selection.CappedKeepsCaps` | `meco_news/ranking.py:402-410` | the capped pick never exceeds the topic or the domain cap |
| `Selection.FilledIs` | `meco_news/ranking.py:412-421` | the fill extends the capped pick with candidates above the fallback score, and stops short of the minimum only when none with a new fingerprint is left |
| `Selection.SelectionIsSound` | `meco_news/ranking.py:356-421` | every selected item is fresh, on topic, unsent and above a threshold, URLs stay distinct, and the daily maximum holds |
| `Pipeline.PipelineIsSelectable` | `meco_news/app.py:208-247` | deduplicating, asking the history and selecting yields distinct URLs and nothing the history excludes |
| `Pipeline.PipelineFreezesIff` | `meco_news/storage.py:1304-1306` | on a delivery that may be frozen, prepare_delivery accepts such a selection exactly when the capped pick took no two candidates of one fingerprint |
| `Pipeline.DistinctForAllSettingsIff` | `meco_news/ranking.py:356-421` | under all caps, limits and thresholds the selection has distinct fingerprints exactly when the eligible items handed in have |
| `Pipeline.SparedTitlesFreeze` | `meco_news/ranking.py:252-255` | items that agree on the title without its source only if they agree on it with the source always yield distinct fingerprints |
| `Pipeline.TwinsAreRefused` | `meco_news/storage.py:1304-1306` | two usable ranked items of one fingerprint but unlike titles and URLs are selected together, whatever the limits of the deduplication, by settings with room for both, and then no database, map or messages lets them be frozen |
| `Pipeline.SourcedTitleIsRefused` | `meco_news/models.py:20-29` | two concrete headlines, as the ranker leaves them under the shipped watchlist, that are refused so under the shipped settings |
| `Packing.BuildDigest` | `meco_news/telegram.py:427-529` | included and omitted stories split the input in order, the map is in range, nondecreasing and leads to a message holding the story, messages close and stories are omitted only for want of room, every message is within the limits before validation, and validation can then only refuse markup or a unit limit above the remote's |
| `Packing.FitBlock` | `meco_news/telegram.py:313-336` | the first form of a story that stays within both limits after the prefix, or the proof that none does |
| `Packing.FrozenChunkHoldsStory` | `meco_news/storage.py:1304-1339` | once frozen, the chunk an item row names carries a text in which that story's block stands |
| `Collector.Scheduler.CollectAll` | `meco_news/collectors.py:786-935` | the scheduler terminates and, unless a worker exhausts memory or cannot be reaped, returns one verdict per job in id order, its own if ids are distinct; workers are left running only by one that cannot be reaped at the cycle deadline |
| `Collector.Scheduler.StartEligible` | `meco_news/collectors.py:821-847` | afterwards no job waits whose host has room while a slot is free, unless the deadline passed; waiting, running and finished jobs still are all the jobs |
| `Collector.Scheduler.Visit` | `meco_news/collectors.py:849-912` | a worker that is through is reaped and leaves its slot with a verdict that carries data exactly when it delivered; the host counters stay the true numbers |
| `Collector.Scheduler.TimeOut` | `meco_news/collectors.py:915-925` | at the cycle deadline every unfinished job gets the deadline verdict, unless a worker cannot be reaped: then it and those not yet stopped run on |
| `SqlSplit.SplitSqlStatements` | `meco_news/storage.py:166-266` | the flag scan computes the splitting defined by tokens |
| `SqlSplit.PiecesEndAtTopLevel` | `meco_news/storage.py:166-266` | the cuts fall exactly at semicolon tokens outside strings, comments and BEGIN ... END |
| `SqlSplit.RestEnds` | `meco_news/storage.py:185-200` | a comment token ends at its first closing mark, or with the text |
| `SqlSplit.QuotedEnds` | `meco_news/storage.py:201-224` | a quoted token ends at its first unpaired quote, doubled quotes paired off from the left of each run, or with the text |
| `SqlSplit.PiecesRejoin` | `meco_news/storage.py:166-266` | the pieces before the blank filter, rejoined with semicolons, are the input |
| `SqlSplit.SplitJoinSplit` | `meco_news/storage.py:166-266` | splitting what was split and joined changes nothing |

## Left out

- SQLite itself, connections, fsync and the migration catalog: each transaction is atomic and durable.
- Maintenance locks: operator verdicts and restores happen only while no runtime holds the store open.
- HTTP, DNS, TLS and the chat API: sending is a choice of the world whose definite rejections mean the text was not accepted.
- Parsing of feeds, Unicode normalisation, `urlsplit`, `SequenceMatcher` and HTML escaping: functions about which nothing is assumed.
- Spawned processes, pipes and pickling: a worker delivers, fails, dies or stays silent as the world decides.
- CLI, logging, metrics, alerts, preflight, scoring of single items, retention planning and manifests: they only add one-branch facts.
- `ensure_collection_retry`, `start_run`, `complete_run` and `fail_run`: no run calls them.
- The choices of `run_once` that only end a run early (forced generations refused, deferred retries, stop requests) are allowed to a process at more points than the code takes them; failing a delivery is allowed only where the code does, and during collection for any reason.
- Error texts, sanitising and truncation, and the retry observation columns other than the first attempt time.
- The collection budget: the attempt is recorded before the check, so it can be exceeded under repeated crashes.
- Texts with lone surrogates: a Dafny character is a Unicode scalar.
- A second crash inside recovery, and a failing rename inside the rollback, of a restore.
- RestoreSwap.Restore.Swap: the choice of free names for parked files is a precondition, not a search.
- RestoreAcks.ReconcileRestoredAcks: the start time of the inserted attempt is the sending time, because last_attempt_at is not a modelled column.
- Identity.PruneHistory: source results and collection attempts are not modelled rows.
- Packing.BuildDigest: the overflow branch at telegram.py:489-501, which is never taken because the block was already measured with the separator; the reason recorded with an omitted story, and the texts of headers, blocks and notes, which are a renderer's.
- Selection.SelectDigest: explicit `sent_fingerprints`, which the delivery path leaves empty.
