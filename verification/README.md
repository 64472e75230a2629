# The futures order-book recorder: a model with proofs

The program keeps a local copy of an exchange order book from a lossy stream of depth updates and REST
snapshots, records everything it hears, replays what it recorded, and derives streaming analytics
(flow, liquidity, clusters, sweeps, a price by time heatmap) that a browser shows. The modules here
model those parts in Dafny and prove what they are for:

- **Synchronization** (`Synchronization`, `OrderBooks`, `DepthFeed`, `Exchange`, `SyncSafety`, `SyncEpisodes`,
  `SyncConnections`, `SyncExactness`, `SyncProgress`, `SyncCounts`). An exchange is a ghost history of single-level
  changes, and its messages may be lost, repeated or reordered. If every connection delivers contiguous events, then in
  every run of fetches that do not overlap, across any number of connections, a ready synchronizer means that the
  local book is the exchange's book at the last applied update id. Without that the property needs the pair of events
  that the code does not check to overlap (or to pass the documented check); for overlapping fetches the exact guards
  of each step are given. The failing runs are theorems too.
- **Record and replay** (`Levels`, `Rows`, `Recording`, `RecordingRuns`, `RecordedSnapshots`, `RecordedShutdowns`,
  `RecordedCounts`, `LiveSession`, `Replay`, `ReplaySimulation`, `ReplayOutcome`, `ReplayRanges`, `ReplayCounts`,
  `RecordedReplay`, `Trades`). The bounded queue and the retrying worker lose, add and reorder no row that they
  accepted, and snapshots exactly when one is overwritten; regrouping inverts flattening; replaying the stored tables
  reproduces the live run, with the same trades accepted in the same order.
- **Streaming equals batch** (`Flow`, `FlowBatches`, `FlowRuns`, `Liquidity`, `Pairings`, `Replenishment`,
  `LiquidityRecords`, `Clusters`, `ClusterRuns`, `ClusterCuts`, `Sweeps`, `SweepRuns`, `Absorption`, `AbsorptionRuns`,
  `Heatmaps`, `HeatmapBatches`, `HeatmapCells`, `HeatmapFrames`, `Shadow`, `ShadowLevels`, `ShadowPrices`). Every
  aggregate that is updated in place is what its inputs, listed and taken together, say it should be, and pruning is
  unobservable.
- **The engine** (`Engine`, `EngineRuns`, `EngineSnapshots`, `EngineCounts`, `EngineBook`, `EngineFlow`, `EngineHeat`,
  `EngineParts`, `EngineAbsorption`). Over whole runs each part of the engine is the one that heard exactly the trades and changes of
  the events, and snapshots come exactly when they are due.
- **Live and replayed analytics** (`HeatmapAlike`, `EngineTwins`, `LiveAnalytics`). The engine is fed differently by
  the two drivers; what it computes alike in every run, and when its whole state is the same, is decided exactly.
- **Frame differences** (`HeatmapDeltas`, `HeatmapPatches`). Patching with the differences that the engine computes
  restores the map from prices to cells over any sequence of frames; when it restores the whole frame is decided
  exactly.

Objects whose methods update fields are classes; each method is proved against a specification
function, and the theorems are about those functions and about runs of them. `Prelude`, `Sums` and
`Wire` hold shared vocabulary.

## Where the code and its documentation differ

- **The first pair after the bridge** (src/orderbook/synchronizer.rs:263-285, against README.md:90).
  Reconciliation does not check that the event after the bridging event continues it. The model does
  what the code does. `SyncEpisodes.LostEventGoesWrong` is a run of one fetch that ends ready over a wrong book.
  `SyncExactness.OverlapGuardExact` gives the exact condition on update ids under which the result is right for every
  exchange history, for a book at any id, and `SyncEpisodes.ChainedPairOverlaps` shows that the documented check
  implies it.
- **Overlapping fetches** (src/main.rs:471-545,633-728). A connection lost and opened again while a fetch is under way
  starts a second one. `SyncEpisodes.OverlappingFetchesGoWrong` ends ready over a wrong book although the pair
  overlaps; `SyncSafety.SnapshotUnderReadyExact` and `SyncExactness.OverlapGuardExact` say exactly when the two steps
  concerned are harmless.
- **A live event handed over while buffering** is counted twice as received (src/orderbook/synchronizer.rs:161-162,196),
  which the drivers never do: `SyncCounts.LiveEventExactly`.
- **Events outside Buffering** (src/orderbook/synchronizer.rs:152-157, against src/main.rs:740-745) are
  dropped, not buffered: `SyncSafety.LoadingIgnoresDepth`.
- **A lost connection before reconciliation** leaves a ready synchronizer over an uninitialized book
  (src/main.rs:557-569), and it stays so for as long as the stream goes on without a gap:
  `SyncProgress.LostConnectionRun`, `SyncProgress.LostConnectionIsReachable`.
- **A refused event in a resynchronization** is skipped (src/main.rs:699-705), while the first fetch gives up at it.
  If at most the last event is refused both leave the same book (`DepthFeed.TryingIsApplying`), and they end at the
  same id if and only if no event that parses comes after a refused one (`DepthFeed.SameIdExactly`);
  `DepthFeed.PathsMayDiffer` is a case where they do not.
- **The stale branch for live events** (src/orderbook/synchronizer.rs:180-189) is never taken for events
  of the exchange, since the chain check comes first: `SyncSafety.RunNeverStale`.
- **`cvd_end` of a bucket** includes the trade that closes the bucket (src/analytics/flow.rs:121-132,203):
  part of `FlowBatches.StreamingEqualsBatch`.
- **`levels_crossed`** counts price changes (src/analytics/clusters.rs:123-124). It is the number of distinct prices if
  and only if no price is left and returned to: `ClusterRuns.LevelsAreDistinctPricesExactly`.
- **The monotonic flag** tests each move against the side that leads at that moment (src/analytics/clusters.rs:125-131).
  It can be missing on a rising run that buyers end up leading (`ClusterRuns.LeaderMayFlip`) and be set on a run that
  rises and falls back (`ClusterRuns.ReversalKeepsFlag`), which then passes for a sweep (`Sweeps.ReversalIsAccepted`).
  `ClusterRuns.MonotonicExactly` says exactly when the flag means sorted prices.
- **Patched frames** (frontend/src/state/store.ts:277-317). Summary counters never fall, so that after pruning they
  exceed the engine's (`HeatmapPatches.PrunedTradeStaysCounted` for any pruned trade;
  `HeatmapDeltas.CountersReachLastFrame` gives the exact condition). Timestamp, ranges, level count and bucket count
  stay those of the first frame, and a price that has cells in two buckets keeps one
  (`HeatmapPatches.PatchedCellsExactly`). `HeatmapPatches.PatchIsExact` and `HeatmapPatches.FramesRestoredExactly` say
  exactly when a patched frame is the engine's.
- **On shutdown the worker drains everything** (README.md:191-192, against src/recording/recorder.rs:127-135): a record
  accepted between the drain and the end of the last flush is neither dropped nor stored.
  `RecordedShutdowns.LateRowIsLost` and `RecordedShutdowns.LateSnapshotIsLost` are such runs, the latter through a fetch
  that is still under way (src/main.rs:491,684). `RecordedShutdowns.ShutdownStoresAllExactly` and
  `RecordedShutdowns.ShutdownStoresAllSnapshotsExactly` say that nothing else is missing.
- **A pending snapshot is overwritten by the next** (src/recording/worker.rs:121).
  `RecordedSnapshots.PendingSnapshotIsLost` is such a run, and `RecordedSnapshots.SnapshotsConservedExactly` says that
  nothing else loses an accepted snapshot.
- **Retention shorter than the replenishment window** makes pruning observable
  (src/analytics/liquidity.rs:225-236): `Replenishment.ShorterRetentionIsObservable`.
- **Reprinting is the identity only on the print grid**, prices with two and quantities with four
  decimals (src/orderbook/level.rs:58-67): `Levels.PriceRoundTrip` and `Levels.QuantityRoundTrip` are
  if-and-only-ifs, and the replay theorems assume numbers on the grid.
- **A depth event without a level that parses** is heard live and never recorded (src/recording/recorder.rs:257). A
  replay ends where the live run ended if and only if there was none: `ReplayOutcome.ReplayReproducesExactly`, with
  `ReplayOutcome.EmptyEventIsForgotten` for the other case.
- **The same analytics live and in replay** (src/analytics/engine.rs:4-5). The live driver announces
  resynchronizations and seeds the shadow book only after a successful reconciliation (src/main.rs:525-534,633,707-716);
  the replay driver announces none and seeds after every snapshot (src/replay/engine.rs:124-137).
  `LiveAnalytics.AnalyticsAgree` lists what is the same in every run, `LiveAnalytics.SmoothIsExact` when all is, and
  `LiveAnalytics.FailedReconciliationSeparates` is a family of runs where it is not.
- **A zero for a level that is not displayed** still counts as a change of the shadow book
  (src/analytics/book.rs:140-147), and makes an empty cell in the heatmap: `ShadowLevels.ChangesLead`,
  `EngineHeat.EngineHeatmapIsStreamed`.
- **The book's comment on negated keys** (src/orderbook/book.rs:20) does not hold: keys are plain prices.

## Model

| member | source | states |
|---|---|---|
| Levels.PriceRoundTrip | src/orderbook/level.rs:42-61 | a price printed with two decimals parses back to itself if and only if it is a multiple of 1 000 000 ticks |
| Levels.QuantityRoundTrip | src/orderbook/level.rs:51-67 | a quantity printed with four decimals parses back to itself if and only if it is a multiple of 10 000 ticks |
| Levels.ParseExact | src/orderbook/level.rs:42-56 | a numeral with at most eight decimals is never rounded |
| Levels.ParseIsNearest | src/orderbook/level.rs:42-56 | every numeral becomes the nearest number of ticks, a negative one zero |
| OrderBooks.OrderBook.ApplySnapshot | src/orderbook/book.rs:59-98 | the whole new book: positive levels of the snapshot, its id, initialized; a number that does not parse stops it where the code stops |
| OrderBooks.OrderBook.ApplyDepthUpdate | src/orderbook/book.rs:103-137 | absolute quantities overwrite, zero removes, an uninitialized book refuses |
| OrderBooks.OrderBook.VerifyInvariants | src/orderbook/book.rs:241-266 | the verdict: uncrossed and without zero levels |
| OrderBooks.OrderBook.constructor | src/orderbook/book.rs:40-47 | a new book is empty and not initialized |
| OrderBooks.OrderBook.Clear | src/orderbook/book.rs:50-56 | clearing makes it so again |
| OrderBooks.OrderBook.SetInitialized | src/orderbook/book.rs:236-238 | only the flag changes |
| OrderBooks.OrderBook.BestBid | src/orderbook/book.rs:140-145 | the highest bid, none if and only if there are none |
| OrderBooks.OrderBook.BestAsk | src/orderbook/book.rs:148-150 | the lowest ask, none if and only if there are none |
| OrderBooks.OrderBook.Snapshot | src/orderbook/book.rs:177-199 | all levels of both sides with their quantities, best first |
| OrderBooks.OverlayQuantity | src/orderbook/book.rs:103-137 | after an update a level displays its last mention in the message, or what it displayed before |
| OrderBooks.OverlayOrderIrrelevant | src/orderbook/book.rs:103-137 | with one mention a price, the order of a message does not matter |
| OrderBooks.BookKeepsNoZeros | src/orderbook/book.rs:59-137 | neither kind of message ever leaves a zero level in the book |
| OrderBooks.ListingCovers | src/orderbook/book.rs:177-199 | the listing of a side shows every level |
| Synchronization.Synchronizer.OnConnected | src/orderbook/synchronizer.rs:126-135 | connecting empties the buffer and the per-connection counters and forgets the last applied id |
| Synchronization.Synchronizer.OnReconnecting | src/orderbook/synchronizer.rs:138-142 | only phase and reconnect count change |
| Synchronization.Synchronizer.BufferEvent | src/orderbook/synchronizer.rs:152-157 | events are kept while buffering and dropped otherwise |
| Synchronization.Synchronizer.ProcessLiveEvent | src/orderbook/synchronizer.rs:161-209 | applied exactly if the chain continues and the event is newer; every other outcome with its counter |
| Synchronization.Synchronizer.Reconcile | src/orderbook/synchronizer.rs:219-304 | the state and the events handed out, or no bridging event, as a function of the buffer and the snapshot id |
| Synchronization.Synchronizer.TriggerResync | src/orderbook/synchronizer.rs:307-313 | back to buffering with an empty buffer |
| Synchronization.Synchronizer.constructor | src/orderbook/synchronizer.rs:99-112 | disconnected, empty, all counters zero |
| Synchronization.Synchronizer.OnConnecting | src/orderbook/synchronizer.rs:120-123 | only the phase changes |
| Synchronization.Synchronizer.OnSnapshotLoading | src/orderbook/synchronizer.rs:145-148 | only the phase changes |
| Synchronization.Synchronizer.Shutdown | src/orderbook/synchronizer.rs:316-319 | only the phase changes |
| Synchronization.Synchronizer.DropStale | src/orderbook/synchronizer.rs:231-238 | the loop that discards exactly the events before the snapshot and counts them as ignored |
| Synchronization.Synchronizer.FindBridge | src/orderbook/synchronizer.rs:241-251 | the loop that finds the first bridging event |
| Synchronization.Synchronizer.CollectRun | src/orderbook/synchronizer.rs:263-285 | the loop that collects the events handed out |
| Synchronization.Synchronizer.Finish | src/orderbook/synchronizer.rs:287-301 | counters, last applied id, empty buffer, Ready |
| Synchronization.StaleCount | src/orderbook/synchronizer.rs:231-238 | exactly the leading events that end before the snapshot are discarded |
| Synchronization.BridgeIndex | src/orderbook/synchronizer.rs:241-261 | the first event that spans the snapshot id, and none if none does |
| Synchronization.ChainLength | src/orderbook/synchronizer.rs:272-285 | the longest prefix in which each event starts where the one before ended |
| Synchronization.RunIsChained | src/orderbook/synchronizer.rs:263-285 | the events handed out start with the bridge and are chained from the second one on |
| DepthFeed.FeedDepth | src/main.rs:583-749 | one depth message: buffered, applied, dropped, or the start of a resynchronization, on synchronizer and book together |
| DepthFeed.ReconcileInto | src/main.rs:502-545 | reconcile, then apply the events up to the first one the book refuses, or resynchronize |
| DepthFeed.ApplyEvents | src/main.rs:510-519 | the events of a reconciliation applied in order, up to the first one that the book refuses |
| DepthFeed.ReconcileTryingInto | src/main.rs:696-728 | the same in a resynchronization, which ignores a refusal and goes on applying |
| DepthFeed.TryingIsApplying | src/main.rs:699-705 | if at most the last event is refused both ways of applying give the same book, and an uninitialized book stays as it is |
| DepthFeed.UpdateAccepted | src/orderbook/book.rs:103-137 | an initialized book accepts exactly the events that parse, and only then takes their id |
| DepthFeed.SameIdExactly | src/main.rs:699-705 | with ascending ids both ways end at the same update id if and only if no event that parses comes after one that is refused |
| DepthFeed.PathsMayDiffer | src/main.rs:696-728 | one refused event before another: the first fetch leaves the book at the snapshot, a resynchronization takes it past the event it never saw, and both report the same last id |
| Exchange.OverlapAdvances | src/orderbook/synchronizer.rs:63-75 | absolute quantities need overlap, not adjacency: an event that starts no later than the book and ends no earlier brings it to its own end |
| Exchange.EventAdvances | src/orderbook/book.rs:103-137 | applying such an event to the exchange's book at x gives the exchange's book at u |
| Exchange.SnapshotLoads | src/orderbook/book.rs:59-98 | a faithful snapshot loads as the exchange's book at its id |
| Exchange.UntouchedStays | src/orderbook/synchronizer.rs:63-75 | levels that no change in between sets display the same at both ends |
| SyncSafety.RunSound | src/orderbook/synchronizer.rs:219-304 | a run whose ids fit takes the exchange's book at any id to the exchange's book at its last event |
| SyncSafety.EventShows | src/orderbook/book.rs:103-137 | what one faithful event does to any book, even one that is ahead or behind: every level shows the exchange at its end, or was not set by it and keeps its quantity |
| SyncSafety.ChainShows | src/orderbook/synchronizer.rs:272-285 | a chain does what one event for all its ids would do |
| SyncSafety.FitsIsOverlap | src/orderbook/synchronizer.rs:263-285 | for the book of the snapshot itself the general condition on ids comes down to the unchecked pair |
| SyncSafety.SnapshotUnderReadyExact | src/main.rs:474-488 | loading a snapshot under a ready synchronizer keeps it in step if and only if the snapshot is the book at the last applied id |
| SyncSafety.StepKeepsInStep | src/main.rs:557-749 | every guarded step of any task keeps book and synchronizer in step with the exchange |
| SyncSafety.ReadyMeansSynchronized | src/orderbook/synchronizer.rs:63-75 | over every run of atomic steps, overlapping fetches and lost, repeated and reordered messages included, whose steps meet their guards: Ready implies that the book is the exchange's book at the last applied id |
| SyncSafety.FaithfulNeverStale | src/orderbook/synchronizer.rs:161-194 | no list of events of the exchange, in any order, ever contains a stale one |
| SyncSafety.RunNeverStale | src/orderbook/synchronizer.rs:161-194 | the same after every good run |
| SyncEpisodes.FetchTaskMeetsGuards | src/main.rs:471-545 | a fetch interrupted only by depth events meets every guard on the book by construction |
| SyncEpisodes.ChainedPairOverlaps | README.md:86-91 | checking the pair after the bridge as documented is enough |
| SyncEpisodes.EpisodesStaySynchronized | src/main.rs:471-749 | in every run of connections, losses, failed requests, depth events and fetches that do not overlap, Ready implies the exchange's book, if at each fetch the unchecked pair overlaps or passes the documented check; nothing is assumed of the book |
| SyncConnections.BufferIsOfConnection | src/orderbook/synchronizer.rs:126-135 | over every run, overlapping fetches included: the buffer is a stretch of the events heard since the last connection was opened, and their end while it buffers; none of an earlier connection |
| SyncConnections.ConnectionBuffers | src/orderbook/synchronizer.rs:126-157 | whatever happened before: after a connection is opened the buffer is exactly what came since, and the counters start at zero |
| SyncConnections.ContiguousConnectionsStaySynchronized | src/main.rs:441-749 | if every connection delivers contiguous events, however many there are and whatever is missed between them, Ready implies the exchange's book, with no condition on any pair or buffer |
| SyncEpisodes.OverlappingFetchesGoWrong | src/main.rs:471-545 | two overlapping fetches with faithful messages end ready over a wrong book, although there is no unchecked pair |
| SyncEpisodes.LostEventGoesWrong | src/orderbook/synchronizer.rs:263-285 | a run of one fetch with one lost event ends ready over a wrong book: the pair that is not checked |
| SyncSafety.LoadingIgnoresDepth | src/orderbook/synchronizer.rs:152-157 | depth events that arrive while a snapshot loads change nothing and are lost |
| SyncExactness.OverlapGuardExact | src/orderbook/synchronizer.rs:263-285 | reconciling a book at any id is right for every exchange history if and only if the book is initialized and the ids of the run fit it |
| SyncExactness.SnapshotPairExact | src/orderbook/synchronizer.rs:263-285 | for the snapshot's own book: if and only if the first pair overlaps |
| SyncProgress.LosslessReconciles | src/orderbook/synchronizer.rs:219-304 | on a lossless buffer that covers the snapshot id reconciliation succeeds with exactly the suffix from the first event with u >= L, empties the buffer and becomes Ready |
| SyncProgress.LosslessStaysReady | src/orderbook/synchronizer.rs:161-194 | after that no contiguous live event is a mismatch or stale |
| SyncProgress.DisconnectBeforeReconcile | src/main.rs:557-569 | a connection lost between snapshot and reconciliation yields Ready over an uninitialized book |
| SyncProgress.UninitializedBookFallsBehind | src/orderbook/book.rs:103-113 | from there on every later event of the chain counts as applied while the book refuses it, and the synchronizer stays ready |
| SyncProgress.LostConnectionRun | src/main.rs:557-569 | both together: after such a loss the book stays behind for as long as the stream goes on without a gap |
| SyncProgress.LostConnectionIsReachable | src/main.rs:471-569 | a run from the start of the program that gets there |
| SyncCounts.CountersBalance | src/orderbook/synchronizer.rs:126-313 | over every run reconnects and resynchronizations are as many as happened, and every event taken in is applied, ignored, an error, in the buffer, or discarded |
| SyncCounts.LiveEventExactly | src/orderbook/synchronizer.rs:161-209 | verdict, last applied id and counters of one live event in every phase, as a table; an event handed over while buffering is counted twice |
| Trades.TradeProcessor.Process | src/trades/processor.rs:74-112 | the new window, high-water mark, counters and verdict |
| Trades.TradeProcessor.constructor | src/trades/processor.rs:56-71 | nothing remembered, all counters zero |
| Trades.IntakeInvariant | src/trades/processor.rs:74-112 | over every stream: the window is the last accepted ids, accepted ids ascend strictly, received = processed + duplicate + stale, processed = buy + sell |
| Trades.ProcessedIffNewest | src/trades/processor.rs:74-95 | a trade is processed if and only if its id exceeds every id processed before, also after eviction; otherwise the window decides duplicate or stale |
| Trades.WindowUnobservable | src/trades/processor.rs:90-94 | bounding the window does not change which trades are accepted |
| Trades.LongWindowIsSeenSet | src/trades/processor.rs:77-82 | a window as long as the stream is an unbounded seen-set |
| Trades.AcceptedAreAcceptedAgain | src/trades/processor.rs:74-112 | replaying the accepted trades accepts them all |
| Rows.RecordDepthRows | src/recording/recorder.rs:213-253 | one row a level that parses, bids before asks, all with the number and ids of the event |
| Rows.RowsSay | src/recording/recorder.rs:213-253 | row by row: number, times, ids, side, price and quantity, one row for each bid that parses and then one for each such ask |
| Rows.EncodingSkips | src/recording/recorder.rs:213-253 | a pair that does not parse is left out, wherever it stands, the others become levels in their order |
| Rows.ReconstructDepthUpdates | src/replay/reader.rs:118-163 | rows grouped by runs of equal sequence number, as a function of the rows |
| Rows.Decoded | src/replay/reader.rs:105-115 | stored levels become text pairs one by one, in order |
| Rows.GroupLength | src/replay/reader.rs:122-158 | a group is the longest run of rows with one number |
| Rows.RegroupInvertsFlatten | src/replay/reader.rs:118-163 | flattening events into rows and regrouping restores headers and per-side levels of every event with a level |
| Rows.ReprintKeepsLevels | src/orderbook/level.rs:42-67 | on the grid a recorded and reprinted quote is the same level |
| Rows.ReprintKeepsEffect | src/replay/reader.rs:118-163 | the restored event has the effect of the original on every book |
| Rows.RowOrderIrrelevant | src/replay/reader.rs:118-163 | permuting rows within one number does not change the effect if prices are distinct on each side |
| Recording.Channel.TrySend | src/recording/recorder.rs:296-316 | accepted below capacity, full at capacity, closed once the worker is gone |
| Recording.Recorder.RecordRaw | src/recording/recorder.rs:147-174 | received and dropped counts, sequence number, and what is sent |
| Recording.Recorder.RecordTrade | src/recording/recorder.rs:177-199 | the same for trades |
| Recording.Recorder.RecordDepthEvent | src/recording/recorder.rs:202-263 | the same for depth events; an event without a level is not sent |
| Recording.Recorder.RecordSnapshot | src/recording/recorder.rs:266-284 | the same for snapshots |
| Recording.Recorder.Send | src/recording/recorder.rs:296-333 | the queue, whether it was taken, and an overflow on record if it was full |
| Recording.Recorder.NextSeq | src/recording/recorder.rs:142-144 | numbers are handed out one after the other |
| Recording.RetryInsert | src/recording/worker.rs:310-345 | at most the configured attempts, none after a success, and the batch back unchanged if all fail |
| Recording.StorageWorker.Enqueue | src/recording/worker.rs:115-123 | rows go to the end of their batch; a snapshot replaces the pending one |
| Recording.StorageWorker.FlushRaw | src/recording/worker.rs:139-176 | all or nothing: the batch moves to the table or stays pending |
| Recording.StorageWorker.FlushTrades | src/recording/worker.rs:178-209 | the same for trades |
| Recording.StorageWorker.FlushDepth | src/recording/worker.rs:211-242 | the same for level rows |
| Recording.StorageWorker.FlushSnapshot | src/recording/worker.rs:244-276 | the same for the pending snapshot |
| Recording.StorageWorker.FlushAll | src/recording/worker.rs:131-137 | the four flushes in order |
| Recording.StorageWorker.OnRecord | src/recording/recorder.rs:108-122 | a received record is kept, and a full batch flushes all |
| Recording.StorageWorker.Drain | src/recording/recorder.rs:127-133 | shutdown moves the whole queue into the batches, in order |
| Recording.StorageWorker.Finish | src/recording/recorder.rs:114-117 | the last flush, after which the channel is closed |
| Recording.StorageWorker.constructor | src/recording/worker.rs:77-101 | nothing pending, nothing stored |
| RecordingRuns.FlushKeepsHeld | src/recording/worker.rs:131-242 | a flush loses, adds and reorders no row, whatever fails |
| RecordingRuns.AcceptedIsConserved | src/recording/worker.rs:115-242 | under every interleaving and failure: accepted raw, trade and level rows are stored ++ pending ++ queued |
| RecordingRuns.ReceivedIsAccountedFor | src/recording/recorder.rs:147-199 | raw and trades: received = stored + pending + queued + dropped, and a drop leaves an overflow on record or follows the end of the worker |
| RecordingRuns.RunCounts | src/recording/recorder.rs:296-316 | the queue never exceeds its capacity, and stored counters count the tables |
| RecordingRuns.StoredInOrder | src/recording/recorder.rs:142-263 | tables hold raw and trade rows by strictly increasing number and level rows event by event: in order and none twice |
| RecordingRuns.ShutdownStoresWhatWasDrained | src/recording/recorder.rs:124-136 | a shutdown whose last inserts succeed leaves in the tables exactly what was accepted up to the drain |
| RecordedSnapshots.SnapshotsConservedExactly | src/recording/worker.rs:115-123 | under every interleaving and failure: accepted snapshots are stored ++ pending ++ queued if and only if none was enqueued while another was pending, and otherwise exactly as many are missing as were overwritten |
| RecordedSnapshots.PendingSnapshotIsLost | src/recording/worker.rs:115-123 | two snapshots received before a flush: the first is lost, whatever the storage does |
| RecordedSnapshots.ShutdownStoresSnapshots | src/recording/recorder.rs:124-136 | a shutdown whose last snapshot insert succeeds stores exactly the accepted snapshots if and only if none was overwritten |
| RecordedShutdowns.ShutdownStoresAllExactly | src/recording/recorder.rs:124-136 | against everything ever accepted: a shutdown whose last inserts succeed misses exactly the rows accepted between the drain and the last flush, so it stores everything if and only if there are none |
| RecordedShutdowns.ShutdownStoresAllSnapshotsExactly | src/recording/recorder.rs:124-136 | the same for snapshots: everything is stored if and only if none was overwritten up to the drain and none was accepted after it; otherwise exactly that many are missing |
| RecordedShutdowns.LateRowIsLost | src/recording/recorder.rs:127-135 | a row accepted in between is in no table, without a drop or an overflow on record |
| RecordedShutdowns.LateSnapshotIsLost | src/main.rs:491-499 | the same for a snapshot recorded in between |
| RecordedCounts.CountersCountCalls | src/recording/recorder.rs:142-333 | over every run: received counters are the calls by kind, numbers one a call, overflows the records that found the queue full, and a depth event is accepted, dropped or has no level |
| RecordedCounts.FlushCountsBatches | src/recording/worker.rs:131-276 | a flush tries every batch that is not empty and counts it as flushed or failed |
| RecordedCounts.ReceiveFlushesExactly | src/recording/recorder.rs:110-116 | a received record makes the worker flush if and only if with it a row batch reaches the batch size |
| RecordedCounts.BatchesStaySmall | src/recording/recorder.rs:110-116 | while inserts succeed no row batch ever reaches the batch size before the drain |
| LiveSession.RecordingSession.OnDepth | src/main.rs:570-749 | numbering, rows and feed for one depth message |
| LiveSession.RecordingSession.OnSnapshot | src/main.rs:471-545 | snapshot loaded, recorded, reconciled |
| LiveSession.RecordingSession.OnTrade | src/main.rs:776-811 | raw number, de-duplication, and a trade row and flow update if processed |
| LiveSession.RecordingSession.OnRejected | src/main.rs:820-844 | a marker or malformed trade message takes a raw number and nothing else |
| Replay.Replayer.OnSnapshot | src/replay/engine.rs:104-138 | load, reconcile, apply or resynchronize, and seed the shadow book |
| Replay.Replayer.OnDepth | src/replay/engine.rs:139-206 | the same decision as live, and the shadow book follows an applied event |
| Replay.Replayer.OnTrade | src/replay/engine.rs:207-219 | the same decision as live, and flow follows a processed trade |
| Replay.RunReplay | src/replay/engine.rs:68-220 | the loop over the events in the configured number range; stops where a number does not parse |
| Replay.LoadSession | src/replay/reader.rs:56-94 | all three tables turned into events and stably sorted by number |
| ReplayRanges.RangeReplaysItsEvents | src/replay/engine.rs:88-99 | for every stored session, replaying a range of numbers is replaying the events with a number in it, both ends included |
| ReplayCounts.ReplayCountersAgree | src/replay/engine.rs:100-220 | applied events are those the synchronizer applied, sequence errors its resynchronizations, depth events those it received, trades are split as the processor splits them, and each kind of event is counted one by one |
| ReplaySimulation.LoadingRestoresLog | src/replay/reader.rs:56-163 | loading the tables of any run gives what it recorded in the order in which it was recorded |
| ReplaySimulation.InputFollowed | src/replay/engine.rs:100-220 | every live step and its logged event lead corresponding states to corresponding states, mismatches and failed reconciliations included |
| ReplayOutcome.LogHoldsAccepted | src/main.rs:786-811 | what is logged of the trades is exactly the accepted sequence |
| ReplayOutcome.ReplayTakesIn | src/replay/engine.rs:207-219 | a replay takes in exactly the logged trades |
| ReplayOutcome.ReplayReproducesLive | src/replay/engine.rs:68-220 | for every run of steps with on-grid numbers whose depth events leave rows: same book, phase, last applied id and counters, the same trades accepted in the same order and none skipped, same flow totals |
| ReplayOutcome.ReplayReproducesExactly | src/recording/recorder.rs:257-263 | on the grid: if and only if every depth event left a row |
| ReplayOutcome.EmptyEventIsForgotten | src/recording/recorder.rs:257-263 | any run of one event without levels: it waits in the live buffer, nothing is stored of it and the replay has heard nothing |
| RecordedReplay.LogIsIdeal | src/recording/recorder.rs:142-316 | if the queue never overflowed the accepted rows and snapshots are those of the recorder calls, whatever the worker did in between |
| RecordedReplay.RecordedRunReplays | src/main.rs:570-844 | end to end through queue, failing storage, shutdown, loading and replay: if the queue never overflowed, no pending snapshot was overwritten and the last inserts succeed, the live run is reproduced, accepted trades included |
| ReplaySimulation.EventKeepsLockstep | src/replay/engine.rs:103-193 | every replayed event keeps the shadow book equal to the order book and both free of zero levels |
| ReplaySimulation.ShadowInLockstep | src/replay/engine.rs:103-193 | so does any event stream, at every iteration |
| ReplaySimulation.ReplayEndsInLockstep | src/analytics/book.rs:235-248 | and the microprice then lies strictly between best bid and best ask |
| Shadow.ShadowBook.ApplySnapshot | src/analytics/book.rs:95-121 | positive levels are kept, the others counted, the book is ready |
| Shadow.ShadowBook.ApplyUpdate | src/analytics/book.rs:126-167 | the new ladders, and one change for each level whose quantity differs when its turn comes |
| Shadow.ShadowBook.SetReady | src/analytics/book.rs:261-267 | losing readiness empties the book |
| Shadow.ShadowBook.IsCrossed | src/analytics/book.rs:178-183 | crossed if and only if some bid is at or above some ask |
| Shadow.ShadowBook.constructor | src/analytics/book.rs:82-92 | empty and not ready |
| Shadow.ShadowBook.BestBid | src/analytics/book.rs:169-171 | the highest bid, none if and only if there are none |
| Shadow.ShadowBook.BestAsk | src/analytics/book.rs:173-175 | the lowest ask, none if and only if there are none |
| Shadow.ShadowBook.RecordCrossed | src/analytics/book.rs:278-281 | only the count changes, and it is returned |
| Shadow.SpreadOf | src/analytics/book.rs:185-192 | a spread exists exactly for an uncrossed two-sided book, and is positive |
| Shadow.ImbalanceOf | src/analytics/book.rs:221-233 | the imbalance lies between -1 and 1 |
| Shadow.MicropriceBetweenBest | src/analytics/book.rs:235-248 | the microprice exists exactly for a ready, two-sided, uncrossed book, and bid * den < num < ask * den |
| ShadowPrices.MicropriceValue | src/analytics/book.rs:235-248 | the denominator is the sum of the two best quantities, the price lies above the best bid by the spread times the part that is bid, so nearer to the ask if and only if more is bid than asked |
| ShadowPrices.InsideValues | src/analytics/book.rs:185-201 | spread and middle are those of the best prices, and none if they cross |
| ShadowPrices.NoInsidePrices | src/analytics/book.rs:185-201 | without a level on both sides there is no spread, no middle and no microprice |
| ShadowPrices.DepthIsBestVolume | src/analytics/book.rs:204-214 | the depth of a side is the sum over its best prices, which are determined by that |
| ShadowPrices.ImbalanceValue | src/analytics/book.rs:221-231 | the imbalance times both depths is their difference; there is none unless the book is ready, uncrossed and not empty |
| ShadowPrices.CrossedExactly | src/analytics/book.rs:178-183 | crossed means that some bid is at or above some ask |
| ShadowLevels.SnapshotShows | src/analytics/book.rs:95-121 | a snapshot shows the last positive mention of each price and counts the levels that are zero |
| ShadowLevels.ChangesLead | src/analytics/book.rs:126-167 | the changes that an update reports at a price lead step by step from what was displayed to what is displayed after it |
| Shadow.DisplayedSet | src/analytics/book.rs:126-167 | what writing one level does to the displayed total |
| Shadow.LoadingListingCopies | src/analytics/book.rs:95-121 | seeding with a listing copies the book |
| Flow.TradeFlow.OnTrade | src/analytics/flow.rs:117-189 | session totals, volume at price, and for every configured interval its step and the buckets it closed |
| Flow.TradeFlow.constructor | src/analytics/flow.rs:100-109 | no trades, no buckets |
| Flow.TradeFlow.OnInterval | src/analytics/flow.rs:157-187 | one interval takes its step, no other interval changes |
| Flow.TradeFlow.OpenBucket | src/analytics/flow.rs:160-176 | the bucket of the trade is open, and the newest open one before it was closed if it was not |
| Flow.TradeFlow.CloseBucket | src/analytics/flow.rs:197-206 | the closed bucket gets its end and the running delta and moves to the completed list |
| Flow.TradeFlow.Prune | src/analytics/flow.rs:243-254 | completed buckets that ended before the window leave from the front |
| Flow.TradeFlow.TakeCompleted | src/analytics/flow.rs:236-240 | all completed buckets, ordered by interval and start, and none left |
| Flow.TradeFlow.RecordLargeTrade | src/analytics/flow.rs:209-213 | the large-trade count of a known price rises by one |
| FlowBatches.StreamingEqualsBatch | src/analytics/flow.rs:117-206 | for nondecreasing times: one open bucket an interval, completed buckets tile time, and every bucket sums exactly the trades of its window |
| FlowBatches.BucketsConserve | src/analytics/flow.rs:117-206 | for any trade order open and completed buckets add up to all trades |
| FlowBatches.ProfileEqualsBatch | src/analytics/flow.rs:121-150 | volume at a price is the sum over the trades at that price |
| FlowRuns.RunHoldsLanes | src/analytics/flow.rs:117-254 | in every run of the object, with any number of intervals and any order of trades, prunes and drains: totals and profile are those of the trades, and every interval has exactly the open buckets of its own trades while completed, pruned and drained ones together are exactly what these trades closed |
| FlowRuns.SessionTotalsAccounted | src/analytics/flow.rs:236-254 | in every run, for every interval: open, completed and retired buckets add up to the session totals |
| FlowRuns.ChronologicalRunIsBatch | src/analytics/flow.rs:117-254 | with nondecreasing trade times pruned, drained and completed buckets are in order the tiling of the batch grouping |
| FlowRuns.ProfileCountsLarge | src/analytics/flow.rs:209-213 | the profile counts exactly the large trades recorded at a price that had traded |
| Liquidity.Classify | src/analytics/liquidity.rs:37-46 | the kind is decided by direction and by whether the level appears, stays or disappears |
| Liquidity.FirstUnexpired | src/analytics/liquidity.rs:171-178 | the oldest decrease inside the window, and none if all have expired |
| Liquidity.LiquidityTracker.OnLevelChange | src/analytics/liquidity.rs:113-221 | totals, history, persistence and emitted events of one change |
| Liquidity.LiquidityTracker.Consume | src/analytics/liquidity.rs:169-194 | a rise takes out the first unexpired decrease of its level |
| Liquidity.LiquidityTracker.Prune | src/analytics/liquidity.rs:225-247 | vanished levels lose record and history; other histories lose their expired front |
| Liquidity.LiquidityTracker.Clear | src/analytics/liquidity.rs:105-110 | levels, histories and interval totals are emptied, the session count stays |
| Liquidity.LiquidityTracker.constructor | src/analytics/liquidity.rs:87-96 | nothing seen |
| Liquidity.LiquidityTracker.ResetInterval | src/analytics/liquidity.rs:99-102 | only the two interval totals change |
| Liquidity.LiquidityTracker.Account | src/analytics/liquidity.rs:119-165 | totals by direction, and a recorded decrease if something stays displayed |
| Liquidity.LiquidityTracker.Remember | src/analytics/liquidity.rs:197-218 | first and last sighting, peak and current quantity of the level |
| Liquidity.LiquidityTracker.Trim | src/analytics/liquidity.rs:238-246 | exactly the expired front of a history goes |
| Pairings.BothPair | src/analytics/liquidity.rs:169-194 | the exchange argument: using up the oldest unexpired decrease loses nothing against any other choice, at every cut |
| Pairings.GreedyIsMaximum | src/analytics/liquidity.rs:169-194 | oldest-first pairing is a pairing inside the window, and none has more pairs |
| Replenishment.PrunedQueue | src/analytics/liquidity.rs:225-247 | deleting the history of a vanished level drops only decreases that no later rise can use |
| Replenishment.PruningUnobservable | src/analytics/liquidity.rs:225-247 | a tracker that prunes emits and counts exactly what one that never prunes does |
| Replenishment.ShorterRetentionIsObservable | src/analytics/liquidity.rs:225-236 | the bound is exact: for every shorter retention some run differs |
| Replenishment.TrackerLinks | src/analytics/liquidity.rs:150-194 | the history of a level is the list of free decreases of the oldest-first pairing |
| Replenishment.ReplenishmentIsMaximum | src/analytics/liquidity.rs:150-194 | between two clears the replenishments emitted at a level are as many as the largest set of disjoint pairs of a decrease and a later rise inside the window |
| LiquidityRecords.LevelsAreRecorded | src/analytics/liquidity.rs:197-247 | over every run a level has a record if and only if it was seen to change since it was pruned or the book rebuilt, with first and last time, last and largest quantity |
| LiquidityRecords.ChangeReports | src/analytics/liquidity.rs:113-194 | kind, amount and refill that one change reports, in terms of its quantities and the history of the level |
| LiquidityRecords.HistoriesAreFalls | src/analytics/liquidity.rs:139-165 | every decrease in a history is a fall of that level, with its time and what it left |
| Heatmaps.Heatmap.OnTrade | src/analytics/heatmap.rs:249-279 | exactly one cell changes: volumes, delta, pressure, count |
| Heatmaps.Heatmap.constructor | src/analytics/heatmap.rs:204-213 | no buckets, aggregation one |
| Heatmaps.Heatmap.Entry | src/analytics/heatmap.rs:250-259 | the cell at the grid price and bucket of a time, new if absent |
| Heatmaps.Heatmap.OnLevelChange | src/analytics/heatmap.rs:305-344 | exactly one cell changes: resting quantity of the side, and the difference as added or removed |
| Heatmaps.Heatmap.OnLargeTrade | src/analytics/heatmap.rs:283-297 | exactly one cell changes: large volume |
| Heatmaps.Heatmap.OnSweep | src/analytics/heatmap.rs:404-416 | exactly one cell changes: sweep count |
| Heatmaps.Heatmap.OnAbsorption | src/analytics/heatmap.rs:420-432 | exactly one cell changes: absorption count |
| Heatmaps.Heatmap.OnReplenishment | src/analytics/heatmap.rs:436-448 | exactly one cell changes: replenishment count |
| Heatmaps.Heatmap.SetPriceAggregation | src/analytics/heatmap.rs:217-222 | unsupported factors fall back to one |
| Heatmaps.Heatmap.Prune | src/analytics/heatmap.rs:381-392 | exactly the buckets before the cutoff go |
| Heatmaps.Heatmap.TakeDigest | src/analytics/heatmap.rs:453-508 | every total of the digest is the sum over all cells |
| HeatmapBatches.PruningOnlyForgets | src/analytics/heatmap.rs:381-392 | from the latest cutoff on, the pruned heatmap is the unpruned one, whatever the order of event times |
| HeatmapBatches.StreamedEqualsBatch | src/analytics/heatmap.rs:249-392 | after a prune the heatmap is the batch over all events restricted to retained buckets |
| HeatmapBatches.RetainedCellsAreFolds | src/analytics/heatmap.rs:249-344 | every retained cell is the fold of exactly the events of its price and bucket, and there are no others |
| HeatmapBatches.DigestEqualsWindow | src/analytics/heatmap.rs:453-508 | volumes, delta, pressure and counts of the digest are sums over exactly the events whose bucket starts at or after now - retention |
| HeatmapBatches.CellsAlwaysBalance | src/analytics/heatmap.rs:249-344 | in every state delta = pressure = buy - sell and added - removed = resting bid + resting ask, in each cell and in the digest |
| HeatmapCells.CellsTellEvents | src/analytics/heatmap.rs:249-448 | over every run of events and prunes, in any order of times: each side of a cell rests as it was last shown, added and removed are the rises and falls of both sides, volumes, delta, pressure and counts are those of the events that landed since the bucket was pruned, and there are no other cells |
| HeatmapCells.DigestTellsBook | src/analytics/heatmap.rs:453-508 | resting, added and removed totals of the digest are those sums over all cells |
| HeatmapCells.FrameTellsEvents | src/analytics/heatmap.rs:661-753 | every cell of a frame tells the events of its price in some bucket |
| HeatmapCells.FrameShowsEvents | src/analytics/heatmap.rs:661-753 | and every visible cell in which something landed is in the frame |
| HeatmapCells.BucketExactly | src/analytics/heatmap.rs:250-259 | the bucket of a time is the multiple of the width that starts at or less than a width before it |
| HeatmapCells.PriceExactly | src/analytics/heatmap.rs:230-239 | grid price p holds the ticks from p times the aggregation on, as many as the aggregation |
| HeatmapFrames.FromHeatmap | src/analytics/heatmap.rs:661-753 | the visible cells in bucket and price order, their totals, extremes and the time range |
| HeatmapFrames.FrameSumsVisible | src/analytics/heatmap.rs:661-753 | a frame summary adds up exactly the cells in its price range |
| HeatmapFrames.FullFrameMatchesDigest | src/analytics/heatmap.rs:661-753 | over the full price range the frame summary is the digest |
| HeatmapDeltas.Compute | src/analytics/heatmap.rs:800-863 | changed, new and removed keys in ascending order with their cells, and the counter differences |
| HeatmapDeltas.Store.ReceiveDelta | frontend/src/state/store.ts:277-324 | the whole new frame of the store, or none if it had none |
| HeatmapDeltas.PatchRestoresCells | frontend/src/state/store.ts:277-294 | patching with a computed difference gives exactly the current price to cell map, one cell a price in strictly ascending order |
| HeatmapDeltas.DeltasReachLastFrame | frontend/src/state/store.ts:277-317 | by induction, a whole sequence of differences yields the map and the total delta of the last frame |
| HeatmapDeltas.DeltaKeysPartition | src/analytics/heatmap.rs:800-829 | the three key lists are disjoint, and all empty if and only if the maps are equal |
| HeatmapDeltas.PatchedCountersAreMaxima | src/analytics/heatmap.rs:831-856 | every patched unsigned counter is the larger of the two, the delta is the current one |
| HeatmapDeltas.CountersReachLastFrame | frontend/src/state/store.ts:296-317 | after a sequence the counters are those of the last frame if and only if none fell on the way; they never are smaller |
| HeatmapPatches.PatchIsExact | frontend/src/state/store.ts:277-317 | a patched frame is the engine's frame if and only if timestamp, ranges and counts are unchanged, no counter falls, and the engine lists one cell a price in ascending order |
| HeatmapPatches.FramesRestoredExactly | frontend/src/state/store.ts:277-317 | the same over any sequence of differences |
| HeatmapPatches.PatchedCellsExactly | src/analytics/heatmap.rs:661-700 | for frames of heatmaps the patched cells are the engine's if and only if the visible prices rise from each bucket to the next |
| HeatmapPatches.PrunedTradeStaysCounted | src/analytics/heatmap.rs:381-392 | any trade pruned between two frames: no cell is left on either side, and the browser still counts the trade |
| HeatmapDeltas.PutRepresents | frontend/src/state/store.ts:281-287 | writing into the insertion-ordered map |
| HeatmapDeltas.SortedEntries | frontend/src/state/store.ts:292-294 | sorting the values by price gives the strictly ordered list that stands for the map |
| Clusters.ClusterTracker.OnTrade | src/analytics/clusters.rs:67-148 | the open cluster, what was closed, and the closed list |
| Clusters.ClusterTracker.constructor | src/analytics/clusters.rs:55-63 | no cluster |
| Clusters.ClusterTracker.Add | src/analytics/clusters.rs:105-145 | every field of the open cluster after one more trade |
| Clusters.ClusterTracker.CloseOpen | src/analytics/clusters.rs:151-157 | the open cluster moves to the closed list |
| Clusters.ClusterTracker.Prune | src/analytics/clusters.rs:164-173 | exactly the leading clusters that ended before the cutoff go |
| ClusterRuns.SummaryGrows | src/analytics/clusters.rs:105-145 | updating a cluster in place is summarizing the longer run |
| ClusterRuns.ClustersPartitionStream | src/analytics/clusters.rs:67-173 | closed clusters, pruned ones included, and the open one are consecutive runs whose concatenation is the stream, each the summary of its run |
| ClusterCuts.TradeClosesExactly | src/analytics/clusters.rs:67-102 | a trade closes the open cluster if and only if it comes later than the window after its end, or further than the range above or below its last price, and joins it otherwise |
| ClusterCuts.CutIsExact | src/analytics/clusters.rs:67-157 | in every stream a new cluster starts exactly at the flushes and at the trades that are out of reach, in time or price, of the trade before them |
| ClusterCuts.PruneDropsExactly | src/analytics/clusters.rs:164-173 | a prune drops exactly the leading clusters that ended more than the retention before it |
| ClusterRuns.RunIsNarrow | src/analytics/clusters.rs:71-78 | high - low is at most range * (count - 1) |
| ClusterRuns.MonotonicMeansSorted | src/analytics/clusters.rs:125-131 | on a one-sided run with positive quantities the flag says exactly that prices are sorted in the direction of the aggressor |
| ClusterRuns.SortedLevelsAreDistinctPrices | src/analytics/clusters.rs:123-124 | on a sorted run the level count is the number of distinct prices |
| ClusterRuns.LevelsAreDistinctPricesExactly | src/analytics/clusters.rs:123-124 | the level count is the number of distinct prices if and only if no price is left and returned to; it is never smaller |
| ClusterRuns.LevelsCountReturns | src/analytics/clusters.rs:123-124 | in general it is the number of distinct prices plus the number of returns |
| ClusterRuns.MonotonicExactly | src/analytics/clusters.rs:125-131 | while one side leads every price change the flag says exactly that prices are sorted for it, and on a run sorted for a side it says exactly that this side led every change |
| ClusterRuns.ReversalKeepsFlag | src/analytics/clusters.rs:123-131 | a run that rises and falls back carries the flag and counts three levels on two prices |
| ClusterRuns.LeaderMayFlip | src/analytics/clusters.rs:126-131 | a rising run that ends with buyers ahead may lack the flag |
| Sweeps.SweepDetector.OnCluster | src/analytics/sweeps.rs:64-139 | the candidate, counted if there is one |
| Sweeps.SweepDetector.constructor | src/analytics/sweeps.rs:55-60 | no candidates counted |
| Sweeps.Clamped | src/analytics/config.rs:117-119 | scores are restricted to [0, 1] |
| Sweeps.SweepDetector.Candidate | src/analytics/sweeps.rs:143-191 | a candidate exactly if the five gates and the threshold hold |
| Sweeps.DominanceIsMajority | src/analytics/clusters.rs:134-145 | the leading side has at least half of the volume |
| Sweeps.GatesFixConfidence | src/analytics/sweeps.rs:96-112 | past the first four gates the confidence is 0.8 + 0.2 * dominance |
| Sweeps.AcceptanceIsExact | src/analytics/sweeps.rs:64-141 | for clusters of the tracker: accepted exactly by the first four gates and enough dominance for the threshold; up to 0.9 the threshold never decides |
| SweepRuns.SweepAcceptedExactly | src/analytics/sweeps.rs:64-141 | in terms of the trades: last time within the window of the first, enough levels and volume, the flag, and 80 percent of the volume with 20 percent of the leading side's reach the threshold |
| SweepRuns.SweepReports | src/analytics/sweeps.rs:82-141 | times, prices, levels, volume, duration, side and displacement that a candidate reports |
| SweepRuns.LeadingSide | src/analytics/clusters.rs:134-145 | the side of a cluster is the one with more volume, the buyers' if equal, and its dominance is that part of the volume |
| Sweeps.AcceptedOneSidedSweep | src/analytics/sweeps.rs:64-141 | an accepted one-sided sweep is sorted over enough distinct prices and displaced by its whole span |
| Sweeps.AcceptedSweepPrices | src/analytics/sweeps.rs:64-141 | for any run: an accepted sweep touches enough distinct prices if and only if it returns to no more prices than it has levels to spare; led by one side throughout it is sorted over enough prices |
| Sweeps.ReversalIsAccepted | src/analytics/sweeps.rs:64-141 | an accepted sweep that rises and falls back, with too few distinct prices |
| Absorption.AbsorptionDetector.OnTrade | src/analytics/absorption.rs:91-145 | a window opens, grows, or expires and is evaluated; the trade that expires it is discarded |
| Absorption.AbsorptionDetector.constructor | src/analytics/absorption.rs:74-80 | no windows |
| Absorption.AbsorptionDetector.Evaluate | src/analytics/absorption.rs:191-259 | a candidate exactly by the gates and the threshold, counted if there is one |
| Absorption.AbsorptionDetector.OnLiquidityChange | src/analytics/absorption.rs:147-159 | every live window that the level opposes gains replenished volume, no other changes |
| Absorption.AbsorptionDetector.OnOpposingLiquidity | src/analytics/absorption.rs:162-174 | every live window that the level opposes remembers its quantity, no other changes |
| Absorption.EvaluationIsExact | src/analytics/absorption.rs:191-236 | past the gates the confidence is at least 0.3 and at most 1; up to that the threshold never decides |
| AbsorptionRuns.WindowsAreRuns | src/analytics/absorption.rs:91-174 | over every run a window is open if and only if a trade opened one that none has ended, and it says exactly what happened since: trades, volume, largest move with the aggressor, refills and last opposing quantity in time on the far side |
| AbsorptionRuns.FoundExactly | src/analytics/absorption.rs:140-207 | a trade finds a candidate if and only if it ends a window with enough trades, volume and confidence and little enough movement |
| AbsorptionRuns.CandidatesAreCounted | src/analytics/absorption.rs:236 | the detector counts them one by one |
| AbsorptionRuns.ConfidenceParts | src/analytics/absorption.rs:209-230 | past the gates confidence is 0.3 and, each in proportion, 0.35 for no movement, 0.2 for refilled volume, 0.15 for liquidity that stayed |
| Engine.AnalyticsEngine.ProcessEvent | src/analytics/engine.rs:98-212 | the whole new state and the snapshots of one event |
| Engine.AnalyticsEngine.Take | src/analytics/engine.rs:98-301 | what an event does to the parts before a snapshot is due |
| Engine.AnalyticsEngine.OnBookUpdated | src/analytics/engine.rs:126-181 | shadow book, liquidity, heatmap, absorption windows and anomaly for one update |
| Engine.AnalyticsEngine.constructor | src/analytics/engine.rs:70-94 | all parts fresh and configured alike |
| Engine.AnalyticsEngine.OnBookSnapshot | src/analytics/engine.rs:109-130 | the shadow book is replaced, liquidity cleared, a crossed book counted |
| Engine.AnalyticsEngine.OnLevelChange | src/analytics/engine.rs:135-168 | liquidity, heatmap, absorption windows and replenishment count for one change |
| Engine.AnalyticsEngine.WatchAbsorption | src/analytics/engine.rs:140-153 | a rise replenishes and every change is the new opposing quantity |
| Engine.AnalyticsEngine.CheckCrossed | src/analytics/engine.rs:170-181 | a crossed book is an anomaly when it was not crossed before |
| Engine.AnalyticsEngine.CountFlow | src/analytics/engine.rs:215-228 | flow totals, interval counters and heatmap |
| Engine.AnalyticsEngine.CheckLarge | src/analytics/engine.rs:238-245 | a large trade counts in session, interval, profile and heatmap |
| Engine.AnalyticsEngine.CheckCluster | src/analytics/engine.rs:247-273 | the cluster step, and a sweep if the closed cluster is one |
| Engine.AnalyticsEngine.CheckAbsorption | src/analytics/engine.rs:276-298 | the detector is asked only with a ready, uncrossed book that has the needed side, and a candidate counts |
| Engine.AnalyticsEngine.Prune | src/analytics/engine.rs:405-410 | heatmap, clusters, liquidity and flow are pruned at one time |
| Engine.AnalyticsEngine.OnTrade | src/analytics/engine.rs:214-301 | flow, large trades, clusters, sweeps and absorption for one trade |
| Engine.AnalyticsEngine.MaybeFinalize | src/analytics/engine.rs:304-314 | a snapshot exactly if the interval has passed |
| Engine.AnalyticsEngine.ForceSnapshot | src/analytics/engine.rs:317-321 | a snapshot at the last event time, if there was an event |
| Engine.AnalyticsEngine.BuildSnapshot | src/analytics/engine.rs:324-371 | the snapshot with mid price, spread and imbalance, and interval counters and interval liquidity reset |
| EngineRuns.EventSettles | src/analytics/engine.rs:98-301 | no event moves anything between the session and the intervals already counted |
| EngineRuns.SnapshotsIntegrate | src/analytics/engine.rs:324-371 | for every event sequence and snapshots at any points: sums over snapshots plus the current interval are the session counters, and each cvd is the sum of the deltas up to it |
| EngineRuns.SnapshotsAreSpaced | src/analytics/engine.rs:304-314 | unforced snapshots come at least the snapshot interval after the one before |
| EngineSnapshots.SnapshotsExactlyWhenDue | src/analytics/engine.rs:304-321 | over every run an event with a time brings a snapshot of that time if and only if there was none before or the last one lies at least the interval, and a millisecond, back; other events bring none; a forced one has the time of the last event |
| EngineSnapshots.SnapshotShowsBook | src/analytics/engine.rs:324-356 | best prices, spread, middle, microprice, depth, imbalance and readiness of a snapshot are those of the book as the input left it |
| EngineCounts.SessionCounts | src/analytics/engine.rs:238-273 | over every run large trades and sweeps are counted one by one |
| EngineBook.BookIsWhatEventsLeft | src/analytics/engine.rs:98-212 | over every run and at every level the shadow book displays what snapshots, updates and resynchronizations left there, and is ready exactly when they say so |
| EngineCounts.AnomaliesAreCounted | src/analytics/engine.rs:109-212 | over every run the anomalies of all snapshots and of the current interval are the lost connections, the books that arrive crossed, and the updates that leave it crossed when it was not flagged so; the shadow book counts these crossings too |
| EngineRuns.ChangesAddUp | src/analytics/book.rs:126-167 | the changes of one update add up to the change of what is displayed, repeated prices included |
| EngineRuns.LiquidityIsConserved | src/analytics/engine.rs:324-371 | from any clear to the next: displayed total minus its value at the clear is added minus removed over the snapshots since and the current interval |
| EngineRuns.ClearStartsSegment | src/analytics/engine.rs:109-130 | a book snapshot or a resynchronization starts such a segment |
| EngineRuns.HeatmapHoldsRetainedTrades | src/analytics/engine.rs:405-410 | after every event of a run with nondecreasing times the heatmap's volumes, delta, pressure and trade count are those of exactly the trades in retained buckets |
| EngineFlow.EngineBucketsHold | src/analytics/engine.rs:214-245 | over every run of the engine: totals and profile are those of its trades, every interval has the open buckets its trades leave open, and pruned and completed ones are, in order, exactly what they closed |
| EngineFlow.EngineBucketsAreBatches | src/analytics/engine.rs:214-245 | with nondecreasing trade times these are the buckets of the batch grouping |
| EngineHeat.EngineHeatmapIsStreamed | src/analytics/engine.rs:131-301 | over every run the heatmap of the engine is the streamed one of every trade, large trade, sweep, absorption, level change and replenishment of its events, pruned after each |
| EngineHeat.EngineCellsTell | src/analytics/engine.rs:131-301 | so each of its cells tells exactly what landed there |
| EngineParts.EngineLiquidityIsTracked | src/analytics/engine.rs:109-181 | over every run the liquidity tracker of the engine is the one that heard the changes, rebuilds, interval ends and prunes of its events |
| EngineParts.EngineClustersAreTracked | src/analytics/engine.rs:247-273 | over every run the clusters of the engine are those of its trades |
| EngineAbsorption.EngineWindowsAreTracked | src/analytics/engine.rs:142-168 | over every run the absorption windows of the engine are those of the trades it asked about and of all changes |
| EngineAbsorption.AskedExactly | src/analytics/engine.rs:276-298 | the detector is asked if and only if the book is ready, uncrossed and shows something on the aggressor's side, and is told the best price of that side and the depth of the other |
| HeatmapAlike.AlikeTotals | src/analytics/heatmap.rs:453-508 | grids that agree on every cell but its absorption count have equal totals, whatever empty cells they hold |
| EngineTwins.TradeCommon | src/analytics/engine.rs:214-301 | a trade keeps engines equal on the trade side, whatever their books and absorption windows |
| EngineTwins.UpdateCommon | src/analytics/engine.rs:126-181 | an update of the same displayed book keeps engines equal on the trade side and the book the same |
| EngineTwins.SeedSame | src/analytics/engine.rs:109-125 | seeding with one listing gives engines the same book and liquidity records, whatever they held |
| LiveAnalytics.InputTwins | src/replay/engine.rs:100-220 | every live input and its replayed event keep the two engines alike, with corresponding snapshots |
| LiveAnalytics.AnalyticsAgree | src/analytics/engine.rs:1-8 | in every run, mismatches and failed reconciliations included, live and replayed analytics have equal totals, profile, time buckets, clusters, detector counts, replenishments, trade side of every snapshot and heatmap totals other than cells and absorption; while ready also the displayed book and all level records |
| LiveAnalytics.SmoothRunsAgree | src/analytics/engine.rs:1-8 | without a mismatch or a snapshot that does not reconcile the whole engine state, time buckets included, and every snapshot are the same, but for the update id that the shadow book remembers |
| LiveAnalytics.SmoothIsExact | src/replay/engine.rs:124-137 | if no snapshot arrives under Ready: the whole state is the same at every moment if and only if the run has neither |
| LiveAnalytics.FailedReconciliationSeparates | src/replay/engine.rs:124-137 | any snapshot that is the first thing to arrive: the live engine waits, the replayed one shows it |

## Left out

- SyncSafety.ReadyMeansSynchronized: has the guards of its steps as hypotheses, because the code does not check them and fails without them; `EpisodesStaySynchronized` derives them for fetches that do not overlap.
- SyncEpisodes.EpisodesStaySynchronized: fetches that overlap and a connection lost during a fetch are not among its episodes, because there the property fails (`OverlappingFetchesGoWrong`, `LostConnectionIsReachable`).
- ReplayOutcome.ReplayReproducesLive: covers runs of atomic steps with one connection; reconnects and failed REST fetches clear the live buffer without leaving a recorded trace. Symbol and event-type strings, local receive times and date conversion are not part of it.
- LiveAnalytics.AnalyticsAgree: covers the same runs; the announcement of a lost connection counts an anomaly live and never in replay. The last step of a fetch, from reconciliation to the announcement, is atomic, although the code lets other steps in between.
- LiveAnalytics.SmoothIsExact: a snapshot that arrives under Ready is excluded; it never reconciles, and whether reseeding with it shows depends on the liquidity records of that moment.
- LiveSession.RecordingSession.OnTrade: the trade message is already normalized; parsing of its fields is not modelled.
- RecordingRuns.AcceptedIsConserved: an insert succeeds or fails as a whole; queue length and retry metrics are diagnostics and are not modelled.
- RecordingRuns.ShutdownStoresWhatWasDrained: compares with what was accepted up to the drain, because the code does not store what comes later; `RecordedShutdowns.ShutdownStoresAllExactly` is about everything accepted.
- RecordedSnapshots.ShutdownStoresSnapshots: likewise, with `RecordedShutdowns.ShutdownStoresAllSnapshotsExactly`.
- SyncConnections.ContiguousConnectionsStaySynchronized: fetches that overlap and a connection lost during a fetch are not among its episodes, as in `EpisodesStaySynchronized`.
- DepthFeed.TryingIsApplying: one direction; whether levels that refused events set in part coincide is not decided, only the resulting id is, by `SameIdExactly`.
- Rows.RegroupInvertsFlatten: symbol, event type and local receive time of the header are not modelled, since nothing that replays them depends on them.
- Replay.Replayer.OnSnapshot: drives the shadow book only; the whole engine is driven over the replayed stream in `LiveAnalytics`.
- Replay.Replayer.OnDepth: drives the shadow book only; the whole engine is driven over the replayed stream in `LiveAnalytics`.
- Replay.Replayer.OnTrade: drives the flow object only; the whole engine is driven over the replayed stream in `LiveAnalytics`.
- Replay.RunReplay: the loop drives shadow book and flow; pacing and the final digests are not part of it.
- Sweeps.SweepDetector.OnCluster: scores are exact reals, and thresholds that are zero, where the code divides by zero in floating point, are excluded.
- Sweeps.SweepDetector.Candidate: likewise over exact reals and positive thresholds.
- Sweeps.AcceptanceIsExact: likewise over exact reals and positive thresholds.
- Absorption.AbsorptionDetector.Evaluate: scores are exact reals, and a zero volume threshold is excluded.
- Absorption.AbsorptionDetector.OnTrade: likewise, through the evaluation of an expired window.
- Absorption.EvaluationIsExact: likewise over exact reals and a positive threshold.
- SweepRuns.SweepAcceptedExactly: over exact reals and positive thresholds.
- AbsorptionRuns.FoundExactly: over exact reals and a positive volume threshold.
- Levels.PriceRoundTrip: numerals are exact decimals; the code goes through binary floating point.
- Levels.QuantityRoundTrip: numerals are exact decimals; the code goes through binary floating point.
- Levels.ParseExact: numerals are exact decimals rounded to the nearest tick; binary floating point, exponents and the direction of ties are not modelled.
- Engine.AnalyticsEngine.ProcessEvent: the emitted analytics event records with their JSON details are not modelled, only the state and the snapshots.
- Engine.AnalyticsEngine.Take: state only, without the emitted event records.
- Engine.AnalyticsEngine.OnBookUpdated: state only, without the emitted event records.
- Engine.AnalyticsEngine.OnTrade: state only, without the emitted event records.
- Engine.AnalyticsEngine.OnLevelChange: state only, without the emitted event records.
- Integers are unbounded: 64-bit overflow and the browser's number precision are not modelled.
- The snapshot depth limit of the REST endpoint: snapshots are taken to be full-depth.
- Flushing of open absorption windows and the range queries of flow and heatmap.
- The session digest of the engine, whose liquidity fields are those of the current interval (src/analytics/engine.rs:374-384).
- Heatmap intensities and the configurable time intervals that no operation reads.
- Health status of the recording session, session verification, configuration, WebSocket and REST clients, the server, storage backends, migrations, command line.
- Timers, pacing, back-off sleeps and scheduling: steps are atomic, and their order is arbitrary where a theorem says so.
- Viewport, overlays, demo engine, full-frame reception and transport in the browser.
