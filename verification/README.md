# Verified models of an encrypted-storage client

The client moves files as encrypted blocks over HTTP, keeps several caches that
concurrent tasks share, and drives long jobs against a server it does not
control. This project models that machinery in Dafny and proves what each part
is for: that no block is lost or misplaced, that no interleaving deadlocks, that
cached answers are current, that queued work is conserved, and that the fast
form of a query says what the simple form says.

Cryptography and HTTP are abstract. A server is a function of what it is asked
and when, so every statement about "any server" ranges over every reply.
Protocols shared by several tasks are step machines whose runs are arbitrary
sequences of steps, cancellation included; code that changes things step by step
is a method or a class proved against a specification function.

| file | what it models |
|---|---|
| `UploadReader` | cutting a reader with short reads into 4 MiB blocks |
| `TransferSteps`, `TransferMoves`, `TransferPool`, `UploadWindow`, `TransferOrders` | uploads and downloads sharing one pool of block permits |
| `Manifest` | the signed manifest against the one a download rebuilds |
| `BlockListing` | speculative paging of a revision's block table |
| `RevisionReader` | ranking block sizes, planning and splicing a range |
| `SizeTrust` | when block sizes can be trusted |
| `EndToEnd` | from a stream to a server and back |
| `Recovery` | generation-checked replacement of a block table or a session |
| `SingleFlight` | joining an identical load that is already in flight |
| `ContextGate` | the context-share cache behind a readers-writer gate |
| `KeyWalk` | resolving a node's key over two caches |
| `MoveBatches`, `MoveNodes` | batch moves with one retry |
| `PhotoTransfer` | bringing photos into the timeline or an album, with one retry |
| `EventFeed` | draining the event log, and the manager that publishes it |
| `FreeName` | finding a free name by hashed candidates |
| `DuplicateSearch` | one-photo and many-photo duplicate search |
| `SubtreeWalk` | listing a shared subtree level by level |
| `Account` | opening an account's addresses and choosing the default one |
| `Wrappers`, `Nodes`, `Bytes`, `Sorting` | results, node ids, byte blocks, the stable sort |

Eight results say where the code does not do what its documentation or its
callers might expect; the code is modelled as it is.

- One upload can hold 12 block permits and never more
  (`crates/proton-drive-rs/src/client.rs:127-164` counts 4 + 5 + 1 in one place and
  4 + 4 + 5 in another): a batch never takes more than the channel of four holds.
  `TransferPool.ResidentBlocksBounded`, `UploadWindow.UploadCanHoldTwelve`.
- A listing fails when a page past the end of the table fails, though no block of
  the table is missing; otherwise it succeeds exactly when the serial one does.
  `BlockListing.SurplusErrorFailsListing`, `BlockListing.WindowRefinesSerial`.
- Two loads of one key can run at once, exactly when a leaving caller clears the entry
  of an unfinished load. `SingleFlight.OneLoadPerKeyExactlyWhenTidy`.
- A starter cancelled at the wrong moment leaves an old outcome for a later caller. A
  caller's load overlaps its own call exactly unless the load's starter was cancelled
  before. `SingleFlight.StaleAfterCancel`, `SingleFlight.ReturnsAnOverlappingLoad`.
- Two thumbnails of one type with different digests make the rebuilt manifest depend
  on the order the server lists them in. `Manifest.ListingForgottenExactlyWhen`.
- A photo listed twice in one batch and refused is reported as failed once and as
  moved once; a batch is answered faithfully whatever is refused exactly when it lists
  no photo twice. `PhotoTransfer.AlwaysFaithfulExactlyWhenListedOnce`.
- An event that arrives while the event manager is down is skipped when the next load
  fails or no cursor had been saved; with loads that succeed it is told exactly when one
  had. `EventFeed.ArrivalToldExactlyWhenSaved`, `EventFeed.ArrivalSkippedOtherwise`.
- A name that is already free is certain to come back unchanged exactly when its first
  nine alternates are taken. `FreeName.FreeNameKeptExactlyWhenAlternatesTaken`.

## Model

| member | source | states |
|---|---|---|
| UploadReader.ByteReader.Read | crates/proton-drive-rs/src/client.rs:8015-8026 | a read moves a prefix of what is left into the buffer and returns zero only at the end, interrupting or failing as its plan says |
| UploadReader.ReadFullBlock | crates/proton-drive-rs/src/client.rs:8015-8026 | the buffer is filled, or to the end of the stream, however short the reads; it fails exactly if one of the reads it makes fails for another reason than an interrupt |
| UploadReader.CutStream | crates/proton-drive-rs/src/client.rs:5146-5199 | the blocks, their sizes and the total are those of the stream cut into 4 MiB pieces, for any reader; it fails exactly if a read it makes does |
| UploadReader.ChunksRejoin | crates/proton-drive-rs/src/client.rs:5146-5199 | the blocks put back together are the stream |
| UploadReader.ChunkSize | crates/proton-drive-rs/src/client.rs:5146-5199 | every block but the last is full and block i starts at i full blocks |
| TransferMoves.MoveKeeps | crates/proton-drive-rs/src/client.rs:5128-5357 | every step of an upload or a download keeps each block in exactly one stage, the windows within bounds and the permits equal to the blocks in memory, and uses up work |
| TransferMoves.GrantKeeps | crates/proton-drive-rs/src/client.rs:5564-5609 | a granted permit goes to the oldest queued block and changes nothing else |
| TransferMoves.HolderCanMove | crates/proton-drive-rs/src/client.rs:5231-5357 | a transfer holding any permit can move with no permit left in the pool |
| TransferMoves.IdleCanMove | crates/proton-drive-rs/src/client.rs:5128-5223 | with a permit free an unfinished transfer that is not queued can move |
| TransferPool.RunKeeps | crates/proton-drive-rs/src/client.rs:5067-5116 | over every run of any mix of transfers, permits are conserved and the run is no longer than the work |
| TransferPool.ResidentBlocksBounded | crates/proton-drive-rs/src/client.rs:122-164 | free and held permits always add up to the pool; an upload holds at most 12, a download at most 10 |
| UploadWindow.UploadCanHoldTwelve | crates/proton-drive-rs/src/client.rs:5128-5223 | a run in which an upload holds 12: four in the batch, four in the channel, one waiting for it, three encrypting |
| TransferOrders.StoresInAnyOrder | crates/proton-drive-rs/src/client.rs:5347-5355 | in any state of the pool a batch can be stored in any order of its blocks |
| TransferOrders.StoresExactlyInBatches | crates/proton-drive-rs/src/client.rs:5289-5357 | an upload can finish with its blocks stored in a given order if and only if that order is one batch of at most four, or of the whole pool, after another, each rearranged in any way |
| TransferOrders.StoredInBatches | crates/proton-drive-rs/src/client.rs:5289-5357 | whatever else runs in the pool, a finished upload has stored its blocks in such an order |
| TransferOrders.FetchesInAnyOrder | crates/proton-drive-rs/src/client.rs:5564-5609 | fetches under way end in any order, and only those blocks become ready |
| TransferOrders.TenFetchesInAnyOrder | crates/proton-drive-rs/src/client.rs:5564-5609 | a download has ten fetches out at once, any of which can be ready while nothing has been delivered |
| TransferPool.ReleasesInOrder | crates/proton-drive-rs/src/client.rs:5067-5116 | released permits go to the queued requests in the order these were made |
| TransferPool.DropsAnyTime | crates/proton-drive-rs/src/client.rs:5067-5116 | an unfinished transfer can fail or be cancelled at any time; it then holds and awaits nothing, and no permit is lost |
| TransferPool.LowestBlockFirst | crates/proton-drive-rs/src/client.rs:5578-5606 | a download holding a permit holds the one for its lowest undelivered block |
| TransferPool.NeverStuck | crates/proton-drive-rs/src/client.rs:5067-5116 | for every pool of at least one permit, no reachable unfinished state is stuck |
| TransferPool.RunsEnd | crates/proton-drive-rs/src/client.rs:5067-5116 | every run has at most as many steps as there was work |
| TransferPool.MaximalRunsDeliver | crates/proton-drive-rs/src/client.rs:5095-5108 | when no transfer can go on, every upload not dropped has stored each block exactly once, as many as it read, every download not dropped has delivered its blocks in order, and all permits are back |
| Manifest.AssembleManifest | crates/proton-drive-rs/src/client.rs:8524-8535 | thumbnail digests, then block digests sorted by index |
| Manifest.RebuildManifest | crates/proton-drive-rs/src/client.rs:1397-1419 | listed thumbnails sorted by type, those with a digest, then the delivered blocks' digests |
| Manifest.AnyOrderReports | crates/proton-drive-rs/src/client.rs:8524-8535 | blocks reported once each in any order give the digests in block order |
| Manifest.AnyListingSorts | crates/proton-drive-rs/src/client.rs:1397-1408 | with one digest a type the order thumbnails are listed in is forgotten |
| Manifest.SignedEqualsRebuilt | crates/proton-drive-rs/src/client.rs:5087-5115 | for every run an upload finished in and every run a download of as many blocks finished in, the signed manifest is the one rebuilt from the blocks as delivered |
| Manifest.ListingForgottenExactlyWhen | crates/proton-drive-rs/src/client.rs:1397-1408 | the listing order is forgotten if and only if no two thumbnails of one type have different digests |
| BlockListing.ReadBatch | crates/proton-drive-rs/src/transport.rs:175-199 | one window of pages, looked at in page order, gives the pages up to the one that ends the table or the first error met |
| BlockListing.ListBlocks | crates/proton-drive-rs/src/transport.rs:161-213 | the windowed walk computes the listing and sends as many requests as the ramp says |
| BlockListing.AtMostFiveSurplus | crates/proton-drive-rs/src/transport.rs:161-199 | the window asks for at most five pages the serial walk would not |
| BlockListing.IssuedExactly | crates/proton-drive-rs/src/transport.rs:161-199 | one page, then batches of two, of four, and of six from there on, for every length of table |
| BlockListing.WindowRefinesSerial | crates/proton-drive-rs/src/transport.rs:161-213 | against any server a listing that succeeds is the serial one with indices exactly 1 to its length; it differs only by an error on a surplus page |
| BlockListing.ListsEverything | crates/proton-drive-rs/src/transport.rs:161-213 | a server with n blocks is listed completely and in order, for every n |
| BlockListing.SurplusErrorFailsListing | crates/proton-drive-rs/src/transport.rs:175-185 | an error past the end of the table fails a listing the serial walk completes |
| RevisionReader.RankBlockSizes | crates/proton-drive-rs/src/transport.rs:258-294 | recorded sizes of the right number are used exactly when all are positive; else a known total is split into sizes that add up to it; else only a single block is guessed |
| RevisionReader.PlanBlocks | crates/proton-drive-rs/src/revision.rs:396-410 | the blocks that overlap the range, each with where it starts |
| RevisionReader.ReadAt | crates/proton-drive-rs/src/revision.rs:330-360 | a read clamps its range, fetches the planned blocks and splices them in order |
| RevisionReader.PlacedReadsSlice | crates/proton-drive-rs/src/revision.rs:330-420 | with sizes that put every block where it is, a read is the slice it asked for |
| RevisionReader.RankingPlaces | crates/proton-drive-rs/src/transport.rs:258-294 | for an uploaded stream the ranking places every block, or refuses exactly when it has neither sizes nor a total for several blocks |
| RevisionReader.StreamReads | crates/proton-drive-rs/src/revision.rs:330-420 | given a stream's blocks and what an upload recorded of it, every range read is that range of the stream, whichever source the sizes came from |
| EndToEnd.UploadLeaves | crates/proton-drive-rs/src/client.rs:5289-5357 | a finished upload has stored exactly the blocks 1 to its total, in whatever order |
| EndToEnd.UploadIsServed | crates/proton-drive-rs/src/transport.rs:161-213 | listed by the windowed walk and fetched by their URLs they are the stream's blocks in order |
| EndToEnd.UploadThenRead | crates/proton-drive-rs/src/revision.rs:330-420 | any stream, uploaded in any run of the pool, listed and read back at any range, gives that range of the stream and nothing past its end |
| EndToEnd.UploadThenDownload | crates/proton-drive-rs/src/client.rs:5564-5609 | what any finished download writes is the stream |
| SizeTrust.TrustedExactlyWhenPlaced | crates/proton-drive-rs/src/transport.rs:233-257 | sizes read every file of given block lengths correctly if and only if all but the last are exact and the last is not understated |
| SizeTrust.OverstatedLosesBytes | crates/proton-drive-rs/src/revision.rs:494-515 | one block overstated, with another after it, makes some read wrong |
| SizeTrust.UnderstatedMovesBytes | crates/proton-drive-rs/src/transport.rs:233-257 | one block understated makes some read wrong for some contents |
| Recovery.BlockTargets.Refresh | crates/proton-drive-rs/src/revision.rs:193-220 | the table is replaced, at its expected length, only if nobody has replaced that generation yet |
| Recovery.BlockTargets.Ciphertext | crates/proton-drive-rs/src/revision.rs:229-240 | at most two fetches and one re-listing; exactly an expired URL re-lists, and the answer is that of the last fetch or the failure met on the way |
| Recovery.EachGenerationReplacedOnce | crates/proton-drive-rs/src/revision.rs:193-240 | for any callers, failures and cancellations, successful refreshes are exactly the generations, each replaced once, and the value in use is always an accepted one |
| Recovery.RetryUsesNewerTable | crates/proton-drive-rs/src/public_link.rs:317-335 | after a refresh returns Ok the generation is newer than the one the caller saw, the retry uses it, and nobody tries more than twice |
| Recovery.RetriesUnlessRefused | crates/proton-drive-rs/src/revision.rs:193-240 | a caller told its URL expired, and not cancelled, makes a second attempt if and only if its own listing is not refused |
| Recovery.ReplacedRetries | crates/proton-drive-rs/src/revision.rs:197-202 | a caller that finds its generation already replaced makes a second attempt |
| Recovery.ToldOfSuccess | crates/proton-drive-rs/src/revision.rs:229-240 | a caller that is not cancelled is told of success exactly when one of its attempts succeeded |
| Recovery.CancelAnyTime | crates/proton-drive-rs/src/revision.rs:193-240 | a caller can be cancelled at any time and then holds no lock |
| Recovery.OneListingAtATime | crates/proton-drive-rs/src/revision.rs:193-220 | only one caller asks the server, about the generation in use |
| Recovery.NeverStuck | crates/proton-drive-rs/src/revision.rs:193-240 | while a caller is not done some caller can step |
| Recovery.RunsEnd | crates/proton-drive-rs/src/revision.rs:193-240 | every run has at most seven steps for each caller |
| Recovery.MaximalRunsFinish | crates/proton-drive-rs/src/revision.rs:193-240 | when no caller can go on, every caller is done and the lock is free |
| SingleFlight.Flights.JoinOrStart | crates/proton-drive-rs/src/single_flight.rs:52-71 | a call joins the load in the map or puts its own there |
| SingleFlight.OneLoadPerKeyExactlyWhenTidy | crates/proton-drive-rs/src/single_flight.rs:72-81 | over a whole run, and whichever key is asked for next, no key has two unfinished loads if and only if no leaving caller clears the entry of an unfinished load |
| SingleFlight.UntidyMakesTwo | crates/proton-drive-rs/src/single_flight.rs:76 | after such a clear the next caller of the key starts a second load beside the first |
| SingleFlight.ReturnsAnOverlappingLoad | crates/proton-drive-rs/src/single_flight.rs:52-82 | over every run a caller returns the outcome of a load for its own key whose starter's call overlaps its own, exactly unless that starter was cancelled before |
| SingleFlight.OverlapWithoutCancel | crates/proton-drive-rs/src/single_flight.rs:52-82 | in runs without cancellation the overlap always holds |
| SingleFlight.EntryStillOwned | crates/proton-drive-rs/src/single_flight.rs:52-82 | the caller that inserted an entry has not run its own removal |
| SingleFlight.EmptyOnceAllReturned | crates/proton-drive-rs/src/single_flight.rs:72-82 | once all callers have returned the map is empty |
| SingleFlight.WaiterCanProceed | crates/proton-drive-rs/src/single_flight.rs:52-82 | a waiting caller can always finish its load or leave |
| SingleFlight.TwoLoadsOfOneKey | crates/proton-drive-rs/src/single_flight.rs:72-78 | such a run exists: a late waiter of one load removes the next one's entry |
| SingleFlight.StaleAfterCancel | crates/proton-drive-rs/src/single_flight.rs:72-82 | a starter cancelled after its load ended leaves its outcome for a later call |
| ContextGate.CachedIsFresh | crates/proton-drive-rs/src/client.rs:689-709 | over every interleaving, whatever is cached was fetched after the last move or invalidation released the gate |
| ContextGate.LookupsReadOwnMoves | crates/proton-drive-rs/src/client.rs:689-709 | a lookup never misses a move of this client that takes the gate |
| ContextGate.LookupAnswers | crates/proton-drive-rs/src/client.rs:689-709 | a lookup that is not cancelled answers the share cached when it looks; else what the server says when asked, which is then cached; it finds nothing just when neither knows the node |
| ContextGate.NothingOutlives | crates/proton-drive-rs/src/client.rs:8743-8774 | whatever is cached at any time after an invalidation or a move has ended was fetched after it |
| ContextGate.CancelAnyTime | crates/proton-drive-rs/src/client.rs:8752-8774 | any task can lose its caller at any time: a sent move goes on as it was, anything else is over and out of the gate |
| ContextGate.CancelledNeverSends | crates/proton-drive-rs/src/client.rs:8752-8774 | a move cancelled while queued never sends its request; a sent one is never abandoned |
| ContextGate.SentStaysSent | crates/proton-drive-rs/src/client.rs:8762-8774 | cancellation cannot take back a sent move |
| ContextGate.SentFinishes | crates/proton-drive-rs/src/client.rs:8762-8768 | a sent move can always go on to its second clear, which empties the cache and releases the gate |
| ContextGate.NothingCachedWhileSent | crates/proton-drive-rs/src/client.rs:8743-8768 | while a request is out nothing is cached and no lookup is inside the gate |
| ContextGate.NeverStuck | crates/proton-drive-rs/src/client.rs:689-709 | while a task is not over some task can step |
| KeyWalk.CachedAncestorRun | crates/proton-drive-rs/src/client.rs:7563-7590 | the ids it names are each the parent of the one before, at most 150; with the caches undisturbed it holds no ancestor that would not have been fetched, and stops only at a full batch, an unknown parent, a root or below a cached key |
| KeyWalk.ClimbRun | crates/proton-drive-rs/src/client.rs:7504-7524 | fetching a run climbs over all of it, strictly upward, keeping the key to derive the same |
| KeyWalk.ResolveParentKeyWalk | crates/proton-drive-rs/src/client.rs:7480-7551 | for any cache content and eviction the walk ends with the key the naive recursion from the root gives; with the caches undisturbed it needs the server only for the ancestors below the nearest cached one, and caches the keys of exactly these |
| KeyWalk.DecryptDown | crates/proton-drive-rs/src/client.rs:7538-7550 | unlocking downward gives the parent key and caches the true keys of all links on the way |
| KeyWalk.ResolveParentKey | crates/proton-drive-rs/src/client.rs:7445-7475 | the entry point returns the same key, from the cache or by the walk, and needs the server for no more |
| KeyWalk.VisitorNodeKey | crates/proton-drive-rs/src/public_link.rs:1111-1161 | a visitor's walk gives the node's own key derived from the shared root down; with the caches undisturbed it needs the server only for what lies below the nearest cached key |
| MoveBatches.AggregateOutcomes | crates/proton-drive-rs/src/client.rs:8436-8454 | an envelope read into a map gives each link its last listed outcome |
| MoveBatches.ListedMeans | crates/proton-drive-rs/src/client.rs:8436-8454 | an outcome is a success exactly when the last answer naming the link has code 1000, and otherwise a failure with that code |
| MoveBatches.RemoteOriginalHash | crates/proton-drive-rs/src/client.rs:3173-3206 | a hash is taken exactly from a node still under the parent, and with the name, the move was prepared against |
| MoveBatches.MoveRun.TakeMoveBatch | crates/proton-drive-rs/src/client.rs:8413-8428 | a batch takes up to 150 moves signed like the first, stops short only when full, and leaves the rest in order |
| MoveBatches.TakenCounts | crates/proton-drive-rs/src/client.rs:8413-8428 | a batch and what it leaves are the queue, nobody lost |
| MoveBatches.JudgeBatch | crates/proton-drive-rs/src/client.rs:3138-3166 | reading a reply link by link settles or re-queues each one as its last listed outcome says |
| MoveBatches.SettledFate | crates/proton-drive-rs/src/client.rs:3138-3166 | what is reported after a last reply: its refusal, or the meaning of the last code given to the link, or that there was none, or why an out-of-date move could not be sent again |
| MoveBatches.MoveRun.SubmitMoveBatch | crates/proton-drive-rs/src/client.rs:3105-3166 | what a reply settles is reported and what it calls out of date is queued again with the server's hash |
| MoveBatches.JudgedOnce | crates/proton-drive-rs/src/client.rs:3138-3166 | each link of a batch is either reported or queued again, once |
| MoveBatches.RoundCostsLess | crates/proton-drive-rs/src/client.rs:3087-3103 | every request uses up sends: two for a new move, one for a retry |
| MoveBatches.RoundKeeps | crates/proton-drive-rs/src/client.rs:3087-3166 | one request keeps the run sound: reports are what the last reply says, batches are of one kind with each move once, a second send is the same move with the hash the server holds |
| MoveBatches.MoveRun.SubmitMoves | crates/proton-drive-rs/src/client.rs:3087-3103 | against any server the queue empties within its budget, each queued move is reported once, as moved just if the last answer naming its link in some request that carried it had code 1000 |
| MoveBatches.StaleIsSentAgain | crates/proton-drive-rs/src/client.rs:3138-3206 | a link called out of date at its first send, whose hash can be had, goes out again as the same move with that hash |
| MoveBatches.FirstSent | crates/proton-drive-rs/src/client.rs:3087-3103 | a reported move went out first exactly as it was queued |
| MoveNodes.TargetsOnce | crates/proton-drive-rs/src/client.rs:2992-3018 | no node is looked up twice and none of another volume |
| MoveNodes.LookedUpMeans | crates/proton-drive-rs/src/client.rs:3036-3042 | a lookup holds what its requests of at most 150 ids returned, the last one to name a link winning, and fails with the first request that does |
| MoveNodes.TurnAway | crates/proton-drive-rs/src/client.rs:2992-3018 | another volume, a bad name or an earlier item for the link turns an item away with that reason, in that order |
| MoveNodes.RejectionsMean | crates/proton-drive-rs/src/client.rs:2992-3018 | every item is looked up or turned away: for its volume, else for a name empty or over 255 long, else for an earlier item that names its link |
| MoveNodes.PrepareMoves | crates/proton-drive-rs/src/client.rs:2992-3084 | every item is queued or already failed, exactly once, and the call fails exactly when something is left to move and its keys or links cannot be had |
| MoveNodes.AnswerPositions | crates/proton-drive-rs/src/client.rs:2929-2950 | each position gets its node's outcome in input order, repeats agreeing on success |
| MoveNodes.ReportsAreTrue | crates/proton-drive-rs/src/client.rs:2992-3166 | a report is a success just if a request was accepted, what was sent is explained by the last request that carried it, what failed before was never sent, and nothing is sent more than twice |
| MoveNodes.MoveNodes | crates/proton-drive-rs/src/client.rs:2902-2952 | every input position is answered with what became of its node: of another volume, not to be prepared, or as the last request that carried it says, first sent as the drive built it; the call fails exactly when a listed node is on the volume and the keys or the links cannot be had |
| PhotoTransfer.TransferPhotoPayload | crates/proton-drive-rs/src/client.rs:6784-6837 | the payload is the photo with what it declares and what the server asked for, skipping what cannot be built |
| PhotoTransfer.LoadedMeans | crates/proton-drive-rs/src/client.rs:6784-6837 | a photo loads exactly when it can be built, is not in the target already and declares its related photos, and brings those of them, or of the demanded ones, that can be built |
| PhotoTransfer.SecondSendCarriesDemanded | crates/proton-drive-rs/src/client.rs:6811-6837 | a photo listed once that goes out again carries every related photo an earlier request was told is missing and that can be built |
| PhotoTransfer.FirstDemandIsRetried | crates/proton-drive-rs/src/client.rs:8869-8885 | a photo listed once whose first request was refused with related photos missing goes out again, or with just these could not be loaded or sent |
| PhotoTransfer.Transfer.RecordTransferOutcome | crates/proton-drive-rs/src/client.rs:8869-8885 | an answer is an outcome, unless it is the first demand for related photos, which queues the photo again with just these |
| PhotoTransfer.RecordEach | crates/proton-drive-rs/src/client.rs:6924-6971 | recording a batch settles or re-queues each photo, a re-queue uses up its retry, and success is recorded just for photos without complaint |
| PhotoTransfer.Transfer.RecordTransferOutcomes | crates/proton-drive-rs/src/client.rs:6924-6971 | a batch's complaints go to the first photo that claims each and the rest read as successes |
| PhotoTransfer.AgainstMeans | crates/proton-drive-rs/src/client.rs:6924-6971 | what is held against a photo is its last answer with another code than 1000 or an error text: the related photos it names, or else the text, or else the code |
| PhotoTransfer.AlwaysFaithfulExactlyWhenListedOnce | crates/proton-drive-rs/src/client.rs:6966-6970 | a batch is answered faithfully whatever the server refuses if and only if it lists no photo twice |
| PhotoTransfer.SecondCopyReadsAsSuccess | crates/proton-drive-rs/src/client.rs:6966-6970 | one photo listed twice and refused is reported failed, then moved |
| PhotoTransfer.PostedKept | crates/proton-drive-rs/src/client.rs:6843-6921 | a batch leaves every photo's account balanced, its request well shaped, what is queued again asking for what the server named, and every report of a photo listed once resting on the last reply to it or on why it could not be sent |
| PhotoTransfer.CopiedKept | crates/proton-drive-rs/src/client.rs:6975-7028 | so does a copy from another volume |
| PhotoTransfer.Transfer.LoadRound | crates/proton-drive-rs/src/client.rs:6724-6740 | the first twenty queued photos, or all of them, are loaded and sorted by volume, or reported |
| PhotoTransfer.Transfer.SendBatches | crates/proton-drive-rs/src/client.rs:6742-6763 | the requests carry the groups in order, cut just before each group that would pass ten links, and no group is split |
| PhotoTransfer.LinksArePhotos | crates/proton-drive-rs/src/client.rs:6742-6763 | the links of a batch are its photos, main and related |
| PhotoTransfer.CutsAreTight | crates/proton-drive-rs/src/client.rs:6742-6763 | a batch holds at most ten links or is a single group, and the group after it would have taken it past ten |
| PhotoTransfer.CutsJoin | crates/proton-drive-rs/src/client.rs:6742-6763 | the batches put back together are the groups in their order |
| PhotoTransfer.Transfer.TransferPhotoBatch | crates/proton-drive-rs/src/client.rs:6843-6921 | an answered batch accounts for all its photos; an unanswered one ends the call |
| PhotoTransfer.TransferPhotos | crates/proton-drive-rs/src/client.rs:6696-6775 | against any server the queue empties; a call that returns Ok has one outcome per input, sends an input once more than it was listed at most, reports a photo listed once as the last reply to it says or as why it could not be loaded or sent, and every group it sent was loaded from its queue entry |
| EventFeed.EnumerateEvents | crates/proton-drive-rs/src/client.rs:1235-1281 | page after page until an empty, last or refreshing one; without a cursor, the server's head |
| EventFeed.EnumeratedIsDrained | crates/proton-drive-rs/src/client.rs:1249-1280 | every batch is the visible events in order, none missing, up to where it stops, moves over nothing or is told to jump |
| EventFeed.DrainAnswers | crates/proton-drive-rs/src/client.rs:1249-1280 | over the pages a drain reaches: it ends in a loss of continuity if and only if the last page asks for a refresh, in an advanced cursor if and only if that page is empty and its id is another than asked for, and otherwise with its own events |
| EventFeed.DrainWalks | crates/proton-drive-rs/src/client.rs:1249-1280 | every drain reaches a last page |
| EventFeed.EnumeratesAll | crates/proton-drive-rs/src/client.rs:1235-1281 | a server that keeps continuity and says more until its end is drained completely |
| EventFeed.BatchCovers | crates/proton-drive-rs/src/client.rs:1249-1280 | nothing visible between the old and the new cursor is left out, unless the batch says continuity was lost |
| EventFeed.PublishKeeps | crates/proton-drive-rs/src/event_manager.rs:232-243 | publishing follows the attempt to invalidate for that event, and the last event of a batch lets the cursor move past all of it |
| EventFeed.RunKeeps | crates/proton-drive-rs/src/event_manager.rs:175-253 | through failed polls, failed saves and crashes nothing between the latest seed and the cursor, in memory or saved, goes untold |
| EventFeed.SavedSeedsStay | crates/proton-drive-rs/src/event_manager.rs:175-201 | once a cursor is saved, while loads succeed, the seed never moves |
| EventFeed.NothingSkippedOnceSaved | crates/proton-drive-rs/src/event_manager.rs:209-253 | from a saved cursor on, while loads succeed, every visible event any cursor has passed was told |
| EventFeed.OnePollTellsAll | crates/proton-drive-rs/src/event_manager.rs:209-253 | one poll of a server drained to its end leaves every visible event after the seed told, whatever becomes of the invalidations and the save |
| EventFeed.GapIsTold | crates/proton-drive-rs/src/event_manager.rs:209-253 | a poll that meets a gap publishes it, moves the cursor to where it jumps and leaves every visible event up to there told |
| EventFeed.ArrivalToldExactlyWhenSaved | crates/proton-drive-rs/src/event_manager.rs:175-253 | an event that arrives while the manager is down is told before any cursor passes it, in every continuation whose loads succeed, if and only if a cursor had been saved |
| EventFeed.ArrivalSkippedOtherwise | crates/proton-drive-rs/src/event_manager.rs:175-201 | if the load fails or none had been saved, the cursor is seeded past it, untold |
| EventFeed.RestartCanSkip | crates/proton-drive-rs/src/event_manager.rs:175-201 | a first start, an arrival and a restart reach that state |
| FreeName.LastDot | crates/proton-drive-rs/src/client.rs:8357-8363 | the extension starts at the last dot |
| FreeName.AlternateKeepsExtension | crates/proton-drive-rs/src/client.rs:8350-8370 | an alternate is the name with its number in parentheses before a file's extension, or at a folder's end |
| FreeName.CandidatesDiffer | crates/proton-drive-rs/src/client.rs:8357-8370 | no two candidates are the same name |
| FreeName.FruitlessBound | crates/proton-drive-rs/src/client.rs:2650-2680 | every fruitless request uses up ten of the digests ever taken |
| FreeName.Search | crates/proton-drive-rs/src/client.rs:2648-2680 | the search ends within a tenth of the taken digests plus one requests, with the candidate listed first in the earliest answer that is not empty, or the error of a failed request or an unknown digest |
| FreeName.FoundIsFree | crates/proton-drive-rs/src/client.rs:2668-2680 | from an honest server the result is free, of the earliest batch that has a free name, and never the unknown-digest error |
| FreeName.GetAvailableName | crates/proton-drive-rs/src/client.rs:2628-2681 | the same from the name itself and its numbered alternates |
| FreeName.FreeNameKeptExactlyWhenAlternatesTaken | crates/proton-drive-rs/src/client.rs:2671-2677 | a free name comes back unchanged from every honest server if and only if its first nine alternates are taken |
| FreeName.OnlyFreeNameKept | crates/proton-drive-rs/src/client.rs:2671-2677 | it is kept when it is the only free one of the first ten |
| FreeName.FreeAlternateCanWin | crates/proton-drive-rs/src/client.rs:2671-2677 | one free alternate is enough for some honest server to rename a free name |
| DuplicateSearch.FindPhotoDuplicates | crates/proton-drive-rs/src/client.rs:6008-6073 | the active photos whose name and content match, in server order |
| DuplicateSearch.MatchesAre | crates/proton-drive-rs/src/client.rs:6043-6073 | a link is found exactly when an entry with it is in state 1 and has both hashes |
| DuplicateSearch.MatchesGrow | crates/proton-drive-rs/src/client.rs:6043-6073 | each entry that matches adds its link at the end, and no other adds any |
| DuplicateSearch.CaseIsIgnored | crates/proton-drive-rs/src/client.rs:6057-6062 | hashes are compared letter by letter, upper case as lower |
| DuplicateSearch.IndexByHash | crates/proton-drive-rs/src/client.rs:6123-6138 | distinct name hashes in order, and every position that has each |
| DuplicateSearch.SortOnto | crates/proton-drive-rs/src/client.rs:6152-6172 | one answer adds to each position exactly its matches, in server order |
| DuplicateSearch.FindPhotoDuplicatesMany | crates/proton-drive-rs/src/client.rs:6086-6176 | each input gets what the one-photo search gives it, with repeated names and any chunks |
| DuplicateSearch.PhotoNameCollisions | crates/proton-drive-rs/src/client.rs:6184-6246 | a position is flagged just if some active photo carries its name |
| DuplicateSearch.CollidesMeans | crates/proton-drive-rs/src/client.rs:6230-6240 | a name collides exactly when an entry with a link and in state 1 carries it |
| DuplicateSearch.NoCollisionNoMatch | crates/proton-drive-rs/src/client.rs:6178-6183 | a false is conclusive |
| SubtreeWalk.ListLevel | crates/proton-drive-rs/src/public_link.rs:561-581 | six listings at a time, finishing in any order, are handed on in level order with rising counts |
| SubtreeWalk.EnumerateSubtree | crates/proton-drive-rs/src/public_link.rs:554-584 | the walk ends, fails only if a listing fails, and its reported counts rise to the total |
| SubtreeWalk.WalkIsDescendants | crates/proton-drive-rs/src/public_link.rs:536-548 | it lists every node as often as plain recursion does |
| SubtreeWalk.WalkInLevelOrder | crates/proton-drive-rs/src/public_link.rs:531-541 | nodes come level by level |
| SubtreeWalk.WalkListsEachOnce | crates/proton-drive-rs/src/public_link.rs:531-541 | on a tree each descendant comes once, in level order, and the start folder never |
| Account.DecryptAddress | crates/proton-sdk/src/account.rs:488-554 | an address opens exactly when some active primary key does |
| Account.OpenedAreActive | crates/proton-sdk/src/account.rs:496-534 | the opened keys are exactly those of active entries, opened with the passphrase of a signed token or else the one stored for the key |
| Account.PrimaryIndexNamesIt | crates/proton-sdk/src/account.rs:492-534 | the primary index names the first opened active primary key |
| Account.OpenAll | crates/proton-sdk/src/account.rs:203-229 | addresses that do not open are set aside with the last reason given for their id, and the first reason is kept; it ends exactly at the first failure of another kind; the keys kept for an id are those of the last address opened with it |
| Account.ReasonsMean | crates/proton-sdk/src/account.rs:212-217 | an id is set aside just if an address with it failed, with the reason of the last one that did |
| Account.FirstReasonMeans | crates/proton-sdk/src/account.rs:216 | the reason kept is the first failure's |
| Account.Account.Addresses | crates/proton-sdk/src/account.rs:191-245 | the openable addresses sorted by order, loaded once, and their keys; it fails with the keys, the list or the first failure of another kind, or when none opens with the reason the first one did not |
| Account.DefaultComesFirst | crates/proton-sdk/src/account.rs:230-239 | the lowest-ordered address, first on ties, is in front if it opened, whatever else failed |
| Account.Account.DefaultAddress | crates/proton-sdk/src/account.rs:266-275 | once addresses are loaded it succeeds exactly when every listed address with the lowest-ordered one's id opened, and then gives that lowest-ordered address; otherwise it fails with the last reason given for its id |

## Left out

- Backoff delays, poll intervals and the foreground switch of the event manager: a failed poll or seed is a step that changes nothing.
- Cryptography: parameters stand for decryption, hashing and signing; the end-to-end results assume that decryption undoes encryption and the free-name search that a keyed hash has no collisions.
- HTTP, its rate limiting, timeouts and the upload's own retries of a failed block: a transfer whose request fails for good is dropped, and a dropped transfer gives back its permits.
- The bytes of thumbnail uploads and the sealing request; the manifest takes their digests as given.
- Integer width: file sizes are bounded so that their sum stays below 2^64; block counts below the 32-bit page start are taken for granted.
- KeyWalk.ResolveParentKeyWalk: needs what the walk itself trusts, that no link is its own ancestor and that cached parent pointers agree with the server; without them the walk may not end or may give another key.
- KeyWalk.ResolveParentKey: models one caller; joining an identical load is the subject of the single-flight module.
- ContextGate.LookupsReadOwnMoves: only single and batch moves take the gate; a photo transferred into the timeline (`crates/proton-drive-rs/src/client.rs:6878-6903`) does not, and counts as a change from outside.
- ContextGate.CachedIsFresh: a request the server applies only after its reply was lost and the gate released counts as another client's change.
- Recovery.RetryUsesNewerTable: session renewal is the same machine with every renewed session accepted; building the handshake is not modelled.
- EventFeed.EnumerateEvents: the log may grow between polls but is fixed at its final length while one batch is drained; an event that cannot be parsed is a failed poll.
- EventFeed.RunKeeps: a subscriber that falls behind the broadcast buffer is told so by the channel, which is not modelled.
- MoveNodes.PrepareMoves: re-encrypting one node for its new parent is a function of the drive, and its failure is that node's outcome; the anonymous signature is only the kind it gives the move.
- PhotoTransfer.TransferPhotos: when a whole batch goes unanswered the call fails and the outcomes gathered so far are discarded, as in the code; nothing is claimed of them.
- FreeName.Search: ends because a server that says nothing of a batch is free only says so of taken names, of which there are finitely many; one that said so forever would be asked forever.
- SubtreeWalk.EnumerateSubtree: a listing is the children that exist and decrypt; skipping the others is part of the listing.
- Account.Account.DefaultAddress: user keys, salts and passphrases are given; their own caches are not modelled.
- Coherence of the node cache and the folder keys under concurrent loads: those caches have no gate, and a load in flight may put back an entry an invalidation removed.
- Sharing, invitations, bookmarks, devices, public-link creation, timestamps and role masks: request building and one-branch facts.
