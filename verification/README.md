# Wiltkey relay: a verified model

The Wiltkey relay stores and forwards encrypted messages. Its guarantees live between files: a
small message is in exactly one place while senders, queues and connections race; one bucket
object is shared by many message rows and deleted with the last; a device token rotates while two
holders may present it; budgets, buckets and cooldowns bound what one party can cause; caches and
shared maps must answer like simple tables. This project models those parts in Dafny, in the
in-memory Redis mode, and proves the guarantees for every input and every run.

`dafny verify dfyconfig.toml` checks the whole project.

## How it is built

| file | what it models |
|---|---|
| `Text`, `Numbers`, `CryptoOps` | string and set helpers, decimal rendering, hex rendering, proof of work |
| `Storage`, `Messages`, `BucketHandlers` | the object store and its URLs, the `messages` table, the fan-out loop, the acknowledgement and the cleanup pass as they run one after another |
| `BucketRefs`, `BucketRunning`, `BucketStored`, `BucketReclaim`, `BucketHistory`, `BucketObjects` | the same handlers interleaved statement by statement: safety of each object at every moment of its upload, of whole runs, reclamation, and which pointer rows and objects are stored |
| `InlineDelivery`, `InlineHistory` | delivery through inline rows under every interleaving: what is lost, what stays and what goes |
| `SmallDelivery`, `SmallHistory`, `SmallOrder`, `WaitingEnvelopes` | delivery through the offline queue: where each envelope is, what a queue holds, in which order it is handed over, and what may wait for a connected recipient |
| `Hub` | the connection registry |
| `MemoryQueue` | the capped, expiring offline queue |
| `FloodGuard` | the read loop's token bucket and broadcast charging |
| `DeviceTokens` | mint, verify, touch and revoke of device tokens |
| `Counters`, `Strikes`, `StrikeHistory`, `StrikeRuns` | per-address counters and cooldowns with their trims, wrong puzzle answers, whom they turn away, and the runs that reach their bound |
| `Handshake`, `HandshakeServed`, `HandshakeQuota`, `HandshakeRuns`, `QuotaRuns` | the connection handshake, who joins, the daily quota and the runs that exceed it |
| `HandshakeTokens` | handshakes seen through one user's row are runs of the token machine |
| `HandshakeStrikes`, `HandshakeStrikeRuns` | handshakes and the strike machine: each run of either is seen as, or played by, one of the other |
| `SocialBudget`, `StoryHistory`, `BudgetRaces` | the weekly story budget and the stories under it, handlers one after another and their statements interleaved |
| `MemoryBlocks`, `MemoryHistory`, `Entitlements`, `EntitlementRaces` | the shared expiry map, what it answers, and the premium cache kept in it, undisturbed and interleaved |
| `QueuePost`, `QueuePostHistory` | challenge and voucher credentials of the queue-post endpoint, and who earns a post |

Objects whose methods update fields are classes (`RedisQueues`, `Registry`, `Relay`,
`DeviceTokenTable`, `RedisCounters`, `BudgetTable`, `RedisClient`, `Client`, `MessageTable`,
`ObjectStore`); loops are loops with invariants. Each method is specified by a function on values,
and the theorems are about those functions. Where goroutines race, a run is a sequence of events,
each one statement, clock read, store call or hand-over of one goroutine (a mint reads its clock and
writes its row in one), and a theorem about runs holds for every sequence. One monotone clock serves Go and SQL. SHA-256 and Ed25519 are arbitrary functions;
a stored token digest is a symbol that only its own token matches. What a theorem asks of the clock's
stamps, of challenges and of clients can be met: `Counters.StampsExist`, `HandshakeRuns.PassportsExist`
and `HandshakeStrikeRuns.LicencesExist` give examples, and signatures are only asked to fit one text
among the texts that a run has them checked for.

The `...History` modules, `HandshakeServed` and `FloodGuard` say the same things from the outside: who
is served, what is stored and what is answered, as an if-and-only-if over the events of the run alone,
with the lifetimes and limits written out as numbers.

## What the proofs found

Twelve guarantees one would expect are false of the code as it stands. Each has a lemma with the
run that shows it, and the theorem next to it states exactly when the code does keep the guarantee.

- **A message row can point at an object that is gone.** An acknowledgement that counts zero between
  two inserts of the fan-out loop may delete the object before the next insert
  (`MidLoopDeleteStrands`) or after the loop has ended (`MidLoopCountStrands`). Every row has its
  object throughout a run exactly when no loop inserts for a deleted object and no delete is carried
  out after a new row has appeared (`RowsHaveTheirObjectsExactly`). Whether an object is safe for ever
  can be told at every moment of its upload (`ObjectsAreSafeExactly`): with two recipients to go it
  never is; with one, only if nobody has an eye on its rows yet; with none, exactly when it is there
  for the rows it has and nobody has decided to delete it.
- **A prune can orphan an object.** A row that expires between the sweep's SELECT and its DELETE is
  removed uncounted (`SweepGapOrphans`). A failure-free run leaves nothing behind exactly when no
  sweep takes the last rows of an object that way (`NoOrphansExactly`).
- **Disconnecting can lose an inline row, and so can a read that breaks off.** The sweep deletes rows
  it never fetched, because they came later (`DisconnectLosesARow`) or because its read ended early
  without an error (`ShortReadLosesARow`). All removed rows were handed over exactly when no sweep
  takes a row that nobody had handed over or was about to, and no sender misses the recipient of a
  removed one (`RemovedRowsAreHandedExactly`); so it is while the recipient stays registered and its
  rows are read in full.
- **An envelope can wait for a recipient who is online.** A sender that missed the recipient may
  queue after the recipient has connected and fetched (`CrossingLeavesAnEnvelopeWaiting`); the
  envelope then stays until the next connection. `NothingWaitsForTheConnectedExactly` says when.
- **Rotation is only rate-limited for verdicts nobody has overtaken.** Three connections that all
  verified before any of them minted rotate in one instant (`ParallelVerdictsPingPong`). The bounds
  hold exactly for verdicts with no mint in between (`RotationBoundsHoldExactly`). Also, a mint
  after a revoke brings the revoked token back as the overlap token (`MintRevivesRevoked`).
- **The daily cap can be exceeded around midnight.** The day is read before the lock, so a call can
  count for a day that is over; if it finds the counter map too large, its trim drops the counters of
  the running day, and an address gets its whole quota again, as often as that happens
  (`OvertakenDaysExceedTheCap`). The first `dailyCap` calls, one by one, are the ones allowed exactly
  when there are no more calls or no such trim falls between two of them
  (`GrantsAreTheFirstAsksExactly`).
- **So can the limit on wrong puzzle answers around the hour**, by two answers for every such trim
  (`WrongAnswersPerHourIsTight`); the bound of 2 + 2k for k handshakes side by side, four for one
  after another, holds exactly without one (`WrongAnswersBoundedExactly`). Full handshakes reach it too
  (`HandshakesReachTheBound`). The bound does not need stamps to differ: it also holds in the hour that
  comes twice when clocks are put back.
- **A voucher can be spent twice by waiting across its expiry.** The remaining life is read before
  the lock and the marker's clock after it (`WaitingAcrossExpirySpendsTwice`);
  `VouchersAuthoriseOnceExactly` gives the exact condition.
- **A wipe that loses the budget row but keeps the stories breaks the story bound** if bytes were
  posted at that very instant (`StoriesStayWithinBudgetExactly`). Every wipe that loses the row also
  reopens the week's budget: seven days admit two windows' worth and one more for each such wipe
  (`AnySevenDays`), a number reached for any number of wipes (`WipesReopenTheBudget`).

- **The weekly budget can be charged several times over when the week turns.** Opening a week is an
  unconditional write, so of posts that all find the week over each wipes out what the others have
  charged: k of them charge k whole budgets (`RacingPostsMultiplyTheBudget`). The row tells the truth
  exactly when no week is opened with a clock reading at or after which bytes were charged
  (`BudgetIsTruthfulExactly`); however they race, each opening admits one budget (`OneBudgetPerOpening`).
- **The premium cache can outlive the row it copies**, by exactly the time between the two clock reads
  that make up its expiry (`CopiesOutliveTheirRowExactly`, `HeldUpWriterLeavesALateCopy`).
- **It can also keep a row that has been replaced**, if a check stores what it read before a purchase
  and stores it last (`OvertakenCheckLeavesAStaleCopy`); `CacheIsUpToDateExactly` says when.

One more bound depends on a condition: a fetch returns the newest thousand unexpired messages of the
full log exactly when every unexpired one that the queue has lost has a thousand later ones still
unexpired (`FetchesTheNewestExactly`). That is so for nondecreasing expiries
(`OrderedExpiriesRefine`), and need not be for mixed ones (`MixedLifetimesDiffer`).

Where the code and its own comments or tests disagree, the model follows the code:

- the comment on the fan-out says that one recipient's download cannot strand the file for the others
  (`wiltkey_server/handlers.go:286-291`); it can while the loop is still inserting;
- the comment on the premium cache says that its lifetime must never outlive the real expiry
  (`wiltkey_server/main.go:828-830`); it does by the time between computing and applying it;
- the comment on the puzzle mode says `off` never challenges, but `puzzleRequiredForClient` does not
  look for `off`, so a client that advertises the capability is challenged from its second issuance
  of the day on (`wiltkey_server/puzzle.go:38-41`, `wiltkey_server/puzzle.go:63-84`);
- `wiltkey_server/device_token_test.go:177-182` expects a refresh for a fresh overlap token, which
  the code grants only in the last 12 hours of the overlap;
- `wiltkey_server/integration_test.go:312-347` uses ordering frames the dispatcher does not have.

## Model

| member | source | states |
|---|---|---|
| BucketRunning.ObjectsAreSafeExactly | wiltkey_server/handlers.go:292-359 | for every run of uploads, inserts, ACKs and sweeps with arbitrary failures, every object and every moment: no continuation leaves a row without the object, if and only if either no insert is to come and the object, should a row point at it, is stored and nobody has decided to delete it, or one insert is to come, it is stored and undecided, no row points at it and nobody is on the way to count |
| BucketRunning.FinishedObjectsAreSafeExactly | wiltkey_server/handlers.go:292-359 | for every run of uploads, inserts, ACKs and sweeps with arbitrary failures and every finished fan-out loop: in every continuation each row finds its object, if and only if the object, should a row point at it now, is stored now and no goroutine has decided to delete it |
| BucketRunning.CountsAfterTheLoopAreSafe | wiltkey_server/handlers.go:554-579 | if the object is stored when the loop has ended and nobody has decided to delete it by then, no later row, count or delete ever leaves a row without it |
| BucketRefs.MidLoopCountStrands | wiltkey_server/handlers.go:309-351 | the stale case is reachable: a run of two recipients and one ACK whose last step deletes a referenced object |
| BucketRefs.MidLoopDeleteStrands | wiltkey_server/handlers.go:309-351 | so is a delete between the two inserts: a run that ends with a row whose object is gone and nobody left to delete it |
| BucketRefs.RefsGrowOnlyByStore | wiltkey_server/handlers.go:321-326 | no step but the object's own running loop gives a URL a reference it did not have |
| BucketRefs.DecisionsComeFromZeroCounts | wiltkey_server/db.go:353-366 | a goroutine starts to hold a delete decision only at a moment when no row references the URL |
| BucketRefs.ADecisionCanBeCarriedOut | wiltkey_server/main.go:685-694 | whoever holds a zero count can reach the delete in finitely many steps without any row changing |
| BucketStored.RowsHaveTheirObjectsExactly | wiltkey_server/handlers.go:503-580 | for every run with arbitrary failures: every row has its object at every moment, if and only if no loop inserts a row for an object already deleted and no delete is carried out while a row points at its object |
| BucketStored.TimelyInsertsKeepObjects | wiltkey_server/handlers.go:309-351 | the inserts alone decide: if each finds its object stored and not decided upon, every row has its object throughout |
| BucketReclaim.NoOrphans | wiltkey_server/handlers.go:540-579 | if no call fails and each sweep sees one instant, then in every interleaving that has come to rest an object is stored only if a row references it |
| BucketReclaim.RemovalIsOwed | wiltkey_server/db.go:348-366 | the step that removes an object's last reference leaves a goroutine that will still look at the object |
| BucketReclaim.NoOrphansExactly | wiltkey_server/db.go:331-369 | in every failure-free interleaving that has come to rest an object is stored only if a row references it, if and only if no DELETE removed the last rows of an object its SELECT had not seen expire, with nobody else due to look at it, and no loop ended after its rows had gone that way |
| BucketReclaim.SweepGapOrphans | wiltkey_server/db.go:331-351 | a run without failures that ends at rest with an unreferenced object |
| BucketHistory.PointerRowsAreStoredExactly | wiltkey_server/handlers.go:309-336 | in every interleaving a pointer row is stored if and only if a fan-out loop inserted it, for the next recipient in its order, with the sender, the URL of its own upload and the time left, and since then neither an acknowledgement by that recipient nor a sweep after its expiry deleted it |
| BucketHistory.LoopsServeEveryone | wiltkey_server/handlers.go:309-336 | a loop ends only after it has come to each recipient of its upload |
| BucketObjects.CountsDecideExactly | wiltkey_server/handlers.go:554-579 | in every interleaving an acknowledgement goes on to delete the object if and only if its count succeeds and no pointer row stands at it, and a sweep reports a URL if and only if the same holds |
| BucketObjects.LoopsTakeBackExactly | wiltkey_server/handlers.go:338-351 | a loop that ends takes its object back if and only if it inserted no row and the delete succeeds |
| BucketObjects.FailedUploadsLeaveExactly | wiltkey_server/storage.go:60-110 | a failed upload leaves a file exactly if the store had created one, and no later step of any run deletes it |
| BucketHandlers.Relay.BroadcastLargeFile | wiltkey_server/handlers.go:292-359 | the loop adds exactly one pointer row per accepting recipient, in order, keeps the object if and only if someone accepted, and keeps "stored exactly if referenced" unless a failed call leaves a file behind |
| BucketHandlers.Relay.HandleFileReceived | wiltkey_server/handlers.go:503-580 | only the recipient's own file row is removed, the object goes exactly when that was the last reference and no call failed, and no referenced object is ever deleted whatever fails |
| BucketHandlers.Relay.Cleanup | wiltkey_server/main.go:671-696 | one cleanup tick removes the expired rows and deletes exactly the objects that lost their last reference by it, save those whose delete fails; no referenced object goes |
| Storage.KeyRoundTrip | wiltkey_server/main.go:582-591 | the key parser recovers every slash-free key from the URL that either backend builds |
| Storage.ObjectStore.Upload | wiltkey_server/storage.go:60-110 | a successful upload adds the key and returns its URL; a failed one adds nothing, except that the local store keeps a file it had created |
| Storage.ObjectStore.Delete | wiltkey_server/storage.go:80-82 | a successful delete removes the key, a failed one changes nothing |
| Messages.MessageTable.StoreMessageSized | wiltkey_server/db.go:240-253 | inserts one row under a new id and leaves all others |
| Messages.MessageTable.DeleteInlineMessages | wiltkey_server/db.go:320-323 | removes every inline row of the recipient, fetched or not, and nothing else |
| Messages.MessageTable.PruneExpiredMessages | wiltkey_server/db.go:331-369 | undisturbed, reports exactly the URLs that had a row and have none any more |
| Messages.CountIsReferenceTest | wiltkey_server/db.go:313-317 | the row count is zero exactly when no row references the URL |
| InlineDelivery.NothingIsLostWhileRegistered | wiltkey_server/websocket.go:131-168 | in every interleaving in which the recipient stays registered and no fetch of its rows breaks off, each inline row removed before its expiry was handed to one of the recipient's connections |
| InlineDelivery.RemovedRowsAreHandedExactly | wiltkey_server/websocket.go:131-168 | in every interleaving that has come to rest, whoever connects and leaves and however short a read falls: each row removed before its expiry was handed to a connection of its recipient, if and only if no sweep deleted an unexpired row that nobody had handed over or was about to and no sender missed the recipient of a removed one |
| InlineDelivery.DisconnectLosesARow | wiltkey_server/websocket.go:131-168 | a run in which a disconnect between fetch and delete loses a row for good |
| InlineDelivery.ShortReadLosesARow | wiltkey_server/db.go:289-299 | a run in which the recipient never leaves, its read of two rows ends after the first without an error, and both are deleted |
| InlineHistory.StoredUntilRemoved | wiltkey_server/db.go:240-253 | until it expires an inline row is stored exactly as it was sent unless it was removed early, and it is stored as long as its recipient has never connected |
| InlineHistory.PrunedRowsAreGone | wiltkey_server/db.go:331-351 | a prune at or after the expiry of an inline row takes it for good |
| InlineHistory.HandedRowsAreGone | wiltkey_server/handlers.go:150-171 | in every interleaving in which no DELETE fails, at rest no inline row that was handed over, live or by a sweep, is stored any more |
| InlineHistory.NothingIsLeftForTheConnected | wiltkey_server/websocket.go:131-168 | if moreover no fetch fails or breaks off, at rest no unexpired inline row is stored for a recipient whose last connection has not left, and unless some step loses a row each was handed to one of the recipient's connections |
| InlineHistory.HubIsTheLastRegistered | wiltkey_server/websocket.go:82-107 | the connection found for an id is exactly the last to have registered for it, until it leaves |
| SmallDelivery.ExactlyOnePlace | wiltkey_server/handlers.go:174-189 | in every interleaving each accepted envelope is in exactly one slot: a pending sender, one queue position, one position of a drained list, one hand-over, or dropped |
| SmallDelivery.HandedToItsRecipient | wiltkey_server/websocket.go:109-129 | whatever is handed over goes to a connection of the envelope's own recipient |
| SmallDelivery.DropsHaveTheirReason | wiltkey_server/redis.go:149-172 | whatever step drops an envelope took it out of the queue it filtered: as expired only past its expiry, as capped only on an arrival at over a thousand unexpired entries |
| SmallDelivery.PlacedStep | wiltkey_server/redis.go:206-230 | each step moves exactly the envelopes it touches, each to one next place |
| SmallOrder.FetchedInSendOrder | wiltkey_server/websocket.go:109-129 | in every interleaving: of two envelopes that one fetch has handed over, the one queued first was handed over first |
| SmallOrder.WorkedOffFromTheFront | wiltkey_server/redis.go:206-230 | at every moment the list a connection works off is a suffix of what was unexpired in the queue as it was fetched |
| SmallHistory.QueuesAreTheirLogs | wiltkey_server/redis.go:149-172 | in every interleaving each queue is what the arrivals of the envelopes and nukes queued for its id since the last fetch make of it, each with the recipient and the lifetime it was sent with |
| SmallHistory.ConnectingFetchesTheNewestExactly | wiltkey_server/websocket.go:109-129 | in every interleaving a connecting recipient gets exactly the newest thousand unexpired of them, if and only if every unexpired one that the queue has lost has a thousand later ones still unexpired |
| SmallHistory.LookupFindsTheConnectedExactly | wiltkey_server/handlers.go:174-189 | a sender hands the envelope to the connection that registered last for the recipient and has not left, and queues it exactly if there is none |
| SmallHistory.RecipientsAsSent | wiltkey_server/handlers.go:174-189 | every accepted envelope keeps the recipient it was sent to |
| WaitingEnvelopes.NothingWaitsForTheConnectedExactly | wiltkey_server/handlers.go:174-189 | in every interleaving no envelope is left waiting for a connected recipient without a fetch on its way, if and only if no sender queues for one who has connected and fetched since its lookup |
| WaitingEnvelopes.PromptSendersLeaveNothingWaiting | wiltkey_server/handlers.go:174-189 | so it is whenever no recipient connects between a sender's lookup and its queueing: senders queue only for the absent |
| WaitingEnvelopes.CrossingLeavesAnEnvelopeWaiting | wiltkey_server/websocket.go:109-129 | a run that ends with an envelope queued for a connected recipient and nobody to fetch it |
| MemoryQueue.FilterInPlace | wiltkey_server/redis.go:149-172 | the filter that writes into the slice it reads never overwrites an unread entry: the result is the filter of the original |
| MemoryQueue.RedisQueues.AddMessageToQueue | wiltkey_server/redis.go:149-172 | the recipient's queue becomes the newest thousand unexpired of itself and the new entry, all other queues are untouched |
| MemoryQueue.RedisQueues.FetchAndClearQueue | wiltkey_server/redis.go:206-230 | returns the unexpired entries in order and empties the queue |
| MemoryQueue.QueueIsBounded | wiltkey_server/redis.go:149-172 | after any arrivals with any lifetimes the queue holds at most 1000 entries |
| MemoryQueue.QueueKeepsSendOrder | wiltkey_server/redis.go:149-172 | the queue is the log of arrivals read at strictly increasing positions |
| MemoryQueue.CapNeedsAThousandLater | wiltkey_server/redis.go:149-172 | an unexpired message is missing only behind at least 1000 later ones to the same recipient |
| MemoryQueue.OrderedExpiriesRefine | wiltkey_server/redis.go:206-230 | with nondecreasing expiries a fetch returns exactly the last 1000 unexpired entries of the full log |
| MemoryQueue.FetchesTheNewestExactly | wiltkey_server/redis.go:206-230 | for any mix of lifetimes a fetch returns exactly the last 1000 unexpired entries of the full log, if and only if every unexpired entry the queue has lost has at least 1000 later ones still unexpired |
| MemoryQueue.MixedLifetimesDiffer | wiltkey_server/redis.go:149-172 | the condition can fail: after 1002 arrivals the queue has lost a message that is among the last two unexpired ones |
| Hub.Registry.Run | wiltkey_server/websocket.go:82-107 | processes any registrations and unregistrations without closing a closed channel; the map and the open channels at the end are those of the history |
| Hub.LookupIsTheLastRegistered | wiltkey_server/websocket.go:411-416 | an id resolves to a connection if and only if that connection registered last under the id and has not unregistered since |
| Hub.ClosedExactlyWhenRetired | wiltkey_server/websocket.go:95-104 | a channel is closed if and only if its connection was unregistered while it was the current one |
| Hub.ChannelsCloseAtMostOnce | wiltkey_server/websocket.go:82-107 | with each connection registered once, connections in the map are open and no channel closes twice, however often they are unregistered |
| Hub.ReRegistrationClosesTwice | wiltkey_server/websocket.go:82-107 | registering one connection twice would close its channel twice |
| DeviceTokens.DeviceTokenTable.MintDeviceToken | wiltkey_server/db.go:677-697 | the row after a mint: new token for 60 days, the old one in the overlap slot until it would have expired or 24 hours have passed, not revoked |
| DeviceTokens.DeviceTokenTable.VerifyDeviceToken | wiltkey_server/db.go:703-739 | the verdict and the near-expiry flag for any row and time, without changing the row |
| DeviceTokens.AcceptedExactly | wiltkey_server/db.go:703-739 | after any run a raw token is accepted if and only if it is the last minted within 60 days, or the last but one within its overlap, and no revoke followed the last mint |
| DeviceTokens.JudgedExactly | wiltkey_server/db.go:703-739 | what a connection is told, whatever is minted or revoked between its SELECT and its clock read: its token is accepted if and only if it worked by the history at the SELECT and the later clock, and is to be refreshed if and only if it was due then |
| DeviceTokens.RefreshAskedExactly | wiltkey_server/db.go:703-739 | a token asks for a fresh one if and only if it works and is in its last seven days, or in the last twelve hours of its overlap |
| DeviceTokens.AtMostTwoAccepted | wiltkey_server/db.go:677-739 | at most two raw tokens of a user are acceptable at any moment |
| DeviceTokens.TokenLimits | wiltkey_server/db.go:677-753 | no token works 60 days after its mint, 24 hours after its demotion, after two later mints, or between a revoke and the next mint |
| DeviceTokens.MintRevivesRevoked | wiltkey_server/db.go:684-691 | a run in which a revoked token works again after the next mint |
| DeviceTokens.QuickRotationNeedsAnOldToken | wiltkey_server/websocket.go:551-582 | a rotation on an up-to-date verdict within 12 hours of the last mint needs the mint before that to be over 59 days older |
| DeviceTokens.NoPingPong | wiltkey_server/websocket.go:551-582 | three consecutive mints ending in such a rotation span more than 12 hours |
| DeviceTokens.RotationBoundsHoldExactly | wiltkey_server/websocket.go:551-582 | both bounds hold for every rotation since whose SELECT a given number of mints were made if and only if that number is zero |
| DeviceTokens.ParallelVerdictsPingPong | wiltkey_server/websocket.go:551-582 | verdicts taken side by side escape the bound: three rotations in one instant |
| FloodGuard.Client.ReadPump | wiltkey_server/websocket.go:340-372 | accepts frames up to the first that finds less than one token, routes what those frames ask for (messages, typing statuses, nukes, broadcasts), and leaves the bucket within [-255, 200] |
| FloodGuard.Client.HandleBroadcast | wiltkey_server/handlers.go:203-284 | takes, with the read loop's token, one token per distinct recipient and routes to the unblocked ones in order |
| FloodGuard.RoutedExactly | wiltkey_server/handlers.go:203-284 | a broadcast that passes its gates and names at most 256 distinct ids reaches exactly those that are neither empty, the sender nor blocked, whoever else is blocked, in the order of first mention; any other reaches nobody, and a frame for one recipient exactly that one |
| FloodGuard.ChargedExactly | wiltkey_server/handlers.go:203-284 | a broadcast pays one token for each distinct id it names, blocked or not, and every other frame one |
| FloodGuard.RecipientsAreDistinct | wiltkey_server/handlers.go:203-217 | the recipient list has no repetition and holds exactly the named ids that are neither empty nor the sender |
| FloodGuard.RoutingIsPaid | wiltkey_server/handlers.go:203-284 | a frame reaches each recipient at most once, nobody it does not name, and never more than it is charged for |
| FloodGuard.BucketBounds | wiltkey_server/websocket.go:349-362 | the bucket stays between -255 and 200 over any accepted frames |
| FloodGuard.RoutingRate | wiltkey_server/websocket.go:349-362 | between any two accepted frames, both included, at most 455 + 100 per elapsed second recipients are routed to, typing statuses and nukes included |
| FloodGuard.RoutingRateIsTight | wiltkey_server/websocket.go:27-30 | 455 in one instant is reached |
| FloodGuard.LetThroughExactly | wiltkey_server/websocket.go:349-362 | a client's frames are all let through if and only if no stretch of them costs more than 199 tokens and 100 for every second it takes |
| Counters.BumpCountsExactly | wiltkey_server/redis.go:758-775 | one more count raises its own key by one and leaves every other count; if it trims the map, it forgets exactly the counts of all other days or hours |
| Counters.KeysDiffer | wiltkey_server/redis.go:764-764 | counter keys of different addresses or stamps differ, for every address, colons included, and stamps without one |
| Counters.PruningKeepsCooldowns | wiltkey_server/redis.go:841-857 | pruning the cooldown map never changes a later answer |
| Counters.RedisCounters.AllowIssuance | wiltkey_server/redis.go:758-775 | counts the call for the day it is given and allows it exactly while that count was below the cap |
| Counters.RedisCounters.Trim | wiltkey_server/redis.go:768-773 | deleting while ranging keeps exactly the keys of the current stamp |
| Counters.RedisCounters.SetChallengeCooldown | wiltkey_server/redis.go:861-875 | arms the address and drops at most lapsed entries |
| Counters.TrimsExactly | wiltkey_server/redis.go:766-774 | a counter map is trimmed when it has more than 4096 keys, the one being counted among them |
| StrikeHistory.TurnedAwayExactly | wiltkey_server/redis.go:841-875 | in every interleaving a handshake is turned away at the cooldown check if and only if less than thirty minutes ago a wrong answer from its address was counted as the third or a later one of its hour |
| Strikes.RegisterChallengeStrikeForRejection | wiltkey_server/puzzle.go:169-180 | a rejected solution counts one strike of the hour it read and arms 30 minutes from the third on |
| Strikes.WrongAnswersPerHour | wiltkey_server/puzzle.go:111-180 | in every interleaving with all other addresses, with at most k handshakes of an address side by side, a clock hour sees at most 2 + 2k wrong well-formed answers from it and two more for every time a call with an overtaken hour trims its strikes away |
| Strikes.AtMostFourWrongPerHour | wiltkey_server/websocket.go:638-664 | one handshake after another and no such trim: at most four |
| StrikeRuns.WrongAnswersPerHourIsTight | wiltkey_server/redis.go:807-875 | for every k and every number of such trims a run that reaches the bound; with k = 1 and one trim, six wrong answers |
| StrikeRuns.WrongAnswersBoundedExactly | wiltkey_server/redis.go:807-824 | the bound of 2 + 2k holds for all runs with a given number of such trims if and only if that number is zero |
| HandshakeStrikes.HandshakesAnswerWrongAtMost | wiltkey_server/websocket.go:638-664 | the same bound for every interleaving of full handshakes with at most k connections of an address at the puzzle |
| HandshakeStrikeRuns.EveryStrikeRunIsPlayed | wiltkey_server/puzzle.go:111-180 | and conversely, where the puzzle is always asked for: every run of the strike machine is played by full handshakes, each on a connection of its own, with the same wrong answers at the same instants, as much side by side and forgetting as often |
| HandshakeStrikeRuns.HandshakesReachTheBound | wiltkey_server/websocket.go:638-664 | for every k and every number of trims full handshakes reach the bound, on challenges that do not repeat if those drawn do not |
| HandshakeStrikeRuns.HandshakeWrongsBoundedExactly | wiltkey_server/redis.go:807-824 | the bound of 2 + 2k holds for all runs of full handshakes with a given number of such trims if and only if that number is zero |
| HandshakeStrikes.RunIsARun | wiltkey_server/puzzle.go:111-180 | seen through its puzzle seats, every run of handshakes is a run of the strike machine, as much side by side and forgetting as often |
| Handshake.OnlyClearedConnectionsJoin | wiltkey_server/websocket.go:514-711 | in every interleaving a connection that joins had, earlier, a valid signature and either a token accepted on the row read for it or a presented nonce that solves the proof of work, the puzzle its mode asks for (served outside any cooldown), an allowed issuance and its mint |
| Handshake.FactsHaveGrounds | wiltkey_server/websocket.go:514-711 | every such fact of a run was so at the step that recorded it: the key signed this challenge and token, the token verified at that clock against the row that had been read, the presented nonce met the difficulty, the counter it read stood at zero or below the cap, no cooldown ran |
| Handshake.QuotaIsAskedAfterTheGate | wiltkey_server/puzzle.go:63-106 | nobody asks for daily quota before the proof of work and the puzzle gate |
| Handshake.JoinsAreSignedForThisChallenge | wiltkey_server/websocket.go:531-563 | whoever joins had signed the challenge of this very connection together with the presented token, under a key that stands for the user, and either that token was accepted on the row read for the user or this connection presented a nonce that solves the proof of work over this challenge and key |
| Handshake.SignaturesAreNotReplayed | wiltkey_server/websocket.go:517-530 | unless a random challenge repeats or a signature fits two of the texts it was checked for, no two connections get past the signature check with the same signature: a captured AUTH frame is useless on another connection |
| HandshakeServed.LetInExactly | wiltkey_server/websocket.go:514-711 | from every state a client that is not disturbed joins if and only if its key stands for a user and signed the challenge with the token, and either the user's row accepts the token now or, without a token, its nonce solves the proof of work, it clears the puzzle as the mode asks, and its address has made fewer calls today than the cap |
| HandshakeTokens.HandshakesAreATokenRun | wiltkey_server/websocket.go:551-582 | seen through one user's row every interleaving of handshakes is a run of the token machine, with the mints of that user as its history |
| HandshakeTokens.JudgedAsDue | wiltkey_server/websocket.go:551-582 | in every interleaving a presented token that worked by the user's mints up to the SELECT, and does at the clock, is admitted without touching a row, unless it is in its last seven days or the last twelve hours of its overlap: then it goes on to rotate; any other is refused |
| HandshakeTokens.MintsTakeEffect | wiltkey_server/websocket.go:572-582 | a successful rotation or issuance admits and leaves a row under which the new token works for sixty days; a failed rotation admits with the rows as they were, a failed issuance closes, and nobody else's row changes |
| HandshakeTokens.RotationsKeepTheirBounds | wiltkey_server/websocket.go:551-582 | the bounds on rotation hold for handshakes: with no mint of the user since its SELECT, one within twelve hours of the last mint needs the one before to be over 59 days older, and completes three mints that span more than twelve hours |
| HandshakeTokens.RowAcceptsExactly | wiltkey_server/db.go:703-739 | after any interleaving of handshakes and revokes the row accepts a token exactly as the user's mints and the last revoke say |
| HandshakeQuota.CallsAreCountedSinceTheLastTrim | wiltkey_server/redis.go:758-775 | in every interleaving a call is allowed exactly if fewer than `dailyCap` calls of its address and day were counted since a trim last dropped that day |
| HandshakeQuota.GrantsAreTheFirstAsksExactly | wiltkey_server/redis.go:758-775 | per address and day each call of the run is allowed exactly if fewer than `dailyCap` calls came before it, if and only if there are no more calls than that or no trim of a call for another day falls between two of them |
| HandshakeQuota.GrantsAreBounded | wiltkey_server/redis.go:758-775 | in every run at most one cap of calls is allowed for an address and day, and one more for each time its counter is dropped |
| HandshakeQuota.GranteesWithinCapExactly | wiltkey_server/websocket.go:666-684 | no more connections of an address than the cap are let through to the mint for a day, under exactly that condition |
| QuotaRuns.OvertakenDaysExceedTheCap | wiltkey_server/redis.go:758-775 | in every puzzle mode, for every cap and every number of drops a run that lets one address through, and mint, that many caps more than one, every connection with a challenge and a minted token of its own |
| QuotaRuns.CapHoldsExactly | wiltkey_server/redis.go:758-775 | the cap holds for all runs without a repeated challenge in which a counter is dropped a given number of times if and only if that number is zero |
| HandshakeQuota.MintersWithinCap | wiltkey_server/websocket.go:666-693 | only connections that were allowed mint, and under that condition no more of an address for a day than the cap |
| HandshakeQuota.OneMintAndNoQuotaForFailures | wiltkey_server/puzzle.go:67-72 | a connection mints at most once on that path, and a failed puzzle never touches the daily counter |
| SocialBudget.BudgetTable.ConsumeSocialBudget | wiltkey_server/db.go:486-515 | opens the week if due, then charges all the bytes if they fit and none otherwise |
| SocialBudget.StoriesStayWithinBudgetExactly | wiltkey_server/handlers.go:617-636 | through any sequence of handlers, with resets, failed inserts, deletions, prunes, wipes and plan changes, stories since week_start fit into bytes_used and that into 100 MB at every moment, if and only if no wipe loses the budget row while bytes posted at that instant stay |
| SocialBudget.ChargedPostsFitTheirPlan | wiltkey_server/db.go:492-515 | in every run each charge, with all earlier ones of its window, is at most 10 MB, 100 MB with Plus, also when more was charged before Plus lapsed |
| SocialBudget.FreeUsersStayFree | wiltkey_server/db.go:492-495 | a run without Plus never has more than 10 MB used |
| SocialBudget.AnySevenDays | wiltkey_server/db.go:438-482 | in every run of handlers that do not race any half-open seven days admit at most two windows' worth of budget and one more for each wipe inside them that lost the budget row |
| SocialBudget.PostsAreChargedExactly | wiltkey_server/db.go:486-515 | in every run of handlers that do not race a post is charged if and only if its bytes and the history's charges of the running week fit the plan, and a week that is over or was wiped counts for nothing |
| SocialBudget.StoriesAreCharged | wiltkey_server/handlers.go:617-636 | in every run, wipes included, each stored story was charged in full at the instant it was posted |
| StoryHistory.StoriesAreStoredExactly | wiltkey_server/handlers.go:617-636 | in every run a story is stored if and only if it was posted, charged and inserted, and has since been neither deleted, nor pruned after its 24 hours, nor wiped |
| SocialBudget.WipesReopenTheBudget | wiltkey_server/db.go:630-649 | for every number of such wipes some seven days admit exactly that many windows' worth more than two |
| BudgetRaces.BudgetIsTruthfulExactly | wiltkey_server/db.go:438-515 | in every interleaving of the statements of posts, looks and wipes, failures included: the row states at every moment what was charged since its week began, if and only if no week is opened with a clock reading at or after which bytes were charged |
| BudgetRaces.WeekFitsTheBudget | wiltkey_server/db.go:486-515 | then the bytes charged since the week began fit the Plus budget |
| BudgetRaces.OneBudgetPerOpening | wiltkey_server/db.go:438-515 | in every interleaving what is charged from any instant on is at most one budget for each week opened since, and one more |
| BudgetRaces.RacingPostsMultiplyTheBudget | wiltkey_server/db.go:467-479 | for every k a run in which k posts charge k whole budgets to one week while the row states one, and that bound is reached |
| BudgetRaces.UndisturbedPostIsOneStep | wiltkey_server/db.go:438-515 | from every state the statements of one post that runs alone open the week if due and charge it as the sequential model has it |
| MemoryBlocks.SharedMapsRefineIndependentCells | wiltkey_server/redis.go:371-409 | over any run at any times the shared maps answer each call about a name as a cell of its own would, so no call of another kind or about another id changes an answer |
| MemoryBlocks.KeysAreInjective | wiltkey_server/redis.go:572-606 | among well-formed names the map key determines kind and id; story ids, tokens and key hashes may be any text |
| MemoryBlocks.ColonFreeIsWellFormed | wiltkey_server/handlers.go:710-710 | ids without a colon are always well formed |
| MemoryHistory.AnswersExactly | wiltkey_server/redis.go:371-409 | over any history of calls a queue is blocked for 24 hours from its last block unless unblocked, a file token gives back for ten minutes what was stored with it, a cached hash and a nonce last as long as they were stored for, and a throttle lets through exactly when the cooldown of the last call it let through is over |
| MemoryBlocks.QueueKeyCollidesExactly | wiltkey_server/redis.go:371-376 | a queue id shares its entry with something else if and only if it reads like a tagged key |
| MemoryBlocks.ReservedQueueIdLooksBlocked | wiltkey_server/redis.go:397-409 | for such ids an answer does change: the condition is needed |
| MemoryBlocks.TicketRoundTripExactly | wiltkey_server/redis.go:1026-1050 | a file token gives back message id and user id if and only if the user id has no colon; the message id may be any text |
| MemoryBlocks.RedisClient.AllowAction | wiltkey_server/redis.go:597-606 | refuses strictly before the stored end and otherwise starts a new cooldown |
| MemoryBlocks.RedisClient.GetFileToken | wiltkey_server/redis.go:1026-1050 | the parsed ticket while its expiry is not past, else two empty strings |
| Entitlements.CacheAgreesWithPostgres | wiltkey_server/main.go:208-229 | after any run of undisturbed purchases, renewals, shortenings, failed writes, cache fills, lapses and restarts, the check equals asking Postgres, except exactly when a cached non-empty row is read at its expiry instant |
| Entitlements.RowsAreTheLastPurchases | wiltkey_server/main.go:819-835 | after any run each user's row is the hash and expiry of that user's last stored purchase, renewals and shortenings as much as the first, thirty days for a self-hosted relay; whoever has none has no row |
| Entitlements.PremiumUntilExpiry | wiltkey_server/main.go:208-229 | so the check says yes from a stored purchase up to its expiry and no after it, whatever was cached before, and no to whoever never stored one |
| Entitlements.CheckIsDirectExactly | wiltkey_server/redis.go:1066-1075 | for one check: the answer differs from Postgres if and only if a live copy is read at its expiry |
| Entitlements.YesIsRemembered | wiltkey_server/main.go:215-223 | a check that says yes leaves a copy under which later ones say yes until the row expires, Postgres reachable or not |
| Entitlements.PurchaseIsRemembered | wiltkey_server/main.go:828-835 | so does a stored purchase, from its own instant on |
| Entitlements.RecordKeepsStepExactly | wiltkey_server/main.go:819-835 | recording a row keeps the cache in step for all users if and only if the expiry lies ahead, nothing was cached, or the row is unchanged |
| Entitlements.LapsedRecordLeavesAStaleCopy | wiltkey_server/main.go:828-835 | a past expiry over a live copy would leave a wrong yes |
| Entitlements.VerifiedExpiryIsFuture | wiltkey_server/play_billing.go:163-197 | a verified expiry is the latest line item and strictly ahead; there is one if and only if the state entitles and some item lies ahead |
| Entitlements.UnreachableChecksAreHonest | wiltkey_server/main.go:214-218 | a check that cannot reach Postgres says yes only where Postgres would, away from the expiry instant |
| Entitlements.Verify | wiltkey_server/play_billing.go:163-197 | the loop over line items computes that verdict |
| Entitlements.Relay.CheckPremiumSubscription | wiltkey_server/main.go:208-229 | the answer, the failure and the cache fill of the check |
| EntitlementRaces.CopiesOutliveTheirRowExactly | wiltkey_server/main.go:828-835 | in every interleaving a cached copy expires later than its row by exactly the time between its writer's two clock reads; a check answered from a copy of the present row differs from Postgres exactly from the row's expiry to the copy's |
| EntitlementRaces.HeldUpWriterLeavesALateCopy | wiltkey_server/redis.go:1053-1060 | for every delay a run that ends with a yes that long after the row has expired |
| EntitlementRaces.CacheIsUpToDateExactly | wiltkey_server/main.go:208-229 | in every interleaving of checks, purchases, failed statements and restarts what is cached is at every moment a copy of the present row or due to be replaced by one, if and only if no copy of an overtaken row is stored when nobody with the present one is left, and nobody left finds the present one lapsed over an older copy |
| EntitlementRaces.ChecksAreTruthfulAtRest | wiltkey_server/main.go:208-229 | then, at rest, the check agrees with Postgres except exactly between the expiry of the row and that of its copy |
| EntitlementRaces.UndisturbedPurchaseIsOneStep | wiltkey_server/main.go:819-835 | from every state a purchase that runs alone leaves its own row as the present one and, if any time is left, its copy in the cache |
| EntitlementRaces.UndisturbedCheckIsOneStep | wiltkey_server/main.go:208-229 | from every state a check that runs alone leaves a copy of an entitling row if nothing live was cached, and else changes nothing |
| EntitlementRaces.OvertakenCheckLeavesAStaleCopy | wiltkey_server/main.go:215-223 | a run that ends at rest with a yes from a copy that was read before its row was shortened |
| CryptoOps.HexEncode | wiltkey_server/internal/cryptoops/cryptoops.go:45-53 | the loop renders every byte as its two lower-case hex digits |
| CryptoOps.LeadingZerosAreABound | wiltkey_server/internal/cryptoops/cryptoops.go:45-53 | a rendering starts with d zeros if and only if the bytes, read big-endian, are below 16 to the power of digits minus d |
| CryptoOps.VerifyPoWIsABound | wiltkey_server/internal/cryptoops/cryptoops.go:17-24 | difficulty d accepts exactly the digests below 16^(64-d), and none for d over 64 |
| CryptoOps.VerifyPoWDownwardClosed | wiltkey_server/internal/cryptoops/cryptoops.go:17-24 | a solution is a solution for every lower difficulty |
| CryptoOps.HashedTextDetermines | wiltkey_server/internal/cryptoops/cryptoops.go:17-24 | with challenge and payload lengths fixed the hashed text determines challenge, nonce (negative ones too) and payload |
| QueuePost.ChallengesAuthoriseOnce | wiltkey_server/main.go:265-290 | in every interleaving a challenge lets through at most as many posts as it was issued |
| QueuePost.ChallengesAreTakenInTime | wiltkey_server/redis.go:468-494 | in every interleaving a request takes a challenge only within five minutes of an issue of it |
| QueuePost.NoncesRestTenMinutes | wiltkey_server/redis.go:509-521 | once a nonce was let through, no later step of any run lets it through again for ten minutes, although vouchers write to the same map |
| QueuePost.AuthorisedPostsHaveProof | wiltkey_server/main.go:265-319 | every post let through solved a challenge this relay issued, at its difficulty and for its own envelope, or carries a voucher its recipient signed |
| QueuePostHistory.AuthorisedExactly | wiltkey_server/main.go:265-319 | after any history of interleaved requests one that runs undisturbed is let through if and only if it names a recipient and an envelope and either its challenge was issued within five minutes and not taken since, its digest meets the issued difficulty and its nonce was not let through within ten minutes, or its voucher is signed, stands for the recipient, has life left and no live marker |
| QueuePost.VouchersAuthoriseOnceExactly | wiltkey_server/redis.go:620-635 | in every interleaving each signature string lets through at most one post if and only if no used voucher is spent whose marker lapsed before the lock was held although life was left before |
| QueuePost.PromptVouchersAuthoriseOnce | wiltkey_server/redis.go:620-635 | so it does whenever no wait for the lock runs across a voucher's expiry, although the marker itself expires |
| QueuePost.WaitingAcrossExpirySpendsTwice | wiltkey_server/redis.go:620-635 | a run, for every voucher, in which such a wait lets two posts through on one signature |
| QueuePost.SignatureFixesVoucher | wiltkey_server/voucher.go:36-41 | a signature fixes sender and expiry, even for a sender hash with colons |
| QueuePost.NonceKeysAreNoMarkers | wiltkey_server/redis.go:509-521 | proof-of-work nonces never touch a voucher marker in the shared map |
| QueuePost.RedisClient.ConsumeVoucher | wiltkey_server/redis.go:620-635 | grants exactly while life is left and no live marker exists, and then sets the marker |
| QueuePost.RedisClient.AuthorisePost | wiltkey_server/main.go:265-319 | the credential checks of one undisturbed request, in the order of the handler, agree with the interleaved machine |

## Left out

- NoPingPong: holds for a verdict no other mint has overtaken, which `RotationBoundsHoldExactly` shows to be the exact condition
- QuickRotationNeedsAnOldToken: the same condition
- AnySevenDays: for handlers one after another; racing ones keep `OneBudgetPerOpening`
- PostsAreChargedExactly: for handlers one after another; racing ones keep `BudgetIsTruthfulExactly`
- StoriesStayWithinBudgetExactly: for handlers one after another, for the same reason
- CacheAgreesWithPostgres: for handlers one after another; racing ones keep `CacheIsUpToDateExactly`
- HandshakesReachTheBound: for the mode that always asks for the puzzle; in the others an address has to be issued a token first
- NoOrphansExactly: covers the runs in which no call fails; after a failed call the source itself leaves the object behind
- NoOrphans: the case of sweeps that see one instant
- Real Redis command paths: sorted sets, second granularity and separate commands differ from memory mode, and no agreement of the two modes is claimed
- The delivery handlers, the handshake and the interleaved bucket handlers are step machines on values rather than classes, because what they promise is about interleavings; the heap aliasing of their Go objects is not captured there
- 1-on-1 large sends and large queue posts are fan-outs with one recipient; the offers a reconnecting client gets for its pending files are not modelled
- The SQL engine: a failed statement changes nothing, and a commit whose answer is lost is not modelled
- What `SendJSON` does after the hand-over: full channels, dropped frames, write time-outs
- Rounding: the flood bucket is a real number, not a float64
- Duration saturation: the remaining life of a voucher with an expiry centuries ahead is not cut off
- Google, FCM and Play Integrity network calls, random generation and signature mathematics: parameters; among the texts a run checks a signature string for it is taken to verify one, and spellings of one signature that differ in hex case are different strings
- `time.Format` stamps: any text without a colon that differs for different days or hours; a day is 24 hours and an hour starts with the clock's, so days of 23 or 25 hours and zones with half-hour offsets are not modelled. Where local hours repeat because clocks are put back, only the upper bounds on wrong answers are claimed
- A token mint reads its clock and writes its row in one step
- Random tokens: those minted in one run of handshakes are taken to differ
- The last_seen update of the handshake: no other statement reads that column
- The handshake's read deadlines and socket errors: any read may end the connection at any time
- Typing status, wake pushes, push tokens, nuke rate limits, IP bans, HTTP status mapping, JSON, logging, environment parsing: single-branch code without a property across functions
- The puzzle's answer formula: a right answer is an outcome of the solving step
- Pairing and tunnel helpers: dead code by the repository's own note
- The Flutter client and the platform runners are not part of this model
