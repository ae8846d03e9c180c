# Event hub, key and secret stores, redaction and configuration expansion

A Dafny model of the shared Go packages of the API platform, with proofs about them.

**The event hub** (`common/eventhub`) lets replicas talk through a SQL database. Any
replica publishes by inserting an event row and stamping a fresh version on the
gateway's row. Every replica has one poller: it pages through the gateway rows,
compares versions, fetches events from a timestamp cursor, drops the replayed boundary
row, hands events to bounded channels and writes the cursor back. Subscribers come and
go meanwhile, consumers receive, and old rows are deleted.

* `HubModel` is the protocol as a state machine over one replica and the shared tables.
  A poll is cut where the code takes and releases its locks: snapshot, fetch and trim,
  hand-out, write-back. The hand-out holds only the read lock, so it is one step for the
  lock, one for every check of the buffers and one for every single send; receives,
  publishes and deletions may come between any two of them, changes of the registry may
  not. The check reads all buffers in one step: only the poller fills them, so what it
  finds is what the code finds when it reads the last, or the first full, one of them.
  A step that is not enabled leaves the state as it is, so a run is any sequence of steps.
* `HubInvariant`, `HubDelivery` and `HubReceipts` prove the inductive invariants,
  `HubTheorems` the guarantees over whole runs, `HubLaws` what single operations mean to
  callers (what a poll fetches, who holds an open channel), `HubHandOuts` what any
  hand-out amounts to, `HubProgress` when a round makes progress and when it stalls,
  `HubLiveness` when a gateway catches up over a whole run, `HubExactness`,
  `HubLateCommits` and `HubWindows` exactly when each assumption of no-loss may be dropped,
  and `HubLossExample` and `HubStallExample` runs that lose an event or stall.
* `Registry` and `Backend` hold the methods of `topic.go` and `sqlbackend.go` in
  imperative form, publishing and the whole poll round included, with the steps of other
  replicas, of consumers and of this replica's own callers mixed in as an arbitrary
  schedule says. Each method of `Backend` is proved to be a step, or a run of steps, of
  the protocol. `Paging`, `Publish`, `Interleavings` and `PollRuns` hold what these
  contracts speak of.

**The API-key store** (`ApiKeyStore` on the heap, `ApiKeyIndex` for what is proved over
runs), **the webhook-secret store** (`WebhookSecretStore`, `TrimmedMaps`), **redaction**
(`Redact`), and **configuration expansion** (`ConfigExpand`) are independent of the hub.
Go maps are visited in an arbitrary order, modelled by an arbitrary choice of the next
key, so every contract holds for every order.

## What is assumed

The assumptions about the environment are predicates over a state and a step, and the
theorems that need them ask for them at every step of the run.

* `CommitOrder`: the rows of a gateway commit in timestamp order. The clock is read
  before the commit (`common/eventhub/sqlbackend.go:337` and 374), so the code does not
  enforce this.
* `Attended`: a non-empty batch is handed out while somebody is subscribed. Otherwise
  the cursor moves all the same (lines 629-637).
* `AfterCleanup`: a new row is not older than an earlier cleanup cutoff (retention is
  positive, `platform-api/config/config.go:825`).
* Versions are fresh: a publish never stamps a version that was stamped before.
* Clocks show between 10^17 ns and the int64 limit (`ClockRange`).

Ordering, exactly-once and channel safety need only the last two.

## What turned out not to hold in general

* A hand-out after the last subscriber has left loses events
  (`UnattendedRunLosesAnEvent`; exactly when: `HandOutLosesNothingIff`).
* A row that commits out of order can be lost, also one that is not before the cursor if
  the poll in flight has fetched a later one, and also during a gateway's first poll, when
  there is no cursor yet (`LateCommitLosesAnEvent`, `InFlightCommitLosesAnEvent`,
  `FirstPollCommitLosesAnEvent`; exactly when: `CommitKeepsPromiseIff`, `CommitIsSafeIff`).
* A round need not make progress. It does in every case exactly if fewer than 100 of the
  rows at the cursor have been handed out (`ProgressIff`). With 100 or more rows at the
  cursor, all handed out, no round makes progress as long as nobody receives during it
  (`StallIff`, `StaysStalled`); such a state is reached (`StallIsReachable`). In between
  it depends on the order in which the database returns rows of one timestamp. If
  consumers receive during the hand-out, the gateway can catch up (`RoundCanCatchUp`).
* `ReplaceAll` of the API-key store does not check names, so it can leave two keys under
  one name, and a later regeneration then leaves one of the old hashes usable
  (`TwoKeysOfOneName`; exactly when: `ReplacedIsGoodIff`, `RegenerationRetiresIff`).
* Storing an API key is not atomic: on a conflict the key of the same name is gone
  (`ConflictLosesAKey`; exactly when: `ConflictIsHarmlessIff`).
* `ReplaceAll` of the webhook store can depend on the map order when two ids, or two
  names of one id, trim to the same (`CollidingIdsDependOnOrder`,
  `CollidingNamesDependOnOrder`; exactly when: `OrderIndependentIff`).
* Redaction can leave a secret that fits over a part of the placeholder
  (`NotApartSurvives`; exactly when: `RedactOneIff`, `StarFreeRedactionIff`).

The comment at `common/eventhub/sqlbackend.go:553-556` speaks of a cursor that is reset
when the last subscriber leaves; `common/eventhub/topic.go:116-122` resets only the
known version. The model follows the code in `topic.go`.

## Model

| member | source | states |
|---|---|---|
| `HubTheorems.NoLostWakeUp` | common/eventhub/sqlbackend.go:546-664 | In every state of every run, polls in flight included: if a gateway with an established cursor has `knownVersion` equal to its non-empty stored version, every retained row at or after the cursor has been handed out. Stale pages, publishes between the version read and the fetch, blocked polls, receives between the sends of one hand-out and unsubscribes between hand-out and write-back are all among the steps. |
| `HubTheorems.NoLoss` | common/eventhub/sqlbackend.go:557-654 | Across sessions (last unsubscribe, publishes while away, re-subscribe): every committed event from the first replayed window on has reached a non-empty subscriber list, is pending at the cursor, or was deleted by cleanup, in every run that keeps commit order, attended hand-outs and the cleanup rule. |
| `HubTheorems.LaterCommitsAreCovered` | common/eventhub/sqlbackend.go:570-573 | The window that no-loss speaks of starts no later than the cursor, so whatever is committed once the cursor is non-zero is covered. |
| `HubTheorems.PendingIsFetched` | common/eventhub/sqlbackend.go:575-608 | "Pending" is not an empty word: any answer to the next query from the cursor contains the event, and the boundary trim keeps it. |
| `HubTheorems.BoundaryTrimIsSound` | common/eventhub/sqlbackend.go:601-608 | Whatever single row the trim drops at a fetch, in any run, had been handed out before. |
| `HubTheorems.CursorIsLastHandedOut` | common/eventhub/sqlbackend.go:641-654 | In every reachable state a cursor is 0 or the timestamp of an event handed out for that gateway and decodes to itself; while it is 0, and the poll in flight has sent nothing, nothing was ever sent on the gateway's channels. |
| `HubTheorems.CursorNeverDecreases` | common/eventhub/sqlbackend.go:641-654 | Over every run from a state with the invariant, no cursor moves back. |
| `HubTheorems.DeliveryInOrder` | common/eventhub/sqlbackend.go:565-654 | What was sent on a channel over a whole run is in timestamp order, belongs to the channel's gateway and ends with what is still buffered. |
| `HubTheorems.ExactlyOnce` | common/eventhub/sqlbackend.go:565-681 | If no two rows of a gateway share a timestamp, no event of it is handed out twice in any run. |
| `HubTheorems.RepeatedOnlyWithTwin` | common/eventhub/sqlbackend.go:671-681 | An event handed out twice in a run shares its timestamp with another row of its gateway. |
| `HubTheorems.ChannelSafety` | common/eventhub/sqlbackend.go:401-439 | Over every interleaving, with consumers receiving between any two checks and sends of a hand-out: subscriber lists are duplicate-free and share no channel, every listed channel is open, no buffer holds more than 100 events, whatever channel is sent on next is open and has room, whatever channel is closed next is open, and no fault is ever recorded. |
| `HubTheorems.UnstampedHasNoEvents` | common/eventhub/sqlbackend.go:561-563 | A gateway whose stored version is empty never had an event committed, so skipping it is safe. |
| `HubLaws.PolledIff` | common/eventhub/sqlbackend.go:547-563 | A row of the page is polled exactly if its gateway is registered, somebody is subscribed, and the version is not empty and not the known one; in any case it is off the page, and nothing else changes. |
| `HubLaws.FirstPollFetches` | common/eventhub/sqlbackend.go:570-608 | The first poll of a gateway, whatever the answer to its query, has in its batch exactly the retained rows of the gateway from 120 000 000 000 ns before the poll on, each once and in order. |
| `HubLaws.LaterPollFetches` | common/eventhub/sqlbackend.go:570-608 | A later poll has exactly the retained rows after the cursor, and those at the cursor if there is more than one of them. |
| `HubLaws.FirstPollDelivers` | common/eventhub/sqlbackend.go:546-664 | With consumers that keep receiving, the first poll brings every retained row of the last 120 s to the subscribers and stores the version. |
| `HubLaws.OpenIffHeld` | common/eventhub/sqlbackend.go:401-439 | In every state of every run a channel is open exactly if it is on the list of a gateway or has been taken off one by a caller that has yet to close it: an unsubscribed channel ends up closed. |
| `HubLaws.ReceiveTakesFirst` | common/eventhub/sqlbackend.go:401-411 | A consumer gets the event that has waited longest, and no other channel changes. |
| `HubLaws.CleanupDeletes` | common/eventhub/sqlbackend.go:703-716 | Cleanup deletes exactly the rows stamped before the cutoff. |
| `HubLaws.CleanupRangeDeletes` | common/eventhub/sqlbackend.go:719-728 | With a gateway given, exactly those of that gateway. |
| `HubExactness.HandOutLosesNothingIff` | common/eventhub/sqlbackend.go:619-654 | A condition on the state at the lock: every way in which a hand-out may go on up to its write-back (others acting in between, new rows not older than what was cleaned up) leaves every retained row of the batch accounted for, if and only if somebody is subscribed when it takes the lock, or every row of the batch that is retained then was received before or shares the last timestamp of the batch with another retained row. |
| `HubExactness.RunLosesNothingIff` | common/eventhub/sqlbackend.go:619-654 | The same for one given way, with the rows that are retained at its end. |
| `HubExactness.AttendedLosesNothing` | common/eventhub/sqlbackend.go:619-654 | With a subscriber present every row of the batch is received or stays pending at the new cursor, also when the hand-out is blocked half-way. |
| `HubExactness.UnattendedKeepsOnlyReplayed` | common/eventhub/sqlbackend.go:629-637 | Without one, a row survives exactly if it was received before or shares the last timestamp of the batch with another row. |
| `HubLossExample.UnattendedRunLosesAnEvent` | common/eventhub/sqlbackend.go:629-654 | A run from the empty database in commit order, whose last subscriber leaves between fetch and hand-out, loses a retained event. |
| `HubLossExample.LateCommitLosesAnEvent` | common/eventhub/sqlbackend.go:337-374 | An attended run in which a row stamped before the cursor commits after it loses that row at once. |
| `HubLossExample.InFlightCommitLosesAnEvent` | common/eventhub/sqlbackend.go:575-654 | An attended run in which a row commits at the cursor, while a later row has been fetched and not yet handed out, loses that row, which the promise of no loss covers: not being before the cursor is not enough. |
| `HubLossExample.FirstPollCommitLosesAnEvent` | common/eventhub/sqlbackend.go:570-654 | An attended run in which a row commits while the first poll of its gateway has a later row in flight, so that there is no cursor yet, loses that row, although its timestamp is within the window that this poll replays. |
| `HubWindows.CommitKeepsPromiseIff` | common/eventhub/sqlbackend.go:337-374 | For every commit in every state, whatever gateway, order and poll in flight, a gateway without a cursor or without a registry entry included: the row is accounted for at every point of every attended continuation where the promise of no loss covers it, if and only if no window has been fetched for its gateway yet, or the row is before that window, or it is not before the horizon. |
| `HubWindows.RunKeepsWatched` | common/eventhub/sqlbackend.go:557-654 | The invariant behind it, over every attended run: a row that is safe from the poll in flight, or whose gateway has no window yet, or that is before the window, is accounted for wherever the promise covers it. |
| `HubWindows.RunKeepsWindow` | common/eventhub/sqlbackend.go:570-573 | Once a batch of its first poll is in flight, the window from which a gateway is served never changes, in any run. |
| `HubLateCommits.CommitIsSafeIff` | common/eventhub/sqlbackend.go:337-374 | A row that commits for a gateway that has a cursor, or a batch of its first poll in flight, in whatever order and in whatever phase of a poll, is accounted for in every continuation that is attended and keeps the cleanup rule, at every point, if and only if its timestamp is not before the horizon: the cursor, or the last timestamp of what the poll in flight has fetched or handed out for this gateway. |
| `HubLateCommits.RunKeepsSafe` | common/eventhub/sqlbackend.go:557-654 | The row-by-row invariant behind it: a row that the poll in flight cannot pass, a first poll included, stays accounted for over every attended run, without any assumption on the order of other commits. |
| `HubLiveness.CatchesUp` | common/eventhub/sqlbackend.go:442-664 | Over every run in which nothing is published to the gateway, somebody stays subscribed to it and its channels are drained whenever a hand-out to it begins, from any state with an established cursor, whatever the poller is doing then: if from the cursor on fewer rows of it share a timestamp than a channel holds (100), two visits of the poller more than there are undelivered rows are enough for every retained row from the cursor on to be handed out and `knownVersion` to be the stored version. Polls of and publishes to other gateways, cleanup, failed queries, receives at any time, and subscribing and unsubscribing are all among the steps. |
| `HubLiveness.CatchesUpFrom` | common/eventhub/sqlbackend.go:442-664 | The same with one visit fewer, if no batch of the gateway is in flight and the version last read of its row is the stored one. |
| `HubLiveness.RunStaysOnCourse` | common/eventhub/sqlbackend.go:613-654 | The invariant behind it: each visit leaves the gateway caught up or with fewer undelivered rows, counted over the whole run. |
| `HubProgress.RoundProgress` | common/eventhub/sqlbackend.go:613-654 | With fewer than 100 handed-out rows at the cursor, every round shrinks the set of undelivered rows, or finishes. |
| `HubProgress.ProgressIff` | common/eventhub/sqlbackend.go:613-654 | From drained channels with something undelivered: every round, for every tie order of the answer and every timing of receives, hands out something new if and only if fewer than 100 of the rows at the cursor have been handed out. |
| `HubProgress.StallIff` | common/eventhub/sqlbackend.go:508-517 | And no round in which nobody receives hands out anything new, for any tie order of the answer, if and only if 100 or more rows are at the cursor and all of them have been handed out. |
| `HubProgress.RoundCanCatchUp` | common/eventhub/sqlbackend.go:619-654 | If consumers receive during the hand-out, one round can always bring a gateway up to date, a stalled one included. |
| `HubProgress.PublishStalls` | common/eventhub/sqlbackend.go:508-517 | How a stall arises: a gateway that has caught up with 100 rows at the cursor stalls with the next later row. |
| `HubStallExample.StallIsReachable` | common/eventhub/sqlbackend.go:613-654 | A run from the empty database, in commit order and with every hand-out attended, reaches a stalled gateway. |
| `HubProgress.FullGroupStalls` | common/eventhub/sqlbackend.go:508-517 | A full channel's worth of rows at the cursor, all handed out, makes every round in which nobody receives hand out nothing new and leave the cursor where it was. |
| `HubProgress.StaysStalled` | common/eventhub/sqlbackend.go:619-654 | As long as nobody receives during a round, a stalled gateway stays stalled with the same rows undelivered, however many rounds follow and however the channels are drained in between. |
| `HubInvariant.RunKeepsInv` | common/eventhub/sqlbackend.go:401-664 | The joint invariant on channels, versions and history holds in every state of every run. |
| `HubInvariant.StepKeepsInv` | common/eventhub/sqlbackend.go:401-664 | Every step of every goroutine keeps it: publish, register, subscribe, unsubscribe, receive, cleanup, snapshot, fetch, each check and each send of a hand-out, write-back, stop and close. |
| `HubInvariant.SendFindsRoom` | common/eventhub/sqlbackend.go:622-633 | The room found by the check is still there at each send: the channel is open, on the list and not full, although consumers and other goroutines act between the check and the send. |
| `HubHandOuts.HandOutGoesOn` | common/eventhub/sqlbackend.go:619-638 | From the lock to the write-back, whatever else happens, a hand-out has put a prefix of the batch on the list that was there at the lock; it ends short of the batch only because a buffer was full at a check, and never if nobody is on the list. |
| `HubHandOuts.Completed` | common/eventhub/sqlbackend.go:619-638 | If consumers keep receiving, the whole batch goes out, however long it is. |
| `HubReceipts.HandedOutMeansSent` | common/eventhub/sqlbackend.go:629-637 | What the history records as handed out was put on every channel that was on the list, in every run. |
| `HubInvariant.FirstPollNeverStuck` | common/eventhub/sqlbackend.go:641-647 | While a hand-out has sent nothing yet, a subscriber with a non-empty buffer means that the poll resumes from an established cursor; so a first poll finds every buffer empty, is never blocked with nothing delivered, and does not fall back to the window start. |
| `HubInvariant.RedeliveryOnlyAtBoundary` | common/eventhub/sqlbackend.go:601-608 | An event already handed out can be in a batch only if the poll resumes from a cursor with the event's timestamp, and then together with another row of that timestamp. |
| `HubInvariant.WriteBackReachesReach` | common/eventhub/sqlbackend.go:641-654 | The write-back leaves the cursor at the latest timestamp handed out, through the nanosecond encoding and its decoding, and never behind the old cursor. |
| `HubInvariant.TrimKeepsBatch` | common/eventhub/sqlbackend.go:671-681 | The trim keeps a batch ordered, duplicate-free and within the query window, and leaves the boundary row in only together with another one. |
| `HubDelivery.RunKeepsWake` | common/eventhub/sqlbackend.go:546-664 | The wake-up invariant is inductive over runs whose rows are newer than earlier cleanup cutoffs. |
| `HubDelivery.RunKeepsLoss` | common/eventhub/sqlbackend.go:557-654 | The no-loss invariant is inductive over orderly runs. |
| `HubDelivery.TrimmedIsAlone` | common/eventhub/sqlbackend.go:671-681 | If the trim drops a row, every retained row of the gateway with the boundary's timestamp is that one. |
| `HubDelivery.TrimmedRowWasHanded` | common/eventhub/sqlbackend.go:671-681 | The trim drops one row at most, the first; it has been handed out before and carries the cursor's timestamp, because cleanup deletes whole timestamps. |
| `HubDelivery.FetchCovers` | common/eventhub/sqlbackend.go:575-608 | At a fetch, the rows handed out so far and the trimmed batch together cover every retained row of the window. |
| `HubDelivery.PublishKeepsWake` | common/eventhub/sqlbackend.go:303-386 | A publish keeps the wake-up invariant because its version is fresh. |
| `HubChannels.CloseAllCloses` | common/eventhub/sqlbackend.go:734-742 | Closing a duplicate-free list of open channels closes exactly these, once each. |
| `HubChannels.SwapRemoveRemoves` | common/eventhub/topic.go:105-123 | Swap-removal takes out exactly the one element and keeps the list duplicate-free. |
| `Registry.GatewayRegistry.Register` | common/eventhub/topic.go:55-68 | Adds an empty entry, or reports that there is one and changes nothing. |
| `Registry.GatewayRegistry.AddSubscriber` | common/eventhub/topic.go:83-94 | Appends the channel to the gateway's list in place; an unknown gateway is an error without effect. |
| `Registry.GatewayRegistry.RemoveSubscriber` | common/eventhub/topic.go:97-128 | Swap-removes the channel in place: the list has one occurrence of it less, the cursor stays, and the known version stays unless that was the last subscriber, when it becomes empty. |
| `Registry.GatewayRegistry.RemoveAllSubscribers` | common/eventhub/topic.go:131-144 | Returns the whole list and leaves it empty, with `knownVersion` reset and the cursor kept. |
| `Registry.GatewayRegistry.GetAll` | common/eventhub/topic.go:147-156 | Every registered gateway exactly once, in any order. |
| `Backend.SqlBackend.Subscribe` | common/eventhub/sqlbackend.go:401-411 | Is the protocol's subscribe step: a new, open, empty channel at the end of the gateway's list and no other change; on an unknown gateway the new channel is closed and listed nowhere. |
| `Backend.SqlBackend.Unsubscribe` | common/eventhub/sqlbackend.go:414-424 | Is the unsubscribe step followed by closing that one channel: exactly this channel becomes closed, every other keeps its flag and its contents, and the list has one occurrence less; all error cases without effect. |
| `Backend.SqlBackend.UnsubscribeAll` | common/eventhub/sqlbackend.go:427-439 | Is the step that empties the list followed by closing each removed channel: exactly these become closed; an error exactly for an unknown gateway. |
| `Backend.SqlBackend.ChannelsHaveRoom` | common/eventhub/sqlbackend.go:508-517 | True exactly if every listed channel has a free slot. |
| `Backend.SqlBackend.TakeSnapshot` | common/eventhub/sqlbackend.go:547-573 | Is the snapshot step: skip without subscribers, on an equal or an empty version; otherwise the window starts at the cursor or, without one, 120 s back. |
| `Backend.SqlBackend.HandOutBatch` | common/eventhub/sqlbackend.go:619-638 | The nested loops over events and subscribers, with everybody else acting before every check and every send (changes of the registry wait for the lock), are a run of the protocol whose own steps are the lock, checks and sends, and nothing else. |
| `Backend.SqlBackend.WriteBackCursor` | common/eventhub/sqlbackend.go:641-654 | Is the write-back step: the version is stored exactly if the poll was not blocked, the cursor goes to the last delivered timestamp, or stays if nothing was delivered, and the list stays. |
| `Backend.SqlBackend.PollGatewayWithState` | common/eventhub/sqlbackend.go:546-664 | A whole poll of one gateway, with any steps of other replicas, consumers and callers of this replica (subscribing, unsubscribing and registering included) before each of its phases, checks and sends, is a run of the protocol whose own steps are a snapshot alone (the gateway is skipped), a snapshot and an abort exactly if the query fails, or else snapshot, fetch, hand-out and write-back. |
| `Backend.SqlBackend.PollGateways` | common/eventhub/sqlbackend.go:459-499 | A round terminates and is a run of the protocol that reads page after page and polls or skips each row once; ids are visited in strictly increasing order, each with a version from a table read in this round; the round is either complete, and then every non-empty id present at all reads is visited, or its last read, that of the rows after the last visited id, failed; and row by row in the order of reading, a row is polled exactly if its gateway was registered when the round began, and skipped otherwise. |
| `Backend.SqlBackend.Close` | common/eventhub/sqlbackend.go:730-751 | Is a stop followed by closing the list of every registered gateway, each gateway once: exactly the listed channels become closed, every list is empty, and cursors and known versions stay. |
| `Backend.SqlBackend.constructor` | common/eventhub/sqlbackend.go:90-101 | A new replica, on any consistent database, is an initial state of the protocol. |
| `Backend.SqlBackend.Publish` | common/eventhub/sqlbackend.go:303-398 | For every outcome of every SQL step the replica's view makes the protocol's whole publish step or nothing of it, and the error is the one that belongs to the outcome. The row that appears has the caller's type, action, entity id and origination time, the trimmed event id or the generated one if that is blank, and the trimmed data or "{}" if that is blank; when the insert fails, others may act between the rollback and the existence check; success means that a row with the event id is there. |
| `Publishing.StampedIffRowAppears` | common/eventhub/sqlbackend.go:303-386 | Over any step of the protocol a gateway's version changes exactly when a row of it appears. |
| `Paging.PageExtends` | common/eventhub/sqlbackend.go:519-544 | One more page keeps the round in order and complete up to its last id, whatever was inserted or removed between the pages; a short page completes it. |
| `Paging.PageIsEnabled` | common/eventhub/sqlbackend.go:519-544 | A page of the table as it stands is one that the protocol's page step may read. |
| `Paging.RoundIsFullScan` | common/eventhub/sqlbackend.go:226-232 | On a table that does not change a complete round visits exactly its non-empty ids, each once, for every page size. |
| `Timestamps.UnitInferenceIsExact` | common/eventhub/sqlbackend.go:76-87 | For every instant from 10^8 to 10^11 seconds and each of the four units: decoding the encoded number gives the instant cut to the unit, and the number lies in that unit's band only. |
| `Timestamps.BandsPartition` | common/eventhub/sqlbackend.go:36-43 | Every number lies in exactly one band, the one that names the inferred unit. |
| `Timestamps.InferenceRightIffInBand` | common/eventhub/sqlbackend.go:76-87 | For every instant whatsoever the decoding is right if and only if the number is in its unit's band or is 0. |
| `ApiKeys.CloneKey` | common/apikey/store.go:175-193 | A deep copy: equal as a value, no shared object. |
| `ApiKeys.ApiKeyStore.StoreAPIKey` | common/apikey/store.go:125-173 | Files the caller's object itself under its trimmed hash, entry by entry: nothing under another API changes, one key of the same name goes, whichever is met first, every other entry stays with the same object, and nothing else appears; a hash that is taken is a conflict, after which only the evicted key is gone. The object's hash is trimmed in any case. |
| `ApiKeyIndex.StoredGains` | common/apikey/store.go:141-170 | The same as a law of the transition that the run theorems speak of. |
| `ApiKeys.ApiKeyStore.ResolveValidatedAPIKey` | common/apikey/store.go:198-249 | Finds a key exactly if the digest of the trimmed text is in the index; returns a fresh copy exactly if the key is for this API and active, the issuer is not asked for or the same, and it is not past its expiry; all error cases. |
| `ApiKeys.ApiKeyStore.GetAPIKeyByID` | common/apikey/store.go:252-275 | A fresh copy of a key with the id, exactly if the API has one. |
| `ApiKeys.ApiKeyStore.RevokeAPIKey` | common/apikey/store.go:279-308 | Marks the object stored under the digest of the trimmed text revoked and takes out that one entry, and the API with its last one; nothing else changes, and nothing at all for a blank text. |
| `ApiKeys.StoreResolveRevoke` | common/apikey/store.go:125-308 | A client that stores an active, unexpired key under the digest of its trimmed text gets a copy of it for any text that trims to the same; after revoking any such text it gets NotFound. |
| `ApiKeys.ApiKeyStore.RemoveAPIKeysByAPI` | common/apikey/store.go:311-319 | Drops one API and nothing else. |
| `ApiKeys.ApiKeyStore.ClearAll` | common/apikey/store.go:322-330 | Empties the store. |
| `ApiKeys.ApiKeyStore.RemoveFromAPIMapping` | common/apikey/store.go:392-401 | Removes one entry, and the API with its last one, and nothing else; keeps the index sound. |
| `TrimmedMaps.WithoutLoses` | common/apikey/store.go:392-401 | The same as a law of the transition that the run theorems speak of. |
| `ApiKeys.ApiKeyStore.ReplaceAll` | common/apikey/store.go:333-373 | Succeeds exactly if every entry is present, non-blank and agrees with its map key and no two trimmed hashes of one API coincide; an error changes nothing and names a fault that some entry has; on success the store holds exactly a fresh copy of each key under its trimmed hash, equal to its source but for that hash, and no API without keys. |
| `ApiKeys.ReplaceThenChange` | common/apikey/store.go:333-373 | A client that replaces everything and then changes any objects it holds, the snapshot's keys among them, in any way: the store still holds the keys as they were in the snapshot. |
| `ApiKeys.ResolveThenChange` | common/apikey/store.go:198-249 | A client that resolves a key and then changes what it got in any way: what the store holds is the same. |
| `ApiKeys.LookUpThenChange` | common/apikey/store.go:252-275 | The same for a look-up by id. |
| `ApiKeyIndex.RunStaysGood` | common/apikey/store.go:125-401 | Over every run of store, revoke, remove, clear and name-distinct replace: hashes are trimmed and non-empty, no API is empty, and each name has one key. |
| `ApiKeyIndex.RetiredHashNeverResolves` | common/apikey/store.go:141-162 | After a key is regenerated under its name with another hash, the old hash is in the index of no later state until an operation brings that very hash back. |
| `ApiKeyIndex.RegenerationRetiresIff` | common/apikey/store.go:141-157 | Storing retires every other hash of the name, in every visiting order, if and only if the name had at most one hash before. |
| `ApiKeyIndex.ConflictIsHarmlessIff` | common/apikey/store.go:154-162 | A store that ends in a conflict leaves the index as it was if and only if the API had no key of that name. |
| `ApiKeyIndex.ConflictLosesAKey` | common/apikey/store.go:154-162 | Inputs on which it does not: the key of the name is gone although storing failed. |
| `ApiKeyIndex.TwoKeysOfOneName` | common/apikey/store.go:333-373 | Inputs on which replacing leaves two keys of one name: the snapshot is valid, and a later regeneration leaves one of the two old hashes in the index. |
| `ApiKeyIndex.ReplacedIsUnique` | common/apikey/store.go:333-373 | Every visiting order of the snapshot gives the same index, and copies each entry from the same key. |
| `ApiKeyIndex.ReplacedIsGoodIff` | common/apikey/store.go:333-373 | Replacing everything leaves one key per name if and only if the snapshot has one key per name, which the code does not check. |
| `WebhookSecrets.WebhookSecretStore.Store` | common/webhooksecret/store.go:76-99 | Puts the trimmed secret under the trimmed id and name and leaves every other entry as it was; any blank one is an error without effect. |
| `WebhookSecrets.WebhookSecretStore.Remove` | common/webhooksecret/store.go:103-122 | Removes one secret, and an id with its last one, and nothing else, or reports that there is none. |
| `WebhookSecrets.WebhookSecretStore.RemoveAllByAPI` | common/webhooksecret/store.go:125-133 | Drops one id and nothing else. |
| `WebhookSecrets.WebhookSecretStore.GetAllByAPI` | common/webhooksecret/store.go:139-155 | The value of each name of the id, each name once. |
| `WebhookSecrets.WebhookSecretStore.ReplaceAll` | common/webhooksecret/store.go:159-188 | Succeeds exactly if no id, name or value is blank, and then holds a trimmed copy; an error changes nothing. |
| `WebhookSecrets.WebhookSecretStore.GetAll` | common/webhooksecret/store.go:192-205 | A copy of the whole store. |
| `WebhookSecrets.WebhookSecretStore.ClearAll` | common/webhooksecret/store.go:208-212 | Empties the store. |
| `WebhookSecrets.RunStaysNormal` | common/webhooksecret/store.go:76-188 | Every reachable store holds only trimmed non-empty ids, names and values, and no id without secrets. |
| `WebhookSecrets.SnapshotRoundTrip` | common/webhooksecret/store.go:159-205 | Replacing any reachable store by its own snapshot succeeds and can only restore exactly the same contents. |
| `WebhookSecrets.RestoreSnapshot` | common/webhooksecret/store.go:159-205 | A client that reads the whole store and replaces it by what it read: the replacement succeeds and the store is as it was. |
| `WebhookSecrets.CollidingIdsDependOnOrder` | common/webhooksecret/store.go:159-188 | A valid snapshot with two ids that trim to the same, for which two visiting orders give different stores. |
| `WebhookSecrets.CollidingNamesDependOnOrder` | common/webhooksecret/store.go:159-188 | The same with two names of one id. |
| `TrimmedMaps.OrderIndependentIff` | common/webhooksecret/store.go:159-188 | All visiting orders give the same store if and only if ids that trim to the same have contents that trim to the same, an id and itself included. |
| `TrimmedMaps.RoundTrip` | common/webhooksecret/store.go:159-205 | A normal map is a valid snapshot on which the visiting order does not matter, and the only thing that may replace it is itself. |
| `Redaction.RedactionIsComplete` | common/redact/redact.go:23-36 | If every non-empty secret is, or contains, a non-empty secret of the list that differs from the placeholder however the two are laid over each other, the output contains none of them, for every text and every order of the secrets. |
| `Redaction.RedactOneIff` | common/redact/redact.go:23-36 | For one secret, stars or not, the condition is exact: every text comes out without it if and only if it is apart from the placeholder. |
| `Redaction.NotApartSurvives` | common/redact/redact.go:28-36 | For every other secret, a text whose redaction contains it again. |
| `Redaction.StarFreeApartIff` | common/redact/redact.go:23-36 | Without a star, apart from the placeholder means not part of "REDACTED". |
| `Redaction.StarsCanBeApart` | common/redact/redact.go:23-36 | "a*b" is apart from the placeholder, "a*" is not. |
| `Redaction.StarFreeRedactionIff` | common/redact/redact.go:23-36 | For lists of star-free secrets the condition is exact: every text comes out clean if and only if no non-empty secret is part of "REDACTED". |
| `Redaction.PassCreatesNone` | common/redact/redact.go:28-36 | A pass brings no text into being that is apart from the placeholder, not even across its edges. |
| `Redaction.PassRemovesAll` | common/redact/redact.go:28-36 | A pass for a secret that is apart from the placeholder leaves no occurrence of it. |
| `Redaction.CoreSecretSurvives` | common/redact/redact.go:28-36 | A text that is part of "REDACTED" comes out unchanged or with "REDACTED" in it, and the latter if it is itself among the secrets: redaction puts it back. |
| `Redaction.Redact` | common/redact/redact.go:28-36 | The loop over the secrets computes the passes that the next rows speak of. |
| `Redaction.PassesInOrder` | common/redact/redact.go:29-34 | The secrets are gone through from first to last: redacting a list is redacting its front and then, over what that leaves, its rest. |
| `Redaction.OneSecret` | common/redact/redact.go:29-34 | One non-empty secret is one replacement by "***REDACTED***"; an empty one does nothing. |
| `Redaction.OrderMatters` | common/redact/redact.go:29-34 | "abc" with "ab" before "abc" becomes "***REDACTED***c", the other way round "***REDACTED***". |
| `Redaction.ReplaceAllMeaning` | common/redact/redact.go:33-33 | A text falls into pieces at occurrences of the secret, each cut at the first one there is, and a replacement puts the mask where the cuts are. |
| `Redaction.ReplaceAllLoop` | common/redact/redact.go:33-33 | The left-to-right scan computes the leftmost, non-overlapping replacement. |
| `ConfigExpand.Expand` | common/configinterpolate/expand.go:60-74 | Succeeds exactly if every leaf with a token renders; then the result is the expanded tree and the counter is the number of token leaves; otherwise no result, a zero counter, and the reported field names a token leaf that fails. |
| `ConfigExpand.WalkValue` | common/configinterpolate/expand.go:80-119 | The same for a subtree at a path, with the shared counter increased by its number of token leaves, in every order of visiting tables. |
| `ConfigExpand.TokenPathsMeaning` | common/configinterpolate/expand.go:82-86 | The token paths are exactly the paths that lead to a string containing "{{". |
| `ConfigExpand.HasTokenIff` | common/configinterpolate/expand.go:82-86 | A string is rendered exactly if it contains "{{". |
| `ConfigExpand.NameMeaning` | common/configinterpolate/expand.go:80-119 | How a reported field is named: fields joined with dots, items in brackets, from the root on. |
| `ConfigExpand.DecimalMeaning` | common/configinterpolate/expand.go:105-112 | The digits in the brackets stand for the index, without leading zeros. |
| `ConfigExpand.RenderableIff` | common/configinterpolate/expand.go:80-119 | The walk can succeed on a tree if and only if every token leaf renders. |
| `ConfigExpand.ExpandedEverywhere` | common/configinterpolate/expand.go:80-119 | At every path: keys, lengths, token-free strings and other scalars are kept, and a token leaf becomes its rendering. |
| `ConfigExpand.NoTokensNoChange` | common/configinterpolate/expand.go:80-119 | A configuration without tokens comes back as it is. |
| `GoStrings.TrimSpaceMeaning` | common/apikey/store.go:131-131 | Trimming cuts white space, and only white space, off both ends until none is left there. |
| `GoStrings.TrimSpaceIs` | common/apikey/store.go:131-131 | And what is between white space and has none at its own ends is what trimming leaves. |
| `GoStrings.BlankIff` | common/eventhub/sqlbackend.go:306-315 | Nothing is left exactly of a text that is all white space. |
| `GoStrings.SpacesAre` | common/apikey/store.go:131-131 | Which 25 characters count as white space. |

## Left out

- SQL text, prepared statements, bind styles and drivers: the rows a query selects are modelled, not its text.
- Deletion of gateway rows: the schema deletes a gateway's row together with its events (`platform-api/internal/database/schema.sql:488-507`), the model keeps gateway rows for good; after a deletion and a new insert, "no event was ever committed" for an empty version would read "none since the insert".
- `RegisterGateway`'s wrapper around the insert and the local registration: the two effects are steps of the protocol (`InsertGateway`, `RegisterLocal`) without a method of their own.
- `Cleanup` and `CleanupRange` as methods of this replica: they are steps of the protocol; the tickers, goroutine start-up and logging around them are not modelled.
- More than one replica's registry: the other replicas appear through the publishes, inserts and deletions they make in the shared tables.
- Backend.SqlBackend.Publish: the transaction itself is one step; others act before it and between a rollback and the existence check.
- Backend.SqlBackend.PollGateways: gateway ids are compared by an arbitrary strict total order, and those that others insert come from some finite set.
- HubLiveness.CatchesUp: speaks of polls from an established cursor; before that only the last 120 s are replayed, so there is nothing to catch up with.
- Redaction.RedactionIsComplete: for lists of several secrets, some with stars, the condition is sufficient for every order of the list; an exact one would depend on the order. It is exact for one secret and for star-free lists.
- Integer widths: timestamps are unbounded integers, kept in the int64 range by `ClockRange` where the code relies on it.
- SHA-256: the hash of a plain key is an arbitrary function of the trimmed key; API operations are ignored by the code and are not parameters here.
- ApiKeys.ApiKeyStore.StoreAPIKey: assumes that callers do not change the name or hash of an object they have stored; the code would then file a key under a hash that is not its own.
- Locks of the two stores: each operation is one step; the look-up's checks after unlocking work on a private copy.
- Template rendering, file and environment access: rendering is an arbitrary partial function of the string; the EnvRefs and FileRefs counters are not modelled.
- Error texts and error wrapping: only the kind of error is kept.
- The entity-id helpers of both stores, version helpers, collector, CORS and middleware are not part of this model.
