# Verification of the MMO server core

A Dafny model of the server's own logic and proofs about it. Methods of classes carry the code's
loops, branches and constants and are proved against functions of the old state; lemmas prove what
holds of these functions over whole runs and interleavings.

Run `dafny verify dfyconfig.toml` in this directory.

## What is modelled

**Write-behind persistence** (`WriteBehindModel`, `WriteBehindStores`, `WriteBehindDelivery`,
`WriteBehindAccounts`, `WriteBehindStranded`, `WriteBehindDrain`, `WriteBehindHistory`, `DirtyHub`,
`StorageSystem`). Field threads enqueue snapshots and mark uids dirty in 64 shards; a timer steals
the shards one by one, cuts the uids into batches and pushes them to a queue of at most 360 jobs,
marking rejected uids again; one DB thread drains the snapshots into Redis, reads the job's uids
back and upserts them into MySQL. The queue and the Redis batches are as in `storage/DBWorker.cpp`
and `storage/redis/redisUserCache.cpp`; the upsert is the one stored-procedure call of
`storage/DB/Proc/userStateProc.cpp`. `WriteBehindModel` is the machine of all these threads: one
step per lock section, atomic operation or foreign call, in any order, with every foreign call free
to fail after any part of its effect. A version number on snapshots, the log of all snapshots, the
accounts of marks and the sets of lost and unmarked uids are history that no branch reads.
`StorageSystem` and `DirtyHub` are the objects of the code; the lemmas `JobIsRun` and `PassIsRun`
say that their methods are runs of the machine.

What the proofs show besides: convergence needs the absence of certain failures, and which. A failed
connect drops the job in hand, so its uids are no longer dirty although nothing was stored, and a
failed Redis batch loses its snapshots for good. Both have a concrete run with a proof that no
continuation repairs it, `DrainedExactly` and `StoredBySteps` say for every uid when a drained
system has stored it, and `ArrivesExactly` says for every reachable state what can still be stored.
The combat code marks a player without a snapshot (machine step `MarkOnly`), so changed hit points
reach MySQL only with a later snapshot.

**Interest management** (`AoiModel`, `AoiNews`, `AoiWorld`, `FieldViews`). The sector grid of
`field/AoiWorld.cpp` (lines 19-335) with the broadcast lists of `field/FieldAoiSystem.cpp` (lines
21-88), as the field uses them. The rows below cite the field's calls and the repository's own
description of the grid, and name the lines of the grid. What a client makes of the grid's
announcements is computed from the messages alone. For a player that is there for the first time it
is exactly the entities in its square of sectors. A removed player is sent nothing, so one that
comes back keeps what it was shown before; `GridShowsExactly` says what. What a client believes is
more: a join also sends Enters past the grid, for every player and monster of the field.
`FieldViews` has both in one machine and says exactly what a client believes. Two more weaknesses of
the grid have exact conditions: adding an entity that is already present, and lists that keep
players who left. `AoiNews` says which message every operation sends to whom with which place, and
that clients are told where things are.

**Session byte stream** (`Frames`, `SessionModel`, `Session`). Many producers push whole frames to a
locked queue, wakeups coalesce, the loop thread swaps the queue out and writes each frame, which may
be refused; the other end cuts frames from chunks of any size and routes each by the state of the
session at that read. The frame codec `worker/codec.h` is not part of the repository: the header is
taken to be 4 bytes, most significant first, and its round trip is proved for that choice.

**Field simulation** (`Measures`, `FieldClock`, `FieldPlayers`, `FieldIntroductions`, `FieldWorker`,
`FieldStorage`). Capped fixed-step clocks, move input, the input timeout, movement, snapshots and
the direct Enter sends. `FieldPlayers` is the machine of one player together with all calls made for
it; `FieldWorker` is the object with its map of `Player` objects, and each of its methods is proved
to take every player's machine one step, in whatever order the hash map is visited. A call of
send_field_enter carries whether a session was found for its watcher, as nothing is sent otherwise.
`FieldStorage` feeds a player's calls to the write-behind machine. The steps 0.05 and 0.10 are any
positive numbers. A square root is given as a positive number with the right square.

The repository never calls `set_redis_rt_writer` nor `remove_player`; the model has workers with and
without a writer, and removals.

**Melee training environment** (`MeleeModel`, `MeleeMoves`, `MeleeEnv`). One step as a function of
the state, the action and the random draws, what it does told by distances, hit points and rewards,
the object that computes it in place, and theorems over whole episodes.

**Player registry** (`PlayerRegistry`, `PlayerManager`). The two maps, the session's player id, the
bindings of `net/sessionManager.h`, and the login handler. A second login on a session leaves its
former player reachable by id only, and removing that player by id then takes the session's entry
with it; exact conditions say when.

## Where the code and its description differ

- The repository's description gives a player the 3 by 3 sectors around it; the field sets the
  radius to 2, that is 5 by 5 (`worker/fieldWorker.cpp:63`). The model has any positive radius.
- The repository's description (`README.md`, lines 183-187) says that a player is told only of what
  is around it. A join tells the newcomer of the whole field, also of dead monsters, which stay in
  the list, and the whole field of the newcomer; see `FieldViews.BelievedExactly`,
  `FieldViews.SquareExactly` and `FieldViews.FarMonster`.
- A player that comes back may believe in entities that are gone, as nothing was sent to it when it
  was removed nor since; see `AoiModel.ReturnerSeesGhost` and `AoiModel.GridShowsExactly`.
- A session that never logged in carries player id 4; see `PlayerRegistry.OwnPlayerExactly`.
- `game/Player.h` (line 25) gives a new player speed 5, so "a player at rest has no speed" is false
  before the first announcement; see `FieldPlayers.RestSpeedExactly`.
- A player stopped by its client is not saved by the stop; see `FieldPlayers.StopSavesExactly`.

## Model

| member | source | states |
|---|---|---|
| `WriteBehindStores.NoRegression` | storage/StorageSystem.cpp:45-84 | Main result. In every interleaving of field threads, timer and DB thread, whatever connects, writes, fetches and upserts fail, no row of Redis or MySQL is ever replaced by an older one, and MySQL is never ahead of Redis |
| `WriteBehindStores.StoresRun` | storage/StorageSystem.cpp:241-260 | Invariant of every run: the snapshots are, in enqueue order, first those offered to Redis, then those in hand, then the queue; every stored row is the snapshot its version names |
| `WriteBehindStores.StoresStep` | storage/StorageSystem.cpp:45-84 | Each single step of any thread keeps that invariant |
| `WriteBehindStores.NoRegressionStep` | storage/StorageSystem.cpp:59-71 | No single step, failed or not, puts an older row over a newer one in either store |
| `WriteBehindStores.ApplySegment` | storage/StorageSystem.cpp:255 | A batch of consecutive snapshots leaves each uid with the newest of its snapshots in the batch, or as it was |
| `WriteBehindStores.ApplyRows` | storage/StorageSystem.cpp:67 | An upsert of rows read back from Redis copies Redis for exactly the uids it has rows for |
| `WriteBehindStores.RowsAreStored` | storage/StorageSystem.cpp:59 | A fetch returns exactly the stored rows of the requested uids, each as Redis holds it |
| `WriteBehindDelivery.Convergence` | storage/StorageSystem.cpp:45-72 | Main result. At every step of every interleaving a uid whose newest snapshot and mark no failure took is up to date in MySQL or still with a producer, a shard, the timer, a queued job or the job in hand, with the snapshot still on its way |
| `WriteBehindDelivery.DrainedExactly` | storage/StorageSystem.cpp:45-72 | When no thread has anything left to do, MySQL holds a uid's newest snapshot if and only if the snapshot was in no failed Redis batch and the uid's mark was not dropped with a job while MySQL was behind, without a mark or a store since; for every uid |
| `WriteBehindHistory.StoredBySteps` | storage/StorageSystem.cpp:45-72 | The same by the steps taken: in every run MySQL has a uid's newest snapshot if and only if some upsert took it since it was pushed; once drained, if and only if no failed Redis batch took it and no job of the uid was dropped before an upsert took it, without a mark or such an upsert since |
| `WriteBehindDelivery.DrainedMeansStored` | storage/StorageSystem.cpp:45-72 | Without failed calls, a drained system has an empty snapshot queue and MySQL holds every uid's newest snapshot, field by field |
| `WriteBehindDelivery.OnItsWayStep` | storage/StorageSystem.cpp:174-204 | Each step of any thread keeps every uid either up to date or carried |
| `WriteBehindAccounts.EveryMarkAccounted` | storage/StorageSystem.cpp:174-204 | Main result. Counted with multiplicity, every mark ever made is dirty, with the timer, in queued jobs, in the job in hand, handled, merged into another mark, or dropped on a failure branch; after draining only the last three are left |
| `WriteBehindAccounts.Conservation` | storage/StorageSystem.cpp:179-203 | The same balance is kept by every run from any balanced state, and queued batches keep their size bound and hold distinct uids |
| `WriteBehindAccounts.PendingCounter` | storage/StorageSystem.cpp:241-251 | Main result. In every interleaving the counter is the queue's length, plus what was swapped out and not yet subtracted, minus the producers between push and add, modulo 2^32, so a wrap below zero repairs itself |
| `WriteBehindAccounts.IdleTimerWakes` | storage/StorageSystem.cpp:182-188 | With no thread in such a gap and fewer than 2^32 snapshots queued, the idle timer schedules a drain exactly when the queue is not empty |
| `WriteBehindDrain.AlwaysRecoverable` | storage/StorageSystem.cpp:45-84 | Main result. From every state that any interleaving with any failures can reach, some schedule without failures and without new game activity drains everything, and then every surviving update is in MySQL: no deadlock, no stuck job |
| `WriteBehindDrain.ArrivesExactly` | storage/StorageSystem.cpp:45-84 | Main result. In every reachable state, a newest snapshot can still come to be in MySQL without new activity for its uid if and only if it is there, or some thread or queue carries the uid and no failed Redis batch took the snapshot |
| `WriteBehindDrain.CarriedArrives` | storage/StorageSystem.cpp:45-84 | A uid that is carried and not lost has a schedule without failures that ends with its newest snapshot in MySQL, even if its mark was dropped before |
| `WriteBehindStranded.StrandedForever` | storage/StorageSystem.cpp:47-51 | An update that nobody carries any more and that MySQL does not have stays out of MySQL over every continuation, failed or not, without a new snapshot or mark of its uid |
| `WriteBehindStranded.StrandedStep` | storage/StorageSystem.cpp:45-72 | No single step of any thread picks such an update up |
| `WriteBehindDrain.ConnectFailureStrands` | storage/StorageSystem.cpp:47-51 | Convergence without the condition is false: one failed connect drops the job, all threads rest, the snapshot still sits in the queue, and no continuation without a new snapshot or mark of the uid brings it to MySQL |
| `WriteBehindDrain.RedisFailureDestroys` | storage/StorageSystem.cpp:255-258 | One failed Redis batch loses the update for good, although every later call succeeds |
| `WriteBehindDrain.NeverStored` | storage/StorageSystem.cpp:241-260 | While a uid is lost, no continuation without a new snapshot of it ever brings its newest one into Redis or MySQL |
| `DirtyHub.InterleavedSteal` | storage/DirtyHub.h:13-29 | Main result. With marks between the shard visits a steal takes every uid that was dirty when it began, none twice, and result and shards together hold exactly the old dirt and the new marks |
| `DirtyHub.StealProgress` | storage/DirtyHub.h:20-29 | The same for any part of a steal, with what is guaranteed for shards already passed |
| `DirtyHub.DirtyHub.MarkDirty` | storage/DirtyHub.h:13-17 | Adds exactly that uid to exactly its shard |
| `DirtyHub.DirtyHub.StealAll` | storage/DirtyHub.h:20-29 | Lists exactly the dirty uids once each and empties all shards |
| `StorageSystem.PassSplits` | storage/StorageSystem.cpp:190-203 | Main result. For every batch size: a pass appends batches of exactly maxBatch uids, except one that ends the list, rejects only once the queue is full, and accepted batches followed by the rejected uids are the stolen list in order |
| `StorageSystem.PassBatches` | storage/StorageSystem.cpp:190-203 | So for the configured max_batch_uids (or 1 if that is 0) a first part of the stolen list is queued in jobs of exactly that many uids, a rest is left only with 360 jobs queued, and exactly it is dirty again |
| `StorageSystem.BatchedAtOnce` | storage/StorageSystem.cpp:190-203 | In particular, at most max_batch_uids stolen uids and room in the queue make one job of them all and leave nothing dirty |
| `StorageSystem.PushBatchStep` | storage/StorageSystem.cpp:193-203 | A step of the machine's timer queues the next max_batch_uids uids, or what is left, and is refused exactly with 360 jobs queued |
| `StorageSystem.PassPartition` | storage/StorageSystem.cpp:193-203 | Each stolen uid is in exactly one accepted batch or goes back to its shard, never both |
| `StorageSystem.MarkAllDirty` | storage/StorageSystem.cpp:199-202 | Marking rejected uids again makes exactly them dirty, besides those that were |
| `StorageSystem.JobIsRun` | storage/StorageSystem.cpp:45-72 | The code of handle_db_job, run without interruption, is a run of the step machine with the same outcome, so the machine's theorems are about it |
| `StorageSystem.PassIsRun` | storage/StorageSystem.cpp:190-203 | The batching loop, run without interruption, is a run of the machine's timer steps |
| `StorageSystem.NextIndex` | storage/StorageSystem.cpp:193 | i += maxBatch in size_t arithmetic does not wrap for any vector a machine can hold |
| `StorageSystem.StorageSystem.EnqueueRtWrite` | storage/StorageSystem.cpp:290-298 | Appends the snapshot and adds one to the counter modulo 2^32 |
| `StorageSystem.StorageSystem.EnsureConnected` | storage/StorageSystem.cpp:73-84 | Afterwards both connections are up or both are down, and the result says which |
| `StorageSystem.StorageSystem.ConnectDb` | storage/StorageSystem.cpp:86-140 | What each failing call leaves of the two connections |
| `StorageSystem.StorageSystem.FlushRtWrites` | storage/StorageSystem.cpp:241-260 | Swaps the queue out, subtracts its length, writes what the batch call applies, disconnects if that failed; without a Redis connection the swapped out snapshots and their count are gone |
| `StorageSystem.StorageSystem.WriteUsersRtOnly` | storage/StorageSystem.cpp:255 | The row by row writes amount to one application of the applied prefix |
| `StorageSystem.StorageSystem.FetchUsers` | storage/StorageSystem.cpp:59 | The loop collects the stored rows of the requested uids in request order |
| `StorageSystem.StorageSystem.CallSpUpsertUserStateBatch` | storage/StorageSystem.cpp:67-71 | Row by row upserts amount to one application of the applied prefix of the fetched rows |
| `StorageSystem.StorageSystem.HandleDbJob` | storage/StorageSystem.cpp:45-72 | The whole job on every failure branch, as one function of the state and the outcomes of the calls; and outright, when both connections are up afterwards, when the snapshot queue has been drained, and when MySQL can have changed |
| `StorageSystem.StorageSystem.TryPushJob` | storage/DBWorker.h:25-41 | Appends the job unless 360 are queued, and says so |
| `StorageSystem.StorageSystem.PushBatches` | storage/StorageSystem.cpp:190-203 | The loop with its size_t index does one pass, and cuts the list by max_batch_uids as PassBatches says |
| `StorageSystem.StorageSystem.OnTimer` | storage/StorageSystem.cpp:174-204 | Steals exactly the dirty uids and queues them in jobs of exactly max_batch_uids, except the last, marking a rest again that finds 360 jobs queued; or wakes the DB thread if snapshots are pending; does nothing before start |
| `AoiModel.GridShowsExactly` | worker/fieldWorker.cpp:215-221 | Main result. In every run, players that come back included, what the grid's own announcements (field/AoiWorld.cpp:19-335) amount to for a client is exactly the other entities within the view radius of its sector, and those it was shown before it was removed that no Leave has been sent to it for since; remove_entity sends the removed player nothing |
| `AoiModel.GridShowsTheSquare` | README.md:156-187 | Main result. So a player that is there for the first time is shown exactly the other entities within the view radius of its sector; the direct Enters of joins are not among the announcements |
| `AoiModel.GridShowsBoth` | README.md:156-187 | The grid shows two players that are there for the first time to each other, or neither to the other |
| `AoiModel.ReturnerSeesGhost` | worker/fieldWorker.cpp:215-221 | The input on which a returner's view is wrong: 1 comes in where 2 is, both are removed, 1 comes back and still believes in 2, which is gone |
| `FieldViews.BelievedExactly` | worker/fieldWorker.cpp:425-452 | Main result. With the direct Enters of joins counted in, in every run of joins, leaves, returns, moves, monsters and closed sessions a client believes in an entity if and only if it is in its square, or was told to it directly or believed by it when it left the field, and no Leave was sent since. An entry of a player that is present is included if it is into the sector it is in; one into another sector is not |
| `FieldViews.BelievedOverGrid` | worker/fieldWorker.cpp:425-452 | The same over the grid's view in every run, entries of present players into any sector included: believed means shown by the grid, told directly, or believed when it left, with no Leave since |
| `FieldViews.SquareExactly` | README.md:183-187 | A client's belief is its square, as the description has it, if and only if all that stands from direct Enters and earlier stays is in the square |
| `FieldViews.NewcomerBelieves` | worker/fieldWorker.cpp:438-446 | Right after its join, whatever went before, a newcomer with an open session believes in exactly the whole field, its square, and all it believed when it came in |
| `FieldViews.FirstComerBelieves` | worker/fieldWorker.cpp:438-446 | One that comes in for the first time believed nothing before, hence exactly the whole field and its square |
| `FieldViews.OthersBelieve` | worker/fieldWorker.cpp:448-451 | And every other player with an open session believes in the newcomer, however far |
| `FieldViews.FarMonster` | worker/fieldWorker.cpp:443-446 | The concrete input: with sectors of 15 and radius 2 a player that joins at the origin believes in a monster 450 away |
| `AoiModel.RunKeeps` | README.md:140-148 | Sector indexes, watcher sets and subscriptions (field/AoiWorld.cpp:19-335) agree with each other after every run that adds nobody present to another sector or as a monster |
| `AoiModel.AddedKeeps` | worker/fieldWorker.cpp:432-434 | Adding an absent entity (add_entity of field/AoiWorld.cpp) keeps the indexes, and every view that is right |
| `AoiModel.RemovedKeeps` | worker/fieldWorker.cpp:217-219 | Removing an entity keeps the indexes, and every view that is right except that of the removed one, which is told nothing |
| `AoiModel.MovedKeeps` | worker/fieldWorker.cpp:586-588 | Moving an entity keeps the indexes, and every view that is right, within a sector or across |
| `AoiModel.ReaddedExactly` | worker/fieldWorker.cpp:205-213 | add_entity on an entity already present keeps the indexes right if and only if the entity stays in its sector and does not turn from player to monster |
| `AoiModel.ReaddedViewsExactly` | worker/fieldWorker.cpp:205-213 | Right after such a call, from whatever sector to whatever other, views that were right are right if and only if nothing that the entity saw, and nobody that saw it, is out of view from its new place |
| `AoiModel.BroadcastsExactly` | worker/fieldWorker.cpp:652-680 | Main result. In every run the broadcast list of a subject (field/FieldAoiSystem.cpp:21-88) holds exactly those who have it in their square, and those who were on it when they were removed, with no Leave sent to them and no removal of the subject since |
| `AoiModel.BroadcastsReachViewers` | worker/fieldWorker.cpp:652-680 | So a player that is there for the first time is on exactly the lists of the entities in its square, whoever else comes back |
| `AoiModel.ListsOfPresent` | worker/fieldWorker.cpp:215-221 | Only present entities have a broadcast list |
| `AoiModel.LeaversLinger` | worker/fieldWorker.cpp:215-221 | A removed player stays on exactly the broadcast lists it was on, and its view stays what it was |
| `AoiModel.ReturnersExactly` | worker/fieldWorker.cpp:652-655 | So a player that comes back under its id sees, and is broadcast to for, exactly the present entities in its square if and only if all present ones that it saw, or was listed for, are in view again |
| `AoiModel.NearSymmetric` | README.md:156-187 | Visibility between occupied sectors is symmetric |
| `AoiNews.AnnouncedExactly` | worker/fieldWorker.cpp:432-434 | Main result. In every state of every run an operation of the grid (field/AoiWorld.cpp:19-335) sends exactly these messages: of an addition Enter to every other player that has it in view, and to a player a Snapshot of all in view; of a removal Leave; of a move Move with the new place to all that have it in view, Enter and Leave to those for whom that changes, and to a player what enters and leaves its own view; each with the subject's place |
| `AoiNews.ToldWhereItIs` | worker/fieldWorker.cpp:64-75 | Main result. In every run, returners included, the place that a client was last told of an entity in its square is where that was last put |
| `AoiNews.RunPlaces` | worker/fieldWorker.cpp:586-588 | The grid has every entity at the place of its last add or move, in that place's sector, and none that was removed last |
| `AoiNews.SquareOnThePlane` | README.md:156-187 | What a square is on the plane: entities less than radius times the sector side apart on both axes are in each other's square, ones radius + 1 sides apart on one axis are not |
| `AoiNews.OffThePlane` | worker/fieldWorker.cpp:432-434 | A place with a negative coordinate belongs to the sector of the place with 0 instead |
| `AoiWorld.AoiWorld.AddEntity` | worker/fieldWorker.cpp:432-434 | The object's new indexes, announcements and lists (field/AoiWorld.cpp, field/FieldAoiSystem.cpp:21-88) are those of the model's addition, and what is sent is exactly what AnnouncedExactly says |
| `AoiWorld.AoiWorld.RemoveEntity` | worker/fieldWorker.cpp:217-219 | The same for removal: Leave with the last place to the other watchers and nothing to the removed player, the list erased by FieldAoiSystem |
| `AoiWorld.AoiWorld.MoveEntity` | worker/fieldWorker.cpp:586-588 | The same for a move: every message with its kind, its watcher and the new place |
| `Frames.LenRoundTrip` | net/session.cpp:147-148 | The length written into a header is the length read from it, for every 32-bit length |
| `Frames.HeaderRoundTrip` | net/session.cpp:87 | Every four header bytes are the encoding of the length they are read as |
| `Frames.ParseKeeps` | net/session.cpp:81-134 | Parsing loses nothing: the frames encoded again and the kept rest are the buffer, and the rest is no whole frame |
| `Frames.ParseEncoded` | net/session.cpp:81-134 | Encoded payloads come back one by one, whatever follows them |
| `Frames.FeedIsParse` | net/session.cpp:75-134 | However the bytes are cut into reads, the frames and the kept rest are those of one read |
| `Frames.FeedRoundTrip` | net/session.cpp:75-134 | Main result. Any chunking of encoded payloads is extracted as exactly those payloads, with nothing kept |
| `SessionModel.EndToEnd` | net/session.cpp:143-201 | Main result. For any interleaving of send_payload calls, coalesced wakeups, refused writes and reads of any size: the payloads extracted, those still in the bytes under way, and the rest of the queue are the pushed payloads in order less the refused ones, and the kept buffer is less than a frame |
| `SessionModel.NoLostWakeup` | net/session.cpp:147-171 | Main result. In every reachable state of an open session, a queued frame has a wakeup pending, a producer between push and uv_async_send, or the loop thread between the wakeup and the swap |
| `SessionModel.QuietMeansSent` | net/session.cpp:147-201 | So once no thread is under way and no wakeup is pending, an open session has handed every pushed payload to uv_write |
| `Session.RoutedOnArrival` | net/session.cpp:75-134 | Main result. However the bytes are cut into reads, and however the session's state changes between reads, the workers get each payload once, in order, routed by the state during the read that brings the last byte of its frame |
| `Session.DeliveredOnArrival` | net/session.cpp:91-127 | Main result. The game worker gets, in order, exactly the envelopes whose last byte was read outside a field and the skill envelopes whose last byte was read in one; a field's worker exactly the other field commands whose last byte was read while the session was in that field |
| `Session.CuttingsAgree` | net/session.cpp:91-127 | Two cuttings of the same bytes deliver the same if every frame completes in reads whose states route its payload alike |
| `Session.RoutingIgnoresChunking` | net/session.cpp:91-127 | In particular the reads do not matter at all for payloads that all states met route alike |
| `Session.CuttingDecides` | core/handlers/game_field_logic.cpp:72-73 | The input on which they do: an envelope that is no skill goes to the game worker or nowhere as its bytes are read before or after the session enters the field |
| `Frames.CutOnArrival` | net/session.cpp:75-134 | A receiver cuts every payload off in exactly the read that brings the last byte of its frame |
| `Session.FlushIsRun` | net/session.cpp:165-201 | The flush loop is a run of the step machine and puts the same bytes on the wire |
| `Session.Session.OnRead` | net/session.cpp:63-135 | A read keeps what the parser keeps; of what it cut off, in a field the skill envelopes go to the game worker and the other field commands to the session's field, elsewhere the envelopes to the game worker, and nothing without one; an error closes and delivers nothing |
| `Session.Session.Reassemble` | net/session.cpp:81-134 | The offset loop with its single erase is the parser |
| `Session.Session.Dispatch` | net/session.cpp:94-124 | One frame goes to the game worker, to the session's own field, or nowhere, as state and verifiers say |
| `Session.Session.SendPayload` | net/session.cpp:143-156 | Queues the encoded frame and asks for a wakeup, or does nothing if closing or empty |
| `Session.TakenAt` | net/session.cpp:175-200 | Each frame is put on the wire, whole and in its place, exactly if uv_write takes it |
| `Session.Session.FlushSendQueue` | net/session.cpp:165-201 | Empties the queue and puts the accepted frames, whole and in order, on the wire: all if all are taken, none if none is |
| `Session.Session.OnSendAsync` | net/session.cpp:158-162 | Flushes unless the session is closing |
| `FieldClock.ClosedForm` | worker/fieldWorker.cpp:223-244 | Main result. The ticks run are the minimum of cap times the frames and, over the frames j, what was due after j frames and cap for each later one, for every step, cap and start |
| `FieldClock.TimeIsKept` | worker/fieldWorker.cpp:230-235 | Ticks times step plus what is stored is the time passed, and the store is never negative |
| `FieldClock.CaughtUpExactly` | worker/fieldWorker.cpp:231 | A clock has run all ticks due if and only if it stores less than a step |
| `FieldClock.SplitsAgree` | worker/fieldWorker.cpp:223-244 | Two ways to cut the same time into frames give the same ticks and store, if both end caught up |
| `FieldClock.BacklogExactly` | worker/fieldWorker.cpp:231 | A frame leaves a backlog if and only if it brings the store to cap + 1 steps |
| `FieldClock.ShortFramesCatchUp` | worker/fieldWorker.cpp:223-244 | Frames of at most cap steps never leave a backlog |
| `FieldPlayers.SpeedBound` | worker/fieldWorker.cpp:173-198 | Main result. Over every run of moves, skills, blows and frames, a player is no further from where it was than 4.5 times the time of the ticks run, nor than 4.5 times the time passed and the time in store |
| `FieldPlayers.RunReaches` | worker/fieldWorker.cpp:557-592 | The invariant behind it: directions stay unit vectors and the displacement of two parts adds up by the triangle inequality |
| `FieldPlayers.RunClock` | worker/fieldWorker.cpp:223-235 | The clock within a player's run is the clock of FieldClock, whatever the player does |
| `FieldPlayers.StoppingDistance` | worker/fieldWorker.cpp:565-584 | Main result. Without further input a player goes straight on for exactly the ticks of frames ending within 0.5 of the last input, no further than 4.5 times 0.5 and the time in store, and moves on if and only if no later tick has run |
| `FieldPlayers.GoesWhereTold` | worker/fieldWorker.cpp:191-198 | Main result. After input of a direction, and without further input, the player stands at 4.5 times the ticks run within 0.5, along the very vector that was sent, shortened to length 1 |
| `FieldPlayers.StaysWhenTold` | worker/fieldWorker.cpp:180-189 | After input of less than 0.01 it does not move |
| `FieldPlayers.BlowsLeave` | worker/fieldWorker.cpp:540-554 | Over every run a player has its hit points less the damage of all blows, down to 0 |
| `FieldPlayers.BlowIsTold` | worker/fieldWorker.cpp:540-554 | A blow that takes something marks the player, and one that leaves nothing announces its death |
| `FieldPlayers.MovementTrace` | worker/fieldWorker.cpp:177-202 | Main result. In every run of a new player the announcements alternate Chase, Idle, Chase, ..., the last is Chase exactly while it moves; moving means a unit direction and speed 4.5, resting means no direction |
| `FieldPlayers.RestSpeedExactly` | worker/fieldWorker.cpp:180-189 | That a player at rest has speed 0 holds if and only if it was created so or something was announced; the Player class creates it with speed 5 |
| `FieldPlayers.SnapshotsFaithful` | worker/fieldWorker.cpp:753-775 | In every run each snapshot holds the position at its time and is followed at once by its dirty mark, which is what the pipeline's convergence asks of producers |
| `FieldPlayers.TimeoutSaves` | worker/fieldWorker.cpp:565-573 | A player stopped by the timeout is saved where it stops |
| `FieldPlayers.RestIsSilent` | worker/fieldWorker.cpp:565-575 | A player at rest makes no calls in any number of ticks |
| `FieldPlayers.StopSavesExactly` | worker/fieldWorker.cpp:180-189 | After any run, a player stopped by its client is saved where it stands if and only if at its last move 0.25 had passed since its last mark, or it timed out there; the stop itself saves nothing |
| `FieldPlayers.RunSaves` | worker/fieldWorker.cpp:760-775 | Over every run of moves, skills, blows and frames, the place of a player is saved exactly as the interval at its last move says |
| `FieldStorage.SavedArrives` | worker/fieldWorker.cpp:753-775 | Main result. Over every run of a player in the field and every interleaving, with any failures, of field threads, timer and DB thread in which the snapshots pushed for the player are those the field saves: MySQL can still come to hold the last saved state if and only if it does, or some thread carries the uid and no failed Redis batch took it; and once drained it holds it if and only if neither it nor its mark went down with a failure |
| `FieldStorage.SavedHereArrives` | worker/fieldWorker.cpp:144-159 | So if a player was saved since its last move, MySQL's newest row of it is the very place where it stands, in every such interleaving |
| `FieldStorage.CallsArrive` | worker/fieldWorker.cpp:753-775 | The player's own calls, run alone, are such an interleaving, after which the last saved state can reach MySQL |
| `FieldStorage.CallsRun` | storage/StorageSystem.cpp:290-298 | Enqueue, counter and mark of each call are the machine's steps in the code's order, whatever the player does |
| `FieldIntroductions.MutualIntroduction` | worker/fieldWorker.cpp:425-452 | Main result. After any joins and leaves, for each ordered pair of players present, an Enter for the one was delivered to the other at or after the later of their two joins if and only if the other's session was found at that join |
| `FieldIntroductions.JoinCount` | worker/fieldWorker.cpp:436-451 | A join over n others and m monsters calls send_field_enter exactly 1 + 2n + m times, and delivers 1 + n + m Enters to the newcomer if its session is found and one to each other player whose session is found |
| `FieldIntroductions.JoinIntroduces` | worker/fieldWorker.cpp:438-451 | Where in a join each other player is told of the newcomer's position and the newcomer of its |
| `FieldIntroductions.JoinStarts` | worker/fieldWorker.cpp:436-446 | And of itself first, and of every monster where that is |
| `FieldWorker.FieldWorker.UpdateWorld` | worker/fieldWorker.cpp:223-244 | A frame runs both clocks and moves every player as the machine does; the order of players does not matter |
| `FieldWorker.FieldWorker.CatchUpPlayers` | worker/fieldWorker.cpp:229-235 | The capped loop is the machine's catch-up for every player at once |
| `FieldWorker.FieldWorker.CatchUpMonsters` | worker/fieldWorker.cpp:237-243 | The monsters' loop is the clock with cap 3 |
| `FieldWorker.FieldWorker.TickPlayers` | worker/fieldWorker.cpp:557-592 | Every player takes one tick, whatever the order of the map |
| `FieldWorker.FieldWorker.TickPlayer` | worker/fieldWorker.cpp:560-590 | Timeout after 0.5, rest, or a move along direction times speed times step, with its calls in order |
| `FieldWorker.FieldWorker.OnClientMoveInput` | worker/fieldWorker.cpp:161-203 | Input from the player's own session steers that player only; any other command changes nothing |
| `FieldWorker.FieldWorker.SteerPlayer` | worker/fieldWorker.cpp:173-202 | Start, turn or stop: the direction is the input shortened to length 1, at 4.5, or none below the dead zone, with the announcement only on a change |
| `FieldWorker.FieldWorker.MarkDirtyState` | worker/fieldWorker.cpp:753-758 | Enqueues the player's snapshot, marks it dirty, notes the time |
| `FieldWorker.FieldWorker.MarkDirtyPosIfNeeded` | worker/fieldWorker.cpp:760-775 | Does so for a move of at least 0.10 and 0.25 after the last mark, else nothing |
| `FieldWorker.FieldWorker.WritePlayerRtEnqueue` | worker/fieldWorker.cpp:144-159 | Hands the snapshot to the writer, if there is one |
| `FieldWorker.FieldWorker.AttackPlayer` | worker/fieldWorker.cpp:540-554 | A blow takes the damage off the hit points, down to 0, marks the player without a snapshot, and announces its death at 0 |
| `FieldWorker.FieldWorker.HandleSkill` | worker/fieldWorker.cpp:335-361 | A skill is announced for its player and changes nothing else of any player |
| `FieldWorker.FieldWorker.AddPlayer` | worker/fieldWorker.cpp:205-213 | A join, with its sends, is the join of FieldIntroductions; a null player changes nothing |
| `FieldWorker.FieldWorker.OnPlayerEnterField` | worker/fieldWorker.cpp:425-452 | The three loops make the sends of a join, for whatever orders they visit the players in |
| `FieldWorker.FieldWorker.RemovePlayer` | worker/fieldWorker.cpp:215-221 | Takes the player off the grid and out of the map |
| `FieldWorker.FieldWorker.OnRecvEnterField` | core/handlers/game_field_logic.cpp:55-100 | Puts the player on the entry spot and joins; nobody else changes |
| `MeleeModel.AttackRate` | RL(강화학습코드)/fsm_melee_env_v2.py:129-130 | Main result. H hits of the monster in N steps satisfy (H-1)*0.9 <= (N-1)*dt, and the target's with 1.0 |
| `MeleeModel.HpAccount` | RL(강화학습코드)/fsm_melee_env_v2.py:274-292 | Main result. With a target, t_hp = max(0, 100-10H) and m_hp = max(0, 100-6T), hence a lower bound on m_hp after N steps |
| `MeleeModel.LowHpStays` | RL(강화학습코드)/fsm_melee_env_v2.py:226-227 | Hit points never rise, and once low they stay low |
| `MeleeModel.Arena` | RL(강화학습코드)/fsm_melee_env_v2.py:164-168 | Main result. In every reachable state monster and active target are in the arena |
| `MeleeModel.StepLength` | RL(강화학습코드)/fsm_melee_env_v2.py:143-168 | No step takes the monster further than its action's speed times dt nor the target further than 5 dt, clipping included |
| `MeleeModel.ResetInside` | RL(강화학습코드)/fsm_melee_env_v2.py:92-121 | Reset puts both inside, with full hit points and no cooldowns |
| `MeleeModel.ReturnSplit` | RL(강화학습코드)/fsm_melee_env_v2.py:173-210 | Main result. The return of any run is 1.5H - 0.48T plus the shaping, plus small terms between -0.031 and 0.019 a step, plus the terminal terms |
| `MeleeModel.ShapingBound` | RL(강화학습코드)/fsm_melee_env_v2.py:192-193 | The shaping of n steps is at most n times 0.03 * 8.5 * dt in size |
| `MeleeModel.ReturnBound` | RL(강화학습코드)/fsm_melee_env_v2.py:173-210 | So the return of n steps is 1.5H - 0.48T and the terminal terms, up to n times 0.255 dt and 0.031 below or 0.019 above |
| `MeleeModel.TerminalOnce` | RL(강화학습코드)/fsm_melee_env_v2.py:203-210 | In an episode the terminal terms are that of its last state |
| `MeleeModel.FleeTelescopes` | RL(강화학습코드)/fsm_melee_env_v2.py:192-193 | Over Return steps from low hit points the shaping telescopes to 0.03 times the distance won |
| `MeleeModel.NoTarget` | RL(강화학습코드)/fsm_melee_env_v2.py:203-213 | Without a target m_hp stays 100, no step terminates, and steps are truncated from max_steps on |
| `MeleeMoves.ChaseAndReturn` | RL(강화학습코드)/fsm_melee_env_v2.py:151-164 | Main result. A Chase step takes the monster 5.5 dt along the line to where the target stood, a Return step exactly 3.5 dt further away from there, the arena's edge apart; in distances |
| `MeleeMoves.TargetKeepsDistance` | RL(강화학습코드)/fsm_melee_env_v2.py:264-272 | Main result. The target goes 5 dt away from a monster nearer than 1.4, 5 dt along the line to one further than 7, and else stands, the edge apart |
| `MeleeMoves.TargetStands` | RL(강화학습코드)/fsm_melee_env_v2.py:264-272 | It stands if the monster came right up to it, and stays away if it is not active |
| `MeleeMoves.OtherMoves` | RL(강화학습코드)/fsm_melee_env_v2.py:139-162 | The monster stays where it is if it idles or attacks, or has no target to chase or flee |
| `MeleeMoves.PatrolMoves` | RL(강화학습코드)/fsm_melee_env_v2.py:143-149 | A Patrol step goes 2.5 dt along the patrol direction, which is a new one exactly if the timer had run out |
| `MeleeMoves.BlowsExactly` | RL(강화학습코드)/fsm_melee_env_v2.py:274-292 | Main result. A step costs the target 10 exactly if the monster attacks with a cooled down weapon and they end up at most 1.3 apart, and the monster 6 whenever the target's weapon has cooled down and they end up at most 1.2 apart; with what the cooldowns are then |
| `MeleeMoves.RewardExactly` | RL(강화학습코드)/fsm_melee_env_v2.py:172-213 | The reward of a step in full, from blows, action, hit points and distances, and when it terminates or truncates |
| `MeleeEnv.FsmMeleeEnvV2.ResetEpisode` | RL(강화학습코드)/fsm_melee_env_v2.py:92-121 | Sets every field as the reset function says |
| `MeleeEnv.FsmMeleeEnvV2.StepOnce` | RL(강화학습코드)/fsm_melee_env_v2.py:125-222 | State, reward and flags of a step are those of the step function, which MeleeMoves tells outright |
| `MeleeEnv.FsmMeleeEnvV2.MonsterMove` | RL(강화학습코드)/fsm_melee_env_v2.py:139-164 | The monster's part of a step, clipped |
| `MeleeEnv.FsmMeleeEnvV2.TargetBotMove` | RL(강화학습코드)/fsm_melee_env_v2.py:264-272 | The target flees when near, follows when far, else stands |
| `MeleeEnv.FsmMeleeEnvV2.ResolveMonsterAttack` | RL(강화학습코드)/fsm_melee_env_v2.py:274-282 | A hit needs Attack, a cold weapon and range; it costs 10 and sets the cooldown |
| `MeleeEnv.FsmMeleeEnvV2.ResolveTargetAttack` | RL(강화학습코드)/fsm_melee_env_v2.py:284-292 | The same for the target, at 6 |
| `MeleeEnv.FsmMeleeEnvV2.Reward` | RL(강화학습코드)/fsm_melee_env_v2.py:172-201 | The accumulated reward is the sum of pay, shaping and small terms |
| `PlayerRegistry.RegistrySound` | game/PlayerManager.cpp:6-65 | Main result. Over every run of connections, also at addresses used before, logins with fresh ids, logins again, removals of either kind and unbindings: each session in the index leads to an existing player created for it, carries that player's id, and a player's id is bound to no other session |
| `PlayerRegistry.IndexInjective` | game/PlayerManager.cpp:29-39 | No two sessions lead to one player |
| `PlayerRegistry.CreatedExactly` | game/PlayerManager.cpp:29-39 | create_player keeps the registry sound if and only if no other session led to the new id |
| `PlayerRegistry.CreatedStrays` | game/PlayerManager.cpp:29-39 | A login again makes exactly the session's former player reachable by id only |
| `PlayerRegistry.RemovedBySessionStrays` | game/PlayerManager.cpp:41-51 | Removal by session takes exactly the player found and makes nobody unreachable |
| `PlayerRegistry.RemovedByIdStrays` | game/PlayerManager.cpp:53-65 | Removal by id takes the player, and exactly the present player of its session becomes reachable by id only, if that is another one |
| `PlayerRegistry.OrphansExactly` | game/PlayerManager.cpp:53-65 | remove_by_id makes another player unfindable by session if and only if the removed player's session is in the index with another id |
| `PlayerRegistry.NobodyAstray` | game/PlayerManager.cpp:6-65 | As long as nobody logs in again on a session, every player is found by its session, whatever is removed how |
| `PlayerRegistry.OwnPlayerExactly` | net/tcp_server.cpp:57-60 | With ids never given twice, a session that carries a present player's id is the one the player was created for if and only if it has logged in; one that has not carries 4 |
| `PlayerRegistry.StrangerCarries` | net/tcp_server.cpp:57-60 | The input: a first session logs in as player 4, and a second one that never logs in carries 4, too |
| `PlayerManager.PlayerManager.GetBySession` | game/PlayerManager.cpp:6-18 | Returns the player found by the session, or null |
| `PlayerManager.PlayerManager.GetById` | game/PlayerManager.cpp:20-27 | Returns the player of that id, or null |
| `PlayerManager.PlayerManager.CreatePlayer` | game/PlayerManager.cpp:29-39 | A new player object in both maps |
| `PlayerManager.PlayerManager.RemoveBySession` | game/PlayerManager.cpp:41-51 | Both maps lose the session's player, or nothing happens |
| `PlayerManager.PlayerManager.RemoveById` | game/PlayerManager.cpp:53-65 | Both maps lose the player and its session's entry, or nothing happens |
| `PlayerManager.SessionManager.RemoveSession` | net/tcp_server.cpp:51-54 | Erases exactly the bindings to the session |
| `PlayerManager.SessionManager.BindPlayer` | core/handlers/game_auth_logic.cpp:54 | Binds the id to the session, over any earlier binding |
| `PlayerManager.SessionManager.FindByPlayerId` | worker/fieldWorker.cpp:386-387 | Returns the session bound to the id, or null |
| `PlayerManager.OnRecvLogin` | core/handlers/game_auth_logic.cpp:18-86 | A request that is verified, with a user id and a token, creates the player under the user id as its name, sets the session's id and binds it; one that lacks either, or is not verified, changes nothing |

## Left out

- Shared memory without locks: threads take atomic steps in one sequentially consistent order, and relaxed counters are atomic.
- Rounding: times, positions, cooldowns and rewards are exact reals, and sector coordinates are unbounded integers.
- Foreign calls: libuv, hiredis, MySQL and FlatBuffers are outcomes, maps of rows and verdicts on payloads; a batch that fails may have applied any prefix.
- Replies that Redis holds but cannot parse as four numbers: a stored row is always read back.
- Start and stop of the storage system and its threads, and the worker's single connect at start.
- `storage/FlushWorkerUv.cpp`: another timer that ignores the result of a push.
- StorageSystem.StorageSystem.OnTimer: assumes that the dirty uids fit the largest vector, as the allocation would throw otherwise.
- StorageSystem.StorageSystem.WriteUsersRtOnly: a batch that the code reports as written is taken to have applied every row; the code looks at the call's status only, so an error reply inside a successful pipeline would count as written.
- StorageSystem.StorageSystem.FetchUsers: every stored row comes back; the code skips replies that are errors or do not parse.
- StorageSystem.StorageSystem.CallSpUpsertUserStateBatch: the code makes one stored-procedure call for all rows; that the procedure goes through the rows in order, and has applied a prefix when it fails, is assumed, since its body is not part of this model.
- Frame sizes beyond 32 bits, and session state changing between two frames of one read.
- Session.Session.OnRead: an error read states what the session keeps and that it closes, not the stop of reading nor the close callback.
- Snapshot data of inventory, which the code always clears.
- AoiWorld.AoiWorld.MoveEntity: the callback is always set, as FieldAoiSystem sets it before use. What an operation sends is stated as a set; that no message is sent twice is not.
- update_player_aoi, which repeats a rebuild, and the client messages before the grid is initialised.
- Monster AI, movement, spawning and the search for the closest player: easy or finite beside the clock that drives them; a blow on a player is a step of its own.
- FieldWorker.FieldWorker.AttackPlayer: takes the player from the field, while the code looks it up in the registry by the same id; combat and stat broadcasts are not modelled.
- FieldWorker.FieldWorker.HandleSkill: the damage to the monster and its death broadcast are not modelled.
- FieldWorker.FieldWorker.OnPlayerEnterField: what the grid announces is one entry of the object's log here; `AoiWorld` has the grid and `FieldViews` the two together.
- FieldWorker.FieldWorker.OnRecvEnterField: verification, the session's state and field id, and the acknowledgement.
- FieldViews.BelievedExactly: runs in which a present player enters again into another sector; the indexes are wrong afterwards, and `AoiModel.ReaddedViewsExactly` and `FieldViews.BelievedOverGrid` say what the clients believe.
- FieldViews: a closed session's client is what it would believe of the calls made for it; the grid's announcements are taken as received.
- Null entries of the players map, which add_player refuses, and the terrain test, which always succeeds.
- Player positions set by anything but movement and entering the field.
- PlayerManager.PlayerManager.CreatePlayer: a null session, which the login handler never passes; a null key would stay in the index after removal by id.
- PlayerManager.SessionManager.FindByPlayerId: expiry of weak pointers; a session counts as alive until it is removed. The map from session ids to sessions is not modelled.
- The login handler's acknowledgement is a flag; ids come from `core/ids.h`, which is not part of this model, and are taken to be fresh.
- The observation vector of the melee environment, its float32 arithmetic and its random generator.
- Dispatcher, worker threads, configuration, generated packet code and the training scripts.
