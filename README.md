# Pick-px backend — a Dafny model

Pick-px is a shared pixel canvas. Players draw pixels on a canvas through a socket gateway.
The pixels live in a Redis hash `canvas:{id}` keyed `x:y` and are flushed to Postgres by queue workers.
A quiz game mode charges lives for wrong answers and ranks the players.
Groups on a canvas share a chat, whose newest 50 messages are cached in a Redis list.
Four Python scripts turn CSV pixel lists into load-test payloads and configurations.

This project models the rules underneath the Redis, database and socket plumbing.
The store is explicit state: Redis hashes and sets become `map`s and `set`s held in classes, a Redis list is a `seq`, the sockets' emits are an appended log, and time is a `now` parameter.
One module per source file:

- `GameState`, `GameLogic`, `GamePixel`, `GameFlush` — the game: per-user counters, the player and dead sets, the answer state machine, the game-over check, the two-class ranking, the freeing of a dead player's pixels, and the dirty-set flush loop.
- `CanvasService`, `Broadcast`, `PixelUpdateWorker`, `PixelGenerationWorker`, `HistoryWorker` — pixel storage: the Redis-first read with its database fallback, the lock table, the 20-second cooldown, the per-canvas broadcast batches flushed at 50, the de-duplicating update map written in 100-pixel chunks, the grid generator with 5000-pixel inserts, and the history job's value parsing.
- `GroupService`, `GroupGateway`, `GroupController` — groups and chat: admission (at most 3 groups per canvas), the quit/delete split, the overlay fallback, the chat cache, room switching and the request validation chains.
- `AppGateway` — socket sessions, the active-socket sets and the active-user-count broadcast throttle.
- `CanvasController` — the canvas's active window and the response shaping.
- `AlarmGenerator`, `RedisMonitor`, `StrategyFactory` — alarm scheduling windows, INFO parsing with the memory warning and the retry back-off, and the strategy dispatch.
- `LoadTest`, `ArtilleryBattle`, `ArtilleryTeams`, `ArtilleryFixed`, `ArtillerySimple` — the load-test generators: record numbering, the mirror across 63, the stable sort by x, the JSON-lines payload and the arrival arithmetic.
- `Wrappers`, `JsText`, `PixelField`, `Sorting`, `Collections` — shared pieces: Option/Result, the JavaScript text conversions the services rely on (`Number()`, `parseInt`, `String()`, `split`), the `x:y` and `color|owner` encodings, and a stable insertion sort.

Two properties of the load-test scripts hold only within limits:

- The battle script numbers its teams from 1 and from 10000, so their user ids are disjoint exactly when team 1 has at most 9999 rows or team 2 has none (`ArtilleryBattle.TeamIdsDisjoint`).
- The per-team script starts 30 virtual users a second for `n / 20 + 10` seconds, which is more arrivals than its `n` scenarios rather than one each (`ArtilleryTeams.ArrivalsExceedRecords`).

Quirks modelled as written:

- The history job keeps only the first character of a game value's colour.
- `GroupController` calls `joinGroup` without a canvas id.
- A non-numeric id reaching a bigint query makes the query fail: `GroupController.GetGroupIdByCanvas` answers 500, and `join_chat` rejects without emitting anything.
- A NaN hit or miss counter reports a hit rate of 0, because `NaN > 0` is false.
- `getAllPixels` yields no owner. The previous owner of an answered pixel and the owners of a dead player's pixels are therefore inputs of the answer handler; see Findings.

## Model

| member | source | states |
|---|---|---|
| PixelField.FieldRoundTrip | src/canvas/canvas.service.ts:76-79 | decoding a field written as `${x}:${y}` with split and Number gives back (x, y), negative coordinates included |
| PixelField.FieldInjective | src/canvas/canvas.service.ts:48 | two cells share a field text iff they are the same cell |
| PixelField.CellRoundTrip | src/game/game-flush.service.ts:52-55 | splitting a game value `color\|owner` at '\|' gives back the colour and the owner, an empty owner reading as null |
| PixelField.BareColor | src/game/game-flush.service.ts:52-55 | a value without '\|' is all colour and no owner |
| JsText.ToNumberOfIntToString | src/group/group.controller.ts:157-164 | Number() of a rendered integer gives back that integer |
| JsText.ParseIntOfNatString | src/redis/redis.module.ts:207 | parseInt of a rendered natural number followed by a non-digit reads exactly that number |
| JsText.SplitJoin | src/canvas/canvas.service.ts:77 | splitting a joined list of separator-free parts gives back the parts |
| JsText.JoinSplit | src/canvas/canvas.service.ts:77 | joining the parts of a split gives back the text |
| Sorting.Insert | src/game/game-logic.service.ts:112-130 | inserting one element adds exactly that element |
| Sorting.SortBy | src/game/game-logic.service.ts:112-130 | the stable sort returns a permutation of its input |
| Sorting.InsertSorted | src/game/game-logic.service.ts:112-130 | under a total preorder, inserting into a sorted list keeps it sorted |
| Sorting.SortBySorted | src/game/game-logic.service.ts:112-130 | under a total preorder the result is sorted and a permutation of the input |
| Collections.Members | src/game/game-flush.service.ts:35 | SMEMBERS lists every member of the set exactly once |
| JsText.NatToString | src/game/game-pixel.service.ts:20 | a rendered natural number is a non-empty run of digits, one digit long iff below 10 |
| JsText.Split | src/canvas/canvas.service.ts:77 | `split` yields at least one part, and no part contains the separator |
| JsText.IntToStringHasNo | src/canvas/canvas.service.ts:48 | a rendered integer holds no character other than '-' and digits, so no ':' or '\|' |
| JsText.SplitAround | src/canvas/canvas.service.ts:77 | splitting `a + c + b` with c not in a gives a, then the parts of b |
| JsText.ToNumber | src/group/group.controller.ts:60-62 | `Number()`: '' is 0, a run of digits its decimal value, text with a non-digit after the first character or a first character other than a digit or sign NaN; a negative result comes from a leading '-' |
| JsText.ParseInt | src/redis/redis.module.ts:207 | `parseInt`: NaN exactly when no digit follows the optional sign; a negative result comes from a leading '-' |
| JsText.IntToString | src/canvas/canvas.service.ts:48 | `String()` of an integer: a leading '-' exactly for negatives, then a non-empty run of digits |
| GameState.WithTryIncremented | src/game/game-state.service.ts:46-52 | HINCRBY try_count 1: the user's try_count is one more (a missing field counts from 0); life, own_count and the dead flag are unchanged, and so is every other (canvas, user) record |
| GameState.WithOwnCountAdded | src/game/game-state.service.ts:60-73 | HINCRBY own_count by delta: own_count changes by exactly delta; the user's other fields and every other record are unchanged |
| GameState.WithLifeDecremented | src/game/game-state.service.ts:25-31 | HINCRBY life -1: life is one less, a missing life counting from 0; nothing else changes |
| GameState.WithDead | src/game/game-state.service.ts:34-43 | after HSET dead, the flag reads back as the value set; the counters and every other record are unchanged |
| GameState.GameStateStore.constructor | src/game/game-state.service.ts:8-12 | an empty store: no records, no players, no dead players |
| GameState.GameStateStore.SetUserLife | src/game/game-state.service.ts:15-24 | overwrites life only in this user's record; a following `getUserLife` returns the value set |
| GameState.GameStateStore.DecrUserLife | src/game/game-state.service.ts:25-31 | stores and returns the previous life minus 1 (missing = 0); the records change exactly as WithLifeDecremented says |
| GameState.GameStateStore.SetUserDead | src/game/game-state.service.ts:34-43 | a following `getUserDead` returns the value set; only the dead field of this record changes |
| GameState.GameStateStore.IncrUserTryCount | src/game/game-state.service.ts:46-57 | returns and stores try_count + 1; only that field of that record changes |
| GameState.GameStateStore.IncrUserOwnCount | src/game/game-state.service.ts:60-66 | returns and stores own_count + 1; only that field of that record changes |
| GameState.GameStateStore.DecrUserOwnCount | src/game/game-state.service.ts:67-73 | returns and stores own_count - 1; only that field of that record changes |
| GameState.GameStateStore.SetUserOwnCount | src/game/game-state.service.ts:74-83 | overwrites own_count; a following `getUserOwnCount` returns the value set |
| GameState.GameStateStore.SetUserColor | src/game/game-state.service.ts:86-95 | overwrites the colour; a following `getUserColor` returns it |
| GameState.GameStateStore.AddUserToGame | src/game/game-state.service.ts:98-107 | SADD: the canvas's player set gains the user and nothing else, so adding twice is the same as once |
| GameState.GameStateStore.AddDeadUser | src/game/game-state.service.ts:110-119 | SADD: the canvas's dead set gains the user and nothing else |
| GameState.GameStateStore.GetUserLife | src/game/game-state.service.ts:20-24 | the stored life, or 0 when the record or the field is missing |
| GameState.GameStateStore.GetUserTryCount | src/game/game-state.service.ts:53-57 | the stored try_count, or 0 when the record or the field is missing |
| GameState.GameStateStore.GetUserOwnCount | src/game/game-state.service.ts:74-78 | the stored own_count, or 0 when the record or the field is missing |
| GameState.GameStateStore.GetUserDead | src/game/game-state.service.ts:39-43 | true exactly when the record exists and its dead flag is set |
| GameState.GameStateStore.GetUserColor | src/game/game-state.service.ts:91-95 | the stored colour, or '' when the record or the field is missing |
| GameState.GameStateStore.GetAllUsersInGame | src/game/game-state.service.ts:103-107 | the canvas's player set, empty when the canvas has none |
| GameState.GameStateStore.GetAllDeadUsers | src/game/game-state.service.ts:115-119 | the canvas's dead set, empty when the canvas has none |
| GameLogic.UserIdOf | src/game/game-logic.service.ts:140-150 | `String(user.id ?? user.userId)`: no session gives null; otherwise a non-empty text that reads back as `id` when present, else as `userId` |
| GameLogic.UserNameById | src/game/game-logic.service.ts:153-169 | the first session whose id matches gives its username, or the id when that username is empty; no match gives the id; a non-empty id never yields an empty name |
| GameLogic.AfterAnswer | src/game/game-logic.service.ts:50-78 | every accepted answer adds exactly 1 to try_count; a right one adds 1 to own_count and takes 1 from a different non-empty previous owner; a wrong one takes a life and sets dead iff the life left is 0 or less; no other record changes |
| GameLogic.TotalOwnShift | src/game/game-logic.service.ts:54-57 | changing one player's own_count by delta changes the players' total by delta when that player is listed, else not at all |
| GameLogic.RightAnswerMovesOwnership | src/game/game-logic.service.ts:54-57 | a right answer that takes the pixel from another player keeps the players' total own_count; only an unowned pixel raises it by 1 |
| GameLogic.AfterRightAnswerAsWritten | src/game/game-logic.service.ts:45-57 | as written: `getAllPixels` yields no owner, so a right answer only raises the answering player's own_count |
| GameLogic.AsWrittenInflatesOwnership | src/game/game-logic.service.ts:45-57 | as written, taking another player's pixel leaves that player's own_count untouched and the total rises by 1, where AfterAnswer keeps it |
| GameLogic.CompareByKey | src/game/game-logic.service.ts:114-129 | the ranking comparator keeps `a` first exactly when (class, -own, tries) or (class, -tries, own) of `a` is lexicographically no greater than that of `b` |
| GameLogic.LeTotalPreorder | src/game/game-logic.service.ts:114-129 | on stats with non-negative try counts the comparator is total and transitive, so the sort is well defined |
| GameLogic.Rank | src/game/game-logic.service.ts:112-130 | one ranked entry per player stat |
| GameLogic.RankOrder | src/game/game-logic.service.ts:112-130 | the ranking is a permutation of the stats with ranks 1..n in order; alive players with tries come first; leaders by more pixels then fewer tries; the others by more tries then fewer pixels |
| GameLogic.StatsOf | src/game/game-logic.service.ts:95-110 | one stat per listed player, in order, carrying that player's own_count, try_count and dead flag |
| GameLogic.AnswerRight | src/game/game-logic.service.ts:51-70 | the records change as AfterAnswer(right); the pixel is painted and marked dirty unless its lock is held; one `pixel_update` goes to the canvas room; locks end as they began |
| GameLogic.CountRightAnswer | src/game/game-logic.service.ts:50-57 | the try and the ownership move of a right answer leave the records exactly as AfterAnswer(right) |
| GameLogic.Die | src/game/game-logic.service.ts:74-132 | the pixels `owned` records for the player are freed (as written none, see Findings), the player is marked dead and added to the dead set, `dead_user` with those pixels and their count and `dead_notice` are emitted, and `game_result` with the ranking follows iff every player is now dead |
| GameLogic.AnswerWrong | src/game/game-logic.service.ts:71-136 | the try is counted and a life lost; a survivor changes nothing else and emits nothing; a player left with 0 or less dies as Die states, freeing the pixels `owned` records for them |
| GameLogic.HandleSendResult | src/game/game-logic.service.ts:25-137 | no session: only `auth_error`, nothing changes; a dead player: only `game_error`, nothing changes; otherwise the answer is applied as AnswerRight / AnswerWrong state, with `prevOwner` and `owned` standing for the owners the source never loads (see Findings); locks end as they began |
| GamePixel.GetCanvasSize | src/game/game-pixel.service.ts:16-28 | each dimension is parseInt of the stored text when it is non-empty, else parseInt of '100' |
| GamePixel.CanvasSizeDefaults | src/game/game-pixel.service.ts:16-28 | a missing or empty size key reads 100; a stored decimal n reads n |
| GamePixel.FreedOfExactly | src/game/game-pixel.service.ts:50-60 | the freed list holds exactly the pixels whose owner text equals the user id, each reported '#000000'; it is empty iff no pixel is owned by the user |
| GamePixel.OwnerText | src/game/game-pixel.service.ts:51 | `String(pixel.owner)`: an id renders as its decimal text, null as 'null', a missing owner as 'undefined' |
| GamePixel.OwnersDropped | src/canvas/canvas.service.ts:110-141 | the list `getAllPixels` delivers: the same pixels in the same order, each without an owner field |
| GamePixel.AsWrittenFreesNothing | src/game/game-pixel.service.ts:41-60 | as written, on the owner-less list nothing is freed unless the user id is the text 'undefined', which frees every pixel |
| GamePixel.FreedOfLength | src/game/game-pixel.service.ts:50-60 | when every pixel passes the owner test, every pixel is freed |
| GamePixel.BlackenedFields | src/game/game-pixel.service.ts:52-57 | each freed pixel's field becomes '#000000|'; every other field keeps its value |
| GamePixel.FreeAllPixelsOfUser | src/game/game-pixel.service.ts:30-69 | returns the freed pixels of the loaded list with its recorded owners (a failed load is empty); the hash is written only when something was freed, and then exactly as BlackenedFields says |
| GamePixel.CollectFreed | src/game/game-pixel.service.ts:47-61 | the loop's freed list and staged hash writes equal FreedOf and Blackened of the input |
| GameFlush.WriteOf | src/game/game-flush.service.ts:46-56 | the value splits at '\|' into colour and owner, and an empty owner is written as null |
| GameFlush.WriteDecodesField | src/game/game-flush.service.ts:47 | the dirty field `x:y` decodes to the write's numeric x and y |
| GameFlush.PixelWritesOf | src/game/game-flush.service.ts:40-58 | at most one database write per dirty field |
| GameFlush.PixelWritesExactly | src/game/game-flush.service.ts:40-58 | one write per dirty field whose hash value is a non-empty string, and only those; none at all iff no field has a value |
| GameFlush.FreedPixelWritesBlack | src/game/game-flush.service.ts:52-55 | a freed pixel's '#000000\|' is written as black with a null owner |
| GameFlush.OwnedPixelWrites | src/game/game-flush.service.ts:52-55 | `color\|owner` is written as that colour and that owner |
| GameFlush.UserWriteOf | src/game/game-flush.service.ts:108-128 | missing own and try counts are written as 0 and a missing life as 2; stored values are written as they are |
| GameFlush.UserWritesOf | src/game/game-flush.service.ts:77-129 | at most one user-canvas write per dirty id |
| GameFlush.UserWritesExactly | src/game/game-flush.service.ts:77-129 | exactly the dirty ids that are valid (not '', '0' or non-numeric) and name an existing user are written, each once |
| GameFlush.ForceWindow | src/game/game-flush.service.ts:152-159 | after `now` is recorded, the next forced flush is due exactly when more than 30000 ms have passed |
| GameFlush.FlushStore.constructor | src/game/game-flush.service.ts:10-14 | no dirty users, no force timestamps, no writes |
| GameFlush.FlushStore.AddDirtyPixel | src/game/game-flush.service.ts:17-19 | the cell (x, y) joins that canvas's dirty-pixel set; nothing else changes |
| GameFlush.FlushStore.AddDirtyUser | src/game/game-flush.service.ts:22-25 | the user joins that canvas's dirty-user set |
| GameFlush.FlushStore.FlushDirtyPixels | src/game/game-flush.service.ts:28-60 | every dirty field is visited once, the writes are PixelWritesOf them, and the dirty set is deleted; an empty set writes nothing |
| GameFlush.FlushStore.FlushDirtyUsers | src/game/game-flush.service.ts:63-131 | every dirty user is visited once, the writes are UserWritesOf them, and the set is deleted; an empty set writes nothing |
| GameFlush.SetDeletedIfNonEmpty | src/game/game-flush.service.ts:36-59 | after the flush's DEL, this canvas's set is absent or empty and every other canvas's set is unchanged |
| GameFlush.FlushStore.TickPixels | src/game/game-flush.service.ts:136-141 | the dirty pixels are flushed iff there are at least 10 or a forced flush is due: every one enumerated and written, this canvas's set deleted and every other canvas's set unchanged; otherwise nothing changes |
| GameFlush.FlushStore.TickUsers | src/game/game-flush.service.ts:137-144 | the dirty users are flushed iff there are at least 10 or a forced flush is due: every one enumerated, the valid known ones written, this canvas's set deleted and every other canvas's set unchanged; otherwise nothing changes |
| GameFlush.FlushStore.Tick | src/game/game-flush.service.ts:134-162 | one tick: each set flushes at 10 entries or when forced, deleting only this canvas's set and leaving other canvases' sets unchanged; an unflushed set and its writes stay as they were; a forced flush (no record, or more than 30000 ms since it) records `now` |
| CanvasService.ViewOfDecodes | src/canvas/canvas.service.ts:76-79 | the view built from a cell is exactly what splitting the stored field `x:y` at ':' and converting both parts with Number gives back |
| CanvasService.DbViews | src/canvas/canvas.service.ts:86-96 | the DB rows are returned one view per row, in the table's order |
| CanvasService.CachedKeys | src/canvas/canvas.service.ts:132-139 | after the fallback pipeline the hash holds exactly its earlier fields plus one field per DB row |
| CanvasService.CachedLastWins | src/canvas/canvas.service.ts:133-138 | a DB row's field ends with that row's colour when no later row writes the same cell |
| CanvasService.CachedUntouched | src/canvas/canvas.service.ts:133-138 | a hash field that no DB row names keeps its colour |
| CanvasService.RealCanvasId | src/canvas/canvas.service.ts:113-123 | a given non-empty id is used as it is; otherwise the newest canvas's id; no id and no canvas gives none |
| CanvasService.CanvasList | src/canvas/canvas.service.ts:168-179 | exactly the canvases whose active flag equals (status == 'active'), none other |
| CanvasService.GetCanvasById | src/canvas/canvas.service.ts:289-309 | a result exists iff an id is found and Number() of it is not NaN; it carries that id, and the stored metadata of that canvas exactly when there is one |
| CanvasService.CanvasStore.constructor | src/canvas/canvas.service.ts:21-32 | an empty Redis (no hashes, dirty sets, locks or cooldowns) over the given pixels table and newest canvas |
| CanvasService.CanvasStore.TryDrawPixel | src/canvas/canvas.service.ts:35-65 | returns true; field (x, y) of that canvas's hash now holds the colour and the cell is in its dirty set; no other canvas changes |
| CanvasService.CanvasStore.GetPixelsFromRedis | src/canvas/canvas.service.ts:68-83 | one decoded view per hash field with its colour, no field twice, every field listed; empty iff the hash is empty |
| CanvasService.CanvasStore.GetAllPixels | src/canvas/canvas.service.ts:110-141 | no id and no canvas: [] and nothing written; a non-empty hash is returned as GetPixelsFromRedis lists it; else the DB rows are returned and written into the hash as Cached says |
| CanvasService.CanvasStore.GetPixel | src/canvas/canvas.service.ts:144-166 | the stored colour when the field exists with a non-empty value, null otherwise |
| CanvasService.CanvasStore.ReleaseRedisLock | src/canvas/canvas.service.ts:273-286 | the lock is deleted (result 1) iff it is held by exactly this user; otherwise nothing changes and the result is 0 |
| CanvasService.CanvasStore.ApplyDrawPixel | src/canvas/canvas.service.ts:235-271 | true iff the cell's lock was free, and then the pixel is drawn as TryDrawPixel says; false writes nothing; either way the lock table ends as it began, so its own lock is gone |
| CanvasService.CanvasStore.ApplyDrawPixelWithCooldown | src/canvas/canvas.service.ts:312-349 | a live cooldown refuses the draw, returns its remaining seconds and changes nothing; a held lock fails and sets no cooldown; a draw paints the cell, marks it dirty and sets a 20 s cooldown |
| CanvasService.CanvasStore.GetCooldownRemaining | src/canvas/canvas.service.ts:353-363 | the remaining TTL when positive, else 0, so never negative |
| CanvasService.FallbackFillsCache | src/canvas/canvas.service.ts:130-140 | a non-empty DB result leaves a non-empty hash, so the next read is served from Redis |
| Broadcast.Flushes | src/canvas/broadcast.service.ts:171-175 | at most one batch per visited canvas |
| Broadcast.FlushesExactly | src/canvas/broadcast.service.ts:161-175 | flushing all queues sends one batch per non-empty queue, holding that queue's pixels to that canvas's room, and no other batch |
| Broadcast.FlushQueues | src/canvas/broadcast.service.ts:171-175 | the loop emits Flushes of the queues and leaves every visited queue empty and every other queue as it was |
| Broadcast.BroadcastBuffer.constructor | src/canvas/broadcast.service.ts:95-112 | no queues, no timer, nothing emitted; whether a server was obtained is given |
| Broadcast.BroadcastBuffer.FlushBatch | src/canvas/broadcast.service.ts:155-169 | with a server and a non-empty queue: one batch with the queue's pixels in insertion order to `canvas_{id}`, and the queue is emptied; otherwise nothing changes |
| Broadcast.BroadcastBuffer.ScheduleBatchFlush | src/canvas/broadcast.service.ts:146-153 | afterwards a timer is pending; a pending timer is not duplicated |
| Broadcast.BroadcastBuffer.FlushAllBatches | src/canvas/broadcast.service.ts:171-175 | every canvas's queue is flushed in insertion order and all queues end empty |
| Broadcast.BroadcastBuffer.TimerFires | src/canvas/broadcast.service.ts:149-152 | the timer callback flushes all queues and clears the pending timer; without a server the queues and the emitted frames are unchanged |
| Broadcast.BroadcastBuffer.AddPixelToBatch | src/canvas/broadcast.service.ts:115-144 | no server: nothing; immediate: a one-pixel batch, queues untouched; otherwise appended to its own canvas's queue, which is flushed at 50, else a flush is scheduled; queues below 50 stay below 50 |
| PixelUpdateWorker.KeyTextInjective | src/queues/pixelUpdate.worker.ts:27 | two updates share the key text `canvasId:x:y` iff they are for the same canvas and cell, so the map holds at most one update per pixel |
| PixelUpdateWorker.Snapshot | src/queues/pixelUpdate.worker.ts:52 | the snapshot lists the pending updates in key insertion order, one per key |
| PixelUpdateWorker.CanvasIdsExactly | src/queues/pixelUpdate.worker.ts:56-63 | the groups' canvas ids are distinct and are exactly the canvas ids occurring in the snapshot |
| PixelUpdateWorker.GroupOfExactly | src/queues/pixelUpdate.worker.ts:56-63 | a canvas's group holds exactly the snapshot's updates for that canvas, none more often than in the snapshot |
| PixelUpdateWorker.GroupedSnoc | src/queues/pixelUpdate.worker.ts:57-63 | pushing one more update adds it to exactly one group when its canvas is listed, and to none otherwise |
| PixelUpdateWorker.GroupedPermutes | src/queues/pixelUpdate.worker.ts:56-63 | the groups together are a permutation of the snapshot: each update lands in exactly one group |
| PixelUpdateWorker.GroupEmpty | src/queues/pixelUpdate.worker.ts:56-63 | a canvas with no update in the snapshot gets an empty group |
| PixelUpdateWorker.ParamsOf | src/queues/pixelUpdate.worker.ts:83-90 | two coordinate parameters per pixel of the chunk |
| PixelUpdateWorker.ConditionsOf | src/queues/pixelUpdate.worker.ts:83-90 | one coordinate condition per pixel |
| PixelUpdateWorker.ConditionsLocate | src/queues/pixelUpdate.worker.ts:83-90 | the i-th pixel's condition names parameters 2i+1 and 2i+2, which hold that pixel's x and y |
| PixelUpdateWorker.PixelsOfAppend | src/queues/pixelUpdate.worker.ts:68-71 | the pixels written by two runs of chunk updates are those of the first run followed by those of the second |
| PixelUpdateWorker.ChunksCover | src/queues/pixelUpdate.worker.ts:70-71 | a group's chunks are non-empty, hold at most 100 pixels each, belong to that canvas, and concatenate back to the group |
| PixelUpdateWorker.FlushUpdatesPixels | src/queues/pixelUpdate.worker.ts:68-71 | the updates of all groups write exactly the grouped pixels, each chunk of 1..100 pixels of its own canvas |
| PixelUpdateWorker.PixelsInChunk | src/queues/pixelUpdate.worker.ts:70-71 | every pixel of a chunk is among the pixels written |
| PixelUpdateWorker.FlushWritesEachOnce | src/queues/pixelUpdate.worker.ts:52-90 | a flush writes every snapshot update exactly once (a permutation) in chunks of 1..100 pixels of one canvas each |
| PixelUpdateWorker.CoordConditions | src/queues/pixelUpdate.worker.ts:79-90 | the map's loop builds ParamsOf and ConditionsOf the chunk |
| PixelUpdateWorker.WriteChunk | src/queues/pixelUpdate.worker.ts:71-90 | one chunk's update carries the chunk with its parameters and coordinate conditions, as UpdateOf says |
| PixelUpdateWorker.GroupByCanvas | src/queues/pixelUpdate.worker.ts:56-63 | the grouping loop yields one group per canvas id, in first-seen order, each equal to GroupOf |
| PixelUpdateWorker.WriteGroup | src/queues/pixelUpdate.worker.ts:70-71 | the `i += 100` loop yields ChunkUpdates of the group |
| PixelUpdateWorker.WriteSnapshot | src/queues/pixelUpdate.worker.ts:56-71 | the grouping and chunking loops together yield FlushOf the snapshot |
| PixelUpdateWorker.PixelUpdateBuffer.constructor | src/queues/pixelUpdate.worker.ts:18 | the pending map starts empty and nothing is written |
| PixelUpdateWorker.PixelUpdateBuffer.FlushPixelToDb | src/queues/pixelUpdate.worker.ts:48-53 | an empty map writes nothing; otherwise the snapshot is written as FlushOf says; either way the map ends empty |
| PixelUpdateWorker.PixelUpdateBuffer.SetPending | src/queues/pixelUpdate.worker.ts:27-28 | the update replaces any earlier update of the same pixel, keeping that key's place; a new pixel is appended |
| PixelUpdateWorker.PixelUpdateBuffer.HandleJob | src/queues/pixelUpdate.worker.ts:23-34 | the update is stored; reaching 200 pending updates flushes them all, so fewer than 200 are pending afterwards |
| PixelGenerationWorker.ColumnShape | src/queues/bullmq.worker.ts:32-40 | the inner loop makes one pixel per y in 0..size_y-1, in order, each at (x, y) |
| PixelGenerationWorker.GridShape | src/queues/bullmq.worker.ts:31-41 | the first n rows hold n * size_y pixels, and pixel (x, y) sits at index x * size_y + y |
| PixelGenerationWorker.GridMembers | src/queues/bullmq.worker.ts:31-41 | every generated pixel lies on the canvas and carries the job's canvas id and timestamps, and no pixel repeats |
| PixelGenerationWorker.GenerationCoversGrid | src/queues/bullmq.worker.ts:27-41 | the job generates exactly size_x * size_y pixels (none for a non-positive size), each cell once, in row-major order |
| PixelGenerationWorker.GeneratePixels | src/queues/bullmq.worker.ts:29-41 | the nested loops build PixelsOf the job |
| PixelGenerationWorker.ChunksCover | src/queues/bullmq.worker.ts:44-47 | the 5000-pixel slices are non-empty, hold at most 5000 pixels each, and concatenate back to the pixel list |
| PixelGenerationWorker.InsertChunks | src/queues/bullmq.worker.ts:46-54 | the `i += 5000` loop inserts ChunksOf the pixels, in order |
| PixelGenerationWorker.RunGenerationJob | src/queues/bullmq.worker.ts:25-54 | a job inserts its grid, chunk by chunk |
| PixelGenerationWorker.EmptyCanvasInsertsNothing | src/queues/bullmq.worker.ts:31-46 | a canvas with a non-positive size inserts nothing |
| HistoryWorker.ColorOfValue | src/queues/history.worker.ts:31-41 | a value without '\|' is the colour as it is; a value with '\|' keeps at most its first character (undefined when the colour part is empty) |
| HistoryWorker.GameValueKeepsFirstCharacter | src/queues/history.worker.ts:34-37 | as written, a `color\|owner` value yields only the colour's first character, so a colour of two or more characters never survives |
| HistoryWorker.HashPixelDecodes | src/queues/history.worker.ts:29-31 | a hash pixel's coordinates are what splitting the field `x:y` and Number() give |
| HistoryWorker.RowPixels | src/queues/history.worker.ts:44-48 | the DB fallback yields one pixel per row, in order, with its colour |
| HistoryWorker.HashPixels | src/queues/history.worker.ts:29-43 | one decoded pixel per listed hash field, in that order |
| HistoryWorker.PixelsFromHash | src/queues/history.worker.ts:28-43 | the loop visits every hash field exactly once and pushes HashPixels of them |
| HistoryWorker.UploadKeyParts | src/queues/history.worker.ts:53 | the image key is `history/{canvas_id}/{uuid}.png`: it splits at '/' into the folder, the canvas id and the file name |
| HistoryWorker.RunHistoryJob | src/queues/history.worker.ts:16-79 | fails with 'CanvasHistory not found' iff no history row exists; otherwise records the upload key; pixels come from Redis when the hash is non-empty, else from the DB; statistics are built iff the type is not 'public' |
| GroupService.StatusOf | src/group/group.service.ts:162-169 | each admission error maps to its HTTP status: 403 exactly for the three-group limit, 404 for missing rows, 409 for conflicts; a failed query is no HttpException and becomes 500 exactly |
| GroupService.Lrange | src/group/group.service.ts:55-59 | Redis LRANGE `0 stop` returns the first stop + 1 entries (all when the list is shorter), `0 -1` the whole list, and never more entries than the list holds |
| GroupService.Slice | src/group/group.service.ts:124-129 | `slice(0, take)` never returns more than its input |
| GroupService.CachedChats | src/group/group.service.ts:63-76 | the cache path keeps at most one chat per cached entry |
| GroupService.CachedChatsExactly | src/group/group.service.ts:63-76 | a chat is returned iff it comes from a cached entry with a non-zero id, a user and a non-empty message |
| GroupService.CacheReadBounds | src/group/group.service.ts:55-78 | for take >= 1 the read covers the first min(take, 50) entries of the list, and at most `take` valid chats from among them are returned |
| GroupService.ZeroTakeReadsAll | src/group/group.service.ts:55-78 | as written, take = 0 asks LRANGE for 0..-1, the whole list, yet `slice(0, 0)` returns nothing |
| GroupService.Pushed | src/group/group.service.ts:111-114 | LPUSH adds every payload to the list |
| GroupService.Payloads | src/group/group.service.ts:100-105 | one cache payload per DB row, in order |
| GroupService.PushedReverses | src/group/group.service.ts:111-114 | LPUSH of several payloads leaves them reversed at the head, with the old list behind them |
| GroupService.RefillReversed | src/group/group.service.ts:108-116 | refilling the cache from at most 50 newest-first rows stores them all, oldest at the head |
| GroupService.DbChats | src/group/group.service.ts:124-129 | one chat per DB row, in order |
| GroupService.FromDbOrdered | src/group/group.service.ts:124-129 | the DB path returns the rows sorted by ascending creation time, a permutation of the fetched rows |
| GroupService.GroupStore.constructor | src/group/group.service.ts:29-43 | the store holds the given tables and chat lists |
| GroupService.GroupStore.GetRecentChatsByGroupId | src/group/group.service.ts:50-137 | a non-empty cache window is served from the cache and nothing changes; else no DB rows gives []; else the rows are returned oldest first and the list is replaced by them, oldest at the head, capped at 50 |
| GroupService.GroupStore.CreateGroup | src/group/group.service.ts:139-203 | the three-group limit is checked first, then the creator's existence, then name uniqueness; an error changes nothing; success adds the group with one participant and its creator as member |
| GroupService.GroupStore.JoinGroup | src/group/group.service.ts:205-248 | in this order: the three-group limit (403), missing user or group (404), already a member (409), group full (409); an error changes nothing; success adds the membership with the group's canvas and raises the participant count by 1 |
| GroupService.GroupStore.QuitOrDeleteGroup | src/group/group.service.ts:250-286 | a non-numeric group id fails the bigint query and nothing changes; a missing group or user is 404; the creator deletes the group and its chat list; a member leaves and the count drops by 1; a non-member gets 409 and nothing changes |
| GroupService.GroupStore.UpdateGroupOverlayToDB | src/group/group.service.ts:494-501 | the url is replaced, and each of x, y, width and height takes the new value unless it is missing or 0, in which case the stored value is kept |
| GroupService.GroupStore.CleanupInactiveGroupChats | src/group/group.service.ts:395-426 | only chat lists whose numeric id names no group are deleted, and the other lists are untouched; when every key's id is numeric, exactly the orphans are deleted |
| GroupGateway.Client.constructor | src/group/group.gateway.ts:88-91 | a socket with its id and rooms, and nothing emitted yet |
| GroupGateway.ClientUserId | src/group/group.gateway.ts:60-73 | no session gives null; a truthy userId wins; otherwise id is used; NaN exactly when neither is usable |
| GroupGateway.HandleJoinChat | src/group/group.gateway.ts:87-129 | an unusable id gets `auth_error`; a non-numeric group id fails the membership query, so nothing is emitted; a non-member gets `chat_error`; none of these changes rooms; a member already in the room changes nothing; otherwise every other `group_` room is left, the socket's own and canvas rooms stay, and the target is joined |
| GroupGateway.LeaveOtherGroupRooms | src/group/group.gateway.ts:116-126 | the loop leaves exactly the rooms other than the socket's own and the target whose name starts with `group_` |
| GroupGateway.HandleLeaveChat | src/group/group.gateway.ts:160-167 | exactly the room `group_{id}` is left, whatever the session |
| GroupGateway.PushCappedKeepsNewest | src/group/group.gateway.ts:204-208 | LPUSH then LTRIM 0 49 puts the new entry at the head, keeps the newest 49 older ones, and never holds more than 50 |
| GroupGateway.ChatHub.constructor | src/group/group.gateway.ts:40-48 | the hub starts with the given chat lists and nothing published or broadcast |
| GroupGateway.ChatHub.HandleSendChat | src/group/group.gateway.ts:170-233 | an unusable id gets `auth_error` and a non-member `chat_error`, with no write; a member's message is pushed onto the capped list `chat:{id}`, published once, and broadcast to `group_{id}` |
| AppGateway.ExtractToken | src/app.gateway.ts:169-174 | a truthy `handshake.auth.token` wins; otherwise the second space-separated word of the Authorization header; a missing or empty result means no token |
| AppGateway.BearerHeaderToken | src/app.gateway.ts:171-173 | a header `Bearer <token>` yields exactly `<token>` when no auth token is given |
| AppGateway.HeaderWithoutSpace | src/app.gateway.ts:171-174 | a header without a space yields no token, so the socket connects without a session |
| AppGateway.SAdd | src/app.gateway.ts:199 | SADD: the key's set gains the member; every other set is unchanged |
| AppGateway.SRem | src/app.gateway.ts:224-230 | SREM: the member leaves the key's set, and a set left empty is deleted with its key; every other set is unchanged |
| AppGateway.SetCommandsKeepSetsNonEmpty | src/app.gateway.ts:224-230 | SADD and SREM-with-delete never leave an empty set stored |
| AppGateway.SRemUndoesSAdd | src/app.gateway.ts:224-230 | removing a socket just added (and not there before) restores the user's socket sets exactly |
| AppGateway.MatchCanvasKey | src/app.gateway.ts:302 | a match of `^canvas:(\d+):sockets$` is always one of the keys `canvas:*:sockets` lists |
| AppGateway.CanvasKeyMatch | src/app.gateway.ts:302-304 | a key matches with capture d iff it is `canvas:{d}:sockets` with d a non-empty run of digits |
| AppGateway.SessionUserId | src/app.gateway.ts:186 | `user.userId \|\| user.id`: a non-zero userId wins, else id |
| AppGateway.CanvasUserCounts | src/app.gateway.ts:294-315 | one count per key matching the expression, keyed by its digits and equal to that set's size, and no other entry |
| AppGateway.Detached | src/app.gateway.ts:155-166 | the socket leaves every `canvas:*:sockets` set, an emptied set disappears, and other keys are untouched |
| AppGateway.RemoveFromSets | src/app.gateway.ts:158-161 | the loop over the listed keys yields Detached |
| AppGateway.Gateway.constructor | src/app.gateway.ts:30-38 | no sessions or sockets, last broadcast count and time 0, nothing broadcast |
| AppGateway.Gateway.CleanupOldSockets | src/app.gateway.ts:104-119 | `active_sockets` ends empty and every `canvas:*:sockets` key is deleted; other keys stay |
| AppGateway.Gateway.SaveUserSession | src/app.gateway.ts:184-208 | the socket's session stores the user id and nickname, and the socket joins that user's socket set |
| AppGateway.Gateway.RemoveUserSession | src/app.gateway.ts:211-239 | without a session nothing changes; otherwise the session is deleted and the socket leaves its user's set, which is deleted once empty |
| AppGateway.Gateway.HandleConnection | src/app.gateway.ts:121-137 | every socket joins `active_sockets`; a session is saved iff a token was found and verified |
| AppGateway.Gateway.HandleDisconnect | src/app.gateway.ts:139-152 | the session is removed as RemoveUserSession says, the socket leaves `active_sockets` and every canvas socket set |
| AppGateway.Gateway.BroadcastActiveUserCount | src/app.gateway.ts:255-291 | an unchanged count within 5000 ms of the last broadcast sends nothing; otherwise one `active_user_count` with the count, `now` and the per-canvas counts is sent, and the count and time are recorded |
| AppGateway.ThrottleAfterBroadcast | src/app.gateway.ts:262-268 | with the count unchanged, a broadcast happens iff at least 5000 ms have passed |
| AppGateway.ChangedCountBroadcasts | src/app.gateway.ts:262-268 | a changed count is always broadcast, however recent the last one |
| AlarmGenerator.Schedule | src/util/alarmGenerator.util.ts:4-126 | a job is enqueued iff its delay lies in (0, 86400000] ms, and the game-end helper only for 'game_calculation' canvases; the job carries its queue, name, id `{prefix}-{canvas id}`, that delay and its payload |
| AlarmGenerator.DelaysFromTimes | src/util/alarmGenerator.util.ts:4-126 | the five delays are end - now, end - now - 3000, start - now - 30000, start - now - 3000 and end - now |
| AlarmGenerator.NullEndSchedulesNothing | src/util/alarmGenerator.util.ts:4-126 | a canvas without an end time (read as the epoch) schedules neither the history job nor either end alarm |
| AlarmGenerator.GameEndFollowsHistory | src/util/alarmGenerator.util.ts:108-126 | for a 'game_calculation' canvas the game-end alarm is enqueued exactly when the history job is, with the same delay |
| AlarmGenerator.StartAlarmsOrdered | src/util/alarmGenerator.util.ts:51-106 | when both start alarms are enqueued, the 30-second alarm fires 27000 ms before the 3-second one |
| AlarmGenerator.WindowBounds | src/util/alarmGenerator.util.ts:10-13 | an end exactly one day away is scheduled; a delay one ms over a day, or of zero, is not |
| AlarmGenerator.PrefixesDiffer | src/util/alarmGenerator.util.ts:4-126 | any two job-id prefixes differ at some position before either one's '-' separator ends |
| AlarmGenerator.JobIdsUnique | src/util/alarmGenerator.util.ts:4-126 | two job ids are equal iff they are for the same kind and the same canvas, so no job replaces another's slot |
| CanvasController.WindowAt | src/canvas/canvas.controller.ts:97-117 | not started iff a start time lies after now; ended iff started (or no start) and an end time at or before now; open otherwise |
| CanvasController.GetAllPixels | src/canvas/canvas.controller.ts:85-148 | 404 iff no canvas or no metadata is found; 403 not-started or ended exactly per WindowAt; otherwise the service's pixels with their count, 'gzip', the size (missing as 0) and the canvas times |
| CanvasController.PixelsServedOnlyWhileActive | src/canvas/canvas.controller.ts:97-120 | pixels are only ever served for a canvas that has started and not yet ended |
| CanvasController.GetCanvas | src/canvas/canvas.controller.ts:160-217 | an unknown id falls back to the newest canvas; no canvas at all is 'no canvas'; a found id without metadata is the internal-error reply; the not-started, ended and data replies follow WindowAt |
| CanvasController.SameWindowBothEndpoints | src/canvas/canvas.controller.ts:97-195 | for a found canvas both endpoints take the same not-started, ended or open decision |
| GroupController.IdsOnCanvas | src/group/group.controller.ts:60-62 | exactly the ids of the groups whose canvas id equals the requested one, none added |
| GroupController.GetGroupIdByCanvas | src/group/group.controller.ts:57-68 | a missing or non-numeric canvas_id makes the query fail, an uncaught 500; otherwise 404 iff no group lies on the canvas, else the ids of exactly those groups |
| GroupController.GroupOnCanvasIsFound | src/group/group.controller.ts:57-68 | a group on a canvas is among the ids returned for that canvas's rendered id |
| GroupController.MessagesOut | src/group/group.controller.ts:162-167 | one reply entry per message, in order, with the user id rendered by String() and the other fields copied |
| GroupController.MessageUserIdsRoundTrip | src/group/group.controller.ts:164 | Number() of a reply's user id gives back the message's numeric user id |
| GroupController.Caught | src/group/group.controller.ts:170-176 | an HttpException keeps its status; anything else, including a failed query, becomes 500 |
| GroupController.ChatInitChecks | src/group/group.controller.ts:97-124 | in this order: a missing canvas_id is 400 'canvas_id required', a NaN one 400 'Invalid canvas_id', an unauthenticated or unknown user 401; passing all gives Number(canvas_id) |
| GroupController.ChatInit | src/group/group.controller.ts:95-177 | a failed check is returned as is; no default group is 404; a non-member is joined to the default group first, and a failing join surfaces as Caught; success returns the default group id as text, the user's groups and the messages |
| GroupController.DefaultGroupIdRoundTrip | src/group/group.controller.ts:157 | Number() of the reply's defaultGroupId gives back the default group's id |
| GroupController.DefaultJoinSkipsGroupLimit | src/group/group.controller.ts:145 | the join without a canvas id counts no memberships, so the three-group limit never refuses it |
| GroupController.LimitRules | src/group/group.controller.ts:238-244 | an absent or empty limit is 50; a rendered integer k is accepted iff k > 0, and then taken as k |
| GroupController.ChatHistoryChecks | src/group/group.controller.ts:224-268 | in this order: unauthenticated 401; missing or NaN group_id 400; invalid limit 400; unknown user 401; unknown group 404; non-member 403; passing all gives the group id and the limit |
| GroupController.GetChatHistory | src/group/group.controller.ts:219-280 | a failed check is returned as is; otherwise the messages, shaped as MessagesOut |
| GroupController.MemberReadsFifty | src/group/group.controller.ts:231-259 | a member asking without a limit passes every check and reads 50 messages |
| GroupController.ServiceStatus | src/group/group.controller.ts:358-376 | `POST /group/join` answers 200 on success and 404 on any error |
| GroupController.GroupLimitSurfacesAs404 | src/group/group.controller.ts:367-375 | the service's 403 for the three-group limit reaches the client as 404 |
| StrategyFactory.GetStrategy | src/canvas/strategy/createFactory.factory.ts:16-27 | 'game' selects the game strategy and 'public' the public one; every other type, 'event' included, the event strategy |
| StrategyFactory.StoredTypesDispatch | src/canvas/strategy/createFactory.factory.ts:16-27 | 'public' selects the public strategy, while 'event_common', 'event_colorlimit' and 'game_calculation' all fall to the event strategy |
| RedisMonitor.RetryDelay | src/redis/redis.module.ts:52-56 | the reconnect delay is 100 ms per attempt up to attempt 30, and 3000 ms from then on; it never exceeds 3000 |
| RedisMonitor.RetryDelayMonotone | src/redis/redis.module.ts:53 | a later attempt never waits less than an earlier one |
| RedisMonitor.ParseInfoLines | src/redis/redis.module.ts:199-217 | the loop over INFO lines leaves the five counters as Scan says |
| RedisMonitor.AbsentUsedMemoryIsZero | src/redis/redis.module.ts:199-207 | with no `used_memory:` line the used memory stays 0 |
| RedisMonitor.AbsentMaxMemoryIsZero | src/redis/redis.module.ts:200-209 | with no `maxmemory:` line the limit stays 0 |
| RedisMonitor.LastUsedMemoryLineWins | src/redis/redis.module.ts:205-207 | the last `used_memory:` line decides the value; earlier ones are overwritten |
| RedisMonitor.StepUsedMemory | src/redis/redis.module.ts:206-216 | one line changes the used memory iff it starts with `used_memory:`, and then to its parsed value |
| RedisMonitor.MetricLineValue | src/redis/redis.module.ts:207 | a line `name:n` (name without ':') parses to exactly n |
| RedisMonitor.RoundPercentNearest | src/redis/redis.module.ts:219-224 | the rounded percentage is the integer nearest to 100a/b, halves rounding up as Math.round does |
| RedisMonitor.RoundPercentBounds | src/redis/redis.module.ts:221-224 | a share of a whole rounds to a percentage between 0 and 100 |
| RedisMonitor.MemoryUsage | src/redis/redis.module.ts:219-220 | 0 when no positive limit was read; otherwise the rounded percentage used/max (NaN when the used memory is NaN) |
| RedisMonitor.HitRate | src/redis/redis.module.ts:221-224 | 0 when there were no lookups or either counter is NaN (`NaN > 0` is false); else the rounded hits / (hits + misses) percentage, between 0 and 100 |
| RedisMonitor.FormatBytes | src/redis/redis.module.ts:242-243 | the text is '0 B' exactly for zero bytes |
| RedisMonitor.MonitorRedisStatus | src/redis/redis.module.ts:174-233 | the reported info is InfoOf the counters the INFO lines leave (an unreadable hit or miss counter reporting '0%'), and a warning is logged iff the memory usage is a number above 80 |
| RedisMonitor.UnreadableCounterReportsZero | src/redis/redis.module.ts:213-224 | a hit or miss line whose value parseInt cannot read gives a hit rate of '0%' |
| RedisMonitor.NoLimitNeverWarns | src/redis/redis.module.ts:182-220 | a server without a `maxmemory:` line reports 0 % and never warns |
| RedisMonitor.WarningThreshold | src/redis/redis.module.ts:182-220 | with a positive limit the warning fires iff the rounded percentage is above 80 |
| LoadTest.Records | artillery_battle.py:7-18 | one record per CSV row, in order, keeping x, y and colour, with user id start + i for row i |
| LoadTest.CsvToJson | artillery_battle.py:7-18 | the appending `enumerate` loop builds Records of the rows |
| LoadTest.UserIds | artillery_battle.py:16 | the set of user ids holds exactly the ids the records carry |
| LoadTest.RecordIds | artillery_battle.py:11-16 | the records' user ids are exactly start .. start + n - 1 |
| LoadTest.ConsecutiveTeams | artillery_simple.py:22-24 | team 2 numbered from len(team1) + 1 makes the merged list's ids 1..n by position, so no two records share an id |
| LoadTest.Mirror | artillery_battle.py:28-35 | the mirrored pixel's coordinates sum with the original's to 63; colour and user id are kept |
| LoadTest.MirrorAll | artillery_battle.py:25-35 | one mirrored pixel per input pixel, in order |
| LoadTest.MirrorInvolution | artillery_battle.py:28-29 | mirroring twice gives back the original pixels |
| LoadTest.MirrorStaysOnBoard | artillery_battle.py:28-29 | a pixel on the 64 x 64 board stays on it when mirrored |
| LoadTest.Column | artillery.py:24 | the pixels of one x value, in their order |
| LoadTest.InsertColumn | artillery.py:24 | inserting one pixel into a sorted list puts it ahead of the pixels with its own x that were already there and leaves other x values' order alone |
| LoadTest.SortedByXStable | artillery.py:24 | the sort is stable: pixels with the same x keep their CSV order |
| LoadTest.SortedByXOrdered | artillery.py:24 | the sorted list is ordered by x and is a permutation of the input |
| LoadTest.SortInPlace | artillery.py:24 | `pixels.sort(key=x)` rearranges the caller's list into SortedByX of its old contents |
| LoadTest.HexDigit | artillery_battle.py:40 | a hex digit of a `\u` escape is printable ASCII |
| LoadTest.Hex4 | artillery_battle.py:40 | the four hex digits of a `\u` escape are printable ASCII |
| LoadTest.EscapeChar | artillery_battle.py:40 | json.dump's ASCII escaping turns every character into printable ASCII, and leaves a printable character other than '"' and '\\' as it is |
| LoadTest.EscapeAll | artillery_battle.py:40 | an escaped string is printable ASCII and no shorter than the original |
| LoadTest.JsonString | artillery_battle.py:40 | a JSON string literal is printable ASCII |
| LoadTest.IntToStringPrintable | artillery_battle.py:40 | a rendered integer is printable ASCII |
| LoadTest.JsonLinePrintable | artillery_battle.py:40-41 | a record's JSON text is printable ASCII and so holds no newline |
| LoadTest.Lines | artillery_battle.py:39-41 | one JSON line per record, in order |
| LoadTest.PayloadAppend | artillery_battle.py:39-41 | writing one more record appends exactly its line and a newline |
| LoadTest.PayloadPrefix | artillery_battle.py:39-41 | after i + 1 records the file holds the text after i records plus record i's line |
| LoadTest.WritePayload | artillery_battle.py:38-41 | the write loop produces the payload of the records |
| LoadTest.PayloadIsJoin | artillery_battle.py:39-41 | the payload is the records' JSON lines joined by newlines, with a final newline |
| LoadTest.PayloadLines | artillery_battle.py:39-41 | splitting the payload at newlines gives back exactly one JSON line per record (and the empty tail), so the loader reads every record once |
| LoadTest.TemplateBindsFields | artillery_battle.py:72-85 | the emit data holds the canvas id and exactly the payload fields, each bound to its own `{{ field }}` placeholder |
| ArtilleryBattle.MirrorTeam | artillery_battle.py:25-35 | the mirror loop builds MirrorAll of team 2's raw records |
| ArtilleryBattle.Generate | artillery_battle.py:20-111 | team 1 is numbered from 1, team 2 from 10000 and mirrored; each payload holds its own team; one phase of len(team1) + len(team2) arrivals over 80 s with both weighted scenarios |
| ArtilleryBattle.Team2Pixels | artillery_battle.py:24-35 | team 2's i-th pixel is the i-th krafton row mirrored through (63, 63), with user id 10000 + i |
| ArtilleryBattle.MirrorKeepsIds | artillery_battle.py:34 | mirroring keeps the set of user ids |
| ArtilleryBattle.TeamIdsDisjoint | artillery_battle.py:21-24 | the teams' user ids are disjoint iff team 1 has at most 9999 rows or team 2 has none |
| ArtilleryBattle.ArrivalsCoverBothTeams | artillery_battle.py:53 | the arrival count is the number of pixels written to both payloads |
| ArtilleryBattle.ScenariosBindPayloadFields | artillery_battle.py:63-110 | there are two scenarios, reading team1_payload.json and team2_payload.json, each binding exactly the payload fields to their placeholders, plus the canvas id |
| ArtilleryTeams.EmitOf | artillery.py:35-41 | the emit carries the pixel's own x, y, colour and user id, and canvas id '1' |
| ArtilleryTeams.ScenariosOf | artillery.py:26-46 | one scenario per pixel, in order; the i-th thinks 0.05 * i s and emits that pixel on `draw_pixel_simul` |
| ArtilleryTeams.PhaseDuration | artillery.py:52 | `int(n * 0.05 + 10)`: the duration d satisfies 20 (d - 10) <= n < 20 (d - 9) |
| ArtilleryTeams.CreateArtilleryConfig | artillery.py:22-59 | the caller's list ends sorted as SortedByX says, and the configuration is 30 arrivals per second for PhaseDuration seconds with ScenariosOf the sorted list |
| ArtilleryTeams.Generate | artillery.py:61-67 | nexon is numbered from 1 and krafton from 10000, and each team is configured from its sorted records |
| ArtilleryTeams.ScenariosSweepLeftToRight | artillery.py:24-46 | the scenarios sweep left to right: x never decreases and think times strictly increase, and every pixel of the team is emitted by some scenario |
| ArtilleryTeams.ArrivalsExceedRecords | artillery.py:52 | 30 arrivals a second for the computed duration exceed the record count, by more than ten per second of the phase |
| ArtilleryTeams.ThinkWithinPhase | artillery.py:31-52 | every think time ends before the phase's duration |
| ArtilleryFixed.ReadPixels | artillery_fixed.py:11-22 | the comprehension gives one record per row, keeping x, y and colour, with user id start + i |
| ArtilleryFixed.Run | artillery_fixed.py:24-73 | the merged list is team 1 then team 2, ids 1..n by position; the payload splits into one JSON line per record; one arrival per record; the temporary payload path, the fields and the template are in the configuration |
| ArtilleryFixed.MergedIdsUnique | artillery_fixed.py:25-27 | no two merged records share a user id |
| ArtilleryFixed.PayloadLineOfRecord | artillery_fixed.py:31-33 | the i-th payload line is the i-th merged record |
| ArtillerySimple.Generate | artillery_simple.py:21-70 | the merged records are team 1 numbered from 1 then team 2 numbered on from it; payload.json holds them; the phase has one arrival per record |
| ArtillerySimple.RunNumbersAndWritesEveryRecord | artillery_simple.py:22-37 | every record is numbered by its position 1..n, written on its own line in order, and given exactly one arrival |

## Left out

- Network and storage I/O: Redis, Postgres/TypeORM, BullMQ and S3 calls become operations on the model's maps, sets and sequences. The SQL text itself is not modelled.
- The `CASE` statement builder in src/queues/pixelUpdate.worker.ts:93-132 is not modelled: it is SQL text. The model stops at the per-chunk coordinate conditions and their parameter slots.
- `createCanvasHistoryData`, the history statistics query, the image rendering and the S3 upload are left out because they are database and foreign-library calls. The model keeps the upload key's shape and the public-type branch.
- TTL expiry, `setTimeout`/`setInterval`/`setImmediate` and the connect debounce are left out. Time is a `now` parameter and a cooldown or TTL is a stored number.
- The Redis lock's cross-process mutual exclusion and worker concurrency are left out. The lock table has sequential semantics only.
- socket.io transport, rooms across servers and the Redis adapter are left out. Emits are an appended log and a client's rooms are a set.
- JWT verification and OAuth are left out. The decoded session (or its absence) is an input.
- Entities, DTOs, module wiring and client configuration are left out. That includes the `maxRetriesPerRequest` and connection options next to `retryStrategy`.
- Canvas creation, the canvas strategies' bodies, the canvas gateway and the history batch are left out. The strategy factory's dispatch is kept.
- RedisMonitor.FormatBytes: only the zero case is stated. Any other byte count gives `None`, because the source formats it with `Math.log` on floats.
- RedisMonitor.ParseInfoLines: the INFO text arrives already split into lines. The CRLF split is not modelled.
- JsText.ToNumber: `Number()` of text with surrounding whitespace, a fraction, an exponent, a `0x`/`0b`/`0o` literal or `Infinity` reads as NaN in the model. Only optional-sign digit strings and the empty string are numbers.
- JsText.ParseInt: `parseInt` skips leading whitespace, and without a radix (the Redis INFO readers) it reads a `0x` prefix as hexadecimal; the model does neither, so it reads " 12" as NaN and "0x1A" as 0. The texts it parses, Redis INFO counters and stored canvas sizes, are written in decimal without leading blanks.
- RedisMonitor.RoundPercentNearest: `Math.round` of the float quotient is modelled as exact rational rounding (halves up). Float rounding error is not modelled.
- LoadTest.CsvToJson: CSV file reading and Python `int()` parsing are left out. The rows arrive parsed, so the abort on a malformed row is not modelled.
- ArtilleryTeams.PhaseDuration: the float `n * 0.05 + 10` is modelled as exact integer arithmetic (`n / 20 + 10`) and think times in hundredths of a second. Float rounding is not modelled.
- ArtilleryFixed.Run: the temporary payload file's path is a parameter, because the source chooses it at run time.
- The scripts' console output and the config files' JSON rendering are left out. The configuration is a datatype; only the payload's JSON lines are rendered as text.
- CanvasService.CanvasStore.GetAllPixels: a canvas id Postgres cannot cast to INTEGER makes the database fallback throw; the model reads the stored rows for it (none for an unknown id) instead of failing.
- GameLogic.Die: `owned` stands for the owners recorded for the canvas's pixels, which the source never loads; as written nothing is freed (see Findings).
- GameLogic.AnswerWrong: a death frees the pixels `owned` records for the player, where the source frees none (see Findings).
- GameLogic.HandleSendResult: `prevOwner` and `owned` stand for owners the source never loads (see Findings).
- GamePixel.FreeAllPixelsOfUser: `loaded` carries recorded owners; the source's list has none, which `GamePixel.AsWrittenFreesNothing` states.
- Colour generation (MD5 and HSL floats) and the URL parser are not part of this model.

## Findings

| source | as written | input that shows it | evidently intended | confidence | as-written member | corrected member |
|---|---|---|---|---|---|---|
| src/game/game-logic.service.ts:45-57 | the previous owner is read from `getAllPixels`, whose pixels carry no owner, so it is always null and no previous owner loses a pixel | a right answer on a pixel that another player owns | the previous owner's own_count falls by 1 and the players' total own_count stays the same | not executed | GameLogic.AsWrittenInflatesOwnership | GameLogic.RightAnswerMovesOwnership |
| src/game/game-pixel.service.ts:41-60 | the pixels come from `getAllPixels`, which carries no owner, so `String(pixel.owner)` is 'undefined' and a dying player frees nothing | a player with pixels on the canvas loses their last life | the player's pixels are blackened in the hash and reported in `dead_user` | not executed | GamePixel.AsWrittenFreesNothing | GamePixel.FreedOfExactly |
