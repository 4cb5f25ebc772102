# whack-a-cube session engine in Dafny

This project models the authoritative server of a multiplayer whack-a-cube game, plus the client's score/lives store.

On the server, a `GameSession` owns an insertion-ordered roster of players (score, lives, game-over flag). It holds at most one live cube, and two timers drive a spawn loop:
- a pending spawn brings up a cube after a random delay;
- a pending auto-hide takes the cube down if nobody hits it.

Players hit the cube. A red cube costs the hitter a life and a green one scores a point. Only the first hit on a cube counts, and players whose game is over cannot hit. A process-wide map from session id to session sits around the sessions. Socket handlers create sessions, join players, route hits and handle disconnects. A 30-second grace timer deletes a session only if it is still empty when the timer goes off.

The model is a functional state machine:
- Sessions, the registry and the client store are immutable records.
- Every operation is a pure transition.
- A timer going off is an explicit event.
- Random draws, cube positions and clock readings are event inputs.
- Broadcasts are returned as lists of messages instead of being written to sockets.

Modules:

- `GameSession` (game_session.dfy): the data model (`Player`, `Cube`, `Session`, messages) and the session operations as written in server.js. A `Timer` records whether the handle field names a pending timer, and how many earlier timers are still pending. Those earlier timers had their handle overwritten and can no longer be cancelled.
- `SessionProperties` (session_properties.dfy): properties that relate several session transitions, and the player invariant over any event sequence.
- `SessionFix` (session_fix.dfy): two traces on the operations as written that leave two spawn timers pending, plus the corrected join and leave. For these, "at most one timer pending" is proved over any event sequence. See Findings.
- `Registry` (registry.dfy): the `sessions` map and the socket handlers. Each handler takes a flag `fixed`. With `fixed` false, sessions run the operations as written in server.js. With `fixed` true, they run the corrected join and leave of `SessionFix`. A session's timers hold the session object, not its id. So a session that leaves the map, overwritten by a colliding id or deleted by a cleanup, is kept in `dropped`, where its timers still fire.
- `GameStore` (game_store.dfy): the client store's initial state and actions.
- `Decimal` (decimal.dfy), `Wrappers` (wrappers.dfy): decimal rendering of the default player name, and `Option`.

The client expects more than server.js provides. src/components/Game.jsx:19-35 takes `setIsHost`, `setSessionStatus` and `setMinPlayers` from the store. The store defines none of them. src/components/Game.jsx:124-153 reads `status`, `hostId` and `minPlayers` from `sessionJoined`, and listens for `hostChanged`, `gameStarted` and `gamePaused`. server.js never sends any of these. In server.js the first player to join starts the spawn loop, and anyone may join any existing session. The model follows server.js and has no host, status or player-count rules. Lives on the server stop at 0, because a game-over player cannot hit again. The client store's `incrementRedHits` does not floor lives, and the model keeps that.

## Model

| member | source | states |
|---|---|---|
| GameSession.NewSession | server.js:27-38 | a new session has no players, no cube and no pending timer |
| GameSession.Find | server.js:129 | a lookup finds a record exactly when some player has that id; the record it returns carries that id, and with unique ids it is the one record under that key |
| GameSession.Upsert | server.js:41-47 | setting an existing key replaces that record in place and keeps every other record and the order; a new key is appended at the end; ids stay unique; a lookup of any other key gives what it gave before |
| GameSession.Delete | server.js:63 | deleting a key removes exactly that record; the others keep their relative order and ids stay unique; a lookup of any other key gives what it gave before |
| GameSession.DisplayName | server.js:43 | a supplied non-empty name is kept; an absent or empty one becomes "Player " followed by decimal digits, with no leading zero, that read as the roster size before insertion plus one |
| Decimal.ReadShow | server.js:43 | the number in the default name reads back as N |
| GameSession.AddPlayer | server.js:40-56 | the record under the socket id is fresh (score 0, 3 lives, not game over); a new id is appended and every other record is kept; a lookup of any other id is unchanged; a spawn is armed exactly when the roster then holds one player; cube and hide timer are untouched |
| SessionProperties.FreshJoinAppends | server.js:41-47 | a join under a new id appends exactly the fresh record after all earlier ones |
| GameSession.RemovePlayer | server.js:58-77 | the roster is the map with that key deleted, so only that id disappears and the others keep their order; the cube is unchanged; when the roster becomes empty both tracked timers are cancelled, otherwise neither is |
| GameSession.GetPlayers | server.js:171-173 | one entry per key of the roster, each the record stored under its id |
| GameSession.Timer.Arm | server.js:87-89 | assigning a new timer to the handle makes it the tracked timer and adds one pending timer; a timer the handle held before stays pending |
| GameSession.Timer.Fire | server.js:87-89 | a pending callback runs and one fewer timer is pending; the tracked one leaves the handle naming no pending timer, an orphaned one leaves the tracked timer as it was, still cancellable |
| GameSession.Timer.Clear | server.js:150-153 | clearing the handle cancels only the tracked timer; pending timers it no longer names stay pending |
| GameSession.ClearCancelsOnlyLatest | server.js:68-75 | clearing a handle right after re-arming it leaves the earlier timer pending |
| GameSession.SpawnDelay | server.js:82-83 | the delay min + r·(max − min) for a draw r in [0, 1) lies in [3000, 5000) |
| GameSession.ScheduleNextCube | server.js:79-90 | with no players nothing happens; otherwise exactly one more spawn timer is pending and nothing else changes |
| GameSession.SpawnCube | server.js:92-113 | with no players nothing happens and nothing is sent; otherwise a new unclaimed cube is up at the drawn position, red exactly when its draw exceeds 0.7; it is broadcast to the room, one more hide timer is pending, and roster and spawn timer are untouched |
| GameSession.AutoHide | server.js:113-120 | acts only on a live unclaimed cube: clears it, broadcasts cubeHidden and, with players present, arms a new tracked spawn timer; on an empty roster the spawn timer is left alone; id, roster and hide timer are kept; otherwise nothing changes and nothing is sent |
| GameSession.Scored | server.js:137-147 | red: one life fewer, score kept, game over exactly when lives reach ≤ 0; green: one point more, lives kept |
| GameSession.HandleHit | server.js:123-169 | no cube, a claimed cube, an unknown player or a game-over player changes nothing and sends nothing; an accepted hit scores by the server's cube colour, touches no other player, keeps the session id, clears the cube, cancels the hide timer, arms the next spawn as the tracked timer, and sends scoreUpdate to the hitter then playersUpdate and cubeHidden to the room |
| GameSession.Step | server.js:40-169 | every event, a timer firing included, keeps unique ids, lives in [0, 3], game over exactly at 0 lives, and no claimed cube left behind |
| SessionProperties.Run | server.js:137-143 | over any sequence of events every player keeps lives ≥ 0 and isGameOver exactly when lives == 0 |
| SessionProperties.HitIgnoresClientColour | server.js:123-137 | the colour the client reports has no influence on the outcome of a hit |
| SessionProperties.NoSecondClaim | server.js:124-135 | once a hit is accepted no further hit on that cube, by anyone, is accepted |
| SessionProperties.HitThenHideIsQuiet | server.js:149-168 | after an accepted hit, the cube's auto-hide sends nothing and leaves roster, cube and spawn timer alone, so only the hit cleared the cube and scheduled the next one |
| SessionProperties.HideThenHitRejected | server.js:113-120 | after the auto-hide clears a cube, a late hit is rejected and changes nothing |
| SessionProperties.StepKeepsLockout | server.js:123-147 | every event except a join under that id keeps a player who is absent or out of lives in that state |
| SessionProperties.RunKeepsLockout | server.js:123-147 | over any event sequence without a join under that id, such a player stays absent or out of lives |
| SessionProperties.LastLifeLocksOut | server.js:130-143 | a red hit on the last life leaves 0 lives and game over; whatever events follow, short of that socket joining again, the player stays at 0 lives and game over and every hit of theirs is rejected |
| SessionProperties.JoinOrder | server.js:171-173 | players who join with fresh ids appear in the roster after the earlier ones, in join order, each named from the roster size at its own join |
| SessionProperties.EmptySessionNeverSpawns | server.js:92-93 | a spawn timer firing on an empty roster produces no cube and no message |
| SessionFix.StaleCubeHitArmsSecondSpawn | server.js:165-168 | as written: on an empty session that still holds a cube, a join arms a spawn and a hit on that cube is accepted and arms a second |
| SessionFix.StaleCubeArmsTwoSpawns | server.js:58-77 | as written: join, spawn, leave, join, then a hit on the leftover cube leaves two spawn timers pending |
| SessionFix.RejoinArmsTwoSpawns | server.js:51-55 | as written: the only player joining again under the same id leaves two spawn timers pending |
| SessionFix.AddPlayer | server.js:40-56 | corrected join: the source's join in every field but the spawn timer, which is armed only when the roster was empty before |
| SessionFix.RemovePlayer | server.js:58-77 | corrected leave: the source's leave in every field but the cube, which an emptied session also drops; orphaned timers stay pending, since they cannot be cancelled |
| SessionFix.DisciplinedHasOnePending | server.js:87-120 | under the spawn-loop discipline, exactly one timer is pending while players are present and none otherwise |
| SessionFix.StepKeepsDiscipline | server.js:79-168 | every event of the corrected session keeps the discipline: a spawn pending and no cube, or a cube up with its auto-hide pending |
| SessionFix.NeverTwoSpawns | server.js:79-168 | over any event sequence, the corrected session never has more than one timer pending |
| Registry.EmptyValid | server.js:18 | the server's starting state, an empty session map, satisfies the registry invariant for both the as-written and the corrected operations |
| Registry.SessionOf | server.js:234-244 | a socket's session is found exactly when the socket joined one and that id is still in the map |
| Registry.Add | server.js:214 | the join a registry runs builds the roster of addPlayer as written, and keeps the session invariant (with the discipline when corrected) |
| Registry.Remove | server.js:246 | the leave a registry runs builds the roster of removePlayer as written, and keeps the session invariant (with the discipline when corrected) |
| Registry.CreateSession | server.js:181-199 | a new empty session is stored under the given id; a session already there is replaced and its object kept among the dropped ones; its id goes to the creator; a cleanup timer for it is armed |
| Registry.JoinSession | server.js:202-230 | an unknown id is answered with "Session not found" and nothing changes; otherwise the player is added, the socket remembers the session, the joiner gets the roster, the room gets the roster, and the joiner gets the live cube if there is one |
| Registry.CubeHit | server.js:233-238 | a hit from a socket whose session no longer exists is ignored; otherwise it is that session's hit resolution |
| Registry.Disconnect | server.js:241-262 | the player leaves the session the socket joined, the room gets the roster, and a cleanup is armed exactly when the session is empty afterwards |
| Registry.CleanupFires | server.js:253-259 | a cleanup deletes its session exactly when it still exists and has no players, keeps the deleted object among the dropped ones, and otherwise leaves the dropped ones as they were; it never touches another session |
| Registry.Instance | server.js:87-89 | a timer's session object is found exactly when the id is still stored, or the dropped index exists, and it is the object stored under that id or at that index |
| Registry.SessionTimer | server.js:87-120 | a spawn or hide timer acts on its own session object, stored or dropped, never changes its roster, and sends only to that session's room |
| Registry.Serve | server.js:176-263 | any interleaving of requests, disconnects and timers keeps every stored session under its own id, and every session object, stored or dropped, with a consistent roster and no claimed cube; with the corrected operations, also with the timer discipline |
| Registry.OneTimerPerSession | server.js:51-77 | with the corrected join and leave, every session object the server holds, stored or dropped, has at most one timer pending under any interleaving |
| Registry.LastLeaveKeepsCube | server.js:58-77 | the last player's disconnect cancels both tracked timers; as written the cube stays up in the empty session; corrected, it goes too |
| Registry.StaleCubeReachesJoiner | server.js:227-229 | as written: a player joining an empty session that still holds a cube is sent it, and their hit on it is accepted and leaves two more spawn timers pending than before the join |
| Registry.FixedJoinerSeesNoStaleCube | server.js:202-238 | corrected: a player joining an empty session is sent no cube, their hit is rejected, and exactly one spawn timer is pending |
| Registry.JoinUnknownIsRefused | server.js:205-211 | joining an unknown session id yields the error and leaves the registry unchanged |
| Registry.LastLeaveThenCleanupDeletes | server.js:252-259 | after the last player leaves, the cleanup deletes that session and only that one |
| Registry.JoinWithinGraceKeepsSession | server.js:254-256 | a join before the cleanup fires keeps the session |
| Registry.SecondCleanupIsHarmless | server.js:192-198 | a second cleanup for an already deleted session deletes nothing more |
| Registry.CreateOverwritesOnCollision | server.js:182-184 | creating a session under an id in use stores a fresh empty session there; the old players' sockets now reach it and their hits are ignored; the old session object keeps its players, and its pending spawn still brings up a cube and broadcasts it to the room of that id |
| GameStore.Init | src/store/gameStore.js:3-37 | score 0, lives 3, redHits 0, not game over, so lives + redHits == 3; the saved name is used unless it is absent or empty; no session, cube or players, and the cube not up; hammer at rest, neither falling nor raised; the parameters are the defaults |
| GameStore.ParamsMatchServerSettings | src/store/gameStore.js:34-36 | the client's default stay duration and spawn delays equal the server's session settings |
| GameStore.IncrementScore | src/store/gameStore.js:47 | score rises by exactly one and no other field changes |
| GameStore.IncrementRedHits | src/store/gameStore.js:49-58 | one more red hit; lives + redHits == 3 afterwards; game over exactly when lives ≤ 0; lives drop by one from a consistent store; nothing else changes |
| GameStore.RedHitsCountDown | src/store/gameStore.js:49-58 | n red hits from a consistent store lower lives by exactly n and end the game exactly when no lives are left |
| GameStore.LivesGoNegative | src/store/gameStore.js:49-58 | lives are not floored: four red hits from the start leave -1 |
| GameStore.RedHitsRepeatedKeepsRest | src/store/gameStore.js:49-58 | any number of red hits leaves every field other than redHits, lives and isGameOver unchanged |
| GameStore.UpdateParams | src/store/gameStore.js:70-72 | every key of the update takes its new value, every other key keeps its old one, no key is lost, and only params changes |
| GameStore.UpdateParamsIdempotent | src/store/gameStore.js:70-72 | the same update applied twice equals it applied once |
| GameStore.UpdateParamsCommute | src/store/gameStore.js:70-72 | updates of disjoint keys can be applied in either order |
| GameStore.ResetGame | src/store/gameStore.js:74-85 | score, lives, redHits, game over, cube and hammer return to their initial values; sessionId, mySocketId, allPlayers, playerName and params are unchanged |
| GameStore.ResetForgetsPlay | src/store/gameStore.js:74-85 | resetting after any number of red hits or a point gives the same store as resetting straight away |
| GameStore.InitIsReset | src/store/gameStore.js:74-85 | a fresh store is already in its reset state |
| GameStore.SetSessionId | src/store/gameStore.js:40 | sets sessionId and changes no other field |
| GameStore.SetMySocketId | src/store/gameStore.js:41 | sets mySocketId and changes no other field |
| GameStore.SetPlayerName | src/store/gameStore.js:42-45 | sets playerName and changes no other field |
| GameStore.SetCurrentCube | src/store/gameStore.js:60 | sets currentCube and changes no other field |
| GameStore.SetCubeIsUp | src/store/gameStore.js:61 | sets cubeIsUp and changes no other field |
| GameStore.SetHammerPosition | src/store/gameStore.js:63 | sets hammerPosition and changes no other field |
| GameStore.SetHammerVelocity | src/store/gameStore.js:64 | sets hammerVelocity and changes no other field |
| GameStore.SetHammerFalling | src/store/gameStore.js:65 | sets hammerFalling and changes no other field |
| GameStore.SetHammerRaised | src/store/gameStore.js:66 | sets hammerRaised and changes no other field |
| GameStore.UpdateAllPlayers | src/store/gameStore.js:68 | sets allPlayers and changes no other field |
| GameStore.SettersKeepConsistency | src/store/gameStore.js:40-68 | an action that leaves lives, redHits and isGameOver alone keeps lives + redHits == 3 |

## Left out

- Socket.IO, Express, HTTP, CORS, the listen port and `server.listen`: transport plumbing. A message addressed to `Room(id)` stands for `io.to(id).emit`. Room membership (`socket.join`) and the transport's automatic room leave on disconnect are not tracked.
- Console logging: it has no effect on state.
- Real `setTimeout` timing and `Date.now()`: a timer goes off when an event says so. The 2-second stay duration and the 30-second grace period therefore bound nothing in the model, and the clock reading stored in a cube is an input.
- `Math.random`: the spawn delay draw, the red draw and the position draws are inputs. The cube position (`cos`/`sin` of a random angle, scaled by a random radius below 0.8) is given directly as `x`, `z`, because the model has no floating-point trigonometry.
- `generateSlug`: the new session id is an input. Its collisions are modelled: the existing session is overwritten.
- Host, status, start/pause, minimum/maximum players, quick-match and `canJoin`: server.js does not implement them. The client's handlers for them in src/components/Game.jsx are not modelled. The store setters they take (`setIsHost`, `setSessionStatus`, `setMinPlayers`) are not defined by the store, so they are not modelled either.
- The `localStorage` write in `setPlayerName`: browser I/O. Only the field update is modelled. The initial read is an input of `GameStore.Init`.
- All React/R3F components: rendering, input handling, per-frame hammer physics and distance-based hit detection. This includes the HUD's mapping from `scoreUpdate` onto `incrementScore`/`incrementRedHits`.
- JavaScript number semantics: scores and lives are unbounded integers. The client's parameters, hammer position and velocity, and the delays are exact reals. A player name or parameter of some non-string or non-number type is not modelled.
- The spawn-loop discipline is proved only for the corrected join and leave (`SessionFix`, and the registry with `fixed` true). For the session operations as written it fails, as the trace lemmas show.
- Dropped sessions are never removed from `dropped`, even once no timer of theirs is pending. Such a session has no further effect, because only its own timers reach it.
- GameSession.SpawnDelay: proved over exact reals. In IEEE double arithmetic, 3000 + r·2000 for the largest r below 1 rounds to exactly 5000, so the exclusive upper bound holds only for exact arithmetic.

## Findings

| source | as written | input that shows it | evidently intended | confidence | as-written member | corrected member |
|---|---|---|---|---|---|---|
| server.js:58-77 | when the roster empties, both timers are cancelled but `currentCube` is kept; the next joiner is sent that cube, the join arms a spawn, and a hit on the stale cube arms a second one | join a, spawn fires, a leaves, b joins, b hits: two spawn timers pending | an emptied session drops its cube along with its timers | medium, not executed | SessionFix.StaleCubeArmsTwoSpawns | SessionFix.RemovePlayer |
| server.js:51-55 | a spawn is armed whenever the roster holds one player after the insert, including when the only player joins again under the same socket id | join a, join a again: two spawn timers pending | the spawn loop starts only when the first player arrives | low, not executed | SessionFix.RejoinArmsTwoSpawns | SessionFix.AddPlayer |

With two spawn timers pending, two cubes spawn one after the other. The second overwrites the first and its hide-timer handle, so the first auto-hide timer can no longer be cancelled. `SessionFix.NeverTwoSpawns` proves that, with both corrections, a session never has more than one timer pending. `Registry.OneTimerPerSession` proves the same for every session object of a server that uses the corrected join and leave. At the level of the socket handlers as written, `Registry.LastLeaveKeepsCube` and `Registry.StaleCubeReachesJoiner` show the stale cube reaching a new joiner. `Registry.FixedJoinerSeesNoStaleCube` shows the corrected server sending none.
