# R-Type: the replicated game, proved

This project models the multiplayer core of R-Type and proves what it keeps, in Dafny 4.11:
`dafny verify dfyconfig.toml` checks all of it.

The server owns a game state that every update changes: players, a wave of enemies, a boss and bullets spawn, move,
collide and die, and each update writes a *frame* of events (creations, deletions, the win). The server turns the
newest frame into text, adds the position changes since its last message and, when more clients are connected than
ever before, a dump of the entities; clients parse the text, keep the frames by number, and play each one in three
passes. Around this stand two allocators that recycle identifiers, an acknowledgement loop, and a handful of threads
that share five locks.

## How it is laid out

| files | content |
|---|---|
| `Text`, `Protocol` | decimal text as the C++ library writes and reads it; packets, frames, their parsers and the round trips |
| `Playback`, `Delivery`, `Client` | the three playback passes; a client between a network that duplicates, reorders and loses, the keyboard and the screen; the client object, which does exactly these steps |
| `World`, `Rules`, `Steps`, `Updates`, `GameState` | the game state as a value, each stage of an update as a function, what every stage keeps, and the object whose methods are proved against those functions |
| `Replication`, `LateJoin`, `Network`, `Skipping` | the delta cache, the dump, the end-to-end theorems over whole runs, what clears a client's screen, and what a skipped frame does |
| `Stages`, `Conformance`, `Progress` | the reference: what each stage of an update does, said of the entities and the announcements in the game's own numbers, without the functions that compute it; that every stage of every update does this; what follows for whole runs |
| `Victory`, `Shots`, `Patrol`, `Players`, `Leaving` | further laws of the game over whole runs |
| `ClientIds`, `Senders`, `Server`, `PacketHandler`, `Marker`, `Reliability` | client identifiers, for whom a packet acts, the server and handler objects, marks and acknowledgements |
| `SparseArray`, `Registry`, `GeneralEntity` | the entity registry with its component arrays, and the entity that owns one |
| `Locks` | the lock protocol as a state machine |

Objects that the program changes in place are classes; each method is proved equal to a function of the old state, and
the laws are lemmas about those functions. What the functions themselves compute is measured by an independent
reference: `Progress.EveryUpdate` says that every update of every run goes through the stages of `Stages.Account`.
Positions are fixed-point integers in millionths. The clock, the random generator and the number of connected clients
are inputs of an update, so every theorem holds for all of them.

## What was found

Properties the program is meant to have and does not, each with the exact condition under which it does:

- **Resending never happens.** `SendFrame` looks for the text `33;-1;-1;-1/` while a mark starts with the byte 33. No
  frame, whatever it carries, holds that text (`Marker.MarkerNeverSent`), so no frame is ever stored for resending. The
  test on the byte would be exact (`Marker.IntendedTest`).
- **A newcomer gets the dump only at a record client count** (`LateJoin.DumpNeedsRecordCount`): `lastClientCount` is
  never lowered, so a client that replaces one that left gets no dump (`LateJoin.ReplacementGetsNoDump`).
- **The dump carries no enemy bullets.** A client that had no entity lacks, in every run, exactly what was live at its
  start and lives still, but for what a dump has carried since (`LateJoin.MissingAlongRun`): after a dump, the old enemy
  bullets (`LateJoin.DumpCarriesTheRest`), until they have left the field (`LateJoin.LateJoiner`).
- **A control packet that comes late clears the screen.** Whoever joins before the start is sent `GAME_NOT_STARTED`. When
  the network delays or repeats it, the turn after its arrival replaces all sprites with the lobby
  (`Network.LateLobbyPacket`), as the Escape key does, and no creation is sent again. A client that began with the first
  frame is in step if and only if its sprites were never taken away since, or everything live at the last clearing has
  died since or been carried by a dump (`Network.InStepExactlyWhen`).
- **A skipped frame stops playback.** The server loop sends only the newest frame, so a frame overtaken by the next
  update is never sent, while the client plays the numbers one after the other and uses the result of its search
  unchecked. Playback passes a frame if and only if it was sent and has arrived (`Skipping.PassesExactlyWhatWasSent`), so
  it never passes a skipped number (`Skipping.SkipStopsPlayback`). Nor would the content of the next frame always be
  enough: it is if and only if no entity created in the skipped frames still lives, but for those a dump carries, and
  none that was shown died in them (`Skipping.ContentMakesUp`).
- **The first frame must not arrive inside a turn of the client's loop**, between the choice of the number playback
  starts from and the frame clock: the client would look for the frame -1 (`Delivery.FirstFrameInsideTurn`).
- **A packet acts for whoever sent the last datagram.** A queued packet does not carry its sender; the handler asks for
  the endpoint received from last. It acts for its own sender if and only if no newer packet is waiting, or the newest one
  comes from the same sender (`Senders.ActsForItsSenderExactlyWhen`). Otherwise one client's key press moves another one's
  player (`Senders.ActsForSomebodyElse`).
- **A leaver is noticed only when the client count has dropped** (`Leaving.RemovedExactlyWhen`): one that is replaced
  between two checks keeps its player (`Leaving.ReplacedKeepsItsPlayer`).
- **A recycled client identifier never gets a player** (`Leaving.NeverOwnsAgain`), and at the start of a game a client
  gets one only if the connected identifiers are the lowest ones (`Leaving.EveryClientPlays`).
- **The enemies' patrol returns after 52 rounds exactly when their number is not a multiple of four**
  (`Patrol.PatrolReturns`, `Patrol.BackInPlace`); otherwise they drift without bound (`Patrol.PatrolDrifts`).
- **Killing an entity twice, or one that never was, spoils the registry's free list** (`Registries.KillNeedsExistence`);
  the destructor's guard is what keeps it whole.
- **Spawning a ball would break the frame's account of the entities** (`World.SpawnIsTold`): it is stored under an
  identifier that is neither announced nor counted. No caller in this game spawns one, so no run of it gets there.
- **A latency check is read back only while the clock value fits an `int`** (`Protocol.ControlRoundTrip`).
- The branch of `parseFramePacket` for a text that ends with its colon is dead: after a delimiter has been found the
  stream is never at its end.
- `Network/protocol.md` says that a started game is announced by `GAME_STARTED` and that malformed packets are answered;
  the code broadcasts `GAME_START` (`PacketHandlerModel.PacketHandler.HandleGameStart`) and answers nothing. The code is
  followed.

## Assumptions

- *Every frame is sent before the next update.* The server loop sends only the newest frame; the run theorems are about
  runs in which it keeps up, and `Skipping.SkipStopsPlayback` says what happens at the first frame it does not send.
  `ServerModel.Server.FrameThenSend` is one such turn, and `ServerModel.Server.RunOnce` is the loop without the assumption.
- *The frame to be played has arrived.* The main loop uses the result of `find` unchecked; the play step requires it, and
  `Delivery.PassesExactlyWhatArrived` says when it holds.
- *Messages, keys and the mouse come between two turns of the client's loop*, not inside one.
- *Identifiers and frame numbers fit a 32-bit `int`* (`Replication.Representable`), where a theorem needs them sent.
- One game thread numbers the frames.

## Model

| member | source | states |
|---|---|---|
| Text.IntRoundTrip | Client/src/Client.cpp:240 | `stoi` gives back what `to_string` wrote for every 32-bit value and raises an error for every other |
| Text.ReadIntOf | Client/src/Client.cpp:206 | `stoi` on any text: blanks, a sign or none, digits, whatever follows; an error without digits or beyond 32 bits |
| Text.FixRoundTrip | Client/src/Client.cpp:241-242 | a position written with six decimals is read back exactly, whatever its sign and size |
| Text.SixDecimals | R-Type/src/GameState.cpp:100 | a position is printed as its sign, its whole part, a point and six digits |
| Text.IntReadAsFix | Client/src/Client.cpp:241-242 | the integer fields `-1` and `0` of packets without a position read back as positions |
| Protocol.FrameRoundTrip | Server/src/Server.cpp:111-122 | for every frame number and every list of events the client's parser returns the number, the packets in order without the marks, and the number of marks |
| Protocol.BodyRoundTrip | Client/src/Client.cpp:222-252 | the body of a frame parses to the meanings of its events |
| Protocol.PieceReadBack | Client/src/Client.cpp:227-242 | one printed event parses to its meaning; only an identifier beyond 32 bits loses it |
| Protocol.ParseBodyAppend | Client/src/Client.cpp:222-252 | parsing is a homomorphism over slash-terminated texts |
| Protocol.MalformedPieceIsolated | Client/src/Client.cpp:231-251 | a malformed sub-packet anywhere changes no other sub-packet |
| Protocol.ControlRoundTrip | Client/src/Client.cpp:269-301 | every message without a frame goes to the other parser and gives back its type and value, or an error when the value does not fit |
| Protocol.ControlDefault | Server/src/Server.cpp:111-114 | a packet without data carries three times -1 |
| Protocol.AckRoundTrip | Network/src/PacketHandler.cpp:81-86 | the server reads out of an acknowledgement the frame number the client put in |
| Protocol.SubPackets | Network/include/PacketType.hpp:37-51 | every sub-packet of a frame, byte by byte: the type bytes 21 to 29, 33 and 35, and the three fields |
| Protocol.Code | Network/include/PacketType.hpp:37-51 | every type in a frame lies between 21 and 35, so none is a separator or a digit |
| Playback.LookupPlay | Client/src/Client.cpp:84-137 | what is shown for an identifier after the three passes, in terms of the frame's first creation, any deletion and last move |
| Playback.ReorderingPreservesMeaning | Client/src/Client.cpp:383-385 | all creations, then all deletions, then all moves give the same sprite list as the packets applied one by one, when no identifier is created after it was deleted or moved |
| Playback.PlayShowsOnce | Client/src/Client.cpp:84-137 | playing a frame shows no identifier twice |
| ClientModel.Client.constructor | Client/include/Client.hpp:113-119 | nothing received, nothing shown, nothing to play |
| ClientModel.Client.GetLine | Client/src/Client.cpp:203-227 | one `getline`: the first piece of the stream and what is left |
| ClientModel.Client.ParseSubpacket | Client/src/Client.cpp:223-242 | the fields of one sub-packet, or an error |
| ClientModel.Client.TakeSubpacket | Client/src/Client.cpp:244-247 | a mark queues the byte 34 and the frame's number, another packet is kept |
| ClientModel.Client.ParseSubpackets | Client/src/Client.cpp:222-252 | the loop keeps the well-formed packets in order and queues the byte 34 and the frame's number once for each mark |
| ClientModel.Client.ParseFramePacket | Client/src/Client.cpp:198-267 | a frame is stored under its number unless that number is there, the last number and the loss count are updated |
| ClientModel.Client.ParseGameStatePacket | Client/src/Client.cpp:269-305 | of the control packets only three types are held |
| ClientModel.Client.ParseMessage | Client/src/Client.cpp:184-196 | routing by the colon; an empty message does nothing |
| ClientModel.Client.FindSprite | Client/src/Client.cpp:98-100 | the first sprite with an identifier |
| ClientModel.Client.CreateSprite | Client/src/Client.cpp:84-110 | the creation pass over the sprite list in place |
| ClientModel.Client.RemoveSprites | Client/src/Client.cpp:116-119 | every sprite with the identifier is removed, the others keep their order |
| ClientModel.Client.DestroySprite | Client/src/Client.cpp:113-122 | the deletion pass |
| ClientModel.Client.UpdateSpritePosition | Client/src/Client.cpp:126-137 | the move pass |
| ClientModel.Client.CheckWinCondition | Client/src/Client.cpp:153-159 | the win is shown from the first frame that carries it on |
| ClientModel.Client.InitLobbySprites | Client/src/Client.cpp:514-530 | background and start button replace everything |
| ClientModel.Client.UpdateGameStateLayers | Client/src/Client.cpp:139-151 | a control packet is obeyed once |
| ClientModel.Client.FirstKey | Client/src/Client.cpp:365 | the lowest frame number |
| ClientModel.Client.MainLoopTurn | Client/src/Client.cpp:362-388 | one turn of the loop: start of playback, layers, the playback of one frame, and the win shown from the frame that carries it on |
| ClientModel.Client.EscapePressed | Client/src/Client.cpp:488-491 | the lobby replaces everything and the server is told |
| ClientModel.Client.MousePressed | Client/src/Client.cpp:433-445 | a click on the start button takes it away and asks for the start, any other shoots at its place |
| ClientModel.Client.Take | Client/src/Client.cpp:362-388 | the object does every step of the delivery model: a message, a turn, the Escape key, a click |
| ClientModel.Client.Watch | Client/src/Client.cpp:362-388 | after any run of steps the object is exactly where the delivery model is |
| Delivery.LayersAndEntities | Client/src/Client.cpp:139-149 | starting the game removes no entity's sprite, the lobby shows none |
| Delivery.HeldExactlyWhen | Client/src/Client.cpp:292-294 | a control packet is held if and only if it is of type 3, 30 or 31 |
| Delivery.ObeyedExactly | Client/src/Client.cpp:139-149 | 31 leaves the background under the start button and nothing else; 3 takes the first start button away and nothing else; any other type nothing |
| Delivery.ObeyedOnce | Client/src/Client.cpp:150 | a control packet is obeyed once, not again in the turns after |
| Delivery.ClickIsStart | Client/src/Client.cpp:435-438 | a click on the lobby leaves the background, as the start of the game does |
| Delivery.FramesAreThoseArrived | Client/src/Client.cpp:254-266 | the frame map holds exactly the published frames that arrived, whatever order and copies they came in |
| Delivery.FirstCopyStays | Client/src/Client.cpp:254-266 | of the copies of a frame the first stays, the last received number is that of the last one, nothing else changes |
| Delivery.StartsWithLowest | Client/src/Client.cpp:363-367 | playback starts with the lowest number there is, in the first turn after a frame has arrived, once |
| Delivery.DeliveryIndependence | Client/src/Client.cpp:363-387 | whatever order and copies texts come in, and whatever is pressed: the entities shown are those of playing the published frames from the last clearing, or the start, to the playhead, once each and in order |
| Delivery.SameShow | Client/src/Client.cpp:363-387 | two clients that were cleared last, or began, at one frame and have played as far show the same entities |
| Delivery.PassesExactlyWhatArrived | Client/src/Client.cpp:377-387 | playback passes a frame if and only if it was published and has arrived |
| Delivery.GapIsNeverPassed | Client/src/Client.cpp:379-387 | a number that was never published is never passed |
| Delivery.FirstFrameInsideTurn | Client/src/Client.cpp:363-381 | a text that arrives inside a turn before the first frame does no harm if and only if it is no frame |
| World.SpawnStep | R-Type/src/GameState.cpp:91-128 | a spawn keeps the state sound and its creation is told with the next identifier and a mark |
| World.SpawnIsTold | R-Type/src/GameState.cpp:98-123 | a spawn is told truthfully if and only if the kind is supported |
| World.KillStep | R-Type/src/GameState.cpp:130-140 | a kill is told if the entity was there, and does nothing otherwise |
| World.SpawnPlayerStep | R-Type/src/GameState.cpp:290-296 | a new player is told and owned by the next client key |
| World.StoryRanges | R-Type/src/GameState.cpp:92-127 | created identifiers are new, deleted ones were given out: none is ever reused |
| Steps.InitializePlayersStep | R-Type/src/GameState.cpp:290-296 | the stage keeps soundness and the truth of the frame, and changes no entity |
| Steps.ProcessActionsStep | R-Type/src/GameState.cpp:52-67 | the stage keeps both and changes only players |
| Steps.CheckDisconnectedStep | R-Type/src/GameState.cpp:304-337 | the stage keeps both and changes no surviving entity |
| Steps.SpawnHostilesStep | R-Type/src/GameState.cpp:345-351 | the stage keeps both, wave and boss counters stay within their limits |
| Steps.CollideStep | R-Type/src/GameState.cpp:178-205 | the stage keeps both and changes only bosses that survive |
| Steps.FirstHitHits | R-Type/src/GameState.cpp:181-190 | the pair struck is a hitting one, the first in the order of the two loops, and there is one whenever any pair hits |
| Steps.FlyToNext | R-Type/src/GameState.cpp:147-157 | one bullet of the snapshot is still live when its turn comes, and is killed at the border or moved |
| Steps.FlyToStep | R-Type/src/GameState.cpp:142-176 | the flight keeps soundness and the truth of the frame and changes only its kind |
| Steps.EnemyTurnsWalked | R-Type/src/GameState.cpp:219-245 | enemies' turns lose no identifier of the snapshot and change only enemies |
| Steps.EnemyTurnsStep | R-Type/src/GameState.cpp:207-246 | they keep soundness and the truth of the frame |
| Steps.BossTurnsStep | R-Type/src/GameState.cpp:248-288 | so do the bosses' turns |
| Updates.UpdateStep | R-Type/src/GameState.cpp:339-360 | a whole update keeps the state sound, its frame tells exactly what was created and deleted, no entity changes its kind |
| Updates.EnemyBulletFlight | R-Type/src/GameState.cpp:160-176 | an enemy bullet that outlives an update flew 3 to the left and is on the field |
| Updates.BulletFlight | R-Type/src/GameState.cpp:142-158 | a player bullet that outlives an update flew 3 to the right |
| Conformance.PlayersJoinLawfully | R-Type/src/GameState.cpp:290-296 | one player for each client beyond those spawned, at 100 times its number from the left and 100 from the top, with the next identifier and its client's key, each told by background, creation and mark; nothing else |
| Conformance.ActionsActLawfully | R-Type/src/GameState.cpp:52-67 | every owned entity is where its client's 1 to 4 have moved it, 3 each; every 5 of a client with a live player is one bullet 50 right of and 25 below the place reached by then, in order; nothing else |
| Conformance.LeaversGoLawfully | R-Type/src/GameState.cpp:304-337 | exactly the entities of clients that have left, counted only when the count dropped, are gone, and exactly their deaths are told |
| Conformance.HostilesComeLawfully | R-Type/src/GameState.cpp:345-351 | with no live enemy the next wave of single-life enemies, after the last wave the bosses with three lives, at the places rolled and under the next identifiers, and the counter one up; otherwise nothing |
| Conformance.CollideLawfully | R-Type/src/GameState.cpp:178-205 | nothing where no pair of the two kinds is closer than the distances; otherwise each of the first such pair has one life less, or is gone with the last and announced, and nothing else changes |
| Conformance.BulletsFlyLawfully | R-Type/src/GameState.cpp:142-158 | a player bullet is gone if and only if 3 more would take it beyond 1500, and has flown 3 otherwise; exactly the gone are told |
| Conformance.ShotsFlyLawfully | R-Type/src/GameState.cpp:160-176 | the same to the left, down to 0 |
| Conformance.EnemiesMarchLawfully | R-Type/src/GameState.cpp:207-246 | each enemy makes the next move of the square of 13 moves by 2 a side; of those that roll a shot as many fire as there is room below the cap, in order, from 50 left of and 25 above their new place |
| Conformance.BossesMoveLawfully | R-Type/src/GameState.cpp:248-288 | each boss moves by 2 in the direction it rolls; the shots as for the enemies, with five more room |
| Conformance.WinIsToldLawfully | R-Type/src/GameState.cpp:298-302 | the win is told once, if and only if waves and bosses are all counted and none is alive |
| Conformance.UpdateIsAccounted | R-Type/src/GameState.cpp:339-360 | an update is these stages in this order, with the distances 20/40, 30/50 and 50/50 of the three collision checks |
| Progress.EveryUpdate | R-Type/src/GameState.cpp:339-374 | so is every update of every run of the game, whatever comes before it |
| Progress.ShotPlayerDies | R-Type/src/GameState.cpp:353-356 | a player and a shot that are the first closer than 30/50 at the check are gone after the update, and its frame announces both deletions |
| Progress.SpawnProgress | R-Type/src/GameState.cpp:345-351 | an update whose spawn stage meets no live enemy raises the wave counter or, after the last wave, the boss counter, up to their limits; no other does |
| Progress.RunProgress | R-Type/src/GameState.cpp:448-468 | along every run the counters are determined by how often the spawn stage met no live enemy: waves first, then bosses |
| GameStateModel.GameState.constructor | R-Type/include/GameState.hpp:71-92 | the initial game with its limits 5, 1, 1 and 5 |
| GameStateModel.GameState.GetEntityPosition | R-Type/src/GameState.cpp:80-89 | the invalid-id exception is raised exactly for identifiers that are not live |
| GameStateModel.GameState.SpawnEntity | R-Type/src/GameState.cpp:91-128 | the fields and the frame text after a spawn |
| GameStateModel.GameState.KillEntity | R-Type/src/GameState.cpp:130-140 | the fields and the frame text after a kill |
| GameStateModel.GameState.Append | R-Type/src/GameState.cpp:125-126 | a packet more at the end of the frame text, which stays the text of the events |
| GameStateModel.GameState.InitializePlayers | R-Type/src/GameState.cpp:290-296 | one player more for each client beyond those spawned |
| GameStateModel.GameState.SpawnNextPlayer | R-Type/src/GameState.cpp:292-294 | background, player and its client key |
| GameStateModel.GameState.AddPlayerAction | R-Type/src/GameState.cpp:47-50 | an action goes to the end of the queue |
| GameStateModel.GameState.HandlePlayerMove | R-Type/src/GameState.cpp:393-418 | only the live entity owned by the client moves |
| GameStateModel.GameState.HandlePlayerShoot | R-Type/src/GameState.cpp:378-391 | a bullet spawns at the live entity owned by the client |
| GameStateModel.GameState.DeletePlayerAction | R-Type/src/GameState.cpp:69-74 | processed actions go, the others keep their order |
| GameStateModel.GameState.ProcessAction | R-Type/src/GameState.cpp:54-63 | one action acts, or is left for later if it is unknown |
| GameStateModel.GameState.ProcessEveryAction | R-Type/src/GameState.cpp:53-64 | the actions act in order, the known ones marked |
| GameStateModel.GameState.ProcessPlayerActions | R-Type/src/GameState.cpp:52-67 | every queued action acts once and in order |
| GameStateModel.GameState.RemovePlayerEntity | R-Type/src/GameState.cpp:328-337 | the client's entity is killed and its key forgotten |
| GameStateModel.GameState.FindDisconnected | R-Type/src/GameState.cpp:312-318 | the clients of the last check that are gone, in order |
| GameStateModel.GameState.RemovePlayerEntities | R-Type/src/GameState.cpp:320-322 | their players are removed in order |
| GameStateModel.GameState.CheckForDisconnectedPlayers | R-Type/src/GameState.cpp:304-326 | the clients gone since the last check are removed when the count has dropped |
| GameStateModel.GameState.SpawnEnemiesRandomly | R-Type/src/GameState.cpp:448-457 | a whole wave spawns and is counted |
| GameStateModel.GameState.SpawnBossRandomly | R-Type/src/GameState.cpp:459-468 | the bosses spawn and are counted once |
| GameStateModel.GameState.SpawnStage | R-Type/src/GameState.cpp:345-351 | waves come before bosses, each when no enemy is left |
| GameStateModel.GameState.CheckCollisions | R-Type/src/GameState.cpp:178-205 | at most one pair is struck, the first hitting one; every look-up of the snapshot succeeds |
| GameStateModel.GameState.StrikeEntity | R-Type/src/GameState.cpp:191-200 | the last life kills, another is taken |
| GameStateModel.GameState.MoveBullets | R-Type/src/GameState.cpp:142-158 | the flight of the player bullets; every `find` succeeds |
| GameStateModel.GameState.MoveEnemyBullets | R-Type/src/GameState.cpp:160-176 | the flight of the enemy bullets; every `find` succeeds |
| GameStateModel.GameState.CountEnemyBullets | R-Type/src/GameState.cpp:426-430 | the number of live enemy bullets |
| GameStateModel.GameState.ShootFrom | R-Type/src/GameState.cpp:239-242 | a shot below the cap, at its place, if the roll allows |
| GameStateModel.GameState.MoveEnemy | R-Type/src/GameState.cpp:221-243 | one enemy's move, the shared patrol clock, its shot |
| GameStateModel.GameState.MoveEnemies | R-Type/src/GameState.cpp:207-246 | the turns of all enemies of the snapshot; every `find` succeeds although turns spawn bullets |
| GameStateModel.GameState.MoveOneBoss | R-Type/src/GameState.cpp:263-284 | one boss's move and shot |
| GameStateModel.GameState.MoveBoss | R-Type/src/GameState.cpp:248-288 | the turns of all bosses; every `find` succeeds |
| GameStateModel.GameState.CheckWinCondition | R-Type/src/GameState.cpp:298-302 | the win is appended exactly when the game is won |
| GameStateModel.GameState.BeginFrame | R-Type/src/GameState.cpp:369 | an empty frame |
| GameStateModel.GameState.Update | R-Type/src/GameState.cpp:339-360 | the whole update is the function of the rules, and no stage raises the invalid-id exception |
| GameStateModel.GameState.RunFrame | R-Type/src/GameState.cpp:366-374 | the frame is stored unsent under the next number, with the text of its events |
| Replication.SentFramePlaysInOrder | Server/src/Server.cpp:230-236 | every frame the server can send, with or without the dump, plays in three passes as it reads in order |
| Replication.LooksAgree | Client/src/Client.cpp:85-93 | the type byte the server sends for a kind is the one to which the client's own table gives that kind's texture |
| Replication.OnlyChangesAreSent | Server/src/Server.cpp:260-284 | a position is sent with a frame if and only if it is that of a live entity and differs from the one sent last |
| Replication.FrameKeepsStep | Server/src/Server.cpp:269-284 | a client in step with the state before an update is in step after playing its frame; the cache agrees with every live position; the missing set only loses members |
| Replication.TurnKeepsStep | Server/src/Server.cpp:225-238 | the same through the text of the frame and the client's parser |
| Replication.RunKeepsServer | Server/src/Server.cpp:219-244 | along every run the state stays sound, the cache right and identifiers never fall back |
| Replication.RunKeepsStep | Client/src/Client.cpp:377-388 | along every run a client in step stays in step |
| Replication.EndToEnd | Client/src/Client.cpp:84-137 | over every run from the start a client that gets every frame shows exactly the live entities, each at its position and with the texture of its kind |
| Replication.RunShowsOnce | Client/src/Client.cpp:95-106 | along every run a client shows nothing twice |
| Skipping.ContentMakesUp | Server/src/Server.cpp:226-229 | the packets of the next frame sent, played on sprites that were in step before the skipped ones, give the live entities if and only if nothing created in the skipped frames still lives, but for what a dump carries, and nothing shown died in them |
| Skipping.PassesExactlyWhatWasSent | Client/src/Client.cpp:379-387 | whatever the network does, playback passes a frame number if and only if its frame was sent and has arrived |
| Skipping.SkipStopsPlayback | Server/src/Server.cpp:226-228 | a client never gets past the first skipped number: it shows a state up to it, and at it no turn whose clock fires is possible any more |
| Network.AnyDelivery | Client/src/Client.cpp:254-387 | the same when the network duplicates, reorders and delays frames and control packets, and keys are pressed: the sprites are the live entities of the frame last played, but for exactly those lacking since the sprites were last taken away |
| Network.AnyDeliveryKeepsStep | Client/src/Client.cpp:254-387 | the general form, from any state a client is in step with but for a missing set |
| Network.AnyDeliveryToLateJoiner | Server/src/Server.cpp:231-234 | the same for a client that joins a running game: it lacks exactly what was live at its start, or its last clearing, and lives still, but for what a dump has carried since |
| Network.InStepExactlyWhen | Client/src/Client.cpp:139-151 | a client that began with the first frame shows exactly the live entities if and only if its sprites were never taken away since, or everything live at the last clearing has died since or been carried by a dump |
| Network.LateLobbyPacket | Server/src/Server.cpp:155-158 | the failing input: the packet for a game not started, arriving at a client that plays, leaves the lobby and no entity |
| Network.WinIsShown | R-Type/src/GameState.cpp:298-302 | a frame tells the client of the win exactly when the game is won |
| LateJoin.RunSurvivor | R-Type/src/GameState.cpp:142-176 | an entity that outlives a run kept its kind, and a bullet flew one step in each turn |
| LateJoin.BulletsOnField | R-Type/src/GameState.cpp:143-155 | every player bullet, old or new, ends every update at 1500 or less |
| LateJoin.BulletsAreGone | R-Type/src/GameState.cpp:142-176 | a bullet is gone after at most as many turns as its distance to the border allows |
| LateJoin.MissingAlongRun | Server/src/Server.cpp:230-236 | along every run a client that had no entity is missing exactly what was live at its start and lives still, but for the kinds a dump carries if one was sent |
| LateJoin.DumpCarriesTheRest | Server/src/Server.cpp:185-208 | once a dump was sent, that is exactly the old enemy bullets |
| LateJoin.LateJoiner | Server/src/Server.cpp:231-234 | a client that joins with the dump is in step but for the old enemy bullets, and none of them is left once the run is long enough |
| LateJoin.DumpNeedsRecordCount | Server/src/Server.cpp:231-233 | the dump is sent if and only if more clients are connected than at every send before |
| LateJoin.ReplacementGetsNoDump | Server/src/Server.cpp:221-233 | two clients, one leaves, another joins: no dump |
| Victory.Conservation | R-Type/src/GameState.cpp:339-360 | an update lowers the hits left (waves and bosses to come, live enemies, lives of bosses) by the hits it scores and by nothing else, and announces the win exactly when the game is won |
| Victory.WonWhenNothingLeft | R-Type/src/GameState.cpp:298-300 | the game is won exactly when no hit is left and, if waves are empty, all of them have been counted |
| Victory.WinIsForEver | R-Type/src/GameState.cpp:298-302 | once won, every later update announces the win again |
| Shots.RunConservation | R-Type/src/GameState.cpp:178-205 | along every run hits scored and hits left add up to a constant |
| Shots.WinAfterAllHits | R-Type/src/GameState.cpp:298-302 | from the start, a frame announces the win exactly when all hits of all waves and bosses have been scored |
| Shots.RunCapped | R-Type/src/GameState.cpp:239-284 | along every run there are at most five enemy bullets more than the enemies' own cap |
| Patrol.EnemyTurnsMarch | R-Type/src/GameState.cpp:220-237 | in a round the enemies make the next moves of one shared patrol, in the order of their identifiers |
| Patrol.SquareWalk | R-Type/src/GameState.cpp:224-237 | where the sum of the first moves of the patrol is after any number of them: on a square with side 26 |
| Patrol.UndoneAfter26 | R-Type/src/GameState.cpp:234-237 | with an odd number of enemies each round is undone 26 rounds later |
| Patrol.PatrolReturns | R-Type/src/GameState.cpp:207-237 | 52 rounds bring an enemy back if and only if the number of enemies is not a multiple of four |
| Patrol.PatrolDrifts | R-Type/src/GameState.cpp:207-237 | otherwise every 13 rounds add the same displacement, which is not nothing |
| Patrol.ClockLaw | R-Type/src/GameState.cpp:207-237 | along every run of the game, whoever spawns and dies, after k moves of single enemies the direction is (k / 13) mod 4 and the distance 2 (k mod 13) |
| Patrol.PatrolLaw | R-Type/src/GameState.cpp:207-246 | from every reachable state on, over every run that keeps its live enemies, the enemy of rank r among n makes every n-th move of the shared patrol from the (k+r)-th on, and nothing else |
| Patrol.BackInPlace | R-Type/src/GameState.cpp:207-246 | from every reachable state on, after 52 rounds over the same enemies each is back in place if and only if their number is not a multiple of four |
| Players.ActAllMoves | R-Type/src/GameState.cpp:393-418 | an owned entity is moved by its client's actions only |
| Players.ActAllSpares | R-Type/src/GameState.cpp:378-418 | no action changes an entity that no client owns |
| Players.DisconnectionIsOwn | R-Type/src/GameState.cpp:328-337 | a disconnection kills the client's own player and nothing else |
| Players.QueueTurn | R-Type/src/GameState.cpp:52-74 | an update consumes the known actions and keeps the others in order |
| Players.SpawnPoints | R-Type/src/GameState.cpp:293 | where the player of each new client starts, and under which identifier |
| Players.SpawningTurn | R-Type/src/GameState.cpp:339-345 | a player that outlives the turn it spawns in is at its spawn point plus what its client's actions of that turn move it |
| Players.MotionOn | R-Type/src/GameState.cpp:393-418 | along every run an owned player that lives on has moved by 3 times its client's rights minus lefts and downs minus ups, whoever else sent actions, and stays its client's |
| Players.MotionLaw | R-Type/src/GameState.cpp:393-418 | over every run of the game, a living player spawned for a client is at (100 (client + 1), 100) plus 3 times rights minus lefts and downs minus ups its client sent from the spawning turn on |
| Leaving.RemovedExactlyWhen | R-Type/src/GameState.cpp:304-326 | a client's player is removed if and only if the count dropped, the client was there and is there no more |
| Leaving.ReplacedKeepsItsPlayer | R-Type/src/GameState.cpp:306-309 | a leaver that is replaced between two checks keeps its player |
| Leaving.NeverOwnsAgain | R-Type/src/GameState.cpp:106 | along every run an identifier whose player was removed never gets another |
| Leaving.EveryClientPlays | R-Type/src/GameState.cpp:291-294 | at the start every client gets a player if and only if no free identifier is below the number of clients |
| ClientIds.ConnectKeeps | Server/src/Server.cpp:124-143 | a known endpoint changes nothing; a new one gets an identifier nobody holds; partition, distinct endpoints and record keys are kept |
| ClientIds.DisconnectKeeps | Server/src/Server.cpp:161-183 | a leaver frees its own identifier and nobody else's |
| ClientIds.CountIsPeak | Server/src/Server.cpp:134-138 | in every history the number of identifiers made is the largest number of clients connected at once |
| ClientIds.ReusedInOrder | Server/src/Server.cpp:134-136 | freed identifiers go to newcomers first freed first |
| Senders.RunKeepsDesk | Server/src/Server.cpp:87-97 | along every run of datagrams and handled packets the endpoint kept is that of the newest packet still there, and the client book stays valid |
| Senders.ActsForItsSenderExactlyWhen | Network/src/PacketHandler.cpp:105 | in every reachable state a packet acts for its sender if and only if no newer one is waiting or the newest is from the same sender; said of actions, connections and departures by what they change |
| Senders.ActsForSomebodyElse | Network/src/PacketHandler.cpp:240-256 | the failing input: a key press followed by another client's datagram is queued as an action of the other client |
| Senders.KeysMean | Network/src/PacketHandler.cpp:205-223 | the bytes 16 to 19 and 6 of a connected client in a running game queue one action each, a move by 3 to the right, left, up, down or a shot; no other packet queues any, nor does any before the game runs or from a stranger |
| Senders.StartMeans | Network/src/PacketHandler.cpp:117-127 | the game runs after a packet if and only if it ran before or the packet is of type 3 |
| Senders.AnswersMean | Server/src/Server.cpp:145-183 | 1 connects and is answered by 30 or 31, 2 disconnects and is answered by 0 only if a stranger sent it, nothing else is answered or changes the clients |
| ServerModel.Server.constructor | Server/src/Server.cpp:22-27 | no clients, no queues, not running |
| ServerModel.Server.CreatePacket | Server/src/Server.cpp:111-122 | the loop builds type byte, separator and data |
| ServerModel.Server.Broadcast | Server/src/Server.cpp:52-58 | a message goes to the end of the queue |
| ServerModel.Server.FindClient | Server/src/Server.cpp:130-133 | the identifier of an endpoint, if it is connected |
| ServerModel.Server.HandleReceive | Server/src/Server.cpp:87-97 | a datagram's packet is queued without its sender, whose endpoint replaces the one kept |
| ServerModel.Server.CreateClient | Server/src/Server.cpp:124-143 | the allocation step on the fields |
| ServerModel.Server.ReqConnectData | Server/src/Server.cpp:145-159 | the allocation and the answer, which tells whether the game runs |
| ServerModel.Server.DisconnectData | Server/src/Server.cpp:161-183 | the release, or the NONE answer to a stranger |
| ServerModel.Server.SendAllEntitiesToNewClients | Server/src/Server.cpp:185-208 | the dump as text, in the order of the identifiers |
| ServerModel.Server.HasPositionChanged | Server/src/Server.cpp:260-267 | the answer and the cache afterwards |
| ServerModel.Server.EntityPacket | Server/src/Server.cpp:199-200 | an entity's packet at its place |
| ServerModel.Server.PacketFactory | Server/src/Server.cpp:269-284 | the changes as text, and the cache refreshed for every live entity |
| ServerModel.Server.Find | Server/src/Server.cpp:287 | whether a text holds another |
| ServerModel.Server.SendFrame | Server/src/Server.cpp:286-290 | the frame is queued, and stored if the test finds the marker text |
| ServerModel.Server.ResendImportPackets | Server/src/Server.cpp:210-217 | the filter that is meant: stored frames younger than 10 ms are sent again in order, the others dropped |
| ServerModel.ResentExactly | Server/src/Server.cpp:210-217 | exactly the stored frames younger than 10 ms are sent again, each once and by number, and exactly they stay stored |
| ServerModel.Server.SendLatencyCheck | Server/src/Server.cpp:246-257 | the clock value is queued when the interval is over |
| ServerModel.Server.SendNewest | Server/src/Server.cpp:225-239 | the newest frame is sent once: number, story, dump for newcomers, changes |
| ServerModel.Server.RunOnce | Server/src/Server.cpp:223-243 | one turn of the server loop: what is queued, in order, and the new cache, client count, stored frames and sent mark |
| ServerModel.Server.HandleSendTimer | Server/src/Server.cpp:297-306 | the oldest message goes to the clients |
| ServerModel.Server.ReceiveActions | Network/src/PacketHandler.cpp:256 | the actions that arrive between two updates join the queue in order |
| ServerModel.Server.FrameThenSend | Server/src/Server.cpp:223-243 | a turn of game and server objects is exactly one turn of the replication model, with exactly its message, and stores nothing for resending |
| ServerModel.EveryClientOnce | Server/src/Server.cpp:303-305 | a message goes to every connected endpoint, once, and to no other |
| PacketHandlerModel.PacketHandler.HandleImportantPacketReceived | Network/src/PacketHandler.cpp:77-93 | exactly the acknowledged frame is forgotten, a malformed acknowledgement changes nothing |
| PacketHandlerModel.PacketHandler.HandlePlayerAction | Network/src/PacketHandler.cpp:230-260 | an action is queued under the identifier of the endpoint received from last, if the game runs and that endpoint is known |
| PacketHandlerModel.PacketHandler.ReqConnect | Network/src/PacketHandler.cpp:101-107 | the endpoint received from last is connected and answered |
| PacketHandlerModel.PacketHandler.HandleDisconnected | Network/src/PacketHandler.cpp:109-115 | the endpoint received from last is disconnected, or answered if it is a stranger |
| PacketHandlerModel.PacketHandler.HandleGameStart | Network/src/PacketHandler.cpp:117-127 | the game runs from then on, everybody is told, and the player count is that of the clients |
| PacketHandlerModel.PacketHandler.TakePacket | Network/include/ThreadSafeQueue.hpp:35-41 | the oldest packet leaves the queue |
| PacketHandlerModel.PacketHandler.HandlePacket | Network/src/PacketHandler.cpp:43-75 | what each packet type changes and answers, for the endpoint received from last, and that it changes nothing else |
| PacketHandlerModel.PacketHandler.Do | Network/src/PacketHandler.cpp:36-41 | reception, `pop` and handling do exactly the moves of the queue model |
| Marker.MarkerNeverSent | Server/src/Server.cpp:287 | no frame, whatever it carries, holds the text the server looks for |
| Marker.IntendedTest | Server/src/Server.cpp:286-288 | the test on the packet as it is sent finds exactly the frames with a mark |
| Reliability.MarksCount | R-Type/src/GameState.cpp:125-138 | a frame has as many marks as creations and deletions |
| Reliability.AckLoop | Client/src/Client.cpp:244-245 | a client that takes in any frame sent queues as many messages as the update created and deleted entities, each with the type 34 and read by the server as that frame's number |
| Reliability.NothingIsStored | Server/src/Server.cpp:286-288 | no frame of any run is stored for resending |
| SparseArrays.SlotsAfter | ECS/components/SparseArray.hpp:28-77 | growing changes no slot, writing and erasing only the one named |
| SparseArrays.LengthsAfter | ECS/components/SparseArray.hpp:48-77 | the array is no longer than it must be |
| SparseArrays.SparseArray.Resize | ECS/components/SparseArray.hpp:48-51 | new slots are empty, old ones stay |
| SparseArrays.SparseArray.At | ECS/components/SparseArray.hpp:28-33 | the slot, with the array grown if need be |
| SparseArrays.SparseArray.InsertAt | ECS/components/SparseArray.hpp:48-62 | the component is at its place, the array long enough |
| SparseArrays.SparseArray.EmplaceAt | ECS/components/SparseArray.hpp:64-71 | the same |
| SparseArrays.SparseArray.Erase | ECS/components/SparseArray.hpp:73-77 | the slot is empty, beyond the end nothing happens |
| SparseArrays.SparseArray.GetIndex | ECS/components/SparseArray.hpp:79-85 | the first index of a value, or none |
| Registries.SpawnIsBlank | ECS/Registry.hpp:24-31 | a spawned entity did not exist, has no component and disturbs no other |
| Registries.KillNeedsExistence | ECS/Registry.hpp:37-42 | a kill keeps the registry clean if and only if the entity exists |
| Registries.SpawnAfterKill | ECS/Registry.hpp:24-42 | the identifier killed last is spawned next |
| Registries.AddIsLocal | ECS/Registry.hpp:80-94 | a component goes to its entity and array and nowhere else |
| Registries.RemoveIsLocal | ECS/Registry.hpp:96-99 | so does a removal |
| Registries.RegisterIsBlank | ECS/Registry.hpp:44-54 | a registered type has no components, the others keep theirs |
| Registries.RecyclingIsTight | ECS/Registry.hpp:24-42 | in every history that kills only existing entities the registry stays clean, and the identifiers made are as many as were alive at once at the peak |
| Registries.Registry.constructor | ECS/Registry.hpp:132-135 | nothing alive, nothing registered |
| Registries.Registry.Copy | R-Type/src/Entity/GeneralEntity.cpp:10 | a copy has the same content and shares nothing |
| Registries.Registry.SpawnEntity | ECS/Registry.hpp:24-31 | the step on the fields |
| Registries.Registry.KillEntity | ECS/Registry.hpp:37-42 | the loop over the registered types erases the entity everywhere |
| Registries.Registry.RegisterComponent | ECS/Registry.hpp:44-54 | the step on the arrays and erase functions |
| Registries.Registry.AddComponent | ECS/Registry.hpp:80-86 | the component is added, or the exception leaves everything as it was |
| Registries.Registry.EmplaceComponent | ECS/Registry.hpp:88-94 | the same |
| Registries.Registry.RemoveComponent | ECS/Registry.hpp:96-99 | the component is removed, or the exception leaves everything as it was |
| Registries.Registry.GetComponent | ECS/Registry.hpp:56-68 | the slot of an entity, or the error for an unregistered type; the array grows if need be and nothing else changes |
| Registries.Registry.HasComponentOf | ECS/Registry.hpp:114-125 | true exactly for an existing entity with a component of a registered type |
| Registries.Registry.EntityExists | ECS/Registry.hpp:127-129 | true exactly for identifiers made and not dead |
| GeneralEntities.AddAllIsLocal | R-Type/src/Entity/GeneralEntity.cpp:20-56 | the components of a new entity are those of its kind, nobody else's change |
| GeneralEntities.KitIs | R-Type/src/Entity/GeneralEntity.cpp:20-56 | which components each kind has and has not, and their values |
| GeneralEntities.GeneralEntity.Spawned | R-Type/src/Entity/GeneralEntity.cpp:10-11 | a copy of the registry with one blank entity more |
| GeneralEntities.GeneralEntity.constructor | R-Type/src/Entity/GeneralEntity.cpp:10-13 | a new entity has the place, the lives and the components of its kind, in a registry that shares nothing with the given one |
| GeneralEntities.GeneralEntity.Copy | R-Type/src/GameState.cpp:179 | an entity of a snapshot has the same value and shares nothing |
| GeneralEntities.GeneralEntity.AddComponents | R-Type/src/Entity/GeneralEntity.cpp:20-56 | the components of each kind, and three lives for a boss |
| GeneralEntities.GeneralEntity.Move | R-Type/src/Entity/GeneralEntity.cpp:58-66 | the position moves by the offset and the entity stays placed; without a position nothing happens |
| GeneralEntities.GeneralEntity.SetNumberOfLives | R-Type/src/Entity/GeneralEntity.cpp:96-98 | only the lives change |
| GeneralEntities.GeneralEntity.Destroy | R-Type/src/Entity/GeneralEntity.cpp:15-18 | the entity is gone and the registry clean, also when it was killed before |
| Locks.ScriptsAreDisciplined | Network/src/PacketHandler.cpp:77-260 | every activity of every thread acquires in rising rank, releases last acquired first and ends with nothing held |
| Locks.ReachableOk | Server/src/Server.cpp:223-243 | in every reachable state no mutex has two holders and every thread keeps the discipline |
| Locks.TurnsAreAtomic | R-Type/src/GameState.cpp:366-374 | in every reachable state at most one turn of the server's loop or of a game loop is under way, and it excludes every other holder of the server's mutex |
| Locks.LocksAreNeeded | Network/src/PacketHandler.cpp:77-260 | every activity and every packet's handling takes exactly the mutexes of what it touches |
| Locks.NoDeadlock | R-Type/src/GameState.cpp:366-374 | in every reachable state, with any number of game threads, a thread that waits for a mutex waits behind another that can step |
| Locks.EveryMutexCanBeFreed | Network/src/PacketHandler.cpp:77-131 | from every reachable state the holders alone can finish, and then no mutex is held |
| Locks.ReceivedInOrder | Network/include/ThreadSafeQueue.hpp:25-41 | packets are handled once and in the order received, and no wake-up is lost |

## Left out

- Sockets, timers, compression and exceptions of the network library: messages are the texts before compression, and the network is a step that may duplicate, reorder, delay or lose them.
- SFML: windows, textures, sounds, fonts, the keyboard and the mouse; of a sprite its identifier, look and position are kept. Of the keys and the mouse, what they do to the sprites is modelled: Escape and the click on the start button.
- Clocks and `rand`: whether a move clock has fired, where enemies and bosses appear, which way a boss turns and who shoots are inputs.
- Rounding of `float`: positions are exact millionths. `stof` is modelled on decimal text without exponents, and drops digits after the sixth decimal.
- Integer overflow of identifiers and counters: they are unbounded, and theorems about sent identifiers require them to fit.
- The boss's own `direction` and `distanceMoved`: nothing observable depends on them, since a boss rolls its heading anew for every move.
- The live map of the game object holds entity values; that an entity object with its own registry behaves as such a value is proved beside it (`GeneralEntities`).
- The frame under construction is a field of the game object instead of a reference handed from method to method.
- Several game threads: a second GAME_START starts a second loop that numbers its frames from 0 again; the lock model has any number of them, the run theorems have one.
- Data races on fields read without a lock, such as the client list size in the server loop.
- The start-up time of 600 milliseconds is a flag, the age of a stored frame an input.
- ServerModel.Server.ResendImportPackets: `resendImportPackets` erases from a map while iterating over it, which C++ leaves undefined; the filter that is meant is modelled.
- Replication.EndToEnd: assumes that every frame is sent before the next update, because the server loop sends only the newest one; what happens when it does not is Skipping.SkipStopsPlayback.
- ClientModel.Client.MainLoopTurn: requires the frame to be played, because the program uses the result of its search unchecked.
- Locks.ReceivedInOrder: tells packets apart only by the locks their handling takes.
- `Pong.cpp` repeats the spawn, kill and frame machinery with fewer states.
- The collision, projectile, control, draw and position systems: neither game registers them.
- The handlers that only log, the packet structures and the accessors of player actions.
