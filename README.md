# Arena simulation core, modelled in Dafny

This project models the core of a small multiplayer arena game. Players steer around a
circular arena, dash, tag other players to slow them, and collect orbs that respawn.
The model covers three parts:

- **The server tick.** `World.update(deltaMs)` does the following in order:
  - tops the orbs up to the starting count;
  - ticks the respawn queue;
  - for every player in map order, consumes the latest buffered intent, runs dash, tag, acceleration, friction, speed cap, integration, arena clamp and timers, then collects orbs in reach;
  - separates overlapping players;
  - advances the clock.

  The `Player` entity and the shared `normalizeDirection` are modelled with it.
- **The client's network bookkeeping.** This covers the mirrored players and orbs, one smoothed `InterpolatedPlayer` per remote player, the input sequence counter and its reconciliation, and the display colours.
- **The canvas demo's input helpers.** This covers the keyboard and joystick directions, their combination, and the per-frame step of the drawn player.

Each source module has a matching Dafny module:

| file | module | what it holds |
|---|---|---|
| `geometry.dfy` | `Geometry` | `Math.hypot` as `Hypot` over a square-root parameter, and its algebra |
| `wrappers.dfy` | `Wrappers` | `Option` |
| `sequences.dfy` | `Sequences` | duplicate-free id lists and deletion from them, shared by the server and client models |
| `input.dfy` | `Input` | `InputIntent` and `normalizeDirection` |
| `player.dfy` | `PlayerModel` | the value `PlayerState`, its step functions, and the class `Player` proved against them |
| `world_spec.dfy` | `WorldSpec` | the room state as a value, and every step of `World` as a function |
| `world_props.dfy` | `WorldProps` | what the tick promises, proved on `WorldSpec` |
| `world_model.dfy` | `WorldModel` | the class `World` with the original's loops; each method is proved to move `Abstract()` exactly as the matching `WorldSpec` function |
| `interpolation.dfy` | `Interpolation` | `InterpolatedPlayer`, its value `View` and its convergence lemmas |
| `game_client.dfy` | `Client` | `GameClient`'s bookkeeping as a class over a `ClientState` snapshot |
| `canvas.dfy` | `Canvas` | the helpers of `GameCanvas.tsx` and a class holding its refs and state |

Design choices that run through the model:

- **Square roots.** Lengths need a square root, which Dafny's `real` does not have. Every member that measures a length takes `sqrt` as a parameter together with `IsSqrt(sqrt)`: it is the non-negative square root on the non-negative reals. `Math.pow(FRICTION, 1.5)` is `FRICTION * sqrt(FRICTION)`.
- **Randomness.** Random numbers are inputs:
  - `addPlayer` takes its two `Math.random()` results as parameters;
  - orb placement reads a stream `draw: nat -> OrbDraw` of (`nanoid`, point) pairs, and the room counts how many it has used (`drawn`).
- **Exact arithmetic.** Numbers are exact reals.

## Model

| member | source | states |
|---|---|---|
| Input.NormalizeDirection | packages/shared/src/input.ts:9-15 | The zero vector gives (0, 0, 0). Any other vector gives its unit direction and its length: each component keeps its sign, and direction times length is the input. |
| PlayerModel.Initial | apps/server/src/game/Player.ts:10-47 | A new player has non-negative timers, no tagger, is not dashing and may dash. |
| PlayerModel.ClampedPosition | apps/server/src/game/Player.ts:73-82 | `clampPosition` changes nothing but position and velocity. |
| PlayerModel.ClampInside | apps/server/src/game/Player.ts:73-82 | A player within the radius is left exactly as it was. |
| PlayerModel.ClampOutside | apps/server/src/game/Player.ts:73-82 | A player beyond the radius is put on the circle along the same ray (position scaled by radius / distance) and its velocity is zeroed. |
| PlayerModel.ClampBound | apps/server/src/game/Player.ts:73-82 | After `clampPosition` the player is within the radius. |
| PlayerModel.TimersTicked | apps/server/src/game/Player.ts:84-92 | Each of the four timers drops by `deltaMs` and stops at zero, never rising for a non-negative delta. The tagger is kept while the slow lasts and cleared when the slow is zero. Nothing else changes. |
| PlayerModel.DashTriggered | apps/server/src/game/Player.ts:102-106 | The three dash timers take the given values; every other field is unchanged. |
| PlayerModel.TagSlowApplied | apps/server/src/game/Player.ts:108-111 | The slow timer and the tagger take the given values; every other field is unchanged. |
| PlayerModel.FrictionScalesSpeed | apps/server/src/game/Player.ts:49-56 | Friction multiplies the speed by its factor; a factor at most 1 never increases it. |
| PlayerModel.DashEndsBeforeCooldown | apps/server/src/game/Player.ts:94-106 | A dash shorter than its cooldown makes the player dashing (for a positive duration) and unable to dash. Once the dash has run out, the cooldown still blocks the next one. |
| PlayerModel.Player.constructor | apps/server/src/game/Player.ts:43-47 | The new object's fields are the initial player state. |
| PlayerModel.Player.Speed | apps/server/src/game/Player.ts:49-51 | The speed is non-negative, its square is vx² + vy², and it is zero exactly at rest. |
| PlayerModel.Player.ApplyFriction | apps/server/src/game/Player.ts:53-56 | Both velocity components are multiplied by the factor; all other fields are kept. |
| PlayerModel.Player.AddVelocity | apps/server/src/game/Player.ts:58-61 | The velocity grows by (dx, dy); all other fields are kept. |
| PlayerModel.Player.SetVelocity | apps/server/src/game/Player.ts:63-66 | The velocity becomes (vx, vy); all other fields are kept. |
| PlayerModel.Player.AddPosition | apps/server/src/game/Player.ts:68-71 | The position moves by (dx, dy); all other fields are kept. |
| PlayerModel.Player.ClampPosition | apps/server/src/game/Player.ts:73-82 | The fields follow `ClampedPosition`, and the player ends within the radius. |
| PlayerModel.Player.TickTimers | apps/server/src/game/Player.ts:84-92 | The fields follow `TimersTicked`: timers end non-negative and the tagger is consistent with the slow timer. |
| PlayerModel.Player.TriggerDash | apps/server/src/game/Player.ts:102-106 | The fields follow `DashTriggered`. |
| PlayerModel.Player.ApplyTagSlow | apps/server/src/game/Player.ts:108-111 | The fields follow `TagSlowApplied`. |
| WorldSpec.EmptyWorld | apps/server/src/game/World.ts:39-49 | A new room has its players map and iteration order in step. |
| WorldSpec.PlayerAdded | apps/server/src/game/World.ts:51-57 | `addPlayer` keeps the room well-formed, adds exactly `id` with an empty buffer, and gives the new player zero velocity, zero score, non-negative timers and no tagger. Other players, the orbs, the respawn queue and the clock are unchanged. |
| WorldSpec.PlayerRemoved | apps/server/src/game/World.ts:59-62 | `removePlayer` drops exactly that player and its buffer, keeps the room well-formed, and leaves orbs, respawns and clock alone. |
| WorldSpec.IntentEnqueued | apps/server/src/game/World.ts:64-70 | An intent for a player without a buffer is dropped. Otherwise it is appended to that player's buffer only. |
| WorldSpec.NormalizeIntent | apps/server/src/game/World.ts:72-81 | Sequence, dash flag and tag target are carried over. The direction is `NormalizeDirection(moveX, moveY)`: zero exactly when the move is zero, and otherwise the unit vector pointing along the move. |
| WorldSpec.LatestIndex | apps/server/src/game/World.ts:95-96 | The chosen intent has the greatest sequence, and none after it has an equal one: it is the element a stable ascending sort puts last. |
| WorldSpec.ConsumeIntent | apps/server/src/game/World.ts:83-99 | A missing or empty buffer yields the neutral intent carrying the fallback sequence and changes nothing. Otherwise only this player's buffer is emptied; the set of buffers is unchanged. |
| WorldSpec.Dashed | apps/server/src/game/World.ts:174-186 | The player changes only if the intent asks to dash, the cooldown is over and the direction is nonzero. Then the dash timers are set and the velocity gains direction × boost; nothing else changes. |
| WorldSpec.TagTarget | apps/server/src/game/World.ts:188-199 | A target is chosen exactly when the named id is non-empty, the actor is dashing, and the player with that id exists within the tag radius. |
| WorldSpec.Tagged | apps/server/src/game/World.ts:200-201 | The target is slowed for the configured time, with the actor recorded as tagger, and its velocity is scaled by the slow multiplier. Nothing else changes. |
| WorldSpec.TagResolved | apps/server/src/game/World.ts:188-202 | Without a target, the players are unchanged; with one, only that target is replaced by its tagged state. |
| WorldSpec.Moved | apps/server/src/game/World.ts:204-226 | The movement part of `updatePlayer` keeps the player's id, name and score. |
| WorldSpec.PlayerUpdated | apps/server/src/game/World.ts:204-226 | `updatePlayer` keeps the set of players, and every player's id and score. |
| WorldSpec.Scheduled | apps/server/src/game/World.ts:142-144 | One respawn entry per collected orb, in order, each with the full respawn delay. |
| WorldSpec.SpawnFrom | apps/server/src/game/World.ts:101-120 | Spawning from any attempt adds exactly one orb. |
| WorldSpec.SpawnOrb | apps/server/src/game/World.ts:101-120 | `spawnOrb` adds exactly one orb. |
| WorldSpec.SpawnMany | apps/server/src/game/World.ts:137-139 | `count` spawns add exactly `count` orbs. |
| WorldSpec.ToppedUp | apps/server/src/game/World.ts:136-140 | `ensureInitialOrbs` leaves at least the starting count: exactly that when there were fewer, none added otherwise. Only the orbs and the draw counter change. |
| WorldSpec.Separated | apps/server/src/game/World.ts:243-258 | One collision pair keeps the set of players. |
| WorldSpec.CollideRow | apps/server/src/game/World.ts:244-259 | One row of the nested loop keeps the set of players. |
| WorldSpec.CollideRows | apps/server/src/game/World.ts:240-261 | `resolvePlayerCollisions` keeps the set of players. |
| WorldSpec.PlayerTurn | apps/server/src/game/World.ts:267-271 | One player's turn keeps the set of players, their ids, the iteration order, the set of buffers, the clock and the draw counter. |
| WorldSpec.PlayersPass | apps/server/src/game/World.ts:267-271 | The per-player loop keeps the same things as a single turn. |
| WorldSpec.Tick | apps/server/src/game/World.ts:263-276 | `update` keeps the set of players and their order, and advances the clock by exactly `deltaMs`. |
| WorldProps.SelectsLatestIntent | apps/server/src/game/World.ts:83-99 | From a non-empty buffer, the intent used is the normalised form of one with the greatest sequence, the last-arrived among equals. |
| WorldProps.LatestIndexUnique | apps/server/src/game/World.ts:95-96 | Exactly one position satisfies "greatest sequence, nothing equal after it"; the scan finds that one. |
| WorldProps.TagChangesOnlyTarget | apps/server/src/game/World.ts:188-202 | `resolveTagging` changes a player only if the intent names it (non-empty), the actor is dashing and it is within the tag radius. It is then exactly the tagged state. |
| WorldProps.AccelerationBounded | apps/server/src/game/World.ts:157-172 | `applyAcceleration` changes the velocity by exactly min(gap to direction × MAX_SPEED, acceleration × seconds), and nothing else. |
| WorldProps.SpeedCapBound | apps/server/src/game/World.ts:213-218 | After the cap, the speed is at most the limit (MAX_SPEED, plus DASH_SPEED_BOOST while dashing). A velocity already within the limit is untouched. |
| WorldProps.MovedBounds | apps/server/src/game/World.ts:204-226 | After the movement steps, the player is inside the arena and within the cap's limit. Its timers are non-negative, its tagger is consistent, and `lastProcessedInput` is the consumed sequence. |
| WorldProps.UpdateBounds | apps/server/src/game/World.ts:204-226 | After `updatePlayer` the player is in the arena and at most MAX_SPEED + DASH_SPEED_BOOST. That drops to MAX_SPEED when it is not dashing at the cap, and its `lastProcessedInput` is the consumed sequence. |
| WorldProps.UpdateTouchesOthersOnlyByTag | apps/server/src/game/World.ts:204-209 | Any other player changed by `updatePlayer` is the named target of a dashing player and is exactly its tagged state. |
| WorldProps.KeptTakenMultiset | apps/server/src/game/World.ts:228-238 | The orbs kept and the orbs taken together are the orbs there were, as a multiset. |
| WorldProps.KeptTakenMembers | apps/server/src/game/World.ts:228-238 | An orb is taken exactly when it is in reach, and kept exactly when it is not. |
| WorldProps.KeptTakenPartition | apps/server/src/game/World.ts:228-238 | Both of the above, plus the counts add up. |
| WorldProps.CollectionConserves | apps/server/src/game/World.ts:228-238 | Orb collection keeps live orbs plus pending respawns constant and adds the taken orbs' values to the score. It keeps the old respawn entries and schedules each new one with the full delay. |
| WorldProps.SpawnFromPlaces | apps/server/src/game/World.ts:101-120 | Spawning appends exactly one orb with the score value, at the last draw used, within the attempt budget plus the fallback. A draw placed before the fallback is at a free point. |
| WorldProps.SpawnFromSkipsCrowded | apps/server/src/game/World.ts:102-112 | Every draw passed over before the placed one was crowded. |
| WorldProps.SpawnOrbPlaces | apps/server/src/game/World.ts:101-120 | `spawnOrb` places one orb at the first free point among at most eight draws, or at a ninth, unchecked draw. |
| WorldProps.SpawnManyKeeps | apps/server/src/game/World.ts:101-120 | Repeated spawning only appends: the existing orbs stay, in order. |
| WorldProps.ToppedUpKeepsOrbs | apps/server/src/game/World.ts:136-140 | `ensureInitialOrbs` keeps every existing orb in place. |
| WorldProps.RespawnPartition | apps/server/src/game/World.ts:146-155 | Every pending entry either survives or falls due. |
| WorldProps.SurvivorsPending | apps/server/src/game/World.ts:146-155 | Every surviving entry is an old entry `deltaMs` closer to due, and still positive. |
| WorldProps.RespawnsConserve | apps/server/src/game/World.ts:146-155 | Ticking respawns keeps live orbs plus pending respawns constant, spawning one orb per entry that fell due. |
| WorldProps.SeparatedUntouched | apps/server/src/game/World.ts:243-258 | One pair touches only its two players. It leaves them alone when they coincide or do not overlap. |
| WorldProps.SeparatedPair | apps/server/src/game/World.ts:246-257 | Overlapping players move by equal and opposite amounts along the line between them, apart, each by half the overlap. Their midpoint stays. |
| WorldProps.SeparatedOnlyMoves | apps/server/src/game/World.ts:243-258 | One collision pair changes positions only. |
| WorldProps.CollideRowOnlyMoves | apps/server/src/game/World.ts:244-259 | A row of pairs changes positions only. |
| WorldProps.CollideRowsOnlyMoves | apps/server/src/game/World.ts:240-261 | `resolvePlayerCollisions` changes positions only: score, velocity, timers, tagger and `lastProcessedInput` are kept. |
| WorldProps.TaggedStaysSettled | apps/server/src/game/World.ts:200-201 | Being tagged keeps timers non-negative, the tagger consistent and the speed within MAX_SPEED + DASH_SPEED_BOOST. |
| WorldProps.TurnSettles | apps/server/src/game/World.ts:267-271 | A player's turn settles that player and keeps every settled player settled. |
| WorldProps.PassKeepsSettled | apps/server/src/game/World.ts:267-271 | The per-player loop keeps a settled player settled. |
| WorldProps.PassSettles | apps/server/src/game/World.ts:267-271 | After the per-player loop every player that had a turn is settled. |
| WorldProps.CollisionsKeepSettled | apps/server/src/game/World.ts:240-261 | Collision resolution keeps settled players settled. |
| WorldProps.TickWellFormed | apps/server/src/game/World.ts:263-276 | `update` keeps the players map and its order in step, each player stored under its own id. |
| WorldProps.TickSettles | apps/server/src/game/World.ts:263-276 | After `update` every timer is non-negative, whatever the state before. With a positive slow duration, a player has a tagger exactly while slowed; with a slow multiplier in [0, 1], no player exceeds MAX_SPEED + DASH_SPEED_BOOST. |
| WorldProps.TurnConserves | apps/server/src/game/World.ts:267-271 | One player's turn keeps live orbs plus pending respawns constant. |
| WorldProps.PassConserves | apps/server/src/game/World.ts:267-271 | The per-player loop keeps live orbs plus pending respawns constant. |
| WorldProps.TickConservesOrbs | apps/server/src/game/World.ts:263-276 | After `update`, live orbs plus pending respawns equal the count after topping up plus the pending respawns before. |
| WorldProps.TurnRecordsSequence | apps/server/src/game/World.ts:267-271 | A player's turn records the sequence its buffer selects, empties only its own buffer, and leaves the others' `lastProcessedInput` alone. |
| WorldProps.PassRecordsSequence | apps/server/src/game/World.ts:267-271 | In the loop, each listed player records its selected sequence. An unlisted player keeps its buffer and sequence. |
| WorldProps.TickRecordsSequence | apps/server/src/game/World.ts:263-276 | After `update` each player's `lastProcessedInput` is the sequence of its latest buffered intent. It is unchanged when the buffer was empty or missing. |
| WorldModel.LatestOf | apps/server/src/game/World.ts:95-96 | The scan returns the index a stable ascending sort by sequence puts last. |
| WorldModel.SeparatePair | apps/server/src/game/World.ts:245-258 | The inner loop body computes exactly one collision pair's effect. |
| WorldModel.ResolveCollisions | apps/server/src/game/World.ts:240-261 | The nested loop over all pairs i < j computes `CollideRows`. |
| WorldModel.World.constructor | apps/server/src/game/World.ts:39-49 | A new room is the empty, well-formed state. |
| WorldModel.World.AddPlayer | apps/server/src/game/World.ts:51-57 | The room moves as `PlayerAdded` says and stays well-formed. |
| WorldModel.World.RemovePlayer | apps/server/src/game/World.ts:59-62 | The room moves as `PlayerRemoved` says and stays well-formed. |
| WorldModel.World.EnqueueIntent | apps/server/src/game/World.ts:64-70 | The room moves as `IntentEnqueued` says. |
| WorldModel.World.ProcessIntentQueue | apps/server/src/game/World.ts:83-99 | The intent and the buffers are those of `ConsumeIntent`; nothing else changes. |
| WorldModel.World.IsSpaceFree | apps/server/src/game/World.ts:122-134 | The two loops answer true exactly when no player and no orb is too close. |
| WorldModel.World.SpawnOrb | apps/server/src/game/World.ts:101-120 | The attempt loop produces `SpawnOrb`'s orbs and draw count; nothing else changes. |
| WorldModel.World.EnsureInitialOrbs | apps/server/src/game/World.ts:136-140 | The loop produces `ToppedUp`. |
| WorldModel.World.ScheduleOrbRespawn | apps/server/src/game/World.ts:142-144 | One entry with the full delay is appended to the respawn queue; nothing else changes. |
| WorldModel.World.TickOrbRespawns | apps/server/src/game/World.ts:146-155 | The backward loop with in-place removal produces `RespawnsTicked`. |
| WorldModel.World.ResolveDash | apps/server/src/game/World.ts:174-186 | Only that player changes, as `Dashed` says. |
| WorldModel.World.ResolveTagging | apps/server/src/game/World.ts:188-202 | The players change as `TagResolved` says; nothing else changes. |
| WorldModel.World.ApplyAcceleration | apps/server/src/game/World.ts:157-172 | Only that player changes, as `Accelerated` says. |
| WorldModel.World.UpdatePlayer | apps/server/src/game/World.ts:204-226 | The players change as `PlayerUpdated` says; nothing else changes. |
| WorldModel.World.CheckOrbCollection | apps/server/src/game/World.ts:228-238 | The backward scan gives the player, orbs and respawn queue of `Collected`; nothing else changes. |
| WorldModel.World.ResolvePlayerCollisions | apps/server/src/game/World.ts:240-261 | Only the players change, as `CollideRows` over the map order says. |
| WorldModel.World.RunPlayers | apps/server/src/game/World.ts:267-271 | The per-player loop produces `PlayersPass` over the map order. |
| WorldModel.World.Update | apps/server/src/game/World.ts:263-276 | The room moves as `Tick` says and stays well-formed, so every `WorldProps` fact about `Tick` holds of it. |
| Interpolation.Fresh | apps/client/src/network/InterpolatedPlayer.ts:12-33 | A new smoothed player sits at the origin with a zero target, zero score, no tagger and no slow. |
| Interpolation.Approach | apps/client/src/network/InterpolatedPlayer.ts:50-54 | For a fraction in [0, 1], the step lands between the current value and the target, and the remaining gap is the old gap times 1 − f. It reaches the target exactly when f = 1 (or it was there), and stays put exactly when f = 0 (or it was there). |
| Interpolation.AuthoritativeKeepsDrawn | apps/client/src/network/InterpolatedPlayer.ts:35-43 | `setAuthoritativeState` does not move the drawn point, and what it sets does not depend on the previous target. |
| Interpolation.SnapReachesTarget | apps/client/src/network/InterpolatedPlayer.ts:45-48 | After a snap the player is drawn at the target. Snapping is idempotent, and a no-op exactly when already at the target. |
| Interpolation.FirstSightSnaps | apps/client/src/network/InterpolatedPlayer.ts:30-48 | A player first seen with a state and snapped is drawn at that state's position. |
| Interpolation.AdvanceNoOvershoot | apps/client/src/network/InterpolatedPlayer.ts:50-54 | `update` never overshoots and changes only the drawn point. |
| Interpolation.AdvanceShrinksGap | apps/client/src/network/InterpolatedPlayer.ts:50-54 | `update` multiplies the distance to the target by 1 − f, so it never grows. |
| Interpolation.AdvanceFixedPoints | apps/client/src/network/InterpolatedPlayer.ts:50-54 | `update` changes nothing exactly when the player is at its target or no time passed. |
| Interpolation.AdvancedMany | apps/client/src/network/InterpolatedPlayer.ts:50-54 | Repeated updates change only the drawn point. |
| Interpolation.AdvancedManyApproaches | apps/client/src/network/InterpolatedPlayer.ts:50-54 | With a fixed target, any run of updates never ends further from it. |
| Interpolation.InterpolatedPlayer.constructor | apps/client/src/network/InterpolatedPlayer.ts:12-33 | The new object's fields are `Fresh(id, name)`. |
| Interpolation.InterpolatedPlayer.SetAuthoritativeState | apps/client/src/network/InterpolatedPlayer.ts:35-43 | The fields become `WithAuthoritative` of the old ones. |
| Interpolation.InterpolatedPlayer.SnapToAuthoritative | apps/client/src/network/InterpolatedPlayer.ts:45-48 | The fields become `Snapped` of the old ones. |
| Interpolation.InterpolatedPlayer.Update | apps/client/src/network/InterpolatedPlayer.ts:50-54 | The fields become `Advanced` of the old ones by the lerp factor. |
| Client.FirstSeen | apps/client/src/network/GameClient.ts:203-215 | A newly added player is drawn exactly at its reported position under its session id. Its name falls back to "Player". |
| Client.Reconciled | apps/client/src/network/GameClient.ts:316-318 | Reconciling never lowers the counter, reaches the server's sequence, and is one of the two. |
| Client.PickColor | apps/client/src/network/GameClient.ts:341-350 | After `getPlayerColor` the id has a non-empty colour in the table, and that colour is returned. |
| Client.ColorsAssigned | apps/client/src/network/GameClient.ts:270-283 | Colouring a list of players puts each of them in the table. |
| Sequences.Without | apps/client/src/network/GameClient.ts:238-242 | Deleting a player from the iteration order removes exactly that id and keeps the list duplicate-free. |
| Client.PickColorMemo | apps/client/src/network/GameClient.ts:341-350 | A recorded colour is returned unchanged, and a repeat call gives the same answer. A new id gets palette[size mod 6], and other entries are kept. |
| Client.ColorsAssignedKeeps | apps/client/src/network/GameClient.ts:270-283 | Colouring gives each listed player a colour, never changes a colour already given out, and adds no other entry. |
| Client.ColorsAssignedSettled | apps/client/src/network/GameClient.ts:270-283 | Colouring players that all have colours changes nothing. |
| Client.AdvancedAllApproaches | apps/client/src/network/GameClient.ts:115-119 | `update` keeps the set of players and shrinks every player's distance to its target by the same factor 1 − f. |
| Client.GameClient.constructor | apps/client/src/network/GameClient.ts:16-44 | A new client has no room, players, orbs or colours; the counter is 0 and it is disconnected. |
| Client.GameClient.ColorAll | apps/client/src/network/GameClient.ts:270-283 | Building the snapshot changes only the colour table, to `ColorsAssigned` over the players in order. |
| Client.GameClient.GetPlayerColor | apps/client/src/network/GameClient.ts:341-350 | The returned colour and the new table are those of `PickColor`; nothing else changes. |
| Client.GameClient.Connect | apps/client/src/network/GameClient.ts:69-87 | With a room already joined, nothing changes. A successful join records the session id, marks the client connected and colours the players. A failed join clears everything as `handleDisconnect` does. |
| Client.GameClient.SendInput | apps/client/src/network/GameClient.ts:100-113 | Without a room, nothing changes. Otherwise the counter goes up by one and exactly one intent carrying the new counter is sent. |
| Client.GameClient.Update | apps/client/src/network/GameClient.ts:115-119 | Every tracked player is advanced by the same fraction; nothing else changes. |
| Client.GameClient.OnPlayerAdd | apps/client/src/network/GameClient.ts:203-217 | The player is stored as `FirstSeen`, appended to the order if new, and the colours are refreshed. |
| Client.GameClient.OnPlayerChange | apps/client/src/network/GameClient.ts:219-235 | The target and reported fields are replaced, and the name is kept when none is sent. The counter is reconciled only for the local player with a numeric `lastProcessedInput`. |
| Client.GameClient.OnPlayerRemove | apps/client/src/network/GameClient.ts:238-242 | The player and its colour are forgotten, and the rest is recoloured. |
| Client.GameClient.OnOrbAdd | apps/client/src/network/GameClient.ts:244-252 | The orb is stored under its id. |
| Client.GameClient.OnOrbChange | apps/client/src/network/GameClient.ts:253-261 | A tracked orb takes the new position and value; an untracked one is not re-added. |
| Client.GameClient.OnOrbRemove | apps/client/src/network/GameClient.ts:264-267 | The orb is forgotten. |
| Client.GameClient.ReconcileInputs | apps/client/src/network/GameClient.ts:316-318 | Only the counter changes, to the larger of it and the server's sequence. |
| Client.GameClient.HandleDisconnect | apps/client/src/network/GameClient.ts:320-339 | Room, players, orbs, colours and local id are dropped, and the client is disconnected. The counter and the send log are kept. |
| Canvas.Clamp | apps/web/components/GameCanvas.tsx:47-48 | Never above `max`. With min ≤ max the result is in [min, max], equals the value when it is already inside, and equals the nearer bound otherwise. |
| Canvas.NormalizeVector | apps/web/components/GameCanvas.tsx:35-45 | Zero stays zero. Any other vector becomes a unit vector, and that unit vector times the original length gives back the input. |
| Canvas.KeyboardDirection | apps/web/components/GameCanvas.tsx:96-105 | The key-by-key steps give the normalised axis sums; the result is zero or a unit vector. |
| Canvas.KeyboardDirectionFacts | apps/web/components/GameCanvas.tsx:96-105 | No movement key gives no direction. W and S cancel, as do A and D. Every result is zero or a unit vector. |
| Canvas.CombinedDirection | apps/web/components/GameCanvas.tsx:107-123 | The combined direction never exceeds length 1. A sum of length at most 1 is used as is; a longer one is normalised. |
| Canvas.JoystickVector | apps/web/components/GameCanvas.tsx:177-191 | The joystick vector never exceeds length 1, and it is zero exactly when the clamped offset is zero. |
| Canvas.Stepped | apps/web/components/GameCanvas.tsx:67-80 | The moved player never passes the right or bottom margin. When the canvas is at least 40 wide (or high), it also stays 20 inside the left (or top) edge. |
| Canvas.CanvasInput.constructor | apps/web/components/GameCanvas.tsx:125-140 | No keys, zero directions, an idle centred joystick, and the player at the canvas centre. |
| Canvas.CanvasInput.UpdateKeyboardDirection | apps/web/components/GameCanvas.tsx:143-147 | The keyboard direction becomes that of the held keys; nothing else changes. |
| Canvas.CanvasInput.KeyDown | apps/web/components/GameCanvas.tsx:154-159 | A movement key is added and the direction recomputed; other keys change nothing. |
| Canvas.CanvasInput.KeyUp | apps/web/components/GameCanvas.tsx:161-166 | A movement key is released and the direction recomputed; other keys change nothing. |
| Canvas.CanvasInput.HandleJoystickUpdate | apps/web/components/GameCanvas.tsx:177-197 | The offset is stored clamped to ±60 and the joystick vector is `JoystickVector`; nothing else changes. |
| Canvas.CanvasInput.ResetJoystick | apps/web/components/GameCanvas.tsx:199-203 | The joystick goes idle and centred with a zero vector. |
| Canvas.CanvasInput.Tick | apps/web/components/GameCanvas.tsx:67-80 | With no combined direction the player stays. Otherwise it moves by direction × speed × delta, clamped to the margins. |

## Left out

- The wire layer is not modelled: Colyseus schemas, `float32`/`uint16`/`uint32` field encoding, and delivery. In particular, `score` is an unbounded integer, not a 16-bit one.
- Floating-point rounding is not modelled: every number is an exact real. The source tests `magnitude === 0` exactly, and the model does the same; the small epsilon some descriptions mention is not in the code.
- `Math.hypot`, `Math.sqrt` and `Math.pow(F, 1.5)` use a square-root parameter; `Math.cos`/`Math.sin` placement is folded into the drawn points.
- `nanoid` and `Math.random` are inputs: the orb-draw stream and `addPlayer`'s two numbers.
- The tunables file `constants.js` and `intents.js` are not part of this model. The tunables are a `Config` value, and `intents.js` is taken to re-export `normalizeDirection` from `packages/shared/src/input.ts`.
- WorldModel.World: players are held by value (`PlayerState`) in a map, not as shared `Player` objects. The `World` helpers therefore take the player's id where the source passes the object, and aliasing between `players` and local references is not modelled.
- WorldModel.World.ResolvePlayerCollisions: pairs are resolved on a local copy of the map, then written back. The source works on an array of the same objects.
- WorldModel.World.ProcessIntentQueue: the in-place `queue.sort` followed by `queue.length = 0` is modelled as a scan for the element the stable sort puts last. The sorted order itself is never observable, because the buffer is emptied.
- WorldSpec.Separated: states only that the set of players is kept. What one pair does is stated by `SeparatedPair` and `SeparatedUntouched`, for two different players, which is all the nested loop ever passes.
- WorldSpec.Moved, WorldSpec.PlayerUpdated, WorldSpec.PlayerTurn, WorldSpec.PlayersPass: their own contracts state only frame facts. The bounds they meet are the `WorldProps` lemmas in the table.
- WorldProps.TickSettles: with a zero `TAG_SLOW_DURATION_MS` a tag records a tagger with a zero timer, and with a slow multiplier above 1 a tag can raise the speed. The tagger and speed conclusions are therefore stated only under those conditions.
- The arena bound is proved after `updatePlayer` (`UpdateBounds`), not after the whole tick: `resolvePlayerCollisions` runs after the clamp and can push a player past `WORLD_RADIUS - PLAYER_RADIUS`.
- Order of the tick: the source ticks respawns before the players move and collect, and collects per player right after that player's update. The model follows the code.
- `update`'s default argument `TICK_INTERVAL_MS` is not modelled; `deltaMs` is always given.
- Interpolation.InterpolatedPlayer.Update: takes the fraction `1 - exp(-12 * deltaSeconds)` as a parameter, because `exp` is not available on reals. The lemmas assume `0 <= f < 1`, which holds for non-negative `deltaSeconds`.
- Interpolation.InterpolatedPlayer.RenderX, Interpolation.InterpolatedPlayer.RenderY: plain getters with no contract beyond their body.
- Client.GameClient.Connect: takes the join's result (the session id, or `None` for a failed join) as a parameter. The rethrown error, `setupRoomHandlers`, the heartbeat, ping/pong latency and the reconnect timer are not modelled.
- Client.GameClient: the listener sets, `notifyConnection`/`notifyLatency`, `lastSnapshot` and the shape of `buildSnapshot` are not modelled. Only `buildSnapshot`'s side effect on the colour table (`ColorAll`) is.
- Client.GameClient.Update: the players are held by value, so each is advanced in a copy of the map that replaces `players` at the end. The `onChange` closure updates the stored player by session id, not through a captured object.
- Client.GameClient.SendInput: `room.send` is a log of the intents sent.
- Canvas: React rendering, Pixi drawing, and pointer capture and pointer events are not modelled. The pointer handlers only compute an offset and call `handleJoystickUpdate`/`resetJoystick`, which are modelled. `setPlayerPosition` is modelled as the new position.
- Canvas.Stepped: the left/top bound holds only when the canvas is at least 40 units wide/high, as with the source's `clamp`.
