/** The per-room simulation of apps/server/src/game/World.ts, written over values.

    Each function here is the specification of one step of `World`; the class
    `WorldModel.World` runs the same steps in place on `Player` objects and is
    proved to produce exactly these values. Random draws are inputs: `Env.draw`
    is the stream of orb placements (`nanoid` plus `Math.random`) and
    `WorldState.drawn` counts how many of them have been used. */
module WorldSpec {
  import opened Wrappers
  import opened Sequences
  import opened Geometry
  import opened Input
  import opened PlayerModel

  /** The tunables of constants.js. */
  datatype Config = Config(
    worldRadius: real,
    playerRadius: real,
    orbRadius: real,
    maxSpeed: real,
    maxAcceleration: real,
    dashDurationMs: real,
    dashCooldownMs: real,
    dashFxDurationMs: real,
    dashSpeedBoost: real,
    tagRadius: real,
    tagSlowDurationMs: real,
    tagSlowMultiplier: real,
    friction: real,
    startingOrbCount: nat,
    orbRespawnDelayMs: real,
    orbScoreValue: int)
  {
    /** What the host promises about the tunables. */
    predicate Valid() {
      0.0 < friction <= 1.0 && 0.0 < tagRadius &&
      0.0 <= dashDurationMs && 0.0 <= dashCooldownMs && 0.0 <= dashFxDurationMs &&
      0.0 <= tagSlowDurationMs && 0.0 <= orbRespawnDelayMs &&
      0.0 <= dashSpeedBoost && 0.0 <= maxSpeed &&
      0.0 <= playerRadius <= worldRadius
    }
  }

  /** Tunables that keep the promise of `Config.Valid`. */
  type ValidConfig = c: Config | c.Valid()
    witness Config(0.0, 0.0, 0.0, 0.0, 0.0, 0.0, 0.0, 0.0, 0.0, 1.0, 0.0, 0.0, 1.0, 0, 0.0, 0)

  /** One random orb placement: the id `nanoid(8)` returns and the point the two
      `Math.random()` draws select. */
  datatype OrbDraw = OrbDraw(id: string, x: real, y: real)

  /** Everything the simulation reads but never changes. */
  datatype Env = Env(cfg: ValidConfig, sqrt: real -> real, draw: nat -> OrbDraw)

  ghost predicate ValidEnv(env: Env) {
    IsSqrt(env.sqrt)
  }

  datatype Orb = Orb(id: string, x: real, y: real, value: int)

  datatype PendingOrbRespawn = PendingOrbRespawn(orbId: string, timeMs: real)

  datatype ProcessedIntent = ProcessedIntent(
    directionX: real,
    directionY: real,
    dash: bool,
    sequence: int,
    tagTargetId: Option<string>)

  /** The state of one room. `order` is the iteration order of the players map
      (insertion order). */
  datatype WorldState = WorldState(
    players: map<string, PlayerState>,
    order: seq<string>,
    orbs: seq<Orb>,
    intentQueue: map<string, seq<InputIntent>>,
    orbRespawnQueue: seq<PendingOrbRespawn>,
    timeMs: real,
    drawn: nat)

  /** The players map and its iteration order list the same ids, once each, and every
      player is stored under its own id. */
  predicate WellFormed(ws: WorldState) {
    (forall id :: id in ws.players ==> id in ws.order) &&
    (forall i :: 0 <= i < |ws.order| ==> ws.order[i] in ws.players) &&
    NoDuplicates(ws.order) &&
    (forall id :: id in ws.players ==> ws.players[id].id == id)
  }

  function EmptyWorld(): (ws: WorldState)
    ensures WellFormed(ws)
  {
    WorldState(map[], [], [], map[], [], 0.0, 0)
  }

  // ---------------------------------------------------------------------------
  // Joining, leaving and buffering intents

  /** Where `addPlayer` puts a new player along one axis, for a `Math.random()` result `u`. */
  function StartCoordinate(cfg: Config, u: real): real {
    (u - 0.5) * cfg.worldRadius * 0.75
  }

  /** `addPlayer(id, name)`; `u` and `v` are the two `Math.random()` draws. */
  function PlayerAdded(cfg: Config, ws: WorldState, id: string, name: string, u: real, v: real): (r: WorldState)
    requires WellFormed(ws)
    ensures WellFormed(r)
    ensures r.players.Keys == ws.players.Keys + {id}
    ensures r.intentQueue == ws.intentQueue[id := []]
    ensures r.players[id].vx == 0.0 && r.players[id].vy == 0.0 && r.players[id].score == 0
    ensures r.players[id].TimersNonNegative() && r.players[id].TagConsistent()
    ensures forall k :: k in ws.players && k != id ==> r.players[k] == ws.players[k]
    ensures r.orbs == ws.orbs && r.orbRespawnQueue == ws.orbRespawnQueue && r.timeMs == ws.timeMs
  {
    var p := Initial(id, name).(x := StartCoordinate(cfg, u), y := StartCoordinate(cfg, v));
    var order := if id in ws.players then ws.order else ws.order + [id];
    ws.(players := ws.players[id := p], order := order, intentQueue := ws.intentQueue[id := []])
  }

  /** `removePlayer(id)`: the player and its buffer go; everything else stays. */
  function PlayerRemoved(ws: WorldState, id: string): (r: WorldState)
    requires WellFormed(ws)
    ensures WellFormed(r)
    ensures r.players == ws.players - {id} && r.intentQueue == ws.intentQueue - {id}
    ensures r.orbs == ws.orbs && r.orbRespawnQueue == ws.orbRespawnQueue && r.timeMs == ws.timeMs
  {
    var order := Without(ws.order, id);
    assert forall i :: 0 <= i < |order| ==> order[i] in order;
    ws.(players := ws.players - {id}, order := order, intentQueue := ws.intentQueue - {id})
  }

  /** `enqueueIntent(id, intent)`: appended to the player's buffer; no buffer, no change. */
  function IntentEnqueued(ws: WorldState, id: string, intent: InputIntent): (r: WorldState)
    ensures id !in ws.intentQueue ==> r == ws
    ensures id in ws.intentQueue ==> r == ws.(intentQueue := ws.intentQueue[id := ws.intentQueue[id] + [intent]])
  {
    if id in ws.intentQueue then
      ws.(intentQueue := ws.intentQueue[id := ws.intentQueue[id] + [intent]])
    else
      ws
  }

  // ---------------------------------------------------------------------------
  // Consuming intents

  /** `normalizeIntent(intent)`. */
  function NormalizeIntent(sqrt: real -> real, intent: InputIntent): (r: ProcessedIntent)
    requires IsSqrt(sqrt)
    ensures r.sequence == intent.sequence && r.dash == intent.dash && r.tagTargetId == intent.tagTargetId
    ensures (r.directionX == 0.0 && r.directionY == 0.0) <==> (intent.moveX == 0.0 && intent.moveY == 0.0)
    ensures !(intent.moveX == 0.0 && intent.moveY == 0.0) ==> NormSq(r.directionX, r.directionY) == 1.0
    ensures var d := NormalizeDirection(sqrt, intent.moveX, intent.moveY);
      r.directionX == d.x && r.directionY == d.y
  {
    var d := NormalizeDirection(sqrt, intent.moveX, intent.moveY);
    ProcessedIntent(d.x, d.y, intent.dash, intent.sequence, intent.tagTargetId)
  }

  /** The intent used when a player's buffer is missing or empty. */
  function Neutral(fallbackSequence: int): ProcessedIntent {
    ProcessedIntent(0.0, 0.0, false, fallbackSequence, None)
  }

  /** The position of the intent that a stable ascending sort by `sequence` puts last:
      the greatest sequence, and the last to arrive among equal ones. */
  function LatestIndex(queue: seq<InputIntent>): (k: nat)
    requires |queue| > 0
    ensures k < |queue|
    ensures forall j :: 0 <= j < |queue| ==> queue[j].sequence <= queue[k].sequence
    ensures forall j :: k < j < |queue| ==> queue[j].sequence < queue[k].sequence
  {
    if |queue| == 1 then 0
    else
      var k := LatestIndex(queue[..|queue| - 1]);
      if queue[|queue| - 1].sequence >= queue[k].sequence then |queue| - 1 else k
  }

  /** `processIntentQueue(id, fallbackSequence)`: the intent used this tick and the
      buffers afterwards. */
  function ConsumeIntent(sqrt: real -> real, queues: map<string, seq<InputIntent>>, id: string, fallbackSequence: int)
    : (r: (ProcessedIntent, map<string, seq<InputIntent>>))
    requires IsSqrt(sqrt)
    ensures id !in queues || queues[id] == [] ==> r == (Neutral(fallbackSequence), queues)
    ensures id in queues && queues[id] != [] ==> r.1 == queues[id := []]
    ensures r.1.Keys == queues.Keys
    ensures forall k :: k in queues && k != id ==> r.1[k] == queues[k]
  {
    if id !in queues || queues[id] == [] then
      (Neutral(fallbackSequence), queues)
    else
      var queue := queues[id];
      (NormalizeIntent(sqrt, queue[LatestIndex(queue)]), queues[id := []])
  }

  // ---------------------------------------------------------------------------
  // Dash and tag

  /** `resolveDash(player, intent)`. */
  function Dashed(cfg: Config, s: PlayerState, intent: ProcessedIntent): (r: PlayerState)
    ensures r != s ==> intent.dash && s.CanDash() && !(intent.directionX == 0.0 && intent.directionY == 0.0)
    ensures intent.dash && s.CanDash() && !(intent.directionX == 0.0 && intent.directionY == 0.0) ==>
      r.dashTimeRemainingMs == cfg.dashDurationMs && r.dashCooldownMs == cfg.dashCooldownMs &&
      r.dashFxMs == cfg.dashFxDurationMs &&
      r.vx == s.vx + intent.directionX * cfg.dashSpeedBoost &&
      r.vy == s.vy + intent.directionY * cfg.dashSpeedBoost
    ensures r.(vx := s.vx, vy := s.vy, dashTimeRemainingMs := s.dashTimeRemainingMs,
               dashCooldownMs := s.dashCooldownMs, dashFxMs := s.dashFxMs) == s
  {
    if !intent.dash || !s.CanDash() then
      s
    else if intent.directionX == 0.0 && intent.directionY == 0.0 then
      s
    else
      var t := DashTriggered(s, cfg.dashDurationMs, cfg.dashCooldownMs, cfg.dashFxDurationMs);
      WithVelocity(t, t.vx + intent.directionX * cfg.dashSpeedBoost, t.vy + intent.directionY * cfg.dashSpeedBoost)
  }

  /** JavaScript truthiness of `tagTargetId`: absent, null and the empty string are false. */
  predicate NamesTarget(t: Option<string>) {
    t.Some? && t.value != ""
  }

  /** The id of the player that `resolveTagging` slows, if any. */
  function TagTarget(env: Env, ps: map<string, PlayerState>, actor: PlayerState, intent: ProcessedIntent): (r: Option<string>)
    ensures r.Some? ==>
      NamesTarget(intent.tagTargetId) && r == intent.tagTargetId && actor.IsDashing() && r.value in ps &&
      Hypot(env.sqrt, actor.x - ps[r.value].x, actor.y - ps[r.value].y) <= env.cfg.tagRadius
    ensures NamesTarget(intent.tagTargetId) && actor.IsDashing() && intent.tagTargetId.value in ps &&
      Hypot(env.sqrt, actor.x - ps[intent.tagTargetId.value].x, actor.y - ps[intent.tagTargetId.value].y) <= env.cfg.tagRadius
      ==> r == intent.tagTargetId
  {
    if !NamesTarget(intent.tagTargetId) || !actor.IsDashing() then
      None
    else
      var t := intent.tagTargetId.value;
      if t !in ps then
        None
      else if Hypot(env.sqrt, actor.x - ps[t].x, actor.y - ps[t].y) > env.cfg.tagRadius then
        None
      else
        Some(t)
  }

  /** What a tag does to its target: `applyTagSlow` then the velocity is scaled. */
  function Tagged(cfg: Config, target: PlayerState, actorId: string): (r: PlayerState)
    ensures r.tagSlowMs == cfg.tagSlowDurationMs && r.taggedBy == Some(actorId)
    ensures r.vx == target.vx * cfg.tagSlowMultiplier && r.vy == target.vy * cfg.tagSlowMultiplier
    ensures r.(tagSlowMs := target.tagSlowMs, taggedBy := target.taggedBy, vx := target.vx, vy := target.vy) == target
  {
    var t := TagSlowApplied(target, cfg.tagSlowDurationMs, Some(actorId));
    WithVelocity(t, t.vx * cfg.tagSlowMultiplier, t.vy * cfg.tagSlowMultiplier)
  }

  /** `resolveTagging(player, intent)` for the player stored under `id`: only the target changes. */
  function TagResolved(env: Env, ps: map<string, PlayerState>, id: string, intent: ProcessedIntent)
    : (r: map<string, PlayerState>)
    requires id in ps
    ensures r.Keys == ps.Keys
    ensures TagTarget(env, ps, ps[id], intent).None? ==> r == ps
    ensures TagTarget(env, ps, ps[id], intent).Some? ==>
      var t := TagTarget(env, ps, ps[id], intent).value;
      r == ps[t := Tagged(env.cfg, ps[t], ps[id].id)]
  {
    match TagTarget(env, ps, ps[id], intent)
    case None => ps
    case Some(t) => ps[t := Tagged(env.cfg, ps[t], ps[id].id)]
  }

  // ---------------------------------------------------------------------------
  // Movement

  function Min(a: real, b: real): real {
    if a <= b then a else b
  }

  /** The acceleration limit of `applyAcceleration`, reduced while slowed. */
  function Acceleration(cfg: Config, s: PlayerState): real {
    if s.tagSlowMs > 0.0 then cfg.maxAcceleration * cfg.tagSlowMultiplier else cfg.maxAcceleration
  }

  /** The velocity change `applyAcceleration` aims for: `direction * MAX_SPEED - velocity`. */
  function GapX(cfg: Config, s: PlayerState, intent: ProcessedIntent): real {
    intent.directionX * cfg.maxSpeed - s.vx
  }

  function GapY(cfg: Config, s: PlayerState, intent: ProcessedIntent): real {
    intent.directionY * cfg.maxSpeed - s.vy
  }

  /** The largest velocity change allowed in `deltaSeconds`. */
  function MaxChange(cfg: Config, s: PlayerState, deltaSeconds: real): real {
    Acceleration(cfg, s) * deltaSeconds
  }

  /** `applyAcceleration(player, intent, deltaSeconds)`: the velocity moves toward
      `direction * maxSpeed` by at most `acceleration * deltaSeconds`. */
  function Accelerated(env: Env, s: PlayerState, intent: ProcessedIntent, deltaSeconds: real): PlayerState {
    var deltaSpeed := Hypot(env.sqrt, GapX(env.cfg, s, intent), GapY(env.cfg, s, intent));
    if deltaSpeed > 0.0 then
      var scale := Min(1.0, MaxChange(env.cfg, s, deltaSeconds) / deltaSpeed);
      WithAddedVelocity(s, GapX(env.cfg, s, intent) * scale, GapY(env.cfg, s, intent) * scale)
    else
      s
  }

  /** `Math.pow(FRICTION, 1.5)`, which is `FRICTION * sqrt(FRICTION)`. */
  function SlowedFriction(env: Env): real {
    env.cfg.friction * env.sqrt(env.cfg.friction)
  }

  /** The friction applied in `updatePlayer`: `FRICTION`, or `FRICTION ** 1.5` while slowed. */
  function FrictionFactor(env: Env, s: PlayerState): real {
    if s.tagSlowMs > 0.0 then SlowedFriction(env) else env.cfg.friction
  }

  /** The friction step of `updatePlayer`. */
  function Rubbed(env: Env, s: PlayerState): PlayerState {
    WithFriction(s, FrictionFactor(env, s))
  }

  /** The speed limit of the cap step. */
  function SpeedLimit(cfg: Config, s: PlayerState): real {
    if s.IsDashing() then cfg.maxSpeed + cfg.dashSpeedBoost else cfg.maxSpeed
  }

  /** The speed cap of `updatePlayer`. */
  function SpeedCapped(env: Env, s: PlayerState): PlayerState
  {
    var speed := Speed(env.sqrt, s);
    if speed > SpeedLimit(env.cfg, s) then
      var clamp := SpeedLimit(env.cfg, s) / speed;
      WithVelocity(s, s.vx * clamp, s.vy * clamp)
    else
      s
  }

  /** `deltaMs` in seconds. */
  function Seconds(deltaMs: real): real {
    deltaMs / 1000.0
  }

  /** The integration step of `updatePlayer`: position advances by velocity times time. */
  function Integrated(s: PlayerState, deltaSeconds: real): PlayerState {
    WithAddedPosition(s, s.vx * deltaSeconds, s.vy * deltaSeconds)
  }

  /** The radius the centre of a player is kept within. */
  function ArenaRadius(cfg: Config): real {
    cfg.worldRadius - cfg.playerRadius
  }

  /** Everything `updatePlayer` does to the player after dash and tag: accelerate,
      friction, speed cap, integrate, clamp to the arena, tick the timers, and
      record the consumed sequence. */
  function Moved(env: Env, s: PlayerState, intent: ProcessedIntent, deltaMs: real): (r: PlayerState)
    requires ValidEnv(env)
    ensures r.id == s.id && r.name == s.name && r.score == s.score
  {
    var a := Accelerated(env, s, intent, Seconds(deltaMs));
    var c := SpeedCapped(env, Rubbed(env, a));
    var k := ClampedPosition(env.sqrt, Integrated(c, Seconds(deltaMs)), ArenaRadius(env.cfg));
    TimersTicked(k, deltaMs).(lastProcessedInput := intent.sequence)
  }

  /** `updatePlayer(player, intent, deltaMs)` for the player stored under `id`. */
  function PlayerUpdated(env: Env, ps: map<string, PlayerState>, id: string, intent: ProcessedIntent, deltaMs: real)
    : (r: map<string, PlayerState>)
    requires ValidEnv(env) && id in ps
    ensures r.Keys == ps.Keys
    ensures forall k :: k in ps ==> r[k].id == ps[k].id && r[k].score == ps[k].score
  {
    var dashed := ps[id := Dashed(env.cfg, ps[id], intent)];
    var tagged := TagResolved(env, dashed, id, intent);
    tagged[id := Moved(env, tagged[id], intent, deltaMs)]
  }

  // ---------------------------------------------------------------------------
  // Orb collection

  /** `checkOrbCollection`'s test: the orb is closer than the two radii together. */
  predicate Collects(env: Env, p: PlayerState, o: Orb) {
    Hypot(env.sqrt, p.x - o.x, p.y - o.y) < env.cfg.playerRadius + env.cfg.orbRadius
  }

  /** The orbs that stay, in their order. */
  function Kept(env: Env, p: PlayerState, orbs: seq<Orb>): seq<Orb> {
    if orbs == [] then []
    else (if Collects(env, p, orbs[0]) then [] else [orbs[0]]) + Kept(env, p, orbs[1..])
  }

  /** The orbs that are collected, in the order the backward scan meets them. */
  function Taken(env: Env, p: PlayerState, orbs: seq<Orb>): seq<Orb> {
    if orbs == [] then []
    else Taken(env, p, orbs[1..]) + (if Collects(env, p, orbs[0]) then [orbs[0]] else [])
  }

  function SumValues(orbs: seq<Orb>): int {
    if orbs == [] then 0 else SumValues(orbs[..|orbs| - 1]) + orbs[|orbs| - 1].value
  }

  /** One respawn entry of `ORB_RESPAWN_DELAY_MS` per collected orb, in order. */
  function Scheduled(cfg: Config, orbs: seq<Orb>): (r: seq<PendingOrbRespawn>)
    ensures |r| == |orbs|
    ensures forall i :: 0 <= i < |r| ==> r[i] == PendingOrbRespawn(orbs[i].id, cfg.orbRespawnDelayMs)
  {
    if orbs == [] then [] else Scheduled(cfg, orbs[..|orbs| - 1]) + [PendingOrbRespawn(orbs[|orbs| - 1].id, cfg.orbRespawnDelayMs)]
  }

  datatype Collection = Collection(player: PlayerState, orbs: seq<Orb>, orbRespawnQueue: seq<PendingOrbRespawn>)

  /** `checkOrbCollection(player)`. */
  function Collected(env: Env, p: PlayerState, orbs: seq<Orb>, queue: seq<PendingOrbRespawn>): Collection {
    var taken := Taken(env, p, orbs);
    Collection(p.(score := p.score + SumValues(taken)), Kept(env, p, orbs), queue + Scheduled(env.cfg, taken))
  }

  // ---------------------------------------------------------------------------
  // Spawning and respawning orbs

  /** A new orb at (x, y) would be closer to player `p` than the two radii together. */
  predicate CrowdsPlayer(env: Env, p: PlayerState, x: real, y: real) {
    Hypot(env.sqrt, p.x - x, p.y - y) < env.cfg.playerRadius + env.cfg.orbRadius
  }

  /** A new orb at (x, y) would be closer to orb `o` than two orb radii. */
  predicate CrowdsOrb(env: Env, o: Orb, x: real, y: real) {
    Hypot(env.sqrt, o.x - x, o.y - y) < env.cfg.orbRadius * 2.0
  }

  /** `isSpaceFree(x, y)`: no player and no orb is too close to the point. */
  predicate SpaceFree(env: Env, ps: map<string, PlayerState>, orbs: seq<Orb>, x: real, y: real) {
    (forall id :: id in ps ==> !CrowdsPlayer(env, ps[id], x, y)) &&
    (forall i :: 0 <= i < |orbs| ==> !CrowdsOrb(env, orbs[i], x, y))
  }

  /** The orbs and the number of random draws used. */
  datatype Spawned = Spawned(orbs: seq<Orb>, drawn: nat)

  /** The number of placement attempts before the unchecked fallback. */
  const SpawnAttempts: nat := 8

  /** `spawnOrb()` from attempt `attempt` on: each attempt uses one draw; the first
      free point wins; after the last attempt one more draw is placed unchecked. */
  function SpawnFrom(env: Env, ps: map<string, PlayerState>, orbs: seq<Orb>, drawn: nat, attempt: nat): (r: Spawned)
    requires attempt <= SpawnAttempts
    decreases SpawnAttempts - attempt
    ensures |r.orbs| == |orbs| + 1
  {
    var d := env.draw(drawn);
    var orb := Orb(d.id, d.x, d.y, env.cfg.orbScoreValue);
    if attempt < SpawnAttempts then
      if SpaceFree(env, ps, orbs, d.x, d.y) then
        Spawned(orbs + [orb], drawn + 1)
      else
        SpawnFrom(env, ps, orbs, drawn + 1, attempt + 1)
    else
      Spawned(orbs + [orb], drawn + 1)
  }

  /** `spawnOrb()`. */
  function SpawnOrb(env: Env, ps: map<string, PlayerState>, orbs: seq<Orb>, drawn: nat): (r: Spawned)
    ensures |r.orbs| == |orbs| + 1
  {
    SpawnFrom(env, ps, orbs, drawn, 0)
  }

  /** `count` calls of `spawnOrb()` in a row. */
  function SpawnMany(env: Env, ps: map<string, PlayerState>, orbs: seq<Orb>, drawn: nat, count: nat): (r: Spawned)
    ensures |r.orbs| == |orbs| + count
    decreases count
  {
    if count == 0 then
      Spawned(orbs, drawn)
    else
      var first := SpawnOrb(env, ps, orbs, drawn);
      SpawnMany(env, ps, first.orbs, first.drawn, count - 1)
  }

  /** How many orbs `ensureInitialOrbs()` spawns. */
  function MissingOrbs(cfg: Config, orbs: seq<Orb>): nat {
    if |orbs| < cfg.startingOrbCount then cfg.startingOrbCount - |orbs| else 0
  }

  /** `ensureInitialOrbs()`. */
  function ToppedUp(env: Env, ws: WorldState): (r: WorldState)
    ensures |r.orbs| >= env.cfg.startingOrbCount && |r.orbs| >= |ws.orbs|
    ensures |r.orbs| == if |ws.orbs| < env.cfg.startingOrbCount then env.cfg.startingOrbCount else |ws.orbs|
    ensures r.(orbs := ws.orbs, drawn := ws.drawn) == ws
  {
    var s := SpawnMany(env, ws.players, ws.orbs, ws.drawn, MissingOrbs(env.cfg, ws.orbs));
    ws.(orbs := s.orbs, drawn := s.drawn)
  }

  /** A respawn entry after one tick: `deltaMs` less remaining. */
  function Decremented(e: PendingOrbRespawn, deltaMs: real): PendingOrbRespawn {
    e.(timeMs := e.timeMs - deltaMs)
  }

  /** The respawn entries still pending after `tickOrbRespawns(deltaMs)`, in order. */
  function Survivors(queue: seq<PendingOrbRespawn>, deltaMs: real): seq<PendingOrbRespawn> {
    if queue == [] then []
    else
      var e := Decremented(queue[0], deltaMs);
      (if e.timeMs <= 0.0 then [] else [e]) + Survivors(queue[1..], deltaMs)
  }

  /** The number of respawn entries that fall due. */
  function Expired(queue: seq<PendingOrbRespawn>, deltaMs: real): nat {
    if queue == [] then 0
    else (if queue[0].timeMs - deltaMs <= 0.0 then 1 else 0) + Expired(queue[1..], deltaMs)
  }

  /** `tickOrbRespawns(deltaMs)`: the survivors stay and one orb is spawned per entry that fell due. */
  function RespawnsTicked(env: Env, ws: WorldState, deltaMs: real): WorldState {
    var s := SpawnMany(env, ws.players, ws.orbs, ws.drawn, Expired(ws.orbRespawnQueue, deltaMs));
    ws.(orbs := s.orbs, drawn := s.drawn, orbRespawnQueue := Survivors(ws.orbRespawnQueue, deltaMs))
  }

  // ---------------------------------------------------------------------------
  // Player-player collisions

  /** Centres closer than this overlap. */
  function MinDistance(cfg: Config): real {
    cfg.playerRadius * 2.0
  }

  /** Half of what two players at `distance` overlap by. */
  function Overlap(cfg: Config, distance: real): real {
    (MinDistance(cfg) - distance) / 2.0
  }

  /** One pair of `resolvePlayerCollisions`: overlapping players at a positive distance are
      pushed apart along the line between them, half the overlap each. (The loop only
      pairs two different players; nothing here depends on it.) */
  function Separated(env: Env, ps: map<string, PlayerState>, a: string, b: string): (r: map<string, PlayerState>)
    requires a in ps && b in ps
    ensures r.Keys == ps.Keys
  {
    var pa, pb := ps[a], ps[b];
    var distance := Hypot(env.sqrt, pb.x - pa.x, pb.y - pa.y);
    if distance > 0.0 && distance < MinDistance(env.cfg) then
      var overlap := Overlap(env.cfg, distance);
      var nx, ny := (pb.x - pa.x) / distance, (pb.y - pa.y) / distance;
      ps[a := pa.(x := pa.x - nx * overlap, y := pa.y - ny * overlap)]
        [b := pb.(x := pb.x + nx * overlap, y := pb.y + ny * overlap)]
    else
      ps
  }

  /** The pairs (i, i + 1) .. (i, j - 1) of the nested loop, in order. */
  function CollideRow(env: Env, ps: map<string, PlayerState>, order: seq<string>, i: nat, j: nat): (r: map<string, PlayerState>)
    requires Present(order, ps) && i < j <= |order|
    decreases j
    ensures r.Keys == ps.Keys
  {
    if j == i + 1 then ps
    else Separated(env, CollideRow(env, ps, order, i, j - 1), order[i], order[j - 1])
  }

  /** The rows 0 .. i - 1 of the nested loop. */
  function CollideRows(env: Env, ps: map<string, PlayerState>, order: seq<string>, i: nat): (r: map<string, PlayerState>)
    requires Present(order, ps) && i <= |order|
    ensures r.Keys == ps.Keys
  {
    if i == 0 then ps
    else CollideRow(env, CollideRows(env, ps, order, i - 1), order, i - 1, |order|)
  }

  // ---------------------------------------------------------------------------
  // The tick

  /** One iteration of the per-player loop of `update`: consume the intent, update
      the player, then let it collect orbs. */
  function PlayerTurn(env: Env, ws: WorldState, id: string, deltaMs: real): (r: WorldState)
    requires ValidEnv(env) && id in ws.players
    ensures r.players.Keys == ws.players.Keys && r.order == ws.order && r.timeMs == ws.timeMs && r.drawn == ws.drawn
    ensures r.intentQueue.Keys == ws.intentQueue.Keys
    ensures forall k :: k in ws.players ==> r.players[k].id == ws.players[k].id
  {
    var (intent, queues) := ConsumeIntent(env.sqrt, ws.intentQueue, id, ws.players[id].lastProcessedInput);
    var ps := PlayerUpdated(env, ws.players, id, intent, deltaMs);
    var c := Collected(env, ps[id], ws.orbs, ws.orbRespawnQueue);
    ws.(players := ps[id := c.player], intentQueue := queues, orbs := c.orbs, orbRespawnQueue := c.orbRespawnQueue)
  }

  /** Every id of `ids` has a player. */
  predicate Present(ids: seq<string>, players: map<string, PlayerState>) {
    forall i :: 0 <= i < |ids| ==> ids[i] in players
  }

  /** The per-player loop of `update`, over the ids still to go. */
  function PlayersPass(env: Env, ws: WorldState, ids: seq<string>, deltaMs: real): (r: WorldState)
    requires ValidEnv(env) && Present(ids, ws.players)
    ensures r.players.Keys == ws.players.Keys && r.order == ws.order && r.timeMs == ws.timeMs && r.drawn == ws.drawn
    ensures r.intentQueue.Keys == ws.intentQueue.Keys
    ensures forall k :: k in ws.players ==> r.players[k].id == ws.players[k].id
    decreases |ids|
  {
    if ids == [] then ws
    else PlayersPass(env, PlayerTurn(env, ws, ids[0], deltaMs), ids[1..], deltaMs)
  }

  /** `update(deltaMs)`: top up the orbs, tick the respawns, run every player in map
      order, separate overlapping players, advance the clock. */
  function Tick(env: Env, ws: WorldState, deltaMs: real): (r: WorldState)
    requires ValidEnv(env) && WellFormed(ws)
    ensures r.players.Keys == ws.players.Keys && r.order == ws.order
    ensures r.timeMs == ws.timeMs + deltaMs
  {
    var topped := ToppedUp(env, ws);
    var respawned := RespawnsTicked(env, topped, deltaMs);
    var passed := PlayersPass(env, respawned, respawned.order, deltaMs);
    passed.(players := CollideRows(env, passed.players, passed.order, |passed.order|),
            timeMs := passed.timeMs + deltaMs)
  }
}
