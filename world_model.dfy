/** The room simulation of apps/server/src/game/World.ts as the class it is: the
    players map, the orbs, the intent buffers, the respawn queue, the clock and the
    random-draw cursor are fields that the methods update in place, with the loops
    of the original.

    The players are held by value (`PlayerState`), not as shared `Player` objects;
    each player operation is the `PlayerModel` function that the matching `Player`
    method is proved against. `Abstract()` reads the fields as a
    `WorldSpec.WorldState`, and every method is proved to move it exactly as the
    matching function of `WorldSpec` says, so everything proved in `WorldProps`
    holds of the class too. */
module WorldModel {
  import opened Wrappers
  import opened Sequences
  import opened Geometry
  import opened Input
  import opened PlayerModel
  import opened WorldSpec
  import opened WorldProps

  /** The index of the intent that an ascending stable sort by `sequence` puts last,
      found by one scan. */
  method LatestOf(queue: seq<InputIntent>) returns (k: nat)
    requires |queue| > 0
    ensures k == LatestIndex(queue)
  {
    k := 0;
    var i := 1;
    while i < |queue|
      invariant 1 <= i <= |queue| && k == LatestIndex(queue[..i])
    {
      assert queue[..i + 1][..i] == queue[..i];
      if queue[i].sequence >= queue[k].sequence {
        k := i;
      }
      i := i + 1;
    }
    assert queue[..|queue|] == queue;
  }

  /** Entry `i` of the respawn queue, looked at before the ones behind it. */
  lemma RespawnStep(queue: seq<PendingOrbRespawn>, i: nat, deltaMs: real)
    requires i < |queue|
    ensures var e := Decremented(queue[i], deltaMs);
      Survivors(queue[i..], deltaMs) == (if e.timeMs <= 0.0 then [] else [e]) + Survivors(queue[i + 1..], deltaMs) &&
      Expired(queue[i..], deltaMs) == (if e.timeMs <= 0.0 then 1 else 0) + Expired(queue[i + 1..], deltaMs)
  {
    assert queue[i..][1..] == queue[i + 1..];
  }

  /** The queue after entry `i` is decremented, and removed when it falls due. */
  lemma QueueStep(queue: seq<PendingOrbRespawn>, cur: seq<PendingOrbRespawn>, i: nat, deltaMs: real)
    requires i < |queue| && cur == queue[..i + 1] + Survivors(queue[i + 1..], deltaMs)
    ensures i < |cur| && cur[i] == queue[i]
    ensures var e := Decremented(queue[i], deltaMs);
      var dec := cur[i := e];
      (e.timeMs <= 0.0 ==> dec[..i] + dec[i + 1..] == queue[..i] + Survivors(queue[i..], deltaMs)) &&
      (e.timeMs > 0.0 ==> dec == queue[..i] + Survivors(queue[i..], deltaMs))
  {
    var e := Decremented(queue[i], deltaMs);
    var rest := Survivors(queue[i + 1..], deltaMs);
    var pre := queue[..i + 1];
    assert cur[..i + 1] == pre && cur[i + 1..] == rest;
    assert cur[..i] == pre[..i] == queue[..i];
    assert cur[i] == pre[i] == queue[i];
    var dec := cur[i := e];
    assert dec[..i] == queue[..i] && dec[i + 1..] == rest;
    RespawnStep(queue, i, deltaMs);
    if e.timeMs > 0.0 {
      assert Survivors(queue[i..], deltaMs) == [e] + rest;
      assert dec == dec[..i] + [e] + dec[i + 1..];
    }
  }

  /** One more `spawnOrb()` after `count` of them is `count + 1` of them. */
  lemma {:induction false} SpawnManyNext(env: Env, ps: map<string, PlayerState>, orbs: seq<Orb>, drawn: nat, count: nat, before: Spawned, after: Spawned)
    requires before == SpawnMany(env, ps, orbs, drawn, count)
    requires after == WorldSpec.SpawnOrb(env, ps, before.orbs, before.drawn)
    ensures after == SpawnMany(env, ps, orbs, drawn, count + 1)
    decreases count
  {
    if count > 0 {
      var first := WorldSpec.SpawnOrb(env, ps, orbs, drawn);
      SpawnManyNext(env, ps, first.orbs, first.drawn, count - 1, before, after);
    }
  }

  /** Orb `i` of the backward scan of `checkOrbCollection`, looked at before the ones behind it. */
  lemma CollectStep(env: Env, p: PlayerState, orbs: seq<Orb>, i: nat)
    requires i < |orbs|
    ensures Kept(env, p, orbs[i..]) == (if Collects(env, p, orbs[i]) then [] else [orbs[i]]) + Kept(env, p, orbs[i + 1..])
    ensures Taken(env, p, orbs[i..]) == Taken(env, p, orbs[i + 1..]) + (if Collects(env, p, orbs[i]) then [orbs[i]] else [])
  {
    assert orbs[i..][1..] == orbs[i + 1..];
  }

  /** `checkOrbCollection` once the orbs from index `k` on have been looked at. */
  ghost function ScanFrom(env: Env, p: PlayerState, orbs: seq<Orb>, queue: seq<PendingOrbRespawn>, k: nat): Collection
    requires k <= |orbs|
  {
    var c := Collected(env, p, orbs[k..], queue);
    Collection(c.player, orbs[..k] + c.orbs, c.orbRespawnQueue)
  }

  /** Looking at orb `k - 1` next takes it, or leaves the state as it is. */
  lemma ScanStep(env: Env, p: PlayerState, orbs: seq<Orb>, queue: seq<PendingOrbRespawn>, k: nat)
    requires 0 < k <= |orbs|
    ensures var c, o := ScanFrom(env, p, orbs, queue, k), orbs[k - 1];
      k <= |c.orbs| && c.orbs[k - 1] == o && c.player.x == p.x && c.player.y == p.y &&
      ScanFrom(env, p, orbs, queue, k - 1) ==
        if Collects(env, p, o) then
          Collection(c.player.(score := c.player.score + o.value), c.orbs[..k - 1] + c.orbs[k..],
                     c.orbRespawnQueue + [PendingOrbRespawn(o.id, env.cfg.orbRespawnDelayMs)])
        else c
  {
    var c, o := ScanFrom(env, p, orbs, queue, k), orbs[k - 1];
    var taken, kept := Taken(env, p, orbs[k..]), Kept(env, p, orbs[k..]);
    assert c == Collection(p.(score := p.score + SumValues(taken)), orbs[..k] + kept, queue + Scheduled(env.cfg, taken));
    assert c.orbs[..k - 1] == orbs[..k - 1] && c.orbs[k - 1] == o && c.orbs[k..] == kept;
    if Collects(env, p, o) {
      ScanTake(env, p, orbs, queue, k);
    } else {
      ScanKeep(env, p, orbs, queue, k);
    }
  }

  lemma ScanTake(env: Env, p: PlayerState, orbs: seq<Orb>, queue: seq<PendingOrbRespawn>, k: nat)
    requires 0 < k <= |orbs| && Collects(env, p, orbs[k - 1])
    ensures var taken, o := Taken(env, p, orbs[k..]), orbs[k - 1];
      ScanFrom(env, p, orbs, queue, k - 1) ==
        Collection(p.(score := p.score + SumValues(taken) + o.value), orbs[..k - 1] + Kept(env, p, orbs[k..]),
                   queue + Scheduled(env.cfg, taken) + [PendingOrbRespawn(o.id, env.cfg.orbRespawnDelayMs)])
  {
    var taken, o := Taken(env, p, orbs[k..]), orbs[k - 1];
    CollectStep(env, p, orbs, k - 1);
    TakeOne(env.cfg, taken, o);
    assert Taken(env, p, orbs[k - 1..]) == taken + [o];
    assert Kept(env, p, orbs[k - 1..]) == Kept(env, p, orbs[k..]);
  }

  lemma ScanKeep(env: Env, p: PlayerState, orbs: seq<Orb>, queue: seq<PendingOrbRespawn>, k: nat)
    requires 0 < k <= |orbs| && !Collects(env, p, orbs[k - 1])
    ensures ScanFrom(env, p, orbs, queue, k - 1) == ScanFrom(env, p, orbs, queue, k)
  {
    CollectStep(env, p, orbs, k - 1);
    var taken, kept := Taken(env, p, orbs[k..]), Kept(env, p, orbs[k..]);
    assert Taken(env, p, orbs[k - 1..]) == taken;
    assert Kept(env, p, orbs[k - 1..]) == [orbs[k - 1]] + kept;
    assert orbs[..k] == orbs[..k - 1] + [orbs[k - 1]];
    assert orbs[..k - 1] + Kept(env, p, orbs[k - 1..]) == orbs[..k] + kept;
  }

  /** One pair of `resolvePlayerCollisions` that overlap at a positive distance, with
      `distance`, `overlap`, `nx` and `ny` as the loop body computes them. */
  lemma SeparatedPush(env: Env, ps: map<string, PlayerState>, a: string, b: string,
                      distance: real, overlap: real, nx: real, ny: real)
    requires a in ps && b in ps
    requires distance == Hypot(env.sqrt, ps[b].x - ps[a].x, ps[b].y - ps[a].y)
    requires 0.0 < distance < MinDistance(env.cfg) && overlap == Overlap(env.cfg, distance)
    requires nx == (ps[b].x - ps[a].x) / distance && ny == (ps[b].y - ps[a].y) / distance
    ensures Separated(env, ps, a, b) == ps[a := ps[a].(x := ps[a].x - nx * overlap, y := ps[a].y - ny * overlap)]
                                          [b := ps[b].(x := ps[b].x + nx * overlap, y := ps[b].y + ny * overlap)]
  {
    var r, pa, pb := Separated(env, ps, a, b), ps[a], ps[b];
    var qa, qb := pa.(x := pa.x - nx * overlap, y := pa.y - ny * overlap), pb.(x := pb.x + nx * overlap, y := pb.y + ny * overlap);
    assert r[b] == qb;
    if a != b {
      assert r[a] == qa;
      assert r == ps[a := r[a]][b := r[b]];
    } else {
      assert r == ps[b := r[b]];
      assert ps[a := qa][b := qb] == ps[b := qb];
    }
  }

  /** Row `i` of the nested loop, one column further. */
  lemma CollideRowNext(env: Env, ps: map<string, PlayerState>, ids: seq<string>, i: nat, j: nat)
    requires Present(ids, ps) && i < j < |ids|
    ensures var r := CollideRow(env, ps, ids, i, j);
      ids[i] in r && ids[j] in r && CollideRow(env, ps, ids, i, j + 1) == Separated(env, r, ids[i], ids[j])
  {
  }

  /** One pair of `resolvePlayerCollisions` that coincide or do not overlap. */
  lemma SeparatedStill(env: Env, ps: map<string, PlayerState>, a: string, b: string)
    requires a in ps && b in ps
    requires var d := Hypot(env.sqrt, ps[b].x - ps[a].x, ps[b].y - ps[a].y); !(d > 0.0 && d < MinDistance(env.cfg))
    ensures Separated(env, ps, a, b) == ps
  {
  }

  /** Taking one more orb adds its value and schedules its respawn last. */
  lemma TakeOne(cfg: Config, taken: seq<Orb>, o: Orb)
    ensures SumValues(taken + [o]) == SumValues(taken) + o.value
    ensures Scheduled(cfg, taken + [o]) == Scheduled(cfg, taken) + [PendingOrbRespawn(o.id, cfg.orbRespawnDelayMs)]
  {
    assert (taken + [o])[..|taken|] == taken;
  }

  /** The body of the inner loop of `resolvePlayerCollisions`: players `ia` and `ib`,
      when they overlap at a positive distance, are pushed apart. */
  method SeparatePair(env: Env, ps: map<string, PlayerState>, ia: string, ib: string) returns (r: map<string, PlayerState>)
    requires ia in ps && ib in ps
    ensures r == Separated(env, ps, ia, ib)
  {
    var a, b := ps[ia], ps[ib];
    var dx := b.x - a.x;
    var dy := b.y - a.y;
    var distance := Hypot(env.sqrt, dx, dy);
    var minDist := MinDistance(env.cfg);
    if distance > 0.0 && distance < minDist {
      var overlap := Overlap(env.cfg, distance);
      var nx := dx / distance;
      var ny := dy / distance;
      SeparatedPush(env, ps, ia, ib, distance, overlap, nx, ny);
      r := ps[ia := a.(x := a.x - nx * overlap, y := a.y - ny * overlap)]
             [ib := b.(x := b.x + nx * overlap, y := b.y + ny * overlap)];
    } else {
      SeparatedStill(env, ps, ia, ib);
      r := ps;
    }
  }

  /** The nested loop of `resolvePlayerCollisions` over the players `ps` listed by `ids`. */
  method ResolveCollisions(env: Env, ps: map<string, PlayerState>, ids: seq<string>) returns (r: map<string, PlayerState>)
    requires Present(ids, ps)
    ensures r == CollideRows(env, ps, ids, |ids|)
  {
    r := ps;
    var i := 0;
    while i < |ids|
      invariant 0 <= i <= |ids|
      invariant Present(ids, r) && r == CollideRows(env, ps, ids, i)
    {
      ghost var row := r;
      var j := i + 1;
      while j < |ids|
        invariant i + 1 <= j <= |ids|
        invariant Present(ids, row) && Present(ids, r) && r == CollideRow(env, row, ids, i, j)
      {
        CollideRowNext(env, row, ids, i, j);
        r := SeparatePair(env, r, ids[i], ids[j]);
        j := j + 1;
      }
      i := i + 1;
    }
  }

  /** The per-player loop of `update` takes one player at a time, in order. */
  lemma PassStep(env: Env, ws: WorldState, ids: seq<string>, i: nat, deltaMs: real)
    requires ValidEnv(env) && i < |ids| && Present(ids, ws.players)
    ensures Present(ids, PlayerTurn(env, ws, ids[i], deltaMs).players)
    ensures PlayersPass(env, ws, ids[i..], deltaMs) ==
      PlayersPass(env, PlayerTurn(env, ws, ids[i], deltaMs), ids[i + 1..], deltaMs)
  {
    assert ids[i..][0] == ids[i] && ids[i..][1..] == ids[i + 1..];
  }

  /** The steps of `update`, one after another, make up `Tick`. */
  lemma TickSteps(env: Env, start: WorldState, topped: WorldState, respawned: WorldState,
                  passed: WorldState, collided: WorldState, r: WorldState, deltaMs: real)
    requires ValidEnv(env) && WellFormed(start)
    requires topped == ToppedUp(env, start) && respawned == RespawnsTicked(env, topped, deltaMs)
    requires Present(respawned.order, respawned.players)
    requires passed == PlayersPass(env, respawned, respawned.order, deltaMs)
    requires Present(passed.order, passed.players)
    requires collided == passed.(players := CollideRows(env, passed.players, passed.order, |passed.order|))
    requires r == collided.(timeMs := collided.timeMs + deltaMs)
    ensures r == Tick(env, start, deltaMs)
  {
  }

  class World {
    const env: Env
    var players: map<string, PlayerState>
    /** The iteration order of `players` (insertion order). */
    var order: seq<string>
    var orbs: seq<Orb>
    var intentQueue: map<string, seq<InputIntent>>
    var orbRespawnQueue: seq<PendingOrbRespawn>
    var timeMs: real
    /** How many random orb placements have been used. */
    var drawn: nat

    function Abstract(): WorldState
      reads this
    {
      WorldState(players, order, orbs, intentQueue, orbRespawnQueue, timeMs, drawn)
    }

    ghost predicate Valid()
      reads this
    {
      ValidEnv(env) && WellFormed(Abstract())
    }

    constructor (env: Env)
      requires ValidEnv(env)
      ensures Valid() && Abstract() == EmptyWorld()
    {
      this.env := env;
      players, order, orbs := map[], [], [];
      intentQueue, orbRespawnQueue := map[], [];
      timeMs, drawn := 0.0, 0;
    }

    /** `addPlayer(id, name)`; `u` and `v` are the two `Math.random()` results. */
    method AddPlayer(id: string, name: string, u: real, v: real)
      requires Valid()
      modifies this
      ensures Valid()
      ensures Abstract() == PlayerAdded(env.cfg, old(Abstract()), id, name, u, v)
    {
      var player := Initial(id, name).(x := StartCoordinate(env.cfg, u), y := StartCoordinate(env.cfg, v));
      // A map keeps the position of a key that is set again.
      if id !in players {
        order := order + [id];
      }
      players := players[id := player];
      intentQueue := intentQueue[id := []];
    }

    /** `removePlayer(id)`. */
    method RemovePlayer(id: string)
      requires Valid()
      modifies this
      ensures Valid()
      ensures Abstract() == PlayerRemoved(old(Abstract()), id)
    {
      players := players - {id};
      order := Without(order, id);
      intentQueue := intentQueue - {id};
      assert Abstract() == PlayerRemoved(old(Abstract()), id);
    }

    /** `enqueueIntent(id, intent)`. */
    method EnqueueIntent(id: string, intent: InputIntent)
      requires Valid()
      modifies this
      ensures Valid()
      ensures Abstract() == IntentEnqueued(old(Abstract()), id, intent)
    {
      if id !in intentQueue {
        return;
      }
      intentQueue := intentQueue[id := intentQueue[id] + [intent]];
    }

    /** `processIntentQueue(id, fallbackSequence)`. */
    method ProcessIntentQueue(id: string, fallbackSequence: int) returns (intent: ProcessedIntent)
      requires ValidEnv(env)
      modifies this
      ensures (intent, intentQueue) == ConsumeIntent(env.sqrt, old(intentQueue), id, fallbackSequence)
      ensures Abstract() == old(Abstract()).(intentQueue := intentQueue)
    {
      if id !in intentQueue || intentQueue[id] == [] {
        return Neutral(fallbackSequence);
      }
      var queue := intentQueue[id];
      var latest := LatestOf(queue);
      intentQueue := intentQueue[id := []];
      intent := NormalizeIntent(env.sqrt, queue[latest]);
    }

    /** `isSpaceFree(x, y)`: the players in map order, then the orbs. */
    method IsSpaceFree(x: real, y: real) returns (free: bool)
      requires Valid()
      ensures free == SpaceFree(env, players, orbs, x, y)
    {
      var i := 0;
      while i < |order|
        invariant 0 <= i <= |order|
        invariant forall k :: 0 <= k < i ==> !CrowdsPlayer(env, players[order[k]], x, y)
      {
        var player := players[order[i]];
        if Hypot(env.sqrt, player.x - x, player.y - y) < env.cfg.playerRadius + env.cfg.orbRadius {
          return false;
        }
        i := i + 1;
      }
      forall id | id in players
        ensures !CrowdsPlayer(env, players[id], x, y)
      {
        var k :| 0 <= k < |order| && order[k] == id;
      }
      var j := 0;
      while j < |orbs|
        invariant 0 <= j <= |orbs|
        invariant forall k :: 0 <= k < j ==> !CrowdsOrb(env, orbs[k], x, y)
      {
        if Hypot(env.sqrt, orbs[j].x - x, orbs[j].y - y) < env.cfg.orbRadius * 2.0 {
          return false;
        }
        j := j + 1;
      }
      return true;
    }

    /** `spawnOrb()`: up to eight placements checked with `isSpaceFree`, then one unchecked. */
    method SpawnOrb()
      requires Valid()
      modifies this
      ensures Valid()
      ensures Abstract() == old(Abstract()).(orbs := orbs, drawn := drawn)
      ensures Spawned(orbs, drawn) == WorldSpec.SpawnOrb(env, players, old(orbs), old(drawn))
    {
      var attempt := 0;
      while attempt < SpawnAttempts
        invariant attempt <= SpawnAttempts
        invariant Valid()
        invariant Abstract() == old(Abstract()).(drawn := drawn)
        invariant SpawnFrom(env, players, orbs, drawn, attempt) == WorldSpec.SpawnOrb(env, players, orbs, old(drawn))
      {
        var d := env.draw(drawn);
        drawn := drawn + 1;
        var free := IsSpaceFree(d.x, d.y);
        if free {
          orbs := orbs + [Orb(d.id, d.x, d.y, env.cfg.orbScoreValue)];
          return;
        }
        attempt := attempt + 1;
      }
      var d := env.draw(drawn);
      drawn := drawn + 1;
      orbs := orbs + [Orb(d.id, d.x, d.y, env.cfg.orbScoreValue)];
    }

    /** One round of the `ensureInitialOrbs()` loop. */
    method TopUpOnce(ghost target: Spawned)
      requires Valid() && |orbs| < env.cfg.startingOrbCount
      requires SpawnMany(env, players, orbs, drawn, MissingOrbs(env.cfg, orbs)) == target
      modifies this
      ensures Valid() && MissingOrbs(env.cfg, orbs) < old(MissingOrbs(env.cfg, orbs))
      ensures Abstract() == old(Abstract()).(orbs := orbs, drawn := drawn)
      ensures SpawnMany(env, players, orbs, drawn, MissingOrbs(env.cfg, orbs)) == target
    {
      SpawnOrb();
    }

    /** `ensureInitialOrbs()`. */
    method EnsureInitialOrbs()
      requires Valid()
      modifies this
      ensures Valid()
      ensures Abstract() == ToppedUp(env, old(Abstract()))
    {
      ghost var target := SpawnMany(env, players, orbs, drawn, MissingOrbs(env.cfg, orbs));
      while |orbs| < env.cfg.startingOrbCount
        invariant Valid()
        invariant Abstract() == old(Abstract()).(orbs := orbs, drawn := drawn)
        invariant SpawnMany(env, players, orbs, drawn, MissingOrbs(env.cfg, orbs)) == target
        decreases MissingOrbs(env.cfg, orbs)
      {
        TopUpOnce(target);
      }
    }

    /** `scheduleOrbRespawn(orbId)`. */
    method ScheduleOrbRespawn(orbId: string)
      modifies this
      ensures orbRespawnQueue == old(orbRespawnQueue) + [PendingOrbRespawn(orbId, env.cfg.orbRespawnDelayMs)]
      ensures players == old(players) && order == old(order) && orbs == old(orbs)
      ensures intentQueue == old(intentQueue) && timeMs == old(timeMs) && drawn == old(drawn)
    {
      orbRespawnQueue := orbRespawnQueue + [PendingOrbRespawn(orbId, env.cfg.orbRespawnDelayMs)];
    }

    /** `tickOrbRespawns(deltaMs)`: from the back, each entry loses `deltaMs`; one that
        falls due is removed and an orb is spawned for it. */
    method TickOrbRespawns(deltaMs: real)
      requires Valid()
      modifies this
      ensures Valid()
      ensures Abstract() == RespawnsTicked(env, old(Abstract()), deltaMs)
    {
      ghost var queue := orbRespawnQueue;
      // `spawnOrb` leaves the queue alone: the entries are worked on in a copy that is
      // written back once the scan is over.
      var q := orbRespawnQueue;
      var i := |q| - 1;
      while i >= 0
        invariant -1 <= i < |queue|
        invariant Valid()
        invariant q == queue[..i + 1] + Survivors(queue[i + 1..], deltaMs)
        invariant Spawned(orbs, drawn) == SpawnMany(env, players, old(orbs), old(drawn), Expired(queue[i + 1..], deltaMs))
        invariant Abstract() == old(Abstract()).(orbs := orbs, drawn := drawn)
      {
        RespawnStep(queue, i, deltaMs);
        QueueStep(queue, q, i, deltaMs);
        ghost var count := Expired(queue[i + 1..], deltaMs);
        ghost var before := Spawned(orbs, drawn);
        var respawn := Decremented(q[i], deltaMs);
        q := q[i := respawn];
        if respawn.timeMs <= 0.0 {
          q := q[..i] + q[i + 1..];
          SpawnOrb();
          SpawnManyNext(env, players, old(orbs), old(drawn), count, before, Spawned(orbs, drawn));
          assert Expired(queue[i..], deltaMs) == count + 1;
        } else {
          assert Expired(queue[i..], deltaMs) == count;
        }
        i := i - 1;
      }
      assert queue[0..] == queue;
      orbRespawnQueue := q;
    }

    /** `resolveDash(player, intent)` for the player stored under `id`. */
    method ResolveDash(id: string, intent: ProcessedIntent)
      requires id in players
      modifies this
      ensures players == old(players)[id := Dashed(env.cfg, old(players)[id], intent)]
      ensures order == old(order) && orbs == old(orbs) && intentQueue == old(intentQueue)
      ensures orbRespawnQueue == old(orbRespawnQueue) && timeMs == old(timeMs) && drawn == old(drawn)
    {
      var player := players[id];
      if !intent.dash || !player.CanDash() {
        assert Dashed(env.cfg, player, intent) == player;
        assert players[id := player] == players;
        return;
      }
      if intent.directionX == 0.0 && intent.directionY == 0.0 {
        assert Dashed(env.cfg, player, intent) == player;
        assert players[id := player] == players;
        return;
      }
      player := DashTriggered(player, env.cfg.dashDurationMs, env.cfg.dashCooldownMs, env.cfg.dashFxDurationMs);
      player := WithVelocity(player, player.vx + intent.directionX * env.cfg.dashSpeedBoost,
                                     player.vy + intent.directionY * env.cfg.dashSpeedBoost);
      assert player == Dashed(env.cfg, players[id], intent);
      players := players[id := player];
    }

    /** `resolveTagging(player, intent)` for the player stored under `id`. */
    method ResolveTagging(id: string, intent: ProcessedIntent)
      requires id in players
      modifies this
      ensures players == TagResolved(env, old(players), id, intent)
      ensures order == old(order) && orbs == old(orbs) && intentQueue == old(intentQueue)
      ensures orbRespawnQueue == old(orbRespawnQueue) && timeMs == old(timeMs) && drawn == old(drawn)
    {
      var player := players[id];
      if intent.tagTargetId.None? || intent.tagTargetId.value == "" || !player.IsDashing() {
        assert TagTarget(env, players, player, intent).None?;
        return;
      }
      var targetId := intent.tagTargetId.value;
      if targetId !in players {
        assert TagTarget(env, players, player, intent).None?;
        return;
      }
      var target := players[targetId];
      var distance := Hypot(env.sqrt, player.x - target.x, player.y - target.y);
      if distance > env.cfg.tagRadius {
        assert TagTarget(env, players, player, intent).None?;
        return;
      }
      assert TagTarget(env, players, player, intent) == Some(targetId);
      target := TagSlowApplied(target, env.cfg.tagSlowDurationMs, Some(player.id));
      target := WithVelocity(target, target.vx * env.cfg.tagSlowMultiplier, target.vy * env.cfg.tagSlowMultiplier);
      assert target == Tagged(env.cfg, players[targetId], player.id);
      players := players[targetId := target];
    }

    /** `applyAcceleration(player, intent, deltaSeconds)` for the player stored under `id`. */
    method ApplyAcceleration(id: string, intent: ProcessedIntent, deltaSeconds: real)
      requires id in players
      modifies this
      ensures players == old(players)[id := Accelerated(env, old(players)[id], intent, deltaSeconds)]
      ensures order == old(order) && orbs == old(orbs) && intentQueue == old(intentQueue)
      ensures orbRespawnQueue == old(orbRespawnQueue) && timeMs == old(timeMs) && drawn == old(drawn)
    {
      var player := players[id];
      var accel := env.cfg.maxAcceleration;
      if player.tagSlowMs > 0.0 {
        accel := accel * env.cfg.tagSlowMultiplier;
      }
      assert accel == Acceleration(env.cfg, player);
      var dvx := intent.directionX * env.cfg.maxSpeed - player.vx;
      var dvy := intent.directionY * env.cfg.maxSpeed - player.vy;
      assert dvx == GapX(env.cfg, player, intent) && dvy == GapY(env.cfg, player, intent);
      var deltaSpeed := Hypot(env.sqrt, dvx, dvy);
      if deltaSpeed > 0.0 {
        var maxChange := accel * deltaSeconds;
        assert maxChange == MaxChange(env.cfg, player, deltaSeconds);
        var scale := Min(1.0, maxChange / deltaSpeed);
        assert WithAddedVelocity(player, dvx * scale, dvy * scale) == Accelerated(env, player, intent, deltaSeconds);
        players := players[id := WithAddedVelocity(player, dvx * scale, dvy * scale)];
      } else {
        assert Accelerated(env, player, intent, deltaSeconds) == player;
        assert players[id := player] == players;
      }
    }

    /** `updatePlayer(player, intent, deltaMs)` for the player stored under `id`. */
    method UpdatePlayer(id: string, intent: ProcessedIntent, deltaMs: real)
      requires ValidEnv(env) && id in players
      modifies this
      ensures players == PlayerUpdated(env, old(players), id, intent, deltaMs)
      ensures order == old(order) && orbs == old(orbs) && intentQueue == old(intentQueue)
      ensures orbRespawnQueue == old(orbRespawnQueue) && timeMs == old(timeMs) && drawn == old(drawn)
    {
      var deltaSeconds := deltaMs / 1000.0;
      ghost var dashed := players[id := Dashed(env.cfg, players[id], intent)];
      ghost var tagged := TagResolved(env, dashed, id, intent);
      ResolveDash(id, intent);
      ResolveTagging(id, intent);
      ApplyAcceleration(id, intent, deltaSeconds);
      assert players == tagged[id := Accelerated(env, tagged[id], intent, Seconds(deltaMs))];
      var player := players[id];
      player := WithFriction(player, if player.tagSlowMs > 0.0 then SlowedFriction(env) else env.cfg.friction);
      // The cap at `MAX_SPEED`, or `MAX_SPEED + DASH_SPEED_BOOST` while dashing.
      player := SpeedCapped(env, player);
      // `addPosition(vx * deltaSeconds, vy * deltaSeconds)`.
      player := Integrated(player, deltaSeconds);
      player := ClampedPosition(env.sqrt, player, env.cfg.worldRadius - env.cfg.playerRadius);
      player := TimersTicked(player, deltaMs);
      player := player.(lastProcessedInput := intent.sequence);
      assert player == Moved(env, tagged[id], intent, deltaMs);
      assert players[id := player] == tagged[id := player];
      players := players[id := player];
    }

    /** `checkOrbCollection(player)` for the player stored under `id`: the orbs from the
        back, each one in reach scored, removed and scheduled for respawn. */
    method CheckOrbCollection(id: string)
      requires id in players
      modifies this
      ensures var c := Collected(env, old(players)[id], old(orbs), old(orbRespawnQueue));
        players == old(players)[id := c.player] && orbs == c.orbs && orbRespawnQueue == c.orbRespawnQueue
      ensures order == old(order) && intentQueue == old(intentQueue) && timeMs == old(timeMs) && drawn == old(drawn)
    {
      ghost var p := players[id];
      ghost var orbs0, queue0 := orbs, orbRespawnQueue;
      // The player is held by value: its score is written back once the scan is over.
      var player := players[id];
      var i := |orbs| - 1;
      while i >= 0
        invariant -1 <= i < |orbs0|
        invariant Collection(player, orbs, orbRespawnQueue) == ScanFrom(env, p, orbs0, queue0, i + 1)
        invariant players == old(players) && order == old(order) && intentQueue == old(intentQueue)
        invariant timeMs == old(timeMs) && drawn == old(drawn)
      {
        ScanStep(env, p, orbs0, queue0, i + 1);
        var orb := orbs[i];
        // `Math.hypot(player.x - orb.x, player.y - orb.y) < PLAYER_RADIUS + ORB_RADIUS`.
        if Collects(env, player, orb) {
          player := player.(score := player.score + orb.value);
          orbs := orbs[..i] + orbs[i + 1..];
          ScheduleOrbRespawn(orb.id);
        }
        i := i - 1;
      }
      assert orbs0[0..] == orbs0;
      players := players[id := player];
    }

    /** `resolvePlayerCollisions()`: every pair (i, j) with i < j of the players in map
        order, in order. The players are held by value: the pairs are resolved on a copy
        of the map, as the original resolves them on an array of the players, and the
        result is written back. */
    method ResolvePlayerCollisions()
      requires Present(order, players)
      modifies this
      ensures Abstract() == old(Abstract()).(players := CollideRows(env, old(players), old(order), |old(order)|))
    {
      players := ResolveCollisions(env, players, order);
    }

    /** The per-player loop of `update(deltaMs)`: in map order, each player's latest
        intent is consumed, the player is updated and collects the orbs in reach. */
    method RunPlayers(deltaMs: real)
      requires ValidEnv(env) && Present(order, players)
      modifies this
      ensures Abstract() == PlayersPass(env, old(Abstract()), old(order), deltaMs)
    {
      ghost var start := Abstract();
      var i := 0;
      while i < |order|
        invariant 0 <= i <= |order| && order == start.order
        invariant Present(order, players)
        invariant PlayersPass(env, Abstract(), order[i..], deltaMs) == PlayersPass(env, start, start.order, deltaMs)
      {
        var id := order[i];
        PassStep(env, Abstract(), order, i, deltaMs);
        ghost var turn := PlayerTurn(env, Abstract(), id, deltaMs);
        var intent := ProcessIntentQueue(id, players[id].lastProcessedInput);
        UpdatePlayer(id, intent, deltaMs);
        CheckOrbCollection(id);
        assert Abstract() == turn;
        i := i + 1;
      }
      assert order[|order|..] == [];
    }

    /** `update(deltaMs)`. */
    method Update(deltaMs: real)
      requires Valid()
      modifies this
      ensures Valid()
      ensures Abstract() == Tick(env, old(Abstract()), deltaMs)
    {
      ghost var start := Abstract();
      EnsureInitialOrbs();
      ghost var topped := Abstract();
      TickOrbRespawns(deltaMs);
      ghost var respawned := Abstract();
      RunPlayers(deltaMs);
      ghost var passed := Abstract();
      ResolvePlayerCollisions();
      ghost var collided := Abstract();
      timeMs := timeMs + deltaMs;
      TickSteps(env, start, topped, respawned, passed, collided, Abstract(), deltaMs);
      TickWellFormed(env, start, deltaMs);
    }
  }
}
