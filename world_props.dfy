/** What the room simulation promises, proved about the value specification
    `WorldSpec`: intent selection, dash and tag rules, the bounds after
    `updatePlayer`, conservation of orbs, collision symmetry, and the tick-level
    invariants (timers, tagger, speed, `lastProcessedInput`). */
module WorldProps {
  import opened Wrappers
  import opened Sequences
  import opened Geometry
  import opened Input
  import opened PlayerModel
  import opened WorldSpec

  // ---------------------------------------------------------------------------
  // Intent selection

  /** A non-empty buffer yields the normalised intent with the greatest sequence,
      the last one to arrive among equals. */
  lemma SelectsLatestIntent(sqrt: real -> real, queues: map<string, seq<InputIntent>>, id: string, fallbackSequence: int)
    requires IsSqrt(sqrt) && id in queues && queues[id] != []
    ensures var q := queues[id];
      exists k :: 0 <= k < |q| &&
        ConsumeIntent(sqrt, queues, id, fallbackSequence).0 == NormalizeIntent(sqrt, q[k]) &&
        (forall j :: 0 <= j < |q| ==> q[j].sequence <= q[k].sequence) &&
        (forall j :: k < j < |q| ==> q[j].sequence < q[k].sequence)
  {
    var k := LatestIndex(queues[id]);
    assert ConsumeIntent(sqrt, queues, id, fallbackSequence).0 == NormalizeIntent(sqrt, queues[id][k]);
  }

  /** Exactly one position has the greatest sequence with nothing equal after it. */
  lemma LatestIndexUnique(queue: seq<InputIntent>, k: nat)
    requires k < |queue|
    requires forall j :: 0 <= j < |queue| ==> queue[j].sequence <= queue[k].sequence
    requires forall j :: k < j < |queue| ==> queue[j].sequence < queue[k].sequence
    ensures k == LatestIndex(queue)
  {
  }

  // ---------------------------------------------------------------------------
  // Tagging

  /** A player other than the actor changes in `resolveTagging` only by being the named
      target of a dashing actor within `TAG_RADIUS`, and then it is slowed with the actor
      recorded as the tagger. */
  lemma TagChangesOnlyTarget(env: Env, ps: map<string, PlayerState>, id: string, intent: ProcessedIntent, k: string)
    requires id in ps && k in ps
    requires TagResolved(env, ps, id, intent)[k] != ps[k]
    ensures intent.tagTargetId == Some(k) && k != ""
    ensures ps[id].IsDashing()
    ensures Hypot(env.sqrt, ps[id].x - ps[k].x, ps[id].y - ps[k].y) <= env.cfg.tagRadius
    ensures TagResolved(env, ps, id, intent)[k] == Tagged(env.cfg, ps[k], ps[id].id)
  {
    var t := TagTarget(env, ps, ps[id], intent);
    assert t.Some? && t.value == k;
  }

  // ---------------------------------------------------------------------------
  // Movement

  /** `applyAcceleration` changes the velocity by exactly the smaller of the gap to
      `direction * MAX_SPEED` and `acceleration * deltaSeconds`, and nothing else. */
  lemma AccelerationBounded(env: Env, s: PlayerState, intent: ProcessedIntent, deltaSeconds: real)
    requires ValidEnv(env) && 0.0 <= MaxChange(env.cfg, s, deltaSeconds)
    ensures var r := Accelerated(env, s, intent, deltaSeconds);
      Hypot(env.sqrt, r.vx - s.vx, r.vy - s.vy) ==
        Min(Hypot(env.sqrt, GapX(env.cfg, s, intent), GapY(env.cfg, s, intent)), MaxChange(env.cfg, s, deltaSeconds))
    ensures Accelerated(env, s, intent, deltaSeconds).(vx := s.vx, vy := s.vy) == s
  {
    var r := Accelerated(env, s, intent, deltaSeconds);
    HypotNonNeg(env.sqrt, GapX(env.cfg, s, intent), GapY(env.cfg, s, intent));
    if Hypot(env.sqrt, GapX(env.cfg, s, intent), GapY(env.cfg, s, intent)) > 0.0 {
      MinScale(Hypot(env.sqrt, GapX(env.cfg, s, intent), GapY(env.cfg, s, intent)), MaxChange(env.cfg, s, deltaSeconds));
      HypotScale(env.sqrt, GapX(env.cfg, s, intent), GapY(env.cfg, s, intent),
        Min(1.0, MaxChange(env.cfg, s, deltaSeconds) / Hypot(env.sqrt, GapX(env.cfg, s, intent), GapY(env.cfg, s, intent))),
        r.vx - s.vx, r.vy - s.vy);
    } else {
      HypotZeroIff(env.sqrt, GapX(env.cfg, s, intent), GapY(env.cfg, s, intent));
      HypotZeroIff(env.sqrt, r.vx - s.vx, r.vy - s.vy);
    }
  }

  /** The factor `min(1, maxChange / deltaSpeed)` of `applyAcceleration` turns a gap of
      `deltaSpeed` into a step of `min(deltaSpeed, maxChange)`. */
  lemma MinScale(deltaSpeed: real, maxChange: real)
    requires 0.0 < deltaSpeed && 0.0 <= maxChange
    ensures 0.0 <= Min(1.0, maxChange / deltaSpeed)
    ensures Min(1.0, maxChange / deltaSpeed) * deltaSpeed == Min(deltaSpeed, maxChange)
  {
    if maxChange / deltaSpeed < 1.0 {
      assert (maxChange / deltaSpeed) * deltaSpeed == maxChange;
      assert maxChange < deltaSpeed;
    } else {
      calc {
        deltaSpeed;
        == 1.0 * deltaSpeed;
        <= (maxChange / deltaSpeed) * deltaSpeed;
        == maxChange;
      }
    }
  }

  /** The cap step leaves the speed at most the limit, and changes only a velocity
      that was above it. */
  lemma SpeedCapBound(env: Env, s: PlayerState)
    requires ValidEnv(env)
    ensures Speed(env.sqrt, SpeedCapped(env, s)) <= SpeedLimit(env.cfg, s)
    ensures Speed(env.sqrt, s) <= SpeedLimit(env.cfg, s) ==> SpeedCapped(env, s) == s
    ensures SpeedCapped(env, s).(vx := s.vx, vy := s.vy) == s
  {
    if Speed(env.sqrt, s) > SpeedLimit(env.cfg, s) {
      var r := SpeedCapped(env, s);
      HypotRescale(env.sqrt, s.vx, s.vy, SpeedLimit(env.cfg, s), r.vx, r.vy);
    }
  }

  /** After the movement part of `updatePlayer`: inside the arena, at most the speed
      limit of the cap step, timers floored, tagger consistent, and the consumed
      sequence recorded. */
  lemma MovedBounds(env: Env, s: PlayerState, intent: ProcessedIntent, deltaMs: real)
    requires ValidEnv(env)
    ensures var r := Moved(env, s, intent, deltaMs);
      Hypot(env.sqrt, r.x, r.y) <= ArenaRadius(env.cfg) &&
      Speed(env.sqrt, r) <= SpeedLimit(env.cfg, s) &&
      r.lastProcessedInput == intent.sequence &&
      r.TimersNonNegative() && r.TagConsistent()
  {
    var a := Accelerated(env, s, intent, Seconds(deltaMs));
    var f := Rubbed(env, a);
    var c := SpeedCapped(env, f);
    var i := Integrated(c, Seconds(deltaMs));
    var k := ClampedPosition(env.sqrt, i, ArenaRadius(env.cfg));
    var r := Moved(env, s, intent, deltaMs);
    assert SpeedLimit(env.cfg, f) == SpeedLimit(env.cfg, s);
    SpeedCapBound(env, f);
    ClampBound(env.sqrt, i, ArenaRadius(env.cfg));
    HypotNonNeg(env.sqrt, c.vx, c.vy);
    if Hypot(env.sqrt, i.x, i.y) > ArenaRadius(env.cfg) {
      ClampOutside(env.sqrt, i, ArenaRadius(env.cfg));
      HypotZeroIff(env.sqrt, k.vx, k.vy);
    } else {
      ClampInside(env.sqrt, i, ArenaRadius(env.cfg));
    }
    assert r.x == k.x && r.y == k.y && r.vx == k.vx && r.vy == k.vy;
  }

  /** The bounds of `updatePlayer` for the updated player: the arena, `MAX_SPEED +
      DASH_SPEED_BOOST` always and `MAX_SPEED` unless dashing at the cap step, and
      `lastProcessedInput` equal to the consumed sequence. */
  lemma UpdateBounds(env: Env, ps: map<string, PlayerState>, id: string, intent: ProcessedIntent, deltaMs: real)
    requires ValidEnv(env) && id in ps
    ensures var r := PlayerUpdated(env, ps, id, intent, deltaMs)[id];
      Hypot(env.sqrt, r.x, r.y) <= ArenaRadius(env.cfg) &&
      Speed(env.sqrt, r) <= env.cfg.maxSpeed + env.cfg.dashSpeedBoost &&
      (!Dashed(env.cfg, ps[id], intent).IsDashing() ==> Speed(env.sqrt, r) <= env.cfg.maxSpeed) &&
      r.lastProcessedInput == intent.sequence &&
      r.TimersNonNegative() && r.TagConsistent()
  {
    var dashed := ps[id := Dashed(env.cfg, ps[id], intent)];
    var tagged := TagResolved(env, dashed, id, intent);
    assert tagged[id].IsDashing() == dashed[id].IsDashing();
    MovedBounds(env, tagged[id], intent, deltaMs);
  }

  /** In `updatePlayer`, a player other than the updated one changes only by being tagged. */
  lemma UpdateTouchesOthersOnlyByTag(env: Env, ps: map<string, PlayerState>, id: string, intent: ProcessedIntent, deltaMs: real, k: string)
    requires ValidEnv(env) && id in ps && k in ps && k != id
    requires PlayerUpdated(env, ps, id, intent, deltaMs)[k] != ps[k]
    ensures intent.tagTargetId == Some(k) && Dashed(env.cfg, ps[id], intent).IsDashing()
    ensures PlayerUpdated(env, ps, id, intent, deltaMs)[k] == Tagged(env.cfg, ps[k], ps[id].id)
  {
    var dashed := ps[id := Dashed(env.cfg, ps[id], intent)];
    TagChangesOnlyTarget(env, dashed, id, intent, k);
  }

  // ---------------------------------------------------------------------------
  // Orb collection

  /** The kept orbs and the taken orbs together are the orbs there were. */
  lemma {:induction false} KeptTakenMultiset(env: Env, p: PlayerState, orbs: seq<Orb>)
    ensures multiset(Kept(env, p, orbs)) + multiset(Taken(env, p, orbs)) == multiset(orbs)
  {
    if orbs != [] {
      KeptTakenMultiset(env, p, orbs[1..]);
      assert orbs == [orbs[0]] + orbs[1..];
      assert multiset(orbs) == multiset{orbs[0]} + multiset(orbs[1..]);
    }
  }

  /** An orb is taken exactly when it is in reach, and kept exactly when it is not. */
  lemma {:induction false} KeptTakenMembers(env: Env, p: PlayerState, orbs: seq<Orb>)
    ensures forall o :: o in Taken(env, p, orbs) <==> o in orbs && Collects(env, p, o)
    ensures forall o :: o in Kept(env, p, orbs) <==> o in orbs && !Collects(env, p, o)
  {
    if orbs != [] {
      KeptTakenMembers(env, p, orbs[1..]);
      assert orbs == [orbs[0]] + orbs[1..];
    }
  }

  /** The backward scan splits the orbs: the kept ones and the taken ones together are
      the orbs there were, and an orb is taken exactly when it is in reach. */
  lemma KeptTakenPartition(env: Env, p: PlayerState, orbs: seq<Orb>)
    ensures |Kept(env, p, orbs)| + |Taken(env, p, orbs)| == |orbs|
    ensures multiset(Kept(env, p, orbs)) + multiset(Taken(env, p, orbs)) == multiset(orbs)
    ensures forall o :: o in Taken(env, p, orbs) <==> o in orbs && Collects(env, p, o)
    ensures forall o :: o in Kept(env, p, orbs) <==> o in orbs && !Collects(env, p, o)
  {
    KeptTakenMultiset(env, p, orbs);
    KeptTakenMembers(env, p, orbs);
    assert |multiset(orbs)| == |orbs|;
  }

  /** `checkOrbCollection` keeps live orbs plus pending respawns constant, adds the values
      of the taken orbs to the score and schedules each taken orb once. */
  lemma CollectionConserves(env: Env, p: PlayerState, orbs: seq<Orb>, queue: seq<PendingOrbRespawn>)
    ensures var c := Collected(env, p, orbs, queue);
      |c.orbs| + |c.orbRespawnQueue| == |orbs| + |queue| &&
      c.player == p.(score := p.score + SumValues(Taken(env, p, orbs))) &&
      c.orbRespawnQueue[..|queue|] == queue &&
      (forall i :: |queue| <= i < |c.orbRespawnQueue| ==> c.orbRespawnQueue[i].timeMs == env.cfg.orbRespawnDelayMs) &&
      multiset(c.orbs) + multiset(Taken(env, p, orbs)) == multiset(orbs)
  {
    KeptTakenPartition(env, p, orbs);
    var c := Collected(env, p, orbs, queue);
    assert c.orbRespawnQueue[..|queue|] == queue;
  }

  // ---------------------------------------------------------------------------
  // Spawning

  /** `spawnOrb` from attempt `attempt` on appends exactly one orb, placed at the last
      draw it used; it uses between one draw and one per remaining attempt plus the
      fallback, and the placed draw is at a free point unless it is the unchecked
      fallback. */
  lemma {:induction false} SpawnFromPlaces(env: Env, ps: map<string, PlayerState>, orbs: seq<Orb>, drawn: nat, attempt: nat)
    requires attempt <= SpawnAttempts
    decreases SpawnAttempts - attempt
    ensures var r := SpawnFrom(env, ps, orbs, drawn, attempt);
      drawn < r.drawn <= drawn + (SpawnAttempts - attempt) + 1 &&
      r.orbs == orbs + [Orb(env.draw(r.drawn - 1).id, env.draw(r.drawn - 1).x, env.draw(r.drawn - 1).y, env.cfg.orbScoreValue)] &&
      (r.drawn <= drawn + (SpawnAttempts - attempt) ==> SpaceFree(env, ps, orbs, env.draw(r.drawn - 1).x, env.draw(r.drawn - 1).y))
  {
    var r := SpawnFrom(env, ps, orbs, drawn, attempt);
    var d := env.draw(drawn);
    if attempt < SpawnAttempts && !SpaceFree(env, ps, orbs, d.x, d.y) {
      SpawnFromPlaces(env, ps, orbs, drawn + 1, attempt + 1);
      assert r == SpawnFrom(env, ps, orbs, drawn + 1, attempt + 1);
    } else {
      assert r == Spawned(orbs + [Orb(d.id, d.x, d.y, env.cfg.orbScoreValue)], drawn + 1);
      assert env.draw(r.drawn - 1) == d;
    }
  }

  /** Every draw `spawnOrb` passes over before the one it places was at a crowded point. */
  lemma {:induction false} SpawnFromSkipsCrowded(env: Env, ps: map<string, PlayerState>, orbs: seq<Orb>, drawn: nat, attempt: nat)
    requires attempt <= SpawnAttempts
    decreases SpawnAttempts - attempt
    ensures var r := SpawnFrom(env, ps, orbs, drawn, attempt);
      forall n :: drawn <= n < r.drawn - 1 ==> !SpaceFree(env, ps, orbs, env.draw(n).x, env.draw(n).y)
  {
    var r := SpawnFrom(env, ps, orbs, drawn, attempt);
    var d := env.draw(drawn);
    if attempt < SpawnAttempts && !SpaceFree(env, ps, orbs, d.x, d.y) {
      SpawnFromSkipsCrowded(env, ps, orbs, drawn + 1, attempt + 1);
      assert r == SpawnFrom(env, ps, orbs, drawn + 1, attempt + 1);
      forall n | drawn <= n < r.drawn - 1
        ensures !SpaceFree(env, ps, orbs, env.draw(n).x, env.draw(n).y)
      {
        if n == drawn {
          assert env.draw(n) == d;
        }
      }
    } else {
      assert r.drawn == drawn + 1;
    }
  }

  /** `spawnOrb()`: one orb at the first free point among at most eight draws, or at a
      ninth, unchecked draw when all eight were crowded. */
  lemma SpawnOrbPlaces(env: Env, ps: map<string, PlayerState>, orbs: seq<Orb>, drawn: nat)
    ensures var r := SpawnOrb(env, ps, orbs, drawn);
      drawn < r.drawn <= drawn + SpawnAttempts + 1 &&
      r.orbs == orbs + [Orb(env.draw(r.drawn - 1).id, env.draw(r.drawn - 1).x, env.draw(r.drawn - 1).y, env.cfg.orbScoreValue)] &&
      (r.drawn <= drawn + SpawnAttempts ==> SpaceFree(env, ps, orbs, env.draw(r.drawn - 1).x, env.draw(r.drawn - 1).y)) &&
      (forall n :: drawn <= n < r.drawn - 1 ==> !SpaceFree(env, ps, orbs, env.draw(n).x, env.draw(n).y))
  {
    SpawnFromPlaces(env, ps, orbs, drawn, 0);
    SpawnFromSkipsCrowded(env, ps, orbs, drawn, 0);
  }

  /** A run of `spawnOrb()` calls only appends: the orbs there were stay, in order. */
  lemma {:induction false} SpawnManyKeeps(env: Env, ps: map<string, PlayerState>, orbs: seq<Orb>, drawn: nat, count: nat)
    ensures SpawnMany(env, ps, orbs, drawn, count).orbs[..|orbs|] == orbs
    decreases count
  {
    if count > 0 {
      var first := SpawnOrb(env, ps, orbs, drawn);
      SpawnOrbPlaces(env, ps, orbs, drawn);
      SpawnManyKeeps(env, ps, first.orbs, first.drawn, count - 1);
      var r := SpawnMany(env, ps, orbs, drawn, count);
      assert r.orbs[..|orbs|] == r.orbs[..|first.orbs|][..|orbs|];
    }
  }

  /** `ensureInitialOrbs()` keeps every orb it finds and only appends new ones. */
  lemma ToppedUpKeepsOrbs(env: Env, ws: WorldState)
    ensures ToppedUp(env, ws).orbs[..|ws.orbs|] == ws.orbs
  {
    SpawnManyKeeps(env, ws.players, ws.orbs, ws.drawn, MissingOrbs(env.cfg, ws.orbs));
  }

  // ---------------------------------------------------------------------------
  // Respawning

  /** Every pending entry either survives or falls due. */
  lemma {:induction false} RespawnPartition(queue: seq<PendingOrbRespawn>, deltaMs: real)
    ensures |Survivors(queue, deltaMs)| + Expired(queue, deltaMs) == |queue|
  {
    if queue != [] {
      RespawnPartition(queue[1..], deltaMs);
    }
  }

  /** The entries that stay are the entries there were, `deltaMs` closer to due, and
      each of them is still pending. */
  lemma {:induction false} SurvivorsPending(queue: seq<PendingOrbRespawn>, deltaMs: real)
    ensures forall e :: e in Survivors(queue, deltaMs) ==> e.timeMs > 0.0
    ensures forall e :: e in Survivors(queue, deltaMs) ==> exists e0 :: e0 in queue && e == Decremented(e0, deltaMs)
  {
    if queue != [] {
      SurvivorsPending(queue[1..], deltaMs);
      forall e | e in Survivors(queue, deltaMs)
        ensures e.timeMs > 0.0 && exists e0 :: e0 in queue && e == Decremented(e0, deltaMs)
      {
        if e !in Survivors(queue[1..], deltaMs) {
          assert e == Decremented(queue[0], deltaMs);
        } else {
          var e0 :| e0 in queue[1..] && e == Decremented(e0, deltaMs);
          assert e0 in queue;
        }
      }
    }
  }

  /** `tickOrbRespawns` keeps live orbs plus pending respawns constant: one orb is
      spawned for each entry it removes. */
  lemma RespawnsConserve(env: Env, ws: WorldState, deltaMs: real)
    ensures var r := RespawnsTicked(env, ws, deltaMs);
      |r.orbs| + |r.orbRespawnQueue| == |ws.orbs| + |ws.orbRespawnQueue| &&
      |r.orbs| == |ws.orbs| + Expired(ws.orbRespawnQueue, deltaMs)
  {
    RespawnPartition(ws.orbRespawnQueue, deltaMs);
  }

  // ---------------------------------------------------------------------------
  // Collisions

  /** One pair of `resolvePlayerCollisions` touches only the two players of the pair,
      and leaves them alone when they coincide or do not overlap. */
  lemma SeparatedUntouched(env: Env, ps: map<string, PlayerState>, a: string, b: string)
    requires a in ps && b in ps && a != b
    ensures forall k :: k in ps && k != a && k != b ==> Separated(env, ps, a, b)[k] == ps[k]
    ensures Hypot(env.sqrt, ps[b].x - ps[a].x, ps[b].y - ps[a].y) == 0.0 ||
            MinDistance(env.cfg) <= Hypot(env.sqrt, ps[b].x - ps[a].x, ps[b].y - ps[a].y)
            ==> Separated(env, ps, a, b) == ps
  {
  }

  /** One pair of `resolvePlayerCollisions`: the two players move by equal and opposite
      amounts, so their midpoint stays, along the line from the first to the second,
      away from each other, by half the overlap each. */
  lemma SeparatedPair(env: Env, ps: map<string, PlayerState>, a: string, b: string)
    requires ValidEnv(env) && a in ps && b in ps && a != b
    requires 0.0 < Hypot(env.sqrt, ps[b].x - ps[a].x, ps[b].y - ps[a].y) < MinDistance(env.cfg)
    ensures var r := Separated(env, ps, a, b);
      r[a].x + r[b].x == ps[a].x + ps[b].x && r[a].y + r[b].y == ps[a].y + ps[b].y &&
      (r[b].x - ps[b].x) * (ps[b].y - ps[a].y) == (r[b].y - ps[b].y) * (ps[b].x - ps[a].x) &&
      0.0 <= (r[b].x - ps[b].x) * (ps[b].x - ps[a].x) + (r[b].y - ps[b].y) * (ps[b].y - ps[a].y) &&
      Hypot(env.sqrt, r[b].x - ps[b].x, r[b].y - ps[b].y) ==
        Overlap(env.cfg, Hypot(env.sqrt, ps[b].x - ps[a].x, ps[b].y - ps[a].y))
  {
    var r := Separated(env, ps, a, b);
    var d := Hypot(env.sqrt, ps[b].x - ps[a].x, ps[b].y - ps[a].y);
    PushAlong(env.sqrt, ps[b].x - ps[a].x, ps[b].y - ps[a].y, Overlap(env.cfg, d), r[b].x - ps[b].x, r[b].y - ps[b].y);
  }

  /** `q` is player `p` at most at another position. */
  predicate MovedOnly(p: PlayerState, q: PlayerState) {
    q.id == p.id && q.name == p.name && q.vx == p.vx && q.vy == p.vy &&
    q.dashCooldownMs == p.dashCooldownMs && q.dashTimeRemainingMs == p.dashTimeRemainingMs &&
    q.dashFxMs == p.dashFxMs && q.tagSlowMs == p.tagSlowMs && q.taggedBy == p.taggedBy &&
    q.score == p.score && q.lastProcessedInput == p.lastProcessedInput
  }

  /** One pair of `resolvePlayerCollisions` changes positions only. */
  lemma SeparatedOnlyMoves(env: Env, ps: map<string, PlayerState>, a: string, b: string, k: string)
    requires a in ps && b in ps && k in ps
    ensures MovedOnly(ps[k], Separated(env, ps, a, b)[k])
  {
  }

  /** Row `i` of `resolvePlayerCollisions`, up to column `j`, changes positions only. */
  lemma {:induction false} CollideRowOnlyMoves(env: Env, ps: map<string, PlayerState>, order: seq<string>, i: nat, j: nat, k: string)
    requires Present(order, ps) && i < j <= |order| && k in ps
    ensures MovedOnly(ps[k], CollideRow(env, ps, order, i, j)[k])
    decreases j
  {
    if j > i + 1 {
      var prev := CollideRow(env, ps, order, i, j - 1);
      CollideRowOnlyMoves(env, ps, order, i, j - 1, k);
      SeparatedOnlyMoves(env, prev, order[i], order[j - 1], k);
    }
  }

  /** `resolvePlayerCollisions` changes positions only: scores, velocities, timers,
      tagger and `lastProcessedInput` stay as they were. */
  lemma {:induction false} CollideRowsOnlyMoves(env: Env, ps: map<string, PlayerState>, order: seq<string>, i: nat, k: string)
    requires Present(order, ps) && i <= |order| && k in ps
    ensures MovedOnly(ps[k], CollideRows(env, ps, order, i)[k])
  {
    if i > 0 {
      var prev := CollideRows(env, ps, order, i - 1);
      CollideRowsOnlyMoves(env, ps, order, i - 1, k);
      assert Present(order, prev);
      var row := CollideRow(env, prev, order, i - 1, |order|);
      CollideRowOnlyMoves(env, prev, order, i - 1, |order|, k);
      assert CollideRows(env, ps, order, i) == row;
      assert MovedOnly(ps[k], prev[k]) && MovedOnly(prev[k], row[k]);
    }
  }

  /** Moving by `overlap` along the unit vector of (dx, dy) is a move of length `overlap`
      in the direction of (dx, dy). */
  lemma PushAlong(sqrt: real -> real, dx: real, dy: real, overlap: real, mx: real, my: real)
    requires IsSqrt(sqrt) && 0.0 < Hypot(sqrt, dx, dy) && 0.0 <= overlap
    requires mx == dx / Hypot(sqrt, dx, dy) * overlap && my == dy / Hypot(sqrt, dx, dy) * overlap
    ensures mx * dy == my * dx
    ensures 0.0 <= mx * dx + my * dy
    ensures Hypot(sqrt, mx, my) == overlap
  {
    var d := Hypot(sqrt, dx, dy);
    var k := overlap / d;
    assert 0.0 <= k;
    assert mx == dx * k && my == dy * k;
    HypotScale(sqrt, dx, dy, k, mx, my);
    assert k * d == overlap;
    SquareNonNeg(dx);
    SquareNonNeg(dy);
    calc {
      mx * dx + my * dy;
      == k * (dx * dx + dy * dy);
      >= 0.0;
    }
  }

  // ---------------------------------------------------------------------------
  // The tick

  /** What every player satisfies once it has had its turn in a tick. The tagger
      consistency needs a positive slow duration (a zero one records a tagger with a
      zero timer), the speed bound a slow multiplier in [0, 1]. */
  ghost predicate Settled(env: Env, s: PlayerState) {
    s.TimersNonNegative() &&
    (0.0 < env.cfg.tagSlowDurationMs ==> s.TagConsistent()) &&
    (0.0 <= env.cfg.tagSlowMultiplier <= 1.0 ==> Speed(env.sqrt, s) <= env.cfg.maxSpeed + env.cfg.dashSpeedBoost)
  }

  /** Being tagged keeps a settled player settled. */
  lemma TaggedStaysSettled(env: Env, s: PlayerState, actorId: string)
    requires ValidEnv(env) && Settled(env, s)
    ensures Settled(env, Tagged(env.cfg, s, actorId))
  {
    var r := Tagged(env.cfg, s, actorId);
    var m := env.cfg.tagSlowMultiplier;
    assert r.dashCooldownMs == s.dashCooldownMs && r.dashTimeRemainingMs == s.dashTimeRemainingMs;
    assert r.dashFxMs == s.dashFxMs && r.tagSlowMs == env.cfg.tagSlowDurationMs;
    assert r.TimersNonNegative();
    if 0.0 <= m <= 1.0 {
      HypotScale(env.sqrt, s.vx, s.vy, m, r.vx, r.vy);
      HypotBasics(env.sqrt, s.vx, s.vy);
      var v := Speed(env.sqrt, s);
      assert Speed(env.sqrt, r) == m * v;
      assert m * v <= v by {
        assert 0.0 <= v;
        assert (1.0 - m) * v >= 0.0;
      }
    }
  }

  /** One player's turn settles that player and keeps every settled player settled. */
  lemma TurnSettles(env: Env, ws: WorldState, id: string, deltaMs: real)
    requires ValidEnv(env) && id in ws.players
    ensures var r := PlayerTurn(env, ws, id, deltaMs);
      Settled(env, r.players[id]) &&
      forall k :: k in ws.players && Settled(env, ws.players[k]) ==> Settled(env, r.players[k])
  {
    var (intent, queues) := ConsumeIntent(env.sqrt, ws.intentQueue, id, ws.players[id].lastProcessedInput);
    var ps := ws.players;
    var dashed := ps[id := Dashed(env.cfg, ps[id], intent)];
    var tagged := TagResolved(env, dashed, id, intent);
    var updated := PlayerUpdated(env, ps, id, intent, deltaMs);
    UpdateBounds(env, ps, id, intent, deltaMs);
    var c := Collected(env, updated[id], ws.orbs, ws.orbRespawnQueue);
    var r := PlayerTurn(env, ws, id, deltaMs);
    assert r.players == updated[id := c.player];
    assert Settled(env, updated[id]);
    assert Speed(env.sqrt, c.player) == Speed(env.sqrt, updated[id]);
    forall k | k in ps && Settled(env, ps[k]) ensures Settled(env, r.players[k]) {
      if k != id && updated[k] != ps[k] {
        UpdateTouchesOthersOnlyByTag(env, ps, id, intent, deltaMs, k);
        TaggedStaysSettled(env, ps[k], ps[id].id);
      }
    }
  }

  /** The pass over `ids` keeps a settled player settled. */
  lemma {:induction false} PassKeepsSettled(env: Env, ws: WorldState, ids: seq<string>, deltaMs: real, id: string)
    requires ValidEnv(env) && Present(ids, ws.players)
    requires id in ws.players && Settled(env, ws.players[id])
    ensures Settled(env, PlayersPass(env, ws, ids, deltaMs).players[id])
    decreases |ids|
  {
    if ids != [] {
      TurnSettles(env, ws, ids[0], deltaMs);
      PassKeepsSettled(env, PlayerTurn(env, ws, ids[0], deltaMs), ids[1..], deltaMs, id);
    }
  }

  /** After the pass over `ids`, every player that had a turn is settled. */
  lemma {:induction false} PassSettles(env: Env, ws: WorldState, ids: seq<string>, deltaMs: real, i: nat)
    requires ValidEnv(env) && Present(ids, ws.players) && i < |ids|
    ensures Settled(env, PlayersPass(env, ws, ids, deltaMs).players[ids[i]])
    decreases |ids|
  {
    var next := PlayerTurn(env, ws, ids[0], deltaMs);
    if i == 0 {
      TurnSettles(env, ws, ids[0], deltaMs);
      PassKeepsSettled(env, next, ids[1..], deltaMs, ids[0]);
    } else {
      PassSettles(env, next, ids[1..], deltaMs, i - 1);
      assert ids[1..][i - 1] == ids[i];
    }
  }

  /** Separation moves players without touching timers, tagger or velocity. */
  lemma CollisionsKeepSettled(env: Env, ps: map<string, PlayerState>, order: seq<string>, id: string)
    requires Present(order, ps) && id in ps && Settled(env, ps[id])
    ensures Settled(env, CollideRows(env, ps, order, |order|)[id])
  {
    var r := CollideRows(env, ps, order, |order|);
    CollideRowsOnlyMoves(env, ps, order, |order|, id);
    assert r[id].vx == ps[id].vx && r[id].vy == ps[id].vy;
  }

  /** `update(deltaMs)` keeps the players map and its iteration order in step, and every
      player under its own id. */
  lemma TickWellFormed(env: Env, ws: WorldState, deltaMs: real)
    requires ValidEnv(env) && WellFormed(ws)
    ensures WellFormed(Tick(env, ws, deltaMs))
  {
    var topped := ToppedUp(env, ws);
    var respawned := RespawnsTicked(env, topped, deltaMs);
    var passed := PlayersPass(env, respawned, respawned.order, deltaMs);
    var r := Tick(env, ws, deltaMs);
    forall id | id in r.players
      ensures r.players[id].id == id
    {
      CollideRowsOnlyMoves(env, passed.players, passed.order, |passed.order|, id);
    }
  }

  /** After `update(deltaMs)` every player's timers are non-negative; with a positive slow
      duration a player has a tagger exactly while slowed; with a slow multiplier in
      [0, 1] no player is faster than `MAX_SPEED + DASH_SPEED_BOOST`. Nothing is
      assumed about the player's state before the tick. */
  lemma TickSettles(env: Env, ws: WorldState, deltaMs: real, id: string)
    requires ValidEnv(env) && WellFormed(ws) && id in ws.players
    ensures var p := Tick(env, ws, deltaMs).players[id];
      p.TimersNonNegative() &&
      (0.0 < env.cfg.tagSlowDurationMs ==> p.TagConsistent()) &&
      (0.0 <= env.cfg.tagSlowMultiplier <= 1.0 ==> Speed(env.sqrt, p) <= env.cfg.maxSpeed + env.cfg.dashSpeedBoost)
  {
    var topped := ToppedUp(env, ws);
    var respawned := RespawnsTicked(env, topped, deltaMs);
    var passed := PlayersPass(env, respawned, respawned.order, deltaMs);
    var j :| 0 <= j < |respawned.order| && respawned.order[j] == id;
    PassSettles(env, respawned, respawned.order, deltaMs, j);
    CollisionsKeepSettled(env, passed.players, passed.order, id);
    assert Settled(env, Tick(env, ws, deltaMs).players[id]);
  }

  /** One player's turn keeps live orbs plus pending respawns constant. */
  lemma TurnConserves(env: Env, ws: WorldState, id: string, deltaMs: real)
    requires ValidEnv(env) && id in ws.players
    ensures var r := PlayerTurn(env, ws, id, deltaMs);
      |r.orbs| + |r.orbRespawnQueue| == |ws.orbs| + |ws.orbRespawnQueue|
  {
    var (intent, queues) := ConsumeIntent(env.sqrt, ws.intentQueue, id, ws.players[id].lastProcessedInput);
    var ps := PlayerUpdated(env, ws.players, id, intent, deltaMs);
    CollectionConserves(env, ps[id], ws.orbs, ws.orbRespawnQueue);
  }

  /** Orbs are conserved by the pass over `ids`. */
  lemma {:induction false} PassConserves(env: Env, ws: WorldState, ids: seq<string>, deltaMs: real)
    requires ValidEnv(env) && Present(ids, ws.players)
    ensures var r := PlayersPass(env, ws, ids, deltaMs);
      |r.orbs| + |r.orbRespawnQueue| == |ws.orbs| + |ws.orbRespawnQueue|
    decreases |ids|
  {
    if ids != [] {
      TurnConserves(env, ws, ids[0], deltaMs);
      PassConserves(env, PlayerTurn(env, ws, ids[0], deltaMs), ids[1..], deltaMs);
    }
  }

  /** `update(deltaMs)` first tops the orbs up to `STARTING_ORB_COUNT`; after that, live
      orbs plus pending respawns stay constant through the rest of the tick. */
  lemma TickConservesOrbs(env: Env, ws: WorldState, deltaMs: real)
    requires ValidEnv(env) && WellFormed(ws)
    ensures var r := Tick(env, ws, deltaMs);
      |r.orbs| + |r.orbRespawnQueue| ==
        (if |ws.orbs| < env.cfg.startingOrbCount then env.cfg.startingOrbCount else |ws.orbs|) + |ws.orbRespawnQueue|
  {
    var topped := ToppedUp(env, ws);
    var respawned := RespawnsTicked(env, topped, deltaMs);
    RespawnsConserve(env, topped, deltaMs);
    PassConserves(env, respawned, respawned.order, deltaMs);
  }

  /** The sequence number a player's turn records: that of the latest buffered intent,
      or the previous value when the buffer is empty or missing. */
  function RecordedSequence(queues: map<string, seq<InputIntent>>, id: string, previous: int): int {
    if id !in queues || queues[id] == [] then previous
    else queues[id][LatestIndex(queues[id])].sequence
  }

  /** One player's turn records the sequence its buffer selects, empties only its own
      buffer, and leaves every other player's `lastProcessedInput` alone. */
  lemma TurnRecordsSequence(env: Env, ws: WorldState, id: string, deltaMs: real)
    requires ValidEnv(env) && id in ws.players
    ensures var r := PlayerTurn(env, ws, id, deltaMs);
      r.players[id].lastProcessedInput ==
        RecordedSequence(ws.intentQueue, id, ws.players[id].lastProcessedInput) &&
      (forall k :: k in ws.players && k != id ==>
        r.players[k].lastProcessedInput == ws.players[k].lastProcessedInput) &&
      (forall k :: k in ws.intentQueue && k != id ==> r.intentQueue[k] == ws.intentQueue[k])
  {
    var (intent, queues) := ConsumeIntent(env.sqrt, ws.intentQueue, id, ws.players[id].lastProcessedInput);
    var ps := PlayerUpdated(env, ws.players, id, intent, deltaMs);
    UpdateBounds(env, ws.players, id, intent, deltaMs);
    var r := PlayerTurn(env, ws, id, deltaMs);
    assert r.players[id].lastProcessedInput == intent.sequence;
    forall k | k in ws.players && k != id
      ensures r.players[k].lastProcessedInput == ws.players[k].lastProcessedInput
    {
      if ps[k] != ws.players[k] {
        UpdateTouchesOthersOnlyByTag(env, ws.players, id, intent, deltaMs, k);
      }
    }
  }

  /** In the pass over `ids`, each listed player records the sequence its buffer
      selected; an unlisted player keeps its buffer and its recorded sequence. */
  lemma {:induction false} PassRecordsSequence(env: Env, ws: WorldState, ids: seq<string>, deltaMs: real, id: string)
    requires ValidEnv(env) && Present(ids, ws.players) && NoDuplicates(ids) && id in ws.players
    ensures var r := PlayersPass(env, ws, ids, deltaMs);
      (id in ids ==>
        r.players[id].lastProcessedInput ==
          RecordedSequence(ws.intentQueue, id, ws.players[id].lastProcessedInput)) &&
      (id !in ids ==>
        r.players[id].lastProcessedInput == ws.players[id].lastProcessedInput &&
        (id in ws.intentQueue ==> r.intentQueue[id] == ws.intentQueue[id]))
    decreases |ids|
  {
    if ids != [] {
      var next := PlayerTurn(env, ws, ids[0], deltaMs);
      TurnRecordsSequence(env, ws, ids[0], deltaMs);
      NoDuplicatesSplit(ids);
      PassRecordsSequence(env, next, ids[1..], deltaMs, id);
      if id != ids[0] {
        assert id in ids ==> id in ids[1..];
      }
    }
  }

  /** After `update(deltaMs)` each player's `lastProcessedInput` is the sequence of the
      latest intent it had buffered; with an empty or missing buffer it is unchanged. */
  lemma TickRecordsSequence(env: Env, ws: WorldState, deltaMs: real, id: string)
    requires ValidEnv(env) && WellFormed(ws) && id in ws.players
    ensures Tick(env, ws, deltaMs).players[id].lastProcessedInput ==
      RecordedSequence(ws.intentQueue, id, ws.players[id].lastProcessedInput)
    ensures id !in ws.intentQueue || ws.intentQueue[id] == [] ==>
      Tick(env, ws, deltaMs).players[id].lastProcessedInput == ws.players[id].lastProcessedInput
  {
    var topped := ToppedUp(env, ws);
    var respawned := RespawnsTicked(env, topped, deltaMs);
    var passed := PlayersPass(env, respawned, respawned.order, deltaMs);
    PassRecordsSequence(env, respawned, respawned.order, deltaMs, id);
    CollideRowsOnlyMoves(env, passed.players, passed.order, |passed.order|, id);
    var r := Tick(env, ws, deltaMs);
    assert r.players[id].lastProcessedInput == passed.players[id].lastProcessedInput;
  }
}
