/** The server-side player entity (apps/server/src/game/Player.ts).

    `PlayerState` is the value of every field of a `Player`; the functions over it
    are the specification of the class's methods, and each method of `Player`
    is proved to move its `State()` exactly as the matching function says. */
module PlayerModel {
  import opened Wrappers
  import opened Geometry

  datatype PlayerState = PlayerState(
    id: string,
    name: string,
    x: real,
    y: real,
    vx: real,
    vy: real,
    dashCooldownMs: real,
    dashTimeRemainingMs: real,
    dashFxMs: real,
    tagSlowMs: real,
    taggedBy: Option<string>,
    score: int,
    lastProcessedInput: int)
  {
    /** `isDashing()`: the dash itself is still running. */
    predicate IsDashing() {
      dashTimeRemainingMs > 0.0
    }

    /** `canDash()`: the cooldown has run out. */
    predicate CanDash() {
      dashCooldownMs <= 0.0
    }

    predicate TimersNonNegative() {
      0.0 <= dashCooldownMs && 0.0 <= dashTimeRemainingMs && 0.0 <= dashFxMs && 0.0 <= tagSlowMs
    }

    /** A player is only marked as tagged while the slow lasts. */
    predicate TagConsistent() {
      tagSlowMs == 0.0 ==> taggedBy.None?
    }
  }

  /** `Math.max(0, t)`. */
  function FloorAtZero(t: real): real {
    if 0.0 < t then t else 0.0
  }

  /** The state of `new Player(id, name)`: at the origin, at rest, every timer and the score at zero. */
  function Initial(id: string, name: string): (s: PlayerState)
    ensures s.TimersNonNegative() && s.TagConsistent()
    ensures !s.IsDashing() && s.CanDash()
  {
    PlayerState(id, name, 0.0, 0.0, 0.0, 0.0, 0.0, 0.0, 0.0, 0.0, None, 0, 0)
  }

  /** `speed`: the length of the velocity. */
  function Speed(sqrt: real -> real, s: PlayerState): real {
    Hypot(sqrt, s.vx, s.vy)
  }

  /** `applyFriction(friction)`. */
  function WithFriction(s: PlayerState, friction: real): PlayerState {
    s.(vx := s.vx * friction, vy := s.vy * friction)
  }

  /** `addVelocity(dx, dy)`. */
  function WithAddedVelocity(s: PlayerState, dx: real, dy: real): PlayerState {
    s.(vx := s.vx + dx, vy := s.vy + dy)
  }

  /** `setVelocity(vx, vy)`. */
  function WithVelocity(s: PlayerState, vx: real, vy: real): PlayerState {
    s.(vx := vx, vy := vy)
  }

  /** `addPosition(dx, dy)`. */
  function WithAddedPosition(s: PlayerState, dx: real, dy: real): PlayerState {
    s.(x := s.x + dx, y := s.y + dy)
  }

  /** `clampPosition(radius)`: a player outside the circle of the given radius is put
      back onto it along the same ray and stopped; a player inside is left alone.
      Only the position and the velocity can change. */
  function ClampedPosition(sqrt: real -> real, s: PlayerState, radius: real): (r: PlayerState)
    requires IsSqrt(sqrt) && 0.0 <= radius
    ensures r.(x := s.x, y := s.y, vx := s.vx, vy := s.vy) == s
  {
    var dist := Hypot(sqrt, s.x, s.y);
    if dist > radius then
      var scale := radius / dist;
      s.(x := s.x * scale, y := s.y * scale, vx := 0.0, vy := 0.0)
    else
      s
  }

  /** Inside the circle, `clampPosition` changes nothing. */
  lemma ClampInside(sqrt: real -> real, s: PlayerState, radius: real)
    requires IsSqrt(sqrt) && 0.0 <= radius && Hypot(sqrt, s.x, s.y) <= radius
    ensures ClampedPosition(sqrt, s, radius) == s
  {
  }

  /** Outside the circle, `clampPosition` moves the player onto the circle along the same
      ray (the new position is the old one scaled by `radius / distance`) and stops it. */
  lemma ClampOutside(sqrt: real -> real, s: PlayerState, radius: real)
    requires IsSqrt(sqrt) && 0.0 <= radius < Hypot(sqrt, s.x, s.y)
    ensures var r := ClampedPosition(sqrt, s, radius);
      r.vx == 0.0 && r.vy == 0.0 &&
      Hypot(sqrt, r.x, r.y) == radius &&
      r.x * Hypot(sqrt, s.x, s.y) == s.x * radius && r.y * Hypot(sqrt, s.x, s.y) == s.y * radius
  {
    var r := ClampedPosition(sqrt, s, radius);
    HypotBasics(sqrt, s.x, s.y);
    HypotRescale(sqrt, s.x, s.y, radius, r.x, r.y);
  }

  /** After `clampPosition` the player is within the radius. */
  lemma ClampBound(sqrt: real -> real, s: PlayerState, radius: real)
    requires IsSqrt(sqrt) && 0.0 <= radius
    ensures Hypot(sqrt, ClampedPosition(sqrt, s, radius).x, ClampedPosition(sqrt, s, radius).y) <= radius
  {
    if Hypot(sqrt, s.x, s.y) > radius {
      ClampOutside(sqrt, s, radius);
    }
  }

  /** `tickTimers(deltaMs)`: each of the four timers goes down by `deltaMs` and stops at
      zero; the tagger is forgotten once the slow timer is zero. Nothing else changes. */
  function TimersTicked(s: PlayerState, deltaMs: real): (r: PlayerState)
    ensures r.TimersNonNegative() && r.TagConsistent()
    ensures r.dashCooldownMs >= s.dashCooldownMs - deltaMs && (r.dashCooldownMs == 0.0 || r.dashCooldownMs == s.dashCooldownMs - deltaMs)
    ensures r.dashTimeRemainingMs >= s.dashTimeRemainingMs - deltaMs && (r.dashTimeRemainingMs == 0.0 || r.dashTimeRemainingMs == s.dashTimeRemainingMs - deltaMs)
    ensures r.dashFxMs >= s.dashFxMs - deltaMs && (r.dashFxMs == 0.0 || r.dashFxMs == s.dashFxMs - deltaMs)
    ensures r.tagSlowMs >= s.tagSlowMs - deltaMs && (r.tagSlowMs == 0.0 || r.tagSlowMs == s.tagSlowMs - deltaMs)
    ensures 0.0 <= deltaMs && s.TimersNonNegative() ==>
      r.dashCooldownMs <= s.dashCooldownMs && r.dashTimeRemainingMs <= s.dashTimeRemainingMs &&
      r.dashFxMs <= s.dashFxMs && r.tagSlowMs <= s.tagSlowMs
    ensures r.tagSlowMs != 0.0 ==> r.taggedBy == s.taggedBy
    ensures r.(dashCooldownMs := s.dashCooldownMs, dashTimeRemainingMs := s.dashTimeRemainingMs,
               dashFxMs := s.dashFxMs, tagSlowMs := s.tagSlowMs, taggedBy := s.taggedBy) == s
  {
    var tagSlow := FloorAtZero(s.tagSlowMs - deltaMs);
    s.(dashCooldownMs := FloorAtZero(s.dashCooldownMs - deltaMs),
       dashTimeRemainingMs := FloorAtZero(s.dashTimeRemainingMs - deltaMs),
       dashFxMs := FloorAtZero(s.dashFxMs - deltaMs),
       tagSlowMs := tagSlow,
       taggedBy := if tagSlow == 0.0 then None else s.taggedBy)
  }

  /** `triggerDash(durationMs, cooldownMs, fxMs)`: the three dash timers take the given
      values and no other field changes. */
  function DashTriggered(s: PlayerState, durationMs: real, cooldownMs: real, fxMs: real): (r: PlayerState)
    ensures r.dashTimeRemainingMs == durationMs && r.dashCooldownMs == cooldownMs && r.dashFxMs == fxMs
    ensures r.(dashTimeRemainingMs := s.dashTimeRemainingMs, dashCooldownMs := s.dashCooldownMs,
               dashFxMs := s.dashFxMs) == s
  {
    s.(dashTimeRemainingMs := durationMs, dashCooldownMs := cooldownMs, dashFxMs := fxMs)
  }

  /** `applyTagSlow(durationMs, taggedBy)`: the slow timer and the tagger take the given
      values and no other field changes. */
  function TagSlowApplied(s: PlayerState, durationMs: real, taggedBy: Option<string>): (r: PlayerState)
    ensures r.tagSlowMs == durationMs && r.taggedBy == taggedBy
    ensures r.(tagSlowMs := s.tagSlowMs, taggedBy := s.taggedBy) == s
  {
    s.(tagSlowMs := durationMs, taggedBy := taggedBy)
  }

  /** Friction scales both velocity components by the same factor, so it scales the
      speed by that factor; with a factor in (0, 1] the speed does not grow. */
  lemma FrictionScalesSpeed(sqrt: real -> real, s: PlayerState, friction: real)
    requires IsSqrt(sqrt) && 0.0 <= friction
    ensures Speed(sqrt, WithFriction(s, friction)) == friction * Speed(sqrt, s)
    ensures friction <= 1.0 ==> Speed(sqrt, WithFriction(s, friction)) <= Speed(sqrt, s)
  {
    var r := WithFriction(s, friction);
    HypotScale(sqrt, s.vx, s.vy, friction, r.vx, r.vy);
    HypotBasics(sqrt, s.vx, s.vy);
    if friction <= 1.0 {
      calc { friction * Speed(sqrt, s); <= 1.0 * Speed(sqrt, s); }
    }
  }

  /** Dashing and the cooldown are independent: a dash shorter than its cooldown ends
      while the cooldown still blocks the next one. */
  lemma DashEndsBeforeCooldown(s: PlayerState, durationMs: real, cooldownMs: real, fxMs: real, elapsedMs: real)
    requires 0.0 <= durationMs <= elapsedMs < cooldownMs
    ensures DashTriggered(s, durationMs, cooldownMs, fxMs).IsDashing() <==> 0.0 < durationMs
    ensures !DashTriggered(s, durationMs, cooldownMs, fxMs).CanDash()
    ensures var t := TimersTicked(DashTriggered(s, durationMs, cooldownMs, fxMs), elapsedMs);
      !t.IsDashing() && !t.CanDash()
  {
  }

  /** The player entity. Every method updates fields in place. */
  class Player {
    const id: string
    var name: string
    var x: real
    var y: real
    var vx: real
    var vy: real
    var dashCooldownMs: real
    var dashTimeRemainingMs: real
    var dashFxMs: real
    var tagSlowMs: real
    var taggedBy: Option<string>
    var score: int
    var lastProcessedInput: int

    /** The value of every field. */
    function State(): PlayerState
      reads this
    {
      PlayerState(id, name, x, y, vx, vy, dashCooldownMs, dashTimeRemainingMs, dashFxMs,
                  tagSlowMs, taggedBy, score, lastProcessedInput)
    }

    constructor (id: string, name: string)
      ensures State() == Initial(id, name)
    {
      this.id := id;
      this.name := name;
      x, y, vx, vy := 0.0, 0.0, 0.0, 0.0;
      dashCooldownMs, dashTimeRemainingMs, dashFxMs, tagSlowMs := 0.0, 0.0, 0.0, 0.0;
      taggedBy := None;
      score, lastProcessedInput := 0, 0;
    }

    /** `get speed()`: the length of the velocity. */
    function Speed(sqrt: real -> real): (r: real)
      requires IsSqrt(sqrt)
      reads this
      ensures 0.0 <= r && r * r == NormSq(vx, vy)
      ensures r == 0.0 <==> vx == 0.0 && vy == 0.0
    {
      HypotBasics(sqrt, vx, vy);
      HypotZeroIff(sqrt, vx, vy);
      Hypot(sqrt, vx, vy)
    }

    predicate IsDashing()
      reads this
    {
      State().IsDashing()
    }

    predicate CanDash()
      reads this
    {
      State().CanDash()
    }

    method ApplyFriction(friction: real)
      modifies this
      ensures State() == WithFriction(old(State()), friction)
    {
      vx := vx * friction;
      vy := vy * friction;
    }

    method AddVelocity(dx: real, dy: real)
      modifies this
      ensures State() == WithAddedVelocity(old(State()), dx, dy)
    {
      vx := vx + dx;
      vy := vy + dy;
    }

    method SetVelocity(vx: real, vy: real)
      modifies this
      ensures State() == WithVelocity(old(State()), vx, vy)
    {
      this.vx := vx;
      this.vy := vy;
    }

    method AddPosition(dx: real, dy: real)
      modifies this
      ensures State() == WithAddedPosition(old(State()), dx, dy)
    {
      x := x + dx;
      y := y + dy;
    }

    method ClampPosition(sqrt: real -> real, radius: real)
      requires IsSqrt(sqrt) && 0.0 <= radius
      modifies this
      ensures State() == ClampedPosition(sqrt, old(State()), radius)
      ensures Hypot(sqrt, x, y) <= radius
    {
      ClampBound(sqrt, State(), radius);
      var dist := Hypot(sqrt, x, y);
      if dist > radius {
        var scale := radius / dist;
        x := x * scale;
        y := y * scale;
        vx := 0.0;
        vy := 0.0;
      }
    }

    method TickTimers(deltaMs: real)
      modifies this
      ensures State() == TimersTicked(old(State()), deltaMs)
      ensures State().TimersNonNegative() && State().TagConsistent()
    {
      dashCooldownMs := FloorAtZero(dashCooldownMs - deltaMs);
      dashTimeRemainingMs := FloorAtZero(dashTimeRemainingMs - deltaMs);
      dashFxMs := FloorAtZero(dashFxMs - deltaMs);
      tagSlowMs := FloorAtZero(tagSlowMs - deltaMs);
      if tagSlowMs == 0.0 {
        taggedBy := None;
      }
    }

    method TriggerDash(durationMs: real, cooldownMs: real, fxMs: real)
      modifies this
      ensures State() == DashTriggered(old(State()), durationMs, cooldownMs, fxMs)
    {
      dashTimeRemainingMs := durationMs;
      dashCooldownMs := cooldownMs;
      dashFxMs := fxMs;
    }

    method ApplyTagSlow(durationMs: real, taggedBy: Option<string>)
      modifies this
      ensures State() == TagSlowApplied(old(State()), durationMs, taggedBy)
    {
      tagSlowMs := durationMs;
      this.taggedBy := taggedBy;
    }
  }
}
