/** Client-side smoothing of one remote player
    (apps/client/src/network/InterpolatedPlayer.ts).

    The server's state is kept as a target; the position drawn on screen follows it
    with an exponential approach. Each `update(deltaSeconds)` moves the drawn point
    by the fraction `1 - exp(-12 * deltaSeconds)` of the way to the target. The
    exponential is not computed here: `update` takes that fraction `f` as its
    argument; for `deltaSeconds >= 0` it satisfies `0 <= f < 1`, and `f == 0`
    exactly when `deltaSeconds == 0`. */
module Interpolation {
  import opened Wrappers
  import opened Geometry

  /** `AuthoritativePlayerState`: one player as the server last reported it. */
  datatype AuthoritativeState = AuthoritativeState(
    id: string,
    x: real,
    y: real,
    vx: real,
    vy: real,
    score: int,
    taggedBy: Option<string>,
    tagSlowMs: real)

  /** The value of every field of an `InterpolatedPlayer`. */
  datatype View = View(
    id: string,
    name: string,
    targetX: real,
    targetY: real,
    targetVx: real,
    targetVy: real,
    interpolatedX: real,
    interpolatedY: real,
    score: int,
    taggedBy: Option<string>,
    tagSlowMs: real)
  {
    /** The drawn point coincides with the target. */
    predicate AtTarget() {
      interpolatedX == targetX && interpolatedY == targetY
    }
  }

  /** `new InterpolatedPlayer(id, name)`. */
  function Fresh(id: string, name: string): (v: View)
    ensures v.id == id && v.name == name && v.AtTarget()
    ensures v.targetX == 0.0 && v.targetY == 0.0 && v.targetVx == 0.0 && v.targetVy == 0.0
    ensures v.interpolatedX == 0.0 && v.interpolatedY == 0.0
    ensures v.score == 0 && v.taggedBy == None && v.tagSlowMs == 0.0
  {
    View(id, name, 0.0, 0.0, 0.0, 0.0, 0.0, 0.0, 0, None, 0.0)
  }

  /** `setAuthoritativeState(state)`: the target and the reported fields are replaced;
      the drawn point stays where it was. */
  function WithAuthoritative(v: View, s: AuthoritativeState): View {
    v.(targetX := s.x, targetY := s.y, targetVx := s.vx, targetVy := s.vy,
       score := s.score, taggedBy := s.taggedBy, tagSlowMs := s.tagSlowMs)
  }

  /** `snapToAuthoritative()`. */
  function Snapped(v: View): View {
    v.(interpolatedX := v.targetX, interpolatedY := v.targetY)
  }

  function Abs(r: real): real {
    if r < 0.0 then -r else r
  }

  /** `b` lies on the segment between `a` and `c`. */
  predicate Between(a: real, b: real, c: real) {
    (a <= b <= c) || (c <= b <= a)
  }

  /** One coordinate of `update`: `current + (target - current) * f`. A fraction in
      [0, 1] lands between the current value and the target, and the remaining gap is
      the old gap times `1 - f`. */
  function Approach(current: real, target: real, f: real): (r: real)
    ensures 0.0 <= f <= 1.0 ==> Between(current, r, target)
    ensures 0.0 <= f <= 1.0 ==> Abs(target - r) == (1.0 - f) * Abs(target - current)
    ensures r == target <==> current == target || f == 1.0
    ensures r == current <==> current == target || f == 0.0
  {
    var r := current + (target - current) * f;
    assert target - r == (target - current) * (1.0 - f);
    ProductZero(target - current, f);
    ProductZero(target - current, 1.0 - f);
    if 0.0 <= f <= 1.0 then
      FractionWithin(target - current, f);
      r
    else
      r
  }

  lemma ProductZero(a: real, b: real)
    ensures a * b == 0.0 <==> a == 0.0 || b == 0.0
  {
    if a != 0.0 && b != 0.0 {
      assert (a * b) / b == a;
    }
  }

  /** A fraction in [0, 1] of `d` lies between 0 and `d`. */
  lemma FractionWithin(d: real, f: real)
    requires 0.0 <= f <= 1.0
    ensures Between(0.0, d * f, d)
  {
    if 0.0 <= d {
      assert 0.0 <= d * f;
      assert d - d * f == d * (1.0 - f) >= 0.0;
    } else {
      assert (-d) * f >= 0.0;
      assert d * f - d == (-d) * (1.0 - f) >= 0.0;
    }
  }

  /** `update(deltaSeconds)` with `f = 1 - exp(-12 * deltaSeconds)`. */
  function Advanced(v: View, f: real): View {
    v.(interpolatedX := Approach(v.interpolatedX, v.targetX, f),
       interpolatedY := Approach(v.interpolatedY, v.targetY, f))
  }

  /** The distance from the drawn point to the target. */
  function Gap(sqrt: real -> real, v: View): real {
    Hypot(sqrt, v.targetX - v.interpolatedX, v.targetY - v.interpolatedY)
  }

  /** `setAuthoritativeState` changes nothing that is drawn, and the fields it
      replaces no longer depend on what they were. */
  lemma AuthoritativeKeepsDrawn(v: View, w: View, s: AuthoritativeState)
    ensures WithAuthoritative(v, s).interpolatedX == v.interpolatedX
    ensures WithAuthoritative(v, s).interpolatedY == v.interpolatedY
    ensures WithAuthoritative(v, s).(interpolatedX := w.interpolatedX, interpolatedY := w.interpolatedY, id := w.id, name := w.name)
         == WithAuthoritative(w, s)
  {
  }

  /** After `snapToAuthoritative` the player is drawn exactly at the target, and
      snapping again changes nothing. */
  lemma SnapReachesTarget(v: View)
    ensures Snapped(v).AtTarget()
    ensures Snapped(Snapped(v)) == Snapped(v)
    ensures v.AtTarget() <==> Snapped(v) == v
  {
  }

  /** A player first seen with state `s` is drawn at `s`'s position. */
  lemma FirstSightSnaps(id: string, name: string, s: AuthoritativeState)
    ensures var v := Snapped(WithAuthoritative(Fresh(id, name), s));
      v.interpolatedX == s.x && v.interpolatedY == s.y && v.AtTarget()
  {
  }

  /** `update` never overshoots: each drawn coordinate ends between where it was and
      the target. */
  lemma AdvanceNoOvershoot(v: View, f: real)
    requires 0.0 <= f < 1.0
    ensures Between(v.interpolatedX, Advanced(v, f).interpolatedX, v.targetX)
    ensures Between(v.interpolatedY, Advanced(v, f).interpolatedY, v.targetY)
    ensures Advanced(v, f).(interpolatedX := v.interpolatedX, interpolatedY := v.interpolatedY) == v
  {
  }

  /** `update` shrinks the distance to the target by the factor `1 - f`. */
  lemma AdvanceShrinksGap(sqrt: real -> real, v: View, f: real)
    requires IsSqrt(sqrt) && 0.0 <= f < 1.0
    ensures Gap(sqrt, Advanced(v, f)) == (1.0 - f) * Gap(sqrt, v)
    ensures Gap(sqrt, Advanced(v, f)) <= Gap(sqrt, v)
  {
    var w := Advanced(v, f);
    var dx, dy := v.targetX - v.interpolatedX, v.targetY - v.interpolatedY;
    assert v.targetX - w.interpolatedX == dx * (1.0 - f);
    assert v.targetY - w.interpolatedY == dy * (1.0 - f);
    HypotScale(sqrt, dx, dy, 1.0 - f, v.targetX - w.interpolatedX, v.targetY - w.interpolatedY);
    HypotNonNeg(sqrt, dx, dy);
    assert (1.0 - f) * Gap(sqrt, v) <= Gap(sqrt, v) by {
      assert f * Gap(sqrt, v) >= 0.0;
    }
  }

  /** `update` leaves the drawn point alone when it is already at the target, or when
      no time has passed (`f == 0`); otherwise it moves it. */
  lemma AdvanceFixedPoints(v: View, f: real)
    requires 0.0 <= f < 1.0
    ensures Advanced(v, f) == v <==> v.AtTarget() || f == 0.0
  {
    if Advanced(v, f) == v && !v.AtTarget() {
      if v.interpolatedX != v.targetX {
        assert Approach(v.interpolatedX, v.targetX, f) == v.interpolatedX;
      } else {
        assert Approach(v.interpolatedY, v.targetY, f) == v.interpolatedY;
      }
    }
  }

  /** A run of `update` calls with the target held fixed. */
  function AdvancedMany(v: View, fs: seq<real>): (r: View)
    ensures r.(interpolatedX := v.interpolatedX, interpolatedY := v.interpolatedY) == v
    decreases |fs|
  {
    if fs == [] then v else AdvancedMany(Advanced(v, fs[0]), fs[1..])
  }

  /** While the target stays put, repeated updates never move the drawn point away
      from it. */
  lemma {:induction false} AdvancedManyApproaches(sqrt: real -> real, v: View, fs: seq<real>)
    requires IsSqrt(sqrt)
    requires forall i :: 0 <= i < |fs| ==> 0.0 <= fs[i] < 1.0
    ensures Gap(sqrt, AdvancedMany(v, fs)) <= Gap(sqrt, v)
    decreases |fs|
  {
    if fs != [] {
      AdvanceShrinksGap(sqrt, v, fs[0]);
      AdvancedManyApproaches(sqrt, Advanced(v, fs[0]), fs[1..]);
    }
  }

  /** Client-side smoothing of one remote player. */
  class InterpolatedPlayer {
    const id: string
    var name: string
    var targetX: real
    var targetY: real
    var targetVx: real
    var targetVy: real
    var interpolatedX: real
    var interpolatedY: real
    var score: int
    var taggedBy: Option<string>
    var tagSlowMs: real

    /** The value of every field. */
    function Snapshot(): View
      reads this
    {
      View(id, name, targetX, targetY, targetVx, targetVy, interpolatedX, interpolatedY,
                         score, taggedBy, tagSlowMs)
    }

    constructor (id: string, name: string)
      ensures Snapshot() == Fresh(id, name)
    {
      this.id := id;
      this.name := name;
      targetX, targetY, targetVx, targetVy := 0.0, 0.0, 0.0, 0.0;
      interpolatedX, interpolatedY := 0.0, 0.0;
      score, taggedBy, tagSlowMs := 0, None, 0.0;
    }

    method SetAuthoritativeState(state: AuthoritativeState)
      modifies this
      ensures Snapshot() == WithAuthoritative(old(Snapshot()), state)
    {
      targetX := state.x;
      targetY := state.y;
      targetVx := state.vx;
      targetVy := state.vy;
      score := state.score;
      taggedBy := state.taggedBy;
      tagSlowMs := state.tagSlowMs;
    }

    method SnapToAuthoritative()
      modifies this
      ensures Snapshot() == Snapped(old(Snapshot()))
    {
      interpolatedX := targetX;
      interpolatedY := targetY;
    }

    /** `update(deltaSeconds)`, given `lerpFactor = 1 - exp(-12 * deltaSeconds)`. */
    method Update(lerpFactor: real)
      modifies this
      ensures Snapshot() == Advanced(old(Snapshot()), lerpFactor)
    {
      interpolatedX := interpolatedX + (targetX - interpolatedX) * lerpFactor;
      interpolatedY := interpolatedY + (targetY - interpolatedY) * lerpFactor;
    }

    /** `get renderX()`. */
    function RenderX(): real
      reads this
    {
      interpolatedX
    }

    /** `get renderY()`. */
    function RenderY(): real
      reads this
    {
      interpolatedY
    }
  }
}
