/** The shared input record and its direction normalisation
    (packages/shared/src/input.ts). */
module Input {
  import opened Wrappers
  import opened Geometry

  /** One client command. An absent `dash` is `false`; an absent or null
      `tagTargetId` is `None`. Sequence numbers are integers. */
  datatype InputIntent = InputIntent(
    sequence: int,
    moveX: real,
    moveY: real,
    dash: bool,
    tagTargetId: Option<string>)

  /** The triple `[directionX, directionY, magnitude]` returned by `normalizeDirection`. */
  datatype Direction = Direction(x: real, y: real, magnitude: real)

  /** `normalizeDirection(moveX, moveY)`: the zero vector stays zero; any other vector
      becomes its unit direction together with its length. */
  function NormalizeDirection(sqrt: real -> real, moveX: real, moveY: real): (r: Direction)
    requires IsSqrt(sqrt)
    ensures 0.0 <= r.magnitude && r.magnitude * r.magnitude == NormSq(moveX, moveY)
    ensures moveX == 0.0 && moveY == 0.0 ==> r == Direction(0.0, 0.0, 0.0)
    ensures (r.x == 0.0 && r.y == 0.0) <==> (moveX == 0.0 && moveY == 0.0)
    ensures !(moveX == 0.0 && moveY == 0.0) ==> 0.0 < r.magnitude && NormSq(r.x, r.y) == 1.0
    ensures r.x * r.magnitude == moveX && r.y * r.magnitude == moveY
    ensures (0.0 < r.x <==> 0.0 < moveX) && (r.x < 0.0 <==> moveX < 0.0)
    ensures (0.0 < r.y <==> 0.0 < moveY) && (r.y < 0.0 <==> moveY < 0.0)
  {
    HypotBasics(sqrt, moveX, moveY);
    HypotZeroIff(sqrt, moveX, moveY);
    var magnitude := Hypot(sqrt, moveX, moveY);
    if magnitude == 0.0 then
      Direction(0.0, 0.0, 0.0)
    else
      HypotUnit(sqrt, moveX, moveY);
      Direction(moveX / magnitude, moveY / magnitude, magnitude)
  }
}
