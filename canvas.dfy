/** The input helpers of the canvas demo (apps/web/components/GameCanvas.tsx): the
    keyboard and joystick directions, their combination, and the per-frame step of
    the locally drawn player. Lengths use `Math.hypot`, taken as `Hypot` over a
    square-root parameter. */
module Canvas {
  import opened Geometry

  /** `Vector2`. */
  datatype Vector2 = Vector2(x: real, y: real)

  const Zero := Vector2(0.0, 0.0)

  /** `JOYSTICK_RADIUS`. */
  const JoystickRadius: real := 60.0

  /** `PLAYER_SPEED`. */
  const PlayerSpeed: real := 3.0

  /** How far the drawn player keeps from each edge of the canvas. */
  const EdgeMargin: real := 20.0

  function Length(sqrt: real -> real, v: Vector2): real {
    Hypot(sqrt, v.x, v.y)
  }

  function Min(a: real, b: real): real {
    if a <= b then a else b
  }

  function Max(a: real, b: real): real {
    if a >= b then a else b
  }

  /** `clamp(value, min, max)`, that is `Math.min(Math.max(value, min), max)`: with
      `min <= max` the result lies in [min, max] and is `value` itself when that
      already does; it never exceeds `max`. */
  function Clamp(value: real, min: real, max: real): (r: real)
    ensures r <= max
    ensures min <= max ==> min <= r
    ensures min <= value <= max ==> r == value
    ensures min <= max && value < min ==> r == min
    ensures max < value ==> r == max
  {
    Min(Max(value, min), max)
  }

  /** `normalizeVector(vector)`: the zero vector stays zero, any other vector becomes
      the unit vector pointing the same way. */
  function NormalizeVector(sqrt: real -> real, v: Vector2): (r: Vector2)
    requires IsSqrt(sqrt)
    ensures v == Zero ==> r == Zero
    ensures v != Zero ==> NormSq(r.x, r.y) == 1.0 && Length(sqrt, r) == 1.0
    ensures r.x * Length(sqrt, v) == v.x && r.y * Length(sqrt, v) == v.y
  {
    HypotZeroIff(sqrt, v.x, v.y);
    var magnitude := Hypot(sqrt, v.x, v.y);
    if magnitude == 0.0 then
      Vector2(0.0, 0.0)
    else
      HypotUnit(sqrt, v.x, v.y);
      Vector2(v.x / magnitude, v.y / magnitude)
  }

  /** The key codes the canvas listens to. */
  const KeyW := "KeyW"
  const KeyA := "KeyA"
  const KeyS := "KeyS"
  const KeyD := "KeyD"
  const MovementKeys: seq<string> := [KeyW, KeyA, KeyS, KeyD]

  /** One axis of the keyboard: +1 for the positive key, -1 for the negative one,
      0 for both or neither. */
  function AxisFrom(keys: set<string>, negative: string, positive: string): real {
    (if positive in keys then 1.0 else 0.0) - (if negative in keys then 1.0 else 0.0)
  }

  /** The direction `getKeyboardDirection(keys)` returns: W is up (negative y), S
      down, A left, D right, normalised. */
  function KeyboardDirectionOf(sqrt: real -> real, keys: set<string>): Vector2
    requires IsSqrt(sqrt)
  {
    NormalizeVector(sqrt, Vector2(AxisFrom(keys, KeyA, KeyD), AxisFrom(keys, KeyW, KeyS)))
  }

  /** `getKeyboardDirection(keys)`: builds the raw vector one key at a time, then
      normalises it. */
  method KeyboardDirection(sqrt: real -> real, keys: set<string>) returns (direction: Vector2)
    requires IsSqrt(sqrt)
    ensures direction == KeyboardDirectionOf(sqrt, keys)
    ensures direction == Zero || Length(sqrt, direction) == 1.0
  {
    var raw := Vector2(0.0, 0.0);
    if KeyW in keys { raw := raw.(y := raw.y - 1.0); }
    if KeyS in keys { raw := raw.(y := raw.y + 1.0); }
    if KeyA in keys { raw := raw.(x := raw.x - 1.0); }
    if KeyD in keys { raw := raw.(x := raw.x + 1.0); }
    assert raw == Vector2(AxisFrom(keys, KeyA, KeyD), AxisFrom(keys, KeyW, KeyS));
    direction := NormalizeVector(sqrt, raw);
  }

  /** No key gives no direction; W and S cancel, as do A and D; every other choice
      of keys gives a unit vector. */
  lemma KeyboardDirectionFacts(sqrt: real -> real, keys: set<string>)
    requires IsSqrt(sqrt)
    ensures KeyW !in keys && KeyA !in keys && KeyS !in keys && KeyD !in keys ==>
      KeyboardDirectionOf(sqrt, keys) == Zero
    ensures KeyW in keys && KeyS in keys ==>
      KeyboardDirectionOf(sqrt, keys) == KeyboardDirectionOf(sqrt, keys - {KeyW, KeyS})
    ensures KeyA in keys && KeyD in keys ==>
      KeyboardDirectionOf(sqrt, keys) == KeyboardDirectionOf(sqrt, keys - {KeyA, KeyD})
    ensures KeyboardDirectionOf(sqrt, keys) == Zero || Length(sqrt, KeyboardDirectionOf(sqrt, keys)) == 1.0
  {
    assert AxisFrom(keys - {KeyW, KeyS}, KeyA, KeyD) == AxisFrom(keys, KeyA, KeyD);
    assert AxisFrom(keys - {KeyA, KeyD}, KeyW, KeyS) == AxisFrom(keys, KeyW, KeyS);
  }

  /** `getCombinedDirection(keyboard, joystick)`: the sum of the two, shortened to
      unit length when it is longer than one. Its length never exceeds one. */
  function CombinedDirection(sqrt: real -> real, keyboard: Vector2, joystick: Vector2): (r: Vector2)
    requires IsSqrt(sqrt)
    ensures Length(sqrt, r) <= 1.0
    ensures var sum := Vector2(keyboard.x + joystick.x, keyboard.y + joystick.y);
      (sum == Zero ==> r == Zero) &&
      (Length(sqrt, sum) <= 1.0 ==> r == sum) &&
      (Length(sqrt, sum) > 1.0 ==> Length(sqrt, r) == 1.0 && r == NormalizeVector(sqrt, sum))
  {
    var combined := Vector2(keyboard.x + joystick.x, keyboard.y + joystick.y);
    HypotZeroIff(sqrt, combined.x, combined.y);
    var magnitude := Hypot(sqrt, combined.x, combined.y);
    if magnitude == 0.0 then
      HypotZeroIff(sqrt, 0.0, 0.0);
      Vector2(0.0, 0.0)
    else if magnitude <= 1.0 then
      combined
    else
      HypotUnit(sqrt, combined.x, combined.y);
      Vector2(combined.x / magnitude, combined.y / magnitude)
  }

  /** The joystick vector `handleJoystickUpdate(offsetX, offsetY)` stores: the knob
      offset clamped to the joystick's box, as a direction scaled by how far out
      the knob is, at most one. */
  function JoystickVector(sqrt: real -> real, offsetX: real, offsetY: real): (r: Vector2)
    requires IsSqrt(sqrt)
    ensures Length(sqrt, r) <= 1.0
    ensures r == Zero <==> Clamp(offsetX, -JoystickRadius, JoystickRadius) == 0.0 && Clamp(offsetY, -JoystickRadius, JoystickRadius) == 0.0
  {
    var clampedX := Clamp(offsetX, -JoystickRadius, JoystickRadius);
    var clampedY := Clamp(offsetY, -JoystickRadius, JoystickRadius);
    HypotZeroIff(sqrt, clampedX, clampedY);
    var magnitude := Hypot(sqrt, clampedX, clampedY);
    if magnitude == 0.0 then
      HypotZeroIff(sqrt, 0.0, 0.0);
      Vector2(0.0, 0.0)
    else
      var intensity := Min(magnitude, JoystickRadius) / JoystickRadius;
      HypotNonNeg(sqrt, clampedX, clampedY);
      JoystickScaled(sqrt, clampedX, clampedY, magnitude, intensity);
      Vector2((clampedX / magnitude) * intensity, (clampedY / magnitude) * intensity)
  }

  /** The direction of a nonzero offset times `intensity` has length `intensity`. */
  lemma JoystickScaled(sqrt: real -> real, x: real, y: real, magnitude: real, intensity: real)
    requires IsSqrt(sqrt) && magnitude == Hypot(sqrt, x, y) && magnitude != 0.0
    requires 0.0 <= intensity <= 1.0
    ensures var r := Vector2((x / magnitude) * intensity, (y / magnitude) * intensity);
      Length(sqrt, r) == intensity && (r != Zero <==> intensity != 0.0)
  {
    HypotNonNeg(sqrt, x, y);
    var k := intensity / magnitude;
    assert (x / magnitude) * intensity == x * k && (y / magnitude) * intensity == y * k;
    HypotScale(sqrt, x, y, k, x * k, y * k);
    assert k * magnitude == intensity;
    HypotZeroIff(sqrt, x * k, y * k);
  }

  /** The position after one frame of `PlayerController` moving in a nonzero
      `direction`: each coordinate is clamped to stay `EdgeMargin` inside the canvas,
      which it does whenever the canvas is at least twice that wide and high. */
  function Stepped(position: Vector2, direction: Vector2, delta: real, width: real, height: real): (r: Vector2)
    ensures r.x <= width - EdgeMargin && r.y <= height - EdgeMargin
    ensures 2.0 * EdgeMargin <= width ==> EdgeMargin <= r.x
    ensures 2.0 * EdgeMargin <= height ==> EdgeMargin <= r.y
  {
    Vector2(Clamp(position.x + direction.x * PlayerSpeed * delta, EdgeMargin, width - EdgeMargin),
            Clamp(position.y + direction.y * PlayerSpeed * delta, EdgeMargin, height - EdgeMargin))
  }

  /** The input state of the canvas: the two direction refs, the joystick's knob
      offset and the drawn player's position. */
  class CanvasInput {
    /** The movement keys currently held. */
    var pressedKeys: set<string>
    var keyboardDirection: Vector2
    var joystickVector: Vector2
    var joystickActive: bool
    var joystickOffsetX: real
    var joystickOffsetY: real
    var playerPosition: Vector2

    /** The first render of `GameCanvas` with the given size. */
    constructor (width: real, height: real)
      ensures pressedKeys == {} && keyboardDirection == Zero && joystickVector == Zero && !joystickActive
      ensures joystickOffsetX == 0.0 && joystickOffsetY == 0.0
      ensures playerPosition == Vector2(width / 2.0, height / 2.0)
    {
      pressedKeys := {};
      keyboardDirection, joystickVector := Zero, Zero;
      joystickActive, joystickOffsetX, joystickOffsetY := false, 0.0, 0.0;
      playerPosition := Vector2(width / 2.0, height / 2.0);
    }

    /** `updateKeyboardDirection()`: the keyboard direction of the keys held. */
    method UpdateKeyboardDirection(sqrt: real -> real)
      requires IsSqrt(sqrt)
      modifies this
      ensures keyboardDirection == KeyboardDirectionOf(sqrt, pressedKeys)
      ensures pressedKeys == old(pressedKeys)
      ensures joystickVector == old(joystickVector) && joystickActive == old(joystickActive)
      ensures joystickOffsetX == old(joystickOffsetX) && joystickOffsetY == old(joystickOffsetY)
      ensures playerPosition == old(playerPosition)
    {
      keyboardDirection := KeyboardDirection(sqrt, pressedKeys);
    }

    /** The `keydown` handler: a movement key is added to the held keys and the
        keyboard direction recomputed; any other key is ignored. */
    method KeyDown(sqrt: real -> real, code: string)
      requires IsSqrt(sqrt)
      modifies this
      ensures code in MovementKeys ==>
        pressedKeys == old(pressedKeys) + {code} && keyboardDirection == KeyboardDirectionOf(sqrt, pressedKeys)
      ensures code !in MovementKeys ==>
        pressedKeys == old(pressedKeys) && keyboardDirection == old(keyboardDirection)
      ensures joystickVector == old(joystickVector) && joystickActive == old(joystickActive)
      ensures joystickOffsetX == old(joystickOffsetX) && joystickOffsetY == old(joystickOffsetY)
      ensures playerPosition == old(playerPosition)
    {
      if code in MovementKeys {
        pressedKeys := pressedKeys + {code};
        UpdateKeyboardDirection(sqrt);
      }
    }

    /** The `keyup` handler: a movement key is released and the keyboard direction
        recomputed; any other key is ignored. */
    method KeyUp(sqrt: real -> real, code: string)
      requires IsSqrt(sqrt)
      modifies this
      ensures code in MovementKeys ==>
        pressedKeys == old(pressedKeys) - {code} && keyboardDirection == KeyboardDirectionOf(sqrt, pressedKeys)
      ensures code !in MovementKeys ==>
        pressedKeys == old(pressedKeys) && keyboardDirection == old(keyboardDirection)
      ensures joystickVector == old(joystickVector) && joystickActive == old(joystickActive)
      ensures joystickOffsetX == old(joystickOffsetX) && joystickOffsetY == old(joystickOffsetY)
      ensures playerPosition == old(playerPosition)
    {
      if code in MovementKeys {
        pressedKeys := pressedKeys - {code};
        UpdateKeyboardDirection(sqrt);
      }
    }

    /** `handleJoystickUpdate(offsetX, offsetY)`. */
    method HandleJoystickUpdate(sqrt: real -> real, offsetX: real, offsetY: real)
      requires IsSqrt(sqrt)
      modifies this
      ensures joystickVector == JoystickVector(sqrt, offsetX, offsetY)
      ensures joystickOffsetX == Clamp(offsetX, -JoystickRadius, JoystickRadius)
      ensures joystickOffsetY == Clamp(offsetY, -JoystickRadius, JoystickRadius)
      ensures keyboardDirection == old(keyboardDirection) && joystickActive == old(joystickActive)
      ensures pressedKeys == old(pressedKeys) && playerPosition == old(playerPosition)
    {
      var clampedX := Clamp(offsetX, -JoystickRadius, JoystickRadius);
      var clampedY := Clamp(offsetY, -JoystickRadius, JoystickRadius);
      joystickVector := JoystickVector(sqrt, offsetX, offsetY);
      joystickOffsetX := clampedX;
      joystickOffsetY := clampedY;
    }

    /** `resetJoystick()`. */
    method ResetJoystick()
      modifies this
      ensures joystickVector == Zero && !joystickActive
      ensures joystickOffsetX == 0.0 && joystickOffsetY == 0.0
      ensures keyboardDirection == old(keyboardDirection) && playerPosition == old(playerPosition)
      ensures pressedKeys == old(pressedKeys)
    {
      joystickVector := Vector2(0.0, 0.0);
      joystickActive, joystickOffsetX, joystickOffsetY := false, 0.0, 0.0;
    }

    /** One `useTick` frame of `PlayerController`: no direction, no move. */
    method Tick(sqrt: real -> real, delta: real, width: real, height: real)
      requires IsSqrt(sqrt)
      modifies this
      ensures var direction := CombinedDirection(sqrt, old(keyboardDirection), old(joystickVector));
        playerPosition == if direction == Zero then old(playerPosition)
                          else Stepped(old(playerPosition), direction, delta, width, height)
      ensures keyboardDirection == old(keyboardDirection) && joystickVector == old(joystickVector)
      ensures joystickActive == old(joystickActive) && pressedKeys == old(pressedKeys)
      ensures joystickOffsetX == old(joystickOffsetX) && joystickOffsetY == old(joystickOffsetY)
    {
      var direction := CombinedDirection(sqrt, keyboardDirection, joystickVector);
      if direction.x == 0.0 && direction.y == 0.0 {
        return;
      }
      playerPosition := Vector2(
        Clamp(playerPosition.x + direction.x * PlayerSpeed * delta, EdgeMargin, width - EdgeMargin),
        Clamp(playerPosition.y + direction.y * PlayerSpeed * delta, EdgeMargin, height - EdgeMargin));
    }
  }
}
