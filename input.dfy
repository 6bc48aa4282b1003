/** Keyboard state and the direction vector it selects (src/main.ts:7-29). */
module Input {

  /** A 2D vector with integer components; `vec2` in the source builds one. */
  datatype Vec2 = Vec2(x: int, y: int)

  /** Component-wise scaling, as the engine's `Vector2.scale`. */
  function Scale(v: Vec2, k: int): Vec2 {
    Vec2(k * v.x, k * v.y)
  }

  /** The `isDown` state of the four movement keys (W, S, A, D). */
  datatype CursorKeys = CursorKeys(up: bool, down: bool, left: bool, right: bool)

  /** The movement keys together with the fire key (SPACE). */
  datatype PlayerKeys = PlayerKeys(cursor: CursorKeys, fire: bool)

  predicate IsUnit(c: int) {
    c == -1 || c == 0 || c == 1
  }

  /** The value one axis takes when `negative` pushes it to -1 and `positive`
      to 1, with `negative` taking precedence when both are held. */
  function Axis(negative: bool, positive: bool): (c: int)
    ensures IsUnit(c)
    ensures c == -1 <==> negative
    ensures c == 1 <==> positive && !negative
    ensures c == 0 <==> !negative && !positive
  {
    if negative then -1 else if positive then 1 else 0
  }

  /** The direction selected by the movement keys: left/right drive x,
      up/down drive y, and left and up win over their opposites. */
  function Direction(keys: CursorKeys): (v: Vec2)
    ensures IsUnit(v.x) && IsUnit(v.y)
  {
    Vec2(Axis(keys.left, keys.right), Axis(keys.up, keys.down))
  }

  /** `cursorKeysToVec2`: start at (0, 0) and overwrite x, then y, one key
      at a time in the source's order right, left, down, up. */
  method CursorKeysToVec2(keys: CursorKeys) returns (v: Vec2)
    ensures v == Direction(keys)
  {
    v := Vec2(0, 0);
    if keys.right { v := v.(x := 1); }
    if keys.left { v := v.(x := -1); }
    if keys.down { v := v.(y := 1); }
    if keys.up { v := v.(y := -1); }
  }

  /** With no movement key down the direction is the zero vector, and only then. */
  lemma IdleIsZero(keys: CursorKeys)
    ensures Direction(keys) == Vec2(0, 0) <==>
              !keys.up && !keys.down && !keys.left && !keys.right
  {
  }

  /** Left overrides right and up overrides down. */
  lemma Precedence(keys: CursorKeys)
    ensures keys.left ==> Direction(keys).x == -1
    ensures keys.up ==> Direction(keys).y == -1
    ensures keys.right && !keys.left ==> Direction(keys).x == 1
    ensures keys.down && !keys.up ==> Direction(keys).y == 1
  {
  }

  /** x depends only on left/right and y only on up/down. */
  lemma AxesIndependent(a: CursorKeys, b: CursorKeys)
    ensures a.left == b.left && a.right == b.right ==> Direction(a).x == Direction(b).x
    ensures a.up == b.up && a.down == b.down ==> Direction(a).y == Direction(b).y
  {
  }
}
