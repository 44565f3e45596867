/** Animated shared values, abstracted away from spring physics.

    A shared value that springs toward a target is kept as the value it shows now
    (`current`) and the value its running animation heads for (`target`).  Assigning
    `withSpring(t)` only moves the target; assigning a plain number moves both; the
    environment later lets the running animation settle (`current := target`). */
module SharedValues {

  datatype Spring<T> = Spring(current: T, target: T) {

    /** `value = withSpring(t, ...)`: the running animation now heads for `t`. */
    function Retarget(t: T): Spring<T> {
      Spring(current, t)
    }

    /** The running animation has reached its target. */
    function Settled(): Spring<T> {
      Spring(target, target)
    }
  }

  /** `value = x`: the value jumps to `x`, with nothing left to animate. */
  function Fixed<T>(x: T): Spring<T> {
    Spring(x, x)
  }

  /** `Math.max(floor, x)`: the clamp the drag handlers apply so that a sheet is never
      dragged past its open position. */
  function AtLeast(floor: int, x: int): (r: int)
    ensures floor <= r && x <= r
    ensures r == floor || r == x
  {
    if x < floor then floor else x
  }
}
