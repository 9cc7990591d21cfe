/** Java/Kotlin value semantics the rest of the model needs: nullable values,
    32-bit `int` wrap-around, truncating division and remainder, and bytes. */
module JavaInts {

  /** A nullable reference: `None` stands for Java's/Kotlin's `null`. */
  datatype Option<+T> = None | Some(value: T)

  /** `Integer.MAX_VALUE` and `Integer.MIN_VALUE`. */
  const IntMax: int := 0x7fff_ffff
  const IntMin: int := -0x8000_0000
  const TwoTo32: int := 0x1_0000_0000

  predicate InIntRange(x: int) {
    IntMin <= x <= IntMax
  }

  /** A signed byte array element, kept as its unsigned value. */
  newtype byte = b: int | 0 <= b < 256

  /** The 32-bit two's-complement value of an exact integer, as an `Int`
      multiplication in Kotlin or Java produces it. */
  function Wrap32(x: int): (r: int)
    ensures InIntRange(r)
    ensures (x - r) % TwoTo32 == 0
    ensures InIntRange(x) ==> r == x
  {
    (x - IntMin) % TwoTo32 + IntMin
  }

  /** Kotlin's and Java's `/` on `Int`: rounds toward zero. */
  function Div(a: int, b: int): (q: int)
    requires b > 0
    ensures a >= 0 ==> 0 <= a - q * b < b
    ensures a < 0 ==> -b < a - q * b <= 0
  {
    if a >= 0 then a / b else -((-a) / b)
  }

  /** Kotlin's and Java's `%` on `Int`: the remainder takes the sign of the dividend. */
  function Rem(a: int, b: int): (r: int)
    requires b > 0
    ensures r == a - Div(a, b) * b
    ensures a >= 0 ==> 0 <= r < b
    ensures a < 0 ==> -b < r <= 0
  {
    if a >= 0 then a % b else -((-a) % b)
  }

  /** `Math.abs` on values whose magnitude fits. */
  function Abs(x: int): (r: nat)
    ensures r == x || r == -x
  {
    if x < 0 then -x else x
  }
}
