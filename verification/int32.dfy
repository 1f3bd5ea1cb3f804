/** Java's 32-bit `int`: arithmetic wraps around modulo 2^32 into [-2^31, 2^31). */
module Int32 {

  const TWO_32: int := 0x1_0000_0000
  const MIN: int := -0x8000_0000
  const MAX: int := 0x7fff_ffff

  predicate InRange(x: int) {
    MIN <= x <= MAX
  }

  /** The `int` that Java stores for the mathematical value `x` (two's complement truncation). */
  function Wrap(x: int): (r: int)
    ensures InRange(r)
    ensures (x - r) % TWO_32 == 0
    ensures InRange(x) ==> r == x
  {
    (x - MIN) % TWO_32 + MIN
  }

  /** Two in-range values that agree modulo 2^32 are equal. */
  lemma InRangeCongruentEqual(a: int, b: int)
    requires InRange(a) && InRange(b)
    requires (a - b) % TWO_32 == 0
    ensures a == b
  {
  }

  /** Wrapping after every addition gives the same `int` as wrapping once at the end:
      this is why a Java running total equals the wrapped mathematical sum. */
  lemma WrapAdd(a: int, b: int)
    ensures Wrap(Wrap(a) + b) == Wrap(a + b)
  {
    var w := Wrap(a);
    var q := (a - w) / TWO_32;
    assert a - w == q * TWO_32;
    var x := Wrap(w + b);
    var y := Wrap(a + b);
    var qx := (w + b - x) / TWO_32;
    var qy := (a + b - y) / TWO_32;
    assert w + b - x == qx * TWO_32;
    assert a + b - y == qy * TWO_32;
    assert x - y == (qy - q - qx) * TWO_32;
    InRangeCongruentEqual(x, y);
  }
}
