/** Value-level Java semantics the paint host relies on: nullable references,
    the two runtime exceptions its code paths can raise, and 32-bit `int`
    arithmetic with wrap-around and truncating division. */
module JavaLang {

  /** A Java reference that may be null: `None` stands for `null`. */
  datatype Option<+T> = None | Some(value: T)

  /** The runtime exceptions the modelled code can raise. */
  datatype Exception = NullPointerException | ClassCastException

  /** The completion of a Java expression: a value, or a thrown exception. */
  datatype Result<+T> = Normal(value: T) | Threw(exception: Exception)

  const INT_MIN: int := -0x8000_0000
  const INT_MAX: int := 0x7fff_ffff
  const INT_RANGE: int := 0x1_0000_0000

  /** Java's `int`. */
  type int32 = v: int | -0x8000_0000 <= v <= 0x7fff_ffff

  /** Two's-complement wrap-around of an exact result into `int`: the unique
      `int` congruent to `v` modulo 2^32. */
  function Wrap(v: int): (r: int32)
    ensures (r - v) % INT_RANGE == 0
  {
    (v - INT_MIN) % INT_RANGE + INT_MIN
  }

  /** `a + b` on Java ints. */
  function Add(a: int32, b: int32): int32 {
    Wrap(a + b)
  }

  /** `a - b` on Java ints. */
  function Sub(a: int32, b: int32): int32 {
    Wrap(a - b)
  }

  /** `a / 2` on Java ints: the quotient is truncated toward zero, so the
      remainder takes the sign of `a` (Dafny's own `/` floors instead). */
  function Half(a: int32): (r: int32)
    ensures a >= 0 ==> 0 <= a - 2 * r <= 1
    ensures a < 0 ==> -1 <= a - 2 * r <= 0
  {
    if a >= 0 then a / 2 else -((0 - a as int) / 2)
  }

  /** At most one `int` is congruent to a given integer. */
  lemma WrapUnique(v: int, r: int)
    requires INT_MIN <= r <= INT_MAX
    requires (r - v) % INT_RANGE == 0
    ensures Wrap(v) == r
  {
    var w := Wrap(v);
    var k := (r - v) / INT_RANGE;
    var m := (w - v) / INT_RANGE;
    assert r - v == k * INT_RANGE;
    assert w - v == m * INT_RANGE;
    assert r - w == (k - m) * INT_RANGE;
    assert k == m;
  }

  /** An exact result already in range is not changed by wrap-around. */
  lemma WrapInRange(v: int)
    requires INT_MIN <= v <= INT_MAX
    ensures Wrap(v) == v
  {
    WrapUnique(v, v);
  }

  /** Subtracting and then adding back the same amount is the identity on
      Java ints, overflow included: wrap-around is arithmetic modulo 2^32. */
  lemma {:induction false} SubThenAdd(a: int32, b: int32)
    ensures Add(Sub(a, b), b) == a
  {
    var d := Sub(a, b);
    var k := (d - (a - b)) / INT_RANGE;
    assert d - (a - b) == k * INT_RANGE;
    assert (a - (d + b)) == -k * INT_RANGE;
    assert (a - (d + b)) % INT_RANGE == 0;
    WrapUnique(d + b, a);
  }
}
