/** Java `int` arithmetic: 32-bit two's complement values, wrap-around on
    overflow, and division that truncates toward zero. */
module Int32 {

  const Modulus: int := 0x1_0000_0000
  const MinValue: int := -0x8000_0000
  const MaxValue: int := 0x7fff_ffff

  /** The values a Java `int` can hold. */
  predicate IsInt32(x: int) {
    MinValue <= x <= MaxValue
  }

  /** a and b agree modulo 2^32, i.e. they have the same low 32 bits. */
  predicate Congruent(a: int, b: int) {
    (a - b) % Modulus == 0
  }

  /** The Java `int` holding the low 32 bits of the mathematical value x
      (what `+`, `-` and `*` on `int` produce). */
  function Wrap(x: int): (r: int)
    ensures IsInt32(r)
    ensures IsInt32(x) ==> r == x
  {
    (x - MinValue) % Modulus + MinValue
  }

  /** The wrapped value keeps the low 32 bits of x. */
  lemma WrapCongruent(x: int)
    ensures Congruent(Wrap(x), x)
  {
    var q := (x - MinValue) / Modulus;
    assert x - MinValue == Modulus * q + (x - MinValue) % Modulus;
    assert Wrap(x) - x == -Modulus * q;
  }

  /** Java `a + b` on two `int`s. */
  function Add(a: int, b: int): (r: int)
    ensures IsInt32(r) && Congruent(r, a + b)
    ensures IsInt32(a + b) ==> r == a + b
  {
    WrapCongruent(a + b);
    Wrap(a + b)
  }

  /** Java `a - b` on two `int`s. */
  function Sub(a: int, b: int): (r: int)
    ensures IsInt32(r) && Congruent(r, a - b)
    ensures IsInt32(a - b) ==> r == a - b
  {
    WrapCongruent(a - b);
    Wrap(a - b)
  }

  /** Java `a * 2` on an `int`. */
  function Twice(a: int): (r: int)
    ensures IsInt32(r) && Congruent(r, 2 * a)
    ensures IsInt32(2 * a) ==> r == 2 * a
  {
    WrapCongruent(a * 2);
    Wrap(a * 2)
  }

  /** Java `Math.max(a, 0)`. */
  function FloorZero(a: int): (r: int)
    ensures r >= 0 && r >= a
    ensures r == a || r == 0
  {
    if a >= 0 then a else 0
  }

  /** Java `x / d` for a positive divisor: the quotient rounded toward zero,
      so that the remainder x - d * q has the sign of x and is smaller than d. */
  function TruncDiv(x: int, d: int): (q: int)
    requires d > 0
    ensures 0 <= x ==> 0 <= x - d * q < d
    ensures x < 0 ==> -d < x - d * q <= 0
  {
    if x >= 0 then x / d else -((-x) / d)
  }

  /** Two values that agree modulo 2^32 and both fit in an `int` are equal:
      the wrapped result is determined by the low 32 bits alone. */
  lemma CongruentInt32Equal(a: int, b: int)
    requires IsInt32(a) && IsInt32(b) && Congruent(a, b)
    ensures a == b
  {
    var q := (a - b) / Modulus;
    assert a - b == Modulus * q;
  }

  /** Congruence is transitive. */
  lemma CongruentTrans(a: int, b: int, c: int)
    requires Congruent(a, b) && Congruent(b, c)
    ensures Congruent(a, c)
  {
    var p, q := (a - b) / Modulus, (b - c) / Modulus;
    assert a - b == Modulus * p;
    assert b - c == Modulus * q;
    assert a - c == Modulus * (p + q);
  }

  /** Adding the same amount on both sides keeps congruence. */
  lemma CongruentAdd(a: int, b: int, k: int)
    requires Congruent(a, b)
    ensures Congruent(a + k, b + k)
  {
    assert (a + k) - (b + k) == a - b;
  }

  /** Doubling both sides keeps congruence. */
  lemma CongruentDouble(a: int, b: int)
    requires Congruent(a, b)
    ensures Congruent(2 * a, 2 * b)
  {
    var p := (a - b) / Modulus;
    assert a - b == Modulus * p;
    assert 2 * a - 2 * b == Modulus * (2 * p);
  }

  /** Congruence is symmetric. */
  lemma CongruentSym(a: int, b: int)
    requires Congruent(a, b)
    ensures Congruent(b, a)
  {
    var p := (a - b) / Modulus;
    assert a - b == Modulus * p;
    assert b - a == Modulus * -p;
  }

  /** Wrapping an intermediate sum does not change the wrapped result:
      `(a + b) + c` on Java ints is the low 32 bits of the exact sum. */
  lemma WrapAdd(a: int, b: int)
    ensures Wrap(Wrap(a) + b) == Wrap(a + b)
  {
    WrapCongruent(a);
    WrapCongruent(Wrap(a) + b);
    WrapCongruent(a + b);
    CongruentAdd(Wrap(a), a, b);
    CongruentTrans(Wrap(Wrap(a) + b), Wrap(a) + b, a + b);
    CongruentSym(Wrap(a + b), a + b);
    CongruentTrans(Wrap(Wrap(a) + b), a + b, Wrap(a + b));
    CongruentInt32Equal(Wrap(Wrap(a) + b), Wrap(a + b));
  }

  /** Likewise for doubling. */
  lemma WrapDouble(a: int)
    ensures Wrap(2 * Wrap(a)) == Wrap(2 * a)
  {
    WrapCongruent(a);
    WrapCongruent(2 * Wrap(a));
    WrapCongruent(2 * a);
    CongruentDouble(Wrap(a), a);
    CongruentTrans(Wrap(2 * Wrap(a)), 2 * Wrap(a), 2 * a);
    CongruentSym(Wrap(2 * a), 2 * a);
    CongruentTrans(Wrap(2 * Wrap(a)), 2 * a, Wrap(2 * a));
    CongruentInt32Equal(Wrap(2 * Wrap(a)), Wrap(2 * a));
  }
}
