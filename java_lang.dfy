/**
 * The pieces of Java's numeric and string semantics the views rely on:
 * the (int) cast of a floating-point value, int division, and
 * String.valueOf(int).
 */
module JavaLang {

  /** Java's (int) cast of a floating-point value: truncation toward zero.
      (Saturation at the bounds of int and NaN are not modelled.) */
  function Trunc(v: real): (t: int)
    ensures 0.0 <= v ==> 0 <= t && t as real <= v < t as real + 1.0
    ensures v < 0.0 ==> t <= 0 && t as real - 1.0 < v <= t as real
  {
    if 0.0 <= v then v.Floor else -((-v).Floor)
  }

  /** Casting an integral value is exact. */
  lemma TruncOfInt(k: int)
    ensures Trunc(k as real) == k
  {
  }

  /** Truncation never reverses the order of its arguments. */
  lemma TruncMonotone(u: real, v: real)
    requires u <= v
    ensures Trunc(u) <= Trunc(v)
  {
  }

  /** Java's int division, which truncates toward zero; Dafny's `/` is Euclidean. */
  function JavaDiv(a: int, b: int): (q: int)
    requires b != 0
    ensures 0 <= a && 0 < b ==> q == a / b
    ensures a < 0 && 0 < b ==> q == -((-a) / b)
  {
    var m := (if a < 0 then -a else a) / (if b < 0 then -b else b);
    if (a < 0) == (b < 0) then m else -m
  }

  function Min(a: int, b: int): int
  {
    if a <= b then a else b
  }

  function DigitChar(d: nat): char
    requires d < 10
  {
    "0123456789"[d]
  }

  function NatToString(n: nat): string
    decreases n
  {
    if n < 10 then [DigitChar(n)] else NatToString(n / 10) + [DigitChar(n % 10)]
  }

  /** String.valueOf(int) and the implicit int-to-string of `+`. */
  function IntToString(n: int): string
  {
    if n < 0 then "-" + NatToString(-n) else NatToString(n)
  }
}
