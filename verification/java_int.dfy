/** Java's integer arithmetic where it differs from Dafny's. */
module JavaInt {

  function Abs(x: int): nat {
    if x < 0 then -x else x
  }

  /** Java's `a / d` on `int` for a positive divisor. Java truncates the quotient
      toward zero, so its magnitude is that of `|a| / d` and its sign is the sign
      of `a`; Dafny's `/` instead rounds toward negative infinity. */
  function TruncDiv(a: int, d: int): (q: int)
    requires d > 0
    ensures Abs(q) == Abs(a) / d
    ensures 0 <= a ==> 0 <= q
    ensures a < 0 ==> q <= 0
  {
    if a >= 0 then a / d else -((-a) / d)
  }

  function Min(a: int, b: int): (m: int)
    ensures m <= a && m <= b
    ensures m == a || m == b
  {
    if a < b then a else b
  }

  /** `x` limited to the closed range `[lo, hi]`. */
  function Clamp(x: int, lo: int, hi: int): (c: int)
    requires lo <= hi
    ensures lo <= c <= hi
    ensures lo <= x <= hi ==> c == x
    ensures x < lo ==> c == lo
    ensures hi < x ==> c == hi
  {
    if x < lo then lo else if hi < x then hi else x
  }
}
