/** Integer arithmetic as JavaScript BigInt does it. */
module Numbers {

  /** BigInt division: truncates toward zero, unlike Dafny's Euclidean `/`. */
  function TruncDiv(a: int, b: int): (q: int)
    requires b != 0
    ensures a >= 0 && b > 0 ==> q == a / b
    ensures a <= 0 && b > 0 ==> q == -((-a) / b)
  {
    if b > 0 then
      if a >= 0 then a / b else -((-a) / b)
    else
      if a >= 0 then -(a / -b) else (-a) / -b
  }

  function Min(a: int, b: int): int { if a <= b then a else b }

  function Max(a: int, b: int): int { if a >= b then a else b }

  function Sum(parts: seq<nat>): nat {
    if parts == [] then 0 else parts[0] + Sum(parts[1..])
  }

  /** The quotient `a / b` is the unique `q` with `q * b <= a < (q + 1) * b`. */
  lemma DivIs(a: int, b: int, q: int)
    requires b > 0
    requires q * b <= a < (q + 1) * b
    ensures a / b == q
  {
    var d := a / b;
    assert d * b <= a < (d + 1) * b;
    if d < q {
      MulLe(d + 1, q, b);
    } else if d > q {
      MulLe(q + 1, d, b);
    }
  }

  lemma DivBounds(a: int, b: int)
    requires b > 0
    ensures (a / b) * b <= a < (a / b) * b + b
  {
  }

  lemma MulLe(a: int, b: int, c: int)
    requires a <= b && c >= 0
    ensures a * c <= b * c
  {
  }

  lemma MulPos(a: int, b: int)
    requires a >= 0 && b >= 0
    ensures a * b >= 0
    ensures a >= 1 ==> a * b >= b
    ensures b >= 1 ==> a * b >= a
  {
  }

  /** `q` is at most the floored quotient exactly when `q * b` is at most `a`. */
  lemma LeDiv(q: int, a: int, b: int)
    requires b > 0
    ensures q <= a / b <==> q * b <= a
  {
    DivBounds(a, b);
    if q <= a / b {
      MulLe(q, a / b, b);
    } else {
      MulLe(a / b + 1, q, b);
    }
  }

  lemma DivMono(a: int, a': int, b: int)
    requires b > 0 && a <= a'
    ensures a / b <= a' / b
  {
    DivBounds(a, b);
    LeDiv(a / b, a', b);
  }

  /** Truncation toward zero never leaves an interval with integer end points. */
  lemma TruncDivWithin(a: int, b: int, lo: int, hi: int)
    requires b > 0
    requires lo * b <= a <= hi * b
    ensures lo <= TruncDiv(a, b) <= hi
  {
    if a >= 0 {
      FloorWithin(a, b, lo, hi);
    } else {
      MulNeg(lo, b);
      MulNeg(hi, b);
      FloorWithin(-a, b, -hi, -lo);
    }
  }

  lemma MulNeg(a: int, b: int)
    ensures -a * b == -(a * b)
  {
  }

  lemma FloorWithin(a: int, b: int, lo: int, hi: int)
    requires b > 0
    requires lo * b <= a <= hi * b
    ensures lo <= a / b <= hi
  {
    LeDiv(lo, a, b);
    DivBounds(a, b);
    LeDiv(hi + 1, a, b);
    assert (hi + 1) * b == hi * b + b;
  }
}
