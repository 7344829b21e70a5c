/**
 * Python integer semantics that the layer code relies on and that differ
 * from Dafny's: `int(a / b)` (true division, then truncation toward zero)
 * and list indexing with negative indices.
 */
module PyInt {
  import opened Wrappers

  function Abs(x: int): int
  {
    if x < 0 then -x else x
  }

  /**
   * `int(a / b)` in Python: the quotient rounded toward zero (Dafny's own
   * `/` is Euclidean and rounds toward minus infinity for a positive
   * divisor). Precision loss of the intermediate float is not modelled.
   */
  function TruncDiv(a: int, b: int): (q: int)
    requires b != 0
    ensures Abs(q) == Abs(a) / Abs(b)
  {
    var x, y := Abs(a), Abs(b);
    assert 0 <= x && 0 < y;
    var m := x / y;
    assert 0 <= m by { assert m * y <= x; }
    if (a >= 0) == (b > 0) then m else -m
  }

  /**
   * The quotient rounds toward zero: the remainder `a - q * b` has the sign
   * of the dividend (or is zero) and is smaller than the divisor in size.
   */
  lemma TruncDivRoundsTowardZero(a: int, b: int)
    requires b != 0
    ensures var r := a - TruncDiv(a, b) * b;
      && (a >= 0 ==> 0 <= r < Abs(b))
      && (a < 0 ==> -Abs(b) < r <= 0)
  {
    var x, y := Abs(a), Abs(b);
    var q, m := x / y, x % y;
    assert x == q * y + m && 0 <= m < y;
    var t := TruncDiv(a, b);
    if a >= 0 && b > 0 {
      assert t == q && a == x && b == y;
    } else if a >= 0 {
      assert t == -q && a == x && b == -y;
      assert t * b == q * y;
    } else if b > 0 {
      assert t == -q && a == -x && b == y;
      assert t * b == -(q * y);
    } else {
      assert t == q && a == -x && b == -y;
      assert t * b == -(q * y);
    }
  }

  /** Truncation is not floor: a negative quotient with a remainder rounds up, not down. */
  lemma TruncDivIsNotFloor()
    ensures TruncDiv(-1, 2) == 0 && -1 / 2 == -1
  {
  }

  /**
   * Python's `xs[i]` on a list of length `len`: a negative `i` counts from
   * the end; anything outside `-(len as int) <= i < len` raises IndexError (None).
   */
  function PyListIndex(len: nat, i: int): (r: Option<nat>)
    ensures r.Some? <==> -(len as int) <= i < len
    ensures r.Some? ==> r.value < len && (r.value == i || r.value == i + len)
  {
    if 0 <= i < len then Some(i)
    else if -(len as int) <= i < 0 then Some(i + len)
    else None
  }
}
