/** Decimal arithmetic as the services and the database use it.
  *
  * A decimal in memory is a `real`.  A numeric(20,6) column is an `int` that counts
  * millionths, so that "this value came out of the database" is visible in its type.
  * The decimal library's Round and Div, and the database's cast to a column, all round
  * to the nearest representable value, with halves going away from zero.
  */
module Decimals {
  /** A numeric(20,6) column value, in millionths. */
  type Column = int

  function Abs(x: real): (r: real)
    ensures r >= 0.0 && (r == x || r == -x)
  {
    if x >= 0.0 then x else -x
  }

  /** The nearest integer; halves go away from zero. */
  function HalfAway(x: real): int {
    if x >= 0.0 then (x + 0.5).Floor else -((0.5 - x).Floor)
  }

  /** The nearest integer; halves go to the even neighbour. */
  function HalfEven(x: real): int {
    var below := x.Floor;
    var rest := x - below as real;
    if rest < 0.5 then below else if rest > 0.5 then below + 1 else if below % 2 == 0 then below else below + 1
  }

  /** Drops the fraction. */
  function Truncate(x: real): int {
    if x >= 0.0 then x.Floor else -((-x).Floor)
  }

  /** x lies exactly half-way between two neighbouring integers. */
  predicate IsTie(x: real) {
    x - x.Floor as real == 0.5
  }

  lemma {:induction false} HalfAwayIsNearest(x: real)
    ensures -0.5 <= HalfAway(x) as real - x <= 0.5
    ensures HalfAway(-x) == -HalfAway(x)
    ensures HalfAway(x) as real - x == 0.5 ==> x >= 0.0
    ensures HalfAway(x) as real - x == -0.5 ==> x <= 0.0
  {
  }

  /** All three roundings treat x and -x alike. */
  lemma {:induction false} RoundingIsOdd(x: real)
    ensures HalfAway(-x) == -HalfAway(x)
    ensures HalfEven(-x) == -HalfEven(x)
    ensures Truncate(-x) == -Truncate(x)
  {
    if x == x.Floor as real {
      assert (-x).Floor == -x.Floor;
    } else {
      assert (-x).Floor == -x.Floor - 1;
    }
  }

  lemma {:induction false} HalfAwayMonotone(x: real, y: real)
    requires x <= y
    ensures HalfAway(x) <= HalfAway(y)
  {
  }

  lemma {:induction false} HalfAwayOfInteger(n: int)
    ensures HalfAway(n as real) == n
  {
  }

  /** Rounding commutes with adding a whole number except on a tie that changes sign; then the sum
    * rounds to the other neighbour. */
  lemma {:induction false} HalfAwayShift(n: int, y: real)
    ensures HalfAway(n as real + y) == n + HalfAway(y)
            + (if !IsTie(y) || (y >= 0.0) == (n as real + y >= 0.0) then 0 else if y >= 0.0 then -1 else 1)
  {
    assert (n as real + y + 0.5).Floor == n + (y + 0.5).Floor;
    assert (0.5 - (n as real + y)).Floor == -n + (0.5 - y).Floor;
    if IsTie(y) {
      assert (y + 0.5).Floor == y.Floor + 1;
      assert (0.5 - y).Floor == -y.Floor;
    } else {
      assert (0.5 - y).Floor == -(y + 0.5).Floor;
    }
  }

  /** What a numeric(20,6) column holds after being given x. */
  function ToColumn(x: real): Column {
    HalfAway(x * 1000000.0)
  }

  /** What the driver reads back. */
  function FromColumn(c: Column): real {
    c as real / 1000000.0
  }

  lemma {:induction false} ColumnRoundTrip(c: Column)
    ensures ToColumn(FromColumn(c)) == c
  {
    HalfAwayOfInteger(c);
  }

  lemma {:induction false} ToColumnMonotone(x: real, y: real)
    requires x <= y
    ensures ToColumn(x) <= ToColumn(y)
  {
    HalfAwayMonotone(x * 1000000.0, y * 1000000.0);
  }

  lemma {:induction false} ToColumnIsNearest(x: real)
    ensures -0.0000005 <= FromColumn(ToColumn(x)) - x <= 0.0000005
  {
    HalfAwayIsNearest(x * 1000000.0);
  }

  /** Round to 16 places, the precision of the decimal library's Div. */
  function Round16(x: real): real {
    HalfAway(x * 10000000000000000.0) as real / 10000000000000000.0
  }

  function Div(x: real, y: real): real
    requires y != 0.0
  {
    Round16(x / y)
  }

  lemma {:induction false} Round16IsNearest(x: real)
    ensures -0.00000000000000005 <= Round16(x) - x <= 0.00000000000000005
    ensures x >= 0.0 ==> Round16(x) >= 0.0
  {
    HalfAwayIsNearest(x * 10000000000000000.0);
  }

  lemma {:induction false} Round16Monotone(x: real, y: real)
    requires x <= y
    ensures Round16(x) <= Round16(y)
  {
    HalfAwayMonotone(x * 10000000000000000.0, y * 10000000000000000.0);
  }

  /** Whole multiples of the 16th place are not changed by Round16. */
  lemma {:induction false} Round16Exact(n: int)
    ensures Round16(n as real / 10000000000000000.0) == n as real / 10000000000000000.0
  {
    HalfAwayOfInteger(n);
  }

  lemma {:induction false} HalfAwayTo(y: real, n: int)
    requires -0.5 < y - n as real < 0.5
    ensures HalfAway(y) == n
  {
    HalfAwayIsNearest(y);
  }

  lemma {:induction false} Round16To(x: real, n: int)
    requires -0.5 < x * 10000000000000000.0 - n as real < 0.5
    ensures Round16(x) == n as real / 10000000000000000.0
  {
    HalfAwayTo(x * 10000000000000000.0, n);
  }

  // ---------- Products and quotients ----------

  lemma {:induction false} Quotient(w: real, t: real)
    requires t != 0.0
    ensures w / t * t == w
  {
  }

  lemma {:induction false} CancelPositive(x: real, y: real, t: real)
    requires t > 0.0 && x * t <= y * t
    ensures x <= y
  {
  }

  lemma {:induction false} QuotientBetween(w: real, t: real, lo: real, hi: real)
    requires t > 0.0 && lo * t <= w <= hi * t
    ensures lo <= w / t <= hi
  {
    Quotient(w, t);
    CancelPositive(lo, w / t, t);
    CancelPositive(w / t, hi, t);
  }

  /** An error e in one factor of a product. */
  lemma {:induction false} ErrorTimes(x: real, y: real, e: real, t: real, yt: real)
    requires t >= 0.0 && -e <= x - y <= e && y * t == yt
    ensures -(e * t) <= x * t - yt <= e * t
  {
    assert (x - y) * t == x * t - y * t;
    assert (e - (x - y)) * t >= 0.0;
    assert (e + (x - y)) * t >= 0.0;
  }

  /** Multiplying a rounded quotient back misses by at most half a 16th-place unit per divisor. */
  lemma {:induction false} DivTimes(w: real, t: real)
    requires t != 0.0
    ensures -(0.00000000000000005 * Abs(t)) <= Div(w, t) * t - w <= 0.00000000000000005 * Abs(t)
  {
    Quotient(w, t);
    Round16IsNearest(w / t);
    if t > 0.0 {
      ErrorTimes(Div(w, t), w / t, 0.00000000000000005, t, w);
    } else {
      ErrorTimes(Div(w, t), w / t, 0.00000000000000005, -t, -w);
    }
  }
}
