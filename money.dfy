/** java.math.BigDecimal as an unscaled integer and a scale: the value of
    Decimal(u, s) is u * 10^(-s). Only what the services use is modelled:
    the scale, and comparison (compareTo, which ignores the scale). */
module Money {
  import Text

  datatype Decimal = Decimal(unscaled: int, scale: int)

  /** BigDecimal.ZERO */
  const Zero := Decimal(0, 0)

  /** new BigDecimal("<n>") for a whole number n. */
  function Whole(n: int): (d: Decimal)
    ensures d.scale == 0 && d.unscaled == n
  {
    Decimal(n, 0)
  }

  function Max(a: int, b: int): int { if a < b then b else a }

  /** The value of d written with s decimal places (s at least d's scale):
      its unscaled value followed by s - scale zeros. */
  function Numerator(d: Decimal, s: int): int
    requires d.scale <= s
    decreases s - d.scale
  {
    if s == d.scale then d.unscaled else 10 * Numerator(d, s - 1)
  }

  /** a.compareTo(b) <= 0 */
  predicate LessEq(a: Decimal, b: Decimal) {
    var s := Max(a.scale, b.scale);
    Numerator(a, s) <= Numerator(b, s)
  }

  /** a.compareTo(b) < 0 */
  predicate Less(a: Decimal, b: Decimal) {
    !LessEq(b, a)
  }

  lemma MulMonotone(x: int, y: int, p: int)
    requires p > 0
    ensures x <= y <==> x * p <= y * p
  {
    if x <= y {
      assert y * p - x * p == (y - x) * p;
    } else {
      assert x * p - y * p == (x - y) * p;
    }
  }

  /** Writing a value with more decimal places multiplies its numerator by
      the matching power of ten. */
  lemma {:induction false} NumeratorShift(d: Decimal, s: int, t: int)
    requires d.scale <= s <= t
    ensures Numerator(d, t) == Numerator(d, s) * Text.Pow10(t - s)
    decreases t - s
  {
    if t > s {
      NumeratorShift(d, s, t - 1);
      assert Text.Pow10(t - s) == 10 * Text.Pow10(t - 1 - s);
    }
  }

  /** Comparison may be carried out at any common number of decimal places. */
  lemma {:induction false} LessEqAt(a: Decimal, b: Decimal, t: int)
    requires a.scale <= t && b.scale <= t
    ensures LessEq(a, b) <==> Numerator(a, t) <= Numerator(b, t)
  {
    var s := Max(a.scale, b.scale);
    NumeratorShift(a, s, t);
    NumeratorShift(b, s, t);
    MulMonotone(Numerator(a, s), Numerator(b, s), Text.Pow10(t - s));
  }

  /** compareTo is a total preorder: total and transitive. */
  lemma LessEqTotal(a: Decimal, b: Decimal)
    ensures LessEq(a, b) || LessEq(b, a)
  {
  }

  lemma LessEqTransitive(a: Decimal, b: Decimal, c: Decimal)
    requires LessEq(a, b) && LessEq(b, c)
    ensures LessEq(a, c)
  {
    var t := Max(Max(a.scale, b.scale), c.scale);
    LessEqAt(a, b, t);
    LessEqAt(b, c, t);
    LessEqAt(a, c, t);
  }

  /** Comparing with zero looks at the sign of the unscaled value only. */
  lemma {:induction false} LessEqZero(d: Decimal)
    ensures LessEq(d, Zero) <==> d.unscaled <= 0
    ensures LessEq(Zero, d) <==> 0 <= d.unscaled
  {
    var s := Max(d.scale, 0);
    NumeratorShift(d, d.scale, s);
    NumeratorShift(Zero, 0, s);
    MulMonotone(d.unscaled, 0, Text.Pow10(s - d.scale));
    MulMonotone(0, d.unscaled, Text.Pow10(s - d.scale));
  }

  /** On whole numbers comparison is integer comparison. */
  lemma WholeLessEq(m: int, n: int)
    ensures LessEq(Whole(m), Whole(n)) <==> m <= n
  {
  }
}
