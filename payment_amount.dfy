/** The payment amount value object: a positive BigDecimal with at most two
    decimal places, and the three amount tiers the payment simulation uses. */
module PaymentAmounts {
  import opened Exceptions
  import opened Money
  import Text

  datatype PaymentAmount = PaymentAmount(value: Decimal)

  /** of: zero or less is refused first, then more than two decimal places. */
  function Of(value: Decimal): (r: Try<PaymentAmount, IllegalArgument>)
    ensures r.Return? <==> 0 < value.unscaled && value.scale <= 2
    ensures r.Return? ==> r.value.value == value
    ensures value.unscaled <= 0 ==> r == Throw(IllegalArgument("Payment amount must be greater than 0"))
    ensures 0 < value.unscaled && value.scale > 2
            ==> r == Throw(IllegalArgument("Payment amount cannot have more than 2 decimal places"))
  {
    LessEqZero(value);
    if LessEq(value, Zero) then Throw(IllegalArgument("Payment amount must be greater than 0"))
    else if value.scale > 2 then Throw(IllegalArgument("Payment amount cannot have more than 2 decimal places"))
    else Return(PaymentAmount(value))
  }

  /** What every amount built by of satisfies. */
  predicate Valid(a: PaymentAmount) {
    0 < a.value.unscaled && a.value.scale <= 2
  }

  /** isHighAmount: at least 1,000,000. */
  predicate IsHighAmount(a: PaymentAmount) {
    LessEq(Whole(1000000), a.value)
  }

  /** isMediumAmount: at least 500,000. */
  predicate IsMediumAmount(a: PaymentAmount) {
    LessEq(Whole(500000), a.value)
  }

  /** isLowAmount: below 500,000. */
  predicate IsLowAmount(a: PaymentAmount) {
    Less(a.value, Whole(500000))
  }

  /** Low is exactly not medium, a high amount is also a medium one, and
      so every amount is in exactly one of low, medium-but-not-high, high. */
  lemma Tiers(a: PaymentAmount)
    ensures IsLowAmount(a) <==> !IsMediumAmount(a)
    ensures IsHighAmount(a) ==> IsMediumAmount(a)
  {
    if IsHighAmount(a) {
      WholeLessEq(500000, 1000000);
      LessEqTransitive(Whole(500000), Whole(1000000), a.value);
    }
  }

  /** The high tier in unscaled units: for an amount written with s >= 0
      decimal places it starts at 1,000,000 * 10^s; for a negative scale
      the unscaled value times 10^(-s) is compared with 1,000,000. */
  lemma HighAmountThreshold(a: PaymentAmount)
    ensures 0 <= a.value.scale ==>
              (IsHighAmount(a) <==> 1000000 * Text.Pow10(a.value.scale) <= a.value.unscaled)
    ensures a.value.scale < 0 ==>
              (IsHighAmount(a) <==> 1000000 <= a.value.unscaled * Text.Pow10(-a.value.scale))
  {
    if 0 <= a.value.scale {
      LessEqAt(Whole(1000000), a.value, a.value.scale);
      NumeratorShift(Whole(1000000), 0, a.value.scale);
    } else {
      LessEqAt(Whole(1000000), a.value, 0);
      NumeratorShift(a.value, a.value.scale, 0);
    }
  }

  /** The medium tier likewise, with 500,000 in place of 1,000,000. */
  lemma MediumAmountThreshold(a: PaymentAmount)
    ensures 0 <= a.value.scale ==>
              (IsMediumAmount(a) <==> 500000 * Text.Pow10(a.value.scale) <= a.value.unscaled)
    ensures a.value.scale < 0 ==>
              (IsMediumAmount(a) <==> 500000 <= a.value.unscaled * Text.Pow10(-a.value.scale))
  {
    if 0 <= a.value.scale {
      LessEqAt(Whole(500000), a.value, a.value.scale);
      NumeratorShift(Whole(500000), 0, a.value.scale);
    } else {
      LessEqAt(Whole(500000), a.value, 0);
      NumeratorShift(a.value, a.value.scale, 0);
    }
  }
}
