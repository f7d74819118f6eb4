/** The balance routine's arithmetic: the discount actually applied, the
    discounted subtotal, the tax, and the final balance as the seven-branch
    table assembles it, next to the plain "subtract, add, add" formula. */
module Balance {
  import opened Wrappers

  /** The discount that enters the formula. An unset discount is absent; a
      discount equal to the subtotal is replaced by zero. */
  function EffectiveDiscount(subTotal: real, discount: Option<real>): (r: Option<real>) {
    match discount
    case None => None
    case Some(x) => if x == subTotal then Some(0.0) else Some(x)
  }

  /** `subTotalLessDiscount`. */
  function LessDiscount(subTotal: real, discount: Option<real>): (r: real) {
    match EffectiveDiscount(subTotal, discount)
    case None => subTotal
    case Some(d) => subTotal - d
  }

  /** `base * (rate * (1 / 100))`, as the code writes it: `rate` percent of `base`. */
  function Percent(base: real, rate: real): (r: real) {
    base * (rate * (1.0 / 100.0))
  }

  /** The tax term: present exactly when a tax rate is set, taken on the
      discounted subtotal. */
  function TaxTerm(subTotal: real, discount: Option<real>, taxRate: Option<real>): (r: Option<real>) {
    match taxRate
    case None => None
    case Some(rate) => Some(Percent(LessDiscount(subTotal, discount), rate))
  }

  /** The seven enumerated cases over which of discount, tax and shipping
      terms are present. `None` when no case applies. */
  function BranchTable(subTotal: real, d: Option<real>, t: Option<real>, s: Option<real>): (r: Option<real>) {
    if d.Some? && t.Some? && s.Some? then Some(subTotal - d.value + t.value + s.value)
    else if d.None? && t.Some? && s.Some? then Some(subTotal + t.value + s.value)
    else if d.None? && t.None? && s.Some? then Some(subTotal + s.value)
    else if d.None? && t.None? && s.None? then Some(subTotal)
    else if d.Some? && t.None? && s.None? then Some(subTotal - d.value)
    else if d.Some? && t.Some? && s.None? then Some(subTotal - d.value + t.value)
    else if d.Some? && t.None? && s.Some? then Some(subTotal - d.value + s.value)
    else None
  }

  /** Reference formula: start from the subtotal, subtract the discount if
      there is one, add the tax if there is one, add shipping if set. */
  function Accumulate(subTotal: real, d: Option<real>, t: Option<real>, s: Option<real>): (r: real) {
    var afterDiscount := if d.Some? then subTotal - d.value else subTotal;
    var afterTax := if t.Some? then afterDiscount + t.value else afterDiscount;
    if s.Some? then afterTax + s.value else afterTax
  }

  /** `balancePaid` after the routine, given its value before: the branch
      table's result, or the previous value when no branch fires. */
  function BalanceAfter(subTotal: real, discount: Option<real>, taxRate: Option<real>,
                        shipping: Option<real>, previous: Option<real>): (r: Option<real>)
  {
    match BranchTable(subTotal, EffectiveDiscount(subTotal, discount),
                      TaxTerm(subTotal, discount, taxRate), shipping)
    case Some(b) => Some(b)
    case None => previous
  }

  /** The branch table is the reference formula on every combination but
      one: discount absent, tax present, shipping absent, where it gives nothing. */
  lemma BranchTableMatchesAccumulator(subTotal: real, d: Option<real>, t: Option<real>, s: Option<real>)
    ensures BranchTable(subTotal, d, t, s).None? <==> (d.None? && t.Some? && s.None?)
    ensures BranchTable(subTotal, d, t, s).Some? ==>
              BranchTable(subTotal, d, t, s).value == Accumulate(subTotal, d, t, s)
  {
  }

  /** The balance equals subtotal - discount + tax + shipping, each term
      present only when its field is set, except when the tax rate is the
      only field set: then the balance keeps its previous value. */
  lemma BalanceFormula(subTotal: real, discount: Option<real>, taxRate: Option<real>,
                       shipping: Option<real>, previous: Option<real>)
    ensures !(discount.None? && taxRate.Some? && shipping.None?) ==>
              BalanceAfter(subTotal, discount, taxRate, shipping, previous)
                == Some(Accumulate(subTotal, EffectiveDiscount(subTotal, discount),
                                   TaxTerm(subTotal, discount, taxRate), shipping))
    ensures discount.None? && taxRate.Some? && shipping.None? ==>
              BalanceAfter(subTotal, discount, taxRate, shipping, previous) == previous
  {
    BranchTableMatchesAccumulator(subTotal, EffectiveDiscount(subTotal, discount),
                                  TaxTerm(subTotal, discount, taxRate), shipping);
  }

  /** A discount equal to the subtotal counts as no discount at all, while
      any other discount is deducted in full. */
  lemma FullDiscountIgnored(subTotal: real, x: real, taxRate: Option<real>,
                            shipping: Option<real>, previous: Option<real>)
    ensures LessDiscount(subTotal, Some(subTotal)) == subTotal
    ensures BalanceAfter(subTotal, Some(subTotal), taxRate, shipping, previous)
              == BalanceAfter(subTotal, Some(0.0), taxRate, shipping, previous)
    ensures x != subTotal ==> LessDiscount(subTotal, Some(x)) == subTotal - x
  {
    assert EffectiveDiscount(subTotal, Some(subTotal)) == Some(0.0);
    assert EffectiveDiscount(subTotal, Some(0.0)) == Some(0.0);
    assert LessDiscount(subTotal, Some(subTotal)) == LessDiscount(subTotal, Some(0.0));
    if taxRate.Some? {
      var t1, t0 := TaxTerm(subTotal, Some(subTotal), taxRate), TaxTerm(subTotal, Some(0.0), taxRate);
      assert t1.Some? && t0.Some? && t1.value == t0.value;
    }
  }

  /** Subtotal 100, discount 10, tax rate 10, shipping 5: the discounted
      subtotal is 90, the tax 9 and the balance 100 - 10 + 9 + 5 = 104. */
  lemma ScenarioAllSet(previous: Option<real>)
    ensures LessDiscount(100.0, Some(10.0)) == 90.0
    ensures TaxTerm(100.0, Some(10.0), Some(10.0)) == Some(9.0)
    ensures BalanceAfter(100.0, Some(10.0), Some(10.0), Some(5.0), previous) == Some(104.0)
  {
  }

  /** Subtotal 100 with only a tax rate of 10: the tax is 10, but no branch
      fires, so the balance is not 110: it keeps its previous value. */
  lemma ScenarioTaxOnly(previous: Option<real>)
    ensures TaxTerm(100.0, None, Some(10.0)) == Some(10.0)
    ensures BalanceAfter(100.0, None, Some(10.0), None, previous) == previous
  {
  }
}
