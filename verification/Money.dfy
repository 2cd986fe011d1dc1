/** Discount and total arithmetic on 64-bit integers that wrap around, with division that truncates. */
module Money {
  import opened Prelude
  import opened Schema

  const MAX_INT64 := 0x7FFF_FFFF_FFFF_FFFF
  const TWO_TO_63 := 0x8000_0000_0000_0000
  const TWO_TO_64 := 0x1_0000_0000_0000_0000

  function Wrap64(x: int): int {
    (x + TWO_TO_63) % TWO_TO_64 - TWO_TO_63
  }

  predicate IsInt64(x: int) {
    -TWO_TO_63 <= x <= MAX_INT64
  }

  lemma WrapInRange(x: int)
    ensures IsInt64(Wrap64(x)) && (IsInt64(x) ==> Wrap64(x) == x)
  {
  }

  /** Wrapping keeps the low 64 bits. */
  lemma WrapKeepsLowBits(x: int)
    ensures exists k :: x == Wrap64(x) + k * TWO_TO_64
  {
    var k := (x + TWO_TO_63) / TWO_TO_64;
    assert x == Wrap64(x) + k * TWO_TO_64;
  }

  /** Conversion to a 32-bit integer keeps the low 32 bits. */
  function Int32(x: int): int {
    (x + 0x8000_0000) % 0x1_0000_0000 - 0x8000_0000
  }

  lemma Int32KeepsLowBits(x: int)
    ensures -0x8000_0000 <= Int32(x) <= 0x7FFF_FFFF
    ensures -0x8000_0000 <= x <= 0x7FFF_FFFF ==> Int32(x) == x
    ensures exists k :: x == Int32(x) + k * 0x1_0000_0000
  {
    var k := (x + 0x8000_0000) / 0x1_0000_0000;
    assert x == Int32(x) + k * 0x1_0000_0000;
  }

  function TruncatedDiv(a: int, b: int): int
    requires b > 0
  {
    if a >= 0 then a / b else -((-a) / b)
  }

  /** Division by a hundred drops the fraction, towards zero on both sides. */
  lemma DivisionTruncates(a: int)
    ensures var q := TruncatedDiv(a, 100);
            if a >= 0 then 0 <= 100 * q <= a < 100 * q + 100 else 100 * q - 100 < a <= 100 * q <= 0
  {
  }

  function ComputeDiscount(kind: CouponKind, value: int, subtotal: int): int {
    var d := match kind
      case Fixed => value
      case Percent => TruncatedDiv(Wrap64(Wrap64(subtotal * value) + 50), 100);
    var capped := if d > subtotal then subtotal else d;
    if capped < 0 then 0 else capped
  }

  function ComputeTotal(subtotal: int, shipping: int, discount: int): int {
    var t := Wrap64(Wrap64(subtotal + shipping) - discount);
    if t < 0 then 0 else t
  }

  /** The discount never exceeds the goods value and is never negative, whatever the coupon and even after overflow. */
  lemma DiscountWithinSubtotal(kind: CouponKind, value: int, subtotal: int)
    ensures if subtotal >= 0 then 0 <= ComputeDiscount(kind, value, subtotal) <= subtotal
            else ComputeDiscount(kind, value, subtotal) == 0
  {
  }

  /** A fixed discount is the coupon's value or the whole goods value, whichever is less. */
  lemma FixedIsMinimum(value: int, subtotal: int)
    requires value >= 0 && subtotal >= 0
    ensures var d := ComputeDiscount(Fixed, value, subtotal);
            d <= value && d <= subtotal && (d == value || d == subtotal)
  {
  }

  /** d is subtotal * percent / 100 rounded to the nearest cent, halves up. */
  ghost predicate RoundsHalfUp(d: int, subtotal: int, percent: int) {
    subtotal * percent - 50 < 100 * d <= subtotal * percent + 50
  }

  lemma WrapTwice(x: int, y: int)
    ensures Wrap64(Wrap64(x) + y) == Wrap64(x + y)
  {
    var k := (x + TWO_TO_63) / TWO_TO_64;
    assert Wrap64(x) == x - k * TWO_TO_64;
    ModShift(x + y + TWO_TO_63, k);
  }

  lemma ModShift(a: int, k: int)
    ensures (a - k * TWO_TO_64) % TWO_TO_64 == a % TWO_TO_64
  {
    var q, r := a / TWO_TO_64, a % TWO_TO_64;
    assert a - k * TWO_TO_64 == (q - k) * TWO_TO_64 + r;
    DivisionUnique(a - k * TWO_TO_64, q - k, r);
  }

  lemma DivisionUnique(a: int, q: int, r: int)
    requires a == q * TWO_TO_64 + r && 0 <= r < TWO_TO_64
    ensures a % TWO_TO_64 == r
  {
  }

  lemma PercentValue(percent: int, subtotal: int)
    requires 0 <= percent <= 100 && 0 <= subtotal <= MAX_INT64 && subtotal * percent + 50 <= MAX_INT64
    ensures ComputeDiscount(Percent, percent, subtotal) == (subtotal * percent + 50) / 100
  {
    hide Wrap64;
    assert 0 <= subtotal * percent <= subtotal * 100;
    RoundedProduct(subtotal * percent, subtotal);
  }

  lemma RoundedProduct(product: int, subtotal: int)
    requires 0 <= product <= subtotal * 100 && product + 50 <= MAX_INT64
    ensures TruncatedDiv(Wrap64(Wrap64(product) + 50), 100) == (product + 50) / 100
    ensures 0 <= (product + 50) / 100 <= subtotal
  {
    WrapInRange(product);
    WrapInRange(product + 50);
  }

  lemma WrapFalls(x: int)
    requires x > MAX_INT64
    ensures Wrap64(x) <= x - TWO_TO_64
  {
    assert (x + TWO_TO_63) / TWO_TO_64 >= 1;
  }

  /** An overflowed product gives at most a hundredth of what is left of it. */
  lemma OverflowedDiscount(percent: int, subtotal: int, w: int)
    requires w == Wrap64(subtotal * percent + 50) && subtotal >= 0
    ensures 100 * ComputeDiscount(Percent, percent, subtotal) <= if w < 0 then 0 else w
  {
    WrapTwice(subtotal * percent, 50);
    assert ComputeDiscount(Percent, percent, subtotal) <= if w < 0 then 0 else w / 100;
  }

  /**
   * A percentage discount is the half-up rounded percentage of the subtotal exactly when the rounded product does not
   * overflow; within that range the cap never fires.
   */
  lemma PercentExact(percent: int, subtotal: int)
    requires 0 <= percent <= 100 && 0 <= subtotal <= MAX_INT64
    ensures RoundsHalfUp(ComputeDiscount(Percent, percent, subtotal), subtotal, percent)
            <==> subtotal * percent + 50 <= MAX_INT64
  {
    hide ComputeDiscount, Wrap64;
    if subtotal * percent + 50 <= MAX_INT64 {
      PercentValue(percent, subtotal);
    } else {
      WrapFalls(subtotal * percent + 50);
      OverflowedDiscount(percent, subtotal, Wrap64(subtotal * percent + 50));
    }
  }

  /** Every subtotal up to 92233720368547757 cents is inside that range for every percentage. */
  lemma PercentNeverOverflows(percent: int, subtotal: int)
    requires 0 <= percent <= 100 && 0 <= subtotal <= 92233720368547757
    ensures subtotal * percent + 50 <= MAX_INT64
    ensures RoundsHalfUp(ComputeDiscount(Percent, percent, subtotal), subtotal, percent)
  {
    assert subtotal * percent <= subtotal * 100;
    PercentExact(percent, subtotal);
  }

  /**
   * With a discount inside the subtotal the lower clamp never lifts a negative amount: the total is exact if and only
   * if the exact amount fits in 64 bits.
   */
  lemma TotalExact(subtotal: int, shipping: int, discount: int)
    requires 0 <= discount <= subtotal && shipping >= 0
    ensures ComputeTotal(subtotal, shipping, discount) == subtotal + shipping - discount
            <==> subtotal + shipping - discount <= MAX_INT64
  {
    WrapTwice(subtotal + shipping, -discount);
    WrapInRange(subtotal + shipping - discount);
  }

  /** Within 64 bits the total is the exact amount, but never below nothing. */
  lemma TotalClamps(subtotal: int, shipping: int, discount: int)
    requires IsInt64(subtotal + shipping - discount)
    ensures var exact := subtotal + shipping - discount;
            ComputeTotal(subtotal, shipping, discount) == if exact < 0 then 0 else exact
  {
    WrapTwice(subtotal + shipping, -discount);
    WrapInRange(subtotal + shipping - discount);
  }

  /** An exact total that does not fit in 64 bits wraps to a negative amount, which the clamp turns into nothing. */
  lemma TotalOverflows(subtotal: int, shipping: int, discount: int)
    requires 0 <= discount <= subtotal <= MAX_INT64 && 0 <= shipping <= MAX_INT64
    requires subtotal + shipping - discount > MAX_INT64
    ensures ComputeTotal(subtotal, shipping, discount) == 0
  {
    WrapTwice(subtotal + shipping, -discount);
    WrapFalls(subtotal + shipping - discount);
  }

  // Larger baskets

  ghost predicate DiscountsGrow(kind: CouponKind, value: int, bound: int) {
    forall small, large :: 0 <= small <= large <= bound ==>
      ComputeDiscount(kind, value, small) <= ComputeDiscount(kind, value, large)
  }

  /**
   * Up to a given subtotal, a larger basket never gets a smaller discount if and only if the percentage product of
   * that subtotal fits in 64 bits; a fixed discount always grows.
   */
  lemma DiscountMonotone(kind: CouponKind, value: int, bound: int)
    requires 0 <= bound <= MAX_INT64 && (kind == Percent ==> 0 <= value <= 100)
    ensures DiscountsGrow(kind, value, bound) <==> (kind == Percent ==> bound * value + 50 <= MAX_INT64)
  {
    if kind == Percent {
      if bound * value + 50 <= MAX_INT64 {
        PercentsGrow(value, bound);
      } else {
        var last := LastExact(value, bound);
        assert ComputeDiscount(kind, value, last + 1) < ComputeDiscount(kind, value, last);
      }
    }
  }

  lemma PercentsGrow(percent: int, bound: int)
    requires 0 <= percent <= 100 && 0 <= bound <= MAX_INT64 && bound * percent + 50 <= MAX_INT64
    ensures DiscountsGrow(Percent, percent, bound)
  {
    forall small, large | 0 <= small <= large <= bound
      ensures ComputeDiscount(Percent, percent, small) <= ComputeDiscount(Percent, percent, large)
    {
      PercentGrows(percent, small, large, bound);
    }
  }

  lemma PercentGrows(percent: int, small: int, large: int, bound: int)
    requires 0 <= percent <= 100 && 0 <= small <= large <= bound <= MAX_INT64 && bound * percent + 50 <= MAX_INT64
    ensures ComputeDiscount(Percent, percent, small) <= ComputeDiscount(Percent, percent, large)
  {
    hide ComputeDiscount;
    ProductsGrow(small, large, percent);
    ProductsGrow(large, bound, percent);
    PercentValue(percent, small);
    PercentValue(percent, large);
    HundredthGrows(small * percent + 50, large * percent + 50);
  }

  lemma ProductsGrow(a: int, b: int, factor: int)
    requires a <= b && factor >= 0
    ensures a * factor <= b * factor
  {
  }

  lemma HundredthGrows(a: int, b: int)
    requires a <= b
    ensures a / 100 <= b / 100
  {
  }

  /** The last subtotal before the product overflows; one cent more loses the whole discount. */
  lemma LastExact(percent: int, bound: int) returns (last: int)
    requires 0 <= percent <= 100 && 0 <= bound <= MAX_INT64 && bound * percent + 50 > MAX_INT64
    ensures 0 <= last < bound
    ensures ComputeDiscount(Percent, percent, last) > 0 == ComputeDiscount(Percent, percent, last + 1)
  {
    assert percent > 0;
    last := (MAX_INT64 - 50) / percent;
    LargestMultiple(MAX_INT64 - 50, percent, bound);
    assert (last + 1) * percent == last * percent + percent;
    hide ComputeDiscount, Wrap64;
    PercentValue(percent, last);
    WrapFalls((last + 1) * percent + 50);
    OverflowedDiscount(percent, last + 1, Wrap64((last + 1) * percent + 50));
    DiscountWithinSubtotal(Percent, percent, last + 1);
  }

  lemma SmallerFactor(a: int, b: int, factor: int)
    requires factor > 0 && a * factor < b * factor
    ensures a < b
  {
  }

  lemma LargestMultiple(limit: int, factor: int, beyond: int)
    requires limit > 0 && factor > 0 && beyond * factor > limit
    ensures var q := limit / factor; 0 <= q < beyond && limit - factor < q * factor <= limit
  {
    var q := limit / factor;
    assert limit == q * factor + limit % factor;
    SmallerFactor(q, beyond, factor);
  }

  /** A hundredth, not below zero, rises by one at most when its dividend rises by at most a hundred. */
  lemma HundredthRises(w: int, step: int)
    requires 0 <= step <= 100
    ensures var before := TruncatedDiv(w, 100); TruncatedDiv(w + step, 100) <= (if before < 0 then 0 else before) + 1
  {
  }

  lemma WrapRises(w: int, step: int)
    requires IsInt64(w) && 0 <= step <= 100
    ensures Wrap64(w + step) == w + step || Wrap64(w + step) < 0
  {
  }

  /** The rounded percentage before it is capped. */
  function RawPercent(percent: int, subtotal: int): int {
    TruncatedDiv(Wrap64(Wrap64(subtotal * percent) + 50), 100)
  }

  lemma RawPercentStep(percent: int, subtotal: int)
    requires 0 <= percent <= 100
    ensures var raw := RawPercent(percent, subtotal);
            RawPercent(percent, subtotal + 1) <= (if raw < 0 then 0 else raw) + 1
  {
    hide Wrap64;
    var product := subtotal * percent;
    assert (subtotal + 1) * percent == product + percent;
    WrapTwice(product, 50);
    WrapTwice(product + percent, 50);
    WrapTwice(product + 50, percent);
    WrapInRange(product + 50);
    WrapRises(Wrap64(product + 50), percent);
    HundredthRises(Wrap64(product + 50), percent);
  }

  /** One more cent of goods brings at most one more cent of discount, also when the product overflows. */
  lemma DiscountStep(kind: CouponKind, value: int, subtotal: int)
    requires subtotal >= 0 && (kind == Percent ==> 0 <= value <= 100)
    ensures ComputeDiscount(kind, value, subtotal + 1) <= ComputeDiscount(kind, value, subtotal) + 1
  {
    if kind == Percent {
      hide Wrap64, TruncatedDiv;
      RawPercentStep(value, subtotal);
    }
  }

  lemma {:induction false} DiscountGrowsSlowly(kind: CouponKind, value: int, small: int, large: int)
    requires 0 <= small <= large && (kind == Percent ==> 0 <= value <= 100)
    ensures ComputeDiscount(kind, value, large) - ComputeDiscount(kind, value, small) <= large - small
    decreases large - small
  {
    hide ComputeDiscount;
    if small == large {
    } else {
      DiscountGrowsSlowly(kind, value, small, large - 1);
      DiscountStep(kind, value, large - 1);
    }
  }

  function TotalOf(kind: CouponKind, value: int, shipping: int, subtotal: int): int {
    ComputeTotal(subtotal, shipping, ComputeDiscount(kind, value, subtotal))
  }

  ghost predicate TotalsGrow(kind: CouponKind, value: int, shipping: int, bound: int) {
    forall small, large :: 0 <= small <= large <= bound ==>
      TotalOf(kind, value, shipping, small) <= TotalOf(kind, value, shipping, large)
  }

  /**
   * Up to a given subtotal, a larger basket never has a smaller total if and only if the exact total of that subtotal
   * fits in 64 bits.
   */
  lemma TotalMonotone(kind: CouponKind, value: int, shipping: int, bound: int)
    requires 0 <= bound <= MAX_INT64 && 0 <= shipping <= MAX_INT64 && (kind == Percent ==> 0 <= value <= 100)
    ensures TotalsGrow(kind, value, shipping, bound)
            <==> bound + shipping - ComputeDiscount(kind, value, bound) <= MAX_INT64
  {
    hide ComputeDiscount, ComputeTotal;
    var top := ComputeDiscount(kind, value, bound);
    DiscountWithinSubtotal(kind, value, bound);
    if bound + shipping - top <= MAX_INT64 {
      forall small, large | 0 <= small <= large <= bound
        ensures TotalOf(kind, value, shipping, small) <= TotalOf(kind, value, shipping, large)
      {
        DiscountGrowsSlowly(kind, value, small, large);
        DiscountGrowsSlowly(kind, value, large, bound);
        DiscountWithinSubtotal(kind, value, small);
        DiscountWithinSubtotal(kind, value, large);
        TotalExact(small, shipping, ComputeDiscount(kind, value, small));
        TotalExact(large, shipping, ComputeDiscount(kind, value, large));
      }
    } else {
      DiscountWithinSubtotal(kind, value, 0);
      TotalExact(0, shipping, ComputeDiscount(kind, value, 0));
      TotalOverflows(bound, shipping, top);
      assert TotalOf(kind, value, shipping, bound) < TotalOf(kind, value, shipping, 0);
    }
  }

  // The running subtotal of a quote

  function LineValue(l: QuoteLine): int {
    l.unitPrice * l.quantity
  }

  /** The subtotal as the loop accumulates it, wrapping at every step. */
  function Subtotal(lines: seq<QuoteLine>): int {
    if lines == [] then 0
    else Wrap64(Subtotal(lines[..|lines| - 1]) + Wrap64(LineValue(lines[|lines| - 1])))
  }

  ghost predicate PricedLine(l: QuoteLine) {
    l.unitPrice >= 0 && 1 <= l.quantity <= 99
  }

  /** The accumulated subtotal is the exact goods value if and only if that value fits in 64 bits. */
  lemma {:induction false} SubtotalExact(lines: seq<QuoteLine>)
    requires forall l :: l in lines ==> PricedLine(l)
    ensures 0 <= Sum(lines, LineValue)
    ensures Subtotal(lines) == Sum(lines, LineValue) <==> Sum(lines, LineValue) <= MAX_INT64
  {
    SubtotalWraps(lines);
    WrapInRange(Sum(lines, LineValue));
    forall l | l in lines ensures LineValue(l) >= 0 {
      assert PricedLine(l);
    }
    SumCovers(lines, LineValue);
  }

  /** Wrapping at every step is wrapping once at the end. */
  lemma {:induction false} SubtotalWraps(lines: seq<QuoteLine>)
    ensures Subtotal(lines) == Wrap64(Sum(lines, LineValue))
  {
    if lines == [] {
    } else {
      var init, l := lines[..|lines| - 1], lines[|lines| - 1];
      SubtotalWraps(init);
      WrapTwice(Sum(init, LineValue), Wrap64(LineValue(l)));
      WrapTwice(LineValue(l), Sum(init, LineValue));
    }
  }

  /**
   * Failing inputs: four pieces at 2^62 cents add up to nothing, a full discount on 92233720368547758 cents is nothing,
   * and one cent of shipping on top of the largest subtotal leaves nothing to pay.
   */
  lemma OverflowExamples(v: VariantId)
    ensures var l := QuoteLine(v, 4, 0x4000_0000_0000_0000);
            PricedLine(l) && Subtotal([l]) == 0 && Sum([l], LineValue) == TWO_TO_64
    ensures ComputeDiscount(Percent, 100, 92233720368547758) == 0
    ensures ComputeTotal(MAX_INT64, 1, 0) == 0
  {
    var l := QuoteLine(v, 4, 0x4000_0000_0000_0000);
    SumSingle(l, LineValue);
    SubtotalWraps([l]);
  }
}
