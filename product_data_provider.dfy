/** ApphudBase/Sources/ApphudBase/Internal/ProductDataProvider.swift: the four values a
    product provider supplies, and the flags and price formulas derived from them. */
module ProductDataProvider {
  import opened Wrappers
  import opened Decimals
  import opened ProductPeriod
  import opened ProductIntroductory

  /** What a provider supplies; the locale is kept as its identifier. */
  datatype ProviderData = ProviderData(
    price: Decimal,
    priceLocale: string,
    introductory: Option<ProductDataIntroductory>,
    subscriptionPeriod: Option<ProductDataPeriod>)

  /** `isLifetime`: a product with no subscription period. */
  predicate IsLifetime(d: ProviderData) {
    d.subscriptionPeriod.None?
  }

  /** `isTrial`: the introductory offer is a free trial. */
  predicate IsTrial(d: ProviderData) {
    d.introductory.Some? && d.introductory.value.FreeTrial?
  }

  /** `isFree`: the price is zero (a NaN price is not free). */
  predicate IsFree(d: ProviderData) {
    IsZero(d.price)
  }

  /** `firstPaymentPrice`: the introductory offer's price when it has one, else the full
      price, which is what a free trial or a product with no offer shows. */
  function FirstPaymentPrice(d: ProviderData): (r: Decimal)
    ensures d.introductory.Some? && !d.introductory.value.FreeTrial? ==>
      Some(r) == ProductIntroductory.FirstPaymentPrice(d.introductory.value)
    ensures (d.introductory.None? || IsTrial(d)) ==> r == d.price
  {
    match d.introductory
    case None => d.price
    case Some(offer) => ProductIntroductory.FirstPaymentPrice(offer).GetOr(d.price)
  }

  /** The period the per-day price is spread over: a lifetime product counts as one year. */
  function BillingPeriod(d: ProviderData): (p: ProductDataPeriod)
    ensures IsLifetime(d) ==> p == OneYear && Days(p) == 365
    ensures !IsLifetime(d) ==> p == d.subscriptionPeriod.value
  {
    d.subscriptionPeriod.GetOr(OneYear)
  }

  /** `priceInDays`: the first payment spread over the billing period's days; NaN when that
      period has no days. */
  function PriceInDays(d: ProviderData): (r: Decimal)
    ensures r.Num? <==> FirstPaymentPrice(d).Num? && Days(BillingPeriod(d)) != 0
    ensures r.Num? ==> r.value * Days(BillingPeriod(d)) as real == FirstPaymentPrice(d).value
  {
    Div(FirstPaymentPrice(d), FromInt(Days(BillingPeriod(d))))
  }

  /** `periodPrice(for:)`: the per-day price times the target period's days. */
  function PeriodPrice(d: ProviderData, target: ProductDataPeriod): (r: Decimal)
    ensures r.Num? <==> PriceInDays(d).Num?
    ensures r.Num? ==> r.value == PriceInDays(d).value * Days(target) as real
  {
    Mul(PriceInDays(d), FromInt(Days(target)))
  }

  /** `extractDiscount(from:)`: one minus the ratio of the two per-day prices; NaN when the
      other product's per-day price is zero or NaN. */
  function ExtractDiscount(d: ProviderData, other: ProviderData): (r: Decimal)
    ensures r.Num? <==> PriceInDays(d).Num? && PriceInDays(other).Num? && PriceInDays(other).value != 0.0
    ensures r.Num? ==> (1.0 - r.value) * PriceInDays(other).value == PriceInDays(d).value
  {
    Sub(FromInt(1), Div(PriceInDays(d), PriceInDays(other)))
  }

  /** The price for the product's own billing period is its first payment. */
  lemma PeriodPriceOfOwnPeriod(d: ProviderData)
    requires FirstPaymentPrice(d).Num? && Days(BillingPeriod(d)) != 0
    ensures PeriodPrice(d, BillingPeriod(d)) == FirstPaymentPrice(d)
  {
    DivMulCancel(FirstPaymentPrice(d), FromInt(Days(BillingPeriod(d))));
  }

  /** The price for another period scales the first payment by the ratio of the days:
      price for the target times own days equals first payment times target days. */
  lemma PeriodPriceScales(d: ProviderData, target: ProductDataPeriod)
    requires FirstPaymentPrice(d).Num? && Days(BillingPeriod(d)) != 0
    ensures PeriodPrice(d, target).Num?
    ensures PeriodPrice(d, target).value * Days(BillingPeriod(d)) as real
      == FirstPaymentPrice(d).value * Days(target) as real
  {
    var perDay := PriceInDays(d);
    var scaled := PeriodPrice(d, target);
    ScaledProduct(perDay.value, Days(target) as real, Days(BillingPeriod(d)) as real,
                  FirstPaymentPrice(d).value, scaled.value);
  }

  lemma ScaledProduct(x: real, t: real, n: real, first: real, scaled: real)
    requires x * n == first && scaled == x * t
    ensures scaled * n == first * t
  {
    calc {
      scaled * n;
      x * t * n;
      x * n * t;
      first * t;
    }
  }

  /** A product measured against itself has no discount. */
  lemma ExtractDiscountOfSelf(d: ProviderData)
    requires PriceInDays(d).Num? && PriceInDays(d).value != 0.0
    ensures ExtractDiscount(d, d) == Num(0.0)
  {
    var r := ExtractDiscount(d, d);
    assert (1.0 - r.value) * PriceInDays(d).value == PriceInDays(d).value;
  }

  /** Against a product with a positive per-day price, the discount is positive exactly when
      this product is cheaper per day, and it is below one exactly when this product is not
      free per day. */
  lemma ExtractDiscountSign(d: ProviderData, other: ProviderData)
    requires PriceInDays(d).Num? && PriceInDays(other).Num? && PriceInDays(other).value > 0.0
    ensures ExtractDiscount(d, other).Num?
    ensures ExtractDiscount(d, other).value > 0.0 <==> PriceInDays(d).value < PriceInDays(other).value
    ensures ExtractDiscount(d, other).value < 1.0 <==> PriceInDays(d).value > 0.0
  {
    var r := ExtractDiscount(d, other).value;
    var y := PriceInDays(other).value;
    assert (1.0 - r) * y == PriceInDays(d).value;
    PositiveScale(r, y);
  }

  lemma PositiveScale(r: real, y: real)
    requires y > 0.0
    ensures r > 0.0 <==> r * y > 0.0
    ensures r < 1.0 <==> (1.0 - r) * y > 0.0
  {
    if r > 0.0 {
      assert r * y > 0.0;
    }
    if r <= 0.0 {
      assert r * y <= 0.0;
    }
    if r < 1.0 {
      assert (1.0 - r) * y > 0.0;
    }
    if r >= 1.0 {
      assert (1.0 - r) * y <= 0.0;
    }
  }

  /** A free trial's first payment is the full price, so a free trial is not a free
      product unless the price itself is zero. */
  lemma TrialPaysFullPrice(d: ProviderData)
    requires IsTrial(d)
    ensures FirstPaymentPrice(d) == d.price
    ensures IsFree(d) <==> FirstPaymentPrice(d) == Num(0.0)
  {
  }

  /** A lifetime product spreads its price over 365 days, and a yearly product at the same
      price with no offer has the same per-day price. */
  lemma LifetimeCountsAsYear(price: real, locale: string)
    ensures PriceInDays(ProviderData(Num(price), locale, None, None))
      == PriceInDays(ProviderData(Num(price), locale, None, Some(OneYear)))
      == Num(price / 365.0)
  {
  }

  /** A yearly plan at 36.5 (0.1 a day) measured against a weekly plan at 1.4 (0.2 a day)
      is a discount of one half. */
  lemma YearlyAgainstWeeklyExample()
    ensures ExtractDiscount(ProviderData(Num(36.5), "en_US", None, Some(OneYear)),
                            ProviderData(Num(1.4), "en_US", None, Some(Week))) == Num(0.5)
  {
    var yearly := ProviderData(Num(36.5), "en_US", None, Some(OneYear));
    var weekly := ProviderData(Num(1.4), "en_US", None, Some(Week));
    assert PriceInDays(yearly) == Num(0.1);
    assert PriceInDays(weekly) == Num(0.2);
  }
}
