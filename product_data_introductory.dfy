/** ApphudBase/Sources/ApphudBase/Public/ProductDataIntroductory.swift: the three kinds of
    introductory offer and their two accessors. */
module ProductIntroductory {
  import opened Wrappers
  import opened Decimals
  import opened ProductPeriod

  datatype ProductDataIntroductory =
    | FreeTrial(trialPeriod: ProductDataPeriod)
    | PayUpFront(upFrontPrice: Decimal, upFrontPeriod: ProductDataPeriod)
    | PayAsYouGo(perPeriodPrice: Decimal, payPeriod: ProductDataPeriod, numberOfPeriods: int)

  /** `firstPaymentPrice`: a free trial has none; the two paid offers have the price they
      carry. */
  function FirstPaymentPrice(i: ProductDataIntroductory): (r: Option<Decimal>)
    ensures r.None? <==> i.FreeTrial?
    ensures i.PayUpFront? ==> r == Some(i.upFrontPrice)
    ensures i.PayAsYouGo? ==> r == Some(i.perPeriodPrice)
  {
    match i
    case FreeTrial(_) => None
    case PayUpFront(price, _) => Some(price)
    case PayAsYouGo(price, _, _) => Some(price)
  }

  /** `period`: every kind of offer has one, the one it carries. */
  function Period(i: ProductDataIntroductory): (r: Option<ProductDataPeriod>)
    ensures r.Some?
    ensures i.FreeTrial? ==> r.value == i.trialPeriod
    ensures i.PayUpFront? ==> r.value == i.upFrontPeriod
    ensures i.PayAsYouGo? ==> r.value == i.payPeriod
  {
    match i
    case FreeTrial(period) => Some(period)
    case PayUpFront(_, period) => Some(period)
    case PayAsYouGo(_, period, _) => Some(period)
  }
}
