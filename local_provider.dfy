/** ApphudBase/Sources/ApphudBase/Internal/LocalStoreKitProductDataProvider.swift: provider
    data read from a product record of the local `.storekit` file. The product table is a
    parameter (it is loaded from the app bundle), and so is `Decimal(string:locale:)` for the
    en_US locale, whose number syntax is not modelled. */
module LocalStoreKitProvider {
  import opened Wrappers
  import opened Decimals
  import opened ProductPeriod
  import opened ProductIntroductory
  import opened ProductDataProvider
  import SK = StoreKitContent

  /** `Decimal(string:locale:)` in en_US: the value of a price string, or nil. */
  type PriceParser = string -> Option<real>

  /** The traps (`fatalError` and `!` on nil) reading a local product can stop at. */
  datatype Trap = ProductNotFound | UnparsablePrice | MissingOfferPrice | MissingNumberOfPeriods

  datatype LocalProvider = LocalProvider(localProduct: SK.Product)

  /** `init(productId:)`: the product under that id, or a `fatalError` when there is none. */
  function Init(productsById: map<string, SK.Product>, productId: string): (r: Result<LocalProvider, Trap>)
    ensures r.Failure? <==> productId !in productsById
    ensures r.Failure? ==> r.error == ProductNotFound
    ensures r.Success? ==> r.value.localProduct == productsById[productId]
  {
    if productId in productsById then Success(LocalProvider(productsById[productId]))
    else Failure(ProductNotFound)
  }

  /** `priceLocale`. */
  const PriceLocale := "en_US"

  /** A price string read in en_US; `!` traps when it does not parse. */
  function ParsedPrice(s: string, parse: PriceParser): (r: Result<Decimal, Trap>)
    ensures r.Failure? <==> parse(s).None?
    ensures r.Failure? ==> r.error == UnparsablePrice
    ensures r.Success? ==> r.value == Num(parse(s).value)
  {
    match parse(s)
    case Some(v) => Success(Num(v))
    case None => Failure(UnparsablePrice)
  }

  /** `price`: the display price read in en_US. */
  function Price(p: LocalProvider, parse: PriceParser): (r: Result<Decimal, Trap>)
    ensures r == ParsedPrice(p.localProduct.displayPrice, parse)
  {
    ParsedPrice(p.localProduct.displayPrice, parse)
  }

  /** A decoded period as a `ProductDataPeriod`: same unit, same count. */
  function ConvertPeriod(sp: SK.Period): (q: ProductDataPeriod)
    ensures q.unit == sp.unit && q.numberOfUnits == sp.numberOfUnits
  {
    ProductDataPeriod(sp.unit, sp.numberOfUnits)
  }

  /** `subscriptionPeriod`: the recurring period, if the product has one. */
  function SubscriptionPeriod(p: LocalProvider): (r: Option<ProductDataPeriod>)
    ensures r.None? <==> p.localProduct.recurringSubscriptionPeriod.None?
    ensures r.Some? ==>
      && r.value.unit == p.localProduct.recurringSubscriptionPeriod.value.unit
      && r.value.numberOfUnits == p.localProduct.recurringSubscriptionPeriod.value.numberOfUnits
  {
    match p.localProduct.recurringSubscriptionPeriod
    case None => None
    case Some(sp) => Some(ConvertPeriod(sp))
  }

  /** The `switch` over the payment mode: a free offer is a free trial; the paid ones read the
      offer's display price (`!` on a missing or unparsable one) and a pay-as-you-go offer also
      its number of periods (`!` on a missing one), in that order. */
  function ConvertOffer(offer: SK.IntroductoryOffer, parse: PriceParser): (r: Result<ProductDataIntroductory, Trap>)
    ensures offer.paymentMode.Free? ==> r == Success(FreeTrial(ConvertPeriod(offer.subscriptionPeriod)))
    ensures !offer.paymentMode.Free? && offer.displayPrice.None? ==> r == Failure(MissingOfferPrice)
    ensures r.Success? && !offer.paymentMode.Free? ==>
      offer.displayPrice.Some? && parse(offer.displayPrice.value).Some?
      && ProductIntroductory.FirstPaymentPrice(r.value) == Some(Num(parse(offer.displayPrice.value).value))
    ensures r.Success? ==> ProductIntroductory.Period(r.value) == Some(ConvertPeriod(offer.subscriptionPeriod))
    ensures offer.paymentMode.PayAsYouGo? && r.Success? ==>
      r.value.PayAsYouGo? && offer.numberOfPeriods.Some? && r.value.numberOfPeriods == offer.numberOfPeriods.value
    ensures offer.paymentMode.PayUpFront? && r.Success? ==> r.value.PayUpFront?
  {
    var period := ConvertPeriod(offer.subscriptionPeriod);
    match offer.paymentMode
    case Free => Success(FreeTrial(period))
    case PayUpFront =>
      if offer.displayPrice.None? then Failure(MissingOfferPrice)
      else
        var price :- ParsedPrice(offer.displayPrice.value, parse);
        Success(ProductIntroductory.PayUpFront(price, period))
    case PayAsYouGo =>
      if offer.displayPrice.None? then Failure(MissingOfferPrice)
      else
        var price :- ParsedPrice(offer.displayPrice.value, parse);
        if offer.numberOfPeriods.None? then Failure(MissingNumberOfPeriods)
        else Success(ProductIntroductory.PayAsYouGo(price, period, offer.numberOfPeriods.value))
  }

  /** `introductory`: nothing when the product has no offer, else the converted offer. */
  function Introductory(p: LocalProvider, parse: PriceParser): (r: Result<Option<ProductDataIntroductory>, Trap>)
    ensures p.localProduct.introductoryOffer.None? ==> r == Success(None)
    ensures r.Success? && r.value.None? ==> p.localProduct.introductoryOffer.None?
    ensures p.localProduct.introductoryOffer.Some? ==>
      (r.Success? <==> ConvertOffer(p.localProduct.introductoryOffer.value, parse).Success?)
      && (r.Success? ==> r.value == Some(ConvertOffer(p.localProduct.introductoryOffer.value, parse).value))
  {
    match p.localProduct.introductoryOffer
    case None => Success(None)
    case Some(offer) =>
      var converted :- ConvertOffer(offer, parse);
      Success(Some(converted))
  }

  /** All four provider values at once, as the derived properties need them; the first trap
      met is the result. */
  function Data(p: LocalProvider, parse: PriceParser): (r: Result<ProviderData, Trap>)
    ensures r.Success? <==> Price(p, parse).Success? && Introductory(p, parse).Success?
    ensures r.Success? ==>
      && r.value.price == Price(p, parse).value
      && r.value.priceLocale == PriceLocale
      && r.value.introductory == Introductory(p, parse).value
      && r.value.subscriptionPeriod == SubscriptionPeriod(p)
  {
    var price :- Price(p, parse);
    var introductory :- Introductory(p, parse);
    Success(ProviderData(price, PriceLocale, introductory, SubscriptionPeriod(p)))
  }

  /** Read through a local product, `isLifetime` means the record has no recurring period and
      `isTrial` means its offer's payment mode is free. */
  lemma LocalFlags(p: LocalProvider, parse: PriceParser)
    requires Data(p, parse).Success?
    ensures IsLifetime(Data(p, parse).value) <==> p.localProduct.recurringSubscriptionPeriod.None?
    ensures IsTrial(Data(p, parse).value) <==>
      p.localProduct.introductoryOffer.Some? && p.localProduct.introductoryOffer.value.paymentMode.Free?
  {
    var offer := p.localProduct.introductoryOffer;
    if offer.Some? {
      var c := ConvertOffer(offer.value, parse);
      assert Introductory(p, parse).value == Some(c.value);
      if !offer.value.paymentMode.Free? {
        assert ProductIntroductory.FirstPaymentPrice(c.value).Some?;
      }
    }
  }

  /** A free trial's first payment is the product's full display price. */
  lemma LocalTrialFirstPayment(p: LocalProvider, parse: PriceParser)
    requires Data(p, parse).Success?
    requires p.localProduct.introductoryOffer.Some? && p.localProduct.introductoryOffer.value.paymentMode.Free?
    ensures ProductDataProvider.FirstPaymentPrice(Data(p, parse).value) == Num(parse(p.localProduct.displayPrice).value)
  {
    LocalFlags(p, parse);
    TrialPaysFullPrice(Data(p, parse).value);
  }

  /** A paid offer's first payment is the offer's own display price. */
  lemma LocalPaidOfferFirstPayment(p: LocalProvider, parse: PriceParser)
    requires Data(p, parse).Success?
    requires p.localProduct.introductoryOffer.Some? && !p.localProduct.introductoryOffer.value.paymentMode.Free?
    ensures var offer := p.localProduct.introductoryOffer.value;
      offer.displayPrice.Some?
      && ProductDataProvider.FirstPaymentPrice(Data(p, parse).value) == Num(parse(offer.displayPrice.value).value)
  {
    var offer := p.localProduct.introductoryOffer.value;
    var c := ConvertOffer(offer, parse);
    assert Introductory(p, parse).value == Some(c.value);
  }

  /** The traps: a paid offer without a display price, and a pay-as-you-go offer without a
      number of periods (once its price has been read), stop the introductory offer; a
      pay-up-front offer does not need a number of periods. */
  lemma OfferTraps(period: SK.Period, price: string, parse: PriceParser)
    requires parse(price).Some?
    ensures ConvertOffer(SK.IntroductoryOffer(SK.PayUpFront, period, None, None), parse) == Failure(MissingOfferPrice)
    ensures ConvertOffer(SK.IntroductoryOffer(SK.PayAsYouGo, period, Some(3), None), parse) == Failure(MissingOfferPrice)
    ensures ConvertOffer(SK.IntroductoryOffer(SK.PayAsYouGo, period, None, Some(price)), parse) == Failure(MissingNumberOfPeriods)
    ensures ConvertOffer(SK.IntroductoryOffer(SK.PayUpFront, period, None, Some(price)), parse).Success?
    ensures ConvertOffer(SK.IntroductoryOffer(SK.Free, period, None, None), parse).Success?
  {
  }
}
