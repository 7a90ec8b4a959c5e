/** ApphudBase/Sources/ApphudBase/Internal/StoreKitContent.swift: the products of a local
    `.storekit` configuration file, how they are decoded from its JSON, and the parser for the
    ISO 8601 period strings ("P1M") it uses, the one-component designator form of
    section 4.4.3.2 of ISO 8601:2004 restricted to years, months, weeks and days. */
module StoreKitContent {
  import opened Wrappers
  import opened Text
  import opened Seqs
  import opened JsonCoding
  import opened ProductPeriod

  // ---------------------------------------------------------------------------------------
  // The decoded records

  /** `Period`: a unit and a count as read from a period string. */
  datatype Period = Period(unit: CalendarUnit, numberOfUnits: int)

  datatype PaymentMode = Free | PayAsYouGo | PayUpFront

  datatype IntroductoryOffer = IntroductoryOffer(
    paymentMode: PaymentMode,
    subscriptionPeriod: Period,
    numberOfPeriods: Option<int>,
    displayPrice: Option<string>)

  datatype Product = Product(
    productID: string,
    displayPrice: string,
    recurringSubscriptionPeriod: Option<Period>,
    introductoryOffer: Option<IntroductoryOffer>)

  datatype SubscriptionGroup = SubscriptionGroup(subscriptions: seq<Product>)

  datatype StoreKitContent = StoreKitContent(
    nonRenewingSubscriptions: Option<seq<Product>>,
    nonConsumableProducts: Option<seq<Product>>,
    subscriptionGroups: Option<seq<SubscriptionGroup>>)

  // ---------------------------------------------------------------------------------------
  // products

  /** Each group's subscriptions, group by group. */
  function GroupSubscriptions(groups: seq<SubscriptionGroup>): seq<seq<Product>> {
    seq(|groups|, i requires 0 <= i < |groups| => groups[i].subscriptions)
  }

  /** `products`: the non-renewing subscriptions, then the non-consumables, then every
      group's subscriptions in order; a missing list counts as empty. */
  function Products(c: StoreKitContent): (r: seq<Product>)
    ensures var nr := c.nonRenewingSubscriptions.GetOr([]);
      var nc := c.nonConsumableProducts.GetOr([]);
      && |nr| + |nc| <= |r|
      && r[..|nr|] == nr
      && r[|nr|..|nr| + |nc|] == nc
      && r[|nr| + |nc|..] == Flatten(GroupSubscriptions(c.subscriptionGroups.GetOr([])))
  {
    var nr := c.nonRenewingSubscriptions.GetOr([]);
    var nc := c.nonConsumableProducts.GetOr([]);
    var gs := Flatten(GroupSubscriptions(c.subscriptionGroups.GetOr([])));
    assert (nr + nc + gs)[..|nr|] == nr;
    assert (nr + nc + gs)[|nr|..|nr| + |nc|] == nc;
    assert (nr + nc + gs)[|nr| + |nc|..] == gs;
    nr + nc + gs
  }

  /** A product is listed exactly when it is among the non-renewing subscriptions, the
      non-consumables or some group's subscriptions. */
  lemma ProductsMembership(c: StoreKitContent, p: Product)
    ensures p in Products(c) <==>
      || p in c.nonRenewingSubscriptions.GetOr([])
      || p in c.nonConsumableProducts.GetOr([])
      || exists i :: 0 <= i < |c.subscriptionGroups.GetOr([])|
           && p in c.subscriptionGroups.GetOr([])[i].subscriptions
  {
    var nr := c.nonRenewingSubscriptions.GetOr([]);
    var nc := c.nonConsumableProducts.GetOr([]);
    var groups := c.subscriptionGroups.GetOr([]);
    var gs := GroupSubscriptions(groups);
    FlattenMembership(gs, p);
    assert Products(c) == nr + nc + Flatten(gs);
    if exists i :: 0 <= i < |groups| && p in groups[i].subscriptions {
      var i :| 0 <= i < |groups| && p in groups[i].subscriptions;
      assert p in gs[i];
    }
    if exists i :: 0 <= i < |gs| && p in gs[i] {
      var i :| 0 <= i < |gs| && p in gs[i];
      assert p in groups[i].subscriptions;
    }
  }

  /** A file with no lists has no products; one with only non-consumables lists just them. */
  lemma ProductsOfPartialFiles(ps: seq<Product>)
    ensures Products(StoreKitContent(None, None, None)) == []
    ensures Products(StoreKitContent(None, Some(ps), None)) == ps
    ensures Products(StoreKitContent(None, None, Some([SubscriptionGroup(ps)]))) == ps
  {
    var one := GroupSubscriptions([SubscriptionGroup(ps)]);
    assert one == [ps];
    FlattenAppend([], ps);
    assert [] + [ps] == [ps];
  }

  // ---------------------------------------------------------------------------------------
  // The period parser

  /** The largest `Int` (64 bits). */
  const IntMax := 0x7FFF_FFFF_FFFF_FFFF

  /** The two `dataCorrupted` errors `Period.init(from:)` can raise: the string does not start
      with 'P', or the rest is not one digit run and a unit letter. */
  datatype PeriodError = MustStartWithP | InvalidPeriodFormat

  predicate IsUnitLetter(c: char) {
    c == 'Y' || c == 'M' || c == 'W' || c == 'D'
  }

  function UnitOfLetter(c: char): (u: CalendarUnit)
    requires IsUnitLetter(c)
    ensures !u.OtherUnit?
  {
    match c
    case 'Y' => Year
    case 'M' => Month
    case 'W' => WeekOfMonth
    case 'D' => Day
  }

  function LetterOfUnit(u: CalendarUnit): (c: char)
    requires !u.OtherUnit?
    ensures IsUnitLetter(c) && UnitOfLetter(c) == u
  {
    match u
    case Year => 'Y'
    case Month => 'M'
    case WeekOfMonth => 'W'
    case Day => 'D'
  }

  /** The characters ICU treats as ending a line. */
  predicate IsLineTerminator(c: char) {
    c == '\n' || c == '\U{000B}' || c == '\U{000C}' || c == '\r'
    || c == '\U{0085}' || c == '\U{2028}' || c == '\U{2029}'
  }

  /** The part of the string the pattern's `$` lets the match cover: ICU's `$` matches at the
      end of the input and also just before one line terminator (or a CR LF pair) that ends
      it. */
  function MatchedPart(d: string): (b: string)
    ensures |b| <= |d| <= |b| + 2 && b == d[..|b|]
  {
    if |d| >= 2 && d[|d| - 2..] == "\r\n" then d[..|d| - 2]
    else if |d| >= 1 && IsLineTerminator(d[|d| - 1]) then d[..|d| - 1]
    else d
  }

  /** `^(\d+)([YMWD])$` on what follows the 'P': a non-empty run of digits, then one unit
      letter. A digit other than 0-9 fails the same way, when `Int` reads the run. */
  predicate MatchesDuration(b: string) {
    |b| >= 2 && AllDigits(b[..|b| - 1]) && IsUnitLetter(b[|b| - 1])
  }

  /** `Period.init(from:)` on the decoded string. */
  function ParsePeriod(s: string): (r: Result<Period, PeriodError>)
    ensures (s == [] || s[0] != 'P') <==> r == Failure(MustStartWithP)
    ensures r.Success? ==> 0 <= r.value.numberOfUnits <= IntMax && !r.value.unit.OtherUnit?
  {
    if s == [] || s[0] != 'P' then Failure(MustStartWithP)
    else
      var b := MatchedPart(s[1..]);
      if !MatchesDuration(b) then Failure(InvalidPeriodFormat)
      else
        var n := DigitsValue(b[..|b| - 1]);
        if n > IntMax then Failure(InvalidPeriodFormat)
        else Success(Period(UnitOfLetter(b[|b| - 1]), n))
  }

  /** "P", a digit run and a unit letter parse to that unit and the run's value, when the
      value fits in `Int`. */
  lemma ParseDigitsAndLetter(digits: string, c: char)
    requires |digits| >= 1 && AllDigits(digits) && IsUnitLetter(c) && DigitsValue(digits) <= IntMax
    ensures ParsePeriod("P" + digits + [c]) == Success(Period(UnitOfLetter(c), DigitsValue(digits)))
  {
    var s := "P" + digits + [c];
    var d := s[1..];
    assert d == digits + [c];
    MatchedPartEndingInLetter(d);
    assert d[..|d| - 1] == digits;
    assert MatchesDuration(d);
    assert s != [] && s[0] == 'P';
  }

  /** A string that ends in a unit letter is matched whole. */
  lemma MatchedPartEndingInLetter(d: string)
    requires |d| >= 1 && IsUnitLetter(d[|d| - 1])
    ensures MatchedPart(d) == d
  {
    assert !IsLineTerminator(d[|d| - 1]);
    if |d| >= 2 {
      assert d[|d| - 2..][1] == d[|d| - 1];
    }
  }

  /** Writing "P", a count's digits and a unit letter, and parsing it, gives back the unit and
      the count. */
  lemma ParsePeriodRoundTrip(u: CalendarUnit, n: nat)
    requires !u.OtherUnit? && n <= IntMax
    ensures ParsePeriod("P" + NatToString(n) + [LetterOfUnit(u)]) == Success(Period(u, n))
  {
    NatToStringRoundTrip(n);
    ParseDigitsAndLetter(NatToString(n), LetterOfUnit(u));
  }

  /** What a successful parse read: the string is "P", a digit run whose value is the count,
      the unit's letter, and at most one final line terminator. */
  lemma ParsePeriodSuccessShape(s: string)
    requires ParsePeriod(s).Success?
    ensures var b := MatchedPart(s[1..]);
      && s[0] == 'P' && MatchesDuration(b)
      && ParsePeriod(s).value == Period(UnitOfLetter(b[|b| - 1]), DigitsValue(b[..|b| - 1]))
  {
  }

  function Pow10(k: nat): (p: nat)
    ensures p >= 1
  {
    if k == 0 then 1 else 10 * Pow10(k - 1)
  }

  /** A digit run with no leading zero is worth at least ten to the power of its length less
      one. */
  lemma {:induction false} DigitsValueLowerBound(s: string)
    requires AllDigits(s) && |s| >= 1 && s[0] != '0'
    ensures DigitsValue(s) >= Pow10(|s| - 1)
    decreases |s|
  {
    if |s| > 1 {
      var init := s[..|s| - 1];
      assert init[0] == s[0];
      DigitsValueLowerBound(init);
    }
  }

  /** A count of twenty digits or more, without leading zero, does not fit in `Int`, and the
      string is rejected even though it has the right shape. */
  lemma ParsePeriodRejectsOverflow(digits: string, c: char)
    requires AllDigits(digits) && |digits| >= 20 && digits[0] != '0' && IsUnitLetter(c)
    ensures ParsePeriod("P" + digits + [c]) == Failure(InvalidPeriodFormat)
  {
    var s := "P" + digits + [c];
    var d := s[1..];
    assert d == digits + [c];
    assert d[|d| - 2..] != "\r\n" by {
      assert d[|d| - 1] == c;
    }
    assert MatchedPart(d) == d;
    assert d[..|d| - 1] == digits;
    DigitsValueLowerBound(digits);
    Pow10Grows(|digits| - 1);
  }

  lemma {:induction false} Pow10Grows(k: nat)
    requires k >= 19
    ensures Pow10(k) > IntMax
  {
    if k > 19 {
      Pow10Grows(k - 1);
    } else {
      assert Pow10(1) == 10;
      assert Pow10(2) == 100;
      assert Pow10(3) == 1000;
      assert Pow10(4) == 10000;
      assert Pow10(5) == 100000;
      assert Pow10(6) == 1000000;
      assert Pow10(7) == 10000000;
      assert Pow10(8) == 100000000;
      assert Pow10(9) == 1000000000;
      assert Pow10(10) == 10000000000;
      assert Pow10(11) == 100000000000;
      assert Pow10(12) == 1000000000000;
      assert Pow10(13) == 10000000000000;
      assert Pow10(14) == 100000000000000;
      assert Pow10(15) == 1000000000000000;
      assert Pow10(16) == 10000000000000000;
      assert Pow10(17) == 100000000000000000;
      assert Pow10(18) == 1000000000000000000;
      assert Pow10(19) == 10000000000000000000;
    }
  }

  /** Strings the parser rejects: no leading 'P', no count, two components, a time part and
      an hour unit. */
  lemma ParsePeriodRejects()
    ensures ParsePeriod("1M") == Failure(MustStartWithP)
    ensures ParsePeriod("") == Failure(MustStartWithP)
    ensures ParsePeriod("P") == Failure(InvalidPeriodFormat)
    ensures ParsePeriod("PM") == Failure(InvalidPeriodFormat)
    ensures ParsePeriod("P1Y2M") == Failure(InvalidPeriodFormat)
    ensures ParsePeriod("PT1H") == Failure(InvalidPeriodFormat)
    ensures ParsePeriod("P1H") == Failure(InvalidPeriodFormat)
  {
    RejectedBody("P", "");
    RejectedBody("PM", "M");
    assert !MatchesDuration("1Y2M") by {
      assert "1Y2M"[..3][1] == 'Y';
    }
    RejectedBody("P1Y2M", "1Y2M");
    RejectedBody("PT1H", "T1H");
    RejectedBody("P1H", "1H");
  }

  lemma RejectedBody(s: string, b: string)
    requires |s| >= 1 && s[0] == 'P' && MatchedPart(s[1..]) == b && !MatchesDuration(b)
    ensures ParsePeriod(s) == Failure(InvalidPeriodFormat)
  {
  }

  /** Strings the parser accepts, leading zeros included. */
  lemma ParsePeriodAccepts()
    ensures ParsePeriod("P1M") == Success(Period(Month, 1))
    ensures ParsePeriod("P007W") == Success(Period(WeekOfMonth, 7))
  {
    ParsePeriodAcceptsOneMonth();
    ParsePeriodAcceptsLeadingZeros();
  }

  lemma ParsePeriodAcceptsOneMonth()
    ensures ParsePeriod("P1M") == Success(Period(Month, 1))
  {
    assert "P1M" == "P" + "1" + ['M'];
    ParseDigitsAndLetter("1", 'M');
  }

  lemma ParsePeriodAcceptsLeadingZeros()
    ensures ParsePeriod("P007W") == Success(Period(WeekOfMonth, 7))
  {
    assert "P007W" == "P" + "007" + ['W'];
    assert DigitsValue("007") == 7 by {
      assert "007"[..2] == "00";
      assert "00"[..1] == "0";
    }
    ParseDigitsAndLetter("007", 'W');
  }

  /** One final line break (LF, or CR LF) is allowed by the pattern's `$`; two are not. */
  lemma ParsePeriodLineBreaks()
    ensures ParsePeriod("P1M\n") == Success(Period(Month, 1))
    ensures ParsePeriod("P1M\r\n") == Success(Period(Month, 1))
    ensures ParsePeriod("P1M\n\n") == Failure(InvalidPeriodFormat)
  {
    ParsePeriodAccepts();
    var d1 := "P1M\n"[1..];
    assert d1 == "1M\n";
    assert d1[|d1| - 2..] == "M\n";
    assert d1[..|d1| - 1] == "1M";
    assert MatchedPart(d1) == "1M";
    var d2 := "P1M\r\n"[1..];
    assert d2 == "1M\r\n";
    assert d2[|d2| - 2..] == "\r\n";
    assert d2[..|d2| - 2] == "1M";
    assert MatchedPart(d2) == "1M";
    var d3 := "P1M\n\n"[1..];
    assert d3 == "1M\n\n";
    assert d3[|d3| - 2..] == "\n\n";
    assert d3[..|d3| - 1] == "1M\n";
    RejectedBody("P1M\n\n", "1M\n");
  }

  // ---------------------------------------------------------------------------------------
  // Decoding the file's JSON (synthesised `Decodable` conformances over string keys)

  /** A period value: a string that parses; a parse error is `dataCorrupted` at the key. */
  function DecodePeriodValue(j: Json, key: string): (r: Decoded<Period, string>)
    ensures r.Success? <==> j.JString? && ParsePeriod(j.s).Success?
    ensures r.Success? ==> r.value == ParsePeriod(j.s).value
  {
    match j
    case JNull => Failure(ValueNotFound(key))
    case JString(s) =>
      (match ParsePeriod(s)
       case Success(p) => Success(p)
       case Failure(_) => Failure(DataCorrupted(key)))
    case _ => Failure(TypeMismatch(key))
  }

  function DecodePeriod(o: Container<string>, key: string): (r: Decoded<Period, string>)
    ensures key !in o ==> r == Failure(KeyNotFound(key))
    ensures key in o ==> r == DecodePeriodValue(o[key], key)
  {
    if key !in o then Failure(KeyNotFound(key)) else DecodePeriodValue(o[key], key)
  }

  function DecodePeriodIfPresent(o: Container<string>, key: string): (r: Decoded<Option<Period>, string>)
    ensures (key !in o || o[key] == JNull) ==> r == Success(None)
    ensures key in o && o[key] != JNull ==>
      (r.Success? <==> DecodePeriodValue(o[key], key).Success?)
      && (r.Success? ==> r.value == Some(DecodePeriodValue(o[key], key).value))
  {
    if key !in o || o[key] == JNull then Success(None)
    else
      var p :- DecodePeriodValue(o[key], key);
      Success(Some(p))
  }

  /** `PaymentMode` by its raw value, the case name. */
  function PaymentModeFromRawValue(s: string): (r: Option<PaymentMode>)
    ensures r == Some(Free) <==> s == "free"
    ensures r == Some(PayAsYouGo) <==> s == "payAsYouGo"
    ensures r == Some(PayUpFront) <==> s == "payUpFront"
  {
    if s == "free" then Some(Free)
    else if s == "payAsYouGo" then Some(PayAsYouGo)
    else if s == "payUpFront" then Some(PayUpFront)
    else None
  }

  function DecodePaymentMode(o: Container<string>, key: string): (r: Decoded<PaymentMode, string>)
    ensures r.Success? <==>
      key in o && o[key].JString? && PaymentModeFromRawValue(o[key].s).Some?
  {
    var raw :- DecodeString(o, key);
    match PaymentModeFromRawValue(raw)
    case Some(m) => Success(m)
    case None => Failure(DataCorrupted(key))
  }

  /** An optional `Int`: nil when absent or null, else a whole number. */
  function DecodeIntegerIfPresent(o: Container<string>, key: string): (r: Decoded<Option<int>, string>)
    ensures (key !in o || o[key] == JNull) ==> r == Success(None)
    ensures r.Success? && r.value.Some? ==> key in o && o[key] == JNumber(r.value.value as real)
    ensures key in o && o[key].JNumber? && IsIntegral(o[key].n) ==> r.Success?
  {
    if key !in o || o[key] == JNull then Success(None)
    else
      var i :- DecodeInteger(o, key);
      Success(Some(i))
  }

  /** `IntroductoryOffer`: payment mode and period required, count and price optional. */
  function DecodeOffer(o: Container<string>): (r: Decoded<IntroductoryOffer, string>)
    ensures r.Success? ==> "paymentMode" in o && "subscriptionPeriod" in o
  {
    var mode :- DecodePaymentMode(o, "paymentMode");
    var period :- DecodePeriod(o, "subscriptionPeriod");
    var count :- DecodeIntegerIfPresent(o, "numberOfPeriods");
    var price :- DecodeStringIfPresent(o, "displayPrice");
    Success(IntroductoryOffer(mode, period, count, price))
  }

  function DecodeOfferIfPresent(o: Container<string>, key: string): (r: Decoded<Option<IntroductoryOffer>, string>)
    ensures (key !in o || o[key] == JNull) ==> r == Success(None)
    ensures r.Success? && r.value.Some? ==> key in o && o[key].JObject?
  {
    if key !in o || o[key] == JNull then Success(None)
    else match o[key]
      case JObject(fields) =>
        var offer :- DecodeOffer(fields);
        Success(Some(offer))
      case _ => Failure(TypeMismatch(key))
  }

  /** `Product`: id and price strings required, period and offer optional. */
  function DecodeProduct(o: Container<string>): (r: Decoded<Product, string>)
    ensures r.Success? ==> "productID" in o && o["productID"] == JString(r.value.productID)
    ensures r.Success? ==> "displayPrice" in o && o["displayPrice"] == JString(r.value.displayPrice)
  {
    var id :- DecodeString(o, "productID");
    var price :- DecodeString(o, "displayPrice");
    var period :- DecodePeriodIfPresent(o, "recurringSubscriptionPeriod");
    var offer :- DecodeOfferIfPresent(o, "introductoryOffer");
    Success(Product(id, price, period, offer))
  }

  /** An array of products, element by element; the first element that fails is the error,
      reported at the array's key. */
  function DecodeProductList(items: seq<Json>, key: string): (r: Decoded<seq<Product>, string>)
    ensures r.Success? ==> |r.value| == |items|
    ensures r.Success? ==> forall i :: 0 <= i < |items| ==>
      items[i].JObject? && DecodeProduct(items[i].fields) == Success(r.value[i])
    decreases |items|
  {
    if items == [] then Success([])
    else
      var first :- DecodeProductItem(items[0], key);
      var rest :- DecodeProductList(items[1..], key);
      Success([first] + rest)
  }

  function DecodeProductItem(j: Json, key: string): (r: Decoded<Product, string>)
    ensures r.Success? <==> j.JObject? && DecodeProduct(j.fields).Success?
    ensures r.Success? ==> r == DecodeProduct(j.fields)
  {
    match j
    case JObject(fields) =>
      (match DecodeProduct(fields)
       case Success(p) => Success(p)
       case Failure(_) => Failure(DataCorrupted(key)))
    case _ => Failure(TypeMismatch(key))
  }

  /** A required array of products. */
  function DecodeProducts(o: Container<string>, key: string): (r: Decoded<seq<Product>, string>)
    ensures r.Success? ==> key in o && o[key].JArray? && |r.value| == |o[key].items|
  {
    if key !in o then Failure(KeyNotFound(key))
    else match o[key]
      case JArray(items) => DecodeProductList(items, key)
      case JNull => Failure(ValueNotFound(key))
      case _ => Failure(TypeMismatch(key))
  }

  /** An optional array of products: nil when absent or null. */
  function DecodeProductsIfPresent(o: Container<string>, key: string): (r: Decoded<Option<seq<Product>>, string>)
    ensures (key !in o || o[key] == JNull) ==> r == Success(None)
    ensures key in o && o[key] != JNull ==>
      (r.Success? <==> DecodeProducts(o, key).Success?)
      && (r.Success? ==> r.value == Some(DecodeProducts(o, key).value))
  {
    if key !in o || o[key] == JNull then Success(None)
    else
      var ps :- DecodeProducts(o, key);
      Success(Some(ps))
  }

  /** `SubscriptionGroup`: its subscriptions are required. */
  function DecodeGroupItem(j: Json, key: string): (r: Decoded<SubscriptionGroup, string>)
    ensures r.Success? ==> j.JObject? && DecodeProducts(j.fields, "subscriptions") == Success(r.value.subscriptions)
  {
    match j
    case JObject(fields) =>
      (match DecodeProducts(fields, "subscriptions")
       case Success(ps) => Success(SubscriptionGroup(ps))
       case Failure(_) => Failure(DataCorrupted(key)))
    case _ => Failure(TypeMismatch(key))
  }

  function DecodeGroupList(items: seq<Json>, key: string): (r: Decoded<seq<SubscriptionGroup>, string>)
    ensures r.Success? ==> |r.value| == |items|
    decreases |items|
  {
    if items == [] then Success([])
    else
      var first :- DecodeGroupItem(items[0], key);
      var rest :- DecodeGroupList(items[1..], key);
      Success([first] + rest)
  }

  function DecodeGroupsIfPresent(o: Container<string>, key: string): (r: Decoded<Option<seq<SubscriptionGroup>>, string>)
    ensures (key !in o || o[key] == JNull) ==> r == Success(None)
    ensures r.Success? && r.value.Some? ==> key in o && o[key].JArray?
  {
    if key !in o || o[key] == JNull then Success(None)
    else match o[key]
      case JArray(items) =>
        var gs :- DecodeGroupList(items, key);
        Success(Some(gs))
      case _ => Failure(TypeMismatch(key))
  }

  /** `StoreKitContent`: the three optional lists, the non-consumables under the key
      "products". */
  function DecodeContent(o: Container<string>): (r: Decoded<StoreKitContent, string>)
    ensures r.Success? ==> DecodeProductsIfPresent(o, "products") == Success(r.value.nonConsumableProducts)
    ensures r.Success? ==>
      DecodeProductsIfPresent(o, "nonRenewingSubscriptions") == Success(r.value.nonRenewingSubscriptions)
  {
    var nonRenewing :- DecodeProductsIfPresent(o, "nonRenewingSubscriptions");
    var nonConsumable :- DecodeProductsIfPresent(o, "products");
    var groups :- DecodeGroupsIfPresent(o, "subscriptionGroups");
    Success(StoreKitContent(nonRenewing, nonConsumable, groups))
  }

  /** The non-consumables are read from "products" only: an entry under the property's own
      name "nonConsumableProducts" changes nothing, and an empty file decodes to no lists. */
  lemma ContentReadsProductsKey(o: Container<string>, v: Json)
    ensures DecodeContent(o["nonConsumableProducts" := v]) == DecodeContent(o)
    ensures DecodeContent(map[]) == Success(StoreKitContent(None, None, None))
  {
    var o' := o["nonConsumableProducts" := v];
    assert DecodeProductsIfPresent(o', "nonRenewingSubscriptions")
        == DecodeProductsIfPresent(o, "nonRenewingSubscriptions") by {
      assert "nonRenewingSubscriptions" in o' <==> "nonRenewingSubscriptions" in o;
      if "nonRenewingSubscriptions" in o {
        assert o'["nonRenewingSubscriptions"] == o["nonRenewingSubscriptions"];
      }
    }
    assert DecodeProductsIfPresent(o', "products") == DecodeProductsIfPresent(o, "products") by {
      assert "products" in o' <==> "products" in o;
      if "products" in o {
        assert o'["products"] == o["products"];
      }
    }
    assert DecodeGroupsIfPresent(o', "subscriptionGroups") == DecodeGroupsIfPresent(o, "subscriptionGroups") by {
      assert "subscriptionGroups" in o' <==> "subscriptionGroups" in o;
      if "subscriptionGroups" in o {
        assert o'["subscriptionGroups"] == o["subscriptionGroups"];
      }
    }
  }

  /** A file holding only a "products" array lists exactly those products, in order. */
  lemma ProductsKeyFeedsProducts(items: seq<Json>)
    requires DecodeContent(map["products" := JArray(items)]).Success?
    ensures var c := DecodeContent(map["products" := JArray(items)]).value;
      |Products(c)| == |items|
      && forall i :: 0 <= i < |items| ==> DecodeProduct(items[i].fields) == Success(Products(c)[i])
  {
    var o := map["products" := JArray(items)];
    var c := DecodeContent(o).value;
    assert "nonRenewingSubscriptions" !in o && "subscriptionGroups" !in o;
    assert c.nonRenewingSubscriptions == None;
    assert c.subscriptionGroups == None;
    assert c.nonConsumableProducts == Some(DecodeProductList(items, "products").value);
    ProductsOfPartialFiles(c.nonConsumableProducts.value);
  }
}
