/**
 * The seat-pricing capability (`SeatPricingMixin`): two price pairs read
 * from the `sale_*` keys, and their sums. Prices are reals; the model does
 * not reproduce binary floating-point rounding.
 */
module SeatPricing {
  import opened Options
  import opened Json
  import opened Coerce

  datatype Prices = Prices(
    seatprice: Option<real>,
    surcharge: Option<real>,
    nonOfferSeatprice: Option<real>,
    nonOfferSurcharge: Option<real>)

  /** `kwargs_from_api_data`: four renamed keys, each coerced to float. */
  function KwargsFromApiData(data: Payload): (p: Prices)
    ensures p.seatprice == ToFloat(Get(data, "sale_seatprice"))
    ensures p.surcharge == ToFloat(Get(data, "sale_surcharge"))
    ensures p.nonOfferSeatprice == ToFloat(Get(data, "non_offer_sale_seatprice"))
    ensures p.nonOfferSurcharge == ToFloat(Get(data, "non_offer_sale_surcharge"))
  {
    Prices(
      ToFloat(Get(data, "sale_seatprice")),
      ToFloat(Get(data, "sale_surcharge")),
      ToFloat(Get(data, "non_offer_sale_seatprice")),
      ToFloat(Get(data, "non_offer_sale_surcharge")))
  }

  /** The payload keys for a price set: the inverse partner of `KwargsFromApiData`. */
  function ToApiData(p: Prices): (data: Payload)
    ensures |data| == 4 && UniqueKeys(data)
  {
    [ ("sale_seatprice", FloatJson(p.seatprice)),
      ("sale_surcharge", FloatJson(p.surcharge)),
      ("non_offer_sale_seatprice", FloatJson(p.nonOfferSeatprice)),
      ("non_offer_sale_surcharge", FloatJson(p.nonOfferSurcharge)) ]
  }

  lemma RoundTrip(p: Prices)
    ensures KwargsFromApiData(ToApiData(p)) == p
  {
    var data := ToApiData(p);
    GetUnique(data, 0);
    GetUnique(data, 1);
    GetUnique(data, 2);
    GetUnique(data, 3);
  }

  /** Adds a price pair; the source asserts that both members are present. */
  function AddPair(price: Option<real>, surcharge: Option<real>): (total: real)
    requires price.Some? && surcharge.Some?
    ensures total == price.value + surcharge.value
  {
    price.value + surcharge.value
  }

  /** `combined_price()`: seat price plus surcharge; both must be present. */
  function CombinedPrice(p: Prices): (total: real)
    requires p.seatprice.Some? && p.surcharge.Some?
    ensures total == p.seatprice.value + p.surcharge.value
  {
    AddPair(p.seatprice, p.surcharge)
  }

  /** `non_offer_combined_price()`: the same sum over the non-offer pair. */
  function NonOfferCombinedPrice(p: Prices): (total: real)
    requires p.nonOfferSeatprice.Some? && p.nonOfferSurcharge.Some?
    ensures total == p.nonOfferSeatprice.value + p.nonOfferSurcharge.value
  {
    AddPair(p.nonOfferSeatprice, p.nonOfferSurcharge)
  }

  /** The sum of the raw payload's two numbers, whichever of integer or float each was sent as. */
  lemma CombinedPriceFromPayload(data: Payload, seat: Json, surcharge: Json)
    requires Get(data, "sale_seatprice") == seat && (seat.JInt? || seat.JFloat?)
    requires Get(data, "sale_surcharge") == surcharge && (surcharge.JInt? || surcharge.JFloat?)
    ensures var p := KwargsFromApiData(data);
            p.seatprice.Some? && p.surcharge.Some? &&
            CombinedPrice(p) == (if seat.JInt? then seat.i as real else seat.r)
                                + (if surcharge.JInt? then surcharge.i as real else surcharge.r)
  {
  }

  /** The example from the tests: 160 and 5.5, 200 and 5.5. */
  lemma Example()
    ensures var p := KwargsFromApiData([
              ("sale_seatprice", JInt(160)), ("sale_surcharge", JFloat(5.5)),
              ("non_offer_sale_seatprice", JInt(200)), ("non_offer_sale_surcharge", JFloat(5.5))]);
            p == Prices(Some(160.0), Some(5.5), Some(200.0), Some(5.5))
            && CombinedPrice(p) == 165.5 && NonOfferCombinedPrice(p) == 205.5
  {
    RoundTrip(Prices(Some(160.0), Some(5.5), Some(200.0), Some(5.5)));
    assert FloatJson(Some(160.0)) == JFloat(160.0);
  }
}
