/**
 * The result of reserving tickets: the trolley that now holds them, what
 * the customer must still supply, the address to prefill, the countries
 * the customer may live in, and the orders that could not be reserved.
 */
module Reservations {
  import opened Options
  import opened Json
  import opened Coerce
  import opened Entities
  import opened Orders
  import opened Trolleys

  datatype Reservation = Reservation(
    trolley: Option<Trolley>,
    prefilledAddress: Option<Address>,
    allowedCountries: seq<Country>,
    unreservedOrders: seq<Order>,
    needsPaymentCard: Option<bool>,
    needsEmailAddress: Option<bool>,
    needsAgentReference: Option<bool>,
    canEditAddress: Option<bool>,
    minutesLeft: Option<real>)

  /**
   * The `allowed_countries` mapping of country code to country name: one
   * country per entry, in the mapping's order, the key as its code and the
   * value as its description.
   */
  function CountriesFromMapping(m: Payload): (cs: seq<Country>)
    ensures |cs| == |m|
    ensures forall i :: 0 <= i < |m| ==> cs[i].code == Some(m[i].0) && cs[i].description == AsStr(m[i].1)
  {
    seq(|m|, i requires 0 <= i < |m| => Country(Some(m[i].0), AsStr(m[i].1)))
  }

  /** Countries that can be sent as a code-to-name mapping: each has a code. */
  predicate AllCoded(cs: seq<Country>) {
    forall i :: 0 <= i < |cs| ==> cs[i].code.Some?
  }

  /** The code-to-name mapping for a list of coded countries: the inverse of `CountriesFromMapping`. */
  function CountriesToMapping(cs: seq<Country>): (m: Payload)
    requires AllCoded(cs)
    ensures |m| == |cs|
    ensures forall i :: 0 <= i < |cs| ==> m[i].0 == cs[i].code.value
  {
    seq(|cs|, i requires 0 <= i < |cs| && AllCoded(cs) => (cs[i].code.value, StrJson(cs[i].description)))
  }

  lemma CountriesMappingRoundTrip(cs: seq<Country>)
    requires AllCoded(cs)
    ensures CountriesFromMapping(CountriesToMapping(cs)) == cs
  {
    var m := CountriesToMapping(cs);
    forall i | 0 <= i < |cs| ensures CountriesFromMapping(m)[i] == cs[i] {
      assert m[i].1 == StrJson(cs[i].description);
    }
  }

  /** The other direction: a mapping whose names are all strings survives the trip through countries. */
  lemma MappingCountriesRoundTrip(m: Payload)
    requires forall i :: 0 <= i < |m| ==> m[i].1.JStr?
    ensures AllCoded(CountriesFromMapping(m))
    ensures CountriesToMapping(CountriesFromMapping(m)) == m
  {
    var cs := CountriesFromMapping(m);
    forall i | 0 <= i < |m| ensures CountriesToMapping(cs)[i] == m[i] {
      assert cs[i] == Country(Some(m[i].0), Some(m[i].1.s));
    }
  }

  /**
   * `Reservation.from_api_data`. The flags pass through, the remaining
   * minutes are renamed, the address and trolley are built from their
   * sub-payloads when those are non-empty, the countries come from the
   * code-to-name mapping and the unreserved orders from their array.
   */
  function ReservationFromApiData(data: Payload): (r: Reservation)
    ensures r.needsPaymentCard == AsBool(Get(data, "needs_payment_card"))
    ensures r.needsEmailAddress == AsBool(Get(data, "needs_email_address"))
    ensures r.needsAgentReference == AsBool(Get(data, "needs_agent_reference"))
    ensures r.canEditAddress == AsBool(Get(data, "can_edit_address"))
    ensures r.minutesLeft == ToFloat(Get(data, "minutes_left_on_reserve"))
    ensures r.prefilledAddress.Some? <==> NonEmptyMapping(data, "prefilled_address").Some?
    ensures r.prefilledAddress.Some? ==>
              r.prefilledAddress.value == AddressFromApiData(NonEmptyMapping(data, "prefilled_address").value)
    ensures r.trolley.Some? <==> NonEmptyMapping(data, "reserved_trolley").Some?
    ensures r.trolley.Some? ==>
              r.trolley.value == TrolleyFromApiData(NonEmptyMapping(data, "reserved_trolley").value)
    ensures r.allowedCountries == CountriesFromMapping(AsMapping(Get(data, "allowed_countries")))
    ensures |r.unreservedOrders| == |AsArray(Get(data, "unreserve_orders"))|
    ensures r.unreservedOrders == OrdersFromArray(AsArray(Get(data, "unreserve_orders")))
  {
    var address := NonEmptyMapping(data, "prefilled_address");
    var trolley := NonEmptyMapping(data, "reserved_trolley");
    Reservation(
      if trolley.Some? then Some(TrolleyFromApiData(trolley.value)) else None,
      if address.Some? then Some(AddressFromApiData(address.value)) else None,
      CountriesFromMapping(AsMapping(Get(data, "allowed_countries"))),
      OrdersFromArray(AsArray(Get(data, "unreserve_orders"))),
      AsBool(Get(data, "needs_payment_card")),
      AsBool(Get(data, "needs_email_address")),
      AsBool(Get(data, "needs_agent_reference")),
      AsBool(Get(data, "can_edit_address")),
      ToFloat(Get(data, "minutes_left_on_reserve")))
  }

  /** The payload the API would send for a reservation whose countries all have codes. */
  function ReservationToApiData(r: Reservation): (data: Payload)
    requires AllCoded(r.allowedCountries)
    ensures |data| == 9 && UniqueKeys(data)
  {
    [ ("allowed_countries", JObj(CountriesToMapping(r.allowedCountries))),
      ("can_edit_address", BoolJson(r.canEditAddress)),
      ("minutes_left_on_reserve", FloatJson(r.minutesLeft)),
      ("needs_agent_reference", BoolJson(r.needsAgentReference)),
      ("needs_email_address", BoolJson(r.needsEmailAddress)),
      ("needs_payment_card", BoolJson(r.needsPaymentCard)),
      ("prefilled_address", OptionalJson(r.prefilledAddress, AddressToApiData)),
      ("reserved_trolley", OptionalJson(r.trolley, TrolleyToApiData)),
      ("unreserve_orders", JArr(OrdersToArray(r.unreservedOrders))) ]
  }

  lemma ReservationRoundTrip(r: Reservation)
    requires AllCoded(r.allowedCountries)
    ensures ReservationFromApiData(ReservationToApiData(r)) == r
  {
    var data := ReservationToApiData(r);
    var r' := ReservationFromApiData(data);
    GetUnique(data, 0);
    CountriesMappingRoundTrip(r.allowedCountries);
    assert r'.allowedCountries == r.allowedCountries;
    GetUnique(data, 1);
    GetUnique(data, 2);
    GetUnique(data, 3);
    GetUnique(data, 4);
    GetUnique(data, 5);
    assert r'.canEditAddress == r.canEditAddress && r'.minutesLeft == r.minutesLeft;
    assert r'.needsAgentReference == r.needsAgentReference && r'.needsEmailAddress == r.needsEmailAddress;
    assert r'.needsPaymentCard == r.needsPaymentCard;
    GetUnique(data, 6);
    if r.prefilledAddress.Some? {
      AddressRoundTrip(r.prefilledAddress.value);
    }
    assert r'.prefilledAddress == r.prefilledAddress;
    GetUnique(data, 7);
    if r.trolley.Some? {
      TrolleyRoundTrip(r.trolley.value);
    }
    assert r'.trolley == r.trolley;
    GetUnique(data, 8);
    OrdersRoundTrip(r.unreservedOrders);
    assert r'.unreservedOrders == r.unreservedOrders;
  }

  function SampleAddress(): Payload {
    [ ("address_line_one", JStr("Metro Building")),
      ("address_line_two", JStr("1 Butterwick")),
      ("country_code", JStr("uk")),
      ("county", JStr("United Kingdom")),
      ("email_address", JStr("lol@beans.com")),
      ("home_phone", JStr("020810101010101")),
      ("postcode", JStr("W6 8DL")),
      ("town", JStr("Hammersmith, London")),
      ("work_phone", JStr("020801010101010")) ]
  }

  function SampleTrolley(): Payload {
    [ ("bundle", JArr([JObj([("bundle_source_code", JStr("ext_test0")),
                             ("order", JArr([JObj([("item_number", JInt(1))])]))])])),
      ("random_index", JStr("5d3928de-c923-11e6-b2f6-0025903268a0")),
      ("trolley_bundle_count", JInt(1)),
      ("trolley_order_count", JInt(1)) ]
  }

  /** The reservation payload of the repository's test. */
  function SampleReservation(): Payload {
    [ ("allowed_countries", JObj([("ad", JStr("Andorra")), ("ae", JStr("United Arab Emirates"))])),
      ("can_edit_address", JBool(true)),
      ("minutes_left_on_reserve", JInt(15)),
      ("needs_agent_reference", JBool(true)),
      ("needs_email_address", JBool(true)),
      ("needs_payment_card", JBool(true)),
      ("prefilled_address", JObj(SampleAddress())),
      ("reserved_trolley", JObj(SampleTrolley())),
      ("unreserve_orders", JArr([JObj([("item_number", JInt(2))])])) ]
  }

  lemma SampleReservationFlags()
    ensures var r := ReservationFromApiData(SampleReservation());
      && r.needsPaymentCard == Some(true)
      && r.needsEmailAddress == Some(true)
      && r.needsAgentReference == Some(true)
      && r.canEditAddress == Some(true)
      && r.minutesLeft == Some(15.0)
  {
    var data := SampleReservation();
    SampleReservationKeys();
    GetUnique(data, 1);
    GetUnique(data, 2);
    GetUnique(data, 3);
    GetUnique(data, 4);
    GetUnique(data, 5);
  }

  lemma SampleReservationKeys()
    ensures UniqueKeys(SampleReservation())
  {
  }

  /** Two countries, in the mapping's order `ad`, `ae`. */
  lemma SampleReservationCountries()
    ensures var r := ReservationFromApiData(SampleReservation());
      && |r.allowedCountries| == 2
      && r.allowedCountries[0].code == Some("ad")
      && r.allowedCountries[1].code == Some("ae")
  {
    SampleReservationKeys();
    GetUnique(SampleReservation(), 0);
  }

  /** The non-empty address and trolley sub-payloads become nested entities. */
  lemma SampleReservationNested()
    ensures var r := ReservationFromApiData(SampleReservation());
      && r.prefilledAddress.Some?
      && r.trolley.Some?
  {
    SampleReservationKeys();
    GetUnique(SampleReservation(), 6);
    GetUnique(SampleReservation(), 7);
  }

  /** One unreserved order, built from its payload. */
  lemma SampleReservationUnreserved()
    ensures var r := ReservationFromApiData(SampleReservation());
      && |r.unreservedOrders| == 1
      && r.unreservedOrders[0].item == Some(2)
  {
    SampleReservationKeys();
    GetUnique(SampleReservation(), 8);
    var u: Payload := [("item_number", JInt(2))];
    GetUnique(u, 0);
  }
}
