/**
 * The small field containers the core composes: seats, events,
 * performances, countries, send methods and addresses. Each reads its
 * keys with a missing key giving `None`; each has the payload the API
 * would send for it as its inverse partner.
 */
module Entities {
  import opened Options
  import opened Json
  import opened Coerce

  datatype Seat = Seat(id: Option<string>, seatText: Option<string>)

  /** A seat: its id from `full_id`; its text from `seat_text`, the key assumed for it. */
  function SeatFromApiData(data: Payload): (s: Seat)
    ensures s.id == AsStr(Get(data, "full_id"))
    ensures s.seatText == AsStr(Get(data, "seat_text"))
  {
    Seat(AsStr(Get(data, "full_id")), AsStr(Get(data, "seat_text")))
  }

  function SeatToApiData(s: Seat): (data: Payload)
    ensures UniqueKeys(data)
  {
    [("full_id", StrJson(s.id)), ("seat_text", StrJson(s.seatText))]
  }

  lemma SeatRoundTrip(s: Seat)
    ensures SeatFromApiData(SeatToApiData(s)) == s
  {
    GetUnique(SeatToApiData(s), 0);
    GetUnique(SeatToApiData(s), 1);
  }

  /** A raw array of seat payloads, each element built in order. */
  function SeatsFromArray(items: seq<Json>): (seats: seq<Seat>)
    ensures |seats| == |items|
    ensures forall i :: 0 <= i < |items| ==> seats[i] == SeatFromApiData(AsMapping(items[i]))
  {
    seq(|items|, i requires 0 <= i < |items| => SeatFromApiData(AsMapping(items[i])))
  }

  function SeatsToArray(seats: seq<Seat>): (items: seq<Json>)
    ensures |items| == |seats|
    ensures forall i :: 0 <= i < |seats| ==> items[i] == JObj(SeatToApiData(seats[i]))
  {
    seq(|seats|, i requires 0 <= i < |seats| => JObj(SeatToApiData(seats[i])))
  }

  lemma SeatsRoundTrip(seats: seq<Seat>)
    ensures SeatsFromArray(SeatsToArray(seats)) == seats
  {
    forall i | 0 <= i < |seats| ensures SeatsFromArray(SeatsToArray(seats))[i] == seats[i] {
      SeatRoundTrip(seats[i]);
    }
  }

  datatype Event = Event(id: Option<string>)

  function EventFromApiData(data: Payload): (e: Event)
    ensures e.id == AsStr(Get(data, "event_id"))
  {
    Event(AsStr(Get(data, "event_id")))
  }

  function EventToApiData(e: Event): (data: Payload)
    ensures |data| > 0
    ensures EventFromApiData(data) == e
  {
    [("event_id", StrJson(e.id))]
  }

  datatype Performance = Performance(id: Option<string>)

  function PerformanceFromApiData(data: Payload): (p: Performance)
    ensures p.id == AsStr(Get(data, "perf_id"))
  {
    Performance(AsStr(Get(data, "perf_id")))
  }

  function PerformanceToApiData(p: Performance): (data: Payload)
    ensures |data| > 0
    ensures PerformanceFromApiData(data) == p
  {
    [("perf_id", StrJson(p.id))]
  }

  datatype Country = Country(code: Option<string>, description: Option<string>)

  function CountryFromApiData(data: Payload): (c: Country)
    ensures c.code == AsStr(Get(data, "country_code"))
    ensures c.description == AsStr(Get(data, "country_desc"))
  {
    Country(AsStr(Get(data, "country_code")), AsStr(Get(data, "country_desc")))
  }

  function CountryToApiData(c: Country): (data: Payload)
    ensures UniqueKeys(data)
  {
    [("country_code", StrJson(c.code)), ("country_desc", StrJson(c.description))]
  }

  lemma CountryRoundTrip(c: Country)
    ensures CountryFromApiData(CountryToApiData(c)) == c
  {
    GetUnique(CountryToApiData(c), 0);
    GetUnique(CountryToApiData(c), 1);
  }

  function CountriesFromArray(items: seq<Json>): (cs: seq<Country>)
    ensures |cs| == |items|
    ensures forall i :: 0 <= i < |items| ==> cs[i] == CountryFromApiData(AsMapping(items[i]))
  {
    seq(|items|, i requires 0 <= i < |items| => CountryFromApiData(AsMapping(items[i])))
  }

  function CountriesToArray(cs: seq<Country>): (items: seq<Json>)
    ensures |items| == |cs|
    ensures forall i :: 0 <= i < |cs| ==> items[i] == JObj(CountryToApiData(cs[i]))
  {
    seq(|cs|, i requires 0 <= i < |cs| => JObj(CountryToApiData(cs[i])))
  }

  lemma CountriesRoundTrip(cs: seq<Country>)
    ensures CountriesFromArray(CountriesToArray(cs)) == cs
  {
    forall i | 0 <= i < |cs| ensures CountriesFromArray(CountriesToArray(cs))[i] == cs[i] {
      CountryRoundTrip(cs[i]);
    }
  }

  datatype SendMethod = SendMethod(
    code: Option<string>,
    cost: Option<real>,
    description: Option<string>,
    kind: Option<string>,
    permittedCountries: seq<Country>)

  /** Permitted countries arrive wrapped: `{"permitted_countries": {"country": [...]}}`. */
  function SendMethodFromApiData(data: Payload): (m: SendMethod)
    ensures m.code == AsStr(Get(data, "send_code"))
    ensures m.cost == ToFloat(Get(data, "send_cost"))
    ensures m.description == AsStr(Get(data, "send_desc"))
    ensures m.kind == AsStr(Get(data, "send_type"))
    ensures m.permittedCountries == CountriesFromArray(Unwrapped(data, "permitted_countries", "country"))
  {
    SendMethod(
      AsStr(Get(data, "send_code")),
      ToFloat(Get(data, "send_cost")),
      AsStr(Get(data, "send_desc")),
      AsStr(Get(data, "send_type")),
      CountriesFromArray(Unwrapped(data, "permitted_countries", "country")))
  }

  function SendMethodToApiData(m: SendMethod): (data: Payload)
    ensures |data| == 5 && UniqueKeys(data)
  {
    [ ("send_code", StrJson(m.code)),
      ("send_cost", FloatJson(m.cost)),
      ("send_desc", StrJson(m.description)),
      ("send_type", StrJson(m.kind)),
      ("permitted_countries", JObj([("country", JArr(CountriesToArray(m.permittedCountries)))])) ]
  }

  lemma SendMethodRoundTrip(m: SendMethod)
    ensures SendMethodFromApiData(SendMethodToApiData(m)) == m
  {
    var data := SendMethodToApiData(m);
    GetUnique(data, 0);
    GetUnique(data, 1);
    GetUnique(data, 2);
    GetUnique(data, 3);
    GetUnique(data, 4);
    CountriesRoundTrip(m.permittedCountries);
  }

  datatype Address = Address(
    lineOne: Option<string>,
    lineTwo: Option<string>,
    town: Option<string>,
    county: Option<string>,
    postcode: Option<string>,
    countryCode: Option<string>,
    emailAddress: Option<string>,
    homePhone: Option<string>,
    workPhone: Option<string>)

  function AddressFromApiData(data: Payload): (a: Address)
    ensures a.lineOne == AsStr(Get(data, "address_line_one"))
    ensures a.lineTwo == AsStr(Get(data, "address_line_two"))
    ensures a.town == AsStr(Get(data, "town"))
    ensures a.county == AsStr(Get(data, "county"))
    ensures a.postcode == AsStr(Get(data, "postcode"))
    ensures a.countryCode == AsStr(Get(data, "country_code"))
    ensures a.emailAddress == AsStr(Get(data, "email_address"))
    ensures a.homePhone == AsStr(Get(data, "home_phone"))
    ensures a.workPhone == AsStr(Get(data, "work_phone"))
  {
    Address(
      AsStr(Get(data, "address_line_one")),
      AsStr(Get(data, "address_line_two")),
      AsStr(Get(data, "town")),
      AsStr(Get(data, "county")),
      AsStr(Get(data, "postcode")),
      AsStr(Get(data, "country_code")),
      AsStr(Get(data, "email_address")),
      AsStr(Get(data, "home_phone")),
      AsStr(Get(data, "work_phone")))
  }

  function AddressToApiData(a: Address): (data: Payload)
    ensures |data| == 9 && UniqueKeys(data)
  {
    [ ("address_line_one", StrJson(a.lineOne)),
      ("address_line_two", StrJson(a.lineTwo)),
      ("town", StrJson(a.town)),
      ("county", StrJson(a.county)),
      ("postcode", StrJson(a.postcode)),
      ("country_code", StrJson(a.countryCode)),
      ("email_address", StrJson(a.emailAddress)),
      ("home_phone", StrJson(a.homePhone)),
      ("work_phone", StrJson(a.workPhone)) ]
  }

  lemma AddressRoundTrip(a: Address)
    ensures AddressFromApiData(AddressToApiData(a)) == a
  {
    var data := AddressToApiData(a);
    GetUnique(data, 0);
    GetUnique(data, 1);
    GetUnique(data, 2);
    GetUnique(data, 3);
    GetUnique(data, 4);
    GetUnique(data, 5);
    GetUnique(data, 6);
    GetUnique(data, 7);
    GetUnique(data, 8);
  }
}
