# pyticketswitch payload mapping, in Dafny

This project models the core of pyticketswitch, a client library for a
ticketing API. The core maps the API's loosely typed JSON payloads to
typed entities and back:

- **Deserialisation** (`from_api_data`). Raw keys are renamed to typed
  fields, and a missing key gives `None`. A nested payload builds a nested
  entity, but only when it is present and non-empty. Wrapped arrays such as
  `ticket_orders.ticket_order` are unwrapped one level, and element order is
  kept. This covers `Currency` and `CurrencyMeta`, `TicketOrder` and `Order`,
  `Reservation` with its `Trolley`, `Bundle`s, `Address` and countries, and
  the small containers `Seat`, `Event`, `Performance`, `Country` and
  `SendMethod`.
- **JSON projection** (`JSONMixin.__jsondict__` and `as_dict_for_json`).
  This is a recursive walk over an entity's attributes with two flags:
  `hide_none` and `hide_empty`. Dates and datetimes become ISO 8601 text.
  Nested entities, lists and dicts are projected element by element.
- **Pagination** (`PaginationMixin`). Page state is read from
  `results.paging_status`, and `is_paginated()` is derived from it.
- **Seat pricing** (`SeatPricingMixin`, `TicketOrder`, `Order`). Four price
  keys are renamed and read as floats. A price pair is added, and both
  members must be present. Seats are flattened across ticket orders.

Every `from_api_data` has an inverse partner: the payload the API would
send for the entity. A round-trip lemma connects the two.

Modules, one per component:

| file | module | what it holds |
|---|---|---|
| options.dfy | `Options` | `Option<T>` |
| json.dfy | `Json` | raw payloads; `data.get(key)` as `Get`; Python truthiness |
| coerce.dfy | `Coerce` | reading a JSON value as int, float, bool, string, mapping or array; nested and wrapped payloads |
| pyeq.dfy | `PyEquality` | Python's `==` on JSON values: bool, int and float compare numerically; lists compare element-wise; dicts compare by key |
| currency.dfy | `Currencies` | `Currency`, `CurrencyMeta` |
| isoformat.dfy | `IsoFormat` | `date.isoformat()` and `datetime.isoformat()`, with their parsers |
| projection.dfy | `Projection` | `__jsondict__`, `as_dict_for_json` |
| pagination.dfy | `Pagination` | `PaginationMixin` |
| seatpricing.dfy | `SeatPricing` | `SeatPricingMixin` |
| entities.dfy | `Entities` | `Seat`, `Event`, `Performance`, `Country`, `SendMethod`, `Address` |
| orders.dfy | `Orders` | `TicketOrder`, `Order`, and the seat queries on an order |
| trolley.dfy | `Trolleys` | `Trolley`, `Bundle` |
| reservation.dfy | `Reservations` | `Reservation` |

Conventions:

- JSON numbers keep Python's int/float distinction (`JInt`/`JFloat`).
  This makes "the price fields become floats" observable.
- A mapping is an association list. `Get` returns the first binding of a
  key, or `JNull` when the key is unbound, as `dict.get` returns `None`.
  Payloads built from Python dicts have unique keys (`UniqueKeys`).
- `Currency` keeps its six fields as raw JSON values, because
  `from_api_data` copies them without conversion.
- `Order`, `TicketOrder`, `Reservation`, `Trolley` and the small containers
  are modelled from the behaviour their tests pin. Their implementation
  files are not part of this model. A value of the wrong JSON type is read
  as absent; for example, a string sent where a float is expected gives
  `None`.
- Whole-payload entities are always built. The model's `from_api_data` of
  `Order`, `TicketOrder`, `Reservation`, `Trolley`, `Bundle` and the small
  containers returns an entity for every mapping, even `{}`, with every
  field absent. This is an assumption: their implementation files are not
  part of this model, and `Currency.from_api_data`
  (pyticketswitch/currency.py:41-52) is the only shown precedent. Only a
  NESTED entity is left out when its sub-payload is missing or empty, as
  `CurrencyMeta` does (pyticketswitch/currency.py:63-65).
- The raw key of a seat's text is assumed to be `seat_text`. The tests pin
  only `full_id` as a raw key; `seat_text` appears in them only as a
  constructor keyword.
- `Dedup` and `UniqueSeatTexts`: `unique_seat_text()` is read as "each
  present, non-empty text once, in seat order", after its name. The test
  has no repeated text, so it does not decide between this reading and a
  plain join.
- `is_paginated()` is assumed to be false whenever the page length, the
  page number or the remaining-page count is missing. With all three
  present it is true when pages remain or the page number is past 1. The
  mixin's implementation file is not part of this model. Its tests pin
  only the all-missing case and the page-1 and last-page boundaries; they
  never leave out one count alone, so which counts take part is not
  pinned by them.
- `total_including_send_cost()` is assumed to need both totals and the
  send method's cost. The only test of it has every value present, so
  what happens when one is missing is not pinned; the model states the
  three values as preconditions.

## Model

| member | source | states |
|---|---|---|
| Json.GetIsFirstBinding | pyticketswitch/currency.py:44-52 | `data.get(key)` yields the value of the key's binding, and null when the key is unbound |
| Json.GetUnique | pyticketswitch/currency.py:44-52 | in a mapping with unique keys, looking up any bound key finds its own value |
| Coerce.NonEmptyMapping | pyticketswitch/currency.py:63-65 | a sub-payload is used only when it is a mapping with at least one entry; missing, null or empty gives nothing |
| Coerce.Unwrapped | tests/test_order.py:95-100 | a wrapped list is the array one level inside its outer key; a missing outer key, or a missing or non-array inner value, gives the empty list |
| Coerce.FloatJson | tests/test_order.py:29-36 | every optional float is written so that reading it as a float gives it back |
| Coerce.ToFloat | tests/test_order.py:29-36 | an integer or a float is read as that number, as a float; null gives no value |
| Coerce.Number | tests/test_order.py:29-36 | the number a raw integer or float carries is what reading it as a float gives |
| PyEquality.PyEqReflexive | pyticketswitch/currency.py:18-33 | Python `==` on payload values holds between a value and itself, including nested lists and dicts |
| PyEquality.PyEqSymmetric | pyticketswitch/currency.py:18-33 | Python `==` on payload values is symmetric |
| PyEquality.PyEqTransitive | pyticketswitch/currency.py:18-33 | Python `==` on payload values is transitive, across the bool/int/float tower |
| PyEquality.NumericTower | pyticketswitch/currency.py:18-33 | `1 == 1.0` and `True == 1` hold; `None == 0` and `"1" == 1` do not |
| Currencies.FromApiData | pyticketswitch/currency.py:41-52 | each field is the value under its `currency_*` key, null when the key is absent; every mapping, even `{}`, gives a currency |
| Currencies.RoundTrip | pyticketswitch/currency.py:41-52 | reading the payload written for a currency gives that currency back |
| Currencies.IgnoresOtherKeys | pyticketswitch/currency.py:44-52 | bindings of keys other than the six currency keys, inserted at any position of the payload, do not change the currency read |
| Currencies.Eq | pyticketswitch/currency.py:13-36 | `__eq__`: a falsy `other` compares unequal; equal currencies agree on code and factor under Python `==` |
| Currencies.Ne | pyticketswitch/currency.py:38-39 | `__ne__` holds exactly when `__eq__` does not |
| Currencies.EqNoneIsFalse | pyticketswitch/currency.py:15-16 | a currency is never equal to `None`, and always unequal to it |
| Currencies.EqIffFieldsEqual | pyticketswitch/currency.py:13-36 | two currencies are equal if and only if code, number, factor, places, pre-symbol and post-symbol are pairwise equal; `__ne__` is the negation |
| Currencies.EqReflexive | pyticketswitch/currency.py:13-36 | every currency equals itself |
| Currencies.EqSymmetric | pyticketswitch/currency.py:13-36 | `a == b` exactly when `b == a` |
| Currencies.EqTransitive | pyticketswitch/currency.py:13-36 | equality of currencies is transitive |
| Currencies.EqAcrossNumericTypes | pyticketswitch/currency.py:24-25 | two payloads with unique keys that differ only in sending the factor as the integer 100 or the float 100.0 give equal currencies |
| Currencies.MetaFromApiData | pyticketswitch/currency.py:62-75 | no meta when the `currency` sub-payload is missing or empty; otherwise its currency is `Currency.from_api_data` of it, and the desired currency is absent exactly when its sub-payload is missing or empty |
| Currencies.MetaToApiData | pyticketswitch/currency.py:61-75 | the payload written for a meta is one that `from_api_data` can read |
| Currencies.MetaRoundTrip | pyticketswitch/currency.py:61-75 | reading the payload written for a meta gives that meta back, with or without a desired currency |
| IsoFormat.DigitsRoundTrip | tests/test_mixins.py:51-60 | a zero-padded field of fixed width reads back as the number written |
| IsoFormat.FormatDate | tests/test_mixins.py:57-60 | `date.isoformat()` is ten characters with dashes at positions 4 and 7 |
| IsoFormat.FormatDateTime | tests/test_mixins.py:51-55 | `datetime.isoformat()` starts with the date's text followed by `T` |
| IsoFormat.DateRoundTrip | tests/test_mixins.py:57-60 | every valid date formats as `YYYY-MM-DD` text that parses back to that date |
| IsoFormat.OffsetRoundTrip | tests/test_mixins.py:51-55 | a whole-minute UTC offset formats as `+HH:MM` or `-HH:MM` and parses back |
| IsoFormat.DateTimeRoundTrip | tests/test_mixins.py:51-55 | every valid datetime formats as ISO 8601 text that parses back to that datetime |
| IsoFormat.DateExample | tests/test_mixins.py:57-60 | 25 January 2017 formats as `2017-01-25` |
| IsoFormat.DateTimeExample | tests/test_mixins.py:51-55 | 12:39:40 at offset zero on 25 January 2017 formats as `2017-01-25T12:39:40+00:00` |
| Projection.Shown | tests/test_mixins.py:16-44 | an attribute is kept exactly when it belongs to the entity and the flags do not hide it |
| Projection.Project | tests/test_mixins.py:46-94 | a value projects to null exactly when it is `None`; a list to an array of the same length; a dict to a mapping with the same keys in the same places |
| Projection.ProjectList | tests/test_mixins.py:68-81 | a list projects element by element, in order, with nothing hidden |
| Projection.ProjectDict | tests/test_mixins.py:73-94 | a dict projects value by value, each key kept in its place, with nothing hidden |
| Projection.JsonDict | tests/test_mixins.py:16-44 | with `hide_none` no null is emitted; with `hide_empty` no empty list is emitted; with both off every attribute appears, by name, in order |
| Projection.NothingHidden | tests/test_mixins.py:26-44 | with both flags off no attribute is dropped |
| Projection.OneAttributeCases | tests/test_mixins.py:16-44 | the six flag cases on a one-attribute entity holding `None` or `[]`: `None` appears only with `hide_none` off, `[]` only with `hide_empty` off |
| Projection.AsDictForJson | tests/test_mixins.py:101-104 | `as_dict_for_json()` is `__jsondict__()` with the default flags |
| Projection.JsonDictAppend | tests/test_mixins.py:46-94 | attributes are projected independently: the projection of an entity is the concatenation of its attributes' projections |
| Projection.ShownAppend | tests/test_mixins.py:16-44 | the kept attributes of two runs of attributes are those of the first run followed by those of the second, so declaration order is kept |
| Projection.JsonDictSingle | tests/test_mixins.py:46-49 | a single shown attribute projects to one entry under its own name |
| Projection.NestedEntity | tests/test_mixins.py:62-66 | an entity held by an attribute appears under that attribute's name as the mapping its own `__jsondict__` gives, with the same flags |
| Projection.SubJsonExample | tests/test_mixins.py:62-66 | `Foo(Foo('hello world!'))` projects to `{'bar': {'bar': 'hello world!'}}` |
| Projection.ListOfSubobjsExample | tests/test_mixins.py:78-81 | `Foo([Foo('hello'), Foo('world!')])` projects to a list of the two entities' mappings, in order |
| Projection.DictOfSubobjsExample | tests/test_mixins.py:83-94 | `Foo({'first': Foo('hello'), 'second': Foo('world!')})` keeps both keys, each value projected |
| Projection.TemporalProjection | tests/test_mixins.py:51-60 | dates and datetimes project to text that parses back to the same value |
| Projection.ProjectEmbed | tests/test_mixins.py:68-76 | any JSON value read back as an attribute value projects to itself |
| Projection.EmbedProject | tests/test_mixins.py:68-76 | scalars, and lists and dicts of them, pass through the projection unchanged |
| Pagination.FromApiData | tests/test_mixins.py:109-138 | four counts are copied from `results.paging_status` and `total_unpaged_results` becomes the total; without `results` every count is absent |
| Pagination.RoundTrip | tests/test_mixins.py:109-138 | reading the paging payload written for a page state gives it back |
| Pagination.Example | tests/test_mixins.py:109-138 | the test payload reads as (50, 2, 3, 150, 250) and is paginated |
| Pagination.IsPaginated | tests/test_mixins.py:140-178 | a state is paginated exactly when the page length, page number and remaining-page count are all present and either pages remain or the page is past the first |
| Pagination.PaginatedIffMoreThanOnePage | tests/test_mixins.py:140-168 | with the three counts present, a collection is paginated exactly when the pages up to this one plus those remaining exceed one |
| Pagination.MissingCountsNeverPaginate | tests/test_mixins.py:170-178 | a state missing the page length, the page number or the remaining-page count is not paginated, whatever the others say; the all-missing state is not paginated and nothing fails |
| Pagination.FirstPageBoundary | tests/test_mixins.py:150-168 | page 1 with none remaining is not paginated; any later page with none remaining is |
| SeatPricing.KwargsFromApiData | tests/test_mixins.py:183-197 | the four `sale`/`non_offer_sale` keys become the four price fields, as floats |
| SeatPricing.RoundTrip | tests/test_mixins.py:183-197 | reading the price keys written for a price set gives it back |
| SeatPricing.Example | tests/test_mixins.py:183-197 | the test payload gives 160.0, 5.5, 200.0 and 5.5 |
| SeatPricing.AddPair | tests/test_mixins.py:199-225 | a pair is added only when both members are present, and the result is their sum |
| SeatPricing.CombinedPrice | tests/test_mixins.py:199-210 | defined only with both seat price and surcharge present; their sum |
| SeatPricing.NonOfferCombinedPrice | tests/test_mixins.py:212-225 | defined only with both non-offer prices present; their sum |
| SeatPricing.CombinedPriceFromPayload | tests/test_mixins.py:183-201 | the combined price of a payload is the numeric sum of its two raw price values, whether each was sent as an integer or a float |
| Entities.SeatFromApiData | tests/test_order.py:18-21 | a seat's id is its `full_id`; its text is read from `seat_text`, a key the model assumes |
| Entities.SeatRoundTrip | tests/test_order.py:18-21 | reading the payload written for a seat gives it back |
| Entities.SeatsFromArray | tests/test_order.py:37-39 | one seat per array element, in array order |
| Entities.SeatsRoundTrip | tests/test_order.py:37-39 | reading the array written for a list of seats gives the list back |
| Entities.EventToApiData | tests/test_order.py:86-88 | an event's id is its `event_id`; reading the payload written for an event gives it back |
| Entities.PerformanceToApiData | tests/test_order.py:90-92 | a performance's id is its `perf_id`; reading the payload written for it gives it back |
| Entities.CountryRoundTrip | tests/test_order.py:117-124 | reading the payload written for a country gives it back |
| Entities.CountriesRoundTrip | tests/test_order.py:115-126 | reading the array written for a list of countries gives the list back |
| Entities.SendMethodFromApiData | tests/test_order.py:110-127 | code, cost, description and type come from the four `send_*` keys; the permitted countries are unwrapped from `permitted_countries.country` in order |
| Entities.SendMethodRoundTrip | tests/test_order.py:110-127 | reading the payload written for a send method gives it back |
| Entities.AddressFromApiData | tests/test_reservation.py:20-30 | each of the nine address fields comes from its own key |
| Entities.AddressRoundTrip | tests/test_reservation.py:20-30 | reading the payload written for an address gives it back |
| Orders.TicketOrderFromApiData | tests/test_order.py:9-39 | `discount_code`, `discount_desc` and `no_of_seats` are renamed; prices are read as floats; seats keep array order with `full_id` as id |
| Orders.TicketOrderRoundTrip | tests/test_order.py:9-39 | reading the payload written for a ticket order gives it back |
| Orders.TicketOrderExampleFields | tests/test_order.py:24-28 | the test payload gives code ADULT, description "Adult standard" and 2 seats |
| Orders.TicketOrderExamplePrices | tests/test_order.py:29-32 | the per-seat prices 25 and 2.50 are read as the floats 25.0 and 2.5 |
| Orders.TicketOrderExampleTotals | tests/test_order.py:33-36 | the integer totals 50 and 5 are read as the floats 50.0 and 5.0 |
| Orders.TicketOrderExampleSeats | tests/test_order.py:37-39 | the test payload's seats are ABC123 then DEF456 |
| Orders.TicketOrderExampleSums | tests/test_order.py:45-77 | the test payload's combined price is 27.5 and its total combined price 55.0 |
| Orders.TicketOrderCombinedPrice | tests/test_order.py:45-60 | defined only with the per-seat price and surcharge present; the result is their sum |
| Orders.TotalCombinedPrice | tests/test_order.py:62-77 | defined only with both totals present; the result is their sum |
| Orders.TotalIsPerSeatTimesCount | tests/test_order.py:45-77 | when the totals are the per-seat prices times the seat count, the total combined price is the combined price times the count |
| Orders.TicketOrdersFromArray | tests/test_order.py:95-100 | one ticket order per array element, in array order |
| Orders.TicketOrdersRoundTrip | tests/test_order.py:95-100 | reading the array written for a list of ticket orders gives it back |
| Orders.OrderFromApiData | tests/test_order.py:82-153 | every scalar key is renamed; event, performance and send method are built exactly when their sub-payloads are non-empty; ticket orders are unwrapped in order; requested seats keep array order |
| Orders.UnwrapKeepsOrder | tests/test_order.py:95-149 | the wrapped ticket orders ADULT, CHILD come out as two ticket orders in that order |
| Orders.MissingListIsEmpty | tests/test_order.py:214-216 | a missing `ticket_orders` key, or a wrapper without its `ticket_order` array, gives an empty list, not an absent one; so does a missing `requested_seats` key |
| Orders.EmptyWrapperExample | tests/test_order.py:214-216 | `{"ticket_orders": {}}` gives no ticket orders |
| Orders.OrderRoundTrip | tests/test_order.py:82-153 | reading the payload written for an order gives it back |
| Orders.OrdersFromArray | tests/test_reservation.py:35-42 | one order per array element, in array order |
| Orders.OrdersRoundTrip | tests/test_reservation.py:35-42 | reading the array written for a list of orders gives it back |
| Orders.TotalIncludingSendCost | tests/test_order.py:155 | defined only with both totals and the send cost present; the result is the order's combined total plus the send cost |
| Orders.TotalIncludingSendCostFromPayload | tests/test_order.py:82-155 | for an order read from a payload with both totals and a send cost, each an integer or a float, the result is the sum of those three numbers |
| Orders.SendCostExample | tests/test_order.py:155 | totals 51 and 5.40 with a send cost of 3.5 give 51 + 5.40 + 3.5 |
| Orders.SendMethodOnlyExample | tests/test_order.py:157-168 | a send method given only its code is still built, with that code |
| Orders.Flatten | tests/test_order.py:170-184 | no ticket orders give no seats; otherwise the seats of the first ticket order come first |
| Orders.FlattenAppend | tests/test_order.py:170-184 | the seats of two runs of ticket orders are the seats of the first run followed by those of the second |
| Orders.FlattenPosition | tests/test_order.py:170-184 | seat `j` of ticket order `k` sits in the flattened list right after all seats of the ticket orders before `k` |
| Orders.FlattenMembership | tests/test_order.py:170-184 | a seat is in the flattened list exactly when it is in one of the ticket orders |
| Orders.GetSeats | tests/test_order.py:214-216 | an order without ticket orders has no seats |
| Orders.SeatIds | tests/test_order.py:186-198 | the ids of a list of seats, one per seat, in the same order |
| Orders.GetSeatIds | tests/test_order.py:186-198 | `get_seat_ids()` is the ids of `get_seats()`, position by position |
| Orders.GetRequestedSeatIds | tests/test_order.py:218-220 | one id per requested seat, in order |
| Orders.TwoTicketOrdersSeats | tests/test_order.py:170-184 | two ticket orders of three seats give A1, A2, A3, B1, B2, B3 |
| Orders.SeatIdsExample | tests/test_order.py:186-198 | the same two ticket orders give the ids A1 to B3 in order |
| Orders.EmptyAndRequestedExamples | tests/test_order.py:214-220 | no ticket orders give no seats; requested seats A1, A2, A3 give those ids in order |
| Orders.PresentTextsMembership | tests/test_order.py:200-212 | a text is listed exactly when some seat carries it and it is non-empty |
| Orders.DedupSpec | tests/test_order.py:200-212 | the result has no repeats, holds exactly the input's elements, and orders them by first occurrence |
| Orders.UniqueSeatTexts | tests/test_order.py:200-212 | each present, non-empty seat text once, in order of first occurrence among the seats |
| Orders.Join | tests/test_order.py:200-212 | the joined text is empty for no parts, the part itself for one part, and starts with the first part otherwise |
| Orders.JoinConcat | tests/test_order.py:200-212 | joining two non-empty lists gives their two joins with one separator between them |
| Orders.JoinAppend | tests/test_order.py:200-212 | each further part adds one separator and that part to the end of the text |
| Orders.JoinLayout | tests/test_order.py:200-212 | every part sits at its offset in the joined text, a separator precedes every part but the first, and the last part ends the text |
| Orders.UniqueSeatText | tests/test_order.py:200-212 | no texts give the empty string; one text gives that text |
| Orders.UniqueSeatTextLayout | tests/test_order.py:200-212 | for any number of texts, each unique text sits at its offset, `", "` precedes every text but the first, and the last text ends the seat text |
| Orders.UniqueSeatTextGrows | tests/test_order.py:200-212 | with two or more texts, the seat text is the join of all but the last, then `", "`, then the last |
| Orders.UniqueSeatTextOfTwo | tests/test_order.py:200-212 | two distinct texts are joined with `", "` in seat order |
| Orders.UniqueSeatTextExample | tests/test_order.py:200-212 | the test's two ticket orders give `Hell bad, Hell good` |
| Trolleys.BundleFromApiData | tests/test_reservation.py:32-37 | a bundle's source code is `bundle_source_code`, and its orders are built from the `order` array in order |
| Trolleys.BundleRoundTrip | tests/test_reservation.py:32-37 | reading the payload written for a bundle gives it back |
| Trolleys.BundlesFromArray | tests/test_reservation.py:32-37 | one bundle per array element, in array order |
| Trolleys.TrolleyFromApiData | tests/test_reservation.py:31-41 | random index, bundle count and order count come from their keys; bundles come from the `bundle` array in order |
| Trolleys.TrolleyRoundTrip | tests/test_reservation.py:31-41 | reading the payload written for a trolley gives it back |
| Reservations.CountriesFromMapping | tests/test_reservation.py:11-14 | one country per mapping entry, in the order the payload lists them, with the key as code and the value as description |
| Reservations.CountriesMappingRoundTrip | tests/test_reservation.py:11-14 | countries that all have codes survive the trip through the code-to-name mapping |
| Reservations.MappingCountriesRoundTrip | tests/test_reservation.py:11-14 | a code-to-name mapping with string names survives the trip through countries |
| Reservations.ReservationFromApiData | tests/test_reservation.py:8-61 | the four flags pass through; `minutes_left_on_reserve` becomes the minutes left; address and trolley are built exactly when their sub-payloads are non-empty; countries follow the mapping; there is one unreserved order per array element |
| Reservations.ReservationRoundTrip | tests/test_reservation.py:8-61 | reading the payload written for a reservation whose countries have codes gives it back |
| Reservations.SampleReservationFlags | tests/test_reservation.py:15-51 | the test payload's four flags are all true and 15 minutes are left |
| Reservations.SampleReservationCountries | tests/test_reservation.py:57-59 | the test payload gives two countries, `ad` then `ae` |
| Reservations.SampleReservationNested | tests/test_reservation.py:53-55 | the test payload gives an address and a trolley |
| Reservations.SampleReservationUnreserved | tests/test_reservation.py:42-61 | the test payload gives one unreserved order, item 2 |

## Left out

- `as_json()` text (tests/test_mixins.py:96-99): the exact spacing of
  Python's `json.dumps` is a serialiser detail. The model stops at the
  projected mapping.
- IEEE 754 rounding: prices are exact reals, so `123.45 + 6.78 == 130.23`
  holds exactly here. No claim is made about float-exact results.
- SeatPricing.CombinedPrice: states the exact real sum, not the
  floating-point sum the source computes.
- Time zones beyond a fixed offset in whole minutes. `dateutil`'s
  `tzoffset` is a foreign library, and sub-minute offsets are not modelled.
- `repr` strings (tests/test_order.py:41-43 and 222-224), which are
  formatting only.
- `Content.from_api_data` (tests/interface/test_content.py), a three-field
  pass-through whose test refers to an undefined name.
- Network transport, authentication and the API client that fetch payloads
  (I/O).
- Python's reflection over `__dict__` in `JSONMixin`: an entity is given by
  its explicit attribute list instead.
- Projection.JsonDict: the flags filter only an entity's own attributes.
  Elements of lists and dicts are projected without filtering, because the
  tests do not pin filtering inside containers.
- Fields of `Seat`, `Event`, `Performance`, `Trolley`, `Bundle` and
  `SendMethod` that the tests do not mention. Those entities' source files
  are not part of this model.
- Coercion of numeric strings to float (`float("5.5")`). A wrong-typed
  value reads as absent.
- Dict equality in `PyEquality.PyEq` compares the first binding of each key.
  For dicts with unique keys, as Python's are, this is Python's comparison.
- Currencies.MetaFromApiData: requires that a truthy `currency` (or
  `desired_currency`) value is a mapping. The source raises
  `AttributeError` when `.get` is called on anything else, and that crash is
  not modelled as a result.
- Non-finite floats. Python's JSON decoder accepts `NaN` and `Infinity`,
  and `NaN` is not equal to itself; `JFloat` holds a real number, so those
  values are outside the model, and the reflexivity of `PyEquality.PyEq`
  and `Currencies.Eq` is stated for finite payloads only.
- Currencies.Eq: `other` is `None` or a currency. The source also returns
  `False` for any other falsy value, such as `0` or `""`, and reads
  `other.code` from any other object; neither is modelled.
- Orders.TotalIncludingSendCost: requires both totals, a send method and
  its cost. What the source does when one is missing is not pinned by its
  tests, and the model says nothing about that case.
- Reservations.CountriesFromMapping: the countries follow the order of the
  entries in the `allowed_countries` payload. This order is an assumption:
  the test's `ad`, `ae` is also the order sorted by code, so a source that
  sorts would pass it too.
- Reservations.ReservationRoundTrip: requires every allowed country to have
  a code, because a country without one cannot be a mapping key.
