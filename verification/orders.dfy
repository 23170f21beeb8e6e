/**
 * Ticket orders (one discount line: a code, a seat count, prices and
 * seats) and orders (the ticket orders for one item, with its event,
 * performance, requested seats and send method).
 */
module Orders {
  import opened Options
  import opened Json
  import opened Coerce
  import opened SeatPricing
  import opened Entities

  datatype TicketOrder = TicketOrder(
    code: Option<string>,
    description: Option<string>,
    numberOfSeats: Option<int>,
    prices: Prices,
    totalSeatprice: Option<real>,
    totalSurcharge: Option<real>,
    seats: seq<Seat>)

  /** `TicketOrder.from_api_data`: renamed keys, float prices, seats in payload order. */
  function TicketOrderFromApiData(data: Payload): (t: TicketOrder)
    ensures t.code == AsStr(Get(data, "discount_code"))
    ensures t.description == AsStr(Get(data, "discount_desc"))
    ensures t.numberOfSeats == AsInt(Get(data, "no_of_seats"))
    ensures t.prices == KwargsFromApiData(data)
    ensures t.totalSeatprice == ToFloat(Get(data, "total_sale_seatprice"))
    ensures t.totalSurcharge == ToFloat(Get(data, "total_sale_surcharge"))
    ensures |t.seats| == |AsArray(Get(data, "seats"))|
    ensures forall i :: 0 <= i < |t.seats| ==>
              t.seats[i].id == AsStr(Get(AsMapping(AsArray(Get(data, "seats"))[i]), "full_id"))
  {
    TicketOrder(
      AsStr(Get(data, "discount_code")),
      AsStr(Get(data, "discount_desc")),
      AsInt(Get(data, "no_of_seats")),
      KwargsFromApiData(data),
      ToFloat(Get(data, "total_sale_seatprice")),
      ToFloat(Get(data, "total_sale_surcharge")),
      SeatsFromArray(AsArray(Get(data, "seats"))))
  }

  function TicketOrderToApiData(t: TicketOrder): (data: Payload)
    ensures |data| == 10 && UniqueKeys(data)
  {
    [ ("discount_code", StrJson(t.code)),
      ("discount_desc", StrJson(t.description)),
      ("no_of_seats", IntJson(t.numberOfSeats)),
      ("sale_seatprice", FloatJson(t.prices.seatprice)),
      ("sale_surcharge", FloatJson(t.prices.surcharge)),
      ("non_offer_sale_seatprice", FloatJson(t.prices.nonOfferSeatprice)),
      ("non_offer_sale_surcharge", FloatJson(t.prices.nonOfferSurcharge)),
      ("total_sale_seatprice", FloatJson(t.totalSeatprice)),
      ("total_sale_surcharge", FloatJson(t.totalSurcharge)),
      ("seats", JArr(SeatsToArray(t.seats))) ]
  }

  lemma TicketOrderRoundTrip(t: TicketOrder)
    ensures TicketOrderFromApiData(TicketOrderToApiData(t)) == t
  {
    var data := TicketOrderToApiData(t);
    GetUnique(data, 0);
    GetUnique(data, 1);
    GetUnique(data, 2);
    GetUnique(data, 3);
    GetUnique(data, 4);
    GetUnique(data, 5);
    GetUnique(data, 6);
    GetUnique(data, 7);
    GetUnique(data, 8);
    GetUnique(data, 9);
    SeatsRoundTrip(t.seats);
  }

  /** `TicketOrder.combined_price()`: the per-seat price plus surcharge. */
  function TicketOrderCombinedPrice(t: TicketOrder): (total: real)
    requires t.prices.seatprice.Some? && t.prices.surcharge.Some?
    ensures total == t.prices.seatprice.value + t.prices.surcharge.value
  {
    CombinedPrice(t.prices)
  }

  /** `total_combined_price()`: the total seat price plus the total surcharge. */
  function TotalCombinedPrice(t: TicketOrder): (total: real)
    requires t.totalSeatprice.Some? && t.totalSurcharge.Some?
    ensures total == t.totalSeatprice.value + t.totalSurcharge.value
  {
    AddPair(t.totalSeatprice, t.totalSurcharge)
  }

  /**
   * When the totals are the per-seat prices times the seat count, the
   * total combined price is the combined price times the seat count.
   */
  lemma TotalIsPerSeatTimesCount(t: TicketOrder)
    requires t.numberOfSeats.Some?
    requires t.prices.seatprice.Some? && t.prices.surcharge.Some?
    requires t.totalSeatprice == Some(t.numberOfSeats.value as real * t.prices.seatprice.value)
    requires t.totalSurcharge == Some(t.numberOfSeats.value as real * t.prices.surcharge.value)
    ensures TotalCombinedPrice(t) == t.numberOfSeats.value as real * TicketOrderCombinedPrice(t)
  {
  }

  datatype Order = Order(
    item: Option<int>,
    priceBandCode: Option<string>,
    ticketTypeCode: Option<string>,
    ticketTypeDescription: Option<string>,
    numberOfSeats: Option<int>,
    totalSeatprice: Option<real>,
    totalSurcharge: Option<real>,
    gotRequestedSeats: Option<bool>,
    backendPurchaseReference: Option<string>,
    event: Option<Event>,
    performance: Option<Performance>,
    ticketOrders: seq<TicketOrder>,
    requestedSeats: seq<Seat>,
    sendMethod: Option<SendMethod>)

  /** Builds each element of a raw ticket-order array, in order. */
  function TicketOrdersFromArray(items: seq<Json>): (ts: seq<TicketOrder>)
    ensures |ts| == |items|
    ensures forall i :: 0 <= i < |items| ==> ts[i] == TicketOrderFromApiData(AsMapping(items[i]))
  {
    seq(|items|, i requires 0 <= i < |items| => TicketOrderFromApiData(AsMapping(items[i])))
  }

  function TicketOrdersToArray(ts: seq<TicketOrder>): (items: seq<Json>)
    ensures |items| == |ts|
    ensures forall i :: 0 <= i < |ts| ==> items[i] == JObj(TicketOrderToApiData(ts[i]))
  {
    seq(|ts|, i requires 0 <= i < |ts| => JObj(TicketOrderToApiData(ts[i])))
  }

  lemma TicketOrdersRoundTrip(ts: seq<TicketOrder>)
    ensures TicketOrdersFromArray(TicketOrdersToArray(ts)) == ts
  {
    forall i | 0 <= i < |ts| ensures TicketOrdersFromArray(TicketOrdersToArray(ts))[i] == ts[i] {
      TicketOrderRoundTrip(ts[i]);
    }
  }

  /**
   * `Order.from_api_data`. Nested entities are `None` when their
   * sub-payload is missing or empty; the ticket orders are unwrapped from
   * `ticket_orders.ticket_order` and keep their order.
   */
  function OrderFromApiData(data: Payload): (o: Order)
    ensures o.item == AsInt(Get(data, "item_number"))
    ensures o.priceBandCode == AsStr(Get(data, "price_band_code"))
    ensures o.ticketTypeCode == AsStr(Get(data, "ticket_type_code"))
    ensures o.ticketTypeDescription == AsStr(Get(data, "ticket_type_desc"))
    ensures o.numberOfSeats == AsInt(Get(data, "total_no_of_seats"))
    ensures o.totalSeatprice == ToFloat(Get(data, "total_sale_seatprice"))
    ensures o.totalSurcharge == ToFloat(Get(data, "total_sale_surcharge"))
    ensures o.gotRequestedSeats == AsBool(Get(data, "got_requested_seats"))
    ensures o.backendPurchaseReference == AsStr(Get(data, "backend_purchase_reference"))
    ensures o.event.Some? <==> NonEmptyMapping(data, "event").Some?
    ensures o.event.Some? ==> o.event.value == EventFromApiData(NonEmptyMapping(data, "event").value)
    ensures o.performance.Some? <==> NonEmptyMapping(data, "performance").Some?
    ensures o.performance.Some? ==> o.performance.value == PerformanceFromApiData(NonEmptyMapping(data, "performance").value)
    ensures o.ticketOrders == TicketOrdersFromArray(Unwrapped(data, "ticket_orders", "ticket_order"))
    ensures o.requestedSeats == SeatsFromArray(AsArray(Get(data, "requested_seats")))
    ensures o.sendMethod.Some? <==> NonEmptyMapping(data, "send_method").Some?
    ensures o.sendMethod.Some? ==> o.sendMethod.value == SendMethodFromApiData(NonEmptyMapping(data, "send_method").value)
  {
    var event := NonEmptyMapping(data, "event");
    var performance := NonEmptyMapping(data, "performance");
    var sendMethod := NonEmptyMapping(data, "send_method");
    Order(
      AsInt(Get(data, "item_number")),
      AsStr(Get(data, "price_band_code")),
      AsStr(Get(data, "ticket_type_code")),
      AsStr(Get(data, "ticket_type_desc")),
      AsInt(Get(data, "total_no_of_seats")),
      ToFloat(Get(data, "total_sale_seatprice")),
      ToFloat(Get(data, "total_sale_surcharge")),
      AsBool(Get(data, "got_requested_seats")),
      AsStr(Get(data, "backend_purchase_reference")),
      if event.Some? then Some(EventFromApiData(event.value)) else None,
      if performance.Some? then Some(PerformanceFromApiData(performance.value)) else None,
      TicketOrdersFromArray(Unwrapped(data, "ticket_orders", "ticket_order")),
      SeatsFromArray(AsArray(Get(data, "requested_seats"))),
      if sendMethod.Some? then Some(SendMethodFromApiData(sendMethod.value)) else None)
  }

  /** The wrapped-list example: two ticket orders, ADULT then CHILD. */
  lemma UnwrapKeepsOrder()
    ensures var o := OrderFromApiData([("ticket_orders", JObj([("ticket_order", JArr([
              JObj([("discount_code", JStr("ADULT"))]),
              JObj([("discount_code", JStr("CHILD"))])]))]))]);
            |o.ticketOrders| == 2
            && o.ticketOrders[0].code == Some("ADULT")
            && o.ticketOrders[1].code == Some("CHILD")
  {
  }

  /**
   * A missing `ticket_orders` key, or a `ticket_orders` mapping without a
   * `ticket_order` array, gives no ticket orders, not an absent list; so
   * does a missing `requested_seats` key.
   */
  lemma MissingListIsEmpty(data: Payload)
    requires Get(data, "ticket_orders") == JNull
             || Get(AsMapping(Get(data, "ticket_orders")), "ticket_order") == JNull
    requires Get(data, "requested_seats") == JNull
    ensures OrderFromApiData(data).ticketOrders == []
    ensures OrderFromApiData(data).requestedSeats == []
  {
  }

  /** The wrapping mapping without its inner array: `{"ticket_orders": {}}` gives no ticket orders. */
  lemma EmptyWrapperExample()
    ensures OrderFromApiData([("ticket_orders", JObj([]))]).ticketOrders == []
  {
  }

  function OptionalJson<T>(x: Option<T>, encode: T -> Payload): Json
  {
    if x.Some? then JObj(encode(x.value)) else JNull
  }

  /** The payload the API would send for an order: the inverse partner of `OrderFromApiData`. */
  function OrderToApiData(o: Order): (data: Payload)
    ensures |data| == 14 && UniqueKeys(data)
  {
    var data := [ ("item_number", IntJson(o.item)),
      ("price_band_code", StrJson(o.priceBandCode)),
      ("ticket_type_code", StrJson(o.ticketTypeCode)),
      ("ticket_type_desc", StrJson(o.ticketTypeDescription)),
      ("total_no_of_seats", IntJson(o.numberOfSeats)),
      ("total_sale_seatprice", FloatJson(o.totalSeatprice)),
      ("total_sale_surcharge", FloatJson(o.totalSurcharge)),
      ("got_requested_seats", BoolJson(o.gotRequestedSeats)),
      ("backend_purchase_reference", StrJson(o.backendPurchaseReference)),
      ("event", OptionalJson(o.event, EventToApiData)),
      ("performance", OptionalJson(o.performance, PerformanceToApiData)),
      ("ticket_orders", JObj([("ticket_order", JArr(TicketOrdersToArray(o.ticketOrders)))])),
      ("requested_seats", JArr(SeatsToArray(o.requestedSeats))),
      ("send_method", OptionalJson(o.sendMethod, SendMethodToApiData)) ];
    OrderKeysDistinct();
    assert forall i :: 0 <= i < |data| ==> data[i].0 == OrderKeys[i];
    data
  }

  /** The keys of an order payload, in the order `OrderToApiData` writes them. */
  const OrderKeys: seq<string> := [
    "item_number", "price_band_code", "ticket_type_code", "ticket_type_desc",
    "total_no_of_seats", "total_sale_seatprice", "total_sale_surcharge",
    "got_requested_seats", "backend_purchase_reference", "event", "performance",
    "ticket_orders", "requested_seats", "send_method"]

  lemma OrderKeysDistinct()
    ensures |OrderKeys| == 14
    ensures forall i, j :: 0 <= i < j < |OrderKeys| ==> OrderKeys[i] != OrderKeys[j]
  {
  }

  /** The scalar fields survive the trip through the payload. */
  lemma OrderRoundTripScalars(o: Order)
    ensures var o' := OrderFromApiData(OrderToApiData(o));
      && o'.item == o.item && o'.priceBandCode == o.priceBandCode
      && o'.ticketTypeCode == o.ticketTypeCode && o'.ticketTypeDescription == o.ticketTypeDescription
      && o'.numberOfSeats == o.numberOfSeats
      && o'.totalSeatprice == o.totalSeatprice && o'.totalSurcharge == o.totalSurcharge
      && o'.gotRequestedSeats == o.gotRequestedSeats
      && o'.backendPurchaseReference == o.backendPurchaseReference
  {
    var data := OrderToApiData(o);
    GetUnique(data, 0);
    GetUnique(data, 1);
    GetUnique(data, 2);
    GetUnique(data, 3);
    GetUnique(data, 4);
    GetUnique(data, 5);
    GetUnique(data, 6);
    GetUnique(data, 7);
    GetUnique(data, 8);
  }

  /** The event and performance survive the trip through the payload. */
  lemma OrderRoundTripEntities(o: Order)
    ensures var o' := OrderFromApiData(OrderToApiData(o));
      o'.event == o.event && o'.performance == o.performance
  {
    var data := OrderToApiData(o);
    GetUnique(data, 9);
    GetUnique(data, 10);
  }

  /** The ticket orders, requested seats and send method survive the trip through the payload. */
  lemma OrderRoundTripLists(o: Order)
    ensures var o' := OrderFromApiData(OrderToApiData(o));
      o'.ticketOrders == o.ticketOrders && o'.requestedSeats == o.requestedSeats && o'.sendMethod == o.sendMethod
  {
    var data := OrderToApiData(o);
    GetUnique(data, 11);
    TicketOrdersRoundTrip(o.ticketOrders);
    GetUnique(data, 12);
    SeatsRoundTrip(o.requestedSeats);
    GetUnique(data, 13);
    if o.sendMethod.Some? {
      SendMethodRoundTrip(o.sendMethod.value);
    }
  }

  lemma OrderRoundTrip(o: Order)
    ensures OrderFromApiData(OrderToApiData(o)) == o
  {
    OrderRoundTripScalars(o);
    OrderRoundTripEntities(o);
    OrderRoundTripLists(o);
  }

  /** A raw array of order payloads, each element built in order. */
  function OrdersFromArray(items: seq<Json>): (os: seq<Order>)
    ensures |os| == |items|
    ensures forall i :: 0 <= i < |items| ==> os[i] == OrderFromApiData(AsMapping(items[i]))
  {
    seq(|items|, i requires 0 <= i < |items| => OrderFromApiData(AsMapping(items[i])))
  }

  function OrdersToArray(os: seq<Order>): (items: seq<Json>)
    ensures |items| == |os|
    ensures forall i :: 0 <= i < |os| ==> items[i] == JObj(OrderToApiData(os[i]))
  {
    seq(|os|, i requires 0 <= i < |os| => JObj(OrderToApiData(os[i])))
  }

  lemma OrdersRoundTrip(os: seq<Order>)
    ensures OrdersFromArray(OrdersToArray(os)) == os
  {
    forall i | 0 <= i < |os| ensures OrdersFromArray(OrdersToArray(os))[i] == os[i] {
      OrderRoundTrip(os[i]);
    }
  }

  /**
   * `total_including_send_cost()`: the order's combined total plus the cost
   * of its send method. The three values are assumed present; the order's
   * tests never call it with one missing.
   */
  function TotalIncludingSendCost(o: Order): (total: real)
    requires o.totalSeatprice.Some? && o.totalSurcharge.Some?
    requires o.sendMethod.Some? && o.sendMethod.value.cost.Some?
    ensures total == AddPair(o.totalSeatprice, o.totalSurcharge) + o.sendMethod.value.cost.value
  {
    o.totalSeatprice.value + o.totalSurcharge.value + o.sendMethod.value.cost.value
  }

  /**
   * For an order read from a payload that sends both totals and a send
   * method with a cost, each as an integer or a float, the total is the sum
   * of those three numbers.
   */
  lemma TotalIncludingSendCostFromPayload(data: Payload, sending: Payload)
    requires Get(data, "total_sale_seatprice").JInt? || Get(data, "total_sale_seatprice").JFloat?
    requires Get(data, "total_sale_surcharge").JInt? || Get(data, "total_sale_surcharge").JFloat?
    requires Get(data, "send_method") == JObj(sending)
    requires Get(sending, "send_cost").JInt? || Get(sending, "send_cost").JFloat?
    ensures var o := OrderFromApiData(data);
      && o.totalSeatprice.Some? && o.totalSurcharge.Some?
      && o.sendMethod.Some? && o.sendMethod.value.cost.Some?
      && TotalIncludingSendCost(o) == Number(Get(data, "total_sale_seatprice"))
           + Number(Get(data, "total_sale_surcharge")) + Number(Get(sending, "send_cost"))
  {
    assert |sending| > 0;
  }

  /** The seats of a list of ticket orders, ticket order after ticket order. */
  function Flatten(ts: seq<TicketOrder>): (seats: seq<Seat>)
    ensures |ts| == 0 ==> seats == []
    ensures |ts| > 0 ==> |ts[0].seats| <= |seats| && seats[..|ts[0].seats|] == ts[0].seats
  {
    if |ts| == 0 then [] else ts[0].seats + Flatten(ts[1..])
  }

  lemma {:induction false} FlattenAppend(a: seq<TicketOrder>, b: seq<TicketOrder>)
    ensures Flatten(a + b) == Flatten(a) + Flatten(b)
  {
    if |a| == 0 {
      assert a + b == b;
    } else {
      assert (a + b)[1..] == a[1..] + b;
      FlattenAppend(a[1..], b);
    }
  }

  /**
   * Seat `j` of ticket order `k` sits in the flattened list right after
   * the seats of the ticket orders before `k`.
   */
  lemma FlattenPosition(ts: seq<TicketOrder>, k: nat, j: nat)
    requires k < |ts| && j < |ts[k].seats|
    ensures |Flatten(ts[..k])| + j < |Flatten(ts)|
    ensures Flatten(ts)[|Flatten(ts[..k])| + j] == ts[k].seats[j]
  {
    assert ts == ts[..k] + [ts[k]] + ts[k + 1..];
    FlattenAppend(ts[..k] + [ts[k]], ts[k + 1..]);
    FlattenAppend(ts[..k], [ts[k]]);
    assert Flatten([ts[k]]) == ts[k].seats + Flatten([]);
  }

  /** Every seat of the flattened list belongs to one of the ticket orders, and conversely. */
  lemma {:induction false} FlattenMembership(ts: seq<TicketOrder>, s: Seat)
    ensures s in Flatten(ts) <==> exists k :: 0 <= k < |ts| && s in ts[k].seats
  {
    if |ts| > 0 {
      FlattenMembership(ts[1..], s);
      if s in Flatten(ts[1..]) {
        var k :| 0 <= k < |ts[1..]| && s in ts[1..][k].seats;
        assert s in ts[k + 1].seats;
      }
      if exists k :: 0 <= k < |ts| && s in ts[k].seats {
        var k :| 0 <= k < |ts| && s in ts[k].seats;
        if k > 0 {
          assert s in ts[1..][k - 1].seats;
        }
      }
    }
  }

  /** `get_seats()`. */
  function GetSeats(o: Order): (seats: seq<Seat>)
    ensures o.ticketOrders == [] ==> seats == []
  {
    Flatten(o.ticketOrders)
  }

  /** The ids of a list of seats, in order. */
  function SeatIds(seats: seq<Seat>): (ids: seq<Option<string>>)
    ensures |ids| == |seats|
    ensures forall i :: 0 <= i < |seats| ==> ids[i] == seats[i].id
  {
    seq(|seats|, i requires 0 <= i < |seats| => seats[i].id)
  }

  /** `get_seat_ids()`: entry `i` is the id of seat `i` of `get_seats()`. */
  function GetSeatIds(o: Order): (ids: seq<Option<string>>)
    ensures ids == SeatIds(GetSeats(o))
  {
    SeatIds(Flatten(o.ticketOrders))
  }

  /** `get_requested_seat_ids()`. */
  function GetRequestedSeatIds(o: Order): (ids: seq<Option<string>>)
    ensures |ids| == |o.requestedSeats|
    ensures forall i :: 0 <= i < |ids| ==> ids[i] == o.requestedSeats[i].id
  {
    SeatIds(o.requestedSeats)
  }

  /** The non-empty seat texts of a list of seats, in seat order. */
  function PresentTexts(seats: seq<Seat>): seq<string>
  {
    if |seats| == 0 then []
    else
      var t := seats[0].seatText;
      if t.Some? && t.value != "" then [t.value] + PresentTexts(seats[1..]) else PresentTexts(seats[1..])
  }

  /** A text is present exactly when some seat carries it and it is non-empty. */
  lemma {:induction false} PresentTextsMembership(seats: seq<Seat>)
    ensures forall t :: t in PresentTexts(seats) <==>
              exists i :: 0 <= i < |seats| && seats[i].seatText == Some(t) && t != ""
  {
    if |seats| > 0 {
      PresentTextsMembership(seats[1..]);
      assert forall i :: 0 < i < |seats| ==> seats[i] == seats[1..][i - 1];
    }
  }

  predicate Distinct(xs: seq<string>) {
    forall a, b :: 0 <= a < b < |xs| ==> xs[a] != xs[b]
  }

  /** Position of the first occurrence of `t`. */
  function FirstIndex(xs: seq<string>, t: string): (r: nat)
    requires t in xs
    ensures r < |xs| && xs[r] == t
    ensures forall j :: 0 <= j < r ==> xs[j] != t
  {
    if xs[0] == t then 0 else 1 + FirstIndex(xs[1..], t)
  }

  lemma FirstIndexExtend(xs: seq<string>, x: string, t: string)
    requires t in xs
    ensures FirstIndex(xs + [x], t) == FirstIndex(xs, t)
  {
    assert (xs + [x])[FirstIndex(xs, t)] == t;
  }

  /** The elements of `xs`, keeping only the first occurrence of each. */
  function Dedup(xs: seq<string>): seq<string>
  {
    if |xs| == 0 then []
    else
      var d := Dedup(xs[..|xs| - 1]);
      if xs[|xs| - 1] in d then d else d + [xs[|xs| - 1]]
  }

  /**
   * `Dedup` keeps exactly the elements of `xs`, each once, in order of
   * first occurrence.
   */
  lemma {:induction false} DedupSpec(xs: seq<string>)
    ensures forall t :: t in Dedup(xs) <==> t in xs
    ensures Distinct(Dedup(xs))
    ensures forall a, b :: 0 <= a < b < |Dedup(xs)| ==> FirstIndex(xs, Dedup(xs)[a]) < FirstIndex(xs, Dedup(xs)[b])
  {
    if |xs| > 0 {
      var init := xs[..|xs| - 1];
      var last := xs[|xs| - 1];
      var d := Dedup(init);
      DedupSpec(init);
      assert xs == init + [last];
      forall a | 0 <= a < |d| ensures FirstIndex(xs, d[a]) == FirstIndex(init, d[a]) {
        FirstIndexExtend(init, last, d[a]);
      }
      if last !in d {
        assert last !in init;
        assert FirstIndex(xs, last) == |init|;
      }
    }
  }

  /** The seat texts `unique_seat_text()` reports: present, non-empty, once each, in seat order. */
  function UniqueSeatTexts(o: Order): (texts: seq<string>)
    ensures Distinct(texts)
    ensures forall t :: t in texts ==> t in PresentTexts(GetSeats(o))
    ensures forall t :: t in texts <==>
              exists i :: 0 <= i < |GetSeats(o)| && GetSeats(o)[i].seatText == Some(t) && t != ""
    ensures forall a, b :: 0 <= a < b < |texts| ==>
              FirstIndex(PresentTexts(GetSeats(o)), texts[a]) < FirstIndex(PresentTexts(GetSeats(o)), texts[b])
  {
    PresentTextsMembership(GetSeats(o));
    DedupSpec(PresentTexts(GetSeats(o)));
    Dedup(PresentTexts(GetSeats(o)))
  }

  /** `sep.join(parts)`. */
  function Join(parts: seq<string>, sep: string): (r: string)
    ensures |parts| == 0 ==> r == ""
    ensures |parts| == 1 ==> r == parts[0]
    ensures |parts| > 0 ==> |r| >= |parts[0]| && r[..|parts[0]|] == parts[0]
  {
    if |parts| == 0 then ""
    else if |parts| == 1 then parts[0]
    else parts[0] + sep + Join(parts[1..], sep)
  }

  /** Joining two non-empty lists gives their two joins with one separator between them. */
  lemma {:induction false} JoinConcat(a: seq<string>, b: seq<string>, sep: string)
    requires |a| > 0 && |b| > 0
    ensures Join(a + b, sep) == Join(a, sep) + sep + Join(b, sep)
  {
    assert (a + b)[0] == a[0];
    if |a| == 1 {
      assert (a + b)[1..] == b;
    } else {
      assert (a + b)[1..] == a[1..] + b;
      JoinConcat(a[1..], b, sep);
    }
  }

  /** Joining builds the text part by part: one more part adds a separator and that part. */
  lemma JoinAppend(parts: seq<string>, p: string, sep: string)
    requires |parts| > 0
    ensures Join(parts + [p], sep) == Join(parts, sep) + sep + p
  {
    JoinConcat(parts, [p], sep);
  }

  lemma JoinTwo(a: string, b: string, sep: string)
    ensures Join([a, b], sep) == a + sep + b
  {
    JoinAppend([a], b, sep);
    assert [a] + [b] == [a, b];
  }

  /** Where part `i` starts in `Join(parts, sep)`: after the join of the parts before it and one separator. */
  function JoinOffset(parts: seq<string>, sep: string, i: nat): nat
    requires i < |parts|
  {
    if i == 0 then 0 else |Join(parts[..i], sep)| + |sep|
  }

  /** The join of the first parts is a prefix of the join of all of them. */
  lemma JoinPrefix(parts: seq<string>, sep: string, n: nat)
    requires 0 < n <= |parts|
    ensures |Join(parts[..n], sep)| <= |Join(parts, sep)|
    ensures Join(parts, sep)[..|Join(parts[..n], sep)|] == Join(parts[..n], sep)
  {
    if n < |parts| {
      assert parts == parts[..n] + parts[n..];
      JoinConcat(parts[..n], parts[n..], sep);
    } else {
      assert parts[..n] == parts;
    }
  }

  /**
   * The layout of a joined text: every part sits at its offset, a
   * separator precedes every part but the first, and the last part ends
   * the text.
   */
  lemma JoinLayout(parts: seq<string>, sep: string)
    ensures forall i :: 0 <= i < |parts| ==>
              JoinOffset(parts, sep, i) + |parts[i]| <= |Join(parts, sep)| &&
              Join(parts, sep)[JoinOffset(parts, sep, i)..JoinOffset(parts, sep, i) + |parts[i]|] == parts[i]
    ensures forall i :: 0 < i < |parts| ==>
              Join(parts, sep)[JoinOffset(parts, sep, i) - |sep|..JoinOffset(parts, sep, i)] == sep
    ensures |parts| > 0 ==> JoinOffset(parts, sep, |parts| - 1) + |parts[|parts| - 1]| == |Join(parts, sep)|
  {
    forall i | 0 <= i < |parts|
      ensures JoinOffset(parts, sep, i) + |parts[i]| <= |Join(parts, sep)|
      ensures Join(parts, sep)[JoinOffset(parts, sep, i)..JoinOffset(parts, sep, i) + |parts[i]|] == parts[i]
      ensures i > 0 ==> Join(parts, sep)[JoinOffset(parts, sep, i) - |sep|..JoinOffset(parts, sep, i)] == sep
      ensures i == |parts| - 1 ==> JoinOffset(parts, sep, i) + |parts[i]| == |Join(parts, sep)|
    {
      JoinPartAt(parts, sep, i);
    }
  }

  /** One part of `JoinLayout`: the join of the parts up to `i` ends with a separator and part `i`. */
  lemma JoinPartAt(parts: seq<string>, sep: string, i: nat)
    requires i < |parts|
    ensures JoinOffset(parts, sep, i) + |parts[i]| <= |Join(parts, sep)|
    ensures Join(parts, sep)[JoinOffset(parts, sep, i)..JoinOffset(parts, sep, i) + |parts[i]|] == parts[i]
    ensures i > 0 ==> Join(parts, sep)[JoinOffset(parts, sep, i) - |sep|..JoinOffset(parts, sep, i)] == sep
    ensures i == |parts| - 1 ==> JoinOffset(parts, sep, i) + |parts[i]| == |Join(parts, sep)|
  {
    var whole := Join(parts, sep);
    JoinPrefix(parts, sep, i + 1);
    if i == |parts| - 1 {
      assert parts[..i + 1] == parts;
    }
    if i > 0 {
      JoinPartAfterFirst(parts, sep, i);
    } else {
      assert parts[..1] == [parts[0]];
    }
  }

  /** `JoinPartAt` for a part after the first, from the prefix ending in that part. */
  lemma JoinPartAfterFirst(parts: seq<string>, sep: string, i: nat)
    requires 0 < i < |parts|
    ensures |Join(parts[..i + 1], sep)| == JoinOffset(parts, sep, i) + |parts[i]|
    ensures JoinOffset(parts, sep, i) + |parts[i]| <= |Join(parts, sep)|
    ensures Join(parts, sep)[JoinOffset(parts, sep, i)..JoinOffset(parts, sep, i) + |parts[i]|] == parts[i]
    ensures Join(parts, sep)[JoinOffset(parts, sep, i) - |sep|..JoinOffset(parts, sep, i)] == sep
  {
    var before := parts[..i];
    var upTo := parts[..i + 1];
    assert upTo == before + [parts[i]];
    JoinAppend(before, parts[i], sep);
    assert Join(upTo, sep) == Join(before, sep) + sep + parts[i];
    JoinPrefix(parts, sep, i + 1);
    PrefixLayout(Join(parts, sep), Join(before, sep), sep, parts[i]);
  }

  /** A text that starts with `before + sep + p` holds `sep` and then `p` right after `before`. */
  lemma PrefixLayout(whole: string, before: string, sep: string, p: string)
    requires |before + sep + p| <= |whole| && whole[..|before + sep + p|] == before + sep + p
    ensures whole[|before|..|before| + |sep|] == sep
    ensures whole[|before| + |sep|..|before| + |sep| + |p|] == p
  {
    var upTo := before + sep + p;
    assert whole[|before|..|before| + |sep|] == upTo[|before|..|before| + |sep|];
    assert whole[|before| + |sep|..|upTo|] == upTo[|before| + |sep|..];
  }

  /** `unique_seat_text()`: the unique seat texts joined with `", "`. */
  function UniqueSeatText(o: Order): (text: string)
    ensures UniqueSeatTexts(o) == [] ==> text == ""
    ensures |UniqueSeatTexts(o)| == 1 ==> text == UniqueSeatTexts(o)[0]
  {
    Join(UniqueSeatTexts(o), ", ")
  }

  /**
   * For any number of texts, the seat text lists each unique text at its
   * offset, with `", "` before every text but the first and nothing after
   * the last.
   */
  lemma UniqueSeatTextLayout(o: Order)
    ensures var texts := UniqueSeatTexts(o);
      && (forall i :: 0 <= i < |texts| ==>
            JoinOffset(texts, ", ", i) + |texts[i]| <= |UniqueSeatText(o)| &&
            UniqueSeatText(o)[JoinOffset(texts, ", ", i)..JoinOffset(texts, ", ", i) + |texts[i]|] == texts[i])
      && (forall i :: 0 < i < |texts| ==>
            UniqueSeatText(o)[JoinOffset(texts, ", ", i) - 2..JoinOffset(texts, ", ", i)] == ", ")
      && (|texts| > 0 ==> JoinOffset(texts, ", ", |texts| - 1) + |texts[|texts| - 1]| == |UniqueSeatText(o)|)
  {
    JoinLayout(UniqueSeatTexts(o), ", ");
  }

  /** One more unique text extends the seat text by a separator and that text. */
  lemma UniqueSeatTextGrows(o: Order)
    requires |UniqueSeatTexts(o)| >= 2
    ensures var texts := UniqueSeatTexts(o);
      UniqueSeatText(o) == Join(texts[..|texts| - 1], ", ") + ", " + texts[|texts| - 1]
  {
    var texts := UniqueSeatTexts(o);
    assert texts == texts[..|texts| - 1] + [texts[|texts| - 1]];
    JoinAppend(texts[..|texts| - 1], texts[|texts| - 1], ", ");
  }

  function SampleSeat(id: string, text: Option<string>): Seat {
    Seat(Some(id), text)
  }

  function SampleTicketOrder(code: string, seats: seq<Seat>): TicketOrder {
    TicketOrder(Some(code), None, None, Prices(None, None, None, None), None, None, seats)
  }

  function SampleOrder(ticketOrders: seq<TicketOrder>, requested: seq<Seat>): Order {
    Order(Some(1), None, None, None, None, None, None, None, None, None, None, ticketOrders, requested, None)
  }

  function TwoTicketOrders(): Order {
    SampleOrder([
      SampleTicketOrder("a", [SampleSeat("A1", Some("Hell bad")), SampleSeat("A2", None), SampleSeat("A3", None)]),
      SampleTicketOrder("b", [SampleSeat("B1", Some("Hell good")), SampleSeat("B2", None), SampleSeat("B3", None)])], [])
  }

  lemma TwoTicketOrdersSeats()
    ensures GetSeats(TwoTicketOrders()) == [
              SampleSeat("A1", Some("Hell bad")), SampleSeat("A2", None), SampleSeat("A3", None),
              SampleSeat("B1", Some("Hell good")), SampleSeat("B2", None), SampleSeat("B3", None)]
  {
    var ts := TwoTicketOrders().ticketOrders;
    assert ts[1..][1..] == [];
  }

  /** The seat ids of both ticket orders, in order. */
  lemma SeatIdsExample()
    ensures GetSeatIds(TwoTicketOrders()) == [Some("A1"), Some("A2"), Some("A3"), Some("B1"), Some("B2"), Some("B3")]
  {
    TwoTicketOrdersSeats();
  }

  lemma PresentTextsExample()
    ensures PresentTexts(GetSeats(TwoTicketOrders())) == ["Hell bad", "Hell good"]
  {
    TwoTicketOrdersSeats();
    var seats := GetSeats(TwoTicketOrders());
    var tail := seats[3..];
    assert seats[1..] == seats[1..];
    assert PresentTexts(seats[5..]) == [] by { assert seats[5..][1..] == []; }
    assert PresentTexts(seats[4..]) == [] by { assert seats[4..][1..] == seats[5..]; }
    assert PresentTexts(seats[3..]) == ["Hell good"] by { assert seats[3..][1..] == seats[4..]; }
    assert PresentTexts(seats[2..]) == ["Hell good"] by { assert seats[2..][1..] == seats[3..]; }
    assert PresentTexts(seats[1..]) == ["Hell good"] by { assert seats[1..][1..] == seats[2..]; }
  }

  lemma DedupTwo(x: string, y: string)
    requires x != y
    ensures Dedup([x, y]) == [x, y]
  {
    assert [x, y][..1] == [x];
    assert [x][..0] == [];
    assert Dedup([x]) == [x];
  }

  /** Two distinct seat texts are reported joined by a comma, in seat order. */
  lemma UniqueSeatTextOfTwo(o: Order, x: string, y: string)
    requires PresentTexts(GetSeats(o)) == [x, y] && x != y
    ensures UniqueSeatText(o) == x + ", " + y
  {
    DedupTwo(x, y);
    JoinTwo(x, y, ", ");
  }

  /** The two seat texts, joined in seat order. */
  lemma UniqueSeatTextExample()
    ensures UniqueSeatText(TwoTicketOrders()) == "Hell bad" + ", " + "Hell good"
  {
    PresentTextsExample();
    UniqueSeatTextOfTwo(TwoTicketOrders(), "Hell bad", "Hell good");
  }

  lemma EmptyAndRequestedExamples()
    ensures GetSeats(SampleOrder([], [])) == []
    ensures GetRequestedSeatIds(SampleOrder([], [SampleSeat("A1", None), SampleSeat("A2", None), SampleSeat("A3", None)]))
            == [Some("A1"), Some("A2"), Some("A3")]
  {
  }

  /** A send method costing 3.5 on totals 51 and 5.40. */
  lemma SendCostExample()
    ensures TotalIncludingSendCost(
              Order(Some(1), None, None, None, None, Some(51.0), Some(5.40), None, None, None, None, [], [],
                    Some(SendMethod(Some("POST"), Some(3.5), None, None, [])))) == 51.0 + 5.40 + 3.5
  {
  }

  /** The ticket-order payload of the repository's tests. */
  function SampleTicketOrderPayload(): Payload {
    [ ("discount_code", JStr("ADULT")),
      ("discount_desc", JStr("Adult standard")),
      ("no_of_seats", JInt(2)),
      ("sale_seatprice", JInt(25)),
      ("sale_surcharge", JFloat(2.5)),
      ("total_sale_seatprice", JInt(50)),
      ("total_sale_surcharge", JInt(5)),
      ("seats", JArr([JObj([("full_id", JStr("ABC123"))]), JObj([("full_id", JStr("DEF456"))])])) ]
  }

  lemma SampleTicketOrderKeys()
    ensures UniqueKeys(SampleTicketOrderPayload())
  {
  }

  /** The renamed code, description and seat count. */
  lemma TicketOrderExampleFields()
    ensures var t := TicketOrderFromApiData(SampleTicketOrderPayload());
      && t.code == Some("ADULT")
      && t.description == Some("Adult standard")
      && t.numberOfSeats == Some(2)
  {
    var data := SampleTicketOrderPayload();
    SampleTicketOrderKeys();
    GetUnique(data, 0);
    GetUnique(data, 1);
    GetUnique(data, 2);
  }

  /** Per-seat prices: the integer 25 is read as 25.0, and 2.5 as itself. */
  lemma TicketOrderExamplePrices()
    ensures var t := TicketOrderFromApiData(SampleTicketOrderPayload());
      t.prices.seatprice == Some(25.0) && t.prices.surcharge == Some(2.5)
  {
    var data := SampleTicketOrderPayload();
    SampleTicketOrderKeys();
    GetUnique(data, 3);
    GetUnique(data, 4);
  }

  /** Totals: the integers 50 and 5 are read as 50.0 and 5.0. */
  lemma TicketOrderExampleTotals()
    ensures var t := TicketOrderFromApiData(SampleTicketOrderPayload());
      t.totalSeatprice == Some(50.0) && t.totalSurcharge == Some(5.0)
  {
    var data := SampleTicketOrderPayload();
    SampleTicketOrderKeys();
    GetUnique(data, 5);
    GetUnique(data, 6);
  }

  /** The two seats, in payload order. */
  lemma TicketOrderExampleSeats()
    ensures var t := TicketOrderFromApiData(SampleTicketOrderPayload());
      && |t.seats| == 2
      && t.seats[0].id == Some("ABC123")
      && t.seats[1].id == Some("DEF456")
  {
    var data := SampleTicketOrderPayload();
    SampleTicketOrderKeys();
    GetUnique(data, 7);
    var s0: Payload := [("full_id", JStr("ABC123"))];
    var s1: Payload := [("full_id", JStr("DEF456"))];
    GetUnique(s0, 0);
    GetUnique(s1, 0);
  }

  /** The combined price 27.5 and the total combined price 55.0. */
  lemma TicketOrderExampleSums()
    ensures var t := TicketOrderFromApiData(SampleTicketOrderPayload());
      && t.prices.seatprice.Some? && t.prices.surcharge.Some?
      && TicketOrderCombinedPrice(t) == 27.5
      && t.totalSeatprice.Some? && t.totalSurcharge.Some?
      && TotalCombinedPrice(t) == 55.0
  {
    TicketOrderExamplePrices();
    TicketOrderExampleTotals();
  }

  /** An order whose send method carries only its code. */
  lemma SendMethodOnlyExample()
    ensures var o := OrderFromApiData([("item_number", JInt(1)), ("send_method", JObj([("send_code", JStr("COBO"))]))]);
      && o.item == Some(1)
      && o.sendMethod.Some?
      && o.sendMethod.value.code == Some("COBO")
      && o.sendMethod.value.cost == None
  {
  }
}
