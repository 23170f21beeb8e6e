/**
 * The trolley a reservation holds: bundles of orders grouped by the
 * backend system that sells them. Only the keys a reservation payload
 * carries are modelled; each has the payload the API would send for it
 * as its inverse partner.
 */
module Trolleys {
  import opened Options
  import opened Json
  import opened Coerce
  import opened Orders

  datatype Bundle = Bundle(sourceCode: Option<string>, orders: seq<Order>)

  datatype Trolley = Trolley(
    randomIndex: Option<string>,
    bundleCount: Option<int>,
    orderCount: Option<int>,
    bundles: seq<Bundle>)

  /** A bundle: its source code, and its `order` array built element-wise in order. */
  function BundleFromApiData(data: Payload): (b: Bundle)
    ensures b.sourceCode == AsStr(Get(data, "bundle_source_code"))
    ensures b.orders == OrdersFromArray(AsArray(Get(data, "order")))
    ensures Get(data, "order") == JNull ==> b.orders == []
  {
    Bundle(AsStr(Get(data, "bundle_source_code")), OrdersFromArray(AsArray(Get(data, "order"))))
  }

  function BundleToApiData(b: Bundle): (data: Payload)
    ensures |data| == 2 && UniqueKeys(data)
  {
    [("bundle_source_code", StrJson(b.sourceCode)), ("order", JArr(OrdersToArray(b.orders)))]
  }

  lemma BundleRoundTrip(b: Bundle)
    ensures BundleFromApiData(BundleToApiData(b)) == b
  {
    var data := BundleToApiData(b);
    GetUnique(data, 0);
    GetUnique(data, 1);
    OrdersRoundTrip(b.orders);
  }

  function BundlesFromArray(items: seq<Json>): (bs: seq<Bundle>)
    ensures |bs| == |items|
    ensures forall i :: 0 <= i < |items| ==> bs[i] == BundleFromApiData(AsMapping(items[i]))
  {
    seq(|items|, i requires 0 <= i < |items| => BundleFromApiData(AsMapping(items[i])))
  }

  function BundlesToArray(bs: seq<Bundle>): (items: seq<Json>)
    ensures |items| == |bs|
    ensures forall i :: 0 <= i < |bs| ==> items[i] == JObj(BundleToApiData(bs[i]))
  {
    seq(|bs|, i requires 0 <= i < |bs| => JObj(BundleToApiData(bs[i])))
  }

  lemma BundlesRoundTrip(bs: seq<Bundle>)
    ensures BundlesFromArray(BundlesToArray(bs)) == bs
  {
    forall i | 0 <= i < |bs| ensures BundlesFromArray(BundlesToArray(bs))[i] == bs[i] {
      BundleRoundTrip(bs[i]);
    }
  }

  /** A trolley: the two counts as the API reports them, and the `bundle` array in order. */
  function TrolleyFromApiData(data: Payload): (t: Trolley)
    ensures t.randomIndex == AsStr(Get(data, "random_index"))
    ensures t.bundleCount == AsInt(Get(data, "trolley_bundle_count"))
    ensures t.orderCount == AsInt(Get(data, "trolley_order_count"))
    ensures t.bundles == BundlesFromArray(AsArray(Get(data, "bundle")))
  {
    Trolley(
      AsStr(Get(data, "random_index")),
      AsInt(Get(data, "trolley_bundle_count")),
      AsInt(Get(data, "trolley_order_count")),
      BundlesFromArray(AsArray(Get(data, "bundle"))))
  }

  function TrolleyToApiData(t: Trolley): (data: Payload)
    ensures |data| == 4 && UniqueKeys(data)
  {
    [ ("random_index", StrJson(t.randomIndex)),
      ("trolley_bundle_count", IntJson(t.bundleCount)),
      ("trolley_order_count", IntJson(t.orderCount)),
      ("bundle", JArr(BundlesToArray(t.bundles))) ]
  }

  lemma TrolleyRoundTrip(t: Trolley)
    ensures TrolleyFromApiData(TrolleyToApiData(t)) == t
  {
    var data := TrolleyToApiData(t);
    GetUnique(data, 0);
    GetUnique(data, 1);
    GetUnique(data, 2);
    GetUnique(data, 3);
    BundlesRoundTrip(t.bundles);
  }
}
