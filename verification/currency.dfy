/**
 * Currencies and the currency metadata attached to API responses.
 *
 * `Currency.from_api_data` copies the six `currency_*` keys verbatim, so
 * each field is the raw JSON value (null for a missing key).
 */
module Currencies {
  import opened Options
  import opened Json
  import opened PyEquality

  datatype Currency = Currency(
    code: Json,
    factor: Json,
    places: Json,
    number: Json,
    preSymbol: Json,
    postSymbol: Json)

  datatype CurrencyMeta = CurrencyMeta(currency: Currency, desiredCurrency: Option<Currency>)

  /** `Currency.from_api_data`: every mapping, even `{}`, yields a currency. */
  function FromApiData(data: Payload): (c: Currency)
    ensures c.code == Get(data, "currency_code")
    ensures c.factor == Get(data, "currency_factor")
    ensures c.places == Get(data, "currency_places")
    ensures c.number == Get(data, "currency_number")
    ensures c.preSymbol == Get(data, "currency_pre_symbol")
    ensures c.postSymbol == Get(data, "currency_post_symbol")
  {
    Currency(
      Get(data, "currency_code"),
      Get(data, "currency_factor"),
      Get(data, "currency_places"),
      Get(data, "currency_number"),
      Get(data, "currency_pre_symbol"),
      Get(data, "currency_post_symbol"))
  }

  /** The payload the API would send for `c`: the inverse partner of `FromApiData`. */
  function ToApiData(c: Currency): (data: Payload)
    ensures |data| == 6 && UniqueKeys(data)
  {
    [ ("currency_code", c.code),
      ("currency_factor", c.factor),
      ("currency_places", c.places),
      ("currency_number", c.number),
      ("currency_pre_symbol", c.preSymbol),
      ("currency_post_symbol", c.postSymbol) ]
  }

  /** The keys `from_api_data` reads; every other key is ignored. */
  predicate IsCurrencyKey(k: string) {
    || k == "currency_code" || k == "currency_factor" || k == "currency_places"
    || k == "currency_number" || k == "currency_pre_symbol" || k == "currency_post_symbol"
  }

  lemma RoundTrip(c: Currency)
    ensures FromApiData(ToApiData(c)) == c
  {
    var data := ToApiData(c);
    GetUnique(data, 0);
    GetUnique(data, 1);
    GetUnique(data, 2);
    GetUnique(data, 3);
    GetUnique(data, 4);
    GetUnique(data, 5);
  }

  /** Bindings of keys other than the six currency keys, inserted anywhere, do not change the result. */
  lemma IgnoresOtherKeys(before: Payload, extra: Payload, after: Payload)
    requires forall i :: 0 <= i < |extra| ==> !IsCurrencyKey(extra[i].0)
    ensures FromApiData(before + extra + after) == FromApiData(before + after)
  {
    OtherKeySkipped(before, extra, after, "currency_code");
    OtherKeySkipped(before, extra, after, "currency_factor");
    OtherKeySkipped(before, extra, after, "currency_places");
    OtherKeySkipped(before, extra, after, "currency_number");
    OtherKeySkipped(before, extra, after, "currency_pre_symbol");
    OtherKeySkipped(before, extra, after, "currency_post_symbol");
  }

  lemma OtherKeySkipped(before: Payload, extra: Payload, after: Payload, key: string)
    requires forall i :: 0 <= i < |extra| ==> !IsCurrencyKey(extra[i].0)
    requires IsCurrencyKey(key)
    ensures Get(before + extra + after, key) == Get(before + after, key)
  {
    assert key !in Keys(extra);
    GetSkip(before, extra, after, key);
  }

  /**
   * `Currency.__eq__`. `other` is `None` or a currency; a falsy `other`
   * compares unequal before any field is read. Fields compare with Python's `==`.
   */
  function Eq(self: Currency, other: Option<Currency>): (equal: bool)
    ensures other.None? ==> !equal
    ensures equal ==> PyEq(self.code, other.value.code) && PyEq(self.factor, other.value.factor)
  {
    match other
    case None => false
    case Some(o) =>
      && PyEq(self.code, o.code)
      && PyEq(self.number, o.number)
      && PyEq(self.factor, o.factor)
      && PyEq(self.places, o.places)
      && PyEq(self.preSymbol, o.preSymbol)
      && PyEq(self.postSymbol, o.postSymbol)
  }

  /** `Currency.__ne__`. */
  predicate Ne(self: Currency, other: Option<Currency>)
  {
    !Eq(self, other)
  }

  /** Comparing with `None` is false, whatever the currency. */
  lemma EqNoneIsFalse(c: Currency)
    ensures !Eq(c, None)
    ensures Ne(c, None)
  {
  }

  /** Two currencies are equal exactly when all six fields are pairwise equal. */
  lemma EqIffFieldsEqual(a: Currency, b: Currency)
    ensures Eq(a, Some(b)) <==>
      (PyEq(a.code, b.code) && PyEq(a.factor, b.factor) && PyEq(a.places, b.places) &&
       PyEq(a.number, b.number) && PyEq(a.preSymbol, b.preSymbol) && PyEq(a.postSymbol, b.postSymbol))
    ensures Ne(a, Some(b)) <==> !Eq(a, Some(b))
  {
  }

  lemma EqReflexive(c: Currency)
    ensures Eq(c, Some(c))
    ensures !Ne(c, Some(c))
  {
    PyEqReflexive(c.code);
    PyEqReflexive(c.number);
    PyEqReflexive(c.factor);
    PyEqReflexive(c.places);
    PyEqReflexive(c.preSymbol);
    PyEqReflexive(c.postSymbol);
  }

  lemma EqSymmetric(a: Currency, b: Currency)
    ensures Eq(a, Some(b)) <==> Eq(b, Some(a))
  {
    if Eq(a, Some(b)) {
      PyEqSymmetric(a.code, b.code);
      PyEqSymmetric(a.number, b.number);
      PyEqSymmetric(a.factor, b.factor);
      PyEqSymmetric(a.places, b.places);
      PyEqSymmetric(a.preSymbol, b.preSymbol);
      PyEqSymmetric(a.postSymbol, b.postSymbol);
    }
    if Eq(b, Some(a)) {
      PyEqSymmetric(b.code, a.code);
      PyEqSymmetric(b.number, a.number);
      PyEqSymmetric(b.factor, a.factor);
      PyEqSymmetric(b.places, a.places);
      PyEqSymmetric(b.preSymbol, a.preSymbol);
      PyEqSymmetric(b.postSymbol, a.postSymbol);
    }
  }

  lemma EqTransitive(a: Currency, b: Currency, c: Currency)
    requires Eq(a, Some(b)) && Eq(b, Some(c))
    ensures Eq(a, Some(c))
  {
    PyEqTransitive(a.code, b.code, c.code);
    PyEqTransitive(a.number, b.number, c.number);
    PyEqTransitive(a.factor, b.factor, c.factor);
    PyEqTransitive(a.places, b.places, c.places);
    PyEqTransitive(a.preSymbol, b.preSymbol, c.preSymbol);
    PyEqTransitive(a.postSymbol, b.postSymbol, c.postSymbol);
  }

  /**
   * Two payloads that differ only in sending the factor as the integer 100
   * or as the float 100.0 give equal currencies.
   */
  lemma EqAcrossNumericTypes(data: Payload, i: nat)
    requires UniqueKeys(data)
    requires i < |data| && data[i] == ("currency_factor", JInt(100))
    ensures UniqueKeys(data[i := ("currency_factor", JFloat(100.0))])
    ensures Eq(FromApiData(data), Some(FromApiData(data[i := ("currency_factor", JFloat(100.0))])))
  {
    var a := FromApiData(data);
    var b := FromApiData(data[i := ("currency_factor", JFloat(100.0))]);
    GetReplace(data, i, JFloat(100.0), "currency_code");
    GetReplace(data, i, JFloat(100.0), "currency_factor");
    GetReplace(data, i, JFloat(100.0), "currency_places");
    GetReplace(data, i, JFloat(100.0), "currency_number");
    GetReplace(data, i, JFloat(100.0), "currency_pre_symbol");
    GetReplace(data, i, JFloat(100.0), "currency_post_symbol");
    GetUnique(data, i);
    assert b == a.(factor := JFloat(100.0));
    assert PyEq(JInt(100), JFloat(100.0));
    PyEqReflexive(a.code);
    PyEqReflexive(a.number);
    PyEqReflexive(a.places);
    PyEqReflexive(a.preSymbol);
    PyEqReflexive(a.postSymbol);
  }

  /**
   * What `CurrencyMeta.from_api_data` needs of its input: it calls `.get`
   * on the `currency` sub-payload whenever that is truthy, and on the
   * `desired_currency` sub-payload when both are truthy.
   */
  predicate MetaReadable(data: Payload) {
    && (Truthy(Get(data, "currency")) ==> Get(data, "currency").JObj?)
    && ((Truthy(Get(data, "currency")) && Truthy(Get(data, "desired_currency")))
        ==> Get(data, "desired_currency").JObj?)
  }

  /** `CurrencyMeta.from_api_data`: `None` when the `currency` sub-payload is missing or empty. */
  function MetaFromApiData(data: Payload): (r: Option<CurrencyMeta>)
    requires MetaReadable(data)
    ensures r.None? <==> !Truthy(Get(data, "currency"))
    ensures r.Some? ==> r.value.currency == FromApiData(Get(data, "currency").fields)
    ensures r.Some? && !Truthy(Get(data, "desired_currency")) ==> r.value.desiredCurrency == None
    ensures r.Some? && Truthy(Get(data, "desired_currency"))
            ==> r.value.desiredCurrency == Some(FromApiData(Get(data, "desired_currency").fields))
  {
    var currencyData := Get(data, "currency");
    if !Truthy(currencyData) then None
    else
      var currency := FromApiData(currencyData.fields);
      var desiredData := Get(data, "desired_currency");
      var desired := if Truthy(desiredData) then Some(FromApiData(desiredData.fields)) else None;
      Some(CurrencyMeta(currency, desired))
  }

  /** The payload the API would send for a currency meta: the inverse partner of `MetaFromApiData`. */
  function MetaToApiData(m: CurrencyMeta): (data: Payload)
    ensures MetaReadable(data)
  {
    [ ("currency", JObj(ToApiData(m.currency))),
      ("desired_currency", if m.desiredCurrency.Some? then JObj(ToApiData(m.desiredCurrency.value)) else JNull) ]
  }

  lemma MetaRoundTrip(m: CurrencyMeta)
    ensures MetaFromApiData(MetaToApiData(m)) == Some(m)
  {
    var data := MetaToApiData(m);
    var desired := data[1].1;
    assert data == [("currency", JObj(ToApiData(m.currency)))] + [("desired_currency", desired)];
    GetCons("currency", JObj(ToApiData(m.currency)), [("desired_currency", desired)], "currency");
    GetCons("currency", JObj(ToApiData(m.currency)), [("desired_currency", desired)], "desired_currency");
    GetCons("desired_currency", desired, [], "desired_currency");
    RoundTrip(m.currency);
    if m.desiredCurrency.Some? {
      RoundTrip(m.desiredCurrency.value);
    }
  }
}
