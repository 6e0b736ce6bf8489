/** `POST /convert` of routes/currency.js: currency conversion behind a
    read-through cache of exchange-rate tables. The cache is the
    CurrencyExchange collection, keyed by the upper-cased base currency;
    an entry lives for one hour; a fetch replaces the base's entry
    (upsert). There is no fallback rate: every failure is reported. */
module CurrencyRoute {
  import opened Common
  import opened Collection

  /** One hour, in milliseconds. */
  const RatesTtl: int := 60 * 60 * 1000

  /** The body's `amount` as the handler's tests see it: falsy (absent,
      `0`, `""`, `null`), truthy but `isNaN`, or a number (possibly given
      as numeric text, so `"0"` arrives here as `Number(0.0)`). */
  datatype AmountInput = Falsy | NotANumber | Number(value: real)

  /** The request body; an absent currency is the empty string. */
  datatype ConvertRequest = ConvertRequest(amount: AmountInput, from: string, to: string)

  /** The exchange-rate service's answer: its `result` field and the
      `rates` table for the requested base. */
  datatype RatesReply = RatesReply(result: string, rates: map<string, real>)

  /** A CurrencyExchange document. */
  datatype RateDoc = RateDoc(baseCurrency: string, rates: map<string, real>, lastUpdated: int, expiresAt: int)

  /** The JSON reply: a conversion, or an error status with its `error`
      title. The converted amount (`amount * rate` rounded to two places) is
      floating-point output and is not modelled. */
  datatype ConvertResponse =
    | Converted(from: string, to: string, amount: real, rate: real, cached: bool)
    | Failed(status: int, error: string)

  /** `rates[code]` when it is truthy: present and non-zero. */
  function RateIn(rates: map<string, real>, code: string): (r: Option<real>)
    ensures r.Some? <==> code in rates && rates[code] != 0.0
    ensures r.Some? ==> r.value == rates[code]
  {
    if code in rates && rates[code] != 0.0 then Some(rates[code]) else None
  }

  /** The upsert filter `{ baseCurrency: base }`. */
  function BaseIs(base: string): RateDoc -> bool
  {
    (d: RateDoc) => d.baseCurrency == base
  }

  /** The lookup filter `{ baseCurrency: base, expiresAt: { $gt: now } }`. */
  function FreshRates(base: string, now: int): RateDoc -> bool
  {
    (d: RateDoc) => d.baseCurrency == base && d.expiresAt > now
  }

  /** The rate a cache lookup serves: that of the first fresh entry for the
      base, when its table has a truthy rate for the target. */
  function CachedRate(docs: seq<RateDoc>, base: string, target: string, now: int): (r: Option<real>)
    ensures r.Some? ==> exists d :: d in docs && d.baseCurrency == base && d.expiresAt > now && RateIn(d.rates, target) == r
  {
    match FindOne(docs, FreshRates(base, now))
    case None => None
    case Some(d) => RateIn(d.rates, target)
  }

  /** Every base currency has at most one document. */
  ghost predicate DistinctBases(docs: seq<RateDoc>)
  {
    forall i, j :: 0 <= i < |docs| && 0 <= j < |docs| && docs[i].baseCurrency == docs[j].baseCurrency ==> i == j
  }

  /** Upserting by base keeps one document per base; afterwards the new
      document is the base's only one, and documents of other bases are
      kept in place. */
  lemma UpsertKeepsDistinctBases(docs: seq<RateDoc>, doc: RateDoc)
    requires DistinctBases(docs)
    ensures DistinctBases(Upsert(docs, BaseIs(doc.baseCurrency), doc))
    ensures forall d :: d in Upsert(docs, BaseIs(doc.baseCurrency), doc) && d.baseCurrency == doc.baseCurrency ==> d == doc
    ensures forall d :: d in docs && d.baseCurrency != doc.baseCurrency ==> d in Upsert(docs, BaseIs(doc.baseCurrency), doc)
  {
    var p := BaseIs(doc.baseCurrency);
    var r := Upsert(docs, p, doc);
    assert AtMostOne(docs, p);
    UpsertLeavesOnlyNewMatch(docs, p, doc);
    forall j, k | 0 <= j < |r| && 0 <= k < |r| && r[j].baseCurrency == r[k].baseCurrency
      ensures j == k
    {
      if r[j].baseCurrency != doc.baseCurrency {
        assert j < |docs| && k < |docs| ==> r[j] == docs[j] && r[k] == docs[k];
        assert j < |docs| && k < |docs|;
      }
    }
    forall d | d in docs && d.baseCurrency != doc.baseCurrency ensures d in r {
      var j :| 0 <= j < |docs| && docs[j] == d;
      assert r[j] == d;
    }
  }

  /** Freshness: right after a refresh for a base, a lookup at any time
      before the new expiry serves the fetched table's rate, whatever the
      collection held before. */
  lemma RefreshedRatesAreServed(docs: seq<RateDoc>, base: string, target: string, rates: map<string, real>, now: int, later: int)
    requires DistinctBases(docs)
    requires later < now + RatesTtl
    ensures CachedRate(Upsert(docs, BaseIs(base), RateDoc(base, rates, now, now + RatesTtl)), base, target, later)
            == RateIn(rates, target)
  {
    var doc := RateDoc(base, rates, now, now + RatesTtl);
    var r := Upsert(docs, BaseIs(base), doc);
    UpsertKeepsDistinctBases(docs, doc);
    match FindOne(r, FreshRates(base, later))
    case None =>
      var j :| 0 <= j < |r| && r[j] == doc;
      assert FreshRates(base, later)(r[j]);
    case Some(d) =>
  }

  /** An entry found by the lookup has the requested base and has not expired. */
  lemma {:induction false} ExpiredEntriesAreNeverServed(docs: seq<RateDoc>, base: string, target: string, now: int)
    requires forall d :: d in docs && d.baseCurrency == base ==> d.expiresAt <= now
    ensures CachedRate(docs, base, target, now) == None
  {
  }

  predicate HasParameters(req: ConvertRequest)
  {
    !req.amount.Falsy? && req.from != "" && req.to != ""
  }

  predicate PositiveAmount(a: AmountInput)
  {
    a.Number? && a.value > 0.0
  }

  class RatesCollection {
    var docs: seq<RateDoc>

    ghost predicate Valid()
      reads this
    {
      DistinctBases(docs)
    }

    constructor ()
      ensures Valid() && docs == []
    {
      docs := [];
    }
  }

  /** The handler. `hasApiKey` is absent: the rate service needs none.
      `fetched` is the base whose table was requested upstream (`None`: no
      upstream request was made). */
  method Convert(db: RatesCollection, req: ConvertRequest, now: int, upstream: Upstream<RatesReply>)
    returns (resp: ConvertResponse, fetched: Option<string>)
    requires db.Valid()
    modifies db
    ensures db.Valid()
    // validation comes before any store or network access
    ensures !HasParameters(req) ==>
      resp == Failed(400, "Missing parameters") && fetched == None && db.docs == old(db.docs)
    ensures HasParameters(req) && !PositiveAmount(req.amount) ==>
      resp == Failed(400, "Invalid amount") && fetched == None && db.docs == old(db.docs)
    // a cache hit: served without an upstream request
    ensures var base, target := ToUpper(req.from), ToUpper(req.to);
      HasParameters(req) && PositiveAmount(req.amount) && CachedRate(old(db.docs), base, target, now).Some? ==>
        && resp == Converted(base, target, req.amount.value, CachedRate(old(db.docs), base, target, now).value, true)
        && fetched == None && db.docs == old(db.docs)
    // a miss: exactly one upstream request, for the upper-cased base
    ensures var base, target := ToUpper(req.from), ToUpper(req.to);
      HasParameters(req) && PositiveAmount(req.amount) && CachedRate(old(db.docs), base, target, now).None? ==>
        && fetched == Some(base)
        && match upstream
          case Ok(reply) =>
            if reply.result != "success" then
              resp == Failed(400, "Invalid currency") && db.docs == old(db.docs)
            else if RateIn(reply.rates, target).None? then
              resp == Failed(400, "Currency not found") && db.docs == old(db.docs)
            else
              && resp == Converted(base, target, req.amount.value, RateIn(reply.rates, target).value, false)
              && db.docs == Upsert(old(db.docs), BaseIs(base), RateDoc(base, reply.rates, now, now + RatesTtl))
          case Http(status) =>
            resp == (if status == 404 then Failed(400, "Invalid currency code") else Failed(500, "Failed to convert currency"))
            && db.docs == old(db.docs)
          case Network =>
            resp == Failed(500, "Failed to convert currency") && db.docs == old(db.docs)
    // a live conversion leaves exactly one entry for its base, the fetched
    // table with a one-hour expiry, and keeps every other base's entry
    ensures resp.Converted? && !resp.cached ==>
      && upstream.Ok?
      && RateDoc(resp.from, upstream.data.rates, now, now + RatesTtl) in db.docs
      && (forall d :: d in db.docs && d.baseCurrency == resp.from ==> d == RateDoc(resp.from, upstream.data.rates, now, now + RatesTtl))
      && (forall d :: d in old(db.docs) && d.baseCurrency != resp.from ==> d in db.docs)
    // anything else leaves the collection as it was
    ensures !(resp.Converted? && !resp.cached) ==> db.docs == old(db.docs)
  {
    if req.amount.Falsy? || req.from == "" || req.to == "" {
      return Failed(400, "Missing parameters"), None;
    }
    if req.amount.NotANumber? || req.amount.value <= 0.0 {
      return Failed(400, "Invalid amount"), None;
    }
    var base := ToUpper(req.from);
    var target := ToUpper(req.to);

    var cachedRates := FindOne(db.docs, FreshRates(base, now));
    if cachedRates.Some? && RateIn(cachedRates.value.rates, target).Some? {
      return Converted(base, target, req.amount.value, RateIn(cachedRates.value.rates, target).value, true), None;
    }

    fetched := Some(base);
    match upstream {
      case Ok(reply) =>
        if reply.result != "success" {
          resp := Failed(400, "Invalid currency");
          return;
        }
        var exchangeRate := RateIn(reply.rates, target);
        if exchangeRate.None? {
          resp := Failed(400, "Currency not found");
          return;
        }
        var doc := RateDoc(base, reply.rates, now, now + RatesTtl);
        UpsertKeepsDistinctBases(db.docs, doc);
        db.docs := Upsert(db.docs, BaseIs(base), doc);
        resp := Converted(base, target, req.amount.value, exchangeRate.value, false);
      case Http(status) =>
        if status == 404 {
          resp := Failed(400, "Invalid currency code");
        } else {
          resp := Failed(500, "Failed to convert currency");
        }
      case Network =>
        resp := Failed(500, "Failed to convert currency");
    }
  }

  /** Two conversions on an empty cache: when the first is served live,
      a second one within the hour, naming the same currencies in any
      letter case, is served from the cache with the same rate and makes no
      upstream request, whatever the upstream would have answered. */
  method RatesCachedForAnHour(first: ConvertRequest, second: ConvertRequest, now: int, elapsed: int,
                              reply: RatesReply, laterUpstream: Upstream<RatesReply>)
    returns (r1: ConvertResponse, r2: ConvertResponse, fetched2: Option<string>)
    requires 0 <= elapsed < RatesTtl
    requires EqualsIgnoreCase(first.from, second.from) && EqualsIgnoreCase(first.to, second.to)
    requires HasParameters(second) && PositiveAmount(second.amount)
    ensures r1.Converted? ==> r2 == r1.(amount := second.amount.value, cached := true) && fetched2 == None
  {
    var db := new RatesCollection();
    var fetched1;
    r1, fetched1 := Convert(db, first, now, Ok(reply));
    if r1.Converted? {
      UpperAgreesWithIgnoreCase(first.from, second.from);
      UpperAgreesWithIgnoreCase(first.to, second.to);
      RefreshedRatesAreServed([], r1.from, r1.to, reply.rates, now, now + elapsed);
    }
    r2, fetched2 := Convert(db, second, now + elapsed, laterUpstream);
  }
}
