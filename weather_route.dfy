/** `GET /:city/:country?` of routes/weather.js: current weather behind a
    read-through cache, the WeatherCache collection. Entries are matched by
    city and, when one is given, country, both ignoring case; an entry
    lives for thirty minutes; a fetch upserts by requested city and the
    country the weather service reports. There is no fallback data. */
module WeatherRoute {
  import opened Common
  import opened Collection
  import opened Validation

  /** Thirty minutes, in milliseconds. */
  const WeatherTtl: int := 30 * 60 * 1000

  /** The `currentWeather` sub-document. Temperatures are rounded and the
      other readings copied from the service; the numbers are carried
      unchanged here. */
  datatype Conditions = Conditions(
    temperature: int, feelsLike: int, humidity: real, pressure: real,
    windSpeed: real, windDirection: real, description: string, icon: string, visibility: real)

  /** The weather service's answer: its `name`, `sys.country` and the
      readings. */
  datatype WeatherReply = WeatherReply(name: string, country: string, current: Conditions)

  /** A WeatherCache document; `current` is absent when the document has no
      `currentWeather`. */
  datatype WeatherDoc = WeatherDoc(city: string, country: string, current: Option<Conditions>, cachedAt: int, expiresAt: int)

  /** The JSON reply: a report, or an error status with its `error` title. */
  datatype WeatherResponse =
    | Report(city: string, country: string, current: Conditions, cached: bool, lastUpdated: int)
    | Failed(status: int, error: string)

  /** The lookup filter: the city equal ignoring case, the country equal
      ignoring case when one was given (any country otherwise), and not
      expired. */
  function FreshFor(cityName: string, countryCode: string, now: int): WeatherDoc -> bool
  {
    (d: WeatherDoc) => EqualsIgnoreCase(d.city, cityName)
      && (countryCode == "" || EqualsIgnoreCase(d.country, countryCode))
      && d.expiresAt > now
  }

  /** The upsert filter: the requested city and the reported country, both
      ignoring case, whatever the expiry. */
  function SameLocation(cityName: string, country: string): WeatherDoc -> bool
  {
    (d: WeatherDoc) => EqualsIgnoreCase(d.city, cityName) && EqualsIgnoreCase(d.country, country)
  }

  /** The document a successful fetch writes. */
  function Refreshed(reply: WeatherReply, now: int): (d: WeatherDoc)
    ensures d.city == reply.name && d.country == reply.country && d.current == Some(reply.current)
    ensures d.expiresAt - d.cachedAt == WeatherTtl
  {
    WeatherDoc(reply.name, reply.country, Some(reply.current), now, now + WeatherTtl)
  }

  /** The `q` parameter sent to the service: `city,country`, or the city
      alone. */
  function Query(cityName: string, countryCode: string): (q: string)
    ensures countryCode == "" ==> q == cityName
    ensures countryCode != "" ==> q == cityName + [','] + countryCode
  {
    if countryCode != "" then cityName + "," + countryCode else cityName
  }

  /** The service can split the query back into city and country when the
      city has no comma of its own. */
  lemma QuerySplits(cityName: string, countryCode: string)
    requires ',' !in cityName
    ensures BeforeComma(Query(cityName, countryCode)) == cityName
    ensures countryCode != "" ==> Query(cityName, countryCode)[|cityName| + 1..] == countryCode
  {
    var q := Query(cityName, countryCode);
    assert q[..|cityName|] == cityName;
    assert forall i :: 0 <= i < |cityName| ==> q[i] != ',';
    if countryCode != "" {
      assert q[|cityName|] == ',';
    }
  }

  class WeatherCache {
    var docs: seq<WeatherDoc>

    /** Every document was written by the handler: it holds readings and
        expires thirty minutes after it was cached. */
    ghost predicate Valid()
      reads this
    {
      forall d :: d in docs ==> d.current.Some? && d.expiresAt == d.cachedAt + WeatherTtl
    }

    constructor ()
      ensures Valid() && docs == []
    {
      docs := [];
    }
  }

  /** The handler, behind the `validateCityName` middleware. `country` is
      the empty string when the path has none. `fetched` is the query sent
      to the weather service (`None`: no request was made). */
  method GetWeather(db: WeatherCache, city: string, country: string, now: int, hasApiKey: bool,
                    upstream: Upstream<WeatherReply>)
    returns (resp: WeatherResponse, fetched: Option<string>)
    requires db.Valid()
    modifies db
    ensures db.Valid()
    // the middleware answers first
    ensures ValidateCityName(city) != Next ==>
      resp == Failed(400, InvalidCityName) && fetched == None && db.docs == old(db.docs)
    // a fresh entry with readings is served without a request, even without a key
    ensures var hit := FindOne(old(db.docs), FreshFor(Trim(city), Trim(country), now));
      ValidateCityName(city) == Next && hit.Some? && hit.value.current.Some? ==>
        && resp == Report(hit.value.city, hit.value.country, hit.value.current.value, true, hit.value.cachedAt)
        && fetched == None && db.docs == old(db.docs)
    // on a miss the key is checked before any request
    ensures var hit := FindOne(old(db.docs), FreshFor(Trim(city), Trim(country), now));
      ValidateCityName(city) == Next && !(hit.Some? && hit.value.current.Some?) && !hasApiKey ==>
        resp == Failed(500, "API key not configured") && fetched == None && db.docs == old(db.docs)
    ensures var hit := FindOne(old(db.docs), FreshFor(Trim(city), Trim(country), now));
      ValidateCityName(city) == Next && !(hit.Some? && hit.value.current.Some?) && hasApiKey ==>
        && fetched == Some(Query(Trim(city), Trim(country)))
        && match upstream
          case Ok(reply) =>
            && resp == Report(reply.name, reply.country, reply.current, false, now)
            && db.docs == Upsert(old(db.docs), SameLocation(Trim(city), reply.country), Refreshed(reply, now))
          case Http(status) =>
            && resp == (if status == 404 then Failed(404, "City not found")
                        else if status == 401 then Failed(500, "Invalid API key")
                        else Failed(500, "Failed to fetch weather data"))
            && db.docs == old(db.docs)
          case Network =>
            resp == Failed(500, "Failed to fetch weather data") && db.docs == old(db.docs)
    // a cached report is never older than the time to live
    ensures resp.Report? && resp.cached ==> now - WeatherTtl < resp.lastUpdated
    // only a live report writes, and a city the service does not know is never reported
    ensures !(resp.Report? && !resp.cached) ==> db.docs == old(db.docs)
    ensures upstream == Http(404) ==> !(resp.Report? && !resp.cached)
  {
    if ValidateCityName(city) != Next {
      return Failed(400, InvalidCityName), None;
    }
    var cityName := Trim(city);
    var countryCode := Trim(country);

    var cachedWeather := FindOne(db.docs, FreshFor(cityName, countryCode, now));
    if cachedWeather.Some? && cachedWeather.value.current.Some? {
      var d := cachedWeather.value;
      return Report(d.city, d.country, d.current.value, true, d.cachedAt), None;
    }

    if !hasApiKey {
      return Failed(500, "API key not configured"), None;
    }

    var query := Query(cityName, countryCode);
    fetched := Some(query);
    match upstream {
      case Ok(reply) =>
        db.docs := Upsert(db.docs, SameLocation(cityName, reply.country), Refreshed(reply, now));
        resp := Report(reply.name, reply.country, reply.current, false, now);
      case Http(status) =>
        if status == 404 {
          resp := Failed(404, "City not found");
        } else if status == 401 {
          resp := Failed(500, "Invalid API key");
        } else {
          resp := Failed(500, "Failed to fetch weather data");
        }
      case Network =>
        resp := Failed(500, "Failed to fetch weather data");
    }
  }

  /** Freshness: when the service's name for the city and its country agree
      with the request ignoring case, the entry a fetch writes is served by
      any lookup before it expires. */
  lemma RefreshedWeatherIsServed(docs: seq<WeatherDoc>, cityName: string, countryCode: string,
                                 reply: WeatherReply, now: int, later: int)
    requires forall d :: d in docs ==> d.current.Some?
    requires EqualsIgnoreCase(reply.name, cityName)
    requires countryCode == "" || EqualsIgnoreCase(reply.country, countryCode)
    requires later < now + WeatherTtl
    ensures var r := Upsert(docs, SameLocation(cityName, reply.country), Refreshed(reply, now));
      && FindOne(r, FreshFor(cityName, countryCode, later)).Some?
      && FindOne(r, FreshFor(cityName, countryCode, later)).value.current.Some?
    // after a miss, the entry served is the refreshed one
    ensures now <= later && (forall d :: d in docs ==> !FreshFor(cityName, countryCode, now)(d)) ==>
      FindOne(Upsert(docs, SameLocation(cityName, reply.country), Refreshed(reply, now)),
              FreshFor(cityName, countryCode, later)).value == Refreshed(reply, now)
  {
    var r := Upsert(docs, SameLocation(cityName, reply.country), Refreshed(reply, now));
    var j :| 0 <= j < |r| && r[j] == Refreshed(reply, now);
    assert FreshFor(cityName, countryCode, later)(r[j]);
  }

  /** When the service answers with another name for the city ("New York"
      for "NYC"), the entry a fetch writes is never found by the same
      request, and when nothing is stored under the requested name each
      such fetch adds one more entry. */
  lemma AliasedCityIsNeverServed(docs: seq<WeatherDoc>, cityName: string, countryCode: string,
                                 reply: WeatherReply, now: int, later: int)
    requires !EqualsIgnoreCase(reply.name, cityName)
    ensures var r := Upsert(docs, SameLocation(cityName, reply.country), Refreshed(reply, now));
      forall d :: d in r && FreshFor(cityName, countryCode, later)(d) ==> d in docs
    ensures (forall d :: d in docs ==> !EqualsIgnoreCase(d.city, cityName)) ==>
      |Upsert(docs, SameLocation(cityName, reply.country), Refreshed(reply, now))| == |docs| + 1
  {
    var p := SameLocation(cityName, reply.country);
    if forall d :: d in docs ==> !EqualsIgnoreCase(d.city, cityName) {
      assert forall j :: 0 <= j < |docs| ==> !p(docs[j]);
    }
  }

  /** Two requests on an empty cache: when the first is answered live under
      the requested name, a second one for the same place within thirty
      minutes, in any letter case, gets the same report from the cache and
      makes no request, with or without an API key. */
  method WeatherCachedForHalfAnHour(city1: string, country1: string, city2: string, country2: string,
                                    now: int, elapsed: int, reply: WeatherReply,
                                    hasApiKey2: bool, laterUpstream: Upstream<WeatherReply>)
    returns (r1: WeatherResponse, r2: WeatherResponse, fetched2: Option<string>)
    requires 0 <= elapsed < WeatherTtl
    requires EqualsIgnoreCase(Trim(city1), Trim(city2)) && EqualsIgnoreCase(Trim(country1), Trim(country2))
    requires ValidateCityName(city2) == Next
    requires EqualsIgnoreCase(reply.name, Trim(city1))
    requires Trim(country1) == "" || EqualsIgnoreCase(reply.country, Trim(country1))
    ensures r1.Report? ==> r2 == r1.(cached := true) && fetched2 == None
  {
    var db := new WeatherCache();
    var fetched1;
    r1, fetched1 := GetWeather(db, city1, country1, now, true, Ok(reply));
    if r1.Report? {
      var doc := Refreshed(reply, now);
      assert db.docs == [doc];
      assert Trim(country2) == "" <==> Trim(country1) == "";
      assert FreshFor(Trim(city2), Trim(country2), now + elapsed)(doc);
      assert FindOne(db.docs, FreshFor(Trim(city2), Trim(country2), now + elapsed)) == Some(doc);
    }
    r2, fetched2 := GetWeather(db, city2, country2, now + elapsed, hasApiKey2, laterUpstream);
  }
}
