/** routes/countries.js: the country list `GET /` behind a whole-table
    cache (the CountryCache collection), and `GET /:code`. A refresh clears
    the collection and inserts every fetched country with a seven-day
    expiry. When the country service fails the route answers from its
    built-in list, which it sorts in place; it never answers with an error
    status. */
module CountriesRoute {
  import opened Common
  import opened Collection
  import opened Sorting

  /** Seven days, in milliseconds. */
  const CountryTtl: int := 7 * 24 * 60 * 60 * 1000

  datatype Coordinates = Coordinates(lat: real, lng: real)

  /** A country as the list reply shows it, and as the built-in list
      holds it. */
  datatype CountryView = CountryView(
    name: string, code: string, capital: string, region: string, flag: string,
    population: int, coordinates: Coordinates)

  /** A CountryCache document. Its `subregion`, `area`, `currencies`,
      `languages` and `timezones` are always empty and are not kept. */
  datatype CountryDoc = CountryDoc(
    common: string, official: string, code: string, capital: seq<string>, region: string,
    population: int, flag: string, coordinates: Coordinates, cachedAt: int, expiresAt: int)

  /** A country as the country service sends it; `None` stands for an
      absent or falsy field. */
  datatype RawCountry = RawCountry(
    common: Option<string>, official: Option<string>, cca2: string, capital: Option<seq<string>>,
    region: Option<string>, population: Option<int>, emoji: Option<string>, latlng: Option<seq<real>>)

  // ---------------------------------------------------------------------
  // Normalisation
  // ---------------------------------------------------------------------

  function OrElse<T>(o: Option<T>, default: T): T
  {
    if o.Some? then o.value else default
  }

  /** `capital?.[0] || 'N/A'`. */
  function CapitalOf(capital: seq<string>): (r: string)
    ensures r != ""
    ensures r == "N/A" || (|capital| > 0 && r == capital[0])
  {
    if |capital| > 0 && capital[0] != "" then capital[0] else "N/A"
  }

  /** `latlng?.[i] || 0`. */
  function LatLng(latlng: Option<seq<real>>, i: nat): real
  {
    if latlng.Some? && i < |latlng.value| then latlng.value[i] else 0.0
  }

  /** The document cached for a fetched country: the official name falls
      back to the common one, and absent fields get empty defaults. */
  function ToDoc(c: RawCountry, now: int): (d: CountryDoc)
    ensures d.official == (if c.official.Some? && c.official.value != "" then c.official.value else d.common)
    ensures c.population.None? ==> d.population == 0
    ensures c.latlng.None? ==> d.coordinates == Coordinates(0.0, 0.0)
    ensures d.expiresAt == now + CountryTtl
  {
    var common := OrElse(c.common, "");
    CountryDoc(
      common,
      if c.official.Some? && c.official.value != "" then c.official.value else common,
      c.cca2, OrElse(c.capital, []), OrElse(c.region, ""), OrElse(c.population, 0), OrElse(c.emoji, ""),
      Coordinates(LatLng(c.latlng, 0), LatLng(c.latlng, 1)), now, now + CountryTtl)
  }

  function ToDocs(cs: seq<RawCountry>, now: int): (r: seq<CountryDoc>)
    ensures |r| == |cs|
    ensures forall i :: 0 <= i < |cs| ==> r[i] == ToDoc(cs[i], now)
  {
    if cs == [] then [] else [ToDoc(cs[0], now)] + ToDocs(cs[1..], now)
  }

  /** How a cached document is listed. */
  function CachedView(d: CountryDoc): CountryView
  {
    CountryView(d.common, d.code, CapitalOf(d.capital), d.region, d.flag, d.population, d.coordinates)
  }

  function CachedViews(docs: seq<CountryDoc>): (r: seq<CountryView>)
    ensures |r| == |docs|
    ensures forall i :: 0 <= i < |docs| ==> r[i] == CachedView(docs[i])
  {
    if docs == [] then [] else [CachedView(docs[0])] + CachedViews(docs[1..])
  }

  /** How a fetched country is listed. */
  function LiveView(c: RawCountry): CountryView
  {
    CountryView(OrElse(c.common, ""), c.cca2, CapitalOf(OrElse(c.capital, [])), OrElse(c.region, ""),
      OrElse(c.emoji, ""), OrElse(c.population, 0), Coordinates(LatLng(c.latlng, 0), LatLng(c.latlng, 1)))
  }

  function LiveViews(cs: seq<RawCountry>): (r: seq<CountryView>)
    ensures |r| == |cs|
    ensures forall i :: 0 <= i < |cs| ==> r[i] == LiveView(cs[i])
  {
    if cs == [] then [] else [LiveView(cs[0])] + LiveViews(cs[1..])
  }

  /** A fetched country is listed the same way live and, later, from the
      cache. */
  lemma {:induction false} LiveViewsMatchCache(cs: seq<RawCountry>, now: int)
    ensures CachedViews(ToDocs(cs, now)) == LiveViews(cs)
  {
    if cs != [] {
      LiveViewsMatchCache(cs[1..], now);
      assert ToDocs(cs, now) == [ToDoc(cs[0], now)] + ToDocs(cs[1..], now);
    }
  }

  // ---------------------------------------------------------------------
  // Ordering by name
  // ---------------------------------------------------------------------

  /** MongoDB's `sort({ 'name.common': 1 })`: binary order of the names,
      which is the order of their code points. */
  predicate NameOrder(a: CountryView, b: CountryView)
  {
    LexLeq(a.name, b.name)
  }

  lemma NameOrderIsTotalPreorder()
    ensures TotalPreorder(NameOrder)
  {
    forall x: CountryView, y: CountryView ensures NameOrder(x, y) || NameOrder(y, x) {
      LexLeqTotal(x.name, y.name);
    }
    forall x: CountryView, y: CountryView, z: CountryView | NameOrder(x, y) && NameOrder(y, z)
      ensures NameOrder(x, z)
    {
      LexLeqTransitive(x.name, y.name, z.name);
    }
  }

  /** The comparator `(a, b) => a.name.localeCompare(b.name)`, given the
      collation `collate` of the running engine (`collate(x, y)` when `x`
      sorts no later than `y`); it is not code-point order in general. */
  function LocaleOrder(collate: (string, string) -> bool): (CountryView, CountryView) -> bool
  {
    (a: CountryView, b: CountryView) => collate(a.name, b.name)
  }

  lemma LocaleOrderIsTotalPreorder(collate: (string, string) -> bool)
    requires TotalPreorder(collate)
    ensures TotalPreorder(LocaleOrder(collate))
  {
    var leq := LocaleOrder(collate);
    forall x: CountryView, y: CountryView ensures leq(x, y) || leq(y, x) {
      assert collate(x.name, y.name) || collate(y.name, x.name);
    }
    forall x: CountryView, y: CountryView, z: CountryView | leq(x, y) && leq(y, z)
      ensures leq(x, z)
    {
      assert collate(x.name, y.name) && collate(y.name, z.name);
    }
  }

  /** `r` lists `views` sorted by `leq`. */
  ghost predicate ListsSorted(r: seq<CountryView>, views: seq<CountryView>, leq: (CountryView, CountryView) -> bool)
  {
    SortedBy(r, leq) && multiset(r) == multiset(views)
  }

  /** A copy of `views` sorted by the name order `leq`. */
  method SortedByName(views: seq<CountryView>, leq: (CountryView, CountryView) -> bool) returns (r: seq<CountryView>)
    requires TotalPreorder(leq)
    ensures ListsSorted(r, views, leq)
  {
    var a := new CountryView[|views|](i requires 0 <= i < |views| => views[i]);
    assert a[..] == views;
    SortBy(a, leq);
    r := a[..];
  }

  // ---------------------------------------------------------------------
  // GET /
  // ---------------------------------------------------------------------

  /** Where a list reply comes from. */
  datatype ListSource = FromCache | FromService | BuiltIn | EmergencyBuiltIn

  /** The JSON reply of `GET /`; its status is always 200. */
  datatype ListResponse = ListResponse(countries: seq<CountryView>, cached: bool, total: int, source: ListSource)

  /** The lookup filter `{ expiresAt: { $gt: now } }`. */
  function FreshAt(now: int): CountryDoc -> bool
  {
    (d: CountryDoc) => d.expiresAt > now
  }

  class CountryCache {
    var docs: seq<CountryDoc>

    /** Every document lives for seven days. */
    ghost predicate Valid()
      reads this
    {
      forall i :: 0 <= i < |docs| ==> docs[i].expiresAt == docs[i].cachedAt + CountryTtl
    }

    constructor ()
      ensures Valid() && docs == []
    {
      docs := [];
    }
  }

  /** The handler. `fallback` is the module's built-in list, which the
      fallback branches sort in place; `storeReadable` is false when the
      cache lookup itself fails. The cached list comes in MongoDB's name
      order; the live and built-in lists in the `localeCompare` order of
      the collation `collate`. */
  method ListCountries(db: CountryCache, fallback: array<CountryView>, now: int, storeReadable: bool,
                       upstream: Upstream<seq<RawCountry>>, collate: (string, string) -> bool)
    returns (resp: ListResponse)
    requires db.Valid() && TotalPreorder(collate)
    modifies db, fallback
    ensures db.Valid()
    // the store failing: the sorted built-in list
    ensures !storeReadable ==>
      && resp == ListResponse(fallback[..], false, fallback.Length, EmergencyBuiltIn)
      && ListsSorted(fallback[..], old(fallback[..]), LocaleOrder(collate))
      && db.docs == old(db.docs)
    // served from the cache exactly when some entry is fresh, sorted by name
    ensures var live := Where(old(db.docs), FreshAt(now));
      storeReadable && |live| > 0 ==>
        && resp.cached && resp.source == FromCache && resp.total == |live|
        && ListsSorted(resp.countries, CachedViews(live), NameOrder)
        && db.docs == old(db.docs) && fallback[..] == old(fallback[..])
    // a fetch replaces the whole table and lists the fetched countries sorted by name
    ensures storeReadable && Where(old(db.docs), FreshAt(now)) == [] && upstream.Ok? ==>
      && db.docs == ToDocs(upstream.data, now)
      && !resp.cached && resp.source == FromService && resp.total == |upstream.data|
      && ListsSorted(resp.countries, LiveViews(upstream.data), LocaleOrder(collate))
      && fallback[..] == old(fallback[..])
    // a failed fetch: the sorted built-in list
    ensures storeReadable && Where(old(db.docs), FreshAt(now)) == [] && !upstream.Ok? ==>
      && resp == ListResponse(fallback[..], false, fallback.Length, BuiltIn)
      && ListsSorted(fallback[..], old(fallback[..]), LocaleOrder(collate))
      && db.docs == old(db.docs)
  {
    NameOrderIsTotalPreorder();
    LocaleOrderIsTotalPreorder(collate);
    if !storeReadable {
      SortBy(fallback, LocaleOrder(collate));
      return ListResponse(fallback[..], false, fallback.Length, EmergencyBuiltIn);
    }
    var cachedCountries := Where(db.docs, FreshAt(now));
    if |cachedCountries| > 0 {
      var countries := SortedByName(CachedViews(cachedCountries), NameOrder);
      return ListResponse(countries, true, |cachedCountries|, FromCache);
    }
    match upstream {
      case Ok(countries) =>
        var countryDocs := ToDocs(countries, now);
        db.docs := [];
        db.docs := db.docs + countryDocs;
        var sorted := SortedByName(LiveViews(countries), LocaleOrder(collate));
        resp := ListResponse(sorted, false, |countries|, FromService);
      case _ =>
        SortBy(fallback, LocaleOrder(collate));
        resp := ListResponse(fallback[..], false, fallback.Length, BuiltIn);
    }
  }

  /** A refreshed table is served whole, from the cache, for seven days. */
  lemma RefreshedTableIsFresh(cs: seq<RawCountry>, now: int, later: int)
    requires later < now + CountryTtl
    ensures Where(ToDocs(cs, now), FreshAt(later)) == ToDocs(cs, now)
  {
    WhereAll(ToDocs(cs, now), FreshAt(later));
  }

  /** ... so for seven days the cache lists, and counts, exactly the
      fetched countries. */
  lemma RefreshedTableIsListed(cs: seq<RawCountry>, now: int, later: int)
    requires later < now + CountryTtl
    ensures |Where(ToDocs(cs, now), FreshAt(later))| == |cs|
    ensures CachedViews(Where(ToDocs(cs, now), FreshAt(later))) == LiveViews(cs)
  {
    RefreshedTableIsFresh(cs, now, later);
    LiveViewsMatchCache(cs, now);
  }

  /** A list request within a week of a refresh is answered from the
      cache with the fetched countries, in MongoDB's name order, whatever
      the country service would answer now. */
  method ListAfterRefresh(db: CountryCache, fallback: array<CountryView>, countries: seq<RawCountry>,
                          refreshedAt: int, now: int, upstream: Upstream<seq<RawCountry>>,
                          collate: (string, string) -> bool)
    returns (resp: ListResponse)
    requires db.Valid() && db.docs == ToDocs(countries, refreshedAt) && |countries| > 0
    requires refreshedAt <= now < refreshedAt + CountryTtl
    requires TotalPreorder(collate)
    modifies db, fallback
    ensures resp.cached && resp.source == FromCache && resp.total == |countries|
    ensures ListsSorted(resp.countries, LiveViews(countries), NameOrder)
    ensures db.docs == old(db.docs)
  {
    RefreshedTableIsListed(countries, refreshedAt, now);
    resp := ListCountries(db, fallback, now, true, upstream, collate);
  }

  /** Two list requests on an empty cache: when the service answers the
      first with at least one country, a second one within the week is
      answered from the cache with the same countries and the same total.
      The first reply is in `localeCompare` order and the second in
      MongoDB's code-point order, so the two orders may differ. */
  method CountriesCachedForAWeek(fallback: array<CountryView>, now: int, elapsed: int,
                                 countries: seq<RawCountry>, laterUpstream: Upstream<seq<RawCountry>>,
                                 collate: (string, string) -> bool)
    returns (r1: ListResponse, r2: ListResponse)
    requires 0 <= elapsed < CountryTtl && |countries| > 0
    requires TotalPreorder(collate)
    modifies fallback
    ensures !r1.cached && r2.cached && r2.source == FromCache && r2.total == r1.total
    ensures ListsSorted(r1.countries, LiveViews(countries), LocaleOrder(collate))
    ensures ListsSorted(r2.countries, LiveViews(countries), NameOrder)
    ensures multiset(r1.countries) == multiset(r2.countries)
  {
    var db := new CountryCache();
    assert Where(db.docs, FreshAt(now)) == [];
    r1 := ListCountries(db, fallback, now, true, Ok(countries), collate);
    r2 := ListAfterRefresh(db, fallback, countries, now, now + elapsed, laterUpstream, collate);
  }

  // ---------------------------------------------------------------------
  // GET /:code
  // ---------------------------------------------------------------------

  /** What `GET /:code` shows: a cached document as stored, or a built-in
      entry reshaped with a common and official name and a one-element
      capital list. */
  datatype CountryDetails =
    | Stored(doc: CountryDoc)
    | Reshaped(common: string, official: string, code: string, capital: seq<string>, region: string,
               population: int, flag: string, coordinates: Coordinates)

  datatype CountryResponse =
    | Found(country: CountryDetails, cached: bool)
    | Failed(status: int, error: string, message: string)

  function FreshCode(code: string, now: int): CountryDoc -> bool
  {
    (d: CountryDoc) => d.code == code && d.expiresAt > now
  }

  function CodeIs(code: string): CountryView -> bool
  {
    (c: CountryView) => c.code == code
  }

  function Reshape(c: CountryView): CountryDetails
  {
    Reshaped(c.name, c.name, c.code, [c.capital], c.region, c.population, c.flag, c.coordinates)
  }

  /** The handler: the cache, then the built-in list, then 404; the country
      service is never asked. */
  function GetCountry(docs: seq<CountryDoc>, fallback: seq<CountryView>, code: string, now: int,
                      storeReadable: bool): (r: CountryResponse)
    ensures !storeReadable ==>
      r == Failed(500, "Failed to fetch country", "Unable to fetch country data at the moment")
    // whatever is found has the upper-cased code; a cached entry is unexpired
    ensures r.Found? && r.cached ==>
      r.country.Stored? && r.country.doc in docs && r.country.doc.code == ToUpper(code) && r.country.doc.expiresAt > now
    ensures r.Found? && !r.cached ==>
      && (forall d :: d in docs ==> !FreshCode(ToUpper(code), now)(d))
      && exists c :: c in fallback && c.code == ToUpper(code) && r.country == Reshape(c)
    // 404 only when neither holds the code
    ensures storeReadable && !r.Found? ==>
      && r == Failed(404, "Country not found", "The specified country code does not exist")
      && (forall d :: d in docs ==> !FreshCode(ToUpper(code), now)(d))
      && (forall c :: c in fallback ==> c.code != ToUpper(code))
    ensures storeReadable && (exists c :: c in fallback && c.code == ToUpper(code)) ==> r.Found?
  {
    if !storeReadable then
      Failed(500, "Failed to fetch country", "Unable to fetch country data at the moment")
    else
      var upperCode := ToUpper(code);
      match FindOne(docs, FreshCode(upperCode, now))
      case Some(cachedCountry) => Found(Stored(cachedCountry), true)
      case None =>
        match FindOne(fallback, CodeIs(upperCode))
        case Some(fallbackCountry) => Found(Reshape(fallbackCountry), false)
        case None => Failed(404, "Country not found", "The specified country code does not exist")
  }

  /** The code is matched in any letter case. */
  lemma CodeCaseDoesNotMatter(docs: seq<CountryDoc>, fallback: seq<CountryView>, code1: string, code2: string,
                              now: int, storeReadable: bool)
    requires EqualsIgnoreCase(code1, code2) && |code1| == |code2|
    ensures GetCountry(docs, fallback, code1, now, storeReadable) == GetCountry(docs, fallback, code2, now, storeReadable)
  {
    UpperAgreesWithIgnoreCase(code1, code2);
  }

  // ---------------------------------------------------------------------
  // The built-in list
  // ---------------------------------------------------------------------

  function Fallback(name: string, code: string, capital: string, region: string, flag: string,
                    population: int, coordinates: Coordinates): CountryView
  {
    CountryView(name, code, capital, region, flag, population, coordinates)
  }

  /** `fallbackCountries` as the module starts with it. */
  const FallbackCountries: seq<CountryView> := [
    Fallback("Afghanistan", "AF", "Kabul", "Asia", "\U{1F1E6}\U{1F1EB}", 38928341, Coordinates(33.0, 65.0)),
    Fallback("Albania", "AL", "Tirana", "Europe", "\U{1F1E6}\U{1F1F1}", 2877800, Coordinates(41.0, 20.0)),
    Fallback("Algeria", "DZ", "Algiers", "Africa", "\U{1F1E9}\U{1F1FF}", 43851043, Coordinates(28.0, 3.0)),
    Fallback("Argentina", "AR", "Buenos Aires", "Americas", "\U{1F1E6}\U{1F1F7}", 45195777, Coordinates(-34.0, -64.0)),
    Fallback("Australia", "AU", "Canberra", "Oceania", "\U{1F1E6}\U{1F1FA}", 25499881, Coordinates(-27.0, 133.0)),
    Fallback("Austria", "AT", "Vienna", "Europe", "\U{1F1E6}\U{1F1F9}", 8917205, Coordinates(47.33, 13.33)),
    Fallback("Bangladesh", "BD", "Dhaka", "Asia", "\U{1F1E7}\U{1F1E9}", 164689383, Coordinates(24.0, 90.0)),
    Fallback("Belgium", "BE", "Brussels", "Europe", "\U{1F1E7}\U{1F1EA}", 11589616, Coordinates(50.83, 4.0)),
    Fallback("Brazil", "BR", "Bras\U{ED}lia", "Americas", "\U{1F1E7}\U{1F1F7}", 212559409, Coordinates(-14.24, -51.93)),
    Fallback("Bulgaria", "BG", "Sofia", "Europe", "\U{1F1E7}\U{1F1EC}", 6948445, Coordinates(43.0, 25.0)),
    Fallback("Cambodia", "KH", "Phnom Penh", "Asia", "\U{1F1F0}\U{1F1ED}", 16718971, Coordinates(12.0, 105.0)),
    Fallback("Canada", "CA", "Ottawa", "Americas", "\U{1F1E8}\U{1F1E6}", 38005238, Coordinates(60.0, -95.0)),
    Fallback("Chile", "CL", "Santiago", "Americas", "\U{1F1E8}\U{1F1F1}", 19116209, Coordinates(-30.0, -71.0)),
    Fallback("China", "CN", "Beijing", "Asia", "\U{1F1E8}\U{1F1F3}", 1439323774, Coordinates(35.0, 105.0)),
    Fallback("Colombia", "CO", "Bogot\U{E1}", "Americas", "\U{1F1E8}\U{1F1F4}", 50882884, Coordinates(4.0, -72.0)),
    Fallback("Croatia", "HR", "Zagreb", "Europe", "\U{1F1ED}\U{1F1F7}", 4105268, Coordinates(45.17, 15.5)),
    Fallback("Czech Republic", "CZ", "Prague", "Europe", "\U{1F1E8}\U{1F1FF}", 10708982, Coordinates(49.75, 15.5)),
    Fallback("Denmark", "DK", "Copenhagen", "Europe", "\U{1F1E9}\U{1F1F0}", 5792203, Coordinates(56.0, 10.0)),
    Fallback("Egypt", "EG", "Cairo", "Africa", "\U{1F1EA}\U{1F1EC}", 102334403, Coordinates(27.0, 30.0)),
    Fallback("Estonia", "EE", "Tallinn", "Europe", "\U{1F1EA}\U{1F1EA}", 1326539, Coordinates(59.0, 26.0)),
    Fallback("Finland", "FI", "Helsinki", "Europe", "\U{1F1EB}\U{1F1EE}", 5540718, Coordinates(64.0, 26.0)),
    Fallback("France", "FR", "Paris", "Europe", "\U{1F1EB}\U{1F1F7}", 65273512, Coordinates(46.0, 2.0)),
    Fallback("Germany", "DE", "Berlin", "Europe", "\U{1F1E9}\U{1F1EA}", 83783945, Coordinates(51.0, 9.0)),
    Fallback("Greece", "GR", "Athens", "Europe", "\U{1F1EC}\U{1F1F7}", 10423056, Coordinates(39.0, 22.0)),
    Fallback("Hungary", "HU", "Budapest", "Europe", "\U{1F1ED}\U{1F1FA}", 9660350, Coordinates(47.0, 20.0)),
    Fallback("Iceland", "IS", "Reykjavik", "Europe", "\U{1F1EE}\U{1F1F8}", 341250, Coordinates(65.0, -18.0)),
    Fallback("India", "IN", "New Delhi", "Asia", "\U{1F1EE}\U{1F1F3}", 1380004385, Coordinates(20.0, 77.0)),
    Fallback("Indonesia", "ID", "Jakarta", "Asia", "\U{1F1EE}\U{1F1E9}", 273523621, Coordinates(-5.0, 120.0)),
    Fallback("Ireland", "IE", "Dublin", "Europe", "\U{1F1EE}\U{1F1EA}", 4994724, Coordinates(53.0, -8.0)),
    Fallback("Israel", "IL", "Jerusalem", "Asia", "\U{1F1EE}\U{1F1F1}", 8655541, Coordinates(31.5, 34.75)),
    Fallback("Italy", "IT", "Rome", "Europe", "\U{1F1EE}\U{1F1F9}", 60461828, Coordinates(41.87, 12.57)),
    Fallback("Japan", "JP", "Tokyo", "Asia", "\U{1F1EF}\U{1F1F5}", 126476458, Coordinates(36.0, 138.0)),
    Fallback("Jordan", "JO", "Amman", "Asia", "\U{1F1EF}\U{1F1F4}", 10203140, Coordinates(31.0, 36.0)),
    Fallback("Kenya", "KE", "Nairobi", "Africa", "\U{1F1F0}\U{1F1EA}", 53771300, Coordinates(-1.0, 38.0)),
    Fallback("Latvia", "LV", "Riga", "Europe", "\U{1F1F1}\U{1F1FB}", 1886202, Coordinates(57.0, 25.0)),
    Fallback("Lithuania", "LT", "Vilnius", "Europe", "\U{1F1F1}\U{1F1F9}", 2722291, Coordinates(56.0, 24.0)),
    Fallback("Luxembourg", "LU", "Luxembourg", "Europe", "\U{1F1F1}\U{1F1FA}", 625976, Coordinates(49.75, 6.17)),
    Fallback("Malaysia", "MY", "Kuala Lumpur", "Asia", "\U{1F1F2}\U{1F1FE}", 32365998, Coordinates(4.21, 101.98)),
    Fallback("Mexico", "MX", "Mexico City", "Americas", "\U{1F1F2}\U{1F1FD}", 128932753, Coordinates(23.0, -102.0)),
    Fallback("Morocco", "MA", "Rabat", "Africa", "\U{1F1F2}\U{1F1E6}", 36910558, Coordinates(32.0, -5.0)),
    Fallback("Netherlands", "NL", "Amsterdam", "Europe", "\U{1F1F3}\U{1F1F1}", 17134873, Coordinates(52.5, 5.75)),
    Fallback("New Zealand", "NZ", "Wellington", "Oceania", "\U{1F1F3}\U{1F1FF}", 4822233, Coordinates(-41.0, 174.0)),
    Fallback("Norway", "NO", "Oslo", "Europe", "\U{1F1F3}\U{1F1F4}", 5421242, Coordinates(62.0, 10.0)),
    Fallback("Peru", "PE", "Lima", "Americas", "\U{1F1F5}\U{1F1EA}", 32971846, Coordinates(-10.0, -76.0)),
    Fallback("Philippines", "PH", "Manila", "Asia", "\U{1F1F5}\U{1F1ED}", 109581085, Coordinates(13.0, 122.0)),
    Fallback("Poland", "PL", "Warsaw", "Europe", "\U{1F1F5}\U{1F1F1}", 37846605, Coordinates(52.0, 20.0)),
    Fallback("Portugal", "PT", "Lisbon", "Europe", "\U{1F1F5}\U{1F1F9}", 10305564, Coordinates(39.5, -8.0)),
    Fallback("Romania", "RO", "Bucharest", "Europe", "\U{1F1F7}\U{1F1F4}", 19237682, Coordinates(46.0, 25.0)),
    Fallback("Russia", "RU", "Moscow", "Europe", "\U{1F1F7}\U{1F1FA}", 145939579, Coordinates(60.0, 100.0)),
    Fallback("Singapore", "SG", "Singapore", "Asia", "\U{1F1F8}\U{1F1EC}", 5850343, Coordinates(1.29, 103.85)),
    Fallback("Slovakia", "SK", "Bratislava", "Europe", "\U{1F1F8}\U{1F1F0}", 5459642, Coordinates(48.67, 19.5)),
    Fallback("Slovenia", "SI", "Ljubljana", "Europe", "\U{1F1F8}\U{1F1EE}", 2078932, Coordinates(46.0, 15.0)),
    Fallback("South Africa", "ZA", "Cape Town", "Africa", "\U{1F1FF}\U{1F1E6}", 59308690, Coordinates(-29.0, 24.0)),
    Fallback("South Korea", "KR", "Seoul", "Asia", "\U{1F1F0}\U{1F1F7}", 51780579, Coordinates(35.91, 127.77)),
    Fallback("Spain", "ES", "Madrid", "Europe", "\U{1F1EA}\U{1F1F8}", 46754783, Coordinates(40.0, -4.0)),
    Fallback("Sweden", "SE", "Stockholm", "Europe", "\U{1F1F8}\U{1F1EA}", 10102163, Coordinates(60.13, 18.64)),
    Fallback("Switzerland", "CH", "Bern", "Europe", "\U{1F1E8}\U{1F1ED}", 8654618, Coordinates(47.17, 8.52)),
    Fallback("Taiwan", "TW", "Taipei", "Asia", "\U{1F1F9}\U{1F1FC}", 23816775, Coordinates(23.5, 121.0)),
    Fallback("Thailand", "TH", "Bangkok", "Asia", "\U{1F1F9}\U{1F1ED}", 69799978, Coordinates(15.87, 100.99)),
    Fallback("Turkey", "TR", "Ankara", "Asia", "\U{1F1F9}\U{1F1F7}", 84339067, Coordinates(38.96, 35.24)),
    Fallback("Ukraine", "UA", "Kyiv", "Europe", "\U{1F1FA}\U{1F1E6}", 43733759, Coordinates(49.0, 32.0)),
    Fallback("United Arab Emirates", "AE", "Abu Dhabi", "Asia", "\U{1F1E6}\U{1F1EA}", 9890400, Coordinates(24.0, 54.0)),
    Fallback("United Kingdom", "GB", "London", "Europe", "\U{1F1EC}\U{1F1E7}", 67886004, Coordinates(55.38, -3.44)),
    Fallback("United States", "US", "Washington D.C.", "Americas", "\U{1F1FA}\U{1F1F8}", 331002647, Coordinates(37.09, -95.71)),
    Fallback("Uruguay", "UY", "Montevideo", "Americas", "\U{1F1FA}\U{1F1FE}", 3473727, Coordinates(-33.0, -56.0)),
    Fallback("Venezuela", "VE", "Caracas", "Americas", "\U{1F1FB}\U{1F1EA}", 28435943, Coordinates(8.0, -66.0)),
    Fallback("Vietnam", "VN", "Hanoi", "Asia", "\U{1F1FB}\U{1F1F3}", 97338583, Coordinates(14.06, 108.28))
  ]

  /** The module's array, before any request has sorted it. */
  method NewFallbackList() returns (a: array<CountryView>)
    ensures fresh(a) && a[..] == FallbackCountries
  {
    a := new CountryView[|FallbackCountries|](i requires 0 <= i < |FallbackCountries| => FallbackCountries[i]);
  }
}
