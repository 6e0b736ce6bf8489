/** routes/attractions.js: the search handler `GET /:country/:city?`
    behind the AttractionsCache collection, the details handler
    `GET /details/:attractionId`, and the built-in mock attractions. The
    search cache is keyed by the lower-cased country and city (`all` when
    there is none); an entry lives for a day; a fetch saves a new entry
    beside any old ones. Every failure degrades to mock data: neither
    handler answers with an error status. */
module AttractionsRoute {
  import opened Common
  import opened Collection

  /** One day, in milliseconds. */
  const AttractionsTtl: int := 24 * 60 * 60 * 1000

  /** Most results asked of the place service. */
  const MaxSearchResults: int := 50

  // ---------------------------------------------------------------------
  // Attractions
  // ---------------------------------------------------------------------

  /** A normalised attraction as stored and returned. Of its location only
      the address and coordinates are kept here. */
  datatype Attraction = Attraction(
    fsqId: string, name: string, categories: seq<string>, address: string,
    lat: real, lng: real, rating: real, tips: seq<string>)

  /** A tip as the place service sends it: text, or an object whose `text`
      may be empty. */
  datatype Tip = Plain(s: string) | Note(text: string)

  /** A search result as the place service sends it; `None` stands for an
      absent or falsy field. */
  datatype RawPlace = RawPlace(
    fsqId: string, name: string, categories: Option<seq<string>>, address: Option<string>,
    latitude: Option<real>, longitude: Option<real>, rating: Option<real>, tips: Option<seq<Tip>>)

  /** `tip.text || String(tip)`: an object without text prints as
      `[object Object]`. */
  function TipText(t: Tip): (r: string)
    ensures t.Note? ==> r != []
  {
    match t
    case Plain(s) => s
    case Note(text) => if text != "" then text else "[object Object]"
  }

  function TipTexts(tips: seq<Tip>): (r: seq<string>)
    ensures |r| == |tips|
    ensures forall i :: 0 <= i < |tips| ==> r[i] == TipText(tips[i])
  {
    if tips == [] then [] else [TipText(tips[0])] + TipTexts(tips[1..])
  }

  /** The tips with empty texts dropped, in their order. */
  function NonEmpty(texts: seq<string>): (r: seq<string>)
    ensures |r| <= |texts|
    ensures forall i :: 0 <= i < |r| ==> r[i] != "" && r[i] in texts
    ensures forall i :: 0 <= i < |texts| && texts[i] != "" ==> texts[i] in r
  {
    if texts == [] then []
    else (if texts[0] != "" then [texts[0]] else []) + NonEmpty(texts[1..])
  }

  function OrElse<T>(o: Option<T>, default: T): T
  {
    if o.Some? then o.value else default
  }

  /** The normalisation of one search result. */
  function Normalise(p: RawPlace): (a: Attraction)
    ensures a.fsqId == p.fsqId && a.name == p.name
    ensures p.address.None? ==> a.address == ""
    ensures p.latitude.None? ==> a.lat == 0.0
    ensures p.longitude.None? ==> a.lng == 0.0
    ensures p.rating.None? ==> a.rating == 0.0
    ensures forall t :: t in a.tips ==> t != ""
  {
    Attraction(
      p.fsqId, p.name, OrElse(p.categories, []), OrElse(p.address, ""),
      OrElse(p.latitude, 0.0), OrElse(p.longitude, 0.0), OrElse(p.rating, 0.0),
      if p.tips.Some? then NonEmpty(TipTexts(p.tips.value)) else [])
  }

  function NormaliseAll(ps: seq<RawPlace>): (r: seq<Attraction>)
    ensures |r| == |ps|
    ensures forall i :: 0 <= i < |ps| ==> r[i] == Normalise(ps[i])
  {
    if ps == [] then [] else [Normalise(ps[0])] + NormaliseAll(ps[1..])
  }

  // ---------------------------------------------------------------------
  // Mock attractions
  // ---------------------------------------------------------------------

  /** The characters of a mock id: lower-case letters, digits and `_`. */
  predicate IdChar(c: char)
  {
    IsLowerAscii(c) || ('0' <= c <= '9') || c == '_'
  }

  /** A mock id: `mock_` followed by id characters only. */
  predicate IsMockId(id: string)
  {
    StartsWith(id, "mock_") && forall k :: 0 <= k < |id| ==> IdChar(id[k])
  }

  /** The fields of one mock attraction besides its id. */
  datatype MockPlace = MockPlace(
    name: string, category: string, address: string, lat: real, lng: real, rating: real,
    tip1: string, tip2: string)

  function MockAttraction(id: string, p: MockPlace): Attraction
  {
    Attraction(id, p.name, [p.category], p.address, p.lat, p.lng, p.rating, [p.tip1, p.tip2])
  }

  /** What every mock list is: three attractions with distinct mock ids. */
  predicate MockList(r: seq<Attraction>)
  {
    && |r| == 3
    && (forall i :: 0 <= i < |r| ==> IsMockId(r[i].fsqId))
    && (forall i, j :: 0 <= i < j < |r| ==> r[i].fsqId != r[j].fsqId)
  }

  /** Three mock attractions with ids `mock_<code>_1` to `mock_<code>_3`. */
  function MockTriple(code: string, p1: MockPlace, p2: MockPlace, p3: MockPlace): (r: seq<Attraction>)
    requires forall k :: 0 <= k < |code| ==> IdChar(code[k])
    ensures MockList(r)
    ensures p1.address == p2.address == p3.address ==> forall i :: 0 <= i < |r| ==> r[i].address == p1.address
  {
    var base := "mock_" + code + "_";
    var ids := [base + "1", base + "2", base + "3"];
    assert forall i :: 0 <= i < 3 ==> ids[i][..5] == "mock_" && ids[i][|base|] == "123"[i];
    [MockAttraction(ids[0], p1), MockAttraction(ids[1], p2), MockAttraction(ids[2], p3)]
  }

  /** The countries with their own mock attractions. */
  const MockCountries: set<string> :=
    {"australia", "japan", "france", "italy", "united kingdom", "spain", "germany", "malaysia"}

  function DefaultPlaces(country: string): (r: (MockPlace, MockPlace, MockPlace))
    ensures r.0.address == r.1.address == r.2.address == country
  {
    (
      MockPlace("Local Museum", "Museum", country, 0.0, 0.0, 8.0, "Popular local attraction", "Learn about local history"),
      MockPlace("City Center", "Plaza", country, 0.0, 0.0, 7.5, "Heart of the city", "Great for walking"),
      MockPlace("Local Park", "Park", country, 0.0, 0.0, 7.8, "Perfect for relaxation", "Family-friendly"))
  }

  /** The three places shown for a country with its own mock attractions. */
  function KnownPlaces(country: string): (MockPlace, MockPlace, MockPlace)
    requires country in MockCountries
  {
    if country == "australia" then (
      MockPlace("Sydney Opera House", "Performing Arts Venue", "Sydney, Australia", -33.8568, 151.2153, 9.5, "Iconic architecture", "Book tours in advance"),
      MockPlace("Uluru", "Mountain", "Northern Territory, Australia", -25.3444, 131.0369, 9.8, "Sacred Aboriginal site", "Best at sunrise/sunset"),
      MockPlace("Great Barrier Reef", "Natural Feature", "Queensland, Australia", -18.2871, 147.6992, 9.7, "World heritage site", "Great for snorkeling"))
    else if country == "japan" then (
      MockPlace("Tokyo Tower", "Tower", "Tokyo, Japan", 35.6586, 139.7454, 8.5, "Great city views", "Visit at night for illumination"),
      MockPlace("Fushimi Inari Taisha", "Temple", "Kyoto, Japan", 34.9671, 135.7727, 9.2, "Famous for thousands of torii gates", "Early morning visit recommended"),
      MockPlace("Mount Fuji", "Mountain", "Honshu, Japan", 35.3606, 138.7274, 9.8, "Iconic symbol of Japan", "Best views from Lake Kawaguchi"))
    else if country == "france" then (
      MockPlace("Eiffel Tower", "Monument", "Paris, France", 48.8584, 2.2945, 9.0, "Iconic Parisian landmark", "Beautiful at night with lights"),
      MockPlace("Louvre Museum", "Museum", "Paris, France", 48.8606, 2.3376, 9.3, "Home to Mona Lisa", "Book tickets online to avoid queues"),
      MockPlace("Palace of Versailles", "Palace", "Versailles, France", 48.8049, 2.1204, 9.1, "Stunning gardens", "Allow full day for visit"))
    else if country == "italy" then (
      MockPlace("Colosseum", "Historic Site", "Rome, Italy", 41.8902, 12.4922, 9.2, "Ancient Roman amphitheater", "Book skip-the-line tickets"),
      MockPlace("Leaning Tower of Pisa", "Tower", "Pisa, Italy", 43.7230, 10.3966, 8.7, "Famous tilted tower", "Climb to the top for views"),
      MockPlace("Venice Canals", "Waterway", "Venice, Italy", 45.4408, 12.3155, 9.4, "Romantic gondola rides", "Visit St. Marks Square"))
    else if country == "united kingdom" then (
      MockPlace("Big Ben", "Clock Tower", "London, UK", 51.4994, -0.1245, 8.8, "Iconic London landmark", "Great for photos"),
      MockPlace("Tower Bridge", "Bridge", "London, UK", 51.5055, -0.0754, 8.9, "Victorian Gothic bridge", "Walk across glass floor"),
      MockPlace("Stonehenge", "Historic Site", "Wiltshire, UK", 51.1789, -1.8262, 8.5, "Prehistoric stone circle", "Audio guide recommended"))
    else if country == "spain" then (
      MockPlace("Sagrada Familia", "Church", "Barcelona, Spain", 41.4036, 2.1744, 9.3, "Gaud\U{ED} masterpiece", "Book timed entry tickets"),
      MockPlace("Alhambra", "Palace", "Granada, Spain", 37.1773, -3.5986, 9.5, "Moorish palace complex", "Advance booking essential"),
      MockPlace("Park G\U{FC}ell", "Park", "Barcelona, Spain", 41.4145, 2.1527, 8.9, "Colorful mosaic art", "Great city views"))
    else if country == "germany" then (
      MockPlace("Brandenburg Gate", "Monument", "Berlin, Germany", 52.5163, 13.3777, 8.7, "Symbol of German reunification", "Free to visit"),
      MockPlace("Neuschwanstein Castle", "Castle", "Bavaria, Germany", 47.5576, 10.7498, 9.1, "Fairy-tale castle", "Inspired Disney castle"),
      MockPlace("Cologne Cathedral", "Cathedral", "Cologne, Germany", 50.9413, 6.9583, 8.8, "Gothic architecture", "Climb 533 steps to top"))
    else (
      MockPlace("Petronas Twin Towers", "Skyscraper", "Kuala Lumpur, Malaysia", 3.1579, 101.7116, 8.6, "Iconic KL landmark", "Sky bridge connects towers"),
      MockPlace("Batu Caves", "Cave", "Selangor, Malaysia", 3.2379, 101.6840, 8.3, "Hindu temple in limestone cave", "272 colorful steps to climb"),
      MockPlace("George Town", "Historic District", "Penang, Malaysia", 5.4148, 100.3292, 8.9, "UNESCO World Heritage site", "Famous street art"))
  }

  /** The id code of a country's mock attractions. */
  function MockCode(country: string): (code: string)
    ensures forall k :: 0 <= k < |code| ==> IdChar(code[k])
  {
    if country == "australia" then "au"
    else if country == "japan" then "jp"
    else if country == "france" then "fr"
    else if country == "italy" then "it"
    else if country == "united kingdom" then "uk"
    else if country == "spain" then "es"
    else if country == "germany" then "de"
    else if country == "malaysia" then "my"
    else "default"
  }

  /** `getMockAttractions`: three attractions for each known (lower-cased)
      country name, and three generic ones, whose address is the country
      text, for any other. */
  function GetMockAttractions(country: string): (r: seq<Attraction>)
    ensures MockList(r)
    ensures country !in MockCountries ==> forall i :: 0 <= i < |r| ==> r[i].address == country
  {
    if country in MockCountries then
      var places := KnownPlaces(country);
      MockTriple(MockCode(country), places.0, places.1, places.2)
    else
      var places := DefaultPlaces(country);
      MockTriple("default", places.0, places.1, places.2)
  }

  // ---------------------------------------------------------------------
  // The limit parameter
  // ---------------------------------------------------------------------

  /** The `limit` query parameter: absent, empty, text that `parseInt`
      reads as the integer `n`, or text it cannot read. */
  datatype LimitParam = Absent | Empty | Digits(n: int) | NotNumber

  /** `parseInt(limit)` after the default `limit = 20`, which only an
      absent parameter takes (`None` is NaN). */
  function SearchLimit(l: LimitParam): Option<int>
  {
    match l
    case Absent => Some(20)
    case Empty => None
    case Digits(n) => Some(n)
    case NotNumber => None
  }

  /** `parseInt(req.query.limit || 20)` of the error paths, where an empty
      parameter also falls back to 20. */
  function FallbackLimit(l: LimitParam): (r: Option<int>)
    ensures l != Empty ==> r == SearchLimit(l)
  {
    match l
    case Absent => Some(20)
    case Empty => Some(20)
    case Digits(n) => Some(n)
    case NotNumber => None
  }

  /** `Math.min(limit, 50)`; NaN stays NaN. */
  function ServiceLimit(limit: Option<int>): (r: Option<int>)
    ensures r.None? <==> limit.None?
    ensures r.Some? ==> r.value <= MaxSearchResults && (r.value == limit.value || r.value == MaxSearchResults)
  {
    match limit
    case None => None
    case Some(n) => Some(if n < MaxSearchResults then n else MaxSearchResults)
  }

  /** `s.slice(0, end)`: a negative end counts from the back, NaN is 0. */
  function SliceTo<T>(s: seq<T>, end: Option<int>): (r: seq<T>)
    ensures |r| <= |s| && r == s[..|r|]
    ensures end.None? ==> r == []
    ensures end.Some? && 0 <= end.value ==> |r| == if end.value < |s| then end.value else |s|
    ensures end.Some? && end.value < 0 ==> |r| == if |s| + end.value < 0 then 0 else |s| + end.value
  {
    match end
    case None => []
    case Some(n) =>
      if n >= 0 then (if n < |s| then s[..n] else s)
      else if |s| + n < 0 then [] else s[..|s| + n]
  }

  // ---------------------------------------------------------------------
  // Search
  // ---------------------------------------------------------------------

  /** An AttractionsCache document. */
  datatype AttractionsDoc = AttractionsDoc(
    country: string, city: string, searchQuery: string, attractions: seq<Attraction>,
    cachedAt: int, expiresAt: int)

  /** The city part of the key; the empty string is an absent city. */
  function CityKey(city: string): string
  {
    if city != "" then ToLower(city) else "all"
  }

  /** `City, Country`, or the country alone. */
  function SearchLocation(country: string, city: string): string
  {
    if city != "" then city + ", " + country else country
  }

  /** The lookup filter. */
  function FreshEntry(country: string, city: string, now: int): AttractionsDoc -> bool
  {
    (d: AttractionsDoc) => d.country == country && d.city == city && d.expiresAt > now
  }

  /** A search request as sent: `near` and `limit`. */
  datatype SearchRequest = SearchRequest(near: string, limit: Option<int>)

  /** Where the attractions came from, with what the reply adds. */
  datatype Source =
    | FromCache(lastUpdated: int)
    | Live(limit: Option<int>)
    | MockNoKey
    | MockInvalidKey
    | MockAfterError

  /** The JSON reply; its status is always 200. */
  datatype SearchResponse = SearchResponse(
    location: string, attractions: seq<Attraction>, total: int, cached: bool, source: Source)

  /** The mock reply of a degraded search. */
  function MockResponse(country: string, city: string, limit: Option<int>, source: Source): (r: SearchResponse)
    ensures r.total == 3 && !r.cached && |r.attractions| <= 3
    ensures forall a :: a in r.attractions ==> IsMockId(a.fsqId)
  {
    var mock := GetMockAttractions(ToLower(country));
    var shown := SliceTo(mock, limit);
    assert forall a :: a in shown ==> a in mock;
    SearchResponse(SearchLocation(country, city), shown, |mock|, false, source)
  }

  class AttractionsCache {
    var docs: seq<AttractionsDoc>

    /** Keys are stored lower-cased and every entry lives for one day. */
    ghost predicate Valid()
      reads this
    {
      forall d :: d in docs ==>
        d.country == ToLower(d.country) && d.city == ToLower(d.city)
        && d.expiresAt == d.cachedAt + AttractionsTtl
    }

    constructor ()
      ensures Valid() && docs == []
    {
      docs := [];
    }
  }

  /** The search handler. `city` is the empty string when the path has
      none. `fetched` is the search sent to the place service (`None`: no
      request was made). */
  method Search(db: AttractionsCache, country: string, city: string, limit: LimitParam, now: int,
                hasApiKey: bool, upstream: Upstream<seq<RawPlace>>)
    returns (resp: SearchResponse, fetched: Option<SearchRequest>)
    requires db.Valid()
    modifies db
    ensures db.Valid()
    // a fresh entry for the key is served, sliced to the limit, with the full count
    ensures var hit := FindOne(old(db.docs), FreshEntry(ToLower(country), CityKey(city), now));
      hit.Some? ==>
        && resp == SearchResponse(SearchLocation(country, city), SliceTo(hit.value.attractions, SearchLimit(limit)),
                                  |hit.value.attractions|, true, FromCache(hit.value.cachedAt))
        && fetched == None && db.docs == old(db.docs)
    // without a key: mock data, no request
    ensures var hit := FindOne(old(db.docs), FreshEntry(ToLower(country), CityKey(city), now));
      hit.None? && !hasApiKey ==>
        resp == MockResponse(country, city, SearchLimit(limit), MockNoKey) && fetched == None && db.docs == old(db.docs)
    // with a key: one request for at most 50 results
    ensures var hit := FindOne(old(db.docs), FreshEntry(ToLower(country), CityKey(city), now));
      hit.None? && hasApiKey ==>
        && fetched == Some(SearchRequest(SearchLocation(country, city), ServiceLimit(SearchLimit(limit))))
        && match upstream
          case Ok(places) =>
            && resp == SearchResponse(SearchLocation(country, city), NormaliseAll(places), |places|, false, Live(SearchLimit(limit)))
            && db.docs == old(db.docs) + [AttractionsDoc(ToLower(country), CityKey(city), SearchLocation(country, city),
                                                         NormaliseAll(places), now, now + AttractionsTtl)]
          case Http(status) =>
            && resp == MockResponse(country, city, FallbackLimit(limit), if status == 401 then MockInvalidKey else MockAfterError)
            && db.docs == old(db.docs)
          case Network =>
            resp == MockResponse(country, city, FallbackLimit(limit), MockAfterError) && db.docs == old(db.docs)
    // only a live search writes, and then it adds one entry and keeps the rest
    ensures resp.source.Live? ==> |db.docs| == |old(db.docs)| + 1 && db.docs[..|old(db.docs)|] == old(db.docs)
    ensures !resp.source.Live? ==> db.docs == old(db.docs)
  {
    var searchLocation := SearchLocation(country, city);
    var key := ToLower(country);
    var cityKey := CityKey(city);

    var cachedAttractions := FindOne(db.docs, FreshEntry(key, cityKey, now));
    if cachedAttractions.Some? {
      var d := cachedAttractions.value;
      return SearchResponse(searchLocation, SliceTo(d.attractions, SearchLimit(limit)), |d.attractions|, true, FromCache(d.cachedAt)), None;
    }

    if !hasApiKey {
      return MockResponse(country, city, SearchLimit(limit), MockNoKey), None;
    }

    fetched := Some(SearchRequest(searchLocation, ServiceLimit(SearchLimit(limit))));
    match upstream {
      case Ok(places) =>
        var processed := NormaliseAll(places);
        LowerIdempotent(country);
        LowerIdempotent(city);
        db.docs := db.docs + [AttractionsDoc(key, cityKey, searchLocation, processed, now, now + AttractionsTtl)];
        resp := SearchResponse(searchLocation, processed, |processed|, false, Live(SearchLimit(limit)));
      case Http(status) =>
        if status == 401 {
          resp := MockResponse(country, city, FallbackLimit(limit), MockInvalidKey);
        } else {
          resp := MockResponse(country, city, FallbackLimit(limit), MockAfterError);
        }
      case Network =>
        resp := MockResponse(country, city, FallbackLimit(limit), MockAfterError);
    }
  }

  /** A saved search is found by the same key until it expires, whatever
      else the collection holds. */
  lemma SavedSearchIsFound(docs: seq<AttractionsDoc>, doc: AttractionsDoc, later: int)
    requires later < doc.expiresAt
    ensures FindOne(docs + [doc], FreshEntry(doc.country, doc.city, later)).Some?
    // after a miss, the entry served is the saved one
    ensures doc.cachedAt <= later && (forall d :: d in docs ==> !FreshEntry(doc.country, doc.city, doc.cachedAt)(d)) ==>
      FindOne(docs + [doc], FreshEntry(doc.country, doc.city, later)).value == doc
  {
    var r := docs + [doc];
    assert FreshEntry(doc.country, doc.city, later)(r[|docs|]);
  }

  /** A city literally named "all", in any case, shares the entry of the
      country-wide search. */
  lemma CityNamedAllSharesCountryEntry(city: string)
    requires EqualsIgnoreCase(city, "all")
    ensures CityKey(city) == CityKey("")
  {
    assert ToLower("all") == "all";
  }

  /** Two searches on an empty cache: when the first is answered live, a
      second one for the same country and city within the day, in any
      letter case, is answered from the cache with the same attractions cut
      to its own limit, and makes no request, with or without a key. */
  method SearchCachedForADay(country1: string, city1: string, country2: string, city2: string,
                             limit1: LimitParam, limit2: LimitParam, now: int, elapsed: int,
                             places: seq<RawPlace>, hasApiKey2: bool, laterUpstream: Upstream<seq<RawPlace>>)
    returns (r1: SearchResponse, r2: SearchResponse, fetched2: Option<SearchRequest>)
    requires 0 <= elapsed < AttractionsTtl
    requires EqualsIgnoreCase(country1, country2) && EqualsIgnoreCase(city1, city2)
    requires city1 == "" <==> city2 == ""
    ensures r1.source.Live? ==>
      && r2.cached && fetched2 == None
      && r2.attractions == SliceTo(r1.attractions, SearchLimit(limit2))
      && r2.total == r1.total
  {
    var db := new AttractionsCache();
    var fetched1;
    r1, fetched1 := Search(db, country1, city1, limit1, now, true, Ok(places));
    if r1.source.Live? {
      SavedSearchIsFound([], db.docs[0], now + elapsed);
      assert db.docs == [] + [db.docs[0]];
    }
    r2, fetched2 := Search(db, country2, city2, limit2, now + elapsed, hasApiKey2, laterUpstream);
  }

  // ---------------------------------------------------------------------
  // Details
  // ---------------------------------------------------------------------

  /** `attractionId.split(',')[0].trim()`. */
  function CleanId(attractionId: string): (r: string)
    ensures ',' !in r
    ensures r != [] ==> !IsJsSpace(r[0]) && !IsJsSpace(r[|r| - 1])
  {
    var r := Trim(BeforeComma(attractionId));
    assert forall i :: 0 <= i < |r| ==> r[i] in BeforeComma(attractionId);
    TrimIdempotent(BeforeComma(attractionId));
    r
  }

  /** Cleaning an already clean id changes nothing. */
  lemma CleanIdIdempotent(attractionId: string)
    ensures CleanId(CleanId(attractionId)) == CleanId(attractionId)
  {
    var c := CleanId(attractionId);
    assert BeforeComma(c) == c;
    TrimIdempotent(BeforeComma(attractionId));
  }

  datatype Photo = Photo(url: string, width: int, height: int)

  datatype RawPhoto = RawPhoto(prefix: string, suffix: string)

  /** A place as the details service sends it; `None` stands for an absent
      or falsy field, or for tips or photos that are not a list. */
  datatype RawDetails = RawDetails(
    fsqId: string, name: string, categories: Option<seq<string>>, rating: Option<real>,
    description: Option<string>, website: Option<string>,
    photos: Option<seq<RawPhoto>>, tips: Option<seq<Tip>>)

  /** The `attraction` of the details reply. */
  datatype Details = Details(
    id: string, name: string, categories: seq<string>, rating: real, description: string,
    website: string, photos: seq<Photo>, tips: seq<string>)

  /** Which `attraction` the details reply carries: a place from the
      service, or one of the sample records, which differ only in their id. */
  datatype DetailsReply =
    | Place(details: Details)
    | Sample(id: string)
    | KeyRequired(id: string)
    | InvalidKey(id: string)
    | Unavailable(id: string)

  /** The details reply, always with status 200, and the place requested
      from the service (`None`: no request was made). */
  datatype DetailsOutcome = DetailsOutcome(reply: DetailsReply, fetched: Option<string>)

  function PhotoAt300x200(p: RawPhoto): (r: Photo)
    ensures StartsWith(r.url, p.prefix) && EndsWith(r.url, p.suffix)
    ensures r.width == 300 && r.height == 200
  {
    var url := p.prefix + "300x200" + p.suffix;
    assert url[..|p.prefix|] == p.prefix;
    assert url[|url| - |p.suffix|..] == p.suffix;
    Photo(url, 300, 200)
  }

  /** The first three photos, resized. */
  function DetailPhotos(photos: seq<RawPhoto>): (r: seq<Photo>)
    ensures |r| == if |photos| < 3 then |photos| else 3
    ensures forall i :: 0 <= i < |r| ==> r[i] == PhotoAt300x200(photos[i])
  {
    var shown := if |photos| < 3 then photos else photos[..3];
    seq(|shown|, i requires 0 <= i < |shown| => PhotoAt300x200(shown[i]))
  }

  /** The tips kept: non-empty ones that `english` accepts, in order. */
  function EnglishTips(texts: seq<string>, english: string -> bool): (r: seq<string>)
    ensures |r| <= |texts|
    ensures forall i :: 0 <= i < |r| ==> r[i] != "" && english(r[i]) && r[i] in texts
    ensures forall i :: 0 <= i < |texts| && texts[i] != "" && english(texts[i]) ==> texts[i] in r
  {
    if texts == [] then []
    else (if texts[0] != "" && english(texts[0]) then [texts[0]] else []) + EnglishTips(texts[1..], english)
  }

  /** The first five English tips. */
  function DetailTips(tips: seq<Tip>, english: string -> bool): (r: seq<string>)
    ensures |r| <= 5 && |r| <= |EnglishTips(TipTexts(tips), english)|
    ensures forall t :: t in r ==> t != "" && english(t)
    ensures r == EnglishTips(TipTexts(tips), english)[..|r|]
    ensures |EnglishTips(TipTexts(tips), english)| >= 5 ==> |r| == 5
  {
    var kept := EnglishTips(TipTexts(tips), english);
    if |kept| <= 5 then kept else kept[..5]
  }

  function Normalised(a: RawDetails, english: string -> bool): (d: Details)
    ensures d.id == a.fsqId && |d.photos| <= 3 && |d.tips| <= 5
  {
    Details(
      a.fsqId, a.name, OrElse(a.categories, []), OrElse(a.rating, 0.0),
      OrElse(a.description, ""), OrElse(a.website, ""),
      if a.photos.Some? then DetailPhotos(a.photos.value) else [],
      if a.tips.Some? then DetailTips(a.tips.value, english) else [])
  }

  const TouristAttraction: seq<string> := ["Tourist Attraction"]

  /** The `attraction` object a reply carries. */
  function AttractionJson(reply: DetailsReply): Details
  {
    match reply
    case Place(details) => details
    case Sample(id) =>
      Details(id, "Sample Attraction", TouristAttraction, 8.5,
        "This is a sample attraction for testing purposes.", "https://example.com",
        [Photo("https://via.placeholder.com/300x200?text=Sample+Photo", 300, 200)],
        ["This is a sample attraction for testing.", "Great place to visit!"])
    case KeyRequired(id) =>
      Details(id, "Attraction Details (API Key Required)", TouristAttraction, 8.0,
        "Foursquare API key is required to load attraction details.", "", [],
        ["Add FOURSQUARE_API_KEY to .env file to get real attraction details.",
         "Get your free API key from: https://developer.foursquare.com/"])
    case InvalidKey(id) =>
      Details(id, "Attraction Details (Invalid API Key)", TouristAttraction, 7.5,
        "Please check your FOURSQUARE_API_KEY in .env file.", "", [],
        ["Get your free API key from: https://developer.foursquare.com/"])
    case Unavailable(id) =>
      Details(id, "Sample Attraction (Details Unavailable)", TouristAttraction, 7.5,
        "Details could not be loaded at this time. This is sample data.", "", [],
        ["Details temporarily unavailable due to API error.", "This is sample data for testing."])
  }

  /** The reply to a request the service answered, refused or failed. The
      invalid-key record echoes the id as requested, not cleaned. */
  function ServiceReply(attractionId: string, upstream: Upstream<RawDetails>, english: string -> bool): (r: DetailsReply)
    ensures upstream.Ok? ==> r == Place(Normalised(upstream.data, english))
    ensures upstream == Http(401) ==> r == InvalidKey(attractionId)
    ensures !upstream.Ok? && upstream != Http(401) ==> r == Unavailable(CleanId(attractionId))
  {
    match upstream
    case Ok(a) => Place(Normalised(a, english))
    case Http(status) =>
      if status == 401 then InvalidKey(attractionId) else Unavailable(CleanId(attractionId))
    case Network => Unavailable(CleanId(attractionId))
  }

  /** The details handler. `english` stands for the English-tip test. */
  function GetDetails(attractionId: string, hasApiKey: bool, upstream: Upstream<RawDetails>,
                      english: string -> bool): (r: DetailsOutcome)
    // a mock id is answered with the sample, without a request
    ensures var clean := CleanId(attractionId);
      StartsWith(clean, "mock_") ==> r == DetailsOutcome(Sample(clean), None)
    // otherwise the key is checked before the one request, for the cleaned id
    ensures var clean := CleanId(attractionId);
      !StartsWith(clean, "mock_") && !hasApiKey ==> r == DetailsOutcome(KeyRequired(clean), None)
    ensures var clean := CleanId(attractionId);
      !StartsWith(clean, "mock_") && hasApiKey ==>
        r == DetailsOutcome(ServiceReply(attractionId, upstream, english), Some(clean))
    // a request goes out for an id without a comma or outer white space
    ensures r.fetched.Some? ==> ',' !in r.fetched.value && hasApiKey
    // a place is only shown when the service sent it, cut to three photos and five tips
    ensures r.reply.Place? ==>
      && upstream.Ok? && r.reply.details.id == upstream.data.fsqId
      && |r.reply.details.photos| <= 3 && |r.reply.details.tips| <= 5
  {
    var cleanAttractionId := CleanId(attractionId);
    if StartsWith(cleanAttractionId, "mock_") then
      DetailsOutcome(Sample(cleanAttractionId), None)
    else if !hasApiKey then
      DetailsOutcome(KeyRequired(cleanAttractionId), None)
    else
      DetailsOutcome(ServiceReply(attractionId, upstream, english), Some(cleanAttractionId))
  }

  /** The details handler answers every mock id (the ids of every mock
      attraction a search returns) from its sample, without a request, with
      or without a key. */
  lemma MockIdsGetSampleDetails(id: string, hasApiKey: bool, upstream: Upstream<RawDetails>, english: string -> bool)
    requires IsMockId(id)
    ensures GetDetails(id, hasApiKey, upstream, english) == DetailsOutcome(Sample(id), None)
  {
    assert forall k :: 0 <= k < |id| ==> id[k] != ',';
    assert BeforeComma(id) == id;
    assert !IsJsSpace(id[0]) && !IsJsSpace(id[|id| - 1]);
  }
}
