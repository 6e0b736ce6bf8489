# Travel planner: verified model of the caching routes, the travel-plan store and the plan builder

This project is a Dafny model of the core of a travel-planning web
application. The application is an Express/MongoDB back end plus browser
scripts, and the model covers:

- **Four read-through caches in front of third-party services.**
  - Current weather by city (30 minutes).
  - Attraction searches by country and city (one day, with mock data as the fallback).
  - The whole country list (seven days, cleared and re-inserted on refresh, with a built-in fallback list).
  - Exchange-rate tables by base currency (one hour).
  - Each route handler is a method over a class holding the cache collection as a `seq`. It takes the clock (`now`, in milliseconds), whether an API key is configured, and what the upstream service answered (`Ok(data)`, an HTTP status, or a network failure). It returns the JSON reply and the upstream request it issued (`None` when it issued none), so "served from cache without a request" can be stated.
- **The request validators** of `middleware/validation.js`. The collecting validators are methods that build the error list; the early-return ones are functions.
- **The TravelPlan schema and its routes.**
  - `Cast` models what `new TravelPlan(...)` and `save()` do: trimming, defaults, enum parsing and the validators.
  - The travel-plan and destination handlers are methods over a `PlanStore` class. The class keeps the invariant that every stored plan passed the validators and that ids are distinct.
- **The browser's plan builder** (`travelPlans.js`).
  - The module-level selection state is a class whose methods push, filter and reset it.
  - The pure parts are functions: the star row, the save request, the duplicate request and the plan-count label.
- **The weather icon table** of `weather.js`.

Shared modules:
- `Common`: JavaScript string behaviour (ASCII case mapping, `trim` with JavaScript's white-space set, decimal printing).
- `Collection`: the Mongo operations the routes use, over sequences. These are `findOne`, a `findOneAndUpdate` upsert, and `find` with a filter.
- `Sorting`: an in-place insertion sort on an array by a total preorder. It stands in for `Array.prototype.sort`.

Where the repository's design description and the code differ, the model follows the code:
- Attraction searches are inserted as new entries, never upserted.
- Any failure of the place service, a 404 included, falls back to mock attractions.
- A fresh exchange-rate table that lacks the target currency triggers a live fetch rather than an error.
- The weather cache stores an entry under the service's name for the city. When that name differs from the requested one (an alias), the entry is never found by a later lookup (`AliasedCityIsNeverServed`).
- The country list is one table, cleared and re-inserted, rather than keyed by code.
- The cached country list is sorted by MongoDB in code-point order. The live and built-in lists are sorted with `localeCompare`. So the same countries can come back in a different order once cached (`CountriesCachedForAWeek`).

Two behaviours of `routes/destinations.js` are modelled as written and proved:
- The TravelPlan schema has no `country.coordinates` path, so the coordinates the route assigns are dropped on save. Every destination view shows latitude and longitude 0.
- A destination added with a plain country name gets country code `''`, which the schema's `required` validator rejects. That request always ends in the 500 reply.

## Model

| member | source | states |
|---|---|---|
| Common.ToUpper | routes/countries.js:189 | upper-casing keeps the length and maps each character by ASCII case |
| Common.ToLower | routes/attractions.js:200-201 | lower-casing keeps the length and maps each character by ASCII case |
| Common.UpperIdempotent | routes/countries.js:189 | upper-casing twice is upper-casing once |
| Common.LowerIdempotent | routes/attractions.js:200-201 | lower-casing twice is lower-casing once |
| Common.UpperAgreesWithIgnoreCase | routes/weather.js:17-18 | two strings have the same upper-case form exactly when a case-insensitive match accepts them |
| Common.IgnoreCaseOfUpper | routes/weather.js:17-18 | a string matches its own upper-case form ignoring case |
| Common.Trim | middleware/validation.js:116 | the trimmed string is no longer than the input, is made of its characters, and is empty exactly when the input is all white space |
| Common.TrimStrips | middleware/validation.js:116 | the trimmed string is the input with exactly its leading and trailing white space removed: an infix with only white space before and after it |
| Common.TrimIdempotent | models/travel-plan.js:12 | a trimmed string starts and ends with non-space characters, and trimming it again changes nothing |
| Common.BeforeComma | routes/weather.js:47 | the part before the first comma is a prefix without a comma, followed by a comma when shorter than the input |
| Collection.FindOne | routes/travelPlans.js:33-36 | a found document is in the collection and matches the filter; nothing is found exactly when no document matches |
| Collection.Upsert | routes/currency.js:71-80 | the new document is stored; the count grows only when nothing matched; non-matching documents stay |
| Collection.UpsertLeavesOnlyNewMatch | routes/weather.js:72-89 | with at most one match before, the new document is the only match after |
| Collection.Where | routes/travelPlans.js:273-275 | a filter keeps only passing documents and never grows the collection |
| Collection.WhereSelects | routes/travelPlans.js:273-275 | a document is selected exactly when it is stored and passes the filter |
| Sorting.SortBy | routes/countries.js:163 | the array ends sorted by the order and is a permutation of the original |
| CurrencyRoute.RateIn | routes/currency.js:38-39 | a rate is used exactly when present and non-zero (truthy), and it is the stored value |
| CurrencyRoute.CachedRate | routes/currency.js:30-39 | a served rate comes from an unexpired document for the requested base |
| CurrencyRoute.UpsertKeepsDistinctBases | routes/currency.js:71-80 | upserting by base keeps one document per base; the new document is the only one for its base; other bases are kept |
| CurrencyRoute.RefreshedRatesAreServed | routes/currency.js:30-80 | right after a refresh, a lookup within the hour serves the refreshed rate |
| CurrencyRoute.ExpiredEntriesAreNeverServed | routes/currency.js:30-33 | when every document for a base has expired, no rate is served |
| CurrencyRoute.Convert | routes/currency.js:8-111 | 400 for missing parameters or a non-positive amount before any access. A cache hit is served without a request. A miss makes one request for the upper-cased base: result not `success` gives 400, a missing rate gives 400, an upstream 404 gives 400, another failure 500, otherwise the table is upserted with a one-hour expiry. Only a live success writes |
| CurrencyRoute.RatesCachedForAnHour | routes/currency.js:68-80 | a second conversion within the hour, for the same currencies in any case, is served from cache with no request |
| WeatherRoute.Refreshed | routes/weather.js:72-89 | the written document holds the service's name, country and readings, and expires 30 minutes after it was cached |
| WeatherRoute.Query | routes/weather.js:47 | the query is `city,country`, or the city alone without a country |
| WeatherRoute.QuerySplits | routes/weather.js:47 | for a city without commas, the query splits back into city and country |
| WeatherRoute.GetWeather | routes/weather.js:9-126 | an invalid city gets 400 first. A fresh entry with readings is served, even without a key. Otherwise a missing key gives 500 before any request, and one request is sent. 404 maps to 404, 401 to 500 "Invalid API key", other failures to 500. Only a live report writes, and a cached report is younger than 30 minutes |
| WeatherRoute.RefreshedWeatherIsServed | routes/weather.js:72-89 | when the service's name matches the requested city, a lookup within 30 minutes finds a fresh entry with readings; when the lookup that caused the refresh missed, the entry found is the refreshed one |
| WeatherRoute.AliasedCityIsNeverServed | routes/weather.js:72-89 | when the service renames the city, the stored entry does not match the requested city, so the next lookup misses |
| WeatherRoute.WeatherCachedForHalfAnHour | routes/weather.js:15-34 | a second request within 30 minutes, same city and country in any case, is served from cache with no request |
| Validation.CheckUsername | middleware/validation.js:8-14 | "too short" exactly when the trimmed name has fewer than 3 characters; "too long" exactly when the raw name has more than 30; nothing else is reported |
| Validation.EmailHasOneAt | middleware/validation.js:17 | an address the e-mail pattern accepts has exactly one `@` |
| Validation.ValidateRegistration | middleware/validation.js:3-35 | passes exactly when all checks pass; otherwise every failing check, and only those, is reported |
| Validation.TwoLetterTopLevelDomainAccepted | middleware/validation.js:17 | the pattern accepts an address with several dotted labels ending in two letters |
| Validation.FourLetterTopLevelDomainRefused | middleware/validation.js:17 | the pattern refuses a four-letter last label |
| Validation.ValidateLogin | middleware/validation.js:37-57 | passes exactly when both fields are non-empty; otherwise one error per missing field and nothing else |
| Validation.CheckPlanName | middleware/validation.js:64-70 | "required" exactly when the name is blank after trimming; "too long" exactly when it exceeds 100 characters |
| Validation.CheckCities | middleware/validation.js:73-79 | "required" exactly when `cities` is falsy, not an array, or an empty array; "too many" exactly when its `length` exceeds 10, a non-array string included; nothing else is reported |
| Validation.CheckDates | middleware/validation.js:82-101 | each missing date is reported; "end after start" is reported exactly when both dates are given and out of order; "start in the past" exactly when a start is given before now and the end is present; no error exactly when all hold |
| Validation.ValidateTravelPlan | middleware/validation.js:59-111 | passes exactly when name, cities and dates are acceptable; each error is reported exactly when its condition holds, and no other error is reported |
| Validation.ValidateCityName | middleware/validation.js:113-131 | passes exactly when the trimmed city is non-empty and the raw city has at most 50 characters; "required" is reported before "too long" |
| Validation.UpperCodeIffThreeLetters | middleware/validation.js:135-137 | the upper-cased code matches `^[A-Z]{3}$` exactly when the code is three ASCII letters in any case |
| Validation.ValidateCurrencyCode | middleware/validation.js:133-152 | passes exactly when both codes are three letters; `from` is reported before `to` |
| AttractionsRoute.TipText | routes/attractions.js:262-264 | a tip note always prints as non-empty text |
| AttractionsRoute.TipTexts | routes/attractions.js:262-264 | tips map to their texts one to one |
| AttractionsRoute.NonEmpty | routes/attractions.js:265 | exactly the non-empty tips are kept |
| AttractionsRoute.Normalise | routes/attractions.js:268-293 | the id and name are kept; a missing address, coordinate or rating defaults to empty or 0; tips are non-empty |
| AttractionsRoute.NormaliseAll | routes/attractions.js:259-294 | results are normalised one to one |
| AttractionsRoute.MockTriple | routes/attractions.js:358-406 | three attractions with distinct `mock_` ids |
| AttractionsRoute.DefaultPlaces | routes/attractions.js:402-406 | the default places carry the country string as their address |
| AttractionsRoute.MockCode | routes/attractions.js:358-400 | the id code of a mock country uses only id characters |
| AttractionsRoute.GetMockAttractions | routes/attractions.js:358-407 | every country gets three attractions with distinct mock ids; an unknown country gets the defaults addressed to it |
| AttractionsRoute.FallbackLimit | routes/attractions.js:332 | apart from an empty limit, the error paths read the limit as the search does |
| AttractionsRoute.ServiceLimit | routes/attractions.js:238 | the service is asked for the limit capped at 50; a limit that is not a number stays so |
| AttractionsRoute.SliceTo | routes/attractions.js:208 | `slice(0, end)` returns a prefix whose length follows JavaScript's rules for a negative or NaN end |
| AttractionsRoute.MockResponse | routes/attractions.js:320-353 | a degraded reply reports a total of 3, is not cached, and lists only mock ids |
| AttractionsRoute.Search | routes/attractions.js:186-355 | a fresh entry for the lower-cased key is served sliced, with the full total and no request. Without a key, mock data and no request. With a key, one request for at most 50. On success, one new entry expiring in a day is appended. A 401 or any other failure gives mock data. Only a live search writes |
| AttractionsRoute.SavedSearchIsFound | routes/attractions.js:297-306 | an inserted entry's key finds a fresh entry until it expires; when no entry for the key was fresh at insertion, the one found is the inserted entry |
| AttractionsRoute.CityNamedAllSharesCountryEntry | routes/attractions.js:201 | a city named "all" in any case shares the country-wide entry |
| AttractionsRoute.SearchCachedForADay | routes/attractions.js:199-213 | a second search within a day for the same key in any case is served from cache with no request |
| AttractionsRoute.CleanId | routes/attractions.js:16 | the cleaned id has no comma and no outer white space |
| AttractionsRoute.CleanIdIdempotent | routes/attractions.js:16 | cleaning a clean id changes nothing |
| AttractionsRoute.PhotoAt300x200 | routes/attractions.js:112-114 | a photo URL starts with the prefix and ends with the suffix, at 300 by 200 |
| AttractionsRoute.DetailPhotos | routes/attractions.js:109-116 | the first three photos, resized, in order |
| AttractionsRoute.EnglishTips | routes/attractions.js:96-104 | exactly the non-empty tips the English test accepts are kept |
| AttractionsRoute.DetailTips | routes/attractions.js:89-106 | the first five English tips, in order, and five whenever there are five |
| AttractionsRoute.Normalised | routes/attractions.js:118-134 | the details keep the id, with at most three photos and five tips |
| AttractionsRoute.ServiceReply | routes/attractions.js:137-181 | a place when the service answers; 401 gives the invalid-key sample for the raw id; any other failure gives the unavailable sample for the cleaned id |
| AttractionsRoute.GetDetails | routes/attractions.js:8-183 | a `mock_` id gets the sample with no request; without a key, the key-required sample; otherwise one request for the cleaned id; a place is shown only when sent |
| AttractionsRoute.MockIdsGetSampleDetails | routes/attractions.js:20-43 | every mock id answers with the sample and no request |
| CountriesRoute.CapitalOf | routes/countries.js:91 | the capital is the first listed one, or "N/A" |
| CountriesRoute.ToDoc | routes/countries.js:113-134 | the official name falls back to the common one; missing population and coordinates become 0; expiry is seven days after the refresh |
| CountriesRoute.ToDocs | routes/countries.js:113-134 | countries become documents one to one |
| CountriesRoute.CachedViews | routes/countries.js:88-96 | documents become views one to one |
| CountriesRoute.LiveViews | routes/countries.js:141-151 | fetched countries become views one to one |
| CountriesRoute.LiveViewsMatchCache | routes/countries.js:141-151 | a refreshed table read back from cache gives the same views as the live reply |
| CountriesRoute.NameOrderIsTotalPreorder | routes/countries.js:84 | MongoDB's code-point order of names is a total preorder |
| CountriesRoute.LocaleOrderIsTotalPreorder | routes/countries.js:152 | comparing views by `localeCompare` of their names is a total preorder whenever the collation is |
| CountriesRoute.SortedByName | routes/countries.js:152 | the views come back sorted by the given name order as a permutation of the input |
| CountriesRoute.ListCountries | routes/countries.js:79-183 | an unreadable store gives the emergency list sorted in place. At least one fresh entry: every fresh entry is served in MongoDB's name order, cached, nothing written. None: a live success replaces the table with exactly the fetched countries, served in `localeCompare` order, not cached. A failure gives the built-in list sorted by `localeCompare`. No error status |
| CountriesRoute.RefreshedTableIsFresh | routes/countries.js:133-138 | within seven days every document of a refreshed table is fresh |
| CountriesRoute.RefreshedTableIsListed | routes/countries.js:82-96 | within seven days the cache lists exactly the refreshed countries |
| CountriesRoute.ListAfterRefresh | routes/countries.js:82-100 | within seven days of a refresh the list is served from cache, with the same total and the refreshed views in MongoDB's name order |
| CountriesRoute.CountriesCachedForAWeek | routes/countries.js:79-156 | a live refresh followed by a request within the week gives a cached reply with the same total and the same views; the live reply is in `localeCompare` order and the cached one in code-point order |
| CountriesRoute.GetCountry | routes/countries.js:186-237 | 500 when the store fails. A fresh document with the upper-cased code is served as cached. Otherwise the fallback entry with that code is served. 404 when neither has it, and every fallback code is found |
| CountriesRoute.CodeCaseDoesNotMatter | routes/countries.js:189 | codes equal ignoring case get the same reply |
| CountriesRoute.NewFallbackList | routes/countries.js:8-76 | a fresh array holding the built-in countries |
| TravelPlanModel.ParsePriority | models/travel-plan.js:46-50 | exactly high, medium and low are accepted, each naming itself |
| TravelPlanModel.PriorityRoundTrip | models/travel-plan.js:46-50 | every priority parses back from its name |
| TravelPlanModel.ParseStatus | models/travel-plan.js:69-73 | exactly the four status names are accepted, each naming itself |
| TravelPlanModel.CastAttraction | models/travel-plan.js:26-51 | an attraction casts exactly when its priority is absent or valid; priority defaults to medium and addedAt to the save time |
| TravelPlanModel.CastAttractions | models/travel-plan.js:26-51 | the list casts exactly when every element does, element by element |
| TravelPlanModel.AttractionsRoundTrip | models/travel-plan.js:26-51 | stored attractions sent back cast to themselves |
| TravelPlanModel.Cast | models/travel-plan.js:3-76 | a saved plan passes the validators, has its name trimmed and fields copied, and gets the defaults: one traveller, private, USD, planning. It saves exactly when the name, country, description, travellers, status and attractions are valid |
| TravelPlansRoute.PlanStore.Insert | routes/travelPlans.js:113 | saving a valid new plan keeps the store valid and appends it |
| TravelPlansRoute.PlanStore.Replace | routes/travelPlans.js:156-160 | saving a changed valid plan under its own id keeps the store valid |
| TravelPlansRoute.PlanStore.RemoveAt | routes/travelPlans.js:310 | deleting keeps the others in order, and no plan with the deleted id remains |
| TravelPlansRoute.Locate | routes/travelPlans.js:33-36 | the located plan has the id and the caller as owner; none exactly when the caller owns no plan with that id |
| TravelPlansRoute.NewerFirstIsTotalPreorder | routes/travelPlans.js:11 | newest-first is a total preorder |
| TravelPlansRoute.ListPlans | routes/travelPlans.js:8-26 | exactly the caller's plans, newest first, with their count |
| TravelPlansRoute.GetPlan | routes/travelPlans.js:29-47 | the caller's plan with that id, or 404 exactly when there is none |
| TravelPlansRoute.CreatePlan | routes/travelPlans.js:67-127 | a missing name, country name or code gives 400 with nothing stored. A schema rejection gives 400. Otherwise 201 and exactly the cast plan appended, owned by the caller, in planning, with the trimmed name. The travellers default to 1, it is private unless asked, and with no budget the budget is 0 USD |
| TravelPlansRoute.Merge | routes/travelPlans.js:148-160 | the update never changes id, owner or creation time; updatedAt is now; every given field replaces the stored one and every absent field keeps it; the status and the attraction list are the schema casts of the given values, and the update is refused exactly when a cast fails; the name is trimmed |
| TravelPlansRoute.ApplyUpdate | routes/travelPlans.js:156-160 | an update is applied exactly when the merged plan passes the validators |
| TravelPlansRoute.UpdateRefusedOnlyForInvalidFields | routes/travelPlans.js:156-160 | on a stored plan, an update is refused exactly when a field it gives is invalid |
| TravelPlansRoute.UpdatePlan | routes/travelPlans.js:130-182 | 404 with nothing changed unless the caller owns the plan; otherwise the validated merge or 400; ids and owners are preserved |
| TravelPlansRoute.AddAttraction | routes/travelPlans.js:185-253 | 400 for incomplete data, 404 for another's plan, 400 for a duplicate id; otherwise exactly one element appended, priority medium by default |
| TravelPlansRoute.RemoveAttraction | routes/travelPlans.js:256-291 | 404 unless owned; otherwise every element with that id goes and the others keep their order |
| TravelPlansRoute.RemoveUndoesAdd | routes/travelPlans.js:273-275 | removing a just-added attraction restores the list |
| TravelPlansRoute.DeletePlan | routes/travelPlans.js:294-335 | 404 unless owned; otherwise exactly that plan is removed and its name returned |
| DestinationsRoute.ViewOf | routes/destinations.js:15-27 | a view shows the plan's name and country, counts its attractions, and shows coordinates 0 |
| DestinationsRoute.ViewsOf | routes/destinations.js:15-27 | plans become views one to one |
| DestinationsRoute.ListDestinations | routes/destinations.js:8-37 | the views of the caller's plans, newest first, all at coordinates 0 |
| DestinationsRoute.AssignedCountryOf | routes/destinations.js:64-105 | a plain country name gets code ''; a country object gets coordinates |
| DestinationsRoute.PlainCountryIsRefused | routes/destinations.js:64-82 | a destination with a plain country name never passes the schema |
| DestinationsRoute.AddDestination | routes/destinations.js:40-141 | 400 when name or country is missing, or the caller has a plan with the trimmed name. A schema rejection gives 500. Otherwise 201 with the new plan's view. A plain country name always fails |
| DestinationsRoute.Renamed | routes/destinations.js:161-163 | a truthy name replaces the plan name trimmed; a given description replaces it, even ''; updatedAt is now and nothing else changes |
| DestinationsRoute.UpdateDestination | routes/destinations.js:144-198 | 404 unless owned; a rename that fails the schema gives 500; otherwise the renamed plan is saved and shown |
| DestinationsRoute.RenameAcceptedWhenFieldsFit | routes/destinations.js:161-165 | a rename of a stored plan is saved exactly when the new name and description fit the schema |
| DestinationsRoute.DeleteDestination | routes/destinations.js:201-235 | 404 unless owned; otherwise that plan is removed |
| DestinationsRoute.WeatherSuggestion | routes/destinations.js:238-274 | 404 exactly when not owned; the suggestion names the capital, or the country when there is none |
| PlanBuilder.CategoryOf | travelPlans.js:334 | the category is never empty: the first one, or 'Attraction' |
| PlanBuilder.SelectionOf | travelPlans.js:331-346 | the selection keeps the result's id and name and leaves priority and addedAt to the server |
| PlanBuilder.PlanCreation.AddToSelection | travelPlans.js:328-351 | an id not among the results changes nothing; otherwise exactly one entry is appended |
| PlanBuilder.PlanCreation.RemoveFromSelection | travelPlans.js:354-362 | every entry with the id is removed and the others keep their order |
| PlanBuilder.PlanCreation.ResetPlanCreation | travelPlans.js:657-659 | the selection, results and country are cleared |
| PlanBuilder.PlanCreation.SaveRequest | travelPlans.js:591-621 | a request is sent exactly when the trimmed name is non-empty, a country is chosen, and there are attractions or the user confirms; it carries the selection, one traveller, private, no budget |
| PlanBuilder.SavedPlanIsCreated | routes/travelPlans.js:84-111 | such a request is stored exactly when the schema's limits hold, as a private one-traveller plan in planning with budget 0 USD |
| PlanBuilder.ClampedRating | travelPlans.js:294 | the rating is clamped into 0..10 |
| PlanBuilder.Stars | travelPlans.js:294-297 | full stars are in 0..5, full plus empty is 5, and each full star stands for two points of the clamped rating |
| PlanBuilder.StarsMonotone | travelPlans.js:294-297 | a higher rating never shows fewer stars |
| PlanBuilder.RatingLine | travelPlans.js:306-311 | the rating line appears exactly when the rating is positive |
| PlanBuilder.DuplicateIsACopy | travelPlans.js:849-887 | the copy of a stored plan is accepted exactly when the original name has at most 92 characters, and it keeps country, description, attractions, travellers, tags and notes, with no dates, private, planning, budget 0 USD |
| PlanBuilder.CopyNameIsTrimmed | travelPlans.js:861 | "Copy of " before a trimmed name is already trimmed |
| PlanBuilder.DuplicateDraft | routes/travelPlans.js:91-111 | the create handler turns the duplicate request into a draft with the stored fields and the defaults |
| Common.NatToString | travelPlans.js:910 | a count prints as decimal digits with no leading zero whose decimal value is the count |
| PlanBuilder.CountLabel | travelPlans.js:908-913 | the label starts with the count's decimal text and a space; it ends in "travel plan created" exactly when the count is 1, and in "travel plans created" otherwise |
| WeatherIcons.TableIcon | weather.js:45-64 | the table knows exactly the nine groups by day and by night, and holds only its listed classes |
| WeatherIcons.WeatherIcon | weather.js:44-66 | the class is one of the table's or the default, and an unknown or absent code gets 'fas fa-cloud' |
| WeatherIcons.ClearSky | weather.js:46-47 | 01d is the sun and 01n the moon |
| WeatherIcons.DayAndNightAgree | weather.js:50-63 | groups 03, 04, 09, 11, 13 and 50 look the same by day and night |
| WeatherIcons.DayAndNightDiffer | weather.js:46-57 | groups 01, 02 and 10 differ between day and night |

## Left out

- Validation.ValidateRegistration: the order of the messages in the error list is not stated, only which messages it holds.
- Validation.ValidateLogin: the order of the messages is not stated, only which messages it holds.
- Validation.ValidateTravelPlan: the order of the messages is not stated, only which messages it holds.
- CountriesRoute.SortedByName: the collation behind `localeCompare` is a parameter (`collate`), assumed to be a total preorder. The engine's locale rules are not modelled.
- CountriesRoute.GetCountry: the fallback codes are not proved distinct, so the lookup is not proved to match at most one fallback entry.
- AttractionsRoute.GetDetails: the English-tip regular expressions are a parameter (`english`), not modelled.
- TravelPlansRoute.ListPlans: the `user` field (the caller's user name) of the reply is not modelled.
- WeatherRoute.GetWeather: the city and country are compared as literal strings ignoring case. The source builds regular expressions from them, and regular-expression metacharacters in a city name are not modelled.
- WeatherIcons.WeatherIcon: property names inherited from `Object.prototype` (`constructor`, `toString`) would be found by the page's table lookup. These are not modelled; such codes get the default.
- Floating point: amounts, rates, temperatures and coordinates are `real`. `toFixed`, `Math.round` and `parseFloat` are not modelled, and conversion arithmetic is left out.
- Store failures: MongoDB errors are not modelled, except on the country routes, where a `storeReadable` flag stands for the outer `catch`. Invalid ObjectIds (`CastError`) are not modelled; ids are natural numbers.
- Duplicate-key errors (code 11000) on adding a destination cannot happen: the schema declares no unique index.
- Case mapping is ASCII only. String lengths count characters, not UTF-16 code units.
- Malformed upstream bodies (a missing `main`, `weather[0]`, `rates`) are not modelled. An upstream answer is either data of the expected shape, an HTTP status or a network failure.
- Fields that no property depends on are not modelled:
  - of a country: subregion, area, currencies, languages and timezones;
  - of a search result: distance, locality, region, postcode, email, website, tel, hours, description, price, photos and location.country;
  - of the details reply (routes/attractions.js:118-134): `location`, `price`, `contact.phone`, `contact.email` and `hours`;
  - of the sample details records: their `location` texts.
- AttractionsRoute.GetMockAttractions: the mock table is an object literal, so the lower-cased countries "constructor" and "__proto__" find an inherited value that is not an array. `slice` then throws inside the catch, and the request gets no reply at all. The model gives these countries the default triple, and so do AttractionsRoute.Search and AttractionsRoute.MockResponse, which use it.
- Budget amounts the client leaves undefined are modelled as 0.
- `PUT /travel-plans/:id` bodies that set `createdAt`, `_id` or unknown paths are not modelled. The update carries the schema's own fields only.
- Mongoose's automatic `updatedAt` is modelled as set to `now` by each save.
- Time is a parameter `now`. Concurrency, timeouts, authentication (`authenticateToken`), logging, toasts, modals and DOM rendering are not modelled.
- The client's `confirm` dialog in `saveTravelPlan` is a parameter (`confirmsEmpty`). The request's network round trip is not modelled.
- `viewAttractionDetails`, `editTravelPlan`, `viewTravelPlan` and the details modal of `travelPlans.js` are DOM code and are not part of this model.
