/** routes/destinations.js: travel plans seen as "destinations". The
    handlers work on the same TravelPlan collection as the travel-plan
    routes and answer in a flat destination format. Two consequences of the
    schema hold as written: the coordinates the add handler computes are
    dropped (the country sub-document has no such path), so every view
    shows 0 and 0; and a country given as a plain string gets the code '',
    which the schema's required check refuses, so such a request always
    ends in 500. */
module DestinationsRoute {
  import opened Common
  import opened Collection
  import opened TravelPlanModel
  import opened TravelPlansRoute

  datatype DestinationView = DestinationView(
    id: nat, name: string, country: string, countryCode: string, flag: string, region: string,
    attractionsCount: int, createdAt: int, latitude: real, longitude: real)

  datatype DestinationFailure =
    | DestinationFieldsMissing
    | DestinationExists
    | AddDestinationFailed
    | DestinationNotFound
    | UpdateDestinationFailed

  function DestinationFailureStatus(f: DestinationFailure): int
  {
    match f
    case DestinationFieldsMissing => 400
    case DestinationExists => 400
    case DestinationNotFound => 404
    case _ => 500
  }

  datatype DestinationReply =
    | Destination(status: int, destination: DestinationView)
    | RemovedDestination(id: nat, name: string)
    | WeatherHint(suggestion: string, name: string, country: string, capital: string)
    | DestinationFailed(failure: DestinationFailure)

  /** The destination format of a stored plan. A stored country has no
      coordinates, so `coordinates ? ... : 0` always takes 0. */
  function ViewOf(p: TravelPlan): (v: DestinationView)
    ensures v.id == p.id && v.name == p.planName && v.country == p.country.name && v.countryCode == p.country.code
    ensures v.attractionsCount == |p.selectedAttractions|
    ensures v.latitude == 0.0 && v.longitude == 0.0
  {
    DestinationView(p.id, p.planName, p.country.name, p.country.code, p.country.flag, p.country.region,
      |p.selectedAttractions|, p.createdAt, 0.0, 0.0)
  }

  function ViewsOf(ps: seq<TravelPlan>): (r: seq<DestinationView>)
    ensures |r| == |ps| && forall i :: 0 <= i < |ps| ==> r[i] == ViewOf(ps[i])
  {
    if ps == [] then [] else [ViewOf(ps[0])] + ViewsOf(ps[1..])
  }

  /** `GET /`: the caller's plans, newest first, as destinations. */
  method ListDestinations(store: PlanStore, user: nat) returns (views: seq<DestinationView>)
    ensures exists ps :: NewestFirst(ps, Where(store.plans, OwnedBy(user))) && views == ViewsOf(ps)
    ensures forall i :: 0 <= i < |views| ==> views[i].latitude == 0.0 && views[i].longitude == 0.0
  {
    var listed := ListPlans(store, user);
    views := ViewsOf(listed.plans);
  }

  // ---------------------------------------------------------------------
  // POST /
  // ---------------------------------------------------------------------

  /** The `country` field: a plain string or an object. */
  datatype CountryArg =
    | Named(text: string)
    | Detailed(name: Option<string>, code: Option<string>, capital: Option<string>, region: Option<string>,
               flag: Option<string>, coordinates: Option<Coordinates>)

  datatype DestinationBody = DestinationBody(
    name: Option<string>, country: Option<CountryArg>, latitude: Option<real>, longitude: Option<real>,
    description: Option<string>)

  /** `!name || !country` fails; an object is always truthy. */
  predicate HasNameAndCountry(b: DestinationBody)
  {
    Truthy(b.name) && b.country.Some? && (b.country.value.Named? ==> b.country.value.text != "")
  }

  /** A number JavaScript counts as true. */
  function NonZero(x: Option<real>): Option<real>
  {
    if x.Some? && x.value != 0.0 then x else None
  }

  /** The country the handler assigns, coordinates included. */
  datatype AssignedCountry = AssignedCountry(
    name: string, code: string, capital: string, region: string, flag: string, coordinates: Option<Coordinates>)

  function AssignedCountryOf(b: DestinationBody): (c: AssignedCountry)
    requires HasNameAndCountry(b)
    ensures b.country.value.Named? ==> c.code == ""
    ensures b.country.value.Detailed? ==> c.coordinates.Some?
  {
    match b.country.value
    case Named(text) =>
      var lat := NonZero(b.latitude);
      var lng := NonZero(b.longitude);
      AssignedCountry(text, "", "", "", "",
        if lat.Some? && lng.Some? then Some(Coordinates(lat.value, lng.value)) else None)
    case Detailed(name, code, capital, region, flag, coordinates) =>
      var lat := NonZero(b.latitude);
      var lng := NonZero(b.longitude);
      AssignedCountry(OrEmpty(name), OrEmpty(code), OrEmpty(capital), OrEmpty(region), OrEmpty(flag),
        Some(Coordinates(
          if lat.Some? then lat.value else if coordinates.Some? then coordinates.value.lat else 0.0,
          if lng.Some? then lng.value else if coordinates.Some? then coordinates.value.lng else 0.0)))
  }

  /** Mongoose's strict mode keeps only the schema's paths. */
  function StrictCountry(c: AssignedCountry): CountryDraft
  {
    CountryDraft(c.name, c.code, c.capital, c.region, c.flag)
  }

  function DestinationDraft(user: nat, b: DestinationBody): PlanDraft
    requires HasNameAndCountry(b)
  {
    PlanDraft(user, Trim(b.name.value), StrictCountry(AssignedCountryOf(b)), OrEmpty(b.description), [],
      None, None, BudgetDraft(0.0, None), Some(1), Some(false), [], "", Some("planning"))
  }

  /** A plain-string country gets the code '', which the schema's required
      check refuses: such a plan is never saved. */
  lemma PlainCountryIsRefused(user: nat, b: DestinationBody, id: nat, now: int)
    requires HasNameAndCountry(b) && b.country.value.Named?
    ensures Cast(DestinationDraft(user, b), id, now).None?
  {
    assert DestinationDraft(user, b).country.code == "";
  }

  /** The duplicate check `{ userId, planName: name.trim() }`. */
  function NamedBy(user: nat, planName: string): TravelPlan -> bool
  {
    (p: TravelPlan) => p.userId == user && p.planName == planName
  }

  /** The handler: 400 when the name or the country is missing, 400 when
      the caller already has a plan with the trimmed name, 500 when the
      schema refuses the plan (always so for a plain-string country);
      otherwise one new plan, shown with coordinates 0 whatever was sent. */
  method AddDestination(store: PlanStore, user: nat, body: DestinationBody, now: int) returns (resp: DestinationReply)
    requires store.Valid()
    modifies store
    ensures store.Valid()
    ensures !HasNameAndCountry(body) ==>
      resp == DestinationFailed(DestinationFieldsMissing) && store.plans == old(store.plans)
    ensures HasNameAndCountry(body) && FindOne(old(store.plans), NamedBy(user, Trim(body.name.value))).Some? ==>
      resp == DestinationFailed(DestinationExists) && store.plans == old(store.plans)
    ensures HasNameAndCountry(body) && FindOne(old(store.plans), NamedBy(user, Trim(body.name.value))).None? ==>
      var saved := Cast(DestinationDraft(user, body), old(store.nextId), now);
      && (saved.None? ==> resp == DestinationFailed(AddDestinationFailed) && store.plans == old(store.plans))
      && (saved.Some? ==>
            resp == Destination(201, ViewOf(saved.value)) && store.plans == old(store.plans) + [saved.value])
    ensures HasNameAndCountry(body) && body.country.value.Named? ==> store.plans == old(store.plans) && resp.DestinationFailed?
    ensures resp.Destination? ==>
      && resp.destination.name == Trim(body.name.value)
      && resp.destination.latitude == 0.0 && resp.destination.longitude == 0.0
  {
    if !HasNameAndCountry(body) {
      return DestinationFailed(DestinationFieldsMissing);
    }
    var planName := Trim(body.name.value);
    if FindOne(store.plans, NamedBy(user, planName)).Some? {
      return DestinationFailed(DestinationExists);
    }
    if body.country.value.Named? {
      PlainCountryIsRefused(user, body, store.nextId, now);
    }
    var saved := Cast(DestinationDraft(user, body), store.nextId, now);
    if saved.None? {
      return DestinationFailed(AddDestinationFailed);
    }
    TrimIdempotent(body.name.value);
    store.Insert(saved.value);
    resp := Destination(201, ViewOf(saved.value));
  }

  // ---------------------------------------------------------------------
  // PUT /:id, DELETE /:id, GET /:id/weather
  // ---------------------------------------------------------------------

  /** `if (name) planName = name.trim(); if (description !== undefined)
      description = description`, then `save()`. */
  function Renamed(p: TravelPlan, name: Option<string>, description: Option<string>, now: int): (q: TravelPlan)
    ensures q.id == p.id && q.userId == p.userId && q.country == p.country
    ensures q.selectedAttractions == p.selectedAttractions
    ensures q.planName == (if Truthy(name) then Trim(name.value) else p.planName)
    ensures q.description == (if description.Some? then description.value else p.description)
    // nothing else changes but the modification time
    ensures q.updatedAt == now && q.(planName := p.planName, description := p.description, updatedAt := p.updatedAt) == p
  {
    p.(planName := if Truthy(name) then Trim(name.value) else p.planName,
       description := if description.Some? then description.value else p.description,
       updatedAt := now)
  }

  /** The handler: 404 unless the caller owns the plan; a non-empty name
      replaces the plan name, trimmed, and a given description (even '')
      replaces the description; 500 when the result fails the schema. */
  method UpdateDestination(store: PlanStore, user: nat, id: nat, name: Option<string>, description: Option<string>,
                           now: int) returns (resp: DestinationReply)
    requires store.Valid()
    modifies store
    ensures store.Valid() && store.nextId == old(store.nextId)
    ensures Locate(old(store.plans), id, user).None? ==>
      resp == DestinationFailed(DestinationNotFound) && store.plans == old(store.plans)
    ensures Locate(old(store.plans), id, user).Some? ==>
      var i := Locate(old(store.plans), id, user).value;
      var q := Renamed(old(store.plans)[i], name, description, now);
      && (!ValidPlan(q) ==> resp == DestinationFailed(UpdateDestinationFailed) && store.plans == old(store.plans))
      && (ValidPlan(q) ==> resp == Destination(200, ViewOf(q)) && store.plans == old(store.plans)[i := q])
  {
    var found := Locate(store.plans, id, user);
    if found.None? {
      return DestinationFailed(DestinationNotFound);
    }
    var i := found.value;
    var q := Renamed(store.plans[i], name, description, now);
    if !ValidPlan(q) {
      return DestinationFailed(UpdateDestinationFailed);
    }
    store.Replace(i, q);
    resp := Destination(200, ViewOf(q));
  }

  /** A rename keeps a stored plan valid exactly when the trimmed new name
      is non-empty and short enough and the new description is short
      enough. */
  lemma RenameAcceptedWhenFieldsFit(p: TravelPlan, name: Option<string>, description: Option<string>, now: int)
    requires ValidPlan(p)
    ensures ValidPlan(Renamed(p, name, description, now)) <==>
      && (Truthy(name) ==> Trim(name.value) != "" && |Trim(name.value)| <= MaxPlanNameLength)
      && (description.Some? ==> |description.value| <= MaxDescriptionLength)
  {
    if Truthy(name) {
      TrimIdempotent(name.value);
    }
  }

  /** The handler: `findOneAndDelete` on the caller's plan with this id. */
  method DeleteDestination(store: PlanStore, user: nat, id: nat) returns (resp: DestinationReply)
    requires store.Valid()
    modifies store
    ensures store.Valid() && store.nextId == old(store.nextId)
    ensures Locate(old(store.plans), id, user).None? ==>
      resp == DestinationFailed(DestinationNotFound) && store.plans == old(store.plans)
    ensures Locate(old(store.plans), id, user).Some? ==>
      var i := Locate(old(store.plans), id, user).value;
      && resp == RemovedDestination(id, old(store.plans)[i].planName)
      && store.plans == old(store.plans)[..i] + old(store.plans)[i + 1..]
  {
    var deleted := DeletePlan(store, user, id);
    if deleted.DeletedPlan? {
      resp := RemovedDestination(deleted.id, deleted.planName);
    } else {
      resp := DestinationFailed(DestinationNotFound);
    }
  }

  /** `GET /:id/weather`: points at the weather route for the capital, or
      for the country when the capital is empty. */
  function WeatherSuggestion(plans: seq<TravelPlan>, user: nat, id: nat): (r: DestinationReply)
    ensures r.WeatherHint? || r == DestinationFailed(DestinationNotFound)
    ensures r == DestinationFailed(DestinationNotFound) <==> Locate(plans, id, user).None?
    ensures r.WeatherHint? ==>
      var p := plans[Locate(plans, id, user).value];
      && StartsWith(r.suggestion, "GET /api/weather/")
      && r.suggestion[|"GET /api/weather/"|..] == (if p.country.capital != "" then p.country.capital else p.country.name)
      && r.name == p.planName && r.country == p.country.name && r.capital == p.country.capital
  {
    match Locate(plans, id, user)
    case None => DestinationFailed(DestinationNotFound)
    case Some(i) =>
      var country := plans[i].country;
      WeatherHint("GET /api/weather/" + (if country.capital != "" then country.capital else country.name),
        plans[i].planName, country.name, country.capital)
  }
}
