/** models/travel-plan.js: the TravelPlan schema. A plan is what a document
    holds once Mongoose has cast it: the trimming setter has run, the enum
    strings are parsed, the defaults are filled in. `Cast` is what
    `new TravelPlan({...})` followed by `save()` does with the fields the
    routes hand it: it succeeds exactly when the schema's validators pass. */
module TravelPlanModel {
  import opened Common

  const MaxPlanNameLength: nat := 100
  const MaxDescriptionLength: nat := 500

  datatype Priority = High | Medium | Low
  datatype Status = Planning | Confirmed | Completed | Cancelled

  datatype Coordinates = Coordinates(lat: real, lng: real)

  /** The `country` sub-document. The schema has no `coordinates` path, so
      nothing else survives the cast. */
  datatype PlanCountry = PlanCountry(name: string, code: string, capital: string, region: string, flag: string)

  /** One element of `selectedAttractions`. */
  datatype PlannedAttraction = PlannedAttraction(
    attractionId: string, name: string, category: string, address: string, coordinates: Coordinates,
    rating: real, priceLevel: int, photoUrl: string, website: string, phone: string,
    addedAt: int, notes: string, visitDate: Option<int>, priority: Priority)

  datatype Budget = Budget(amount: real, currency: string)

  /** A stored plan; `id` and `userId` stand for the ObjectIds, times are
      milliseconds. */
  datatype TravelPlan = TravelPlan(
    id: nat, userId: nat, planName: string, country: PlanCountry, description: string,
    selectedAttractions: seq<PlannedAttraction>, startDate: Option<int>, endDate: Option<int>,
    budget: Budget, travelers: int, isPublic: bool, tags: seq<string>, notes: string,
    status: Status, createdAt: int, updatedAt: int)

  /** What the schema's validators demand of a stored plan: the plan name is
      present (non-empty), trimmed and at most 100 characters, the country's
      name and code are present, the description is at most 500 characters
      and there is at least one traveller. The enums hold by construction. */
  predicate ValidPlan(p: TravelPlan)
  {
    && p.planName != "" && Trim(p.planName) == p.planName && |p.planName| <= MaxPlanNameLength
    && p.country.name != "" && p.country.code != ""
    && |p.description| <= MaxDescriptionLength
    && p.travelers >= 1
  }

  // ---------------------------------------------------------------------
  // Enums
  // ---------------------------------------------------------------------

  function PriorityName(p: Priority): string
  {
    match p
    case High => "high"
    case Medium => "medium"
    case Low => "low"
  }

  /** The `priority` enum: exactly the three names are accepted. */
  function ParsePriority(s: string): (r: Option<Priority>)
    ensures r.Some? <==> s in {"high", "medium", "low"}
    ensures r.Some? ==> PriorityName(r.value) == s
  {
    if s == "high" then Some(High)
    else if s == "medium" then Some(Medium)
    else if s == "low" then Some(Low)
    else None
  }

  lemma PriorityRoundTrip(p: Priority)
    ensures ParsePriority(PriorityName(p)) == Some(p)
  {
  }

  function StatusName(s: Status): string
  {
    match s
    case Planning => "planning"
    case Confirmed => "confirmed"
    case Completed => "completed"
    case Cancelled => "cancelled"
  }

  /** The `status` enum: exactly the four names are accepted. */
  function ParseStatus(s: string): (r: Option<Status>)
    ensures r.Some? <==> s in {"planning", "confirmed", "completed", "cancelled"}
    ensures r.Some? ==> StatusName(r.value) == s
  {
    if s == "planning" then Some(Planning)
    else if s == "confirmed" then Some(Confirmed)
    else if s == "completed" then Some(Completed)
    else if s == "cancelled" then Some(Cancelled)
    else None
  }

  // ---------------------------------------------------------------------
  // Casting what a route hands to the model
  // ---------------------------------------------------------------------

  /** An attraction as given to the model: `priority` and `addedAt` may be
      absent, and then the schema's defaults apply. */
  datatype AttractionDraft = AttractionDraft(
    attractionId: string, name: string, category: string, address: string, coordinates: Coordinates,
    rating: real, priceLevel: int, photoUrl: string, website: string, phone: string,
    addedAt: Option<int>, notes: string, visitDate: Option<int>, priority: Option<string>)

  /** A country as given to the model; an absent string is "". */
  datatype CountryDraft = CountryDraft(name: string, code: string, capital: string, region: string, flag: string)

  datatype BudgetDraft = BudgetDraft(amount: real, currency: Option<string>)

  /** The fields a route passes to `new TravelPlan(...)`; `None` is a field
      left undefined. */
  datatype PlanDraft = PlanDraft(
    userId: nat, planName: string, country: CountryDraft, description: string,
    selectedAttractions: seq<AttractionDraft>, startDate: Option<int>, endDate: Option<int>,
    budget: BudgetDraft, travelers: Option<int>, isPublic: Option<bool>, tags: seq<string>, notes: string,
    status: Option<string>)

  /** An attraction sub-document: `priority` defaults to medium and must be
      one of the enum's names; `addedAt` defaults to the save time. */
  function CastAttraction(a: AttractionDraft, now: int): (r: Option<PlannedAttraction>)
    ensures r.Some? <==> a.priority.None? || ParsePriority(a.priority.value).Some?
    ensures r.Some? ==> r.value.attractionId == a.attractionId && r.value.name == a.name
    ensures r.Some? && a.priority.None? ==> r.value.priority == Medium
    ensures r.Some? && a.addedAt.None? ==> r.value.addedAt == now
  {
    var priority := if a.priority.None? then Some(Medium) else ParsePriority(a.priority.value);
    if priority.None? then None
    else Some(PlannedAttraction(
      a.attractionId, a.name, a.category, a.address, a.coordinates, a.rating, a.priceLevel, a.photoUrl,
      a.website, a.phone, if a.addedAt.Some? then a.addedAt.value else now, a.notes, a.visitDate,
      priority.value))
  }

  /** The whole list casts when every element does, in order. */
  function CastAttractions(xs: seq<AttractionDraft>, now: int): (r: Option<seq<PlannedAttraction>>)
    ensures r.Some? <==> forall i :: 0 <= i < |xs| ==> CastAttraction(xs[i], now).Some?
    ensures r.Some? ==> |r.value| == |xs| && forall i :: 0 <= i < |xs| ==> Some(r.value[i]) == CastAttraction(xs[i], now)
  {
    if xs == [] then Some([])
    else
      match (CastAttraction(xs[0], now), CastAttractions(xs[1..], now))
      case (Some(a), Some(rest)) => Some([a] + rest)
      case _ => None
  }

  /** A stored attraction written back in the request format. */
  function AsDraft(a: PlannedAttraction): AttractionDraft
  {
    AttractionDraft(
      a.attractionId, a.name, a.category, a.address, a.coordinates, a.rating, a.priceLevel, a.photoUrl,
      a.website, a.phone, Some(a.addedAt), a.notes, a.visitDate, Some(PriorityName(a.priority)))
  }

  function AsDrafts(xs: seq<PlannedAttraction>): (r: seq<AttractionDraft>)
    ensures |r| == |xs| && forall i :: 0 <= i < |xs| ==> r[i] == AsDraft(xs[i])
  {
    if xs == [] then [] else [AsDraft(xs[0])] + AsDrafts(xs[1..])
  }

  /** Stored attractions sent back to the model cast to themselves. */
  lemma AttractionsRoundTrip(xs: seq<PlannedAttraction>, now: int)
    ensures CastAttractions(AsDrafts(xs), now) == Some(xs)
  {
    var ds := AsDrafts(xs);
    forall i | 0 <= i < |ds|
      ensures CastAttraction(ds[i], now) == Some(xs[i])
    {
      PriorityRoundTrip(xs[i].priority);
    }
    assert CastAttractions(ds, now).value == xs;
  }

  /** `new TravelPlan(draft)` then `save()`: the plan name is trimmed, the
      defaults fill the absent fields (one traveller, not public, status
      planning, budget in USD, attractions at medium priority added now),
      and the result exists exactly when the validators pass. */
  function Cast(d: PlanDraft, id: nat, now: int): (r: Option<TravelPlan>)
    ensures r.Some? ==> ValidPlan(r.value)
    ensures r.Some? ==>
      && r.value.id == id && r.value.userId == d.userId
      && r.value.planName == Trim(d.planName)
      && r.value.country == PlanCountry(d.country.name, d.country.code, d.country.capital, d.country.region, d.country.flag)
      && r.value.description == d.description && r.value.notes == d.notes && r.value.tags == d.tags
      && r.value.startDate == d.startDate && r.value.endDate == d.endDate
      && r.value.createdAt == now && r.value.updatedAt == now
      && Some(r.value.selectedAttractions) == CastAttractions(d.selectedAttractions, now)
    ensures r.Some? ==>
      && r.value.travelers == (if d.travelers.Some? then d.travelers.value else 1)
      && r.value.isPublic == (d.isPublic == Some(true))
      && r.value.budget.currency == (if d.budget.currency.Some? then d.budget.currency.value else "USD")
      && (d.status.None? ==> r.value.status == Planning)
    // the validators
    ensures r.Some? <==>
      && Trim(d.planName) != "" && |Trim(d.planName)| <= MaxPlanNameLength
      && d.country.name != "" && d.country.code != ""
      && |d.description| <= MaxDescriptionLength
      && (d.travelers.None? || d.travelers.value >= 1)
      && (d.status.None? || ParseStatus(d.status.value).Some?)
      && CastAttractions(d.selectedAttractions, now).Some?
  {
    var planName := Trim(d.planName);
    var travelers := if d.travelers.Some? then d.travelers.value else 1;
    var status := if d.status.None? then Some(Planning) else ParseStatus(d.status.value);
    var attractions := CastAttractions(d.selectedAttractions, now);
    if planName == "" || |planName| > MaxPlanNameLength || d.country.name == "" || d.country.code == ""
       || |d.description| > MaxDescriptionLength || travelers < 1 || status.None? || attractions.None?
    then None
    else
      TrimIdempotent(d.planName);
      Some(TravelPlan(
        id, d.userId, planName,
        PlanCountry(d.country.name, d.country.code, d.country.capital, d.country.region, d.country.flag),
        d.description, attractions.value, d.startDate, d.endDate,
        Budget(d.budget.amount, if d.budget.currency.Some? then d.budget.currency.value else "USD"),
        travelers, d.isPublic == Some(true), d.tags, d.notes, status.value, now, now))
  }
}
