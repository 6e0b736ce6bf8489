/** travelPlans.js (browser side): the plan-creation state kept in the
    module variables `selectedAttractions`, `allAttractions` and
    `currentCountry`, and the small computations around it: the star row
    of a search result, the request that saves a plan, the request that
    duplicates one, and the plan-count label. */
module PlanBuilder {
  import opened Common
  import opened Collection
  import opened TravelPlanModel
  import opened TravelPlansRoute

  datatype Photo = Photo(prefix: string, suffix: string)

  /** A search result as the page receives it, reduced to the fields it
      reads; `None` is an absent or falsy field. */
  datatype SearchResult = SearchResult(
    fsqId: string, name: string, categories: seq<string>, address: Option<string>,
    coordinates: Option<Coordinates>, rating: Option<real>, price: Option<int>, photos: seq<Photo>,
    website: Option<string>, tel: Option<string>)

  /** `categories?.[0]?.name || 'Attraction'`. */
  function CategoryOf(a: SearchResult): (r: string)
    ensures r != ""
  {
    if |a.categories| > 0 && a.categories[0] != "" then a.categories[0] else "Attraction"
  }

  /** The entry `addToSelection` builds for a search result. */
  function SelectionOf(a: SearchResult): (s: AttractionDraft)
    ensures s.attractionId == a.fsqId && s.name == a.name && s.category == CategoryOf(a)
    ensures s.priority.None? && s.addedAt.None?
  {
    AttractionDraft(
      a.fsqId, a.name, CategoryOf(a), OrEmpty(a.address), Pick(a.coordinates, Coordinates(0.0, 0.0)),
      Pick(a.rating, 0.0), Pick(a.price, 0),
      if |a.photos| > 0 then a.photos[0].prefix + "300x200" + a.photos[0].suffix else "",
      OrEmpty(a.website), OrEmpty(a.tel), None, "", None, None)
  }

  function FsqIdIs(id: string): SearchResult -> bool
  {
    (a: SearchResult) => a.fsqId == id
  }

  function SelectionIdIsNot(id: string): AttractionDraft -> bool
  {
    (s: AttractionDraft) => s.attractionId != id
  }

  /** The module's plan-creation state. */
  class PlanCreation {
    var selectedAttractions: seq<AttractionDraft>
    var allAttractions: seq<SearchResult>
    var currentCountry: Option<CountryBody>

    constructor ()
      ensures selectedAttractions == [] && allAttractions == [] && currentCountry.None?
    {
      selectedAttractions := [];
      allAttractions := [];
      currentCountry := None;
    }

    /** An id that is not among the search results changes nothing;
        otherwise exactly one entry is appended (the page itself does not
        check that the id is already selected). */
    method AddToSelection(attractionId: string)
      modifies this
      ensures allAttractions == old(allAttractions) && currentCountry == old(currentCountry)
      ensures FindOne(allAttractions, FsqIdIs(attractionId)).None? ==> selectedAttractions == old(selectedAttractions)
      ensures FindOne(allAttractions, FsqIdIs(attractionId)).Some? ==>
        selectedAttractions == old(selectedAttractions) + [SelectionOf(FindOne(allAttractions, FsqIdIs(attractionId)).value)]
    {
      var attraction := FindOne(allAttractions, FsqIdIs(attractionId));
      if attraction.None? {
        return;
      }
      selectedAttractions := selectedAttractions + [SelectionOf(attraction.value)];
    }

    /** Every entry with that id goes; the others stay in order. */
    method RemoveFromSelection(attractionId: string)
      modifies this
      ensures allAttractions == old(allAttractions) && currentCountry == old(currentCountry)
      ensures selectedAttractions == Where(old(selectedAttractions), SelectionIdIsNot(attractionId))
      ensures forall i :: 0 <= i < |selectedAttractions| ==> selectedAttractions[i].attractionId != attractionId
    {
      selectedAttractions := Where(selectedAttractions, SelectionIdIsNot(attractionId));
    }

    method ResetPlanCreation()
      modifies this
      ensures selectedAttractions == [] && allAttractions == [] && currentCountry.None?
    {
      selectedAttractions := [];
      currentCountry := None;
      allAttractions := [];
    }

    /** `saveTravelPlan`: nothing is sent unless the trimmed plan name is
        non-empty and a country is chosen, nor when the user declines to
        save a plan without attractions; otherwise the request carries the
        selection and the page's fixed defaults. */
    method SaveRequest(planNameInput: string, descriptionInput: string, startDate: Option<int>, endDate: Option<int>,
                       confirmsEmpty: bool) returns (request: Option<CreateBody>)
      ensures request.Some? <==>
        Trim(planNameInput) != "" && currentCountry.Some? && (|selectedAttractions| > 0 || confirmsEmpty)
      ensures request.Some? ==>
        && request.value.planName == Some(Trim(planNameInput))
        && request.value.country == currentCountry
        && request.value.selectedAttractions == Some(selectedAttractions)
        && request.value.travelers == Some(1) && request.value.isPublic == Some(false)
        && request.value.budget.None?
    {
      var planName := Trim(planNameInput);
      if planName == "" || currentCountry.None? {
        return None;
      }
      if |selectedAttractions| == 0 && !confirmsEmpty {
        return None;
      }
      request := Some(CreateBody(
        Some(planName), currentCountry, Some(Trim(descriptionInput)), Some(selectedAttractions),
        startDate, endDate, None, Some(1), Some(false), Some([]), Some("")));
    }
  }

  /** The server's side of a request shaped as `saveTravelPlan` shapes it
      (a trimmed, non-empty name, a country with a name and a code, one
      traveller, not public, no budget): it is created exactly when the
      schema's limits hold and the selection casts, under the name sent, as
      a private one-traveller plan in planning with a zero USD budget. */
  lemma SavedPlanIsCreated(user: nat, b: CreateBody, id: nat, now: int)
    requires b.planName.Some? && b.planName.value != "" && Trim(b.planName.value) == b.planName.value
    requires b.country.Some? && Truthy(b.country.value.name) && Truthy(b.country.value.code)
    requires b.travelers == Some(1) && b.isPublic == Some(false) && b.budget.None?
    ensures HasRequiredFields(b)
    ensures Cast(CreateDraft(user, b), id, now).Some? <==>
      && |b.planName.value| <= MaxPlanNameLength && |OrEmpty(b.description)| <= MaxDescriptionLength
      && CastAttractions(if b.selectedAttractions.Some? then b.selectedAttractions.value else [], now).Some?
    ensures Cast(CreateDraft(user, b), id, now).Some? ==>
      var c := Cast(CreateDraft(user, b), id, now).value;
      && c.planName == b.planName.value && c.userId == user && c.travelers == 1 && !c.isPublic
      && c.status == Planning && c.budget == Budget(0.0, "USD")
  {
  }

  // ---------------------------------------------------------------------
  // The star row
  // ---------------------------------------------------------------------

  /** `Math.max(0, Math.min(10, rating || 0))`. */
  function ClampedRating(rating: Option<real>): (r: real)
    ensures 0.0 <= r <= 10.0
    ensures rating.Some? && 0.0 <= rating.value <= 10.0 ==> r == rating.value
  {
    var x := if rating.Some? then rating.value else 0.0;
    if x < 0.0 then 0.0 else if x > 10.0 then 10.0 else x
  }

  datatype StarRow = StarRow(full: int, empty: int)

  /** Full stars for each whole two points of the clamped rating, and empty
      ones up to five. */
  function Stars(rating: Option<real>): (r: StarRow)
    ensures 0 <= r.full <= 5 && r.full + r.empty == 5
    ensures 2.0 * (r.full as real) <= ClampedRating(rating) < 2.0 * (r.full as real) + 2.0
  {
    var full := (ClampedRating(rating) / 2.0).Floor;
    var fullStars := if full < 0 then 0 else full;
    var emptyStars := if 5 - fullStars < 0 then 0 else 5 - fullStars;
    StarRow(fullStars, emptyStars)
  }

  /** A higher rating never shows fewer full stars. */
  lemma StarsMonotone(r1: Option<real>, r2: Option<real>)
    requires ClampedRating(r1) <= ClampedRating(r2)
    ensures Stars(r1).full <= Stars(r2).full
  {
  }

  /** The rating line of a result, with its star row: shown only when the
      clamped rating is positive, so never for an absent rating. */
  function RatingLine(rating: Option<real>): (r: Option<StarRow>)
    ensures r.Some? <==> rating.Some? && rating.value > 0.0
    ensures r.Some? ==> r.value == Stars(rating)
  {
    if ClampedRating(rating) > 0.0 then Some(Stars(rating)) else None
  }

  // ---------------------------------------------------------------------
  // Duplicating a plan
  // ---------------------------------------------------------------------

  /** The request `duplicateTravelPlan` sends for a stored plan: a copy under
      a new name, with no dates, not public; the budget is not sent. */
  function DuplicatePayload(p: TravelPlan): CreateBody
  {
    CreateBody(
      Some("Copy of " + p.planName),
      Some(CountryBody(Some(p.country.name), Some(p.country.code), Some(p.country.capital),
                       Some(p.country.region), Some(p.country.flag))),
      Some(p.description), Some(AsDrafts(p.selectedAttractions)), None, None, None,
      Some(if p.travelers != 0 then p.travelers else 1), Some(false), Some(p.tags), Some(p.notes))
  }

  /** The server accepts the copy of a stored plan exactly when the longer
      name still fits (at most 92 characters in the original), and the copy
      keeps the country, description, attractions, travellers, tags and
      notes, drops the dates, is private, planning, and has the default
      budget. */
  lemma DuplicateIsACopy(p: TravelPlan, user: nat, id: nat, now: int)
    requires ValidPlan(p)
    ensures HasRequiredFields(DuplicatePayload(p))
    ensures Cast(CreateDraft(user, DuplicatePayload(p)), id, now).Some? <==> |p.planName| <= MaxPlanNameLength - 8
    ensures Cast(CreateDraft(user, DuplicatePayload(p)), id, now).Some? ==>
      var c := Cast(CreateDraft(user, DuplicatePayload(p)), id, now).value;
      && c.planName == "Copy of " + p.planName && c.userId == user
      && c.country == p.country && c.description == p.description
      && c.selectedAttractions == p.selectedAttractions
      && c.travelers == p.travelers && c.tags == p.tags && c.notes == p.notes
      && c.startDate.None? && c.endDate.None? && !c.isPublic && c.status == Planning
      && c.budget == Budget(0.0, "USD")
  {
    CopyNameIsTrimmed(p.planName);
    AttractionsRoundTrip(p.selectedAttractions, now);
    DuplicateDraft(user, p);
  }

  /** The prefixed name of a stored plan is already trimmed. */
  lemma CopyNameIsTrimmed(planName: string)
    requires planName != "" && Trim(planName) == planName
    ensures Trim("Copy of " + planName) == "Copy of " + planName
  {
    var name := "Copy of " + planName;
    TrimIdempotent(planName);
    assert name[|name| - 1] == planName[|planName| - 1];
  }

  /** What the create handler makes of the duplicate request. */
  lemma DuplicateDraft(user: nat, p: TravelPlan)
    requires ValidPlan(p)
    ensures HasRequiredFields(DuplicatePayload(p))
    ensures CreateDraft(user, DuplicatePayload(p)) == PlanDraft(
      user, "Copy of " + p.planName,
      CountryDraft(p.country.name, p.country.code, p.country.capital, p.country.region, p.country.flag),
      p.description, AsDrafts(p.selectedAttractions), None, None, BudgetDraft(0.0, Some("USD")),
      Some(p.travelers), Some(false), p.tags, p.notes, Some("planning"))
  {
  }

  // ---------------------------------------------------------------------
  // The plan count
  // ---------------------------------------------------------------------

  /** A concatenation starts with its first part and ends with its second. */
  lemma ConcatStartsAndEnds(a: string, b: string)
    ensures StartsWith(a + b, a) && EndsWith(a + b, b)
  {
    assert (a + b)[..|a|] == a && (a + b)[|a + b| - |b|..] == b;
  }

  /** `${count} travel plan${count !== 1 ? 's' : ''} created`: the decimal
      count, a space, and a singular ending exactly when the count is one. */
  function CountLabel(count: nat): (r: string)
    ensures StartsWith(r, NatToString(count)) && DecimalValue(NatToString(count)) == count
    ensures |r| > |NatToString(count)| && r[|NatToString(count)|] == ' '
    ensures EndsWith(r, " travel plan created") <==> count == 1
    ensures count != 1 ==> EndsWith(r, " travel plans created")
  {
    var digits := NatToString(count);
    var ending := if count != 1 then " travel plans created" else " travel plan created";
    var r := digits + " travel plan" + (if count != 1 then "s" else "") + " created";
    assert r == digits + ending;
    ConcatStartsAndEnds(digits, ending);
    assert count != 1 ==> r[|r| - 20] == 't';
    r
  }
}
