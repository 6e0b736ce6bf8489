/** routes/travelPlans.js: the travel-plan handlers. Every lookup is by plan
    id AND the caller's user id, so another user's plan answers 404 and is
    never changed. */
module TravelPlansRoute {
  import opened Common
  import opened Collection
  import opened Sorting
  import opened TravelPlanModel

  /** The error replies; `FailureStatus` gives their status codes. */
  datatype Failure =
    | MissingFields
    | PlanNotFound
    | CreateFailed
    | UpdateFailed
    | InvalidAttraction
    | AttractionAlreadyAdded
    | AddAttractionFailed

  function FailureStatus(f: Failure): int
  {
    match f
    case PlanNotFound => 404
    case AddAttractionFailed => 500
    case _ => 400
  }

  /** The `error` text of each failure. */
  function FailureText(f: Failure): string
  {
    match f
    case MissingFields => "Missing required fields"
    case PlanNotFound => "Travel plan not found"
    case CreateFailed => "Failed to create travel plan"
    case UpdateFailed => "Failed to update travel plan"
    case InvalidAttraction => "Invalid attraction data"
    case AttractionAlreadyAdded => "Attraction already added"
    case AddAttractionFailed => "Failed to add attraction"
  }

  datatype PlanReply =
    | PlanList(plans: seq<TravelPlan>, total: int)
    | PlanBody(status: int, plan: TravelPlan)
    | DeletedPlan(id: nat, planName: string)
    | Failed(failure: Failure)

  /** The TravelPlan collection. */
  class PlanStore {
    var plans: seq<TravelPlan>
    var nextId: nat

    /** Every stored plan passed the schema's validators, and ids are
        distinct and below the next one to be handed out. */
    ghost predicate Valid()
      reads this
    {
      && (forall i :: 0 <= i < |plans| ==> ValidPlan(plans[i]) && plans[i].id < nextId)
      && (forall i, j :: 0 <= i < j < |plans| ==> plans[i].id != plans[j].id)
    }

    constructor ()
      ensures Valid() && plans == [] && nextId == 0
    {
      plans := [];
      nextId := 0;
    }

    /** `save()` of a new document, which gets the next id. */
    method Insert(p: TravelPlan)
      requires Valid() && ValidPlan(p) && p.id == nextId
      modifies this
      ensures Valid()
      ensures plans == old(plans) + [p] && nextId == old(nextId) + 1
    {
      plans := plans + [p];
      nextId := nextId + 1;
    }

    /** `save()` of a stored document changed in memory. */
    method Replace(i: nat, q: TravelPlan)
      requires Valid() && i < |plans| && ValidPlan(q) && q.id == plans[i].id
      modifies this
      ensures Valid()
      ensures plans == old(plans)[i := q] && nextId == old(nextId)
    {
      plans := plans[i := q];
    }

    /** `deleteOne` of a stored document: since ids are distinct, no
        document with its id remains. */
    method RemoveAt(i: nat)
      requires Valid() && i < |plans|
      modifies this
      ensures Valid()
      ensures plans == old(plans)[..i] + old(plans)[i + 1..] && nextId == old(nextId)
      ensures forall j :: 0 <= j < |plans| ==> plans[j].id != old(plans)[i].id
    {
      ghost var before := plans;
      plans := plans[..i] + plans[i + 1..];
      assert forall j :: 0 <= j < |plans| ==> plans[j] == before[if j < i then j else j + 1];
    }
  }

  function OwnedBy(user: nat): TravelPlan -> bool
  {
    (p: TravelPlan) => p.userId == user
  }

  /** The filter `{ _id: id, userId: req.user.userId }`. */
  function IdOwnedBy(id: nat, user: nat): TravelPlan -> bool
  {
    (p: TravelPlan) => p.id == id && p.userId == user
  }

  /** Where the caller's plan with this id is stored, if anywhere. */
  function Locate(plans: seq<TravelPlan>, id: nat, user: nat): (r: Option<nat>)
    ensures r.Some? ==> r.value < |plans| && plans[r.value].id == id && plans[r.value].userId == user
    ensures r.None? <==> forall i :: 0 <= i < |plans| ==> !(plans[i].id == id && plans[i].userId == user)
  {
    FindFirst(plans, IdOwnedBy(id, user))
  }

  // ---------------------------------------------------------------------
  // GET / and GET /:id
  // ---------------------------------------------------------------------

  /** `sort({ createdAt: -1 })`. */
  predicate NewerFirst(a: TravelPlan, b: TravelPlan)
  {
    a.createdAt >= b.createdAt
  }

  lemma NewerFirstIsTotalPreorder()
    ensures TotalPreorder(NewerFirst)
  {
  }

  /** `r` lists `plans`, newest first. */
  ghost predicate NewestFirst(r: seq<TravelPlan>, plans: seq<TravelPlan>)
  {
    SortedBy(r, NewerFirst) && multiset(r) == multiset(plans)
  }

  /** The caller's plans, newest first; no other user's plan is listed. */
  method ListPlans(store: PlanStore, user: nat) returns (resp: PlanReply)
    ensures resp.PlanList? && resp.total == |resp.plans|
    ensures NewestFirst(resp.plans, Where(store.plans, OwnedBy(user)))
    ensures forall i :: 0 <= i < |resp.plans| ==> resp.plans[i].userId == user
  {
    var owned := Where(store.plans, OwnedBy(user));
    var a := new TravelPlan[|owned|](i requires 0 <= i < |owned| => owned[i]);
    assert a[..] == owned;
    NewerFirstIsTotalPreorder();
    SortBy(a, NewerFirst);
    forall i | 0 <= i < a.Length
      ensures a[i].userId == user
    {
      assert a[i] in multiset(owned);
      WhereSelects(store.plans, OwnedBy(user), a[i]);
    }
    resp := PlanList(a[..], a.Length);
  }

  /** The caller's plan with this id, or 404 exactly when the caller owns
      no plan with this id. */
  function GetPlan(plans: seq<TravelPlan>, user: nat, id: nat): (r: PlanReply)
    ensures r.PlanBody? || r == Failed(PlanNotFound)
    ensures r.PlanBody? ==> r.status == 200 && r.plan in plans && r.plan.id == id && r.plan.userId == user
    ensures r == Failed(PlanNotFound) <==> forall i :: 0 <= i < |plans| ==> !(plans[i].id == id && plans[i].userId == user)
  {
    match Locate(plans, id, user)
    case None => Failed(PlanNotFound)
    case Some(i) => PlanBody(200, plans[i])
  }

  // ---------------------------------------------------------------------
  // POST /
  // ---------------------------------------------------------------------

  /** A request-body string that JavaScript counts as true: present and
      non-empty. */
  predicate Truthy(s: Option<string>)
  {
    s.Some? && s.value != ""
  }

  /** `s || ''`. */
  function OrEmpty(s: Option<string>): string
  {
    if Truthy(s) then s.value else ""
  }

  datatype CountryBody = CountryBody(
    name: Option<string>, code: Option<string>, capital: Option<string>, region: Option<string>, flag: Option<string>)

  /** The request body of `POST /`; dates are the instants they parse to. */
  datatype CreateBody = CreateBody(
    planName: Option<string>, country: Option<CountryBody>, description: Option<string>,
    selectedAttractions: Option<seq<AttractionDraft>>, startDate: Option<int>, endDate: Option<int>,
    budget: Option<BudgetDraft>, travelers: Option<int>, isPublic: Option<bool>, tags: Option<seq<string>>,
    notes: Option<string>)

  /** `!planName || !country || !country.name || !country.code` fails. */
  predicate HasRequiredFields(b: CreateBody)
  {
    Truthy(b.planName) && b.country.Some? && Truthy(b.country.value.name) && Truthy(b.country.value.code)
  }

  /** What the handler passes to `new TravelPlan(...)`. */
  function CreateDraft(user: nat, b: CreateBody): PlanDraft
    requires HasRequiredFields(b)
  {
    var c := b.country.value;
    PlanDraft(
      user, b.planName.value,
      CountryDraft(c.name.value, c.code.value, OrEmpty(c.capital), OrEmpty(c.region), OrEmpty(c.flag)),
      OrEmpty(b.description),
      if b.selectedAttractions.Some? then b.selectedAttractions.value else [],
      b.startDate, b.endDate,
      if b.budget.Some? then b.budget.value else BudgetDraft(0.0, Some("USD")),
      Some(if b.travelers.Some? && b.travelers.value != 0 then b.travelers.value else 1),
      Some(b.isPublic == Some(true)),
      if b.tags.Some? then b.tags.value else [],
      OrEmpty(b.notes),
      Some("planning"))
  }

  /** The handler: 400 before any store access when a required field is
      missing, 400 when the schema rejects the plan, otherwise one new plan
      owned by the caller with the route's and the schema's defaults. */
  method CreatePlan(store: PlanStore, user: nat, body: CreateBody, now: int) returns (resp: PlanReply)
    requires store.Valid()
    modifies store
    ensures store.Valid()
    ensures !HasRequiredFields(body) ==>
      resp == Failed(MissingFields) && store.plans == old(store.plans) && store.nextId == old(store.nextId)
    ensures HasRequiredFields(body) ==>
      var saved := Cast(CreateDraft(user, body), old(store.nextId), now);
      && (saved.None? ==>
            resp == Failed(CreateFailed) && store.plans == old(store.plans) && store.nextId == old(store.nextId))
      && (saved.Some? ==>
            resp == PlanBody(201, saved.value) && store.plans == old(store.plans) + [saved.value]
            && store.nextId == old(store.nextId) + 1)
    // the defaults
    ensures resp.PlanBody? ==>
      && resp.plan.userId == user && resp.plan.status == Planning
      && resp.plan.planName == Trim(body.planName.value)
      && resp.plan.travelers == (if body.travelers.Some? && body.travelers.value != 0 then body.travelers.value else 1)
      && resp.plan.isPublic == (body.isPublic == Some(true))
      && (body.budget.None? ==> resp.plan.budget == Budget(0.0, "USD"))
      && (body.description.None? ==> resp.plan.description == "")
      && (body.selectedAttractions.None? ==> resp.plan.selectedAttractions == [])
  {
    if !HasRequiredFields(body) {
      return Failed(MissingFields);
    }
    var saved := Cast(CreateDraft(user, body), store.nextId, now);
    if saved.None? {
      return Failed(CreateFailed);
    }
    store.Insert(saved.value);
    resp := PlanBody(201, saved.value);
  }

  // ---------------------------------------------------------------------
  // PUT /:id
  // ---------------------------------------------------------------------

  /** The fields a `PUT` body may carry; `None` is a field it leaves out. */
  datatype PlanUpdate = PlanUpdate(
    userId: Option<nat>, planName: Option<string>, country: Option<CountryDraft>, description: Option<string>,
    selectedAttractions: Option<seq<AttractionDraft>>, startDate: Option<int>, endDate: Option<int>,
    budget: Option<Budget>, travelers: Option<int>, isPublic: Option<bool>, tags: Option<seq<string>>,
    notes: Option<string>, status: Option<string>)

  function Pick<T>(given: Option<T>, current: T): T
  {
    if given.Some? then given.value else current
  }

  /** `{...body, updatedAt}` minus `userId` laid over the stored plan: the
      fields given replace the stored ones (the plan name trimmed, the
      enums parsed), the owner, id and creation time stay. `None` when a
      given enum value or attraction does not cast. */
  function Merge(p: TravelPlan, u: PlanUpdate, now: int): (r: Option<TravelPlan>)
    ensures r.Some? <==>
      && (u.status.Some? ==> ParseStatus(u.status.value).Some?)
      && (u.selectedAttractions.Some? ==> CastAttractions(u.selectedAttractions.value, now).Some?)
    ensures r.Some? ==>
      && r.value.id == p.id && r.value.userId == p.userId && r.value.createdAt == p.createdAt
      && r.value.updatedAt == now
      && r.value.planName == (if u.planName.Some? then Trim(u.planName.value) else p.planName)
      && r.value.country == (if u.country.Some? then
           PlanCountry(u.country.value.name, u.country.value.code, u.country.value.capital,
                       u.country.value.region, u.country.value.flag) else p.country)
      && r.value.description == Pick(u.description, p.description)
      && r.value.travelers == Pick(u.travelers, p.travelers)
      && (u.status.None? ==> r.value.status == p.status)
      && (u.selectedAttractions.None? ==> r.value.selectedAttractions == p.selectedAttractions)
    // every other given field replaces the stored one, the enums and the
    // attraction list as the schema casts them
    ensures r.Some? ==>
      && r.value.budget == Pick(u.budget, p.budget) && r.value.isPublic == Pick(u.isPublic, p.isPublic)
      && r.value.tags == Pick(u.tags, p.tags) && r.value.notes == Pick(u.notes, p.notes)
      && r.value.startDate == (if u.startDate.Some? then u.startDate else p.startDate)
      && r.value.endDate == (if u.endDate.Some? then u.endDate else p.endDate)
      && (u.status.Some? ==> Some(r.value.status) == ParseStatus(u.status.value))
      && (u.selectedAttractions.Some? ==>
            Some(r.value.selectedAttractions) == CastAttractions(u.selectedAttractions.value, now))
  {
    var status := if u.status.Some? then ParseStatus(u.status.value) else Some(p.status);
    var attractions := if u.selectedAttractions.Some? then CastAttractions(u.selectedAttractions.value, now)
                       else Some(p.selectedAttractions);
    match (status, attractions)
    case (Some(st), Some(at)) =>
      Some(p.(
        planName := if u.planName.Some? then Trim(u.planName.value) else p.planName,
        country := if u.country.Some? then
          PlanCountry(u.country.value.name, u.country.value.code, u.country.value.capital,
                      u.country.value.region, u.country.value.flag) else p.country,
        description := Pick(u.description, p.description),
        selectedAttractions := at,
        startDate := if u.startDate.Some? then u.startDate else p.startDate,
        endDate := if u.endDate.Some? then u.endDate else p.endDate,
        budget := Pick(u.budget, p.budget), travelers := Pick(u.travelers, p.travelers),
        isPublic := Pick(u.isPublic, p.isPublic), tags := Pick(u.tags, p.tags), notes := Pick(u.notes, p.notes),
        status := st, updatedAt := now))
    case _ => None
  }

  /** `findByIdAndUpdate(id, update, { runValidators: true })`: the merged
      plan, unless it fails the schema. */
  function ApplyUpdate(p: TravelPlan, u: PlanUpdate, now: int): (r: Option<TravelPlan>)
    ensures r.Some? ==> ValidPlan(r.value) && r == Merge(p, u, now)
    ensures r.None? ==> Merge(p, u, now).None? || !ValidPlan(Merge(p, u, now).value)
  {
    var merged := Merge(p, u, now);
    if merged.Some? && ValidPlan(merged.value) then merged else None
  }

  /** The validators only look at what is given: a stored plan's update is
      refused exactly when a given field is invalid. */
  lemma UpdateRefusedOnlyForInvalidFields(p: TravelPlan, u: PlanUpdate, now: int)
    requires ValidPlan(p)
    ensures ApplyUpdate(p, u, now).Some? <==>
      && (u.planName.Some? ==> Trim(u.planName.value) != "" && |Trim(u.planName.value)| <= MaxPlanNameLength)
      && (u.country.Some? ==> u.country.value.name != "" && u.country.value.code != "")
      && (u.description.Some? ==> |u.description.value| <= MaxDescriptionLength)
      && (u.travelers.Some? ==> u.travelers.value >= 1)
      && (u.status.Some? ==> ParseStatus(u.status.value).Some?)
      && (u.selectedAttractions.Some? ==> CastAttractions(u.selectedAttractions.value, now).Some?)
  {
    if u.planName.Some? {
      TrimIdempotent(u.planName.value);
    }
  }

  /** The handler: 404 unless the caller owns the plan; otherwise the plan
      is replaced in place by its update, or left alone when the schema
      refuses it. No other plan changes, and no plan changes owner. */
  method UpdatePlan(store: PlanStore, user: nat, id: nat, u: PlanUpdate, now: int) returns (resp: PlanReply)
    requires store.Valid()
    modifies store
    ensures store.Valid() && store.nextId == old(store.nextId)
    ensures Locate(old(store.plans), id, user).None? ==>
      resp == Failed(PlanNotFound) && store.plans == old(store.plans)
    ensures Locate(old(store.plans), id, user).Some? ==>
      var i := Locate(old(store.plans), id, user).value;
      var updated := ApplyUpdate(old(store.plans)[i], u, now);
      && (updated.None? ==> resp == Failed(UpdateFailed) && store.plans == old(store.plans))
      && (updated.Some? ==> resp == PlanBody(200, updated.value) && store.plans == old(store.plans)[i := updated.value])
    ensures |store.plans| == |old(store.plans)|
    ensures forall j :: 0 <= j < |store.plans| ==>
      store.plans[j].id == old(store.plans)[j].id && store.plans[j].userId == old(store.plans)[j].userId
  {
    var found := Locate(store.plans, id, user);
    if found.None? {
      return Failed(PlanNotFound);
    }
    var i := found.value;
    var updated := ApplyUpdate(store.plans[i], u, now);
    if updated.None? {
      return Failed(UpdateFailed);
    }
    store.Replace(i, updated.value);
    resp := PlanBody(200, updated.value);
  }

  // ---------------------------------------------------------------------
  // POST /:id/attractions and DELETE /:id/attractions/:attractionId
  // ---------------------------------------------------------------------

  datatype AttractionBody = AttractionBody(
    attractionId: Option<string>, name: Option<string>, category: Option<string>, address: Option<string>,
    coordinates: Option<Coordinates>, rating: Option<real>, priceLevel: Option<int>, photoUrl: Option<string>,
    website: Option<string>, phone: Option<string>, notes: Option<string>, visitDate: Option<int>,
    priority: Option<string>)

  /** `!attraction || !attraction.attractionId || !attraction.name` fails. */
  predicate IsAttractionData(a: Option<AttractionBody>)
  {
    a.Some? && Truthy(a.value.attractionId) && Truthy(a.value.name)
  }

  /** The element the handler pushes: empty defaults, priority medium
      unless one is given, added now. */
  function NewAttraction(a: AttractionBody, now: int): AttractionDraft
    requires Truthy(a.attractionId) && Truthy(a.name)
  {
    AttractionDraft(
      a.attractionId.value, a.name.value, OrEmpty(a.category), OrEmpty(a.address),
      Pick(a.coordinates, Coordinates(0.0, 0.0)), Pick(a.rating, 0.0), Pick(a.priceLevel, 0),
      OrEmpty(a.photoUrl), OrEmpty(a.website), OrEmpty(a.phone), Some(now), OrEmpty(a.notes), a.visitDate,
      Some(if Truthy(a.priority) then a.priority.value else "medium"))
  }

  predicate HasAttraction(xs: seq<PlannedAttraction>, attractionId: string)
  {
    exists k :: 0 <= k < |xs| && xs[k].attractionId == attractionId
  }

  /** The handler: 400 before any lookup for incomplete data, 404 unless the
      caller owns the plan, 400 for an id already in the plan, 500 when the
      schema rejects the priority; otherwise exactly one element is
      appended at the end and nothing else changes. */
  method AddAttraction(store: PlanStore, user: nat, id: nat, attraction: Option<AttractionBody>, now: int)
    returns (resp: PlanReply)
    requires store.Valid()
    modifies store
    ensures store.Valid() && store.nextId == old(store.nextId)
    ensures !IsAttractionData(attraction) ==> resp == Failed(InvalidAttraction) && store.plans == old(store.plans)
    ensures IsAttractionData(attraction) && Locate(old(store.plans), id, user).None? ==>
      resp == Failed(PlanNotFound) && store.plans == old(store.plans)
    ensures IsAttractionData(attraction) && Locate(old(store.plans), id, user).Some? ==>
      var i := Locate(old(store.plans), id, user).value;
      var p := old(store.plans)[i];
      var added := CastAttraction(NewAttraction(attraction.value, now), now);
      && (HasAttraction(p.selectedAttractions, attraction.value.attractionId.value) ==>
            resp == Failed(AttractionAlreadyAdded) && store.plans == old(store.plans))
      && (!HasAttraction(p.selectedAttractions, attraction.value.attractionId.value) && added.None? ==>
            resp == Failed(AddAttractionFailed) && store.plans == old(store.plans))
      && (!HasAttraction(p.selectedAttractions, attraction.value.attractionId.value) && added.Some? ==>
            var q := p.(selectedAttractions := p.selectedAttractions + [added.value], updatedAt := now);
            resp == PlanBody(200, q) && store.plans == old(store.plans)[i := q])
    ensures resp.PlanBody? ==>
      var last := resp.plan.selectedAttractions[|resp.plan.selectedAttractions| - 1];
      && last.attractionId == attraction.value.attractionId.value
      && (!Truthy(attraction.value.priority) ==> last.priority == Medium)
  {
    if !IsAttractionData(attraction) {
      return Failed(InvalidAttraction);
    }
    var found := Locate(store.plans, id, user);
    if found.None? {
      return Failed(PlanNotFound);
    }
    var i := found.value;
    var p := store.plans[i];
    if HasAttraction(p.selectedAttractions, attraction.value.attractionId.value) {
      return Failed(AttractionAlreadyAdded);
    }
    var added := CastAttraction(NewAttraction(attraction.value, now), now);
    if added.None? {
      return Failed(AddAttractionFailed);
    }
    var q := p.(selectedAttractions := p.selectedAttractions + [added.value], updatedAt := now);
    store.Replace(i, q);
    resp := PlanBody(200, q);
  }

  function AttractionIdIsNot(attractionId: string): PlannedAttraction -> bool
  {
    (a: PlannedAttraction) => a.attractionId != attractionId
  }

  /** The handler: 404 unless the caller owns the plan; otherwise every
      element with that id goes and the others stay in order, even when
      none matched. */
  method RemoveAttraction(store: PlanStore, user: nat, id: nat, attractionId: string, now: int)
    returns (resp: PlanReply)
    requires store.Valid()
    modifies store
    ensures store.Valid() && store.nextId == old(store.nextId)
    ensures Locate(old(store.plans), id, user).None? ==>
      resp == Failed(PlanNotFound) && store.plans == old(store.plans)
    ensures Locate(old(store.plans), id, user).Some? ==>
      var i := Locate(old(store.plans), id, user).value;
      var p := old(store.plans)[i];
      var q := p.(selectedAttractions := Where(p.selectedAttractions, AttractionIdIsNot(attractionId)), updatedAt := now);
      resp == PlanBody(200, q) && store.plans == old(store.plans)[i := q]
    ensures resp.PlanBody? ==> !HasAttraction(resp.plan.selectedAttractions, attractionId)
  {
    var found := Locate(store.plans, id, user);
    if found.None? {
      return Failed(PlanNotFound);
    }
    var i := found.value;
    var p := store.plans[i];
    var q := p.(selectedAttractions := Where(p.selectedAttractions, AttractionIdIsNot(attractionId)), updatedAt := now);
    store.Replace(i, q);
    resp := PlanBody(200, q);
  }

  /** Removing an attraction just added restores the list it was added to:
      adding refuses an id that is already there, so the filter takes
      exactly the new element. */
  lemma RemoveUndoesAdd(xs: seq<PlannedAttraction>, a: PlannedAttraction)
    requires !HasAttraction(xs, a.attractionId)
    ensures Where(xs + [a], AttractionIdIsNot(a.attractionId)) == xs
  {
    WhereAppend(xs, [a], AttractionIdIsNot(a.attractionId));
    WhereAll(xs, AttractionIdIsNot(a.attractionId));
  }

  // ---------------------------------------------------------------------
  // DELETE /:id
  // ---------------------------------------------------------------------

  /** The handler: 404 unless the caller owns the plan; otherwise that plan,
      and only it, is gone. */
  method DeletePlan(store: PlanStore, user: nat, id: nat) returns (resp: PlanReply)
    requires store.Valid()
    modifies store
    ensures store.Valid() && store.nextId == old(store.nextId)
    ensures Locate(old(store.plans), id, user).None? ==>
      resp == Failed(PlanNotFound) && store.plans == old(store.plans)
    ensures Locate(old(store.plans), id, user).Some? ==>
      var i := Locate(old(store.plans), id, user).value;
      && resp == DeletedPlan(id, old(store.plans)[i].planName)
      && store.plans == old(store.plans)[..i] + old(store.plans)[i + 1..]
    ensures resp.DeletedPlan? ==> forall j :: 0 <= j < |store.plans| ==> store.plans[j].id != id
  {
    var found := Locate(store.plans, id, user);
    if found.None? {
      return Failed(PlanNotFound);
    }
    var i := found.value;
    var name := store.plans[i].planName;
    store.RemoveAt(i);
    resp := DeletedPlan(id, name);
  }
}
