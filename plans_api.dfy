/** The simulated plans back end: a collection persisted under the
    `gym_plans_data` storage key, with a four-plan seed when the key is missing
    or unreadable. Every body it answers is wrapped in an outer `{ data: … }`. */
module PlansApi {
  import opened Common
  import opened Store

  datatype PlanStatus = Active | Inactive

  /** Every field of a stored plan except its id. `duration` is in months. */
  datatype PlanInfo = PlanInfo(
    name: string,
    duration: int,
    price: real,
    tax: real,
    description: string,
    status: PlanStatus)

  type Plan = Keyed<PlanInfo>

  /** The object handed to addPlan/updatePlan: a field is None when the key is absent. */
  datatype PlanPayload = PlanPayload(
    id: Option<int>,
    name: Option<string>,
    duration: Option<int>,
    price: Option<real>,
    tax: Option<real>,
    description: Option<string>,
    status: Option<PlanStatus>)

  const PlanNotFound: ApiError := ApiError("Plan not found", Some(404))
  const FetchFailed: ApiError := ApiError("Network error: Failed to fetch plans", None)

  const SeedPlans: seq<Plan> := [
    Keyed(1, PlanInfo("Basic Plan", 1, 30.0, 5.0,
                      "Perfect for beginners with access to basic equipment", Active)),
    Keyed(2, PlanInfo("Standard Plan", 3, 80.0, 12.0,
                      "Great value with 3-month commitment", Active)),
    Keyed(3, PlanInfo("Premium Plan", 6, 150.0, 22.5,
                      "Best value with premium amenities access", Active)),
    Keyed(4, PlanInfo("Annual Elite", 12, 280.0, 42.0,
                      "Full year access with all premium features", Active))
  ]

  /** getStoredPlans: the stored collection, or the seed when the key is missing,
      empty or not parseable. */
  function Load(cell: Option<seq<Plan>>): (r: seq<Plan>)
    ensures cell.None? ==> r == SeedPlans && |r| == 4
    ensures cell.Some? ==> r == cell.value
  {
    cell.GetOr(SeedPlans)
  }

  lemma SeedPlansShape()
    ensures |SeedPlans| == 4
    ensures forall k :: 0 <= k < 4 ==> SeedPlans[k].id == k + 1 && SeedPlans[k].fields.status == Active
    ensures [SeedPlans[0].fields.duration, SeedPlans[1].fields.duration,
             SeedPlans[2].fields.duration, SeedPlans[3].fields.duration] == [1, 3, 6, 12]
  {
  }

  /** The plan addPlan builds: a fresh id unless the payload brings one, the
      payload's fields, and status Active whatever the payload says. */
  function NewPlan(s: seq<Plan>, p: PlanPayload): (q: Plan)
    ensures q.fields.status == Active
    ensures p.id.None? ==> forall k :: 0 <= k < |s| ==> s[k].id < q.id
    ensures p.id.None? && s == [] ==> q.id == 1
    ensures p.name.Some? ==> q.fields.name == p.name.value
    ensures p.price.Some? ==> q.fields.price == p.price.value
    ensures p.duration.Some? ==> q.fields.duration == p.duration.value
    ensures p.tax.Some? ==> q.fields.tax == p.tax.value
    ensures p.description.Some? ==> q.fields.description == p.description.value
    ensures p.id.Some? ==> q.id == p.id.value
  {
    Keyed(
      p.id.GetOr(NextId(s)),
      PlanInfo(p.name.GetOr(""), p.duration.GetOr(0), p.price.GetOr(0.0), p.tax.GetOr(0.0),
               p.description.GetOr(""), Active))
  }

  /** The plan updatePlan stores: the payload's fields, status included, over the old ones. */
  function MergePlan(prev: Plan, p: PlanPayload): (q: Plan)
    ensures p.id.Some? ==> q.id == p.id.value
    ensures p.id.None? ==> q.id == prev.id
    ensures p.name.Some? ==> q.fields.name == p.name.value
    ensures p.name.None? ==> q.fields.name == prev.fields.name
    ensures p.duration.Some? ==> q.fields.duration == p.duration.value
    ensures p.duration.None? ==> q.fields.duration == prev.fields.duration
    ensures p.price.Some? ==> q.fields.price == p.price.value
    ensures p.price.None? ==> q.fields.price == prev.fields.price
    ensures p.tax.Some? ==> q.fields.tax == p.tax.value
    ensures p.tax.None? ==> q.fields.tax == prev.fields.tax
    ensures p.description.Some? ==> q.fields.description == p.description.value
    ensures p.description.None? ==> q.fields.description == prev.fields.description
    ensures p.status.Some? ==> q.fields.status == p.status.value
    ensures p.status.None? ==> q.fields.status == prev.fields.status
    ensures p == PlanPayload(None, None, None, None, None, None, None) ==> q == prev
  {
    Keyed(
      p.id.GetOr(prev.id),
      PlanInfo(p.name.GetOr(prev.fields.name), p.duration.GetOr(prev.fields.duration),
               p.price.GetOr(prev.fields.price), p.tax.GetOr(prev.fields.tax),
               p.description.GetOr(prev.fields.description), p.status.GetOr(prev.fields.status)))
  }

  /** Merging a payload that repeats the stored plan's own fields changes nothing,
      and merging twice is merging once. */
  lemma {:induction false} MergePlanIdempotent(prev: Plan, p: PlanPayload)
    ensures MergePlan(MergePlan(prev, p), p) == MergePlan(prev, p)
    ensures MergePlan(prev, PlanPayload(Some(prev.id), Some(prev.fields.name), Some(prev.fields.duration),
                                        Some(prev.fields.price), Some(prev.fields.tax),
                                        Some(prev.fields.description), Some(prev.fields.status))) == prev
  {
  }

  /** The plans back end: `stored` is the storage key, `cache` the module's
      `simulatedPlans` variable. */
  class PlanRepository {
    var stored: Option<seq<Plan>>
    var cache: seq<Plan>

    constructor (initial: Option<seq<Plan>>)
      ensures stored == initial && cache == Load(initial)
    {
      stored := initial;
      cache := Load(initial);
    }

    /** The collection the next call will work on. */
    function Current(): seq<Plan>
      reads this
    {
      Load(stored)
    }

    /** getPlans: the injected fault is checked before the reload, so a failing
        call leaves the cache as it was. */
    method GetPlans(fault: bool) returns (r: Result<Wrapped<Envelope<seq<Plan>>>, ApiError>)
      modifies this
      ensures stored == old(stored)
      ensures fault ==> r == Err(FetchFailed) && cache == old(cache)
      ensures !fault ==> cache == old(Current())
      ensures !fault ==> r == Ok(Wrapped(Envelope(true, cache, "Plans fetched successfully")))
    {
      if fault {
        return Err(FetchFailed);
      }
      cache := Load(stored);
      r := Ok(Wrapped(Envelope(true, cache, "Plans fetched successfully")));
    }

    /** addPlan: append the new plan at the end and persist. */
    method AddPlan(p: PlanPayload) returns (r: Wrapped<Envelope<Plan>>)
      modifies this
      ensures r == Wrapped(Envelope(true, NewPlan(old(Current()), p), "Plan added successfully"))
      ensures cache == old(Current()) + [r.data.data] && stored == Some(cache)
    {
      cache := Load(stored);
      var q := NewPlan(cache, p);
      cache := cache + [q];
      stored := Some(cache);
      r := Wrapped(Envelope(true, q, "Plan added successfully"));
    }

    /** updatePlan: replace the first plan with `id` by its merge and persist, or
        fail with a 404 leaving the stored collection as it was. */
    method UpdatePlan(id: int, p: PlanPayload) returns (r: Result<Wrapped<Envelope<Plan>>, ApiError>)
      modifies this
      ensures FindIndex(old(Current()), id).None? ==>
        r == Err(PlanNotFound) && stored == old(stored) && cache == old(Current())
      ensures FindIndex(old(Current()), id).Some? ==>
        var i := FindIndex(old(Current()), id).value;
        var q := MergePlan(old(Current())[i], p);
        && r == Ok(Wrapped(Envelope(true, q, "Plan updated successfully")))
        && cache == old(Current())[i := q] && stored == Some(cache)
    {
      cache := Load(stored);
      var i := FindIndex(cache, id);
      if i.None? {
        return Err(PlanNotFound);
      }
      var q := MergePlan(cache[i.value], p);
      cache := cache[i.value := q];
      stored := Some(cache);
      r := Ok(Wrapped(Envelope(true, q, "Plan updated successfully")));
    }

    /** deletePlan: filter the id out and persist, answering the removed plan, or
        fail with a 404 leaving the stored collection as it was. */
    method DeletePlan(id: int) returns (r: Result<Wrapped<Envelope<Plan>>, ApiError>)
      modifies this
      ensures FindIndex(old(Current()), id).None? ==>
        r == Err(PlanNotFound) && stored == old(stored) && cache == old(Current())
      ensures FindIndex(old(Current()), id).Some? ==>
        var i := FindIndex(old(Current()), id).value;
        && r == Ok(Wrapped(Envelope(true, old(Current())[i], "Plan deleted successfully")))
        && cache == WithoutId(old(Current()), id) && stored == Some(cache)
        && |cache| < |old(Current())| && IsSubsequence(cache, old(Current()))
    {
      cache := Load(stored);
      var i := FindIndex(cache, id);
      if i.None? {
        return Err(PlanNotFound);
      }
      var q := cache[i.value];
      WithoutPresentIdShrinks(cache, id, i.value);
      WithoutIdKeepsOrder(cache, id);
      cache := WithoutId(cache, id);
      stored := Some(cache);
      r := Ok(Wrapped(Envelope(true, q, "Plan deleted successfully")));
    }

    /** clearData: drop the key; the reload then yields the seed. */
    method ClearData() returns (r: Wrapped<Ack>)
      modifies this
      ensures stored.None? && cache == SeedPlans && Current() == SeedPlans
      ensures r == Wrapped(Ack(true, "Plans data cleared successfully"))
    {
      stored := None;
      cache := Load(stored);
      r := Wrapped(Ack(true, "Plans data cleared successfully"));
    }
  }
}
