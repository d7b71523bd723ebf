/** Aggregate values over a set of resource allocations. */
module ResourceAllocations {
  import opened Outcomes
  import opened Validation
  import opened Sums

  /** An amount of resources per day (a decimal). */
  datatype ResourcesPerDay = ResourcesPerDay(amount: real)

  /** The part of a resource allocation the aggregate reads. */
  datatype ResourceAllocation = ResourceAllocation(id: int, assignedHours: int, resourcesPerDay: ResourcesPerDay)

  function AssignedHours(a: ResourceAllocation): int {
    a.assignedHours
  }

  /** The total hours of a set of allocations. */
  ghost function TotalHours(allocations: set<ResourceAllocation>): int {
    SetSum(allocations, AssignedHours)
  }

  /** The set a collection becomes as a `HashSet`: repeated allocations collapse. */
  function Distinct(allocations: seq<ResourceAllocation>): (s: set<ResourceAllocation>)
    ensures forall a :: a in s <==> a in allocations
    ensures |s| == 0 <==> |allocations| == 0
    ensures |s| <= |allocations|
  {
    if |allocations| == 0 then {}
    else
      var rest := Distinct(allocations[1..]);
      assert forall a :: a in allocations <==> a == allocations[0] || a in allocations[1..];
      {allocations[0]} + rest
  }

  /**
   * Adding an allocation to the input adds its hours to the total, unless it
   * was already there: a repeated allocation is counted once.
   */
  lemma TotalHoursAppend(allocations: seq<ResourceAllocation>, a: ResourceAllocation)
    ensures TotalHours(Distinct(allocations + [a])) ==
            TotalHours(Distinct(allocations)) + if a in allocations then 0 else a.assignedHours
  {
    var s := Distinct(allocations);
    if a in allocations {
      assert Distinct(allocations + [a]) == s;
    } else {
      assert Distinct(allocations + [a]) == s + {a};
      SetSumInsert(s, AssignedHours, a);
    }
  }

  class AggregateOfResourceAllocations {
    var resourceAllocations: set<ResourceAllocation>

    /** Copies the allocations into a set. */
    constructor (allocations: seq<ResourceAllocation>)
      ensures resourceAllocations == Distinct(allocations)
      ensures IsEmpty() <==> |allocations| == 0
    {
      resourceAllocations := Distinct(allocations);
    }

    /** `getTotalHours`: the assigned hours of the distinct allocations, added up. */
    method GetTotalHours() returns (sum: int)
      ensures sum == TotalHours(resourceAllocations)
      ensures IsEmpty() ==> sum == 0
      ensures (forall a :: a in resourceAllocations ==> a.assignedHours >= 0) ==> sum >= 0
    {
      sum := 0;
      var rest := resourceAllocations;
      while rest != {}
        invariant rest <= resourceAllocations
        invariant sum + TotalHours(rest) == TotalHours(resourceAllocations)
        decreases rest
      {
        var a := Pick(rest);
        SetSumRemove(rest, AssignedHours, a);
        sum := sum + a.assignedHours;
        rest := rest - {a};
      }
      if forall a :: a in resourceAllocations ==> a.assignedHours >= 0 {
        SetSumNonNegative(resourceAllocations, AssignedHours);
      }
    }

    /** `getResourcesPerDay`: each distinct allocation mapped to its resources per day. */
    method GetResourcesPerDay() returns (result: map<ResourceAllocation, ResourcesPerDay>)
      ensures result.Keys == resourceAllocations
      ensures forall a :: a in result ==> result[a] == a.resourcesPerDay
    {
      result := map[];
      var rest := resourceAllocations;
      while rest != {}
        invariant rest <= resourceAllocations
        invariant result.Keys == resourceAllocations - rest
        invariant forall a :: a in result ==> result[a] == a.resourcesPerDay
        decreases rest
      {
        var r := Pick(rest);
        result := result[r := r.resourcesPerDay];
        rest := rest - {r};
      }
    }

    /** `isEmpty`: no allocation is held, so the total is zero. */
    predicate IsEmpty()
      reads this
      ensures IsEmpty() <==> |resourceAllocations| == 0
      ensures IsEmpty() ==> TotalHours(resourceAllocations) == 0
    {
      resourceAllocations == {}
    }
  }

  /**
   * The constructor's argument checks: a null collection or a null element
   * is rejected; otherwise the aggregate holds the distinct allocations.
   */
  method NewAggregate(allocations: Option<seq<Option<ResourceAllocation>>>)
    returns (r: Result<AggregateOfResourceAllocations>)
    ensures r.Ok? <==> allocations.Some? && NoNulls(allocations.value)
    ensures r.Err? ==> r.error == NotNullNoNullElements(allocations).error
    ensures r.Ok? ==> fresh(r.value) &&
                      r.value.resourceAllocations == Distinct(Unwrapped(allocations.value))
  {
    var checked := NotNullNoNullElements(allocations);
    if checked.Err? {
      return Err(checked.error);
    }
    var aggregate := new AggregateOfResourceAllocations(checked.value);
    assert checked.value == Unwrapped(allocations.value);
    r := Ok(aggregate);
  }
}
