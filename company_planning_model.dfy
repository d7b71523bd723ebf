/**
 * The data logic under the company planning view: the per-day load split
 * into hours within capacity and overload, the days of a chart interval,
 * the overload line raised by the maximum availability, the hours reported
 * per day, and the list of top-level tasks shown, ordered by start date.
 */
module CompanyPlanning {
  import opened Outcomes
  import opened Sums

  /** A date, as a day number. */
  type Day = int

  /** A resource (worker or machine), by identity. */
  type ResourceId = int

  /** A resource calendar: the workable hours on each date. */
  type Calendar = Day -> int

  /**
   * The hours `resource` can work on `day`: its calendar's hours, or the
   * default working day's hours (`defaultHours`) when it has no calendar
   * (`calendars` holds the resources that have one).
   */
  function WorkableHours(calendars: map<ResourceId, Calendar>, defaultHours: int,
                         resource: ResourceId, day: Day): (h: int)
    ensures resource in calendars ==> h == calendars[resource](day)
    ensures resource !in calendars ==> h == defaultHours
  {
    if resource in calendars then calendars[resource](day) else defaultHours
  }

  /** The part of `assigned` hours that fits in `workable` hours. */
  function WithinCapacity(assignedHours: int, workable: int): (h: int)
    ensures h <= assignedHours && h <= workable
    ensures h == assignedHours || h == workable
  {
    if assignedHours <= workable then assignedHours else workable
  }

  /** The part of `assigned` hours beyond `workable` hours. */
  function Overload(assignedHours: int, workable: int): (h: int)
    ensures h >= 0
    ensures h > 0 <==> assignedHours > workable
    ensures h == assignedHours - WithinCapacity(assignedHours, workable)
  {
    if assignedHours > workable then assignedHours - workable else 0
  }

  /** A day's assigned hours split into the two parts add back up. */
  lemma SplitAddsUp(assignedHours: int, workable: int)
    ensures WithinCapacity(assignedHours, workable) + Overload(assignedHours, workable) == assignedHours
  {
  }

  // ---------------------------------------------------------------- load

  /** Assigned hours of each resource on one day. */
  type DayLoad = map<ResourceId, int>

  function AssignedOf(load: DayLoad): ResourceId -> int {
    r => if r in load then load[r] else 0
  }

  function WithinOf(load: DayLoad, calendars: map<ResourceId, Calendar>, defaultHours: int, day: Day): ResourceId -> int {
    r => if r in load then WithinCapacity(load[r], WorkableHours(calendars, defaultHours, r, day)) else 0
  }

  function OverloadOf(load: DayLoad, calendars: map<ResourceId, Calendar>, defaultHours: int, day: Day): ResourceId -> int {
    r => if r in load then Overload(load[r], WorkableHours(calendars, defaultHours, r, day)) else 0
  }

  /** The hours assigned on a day, over all its resources. */
  ghost function DayAssigned(load: DayLoad): int {
    SetSum(load.Keys, AssignedOf(load))
  }

  /** The hours assigned on a day that fit each resource's workable hours. */
  ghost function DayWithinCapacity(load: DayLoad, calendars: map<ResourceId, Calendar>, defaultHours: int, day: Day): int {
    SetSum(load.Keys, WithinOf(load, calendars, defaultHours, day))
  }

  /** The hours assigned on a day beyond each resource's workable hours. */
  ghost function DayOverload(load: DayLoad, calendars: map<ResourceId, Calendar>, defaultHours: int, day: Day): int {
    SetSum(load.Keys, OverloadOf(load, calendars, defaultHours, day))
  }

  /**
   * `calculateHoursAdditionByDayWithoutOverload`, before the zoom
   * conversion: every day of `grouped` mapped to the sum over its resources
   * of the assigned hours capped at the resource's workable hours.
   */
  method HoursAdditionByDayWithoutOverload(grouped: map<Day, DayLoad>,
                                           calendars: map<ResourceId, Calendar>, defaultHours: int)
    returns (m: map<Day, int>)
    ensures m.Keys == grouped.Keys
    ensures forall day :: day in m ==> m[day] == DayWithinCapacity(grouped[day], calendars, defaultHours, day)
  {
    m := map[];
    var days := grouped.Keys;
    while days != {}
      invariant days <= grouped.Keys
      invariant m.Keys == grouped.Keys - days
      invariant forall day :: day in m ==> m[day] == DayWithinCapacity(grouped[day], calendars, defaultHours, day)
      decreases days
    {
      var day := Pick(days);
      var load := grouped[day];
      var result := 0;
      var resources := load.Keys;
      while resources != {}
        invariant resources <= load.Keys
        invariant result + SetSum(resources, WithinOf(load, calendars, defaultHours, day)) ==
                  DayWithinCapacity(load, calendars, defaultHours, day)
        decreases resources
      {
        var resource := Pick(resources);
        SetSumRemove(resources, WithinOf(load, calendars, defaultHours, day), resource);
        var workableHours := defaultHours;
        if resource in calendars {
          workableHours := calendars[resource](day);
        }
        var assignedHours := load[resource];
        if assignedHours <= workableHours {
          result := result + assignedHours;
        } else {
          result := result + workableHours;
        }
        resources := resources - {resource};
      }
      m := m[day := result];
      days := days - {day};
    }
  }

  /**
   * `calculateHoursAdditionByDayJustOverload`, before the zoom conversion:
   * every day of `grouped` mapped to the sum, over its resources assigned
   * more than they can work, of the excess hours.
   */
  method HoursAdditionByDayJustOverload(grouped: map<Day, DayLoad>,
                                        calendars: map<ResourceId, Calendar>, defaultHours: int)
    returns (m: map<Day, int>)
    ensures m.Keys == grouped.Keys
    ensures forall day :: day in m ==> m[day] == DayOverload(grouped[day], calendars, defaultHours, day)
    ensures forall day :: day in m ==> m[day] >= 0
  {
    m := map[];
    var days := grouped.Keys;
    while days != {}
      invariant days <= grouped.Keys
      invariant m.Keys == grouped.Keys - days
      invariant forall day :: day in m ==> m[day] == DayOverload(grouped[day], calendars, defaultHours, day)
      decreases days
    {
      var day := Pick(days);
      var load := grouped[day];
      var result := 0;
      var resources := load.Keys;
      while resources != {}
        invariant resources <= load.Keys
        invariant result + SetSum(resources, OverloadOf(load, calendars, defaultHours, day)) ==
                  DayOverload(load, calendars, defaultHours, day)
        decreases resources
      {
        var resource := Pick(resources);
        SetSumRemove(resources, OverloadOf(load, calendars, defaultHours, day), resource);
        var workableHours := defaultHours;
        if resource in calendars {
          workableHours := calendars[resource](day);
        }
        var assignedHours := load[resource];
        if assignedHours > workableHours {
          result := result + (assignedHours - workableHours);
        }
        resources := resources - {resource};
      }
      m := m[day := result];
      days := days - {day};
    }
    forall day | day in m
      ensures m[day] >= 0
    {
      DayOverloadNonNegative(grouped[day], calendars, defaultHours, day);
    }
  }

  /** A day's overload is never negative. */
  lemma DayOverloadNonNegative(load: DayLoad, calendars: map<ResourceId, Calendar>, defaultHours: int, day: Day)
    ensures DayOverload(load, calendars, defaultHours, day) >= 0
  {
    SetSumNonNegative(load.Keys, OverloadOf(load, calendars, defaultHours, day));
  }

  /**
   * A day's hours within capacity and its overload add up to the hours
   * assigned that day; so neither exceeds the assigned hours.
   */
  lemma DayLoadSplitsAssigned(load: DayLoad, calendars: map<ResourceId, Calendar>, defaultHours: int, day: Day)
    ensures DayWithinCapacity(load, calendars, defaultHours, day) + DayOverload(load, calendars, defaultHours, day)
            == DayAssigned(load)
    ensures DayWithinCapacity(load, calendars, defaultHours, day) <= DayAssigned(load)
  {
    SetSumAdd(load.Keys, WithinOf(load, calendars, defaultHours, day),
              OverloadOf(load, calendars, defaultHours, day), AssignedOf(load));
    DayOverloadNonNegative(load, calendars, defaultHours, day);
  }

  /** A resource without a calendar is measured against the default working day. */
  lemma NoCalendarUsesDefault(calendars: map<ResourceId, Calendar>, defaultHours: int, resource: ResourceId,
                              day: Day, assignedHours: int)
    requires resource !in calendars
    ensures WithinOf(map[resource := assignedHours], calendars, defaultHours, day)(resource) ==
            if assignedHours <= defaultHours then assignedHours else defaultHours
    ensures OverloadOf(map[resource := assignedHours], calendars, defaultHours, day)(resource) ==
            if assignedHours > defaultHours then assignedHours - defaultHours else 0
  {
  }

  // ----------------------------------------------------- chart interval

  /**
   * `getResourcesByDateBetween`: every day from `start` to `finish`
   * inclusive mapped to the whole resource list; nothing when `start` is
   * after `finish`.
   */
  method ResourcesByDateBetween(resources: seq<ResourceId>, start: Day, finish: Day)
    returns (result: map<Day, seq<ResourceId>>)
    ensures forall day :: day in result <==> start <= day <= finish
    ensures forall day :: day in result ==> result[day] == resources
    ensures start > finish ==> result == map[]
  {
    result := map[];
    var date := start;
    while date <= finish
      invariant start <= date <= finish + 1 || (date == start && start > finish)
      invariant forall day :: day in result <==> start <= day < date
      invariant forall day :: day in result ==> result[day] == resources
      decreases finish - date
    {
      result := result[date := resources];
      date := date + 1;
    }
  }

  /**
   * The loop of `getOverloadPlotInfo`: every day of the overload map that
   * lies in [`start`, `finish`] is raised by that day's maximum
   * availability, and every other day keeps its value. A day in the
   * interval without a maximum availability is a null unboxing.
   */
  method AddMaxAvailability(overload: map<Day, int>, maxAvailability: map<Day, int>, start: Day, finish: Day)
    returns (r: Result<map<Day, int>>)
    ensures r.Ok? <==> forall day :: day in overload && start <= day <= finish ==> day in maxAvailability
    ensures r.Err? ==> r.error == NullPointer
    ensures r.Ok? ==> r.value.Keys == overload.Keys
    ensures r.Ok? ==> forall day :: day in overload && start <= day <= finish ==>
                        r.value[day] == overload[day] + maxAvailability[day]
    ensures r.Ok? ==> forall day :: day in overload && !(start <= day <= finish) ==>
                        r.value[day] == overload[day]
  {
    var mapDayAssignments := overload;
    var days := overload.Keys;
    while days != {}
      invariant days <= overload.Keys
      invariant mapDayAssignments.Keys == overload.Keys
      invariant forall day :: day in overload - days && start <= day <= finish ==>
                  day in maxAvailability && mapDayAssignments[day] == overload[day] + maxAvailability[day]
      invariant forall day :: day in overload && (day in days || !(start <= day <= finish)) ==>
                  mapDayAssignments[day] == overload[day]
      decreases days
    {
      var day := Pick(days);
      if start <= day && day <= finish {
        if day !in maxAvailability {
          return Err(NullPointer);
        }
        var overloadHours := mapDayAssignments[day];
        var maxHours := maxAvailability[day];
        mapDayAssignments := mapDayAssignments[day := overloadHours + maxHours];
      }
      days := days - {day};
    }
    r := Ok(mapDayAssignments);
  }

  // ------------------------------------------------------ work reports

  /** A work report line: the date of its report and its hours. */
  datatype WorkReportLine = WorkReportLine(date: Day, numHours: int)

  /** The dates that have at least one line. */
  function ReportDays(lines: seq<WorkReportLine>): set<Day> {
    if |lines| == 0 then {} else ReportDays(lines[..|lines| - 1]) + {lines[|lines| - 1].date}
  }

  /** The report days are exactly the dates of the lines. */
  lemma {:induction false} ReportDaysAreLineDates(lines: seq<WorkReportLine>, day: Day)
    ensures day in ReportDays(lines) <==> exists i :: 0 <= i < |lines| && lines[i].date == day
  {
    if |lines| > 0 {
      var init := lines[..|lines| - 1];
      ReportDaysAreLineDates(init, day);
      assert forall i :: 0 <= i < |init| ==> init[i] == lines[i];
    }
  }

  /** The hours of the lines dated `day`. */
  function HoursOn(lines: seq<WorkReportLine>, day: Day): int {
    if |lines| == 0 then 0
    else
      var last := lines[|lines| - 1];
      HoursOn(lines[..|lines| - 1], day) + if last.date == day then last.numHours else 0
  }

  /** The hours of all lines. */
  function TotalReportedHours(lines: seq<WorkReportLine>): int {
    if |lines| == 0 then 0 else TotalReportedHours(lines[..|lines| - 1]) + lines[|lines| - 1].numHours
  }

  /**
   * `getWorkReportCost`: each date that has lines mapped to the sum of the
   * hours of its lines; dates without lines are absent.
   */
  method WorkReportCost(workReportLines: seq<WorkReportLine>) returns (result: map<Day, int>)
    ensures result.Keys == ReportDays(workReportLines)
    ensures forall day :: day in result ==> result[day] == HoursOn(workReportLines, day)
    ensures |workReportLines| == 0 ==> result == map[]
  {
    result := map[];
    if |workReportLines| == 0 {
      return;
    }
    var i := 0;
    while i < |workReportLines|
      invariant 0 <= i <= |workReportLines|
      invariant result.Keys == ReportDays(workReportLines[..i])
      invariant forall day :: day in result ==> result[day] == HoursOn(workReportLines[..i], day)
    {
      var line := workReportLines[i];
      assert workReportLines[..i + 1][..i] == workReportLines[..i];
      var day := line.date;
      var cost := line.numHours;
      if day !in result {
        HoursOnAbsent(workReportLines[..i], day);
        result := result[day := 0];
      }
      result := result[day := result[day] + cost];
      i := i + 1;
    }
    assert workReportLines[..i] == workReportLines;
  }

  /** A date without lines has no hours. */
  lemma {:induction false} HoursOnAbsent(lines: seq<WorkReportLine>, day: Day)
    requires day !in ReportDays(lines)
    ensures HoursOn(lines, day) == 0
  {
    if |lines| > 0 {
      var init := lines[..|lines| - 1];
      assert forall i :: 0 <= i < |init| ==> init[i] == lines[i];
      HoursOnAbsent(init, day);
    }
  }

  function HoursOnOf(lines: seq<WorkReportLine>): Day -> int {
    day => HoursOn(lines, day)
  }

  /** No hours are lost or invented: the per-day hours add up to the hours of all lines. */
  lemma {:induction false} WorkReportCostConserves(lines: seq<WorkReportLine>)
    ensures SetSum(ReportDays(lines), HoursOnOf(lines)) == TotalReportedHours(lines)
  {
    if |lines| > 0 {
      var init := lines[..|lines| - 1];
      var last := lines[|lines| - 1];
      var days := ReportDays(init);
      WorkReportCostConserves(init);
      var extra := (day: Day) => if day == last.date then last.numHours else 0;
      assert ReportDays(lines) == days + {last.date};
      if last.date in days {
        assert ReportDays(lines) == days;
        SetSumAdd(days, HoursOnOf(init), extra, HoursOnOf(lines));
        SetSumSingle(days, extra, last.date, last.numHours);
      } else {
        SetSumInsert(days, HoursOnOf(lines), last.date);
        HoursOnAbsent(init, last.date);
        SetSumCongruent(days, HoursOnOf(lines), HoursOnOf(init));
      }
    }
  }

  // ---------------------------------------------------- tasks shown

  /** A task element: identity and start date (null when it has none). */
  datatype TaskElement = TaskElement(id: int, startDate: Option<Day>)

  /** An order and the task group planned for it, if any. */
  datatype Order = Order(id: int, associatedTaskElement: Option<TaskElement>)

  /** The task elements of the orders that have one, in order. */
  function TopLevel(orders: seq<Order>): seq<TaskElement> {
    if |orders| == 0 then []
    else
      var init := TopLevel(orders[..|orders| - 1]);
      match orders[|orders| - 1].associatedTaskElement
      case None => init
      case Some(t) => init + [t]
  }

  /** `retainOnlyTopLevel`: the non-null task elements associated with the orders, in order. */
  method RetainOnlyTopLevel(orders: seq<Order>) returns (result: seq<TaskElement>)
    ensures result == TopLevel(orders)
  {
    result := [];
    var i := 0;
    while i < |orders|
      invariant 0 <= i <= |orders|
      invariant result == TopLevel(orders[..i])
    {
      assert orders[..i + 1][..i] == orders[..i];
      var associatedTaskElement := orders[i].associatedTaskElement;
      if associatedTaskElement.Some? {
        result := result + [associatedTaskElement.value];
      }
      i := i + 1;
    }
    assert orders[..i] == orders;
  }

  /** Exactly the associated task elements are kept. */
  lemma {:induction false} TopLevelMembers(orders: seq<Order>, t: TaskElement)
    ensures t in TopLevel(orders) <==>
            exists i :: 0 <= i < |orders| && orders[i].associatedTaskElement == Some(t)
  {
    if |orders| > 0 {
      var init := orders[..|orders| - 1];
      TopLevelMembers(init, t);
      assert forall i :: 0 <= i < |init| ==> init[i] == orders[i];
    }
  }

  /** Keeping the top level of two lists of orders one after the other keeps their order. */
  lemma {:induction false} TopLevelAppend(xs: seq<Order>, ys: seq<Order>)
    ensures TopLevel(xs + ys) == TopLevel(xs) + TopLevel(ys)
  {
    if |ys| > 0 {
      var init := ys[..|ys| - 1];
      assert (xs + ys)[..|xs + ys| - 1] == xs + init;
      TopLevelAppend(xs, init);
    } else {
      assert xs + ys == xs;
    }
  }

  /** `Date.compareTo` on start dates. */
  function CompareDays(a: Day, b: Day): (c: int)
    ensures c < 0 <==> a < b
    ensures c == 0 <==> a == b
    ensures -1 <= c <= 1
  {
    if a < b then -1 else if a == b then 0 else 1
  }

  function Sign(x: int): int {
    if x < 0 then -1 else if x == 0 then 0 else 1
  }

  /**
   * Part of the contract every `Comparator` must meet: exchanging the
   * arguments flips the sign of the result.
   */
  ghost predicate IsAntisymmetric(compare: (TaskElement, TaskElement) -> int) {
    forall x, y :: Sign(compare(x, y)) == -Sign(compare(y, x))
  }

  /** The rest of that contract: ordering is transitive. */
  ghost predicate IsTransitive(compare: (TaskElement, TaskElement) -> int) {
    forall x, y, z :: compare(x, y) <= 0 && compare(y, z) <= 0 ==> compare(x, z) <= 0
  }

  /**
   * The comparator of `sortByStartDate` as written: an element without a
   * start date goes first, whatever it is compared with.
   */
  function CompareByStartDateAsWritten(o1: TaskElement, o2: TaskElement): (c: int)
    ensures o1.startDate.None? ==> c == -1
    ensures o1.startDate.Some? && o2.startDate.None? ==> c == 1
    ensures o1.startDate.Some? && o2.startDate.Some? ==>
              (c < 0 <==> o1.startDate.value < o2.startDate.value) &&
              (c == 0 <==> o1.startDate.value == o2.startDate.value)
  {
    if o1.startDate.None? then -1
    else if o2.startDate.None? then 1
    else CompareDays(o1.startDate.value, o2.startDate.value)
  }

  /**
   * Two elements without a start date (or one such element and itself)
   * each compare as smaller than the other, which breaks the comparator
   * contract that a sort relies on.
   */
  lemma AsWrittenComparatorIsNotAntisymmetric()
    ensures !IsAntisymmetric(CompareByStartDateAsWritten)
  {
    var undated := TaskElement(0, None);
    assert CompareByStartDateAsWritten(undated, undated) == -1;
  }

  /** The comparator as intended: elements without a start date first, then by start date. */
  function CompareByStartDate(o1: TaskElement, o2: TaskElement): int {
    if o1.startDate.None? && o2.startDate.None? then 0
    else if o1.startDate.None? then -1
    else if o2.startDate.None? then 1
    else CompareDays(o1.startDate.value, o2.startDate.value)
  }

  /** `o1` may stand before `o2`: it has no start date, or neither starts later than the other does. */
  predicate StartsNoLater(o1: TaskElement, o2: TaskElement) {
    o1.startDate.None? || (o2.startDate.Some? && o1.startDate.value <= o2.startDate.value)
  }

  /**
   * The corrected comparator meets the comparator contract, orders by
   * `StartsNoLater`, and differs from the written one only on two elements
   * without a start date.
   */
  lemma CorrectedComparatorIsConsistent()
    ensures IsAntisymmetric(CompareByStartDate) && IsTransitive(CompareByStartDate)
    ensures forall x, y :: CompareByStartDate(x, y) <= 0 <==> StartsNoLater(x, y)
    ensures forall x: TaskElement, y: TaskElement :: !(x.startDate.None? && y.startDate.None?) ==>
              CompareByStartDate(x, y) == CompareByStartDateAsWritten(x, y)
  {
  }

  /**
   * An insertion sort moves an element only when the comparator answers
   * positive, and there the two comparators agree: sorting with the one as
   * written takes the same steps as sorting with the corrected one.
   */
  lemma ComparatorsAgreeOnSwaps()
    ensures forall x: TaskElement, y: TaskElement ::
              CompareByStartDateAsWritten(x, y) > 0 <==> CompareByStartDate(x, y) > 0
  {
  }

  ghost predicate SortedByStartDate(s: seq<TaskElement>) {
    forall i, j :: 0 <= i < j < |s| ==> StartsNoLater(s[i], s[j])
  }

  /** Exchanges two neighbouring elements. */
  method SwapAdjacent(a: array<TaskElement>, j: int)
    requires 0 < j < a.Length
    modifies a
    ensures a[j - 1] == old(a[j]) && a[j] == old(a[j - 1])
    ensures forall k :: 0 <= k < a.Length && k != j - 1 && k != j ==> a[k] == old(a[k])
    ensures multiset(a[..]) == multiset(old(a[..]))
  {
    a[j - 1], a[j] := a[j], a[j - 1];
  }

  /** `Collections.sort` with the start-date comparator, on the copied list. */
  method SortInPlace(a: array<TaskElement>)
    modifies a
    ensures SortedByStartDate(a[..])
    ensures multiset(a[..]) == multiset(old(a[..]))
  {
    var i := 0;
    while i < a.Length
      invariant 0 <= i <= a.Length
      invariant forall p, q :: 0 <= p < q < i ==> StartsNoLater(a[p], a[q])
      invariant multiset(a[..]) == multiset(old(a[..]))
    {
      var j := i;
      while j > 0 && CompareByStartDate(a[j - 1], a[j]) > 0
        invariant 0 <= j <= i
        invariant forall p, q :: 0 <= p < q <= i && p != j && q != j ==> StartsNoLater(a[p], a[q])
        invariant forall q :: j < q <= i ==> StartsNoLater(a[j], a[q])
        invariant multiset(a[..]) == multiset(old(a[..]))
      {
        SwapAdjacent(a, j);
        j := j - 1;
      }
      i := i + 1;
    }
  }

  /**
   * `sortByStartDate`: a sorted copy of the list; the list itself is a
   * value and is left as it was.
   */
  method SortByStartDate(list: seq<TaskElement>) returns (result: seq<TaskElement>)
    ensures SortedByStartDate(result)
    ensures multiset(result) == multiset(list)
    ensures |result| == |list|
  {
    var copy := new TaskElement[|list|](i requires 0 <= i < |list| => list[i]);
    assert copy[..] == list;
    SortInPlace(copy);
    result := copy[..];
    assert |result| == |multiset(result)| == |multiset(list)| == |list|;
  }

  /** The elements `createConfiguration` shows: the top-level task elements, sorted by start date. */
  method TasksToShow(orders: seq<Order>) returns (toShow: seq<TaskElement>)
    ensures SortedByStartDate(toShow)
    ensures multiset(toShow) == multiset(TopLevel(orders))
  {
    var topLevel := RetainOnlyTopLevel(orders);
    toShow := SortByStartDate(topLevel);
  }
}
