# LibrePlan planning core, modelled in Dafny

LibrePlan (formerly NavalPlanner) is a project-planning web application. This
project models the self-contained logic underneath its planning views and
proves properties of it:

- **Combined work hours** (`combined_work_hours.dfy`): a calendar built from
  a non-empty list of work-hour sources, whose hours on a date are the
  minimum of the sources' hours. Construction rejects a null list, a null
  source and an empty list.
- **Company load aggregation** (`company_planning_model.dfy`): the data
  logic of the company planning view. It splits each day's assigned hours per
  resource into a part within the resource's workable hours and an overload
  part. It lists the days of a chart interval and raises the overload line by
  the maximum availability inside the interval. It sums work-report hours per
  day. It also picks the top-level task of each order and sorts those tasks
  by start date.
- **Resource-allocation aggregate** (`aggregate_of_resource_allocations.dfy`):
  a set of allocations with total hours, emptiness and resources per day.
- **Progress ("advance") types** (`advance_type.dfy`,
  `predefined_advanced_types.dfy`): a mutable entity whose setters guard
  the invariant "maximum > 0, and ≤ 100 for a percentage type", and the three
  predefined types.

Shared modules: `outcomes.dfy` (null references as `Option`, exceptions as
`Result`/`Outcome` with an `Error`), `validation.dfy` (the
commons-lang `Validate` checks) and `sums.dfy` (sums over a set, which
the code computes by iterating a `HashSet` or a key set in no fixed order).

Representation choices:

- Dates are integer day numbers.
- `BigDecimal` values are exact reals.
- Hours are unbounded integers.
- A calendar or work-hour source is a function from day to hours.
- A resource is an integer identity. Its calendar, if it has one, is looked
  up in a map. The default working day's hours are a parameter.
- The data-access lists (orders, day assignments, work-report lines) are
  input sequences and maps.
- Loops over Java collections are `while` loops with invariants. Each such
  method is proved against a specification function.

`CompanyPlanning.DayLoadSplitsAssigned` proves that a day's within-capacity
sum plus its overload sum equals its assigned hours.

## Model

| member | source | states |
|---|---|---|
| `Validation.NotNullNoNullElements` | navalplanner-business/src/main/java/org/navalplanner/business/planner/entities/AggregateOfResourceAllocations.java:41-42 | a null collection fails `notNull`; otherwise the first null element fails `noNullElements` with its index; otherwise the elements are returned in order |
| `CombinedWorkHours.MinOf` | navalplanner-business/src/main/java/org/navalplanner/business/calendars/entities/CombinedWorkHours.java:33-43 | succeeds iff the list is non-null, has no null element and is non-empty; the checks run in that order: a null list fails `notNull`, a null element fails `noNullElements` at the first null's index, an empty list fails `isTrue`; on success the calendar holds at least one source, the list's elements in order |
| `CombinedWorkHours.Combined.StartHours` | navalplanner-business/src/main/java/org/navalplanner/business/calendars/entities/CombinedWorkHours.java:74-77 | the fold starts from the first source's own hours on the date |
| `CombinedWorkHours.Combined.UpdateHours` | navalplanner-business/src/main/java/org/navalplanner/business/calendars/entities/CombinedWorkHours.java:68-72 | the updated value is at most the running value and at most the source's hours, and equals one of them |
| `CombinedWorkHours.GetWorkableHours` | navalplanner-business/src/main/java/org/navalplanner/business/calendars/entities/CombinedWorkHours.java:45-53 | null exactly for an empty list, so never for a calendar built by the constructor; otherwise the left fold of the sources, which is at most every source's hours and equals some source's hours |
| `CombinedWorkHours.MinHoursIsLowerBound` | navalplanner-business/src/main/java/org/navalplanner/business/calendars/entities/CombinedWorkHours.java:46-53 | for every date the combined hours are ≤ the hours of every source |
| `CombinedWorkHours.MinHoursIsAttained` | navalplanner-business/src/main/java/org/navalplanner/business/calendars/entities/CombinedWorkHours.java:46-53 | for every date the combined hours equal the hours of some source |
| `CombinedWorkHours.MinHoursSingle` | navalplanner-business/src/main/java/org/navalplanner/business/calendars/entities/CombinedWorkHours.java:48-50 | with one source the combined hours are that source's hours |
| `CombinedWorkHours.MinHoursOrderIndependent` | navalplanner-business/src/main/java/org/navalplanner/business/calendars/entities/CombinedWorkHours.java:47-52 | two source lists that give the same set of hour values on a date combine to the same hours, whatever their order or repetitions |
| `CombinedWorkHours.MinHoursNoMoreThanOther` | navalplanner-business/src/main/java/org/navalplanner/business/calendars/entities/CombinedWorkHours.java:47-52 | a list whose values include all values of another has a minimum no higher than the other's |
| `CombinedWorkHours.MinHoursReversed` | navalplanner-business/src/main/java/org/navalplanner/business/calendars/entities/CombinedWorkHours.java:47-52 | reversing the sources leaves the combined hours unchanged |
| `CombinedWorkHours.MinOfAnswersMinimum` | navalplanner-business/src/main/java/org/navalplanner/business/calendars/entities/CombinedWorkHours.java:33-53 | a calendar built by `minOf` answers on every date with a value ≤ every given source and equal to one of them |
| `CompanyPlanning.WithinCapacity` | navalplanner-webapp/src/main/java/org/navalplanner/web/planner/company/CompanyPlanningModel.java:451-455 | the within-capacity part is ≤ the assigned hours and ≤ the workable hours, and equals one of them |
| `CompanyPlanning.Overload` | navalplanner-webapp/src/main/java/org/navalplanner/web/planner/company/CompanyPlanningModel.java:483-485 | the overload part is the assigned hours minus the within-capacity part; it is never negative, and is positive iff the assigned hours exceed the workable hours |
| `CompanyPlanning.SplitAddsUp` | navalplanner-webapp/src/main/java/org/navalplanner/web/planner/company/CompanyPlanningModel.java:451-485 | for one resource and day, the within-capacity part plus the overload part is the assigned hours |
| `CompanyPlanning.HoursAdditionByDayWithoutOverload` | navalplanner-webapp/src/main/java/org/navalplanner/web/planner/company/CompanyPlanningModel.java:432-462 | before the zoom conversion, the days are exactly the grouped days, each mapped to the sum over its resources of min(assigned, workable) |
| `CompanyPlanning.HoursAdditionByDayJustOverload` | navalplanner-webapp/src/main/java/org/navalplanner/web/planner/company/CompanyPlanningModel.java:464-492 | before the zoom conversion, the days are exactly the grouped days, each mapped to the sum of (assigned − workable) over overloaded resources, never negative |
| `CompanyPlanning.DayOverloadNonNegative` | navalplanner-webapp/src/main/java/org/navalplanner/web/planner/company/CompanyPlanningModel.java:483-488 | a day's overload sum is never negative |
| `CompanyPlanning.DayLoadSplitsAssigned` | navalplanner-webapp/src/main/java/org/navalplanner/web/planner/company/CompanyPlanningModel.java:432-492 | a day's within-capacity sum plus its overload sum is the day's total assigned hours; so the within-capacity sum is at most the total |
| `CompanyPlanning.NoCalendarUsesDefault` | navalplanner-webapp/src/main/java/org/navalplanner/web/planner/company/CompanyPlanningModel.java:440-446 | a resource without a calendar is measured against the default working day's hours, in both splits |
| `CompanyPlanning.WorkableHours` | navalplanner-webapp/src/main/java/org/navalplanner/web/planner/company/CompanyPlanningModel.java:440-446 | a resource with a calendar is measured by its calendar's hours on the day; one without is measured by the default working day's hours |
| `CompanyPlanning.ResourcesByDateBetween` | navalplanner-webapp/src/main/java/org/navalplanner/web/planner/company/CompanyPlanningModel.java:534-543 | the keys are exactly the days start..finish inclusive, each mapped to the full resource list; empty when start > finish |
| `CompanyPlanning.AddMaxAvailability` | navalplanner-webapp/src/main/java/org/navalplanner/web/planner/company/CompanyPlanningModel.java:410-417 | days in [start, finish] are raised by that day's maximum availability; every other day keeps its value; no day is added or removed; a day in the interval without a maximum availability is a null unboxing |
| `CompanyPlanning.WorkReportCost` | navalplanner-webapp/src/main/java/org/navalplanner/web/planner/company/CompanyPlanningModel.java:636-658 | the keys are exactly the dates that have lines, each mapped to the sum of the hours of its lines; empty for no lines |
| `CompanyPlanning.ReportDaysAreLineDates` | navalplanner-webapp/src/main/java/org/navalplanner/web/planner/company/CompanyPlanningModel.java:646-655 | a date is a key iff some line is dated that day |
| `CompanyPlanning.HoursOnAbsent` | navalplanner-webapp/src/main/java/org/navalplanner/web/planner/company/CompanyPlanningModel.java:651-654 | a date without lines has no hours |
| `CompanyPlanning.WorkReportCostConserves` | navalplanner-webapp/src/main/java/org/navalplanner/web/planner/company/CompanyPlanningModel.java:646-655 | the per-day sums add up to the hours of all lines |
| `CompanyPlanning.RetainOnlyTopLevel` | navalplanner-webapp/src/main/java/org/navalplanner/web/planner/company/CompanyPlanningModel.java:288-298 | the result is the associated task elements of the orders, in order, skipping orders without one |
| `CompanyPlanning.TopLevelMembers` | navalplanner-webapp/src/main/java/org/navalplanner/web/planner/company/CompanyPlanningModel.java:291-296 | an element is kept iff some order has it as its associated task element |
| `CompanyPlanning.TopLevelAppend` | navalplanner-webapp/src/main/java/org/navalplanner/web/planner/company/CompanyPlanningModel.java:291-296 | the top level of two order lists in sequence is their top levels in sequence, so order is kept |
| `CompanyPlanning.CompareDays` | navalplanner-webapp/src/main/java/org/navalplanner/web/planner/company/CompanyPlanningModel.java:282 | date comparison is negative, zero or positive as the first date is before, equal to or after the second |
| `CompanyPlanning.CompareByStartDateAsWritten` | navalplanner-webapp/src/main/java/org/navalplanner/web/planner/company/CompanyPlanningModel.java:275-283 | an element without a start date compares as smaller than anything; otherwise an element compared with an undated one is larger; two dated elements compare by their dates |
| `CompanyPlanning.AsWrittenComparatorIsNotAntisymmetric` | navalplanner-webapp/src/main/java/org/navalplanner/web/planner/company/CompanyPlanningModel.java:275-283 | the comparator as written is not antisymmetric: an element without a start date compares as smaller than itself |
| `CompanyPlanning.CorrectedComparatorIsConsistent` | navalplanner-webapp/src/main/java/org/navalplanner/web/planner/company/CompanyPlanningModel.java:273-284 | the corrected comparator is antisymmetric and transitive, orders by start date with undated elements first, and agrees with the written one unless both dates are null |
| `CompanyPlanning.ComparatorsAgreeOnSwaps` | navalplanner-webapp/src/main/java/org/navalplanner/web/planner/company/CompanyPlanningModel.java:273-284 | the written and the corrected comparator answer "greater" on exactly the same pairs, so an insertion sort takes the same steps with either |
| `CompanyPlanning.SwapAdjacent` | navalplanner-webapp/src/main/java/org/navalplanner/web/planner/company/CompanyPlanningModel.java:273 | exchanging two neighbours changes only those two positions and keeps the elements |
| `CompanyPlanning.SortInPlace` | navalplanner-webapp/src/main/java/org/navalplanner/web/planner/company/CompanyPlanningModel.java:273-284 | after sorting in place, the array is ordered by start date and is a permutation of what it held |
| `CompanyPlanning.SortByStartDate` | navalplanner-webapp/src/main/java/org/navalplanner/web/planner/company/CompanyPlanningModel.java:271-286 | the result is ordered by start date (undated first) and is a permutation of the input, which is left as it was |
| `CompanyPlanning.TasksToShow` | navalplanner-webapp/src/main/java/org/navalplanner/web/planner/company/CompanyPlanningModel.java:263 | the shown tasks are the top-level task elements, ordered by start date |
| `ResourceAllocations.Distinct` | navalplanner-business/src/main/java/org/navalplanner/business/planner/entities/AggregateOfResourceAllocations.java:43-44 | the set holds exactly the given allocations; it is empty iff none were given and is never larger than the input |
| `ResourceAllocations.TotalHoursAppend` | navalplanner-business/src/main/java/org/navalplanner/business/planner/entities/AggregateOfResourceAllocations.java:43-53 | adding an allocation to the input adds its hours to the total only if it was not already present |
| `ResourceAllocations.NewAggregate` | navalplanner-business/src/main/java/org/navalplanner/business/planner/entities/AggregateOfResourceAllocations.java:39-45 | construction fails on a null collection or a null element, with the matching failure; otherwise it holds the distinct allocations |
| `ResourceAllocations.AggregateOfResourceAllocations.constructor` | navalplanner-business/src/main/java/org/navalplanner/business/planner/entities/AggregateOfResourceAllocations.java:39-45 | the stored set is the distinct allocations, and the aggregate is empty iff none were supplied |
| `ResourceAllocations.AggregateOfResourceAllocations.GetTotalHours` | navalplanner-business/src/main/java/org/navalplanner/business/planner/entities/AggregateOfResourceAllocations.java:47-53 | the total is the sum of assigned hours over the distinct allocations; 0 when empty; non-negative when every allocation's hours are |
| `ResourceAllocations.AggregateOfResourceAllocations.GetResourcesPerDay` | navalplanner-business/src/main/java/org/navalplanner/business/planner/entities/AggregateOfResourceAllocations.java:55-61 | the keys are exactly the stored allocations, each mapped to its resources per day |
| `ResourceAllocations.AggregateOfResourceAllocations.IsEmpty` | navalplanner-business/src/main/java/org/navalplanner/business/planner/entities/AggregateOfResourceAllocations.java:63-65 | empty iff no allocation is held; an empty aggregate has total hours 0 |
| `AdvanceTypes.MaxValueError` | navalplanner-business/src/main/java/org/navalplanner/business/advance/entities/AdvanceType.java:97-107 | no error iff the value is > 0 and, for a percentage type, ≤ 100; a non-positive value gives the "greater than 0" error first |
| `AdvanceTypes.AdvanceType.constructor` | navalplanner-business/src/main/java/org/navalplanner/business/advance/entities/AdvanceType.java:51-74 | the persistence constructor leaves name, maximum and precision null, updatable and active true, percentage false |
| `AdvanceTypes.AdvanceType.Create` | navalplanner-business/src/main/java/org/navalplanner/business/advance/entities/AdvanceType.java:36-40 | `create()` is the empty type marked as new |
| `AdvanceTypes.AdvanceType.CreateWith` | navalplanner-business/src/main/java/org/navalplanner/business/advance/entities/AdvanceType.java:76-87 | `create(...)` and the constructor behind it store the name and the percentage flag first; a null maximum fails with a null dereference, a maximum that fails its check for that flag fails with that check's error, and then a null precision fails with a null dereference; otherwise every field holds its argument and the invariant holds |
| `AdvanceTypes.AdvanceType.SetUnitName` | navalplanner-business/src/main/java/org/navalplanner/business/advance/entities/AdvanceType.java:89-91 | only the name changes, to the argument, null included |
| `AdvanceTypes.AdvanceType.SetDefaultMaxValue` | navalplanner-business/src/main/java/org/navalplanner/business/advance/entities/AdvanceType.java:97-110 | rejects a null value (null dereference), a value ≤ 0, or a value > 100 on a percentage type, leaving the state unchanged; otherwise stores exactly the argument and nothing else; preserves the invariant |
| `AdvanceTypes.AdvanceType.IsUpdatable` | navalplanner-business/src/main/java/org/navalplanner/business/advance/entities/AdvanceType.java:116-118 | the stored updatable flag; `GetType` and `IsImmutable` are stated in terms of it |
| `AdvanceTypes.AdvanceType.IsImmutable` | navalplanner-business/src/main/java/org/navalplanner/business/advance/entities/AdvanceType.java:120-122 | immutable is the negation of updatable |
| `AdvanceTypes.AdvanceType.SetUnitPrecision` | navalplanner-business/src/main/java/org/navalplanner/business/advance/entities/AdvanceType.java:124-127 | only the precision changes, to exactly the argument; a null precision is stored and then fails with a null dereference |
| `AdvanceTypes.AdvanceType.SetActive` | navalplanner-business/src/main/java/org/navalplanner/business/advance/entities/AdvanceType.java:133-135 | only the active flag changes |
| `AdvanceTypes.AdvanceType.GetType` | navalplanner-business/src/main/java/org/navalplanner/business/advance/entities/AdvanceType.java:141-145 | "De Usuario" iff updatable, "Predefinido" iff not |
| `AdvanceTypes.AdvanceType.IsPrecisionValid` | navalplanner-business/src/main/java/org/navalplanner/business/advance/entities/AdvanceType.java:150-157 | true when the maximum or the precision is null, otherwise iff precision ≤ maximum |
| `AdvanceTypes.AdvanceType.IsDefaultMaxValueValid` | navalplanner-business/src/main/java/org/navalplanner/business/advance/entities/AdvanceType.java:159-165 | true when the precision or the maximum is null, otherwise iff precision ≤ maximum |
| `AdvanceTypes.AdvanceType.EquivalentInDB` | navalplanner-business/src/main/java/org/navalplanner/business/advance/entities/AdvanceType.java:167-171 | false if either id is null, otherwise id equality |
| `AdvanceTypes.AdvanceType.SetPercentage` | navalplanner-business/src/main/java/org/navalplanner/business/advance/entities/AdvanceType.java:173-181 | turning the flag on fails when the maximum is > 100, or null; turning it off always succeeds; only the flag changes; preserves the invariant |
| `AdvanceTypes.EquivalentInDBSymmetric` | navalplanner-business/src/main/java/org/navalplanner/business/advance/entities/AdvanceType.java:167-171 | equivalence does not depend on argument order |
| `AdvanceTypes.EquivalentInDBNeedsId` | navalplanner-business/src/main/java/org/navalplanner/business/advance/entities/AdvanceType.java:168-169 | a type without an id is not equivalent even to itself |
| `PredefinedAdvancedTypes.HalfUpTenThousandths` | navalplanner-business/src/main/java/org/navalplanner/business/advance/bootstrap/PredefinedAdvancedTypes.java:38-40 | the rounded value is within half a ten-thousandth of the input, with ties going away from zero |
| `PredefinedAdvancedTypes.PredefinedValues` | navalplanner-business/src/main/java/org/navalplanner/business/advance/bootstrap/PredefinedAdvancedTypes.java:30-42 | after rounding, both percentage types have maximum 100 and precision 1/100, and units has maximum 2147483647 and precision 1; every maximum passes the setter's check and is ≥ the precision |
| `PredefinedAdvancedTypes.PredefinedAdvancedType.CreateType` | navalplanner-business/src/main/java/org/navalplanner/business/advance/bootstrap/PredefinedAdvancedTypes.java:52-55 | never fails; gives a valid, non-updatable (immutable), active, new type with the constant's name, maximum, precision and percentage flag, whose precision is valid |
| `PredefinedAdvancedTypes.PredefinedAdvancedType.TypeName` | navalplanner-business/src/main/java/org/navalplanner/business/advance/bootstrap/PredefinedAdvancedTypes.java:57-59 | the constant's name is never empty, as the type's unit name must not be, and is "units" exactly for the units type |
| `PredefinedAdvancedTypes.TypeNamesDistinct` | navalplanner-business/src/main/java/org/navalplanner/business/advance/bootstrap/PredefinedAdvancedTypes.java:30-33 | the three type names are distinct |

## Left out

- The zoom conversion `convertAsNeededByZoom` and the classes `HoursByDayCalculator`, `LoadChartFiller` and `groupDayAssignmentsByDayAndResource` are not part of this model. The load methods model the per-day map before the zoom conversion. The overload merge takes the maximum-availability map as an input.
- Chart and widget code (`fillChart`, `Plotinfo`/`Timeplot` set-up, `getServletUri`, zoom listeners), transactions and the `forceLoad*` lazy-loading touches: user-interface and persistence plumbing with no data logic.
- The earned-value series (`getAssignmentsPlotinfo`, `getAdvancePlotinfo`, `addCost`, `accumulateResult`) depend on an unseen cost calculator.
- The data-access `list` calls become input sequences. `PredefinedAdvancedTypes.getType` is a registry lookup and is left out.
- `BaseCalendar`, `SameWorkHoursEveryDay` and the other `IWorkHours` implementations are not part of this model. They become functions from day to hours; the default working day's hours are a parameter.
- CompanyPlanning.HoursAdditionByDayWithoutOverload: does not model 32-bit `int` wrap-around of the running sums, because daily hour totals stay far below 2^31.
- CompanyPlanning.HoursAdditionByDayJustOverload: does not model 32-bit `int` wrap-around of the running sums, for the same reason.
- ResourceAllocations.AggregateOfResourceAllocations.GetTotalHours: does not model 32-bit `int` wrap-around of the sum, for the same reason.
- CompanyPlanning.AddMaxAvailability: does not model 32-bit `int` wrap-around of the overload plus the maximum availability, for the same reason.
- CompanyPlanning.SortByStartDate: states order and permutation but not stability. The model sorts by insertion, not by the library's merge sort.
- CompanyPlanning.SortInPlace: states order and permutation but not the stability `Collections.sort` guarantees.
- CompanyPlanning.TasksToShow: states order and permutation but not stability, for the same reason.
- The `BigDecimal` scale carried by rescaled values is not modelled; values are compared by magnitude, as `compareTo` does. The `setScale` calls on `AdvanceType`'s fields discard their results and so change nothing.
- `BaseEntity` is not part of this model. Its identifier and its new-object flag are plain fields of the advance type.
- `doPropagateAdvaceToParent` has an empty body and is not modelled. The plain getters are read as fields.
- The queries of `AggregateOfResourceAllocations` take no `modifies` clause, so the verifier checks that they leave the stored set unchanged.

## Findings

| source | as written | input that shows it | evidently intended | confidence | as-written member | corrected member |
|---|---|---|---|---|---|---|
| navalplanner-webapp/src/main/java/org/navalplanner/web/planner/company/CompanyPlanningModel.java:275-283 | the start-date comparator returns -1 whenever its first argument has no start date, even when the second has none as well | two task elements with a null start date (or one compared with itself): each compares as smaller than the other, which `Collections.sort` may reject with "Comparison method violates its general contract" | return 0 when both start dates are null, so undated tasks come first and the comparator meets its contract | medium; not executed | `CompanyPlanning.AsWrittenComparatorIsNotAntisymmetric` | `CompanyPlanning.CorrectedComparatorIsConsistent` |
