/**
 * A calendar made of several work-hour sources: its hours on a date are the
 * minimum of the sources' hours on that date (`CombinedWorkHours` and its
 * only subclass `Min`).
 */
module CombinedWorkHours {
  import opened Outcomes
  import opened Validation

  /** A date, as a day number. */
  type Day = int

  /** A source of work hours (`IWorkHours`): the workable hours on each date. */
  type WorkHours = Day -> int

  /** The combination of a non-empty list of sources by their minimum. */
  datatype Combined = Min(workHours: seq<WorkHours>) {

    /** The constructor's invariant: there is at least one source. */
    predicate Valid() {
      |workHours| > 0
    }

    /** `Min.workHours`: the value the fold starts from, the first source's hours. */
    function StartHours(workHour: WorkHours, date: Day): (r: int)
      ensures r == workHour(date)
    {
      workHour(date)
    }

    /** `Min.updateWorkHours`: the minimum of the running value and the next source's hours. */
    function UpdateHours(current: int, workHour: WorkHours, date: Day): (r: int)
      ensures r <= current && r <= workHour(date)
      ensures r == current || r == workHour(date)
    {
      if current <= workHour(date) then current else workHour(date)
    }
  }

  /**
   * `CombinedWorkHours.minOf` and the constructor: the argument must not be
   * null, must hold no null element and must not be empty; the checks run in
   * that order.
   */
  function MinOf(workHours: Option<seq<Option<WorkHours>>>): (r: Result<Combined>)
    ensures r.Ok? <==> workHours.Some? && NoNulls(workHours.value) && |workHours.value| > 0
    ensures workHours.None? ==> r == Err(ValidationFailed(NotNull))
    ensures workHours.Some? && !NoNulls(workHours.value) ==>
              r == Err(ValidationFailed(NoNullElements(FirstNull(workHours.value).value)))
    ensures workHours.Some? && NoNulls(workHours.value) && |workHours.value| == 0 ==>
              r == Err(ValidationFailed(IsTrue))
    ensures r.Ok? ==> r.value.Valid()
    ensures r.Ok? ==> |r.value.workHours| == |workHours.value| &&
                      forall i :: 0 <= i < |workHours.value| ==>
                        workHours.value[i] == Some(r.value.workHours[i])
  {
    match NotNullNoNullElements(workHours)
    case Err(e) => Err(e)
    case Ok(list) => if |list| == 0 then Err(ValidationFailed(IsTrue)) else Ok(Min(list))
  }

  /** The left fold the loop of `getWorkableHours` computes over a non-empty list. */
  function MinHours(workHours: seq<WorkHours>, date: Day): int
    requires |workHours| > 0
  {
    if |workHours| == 1 then Min(workHours).StartHours(workHours[0], date)
    else Min(workHours).UpdateHours(MinHours(workHours[..|workHours| - 1], date),
                                   workHours[|workHours| - 1], date)
  }

  /** `getWorkableHours`: fold the sources, starting from null. */
  method GetWorkableHours(c: Combined, date: Day) returns (r: Option<int>)
    ensures r.None? <==> |c.workHours| == 0
    ensures c.Valid() ==> r.Some?
    ensures r.Some? ==> r.value == MinHours(c.workHours, date)
    ensures r.Some? ==> forall i :: 0 <= i < |c.workHours| ==> r.value <= c.workHours[i](date)
    ensures r.Some? ==> exists i :: 0 <= i < |c.workHours| && r.value == c.workHours[i](date)
  {
    var current: Option<int> := None;
    var i := 0;
    while i < |c.workHours|
      invariant 0 <= i <= |c.workHours|
      invariant current.None? <==> i == 0
      invariant current.Some? ==> current.value == MinHours(c.workHours[..i], date)
    {
      var workHour := c.workHours[i];
      assert c.workHours[..i + 1][..i] == c.workHours[..i];
      current := if current.None? then Some(c.StartHours(workHour, date))
                 else Some(c.UpdateHours(current.value, workHour, date));
      i := i + 1;
    }
    assert c.workHours[..i] == c.workHours;
    r := current;
    if r.Some? {
      MinHoursIsLowerBound(c.workHours, date);
      MinHoursIsAttained(c.workHours, date);
    }
  }

  /** The combined hours never exceed the hours of any source. */
  lemma {:induction false} MinHoursIsLowerBound(workHours: seq<WorkHours>, date: Day)
    requires |workHours| > 0
    ensures forall i :: 0 <= i < |workHours| ==> MinHours(workHours, date) <= workHours[i](date)
  {
    if |workHours| > 1 {
      var init := workHours[..|workHours| - 1];
      MinHoursIsLowerBound(init, date);
      assert forall i :: 0 <= i < |init| ==> init[i] == workHours[i];
    }
  }

  /** The combined hours are the hours of some source. */
  lemma {:induction false} MinHoursIsAttained(workHours: seq<WorkHours>, date: Day)
    requires |workHours| > 0
    ensures exists i :: 0 <= i < |workHours| && MinHours(workHours, date) == workHours[i](date)
  {
    if |workHours| == 1 {
      assert MinHours(workHours, date) == workHours[0](date);
    } else {
      var n := |workHours|;
      var init := workHours[..n - 1];
      MinHoursIsAttained(init, date);
      var k :| 0 <= k < |init| && MinHours(init, date) == init[k](date);
      if MinHours(workHours, date) == MinHours(init, date) {
        assert workHours[k] == init[k];
      } else {
        assert MinHours(workHours, date) == workHours[n - 1](date);
      }
    }
  }

  /** With a single source, the combined hours are that source's hours. */
  lemma MinHoursSingle(workHour: WorkHours, date: Day)
    ensures MinHours([workHour], date) == workHour(date)
  {
  }

  /** The hour values the sources give on a date. */
  function HourValues(workHours: seq<WorkHours>, date: Day): set<int> {
    set i | 0 <= i < |workHours| :: workHours[i](date)
  }

  /**
   * The combined hours depend only on which hour values the sources give on
   * the date, not on the sources' order (nor on repetitions).
   */
  lemma MinHoursOrderIndependent(xs: seq<WorkHours>, ys: seq<WorkHours>, date: Day)
    requires |xs| > 0 && |ys| > 0
    requires HourValues(xs, date) == HourValues(ys, date)
    ensures MinHours(xs, date) == MinHours(ys, date)
  {
    MinHoursNoMoreThanOther(xs, ys, date);
    MinHoursNoMoreThanOther(ys, xs, date);
  }

  /** A list of sources has no higher minimum than a list whose values all occur in it. */
  lemma MinHoursNoMoreThanOther(xs: seq<WorkHours>, ys: seq<WorkHours>, date: Day)
    requires |xs| > 0 && |ys| > 0
    requires HourValues(ys, date) <= HourValues(xs, date)
    ensures MinHours(xs, date) <= MinHours(ys, date)
  {
    MinHoursIsAttained(ys, date);
    var j :| 0 <= j < |ys| && MinHours(ys, date) == ys[j](date);
    assert ys[j](date) in HourValues(ys, date);
    var i :| 0 <= i < |xs| && xs[i](date) == ys[j](date);
    MinHoursIsLowerBound(xs, date);
    assert MinHours(xs, date) <= xs[i](date);
  }

  /** Reversing the sources does not change the combined hours. */
  lemma MinHoursReversed(xs: seq<WorkHours>, date: Day)
    requires |xs| > 0
    ensures MinHours(seq(|xs|, k requires 0 <= k < |xs| => xs[|xs| - 1 - k]), date) == MinHours(xs, date)
  {
    var ys := seq(|xs|, k requires 0 <= k < |xs| => xs[|xs| - 1 - k]);
    forall v | v in HourValues(xs, date)
      ensures v in HourValues(ys, date)
    {
      var i :| 0 <= i < |xs| && xs[i](date) == v;
      assert ys[|xs| - 1 - i] == xs[i];
    }
    forall v | v in HourValues(ys, date)
      ensures v in HourValues(xs, date)
    {
      var k :| 0 <= k < |ys| && ys[k](date) == v;
      assert xs[|xs| - 1 - k] == ys[k];
    }
    MinHoursOrderIndependent(ys, xs, date);
  }

  /** A combined calendar built by `MinOf` always answers, with the minimum of its sources. */
  lemma MinOfAnswersMinimum(workHours: Option<seq<Option<WorkHours>>>, date: Day)
    requires MinOf(workHours).Ok?
    ensures var c := MinOf(workHours).value;
      |c.workHours| > 0 &&
      (forall i :: 0 <= i < |workHours.value| ==> MinHours(c.workHours, date) <= workHours.value[i].value(date)) &&
      (exists i :: 0 <= i < |workHours.value| && MinHours(c.workHours, date) == workHours.value[i].value(date))
  {
    var c := MinOf(workHours).value;
    MinHoursIsLowerBound(c.workHours, date);
    MinHoursIsAttained(c.workHours, date);
    var k :| 0 <= k < |c.workHours| && MinHours(c.workHours, date) == c.workHours[k](date);
    assert workHours.value[k].value == c.workHours[k];
  }
}
