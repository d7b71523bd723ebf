/** The argument checks of commons-lang `Validate` used by the modelled constructors. */
module Validation {
  import opened Outcomes

  /** True when no element of `xs` is null. */
  predicate NoNulls<T>(xs: seq<Option<T>>) {
    forall i :: 0 <= i < |xs| ==> xs[i].Some?
  }

  /** The position of the first null element of `xs`, if any. */
  function FirstNull<T>(xs: seq<Option<T>>): (r: Option<nat>)
    ensures r.None? <==> NoNulls(xs)
    ensures r.Some? ==> r.value < |xs| && xs[r.value].None? &&
                        forall i :: 0 <= i < r.value ==> xs[i].Some?
  {
    if |xs| == 0 then None
    else if xs[0].None? then Some(0)
    else match FirstNull(xs[1..])
      case None => None
      case Some(k) => Some(k + 1)
  }

  /** The elements of a list that has no null element. */
  function Unwrapped<T>(xs: seq<Option<T>>): (r: seq<T>)
    requires NoNulls(xs)
    ensures |r| == |xs| && forall i :: 0 <= i < |xs| ==> xs[i] == Some(r[i])
  {
    seq(|xs|, i requires 0 <= i < |xs| => xs[i].value)
  }

  /**
   * `Validate.notNull(xs)` followed by `Validate.noNullElements(xs)`: the
   * first failing check decides the exception.
   */
  function NotNullNoNullElements<T>(xs: Option<seq<Option<T>>>): (r: Result<seq<T>>)
    ensures xs.None? ==> r == Err(ValidationFailed(NotNull))
    ensures r.Ok? <==> xs.Some? && NoNulls(xs.value)
    ensures r.Ok? ==> |r.value| == |xs.value| &&
                      forall i :: 0 <= i < |xs.value| ==> xs.value[i] == Some(r.value[i])
    ensures xs.Some? && !NoNulls(xs.value) ==>
              exists k :: 0 <= k < |xs.value| && xs.value[k].None? &&
                          r == Err(ValidationFailed(NoNullElements(k))) &&
                          forall i :: 0 <= i < k ==> xs.value[i].Some?
  {
    match xs
    case None => Err(ValidationFailed(NotNull))
    case Some(list) =>
      match FirstNull(list)
      case Some(k) => Err(ValidationFailed(NoNullElements(k)))
      case None => Ok(Unwrapped(list))
  }
}
