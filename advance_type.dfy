/**
 * A progress ("advance") measurement type: a unit, its maximum and its
 * precision. The setters guard the invariant that the maximum is positive
 * and, for a percentage type, at most 100.
 */
module AdvanceTypes {
  import opened Outcomes

  const MUST_BE_POSITIVE: string := "The maximum value must be greater than 0"
  const PERCENTAGE_AT_MOST_100: string := "The maximum value for percentage is 100"

  /**
   * The checks of `setDefaultMaxValue`: the exception it throws for the
   * maximum `value` on a type whose percentage flag is `percentage`, if any.
   */
  function MaxValueError(value: real, percentage: bool): (r: Option<Error>)
    ensures r.None? <==> 0.0 < value && (percentage ==> value <= 100.0)
    ensures value <= 0.0 ==> r == Some(IllegalArgument(MUST_BE_POSITIVE))
    ensures 0.0 < value && percentage && value > 100.0 ==> r == Some(IllegalArgument(PERCENTAGE_AT_MOST_100))
  {
    if value <= 0.0 then Some(IllegalArgument(MUST_BE_POSITIVE))
    else if percentage && value > 100.0 then Some(IllegalArgument(PERCENTAGE_AT_MOST_100))
    else None
  }

  class AdvanceType {
    /** The persistent identifier (from `BaseEntity`); null until stored. */
    var id: Option<int>
    /** The `BaseEntity` "new object" flag that the factories set. */
    var newObject: bool
    var unitName: Option<string>
    var defaultMaxValue: Option<real>
    var updatable: bool
    var unitPrecision: Option<real>
    var active: bool
    var percentage: bool

    /** The type's invariant: a maximum is set, positive, and at most 100 for a percentage type. */
    predicate Valid()
      reads this
    {
      defaultMaxValue.Some? && MaxValueError(defaultMaxValue.value, percentage).None?
    }

    /** The no-argument constructor used by the persistence layer: field initialisers only. */
    constructor ()
      ensures id.None? && !newObject
      ensures unitName.None? && defaultMaxValue.None? && unitPrecision.None?
      ensures updatable && active && !percentage
    {
      id := None;
      newObject := false;
      unitName := None;
      defaultMaxValue := None;
      updatable := true;
      unitPrecision := None;
      active := true;
      percentage := false;
    }

    /** `create()`: an empty type marked as new. */
    static method Create() returns (t: AdvanceType)
      ensures fresh(t)
      ensures t.id.None? && t.newObject
      ensures t.unitName.None? && t.defaultMaxValue.None? && t.unitPrecision.None?
      ensures t.updatable && t.active && !t.percentage
    {
      t := new AdvanceType();
      t.newObject := true;
    }

    /**
     * `create(unitName, defaultMaxValue, updatable, unitPrecision, active,
     * percentage)` with the private constructor it calls. The name and the
     * percentage flag are stored first, so the percentage bound applies to
     * the maximum; a null maximum, a rejected maximum, and then a null
     * precision (dereferenced to rescale it) each make the creation fail.
     */
    static method CreateWith(unitName: Option<string>, defaultMaxValue: Option<real>, updatable: bool,
                             unitPrecision: Option<real>, active: bool, percentage: bool)
      returns (r: Result<AdvanceType>)
      ensures r.Ok? <==> defaultMaxValue.Some? && MaxValueError(defaultMaxValue.value, percentage).None? &&
                         unitPrecision.Some?
      ensures defaultMaxValue.None? ==> r == Err(NullPointer)
      ensures defaultMaxValue.Some? && MaxValueError(defaultMaxValue.value, percentage).Some? ==>
                r == Err(MaxValueError(defaultMaxValue.value, percentage).value)
      ensures (defaultMaxValue.Some? && MaxValueError(defaultMaxValue.value, percentage).None? &&
               unitPrecision.None?) ==> r == Err(NullPointer)
      ensures r.Ok? ==> fresh(r.value) && r.value.Valid()
      ensures r.Ok? ==> var t := r.value;
        && t.id.None? && t.newObject
        && t.unitName == unitName && t.defaultMaxValue == defaultMaxValue
        && t.updatable == updatable && t.unitPrecision == unitPrecision
        && t.active == active && t.percentage == percentage
    {
      var t := new AdvanceType();
      t.unitName := unitName;
      t.percentage := percentage;
      var outcome := t.SetDefaultMaxValue(defaultMaxValue);
      if outcome.Fail? {
        return Err(outcome.error);
      }
      t.updatable := updatable;
      outcome := t.SetUnitPrecision(unitPrecision);
      if outcome.Fail? {
        return Err(outcome.error);
      }
      t.active := active;
      t.newObject := true;
      r := Ok(t);
    }

    /** `setUnitName`: stores the name, null included. */
    method SetUnitName(name: Option<string>)
      modifies this`unitName
      ensures unitName == name
    {
      unitName := name;
    }

    /**
     * `setDefaultMaxValue`: rejects a maximum that is not positive, or above
     * 100 on a percentage type, leaving the type as it was; otherwise stores
     * exactly the given value (the rescaled copy is discarded) and nothing else.
     * A null value is dereferenced by the first comparison.
     */
    method SetDefaultMaxValue(value: Option<real>) returns (outcome: Outcome)
      modifies this`defaultMaxValue
      ensures value.None? ==> outcome == Fail(NullPointer)
      ensures value.Some? ==> (outcome.Fail? <==> MaxValueError(value.value, percentage).Some?)
      ensures value.Some? && outcome.Fail? ==> outcome.error == MaxValueError(value.value, percentage).value
      ensures outcome.Fail? ==> defaultMaxValue == old(defaultMaxValue)
      ensures outcome.Pass? ==> defaultMaxValue == value && Valid()
      ensures old(Valid()) ==> Valid()
    {
      if value.None? {
        return Fail(NullPointer);
      }
      if value.value <= 0.0 {
        return Fail(IllegalArgument(MUST_BE_POSITIVE));
      }
      if percentage {
        if value.value > 100.0 {
          return Fail(IllegalArgument(PERCENTAGE_AT_MOST_100));
        }
      }
      defaultMaxValue := value;
      outcome := Pass;
    }

    /** `isUpdatable`: the stored flag; predefined types are not updatable. */
    function IsUpdatable(): (b: bool)
      reads this
      ensures b == updatable
    {
      updatable
    }

    /** `isImmutable`: a type is immutable exactly when it is not updatable. */
    function IsImmutable(): (b: bool)
      reads this
      ensures b != IsUpdatable()
    {
      !updatable
    }

    /**
     * `setUnitPrecision`: stores the precision (the rescaled copy is
     * discarded); a null precision is stored and then dereferenced.
     */
    method SetUnitPrecision(precision: Option<real>) returns (outcome: Outcome)
      modifies this`unitPrecision
      ensures unitPrecision == precision
      ensures outcome.Fail? <==> precision.None?
      ensures outcome.Fail? ==> outcome.error == NullPointer
    {
      unitPrecision := precision;
      outcome := if precision.None? then Fail(NullPointer) else Pass;
    }

    method SetActive(value: bool)
      modifies this`active
      ensures active == value
    {
      active := value;
    }

    /** `getType`: the label shown for user-defined and for predefined types. */
    function GetType(): (kind: string)
      reads this
      ensures kind == "De Usuario" <==> IsUpdatable()
      ensures kind == "Predefinido" <==> !IsUpdatable()
    {
      if IsUpdatable() then "De Usuario" else "Predefinido"
    }

    /** `isPrecisionValid`: a precision is acceptable unless both are set and it exceeds the maximum. */
    function IsPrecisionValid(precision: Option<real>): (b: bool)
      reads this
      ensures defaultMaxValue.None? || precision.None? ==> b
      ensures defaultMaxValue.Some? && precision.Some? ==>
                (b <==> precision.value <= defaultMaxValue.value)
    {
      if defaultMaxValue.None? || precision.None? then true
      else if defaultMaxValue.value < precision.value then false
      else true
    }

    /** `isDefaultMaxValueValid`: a maximum is acceptable unless both are set and it is below the precision. */
    function IsDefaultMaxValueValid(maxValue: Option<real>): (b: bool)
      reads this
      ensures unitPrecision.None? || maxValue.None? ==> b
      ensures unitPrecision.Some? && maxValue.Some? ==>
                (b <==> unitPrecision.value <= maxValue.value)
    {
      if unitPrecision.None? || maxValue.None? then true
      else if unitPrecision.value > maxValue.value then false
      else true
    }

    /** `equivalentInDB`: two types are the same stored type when both have an id and the ids agree. */
    static function EquivalentInDB(t: AdvanceType, other: AdvanceType): (b: bool)
      reads t, other
      ensures b <==> t.id.Some? && other.id.Some? && t.id.value == other.id.value
    {
      if t.id.None? || other.id.None? then false else t.id.value == other.id.value
    }

    /**
     * `setPercentage`: turning the flag on fails when the maximum is above
     * 100 (and, on a type without a maximum, with a null dereference);
     * turning it off always succeeds. Only the flag changes.
     */
    method SetPercentage(value: bool) returns (outcome: Outcome)
      modifies this`percentage
      ensures outcome.Fail? <==> value && (defaultMaxValue.None? || defaultMaxValue.value > 100.0)
      ensures outcome.Fail? ==> outcome.error == if defaultMaxValue.None? then NullPointer
                                                 else IllegalArgument(PERCENTAGE_AT_MOST_100)
      ensures outcome.Fail? ==> percentage == old(percentage)
      ensures outcome.Pass? ==> percentage == value
      ensures old(Valid()) ==> Valid()
    {
      if value {
        if defaultMaxValue.None? {
          return Fail(NullPointer);
        }
        if defaultMaxValue.value > 100.0 {
          return Fail(IllegalArgument(PERCENTAGE_AT_MOST_100));
        }
      }
      percentage := value;
      outcome := Pass;
    }
  }

  /** `equivalentInDB` does not depend on the order of its arguments. */
  lemma EquivalentInDBSymmetric(t: AdvanceType, other: AdvanceType)
    ensures AdvanceType.EquivalentInDB(t, other) == AdvanceType.EquivalentInDB(other, t)
  {
  }

  /** A type that has not been stored is not equivalent even to itself. */
  lemma EquivalentInDBNeedsId(t: AdvanceType)
    requires t.id.None?
    ensures !AdvanceType.EquivalentInDB(t, t)
  {
  }
}
