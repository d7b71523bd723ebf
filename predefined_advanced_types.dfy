/**
 * The three progress types every installation starts with, and the types
 * they create.
 */
module PredefinedAdvancedTypes {
  import opened Outcomes
  import opened AdvanceTypes

  /** `Integer.MAX_VALUE`. */
  const INTEGER_MAX_VALUE: int := 2147483647

  /**
   * The exact value of `new BigDecimal(0.01)`: the binary double nearest to
   * 0.01, which is 5764607523034235 / 2^59, slightly above 0.01.
   */
  const DOUBLE_NEAREST_0_01: real := 5764607523034235.0 / 576460752303423488.0

  /**
   * `setScale(4, ROUND_HALF_UP)` as the unscaled value of the result: the
   * number of ten-thousandths nearest to `x`, ties rounded away from zero.
   */
  function HalfUpTenThousandths(x: real): (k: int)
    ensures -0.5 <= k as real - x * 10000.0 <= 0.5
    ensures k as real - x * 10000.0 == 0.5 ==> x > 0.0
    ensures k as real - x * 10000.0 == -0.5 ==> x < 0.0
  {
    var scaled := x * 10000.0;
    if scaled >= 0.0 then (scaled + 0.5).Floor
    else -((-scaled + 0.5).Floor)
  }

  /** The value of `x` rounded half-up to 4 decimal places. */
  function RoundHalfUp4(x: real): real {
    HalfUpTenThousandths(x) as real / 10000.0
  }

  datatype PredefinedAdvancedType = Children | Percentage | Units {

    /** `getTypeName`: the constant's name, which is never empty. */
    function TypeName(): (name: string)
      ensures |name| > 0
      ensures name == "units" <==> this == Units
    {
      match this
      case Children => "children"
      case Percentage => "percentage"
      case Units => "units"
    }

    /** The maximum as written in the constant, before rounding. */
    function GivenMaxValue(): real {
      match this
      case Children => 100.0
      case Percentage => 100.0
      case Units => INTEGER_MAX_VALUE as real
    }

    /** The precision as written in the constant, before rounding. */
    function GivenPrecision(): real {
      match this
      case Children => DOUBLE_NEAREST_0_01
      case Percentage => DOUBLE_NEAREST_0_01
      case Units => 1.0
    }

    function IsPercentage(): bool {
      this != Units
    }

    /** The stored maximum: the given one rounded half-up to 4 decimal places. */
    function DefaultMaxValue(): real {
      RoundHalfUp4(GivenMaxValue())
    }

    /** The stored precision: the given one rounded half-up to 4 decimal places. */
    function UnitPrecision(): real {
      RoundHalfUp4(GivenPrecision())
    }

    /**
     * `createType`: a predefined (not updatable), active type with the
     * constant's name, maximum, precision and percentage flag; the creation
     * never fails.
     */
    method CreateType() returns (t: AdvanceType)
      ensures fresh(t) && t.Valid()
      ensures t.unitName == Some(TypeName())
      ensures t.defaultMaxValue == Some(DefaultMaxValue())
      ensures t.unitPrecision == Some(UnitPrecision())
      ensures t.percentage == IsPercentage()
      ensures !t.updatable && t.IsImmutable() && t.active && t.newObject
      ensures t.IsPrecisionValid(t.unitPrecision)
    {
      PredefinedValues(this);
      var r := AdvanceType.CreateWith(Some(TypeName()), Some(DefaultMaxValue()), false,
                                      Some(UnitPrecision()), true, IsPercentage());
      t := r.value;
    }
  }

  /**
   * The values the constants hold after rounding: 100 with precision 1/100
   * for the two percentage types, `Integer.MAX_VALUE` with precision 1 for
   * units; each makes a valid maximum at least as large as its precision.
   */
  lemma PredefinedValues(p: PredefinedAdvancedType)
    ensures p.IsPercentage() ==> p.DefaultMaxValue() == 100.0 && p.UnitPrecision() == 1.0 / 100.0
    ensures !p.IsPercentage() ==> p.DefaultMaxValue() == INTEGER_MAX_VALUE as real && p.UnitPrecision() == 1.0
    ensures MaxValueError(p.DefaultMaxValue(), p.IsPercentage()).None?
    ensures p.UnitPrecision() <= p.DefaultMaxValue()
  {
    assert HalfUpTenThousandths(DOUBLE_NEAREST_0_01) == 100;
  }

  /** The three constants have different names. */
  lemma TypeNamesDistinct(p: PredefinedAdvancedType, q: PredefinedAdvancedType)
    requires p != q
    ensures p.TypeName() != q.TypeName()
  {
  }
}
