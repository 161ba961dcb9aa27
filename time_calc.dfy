/**
 * The runtime conversion of the measurement handler: a time in one of the units "s", "min"
 * and "h" converted into another, truncated to whole target units. Times are modelled as
 * exact reals; the binary floating-point rounding of the factors is not modelled.
 */
module TimeCalc {
  import opened Wrappers

  datatype TimeError = InvalidUnits(unit: string, target: string)

  /** The factor table: `Factors[unit][target]` target units per unit. */
  const Factors: map<string, map<string, real>> :=
    map["s" := map["min" := 1.0 / 60.0, "h" := 1.0 / 3600.0],
        "min" := map["s" := 60.0, "h" := 1.0 / 60.0],
        "h" := map["s" := 3600.0, "min" := 60.0]]

  /** The factor for a pair of units, if the table has one. */
  function Factor(unit: string, target: string): Option<real>
  {
    if unit in Factors && target in Factors[unit] then Some(Factors[unit][target]) else None
  }

  /** Python's `int()` of a real: truncation toward zero. */
  function Trunc(x: real): (r: int)
    ensures x >= 0.0 ==> r as real <= x < r as real + 1.0
    ensures x < 0.0 ==> x < r as real + 1.0 && r as real >= x - 1.0
  {
    if x >= 0.0 then x.Floor else -((-x).Floor)
  }

  /**
   * `time_calc`: the same unit returns the time untouched; otherwise a time that is not
   * positive gives 0, a known pair of units the truncated product, and any other pair a ValueError.
   */
  function Convert(time: real, unit: string, target: string): Result<real, TimeError>
  {
    if unit == target then Ok(time)
    else if time <= 0.0 then Ok(0.0)
    else
      match Factor(unit, target)
      case None => Err(InvalidUnits(unit, target))
      case Some(f) => Ok(Trunc(time * f) as real)
  }

  /** A seconds/minutes/hours rank: a unit is 60 of the unit one rank below. */
  function Rank(u: string): nat
  {
    if u == "s" then 0 else if u == "min" then 1 else 2
  }

  function Pow60(n: nat): (r: real)
    ensures r >= 1.0
  {
    if n == 0 then 1.0 else 60.0 * Pow60(n - 1)
  }

  /**
   * The table holds exactly the six pairs of distinct units among "s", "min" and "h", each
   * factor is 60 raised to the rank difference, and the factor back is its inverse.
   */
  lemma FactorTable(unit: string, target: string)
    ensures Factor(unit, target).Some? <==> unit in {"s", "min", "h"} && target in {"s", "min", "h"} && unit != target
    ensures Factor(unit, target).Some? ==>
              && Factor(target, unit).Some?
              && Factor(unit, target).value * Factor(target, unit).value == 1.0
              && (Rank(unit) >= Rank(target) ==> Factor(unit, target).value == Pow60(Rank(unit) - Rank(target)))
              && (Rank(unit) < Rank(target) ==> Factor(target, unit).value == Pow60(Rank(target) - Rank(unit)))
  {
    assert Pow60(1) == 60.0 && Pow60(2) == 3600.0 by {
      assert Pow60(0) == 1.0;
    }
  }

  /**
   * What a call returns: an error exactly for two distinct units outside the table with a
   * positive time; otherwise, for distinct units, a whole number of target units that is
   * not negative, at most the exact converted time and less than one unit below it.
   */
  lemma ConvertFacts(time: real, unit: string, target: string)
    ensures Convert(time, unit, target).Err? <==> unit != target && time > 0.0 && Factor(unit, target).None?
    ensures unit == target ==> Convert(time, unit, target) == Ok(time)
    ensures unit != target && Convert(time, unit, target).Ok? ==>
              var v := Convert(time, unit, target).value;
              && v >= 0.0
              && v == v.Floor as real
              && (time > 0.0 ==> v <= time * Factor(unit, target).value < v + 1.0)
  {
    if unit != target && time > 0.0 && Factor(unit, target).Some? {
      FactorTable(unit, target);
      assert time * Factor(unit, target).value > 0.0;
    }
  }

  /** Every factor in the table is one of four constants. */
  lemma FactorValues(unit: string, target: string)
    requires Factor(unit, target).Some?
    ensures var f := Factor(unit, target).value;
            f == 60.0 || f == 3600.0 || f == 1.0 / 60.0 || f == 1.0 / 3600.0
  {
  }

  /** Scaling by a table factor keeps the order of two times. */
  lemma ScaleMonotone(t1: real, t2: real, f: real)
    requires t1 <= t2
    requires f == 60.0 || f == 3600.0 || f == 1.0 / 60.0 || f == 1.0 / 3600.0
    ensures t1 * f <= t2 * f
  {
    if f == 60.0 {
    } else if f == 3600.0 {
    } else if f == 1.0 / 60.0 {
    } else {
    }
  }

  /** A longer time never converts to fewer target units. */
  lemma ConvertMonotone(t1: real, t2: real, unit: string, target: string)
    requires t1 <= t2 && Convert(t1, unit, target).Ok? && Convert(t2, unit, target).Ok?
    ensures Convert(t1, unit, target).value <= Convert(t2, unit, target).value
  {
    if unit != target && t1 > 0.0 {
      var f := Factor(unit, target).value;
      FactorValues(unit, target);
      ScaleMonotone(0.0, t1, f);
      ScaleMonotone(t1, t2, f);
      TruncMonotone(t1 * f, t2 * f);
      assert Convert(t1, unit, target) == Ok(Trunc(t1 * f) as real);
      assert Convert(t2, unit, target) == Ok(Trunc(t2 * f) as real);
    } else if unit != target && t2 > 0.0 {
      ConvertFacts(t2, unit, target);
    }
  }

  /** Truncation keeps the order of two non-negative reals. */
  lemma TruncMonotone(x: real, y: real)
    requires 0.0 <= x <= y
    ensures Trunc(x) <= Trunc(y)
  {
    assert Trunc(x) as real <= x <= y < Trunc(y) as real + 1.0;
  }

  /**
   * A whole number of a larger unit converted to a smaller one and back is unchanged; the
   * other way round, truncation can only lose time.
   */
  lemma ConvertRoundTrip(n: nat, big: string, small: string)
    requires Factor(big, small).Some? && Rank(big) > Rank(small)
    ensures Convert(n as real, big, small).Ok?
    ensures Convert(Convert(n as real, big, small).value, small, big) == Ok(n as real)
  {
    if n > 0 {
      if big == "min" {
        assert small == "s";
        assert Convert(n as real, big, small) == Ok((n * 60) as real);
      } else if small == "s" {
        assert Convert(n as real, big, small) == Ok((n * 3600) as real);
      } else {
        assert Convert(n as real, big, small) == Ok((n * 60) as real);
      }
    }
  }

  /** Converting down and back up again never gives more than the time converted. */
  lemma ConvertBackLoses(time: real, small: string, big: string)
    requires Factor(small, big).Some? && Rank(big) > Rank(small) && time > 0.0
    ensures Convert(time, small, big).Ok?
    ensures Convert(time, small, big).value * Factor(big, small).value <= time
  {
    FactorTable(small, big);
    var g := Factor(small, big).value;
    var f := Factor(big, small).value;
    var v := Convert(time, small, big).value;
    ConvertFacts(time, small, big);
    assert v <= time * g;
    assert v * f <= time * g * f;
    assert time * g * f == time * (g * f);
  }
}
