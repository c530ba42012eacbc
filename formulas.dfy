/**
 * The three salary formulas of the payroll engine. Hours and money are exact
 * reals; day and slot counts are natural numbers.
 */
module Formulas {

  /** Slot-based pay: 1.5 times the wage per slot, 425 per working day, 215 per slot. */
  function CalcWaseaka(hours: real, wage: real, workDays: nat, komaCount: nat): (r: real)
    ensures komaCount == 0 ==> r == 425.0 * workDays as real
    ensures wage >= 0.0 ==> r >= 425.0 * workDays as real + 215.0 * komaCount as real
  {
    var komaWage := wage * 1.5;
    komaCount as real * komaWage + 425.0 * workDays as real + komaCount as real * 215.0
  }

  /** Hourly pay minus a half-hour break per working day, plus 292 per working day. */
  function CalcToraya(hours: real, wage: real, workDays: nat): (r: real)
    ensures workDays == 0 ==> r == hours * wage
    ensures wage == 0.0 ==> r == 292.0 * workDays as real
  {
    (hours - 0.5 * workDays as real) * wage + 292.0 * workDays as real
  }

  /** Hourly pay plus 376 per working day. */
  function CalcHaluene(hours: real, wage: real, workDays: nat): (r: real)
    ensures workDays == 0 ==> r == hours * wage
    ensures hours == 0.0 ==> r == 376.0 * workDays as real
  {
    hours * wage + 376.0 * workDays as real
  }

  /** The slot-based formula takes the hours but never reads them. */
  lemma WaseakaIgnoresHours(h1: real, h2: real, wage: real, workDays: nat, komaCount: nat)
    ensures CalcWaseaka(h1, wage, workDays, komaCount) == CalcWaseaka(h2, wage, workDays, komaCount)
  {
  }

  /** With no hours, no days and no slots, every formula pays nothing, whatever the wage. */
  lemma FormulasZeroAtZero(wage: real)
    ensures CalcWaseaka(0.0, wage, 0, 0) == 0.0
    ensures CalcToraya(0.0, wage, 0) == 0.0
    ensures CalcHaluene(0.0, wage, 0) == 0.0
  {
  }

  /** The worked examples of the three formulas with the default wages. */
  lemma FormulaExamples(hours: real)
    ensures CalcWaseaka(hours, 1410.0, 3, 5) == 12925.0
    ensures CalcToraya(20.0, 1250.0, 4) == 23668.0
    ensures CalcHaluene(15.0, 1500.0, 3) == 23628.0
  {
  }

  /**
   * The break deduction is not clamped: for a positive wage the hourly part of
   * the pay is negative exactly when fewer than half an hour per day was
   * worked, and a wage above 584 makes a month of zero-length shifts pay a
   * negative salary.
   */
  lemma TorayaNotClamped(hours: real, wage: real, workDays: nat)
    requires wage > 0.0
    ensures CalcToraya(hours, wage, workDays) < 292.0 * workDays as real <==> hours < 0.5 * workDays as real
    ensures hours == 0.0 && workDays > 0 && wage > 584.0 ==> CalcToraya(hours, wage, workDays) < 0.0
  {
    var d := workDays as real;
    assert CalcToraya(hours, wage, workDays) - 292.0 * d == (hours - 0.5 * d) * wage;
    if hours == 0.0 && workDays > 0 && wage > 584.0 {
      assert CalcToraya(hours, wage, workDays) == d * (292.0 - 0.5 * wage);
    }
  }

  /**
   * With a non-negative wage and non-negative hours, the slot-based and the
   * flat hourly formula never pay less than their per-day allowance (the break
   * formula can, see TorayaNotClamped).
   */
  lemma AllowanceIsFloor(hours: real, wage: real, workDays: nat, komaCount: nat)
    requires wage >= 0.0 && hours >= 0.0
    ensures CalcWaseaka(hours, wage, workDays, komaCount) >= 425.0 * workDays as real
    ensures CalcHaluene(hours, wage, workDays) >= 376.0 * workDays as real
  {
  }

  /**
   * Each formula is additive: the pay for two batches of work taken together
   * is the sum of the pays for each batch.
   */
  lemma FormulasAdditive(h1: real, h2: real, wage: real, d1: nat, d2: nat, k1: nat, k2: nat)
    ensures CalcWaseaka(h1 + h2, wage, d1 + d2, k1 + k2) == CalcWaseaka(h1, wage, d1, k1) + CalcWaseaka(h2, wage, d2, k2)
    ensures CalcToraya(h1 + h2, wage, d1 + d2) == CalcToraya(h1, wage, d1) + CalcToraya(h2, wage, d2)
    ensures CalcHaluene(h1 + h2, wage, d1 + d2) == CalcHaluene(h1, wage, d1) + CalcHaluene(h2, wage, d2)
  {
  }
}
