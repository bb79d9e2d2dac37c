/**
 * Proleptic Gregorian calendar arithmetic, as Go's time package does it when
 * it turns a parsed date into an absolute instant: leap years, month lengths
 * and the number of days from 1970-01-01.
 */
module Calendar {

  datatype Date = Date(year: nat, month: int, day: int)

  predicate IsLeap(y: int) { y % 4 == 0 && (y % 100 != 0 || y % 400 == 0) }

  function DaysIn(m: int, y: int): (n: int)
    requires 1 <= m <= 12
    ensures 28 <= n <= 31
    ensures n == 29 <==> m == 2 && IsLeap(y)
  {
    if m == 2 then (if IsLeap(y) then 29 else 28)
    else if m == 4 || m == 6 || m == 9 || m == 11 then 30
    else 31
  }

  predicate ValidDate(d: Date) { 1 <= d.month <= 12 && 1 <= d.day <= DaysIn(d.month, d.year) }

  /** Days of year y that lie before the first of month m (Go's daysBefore table). */
  function DaysBeforeMonth(m: int, y: int): nat
    requires 1 <= m <= 12
  {
    [0, 31, 59, 90, 120, 151, 181, 212, 243, 273, 304, 334][m - 1]
      + (if m > 2 && IsLeap(y) then 1 else 0)
  }

  /** Leap years among 0, 1, ..., y - 1. */
  function LeapsBefore(y: nat): int
  {
    (y + 3) / 4 - (y + 99) / 100 + (y + 399) / 400
  }

  /** Days from 0000-01-01 to 1970-01-01. */
  const UnixEpochDay := 719528

  /** Days from 1970-01-01 to d (negative before it). */
  function DaysFromCivil(d: Date): int
    requires ValidDate(d)
  {
    365 * d.year + LeapsBefore(d.year) + DaysBeforeMonth(d.month, d.year) + d.day - 1 - UnixEpochDay
  }

  /** The calendar day after d. */
  function NextDay(d: Date): (n: Date)
    requires ValidDate(d)
    ensures ValidDate(n)
  {
    if d.day < DaysIn(d.month, d.year) then Date(d.year, d.month, d.day + 1)
    else if d.month < 12 then Date(d.year, d.month + 1, 1)
    else Date(d.year + 1, 1, 1)
  }

  lemma LeapsBeforeStep(y: nat)
    ensures LeapsBefore(y + 1) == LeapsBefore(y) + (if IsLeap(y) then 1 else 0)
  {
    assert (y + 4) / 4 == (y + 3) / 4 + (if y % 4 == 0 then 1 else 0);
    assert (y + 100) / 100 == (y + 99) / 100 + (if y % 100 == 0 then 1 else 0);
    assert (y + 400) / 400 == (y + 399) / 400 + (if y % 400 == 0 then 1 else 0);
  }

  lemma DaysBeforeMonthStep(m: int, y: int)
    requires 1 <= m < 12
    ensures DaysBeforeMonth(m + 1, y) == DaysBeforeMonth(m, y) + DaysIn(m, y)
  {
  }

  /** 1970-01-01 is day zero. */
  lemma DaysFromCivilEpoch()
    ensures DaysFromCivil(Date(1970, 1, 1)) == 0
  {
  }

  /**
   * Consecutive calendar days are numbered consecutively. Together with
   * DaysFromCivilEpoch this pins DaysFromCivil down: it counts the NextDay
   * steps from 1970-01-01.
   */
  lemma DaysFromCivilNext(d: Date)
    requires ValidDate(d)
    ensures DaysFromCivil(NextDay(d)) == DaysFromCivil(d) + 1
  {
    if d.day == DaysIn(d.month, d.year) {
      if d.month < 12 {
        DaysBeforeMonthStep(d.month, d.year);
      } else {
        LeapsBeforeStep(d.year);
      }
    }
  }
}
