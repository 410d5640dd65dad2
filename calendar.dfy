/** Month/year arithmetic on card expiry periods, defined independently of the
    generator's branches: a period is numbered by the count of months since
    month 1 of year 0, and "one month before" is that number minus one. */
module Calendar {

  type Month = m: int | 1 <= m <= 12 witness 1

  /** An expiry period: a month and a (two-digit, possibly shifted) year. */
  datatype Period = Period(month: Month, year: int)

  /** Months elapsed since month 1 of year 0; negative before it. */
  function Index(p: Period): int {
    p.year * 12 + (p.month - 1)
  }

  /** The period with the given month number. */
  function FromIndex(k: int): (p: Period)
    ensures Index(p) == k
  {
    Period(k % 12 + 1, k / 12)
  }

  /** Numbering periods loses nothing: `FromIndex` undoes `Index`, so
      distinct periods get distinct numbers. */
  lemma FromIndexOfIndex(p: Period)
    ensures FromIndex(Index(p)) == p
  {
  }

  /** The calendar month immediately before `p`. */
  function MonthBefore(p: Period): (q: Period)
    ensures Index(q) == Index(p) - 1
  {
    FromIndex(Index(p) - 1)
  }

  /** The same month, `n` years later. */
  function YearsLater(p: Period, n: int): (q: Period)
    ensures Index(q) == Index(p) + 12 * n
  {
    Period(p.month, p.year + n)
  }

  /** The branch-by-branch reading of `MonthBefore`: January rolls back to
      December of the previous year, any other month just decrements. */
  lemma MonthBeforeCases(p: Period)
    ensures MonthBefore(p) == if p.month == 1 then Period(12, p.year - 1) else Period(p.month - 1, p.year)
  {
  }
}
