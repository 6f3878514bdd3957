/**
  One customer's lifecycle timeline (utils/generate_data.py, lines 88-108):
  the month of the first order, the churn month and the reactivation month,
  and the rule that decides which of the twelve months go on to draw an
  order count. The random draws arrive as plain integers; `DrawsInRange`
  states the inclusive ranges of the `random.randint` calls that produce
  them.
 */
module Lifecycle {
  import opened Wrappers

  /** The simulated horizon is months 1 to 12 of one year. */
  const LastMonth: int := 12
  /** A sudden churner cannot churn in month 1 (line 95). */
  const SuddenEarliestChurn: int := 2
  /** A gradual churner cannot churn in months 1 and 2 (line 98). */
  const GradualEarliestChurn: int := 3

  datatype ChurnType = NoChurn | SuddenChurn | GradualChurn

  /** The mutable locals `first_order_month`, `churn_month` and
      `reactivation_month` once they are set; `None` is Python's `None`. */
  datatype Timeline = Timeline(firstOrderMonth: int, churnMonth: Option<int>, reactivationMonth: Option<int>)

  function Max(a: int, b: int): int
  {
    if a < b then b else a
  }

  /** The inclusive ranges of the three draws, as `random.randint(lo, hi)`
      returns them: first_order_month from [1, 12]; the churn month from
      [max(2, first), 12] or [max(3, first), 12] by churn type; the
      reactivation month from [churn + 1, 12] when it is drawn at all. */
  predicate DrawsInRange(churnType: ChurnType, firstDraw: int, churnDraw: int, reactivationDraw: int)
  {
    && 1 <= firstDraw <= LastMonth
    && (churnType == SuddenChurn ==> Max(SuddenEarliestChurn, firstDraw) <= churnDraw <= LastMonth)
    && (churnType == GradualChurn ==> Max(GradualEarliestChurn, firstDraw) <= churnDraw <= LastMonth)
    && (churnType == GradualChurn && churnDraw < LastMonth ==> churnDraw + 1 <= reactivationDraw <= LastMonth)
  }

  /** The timeline the customer loop builds from the draws (lines 88-101).
      Only the draws the code actually makes are used: no churn month for a
      non-churner, and a reactivation month only for a gradual churner whose
      churn month is before 12. */
  function Schedule(churnType: ChurnType, firstDraw: int, churnDraw: int, reactivationDraw: int): Timeline
  {
    match churnType
    case NoChurn => Timeline(firstDraw, None, None)
    case SuddenChurn => Timeline(firstDraw, Some(churnDraw), None)
    case GradualChurn =>
      Timeline(firstDraw, Some(churnDraw), if churnDraw < LastMonth then Some(reactivationDraw) else None)
  }

  /** The invariant every timeline keeps, stated on the timeline itself. */
  predicate ValidTimeline(t: Timeline, churnType: ChurnType)
  {
    && 1 <= t.firstOrderMonth <= LastMonth
    && (t.churnMonth.Some? <==> churnType != NoChurn)
    && (t.churnMonth.Some? ==> t.firstOrderMonth <= t.churnMonth.value <= LastMonth)
    && (churnType == SuddenChurn ==> t.churnMonth.value >= SuddenEarliestChurn)
    && (churnType == GradualChurn ==> t.churnMonth.value >= GradualEarliestChurn)
    && (t.reactivationMonth.Some? <==> churnType == GradualChurn && t.churnMonth.value < LastMonth)
    && (t.reactivationMonth.Some? ==> t.churnMonth.value < t.reactivationMonth.value <= LastMonth)
  }

  /** Python's truth value of an optional month: `None` and `0` are false. */
  predicate Truthy(month: Option<int>)
  {
    month.Some? && month.value != 0
  }

  /** The skip test of line 107: churned and not yet reactivated. */
  predicate InChurnWindow(t: Timeline, month: int)
  {
    && Truthy(t.churnMonth)
    && month >= t.churnMonth.value
    && (!Truthy(t.reactivationMonth) || month < t.reactivationMonth.value)
  }

  /** A month that passes both `continue` tests (lines 104-108) and goes on
      to draw an order count. */
  predicate ReachesCount(t: Timeline, month: int)
  {
    month >= t.firstOrderMonth && !InChurnWindow(t, month)
  }

  /** Every timeline built from in-range draws satisfies the invariant: the
      first order month is in [1, 12]; a churner's churn month is at least
      the first order month and at least 2 (sudden) or 3 (gradual); a
      reactivation month exists exactly for gradual churners who churn before
      12 and then lies in (churn, 12]. */
  lemma {:induction false} ScheduleValid(churnType: ChurnType, firstDraw: int, churnDraw: int, reactivationDraw: int)
    requires DrawsInRange(churnType, firstDraw, churnDraw, reactivationDraw)
    ensures ValidTimeline(Schedule(churnType, firstDraw, churnDraw, reactivationDraw), churnType)
  {
  }

  /** On a valid timeline the truthiness tests of line 107 are presence tests,
      and the months that reach the count step are exactly those from the
      first order month on that lie before the churn month or, after a
      reactivation, from the reactivation month on. Without a reactivation
      every month from the churn month to 12 is skipped. */
  lemma ReachesCountExactly(t: Timeline, churnType: ChurnType, month: int)
    requires ValidTimeline(t, churnType)
    ensures ReachesCount(t, month) <==>
              && t.firstOrderMonth <= month
              && (|| t.churnMonth.None?
                  || month < t.churnMonth.value
                  || (t.reactivationMonth.Some? && month >= t.reactivationMonth.value))
    ensures churnType != NoChurn && t.reactivationMonth.None? && t.churnMonth.value <= month ==> !ReachesCount(t, month)
  {
  }

  /** A gradual churner whose churn month is 12 is never reactivated, and
      month 12 is then skipped while the earlier months from the first order
      month on all reach the count step. */
  lemma GradualChurnInLastMonth(firstDraw: int, reactivationDraw: int)
    requires DrawsInRange(GradualChurn, firstDraw, LastMonth, reactivationDraw)
    ensures Schedule(GradualChurn, firstDraw, LastMonth, reactivationDraw).reactivationMonth == None
    ensures !ReachesCount(Schedule(GradualChurn, firstDraw, LastMonth, reactivationDraw), LastMonth)
    ensures forall month :: firstDraw <= month < LastMonth ==>
              ReachesCount(Schedule(GradualChurn, firstDraw, LastMonth, reactivationDraw), month)
  {
  }
}
