/**
  What the order expansion promises, proved about the specification
  functions of `OrderExpansion` (and so, through the postcondition of
  `GenerateSalesData`, about the loop itself).
 */
module ExpansionProperties {
  import opened Wrappers
  import opened Decline
  import opened Lifecycle
  import opened OrderExpansion

  /** A pattern the count step knows, or no pattern at all. */
  predicate KnownOrAbsent(pattern: Option<Pattern>)
  {
    pattern.None? || !pattern.value.Unrecognised?
  }

  // ---------------------------------------------------------------------
  // The count step (lines 110-123)

  /** Truncating a count scaled by a factor in [0, 1] gives a count between 0
      and the unscaled count. */
  lemma TruncScaledWithin(n: int, f: real)
    requires 0 <= n
    requires 0.0 <= f <= 1.0
    ensures 0 <= Trunc(n as real * f) <= n
  {
    var x := n as real * f;
    ProductWithin(n as real, f);
    TruncTowardZero(x);
  }

  /** Scaling a non-negative real by a factor in [0, 1] keeps it between 0
      and itself. */
  lemma ProductWithin(a: real, f: real)
    requires 0.0 <= a
    requires 0.0 <= f <= 1.0
    ensures 0.0 <= a * f <= a
  {
    assert a - a * f == a * (1.0 - f);
  }

  /** Before the churn month every known pattern leaves the drawn count as
      it is: the decline multiplier is 1 and truncation keeps an integer. */
  lemma OrderCountBeforeChurn(baseline: int, pattern: Option<Pattern>, month: int, churnMonth: int, p: DeclineParams)
    requires KnownOrAbsent(pattern)
    requires month < churnMonth
    ensures OrderCount(baseline, pattern, month, churnMonth, p) == Ok(baseline)
  {
    assert (baseline as real * 1.0).Floor == baseline;
    assert (-(baseline as real * 1.0)).Floor == -baseline;
  }

  /** With the real exponential and logarithm and a ratio in [0, 1], every
      known pattern yields a finite decline factor in [0, 1]. */
  lemma PatternFactorWithinUnit(pattern: Pattern, month: int, churnMonth: int, p: DeclineParams)
    requires !pattern.Unrecognised?
    requires ExpShape(p.exp) && Log2Shape(p.log2)
    requires 0.0 <= p.declineRatio <= 1.0
    ensures PatternFactor(pattern, month, churnMonth, p).Ok?
    ensures PatternFactor(pattern, month, churnMonth, p).value.Finite?
    ensures 0.0 <= PatternFactor(pattern, month, churnMonth, p).value.value <= 1.0
  {
    match pattern
    case Stepwise =>
      StepwiseNonIncreasing(month, month, churnMonth, StepSize, p.declineRatio);
    case Logarithmic =>
      LogarithmicWellDefined(month, churnMonth, LogBase, p.log2);
    case Exponential =>
      ExponentialOneExactlyBeforeChurn(month, churnMonth, DecayRate, p.exp);
  }

  /** Scaling a non-negative count by a finite factor in [0, 1] succeeds and
      gives a count between 0 and the unscaled count. */
  lemma ScaleWithin(numOrders: int, factor: Factor)
    requires 0 <= numOrders
    requires factor.Finite? && 0.0 <= factor.value <= 1.0
    ensures Scale(numOrders, factor).Ok?
    ensures 0 <= Scale(numOrders, factor).value <= numOrders
  {
    TruncScaledWithin(numOrders, factor.value);
  }

  /** With the real exponential and logarithm and a ratio in [0, 1], every
      known pattern yields a count between 0 and the drawn count. */
  lemma OrderCountWithinBaseline(baseline: int, pattern: Option<Pattern>, month: int, churnMonth: int, p: DeclineParams)
    requires 0 <= baseline
    requires KnownOrAbsent(pattern)
    requires ExpShape(p.exp) && Log2Shape(p.log2)
    requires 0.0 <= p.declineRatio <= 1.0
    ensures OrderCount(baseline, pattern, month, churnMonth, p).Ok?
    ensures 0 <= OrderCount(baseline, pattern, month, churnMonth, p).value <= baseline
  {
    if pattern.Some? {
      PatternFactorWithinUnit(pattern.value, month, churnMonth, p);
      ScaleWithin(baseline, PatternFactor(pattern.value, month, churnMonth, p).value);
    }
  }

  /** With the real binary logarithm the count step fails exactly for an
      unrecognised pattern, and then with that pattern's error; it never
      falls back to a default multiplier. */
  lemma OrderCountFails(baseline: int, pattern: Option<Pattern>, month: int, churnMonth: int, p: DeclineParams)
    requires Log2Shape(p.log2)
    ensures OrderCount(baseline, pattern, month, churnMonth, p).Err? <==> !KnownOrAbsent(pattern)
    ensures !KnownOrAbsent(pattern) ==>
              OrderCount(baseline, pattern, month, churnMonth, p) == Err(InvalidChurnPattern(pattern.value.name))
  {
    LogarithmicWellDefined(month, churnMonth, LogBase, p.log2);
  }

  // ---------------------------------------------------------------------
  // The append loop (lines 125-134)

  /** One month appends exactly `n` orders (none when `n` is not positive),
      the k-th with the customer's id, the month, and the k-th drawn amount. */
  lemma {:induction false} MonthOrderListShape(customer: Customer, c: int, month: int, n: int, d: Draws)
    ensures |MonthOrderList(customer, c, month, n, d)| == Max(n, 0)
    ensures forall k :: 0 <= k < Max(n, 0) ==>
              MonthOrderList(customer, c, month, n, d)[k] == Order(customer.id, month, d.totalAmount(c, month, k))
    decreases n
  {
    if n > 0 {
      MonthOrderListShape(customer, c, month, n - 1, d);
    }
  }

  /** Every month that reaches the count step appends between 0 and the drawn
      count of orders, at most 10; before the churn month, or when the row
      has no pattern, exactly the drawn count, at least 1. A skipped month
      appends nothing. */
  lemma MonthOrdersCount(customer: Customer, c: int, t: Timeline, month: int, d: Draws, p: DeclineParams)
    requires t.churnMonth.Some?
    requires CountsInRange(d)
    requires KnownOrAbsent(customer.churnPattern)
    requires ExpShape(p.exp) && Log2Shape(p.log2)
    requires 0.0 <= p.declineRatio <= 1.0
    ensures MonthOrders(customer, c, t, month, d, p).Ok?
    ensures !ReachesCount(t, month) ==> MonthOrders(customer, c, t, month, d, p).value == []
    ensures ReachesCount(t, month) ==>
              |MonthOrders(customer, c, t, month, d, p).value| <= d.numOrders(c, month) <= MaxOrders
    ensures ReachesCount(t, month) && (customer.churnPattern.None? || month < t.churnMonth.value) ==>
              MinOrders <= |MonthOrders(customer, c, t, month, d, p).value| == d.numOrders(c, month)
  {
    var baseline := d.numOrders(c, month);
    OrderCountWithinBaseline(baseline, customer.churnPattern, month, t.churnMonth.value, p);
    var n := OrderCount(baseline, customer.churnPattern, month, t.churnMonth.value, p).value;
    MonthOrderListShape(customer, c, month, n, d);
    if month < t.churnMonth.value {
      OrderCountBeforeChurn(baseline, customer.churnPattern, month, t.churnMonth.value, p);
    }
  }

  // ---------------------------------------------------------------------
  // One customer's orders

  /** `s` is a run of orders of `customer`, all in months before `upto` that
      reach the count step, with amounts in [10, 2000], in month order. */
  ghost predicate OrdersOf(s: seq<Order>, customer: Customer, t: Timeline, upto: int)
  {
    && (forall k :: 0 <= k < |s| ==>
          && s[k].customerId == customer.id
          && 1 <= s[k].month < upto
          && ReachesCount(t, s[k].month)
          && MinAmount <= s[k].totalAmount <= MaxAmount)
    && (forall j, k :: 0 <= j < k < |s| ==> s[j].month <= s[k].month)
  }

  /** The orders of months 1 to `upto - 1` are such a run. */
  lemma {:induction false} MonthsBeforeShape(customer: Customer, c: int, t: Timeline, upto: nat, d: Draws, p: DeclineParams)
    requires t.churnMonth.Some?
    requires AmountsInRange(d)
    requires MonthsBefore(customer, c, t, upto, d, p).Ok?
    ensures OrdersOf(MonthsBefore(customer, c, t, upto, d, p).value, customer, t, upto)
    decreases upto
  {
    if upto > 1 {
      var month := upto - 1;
      MonthsBeforeShape(customer, c, t, month, d, p);
      var earlier := MonthsBefore(customer, c, t, month, d, p).value;
      var current := MonthOrders(customer, c, t, month, d, p).value;
      assert OrdersOf(current, customer, t, upto) && forall k :: 0 <= k < |current| ==> current[k].month == month by {
        if ReachesCount(t, month) {
          var n := OrderCount(d.numOrders(c, month), customer.churnPattern, month, t.churnMonth.value, p).value;
          MonthOrderListShape(customer, c, month, n, d);
        }
      }
      var s := earlier + current;
      assert MonthsBefore(customer, c, t, upto, d, p).value == s;
      forall j, k | 0 <= j < k < |s|
        ensures s[j].month <= s[k].month
      {
        if k < |earlier| {
          assert s[j] == earlier[j] && s[k] == earlier[k];
        } else if j >= |earlier| {
          assert s[j] == current[j - |earlier|] && s[k] == current[k - |earlier|];
        } else {
          assert s[j] == earlier[j] && s[k] == current[k - |earlier|];
        }
      }
      forall k | 0 <= k < |s|
        ensures s[k].customerId == customer.id && 1 <= s[k].month < upto && ReachesCount(t, s[k].month)
        ensures MinAmount <= s[k].totalAmount <= MaxAmount
      {
        if k < |earlier| {
          assert s[k] == earlier[k];
        } else {
          assert s[k] == current[k - |earlier|];
        }
      }
    }
  }

  /** A customer who is not a gradual churner adds no orders. A gradual
      churner's orders all carry its id, fall in months of [1, 12] that reach
      the count step, have amounts in [10, 2000], and come in month order. */
  lemma CustomerOrdersShape(customers: seq<Customer>, c: int, d: Draws, p: DeclineParams)
    requires 0 <= c < |customers|
    requires AmountsInRange(d)
    requires CustomerOrders(customers, c, d, p).Ok?
    ensures customers[c].churnType != GradualChurn ==> CustomerOrders(customers, c, d, p).value == []
    ensures OrdersOf(CustomerOrders(customers, c, d, p).value, customers[c], CustomerTimeline(customers[c], c, d), LastMonth + 1)
  {
    if customers[c].churnType == GradualChurn {
      MonthsBeforeShape(customers[c], c, CustomerTimeline(customers[c], c, d), LastMonth + 1, d, p);
    }
  }

  /** The drawn counts of the months before `upto` that reach the count step. */
  ghost function DrawnTotal(c: int, t: Timeline, upto: nat, d: Draws): int
    decreases upto
  {
    if upto <= 1 then 0
    else DrawnTotal(c, t, upto - 1, d) + (if ReachesCount(t, upto - 1) then d.numOrders(c, upto - 1) else 0)
  }

  /** Without a `churn_pattern` entry nothing is scaled: the months before
      `upto` produce exactly the drawn counts of the months that reach the
      count step, and never fail. */
  lemma {:induction false} UnscaledMonthsBefore(customer: Customer, c: int, t: Timeline, upto: nat, d: Draws, p: DeclineParams)
    requires t.churnMonth.Some?
    requires customer.churnPattern.None?
    requires CountsInRange(d)
    ensures MonthsBefore(customer, c, t, upto, d, p).Ok?
    ensures |MonthsBefore(customer, c, t, upto, d, p).value| == DrawnTotal(c, t, upto, d)
    decreases upto
  {
    if upto > 1 {
      var month := upto - 1;
      UnscaledMonthsBefore(customer, c, t, month, d, p);
      MonthOrderListShape(customer, c, month, d.numOrders(c, month), d);
    }
  }

  // ---------------------------------------------------------------------
  // When the loop fails

  /** A gradual churner with an unrecognised pattern that has at least one
      month reaching the count step: the loop raises at that month. */
  ghost predicate RaisesInvalidPattern(customers: seq<Customer>, c: int, d: Draws)
    requires 0 <= c < |customers|
  {
    && customers[c].churnType == GradualChurn
    && !KnownOrAbsent(customers[c].churnPattern)
    && exists month :: 1 <= month <= LastMonth && ReachesCount(CustomerTimeline(customers[c], c, d), month)
  }

  /** With the real binary logarithm, months 1 to `upto - 1` of a customer
      raise exactly when its pattern is unrecognised and one of those months
      reaches the count step, and the error names the pattern. */
  lemma {:induction false} MonthsBeforeFails(customer: Customer, c: int, t: Timeline, upto: nat, d: Draws, p: DeclineParams)
    requires t.churnMonth.Some?
    requires Log2Shape(p.log2)
    ensures MonthsBefore(customer, c, t, upto, d, p).Err? <==>
              && !KnownOrAbsent(customer.churnPattern)
              && exists month :: 1 <= month < upto && ReachesCount(t, month)
    ensures MonthsBefore(customer, c, t, upto, d, p).Err? ==>
              MonthsBefore(customer, c, t, upto, d, p).error == InvalidChurnPattern(customer.churnPattern.value.name)
    decreases upto
  {
    if upto > 1 {
      var month := upto - 1;
      MonthsBeforeFails(customer, c, t, month, d, p);
      OrderCountFails(d.numOrders(c, month), customer.churnPattern, month, t.churnMonth.value, p);
      if !KnownOrAbsent(customer.churnPattern) && ReachesCount(t, month) {
        assert MonthOrders(customer, c, t, month, d, p).Err?;
      }
      if MonthsBefore(customer, c, t, upto, d, p).Err? && !MonthsBefore(customer, c, t, month, d, p).Err? {
        assert ReachesCount(t, month);
      }
    }
  }

  /** With the real binary logarithm, the loop over the first `n` customers
      raises exactly when one of them is a gradual churner with an
      unrecognised pattern and a month that reaches the count step, and the
      error is then always the invalid-pattern error: the infinite count
      never happens. */
  lemma {:induction false} SalesDataFails(customers: seq<Customer>, n: nat, d: Draws, p: DeclineParams)
    requires n <= |customers|
    requires Log2Shape(p.log2)
    ensures SalesData(customers, n, d, p).Err? <==> exists c :: 0 <= c < n && RaisesInvalidPattern(customers, c, d)
    ensures SalesData(customers, n, d, p).Err? ==> SalesData(customers, n, d, p).error.InvalidChurnPattern?
  {
    if n > 0 {
      var c := n - 1;
      SalesDataFails(customers, c, d, p);
      var customer := customers[c];
      if customer.churnType == GradualChurn {
        MonthsBeforeFails(customer, c, CustomerTimeline(customer, c, d), LastMonth + 1, d, p);
      }
      assert CustomerOrders(customers, c, d, p).Err? <==> RaisesInvalidPattern(customers, c, d);
    }
  }

  // ---------------------------------------------------------------------
  // The sales list

  /** Earlier entries of the sales list are never modified: the list after
      the first `m` customers is a prefix of the list after the first `n`. */
  lemma {:induction false} SalesDataPrefix(customers: seq<Customer>, m: nat, n: nat, d: Draws, p: DeclineParams)
    requires m <= n <= |customers|
    requires SalesData(customers, n, d, p).Ok?
    ensures SalesData(customers, m, d, p).Ok?
    ensures SalesData(customers, m, d, p).value <= SalesData(customers, n, d, p).value
    decreases n
  {
    if m < n {
      var earlier := SalesData(customers, n - 1, d, p);
      assert earlier.Ok?;
      assert earlier.value <= SalesData(customers, n, d, p).value by {
        assert SalesData(customers, n, d, p).value == earlier.value + CustomerOrders(customers, n - 1, d, p).value;
      }
      SalesDataPrefix(customers, m, n - 1, d, p);
    }
  }

  /** An order in the sales list, placed with customer `c`: a gradual
      churner's order, carrying its id, in a month from its first order
      month to 12 that lies before its churn month or (after a
      reactivation) from its reactivation month on, with an amount in
      [10, 2000]. */
  ghost predicate PlacedWith(o: Order, customers: seq<Customer>, c: int, d: Draws)
    requires 0 <= c < |customers|
  {
    var t := CustomerTimeline(customers[c], c, d);
    && customers[c].churnType == GradualChurn
    && o.customerId == customers[c].id
    && t.firstOrderMonth <= o.month <= LastMonth
    && (o.month < t.churnMonth.value || (t.reactivationMonth.Some? && t.reactivationMonth.value <= o.month))
    && MinAmount <= o.totalAmount <= MaxAmount
  }

  /** The order `o` is placed with one of the first `n` customers. */
  ghost predicate PlacedAmong(o: Order, customers: seq<Customer>, n: int, d: Draws)
    requires n <= |customers|
  {
    exists c :: 0 <= c < n && PlacedWith(o, customers, c, d)
  }

  /** Every order in the sales list after the first `n` customers is placed
      with one of them: only gradual churners have orders, and only in
      months outside every churn window. */
  lemma {:induction false} SalesDataPlaced(customers: seq<Customer>, n: nat, d: Draws, p: DeclineParams)
    requires n <= |customers|
    requires ValidDraws(customers, d)
    requires SalesData(customers, n, d, p).Ok?
    ensures forall k :: 0 <= k < |SalesData(customers, n, d, p).value| ==>
              PlacedAmong(SalesData(customers, n, d, p).value[k], customers, n, d)
  {
    if n > 0 {
      var c := n - 1;
      SalesDataPlaced(customers, c, d, p);
      var earlier := SalesData(customers, c, d, p).value;
      var added := CustomerOrders(customers, c, d, p).value;
      CustomerOrdersShape(customers, c, d, p);
      var customer := customers[c];
      var t := CustomerTimeline(customer, c, d);
      ScheduleValid(customer.churnType, d.firstOrderMonth(c), d.churnMonth(c), d.reactivationMonth(c));
      forall k | 0 <= k < |added|
        ensures PlacedWith(added[k], customers, c, d)
      {
        ReachesCountExactly(t, customer.churnType, added[k].month);
      }
      var s := SalesData(customers, n, d, p).value;
      assert s == earlier + added;
      forall k | 0 <= k < |s|
        ensures PlacedAmong(s[k], customers, n, d)
      {
        if k < |earlier| {
          assert s[k] == earlier[k];
          assert PlacedAmong(earlier[k], customers, c, d);
          var c' :| 0 <= c' < c && PlacedWith(earlier[k], customers, c', d);
          assert 0 <= c' < n && PlacedWith(s[k], customers, c', d);
        } else {
          assert s[k] == added[k - |earlier|];
          assert PlacedWith(s[k], customers, c, d);
        }
      }
    }
  }
}
