/**
  Order expansion (utils/generate_data.py, lines 86-134): the loop over the
  customers that schedules each customer's timeline, walks months 1 to 12,
  draws and scales an order count for every month that is not skipped, and
  appends that many orders to the growing sales list.

  The random draws are the fields of `Draws`, indexed by the customer's
  position in the customer table, the month and the order's position within
  the month. `SalesData` is the specification of the whole loop, built month
  by month and customer by customer as the loop builds it; the method
  `GenerateSalesData` is the loop itself and is proved to compute it.
 */
module OrderExpansion {
  import opened Wrappers
  import opened Decline
  import opened Lifecycle

  /** `fake.random_int(min=1, max=10)`: the baseline count of a month (line 110). */
  const MinOrders: int := 1
  const MaxOrders: int := 10
  /** `fake.random_int(min=10, max=2000)`: an order's amount (line 128). */
  const MinAmount: int := 10
  const MaxAmount: int := 2000
  /** The decline parameters of the three calls (lines 115, 117, 119). */
  const StepSize: int := 3
  const LogBase: int := 2
  const DecayRate: real := 0.2

  /** The value of the `churn_pattern` column; any other value is rejected. */
  datatype Pattern = Exponential | Logarithmic | Stepwise | Unrecognised(name: string)

  /** A customer row: its opaque id, its churn type, and its churn pattern,
      or `None` when the row has no `churn_pattern` entry (the test of
      line 113 fails). */
  datatype Customer = Customer(id: string, churnType: ChurnType, churnPattern: Option<Pattern>)

  /** An order, dated by its month index. */
  datatype Order = Order(customerId: string, month: int, totalAmount: int)

  /** The two exceptions that abort the loop: `ValueError("Invalid churn
      pattern")` (line 121) and the `OverflowError` of `int()` on an infinite
      count (line 123). */
  datatype Error = InvalidChurnPattern(name: string) | InfiniteOrderCount

  datatype Result<T> = Ok(value: T) | Err(error: Error)

  /** The random draws of the loop. */
  datatype Draws = Draws(
    firstOrderMonth: int -> int,          // customer -> first_order_month
    churnMonth: int -> int,               // customer -> churn_month
    reactivationMonth: int -> int,        // customer -> reactivation_month
    numOrders: (int, int) -> int,         // customer, month -> baseline count
    totalAmount: (int, int, int) -> int)  // customer, month, order -> amount

  /** The floating-point `np.exp` and `np.log2`, and the stepwise ratio. */
  datatype DeclineParams = DeclineParams(exp: real -> real, log2: real -> real, declineRatio: real)

  ghost predicate TimelineDrawsInRange(customers: seq<Customer>, d: Draws)
  {
    forall c :: 0 <= c < |customers| ==>
      DrawsInRange(customers[c].churnType, d.firstOrderMonth(c), d.churnMonth(c), d.reactivationMonth(c))
  }

  ghost predicate CountsInRange(d: Draws)
  {
    forall c, month :: MinOrders <= d.numOrders(c, month) <= MaxOrders
  }

  ghost predicate AmountsInRange(d: Draws)
  {
    forall c, month, k :: MinAmount <= d.totalAmount(c, month, k) <= MaxAmount
  }

  /** The draws as the random generators return them. */
  ghost predicate ValidDraws(customers: seq<Customer>, d: Draws)
  {
    TimelineDrawsInRange(customers, d) && CountsInRange(d) && AmountsInRange(d)
  }

  /** The timeline of customer `c`, from its own draws. */
  function CustomerTimeline(customer: Customer, c: int, d: Draws): Timeline
  {
    Schedule(customer.churnType, d.firstOrderMonth(c), d.churnMonth(c), d.reactivationMonth(c))
  }

  /** Python's `int()` of a float: truncation toward zero. */
  function Trunc(x: real): int
  {
    if x >= 0.0 then x.Floor else -((-x).Floor)
  }

  /** `Trunc` drops the fractional part: the result has the sign of `x` and
      lies within 1 of it, on the side of 0. */
  lemma TruncTowardZero(x: real)
    ensures 0.0 <= x ==> 0 <= Trunc(x) && Trunc(x) as real <= x < Trunc(x) as real + 1.0
    ensures x < 0.0 ==> Trunc(x) <= 0 && Trunc(x) as real - 1.0 < x <= Trunc(x) as real
  {
  }

  /** The decline factor chosen by the pattern (lines 114-121). */
  function PatternFactor(pattern: Pattern, month: int, churnMonth: int, p: DeclineParams): Result<Factor>
  {
    match pattern
    case Stepwise => Ok(Finite(StepwiseDecline(month, churnMonth, StepSize, p.declineRatio)))
    case Logarithmic => Ok(LogarithmicDecline(month, churnMonth, LogBase, p.log2))
    case Exponential => Ok(Finite(ExponentialDecline(month, churnMonth, DecayRate, p.exp)))
    case Unrecognised(name) => Err(InvalidChurnPattern(name))
  }

  /** `int(num_orders * decline_factor)` (line 123). */
  function Scale(numOrders: int, factor: Factor): Result<int>
  {
    match factor
    case Infinite => Err(InfiniteOrderCount)
    case Finite(f) => Ok(Trunc(numOrders as real * f))
  }

  /** The number of orders of a month that reaches the count step (lines 110-123). */
  function OrderCount(baseline: int, pattern: Option<Pattern>, month: int, churnMonth: int, p: DeclineParams): Result<int>
  {
    match pattern
    case None => Ok(baseline)
    case Some(pat) =>
      match PatternFactor(pat, month, churnMonth, p)
      case Err(e) => Err(e)
      case Ok(factor) => Scale(baseline, factor)
  }

  /** The first `n` orders appended for a month (lines 125-134); a count of
      zero or less appends nothing, as `range(n)` is then empty. */
  function MonthOrderList(customer: Customer, c: int, month: int, n: int, d: Draws): seq<Order>
    decreases n
  {
    if n <= 0 then []
    else MonthOrderList(customer, c, month, n - 1, d) + [Order(customer.id, month, d.totalAmount(c, month, n - 1))]
  }

  /** What one month of a gradual churner appends, or the error it raises. */
  function MonthOrders(customer: Customer, c: int, t: Timeline, month: int, d: Draws, p: DeclineParams): Result<seq<Order>>
    requires t.churnMonth.Some?
  {
    if !ReachesCount(t, month) then Ok([])
    else
      match OrderCount(d.numOrders(c, month), customer.churnPattern, month, t.churnMonth.value, p)
      case Err(e) => Err(e)
      case Ok(n) => Ok(MonthOrderList(customer, c, month, n, d))
  }

  /** Running two steps in sequence: the first error aborts. */
  function Then(first: Result<seq<Order>>, next: Result<seq<Order>>): Result<seq<Order>>
  {
    if first.Err? then first else if next.Err? then next else Ok(first.value + next.value)
  }

  /** The orders of months 1 to `upto - 1`, in month order. */
  function MonthsBefore(customer: Customer, c: int, t: Timeline, upto: nat, d: Draws, p: DeclineParams): Result<seq<Order>>
    requires t.churnMonth.Some?
    decreases upto
  {
    if upto <= 1 then Ok([])
    else Then(MonthsBefore(customer, c, t, upto - 1, d, p), MonthOrders(customer, c, t, upto - 1, d, p))
  }

  /** The orders of customer `c`. The month loop sits inside the branch for
      gradual churners (lines 96-134), so every other customer adds none. */
  function CustomerOrders(customers: seq<Customer>, c: int, d: Draws, p: DeclineParams): Result<seq<Order>>
    requires 0 <= c < |customers|
  {
    var customer := customers[c];
    if customer.churnType != GradualChurn then Ok([])
    else MonthsBefore(customer, c, CustomerTimeline(customer, c, d), LastMonth + 1, d, p)
  }

  /** The sales list after the first `n` customers. */
  function SalesData(customers: seq<Customer>, n: nat, d: Draws, p: DeclineParams): Result<seq<Order>>
    requires n <= |customers|
  {
    if n == 0 then Ok([])
    else Then(SalesData(customers, n - 1, d, p), CustomerOrders(customers, n - 1, d, p))
  }

  // ---------------------------------------------------------------------
  // The customer loop

  /** The loop of lines 85-134: the result is the sales list the
      specification builds, or the first error raised. */
  method GenerateSalesData(customers: seq<Customer>, d: Draws, p: DeclineParams) returns (result: Result<seq<Order>>)
    ensures result == SalesData(customers, |customers|, d, p)
  {
    var salesData: seq<Order> := [];
    for i := 0 to |customers|
      invariant SalesData(customers, i, d, p) == Ok(salesData)
    {
      var extended := ExpandCustomer(customers, i, salesData, d, p);
      if extended.Err? {
        SalesErrorIsFinal(customers, i + 1, |customers|, d, p);
        return extended;
      }
      salesData := extended.value;
    }
    result := Ok(salesData);
  }

  /** The body of the loop for customer `i` (lines 87-134): the list so far
      followed by the customer's orders, or the error its months raise. */
  method ExpandCustomer(customers: seq<Customer>, i: int, salesData: seq<Order>, d: Draws, p: DeclineParams)
    returns (extended: Result<seq<Order>>)
    requires 0 <= i < |customers|
    ensures extended == Then(Ok(salesData), CustomerOrders(customers, i, d, p))
  {
    var customer := customers[i];
    var firstOrderMonth := d.firstOrderMonth(i);
    var churnMonth: Option<int> := None;
    var reactivationMonth: Option<int> := None;
    extended := Ok(salesData);

    if customer.churnType == SuddenChurn {
      churnMonth := Some(d.churnMonth(i));
      assert salesData + [] == salesData;
    } else if customer.churnType == GradualChurn {
      churnMonth := Some(d.churnMonth(i));
      if customer.churnType != NoChurn && churnMonth.value < LastMonth {
        reactivationMonth := Some(d.reactivationMonth(i));
      }
      assert Timeline(firstOrderMonth, churnMonth, reactivationMonth) == CustomerTimeline(customer, i, d);
      extended := ExpandMonths(customer, i, Timeline(firstOrderMonth, churnMonth, reactivationMonth), salesData, d, p);
    } else {
      assert salesData + [] == salesData;
    }
  }

  /** The month loop of lines 103-134 for a churner with timeline `t`: the
      list so far followed by the orders of months 1 to 12, or the error the
      first failing month raises. */
  method ExpandMonths(customer: Customer, i: int, t: Timeline, salesData: seq<Order>, d: Draws, p: DeclineParams)
    returns (extended: Result<seq<Order>>)
    requires t.churnMonth.Some?
    ensures extended == Then(Ok(salesData), MonthsBefore(customer, i, t, LastMonth + 1, d, p))
  {
    var orders := salesData;
    for month := 1 to LastMonth + 1
      invariant MonthsBefore(customer, i, t, month, d, p).Ok?
      invariant orders == salesData + MonthsBefore(customer, i, t, month, d, p).value
    {
      ghost var done := MonthsBefore(customer, i, t, month, d, p).value;
      NextMonth(customer, i, t, month, d, p);
      if month < t.firstOrderMonth {
        assert done + [] == done;
        continue;
      }
      if Truthy(t.churnMonth) && month >= t.churnMonth.value
         && (!Truthy(t.reactivationMonth) || month < t.reactivationMonth.value) {
        assert done + [] == done;
        continue;
      }
      var appended := ExpandMonth(orders, customer, i, t, month, d, p);
      if appended.Err? {
        MonthsErrorIsFinal(customer, i, t, month + 1, LastMonth + 1, d, p);
        return appended;
      }
      AppendAssociative(salesData, done, MonthOrders(customer, i, t, month, d, p).value);
      orders := appended.value;
    }
    extended := Ok(orders);
  }

  /** One month that reaches the count step (lines 110-134): draw the
      baseline, scale it, and append that many orders, or raise. */
  method ExpandMonth(orders: seq<Order>, customer: Customer, i: int, t: Timeline, month: int, d: Draws, p: DeclineParams)
    returns (appended: Result<seq<Order>>)
    requires t.churnMonth.Some? && ReachesCount(t, month)
    ensures appended == Then(Ok(orders), MonthOrders(customer, i, t, month, d, p))
  {
    var numOrders := d.numOrders(i, month);
    var counted := ScaleOrderCount(numOrders, customer.churnPattern, month, t.churnMonth.value, p);
    CountedMonth(customer, i, t, month, d, p, counted);
    if counted.Err? {
      return Err(counted.error);
    }
    numOrders := counted.value;
    var extended := AppendOrders(orders, customer, i, month, numOrders, d);
    appended := Ok(extended);
  }

  /** The count step of lines 110-123 once the baseline is drawn: scale it by
      the pattern's decline factor when the row has a pattern, or fail. */
  method ScaleOrderCount(baseline: int, churnPattern: Option<Pattern>, month: int, churnMonth: int, p: DeclineParams)
    returns (counted: Result<int>)
    ensures counted == OrderCount(baseline, churnPattern, month, churnMonth, p)
  {
    var numOrders := baseline;
    if churnPattern.Some? {
      var chosen := ChooseDeclineFactor(churnPattern.value, month, churnMonth, p);
      if chosen.Err? {
        return Err(chosen.error);
      }
      match chosen.value {
        case Infinite =>
          return Err(InfiniteOrderCount);
        case Finite(f) =>
          numOrders := Trunc(numOrders as real * f);
          assert Scale(baseline, chosen.value).value == numOrders;
      }
    }
    counted := Ok(numOrders);
  }

  /** The pattern dispatch of lines 114-121: the decline factor of a known
      pattern, or the invalid-pattern error. */
  method ChooseDeclineFactor(pattern: Pattern, month: int, churnMonth: int, p: DeclineParams)
    returns (chosen: Result<Factor>)
    ensures chosen == PatternFactor(pattern, month, churnMonth, p)
  {
    match pattern {
      case Stepwise =>
        chosen := Ok(Finite(StepwiseDecline(month, churnMonth, StepSize, p.declineRatio)));
      case Logarithmic =>
        chosen := Ok(LogarithmicDecline(month, churnMonth, LogBase, p.log2));
      case Exponential =>
        chosen := Ok(Finite(ExponentialDecline(month, churnMonth, DecayRate, p.exp)));
      case Unrecognised(name) =>
        chosen := Err(InvalidChurnPattern(name));
    }
  }

  /** The append loop of lines 125-134: `numOrders` orders of the month, each
      with the customer's id and its own drawn amount, after what is already
      there. */
  method AppendOrders(salesData: seq<Order>, customer: Customer, c: int, month: int, numOrders: int, d: Draws)
    returns (extended: seq<Order>)
    ensures extended == salesData + MonthOrderList(customer, c, month, numOrders, d)
  {
    extended := salesData;
    var k := 0;
    while k < numOrders
      invariant 0 <= k && (k <= numOrders || k == 0)
      invariant extended == salesData + MonthOrderList(customer, c, month, k, d)
    {
      var totalAmount := d.totalAmount(c, month, k);
      extended := extended + [Order(customer.id, month, totalAmount)];
      k := k + 1;
    }
  }

  lemma AppendAssociative(a: seq<Order>, b: seq<Order>, c: seq<Order>)
    ensures (a + b) + c == a + (b + c)
  {
  }

  /** One more month of the loop: the orders so far, then that month's. */
  lemma NextMonth(customer: Customer, c: int, t: Timeline, month: nat, d: Draws, p: DeclineParams)
    requires t.churnMonth.Some? && 1 <= month
    ensures MonthsBefore(customer, c, t, month + 1, d, p)
         == Then(MonthsBefore(customer, c, t, month, d, p), MonthOrders(customer, c, t, month, d, p))
  {
  }

  /** A month that reaches the count step appends the orders of its count,
      or raises the count step's error. */
  lemma CountedMonth(customer: Customer, c: int, t: Timeline, month: int, d: Draws, p: DeclineParams, counted: Result<int>)
    requires t.churnMonth.Some? && ReachesCount(t, month)
    requires counted == OrderCount(d.numOrders(c, month), customer.churnPattern, month, t.churnMonth.value, p)
    ensures counted.Err? ==> MonthOrders(customer, c, t, month, d, p) == Err(counted.error)
    ensures counted.Ok? ==> MonthOrders(customer, c, t, month, d, p) == Ok(MonthOrderList(customer, c, month, counted.value, d))
  {
  }

  /** Once a month has raised, the later months of the customer change
      nothing: the error stands. */
  lemma {:induction false} MonthsErrorIsFinal(customer: Customer, c: int, t: Timeline, from: nat, upto: nat, d: Draws, p: DeclineParams)
    requires t.churnMonth.Some?
    requires from <= upto
    requires MonthsBefore(customer, c, t, from, d, p).Err?
    ensures MonthsBefore(customer, c, t, upto, d, p) == MonthsBefore(customer, c, t, from, d, p)
    decreases upto - from
  {
    if from < upto {
      MonthsErrorIsFinal(customer, c, t, from, upto - 1, d, p);
    }
  }

  /** Once a customer has raised, the later customers change nothing: the
      error stands. */
  lemma {:induction false} SalesErrorIsFinal(customers: seq<Customer>, from: nat, upto: nat, d: Draws, p: DeclineParams)
    requires from <= upto <= |customers|
    requires SalesData(customers, from, d, p).Err?
    ensures SalesData(customers, upto, d, p) == SalesData(customers, from, d, p)
    decreases upto - from
  {
    if from < upto {
      SalesErrorIsFinal(customers, from, upto - 1, d, p);
    }
  }
}
