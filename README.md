# Churn simulation: customer lifecycles and order expansion

This project models the core of the synthetic data generator of an
e-commerce churn-prediction repository, and proves properties of that model.

- **Decline models** (`utils/functions.py`, module `Decline`). Three
  functions map a month and a churn month to an activity multiplier:
  exponential, logarithmic and stepwise. Each returns 1 before the churn
  month. From the churn month on it computes an elapsed time, or a number
  of complete blocks of `step_size` months, and applies a decaying
  multiplier to it.
- **Customer lifecycle** (`utils/generate_data.py` lines 88-108, module
  `Lifecycle`). This covers the three timeline draws and the two
  `continue` tests that decide which of months 1-12 go on to draw an order
  count:
  - the first order month;
  - the churn month, whose range depends on the churn type;
  - the reactivation month, drawn only under some conditions.
- **Order expansion** (`utils/generate_data.py` lines 86-134, module
  `OrderExpansion`). This is the customer loop itself:
  - draw a baseline count;
  - scale it by the pattern's decline factor, when the row has a
    `churn_pattern` entry;
  - truncate it toward zero, as Python's `int()` does;
  - append that many orders to the sales list.

  `GenerateSalesData` is the loop as a method: a `for` over the customers
  (`ExpandCustomer`), a nested `for` over the months with the two
  `continue` tests (`ExpandMonths`), the count step of one month
  (`ExpandMonth`), and a `while` that appends orders (`AppendOrders`).
  Each method is proved to compute its part of the specification
  functions (`SalesData`, `CustomerOrders`, `MonthsBefore`,
  `MonthOrders`). Module `ExpansionProperties` proves what the loop promises
  about `SalesData`.

How the inputs are modelled:

- **Random draws.** Every `random.randint` and `fake.random_int` result
  is an input: the datatype `Draws` holds one function per draw, indexed
  by the customer's position, the month and the order's position in the
  month. `ValidDraws` states the inclusive ranges.
- **Floating-point functions.** `np.exp` and `np.log2` are parameters of
  type `real -> real`. The predicates `ExpShape` and `Log2Shape` state
  the textbook facts about them, and only lemmas that need those facts
  assume them.
- **Division by zero.** Dividing by a zero logarithm gives an infinite
  float; the model represents it as `Factor.Infinite`. Truncating an
  infinite count raises `OverflowError` in Python, which the model
  represents as `Err(InfiniteOrderCount)`.
- **Python truthiness.** The tests `churn_month and …` and
  `not reactivation_month` are written out with `Truthy`. Under that
  reading `None` and `0` are false.

Behaviour of the code as written that a reader may not expect (the model
follows the code in each case):

- **Only gradual churners produce orders.** The month loop is indented
  inside the gradual-churn branch (`utils/generate_data.py:96-134`).
  Non-churners and sudden churners therefore add no orders at all.
- **Scaling never reaches the declining months.** Months in the churn
  window `[churn_month, reactivation_month)` are skipped, and so is every
  month from the churn month on when there is no reactivation. The decline
  multiplier is therefore only ever applied before the churn month, where
  it is 1, or from the reactivation month on. Reactivated months are
  scaled, not returned to full volume.
- **Stepwise blocks start at the churn month.** `(month - churn_month) //
  step_size` is 0 for the first `step_size` months from the churn month.
  With churn month 3, blocks of 3 and ratio 1/2, months 3-5 keep the full
  multiplier, months 6-8 get 1/2, months 9-11 get 1/4 and month 12 gets
  1/8 (`Decline.StepwiseHalvingEveryThreeMonths`).
- **A gradual churner who churns before month 12 always gets a
  reactivation month.** The test at line 100 repeats the churn-type check,
  which is already true inside the gradual-churn branch.

## Model

| member | source | states |
|---|---|---|
| Decline.TimeSinceChurn | utils/functions.py:26 | from the churn month on, the elapsed time is at least 1, and exactly 1 in the churn month itself |
| Decline.StepsSinceChurn | utils/functions.py:62 | the block count is the floor quotient: `steps * step_size <= month - churn_month < (steps + 1) * step_size` |
| Decline.NoDeclineBeforeChurn | utils/functions.py:23-24 | all three models return exactly 1 before the churn month |
| Decline.ExponentialOneExactlyBeforeChurn | utils/functions.py:23-27 | with a positive decay rate the exponential model is 1 if and only if the month is before the churn month, and always lies in (0, 1] |
| Decline.ExponentialStrictlyDecreasing | utils/functions.py:26-27 | from the churn month on the exponential multiplier falls strictly every month |
| Decline.LogarithmicWellDefined | utils/functions.py:41-45 | with base at least 2 the logarithm's argument is at least 2, so the model never divides by zero; it lies in (0, 1] and is exactly 1 in the churn month for base 2 |
| Decline.LogarithmicStrictlyDecreasing | utils/functions.py:44-45 | from the churn month on the logarithmic multiplier falls strictly every month |
| Decline.PowWithinUnit | utils/functions.py:63 | a power of a ratio in [0, 1] stays in [0, 1] |
| Decline.PowAntitone | utils/functions.py:63 | a larger exponent gives a smaller power of a ratio in [0, 1] |
| Decline.StepsOnBlock | utils/functions.py:62 | every month of the k-th block of `step_size` months after the churn month has block count k |
| Decline.StepsMonotone | utils/functions.py:62 | the block count never falls as the month advances |
| Decline.StepwiseOneInChurnMonth | utils/functions.py:62-63 | in the churn month the block count is 0 and the stepwise multiplier is ratio to the power 0, which is 1 |
| Decline.StepsAdvance | utils/functions.py:62 | one month later the block count rises by exactly 1 when the new month starts a block, and is unchanged otherwise |
| Decline.StepwiseNonIncreasing | utils/functions.py:59-63 | for a ratio in [0, 1] the stepwise multiplier lies in [0, 1] and never rises as the month advances |
| Decline.StepwiseHalvingEveryThreeMonths | utils/functions.py:59-63 | churn in month 3, blocks of 3, ratio 1/2: 1 for months 3-5, 1/2 for 6-8, 1/4 for 9-11, 1/8 for month 12 |
| Lifecycle.ScheduleValid | utils/generate_data.py:88-101 | in-range draws give a first order month in [1, 12]; for a churner, a churn month at least the first order month and at least 2 (sudden) or 3 (gradual); a reactivation month exactly for gradual churners churning before 12, in (churn, 12] |
| Lifecycle.ReachesCountExactly | utils/generate_data.py:103-108 | on a valid timeline a month reaches the count step if and only if it is at or after the first order month and before the churn month or at or after the reactivation month; without a reactivation, no month from the churn month on does |
| Lifecycle.GradualChurnInLastMonth | utils/generate_data.py:98-108 | a gradual churner churning in month 12 has no reactivation; month 12 is skipped and every month from the first order month to 11 reaches the count step |
| OrderExpansion.TruncTowardZero | utils/generate_data.py:123 | `int()` of a float keeps its sign and lies within 1 of it, on the side of 0 |
| OrderExpansion.ChooseDeclineFactor | utils/generate_data.py:113-121 | the pattern dispatch returns `PatternFactor`: the stepwise (step 3), logarithmic (base 2) or exponential (rate 0.2) factor, or the invalid-pattern error for any other value |
| OrderExpansion.ScaleOrderCount | utils/generate_data.py:110-123 | the count step is the specification `OrderCount`: the drawn count when the row has no pattern, else the truncated product with the pattern's factor, or the invalid-pattern or overflow error |
| OrderExpansion.AppendOrders | utils/generate_data.py:125-134 | the append loop extends the list by exactly `MonthOrderList`, after the orders already there |
| OrderExpansion.GenerateSalesData | utils/generate_data.py:85-134 | the customer loop returns the specification `SalesData` over all customers: the concatenated orders, or the first error raised |
| OrderExpansion.ExpandCustomer | utils/generate_data.py:87-134 | one customer's pass returns the list so far followed by `CustomerOrders` (none unless a gradual churner), or the error its months raise |
| OrderExpansion.ExpandMonths | utils/generate_data.py:103-134 | the month loop returns the list so far followed by the orders of months 1 to 12, skipped months adding none, or the first error raised |
| OrderExpansion.ExpandMonth | utils/generate_data.py:110-134 | a month that reaches the count step appends exactly the orders of `MonthOrders`, or raises its error |
| OrderExpansion.MonthsErrorIsFinal | utils/generate_data.py:103-123 | once a month has raised, the later months leave the error as it is |
| OrderExpansion.SalesErrorIsFinal | utils/generate_data.py:86-123 | once a customer has raised, the later customers leave the error as it is |
| ExpansionProperties.TruncScaledWithin | utils/generate_data.py:123 | truncating a count scaled by a factor in [0, 1] gives a count in [0, count] |
| ExpansionProperties.OrderCountBeforeChurn | utils/generate_data.py:110-123 | before the churn month every known pattern leaves the drawn count unchanged |
| ExpansionProperties.PatternFactorWithinUnit | utils/generate_data.py:113-121 | with the real exponential and logarithm and a ratio in [0, 1] every known pattern's factor is finite and lies in [0, 1] |
| ExpansionProperties.ScaleWithin | utils/generate_data.py:123 | scaling a non-negative count by a finite factor in [0, 1] succeeds and gives a count in [0, count] |
| ExpansionProperties.OrderCountWithinBaseline | utils/generate_data.py:110-123 | with the real exponential and logarithm and a ratio in [0, 1] every known pattern yields a count in [0, drawn count] and never fails |
| ExpansionProperties.OrderCountFails | utils/generate_data.py:113-123 | with the real binary logarithm the count step fails if and only if the pattern is unrecognised, and then with that pattern's error; there is no default multiplier |
| ExpansionProperties.MonthOrderListShape | utils/generate_data.py:125-134 | a month appends exactly max(n, 0) orders, the k-th with the customer's id, the month and the k-th drawn amount |
| ExpansionProperties.MonthOrdersCount | utils/generate_data.py:103-134 | a skipped month appends nothing; a counted month appends at most the drawn count (at most 10), and exactly the drawn count (at least 1) before the churn month or without a pattern |
| ExpansionProperties.UnscaledMonthsBefore | utils/generate_data.py:103-134 | without a `churn_pattern` entry a customer's months never fail and produce exactly the drawn counts of the months that reach the count step |
| ExpansionProperties.MonthsBeforeShape | utils/generate_data.py:103-134 | a customer's orders carry its id, fall in months of [1, 12] that reach the count step, have amounts in [10, 2000] and come in month order |
| ExpansionProperties.CustomerOrdersShape | utils/generate_data.py:93-134 | a customer that is not a gradual churner adds no orders; a gradual churner's orders have the shape above |
| ExpansionProperties.MonthsBeforeFails | utils/generate_data.py:103-123 | with the real binary logarithm a customer's months raise if and only if its pattern is unrecognised and some month reaches the count step; the error names the pattern |
| ExpansionProperties.SalesDataFails | utils/generate_data.py:86-123 | with the real binary logarithm the loop raises if and only if some gradual churner has an unrecognised pattern and a month reaching the count step; the error is always the invalid-pattern one |
| ExpansionProperties.SalesDataPrefix | utils/generate_data.py:129 | earlier entries of the sales list are never modified: the list after m customers is a prefix of the list after n >= m |
| ExpansionProperties.SalesDataPlaced | utils/generate_data.py:86-134 | every order in the sales list belongs to a gradual churner, carries its id, lies in a month from its first order month to 12 that is before its churn month or from its reactivation month on, and has an amount in [10, 2000] |

## Definitions

The functions that define the model carry no contract of their own; the
"## Model" rows name the lemmas and methods that state their properties.
Each function models these lines:

| function | source | models |
|---|---|---|
| Decline.ExponentialDecline | utils/functions.py:12-27 | `exponential_decline`: 1 before the churn month, else `exp(-decay_rate * time_since_churn)` |
| Decline.LogarithmicDecline | utils/functions.py:30-45 | `logarithmic_decline`: 1 before the churn month, else `1 / log2(base * time_since_churn)`, infinite when the logarithm is 0 |
| Decline.Pow | utils/functions.py:63 | `ratio ** steps` for a non-negative integer exponent |
| Decline.StepwiseDecline | utils/functions.py:48-63 | `stepwise_decline`: 1 before the churn month, else the ratio to the power of the block count |
| Lifecycle.Schedule | utils/generate_data.py:88-101 | the timeline built from the draws: no churn month for a non-churner, a reactivation month only for a gradual churner churning before 12 |
| Lifecycle.Truthy | utils/generate_data.py:107 | Python truthiness of an optional month |
| Lifecycle.InChurnWindow | utils/generate_data.py:107-108 | the second `continue` test |
| Lifecycle.ReachesCount | utils/generate_data.py:104-108 | a month that passes both `continue` tests |
| OrderExpansion.CustomerTimeline | utils/generate_data.py:88-101 | the timeline of one customer from its own draws |
| OrderExpansion.Trunc | utils/generate_data.py:123 | `int()` of a float: truncation toward zero |
| OrderExpansion.PatternFactor | utils/generate_data.py:113-121 | the decline factor of the row's pattern, or `ValueError("Invalid churn pattern")` |
| OrderExpansion.Scale | utils/generate_data.py:123 | `int(num_orders * decline_factor)`, or `OverflowError` for an infinite factor |
| OrderExpansion.OrderCount | utils/generate_data.py:110-123 | the count of a month that reaches the count step: the drawn count, scaled only when the row has a pattern |
| OrderExpansion.MonthOrderList | utils/generate_data.py:125-134 | the orders appended for one month, in draw order |
| OrderExpansion.MonthOrders | utils/generate_data.py:104-134 | one month's orders, none for a skipped month, or the error it raises |
| OrderExpansion.Then | utils/generate_data.py:86-134 | two steps in sequence, the first error aborting the rest |
| OrderExpansion.MonthsBefore | utils/generate_data.py:103-134 | the orders of months 1 to `upto - 1`, in month order |
| OrderExpansion.CustomerOrders | utils/generate_data.py:93-134 | one customer's orders, none unless a gradual churner |
| OrderExpansion.SalesData | utils/generate_data.py:86-134 | the sales list after the first `n` customers, or the first error |

Proof helpers that state no property of the program and so have no row:
`Decline.ScaleGap`, `Decline.DivUnique`, `Decline.ReciprocalAntitone` and
`ExpansionProperties.ProductWithin` (arithmetic facts), `OrderExpansion.AppendAssociative` (associativity of
concatenation), and `OrderExpansion.NextMonth` and
`OrderExpansion.CountedMonth` (one-step unfoldings of `MonthsBefore` and
`MonthOrders`).

## Left out

- Customer records from Faker and the `uuid4` order ids (`utils/generate_data.py:30-54`, 130): these are foreign library calls. Customer ids are opaque strings, and orders carry no order id.
- Order dates: `fake.date_between` and `pd.DateOffset` are calendar arithmetic. Each order carries its month index instead.
- Random sampling (`np.random.choice`, `random.randint`, `fake.random_int`): the draws are inputs, with their ranges as preconditions of the lemmas that need them.
- Churn-type and pattern assignment (`utils/generate_data.py:67-79`) enters only as the typed fields `Customer.churnType` and `Customer.churnPattern`. The 20 % churn rate and the 30 % sudden-churn ratio are sampling probabilities and are not modelled.
- pandas: `DataFrame`, `update`, `iterrows`, `drop` and the CSV export are library semantics and I/O. The membership test `'churn_pattern' in customer` becomes the option of `Customer.churnPattern`. With pandas' `update`, which adds no new columns, that value is always `None` at run time. The model keeps both cases.
- Floating-point arithmetic: the model computes with exact reals throughout, not IEEE doubles. This covers `np.exp` and `np.log2` (uninterpreted reals, optionally constrained by `ExpShape` and `Log2Shape`; NaN and negative infinity are not modelled), the division at `utils/functions.py:45`, the power at `utils/functions.py:63`, the constant 0.2, and the product `num_orders * decline_factor` at `utils/generate_data.py:123`.
- Trunc: it truncates the exact real product. When the float product is rounded to just below an integer, `int()` in Python gives one less than `Trunc` does; the model does not capture that rounding.
- `utils/functions.py` uses `np` without importing numpy. The model treats `exp` and `log2` as given functions and does not model the resulting `NameError`.
- StepwiseDecline: the ratio `decline_factor` is not defined in `utils/functions.py`, so as written the call would raise `NameError`. The model takes the ratio as the parameter `DeclineParams.declineRatio` instead of modelling that error.
- StepwiseDecline: it requires a step size of at least 1. The source calls it only with step size 3; a step size of 0 would raise `ZeroDivisionError` and is not modelled.
- The unused `reactivation_rate` constant (`utils/generate_data.py:64`).
