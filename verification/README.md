# Carbon budget bookkeeping, modelled in Dafny

This project models the bookkeeping engine of a personal carbon-budget
tracker. A user sets a weekly or monthly allowance of kg CO2e and then logs
activities: car, bus and train kilometres, flight hours, electricity, gas,
meals and waste. Each activity's emission is its category's fixed factor
times the quantity. An activity is committed only if the remaining
allowance can afford it. A committed activity debits the budget and appends
one immutable record to the user's history.

Modules, one per source file, plus a shared `Results` module and a `Scenarios` module of worked sessions:

- `Results` (`results.dfy`): the stand-ins for Java's `null` and its exceptions. `Option` replaces a nullable reference. `Result` and `Outcome` carry an `Error` that is either `InvalidArgument` or `IllegalState`, each with the source's exception message.
- `Categories` (`category.dfy`): the eleven-category catalog with its factors and units.
- `Periods` (`period.dfy`): `Week` (7 days) and `Month` (30 days).
- `EmissionCalculator` (`emission_calculator.dfy`): the validated `factor * quantity`.
- `EmissionTransactions` (`emission_transaction.dfy`): the immutable record. It has validating construction, percentage, threshold and timestamp-blind equality.
- `Budgets` (`budget.dfy`): the `Budget` class. The allowance and period are `const` fields, like the source's `final` fields. The balance is a mutable field. A ghost sequence `Deductions` records every debit since construction or the last reset. The class invariant is the ledger equation: remaining = initial − Σ deductions.
- `Users` (`user.dfy`): the `User` class. It holds a `Budget?` and the history as a `seq`. Its invariant says three things. Every record was made by the logging protocol. The current budget's deductions are exactly the emissions logged since that budget was set. The balance never goes below zero through this protocol.
- `Scenarios` (`scenarios.dfy`): concrete sessions whose outcomes follow from the contracts alone. They cover an affordable car trip, a long flight, a rejected trip, and invalid or premature logs.

Java `double` is modelled as Dafny `real`, an exact rational. The factors are the exact decimals 0.21, 0.12 and so on. This abstracts away IEEE-754 rounding. For example, 0.21 × 100 is exactly 21 here.

The timestamp of a record is a string the caller passes in. The source reads it from the clock.

## Model

| member | source | states |
|---|---|---|
| Categories.Values | OOP/src/Category.java:1-12 | There are exactly eleven categories, each listed once, and every category is among them (the set is closed). |
| Categories.Index | OOP/src/Category.java:2-12 | Each category has a declaration position below 11, and `Values` lists each category at its own position. |
| Categories.EmissionFactor | OOP/src/Category.java:2-12 | Every category's factor is strictly positive. The body holds the constructor values 0.21 … 1.2 and is a fixed function of the category. |
| Categories.Unit | OOP/src/Category.java:2-12 | "km" exactly for car, bus and train. "hour" exactly for the two flights. "kWh" exactly for electricity. "kg" exactly for gas and waste. "meal" exactly for the three meal kinds. |
| Periods.DisplayName | OOP/src/Period.java:2-3 | Each period's display name ("Week", "Month") is non-empty. |
| Periods.Days | OOP/src/Period.java:2-3 | Every period has a positive day count (7 for a week, 30 for a month). |
| EmissionCalculator.CalculateEmission | OOP/src/EmissionCalculator.java:2-11 | Fails with invalid-argument exactly when the category is absent or the quantity is ≤ 0, in that order and with the source's messages. Otherwise the result is `factor * quantity` and is strictly positive. |
| EmissionCalculator.EmissionStrictlyIncreasing | OOP/src/EmissionCalculator.java:10 | For a fixed category, a larger quantity gives a strictly larger emission. |
| EmissionCalculator.EmissionAdditive | OOP/src/EmissionCalculator.java:10 | The emission of q1 + q2 equals the emission of q1 plus the emission of q2. |
| EmissionTransactions.NewTransaction | OOP/src/EmissionTransaction.java:12-29 | Construction succeeds exactly when the category is present and quantity and emission are non-negative. Failures are checked in the source's order (category, quantity, emission). A built record stores exactly the given values and is well-formed. |
| EmissionTransactions.EqualRecordsShareUnit | OOP/src/EmissionTransaction.java:45-47 | `TransactionUnit` delegates to the category's unit, so records that are equal are measured in the same unit. |
| EmissionTransactions.Percentage | OOP/src/EmissionTransaction.java:50-55 | 0 when the total is 0. Otherwise percentage × total = emission × 100, so the result is the emission's share of the total in percent. |
| EmissionTransactions.PercentageBounded | OOP/src/EmissionTransaction.java:50-55 | For a well-formed record whose emission is at most the total, the percentage lies in [0, 100]. |
| EmissionTransactions.ExceedsThreshold | OOP/src/EmissionTransaction.java:58-60 | Whether the emission is above the threshold. A well-formed record exceeds every negative threshold. |
| EmissionTransactions.ExceedsLowerThreshold | OOP/src/EmissionTransaction.java:58-60 | A record that exceeds a threshold exceeds every lower threshold. |
| EmissionTransactions.ExceedsThresholdIffPercentageAbove | OOP/src/EmissionTransaction.java:50-60 | For a positive total, a record exceeds the threshold total·x/100 exactly when its percentage of the total is above x. |
| EmissionTransactions.Equals | OOP/src/EmissionTransaction.java:84-93 | No record equals null. Two records are equal exactly when they differ at most in their timestamp. |
| EmissionTransactions.EqualsIsEquivalence | OOP/src/EmissionTransaction.java:84-93 | Record equality is reflexive, symmetric and transitive. |
| EmissionTransactions.Emissions | OOP/src/User.java:63-67 | The emissions of a history, position by position. The user's ledger invariant is stated with it. |
| EmissionTransactions.EmissionsAppend | OOP/src/User.java:66-67 | Appending a record appends its emission to the history's emissions. |
| Budgets.SumNonNegative | OOP/src/Budget.java:15-19 | A run of valid (non-negative) deductions has a non-negative total. |
| Budgets.SumAppend | OOP/src/Budget.java:19 | The total of two consecutive runs of deductions is the sum of their totals. |
| Budgets.Budget.constructor | OOP/src/Budget.java:6-13 | For a positive allowance: stores allowance and period, sets remaining = allowance, and records no deductions. |
| Budgets.Budget.Create | OOP/src/Budget.java:6-13 | Throws invalid-argument exactly when the allowance is ≤ 0. Otherwise returns a fresh, valid budget with remaining = allowance. |
| Budgets.Budget.DeductEmission | OOP/src/Budget.java:15-24 | A negative emission throws and changes nothing. Otherwise remaining decreases by exactly the emission, with no clamping. The deduction is recorded, the ledger equation is kept, and the result is `remaining >= 0`. Remaining never increases. |
| Budgets.Budget.TotalBudgetUsed | OOP/src/Budget.java:34-36 | Used = the sum of the deductions since construction or reset, and is never negative. |
| Budgets.Budget.PercentageBudgetUsed | OOP/src/Budget.java:41-43 | percentage × initial = used × 100. It is non-negative, and it is ≤ 100 exactly when the balance is non-negative. |
| Budgets.Budget.ResetBudget | OOP/src/Budget.java:44-46 | Remaining = initial and the run of deductions is empty. The post-state does not depend on the pre-state, so reset is idempotent. The allowance and period are `const` and never change. |
| Budgets.Budget.IsOverBudget | OOP/src/Budget.java:48-50 | Over budget exactly when remaining < 0, that is, exactly when the deductions exceed the allowance. |
| Budgets.Budget.CanAfford | OOP/src/Budget.java:51-53 | Affordable exactly when the deductions so far plus the emission fit within the allowance, that is, when deducting would leave remaining ≥ 0. A function, so it cannot change anything. |
| Budgets.FreshBudgetUnused | OOP/src/Budget.java:10-11 | A budget with no deductions has remaining = initial, used 0 and percentage 0, and is not over budget. |
| Users.User.constructor | OOP/src/User.java:12-18 | For a non-blank name: an account with that name, no budget and an empty history. |
| Users.User.Create | OOP/src/User.java:12-18 | Throws invalid-argument exactly when the name is null or blank (Java `isBlank`). Otherwise returns a fresh, valid account with no budget and no history. |
| Users.User.SetBudget | OOP/src/User.java:20-28 | Rejects amount ≤ 0, then a null period, changing nothing. Otherwise replaces any budget with a fresh one whose remaining = amount, and keeps the history. |
| Users.User.LogActivity | OOP/src/User.java:41-73 | No budget: illegal-state error. Quantity ≤ 0: invalid-argument. Null category: invalid-argument. An unaffordable emission is rejected with the emission and the balance. In all four cases nothing changes. Otherwise remaining drops by exactly factor·quantity and exactly one record is appended after the unchanged prior history. That record holds the category, the quantity and the computed emission. The account is never over budget afterwards. |
| Users.User.DisplaySummary | OOP/src/User.java:78-100 | With no budget, reports "You must set a budget first." instead of failing. Otherwise reports the budget's figures with used = initial − remaining = the sum of emissions logged since the budget was set, a percentage within [0, 100], never over budget, and the history. |
| Users.User.GetTransactions | OOP/src/User.java:140-142 | A value copy equal to the history. Every record in it has a positive quantity and the emission the calculator gives for it. |

## Left out

- Writing the history file (`saveHistoryToFile`, and its calls after a commit and after the summary) is not modelled. It is file I/O whose errors are swallowed, and it does not affect in-memory state.
- Console output is not modelled: the over-budget notice in `deductEmission`, the narration of a log, and the summary's printing. The rejection notice becomes the `Rejected(emission, remaining)` result. The summary becomes the `Summary` value it would print.
- The text forms are not modelled: `toString`/`toDetailedString` of a record and `Category.toString`. They depend on Java's `%.2f` and double-to-string formatting.
- The clock read behind a record's timestamp is not modelled. The timestamp is a parameter.
- IEEE-754 `double` behaviour is not modelled: rounding, NaN, infinities and signed zero. For example, a NaN quantity passes the `<= 0` guard in the source and is then rejected by `canAfford`. A NaN allowance is accepted by the `Budget` constructor. Neither can happen with `real`.
- EmissionTransactions.NewTransaction: the messages for a negative quantity or emission are modelled as their fixed prefixes. The source appends the offending number, rendered by Java.
- Budgets.Budget.Create: the source's `Budget` constructor also accepts a null period. Its only caller, `User.setBudget`, rejects null first, so the model's budget always holds a period.
- The simple getters (`getCategory`, `getQuantity`, `getEmission`, `getTimestamp`, `getInitialBudget`, `getRemainingBudget`, `getPeriod`, `getName`) are not separate members. They are field reads of the datatype or class.
- EmissionTransactions.Equals: its argument is an optional record, so it cannot express the branch where Java's `equals` is handed an object of another class and returns false.
- Users.User.LogActivity, Users.User.DisplaySummary and the invariant Users.User.Valid assume the budget changes only through `SetBudget` and `LogActivity`. In the source, `getBudget()` hands out the live `Budget`. A caller could then call `resetBudget` or `deductEmission` on it directly. That path is outside this model. After such a call, `logActivity` works normally in Java, but the model's `Valid()` no longer holds. The claims "never over budget" and "the budget's deductions are the emissions logged since it was set" depend on that path not being used. The frontends only read the budget through `getBudget()`.
- `hashCode` is not modelled. The source overrides `equals` without it, and hashing is outside this model.
- The frontends are not part of this model: the Swing window and the console menu.
