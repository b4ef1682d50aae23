/** The per-user account: a name, an optional budget and the append-only
    history of logged activities. Logging runs the protocol: a budget must
    exist, the quantity must be positive, the emission is computed, and the
    activity is committed only if the budget can afford it. */
module Users {
  import opened Results
  import opened Categories
  import opened Periods
  import opened EmissionCalculator
  import opened EmissionTransactions
  import opened Budgets

  const EmptyNameMessage := "Name cannot be empty."
  const NonPositiveAmountMessage := "Budget amount must be greater than zero."
  const NullPeriodMessage := "Period cannot be null."
  const NoBudgetMessage := "Set a budget before logging activities."
  const NonPositiveLogQuantityMessage := "Quantity must be a positive number."
  const SetBudgetFirstMessage := "You must set a budget first."

  /** Java's `Character.isWhitespace`. */
  predicate IsWhitespace(c: char) {
    c == ' ' || c == '\t' || c == '\n' || c == '\U{000B}' || c == '\U{000C}' || c == '\r'
    || ('\U{001C}' <= c <= '\U{001F}')
    || c == '\U{1680}' || ('\U{2000}' <= c <= '\U{2006}') || ('\U{2008}' <= c <= '\U{200A}')
    || c == '\U{2028}' || c == '\U{2029}' || c == '\U{205F}' || c == '\U{3000}'
  }

  /** Java's `String.isBlank`: empty, or white space only. */
  predicate IsBlank(s: string) {
    forall i :: 0 <= i < |s| ==> IsWhitespace(s[i])
  }

  /** How a log attempt ended: committed with its new record, rejected because
      the budget cannot afford the emission (a normal result, reporting the
      emission and the balance), or failed with the exception it throws. */
  datatype LogResult =
    | Committed(tx: EmissionTransaction)
    | Rejected(emission: real, remaining: real)
    | Failed(error: Error)

  /** What the summary reports: the no-budget notice, or the budget's figures
      and the history. */
  datatype Summary =
    | NoBudget(message: string)
    | Report(name: string, period: Period, initial: real, used: real, remaining: real,
             percentageUsed: real, overBudget: bool, transactions: seq<EmissionTransaction>)

  /** A record the logging protocol made: a positive quantity and the emission
      the calculator gives for it. */
  predicate Logged(t: EmissionTransaction) {
    t.quantity > 0.0 && CalculateEmission(Some(t.category), t.quantity) == Ok(t.emission)
  }

  class User {
    const name: string
    var budget: Budget?
    var transactions: seq<EmissionTransaction>
    ghost var Repr: set<object>
    /** Where in the history the current budget's deductions begin. */
    ghost var BudgetStart: nat

    /** Every record was made by the protocol; the budget's deductions are
        exactly the emissions logged since it was set, and the budget is never
        over: the affordability gate comes before every deduction. */
    ghost predicate Valid()
      reads this, Repr
    {
      this in Repr && !IsBlank(name)
      && (forall i :: 0 <= i < |transactions| ==> Logged(transactions[i]))
      && (budget != null ==>
            budget in Repr && budget.Valid()
            && BudgetStart <= |transactions|
            && budget.Deductions == Emissions(transactions[BudgetStart..])
            && budget.remainingBudget >= 0.0)
    }

    /** An account for a non-blank name, with no budget and no history. */
    constructor (name: string)
      requires !IsBlank(name)
      ensures Valid() && fresh(Repr)
      ensures this.name == name && budget == null && transactions == []
    {
      this.name := name;
      budget := null;
      transactions := [];
      Repr := {this};
      BudgetStart := 0;
    }

    /** `new User(name)`, which throws on a null or blank name. */
    static method Create(name: Option<string>) returns (r: Result<User>)
      ensures r.Ok? <==> name.Some? && !IsBlank(name.value)
      ensures r.Err? ==> r.error == InvalidArgument(EmptyNameMessage)
      ensures r.Ok? ==> fresh(r.value) && fresh(r.value.Repr) && r.value.Valid()
      ensures r.Ok? ==> r.value.name == name.value && r.value.budget == null && r.value.transactions == []
    {
      if name.None? || IsBlank(name.value) {
        return Err(InvalidArgument(EmptyNameMessage));
      }
      var u := new User(name.value);
      return Ok(u);
    }

    /** Replaces any budget by a fresh one of `amount` for `period`, rejecting
        an amount that is not positive, then a missing period; a rejected call
        changes nothing, and the history is kept either way. */
    method SetBudget(amount: real, period: Option<Period>) returns (r: Outcome)
      requires Valid()
      modifies this
      ensures Valid() && fresh(Repr - old(Repr))
      ensures r == (if amount <= 0.0 then Fail(InvalidArgument(NonPositiveAmountMessage))
                    else if period.None? then Fail(InvalidArgument(NullPeriodMessage))
                    else Pass)
      ensures r.Fail? ==> unchanged(this)
      ensures r.Pass? ==> fresh(budget) && transactions == old(transactions)
      ensures r.Pass? ==> budget.initialBudget == amount && budget.period == period.value
      ensures r.Pass? ==> budget.remainingBudget == amount && budget.Deductions == []
    {
      if amount <= 0.0 {
        return Fail(InvalidArgument(NonPositiveAmountMessage));
      }
      if period.None? {
        return Fail(InvalidArgument(NullPeriodMessage));
      }
      budget := new Budget(amount, period.value);
      Repr := {this, budget};
      BudgetStart := |transactions|;
      r := Pass;
    }

    /** Logs `quantity` of `category` at `time`. Without a budget it throws an
        illegal-state error; a quantity that is not positive, and then a
        missing category, throw an invalid-argument error. An emission the
        budget cannot afford is rejected. In all these cases nothing changes.
        Otherwise the emission is deducted and exactly one record, carrying
        the computed emission, is appended to the history. */
    method LogActivity(category: Option<Category>, quantity: real, time: string) returns (r: LogResult)
      requires Valid()
      modifies Repr
      ensures Valid() && Repr == old(Repr) && budget == old(budget)
      ensures old(budget) == null ==> r == Failed(IllegalState(NoBudgetMessage))
      ensures old(budget) != null && quantity <= 0.0 ==>
                r == Failed(InvalidArgument(NonPositiveLogQuantityMessage))
      ensures old(budget) != null && quantity > 0.0 && category.None? ==>
                r == Failed(InvalidArgument(NullCategoryMessage))
      ensures old(budget) != null && quantity > 0.0 && category.Some? ==>
                var emission := EmissionFactor(category.value) * quantity;
                r == if emission <= old(budget.remainingBudget)
                     then Committed(EmissionTransaction(category.value, quantity, emission, time))
                     else Rejected(emission, old(budget.remainingBudget))
      ensures !r.Committed? ==> unchanged(this) && (budget != null ==> unchanged(budget))
      ensures r.Committed? ==> transactions == old(transactions) + [r.tx]
      ensures r.Committed? ==> r.tx.emission == CalculateEmission(category, quantity).value
      ensures r.Committed? ==> budget.remainingBudget == old(budget.remainingBudget) - r.tx.emission
      ensures r.Committed? ==> budget.Deductions == old(budget.Deductions) + [r.tx.emission]
      ensures budget != null ==> !budget.IsOverBudget()
    {
      if budget == null {
        return Failed(IllegalState(NoBudgetMessage));
      }
      if quantity <= 0.0 {
        return Failed(InvalidArgument(NonPositiveLogQuantityMessage));
      }
      var calculated := CalculateEmission(category, quantity);
      if calculated.Err? {
        return Failed(calculated.error);
      }
      var emission := calculated.value;
      if !budget.CanAfford(emission) {
        return Rejected(emission, budget.remainingBudget);
      }
      var _ := budget.DeductEmission(emission);
      var tx := NewTransaction(category, quantity, emission, time).value;
      assert (transactions + [tx])[BudgetStart..] == transactions[BudgetStart..] + [tx];
      EmissionsAppend(transactions[BudgetStart..], tx);
      transactions := transactions + [tx];
      r := Committed(tx);
    }

    /** The summary: the no-budget notice when there is no budget; otherwise the
        budget's figures, where what is used is the total emission logged since
        the budget was set, and the history. Through this protocol the report
        never shows the account over budget. */
    function DisplaySummary(): (s: Summary)
      reads this, Repr
      requires Valid()
      ensures s.NoBudget? <==> budget == null
      ensures s.NoBudget? ==> s.message == SetBudgetFirstMessage
      ensures s.Report? ==> s.name == name && s.period == budget.period && s.initial == budget.initialBudget
      ensures s.Report? ==> s.used == s.initial - s.remaining
      ensures s.Report? ==> s.used == Sum(Emissions(transactions[BudgetStart..]))
      ensures s.Report? ==> 0.0 <= s.percentageUsed <= 100.0 && !s.overBudget
      ensures s.Report? ==> s.transactions == transactions
    {
      if budget == null then NoBudget(SetBudgetFirstMessage)
      else Report(name, budget.period, budget.initialBudget, budget.TotalBudgetUsed(),
                  budget.remainingBudget, budget.PercentageBudgetUsed(), budget.IsOverBudget(),
                  transactions)
    }

    /** A copy of the history: every record in it was made by the protocol. */
    function GetTransactions(): (txs: seq<EmissionTransaction>)
      reads this, Repr
      requires Valid()
      ensures txs == transactions
      ensures forall i :: 0 <= i < |txs| ==> Logged(txs[i]) && WellFormed(txs[i])
    {
      transactions
    }
  }
}
