/** The carbon ledger: a fixed allowance for a recurring period and the
    balance that remains of it. The balance is debited without clamping, so it
    may go negative (the over-budget state), and it can be reset. */
module Budgets {
  import opened Results
  import opened Periods

  const NonPositiveBudgetMessage := "Budget must be positive"
  const NegativeEmissionMessage := "Emission cannot be negative"

  /** The total of a sequence of deductions. */
  function Sum(ds: seq<real>): real {
    if ds == [] then 0.0 else Sum(ds[..|ds| - 1]) + ds[|ds| - 1]
  }

  predicate NonNegative(ds: seq<real>) {
    forall i :: 0 <= i < |ds| ==> ds[i] >= 0.0
  }

  lemma {:induction false} SumNonNegative(ds: seq<real>)
    requires NonNegative(ds)
    ensures Sum(ds) >= 0.0
  {
    if ds != [] {
      SumNonNegative(ds[..|ds| - 1]);
    }
  }

  /** Deductions made in two runs total the sum of the two runs' totals. */
  lemma {:induction false} SumAppend(a: seq<real>, b: seq<real>)
    ensures Sum(a + b) == Sum(a) + Sum(b)
  {
    if b != [] {
      var n := |b| - 1;
      assert (a + b)[..|a + b| - 1] == a + b[..n];
      SumAppend(a, b[..n]);
    } else {
      assert a + b == a;
    }
  }

  class Budget {
    const initialBudget: real
    const period: Period
    var remainingBudget: real
    /** Every deduction made since construction or the last reset, in order. */
    ghost var Deductions: seq<real>

    /** The ledger equation: what remains is the allowance minus all deductions. */
    ghost predicate Valid()
      reads this
    {
      initialBudget > 0.0 && NonNegative(Deductions)
      && remainingBudget == initialBudget - Sum(Deductions)
    }

    /** A fresh ledger for a positive allowance, with nothing deducted yet. */
    constructor (initialBudget: real, period: Period)
      requires initialBudget > 0.0
      ensures Valid()
      ensures this.initialBudget == initialBudget && this.period == period
      ensures remainingBudget == initialBudget && Deductions == []
    {
      this.initialBudget := initialBudget;
      this.period := period;
      this.remainingBudget := initialBudget;
      Deductions := [];
    }

    /** `new Budget(initialBudget, period)`, which throws on an allowance that
        is not positive. */
    static method Create(initialBudget: real, period: Period) returns (r: Result<Budget>)
      ensures r.Ok? <==> initialBudget > 0.0
      ensures r.Err? ==> r.error == InvalidArgument(NonPositiveBudgetMessage)
      ensures r.Ok? ==> fresh(r.value) && r.value.Valid()
      ensures r.Ok? ==> r.value.initialBudget == initialBudget && r.value.period == period
      ensures r.Ok? ==> r.value.remainingBudget == initialBudget && r.value.Deductions == []
    {
      if initialBudget <= 0.0 {
        return Err(InvalidArgument(NonPositiveBudgetMessage));
      }
      var b := new Budget(initialBudget, period);
      return Ok(b);
    }

    /** Debits `emission` from the balance, however far below zero that takes
        it, and answers whether the balance is still non-negative. A negative
        emission is refused and changes nothing. */
    method DeductEmission(emission: real) returns (r: Result<bool>)
      requires Valid()
      modifies this
      ensures Valid()
      ensures emission < 0.0 ==> r == Err(InvalidArgument(NegativeEmissionMessage)) && unchanged(this)
      ensures emission >= 0.0 ==>
                remainingBudget == old(remainingBudget) - emission
                && Deductions == old(Deductions) + [emission]
                && r == Ok(remainingBudget >= 0.0)
      ensures remainingBudget <= old(remainingBudget)
    {
      if emission < 0.0 {
        return Err(InvalidArgument(NegativeEmissionMessage));
      }
      SumAppend(Deductions, [emission]);
      assert Sum([emission]) == emission by {
        assert [emission][..0] == [];
      }
      remainingBudget := remainingBudget - emission;
      Deductions := Deductions + [emission];
      r := Ok(remainingBudget >= 0.0);
    }

    /** How much of the allowance has been used: the sum of the deductions,
        never negative. */
    function TotalBudgetUsed(): (used: real)
      reads this
      requires Valid()
      ensures used == Sum(Deductions) && used >= 0.0
    {
      SumNonNegative(Deductions);
      initialBudget - remainingBudget
    }

    /** The used share of the allowance in percent: non-negative, and at most
        100 exactly when the balance has not gone below zero. */
    function PercentageBudgetUsed(): (p: real)
      reads this
      requires Valid()
      ensures p * initialBudget == TotalBudgetUsed() * 100.0
      ensures p >= 0.0
      ensures p <= 100.0 <==> remainingBudget >= 0.0
    {
      (TotalBudgetUsed() / initialBudget) * 100.0
    }

    /** Restores the full allowance and starts a new, empty run of deductions. */
    method ResetBudget()
      requires Valid()
      modifies this
      ensures Valid()
      ensures remainingBudget == initialBudget && Deductions == []
    {
      remainingBudget := initialBudget;
      Deductions := [];
    }

    /** Over budget exactly when the deductions add up to more than the allowance. */
    function IsOverBudget(): (over: bool)
      reads this
      requires Valid()
      ensures over <==> Sum(Deductions) > initialBudget
      ensures over <==> remainingBudget < 0.0
    {
      remainingBudget < 0.0
    }

    /** An emission is affordable exactly when deducting it would leave the
        balance non-negative, that is when it and the deductions so far fit in
        the allowance. */
    function CanAfford(emission: real): (ok: bool)
      reads this
      requires Valid()
      ensures ok <==> Sum(Deductions) + emission <= initialBudget
      ensures ok <==> remainingBudget - emission >= 0.0
    {
      emission <= remainingBudget
    }
  }

  /** A budget left untouched since construction is not over budget and has
      used nothing. */
  lemma FreshBudgetUnused(b: Budget)
    requires b.Valid() && b.Deductions == []
    ensures b.remainingBudget == b.initialBudget
    ensures b.TotalBudgetUsed() == 0.0 && b.PercentageBudgetUsed() == 0.0 && !b.IsOverBudget()
  {
  }
}
