/** Clients of the account that walk through concrete sessions and check,
    from the contracts alone, what each step leaves behind. */
module Scenarios {
  import opened Results
  import opened Categories
  import opened Periods
  import opened EmissionTransactions
  import opened Users

  method NewAccount() returns (u: User)
    ensures fresh(u) && fresh(u.Repr) && u.Valid()
    ensures u.budget == null && u.transactions == []
  {
    assert "Alice"[0] == 'A' && !IsWhitespace("Alice"[0]);
    u := new User("Alice");
  }

  /** A 100 kg weekly budget; 100 km by car emits 21 kg and is committed. */
  method AffordableCarTrip() {
    var u := NewAccount();
    var configured := u.SetBudget(100.0, Some(Week));
    assert configured == Pass;
    var r := u.LogActivity(Some(Car), 100.0, "t0");
    assert r == Committed(EmissionTransaction(Car, 100.0, 21.0, "t0"));
    assert u.budget.remainingBudget == 79.0;
    assert |u.transactions| == 1;
  }

  /** A 10 kg weekly budget; one hour of long-haul flight emits 0.4 kg. */
  method AffordableLongFlight() {
    var u := NewAccount();
    var configured := u.SetBudget(10.0, Some(Week));
    var r := u.LogActivity(Some(FlightLong), 1.0, "t0");
    assert r.Committed? && r.tx.emission == 0.4;
    assert u.budget.remainingBudget == 9.6;
  }

  /** A 5 kg budget cannot afford 21 kg: the log is rejected and nothing changes. */
  method UnaffordableCarTrip() {
    var u := NewAccount();
    var configured := u.SetBudget(5.0, Some(Week));
    var r := u.LogActivity(Some(Car), 100.0, "t0");
    assert r == Rejected(21.0, 5.0);
    assert u.budget.remainingBudget == 5.0;
    assert u.transactions == [];
  }

  /** Logging a quantity that is not positive, or logging before a budget is
      set, throws and changes nothing; the summary without a budget reports
      the notice instead of failing. */
  method InvalidLogs(q: real)
    requires q <= 0.0
  {
    var u := NewAccount();
    var early := u.LogActivity(Some(Gas), 1.0, "t0");
    assert early.Failed? && early.error.IllegalState?;
    assert u.DisplaySummary().NoBudget?;
    var configured := u.SetBudget(50.0, Some(Month));
    var r := u.LogActivity(Some(Gas), q, "t1");
    assert r.Failed? && r.error.InvalidArgument?;
    assert u.budget.remainingBudget == 50.0 && u.transactions == [];
  }
}
