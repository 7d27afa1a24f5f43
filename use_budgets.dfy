/**
 * The budgets hook: the mock budgets, the month filter its effect applies,
 * the `loading` flag around the simulated fetch, and the mutators that do
 * not touch the state.
 */
module UseBudgets {
  import opened Seqs
  import opened Types

  const MockBudgets: seq<Budget> := [
    Budget("1", "1", Food, 500.0, "2024-05"),
    Budget("2", "1", Shopping, 300.0, "2024-05"),
    Budget("3", "1", Transport, 150.0, "2024-05"),
    Budget("4", "1", Entertainment, 200.0, "2024-05")
  ]

  /** The budgets of the month `monthKey` (`yyyy-MM`), in the order of `all`. */
  function BudgetsInMonth(all: seq<Budget>, monthKey: string): (r: seq<Budget>)
    ensures forall b :: b in r <==> b in all && b.month == monthKey
    ensures IsSubsequence(r, all)
    ensures (forall b :: b in all ==> b.month == monthKey) ==> r == all
  {
    var inMonth := (b: Budget) => b.month == monthKey;
    FilterMembers(all, inMonth);
    FilterIsSubsequence(all, inMonth);
    FilterAll(all, inMonth);
    Filter(all, inMonth)
  }

  /** A budget of the month is kept as many times as it occurs; any other budget not at all. */
  lemma BudgetsInMonthCounts(all: seq<Budget>, monthKey: string)
    ensures forall b :: multiset(BudgetsInMonth(all, monthKey))[b] == if b.month == monthKey then multiset(all)[b] else 0
  {
    FilterCounts(all, (b: Budget) => b.month == monthKey);
  }

  /** All four mock budgets belong to May 2024; any other month has none. */
  lemma MockBudgetMonths(monthKey: string)
    ensures monthKey == "2024-05" ==> BudgetsInMonth(MockBudgets, monthKey) == MockBudgets
    ensures monthKey != "2024-05" ==> BudgetsInMonth(MockBudgets, monthKey) == []
  {
    var r := BudgetsInMonth(MockBudgets, monthKey);
    if monthKey != "2024-05" && r != [] {
      assert false;
    }
  }

  /** The hook's state. */
  class BudgetsHook {
    var budgets: seq<Budget>
    var loading: bool

    constructor ()
      ensures budgets == [] && loading
    {
      budgets := [];
      loading := true;
    }

    /**
     * The start of the effect for the month `monthKey`: `loading` is set and
     * the month's budgets are computed; the list shown does not change until
     * the timer fires.
     */
    method BeginLoad(monthKey: string) returns (pending: seq<Budget>)
      modifies this
      ensures loading && budgets == old(budgets)
      ensures pending == BudgetsInMonth(MockBudgets, monthKey)
    {
      loading := true;
      pending := BudgetsInMonth(MockBudgets, monthKey);
    }

    /** The timer callback: the pending list is shown and loading ends. */
    method TimerFires(pending: seq<Budget>)
      modifies this
      ensures budgets == pending && !loading
    {
      budgets := pending;
      loading := false;
    }

    /** The effect run to completion: afterwards the hook shows exactly the month's mock budgets. */
    method LoadMonth(monthKey: string)
      modifies this
      ensures budgets == BudgetsInMonth(MockBudgets, monthKey) && !loading
      ensures forall b :: b in budgets <==> b in MockBudgets && b.month == monthKey
    {
      var pending := BeginLoad(monthKey);
      TimerFires(pending);
    }

    /** `setBudget` only logs its argument. */
    method SetBudget(category: BudgetCategory, amount: real)
      ensures budgets == old(budgets) && loading == old(loading)
    {
    }

    /** `deleteBudget` only logs its argument. */
    method DeleteBudget(id: string)
      ensures budgets == old(budgets) && loading == old(loading)
    {
    }
  }
}
