/**
 * The transactions hook: the inclusive date-range filter its effect
 * applies to the mock transactions, the `loading` flag around the
 * simulated fetch, and the mutators that do not touch the state.
 */
module UseTransactions {
  import opened Seqs
  import opened Types

  /** `start <= date <= end`, both bounds included. */
  predicate InRange(t: Transaction, start: Timestamp, end: Timestamp) {
    start <= t.date <= end
  }

  /** The transactions dated within `[start, end]`, in the order of `all`. */
  function TransactionsInRange(all: seq<Transaction>, start: Timestamp, end: Timestamp): (r: seq<Transaction>)
    ensures forall t :: t in r <==> t in all && start <= t.date <= end
    ensures IsSubsequence(r, all)
    ensures forall t :: multiset(r)[t] == if start <= t.date <= end then multiset(all)[t] else 0
  {
    var inRange := (t: Transaction) => InRange(t, start, end);
    FilterMembers(all, inRange);
    FilterIsSubsequence(all, inRange);
    FilterCounts(all, inRange);
    Filter(all, inRange)
  }

  /** Transactions dated exactly on either bound are kept. */
  lemma BoundsIncluded(all: seq<Transaction>, start: Timestamp, end: Timestamp, t: Transaction)
    requires t in all && start <= end && (t.date == start || t.date == end)
    ensures t in TransactionsInRange(all, start, end)
  {
  }

  /** The hook's state. */
  class TransactionsHook {
    var transactions: seq<Transaction>
    var loading: bool

    constructor ()
      ensures transactions == [] && loading
    {
      transactions := [];
      loading := true;
    }

    /**
     * The start of the effect for the month spanning `[start, end]`:
     * `loading` is set and the month's transactions are picked out of the
     * mock list; the list shown does not change until the timer fires.
     */
    method BeginLoad(mock: seq<Transaction>, start: Timestamp, end: Timestamp) returns (pending: seq<Transaction>)
      modifies this
      ensures loading && transactions == old(transactions)
      ensures pending == TransactionsInRange(mock, start, end)
    {
      loading := true;
      pending := TransactionsInRange(mock, start, end);
    }

    /** The timer callback: the pending list is shown and loading ends. */
    method TimerFires(pending: seq<Transaction>)
      modifies this
      ensures transactions == pending && !loading
    {
      transactions := pending;
      loading := false;
    }

    /** The effect run to completion: afterwards the hook shows exactly the month's mock transactions. */
    method LoadMonth(mock: seq<Transaction>, start: Timestamp, end: Timestamp)
      modifies this
      ensures transactions == TransactionsInRange(mock, start, end) && !loading
      ensures forall t :: t in transactions <==> t in mock && start <= t.date <= end
    {
      var pending := BeginLoad(mock, start, end);
      TimerFires(pending);
    }

    /** `addTransaction` only logs its argument. */
    method AddTransaction(t: Transaction)
      ensures transactions == old(transactions) && loading == old(loading)
    {
    }

    /** `updateTransaction` only logs its arguments. */
    method UpdateTransaction(id: string, updates: Transaction)
      ensures transactions == old(transactions) && loading == old(loading)
    {
    }

    /** `deleteTransaction` only logs its argument. */
    method DeleteTransaction(id: string)
      ensures transactions == old(transactions) && loading == old(loading)
    {
    }
  }
}
