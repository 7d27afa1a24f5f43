/**
 * The records of the finance tracker: transactions, budgets and the
 * category enumeration they share.
 */
module Types {
  import opened Seqs

  /** One of exactly eight spending/income labels. */
  datatype Category = Food | Transport | Shopping | Housing | Health | Entertainment | Income | Other

  /** A budget may be set for every category except `Income`. */
  type BudgetCategory = c: Category | c != Income witness Food

  datatype TxType = IncomeTx | ExpenseTx

  /** Milliseconds since the epoch: the instant an ISO date string denotes. */
  type Timestamp = int

  datatype Transaction = Transaction(
    id: string,
    userId: string,
    kind: TxType,
    amount: real,
    category: Category,
    description: string,
    date: Timestamp,
    receiptUrl: Option<string>)

  datatype Budget = Budget(
    id: string,
    userId: string,
    category: BudgetCategory,
    amount: real,
    month: string)   // a `YYYY-MM` key

  /** The category's string value, as stored and displayed. */
  function CategoryName(c: Category): (r: string)
    ensures |r| > 0
  {
    match c
    case Food => "Food"
    case Transport => "Transport"
    case Shopping => "Shopping"
    case Housing => "Housing"
    case Health => "Health"
    case Entertainment => "Entertainment"
    case Income => "Income"
    case Other => "Other"
  }

  function TypeName(t: TxType): (r: string)
    ensures r == "income" || r == "expense"
  {
    match t
    case IncomeTx => "income"
    case ExpenseTx => "expense"
  }

  /** Every category, in the order the dialogs list them. */
  const AllCategories: seq<Category> :=
    [Food, Transport, Shopping, Housing, Health, Entertainment, Income, Other]

  /** Where `c` stands in `AllCategories`: the order in which the selectors list it. */
  function CategoryIndex(c: Category): (r: nat)
    ensures r < |AllCategories| && AllCategories[r] == c
  {
    match c
    case Food => 0
    case Transport => 1
    case Shopping => 2
    case Housing => 3
    case Health => 4
    case Entertainment => 5
    case Income => 6
    case Other => 7
  }

  /** The category union has exactly eight members, and distinct members have distinct names. */
  lemma CategoriesEnumerated()
    ensures |AllCategories| == 8
    ensures forall c: Category :: c in AllCategories
    ensures forall i, j :: 0 <= i < j < |AllCategories| ==> AllCategories[i] != AllCategories[j]
    ensures forall c, d: Category :: CategoryName(c) == CategoryName(d) ==> c == d
  {
    AllCategoriesListed();
  }

  lemma AllCategoriesListed()
    ensures forall c: Category :: c in AllCategories
  {
    forall c: Category ensures c in AllCategories {
      assert AllCategories[CategoryIndex(c)] == c;
    }
  }

}
