/**
 * The budget dialog: which categories it offers, how its form is reset or
 * prefilled, and the budget record it hands to `onSave`.
 */
module BudgetDialog {
  import opened Seqs
  import opened Types

  /** The dialog's fixed list: every category but `Income`, in display order. */
  const BudgetCategories: seq<BudgetCategory> :=
    [Food, Transport, Shopping, Housing, Health, Entertainment, Other]

  /** The list has seven entries, lacks only `Income`, and follows the order of the category union. */
  lemma BudgetCategoriesFixed()
    ensures |BudgetCategories| == 7 && Income !in BudgetCategories
    ensures forall c: Category :: c != Income ==> c in BudgetCategories
    ensures forall i, j :: 0 <= i < j < |BudgetCategories| ==>
      CategoryIndex(BudgetCategories[i]) < CategoryIndex(BudgetCategories[j])
  {
    BudgetCategoriesListed();
  }

  lemma BudgetCategoriesListed()
    ensures forall c: Category :: c != Income ==> c in BudgetCategories
  {
    forall c: Category | c != Income ensures c in BudgetCategories {
      match c {
        case Food => assert BudgetCategories[0] == c;
        case Transport => assert BudgetCategories[1] == c;
        case Shopping => assert BudgetCategories[2] == c;
        case Housing => assert BudgetCategories[3] == c;
        case Health => assert BudgetCategories[4] == c;
        case Entertainment => assert BudgetCategories[5] == c;
        case Other => assert BudgetCategories[6] == c;
      }
    }
  }

  /** The filter's test when creating: no budget exists yet for the category. */
  function Unbudgeted(existing: seq<string>): (BudgetCategory -> bool) {
    (c: BudgetCategory) => CategoryName(c) !in existing
  }

  /**
   * `availableCategories`: all seven when a budget is being edited; when
   * creating, those whose name is not among the existing budgets'
   * categories.
   */
  function AvailableCategories(budget: Option<Budget>, existing: seq<string>): (r: seq<BudgetCategory>)
    ensures budget.Some? ==> r == BudgetCategories
    ensures |r| <= |BudgetCategories|
  {
    if budget.Some? then BudgetCategories else Filter(BudgetCategories, Unbudgeted(existing))
  }

  /** When creating, a category is offered exactly when it is not `Income` and has no budget yet. */
  lemma AvailableMembers(existing: seq<string>)
    ensures forall c: Category :: c in AvailableCategories(None, existing) <==> c != Income && CategoryName(c) !in existing
  {
    var keep := Unbudgeted(existing);
    FilterMembers(BudgetCategories, keep);
    BudgetCategoriesListed();
    forall c: Category ensures c in AvailableCategories(None, existing) <==> c != Income && CategoryName(c) !in existing {
      if c != Income {
        assert keep(c) <==> CategoryName(c) !in existing;
      }
    }
  }

  /**
   * The category a new budget should start on: the first one offered, or
   * `Food` when every category already has a budget.  It has no budget yet
   * whenever there is one to offer.
   */
  function FirstAvailable(existing: seq<string>): (c: BudgetCategory)
    ensures AvailableCategories(None, existing) != [] ==>
      c == AvailableCategories(None, existing)[0] && CategoryName(c) !in existing
    ensures AvailableCategories(None, existing) == [] ==> c == Food
  {
    var offered := AvailableCategories(None, existing);
    if offered == [] then Food
    else
      AvailableMembers(existing);
      assert offered[0] in offered;
      offered[0]
  }

  /** Either way the offer lists its categories in the fixed list's order. */
  lemma AvailableInOrder(budget: Option<Budget>, existing: seq<string>)
    ensures IsSubsequence(AvailableCategories(budget, existing), BudgetCategories)
  {
    if budget.Some? {
      SubsequenceOfItself(BudgetCategories);
    } else {
      FilterIsSubsequence(BudgetCategories, Unbudgeted(existing));
    }
  }

  /**
   * The record `handleSubmit` saves.  `x || y` falls back on `y` when `x` is
   * missing or the empty string, so an edited budget keeps its id, user and
   * month unless they are empty; a new one gets the fresh id, the mock user
   * and the current month.
   */
  function SavedBudget(budget: Option<Budget>, category: BudgetCategory, amountText: string,
                       freshId: string, currentMonth: string, parseNumber: string -> real): (r: Budget)
    ensures r.category == category && r.amount == parseNumber(amountText)
    ensures budget.None? ==> r.id == freshId && r.userId == "mock-user-id" && r.month == currentMonth
    ensures budget.Some? && budget.value.id != "" ==> r.id == budget.value.id
    ensures budget.Some? && budget.value.userId != "" ==> r.userId == budget.value.userId
    ensures budget.Some? && budget.value.month != "" ==> r.month == budget.value.month
  {
    var id := if budget.Some? && budget.value.id != "" then budget.value.id else freshId;
    var userId := if budget.Some? && budget.value.userId != "" then budget.value.userId else "mock-user-id";
    var month := if budget.Some? && budget.value.month != "" then budget.value.month else currentMonth;
    Budget(id, userId, category, parseNumber(amountText), month)
  }

  /**
   * Editing changes only the amount: with the category the reset copied
   * from the budget (the selector is disabled while editing), the saved
   * record is the budget with its amount replaced.
   */
  lemma EditChangesOnlyAmount(b: Budget, amountText: string, freshId: string, currentMonth: string,
                              parseNumber: string -> real)
    requires b.id != "" && b.userId != "" && b.month != ""
    ensures SavedBudget(Some(b), b.category, amountText, freshId, currentMonth, parseNumber)
         == b.(amount := parseNumber(amountText))
  {
  }

  /** The dialog's form state. */
  class BudgetForm {
    var amount: string
    var category: Category
    var isLoading: bool
    var isOpen: bool

    /** The form never holds `Income`: it starts at `Food` and only takes budget categories. */
    ghost predicate Valid()
      reads this
    {
      category != Income
    }

    constructor (open: bool)
      ensures Valid()
      ensures amount == "" && category == Food && !isLoading && isOpen == open
    {
      amount := "";
      category := Food;
      isLoading := false;
      isOpen := open;
    }

    /** The effect on `[budget, isOpen]`: prefill from the budget, or back to the defaults. */
    method Reset(budget: Option<Budget>, numberText: real -> string)
      modifies this
      ensures Valid()
      ensures budget.Some? ==> amount == numberText(budget.value.amount) && category == budget.value.category
      ensures budget.None? ==> amount == "" && category == Food
      ensures isLoading == old(isLoading) && isOpen == old(isOpen)
    {
      if budget.Some? {
        amount := numberText(budget.value.amount);
        category := budget.value.category;
      } else {
        amount := "";
        category := Food;
      }
    }

    /**
     * The reset as evidently intended: when creating, start on the first
     * category still available rather than on `Food`, which may already
     * have a budget.  With nothing left to offer it falls back on `Food`.
     */
    method ResetOffering(budget: Option<Budget>, existing: seq<string>, numberText: real -> string)
      modifies this
      ensures Valid()
      ensures budget.Some? ==> amount == numberText(budget.value.amount) && category == budget.value.category
      ensures budget.None? ==> amount == "" && category == FirstAvailable(existing)
      ensures isLoading == old(isLoading) && isOpen == old(isOpen)
    {
      if budget.Some? {
        amount := numberText(budget.value.amount);
        category := budget.value.category;
      } else {
        amount := "";
        category := FirstAvailable(existing);
      }
    }

    method EnterAmount(text: string)
      requires Valid()
      modifies this
      ensures Valid()
      ensures amount == text && category == old(category)
      ensures isLoading == old(isLoading) && isOpen == old(isOpen)
    {
      amount := text;
    }

    /**
     * The selector: enabled only when creating, and offering only the
     * categories without a budget -- by `AvailableMembers`, exactly the
     * members of `AvailableCategories(None, existing)`.
     */
    method ChooseCategory(c: BudgetCategory, budget: Option<Budget>, existing: seq<string>)
      requires budget.None? && CategoryName(c) !in existing
      modifies this
      ensures Valid()
      ensures category == c && amount == old(amount)
      ensures isLoading == old(isLoading) && isOpen == old(isOpen)
    {
      category := c;
    }

    /**
     * `handleSubmit`: saves the record built from the form and closes the
     * dialog, the loading flag back to false.  The form fields stay as they
     * were.
     */
    method Submit(budget: Option<Budget>, freshId: string, currentMonth: string, parseNumber: string -> real)
      returns (saved: Budget)
      requires Valid()
      modifies this
      ensures Valid()
      ensures saved == SavedBudget(budget, old(category), old(amount), freshId, currentMonth, parseNumber)
      ensures amount == old(amount) && category == old(category)
      ensures !isLoading && !isOpen
    {
      isLoading := true;
      saved := SavedBudget(budget, category, amount, freshId, currentMonth, parseNumber);
      isLoading := false;
      isOpen := false;
    }
  }

  /**
   * What the form as written lets through: with a `Food` budget already in
   * place, open the dialog to create one, type an amount (the input is
   * `required`) and save -- the
   * record is a second `Food` budget, a category the selector does not
   * offer.
   */
  method SecondFoodBudget(existing: seq<string>, amountText: string, freshId: string, currentMonth: string,
                          parseNumber: string -> real)
    returns (saved: Budget)
    requires "Food" in existing && amountText != ""
    ensures saved.category == Food && CategoryName(saved.category) in existing
    ensures saved.category !in AvailableCategories(None, existing)
  {
    AvailableMembers(existing);
    var form := new BudgetForm(true);
    form.Reset(None, (x: real) => "");
    form.EnterAmount(amountText);
    saved := form.Submit(None, freshId, currentMonth, parseNumber);
  }

  /** The same steps with the corrected reset create a budget for a category that has none. */
  method NewBudgetAvoidsExisting(existing: seq<string>, amountText: string, freshId: string, currentMonth: string,
                                 parseNumber: string -> real)
    returns (saved: Budget)
    requires exists c: BudgetCategory :: CategoryName(c) !in existing
    ensures CategoryName(saved.category) !in existing
    ensures saved.category in AvailableCategories(None, existing)
  {
    AvailableMembers(existing);
    var c: BudgetCategory :| CategoryName(c) !in existing;
    assert c in AvailableCategories(None, existing);
    var form := new BudgetForm(true);
    form.ResetOffering(None, existing, (x: real) => "");
    form.EnterAmount(amountText);
    saved := form.Submit(None, freshId, currentMonth, parseNumber);
  }
}
