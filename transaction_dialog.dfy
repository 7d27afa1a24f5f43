/**
 * The transaction dialog: the categories it offers for each type, how its
 * form is reset or prefilled, and the transaction record it hands to
 * `onSave`.
 */
module TransactionDialog {
  import opened Seqs
  import opened Types

  predicate NotIncome(c: Category) {
    c != Income
  }

  /** What the selector offers for an expense: every category but `Income`, in list order. */
  const ExpenseOffer: seq<Category> := [Food, Transport, Shopping, Housing, Health, Entertainment, Other]

  /** `filteredCategories`: just `Income` for income, the expense offer otherwise. */
  function FilteredCategories(t: TxType): (r: seq<Category>)
    ensures |r| <= |AllCategories|
  {
    if t == IncomeTx then [Income] else ExpenseOffer
  }

  /** The expense offer is what `categories.filter(c => c !== 'Income')` computes. */
  lemma ExpenseCategoriesListed()
    ensures ExpenseOffer == Filter(AllCategories, NotIncome)
  {
  }

  /** Income offers exactly `Income`; an expense offers exactly the other seven categories. */
  lemma OfferedMembers(t: TxType)
    ensures forall c: Category :: c in FilteredCategories(t) <==> (if t == IncomeTx then c == Income else c != Income)
  {
  }

  /** Either offer lists its categories in the order of the full list. */
  lemma OfferInListOrder(t: TxType)
    ensures IsSubsequence(FilteredCategories(t), AllCategories)
  {
    if t == IncomeTx {
      IncomeIsSubsequence();
    } else {
      ExpenseCategoriesListed();
      FilterIsSubsequence(AllCategories, NotIncome);
    }
  }

  lemma IncomeIsSubsequence()
    ensures IsSubsequence([Income], AllCategories)
  {
    var a := AllCategories;
    assert a[6..][1..] == [Other];
    assert IsSubsequence([Income], a[6..]);
    assert a[5..][1..] == a[6..];
    assert a[4..][1..] == a[5..];
    assert a[3..][1..] == a[4..];
    assert a[2..][1..] == a[3..];
    assert a[1..][1..] == a[2..];
  }

  /** The category a type change falls back on: `Income` for income, `Food` for an expense. */
  lemma FirstOffered(t: TxType)
    ensures |FilteredCategories(t)| > 0
    ensures FilteredCategories(t)[0] == if t == IncomeTx then Income else Food
  {
  }

  /**
   * The record `handleSubmit` saves.  An edited transaction keeps its id and
   * user unless they are empty (`x || y`); a new one gets the fresh id and
   * the mock user.  Type, category and description are the form's, the
   * date is the picked one, and no receipt URL is carried over.
   */
  function SavedTransaction(tx: Option<Transaction>, kind: TxType, amountText: string, category: Category,
                            description: string, date: Timestamp, freshId: string,
                            parseNumber: string -> real): (r: Transaction)
    ensures r.kind == kind && r.category == category && r.description == description
    ensures r.amount == parseNumber(amountText) && r.date == date && r.receiptUrl == None
    ensures tx.None? ==> r.id == freshId && r.userId == "mock-user-id"
    ensures tx.Some? && tx.value.id != "" ==> r.id == tx.value.id
    ensures tx.Some? && tx.value.userId != "" ==> r.userId == tx.value.userId
  {
    var id := if tx.Some? && tx.value.id != "" then tx.value.id else freshId;
    var userId := if tx.Some? && tx.value.userId != "" then tx.value.userId else "mock-user-id";
    Transaction(id, userId, kind, parseNumber(amountText), category, description, date, None)
  }

  /** The dialog's form state; `date` is `None` once the calendar selection is cleared. */
  class TransactionForm {
    var kind: TxType
    var amount: string
    var category: Category
    var description: string
    var date: Option<Timestamp>
    var isLoading: bool
    var isOpen: bool

    /** The category is one the selector offers for the current type. */
    ghost predicate Consistent()
      reads this
    {
      category in FilteredCategories(kind)
    }

    constructor (now: Timestamp, open: bool)
      ensures kind == ExpenseTx && amount == "" && category == Food && description == ""
      ensures date == Some(now) && !isLoading && isOpen == open
      ensures Consistent()
    {
      FirstOffered(ExpenseTx);
      kind := ExpenseTx;
      amount := "";
      category := Food;
      description := "";
      date := Some(now);
      isLoading := false;
      isOpen := open;
    }

    /** The effect on `[transaction, isOpen]`: prefill from the transaction, or back to the defaults. */
    method Reset(tx: Option<Transaction>, now: Timestamp, numberText: real -> string)
      modifies this
      ensures tx.Some? ==>
        && kind == tx.value.kind && amount == numberText(tx.value.amount) && category == tx.value.category
        && description == tx.value.description && date == Some(tx.value.date)
      ensures tx.None? ==>
        kind == ExpenseTx && amount == "" && category == Food && description == "" && date == Some(now)
      ensures tx.None? ==> Consistent()
      ensures isLoading == old(isLoading) && isOpen == old(isOpen)
    {
      FirstOffered(ExpenseTx);
      if tx.Some? {
        kind := tx.value.kind;
        amount := numberText(tx.value.amount);
        category := tx.value.category;
        description := tx.value.description;
        date := Some(tx.value.date);
      } else {
        kind := ExpenseTx;
        amount := "";
        category := Food;
        description := "";
        date := Some(now);
      }
    }

    /** The radio group as written: only the type changes, the category stays what it was. */
    method ChooseType(t: TxType)
      modifies this
      ensures kind == t
      ensures amount == old(amount) && category == old(category) && description == old(description)
      ensures date == old(date) && isLoading == old(isLoading) && isOpen == old(isOpen)
    {
      kind := t;
    }

    /**
     * The radio group as evidently intended: when the current category is
     * not offered for the new type, fall back on the first one offered, so
     * the form stays consistent.
     */
    method ChooseTypeKeepingOffer(t: TxType)
      modifies this
      ensures Consistent()
      ensures kind == t
      ensures category == (if old(category) in FilteredCategories(t) then old(category) else FilteredCategories(t)[0])
      ensures amount == old(amount) && description == old(description)
      ensures date == old(date) && isLoading == old(isLoading) && isOpen == old(isOpen)
    {
      kind := t;
      var offered := FilteredCategories(t);
      if category !in offered {
        FirstOffered(t);
        category := offered[0];
      }
    }

    /** The selector offers, and so emits, only the categories of the current type. */
    method ChooseCategory(c: Category)
      requires c in FilteredCategories(kind)
      modifies this
      ensures Consistent()
      ensures category == c && kind == old(kind) && amount == old(amount) && description == old(description)
      ensures date == old(date) && isLoading == old(isLoading) && isOpen == old(isOpen)
    {
      category := c;
    }

    method EnterAmount(text: string)
      modifies this
      ensures amount == text && kind == old(kind) && category == old(category) && description == old(description)
      ensures date == old(date) && isLoading == old(isLoading) && isOpen == old(isOpen)
    {
      amount := text;
    }

    method EnterDescription(text: string)
      modifies this
      ensures description == text && kind == old(kind) && category == old(category) && amount == old(amount)
      ensures date == old(date) && isLoading == old(isLoading) && isOpen == old(isOpen)
    {
      description := text;
    }

    /** The calendar's `onSelect`: a day, or `None` when the selected day is clicked again. */
    method PickDate(d: Option<Timestamp>)
      modifies this
      ensures date == d && kind == old(kind) && category == old(category) && amount == old(amount)
      ensures description == old(description) && isLoading == old(isLoading) && isOpen == old(isOpen)
    {
      date := d;
    }

    /**
     * `handleSubmit`: without a date it returns at once, saving nothing and
     * changing nothing; otherwise it saves the record built from the form
     * and closes the dialog with the loading flag back to false.  A
     * consistent form saves a record whose category fits its type.
     */
    method Submit(tx: Option<Transaction>, freshId: string, parseNumber: string -> real)
      returns (saved: Option<Transaction>)
      modifies this
      ensures old(date).None? ==> saved.None? && isLoading == old(isLoading) && isOpen == old(isOpen)
      ensures old(date).Some? ==>
        && saved == Some(SavedTransaction(tx, old(kind), old(amount), old(category), old(description),
                                          old(date).value, freshId, parseNumber))
        && !isLoading && !isOpen
      ensures old(Consistent()) && saved.Some? ==> saved.value.category in FilteredCategories(saved.value.kind)
      ensures kind == old(kind) && amount == old(amount) && category == old(category)
      ensures description == old(description) && date == old(date)
    {
      if date.None? {
        return None;
      }
      isLoading := true;
      saved := Some(SavedTransaction(tx, kind, amount, category, description, date.value, freshId, parseNumber));
      isLoading := false;
      isOpen := false;
    }
  }

  /**
   * What the form as written lets through: open the dialog for a new
   * transaction, switch the type to income, fill in the amount and the
   * description (both inputs are `required`) and save -- the record is an
   * income filed under `Food`, a category the selector never offers for
   * income.
   */
  method IncomeSavedUnderFood(now: Timestamp, amountText: string, descriptionText: string, freshId: string,
                              parseNumber: string -> real)
    returns (saved: Option<Transaction>)
    requires amountText != "" && descriptionText != ""
    ensures saved.Some? && saved.value.kind == IncomeTx && saved.value.category == Food
    ensures saved.value.category !in FilteredCategories(IncomeTx)
  {
    var form := new TransactionForm(now, true);
    form.Reset(None, now, (x: real) => "");
    form.ChooseType(IncomeTx);
    form.EnterAmount(amountText);
    form.EnterDescription(descriptionText);
    saved := form.Submit(None, freshId, parseNumber);
  }

  /** The same steps with the corrected type change save an income under `Income`. */
  method IncomeSavedUnderIncome(now: Timestamp, amountText: string, descriptionText: string, freshId: string,
                                parseNumber: string -> real)
    returns (saved: Option<Transaction>)
    requires amountText != "" && descriptionText != ""
    ensures saved.Some? && saved.value.kind == IncomeTx && saved.value.category == Income
  {
    var form := new TransactionForm(now, true);
    form.Reset(None, now, (x: real) => "");
    form.ChooseTypeKeepingOffer(IncomeTx);
    form.EnterAmount(amountText);
    form.EnterDescription(descriptionText);
    saved := form.Submit(None, freshId, parseNumber);
  }
}
