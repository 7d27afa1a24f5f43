/**
 * The budget list: spending per category folded from the transactions, and
 * for each budget card the amount spent, what remains, the progress bar
 * (clamped at 100) and the over-budget footer.
 */
module BudgetList {
  import opened Seqs
  import opened Types

  // ---------------------------------------------------------------------
  // Spending by category
  // ---------------------------------------------------------------------

  /** The total amount of the transactions of category `c`; income and expense alike. */
  function SumFor(txs: seq<Transaction>, c: Category): real {
    if txs == [] then 0.0
    else
      var last := txs[|txs| - 1];
      SumFor(txs[..|txs| - 1], c) + (if last.category == c then last.amount else 0.0)
  }

  function CategoriesIn(txs: seq<Transaction>): set<Category> {
    set t | t in txs :: t.category
  }

  /** The dictionary the fold should produce: one entry per category present, holding its total. */
  function SpendingSpec(txs: seq<Transaction>): map<Category, real> {
    map c | c in CategoriesIn(txs) :: SumFor(txs, c)
  }

  /**
   * The `reduce` callback: a truthy entry is increased by the amount, a
   * missing (or zero) entry is set to the amount.  Only the transaction's
   * own category changes, and it grows by the amount either way.
   */
  function AddSpending(acc: map<Category, real>, tx: Transaction): (r: map<Category, real>)
    ensures r.Keys == acc.Keys + {tx.category}
    ensures r[tx.category] == (if tx.category in acc then acc[tx.category] else 0.0) + tx.amount
    ensures forall c :: c in acc && c != tx.category ==> r[c] == acc[c]
  {
    if tx.category in acc && acc[tx.category] != 0.0 then acc[tx.category := acc[tx.category] + tx.amount]
    else acc[tx.category := tx.amount]
  }

  /** Folding one more transaction into the dictionary of a prefix gives the dictionary of the longer list. */
  lemma SpendingStep(s: seq<Transaction>, t: Transaction)
    ensures SpendingSpec(s + [t]) == AddSpending(SpendingSpec(s), t)
  {
    var s' := s + [t];
    assert s'[..|s'| - 1] == s;
    CategoriesSnoc(s, t);
    if t.category !in CategoriesIn(s) {
      SumForAbsent(s, t.category);
    }
    var longer := SpendingSpec(s');
    var folded := AddSpending(SpendingSpec(s), t);
    assert longer.Keys == folded.Keys;
    forall c | c in longer
      ensures longer[c] == folded[c]
    {
      assert longer[c] == SumFor(s, c) + (if t.category == c then t.amount else 0.0);
    }
  }

  /** The categories of a list with one more transaction: the old ones and that one's. */
  lemma CategoriesSnoc(s: seq<Transaction>, t: Transaction)
    ensures CategoriesIn(s + [t]) == CategoriesIn(s) + {t.category}
  {
    var s' := s + [t];
    forall c | c in CategoriesIn(s') ensures c in CategoriesIn(s) + {t.category} {
      var u :| u in s' && u.category == c;
      if u != t { assert u in s; }
    }
    forall c | c in CategoriesIn(s) ensures c in CategoriesIn(s') {
      var u :| u in s && u.category == c;
      assert u in s';
    }
    assert t in s';
  }

  /** A category no transaction carries sums to zero. */
  lemma {:induction false} SumForAbsent(txs: seq<Transaction>, c: Category)
    requires c !in CategoriesIn(txs)
    ensures SumFor(txs, c) == 0.0
  {
    if txs != [] {
      var init := txs[..|txs| - 1];
      assert CategoriesIn(init) <= CategoriesIn(txs) by {
        forall d | d in CategoriesIn(init) ensures d in CategoriesIn(txs) {
          var u :| u in init && u.category == d;
          assert u in txs;
        }
      }
      assert txs[|txs| - 1] in txs;
      SumForAbsent(init, c);
    }
  }

  /** `transactions.reduce(...)`: the category-to-total dictionary. */
  method SpendingByCategory(txs: seq<Transaction>) returns (acc: map<Category, real>)
    ensures acc.Keys == CategoriesIn(txs)
    ensures forall c :: c in acc ==> acc[c] == SumFor(txs, c)
  {
    acc := map[];
    var i := 0;
    while i < |txs|
      invariant 0 <= i <= |txs|
      invariant acc == SpendingSpec(txs[..i])
    {
      SpendingStep(txs[..i], txs[i]);
      assert txs[..i + 1] == txs[..i] + [txs[i]];
      acc := AddSpending(acc, txs[i]);
      i := i + 1;
    }
    assert txs[..i] == txs;
  }

  /** `spendingByCategory[category] || 0`. */
  function SpentFrom(spending: map<Category, real>, c: Category): real {
    if c in spending then spending[c] else 0.0
  }

  /** Looking a category up in the fold's dictionary gives its total, and zero for an absent one. */
  lemma SpentIsSum(txs: seq<Transaction>, c: Category)
    ensures SpentFrom(SpendingSpec(txs), c) == SumFor(txs, c)
  {
    if c !in CategoriesIn(txs) {
      SumForAbsent(txs, c);
    }
  }

  // ---------------------------------------------------------------------
  // Budget cards
  // ---------------------------------------------------------------------

  /** A JavaScript number as far as the progress value needs one: division by zero gives an infinity or NaN. */
  datatype JsNumber = Finite(v: real) | PosInfinity | NegInfinity | NaN

  /** `(spent / amount) * 100` in IEEE arithmetic (signed zeros aside). */
  function Progress(spent: real, amount: real): (r: JsNumber)
    ensures amount != 0.0 ==> r == Finite(spent / amount * 100.0)
    ensures amount == 0.0 ==> (r.PosInfinity? <==> spent > 0.0) && (r.NaN? <==> spent == 0.0)
    ensures amount == 0.0 ==> (r.NegInfinity? <==> spent < 0.0)
  {
    if amount != 0.0 then Finite(spent / amount * 100.0)
    else if spent > 0.0 then PosInfinity
    else if spent < 0.0 then NegInfinity
    else NaN
  }

  /** `n > k`: false for NaN and negative infinity, true for positive infinity. */
  function Exceeds(n: JsNumber, k: real): bool {
    match n
    case Finite(v) => v > k
    case PosInfinity => true
    case NegInfinity => false
    case NaN => false
  }

  datatype Footer = Remaining(left: real) | OverBudget(excess: real)

  datatype Card = Card(
    budget: Budget,
    spent: real,
    remaining: real,
    progress: JsNumber,
    barValue: JsNumber,     // `progress > 100 ? 100 : progress`
    destructive: bool,      // the bar's destructive style
    footer: Footer)

  /** One budget's card, given the spending dictionary. */
  function CardFor(b: Budget, spending: map<Category, real>): (card: Card)
    ensures card.budget == b && card.spent == SpentFrom(spending, b.category)
    ensures card.remaining == b.amount - card.spent
    ensures card.progress == Progress(card.spent, b.amount)
  {
    var spent := SpentFrom(spending, b.category);
    var remaining := b.amount - spent;
    var progress := Progress(spent, b.amount);
    Card(b, spent, remaining, progress,
         if Exceeds(progress, 100.0) then Finite(100.0) else progress,
         Exceeds(progress, 100.0),
         if remaining >= 0.0 then Remaining(remaining) else OverBudget(-remaining))
  }

  /**
   * The bar never shows more than 100, and the destructive style is on
   * exactly when the progress exceeds 100; the footer shows what remains
   * when nothing is overspent and the (positive) overspend otherwise.
   */
  lemma CardShape(b: Budget, spending: map<Category, real>)
    ensures var card := CardFor(b, spending);
      && !Exceeds(card.barValue, 100.0)
      && (card.destructive <==> Exceeds(card.progress, 100.0))
      && (card.destructive ==> card.barValue == Finite(100.0))
      && (!card.destructive ==> card.barValue == card.progress)
      && (card.footer.Remaining? <==> card.spent <= b.amount)
      && (card.footer.Remaining? ==> card.footer.left == b.amount - card.spent >= 0.0)
      && (card.footer.OverBudget? ==> card.footer.excess == card.spent - b.amount > 0.0)
  {
  }

  /** For a positive amount, the progress exceeds 100 exactly when more than the amount was spent. */
  lemma ProgressAbove100(spent: real, amount: real)
    requires amount > 0.0
    ensures Exceeds(Progress(spent, amount), 100.0) <==> spent > amount
  {
    var q := spent / amount;
    assert q * amount == spent;
    if q > 1.0 {
      assert q * amount > 1.0 * amount;
    } else {
      assert q * amount <= 1.0 * amount;
    }
  }

  /**
   * The bar turns destructive exactly when the footer says "over budget",
   * i.e. when more than the budget was spent -- for every budget whose
   * amount is not negative (a zero budget included).
   */
  lemma OverBudgetConsistent(b: Budget, spending: map<Category, real>)
    requires b.amount >= 0.0
    ensures var card := CardFor(b, spending);
      (card.destructive <==> card.footer.OverBudget?) && (card.footer.OverBudget? <==> card.spent > b.amount)
  {
    var card := CardFor(b, spending);
    if b.amount > 0.0 {
      ProgressAbove100(card.spent, b.amount);
    }
  }

  /** What the list renders. */
  datatype View = Skeletons(count: nat) | NoBudgets | Cards(cards: seq<Card>)

  /**
   * `BudgetList`: three skeleton cards while loading, the empty state when
   * there are no budgets, otherwise one card per budget in order, each
   * showing the total of its category's transactions.
   */
  method RenderBudgetList(budgets: seq<Budget>, txs: seq<Transaction>, isLoading: bool) returns (v: View)
    ensures isLoading ==> v == Skeletons(3)
    ensures !isLoading && budgets == [] ==> v == NoBudgets
    ensures !isLoading && budgets != [] ==>
      && v.Cards? && |v.cards| == |budgets|
      && forall i :: 0 <= i < |budgets| ==>
           v.cards[i] == CardFor(budgets[i], SpendingSpec(txs))
           && v.cards[i].spent == SumFor(txs, budgets[i].category)
  {
    var spending := SpendingByCategory(txs);
    assert spending == SpendingSpec(txs);
    if isLoading {
      return Skeletons(3);
    }
    if budgets == [] {
      return NoBudgets;
    }
    var cards := seq(|budgets|, i requires 0 <= i < |budgets| => CardFor(budgets[i], spending));
    forall i | 0 <= i < |budgets| ensures cards[i].spent == SumFor(txs, budgets[i].category) {
      SpentIsSum(txs, budgets[i].category);
    }
    v := Cards(cards);
  }
}
