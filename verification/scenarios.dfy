/** Whole-flow facts: a form submission followed by the summary, the list
    filters and a deletion. */
module Scenarios {
  import opened Wrappers
  import opened Transactions
  import opened Validation
  import opened LedgerOps
  import opened Summary
  import opened Filters

  /** A submitted form whose amount field is empty, unparsable or zero is
      rejected for its amount (when the description is filled in), and the
      ledger is not changed. */
  lemma ZeroAmountRejected(l: Ledger, id: string, rawDescription: string, parsedAmount: Option<real>,
                           category: string, checkedType: Option<string>)
    requires !IsBlank(rawDescription)
    requires parsedAmount.None? || parsedAmount == Some(0.0)
    ensures var t := Candidate(id, rawDescription, parsedAmount, category, checkedType);
      Submit(l, t) == Failure(InvalidAmount)
  {
    var t := Candidate(id, rawDescription, parsedAmount, category, checkedType);
    Text.TrimKeepsVisible(rawDescription);
    assert !Fails(t, BlankDescription);
    assert Fails(t, InvalidAmount);
  }

  function Coffee(): Transaction {
    Transaction("1", "Coffee", 4.5, "Food", Expense)
  }

  function Paycheck(): Transaction {
    Transaction("2", "Paycheck", 2000.0, "Salary", Income)
  }

  /** The coffee passes all four checks, so submitting it adds it. */
  lemma CoffeeIsValid()
    ensures Validate(Coffee()) == Pass
  {
    PassesWhen(Coffee());
  }

  /** The paycheck passes all four checks, so submitting it adds it. */
  lemma PaycheckIsValid()
    ensures Validate(Paycheck()) == Pass
  {
    PassesWhen(Paycheck());
  }

  /** Submitting the coffee to an empty ledger and then the paycheck gives
      the newest-first ledger the scenarios below start from. */
  lemma CoffeeThenPaycheck()
    ensures Submit([], Coffee()) == Success([Coffee()])
    ensures Submit([Coffee()], Paycheck()) == Success([Paycheck(), Coffee()])
  {
    CoffeeIsValid();
    PaycheckIsValid();
    assert Add([], Coffee()) == [Coffee()];
    assert Add([Coffee()], Paycheck()) == [Paycheck(), Coffee()];
  }

  /** Income 2000, expense 4.50, balance 1995.50. */
  lemma CoffeeAndPaycheckTotals()
    ensures CalculateSummary([Paycheck(), Coffee()]) == Totals(2000.0, 4.5, 1995.5)
  {
    var l := [Paycheck(), Coffee()];
    assert l[1..] == [Coffee()];
    assert AmountOfKind(l, Income) == 2000.0;
    assert AmountOfKind(l, Expense) == 4.5;
  }

  /** The expense view shows only the coffee. */
  lemma CoffeeAndPaycheckExpenseView()
    ensures GetFiltered([Paycheck(), Coffee()], All, Expense) == [Coffee()]
  {
    var l := [Paycheck(), Coffee()];
    assert l[1..] == [Coffee()];
    assert Where(l, Selector(All, Expense)) == Where([Coffee()], Selector(All, Expense));
  }

  /** Deleting by the coffee's id leaves the paycheck. */
  lemma DeleteCoffee()
    ensures Remove([Paycheck(), Coffee()], "1") == [Paycheck()]
  {
    var l := [Paycheck(), Coffee()];
    assert l[1..] == [Coffee()];
    assert FindIndex(l, "1") == 1;
  }
}
