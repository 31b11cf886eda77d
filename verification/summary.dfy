/** `FinanceTracker.calculateSummary`: income and expense totals and the
    balance between them. */
module Summary {
  import opened Transactions
  import opened Validation
  import opened LedgerOps

  /** `reduce((sum, t) => sum + t.amount, acc)`: a left-to-right running sum. */
  function Reduce(acc: real, l: Ledger): real
    decreases |l|
  {
    if l == [] then acc else Reduce(acc + l[0].amount, l[1..])
  }

  /** Reference sum of all amounts. */
  function Total(l: Ledger): real {
    if l == [] then 0.0 else l[0].amount + Total(l[1..])
  }

  /** Reference sum of the amounts whose type is `kind`. */
  function AmountOfKind(l: Ledger, kind: string): real {
    if l == [] then 0.0
    else (if l[0].kind == kind then l[0].amount else 0.0) + AmountOfKind(l[1..], kind)
  }

  datatype Totals = Totals(income: real, expense: real, balance: real)

  /** The summary as the source computes it: filter by type, then reduce. */
  function CalculateSummary(l: Ledger): (s: Totals)
    ensures s.income == AmountOfKind(l, Income)
    ensures s.expense == AmountOfKind(l, Expense)
    ensures s.balance == s.income - s.expense
  {
    var income := Reduce(0.0, Where(l, OfKind(Income)));
    var expense := Reduce(0.0, Where(l, OfKind(Expense)));
    ReduceIsTotal(0.0, Where(l, OfKind(Income)));
    ReduceIsTotal(0.0, Where(l, OfKind(Expense)));
    TotalOfKind(l, Income);
    TotalOfKind(l, Expense);
    Totals(income, expense, income - expense)
  }

  /** The running sum from `acc` ends at `acc` plus the total. */
  lemma {:induction false} ReduceIsTotal(acc: real, l: Ledger)
    ensures Reduce(acc, l) == acc + Total(l)
    decreases |l|
  {
    if l != [] {
      ReduceIsTotal(acc + l[0].amount, l[1..]);
    }
  }

  /** Summing the entries of one type is summing the filtered ledger. */
  lemma {:induction false} TotalOfKind(l: Ledger, kind: string)
    ensures Total(Where(l, OfKind(kind))) == AmountOfKind(l, kind)
  {
    if l != [] {
      TotalOfKind(l[1..], kind);
      if l[0].kind == kind {
        assert Where(l, OfKind(kind)) == [l[0]] + Where(l[1..], OfKind(kind));
      }
    }
  }

  lemma {:induction false} AmountOfKindConcat(a: Ledger, b: Ledger, kind: string)
    ensures AmountOfKind(a + b, kind) == AmountOfKind(a, kind) + AmountOfKind(b, kind)
  {
    if a == [] {
      assert a + b == b;
    } else {
      assert (a + b)[1..] == a[1..] + b;
      AmountOfKindConcat(a[1..], b, kind);
    }
  }

  /** Entries whose type is neither "income" nor "expense" move no total. */
  lemma {:induction false} OtherKindsIgnored(l: Ledger, t: Transaction)
    requires t.kind != Income && t.kind != Expense
    ensures CalculateSummary(Add(l, t)) == CalculateSummary(l)
  {
    assert Add(l, t)[1..] == l;
  }

  /** What an entry contributes to the total of type `kind`. */
  function Share(t: Transaction, kind: string): real {
    if t.kind == kind then t.amount else 0.0
  }

  /** Adding an entry raises its own type's total by its amount and leaves
      the other total alone, so an income raises the balance by its amount
      and an expense lowers it by its amount. */
  lemma {:induction false} SummaryAfterAdd(l: Ledger, t: Transaction)
    ensures CalculateSummary(Add(l, t)).income == CalculateSummary(l).income + Share(t, Income)
    ensures CalculateSummary(Add(l, t)).expense == CalculateSummary(l).expense + Share(t, Expense)
    ensures t.kind == Income ==> CalculateSummary(Add(l, t)).balance == CalculateSummary(l).balance + t.amount
    ensures t.kind == Expense ==> CalculateSummary(Add(l, t)).balance == CalculateSummary(l).balance - t.amount
  {
    assert Add(l, t)[1..] == l;
  }

  /** The total of one type after a removal lacks exactly the removed
      entry's contribution. */
  lemma AmountOfKindAfterRemove(l: Ledger, id: string, kind: string)
    requires HasId(l, id)
    ensures var t := l[FindIndex(l, id)];
      AmountOfKind(Remove(l, id), kind)
        == AmountOfKind(l, kind) - Share(t, kind)
  {
    var k := FindIndex(l, id);
    assert l == l[..k] + ([l[k]] + l[k + 1..]);
    assert ([l[k]] + l[k + 1..])[1..] == l[k + 1..];
    AmountOfKindConcat(l[..k], [l[k]] + l[k + 1..], kind);
    AmountOfKindConcat(l[..k], l[k + 1..], kind);
  }

  /** Removing an entry takes its amount back out of its own type's total,
      so removing an income lowers the balance by its amount and removing an
      expense raises it by its amount. */
  lemma SummaryAfterRemove(l: Ledger, id: string)
    requires HasId(l, id)
    ensures var t := l[FindIndex(l, id)];
      CalculateSummary(Remove(l, id)).income == CalculateSummary(l).income - Share(t, Income)
    ensures var t := l[FindIndex(l, id)];
      CalculateSummary(Remove(l, id)).expense == CalculateSummary(l).expense - Share(t, Expense)
    ensures var t := l[FindIndex(l, id)];
      CalculateSummary(Remove(l, id)).balance
        == CalculateSummary(l).balance - Share(t, Income) + Share(t, Expense)
  {
    AmountOfKindAfterRemove(l, id, Income);
    AmountOfKindAfterRemove(l, id, Expense);
  }

  lemma {:induction false} AmountOfKindNonNegative(l: Ledger, kind: string)
    requires AllValid(l)
    ensures AmountOfKind(l, kind) >= 0.0
  {
    if l != [] {
      assert IsValid(l[0]);
      assert AllValid(l[1..]) by {
        forall i | 0 <= i < |l[1..]| ensures IsValid(l[1..][i]) {
          assert l[1..][i] == l[i + 1];
        }
      }
      AmountOfKindNonNegative(l[1..], kind);
    }
  }

  /** A ledger of validated entries has non-negative income and expense. */
  lemma TotalsNonNegative(l: Ledger)
    requires AllValid(l)
    ensures CalculateSummary(l).income >= 0.0 && CalculateSummary(l).expense >= 0.0
  {
    AmountOfKindNonNegative(l, Income);
    AmountOfKindNonNegative(l, Expense);
  }

  /** When every entry is income or expense, the two totals split the sum
      of all amounts. */
  lemma {:induction false} TotalsPartitionAmounts(l: Ledger)
    requires forall i :: 0 <= i < |l| ==> l[i].kind == Income || l[i].kind == Expense
    ensures CalculateSummary(l).income + CalculateSummary(l).expense == Total(l)
  {
    if l != [] {
      TotalsPartitionAmounts(l[1..]);
    }
  }
}
