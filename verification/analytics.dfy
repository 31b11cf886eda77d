/** `FinanceAnalytics.getCategorySpending`: expense totals per category. */
module Analytics {
  import opened Transactions
  import opened Summary

  /** One `forEach` step: `categories[c] = (categories[c] || 0) + t.amount`. */
  function Accumulate(m: map<string, real>, t: Transaction): map<string, real> {
    m[t.category := (if t.category in m then m[t.category] else 0.0) + t.amount]
  }

  /** The `forEach` over the entries, in ledger order. */
  function Fold(m: map<string, real>, l: Ledger): map<string, real>
    decreases |l|
  {
    if l == [] then m else Fold(Accumulate(m, l[0]), l[1..])
  }

  /** The source's computation: keep the expenses, then accumulate. */
  function CategorySpending(l: Ledger): (r: map<string, real>)
    ensures forall c :: c in r <==> exists t :: t in l && t.kind == Expense && t.category == c
    ensures forall c :: c in r ==> r[c] == SpentOn(l, c)
  {
    var expenses := Where(l, OfKind(Expense));
    FoldSpec(map[], expenses);
    forall c | c in Fold(map[], expenses) ensures CategoryTotal(expenses, c) == SpentOn(l, c) {
      ExpensesByCategory(l, c);
    }
    Fold(map[], expenses)
  }

  /** Reference: the amounts of expense entries in category `c`. */
  function SpentOn(l: Ledger, c: string): real {
    if l == [] then 0.0
    else (if l[0].kind == Expense && l[0].category == c then l[0].amount else 0.0)
         + SpentOn(l[1..], c)
  }

  /** The amounts of all entries in category `c`, whatever their type. */
  function CategoryTotal(l: Ledger, c: string): real {
    if l == [] then 0.0
    else (if l[0].category == c then l[0].amount else 0.0) + CategoryTotal(l[1..], c)
  }

  /** Some entry of `l` is in category `c`. */
  predicate HasCategory(l: Ledger, c: string) {
    exists t :: t in l && t.category == c
  }

  /** The fold adds each entry's amount under its category and creates a
      key exactly for the categories it meets. */
  lemma {:induction false} FoldSpec(m: map<string, real>, l: Ledger)
    ensures forall c :: c in Fold(m, l) <==> c in m || HasCategory(l, c)
    ensures forall c :: c in Fold(m, l) ==>
              Fold(m, l)[c] == (if c in m then m[c] else 0.0) + CategoryTotal(l, c)
    decreases |l|
  {
    if l != [] {
      var m' := Accumulate(m, l[0]);
      FoldSpec(m', l[1..]);
      forall c ensures HasCategory(l, c) <==> c == l[0].category || HasCategory(l[1..], c) {
        if HasCategory(l, c) {
          var t :| t in l && t.category == c;
          if t != l[0] {
            var i :| 0 <= i < |l| && l[i] == t;
            assert l[1..][i - 1] == t;
          }
        }
      }
    }
  }

  /** Restricted to expenses, the per-category total is the expense spent
      on that category. */
  lemma {:induction false} ExpensesByCategory(l: Ledger, c: string)
    ensures CategoryTotal(Where(l, OfKind(Expense)), c) == SpentOn(l, c)
  {
    if l != [] {
      ExpensesByCategory(l[1..], c);
      if l[0].kind == Expense {
        assert Where(l, OfKind(Expense)) == [l[0]] + Where(l[1..], OfKind(Expense));
      }
    }
  }

  /** Some key of a non-empty map. */
  ghost function Pick(m: map<string, real>): string
    requires m != map[]
  {
    var k :| k in m; k
  }

  /** The sum of a map's values. */
  ghost function SumValues(m: map<string, real>): real
    decreases |m|
  {
    if m == map[] then 0.0
    else
      var k := Pick(m);
      assert |(m - {k}).Keys| == |m.Keys - {k}| < |m.Keys|;
      m[k] + SumValues(m - {k})
  }

  /** The sum does not depend on which key is taken out first. */
  lemma SumValuesWithout(m: map<string, real>, k: string)
    requires k in m
    ensures SumValues(m) == m[k] + SumValues(m - {k})
    decreases |m|
  {
    var p := Pick(m);
    if p != k {
      assert |(m - {p}).Keys| == |m.Keys - {p}| < |m.Keys|;
      SumValuesWithout(m - {p}, k);
      assert |(m - {k}).Keys| == |m.Keys - {k}| < |m.Keys|;
      SumValuesWithout(m - {k}, p);
      assert m - {p} - {k} == m - {k} - {p};
    }
  }

  lemma SumValuesUpdate(m: map<string, real>, k: string, v: real)
    ensures SumValues(m[k := v]) == SumValues(m) - (if k in m then m[k] else 0.0) + v
  {
    SumValuesWithout(m[k := v], k);
    assert m[k := v] - {k} == m - {k};
    if k in m {
      SumValuesWithout(m, k);
    } else {
      assert m - {k} == m;
    }
  }

  lemma {:induction false} SumValuesFold(m: map<string, real>, l: Ledger)
    ensures SumValues(Fold(m, l)) == SumValues(m) + Total(l)
    decreases |l|
  {
    if l != [] {
      SumValuesFold(Accumulate(m, l[0]), l[1..]);
      var c := l[0].category;
      SumValuesUpdate(m, c, (if c in m then m[c] else 0.0) + l[0].amount);
    }
  }

  /** The per-category expenses add up to the expense total of the summary. */
  lemma CategorySpendingSumsToExpense(l: Ledger)
    ensures SumValues(CategorySpending(l)) == CalculateSummary(l).expense
  {
    SumValuesFold(map[], Where(l, OfKind(Expense)));
    TotalOfKind(l, Expense);
  }
}
