/** `FinanceTracker.getFilteredTransactions`: the list view's category and
    type filters, where the value "all" lets everything through. */
module Filters {
  import opened Transactions

  /** The filter value that disables a filter. */
  const All: string := "all"

  /** Whether an entry passes both filters. */
  predicate Matches(t: Transaction, categoryFilter: string, kindFilter: string) {
    && (categoryFilter == All || t.category == categoryFilter)
    && (kindFilter == All || t.kind == kindFilter)
  }

  function Selector(categoryFilter: string, kindFilter: string): Transaction -> bool {
    (t: Transaction) => Matches(t, categoryFilter, kindFilter)
  }

  /** The source's two passes: by category unless "all", then by type
      unless "all". The result is the single pass that applies both tests:
      the matching entries, in ledger order, each as often as in the ledger (`Transactions.WhereCounts`). */
  function GetFiltered(l: Ledger, categoryFilter: string, kindFilter: string): (r: Ledger)
    ensures r == Where(l, Selector(categoryFilter, kindFilter))
    ensures IsSubsequence(r, l)
    ensures forall t :: t in r <==> t in l && Matches(t, categoryFilter, kindFilter)
    ensures categoryFilter == All && kindFilter == All ==> r == l
  {
    var byCategory := if categoryFilter != All then Where(l, OfCategory(categoryFilter)) else l;
    var r := if kindFilter != All then Where(byCategory, OfKind(kindFilter)) else byCategory;
    TwoPassesAreOne(l, categoryFilter, kindFilter);
    r
  }

  lemma TwoPassesAreOne(l: Ledger, categoryFilter: string, kindFilter: string)
    ensures var byCategory := if categoryFilter != All then Where(l, OfCategory(categoryFilter)) else l;
      (if kindFilter != All then Where(byCategory, OfKind(kindFilter)) else byCategory)
        == Where(l, Selector(categoryFilter, kindFilter))
  {
    var sel := Selector(categoryFilter, kindFilter);
    if categoryFilter != All && kindFilter != All {
      WhereFusion(l, OfCategory(categoryFilter), OfKind(kindFilter), sel);
    } else if categoryFilter != All {
      WhereAgrees(l, OfCategory(categoryFilter), sel);
    } else if kindFilter != All {
      WhereAgrees(l, OfKind(kindFilter), sel);
    } else {
      WhereKeepsAll(l, sel);
    }
  }

  /** Filtering by one category alone keeps exactly that category's entries,
      in ledger order. */
  lemma CategoryOnly(l: Ledger, category: string)
    requires category != All
    ensures GetFiltered(l, category, All) == Where(l, OfCategory(category))
    ensures forall i :: 0 <= i < |GetFiltered(l, category, All)| ==>
              GetFiltered(l, category, All)[i].category == category
  {
  }
}
