/** `FinanceTracker.getCategoryEmoji`: the symbol shown beside a category. */
module Emoji {

  /** The symbol for any label the table does not list (a memo pad). */
  const Fallback: string := "\U{1F4DD}"

  /** The twelve categories the form offers and their symbols. */
  const Table: map<string, string> := map[
    "Food" := "\U{1F354}",          // hamburger
    "Transport" := "\U{1F697}",     // car
    "Entertainment" := "\U{1F3AC}", // clapper board
    "Shopping" := "\U{1F6D2}",      // shopping cart
    "Bills" := "\U{1F4A1}",         // light bulb
    "Healthcare" := "\U{1F3E5}",    // hospital
    "Education" := "\U{1F4DA}",     // books
    "Salary" := "\U{1F4B0}",        // money bag
    "Business" := "\U{1F4BC}",      // briefcase
    "Investment" := "\U{1F4C8}",    // chart increasing
    "Gift" := "\U{1F381}",          // wrapped gift
    "Other" := Fallback
  ]

  /** `emojiMap[category] || fallback`: a listed label's symbol, otherwise
      the fallback. No entry is the empty string, so `||` never falls
      through for a listed label. Each symbol is a single code point
      (two UTF-16 units in JavaScript). */
  function CategoryEmoji(category: string): (r: string)
    ensures |r| == 1
    ensures r in Table.Values
    ensures category !in Table ==> r == Fallback
    ensures category in Table ==> r == Table[category]
  {
    if category in Table && Table[category] != "" then Table[category]
    else
      assert Table["Other"] == Fallback;
      Fallback
  }

  /** Only "Other" and unlisted labels get the fallback symbol, and the
      eleven other listed categories get pairwise distinct symbols, so the
      symbol identifies the category. */
  lemma SymbolIdentifiesCategory(a: string, b: string)
    ensures CategoryEmoji(a) == Fallback <==> a == "Other" || a !in Table
    ensures CategoryEmoji(a) == CategoryEmoji(b) && CategoryEmoji(a) != Fallback ==> a == b
  {
  }
}
