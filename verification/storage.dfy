/** `FinanceTracker.loadFromStorage`, with the storage read and `JSON.parse`
    passed in: the browser's storage and JSON codec are not part of this model. */
module Storage {
  import opened Wrappers
  import opened Transactions

  /** `data` is what the `finance-tracker-data` key holds (`None` for `null`); `parse` stands for
      `JSON.parse`, giving `None` where it throws. A missing, empty or
      unparsable blob yields the empty ledger instead of an error. */
  function Load(data: Option<string>, parse: string -> Option<Ledger>): (r: Ledger)
    ensures data.None? || data.value == [] ==> r == []
    ensures r == [] || (data.Some? && parse(data.value) == Some(r))
    ensures data.Some? && data.value != [] && parse(data.value).Some? ==> r == parse(data.value).value
  {
    match data
    case None => []
    case Some(text) =>
      if text == [] then []
      else parse(text).GetOr([])
  }

  /** Given a codec that reads back what it writes, loading what was saved
      gives back the saved ledger. */
  lemma LoadAfterSave(l: Ledger, serialize: Ledger -> string, parse: string -> Option<Ledger>)
    requires serialize(l) != [] && parse(serialize(l)) == Some(l)
    ensures Load(Some(serialize(l)), parse) == l
  {
  }
}
