/** The ledger mutators of `FinanceTracker`: building a candidate from the
    form, validating and prepending it, and deleting by id. */
module LedgerOps {
  import opened Wrappers
  import opened Text
  import opened Transactions
  import opened Validation

  /** The record `handleFormSubmit` assembles. `id` stands for the clock
      reading, `parsedAmount` for `parseFloat` of the amount field (`None`
      for `NaN`), `checkedType` for the selected radio button, if any. */
  function Candidate(id: string, rawDescription: string, parsedAmount: Option<real>,
                     category: string, checkedType: Option<string>): (t: Transaction)
    ensures t.id == id && t.category == category
    ensures exists i, j :: IsCoreSlice(rawDescription, t.description, i, j)
    ensures HasVisibleEnds(t.description)
    ensures parsedAmount.Some? ==> t.amount == parsedAmount.value
    ensures parsedAmount.None? ==> t.amount == 0.0
    ensures checkedType.Some? ==> t.kind == checkedType.value
    ensures checkedType.None? ==> t.kind == []
  {
    Transaction(id, Trim(rawDescription), parsedAmount.GetOr(0.0), category, checkedType.GetOr([]))
  }

  /** `addTransaction`: `unshift` puts the new entry at the head. */
  function Add(l: Ledger, t: Transaction): (r: Ledger)
    ensures |r| == |l| + 1
    ensures r[0] == t && r[1..] == l
    ensures IsSubsequence(l, r)
  {
    SubsequenceReflexive(l);
    SubsequenceOfTail(l, [t] + l);
    [t] + l
  }

  /** `k` is the position of the first entry whose id is `id`. */
  predicate IsFirstMatch(l: Ledger, id: string, k: int) {
    && 0 <= k < |l|
    && l[k].id == id
    && forall j :: 0 <= j < k ==> l[j].id != id
  }

  predicate HasId(l: Ledger, id: string) {
    exists i :: 0 <= i < |l| && l[i].id == id
  }

  /** `findIndex(t => t.id === id)`: the first matching position, or -1. */
  function FindIndex(l: Ledger, id: string): (k: int)
    ensures k == -1 <==> !HasId(l, id)
    ensures k != -1 ==> IsFirstMatch(l, id, k)
  {
    if l == [] then -1
    else if l[0].id == id then 0
    else
      var k := FindIndex(l[1..], id);
      if k == -1 then
        assert forall i :: 1 <= i < |l| ==> l[i] == l[1..][i - 1];
        -1
      else
        assert forall j :: 1 <= j < k + 1 ==> l[j] == l[1..][j - 1];
        k + 1
  }

  /** `removeTransaction`: deletes the first entry with the given id
      (`splice(index, 1)`); an absent id leaves the ledger as it was. Later
      entries sharing that id stay. */
  function Remove(l: Ledger, id: string): (r: Ledger)
    ensures !HasId(l, id) ==> r == l
    ensures HasId(l, id) ==> |r| == |l| - 1
    ensures HasId(l, id) ==> exists k :: IsFirstMatch(l, id, k) && r == l[..k] + l[k + 1..]
    ensures IsSubsequence(r, l)
  {
    var k := FindIndex(l, id);
    if k == -1 then
      SubsequenceReflexive(l);
      l
    else
      SpliceIsSubsequence(l, k);
      l[..k] + l[k + 1..]
  }

  /** The form-submit path: an invalid candidate is reported and the ledger
      is untouched; a valid one is added. */
  function Submit(l: Ledger, t: Transaction): (r: Result<Ledger, ValidationError>)
    ensures r.Success? <==> IsValid(t)
    ensures r.Success? ==> r.value == Add(l, t)
    ensures r.Failure? ==> Validate(t) == Fail(r.error)
  {
    match Validate(t)
    case Pass => Success(Add(l, t))
    case Fail(e) => Failure(e)
  }

  /** Number of entries carrying `id`. */
  function CountId(l: Ledger, id: string): nat {
    if l == [] then 0 else (if l[0].id == id then 1 else 0) + CountId(l[1..], id)
  }

  lemma {:induction false} CountIdConcat(a: Ledger, b: Ledger, id: string)
    ensures CountId(a + b, id) == CountId(a, id) + CountId(b, id)
  {
    if a == [] {
      assert a + b == b;
    } else {
      assert (a + b)[1..] == a[1..] + b;
      CountIdConcat(a[1..], b, id);
    }
  }

  lemma {:induction false} CountIdPositive(l: Ledger, id: string)
    ensures CountId(l, id) > 0 <==> HasId(l, id)
  {
    if l != [] {
      CountIdPositive(l[1..], id);
      if HasId(l[1..], id) {
        var i :| 0 <= i < |l[1..]| && l[1..][i].id == id;
        assert l[i + 1].id == id;
      }
      if HasId(l, id) && l[0].id != id {
        var i :| 0 <= i < |l| && l[i].id == id;
        assert l[1..][i - 1].id == id;
      }
    }
  }

  /** Removing deletes exactly one entry carrying the id: every other entry
      with that id (a duplicate from a clock collision) is kept. */
  lemma RemoveDeletesOneOccurrence(l: Ledger, id: string, other: string)
    requires HasId(l, id)
    ensures CountId(Remove(l, id), id) == CountId(l, id) - 1
    ensures other != id ==> CountId(Remove(l, id), other) == CountId(l, other)
    ensures HasId(Remove(l, id), id) <==> CountId(l, id) > 1
  {
    var k := FindIndex(l, id);
    assert l == l[..k] + [l[k]] + l[k + 1..];
    CountIdConcat(l[..k] + [l[k]], l[k + 1..], id);
    CountIdConcat(l[..k], [l[k]], id);
    CountIdConcat(l[..k], l[k + 1..], id);
    CountIdConcat(l[..k] + [l[k]], l[k + 1..], other);
    CountIdConcat(l[..k], [l[k]], other);
    CountIdConcat(l[..k], l[k + 1..], other);
    CountIdPositive(Remove(l, id), id);
  }

  /** Removing by the id just added undoes the add, whether or not that id
      already occurs further down the ledger. */
  lemma AddThenRemove(l: Ledger, t: Transaction)
    ensures Remove(Add(l, t), t.id) == l
  {
    assert FindIndex(Add(l, t), t.id) == 0;
  }

  /** Adding a valid entry and removing any entry keep every entry valid. */
  lemma MutatorsPreserveValidity(l: Ledger, t: Transaction, id: string)
    requires AllValid(l)
    ensures Submit(l, t).Success? ==> AllValid(Submit(l, t).value)
    ensures AllValid(Remove(l, id))
  {
    var r := Remove(l, id);
    if HasId(l, id) {
      var k :| IsFirstMatch(l, id, k) && r == l[..k] + l[k + 1..];
      forall i | 0 <= i < |r| ensures IsValid(r[i]) {
        if i < k { assert r[i] == l[i]; } else { assert r[i] == l[i + 1]; }
      }
    }
  }
}
