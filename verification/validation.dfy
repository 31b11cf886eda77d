/** `FinanceTracker.validateTransaction`: four checks run in a fixed order,
    and the first one that fails is the one reported. */
module Validation {
  import opened Wrappers
  import opened Text
  import opened Transactions

  /** The four checks, in the order the source runs them. */
  datatype ValidationError =
    | BlankDescription
    | InvalidAmount
    | MissingCategory
    | MissingKind

  /** Position of a check in the validation order. */
  function Rank(e: ValidationError): nat {
    match e
    case BlankDescription => 0
    case InvalidAmount => 1
    case MissingCategory => 2
    case MissingKind => 3
  }

  /** The toast text shown for each failed check. */
  function Message(e: ValidationError): string {
    match e
    case BlankDescription => "Please enter a description"
    case InvalidAmount => "Please enter a valid amount"
    case MissingCategory => "Please select a category"
    case MissingKind => "Please select transaction type"
  }

  /** Each failed check has its own toast, so the text tells the user which
      field to fix. */
  lemma MessageIdentifiesCheck(a: ValidationError, b: ValidationError)
    ensures Message(a) == Message(b) <==> a == b
  {
  }

  /** An empty or whitespace-only description: exactly the descriptions for
      which `trim()` gives the empty string (`Text.TrimEmptyIffAllWhitespace`). */
  predicate IsBlank(s: string) {
    AllWhitespace(s)
  }

  /** The source's test `!d || d.trim() === ''` is the blank test. */
  lemma BlankIsTrimEmpty(d: string)
    ensures (d == [] || Trim(d) == []) <==> IsBlank(d)
  {
    TrimEmptyIffAllWhitespace(d);
  }

  /** Whether the check `e`, taken on its own, rejects `t`. */
  predicate Fails(t: Transaction, e: ValidationError) {
    match e
    case BlankDescription => IsBlank(t.description)
    case InvalidAmount => t.amount <= 0.0
    case MissingCategory => t.category == []
    case MissingKind => t.kind == []
  }

  /** The ordered validation: passes only if no check fails, and otherwise
      names the earliest failing check. */
  function Validate(t: Transaction): (r: Outcome<ValidationError>)
    ensures r.Pass? <==> forall e :: !Fails(t, e)
    ensures r.Fail? ==> Fails(t, r.error)
    ensures r.Fail? ==> forall e :: Rank(e) < Rank(r.error) ==> !Fails(t, e)
  {
    if IsBlank(t.description) then
      assert Fails(t, BlankDescription);
      Fail(BlankDescription)
    else if t.amount <= 0.0 then
      assert Fails(t, InvalidAmount);
      Fail(InvalidAmount)
    else if t.category == [] then
      assert Fails(t, MissingCategory);
      Fail(MissingCategory)
    else if t.kind == [] then
      assert Fails(t, MissingKind);
      Fail(MissingKind)
    else Pass
  }

  predicate IsValid(t: Transaction) {
    Validate(t).Pass?
  }

  /** Every entry of the ledger passed validation. */
  predicate AllValid(l: Ledger) {
    forall i :: 0 <= i < |l| ==> IsValid(l[i])
  }

  /** A valid entry has a description with a non-whitespace character, a
      positive amount, and non-empty category and type. The type is only
      required to be non-empty: any non-empty label passes. */
  lemma ValidMeans(t: Transaction)
    ensures IsValid(t) <==>
      (exists i :: 0 <= i < |t.description| && !IsWhitespace(t.description[i]))
      && t.amount > 0.0 && t.category != [] && t.kind != []
  {
    assert IsValid(t) <==> !Fails(t, BlankDescription) && !Fails(t, InvalidAmount)
                           && !Fails(t, MissingCategory) && !Fails(t, MissingKind);
  }

  /** A record whose description starts with a visible character, with a
      positive amount and non-empty category and type, passes validation. */
  lemma PassesWhen(t: Transaction)
    requires t.description != [] && !IsWhitespace(t.description[0])
    requires t.amount > 0.0 && t.category != [] && t.kind != []
    ensures Validate(t) == Pass
  {
    assert !IsBlank(t.description);
  }
}
