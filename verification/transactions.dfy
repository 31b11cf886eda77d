/** The ledger record and the order-preserving selection every view of the
    ledger is built from (`Array.prototype.filter`). */
module Transactions {

  /** One ledger entry. `id` is an opaque string (the source derives it from
      the clock, so two entries may share it); `amount` is an exact number. */
  datatype Transaction = Transaction(
    id: string,
    description: string,
    amount: real,
    category: string,
    kind: string)

  /** Newest entry first. */
  type Ledger = seq<Transaction>

  const Income: string := "income"
  const Expense: string := "expense"

  /** `a` is `b` with some entries deleted and the rest in their original order. */
  predicate IsSubsequence<T(==)>(a: seq<T>, b: seq<T>)
    decreases |b|
  {
    if a == [] then true
    else if b == [] then false
    else if a[0] == b[0] then IsSubsequence(a[1..], b[1..])
    else IsSubsequence(a, b[1..])
  }

  /** Keeps the entries `p` accepts, in ledger order (each as often as it
      occurs in the ledger: `WhereCounts`). */
  function Where(l: Ledger, p: Transaction -> bool): (r: Ledger)
    ensures |r| <= |l|
    ensures forall t :: t in r <==> t in l && p(t)
    ensures forall i :: 0 <= i < |r| ==> p(r[i])
    ensures IsSubsequence(r, l)
  {
    if l == [] then []
    else
      var rest := Where(l[1..], p);
      if p(l[0]) then
        assert ([l[0]] + rest)[1..] == rest;
        [l[0]] + rest
      else
        SubsequenceOfTail(rest, l);
        rest
  }

  /** `Where` keeps every accepted entry as many times as the ledger holds
      it, and no rejected one: duplicates are neither merged nor dropped. */
  lemma {:induction false} WhereCounts(l: Ledger, p: Transaction -> bool)
    ensures forall t :: multiset(Where(l, p))[t] == if p(t) then multiset(l)[t] else 0
  {
    if l != [] {
      WhereCounts(l[1..], p);
      assert l == [l[0]] + l[1..];
    }
  }

  /** The selector for `t.type === kind`. */
  function OfKind(kind: string): Transaction -> bool {
    (t: Transaction) => t.kind == kind
  }

  /** The selector for `t.category === category`. */
  function OfCategory(category: string): Transaction -> bool {
    (t: Transaction) => t.category == category
  }

  lemma {:induction false} SubsequenceDropHead<T>(a: seq<T>, b: seq<T>)
    requires a != [] && IsSubsequence(a, b)
    ensures IsSubsequence(a[1..], b)
    decreases |b|
  {
    if a[0] == b[0] {
      if a[1..] != [] {
        SubsequenceDropHead(a[1..], b[1..]);
        SubsequenceOfTail(a[1..], b);
      }
    } else {
      SubsequenceDropHead(a, b[1..]);
      if a[1..] != [] {
        SubsequenceOfTail(a[1..], b);
      }
    }
  }

  /** A subsequence of the tail is a subsequence of the whole. */
  lemma {:induction false} SubsequenceOfTail<T>(a: seq<T>, b: seq<T>)
    requires b != [] && IsSubsequence(a, b[1..])
    ensures IsSubsequence(a, b)
    decreases |b|, 1
  {
    if a != [] && a[0] == b[0] {
      SubsequenceDropHead(a, b[1..]);
    }
  }

  lemma {:induction false} SubsequenceReflexive<T>(a: seq<T>)
    ensures IsSubsequence(a, a)
  {
    if a != [] {
      SubsequenceReflexive(a[1..]);
    }
  }

  /** Deleting the entry at `k` (`splice(k, 1)`) leaves a subsequence. */
  lemma {:induction false} SpliceIsSubsequence<T>(l: seq<T>, k: nat)
    requires k < |l|
    ensures IsSubsequence(l[..k] + l[k + 1..], l)
  {
    if k == 0 {
      assert l[..k] + l[k + 1..] == l[1..];
      SubsequenceReflexive(l[1..]);
      SubsequenceOfTail(l[1..], l);
    } else {
      var r := l[..k] + l[k + 1..];
      assert r[0] == l[0];
      assert r[1..] == l[1..][..k - 1] + l[1..][k..];
      SpliceIsSubsequence(l[1..], k - 1);
    }
  }

  /** Two filters in a row select what one filter with both tests selects. */
  lemma {:induction false} WhereFusion(l: Ledger, p: Transaction -> bool, q: Transaction -> bool,
                                       both: Transaction -> bool)
    requires forall t :: both(t) == (p(t) && q(t))
    ensures Where(Where(l, p), q) == Where(l, both)
  {
    if l != [] {
      WhereFusion(l[1..], p, q, both);
      if p(l[0]) {
        assert Where(l, p)[1..] == Where(l[1..], p);
      }
    }
  }

  /** A filter that accepts every entry of the ledger returns the ledger. */
  lemma {:induction false} WhereKeepsAll(l: Ledger, p: Transaction -> bool)
    requires forall i :: 0 <= i < |l| ==> p(l[i])
    ensures Where(l, p) == l
  {
    if l != [] {
      WhereKeepsAll(l[1..], p);
    }
  }

  /** Filters that agree on every entry select the same entries. */
  lemma {:induction false} WhereAgrees(l: Ledger, p: Transaction -> bool, q: Transaction -> bool)
    requires forall t :: p(t) == q(t)
    ensures Where(l, p) == Where(l, q)
  {
    if l != [] {
      WhereAgrees(l[1..], p, q);
    }
  }
}
