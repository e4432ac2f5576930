/**
  Ordered selection from a fixed list. The screens build their message and
  label lists by testing a fixed sequence of conditions and keeping, in that
  order, the entry of every condition that holds; `Select` is that pattern.
 */
module Seqs {

  /** `a` can be obtained from `b` by deleting entries: the order of `b` is kept. */
  predicate IsSubsequence<T(==)>(a: seq<T>, b: seq<T>)
    decreases |b|
  {
    if a == [] then true
    else if b == [] then false
    else (a[0] == b[0] && IsSubsequence(a[1..], b[1..])) || IsSubsequence(a, b[1..])
  }

  /** Every entry of a subsequence comes from the longer sequence. */
  lemma {:induction false} SubsequenceMembers<T>(a: seq<T>, b: seq<T>, i: int)
    requires IsSubsequence(a, b) && 0 <= i < |a|
    ensures a[i] in b
    decreases |b|
  {
    if a[0] == b[0] && IsSubsequence(a[1..], b[1..]) {
      if i > 0 {
        SubsequenceMembers(a[1..], b[1..], i - 1);
      }
    } else {
      SubsequenceMembers(a, b[1..], i);
    }
  }

  /** No entry of `s` occurs twice. */
  predicate Distinct<T(==)>(s: seq<T>) {
    forall i, j :: 0 <= i < |s| && 0 <= j < |s| && i != j ==> s[i] != s[j]
  }

  /** The entries `items[i]` whose `keep[i]` holds, in the order of `items`. */
  function Select<T(==)>(keep: seq<bool>, items: seq<T>): (r: seq<T>)
    requires |keep| == |items|
    ensures IsSubsequence(r, items)
    ensures forall i :: 0 <= i < |items| && keep[i] ==> items[i] in r
    ensures forall x :: x in r ==> exists i :: 0 <= i < |items| && items[i] == x && keep[i]
    ensures r == [] <==> forall i :: 0 <= i < |keep| ==> !keep[i]
  {
    if items == [] then []
    else
      var rest := Select(keep[1..], items[1..]);
      assert forall i :: 1 <= i < |items| ==> keep[i] == keep[1..][i - 1] && items[i] == items[1..][i - 1];
      if keep[0] then [items[0]] + rest else rest
  }

  /**
    With distinct items, an item is selected exactly when its condition holds:
    the selection is determined by the conditions.
   */
  lemma {:induction false} SelectMembership<T>(keep: seq<bool>, items: seq<T>, i: int)
    requires |keep| == |items| && Distinct(items)
    requires 0 <= i < |items|
    ensures items[i] in Select(keep, items) <==> keep[i]
  {
    if items[i] in Select(keep, items) {
      var j :| 0 <= j < |items| && items[j] == items[i] && keep[j];
      assert j == i;
    }
  }
}
