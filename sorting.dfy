/** Ordering of names and the in-place sort used for country lists
    (`Array.prototype.sort` with a comparator) and for Mongo's `sort`. */
module Sorting {

  /** Lexicographic order by character code; a proper prefix comes first. */
  predicate LexLeq(a: string, b: string)
  {
    a == [] || (b != [] && (a[0] < b[0] || (a[0] == b[0] && LexLeq(a[1..], b[1..]))))
  }

  lemma {:induction false} LexLeqTotal(a: string, b: string)
    ensures LexLeq(a, b) || LexLeq(b, a)
  {
    if a != [] && b != [] && a[0] == b[0] {
      LexLeqTotal(a[1..], b[1..]);
    }
  }

  lemma {:induction false} LexLeqTransitive(a: string, b: string, c: string)
    requires LexLeq(a, b) && LexLeq(b, c)
    ensures LexLeq(a, c)
  {
    if a != [] && b != [] && c != [] && a[0] == b[0] == c[0] {
      LexLeqTransitive(a[1..], b[1..], c[1..]);
    }
  }

  /** `leq` is a total preorder: any two elements compare, and the
      comparison is transitive. This is what a sort comparator must be. */
  ghost predicate TotalPreorder<T(!new)>(leq: (T, T) -> bool)
  {
    && (forall x, y :: leq(x, y) || leq(y, x))
    && (forall x, y, z :: leq(x, y) && leq(y, z) ==> leq(x, z))
  }

  ghost predicate SortedBy<T>(s: seq<T>, leq: (T, T) -> bool)
  {
    forall i, j :: 0 <= i < j < |s| ==> leq(s[i], s[j])
  }

  /** One insertion step: `a[i]` moves left, by adjacent swaps, past the
      elements of the sorted prefix `a[..i]` that it must precede. */
  method InsertAt<T(!new)>(a: array<T>, i: nat, leq: (T, T) -> bool)
    requires TotalPreorder(leq)
    requires i < a.Length && SortedBy(a[..i], leq)
    modifies a
    ensures SortedBy(a[..i + 1], leq)
    ensures a[i + 1..] == old(a[i + 1..])
    ensures multiset(a[..]) == old(multiset(a[..]))
  {
    var j := i;
    while j > 0 && !leq(a[j - 1], a[j])
      invariant 0 <= j <= i
      invariant forall k, l :: 0 <= k < l <= i && k != j && l != j ==> leq(a[k], a[l])
      invariant forall l :: j < l <= i ==> leq(a[j], a[l])
      invariant a[i + 1..] == old(a[i + 1..])
      invariant multiset(a[..]) == old(multiset(a[..]))
    {
      a[j - 1], a[j] := a[j], a[j - 1];
      j := j - 1;
    }
  }

  /** Insertion sort in place: the array ends up ordered by `leq` and holds
      the same elements as before. */
  method SortBy<T(!new)>(a: array<T>, leq: (T, T) -> bool)
    requires TotalPreorder(leq)
    modifies a
    ensures SortedBy(a[..], leq)
    ensures multiset(a[..]) == old(multiset(a[..]))
  {
    var i := 0;
    while i < a.Length
      invariant 0 <= i <= a.Length
      invariant SortedBy(a[..i], leq)
      invariant multiset(a[..]) == old(multiset(a[..]))
    {
      InsertAt(a, i, leq);
      i := i + 1;
    }
    assert a[..] == a[..a.Length];
  }
}
