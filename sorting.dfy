/**
 * Python's `list.sort(key=..., reverse=...)` on string keys: an in-place sort of
 * an array into non-decreasing (or, reversed, non-increasing) key order.
 */
module Sorting {
  import opened Text

  /** `x` may stand before `y`: its key is not greater (not smaller, when descending). */
  predicate InOrder(x: string, y: string, descending: bool) {
    if descending then StrLe(y, x) else StrLe(x, y)
  }

  /** Every earlier element may stand before every later one. */
  predicate SortedBy<T>(s: seq<T>, key: T -> string, descending: bool) {
    forall i, j :: 0 <= i < j < |s| ==> InOrder(key(s[i]), key(s[j]), descending)
  }

  lemma InOrderTransitive(x: string, y: string, z: string, descending: bool)
    requires InOrder(x, y, descending) && InOrder(y, z, descending)
    ensures InOrder(x, z, descending)
  {
    if descending { StrLeTransitive(z, y, x); } else { StrLeTransitive(x, y, z); }
  }

  lemma InOrderTotal(x: string, y: string, descending: bool)
    ensures InOrder(x, y, descending) || InOrder(y, x, descending)
  {
    StrLeTotal(x, y);
  }

  /**
   * Insertion sort: each element in turn is moved left past the elements that
   * must come after it. Only strictly out-of-order neighbours are swapped.
   */
  method Sort<T>(a: array<T>, key: T -> string, descending: bool)
    modifies a
    ensures SortedBy(a[..], key, descending)
    ensures multiset(a[..]) == multiset(old(a[..]))
  {
    if a.Length == 0 { return; }
    var i := 1;
    assert a[..i] == [a[0]];
    while i < a.Length
      invariant 1 <= i <= a.Length
      invariant SortedBy(a[..i], key, descending)
      invariant multiset(a[..]) == multiset(old(a[..]))
    {
      Insert(a, i, key, descending);
      i := i + 1;
    }
  }

  /**
   * The state of one insertion in `s`: the moving element sits at `j`, the part
   * before it and the part after it are each sorted, everything before may stand
   * before everything after, and the moving element may stand before all that follows.
   */
  predicate Inserting<T>(s: seq<T>, j: nat, key: T -> string, descending: bool) {
    && j < |s|
    && SortedBy(s[..j], key, descending)
    && SortedBy(s[j + 1..], key, descending)
    && (forall p, q :: 0 <= p < j < q < |s| ==> InOrder(key(s[p]), key(s[q]), descending))
    && (forall q :: j < q < |s| ==> InOrder(key(s[j]), key(s[q]), descending))
  }

  /** Swapping the moving element with a neighbour that must come after it keeps the state. */
  lemma SwapKeepsInserting<T>(s: seq<T>, j: nat, key: T -> string, descending: bool)
    requires Inserting(s, j, key, descending) && 0 < j
    requires !InOrder(key(s[j - 1]), key(s[j]), descending)
    ensures Inserting(s[j - 1 := s[j]][j := s[j - 1]], j - 1, key, descending)
  {
    InOrderTotal(key(s[j - 1]), key(s[j]), descending);
    var t := s[j - 1 := s[j]][j := s[j - 1]];
    assert t[..j - 1] == s[..j - 1];
    assert SortedBy(t[..j - 1], key, descending) by {
      assert forall p :: 0 <= p < j - 1 ==> s[..j][p] == s[p];
    }
    forall p, q | j <= p < q < |t|
      ensures InOrder(key(t[p]), key(t[q]), descending)
    {
      if p == j {
        assert s[..j][j - 1] == s[j - 1];
      } else {
        assert s[j + 1..][p - j - 1] == s[p] && s[j + 1..][q - j - 1] == s[q];
      }
    }
    forall p, q | 0 <= p < j - 1 < q < |t|
      ensures InOrder(key(t[p]), key(t[q]), descending)
    {
      if q == j {
        assert s[..j][p] == s[p] && s[..j][j - 1] == s[j - 1];
      }
    }
  }

  /** An insertion that has stopped leaves the whole of `s` sorted. */
  lemma InsertingDone<T>(s: seq<T>, j: nat, key: T -> string, descending: bool)
    requires Inserting(s, j, key, descending)
    requires j == 0 || InOrder(key(s[j - 1]), key(s[j]), descending)
    ensures SortedBy(s, key, descending)
  {
    forall p, q | 0 <= p < q < |s|
      ensures InOrder(key(s[p]), key(s[q]), descending)
    {
      if q == j {
        if p < j - 1 {
          assert s[..j][p] == s[p] && s[..j][j - 1] == s[j - 1];
          InOrderTransitive(key(s[p]), key(s[j - 1]), key(s[j]), descending);
        }
      } else if j < p {
        assert s[j + 1..][p - j - 1] == s[p] && s[j + 1..][q - j - 1] == s[q];
      } else if q < j {
        assert s[..j][p] == s[p] && s[..j][q] == s[q];
      }
    }
  }

  /** Move `a[i]` left into the sorted prefix `a[..i]`, leaving `a[..i + 1]` sorted. */
  method Insert<T>(a: array<T>, i: nat, key: T -> string, descending: bool)
    requires i < a.Length && SortedBy(a[..i], key, descending)
    modifies a
    ensures SortedBy(a[..i + 1], key, descending)
    ensures multiset(a[..]) == multiset(old(a[..]))
    ensures a[i + 1..] == old(a[i + 1..])
  {
    var j := i;
    assert a[..i + 1][..i] == a[..i] && a[..i + 1][i + 1..] == [];
    while j > 0 && !InOrder(key(a[j - 1]), key(a[j]), descending)
      invariant 0 <= j <= i
      invariant multiset(a[..]) == multiset(old(a[..]))
      invariant a[i + 1..] == old(a[i + 1..])
      invariant Inserting(a[..i + 1], j, key, descending)
    {
      ghost var s := a[..i + 1];
      SwapKeepsInserting(s, j, key, descending);
      Swap(a, j - 1, j);
      assert a[..i + 1] == s[j - 1 := s[j]][j := s[j - 1]];
      j := j - 1;
    }
    InsertingDone(a[..i + 1], j, key, descending);
  }

  /** Exchange two elements; nothing else changes and no element is lost. */
  method Swap<T>(a: array<T>, i: nat, j: nat)
    requires i < j < a.Length
    modifies a
    ensures a[..] == old(a[..])[i := old(a[j])][j := old(a[i])]
    ensures multiset(a[..]) == multiset(old(a[..]))
    ensures a[j + 1..] == old(a[j + 1..])
  {
    a[i], a[j] := a[j], a[i];
  }
}
