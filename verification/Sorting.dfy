/** Strictly sorted sequences are determined by their elements. */
module Sorting {

  predicate SortedBy<T>(s: seq<T>, less: (T, T) -> bool) {
    forall i, j :: 0 <= i < j < |s| ==> less(s[i], s[j])
  }

  ghost predicate Asymmetric<T(!new)>(less: (T, T) -> bool) {
    forall x, y :: !(less(x, y) && less(y, x))
  }

  lemma LastIsNew<T(!new)>(a: seq<T>, less: (T, T) -> bool)
    requires a != [] && SortedBy(a, less) && Asymmetric(less)
    ensures var m := |a| - 1; forall x :: x in a[..m] <==> x in a && x != a[m]
  {
    var m := |a| - 1;
    assert a == a[..m] + [a[m]];
    forall i | 0 <= i < m ensures a[i] != a[m] {
      assert less(a[i], a[m]);
    }
  }

  lemma {:induction false} SortedUnique<T(!new)>(a: seq<T>, b: seq<T>, less: (T, T) -> bool)
    requires SortedBy(a, less) && SortedBy(b, less) && Asymmetric(less)
    requires forall x :: x in a <==> x in b
    ensures a == b
  {
    assert a != [] ==> a[0] in b;
    assert b != [] ==> b[0] in a;
    if a != [] && b != [] {
      var m, n := |a| - 1, |b| - 1;
      assert a[m] in b && b[n] in a;
      LastIsNew(a, less);
      LastIsNew(b, less);
      SortedUnique(a[..m], b[..n], less);
      assert a == a[..m] + [a[m]] && b == b[..n] + [b[n]];
    }
  }
}
