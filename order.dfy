/**
 * Strict total orders and strictly sorted sequences: pandas returns the
 * pivot's rows and columns sorted, and a strictly sorted sequence holds each
 * key once.
 */
module Order {

  ghost predicate StrictOrder<T(!new)>(less: (T, T) -> bool) {
    && (forall a :: !less(a, a))
    && (forall a, b, c :: less(a, b) && less(b, c) ==> less(a, c))
    && (forall a, b :: a != b ==> less(a, b) || less(b, a))
  }

  predicate Sorted<T>(s: seq<T>, less: (T, T) -> bool) {
    forall i, j :: 0 <= i < j < |s| ==> less(s[i], s[j])
  }

  /** A strictly sorted sequence has no repeated element. */
  lemma SortedDistinct<T(!new)>(s: seq<T>, less: (T, T) -> bool)
    requires StrictOrder(less) && Sorted(s, less)
    ensures forall i, j :: 0 <= i < |s| && 0 <= j < |s| && i != j ==> s[i] != s[j]
  {
  }

  /** Puts a new element at its place in a strictly sorted sequence. */
  method InsertSorted<T(!new)>(s: seq<T>, x: T, less: (T, T) -> bool) returns (r: seq<T>)
    requires StrictOrder(less) && Sorted(s, less) && x !in s
    ensures Sorted(r, less)
    ensures |r| == |s| + 1
    ensures forall y :: y in r <==> y == x || y in s
  {
    var pos := 0;
    while pos < |s| && less(s[pos], x)
      invariant 0 <= pos <= |s|
      invariant forall k :: 0 <= k < pos ==> less(s[k], x)
    {
      pos := pos + 1;
    }
    assert forall k :: pos <= k < |s| ==> less(x, s[k]) by {
      if pos < |s| {
        assert x != s[pos];
        forall k | pos < k < |s| ensures less(x, s[k]) {
          assert less(s[pos], s[k]);
        }
      }
    }
    r := s[..pos] + [x] + s[pos..];
    assert forall i :: 0 <= i < pos ==> r[i] == s[i];
    assert r[pos] == x;
    assert forall i :: pos < i < |r| ==> r[i] == s[i - 1];
    assert forall y :: y in s <==> y in s[..pos] || y in s[pos..] by {
      assert s == s[..pos] + s[pos..];
    }
  }

  lemma MemberOfNonEmpty<T>(s: seq<T>)
    requires s != []
    ensures s[0] in s
  {
  }

  /** Two strictly sorted sequences with the same elements are the same sequence. */
  lemma {:induction false} SortedUnique<T(!new)>(a: seq<T>, b: seq<T>, less: (T, T) -> bool)
    requires StrictOrder(less) && Sorted(a, less) && Sorted(b, less)
    requires forall x :: x in a <==> x in b
    ensures a == b
  {
    if a == [] {
      if b != [] {
        MemberOfNonEmpty(b);
        assert false;
      }
    } else if b == [] {
      MemberOfNonEmpty(a);
      assert false;
    } else {
      assert a[0] in b && b[0] in a;
      if a[0] != b[0] {
        assert false;
      }
      forall x ensures x in a[1..] <==> x in b[1..] {
        if x in a[1..] {
          var i :| 0 <= i < |a[1..]| && a[1..][i] == x;
          assert less(a[0], a[i + 1]);
          assert x in b;
          var j :| 0 <= j < |b| && b[j] == x;
          assert j != 0;
          assert b[1..][j - 1] == x;
        }
        if x in b[1..] {
          var j :| 0 <= j < |b[1..]| && b[1..][j] == x;
          assert less(b[0], b[j + 1]);
          assert x in a;
          var i :| 0 <= i < |a| && a[i] == x;
          assert i != 0;
          assert a[1..][i - 1] == x;
        }
      }
      SortedUnique(a[1..], b[1..], less);
      assert a == [a[0]] + a[1..] && b == [b[0]] + b[1..];
    }
  }
}
