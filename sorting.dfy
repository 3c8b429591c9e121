/**
 * `Array.prototype.sort()` without a comparator on an array of strings: the
 * strings in ascending order of their characters, a proper prefix first.
 * `SortOwners` is an insertion sort; it is proved to return a sorted
 * permutation of its input, to leave a sorted list as it is, and to give
 * two lists the same result exactly when they hold the same strings.
 */
module Sorting {

  /** `a` comes no later than `b` in the order `sort()` uses for strings. */
  predicate Le(a: string, b: string)
    decreases |a|
  {
    a == [] || (b != [] && (a[0] < b[0] || (a[0] == b[0] && Le(a[1..], b[1..]))))
  }

  lemma {:induction false} LeRefl(a: string)
    ensures Le(a, a)
    decreases |a|
  {
    if a != [] {
      LeRefl(a[1..]);
    }
  }

  lemma {:induction false} LeTotal(a: string, b: string)
    ensures Le(a, b) || Le(b, a)
    decreases |a|
  {
    if a != [] && b != [] && a[0] == b[0] {
      LeTotal(a[1..], b[1..]);
    }
  }

  lemma {:induction false} LeAntisymmetric(a: string, b: string)
    requires Le(a, b) && Le(b, a)
    ensures a == b
    decreases |a|
  {
    if a != [] {
      LeAntisymmetric(a[1..], b[1..]);
      assert a == [a[0]] + a[1..] && b == [b[0]] + b[1..];
    }
  }

  lemma {:induction false} LeTransitive(a: string, b: string, c: string)
    requires Le(a, b) && Le(b, c)
    ensures Le(a, c)
    decreases |a|
  {
    if a != [] && a[0] == b[0] && b[0] == c[0] {
      LeTransitive(a[1..], b[1..], c[1..]);
    }
  }

  predicate IsSorted(xs: seq<string>) {
    forall i, j :: 0 <= i < j < |xs| ==> Le(xs[i], xs[j])
  }

  /** `x` placed before the first element it does not come after. */
  function Insert(x: string, xs: seq<string>): (r: seq<string>)
    ensures |r| == |xs| + 1
  {
    if xs == [] then [x]
    else if Le(x, xs[0]) then [x] + xs
    else [xs[0]] + Insert(x, xs[1..])
  }

  /** `owners.sort()`: the owners in ascending order. */
  function SortOwners(xs: seq<string>): (r: seq<string>)
    ensures |r| == |xs|
  {
    if xs == [] then [] else Insert(xs[0], SortOwners(xs[1..]))
  }

  lemma {:induction false} InsertPermutes(x: string, xs: seq<string>)
    ensures multiset(Insert(x, xs)) == multiset{x} + multiset(xs)
    decreases |xs|
  {
    if xs != [] && !Le(x, xs[0]) {
      InsertPermutes(x, xs[1..]);
      assert xs == [xs[0]] + xs[1..];
    }
  }

  lemma {:induction false} InsertSorted(x: string, xs: seq<string>)
    requires IsSorted(xs)
    ensures IsSorted(Insert(x, xs))
    decreases |xs|
  {
    if xs != [] {
      if Le(x, xs[0]) {
        var r := [x] + xs;
        forall i, j | 0 <= i < j < |r| ensures Le(r[i], r[j]) {
          if i == 0 {
            if j > 1 {
              LeTransitive(x, xs[0], xs[j - 1]);
            }
          } else {
            assert r[i] == xs[i - 1] && r[j] == xs[j - 1];
          }
        }
      } else {
        LeTotal(x, xs[0]);
        InsertSorted(x, xs[1..]);
        InsertPermutes(x, xs[1..]);
        SortedHead(xs[0], xs[1..], Insert(x, xs[1..]), x);
      }
    }
  }

  /** A head no later than everything after it, in front of a sorted list, keeps it sorted. */
  lemma SortedHead(h: string, rest: seq<string>, t: seq<string>, x: string)
    requires IsSorted([h] + rest) && Le(h, x) && IsSorted(t)
    requires multiset(t) == multiset{x} + multiset(rest)
    ensures IsSorted([h] + t)
  {
    var r := [h] + t;
    forall i, j | 0 <= i < j < |r| ensures Le(r[i], r[j]) {
      if i == 0 {
        var y := t[j - 1];
        assert r[0] == h && r[j] == y;
        assert y in multiset(t);
        if y != x {
          assert y in multiset(rest);
          var k :| 0 <= k < |rest| && rest[k] == y;
          assert ([h] + rest)[0] == h && ([h] + rest)[k + 1] == y;
          assert Le(([h] + rest)[0], ([h] + rest)[k + 1]);
        }
      } else {
        assert r[i] == t[i - 1] && r[j] == t[j - 1];
      }
    }
  }

  /** The result of `sort()` is in order and holds exactly the input strings. */
  lemma {:induction false} SortOwnersCorrect(xs: seq<string>)
    ensures IsSorted(SortOwners(xs))
    ensures multiset(SortOwners(xs)) == multiset(xs)
    decreases |xs|
  {
    if xs != [] {
      SortOwnersCorrect(xs[1..]);
      InsertSorted(xs[0], SortOwners(xs[1..]));
      InsertPermutes(xs[0], SortOwners(xs[1..]));
      assert xs == [xs[0]] + xs[1..];
    }
  }

  /** Sorting a sorted list changes nothing, so sorting twice is sorting once. */
  lemma {:induction false} SortOwnersSorted(xs: seq<string>)
    requires IsSorted(xs)
    ensures SortOwners(xs) == xs
    decreases |xs|
  {
    if xs != [] {
      assert IsSorted(xs[1..]) by {
        forall i, j | 0 <= i < j < |xs| - 1 ensures Le(xs[1..][i], xs[1..][j]) {
          assert xs[1..][i] == xs[i + 1] && xs[1..][j] == xs[j + 1];
        }
      }
      SortOwnersSorted(xs[1..]);
      if |xs| > 1 {
        assert Le(xs[0], xs[1]);
      }
      assert xs == [xs[0]] + xs[1..];
    }
  }

  lemma SortOwnersIdempotent(xs: seq<string>)
    ensures SortOwners(SortOwners(xs)) == SortOwners(xs)
  {
    SortOwnersCorrect(xs);
    SortOwnersSorted(SortOwners(xs));
  }

  /** Two sorted lists with the same elements are equal. */
  lemma {:induction false} SortedUnique(a: seq<string>, b: seq<string>)
    requires IsSorted(a) && IsSorted(b) && multiset(a) == multiset(b)
    ensures a == b
    decreases |a|
  {
    if a == [] {
      assert |b| == |multiset(b)|;
    } else {
      SameHead(a, b);
      SameTails(a, b);
      TailSorted(a);
      TailSorted(b);
      SortedUnique(a[1..], b[1..]);
      assert a == [a[0]] + a[1..] && b == [b[0]] + b[1..];
    }
  }

  /** The least element of a sorted list is determined by its elements. */
  lemma SameHead(a: seq<string>, b: seq<string>)
    requires IsSorted(a) && IsSorted(b) && multiset(a) == multiset(b) && a != []
    ensures b != [] && a[0] == b[0]
  {
    assert a[0] in multiset(b);
    var k :| 0 <= k < |b| && b[k] == a[0];
    assert b[0] in multiset(a);
    var m :| 0 <= m < |a| && a[m] == b[0];
    if k > 0 { assert Le(b[0], b[k]); } else { LeRefl(b[0]); }
    if m > 0 { assert Le(a[0], a[m]); } else { LeRefl(a[0]); }
    LeAntisymmetric(a[0], b[0]);
  }

  lemma SameTails(a: seq<string>, b: seq<string>)
    requires multiset(a) == multiset(b) && a != [] && b != [] && a[0] == b[0]
    ensures multiset(a[1..]) == multiset(b[1..])
  {
    assert a == [a[0]] + a[1..] && b == [b[0]] + b[1..];
    assert multiset(a[1..]) == multiset(a) - multiset{a[0]};
    assert multiset(b[1..]) == multiset(b) - multiset{b[0]};
  }

  lemma TailSorted(xs: seq<string>)
    requires IsSorted(xs) && xs != []
    ensures IsSorted(xs[1..])
  {
    forall i, j | 0 <= i < j < |xs| - 1 ensures Le(xs[1..][i], xs[1..][j]) {
      assert xs[1..][i] == xs[i + 1] && xs[1..][j] == xs[j + 1];
    }
  }

  /** Two owner lists sort to the same list exactly when they hold the same owners, as often. */
  lemma SortOwnersSameIff(xs: seq<string>, ys: seq<string>)
    ensures SortOwners(xs) == SortOwners(ys) <==> multiset(xs) == multiset(ys)
  {
    SortOwnersCorrect(xs);
    SortOwnersCorrect(ys);
    if multiset(xs) == multiset(ys) {
      SortedUnique(SortOwners(xs), SortOwners(ys));
    }
  }
}
