/** The array operations the storefront uses on its in-memory lists:
    `filter`, `find`, `some`, and `sort` with a comparator. */
module Lists {
  import opened Wrappers

  /** `a` is `b` with some elements dropped and the rest kept in order. */
  predicate Subsequence<T(==)>(a: seq<T>, b: seq<T>)
  {
    a == [] || (b != [] && ((a[0] == b[0] && Subsequence(a[1..], b[1..])) || Subsequence(a, b[1..])))
  }

  /** Every list is a subsequence of itself. */
  lemma {:induction false} SubsequenceRefl<T>(xs: seq<T>)
    ensures Subsequence(xs, xs)
  {
    if xs != [] {
      SubsequenceRefl(xs[1..]);
    }
  }

  /** `xs.filter(p)`: exactly the elements satisfying `p`, in their order. */
  function Filter<T(==)>(xs: seq<T>, p: T -> bool): (r: seq<T>)
    ensures |r| <= |xs|
    ensures forall i :: 0 <= i < |r| ==> r[i] in xs && p(r[i])
    ensures forall i :: 0 <= i < |xs| && p(xs[i]) ==> xs[i] in r
    ensures Subsequence(r, xs)
  {
    if xs == [] then []
    else
      var rest := Filter(xs[1..], p);
      if p(xs[0]) then
        assert ([xs[0]] + rest)[1..] == rest;
        [xs[0]] + rest
      else rest
  }

  /** Filtering keeps each accepted element exactly as often as it occurs,
      and no rejected one. */
  lemma {:induction false} FilterCounts<T(!new)>(xs: seq<T>, p: T -> bool)
    ensures forall x :: multiset(Filter(xs, p))[x] == if p(x) then multiset(xs)[x] else 0
  {
    if xs != [] {
      FilterCounts(xs[1..], p);
      assert xs == [xs[0]] + xs[1..];
    }
  }

  /** Filtering with a predicate no element satisfies empties the list. */
  lemma FilterNone<T>(xs: seq<T>, p: T -> bool)
    requires forall i :: 0 <= i < |xs| ==> !p(xs[i])
    ensures Filter(xs, p) == []
  {
  }

  /** Filtering with a predicate every element satisfies keeps the list. */
  lemma {:induction false} FilterAll<T>(xs: seq<T>, p: T -> bool)
    requires forall i :: 0 <= i < |xs| ==> p(xs[i])
    ensures Filter(xs, p) == xs
  {
    if xs != [] {
      FilterAll(xs[1..], p);
    }
  }

  /** Filtering is idempotent. */
  lemma FilterTwice<T>(xs: seq<T>, p: T -> bool)
    ensures Filter(Filter(xs, p), p) == Filter(xs, p)
  {
    FilterAll(Filter(xs, p), p);
  }

  /** Filtering depends only on which elements the predicate accepts. */
  lemma {:induction false} FilterSameAccepted<T>(xs: seq<T>, p: T -> bool, q: T -> bool)
    requires forall i :: 0 <= i < |xs| ==> p(xs[i]) == q(xs[i])
    ensures Filter(xs, p) == Filter(xs, q)
  {
    if xs != [] {
      FilterSameAccepted(xs[1..], p, q);
    }
  }

  /** One step of filtering: the head, when accepted, then the filtered tail. */
  lemma FilterCons<T>(xs: seq<T>, p: T -> bool)
    requires xs != []
    ensures Filter(xs, p) == (if p(xs[0]) then [xs[0]] else []) + Filter(xs[1..], p)
  {
  }

  /** Filtering a three-element list, spelled out. */
  lemma FilterThree<T>(xs: seq<T>, p: T -> bool)
    requires |xs| == 3
    ensures Filter(xs, p) == (if p(xs[0]) then [xs[0]] else []) + (if p(xs[1]) then [xs[1]] else []) +
                             (if p(xs[2]) then [xs[2]] else [])
  {
    var a, b, c := xs[0], xs[1], xs[2];
    var s1, s2 := xs[1..], xs[2..];
    assert s1[0] == b && s1[1..] == s2;
    assert s2[0] == c && s2[1..] == [];
    FilterCons(xs, p);
    FilterCons(s1, p);
    FilterCons(s2, p);
  }

  /** `xs.find(p)`: the first element satisfying `p`, or nothing. */
  function Find<T>(xs: seq<T>, p: T -> bool): (r: Option<T>)
    ensures r.Some? <==> exists i :: 0 <= i < |xs| && p(xs[i])
    ensures r.Some? ==> exists i :: 0 <= i < |xs| && xs[i] == r.value && p(xs[i])
                          && forall j :: 0 <= j < i ==> !p(xs[j])
  {
    if xs == [] then None
    else if p(xs[0]) then Some(xs[0])
    else
      var r := Find(xs[1..], p);
      assert forall i :: 1 <= i < |xs| ==> xs[i] == xs[1..][i - 1];
      r
  }

  /** `xs.some(p)`. */
  predicate Any<T>(xs: seq<T>, p: T -> bool)
  {
    exists i :: 0 <= i < |xs| && p(xs[i])
  }

  // ---- sorting -------------------------------------------------------------

  /** Sorted with respect to a key: keys never decrease from left to right. */
  ghost predicate SortedBy<T>(s: seq<T>, key: T -> real)
  {
    forall i, j :: 0 <= i < j < |s| ==> key(s[i]) <= key(s[j])
  }

  /** Places `x` before the first element whose key is not smaller. */
  function Insert<T>(x: T, ys: seq<T>, key: T -> real): seq<T>
  {
    if ys == [] || key(x) <= key(ys[0]) then [x] + ys
    else [ys[0]] + Insert(x, ys[1..], key)
  }

  /** A stable sort by `key`: what `Array.prototype.sort` (stable since
      ECMAScript 2019) returns for the comparator `(a, b) => key(a) - key(b)`.
      A stable sort under a consistent comparator has only one possible result,
      so this insertion sort stands for any of them. */
  function SortBy<T>(xs: seq<T>, key: T -> real): seq<T>
  {
    if xs == [] then [] else Insert(xs[0], SortBy(xs[1..], key), key)
  }

  lemma {:induction false} InsertPermutes<T>(x: T, ys: seq<T>, key: T -> real)
    ensures multiset(Insert(x, ys, key)) == multiset([x] + ys)
  {
    if ys != [] && key(x) > key(ys[0]) {
      InsertPermutes(x, ys[1..], key);
      assert ys == [ys[0]] + ys[1..];
    }
  }

  /** Every element of `Insert(x, ys)` is `x` or an element of `ys`. */
  lemma {:induction false} InsertMembers<T>(x: T, ys: seq<T>, key: T -> real)
    ensures forall z :: z in Insert(x, ys, key) ==> z == x || z in ys
  {
    if ys != [] && key(x) > key(ys[0]) {
      InsertMembers(x, ys[1..], key);
    }
  }

  lemma {:induction false} InsertSorted<T>(x: T, ys: seq<T>, key: T -> real)
    requires SortedBy(ys, key)
    ensures SortedBy(Insert(x, ys, key), key)
  {
    if ys != [] && key(x) > key(ys[0]) {
      var tail := ys[1..];
      InsertSorted(x, tail, key);
      InsertMembers(x, tail, key);
      var r := Insert(x, tail, key);
      var s := [ys[0]] + r;
      forall i, j | 0 <= i < j < |s| ensures key(s[i]) <= key(s[j]) {
        if i == 0 {
          assert s[j] in r;
          assert s[j] == x || s[j] in tail;
        } else {
          assert s[i] == r[i - 1] && s[j] == r[j - 1];
        }
      }
    }
  }

  /** The sorted list is a permutation of the input, ordered by the key. */
  lemma {:induction false} SortByCorrect<T>(xs: seq<T>, key: T -> real)
    ensures multiset(SortBy(xs, key)) == multiset(xs)
    ensures SortedBy(SortBy(xs, key), key)
  {
    if xs != [] {
      SortByCorrect(xs[1..], key);
      InsertPermutes(xs[0], SortBy(xs[1..], key), key);
      InsertSorted(xs[0], SortBy(xs[1..], key), key);
      assert xs == [xs[0]] + xs[1..];
    }
  }

  /** A comparator that always answers 0 leaves a stable sort's input as it is. */
  lemma {:induction false} SortByConstant<T>(xs: seq<T>, key: T -> real)
    requires forall x :: key(x) == 0.0
    ensures SortBy(xs, key) == xs
  {
    if xs != [] {
      SortByConstant(xs[1..], key);
      assert xs == [xs[0]] + xs[1..];
    }
  }

  /** Elements of `s` with the same key are the same element. */
  ghost predicate KeyInjective<T>(s: seq<T>, key: T -> real)
  {
    forall x, y :: x in s && y in s && key(x) == key(y) ==> x == y
  }

  function Reverse<T>(s: seq<T>): (r: seq<T>)
    ensures |r| == |s|
    ensures forall i :: 0 <= i < |s| ==> r[i] == s[|s| - 1 - i]
  {
    if s == [] then [] else Reverse(s[1..]) + [s[0]]
  }

  lemma {:induction false} ReverseMultiset<T>(s: seq<T>)
    ensures multiset(Reverse(s)) == multiset(s)
  {
    if s != [] {
      ReverseMultiset(s[1..]);
      assert s == [s[0]] + s[1..];
    }
  }

  /** Two sorted permutations of each other are equal when no two different
      elements share a key. */
  lemma {:induction false} SortedUnique<T>(a: seq<T>, b: seq<T>, key: T -> real)
    requires multiset(a) == multiset(b)
    requires SortedBy(a, key) && SortedBy(b, key) && KeyInjective(a, key)
    ensures a == b
  {
    if a != [] {
      SortedHeads(a, b, key);
      SortedTail(a, key);
      SortedTail(b, key);
      assert multiset(a[1..]) == multiset(a) - multiset{a[0]} by {
        assert a == [a[0]] + a[1..];
      }
      assert multiset(b[1..]) == multiset(b) - multiset{b[0]} by {
        assert b == [b[0]] + b[1..];
      }
      assert KeyInjective(a[1..], key) by {
        forall x | x in a[1..] ensures x in a {
        }
      }
      SortedUnique(a[1..], b[1..], key);
      assert a == [a[0]] + a[1..] && b == [b[0]] + b[1..];
    }
  }

  /** The smallest elements of two sorted permutations coincide. */
  lemma SortedHeads<T>(a: seq<T>, b: seq<T>, key: T -> real)
    requires a != [] && multiset(a) == multiset(b)
    requires SortedBy(a, key) && SortedBy(b, key) && KeyInjective(a, key)
    ensures b != [] && a[0] == b[0]
  {
    assert a[0] in multiset(b);
    var k :| 0 <= k < |b| && b[k] == a[0];
    assert b[0] in multiset(a);
    var m :| 0 <= m < |a| && a[m] == b[0];
    assert key(b[0]) <= key(b[k]);
    assert key(a[0]) <= key(a[m]);
  }

  lemma SortedTail<T>(s: seq<T>, key: T -> real)
    requires s != [] && SortedBy(s, key)
    ensures SortedBy(s[1..], key)
  {
    forall i, j | 0 <= i < j < |s[1..]| ensures key(s[1..][i]) <= key(s[1..][j]) {
      assert s[1..][i] == s[i + 1] && s[1..][j] == s[j + 1];
    }
  }

  function Negate<T>(key: T -> real): T -> real
  {
    (x: T) => -key(x)
  }

  /** Reversing a sorted sequence sorts it by the negated key. */
  lemma ReverseSortedNegated<T>(s: seq<T>, key: T -> real)
    requires SortedBy(s, key)
    ensures SortedBy(Reverse(s), Negate(key))
  {
    var rev := Reverse(s);
    forall i, j | 0 <= i < j < |rev| ensures Negate(key)(rev[i]) <= Negate(key)(rev[j]) {
      assert rev[i] == s[|s| - 1 - i] && rev[j] == s[|s| - 1 - j];
    }
  }

  /** Key injectivity depends only on the elements present. */
  lemma KeyInjectivePermutation<T>(a: seq<T>, b: seq<T>, key: T -> real)
    requires multiset(a) == multiset(b) && KeyInjective(a, key)
    ensures KeyInjective(b, key) && KeyInjective(b, Negate(key))
  {
    forall x | x in b ensures x in a {
      assert x in multiset(b);
    }
  }

  /** When different elements never share a key, sorting by the negated key
      gives the reverse of sorting by the key. */
  lemma SortByNegatedIsReverse<T>(xs: seq<T>, key: T -> real)
    requires KeyInjective(xs, key)
    ensures SortBy(xs, Negate(key)) == Reverse(SortBy(xs, key))
  {
    var up := SortBy(xs, key);
    var down := SortBy(xs, Negate(key));
    SortByCorrect(xs, key);
    SortByCorrect(xs, Negate(key));
    ReverseSortedNegated(up, key);
    ReverseMultiset(up);
    KeyInjectivePermutation(xs, down, key);
    SortedUnique(down, Reverse(up), Negate(key));
  }
}
