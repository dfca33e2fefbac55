/**
 * Generic facts about sequences that the points ledger relies on: sums over a
 * sequence, a stable sort by an integer key, and distinctness of elements.
 *
 * `SortBy` stands for `java.util.List.sort` with a `Comparator` that compares
 * one integer key. That library sort is stable, and a stable sort is fully
 * determined by three facts proved here about `SortBy`: the result is sorted
 * by the key, it is a permutation of the input, and for every key value the
 * elements carrying that key keep their input order (`SortByStable`).
 * `StableSortIsUnique` shows that these three facts leave no other result.
 */
module Sequences {

  /** The sum of `f` over the elements of `s`. */
  function SumOf<T>(s: seq<T>, f: T -> int): int
  {
    if s == [] then 0 else f(s[0]) + SumOf(s[1..], f)
  }

  lemma {:induction false} SumOfConcat<T>(a: seq<T>, b: seq<T>, f: T -> int)
    ensures SumOf(a + b, f) == SumOf(a, f) + SumOf(b, f)
  {
    if a == [] {
      assert a + b == b;
    } else {
      assert (a + b)[1..] == a[1..] + b;
      SumOfConcat(a[1..], b, f);
    }
  }

  /** Extending a prefix by one element adds that element's value: the step of a summing loop. */
  lemma SumOfPrefixStep<T>(s: seq<T>, i: nat, f: T -> int)
    requires i < |s|
    ensures SumOf(s[..i + 1], f) == SumOf(s[..i], f) + f(s[i])
  {
    assert s[..i + 1] == s[..i] + [s[i]];
    SumOfConcat(s[..i], [s[i]], f);
  }

  function Identity(x: int): int
  {
    x
  }

  /** The sum of a sequence of numbers. */
  function Sum(xs: seq<int>): int
  {
    SumOf(xs, Identity)
  }

  /** No element occurs twice. */
  ghost predicate Distinct<T>(s: seq<T>)
  {
    forall i, j :: 0 <= i < j < |s| ==> s[i] != s[j]
  }

  /** Keys never decrease from left to right. */
  ghost predicate SortedBy<T>(s: seq<T>, key: T -> int)
  {
    forall i, j :: 0 <= i < j < |s| ==> key(s[i]) <= key(s[j])
  }

  /** The elements of `s` whose key is `k`, in their order in `s`. */
  function KeyFilter<T>(s: seq<T>, key: T -> int, k: int): seq<T>
  {
    if s == [] then [] else (if key(s[0]) == k then [s[0]] else []) + KeyFilter(s[1..], key, k)
  }

  /** Inserts `x` into `s` just before the first element whose key is larger than `x`'s. */
  function InsertBy<T>(x: T, s: seq<T>, key: T -> int): seq<T>
  {
    if s == [] || key(x) < key(s[0]) then [x] + s
    else [s[0]] + InsertBy(x, s[1..], key)
  }

  /** Stable sort by `key`: each element, in input order, is inserted behind the equal keys already placed. */
  function SortBy<T>(s: seq<T>, key: T -> int): seq<T>
  {
    if s == [] then [] else InsertBy(s[|s| - 1], SortBy(s[..|s| - 1], key), key)
  }

  lemma {:induction false} KeyFilterConcat<T>(a: seq<T>, b: seq<T>, key: T -> int, k: int)
    ensures KeyFilter(a + b, key, k) == KeyFilter(a, key, k) + KeyFilter(b, key, k)
  {
    if a == [] {
      assert a + b == b;
    } else {
      var head := if key(a[0]) == k then [a[0]] else [];
      assert KeyFilter(a + b, key, k) == head + KeyFilter(a[1..] + b, key, k) by {
        assert (a + b)[0] == a[0] && (a + b)[1..] == a[1..] + b;
      }
      KeyFilterConcat(a[1..], b, key, k);
      assert head + (KeyFilter(a[1..], key, k) + KeyFilter(b, key, k))
          == (head + KeyFilter(a[1..], key, k)) + KeyFilter(b, key, k);
    }
  }

  lemma {:induction false} KeyFilterNone<T>(s: seq<T>, key: T -> int, k: int)
    requires forall i :: 0 <= i < |s| ==> key(s[i]) != k
    ensures KeyFilter(s, key, k) == []
  {
    if s != [] {
      KeyFilterNone(s[1..], key, k);
    }
  }

  lemma {:induction false} InsertByPermutes<T>(x: T, s: seq<T>, key: T -> int)
    ensures |InsertBy(x, s, key)| == |s| + 1
    ensures multiset(InsertBy(x, s, key)) == multiset(s) + multiset{x}
  {
    if s != [] && key(x) >= key(s[0]) {
      InsertByPermutes(x, s[1..], key);
      assert s == [s[0]] + s[1..];
    }
  }

  lemma {:induction false} InsertBySorted<T>(x: T, s: seq<T>, key: T -> int)
    requires SortedBy(s, key)
    ensures SortedBy(InsertBy(x, s, key), key)
  {
    if s != [] && key(x) >= key(s[0]) {
      var rest := InsertBy(x, s[1..], key);
      InsertBySorted(x, s[1..], key);
      InsertByPermutes(x, s[1..], key);
      forall j | 0 <= j < |rest| ensures key(s[0]) <= key(rest[j]) {
        assert rest[j] in multiset(rest);
        assert rest[j] == x || rest[j] in s[1..];
      }
    }
  }

  lemma {:induction false} InsertByKeeps<T>(x: T, s: seq<T>, key: T -> int, k: int)
    requires SortedBy(s, key)
    ensures KeyFilter(InsertBy(x, s, key), key, k)
         == KeyFilter(s, key, k) + (if key(x) == k then [x] else [])
  {
    if s == [] || key(x) < key(s[0]) {
      assert ([x] + s)[1..] == s;
      if key(x) == k {
        KeyFilterNone(s, key, k);
      }
    } else {
      var rest := InsertBy(x, s[1..], key);
      assert ([s[0]] + rest)[1..] == rest;
      InsertByKeeps(x, s[1..], key, k);
    }
  }

  lemma {:induction false} InsertBySum<T>(x: T, s: seq<T>, key: T -> int, f: T -> int)
    ensures SumOf(InsertBy(x, s, key), f) == f(x) + SumOf(s, f)
  {
    if s == [] || key(x) < key(s[0]) {
      assert ([x] + s)[1..] == s;
    } else {
      var rest := InsertBy(x, s[1..], key);
      assert ([s[0]] + rest)[1..] == rest;
      InsertBySum(x, s[1..], key, f);
    }
  }

  lemma {:induction false} InsertByDistinct<T>(x: T, s: seq<T>, key: T -> int)
    requires Distinct(s) && x !in s
    ensures Distinct(InsertBy(x, s, key))
  {
    if s != [] && key(x) >= key(s[0]) {
      var rest := InsertBy(x, s[1..], key);
      InsertByDistinct(x, s[1..], key);
      InsertByPermutes(x, s[1..], key);
      assert s[0] !in multiset(s[1..]) + multiset{x};
      assert s[0] !in rest;
    }
  }

  /** `SortBy` orders by key and is a permutation of its input. */
  lemma {:induction false} SortBySortsAndPermutes<T>(s: seq<T>, key: T -> int)
    ensures SortedBy(SortBy(s, key), key)
    ensures multiset(SortBy(s, key)) == multiset(s)
    ensures |SortBy(s, key)| == |s|
  {
    if s != [] {
      var init, last := s[..|s| - 1], s[|s| - 1];
      SortBySortsAndPermutes(init, key);
      InsertBySorted(last, SortBy(init, key), key);
      InsertByPermutes(last, SortBy(init, key), key);
      assert s == init + [last];
    }
  }

  /** `SortBy` is stable: for every key, the elements with that key keep their relative order. */
  lemma {:induction false} SortByStable<T>(s: seq<T>, key: T -> int, k: int)
    ensures KeyFilter(SortBy(s, key), key, k) == KeyFilter(s, key, k)
  {
    if s != [] {
      var init, last := s[..|s| - 1], s[|s| - 1];
      SortBySortsAndPermutes(init, key);
      SortByStable(init, key, k);
      InsertByKeeps(last, SortBy(init, key), key, k);
      assert s == init + [last];
      KeyFilterConcat(init, [last], key, k);
      assert KeyFilter([last], key, k) == (if key(last) == k then [last] else []) + KeyFilter([], key, k);
    }
  }

  /** Sorting does not change any sum over the elements. */
  lemma {:induction false} SortBySum<T>(s: seq<T>, key: T -> int, f: T -> int)
    ensures SumOf(SortBy(s, key), f) == SumOf(s, f)
  {
    if s != [] {
      var init, last := s[..|s| - 1], s[|s| - 1];
      SortBySum(init, key, f);
      InsertBySum(last, SortBy(init, key), key, f);
      assert s == init + [last];
      SumOfConcat(init, [last], f);
    }
  }

  /** Sorting a sequence without repetitions yields one without repetitions. */
  lemma {:induction false} SortByDistinct<T>(s: seq<T>, key: T -> int)
    requires Distinct(s)
    ensures Distinct(SortBy(s, key))
  {
    if s != [] {
      var init, last := s[..|s| - 1], s[|s| - 1];
      SortByDistinct(init, key);
      SortBySortsAndPermutes(init, key);
      assert last !in init;
      assert last !in multiset(SortBy(init, key));
      InsertByDistinct(last, SortBy(init, key), key);
    }
  }

  lemma {:induction false} SameFiltersSame<T>(a: seq<T>, b: seq<T>, key: T -> int)
    requires SortedBy(a, key) && SortedBy(b, key)
    requires forall k :: KeyFilter(a, key, k) == KeyFilter(b, key, k)
    ensures a == b
    decreases |a| + |b|
  {
    if a == [] || b == [] {
      // Both are empty: a first element on one side would show up in that side's filter for its key only.
      if a != [] {
        KeyFilterNone(b, key, key(a[0]));
      } else if b != [] {
        KeyFilterNone(a, key, key(b[0]));
      }
    } else {
      var ka, kb := key(a[0]), key(b[0]);
      if ka < kb {
        assert KeyFilter(a, key, ka) != [];
        KeyFilterNone(b, key, ka);
      } else if kb < ka {
        assert KeyFilter(b, key, kb) != [];
        KeyFilterNone(a, key, kb);
      } else {
        assert KeyFilter(a, key, ka) == [a[0]] + KeyFilter(a[1..], key, ka);
        assert KeyFilter(b, key, ka) == [b[0]] + KeyFilter(b[1..], key, ka);
        forall k ensures KeyFilter(a[1..], key, k) == KeyFilter(b[1..], key, k) {
          assert KeyFilter(a, key, k) == KeyFilter(b, key, k);
          var x, y := KeyFilter(a[1..], key, k), KeyFilter(b[1..], key, k);
          if k == ka {
            assert [a[0]] + x == [b[0]] + y;
            assert x == ([a[0]] + x)[1..] && y == ([b[0]] + y)[1..];
          } else {
            assert KeyFilter(a, key, k) == [] + x == x;
            assert KeyFilter(b, key, k) == [] + y == y;
          }
        }
        assert a[0] == KeyFilter(a, key, ka)[0] == KeyFilter(b, key, ka)[0] == b[0];
        SameFiltersSame(a[1..], b[1..], key);
        assert a == [a[0]] + a[1..] && b == [b[0]] + b[1..];
      }
    }
  }

  /** A stable sort has only one possible result: any sequence that is sorted by `key` and keeps,
      for every key, the input's elements with that key in their input order is `SortBy(s, key)`. */
  lemma StableSortIsUnique<T>(s: seq<T>, r: seq<T>, key: T -> int)
    requires SortedBy(r, key)
    requires forall k :: KeyFilter(r, key, k) == KeyFilter(s, key, k)
    ensures r == SortBy(s, key)
  {
    SortBySortsAndPermutes(s, key);
    forall k ensures KeyFilter(r, key, k) == KeyFilter(SortBy(s, key), key, k) {
      SortByStable(s, key, k);
    }
    SameFiltersSame(r, SortBy(s, key), key);
  }

  /** A sequence already ordered by the key is left as it is by the sort. */
  lemma SortBySorted<T>(s: seq<T>, key: T -> int)
    requires SortedBy(s, key)
    ensures SortBy(s, key) == s
  {
    StableSortIsUnique(s, s, key);
  }
}
