/** Stable sorting by an integer key, as `sorted(..., key=...)` and `ORDER BY` do it. */
module Sorting {

  function Insert<T>(x: T, s: seq<T>, key: T -> int): seq<T> {
    if s == [] then [x]
    else if key(x) <= key(s[0]) then [x] + s
    else [s[0]] + Insert(x, s[1..], key)
  }

  function SortBy<T>(s: seq<T>, key: T -> int): seq<T> {
    if s == [] then [] else Insert(s[0], SortBy(s[1..], key), key)
  }

  ghost predicate Sorted<T>(s: seq<T>, key: T -> int) {
    forall i, j :: 0 <= i < j < |s| ==> key(s[i]) <= key(s[j])
  }

  function Filter<T>(s: seq<T>, keep: T -> bool): seq<T> {
    if s == [] then []
    else (if keep(s[0]) then [s[0]] else []) + Filter(s[1..], keep)
  }

  lemma {:induction false} InsertPermutes<T>(x: T, s: seq<T>, key: T -> int)
    ensures multiset(Insert(x, s, key)) == multiset([x] + s)
    ensures |Insert(x, s, key)| == |s| + 1
  {
    if s != [] && key(x) > key(s[0]) {
      InsertPermutes(x, s[1..], key);
      assert s == [s[0]] + s[1..];
    }
  }

  lemma {:induction false} SortPermutes<T>(s: seq<T>, key: T -> int)
    ensures multiset(SortBy(s, key)) == multiset(s)
    ensures |SortBy(s, key)| == |s|
  {
    if s != [] {
      SortPermutes(s[1..], key);
      InsertPermutes(s[0], SortBy(s[1..], key), key);
      assert s == [s[0]] + s[1..];
    }
  }

  lemma SortKeepsMembers<T>(s: seq<T>, key: T -> int, x: T)
    ensures x in SortBy(s, key) <==> x in s
  {
    SortPermutes(s, key);
    assert x in SortBy(s, key) <==> x in multiset(SortBy(s, key));
    assert x in s <==> x in multiset(s);
  }

  lemma {:induction false} InsertSorts<T>(x: T, s: seq<T>, key: T -> int)
    requires Sorted(s, key)
    ensures Sorted(Insert(x, s, key), key)
  {
    if s != [] && key(x) > key(s[0]) {
      InsertSorts(x, s[1..], key);
      InsertPermutes(x, s[1..], key);
      var rest := Insert(x, s[1..], key);
      forall j | 0 <= j < |rest| ensures key(s[0]) <= key(rest[j]) {
        assert rest[j] in multiset(rest);
        assert rest[j] in [x] + s[1..];
      }
    }
  }

  lemma {:induction false} SortSorts<T>(s: seq<T>, key: T -> int)
    ensures Sorted(SortBy(s, key), key)
  {
    if s != [] {
      SortSorts(s[1..], key);
      InsertSorts(s[0], SortBy(s[1..], key), key);
    }
  }

  /** Sorting an already sorted list changes nothing: the sort is stable. */
  lemma {:induction false} SortOfSorted<T>(s: seq<T>, key: T -> int)
    requires Sorted(s, key)
    ensures SortBy(s, key) == s
  {
    if s != [] {
      SortOfSorted(s[1..], key);
      assert s == [s[0]] + s[1..];
    }
  }

  lemma {:induction false} FilterMembers<T>(s: seq<T>, keep: T -> bool)
    ensures forall x :: x in Filter(s, keep) <==> x in s && keep(x)
    ensures forall k :: 0 <= k < |Filter(s, keep)| ==> Filter(s, keep)[k] in s && keep(Filter(s, keep)[k])
    ensures |Filter(s, keep)| <= |s|
  {
    if s != [] {
      FilterMembers(s[1..], keep);
    }
  }

  lemma {:induction false} FilterSorted<T>(s: seq<T>, keep: T -> bool, key: T -> int)
    requires Sorted(s, key)
    ensures Sorted(Filter(s, keep), key)
  {
    if s != [] {
      FilterSorted(s[1..], keep, key);
      FilterMembers(s[1..], keep);
      var rest := Filter(s[1..], keep);
      forall j | 0 <= j < |rest| ensures key(s[0]) <= key(rest[j]) {
        assert rest[j] in s[1..];
      }
    }
  }

  lemma FilterFirst<T>(x: T, s: seq<T>, keep: T -> bool)
    ensures Filter([x] + s, keep) == (if keep(x) then [x] else []) + Filter(s, keep)
  {
    assert ([x] + s)[1..] == s;
  }

  lemma {:induction false} FilterJoins<T>(a: seq<T>, b: seq<T>, keep: T -> bool)
    ensures Filter(a + b, keep) == Filter(a, keep) + Filter(b, keep)
  {
    if a == [] {
      assert a + b == b;
    } else {
      FilterJoins(a[1..], b, keep);
      FilterJoinsAfter(a[0], a[1..], b, keep);
      assert a == [a[0]] + a[1..];
    }
  }

  lemma FilterJoinsAfter<T>(x: T, a: seq<T>, b: seq<T>, keep: T -> bool)
    requires Filter(a + b, keep) == Filter(a, keep) + Filter(b, keep)
    ensures Filter([x] + a + b, keep) == Filter([x] + a, keep) + Filter(b, keep)
  {
    FilterFirst(x, a + b, keep);
    FilterFirst(x, a, keep);
    assert [x] + a + b == [x] + (a + b);
  }

  lemma {:induction false} FilterKeepsAll<T>(s: seq<T>, keep: T -> bool)
    requires forall x :: x in s ==> keep(x)
    ensures Filter(s, keep) == s
  {
    if s != [] {
      FilterKeepsAll(s[1..], keep);
      assert s == [s[0]] + s[1..];
    }
  }

  lemma InsertFirst<T>(x: T, s: seq<T>, key: T -> int)
    requires forall y :: y in s ==> key(x) <= key(y)
    ensures Insert(x, s, key) == [x] + s
  {
    assert s != [] ==> s[0] in s;
  }

  lemma InsertPast<T>(x: T, first: T, s: seq<T>, key: T -> int)
    requires key(x) > key(first)
    ensures Insert(x, [first] + s, key) == [first] + Insert(x, s, key)
  {
    assert ([first] + s)[1..] == s;
  }

  /** Inserting and filtering can be exchanged, for keys that agree on what is kept. */
  lemma {:induction false} FilterOfInsert<T>(x: T, s: seq<T>, key: T -> int, key': T -> int, keep: T -> bool)
    requires Sorted(s, key)
    requires keep(x) ==> key(x) == key'(x)
    requires forall y :: y in s && keep(y) ==> key(y) == key'(y)
    ensures Filter(Insert(x, s, key), keep) == if keep(x) then Insert(x, Filter(s, keep), key') else Filter(s, keep)
  {
    if s == [] {
      FilterFirst(x, s, keep);
    } else if key(x) <= key(s[0]) {
      FilterFirst(x, s, keep);
      FilterMembers(s, keep);
      if keep(x) {
        assert forall y :: y in s ==> key(s[0]) <= key(y);
        InsertFirst(x, Filter(s, keep), key');
      }
    } else {
      assert s[0] in s;
      FilterOfInsert(x, s[1..], key, key', keep);
      FilterOfInsertPast(x, s[0], s[1..], key, key', keep);
      assert s == [s[0]] + s[1..];
    }
  }

  lemma FilterOfInsertPast<T>(x: T, first: T, s: seq<T>, key: T -> int, key': T -> int, keep: T -> bool)
    requires key(x) > key(first)
    requires keep(x) && keep(first) ==> key'(x) > key'(first)
    requires Filter(Insert(x, s, key), keep) == if keep(x) then Insert(x, Filter(s, keep), key') else Filter(s, keep)
    ensures var all := [first] + s;
            Filter(Insert(x, all, key), keep)
            == if keep(x) then Insert(x, Filter(all, keep), key') else Filter(all, keep)
  {
    InsertPast(x, first, s, key);
    FilterFirst(first, Insert(x, s, key), keep);
    FilterFirst(first, s, keep);
    if keep(x) && keep(first) {
      InsertPast(x, first, Filter(s, keep), key');
    } else if !keep(first) {
      assert Filter([first] + s, keep) == Filter(s, keep);
    }
  }

  /** Sorting and filtering can be exchanged. */
  lemma {:induction false} FilterOfSort<T>(s: seq<T>, key: T -> int, key': T -> int, keep: T -> bool)
    requires forall y :: y in s && keep(y) ==> key(y) == key'(y)
    ensures Filter(SortBy(s, key), keep) == SortBy(Filter(s, keep), key')
  {
    if s != [] {
      var rest := SortBy(s[1..], key);
      FilterOfSort(s[1..], key, key', keep);
      SortSorts(s[1..], key);
      forall y | y in rest ensures y in s {
        SortKeepsMembers(s[1..], key, y);
      }
      FilterOfInsert(s[0], rest, key, key', keep);
      if keep(s[0]) {
        assert Filter(s, keep) == [s[0]] + Filter(s[1..], keep);
        assert Filter(s, keep)[1..] == Filter(s[1..], keep);
      } else {
        assert Filter(s, keep) == Filter(s[1..], keep);
      }
    }
  }

  /** Keeping less leaves a shorter list. */
  lemma {:induction false} FilterShrinks<T>(s: seq<T>, less: T -> bool, more: T -> bool)
    requires forall x :: x in s && less(x) ==> more(x)
    ensures |Filter(s, less)| <= |Filter(s, more)|
  {
    if s != [] {
      FilterShrinks(s[1..], less, more);
    }
  }

  /** With distinct elements, two places of a sorted list in key order are in list order. */
  lemma PlacesFollowKeys<T>(s: seq<T>, key: T -> int, i: int, j: int)
    requires Sorted(s, key) && 0 <= i < |s| && 0 <= j < |s|
    requires key(s[i]) < key(s[j])
    ensures i < j
  {
  }
}
