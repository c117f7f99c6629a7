/** Stable sorting by descending key: what it means, that it is unique, and insertion one element at a time. */
module StableSorting {

  ghost predicate Descending<T>(s: seq<T>, key: T -> int) {
    forall i, j :: 0 <= i < j < |s| ==> key(s[i]) >= key(s[j])
  }

  /** The elements of key `k`, in order. */
  ghost function OfKey<T>(s: seq<T>, key: T -> int, k: int): seq<T> {
    if s == [] then []
    else (if key(s[0]) == k then [s[0]] else []) + OfKey(s[1..], key, k)
  }

  /** Sorted, and the elements of every key appear in their original order. */
  ghost predicate IsStableSort<T>(source: seq<T>, sorted: seq<T>, key: T -> int) {
    && Descending(sorted, key)
    && forall k :: OfKey(sorted, key, k) == OfKey(source, key, k)
  }

  /** Before the first element of smaller key, so after every element of equal key. */
  function Insert<T>(s: seq<T>, x: T, key: T -> int): seq<T> {
    if s == [] || key(x) > key(s[0]) then [x] + s
    else [s[0]] + Insert(s[1..], x, key)
  }

  function Sort<T>(s: seq<T>, key: T -> int): seq<T> {
    if s == [] then [] else Insert(Sort(s[..|s| - 1], key), s[|s| - 1], key)
  }

  lemma {:induction false} OfKeyConcat<T>(a: seq<T>, b: seq<T>, key: T -> int, k: int)
    ensures OfKey(a + b, key, k) == OfKey(a, key, k) + OfKey(b, key, k)
  {
    if a == [] {
      assert a + b == b;
    } else {
      OfKeyConcat(a[1..], b, key, k);
      var head := if key(a[0]) == k then [a[0]] else [];
      calc {
        OfKey(a + b, key, k);
        { assert (a + b)[1..] == a[1..] + b; }
        head + OfKey(a[1..] + b, key, k);
        head + (OfKey(a[1..], key, k) + OfKey(b, key, k));
        (head + OfKey(a[1..], key, k)) + OfKey(b, key, k);
      }
    }
  }

  lemma {:induction false} OfKeyIsOf<T>(s: seq<T>, key: T -> int, k: int, x: T)
    ensures x in OfKey(s, key, k) <==> x in s && key(x) == k
  {
    if s != [] {
      OfKeyIsOf(s[1..], key, k, x);
      assert s == [s[0]] + s[1..];
    }
  }

  lemma {:induction false} NoneOfKey<T>(s: seq<T>, key: T -> int, k: int)
    requires forall j :: 0 <= j < |s| ==> key(s[j]) != k
    ensures OfKey(s, key, k) == []
  {
    if s != [] {
      NoneOfKey(s[1..], key, k);
    }
  }

  /** The elements of key `k` around one element. */
  lemma OfKeyAround<T>(before: seq<T>, x: T, after: seq<T>, key: T -> int, k: int)
    ensures OfKey(before + [x] + after, key, k)
         == OfKey(before, key, k) + (if key(x) == k then [x] else []) + OfKey(after, key, k)
  {
    OfKeyConcat(before + [x], after, key, k);
    OfKeyConcat(before, [x], key, k);
  }

  /** Insertion at the first position of smaller key. */
  lemma {:induction false} InsertAt<T>(s: seq<T>, x: T, key: T -> int, i: nat)
    requires i <= |s|
    requires forall j :: 0 <= j < i ==> key(s[j]) >= key(x)
    requires i == |s| || key(x) > key(s[i])
    ensures Insert(s, x, key) == s[..i] + [x] + s[i..]
  {
    if s != [] && i > 0 {
      assert key(s[0]) >= key(x);
      InsertAt(s[1..], x, key, i - 1);
      assert s[..i] == [s[0]] + s[1..][..i - 1];
    }
  }

  lemma {:induction false} InsertSplit<T>(s: seq<T>, x: T, key: T -> int) returns (i: nat)
    ensures i <= |s| && Insert(s, x, key) == s[..i] + [x] + s[i..]
    ensures forall j :: 0 <= j < i ==> key(s[j]) >= key(x)
    ensures i == |s| || key(x) > key(s[i])
  {
    i := 0;
    while i < |s| && key(s[i]) >= key(x)
      invariant i <= |s|
      invariant forall j :: 0 <= j < i ==> key(s[j]) >= key(x)
    {
      i := i + 1;
    }
    InsertAt(s, x, key, i);
  }

  lemma InsertKeepsStable<T>(source: seq<T>, sorted: seq<T>, x: T, key: T -> int)
    requires IsStableSort(source, sorted, key)
    ensures IsStableSort(source + [x], Insert(sorted, x, key), key)
  {
    InsertKeepsDescending(sorted, x, key);
    forall k
      ensures OfKey(Insert(sorted, x, key), key, k) == OfKey(source + [x], key, k)
    {
      OfKeyConcat(source, [x], key, k);
      OfKeyOfInsert(sorted, x, key, k);
    }
  }

  lemma InsertKeepsDescending<T>(s: seq<T>, x: T, key: T -> int)
    requires Descending(s, key)
    ensures Descending(Insert(s, x, key), key)
  {
    var i := InsertSplit(s, x, key);
  }

  lemma OfKeyOfInsert<T>(s: seq<T>, x: T, key: T -> int, k: int)
    requires Descending(s, key)
    ensures OfKey(Insert(s, x, key), key, k) == OfKey(s, key, k) + (if key(x) == k then [x] else [])
  {
    var i := InsertSplit(s, x, key);
    OfKeyAround(s[..i], x, s[i..], key, k);
    OfKeyConcat(s[..i], s[i..], key, k);
    assert s == s[..i] + s[i..];
    var b, a := OfKey(s[..i], key, k), OfKey(s[i..], key, k);
    if k == key(x) {
      NoneOfKey(s[i..], key, k);
      assert b + [x] + a == b + a + [x];
    } else {
      assert b + [] + a == b + a + [];
    }
  }

  lemma {:induction false} SortIsStableSort<T>(s: seq<T>, key: T -> int)
    ensures IsStableSort(s, Sort(s, key), key)
  {
    if s != [] {
      SortIsStableSort(s[..|s| - 1], key);
      InsertKeepsStable(s[..|s| - 1], Sort(s[..|s| - 1], key), s[|s| - 1], key);
      assert s == s[..|s| - 1] + [s[|s| - 1]];
    }
  }

  /** The head of a stable sort is the first source element of the greatest key. */
  lemma HeadIsMax<T>(source: seq<T>, sorted: seq<T>, key: T -> int, x: T)
    requires IsStableSort(source, sorted, key) && x in source
    ensures sorted != [] && key(sorted[0]) >= key(x) && sorted[0] in source
  {
    OfKeyIsOf(source, key, key(x), x);
    OfKeyIsOf(sorted, key, key(x), x);
    OfKeyIsOf(source, key, key(sorted[0]), sorted[0]);
    OfKeyIsOf(sorted, key, key(sorted[0]), sorted[0]);
  }

  lemma OfKeyTail<T>(s: seq<T>, key: T -> int, k: int)
    requires s != []
    ensures OfKey(s[1..], key, k) == OfKey(s, key, k)[if key(s[0]) == k then 1 else 0..]
  {
  }

  /** There is only one stable sort of a sequence. */
  lemma {:induction false} StableSortUnique<T>(source: seq<T>, a: seq<T>, b: seq<T>, key: T -> int)
    requires IsStableSort(source, a, key) && IsStableSort(source, b, key)
    ensures a == b
    decreases |a|
  {
    if a != [] {
      OfKeyIsOf(a, key, key(a[0]), a[0]);
      OfKeyIsOf(source, key, key(a[0]), a[0]);
      HeadIsMax(source, b, key, a[0]);
      HeadIsMax(source, a, key, b[0]);
      var k := key(a[0]);
      assert OfKey(a, key, k)[0] == a[0] && OfKey(b, key, k)[0] == b[0];
      forall r
        ensures OfKey(b[1..], key, r) == OfKey(a[1..], key, r)
      {
        OfKeyTail(a, key, r);
        OfKeyTail(b, key, r);
      }
      StableSortUnique(a[1..], a[1..], b[1..], key);
    } else if b != [] {
      OfKeyIsOf(b, key, key(b[0]), b[0]);
      OfKeyIsOf(a, key, key(b[0]), b[0]);
    }
  }

  lemma {:induction false} InsertIsPermutation<T>(s: seq<T>, x: T, key: T -> int)
    ensures multiset(Insert(s, x, key)) == multiset(s) + multiset{x}
    ensures |Insert(s, x, key)| == |s| + 1
  {
    if s != [] && key(x) <= key(s[0]) {
      InsertIsPermutation(s[1..], x, key);
      assert s == [s[0]] + s[1..];
    }
  }

  lemma {:induction false} SortIsPermutation<T>(s: seq<T>, key: T -> int)
    ensures multiset(Sort(s, key)) == multiset(s) && |Sort(s, key)| == |s|
  {
    if s != [] {
      var front, x := s[..|s| - 1], s[|s| - 1];
      SortIsPermutation(front, key);
      InsertIsPermutation(Sort(front, key), x, key);
      assert s == front + [x];
    }
  }

  /** A sequence already in order is its own stable sort. */
  lemma SortedIsFixed<T>(s: seq<T>, key: T -> int)
    requires Descending(s, key)
    ensures Sort(s, key) == s
  {
    SortIsStableSort(s, key);
    StableSortUnique(s, Sort(s, key), s, key);
  }
}
