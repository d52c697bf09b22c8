/** A stable sort by an integer key, standing for Rust's `slice::sort_by_key`
    (which is documented as stable). Stability is stated per key: the
    elements sharing a key keep their relative order. */
module StableSort {

  predicate SortedBy<T>(s: seq<T>, key: T -> int) {
    forall i, j :: 0 <= i < j < |s| ==> key(s[i]) <= key(s[j])
  }

  /** The elements of `s` whose key is `k`, in their order in `s`. */
  function WithKey<T>(s: seq<T>, key: T -> int, k: int): seq<T> {
    if |s| == 0 then []
    else (if key(s[0]) == k then [s[0]] else []) + WithKey(s[1..], key, k)
  }

  /** Places `x` in front of the first element whose key is not smaller. */
  function Insert<T>(x: T, s: seq<T>, key: T -> int): (r: seq<T>)
    requires SortedBy(s, key)
    ensures SortedBy(r, key)
    ensures multiset(r) == multiset(s) + multiset{x}
    ensures forall k :: WithKey(r, key, k) == (if key(x) == k then [x] else []) + WithKey(s, key, k)
  {
    if |s| == 0 || key(x) <= key(s[0]) then
      assert ([x] + s)[1..] == s;
      [x] + s
    else
      var rest := Insert(x, s[1..], key);
      InsertStep(x, s, rest, key);
      [s[0]] + rest
  }

  /** The inductive step of `Insert`: putting `s[0]` back in front of the
      insertion into `s[1..]` keeps all three properties. */
  lemma InsertStep<T>(x: T, s: seq<T>, rest: seq<T>, key: T -> int)
    requires |s| > 0 && key(s[0]) < key(x)
    requires SortedBy(s, key) && SortedBy(rest, key)
    requires multiset(rest) == multiset(s[1..]) + multiset{x}
    requires forall k :: WithKey(rest, key, k) == (if key(x) == k then [x] else []) + WithKey(s[1..], key, k)
    ensures SortedBy([s[0]] + rest, key)
    ensures multiset([s[0]] + rest) == multiset(s) + multiset{x}
    ensures forall k :: WithKey([s[0]] + rest, key, k) == (if key(x) == k then [x] else []) + WithKey(s, key, k)
  {
    assert s == [s[0]] + s[1..];
    InsertStepSorted(x, s, rest, key);
    forall k
      ensures WithKey([s[0]] + rest, key, k) == (if key(x) == k then [x] else []) + WithKey(s, key, k)
    {
      InsertStepWithKey(x, s, rest, key, k);
    }
  }

  lemma InsertStepSorted<T>(x: T, s: seq<T>, rest: seq<T>, key: T -> int)
    requires |s| > 0 && key(s[0]) < key(x)
    requires SortedBy(s, key) && SortedBy(rest, key)
    requires multiset(rest) == multiset(s[1..]) + multiset{x}
    ensures SortedBy([s[0]] + rest, key)
  {
    var r := [s[0]] + rest;
    forall i | 0 <= i < |rest|
      ensures key(s[0]) <= key(rest[i])
    {
      assert rest[i] in multiset(rest);
      if rest[i] != x {
        assert rest[i] in multiset(s[1..]);
        var j :| 0 <= j < |s[1..]| && s[1..][j] == rest[i];
        assert s[1 + j] == rest[i];
      }
    }
    forall i, j | 0 <= i < j < |r|
      ensures key(r[i]) <= key(r[j])
    {
      if i > 0 {
        assert r[i] == rest[i - 1] && r[j] == rest[j - 1];
      } else {
        assert r[j] == rest[j - 1];
      }
    }
  }

  lemma InsertStepWithKey<T>(x: T, s: seq<T>, rest: seq<T>, key: T -> int, k: int)
    requires |s| > 0 && key(s[0]) < key(x)
    requires WithKey(rest, key, k) == (if key(x) == k then [x] else []) + WithKey(s[1..], key, k)
    ensures WithKey([s[0]] + rest, key, k) == (if key(x) == k then [x] else []) + WithKey(s, key, k)
  {
    WithKeyCons(s[0], rest, key, k);
    WithKeyCons(s[0], s[1..], key, k);
    assert [s[0]] + s[1..] == s;
  }

  lemma WithKeyCons<T>(y: T, t: seq<T>, key: T -> int, k: int)
    ensures WithKey([y] + t, key, k) == (if key(y) == k then [y] else []) + WithKey(t, key, k)
  {
    assert ([y] + t)[1..] == t;
  }

  /** Insertion sort; each element goes in front of the equal keys already
      placed, which are the ones that followed it. */
  function SortByKey<T>(s: seq<T>, key: T -> int): (r: seq<T>)
    ensures SortedBy(r, key)
    ensures multiset(r) == multiset(s)
    ensures |r| == |s|
    ensures forall k :: WithKey(r, key, k) == WithKey(s, key, k)
  {
    if |s| == 0 then []
    else
      assert s == [s[0]] + s[1..];
      Insert(s[0], SortByKey(s[1..], key), key)
  }

  lemma {:induction false} SmallestKeyFirst<T>(s: seq<T>, key: T -> int, k: int)
    requires SortedBy(s, key)
    requires WithKey(s, key, k) != []
    ensures |s| > 0 && key(s[0]) <= k
  {
    if key(s[0]) != k {
      SmallestKeyFirst(s[1..], key, k);
    }
  }

  lemma HeadHasItsKey<T>(s: seq<T>, key: T -> int)
    ensures |s| > 0 ==> WithKey(s, key, key(s[0])) != []
  {
  }

  /** Sortedness and per-key order determine the result: every stable sort
      of a sequence yields the same sequence, so any stable sort by `order`
      (in particular `sort_by_key`) equals `SortByKey`. */
  lemma {:induction false} StableSortIsUnique<T>(a: seq<T>, b: seq<T>, key: T -> int)
    requires SortedBy(a, key) && SortedBy(b, key)
    requires forall k :: WithKey(a, key, k) == WithKey(b, key, k)
    ensures a == b
    decreases |a|
  {
    if |a| == 0 || |b| == 0 {
      HeadHasItsKey(a, key);
      HeadHasItsKey(b, key);
    } else {
      SameHead(a, b, key);
      forall k
        ensures WithKey(a[1..], key, k) == WithKey(b[1..], key, k)
      {
        TailsAgree(a, b, key, k);
      }
      StableSortIsUnique(a[1..], b[1..], key);
      assert a == [a[0]] + a[1..] && b == [b[0]] + b[1..];
    }
  }

  /** Two sorted sequences with the same elements per key start alike: both
      start with the first element of the smallest key. */
  lemma SameHead<T>(a: seq<T>, b: seq<T>, key: T -> int)
    requires |a| > 0 && |b| > 0
    requires SortedBy(a, key) && SortedBy(b, key)
    requires forall k :: WithKey(a, key, k) == WithKey(b, key, k)
    ensures a[0] == b[0]
  {
    var m := key(a[0]);
    assert WithKey(a, key, m) != [];
    SmallestKeyFirst(b, key, m);
    assert WithKey(b, key, key(b[0])) != [];
    SmallestKeyFirst(a, key, key(b[0]));
    assert WithKey(a, key, m)[0] == a[0] && WithKey(b, key, m)[0] == b[0];
  }

  /** Dropping a shared head keeps the per-key subsequences equal. */
  lemma TailsAgree<T>(a: seq<T>, b: seq<T>, key: T -> int, k: int)
    requires |a| > 0 && |b| > 0 && a[0] == b[0]
    requires WithKey(a, key, k) == WithKey(b, key, k)
    ensures WithKey(a[1..], key, k) == WithKey(b[1..], key, k)
  {
    var head := if key(a[0]) == k then [a[0]] else [];
    assert WithKey(a, key, k) == head + WithKey(a[1..], key, k);
    assert WithKey(b, key, k) == head + WithKey(b[1..], key, k);
    assert WithKey(a[1..], key, k) == WithKey(a, key, k)[|head|..];
    assert WithKey(b[1..], key, k) == WithKey(b, key, k)[|head|..];
  }
}
