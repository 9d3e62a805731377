/** Python's sorted(xs, key=key, reverse=True) on real keys: largest key first, and elements
    with equal keys keep the order they had in xs (Python's sort is stable, also when it
    reverses). */
module StableSort {

  /** Keys never increase from left to right. */
  predicate SortedDesc<T>(s: seq<T>, key: T -> real)
  {
    forall i, j :: 0 <= i < j < |s| ==> key(s[i]) >= key(s[j])
  }

  /** The elements of s whose key is v, in their order in s. */
  function WithKey<T>(s: seq<T>, key: T -> real, v: real): seq<T>
    decreases |s|
  {
    if s == [] then []
    else WithKey(s[..|s| - 1], key, v) + (if key(s[|s| - 1]) == v then [s[|s| - 1]] else [])
  }

  /** x inserted into descending t after every element whose key is at least x's. */
  function Insert<T>(t: seq<T>, x: T, key: T -> real): seq<T>
    decreases |t|
  {
    if t == [] then [x]
    else if key(t[0]) >= key(x) then [t[0]] + Insert(t[1..], x, key)
    else [x] + t
  }

  /** sorted(s, key=key, reverse=True), as an insertion sort. */
  function SortDesc<T>(s: seq<T>, key: T -> real): seq<T>
    decreases |s|
  {
    if s == [] then [] else Insert(SortDesc(s[..|s| - 1], key), s[|s| - 1], key)
  }

  /** Filtering distributes over concatenation. */
  lemma {:induction false} WithKeyAppend<T>(a: seq<T>, b: seq<T>, key: T -> real, v: real)
    ensures WithKey(a + b, key, v) == WithKey(a, key, v) + WithKey(b, key, v)
    decreases |b|
  {
    if b != [] {
      assert (a + b)[..|a + b| - 1] == a + b[..|b| - 1];
      WithKeyAppend(a, b[..|b| - 1], key, v);
    } else {
      assert a + b == a;
    }
  }

  /** No element with key v, nothing kept. */
  lemma {:induction false} WithKeyNone<T>(s: seq<T>, key: T -> real, v: real)
    requires forall i :: 0 <= i < |s| ==> key(s[i]) != v
    ensures WithKey(s, key, v) == []
    decreases |s|
  {
    if s != [] {
      WithKeyNone(s[..|s| - 1], key, v);
    }
  }

  /** Insert adds exactly x and keeps t's order. */
  lemma {:induction false} InsertElements<T>(t: seq<T>, x: T, key: T -> real)
    ensures multiset(Insert(t, x, key)) == multiset(t) + multiset{x}
    decreases |t|
  {
    if t != [] && key(t[0]) >= key(x) {
      InsertElements(t[1..], x, key);
      assert t == [t[0]] + t[1..];
    }
  }

  /** Insert into a descending sequence gives a descending sequence. */
  lemma {:induction false} InsertSorted<T>(t: seq<T>, x: T, key: T -> real)
    requires SortedDesc(t, key)
    ensures SortedDesc(Insert(t, x, key), key)
    decreases |t|
  {
    var r := Insert(t, x, key);
    if t == [] {
    } else if key(t[0]) >= key(x) {
      var rest := Insert(t[1..], x, key);
      InsertSorted(t[1..], x, key);
      assert r == [t[0]] + rest;
      assert key(t[0]) >= key(rest[0]) by {
        if |t| > 1 && key(t[1]) >= key(x) {
          assert rest[0] == t[1];
        } else {
          assert rest[0] == x;
        }
      }
      forall i, j | 0 <= i < j < |r|
        ensures key(r[i]) >= key(r[j])
      {
        if i == 0 {
          assert key(rest[0]) >= key(rest[j - 1]) || j == 1;
        } else {
          assert r[i] == rest[i - 1] && r[j] == rest[j - 1];
        }
      }
    } else {
      assert r == [x] + t;
      forall i, j | 0 <= i < j < |r|
        ensures key(r[i]) >= key(r[j])
      {
        if i == 0 {
          assert key(t[0]) >= key(t[j - 1]) || j == 1;
        } else {
          assert r[i] == t[i - 1] && r[j] == t[j - 1];
        }
      }
    }
  }

  /** Concatenation is associative. */
  lemma ConcatAssociative<T>(a: seq<T>, b: seq<T>, c: seq<T>)
    ensures a + (b + c) == (a + b) + c
  {
  }

  /** Filtering a sequence with one element put in front. */
  lemma WithKeyCons<T>(a: T, s: seq<T>, key: T -> real, v: real)
    ensures WithKey([a] + s, key, v) == (if key(a) == v then [a] else []) + WithKey(s, key, v)
  {
    WithKeyAppend([a], s, key, v);
    assert [a][..0] == [];
  }

  /** Insert puts x after the elements of t with x's key, and leaves the other keys alone. */
  lemma {:induction false} InsertStable<T>(t: seq<T>, x: T, key: T -> real, v: real)
    requires SortedDesc(t, key)
    ensures WithKey(Insert(t, x, key), key, v) == WithKey(t, key, v) + (if key(x) == v then [x] else [])
    decreases |t|
  {
    var here := if key(x) == v then [x] else [];
    if t == [] {
      WithKeyCons(x, [], key, v);
      assert [x] + [] == [x];
    } else if key(t[0]) >= key(x) {
      var rest := Insert(t[1..], x, key);
      var first := if key(t[0]) == v then [t[0]] else [];
      var later := WithKey(t[1..], key, v);
      assert Insert(t, x, key) == [t[0]] + rest;
      InsertStable(t[1..], x, key, v);
      WithKeyCons(t[0], rest, key, v);
      assert WithKey(Insert(t, x, key), key, v) == first + (later + here);
      WithKeyCons(t[0], t[1..], key, v);
      assert [t[0]] + t[1..] == t;
      assert WithKey(t, key, v) == first + later;
      ConcatAssociative(first, later, here);
    } else {
      assert Insert(t, x, key) == [x] + t;
      WithKeyCons(x, t, key, v);
      if key(x) == v {
        WithKeyNone(t, key, v);
      }
    }
  }

  /** The result is descending by key. */
  lemma {:induction false} SortDescSorted<T>(s: seq<T>, key: T -> real)
    ensures SortedDesc(SortDesc(s, key), key)
    decreases |s|
  {
    if s != [] {
      SortDescSorted(s[..|s| - 1], key);
      InsertSorted(SortDesc(s[..|s| - 1], key), s[|s| - 1], key);
    }
  }

  /** The result is a permutation of the input. */
  lemma {:induction false} SortDescPermutes<T>(s: seq<T>, key: T -> real)
    ensures multiset(SortDesc(s, key)) == multiset(s)
    decreases |s|
  {
    if s != [] {
      SortDescPermutes(s[..|s| - 1], key);
      InsertElements(SortDesc(s[..|s| - 1], key), s[|s| - 1], key);
      assert s == s[..|s| - 1] + [s[|s| - 1]];
    }
  }

  /** Stability: the elements with any one key come out in their input order. */
  lemma {:induction false} SortDescStable<T>(s: seq<T>, key: T -> real, v: real)
    ensures WithKey(SortDesc(s, key), key, v) == WithKey(s, key, v)
    decreases |s|
  {
    if s != [] {
      SortDescStable(s[..|s| - 1], key, v);
      SortDescSorted(s[..|s| - 1], key);
      InsertStable(SortDesc(s[..|s| - 1], key), s[|s| - 1], key, v);
    }
  }
}
