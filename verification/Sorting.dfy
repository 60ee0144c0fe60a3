/** The stable ascending sort that JavaScript's `Array.prototype.sort` performs with a
    comparator of the form `(a, b) => key(a) - key(b)`. */
module Sorting {

  ghost predicate SortedBy<T>(s: seq<T>, key: T -> int)
  {
    forall i, j :: 0 <= i < j < |s| ==> key(s[i]) <= key(s[j])
  }

  /** Puts x behind every element of s whose key does not exceed its own. */
  function Insert<T>(s: seq<T>, x: T, key: T -> int): (r: seq<T>)
    ensures |r| == |s| + 1
  {
    if s == [] then [x]
    else if key(s[|s| - 1]) <= key(x) then s + [x]
    else Insert(s[..|s| - 1], x, key) + [s[|s| - 1]]
  }

  function StableSort<T>(s: seq<T>, key: T -> int): (r: seq<T>)
    ensures |r| == |s|
  {
    if s == [] then [] else Insert(StableSort(s[..|s| - 1], key), s[|s| - 1], key)
  }

  /** The elements of s with key v, in order. */
  function WithKey<T>(s: seq<T>, key: T -> int, v: int): seq<T>
  {
    if s == [] then []
    else WithKey(s[..|s| - 1], key, v) + if key(s[|s| - 1]) == v then [s[|s| - 1]] else []
  }

  lemma {:induction false} InsertContents<T>(s: seq<T>, x: T, key: T -> int)
    ensures multiset(Insert(s, x, key)) == multiset(s) + multiset{x}
  {
    if s != [] {
      assert s == s[..|s| - 1] + [s[|s| - 1]];
      InsertContents(s[..|s| - 1], x, key);
    }
  }

  lemma {:induction false} InsertSorted<T>(s: seq<T>, x: T, key: T -> int)
    requires SortedBy(s, key)
    ensures SortedBy(Insert(s, x, key), key)
  {
    if s != [] && key(s[|s| - 1]) > key(x) {
      var front, last := s[..|s| - 1], s[|s| - 1];
      InsertSorted(front, x, key);
      InsertContents(front, x, key);
      var r := Insert(front, x, key);
      forall i | 0 <= i < |r| ensures key(r[i]) <= key(last) {
        assert r[i] in multiset(r);
        assert r[i] == x || r[i] in front;
      }
    }
  }

  lemma {:induction false} InsertKeepsTies<T>(s: seq<T>, x: T, key: T -> int, v: int)
    requires SortedBy(s, key)
    ensures WithKey(Insert(s, x, key), key, v) == WithKey(s + [x], key, v)
  {
    assert (s + [x])[..|s|] == s;
    if s == [] {
      assert s + [x] == [x];
    } else if key(s[|s| - 1]) > key(x) {
      var front, last := s[..|s| - 1], s[|s| - 1];
      InsertKeepsTies(front, x, key, v);
      var r := Insert(front, x, key);
      assert (r + [last])[..|r|] == r;
      assert (front + [x])[..|front|] == front;
    }
  }

  /** Sorted, same elements, and elements with equal keys keep their order. These three
      facts determine the result. */
  lemma {:induction false} StableSortIsStable<T>(s: seq<T>, key: T -> int)
    ensures SortedBy(StableSort(s, key), key)
    ensures multiset(StableSort(s, key)) == multiset(s)
    ensures forall v :: WithKey(StableSort(s, key), key, v) == WithKey(s, key, v)
  {
    if s != [] {
      var front, last := s[..|s| - 1], s[|s| - 1];
      assert s == front + [last];
      StableSortIsStable(front, key);
      InsertSorted(StableSort(front, key), last, key);
      InsertContents(StableSort(front, key), last, key);
      forall v ensures WithKey(StableSort(s, key), key, v) == WithKey(s, key, v) {
        var t := StableSort(front, key);
        InsertKeepsTies(t, last, key, v);
        assert (t + [last])[..|t|] == t;
      }
    }
  }

  lemma {:induction false} SortOfSorted<T>(s: seq<T>, key: T -> int)
    requires SortedBy(s, key)
    ensures StableSort(s, key) == s
  {
    if s != [] {
      SortOfSorted(s[..|s| - 1], key);
    }
  }

  lemma {:induction false} InsertBehind<T>(a: seq<T>, b: seq<T>, x: T, key: T -> int)
    requires forall i :: 0 <= i < |a| ==> key(a[i]) <= key(x)
    ensures Insert(a + b, x, key) == a + Insert(b, x, key)
  {
    if b == [] {
      assert a + b == a;
    } else {
      assert (a + b)[..|a + b| - 1] == a + b[..|b| - 1];
      InsertBehind(a, b[..|b| - 1], x, key);
      assert a + (b + [x]) == a + b + [x];
    }
  }

  /** A batch of strictly later elements is sorted behind the earlier ones. */
  lemma {:induction false} SortOfLaterBatch<T>(a: seq<T>, b: seq<T>, key: T -> int)
    requires forall i, j :: 0 <= i < |a| && 0 <= j < |b| ==> key(a[i]) < key(b[j])
    ensures StableSort(a + b, key) == StableSort(a, key) + StableSort(b, key)
  {
    if b == [] {
      assert a + b == a;
    } else {
      var front, last := b[..|b| - 1], b[|b| - 1];
      assert (a + b)[..|a + b| - 1] == a + front;
      SortOfLaterBatch(a, front, key);
      StableSortIsStable(a, key);
      forall i | 0 <= i < |a| ensures key(StableSort(a, key)[i]) <= key(last) {
        assert StableSort(a, key)[i] in multiset(StableSort(a, key));
        var k :| 0 <= k < |a| && a[k] == StableSort(a, key)[i];
        assert key(a[k]) < key(b[|b| - 1]);
      }
      InsertBehind(StableSort(a, key), StableSort(front, key), last, key);
    }
  }

  lemma InsertBeforeLast<T>(s: seq<T>, z: T, y: T, key: T -> int)
    ensures Insert(s + [z], y, key) == if key(z) <= key(y) then s + [z, y] else Insert(s, y, key) + [z]
  {
    assert (s + [z])[..|s|] == s && s + [z] + [y] == s + [z, y];
  }

  lemma {:induction false} InsertIntoBoth<T>(s: seq<T>, x: T, t: seq<T>, y: T, key: T -> int)
    returns (u: seq<T>, v: seq<T>)
    requires SortedBy(s + [x] + t, key)
    ensures Insert(s + t, y, key) == u + v && Insert(s + [x] + t, y, key) == u + [x] + v
    decreases |t|
  {
    if t == [] {
      assert s + t == s && s + [x] + t == s + [x];
      u, v := InsertAtEnd(s, x, y, key);
    } else {
      var front, z := t[..|t| - 1], t[|t| - 1];
      var l, r := s + front, s + [x] + front;
      assert s + t == l + [z] && s + [x] + t == r + [z];
      InsertBeforeLast(l, z, y, key);
      InsertBeforeLast(r, z, y, key);
      if key(z) <= key(y) {
        u, v := s, front + [z, y];
      } else {
        u, v := InsertIntoBoth(s, x, front, y, key);
        v := v + [z];
      }
    }
  }

  lemma InsertAtEnd<T>(s: seq<T>, x: T, y: T, key: T -> int) returns (u: seq<T>, v: seq<T>)
    requires SortedBy(s + [x], key)
    ensures Insert(s, y, key) == u + v && Insert(s + [x], y, key) == u + [x] + v
  {
    assert (s + [x])[..|s|] == s && (s + [x])[|s|] == x;
    if key(x) <= key(y) {
      assert s != [] ==> key((s + [x])[|s| - 1]) <= key((s + [x])[|s|]);
      u, v := s, [y];
    } else {
      u, v := Insert(s, y, key), [];
    }
  }

  lemma SortOfSnoc<T>(s: seq<T>, x: T, key: T -> int)
    ensures StableSort(s + [x], key) == Insert(StableSort(s, key), x, key)
    ensures SortedBy(StableSort(s, key), key)
  {
    assert (s + [x])[..|s|] == s;
    StableSortIsStable(s, key);
  }

  /** One element more is sorted into the others, which keep their order. */
  lemma {:induction false} SortWithOneMore<T>(a: seq<T>, x: T, b: seq<T>, key: T -> int) returns (s: seq<T>, t: seq<T>)
    ensures StableSort(a + b, key) == s + t && StableSort(a + [x] + b, key) == s + [x] + t
    decreases |b|
  {
    if b == [] {
      assert a + b == a && a + [x] + b == a + [x];
      SortOfSnoc(a, x, key);
      s, t := InsertSplits(StableSort(a, key), x, key);
    } else {
      var front, last := b[..|b| - 1], b[|b| - 1];
      var l, r := a + front, a + [x] + front;
      assert a + b == l + [last] && a + [x] + b == r + [last];
      var u, v := SortWithOneMore(a, x, front, key);
      s, t := SortWithTwoMore(l, r, last, u, x, v, key);
    }
  }

  lemma SortWithTwoMore<T>(a: seq<T>, b: seq<T>, y: T, u: seq<T>, x: T, v: seq<T>, key: T -> int)
    returns (s: seq<T>, t: seq<T>)
    requires StableSort(a, key) == u + v && StableSort(b, key) == u + [x] + v
    ensures StableSort(a + [y], key) == s + t && StableSort(b + [y], key) == s + [x] + t
  {
    SortOfSnoc(a, y, key);
    SortOfSnoc(b, y, key);
    s, t := InsertIntoBoth(u, x, v, y, key);
  }

  lemma {:induction false} InsertSplits<T>(a: seq<T>, x: T, key: T -> int) returns (s: seq<T>, t: seq<T>)
    ensures a == s + t && Insert(a, x, key) == s + [x] + t
  {
    if a == [] || key(a[|a| - 1]) <= key(x) {
      s, t := a, [];
    } else {
      s, t := InsertSplits(a[..|a| - 1], x, key);
      t := t + [a[|a| - 1]];
    }
  }
}
