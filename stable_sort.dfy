/** `Array.prototype.sort` with a numeric comparator `(a, b) => key(a) - key(b)`,
    as the storefront uses it: ascending in the key, and stable (elements with
    equal keys keep their input order), which is what the language guarantees
    for `sort`. Modelled as an insertion sort on sequences. */
module StableSort {

  ghost predicate SortedBy<T>(s: seq<T>, key: T -> real)
  {
    forall i, j | 0 <= i < j < |s| :: key(s[i]) <= key(s[j])
  }

  /** The elements of `s` whose key is `k`, in their order in `s`. */
  function WithKey<T>(s: seq<T>, key: T -> real, k: real): seq<T>
  {
    if s == [] then []
    else (if key(s[0]) == k then [s[0]] else []) + WithKey(s[1..], key, k)
  }

  /** Puts `x` before the first element whose key is not below its own. */
  function Insert<T>(x: T, s: seq<T>, key: T -> real): seq<T>
  {
    if s == [] || key(x) <= key(s[0]) then [x] + s
    else [s[0]] + Insert(x, s[1..], key)
  }

  /** Inserting adds `x` and loses nothing. */
  lemma {:induction false} InsertPermutes<T>(x: T, s: seq<T>, key: T -> real)
    ensures multiset(Insert(x, s, key)) == multiset(s) + multiset{x}
  {
    if s != [] && key(x) > key(s[0]) {
      InsertPermutes(x, s[1..], key);
      assert s == [s[0]] + s[1..];
    }
  }

  /** A head no greater than any element of a sorted tail keeps it sorted. */
  lemma PrependSorted<T>(h: T, t: seq<T>, key: T -> real)
    requires SortedBy(t, key)
    requires forall i | 0 <= i < |t| :: key(h) <= key(t[i])
    ensures SortedBy([h] + t, key)
  {
    var r := [h] + t;
    forall i, j | 0 <= i < j < |r| ensures key(r[i]) <= key(r[j]) {
      assert r[j] == t[j - 1];
      if i > 0 {
        assert r[i] == t[i - 1];
      }
    }
  }

  /** Inserting into a sorted sequence keeps it sorted. */
  lemma {:induction false} InsertSorted<T>(x: T, s: seq<T>, key: T -> real)
    requires SortedBy(s, key)
    ensures SortedBy(Insert(x, s, key), key)
  {
    if s == [] || key(x) <= key(s[0]) {
      forall i | 0 <= i < |s| ensures key(x) <= key(s[i]) {
        if i > 0 {
          assert key(s[0]) <= key(s[i]);
        }
      }
      PrependSorted(x, s, key);
    } else {
      var tail := s[1..];
      var rest := Insert(x, tail, key);
      assert SortedBy(tail, key) by {
        forall i, j | 0 <= i < j < |tail| ensures key(tail[i]) <= key(tail[j]) {
          assert tail[i] == s[i + 1] && tail[j] == s[j + 1];
        }
      }
      InsertSorted(x, tail, key);
      InsertPermutes(x, tail, key);
      forall i | 0 <= i < |rest| ensures key(s[0]) <= key(rest[i]) {
        assert rest[i] in multiset(rest);
        assert rest[i] in multiset(tail) + multiset{x};
        if rest[i] != x {
          assert rest[i] in tail;
          var j :| 0 <= j < |tail| && tail[j] == rest[i];
          assert tail[j] == s[j + 1];
        }
      }
      PrependSorted(s[0], rest, key);
    }
  }

  /** The sorted copy: a permutation of `s` (ascending in `key`, by
      `SortSorts`). */
  function Sort<T>(s: seq<T>, key: T -> real): (r: seq<T>)
    ensures multiset(r) == multiset(s)
  {
    if s == [] then []
    else
      assert s == [s[0]] + s[1..];
      InsertPermutes(s[0], Sort(s[1..], key), key);
      Insert(s[0], Sort(s[1..], key), key)
  }

  /** The sorted copy is ascending in `key`. */
  lemma {:induction false} SortSorts<T>(s: seq<T>, key: T -> real)
    ensures SortedBy(Sort(s, key), key)
  {
    if s != [] {
      SortSorts(s[1..], key);
      InsertSorted(s[0], Sort(s[1..], key), key);
    }
  }

  function Tie<T>(y: T, key: T -> real, k: real): seq<T>
  {
    if key(y) == k then [y] else []
  }

  lemma WithKeyCons<T>(y: T, t: seq<T>, key: T -> real, k: real)
    ensures WithKey([y] + t, key, k) == Tie(y, key, k) + WithKey(t, key, k)
  {
    assert ([y] + t)[0] == y && ([y] + t)[1..] == t;
  }

  /** Among the elements with key `k`, an inserted `x` comes first: the
      elements it is moved past have a smaller key. */
  lemma {:induction false} InsertKeepsTies<T>(x: T, s: seq<T>, key: T -> real, k: real)
    ensures WithKey(Insert(x, s, key), key, k) == Tie(x, key, k) + WithKey(s, key, k)
  {
    if s == [] || key(x) <= key(s[0]) {
      WithKeyCons(x, s, key, k);
    } else {
      var rest := Insert(x, s[1..], key);
      var w := WithKey(s[1..], key, k);
      assert WithKey(Insert(x, s, key), key, k) == Tie(s[0], key, k) + WithKey(rest, key, k) by {
        assert Insert(x, s, key) == [s[0]] + rest;
        WithKeyCons(s[0], rest, key, k);
      }
      assert WithKey(s, key, k) == Tie(s[0], key, k) + w by {
        WithKeyCons(s[0], s[1..], key, k);
        assert [s[0]] + s[1..] == s;
      }
      assert WithKey(rest, key, k) == Tie(x, key, k) + w by {
        InsertKeepsTies(x, s[1..], key, k);
      }
      if key(s[0]) == k {
        assert Tie(x, key, k) == [];
      } else {
        assert Tie(s[0], key, k) == [];
      }
    }
  }

  /** Stability: among elements with the same key, the sorted copy keeps the
      input order. */
  lemma {:induction false} SortIsStable<T>(s: seq<T>, key: T -> real, k: real)
    ensures WithKey(Sort(s, key), key, k) == WithKey(s, key, k)
  {
    if s != [] {
      SortIsStable(s[1..], key, k);
      InsertKeepsTies(s[0], Sort(s[1..], key), key, k);
    }
  }

  /** No two distinct elements of `s` share a key. */
  ghost predicate DistinctKeys<T>(s: seq<T>, key: T -> real)
  {
    forall x, y | x in s && y in s && key(x) == key(y) :: x == y
  }

  lemma SortedHeadsAgree<T>(a: seq<T>, b: seq<T>, key: T -> real)
    requires a != [] && multiset(a) == multiset(b)
    requires SortedBy(a, key) && SortedBy(b, key)
    requires DistinctKeys(a, key)
    ensures b != [] && a[0] == b[0]
  {
    assert a[0] in multiset(b);
    var i :| 0 <= i < |b| && b[i] == a[0];
    assert b[0] in multiset(a);
    var j :| 0 <= j < |a| && a[j] == b[0];
    assert key(b[0]) <= key(a[0]) <= key(b[0]);
  }

  lemma TailsAgree<T>(a: seq<T>, b: seq<T>)
    requires a != [] && b != [] && a[0] == b[0]
    requires multiset(a) == multiset(b)
    ensures multiset(a[1..]) == multiset(b[1..])
  {
    assert a == [a[0]] + a[1..];
    assert b == [b[0]] + b[1..];
    assert multiset(a[1..]) == multiset(a) - multiset{a[0]};
  }

  /** With distinct keys there is only one sorted permutation. */
  lemma {:induction false} SortedPermutationUnique<T>(a: seq<T>, b: seq<T>, key: T -> real)
    requires multiset(a) == multiset(b)
    requires SortedBy(a, key) && SortedBy(b, key)
    requires DistinctKeys(a, key)
    ensures a == b
  {
    if a == [] {
      assert |b| == |multiset(b)| == 0;
    } else {
      SortedHeadsAgree(a, b, key);
      TailsAgree(a, b);
      assert DistinctKeys(a[1..], key) by {
        forall x, y | x in a[1..] && y in a[1..] && key(x) == key(y) ensures x == y {
          assert x in a && y in a;
        }
      }
      SortedPermutationUnique(a[1..], b[1..], key);
      assert a == [a[0]] + a[1..] && b == [b[0]] + b[1..];
    }
  }

  function Reverse<T>(s: seq<T>): (r: seq<T>)
    ensures |r| == |s| && forall i | 0 <= i < |s| :: r[i] == s[|s| - 1 - i]
  {
    if s == [] then [] else Reverse(s[1..]) + [s[0]]
  }

  lemma {:induction false} ReverseMultiset<T>(s: seq<T>)
    ensures multiset(Reverse(s)) == multiset(s)
  {
    if s != [] {
      ReverseMultiset(s[1..]);
      assert s == [s[0]] + s[1..];
    }
  }

  lemma ReverseOfSortedIsSortedByNegation<T>(s: seq<T>, key: T -> real, neg: T -> real)
    requires forall x :: neg(x) == -key(x)
    requires SortedBy(s, key)
    ensures SortedBy(Reverse(s), neg)
  {
    var r := Reverse(s);
    forall i, j | 0 <= i < j < |r| ensures neg(r[i]) <= neg(r[j]) {
      assert r[i] == s[|s| - 1 - i] && r[j] == s[|s| - 1 - j];
      assert key(r[j]) <= key(r[i]);
    }
  }

  /** Distinct keys stay distinct when negated, in any permutation. */
  lemma DistinctNegatedKeys<T>(p: seq<T>, s: seq<T>, key: T -> real, neg: T -> real)
    requires forall x :: neg(x) == -key(x)
    requires multiset(p) == multiset(s)
    requires DistinctKeys(s, key)
    ensures DistinctKeys(p, neg)
  {
    forall x, y | x in p && y in p && neg(x) == neg(y) ensures x == y {
      assert x in multiset(s) && y in multiset(s);
      assert key(x) == key(y);
    }
  }

  /** Sorting by the negated key gives the reverse of sorting by the key,
      when no two elements share a key. */
  lemma SortNegatedIsReverse<T>(s: seq<T>, key: T -> real, neg: T -> real)
    requires forall x :: neg(x) == -key(x)
    requires DistinctKeys(s, key)
    ensures Sort(s, neg) == Reverse(Sort(s, key))
  {
    var up := Sort(s, key);
    var down := Reverse(up);
    var byNeg := Sort(s, neg);
    assert SortedBy(down, neg) by {
      SortSorts(s, key);
      ReverseOfSortedIsSortedByNegation(up, key, neg);
    }
    assert SortedBy(byNeg, neg) by {
      SortSorts(s, neg);
    }
    assert multiset(byNeg) == multiset(down) by {
      ReverseMultiset(up);
    }
    assert DistinctKeys(byNeg, neg) by {
      DistinctNegatedKeys(byNeg, s, key, neg);
    }
    SortedPermutationUnique(byNeg, down, neg);
  }
}
