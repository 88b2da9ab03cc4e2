/** The ordering produced by `[...xs].sort((a, b) => key(b) - key(a))`.
    Section 23.1.3.30 of ECMA-262 (2023) requires `Array.prototype.sort` to be
    stable, so the result is the non-increasing rearrangement that keeps
    elements with equal keys in their input order. Insertion sort computes
    exactly that ordering; the lemmas below state its three defining facts
    (sorted, a permutation, stable) and that sorting a sorted list changes nothing. */
module StableSort {
  import opened Seqs

  /** Place `x`, which came before every element of `s`, in front of the first element whose key is not larger. */
  function Insert<T>(x: T, s: seq<T>, key: T -> real): seq<T>
  {
    if s == [] then [x]
    else if key(s[0]) <= key(x) then [x] + s
    else [s[0]] + Insert(x, s[1..], key)
  }

  function SortDesc<T>(s: seq<T>, key: T -> real): seq<T>
  {
    if s == [] then [] else Insert(s[0], SortDesc(s[1..], key), key)
  }

  ghost predicate SortedDesc<T>(s: seq<T>, key: T -> real)
  {
    forall i, j :: 0 <= i < j < |s| ==> key(s[i]) >= key(s[j])
  }

  /** The elements of `s` whose key is `v`, in order. */
  function KeyClass<T>(s: seq<T>, key: T -> real, v: real): seq<T>
  {
    if s == [] then []
    else (if key(s[0]) == v then [s[0]] else []) + KeyClass(s[1..], key, v)
  }

  lemma {:induction false} InsertPerm<T>(x: T, s: seq<T>, key: T -> real)
    ensures multiset(Insert(x, s, key)) == multiset(s) + multiset{x}
    ensures |Insert(x, s, key)| == |s| + 1
    decreases |s|
  {
    if s != [] && key(s[0]) > key(x) {
      InsertPerm(x, s[1..], key);
      assert s == [s[0]] + s[1..];
    }
  }

  lemma SortedTail<T>(s: seq<T>, key: T -> real)
    requires s != [] && SortedDesc(s, key)
    ensures SortedDesc(s[1..], key)
  {
    var t := s[1..];
    forall i, j | 0 <= i < j < |t| ensures key(t[i]) >= key(t[j]) {
      assert t[i] == s[i + 1] && t[j] == s[j + 1];
    }
  }

  lemma SortedCons<T>(x: T, t: seq<T>, key: T -> real)
    requires SortedDesc(t, key)
    requires forall k :: 0 <= k < |t| ==> key(x) >= key(t[k])
    ensures SortedDesc([x] + t, key)
  {
    var s := [x] + t;
    forall i, j | 0 <= i < j < |s| ensures key(s[i]) >= key(s[j]) {
      assert s[j] == t[j - 1];
      if i > 0 {
        assert s[i] == t[i - 1];
      }
    }
  }

  lemma {:induction false} InsertSorted<T>(x: T, s: seq<T>, key: T -> real)
    requires SortedDesc(s, key)
    ensures SortedDesc(Insert(x, s, key), key)
    decreases |s|
  {
    if s == [] {
    } else if key(s[0]) <= key(x) {
      forall k | 0 <= k < |s| ensures key(x) >= key(s[k]) {
        assert key(s[0]) >= key(s[k]);
      }
      SortedCons(x, s, key);
    } else {
      var t := s[1..];
      SortedTail(s, key);
      InsertSorted(x, t, key);
      InsertPerm(x, t, key);
      var r := Insert(x, t, key);
      forall k | 0 <= k < |r| ensures key(s[0]) >= key(r[k]) {
        assert r[k] in multiset(t) + multiset{x};
        if r[k] != x {
          assert r[k] in t;
          var m :| 0 <= m < |t| && t[m] == r[k];
          assert s[m + 1] == r[k];
        }
      }
      SortedCons(s[0], r, key);
    }
  }

  /** Sorting yields a non-increasing permutation of the input. */
  lemma SortDescSpec<T>(s: seq<T>, key: T -> real)
    ensures SortedDesc(SortDesc(s, key), key)
    ensures multiset(SortDesc(s, key)) == multiset(s)
    ensures |SortDesc(s, key)| == |s|
  {
    SortDescSorted(s, key);
    SortDescPerm(s, key);
  }

  lemma {:induction false} SortDescSorted<T>(s: seq<T>, key: T -> real)
    ensures SortedDesc(SortDesc(s, key), key)
    decreases |s|
  {
    if s != [] {
      SortDescSorted(s[1..], key);
      InsertSorted(s[0], SortDesc(s[1..], key), key);
    }
  }

  lemma {:induction false} SortDescPerm<T>(s: seq<T>, key: T -> real)
    ensures multiset(SortDesc(s, key)) == multiset(s)
    ensures |SortDesc(s, key)| == |s|
    decreases |s|
  {
    if s != [] {
      SortDescPerm(s[1..], key);
      InsertPerm(s[0], SortDesc(s[1..], key), key);
      assert s == [s[0]] + s[1..];
    }
  }

  lemma KeyClassCons<T>(x: T, t: seq<T>, key: T -> real, v: real)
    ensures KeyClass([x] + t, key, v) == (if key(x) == v then [x] else []) + KeyClass(t, key, v)
  {
    assert ([x] + t)[0] == x;
    assert ([x] + t)[1..] == t;
  }

  lemma {:induction false} InsertKeyClass<T>(x: T, s: seq<T>, key: T -> real, v: real)
    ensures KeyClass(Insert(x, s, key), key, v)
         == (if key(x) == v then [x] else []) + KeyClass(s, key, v)
    decreases |s|
  {
    if s == [] {
      KeyClassCons(x, s, key, v);
    } else if key(s[0]) <= key(x) {
      KeyClassCons(x, s, key, v);
    } else {
      var r := Insert(x, s[1..], key);
      InsertKeyClass(x, s[1..], key, v);
      KeyClassCons(s[0], r, key, v);
      KeyClassCons(s[0], s[1..], key, v);
      assert s == [s[0]] + s[1..];
      if key(s[0]) == v {
        assert key(x) != v;
      }
    }
  }

  /** Stability: for every key value, the elements carrying it appear in the same order as in the input. */
  lemma {:induction false} SortDescStable<T>(s: seq<T>, key: T -> real, v: real)
    ensures KeyClass(SortDesc(s, key), key, v) == KeyClass(s, key, v)
    decreases |s|
  {
    if s != [] {
      SortDescStable(s[1..], key, v);
      InsertKeyClass(s[0], SortDesc(s[1..], key), key, v);
    }
  }

  /** A list that is already in order is left as it is; so sorting twice is sorting once. */
  lemma {:induction false} SortDescOfSorted<T>(s: seq<T>, key: T -> real)
    requires SortedDesc(s, key)
    ensures SortDesc(s, key) == s
    decreases |s|
  {
    if s != [] {
      var t := s[1..];
      SortedTail(s, key);
      SortDescOfSorted(t, key);
      assert s == [s[0]] + t;
    }
  }

  lemma SortDescIdempotent<T>(s: seq<T>, key: T -> real)
    ensures SortDesc(SortDesc(s, key), key) == SortDesc(s, key)
  {
    SortDescSpec(s, key);
    SortDescOfSorted(SortDesc(s, key), key);
  }

  lemma {:induction false} InsertMapMultiset<T, U>(x: T, s: seq<T>, key: T -> real, g: T -> U)
    ensures multiset(Map(g, Insert(x, s, key))) == multiset(Map(g, s)) + multiset{g(x)}
    decreases |s|
  {
    if s == [] {
      assert Map(g, [x]) == [g(x)];
    } else if key(s[0]) <= key(x) {
      assert Map(g, [x] + s) == [g(x)] + Map(g, s);
    } else {
      InsertMapMultiset(x, s[1..], key, g);
      assert Map(g, [s[0]] + Insert(x, s[1..], key)) == [g(s[0])] + Map(g, Insert(x, s[1..], key));
      assert Map(g, s) == [g(s[0])] + Map(g, s[1..]);
    }
  }

  /** Any projection of the elements (their ids, say) is permuted, not changed, by sorting. */
  lemma {:induction false} SortDescMapMultiset<T, U>(s: seq<T>, key: T -> real, g: T -> U)
    ensures multiset(Map(g, SortDesc(s, key))) == multiset(Map(g, s))
    decreases |s|
  {
    if s != [] {
      SortDescMapMultiset(s[1..], key, g);
      InsertMapMultiset(s[0], SortDesc(s[1..], key), key, g);
      assert Map(g, s) == [g(s[0])] + Map(g, s[1..]);
    }
  }
}
