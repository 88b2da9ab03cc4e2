/** Sequence vocabulary shared by the pipeline stages: order-preserving
    subsequences, filter-and-map, and distinct keys. */
module Seqs {

  /** `a` is obtained from `b` by deleting elements; the survivors keep their order. */
  ghost predicate IsSubsequence<T>(a: seq<T>, b: seq<T>)
    decreases |b|
  {
    a == [] ||
    (b != [] &&
      ((a[|a| - 1] == b[|b| - 1] && IsSubsequence(a[..|a| - 1], b[..|b| - 1])) ||
       IsSubsequence(a, b[..|b| - 1])))
  }

  lemma {:induction false} SubsequenceRefl<T>(a: seq<T>)
    ensures IsSubsequence(a, a)
    decreases |a|
  {
    if a != [] {
      SubsequenceRefl(a[..|a| - 1]);
    }
  }

  lemma SubsequenceExtendBoth<T>(a: seq<T>, b: seq<T>, x: T)
    requires IsSubsequence(a, b)
    ensures IsSubsequence(a + [x], b + [x])
  {
    assert (a + [x])[..|a|] == a;
    assert (b + [x])[..|b|] == b;
  }

  lemma SubsequenceExtendRight<T>(a: seq<T>, b: seq<T>, x: T)
    requires IsSubsequence(a, b)
    ensures IsSubsequence(a, b + [x])
  {
    assert (b + [x])[..|b|] == b;
  }

  /** A subsequence stays one when an element is put in front of the whole sequence, with or
      without putting it in front of the subsequence too. */
  lemma {:induction false} SubsequenceCons<T>(a: seq<T>, b: seq<T>, x: T)
    requires IsSubsequence(a, b)
    ensures IsSubsequence([x] + a, [x] + b)
    ensures IsSubsequence(a, [x] + b)
    decreases |b|
  {
    if b == [] {
      assert a == [];
      assert ([x] + a)[..0] == [];
    } else if a == [] {
      SubsequenceCons(a, b[..|b| - 1], x);
      assert ([x] + b)[..|b|] == [x] + b[..|b| - 1];
    } else {
      var a', b' := a[..|a| - 1], b[..|b| - 1];
      assert ([x] + b)[..|b|] == [x] + b';
      assert ([x] + a)[..|a|] == [x] + a';
      if a[|a| - 1] == b[|b| - 1] && IsSubsequence(a', b') {
        SubsequenceCons(a', b', x);
      } else {
        SubsequenceCons(a, b', x);
      }
    }
  }

  lemma {:induction false} SubsequenceEmpty<T>(b: seq<T>)
    ensures IsSubsequence([], b)
  {
  }

  lemma {:induction false} SubsequenceMembers<T>(a: seq<T>, b: seq<T>)
    requires IsSubsequence(a, b)
    ensures |a| <= |b|
    ensures forall x :: x in a ==> x in b
    decreases |b|
  {
    if a != [] {
      var a', b' := a[..|a| - 1], b[..|b| - 1];
      if a[|a| - 1] == b[|b| - 1] && IsSubsequence(a', b') {
        SubsequenceMembers(a', b');
        assert a == a' + [a[|a| - 1]];
        assert b == b' + [b[|b| - 1]];
      } else {
        SubsequenceMembers(a, b');
        assert b == b' + [b[|b| - 1]];
      }
    }
  }

  lemma {:induction false} SubsequenceTrans<T>(a: seq<T>, b: seq<T>, c: seq<T>)
    requires IsSubsequence(a, b) && IsSubsequence(b, c)
    ensures IsSubsequence(a, c)
    decreases |c|
  {
    if a == [] {
      return;
    }
    SubsequenceMembers(a, b);
    SubsequenceMembers(b, c);
    var b', c' := b[..|b| - 1], c[..|c| - 1];
    if b[|b| - 1] == c[|c| - 1] && IsSubsequence(b', c') {
      var a' := a[..|a| - 1];
      if a[|a| - 1] == b[|b| - 1] && IsSubsequence(a', b') {
        SubsequenceTrans(a', b', c');
      } else {
        SubsequenceTrans(a, b', c');
      }
    } else {
      SubsequenceTrans(a, b, c');
    }
  }

  /** Elements that satisfy `p`, each sent through `f`, in input order (JavaScript's `filter(p).map(f)`). */
  function FilterMap<T, U>(s: seq<T>, p: T -> bool, f: T -> U): seq<U>
    decreases |s|
  {
    if s == [] then []
    else FilterMap(s[..|s| - 1], p, f) + (if p(s[|s| - 1]) then [f(s[|s| - 1])] else [])
  }

  function Map<T, U>(f: T -> U, s: seq<T>): (r: seq<U>)
    ensures |r| == |s| && forall i :: 0 <= i < |s| ==> r[i] == f(s[i])
  {
    seq(|s|, i requires 0 <= i < |s| => f(s[i]))
  }

  lemma MapAppend<T, U>(f: T -> U, a: seq<T>, b: seq<T>)
    ensures Map(f, a + b) == Map(f, a) + Map(f, b)
  {
  }

  /** FilterMap keeps exactly the images of the selected elements, in order. */
  lemma {:induction false} FilterMapSpec<T, U>(s: seq<T>, p: T -> bool, f: T -> U)
    ensures |FilterMap(s, p, f)| <= |s|
    ensures forall i :: 0 <= i < |s| && p(s[i]) ==> f(s[i]) in FilterMap(s, p, f)
    ensures forall y :: y in FilterMap(s, p, f) ==> exists i :: 0 <= i < |s| && p(s[i]) && y == f(s[i])
    ensures IsSubsequence(FilterMap(s, p, f), Map(f, s))
    decreases |s|
  {
    if s != [] {
      var s' := s[..|s| - 1];
      var x := s[|s| - 1];
      FilterMapSpec(s', p, f);
      assert Map(f, s) == Map(f, s') + [f(x)];
      var r' := FilterMap(s', p, f);
      assert FilterMap(s, p, f) == r' + (if p(x) then [f(x)] else []);
      if p(x) {
        SubsequenceExtendBoth(r', Map(f, s'), f(x));

      } else {
        SubsequenceExtendRight(r', Map(f, s'), f(x));
        assert FilterMap(s, p, f) == r';
      }
      forall y | y in FilterMap(s, p, f)
        ensures exists i :: 0 <= i < |s| && p(s[i]) && y == f(s[i])
      {
        if y in r' {
          var i :| 0 <= i < |s'| && p(s'[i]) && y == f(s'[i]);
          assert s[i] == s'[i];
        } else {
          assert p(x) && y == f(s[|s| - 1]);
        }
      }
      forall i | 0 <= i < |s| && p(s[i])
        ensures f(s[i]) in FilterMap(s, p, f)
      {
        if i < |s'| {
          assert s'[i] == s[i];
        }
      }
    }
  }

  /** No two elements share a key. */
  ghost predicate DistinctKeys<T, K>(s: seq<T>, key: T -> K)
  {
    forall i, j :: 0 <= i < j < |s| ==> key(s[i]) != key(s[j])
  }

  lemma {:induction false} SubsequenceDistinct<T, K>(a: seq<T>, b: seq<T>, key: T -> K)
    requires IsSubsequence(a, b) && DistinctKeys(b, key)
    ensures DistinctKeys(a, key)
    decreases |b|
  {
    if a != [] {
      var a', b' := a[..|a| - 1], b[..|b| - 1];
      assert DistinctKeys(b', key) by {
        forall i, j | 0 <= i < j < |b'| ensures key(b'[i]) != key(b'[j]) {
          assert b'[i] == b[i] && b'[j] == b[j];
        }
      }
      if a[|a| - 1] == b[|b| - 1] && IsSubsequence(a', b') {
        SubsequenceDistinct(a', b', key);
        SubsequenceMembers(a', b');
        forall i, j | 0 <= i < j < |a| ensures key(a[i]) != key(a[j]) {
          if j == |a| - 1 {
            assert a[i] == a'[i] && a'[i] in b';
            var k :| 0 <= k < |b'| && b'[k] == a[i];
            assert b[k] == a[i] && b[|b| - 1] == a[j];
          } else {
            assert a[i] == a'[i] && a[j] == a'[j];
          }
        }
      } else {
        SubsequenceDistinct(a, b', key);
      }
    }
  }

  function Min(a: int, b: int): int
  {
    if a <= b then a else b
  }
}
