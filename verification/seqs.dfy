/** Sequence helpers: duplicate-freedom and filtering out by key, the one
    filter both tiers use (Mongoose's `pull` on a user's place ids, and the
    frontend's `filter(place => place.id !== id)`). */
module Seqs {

  /** No element occurs twice. */
  predicate Distinct<T(==)>(s: seq<T>) {
    forall i, j :: 0 <= i < j < |s| ==> s[i] != s[j]
  }

  /** `s.map(f)`: each element's image, in order. */
  function Project<T, K>(s: seq<T>, f: T -> K): (r: seq<K>)
    ensures |r| == |s|
    ensures forall i :: 0 <= i < |s| ==> r[i] == f(s[i])
  {
    if |s| == 0 then [] else [f(s[0])] + Project(s[1..], f)
  }

  /** The elements of `s` whose key differs from `k`, in their original order. */
  function Exclude<T(==,!new), K(==)>(s: seq<T>, key: T -> K, k: K): (r: seq<T>)
    ensures |r| <= |s|
    ensures forall x :: x in r <==> x in s && key(x) != k
  {
    if |s| == 0 then []
    else (if key(s[0]) == k then [] else [s[0]]) + Exclude(s[1..], key, k)
  }

  /** Removing every occurrence of `x` from a sequence of ids. */
  function Pull<T(==,!new)>(s: seq<T>, x: T): (r: seq<T>)
    ensures forall y :: y in r <==> y in s && y != x
  {
    Exclude(s, Identity, x)
  }

  function Identity<T>(y: T): T { y }

  /** Pulling keeps a list of ids duplicate-free. */
  lemma PullDistinct<T(!new)>(s: seq<T>, x: T)
    requires Distinct(s)
    ensures Distinct(Pull(s, x))
  {
    ExcludeDistinct(s, Identity, x);
  }

  /** Each kept element occurs as often as before; every dropped one is gone. */
  lemma {:induction false} ExcludeCounts<T(!new), K>(s: seq<T>, key: T -> K, k: K)
    ensures forall x :: multiset(Exclude(s, key, k))[x] == if key(x) == k then 0 else multiset(s)[x]
  {
    if |s| > 0 {
      ExcludeCounts(s[1..], key, k);
      assert s == [s[0]] + s[1..];
      assert multiset(s) == multiset([s[0]]) + multiset(s[1..]);
    }
  }

  /** Filtering distributes over concatenation, so relative order is kept. */
  lemma {:induction false} ExcludeAppend<T(!new), K>(a: seq<T>, b: seq<T>, key: T -> K, k: K)
    ensures Exclude(a + b, key, k) == Exclude(a, key, k) + Exclude(b, key, k)
  {
    if |a| > 0 {
      ExcludeAppend(a[1..], b, key, k);
      assert (a + b)[1..] == a[1..] + b;
    } else {
      assert a + b == b;
    }
  }

  /** When no element has key `k`, nothing is dropped. */
  lemma {:induction false} ExcludeAbsent<T(!new), K>(s: seq<T>, key: T -> K, k: K)
    requires forall i :: 0 <= i < |s| ==> key(s[i]) != k
    ensures Exclude(s, key, k) == s
  {
    if |s| > 0 {
      ExcludeAbsent(s[1..], key, k);
    }
  }

  /** Filtering twice by the same key is filtering once. */
  lemma ExcludeIdempotent<T(!new), K>(s: seq<T>, key: T -> K, k: K)
    ensures Exclude(Exclude(s, key, k), key, k) == Exclude(s, key, k)
  {
    var r := Exclude(s, key, k);
    forall i | 0 <= i < |r|
      ensures key(r[i]) != k
    {
      assert r[i] in r;
    }
    ExcludeAbsent(r, key, k);
  }

  /** Filtering keeps a sequence duplicate-free. */
  lemma {:induction false} ExcludeDistinct<T(!new), K>(s: seq<T>, key: T -> K, k: K)
    requires Distinct(s)
    ensures Distinct(Exclude(s, key, k))
  {
    if |s| > 0 {
      assert Distinct(s[1..]) by {
        forall i, j | 0 <= i < j < |s[1..]| ensures s[1..][i] != s[1..][j] {
          assert s[1..][i] == s[i + 1] && s[1..][j] == s[j + 1];
        }
      }
      ExcludeDistinct(s[1..], key, k);
      var tail := Exclude(s[1..], key, k);
      if key(s[0]) != k {
        assert s[0] !in s[1..] by {
          forall i | 0 <= i < |s[1..]| ensures s[1..][i] != s[0] {
            assert s[1..][i] == s[i + 1];
          }
        }
        assert s[0] !in tail;
        var r := [s[0]] + tail;
        forall i, j | 0 <= i < j < |r| ensures r[i] != r[j] {
          if i == 0 {
            assert r[j] == tail[j - 1];
            assert tail[j - 1] in tail;
          } else {
            assert r[i] == tail[i - 1] && r[j] == tail[j - 1];
          }
        }
      }
    }
  }

  /** Appending an element that is not yet present keeps a sequence duplicate-free. */
  lemma AppendFreshDistinct<T>(s: seq<T>, x: T)
    requires Distinct(s)
    requires x !in s
    ensures Distinct(s + [x])
  {
    var r := s + [x];
    forall i, j | 0 <= i < j < |r| ensures r[i] != r[j] {
      if j == |s| {
        assert r[i] == s[i];
        assert s[i] in s;
      } else {
        assert r[i] == s[i] && r[j] == s[j];
      }
    }
  }
}
