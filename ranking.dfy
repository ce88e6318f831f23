// Python's `list.sort(key=..., reverse=True)` / `sorted(..., reverse=True)`
// and `max(..., key=...)`. Python's sort is stable, also in reverse mode:
// items with equal keys keep their original order. The insertion sort below
// is proved sorted (SortDescSorted), a permutation (SortDescPermutes) and
// stable (SortDescStable); a sort with those three properties has exactly
// one possible result, which is therefore the one Python returns.
module Ranking {

  ghost predicate SortedDesc<T>(s: seq<T>, key: T -> real)
  {
    forall i, j :: 0 <= i < j < |s| ==> key(s[i]) >= key(s[j])
  }

  /** Each element of `s` has a smaller rank than every later one, so no
      two elements share a rank: a list built in a fixed order of kinds,
      each kind at most once. */
  predicate StrictlyRanked<T>(s: seq<T>, rank: T -> nat)
  {
    forall i, j :: 0 <= i < j < |s| ==> rank(s[i]) < rank(s[j])
  }

  /** Two ranked lists, every rank of the first below every rank of the
      second, join into a ranked list. */
  lemma RankedConcat<T>(a: seq<T>, b: seq<T>, rank: T -> nat)
    requires StrictlyRanked(a, rank) && StrictlyRanked(b, rank)
    requires forall x, y :: x in a && y in b ==> rank(x) < rank(y)
    ensures StrictlyRanked(a + b, rank)
  {
    forall i, j | 0 <= i < j < |a + b|
      ensures rank((a + b)[i]) < rank((a + b)[j])
    {
      if j < |a| {
      } else if i >= |a| {
        assert (a + b)[i] == b[i - |a|] && (a + b)[j] == b[j - |a|];
      } else {
        assert (a + b)[i] in a && (a + b)[j] == b[j - |a|];
      }
    }
  }

  /** Inserts `x` after every leading element whose key is at least x's. */
  function InsertDesc<T>(x: T, s: seq<T>, key: T -> real): (r: seq<T>)
    ensures |r| == |s| + 1
    ensures |s| > 0 && key(s[0]) >= key(x) ==> r[0] == s[0]
    ensures (|s| == 0 || key(s[0]) < key(x)) ==> r[0] == x
  {
    if |s| == 0 then [x]
    else if key(s[0]) >= key(x) then [s[0]] + InsertDesc(x, s[1..], key)
    else [x] + s
  }

  /** Stable sort by descending key. */
  function SortDesc<T>(s: seq<T>, key: T -> real): (r: seq<T>)
    ensures |r| == |s|
  {
    if |s| == 0 then []
    else InsertDesc(s[|s| - 1], SortDesc(s[..|s| - 1], key), key)
  }

  /** Insertion adds exactly the one element. */
  lemma {:induction false} InsertDescPermutes<T>(x: T, s: seq<T>, key: T -> real)
    ensures multiset(InsertDesc(x, s, key)) == multiset(s) + multiset{x}
  {
    if |s| > 0 && key(s[0]) >= key(x) {
      InsertDescPermutes(x, s[1..], key);
      assert s == [s[0]] + s[1..];
    }
  }

  /** Every element of an insertion is the inserted one or was there. */
  lemma InsertDescMembers<T>(x: T, s: seq<T>, key: T -> real, y: T)
    requires y in InsertDesc(x, s, key)
    ensures y == x || y in s
  {
    InsertDescPermutes(x, s, key);
    assert y in multiset(InsertDesc(x, s, key));
  }

  /** Inserting into a descending sequence keeps it descending. */
  lemma {:induction false} InsertDescSorted<T>(x: T, s: seq<T>, key: T -> real)
    requires SortedDesc(s, key)
    ensures SortedDesc(InsertDesc(x, s, key), key)
  {
    var r := InsertDesc(x, s, key);
    if |s| > 0 && key(s[0]) >= key(x) {
      var t := s[1..];
      var rest := InsertDesc(x, t, key);
      assert SortedDesc(t, key) by {
        forall i, j | 0 <= i < j < |t|
          ensures key(t[i]) >= key(t[j])
        {
          assert t[i] == s[i + 1] && t[j] == s[j + 1];
        }
      }
      InsertDescSorted(x, t, key);
      assert r == [s[0]] + rest;
      forall j | 0 <= j < |rest|
        ensures key(rest[j]) <= key(s[0])
      {
        InsertDescMembers(x, t, key, rest[j]);
        if rest[j] != x {
          var k :| 0 <= k < |t| && t[k] == rest[j];
          assert t[k] == s[k + 1];
        }
      }
      forall i, j | 0 <= i < j < |r|
        ensures key(r[i]) >= key(r[j])
      {
        assert r[j] == rest[j - 1];
        if i > 0 {
          assert r[i] == rest[i - 1];
        }
      }
    } else if |s| > 0 {
      assert r == [x] + s;
      forall i, j | 0 <= i < j < |r|
        ensures key(r[i]) >= key(r[j])
      {
        assert r[j] == s[j - 1];
        if i > 0 {
          assert r[i] == s[i - 1];
        } else if j > 1 {
          assert key(s[0]) >= key(s[j - 1]);
        }
      }
    }
  }

  /** The sort is descending by key. */
  lemma {:induction false} SortDescSorted<T>(s: seq<T>, key: T -> real)
    ensures SortedDesc(SortDesc(s, key), key)
  {
    if |s| > 0 {
      var p, x := s[..|s| - 1], s[|s| - 1];
      SortDescSorted(p, key);
      InsertDescSorted(x, SortDesc(p, key), key);
    }
  }

  /** The sort is a permutation: it keeps every element as often as it
      occurs. */
  lemma {:induction false} SortDescPermutes<T>(s: seq<T>, key: T -> real)
    ensures multiset(SortDesc(s, key)) == multiset(s)
  {
    if |s| > 0 {
      var p, x := s[..|s| - 1], s[|s| - 1];
      var sorted := SortDesc(p, key);
      SortDescPermutes(p, key);
      InsertDescPermutes(x, sorted, key);
      calc {
        multiset(SortDesc(s, key));
        multiset(InsertDesc(x, sorted, key));
        multiset(sorted) + multiset{x};
        multiset(p) + multiset{x};
        { assert s == p + [x]; }
        multiset(s);
      }
    }
  }

  /** The elements of `s` whose key is `v`, in their order in `s`. */
  function WithKey<T>(s: seq<T>, key: T -> real, v: real): seq<T>
  {
    if |s| == 0 then []
    else (if key(s[0]) == v then [s[0]] else []) + WithKey(s[1..], key, v)
  }

  lemma {:induction false} WithKeyAppend<T>(a: seq<T>, b: seq<T>, key: T -> real, v: real)
    ensures WithKey(a + b, key, v) == WithKey(a, key, v) + WithKey(b, key, v)
  {
    if |a| > 0 {
      assert (a + b)[1..] == a[1..] + b;
      WithKeyAppend(a[1..], b, key, v);
    } else {
      assert a + b == b;
    }
  }

  lemma {:induction false} WithKeyNone<T>(s: seq<T>, key: T -> real, v: real)
    requires forall i :: 0 <= i < |s| ==> key(s[i]) < v
    ensures WithKey(s, key, v) == []
  {
    if |s| > 0 {
      WithKeyNone(s[1..], key, v);
    }
  }

  /** Inserting into a sorted list puts `x` after every element with the
      same key and moves nothing else across an equal key. */
  lemma {:induction false} InsertDescWithKey<T>(x: T, s: seq<T>, key: T -> real, v: real)
    requires SortedDesc(s, key)
    ensures WithKey(InsertDesc(x, s, key), key, v) == WithKey(s, key, v) + (if key(x) == v then [x] else [])
  {
    if |s| == 0 {
      assert InsertDesc(x, s, key) == [x];
      assert WithKey([x], key, v) == (if key(x) == v then [x] else []) + WithKey([x][1..], key, v);
    } else if key(s[0]) >= key(x) {
      assert SortedDesc(s[1..], key);
      InsertDescWithKey(x, s[1..], key, v);
      var rest := InsertDesc(x, s[1..], key);
      var head := if key(s[0]) == v then [s[0]] else [];
      var tail := if key(x) == v then [x] else [];
      assert ([s[0]] + rest)[1..] == rest;
      assert WithKey([s[0]] + rest, key, v) == head + WithKey(rest, key, v);
      assert WithKey(s, key, v) == head + WithKey(s[1..], key, v);
      assert head + (WithKey(s[1..], key, v) + tail) == (head + WithKey(s[1..], key, v)) + tail;
    } else {
      InsertBeforeSmaller(x, s, key, v);
    }
  }

  /** `x` goes in front of a sorted list whose keys are all smaller. */
  lemma InsertBeforeSmaller<T>(x: T, s: seq<T>, key: T -> real, v: real)
    requires SortedDesc(s, key)
    requires |s| > 0 && key(s[0]) < key(x)
    ensures WithKey(InsertDesc(x, s, key), key, v) == WithKey(s, key, v) + (if key(x) == v then [x] else [])
  {
    assert InsertDesc(x, s, key) == [x] + s;
    WithKeyAppend([x], s, key, v);
    assert WithKey([x], key, v) == (if key(x) == v then [x] else []) + WithKey([x][1..], key, v);
    if key(x) == v {
      WithKeyNone(s, key, v);
    }
  }

  /** The sort is stable: for every key value, the elements with that key
      appear in the result in the order they have in `s`. */
  lemma {:induction false} SortDescStable<T>(s: seq<T>, key: T -> real, v: real)
    ensures WithKey(SortDesc(s, key), key, v) == WithKey(s, key, v)
  {
    if |s| > 0 {
      var p := s[..|s| - 1];
      var x := s[|s| - 1];
      SortDescStable(p, key, v);
      SortDescSorted(p, key);
      InsertDescWithKey(x, SortDesc(p, key), key, v);
      assert s == p + [x];
      WithKeyAppend(p, [x], key, v);
      assert WithKey([x], key, v) == (if key(x) == v then [x] else []) + WithKey([x][1..], key, v);
    }
  }

  /** `max(s, key=key)`: the first element whose key is maximal, as an index. */
  function FirstMaxBy<T>(s: seq<T>, key: T -> real): (k: nat)
    requires |s| > 0
    ensures k < |s|
    ensures forall i :: 0 <= i < |s| ==> key(s[i]) <= key(s[k])
    ensures forall i :: 0 <= i < k ==> key(s[i]) < key(s[k])
  {
    if |s| == 1 then 0
    else
      var k := FirstMaxBy(s[..|s| - 1], key);
      if key(s[|s| - 1]) > key(s[k]) then |s| - 1 else k
  }

  /** `max` picks the same element under two keys that agree on `s`. */
  lemma {:induction false} FirstMaxByAgrees<T>(s: seq<T>, f: T -> real, g: T -> real)
    requires |s| > 0
    requires forall i :: 0 <= i < |s| ==> f(s[i]) == g(s[i])
    ensures FirstMaxBy(s, f) == FirstMaxBy(s, g)
  {
    if |s| > 1 {
      var p := s[..|s| - 1];
      assert forall i :: 0 <= i < |p| ==> p[i] == s[i];
      FirstMaxByAgrees(p, f, g);
    }
  }

  /** The head of the stable descending sort is the element `max` picks. */
  lemma {:induction false} SortDescHead<T>(s: seq<T>, key: T -> real)
    requires |s| > 0
    ensures SortDesc(s, key)[0] == s[FirstMaxBy(s, key)]
  {
    var n := |s|;
    if n > 1 {
      var p := s[..n - 1];
      SortDescHead(p, key);
      assert s[FirstMaxBy(p, key)] == p[FirstMaxBy(p, key)];
    }
  }
}
