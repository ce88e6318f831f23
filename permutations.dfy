// `itertools.permutations(s)`: n! orderings of `s`, built position by
// position in the order Python yields them (first by which position is taken
// first, then recursively). Every rearrangement of `s` is among them
// (AllPermutationsComplete), and none repeats when the elements of `s` are
// distinct (AllPermutationsDistinct).
module Permutations {

  function Factorial(n: nat): (r: nat)
    ensures 1 <= r
  {
    if n == 0 then 1 else n * Factorial(n - 1)
  }

  /** `list(range(n))`. */
  function Range(n: nat): (r: seq<nat>)
    ensures |r| == n && forall i :: 0 <= i < n ==> r[i] == i
  {
    seq(n, i => i)
  }

  /** Each of 0 .. n-1 occurs exactly once in `range(n)`. */
  lemma {:induction false} RangeOccurrences(n: nat, j: nat)
    ensures multiset(Range(n))[j] == if j < n then 1 else 0
  {
    if n > 0 {
      assert Range(n) == Range(n - 1) + [n - 1];
      RangeOccurrences(n - 1, j);
    }
  }

  /** `s` without the element at position `i`. */
  function Without<T>(s: seq<T>, i: nat): (r: seq<T>)
    requires i < |s|
    ensures |r| == |s| - 1
    ensures multiset(r) + multiset{s[i]} == multiset(s)
  {
    assert s == s[..i] + [s[i]] + s[i + 1..];
    s[..i] + s[i + 1..]
  }

  /** `x` put in front of each of `ps`. */
  function Prefixed<T>(x: T, ps: seq<seq<T>>): (r: seq<seq<T>>)
    ensures |r| == |ps| && forall j :: 0 <= j < |ps| ==> r[j] == [x] + ps[j]
  {
    seq(|ps|, j requires 0 <= j < |ps| => [x] + ps[j])
  }

  /** All orderings of `s`; the empty sequence has exactly one. */
  function AllPermutations<T>(s: seq<T>): (r: seq<seq<T>>)
    ensures |r| == Factorial(|s|)
    ensures forall p :: p in r ==> multiset(p) == multiset(s)
    decreases |s|, 1
  {
    if |s| == 0 then [[]] else PermutationsFrom(s, 0)
  }

  /** The orderings of `s` whose first element is taken from position `i`
      or later. */
  function PermutationsFrom<T>(s: seq<T>, i: nat): (r: seq<seq<T>>)
    requires 0 < |s| && i <= |s|
    ensures |r| == (|s| - i) * Factorial(|s| - 1)
    ensures forall p :: p in r ==> multiset(p) == multiset(s)
    decreases |s|, 0, |s| - i
  {
    if i == |s| then []
    else
      var head := Prefixed(s[i], AllPermutations(Without(s, i)));
      var rest := PermutationsFrom(s, i + 1);
      assert forall p :: p in head ==> multiset(p) == multiset(s) by {
        forall p | p in head
          ensures multiset(p) == multiset(s)
        {
          var j :| 0 <= j < |head| && head[j] == p;
          assert AllPermutations(Without(s, i))[j] in AllPermutations(Without(s, i));
        }
      }
      CountStep(|s| - i, Factorial(|s| - 1));
      head + rest
  }

  /** Every rearrangement of `s` is among its permutations. */
  lemma {:induction false} AllPermutationsComplete<T>(s: seq<T>, p: seq<T>)
    requires multiset(p) == multiset(s)
    ensures p in AllPermutations(s)
    decreases |s|
  {
    assert |p| == |multiset(p)| == |s|;
    if |s| == 0 {
      assert p == [];
    } else {
      assert p[0] in multiset(s);
      var i :| 0 <= i < |s| && s[i] == p[0];
      var q := p[1..];
      assert p == [p[0]] + q;
      assert multiset(p) == multiset{p[0]} + multiset(q);
      assert multiset(q) == multiset(p) - multiset{p[0]};
      assert multiset(Without(s, i)) == multiset(s) - multiset{s[i]};
      AllPermutationsComplete(Without(s, i), q);
      PermutationsFromContains(s, 0, i, q);
    }
  }

  /** The orderings from position `j` on include each ordering that starts
      with the element at a position `i >= j`. */
  lemma {:induction false} PermutationsFromContains<T>(s: seq<T>, j: nat, i: nat, q: seq<T>)
    requires j <= i < |s|
    requires q in AllPermutations(Without(s, i))
    ensures [s[i]] + q in PermutationsFrom(s, j)
    decreases i - j
  {
    var head := Prefixed(s[j], AllPermutations(Without(s, j)));
    assert PermutationsFrom(s, j) == head + PermutationsFrom(s, j + 1);
    if i == j {
      var k :| 0 <= k < |AllPermutations(Without(s, i))| && AllPermutations(Without(s, i))[k] == q;
      assert head[k] == [s[i]] + q;
    } else {
      PermutationsFromContains(s, j + 1, i, q);
    }
  }

  predicate NoRepeats<T(==)>(s: seq<T>)
  {
    forall a, b :: 0 <= a < b < |s| ==> s[a] != s[b]
  }

  lemma WithoutNoRepeats<T>(s: seq<T>, i: nat)
    requires i < |s| && NoRepeats(s)
    ensures NoRepeats(Without(s, i))
  {
    var w := Without(s, i);
    assert forall t :: 0 <= t < |w| ==> w[t] == if t < i then s[t] else s[t + 1];
  }

  /** Each ordering from position `j` on starts with the element at some
      position `k >= j`. */
  lemma {:induction false} PermutationsFromHeads<T>(s: seq<T>, j: nat)
    requires j <= |s| && 0 < |s|
    ensures forall p :: p in PermutationsFrom(s, j) ==>
              |p| > 0 && exists k :: j <= k < |s| && p[0] == s[k]
    decreases |s| - j
  {
    if j < |s| {
      var head := Prefixed(s[j], AllPermutations(Without(s, j)));
      PermutationsFromHeads(s, j + 1);
      forall p | p in head
        ensures |p| > 0 && p[0] == s[j]
      {
        var a :| 0 <= a < |head| && head[a] == p;
      }
    }
  }

  /** When the elements of `s` are distinct, no ordering is listed twice. */
  lemma {:induction false} AllPermutationsDistinct<T>(s: seq<T>)
    requires NoRepeats(s)
    ensures NoRepeats(AllPermutations(s))
    decreases |s|, 1
  {
    if |s| > 0 {
      PermutationsFromDistinct(s, 0);
    }
  }

  lemma {:induction false} PermutationsFromDistinct<T>(s: seq<T>, j: nat)
    requires 0 < |s| && j <= |s| && NoRepeats(s)
    ensures NoRepeats(PermutationsFrom(s, j))
    decreases |s|, 0, |s| - j
  {
    if j < |s| {
      var head := Prefixed(s[j], AllPermutations(Without(s, j)));
      var rest := PermutationsFrom(s, j + 1);
      WithoutNoRepeats(s, j);
      AllPermutationsDistinct(Without(s, j));
      PrefixedNoRepeats(s[j], AllPermutations(Without(s, j)));
      PermutationsFromDistinct(s, j + 1);
      PermutationsFromHeads(s, j + 1);
      forall a, b | 0 <= a < |head| && 0 <= b < |rest|
        ensures head[a] != rest[b]
      {
        assert rest[b] in rest;
        var k :| j + 1 <= k < |s| && rest[b][0] == s[k];
        assert head[a][0] == s[j];
      }
      AppendNoRepeats(head, rest);
    }
  }

  lemma PrefixedNoRepeats<T>(x: T, ps: seq<seq<T>>)
    requires NoRepeats(ps)
    ensures NoRepeats(Prefixed(x, ps))
  {
    var r := Prefixed(x, ps);
    forall a, b | 0 <= a < b < |r|
      ensures r[a] != r[b]
    {
      assert r[a][1..] == ps[a] && r[b][1..] == ps[b];
    }
  }

  lemma AppendNoRepeats<T>(a: seq<T>, b: seq<T>)
    requires NoRepeats(a) && NoRepeats(b)
    requires forall i, j :: 0 <= i < |a| && 0 <= j < |b| ==> a[i] != b[j]
    ensures NoRepeats(a + b)
  {
    var all := a + b;
    forall i, j | 0 <= i < j < |all|
      ensures all[i] != all[j]
    {
      if j < |a| {
      } else if i < |a| {
        assert all[i] == a[i] && all[j] == b[j - |a|];
      } else {
        assert all[i] == b[i - |a|] && all[j] == b[j - |a|];
      }
    }
  }

  lemma CountStep(k: nat, f: nat)
    requires 0 < k
    ensures f + (k - 1) * f == k * f
  {
  }
}
