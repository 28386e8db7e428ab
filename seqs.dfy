/** Sequence helpers shared by the server store and the browser views: the
    `filter`, `reduce`-to-a-sum, `findIndex`, `splice(i, 1)` and `slice(-n)`
    operations of JavaScript arrays, stated over Dafny sequences. */
module Seqs {

  /** `s.filter(keep)`: the elements of `s` that satisfy `keep`, in order. */
  function Filter<T>(s: seq<T>, keep: T -> bool): (r: seq<T>)
    ensures |r| <= |s|
    ensures forall i | 0 <= i < |r| :: keep(r[i])
  {
    if s == [] then []
    else if keep(s[0]) then [s[0]] + Filter(s[1..], keep)
    else Filter(s[1..], keep)
  }

  /** `s.reduce((sum, x) => sum + f(x), 0)`. */
  function Sum<T>(s: seq<T>, f: T -> int): int
  {
    if s == [] then 0 else f(s[0]) + Sum(s[1..], f)
  }

  /** Sum of `f` over the elements that satisfy `keep`, without building the filtered list. */
  function SumWhere<T>(s: seq<T>, keep: T -> bool, f: T -> int): int
  {
    if s == [] then 0 else (if keep(s[0]) then f(s[0]) else 0) + SumWhere(s[1..], keep, f)
  }

  /** `r` is obtained from `s` by deleting elements, keeping the order of the rest. */
  ghost predicate IsSubsequence<T>(r: seq<T>, s: seq<T>)
    decreases |s|
  {
    if r == [] then true
    else if s == [] then false
    else (r[0] == s[0] && IsSubsequence(r[1..], s[1..])) || IsSubsequence(r, s[1..])
  }

  /** `s.findIndex(x => key(x) === id)`: the first index whose key is `id`, or -1. */
  function FindIndex<T>(s: seq<T>, key: T -> nat, id: nat): (r: int)
    ensures -1 <= r < |s|
    ensures r == -1 <==> forall i | 0 <= i < |s| :: key(s[i]) != id
    ensures 0 <= r ==> key(s[r]) == id && forall j | 0 <= j < r :: key(s[j]) != id
  {
    if s == [] then -1
    else if key(s[0]) == id then 0
    else
      var k := FindIndex(s[1..], key, id);
      if k == -1 then -1 else k + 1
  }

  /** `s.splice(i, 1)` on a copy: `s` without its element at index `i`. */
  function RemoveAt<T>(s: seq<T>, i: nat): (r: seq<T>)
    requires i < |s|
    ensures |r| == |s| - 1
    ensures forall j | 0 <= j < i :: r[j] == s[j]
    ensures forall j | i <= j < |r| :: r[j] == s[j + 1]
  {
    s[..i] + s[i + 1..]
  }

  /** `s.slice(-n)` for `n > 0`: the last `min(n, |s|)` elements. */
  function LastN<T>(s: seq<T>, n: nat): (r: seq<T>)
    requires n > 0
  {
    if |s| <= n then s else s[|s| - n..]
  }

  /** No two elements of `s` share a key. */
  ghost predicate DistinctBy<T>(s: seq<T>, key: T -> nat)
  {
    forall i, j | 0 <= i < j < |s| :: key(s[i]) != key(s[j])
  }

  /** Every key in `s` is below `bound`. */
  ghost predicate AllBelow<T>(s: seq<T>, key: T -> nat, bound: nat)
  {
    forall i | 0 <= i < |s| :: key(s[i]) < bound
  }

  lemma {:induction false} FilterAppend<T>(a: seq<T>, b: seq<T>, keep: T -> bool)
    ensures Filter(a + b, keep) == Filter(a, keep) + Filter(b, keep)
  {
    if a == [] {
      assert a + b == b;
    } else {
      assert (a + b)[1..] == a[1..] + b;
      FilterAppend(a[1..], b, keep);
    }
  }

  lemma {:induction false} SumAppend<T>(a: seq<T>, b: seq<T>, f: T -> int)
    ensures Sum(a + b, f) == Sum(a, f) + Sum(b, f)
  {
    if a == [] {
      assert a + b == b;
    } else {
      assert (a + b)[1..] == a[1..] + b;
      SumAppend(a[1..], b, f);
    }
  }

  lemma {:induction false} SumWhereAppend<T>(a: seq<T>, b: seq<T>, keep: T -> bool, f: T -> int)
    ensures SumWhere(a + b, keep, f) == SumWhere(a, keep, f) + SumWhere(b, keep, f)
  {
    if a == [] {
      assert a + b == b;
    } else {
      assert (a + b)[1..] == a[1..] + b;
      SumWhereAppend(a[1..], b, keep, f);
    }
  }

  /** Summing the filtered list is summing the kept elements of the whole list. */
  lemma {:induction false} SumOfFilter<T>(s: seq<T>, keep: T -> bool, f: T -> int)
    ensures Sum(Filter(s, keep), f) == SumWhere(s, keep, f)
  {
    if s != [] {
      SumOfFilter(s[1..], keep, f);
      if keep(s[0]) {
        assert ([s[0]] + Filter(s[1..], keep))[1..] == Filter(s[1..], keep);
      }
    }
  }

  /** Elements that `keep` rejects never contribute to a filtered sum. */
  lemma {:induction false} SumWhereIgnores<T>(s: seq<T>, keep: T -> bool, f: T -> int)
    requires forall i | 0 <= i < |s| :: !keep(s[i])
    ensures SumWhere(s, keep, f) == 0
  {
    if s != [] {
      SumWhereIgnores(s[1..], keep, f);
    }
  }

  /** A filter keeps exactly the accepted elements, each as often as it occurs. */
  lemma {:induction false} FilterCounts<T>(s: seq<T>, keep: T -> bool)
    ensures forall x :: multiset(Filter(s, keep))[x] == if keep(x) then multiset(s)[x] else 0
  {
    if s != [] {
      FilterCounts(s[1..], keep);
      assert s == [s[0]] + s[1..];
      assert multiset(s) == multiset{s[0]} + multiset(s[1..]);
    }
  }

  lemma {:induction false} FilterIsSubsequence<T>(s: seq<T>, keep: T -> bool)
    ensures IsSubsequence(Filter(s, keep), s)
  {
    if s != [] {
      FilterIsSubsequence(s[1..], keep);
      var r := Filter(s, keep);
      if keep(s[0]) {
        assert r[0] == s[0] && r[1..] == Filter(s[1..], keep);
      } else if r != [] {
        assert r == Filter(s[1..], keep);
      }
    }
  }

  /** A filter that accepts every element returns the list itself. */
  lemma {:induction false} FilterKeepsAll<T>(s: seq<T>, keep: T -> bool)
    requires forall i | 0 <= i < |s| :: keep(s[i])
    ensures Filter(s, keep) == s
  {
    if s != [] {
      FilterKeepsAll(s[1..], keep);
    }
  }

  lemma {:induction false} SubsequenceMembers<T>(r: seq<T>, s: seq<T>)
    requires IsSubsequence(r, s)
    ensures forall i | 0 <= i < |r| :: r[i] in s
    decreases |s|
  {
    if r != [] {
      if r[0] == s[0] && IsSubsequence(r[1..], s[1..]) {
        SubsequenceMembers(r[1..], s[1..]);
        forall i | 0 <= i < |r| ensures r[i] in s {
          if i > 0 { assert r[i] == r[1..][i - 1]; }
        }
      } else {
        SubsequenceMembers(r, s[1..]);
      }
    }
  }

  /** Deleting elements keeps keys distinct and below their bound. */
  lemma {:induction false} SubsequenceKeepsKeys<T>(r: seq<T>, s: seq<T>, key: T -> nat, bound: nat)
    requires IsSubsequence(r, s)
    requires DistinctBy(s, key) && AllBelow(s, key, bound)
    ensures DistinctBy(r, key) && AllBelow(r, key, bound)
    decreases |s|
  {
    if r != [] {
      assert DistinctBy(s[1..], key);
      if r[0] == s[0] && IsSubsequence(r[1..], s[1..]) {
        SubsequenceKeepsKeys(r[1..], s[1..], key, bound);
        SubsequenceMembers(r[1..], s[1..]);
        forall i, j | 0 <= i < j < |r| ensures key(r[i]) != key(r[j]) {
          assert r[j] == r[1..][j - 1];
          if i > 0 {
            assert r[i] == r[1..][i - 1];
          } else {
            var k :| 0 <= k < |s[1..]| && s[1..][k] == r[j];
            assert s[k + 1] == r[j];
          }
        }
      } else {
        SubsequenceKeepsKeys(r, s[1..], key, bound);
      }
    }
  }

  /** Deleting elements keeps every key below its bound. */
  lemma SubsequenceKeepsBound<T>(r: seq<T>, s: seq<T>, key: T -> nat, bound: nat)
    requires IsSubsequence(r, s) && AllBelow(s, key, bound)
    ensures AllBelow(r, key, bound)
  {
    SubsequenceMembers(r, s);
    forall i | 0 <= i < |r| ensures key(r[i]) < bound {
      var k :| 0 <= k < |s| && s[k] == r[i];
    }
  }

  /** `slice(-n)` keeps the newest `min(n, |s|)` elements, in their order. */
  lemma LastNIsSuffix<T>(s: seq<T>, n: nat)
    requires n > 0
    ensures |LastN(s, n)| == if |s| <= n then |s| else n
    ensures s == s[..|s| - |LastN(s, n)|] + LastN(s, n)
  {
    assert s == s[..|s| - |LastN(s, n)|] + s[|s| - |LastN(s, n)|..];
  }
}
