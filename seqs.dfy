/** Sequence helpers shared by the client store and the server data store:
    a key search (`findIndex`, a dictionary lookup), removal at an index
    (`splice(i, 1)`), an ordered-dictionary insert, filtering, the
    ordered-subsequence relation and reversal. */
module Seqs {
  import opened Wrappers

  /** The index of the first element whose key is `k`, or None. */
  function FindFirst<T>(s: seq<T>, key: T -> string, k: string): (r: Option<nat>)
    ensures r.Some? ==> r.value < |s| && key(s[r.value]) == k
    ensures r.Some? ==> forall j :: 0 <= j < r.value ==> key(s[j]) != k
    ensures r.None? <==> forall j :: 0 <= j < |s| ==> key(s[j]) != k
  {
    if |s| == 0 then None
    else if key(s[0]) == k then Some(0)
    else
      match FindFirst(s[1..], key, k)
      case None => None
      case Some(i) => Some(i + 1)
  }

  /** True when no two elements share a key (the keys of a dictionary). */
  predicate DistinctKeys<T>(s: seq<T>, key: T -> string) {
    forall i, j :: 0 <= i < j < |s| ==> key(s[i]) != key(s[j])
  }

  /** In a sequence with distinct keys the first match is the only match. */
  lemma FindFirstUnique<T>(s: seq<T>, key: T -> string, i: nat)
    requires DistinctKeys(s, key) && i < |s|
    ensures FindFirst(s, key, key(s[i])) == Some(i)
  {
  }

  /** `splice(i, 1)`: the sequence without its element at index `i`. */
  function RemoveAt<T>(s: seq<T>, i: nat): (r: seq<T>)
    requires i < |s|
    ensures |r| == |s| - 1
    ensures forall j :: 0 <= j < i ==> r[j] == s[j]
    ensures forall j :: i <= j < |r| ==> r[j] == s[j + 1]
  {
    s[..i] + s[i + 1..]
  }

  /** `d[key(x)] = x` on an insertion-ordered dictionary: an existing entry
      is replaced in place, a new key is appended. */
  function Put<T>(s: seq<T>, key: T -> string, x: T): seq<T> {
    match FindFirst(s, key, key(x))
    case Some(i) => s[i := x]
    case None => s + [x]
  }

  /** The dictionary laws of `Put`: afterwards `x` is stored under its key,
      every other key holds what it held, every entry with another key stays
      at its index, and the dictionary grows by one exactly when the key is new. */
  lemma PutLaws<T>(s: seq<T>, key: T -> string, x: T)
    ensures Get(Put(s, key, x), key, key(x)) == Some(x)
    ensures forall k :: k != key(x) ==> Get(Put(s, key, x), key, k) == Get(s, key, k)
    ensures |Put(s, key, x)| == if Get(s, key, key(x)).Some? then |s| else |s| + 1
    ensures forall j :: 0 <= j < |s| && key(s[j]) != key(x) ==> Put(s, key, x)[j] == s[j]
  {
    match FindFirst(s, key, key(x))
    case Some(i) => ReplaceLaws(s, key, i, x);
    case None => AppendLaws(s, key, x);
  }

  /** The first match is pinned down by FindFirst's contract. */
  lemma FindFirstIs<T>(s: seq<T>, key: T -> string, k: string, r: Option<nat>)
    requires r.Some? ==> r.value < |s| && key(s[r.value]) == k && forall j :: 0 <= j < r.value ==> key(s[j]) != k
    requires r.None? ==> forall j :: 0 <= j < |s| ==> key(s[j]) != k
    ensures FindFirst(s, key, k) == r
  {
  }

  /** Replacing the first entry with `x`'s key by `x`. */
  lemma ReplaceLaws<T>(s: seq<T>, key: T -> string, i: nat, x: T)
    requires FindFirst(s, key, key(x)) == Some(i)
    ensures Get(s[i := x], key, key(x)) == Some(x)
    ensures forall k :: k != key(x) ==> Get(s[i := x], key, k) == Get(s, key, k)
  {
    var r := s[i := x];
    FindFirstIs(r, key, key(x), Some(i));
    forall k | k != key(x)
      ensures Get(r, key, k) == Get(s, key, k)
    {
      FindFirstIs(r, key, k, FindFirst(s, key, k));
    }
  }

  /** Appending `x` when no entry has its key. */
  lemma AppendLaws<T>(s: seq<T>, key: T -> string, x: T)
    requires FindFirst(s, key, key(x)).None?
    ensures Get(s + [x], key, key(x)) == Some(x)
    ensures forall k :: k != key(x) ==> Get(s + [x], key, k) == Get(s, key, k)
  {
    var r := s + [x];
    FindFirstIs(r, key, key(x), Some(|s|));
    forall k | k != key(x)
      ensures Get(r, key, k) == Get(s, key, k)
    {
      FindFirstIs(r, key, k, FindFirst(s, key, k));
    }
  }

  /** A record with a new key is appended. */
  lemma PutNew<T>(s: seq<T>, key: T -> string, x: T)
    requires forall j :: 0 <= j < |s| ==> key(s[j]) != key(x)
    ensures Put(s, key, x) == s + [x]
  {
    assert FindFirst(s, key, key(x)).None?;
  }

  /** Putting a record keeps the keys distinct. */
  lemma PutKeepsDistinct<T>(s: seq<T>, key: T -> string, x: T)
    requires DistinctKeys(s, key)
    ensures DistinctKeys(Put(s, key, x), key)
  {
  }

  /** `d.get(k)`: the record stored under key `k`, if any. */
  function Get<T>(s: seq<T>, key: T -> string, k: string): (r: Option<T>)
    ensures r.Some? ==> r.value in s && key(r.value) == k
    ensures r.None? <==> forall j :: 0 <= j < |s| ==> key(s[j]) != k
  {
    match FindFirst(s, key, k)
    case Some(i) => Some(s[i])
    case None => None
  }

  /** `for x in xs: d[key(x)] = x`, starting from `s`. */
  function PutAll<T>(s: seq<T>, key: T -> string, xs: seq<T>): (r: seq<T>)
    decreases |xs|
  {
    if |xs| == 0 then s else Put(PutAll(s, key, xs[..|xs| - 1]), key, xs[|xs| - 1])
  }

  /** Filling an empty dictionary from records with distinct keys gives back
      the records in their order. */
  lemma {:induction false} PutAllDistinct<T>(key: T -> string, xs: seq<T>)
    requires DistinctKeys(xs, key)
    ensures PutAll([], key, xs) == xs
  {
    if |xs| > 0 {
      var init := xs[..|xs| - 1];
      assert DistinctKeys(init, key);
      PutAllDistinct(key, init);
      var last := xs[|xs| - 1];
      assert forall j :: 0 <= j < |init| ==> key(init[j]) != key(last);
      PutNew(init, key, last);
    }
  }

  /** `[x for x in s if p(x)]`. */
  function Filter<T>(s: seq<T>, p: T -> bool): (r: seq<T>)
    ensures |r| <= |s|
  {
    if |s| == 0 then [] else (if p(s[0]) then [s[0]] else []) + Filter(s[1..], p)
  }

  /** The filter keeps exactly the elements satisfying `p`, each as often as
      it occurs in `s`. */
  lemma {:induction false} FilterContents<T(!new)>(s: seq<T>, p: T -> bool)
    ensures forall x :: x in Filter(s, p) <==> x in s && p(x)
    ensures forall x :: multiset(Filter(s, p))[x] == if p(x) then multiset(s)[x] else 0
  {
    if |s| > 0 {
      FilterContents(s[1..], p);
      assert s == [s[0]] + s[1..];
      assert multiset(s) == multiset{s[0]} + multiset(s[1..]);
      var head := if p(s[0]) then [s[0]] else [];
      assert Filter(s, p) == head + Filter(s[1..], p);
      assert multiset(Filter(s, p)) == multiset(head) + multiset(Filter(s[1..], p));
    }
  }

  /** Filtering twice is filtering once by both conditions. */
  lemma {:induction false} FilterTwice<T>(s: seq<T>, p: T -> bool, q: T -> bool, pq: T -> bool)
    requires forall x :: pq(x) == (p(x) && q(x))
    ensures Filter(Filter(s, p), q) == Filter(s, pq)
  {
    if |s| > 0 {
      FilterTwice(s[1..], p, q, pq);
      assert Filter(s, p) == (if p(s[0]) then [s[0]] else []) + Filter(s[1..], p);
      if p(s[0]) {
        assert Filter(s, p)[1..] == Filter(s[1..], p);
      } else {
        assert Filter(s, p) == Filter(s[1..], p);
      }
    }
  }

  /** Filters by two conditions that agree everywhere are equal. */
  lemma {:induction false} FilterSame<T>(s: seq<T>, p: T -> bool, q: T -> bool)
    requires forall x :: p(x) == q(x)
    ensures Filter(s, p) == Filter(s, q)
  {
    if |s| > 0 {
      FilterSame(s[1..], p, q);
    }
  }

  /** Filtering a concatenation filters each part. */
  lemma {:induction false} FilterAppend<T>(a: seq<T>, b: seq<T>, p: T -> bool)
    ensures Filter(a + b, p) == Filter(a, p) + Filter(b, p)
  {
    if |a| > 0 {
      FilterAppend(a[1..], b, p);
      assert (a + b)[1..] == a[1..] + b;
    } else {
      assert a + b == b;
    }
  }

  /** Nothing survives a filter that every element fails. */
  lemma {:induction false} FilterNone<T>(s: seq<T>, p: T -> bool)
    requires forall i :: 0 <= i < |s| ==> !p(s[i])
    ensures Filter(s, p) == []
  {
    if |s| > 0 {
      assert forall i :: 0 <= i < |s[1..]| ==> !p(s[1..][i]) by {
        forall i | 0 <= i < |s[1..]| ensures !p(s[1..][i]) {
          assert s[1..][i] == s[i + 1];
        }
      }
      FilterNone(s[1..], p);
    }
  }

  /** `r` is `s` with some elements deleted: the elements of `r` occur in
      `s` in the same order. */
  ghost predicate Subsequence<T>(r: seq<T>, s: seq<T>)
    decreases |s|
  {
    if |r| == 0 then true
    else if |s| == 0 then false
    else (r[0] == s[0] && Subsequence(r[1..], s[1..])) || Subsequence(r, s[1..])
  }

  /** Every sequence is a subsequence of itself. */
  lemma {:induction false} SubsequenceRefl<T>(s: seq<T>)
    ensures Subsequence(s, s)
  {
    if |s| > 0 {
      SubsequenceRefl(s[1..]);
    }
  }

  /** A filter keeps the order of the elements it keeps. */
  lemma {:induction false} FilterSubsequence<T>(s: seq<T>, p: T -> bool)
    ensures Subsequence(Filter(s, p), s)
  {
    if |s| > 0 {
      FilterSubsequence(s[1..], p);
      if p(s[0]) {
        assert Filter(s, p)[1..] == Filter(s[1..], p);
      } else {
        assert Filter(s, p) == Filter(s[1..], p);
      }
    }
  }

  /** `list(reversed(s))`. */
  function Reverse<T>(s: seq<T>): (r: seq<T>)
    ensures |r| == |s|
    ensures forall i :: 0 <= i < |s| ==> r[i] == s[|s| - 1 - i]
  {
    if |s| == 0 then [] else Reverse(s[1..]) + [s[0]]
  }
}
